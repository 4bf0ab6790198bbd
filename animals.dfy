/**
 * animals.py: `most_common_animal` counts every observed item in a
 * dictionary that remembers the order keys were first seen, announces
 * each item as known or unknown, and returns the key with the largest
 * count, the earliest seen among equals; with nothing observed, `max`
 * raises.
 */
module Animals {
  import opened Wrappers

  /** `known_animal_names`: they only choose the message printed for an item. */
  const KnownAnimalNames: set<string> := {"dog", "cat", "bear"}

  /** What `print(item, "is known.")` or `print(item, "is unknown.")` writes for an item. */
  function Announcement(item: string): (m: string)
    ensures item in KnownAnimalNames ==> m == item + " is known."
    ensures item !in KnownAnimalNames ==> m == item + " is unknown."
  {
    item + (if item in KnownAnimalNames then " is known." else " is unknown.")
  }

  /** `max` of an empty dictionary raises `ValueError`. */
  datatype AnimalError = NothingObserved

  // ---------------------------------------------------------------------------
  // The dictionary `occurrences`, as values

  /** How many times each item was observed: the contents of `occurrences` after the loop. */
  function Tally(items: seq<string>): map<string, nat>
  {
    map x | x in items :: multiset(items)[x]
  }

  /** The keys of `occurrences` in the order a dictionary iterates them: each item where it is first seen. */
  function FirstSeen(items: seq<string>): seq<string>
  {
    if items == [] then []
    else
      var seen := FirstSeen(items[..|items| - 1]);
      var x := items[|items| - 1];
      if x in seen then seen else seen + [x]
  }

  /** Where `x` first occurs in `items`. */
  function FirstIndex(items: seq<string>, x: string): (i: nat)
    requires x in items
    ensures i < |items| && items[i] == x
    ensures forall j :: 0 <= j < i ==> items[j] != x
  {
    if items[0] == x then 0 else 1 + FirstIndex(items[1..], x)
  }

  /**
   * `max(keys, key=count.get)`: the keys are scanned in order and a later
   * key replaces the best so far only when its count is strictly larger.
   */
  function FirstMax(keys: seq<string>, count: map<string, nat>): (m: string)
    requires keys != [] && forall k :: k in keys ==> k in count
    ensures m in keys
  {
    if |keys| == 1 then keys[0]
    else
      var best := FirstMax(keys[..|keys| - 1], count);
      var k := keys[|keys| - 1];
      if count[k] > count[best] then k else best
  }

  /** What `most_common_animal(observed_items)` returns, or the error `max` raises. */
  function MostCommon(items: seq<string>): Result<string, AnimalError>
  {
    if items == [] then Failure(NothingObserved)
    else
      FirstSeenKeys(items);
      Success(FirstMax(FirstSeen(items), Tally(items)))
  }

  // ---------------------------------------------------------------------------
  // most_common_animal (animals.py:3-12)

  /**
   * The counting loop, then `max`. The result depends on the items alone;
   * the known names only decide the messages.
   */
  method MostCommonAnimal(items: seq<string>) returns (r: Result<string, AnimalError>, messages: seq<string>)
    ensures r == MostCommon(items)
    ensures |messages| == |items| && forall i :: 0 <= i < |items| ==> messages[i] == Announcement(items[i])
  {
    var occurrences: map<string, nat> := map[];
    var order: seq<string> := [];
    messages := [];
    for i := 0 to |items|
      invariant occurrences == Tally(items[..i])
      invariant order == FirstSeen(items[..i])
      invariant |messages| == i && forall j :: 0 <= j < i ==> messages[j] == Announcement(items[j])
    {
      var item := items[i];
      messages := messages + [Announcement(item)];
      assert items[..i + 1] == items[..i] + [item];
      occurrences, order := Observe(items[..i], item, occurrences, order);
    }
    assert items[..|items|] == items;
    FirstSeenKeys(items);
    if order == [] {
      assert items == [] by {
        assert forall x :: x !in items;
      }
      r := Failure(NothingObserved);
    } else {
      assert order[0] in items;
      r := Success(FirstMax(order, occurrences));
    }
  }

  /** One turn of the loop: `occurrences[item] += 1` on a `defaultdict(int)`, which adds a new key at the end. */
  method Observe(seen: seq<string>, item: string, occurrences: map<string, nat>, order: seq<string>)
    returns (occurrences': map<string, nat>, order': seq<string>)
    requires occurrences == Tally(seen) && order == FirstSeen(seen)
    ensures occurrences' == Tally(seen + [item]) && order' == FirstSeen(seen + [item])
  {
    TallySnoc(seen, item);
    assert (seen + [item])[..|seen|] == seen;
    assert item in occurrences <==> item in order by {
      FirstSeenKeys(seen);
    }
    if item in occurrences {
      occurrences' := occurrences[item := occurrences[item] + 1];
      order' := order;
    } else {
      occurrences' := occurrences[item := 1];
      order' := order + [item];
    }
  }

  // ---------------------------------------------------------------------------
  // Lemmas

  /** One more item adds one to its count, starting from zero when it is new. */
  lemma TallySnoc(items: seq<string>, x: string)
    ensures Tally(items + [x]) == Tally(items)[x := if x in Tally(items) then Tally(items)[x] + 1 else 1]
  {
    var s := items + [x];
    assert multiset(s) == multiset(items) + multiset{x};
    assert forall y :: y in s <==> y in items || y == x;
    assert x !in items ==> multiset(items)[x] == 0;
  }

  /**
   * The keys of `occurrences` are the observed items, each exactly once,
   * in the order they were first seen.
   */
  lemma {:induction false} FirstSeenKeys(items: seq<string>)
    ensures var ks := FirstSeen(items);
            && (forall x :: x in ks <==> x in items)
            && (forall i, j :: 0 <= i < j < |ks| ==> ks[i] != ks[j])
            && (forall i, j :: 0 <= i < j < |ks| ==> FirstIndex(items, ks[i]) < FirstIndex(items, ks[j]))
  {
    if items != [] {
      var p := items[..|items| - 1];
      var x := items[|items| - 1];
      FirstSeenKeys(p);
      assert items == p + [x];
      assert forall y :: y in items <==> y in p || y == x;
      forall y | y in p
        ensures FirstIndex(items, y) == FirstIndex(p, y)
      {
        FirstIndexPrefix(p, [x], y);
      }
      if x !in p {
        assert FirstIndex(items, x) == |p| by {
          assert items[|p|] == x;
          assert forall j :: 0 <= j < |p| ==> items[j] == p[j];
        }
      }
    }
  }

  /** Where an item first occurs is the same in any longer list. */
  lemma {:induction false} FirstIndexPrefix(a: seq<string>, b: seq<string>, x: string)
    requires x in a
    ensures FirstIndex(a + b, x) == FirstIndex(a, x)
  {
    if a[0] != x {
      assert (a + b)[1..] == a[1..] + b;
      FirstIndexPrefix(a[1..], b, x);
    }
  }

  /**
   * What `max` promises: the result is one of the keys, no key has a larger
   * count, and every key before it has a strictly smaller one, so among
   * equal counts the first key wins.
   */
  lemma {:induction false} FirstMaxIsFirstMaximum(keys: seq<string>, count: map<string, nat>)
    requires keys != [] && forall k :: k in keys ==> k in count
    ensures var m := FirstMax(keys, count);
            && m in keys
            && (forall k :: k in keys ==> count[k] <= count[m])
            && exists i :: 0 <= i < |keys| && keys[i] == m && forall j :: 0 <= j < i ==> count[keys[j]] < count[m]
  {
    if |keys| > 1 {
      var p := keys[..|keys| - 1];
      var k := keys[|keys| - 1];
      assert keys == p + [k];
      assert forall y :: y in keys <==> y in p || y == k;
      FirstMaxIsFirstMaximum(p, count);
      var best := FirstMax(p, count);
      var i :| 0 <= i < |p| && p[i] == best && forall j :: 0 <= j < i ==> count[p[j]] < count[best];
      if count[k] > count[best] {
        assert forall j :: 0 <= j < |p| ==> count[p[j]] <= count[best];
        assert keys[|keys| - 1] == k;
      } else {
        assert keys[i] == best;
      }
    } else {
      assert keys == [keys[0]];
    }
  }

  /** Nothing observed is the one error; otherwise the answer is an observed item. */
  lemma MostCommonFails(items: seq<string>)
    ensures MostCommon(items).Failure? <==> items == []
    ensures MostCommon(items).Success? ==> MostCommon(items).value in items
  {
    if items != [] {
      FirstSeenKeys(items);
      FirstMaxIsFirstMaximum(FirstSeen(items), Tally(items));
    }
  }

  /**
   * The answer is the most frequent item and, among the most frequent, the
   * one seen first; it is the only item with both properties.
   */
  lemma MostCommonIsEarliestMostFrequent(items: seq<string>, y: string)
    requires items != [] && y in items
    ensures var m := MostCommon(items).value;
            && multiset(items)[y] <= multiset(items)[m]
            && (multiset(items)[y] == multiset(items)[m] ==> FirstIndex(items, m) <= FirstIndex(items, y))
            && (multiset(items)[y] == multiset(items)[m] && FirstIndex(items, m) == FirstIndex(items, y) ==> y == m)
  {
    var ks := FirstSeen(items);
    var count := Tally(items);
    FirstSeenKeys(items);
    FirstMaxIsFirstMaximum(ks, count);
    var m := FirstMax(ks, count);
    var i :| 0 <= i < |ks| && ks[i] == m && forall j :: 0 <= j < i ==> count[ks[j]] < count[m];
    var h :| 0 <= h < |ks| && ks[h] == y;
    if multiset(items)[y] == multiset(items)[m] && h != i {
      assert h > i;
    }
  }

  /** A worked case: with `cat` and `dog` seen twice each, the earlier `cat` wins over the later `dog`. */
  lemma ExampleTie()
    ensures MostCommon(["cat", "dog", "dog", "cat", "emu"]) == Success("cat")
  {
    var items := ["cat", "dog", "dog", "cat", "emu"];
    var m := MostCommon(items).value;
    MostCommonFails(items);
    assert multiset(items)["cat"] == 2 && multiset(items)["dog"] == 2 && multiset(items)["emu"] == 1;
    assert FirstIndex(items, "cat") == 0;
    MostCommonIsEarliestMostFrequent(items, "cat");
  }
}
