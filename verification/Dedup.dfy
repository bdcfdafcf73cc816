/** Lists with later repeats dropped. */
module Dedup {
  function PushUnique<T(==)>(items: seq<T>, item: T): seq<T> {
    if item in items then items else items + [item]
  }

  /** First occurrences only, pushed one at a time. */
  function Distinct<T(==)>(items: seq<T>): seq<T> {
    if items == [] then [] else PushUnique(Distinct(items[..|items| - 1]), items[|items| - 1])
  }

  predicate NoRepeats<T(==)>(items: seq<T>) {
    forall i, j | 0 <= i < j < |items| :: items[i] != items[j]
  }

  function FirstAt<T(==)>(items: seq<T>, item: T): (k: nat)
    requires item in items
    ensures k < |items| && items[k] == item && item !in items[..k]
  {
    var n := |items| - 1;
    assert items == items[..n] + [items[n]];
    if item in items[..n] then
      var k := FirstAt(items[..n], item);
      assert items[..k] == items[..n][..k];
      k
    else n
  }

  /** The list of distinct items is the only one with these three properties:
      no repeats, the same members, in the order they first appear. */
  lemma {:induction false} DistinctIsFirstOccurrences<T>(items: seq<T>)
    ensures NoRepeats(Distinct(items))
    ensures forall x :: x in Distinct(items) <==> x in items
    ensures forall i, j | 0 <= i < j < |Distinct(items)| ::
              FirstAt(items, Distinct(items)[i]) < FirstAt(items, Distinct(items)[j])
  {
    if items != [] {
      var n := |items| - 1;
      assert items == items[..n] + [items[n]];
      DistinctIsFirstOccurrences(items[..n]);
    }
  }

  lemma {:induction false} DistinctGrows<T>(items: seq<T>, more: seq<T>)
    ensures Distinct(items) <= Distinct(items + more)
  {
    if more == [] {
      assert items + more == items;
    } else {
      var n := |more| - 1;
      assert (items + more)[..|items + more| - 1] == items + more[..n];
      DistinctGrows(items, more[..n]);
    }
  }

  /** Dropping repeats changes nothing exactly when there are none. */
  lemma {:induction false} DistinctFixes<T>(items: seq<T>)
    ensures Distinct(items) == items <==> NoRepeats(items)
  {
    DistinctIsFirstOccurrences(items);
    if items != [] && NoRepeats(items) {
      var n := |items| - 1;
      DistinctFixes(items[..n]);
      assert items == items[..n] + [items[n]];
    }
  }

  /** Anything seen before is dropped, in whatever order it comes again. */
  lemma {:induction false} DistinctDropsRepeats<T>(items: seq<T>, again: seq<T>)
    requires forall x | x in again :: x in items
    ensures Distinct(items + again) == Distinct(items)
  {
    if again == [] {
      assert items + again == items;
    } else {
      var n := |again| - 1;
      assert (items + again)[..|items + again| - 1] == items + again[..n];
      DistinctDropsRepeats(items, again[..n]);
      DistinctIsFirstOccurrences(items);
    }
  }

  lemma DistinctIsIdempotent<T>(items: seq<T>)
    ensures Distinct(Distinct(items)) == Distinct(items)
  {
    DistinctIsFirstOccurrences(items);
    DistinctFixes(Distinct(items));
  }

  /** Only what comes first matters: a later part may be deduplicated early. */
  lemma {:induction false} DistinctOfDistinct<T>(items: seq<T>, more: seq<T>)
    ensures Distinct(Distinct(items) + more) == Distinct(items + more)
  {
    if more == [] {
      assert items + more == items && Distinct(items) + more == Distinct(items);
      DistinctIsIdempotent(items);
    } else {
      var n := |more| - 1;
      assert (items + more)[..|items + more| - 1] == items + more[..n];
      assert (Distinct(items) + more)[..|Distinct(items) + more| - 1] == Distinct(items) + more[..n];
      DistinctOfDistinct(items, more[..n]);
    }
  }
}
