/** Sums over sequences, of a weight for each item. */
module Sums {

  function Total<T>(items: seq<T>, weight: T -> int): int {
    if items == [] then 0 else Total(items[..|items| - 1], weight) + weight(items[|items| - 1])
  }

  lemma TotalAppend<T>(items: seq<T>, item: T, weight: T -> int)
    ensures Total(items + [item], weight) == Total(items, weight) + weight(item)
  {
    assert (items + [item])[..|items|] == items;
  }

  lemma {:induction false} TotalUpdate<T>(items: seq<T>, i: nat, item: T, weight: T -> int)
    requires i < |items|
    ensures Total(items[i := item], weight) == Total(items, weight) - weight(items[i]) + weight(item)
  {
    var front := items[..|items| - 1];
    if i < |front| {
      TotalUpdate(front, i, item, weight);
      assert items[i := item][..|items| - 1] == front[i := item];
    } else {
      assert items[i := item][..|items| - 1] == front;
    }
  }

  lemma {:induction false} TotalIsNatural<T>(items: seq<T>, weight: T -> int)
    requires forall i :: 0 <= i < |items| ==> weight(items[i]) >= 0
    ensures Total(items, weight) >= 0
    ensures forall i :: 0 <= i < |items| ==> weight(items[i]) <= Total(items, weight)
  {
    if items != [] {
      var front := items[..|items| - 1];
      TotalIsNatural(front, weight);
      assert forall i :: 0 <= i < |front| ==> front[i] == items[i];
    }
  }

  lemma {:induction false} TotalOfNothing<T>(items: seq<T>, weight: T -> int)
    requires forall i :: 0 <= i < |items| ==> weight(items[i]) == 0
    ensures Total(items, weight) == 0
  {
    if items != [] {
      TotalOfNothing(items[..|items| - 1], weight);
    }
  }
}
