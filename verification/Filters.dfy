/** Which items a filter keeps, and in which order. */
module Filters {

  function Filter<T>(items: seq<T>, keep: T -> bool): seq<T> {
    if items == [] then []
    else Filter(items[..|items| - 1], keep) + if keep(items[|items| - 1]) then [items[|items| - 1]] else []
  }

  ghost predicate Distinct<T>(items: seq<T>) {
    forall a, b :: 0 <= a < b < |items| ==> items[a] != items[b]
  }

  /** `x` stands somewhere before `y`. */
  ghost predicate Ahead<T(!new)>(items: seq<T>, x: T, y: T) {
    exists a, b :: 0 <= a < b < |items| && items[a] == x && items[b] == y
  }

  lemma {:induction false} FilterGrows<T>(items: seq<T>, keep: T -> bool, i: nat)
    requires i <= |items|
    ensures Filter(items[..i], keep) <= Filter(items, keep)
  {
    if i == |items| {
      assert items[..i] == items;
    } else {
      FilterGrows(items[..|items| - 1], keep, i);
      assert items[..|items| - 1][..i] == items[..i];
    }
  }

  lemma CountGrows<T>(items: seq<T>, keep: T -> bool, i: nat, k: nat)
    requires i <= k <= |items|
    ensures |Filter(items[..i], keep)| <= |Filter(items[..k], keep)|
  {
    FilterGrows(items[..k], keep, i);
    assert items[..k][..i] == items[..i];
  }

  /** A kept item comes after those kept of the items before it. */
  lemma KeptAt<T>(items: seq<T>, keep: T -> bool, i: nat)
    requires i < |items| && keep(items[i])
    ensures |Filter(items[..i], keep)| < |Filter(items[..i + 1], keep)| <= |Filter(items, keep)|
    ensures Filter(items, keep)[|Filter(items[..i], keep)|] == items[i]
  {
    FilterGrows(items, keep, i + 1);
    assert items[..i + 1][..i] == items[..i];
  }

  /** Every kept item comes from somewhere. */
  lemma {:induction false} KeptFrom<T>(items: seq<T>, keep: T -> bool, p: nat) returns (i: nat)
    requires p < |Filter(items, keep)|
    ensures i < |items| && keep(items[i]) && items[i] == Filter(items, keep)[p] && |Filter(items[..i], keep)| == p
  {
    var front := items[..|items| - 1];
    if p < |Filter(front, keep)| {
      i := KeptFrom(front, keep, p);
      assert front[..i] == items[..i];
    } else {
      i := |items| - 1;
    }
  }

  lemma KeepsOrder<T(!new)>(items: seq<T>, keep: T -> bool, p: nat, q: nat)
    requires p < q < |Filter(items, keep)|
    ensures Ahead(items, Filter(items, keep)[p], Filter(items, keep)[q])
  {
    var a := KeptFrom(items, keep, p);
    var b := KeptFrom(items, keep, q);
    if b <= a {
      CountGrows(items, keep, b, a);
    }
  }

  /** An item that is kept comes before every kept one that it was ahead of. */
  lemma KeepsAhead<T(!new)>(items: seq<T>, keep: T -> bool, x: T, q: nat) returns (p: nat)
    requires Distinct(items) && q < |Filter(items, keep)| && keep(x) && Ahead(items, x, Filter(items, keep)[q])
    ensures p < q && Filter(items, keep)[p] == x
  {
    var a, b :| 0 <= a < b < |items| && items[a] == x && items[b] == Filter(items, keep)[q];
    var c := KeptFrom(items, keep, q);
    assert c == b;
    p := |Filter(items[..a], keep)|;
    KeptAt(items, keep, a);
    CountGrows(items, keep, a + 1, b);
  }

  /** The first few items come before the same as all of them. */
  lemma PrefixKeepsAhead<T(!new)>(items: seq<T>, x: T, q: nat, n: nat)
    requires Distinct(items) && q < n <= |items| && Ahead(items, x, items[q])
    ensures Ahead(items[..n], x, items[q])
  {
    var a, b :| 0 <= a < b < |items| && items[a] == x && items[b] == items[q];
    assert b == q && items[..n][a] == x && items[..n][q] == items[q];
  }

  /** The order in which a filter leaves its items: theirs, and nothing kept is overtaken. */
  ghost predicate OldestFirst<T(!new)>(items: seq<T>, keep: T -> bool, kept: seq<T>) {
    && (forall p, q :: 0 <= p < q < |kept| ==> Ahead(items, kept[p], kept[q]))
    && (forall x, q :: keep(x) && 0 <= q < |kept| && Ahead(items, x, kept[q]) ==> Ahead(kept, x, kept[q]))
  }

  lemma FilterIsOldestFirst<T(!new)>(items: seq<T>, keep: T -> bool)
    requires Distinct(items)
    ensures OldestFirst(items, keep, Filter(items, keep))
  {
    var kept := Filter(items, keep);
    forall p, q | 0 <= p < q < |kept| ensures Ahead(items, kept[p], kept[q]) {
      KeepsOrder(items, keep, p, q);
    }
    forall x, q | keep(x) && 0 <= q < |kept| && Ahead(items, x, kept[q]) ensures Ahead(kept, x, kept[q]) {
      var p := KeepsAhead(items, keep, x, q);
    }
  }
}
