/**
 * The array operations the stores apply to lists of records identified by an
 * `id` string: `findIndex`, `find`, `filter(x => x.id !== id)`, and
 * `splice`, with JavaScript's treatment of negative and oversized indices.
 */
module Keyed {
  import opened Js

  /** `xs.findIndex(x => key(x) === id)`: the first matching index, or -1. */
  function IndexOf<T>(xs: seq<T>, key: T -> string, id: string): (i: int)
    ensures -1 <= i < |xs|
    ensures 0 <= i ==> key(xs[i]) == id && forall j | 0 <= j < i :: key(xs[j]) != id
    ensures i == -1 <==> forall j | 0 <= j < |xs| :: key(xs[j]) != id
  {
    if xs == [] then -1
    else if key(xs[0]) == id then 0
    else
      var r := IndexOf(xs[1..], key, id);
      assert forall j | 1 <= j < |xs| :: xs[j] == xs[1..][j - 1];
      if r == -1 then -1 else r + 1
  }

  /** `xs.find(x => key(x) === id)`: the first match, if any. */
  function Find<T>(xs: seq<T>, key: T -> string, id: string): (r: Option<T>)
    ensures r.Some? <==> exists j | 0 <= j < |xs| :: key(xs[j]) == id
    ensures r.Some? ==> r.value == xs[IndexOf(xs, key, id)]
  {
    var i := IndexOf(xs, key, id);
    if i < 0 then None else Some(xs[i])
  }

  /** `a` is `b` with some elements left out, the rest kept in order. */
  predicate IsSubsequence<T(==,!new)>(a: seq<T>, b: seq<T>)
    decreases |b|
  {
    if a == [] then true
    else if b == [] then false
    else if a[0] == b[0] then IsSubsequence(a[1..], b[1..])
    else IsSubsequence(a, b[1..])
  }

  /** `xs.filter(x => key(x) !== id)`. */
  function Without<T(==,!new)>(xs: seq<T>, key: T -> string, id: string): (r: seq<T>)
    ensures forall x :: x in r <==> x in xs && key(x) != id
    ensures IsSubsequence(r, xs)
    ensures (forall j | 0 <= j < |xs| :: key(xs[j]) != id) ==> r == xs
  {
    if xs == [] then []
    else
      var rest := Without(xs[1..], key, id);
      assert forall x :: x in xs <==> x == xs[0] || x in xs[1..];
      if key(xs[0]) != id then
        var r := [xs[0]] + rest;
        assert r[1..] == rest;
        assert (forall j | 0 <= j < |xs| :: key(xs[j]) != id) ==> (forall j | 0 <= j < |xs[1..]| :: key(xs[1..][j]) != id);
        r
      else
        assert rest != [] ==> rest[0] in rest;
        rest
  }

  /** Filtering twice by the same id changes nothing more. */
  lemma WithoutIdempotent<T(!new)>(xs: seq<T>, key: T -> string, id: string)
    ensures Without(Without(xs, key, id), key, id) == Without(xs, key, id)
  {
    var r := Without(xs, key, id);
    assert forall j | 0 <= j < |r| :: key(r[j]) != id by {
      forall j | 0 <= j < |r| ensures key(r[j]) != id { assert r[j] in r; }
    }
  }

  /** `xs.splice(start, deleteCount, ...items)`, as the array left behind: a
      negative `start` counts from the end, and both arguments are clamped
      to the array. */
  function Splice<T>(xs: seq<T>, start: int, deleteCount: int, items: seq<T>): (r: seq<T>)
    ensures 0 <= start <= |xs| && 0 <= deleteCount <= |xs| - start ==>
      r == xs[..start] + items + xs[start + deleteCount..]
    ensures start < 0 && 0 <= deleteCount ==>
      var s := if |xs| + start < 0 then 0 else |xs| + start;
      r == xs[..s] + items + xs[(if s + deleteCount > |xs| then |xs| else s + deleteCount)..]
  {
    var s := if start < 0 then (if |xs| + start < 0 then 0 else |xs| + start)
             else if start > |xs| then |xs| else start;
    var d := if deleteCount < 0 then 0 else if deleteCount > |xs| - s then |xs| - s else deleteCount;
    xs[..s] + items + xs[s + d..]
  }

  /** Take out the element at `from` and insert it at `to`: two splices. */
  function Moved<T>(xs: seq<T>, from: int, to: int): seq<T>
    requires 0 <= from < |xs|
  {
    Splice(Splice(xs, from, 1, []), to, 0, [xs[from]])
  }

  /** Moving within range keeps the length and the elements, and puts the
      moved element at its target index. */
  lemma MovedPermutes<T>(xs: seq<T>, from: int, to: int)
    requires 0 <= from < |xs| && 0 <= to < |xs|
    ensures |Moved(xs, from, to)| == |xs|
    ensures Moved(xs, from, to)[to] == xs[from]
    ensures multiset(Moved(xs, from, to)) == multiset(xs)
  {
    var rest := xs[..from] + xs[from + 1..];
    assert Splice(xs, from, 1, []) == rest;
    assert xs == xs[..from] + [xs[from]] + xs[from + 1..];
    assert multiset(xs) == multiset(rest) + multiset{xs[from]};
    var r := rest[..to] + [xs[from]] + rest[to..];
    assert Moved(xs, from, to) == r;
    assert rest == rest[..to] + rest[to..];
  }

  /** Moving an element one place, either way, swaps it with its neighbour. */
  lemma MovedAdjacent<T>(xs: seq<T>, i: int)
    requires 0 <= i && i + 1 < |xs|
    ensures Moved(xs, i, i + 1) == xs[i := xs[i + 1]][i + 1 := xs[i]]
    ensures Moved(xs, i + 1, i) == xs[i := xs[i + 1]][i + 1 := xs[i]]
  {
    var down := xs[..i] + xs[i + 1..];
    assert Splice(xs, i, 1, []) == down;
    assert Moved(xs, i, i + 1) == down[..i + 1] + [xs[i]] + down[i + 1..];
    var up := xs[..i + 1] + xs[i + 2..];
    assert Splice(xs, i + 1, 1, []) == up;
    assert Moved(xs, i + 1, i) == up[..i] + [xs[i + 1]] + up[i..];
  }
}
