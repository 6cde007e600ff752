// `_group_padded` (pyref/costs.py): values grouped by key into a padded
// matrix by a stable sort, a running count and one scatter.
module Grouping {

  // The positions below n with this key, ascending.
  function GroupTo(keys: seq<nat>, k: nat, n: nat): (g: seq<nat>)
    requires n <= |keys|
    ensures |g| <= n
    ensures forall j :: 0 <= j < |g| ==> g[j] < n && keys[g[j]] == k
  {
    if n == 0 then []
    else GroupTo(keys, k, n - 1) + if keys[n - 1] == k then [n - 1] else []
  }

  function Group(keys: seq<nat>, k: nat): seq<nat> { GroupTo(keys, k, |keys|) }

  lemma {:induction false} GroupToIs(keys: seq<nat>, k: nat, n: nat)
    requires n <= |keys|
    ensures forall e :: 0 <= e < n && keys[e] == k ==> e in GroupTo(keys, k, n)
    ensures forall i, j :: 0 <= i < j < |GroupTo(keys, k, n)| ==> GroupTo(keys, k, n)[i] < GroupTo(keys, k, n)[j]
  {
    if n > 0 {
      GroupToIs(keys, k, n - 1);
      forall e | 0 <= e < n && keys[e] == k ensures e in GroupTo(keys, k, n) {
        if e == n - 1 { assert GroupTo(keys, k, n)[|GroupTo(keys, k, n - 1)|] == e; }
      }
    }
  }

  // Where key k's block starts.
  function Start(keys: seq<nat>, k: nat): nat {
    if k == 0 then 0 else Start(keys, k - 1) + |Group(keys, k - 1)|
  }

  // np.argsort(keys, kind="stable"), for keys below `top`.
  function Argsort(keys: seq<nat>, top: nat): (order: seq<nat>)
    ensures |order| == Start(keys, top)
    ensures forall i :: 0 <= i < |order| ==> order[i] < |keys|
  {
    if top == 0 then []
    else Argsort(keys, top - 1) + Group(keys, top - 1)
  }

  ghost predicate Stably(keys: seq<nat>, e: nat, f: nat) {
    e < |keys| && f < |keys| && (keys[e] < keys[f] || (keys[e] == keys[f] && e < f))
  }

  // It is a stable sort: keys ascend, equal keys keep their order, and every
  // position is there.
  lemma {:induction false} ArgsortIsStable(keys: seq<nat>, top: nat, i: nat, j: nat)
    requires i < j < |Argsort(keys, top)|
    ensures Stably(keys, Argsort(keys, top)[i], Argsort(keys, top)[j])
  {
    var n := Start(keys, top - 1);
    if j < n {
      ArgsortIsStable(keys, top - 1, i, j);
    } else if i < n {
      var l := BlockOf(keys, top - 1, i);
    } else {
      GroupToIs(keys, top - 1, |keys|);
    }
  }

  lemma {:induction false} ArgsortIsComplete(keys: seq<nat>, top: nat, e: nat)
    requires e < |keys| && keys[e] < top
    ensures e in Argsort(keys, top)
  {
    if keys[e] == top - 1 {
      GroupToIs(keys, top - 1, |keys|);
    } else {
      ArgsortIsComplete(keys, top - 1, e);
    }
  }

  // Position j of key k's block.
  lemma {:induction false} BlockAt(keys: seq<nat>, top: nat, k: nat, j: nat)
    requires k < top && j < |Group(keys, k)|
    ensures Start(keys, k) + j < |Argsort(keys, top)| && Argsort(keys, top)[Start(keys, k) + j] == Group(keys, k)[j]
  {
    if k < top - 1 { BlockAt(keys, top - 1, k, j); }
  }

  // Every position of the order is in some block.
  lemma {:induction false} BlockOf(keys: seq<nat>, top: nat, i: nat) returns (k: nat)
    requires i < |Argsort(keys, top)|
    ensures k < top && Start(keys, k) <= i < Start(keys, k) + |Group(keys, k)|
    ensures keys[Argsort(keys, top)[i]] == k
  {
    if i < Start(keys, top - 1) {
      k := BlockOf(keys, top - 1, i);
    } else {
      k := top - 1;
      assert Argsort(keys, top)[i] == Group(keys, k)[i - Start(keys, k)];
    }
  }

  ghost predicate WidthOk(keys: seq<nat>, top: nat, width: nat) {
    && width >= 1
    && (forall k: nat :: k < top ==> |Group(keys, k)| <= width)
    && (width > 1 ==> exists k: nat :: k < top && |Group(keys, k)| == width)
  }

  // np.bincount
  method Bincount(keys: seq<nat>, top: nat) returns (count: array<nat>)
    requires forall i :: 0 <= i < |keys| ==> keys[i] < top
    ensures fresh(count) && count.Length == top
    ensures forall k :: 0 <= k < top ==> count[k] == |Group(keys, k)|
  {
    count := new nat[top](_ => 0);
    for i := 0 to |keys|
      invariant forall k :: 0 <= k < top ==> count[k] == |GroupTo(keys, k, i)|
    {
      count[keys[i]] := count[keys[i]] + 1;
    }
  }

  // The counts' maximum and running sum.
  method Counts(keys: seq<nat>, top: nat) returns (start: seq<nat>, width: nat)
    requires forall i :: 0 <= i < |keys| ==> keys[i] < top
    ensures |start| == top && forall k :: 0 <= k < top ==> start[k] == Start(keys, k)
    ensures WidthOk(keys, top, width)
  {
    hide GroupTo;
    var count := Bincount(keys, top);
    start, width := [], 1;
    var sum := 0;
    for k := 0 to top
      invariant |start| == k && sum == Start(keys, k) && WidthOk(keys, k, width)
      invariant forall j :: 0 <= j < k ==> start[j] == Start(keys, j)
    {
      hide Group;
      start := start + [sum];
      sum := sum + count[k];
      if count[k] > width {
        width := count[k];
      }
    }
  }

  // Row k of the matrix: the group of k, then -1.
  function Cell(keys: seq<nat>, values: seq<nat>, k: nat, j: nat): int
    requires |values| == |keys|
  {
    if j < |Group(keys, k)| then values[Group(keys, k)[j]] else -1
  }

  // The matrix once the first n of the order are scattered.
  ghost predicate ScatteredTo(keys: seq<nat>, values: seq<nat>, out: array2<int>, n: nat)
    requires |values| == |keys|
    reads out
  {
    forall k: nat, j: nat :: k < out.Length0 && j < out.Length1 ==>
      out[k, j] == if Start(keys, k) + j < n then Cell(keys, values, k, j) else -1
  }

  method GroupPadded(keys: seq<nat>, values: seq<nat>, top: nat) returns (out: array2<int>)
    requires |values| == |keys| && forall i :: 0 <= i < |keys| ==> keys[i] < top
    ensures fresh(out) && out.Length0 == top && WidthOk(keys, top, out.Length1)
    ensures forall k: nat, j: nat :: k < top && j < out.Length1 ==> out[k, j] == Cell(keys, values, k, j)
  {
    var order := Argsort(keys, top);
    var start, width := Counts(keys, top);
    out := new int[top, width]((_, _) => -1);
    for i := 0 to |order|
      invariant ScatteredTo(keys, values, out, i)
    {
      ghost var k := BlockOf(keys, top, i);
      ghost var was := out[k, i - start[k]];
      BlockAt(keys, top, k, i - start[k]);
      var slot := i - start[keys[order[i]]];
      label Before:
      out[keys[order[i]], slot] := values[order[i]];
      forall k': nat, j: nat | k' < top && j < width
        ensures out[k', j] == if Start(keys, k') + j < i + 1 then Cell(keys, values, k', j) else -1 {
        if Start(keys, k') + j == i { SamePlace(keys, top, k, k', j); }
      }
    }
    forall k: nat, j: nat | k < top && j < width ensures out[k, j] == Cell(keys, values, k, j) {
      if j < |Group(keys, k)| { BlockAt(keys, top, k, j); }
    }
  }

  // The place that position i of the order goes to is the only one of its
  // kind that holds anything.
  lemma {:induction false} SamePlace(keys: seq<nat>, top: nat, k: nat, k': nat, j: nat)
    requires k < top && k' < top
    requires Start(keys, k) <= Start(keys, k') + j < Start(keys, k) + |Group(keys, k)|
    ensures k' == k || j >= |Group(keys, k')|
  {
    hide *;
    if j < |Group(keys, k')| {
      KeyAt(keys, top, k', Start(keys, k') + j);
      KeyAt(keys, top, k, Start(keys, k') + j);
    }
  }

  lemma {:induction false} KeyAt(keys: seq<nat>, top: nat, k: nat, i: nat)
    requires k < top && Start(keys, k) <= i < Start(keys, k) + |Group(keys, k)|
    ensures i < |Argsort(keys, top)| && keys[Argsort(keys, top)[i]] == k
  {
    hide Argsort, Start, GroupTo;
    BlockAt(keys, top, k, i - Start(keys, k));
    assert Start(keys, k) + (i - Start(keys, k)) == i;
  }
}
