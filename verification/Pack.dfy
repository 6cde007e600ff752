// Building a graph pack's edge tables (ingestion/pack.py): the node index
// over sorted edges, and the greedy pairing of opposite directions.
module Pack {

  // A directed edge before it is numbered; `key` tells parallel edges apart.
  datatype RawEdge = RawEdge(tail: nat, head: nat, way: int, key: int)

  // (tail, head, way, key) in lexicographic order.
  predicate Before(x: RawEdge, y: RawEdge) {
    if x.tail != y.tail then x.tail < y.tail
    else if x.head != y.head then x.head < y.head
    else if x.way != y.way then x.way < y.way
    else x.key <= y.key
  }

  // What raw_edges.sort leaves behind, over nodes 0 .. n-1.
  ghost predicate EdgeList(edges: seq<RawEdge>, n: nat) {
    && (forall e :: 0 <= e < |edges| ==> edges[e].tail < n && edges[e].head < n)
    && (forall e, f :: 0 <= e < f < |edges| ==> Before(edges[e], edges[f]))
  }

  // ------------------------------------------------------------ node index

  // How many edges leave a node below n.
  function Below(edges: seq<RawEdge>, n: int): (c: nat)
    ensures c <= |edges|
  {
    if edges == [] then 0
    else
      var m := |edges| - 1;
      Below(edges[..m], n) + if edges[m].tail < n then 1 else 0
  }

  function Leaving(edges: seq<RawEdge>, n: int): nat {
    if edges == [] then 0
    else
      var m := |edges| - 1;
      Leaving(edges[..m], n) + if edges[m].tail == n then 1 else 0
  }

  lemma {:induction false} BelowNext(edges: seq<RawEdge>, n: int)
    ensures Below(edges, n + 1) == Below(edges, n) + Leaving(edges, n)
  {
    if edges != [] { BelowNext(edges[..|edges| - 1], n); }
  }

  lemma {:induction false} BelowNone(edges: seq<RawEdge>, n: int)
    requires forall e :: 0 <= e < |edges| ==> edges[e].tail >= n
    ensures Below(edges, n) == 0
  {
    if edges != [] { BelowNone(edges[..|edges| - 1], n); }
  }

  lemma {:induction false} BelowAll(edges: seq<RawEdge>, n: int)
    requires forall e :: 0 <= e < |edges| ==> edges[e].tail < n
    ensures Below(edges, n) == |edges|
  {
    if edges != [] { BelowAll(edges[..|edges| - 1], n); }
  }

  // Sorted edges below n come first.
  lemma {:induction false} BelowIsPrefix(edges: seq<RawEdge>, n: int, e: nat)
    requires forall x, y :: 0 <= x < y < |edges| ==> edges[x].tail <= edges[y].tail
    requires e < |edges|
    ensures e < Below(edges, n) <==> edges[e].tail < n
  {
    var m := |edges| - 1;
    if e < m {
      BelowIsPrefix(edges[..m], n, e);
      if edges[m].tail < n { BelowAll(edges[..m], n); }
    } else if edges[m].tail < n {
      BelowAll(edges[..m], n);
    }
  }

  // node_out_ptr: a histogram of tails, shifted by one and summed up.
  method NodeOutPtr(edges: seq<RawEdge>, n: nat) returns (ptr: array<nat>)
    requires EdgeList(edges, n)
    ensures fresh(ptr) && ptr.Length == n + 1
    ensures forall i :: 0 <= i <= n ==> ptr[i] == Below(edges, i)
  {
    ptr := new nat[n + 1](_ => 0);
    for e := 0 to |edges|
      invariant ptr[0] == 0
      invariant forall i :: 0 <= i < n ==> ptr[i + 1] == Leaving(edges[..e], i)
    {
      assert edges[..e + 1][..e] == edges[..e];
      ptr[edges[e].tail + 1] := ptr[edges[e].tail + 1] + 1;
    }
    assert edges[..|edges|] == edges;
    BelowNone(edges, 0);
    for i := 0 to n
      invariant forall j :: 0 <= j <= i ==> ptr[j] == Below(edges, j)
      invariant forall j :: i <= j < n ==> ptr[j + 1] == Leaving(edges, j)
    {
      BelowNext(edges, i);
      ptr[i + 1] := ptr[i] + ptr[i + 1];
    }
  }

  // The index enumerates exactly each node's out-edges.
  ghost predicate NodeIndex(edges: seq<RawEdge>, n: nat, ptr: seq<nat>) {
    && |ptr| == n + 1 && ptr[0] == 0 && ptr[n] == |edges|
    && (forall i, j :: 0 <= i <= j <= n ==> ptr[i] <= ptr[j])
    && forall i, e :: 0 <= i < n && 0 <= e < |edges| ==> EnumeratesOut(edges, ptr, i, e)
  }

  ghost predicate EnumeratesOut(edges: seq<RawEdge>, ptr: seq<nat>, i: int, e: int) {
    && 0 <= i && i + 1 < |ptr| && 0 <= e < |edges|
    && (ptr[i] <= e < ptr[i + 1] <==> edges[e].tail == i)
  }

  lemma {:induction false} BelowGrows(edges: seq<RawEdge>, i: int, j: int)
    requires i <= j
    ensures Below(edges, i) <= Below(edges, j)
  {
    if edges != [] { BelowGrows(edges[..|edges| - 1], i, j); }
  }

  lemma {:induction false} IndexIsExact(edges: seq<RawEdge>, n: nat, ptr: seq<nat>)
    requires EdgeList(edges, n)
    requires |ptr| == n + 1 && forall i :: 0 <= i <= n ==> ptr[i] == Below(edges, i)
    ensures NodeIndex(edges, n, ptr)
  {
    BelowNone(edges, 0);
    BelowAll(edges, n);
    forall i, j | 0 <= i <= j <= n ensures ptr[i] <= ptr[j] { BelowGrows(edges, i, j); }
    forall i, e | 0 <= i < n && 0 <= e < |edges| ensures EnumeratesOut(edges, ptr, i, e) {
      BelowIsPrefix(edges, i, e);
      BelowIsPrefix(edges, i + 1, e);
    }
  }

  // ----------------------------------------------------------- reverse map

  // Opposite directions of one two-way street.
  predicate Opposite(x: RawEdge, y: RawEdge) {
    x.tail == y.head && x.head == y.tail && x.way == y.way
  }

  type Ends = (nat, nat, int)

  function EndsOf(e: RawEdge): Ends { (e.tail, e.head, e.way) }

  // by_endpoints: the ids of the edges with these ends, ascending.
  ghost predicate Indexes(edges: seq<RawEdge>, n: nat, ids: map<Ends, seq<nat>>)
    requires n <= |edges|
  {
    && (forall e :: 0 <= e < n ==> EndsOf(edges[e]) in ids && e in ids[EndsOf(edges[e])])
    && forall k, i :: k in ids && 0 <= i < |ids[k]| ==> ids[k][i] < n && EndsOf(edges[ids[k][i]]) == k
  }

  method ByEndpoints(edges: seq<RawEdge>) returns (ids: map<Ends, seq<nat>>)
    ensures Indexes(edges, |edges|, ids)
  {
    ids := map[];
    for e := 0 to |edges|
      invariant Indexes(edges, e, ids)
    {
      var k := EndsOf(edges[e]);
      var before := if k in ids then ids[k] else [];
      ids := ids[k := before + [e]];
      forall f | 0 <= f <= e ensures EndsOf(edges[f]) in ids && f in ids[EndsOf(edges[f])] {
        if f == e { assert ids[k][|before|] == e; }
        else if EndsOf(edges[f]) == k {
          var i :| 0 <= i < |before| && before[i] == f;
          assert ids[k][i] == f;
        }
      }
    }
  }

  // A pairing of opposite edges in the same way: mutual, and never an edge
  // with itself.
  ghost predicate Pairing(edges: seq<RawEdge>, rev: seq<int>) {
    && |rev| == |edges|
    && forall e :: 0 <= e < |rev| && rev[e] != -1 ==>
         0 <= rev[e] < |rev| && rev[e] != e && rev[rev[e]] == e && Opposite(edges[e], edges[rev[e]])
  }

  // No two opposite edges are both left alone, as far as e < n is one of them.
  ghost predicate MaximalTo(edges: seq<RawEdge>, rev: seq<int>, n: nat)
    requires |rev| == |edges|
  {
    forall e, f :: 0 <= e < n && e < |edges| && 0 <= f < |edges| && e != f && Opposite(edges[e], edges[f]) ==>
      rev[e] != -1 || rev[f] != -1
  }

  method PairReverses(edges: seq<RawEdge>) returns (rev: array<int>)
    ensures fresh(rev) && Pairing(edges, rev[..]) && MaximalTo(edges, rev[..], |edges|)
  {
    hide Pairing, MaximalTo, Indexes, Opposite;
    rev := new int[|edges|](_ => -1);
    var ids := ByEndpoints(edges);
    NothingPaired(edges, rev[..]);
    for e := 0 to |edges|
      invariant Pairing(edges, rev[..]) && MaximalTo(edges, rev[..], e)
    {
      if rev[e] != -1 {
        AlreadyPaired(edges, rev[..], e);
        continue;
      }
      var k := (edges[e].head, edges[e].tail, edges[e].way);
      var cands := if k in ids then ids[k] else [];
      CandidatesOpposite(edges, ids, e, k);
      ghost var was := rev[..];
      var i := 0;
      while i < |cands| && (cands[i] == e || rev[cands[i]] != -1)
        invariant i <= |cands| && rev[..] == was
        invariant forall j :: 0 <= j < i ==> cands[j] == e || was[cands[j]] != -1
      {
        i := i + 1;
      }
      if i < |cands| {
        rev[e] := cands[i];
        rev[cands[i]] := e;
        PairAdded(edges, was, e, cands[i], rev[..]);
      } else {
        NoneFree(edges, rev[..], ids, e);
      }
    }
  }

  lemma NothingPaired(edges: seq<RawEdge>, rev: seq<int>)
    requires |rev| == |edges| && forall e :: 0 <= e < |rev| ==> rev[e] == -1
    ensures Pairing(edges, rev) && MaximalTo(edges, rev, 0)
  {
  }

  lemma AlreadyPaired(edges: seq<RawEdge>, rev: seq<int>, e: nat)
    requires e < |edges| == |rev| && MaximalTo(edges, rev, e) && rev[e] != -1
    ensures MaximalTo(edges, rev, e + 1)
  {
  }

  lemma CandidatesOpposite(edges: seq<RawEdge>, ids: map<Ends, seq<nat>>, e: nat, k: Ends)
    requires Indexes(edges, |edges|, ids) && e < |edges| && k == (edges[e].head, edges[e].tail, edges[e].way)
    ensures k in ids ==> forall i :: 0 <= i < |ids[k]| ==> ids[k][i] < |edges| && Opposite(edges[e], edges[ids[k][i]])
  {
  }

  // Every candidate taken: e has nobody left.
  lemma NoneFree(edges: seq<RawEdge>, rev: seq<int>, ids: map<Ends, seq<nat>>, e: nat)
    requires Indexes(edges, |edges|, ids) && e < |edges| == |rev| && MaximalTo(edges, rev, e)
    requires var k := (edges[e].head, edges[e].tail, edges[e].way);
             k in ids ==> forall j :: 0 <= j < |ids[k]| ==> ids[k][j] == e || rev[ids[k][j]] != -1
    ensures MaximalTo(edges, rev, e + 1)
  {
    forall f | 0 <= f < |edges| && e != f && Opposite(edges[e], edges[f]) ensures rev[f] != -1 {
      assert EndsOf(edges[f]) == (edges[e].head, edges[e].tail, edges[e].way);
    }
  }

  lemma PairAdded(edges: seq<RawEdge>, rev: seq<int>, e: nat, f: nat, rev': seq<int>)
    requires Pairing(edges, rev) && e < |edges| && f < |edges| && e != f && rev[e] == -1 && rev[f] == -1
    requires Opposite(edges[e], edges[f]) && rev' == rev[e := f][f := e as int]
    ensures Pairing(edges, rev')
    ensures MaximalTo(edges, rev, e) ==> MaximalTo(edges, rev', e + 1)
  {
  }
}
