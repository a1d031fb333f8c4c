/**
 * The read-only side of the skip list (folly/folly/ConcurrentSkipList.h): searches, first-fit bounds
 * and the Skipper, on a list that nobody changes meanwhile.  The list is any state whose layers are
 * in order, and every reachable state is one.
 */
module ConcurrentSkipListSearch {
  import opened Common
  import opened ConcurrentSkipList
  import opened ConcurrentSkipListProof
  import opened ConcurrentSkipListRuns

  ghost predicate Searchable(s: State) {
    HeadOk(s) && LayersOk(s) && 1 <= Height(s.nodes[s.head]) <= MAX_HEIGHT
  }

  /** What the searches below ask of the list holds in every reachable state. */
  lemma ReachableIsSearchable(run: seq<State>, sched: seq<Tid>, i: nat)
    requires Run(run, sched) && i < |run|
    ensures Searchable(run[i])
  {
    RunInv(run, sched, i);
    assert MemoryOk(run[i]);
    assert NodeOk(run[i], run[i].head);
  }

  /** Among the nodes of layer k with keys from `low` on, n has the least key; None if there are none. */
  ghost predicate LeastFrom(s: State, k: nat, low: int, n: Option<NodeId>) {
    match n
    case None => forall m | In(s, k, m) :: s.nodes[m].key < low
    case Some(x) =>
      && In(s, k, x) && low <= s.nodes[x].key
      && forall m | In(s, k, m) && low <= s.nodes[m].key :: s.nodes[x].key <= s.nodes[m].key
  }

  /** The key is in the list. */
  ghost predicate Present(s: State, d: Key) { exists m :: In(s, 0, m) && s.nodes[m].key == d }

  function Skip(s: State, x: NodeId, k: nat): Option<NodeId> {
    if x in s.nodes && k < Height(s.nodes[x]) then s.nodes[x].skip[k] else None
  }

  lemma LowerLayer(s: State, k: nat, x: NodeId)
    requires Searchable(s) && OnLayer(s, k, x)
    ensures forall j: nat | j <= k :: OnLayer(s, j, x) && j < Height(s.nodes[x])
  {
    forall j: nat | j <= k
      ensures OnLayer(s, j, x) && j < Height(s.nodes[x])
    {
      assert OnLayer(s, j, x) && NextOk(s, j, x);
    }
  }

  /** One layer walked to the right: the last node before d, and the first one from d on. */
  method StepRight(s: State, d: Key, k: nat, from: NodeId) returns (pred: NodeId, node: Option<NodeId>)
    requires Searchable(s) && OnLayer(s, k, from)
    ensures OnLayer(s, k, pred) && node == Skip(s, pred, k)
    ensures Pos(s.nodes[from]) < d ==> Pos(s.nodes[pred]) < d
    ensures Pos(s.nodes[from]) >= d ==> pred == from
    ensures LeastFrom(s, k, if Pos(s.nodes[from]) < d then d else Pos(s.nodes[from]) + 1, node)
  {
    pred := from;
    node := Skip(s, pred, k);
    assert NextOk(s, k, pred);
    while Greater(s, d, node)
      invariant OnLayer(s, k, pred) && node == Skip(s, pred, k) && NextOk(s, k, pred)
      invariant if Pos(s.nodes[from]) < d then Pos(s.nodes[pred]) < d else pred == from
      decreases d - Pos(s.nodes[pred])
    {
      pred := node.value;
      node := Skip(s, pred, k);
      assert NextOk(s, k, pred);
    }
  }

  /** The search the accessors use: down while the next node lies beyond the key, then right. */
  method FindNodeDownRight(s: State, d: Key) returns (node: Option<NodeId>, found: bool)
    requires Searchable(s)
    ensures found <==> Present(s, d)
    ensures LeastFrom(s, 0, d, node)
    ensures found ==> node.Some? && s.nodes[node.value].key == d
  {
    var pred := s.head;
    var ht: nat := Height(s.nodes[s.head]);
    node, found := None, false;
    while !found
      invariant ht <= Height(s.nodes[s.head])
      invariant ht > 0 && !found ==> OnLayer(s, ht - 1, pred) && Pos(s.nodes[pred]) < d
      invariant ht == 0 && !found ==> LeastFrom(s, 0, d, node) && Less(s, d, node)
      invariant found ==> node.Some? && In(s, 0, node.value) && s.nodes[node.value].key == d
      decreases !found, ht
    {
      while ht > 0
        invariant ht <= Height(s.nodes[s.head])
        invariant ht > 0 ==> OnLayer(s, ht - 1, pred) && Pos(s.nodes[pred]) < d
        invariant ht == 0 ==> LeastFrom(s, 0, d, node) && Less(s, d, node)
      {
        LowerLayer(s, ht - 1, pred);
        assert NextOk(s, ht - 1, pred);
        node := Skip(s, pred, ht - 1);
        if !Less(s, d, node) { break; }
        ht := ht - 1;
      }
      if ht == 0 { return; }
      ht := ht - 1;
      pred, node := StepRight(s, d, ht, pred);
      LowerLayer(s, ht, pred);
      found := !Less(s, d, node);
    }
  }

  /** The reference search: right on each layer, then down. */
  method FindNodeRightDown(s: State, d: Key) returns (node: Option<NodeId>, found: bool)
    requires Searchable(s)
    ensures found <==> Present(s, d)
    ensures LeastFrom(s, 0, d, node)
    ensures found ==> node.Some? && s.nodes[node.value].key == d
  {
    var pred := s.head;
    node, found := None, false;
    var layer: int := Height(s.nodes[s.head]) - 1;
    while !found && layer >= 0
      invariant -1 <= layer < Height(s.nodes[s.head])
      invariant layer >= 0 && !found ==> OnLayer(s, layer, pred) && Pos(s.nodes[pred]) < d
      invariant layer < 0 && !found ==> LeastFrom(s, 0, d, node) && Less(s, d, node)
      invariant found ==> node.Some? && In(s, 0, node.value) && s.nodes[node.value].key == d
      decreases layer
    {
      pred, node := StepRight(s, d, layer, pred);
      LowerLayer(s, layer, pred);
      found := !Less(s, d, node);
      layer := layer - 1;
    }
  }

  /** find: a node being removed is as good as absent. */
  method Find(s: State, d: Key) returns (r: Option<NodeId>)
    requires Searchable(s)
    ensures r.Some? ==> In(s, 0, r.value) && s.nodes[r.value].key == d && !s.nodes[r.value].flags.marked
    ensures r.None? ==> forall m | In(s, 0, m) && s.nodes[m].key == d :: s.nodes[m].flags.marked
  {
    var node, found := FindNodeDownRight(s, d);
    r := if found && !s.nodes[node.value].flags.marked then node else None;
    forall m | found && In(s, 0, m) && s.nodes[m].key == d
      ensures m == node.value
    {
      SameKeySameNode(s, 0, m, node.value);
    }
  }

  lemma BeyondShrinks(s: State, k: nat, pos: int, n: NodeId)
    requires In(s, k, n) && pos < s.nodes[n].key
    ensures |Beyond(s, k, s.nodes[n].key)| < |Beyond(s, k, pos)|
  {
    Shrinks(Beyond(s, k, s.nodes[n].key), Beyond(s, k, pos), n);
  }

  /** The search for an unmarked node from d on has come to `node`, the first one from `low` on. */
  ghost predicate PassedMarked(s: State, d: Key, low: int, node: Option<NodeId>) {
    && low >= d && LeastFrom(s, 0, low, node)
    && forall m | In(s, 0, m) && d <= s.nodes[m].key < low :: s.nodes[m].flags.marked
  }

  lemma PassMarked(s: State, d: Key, low: int, n: NodeId)
    requires Searchable(s) && PassedMarked(s, d, low, Some(n)) && s.nodes[n].flags.marked
    ensures PassedMarked(s, d, s.nodes[n].key + 1, Skip(s, n, 0))
    ensures |Beyond(s, 0, s.nodes[n].key)| < |Beyond(s, 0, low - 1)|
  {
    assert OnLayer(s, 0, n) && NextOk(s, 0, n);
    BeyondShrinks(s, 0, low - 1, n);
    forall m | In(s, 0, m) && low <= s.nodes[m].key <= s.nodes[n].key ensures m == n { SameKeySameNode(s, 0, m, n); }
  }

  /** lower_bound: the first node from d on that is not being removed. */
  method LowerBound(s: State, d: Key) returns (node: Option<NodeId>)
    requires Searchable(s)
    ensures node.Some? ==> In(s, 0, node.value) && !s.nodes[node.value].flags.marked && d <= s.nodes[node.value].key
    ensures forall m | In(s, 0, m) && !s.nodes[m].flags.marked && d <= s.nodes[m].key ::
      node.Some? && s.nodes[node.value].key <= s.nodes[m].key
  {
    var found;
    node, found := FindNodeDownRight(s, d);
    ghost var low: int := d;
    while node.Some? && s.nodes[node.value].flags.marked
      invariant PassedMarked(s, d, low, node)
      decreases |Beyond(s, 0, low - 1)|
    {
      PassMarked(s, d, low, node.value);
      low := s.nodes[node.value].key + 1;
      node := Skip(s, node.value, 0);
    }
  }

  /** last: right to the end of each layer, then down. */
  method Last(s: State) returns (r: Option<NodeId>)
    requires Searchable(s)
    ensures r.None? <==> forall m :: !In(s, 0, m)
    ensures r.Some? ==> In(s, 0, r.value) && forall m | In(s, 0, m) :: s.nodes[m].key <= s.nodes[r.value].key
  {
    var pred := s.head;
    var layer: int := Height(s.nodes[s.head]) - 1;
    while layer >= 0
      invariant -1 <= layer < Height(s.nodes[s.head])
      invariant OnLayer(s, if layer >= 0 then layer else 0, pred)
      invariant layer < 0 ==> forall m | In(s, 0, m) :: s.nodes[m].key <= Pos(s.nodes[pred])
    {
      pred := LastOnLayer(s, layer, pred);
      LowerLayer(s, layer, pred);
      layer := layer - 1;
    }
    r := if pred == s.head then None else Some(pred);
  }

  method LastOnLayer(s: State, k: nat, from: NodeId) returns (pred: NodeId)
    requires Searchable(s) && OnLayer(s, k, from)
    ensures OnLayer(s, k, pred) && forall m | In(s, k, m) :: s.nodes[m].key <= Pos(s.nodes[pred])
  {
    pred := from;
    assert NextOk(s, k, pred);
    var node := Skip(s, pred, k);
    while node.Some?
      invariant OnLayer(s, k, pred) && NextOk(s, k, pred) && node == Skip(s, pred, k)
      decreases |Beyond(s, k, Pos(s.nodes[pred]))|
    {
      BeyondShrinks(s, k, Pos(s.nodes[pred]), node.value);
      pred := node.value;
      assert NextOk(s, k, pred);
      node := Skip(s, pred, k);
    }
  }

  // ---------------------------------------------------------------- findInsertionPoint and the Skipper

  /** The search never goes back behind the node it starts from. */
  ghost function Floor(s: State, from: NodeId, d: Key): int
    requires from in s.nodes
  {
    if Pos(s.nodes[from]) < d then d else Pos(s.nodes[from]) + 1
  }

  /** Layer k of a recorded path: the nodes around the least key from `low` on. */
  ghost predicate Around(s: State, k: nat, low: int, pred: NodeId, succ: Option<NodeId>) {
    OnLayer(s, k, pred) && Pos(s.nodes[pred]) < low && succ == Skip(s, pred, k) && LeastFrom(s, k, low, succ)
  }

  /** The path is recorded for the layers above `done` up to `top`. */
  ghost predicate Recorded(s: State, done: int, top: nat, low: int, preds: seq<NodeId>, succs: seq<Option<NodeId>>) {
    && top < |preds| && top < |succs|
    && forall l: nat | done < l <= top :: Around(s, l, low, preds[l], succs[l])
  }

  /** The node found on a higher layer is met again on every layer below. */
  lemma MetAgain(s: State, k: nat, d: Key, n: NodeId, node: Option<NodeId>)
    requires Searchable(s) && In(s, k, n) && s.nodes[n].key == d && LeastFrom(s, k, d, node)
    ensures node == Some(n)
  {
    if node.Some? { SameKeySameNode(s, k, n, node.value); }
  }

  lemma RecordOne(s: State, k: nat, top: nat, low: int, preds: seq<NodeId>, succs: seq<Option<NodeId>>,
                  pred: NodeId, succ: Option<NodeId>)
    requires Recorded(s, k, top, low, preds, succs) && k <= top && Around(s, k, low, pred, succ)
    ensures Recorded(s, k - 1, top, low, preds[k := pred], succs[k := succ])
  {
  }

  lemma FoundIffPresent(s: State, d: Key, low: int, succ: Option<NodeId>, found: bool)
    requires LeastFrom(s, 0, low, succ) && low >= d
    requires if found then low == d && succ.Some? && s.nodes[succ.value].key == d else Less(s, d, succ)
    ensures found <==> Present(s, d) && low == d
  {
  }

  /** findInsertionPoint fills in preds and succs from layer `top` downwards. */
  method FindInsertionPoint(s: State, cur: NodeId, top: nat, d: Key, preds: array<NodeId>, succs: array<Option<NodeId>>)
    returns (foundLayer: int)
    requires Searchable(s) && OnLayer(s, top, cur) && top < preds.Length && top < succs.Length
    modifies preds, succs
    ensures Recorded(s, -1, top, Floor(s, cur, d), preds[..], succs[..])
    ensures preds[top + 1..] == old(preds[top + 1..]) && succs[top + 1..] == old(succs[top + 1..])
    ensures -1 <= foundLayer <= top
    ensures foundLayer >= 0 <==> Present(s, d) && Floor(s, cur, d) == d
  {
    foundLayer := -1;
    var pred, foundNode := cur, None;
    var layer: int := top;
    ghost var low := Floor(s, cur, d);
    while layer >= 0
      invariant -1 <= layer <= top && -1 <= foundLayer <= top
      invariant OnLayer(s, if layer >= 0 then layer else 0, pred) && Floor(s, pred, d) == low
      invariant Recorded(s, layer, top, low, preds[..], succs[..])
      invariant preds[top + 1..] == old(preds[top + 1..]) && succs[top + 1..] == old(succs[top + 1..])
      invariant foundLayer >= 0 <==> foundNode.Some?
      invariant foundNode.Some? ==>
        && layer < foundLayer && low == d && In(s, foundLayer, foundNode.value)
        && s.nodes[foundNode.value].key == d
      invariant layer < 0 ==> succs[0] == foundNode || (foundNode.None? && Less(s, d, succs[0]))
    {
      var node;
      pred, node := StepRight(s, d, layer, pred);
      LowerLayer(s, layer, pred);
      if foundLayer == -1 && !Less(s, d, node) {
        foundLayer, foundNode := layer, node;
      } else if foundNode.Some? {
        MetAgain(s, layer, d, foundNode.value, node);
      }
      ghost var preds0, succs0 := preds[..], succs[..];
      preds[layer] := pred;
      succs[layer] := if foundNode.Some? then foundNode else node;
      RecordOne(s, layer, top, low, preds0, succs0, pred, succs[layer]);
      assert preds[..] == preds0[layer := pred] && succs[..] == succs0[layer := succs[layer]];
      layer := layer - 1;
    }
    assert Around(s, 0, low, preds[0], succs[0]);
    FoundIffPresent(s, d, low, succs[0], foundLayer >= 0);
  }

  /** On each layer the Skipper keeps a node and its successor. */
  ghost predicate Standing(s: State, h: nat, preds: seq<NodeId>, succs: seq<Option<NodeId>>) {
    && h <= |preds| && h <= |succs|
    && forall i: nat | i < h :: OnLayer(s, i, preds[i]) && succs[i] == Skip(s, preds[i], i)
  }

  /** Upper layers may lag behind, never run ahead. */
  ghost predicate Lagging(s: State, h: nat, preds: seq<NodeId>) {
    && h <= |preds|
    && forall i, j | 0 <= i <= j < h :: Upward(s, preds[j], preds[i])
  }

  ghost predicate Upward(s: State, x: NodeId, y: NodeId) {
    x in s.nodes && y in s.nodes && Pos(s.nodes[x]) <= Pos(s.nodes[y])
  }

  /** The recorded predecessor is the last node of its layer before `low`. */
  lemma Nearest(s: State, k: nat, low: int, pred: NodeId, succ: Option<NodeId>, x: NodeId)
    requires Searchable(s) && Around(s, k, low, pred, succ) && OnLayer(s, k, x) && Pos(s.nodes[x]) < low
    ensures Upward(s, x, pred)
  {
    assert NextOk(s, k, pred);
  }

  lemma RecordedLags(s: State, h: nat, top: nat, low: int, before: seq<NodeId>, preds: seq<NodeId>,
                     succs: seq<Option<NodeId>>)
    requires Searchable(s) && top < h && Lagging(s, h, before) && |preds| == |before|
    requires preds[top + 1..] == before[top + 1..]
    requires OnLayer(s, top, before[top]) && Pos(s.nodes[before[top]]) < low && Recorded(s, -1, top, low, preds, succs)
    ensures Lagging(s, h, preds)
  {
    forall i, j | 0 <= i <= j < h ensures Upward(s, preds[j], preds[i]) {
      if j <= top {
        assert Around(s, i, low, preds[i], succs[i]) && Around(s, j, low, preds[j], succs[j]);
        LowerLayer(s, j, preds[j]);
        Nearest(s, i, low, preds[i], succs[i], preds[j]);
      } else {
        assert preds[j] == preds[top + 1..][j - (top + 1)] == before[j];
        if i <= top {
          assert Around(s, i, low, preds[i], succs[i]) && Upward(s, before[j], before[top]);
          LowerLayer(s, top, before[top]);
          Nearest(s, i, low, preds[i], succs[i], before[top]);
        } else {
          assert preds[i] == preds[top + 1..][i - (top + 1)] == before[i];
        }
      }
    }
  }

  lemma RecordedStands(s: State, h: nat, top: nat, low: int, before: seq<NodeId>, before': seq<Option<NodeId>>,
                       preds: seq<NodeId>, succs: seq<Option<NodeId>>)
    requires Standing(s, h, before, before') && |preds| == |before| && |succs| == |before'| && top < h
    requires preds[top + 1..] == before[top + 1..] && succs[top + 1..] == before'[top + 1..]
    requires Recorded(s, -1, top, low, preds, succs)
    ensures Standing(s, h, preds, succs)
  {
    forall i: nat | i < h ensures OnLayer(s, i, preds[i]) && succs[i] == Skip(s, preds[i], i) {
      if i <= top {
        assert Around(s, i, low, preds[i], succs[i]);
      } else {
        assert preds[i] == preds[top + 1..][i - (top + 1)] && succs[i] == succs[top + 1..][i - (top + 1)];
      }
    }
  }

  /** One layer steps over node n, which follows it and lies beyond the whole path. */
  lemma StepOver(s: State, h: nat, i: nat, preds: seq<NodeId>, succs: seq<Option<NodeId>>, n: NodeId)
    requires Searchable(s) && Standing(s, h, preds, succs) && Lagging(s, h, preds) && i < h && succs[i] == Some(n)
    requires i > 0 ==> preds[i - 1] == n
    ensures OnLayer(s, i, n) && Standing(s, h, preds[i := n], succs[i := Skip(s, n, i)]) && Lagging(s, h, preds[i := n])
  {
    assert NextOk(s, i, preds[i]);
    assert OnLayer(s, i, n);
    var moved := preds[i := n];
    forall a, b | 0 <= a <= b < h ensures Upward(s, moved[b], moved[a]) {
      assert Upward(s, preds[b], preds[a]);
      if b == i && a < i { assert Upward(s, preds[i - 1], preds[a]); }
    }
  }

  ghost predicate AtHead(s: State, h: nat, preds: seq<NodeId>, succs: seq<Option<NodeId>>) {
    h <= |preds| && h <= |succs| && forall i: nat | i < h :: preds[i] == s.head && succs[i] == Skip(s, s.head, i)
  }

  lemma HeadStands(s: State, h: nat, preds: seq<NodeId>, succs: seq<Option<NodeId>>)
    requires Searchable(s) && AtHead(s, h, preds, succs) && 1 <= h <= Height(s.nodes[s.head])
    ensures Standing(s, h, preds, succs) && Lagging(s, h, preds) && LeastFrom(s, 0, 0, succs[0])
  {
    assert OnLayer(s, 0, s.head) && NextOk(s, 0, s.head);
  }

  /** A search that starts at `from` is a lower bound exactly when it starts before every key from d on. */
  lemma LowerBoundIff(s: State, from: NodeId, d: Key, n: Option<NodeId>)
    requires from in s.nodes && LeastFrom(s, 0, Floor(s, from, d), n)
    ensures LeastFrom(s, 0, d, n) <==>
      forall m | In(s, 0, m) :: s.nodes[m].key < d || Pos(s.nodes[from]) < s.nodes[m].key
  {
    if LeastFrom(s, 0, d, n) {
      forall m | In(s, 0, m) && d <= s.nodes[m].key ensures Pos(s.nodes[from]) < s.nodes[m].key { assert n.Some?; }
    }
  }

  class Skipper {
    const list: State
    var headHeight: nat
    var preds: array<NodeId>
    var succs: array<Option<NodeId>>
    var hints: array<nat>

    ghost predicate Valid()
      reads this, preds, succs, hints
    {
      && Searchable(list) && headHeight == Height(list.nodes[list.head])
      && preds.Length == MAX_HEIGHT && succs.Length == MAX_HEIGHT && hints.Length == MAX_HEIGHT && preds != hints
      && Standing(list, headHeight, preds[..], succs[..]) && Lagging(list, headHeight, preds[..])
      && forall i | 0 <= i < headHeight :: hints[i] < headHeight
    }

    /** The node the Skipper stands on, None past the end. */
    function At(): Option<NodeId>
      reads this, succs
      requires succs.Length > 0
    {
      succs[0]
    }

    constructor (s: State)
      requires Searchable(s)
      ensures Valid() && list == s && fresh(preds) && fresh(succs) && fresh(hints)
      ensures LeastFrom(list, 0, 0, At())
    {
      var h := Height(s.nodes[s.head]);
      var p, q, t := new NodeId[MAX_HEIGHT], new Option<NodeId>[MAX_HEIGHT], new nat[MAX_HEIGHT];
      for i := 0 to h
        invariant AtHead(s, i, p[..], q[..])
      {
        p[i] := s.head;
        q[i] := Skip(s, s.head, i);
      }
      for i := 0 to h - 1
        invariant AtHead(s, h, p[..], q[..])
        invariant forall j | 0 <= j < i :: t[j] < h
      {
        t[i] := i + 1;
      }
      t[h - 1] := h - 1;
      HeadStands(s, h, p[..], q[..]);
      list, headHeight, preds, succs, hints := s, h, p, q, t;
    }

    method CurHeight() returns (h: nat)
      requires Valid()
      ensures h <= headHeight && (h == 0 <==> At() == None)
      ensures At().Some? ==> h <= Height(list.nodes[At().value])
    {
      assert NextOk(list, 0, preds[0]);
      if succs[0] == None { return 0; }
      assert OnLayer(list, 0, succs[0].value) && NextOk(list, 0, succs[0].value);
      var height := Height(list.nodes[succs[0].value]);
      h := if headHeight < height then headHeight else height;
    }

    /** operator++ goes to the next key. */
    method Next()
      requires Valid() && At().Some?
      modifies preds, succs
      ensures Valid() && preds[0] == old(At()).value
      ensures LeastFrom(list, 0, list.nodes[old(At()).value].key + 1, At())
    {
      var n := succs[0].value;
      StepOver(list, headHeight, 0, preds[..], succs[..], n);
      ghost var preds0, succs0 := preds[..], succs[..];
      preds[0] := n;
      succs[0] := Skip(list, n, 0);
      assert preds[..] == preds0[0 := n] && succs[..] == succs0[0 := Skip(list, n, 0)];
      assert NextOk(list, 0, n);
      var height := CurHeight();
      var i := 1;
      while i < height && succs[i] == Some(preds[0])
        invariant 1 <= i <= headHeight && Valid() && height <= headHeight && preds[0] == n && preds[i - 1] == n
        invariant succs[0] == Skip(list, n, 0)
      {
        StepOver(list, headHeight, i, preds[..], succs[..], n);
        ghost var preds1, succs1 := preds[..], succs[..];
        preds[i] := succs[i].value;
        succs[i] := Skip(list, preds[i], i);
        assert preds[..] == preds1[i := n] && succs[..] == succs1[i := Skip(list, n, i)];
        i := i + 1;
      }
    }

    /**
     * to: the first key from d on, found by climbing from the remembered layer and searching down.
     * The search starts behind the current node, at `from`, and never goes back behind that.
     */
    method To(d: Key) returns (found: bool, ghost from: NodeId)
      requires Valid()
      modifies preds, succs, hints
      ensures Valid() && Upward(list, from, old(preds[0]))
      ensures old(At()) == None ==> At() == None && !found
      ensures old(At()).Some? ==> LeastFrom(list, 0, Floor(list, from, d), At())
      ensures Pos(list.nodes[old(preds[0])]) < d ==> LeastFrom(list, 0, d, At())
      ensures found <==>
        old(At()).Some? && At().Some? && list.nodes[At().value].key == d && !list.nodes[At().value].flags.marked
    {
      from := preds[0];
      assert Lagging(list, headHeight, preds[..]) && NextOk(list, 0, preds[0]);
      var layer := CurHeight();
      if layer == 0 { return false, from; }
      var lyr: nat := hints[layer - 1];
      while Greater(list, d, succs[lyr]) && lyr < headHeight - 1
        invariant lyr < headHeight
      {
        lyr := lyr + 1;
      }
      hints[layer - 1] := lyr;
      from := preds[lyr];
      ghost var preds0, succs0 := preds[..], succs[..];
      var foundLayer := FindInsertionPoint(list, preds[lyr], lyr, d, preds, succs);
      RecordedStands(list, headHeight, lyr, Floor(list, from, d), preds0, succs0, preds[..], succs[..]);
      RecordedLags(list, headHeight, lyr, Floor(list, from, d), preds0, preds[..], succs[..]);
      assert Around(list, 0, Floor(list, from, d), preds[0], succs[0]);
      found := foundLayer >= 0 && !list.nodes[succs[0].value].flags.marked;
    }
  }
}
