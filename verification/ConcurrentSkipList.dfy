/**
 * ConcurrentSkipList as a state machine (folly/folly/ConcurrentSkipList.h,
 * folly/folly/ConcurrentSkipList-inl.h).
 *
 * Any number of threads run addOrGetData, remove and growHeight.  A step is one load or store of a
 * link, of a node's flags, of head_ or of size_, or one spin-lock operation; comparisons of keys,
 * which never change, are local.  setFlags(getFlags() | bit) is two steps, as in the code.  Random
 * node heights and the size limit that triggers growth are arbitrary.  Keys are natural numbers:
 * any finite set of keys of a total order embeds in them.
 *
 * Fields marked "aux" are never tested by a step.  size_ is assumed not to reach 2^64.
 */
module ConcurrentSkipList {
  import opened Common

  type NodeId = nat
  type Key = nat

  const MAX_HEIGHT := 24
  const SIZE_LIMIT := 0x1_0000_0000_0000_0000

  datatype Flags = Flags(isHead: bool, marked: bool, linked: bool)

  datatype Node = Node(
    key: Key,
    skip: seq<Option<NodeId>>,    // skip_[0 .. height_)
    flags: Flags,
    lock: Option<Tid>,
    sentinel: bool,               // aux: created as a head
    owner: Tid,                   // aux: the thread that created it
    retirer: Option<Tid>,         // aux: the thread that is taking it out of the list
    up: nat,                      // aux: layers below this one contain the node now
    ever: nat)                    // aux: layers below this one have contained it; a head: height once published

  function Height(r: Node): nat { |r.skip| }

  /** The position of a node in the order of the list; heads come before every key. */
  function Pos(r: Node): int { if r.sentinel then -1 else r.key }

  /** What one run of findInsertionPoint leaves behind, from some layer upwards. */
  datatype Path = Path(preds: seq<NodeId>, succs: seq<Option<NodeId>>, found: Option<NodeId>, layer: int)

  /** The caller of the search; a remove that has marked its victim keeps it, and its lock, across retries. */
  datatype Op = Adding | Removing(victim: Option<NodeId>)

  /** What follows the release of the predecessors' locks. */
  datatype After = Retry(op: Op, d: Key) | Added(size: nat) | Unlinked(n: NodeId)

  datatype Pc =
    | Idle
    // findInsertionPointGetMaxLayer
    | Top(op: Op, d: Key)
    | Start(op: Op, d: Key, top: nat)
    | Walk(op: Op, d: Key, layer: nat, pred: NodeId, path: Path)
    // addOrGetData: the key is there already
    | AddFound(d: Key, n: NodeId)
    | AddWait(n: NodeId)
    // remove: okToDelete, then marking under the victim's lock
    | RemLinked(d: Key, n: NodeId, path: Path)
    | RemUnmarked(d: Key, n: NodeId, path: Path)
    | RemTake(d: Key, n: NodeId, path: Path)
    | RemSeen(d: Key, n: NodeId, path: Path)
    | RemMarkLoad(d: Key, n: NodeId, path: Path)
    | RemMarkStore(d: Key, n: NodeId, path: Path, seen: Flags)
    // lockNodesForChange
    | LockTake(op: Op, d: Key, h: nat, path: Path, layer: nat, held: seq<NodeId>)
    | LockMarked(op: Op, d: Key, h: nat, path: Path, layer: nat, held: seq<NodeId>)
    | LockSkip(op: Op, d: Key, h: nat, path: Path, layer: nat, held: seq<NodeId>)
    | LockSucc(op: Op, d: Key, h: nat, path: Path, layer: nat, held: seq<NodeId>)
    // addOrGetData under the locks
    | AddCreate(d: Key, h: nat, path: Path, held: seq<NodeId>)
    | AddNext(n: NodeId, k: nat, path: Path, held: seq<NodeId>)
    | AddLink(n: NodeId, k: nat, path: Path, held: seq<NodeId>)
    | AddFlagLoad(n: NodeId, path: Path, held: seq<NodeId>)
    | AddFlagStore(n: NodeId, path: Path, held: seq<NodeId>, seen: Flags)
    | AddSize(n: NodeId, path: Path, held: seq<NodeId>)
    // remove under the locks
    | RemLoad(n: NodeId, k: nat, path: Path, held: seq<NodeId>)
    | RemStore(n: NodeId, k: nat, path: Path, held: seq<NodeId>, next: Option<NodeId>)
    | RemSize(n: NodeId, held: seq<NodeId>)
    // leaving
    | Unlock(after: After, victim: Option<NodeId>, held: seq<NodeId>)
    | AddHeight(size: nat)
    | RemRecycle(n: NodeId)
    | RemExit(n: NodeId)
    // growHeight
    | GrowHead(h: nat)
    | GrowTake(prior: NodeId, taller: NodeId)
    | GrowFlags(prior: NodeId, taller: NodeId)
    | GrowCopy(prior: NodeId, taller: NodeId, i: nat)
    | GrowCas(prior: NodeId, taller: NodeId)
    | GrowMarkLoad(prior: NodeId)
    | GrowMarkStore(prior: NodeId, seen: Flags)
    | GrowUnlock(prior: NodeId, swapped: bool)
    | GrowRecycle(prior: NodeId)

  datatype State = State(
    nodes: map<NodeId, Node>,
    head: NodeId,
    size: nat,                    // size_
    recycled: seq<NodeId>,        // nodes handed to the recycler
    threads: map<Tid, Pc>,
    counted: set<NodeId>,         // aux: nodes that size_ counts
    removals: seq<NodeId>)        // aux: the nodes of the remove calls that succeeded, in order

  ghost predicate Init(s: State) {
    && s.head in s.nodes && s.nodes.Keys == {s.head} && s.size == 0 && s.counted == {} && s.removals == []
    && s.recycled == []
    && (forall t | t in s.threads :: s.threads[t].Idle?)
    && var r := s.nodes[s.head];
       && 1 <= Height(r) <= MAX_HEIGHT && r.sentinel && r.flags == Flags(true, false, false) && r.lock == None
       && r.retirer == None && r.up == 0 && r.ever == Height(r) && forall k | 0 <= k < Height(r) :: r.skip[k] == None
  }

  // ---------------------------------------------------------------- helpers

  function Goto(s: State, t: Tid, pc: Pc): State { s.(threads := s.threads[t := pc]) }

  function SetNode(s: State, n: NodeId, r: Node): State { s.(nodes := s.nodes[n := r]) }

  function Add(size: nat, delta: int): nat { (size + delta) % SIZE_LIMIT }

  /** greater(data, node) of the code. */
  predicate Greater(s: State, d: Key, n: Option<NodeId>) { n.Some? && n.value in s.nodes && s.nodes[n.value].key < d }

  /** less(data, node) of the code. */
  predicate Less(s: State, d: Key, n: Option<NodeId>) { n.None? || (n.value in s.nodes && d < s.nodes[n.value].key) }

  // ---------------------------------------------------------------- findInsertionPoint

  /** A call of addOrGetData or remove begins. */
  ghost predicate Begin(s: State, t: Tid, s': State) {
    && t in s.threads && s.threads[t].Idle?
    && exists d: Key :: s' == Goto(s, t, Top(Adding, d)) || s' == Goto(s, t, Top(Removing(None), d))
  }

  ghost predicate DoTop(s: State, t: Tid, s': State) {
    && t in s.threads && s.threads[t].Top? && s.head in s.nodes && Height(s.nodes[s.head]) > 0
    && s' == Goto(s, t, Start(s.threads[t].op, s.threads[t].d, Height(s.nodes[s.head]) - 1))
  }

  ghost predicate DoStart(s: State, t: Tid, s': State) {
    && t in s.threads && s.threads[t].Start?
    && var pc := s.threads[t];
       s' == Goto(s, t, Walk(pc.op, pc.d, pc.top, s.head, Path([], [], None, -1)))
  }

  /** The record made when a layer is finished. */
  function Record(s: State, d: Key, layer: nat, pred: NodeId, node: Option<NodeId>, p: Path): Path {
    var here := p.found.None? && !Less(s, d, node);
    var found := if here then node else p.found;
    Path([pred] + p.preds, [if found.Some? then found else node] + p.succs, found, if here then layer else p.layer)
  }

  ghost predicate DoWalk(s: State, t: Tid, s': State) {
    && t in s.threads && s.threads[t].Walk? && s.threads[t].pred in s.nodes
    && s.threads[t].layer < Height(s.nodes[s.threads[t].pred])
    && var pc := s.threads[t];
       var node := s.nodes[pc.pred].skip[pc.layer];
       if Greater(s, pc.d, node) then
         s' == Goto(s, t, Walk(pc.op, pc.d, pc.layer, node.value, pc.path))
       else
         var p := Record(s, pc.d, pc.layer, pc.pred, node, pc.path);
         if pc.layer > 0 then s' == Goto(s, t, Walk(pc.op, pc.d, pc.layer - 1, pc.pred, p))
         else AfterSearch(s, t, pc.op, pc.d, p, s')
  }

  /** Where the caller goes with a finished search. */
  ghost predicate AfterSearch(s: State, t: Tid, op: Op, d: Key, p: Path, s': State) {
    match op
    case Adding =>
      if p.found.Some? then s' == Goto(s, t, AddFound(d, p.found.value))
      else exists h: nat | 1 <= h <= |p.preds| :: s' == Goto(s, t, LockTake(op, d, h, p, 0, []))
    case Removing(None) =>
      s' == Goto(s, t, if p.found.Some? then RemLinked(d, p.found.value, p) else Idle)
    case Removing(Some(n)) =>
      n in s.nodes && s' == Goto(s, t, LockTake(op, d, Height(s.nodes[n]), p, 0, []))
  }

  // ---------------------------------------------------------------- addOrGetData, key present

  ghost predicate DoAddFound(s: State, t: Tid, s': State) {
    && t in s.threads && s.threads[t].AddFound? && s.threads[t].n in s.nodes
    && s' == Goto(s, t, if s.nodes[s.threads[t].n].flags.marked then Top(Adding, s.threads[t].d)
                        else AddWait(s.threads[t].n))
  }

  ghost predicate DoAddWait(s: State, t: Tid, s': State) {
    && t in s.threads && s.threads[t].AddWait? && s.threads[t].n in s.nodes
    && s' == if s.nodes[s.threads[t].n].flags.linked then Goto(s, t, Idle) else s
  }

  // ---------------------------------------------------------------- remove: marking the victim

  ghost predicate DoRemLinked(s: State, t: Tid, s': State) {
    && t in s.threads && s.threads[t].RemLinked? && s.threads[t].n in s.nodes
    && var pc := s.threads[t];
       s' == Goto(s, t, if s.nodes[pc.n].flags.linked && Height(s.nodes[pc.n]) - 1 == pc.path.layer
                        then RemUnmarked(pc.d, pc.n, pc.path) else Idle)
  }

  ghost predicate DoRemUnmarked(s: State, t: Tid, s': State) {
    && t in s.threads && s.threads[t].RemUnmarked? && s.threads[t].n in s.nodes
    && var pc := s.threads[t];
       s' == Goto(s, t, if s.nodes[pc.n].flags.marked then Idle else RemTake(pc.d, pc.n, pc.path))
  }

  ghost predicate DoRemTake(s: State, t: Tid, s': State) {
    && t in s.threads && s.threads[t].RemTake? && s.threads[t].n in s.nodes && s.nodes[s.threads[t].n].lock == None
    && var pc := s.threads[t];
       s' == Goto(SetNode(s, pc.n, s.nodes[pc.n].(lock := Some(t))), t, RemSeen(pc.d, pc.n, pc.path))
  }

  ghost predicate DoRemSeen(s: State, t: Tid, s': State) {
    && t in s.threads && s.threads[t].RemSeen? && s.threads[t].n in s.nodes
    && var pc := s.threads[t];
       s' == Goto(s, t, if s.nodes[pc.n].flags.marked then RemExit(pc.n) else RemMarkLoad(pc.d, pc.n, pc.path))
  }

  ghost predicate DoRemMarkLoad(s: State, t: Tid, s': State) {
    && t in s.threads && s.threads[t].RemMarkLoad? && s.threads[t].n in s.nodes
    && var pc := s.threads[t];
       s' == Goto(s, t, RemMarkStore(pc.d, pc.n, pc.path, s.nodes[pc.n].flags))
  }

  ghost predicate DoRemMarkStore(s: State, t: Tid, s': State) {
    && t in s.threads && s.threads[t].RemMarkStore? && s.threads[t].n in s.nodes
    && var pc := s.threads[t];
       s' == Goto(SetNode(s, pc.n, s.nodes[pc.n].(flags := pc.seen.(marked := true), retirer := Some(t))), t,
                  LockTake(Removing(Some(pc.n)), pc.d, Height(s.nodes[pc.n]), pc.path, 0, []))
  }

  // ---------------------------------------------------------------- lockNodesForChange

  /** The predecessor is locked once, at the lowest layer where it is one. */
  predicate NewPred(p: Path, layer: nat)
    requires layer < |p.preds|
  {
    layer == 0 || p.preds[layer] != p.preds[layer - 1]
  }

  ghost predicate DoLockTake(s: State, t: Tid, s': State) {
    && t in s.threads && s.threads[t].LockTake? && s.threads[t].layer < |s.threads[t].path.preds|
    && var pc := s.threads[t];
       var pred := pc.path.preds[pc.layer];
       if NewPred(pc.path, pc.layer) then
         && pred in s.nodes && s.nodes[pred].lock == None
         && s' == Goto(SetNode(s, pred, s.nodes[pred].(lock := Some(t))), t,
                       LockMarked(pc.op, pc.d, pc.h, pc.path, pc.layer, pc.held + [pred]))
       else
         s' == Goto(s, t, LockMarked(pc.op, pc.d, pc.h, pc.path, pc.layer, pc.held))
  }

  function Victim(op: Op): Option<NodeId> { if op.Removing? then op.victim else None }

  /** The checks fail: drop the locks and start over. */
  function GiveUp(op: Op, d: Key, held: seq<NodeId>): Pc { Unlock(Retry(op, d), Victim(op), held) }

  ghost predicate DoLockMarked(s: State, t: Tid, s': State) {
    && t in s.threads && s.threads[t].LockMarked? && s.threads[t].layer < |s.threads[t].path.preds|
    && var pc := s.threads[t];
       && pc.path.preds[pc.layer] in s.nodes
       && s' == Goto(s, t, if s.nodes[pc.path.preds[pc.layer]].flags.marked then GiveUp(pc.op, pc.d, pc.held)
                           else LockSkip(pc.op, pc.d, pc.h, pc.path, pc.layer, pc.held))
  }

  ghost predicate DoLockSkip(s: State, t: Tid, s': State) {
    && t in s.threads && s.threads[t].LockSkip?
    && var pc := s.threads[t];
       && pc.layer < |pc.path.preds| && pc.layer < |pc.path.succs|
       && pc.path.preds[pc.layer] in s.nodes && pc.layer < Height(s.nodes[pc.path.preds[pc.layer]])
       && s' == Goto(s, t,
                     if s.nodes[pc.path.preds[pc.layer]].skip[pc.layer] != pc.path.succs[pc.layer] then
                       GiveUp(pc.op, pc.d, pc.held)
                     else if pc.op.Adding? && pc.path.succs[pc.layer].Some? then
                       LockSucc(pc.op, pc.d, pc.h, pc.path, pc.layer, pc.held)
                     else
                       NextLayer(pc.op, pc.d, pc.h, pc.path, pc.layer, pc.held))
  }

  ghost predicate DoLockSucc(s: State, t: Tid, s': State) {
    && t in s.threads && s.threads[t].LockSucc?
    && var pc := s.threads[t];
       && pc.layer < |pc.path.succs| && pc.path.succs[pc.layer].Some? && pc.path.succs[pc.layer].value in s.nodes
       && s' == Goto(s, t, if s.nodes[pc.path.succs[pc.layer].value].flags.marked then GiveUp(pc.op, pc.d, pc.held)
                           else NextLayer(pc.op, pc.d, pc.h, pc.path, pc.layer, pc.held))
  }

  /** The layer is valid: go one up, or do the change once all layers are valid. */
  function NextLayer(op: Op, d: Key, h: nat, p: Path, layer: nat, held: seq<NodeId>): Pc {
    if layer + 1 < h then LockTake(op, d, h, p, layer + 1, held)
    else if op.Removing? && op.victim.Some? then RemLoad(op.victim.value, layer, p, held)
    else AddCreate(d, h, p, held)
  }

  // ---------------------------------------------------------------- addOrGetData under the locks

  function NewNode(t: Tid, key: Key, h: nat): Node {
    Node(key, seq(h, _ => None), Flags(false, false, false), None, false, t, None, 0, 0)
  }

  ghost predicate DoAddCreate(s: State, t: Tid, s': State) {
    && t in s.threads && s.threads[t].AddCreate?
    && var pc := s.threads[t];
       exists n: NodeId | n !in s.nodes ::
         s' == Goto(SetNode(s, n, NewNode(t, pc.d, pc.h)), t, AddNext(n, 0, pc.path, pc.held))
  }

  ghost predicate DoAddNext(s: State, t: Tid, s': State) {
    && t in s.threads && s.threads[t].AddNext?
    && var pc := s.threads[t];
       && pc.n in s.nodes && pc.k < Height(s.nodes[pc.n]) && pc.k < |pc.path.succs|
       && s' == Goto(SetNode(s, pc.n, s.nodes[pc.n].(skip := s.nodes[pc.n].skip[pc.k := pc.path.succs[pc.k]])), t,
                     AddLink(pc.n, pc.k, pc.path, pc.held))
  }

  ghost predicate DoAddLink(s: State, t: Tid, s': State) {
    && t in s.threads && s.threads[t].AddLink?
    && var pc := s.threads[t];
       && pc.n in s.nodes && pc.k < |pc.path.preds| && pc.path.preds[pc.k] in s.nodes && pc.path.preds[pc.k] != pc.n
       && pc.k < Height(s.nodes[pc.path.preds[pc.k]])
       && var pred := pc.path.preds[pc.k];
          var linked := SetNode(s, pred, s.nodes[pred].(skip := s.nodes[pred].skip[pc.k := Some(pc.n)]));
          s' == Goto(SetNode(linked, pc.n, s.nodes[pc.n].(up := pc.k + 1, ever := pc.k + 1)), t,
                     if pc.k + 1 < Height(s.nodes[pc.n]) then AddNext(pc.n, pc.k + 1, pc.path, pc.held)
                     else AddFlagLoad(pc.n, pc.path, pc.held))
  }

  ghost predicate DoAddFlagLoad(s: State, t: Tid, s': State) {
    && t in s.threads && s.threads[t].AddFlagLoad? && s.threads[t].n in s.nodes
    && var pc := s.threads[t];
       s' == Goto(s, t, AddFlagStore(pc.n, pc.path, pc.held, s.nodes[pc.n].flags))
  }

  ghost predicate DoAddFlagStore(s: State, t: Tid, s': State) {
    && t in s.threads && s.threads[t].AddFlagStore? && s.threads[t].n in s.nodes
    && var pc := s.threads[t];
       s' == Goto(SetNode(s, pc.n, s.nodes[pc.n].(flags := pc.seen.(linked := true))), t,
                  AddSize(pc.n, pc.path, pc.held))
  }

  ghost predicate DoAddSize(s: State, t: Tid, s': State) {
    && t in s.threads && s.threads[t].AddSize? && s.size + 1 < SIZE_LIMIT
    && var pc := s.threads[t];
       s' == Goto(s.(size := Add(s.size, 1), counted := s.counted + {pc.n}), t,
                  Unlock(Added(Add(s.size, 1)), None, pc.held))
  }

  // ---------------------------------------------------------------- remove under the locks

  ghost predicate DoRemLoad(s: State, t: Tid, s': State) {
    && t in s.threads && s.threads[t].RemLoad?
    && var pc := s.threads[t];
       && pc.n in s.nodes && pc.k < Height(s.nodes[pc.n])
       && s' == Goto(s, t, RemStore(pc.n, pc.k, pc.path, pc.held, s.nodes[pc.n].skip[pc.k]))
  }

  ghost predicate DoRemStore(s: State, t: Tid, s': State) {
    && t in s.threads && s.threads[t].RemStore?
    && var pc := s.threads[t];
       && pc.n in s.nodes && pc.k < |pc.path.preds| && pc.path.preds[pc.k] in s.nodes && pc.path.preds[pc.k] != pc.n
       && pc.k < Height(s.nodes[pc.path.preds[pc.k]])
       && var pred := pc.path.preds[pc.k];
          var cut := SetNode(s, pred, s.nodes[pred].(skip := s.nodes[pred].skip[pc.k := pc.next]));
          s' == Goto(SetNode(cut, pc.n, s.nodes[pc.n].(up := pc.k)), t,
                     if pc.k > 0 then RemLoad(pc.n, pc.k - 1, pc.path, pc.held) else RemSize(pc.n, pc.held))
  }

  ghost predicate DoRemSize(s: State, t: Tid, s': State) {
    && t in s.threads && s.threads[t].RemSize?
    && var pc := s.threads[t];
       s' == Goto(s.(size := Add(s.size, -1), counted := s.counted - {pc.n}, removals := s.removals + [pc.n]), t,
                  Unlock(Unlinked(pc.n), Some(pc.n), pc.held))
  }

  // ---------------------------------------------------------------- leaving

  function Release(s: State, n: NodeId): State
    requires n in s.nodes
  {
    SetNode(s, n, s.nodes[n].(lock := None))
  }

  /** Where control goes once every guard is destroyed. */
  function Leave(after: After): Pc {
    match after
    case Retry(op, d) => Top(op, d)
    case Added(size) => AddHeight(size)
    case Unlinked(n) => RemRecycle(n)
  }

  /** The guards are destroyed last to first. */
  ghost predicate DoUnlock(s: State, t: Tid, s': State) {
    && t in s.threads && s.threads[t].Unlock?
    && var pc := s.threads[t];
       if pc.held == [] then
         s' == Goto(s, t, Leave(pc.after))
       else
         var n := pc.held[|pc.held| - 1];
         n in s.nodes && s' == Goto(Release(s, n), t, Unlock(pc.after, pc.victim, pc.held[..|pc.held| - 1]))
  }

  /** The size limit for the height is arbitrary, so growth may be asked for or not. */
  ghost predicate DoAddHeight(s: State, t: Tid, s': State) {
    && t in s.threads && s.threads[t].AddHeight? && s.head in s.nodes
    && (|| s' == Goto(s, t, Idle)
        || (Height(s.nodes[s.head]) < MAX_HEIGHT && s' == Goto(s, t, GrowHead(Height(s.nodes[s.head]) + 1))))
  }

  ghost predicate DoRemRecycle(s: State, t: Tid, s': State) {
    && t in s.threads && s.threads[t].RemRecycle?
    && s' == Goto(s.(recycled := s.recycled + [s.threads[t].n]), t, RemExit(s.threads[t].n))
  }

  /** nodeGuard is released when remove returns. */
  ghost predicate DoRemExit(s: State, t: Tid, s': State) {
    && t in s.threads && s.threads[t].RemExit? && s.threads[t].n in s.nodes
    && s' == Goto(Release(s, s.threads[t].n), t, Idle)
  }

  // ---------------------------------------------------------------- growHeight

  function NewHead(t: Tid, h: nat): Node {
    Node(0, seq(h, _ => None), Flags(true, false, false), None, true, t, None, 0, 0)
  }

  ghost predicate DoGrowHead(s: State, t: Tid, s': State) {
    && t in s.threads && s.threads[t].GrowHead? && s.head in s.nodes
    && var h := s.threads[t].h;
       if Height(s.nodes[s.head]) >= h then s' == Goto(s, t, Idle)
       else exists n: NodeId | n !in s.nodes :: s' == Goto(SetNode(s, n, NewHead(t, h)), t, GrowTake(s.head, n))
  }

  ghost predicate DoGrowTake(s: State, t: Tid, s': State) {
    && t in s.threads && s.threads[t].GrowTake? && s.threads[t].prior in s.nodes
    && s.nodes[s.threads[t].prior].lock == None
    && var pc := s.threads[t];
       s' == Goto(SetNode(s, pc.prior, s.nodes[pc.prior].(lock := Some(t))), t, GrowFlags(pc.prior, pc.taller))
  }

  ghost predicate DoGrowFlags(s: State, t: Tid, s': State) {
    && t in s.threads && s.threads[t].GrowFlags? && s.threads[t].prior in s.nodes && s.threads[t].taller in s.nodes
    && var pc := s.threads[t];
       s' == Goto(SetNode(s, pc.taller, s.nodes[pc.taller].(flags := s.nodes[pc.prior].flags)),
                  t, GrowCopy(pc.prior, pc.taller, 0))
  }

  ghost predicate DoGrowCopy(s: State, t: Tid, s': State) {
    && t in s.threads && s.threads[t].GrowCopy? && s.threads[t].prior in s.nodes && s.threads[t].taller in s.nodes
    && var pc := s.threads[t];
       if pc.i < Height(s.nodes[pc.prior]) then
         && pc.i < Height(s.nodes[pc.taller])
         && var r := s.nodes[pc.taller];
            s' == Goto(SetNode(s, pc.taller, r.(skip := r.skip[pc.i := s.nodes[pc.prior].skip[pc.i]])), t,
                       GrowCopy(pc.prior, pc.taller, pc.i + 1))
       else s' == Goto(s, t, GrowCas(pc.prior, pc.taller))
  }

  ghost predicate DoGrowCas(s: State, t: Tid, s': State) {
    && t in s.threads && s.threads[t].GrowCas? && s.threads[t].taller in s.nodes
    && var pc := s.threads[t];
       if s.head == pc.prior then
         && pc.prior in s.nodes
         && var retired := SetNode(s, pc.prior, s.nodes[pc.prior].(retirer := Some(t)));
            s' == Goto(SetNode(retired, pc.taller,
                               s.nodes[pc.taller].(ever := Height(s.nodes[pc.taller]))).(head := pc.taller), t,
                       GrowMarkLoad(pc.prior))
       else
         s' == Goto(s, t, GrowUnlock(pc.prior, false))
  }

  ghost predicate DoGrowMarkLoad(s: State, t: Tid, s': State) {
    && t in s.threads && s.threads[t].GrowMarkLoad? && s.threads[t].prior in s.nodes
    && s' == Goto(s, t, GrowMarkStore(s.threads[t].prior, s.nodes[s.threads[t].prior].flags))
  }

  ghost predicate DoGrowMarkStore(s: State, t: Tid, s': State) {
    && t in s.threads && s.threads[t].GrowMarkStore? && s.threads[t].prior in s.nodes
    && var pc := s.threads[t];
       s' == Goto(SetNode(s, pc.prior, s.nodes[pc.prior].(flags := pc.seen.(marked := true))),
                  t, GrowUnlock(pc.prior, true))
  }

  ghost predicate DoGrowUnlock(s: State, t: Tid, s': State) {
    && t in s.threads && s.threads[t].GrowUnlock? && s.threads[t].prior in s.nodes
    && var pc := s.threads[t];
       s' == Goto(Release(s, pc.prior), t, if pc.swapped then GrowRecycle(pc.prior) else Idle)
  }

  ghost predicate DoGrowRecycle(s: State, t: Tid, s': State) {
    && t in s.threads && s.threads[t].GrowRecycle?
    && s' == Goto(s.(recycled := s.recycled + [s.threads[t].prior]), t, Idle)
  }

  // ---------------------------------------------------------------- one step

  ghost predicate SearchStep(s: State, t: Tid, s': State) {
    || Begin(s, t, s') || DoTop(s, t, s') || DoStart(s, t, s') || DoWalk(s, t, s') || DoAddFound(s, t, s')
    || DoAddWait(s, t, s')
  }

  ghost predicate MarkStep(s: State, t: Tid, s': State) {
    || DoRemLinked(s, t, s') || DoRemUnmarked(s, t, s') || DoRemTake(s, t, s') || DoRemSeen(s, t, s')
    || DoRemMarkLoad(s, t, s') || DoRemMarkStore(s, t, s')
  }

  ghost predicate LockStep(s: State, t: Tid, s': State) {
    || DoLockTake(s, t, s') || DoLockMarked(s, t, s') || DoLockSkip(s, t, s') || DoLockSucc(s, t, s')
    || DoUnlock(s, t, s')
  }

  ghost predicate InsertStep(s: State, t: Tid, s': State) {
    || DoAddCreate(s, t, s') || DoAddNext(s, t, s') || DoAddLink(s, t, s') || DoAddFlagLoad(s, t, s')
    || DoAddFlagStore(s, t, s')
    || DoAddSize(s, t, s') || DoAddHeight(s, t, s')
  }

  ghost predicate UnlinkStep(s: State, t: Tid, s': State) {
    || DoRemLoad(s, t, s') || DoRemStore(s, t, s') || DoRemSize(s, t, s') || DoRemRecycle(s, t, s')
    || DoRemExit(s, t, s')
  }

  ghost predicate GrowStep(s: State, t: Tid, s': State) {
    || DoGrowHead(s, t, s') || DoGrowTake(s, t, s') || DoGrowFlags(s, t, s') || DoGrowCopy(s, t, s')
    || DoGrowCas(s, t, s')
    || DoGrowMarkLoad(s, t, s') || DoGrowMarkStore(s, t, s') || DoGrowUnlock(s, t, s') || DoGrowRecycle(s, t, s')
  }

  ghost predicate Step(s: State, t: Tid, s': State) {
    || SearchStep(s, t, s') || MarkStep(s, t, s') || LockStep(s, t, s') || InsertStep(s, t, s')
    || UnlinkStep(s, t, s') || GrowStep(s, t, s')
  }

  ghost predicate Follows(run: seq<State>, sched: seq<Tid>, i: nat)
    requires i + 1 < |run| && i < |sched|
  {
    Step(run[i], sched[i], run[i + 1])
  }

  /** Thread sched[i] takes the step from run[i] to run[i + 1]. */
  ghost predicate Run(run: seq<State>, sched: seq<Tid>) {
    && |run| == |sched| + 1 && Init(run[0])
    && forall i | 0 <= i < |sched| :: Follows(run, sched, i)
  }
}
