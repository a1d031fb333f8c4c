/** What every run of the skip list keeps. */
module ConcurrentSkipListProof {
  import opened Common
  import opened ConcurrentSkipList

  // ---------------------------------------------------------------- layers

  /** Node n is linked at layer k. */
  ghost predicate In(s: State, k: nat, n: NodeId) {
    n in s.nodes && !s.nodes[n].sentinel && s.nodes[n].up > k
  }

  /** The link of x at layer k leads to the node of the layer with the least key beyond x. */
  ghost predicate NextOk(s: State, k: nat, x: NodeId)
    requires x in s.nodes
  {
    var r := s.nodes[x];
    && k < Height(r)
    && match r.skip[k]
       case None => forall m | In(s, k, m) :: s.nodes[m].key <= Pos(r)
       case Some(n) =>
         && In(s, k, n) && Pos(r) < s.nodes[n].key
         && forall m | In(s, k, m) :: s.nodes[m].key <= Pos(r) || s.nodes[n].key <= s.nodes[m].key
  }

  ghost predicate OnLayer(s: State, k: nat, x: NodeId) {
    s.head in s.nodes && k < Height(s.nodes[s.head]) && x in s.nodes && (x == s.head || In(s, k, x))
  }

  ghost predicate LayersOk(s: State) {
    && (forall k: nat, x | OnLayer(s, k, x) :: NextOk(s, k, x))
    && (forall m, n | In(s, 0, m) && In(s, 0, n) && s.nodes[m].key == s.nodes[n].key :: m == n)
  }

  // ---------------------------------------------------------------- nodes

  /** Links lead to larger keys, and only to nodes that have been on that layer. */
  ghost predicate LinkOk(s: State, x: NodeId, k: nat)
    requires x in s.nodes && k < Height(s.nodes[x])
  {
    var next := s.nodes[x].skip[k];
    next.Some? ==>
      next.value in s.nodes && !s.nodes[next.value].sentinel && s.nodes[next.value].ever > k
      && Pos(s.nodes[x]) < s.nodes[next.value].key
  }

  /** The node an addOrGetData call has created and not yet counted. */
  function Adds(pc: Pc): Option<NodeId> {
    if pc.AddNext? || pc.AddLink? || pc.AddFlagLoad? || pc.AddFlagStore? || pc.AddSize? then Some(pc.n) else None
  }

  /** The head a growHeight call has replaced and not yet marked. */
  function Swaps(pc: Pc): Option<NodeId> {
    if pc.GrowMarkLoad? || pc.GrowMarkStore? then Some(pc.prior) else None
  }

  /** The node a remove call has marked and not yet unlinked from every layer. */
  function Removes(pc: Pc): Option<NodeId> {
    if pc.Top? || pc.Start? || pc.Walk? then Victim(pc.op)
    else if pc.LockTake? || pc.LockMarked? || pc.LockSkip? || pc.LockSucc? then Victim(pc.op)
    else if pc.Unlock? && pc.after.Retry? then Victim(pc.after.op)
    else if pc.RemLoad? || pc.RemStore? || pc.RemSize? then Some(pc.n)
    else None
  }

  ghost predicate BeingRemoved(s: State, n: NodeId)
    requires n in s.nodes
  {
    s.nodes[n].retirer.Some? && s.nodes[n].retirer.value in s.threads
    && Removes(s.threads[s.nodes[n].retirer.value]) == Some(n)
  }

  ghost predicate BeingAdded(s: State, n: NodeId)
    requires n in s.nodes
  {
    s.nodes[n].owner in s.threads && Adds(s.threads[s.nodes[n].owner]) == Some(n)
  }

  ghost predicate BeingSwapped(s: State, n: NodeId)
    requires n in s.nodes
  {
    s.nodes[n].lock.Some? && s.nodes[n].lock.value in s.threads && Swaps(s.threads[s.nodes[n].lock.value]) == Some(n)
  }

  ghost predicate ShapeOk(r: Node) {
    && 1 <= Height(r) <= MAX_HEIGHT && r.up <= r.ever <= Height(r) && r.flags.isHead == r.sentinel
    && (r.sentinel ==> r.up == 0 && !r.flags.linked && (r.ever == 0 || r.ever == Height(r)))
    && (r.ever == 0 ==> r.lock == None)
    && (!r.sentinel ==>
          && (!r.flags.marked ==> r.up == r.ever) && (r.flags.linked ==> r.ever == Height(r))
          && (r.flags.marked ==> r.flags.linked)
          && (r.retirer.Some? <==> r.flags.marked))
  }

  ghost predicate NodeOk(s: State, n: NodeId)
    requires n in s.nodes
  {
    var r := s.nodes[n];
    && ShapeOk(r)
    && (forall k | 0 <= k < Height(r) :: LinkOk(s, n, k))
    && (!r.sentinel ==> s.head in s.nodes && Height(r) <= Height(s.nodes[s.head]))
    && (r.sentinel && r.ever > 0 && !r.flags.marked && n != s.head ==> BeingSwapped(s, n))
    && (r.lock.Some? ==> r.lock.value in s.threads)
  }

  ghost predicate HeadOk(s: State) {
    && s.head in s.nodes
    && var r := s.nodes[s.head]; r.sentinel && r.ever == Height(r) && !r.flags.marked && r.retirer == None
  }

  /** Where a key node is between its creation and the end of its removal. */
  ghost predicate LifeOk(s: State, n: NodeId)
    requires n in s.nodes
  {
    var r := s.nodes[n];
    && (n in s.counted ==> !r.sentinel && r.flags.linked && n !in s.removals)
    && (n in s.removals ==> !r.sentinel && r.flags.marked && r.up == 0)
    && (!r.sentinel && n !in s.counted && n !in s.removals ==> BeingAdded(s, n))
    && (!r.sentinel && r.flags.marked && n !in s.removals ==> BeingRemoved(s, n))
    && (n in s.recycled ==> r.flags.marked && r.up == 0 && n != s.head && (!r.sentinel ==> n in s.removals))
  }

  ghost predicate Distinct(q: seq<NodeId>) { forall i, j | 0 <= i < j < |q| :: q[i] != q[j] }

  ghost predicate BooksOk(s: State) {
    && s.size == |s.counted| < SIZE_LIMIT
    && (forall n | n in s.counted :: n in s.nodes) && (forall n | n in s.removals :: n in s.nodes)
    && (forall n | n in s.recycled :: n in s.nodes)
    && Distinct(s.removals) && Distinct(s.recycled)
  }

  ghost predicate MemoryOk(s: State) {
    HeadOk(s) && LayersOk(s) && BooksOk(s) && NodesOk(s) && LivesOk(s)
  }

  ghost predicate LivesOk(s: State) { forall n {:trigger LifeOk(s, n)} | n in s.nodes :: LifeOk(s, n) }

  ghost predicate NodesOk(s: State) { forall n {:trigger NodeOk(s, n)} | n in s.nodes :: NodeOk(s, n) }

  // ---------------------------------------------------------------- threads

  ghost predicate PredOk(s: State, d: Key, k: nat, p: NodeId) {
    p in s.nodes && s.nodes[p].ever > k && s.nodes[p].ever <= Height(s.nodes[p]) && Pos(s.nodes[p]) < d
  }

  ghost predicate SuccOk(s: State, d: Key, n: Option<NodeId>, strict: bool) {
    n.Some? ==>
      && n.value in s.nodes && !s.nodes[n.value].sentinel
      && d <= s.nodes[n.value].key && (strict ==> d < s.nodes[n.value].key)
  }

  /** Going up, predecessors only move towards the head. */
  ghost predicate Upwards(s: State, p: NodeId, q: NodeId) {
    p in s.nodes && q in s.nodes && (p == q || Pos(s.nodes[q]) < Pos(s.nodes[p]))
  }

  ghost predicate PathOk(s: State, d: Key, lo: nat, p: Path) {
    && |p.succs| == |p.preds|
    && (forall i | 0 <= i < |p.preds| :: PredOk(s, d, lo + i, p.preds[i]))
    && (forall i | 0 <= i < |p.succs| :: SuccOk(s, d, p.succs[i], p.found.None?))
    && (forall i | 0 <= i < |p.preds| - 1 :: Upwards(s, p.preds[i], p.preds[i + 1]))
    && (p.found.Some? ==> SuccOk(s, d, p.found, false) && s.nodes[p.found.value].key == d && p.layer < lo + |p.preds|)
  }

  /** Locked by u, not marked, and still followed by the recorded successor. */
  ghost predicate Validated(s: State, u: Tid, p: NodeId, k: nat, succ: Option<NodeId>) {
    && p in s.nodes && s.nodes[p].lock == Some(u) && !s.nodes[p].flags.marked
    && k < s.nodes[p].ever <= Height(s.nodes[p]) && s.nodes[p].skip[k] == succ
  }

  /** The layers from lo to hi are validated. */
  ghost predicate ValidRange(s: State, u: Tid, p: Path, lo: nat, hi: nat) {
    && hi <= |p.preds| && hi <= |p.succs|
    && forall j | lo <= j < hi :: Validated(s, u, p.preds[j], j, p.succs[j])
  }

  /** Below layer hi the predecessors lead to n. */
  ghost predicate LinkedRange(s: State, u: Tid, p: Path, n: NodeId, hi: nat) {
    && hi <= |p.preds|
    && forall j | 0 <= j < hi :: Validated(s, u, p.preds[j], j, Some(n))
  }

  /** The victim of a remove by u, marked by u, from layer `up` downwards still linked. */
  ghost predicate VictimOk(s: State, u: Tid, n: NodeId) {
    && n in s.nodes
    && var r := s.nodes[n];
       && !r.sentinel && r.lock == Some(u) && r.retirer == Some(u) && r.flags.marked && r.flags.linked
       && n !in s.removals && n !in s.recycled
  }

  ghost predicate OpOk(s: State, u: Tid, op: Op, d: Key) {
    op.Removing? && op.victim.Some? ==>
      VictimOk(s, u, op.victim.value) && s.nodes[op.victim.value].key == d
      && s.nodes[op.victim.value].up == Height(s.nodes[op.victim.value])
  }

  /** Enough layers were searched for the victim's height. */
  ghost predicate Covers(s: State, op: Op, layers: nat) {
    && s.head in s.nodes && 1 <= layers <= Height(s.nodes[s.head])
    && (op.Removing? && op.victim.Some? && op.victim.value in s.nodes ==> Height(s.nodes[op.victim.value]) <= layers)
  }

  ghost predicate CandidateOk(s: State, d: Key, n: NodeId, p: Path) {
    n in s.nodes && p.found == Some(n) && PathOk(s, d, 0, p)
  }

  ghost predicate ChosenOk(s: State, d: Key, n: NodeId, p: Path) {
    CandidateOk(s, d, n, p) && s.nodes[n].flags.linked && Height(s.nodes[n]) == p.layer + 1
  }

  /** The locks held lie between the two positions. */
  ghost predicate HeldWithin(s: State, held: seq<NodeId>, lo: int, d: Key) {
    forall n | n in held :: n in s.nodes && lo <= Pos(s.nodes[n]) < d
  }

  ghost predicate LockingOk(s: State, u: Tid, op: Op, d: Key, h: nat, p: Path, layer: nat) {
    && PathOk(s, d, 0, p) && OpOk(s, u, op, d) && layer < h <= |p.preds| && ValidRange(s, u, p, 0, layer)
    && (op.Adding? ==> p.found.None? && s.head in s.nodes && h <= Height(s.nodes[s.head]))
    && (op.Removing? ==> op.victim.Some? && h == Height(s.nodes[op.victim.value]))
  }

  /** The lock on the layer's predecessor is ours too. */
  ghost predicate LayerLocked(s: State, u: Tid, d: Key, p: Path, layer: nat, held: seq<NodeId>) {
    && layer < |p.preds| && p.preds[layer] in s.nodes && s.nodes[p.preds[layer]].lock == Some(u)
    && HeldWithin(s, held, Pos(s.nodes[p.preds[layer]]), d)
  }

  ghost predicate NewNodeOk(s: State, u: Tid, n: NodeId, p: Path) {
    && n in s.nodes
    && var r := s.nodes[n];
       && !r.sentinel && r.owner == u && r.flags == Flags(false, false, false) && r.up == r.ever
       && Height(r) <= |p.preds|
       && n !in s.counted && n !in s.removals && n !in s.recycled
       && PathOk(s, r.key, 0, p) && p.found.None?
       && LinkedRange(s, u, p, n, r.up) && ValidRange(s, u, p, r.up, Height(r))
  }

  ghost predicate UnlinkingOk(s: State, u: Tid, n: NodeId, k: nat, p: Path) {
    && VictimOk(s, u, n) && n in s.counted && s.nodes[n].up == k + 1 <= Height(s.nodes[n]) && k < |p.preds|
    && PathOk(s, s.nodes[n].key, 0, p)
    && LinkedRange(s, u, p, n, k + 1)
  }

  ghost predicate GoneOk(s: State, u: Tid, n: NodeId) {
    && n in s.nodes && n in s.removals && n !in s.recycled
    && var r := s.nodes[n]; !r.sentinel && r.lock == Some(u) && r.retirer == Some(u) && r.flags.marked && r.up == 0
  }

  ghost predicate GrowingOk(s: State, u: Tid, prior: NodeId, taller: NodeId) {
    && prior in s.nodes && taller in s.nodes
    && var r, q := s.nodes[prior], s.nodes[taller];
       && r.sentinel && r.ever == Height(r) && q.sentinel && q.owner == u && q.ever == 0 && q.lock == None
       && q.retirer == None
       && Height(r) < Height(q)
  }

  ghost predicate CopiedOk(s: State, u: Tid, prior: NodeId, taller: NodeId, i: nat) {
    && GrowingOk(s, u, prior, taller)
    && var r, q := s.nodes[prior], s.nodes[taller];
       && r.lock == Some(u) && q.flags.marked == r.flags.marked && i <= Height(r)
       && (forall j | 0 <= j < i :: q.skip[j] == r.skip[j]) && (forall j | i <= j < Height(q) :: q.skip[j] == None)
  }

  ghost predicate SwappedOk(s: State, u: Tid, prior: NodeId) {
    && prior in s.nodes && prior != s.head && prior !in s.recycled
    && var r := s.nodes[prior]; r.sentinel && r.ever == Height(r) >= 1 && r.retirer == Some(u)
  }

  /** The locks a call holds at each point. */
  function Holds(pc: Pc): set<NodeId> {
    match pc
    case Top(op, _) => OpHolds(op)
    case Start(op, _, _) => OpHolds(op)
    case Walk(op, _, _, _, _) => OpHolds(op)
    case RemSeen(_, n, _) => {n}
    case RemMarkLoad(_, n, _) => {n}
    case RemMarkStore(_, n, _, _) => {n}
    case LockTake(op, _, _, _, _, held) => OpHolds(op) + Elems(held)
    case LockMarked(op, _, _, _, _, held) => OpHolds(op) + Elems(held)
    case LockSkip(op, _, _, _, _, held) => OpHolds(op) + Elems(held)
    case LockSucc(op, _, _, _, _, held) => OpHolds(op) + Elems(held)
    case AddCreate(_, _, _, held) => Elems(held)
    case AddNext(_, _, _, held) => Elems(held)
    case AddLink(_, _, _, held) => Elems(held)
    case AddFlagLoad(_, _, held) => Elems(held)
    case AddFlagStore(_, _, held, _) => Elems(held)
    case AddSize(_, _, held) => Elems(held)
    case RemLoad(n, _, _, held) => {n} + Elems(held)
    case RemStore(n, _, _, held, _) => {n} + Elems(held)
    case RemSize(n, held) => {n} + Elems(held)
    case Unlock(_, victim, held) => Elems(held) + (if victim.Some? then {victim.value} else {})
    case RemRecycle(n) => {n}
    case RemExit(n) => {n}
    case GrowFlags(prior, _) => {prior}
    case GrowCopy(prior, _, _) => {prior}
    case GrowCas(prior, _) => {prior}
    case GrowMarkLoad(prior) => {prior}
    case GrowMarkStore(prior, _) => {prior}
    case GrowUnlock(prior, _) => {prior}
    case _ => {}
  }

  function OpHolds(op: Op): set<NodeId> { if op.Removing? && op.victim.Some? then {op.victim.value} else {} }

  function Elems(held: seq<NodeId>): set<NodeId> { set n | n in held }

  ghost predicate HeldOk(s: State, u: Tid, pc: Pc) {
    && (forall n | n in Holds(pc) :: n in s.nodes && s.nodes[n].lock == Some(u))
    && (forall n | n in s.nodes && s.nodes[n].lock == Some(u) :: n in Holds(pc))
  }

  ghost predicate AfterOk(s: State, u: Tid, after: After, victim: Option<NodeId>) {
    match after
    case Retry(op, d) => victim == Victim(op) && OpOk(s, u, op, d)
    case Added(_) => victim == None
    case Unlinked(n) => victim == Some(n) && GoneOk(s, u, n)
  }

  ghost predicate SearchPcOk(s: State, u: Tid, pc: Pc) {
    && (pc.Top? ==> OpOk(s, u, pc.op, pc.d))
    && (pc.Start? ==> OpOk(s, u, pc.op, pc.d) && Covers(s, pc.op, pc.top + 1))
    && (pc.Walk? ==>
          && OpOk(s, u, pc.op, pc.d) && Covers(s, pc.op, pc.layer + 1 + |pc.path.preds|)
          && PathOk(s, pc.d, pc.layer + 1, pc.path) && PredOk(s, pc.d, pc.layer, pc.pred)
          && (pc.path.preds != [] ==> Upwards(s, pc.pred, pc.path.preds[0])))
    && (pc.AddFound? || pc.AddWait? ==> pc.n in s.nodes && !s.nodes[pc.n].sentinel)
  }

  ghost predicate MarkPcOk(s: State, u: Tid, pc: Pc) {
    && (pc.RemLinked? ==> CandidateOk(s, pc.d, pc.n, pc.path))
    && (pc.RemUnmarked? || pc.RemTake? || pc.RemSeen? || pc.RemMarkLoad? || pc.RemMarkStore? ==>
        ChosenOk(s, pc.d, pc.n, pc.path))
    && (pc.RemMarkLoad? || pc.RemMarkStore? ==> !s.nodes[pc.n].flags.marked && s.nodes[pc.n].lock == Some(u))
    && (pc.RemMarkStore? ==> pc.seen == Flags(false, false, true))
  }

  ghost predicate LockPcOk(s: State, u: Tid, pc: Pc) {
    && (pc.LockTake? || pc.LockMarked? || pc.LockSkip? || pc.LockSucc? ==>
          LockingOk(s, u, pc.op, pc.d, pc.h, pc.path, pc.layer) && Distinct(pc.held))
    && (pc.LockTake? ==>
        if pc.layer == 0 then pc.held == [] else LayerLocked(s, u, pc.d, pc.path, pc.layer - 1, pc.held))
    && (pc.LockMarked? || pc.LockSkip? || pc.LockSucc? ==> LayerLocked(s, u, pc.d, pc.path, pc.layer, pc.held))
    && (pc.LockSkip? ==> !s.nodes[pc.path.preds[pc.layer]].flags.marked)
    && (pc.LockSucc? ==> pc.op.Adding? && ValidRange(s, u, pc.path, 0, pc.layer + 1) && pc.path.succs[pc.layer].Some?)
  }

  ghost predicate InsertPcOk(s: State, u: Tid, pc: Pc) {
    && (pc.AddCreate? ==>
          && PathOk(s, pc.d, 0, pc.path) && pc.path.found.None? && 1 <= pc.h <= |pc.path.preds|
          && ValidRange(s, u, pc.path, 0, pc.h) && Distinct(pc.held) && s.head in s.nodes
          && pc.h <= Height(s.nodes[s.head]))
    && (pc.AddNext? || pc.AddLink? || pc.AddFlagLoad? || pc.AddFlagStore? ==>
        NewNodeOk(s, u, pc.n, pc.path) && Distinct(pc.held))
    && (pc.AddNext? || pc.AddLink? ==> pc.k == s.nodes[pc.n].up < Height(s.nodes[pc.n]))
    && (pc.AddLink? ==> s.nodes[pc.n].skip[pc.k] == pc.path.succs[pc.k])
    && (pc.AddFlagLoad? || pc.AddFlagStore? ==> s.nodes[pc.n].up == Height(s.nodes[pc.n]))
    && (pc.AddFlagStore? ==> pc.seen == Flags(false, false, false))
    && (pc.AddSize? ==>
          && pc.n in s.nodes && !s.nodes[pc.n].sentinel && s.nodes[pc.n].owner == u && s.nodes[pc.n].flags.linked
          && pc.n !in s.counted && pc.n !in s.removals && Distinct(pc.held)
          && |pc.path.preds| > 0 && Validated(s, u, pc.path.preds[0], 0, Some(pc.n)))
  }

  ghost predicate UnlinkPcOk(s: State, u: Tid, pc: Pc) {
    && (pc.RemLoad? || pc.RemStore? ==> UnlinkingOk(s, u, pc.n, pc.k, pc.path) && Distinct(pc.held) && pc.n !in pc.held)
    && (pc.RemStore? ==> pc.k < Height(s.nodes[pc.n]) && pc.next == s.nodes[pc.n].skip[pc.k])
    && (pc.RemSize? ==>
          VictimOk(s, u, pc.n) && pc.n in s.counted && s.nodes[pc.n].up == 0 && Distinct(pc.held) && pc.n !in pc.held)
    && (pc.Unlock? ==>
          && AfterOk(s, u, pc.after, pc.victim) && Distinct(pc.held)
          && (pc.victim.Some? ==> pc.victim.value !in pc.held))
    && (pc.RemRecycle? ==> GoneOk(s, u, pc.n))
  }

  ghost predicate GrowPcOk(s: State, u: Tid, pc: Pc) {
    && (pc.GrowHead? ==> pc.h <= MAX_HEIGHT)
    && (pc.GrowTake? || pc.GrowFlags? ==>
          && GrowingOk(s, u, pc.prior, pc.taller) && s.nodes[pc.taller].flags == Flags(true, false, false)
          && forall j | 0 <= j < Height(s.nodes[pc.taller]) :: s.nodes[pc.taller].skip[j] == None)
    && (pc.GrowFlags? ==> s.nodes[pc.prior].lock == Some(u))
    && (pc.GrowCopy? ==> CopiedOk(s, u, pc.prior, pc.taller, pc.i))
    && (pc.GrowCas? ==> pc.prior in s.nodes && CopiedOk(s, u, pc.prior, pc.taller, Height(s.nodes[pc.prior])))
    && (pc.GrowMarkLoad? || pc.GrowMarkStore? ==>
          SwappedOk(s, u, pc.prior) && s.nodes[pc.prior].lock == Some(u) && !s.nodes[pc.prior].flags.marked)
    && (pc.GrowMarkStore? ==> pc.seen == Flags(true, false, false))
    && (pc.GrowUnlock? && pc.swapped ==> SwappedOk(s, u, pc.prior) && s.nodes[pc.prior].flags.marked)
    && (pc.GrowRecycle? ==> SwappedOk(s, u, pc.prior) && s.nodes[pc.prior].flags.marked)
  }

  /** The parts of a call, each with its own facts. */
  datatype Part = Searching | Marking | Locking | Inserting | Unlinking | Growing

  ghost predicate PartOk(s: State, u: Tid, pc: Pc, part: Part) {
    match part
    case Searching => SearchPcOk(s, u, pc)
    case Marking => MarkPcOk(s, u, pc)
    case Locking => LockPcOk(s, u, pc)
    case Inserting => InsertPcOk(s, u, pc)
    case Unlinking => UnlinkPcOk(s, u, pc)
    case Growing => GrowPcOk(s, u, pc)
  }

  ghost predicate PcOk(s: State, u: Tid, pc: Pc) {
    forall part {:trigger PartOk(s, u, pc, part)} :: PartOk(s, u, pc, part)
  }

  function PartOf(pc: Pc): Part {
    if pc.RemLinked? || pc.RemUnmarked? || pc.RemTake? || pc.RemSeen? then Marking
    else if pc.RemMarkLoad? || pc.RemMarkStore? then Marking
    else if pc.LockTake? || pc.LockMarked? || pc.LockSkip? || pc.LockSucc? then Locking
    else if pc.AddCreate? || Adds(pc).Some? then Inserting
    else if pc.RemLoad? || pc.RemStore? || pc.RemSize? || pc.Unlock? || pc.RemRecycle? || pc.RemExit? then Unlinking
    else if pc.Idle? || pc.Top? || pc.Start? || pc.Walk? || pc.AddFound? || pc.AddWait? || pc.AddHeight? then Searching
    else Growing
  }

  ghost predicate ThreadOk(s: State, u: Tid, pc: Pc) { HeldOk(s, u, pc) && PcOk(s, u, pc) }

  /** ThreadOk as one folded fact, for lemmas that only pass it on. */
  ghost predicate ThreadHolds(s: State, u: Tid, pc: Pc) {
    forall x {:trigger ThreadOk(s, u, x)} | x == pc :: ThreadOk(s, u, x)
  }

  ghost predicate ThreadAt(s: State, u: Tid)
    requires u in s.threads
  {
    ThreadOk(s, u, s.threads[u])
  }

  /** MemoryOk as one folded fact, for lemmas that only pass it on. */
  ghost predicate MemoryHolds(s: State) {
    forall x {:trigger MemoryOk(x)} | x == s :: MemoryOk(x)
  }

  ghost predicate Inv(s: State) {
    && MemoryHolds(s)
    && forall u {:trigger ThreadAt(s, u)} | u in s.threads :: ThreadAt(s, u)
  }

  // ---------------------------------------------------------------- what thread u relies on

  ghost predicate SameBooks(s: State, s': State, n: NodeId) {
    (n in s'.counted <==> n in s.counted) && (n in s'.removals <==> n in s.removals)
    && (n in s'.recycled <==> n in s.recycled)
  }

  /**
   * Nodes never change key or height; flags are never cleared; what u has locked, created or
   * retires is u's to change.
   */
  ghost predicate NodeFrame(s: State, s': State, u: Tid, n: NodeId)
    requires n in s.nodes
  {
    && n in s'.nodes
    && var r, r' := s.nodes[n], s'.nodes[n];
       && r'.key == r.key && r'.sentinel == r.sentinel && r'.owner == r.owner && Height(r') == Height(r)
       && r.ever <= r'.ever <= Height(r')
       && (r.flags.marked ==> r'.flags.marked) && (r.flags.linked ==> r'.flags.linked)
       && (r.retirer.Some? ==> r'.retirer == r.retirer)
       && (r.lock == Some(u) ==>
             && r'.lock == Some(u) && r'.flags.marked == r.flags.marked
             && forall k | 0 <= k < r.ever :: r'.skip[k] == r.skip[k])
       && (r.retirer == Some(u) ==>
             && r'.up == r.up && r'.flags == r.flags && (n in s.counted ==> n in s'.counted)
             && (n in s'.removals <==> n in s.removals) && (n in s'.recycled <==> n in s.recycled))
       && (r.owner == u && !r.sentinel && !r.flags.linked ==>
             && r'.up == r.up && r'.ever == r.ever && r'.flags == r.flags
             && forall k | r.ever <= k < Height(r) :: r'.skip[k] == r.skip[k])
       && (r.owner == u && r.sentinel && r.ever == 0 ==> r' == r)
       && (r.owner == u && !r.sentinel && n !in s.counted && n !in s.removals ==> SameBooks(s, s', n))
       && (n != s.head && r.ever > 0 ==> n != s'.head)
  }

  ghost predicate Steady(s: State, s': State, u: Tid) {
    && (forall n | n in s.nodes :: NodeFrame(s, s', u, n))
    && s.head in s.nodes && s'.head in s'.nodes && Height(s.nodes[s.head]) <= Height(s'.nodes[s'.head])
  }

  ghost predicate Framed(s: State, s': State, u: Tid) {
    Steady(s, s', u)
    && forall n | n in s'.nodes && s'.nodes[n].lock == Some(u) :: n in s.nodes && s.nodes[n].lock == Some(u)
  }

  /** What never changes about a node, whoever takes the step. */
  ghost predicate Grows(s: State, s': State, n: NodeId)
    requires n in s.nodes
  {
    && n in s'.nodes
    && var r, r' := s.nodes[n], s'.nodes[n];
       r'.key == r.key && r'.sentinel == r.sentinel && r'.owner == r.owner && Height(r') == Height(r)
       && r.ever <= r'.ever <= Height(r')
  }

  ghost predicate Monotone(s: State, s': State) {
    && s.head in s.nodes && s'.head in s'.nodes && Height(s.nodes[s.head]) <= Height(s'.nodes[s'.head])
    && forall n | n in s.nodes :: Grows(s, s', n)
  }

  lemma SteadyGrows(s: State, s': State, u: Tid)
    requires Steady(s, s', u)
    ensures Monotone(s, s')
  {
    forall n | n in s.nodes ensures Grows(s, s', n) { assert NodeFrame(s, s', u, n); }
  }

  lemma PathStable(s: State, s': State, d: Key, lo: nat, p: Path)
    requires Monotone(s, s') && PathOk(s, d, lo, p)
    ensures PathOk(s', d, lo, p)
  {
    forall i | 0 <= i < |p.preds| ensures PredOk(s', d, lo + i, p.preds[i]) {
      assert PredOk(s, d, lo + i, p.preds[i]);
      assert Grows(s, s', p.preds[i]);
    }
    forall i | 0 <= i < |p.succs| ensures SuccOk(s', d, p.succs[i], p.found.None?) {
      assert SuccOk(s, d, p.succs[i], p.found.None?);
      if p.succs[i].Some? { assert Grows(s, s', p.succs[i].value); }
    }
    forall i | 0 <= i < |p.preds| - 1 ensures Upwards(s', p.preds[i], p.preds[i + 1]) {
      assert Upwards(s, p.preds[i], p.preds[i + 1]);
      assert Grows(s, s', p.preds[i]) && Grows(s, s', p.preds[i + 1]);
    }
    if p.found.Some? { assert Grows(s, s', p.found.value); }
  }

  lemma ValidatedStable(s: State, s': State, u: Tid, p: NodeId, k: nat, succ: Option<NodeId>)
    requires Steady(s, s', u) && Validated(s, u, p, k, succ)
    ensures Validated(s', u, p, k, succ)
  {
    assert NodeFrame(s, s', u, p);
  }

  lemma ValidRangeStable(s: State, s': State, u: Tid, p: Path, lo: nat, hi: nat)
    requires Steady(s, s', u) && ValidRange(s, u, p, lo, hi)
    ensures ValidRange(s', u, p, lo, hi)
  {
    forall j | lo <= j < hi ensures Validated(s', u, p.preds[j], j, p.succs[j]) {
      ValidatedStable(s, s', u, p.preds[j], j, p.succs[j]);
    }
  }

  lemma LinkedRangeStable(s: State, s': State, u: Tid, p: Path, n: NodeId, hi: nat)
    requires Steady(s, s', u) && LinkedRange(s, u, p, n, hi)
    ensures LinkedRange(s', u, p, n, hi)
  {
    forall j | 0 <= j < hi ensures Validated(s', u, p.preds[j], j, Some(n)) {
      ValidatedStable(s, s', u, p.preds[j], j, Some(n));
    }
  }

  lemma OpStable(s: State, s': State, u: Tid, op: Op, d: Key)
    requires Steady(s, s', u) && OpOk(s, u, op, d)
    ensures OpOk(s', u, op, d)
    ensures forall layers: nat | Covers(s, op, layers) :: Covers(s', op, layers)
  {
    if op.Removing? && op.victim.Some? { assert NodeFrame(s, s', u, op.victim.value); }
  }

  lemma LockingStable(s: State, s': State, u: Tid, op: Op, d: Key, h: nat, p: Path, layer: nat)
    requires Steady(s, s', u) && LockingOk(s, u, op, d, h, p, layer)
    ensures LockingOk(s', u, op, d, h, p, layer)
  {
    SteadyGrows(s, s', u);
    PathStable(s, s', d, 0, p);
    ValidRangeStable(s, s', u, p, 0, layer);
    OpStable(s, s', u, op, d);
    if op.Removing? { assert NodeFrame(s, s', u, op.victim.value); }
  }

  lemma LayerStable(s: State, s': State, u: Tid, d: Key, p: Path, layer: nat, held: seq<NodeId>)
    requires Steady(s, s', u) && LayerLocked(s, u, d, p, layer, held)
    ensures LayerLocked(s', u, d, p, layer, held)
    ensures s'.nodes[p.preds[layer]].flags.marked == s.nodes[p.preds[layer]].flags.marked
  {
    assert NodeFrame(s, s', u, p.preds[layer]);
    forall n | n in held ensures n in s'.nodes && Pos(s'.nodes[p.preds[layer]]) <= Pos(s'.nodes[n]) < d {
      assert NodeFrame(s, s', u, n);
    }
  }

  lemma NewNodeStable(s: State, s': State, u: Tid, n: NodeId, p: Path)
    requires Steady(s, s', u) && NewNodeOk(s, u, n, p)
    ensures NewNodeOk(s', u, n, p) && s'.nodes[n].up == s.nodes[n].up && Height(s'.nodes[n]) == Height(s.nodes[n])
    ensures forall k | s.nodes[n].up <= k < Height(s.nodes[n]) :: s'.nodes[n].skip[k] == s.nodes[n].skip[k]
  {
    assert NodeFrame(s, s', u, n);
    SteadyGrows(s, s', u);
    PathStable(s, s', s.nodes[n].key, 0, p);
    LinkedRangeStable(s, s', u, p, n, s.nodes[n].up);
    ValidRangeStable(s, s', u, p, s.nodes[n].up, Height(s.nodes[n]));
  }

  lemma UnlinkingStable(s: State, s': State, u: Tid, n: NodeId, k: nat, p: Path)
    requires Steady(s, s', u) && UnlinkingOk(s, u, n, k, p) && NodeOk(s, n)
    ensures UnlinkingOk(s', u, n, k, p) && s'.nodes[n].skip[k] == s.nodes[n].skip[k]
  {
    assert NodeFrame(s, s', u, n);
    SteadyGrows(s, s', u);
    PathStable(s, s', s.nodes[n].key, 0, p);
    LinkedRangeStable(s, s', u, p, n, k + 1);
  }

  lemma GrowingStable(s: State, s': State, u: Tid, prior: NodeId, taller: NodeId)
    requires Steady(s, s', u) && GrowingOk(s, u, prior, taller)
    ensures GrowingOk(s', u, prior, taller) && s'.nodes[taller] == s.nodes[taller]
    ensures s.nodes[prior].lock == Some(u) ==> s'.nodes[prior].lock == Some(u)
    ensures forall i | CopiedOk(s, u, prior, taller, i) :: CopiedOk(s', u, prior, taller, i)
  {
    assert NodeFrame(s, s', u, prior) && NodeFrame(s, s', u, taller);
  }

  lemma ChosenStable(s: State, s': State, u: Tid, d: Key, n: NodeId, p: Path)
    requires Steady(s, s', u) && CandidateOk(s, d, n, p)
    ensures CandidateOk(s', d, n, p) && (ChosenOk(s, d, n, p) ==> ChosenOk(s', d, n, p))
    ensures s.nodes[n].lock == Some(u) ==>
      s'.nodes[n].lock == Some(u) && s'.nodes[n].flags.marked == s.nodes[n].flags.marked
  {
    assert NodeFrame(s, s', u, n);
    SteadyGrows(s, s', u);
    PathStable(s, s', d, 0, p);
  }

  lemma HeldStable(s: State, s': State, u: Tid, pc: Pc)
    requires Framed(s, s', u) && HeldOk(s, u, pc)
    ensures HeldOk(s', u, pc)
  {
    forall n | n in Holds(pc) ensures n in s'.nodes && s'.nodes[n].lock == Some(u) { assert NodeFrame(s, s', u, n); }
    forall n | n in s'.nodes && s'.nodes[n].lock == Some(u) ensures n in Holds(pc) {
      assert n in s.nodes && NodeFrame(s, s', u, n);
    }
  }

  lemma AfterStable(s: State, s': State, u: Tid, after: After, victim: Option<NodeId>)
    requires Steady(s, s', u) && AfterOk(s, u, after, victim)
    ensures AfterOk(s', u, after, victim)
  {
    match after
    case Retry(op, d) => OpStable(s, s', u, op, d);
    case Added(_) =>
    case Unlinked(n) => assert NodeFrame(s, s', u, n);
  }

  lemma SearchStable(s: State, s': State, u: Tid, pc: Pc)
    requires Steady(s, s', u) && SearchPcOk(s, u, pc)
    ensures SearchPcOk(s', u, pc)
  {
    if pc.Top? || pc.Start? || pc.Walk? { OpStable(s, s', u, pc.op, pc.d); }
    if pc.Walk? {
      SteadyGrows(s, s', u);
      PathStable(s, s', pc.d, pc.layer + 1, pc.path);
      assert NodeFrame(s, s', u, pc.pred);
      if pc.path.preds != [] { assert NodeFrame(s, s', u, pc.path.preds[0]); }
    }
    if pc.AddFound? || pc.AddWait? { assert NodeFrame(s, s', u, pc.n); }
  }

  lemma MarkStable(s: State, s': State, u: Tid, pc: Pc)
    requires Steady(s, s', u) && MarkPcOk(s, u, pc)
    ensures MarkPcOk(s', u, pc)
  {
    if pc.RemLinked? || pc.RemUnmarked? || pc.RemTake? || pc.RemSeen? || pc.RemMarkLoad? || pc.RemMarkStore? {
      ChosenStable(s, s', u, pc.d, pc.n, pc.path);
    }
  }

  lemma LockPcStable(s: State, s': State, u: Tid, pc: Pc)
    requires Steady(s, s', u) && LockPcOk(s, u, pc)
    ensures LockPcOk(s', u, pc)
  {
    if pc.LockTake? || pc.LockMarked? || pc.LockSkip? || pc.LockSucc? {
      LockingStable(s, s', u, pc.op, pc.d, pc.h, pc.path, pc.layer);
      if !pc.LockTake? { LayerStable(s, s', u, pc.d, pc.path, pc.layer, pc.held); }
      else if pc.layer > 0 { LayerStable(s, s', u, pc.d, pc.path, pc.layer - 1, pc.held); }
      if pc.LockSucc? { ValidRangeStable(s, s', u, pc.path, 0, pc.layer + 1); }
    }
  }

  lemma InsertStable(s: State, s': State, u: Tid, pc: Pc)
    requires Steady(s, s', u) && InsertPcOk(s, u, pc)
    ensures InsertPcOk(s', u, pc)
  {
    if pc.AddCreate? {
      SteadyGrows(s, s', u);
      PathStable(s, s', pc.d, 0, pc.path);
      ValidRangeStable(s, s', u, pc.path, 0, pc.h);
    } else if pc.AddSize? {
      assert NodeFrame(s, s', u, pc.n);
      ValidatedStable(s, s', u, pc.path.preds[0], 0, Some(pc.n));
    } else if Adds(pc).Some? {
      NewNodeStable(s, s', u, pc.n, pc.path);
    }
  }

  lemma UnlinkStable(s: State, s': State, u: Tid, pc: Pc)
    requires Steady(s, s', u) && UnlinkPcOk(s, u, pc)
    requires NodesOk(s)
    ensures UnlinkPcOk(s', u, pc)
  {
    if pc.RemLoad? || pc.RemStore? { UnlinkingStable(s, s', u, pc.n, pc.k, pc.path); }
    if pc.RemSize? || pc.RemRecycle? { assert NodeFrame(s, s', u, pc.n); }
    if pc.Unlock? { AfterStable(s, s', u, pc.after, pc.victim); }
  }

  lemma GrowStable(s: State, s': State, u: Tid, pc: Pc)
    requires Steady(s, s', u) && GrowPcOk(s, u, pc)
    ensures GrowPcOk(s', u, pc)
  {
    if pc.GrowTake? || pc.GrowFlags? || pc.GrowCopy? || pc.GrowCas? {
      GrowingStable(s, s', u, pc.prior, pc.taller);
      assert NodeFrame(s, s', u, pc.prior);
    } else if pc.GrowMarkLoad? || pc.GrowMarkStore? || (pc.GrowUnlock? && pc.swapped) || pc.GrowRecycle? {
      SwappedStable(s, s', u, pc.prior);
    }
  }

  lemma SwappedStable(s: State, s': State, u: Tid, prior: NodeId)
    requires Steady(s, s', u) && SwappedOk(s, u, prior) && Height(s.nodes[prior]) >= 1
    ensures SwappedOk(s', u, prior) && s'.nodes[prior].flags == s.nodes[prior].flags
    ensures s.nodes[prior].lock == Some(u) ==> s'.nodes[prior].lock == Some(u)
  {
    assert NodeFrame(s, s', u, prior);
  }

  lemma PcStable(s: State, s': State, u: Tid, pc: Pc)
    requires Steady(s, s', u) && PcOk(s, u, pc)
    requires NodesOk(s)
    ensures PcOk(s', u, pc)
  {
    forall part ensures PartOk(s', u, pc, part) {
      assert PartOk(s, u, pc, part);
      match part
      case Searching => SearchStable(s, s', u, pc);
      case Marking => MarkStable(s, s', u, pc);
      case Locking => LockPcStable(s, s', u, pc);
      case Inserting => InsertStable(s, s', u, pc);
      case Unlinking => UnlinkStable(s, s', u, pc);
      case Growing => GrowStable(s, s', u, pc);
    }
  }

  ghost predicate OthersFramed(s: State, t: Tid, s': State) {
    && t in s.threads && s'.threads.Keys == s.threads.Keys
    && forall u | u in s.threads && u != t :: s'.threads[u] == s.threads[u] && Framed(s, s', u)
  }

  lemma Assemble(s: State, t: Tid, s': State)
    requires Inv(s) && MemoryHolds(s') && OthersFramed(s, t, s') && ThreadHolds(s', t, s'.threads[t])
    ensures Inv(s')
  {
    assert MemoryOk(s);
    forall u | u in s'.threads ensures ThreadAt(s', u) {
      if u != t {
        assert ThreadAt(s, u);
        HeldStable(s, s', u, s.threads[u]);
        PcStable(s, s', u, s.threads[u]);
      } else {
        assert ThreadOk(s', t, s'.threads[t]);
      }
    }
  }

  // ---------------------------------------------------------------- what a step of t leaves alone

  ghost predicate Moved(s: State, t: Tid, s': State) {
    t in s.threads && t in s'.threads && s'.threads == s.threads[t := s'.threads[t]]
  }

  ghost predicate KeepsVictim(pc: Pc, pc': Pc) { Removes(pc).Some? ==> Removes(pc') == Removes(pc) }

  /** The links that make up the layers are the same around n. */
  ghost predicate SameLayers(s: State, s': State, n: NodeId)
    requires n in s.nodes
  {
    && n in s'.nodes
    && var r, r' := s.nodes[n], s'.nodes[n];
       && r'.key == r.key && r'.sentinel == r.sentinel && r'.up == r.up && Height(r') == Height(r)
       && forall k | 0 <= k < Height(r) && (k < r.up || n == s.head) :: r'.skip[k] == r.skip[k]
  }

  lemma LayersSame(s: State, s': State)
    requires LayersOk(s) && s.head in s.nodes && s'.head == s.head
    requires forall n | n in s.nodes :: SameLayers(s, s', n)
    requires forall n | n in s'.nodes && n !in s.nodes :: s'.nodes[n].up == 0
    ensures LayersOk(s')
  {
    forall k: nat, m ensures In(s', k, m) <==> In(s, k, m) {
      if m in s.nodes { assert SameLayers(s, s', m); }
    }
    forall k: nat, x | OnLayer(s', k, x) ensures NextOk(s', k, x) {
      NextSame(s, s', k, x);
    }
    forall m, n | In(s', 0, m) && In(s', 0, n) && s'.nodes[m].key == s'.nodes[n].key ensures m == n {
      assert In(s, 0, m) && In(s, 0, n) && SameLayers(s, s', m) && SameLayers(s, s', n);
    }
  }

  lemma NextSame(s: State, s': State, k: nat, x: NodeId)
    requires LayersOk(s) && s.head in s.nodes && s'.head == s.head && OnLayer(s', k, x)
    requires forall n | n in s.nodes :: SameLayers(s, s', n)
    requires forall k: nat, m :: In(s', k, m) <==> In(s, k, m)
    ensures NextOk(s', k, x)
  {
    assert x != s.head ==> In(s', k, x) && In(s, k, x);
    assert x in s.nodes && SameLayers(s, s', x) && OnLayer(s, k, x) && NextOk(s, k, x);
    forall m | In(s', k, m) ensures In(s, k, m) && s'.nodes[m].key == s.nodes[m].key { assert SameLayers(s, s', m); }
    if s.nodes[x].skip[k].Some? { assert SameLayers(s, s', s.nodes[x].skip[k].value); }
  }

  /** A step of t that at most locks or unlocks n keeps what is known of n. */
  lemma NodeKept(s: State, t: Tid, s': State, n: NodeId)
    requires n in s.nodes && n in s'.nodes && NodeOk(s, n) && Monotone(s, s') && (n == s.head ==> n == s'.head)
    requires Moved(s, t, s')
    requires s'.nodes[n] == s.nodes[n].(lock := s'.nodes[n].lock)
    requires s'.nodes[n].lock == s.nodes[n].lock || s.nodes[n].lock == None || s.nodes[n].lock == Some(t)
    requires s'.nodes[n].lock == s.nodes[n].lock || s'.nodes[n].lock == None || s'.nodes[n].lock == Some(t)
    requires Swaps(s.threads[t]) == Some(n) ==> s'.nodes[n].lock == s.nodes[n].lock && Swaps(s'.threads[t]) == Some(n)
    requires s'.nodes[n].lock == s.nodes[n].lock || s.nodes[n].ever > 0
    ensures NodeOk(s', n)
  {
    forall k | 0 <= k < Height(s'.nodes[n]) ensures LinkOk(s', n, k) { LinkKept(s, s', n, k); }
  }

  lemma LinkKept(s: State, s': State, n: NodeId, k: nat)
    requires n in s.nodes && k < Height(s.nodes[n]) && LinkOk(s, n, k) && Monotone(s, s')
    requires n in s'.nodes && k < Height(s'.nodes[n]) && s'.nodes[n].skip[k] == s.nodes[n].skip[k]
    requires Pos(s'.nodes[n]) == Pos(s.nodes[n])
    ensures LinkOk(s', n, k)
  {
    if s.nodes[n].skip[k].Some? { assert Grows(s, s', s.nodes[n].skip[k].value); }
  }

  lemma LifeKept(s: State, t: Tid, s': State, n: NodeId)
    requires n in s.nodes && n in s'.nodes && LifeOk(s, n) && (n == s'.head ==> n == s.head) && Moved(s, t, s')
    requires SameBooks(s, s', n)
    requires s'.nodes[n].(lock := None, skip := []) == s.nodes[n].(lock := None, skip := [])
    requires Adds(s.threads[t]) == Some(n) ==> Adds(s'.threads[t]) == Some(n)
    requires Removes(s.threads[t]) == Some(n) ==> Removes(s'.threads[t]) == Some(n)
    ensures LifeOk(s', n)
  {
  }

  lemma FrameSame(s: State, s': State, u: Tid, n: NodeId)
    requires n in s.nodes && n in s'.nodes && NodeOk(s, n) && s'.nodes[n] == s.nodes[n] && SameBooks(s, s', n)
    requires s'.head == s.head || s'.head !in s.nodes || s.nodes[s'.head].ever == 0
    ensures NodeFrame(s, s', u, n)
  {
  }

  lemma SameFramed(s: State, s': State, u: Tid)
    requires MemoryOk(s) && s' == s.(threads := s'.threads)
    ensures Framed(s, s', u)
  {
    forall n | n in s.nodes ensures NodeFrame(s, s', u, n) { FrameSame(s, s', u, n); }
  }

  lemma MovedMemory(s: State, t: Tid, s': State)
    requires MemoryOk(s) && s' == s.(threads := s'.threads) && Moved(s, t, s')
    requires Adds(s.threads[t]).Some? ==> Adds(s'.threads[t]) == Adds(s.threads[t])
    requires KeepsVictim(s.threads[t], s'.threads[t])
    requires Swaps(s.threads[t]).Some? ==> Swaps(s'.threads[t]) == Swaps(s.threads[t])
    ensures MemoryHolds(s')
  {
    SameFramed(s, s', t);
    SteadyGrows(s, s', t);
    LayersSame(s, s');
    forall n | n in s'.nodes ensures NodeOk(s', n) { assert NodeOk(s, n); NodeKept(s, t, s', n); }
    forall n | n in s'.nodes ensures LifeOk(s', n) { assert LifeOk(s, n); LifeKept(s, t, s', n); }
  }

  /** Loads, and local moves. */
  lemma PcOnly(s: State, t: Tid, s': State)
    requires Inv(s) && Moved(s, t, s') && s' == s.(threads := s'.threads)
    requires Adds(s.threads[t]).Some? ==> Adds(s'.threads[t]) == Adds(s.threads[t])
    requires KeepsVictim(s.threads[t], s'.threads[t])
    requires Swaps(s.threads[t]).Some? ==> Swaps(s'.threads[t]) == Swaps(s.threads[t])
    requires ThreadHolds(s', t, s'.threads[t])
    ensures Inv(s')
  {
    MovedMemory(s, t, s');
    forall u ensures Framed(s, s', u) { SameFramed(s, s', u); }
    Assemble(s, t, s');
  }

  /** A move of t that concerns only t. */
  ghost predicate Private(s: State, t: Tid, s': State) {
    && t in s.threads && t in s'.threads && s' == Goto(s, t, s'.threads[t]) && PcOk(s, t, s'.threads[t])
    && SameRole(s.threads[t], s'.threads[t])
  }

  ghost predicate SameRole(pc: Pc, pc': Pc) {
    Holds(pc') == Holds(pc) && Adds(pc') == Adds(pc) && Swaps(pc') == Swaps(pc) && KeepsVictim(pc, pc')
  }

  /** A program point is constrained by the facts of its own part alone. */
  lemma OnlyPart(s: State, t: Tid, pc: Pc, part: Part)
    requires PartOf(pc) == part
    ensures PcOk(s, t, pc) <==> PartOk(s, t, pc, part)
  {
    assert PcOk(s, t, pc) ==> PartOk(s, t, pc, part);
    forall other | other != part ensures PartOk(s, t, pc, other) { OtherPart(s, t, pc, other); }
  }

  lemma OtherPart(s: State, t: Tid, pc: Pc, part: Part)
    requires PartOf(pc) != part
    ensures PartOk(s, t, pc, part)
  {
    match part
    case Searching => NotSearching(s, t, pc);
    case Marking => NotMarking(s, t, pc);
    case Locking => NotLocking(s, t, pc);
    case Inserting => NotInserting(s, t, pc);
    case Unlinking => NotUnlinking(s, t, pc);
    case Growing => NotGrowing(s, t, pc);
  }

  lemma NotSearching(s: State, t: Tid, pc: Pc)
    requires PartOf(pc) != Searching
    ensures SearchPcOk(s, t, pc)
  {
  }

  lemma NotMarking(s: State, t: Tid, pc: Pc)
    requires PartOf(pc) != Marking
    ensures MarkPcOk(s, t, pc)
  {
  }

  lemma NotLocking(s: State, t: Tid, pc: Pc)
    requires PartOf(pc) != Locking
    ensures LockPcOk(s, t, pc)
  {
  }

  lemma NotInserting(s: State, t: Tid, pc: Pc)
    requires PartOf(pc) != Inserting
    ensures InsertPcOk(s, t, pc)
  {
  }

  lemma NotUnlinking(s: State, t: Tid, pc: Pc)
    requires PartOf(pc) != Unlinking
    ensures UnlinkPcOk(s, t, pc)
  {
  }

  lemma NotGrowing(s: State, t: Tid, pc: Pc)
    requires PartOf(pc) != Growing
    ensures GrowPcOk(s, t, pc)
  {
  }

  lemma OnlySearchPc(s: State, t: Tid, pc: Pc)
    requires PartOf(pc) == Searching
    ensures PcOk(s, t, pc) <==> SearchPcOk(s, t, pc)
  {
    OnlyPart(s, t, pc, Searching);
  }

  lemma OnlyMarkPc(s: State, t: Tid, pc: Pc)
    requires PartOf(pc) == Marking
    ensures PcOk(s, t, pc) <==> MarkPcOk(s, t, pc)
  {
    OnlyPart(s, t, pc, Marking);
  }

  lemma OnlyLockPc(s: State, t: Tid, pc: Pc)
    requires PartOf(pc) == Locking
    ensures PcOk(s, t, pc) <==> LockPcOk(s, t, pc)
  {
    OnlyPart(s, t, pc, Locking);
  }

  lemma OnlyInsertPc(s: State, t: Tid, pc: Pc)
    requires PartOf(pc) == Inserting
    ensures PcOk(s, t, pc) <==> InsertPcOk(s, t, pc)
  {
    OnlyPart(s, t, pc, Inserting);
  }

  lemma OnlyUnlinkPc(s: State, t: Tid, pc: Pc)
    requires PartOf(pc) == Unlinking
    ensures PcOk(s, t, pc) <==> UnlinkPcOk(s, t, pc)
  {
    OnlyPart(s, t, pc, Unlinking);
  }

  lemma OnlyGrowPc(s: State, t: Tid, pc: Pc)
    requires PartOf(pc) == Growing
    ensures PcOk(s, t, pc) <==> GrowPcOk(s, t, pc)
  {
    OnlyPart(s, t, pc, Growing);
  }

  // ---------------------------------------------------------------- search

  lemma BeginNext(s: State, t: Tid, s': State)
    requires Begin(s, t, s')
    ensures Private(s, t, s')
  {
    OnlySearchPc(s, t, s'.threads[t]);
  }

  lemma TopNext(s: State, t: Tid, s': State)
    requires DoTop(s, t, s') && NodesOk(s) && SearchPcOk(s, t, s.threads[t])
    ensures Private(s, t, s')
  {
    OnlySearchPc(s, t, s'.threads[t]);
    var op := s.threads[t].op;
    if op.Removing? && op.victim.Some? { assert NodeOk(s, op.victim.value); }
  }

  lemma StartNext(s: State, t: Tid, s': State)
    requires DoStart(s, t, s') && HeadOk(s) && SearchPcOk(s, t, s.threads[t])
    ensures Private(s, t, s')
  {
    OnlySearchPc(s, t, s'.threads[t]);
  }

  /** The record of a layer: a predecessor before the key, a successor not before it. */
  lemma RecordOk(s: State, d: Key, layer: nat, pred: NodeId, node: Option<NodeId>, p: Path)
    requires PathOk(s, d, layer + 1, p) && PredOk(s, d, layer, pred) && SuccOk(s, d, node, false)
    requires p.preds != [] ==> Upwards(s, pred, p.preds[0])
    ensures PathOk(s, d, layer, Record(s, d, layer, pred, node, p))
  {
    var p' := Record(s, d, layer, pred, node, p);
    forall i | 0 <= i < |p'.preds| ensures PredOk(s, d, layer + i, p'.preds[i]) {
      if i > 0 { assert PredOk(s, d, layer + 1 + (i - 1), p.preds[i - 1]); }
    }
    forall i | 0 <= i < |p'.succs| ensures SuccOk(s, d, p'.succs[i], p'.found.None?) {
      if i > 0 { assert SuccOk(s, d, p.succs[i - 1], p.found.None?); }
    }
    forall i | 0 <= i < |p'.preds| - 1 ensures Upwards(s, p'.preds[i], p'.preds[i + 1]) {
      if i > 0 { assert Upwards(s, p.preds[i - 1], p.preds[i]); }
    }
  }

  lemma WalkRight(s: State, t: Tid, s': State)
    requires DoWalk(s, t, s') && NodesOk(s) && SearchPcOk(s, t, s.threads[t])
    requires Greater(s, s.threads[t].d, s.nodes[s.threads[t].pred].skip[s.threads[t].layer])
    ensures Private(s, t, s')
  {
    OnlySearchPc(s, t, s'.threads[t]);
    var pc := s.threads[t];
    assert NodeOk(s, pc.pred) && LinkOk(s, pc.pred, pc.layer);
    assert NodeOk(s, s.nodes[pc.pred].skip[pc.layer].value);
  }

  lemma WalkDown(s: State, t: Tid, s': State)
    requires DoWalk(s, t, s') && NodesOk(s) && SearchPcOk(s, t, s.threads[t])
    requires !Greater(s, s.threads[t].d, s.nodes[s.threads[t].pred].skip[s.threads[t].layer])
    ensures var pc := s.threads[t];
      PathOk(s, pc.d, pc.layer, Record(s, pc.d, pc.layer, pc.pred, s.nodes[pc.pred].skip[pc.layer], pc.path))
    ensures s.threads[t].layer > 0 ==> Private(s, t, s')
  {
    var pc := s.threads[t];
    assert NodeOk(s, pc.pred) && LinkOk(s, pc.pred, pc.layer);
    if pc.layer > 0 { OnlySearchPc(s, t, s'.threads[t]); }
    RecordOk(s, pc.d, pc.layer, pc.pred, s.nodes[pc.pred].skip[pc.layer], pc.path);
  }

  lemma WalkNext(s: State, t: Tid, s': State)
    requires DoWalk(s, t, s') && NodesOk(s) && SearchPcOk(s, t, s.threads[t])
    ensures Private(s, t, s')
  {
    var pc := s.threads[t];
    var node := s.nodes[pc.pred].skip[pc.layer];
    if Greater(s, pc.d, node) {
      WalkRight(s, t, s');
    } else {
      WalkDown(s, t, s');
      if pc.layer == 0 {
        var p := Record(s, pc.d, 0, pc.pred, node, pc.path);
        if pc.op.Adding? { AddSearched(s, t, pc.d, p, s'); } else { RemoveSearched(s, t, pc.op, pc.d, p, s'); }
      }
    }
  }

  lemma AddSearched(s: State, t: Tid, d: Key, p: Path, s': State)
    requires t in s.threads && AfterSearch(s, t, Adding, d, p, s') && s.threads[t].Walk? && s.threads[t].op == Adding
    requires PathOk(s, d, 0, p) && Covers(s, Adding, |p.preds|)
    ensures Private(s, t, s')
  {
    if p.found.Some? { OnlySearchPc(s, t, s'.threads[t]); } else { OnlyLockPc(s, t, s'.threads[t]); }
  }

  lemma RemoveSearched(s: State, t: Tid, op: Op, d: Key, p: Path, s': State)
    requires t in s.threads && op.Removing? && AfterSearch(s, t, op, d, p, s') && s.threads[t].Walk?
    requires s.threads[t].op == op
    requires NodesOk(s) && OpOk(s, t, op, d) && PathOk(s, d, 0, p) && Covers(s, op, |p.preds|)
    ensures Private(s, t, s')
  {
    if op.victim.Some? { OnlyLockPc(s, t, s'.threads[t]); }
    if op.victim.Some? { assert NodeOk(s, op.victim.value); }
  }

  lemma FoundNext(s: State, t: Tid, s': State)
    requires (DoAddFound(s, t, s') || (DoAddWait(s, t, s') && s' != s)) && SearchPcOk(s, t, s.threads[t])
    ensures Private(s, t, s')
  {
    OnlySearchPc(s, t, s'.threads[t]);
  }

  lemma PrivateThread(s: State, t: Tid, s': State)
    requires MemoryOk(s) && Private(s, t, s') && HeldOk(s, t, s.threads[t])
    ensures ThreadHolds(s', t, s'.threads[t])
  {
    SameFramed(s, s', t);
    HeldStable(s, s', t, s.threads[t]);
    PcStable(s, s', t, s'.threads[t]);
  }

  lemma PrivateKeeps(s: State, t: Tid, s': State)
    requires Inv(s) && Private(s, t, s')
    ensures Inv(s')
  {
    Known(s, t);
    PrivateThread(s, t, s');
    PcOnly(s, t, s');
  }

  lemma Known(s: State, t: Tid)
    requires Inv(s) && t in s.threads
    ensures NodesOk(s) && HeadOk(s) && HeldOk(s, t, s.threads[t]) && PcOk(s, t, s.threads[t])
  {
    assert MemoryOk(s);
    assert ThreadAt(s, t);
  }

  lemma SearchStepKeeps(s: State, t: Tid, s': State)
    requires Inv(s) && SearchStep(s, t, s')
    ensures Inv(s')
  {
    Known(s, t);
    OnlySearchPc(s, t, s.threads[t]);
    if Begin(s, t, s') { BeginNext(s, t, s'); }
    else if DoTop(s, t, s') { TopNext(s, t, s'); }
    else if DoStart(s, t, s') { StartNext(s, t, s'); }
    else if DoWalk(s, t, s') { WalkNext(s, t, s'); }
    else if s' != s { FoundNext(s, t, s'); }
    if s' != s { PrivateKeeps(s, t, s'); }
  }

  // ---------------------------------------------------------------- locks

  /** Thread t takes the free lock of n, or releases it. */
  ghost predicate Relocks(s: State, t: Tid, s': State, n: NodeId, lock: Option<Tid>) {
    && Moved(s, t, s') && n in s.nodes && s.nodes[n].ever > 0
    && (lock == None || lock == Some(t)) && s.nodes[n].lock == (if lock == None then Some(t) else None)
    && s' == s.(nodes := s.nodes[n := s.nodes[n].(lock := lock)], threads := s'.threads)
  }

  lemma LockLayers(s: State, t: Tid, s': State, n: NodeId, lock: Option<Tid>)
    requires HeadOk(s) && LayersOk(s) && NodesOk(s) && Relocks(s, t, s', n, lock)
    ensures HeadOk(s') && LayersOk(s') && Monotone(s, s')
  {
    forall x | x in s.nodes ensures Grows(s, s', x) { assert NodeOk(s, x); }
    forall x | x in s.nodes ensures SameLayers(s, s', x) { }
    LayersSame(s, s');
  }

  lemma LockMemory(s: State, t: Tid, s': State, n: NodeId, lock: Option<Tid>)
    requires MemoryOk(s) && Relocks(s, t, s', n, lock)
    requires Adds(s.threads[t]).None? && Swaps(s.threads[t]).None? && KeepsVictim(s.threads[t], s'.threads[t])
    ensures MemoryHolds(s')
  {
    LockLayers(s, t, s', n, lock);
    forall x | x in s'.nodes ensures NodeOk(s', x) { assert NodeOk(s, x); NodeKept(s, t, s', x); }
    forall x | x in s'.nodes ensures LifeOk(s', x) { assert LifeOk(s, x); LifeKept(s, t, s', x); }
  }

  lemma LockFrame(s: State, t: Tid, s': State, n: NodeId, lock: Option<Tid>, u: Tid)
    requires HeadOk(s) && NodesOk(s) && Relocks(s, t, s', n, lock) && (u != t || lock == Some(t))
    ensures Steady(s, s', u) && (u != t ==> Framed(s, s', u))
  {
    forall x | x in s.nodes ensures NodeFrame(s, s', u, x) { assert NodeOk(s, x); }
  }

  lemma LockHolds(s: State, t: Tid, s': State, n: NodeId, lock: Option<Tid>)
    requires Relocks(s, t, s', n, lock) && HeldOk(s, t, s.threads[t])
    requires Holds(s'.threads[t]) == if lock == None then Holds(s.threads[t]) - {n} else Holds(s.threads[t]) + {n}
    ensures HeldOk(s', t, s'.threads[t])
  {
  }

  lemma RelocksKeep(s: State, t: Tid, s': State, n: NodeId, lock: Option<Tid>)
    requires Inv(s) && Relocks(s, t, s', n, lock)
    requires Adds(s.threads[t]).None? && Swaps(s.threads[t]).None? && KeepsVictim(s.threads[t], s'.threads[t])
    requires ThreadHolds(s', t, s'.threads[t])
    ensures Inv(s')
  {
    LockMemory(s, t, s', n, lock);
    forall u | u in s.threads && u != t ensures Framed(s, s', u) { LockFrame(s, t, s', n, lock, u); }
    Assemble(s, t, s');
  }

  // ---------------------------------------------------------------- okToDelete and marking

  lemma CandidateNext(s: State, t: Tid, s': State)
    requires DoRemLinked(s, t, s') || DoRemUnmarked(s, t, s')
    requires MarkPcOk(s, t, s.threads[t])
    ensures Private(s, t, s')
  {
    if s'.threads[t].Idle? { OnlySearchPc(s, t, Idle); } else { OnlyMarkPc(s, t, s'.threads[t]); }
  }

  lemma SeenNext(s: State, t: Tid, s': State)
    requires DoRemSeen(s, t, s') && MarkPcOk(s, t, s.threads[t]) && HeldOk(s, t, s.threads[t])
    ensures Private(s, t, s')
  {
    if s'.threads[t].RemMarkLoad? { OnlyMarkPc(s, t, s'.threads[t]); } else { OnlyUnlinkPc(s, t, s'.threads[t]); }
    assert s.threads[t].n in Holds(s.threads[t]);
  }

  lemma MarkLoadNext(s: State, t: Tid, s': State)
    requires DoRemMarkLoad(s, t, s') && NodesOk(s) && MarkPcOk(s, t, s.threads[t])
    ensures Private(s, t, s')
  {
    OnlyMarkPc(s, t, s'.threads[t]);
    assert NodeOk(s, s.threads[t].n);
  }

  lemma RemTakeNext(s: State, t: Tid, s': State)
    requires DoRemTake(s, t, s') && HeadOk(s) && NodesOk(s) && MarkPcOk(s, t, s.threads[t])
    requires HeldOk(s, t, s.threads[t])
    ensures Relocks(s, t, s', s.threads[t].n, Some(t)) && PcOk(s', t, s'.threads[t]) && HeldOk(s', t, s'.threads[t])
  {
    OnlyMarkPc(s', t, s'.threads[t]);
    var pc := s.threads[t];
    assert NodeOk(s, pc.n);
    LockFrame(s, t, s', pc.n, Some(t), t);
    ChosenStable(s, s', t, pc.d, pc.n, pc.path);
    LockHolds(s, t, s', pc.n, Some(t));
  }

  // ---------------------------------------------------------------- flags

  /** Thread t sets flags of n, and perhaps takes its retirement upon itself. */
  ghost predicate Reflags(s: State, t: Tid, s': State, n: NodeId, flags: Flags, retirer: Option<Tid>) {
    && Moved(s, t, s') && n in s.nodes && n != s.head
    && (s.nodes[n].flags.marked ==> flags.marked) && (s.nodes[n].flags.linked ==> flags.linked)
    && s' == s.(nodes := s.nodes[n := s.nodes[n].(flags := flags, retirer := retirer)], threads := s'.threads)
  }

  lemma FlagLayers(s: State, t: Tid, s': State, n: NodeId, flags: Flags, retirer: Option<Tid>)
    requires HeadOk(s) && LayersOk(s) && NodesOk(s) && Reflags(s, t, s', n, flags, retirer)
    ensures HeadOk(s') && LayersOk(s') && Monotone(s, s')
  {
    forall x | x in s.nodes ensures Grows(s, s', x) { assert NodeOk(s, x); }
    forall x | x in s.nodes ensures SameLayers(s, s', x) { }
    LayersSame(s, s');
  }

  lemma FlagNodes(s: State, t: Tid, s': State, n: NodeId, flags: Flags, retirer: Option<Tid>)
    requires NodesOk(s) && Monotone(s, s') && Reflags(s, t, s', n, flags, retirer)
    requires ShapeOk(s'.nodes[n]) && (s.nodes[n].sentinel && s.nodes[n].ever > 0 ==> flags.marked)
    requires (Swaps(s.threads[t]) == None || Swaps(s.threads[t]) == Some(n))
    ensures NodesOk(s')
  {
    forall x | x in s'.nodes ensures NodeOk(s', x) {
      assert NodeOk(s, x);
      if x == n {
        forall k | 0 <= k < Height(s'.nodes[n]) ensures LinkOk(s', n, k) { LinkKept(s, s', n, k); }
      } else {
        NodeKept(s, t, s', x);
      }
    }
  }

  lemma FlagMemory(s: State, t: Tid, s': State, n: NodeId, flags: Flags, retirer: Option<Tid>)
    requires MemoryOk(s) && Reflags(s, t, s', n, flags, retirer)
    requires ShapeOk(s'.nodes[n]) && (s.nodes[n].sentinel && s.nodes[n].ever > 0 ==> flags.marked)
    requires !s.nodes[n].sentinel && flags.marked ==> n in s.removals || BeingRemoved(s', n)
    requires Adds(s'.threads[t]) == Adds(s.threads[t])
    requires (Swaps(s.threads[t]) == None || Swaps(s.threads[t]) == Some(n))
    requires KeepsVictim(s.threads[t], s'.threads[t])
    ensures MemoryHolds(s')
  {
    FlagLayers(s, t, s', n, flags, retirer);
    FlagNodes(s, t, s', n, flags, retirer);
    forall x | x in s'.nodes ensures LifeOk(s', x) { assert LifeOk(s, x); if x != n { LifeKept(s, t, s', x); } }
  }

  lemma FlagFrame(s: State, t: Tid, s': State, n: NodeId, flags: Flags, retirer: Option<Tid>, u: Tid)
    requires HeadOk(s) && NodesOk(s) && Reflags(s, t, s', n, flags, retirer) && u != t
    requires s.nodes[n].retirer == None || s.nodes[n].retirer == Some(t) == retirer
    requires s.nodes[n].lock == Some(u) ==> flags.marked == s.nodes[n].flags.marked
    requires s.nodes[n].owner == u ==> if s.nodes[n].sentinel then s.nodes[n].ever > 0 else s.nodes[n].flags.linked
    ensures Framed(s, s', u)
  {
    forall x | x in s.nodes ensures NodeFrame(s, s', u, x) { assert NodeOk(s, x); }
  }

  lemma ReflagsKeep(s: State, t: Tid, s': State, n: NodeId, flags: Flags, retirer: Option<Tid>)
    requires Inv(s) && Reflags(s, t, s', n, flags, retirer)
    requires ShapeOk(s'.nodes[n]) && (s.nodes[n].sentinel && s.nodes[n].ever > 0 ==> flags.marked)
    requires !s.nodes[n].sentinel && flags.marked ==> n in s.removals || BeingRemoved(s', n)
    requires Adds(s'.threads[t]) == Adds(s.threads[t])
    requires (Swaps(s.threads[t]) == None || Swaps(s.threads[t]) == Some(n))
    requires KeepsVictim(s.threads[t], s'.threads[t])
    requires s.nodes[n].retirer == None || s.nodes[n].retirer == Some(t) == retirer
    requires s.nodes[n].lock == None || s.nodes[n].lock == Some(t) || flags.marked == s.nodes[n].flags.marked
    requires s.nodes[n].owner == t || (if s.nodes[n].sentinel then s.nodes[n].ever > 0 else s.nodes[n].flags.linked)
    requires PcOk(s', t, s'.threads[t]) && HeldOk(s', t, s'.threads[t])
    ensures Inv(s')
  {
    FlagMemory(s, t, s', n, flags, retirer);
    forall u | u in s.threads && u != t ensures Framed(s, s', u) { FlagFrame(s, t, s', n, flags, retirer, u); }
    Assemble(s, t, s');
  }

  lemma SameHolds(s: State, t: Tid, s': State)
    requires t in s.threads && t in s'.threads && HeldOk(s, t, s.threads[t])
    requires Holds(s'.threads[t]) == Holds(s.threads[t])
    requires s'.nodes.Keys == s.nodes.Keys && forall n | n in s.nodes :: s'.nodes[n].lock == s.nodes[n].lock
    ensures HeldOk(s', t, s'.threads[t])
  {
  }

  lemma RemMarkStoreNext(s: State, t: Tid, s': State)
    requires DoRemMarkStore(s, t, s') && MemoryOk(s) && MarkPcOk(s, t, s.threads[t])
    ensures Reflags(s, t, s', s.threads[t].n, Flags(false, true, true), Some(t)) && ShapeOk(s'.nodes[s.threads[t].n])
    ensures PcOk(s', t, s'.threads[t])
  {
    OnlyLockPc(s', t, s'.threads[t]);
    var pc := s.threads[t];
    assert NodeOk(s, pc.n) && LifeOk(s, pc.n);
    FlagLayers(s, t, s', pc.n, Flags(false, true, true), Some(t));
    PathStable(s, s', pc.d, 0, pc.path);
  }

  lemma MarkStepKeeps(s: State, t: Tid, s': State)
    requires Inv(s) && MarkStep(s, t, s')
    ensures Inv(s')
  {
    Known(s, t);
    OnlyMarkPc(s, t, s.threads[t]);
    if DoRemTake(s, t, s') {
      RemTakeNext(s, t, s');
      RelocksKeep(s, t, s', s.threads[t].n, Some(t));
    } else if DoRemMarkStore(s, t, s') {
      RemMarkStoreKeeps(s, t, s');
    } else {
      if DoRemSeen(s, t, s') { SeenNext(s, t, s'); }
      else if DoRemMarkLoad(s, t, s') { MarkLoadNext(s, t, s'); }
      else { CandidateNext(s, t, s'); }
      PrivateKeeps(s, t, s');
    }
  }

  lemma RemMarkStoreKeeps(s: State, t: Tid, s': State)
    requires Inv(s) && DoRemMarkStore(s, t, s')
    ensures Inv(s')
  {
    Known(s, t);
    OnlyMarkPc(s, t, s.threads[t]);
    RemMarkStoreNext(s, t, s');
    SameHolds(s, t, s');
    assert NodeOk(s, s.threads[t].n);
    ReflagsKeep(s, t, s', s.threads[t].n, Flags(false, true, true), Some(t));
  }

  // ---------------------------------------------------------------- lockNodesForChange

  /** A validated predecessor is on its layer, so its link leads to the next key of the layer. */
  lemma ValidatedOnLayer(s: State, t: Tid, p: NodeId, k: nat, succ: Option<NodeId>)
    requires HeadOk(s) && LayersOk(s) && NodesOk(s) && Validated(s, t, p, k, succ) && t in s.threads
    requires Swaps(s.threads[t]).None?
    ensures OnLayer(s, k, p) && NextOk(s, k, p)
  {
    assert NodeOk(s, p);
  }

  /** Two positions of a layer that both lead to n are the same. */
  lemma OnePred(s: State, k: nat, p: NodeId, q: NodeId, n: NodeId)
    requires HeadOk(s) && LayersOk(s) && OnLayer(s, k, p) && OnLayer(s, k, q) && NextOk(s, k, p) && NextOk(s, k, q)
    requires s.nodes[p].skip[k] == Some(n) && s.nodes[q].skip[k] == Some(n)
    ensures p == q
  {
    assert p != s.head ==> In(s, k, p) && In(s, 0, p);
    assert q != s.head ==> In(s, k, q) && In(s, 0, q);
  }

  /** A validated link before the victim's key leads to the victim itself. */
  lemma SuccIsVictim(s: State, k: nat, p: NodeId, n: NodeId)
    requires HeadOk(s) && LayersOk(s) && OnLayer(s, k, p) && NextOk(s, k, p) && In(s, k, n)
    requires Pos(s.nodes[p]) < s.nodes[n].key && SuccOk(s, s.nodes[n].key, s.nodes[p].skip[k], false)
    ensures s.nodes[p].skip[k] == Some(n)
  {
    assert s.nodes[p].skip[k].Some?;
    var m := s.nodes[p].skip[k].value;
    assert In(s, k, m) && In(s, 0, m) && In(s, 0, n);
  }

  /** The victim was counted: its adder would still hold the lock of its predecessor. */
  lemma VictimIsCounted(s: State, t: Tid, n: NodeId, p: NodeId)
    requires Inv(s) && t in s.threads && Adds(s.threads[t]).None? && Swaps(s.threads[t]).None?
    requires VictimOk(s, t, n) && Validated(s, t, p, 0, Some(n))
    ensures n in s.counted
  {
    assert MemoryOk(s);
    assert LifeOk(s, n);
    if n !in s.counted {
      var a := s.nodes[n].owner;
      assert a in s.threads && Adds(s.threads[a]) == Some(n);
      Known(s, a);
      OnlyInsertPc(s, a, s.threads[a]);
      AdderHolds(s, a, n);
      var q := s.threads[a].path.preds[0];
      ValidatedOnLayer(s, t, p, 0, Some(n));
      ValidatedOnLayer(s, a, q, 0, Some(n));
      OnePred(s, 0, p, q, n);
    }
  }

  lemma AdderHolds(s: State, a: Tid, n: NodeId)
    requires n in s.nodes && a in s.threads && InsertPcOk(s, a, s.threads[a]) && Adds(s.threads[a]) == Some(n)
    requires s.nodes[n].flags.linked
    ensures s.threads[a].AddSize? && |s.threads[a].path.preds| > 0
    ensures Validated(s, a, s.threads[a].path.preds[0], 0, Some(n))
  {
  }

  lemma VictimReached(s: State, t: Tid, n: NodeId, p: Path)
    requires Inv(s) && t in s.threads && Adds(s.threads[t]).None? && Swaps(s.threads[t]).None?
    requires VictimOk(s, t, n) && s.nodes[n].up == Height(s.nodes[n]) > 0 && PathOk(s, s.nodes[n].key, 0, p)
    requires ValidRange(s, t, p, 0, Height(s.nodes[n]))
    ensures UnlinkingOk(s, t, n, Height(s.nodes[n]) - 1, p)
  {
    assert MemoryOk(s);
    assert NodeOk(s, n);
    forall j | 0 <= j < Height(s.nodes[n]) ensures Validated(s, t, p.preds[j], j, Some(n)) {
      assert Validated(s, t, p.preds[j], j, p.succs[j]);
      assert PredOk(s, s.nodes[n].key, 0 + j, p.preds[j]) && SuccOk(s, s.nodes[n].key, p.succs[j], p.found.None?);
      ValidatedOnLayer(s, t, p.preds[j], j, p.succs[j]);
      SuccIsVictim(s, j, p.preds[j], n);
    }
    VictimIsCounted(s, t, n, p.preds[0]);
  }

  lemma AcquiredOk(s: State, t: Tid, s': State, pred: NodeId)
    requires DoLockTake(s, t, s') && NewPred(s.threads[t].path, s.threads[t].layer)
    requires pred == s.threads[t].path.preds[s.threads[t].layer]
    requires HeadOk(s) && NodesOk(s) && LockPcOk(s, t, s.threads[t]) && pred !in s.threads[t].held
    ensures Relocks(s, t, s', pred, Some(t)) && LockPcOk(s', t, s'.threads[t])
  {
    var pc := s.threads[t];
    assert PredOk(s, pc.d, 0 + pc.layer, pred);
    assert Relocks(s, t, s', pred, Some(t));
    AcquiredWithin(s, t, s', pc.d, pc.path, pc.layer, pc.held);
    DistinctAppend(pc.held, pred);
    assert LockingOk(s', t, pc.op, pc.d, pc.h, pc.path, pc.layer) by {
      LockFrame(s, t, s', pred, Some(t), t);
      LockingStable(s, s', t, pc.op, pc.d, pc.h, pc.path, pc.layer);
    }
  }

  lemma NotHeld(s: State, t: Tid, pc: Pc, n: NodeId)
    requires HeldOk(s, t, pc) && (pc.LockTake? || pc.Unlock?) && n in s.nodes && s.nodes[n].lock != Some(t)
    ensures n !in pc.held
  {
    assert n in pc.held ==> n in Holds(pc);
  }

  /** Predecessors are locked in descending order of position. */
  lemma AcquiredWithin(s: State, t: Tid, s': State, d: Key, p: Path, layer: nat, held: seq<NodeId>)
    requires PathOk(s, d, 0, p) && layer < |p.preds| && Relocks(s, t, s', p.preds[layer], Some(t)) && NewPred(p, layer)
    requires if layer == 0 then held == [] else LayerLocked(s, t, d, p, layer - 1, held)
    ensures LayerLocked(s', t, d, p, layer, held + [p.preds[layer]])
  {
    assert PredOk(s, d, 0 + layer, p.preds[layer]);
    if layer > 0 { assert Upwards(s, p.preds[layer - 1], p.preds[layer - 1 + 1]); }
  }

  lemma SamePredNext(s: State, t: Tid, s': State)
    requires DoLockTake(s, t, s') && !NewPred(s.threads[t].path, s.threads[t].layer) && LockPcOk(s, t, s.threads[t])
    ensures Private(s, t, s')
  {
    OnlyLockPc(s, t, s'.threads[t]);
  }

  lemma GiveUpNext(s: State, t: Tid, s': State)
    requires t in s.threads && LockPcOk(s, t, s.threads[t])
    requires s.threads[t].LockMarked? || s.threads[t].LockSkip? || s.threads[t].LockSucc?
    requires s' == Goto(s, t, GiveUp(s.threads[t].op, s.threads[t].d, s.threads[t].held))
    ensures Private(s, t, s')
  {
    OnlyUnlinkPc(s, t, s'.threads[t]);
  }

  lemma LockMarkedNext(s: State, t: Tid, s': State)
    requires DoLockMarked(s, t, s') && LockPcOk(s, t, s.threads[t])
    ensures Private(s, t, s')
  {
    if s'.threads[t].Unlock? { GiveUpNext(s, t, s'); } else { OnlyLockPc(s, t, s'.threads[t]); }
  }

  /** One more layer is valid. */
  lemma OneMoreValid(s: State, t: Tid, pc: Pc)
    requires LockPcOk(s, t, pc) && (pc.LockSkip? || pc.LockSucc?)
    requires pc.LockSkip? ==> NextIs(s, pc.path.preds[pc.layer], pc.layer, pc.path.succs[pc.layer])
    ensures ValidRange(s, t, pc.path, 0, pc.layer + 1)
  {
    assert PredOk(s, pc.d, 0 + pc.layer, pc.path.preds[pc.layer]);
  }

  ghost predicate NextIs(s: State, p: NodeId, k: nat, succ: Option<NodeId>) {
    p in s.nodes && k < Height(s.nodes[p]) && s.nodes[p].skip[k] == succ
  }

  lemma LayerUp(s: State, t: Tid, pc: Pc)
    requires LockPcOk(s, t, pc) && (pc.LockSkip? || pc.LockSucc?) && ValidRange(s, t, pc.path, 0, pc.layer + 1)
    requires pc.layer + 1 < pc.h
    ensures LockPcOk(s, t, LockTake(pc.op, pc.d, pc.h, pc.path, pc.layer + 1, pc.held))
  {
  }

  lemma AllLocked(s: State, t: Tid, pc: Pc)
    requires LockPcOk(s, t, pc) && (pc.LockSkip? || pc.LockSucc?) && ValidRange(s, t, pc.path, 0, pc.layer + 1)
    requires pc.layer + 1 == pc.h
    requires pc.op.Removing? ==> UnlinkingOk(s, t, pc.op.victim.value, pc.layer, pc.path)
    ensures pc.op.Removing? ==> UnlinkPcOk(s, t, RemLoad(pc.op.victim.value, pc.layer, pc.path, pc.held))
    ensures pc.op.Adding? ==> InsertPcOk(s, t, AddCreate(pc.d, pc.h, pc.path, pc.held))
  {
  }

  lemma VictimLocked(s: State, t: Tid, pc: Pc)
    requires Inv(s) && t in s.threads && s.threads[t] == pc && LockPcOk(s, t, pc) && (pc.LockSkip? || pc.LockSucc?)
    requires ValidRange(s, t, pc.path, 0, pc.layer + 1) && pc.layer + 1 == pc.h && pc.op.Removing?
    ensures UnlinkingOk(s, t, pc.op.victim.value, pc.layer, pc.path)
  {
    VictimReached(s, t, pc.op.victim.value, pc.path);
  }

  lemma NextLayerOk(s: State, t: Tid, pc: Pc)
    requires LockPcOk(s, t, pc) && (pc.LockSkip? || pc.LockSucc?) && ValidRange(s, t, pc.path, 0, pc.layer + 1)
    requires pc.op.Removing? && pc.layer + 1 == pc.h ==> UnlinkingOk(s, t, pc.op.victim.value, pc.layer, pc.path)
    ensures PcOk(s, t, NextLayer(pc.op, pc.d, pc.h, pc.path, pc.layer, pc.held))
  {
    if pc.layer + 1 < pc.h {
      LayerUp(s, t, pc);
      OnlyLockPc(s, t, LockTake(pc.op, pc.d, pc.h, pc.path, pc.layer + 1, pc.held));
    } else {
      LastLayerOk(s, t, pc);
    }
  }

  lemma LastLayerOk(s: State, t: Tid, pc: Pc)
    requires LockPcOk(s, t, pc) && (pc.LockSkip? || pc.LockSucc?) && ValidRange(s, t, pc.path, 0, pc.layer + 1)
    requires pc.layer + 1 == pc.h
    requires pc.op.Removing? ==> UnlinkingOk(s, t, pc.op.victim.value, pc.layer, pc.path)
    ensures PcOk(s, t, NextLayer(pc.op, pc.d, pc.h, pc.path, pc.layer, pc.held))
  {
    AllLocked(s, t, pc);
    if pc.op.Removing? {
      OnlyUnlinkPc(s, t, RemLoad(pc.op.victim.value, pc.layer, pc.path, pc.held));
    } else {
      OnlyInsertPc(s, t, AddCreate(pc.d, pc.h, pc.path, pc.held));
    }
  }

  lemma NextLayerRole(pc: Pc)
    requires (pc.LockSkip? || pc.LockSucc?) && (pc.op.Removing? ==> pc.op.victim.Some?)
    ensures SameRole(pc, NextLayer(pc.op, pc.d, pc.h, pc.path, pc.layer, pc.held))
  {
  }

  lemma NextLayerNext(s: State, t: Tid, s': State)
    requires Inv(s) && t in s.threads && LockPcOk(s, t, s.threads[t])
    requires (s.threads[t].LockSkip? || s.threads[t].LockSucc?)
    requires ValidRange(s, t, s.threads[t].path, 0, s.threads[t].layer + 1)
    requires var pc := s.threads[t]; s' == Goto(s, t, NextLayer(pc.op, pc.d, pc.h, pc.path, pc.layer, pc.held))
    ensures Private(s, t, s')
  {
    var pc := s.threads[t];
    if pc.op.Removing? && pc.layer + 1 == pc.h { VictimLocked(s, t, pc); }
    NextLayerRole(pc);
    NextLayerOk(s, t, pc);
  }

  lemma LockSkipKeeps(s: State, t: Tid, s': State)
    requires Inv(s) && DoLockSkip(s, t, s')
    ensures Inv(s')
  {
    var pc := s.threads[t];
    Known(s, t);
    OnlyLockPc(s, t, s.threads[t]);
    if s'.threads[t].Unlock? {
      GiveUpNext(s, t, s');
    } else {
      OneMoreValid(s, t, pc);
      if s'.threads[t].LockSucc? { OnlyLockPc(s, t, s'.threads[t]); } else { NextLayerNext(s, t, s'); }
    }
    PrivateKeeps(s, t, s');
  }

  lemma LockSuccKeeps(s: State, t: Tid, s': State)
    requires Inv(s) && DoLockSucc(s, t, s')
    ensures Inv(s')
  {
    Known(s, t);
    OnlyLockPc(s, t, s.threads[t]);
    if s'.threads[t].Unlock? { GiveUpNext(s, t, s'); } else { NextLayerNext(s, t, s'); }
    PrivateKeeps(s, t, s');
  }

  lemma TakeRole(pc: Pc, pred: NodeId)
    requires pc.LockTake?
    ensures Holds(LockMarked(pc.op, pc.d, pc.h, pc.path, pc.layer, pc.held + [pred])) == Holds(pc) + {pred}
    ensures Adds(pc).None? && Swaps(pc).None?
  {
  }

  lemma LockTakeKeeps(s: State, t: Tid, s': State)
    requires Inv(s) && DoLockTake(s, t, s')
    ensures Inv(s')
  {
    Known(s, t);
    OnlyLockPc(s, t, s.threads[t]);
    if NewPred(s.threads[t].path, s.threads[t].layer) {
      var pred := s.threads[t].path.preds[s.threads[t].layer];
      NotHeld(s, t, s.threads[t], pred);
      AcquiredOk(s, t, s', pred);
      TakeRole(s.threads[t], pred);
      LockHolds(s, t, s', pred, Some(t));
      OnlyLockPc(s', t, s'.threads[t]);
      RelocksKeep(s, t, s', pred, Some(t));
    } else {
      SamePredNext(s, t, s');
      PrivateKeeps(s, t, s');
    }
  }

  // ---------------------------------------------------------------- releasing

  lemma ReleasedAfter(s: State, t: Tid, s': State, n: NodeId, after: After, victim: Option<NodeId>)
    requires Relocks(s, t, s', n, None) && AfterOk(s, t, after, victim) && victim != Some(n)
    ensures AfterOk(s', t, after, victim)
  {
  }

  lemma UnlockRole(after: After, victim: Option<NodeId>, held: seq<NodeId>)
    requires held != [] && Distinct(held) && (victim.Some? ==> victim.value !in held)
    ensures var n := held[|held| - 1];
      && Holds(Unlock(after, victim, held[..|held| - 1])) == Holds(Unlock(after, victim, held)) - {n}
      && Distinct(held[..|held| - 1]) && (victim.Some? ==> victim.value !in held[..|held| - 1]) && victim != Some(n)
  {
    var n, rest := held[|held| - 1], held[..|held| - 1];
    assert held == rest + [n];
    assert n !in rest;
  }

  lemma UnlockOneNext(s: State, t: Tid, s': State, n: NodeId)
    requires DoUnlock(s, t, s') && s.threads[t].held != [] && n == s.threads[t].held[|s.threads[t].held| - 1]
    requires NodesOk(s) && UnlinkPcOk(s, t, s.threads[t]) && HeldOk(s, t, s.threads[t])
    ensures Relocks(s, t, s', n, None) && UnlinkPcOk(s', t, s'.threads[t]) && HeldOk(s', t, s'.threads[t])
    ensures KeepsVictim(s.threads[t], s'.threads[t])
  {
    var pc := s.threads[t];
    UnlockRole(pc.after, pc.victim, pc.held);
    assert n in Holds(pc) && NodeOk(s, n);
    ReleasedAfter(s, t, s', n, pc.after, pc.victim);
    LockHolds(s, t, s', n, None);
  }

  lemma UnlockOneKeeps(s: State, t: Tid, s': State)
    requires Inv(s) && DoUnlock(s, t, s') && s.threads[t].held != []
    ensures Inv(s')
  {
    var n := s.threads[t].held[|s.threads[t].held| - 1];
    Known(s, t);
    OnlyUnlinkPc(s, t, s.threads[t]);
    UnlockOneNext(s, t, s', n);
    OnlyUnlinkPc(s', t, s'.threads[t]);
    RelocksKeep(s, t, s', n, None);
  }

  lemma UnlockedNext(s: State, t: Tid, s': State)
    requires DoUnlock(s, t, s') && UnlinkPcOk(s, t, s.threads[t]) && s.threads[t].held == []
    ensures Private(s, t, s')
  {
  }

  lemma LockStepKeeps(s: State, t: Tid, s': State)
    requires Inv(s) && LockStep(s, t, s')
    ensures Inv(s')
  {
    if DoLockTake(s, t, s') { LockTakeKeeps(s, t, s'); }
    else if DoLockSkip(s, t, s') { LockSkipKeeps(s, t, s'); }
    else if DoLockSucc(s, t, s') { LockSuccKeeps(s, t, s'); }
    else if DoLockMarked(s, t, s') {
      Known(s, t);
      OnlyLockPc(s, t, s.threads[t]);
      LockMarkedNext(s, t, s');
      PrivateKeeps(s, t, s');
    } else if s.threads[t].held != [] {
      UnlockOneKeeps(s, t, s');
    } else {
      Known(s, t);
      OnlyUnlinkPc(s, t, s.threads[t]);
      UnlockedNext(s, t, s');
      PrivateKeeps(s, t, s');
    }
  }

  // ---------------------------------------------------------------- new nodes and private links

  ghost predicate Creates(s: State, t: Tid, s': State, n: NodeId, r: Node) {
    && Moved(s, t, s') && n !in s.nodes && s' == s.(nodes := s.nodes[n := r], threads := s'.threads)
    && r.up == 0 && r.ever == 0 && r.lock == None && r.retirer == None
    && r.flags == Flags(r.sentinel, false, false) && r.owner == t
    && 1 <= Height(r) <= MAX_HEIGHT && forall k | 0 <= k < Height(r) :: r.skip[k] == None
  }

  lemma CreateNodes(s: State, t: Tid, s': State, n: NodeId, r: Node)
    requires HeadOk(s) && NodesOk(s) && Creates(s, t, s', n, r) && Monotone(s, s') && Swaps(s.threads[t]).None?
    requires !r.sentinel ==> Height(r) <= Height(s.nodes[s.head])
    ensures NodesOk(s')
  {
    forall x | x in s'.nodes ensures NodeOk(s', x) { if x != n { assert NodeOk(s, x); NodeKept(s, t, s', x); } }
  }

  lemma CreateLives(s: State, t: Tid, s': State, n: NodeId, r: Node)
    requires s.head in s.nodes && BooksOk(s) && LivesOk(s) && Creates(s, t, s', n, r) && Adds(s.threads[t]).None?
    requires KeepsVictim(s.threads[t], s'.threads[t]) && (!r.sentinel ==> Adds(s'.threads[t]) == Some(n))
    ensures LivesOk(s')
  {
    forall x | x in s'.nodes ensures LifeOk(s', x) { if x != n { assert LifeOk(s, x); LifeKept(s, t, s', x); } }
  }

  lemma CreateMemory(s: State, t: Tid, s': State, n: NodeId, r: Node)
    requires MemoryOk(s) && Creates(s, t, s', n, r) && Adds(s.threads[t]).None? && Swaps(s.threads[t]).None?
    requires KeepsVictim(s.threads[t], s'.threads[t])
    requires !r.sentinel ==> Adds(s'.threads[t]) == Some(n) && Height(r) <= Height(s.nodes[s.head])
    ensures MemoryHolds(s')
  {
    assert Monotone(s, s') by { forall x | x in s.nodes ensures Grows(s, s', x) { assert NodeOk(s, x); } }
    LayersSame(s, s');
    CreateNodes(s, t, s', n, r);
    CreateLives(s, t, s', n, r);
  }

  lemma CreateFrame(s: State, t: Tid, s': State, n: NodeId, r: Node, u: Tid)
    requires HeadOk(s) && NodesOk(s) && Creates(s, t, s', n, r)
    ensures Framed(s, s', u)
  {
    forall x | x in s.nodes ensures NodeFrame(s, s', u, x) { assert NodeOk(s, x); }
  }

  lemma CreatesKeep(s: State, t: Tid, s': State, n: NodeId, r: Node)
    requires Inv(s) && Creates(s, t, s', n, r) && Adds(s.threads[t]).None? && Swaps(s.threads[t]).None?
    requires KeepsVictim(s.threads[t], s'.threads[t])
    requires !r.sentinel ==> Adds(s'.threads[t]) == Some(n) && s.head in s.nodes && Height(r) <= Height(s.nodes[s.head])
    requires ThreadHolds(s', t, s'.threads[t])
    ensures Inv(s')
  {
    assert MemoryOk(s);
    CreateMemory(s, t, s', n, r);
    forall u | u in s.threads ensures Framed(s, s', u) { CreateFrame(s, t, s', n, r, u); }
    Assemble(s, t, s');
  }

  lemma AddCreateNext(s: State, t: Tid, s': State, n: NodeId)
    requires HeadOk(s) && NodesOk(s) && t in s.threads && s.threads[t].AddCreate? && InsertPcOk(s, t, s.threads[t])
    requires n !in s.nodes && n !in s.counted && n !in s.removals && n !in s.recycled
    requires var pc := s.threads[t];
      s' == Goto(SetNode(s, n, NewNode(t, pc.d, pc.h)), t, AddNext(n, 0, pc.path, pc.held))
    ensures Creates(s, t, s', n, NewNode(t, s.threads[t].d, s.threads[t].h)) && InsertPcOk(s', t, s'.threads[t])
  {
    var pc := s.threads[t];
    assert NodeOk(s, s.head);
    CreateFrame(s, t, s', n, NewNode(t, pc.d, pc.h), t);
    SteadyGrows(s, s', t);
    PathStable(s, s', pc.d, 0, pc.path);
    ValidRangeStable(s, s', t, pc.path, 0, pc.h);
  }

  lemma AddCreateThread(s: State, t: Tid, s': State, n: NodeId)
    requires HeadOk(s) && NodesOk(s) && t in s.threads && s.threads[t].AddCreate? && HeldOk(s, t, s.threads[t])
    requires Creates(s, t, s', n, NewNode(t, s.threads[t].d, s.threads[t].h)) && InsertPcOk(s', t, s'.threads[t])
    requires s'.threads[t].AddNext? && s'.threads[t].held == s.threads[t].held
    ensures ThreadHolds(s', t, s'.threads[t])
  {
    CreateFrame(s, t, s', n, NewNode(t, s.threads[t].d, s.threads[t].h), t);
    HeldStable(s, s', t, s.threads[t]);
    OnlyInsertPc(s', t, s'.threads[t]);
  }

  lemma Unbooked(s: State, n: NodeId)
    requires Inv(s) && n !in s.nodes
    ensures n !in s.counted && n !in s.removals && n !in s.recycled
  {
    assert MemoryOk(s);
  }

  lemma AddCreateKeeps(s: State, t: Tid, s': State)
    requires Inv(s) && DoAddCreate(s, t, s')
    ensures Inv(s')
  {
    var pc := s.threads[t];
    var n: NodeId :|
      n !in s.nodes && s' == Goto(SetNode(s, n, NewNode(t, pc.d, pc.h)), t, AddNext(n, 0, pc.path, pc.held));
    Known(s, t);
    Unbooked(s, n);
    OnlyInsertPc(s, t, s.threads[t]);
    AddCreateNext(s, t, s', n);
    AddCreateThread(s, t, s', n);
    CreatesKeep(s, t, s', n, NewNode(t, pc.d, pc.h));
  }

  /** Thread t writes a link of its own node that nobody can have followed yet. */
  ghost predicate Writes(s: State, t: Tid, s': State, n: NodeId, k: nat, next: Option<NodeId>) {
    && Moved(s, t, s') && n in s.nodes && n != s.head && s.nodes[n].owner == t && s.nodes[n].retirer == None
    && s.nodes[n].up == s.nodes[n].ever <= k < Height(s.nodes[n])
    && s' == s.(nodes := s.nodes[n := s.nodes[n].(skip := s.nodes[n].skip[k := next])], threads := s'.threads)
  }

  lemma WriteNodes(s: State, t: Tid, s': State, n: NodeId, k: nat, next: Option<NodeId>)
    requires NodesOk(s) && Writes(s, t, s', n, k, next) && LinkOk(s', n, k) && Monotone(s, s')
    requires Swaps(s.threads[t]).None? && (s.nodes[n].sentinel ==> s.nodes[n].ever == 0)
    ensures NodesOk(s')
  {
    forall x | x in s'.nodes ensures NodeOk(s', x) {
      assert NodeOk(s, x);
      if x != n { NodeKept(s, t, s', x); }
      else { forall j | 0 <= j < Height(s'.nodes[n]) ensures LinkOk(s', n, j) { if j != k { LinkKept(s, s', n, j); } } }
    }
  }

  lemma WriteMemory(s: State, t: Tid, s': State, n: NodeId, k: nat, next: Option<NodeId>)
    requires MemoryOk(s) && Writes(s, t, s', n, k, next) && LinkOk(s', n, k)
    requires Adds(s'.threads[t]) == Adds(s.threads[t]) && Swaps(s.threads[t]).None?
    requires (s.nodes[n].sentinel ==> s.nodes[n].ever == 0) && KeepsVictim(s.threads[t], s'.threads[t])
    ensures MemoryHolds(s')
  {
    assert Monotone(s, s') by { forall x | x in s.nodes ensures Grows(s, s', x) { assert NodeOk(s, x); } }
    LayersSame(s, s');
    WriteNodes(s, t, s', n, k, next);
    forall x | x in s'.nodes ensures LifeOk(s', x) { assert LifeOk(s, x); LifeKept(s, t, s', x); }
  }

  lemma WriteFrame(s: State, t: Tid, s': State, n: NodeId, k: nat, next: Option<NodeId>, u: Tid)
    requires HeadOk(s) && NodesOk(s) && Writes(s, t, s', n, k, next) && u != t
    ensures Framed(s, s', u)
  {
    forall x | x in s.nodes ensures NodeFrame(s, s', u, x) { assert NodeOk(s, x); }
  }

  lemma WritesKeep(s: State, t: Tid, s': State, n: NodeId, k: nat, next: Option<NodeId>)
    requires Inv(s) && Writes(s, t, s', n, k, next) && LinkOk(s', n, k)
    requires Adds(s'.threads[t]) == Adds(s.threads[t]) && Swaps(s.threads[t]).None?
    requires (s.nodes[n].sentinel ==> s.nodes[n].ever == 0) && KeepsVictim(s.threads[t], s'.threads[t])
    requires ThreadHolds(s', t, s'.threads[t])
    ensures Inv(s')
  {
    WriteMemory(s, t, s', n, k, next);
    forall u | u in s.threads && u != t ensures Framed(s, s', u) { WriteFrame(s, t, s', n, k, next, u); }
    Assemble(s, t, s');
  }

  /** Apart from the written link everything known of the path and its locks stays. */
  lemma WrittenStays(s: State, t: Tid, s': State, n: NodeId, p: Path, lo: nat, hi: nat)
    requires Monotone(s, s') && n in s.nodes && n in s'.nodes && PathOk(s, s.nodes[n].key, 0, p) && !s.nodes[n].sentinel
    requires forall x | x in s.nodes && x != n :: s'.nodes[x] == s.nodes[x]
    requires LinkedRange(s, t, p, n, lo) && ValidRange(s, t, p, lo, hi)
    ensures PathOk(s', s.nodes[n].key, 0, p) && LinkedRange(s', t, p, n, lo) && ValidRange(s', t, p, lo, hi)
  {
    PathStable(s, s', s.nodes[n].key, 0, p);
    forall j | 0 <= j < lo
      ensures Validated(s', t, p.preds[j], j, Some(n))
    {
      assert PredOk(s, s.nodes[n].key, 0 + j, p.preds[j]);
    }
    forall j | lo <= j < hi
      ensures Validated(s', t, p.preds[j], j, p.succs[j])
    {
      assert PredOk(s, s.nodes[n].key, 0 + j, p.preds[j]);
    }
  }

  lemma AddNextNext(s: State, t: Tid, s': State)
    requires DoAddNext(s, t, s') && HeadOk(s) && NodesOk(s) && LayersOk(s) && InsertPcOk(s, t, s.threads[t])
    ensures var pc := s.threads[t]; Writes(s, t, s', pc.n, pc.k, pc.path.succs[pc.k]) && LinkOk(s', pc.n, pc.k)
    ensures InsertPcOk(s', t, s'.threads[t])
  {
    var pc := s.threads[t];
    assert NodeOk(s, pc.n);
    assert Validated(s, t, pc.path.preds[pc.k], pc.k, pc.path.succs[pc.k]);
    ValidatedOnLayer(s, t, pc.path.preds[pc.k], pc.k, pc.path.succs[pc.k]);
    assert SuccOk(s, s.nodes[pc.n].key, pc.path.succs[pc.k], true);
    if pc.path.succs[pc.k].Some? { assert NodeOk(s, pc.path.succs[pc.k].value); }
    forall x | x in s.nodes ensures Grows(s, s', x) { assert NodeOk(s, x); }
    WrittenStays(s, t, s', pc.n, pc.path, s.nodes[pc.n].up, Height(s.nodes[pc.n]));
  }

  lemma AddNextKeeps(s: State, t: Tid, s': State)
    requires Inv(s) && DoAddNext(s, t, s')
    ensures Inv(s')
  {
    assert MemoryOk(s);
    var pc := s.threads[t];
    Known(s, t);
    OnlyInsertPc(s, t, s.threads[t]);
    AddNextNext(s, t, s');
    SameHolds(s, t, s');
    OnlyInsertPc(s', t, s'.threads[t]);
    WritesKeep(s, t, s', pc.n, pc.k, pc.path.succs[pc.k]);
  }

  // ---------------------------------------------------------------- linking

  /** Thread t makes p lead to its new node n at layer k, where n already leads to p's old successor. */
  ghost predicate Links(s: State, t: Tid, s': State, k: nat, p: NodeId, n: NodeId) {
    && Moved(s, t, s') && p in s.nodes && n in s.nodes && p != n && n != s.head
    && k < s.nodes[p].ever <= Height(s.nodes[p]) && s.nodes[p].lock == Some(t) && !s.nodes[p].flags.marked
    && s.nodes[n].up == s.nodes[n].ever == k < Height(s.nodes[n])
    && s.nodes[n].owner == t && !s.nodes[n].sentinel && s.nodes[n].flags == Flags(false, false, false)
    && s.nodes[p].skip[k] == s.nodes[n].skip[k] && Pos(s.nodes[p]) < s.nodes[n].key
    && SuccOk(s, s.nodes[n].key, s.nodes[n].skip[k], true)
    && s' == s.(nodes := s.nodes[p := s.nodes[p].(skip := s.nodes[p].skip[k := Some(n)])]
                                [n := s.nodes[n].(up := k + 1, ever := k + 1)],
                threads := s'.threads)
  }

  /** No position of the layer but p lies right before the new key. */
  lemma Neighbours(s: State, k: nat, p: NodeId, n: NodeId, x: NodeId)
    requires HeadOk(s) && LayersOk(s) && OnLayer(s, k, p) && OnLayer(s, k, x) && x != p && n in s.nodes
    requires Pos(s.nodes[p]) < s.nodes[n].key && SuccOk(s, s.nodes[n].key, s.nodes[p].skip[k], true)
    requires NextOk(s, k, p) && NextOk(s, k, x)
    requires Pos(s.nodes[x]) < s.nodes[n].key
    ensures s.nodes[x].skip[k].Some? && s.nodes[s.nodes[x].skip[k].value].key < s.nodes[n].key
  {
    assert p != s.head ==> In(s, k, p) && In(s, 0, p);
    assert x != s.head ==> In(s, k, x) && In(s, 0, x);
  }

  lemma LinkMembers(s: State, t: Tid, s': State, k: nat, p: NodeId, n: NodeId)
    requires Links(s, t, s', k, p, n)
    ensures forall j: nat, m :: In(s', j, m) <==> In(s, j, m) || (j == k && m == n)
    ensures forall m | m in s.nodes ::
      && m in s'.nodes && s'.nodes[m].key == s.nodes[m].key
      && Pos(s'.nodes[m]) == Pos(s.nodes[m])
  {
  }

  /** Layers other than k, and positions of layer k beyond or before the change. */
  lemma LinkElsewhere(s: State, t: Tid, s': State, k: nat, p: NodeId, n: NodeId, j: nat, x: NodeId)
    requires Links(s, t, s', k, p, n) && x in s.nodes && NextOk(s, j, x)
    requires j != k || (x != p && x != n)
    requires j == k && Pos(s.nodes[x]) < s.nodes[n].key ==>
      s.nodes[x].skip[k].Some? && s.nodes[s.nodes[x].skip[k].value].key < s.nodes[n].key
    ensures NextOk(s', j, x)
  {
    LinkMembers(s, t, s', k, p, n);
    assert s'.nodes[x].skip[j] == s.nodes[x].skip[j];
  }

  lemma LinkHere(s: State, t: Tid, s': State, k: nat, p: NodeId, n: NodeId)
    requires Links(s, t, s', k, p, n) && NextOk(s, k, p)
    ensures NextOk(s', k, p) && NextOk(s', k, n)
  {
    LinkMembers(s, t, s', k, p, n);
  }

  lemma LinkNext(s: State, t: Tid, s': State, k: nat, p: NodeId, n: NodeId, j: nat, x: NodeId)
    requires HeadOk(s) && LayersOk(s) && Links(s, t, s', k, p, n) && OnLayer(s, k, p) && OnLayer(s', j, x)
    ensures NextOk(s', j, x)
  {
    assert NextOk(s, k, p);
    if j == k && (x == p || x == n) {
      LinkHere(s, t, s', k, p, n);
    } else {
      LinkMembers(s, t, s', k, p, n);
      assert OnLayer(s, j, x) && NextOk(s, j, x);
      if j == k && Pos(s.nodes[x]) < s.nodes[n].key { Neighbours(s, k, p, n, x); }
      LinkElsewhere(s, t, s', k, p, n, j, x);
    }
  }

  lemma LinkLayers(s: State, t: Tid, s': State, k: nat, p: NodeId, n: NodeId)
    requires HeadOk(s) && LayersOk(s) && Links(s, t, s', k, p, n) && OnLayer(s, k, p)
    ensures LayersOk(s')
  {
    forall j: nat, x | OnLayer(s', j, x) ensures NextOk(s', j, x) { LinkNext(s, t, s', k, p, n, j, x); }
    assert NextOk(s, k, p);
    forall m, q | In(s', 0, m) && In(s', 0, q) && s'.nodes[m].key == s'.nodes[q].key ensures m == q {
      assert m != n || k > 0 ==> In(s, 0, m);
      assert q != n || k > 0 ==> In(s, 0, q);
    }
  }

  lemma LinkNode(s: State, t: Tid, s': State, k: nat, p: NodeId, n: NodeId, x: NodeId)
    requires HeadOk(s) && NodesOk(s) && Links(s, t, s', k, p, n) && Monotone(s, s') && x in s.nodes
    requires Adds(s.threads[t]) == Some(n) && Adds(s'.threads[t]) == Some(n) && Swaps(s.threads[t]).None?
    ensures NodeOk(s', x)
  {
    assert NodeOk(s, x);
    if x == p || x == n {
      forall j | 0 <= j < Height(s'.nodes[x])
        ensures LinkOk(s', x, j)
      {
        if x != p || j != k { LinkKept(s, s', x, j); }
      }
    } else {
      NodeKept(s, t, s', x);
    }
  }

  lemma LinkGrows(s: State, t: Tid, s': State, k: nat, p: NodeId, n: NodeId)
    requires HeadOk(s) && NodesOk(s) && Links(s, t, s', k, p, n)
    ensures HeadOk(s') && Monotone(s, s')
  {
    forall x | x in s.nodes ensures Grows(s, s', x) { assert NodeOk(s, x); }
  }

  lemma LinkNodes(s: State, t: Tid, s': State, k: nat, p: NodeId, n: NodeId)
    requires HeadOk(s) && NodesOk(s) && Links(s, t, s', k, p, n) && Monotone(s, s')
    requires Adds(s.threads[t]) == Some(n) && Adds(s'.threads[t]) == Some(n) && Swaps(s.threads[t]).None?
    ensures NodesOk(s')
  {
    forall x | x in s'.nodes ensures NodeOk(s', x) { LinkNode(s, t, s', k, p, n, x); }
  }

  lemma LinkLives(s: State, t: Tid, s': State, k: nat, p: NodeId, n: NodeId)
    requires LivesOk(s) && Links(s, t, s', k, p, n) && Adds(s.threads[t]) == Some(n) && Adds(s'.threads[t]) == Some(n)
    requires KeepsVictim(s.threads[t], s'.threads[t]) && n !in s.counted && n !in s.removals && n !in s.recycled
    ensures LivesOk(s')
  {
    forall x | x in s'.nodes ensures LifeOk(s', x) { assert LifeOk(s, x); if x != n { LifeKept(s, t, s', x); } }
  }

  lemma LinkMemory(s: State, t: Tid, s': State, k: nat, p: NodeId, n: NodeId)
    requires MemoryOk(s) && Links(s, t, s', k, p, n) && OnLayer(s, k, p)
    requires Adds(s.threads[t]) == Some(n) && Adds(s'.threads[t]) == Some(n) && Swaps(s.threads[t]).None?
    requires KeepsVictim(s.threads[t], s'.threads[t])
    requires n !in s.counted && n !in s.removals && n !in s.recycled
    ensures MemoryHolds(s')
  {
    LinkGrows(s, t, s', k, p, n);
    LinkLayers(s, t, s', k, p, n);
    LinkNodes(s, t, s', k, p, n);
    LinkLives(s, t, s', k, p, n);
  }

  lemma LinkFrame(s: State, t: Tid, s': State, k: nat, p: NodeId, n: NodeId, u: Tid)
    requires HeadOk(s) && NodesOk(s) && Links(s, t, s', k, p, n) && OnLayer(s, k, p) && u != t
    ensures Framed(s, s', u)
  {
    forall x | x in s.nodes ensures NodeFrame(s, s', u, x) { assert NodeOk(s, x); }
  }

  lemma LinksKeep(s: State, t: Tid, s': State, k: nat, p: NodeId, n: NodeId)
    requires Inv(s) && Links(s, t, s', k, p, n) && OnLayer(s, k, p)
    requires Adds(s.threads[t]) == Some(n) && Adds(s'.threads[t]) == Some(n) && Swaps(s.threads[t]).None?
    requires KeepsVictim(s.threads[t], s'.threads[t])
    requires n !in s.counted && n !in s.removals && n !in s.recycled && ThreadHolds(s', t, s'.threads[t])
    ensures Inv(s')
  {
    LinkMemory(s, t, s', k, p, n);
    forall u | u in s.threads && u != t ensures Framed(s, s', u) { LinkFrame(s, t, s', k, p, n, u); }
    Assemble(s, t, s');
  }

  lemma LinkedStays(s: State, t: Tid, s': State, k: nat, n: NodeId, p: Path)
    requires k < |p.preds| && Links(s, t, s', k, p.preds[k], n) && Monotone(s, s') && NewNodeOk(s, t, n, p)
    ensures NewNodeOk(s', t, n, p)
  {
    PathStable(s, s', s.nodes[n].key, 0, p);
    forall j | 0 <= j < k + 1 ensures Validated(s', t, p.preds[j], j, Some(n)) {
      assert PredOk(s, s.nodes[n].key, 0 + j, p.preds[j]);
      assert j < k ==> Validated(s, t, p.preds[j], j, Some(n));
    }
    forall j | k + 1 <= j < Height(s.nodes[n]) ensures Validated(s', t, p.preds[j], j, p.succs[j]) {
      assert PredOk(s, s.nodes[n].key, 0 + j, p.preds[j]);
      assert Validated(s, t, p.preds[j], j, p.succs[j]);
    }
  }

  lemma AddLinkLinks(s: State, t: Tid, s': State, p: NodeId)
    requires DoAddLink(s, t, s') && HeadOk(s) && LayersOk(s) && NodesOk(s) && InsertPcOk(s, t, s.threads[t])
    requires p == s.threads[t].path.preds[s.threads[t].k]
    ensures var pc := s.threads[t]; Links(s, t, s', pc.k, p, pc.n) && OnLayer(s, pc.k, p)
  {
    var pc := s.threads[t];
    assert NodeOk(s, pc.n);
    assert Validated(s, t, p, pc.k, pc.path.succs[pc.k]);
    assert PredOk(s, s.nodes[pc.n].key, 0 + pc.k, p);
    assert SuccOk(s, s.nodes[pc.n].key, pc.path.succs[pc.k], true);
    ValidatedOnLayer(s, t, p, pc.k, pc.path.succs[pc.k]);
  }

  lemma AddLinkNext(s: State, t: Tid, s': State)
    requires DoAddLink(s, t, s') && InsertPcOk(s, t, s.threads[t]) && Monotone(s, s')
    requires var pc := s.threads[t]; Links(s, t, s', pc.k, pc.path.preds[pc.k], pc.n)
    ensures InsertPcOk(s', t, s'.threads[t]) && Adds(s'.threads[t]) == Some(s.threads[t].n)
    ensures Holds(s'.threads[t]) == Holds(s.threads[t])
  {
    var pc := s.threads[t];
    LinkedStays(s, t, s', pc.k, pc.n, pc.path);
  }

  lemma AddLinkThread(s: State, t: Tid, s': State)
    requires DoAddLink(s, t, s') && InsertPcOk(s, t, s.threads[t]) && HeldOk(s, t, s.threads[t]) && Monotone(s, s')
    requires var pc := s.threads[t]; Links(s, t, s', pc.k, pc.path.preds[pc.k], pc.n)
    ensures ThreadHolds(s', t, s'.threads[t]) && Adds(s'.threads[t]) == Some(s.threads[t].n)
    ensures var n := s.threads[t].n; n !in s.counted && n !in s.removals && n !in s.recycled
  {
    AddLinkNext(s, t, s');
    SameHolds(s, t, s');
    OnlyInsertPc(s', t, s'.threads[t]);
  }

  lemma AddLinkKeeps(s: State, t: Tid, s': State)
    requires Inv(s) && DoAddLink(s, t, s')
    ensures Inv(s')
  {
    assert MemoryOk(s);
    var pc := s.threads[t];
    Known(s, t);
    OnlyInsertPc(s, t, pc);
    AddLinkLinks(s, t, s', pc.path.preds[pc.k]);
    LinkGrows(s, t, s', pc.k, pc.path.preds[pc.k], pc.n);
    AddLinkThread(s, t, s');
    LinksKeep(s, t, s', pc.k, pc.path.preds[pc.k], pc.n);
  }

  // ---------------------------------------------------------------- announcing the new node

  lemma AddFlagLoadNext(s: State, t: Tid, s': State)
    requires DoAddFlagLoad(s, t, s') && InsertPcOk(s, t, s.threads[t])
    ensures Private(s, t, s')
  {
    OnlyInsertPc(s, t, s'.threads[t]);
  }

  lemma AddFlagStoreNext(s: State, t: Tid, s': State)
    requires DoAddFlagStore(s, t, s') && HeadOk(s) && NodesOk(s) && InsertPcOk(s, t, s.threads[t])
    ensures Reflags(s, t, s', s.threads[t].n, Flags(false, false, true), s.nodes[s.threads[t].n].retirer)
    ensures ShapeOk(s'.nodes[s.threads[t].n]) && InsertPcOk(s', t, s'.threads[t])
    ensures s.nodes[s.threads[t].n].retirer == None
  {
    var pc := s.threads[t];
    assert NodeOk(s, pc.n);
    assert Validated(s, t, pc.path.preds[0], 0, Some(pc.n));
    assert PredOk(s, s.nodes[pc.n].key, 0 + 0, pc.path.preds[0]);
  }

  lemma AddFlagStoreKeeps(s: State, t: Tid, s': State)
    requires Inv(s) && DoAddFlagStore(s, t, s')
    ensures Inv(s')
  {
    Known(s, t);
    OnlyInsertPc(s, t, s.threads[t]);
    AddFlagStoreNext(s, t, s');
    SameHolds(s, t, s');
    OnlyInsertPc(s', t, s'.threads[t]);
    ReflagsKeep(s, t, s', s.threads[t].n, Flags(false, false, true), None);
  }

  // ---------------------------------------------------------------- counting and handing over

  /** Thread t changes only what the books say of n. */
  ghost predicate Posts(s: State, t: Tid, s': State, n: NodeId) {
    && Moved(s, t, s') && n in s.nodes
    && s' == s.(size := s'.size, counted := s'.counted, removals := s'.removals, recycled := s'.recycled,
                threads := s'.threads)
    && forall x | x in s.nodes && x != n :: SameBooks(s, s', x)
  }

  lemma PostMemory(s: State, t: Tid, s': State, n: NodeId)
    requires MemoryOk(s) && Posts(s, t, s', n) && BooksOk(s') && LifeOk(s', n)
    requires (Adds(s.threads[t]).None? || Adds(s.threads[t]) == Some(n)) && Swaps(s.threads[t]).None?
    requires Removes(s.threads[t]) == Some(n) || KeepsVictim(s.threads[t], s'.threads[t])
    ensures MemoryHolds(s')
  {
    assert Monotone(s, s') by { forall x | x in s.nodes ensures Grows(s, s', x) { assert NodeOk(s, x); } }
    LayersSame(s, s');
    forall x | x in s'.nodes ensures NodeOk(s', x) { assert NodeOk(s, x); NodeKept(s, t, s', x); }
    forall x | x in s'.nodes ensures LifeOk(s', x) { assert LifeOk(s, x); if x != n { LifeKept(s, t, s', x); } }
  }

  lemma PostFrame(s: State, t: Tid, s': State, n: NodeId, u: Tid)
    requires HeadOk(s) && NodesOk(s) && Posts(s, t, s', n)
    requires s.nodes[n].retirer == Some(u) ==>
      (n in s.counted ==> n in s'.counted) && s'.removals == s.removals && s'.recycled == s.recycled
    requires s.nodes[n].owner == u && !s.nodes[n].sentinel && n !in s.counted && n !in s.removals ==>
      SameBooks(s, s', n)
    ensures Framed(s, s', u)
  {
    forall x | x in s.nodes ensures NodeFrame(s, s', u, x) { assert NodeOk(s, x); }
  }

  lemma PostsKeep(s: State, t: Tid, s': State, n: NodeId)
    requires Inv(s) && Posts(s, t, s', n) && BooksOk(s') && LifeOk(s', n)
    requires (Adds(s.threads[t]).None? || Adds(s.threads[t]) == Some(n)) && Swaps(s.threads[t]).None?
    requires Removes(s.threads[t]) == Some(n) || KeepsVictim(s.threads[t], s'.threads[t])
    requires s.nodes[n].retirer == Some(t)
      || (s.counted <= s'.counted && s'.removals == s.removals && s'.recycled == s.recycled)
    requires s.nodes[n].owner == t || s.nodes[n].sentinel || n in s.counted || n in s.removals
    requires ThreadHolds(s', t, s'.threads[t])
    ensures Inv(s')
  {
    PostMemory(s, t, s', n);
    forall u | u in s.threads && u != t ensures Framed(s, s', u) { PostFrame(s, t, s', n, u); }
    Assemble(s, t, s');
  }

  lemma AddSizeBooks(s: State, t: Tid, s': State)
    requires DoAddSize(s, t, s') && BooksOk(s) && InsertPcOk(s, t, s.threads[t]) && LifeOk(s, s.threads[t].n)
    ensures Posts(s, t, s', s.threads[t].n) && BooksOk(s') && LifeOk(s', s.threads[t].n)
  {
  }

  lemma AddSizeThread(s: State, t: Tid, s': State)
    requires DoAddSize(s, t, s') && InsertPcOk(s, t, s.threads[t]) && HeldOk(s, t, s.threads[t])
    ensures ThreadHolds(s', t, s'.threads[t]) && s.threads[t].n in s.nodes && s.nodes[s.threads[t].n].owner == t
  {
    SameHolds(s, t, s');
    OnlyUnlinkPc(s', t, s'.threads[t]);
  }

  lemma AddSizeKeeps(s: State, t: Tid, s': State)
    requires Inv(s) && DoAddSize(s, t, s')
    ensures Inv(s')
  {
    assert MemoryOk(s);
    Known(s, t);
    OnlyInsertPc(s, t, s.threads[t]);
    AddSizeThread(s, t, s');
    assert LifeOk(s, s.threads[t].n);
    AddSizeBooks(s, t, s');
    PostsKeep(s, t, s', s.threads[t].n);
  }

  lemma AddHeightNext(s: State, t: Tid, s': State)
    requires DoAddHeight(s, t, s')
    ensures Private(s, t, s')
  {
  }

  lemma InsertStepKeeps(s: State, t: Tid, s': State)
    requires Inv(s) && InsertStep(s, t, s')
    ensures Inv(s')
  {
    if DoAddCreate(s, t, s') { AddCreateKeeps(s, t, s'); }
    else if DoAddNext(s, t, s') { AddNextKeeps(s, t, s'); }
    else if DoAddLink(s, t, s') { AddLinkKeeps(s, t, s'); }
    else if DoAddFlagStore(s, t, s') { AddFlagStoreKeeps(s, t, s'); }
    else if DoAddSize(s, t, s') { AddSizeKeeps(s, t, s'); }
    else {
      Known(s, t);
      if DoAddFlagLoad(s, t, s') {
        OnlyInsertPc(s, t, s.threads[t]);
        AddFlagLoadNext(s, t, s');
      } else {
        AddHeightNext(s, t, s');
      }
      PrivateKeeps(s, t, s');
    }
  }

  // ---------------------------------------------------------------- unlinking

  /** Thread t makes p lead past its victim n at layer k, the highest layer n is still on. */
  ghost predicate Cuts(s: State, t: Tid, s': State, k: nat, p: NodeId, n: NodeId) {
    && Moved(s, t, s') && p in s.nodes && n in s.nodes && p != n && n != s.head
    && k < s.nodes[p].ever <= Height(s.nodes[p]) && s.nodes[p].lock == Some(t) && !s.nodes[p].flags.marked
    && s.nodes[n].up == k + 1 <= Height(s.nodes[n]) && s.nodes[n].lock == Some(t) && s.nodes[n].retirer == Some(t)
    && !s.nodes[n].sentinel && s.nodes[n].flags.marked && s.nodes[n].flags.linked
    && s.nodes[p].skip[k] == Some(n) && Pos(s.nodes[p]) < s.nodes[n].key
    && s' == s.(nodes := s.nodes[p := s.nodes[p].(skip := s.nodes[p].skip[k := s.nodes[n].skip[k]])]
                                [n := s.nodes[n].(up := k)],
                threads := s'.threads)
  }

  lemma CutMembers(s: State, t: Tid, s': State, k: nat, p: NodeId, n: NodeId)
    requires Cuts(s, t, s', k, p, n)
    ensures forall j: nat, m :: In(s', j, m) <==> In(s, j, m) && !(j == k && m == n)
    ensures forall m | m in s.nodes ::
      && m in s'.nodes && s'.nodes[m].key == s.nodes[m].key
      && Pos(s'.nodes[m]) == Pos(s.nodes[m])
  {
  }

  lemma CutElsewhere(s: State, t: Tid, s': State, k: nat, p: NodeId, n: NodeId, j: nat, x: NodeId)
    requires Cuts(s, t, s', k, p, n) && x in s.nodes && NextOk(s, j, x)
    requires j != k || (x != p && x != n && s.nodes[x].skip[k] != Some(n))
    ensures NextOk(s', j, x)
  {
    CutMembers(s, t, s', k, p, n);
    assert s'.nodes[x].skip[j] == s.nodes[x].skip[j];
  }

  lemma CutHere(s: State, t: Tid, s': State, k: nat, p: NodeId, n: NodeId)
    requires Cuts(s, t, s', k, p, n) && NextOk(s, k, p) && NextOk(s, k, n)
    requires forall m | In(s, k, m) && s.nodes[m].key == s.nodes[n].key :: m == n
    ensures NextOk(s', k, p)
  {
    CutMembers(s, t, s', k, p, n);
  }

  lemma CutNext(s: State, t: Tid, s': State, k: nat, p: NodeId, n: NodeId, j: nat, x: NodeId)
    requires HeadOk(s) && LayersOk(s) && Cuts(s, t, s', k, p, n) && OnLayer(s, k, p) && OnLayer(s, k, n)
    requires OnLayer(s', j, x)
    ensures NextOk(s', j, x)
  {
    CutMembers(s, t, s', k, p, n);
    assert OnLayer(s, j, x) && NextOk(s, j, x) && NextOk(s, k, p) && NextOk(s, k, n);
    if j == k && x == p {
      forall m | In(s, k, m) && s.nodes[m].key == s.nodes[n].key ensures m == n { assert In(s, 0, m) && In(s, 0, n); }
      CutHere(s, t, s', k, p, n);
    } else {
      if j == k && s.nodes[x].skip[k] == Some(n) { OnePred(s, k, p, x, n); }
      CutElsewhere(s, t, s', k, p, n, j, x);
    }
  }

  lemma CutLayers(s: State, t: Tid, s': State, k: nat, p: NodeId, n: NodeId)
    requires HeadOk(s) && LayersOk(s) && Cuts(s, t, s', k, p, n) && OnLayer(s, k, p) && OnLayer(s, k, n)
    ensures LayersOk(s')
  {
    forall j: nat, x | OnLayer(s', j, x) ensures NextOk(s', j, x) { CutNext(s, t, s', k, p, n, j, x); }
    CutMembers(s, t, s', k, p, n);
    forall m, q | In(s', 0, m) && In(s', 0, q) && s'.nodes[m].key == s'.nodes[q].key ensures m == q {
      assert In(s, 0, m) && In(s, 0, q);
    }
  }

  lemma CutGrows(s: State, t: Tid, s': State, k: nat, p: NodeId, n: NodeId)
    requires HeadOk(s) && NodesOk(s) && Cuts(s, t, s', k, p, n)
    ensures HeadOk(s') && Monotone(s, s')
  {
    forall x | x in s.nodes ensures Grows(s, s', x) { assert NodeOk(s, x); }
  }

  lemma CutNodes(s: State, t: Tid, s': State, k: nat, p: NodeId, n: NodeId, x: NodeId)
    requires HeadOk(s) && NodesOk(s) && Cuts(s, t, s', k, p, n) && Monotone(s, s') && x in s.nodes
    requires Swaps(s.threads[t]).None?
    ensures NodeOk(s', x)
  {
    assert NodeOk(s, x);
    if x == p || x == n {
      assert NodeOk(s, n) && LinkOk(s, n, k);
      LinkKept(s, s', n, k);
      forall j | 0 <= j < Height(s'.nodes[x])
        ensures LinkOk(s', x, j)
      {
        if x != p || j != k { LinkKept(s, s', x, j); }
      }
    } else {
      NodeKept(s, t, s', x);
    }
  }

  lemma CutLives(s: State, t: Tid, s': State, k: nat, p: NodeId, n: NodeId)
    requires LivesOk(s) && Cuts(s, t, s', k, p, n) && Adds(s.threads[t]).None? && n in s.counted && n !in s.recycled
    requires KeepsVictim(s.threads[t], s'.threads[t])
    ensures LivesOk(s')
  {
    forall x | x in s'.nodes ensures LifeOk(s', x) { assert LifeOk(s, x); if x != n { LifeKept(s, t, s', x); } }
  }

  lemma CutMemory(s: State, t: Tid, s': State, k: nat, p: NodeId, n: NodeId)
    requires MemoryOk(s) && Cuts(s, t, s', k, p, n) && OnLayer(s, k, p) && OnLayer(s, k, n)
    requires Adds(s.threads[t]).None? && Swaps(s.threads[t]).None? && n in s.counted && n !in s.recycled
    requires KeepsVictim(s.threads[t], s'.threads[t])
    ensures MemoryHolds(s')
  {
    CutGrows(s, t, s', k, p, n);
    CutLayers(s, t, s', k, p, n);
    forall x | x in s'.nodes ensures NodeOk(s', x) { CutNodes(s, t, s', k, p, n, x); }
    CutLives(s, t, s', k, p, n);
  }

  lemma CutFrame(s: State, t: Tid, s': State, k: nat, p: NodeId, n: NodeId, u: Tid)
    requires HeadOk(s) && NodesOk(s) && Cuts(s, t, s', k, p, n) && OnLayer(s, k, p) && u != t
    ensures Framed(s, s', u)
  {
    forall x | x in s.nodes ensures NodeFrame(s, s', u, x) { assert NodeOk(s, x); }
  }

  lemma CutsKeep(s: State, t: Tid, s': State, k: nat, p: NodeId, n: NodeId)
    requires Inv(s) && Cuts(s, t, s', k, p, n) && OnLayer(s, k, p) && OnLayer(s, k, n)
    requires Adds(s.threads[t]).None? && Swaps(s.threads[t]).None? && n in s.counted && n !in s.recycled
    requires KeepsVictim(s.threads[t], s'.threads[t])
    requires ThreadHolds(s', t, s'.threads[t])
    ensures Inv(s')
  {
    CutMemory(s, t, s', k, p, n);
    forall u | u in s.threads && u != t ensures Framed(s, s', u) { CutFrame(s, t, s', k, p, n, u); }
    Assemble(s, t, s');
  }

  lemma CutStays(s: State, t: Tid, s': State, k: nat, n: NodeId, p: Path)
    requires k < |p.preds| && Cuts(s, t, s', k, p.preds[k], n) && Monotone(s, s') && UnlinkingOk(s, t, n, k, p)
    ensures k > 0 ==> UnlinkingOk(s', t, n, k - 1, p)
    ensures VictimOk(s', t, n) && n in s'.counted
  {
    PathStable(s, s', s.nodes[n].key, 0, p);
    forall j | 0 <= j < k ensures Validated(s', t, p.preds[j], j, Some(n)) {
      assert PredOk(s, s.nodes[n].key, 0 + j, p.preds[j]);
      assert Validated(s, t, p.preds[j], j, Some(n));
    }
  }

  lemma RemStoreCuts(s: State, t: Tid, s': State, p: NodeId)
    requires DoRemStore(s, t, s') && HeadOk(s) && LayersOk(s) && NodesOk(s) && UnlinkPcOk(s, t, s.threads[t])
    requires p == s.threads[t].path.preds[s.threads[t].k]
    ensures var pc := s.threads[t]; Cuts(s, t, s', pc.k, p, pc.n) && OnLayer(s, pc.k, p) && OnLayer(s, pc.k, pc.n)
  {
    var pc := s.threads[t];
    assert NodeOk(s, pc.n);
    assert Validated(s, t, p, pc.k, Some(pc.n));
    assert PredOk(s, s.nodes[pc.n].key, 0 + pc.k, p);
    ValidatedOnLayer(s, t, p, pc.k, Some(pc.n));
  }

  lemma RemStoreNext(s: State, t: Tid, s': State)
    requires DoRemStore(s, t, s') && UnlinkPcOk(s, t, s.threads[t]) && Monotone(s, s')
    requires var pc := s.threads[t]; Cuts(s, t, s', pc.k, pc.path.preds[pc.k], pc.n)
    ensures UnlinkPcOk(s', t, s'.threads[t])
  {
    var pc := s.threads[t];
    CutStays(s, t, s', pc.k, pc.n, pc.path);
  }

  lemma RemStoreHolds(s: State, t: Tid, s': State)
    requires DoRemStore(s, t, s')
    ensures Holds(s'.threads[t]) == Holds(s.threads[t])
  {
  }

  lemma RemStoreThread(s: State, t: Tid, s': State)
    requires DoRemStore(s, t, s') && UnlinkPcOk(s, t, s.threads[t]) && HeldOk(s, t, s.threads[t]) && Monotone(s, s')
    requires var pc := s.threads[t]; Cuts(s, t, s', pc.k, pc.path.preds[pc.k], pc.n)
    ensures ThreadHolds(s', t, s'.threads[t]) && KeepsVictim(s.threads[t], s'.threads[t])
    ensures s.threads[t].n in s.counted && s.threads[t].n !in s.recycled
  {
    RemStoreNext(s, t, s');
    RemStoreHolds(s, t, s');
    SameHolds(s, t, s');
    OnlyUnlinkPc(s', t, s'.threads[t]);
  }

  lemma RemStoreKeeps(s: State, t: Tid, s': State)
    requires Inv(s) && DoRemStore(s, t, s')
    ensures Inv(s')
  {
    assert MemoryOk(s);
    var pc := s.threads[t];
    Known(s, t);
    OnlyUnlinkPc(s, t, pc);
    RemStoreCuts(s, t, s', pc.path.preds[pc.k]);
    CutGrows(s, t, s', pc.k, pc.path.preds[pc.k], pc.n);
    RemStoreThread(s, t, s');
    CutsKeep(s, t, s', pc.k, pc.path.preds[pc.k], pc.n);
  }

  lemma RemLoadNext(s: State, t: Tid, s': State)
    requires DoRemLoad(s, t, s') && UnlinkPcOk(s, t, s.threads[t])
    ensures Private(s, t, s')
  {
    OnlyUnlinkPc(s, t, s'.threads[t]);
  }

  lemma DistinctAppend(q: seq<NodeId>, n: NodeId)
    requires Distinct(q) && n !in q
    ensures Distinct(q + [n])
  {
  }

  lemma RemSizeBooks(s: State, t: Tid, s': State)
    requires DoRemSize(s, t, s') && BooksOk(s) && UnlinkPcOk(s, t, s.threads[t]) && LifeOk(s, s.threads[t].n)
    ensures Posts(s, t, s', s.threads[t].n) && BooksOk(s') && LifeOk(s', s.threads[t].n)
  {
    DistinctAppend(s.removals, s.threads[t].n);
    assert |s'.counted| == |s.counted| - 1;
  }

  lemma RemSizeNext(s: State, t: Tid, s': State)
    requires DoRemSize(s, t, s') && UnlinkPcOk(s, t, s.threads[t])
    ensures UnlinkPcOk(s', t, s'.threads[t]) && Holds(s'.threads[t]) == Holds(s.threads[t])
  {
  }

  lemma RemSizeThread(s: State, t: Tid, s': State)
    requires DoRemSize(s, t, s') && UnlinkPcOk(s, t, s.threads[t]) && HeldOk(s, t, s.threads[t])
    ensures ThreadHolds(s', t, s'.threads[t]) && s.threads[t].n in s.nodes
    ensures s.nodes[s.threads[t].n].retirer == Some(t) && s.threads[t].n in s.counted
  {
    RemSizeNext(s, t, s');
    SameHolds(s, t, s');
    OnlyUnlinkPc(s', t, s'.threads[t]);
  }

  lemma RemSizeKeeps(s: State, t: Tid, s': State)
    requires Inv(s) && DoRemSize(s, t, s')
    ensures Inv(s')
  {
    assert MemoryOk(s);
    Known(s, t);
    OnlyUnlinkPc(s, t, s.threads[t]);
    assert LifeOk(s, s.threads[t].n);
    RemSizeBooks(s, t, s');
    RemSizeThread(s, t, s');
    PostsKeep(s, t, s', s.threads[t].n);
  }

  lemma RemRecycleNext(s: State, t: Tid, s': State)
    requires DoRemRecycle(s, t, s') && MemoryOk(s) && UnlinkPcOk(s, t, s.threads[t])
    ensures Posts(s, t, s', s.threads[t].n) && BooksOk(s') && LifeOk(s', s.threads[t].n)
    ensures UnlinkPcOk(s', t, s'.threads[t])
  {
    var n := s.threads[t].n;
    assert LifeOk(s, n);
    DistinctAppend(s.recycled, n);
  }

  lemma RemRecycleKeeps(s: State, t: Tid, s': State)
    requires Inv(s) && DoRemRecycle(s, t, s')
    ensures Inv(s')
  {
    Known(s, t);
    OnlyUnlinkPc(s, t, s.threads[t]);
    RemRecycleNext(s, t, s');
    SameHolds(s, t, s');
    OnlyUnlinkPc(s', t, s'.threads[t]);
    PostsKeep(s, t, s', s.threads[t].n);
  }

  /** Releasing the last lock of a call that returns. */
  lemma LastUnlock(s: State, t: Tid, s': State, n: NodeId)
    requires Relocks(s, t, s', n, None) && HeldOk(s, t, s.threads[t]) && Holds(s.threads[t]) == {n}
    requires s'.threads[t] == Idle
    ensures ThreadHolds(s', t, s'.threads[t])
  {
    LockHolds(s, t, s', n, None);
    OnlySearchPc(s', t, Idle);
  }

  lemma RemExitNext(s: State, t: Tid, s': State)
    requires DoRemExit(s, t, s') && NodesOk(s) && HeldOk(s, t, s.threads[t])
    ensures Relocks(s, t, s', s.threads[t].n, None)
  {
    var n := s.threads[t].n;
    assert n in Holds(s.threads[t]) && NodeOk(s, n);
  }

  lemma RemExitKeeps(s: State, t: Tid, s': State)
    requires Inv(s) && DoRemExit(s, t, s')
    ensures Inv(s')
  {
    Known(s, t);
    RemExitNext(s, t, s');
    LastUnlock(s, t, s', s.threads[t].n);
    RelocksKeep(s, t, s', s.threads[t].n, None);
  }

  lemma UnlinkStepKeeps(s: State, t: Tid, s': State)
    requires Inv(s) && UnlinkStep(s, t, s')
    ensures Inv(s')
  {
    if DoRemStore(s, t, s') { RemStoreKeeps(s, t, s'); }
    else if DoRemSize(s, t, s') { RemSizeKeeps(s, t, s'); }
    else if DoRemRecycle(s, t, s') { RemRecycleKeeps(s, t, s'); }
    else if DoRemExit(s, t, s') { RemExitKeeps(s, t, s'); }
    else {
      Known(s, t);
      OnlyUnlinkPc(s, t, s.threads[t]);
      RemLoadNext(s, t, s');
      PrivateKeeps(s, t, s');
    }
  }

  // ---------------------------------------------------------------- growHeight

  lemma GrowHeadThread(s: State, t: Tid, s': State, n: NodeId)
    requires HeadOk(s) && NodesOk(s) && t in s.threads && s.threads[t].GrowHead? && GrowPcOk(s, t, s.threads[t])
    requires n !in s.nodes
    requires s.head in s.nodes && Height(s.nodes[s.head]) < s.threads[t].h
    requires s' == Goto(SetNode(s, n, NewHead(t, s.threads[t].h)), t, GrowTake(s.head, n))
    ensures Creates(s, t, s', n, NewHead(t, s.threads[t].h)) && GrowPcOk(s', t, s'.threads[t])
  {
    assert NodeOk(s, s.head);
  }

  lemma GrowHeadHolds(s: State, t: Tid, s': State, n: NodeId)
    requires HeadOk(s) && NodesOk(s) && t in s.threads && s.threads[t].GrowHead? && HeldOk(s, t, s.threads[t])
    requires Creates(s, t, s', n, NewHead(t, s.threads[t].h)) && s'.threads[t].GrowTake?
    ensures HeldOk(s', t, s'.threads[t])
  {
    CreateFrame(s, t, s', n, NewHead(t, s.threads[t].h), t);
    HeldStable(s, s', t, s.threads[t]);
  }

  lemma GrowDeclinedNext(s: State, t: Tid, s': State)
    requires t in s.threads && s.threads[t].GrowHead? && s' == Goto(s, t, Idle)
    ensures Private(s, t, s')
  {
    OnlySearchPc(s, t, Idle);
  }

  lemma GrowCreateKeeps(s: State, t: Tid, s': State, n: NodeId)
    requires Inv(s) && t in s.threads && s.threads[t].GrowHead? && n !in s.nodes
    requires s.head in s.nodes && Height(s.nodes[s.head]) < s.threads[t].h
    requires s' == Goto(SetNode(s, n, NewHead(t, s.threads[t].h)), t, GrowTake(s.head, n))
    ensures Inv(s')
  {
    assert MemoryOk(s);
    Known(s, t);
    OnlyGrowPc(s, t, s.threads[t]);
    GrowHeadThread(s, t, s', n);
    GrowHeadHolds(s, t, s', n);
    OnlyGrowPc(s', t, s'.threads[t]);
    CreatesKeep(s, t, s', n, NewHead(t, s.threads[t].h));
  }

  lemma GrowHeadKeeps(s: State, t: Tid, s': State)
    requires Inv(s) && DoGrowHead(s, t, s')
    ensures Inv(s')
  {
    if Height(s.nodes[s.head]) >= s.threads[t].h {
      GrowDeclinedNext(s, t, s');
      PrivateKeeps(s, t, s');
    } else {
      var n: NodeId :| n !in s.nodes && s' == Goto(SetNode(s, n, NewHead(t, s.threads[t].h)), t, GrowTake(s.head, n));
      GrowCreateKeeps(s, t, s', n);
    }
  }

  lemma GrowTakeNext(s: State, t: Tid, s': State)
    requires DoGrowTake(s, t, s') && NodesOk(s) && GrowPcOk(s, t, s.threads[t])
    ensures Relocks(s, t, s', s.threads[t].prior, Some(t))
  {
    assert NodeOk(s, s.threads[t].prior);
  }

  lemma GrowTakePc(s: State, t: Tid, s': State)
    requires HeadOk(s) && NodesOk(s) && t in s.threads && s.threads[t].GrowTake? && GrowPcOk(s, t, s.threads[t])
    requires Relocks(s, t, s', s.threads[t].prior, Some(t))
    requires s'.threads[t] == GrowFlags(s.threads[t].prior, s.threads[t].taller)
    ensures GrowPcOk(s', t, s'.threads[t])
  {
    var pc := s.threads[t];
    LockFrame(s, t, s', pc.prior, Some(t), t);
    GrowingStable(s, s', t, pc.prior, pc.taller);
  }

  lemma GrowTakeThread(s: State, t: Tid, s': State)
    requires HeadOk(s) && NodesOk(s) && t in s.threads && s.threads[t].GrowTake?
    requires Relocks(s, t, s', s.threads[t].prior, Some(t))
    requires s'.threads[t] == GrowFlags(s.threads[t].prior, s.threads[t].taller)
    requires GrowPcOk(s, t, s.threads[t]) && HeldOk(s, t, s.threads[t])
    ensures ThreadHolds(s', t, s'.threads[t])
  {
    GrowTakePc(s, t, s');
    LockHolds(s, t, s', s.threads[t].prior, Some(t));
    OnlyGrowPc(s', t, s'.threads[t]);
  }

  lemma GrowTakeKeeps(s: State, t: Tid, s': State)
    requires Inv(s) && DoGrowTake(s, t, s')
    ensures Inv(s')
  {
    Known(s, t);
    OnlyGrowPc(s, t, s.threads[t]);
    GrowTakeNext(s, t, s');
    GrowTakeThread(s, t, s');
    RelocksKeep(s, t, s', s.threads[t].prior, Some(t));
  }

  lemma GrowFlagsNext(s: State, t: Tid, s': State)
    requires DoGrowFlags(s, t, s') && HeadOk(s) && NodesOk(s) && GrowPcOk(s, t, s.threads[t])
    ensures var pc := s.threads[t];
      Reflags(s, t, s', pc.taller, s.nodes[pc.prior].flags, None) && ShapeOk(s'.nodes[pc.taller])
      && s.nodes[pc.taller].retirer == None
    ensures GrowPcOk(s', t, s'.threads[t])
  {
    var pc := s.threads[t];
    assert NodeOk(s, pc.prior) && NodeOk(s, pc.taller) && NodeOk(s, s.head);
  }

  lemma GrowFlagsKeeps(s: State, t: Tid, s': State)
    requires Inv(s) && DoGrowFlags(s, t, s')
    ensures Inv(s')
  {
    var pc := s.threads[t];
    Known(s, t);
    OnlyGrowPc(s, t, s.threads[t]);
    GrowFlagsNext(s, t, s');
    SameHolds(s, t, s');
    OnlyGrowPc(s', t, s'.threads[t]);
    ReflagsKeep(s, t, s', pc.taller, s.nodes[pc.prior].flags, None);
  }

  lemma GrowCopyNext(s: State, t: Tid, s': State)
    requires DoGrowCopy(s, t, s') && HeadOk(s) && NodesOk(s) && GrowPcOk(s, t, s.threads[t])
    requires s.threads[t].i < Height(s.nodes[s.threads[t].prior])
    ensures var pc := s.threads[t];
      Writes(s, t, s', pc.taller, pc.i, s.nodes[pc.prior].skip[pc.i]) && LinkOk(s', pc.taller, pc.i)
    ensures GrowPcOk(s', t, s'.threads[t]) && s.nodes[s.threads[t].taller].sentinel
    ensures s.nodes[s.threads[t].taller].ever == 0
  {
    var pc := s.threads[t];
    assert NodeOk(s, pc.prior) && NodeOk(s, pc.taller) && NodeOk(s, s.head);
    assert LinkOk(s, pc.prior, pc.i);
  }

  lemma GrowCopiedNext(s: State, t: Tid, s': State)
    requires DoGrowCopy(s, t, s') && GrowPcOk(s, t, s.threads[t])
    requires s.threads[t].i >= Height(s.nodes[s.threads[t].prior])
    ensures Private(s, t, s')
  {
    OnlyGrowPc(s, t, s'.threads[t]);
  }

  lemma GrowCopyOneKeeps(s: State, t: Tid, s': State)
    requires Inv(s) && DoGrowCopy(s, t, s') && s.threads[t].i < Height(s.nodes[s.threads[t].prior])
    ensures Inv(s')
  {
    var pc := s.threads[t];
    Known(s, t);
    OnlyGrowPc(s, t, pc);
    GrowCopyNext(s, t, s');
    SameHolds(s, t, s');
    OnlyGrowPc(s', t, s'.threads[t]);
    WritesKeep(s, t, s', pc.taller, pc.i, s.nodes[pc.prior].skip[pc.i]);
  }

  lemma GrowCopyKeeps(s: State, t: Tid, s': State)
    requires Inv(s) && DoGrowCopy(s, t, s')
    ensures Inv(s')
  {
    if s.threads[t].i < Height(s.nodes[s.threads[t].prior]) {
      GrowCopyOneKeeps(s, t, s');
    } else {
      Known(s, t);
      OnlyGrowPc(s, t, s.threads[t]);
      GrowCopiedNext(s, t, s');
      PrivateKeeps(s, t, s');
    }
  }

  lemma GrowMarkLoadNext(s: State, t: Tid, s': State)
    requires DoGrowMarkLoad(s, t, s') && NodesOk(s) && GrowPcOk(s, t, s.threads[t])
    ensures Private(s, t, s')
  {
    assert NodeOk(s, s.threads[t].prior);
    OnlyGrowPc(s, t, s'.threads[t]);
  }

  lemma GrowMarkStoreNext(s: State, t: Tid, s': State)
    requires DoGrowMarkStore(s, t, s') && NodesOk(s) && GrowPcOk(s, t, s.threads[t])
    ensures var pc := s.threads[t];
      Reflags(s, t, s', pc.prior, Flags(true, true, false), Some(t)) && ShapeOk(s'.nodes[pc.prior])
    ensures GrowPcOk(s', t, s'.threads[t])
  {
    assert NodeOk(s, s.threads[t].prior);
  }

  lemma GrowMarkStoreKeeps(s: State, t: Tid, s': State)
    requires Inv(s) && DoGrowMarkStore(s, t, s')
    ensures Inv(s')
  {
    var pc := s.threads[t];
    Known(s, t);
    OnlyGrowPc(s, t, s.threads[t]);
    GrowMarkStoreNext(s, t, s');
    SameHolds(s, t, s');
    OnlyGrowPc(s', t, s'.threads[t]);
    ReflagsKeep(s, t, s', pc.prior, Flags(true, true, false), Some(t));
  }

  lemma GrowUnlockNext(s: State, t: Tid, s': State)
    requires DoGrowUnlock(s, t, s') && NodesOk(s) && HeldOk(s, t, s.threads[t])
    ensures Relocks(s, t, s', s.threads[t].prior, None)
  {
    var n := s.threads[t].prior;
    assert n in Holds(s.threads[t]) && NodeOk(s, n);
  }

  lemma GrowUnlockThread(s: State, t: Tid, s': State)
    requires t in s.threads && s.threads[t].GrowUnlock? && Relocks(s, t, s', s.threads[t].prior, None)
    requires GrowPcOk(s, t, s.threads[t]) && HeldOk(s, t, s.threads[t])
    requires s'.threads[t] == if s.threads[t].swapped then GrowRecycle(s.threads[t].prior) else Idle
    ensures ThreadHolds(s', t, s'.threads[t])
  {
    if s.threads[t].swapped {
      LockHolds(s, t, s', s.threads[t].prior, None);
      OnlyGrowPc(s', t, s'.threads[t]);
    } else {
      LastUnlock(s, t, s', s.threads[t].prior);
    }
  }

  lemma GrowUnlockKeeps(s: State, t: Tid, s': State)
    requires Inv(s) && DoGrowUnlock(s, t, s')
    ensures Inv(s')
  {
    Known(s, t);
    OnlyGrowPc(s, t, s.threads[t]);
    GrowUnlockNext(s, t, s');
    GrowUnlockThread(s, t, s');
    RelocksKeep(s, t, s', s.threads[t].prior, None);
  }

  lemma GrowRecyclePosts(s: State, t: Tid, s': State, n: NodeId)
    requires BooksOk(s) && n in s.nodes && NodeOk(s, n) && LifeOk(s, n) && DoGrowRecycle(s, t, s')
      && n == s.threads[t].prior
    requires GrowPcOk(s, t, s.threads[t])
    ensures Posts(s, t, s', n) && BooksOk(s') && LifeOk(s', n) && s.nodes[n].retirer == Some(t) && s.nodes[n].sentinel
  {
    DistinctAppend(s.recycled, n);
  }

  lemma GrowRecycleThread(s: State, t: Tid, s': State)
    requires DoGrowRecycle(s, t, s') && HeldOk(s, t, s.threads[t])
    ensures ThreadHolds(s', t, s'.threads[t])
  {
    SameHolds(s, t, s');
    OnlySearchPc(s', t, Idle);
  }

  lemma GrowRecycleKeeps(s: State, t: Tid, s': State)
    requires Inv(s) && DoGrowRecycle(s, t, s')
    ensures Inv(s')
  {
    var n := s.threads[t].prior;
    Known(s, t);
    OnlyGrowPc(s, t, s.threads[t]);
    NodeFacts(s, n);
    GrowRecyclePosts(s, t, s', n);
    GrowRecycleThread(s, t, s');
    PostsKeep(s, t, s', n);
  }

  lemma NodeFacts(s: State, n: NodeId)
    requires Inv(s) && n in s.nodes
    ensures BooksOk(s) && NodeOk(s, n) && LifeOk(s, n)
  {
    assert MemoryOk(s);
  }

  /** The taller head takes over with the links of the one it replaces. */
  ghost predicate Replaces(s: State, t: Tid, s': State, prior: NodeId, taller: NodeId) {
    && Moved(s, t, s') && prior == s.head && prior in s.nodes && CopiedOk(s, t, prior, taller, Height(s.nodes[prior]))
    && s' == s.(nodes := s.nodes[prior := s.nodes[prior].(retirer := Some(t))]
                                [taller := s.nodes[taller].(ever := Height(s.nodes[taller]))],
                head := taller, threads := s'.threads)
  }

  lemma ReplaceNext(s: State, t: Tid, s': State, prior: NodeId, taller: NodeId, k: nat, x: NodeId)
    requires HeadOk(s) && LayersOk(s) && NodesOk(s) && Replaces(s, t, s', prior, taller) && OnLayer(s', k, x)
    ensures NextOk(s', k, x)
  {
    assert forall m :: In(s', k, m) <==> In(s, k, m);
    if x != taller {
      assert NodeOk(s, x) && OnLayer(s, k, x) && NextOk(s, k, x);
    } else if k < Height(s.nodes[prior]) {
      assert OnLayer(s, k, prior) && NextOk(s, k, prior);
    } else {
      forall m ensures !In(s, k, m) { if m in s.nodes { assert NodeOk(s, m); } }
    }
  }

  lemma ReplaceLayers(s: State, t: Tid, s': State, prior: NodeId, taller: NodeId)
    requires HeadOk(s) && LayersOk(s) && NodesOk(s) && Replaces(s, t, s', prior, taller)
    ensures HeadOk(s') && LayersOk(s') && Monotone(s, s')
  {
    forall x | x in s.nodes ensures Grows(s, s', x) { assert NodeOk(s, x); }
    forall k: nat, x | OnLayer(s', k, x) ensures NextOk(s', k, x) { ReplaceNext(s, t, s', prior, taller, k, x); }
    forall m, n | In(s', 0, m) && In(s', 0, n) && s'.nodes[m].key == s'.nodes[n].key
      ensures m == n
    {
      assert In(s, 0, m) && In(s, 0, n);
    }
  }

  lemma ReplaceLives(s: State, t: Tid, s': State, prior: NodeId, taller: NodeId)
    requires HeadOk(s) && BooksOk(s) && LivesOk(s) && Replaces(s, t, s', prior, taller) && Adds(s.threads[t]).None?
    requires KeepsVictim(s.threads[t], s'.threads[t])
    ensures LivesOk(s')
  {
    forall x | x in s'.nodes ensures LifeOk(s', x) {
      assert LifeOk(s, x);
      if x != prior && x != taller { LifeKept(s, t, s', x); }
    }
  }

  lemma ReplaceMemory(s: State, t: Tid, s': State, prior: NodeId, taller: NodeId)
    requires MemoryOk(s) && Replaces(s, t, s', prior, taller)
    requires Adds(s.threads[t]).None? && Swaps(s.threads[t]).None? && Swaps(s'.threads[t]) == Some(prior)
    requires KeepsVictim(s.threads[t], s'.threads[t])
    ensures MemoryHolds(s')
  {
    ReplaceLayers(s, t, s', prior, taller);
    forall x | x in s'.nodes ensures NodeOk(s', x) {
      assert NodeOk(s, x);
      if x == prior || x == taller {
        forall j | 0 <= j < Height(s'.nodes[x]) ensures LinkOk(s', x, j) { LinkKept(s, s', x, j); }
      } else {
        NodeKept(s, t, s', x);
      }
    }
    ReplaceLives(s, t, s', prior, taller);
  }

  lemma ReplaceFrame(s: State, t: Tid, s': State, prior: NodeId, taller: NodeId, u: Tid)
    requires HeadOk(s) && NodesOk(s) && Replaces(s, t, s', prior, taller) && u != t
    ensures Framed(s, s', u)
  {
    forall x | x in s.nodes ensures NodeFrame(s, s', u, x) { assert NodeOk(s, x); }
  }

  lemma ReplacesKeep(s: State, t: Tid, s': State, prior: NodeId, taller: NodeId)
    requires Inv(s) && Replaces(s, t, s', prior, taller) && ThreadHolds(s', t, s'.threads[t])
    requires Adds(s.threads[t]).None? && Swaps(s.threads[t]).None? && Swaps(s'.threads[t]) == Some(prior)
    requires KeepsVictim(s.threads[t], s'.threads[t])
    ensures Inv(s')
  {
    ReplaceMemory(s, t, s', prior, taller);
    forall u | u in s.threads && u != t ensures Framed(s, s', u) { ReplaceFrame(s, t, s', prior, taller, u); }
    Assemble(s, t, s');
  }

  lemma GrowCasNext(s: State, t: Tid, s': State)
    requires DoGrowCas(s, t, s') && HeadOk(s) && NodesOk(s) && s.head !in s.recycled
    requires GrowPcOk(s, t, s.threads[t]) && s.head == s.threads[t].prior
    ensures Replaces(s, t, s', s.threads[t].prior, s.threads[t].taller) && GrowPcOk(s', t, s'.threads[t])
    ensures Holds(s'.threads[t]) == Holds(s.threads[t])
  {
    assert NodeOk(s, s.head);
  }

  lemma GrowLostNext(s: State, t: Tid, s': State)
    requires DoGrowCas(s, t, s') && GrowPcOk(s, t, s.threads[t]) && s.head != s.threads[t].prior
    ensures Private(s, t, s')
  {
    OnlyGrowPc(s, t, s'.threads[t]);
  }

  lemma HeadInUse(s: State)
    requires Inv(s)
    ensures s.head !in s.recycled
  {
    assert MemoryOk(s);
    assert LifeOk(s, s.head);
  }

  lemma GrowWonThread(s: State, t: Tid, s': State)
    requires DoGrowCas(s, t, s') && HeadOk(s) && NodesOk(s) && s.head !in s.recycled
    requires GrowPcOk(s, t, s.threads[t]) && HeldOk(s, t, s.threads[t]) && s.head == s.threads[t].prior
    ensures Replaces(s, t, s', s.threads[t].prior, s.threads[t].taller) && ThreadHolds(s', t, s'.threads[t])
  {
    GrowCasNext(s, t, s');
    SameHolds(s, t, s');
    OnlyGrowPc(s', t, s'.threads[t]);
  }

  lemma GrowCasKeeps(s: State, t: Tid, s': State)
    requires Inv(s) && DoGrowCas(s, t, s')
    ensures Inv(s')
  {
    Known(s, t);
    OnlyGrowPc(s, t, s.threads[t]);
    if s.head == s.threads[t].prior {
      HeadInUse(s);
      GrowWonThread(s, t, s');
      ReplacesKeep(s, t, s', s.threads[t].prior, s.threads[t].taller);
    } else {
      GrowLostNext(s, t, s');
      PrivateKeeps(s, t, s');
    }
  }

  lemma GrowStepKeeps(s: State, t: Tid, s': State)
    requires Inv(s) && GrowStep(s, t, s')
    ensures Inv(s')
  {
    if DoGrowHead(s, t, s') { GrowHeadKeeps(s, t, s'); }
    else if DoGrowTake(s, t, s') { GrowTakeKeeps(s, t, s'); }
    else if DoGrowFlags(s, t, s') { GrowFlagsKeeps(s, t, s'); }
    else if DoGrowCopy(s, t, s') { GrowCopyKeeps(s, t, s'); }
    else if DoGrowCas(s, t, s') { GrowCasKeeps(s, t, s'); }
    else if DoGrowMarkStore(s, t, s') { GrowMarkStoreKeeps(s, t, s'); }
    else if DoGrowUnlock(s, t, s') { GrowUnlockKeeps(s, t, s'); }
    else if DoGrowRecycle(s, t, s') { GrowRecycleKeeps(s, t, s'); }
    else {
      Known(s, t);
      OnlyGrowPc(s, t, s.threads[t]);
      GrowMarkLoadNext(s, t, s');
      PrivateKeeps(s, t, s');
    }
  }

  // ---------------------------------------------------------------- every step, every run

  lemma StepKeeps(s: State, t: Tid, s': State)
    requires Inv(s) && Step(s, t, s')
    ensures Inv(s')
  {
    if SearchStep(s, t, s') { SearchStepKeeps(s, t, s'); }
    else if MarkStep(s, t, s') { MarkStepKeeps(s, t, s'); }
    else if LockStep(s, t, s') { LockStepKeeps(s, t, s'); }
    else if InsertStep(s, t, s') { InsertStepKeeps(s, t, s'); }
    else if UnlinkStep(s, t, s') { UnlinkStepKeeps(s, t, s'); }
    else { GrowStepKeeps(s, t, s'); }
  }

  lemma InitOk(s: State)
    requires Init(s)
    ensures Inv(s)
  {
    forall k: nat, x | OnLayer(s, k, x) ensures NextOk(s, k, x) { assert x == s.head; }
    forall n | n in s.nodes ensures NodeOk(s, n) && LifeOk(s, n) { assert n == s.head; }
    forall u | u in s.threads ensures ThreadAt(s, u) { OnlySearchPc(s, u, Idle); }
  }

  lemma {:induction false} RunInv(run: seq<State>, sched: seq<Tid>, i: nat)
    requires Run(run, sched) && i < |run|
    ensures Inv(run[i])
  {
    if i == 0 {
      InitOk(run[0]);
    } else {
      RunInv(run, sched, i - 1);
      assert Follows(run, sched, i - 1);
      StepKeeps(run[i - 1], sched[i - 1], run[i]);
    }
  }
}
