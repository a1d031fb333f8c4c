/**
 * AtomicHashMap and its building block AtomicHashArray (folly/folly/AtomicHashMap-inl.h,
 * folly/folly/AtomicHashArray-inl.h) as one state machine.
 *
 * A sub-map is an open-addressed array of cells.  A cell key is one of three sentinels (empty,
 * locked, erased) or a real key.  Each step of the machine is one atomic access of
 * `insertInternal`, `findInternal` or `erase`, of the array or of the map around it; threads
 * interleave freely.  Fields marked "aux" record facts about the run that the proofs need.  They
 * decide nothing inside a call: where one stands in a check, as `hist` does in `Call` and `DoUnlock`,
 * the lemmas `InsertAccessesAreSafe` and `SearchAccessesAreSafe` show that the check always holds.
 */
module AtomicHashMap {
  import opened Common

  type Key(==, !new)
  type Value(==, !new)

  // ---------------------------------------------------------------- probing

  datatype ProbeFcn = Linear | Quadratic

  datatype Config = Config(hash: Key -> nat, probe: ProbeFcn)

  /** The smallest p * 2^i that is not below n: nextPowTwo(n) for p == 1. */
  function PowTwoFrom(p: nat, n: nat): (r: nat)
    requires p >= 1
    ensures r >= n && r >= p
    decreases if p >= n then 0 else n - p
  {
    if p >= n then p else PowTwoFrom(2 * p, n)
  }

  /** keyToAnchorIdx; `hash & kAnchorMask_` is the remainder by a power of two. */
  function Anchor(cfg: Config, key: Key, capacity: nat): (idx: nat)
    requires capacity >= 1
    ensures idx < capacity
  {
    var probe := cfg.hash(key) % PowTwoFrom(1, capacity);
    if probe < capacity then probe else cfg.hash(key) % capacity
  }

  function ProbeNext(f: ProbeFcn, idx: nat, numProbes: nat, capacity: nat): (r: nat)
    requires idx < capacity && 1 <= numProbes <= capacity
    ensures r < capacity
  {
    var i := idx + (if f.Linear? then 1 else numProbes);
    if i < capacity then i else i - capacity
  }

  /** The cell looked at after j failed probes. */
  function ProbeAt(cfg: Config, key: Key, capacity: nat, j: nat): (idx: nat)
    requires j < capacity
    ensures idx < capacity
    decreases j
  {
    if j == 0 then Anchor(cfg, key, capacity)
    else ProbeNext(cfg.probe, ProbeAt(cfg, key, capacity, j - 1), j, capacity)
  }

  // ---------------------------------------------------------------- state

  /** aux in Locked: who holds the cell, for which key, found at which rank.  aux in Live: rank. */
  datatype Cell =
    | Empty
    | Locked(owner: Tid, key: Key, rank: nat, built: Option<Value>)
    | Live(key: Key, val: Value, rank: nat)
    | Erased

  const NO_NEW_INSERTS := 1
  const NO_PENDING_INSERTS := 2
  const NUM_SUB_MAPS := 16

  datatype SubMap = SubMap(
    cells: seq<Cell>,
    isFull: nat,
    pending: nat,       // numPendingEntries_
    sealed: bool)       // aux: some thread has seen no pending insert while isFull_ was set

  /** The slot subMaps_[numMapsAllocated_]: null, kLockedPtr_, or stored but not yet published. */
  datatype Growth = Settled | Allocating(owner: Tid) | Stored(owner: Tid)

  datatype Loc = Loc(m: nat, idx: nat, val: Value)

  /** Locals of a call: n is the loaded numMapsAllocated_, (m, j, idx) the current probe; aux: t0, lin. */
  datatype Frame = Frame(key: Key, val: Value, n: nat, m: nat, j: nat, idx: nat, t0: nat, lin: nat)

  datatype Label =
    | LoadCell | IncPending | CheckFull | DecWait | WaitFlag | WaitCount | SetNoPending | RecheckCell
    | TryLock | DecLost | Construct | Unlock | DecDone | CountEntry | SetFull | UndoLock | DecThrow
    | SpinLocked | Compare | TryGrow | StoreMap | Publish | WaitGrow

  datatype Pc =
    | Idle
    | InsBegin(key: Key, val: Value, t0: nat)
    | Ins(at: Label, f: Frame)
    | FindCell(key: Key, n: nat, m: nat, j: nat, idx: nat, t0: nat)   // n == 0 until numMapsAllocated_ is loaded
    | FindMaps(key: Key, t0: nat)
    | EraseBegin(key: Key, t0: nat)
    | EraseCell(key: Key, n: nat, m: nat, j: nat, idx: nat, t0: nat)
    | EraseCas(key: Key, n: nat, m: nat, j: nat, idx: nat, t0: nat)
    | Inserted(f: Frame)                                              // insert returned true
    | Present(key: Key, m: nat, idx: nat, t0: nat, lin: nat)          // find hit, or insert returned false
    | Missing(key: Key, t0: nat)                                      // find miss, or erase returned 0
    | Gone(key: Key, t0: nat, lin: nat)                               // erase returned 1
    | Threw

  datatype State = State(
    maps: seq<SubMap>,
    numMaps: nat,                    // numMapsAllocated_
    growth: Growth,
    threads: map<Tid, Pc>,
    where: map<Key, Loc>,            // aux: the abstract map
    hist: seq<map<Key, Loc>>,        // aux: every value the abstract map has had, the last one current
    who: seq<Tid>)                   // aux: who[i] is the thread that took hist[i] to hist[i + 1]

  function FreshMap(capacity: nat): SubMap {
    SubMap(seq(capacity, _ => Empty), 0, 0, false)
  }

  ghost predicate Init(s: State) {
    && (exists capacity: nat :: capacity >= 1 && s.maps == [FreshMap(capacity)])
    && s.numMaps == 1 && s.growth.Settled?
    && s.where == map[] && s.hist == [map[]] && s.who == []
    && forall t | t in s.threads :: s.threads[t].Idle?
  }

  // ---------------------------------------------------------------- state updates

  function Goto(s: State, t: Tid, pc: Pc): State {
    s.(threads := s.threads[t := pc])
  }

  function SetMap(s: State, m: nat, sm: SubMap): State
    requires m < |s.maps|
  {
    s.(maps := s.maps[m := sm])
  }

  function SetCell(s: State, m: nat, idx: nat, c: Cell): State
    requires m < |s.maps| && idx < |s.maps[m].cells|
  {
    SetMap(s, m, s.maps[m].(cells := s.maps[m].cells[idx := c]))
  }

  function AddPending(s: State, m: nat, delta: int): State
    requires m < |s.maps| && s.maps[m].pending + delta >= 0
  {
    SetMap(s, m, s.maps[m].(pending := s.maps[m].pending + delta))
  }

  /** Records a new abstract value, brought about by t. */
  function Record(s: State, t: Tid, abs: map<Key, Loc>): State {
    s.(where := abs, hist := s.hist + [abs], who := s.who + [t])
  }

  function Enter(cfg: Config, s: State, f: Frame, m: nat): Frame
    requires m < |s.maps| && |s.maps[m].cells| >= 1
  {
    f.(m := m, j := 0, idx := Anchor(cfg, f.key, |s.maps[m].cells|))
  }

  ghost predicate InMap(s: State, m: nat, idx: nat) {
    m < |s.maps| && idx < |s.maps[m].cells| && forall i | 0 <= i < |s.maps| :: |s.maps[i].cells| >= 1
  }

  // ---------------------------------------------------------------- calls

  ghost predicate Returned(pc: Pc) {
    pc.Idle? || pc.Inserted? || pc.Present? || pc.Missing? || pc.Gone? || pc.Threw?
  }

  ghost predicate Call(cfg: Config, s: State, t: Tid, s': State) {
    && t in s.threads && Returned(s.threads[t]) && |s.hist| >= 1 && InMap(s, 0, 0)
    && exists key: Key, val: Value :: Starts(cfg, s, t, s', key, val)
  }

  ghost predicate Starts(cfg: Config, s: State, t: Tid, s': State, key: Key, val: Value)
    requires |s.hist| >= 1 && InMap(s, 0, 0)
  {
    || s' == Goto(s, t, InsBegin(key, val, |s.hist| - 1))
    || s' == Goto(s, t, FindCell(key, 0, 0, 0, Anchor(cfg, key, |s.maps[0].cells|), |s.hist| - 1))
    || s' == Goto(s, t, EraseBegin(key, |s.hist| - 1))
  }

  // ---------------------------------------------------------------- insert

  ghost predicate DoInsBegin(cfg: Config, s: State, t: Tid, s': State) {
    && t in s.threads && s.threads[t].InsBegin? && InMap(s, 0, 0)
    && var pc := s.threads[t];
       s' == Goto(s, t, Ins(LoadCell,
                            Frame(pc.key, pc.val, s.numMaps, 0, 0, Anchor(cfg, pc.key, |s.maps[0].cells|), pc.t0, 0)))
  }

  /** The sub-map returned capacity_: try the next one, grow, or start again from the top. */
  ghost function AfterFull(cfg: Config, s: State, f: Frame): Pc
    requires f.m + 1 < f.n ==> InMap(s, f.m + 1, 0)
  {
    if f.m < f.n then
      if f.m + 1 < f.n then Ins(LoadCell, Enter(cfg, s, f, f.m + 1)) else Ins(TryGrow, f)
    else InsBegin(f.key, f.val, f.t0)
  }

  ghost predicate At(s: State, t: Tid, at: Label) {
    && t in s.threads && s.threads[t].Ins? && s.threads[t].at == at
    && InMap(s, s.threads[t].f.m, s.threads[t].f.idx)
  }

  ghost predicate DoLoadCell(s: State, t: Tid, s': State) {
    && At(s, t, LoadCell)
    && var f := s.threads[t].f;
       s' == Goto(s, t, Ins(if s.maps[f.m].cells[f.idx].Empty? then IncPending else SpinLocked, f))
  }

  ghost predicate DoIncPending(s: State, t: Tid, s': State) {
    && At(s, t, IncPending)
    && var f := s.threads[t].f; s' == Goto(AddPending(s, f.m, 1), t, Ins(CheckFull, f))
  }

  ghost predicate DoCheckFull(s: State, t: Tid, s': State) {
    && At(s, t, CheckFull)
    && var f := s.threads[t].f; s' == Goto(s, t, Ins(if s.maps[f.m].isFull != 0 then DecWait else TryLock, f))
  }

  /** The four places where --numPendingEntries_ happens. */
  ghost predicate DoDecPending(s: State, t: Tid, s': State) {
    && t in s.threads && s.threads[t].Ins? && InMap(s, s.threads[t].f.m, s.threads[t].f.idx)
    && var f := s.threads[t].f;
       && s.maps[f.m].pending >= 1
       && match s.threads[t].at
          case DecWait => s' == Goto(AddPending(s, f.m, -1), t, Ins(WaitFlag, f))
          case DecLost => s' == Goto(AddPending(s, f.m, -1), t, Ins(SpinLocked, f))
          case DecDone => s' == Goto(AddPending(s, f.m, -1), t, Ins(CountEntry, f))
          case DecThrow => s' == Goto(AddPending(s, f.m, -1), t, Threw)
          case _ => false
  }

  ghost predicate DoWaitFlag(s: State, t: Tid, s': State) {
    && At(s, t, WaitFlag)
    && var f := s.threads[t].f;
       s' == Goto(s, t, Ins(if s.maps[f.m].isFull != NO_PENDING_INSERTS then WaitCount else SetNoPending, f))
  }

  /** readFull() of the pending counter; seeing zero ends the wait and, for the proofs, seals the sub-map. */
  ghost predicate DoWaitCount(s: State, t: Tid, s': State) {
    && At(s, t, WaitCount)
    && var f := s.threads[t].f;
       if s.maps[f.m].pending != 0 then s' == Goto(s, t, Ins(WaitFlag, f))
       else s' == Goto(SetMap(s, f.m, s.maps[f.m].(sealed := true)), t, Ins(SetNoPending, f))
  }

  ghost predicate DoSetNoPending(s: State, t: Tid, s': State) {
    && At(s, t, SetNoPending)
    && var f := s.threads[t].f;
       s' == Goto(SetMap(s, f.m, s.maps[f.m].(isFull := NO_PENDING_INSERTS)), t, Ins(RecheckCell, f))
  }

  ghost predicate DoRecheckCell(cfg: Config, s: State, t: Tid, s': State) {
    && At(s, t, RecheckCell)
    && var f := s.threads[t].f;
       && (f.m + 1 < f.n ==> InMap(s, f.m + 1, 0))
       && s' == Goto(s, t, if s.maps[f.m].cells[f.idx].Empty? then AfterFull(cfg, s, f) else Ins(SpinLocked, f))
  }

  /** tryLockCell: one compare-and-swap from empty to locked. */
  ghost predicate DoTryLock(s: State, t: Tid, s': State) {
    && At(s, t, TryLock)
    && var f := s.threads[t].f;
       if s.maps[f.m].cells[f.idx].Empty? then
         s' == Goto(SetCell(s, f.m, f.idx, Locked(t, f.key, f.j, None)), t, Ins(Construct, f))
       else
         s' == Goto(s, t, Ins(DecLost, f))
  }

  /** The value is built in the locked cell, or its constructor throws. */
  ghost predicate DoConstruct(s: State, t: Tid, s': State) {
    && At(s, t, Construct)
    && var f := s.threads[t].f;
       || s' == Goto(SetCell(s, f.m, f.idx, Locked(t, f.key, f.j, Some(f.val))), t, Ins(Unlock, f))
       || s' == Goto(s, t, Ins(UndoLock, f))
  }

  /** unlockCell(cell, key): the store that makes the key visible. */
  ghost predicate DoUnlock(s: State, t: Tid, s': State) {
    && At(s, t, Unlock) && |s.hist| >= 1
    && var f := s.threads[t].f;
       s' == Goto(Record(SetCell(s, f.m, f.idx, Live(f.key, f.val, f.j)), t, s.where[f.key := Loc(f.m, f.idx, f.val)]),
                  t, Ins(DecDone, f.(lin := |s.hist| - 1)))
  }

  /** unlockCell(cell, kEmptyKey_) on the exception path. */
  ghost predicate DoUndoLock(s: State, t: Tid, s': State) {
    && At(s, t, UndoLock)
    && var f := s.threads[t].f; s' == Goto(SetCell(s, f.m, f.idx, Empty), t, Ins(DecThrow, f))
  }

  /** ++numEntries_ and the comparison with maxEntries_, which may be based on a stale count. */
  ghost predicate DoCountEntry(s: State, t: Tid, s': State) {
    && At(s, t, CountEntry)
    && var f := s.threads[t].f; (s' == Goto(s, t, Ins(SetFull, f)) || s' == Goto(s, t, Inserted(f)))
  }

  /** isFull_.store(NO_NEW_INSERTS), which may overwrite NO_PENDING_INSERTS. */
  ghost predicate DoSetFull(s: State, t: Tid, s': State) {
    && At(s, t, SetFull)
    && var f := s.threads[t].f;
       s' == Goto(SetMap(s, f.m, s.maps[f.m].(isFull := NO_NEW_INSERTS)), t, Inserted(f))
  }

  ghost predicate DoSpinLocked(s: State, t: Tid, s': State) {
    && At(s, t, SpinLocked)
    && var f := s.threads[t].f;
       s' == if s.maps[f.m].cells[f.idx].Locked? then s else Goto(s, t, Ins(Compare, f))
  }

  ghost predicate DoCompare(cfg: Config, s: State, t: Tid, s': State) {
    && At(s, t, Compare) && |s.hist| >= 1
    && var f := s.threads[t].f;
       var c := s.maps[f.m].cells[f.idx];
       && (f.m + 1 < f.n ==> InMap(s, f.m + 1, 0))
       && if c.Live? && c.key == f.key then
            s' == Goto(s, t, Present(f.key, f.m, f.idx, f.t0, |s.hist| - 1))
          else if c.Empty? || c.Locked? then
            s' == Goto(s, t, Ins(LoadCell, f))
          else if f.j + 1 >= |s.maps[f.m].cells| then
            s' == Goto(s, t, AfterFull(cfg, s, f))
          else
            s' == Goto(s, t, Ins(LoadCell,
                                 f.(j := f.j + 1, idx := ProbeNext(cfg.probe, f.idx, f.j + 1, |s.maps[f.m].cells|))))
  }

  /** tryLockMap on the next slot, unless there are no more sub-maps or growing would be too small. */
  ghost predicate DoTryGrow(s: State, t: Tid, s': State) {
    && t in s.threads && s.threads[t].Ins? && s.threads[t].at.TryGrow?
    && var f := s.threads[t].f;
       || s' == Goto(s, t, Threw)
       || (f.n < NUM_SUB_MAPS &&
            if f.n == |s.maps| && s.growth.Settled? then
              s' == Goto(s.(growth := Allocating(t)), t, Ins(StoreMap, f))
            else
              s' == Goto(s, t, Ins(WaitGrow, f)))
  }

  ghost predicate DoStoreMap(s: State, t: Tid, s': State) {
    && t in s.threads && s.threads[t].Ins? && s.threads[t].at.StoreMap?
    && exists capacity: nat :: capacity >= 1 &&
         s' == Goto(s.(maps := s.maps + [FreshMap(capacity)], growth := Stored(t)), t, Ins(Publish, s.threads[t].f))
  }

  ghost predicate DoPublish(cfg: Config, s: State, t: Tid, s': State) {
    && t in s.threads && s.threads[t].Ins? && s.threads[t].at.Publish?
    && var f := s.threads[t].f;
       && InMap(s, f.n, 0)
       && s' == Goto(s.(numMaps := s.numMaps + 1, growth := Settled), t, Ins(LoadCell, Enter(cfg, s, f, f.n)))
  }

  ghost predicate DoWaitGrow(cfg: Config, s: State, t: Tid, s': State) {
    && t in s.threads && s.threads[t].Ins? && s.threads[t].at.WaitGrow?
    && var f := s.threads[t].f;
       if f.n >= s.numMaps then s' == s
       else InMap(s, f.n, 0) && s' == Goto(s, t, Ins(LoadCell, Enter(cfg, s, f, f.n)))
  }

  // ---------------------------------------------------------------- find

  /** After a sub-map was searched in vain. */
  ghost function AfterMiss(cfg: Config, s: State, key: Key, n: nat, m: nat, t0: nat): Pc
    requires m + 1 < n ==> InMap(s, m + 1, 0)
  {
    if n == 0 then FindMaps(key, t0)
    else if m + 1 < n then FindCell(key, n, m + 1, 0, Anchor(cfg, key, |s.maps[m + 1].cells|), t0)
    else Missing(key, t0)
  }

  ghost predicate DoFindCell(cfg: Config, s: State, t: Tid, s': State) {
    && t in s.threads && s.threads[t].FindCell? && |s.hist| >= 1
    && var pc := s.threads[t];
       && InMap(s, pc.m, pc.idx) && (pc.m + 1 < pc.n ==> InMap(s, pc.m + 1, 0))
       && var c := s.maps[pc.m].cells[pc.idx];
          if c.Live? && c.key == pc.key then
            s' == Goto(s, t, Present(pc.key, pc.m, pc.idx, pc.t0, |s.hist| - 1))
          else if c.Empty? || pc.j + 1 >= |s.maps[pc.m].cells| then
            s' == Goto(s, t, AfterMiss(cfg, s, pc.key, pc.n, pc.m, pc.t0))
          else
            s' == Goto(s, t, FindCell(pc.key, pc.n, pc.m, pc.j + 1,
                                      ProbeNext(cfg.probe, pc.idx, pc.j + 1, |s.maps[pc.m].cells|), pc.t0))
  }

  /** The secondary sub-maps are counted only after the primary one was searched. */
  ghost predicate DoFindMaps(cfg: Config, s: State, t: Tid, s': State) {
    && t in s.threads && s.threads[t].FindMaps? && s.numMaps >= 1 && (1 < s.numMaps ==> InMap(s, 1, 0))
    && var pc := s.threads[t]; s' == Goto(s, t, AfterMiss(cfg, s, pc.key, s.numMaps, 0, pc.t0))
  }

  // ---------------------------------------------------------------- erase

  ghost function AfterZero(cfg: Config, s: State, key: Key, n: nat, m: nat, t0: nat): Pc
    requires m + 1 < n ==> InMap(s, m + 1, 0)
  {
    if m + 1 < n then EraseCell(key, n, m + 1, 0, Anchor(cfg, key, |s.maps[m + 1].cells|), t0)
    else Missing(key, t0)
  }

  ghost predicate DoEraseBegin(cfg: Config, s: State, t: Tid, s': State) {
    && t in s.threads && s.threads[t].EraseBegin? && InMap(s, 0, 0)
    && var pc := s.threads[t];
       s' == Goto(s, t, EraseCell(pc.key, s.numMaps, 0, 0, Anchor(cfg, pc.key, |s.maps[0].cells|), pc.t0))
  }

  ghost predicate DoEraseCell(cfg: Config, s: State, t: Tid, s': State) {
    && t in s.threads && s.threads[t].EraseCell?
    && var pc := s.threads[t];
       && InMap(s, pc.m, pc.idx) && (pc.m + 1 < pc.n ==> InMap(s, pc.m + 1, 0))
       && var c := s.maps[pc.m].cells[pc.idx];
          if c.Empty? || c.Locked? then
            s' == Goto(s, t, AfterZero(cfg, s, pc.key, pc.n, pc.m, pc.t0))
          else if c.Live? && c.key == pc.key then
            s' == Goto(s, t, EraseCas(pc.key, pc.n, pc.m, pc.j, pc.idx, pc.t0))
          else if pc.j + 1 >= |s.maps[pc.m].cells| then
            s' == Goto(s, t, AfterZero(cfg, s, pc.key, pc.n, pc.m, pc.t0))
          else
            s' == Goto(s, t, EraseCell(pc.key, pc.n, pc.m, pc.j + 1,
                                       ProbeNext(cfg.probe, pc.idx, pc.j + 1, |s.maps[pc.m].cells|), pc.t0))
  }

  ghost predicate DoEraseCas(cfg: Config, s: State, t: Tid, s': State) {
    && t in s.threads && s.threads[t].EraseCas? && |s.hist| >= 1
    && var pc := s.threads[t];
       && InMap(s, pc.m, pc.idx) && (pc.m + 1 < pc.n ==> InMap(s, pc.m + 1, 0))
       && var c := s.maps[pc.m].cells[pc.idx];
          if c.Live? && c.key == pc.key then
            s' == Goto(Record(SetCell(s, pc.m, pc.idx, Erased), t, s.where - {pc.key}), t,
                       Gone(pc.key, pc.t0, |s.hist| - 1))
          else
            s' == Goto(s, t, AfterZero(cfg, s, pc.key, pc.n, pc.m, pc.t0))
  }

  // ---------------------------------------------------------------- one step

  ghost predicate InsStep(cfg: Config, s: State, t: Tid, s': State) {
    || DoInsBegin(cfg, s, t, s') || DoLoadCell(s, t, s') || DoIncPending(s, t, s') || DoCheckFull(s, t, s')
    || DoDecPending(s, t, s') || DoWaitFlag(s, t, s') || DoWaitCount(s, t, s') || DoSetNoPending(s, t, s')
    || DoRecheckCell(cfg, s, t, s') || DoTryLock(s, t, s') || DoConstruct(s, t, s') || DoUnlock(s, t, s')
    || DoUndoLock(s, t, s') || DoCountEntry(s, t, s') || DoSetFull(s, t, s') || DoSpinLocked(s, t, s')
    || DoCompare(cfg, s, t, s') || DoTryGrow(s, t, s') || DoStoreMap(s, t, s') || DoPublish(cfg, s, t, s')
    || DoWaitGrow(cfg, s, t, s')
  }

  ghost predicate Step(cfg: Config, s: State, t: Tid, s': State) {
    || Call(cfg, s, t, s') || InsStep(cfg, s, t, s')
    || DoFindCell(cfg, s, t, s') || DoFindMaps(cfg, s, t, s')
    || DoEraseBegin(cfg, s, t, s') || DoEraseCell(cfg, s, t, s') || DoEraseCas(cfg, s, t, s')
  }

  /** Step i of a run: `sched[i]` is the thread that moves. */
  ghost predicate Follows(cfg: Config, run: seq<State>, sched: seq<Tid>, i: nat)
    requires i < |sched| && |run| == |sched| + 1
  {
    Step(cfg, run[i], sched[i], run[i + 1])
  }

  ghost predicate Run(cfg: Config, run: seq<State>, sched: seq<Tid>) {
    && |run| == |sched| + 1
    && Init(run[0])
    && forall i | 0 <= i < |sched| :: Follows(cfg, run, sched, i)
  }
}
