/**
 * What every run of the AtomicHashMap machine keeps.
 *
 * The proof is a rely-guarantee argument.  `MemoryOk` speaks of the sub-maps, `ThreadOk` of one
 * thread and the memory it has seen, and `Evolves` says what a step of one thread can do to the
 * memory another thread relies on.
 */
module AtomicHashMapProof {
  import opened Common
  import opened AtomicHashMap

  // ---------------------------------------------------------------- one sub-map

  /** The cell met after j probes for `key` is taken for good, and not by `key`. */
  ghost predicate SettledNot(cfg: Config, sm: SubMap, key: Key, j: nat)
    requires j < |sm.cells|
  {
    var c := sm.cells[ProbeAt(cfg, key, |sm.cells|, j)];
    c.Erased? || (c.Live? && c.key != key)
  }

  ghost predicate Passed(cfg: Config, sm: SubMap, key: Key, n: nat) {
    n <= |sm.cells| && forall j | 0 <= j < n :: SettledNot(cfg, sm, key, j)
  }

  ghost predicate ClosedAt(cfg: Config, sm: SubMap, key: Key, n: nat) {
    && Passed(cfg, sm, key, n)
    && (n == |sm.cells| || (sm.sealed && sm.cells[ProbeAt(cfg, key, |sm.cells|, n)].Empty?))
  }

  /** The sub-map does not hold `key` and can never again accept it. */
  ghost predicate Closed(cfg: Config, sm: SubMap, key: Key) {
    exists n: nat :: ClosedAt(cfg, sm, key, n)
  }

  ghost predicate Holds(c: Cell, key: Key) {
    (c.Live? || c.Locked?) && c.key == key
  }

  /** Probe invariant: everything before a held key on its probe sequence is taken by something else. */
  ghost predicate CellOk(cfg: Config, sm: SubMap, idx: nat)
    requires idx < |sm.cells|
  {
    var c := sm.cells[idx];
    c.Live? || c.Locked? ==>
      && c.rank < |sm.cells|
      && ProbeAt(cfg, c.key, |sm.cells|, c.rank) == idx
      && Passed(cfg, sm, c.key, c.rank)
  }

  /** Full barrier: a sealed sub-map has isFull_ set and no cell under construction. */
  ghost predicate BarrierOk(sm: SubMap) {
    && sm.isFull <= 2
    && (sm.isFull == NO_PENDING_INSERTS ==> sm.sealed)
    && (sm.sealed ==> sm.isFull != 0)
    && (sm.sealed ==> forall i | 0 <= i < |sm.cells| :: !sm.cells[i].Locked?)
  }

  ghost predicate SubMapOk(cfg: Config, sm: SubMap) {
    && |sm.cells| >= 1
    && (forall i | 0 <= i < |sm.cells| :: CellOk(cfg, sm, i))
    && BarrierOk(sm)
  }

  /** A sub-map closed to a key has no cell for it. */
  lemma ClosedHasNone(cfg: Config, sm: SubMap, key: Key, idx: nat)
    requires SubMapOk(cfg, sm) && Closed(cfg, sm, key) && idx < |sm.cells|
    ensures !Holds(sm.cells[idx], key)
  {
    var n: nat :| ClosedAt(cfg, sm, key, n);
    assert CellOk(cfg, sm, idx);
    var c := sm.cells[idx];
    assert Holds(c, key) && c.rank < n ==> SettledNot(cfg, sm, key, c.rank);
    assert Holds(c, key) && n < c.rank ==> SettledNot(cfg, sm, key, n);
  }

  /** Two cells of one sub-map never hold the same key, not even one of them still locked. */
  lemma HoldersAgree(cfg: Config, sm: SubMap, key: Key, a: nat, b: nat)
    requires SubMapOk(cfg, sm) && a < |sm.cells| && b < |sm.cells|
    requires Holds(sm.cells[a], key) && Holds(sm.cells[b], key)
    ensures a == b
  {
    assert CellOk(cfg, sm, a) && CellOk(cfg, sm, b);
    var p, q := sm.cells[a].rank, sm.cells[b].rank;
    assert p < q ==> SettledNot(cfg, sm, key, p);
    assert q < p ==> SettledNot(cfg, sm, key, q);
  }

  // ---------------------------------------------------------------- how a sub-map may change

  ghost predicate CellEvolves(sm: SubMap, c: Cell, t: Tid, c': Cell) {
    || c' == c
    || (c.Empty? && !sm.sealed && c'.Locked? && c'.owner == t)
    || (c.Locked? && c.owner == t && !c'.Erased? && (c'.Empty? || (c'.key == c.key && c'.rank == c.rank)))
    || (c.Live? && c'.Erased?)
  }

  /** What a step of t can do to a sub-map. */
  ghost predicate SubMapEvolves(sm: SubMap, t: Tid, sm': SubMap) {
    && |sm'.cells| == |sm.cells|
    && (forall i | 0 <= i < |sm.cells| :: CellEvolves(sm, sm.cells[i], t, sm'.cells[i]))
    && (sm.sealed ==> sm'.sealed)
    && (sm.isFull != 0 ==> sm'.isFull != 0)
  }

  lemma PassedStable(cfg: Config, sm: SubMap, t: Tid, sm': SubMap, key: Key, n: nat)
    requires SubMapEvolves(sm, t, sm') && Passed(cfg, sm, key, n)
    ensures Passed(cfg, sm', key, n)
  {
    forall j | 0 <= j < n ensures SettledNot(cfg, sm', key, j) {
      assert SettledNot(cfg, sm, key, j);
    }
  }

  lemma ClosedStable(cfg: Config, sm: SubMap, t: Tid, sm': SubMap, key: Key)
    requires SubMapEvolves(sm, t, sm') && BarrierOk(sm) && Closed(cfg, sm, key)
    ensures Closed(cfg, sm', key)
  {
    var n: nat :| ClosedAt(cfg, sm, key, n);
    PassedStable(cfg, sm, t, sm', key, n);
    assert ClosedAt(cfg, sm', key, n);
  }

  // ---------------------------------------------------------------- threads and locks

  ghost predicate HoldsLock(pc: Pc, m: nat, idx: nat) {
    pc.Ins? && (pc.at.Construct? || pc.at.Unlock? || pc.at.UndoLock?) && pc.f.m == m && pc.f.idx == idx
  }

  /** Between ++numPendingEntries_ and --numPendingEntries_ on sub-map m. */
  ghost predicate IsPending(pc: Pc, m: nat) {
    && pc.Ins? && pc.f.m == m
    && (pc.at.CheckFull? || pc.at.DecWait? || pc.at.TryLock? || pc.at.DecLost? || pc.at.Construct? || pc.at.Unlock?
        || pc.at.DecDone? || pc.at.UndoLock? || pc.at.DecThrow?)
  }

  ghost function PendingSet(threads: map<Tid, Pc>, m: nat): set<Tid> {
    set t | t in threads && IsPending(threads[t], m)
  }

  // ---------------------------------------------------------------- memory invariant

  ghost predicate MapsOk(cfg: Config, s: State) {
    && |s.maps| >= 1
    && forall m | 0 <= m < |s.maps| :: SubMapOk(cfg, s.maps[m])
  }

  /** The abstract map lists exactly the live cells. */
  ghost predicate WhereOk(s: State) {
    && (forall m, i | 0 <= m < |s.maps| && 0 <= i < |s.maps[m].cells| && s.maps[m].cells[i].Live? ::
          var c := s.maps[m].cells[i]; c.key in s.where && s.where[c.key] == Loc(m, i, c.val))
    && (forall k | k in s.where :: IsLiveAt(s, k, s.where[k]))
    && |s.hist| == |s.who| + 1 && s.hist[|s.hist| - 1] == s.where
  }

  ghost predicate IsLiveAt(s: State, k: Key, loc: Loc) {
    && loc.m < |s.maps| && loc.idx < |s.maps[loc.m].cells|
    && var c := s.maps[loc.m].cells[loc.idx]; c.Live? && c.key == k && c.val == loc.val
  }

  /** A key held by one sub-map is shut out of all earlier ones. */
  ghost predicate LayersOk(cfg: Config, s: State) {
    forall m, i, e | 0 <= e < m < |s.maps| && 0 <= i < |s.maps[m].cells| ::
      s.maps[m].cells[i].Live? || s.maps[m].cells[i].Locked? ==> Closed(cfg, s.maps[e], s.maps[m].cells[i].key)
  }

  ghost predicate LocksOk(s: State) {
    forall m, i | 0 <= m < |s.maps| && 0 <= i < |s.maps[m].cells| && s.maps[m].cells[i].Locked? ::
      s.maps[m].cells[i].owner in s.threads && HoldsLock(s.threads[s.maps[m].cells[i].owner], m, i)
  }

  ghost predicate PendingOk(s: State) {
    forall m | 0 <= m < |s.maps| :: s.maps[m].pending == |PendingSet(s.threads, m)|
  }

  ghost predicate GrowthOk(s: State) {
    && 1 <= s.numMaps <= |s.maps|
    && |s.maps| == (if s.growth.Stored? then s.numMaps + 1 else s.numMaps)
    && (s.growth.Stored? ==> forall i | 0 <= i < |s.maps[s.numMaps].cells| :: s.maps[s.numMaps].cells[i].Empty?)
  }

  ghost predicate MemoryOk(cfg: Config, s: State) {
    MapsOk(cfg, s) && WhereOk(s) && LayersOk(cfg, s) && LocksOk(s) && PendingOk(s) && GrowthOk(s)
  }

  // ---------------------------------------------------------------- thread invariant

  ghost predicate ClosedBelow(cfg: Config, s: State, key: Key, n: nat) {
    n <= |s.maps| && forall e | 0 <= e < n :: Closed(cfg, s.maps[e], key)
  }

  ghost predicate ProbingOk(cfg: Config, s: State, key: Key, m: nat, j: nat, idx: nat) {
    && m < s.numMaps <= |s.maps|
    && j < |s.maps[m].cells|
    && idx == ProbeAt(cfg, key, |s.maps[m].cells|, j)
  }

  /** The abstract map went from not having the key to having it here, during the call. */
  ghost predicate InsertedDuring(s: State, t: Tid, f: Frame) {
    && f.t0 <= f.lin < |s.who| && |s.hist| == |s.who| + 1 && s.who[f.lin] == t
    && f.key !in s.hist[f.lin]
    && s.hist[f.lin + 1] == s.hist[f.lin][f.key := Loc(f.m, f.idx, f.val)]
  }

  ghost predicate PresentDuring(s: State, key: Key, m: nat, idx: nat, t0: nat, lin: nat) {
    t0 <= lin < |s.hist| && key in s.hist[lin] && s.hist[lin][key].m == m && s.hist[lin][key].idx == idx
  }

  ghost predicate AbsentDuring(s: State, key: Key, t0: nat) {
    exists i | t0 <= i < |s.hist| :: key !in s.hist[i]
  }

  ghost predicate ErasedDuring(s: State, t: Tid, key: Key, t0: nat, lin: nat) {
    && t0 <= lin < |s.who| && |s.hist| == |s.who| + 1 && s.who[lin] == t
    && key in s.hist[lin]
    && s.hist[lin + 1] == s.hist[lin] - {key}
  }

  /** A search standing at (m, j) has not overlooked the key: it was absent meanwhile, or lies ahead. */
  ghost predicate NotMissed(s: State, key: Key, m: nat, j: nat, limit: nat, t0: nat) {
    || AbsentDuring(s, key, t0)
    || (&& key in s.where && IsLiveAt(s, key, s.where[key])
        && s.where[key].m < limit
        && (m < s.where[key].m || (m == s.where[key].m && j <= s.maps[m].cells[s.where[key].idx].rank)))
  }

  ghost predicate Growing(at: Label) { at.TryGrow? || at.WaitGrow? || at.StoreMap? || at.Publish? }

  ghost predicate Leaving(at: Label) { at.DecThrow? || at.DecDone? || at.CountEntry? || at.SetFull? }

  ghost predicate GrowOk(cfg: Config, s: State, t: Tid, at: Label, f: Frame) {
    && ClosedBelow(cfg, s, f.key, f.n)
    && (at.StoreMap? ==> s.growth == Allocating(t) && f.n == s.numMaps)
    && (at.Publish? ==> s.growth == Stored(t) && f.n == s.numMaps)
  }

  ghost predicate LeaveOk(s: State, t: Tid, at: Label, f: Frame) {
    && f.m < s.numMaps <= |s.maps| && f.m <= f.n && f.idx < |s.maps[f.m].cells|
    && (!at.DecThrow? ==> InsertedDuring(s, t, f))
  }

  ghost predicate ProbeOk(cfg: Config, s: State, t: Tid, at: Label, f: Frame) {
    && f.m <= f.n && ClosedBelow(cfg, s, f.key, f.m)
    && ProbingOk(cfg, s, f.key, f.m, f.j, f.idx)
    && Passed(cfg, s.maps[f.m], f.key, f.j)
    && (at.TryLock? ==> !s.maps[f.m].sealed)
    && (at.DecWait? || at.WaitFlag? || at.WaitCount? ==> s.maps[f.m].isFull != 0)
    && (at.SetNoPending? || at.RecheckCell? ==> s.maps[f.m].sealed)
    && (at.Construct? || at.UndoLock? ==> LockedFor(s.maps[f.m].cells[f.idx], t, f))
    && (at.Unlock? ==> s.maps[f.m].cells[f.idx] == Locked(t, f.key, f.j, Some(f.val)))
  }

  ghost predicate LockedFor(c: Cell, t: Tid, f: Frame) {
    c.Locked? && c.owner == t && c.key == f.key && c.rank == f.j
  }

  ghost predicate InsOk(cfg: Config, s: State, t: Tid, at: Label, f: Frame) {
    && f.t0 < |s.hist| && 1 <= f.n <= s.numMaps
    && (Growing(at) ==> GrowOk(cfg, s, t, at, f))
    && (Leaving(at) ==> LeaveOk(s, t, at, f))
    && (!Growing(at) && !Leaving(at) ==> ProbeOk(cfg, s, t, at, f))
  }

  ghost predicate ThreadOk(cfg: Config, s: State, t: Tid, pc: Pc)
    requires s.numMaps <= |s.maps|
  {
    match pc
    case Idle => true
    case Threw => true
    case InsBegin(_, _, t0) => t0 < |s.hist|
    case Ins(at, f) => InsOk(cfg, s, t, at, f)
    case FindCell(key, n, m, j, idx, t0) =>
      && t0 < |s.hist| && n <= s.numMaps && (n == 0 ==> m == 0) && (n > 0 ==> m < n)
      && ProbingOk(cfg, s, key, m, j, idx)
      && NotMissed(s, key, m, j, if n == 0 then |s.maps| else n, t0)
    case FindMaps(key, t0) =>
      t0 < |s.hist| && NotMissed(s, key, 1, 0, |s.maps|, t0)
    case EraseBegin(_, t0) => t0 < |s.hist|
    case EraseCell(key, n, m, j, idx, t0) =>
      && t0 < |s.hist| && m < n <= s.numMaps
      && ProbingOk(cfg, s, key, m, j, idx)
      && NotMissed(s, key, m, j, n, t0)
    case EraseCas(key, n, m, j, idx, t0) =>
      && t0 < |s.hist| && m < n <= s.numMaps
      && ProbingOk(cfg, s, key, m, j, idx)
      && GoneOrHere(s, key, m, idx, t0)
    case Inserted(f) => InsertedDuring(s, t, f)
    case Present(key, m, idx, t0, lin) => PresentDuring(s, key, m, idx, t0, lin)
    case Missing(key, t0) => AbsentDuring(s, key, t0)
    case Gone(key, t0, lin) => ErasedDuring(s, t, key, t0, lin)
  }

  /** ThreadOk as one folded fact, for lemmas that only pass it on. */
  ghost predicate ThreadHolds(cfg: Config, s: State, t: Tid, pc: Pc)
    requires s.numMaps <= |s.maps|
  {
    forall x {:trigger ThreadOk(cfg, s, t, x)} | x == pc :: ThreadOk(cfg, s, t, x)
  }

  ghost predicate Inv(cfg: Config, s: State) {
    && MemoryOk(cfg, s)
    && forall t {:trigger ThreadOk(cfg, s, t, s.threads[t])} | t in s.threads :: ThreadOk(cfg, s, t, s.threads[t])
  }

  // ---------------------------------------------------------------- what other threads rely on

  ghost predicate Evolves(s: State, t: Tid, s': State) {
    && |s.maps| <= |s'.maps| && s.numMaps <= s'.numMaps <= |s'.maps|
    && (forall m | 0 <= m < |s.maps| :: SubMapEvolves(s.maps[m], t, s'.maps[m]))
    && s.hist <= s'.hist && |s'.hist| <= |s.hist| + 1 && s.who <= s'.who && |s'.hist| - |s.hist| == |s'.who| - |s.who|
    && (|s'.who| > |s.who| ==> s'.who[|s.who|] == t)
    && (forall k | k in s.where :: (k in s'.where && s'.where[k] == s.where[k]) || AbsentDuring(s', k, |s.hist|))
    && (!s.growth.Settled? && s.growth.owner != t ==> s'.growth == s.growth && s'.numMaps == s.numMaps)
  }

  lemma AbsentStable(s: State, s': State, key: Key, t0: nat)
    requires s.hist <= s'.hist && AbsentDuring(s, key, t0)
    ensures AbsentDuring(s', key, t0)
  {
    var i :| t0 <= i < |s.hist| && key !in s.hist[i];
    assert key !in s'.hist[i];
  }

  lemma ClosedBelowStable(cfg: Config, s: State, t: Tid, s': State, key: Key, n: nat)
    requires MapsOk(cfg, s) && Evolves(s, t, s') && ClosedBelow(cfg, s, key, n)
    ensures ClosedBelow(cfg, s', key, n)
  {
    forall e | 0 <= e < n ensures Closed(cfg, s'.maps[e], key) {
      ClosedStable(cfg, s.maps[e], t, s'.maps[e], key);
    }
  }

  lemma NotMissedStable(s: State, t: Tid, s': State, key: Key, m: nat, j: nat, limit: nat, limit': nat, t0: nat)
    requires Evolves(s, t, s') && WhereOk(s') && t0 < |s.hist| && limit <= limit'
    requires NotMissed(s, key, m, j, limit, t0)
    ensures NotMissed(s', key, m, j, limit', t0)
  {
    if AbsentDuring(s, key, t0) {
      AbsentStable(s, s', key, t0);
    } else if !AbsentDuring(s', key, t0) {
      assert !AbsentDuring(s', key, |s.hist|);
      assert s'.where[key] == s.where[key] && IsLiveAt(s', key, s'.where[key]);
    }
  }

  lemma InsStable(cfg: Config, s: State, t: Tid, s': State, u: Tid, at: Label, f: Frame)
    requires MemoryOk(cfg, s) && Evolves(s, t, s') && u != t
    requires InsOk(cfg, s, u, at, f)
    requires at.TryLock? && s'.maps[f.m].sealed ==> s.maps[f.m].sealed
    ensures InsOk(cfg, s', u, at, f)
  {
    if Growing(at) {
      ClosedBelowStable(cfg, s, t, s', f.key, f.n);
    } else if !Leaving(at) {
      ClosedBelowStable(cfg, s, t, s', f.key, f.m);
      PassedStable(cfg, s.maps[f.m], t, s'.maps[f.m], f.key, f.j);
    }
  }

  ghost predicate GoneOrHere(s: State, key: Key, m: nat, idx: nat, t0: nat)
    requires m < |s.maps| && idx < |s.maps[m].cells|
  {
    AbsentDuring(s, key, t0) || (s.maps[m].cells[idx].Live? && s.maps[m].cells[idx].key == key)
  }

  lemma GoneOrHereStable(s: State, t: Tid, s': State, key: Key, m: nat, idx: nat, t0: nat)
    requires WhereOk(s) && Evolves(s, t, s') && WhereOk(s') && t0 < |s.hist|
    requires m < |s.maps| && idx < |s.maps[m].cells| && idx < |s'.maps[m].cells|
    requires GoneOrHere(s, key, m, idx, t0)
    ensures GoneOrHere(s', key, m, idx, t0)
  {
    if AbsentDuring(s, key, t0) {
      AbsentStable(s, s', key, t0);
    } else if AbsentDuring(s', key, |s.hist|) {
      assert AbsentDuring(s', key, t0);
    } else {
      assert s'.where[key] == s.where[key];
    }
  }

  lemma ThreadStable(cfg: Config, s: State, t: Tid, s': State, u: Tid, pc: Pc)
    requires MemoryOk(cfg, s) && Evolves(s, t, s') && WhereOk(s') && u != t
    requires ThreadOk(cfg, s, u, pc)
    requires forall m | 0 <= m < |s.maps| && s'.maps[m].sealed && IsPending(pc, m) :: s.maps[m].sealed
    ensures ThreadOk(cfg, s', u, pc)
  {
    match pc
    case Ins(at, f) => InsStable(cfg, s, t, s', u, at, f);
    case FindCell(key, n, m, j, idx, t0) =>
      NotMissedStable(s, t, s', key, m, j, if n == 0 then |s.maps| else n, if n == 0 then |s'.maps| else n, t0);
    case FindMaps(key, t0) => NotMissedStable(s, t, s', key, 1, 0, |s.maps|, |s'.maps|, t0);
    case EraseCell(key, n, m, j, idx, t0) => NotMissedStable(s, t, s', key, m, j, n, n, t0);
    case EraseCas(key, _, m, _, idx, t0) => GoneOrHereStable(s, t, s', key, m, idx, t0);
    case Missing(key, t0) => AbsentStable(s, s', key, t0);
    case _ =>
  }

  ghost predicate OthersSame(s: State, t: Tid, s': State) {
    && t in s.threads && s'.threads.Keys == s.threads.Keys
    && forall u | u in s.threads && u != t :: s'.threads[u] == s.threads[u]
  }

  /** No other thread is between its isFull_ check and its unlock in a sub-map that becomes sealed. */
  ghost predicate SealsIdle(s: State, t: Tid, s': State) {
    && |s.maps| <= |s'.maps|
    && forall m, u | 0 <= m < |s.maps| && s'.maps[m].sealed && !s.maps[m].sealed && u in s.threads && u != t ::
         !IsPending(s.threads[u], m)
  }

  lemma Assemble(cfg: Config, s: State, t: Tid, s': State)
    requires Inv(cfg, s) && MemoryOk(cfg, s') && Evolves(s, t, s') && SealsIdle(s, t, s') && OthersSame(s, t, s')
    requires ThreadHolds(cfg, s', t, s'.threads[t])
    ensures Inv(cfg, s')
  {
    forall u | u in s'.threads ensures ThreadOk(cfg, s', u, s'.threads[u]) {
      if u != t { ThreadStable(cfg, s, t, s', u, s.threads[u]); }
    }
  }

  // ---------------------------------------------------------------- counting pending inserts

  lemma PendingMove(threads: map<Tid, Pc>, t: Tid, pc: Pc, m: nat)
    requires t in threads
    ensures var before, after := PendingSet(threads, m), PendingSet(threads[t := pc], m);
      |after| == |before| + (if IsPending(pc, m) then 1 else 0) - (if IsPending(threads[t], m) then 1 else 0)
  {
    var before, after := PendingSet(threads, m), PendingSet(threads[t := pc], m);
    assert t in before <==> IsPending(threads[t], m);
    assert t in after <==> IsPending(pc, m);
    assert forall u :: u in after && u != t <==> u in before && u != t;
    assert after - {t} == before - {t};
    CountMove(before, after, t);
  }

  lemma CountMove(before: set<Tid>, after: set<Tid>, t: Tid)
    requires after - {t} == before - {t}
    ensures |after| == |before| + (if t in after then 1 else 0) - (if t in before then 1 else 0)
  {
    if t in before { assert before == (before - {t}) + {t}; } else { assert before == before - {t}; }
    if t in after { assert after == (after - {t}) + {t}; } else { assert after == after - {t}; }
  }

  /** The pending counters are right if each moved exactly as much as the thread's membership did. */
  lemma PendingKept(s: State, t: Tid, s': State, pc: Pc)
    requires PendingOk(s) && t in s.threads && s'.threads == s.threads[t := pc] && |s'.maps| == |s.maps|
    requires forall m | 0 <= m < |s.maps| ::
      s'.maps[m].pending == s.maps[m].pending + (if IsPending(pc, m) then 1 else 0)
        - (if IsPending(s.threads[t], m) then 1 else 0)
    ensures PendingOk(s')
  {
    forall m | 0 <= m < |s'.maps| ensures s'.maps[m].pending == |PendingSet(s'.threads, m)| {
      PendingMove(s.threads, t, pc, m);
    }
  }

  // ---------------------------------------------------------------- steps that change no cell

  ghost predicate SameLocks(pc: Pc, pc': Pc) {
    forall m, i :: HoldsLock(pc, m, i) ==> HoldsLock(pc', m, i)
  }

  lemma LayersKept(cfg: Config, s: State, t: Tid, s': State)
    requires MapsOk(cfg, s) && LayersOk(cfg, s) && |s'.maps| >= |s.maps|
    requires forall m | 0 <= m < |s.maps| :: SubMapEvolves(s.maps[m], t, s'.maps[m])
    requires forall m, i | |s.maps| <= m < |s'.maps| && 0 <= i < |s'.maps[m].cells| :: s'.maps[m].cells[i].Empty?
    requires forall m, i
      | 0 <= m < |s.maps| && 0 <= i < |s.maps[m].cells| && i < |s'.maps[m].cells|
        && (s'.maps[m].cells[i].Live? || s'.maps[m].cells[i].Locked?) ::
      Holds(s.maps[m].cells[i], s'.maps[m].cells[i].key) || ClosedBelow(cfg, s, s'.maps[m].cells[i].key, m)
    ensures LayersOk(cfg, s')
  {
    forall m, i, e | 0 <= e < m < |s'.maps| && 0 <= i < |s'.maps[m].cells|
      && (s'.maps[m].cells[i].Live? || s'.maps[m].cells[i].Locked?)
      ensures Closed(cfg, s'.maps[e], s'.maps[m].cells[i].key)
    {
      assert Closed(cfg, s.maps[e], s'.maps[m].cells[i].key);
      ClosedStable(cfg, s.maps[e], t, s'.maps[e], s'.maps[m].cells[i].key);
    }
  }

  /** A step after which every cell, the abstract map and the number of sub-maps are as before. */
  ghost predicate SameCells(s: State, s': State) {
    && |s'.maps| == |s.maps| && s'.numMaps == s.numMaps && s'.growth == s.growth
    && s'.where == s.where && s'.hist == s.hist && s'.who == s.who
    && forall m | 0 <= m < |s.maps| ::
         s'.maps[m].cells == s.maps[m].cells && (s.maps[m].sealed ==> s'.maps[m].sealed)
         && (s.maps[m].isFull != 0 ==> s'.maps[m].isFull != 0)
  }

  lemma CounterStep(cfg: Config, s: State, t: Tid, s': State, pc: Pc)
    requires Inv(cfg, s) && t in s.threads && s'.threads == s.threads[t := pc]
    requires SameCells(s, s') && SameLocks(s.threads[t], pc) && PendingOk(s') && SealsIdle(s, t, s')
    requires forall m | 0 <= m < |s'.maps| :: BarrierOk(s'.maps[m])
    requires ThreadHolds(cfg, s', t, pc)
    ensures Inv(cfg, s') && Evolves(s, t, s')
  {
    forall m | 0 <= m < |s'.maps| ensures SubMapOk(cfg, s'.maps[m]) {
      SubMapSame(cfg, s.maps[m], s'.maps[m]);
    }
    assert WhereOk(s');
    LayersKept(cfg, s, t, s');
    assert LocksOk(s');
    Assemble(cfg, s, t, s');
  }

  lemma PassedSame(cfg: Config, sm: SubMap, sm': SubMap, i: nat)
    requires sm'.cells == sm.cells && i < |sm.cells| && CellOk(cfg, sm, i)
    ensures CellOk(cfg, sm', i)
  {
    var c := sm.cells[i];
    if c.Live? || c.Locked? {
      forall j | 0 <= j < c.rank ensures SettledNot(cfg, sm', c.key, j) {
        assert SettledNot(cfg, sm, c.key, j);
      }
    }
  }

  lemma SubMapSame(cfg: Config, sm: SubMap, sm': SubMap)
    requires SubMapOk(cfg, sm) && sm'.cells == sm.cells && BarrierOk(sm')
    ensures SubMapOk(cfg, sm')
  {
    forall i | 0 <= i < |sm'.cells| ensures CellOk(cfg, sm', i) {
      PassedSame(cfg, sm, sm', i);
    }
  }

  lemma LocalStep(cfg: Config, s: State, t: Tid, pc: Pc)
    requires Inv(cfg, s) && t in s.threads
    requires forall m :: IsPending(pc, m) <==> IsPending(s.threads[t], m)
    requires SameLocks(s.threads[t], pc)
    requires ThreadHolds(cfg, s, t, pc)
    ensures Inv(cfg, Goto(s, t, pc)) && Evolves(s, t, Goto(s, t, pc))
  {
    var s' := Goto(s, t, pc);
    PendingKept(s, t, s', pc);
    ThreadSame(cfg, s, s', t, pc);
    CounterStep(cfg, s, t, s', pc);
  }

  lemma ThreadSame(cfg: Config, s: State, s': State, t: Tid, pc: Pc)
    requires s.numMaps <= |s.maps| && s' == s.(threads := s'.threads)
    requires ThreadOk(cfg, s, t, pc)
    ensures ThreadOk(cfg, s', t, pc)
  {
    match pc
    case FindCell(key, n, m, j, idx, t0) => if AbsentDuring(s, key, t0) { AbsentStable(s, s', key, t0); }
    case FindMaps(key, t0) => if AbsentDuring(s, key, t0) { AbsentStable(s, s', key, t0); }
    case EraseCell(key, n, m, j, idx, t0) => if AbsentDuring(s, key, t0) { AbsentStable(s, s', key, t0); }
    case EraseCas(key, n, m, j, idx, t0) => if AbsentDuring(s, key, t0) { AbsentStable(s, s', key, t0); }
    case Missing(key, t0) => AbsentStable(s, s', key, t0);
    case _ =>
  }

  // ---------------------------------------------------------------- steps that change one cell

  lemma SubMapKept(cfg: Config, sm: SubMap, t: Tid, sm': SubMap)
    requires SubMapOk(cfg, sm) && SubMapEvolves(sm, t, sm') && BarrierOk(sm')
    requires forall i | 0 <= i < |sm.cells| && (sm'.cells[i].Live? || sm'.cells[i].Locked?) ::
      var c := sm'.cells[i];
      || (Holds(sm.cells[i], c.key) && sm.cells[i].rank == c.rank)
      || (c.rank < |sm.cells| && ProbeAt(cfg, c.key, |sm.cells|, c.rank) == i && Passed(cfg, sm, c.key, c.rank))
    ensures SubMapOk(cfg, sm')
  {
    forall i | 0 <= i < |sm'.cells| ensures CellOk(cfg, sm', i) {
      assert CellOk(cfg, sm, i);
      var c := sm'.cells[i];
      if c.Live? || c.Locked? { PassedStable(cfg, sm, t, sm', c.key, c.rank); }
    }
  }

  /** What may be written into a cell without disturbing the probe sequences. */
  ghost predicate GoodWrite(cfg: Config, s: State, t: Tid, m: nat, idx: nat, c: Cell)
    requires m < |s.maps| && idx < |s.maps[m].cells|
  {
    var sm := s.maps[m];
    && CellEvolves(sm, sm.cells[idx], t, c)
    && (c.Locked? ==> !sm.sealed)
    && (c.Live? || c.Locked? ==>
          || (Holds(sm.cells[idx], c.key) && sm.cells[idx].rank == c.rank)
          || (&& c.rank < |sm.cells| && ProbeAt(cfg, c.key, |sm.cells|, c.rank) == idx
              && Passed(cfg, sm, c.key, c.rank) && ClosedBelow(cfg, s, c.key, m)))
  }

  lemma WriteKeepsMaps(cfg: Config, s: State, t: Tid, m: nat, idx: nat, c: Cell)
    requires MapsOk(cfg, s) && LayersOk(cfg, s) && m < |s.maps| && idx < |s.maps[m].cells|
    requires GoodWrite(cfg, s, t, m, idx, c)
    ensures var s' := SetCell(s, m, idx, c);
      && MapsOk(cfg, s') && LayersOk(cfg, s')
      && forall e | 0 <= e < |s.maps| :: SubMapEvolves(s.maps[e], t, s'.maps[e])
  {
    var s' := SetCell(s, m, idx, c);
    forall e | 0 <= e < |s.maps| ensures SubMapEvolves(s.maps[e], t, s'.maps[e]) && SubMapOk(cfg, s'.maps[e]) {
      if e == m { SubMapKept(cfg, s.maps[e], t, s'.maps[e]); }
    }
    LayersKept(cfg, s, t, s');
  }

  /** A key under construction is nowhere live: uniqueness at the moment it becomes visible. */
  lemma LockedKeyIsNew(cfg: Config, s: State, m: nat, idx: nat)
    requires MemoryOk(cfg, s) && m < |s.maps| && idx < |s.maps[m].cells| && s.maps[m].cells[idx].Locked?
    ensures s.maps[m].cells[idx].key !in s.where
  {
    var key := s.maps[m].cells[idx].key;
    if key in s.where {
      var loc := s.where[key];
      assert IsLiveAt(s, key, loc);
      if loc.m == m { HoldersAgree(cfg, s.maps[m], key, idx, loc.idx); }
      else if loc.m < m { ClosedHasNone(cfg, s.maps[loc.m], key, loc.idx); }
      else { ClosedHasNone(cfg, s.maps[m], key, idx); }
    }
  }

  // ---------------------------------------------------------------- searches

  lemma SearchStarts(s: State, key: Key)
    requires WhereOk(s)
    ensures NotMissed(s, key, 0, 0, |s.maps|, |s.hist| - 1)
  {
    if key !in s.where { assert key !in s.hist[|s.hist| - 1]; }
  }

  /** One probe: the key is not in this cell; if the search may stop here, it is not in this sub-map. */
  lemma SearchAdvances(cfg: Config, s: State, key: Key, m: nat, j: nat, idx: nat, limit: nat, t0: nat)
    requires MapsOk(cfg, s) && ProbingOk(cfg, s, key, m, j, idx) && NotMissed(s, key, m, j, limit, t0)
    requires var c := s.maps[m].cells[idx]; !(c.Live? && c.key == key)
    ensures NotMissed(s, key, m, j + 1, limit, t0)
    ensures s.maps[m].cells[idx].Empty? || s.maps[m].cells[idx].Locked? || j + 1 >= |s.maps[m].cells| ==>
      NotMissed(s, key, m + 1, 0, limit, t0)
  {
    if !AbsentDuring(s, key, t0) && s.where[key].m == m {
      var loc := s.where[key];
      assert CellOk(cfg, s.maps[m], loc.idx);
      var r := s.maps[m].cells[loc.idx].rank;
      assert j < r ==> SettledNot(cfg, s.maps[m], key, j);
    }
  }

  lemma MissOk(cfg: Config, s: State, t: Tid, key: Key, n: nat, m: nat, t0: nat)
    requires SearchableOk(cfg, s) && t0 < |s.hist| && n <= s.numMaps && (n == 0 ==> m == 0) && (n > 0 ==> m < n)
    requires NotMissed(s, key, m + 1, 0, if n == 0 then |s.maps| else n, t0)
    ensures (m + 1 < n ==> InMap(s, m + 1, 0)) && ThreadHolds(cfg, s, t, AfterMiss(cfg, s, key, n, m, t0))
  {
  }

  lemma ZeroOk(cfg: Config, s: State, t: Tid, key: Key, n: nat, m: nat, t0: nat)
    requires SearchableOk(cfg, s) && t0 < |s.hist| && m < n <= s.numMaps
    requires NotMissed(s, key, m + 1, 0, n, t0)
    ensures (m + 1 < n ==> InMap(s, m + 1, 0)) && ThreadHolds(cfg, s, t, AfterZero(cfg, s, key, n, m, t0))
  {
  }

  lemma CallKeeps(cfg: Config, s: State, t: Tid, s': State)
    requires Inv(cfg, s) && Call(cfg, s, t, s')
    ensures Inv(cfg, s') && Evolves(s, t, s')
  {
    var key, val :| Starts(cfg, s, t, s', key, val);
    SearchStarts(s, key);
    LocalStep(cfg, s, t, s'.threads[t]);
  }

  /** The memory facts a search needs. */
  ghost predicate SearchableOk(cfg: Config, s: State) {
    MapsOk(cfg, s) && WhereOk(s) && GrowthOk(s)
  }

  lemma FindCellNext(cfg: Config, s: State, t: Tid, s': State)
    requires SearchableOk(cfg, s) && DoFindCell(cfg, s, t, s') && ThreadHolds(cfg, s, t, s.threads[t])
    ensures ThreadHolds(cfg, s, t, s'.threads[t])
  {
    assert ThreadOk(cfg, s, t, s.threads[t]);
    var pc := s.threads[t];
    var c := s.maps[pc.m].cells[pc.idx];
    if !(c.Live? && c.key == pc.key) {
      SearchAdvances(cfg, s, pc.key, pc.m, pc.j, pc.idx, if pc.n == 0 then |s.maps| else pc.n, pc.t0);
      if c.Empty? || pc.j + 1 >= |s.maps[pc.m].cells| { MissOk(cfg, s, t, pc.key, pc.n, pc.m, pc.t0); }
    }
  }

  lemma FindCellKeeps(cfg: Config, s: State, t: Tid, s': State)
    requires Inv(cfg, s) && DoFindCell(cfg, s, t, s')
    ensures Inv(cfg, s') && Evolves(s, t, s')
  {
    FindCellNext(cfg, s, t, s');
    LocalStep(cfg, s, t, s'.threads[t]);
  }

  /**
   * numMapsAllocated_ is read after the primary sub-map was searched; a key absent from the rest
   * then was inserted meanwhile.
   */
  lemma FindMapsKeeps(cfg: Config, s: State, t: Tid, s': State)
    requires Inv(cfg, s) && DoFindMaps(cfg, s, t, s')
    ensures Inv(cfg, s') && Evolves(s, t, s')
  {
    var pc := s.threads[t];
    assert ThreadOk(cfg, s, t, pc);
    PublishedOnly(s, pc.key);
    MissOk(cfg, s, t, pc.key, s.numMaps, 0, pc.t0);
    LocalStep(cfg, s, t, s'.threads[t]);
  }

  /** Live keys are only in published sub-maps: nobody inserts into one that is merely stored. */
  lemma PublishedOnly(s: State, key: Key)
    requires WhereOk(s) && GrowthOk(s)
    ensures key in s.where ==> s.where[key].m < s.numMaps
  {
  }

  lemma EraseBeginKeeps(cfg: Config, s: State, t: Tid, s': State)
    requires Inv(cfg, s) && DoEraseBegin(cfg, s, t, s')
    ensures Inv(cfg, s') && Evolves(s, t, s')
  {
    var pc := s.threads[t];
    assert ThreadOk(cfg, s, t, pc);
    SearchStarts(s, pc.key);
    PublishedOnly(s, pc.key);
    LocalStep(cfg, s, t, s'.threads[t]);
  }

  lemma EraseCellNext(cfg: Config, s: State, t: Tid, s': State)
    requires SearchableOk(cfg, s) && DoEraseCell(cfg, s, t, s') && ThreadHolds(cfg, s, t, s.threads[t])
    ensures ThreadHolds(cfg, s, t, s'.threads[t])
  {
    assert ThreadOk(cfg, s, t, s.threads[t]);
    var pc := s.threads[t];
    var c := s.maps[pc.m].cells[pc.idx];
    if !(c.Live? && c.key == pc.key) {
      SearchAdvances(cfg, s, pc.key, pc.m, pc.j, pc.idx, pc.n, pc.t0);
      if c.Empty? || c.Locked? || pc.j + 1 >= |s.maps[pc.m].cells| { ZeroOk(cfg, s, t, pc.key, pc.n, pc.m, pc.t0); }
    }
  }

  lemma EraseCellKeeps(cfg: Config, s: State, t: Tid, s': State)
    requires Inv(cfg, s) && DoEraseCell(cfg, s, t, s')
    ensures Inv(cfg, s') && Evolves(s, t, s')
  {
    EraseCellNext(cfg, s, t, s');
    LocalStep(cfg, s, t, s'.threads[t]);
  }

  // ---------------------------------------------------------------- inserts, no cell changed

  /** The sub-map will never take the key: go on to the next one with it recorded as closed. */
  lemma FullOk(cfg: Config, s: State, t: Tid, f: Frame)
    requires MapsOk(cfg, s) && GrowthOk(s) && f.t0 < |s.hist| && 1 <= f.n <= s.numMaps && f.m <= f.n
    requires ClosedBelow(cfg, s, f.key, f.m) && f.m < |s.maps| && Closed(cfg, s.maps[f.m], f.key)
    ensures (f.m + 1 < f.n ==> InMap(s, f.m + 1, 0)) && ThreadHolds(cfg, s, t, AfterFull(cfg, s, f))
  {
    assert ClosedBelow(cfg, s, f.key, f.m + 1);
  }

  lemma RecheckCellKeeps(cfg: Config, s: State, t: Tid, s': State)
    requires Inv(cfg, s) && DoRecheckCell(cfg, s, t, s')
    ensures Inv(cfg, s') && Evolves(s, t, s')
  {
    var f := s.threads[t].f;
    assert ThreadOk(cfg, s, t, s.threads[t]);
    if s.maps[f.m].cells[f.idx].Empty? {
      assert ClosedAt(cfg, s.maps[f.m], f.key, f.j);
      FullOk(cfg, s, t, f);
    }
    LocalStep(cfg, s, t, s'.threads[t]);
  }

  lemma CompareNext(cfg: Config, s: State, t: Tid, s': State)
    requires SearchableOk(cfg, s) && DoCompare(cfg, s, t, s') && ThreadHolds(cfg, s, t, s.threads[t])
    ensures ThreadHolds(cfg, s, t, s'.threads[t])
  {
    assert ThreadOk(cfg, s, t, s.threads[t]);
    var f := s.threads[t].f;
    var c := s.maps[f.m].cells[f.idx];
    if c.Erased? || (c.Live? && c.key != f.key) {
      assert SettledNot(cfg, s.maps[f.m], f.key, f.j);
      assert Passed(cfg, s.maps[f.m], f.key, f.j + 1);
      if f.j + 1 >= |s.maps[f.m].cells| {
        assert ClosedAt(cfg, s.maps[f.m], f.key, f.j + 1);
        FullOk(cfg, s, t, f);
      }
    }
  }

  lemma CompareKeeps(cfg: Config, s: State, t: Tid, s': State)
    requires Inv(cfg, s) && DoCompare(cfg, s, t, s')
    ensures Inv(cfg, s') && Evolves(s, t, s')
  {
    CompareNext(cfg, s, t, s');
    LocalStep(cfg, s, t, s'.threads[t]);
  }

  /** The steps of an insert that only read. */
  ghost predicate ReadStep(cfg: Config, s: State, t: Tid, s': State) {
    || DoInsBegin(cfg, s, t, s') || DoLoadCell(s, t, s') || DoCheckFull(s, t, s') || DoWaitFlag(s, t, s')
    || DoCountEntry(s, t, s') || DoSpinLocked(s, t, s') || DoWaitGrow(cfg, s, t, s')
  }

  ghost predicate LocalOk(cfg: Config, s: State, t: Tid, s': State)
    requires s.numMaps <= |s.maps| && t in s.threads
  {
    && t in s'.threads && s' == Goto(s, t, s'.threads[t]) && ThreadHolds(cfg, s, t, s'.threads[t])
    && SameLocks(s.threads[t], s'.threads[t])
    && forall m :: IsPending(s'.threads[t], m) <==> IsPending(s.threads[t], m)
  }

  lemma InsBeginNext(cfg: Config, s: State, t: Tid, s': State)
    requires SearchableOk(cfg, s) && DoInsBegin(cfg, s, t, s') && ThreadHolds(cfg, s, t, s.threads[t])
    ensures LocalOk(cfg, s, t, s')
  {
    assert ThreadOk(cfg, s, t, s.threads[t]);
  }

  lemma LoadCellNext(cfg: Config, s: State, t: Tid, s': State)
    requires SearchableOk(cfg, s) && DoLoadCell(s, t, s') && ThreadHolds(cfg, s, t, s.threads[t])
    ensures LocalOk(cfg, s, t, s')
  {
    assert ThreadOk(cfg, s, t, s.threads[t]);
  }

  lemma SpinLockedNext(cfg: Config, s: State, t: Tid, s': State)
    requires SearchableOk(cfg, s) && DoSpinLocked(s, t, s') && ThreadHolds(cfg, s, t, s.threads[t])
    ensures LocalOk(cfg, s, t, s')
  {
    assert ThreadOk(cfg, s, t, s.threads[t]);
    assert s.threads[t := s.threads[t]] == s.threads;
  }

  lemma CheckFullNext(cfg: Config, s: State, t: Tid, s': State)
    requires SearchableOk(cfg, s) && DoCheckFull(s, t, s') && ThreadHolds(cfg, s, t, s.threads[t])
    ensures LocalOk(cfg, s, t, s')
  {
    assert ThreadOk(cfg, s, t, s.threads[t]);
    assert BarrierOk(s.maps[s.threads[t].f.m]);
  }

  lemma WaitFlagNext(cfg: Config, s: State, t: Tid, s': State)
    requires SearchableOk(cfg, s) && DoWaitFlag(s, t, s') && ThreadHolds(cfg, s, t, s.threads[t])
    ensures LocalOk(cfg, s, t, s')
  {
    assert ThreadOk(cfg, s, t, s.threads[t]);
    assert BarrierOk(s.maps[s.threads[t].f.m]);
  }

  lemma CountEntryNext(cfg: Config, s: State, t: Tid, s': State)
    requires SearchableOk(cfg, s) && DoCountEntry(s, t, s') && ThreadHolds(cfg, s, t, s.threads[t])
    ensures LocalOk(cfg, s, t, s')
  {
    assert ThreadOk(cfg, s, t, s.threads[t]);
  }

  lemma WaitGrowNext(cfg: Config, s: State, t: Tid, s': State)
    requires SearchableOk(cfg, s) && DoWaitGrow(cfg, s, t, s') && ThreadHolds(cfg, s, t, s.threads[t])
    ensures LocalOk(cfg, s, t, s')
  {
    assert ThreadOk(cfg, s, t, s.threads[t]);
    assert s.threads[t := s.threads[t]] == s.threads;
  }

  lemma ReadKeeps(cfg: Config, s: State, t: Tid, s': State)
    requires Inv(cfg, s) && ReadStep(cfg, s, t, s')
    ensures Inv(cfg, s') && Evolves(s, t, s')
  {
    if DoInsBegin(cfg, s, t, s') { InsBeginNext(cfg, s, t, s'); }
    else if DoLoadCell(s, t, s') { LoadCellNext(cfg, s, t, s'); }
    else if DoSpinLocked(s, t, s') { SpinLockedNext(cfg, s, t, s'); }
    else if DoCheckFull(s, t, s') { CheckFullNext(cfg, s, t, s'); }
    else if DoWaitFlag(s, t, s') { WaitFlagNext(cfg, s, t, s'); }
    else if DoCountEntry(s, t, s') { CountEntryNext(cfg, s, t, s'); }
    else { WaitGrowNext(cfg, s, t, s'); }
    LocalStep(cfg, s, t, s'.threads[t]);
  }

  // ---------------------------------------------------------------- inserts, counters and flags

  lemma IncPendingNext(cfg: Config, s: State, t: Tid, s': State)
    requires DoIncPending(s, t, s') && s.numMaps <= |s.maps| && PendingOk(s) && ThreadHolds(cfg, s, t, s.threads[t])
    ensures SameCells(s, s') && PendingOk(s') && ThreadHolds(cfg, s', t, s'.threads[t])
  {
    assert ThreadOk(cfg, s, t, s.threads[t]);
    var pc := s'.threads[t];
    PendingKept(s, t, s', pc);
    InsSame(cfg, s, s', t, pc.at, pc.f);
  }

  lemma IncPendingKeeps(cfg: Config, s: State, t: Tid, s': State)
    requires Inv(cfg, s) && DoIncPending(s, t, s')
    ensures Inv(cfg, s') && Evolves(s, t, s')
  {
    assert ThreadOk(cfg, s, t, s.threads[t]);
    IncPendingNext(cfg, s, t, s');
    CounterStep(cfg, s, t, s', s'.threads[t]);
  }

  /** What InsOk says survives changes of pending counters. */
  lemma InsSame(cfg: Config, s: State, s': State, t: Tid, at: Label, f: Frame)
    requires InsOk(cfg, s, t, at, f) && s.numMaps <= |s.maps| && SameCells(s, s')
    requires forall m | 0 <= m < |s.maps| :: s'.maps[m].sealed == s.maps[m].sealed
    ensures InsOk(cfg, s', t, at, f)
  {
    var n := if Growing(at) then f.n else f.m;
    if !Leaving(at) {
      forall e | 0 <= e < n ensures Closed(cfg, s'.maps[e], f.key) {
        var i: nat :| ClosedAt(cfg, s.maps[e], f.key, i);
        PassedStable(cfg, s.maps[e], t, s'.maps[e], f.key, i);
        assert ClosedAt(cfg, s'.maps[e], f.key, i);
      }
      if !Growing(at) { PassedStable(cfg, s.maps[f.m], t, s'.maps[f.m], f.key, f.j); }
    }
  }

  lemma DecPendingNext(cfg: Config, s: State, t: Tid, s': State)
    requires DoDecPending(s, t, s') && s.numMaps <= |s.maps| && ThreadHolds(cfg, s, t, s.threads[t])
    ensures SameCells(s, s') && ThreadHolds(cfg, s', t, s'.threads[t])
    ensures forall m | 0 <= m < |s.maps| :: s'.maps[m] == s.maps[m].(pending := s'.maps[m].pending)
  {
    assert ThreadOk(cfg, s, t, s.threads[t]);
    var pc := s'.threads[t];
    if pc.Ins? { DecPendingIns(cfg, s, t, s', pc.at, pc.f); }
  }

  lemma DecPendingIns(cfg: Config, s: State, t: Tid, s': State, at: Label, f: Frame)
    requires DoDecPending(s, t, s') && s'.threads[t] == Ins(at, f) && s.numMaps <= |s.maps|
    requires InsOk(cfg, s, t, s.threads[t].at, s.threads[t].f)
    ensures InsOk(cfg, s', t, at, f)
  {
    assert InsOk(cfg, s, t, at, f);
    InsSame(cfg, s, s', t, at, f);
  }

  lemma DecPendingCounts(s: State, t: Tid, s': State)
    requires DoDecPending(s, t, s')
    ensures SameLocks(s.threads[t], s'.threads[t])
    ensures |s'.maps| == |s.maps|
    ensures forall m | 0 <= m < |s.maps| ::
      && !IsPending(s'.threads[t], m)
      && s'.maps[m].pending == s.maps[m].pending - (if IsPending(s.threads[t], m) then 1 else 0)
  {
  }

  lemma DecPendingKeeps(cfg: Config, s: State, t: Tid, s': State)
    requires Inv(cfg, s) && DoDecPending(s, t, s')
    ensures Inv(cfg, s') && Evolves(s, t, s')
  {
    DecPendingNext(cfg, s, t, s');
    DecPendingCounts(s, t, s');
    PendingKept(s, t, s', s'.threads[t]);
    CounterStep(cfg, s, t, s', s'.threads[t]);
  }

  lemma SetFullKeeps(cfg: Config, s: State, t: Tid, s': State)
    requires Inv(cfg, s) && DoSetFull(s, t, s')
    ensures Inv(cfg, s') && Evolves(s, t, s')
  {
    assert ThreadOk(cfg, s, t, s.threads[t]);
    PendingKept(s, t, s', s'.threads[t]);
    CounterStep(cfg, s, t, s', s'.threads[t]);
  }

  lemma SetNoPendingNext(cfg: Config, s: State, t: Tid, s': State)
    requires DoSetNoPending(s, t, s') && s.numMaps <= |s.maps| && PendingOk(s) && ThreadHolds(cfg, s, t, s.threads[t])
    ensures SameCells(s, s') && PendingOk(s') && ThreadHolds(cfg, s', t, s'.threads[t])
  {
    assert ThreadOk(cfg, s, t, s.threads[t]);
    var pc := s'.threads[t];
    PendingKept(s, t, s', pc);
    InsSame(cfg, s, s', t, pc.at, pc.f);
  }

  lemma SetNoPendingKeeps(cfg: Config, s: State, t: Tid, s': State)
    requires Inv(cfg, s) && DoSetNoPending(s, t, s')
    ensures Inv(cfg, s') && Evolves(s, t, s')
  {
    assert ThreadOk(cfg, s, t, s.threads[t]);
    SetNoPendingNext(cfg, s, t, s');
    CounterStep(cfg, s, t, s', s'.threads[t]);
  }

  /**
   * The full barrier: reading zero pending inserts while isFull_ is set means that no thread is
   * between its isFull_ check and its unlock, and no cell is locked.
   */
  lemma ZeroPendingSeals(cfg: Config, s: State, m: nat)
    requires Inv(cfg, s) && m < |s.maps| && s.maps[m].pending == 0
    ensures forall u | u in s.threads :: !IsPending(s.threads[u], m)
    ensures forall i | 0 <= i < |s.maps[m].cells| :: !s.maps[m].cells[i].Locked?
  {
    assert PendingSet(s.threads, m) == {};
    forall u | u in s.threads ensures !IsPending(s.threads[u], m) {
      assert u !in PendingSet(s.threads, m);
    }
  }

  lemma SealKeeps(cfg: Config, s: State, t: Tid, s': State)
    requires Inv(cfg, s) && DoWaitCount(s, t, s') && s.maps[s.threads[t].f.m].pending == 0
    ensures Inv(cfg, s') && Evolves(s, t, s')
  {
    var f := s.threads[t].f;
    assert InsOk(cfg, s, t, WaitCount, f) by { assert ThreadOk(cfg, s, t, s.threads[t]); }
    ZeroPendingSeals(cfg, s, f.m);
    PendingKept(s, t, s', s'.threads[t]);
    InsSealed(cfg, s, s', t, f);
    CounterStep(cfg, s, t, s', s'.threads[t]);
  }

  lemma WaitCountKeeps(cfg: Config, s: State, t: Tid, s': State)
    requires Inv(cfg, s) && DoWaitCount(s, t, s')
    ensures Inv(cfg, s') && Evolves(s, t, s')
  {
    if s.maps[s.threads[t].f.m].pending == 0 {
      SealKeeps(cfg, s, t, s');
    } else {
      assert ThreadOk(cfg, s, t, s.threads[t]);
      LocalStep(cfg, s, t, s'.threads[t]);
    }
  }

  lemma InsSealed(cfg: Config, s: State, s': State, t: Tid, f: Frame)
    requires InsOk(cfg, s, t, WaitCount, f) && s.numMaps <= |s.maps| && SameCells(s, s')
    requires s'.maps[f.m].sealed
    ensures InsOk(cfg, s', t, SetNoPending, f)
  {
    forall e | 0 <= e < f.m ensures Closed(cfg, s'.maps[e], f.key) {
      var i: nat :| ClosedAt(cfg, s.maps[e], f.key, i);
      PassedStable(cfg, s.maps[e], t, s'.maps[e], f.key, i);
      assert ClosedAt(cfg, s'.maps[e], f.key, i);
    }
    PassedStable(cfg, s.maps[f.m], t, s'.maps[f.m], f.key, f.j);
  }

  // ---------------------------------------------------------------- steps that write a cell

  /** Shape of a step of t that writes one cell, and moves t without changing what is pending. */
  ghost predicate WritesCell(cfg: Config, s: State, t: Tid, m: nat, idx: nat, c: Cell, s': State) {
    && t in s.threads && t in s'.threads && s'.threads == s.threads[t := s'.threads[t]]
    && m < |s.maps| && m < s.numMaps && idx < |s.maps[m].cells|
    && s'.maps == SetCell(s, m, idx, c).maps && s'.numMaps == s.numMaps && s'.growth == s.growth
    && GoodWrite(cfg, s, t, m, idx, c)
    && (c.Locked? ==> c.owner == t && HoldsLock(s'.threads[t], m, idx))
    && (forall e | 0 <= e < |s.maps| :: IsPending(s'.threads[t], e) <==> IsPending(s.threads[t], e))
    && (forall e, i | HoldsLock(s.threads[t], e, i) && !(e == m && i == idx) :: HoldsLock(s'.threads[t], e, i))
  }

  /** How the abstract map may move along with the write. */
  ghost predicate WhereMoves(s: State, t: Tid, s': State) {
    && WhereOk(s') && s.hist <= s'.hist && |s'.hist| <= |s.hist| + 1 && s.who <= s'.who
    && |s'.hist| - |s.hist| == |s'.who| - |s.who|
    && (|s'.who| > |s.who| ==> s'.who[|s.who|] == t)
    && forall k | k in s.where :: (k in s'.where && s'.where[k] == s.where[k]) || AbsentDuring(s', k, |s.hist|)
  }

  lemma WriteMemory(cfg: Config, s: State, t: Tid, m: nat, idx: nat, c: Cell, s': State)
    requires MemoryOk(cfg, s) && WritesCell(cfg, s, t, m, idx, c, s') && WhereMoves(s, t, s')
    ensures MemoryOk(cfg, s')
  {
    WriteKeepsMaps(cfg, s, t, m, idx, c);
    MapsSame(cfg, SetCell(s, m, idx, c), s');
    PendingKept(s, t, s', s'.threads[t]);
    WriteKeepsLocks(s, t, m, idx, c, s');
  }

  lemma WriteEvolves(cfg: Config, s: State, t: Tid, m: nat, idx: nat, c: Cell, s': State)
    requires s.numMaps <= |s.maps| && WritesCell(cfg, s, t, m, idx, c, s') && WhereMoves(s, t, s')
    ensures Evolves(s, t, s') && SealsIdle(s, t, s') && OthersSame(s, t, s')
  {
  }

  lemma WriteStep(cfg: Config, s: State, t: Tid, m: nat, idx: nat, c: Cell, s': State)
    requires Inv(cfg, s) && WritesCell(cfg, s, t, m, idx, c, s') && WhereMoves(s, t, s')
    requires ThreadHolds(cfg, s', t, s'.threads[t])
    ensures Inv(cfg, s') && Evolves(s, t, s')
  {
    WriteMemory(cfg, s, t, m, idx, c, s');
    WriteEvolves(cfg, s, t, m, idx, c, s');
    Assemble(cfg, s, t, s');
  }

  /** Locking, filling and giving up a cell are invisible in the abstract map. */
  lemma InvisibleWrite(s: State, t: Tid, m: nat, idx: nat, c: Cell, s': State)
    requires WhereOk(s) && m < |s.maps| && idx < |s.maps[m].cells| && !s.maps[m].cells[idx].Live? && !c.Live?
    requires s'.maps == SetCell(s, m, idx, c).maps && s'.where == s.where && s'.hist == s.hist && s'.who == s.who
    ensures WhereMoves(s, t, s')
  {
    forall k | k in s'.where ensures IsLiveAt(s', k, s'.where[k]) { assert IsLiveAt(s, k, s.where[k]); }
  }

  lemma MapsSame(cfg: Config, s: State, s': State)
    requires MapsOk(cfg, s) && LayersOk(cfg, s) && s'.maps == s.maps
    ensures MapsOk(cfg, s') && LayersOk(cfg, s')
  {
  }

  lemma WriteKeepsLocks(s: State, t: Tid, m: nat, idx: nat, c: Cell, s': State)
    requires LocksOk(s) && t in s.threads && t in s'.threads
    requires m < |s.maps| && idx < |s.maps[m].cells| && s'.maps == SetCell(s, m, idx, c).maps
    requires s'.threads == s.threads[t := s'.threads[t]]
    requires c.Locked? ==> c.owner == t && HoldsLock(s'.threads[t], m, idx)
    requires forall e, i | HoldsLock(s.threads[t], e, i) && !(e == m && i == idx) :: HoldsLock(s'.threads[t], e, i)
    ensures LocksOk(s')
  {
  }

  lemma TryLockTakes(cfg: Config, s: State, t: Tid, s': State, f: Frame)
    requires Inv(cfg, s) && DoTryLock(s, t, s') && s.threads[t].f == f && s.maps[f.m].cells[f.idx].Empty?
    requires InsOk(cfg, s, t, TryLock, f)
    ensures Inv(cfg, s') && Evolves(s, t, s')
  {
    var c := Locked(t, f.key, f.j, None);
    ProbeAfterWrite(cfg, s, t, f, c, s', Construct);
    InvisibleWrite(s, t, f.m, f.idx, c, s');
    WriteStep(cfg, s, t, f.m, f.idx, c, s');
  }

  lemma TryLockKeeps(cfg: Config, s: State, t: Tid, s': State)
    requires Inv(cfg, s) && DoTryLock(s, t, s')
    ensures Inv(cfg, s') && Evolves(s, t, s')
  {
    var f := s.threads[t].f;
    assert InsOk(cfg, s, t, TryLock, f) by { assert ThreadOk(cfg, s, t, s.threads[t]); }
    if s.maps[f.m].cells[f.idx].Empty? {
      TryLockTakes(cfg, s, t, s', f);
    } else {
      LocalStep(cfg, s, t, s'.threads[t]);
    }
  }

  /** The writer keeps what it knew about the probe sequence up to its own cell. */
  lemma ProbeAfterWrite(cfg: Config, s: State, t: Tid, f: Frame, c: Cell, s': State, at: Label)
    requires s.numMaps <= |s.maps| && t in s.threads && s.threads[t].Ins? && s.threads[t].f == f
    requires at.Construct? || at.Unlock? || at.UndoLock?
    requires InsOk(cfg, s, t, s.threads[t].at, f) && !Growing(s.threads[t].at) && !Leaving(s.threads[t].at)
    requires c.Locked? && c.owner == t && c.key == f.key && c.rank == f.j && (at.Unlock? ==> c.built == Some(f.val))
    requires CellEvolves(s.maps[f.m], s.maps[f.m].cells[f.idx], t, c)
    requires s'.maps == SetCell(s, f.m, f.idx, c).maps && s'.numMaps == s.numMaps && s'.hist == s.hist
    ensures InsOk(cfg, s', t, at, f)
  {
    forall e | 0 <= e < f.m ensures Closed(cfg, s'.maps[e], f.key) { assert s'.maps[e] == s.maps[e]; }
    PassedStable(cfg, s.maps[f.m], t, s'.maps[f.m], f.key, f.j);
  }

  lemma ConstructBuilds(cfg: Config, s: State, t: Tid, s': State, f: Frame)
    requires Inv(cfg, s) && DoConstruct(s, t, s') && s.threads[t].f == f && s'.threads[t].at.Unlock?
    requires InsOk(cfg, s, t, Construct, f)
    ensures Inv(cfg, s') && Evolves(s, t, s')
  {
    var c := Locked(t, f.key, f.j, Some(f.val));
    assert BarrierOk(s.maps[f.m]);
    ProbeAfterWrite(cfg, s, t, f, c, s', Unlock);
    InvisibleWrite(s, t, f.m, f.idx, c, s');
    WriteStep(cfg, s, t, f.m, f.idx, c, s');
  }

  lemma ConstructKeeps(cfg: Config, s: State, t: Tid, s': State)
    requires Inv(cfg, s) && DoConstruct(s, t, s')
    ensures Inv(cfg, s') && Evolves(s, t, s')
  {
    var f := s.threads[t].f;
    assert InsOk(cfg, s, t, Construct, f) by { assert ThreadOk(cfg, s, t, s.threads[t]); }
    if s'.threads[t].at.Unlock? {
      ConstructBuilds(cfg, s, t, s', f);
    } else {
      LocalStep(cfg, s, t, s'.threads[t]);
    }
  }

  lemma UndoLockKeeps(cfg: Config, s: State, t: Tid, s': State)
    requires Inv(cfg, s) && DoUndoLock(s, t, s')
    ensures Inv(cfg, s') && Evolves(s, t, s')
  {
    var f := s.threads[t].f;
    assert ThreadOk(cfg, s, t, s.threads[t]);
    InvisibleWrite(s, t, f.m, f.idx, Empty, s');
    WriteStep(cfg, s, t, f.m, f.idx, Empty, s');
  }

  lemma UnlockKeeps(cfg: Config, s: State, t: Tid, s': State)
    requires Inv(cfg, s) && DoUnlock(s, t, s')
    ensures Inv(cfg, s') && Evolves(s, t, s') && s.threads[t].f.key !in s.where
  {
    var f := s.threads[t].f;
    assert InsOk(cfg, s, t, Unlock, f) by { assert ThreadOk(cfg, s, t, s.threads[t]); }
    LockedKeyIsNew(cfg, s, f.m, f.idx);
    UnlockMovesWhere(s, t, f, s');
    WriteStep(cfg, s, t, f.m, f.idx, Live(f.key, f.val, f.j), s');
  }

  lemma UnlockMovesWhere(s: State, t: Tid, f: Frame, s': State)
    requires WhereOk(s) && f.m < |s.maps| && f.idx < |s.maps[f.m].cells| && s.maps[f.m].cells[f.idx].Locked?
    requires f.key !in s.where
    requires s'.maps == SetCell(s, f.m, f.idx, Live(f.key, f.val, f.j)).maps
    requires s'.where == s.where[f.key := Loc(f.m, f.idx, f.val)] && s'.hist == s.hist + [s'.where]
    requires s'.who == s.who + [t]
    ensures WhereMoves(s, t, s')
  {
    forall k | k in s'.where ensures IsLiveAt(s', k, s'.where[k]) {
      if k != f.key { assert IsLiveAt(s, k, s.where[k]); }
    }
  }

  lemma EraseCasHit(cfg: Config, s: State, t: Tid, s': State, m: nat, idx: nat)
    requires Inv(cfg, s) && DoEraseCas(cfg, s, t, s') && m == s.threads[t].m && idx == s.threads[t].idx
    requires s.maps[m].cells[idx].Live? && s.maps[m].cells[idx].key == s.threads[t].key
    ensures Inv(cfg, s') && Evolves(s, t, s')
  {
    assert ThreadOk(cfg, s, t, s.threads[t]);
    EraseKeepsWhere(s, t, m, idx, s');
    assert s.threads[t].key !in s'.hist[|s.hist|];
    WriteStep(cfg, s, t, m, idx, Erased, s');
  }

  lemma EraseCasMiss(cfg: Config, s: State, t: Tid, s': State)
    requires SearchableOk(cfg, s) && DoEraseCas(cfg, s, t, s') && ThreadHolds(cfg, s, t, s.threads[t])
    requires var c := s.maps[s.threads[t].m].cells[s.threads[t].idx]; !(c.Live? && c.key == s.threads[t].key)
    ensures ThreadHolds(cfg, s, t, s'.threads[t])
  {
    assert ThreadOk(cfg, s, t, s.threads[t]);
    var pc := s.threads[t];
    ZeroOk(cfg, s, t, pc.key, pc.n, pc.m, pc.t0);
  }

  lemma EraseCasKeeps(cfg: Config, s: State, t: Tid, s': State)
    requires Inv(cfg, s) && DoEraseCas(cfg, s, t, s')
    ensures Inv(cfg, s') && Evolves(s, t, s')
  {
    var pc := s.threads[t];
    var c := s.maps[pc.m].cells[pc.idx];
    if c.Live? && c.key == pc.key {
      EraseCasHit(cfg, s, t, s', pc.m, pc.idx);
    } else {
      assert ThreadOk(cfg, s, t, pc);
      EraseCasMiss(cfg, s, t, s');
      LocalStep(cfg, s, t, s'.threads[t]);
    }
  }

  lemma EraseKeepsWhere(s: State, t: Tid, m: nat, idx: nat, s': State)
    requires WhereOk(s) && m < |s.maps| && idx < |s.maps[m].cells| && s.maps[m].cells[idx].Live?
    requires s'.maps == SetCell(s, m, idx, Erased).maps
    requires s'.where == s.where - {s.maps[m].cells[idx].key} && s'.hist == s.hist + [s'.where] && s'.who == s.who + [t]
    ensures WhereOk(s')
  {
    forall k | k in s'.where ensures IsLiveAt(s', k, s'.where[k]) {
      assert IsLiveAt(s, k, s.where[k]);
    }
  }

  // ---------------------------------------------------------------- growth

  lemma TryGrowKeeps(cfg: Config, s: State, t: Tid, s': State)
    requires Inv(cfg, s) && DoTryGrow(s, t, s')
    ensures Inv(cfg, s') && Evolves(s, t, s')
  {
    assert ThreadOk(cfg, s, t, s.threads[t]);
    if s'.threads[t].Ins? && s'.threads[t].at.StoreMap? {
      GrowthStep(cfg, s, t, s');
    } else {
      LocalStep(cfg, s, t, s'.threads[t]);
    }
  }

  /** Steps that move the growth of the map along without touching an existing sub-map. */
  lemma GrowthStep(cfg: Config, s: State, t: Tid, s': State)
    requires Inv(cfg, s) && t in s.threads && t in s'.threads && s'.threads == s.threads[t := s'.threads[t]]
    requires s'.where == s.where && s'.hist == s.hist && s'.who == s.who && s.numMaps <= s'.numMaps
    requires s'.maps == s.maps || exists capacity: nat :: capacity >= 1 && s'.maps == s.maps + [FreshMap(capacity)]
    requires forall m :: !IsPending(s'.threads[t], m) && !IsPending(s.threads[t], m)
    requires forall m, i :: !HoldsLock(s.threads[t], m, i)
    requires s.growth.Settled? || s.growth.owner == t
    requires GrowthOk(s') && ThreadHolds(cfg, s', t, s'.threads[t])
    ensures Inv(cfg, s') && Evolves(s, t, s')
  {
    GrowthKeepsMaps(cfg, s, t, s');
    forall m | 0 <= m < |s'.maps| ensures s'.maps[m].pending == |PendingSet(s'.threads, m)| {
      PendingMove(s.threads, t, s'.threads[t], m);
      if m == |s.maps| { NothingPendingYet(cfg, s, m); }
    }
    Assemble(cfg, s, t, s');
  }

  lemma GrowthKeepsMaps(cfg: Config, s: State, t: Tid, s': State)
    requires MapsOk(cfg, s) && LayersOk(cfg, s) && WhereOk(s) && LocksOk(s)
    requires t in s.threads && t in s'.threads && s'.threads == s.threads[t := s'.threads[t]]
    requires forall m, i :: !HoldsLock(s.threads[t], m, i)
    requires s'.where == s.where && s'.hist == s.hist && s'.who == s.who
    requires s'.maps == s.maps || exists capacity: nat :: capacity >= 1 && s'.maps == s.maps + [FreshMap(capacity)]
    ensures MapsOk(cfg, s') && LayersOk(cfg, s') && WhereOk(s') && LocksOk(s')
    ensures forall m | 0 <= m < |s.maps| :: SubMapEvolves(s.maps[m], t, s'.maps[m])
  {
    forall m | 0 <= m < |s'.maps| ensures SubMapOk(cfg, s'.maps[m]) {
      if m < |s.maps| { assert s'.maps[m] == s.maps[m]; }
    }
    LayersKept(cfg, s, t, s');
    forall k | k in s'.where ensures IsLiveAt(s', k, s'.where[k]) { assert IsLiveAt(s, k, s.where[k]); }
  }

  lemma NothingPendingYet(cfg: Config, s: State, m: nat)
    requires Inv(cfg, s) && m >= |s.maps|
    ensures PendingSet(s.threads, m) == {}
  {
    forall u | u in s.threads ensures !IsPending(s.threads[u], m) {
      assert ThreadOk(cfg, s, u, s.threads[u]);
    }
  }

  lemma StoreMapKeeps(cfg: Config, s: State, t: Tid, s': State)
    requires Inv(cfg, s) && DoStoreMap(s, t, s')
    ensures Inv(cfg, s') && Evolves(s, t, s')
  {
    var f := s.threads[t].f;
    assert ThreadOk(cfg, s, t, s.threads[t]);
    ClosedBelowSame(cfg, s, s', f.key, f.n);
    GrowthStep(cfg, s, t, s');
  }

  lemma ClosedBelowSame(cfg: Config, s: State, s': State, key: Key, n: nat)
    requires ClosedBelow(cfg, s, key, n) && s.maps <= s'.maps
    ensures ClosedBelow(cfg, s', key, n)
  {
    forall e | 0 <= e < n ensures Closed(cfg, s'.maps[e], key) { assert s'.maps[e] == s.maps[e]; }
  }

  lemma PublishKeeps(cfg: Config, s: State, t: Tid, s': State)
    requires Inv(cfg, s) && DoPublish(cfg, s, t, s')
    ensures Inv(cfg, s') && Evolves(s, t, s')
  {
    var f := s.threads[t].f;
    assert ThreadOk(cfg, s, t, s.threads[t]);
    ClosedBelowSame(cfg, s, s', f.key, f.n);
    GrowthStep(cfg, s, t, s');
  }

  // ---------------------------------------------------------------- every step

  lemma InsStepKeeps(cfg: Config, s: State, t: Tid, s': State)
    requires Inv(cfg, s) && InsStep(cfg, s, t, s')
    ensures Inv(cfg, s') && Evolves(s, t, s')
  {
    if ReadStep(cfg, s, t, s') { ReadKeeps(cfg, s, t, s'); }
    else if DoIncPending(s, t, s') { IncPendingKeeps(cfg, s, t, s'); }
    else if DoDecPending(s, t, s') { DecPendingKeeps(cfg, s, t, s'); }
    else if DoWaitCount(s, t, s') { WaitCountKeeps(cfg, s, t, s'); }
    else if DoSetNoPending(s, t, s') { SetNoPendingKeeps(cfg, s, t, s'); }
    else if DoRecheckCell(cfg, s, t, s') { RecheckCellKeeps(cfg, s, t, s'); }
    else if DoTryLock(s, t, s') { TryLockKeeps(cfg, s, t, s'); }
    else if DoConstruct(s, t, s') { ConstructKeeps(cfg, s, t, s'); }
    else if DoUnlock(s, t, s') { UnlockKeeps(cfg, s, t, s'); }
    else if DoUndoLock(s, t, s') { UndoLockKeeps(cfg, s, t, s'); }
    else if DoSetFull(s, t, s') { SetFullKeeps(cfg, s, t, s'); }
    else if DoCompare(cfg, s, t, s') { CompareKeeps(cfg, s, t, s'); }
    else if DoTryGrow(s, t, s') { TryGrowKeeps(cfg, s, t, s'); }
    else if DoStoreMap(s, t, s') { StoreMapKeeps(cfg, s, t, s'); }
    else { PublishKeeps(cfg, s, t, s'); }
  }

  lemma StepKeeps(cfg: Config, s: State, t: Tid, s': State)
    requires Inv(cfg, s) && Step(cfg, s, t, s')
    ensures Inv(cfg, s') && Evolves(s, t, s')
  {
    if Call(cfg, s, t, s') { CallKeeps(cfg, s, t, s'); }
    else if InsStep(cfg, s, t, s') { InsStepKeeps(cfg, s, t, s'); }
    else if DoFindCell(cfg, s, t, s') { FindCellKeeps(cfg, s, t, s'); }
    else if DoFindMaps(cfg, s, t, s') { FindMapsKeeps(cfg, s, t, s'); }
    else if DoEraseBegin(cfg, s, t, s') { EraseBeginKeeps(cfg, s, t, s'); }
    else if DoEraseCell(cfg, s, t, s') { EraseCellKeeps(cfg, s, t, s'); }
    else { EraseCasKeeps(cfg, s, t, s'); }
  }

  // ---------------------------------------------------------------- whole runs

  lemma InitOk(cfg: Config, s: State)
    requires Init(s)
    ensures Inv(cfg, s)
  {
    assert PendingSet(s.threads, 0) == {};
  }

  lemma {:induction false} RunInv(cfg: Config, run: seq<State>, sched: seq<Tid>, i: nat)
    requires Run(cfg, run, sched) && i < |run|
    ensures Inv(cfg, run[i])
  {
    if i == 0 {
      InitOk(cfg, run[0]);
    } else {
      RunInv(cfg, run, sched, i - 1);
      assert Follows(cfg, run, sched, i - 1);
      StepKeeps(cfg, run[i - 1], sched[i - 1], run[i]);
    }
  }

  /**
   * Global key uniqueness: in every reachable state, over all sub-maps, at most one cell holds a
   * given key, counting cells still being built.
   */
  lemma AtMostOneHolder(cfg: Config, run: seq<State>, sched: seq<Tid>, j: nat, key: Key, m: nat, i: nat,
                        m': nat, i': nat)
    requires Run(cfg, run, sched) && j < |run|
    requires m < |run[j].maps| && i < |run[j].maps[m].cells| && m' < |run[j].maps| && i' < |run[j].maps[m'].cells|
    requires Holds(run[j].maps[m].cells[i], key) && Holds(run[j].maps[m'].cells[i'], key)
    ensures m == m' && i == i'
  {
    RunInv(cfg, run, sched, j);
    HoldersAreOne(cfg, run[j], key, m, i, m', i');
  }

  /**
   * Probe invariant: before a live or locked key, its probe sequence meets only tombstones and other
   * live keys, so a search that stops at an empty cell, or an erase that stops at an empty or locked
   * one, has not missed it.
   */
  lemma ProbeInvariant(cfg: Config, run: seq<State>, sched: seq<Tid>, j: nat, m: nat, i: nat)
    requires Run(cfg, run, sched) && j < |run| && m < |run[j].maps| && i < |run[j].maps[m].cells|
    requires run[j].maps[m].cells[i].Live? || run[j].maps[m].cells[i].Locked?
    ensures var sm, c := run[j].maps[m], run[j].maps[m].cells[i];
      && c.rank < |sm.cells| && ProbeAt(cfg, c.key, |sm.cells|, c.rank) == i
      && forall n | 0 <= n < c.rank ::
           var d := sm.cells[ProbeAt(cfg, c.key, |sm.cells|, n)]; d.Erased? || (d.Live? && d.key != c.key)
  {
    RunInv(cfg, run, sched, j);
    var sm := run[j].maps[m];
    assert SubMapOk(cfg, sm) && CellOk(cfg, sm, i);
    forall n | 0 <= n < sm.cells[i].rank
      ensures var d := sm.cells[ProbeAt(cfg, sm.cells[i].key, |sm.cells|, n)];
        d.Erased? || (d.Live? && d.key != sm.cells[i].key)
    {
      assert SettledNot(cfg, sm, sm.cells[i].key, n);
    }
  }

  lemma HoldersAreOne(cfg: Config, s: State, key: Key, m: nat, i: nat, m': nat, i': nat)
    requires MapsOk(cfg, s) && LayersOk(cfg, s)
    requires m < |s.maps| && i < |s.maps[m].cells| && m' < |s.maps| && i' < |s.maps[m'].cells|
    requires Holds(s.maps[m].cells[i], key) && Holds(s.maps[m'].cells[i'], key)
    ensures m == m' && i == i'
  {
    if m == m' { HoldersAgree(cfg, s.maps[m], key, i, i'); }
    else if m < m' { ClosedHasNone(cfg, s.maps[m], key, i); }
    else { ClosedHasNone(cfg, s.maps[m'], key, i'); }
  }

  lemma RunStep(cfg: Config, run: seq<State>, sched: seq<Tid>, i: nat)
    requires Run(cfg, run, sched) && i < |sched|
    ensures Evolves(run[i], sched[i], run[i + 1])
  {
    RunInv(cfg, run, sched, i);
    assert Follows(cfg, run, sched, i);
    StepKeeps(cfg, run[i], sched[i], run[i + 1]);
  }

  lemma {:induction false} RunEvolves(cfg: Config, run: seq<State>, sched: seq<Tid>, i: nat, j: nat, m: nat)
    requires Run(cfg, run, sched) && i <= j < |run| && m < |run[i].maps|
    ensures m < |run[j].maps| && |run[j].maps[m].cells| == |run[i].maps[m].cells|
    ensures run[i].maps[m].sealed ==> run[j].maps[m].sealed
    ensures run[i].maps[m].sealed ==>
      forall x | 0 <= x < |run[i].maps[m].cells| && run[i].maps[m].cells[x].Empty? :: run[j].maps[m].cells[x].Empty?
    decreases j
  {
    if i < j {
      RunEvolves(cfg, run, sched, i, j - 1, m);
      RunStep(cfg, run, sched, j - 1);
      assert SubMapEvolves(run[j - 1].maps[m], sched[j - 1], run[j].maps[m]);
    }
  }

  /**
   * Full barrier, forever: once a thread has left the wait of insertInternal on sub-map m, then in
   * every later state isFull_ is set (whether as 1 or 2), no thread stands between a successful
   * isFull_ check and its unlock there, and every cell that was empty is still empty.
   */
  lemma BarrierHolds(cfg: Config, run: seq<State>, sched: seq<Tid>, i: nat, j: nat, t: Tid)
    requires Run(cfg, run, sched) && i <= j < |run|
    requires t in run[i].threads && run[i].threads[t].Ins? && run[i].threads[t].at.SetNoPending?
    ensures var m := run[i].threads[t].f.m;
      && m < |run[i].maps| && m < |run[j].maps| && |run[j].maps[m].cells| == |run[i].maps[m].cells|
      && run[j].maps[m].isFull != 0
      && (forall u | u in run[j].threads && run[j].threads[u].Ins? && run[j].threads[u].f.m == m ::
            var at := run[j].threads[u].at; !at.TryLock? && !at.Construct? && !at.Unlock? && !at.UndoLock?)
      && (forall x | 0 <= x < |run[i].maps[m].cells| && run[i].maps[m].cells[x].Empty? ::
          run[j].maps[m].cells[x].Empty?)
  {
    RunInv(cfg, run, sched, i);
    RunInv(cfg, run, sched, j);
    assert ThreadOk(cfg, run[i], t, run[i].threads[t]);
    var m := run[i].threads[t].f.m;
    RunEvolves(cfg, run, sched, i, j, m);
    SealedIsQuiet(cfg, run[j], m);
  }

  lemma SealedIsQuiet(cfg: Config, s: State, m: nat)
    requires Inv(cfg, s) && m < |s.maps| && s.maps[m].sealed
    ensures s.maps[m].isFull != 0
    ensures forall u | u in s.threads && s.threads[u].Ins? && s.threads[u].f.m == m ::
      var at := s.threads[u].at; !at.TryLock? && !at.Construct? && !at.Unlock? && !at.UndoLock?
  {
    assert BarrierOk(s.maps[m]);
    forall u | u in s.threads && s.threads[u].Ins? && s.threads[u].f.m == m
      ensures var at := s.threads[u].at; !at.TryLock? && !at.Construct? && !at.Unlock? && !at.UndoLock?
    {
      assert ThreadOk(cfg, s, u, s.threads[u]);
    }
  }

  // ---------------------------------------------------------------- linearizability

  /** aux value of the call's start, for the program counters that carry one. */
  ghost function StartOf(pc: Pc): (t0: Option<nat>) {
    match pc
    case Idle => None
    case Threw => None
    case InsBegin(_, _, t0) => Some(t0)
    case Ins(_, f) => Some(f.t0)
    case FindCell(_, _, _, _, _, t0) => Some(t0)
    case FindMaps(_, t0) => Some(t0)
    case EraseBegin(_, t0) => Some(t0)
    case EraseCell(_, _, _, _, _, t0) => Some(t0)
    case EraseCas(_, _, _, _, _, t0) => Some(t0)
    case Inserted(f) => Some(f.t0)
    case Present(_, _, _, t0, _) => Some(t0)
    case Missing(_, t0) => Some(t0)
    case Gone(_, t0, _) => Some(t0)
  }

  /** What the caller asked for. */
  datatype Request = ToInsert(key: Key, val: Value) | ToFind(key: Key) | ToErase(key: Key)

  /** The program counter belongs to a call with this request, or is an answer to it. */
  ghost predicate Serves(q: Request, pc: Pc) {
    match q
    case ToInsert(key, val) =>
      || pc.Threw?
      || (pc.Present? && pc.key == key)
      || (pc.InsBegin? && pc.key == key && pc.val == val)
      || ((pc.Ins? || pc.Inserted?) && pc.f.key == key && pc.f.val == val)
    case ToFind(key) => (pc.FindCell? || pc.FindMaps? || pc.Present? || pc.Missing?) && pc.key == key
    case ToErase(key) =>
      (pc.EraseBegin? || pc.EraseCell? || pc.EraseCas? || pc.Missing? || pc.Gone?) && pc.key == key
  }

  /** The first program counter of a call with this request. */
  ghost predicate Begins(q: Request, pc: Pc) { Serves(q, pc) && (pc.InsBegin? || pc.FindCell? || pc.EraseBegin?) }

  /** The call has changed the abstract map. */
  ghost predicate Effective(pc: Pc) {
    pc.Inserted? || pc.Gone? || (pc.Ins? && (pc.at.DecDone? || pc.at.CountEntry? || pc.at.SetFull?))
  }

  /** Thread t made a call for q at step i of the run and has not made another one up to state j. */
  ghost predicate Within(run: seq<State>, sched: seq<Tid>, t: Tid, q: Request, i: nat, j: nat)
    requires j < |run| == |sched| + 1
  {
    && i < j && sched[i] == t
    && t in run[i].threads && Returned(run[i].threads[t]) && t in run[i + 1].threads && Begins(q, run[i + 1].threads[t])
    && (forall k | i < k < j && sched[k] == t :: t in run[k].threads && !Returned(run[k].threads[t]))
    && t in run[j].threads
  }

  /** In state j thread t is still at work on that call, or stands at an answer to it. */
  ghost predicate InCall(run: seq<State>, sched: seq<Tid>, t: Tid, q: Request, i: nat, j: nat)
    requires j < |run| == |sched| + 1
  {
    Within(run, sched, t, q, i, j) && Serves(q, run[j].threads[t])
  }

  /** The request of the call goes on, or the call ends with an answer to it. */
  ghost predicate GoesOn(pc: Pc, pc': Pc) {
    && (pc.InsBegin? ==> Serves(ToInsert(pc.key, pc.val), pc'))
    && (pc.Ins? ==> Serves(ToInsert(pc.f.key, pc.f.val), pc'))
    && (pc.FindCell? || pc.FindMaps? ==> Serves(ToFind(pc.key), pc'))
    && (pc.EraseBegin? || pc.EraseCell? || pc.EraseCas? ==> Serves(ToErase(pc.key), pc'))
  }

  lemma ServesOn(q: Request, pc: Pc, pc': Pc)
    requires Serves(q, pc) && !Returned(pc) && GoesOn(pc, pc')
    ensures Serves(q, pc')
  {
  }

  ghost predicate PcMoves(pc: Pc, pc': Pc, now: int) {
    if Returned(pc) then (pc'.InsBegin? || pc'.FindCell? || pc'.EraseBegin?) && StartOf(pc') == Some(now) && now >= 0
    else GoesOn(pc, pc') && (pc'.Threw? || StartOf(pc') == StartOf(pc))
  }

  /** A step starts a call of its thread, recording the time, or carries the call on; the other threads stay. */
  ghost predicate CallMoves(s: State, u: Tid, s': State) {
    && u in s.threads && u in s'.threads && s'.threads == s.threads[u := s'.threads[u]]
    && PcMoves(s.threads[u], s'.threads[u], |s.hist| - 1)
  }

  /** The step has no effect on the abstract map. */
  ghost predicate NoEffect(s: State, u: Tid, s': State)
    requires u in s.threads && u in s'.threads
  {
    s'.where == s.where && (Effective(s'.threads[u]) <==> Effective(s.threads[u]) && !Returned(s.threads[u]))
  }

  lemma PendingMoves(cfg: Config, s: State, u: Tid, s': State)
    requires DoIncPending(s, u, s') || DoDecPending(s, u, s')
    ensures CallMoves(s, u, s') && NoEffect(s, u, s')
  {
  }

  lemma FullMoves(cfg: Config, s: State, u: Tid, s': State)
    requires DoWaitCount(s, u, s') || DoSetNoPending(s, u, s') || DoSetFull(s, u, s')
    ensures CallMoves(s, u, s') && NoEffect(s, u, s')
  {
  }

  lemma LocksMove(cfg: Config, s: State, u: Tid, s': State)
    requires DoTryLock(s, u, s') || DoConstruct(s, u, s') || DoUndoLock(s, u, s')
    ensures CallMoves(s, u, s') && NoEffect(s, u, s')
  {
  }

  lemma ProbesMove(cfg: Config, s: State, u: Tid, s': State)
    requires DoCompare(cfg, s, u, s') || DoRecheckCell(cfg, s, u, s')
    ensures CallMoves(s, u, s') && NoEffect(s, u, s')
  {
  }

  lemma LoadsMove(cfg: Config, s: State, u: Tid, s': State)
    requires DoInsBegin(cfg, s, u, s') || DoLoadCell(s, u, s') || DoCheckFull(s, u, s') || DoWaitFlag(s, u, s')
    ensures CallMoves(s, u, s') && NoEffect(s, u, s')
  {
  }

  lemma WaitsMove(cfg: Config, s: State, u: Tid, s': State)
    requires DoCountEntry(s, u, s') || DoSpinLocked(s, u, s') || DoWaitGrow(cfg, s, u, s')
    ensures CallMoves(s, u, s') && NoEffect(s, u, s')
  {
  }

  lemma GrowthMoves(cfg: Config, s: State, u: Tid, s': State)
    requires DoTryGrow(s, u, s') || DoStoreMap(s, u, s') || DoPublish(cfg, s, u, s')
    ensures CallMoves(s, u, s') && NoEffect(s, u, s')
  {
  }

  lemma BeginMoves(cfg: Config, s: State, u: Tid, s': State)
    requires Call(cfg, s, u, s')
    ensures CallMoves(s, u, s') && NoEffect(s, u, s')
  {
  }

  lemma FindsMove(cfg: Config, s: State, u: Tid, s': State)
    requires DoFindCell(cfg, s, u, s') || DoFindMaps(cfg, s, u, s')
    ensures CallMoves(s, u, s') && NoEffect(s, u, s')
  {
  }

  lemma ErasesMove(cfg: Config, s: State, u: Tid, s': State)
    requires DoEraseBegin(cfg, s, u, s') || DoEraseCell(cfg, s, u, s')
    ensures CallMoves(s, u, s') && NoEffect(s, u, s')
  {
  }

  /** The store that unlocks a cell with its key adds that key, absent until then. */
  ghost predicate AddsKey(s: State, u: Tid, s': State) {
    && u in s.threads && u in s'.threads && s.threads[u].Ins? && s.threads[u].at.Unlock? && Effective(s'.threads[u])
    && var f := s.threads[u].f; f.key !in s.where && s'.where == s.where[f.key := Loc(f.m, f.idx, f.val)]
  }

  /** The compare-and-swap from the key to the tombstone removes that key, and the erase returns 1. */
  ghost predicate RemovesKey(s: State, u: Tid, s': State) {
    && u in s.threads && u in s'.threads && s.threads[u].EraseCas? && s'.threads[u].Gone?
    && s.threads[u].key in s.where && s'.where == s.where - {s.threads[u].key}
  }

  lemma UnlockMoves(cfg: Config, s: State, u: Tid, s': State)
    requires Inv(cfg, s) && DoUnlock(s, u, s')
    ensures CallMoves(s, u, s') && AddsKey(s, u, s')
  {
    UnlockKeeps(cfg, s, u, s');
  }

  lemma EraseCasMoves(cfg: Config, s: State, u: Tid, s': State)
    requires WhereOk(s) && DoEraseCas(cfg, s, u, s')
    ensures CallMoves(s, u, s') && (NoEffect(s, u, s') || RemovesKey(s, u, s'))
  {
  }

  lemma StepMoves(cfg: Config, s: State, u: Tid, s': State)
    requires Inv(cfg, s) && Step(cfg, s, u, s')
    ensures CallMoves(s, u, s') && (NoEffect(s, u, s') || AddsKey(s, u, s') || RemovesKey(s, u, s'))
  {
    if DoCountEntry(s, u, s') || DoSpinLocked(s, u, s') || DoWaitGrow(cfg, s, u, s') { WaitsMove(cfg, s, u, s'); }
    else if ReadStep(cfg, s, u, s') { LoadsMove(cfg, s, u, s'); }
    else if DoTryGrow(s, u, s') || DoStoreMap(s, u, s') || DoPublish(cfg, s, u, s') { GrowthMoves(cfg, s, u, s'); }
    else if DoUnlock(s, u, s') { UnlockMoves(cfg, s, u, s'); }
    else if DoTryLock(s, u, s') || DoConstruct(s, u, s') || DoUndoLock(s, u, s') { LocksMove(cfg, s, u, s'); }
    else if DoCompare(cfg, s, u, s') || DoRecheckCell(cfg, s, u, s') { ProbesMove(cfg, s, u, s'); }
    else if DoIncPending(s, u, s') || DoDecPending(s, u, s') { PendingMoves(cfg, s, u, s'); }
    else if InsStep(cfg, s, u, s') { FullMoves(cfg, s, u, s'); }
    else if Call(cfg, s, u, s') { BeginMoves(cfg, s, u, s'); }
    else if DoEraseCas(cfg, s, u, s') { EraseCasMoves(cfg, s, u, s'); }
    else if DoFindCell(cfg, s, u, s') || DoFindMaps(cfg, s, u, s') { FindsMove(cfg, s, u, s'); }
    else { ErasesMove(cfg, s, u, s'); }
  }

  /**
   * The abstract map changes at no step of any run except where an insert unlocks its cell with a key
   * that was absent, and where an erase turns a present key into a tombstone and returns 1.
   */
  lemma OnlyEffectsChange(cfg: Config, run: seq<State>, sched: seq<Tid>, k: nat)
    requires Run(cfg, run, sched) && k < |sched|
    ensures CallMoves(run[k], sched[k], run[k + 1])
    ensures || NoEffect(run[k], sched[k], run[k + 1]) || AddsKey(run[k], sched[k], run[k + 1])
            || RemovesKey(run[k], sched[k], run[k + 1])
  {
    RunInv(cfg, run, sched, k);
    assert Follows(cfg, run, sched, k);
    StepMoves(cfg, run[k], sched[k], run[k + 1]);
  }

  /**
   * In every reachable state the cells really hold the abstract map: a key is bound to a cell and a
   * value exactly when that cell is live with that key and value.
   */
  lemma AbstractionIsReal(cfg: Config, run: seq<State>, sched: seq<Tid>, j: nat, key: Key, loc: Loc)
    requires Run(cfg, run, sched) && j < |run|
    ensures (key in run[j].where && run[j].where[key] == loc) <==> IsLiveAt(run[j], key, loc)
  {
    RunInv(cfg, run, sched, j);
  }

  /** A thread that has ever made a call made its latest one at some step, and the recorded start is that moment. */
  lemma {:induction false} CallOrigin(cfg: Config, run: seq<State>, sched: seq<Tid>, t: Tid, j: nat)
    returns (q: Request, i: nat)
    requires Run(cfg, run, sched) && j < |run| && t in run[j].threads && !run[j].threads[t].Idle?
    ensures i < j && InCall(run, sched, t, q, i, j)
    ensures run[j].threads[t].Threw? || StartOf(run[j].threads[t]) == Some(|run[i].hist| - 1)
  {
    OnlyEffectsChange(cfg, run, sched, j - 1);
    var pc := run[j].threads[t];
    if sched[j - 1] == t && Returned(run[j - 1].threads[t]) {
      i := j - 1;
      q := if pc.InsBegin? then ToInsert(pc.key, pc.val) else if pc.FindCell? then ToFind(pc.key) else ToErase(pc.key);
    } else {
      q, i := CallOrigin(cfg, run, sched, t, j - 1);
      if sched[j - 1] == t { ServesOn(q, run[j - 1].threads[t], pc); }
    }
  }

  /** Step k is one of t's and changes the abstract map. */
  ghost predicate Changes(run: seq<State>, sched: seq<Tid>, t: Tid, k: nat)
    requires k < |sched| && |run| == |sched| + 1
  {
    sched[k] == t && run[k + 1].where != run[k].where
  }

  /**
   * A call changes the abstract map at one step if it is an insert past its unlock or an erase that
   * removed its key, and otherwise at none: not if it found, missed or threw.
   */
  lemma {:induction false} OneEffect(cfg: Config, run: seq<State>, sched: seq<Tid>, t: Tid, q: Request, i: nat, j: nat)
    returns (k: nat)
    requires Run(cfg, run, sched) && j < |run| && Within(run, sched, t, q, i, j)
    ensures if Effective(run[j].threads[t]) then
              i < k < j && forall n | i <= n < j :: Changes(run, sched, t, n) <==> n == k
            else forall n | i <= n < j :: !Changes(run, sched, t, n)
    decreases j
  {
    OnlyEffectsChange(cfg, run, sched, j - 1);
    k := j - 1;
    if j > i + 1 {
      assert Within(run, sched, t, q, i, j - 1);
      var k' := OneEffect(cfg, run, sched, t, q, i, j - 1);
      if sched[j - 1] != t || Effective(run[j - 1].threads[t]) { k := k'; }
    }
  }

  /** The record of the abstract map's values ends with the current one. */
  ghost predicate Recorded(s: State) { |s.hist| == |s.who| + 1 && s.hist[|s.hist| - 1] == s.where }

  lemma RunRecorded(cfg: Config, run: seq<State>, sched: seq<Tid>, i: nat)
    requires Run(cfg, run, sched) && i < |run|
    ensures Recorded(run[i])
  {
    RunInv(cfg, run, sched, i);
  }

  /** A step adds at most one value to the record, together with its own thread. */
  lemma RunRecords(cfg: Config, run: seq<State>, sched: seq<Tid>, i: nat)
    requires Run(cfg, run, sched) && i < |sched|
    ensures run[i].hist <= run[i + 1].hist && |run[i + 1].hist| <= |run[i].hist| + 1 && run[i].who <= run[i + 1].who
    ensures |run[i + 1].who| > |run[i].who| ==> run[i + 1].who[|run[i].who|] == sched[i]
  {
    RunStep(cfg, run, sched, i);
  }

  /** Every recorded abstract value was the abstract map of some state of the run. */
  lemma {:induction false} HistIsReal(cfg: Config, run: seq<State>, sched: seq<Tid>, i: nat, j: nat, h: nat)
    returns (k: nat)
    requires Run(cfg, run, sched) && i <= j < |run| && |run[i].hist| - 1 <= h < |run[j].hist|
    ensures i <= k <= j && run[k].where == run[j].hist[h]
    decreases j
  {
    RunRecorded(cfg, run, sched, j);
    if h == |run[j].hist| - 1 {
      k := j;
    } else {
      RunRecords(cfg, run, sched, j - 1);
      k := HistIsReal(cfg, run, sched, i, j - 1, h);
    }
  }

  /** Every recorded change of the abstract map was made by one step of the recorded thread. */
  lemma {:induction false} ChangeIsReal(cfg: Config, run: seq<State>, sched: seq<Tid>, i: nat, j: nat, h: nat)
    returns (k: nat)
    requires Run(cfg, run, sched) && i <= j < |run| && |run[i].hist| - 1 <= h < |run[j].hist| - 1
    ensures i <= k < j && |run[j].who| == |run[j].hist| - 1 && sched[k] == run[j].who[h]
    ensures run[k].where == run[j].hist[h] && run[k + 1].where == run[j].hist[h + 1]
    decreases j
  {
    RunRecorded(cfg, run, sched, j);
    RunRecorded(cfg, run, sched, j - 1);
    RunRecords(cfg, run, sched, j - 1);
    if h == |run[j - 1].hist| - 1 {
      k := j - 1;
    } else {
      k := ChangeIsReal(cfg, run, sched, i, j - 1, h);
    }
  }

  /** Where in the run the call of t that ended as `pc` took effect. */
  ghost predicate TakesEffect(run: seq<State>, sched: seq<Tid>, t: Tid, pc: Pc, k: nat)
    requires k < |run| == |sched| + 1
  {
    match pc
    case Inserted(f) =>
      && k < |sched| && sched[k] == t && f.key !in run[k].where
      && run[k + 1].where == run[k].where[f.key := Loc(f.m, f.idx, f.val)]
    case Gone(key, _, _) =>
      k < |sched| && sched[k] == t && key in run[k].where && run[k + 1].where == run[k].where - {key}
    case Present(key, m, idx, _, _) =>
      key in run[k].where && run[k].where[key].m == m && run[k].where[key].idx == idx
    case Missing(key, _) => key !in run[k].where
    case _ => false
  }

  lemma EffectAt(cfg: Config, run: seq<State>, sched: seq<Tid>, t: Tid, j: nat)
    returns (q: Request, i: nat, k: nat)
    requires Run(cfg, run, sched) && j < |run| && t in run[j].threads
    requires Returned(run[j].threads[t]) && !run[j].threads[t].Idle? && !run[j].threads[t].Threw?
    ensures InCall(run, sched, t, q, i, j) && i <= k <= j && TakesEffect(run, sched, t, run[j].threads[t], k)
    ensures Effective(run[j].threads[t]) ==> k < j
  {
    var pc := run[j].threads[t];
    q, i := CallOrigin(cfg, run, sched, t, j);
    RunInv(cfg, run, sched, j);
    assert ThreadOk(cfg, run[j], t, pc);
    match pc {
      case Inserted(f) => k := ChangeIsReal(cfg, run, sched, i, j, f.lin);
      case Gone(key, t0, lin) => k := ChangeIsReal(cfg, run, sched, i, j, lin);
      case Present(key, m, idx, t0, lin) => k := HistIsReal(cfg, run, sched, i, j, lin);
      case Missing(key, t0) =>
        var h: nat :| t0 <= h < |run[j].hist| && key !in run[j].hist[h];
        k := HistIsReal(cfg, run, sched, i, j, h);
    }
  }

  /**
   * Linearizability.  Each completed insert, find or erase takes effect at one moment k between the
   * first step i of the call and its return: an insert that returns true adds the key there, an
   * erase that returns 1 removes it there, and in every other case the answer is what the abstract
   * map says there.  The call changes the abstract map nowhere else.
   */
  lemma Linearizable(cfg: Config, run: seq<State>, sched: seq<Tid>, t: Tid, j: nat)
    returns (q: Request, i: nat, k: nat)
    requires Run(cfg, run, sched) && j < |run| && t in run[j].threads
    requires Returned(run[j].threads[t]) && !run[j].threads[t].Idle? && !run[j].threads[t].Threw?
    ensures InCall(run, sched, t, q, i, j) && i <= k <= j && TakesEffect(run, sched, t, run[j].threads[t], k)
    ensures forall n | i <= n < j :: Changes(run, sched, t, n) <==> Effective(run[j].threads[t]) && n == k
  {
    q, i, k := EffectAt(cfg, run, sched, t, j);
    var e := OneEffect(cfg, run, sched, t, q, i, j);
    if Effective(run[j].threads[t]) { EffectChanges(run, sched, t, run[j].threads[t], k); }
  }

  lemma EffectChanges(run: seq<State>, sched: seq<Tid>, t: Tid, pc: Pc, k: nat)
    requires k < |run| == |sched| + 1 && TakesEffect(run, sched, t, pc, k) && (pc.Inserted? || pc.Gone?)
    ensures k < |sched| && Changes(run, sched, t, k)
  {
    var key := if pc.Inserted? then pc.f.key else pc.key;
    assert key in run[k].where <==> key !in run[k + 1].where;
  }

  // ---------------------------------------------------------------- the guards of the steps exclude nothing

  /** The accesses of an insert are always in bounds and its pending counter never underflows. */
  lemma InsertAccessesAreSafe(cfg: Config, s: State, t: Tid)
    requires Inv(cfg, s) && t in s.threads && s.threads[t].Ins? && !Growing(s.threads[t].at)
    ensures var f := s.threads[t].f;
      && InMap(s, f.m, f.idx) && (f.m + 1 < f.n ==> InMap(s, f.m + 1, 0))
      && (IsPending(s.threads[t], f.m) ==> s.maps[f.m].pending >= 1) && |s.hist| >= 1
  {
    var f := s.threads[t].f;
    assert InsOk(cfg, s, t, s.threads[t].at, f) by { assert ThreadOk(cfg, s, t, s.threads[t]); }
    assert IsPending(s.threads[t], f.m) ==> t in PendingSet(s.threads, f.m);
  }

  /** The sub-map a grower or a waiter goes on to has been stored; publishing moves the count from n to n + 1. */
  lemma GrowthAccessesAreSafe(cfg: Config, s: State, t: Tid)
    requires Inv(cfg, s) && t in s.threads && s.threads[t].Ins?
    ensures s.threads[t].at.Publish? ==> s.threads[t].f.n == s.numMaps && InMap(s, s.threads[t].f.n, 0)
    ensures s.threads[t].at.WaitGrow? && s.threads[t].f.n < s.numMaps ==> InMap(s, s.threads[t].f.n, 0)
  {
    assert InsOk(cfg, s, t, s.threads[t].at, s.threads[t].f) by { assert ThreadOk(cfg, s, t, s.threads[t]); }
  }

  /** A call starts on a first sub-map that exists; every access of a find or erase is in bounds. */
  lemma SearchAccessesAreSafe(cfg: Config, s: State, t: Tid)
    requires Inv(cfg, s) && t in s.threads
    ensures |s.hist| >= 1 && InMap(s, 0, 0)
    ensures var pc := s.threads[t];
      pc.FindCell? || pc.EraseCell? || pc.EraseCas? ==>
        InMap(s, pc.m, pc.idx) && (pc.m + 1 < pc.n ==> InMap(s, pc.m + 1, 0))
  {
    assert ThreadOk(cfg, s, t, s.threads[t]);
  }
}
