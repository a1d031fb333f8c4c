/** What every run of the CancellationState machine keeps. */
module CancellationTokenProof {
  import opened Common
  import opened CallbackList
  import opened CancellationToken

  // ---------------------------------------------------------------- the packed word

  function Bit(b: bool, weight: nat): nat { if b then weight else 0 }

  function Pack(cancelled: bool, locked: bool, tokens: nat, sources: nat): nat {
    Bit(cancelled, CANCELLED) + Bit(locked, LOCKED) + TOKEN * tokens + SOURCE * sources
  }

  /** The four fields never run into each other, and each test of the code reads the field it means. */
  lemma Unpack(cancelled: bool, locked: bool, tokens: nat, sources: nat)
    requires tokens < MAX_COUNT && sources < MAX_COUNT
    ensures var w := Pack(cancelled, locked, tokens, sources);
      && w < WORD
      && IsCancelled(w) == cancelled && IsLocked(w) == locked && w / TOKEN % MAX_COUNT == tokens
      && w / SOURCE == sources
      && (CanBeCancelled(w) <==> sources > 0 || cancelled)
      && (w < 2 * TOKEN <==> sources == 0 && tokens <= 1)
      && (locked ==> (w < LOCKED + 2 * TOKEN <==> sources == 0 && tokens <= 1))
      && (w < SOURCE + TOKEN <==> sources == 0 || (sources == 1 && tokens == 0))
  {
  }

  // ---------------------------------------------------------------- invariant

  ghost predicate Cancelled(s: State) { !s.sig.NoSignal? }

  ghost predicate WordOk(s: State) {
    && |s.tokens| + |s.regs| < MAX_COUNT && |s.sources| < MAX_COUNT
    && s.word == Pack(Cancelled(s), s.lock.Some?, |s.tokens| + |s.regs|, |s.sources|)
    && s.tokens !! s.sources
  }

  /** The callback the signalling call has dequeued and is not finished with. */
  function Current(sig: Signal): Option<CbId> {
    if sig.SigUnlock? || sig.SigSetPtr? || sig.SigInvoke? || sig.SigRunning? || sig.SigClear? || sig.SigComplete?
    then Some(sig.c) else None
  }

  /** The signalling call will not look at c again. */
  ghost predicate NotTouched(sig: Signal, c: CbId) {
    Current(sig) == Some(c) ==> sig.SigRunning? && sig.gone
  }

  ghost predicate NewOk(s: State, c: CbId, cb: Callback) {
    && c !in s.regs && !cb.flagPtr && !cb.completed
    && (cb.life.Constructing? || cb.life.Inert? || cb.life.Dead?)
    && cb.runs <= 1 && (cb.runs == 1 ==> Cancelled(s)) && (cb.life.Constructing? ==> cb.runs == 0)
  }

  ghost predicate ListedOk(s: State, c: CbId, cb: Callback) {
    && cb.runs == 0 && !cb.flagPtr && !cb.completed
    && (cb.life.Constructing? || cb.life.Alive? || cb.life.Destroying?)
    && (c !in s.regs ==> cb.life.Constructing?)
  }

  ghost predicate TakenOk(s: State, c: CbId, cb: Callback) {
    && Cancelled(s) && s.signalId == Some(s.sig.t)
    && c in s.links.next && c in s.links.prevNext && s.links.prevNext[c] == Null
    && (cb.life.Constructing? || cb.life.Alive? || cb.life.Destroying? || cb.life.Dead?)
    && (c in s.regs <==> !cb.life.Dead?)
    && cb.runs <= 1
    && (Current(s.sig) != Some(c) ==> cb.runs == 1 && (cb.life.Dead? || (cb.completed && !cb.flagPtr)))
  }

  ghost predicate RemovedOk(s: State, c: CbId, cb: Callback) {
    cb.runs == 0 && (cb.life.Destroying? || cb.life.Dead?) && (c in s.regs <==> cb.life.Destroying?)
  }

  ghost predicate CbOk(s: State, c: CbId)
    requires c in s.cbs
  {
    var cb := s.cbs[c];
    && (cb.stage.Listed? <==> c in s.list)
    && (cb.stage.New? ==> NewOk(s, c, cb))
    && (cb.stage.Listed? ==> ListedOk(s, c, cb))
    && (cb.stage.Taken? ==> TakenOk(s, c, cb))
    && (cb.stage.Removed? ==> RemovedOk(s, c, cb))
  }

  ghost predicate CbsOk(s: State) {
    && (forall c | c in s.cbs :: CbOk(s, c))
    && (forall c | c in s.regs :: c in s.cbs)
    && (forall c | c in s.list :: c in s.cbs)
    && Represents(s.links, s.list)
  }

  ghost predicate SigLocks(sig: Signal) { sig.SigSetId? || sig.SigHead? || sig.SigUnlock? || sig.SigFinal? }

  /** What is known of the callback in hand at each point of the signalling call. */
  ghost predicate InHandOk(s: State) {
    Current(s.sig).Some? ==>
      var c := s.sig.c;
      && c in s.cbs && s.cbs[c].stage.Taken?
      && (!s.sig.anyMore ==> s.list == [])
      && (s.sig.SigUnlock? || s.sig.SigSetPtr? || s.sig.SigInvoke? ==> s.cbs[c].runs == 0)
      && (s.sig.SigRunning? || s.sig.SigClear? || s.sig.SigComplete? ==> s.cbs[c].runs == 1)
      && (if s.sig.SigRunning? && s.sig.gone then
            s.cbs[c].life.Dead? || (s.sig.t in s.threads && s.threads[s.sig.t] == RemRelease(c))
          else
            && !s.cbs[c].life.Dead? && !s.cbs[c].completed
            && (s.cbs[c].flagPtr <==> s.sig.SigInvoke? || s.sig.SigRunning? || s.sig.SigClear?))
  }

  ghost predicate SigOk(s: State) {
    && (s.lock == Some(Signaller) <==> SigLocks(s.sig))
    && (Cancelled(s) && !s.sig.SigDone? ==> s.sig.h in s.sources)
    && (Cancelled(s) && !s.sig.SigSetId? ==> s.signalId == Some(s.sig.t))
    && (s.sig.NoSignal? || s.sig.SigSetId? ==> s.signalId == None)
    && (s.sig.SigFinal? || s.sig.SigDone? ==> s.list == [])
    && InHandOk(s)
  }

  ghost predicate OpLocks(pc: Pc) {
    pc.AddLink? || pc.AddUnlock? || pc.RemCheck? || pc.RemUnlockDec? || pc.RemUnlock?
  }

  /** A listed callback without its reference is the one the lock holder is about to count. */
  ghost predicate InAdd(s: State, c: CbId) {
    && s.lock.Some? && s.lock.value.Op? && s.lock.value.t in s.threads
    && s.threads[s.lock.value.t].AddUnlock? && s.threads[s.lock.value.t].c == c
  }

  ghost predicate LockOk(s: State) {
    && (s.lock.Some? && s.lock.value.Op? ==> s.lock.value.t in s.threads && OpLocks(s.threads[s.lock.value.t]))
    && (forall c | c in s.list && c !in s.regs :: InAdd(s, c))
  }

  ghost predicate NoRefs(s: State) { s.tokens == {} && s.sources == {} && s.regs == {} }

  ghost predicate DyingOk(s: State) {
    && (s.dying.Some? <==> NoRefs(s))
    && (s.deleted ==> s.dying.Some?)
    && (s.dying.Some? && !s.deleted ==> s.dying.value in s.threads && s.threads[s.dying.value].DeleteState?)
  }

  ghost predicate ExclusiveOk(s: State) {
    forall u, h | u in s.threads && Moves(s.threads[u], h) :: OnlyUser(s, u, h)
  }

  ghost predicate OnlyUser(s: State, u: Tid, h: Handle) {
    forall v | v in s.threads && v != u :: !Uses(s.threads[v], h)
  }

  ghost predicate MemoryOk(s: State) {
    WordOk(s) && CbsOk(s) && SigOk(s) && LockOk(s) && DyingOk(s) && ExclusiveOk(s)
  }

  /** MemoryOk as one folded fact, for lemmas that only pass it on. */
  ghost predicate MemoryHolds(s: State) {
    forall x {:trigger MemoryOk(x)} | x == s :: MemoryOk(x)
  }

  // ---------------------------------------------------------------- threads

  ghost predicate Adding(s: State, u: Tid, c: CbId, h: Handle) {
    && h in s.tokens && c in s.cbs && s.cbs[c].life == Constructing(u) && s.cbs[c].stage.New? && s.cbs[c].runs == 0
  }

  ghost predicate Removing(s: State, u: Tid, c: CbId) {
    c in s.cbs && s.cbs[c].life == Destroying(u) && c in s.regs
  }

  ghost predicate Locks(s: State, u: Tid) { s.lock == Some(Op(u)) }

  ghost predicate ThreadOk(s: State, u: Tid, pc: Pc) {
    match pc
    case Idle => true
    case AddLoad(c, h, _) => Adding(s, u, c, h)
    case AddTry(c, h, _, seen) => Adding(s, u, c, h) && (IsCancelled(seen) ==> Cancelled(s))
    case AddLink(c, h, _) => Adding(s, u, c, h) && Locks(s, u) && !Cancelled(s)
    case AddUnlock(c, h, _) =>
      && h in s.tokens && c in s.cbs && s.cbs[c].life == Constructing(u) && s.cbs[c].stage.Listed? && c !in s.regs
      && Locks(s, u) && !Cancelled(s)
    case AddFinish(c) =>
      c in s.cbs && s.cbs[c].life == Constructing(u) && c in s.regs && (s.cbs[c].stage.Listed? || s.cbs[c].stage.Taken?)
    case RemLock(c) => Removing(s, u, c) && (s.cbs[c].stage.Listed? || s.cbs[c].stage.Taken?)
    case RemCheck(c) => Removing(s, u, c) && (s.cbs[c].stage.Listed? || s.cbs[c].stage.Taken?) && Locks(s, u)
    case RemUnlockDec(c) => Removing(s, u, c) && s.cbs[c].stage.Removed? && Locks(s, u)
    case RemUnlock(c) => Removing(s, u, c) && s.cbs[c].stage.Taken? && Locks(s, u)
    case RemWho(c) => Removing(s, u, c) && s.cbs[c].stage.Taken?
    case RemWait(c) => Removing(s, u, c) && s.cbs[c].stage.Taken? && s.signalId != Some(u)
    case RemRelease(c) => Removing(s, u, c) && s.cbs[c].stage.Taken? && NotTouched(s.sig, c)
    case ReqLoad(h) => h in s.sources
    case ReqTry(h, seen) => h in s.sources && (IsCancelled(seen) ==> Cancelled(s))
    case DeleteState => s.dying == Some(u) && !s.deleted
  }

  ghost predicate Inv(s: State) {
    && MemoryOk(s)
    && forall u {:trigger ThreadOk(s, u, s.threads[u])} | u in s.threads :: ThreadOk(s, u, s.threads[u])
  }

  /** ThreadOk as one folded fact, for lemmas that only pass it on. */
  ghost predicate ThreadHolds(s: State, u: Tid, pc: Pc) {
    forall x {:trigger ThreadOk(s, u, x)} | x == pc :: ThreadOk(s, u, x)
  }

  // ---------------------------------------------------------------- what thread u relies on

  /** Owned callbacks of u keep their life and reference; the signaller may take them off the list. */
  ghost predicate CbFrame(s: State, s': State, u: Tid, c: CbId)
    requires c in s.cbs
  {
    var cb := s.cbs[c];
    cb.life == Constructing(u) || cb.life == Destroying(u) ==>
      && c in s'.cbs && s'.cbs[c].life == cb.life && (c in s.regs <==> c in s'.regs)
      && (s'.cbs[c].stage == cb.stage || (cb.stage.Listed? && s'.cbs[c].stage.Taken? && !Locks(s, u)))
      && (cb.stage.New? ==> s'.cbs[c].runs == cb.runs)
      && (cb.stage.Taken? && NotTouched(s.sig, c) ==> NotTouched(s'.sig, c))
  }

  ghost predicate Frame(s: State, s': State, u: Tid, pc: Pc) {
    && (Cancelled(s) ==> Cancelled(s'))
    && (Locks(s, u) ==> Locks(s', u) && Cancelled(s') == Cancelled(s))
    && (forall h | Uses(pc, h) :: (h in s.tokens ==> h in s'.tokens) && (h in s.sources ==> h in s'.sources))
    && (forall c | c in s.cbs :: CbFrame(s, s', u, c))
    && (s.signalId.Some? ==> s'.signalId == s.signalId)
    && (s.dying == Some(u) && !s.deleted ==> s'.dying == s.dying && !s'.deleted)
  }

  lemma ThreadStable(s: State, s': State, u: Tid, pc: Pc)
    requires MemoryOk(s) && ThreadHolds(s, u, pc) && Frame(s, s', u, pc)
    ensures ThreadHolds(s', u, pc)
  {
    assert ThreadOk(s, u, pc);
    match pc
    case Idle =>
    case ReqLoad(h) => assert Uses(pc, h);
    case ReqTry(h, _) => assert Uses(pc, h);
    case DeleteState =>
    case AddLoad(c, h, _) => assert Uses(pc, h); assert CbFrame(s, s', u, c);
    case AddTry(c, h, _, _) => assert Uses(pc, h); assert CbFrame(s, s', u, c);
    case AddLink(c, h, _) => assert Uses(pc, h); assert CbFrame(s, s', u, c);
    case AddUnlock(c, h, _) => assert Uses(pc, h); assert CbFrame(s, s', u, c);
    case AddFinish(c) => assert CbFrame(s, s', u, c);
    case RemLock(c) => assert CbFrame(s, s', u, c);
    case RemCheck(c) => assert CbFrame(s, s', u, c);
    case RemUnlockDec(c) => assert CbFrame(s, s', u, c);
    case RemUnlock(c) => assert CbFrame(s, s', u, c);
    case RemWho(c) => assert CbFrame(s, s', u, c);
    case RemWait(c) => assert CbFrame(s, s', u, c); assert CbOk(s, c);
    case RemRelease(c) => assert CbFrame(s, s', u, c);
  }

  ghost predicate OthersFramed(s: State, t: Tid, s': State) {
    && t in s.threads && s'.threads.Keys == s.threads.Keys
    && forall u | u in s.threads && u != t :: s'.threads[u] == s.threads[u] && Frame(s, s', u, s.threads[u])
  }

  lemma Assemble(s: State, t: Tid, s': State)
    requires Inv(s) && MemoryHolds(s') && OthersFramed(s, t, s') && ThreadHolds(s', t, s'.threads[t])
    ensures Inv(s')
  {
    assert MemoryOk(s');
    forall u | u in s'.threads ensures ThreadOk(s', u, s'.threads[u]) {
      if u != t { ThreadStable(s, s', u, s.threads[u]); } else { assert ThreadOk(s', t, s'.threads[t]); }
    }
  }

  lemma UnpackWord(s: State)
    requires WordOk(s)
    ensures IsCancelled(s.word) == Cancelled(s) && IsLocked(s.word) == s.lock.Some?
    ensures s.word < WORD
    ensures CanBeCancelled(s.word) <==> |s.sources| > 0 || Cancelled(s)
    ensures s.word < 2 * TOKEN <==> |s.sources| == 0 && |s.tokens| + |s.regs| <= 1
    ensures s.lock.Some? ==> (s.word < LOCKED + 2 * TOKEN <==> |s.sources| == 0 && |s.tokens| + |s.regs| <= 1)
    ensures s.word < SOURCE + TOKEN <==> |s.sources| == 0 || (|s.sources| == 1 && |s.tokens| + |s.regs| == 0)
  {
    Unpack(Cancelled(s), s.lock.Some?, |s.tokens| + |s.regs|, |s.sources|);
  }

  // ---------------------------------------------------------------- steps that leave callbacks and list alone

  /** Everything but the word, the counts, the threads and the lock is as before. */
  ghost predicate SameCallbacks(s: State, s': State) {
    && s'.cbs == s.cbs && s'.links == s.links && s'.list == s.list && s'.sig == s.sig && s'.signalId == s.signalId
    && s'.regs == s.regs && s'.deleted == s.deleted
  }

  lemma CbsSame(s: State, s': State)
    requires CbsOk(s) && SameCallbacks(s, s')
    ensures CbsOk(s')
  {
    forall c | c in s'.cbs ensures CbOk(s', c) { assert CbOk(s, c); }
  }

  lemma FramedSame(s: State, t: Tid, s': State)
    requires SameCallbacks(s, s') && t in s.threads && s'.threads.Keys == s.threads.Keys
    requires forall u | u in s.threads && u != t :: s'.threads[u] == s.threads[u]
    requires forall u | u in s.threads && u != t && Locks(s, u) :: Locks(s', u)
    requires forall u, h | u in s.threads && u != t && Uses(s.threads[u], h) ::
      (h in s.tokens ==> h in s'.tokens) && (h in s.sources ==> h in s'.sources)
    requires s.dying.Some? && s.dying != Some(t) && !s.deleted ==> s'.dying == s.dying
    ensures OthersFramed(s, t, s')
  {
    forall u | u in s.threads && u != t ensures Frame(s, s', u, s.threads[u]) {
      forall c | c in s.cbs ensures CbFrame(s, s', u, c) { }
    }
  }

  /** A thread inside any call through a token, a source or a callback keeps the state alive. */
  lemma InUseNotDying(s: State, t: Tid)
    requires Inv(s) && t in s.threads && !s.threads[t].Idle? && !s.threads[t].DeleteState?
    ensures s.dying == None && !s.deleted
  {
    assert ThreadOk(s, t, s.threads[t]);
  }

  /** Loads, and compare-and-swaps that fail. */
  lemma PcOnly(s: State, t: Tid, pc: Pc)
    requires Inv(s) && t in s.threads && ThreadHolds(s, t, pc)
    requires !OpLocks(s.threads[t]) && !pc.DeleteState? && !s.threads[t].DeleteState?
    requires forall h | Uses(pc, h) :: Uses(s.threads[t], h) || Shareable(s, h)
    requires forall h | Moves(pc, h) :: Moves(s.threads[t], h)
    requires s.sig.SigRunning? && s.sig.gone && !s.cbs[s.sig.c].life.Dead? ==> s.sig.t != t || pc == s.threads[t]
    ensures Inv(Goto(s, t, pc))
  {
    var s' := Goto(s, t, pc);
    CbsSame(s, s');
    FramedSame(s, t, s');
    PcOnlyExclusive(s, t, pc);
    PcOnlyRest(s, t, pc);
    PcSame(s, s', t, pc);
    Assemble(s, t, s');
  }

  lemma PcOnlyExclusive(s: State, t: Tid, pc: Pc)
    requires ExclusiveOk(s) && t in s.threads
    requires forall h | Uses(pc, h) :: Uses(s.threads[t], h) || Shareable(s, h)
    requires forall h | Moves(pc, h) :: Moves(s.threads[t], h)
    ensures ExclusiveOk(Goto(s, t, pc))
  {
  }

  lemma PcOnlyRest(s: State, t: Tid, pc: Pc)
    requires WordOk(s) && SigOk(s) && LockOk(s) && DyingOk(s) && t in s.threads
    requires !OpLocks(s.threads[t]) && !pc.DeleteState? && !s.threads[t].DeleteState?
    requires s.sig.SigRunning? && s.sig.gone && !s.cbs[s.sig.c].life.Dead? ==> s.sig.t != t || pc == s.threads[t]
    ensures var s' := Goto(s, t, pc); WordOk(s') && SigOk(s') && LockOk(s') && DyingOk(s')
  {
  }

  lemma PcSame(s: State, s': State, t: Tid, pc: Pc)
    requires ThreadHolds(s, t, pc) && s' == s.(threads := s'.threads)
    ensures ThreadHolds(s', t, pc)
  {
    assert ThreadOk(s, t, pc);
  }

  // ---------------------------------------------------------------- loads and waits

  lemma LoadKeeps(s: State, t: Tid, s': State)
    requires Inv(s) && (DoAddLoad(s, t, s') || DoReqLoad(s, t, s'))
    ensures Inv(s')
  {
    assert ThreadOk(s, t, s.threads[t]);
    UnpackWord(s);
    PcOnly(s, t, s'.threads[t]);
  }

  lemma BeginRequestKeeps(s: State, t: Tid, s': State)
    requires Inv(s) && BeginRequest(s, t, s')
    ensures Inv(s')
  {
    var h :| h in s.sources && s' == Goto(s, t, ReqLoad(h));
    forall u | u in s.threads ensures !Moves(s.threads[u], h) { assert ThreadOk(s, u, s.threads[u]); }
    PcOnly(s, t, ReqLoad(h));
  }

  /** The wait ends only when the signalling call has made its last access to the callback. */
  lemma RemWaitKeeps(s: State, t: Tid, s': State)
    requires Inv(s) && DoRemWait(s, t, s')
    ensures Inv(s')
  {
    var c := s.threads[t].c;
    assert ThreadOk(s, t, s.threads[t]);
    assert CbOk(s, c);
    if s.cbs[c].completed { PcOnly(s, t, RemRelease(c)); }
  }

  // ---------------------------------------------------------------- reference counts

  lemma WordMoves(s: State, s': State, delta: int)
    requires WordOk(s) && s'.word == Add(s.word, delta)
    requires |s'.tokens| + |s'.regs| < MAX_COUNT && |s'.sources| < MAX_COUNT && s'.tokens !! s'.sources
    requires delta == Pack(Cancelled(s'), s'.lock.Some?, |s'.tokens| + |s'.regs|, |s'.sources|)
                    - Pack(Cancelled(s), s.lock.Some?, |s.tokens| + |s.regs|, |s.sources|)
    ensures WordOk(s')
  {
    Unpack(Cancelled(s'), s'.lock.Some?, |s'.tokens| + |s'.regs|, |s'.sources|);
  }

  /** Only the counts move: nothing else of the memory invariant is concerned. */
  ghost predicate CountsOnly(s: State, t: Tid, s': State) {
    && SameCallbacks(s, s') && s'.lock == s.lock && t in s.threads
    && t in s'.threads && s'.threads == s.threads[t := s'.threads[t]] && s.threads[t].Idle?
    && (s'.threads[t].Idle? || s'.threads[t].DeleteState?)
    && (forall h | SigUses(s.sig, h) && h in s.sources :: h in s'.sources)
    && (forall u, h | u in s.threads && u != t && Uses(s.threads[u], h) ::
        (h in s.tokens ==> h in s'.tokens) && (h in s.sources ==> h in s'.sources))
  }

  lemma CountsKeep(s: State, t: Tid, s': State)
    requires Inv(s) && CountsOnly(s, t, s') && WordOk(s') && DyingOk(s')
    requires s'.dying == s.dying || (s.dying.None? && s'.dying == Some(t))
    requires ThreadHolds(s', t, s'.threads[t])
    ensures Inv(s')
  {
    CbsSame(s, s');
    FramedSame(s, t, s');
    CountsKeepSig(s, t, s');
    Assemble(s, t, s');
  }

  lemma CountsKeepSig(s: State, t: Tid, s': State)
    requires SigOk(s) && LockOk(s) && ExclusiveOk(s) && CountsOnly(s, t, s')
    requires s.sig.SigRunning? && s.sig.gone && !s.cbs[s.sig.c].life.Dead? ==> s.sig.t != t
    ensures SigOk(s') && LockOk(s') && ExclusiveOk(s')
  {
    assert Cancelled(s) && !s.sig.SigDone? ==> SigUses(s.sig, s.sig.h);
    forall u, h | u in s'.threads && Moves(s'.threads[u], h) ensures OnlyUser(s', u, h) {
      assert OnlyUser(s, u, h);
    }
  }

  lemma CopyTokenKeeps(s: State, t: Tid, s': State)
    requires Inv(s) && CopyToken(s, t, s')
    ensures Inv(s')
  {
    var n: Handle :| n !in s.tokens + s.sources && s' == s.(word := Add(s.word, TOKEN), tokens := s.tokens + {n});
    WordMoves(s, s', TOKEN);
    assert s.threads[t := s.threads[t]] == s.threads;
    assert !NoRefs(s);
    CountsKeep(s, t, s');
  }

  lemma CopySourceKeeps(s: State, t: Tid, s': State)
    requires Inv(s) && CopySource(s, t, s')
    ensures Inv(s')
  {
    var n: Handle :| n !in s.tokens + s.sources && s' == s.(word := Add(s.word, SOURCE), sources := s.sources + {n});
    WordMoves(s, s', SOURCE);
    assert s.threads[t := s.threads[t]] == s.threads;
    assert !NoRefs(s);
    CountsKeep(s, t, s');
  }

  /** The fetch_sub that brings both counts to zero is the one whose caller deletes the state. */
  lemma DropTokenCounts(s: State, t: Tid, s': State, h: Handle)
    requires WordOk(s) && DyingOk(s) && t in s.threads && s.threads[t].Idle? && h in s.tokens
    requires s' == AfterDrop(s.(word := Add(s.word, -TOKEN), tokens := s.tokens - {h}), t, s.word, 2 * TOKEN)
    ensures WordOk(s') && DyingOk(s') && s.dying.None? && (s'.dying.Some? <==> NoRefs(s'))
  {
    UnpackWord(s);
    assert |s'.tokens| == |s.tokens| - 1;
    WordMoves(s, s', -TOKEN);
  }

  lemma DropSourceCounts(s: State, t: Tid, s': State, h: Handle)
    requires WordOk(s) && DyingOk(s) && t in s.threads && s.threads[t].Idle? && h in s.sources
    requires s' == AfterDrop(s.(word := Add(s.word, -SOURCE), sources := s.sources - {h}), t, s.word, SOURCE + TOKEN)
    ensures WordOk(s') && DyingOk(s') && s.dying.None? && (s'.dying.Some? <==> NoRefs(s'))
  {
    UnpackWord(s);
    assert |s'.sources| == |s.sources| - 1;
    WordMoves(s, s', -SOURCE);
  }

  lemma DropIsCountsOnly(s: State, t: Tid, s': State, h: Handle, before: nat, limit: nat)
    requires t in s.threads && s.threads[t].Idle? && Unused(s, h)
    requires s' == AfterDrop(s.(word := s'.word, tokens := s'.tokens, sources := s'.sources), t, before, limit)
    requires s.tokens - {h} <= s'.tokens && s.sources - {h} <= s'.sources && s.dying.None? && !s.deleted
    ensures CountsOnly(s, t, s') && ThreadHolds(s', t, s'.threads[t]) && (s'.dying == s.dying || s'.dying == Some(t))
  {
  }

  lemma DropTokenAt(s: State, t: Tid, s': State, h: Handle)
    requires Inv(s) && t in s.threads && s.threads[t].Idle? && h in s.tokens && Unused(s, h)
    requires s' == AfterDrop(s.(word := Add(s.word, -TOKEN), tokens := s.tokens - {h}), t, s.word, 2 * TOKEN)
    ensures Inv(s')
  {
    DropTokenCounts(s, t, s', h);
    DropIsCountsOnly(s, t, s', h, s.word, 2 * TOKEN);
    CountsKeep(s, t, s');
  }

  lemma DropTokenKeeps(s: State, t: Tid, s': State)
    requires Inv(s) && DropToken(s, t, s')
    ensures Inv(s')
  {
    var h: Handle :| h in s.tokens && Unused(s, h)
      && s' == AfterDrop(s.(word := Add(s.word, -TOKEN), tokens := s.tokens - {h}), t, s.word, 2 * TOKEN);
    DropTokenAt(s, t, s', h);
  }

  lemma DropSourceAt(s: State, t: Tid, s': State, h: Handle)
    requires Inv(s) && t in s.threads && s.threads[t].Idle? && h in s.sources && Unused(s, h)
    requires s' == AfterDrop(s.(word := Add(s.word, -SOURCE), sources := s.sources - {h}), t, s.word, SOURCE + TOKEN)
    ensures Inv(s')
  {
    DropSourceCounts(s, t, s', h);
    DropIsCountsOnly(s, t, s', h, s.word, SOURCE + TOKEN);
    CountsKeep(s, t, s');
  }

  lemma DropSourceKeeps(s: State, t: Tid, s': State)
    requires Inv(s) && DropSource(s, t, s')
    ensures Inv(s')
  {
    var h: Handle :| h in s.sources && Unused(s, h)
      && s' == AfterDrop(s.(word := Add(s.word, -SOURCE), sources := s.sources - {h}), t, s.word, SOURCE + TOKEN);
    DropSourceAt(s, t, s', h);
  }

  lemma DeleteKeeps(s: State, t: Tid, s': State)
    requires Inv(s) && DoDelete(s, t, s')
    ensures Inv(s')
  {
    assert ThreadOk(s, t, s.threads[t]);
    DeleteMemory(s, t, s');
    forall u | u in s.threads && u != t ensures Frame(s, s', u, s.threads[u]) {
      forall c | c in s.cbs ensures CbFrame(s, s', u, c) { }
    }
    Assemble(s, t, s');
  }

  lemma DeleteMemory(s: State, t: Tid, s': State)
    requires MemoryOk(s) && DoDelete(s, t, s') && s.dying == Some(t)
    ensures MemoryHolds(s')
  {
    forall c | c in s'.cbs ensures CbOk(s', c) { assert CbOk(s, c); }
  }

  // ---------------------------------------------------------------- steps on one callback

  /** Nothing about callbacks other than c changes. */
  ghost predicate OnlyTouches(s: State, s': State, c: CbId) {
    && s'.signalId == s.signalId
    && Current(s'.sig) == Current(s.sig) && Cancelled(s') == Cancelled(s) && (Cancelled(s) ==> s'.sig.t == s.sig.t)
    && (forall x | x != c ::
          && (x in s'.cbs <==> x in s.cbs) && (x in s'.list <==> x in s.list)
          && (x in s'.regs <==> x in s.regs))
    && (forall x | x in s.cbs && x != c :: s'.cbs[x] == s.cbs[x])
    && (forall x | x in s.cbs && x != c && s.cbs[x].stage.Taken? && x in s.links.next && x in s.links.prevNext ::
          x in s'.links.next && x in s'.links.prevNext && s'.links.prevNext[x] == s.links.prevNext[x])
  }

  lemma OthersOk(s: State, s': State, c: CbId)
    requires CbsOk(s) && OnlyTouches(s, s', c) && c in s'.cbs && CbOk(s', c) && Represents(s'.links, s'.list)
    ensures CbsOk(s')
  {
    forall x | x in s'.cbs ensures CbOk(s', x) {
      if x != c { assert CbOk(s, x); }
    }
  }

  /** Frame for a step of t on a callback that t owns, or that nobody owns. */
  lemma FramedOne(s: State, t: Tid, s': State, c: CbId)
    requires OnlyTouches(s, s', c) && t in s.threads && s'.threads.Keys == s.threads.Keys
    requires c in s.cbs ==>
      && !(s.cbs[c].life.Constructing? && s.cbs[c].life.owner != t)
      && !(s.cbs[c].life.Destroying? && s.cbs[c].life.owner != t)
    requires forall u | u in s.threads && u != t :: s'.threads[u] == s.threads[u]
    requires forall u | u in s.threads && u != t && Locks(s, u) :: Locks(s', u)
    requires forall u, h | u in s.threads && u != t && Uses(s.threads[u], h) ::
      (h in s.tokens ==> h in s'.tokens) && (h in s.sources ==> h in s'.sources)
    requires s.dying.Some? && s.dying != Some(t) && !s.deleted ==> s'.dying == s.dying && !s'.deleted
    requires forall x | x != c && NotTouched(s.sig, x) :: NotTouched(s'.sig, x)
    ensures OthersFramed(s, t, s')
  {
    forall u | u in s.threads && u != t ensures Frame(s, s', u, s.threads[u]) {
      forall x | x in s.cbs ensures CbFrame(s, s', u, x) { }
    }
  }

  /** The parts of the invariant that a step on one callback without lock or count changes leaves alone. */
  lemma QuietRest(s: State, t: Tid, s': State)
    requires WordOk(s) && LockOk(s) && DyingOk(s) && t in s.threads
    requires s'.word == s.word && s'.tokens == s.tokens && s'.sources == s.sources && s'.regs == s.regs
    requires s'.lock == s.lock && s'.dying == s.dying && s'.deleted == s.deleted && Cancelled(s') == Cancelled(s)
    requires t in s'.threads && s'.threads == s.threads[t := s'.threads[t]]
    requires OpLocks(s.threads[t]) ==> OpLocks(s'.threads[t])
    requires !s.threads[t].DeleteState? && !s.threads[t].AddUnlock?
    requires forall x | x in s'.list && x !in s'.regs :: x in s.list || InAdd(s', x)
    ensures WordOk(s') && LockOk(s') && DyingOk(s')
  {
  }

  lemma QuietSig(s: State, t: Tid, s': State)
    requires SigOk(s) && t in s.threads && t in s'.threads && s'.threads == s.threads[t := s'.threads[t]]
    requires s'.sig == s.sig && s'.lock == s.lock && s'.sources == s.sources && s'.signalId == s.signalId
    requires s.list == [] ==> s'.list == []
    requires Current(s.sig).Some? ==>
      && s.sig.c in s'.cbs && s'.cbs[s.sig.c] == s.cbs[s.sig.c].(life := s'.cbs[s.sig.c].life)
      && (s'.cbs[s.sig.c].life.Dead? <==> s.cbs[s.sig.c].life.Dead?)
    requires s.sig.SigRunning? && s.sig.gone && !s.cbs[s.sig.c].life.Dead? ==> s.sig.t != t
    ensures SigOk(s')
  {
  }

  lemma BeginAddKeeps(s: State, t: Tid, s': State)
    requires Inv(s) && BeginAdd(s, t, s')
    ensures Inv(s')
  {
    var c: CbId, h: Handle, copy: bool :|
      c !in s.cbs && h in s.tokens && (if copy then Shareable(s, h) else Unused(s, h))
      && s' == Goto(SetCb(s, c, Callback(false, false, Constructing(t), New, 0)), t, AddLoad(c, h, copy));
    assert c !in s.regs && c !in s.list;
    BeginAddExclusive(s, t, s', h);
    OneCbStep(s, t, s', c);
  }

  lemma BeginAddExclusive(s: State, t: Tid, s': State, h: Handle)
    requires ExclusiveOk(s) && t in s.threads && s.threads[t].Idle? && t in s'.threads
    requires s'.threads == s.threads[t := s'.threads[t]]
    requires s'.threads[t].AddLoad? && s'.threads[t].h == h
    requires (if s'.threads[t].copy then Shareable(s, h) else Unused(s, h))
    ensures ExclusiveOk(s')
  {
    forall u, x | u in s'.threads && Moves(s'.threads[u], x) ensures OnlyUser(s', u, x) {
      if u != t { assert OnlyUser(s, u, x); }
    }
  }

  // ---------------------------------------------------------------- tryAddCallback

  lemma ExclusiveSame(s: State, t: Tid, s': State)
    requires ExclusiveOk(s) && t in s.threads && t in s'.threads && s'.threads == s.threads[t := s'.threads[t]]
    requires forall h | Uses(s'.threads[t], h) :: Uses(s.threads[t], h)
    requires forall h | Moves(s'.threads[t], h) :: Moves(s.threads[t], h)
    ensures ExclusiveOk(s')
  {
    forall u, h | u in s'.threads && Moves(s'.threads[u], h) ensures OnlyUser(s', u, h) {
      assert OnlyUser(s, u, h);
    }
  }

  /** A step of t outside the lock that changes one callback's flags or life. */
  lemma OneCbStep(s: State, t: Tid, s': State, c: CbId)
    requires Inv(s) && t in s.threads && t in s'.threads && c in s'.cbs
    requires s' == Goto(SetCb(s, c, s'.cbs[c]), t, s'.threads[t])
    requires c in s.cbs ==>
      && !(s.cbs[c].life.Constructing? && s.cbs[c].life.owner != t)
      && !(s.cbs[c].life.Destroying? && s.cbs[c].life.owner != t)
    requires CbOk(s', c)
    requires Current(s.sig) == Some(c) ==>
      && c in s.cbs && s'.cbs[c] == s.cbs[c].(life := s'.cbs[c].life) && (s'.cbs[c].life.Dead? <==> s.cbs[c].life.Dead?)
    requires !OpLocks(s.threads[t]) && !s.threads[t].DeleteState?
    requires s.sig.SigRunning? && s.sig.gone && !s.cbs[s.sig.c].life.Dead? ==> s.sig.t != t
    requires ThreadHolds(s', t, s'.threads[t]) && ExclusiveOk(s')
    ensures Inv(s')
  {
    OthersOk(s, s', c);
    FramedOne(s, t, s', c);
    QuietRest(s, t, s');
    QuietSig(s, t, s');
    Assemble(s, t, s');
  }

  /** The callback is invoked on the spot, or will never be invoked: it is not registered either way. */
  lemma AddRefusedKeeps(s: State, t: Tid, s': State)
    requires Inv(s) && DoAddTry(s, t, s') && (IsCancelled(s.threads[t].seen) || !CanBeCancelled(s.threads[t].seen))
    ensures Inv(s')
  {
    var c := s.threads[t].c;
    assert ThreadOk(s, t, s.threads[t]);
    assert CbOk(s, c);
    ExclusiveSame(s, t, s');
    OneCbStep(s, t, s', c);
  }

  /** Taking the free lock for an operation of t. */
  lemma AcquireKeeps(s: State, t: Tid, s': State)
    requires Inv(s) && t in s.threads && s.lock == None && !s.threads[t].DeleteState? && t in s'.threads
    requires s' == Goto(s.(word := Add(s.word, LOCKED), lock := Some(Op(t))), t, s'.threads[t])
    requires OpLocks(s'.threads[t]) && ThreadHolds(s', t, s'.threads[t])
    requires forall h | Uses(s'.threads[t], h) :: Uses(s.threads[t], h)
    requires forall h | Moves(s'.threads[t], h) :: Moves(s.threads[t], h)
    requires s.sig.SigRunning? && s.sig.gone && !s.cbs[s.sig.c].life.Dead? ==> s.sig.t != t
    ensures Inv(s')
  {
    WordMoves(s, s', LOCKED);
    CbsSame(s, s');
    FramedSame(s, t, s');
    ExclusiveSame(s, t, s');
    assert SigOk(s');
    Assemble(s, t, s');
  }

  ghost predicate AddGoesOn(s: State, t: Tid, s': State, pc: Pc, pc': Pc)
    requires pc.AddTry?
  {
    || (s.lock == None && pc' == AddLink(pc.c, pc.h, pc.copy) && ThreadHolds(s', t, pc')
        && s' == Goto(s.(word := Add(s.word, LOCKED), lock := Some(Op(t))), t, pc'))
    || ((pc' == AddLoad(pc.c, pc.h, pc.copy) || pc' == AddTry(pc.c, pc.h, pc.copy, s.word)) && ThreadHolds(s, t, pc')
        && s' == Goto(s, t, pc'))
  }

  lemma AddTryNext(s: State, t: Tid, s': State)
    requires WordOk(s) && DoAddTry(s, t, s') && ThreadHolds(s, t, s.threads[t])
    requires !IsCancelled(s.threads[t].seen) && CanBeCancelled(s.threads[t].seen)
    ensures AddGoesOn(s, t, s', s.threads[t], s'.threads[t])
  {
    assert ThreadOk(s, t, s.threads[t]);
    UnpackWord(s);
  }

  lemma AddGoesOnKeeps(s: State, t: Tid, s': State, pc: Pc, pc': Pc)
    requires Inv(s) && t in s.threads && s.threads[t] == pc && pc.AddTry? && AddGoesOn(s, t, s', pc, pc')
    requires s.sig.SigRunning? && s.sig.gone && !s.cbs[s.sig.c].life.Dead? ==> s.sig.t != t
    ensures Inv(s')
  {
    if pc'.AddLink? { AcquireKeeps(s, t, s'); } else { PcOnly(s, t, pc'); }
  }

  lemma AddTryKeeps(s: State, t: Tid, s': State)
    requires Inv(s) && DoAddTry(s, t, s')
    ensures Inv(s')
  {
    var pc := s.threads[t];
    assert ThreadOk(s, t, pc);
    if IsCancelled(pc.seen) || !CanBeCancelled(pc.seen) {
      AddRefusedKeeps(s, t, s');
    } else {
      AddTryNext(s, t, s');
      AddGoesOnKeeps(s, t, s', pc, s'.threads[t]);
    }
  }

  lemma AddLinkCbs(s: State, t: Tid, s': State, c: CbId)
    requires CbsOk(s) && DoAddLink(s, t, s') && s.threads[t].c == c && ThreadHolds(s, t, s.threads[t])
    ensures CbsOk(s') && OnlyTouches(s, s', c)
  {
    assert ThreadOk(s, t, s.threads[t]);
    assert CbOk(s, c);
    PushIsCons(s.links, s.list, c);
    forall x | x in s.cbs ensures !s.cbs[x].stage.Taken? { assert CbOk(s, x); }
    OthersOk(s, s', c);
  }

  lemma AddLinkKeeps(s: State, t: Tid, s': State)
    requires Inv(s) && DoAddLink(s, t, s')
    ensures Inv(s')
  {
    var c := s.threads[t].c;
    assert ThreadOk(s, t, s.threads[t]);
    AddLinkCbs(s, t, s', c);
    FramedOne(s, t, s', c);
    QuietRest(s, t, s');
    ExclusiveSame(s, t, s');
    Assemble(s, t, s');
  }

  /** The callback's reference is counted: a new one, or the mover's own token. */
  lemma AddUnlockCounts(s: State, t: Tid, s': State, c: CbId)
    requires WordOk(s) && DyingOk(s) && LockOk(s) && DoAddUnlock(s, t, s') && s.threads[t].c == c
    requires ThreadHolds(s, t, s.threads[t])
    ensures WordOk(s') && DyingOk(s') && LockOk(s')
  {
    var pc := s.threads[t];
    assert ThreadOk(s, t, pc);
    WordMoves(s, s', if pc.copy then TOKEN - LOCKED else -LOCKED);
  }

  lemma AddUnlockCbs(s: State, t: Tid, s': State, c: CbId)
    requires CbsOk(s) && SigOk(s) && DoAddUnlock(s, t, s') && s.threads[t].c == c && ThreadHolds(s, t, s.threads[t])
    ensures CbsOk(s') && SigOk(s') && OnlyTouches(s, s', c)
  {
    assert ThreadOk(s, t, s.threads[t]);
    assert CbOk(s, c);
    OthersOk(s, s', c);
  }

  lemma AddUnlockKeeps(s: State, t: Tid, s': State)
    requires Inv(s) && DoAddUnlock(s, t, s')
    ensures Inv(s')
  {
    var pc := s.threads[t];
    assert ThreadOk(s, t, pc);
    AddUnlockCounts(s, t, s', pc.c);
    AddUnlockCbs(s, t, s', pc.c);
    assert !pc.copy ==> OnlyUser(s, t, pc.h) by { if !pc.copy { assert Moves(pc, pc.h); } }
    FramedOne(s, t, s', pc.c);
    ExclusiveSame(s, t, s');
    Assemble(s, t, s');
  }

  lemma AddFinishKeeps(s: State, t: Tid, s': State)
    requires Inv(s) && DoAddFinish(s, t, s')
    ensures Inv(s')
  {
    var c := s.threads[t].c;
    assert ThreadOk(s, t, s.threads[t]);
    assert CbOk(s, c);
    ExclusiveSame(s, t, s');
    OneCbStep(s, t, s', c);
  }

  // ---------------------------------------------------------------- removeCallback

  /** Destroying a callback that never was registered. */
  lemma DropInertKeeps(s: State, t: Tid, s': State, c: CbId)
    requires Inv(s) && t in s.threads && s.threads[t].Idle? && c in s.cbs && s.cbs[c].life.Inert?
    requires s' == SetCb(s, c, s.cbs[c].(life := Dead))
    ensures Inv(s')
  {
    assert s.threads[t := s.threads[t]] == s.threads;
    assert CbOk(s, c);
    OneCbStep(s, t, s', c);
  }

  lemma EnterRemoveKeeps(s: State, t: Tid, s': State, c: CbId)
    requires Inv(s) && t in s.threads && s.threads[t].Idle? && c in s.cbs && s.cbs[c].life.Alive?
    requires s' == Goto(SetCb(s, c, s.cbs[c].(life := Destroying(t))), t, RemLock(c))
    ensures Inv(s')
  {
    assert CbOk(s, c);
    ExclusiveSame(s, t, s');
    OneCbStep(s, t, s', c);
  }

  lemma BeginRemoveKeeps(s: State, t: Tid, s': State)
    requires Inv(s) && BeginRemove(s, t, s')
    ensures Inv(s')
  {
    var c: CbId :| c in s.cbs &&
      (|| (s.cbs[c].life.Alive? && s' == Goto(SetCb(s, c, s.cbs[c].(life := Destroying(t))), t, RemLock(c)))
       || (s.cbs[c].life.Inert? && s' == SetCb(s, c, s.cbs[c].(life := Dead))));
    if s.cbs[c].life.Alive? { EnterRemoveKeeps(s, t, s', c); } else { DropInertKeeps(s, t, s', c); }
  }

  lemma RemLockKeeps(s: State, t: Tid, s': State)
    requires Inv(s) && DoRemLock(s, t, s')
    ensures Inv(s')
  {
    assert ThreadOk(s, t, s.threads[t]);
    UnpackWord(s);
    if s' != s { AcquireKeeps(s, t, s'); }
  }

  lemma {:induction false} RemoveIsWithout(list: seq<CbId>, k: nat)
    requires k < |list| && forall i, j | 0 <= i < j < |list| :: list[i] != list[j]
    ensures Remove(list, list[k]) == Without(list, k)
  {
    if k > 0 {
      RemoveIsWithout(list[1..], k - 1);
      assert Without(list, k) == [list[0]] + Without(list[1..], k - 1);
    }
  }

  lemma RemUnlinkKeeps(s: State, t: Tid, s': State)
    requires Inv(s) && DoRemCheck(s, t, s') && s.cbs[s.threads[t].c].stage.Listed?
    ensures Inv(s')
  {
    var c := s.threads[t].c;
    assert ThreadOk(s, t, s.threads[t]);
    RemUnlinkCbs(s, t, s', c);
    RemUnlinkFrame(s, t, s', c);
    ExclusiveSame(s, t, s');
    Assemble(s, t, s');
  }

  lemma RemUnlinkCbs(s: State, t: Tid, s': State, c: CbId)
    requires CbsOk(s) && DoRemCheck(s, t, s') && s.threads[t].c == c && s.cbs[c].stage.Listed? && Removing(s, t, c)
    ensures CbsOk(s') && OnlyTouches(s, s', c) && c !in s'.list && s.links.prevNext[c] != Null
    ensures s'.cbs[c].stage.Removed?
  {
    assert CbOk(s, c);
    var k: nat :| k < |s.list| && s.list[k] == c;
    assert LinkedAt(s.links, s.list, k);
    UnlinkIsRemoval(s.links, s.list, k);
    RemoveIsWithout(s.list, k);
    UnlinkKeepsOthers(s, s', c, k);
    OthersOk(s, s', c);
  }

  lemma RemUnlinkFrame(s: State, t: Tid, s': State, c: CbId)
    requires Inv(s) && DoRemCheck(s, t, s') && s.threads[t].c == c && s.links.prevNext[c] != Null
    requires OnlyTouches(s, s', c)
    requires c !in s'.list && s.cbs[c].stage.Listed?
    ensures WordOk(s') && LockOk(s') && DyingOk(s') && SigOk(s') && OthersFramed(s, t, s')
  {
    assert ThreadOk(s, t, s.threads[t]);
    FramedOne(s, t, s', c);
    QuietRest(s, t, s');
    QuietSig(s, t, s');
  }

  lemma UnlinkKeepsOthers(s: State, s': State, c: CbId, k: nat)
    requires CbsOk(s) && k < |s.list| && s.list[k] == c && c in s.links.next && c in s.links.prevNext
    requires s'.links == Unlink(s.links, c) && s'.list == Without(s.list, k)
    ensures forall x | x != c :: x in s'.list <==> x in s.list
    ensures c !in s'.list
    ensures forall x | x in s.cbs && x != c && s.cbs[x].stage.Taken? && x in s.links.next && x in s.links.prevNext ::
      x in s'.links.next && x in s'.links.prevNext && s'.links.prevNext[x] == s.links.prevNext[x]
  {
    forall x | x in s.cbs && x != c && s.cbs[x].stage.Taken? && x in s.links.next && x in s.links.prevNext
      ensures x in s'.links.next && x in s'.links.prevNext && s'.links.prevNext[x] == s.links.prevNext[x]
    {
      assert CbOk(s, x);
      UnlinkKeeps(s.links, s.list, k, x);
    }
    forall x | x != c ensures x in s'.list <==> x in s.list {
      if x in s.list {
        var i :| 0 <= i < |s.list| && s.list[i] == x;
        assert s'.list[if i < k then i else i - 1] == x;
      }
    }
  }

  lemma RemCheckKeeps(s: State, t: Tid, s': State)
    requires Inv(s) && DoRemCheck(s, t, s')
    ensures Inv(s')
  {
    var c := s.threads[t].c;
    assert ThreadOk(s, t, s.threads[t]);
    assert CbOk(s, c);
    if s.cbs[c].stage.Listed? {
      RemUnlinkKeeps(s, t, s');
    } else {
      QuietRest(s, t, s');
      QuietSig(s, t, s');
      CbsSame(s, s');
      FramedSame(s, t, s');
      ExclusiveSame(s, t, s');
      Assemble(s, t, s');
    }
  }

  lemma RemUnlockKeeps(s: State, t: Tid, s': State)
    requires Inv(s) && DoRemUnlock(s, t, s')
    ensures Inv(s')
  {
    assert ThreadOk(s, t, s.threads[t]);
    WordMoves(s, s', -LOCKED);
    CbsSame(s, s');
    FramedSame(s, t, s');
    ExclusiveSame(s, t, s');
    Assemble(s, t, s');
  }

  /** Giving back a callback's reference; the last reference of all dooms the state. */
  lemma ReleaseCounts(s: State, t: Tid, s': State, c: CbId, delta: int, limit: nat)
    requires WordOk(s) && DyingOk(s) && c in s.regs && t in s.threads
    requires s'.word == Add(s.word, delta) && s'.regs == s.regs - {c} && s'.tokens == s.tokens
    requires s'.sources == s.sources
    requires Cancelled(s') == Cancelled(s)
    requires if s.lock == Some(Op(t)) then delta == -(LOCKED + TOKEN) && limit == LOCKED + 2 * TOKEN && s'.lock == None
             else delta == -TOKEN && limit == 2 * TOKEN && s'.lock == s.lock
    requires s'.deleted == s.deleted && t in s'.threads && s'.threads == s.threads[t := s'.threads[t]]
    requires if s.word < limit then s'.dying == Some(t) && s'.threads[t].DeleteState? else s'.dying == s.dying
    ensures WordOk(s') && DyingOk(s') && s.dying == None
  {
    assert |s'.regs| == |s.regs| - 1;
    UnpackWord(s);
    WordMoves(s, s', delta);
    assert NoRefs(s') <==> |s.sources| == 0 && |s.tokens| + |s.regs| == 1;
  }

  /** removeCallback's last step for c: the reference goes back and the object is gone. */
  ghost predicate GivesBack(s: State, t: Tid, s': State, c: CbId) {
    && t in s.threads && t in s'.threads && s'.threads == s.threads[t := s'.threads[t]]
    && (s'.threads[t].Idle? || s'.threads[t].DeleteState?)
    && (s.threads[t].RemUnlockDec? || s.threads[t] == RemRelease(c))
    && Removing(s, t, c) && c !in s.list && !s.cbs[c].stage.New?
    && (s.cbs[c].stage.Taken? ==> NotTouched(s.sig, c) && s.threads[t].RemRelease?)
    && s'.cbs == s.cbs[c := s.cbs[c].(life := Dead)] && s'.regs == s.regs - {c}
    && s'.links == s.links && s'.list == s.list && s'.sig == s.sig && s'.signalId == s.signalId
    && s'.tokens == s.tokens && s'.sources == s.sources && s'.deleted == s.deleted
    && (if s.lock == Some(Op(t)) then s'.lock == None && s.threads[t].RemUnlockDec? else s'.lock == s.lock)
  }

  lemma GiveBackCbs(s: State, t: Tid, s': State, c: CbId)
    requires CbsOk(s) && GivesBack(s, t, s', c)
    ensures CbsOk(s')
  {
    assert CbOk(s, c);
    OthersOk(s, s', c);
  }

  lemma GiveBackSig(s: State, t: Tid, s': State, c: CbId)
    requires SigOk(s) && LockOk(s) && GivesBack(s, t, s', c)
    requires Current(s.sig) == Some(c) ==> s.cbs[c].stage.Taken?
    ensures SigOk(s') && LockOk(s')
  {
  }

  lemma GiveBackFrame(s: State, t: Tid, s': State, c: CbId)
    requires GivesBack(s, t, s', c) && s.dying == None && CbsOk(s)
    ensures OthersFramed(s, t, s')
  {
    FramedOne(s, t, s', c);
  }

  lemma GiveBackKeeps(s: State, t: Tid, s': State, c: CbId)
    requires Inv(s) && GivesBack(s, t, s', c) && WordOk(s') && DyingOk(s') && s.dying == None
    requires ThreadHolds(s', t, s'.threads[t])
    ensures Inv(s')
  {
    GiveBackCbs(s, t, s', c);
    GiveBackSig(s, t, s', c);
    GiveBackFrame(s, t, s', c);
    ExclusiveSame(s, t, s');
    Assemble(s, t, s');
  }

  lemma RemUnlockDecKeeps(s: State, t: Tid, s': State)
    requires Inv(s) && DoRemUnlockDec(s, t, s')
    ensures Inv(s') && s.dying == None && (s'.dying.Some? <==> NoRefs(s'))
  {
    var c := s.threads[t].c;
    assert ThreadOk(s, t, s.threads[t]);
    assert CbOk(s, c);
    ReleaseCounts(s, t, s', c, -(LOCKED + TOKEN), LOCKED + 2 * TOKEN);
    GiveBackKeeps(s, t, s', c);
  }

  lemma RemReleaseKeeps(s: State, t: Tid, s': State)
    requires Inv(s) && DoRemRelease(s, t, s')
    ensures Inv(s') && s.dying == None && (s'.dying.Some? <==> NoRefs(s'))
  {
    var c := s.threads[t].c;
    assert ThreadOk(s, t, s.threads[t]);
    assert CbOk(s, c);
    ReleaseCounts(s, t, s', c, -TOKEN, 2 * TOKEN);
    GiveBackKeeps(s, t, s', c);
  }

  /** The destructor, inside its own callback, raises the flag on the signaller's stack. */
  lemma RaiseFlagKeeps(s: State, t: Tid, s': State)
    requires Inv(s) && DoRemWho(s, t, s') && s.signalId == Some(t) && s.cbs[s.threads[t].c].flagPtr
    ensures Inv(s')
  {
    var c := s.threads[t].c;
    assert ThreadOk(s, t, s.threads[t]);
    RaiseFlagCbs(s, t, s', c);
    FramedOne(s, t, s', c);
    RaiseFlagSig(s, t, s', c);
    ExclusiveSame(s, t, s');
    Assemble(s, t, s');
  }

  lemma RaiseFlagCbs(s: State, t: Tid, s': State, c: CbId)
    requires CbsOk(s) && SigOk(s) && DoRemWho(s, t, s') && s.threads[t].c == c && Removing(s, t, c)
    requires s.signalId == Some(t) && s.cbs[c].flagPtr && s.cbs[c].stage.Taken?
    ensures CbsOk(s') && s.sig.SigRunning? && s.sig.c == c && s.sig.t == t
  {
    assert CbOk(s, c);
    forall x | x in s'.cbs ensures CbOk(s', x) { assert CbOk(s, x); }
  }

  lemma RaiseFlagSig(s: State, t: Tid, s': State, c: CbId)
    requires WordOk(s) && SigOk(s) && LockOk(s) && DyingOk(s) && DoRemWho(s, t, s') && s.threads[t].c == c
    requires s.signalId == Some(t) && s.cbs[c].flagPtr && s.sig.SigRunning? && s.sig.c == c && s.sig.t == t
    requires c in s.regs
    ensures SigOk(s') && LockOk(s') && DyingOk(s') && WordOk(s')
  {
  }

  lemma RemWhoKeeps(s: State, t: Tid, s': State)
    requires Inv(s) && DoRemWho(s, t, s')
    ensures Inv(s')
  {
    var c := s.threads[t].c;
    if s.signalId == Some(t) && s.cbs[c].flagPtr {
      RaiseFlagKeeps(s, t, s');
    } else {
      assert ThreadOk(s, t, s.threads[t]);
      assert CbOk(s, c);
      PcOnly(s, t, s'.threads[t]);
    }
  }

  // ---------------------------------------------------------------- requestCancellation

  lemma ReqTryKeeps(s: State, t: Tid, s': State)
    requires Inv(s) && DoReqTry(s, t, s')
    ensures Inv(s')
  {
    assert ThreadOk(s, t, s.threads[t]);
    UnpackWord(s);
    if s'.sig.SigSetId? && s.sig.NoSignal? { CancelKeeps(s, t, s'); }
    else { PcOnly(s, t, s'.threads[t]); }
  }

  lemma CancelKeeps(s: State, t: Tid, s': State)
    requires Inv(s) && t in s.threads && s.threads[t].ReqTry? && s.sig.NoSignal? && s.lock == None
    requires s' == Goto(s.(word := Add(s.word, LOCKED + CANCELLED), lock := Some(Signaller),
                           sig := SigSetId(t, s.threads[t].h)), t, Idle)
    ensures Inv(s')
  {
    assert ThreadOk(s, t, s.threads[t]);
    WordMoves(s, s', LOCKED + CANCELLED);
    forall c | c in s'.cbs ensures CbOk(s', c) { assert CbOk(s, c); }
    forall u | u in s.threads && u != t ensures Frame(s, s', u, s.threads[u]) {
      forall c | c in s.cbs ensures CbFrame(s, s', u, c) { assert CbOk(s, c); }
    }
    ExclusiveSame(s, t, s');
    Assemble(s, t, s');
  }

  // ---------------------------------------------------------------- the signalling call

  lemma AssembleSig(s: State, s': State)
    requires Inv(s) && MemoryHolds(s') && s'.threads == s.threads
    requires forall u | u in s.threads :: Frame(s, s', u, s.threads[u])
    ensures Inv(s')
  {
    assert MemoryOk(s');
    forall u | u in s'.threads ensures ThreadOk(s', u, s'.threads[u]) {
      ThreadStable(s, s', u, s.threads[u]);
    }
  }

  /** Steps of the signaller that move only its own program counter, the lock bit or its thread id. */
  ghost predicate SigMoves(s: State, s': State) {
    && s'.cbs == s.cbs && s'.links == s.links && s'.list == s.list && s'.threads == s.threads && s'.regs == s.regs
    && s'.deleted == s.deleted && s'.dying == s.dying && s'.tokens == s.tokens && s'.sources == s.sources
    && Cancelled(s) && Cancelled(s') && s'.sig.t == s.sig.t
    && (s'.signalId == s.signalId || (s.signalId == None && s'.signalId == Some(s.sig.t)))
    && (forall u | Locks(s, u) :: Locks(s', u)) && (s'.lock.Some? && s'.lock.value.Op? ==> s'.lock == s.lock)
    && (forall x | NotTouched(s.sig, x) :: NotTouched(s'.sig, x))
  }

  lemma SigMovesKeep(s: State, s': State)
    requires Inv(s) && SigMoves(s, s') && WordOk(s') && SigOk(s')
    requires forall c | c in s.cbs && s.cbs[c].stage.Taken? && Current(s'.sig) != Some(c)
      && Current(s.sig) == Some(c) ::
      s.cbs[c].runs == 1 && (s.cbs[c].life.Dead? || (s.cbs[c].completed && !s.cbs[c].flagPtr))
    ensures Inv(s')
  {
    forall c | c in s'.cbs ensures CbOk(s', c) { assert CbOk(s, c); }
    forall u | u in s.threads ensures Frame(s, s', u, s.threads[u]) {
      forall c | c in s.cbs ensures CbFrame(s, s', u, c) { }
    }
    AssembleSig(s, s');
  }

  lemma SigLockStepsKeep(s: State, s': State)
    requires Inv(s) && SigStep(s, s') && (s.sig.SigUnlock? || s.sig.SigRelock? || s.sig.SigFinal?)
    ensures Inv(s')
  {
    UnpackWord(s);
    if s' != s {
      WordMoves(s, s', if s.sig.SigRelock? then LOCKED else -LOCKED);
      SigMovesKeep(s, s');
    }
  }

  lemma SigPlainStepsKeep(s: State, s': State)
    requires Inv(s) && SigStep(s, s')
    requires s.sig.SigSetId? || (s.sig.SigHead? && s.links.head.None?) || s.sig.SigRunning?
    ensures Inv(s')
  {
    if s.sig.SigRunning? { assert ThreadOk(s, s.sig.t, s.threads[s.sig.t]); }
    SigMovesKeep(s, s');
  }

  /** Steps of the signaller on the callback it has in hand. */
  ghost predicate SigTouches(sig: Signal) { sig.SigSetPtr? || sig.SigInvoke? || sig.SigClear? || sig.SigComplete? }

  lemma SigTouchKeeps(s: State, s': State)
    requires Inv(s) && SigStep(s, s') && SigTouches(s.sig)
    ensures Inv(s')
  {
    SigTouchRest(s, s');
    SigTouchSig(s, s');
    forall x | x in s'.cbs ensures CbOk(s', x) { SigTouchCb(s, s', x); }
    forall u | u in s.threads ensures Frame(s, s', u, s.threads[u]) { SigTouchFrame(s, s', u, s.threads[u]); }
    AssembleSig(s, s');
  }

  lemma SigTouchCb(s: State, s': State, x: CbId)
    requires CbsOk(s) && SigOk(s) && SigStep(s, s') && SigTouches(s.sig) && x in s.cbs
    ensures CbOk(s', x)
  {
    assert CbOk(s, x);
    assert x != s.sig.c ==> s'.cbs[x] == s.cbs[x];
  }

  lemma SigTouchFrame(s: State, s': State, u: Tid, pc: Pc)
    requires SigTouches(s.sig) && s.sig.c in s.cbs && s.sig.c in s'.cbs && !s'.sig.NoSignal?
    requires s' == SetCb(s, s.sig.c,
                         s.cbs[s.sig.c].(flagPtr := s'.cbs[s.sig.c].flagPtr, completed := s'.cbs[s.sig.c].completed,
                                                     runs := s'.cbs[s.sig.c].runs)).(sig := s'.sig)
    requires Current(s'.sig) == Current(s.sig) || Current(s'.sig) == None
    requires s.cbs[s.sig.c].stage.Taken?
    ensures Frame(s, s', u, pc)
  {
    forall x | x in s.cbs ensures CbFrame(s, s', u, x) {
      assert NotTouched(s.sig, x) ==> x != s.sig.c;
    }
  }

  lemma SigTouchRest(s: State, s': State)
    requires MemoryOk(s) && SigStep(s, s') && SigTouches(s.sig)
    ensures WordOk(s') && LockOk(s') && DyingOk(s') && ExclusiveOk(s')
  {
    forall u, h | u in s'.threads && Moves(s'.threads[u], h) ensures OnlyUser(s', u, h) { assert OnlyUser(s, u, h); }
  }

  lemma SigTouchSig(s: State, s': State)
    requires CbsOk(s) && SigOk(s) && SigStep(s, s') && SigTouches(s.sig)
    ensures SigOk(s')
  {
    assert CbOk(s, s.sig.c);
  }

  /** Dequeuing the head: the callback leaves the list for good and belongs to the signaller. */
  lemma SigPopKeeps(s: State, s': State)
    requires Inv(s) && SigStep(s, s') && s.sig.SigHead? && s.links.head.Some?
    ensures Inv(s')
  {
    var c := s.list[0];
    PopIsTail(s.links, s.list);
    assert CbOk(s, c);
    forall x | x in s'.cbs ensures CbOk(s', x) {
      assert CbOk(s, x);
      if x != c && s.cbs[x].stage.Taken? { PopKeeps(s.links, s.list, x); }
      assert x != c ==> (x in s'.list <==> x in s.list);
    }
    forall u | u in s.threads ensures Frame(s, s', u, s.threads[u]) {
      forall x | x in s.cbs ensures CbFrame(s, s', u, x) { assert CbOk(s, x); }
    }
    SigPopRest(s, s');
    AssembleSig(s, s');
  }

  lemma SigPopRest(s: State, s': State)
    requires MemoryOk(s) && SigStep(s, s') && s.sig.SigHead? && s.links.head.Some? && s.list != []
    ensures WordOk(s') && SigOk(s') && LockOk(s') && DyingOk(s') && ExclusiveOk(s')
  {
    PopIsTail(s.links, s.list);
    assert CbOk(s, s.list[0]);
    forall u, h | u in s'.threads && Moves(s'.threads[u], h) ensures OnlyUser(s', u, h) { assert OnlyUser(s, u, h); }
  }

  lemma SigStepKeeps(s: State, s': State)
    requires Inv(s) && SigStep(s, s')
    ensures Inv(s')
  {
    if s.sig.SigUnlock? || s.sig.SigRelock? || s.sig.SigFinal? { SigLockStepsKeep(s, s'); }
    else if SigTouches(s.sig) { SigTouchKeeps(s, s'); }
    else if s.sig.SigHead? && s.links.head.Some? { SigPopKeeps(s, s'); }
    else { SigPlainStepsKeep(s, s'); }
  }

  // ---------------------------------------------------------------- every step

  lemma HandleStepKeeps(s: State, t: Tid, s': State)
    requires Inv(s) && HandleStep(s, t, s')
    ensures Inv(s')
  {
    if CopyToken(s, t, s') { CopyTokenKeeps(s, t, s'); }
    else if CopySource(s, t, s') { CopySourceKeeps(s, t, s'); }
    else if DropToken(s, t, s') { DropTokenKeeps(s, t, s'); }
    else if DropSource(s, t, s') { DropSourceKeeps(s, t, s'); }
    else { DeleteKeeps(s, t, s'); }
  }

  lemma AddStepKeeps(s: State, t: Tid, s': State)
    requires Inv(s) && AddStep(s, t, s')
    ensures Inv(s')
  {
    if BeginAdd(s, t, s') { BeginAddKeeps(s, t, s'); }
    else if DoAddLoad(s, t, s') { LoadKeeps(s, t, s'); }
    else if DoAddTry(s, t, s') { AddTryKeeps(s, t, s'); }
    else if DoAddLink(s, t, s') { AddLinkKeeps(s, t, s'); }
    else if DoAddUnlock(s, t, s') { AddUnlockKeeps(s, t, s'); }
    else { AddFinishKeeps(s, t, s'); }
  }

  lemma RemoveStepKeeps(s: State, t: Tid, s': State)
    requires Inv(s) && RemoveStep(s, t, s')
    ensures Inv(s')
  {
    if BeginRemove(s, t, s') { BeginRemoveKeeps(s, t, s'); }
    else if DoRemLock(s, t, s') { RemLockKeeps(s, t, s'); }
    else if DoRemCheck(s, t, s') { RemCheckKeeps(s, t, s'); }
    else if DoRemUnlockDec(s, t, s') { RemUnlockDecKeeps(s, t, s'); }
    else if DoRemUnlock(s, t, s') { RemUnlockKeeps(s, t, s'); }
    else if DoRemWho(s, t, s') { RemWhoKeeps(s, t, s'); }
    else if DoRemWait(s, t, s') { RemWaitKeeps(s, t, s'); }
    else { RemReleaseKeeps(s, t, s'); }
  }

  lemma RequestStepKeeps(s: State, t: Tid, s': State)
    requires Inv(s) && RequestStep(s, t, s')
    ensures Inv(s')
  {
    if BeginRequest(s, t, s') { BeginRequestKeeps(s, t, s'); }
    else if DoReqLoad(s, t, s') { LoadKeeps(s, t, s'); }
    else { ReqTryKeeps(s, t, s'); }
  }

  lemma StepKeeps(s: State, s': State)
    requires Inv(s) && Step(s, s')
    ensures Inv(s')
  {
    if SigStep(s, s') {
      SigStepKeeps(s, s');
    } else {
      var t: Tid :| OpStep(s, t, s');
      if HandleStep(s, t, s') { HandleStepKeeps(s, t, s'); }
      else if AddStep(s, t, s') { AddStepKeeps(s, t, s'); }
      else if RemoveStep(s, t, s') { RemoveStepKeeps(s, t, s'); }
      else { RequestStepKeeps(s, t, s'); }
    }
  }

  lemma InitOk(s: State, h: Handle)
    requires Init(s, h)
    ensures Inv(s)
  {
  }

  lemma {:induction false} RunInv(run: seq<State>, h: Handle, i: nat)
    requires Run(run, h) && i < |run|
    ensures Inv(run[i])
  {
    if i == 0 {
      InitOk(run[0], h);
    } else {
      RunInv(run, h, i - 1);
      assert Follows(run, i - 1);
      StepKeeps(run[i - 1], run[i]);
    }
  }

  // ---------------------------------------------------------------- what a step can do to a callback

  /** The callback function has run as often or once more; the list is entered once and left once. */
  ghost predicate CbMoves(cb: Callback, cb': Callback) {
    && cb.runs <= cb'.runs
    && (cb.stage.Listed? ==> !cb'.stage.New?)
    && (cb.stage.Taken? ==> cb'.stage.Taken?)
    && (cb.stage.Removed? ==> cb'.stage.Removed?)
    && (cb.life.Dead? ==> cb' == cb)
  }

  ghost predicate CbKept(s: State, s': State, c: CbId)
    requires c in s.cbs
  {
    c in s'.cbs && CbMoves(s.cbs[c], s'.cbs[c])
  }

  /** After cancellation nothing enters the list, and cancellation is for good. */
  ghost predicate ListShrinks(s: State, s': State) {
    Cancelled(s) ==> Cancelled(s') && forall x | x in s'.list :: x in s.list
  }

  lemma SigStepMoves(s: State, s': State)
    requires MemoryOk(s) && SigStep(s, s')
    ensures (forall c | c in s.cbs :: CbKept(s, s', c)) && ListShrinks(s, s')
  {
    forall c | c in s.cbs ensures CbKept(s, s', c) { assert CbOk(s, c); }
  }

  lemma AddStepMoves(s: State, t: Tid, s': State)
    requires AddStep(s, t, s') && ThreadOk(s, t, s.threads[t])
    ensures (forall c | c in s.cbs :: CbKept(s, s', c)) && ListShrinks(s, s')
  {
  }

  lemma {:induction false} RemoveShrinks(list: seq<CbId>, c: CbId)
    ensures forall x | x in Remove(list, c) :: x in list
  {
    if list != [] && list[0] != c { RemoveShrinks(list[1..], c); }
  }

  /** prevNext_ tells removeCallback whether the callback is still listed. */
  lemma CheckedCallback(s: State, c: CbId)
    requires CbsOk(s) && c in s.cbs && (s.cbs[c].stage.Listed? || s.cbs[c].stage.Taken?)
    ensures c in s.links.next && c in s.links.prevNext && (s.links.prevNext[c] != Null <==> s.cbs[c].stage.Listed?)
  {
    assert CbOk(s, c);
    if s.cbs[c].stage.Listed? {
      var k :| 0 <= k < |s.list| && s.list[k] == c;
      assert LinkedAt(s.links, s.list, k);
    }
  }

  lemma RemCheckMoves(s: State, t: Tid, s': State)
    requires DoRemCheck(s, t, s') && Removing(s, t, s.threads[t].c)
    requires s.links.prevNext[s.threads[t].c] != Null ==> s.cbs[s.threads[t].c].stage.Listed?
    ensures (forall c | c in s.cbs :: CbKept(s, s', c)) && ListShrinks(s, s')
  {
    RemoveShrinks(s.list, s.threads[t].c);
  }

  lemma RemoveStepMoves(s: State, t: Tid, s': State)
    requires RemoveStep(s, t, s') && ThreadHolds(s, t, s.threads[t]) && !DoRemCheck(s, t, s')
    ensures (forall c | c in s.cbs :: CbKept(s, s', c)) && ListShrinks(s, s')
  {
    assert ThreadOk(s, t, s.threads[t]);
  }

  lemma HandleStepSame(s: State, t: Tid, s': State)
    requires HandleStep(s, t, s')
    ensures s'.cbs == s.cbs && s'.list == s.list && s'.sig == s.sig && s'.links == s.links
  {
  }

  lemma HandleStepMoves(s: State, t: Tid, s': State)
    requires HandleStep(s, t, s')
    ensures (forall c | c in s.cbs :: CbKept(s, s', c)) && ListShrinks(s, s')
  {
    HandleStepSame(s, t, s');
  }

  lemma RequestStepMoves(s: State, t: Tid, s': State)
    requires RequestStep(s, t, s')
    ensures (forall c | c in s.cbs :: CbKept(s, s', c)) && ListShrinks(s, s')
  {
  }

  lemma StepMoves(s: State, s': State)
    requires Inv(s) && Step(s, s')
    ensures (forall c | c in s.cbs :: CbKept(s, s', c)) && ListShrinks(s, s')
  {
    if SigStep(s, s') {
      SigStepMoves(s, s');
    } else {
      var t: Tid :| OpStep(s, t, s');
      OpStepMoves(s, t, s');
    }
  }

  lemma OpStepMoves(s: State, t: Tid, s': State)
    requires Inv(s) && OpStep(s, t, s')
    ensures (forall c | c in s.cbs :: CbKept(s, s', c)) && ListShrinks(s, s')
  {
    if HandleStep(s, t, s') {
      HandleStepMoves(s, t, s');
    } else if RequestStep(s, t, s') {
      RequestStepMoves(s, t, s');
    } else {
      assert ThreadOk(s, t, s.threads[t]);
      if AddStep(s, t, s') {
        AddStepMoves(s, t, s');
      } else {
        if DoRemCheck(s, t, s') {
          CheckedCallback(s, s.threads[t].c);
          RemCheckMoves(s, t, s');
        } else {
          RemoveStepMoves(s, t, s');
        }
      }
    }
  }

  // ---------------------------------------------------------------- what a step can do to the links

  lemma SigStepLinks(s: State, s': State, c: CbId)
    requires SigStep(s, s') && Represents(s.links, s.list) && c !in s.list
    ensures SameLinks(s.links, s'.links, c)
  {
    if s.links.head.Some? { PopKeeps(s.links, s.list, c); }
  }

  lemma AddStepLinks(s: State, t: Tid, s': State, c: CbId)
    requires AddStep(s, t, s') && Represents(s.links, s.list) && c !in s.list
      && (s.threads[t].AddLink? ==> s.threads[t].c != c)
    ensures SameLinks(s.links, s'.links, c)
  {
    if s.threads[t].AddLink? { PushKeeps(s.links, s.list, s.threads[t].c, c); }
  }

  lemma RemCheckLinks(s: State, t: Tid, s': State, c: CbId)
    requires DoRemCheck(s, t, s') && Represents(s.links, s.list) && c !in s.list
    requires s.links.prevNext[s.threads[t].c] != Null ==> s.threads[t].c in s.list
    ensures SameLinks(s.links, s'.links, c)
  {
    if s.links.prevNext[s.threads[t].c] != Null {
      var k: nat :| k < |s.list| && s.list[k] == s.threads[t].c;
      UnlinkKeeps(s.links, s.list, k, c);
    }
  }

  lemma RemoveStepLinks(s: State, t: Tid, s': State)
    requires RemoveStep(s, t, s') && !DoRemCheck(s, t, s')
    ensures s'.links == s.links
  {
  }

  lemma RequestStepLinks(s: State, t: Tid, s': State)
    requires RequestStep(s, t, s')
    ensures s'.links == s.links
  {
  }

  lemma OpStepLinks(s: State, t: Tid, s': State, c: CbId)
    requires Inv(s) && OpStep(s, t, s') && c in s.cbs && s.cbs[c].life.Dead?
    ensures SameLinks(s.links, s'.links, c)
  {
    assert CbOk(s, c);
    if HandleStep(s, t, s') {
      HandleStepSame(s, t, s');
    } else if RequestStep(s, t, s') {
      RequestStepLinks(s, t, s');
    } else {
      assert ThreadOk(s, t, s.threads[t]);
      if AddStep(s, t, s') {
        AddStepLinks(s, t, s', c);
      } else if DoRemCheck(s, t, s') {
        assert CbOk(s, s.threads[t].c);
        CheckedCallback(s, s.threads[t].c);
        RemCheckLinks(s, t, s', c);
      } else {
        RemoveStepLinks(s, t, s');
      }
    }
  }

  lemma StepLinks(s: State, s': State, c: CbId)
    requires Inv(s) && Step(s, s') && c in s.cbs && s.cbs[c].life.Dead?
    ensures SameLinks(s.links, s'.links, c)
  {
    if SigStep(s, s') {
      assert CbOk(s, c);
      SigStepLinks(s, s', c);
    } else {
      var t: Tid :| OpStep(s, t, s');
      OpStepLinks(s, t, s', c);
    }
  }

  // ---------------------------------------------------------------- whole runs

  lemma {:induction false} RunMoves(run: seq<State>, h: Handle, i: nat, j: nat)
    requires Run(run, h) && i <= j < |run|
    ensures (forall c | c in run[i].cbs :: CbKept(run[i], run[j], c)) && ListShrinks(run[i], run[j])
    decreases j - i
  {
    if i < j {
      RunMoves(run, h, i, j - 1);
      RunInv(run, h, j - 1);
      assert Follows(run, j - 1);
      StepMoves(run[j - 1], run[j]);
      forall c | c in run[i].cbs ensures CbKept(run[i], run[j], c) { assert CbKept(run[i], run[j - 1], c); }
    }
  }

  lemma {:induction false} RunLinks(run: seq<State>, h: Handle, i: nat, j: nat, c: CbId)
    requires Run(run, h) && i <= j < |run| && c in run[i].cbs && run[i].cbs[c].life.Dead?
    ensures SameLinks(run[i].links, run[j].links, c)
    decreases j - i
  {
    if i < j {
      RunLinks(run, h, i, j - 1, c);
      RunMoves(run, h, i, j - 1);
      assert CbKept(run[i], run[j - 1], c);
      RunInv(run, h, j - 1);
      assert Follows(run, j - 1);
      StepLinks(run[j - 1], run[j], c);
    }
  }

  /** A callback object runs its function at most once, however long the run goes on. */
  lemma RunsAtMostOnce(run: seq<State>, h: Handle, i: nat, c: CbId)
    requires Run(run, h) && i < |run| && c in run[i].cbs
    ensures run[i].cbs[c].runs <= 1
    ensures forall j | i <= j < |run| :: c in run[j].cbs && run[i].cbs[c].runs <= run[j].cbs[c].runs <= 1
  {
    forall j | i <= j < |run| ensures c in run[j].cbs && run[i].cbs[c].runs <= run[j].cbs[c].runs <= 1 {
      RunMoves(run, h, i, j);
      assert CbKept(run[i], run[j], c);
      RunInv(run, h, j);
      assert CbOk(run[j], c);
      TakenRunsOnce(run[j], c);
    }
  }

  lemma TakenRunsOnce(s: State, c: CbId)
    requires Inv(s) && c in s.cbs
    ensures s.cbs[c].runs <= 1
  {
    assert CbOk(s, c);
  }

  /**
   * When the call that cancelled returns, every callback that was registered before the cancellation
   * bit was set has run exactly once, unless its own destructor unlinked it first, in which case it
   * has not run and never will.
   */
  lemma EveryCallbackDelivered(run: seq<State>, h: Handle, i: nat, j: nat, c: CbId)
    requires Run(run, h) && i <= j < |run| && !Cancelled(run[i]) && c in run[i].list && run[j].sig.SigDone?
    ensures c in run[j].cbs
    ensures run[j].cbs[c].runs == 1 <==> run[j].cbs[c].stage.Taken?
    ensures run[j].cbs[c].runs == 0 <==> run[j].cbs[c].stage.Removed?
    ensures run[j].cbs[c].stage.Removed? ==> forall k | j <= k < |run| :: c in run[k].cbs && run[k].cbs[c].runs == 0
  {
    RunInv(run, h, i);
    RunInv(run, h, j);
    assert c in run[i].cbs && CbOk(run[i], c);
    RunMoves(run, h, i, j);
    assert CbKept(run[i], run[j], c);
    assert CbOk(run[j], c);
    forall k | j <= k < |run| && run[j].cbs[c].stage.Removed? ensures c in run[k].cbs && run[k].cbs[c].runs == 0 {
      RunMoves(run, h, j, k);
      assert CbKept(run[j], run[k], c);
      RunInv(run, h, k);
      assert CbOk(run[k], c);
    }
  }

  /** Once the bit is set no callback is ever linked; once the signaller saw the last one, the list stays empty. */
  lemma NoneLinkedAfterCancel(run: seq<State>, h: Handle, i: nat, j: nat)
    requires Run(run, h) && i <= j < |run| && Cancelled(run[i])
    ensures Cancelled(run[j])
    ensures forall c | c in run[j].list :: c in run[i].list
    ensures Current(run[i].sig).Some? && !run[i].sig.anyMore ==> run[j].list == []
    ensures run[i].sig.SigDone? ==> run[j].list == [] && run[j].links.head == None
  {
    RunInv(run, h, i);
    RunInv(run, h, j);
    RunMoves(run, h, i, j);
    assert run[j].list != [] ==> run[j].list[0] in run[i].list;
  }

  /** The callback objects the signalling call reads or writes in its next step. */
  function SignalAccess(s: State): set<CbId> {
    if s.sig.SigHead? then
      (if |s.list| > 0 then {s.list[0]} else {}) + (if |s.list| > 1 then {s.list[1]} else {})
    else if s.sig.SigSetPtr? || s.sig.SigInvoke? || s.sig.SigClear? || s.sig.SigComplete? then {s.sig.c}
    else {}
  }

  lemma AccessedIsAlive(s: State, c: CbId)
    requires Inv(s) && c in SignalAccess(s)
    ensures c in s.cbs && !s.cbs[c].life.Dead?
  {
    if s.sig.SigHead? { assert c in s.list; assert CbOk(s, c); }
  }

  /**
   * After removeCallback has returned (the callback was still listed, or is destroyed inside its own
   * invocation, or was running on another thread) no step of any thread changes the object, the
   * signalling call never looks at it again, and it is not on the list.
   */
  lemma NoTouchAfterRemove(run: seq<State>, h: Handle, i: nat, j: nat, c: CbId)
    requires Run(run, h) && i <= j < |run| && c in run[i].cbs && run[i].cbs[c].life.Dead?
    ensures c in run[j].cbs && run[j].cbs[c] == run[i].cbs[c]
    ensures SameLinks(run[i].links, run[j].links, c)
    ensures c !in SignalAccess(run[j]) && c !in run[j].list
  {
    RunLinks(run, h, i, j, c);
    RunMoves(run, h, i, j);
    assert CbKept(run[i], run[j], c);
    RunInv(run, h, j);
    assert CbOk(run[j], c);
    if c in SignalAccess(run[j]) { AccessedIsAlive(run[j], c); }
  }

  /** The checks written into the steps of a call exclude nothing: every access finds its callback. */
  lemma AccessesAreSafe(run: seq<State>, h: Handle, i: nat, t: Tid)
    requires Run(run, h) && i < |run| && t in run[i].threads
    ensures var s, pc := run[i], run[i].threads[t];
      && (pc.AddTry? || pc.AddLink? || pc.AddFinish? ==> pc.c in s.cbs)
      && (pc.RemCheck? ==> pc.c in s.cbs && pc.c in s.links.next && pc.c in s.links.prevNext)
      && (pc.RemUnlockDec? || pc.RemWho? || pc.RemWait? || pc.RemRelease? ==> pc.c in s.cbs)
      && (pc.RemWho? && CanRun(s, t) && s.signalId == Some(t) && s.cbs[pc.c].flagPtr ==>
          s.sig.SigRunning? && s.sig.c == pc.c)
    ensures var s := run[i];
      && (s.sig.SigHead? && s.links.head.Some? ==>
            s.links.head.value in s.links.next && s.links.head.value in s.cbs && |s.list| >= 1
            && s.list[0] == s.links.head.value)
      && (Current(s.sig).Some? ==> s.sig.c in s.cbs)
  {
    RunInv(run, h, i);
    assert ThreadOk(run[i], t, run[i].threads[t]);
    if run[i].threads[t].RemCheck? { CheckedCallback(run[i], run[i].threads[t].c); }
    if run[i].threads[t].RemWho? { assert CbOk(run[i], run[i].threads[t].c); }
    if run[i].links.head.Some? { assert LinkedAt(run[i].links, run[i].list, 0); }
  }

  /** The word is exactly the packing of what it counts, in every reachable state. */
  lemma WordDecodes(run: seq<State>, h: Handle, i: nat)
    requires Run(run, h) && i < |run|
    ensures var s := run[i];
      && s.word < WORD && IsCancelled(s.word) == Cancelled(s) && IsLocked(s.word) == s.lock.Some?
      && s.word / TOKEN % MAX_COUNT == |s.tokens| + |s.regs| && s.word / SOURCE == |s.sources|
  {
    RunInv(run, h, i);
    var s := run[i];
    Unpack(Cancelled(s), s.lock.Some?, |s.tokens| + |s.regs|, |s.sources|);
  }

  /** The lock bit excludes: at most one call is between taking and releasing it. */
  lemma LockExcludes(run: seq<State>, h: Handle, i: nat, u: Tid, v: Tid)
    requires Run(run, h) && i < |run| && u in run[i].threads && v in run[i].threads
    requires OpLocks(run[i].threads[u])
    ensures IsLocked(run[i].word)
    ensures OpLocks(run[i].threads[v]) ==> u == v
    ensures !SigLocks(run[i].sig)
  {
    RunInv(run, h, i);
    WordDecodes(run, h, i);
    assert ThreadOk(run[i], u, run[i].threads[u]);
    assert ThreadOk(run[i], v, run[i].threads[v]);
  }

  // ---------------------------------------------------------------- deletion

  lemma ListNeedsOwner(s: State)
    requires LockOk(s) && s.regs == {}
    ensures s.list == [] || exists u | u in s.threads :: s.threads[u].AddUnlock?
  {
    if s.list != [] { assert InAdd(s, s.list[0]); }
  }

  /** Nobody is inside any call once the last reference is gone, so nothing but the deletion can follow. */
  lemma DyingIsQuiet(s: State)
    requires Inv(s) && s.dying.Some?
    ensures s.list == [] && s.lock == None && s.word == Bit(Cancelled(s), CANCELLED)
    ensures s.sig.NoSignal? || s.sig.SigDone?
    ensures forall u | u in s.threads ::
      s.threads[u].Idle? || (s.threads[u].DeleteState? && s.dying == Some(u) && !s.deleted)
  {
    forall u | u in s.threads
      ensures s.threads[u].Idle? || (s.threads[u].DeleteState? && s.dying == Some(u) && !s.deleted)
    {
      assert ThreadOk(s, u, s.threads[u]);
      if !s.threads[u].Idle? && !s.threads[u].DeleteState? { InUseNotDying(s, u); }
    }
    ListNeedsOwner(s);
  }

  /**
   * The state is doomed on exactly the steps that bring both counts to zero, the thread of that step
   * is the only one that will delete it, and at that moment the lock is free and the list is empty.
   */
  lemma DoomedExactlyAtZero(run: seq<State>, h: Handle, i: nat)
    requires Run(run, h) && i < |run|
    ensures run[i].dying.Some? <==> run[i].tokens == {} && run[i].sources == {} && run[i].regs == {}
    ensures run[i].dying.Some? <==> run[i].word < TOKEN && !IsLocked(run[i].word)
    ensures run[i].dying.Some? ==> run[i].list == [] && run[i].lock == None
    ensures run[i].deleted ==> run[i].dying.Some?
    ensures forall u | u in run[i].threads && run[i].threads[u].DeleteState? ::
      run[i].dying == Some(u) && !run[i].deleted
  {
    RunInv(run, h, i);
    WordDecodes(run, h, i);
    if run[i].dying.Some? { DyingIsQuiet(run[i]); }
    forall u | u in run[i].threads && run[i].threads[u].DeleteState?
      ensures run[i].dying == Some(u) && !run[i].deleted
    {
      assert ThreadOk(run[i], u, run[i].threads[u]);
    }
  }

  /** Nothing shared is read or written after the last reference is gone, except by the deletion itself. */
  ghost predicate OnlyDeletes(s: State, s': State) {
    && s'.(threads := s.threads, deleted := s.deleted, cbs := s.cbs) == s
    && (s'.deleted == s.deleted || (!s.deleted && s'.deleted))
  }

  /** A thread of which nothing is left to do but return or delete. */
  ghost predicate AtRest(s: State, t: Tid) {
    t in s.threads && (s.threads[t].Idle? || (s.threads[t].DeleteState? && !s.deleted))
  }

  lemma QuietHandle(s: State, t: Tid, s': State)
    requires HandleStep(s, t, s') && NoRefs(s) && AtRest(s, t)
    ensures OnlyDeletes(s, s')
  {
  }

  lemma QuietCall(s: State, t: Tid, s': State)
    requires NoRefs(s) && AtRest(s, t)
    ensures !AddStep(s, t, s') && !RequestStep(s, t, s')
  {
  }

  lemma QuietRemove(s: State, t: Tid, s': State)
    requires RemoveStep(s, t, s') && s.regs == {} && AtRest(s, t)
    ensures OnlyDeletes(s, s')
  {
  }

  lemma QuietOp(s: State, t: Tid, s': State)
    requires OpStep(s, t, s') && NoRefs(s) && AtRest(s, t)
    ensures OnlyDeletes(s, s')
  {
    QuietCall(s, t, s');
    if HandleStep(s, t, s') { QuietHandle(s, t, s'); } else { QuietRemove(s, t, s'); }
  }

  lemma SigIsBusy(s: State, s': State)
    requires SigStep(s, s')
    ensures !s.sig.NoSignal? && !s.sig.SigDone?
  {
  }

  lemma QuietStep(s: State, s': State)
    requires Step(s, s') && NoRefs(s) && (s.sig.NoSignal? || s.sig.SigDone?)
    requires forall u | u in s.threads :: s.threads[u].Idle? || (s.threads[u].DeleteState? && !s.deleted)
    ensures OnlyDeletes(s, s')
  {
    if SigStep(s, s') {
      SigIsBusy(s, s');
    } else {
      var t: Tid :| OpStep(s, t, s');
      QuietOp(s, t, s');
    }
  }

  lemma DyingStep(s: State, s': State)
    requires Inv(s) && s.dying.Some? && Step(s, s')
    ensures OnlyDeletes(s, s')
  {
    DyingIsQuiet(s);
    QuietStep(s, s');
  }

  lemma DyingNext(run: seq<State>, h: Handle, k: nat)
    requires Run(run, h) && k + 1 < |run| && run[k].dying.Some?
    ensures OnlyDeletes(run[k], run[k + 1])
  {
    RunInv(run, h, k);
    assert Follows(run, k);
    DyingStep(run[k], run[k + 1]);
  }

  /** The last reference goes once: the thread that dropped it, the word and the list stay as they were then. */
  lemma {:induction false} DeletedOnce(run: seq<State>, h: Handle, i: nat, j: nat)
    requires Run(run, h) && i <= j < |run| && run[i].dying.Some?
    ensures run[j].dying == run[i].dying && (run[i].deleted ==> run[j].deleted)
    ensures run[j].word == run[i].word && run[j].links == run[i].links && run[j].signalId == run[i].signalId
    ensures run[j].sig == run[i].sig
    decreases j - i
  {
    if i < j {
      DeletedOnce(run, h, i, j - 1);
      DyingNext(run, h, j - 1);
    }
  }
}
