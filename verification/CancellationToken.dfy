/**
 * The intrusive doubly linked list of callbacks that hangs off a CancellationState: `head_`, and in
 * each callback `next_` and `prevNext_`, where `prevNext_` is the address of the pointer that points
 * to the callback (folly/folly/CancellationToken.cpp).
 */
module CallbackList {
  import opened Common

  type CbId = nat

  /** Value of prevNext_: null, the address of head_, or the address of some callback's next_. */
  datatype Slot = Null | HeadSlot | NextOf(cb: CbId)

  datatype Links = Links(head: Option<CbId>, next: map<CbId, Option<CbId>>, prevNext: map<CbId, Slot>)

  function At(list: seq<CbId>, i: nat): Option<CbId> { if i < |list| then Some(list[i]) else None }

  /** Memory holds exactly `list`, first to last. */
  ghost predicate Represents(l: Links, list: seq<CbId>) {
    && l.head == At(list, 0)
    && (forall i, j | 0 <= i < j < |list| :: list[i] != list[j])
    && (forall i | 0 <= i < |list| :: LinkedAt(l, list, i))
  }

  ghost predicate LinkedAt(l: Links, list: seq<CbId>, i: nat)
    requires i < |list|
  {
    && list[i] in l.next && l.next[list[i]] == At(list, i + 1)
    && list[i] in l.prevNext && l.prevNext[list[i]] == (if i == 0 then HeadSlot else NextOf(list[i - 1]))
  }

  /** `*slot = v`. */
  function Store(l: Links, slot: Slot, v: Option<CbId>): Links {
    match slot
    case Null => l
    case HeadSlot => l.(head := v)
    case NextOf(cb) => l.(next := l.next[cb := v])
  }

  /** tryAddCallback: push at the head. */
  function Push(l: Links, c: CbId): Links {
    var l1 := if l.head.Some? then l.(prevNext := l.prevNext[l.head.value := NextOf(c)]) else l;
    var l2 := l1.(next := l1.next[c := l1.head]);
    var l3 := l2.(prevNext := l2.prevNext[c := HeadSlot]);
    l3.(head := Some(c))
  }

  /** removeCallback: unlink from wherever the callback is. */
  function Unlink(l: Links, c: CbId): Links
    requires c in l.next && c in l.prevNext
  {
    var l1 := Store(l, l.prevNext[c], l.next[c]);
    var next := if c in l1.next then l1.next[c] else None;
    if next.Some? then l1.(prevNext := l1.prevNext[next.value := l1.prevNext[c]]) else l1
  }

  /** requestCancellation: dequeue the head. */
  function Pop(l: Links): Links
    requires l.head.Some? && l.head.value in l.next
  {
    var c := l.head.value;
    var l1 := l.(head := l.next[c]);
    var l2 := if l1.head.Some? then l1.(prevNext := l1.prevNext[l1.head.value := HeadSlot]) else l1;
    l2.(prevNext := l2.prevNext[c := Null])
  }

  lemma PushIsCons(l: Links, list: seq<CbId>, c: CbId)
    requires Represents(l, list) && c !in list
    ensures Represents(Push(l, c), [c] + list)
  {
    var list' := [c] + list;
    forall i | 0 <= i < |list'| ensures LinkedAt(Push(l, c), list', i) {
      if i > 0 { assert LinkedAt(l, list, i - 1); }
    }
  }

  function Without(list: seq<CbId>, k: nat): seq<CbId>
    requires k < |list|
  {
    list[..k] + list[k + 1..]
  }

  /** Which pointers the two stores of an unlink hit. */
  lemma UnlinkStores(l: Links, list: seq<CbId>, k: nat)
    requires Represents(l, list) && k < |list|
    ensures list[k] in l.next && list[k] in l.prevNext
    ensures var l' := Unlink(l, list[k]);
      && l'.head == (if k == 0 then At(list, 1) else l.head)
      && l'.next == (if k == 0 then l.next else l.next[list[k - 1] := At(list, k + 1)])
      && l'.prevNext == (if k + 1 < |list| then l.prevNext[list[k + 1] := l.prevNext[list[k]]] else l.prevNext)
  {
    assert LinkedAt(l, list, k);
    if k > 0 { assert LinkedAt(l, list, k - 1); }
  }

  lemma UnlinkIsRemoval(l: Links, list: seq<CbId>, k: nat)
    requires Represents(l, list) && k < |list|
    ensures list[k] in l.next && list[k] in l.prevNext
    ensures Represents(Unlink(l, list[k]), Without(list, k))
  {
    UnlinkStores(l, list, k);
    forall i | 0 <= i < |list| - 1 ensures LinkedAt(Unlink(l, list[k]), Without(list, k), i) {
      UnlinkAt(l, list, k, i);
    }
  }

  lemma UnlinkAt(l: Links, list: seq<CbId>, k: nat, i: nat)
    requires Represents(l, list) && k < |list| && i < |list| - 1
    ensures list[k] in l.next && list[k] in l.prevNext
    ensures LinkedAt(Unlink(l, list[k]), Without(list, k), i)
  {
    UnlinkStores(l, list, k);
    assert LinkedAt(l, list, k);
    assert LinkedAt(l, list, if i < k then i else i + 1);
  }

  /** next_ and prevNext_ of callback x are what they were. */
  ghost predicate SameLinks(l: Links, l': Links, x: CbId) {
    && (x in l'.next <==> x in l.next) && (x in l.next ==> l'.next[x] == l.next[x])
    && (x in l'.prevNext <==> x in l.prevNext) && (x in l.prevNext ==> l'.prevNext[x] == l.prevNext[x])
  }

  /** The surgery leaves the links of callbacks outside the list alone. */
  lemma PushKeeps(l: Links, list: seq<CbId>, c: CbId, x: CbId)
    requires Represents(l, list) && x !in list && x != c
    ensures SameLinks(l, Push(l, c), x)
  {
  }

  lemma UnlinkKeeps(l: Links, list: seq<CbId>, k: nat, x: CbId)
    requires Represents(l, list) && k < |list| && x !in list
    ensures list[k] in l.next && list[k] in l.prevNext && SameLinks(l, Unlink(l, list[k]), x)
  {
    UnlinkStores(l, list, k);
  }

  lemma PopKeeps(l: Links, list: seq<CbId>, x: CbId)
    requires Represents(l, list) && list != [] && x !in list
    ensures l.head == Some(list[0]) && list[0] in l.next && SameLinks(l, Pop(l), x)
  {
    assert LinkedAt(l, list, 0);
  }

  lemma PopIsTail(l: Links, list: seq<CbId>)
    requires Represents(l, list) && list != []
    ensures l.head == Some(list[0]) && list[0] in l.next
    ensures Represents(Pop(l), list[1..])
    ensures list[0] in Pop(l).prevNext && Pop(l).prevNext[list[0]] == Null
    ensures Pop(l).head.Some? <==> |list| > 1
  {
    assert LinkedAt(l, list, 0);
    var list' := list[1..];
    forall i | 0 <= i < |list'| ensures LinkedAt(Pop(l), list', i) {
      assert LinkedAt(l, list, i + 1);
    }
  }
}

/**
 * CancellationState as a state machine (folly/folly/CancellationToken.cpp,
 * folly/folly/CancellationToken-inl.h).
 *
 * One 64-bit word holds the cancellation bit, a spin lock and two reference counts; everything else
 * is protected by the lock or by the protocol between the signalling thread and callback
 * destructors.  A step is one access of the word, or one piece of pointer surgery under the lock, or
 * one access of a callback's own flags.  Callers are assumed to hold the token, source or callback
 * they call through for the whole call, and the counts to stay below 2^31.
 *
 * Fields marked "aux" decide nothing inside a call.  They say which objects a client may start a call
 * on, and they stand in checks that the lemma AccessesAreSafe shows always to hold.
 */
module CancellationToken {
  import opened Common
  import opened CallbackList

  // ---------------------------------------------------------------- the packed word

  const CANCELLED := 1
  const LOCKED := 2
  const TOKEN := 4
  const SOURCE := 0x2_0000_0000
  const MAX_COUNT := 0x8000_0000
  const WORD := 0x1_0000_0000_0000_0000

  function IsCancelled(w: nat): bool { w % 2 == 1 }

  function IsLocked(w: nat): bool { w / 2 % 2 == 1 }

  function CanBeCancelled(w: nat): bool { w >= SOURCE || IsCancelled(w) }

  /** fetch_add of a possibly negative amount, modulo 2^64. */
  function Add(w: nat, delta: int): nat { (w + delta) % WORD }

  // ---------------------------------------------------------------- state

  type Handle = nat

  /** aux: life of a callback object, and who is running its constructor or destructor. */
  datatype Life = Constructing(owner: Tid) | Alive | Destroying(owner: Tid) | Inert | Dead

  /** aux: where the callback stands with respect to the list. */
  datatype Stage = New | Listed | Taken | Removed

  datatype Callback = Callback(
    flagPtr: bool,        // destructorHasRunInsideCallback_ != nullptr
    completed: bool,      // callbackCompleted_
    life: Life,           // aux
    stage: Stage,         // aux
    runs: nat)            // aux: how often the callback function was invoked

  /** A call of tryAddCallback, removeCallback, requestCancellation, or a pending `delete this`. */
  datatype Pc =
    | Idle
    | AddLoad(c: CbId, h: Handle, copy: bool)
    | AddTry(c: CbId, h: Handle, copy: bool, seen: nat)
    | AddLink(c: CbId, h: Handle, copy: bool)
    | AddUnlock(c: CbId, h: Handle, copy: bool)
    | AddFinish(c: CbId)
    | RemLock(c: CbId)
    | RemCheck(c: CbId)
    | RemUnlockDec(c: CbId)
    | RemUnlock(c: CbId)
    | RemWho(c: CbId)
    | RemWait(c: CbId)
    | RemRelease(c: CbId)
    | ReqLoad(h: Handle)
    | ReqTry(h: Handle, seen: nat)
    | DeleteState

  /** The one requestCancellation call that set the cancellation bit; `gone` is its stack flag. */
  datatype Signal =
    | NoSignal
    | SigSetId(t: Tid, h: Handle)
    | SigHead(t: Tid, h: Handle)
    | SigUnlock(t: Tid, h: Handle, c: CbId, anyMore: bool)
    | SigSetPtr(t: Tid, h: Handle, c: CbId, anyMore: bool)
    | SigInvoke(t: Tid, h: Handle, c: CbId, anyMore: bool)
    | SigRunning(t: Tid, h: Handle, c: CbId, anyMore: bool, gone: bool)
    | SigClear(t: Tid, h: Handle, c: CbId, anyMore: bool)
    | SigComplete(t: Tid, h: Handle, c: CbId, anyMore: bool)
    | SigRelock(t: Tid, h: Handle)
    | SigFinal(t: Tid, h: Handle)
    | SigDone(t: Tid)

  datatype Holder = Op(t: Tid) | Signaller

  datatype State = State(
    word: nat,                        // state_
    links: Links,                     // head_, next_, prevNext_
    signalId: Option<Tid>,            // signallingThreadId_
    cbs: map<CbId, Callback>,
    threads: map<Tid, Pc>,
    sig: Signal,
    deleted: bool,                    // the state object has been freed
    tokens: set<Handle>,              // aux: live CancellationToken objects
    sources: set<Handle>,             // aux: live CancellationSource objects
    regs: set<CbId>,                  // aux: callbacks owning a token reference
    list: seq<CbId>,                  // aux: contents of the list
    lock: Option<Holder>,             // aux: who holds the lock
    dying: Option<Tid>)               // aux: who brought both counts to zero

  ghost predicate Init(s: State, h: Handle) {
    && s.word == SOURCE && s.links.head == None && s.signalId == None && s.sig.NoSignal? && !s.deleted
    && s.cbs == map[] && s.tokens == {} && s.sources == {h} && s.regs == {} && s.list == [] && s.lock == None
    && s.dying == None
    && forall t | t in s.threads :: s.threads[t].Idle?
  }

  // ---------------------------------------------------------------- helpers

  function Goto(s: State, t: Tid, pc: Pc): State { s.(threads := s.threads[t := pc]) }

  function SetCb(s: State, c: CbId, cb: Callback): State { s.(cbs := s.cbs[c := cb]) }

  /** The signalling call is somewhere other than inside a callback, so its thread runs nothing else. */
  ghost predicate SignallerBusy(sig: Signal, t: Tid) {
    !sig.NoSignal? && !sig.SigDone? && !sig.SigRunning? && sig.t == t
  }

  /** Thread t can take a step of an ordinary call at program counter pc. */
  ghost predicate CanRun(s: State, t: Tid) { t in s.threads && !SignallerBusy(s.sig, t) }

  ghost predicate Uses(pc: Pc, h: Handle) {
    (pc.AddLoad? || pc.AddTry? || pc.AddLink? || pc.AddUnlock? || pc.ReqLoad? || pc.ReqTry?) && pc.h == h
  }

  ghost predicate SigUses(sig: Signal, h: Handle) { !sig.NoSignal? && !sig.SigDone? && sig.h == h }

  /** Nobody is in the middle of a call through h: its owner may destroy it. */
  ghost predicate Unused(s: State, h: Handle) {
    !SigUses(s.sig, h) && forall u | u in s.threads :: !Uses(s.threads[u], h)
  }

  /** The thread is handing h over to a callback, so nobody else may start using it. */
  ghost predicate Moves(pc: Pc, h: Handle) {
    (pc.AddLoad? || pc.AddTry? || pc.AddLink? || pc.AddUnlock?) && pc.h == h && !pc.copy
  }

  ghost predicate Shareable(s: State, h: Handle) {
    forall u | u in s.threads :: !Moves(s.threads[u], h)
  }

  /** After a fetch_sub: the caller deletes the state if the previous word was below the limit. */
  function AfterDrop(s: State, t: Tid, before: nat, limit: nat): State {
    if before < limit then Goto(s, t, DeleteState).(dying := Some(t)) else Goto(s, t, Idle)
  }

  // ---------------------------------------------------------------- tokens and sources

  /** addTokenReference, called through a token or a source. */
  ghost predicate CopyToken(s: State, t: Tid, s': State) {
    && CanRun(s, t) && s.threads[t].Idle? && |s.tokens| + |s.regs| + 1 < MAX_COUNT
    && exists h: Handle, n: Handle | h in s.tokens + s.sources && n !in s.tokens + s.sources ::
         s' == s.(word := Add(s.word, TOKEN), tokens := s.tokens + {n})
  }

  ghost predicate CopySource(s: State, t: Tid, s': State) {
    && CanRun(s, t) && s.threads[t].Idle? && |s.sources| + 1 < MAX_COUNT
    && exists h: Handle, n: Handle | h in s.sources && n !in s.tokens + s.sources ::
         s' == s.(word := Add(s.word, SOURCE), sources := s.sources + {n})
  }

  /** removeTokenReference by a token's destructor. */
  ghost predicate DropToken(s: State, t: Tid, s': State) {
    && CanRun(s, t) && s.threads[t].Idle?
    && exists h: Handle | h in s.tokens && Unused(s, h) ::
         s' == AfterDrop(s.(word := Add(s.word, -TOKEN), tokens := s.tokens - {h}), t, s.word, 2 * TOKEN)
  }

  /** removeSourceReference. */
  ghost predicate DropSource(s: State, t: Tid, s': State) {
    && CanRun(s, t) && s.threads[t].Idle?
    && exists h: Handle | h in s.sources && Unused(s, h) ::
         s' == AfterDrop(s.(word := Add(s.word, -SOURCE), sources := s.sources - {h}), t, s.word, SOURCE + TOKEN)
  }

  ghost predicate DoDelete(s: State, t: Tid, s': State) {
    && CanRun(s, t) && s.threads[t].DeleteState?
    && s' == Goto(s.(deleted := true), t, Idle)
  }

  // ---------------------------------------------------------------- tryAddCallback

  /** A CancellationCallback is constructed with token h; `copy` says the token stays with the caller. */
  ghost predicate BeginAdd(s: State, t: Tid, s': State) {
    && CanRun(s, t) && s.threads[t].Idle?
    && exists c: CbId, h: Handle, copy: bool
         | c !in s.cbs && h in s.tokens && (if copy then Shareable(s, h) else Unused(s, h)) ::
         s' == Goto(SetCb(s, c, Callback(false, false, Constructing(t), New, 0)), t, AddLoad(c, h, copy))
  }

  ghost predicate DoAddLoad(s: State, t: Tid, s': State) {
    && CanRun(s, t) && s.threads[t].AddLoad?
    && var pc := s.threads[t]; s' == Goto(s, t, AddTry(pc.c, pc.h, pc.copy, s.word))
  }

  /** One turn of tryLock with the predicate of tryAddCallback; the weak compare-and-swap may fail at will. */
  ghost predicate DoAddTry(s: State, t: Tid, s': State) {
    && CanRun(s, t) && s.threads[t].AddTry? && s.threads[t].c in s.cbs
    && var pc := s.threads[t];
       var cb := s.cbs[pc.c];
       if IsCancelled(pc.seen) then
         s' == Goto(SetCb(s, pc.c, cb.(runs := cb.runs + 1, life := Inert)), t, Idle)
       else if !CanBeCancelled(pc.seen) then
         s' == Goto(SetCb(s, pc.c, cb.(life := Inert)), t, Idle)
       else if IsLocked(pc.seen) then
         s' == Goto(s, t, AddLoad(pc.c, pc.h, pc.copy))
       else
         || s' == Goto(s, t, AddTry(pc.c, pc.h, pc.copy, s.word))
         || (s.word == pc.seen &&
             s' == Goto(s.(word := Add(s.word, LOCKED), lock := Some(Op(t))), t, AddLink(pc.c, pc.h, pc.copy)))
  }

  ghost predicate DoAddLink(s: State, t: Tid, s': State) {
    && CanRun(s, t) && s.threads[t].AddLink? && s.threads[t].c in s.cbs
    && var pc := s.threads[t];
       s' == Goto(SetCb(s.(links := Push(s.links, pc.c), list := [pc.c] + s.list), pc.c, s.cbs[pc.c].(stage := Listed)),
                  t, AddUnlock(pc.c, pc.h, pc.copy))
  }

  /** unlockAndIncrementTokenCount, or unlock() with the caller's own token reference handed over. */
  ghost predicate DoAddUnlock(s: State, t: Tid, s': State) {
    && CanRun(s, t) && s.threads[t].AddUnlock?
    && var pc := s.threads[t];
       && (pc.copy ==> |s.tokens| + |s.regs| + 1 < MAX_COUNT)
       && s' == Goto(s.(word := Add(s.word, if pc.copy then TOKEN - LOCKED else -LOCKED), lock := None,
                     regs := s.regs + {pc.c}, tokens := if pc.copy then s.tokens else s.tokens - {pc.h}),
                  t, AddFinish(pc.c))
  }

  /** The constructor stores state_ and returns. */
  ghost predicate DoAddFinish(s: State, t: Tid, s': State) {
    && CanRun(s, t) && s.threads[t].AddFinish? && s.threads[t].c in s.cbs
    && var pc := s.threads[t]; s' == Goto(SetCb(s, pc.c, s.cbs[pc.c].(life := Alive)), t, Idle)
  }

  // ---------------------------------------------------------------- removeCallback

  /** The destructor of a fully constructed callback runs; an unregistered one has nothing to do. */
  ghost predicate BeginRemove(s: State, t: Tid, s': State) {
    && CanRun(s, t) && s.threads[t].Idle?
    && exists c: CbId | c in s.cbs ::
         || (s.cbs[c].life.Alive? && s' == Goto(SetCb(s, c, s.cbs[c].(life := Destroying(t))), t, RemLock(c)))
         || (s.cbs[c].life.Inert? && s' == SetCb(s, c, s.cbs[c].(life := Dead)))
  }

  /** lock(): waits for the lock bit to be clear and sets it. */
  ghost predicate DoRemLock(s: State, t: Tid, s': State) {
    && CanRun(s, t) && s.threads[t].RemLock?
    && (|| s' == s
        || (!IsLocked(s.word)
            && s' == Goto(s.(word := Add(s.word, LOCKED), lock := Some(Op(t))), t, RemCheck(s.threads[t].c))))
  }

  ghost predicate DoRemCheck(s: State, t: Tid, s': State) {
    && CanRun(s, t) && s.threads[t].RemCheck? && s.threads[t].c in s.cbs
    && var c := s.threads[t].c;
       && c in s.links.next && c in s.links.prevNext
       && if s.links.prevNext[c] != Null then
            s' == Goto(SetCb(s.(links := Unlink(s.links, c), list := Remove(s.list, c)), c,
                             s.cbs[c].(stage := Removed)),
                       t, RemUnlockDec(c))
          else
            s' == Goto(s, t, RemUnlock(c))
  }

  function Remove(list: seq<CbId>, c: CbId): seq<CbId> {
    if list == [] then [] else if list[0] == c then list[1..] else [list[0]] + Remove(list[1..], c)
  }

  /** unlockAndDecrementTokenCount; the callback object is gone afterwards. */
  ghost predicate DoRemUnlockDec(s: State, t: Tid, s': State) {
    && CanRun(s, t) && s.threads[t].RemUnlockDec? && s.threads[t].c in s.cbs
    && var c := s.threads[t].c;
       s' == AfterDrop(SetCb(s.(word := Add(s.word, -(LOCKED + TOKEN)), lock := None, regs := s.regs - {c}),
                             c, s.cbs[c].(life := Dead)),
                       t, s.word, LOCKED + 2 * TOKEN)
  }

  ghost predicate DoRemUnlock(s: State, t: Tid, s': State) {
    && CanRun(s, t) && s.threads[t].RemUnlock?
    && s' == Goto(s.(word := Add(s.word, -LOCKED), lock := None), t, RemWho(s.threads[t].c))
  }

  /** On the signalling thread: tell it, through its stack flag, if we are inside this very callback. */
  ghost predicate DoRemWho(s: State, t: Tid, s': State) {
    && CanRun(s, t) && s.threads[t].RemWho? && s.threads[t].c in s.cbs
    && var c := s.threads[t].c;
       if s.signalId == Some(t) then
         if s.cbs[c].flagPtr then
           s.sig.SigRunning? && s' == Goto(s.(sig := s.sig.(gone := true)), t, RemRelease(c))
         else
           s' == Goto(s, t, RemRelease(c))
       else
         s' == Goto(s, t, RemWait(c))
  }

  ghost predicate DoRemWait(s: State, t: Tid, s': State) {
    && CanRun(s, t) && s.threads[t].RemWait? && s.threads[t].c in s.cbs
    && var c := s.threads[t].c;
       s' == if s.cbs[c].completed then Goto(s, t, RemRelease(c)) else s
  }

  /** removeTokenReference at the end of removeCallback; the callback object is gone afterwards. */
  ghost predicate DoRemRelease(s: State, t: Tid, s': State) {
    && CanRun(s, t) && s.threads[t].RemRelease? && s.threads[t].c in s.cbs
    && var c := s.threads[t].c;
       s' == AfterDrop(SetCb(s.(word := Add(s.word, -TOKEN), regs := s.regs - {c}), c, s.cbs[c].(life := Dead)),
                       t, s.word, 2 * TOKEN)
  }

  // ---------------------------------------------------------------- requestCancellation

  ghost predicate BeginRequest(s: State, t: Tid, s': State) {
    && CanRun(s, t) && s.threads[t].Idle?
    && exists h: Handle | h in s.sources :: s' == Goto(s, t, ReqLoad(h))
  }

  ghost predicate DoReqLoad(s: State, t: Tid, s': State) {
    && CanRun(s, t) && s.threads[t].ReqLoad?
    && s' == Goto(s, t, ReqTry(s.threads[t].h, s.word))
  }

  /** tryLockAndCancelUnlessCancelled. */
  ghost predicate DoReqTry(s: State, t: Tid, s': State) {
    && CanRun(s, t) && s.threads[t].ReqTry?
    && var pc := s.threads[t];
       if IsCancelled(pc.seen) then s' == Goto(s, t, Idle)
       else if IsLocked(pc.seen) then s' == Goto(s, t, ReqLoad(pc.h))
       else
         || s' == Goto(s, t, ReqTry(pc.h, s.word))
         || (s.word == pc.seen &&
             s' == Goto(s.(word := Add(s.word, LOCKED + CANCELLED), lock := Some(Signaller), sig := SigSetId(t, pc.h)),
                        t, Idle))
  }

  /** The steps of the call that won the race to cancel. */
  ghost predicate SigStep(s: State, s': State) {
    match s.sig
    case NoSignal => false
    case SigDone(_) => false
    case SigSetId(t, h) => s' == s.(signalId := Some(t), sig := SigHead(t, h))
    case SigHead(t, h) =>
      if s.links.head.None? then s' == s.(sig := SigFinal(t, h))
      else
        var c := s.links.head.value;
        && c in s.links.next && c in s.cbs && |s.list| >= 1
        && s' == SetCb(s.(links := Pop(s.links), list := s.list[1..],
                          sig := SigUnlock(t, h, c, Pop(s.links).head.Some?)),
                       c, s.cbs[c].(stage := Taken))
    case SigUnlock(t, h, c, more) =>
      s' == s.(word := Add(s.word, -LOCKED), lock := None, sig := SigSetPtr(t, h, c, more))
    case SigSetPtr(t, h, c, more) =>
      c in s.cbs && s' == SetCb(s, c, s.cbs[c].(flagPtr := true)).(sig := SigInvoke(t, h, c, more))
    case SigInvoke(t, h, c, more) =>
      c in s.cbs && s' == SetCb(s, c, s.cbs[c].(runs := s.cbs[c].runs + 1)).(sig := SigRunning(t, h, c, more, false))
    case SigRunning(t, h, c, more, gone) =>
      t in s.threads && s.threads[t].Idle?
      && s' == s.(sig := if gone then AfterCall(t, h, more) else SigClear(t, h, c, more))
    case SigClear(t, h, c, more) =>
      c in s.cbs && s' == SetCb(s, c, s.cbs[c].(flagPtr := false)).(sig := SigComplete(t, h, c, more))
    case SigComplete(t, h, c, more) =>
      c in s.cbs && s' == SetCb(s, c, s.cbs[c].(completed := true)).(sig := AfterCall(t, h, more))
    case SigRelock(t, h) =>
      s' == s || (!IsLocked(s.word)
                  && s' == s.(word := Add(s.word, LOCKED), lock := Some(Signaller), sig := SigHead(t, h)))
    case SigFinal(t, h) => s' == s.(word := Add(s.word, -LOCKED), lock := None, sig := SigDone(t))
  }

  /** `if (!anyMore) return false; lock();` */
  function AfterCall(t: Tid, h: Handle, anyMore: bool): Signal {
    if anyMore then SigRelock(t, h) else SigDone(t)
  }

  // ---------------------------------------------------------------- one step

  ghost predicate HandleStep(s: State, t: Tid, s': State) {
    CopyToken(s, t, s') || CopySource(s, t, s') || DropToken(s, t, s') || DropSource(s, t, s') || DoDelete(s, t, s')
  }

  ghost predicate AddStep(s: State, t: Tid, s': State) {
    BeginAdd(s, t, s') || DoAddLoad(s, t, s') || DoAddTry(s, t, s') || DoAddLink(s, t, s')
    || DoAddUnlock(s, t, s') || DoAddFinish(s, t, s')
  }

  ghost predicate RemoveStep(s: State, t: Tid, s': State) {
    || BeginRemove(s, t, s') || DoRemLock(s, t, s') || DoRemCheck(s, t, s') || DoRemUnlockDec(s, t, s')
    || DoRemUnlock(s, t, s')
    || DoRemWho(s, t, s') || DoRemWait(s, t, s') || DoRemRelease(s, t, s')
  }

  ghost predicate RequestStep(s: State, t: Tid, s': State) {
    BeginRequest(s, t, s') || DoReqLoad(s, t, s') || DoReqTry(s, t, s')
  }

  ghost predicate OpStep(s: State, t: Tid, s': State) {
    HandleStep(s, t, s') || AddStep(s, t, s') || RemoveStep(s, t, s') || RequestStep(s, t, s')
  }

  ghost predicate Step(s: State, s': State) {
    SigStep(s, s') || exists t: Tid :: OpStep(s, t, s')
  }

  ghost predicate Follows(run: seq<State>, i: nat)
    requires i + 1 < |run|
  {
    Step(run[i], run[i + 1])
  }

  ghost predicate Run(run: seq<State>, h: Handle) {
    && |run| >= 1 && Init(run[0], h)
    && forall i | 0 <= i < |run| - 1 :: Follows(run, i)
  }
}
