/**
 * NodeRecycler of the skip list (folly/folly/ConcurrentSkipList-inl.h) as a state machine.
 *
 * Accessors take a reference, unlink nodes from the list and hand them to add(); the accessor that
 * finds itself alone when it releases its reference destroys what has been collected.  A step is one
 * access of refs_, dirty_ or nodes_, or one operation on the recycler's lock.
 *
 * Fields marked "aux" decide nothing inside a call: they only say which nodes an accessor can link or
 * unlink next.
 */
module NodeRecycler {
  import opened Common

  type Node = nat

  /** aux: where a node is between its creation and its destruction. */
  datatype Place = Linked | Adding(t: Tid) | Stored | Taken(t: Tid) | Destroyed

  datatype Pc =
    | Out                          // holds no reference
    | Inside                       // holds a reference and may read the list
    // add(node)
    | AddLock(n: Node)
    | AddPush(n: Node)
    | AddDirty
    | AddUnlock
    // releaseRef()
    | RelDirty
    | RelRefs
    | RelLock
    | RelNodes
    | RelRecheck
    | RelSwap
    | RelClean(todo: seq<Node>)
    | RelUnlock(todo: seq<Node>)
    | RelDestroy(todo: seq<Node>)
    | RelDec(locked: bool)
    | RelExit                      // reference given back, lock still held

  datatype State = State(
    refs: int,
    dirty: bool,
    nodes: Option<seq<Node>>,      // nodes_, null before the first add and after a swap
    lock: Option<Tid>,
    threads: map<Tid, Pc>,
    shut: bool,                    // the recycler has been destroyed
    place: map<Node, Place>,       // aux
    readers: map<Node, set<Tid>>,  // aux: accessors alive when the node was unlinked, and ever since
    destroyed: seq<Node>)          // aux: the nodes destroyed, in order

  /** The thread holds a reference that refs_ counts. */
  predicate Alive(pc: Pc) { !pc.Out? && !pc.RelExit? }

  function Live(s: State): set<Tid> { set t | t in s.threads && Alive(s.threads[t]) }

  ghost predicate Init(s: State) {
    && s.refs == 0 && !s.dirty && s.nodes == None && s.lock == None && !s.shut
    && s.place == map[] && s.readers == map[] && s.destroyed == []
    && forall t | t in s.threads :: s.threads[t].Out?
  }

  function Goto(s: State, t: Tid, pc: Pc): State { s.(threads := s.threads[t := pc]) }

  function Without(readers: map<Node, set<Tid>>, t: Tid): map<Node, set<Tid>> {
    map n | n in readers :: readers[n] - {t}
  }

  // ---------------------------------------------------------------- accessors

  ghost predicate DoAddRef(s: State, t: Tid, s': State) {
    && !s.shut && t in s.threads && s.threads[t].Out?
    && s' == Goto(s.(refs := s.refs + 1), t, Inside)
  }

  /** An accessor puts a new node into the list. */
  ghost predicate DoLink(s: State, t: Tid, s': State) {
    && t in s.threads && s.threads[t].Inside?
    && exists n: Node | n !in s.place :: s' == s.(place := s.place[n := Linked])
  }

  /** An accessor has unlinked a node and calls add. */
  ghost predicate DoUnlink(s: State, t: Tid, n: Node, s': State) {
    && t in s.threads && s.threads[t].Inside? && n in s.place && s.place[n].Linked?
    && s' == Goto(s.(place := s.place[n := Adding(t)], readers := s.readers[n := Live(s)]), t, AddLock(n))
  }

  // ---------------------------------------------------------------- add

  ghost predicate DoAddLock(s: State, t: Tid, s': State) {
    && t in s.threads && s.threads[t].AddLock? && s.lock == None
    && s' == Goto(s.(lock := Some(t)), t, AddPush(s.threads[t].n))
  }

  ghost predicate DoAddPush(s: State, t: Tid, s': State) {
    && t in s.threads && s.threads[t].AddPush?
    && var n := s.threads[t].n;
       s' == Goto(s.(nodes := Some(if s.nodes.None? then [n] else s.nodes.value + [n]), place := s.place[n := Stored]),
                  t, AddDirty)
  }

  ghost predicate DoAddDirty(s: State, t: Tid, s': State) {
    t in s.threads && s.threads[t].AddDirty? && s' == Goto(s.(dirty := true), t, AddUnlock)
  }

  ghost predicate DoAddUnlock(s: State, t: Tid, s': State) {
    t in s.threads && s.threads[t].AddUnlock? && s' == Goto(s.(lock := None), t, Inside)
  }

  // ---------------------------------------------------------------- releaseRef

  ghost predicate BeginRelease(s: State, t: Tid, s': State) {
    t in s.threads && s.threads[t].Inside? && s' == Goto(s, t, RelDirty)
  }

  ghost predicate DoRelDirty(s: State, t: Tid, s': State) {
    t in s.threads && s.threads[t].RelDirty? && s' == Goto(s, t, if s.dirty then RelRefs else RelDec(false))
  }

  ghost predicate DoRelRefs(s: State, t: Tid, s': State) {
    t in s.threads && s.threads[t].RelRefs? && s' == Goto(s, t, if s.refs > 1 then RelDec(false) else RelLock)
  }

  ghost predicate DoRelLock(s: State, t: Tid, s': State) {
    && t in s.threads && s.threads[t].RelLock? && s.lock == None
    && s' == Goto(s.(lock := Some(t)), t, RelNodes)
  }

  ghost predicate DoRelNodes(s: State, t: Tid, s': State) {
    t in s.threads && s.threads[t].RelNodes? && s' == Goto(s, t, if s.nodes.None? then RelDec(true) else RelRecheck)
  }

  ghost predicate DoRelRecheck(s: State, t: Tid, s': State) {
    t in s.threads && s.threads[t].RelRecheck? && s' == Goto(s, t, if s.refs > 1 then RelDec(true) else RelSwap)
  }

  ghost predicate DoRelSwap(s: State, t: Tid, s': State) {
    && t in s.threads && s.threads[t].RelSwap? && s.nodes.Some?
    && s' == Goto(s.(nodes := None,
                     place := map n | n in s.place :: if s.place[n].Stored? then Taken(t) else s.place[n]),
                  t, RelClean(s.nodes.value))
  }

  ghost predicate DoRelClean(s: State, t: Tid, s': State) {
    t in s.threads && s.threads[t].RelClean? && s' == Goto(s.(dirty := false), t, RelUnlock(s.threads[t].todo))
  }

  ghost predicate DoRelUnlock(s: State, t: Tid, s': State) {
    t in s.threads && s.threads[t].RelUnlock? && s' == Goto(s.(lock := None), t, RelDestroy(s.threads[t].todo))
  }

  ghost predicate DoRelDestroy(s: State, t: Tid, s': State) {
    && t in s.threads && s.threads[t].RelDestroy?
    && var todo := s.threads[t].todo;
       if todo == [] then s' == Goto(s, t, RelDec(false))
       else s' == Goto(s.(place := s.place[todo[0] := Destroyed], destroyed := s.destroyed + [todo[0]]),
                       t, RelDestroy(todo[1..]))
  }

  /** fetch_add(-1); inside the locked region the lock is released only afterwards. */
  ghost predicate DoRelDec(s: State, t: Tid, s': State) {
    && t in s.threads && s.threads[t].RelDec?
    && s' == Goto(s.(refs := s.refs - 1, readers := Without(s.readers, t)), t,
                  if s.threads[t].locked then RelExit else Out)
  }

  ghost predicate DoRelExit(s: State, t: Tid, s': State) {
    t in s.threads && s.threads[t].RelExit? && s' == Goto(s.(lock := None), t, Out)
  }

  /** The destructor, once no accessor is left. */
  ghost predicate Shutdown(s: State, s': State) {
    && !s.shut && (forall t | t in s.threads :: s.threads[t].Out?)
    && var left := if s.nodes.None? then [] else s.nodes.value;
       s' == s.(shut := true, nodes := None, destroyed := s.destroyed + left,
                place := map n | n in s.place :: if s.place[n].Stored? then Destroyed else s.place[n])
  }

  ghost predicate Step(s: State, t: Tid, s': State) {
    || DoAddRef(s, t, s') || DoLink(s, t, s') || (exists n: Node :: DoUnlink(s, t, n, s'))
    || DoAddLock(s, t, s') || DoAddPush(s, t, s') || DoAddDirty(s, t, s') || DoAddUnlock(s, t, s')
    || BeginRelease(s, t, s') || DoRelDirty(s, t, s') || DoRelRefs(s, t, s') || DoRelLock(s, t, s')
    || DoRelNodes(s, t, s')
    || DoRelRecheck(s, t, s') || DoRelSwap(s, t, s') || DoRelClean(s, t, s') || DoRelUnlock(s, t, s')
    || DoRelDestroy(s, t, s')
    || DoRelDec(s, t, s') || DoRelExit(s, t, s') || Shutdown(s, s')
  }

  ghost predicate Follows(run: seq<State>, sched: seq<Tid>, i: nat)
    requires i + 1 < |run| && i < |sched|
  {
    Step(run[i], sched[i], run[i + 1])
  }

  ghost predicate Run(run: seq<State>, sched: seq<Tid>) {
    && |run| == |sched| + 1 && Init(run[0])
    && forall i | 0 <= i < |sched| :: Follows(run, sched, i)
  }

  // ---------------------------------------------------------------- invariant

  ghost predicate Distinct(q: seq<Node>) { forall i, j | 0 <= i < j < |q| :: q[i] != q[j] }

  predicate Locked(pc: Pc) {
    || pc.AddPush? || pc.AddDirty? || pc.AddUnlock? || pc.RelNodes? || pc.RelRecheck? || pc.RelSwap?
    || pc.RelClean? || pc.RelUnlock?
    || (pc.RelDec? && pc.locked) || pc.RelExit?
  }

  /** The nodes a release is about to destroy. */
  function Todo(pc: Pc): seq<Node> { if pc.RelClean? || pc.RelUnlock? || pc.RelDestroy? then pc.todo else [] }

  ghost predicate PlaceOk(s: State, n: Node)
    requires n in s.place
  {
    && (s.place[n].Stored? <==> s.nodes.Some? && n in s.nodes.value)
    && (s.place[n].Destroyed? <==> n in s.destroyed)
    && (s.place[n].Adding? ==> var t := s.place[n].t;
        t in s.threads && (s.threads[t] == AddLock(n) || s.threads[t] == AddPush(n)))
    && (s.place[n].Taken? ==> s.place[n].t in s.threads && n in Todo(s.threads[s.place[n].t]))
    && (!s.place[n].Linked? ==> n in s.readers && s.readers[n] <= Live(s))
    && (s.place[n].Taken? ==> s.readers[n] <= {s.place[n].t})
  }

  ghost predicate MemoryOk(s: State) {
    && s.refs == |Live(s)|
    && (forall n {:trigger PlaceOk(s, n)} | n in s.place :: PlaceOk(s, n))
    && (s.nodes.Some? ==> Distinct(s.nodes.value) && forall n | n in s.nodes.value :: n in s.place)
    && Distinct(s.destroyed) && (forall n | n in s.destroyed :: n in s.place)
    && (s.lock.Some? ==> s.lock.value in s.threads && Locked(s.threads[s.lock.value]))
    && (s.shut ==> s.nodes == None && forall t | t in s.threads :: s.threads[t].Out?)
  }

  ghost predicate ThreadOk(s: State, t: Tid, pc: Pc) {
    && (Locked(pc) ==> s.lock == Some(t))
    && (pc.AddLock? || pc.AddPush? ==> pc.n in s.place && s.place[pc.n] == Adding(t))
    && Distinct(Todo(pc)) && (forall n | n in Todo(pc) :: n in s.place && s.place[n] == Taken(t))
    && (pc.RelSwap? || pc.RelRecheck? ==> s.nodes.Some?)
    && (pc.RelSwap? ==> forall n | n in s.nodes.value :: n in s.readers && s.readers[n] <= {t})
  }

  ghost predicate ThreadAt(s: State, t: Tid)
    requires t in s.threads
  {
    ThreadOk(s, t, s.threads[t])
  }

  ghost predicate Inv(s: State) {
    && MemoryOk(s)
    && forall t {:trigger ThreadAt(s, t)} | t in s.threads :: ThreadAt(s, t)
  }

  // ---------------------------------------------------------------- every step keeps it

  /** Thread t moves and everything that concerns the other threads stays. */
  ghost predicate OthersKept(s: State, t: Tid, s': State) {
    && t in s.threads && t in s'.threads && s'.threads == s.threads[t := s'.threads[t]]
    && (s.lock == Some(t) || s.lock == None || s'.lock == s.lock)
    && (s'.lock == s.lock || s'.lock == None || s'.lock == Some(t))
    && (s.lock.Some? && s.lock != Some(t) ==> s'.nodes == s.nodes)
    && (forall n | n in s.place && (s.place[n].Adding? || s.place[n].Taken?) && s.place[n].t != t ::
        n in s'.place && s'.place[n] == s.place[n])
    && (forall n | n in s.readers && n in s.place && s.place[n].Stored? ::
        n in s'.readers && s'.readers[n] <= s.readers[n])
  }

  lemma ThreadsKept(s: State, t: Tid, s': State)
    requires Inv(s) && OthersKept(s, t, s') && ThreadOk(s', t, s'.threads[t])
    ensures forall u {:trigger ThreadAt(s', u)} | u in s'.threads :: ThreadAt(s', u)
  {
    forall u | u in s'.threads ensures ThreadAt(s', u) {
      if u != t {
        assert ThreadAt(s, u);
        if s.threads[u].RelSwap? {
          forall n | n in s.nodes.value ensures n in s'.readers && s'.readers[n] <= {u} { assert PlaceOk(s, n); }
        }
      }
    }
  }

  lemma LiveMoves(s: State, t: Tid, s': State)
    requires t in s.threads && t in s'.threads && s'.threads == s.threads[t := s'.threads[t]]
    ensures Live(s') == if Alive(s'.threads[t]) then Live(s) + {t} else Live(s) - {t}
    ensures |Live(s')| == |Live(s)| + (if Alive(s'.threads[t]) && !Alive(s.threads[t]) then 1 else 0)
                                    - (if !Alive(s'.threads[t]) && Alive(s.threads[t]) then 1 else 0)
  {
    var was, now := Live(s), if Alive(s'.threads[t]) then Live(s) + {t} else Live(s) - {t};
    forall u ensures u in Live(s') <==> u in now { assert u in was <==> u in s.threads && Alive(s.threads[u]); }
    assert Live(s') == now;
    assert t in was <==> Alive(s.threads[t]);
    assert t in was ==> was + {t} == was;
    assert t !in was ==> was - {t} == was;
  }

  /** Steps that touch neither the nodes nor the count. */
  ghost predicate Quietly(s: State, t: Tid, s': State) {
    && t in s.threads && t in s'.threads && s' == Goto(s.(dirty := s'.dirty, lock := s'.lock), t, s'.threads[t])
    && (s'.lock == s.lock || (s.lock == None && s'.lock == Some(t)) || (s.lock == Some(t) && s'.lock == None))
    && (s'.lock == Some(t) ==> Locked(s'.threads[t]))
    && Alive(s'.threads[t]) == Alive(s.threads[t]) && Todo(s'.threads[t]) == Todo(s.threads[t])
    && (s.threads[t].AddLock? || s.threads[t].AddPush? ==> s'.threads[t] == AddPush(s.threads[t].n))
  }

  lemma QuietKeeps(s: State, t: Tid, s': State)
    requires Inv(s) && Quietly(s, t, s') && ThreadOk(s', t, s'.threads[t]) && !s.shut
    ensures Inv(s')
  {
    LiveMoves(s, t, s');
    assert Live(s') == Live(s);
    forall n | n in s'.place ensures PlaceOk(s', n) { assert PlaceOk(s, n); }
    ThreadsKept(s, t, s');
  }

  ghost predicate QuietAdd(s: State, t: Tid, s': State) {
    DoAddLock(s, t, s') || DoAddDirty(s, t, s') || DoAddUnlock(s, t, s')
  }

  ghost predicate QuietCheck(s: State, t: Tid, s': State) {
    BeginRelease(s, t, s') || DoRelDirty(s, t, s') || DoRelRefs(s, t, s')
  }

  ghost predicate QuietEnter(s: State, t: Tid, s': State) { DoRelLock(s, t, s') || DoRelNodes(s, t, s') }

  ghost predicate QuietTake(s: State, t: Tid, s': State) {
    DoRelRecheck(s, t, s') || DoRelClean(s, t, s') || DoRelUnlock(s, t, s')
  }

  ghost predicate QuietStep(s: State, t: Tid, s': State) {
    QuietAdd(s, t, s') || QuietCheck(s, t, s') || QuietEnter(s, t, s') || QuietTake(s, t, s')
  }

  /** Under the lock with a count of one there is no other accessor left, whatever arrives later. */
  lemma AloneReads(s: State, t: Tid, n: Node)
    requires MemoryOk(s) && t in s.threads && Alive(s.threads[t]) && s.refs <= 1 && s.nodes.Some? && n in s.nodes.value
    ensures n in s.readers && s.readers[n] <= {t}
  {
    assert PlaceOk(s, n);
    assert t in Live(s);
    forall u | u in s.readers[n] ensures u == t {
      if u != t { assert {t, u} <= Live(s); CardinalityTwo(Live(s), t, u); }
    }
  }

  lemma CardinalityTwo(a: set<Tid>, t: Tid, u: Tid)
    requires t in a && u in a && t != u
    ensures |a| >= 2
  {
    assert |a - {t}| == |a| - 1 && u in a - {t};
  }

  lemma QuietAddNext(s: State, t: Tid, s': State)
    requires QuietAdd(s, t, s') && ThreadOk(s, t, s.threads[t]) && (s.lock == Some(t) ==> Locked(s.threads[t]))
    ensures ThreadOk(s', t, s'.threads[t]) && Quietly(s, t, s')
  {
  }

  /** Nothing is asked of a thread without a node, a lock or a batch in hand. */
  lemma FreeHands(s: State, t: Tid, pc: Pc)
    requires pc.RelDirty? || pc.RelRefs? || pc.RelLock? || pc == RelDec(false)
    ensures ThreadOk(s, t, pc) && !Locked(pc) && Todo(pc) == [] && Alive(pc)
  {
  }

  lemma QuietCheckNext(s: State, t: Tid, s': State)
    requires QuietCheck(s, t, s') && (s.lock == Some(t) ==> Locked(s.threads[t]))
    ensures ThreadOk(s', t, s'.threads[t]) && Quietly(s, t, s')
  {
    FreeHands(s', t, s'.threads[t]);
  }

  lemma QuietEnterNext(s: State, t: Tid, s': State)
    requires QuietEnter(s, t, s') && ThreadOk(s, t, s.threads[t]) && (s.lock == Some(t) ==> Locked(s.threads[t]))
    ensures ThreadOk(s', t, s'.threads[t]) && Quietly(s, t, s')
  {
  }

  lemma QuietTakeNext(s: State, t: Tid, s': State)
    requires QuietTake(s, t, s') && ThreadOk(s, t, s.threads[t]) && (s.lock == Some(t) ==> Locked(s.threads[t]))
    requires s.threads[t].RelRecheck? && s.refs <= 1 ==>
      forall n | n in s.nodes.value :: n in s.readers && s.readers[n] <= {t}
    ensures ThreadOk(s', t, s'.threads[t]) && Quietly(s, t, s')
  {
  }

  lemma QuietStepKeeps(s: State, t: Tid, s': State)
    requires Inv(s) && QuietStep(s, t, s')
    ensures Inv(s')
  {
    assert ThreadAt(s, t);
    if QuietAdd(s, t, s') {
      QuietAddNext(s, t, s');
    } else if QuietCheck(s, t, s') {
      QuietCheckNext(s, t, s');
    } else if QuietEnter(s, t, s') {
      QuietEnterNext(s, t, s');
    } else {
      if s.threads[t].RelRecheck? && s.refs <= 1 {
        forall n | n in s.nodes.value ensures n in s.readers && s.readers[n] <= {t} { AloneReads(s, t, n); }
      }
      QuietTakeNext(s, t, s');
    }
    QuietKeeps(s, t, s');
  }

  lemma AddRefKeeps(s: State, t: Tid, s': State)
    requires Inv(s) && DoAddRef(s, t, s')
    ensures Inv(s')
  {
    assert ThreadAt(s, t);
    LiveMoves(s, t, s');
    forall n | n in s'.place ensures PlaceOk(s', n) { assert PlaceOk(s, n); }
    ThreadsKept(s, t, s');
  }

  lemma LinkKeeps(s: State, t: Tid, s': State)
    requires Inv(s) && DoLink(s, t, s')
    ensures Inv(s')
  {
    assert ThreadAt(s, t);
    assert s.threads[t := s.threads[t]] == s.threads;
    LiveMoves(s, t, s');
    forall n | n in s'.place ensures PlaceOk(s', n) { if n in s.place { assert PlaceOk(s, n); } }
    ThreadsKept(s, t, s');
  }

  lemma UnlinkKeeps(s: State, t: Tid, n: Node, s': State)
    requires Inv(s) && DoUnlink(s, t, n, s')
    ensures Inv(s')
  {
    assert ThreadAt(s, t) && PlaceOk(s, n);
    LiveMoves(s, t, s');
    assert Live(s') == Live(s);
    forall x | x in s'.place ensures PlaceOk(s', x) { assert PlaceOk(s, x); }
    ThreadsKept(s, t, s');
  }

  lemma PushKeeps(s: State, t: Tid, s': State)
    requires Inv(s) && DoAddPush(s, t, s')
    ensures Inv(s')
  {
    var n := s.threads[t].n;
    assert ThreadAt(s, t) && PlaceOk(s, n);
    LiveMoves(s, t, s');
    assert Live(s') == Live(s);
    forall x | x in s'.place ensures PlaceOk(s', x) { assert PlaceOk(s, x); }
    ThreadsKept(s, t, s');
  }

  lemma SwapKeeps(s: State, t: Tid, s': State)
    requires Inv(s) && DoRelSwap(s, t, s')
    ensures Inv(s')
  {
    assert ThreadAt(s, t);
    LiveMoves(s, t, s');
    assert Live(s') == Live(s);
    forall x | x in s'.place ensures PlaceOk(s', x) { assert PlaceOk(s, x); }
    forall x | x in s.nodes.value ensures s'.place[x] == Taken(t) { assert PlaceOk(s, x); }
    ThreadsKept(s, t, s');
  }

  lemma DistinctJoin(a: seq<Node>, b: seq<Node>)
    requires Distinct(a) && Distinct(b) && forall n | n in a :: n !in b
    ensures Distinct(a + b)
  {
    forall i, j | 0 <= i < j < |a + b| ensures (a + b)[i] != (a + b)[j] {
      if i < |a| <= j { assert a[i] in a && b[j - |a|] in b; }
    }
  }

  lemma DestroyOne(s: State, t: Tid, s': State, n: Node)
    requires Inv(s) && DoRelDestroy(s, t, s') && s.threads[t].todo != [] && n == s.threads[t].todo[0]
    ensures Inv(s')
  {
    assert ThreadAt(s, t) && PlaceOk(s, n);
    LiveMoves(s, t, s');
    assert Live(s') == Live(s);
    DistinctJoin(s.destroyed, [n]);
    forall x | x in s'.place ensures PlaceOk(s', x) { assert PlaceOk(s, x); }
    ThreadsKept(s, t, s');
  }

  lemma DestroyKeeps(s: State, t: Tid, s': State)
    requires Inv(s) && DoRelDestroy(s, t, s')
    ensures Inv(s')
  {
    assert ThreadAt(s, t);
    if s.threads[t].todo != [] {
      DestroyOne(s, t, s', s.threads[t].todo[0]);
    } else {
        QuietKeeps(s, t, s');
    }
  }

  lemma DecKeeps(s: State, t: Tid, s': State)
    requires Inv(s) && DoRelDec(s, t, s')
    ensures Inv(s')
  {
    assert ThreadAt(s, t);
    LiveMoves(s, t, s');
    forall x | x in s'.place ensures PlaceOk(s', x) { assert PlaceOk(s, x); }
    ThreadsKept(s, t, s');
  }

  lemma ExitKeeps(s: State, t: Tid, s': State)
    requires Inv(s) && DoRelExit(s, t, s')
    ensures Inv(s')
  {
    assert ThreadAt(s, t);
    LiveMoves(s, t, s');
    assert Live(s') == Live(s);
    forall x | x in s'.place ensures PlaceOk(s', x) { assert PlaceOk(s, x); }
    ThreadsKept(s, t, s');
  }

  lemma ShutdownKeeps(s: State, s': State)
    requires Inv(s) && Shutdown(s, s')
    ensures Inv(s')
  {
    assert Live(s') == Live(s);
    forall x | x in s'.place ensures PlaceOk(s', x) { assert PlaceOk(s, x); }
    if s.nodes.Some? {
      forall x | x in s.destroyed ensures x !in s.nodes.value { assert PlaceOk(s, x); }
      DistinctJoin(s.destroyed, s.nodes.value);
    }
    forall t | t in s'.threads ensures ThreadAt(s', t) { assert ThreadAt(s, t); }
  }

  lemma StepKeeps(s: State, t: Tid, s': State)
    requires Inv(s) && Step(s, t, s')
    ensures Inv(s')
  {
    if QuietStep(s, t, s') { QuietStepKeeps(s, t, s'); }
    else if DoAddRef(s, t, s') { AddRefKeeps(s, t, s'); }
    else if DoLink(s, t, s') { LinkKeeps(s, t, s'); }
    else if DoAddPush(s, t, s') { PushKeeps(s, t, s'); }
    else if DoRelSwap(s, t, s') { SwapKeeps(s, t, s'); }
    else if DoRelDestroy(s, t, s') { DestroyKeeps(s, t, s'); }
    else if DoRelDec(s, t, s') { DecKeeps(s, t, s'); }
    else if DoRelExit(s, t, s') { ExitKeeps(s, t, s'); }
    else if Shutdown(s, s') { ShutdownKeeps(s, s'); }
    else {
      var n: Node :| DoUnlink(s, t, n, s');
      UnlinkKeeps(s, t, n, s');
    }
  }

  lemma {:induction false} RunInv(run: seq<State>, sched: seq<Tid>, i: nat)
    requires Run(run, sched) && i < |run|
    ensures Inv(run[i])
  {
    if i == 0 {
      assert Live(run[0]) == {};
    } else {
      RunInv(run, sched, i - 1);
      assert Follows(run, sched, i - 1);
      StepKeeps(run[i - 1], sched[i - 1], run[i]);
    }
  }

  // ---------------------------------------------------------------- whole runs

  /** Each recycled node is destroyed at most once, and only after it was unlinked. */
  lemma DestroyedOnce(run: seq<State>, sched: seq<Tid>, i: nat, n: Node)
    requires Run(run, sched) && i < |run|
    ensures Distinct(run[i].destroyed)
    ensures n in run[i].destroyed <==> n in run[i].place && run[i].place[n].Destroyed?
  {
    RunInv(run, sched, i);
    if n in run[i].place { assert PlaceOk(run[i], n); }
  }

  /** Once the recycler is gone, every node that was handed to it has been destroyed. */
  lemma NothingLeaks(run: seq<State>, sched: seq<Tid>, i: nat, n: Node)
    requires Run(run, sched) && i < |run| && run[i].shut && n in run[i].place && !run[i].place[n].Linked?
    ensures n in run[i].destroyed
  {
    RunInv(run, sched, i);
    assert PlaceOk(run[i], n);
  }

  ghost predicate AliveThroughout(run: seq<State>, u: Tid, i: nat, j: nat)
    requires i <= j < |run|
  {
    forall k | i <= k <= j :: u in Live(run[k])
  }

  /** The swap dereferences nodes_, and it is never null there: nothing can empty it under the lock. */
  lemma SwapFindsNodes(run: seq<State>, sched: seq<Tid>, i: nat, t: Tid)
    requires Run(run, sched) && i < |run| && t in run[i].threads
    requires (run[i].threads[t].RelSwap? || run[i].threads[t].RelRecheck?)
    ensures run[i].nodes.Some? && run[i].lock == Some(t)
  {
    RunInv(run, sched, i);
    assert ThreadAt(run[i], t);
  }

  /** A node is unlinked once, and its record of readers only loses accessors that leave. */
  lemma ReadersKept(s: State, t: Tid, s': State, n: Node, u: Tid)
    requires Inv(s) && Step(s, t, s') && n in s.place && !s.place[n].Linked? && n in s.readers
    requires u in s.readers[n] && u in Live(s')
    ensures n in s'.place && !s'.place[n].Linked? && n in s'.readers && u in s'.readers[n]
  {
    if QuietStep(s, t, s') {
      QuietSame(s, t, s');
    } else if DoRelSwap(s, t, s') || DoRelDestroy(s, t, s') || DoRelDec(s, t, s') || DoRelExit(s, t, s')
      || Shutdown(s, s') {
      ReleaseKeepsReaders(s, t, s', n, u);
    } else {
      AccessorKeepsReaders(s, t, s', n, u);
    }
  }

  lemma AccessorKeepsReaders(s: State, t: Tid, s': State, n: Node, u: Tid)
    requires DoAddRef(s, t, s') || DoLink(s, t, s') || (exists m: Node :: DoUnlink(s, t, m, s')) || DoAddPush(s, t, s')
    requires n in s.place && !s.place[n].Linked? && n in s.readers && u in s.readers[n]
    ensures n in s'.place && !s'.place[n].Linked? && n in s'.readers && u in s'.readers[n]
  {
  }

  lemma ReleaseKeepsReaders(s: State, t: Tid, s': State, n: Node, u: Tid)
    requires DoRelSwap(s, t, s') || DoRelDestroy(s, t, s') || DoRelDec(s, t, s') || DoRelExit(s, t, s')
      || Shutdown(s, s')
    requires n in s.place && !s.place[n].Linked? && n in s.readers && u in s.readers[n] && u in Live(s')
    ensures n in s'.place && !s'.place[n].Linked? && n in s'.readers && u in s'.readers[n]
  {
  }

  lemma QuietSame(s: State, t: Tid, s': State)
    requires QuietStep(s, t, s')
    ensures s'.place == s.place && s'.readers == s.readers
  {
  }

  lemma {:induction false} StillReader(run: seq<State>, sched: seq<Tid>, i: nat, j: nat, n: Node, u: Tid)
    requires Run(run, sched) && i < j < |run| && DoUnlink(run[i], sched[i], n, run[i + 1])
    requires AliveThroughout(run, u, i, j)
    ensures n in run[j].place && !run[j].place[n].Linked? && n in run[j].readers && u in run[j].readers[n]
    decreases j - i
  {
    assert u in Live(run[i]) && u in Live(run[j]);
    if j > i + 1 {
      assert AliveThroughout(run, u, i, j - 1);
      StillReader(run, sched, i, j - 1, n, u);
      RunInv(run, sched, j - 1);
      assert Follows(run, sched, j - 1);
      ReadersKept(run[j - 1], sched[j - 1], run[j], n, u);
    }
  }

  /**
   * When a node is destroyed, no accessor that held a reference while the node was unlinked still
   * holds it, except the one that is leaving and does the destroying, however many accessors have
   * arrived since.
   */
  lemma DestroyedUnseen(run: seq<State>, sched: seq<Tid>, i: nat, j: nat, n: Node, u: Tid)
    requires Run(run, sched) && i < j < |sched| && DoUnlink(run[i], sched[i], n, run[i + 1])
    requires AliveThroughout(run, u, i, j)
    requires DoRelDestroy(run[j], sched[j], run[j + 1]) && run[j + 1].destroyed == run[j].destroyed + [n]
    ensures u == sched[j]
  {
    StillReader(run, sched, i, j, n, u);
    RunInv(run, sched, j);
    var s := run[j];
    assert ThreadAt(s, sched[j]) && PlaceOk(s, n);
    assert s.destroyed + [n] == run[j + 1].destroyed;
    assert n == (s.destroyed + [n])[|s.destroyed|];
  }
}
