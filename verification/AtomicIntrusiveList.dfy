/** Singly linked fragments through the elements' hooks. */
module HookList {
  import opened Common

  type Elem = nat

  /** Following next from first visits exactly the elements of q. */
  ghost predicate Reads(next: map<Elem, Option<Elem>>, first: Option<Elem>, q: seq<Elem>)
    decreases |q|
  {
    if q == [] then first == None
    else first == Some(q[0]) && q[0] in next && Reads(next, next[q[0]], q[1..])
  }

  /** The elements of q, last to first. */
  function Backwards<T>(q: seq<T>): (r: seq<T>)
    ensures |r| == |q|
  {
    seq(|q|, i requires 0 <= i < |q| => q[|q| - 1 - i])
  }

  lemma BackwardsAppend<T>(p: seq<T>, q: seq<T>)
    ensures Backwards(p + q) == Backwards(q) + Backwards(p)
  {
  }

  lemma {:induction false} BackwardsTwice<T>(q: seq<T>)
    ensures Backwards(Backwards(q)) == q && multiset(Backwards(q)) == multiset(q)
  {
    if q != [] {
      BackwardsTwice(q[1..]);
      assert q == [q[0]] + q[1..];
      BackwardsAppend([q[0]], q[1..]);
      assert Backwards([q[0]]) == [q[0]];
    }
  }

  lemma ReadsFirst(next: map<Elem, Option<Elem>>, first: Option<Elem>, q: seq<Elem>)
    requires Reads(next, first, q) && first.Some?
    ensures q != [] && first.value == q[0] && q[0] in next
  {
  }

  /** Writing the hook of an element outside a fragment leaves the fragment alone. */
  lemma {:induction false} ReadsFrame(next: map<Elem, Option<Elem>>, first: Option<Elem>, q: seq<Elem>, x: Elem,
                                      to: Option<Elem>)
    requires Reads(next, first, q) && x !in q
    ensures Reads(next[x := to], first, q)
    decreases |q|
  {
    if q != [] { ReadsFrame(next, next[q[0]], q[1..], x, to); }
  }
}

/** The loops of reverse and unlinkAll on elements in the heap. */
module HookLoops {
  import opened HookList

  class Element {
    var next: Element?
  }

  function At(q: seq<Element>, i: nat): Element? { if i < |q| then q[i] else null }

  function Before(q: seq<Element>, i: nat): Element?
    requires i <= |q|
  {
    if i == 0 then null else q[i - 1]
  }

  /** Following next from the i-th element visits the rest of q. */
  ghost predicate LinkedFrom(q: seq<Element>, i: nat)
    reads q
  {
    forall j | i <= j < |q| :: q[j].next == At(q, j + 1)
  }

  ghost predicate NoRepeat(q: seq<Element>) { forall i, j | 0 <= i < j < |q| :: q[i] != q[j] }

  /** Following next from the (k-1)-th element goes back to the first. */
  ghost predicate LinkedBack(q: seq<Element>, k: nat)
    requires k <= |q|
    reads q
  {
    forall j | 0 <= j < k :: q[j].next == Before(q, j)
  }

  /** reverse: the links of the fragment turn round in place. */
  method Reverse(head: Element?, ghost q: seq<Element>) returns (rhead: Element?)
    requires head == At(q, 0) && LinkedFrom(q, 0) && NoRepeat(q)
    modifies q
    ensures rhead == At(Backwards(q), 0) && LinkedFrom(Backwards(q), 0)
  {
    rhead := null;
    var rest := head;
    ghost var k := 0;
    while rest != null
      invariant 0 <= k <= |q| && rest == At(q, k) && LinkedFrom(q, k) && LinkedBack(q, k)
      invariant rhead == Before(q, k)
      decreases |q| - k
    {
      var t := rest;
      rest := t.next;
      t.next := rhead;
      rhead := t;
      k := k + 1;
    }
    BackIsBackwards(q);
  }

  lemma BackIsBackwards(q: seq<Element>)
    requires LinkedBack(q, |q|)
    ensures LinkedFrom(Backwards(q), 0) && At(Backwards(q), 0) == Before(q, |q|)
  {
    var r, n := Backwards(q), |q|;
    forall j | 0 <= j < n ensures r[j].next == At(r, j + 1) {
      var i := n - 1 - j;
      assert q[i].next == Before(q, i);
    }
  }

  /** unlinkAll: the elements leave front to back, each with its hook cleared before func sees it. */
  method UnlinkAll(head: Element?, ghost q: seq<Element>) returns (called: seq<Element>)
    requires head == At(q, 0) && LinkedFrom(q, 0) && NoRepeat(q)
    modifies q
    ensures called == q && forall j | 0 <= j < |q| :: q[j].next == null
  {
    called := [];
    var rest := head;
    while rest != null
      invariant |called| <= |q| && called == q[..|called|] && rest == At(q, |called|) && LinkedFrom(q, |called|)
      invariant forall j | 0 <= j < |called| :: q[j].next == null
      decreases |q| - |called|
    {
      var t := rest;
      rest := t.next;
      t.next := null;
      called := called + [t];
    }
  }
}

/**
 * AtomicIntrusiveLinkedList (folly/folly/AtomicIntrusiveLinkedList.h) with any number of inserting
 * threads and one sweeper.  A step is one load, compare-and-swap or exchange of head_, or one turn of
 * a loop on the fragment that the sweeper owns.  The callback may hand its element to insertHead
 * again.  Fields marked "aux" decide nothing: they say which elements a client may insert, and the one
 * check on them is redundant (HookIsReadable).
 */
module AtomicIntrusiveList {
  import opened Common
  import opened HookList

  datatype Pc =
    | Idle
    | Insert(e: Elem)                       // about to load head_
    | Link(e: Elem, seen: Option<Elem>)     // about to store next(t)
    | Cas(e: Elem, seen: Option<Elem>)

  datatype Sweep =
    | Resting
    | Exchange(lifo: bool)
    | Reverse(head: Option<Elem>, rhead: Option<Elem>)
    | Unlink(head: Option<Elem>)
    | Call(e: Elem, head: Option<Elem>)     // inside func(e)

  datatype State = State(
    head: Option<Elem>,
    next: map<Elem, Option<Elem>>,          // the hooks
    threads: map<Tid, Pc>,
    sweep: Sweep,
    list: seq<Elem>,                        // aux: the list, newest first
    pushed: seq<Elem>,                      // aux: the elements in the order of the successful compare-and-swaps
    order: seq<Elem>,                       // aux: what the sweeper still has to deliver, in order of delivery
    delivered: seq<Elem>,                   // aux: the elements given to callbacks, in order
    fifo: bool)                             // aux: reverseSweep has not been used

  ghost predicate Init(s: State) {
    && s.head == None && (forall e | e in s.next :: s.next[e] == None) && s.sweep.Resting?
    && s.list == [] && s.pushed == [] && s.order == [] && s.delivered == [] && s.fifo
    && forall t | t in s.threads :: s.threads[t].Idle?
  }

  function Goto(s: State, t: Tid, pc: Pc): State { s.(threads := s.threads[t := pc]) }

  ghost predicate Inserting(pc: Pc, e: Elem) { !pc.Idle? && pc.e == e }

  /** Nobody else has the element: it is in no list and no thread is inserting it. */
  ghost predicate Free(s: State, e: Elem) {
    e in s.next && e !in s.list && e !in s.order && forall t | t in s.threads :: !Inserting(s.threads[t], e)
  }

  // ---------------------------------------------------------------- insertHead

  ghost predicate Begin(s: State, t: Tid, s': State) {
    && t in s.threads && s.threads[t].Idle?
    && exists e: Elem | Free(s, e) :: s' == Goto(s, t, Insert(e))
  }

  ghost predicate DoInsert(s: State, t: Tid, s': State) {
    t in s.threads && s.threads[t].Insert? && s' == Goto(s, t, Link(s.threads[t].e, s.head))
  }

  ghost predicate DoLink(s: State, t: Tid, s': State) {
    && t in s.threads && s.threads[t].Link?
    && var pc := s.threads[t]; s' == Goto(s.(next := s.next[pc.e := pc.seen]), t, Cas(pc.e, pc.seen))
  }

  /** compare_exchange_weak; a failure, spurious or not, reloads the expected value. */
  ghost predicate DoCas(s: State, t: Tid, ok: bool, s': State) {
    && t in s.threads && s.threads[t].Cas?
    && var pc := s.threads[t];
       if ok then
         && s.head == pc.seen
         && s' == Goto(s.(head := Some(pc.e), list := [pc.e] + s.list, pushed := s.pushed + [pc.e]), t, Idle)
       else s' == Goto(s, t, Link(pc.e, s.head))
  }

  // ---------------------------------------------------------------- sweepOnce and reverseSweep

  ghost predicate BeginSweep(s: State, s': State) {
    s.sweep.Resting? && (s' == s.(sweep := Exchange(false)) || s' == s.(sweep := Exchange(true), fifo := false))
  }

  ghost predicate DoExchange(s: State, s': State) {
    && s.sweep.Exchange?
    && if s.head == None then s' == s.(sweep := Resting)
       else if s.sweep.lifo then s' == s.(head := None, list := [], order := s.list, sweep := Unlink(s.head))
       else s' == s.(head := None, list := [], order := Backwards(s.list), sweep := Reverse(s.head, None))
  }

  ghost predicate DoReverse(s: State, s': State) {
    && s.sweep.Reverse?
    && match s.sweep.head
       case None => s' == s.(sweep := Unlink(s.sweep.rhead))
       case Some(e) => e in s.next && s' == s.(next := s.next[e := s.sweep.rhead], sweep := Reverse(s.next[e], Some(e)))
  }

  ghost predicate DoUnlink(s: State, s': State) {
    && s.sweep.Unlink?
    && match s.sweep.head
       case None => s' == s.(sweep := Resting)
       case Some(e) =>
         && e in s.next && |s.order| > 0
         && s' == s.(next := s.next[e := None], sweep := Call(e, s.next[e]), order := s.order[1..],
                     delivered := s.delivered + [e])
  }

  /** func returns; inside it the element may already have been inserted again. */
  ghost predicate DoReturn(s: State, s': State) {
    s.sweep.Call? && s' == s.(sweep := Unlink(s.sweep.head))
  }

  ghost predicate SweepStep(s: State, s': State) {
    BeginSweep(s, s') || DoExchange(s, s') || DoReverse(s, s') || DoUnlink(s, s') || DoReturn(s, s')
  }

  ghost predicate InsertStep(s: State, t: Tid, s': State) {
    Begin(s, t, s') || DoInsert(s, t, s') || DoLink(s, t, s') || DoCas(s, t, true, s') || DoCas(s, t, false, s')
  }

  ghost predicate Step(s: State, s': State) { SweepStep(s, s') || exists t: Tid :: InsertStep(s, t, s') }

  ghost predicate Follows(run: seq<State>, i: nat)
    requires i + 1 < |run|
  {
    Step(run[i], run[i + 1])
  }

  ghost predicate Run(run: seq<State>) {
    && |run| >= 1 && Init(run[0])
    && forall i | 0 <= i < |run| - 1 :: Follows(run, i)
  }

  // ---------------------------------------------------------------- invariant

  ghost predicate Disjoint(p: seq<Elem>, q: seq<Elem>) { forall e | e in p :: e !in q }

  ghost predicate Distinct(q: seq<Elem>) { forall i, j | 0 <= i < j < |q| :: q[i] != q[j] }

  /** The sweeper's fragments are what it still has to deliver, the unreversed part first read backwards. */
  ghost predicate SweepOk(s: State) {
    match s.sweep
    case Resting => s.order == []
    case Exchange(lifo) => s.order == [] && (lifo ==> !s.fifo)
    case Reverse(head, rhead) => exists k: nat | k <= |s.order| ::
      Reads(s.next, head, Backwards(s.order[..k])) && Reads(s.next, rhead, s.order[k..])
    case Unlink(head) => Reads(s.next, head, s.order)
    case Call(e, head) => Reads(s.next, head, s.order)
  }

  ghost predicate ThreadOk(s: State, t: Tid)
    requires t in s.threads
  {
    var pc := s.threads[t];
    !pc.Idle? ==>
      && pc.e in s.next && pc.e !in s.list && pc.e !in s.order
      && (pc.Cas? ==> s.next[pc.e] == pc.seen)
      && forall u | u in s.threads && u != t :: !Inserting(s.threads[u], pc.e)
  }

  /** Every insertion is accounted for. */
  ghost predicate BooksOk(s: State) {
    && multiset(s.pushed) == multiset(s.delivered) + multiset(s.order) + multiset(s.list)
    && (s.fifo ==> s.pushed == s.delivered + s.order + Backwards(s.list))
  }

  ghost predicate Inv(s: State) {
    && Reads(s.next, s.head, s.list) && SweepOk(s)
    && Distinct(s.list) && Distinct(s.order) && Disjoint(s.list, s.order)
    && (forall e | e in s.list :: e in s.next) && (forall e | e in s.order :: e in s.next)
    && BooksOk(s)
    && (forall t {:trigger ThreadOk(s, t)} | t in s.threads :: ThreadOk(s, t))
  }

  // ---------------------------------------------------------------- steps

  /** The hooks of the list and of the sweeper's fragments are untouched. */
  lemma FragmentsFrame(s: State, x: Elem, to: Option<Elem>)
    requires Reads(s.next, s.head, s.list) && SweepOk(s) && x !in s.list && x !in s.order
    ensures Reads(s.next[x := to], s.head, s.list) && SweepOk(s.(next := s.next[x := to]))
  {
    ReadsFrame(s.next, s.head, s.list, x, to);
    match s.sweep
    case Resting =>
    case Exchange(_) =>
    case Reverse(head, rhead) =>
      var k: nat :| k <= |s.order| && Reads(s.next, head, Backwards(s.order[..k]))
        && Reads(s.next, rhead, s.order[k..]);
      BackwardsMembers(s.order[..k]);
      ReadsFrame(s.next, head, Backwards(s.order[..k]), x, to);
      ReadsFrame(s.next, rhead, s.order[k..], x, to);
    case Unlink(head) => ReadsFrame(s.next, head, s.order, x, to);
    case Call(_, head) => ReadsFrame(s.next, head, s.order, x, to);
  }

  lemma BackwardsMembers(q: seq<Elem>)
    ensures forall e :: e in Backwards(q) <==> e in q
  {
    BackwardsTwice(q);
    assert forall e :: e in Backwards(q) <==> e in multiset(Backwards(q));
  }

  lemma InsertMoves(s: State, t: Tid, s': State)
    requires Inv(s) && (Begin(s, t, s') || DoInsert(s, t, s') || DoCas(s, t, false, s'))
    ensures Inv(s')
  {
    assert ThreadOk(s, t);
    forall u | u in s'.threads ensures ThreadOk(s', u) { assert ThreadOk(s, u); }
  }

  lemma LinkKeeps(s: State, t: Tid, s': State)
    requires Inv(s) && DoLink(s, t, s')
    ensures Inv(s')
  {
    var pc := s.threads[t];
    assert ThreadOk(s, t);
    FragmentsFrame(s, pc.e, pc.seen);
    forall u | u in s'.threads ensures ThreadOk(s', u) { assert ThreadOk(s, u); }
  }

  lemma CasBooks(s: State, e: Elem, s': State)
    requires BooksOk(s) && s'.list == [e] + s.list && s'.pushed == s.pushed + [e]
    requires s'.delivered == s.delivered && s'.order == s.order && s'.fifo == s.fifo
    ensures BooksOk(s')
  {
    BackwardsAppend([e], s.list);
    assert Backwards([e]) == [e];
    assert s.fifo ==> s'.pushed == s'.delivered + s'.order + Backwards(s'.list);
    assert multiset(s'.list) == multiset{e} + multiset(s.list);
  }

  /** The compare-and-swap that succeeds puts its element in front, and knows whether the list was empty. */
  lemma CasKeeps(s: State, t: Tid, s': State)
    requires Inv(s) && DoCas(s, t, true, s')
    ensures Inv(s') && (s.threads[t].seen == None <==> s.list == [])
  {
    var pc := s.threads[t];
    assert ThreadOk(s, t);
    assert s'.list[1..] == s.list;
    CasBooks(s, pc.e, s');
    forall u | u in s'.threads ensures ThreadOk(s', u) { assert ThreadOk(s, u); }
  }

  lemma ExchangeBooks(s: State, s': State)
    requires BooksOk(s) && DoExchange(s, s') && s.head != None && s.order == []
    requires s.sweep.lifo ==> !s.fifo
    ensures BooksOk(s')
  {
    BackwardsTwice(s.list);
    assert s.delivered + s.order == s.delivered;
    assert s'.delivered + s'.order + Backwards(s'.list) == s'.delivered + s'.order;
  }

  lemma ExchangeSweep(s: State, s': State)
    requires Reads(s.next, s.head, s.list) && Distinct(s.list) && DoExchange(s, s') && s.head != None
    ensures SweepOk(s') && Distinct(s'.order) && forall e :: e in s'.order <==> e in s.list
  {
    BackwardsTwice(s.list);
    BackwardsMembers(s.list);
    if !s.sweep.lifo {
      var n := |s'.order|;
      assert s'.order[..n] == s'.order && s'.order[n..] == [];
      BackwardsDistinct(s.list);
    }
  }

  lemma ExchangeKeeps(s: State, s': State)
    requires Inv(s) && (BeginSweep(s, s') || DoExchange(s, s'))
    ensures Inv(s')
  {
    if DoExchange(s, s') && s.head != None {
      ExchangeBooks(s, s');
      ExchangeSweep(s, s');
    }
    forall u | u in s'.threads ensures ThreadOk(s', u) { assert ThreadOk(s, u); }
  }

  lemma {:induction false} BackwardsDistinct(q: seq<Elem>)
    requires Distinct(q)
    ensures Distinct(Backwards(q))
    decreases |q|
  {
    if q != [] {
      BackwardsDistinct(q[1..]);
      BackwardsMembers(q[1..]);
      var r := Backwards(q[1..]);
      forall i, j | 0 <= i < j < |r + [q[0]]| ensures (r + [q[0]])[i] != (r + [q[0]])[j] {
        if j == |r| { assert r[i] in r; }
      }
    }
  }

  /** One turn of the reversal moves the last unreversed element to the front of what is reversed. */
  lemma ReverseKeeps(s: State, s': State)
    requires Inv(s) && DoReverse(s, s')
    ensures Inv(s')
  {
    var head, rhead := s.sweep.head, s.sweep.rhead;
    var k: nat :| k <= |s.order| && Reads(s.next, head, Backwards(s.order[..k])) && Reads(s.next, rhead, s.order[k..]);
    BackwardsTwice(s.order[..k]);
    if head == None {
      assert k == 0 && s.order[0..] == s.order;
    } else {
      TurnKeeps(s, s', k);
    }
    forall u | u in s'.threads ensures ThreadOk(s', u) { assert ThreadOk(s, u); }
  }

  lemma LastFirst(q: seq<Elem>, k: nat)
    requires 0 < k <= |q|
    ensures Backwards(q[..k]) == [q[k - 1]] + Backwards(q[..k - 1]) && q[k - 1..] == [q[k - 1]] + q[k..]
  {
    assert q[..k] == q[..k - 1] + [q[k - 1]];
    BackwardsAppend(q[..k - 1], [q[k - 1]]);
    assert Backwards([q[k - 1]]) == [q[k - 1]];
  }

  lemma TurnKeeps(s: State, s': State, k: nat)
    requires Reads(s.next, s.head, s.list) && Distinct(s.order) && Disjoint(s.list, s.order) && DoReverse(s, s')
    requires s.sweep.head.Some? && 0 < k <= |s.order|
    requires Reads(s.next, s.sweep.head, Backwards(s.order[..k])) && Reads(s.next, s.sweep.rhead, s.order[k..])
    ensures Reads(s'.next, s'.head, s'.list) && SweepOk(s') && s.sweep.head.value in s.order
  {
    var e := s.order[k - 1];
    LastFirst(s.order, k);
    var low := Backwards(s.order[..k - 1]);
    assert ([e] + low)[1..] == low;
    BackwardsMembers(s.order[..k - 1]);
    assert e !in low && e !in s.order[k..] && e !in s.list;
    ReadsFrame(s.next, s.head, s.list, e, s.sweep.rhead);
    ReadsFrame(s.next, s.next[e], low, e, s.sweep.rhead);
    ReadsFrame(s.next, s.sweep.rhead, s.order[k..], e, s.sweep.rhead);
    assert s.order[k - 1..][1..] == s.order[k..];
  }

  lemma UnlinkBooks(s: State, s': State)
    requires BooksOk(s) && s.order != []
    requires s'.order == s.order[1..] && s'.delivered == s.delivered + [s.order[0]]
    requires s'.pushed == s.pushed && s'.list == s.list && s'.fifo == s.fifo
    ensures BooksOk(s')
  {
    assert s.order == [s.order[0]] + s.order[1..];
    assert s.delivered + s.order == s'.delivered + s'.order;
    assert multiset(s.order) == multiset{s.order[0]} + multiset(s.order[1..]);
  }

  lemma UnlinkKeeps(s: State, s': State)
    requires Inv(s) && DoUnlink(s, s')
    ensures Inv(s')
  {
    if s.sweep.head.Some? {
      var e := s.order[0];
      assert forall x | x in s.order[1..] :: x in s.order && x != e;
      ReadsFrame(s.next, s.head, s.list, e, None);
      ReadsFrame(s.next, s.next[e], s.order[1..], e, None);
      UnlinkBooks(s, s');
    }
    forall u | u in s'.threads ensures ThreadOk(s', u) { assert ThreadOk(s, u); }
  }

  lemma ReturnKeeps(s: State, s': State)
    requires Inv(s) && DoReturn(s, s')
    ensures Inv(s')
  {
    forall u | u in s'.threads ensures ThreadOk(s', u) { assert ThreadOk(s, u); }
  }

  lemma StepKeeps(s: State, s': State)
    requires Inv(s) && Step(s, s')
    ensures Inv(s')
  {
    if BeginSweep(s, s') || DoExchange(s, s') { ExchangeKeeps(s, s'); }
    else if DoReverse(s, s') { ReverseKeeps(s, s'); }
    else if DoUnlink(s, s') { UnlinkKeeps(s, s'); }
    else if DoReturn(s, s') { ReturnKeeps(s, s'); }
    else {
      var t: Tid :| InsertStep(s, t, s');
      if DoLink(s, t, s') { LinkKeeps(s, t, s'); }
      else if DoCas(s, t, true, s') { CasKeeps(s, t, s'); }
      else { InsertMoves(s, t, s'); }
    }
  }

  lemma {:induction false} RunInv(run: seq<State>, i: nat)
    requires Run(run) && i < |run|
    ensures Inv(run[i])
  {
    if i > 0 {
      RunInv(run, i - 1);
      assert Follows(run, i - 1);
      StepKeeps(run[i - 1], run[i]);
    } else {
      assert run[0].delivered + run[0].order + Backwards(run[0].list) == [];
    }
  }

  // ---------------------------------------------------------------- whole runs

  /** Every insertion reaches a callback exactly once, or is still waiting in the list or with the sweeper. */
  lemma DeliveredExactlyOnce(run: seq<State>, i: nat)
    requires Run(run) && i < |run|
    ensures multiset(run[i].pushed) == multiset(run[i].delivered) + multiset(run[i].order) + multiset(run[i].list)
    ensures run[i].sweep.Resting? && run[i].head == None ==> multiset(run[i].pushed) == multiset(run[i].delivered)
  {
    RunInv(run, i);
  }

  /** As long as reverseSweep is not used, the callbacks see the elements in the order of their insertion. */
  lemma DeliveredInOrder(run: seq<State>, i: nat)
    requires Run(run) && i < |run| && run[i].fifo
    ensures run[i].delivered <= run[i].pushed
    ensures run[i].sweep.Resting? && run[i].head == None ==> run[i].delivered == run[i].pushed
  {
    RunInv(run, i);
    var s := run[i];
    assert s.pushed == s.delivered + (s.order + Backwards(s.list));
    if s.sweep.Resting? && s.head == None { assert s.list == [] && s.order == []; }
  }

  /** A callback gets its element with the hook cleared, and in no list. */
  lemma HookIsCleared(run: seq<State>, i: nat)
    requires Run(run) && i < |run| - 1 && DoUnlink(run[i], run[i + 1]) && run[i].sweep.head.Some?
    ensures var e := run[i].sweep.head.value;
      && run[i + 1].sweep.Call? && run[i + 1].sweep.e == e && run[i + 1].delivered == run[i].delivered + [e]
      && e in run[i + 1].next && run[i + 1].next[e] == None && e !in run[i + 1].list && e !in run[i + 1].order
  {
    RunInv(run, i);
    var s := run[i];
    assert s.order[0] !in s.order[1..];
  }

  lemma FragmentHook(s: State)
    requires SweepOk(s) && s.sweep.Reverse? && s.sweep.head.Some?
    ensures s.sweep.head.value in s.next && s.sweep.head.value in s.order
  {
    var k: nat :| k <= |s.order| && Reads(s.next, s.sweep.head, Backwards(s.order[..k]))
      && Reads(s.next, s.sweep.rhead, s.order[k..]);
    ReadsFirst(s.next, s.sweep.head, Backwards(s.order[..k]));
    assert s.sweep.head.value == s.order[k - 1];
  }

  /** Every element the sweeper is about to follow has a hook, and is due. */
  lemma HookIsReadable(run: seq<State>, i: nat)
    requires Run(run) && i < |run|
    ensures var s := run[i];
      && (s.sweep.Unlink? && s.sweep.head.Some? ==>
            && s.sweep.head.value in s.next && |s.order| > 0
            && s.order[0] == s.sweep.head.value)
      && (s.sweep.Reverse? && s.sweep.head.Some? ==> s.sweep.head.value in s.next && s.sweep.head.value in s.order)
  {
    RunInv(run, i);
    if run[i].sweep.Reverse? && run[i].sweep.head.Some? { FragmentHook(run[i]); }
  }

  /** insertHead returns true exactly when its compare-and-swap made an empty list non-empty. */
  lemma TrueIffWasEmpty(run: seq<State>, i: nat, t: Tid)
    requires Run(run) && i < |run| - 1 && DoCas(run[i], t, true, run[i + 1])
    ensures run[i].threads[t].seen == None <==> run[i].list == []
    ensures run[i + 1].list == [run[i].threads[t].e] + run[i].list
  {
    RunInv(run, i);
    CasKeeps(run[i], t, run[i + 1]);
  }
}
