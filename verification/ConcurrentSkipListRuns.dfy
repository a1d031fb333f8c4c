/** What the invariant of the skip list means for whole runs. */
module ConcurrentSkipListRuns {
  import opened Common
  import opened ConcurrentSkipList
  import opened ConcurrentSkipListProof

  // ---------------------------------------------------------------- layers as a reader sees them

  /** Following the links of layer k from x visits exactly the nodes of q, in that order, and ends. */
  ghost predicate ReadsAs(s: State, k: nat, x: NodeId, q: seq<NodeId>)
    decreases |q|
  {
    && x in s.nodes && k < Height(s.nodes[x])
    && if q == [] then s.nodes[x].skip[k] == None else s.nodes[x].skip[k] == Some(q[0]) && ReadsAs(s, k, q[0], q[1..])
  }

  ghost predicate Ascending(s: State, from: int, q: seq<NodeId>)
    decreases |q|
  {
    q == [] || (q[0] in s.nodes && from < s.nodes[q[0]].key && Ascending(s, s.nodes[q[0]].key, q[1..]))
  }

  ghost function Beyond(s: State, k: nat, pos: int): set<NodeId> {
    set m | m in s.nodes && In(s, k, m) && pos < s.nodes[m].key
  }

  lemma LayerFrom(s: State, k: nat, x: NodeId) returns (q: seq<NodeId>)
    requires LayersOk(s) && OnLayer(s, k, x)
    ensures ReadsAs(s, k, x, q) && Ascending(s, Pos(s.nodes[x]), q)
    ensures forall m :: m in q <==> m in Beyond(s, k, Pos(s.nodes[x]))
    decreases |Beyond(s, k, Pos(s.nodes[x]))|
  {
    assert NextOk(s, k, x);
    var next := s.nodes[x].skip[k];
    if next == None {
      q := [];
    } else {
      var n := next.value;
      var here, there := Beyond(s, k, Pos(s.nodes[x])), Beyond(s, k, s.nodes[n].key);
      assert OnLayer(s, k, n);
      assert n in here && n !in there && there <= here - {n};
      Shrinks(there, here, n);
      var rest := LayerFrom(s, k, n);
      q := [n] + rest;
      assert q[1..] == rest;
      forall m ensures m in q <==> m in here {
        if m in here && m != n { SameKeySameNode(s, k, m, n); }
      }
    }
  }

  lemma Shrinks(a: set<NodeId>, b: set<NodeId>, n: NodeId)
    requires n in b && a <= b - {n}
    ensures |a| < |b|
  {
    Subset(a, b - {n});
  }

  lemma {:induction false} Subset(a: set<NodeId>, b: set<NodeId>)
    requires a <= b
    ensures |a| <= |b|
  {
    if a != {} {
      var x :| x in a;
      Subset(a - {x}, b - {x});
    }
  }

  lemma SameKeySameNode(s: State, k: nat, m: NodeId, n: NodeId)
    requires LayersOk(s) && In(s, k, m) && In(s, k, n)
    ensures s.nodes[m].key == s.nodes[n].key ==> m == n
  {
    assert In(s, 0, m) && In(s, 0, n);
  }

  /** Read from the current head, layer k ends, ascends strictly and holds exactly the nodes linked there. */
  ghost predicate SortedLayer(s: State, k: nat, q: seq<NodeId>) {
    ReadsAs(s, k, s.head, q) && Ascending(s, -1, q) && forall m :: m in q <==> In(s, k, m)
  }

  ghost predicate WithinLayer(s: State, k: nat, q: seq<NodeId>) {
    exists lower :: SortedLayer(s, k, lower) && forall m | m in q :: m in lower
  }

  /**
   * In every reachable state each layer of the current head is sorted, so no key has two linked
   * nodes, and everything on an upper layer is on the layer below.
   */
  lemma LayersAreSorted(run: seq<State>, sched: seq<Tid>, i: nat, k: nat) returns (q: seq<NodeId>)
    requires Run(run, sched) && i < |run|
    ensures run[i].head in run[i].nodes
    ensures k < Height(run[i].nodes[run[i].head]) ==> SortedLayer(run[i], k, q)
    ensures 0 < k < Height(run[i].nodes[run[i].head]) ==> WithinLayer(run[i], k - 1, q)
  {
    RunInv(run, sched, i);
    assert MemoryOk(run[i]);
    q := [];
    if k < Height(run[i].nodes[run[i].head]) { q := LayerFrom(run[i], k, run[i].head); }
    if 0 < k < Height(run[i].nodes[run[i].head]) {
      var lower := LayerFrom(run[i], k - 1, run[i].head);
      forall m | m in q ensures m in lower { assert In(run[i], k, m) && In(run[i], k - 1, m); }
      assert SortedLayer(run[i], k - 1, lower);
    }
  }

  /** Everything the invariant says of the thread's program point. */
  lemma AllParts(s: State, t: Tid)
    requires Inv(s) && t in s.threads
    ensures NodesOk(s) && HeadOk(s) && HeldOk(s, t, s.threads[t])
    ensures SearchPcOk(s, t, s.threads[t]) && MarkPcOk(s, t, s.threads[t]) && LockPcOk(s, t, s.threads[t])
    ensures InsertPcOk(s, t, s.threads[t]) && UnlinkPcOk(s, t, s.threads[t]) && GrowPcOk(s, t, s.threads[t])
  {
    Known(s, t);
    var pc := s.threads[t];
    assert PartOk(s, t, pc, Searching) && PartOk(s, t, pc, Marking) && PartOk(s, t, pc, Locking);
    assert PartOk(s, t, pc, Inserting) && PartOk(s, t, pc, Unlinking) && PartOk(s, t, pc, Growing);
  }

  // ---------------------------------------------------------------- what never goes back

  ghost predicate Onward(s: State, s': State, n: NodeId)
    requires n in s.nodes
  {
    && n in s'.nodes
    && s'.nodes[n].key == s.nodes[n].key && Height(s'.nodes[n]) == Height(s.nodes[n])
    && s'.nodes[n].sentinel == s.nodes[n].sentinel && s'.nodes[n].ever >= s.nodes[n].ever
    && (s.nodes[n].flags.marked ==> s'.nodes[n].flags.marked) && (s.nodes[n].flags.linked ==> s'.nodes[n].flags.linked)
  }

  ghost predicate StepsOn(s: State, s': State) {
    && (forall n | n in s.nodes :: Onward(s, s', n))
    && s.removals <= s'.removals && s.recycled <= s'.recycled
  }

  lemma SearchStepsOn(s: State, t: Tid, s': State)
    requires SearchStep(s, t, s')
    ensures StepsOn(s, s')
  {
  }

  lemma MarkStepsOn(s: State, t: Tid, s': State)
    requires MarkStep(s, t, s') && MarkPcOk(s, t, s.threads[t])
    ensures StepsOn(s, s')
  {
  }

  lemma LockStepsOn(s: State, t: Tid, s': State)
    requires LockStep(s, t, s')
    ensures StepsOn(s, s')
  {
  }

  lemma InsertStepsOn(s: State, t: Tid, s': State)
    requires InsertStep(s, t, s') && InsertPcOk(s, t, s.threads[t])
    ensures StepsOn(s, s')
  {
  }

  lemma UnlinkStepsOn(s: State, t: Tid, s': State)
    requires UnlinkStep(s, t, s')
    ensures StepsOn(s, s')
  {
  }

  lemma GrowCasOn(s: State, t: Tid, s': State)
    requires DoGrowCas(s, t, s') && NodesOk(s)
    ensures StepsOn(s, s')
  {
    assert NodeOk(s, s.threads[t].taller);
  }

  lemma GrowMarkOn(s: State, t: Tid, s': State)
    requires DoGrowMarkStore(s, t, s') && NodesOk(s) && GrowPcOk(s, t, s.threads[t])
    ensures StepsOn(s, s')
  {
    assert NodeOk(s, s.threads[t].prior);
  }

  lemma GrowStepsOn(s: State, t: Tid, s': State)
    requires GrowStep(s, t, s') && NodesOk(s) && GrowPcOk(s, t, s.threads[t])
    ensures StepsOn(s, s')
  {
    if DoGrowCas(s, t, s') { GrowCasOn(s, t, s'); }
    else if DoGrowMarkStore(s, t, s') { GrowMarkOn(s, t, s'); }
  }

  lemma StepOn(s: State, t: Tid, s': State)
    requires Inv(s) && Step(s, t, s')
    ensures StepsOn(s, s')
  {
    AllParts(s, t);
    if SearchStep(s, t, s') { SearchStepsOn(s, t, s'); }
    else if MarkStep(s, t, s') { MarkStepsOn(s, t, s'); }
    else if LockStep(s, t, s') { LockStepsOn(s, t, s'); }
    else if InsertStep(s, t, s') { InsertStepsOn(s, t, s'); }
    else if UnlinkStep(s, t, s') { UnlinkStepsOn(s, t, s'); }
    else { GrowStepsOn(s, t, s'); }
  }

  /** Marks and the fully-linked flag are never lost, though setting them is a load and a store. */
  lemma {:induction false} FlagsAreKept(run: seq<State>, sched: seq<Tid>, i: nat, j: nat)
    requires Run(run, sched) && i <= j < |run|
    ensures StepsOn(run[i], run[j])
    decreases j - i
  {
    if i < j {
      FlagsAreKept(run, sched, i, j - 1);
      RunInv(run, sched, j - 1);
      assert Follows(run, sched, j - 1);
      StepOn(run[j - 1], sched[j - 1], run[j]);
      forall n | n in run[i].nodes
        ensures Onward(run[i], run[j], n)
      {
        assert Onward(run[i], run[j - 1], n) && Onward(run[j - 1], run[j], n);
      }
    }
  }

  // ---------------------------------------------------------------- removal, recycling and the size

  /** The remove call that has taken n off every layer stands right before its size_ decrement. */
  ghost predicate AboutToCount(s: State, n: NodeId) {
    exists u :: u in s.threads && s.threads[u].RemSize? && s.threads[u].n == n
  }

  /** A marked node that is on no layer and in no finished removal is the one its remover has just unlinked. */
  lemma UnlinkedAtLast(s: State, n: NodeId)
    requires Inv(s) && n in s.nodes && !s.nodes[n].sentinel && s.nodes[n].flags.marked
    requires s.nodes[n].up == 0 && n !in s.removals
    ensures AboutToCount(s, n)
  {
    assert MemoryOk(s);
    assert LifeOk(s, n) && NodeOk(s, n);
    var u := s.nodes[n].retirer.value;
    AllParts(s, u);
    assert s.threads[u].RemSize? && s.threads[u].n == n;
  }

  /**
   * Each node is the victim of at most one successful remove, and is handed to the recycler at most
   * once, after it has left every layer for good; heads are recycled only after they were replaced.
   * A node leaves the bottom layer only as such a victim: its remove has finished, or is about to
   * take one off size_.
   */
  lemma RemovedOnce(run: seq<State>, sched: seq<Tid>, i: nat, j: nat, n: NodeId)
    requires Run(run, sched) && i <= j < |run|
    ensures Distinct(run[i].removals) && Distinct(run[i].recycled)
    ensures n in run[i].removals ==> n in run[j].removals && forall k: nat :: !In(run[j], k, n)
    ensures n in run[i].recycled ==> n in run[j].recycled && n != run[j].head && forall k: nat :: !In(run[j], k, n)
    ensures In(run[i], 0, n) && !In(run[j], 0, n) ==> n in run[j].removals || AboutToCount(run[j], n)
  {
    RunInv(run, sched, i);
    RunInv(run, sched, j);
    assert MemoryOk(run[i]) && MemoryOk(run[j]);
    FlagsAreKept(run, sched, i, j);
    if n in run[j].nodes { assert LifeOk(run[j], n); }
    if In(run[i], 0, n) && !In(run[j], 0, n) {
      assert NodeOk(run[i], n) && NodeOk(run[j], n) && Onward(run[i], run[j], n);
      if n !in run[j].removals { UnlinkedAtLast(run[j], n); }
    }
  }

  /**
   * size_ counts exactly the nodes added and not removed, so a decrement never takes it below zero.
   * That an increment does not wrap is the assumption of the step itself: fewer than 2^64 nodes.
   */
  lemma SizeNeverWraps(run: seq<State>, sched: seq<Tid>, i: nat)
    requires Run(run, sched) && i < |sched|
    ensures run[i].size == |run[i].counted|
    ensures DoRemSize(run[i], sched[i], run[i + 1]) ==> run[i + 1].size == run[i].size - 1
    ensures DoAddSize(run[i], sched[i], run[i + 1]) ==> run[i + 1].size == run[i].size + 1
  {
    RunInv(run, sched, i);
    assert MemoryOk(run[i]);
    if sched[i] in run[i].threads {
      AllParts(run[i], sched[i]);
      SizeStep(run[i], sched[i], run[i + 1]);
    }
  }

  lemma SizeStep(s: State, t: Tid, s': State)
    requires BooksOk(s) && t in s.threads && UnlinkPcOk(s, t, s.threads[t])
    ensures DoRemSize(s, t, s') ==> s'.size == s.size - 1
    ensures DoAddSize(s, t, s') ==> s'.size == s.size + 1
  {
    if DoRemSize(s, t, s') { assert s.threads[t].n in s.counted; assert |s.counted| >= 1; }
  }

  /** When nobody is inside a call, size_ is the number of nodes on the bottom layer. */
  lemma QuiescentSize(run: seq<State>, sched: seq<Tid>, i: nat)
    requires Run(run, sched) && i < |run| && forall t | t in run[i].threads :: run[i].threads[t].Idle?
    ensures run[i].counted == (set n | n in run[i].nodes && In(run[i], 0, n)) && run[i].size == |run[i].counted|
  {
    var s := run[i];
    RunInv(run, sched, i);
    assert MemoryOk(s);
    forall n ensures n in s.counted <==> n in s.nodes && In(s, 0, n) {
      if n in s.nodes { assert LifeOk(s, n) && NodeOk(s, n); }
    }
  }

  // ---------------------------------------------------------------- locks

  /** The lock the thread will take in its next step. */
  function Wants(pc: Pc): Option<NodeId> {
    if pc.RemTake? then Some(pc.n)
    else if pc.LockTake? && pc.layer < |pc.path.preds| && NewPred(pc.path, pc.layer) then Some(pc.path.preds[pc.layer])
    else if pc.GrowTake? then Some(pc.prior)
    else None
  }

  /** Locks are taken in strictly descending order of position. */
  lemma LocksDescend(s: State, t: Tid, n: NodeId, m: NodeId)
    requires Inv(s) && t in s.threads && Wants(s.threads[t]) == Some(n) && m in s.nodes && s.nodes[m].lock == Some(t)
    ensures n in s.nodes && Pos(s.nodes[n]) < Pos(s.nodes[m])
  {
    AllParts(s, t);
    DescendAt(s, t, s.threads[t], n, m);
  }

  lemma DescendAt(s: State, t: Tid, pc: Pc, n: NodeId, m: NodeId)
    requires MarkPcOk(s, t, pc) && LockPcOk(s, t, pc) && GrowPcOk(s, t, pc) && HeldOk(s, t, pc)
    requires Wants(pc) == Some(n) && m in s.nodes && s.nodes[m].lock == Some(t)
    ensures n in s.nodes && Pos(s.nodes[n]) < Pos(s.nodes[m])
  {
    assert m in Holds(pc);
    if pc.LockTake? {
      assert PredOk(s, pc.d, 0 + pc.layer, n);
      if m in pc.held { assert Upwards(s, pc.path.preds[pc.layer - 1], pc.path.preds[pc.layer - 1 + 1]); }
    }
  }

  ghost predicate WaitsFor(s: State, t: Tid, u: Tid) {
    && t in s.threads && u in s.threads && Wants(s.threads[t]).Some?
    && Wants(s.threads[t]).value in s.nodes && s.nodes[Wants(s.threads[t]).value].lock == Some(u)
  }

  /** Along a chain of waiting threads the wanted positions strictly descend, so the chain never closes. */
  lemma {:induction false} NoWaitCycle(run: seq<State>, sched: seq<Tid>, i: nat, chain: seq<Tid>)
    requires Run(run, sched) && i < |run| && |chain| >= 2
    requires forall j | 0 <= j < |chain| - 1 :: WaitsFor(run[i], chain[j], chain[j + 1])
    ensures chain[0] != chain[|chain| - 1]
  {
    RunInv(run, sched, i);
    WaitsDescend(run[i], chain);
  }

  ghost function WantedPos(s: State, t: Tid): int {
    if t in s.threads && Wants(s.threads[t]).Some? && Wants(s.threads[t]).value in s.nodes then
      Pos(s.nodes[Wants(s.threads[t]).value])
    else
      -2
  }

  lemma {:induction false} WaitsDescend(s: State, chain: seq<Tid>)
    requires Inv(s) && |chain| >= 2 && forall j | 0 <= j < |chain| - 1 :: WaitsFor(s, chain[j], chain[j + 1])
    ensures WantedPos(s, chain[|chain| - 1]) < WantedPos(s, chain[0])
    decreases |chain|
  {
    assert WaitsFor(s, chain[0], chain[0 + 1]);
    OneWait(s, chain[0], chain[1]);
    if |chain| > 2 {
      forall j | 0 <= j < |chain[1..]| - 1
        ensures WaitsFor(s, chain[1..][j], chain[1..][j + 1])
      {
        assert WaitsFor(s, chain[j + 1], chain[j + 1 + 1]);
      }
      WaitsDescend(s, chain[1..]);
    }
  }

  lemma OneWait(s: State, t: Tid, u: Tid)
    requires Inv(s) && WaitsFor(s, t, u)
    ensures WantedPos(s, u) < WantedPos(s, t)
  {
    var m := Wants(s.threads[t]).value;
    if Wants(s.threads[u]).Some? { LocksDescend(s, u, Wants(s.threads[u]).value, m); }
  }

  // ---------------------------------------------------------------- progress

  /** Thread t is inside a call and has a step that changes the state. */
  ghost predicate CanAdvance(s: State, t: Tid) {
    t in s.threads && !s.threads[t].Idle? && exists s' :: Step(s, t, s') && s' != s
  }

  /** The lock the thread wants, if any, is free. */
  ghost predicate Unblocked(s: State, pc: Pc) {
    Wants(pc).Some? ==> Wants(pc).value in s.nodes && s.nodes[Wants(pc).value].lock == None
  }

  lemma SearchCanStep(s: State, t: Tid)
    requires t in s.threads && HeadOk(s) && NodesOk(s) && SearchPcOk(s, t, s.threads[t])
    requires var pc := s.threads[t]; pc.Top? || pc.Start? || pc.AddFound? || (pc.AddWait? && s.nodes[pc.n].flags.linked)
    ensures CanAdvance(s, t)
  {
    var pc := s.threads[t];
    assert NodeOk(s, s.head);
    if pc.Top? {
      var s' := Goto(s, t, Start(pc.op, pc.d, Height(s.nodes[s.head]) - 1));
      assert DoTop(s, t, s') && Step(s, t, s') && s'.threads[t] != pc;
    } else if pc.Start? {
      var s' := Goto(s, t, Walk(pc.op, pc.d, pc.top, s.head, Path([], [], None, -1)));
      assert DoStart(s, t, s') && Step(s, t, s') && s'.threads[t] != pc;
    } else if pc.AddFound? {
      var s' := Goto(s, t, if s.nodes[pc.n].flags.marked then Top(Adding, pc.d) else AddWait(pc.n));
      assert DoAddFound(s, t, s') && Step(s, t, s') && s'.threads[t] != pc;
    } else {
      var s' := Goto(s, t, Idle);
      assert DoAddWait(s, t, s') && Step(s, t, s') && s'.threads[t] != pc;
    }
  }

  /** The next link of a search always exists: no layer is read beyond a node's height. */
  lemma WalkCanStep(s: State, t: Tid)
    requires t in s.threads && NodesOk(s) && SearchPcOk(s, t, s.threads[t]) && s.threads[t].Walk?
    ensures CanAdvance(s, t)
  {
    var pc := s.threads[t];
    var node := s.nodes[pc.pred].skip[pc.layer];
    var p := Record(s, pc.d, pc.layer, pc.pred, node, pc.path);
    assert NodeOk(s, pc.pred) && LinkOk(s, pc.pred, pc.layer);
    if Greater(s, pc.d, node) {
      var s' := Goto(s, t, Walk(pc.op, pc.d, pc.layer, node.value, pc.path));
      assert DoWalk(s, t, s') && Step(s, t, s') && s'.threads[t] != pc;
    } else if pc.layer > 0 {
      var s' := Goto(s, t, Walk(pc.op, pc.d, pc.layer - 1, pc.pred, p));
      assert DoWalk(s, t, s') && Step(s, t, s') && s'.threads[t] != pc;
    } else {
      var pc' := match pc.op
        case Adding => if p.found.Some? then AddFound(pc.d, p.found.value) else LockTake(pc.op, pc.d, 1, p, 0, [])
        case Removing(None) => if p.found.Some? then RemLinked(pc.d, p.found.value, p) else Idle
        case Removing(Some(n)) => LockTake(pc.op, pc.d, Height(s.nodes[n]), p, 0, []);
      var s' := Goto(s, t, pc');
      assert DoWalk(s, t, s') && Step(s, t, s') && s'.threads[t] != pc;
    }
  }

  lemma MarkCanStep(s: State, t: Tid)
    requires t in s.threads && MarkPcOk(s, t, s.threads[t]) && Unblocked(s, s.threads[t])
    requires var pc := s.threads[t];
      pc.RemLinked? || pc.RemUnmarked? || pc.RemTake? || pc.RemSeen? || pc.RemMarkLoad? || pc.RemMarkStore?
    ensures CanAdvance(s, t)
  {
    var pc := s.threads[t];
    var r := s.nodes[pc.n];
    if pc.RemLinked? {
      var chosen := r.flags.linked && Height(r) - 1 == pc.path.layer;
      var s' := Goto(s, t, if chosen then RemUnmarked(pc.d, pc.n, pc.path) else Idle);
      assert DoRemLinked(s, t, s') && Step(s, t, s') && s'.threads[t] != pc;
    } else if pc.RemUnmarked? {
      var s' := Goto(s, t, if r.flags.marked then Idle else RemTake(pc.d, pc.n, pc.path));
      assert DoRemUnmarked(s, t, s') && Step(s, t, s') && s'.threads[t] != pc;
    } else if pc.RemTake? {
      var s' := Goto(SetNode(s, pc.n, r.(lock := Some(t))), t, RemSeen(pc.d, pc.n, pc.path));
      assert DoRemTake(s, t, s') && Step(s, t, s') && s'.threads[t] != pc;
    } else if pc.RemSeen? {
      var s' := Goto(s, t, if r.flags.marked then RemExit(pc.n) else RemMarkLoad(pc.d, pc.n, pc.path));
      assert DoRemSeen(s, t, s') && Step(s, t, s') && s'.threads[t] != pc;
    } else if pc.RemMarkLoad? {
      var s' := Goto(s, t, RemMarkStore(pc.d, pc.n, pc.path, r.flags));
      assert DoRemMarkLoad(s, t, s') && Step(s, t, s') && s'.threads[t] != pc;
    } else {
      var s' := Goto(SetNode(s, pc.n, r.(flags := pc.seen.(marked := true), retirer := Some(t))), t,
                     LockTake(Removing(Some(pc.n)), pc.d, Height(r), pc.path, 0, []));
      assert DoRemMarkStore(s, t, s') && Step(s, t, s') && s'.threads[t] != pc;
    }
  }

  lemma LockCanStep(s: State, t: Tid)
    requires t in s.threads && LockPcOk(s, t, s.threads[t]) && Unblocked(s, s.threads[t])
    requires s.threads[t].LockTake? || s.threads[t].LockMarked? || s.threads[t].LockSkip? || s.threads[t].LockSucc?
    ensures CanAdvance(s, t)
  {
    var pc := s.threads[t];
    var pred := pc.path.preds[pc.layer];
    assert PredOk(s, pc.d, 0 + pc.layer, pred) && SuccOk(s, pc.d, pc.path.succs[pc.layer], pc.path.found.None?);
    if pc.LockTake? {
      if NewPred(pc.path, pc.layer) {
        var s' := Goto(SetNode(s, pred, s.nodes[pred].(lock := Some(t))), t,
                       LockMarked(pc.op, pc.d, pc.h, pc.path, pc.layer, pc.held + [pred]));
        assert DoLockTake(s, t, s') && Step(s, t, s') && s'.threads[t] != pc;
      } else {
        var s' := Goto(s, t, LockMarked(pc.op, pc.d, pc.h, pc.path, pc.layer, pc.held));
        assert DoLockTake(s, t, s') && Step(s, t, s') && s'.threads[t] != pc;
      }
    } else if pc.LockMarked? {
      var s' := Goto(s, t, if s.nodes[pred].flags.marked then GiveUp(pc.op, pc.d, pc.held)
                           else LockSkip(pc.op, pc.d, pc.h, pc.path, pc.layer, pc.held));
      assert DoLockMarked(s, t, s') && Step(s, t, s') && s'.threads[t] != pc;
    } else if pc.LockSkip? {
      var s' := Goto(s, t,
        if s.nodes[pred].skip[pc.layer] != pc.path.succs[pc.layer] then
          GiveUp(pc.op, pc.d, pc.held)
        else if pc.op.Adding? && pc.path.succs[pc.layer].Some? then
          LockSucc(pc.op, pc.d, pc.h, pc.path, pc.layer, pc.held)
        else
          NextLayer(pc.op, pc.d, pc.h, pc.path, pc.layer, pc.held));
      assert DoLockSkip(s, t, s') && Step(s, t, s') && s'.threads[t] != pc;
    } else {
      var s' := Goto(s, t, if s.nodes[pc.path.succs[pc.layer].value].flags.marked then GiveUp(pc.op, pc.d, pc.held)
                           else NextLayer(pc.op, pc.d, pc.h, pc.path, pc.layer, pc.held));
      assert DoLockSucc(s, t, s') && Step(s, t, s') && s'.threads[t] != pc;
    }
  }

  lemma InsertCanStep(s: State, t: Tid, unused: NodeId)
    requires t in s.threads && InsertPcOk(s, t, s.threads[t]) && HeadOk(s) && unused !in s.nodes
    requires s.size + 1 < SIZE_LIMIT
    requires var pc := s.threads[t]; pc.AddCreate? || Adds(pc).Some? || pc.AddHeight?
    ensures CanAdvance(s, t)
  {
    var pc := s.threads[t];
    if pc.AddCreate? {
      var s' := Goto(SetNode(s, unused, NewNode(t, pc.d, pc.h)), t, AddNext(unused, 0, pc.path, pc.held));
      assert DoAddCreate(s, t, s') && Step(s, t, s') && s'.threads[t] != pc;
    } else if pc.AddNext? {
      var s' := Goto(SetNode(s, pc.n, s.nodes[pc.n].(skip := s.nodes[pc.n].skip[pc.k := pc.path.succs[pc.k]])), t,
                     AddLink(pc.n, pc.k, pc.path, pc.held));
      assert DoAddNext(s, t, s') && Step(s, t, s') && s'.threads[t] != pc;
    } else if pc.AddLink? {
      var pred := pc.path.preds[pc.k];
      assert PredOk(s, s.nodes[pc.n].key, 0 + pc.k, pred);
      var linked := SetNode(s, pred, s.nodes[pred].(skip := s.nodes[pred].skip[pc.k := Some(pc.n)]));
      var s' := Goto(SetNode(linked, pc.n, s.nodes[pc.n].(up := pc.k + 1, ever := pc.k + 1)), t,
                     if pc.k + 1 < Height(s.nodes[pc.n]) then AddNext(pc.n, pc.k + 1, pc.path, pc.held)
                     else AddFlagLoad(pc.n, pc.path, pc.held));
      assert DoAddLink(s, t, s') && Step(s, t, s') && s'.threads[t] != pc;
    } else if pc.AddFlagLoad? {
      var s' := Goto(s, t, AddFlagStore(pc.n, pc.path, pc.held, s.nodes[pc.n].flags));
      assert DoAddFlagLoad(s, t, s') && Step(s, t, s') && s'.threads[t] != pc;
    } else if pc.AddFlagStore? {
      var s' := Goto(SetNode(s, pc.n, s.nodes[pc.n].(flags := pc.seen.(linked := true))), t,
                     AddSize(pc.n, pc.path, pc.held));
      assert DoAddFlagStore(s, t, s') && Step(s, t, s') && s'.threads[t] != pc;
    } else if pc.AddSize? {
      var s' := Goto(s.(size := Add(s.size, 1), counted := s.counted + {pc.n}), t,
                     Unlock(Added(Add(s.size, 1)), None, pc.held));
      assert DoAddSize(s, t, s') && Step(s, t, s') && s'.threads[t] != pc;
    } else {
      var s' := Goto(s, t, Idle);
      assert DoAddHeight(s, t, s') && Step(s, t, s') && s'.threads[t] != pc;
    }
  }

  lemma UnlinkCanStep(s: State, t: Tid)
    requires t in s.threads && NodesOk(s) && UnlinkPcOk(s, t, s.threads[t]) && HeldOk(s, t, s.threads[t])
    requires var pc := s.threads[t];
      pc.RemLoad? || pc.RemStore? || pc.RemSize? || pc.RemRecycle? || pc.RemExit? || pc.Unlock?
    ensures CanAdvance(s, t)
  {
    var pc := s.threads[t];
    if pc.RemLoad? {
      var s' := Goto(s, t, RemStore(pc.n, pc.k, pc.path, pc.held, s.nodes[pc.n].skip[pc.k]));
      assert DoRemLoad(s, t, s') && Step(s, t, s') && s'.threads[t] != pc;
    } else if pc.RemStore? {
      var pred := pc.path.preds[pc.k];
      assert PredOk(s, s.nodes[pc.n].key, 0 + pc.k, pred) && Validated(s, t, pred, pc.k, Some(pc.n));
      var cut := SetNode(s, pred, s.nodes[pred].(skip := s.nodes[pred].skip[pc.k := pc.next]));
      var s' := Goto(SetNode(cut, pc.n, s.nodes[pc.n].(up := pc.k)), t,
                     if pc.k > 0 then RemLoad(pc.n, pc.k - 1, pc.path, pc.held)
                     else RemSize(pc.n, pc.held));
      assert DoRemStore(s, t, s') && Step(s, t, s') && s'.threads[t] != pc;
    } else if pc.RemSize? {
      var s' := Goto(s.(size := Add(s.size, -1), counted := s.counted - {pc.n}, removals := s.removals + [pc.n]), t,
                     Unlock(Unlinked(pc.n), Some(pc.n), pc.held));
      assert DoRemSize(s, t, s') && Step(s, t, s') && s'.threads[t] != pc;
    } else if pc.RemRecycle? {
      var s' := Goto(s.(recycled := s.recycled + [pc.n]), t, RemExit(pc.n));
      assert DoRemRecycle(s, t, s') && Step(s, t, s') && s'.threads[t] != pc;
    } else if pc.RemExit? {
      assert pc.n in Holds(pc);
      var s' := Goto(Release(s, pc.n), t, Idle);
      assert DoRemExit(s, t, s') && Step(s, t, s') && s'.threads[t] != pc;
    } else if pc.held == [] {
      var s' := Goto(s, t, Leave(pc.after));
      assert DoUnlock(s, t, s') && Step(s, t, s') && s'.threads[t] != pc;
    } else {
      var n := pc.held[|pc.held| - 1];
      assert n in Holds(pc);
      var s' := Goto(Release(s, n), t, Unlock(pc.after, pc.victim, pc.held[..|pc.held| - 1]));
      assert DoUnlock(s, t, s') && Step(s, t, s') && s'.threads[t] != pc;
    }
  }

  lemma GrowCanStep(s: State, t: Tid, unused: NodeId)
    requires t in s.threads && HeadOk(s) && NodesOk(s) && GrowPcOk(s, t, s.threads[t]) && HeldOk(s, t, s.threads[t])
    requires unused !in s.nodes && Unblocked(s, s.threads[t])
    requires var pc := s.threads[t];
      || pc.GrowHead? || pc.GrowTake? || pc.GrowFlags? || pc.GrowCopy? || pc.GrowCas?
      || pc.GrowMarkLoad? || pc.GrowMarkStore?
      || pc.GrowUnlock? || pc.GrowRecycle?
    ensures CanAdvance(s, t)
  {
    var pc := s.threads[t];
    if pc.GrowHead? {
      var s' := if Height(s.nodes[s.head]) >= pc.h then Goto(s, t, Idle)
                else Goto(SetNode(s, unused, NewHead(t, pc.h)), t, GrowTake(s.head, unused));
      assert DoGrowHead(s, t, s') && Step(s, t, s') && s'.threads[t] != pc;
    } else if pc.GrowTake? {
      var s' := Goto(SetNode(s, pc.prior, s.nodes[pc.prior].(lock := Some(t))), t, GrowFlags(pc.prior, pc.taller));
      assert DoGrowTake(s, t, s') && Step(s, t, s') && s'.threads[t] != pc;
    } else if pc.GrowFlags? {
      var s' := Goto(SetNode(s, pc.taller, s.nodes[pc.taller].(flags := s.nodes[pc.prior].flags)),
                     t, GrowCopy(pc.prior, pc.taller, 0));
      assert DoGrowFlags(s, t, s') && Step(s, t, s') && s'.threads[t] != pc;
    } else if pc.GrowCopy? {
      if pc.i < Height(s.nodes[pc.prior]) {
        var r := s.nodes[pc.taller];
        var s' := Goto(SetNode(s, pc.taller, r.(skip := r.skip[pc.i := s.nodes[pc.prior].skip[pc.i]])), t,
                       GrowCopy(pc.prior, pc.taller, pc.i + 1));
        assert DoGrowCopy(s, t, s') && Step(s, t, s') && s'.threads[t] != pc;
      } else {
        var s' := Goto(s, t, GrowCas(pc.prior, pc.taller));
        assert DoGrowCopy(s, t, s') && Step(s, t, s') && s'.threads[t] != pc;
      }
    } else if pc.GrowCas? {
      if s.head == pc.prior {
        var retired := SetNode(s, pc.prior, s.nodes[pc.prior].(retirer := Some(t)));
        var s' := Goto(SetNode(retired, pc.taller,
                               s.nodes[pc.taller].(ever := Height(s.nodes[pc.taller]))).(head := pc.taller), t,
                       GrowMarkLoad(pc.prior));
        assert DoGrowCas(s, t, s') && Step(s, t, s') && s'.threads[t] != pc;
      } else {
        var s' := Goto(s, t, GrowUnlock(pc.prior, false));
        assert DoGrowCas(s, t, s') && Step(s, t, s') && s'.threads[t] != pc;
      }
    } else if pc.GrowMarkLoad? {
      var s' := Goto(s, t, GrowMarkStore(pc.prior, s.nodes[pc.prior].flags));
      assert DoGrowMarkLoad(s, t, s') && Step(s, t, s') && s'.threads[t] != pc;
    } else if pc.GrowMarkStore? {
      var s' := Goto(SetNode(s, pc.prior, s.nodes[pc.prior].(flags := pc.seen.(marked := true))),
                     t, GrowUnlock(pc.prior, true));
      assert DoGrowMarkStore(s, t, s') && Step(s, t, s') && s'.threads[t] != pc;
    } else if pc.GrowUnlock? {
      assert pc.prior in Holds(pc);
      var s' := Goto(Release(s, pc.prior), t, if pc.swapped then GrowRecycle(pc.prior) else Idle);
      assert DoGrowUnlock(s, t, s') && Step(s, t, s') && s'.threads[t] != pc;
    } else {
      var s' := Goto(s.(recycled := s.recycled + [pc.prior]), t, Idle);
      assert DoGrowRecycle(s, t, s') && Step(s, t, s') && s'.threads[t] != pc;
    }
  }

  lemma {:induction false} SomeUnused(used: set<NodeId>) returns (n: NodeId)
    ensures n !in used && forall m | m in used :: m < n
  {
    if used == {} {
      n := 0;
    } else {
      var x :| x in used;
      var k := SomeUnused(used - {x});
      n := if x < k then k else x + 1;
      assert used == used - {x} + {x};
    }
  }

  /** The thread waits in addOrGetData for another thread to finish linking the node it found. */
  ghost predicate AwaitsLinking(s: State, pc: Pc) { pc.AddWait? && pc.n in s.nodes && !s.nodes[pc.n].flags.linked }

  /** Otherwise a thread inside a call is never stuck except on a lock: every access it makes next is in range. */
  lemma OnlyLocksBlock(s: State, t: Tid)
    requires Inv(s) && t in s.threads && !s.threads[t].Idle? && s.size + 1 < SIZE_LIMIT
    requires Unblocked(s, s.threads[t]) && !AwaitsLinking(s, s.threads[t])
    ensures CanAdvance(s, t)
  {
    AllParts(s, t);
    var unused := SomeUnused(s.nodes.Keys);
    var pc := s.threads[t];
    if pc.Walk? { WalkCanStep(s, t); }
    else if pc.Top? || pc.Start? || pc.AddFound? || pc.AddWait? { SearchCanStep(s, t); }
    else if PartOf(pc).Marking? { MarkCanStep(s, t); }
    else if PartOf(pc).Locking? { LockCanStep(s, t); }
    else if PartOf(pc).Inserting? || pc.AddHeight? { InsertCanStep(s, t, unused); }
    else if PartOf(pc).Unlinking? { UnlinkCanStep(s, t); }
    else { GrowCanStep(s, t, unused); }
  }

  /** The adder of a node that is not fully linked has all the locks it needs. */
  lemma AdderCanStep(s: State, t: Tid)
    requires Inv(s) && t in s.threads && AwaitsLinking(s, s.threads[t]) && s.size + 1 < SIZE_LIMIT
    ensures CanAdvance(s, s.nodes[s.threads[t].n].owner)
  {
    assert MemoryOk(s);
    var n := s.threads[t].n;
    AllParts(s, t);
    assert NodeOk(s, n) && LifeOk(s, n);
    OnlyLocksBlock(s, s.nodes[n].owner);
  }

  /** From a thread inside a call, following who waits for whom leads to a thread that can advance. */
  lemma {:induction false} SomeoneCanAdvance(s: State, t: Tid) returns (u: Tid)
    requires Inv(s) && t in s.threads && !s.threads[t].Idle? && s.size + 1 < SIZE_LIMIT
    ensures CanAdvance(s, u)
    decreases WantedPos(s, t) + 2
  {
    assert MemoryOk(s);
    var pc := s.threads[t];
    if AwaitsLinking(s, pc) {
      AdderCanStep(s, t);
      u := s.nodes[pc.n].owner;
    } else if Unblocked(s, pc) {
      OnlyLocksBlock(s, t);
      u := t;
    } else {
      var n := Wants(pc).value;
      WantsNode(s, t);
      assert NodeOk(s, n);
      var holder := s.nodes[n].lock.value;
      OneWait(s, t, holder);
      HolderIsBusy(s, holder, n);
      u := SomeoneCanAdvance(s, holder);
    }
  }

  lemma WantsNode(s: State, t: Tid)
    requires Inv(s) && t in s.threads && Wants(s.threads[t]).Some?
    ensures Wants(s.threads[t]).value in s.nodes
  {
    AllParts(s, t);
    var pc := s.threads[t];
    if pc.LockTake? { assert PredOk(s, pc.d, 0 + pc.layer, Wants(pc).value); }
  }

  lemma HolderIsBusy(s: State, u: Tid, n: NodeId)
    requires Inv(s) && u in s.threads && n in s.nodes && s.nodes[n].lock == Some(u)
    ensures !s.threads[u].Idle?
  {
    Known(s, u);
    assert n in Holds(s.threads[u]);
  }

  /**
   * As long as some thread is inside addOrGetData, remove or growHeight, some thread inside such a
   * call has a step that changes the state: neither the locks nor the wait for a node to be fully
   * linked can bring all of them to a stop.
   */
  lemma NoDeadlock(run: seq<State>, sched: seq<Tid>, i: nat, t: Tid)
    requires Run(run, sched) && i < |run| && t in run[i].threads && !run[i].threads[t].Idle?
    requires run[i].size + 1 < SIZE_LIMIT
    ensures exists u: Tid, s' ::
      u in run[i].threads && !run[i].threads[u].Idle? && Step(run[i], u, s') && s' != run[i]
  {
    RunInv(run, sched, i);
    var u := SomeoneCanAdvance(run[i], t);
    assert CanAdvance(run[i], u);
  }
}
