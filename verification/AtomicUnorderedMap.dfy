/**
 * AtomicUnorderedInsertMap (folly/folly/AtomicUnorderedMap.h): a lock-free, insert-only hash map.
 *
 * One word per slot packs two unrelated things: the index of the first bucket of the chain of
 * keys hashing to the slot (upper bits) and the state of the bucket stored in the slot (two lower
 * bits).  The map is modelled as a state machine whose steps are the atomic accesses of
 * `findOrConstruct`, `find` and `allocateNear`, interleaved in any order by any number of threads.
 *
 * Fields of `State` and of `Pc` marked "aux" record facts about the run that the proofs need.  They
 * decide nothing inside a call: where one stands in a check, as `status` does when a bucket is marked
 * linked, the lemma `AccessesAreSafe` shows that the check always holds.
 */
module AtomicUnorderedMap {
  import opened Common

  type Key(==, !new)
  type Value(==, !new)

  datatype Params = Params(numSlots: nat, slotMask: nat, hash: Key -> nat)

  const EMPTY := 0
  const CONSTRUCTING := 1
  const LINKED := 2
  const MAX_ALLOCATION_TRIES := 1000

  ghost predicate ValidParams(p: Params) {
    1 <= p.numSlots <= 0x4000_0000
  }

  function SlotOf(p: Params, key: Key): (slot: nat)
    requires p.numSlots >= 1
    ensures slot < p.numSlots
  {
    p.hash(key) % (p.slotMask + 1) % p.numSlots
  }

  /** aux: who is responsible for a bucket, and where it sits in its chain once it is reachable. */
  datatype Status =
    | Free
    | Building(owner: Tid)
    | Publishing(owner: Tid, slot: nat, rank: nat)
    | Linked(slot: nat, rank: nat)
    | Abandoned
    | Nil
  {
    predicate Reachable() { Publishing? || Linked? }
    function Code(): nat { if Free? then EMPTY else if Linked? then LINKED else CONSTRUCTING }
  }

  /** What a call of the private `find(key, slot)` was made for. */
  datatype Ctx =
    | Lookup
    | First(v: Value, prev: nat, prevLen: nat)
    | Retry(prev: nat, prevLen: nat, idx: nat)

  /**
   * Program counter and locals of one thread.  aux fields: `prevLen` is the length of the chain
   * when `prev` was read; `headLen` its length when the head was loaded; `left` the number of
   * buckets from `cur` to the end; `truth` the abstract answer at the moment of the head load.
   */
  datatype Pc =
    | Idle
    | LoadPrev(key: Key, v: Value)
    | FindHead(key: Key, ctx: Ctx)
    | Walk(key: Key, ctx: Ctx, cur: nat, truth: Option<nat>, headLen: nat, left: nat)
    | PickSlot(key: Key, v: Value, prev: nat, prevLen: nat, tries: nat)
    | ClaimSlot(key: Key, v: Value, prev: nat, prevLen: nat, tries: nat, cand: nat, word: nat)
    | Construct(key: Key, v: Value, prev: nat, prevLen: nat, idx: nat)
    | SetNext(key: Key, prev: nat, prevLen: nat, idx: nat)
    | CasHead(key: Key, prev: nat, prevLen: nat, idx: nat)
    | MarkLinked(key: Key, idx: nat)
    | Destroy(key: Key, idx: nat, existing: nat, truth: Option<nat>)
    | Release(key: Key, idx: nat, existing: nat, truth: Option<nat>)
    | Return(key: Key, bucket: nat, inserted: bool, truth: Option<nat>)
    | Threw

  datatype State = State(
    words: seq<nat>,                  // headAndState_
    next: seq<nat>,                   // next_
    kv: seq<Option<(Key, Value)>>,    // raw_, None while nothing is constructed there
    threads: map<Tid, Pc>,
    status: seq<Status>,              // aux
    chains: seq<seq<nat>>,            // aux: buckets of the chain of each slot, oldest first
    bound: map<Key, nat>)             // aux: the abstract write-once map, key to bucket

  function AbsLookup(s: State, key: Key): Option<nat> {
    if key in s.bound then Some(s.bound[key]) else None
  }

  ghost predicate Init(p: Params, s: State) {
    && |s.words| == |s.next| == |s.kv| == |s.status| == |s.chains| == p.numSlots
    && (forall i | 0 <= i < p.numSlots ::
          && s.words[i] == (if i == 0 then CONSTRUCTING else EMPTY)
          && s.status[i] == (if i == 0 then Nil else Free)
          && s.chains[i] == [])
    && s.bound == map[]
    && (forall t | t in s.threads :: s.threads[t].Idle?)
  }

  // ---------------------------------------------------------------- steps

  /** A caller starts `find(key)` or `findOrConstruct(key, func)`; `func` would construct some `v`. */
  ghost predicate Call(s: State, t: Tid, s': State) {
    && t in s.threads && (s.threads[t].Idle? || s.threads[t].Return? || s.threads[t].Threw?)
    && exists pc: Pc | (pc.LoadPrev? || (pc.FindHead? && pc.ctx.Lookup?)) ::
         s' == s.(threads := s.threads[t := pc])
  }

  ghost predicate DoLoadPrev(p: Params, s: State, t: Tid, s': State)
    requires p.numSlots >= 1 && |s.words| == |s.chains| == p.numSlots
  {
    && t in s.threads && s.threads[t].LoadPrev?
    && var pc := s.threads[t];
       var slot := SlotOf(p, pc.key);
       s' == s.(threads := s.threads[t :=
         FindHead(pc.key, First(pc.v, s.words[slot], |s.chains[slot]|))])
  }

  ghost predicate DoFindHead(p: Params, s: State, t: Tid, s': State)
    requires p.numSlots >= 1 && |s.words| == |s.chains| == p.numSlots
  {
    && t in s.threads && s.threads[t].FindHead?
    && var pc := s.threads[t];
       var slot := SlotOf(p, pc.key);
       s' == s.(threads := s.threads[t :=
         Walk(pc.key, pc.ctx, s.words[slot] / 4, AbsLookup(s, pc.key), |s.chains[slot]|, |s.chains[slot]|)])
  }

  /** Where control goes when `find` comes back with `found` (0 when the key was not seen). */
  function AfterFind(key: Key, ctx: Ctx, found: nat, truth: Option<nat>): Pc {
    match ctx
    case Lookup => Return(key, found, false, truth)
    case First(v, prev, prevLen) =>
      if found != 0 then Return(key, found, false, truth) else PickSlot(key, v, prev, prevLen, 0)
    case Retry(prev, prevLen, idx) =>
      if found != 0 then Destroy(key, idx, found, truth) else SetNext(key, prev, prevLen, idx)
  }

  /** One turn of the chain walk: key and next_ of a reachable bucket are read-only. */
  ghost predicate DoWalk(s: State, t: Tid, s': State) {
    && t in s.threads && s.threads[t].Walk?
    && var pc := s.threads[t];
       if pc.cur == 0 then
         s' == s.(threads := s.threads[t := AfterFind(pc.key, pc.ctx, 0, pc.truth)])
       else
         && pc.cur < |s.kv| && pc.cur < |s.next| && s.kv[pc.cur].Some?
         && if s.kv[pc.cur].value.0 == pc.key then
              s' == s.(threads := s.threads[t := AfterFind(pc.key, pc.ctx, pc.cur, pc.truth)])
            else
              s' == s.(threads := s.threads[t := pc.(cur := s.next[pc.cur],
                                                     left := if pc.left == 0 then 0 else pc.left - 1)])
  }

  /** `allocateNear`: some candidate slot is read; after 1000 tries bad_alloc is thrown. */
  ghost predicate DoPickSlot(p: Params, s: State, t: Tid, s': State)
    requires |s.words| == p.numSlots
  {
    && t in s.threads && s.threads[t].PickSlot?
    && var pc := s.threads[t];
       if pc.tries >= MAX_ALLOCATION_TRIES then
         s' == s.(threads := s.threads[t := Threw])
       else
         exists cand: nat | cand < p.numSlots ::
           if s.words[cand] % 4 == EMPTY then
             s' == s.(threads := s.threads[t :=
               ClaimSlot(pc.key, pc.v, pc.prev, pc.prevLen, pc.tries, cand, s.words[cand])])
           else
             s' == s.(threads := s.threads[t := PickSlot(pc.key, pc.v, pc.prev, pc.prevLen, pc.tries + 1)])
  }

  ghost predicate DoClaimSlot(s: State, t: Tid, s': State) {
    && t in s.threads && s.threads[t].ClaimSlot?
    && var pc := s.threads[t];
       && pc.cand < |s.words| && pc.cand < |s.status|
       && if s.words[pc.cand] == pc.word then
            s' == s.(
              words := s.words[pc.cand := pc.word + CONSTRUCTING - EMPTY],
              status := s.status[pc.cand := Building(t)],
              threads := s.threads[t := Construct(pc.key, pc.v, pc.prev, pc.prevLen, pc.cand)])
          else
            s' == s.(threads := s.threads[t := PickSlot(pc.key, pc.v, pc.prev, pc.prevLen, pc.tries + 1)])
  }

  /** The key is copied and `func` called; if either throws, the bucket stays CONSTRUCTING for good. */
  ghost predicate DoConstruct(s: State, t: Tid, s': State) {
    && t in s.threads && s.threads[t].Construct?
    && var pc := s.threads[t];
       && pc.idx < |s.kv| && pc.idx < |s.status|
       && (|| s' == s.(
                kv := s.kv[pc.idx := Some((pc.key, pc.v))],
                threads := s.threads[t := SetNext(pc.key, pc.prev, pc.prevLen, pc.idx)])
           || s' == s.(
                status := s.status[pc.idx := Abandoned],
                threads := s.threads[t := Threw]))
  }

  ghost predicate DoSetNext(s: State, t: Tid, s': State) {
    && t in s.threads && s.threads[t].SetNext?
    && var pc := s.threads[t];
       && pc.idx < |s.next|
       && s' == s.(
            next := s.next[pc.idx := pc.prev / 4],
            threads := s.threads[t := CasHead(pc.key, pc.prev, pc.prevLen, pc.idx)])
  }

  /** The compare-and-swap on the head; a failure reloads `prev` and searches again. */
  ghost predicate DoCasHead(p: Params, s: State, t: Tid, s': State)
    requires p.numSlots >= 1 && |s.words| == |s.chains| == |s.status| == p.numSlots
  {
    && t in s.threads && s.threads[t].CasHead?
    && var pc := s.threads[t];
       var slot := SlotOf(p, pc.key);
       && pc.idx < |s.status|
       && if s.words[slot] == pc.prev then
            var rank := |s.chains[slot]|;
            s' == s.(
              words := s.words[slot := pc.idx * 4 + (if slot == pc.idx then LINKED else pc.prev % 4)],
              status := s.status[pc.idx := if slot == pc.idx then Linked(slot, rank) else Publishing(t, slot, rank)],
              chains := s.chains[slot := s.chains[slot] + [pc.idx]],
              bound := s.bound[pc.key := pc.idx],
              threads := s.threads[t :=
                if slot == pc.idx then Return(pc.key, pc.idx, true, None) else MarkLinked(pc.key, pc.idx)])
          else
            s' == s.(threads := s.threads[t :=
              FindHead(pc.key, Retry(s.words[slot], |s.chains[slot]|, pc.idx))])
  }

  /** stateUpdate(CONSTRUCTING, LINKED): a fetch-add on the packed word. */
  ghost predicate DoMarkLinked(s: State, t: Tid, s': State) {
    && t in s.threads && s.threads[t].MarkLinked?
    && var pc := s.threads[t];
       && pc.idx < |s.words| && pc.idx < |s.status| && s.status[pc.idx].Reachable()
       && s' == s.(
            words := s.words[pc.idx := s.words[pc.idx] + (LINKED - CONSTRUCTING)],
            status := s.status[pc.idx := Linked(s.status[pc.idx].slot, s.status[pc.idx].rank)],
            threads := s.threads[t := Return(pc.key, pc.idx, true, None)])
  }

  ghost predicate DoDestroy(s: State, t: Tid, s': State) {
    && t in s.threads && s.threads[t].Destroy?
    && var pc := s.threads[t];
       && pc.idx < |s.kv|
       && s' == s.(
            kv := s.kv[pc.idx := None],
            threads := s.threads[t := Release(pc.key, pc.idx, pc.existing, pc.truth)])
  }

  /** stateUpdate(CONSTRUCTING, EMPTY). */
  ghost predicate DoRelease(s: State, t: Tid, s': State) {
    && t in s.threads && s.threads[t].Release?
    && var pc := s.threads[t];
       && pc.idx < |s.words| && pc.idx < |s.status| && s.words[pc.idx] >= 1
       && s' == s.(
            words := s.words[pc.idx := s.words[pc.idx] - (CONSTRUCTING - EMPTY)],
            status := s.status[pc.idx := Free],
            threads := s.threads[t := Return(pc.key, pc.existing, false, pc.truth)])
  }

  ghost predicate Step(p: Params, s: State, t: Tid, s': State)
    requires p.numSlots >= 1 && |s.words| == |s.chains| == |s.status| == p.numSlots
  {
    && t in s.threads
    && (|| Call(s, t, s')
        || DoLoadPrev(p, s, t, s')
        || DoFindHead(p, s, t, s')
        || DoWalk(s, t, s')
        || DoPickSlot(p, s, t, s')
        || DoClaimSlot(s, t, s')
        || DoConstruct(s, t, s')
        || DoSetNext(s, t, s')
        || DoCasHead(p, s, t, s')
        || DoMarkLinked(s, t, s')
        || DoDestroy(s, t, s')
        || DoRelease(s, t, s'))
  }

  // ---------------------------------------------------------------- invariant

  ghost predicate Shape(p: Params, s: State) {
    && ValidParams(p)
    && |s.words| == |s.next| == |s.kv| == |s.status| == |s.chains| == p.numSlots
  }

  /** The bucket at position i of a chain: constructed, correctly hashed, correctly linked, bound. */
  ghost predicate BucketOk(p: Params, s: State, slot: nat, i: nat)
    requires Shape(p, s) && slot < p.numSlots && i < |s.chains[slot]|
  {
    var b := s.chains[slot][i];
    && 0 < b < p.numSlots
    && s.status[b].Reachable() && s.status[b].slot == slot && s.status[b].rank == i
    && s.kv[b].Some?
    && SlotOf(p, s.kv[b].value.0) == slot
    && s.kv[b].value.0 in s.bound && s.bound[s.kv[b].value.0] == b
    && s.next[b] == (if i == 0 then 0 else s.chains[slot][i - 1])
  }

  ghost predicate ChainsOk(p: Params, s: State)
    requires Shape(p, s)
  {
    forall slot, i | 0 <= slot < p.numSlots && 0 <= i < |s.chains[slot]| :: BucketOk(p, s, slot, i)
  }

  ghost predicate WordsOk(p: Params, s: State)
    requires Shape(p, s)
  {
    forall i | 0 <= i < p.numSlots ::
      && s.words[i] / 4 == Last(s.chains[i])
      && s.words[i] % 4 == s.status[i].Code()
  }

  ghost predicate StatusOk(p: Params, s: State)
    requires Shape(p, s)
  {
    && s.status[0] == Nil
    && forall b | 0 <= b < p.numSlots && s.status[b].Reachable() ::
         && s.status[b].slot < p.numSlots
         && s.status[b].rank < |s.chains[s.status[b].slot]|
         && s.chains[s.status[b].slot][s.status[b].rank] == b
  }

  ghost predicate BoundOk(p: Params, s: State)
    requires Shape(p, s)
  {
    forall k | k in s.bound ::
      && s.bound[k] < p.numSlots
      && s.status[s.bound[k]].Reachable()
      && s.kv[s.bound[k]].Some? && s.kv[s.bound[k]].value.0 == k
  }

  function Last(c: seq<nat>): nat { if c == [] then 0 else c[|c| - 1] }

  /** `prev` was the head word when the chain had `len` buckets. */
  ghost predicate PrevOk(p: Params, s: State, key: Key, prev: nat, len: nat)
    requires Shape(p, s)
  {
    var c := s.chains[SlotOf(p, key)];
    len <= |c| && prev / 4 == Last(c[..len])
  }

  /** No bucket among the `len` oldest of the chain of `key` holds `key`. */
  ghost predicate AbsentIn(p: Params, s: State, key: Key, len: nat)
    requires Shape(p, s)
  {
    var c := s.chains[SlotOf(p, key)];
    && len <= |c|
    && forall i | 0 <= i < len :: c[i] < |s.kv| && s.kv[c[i]].Some? ==> s.kv[c[i]].value.0 != key
  }

  ghost predicate Mine(p: Params, s: State, t: Tid, idx: nat)
    requires Shape(p, s)
  {
    0 < idx < p.numSlots && s.status[idx] == Building(t)
  }

  /** `truth` is `Some(b)` only for the bucket bound to the key, found among the `len` oldest. */
  ghost predicate TruthOk(p: Params, s: State, key: Key, truth: Option<nat>, len: nat)
    requires Shape(p, s)
  {
    match truth
    case None => AbsentIn(p, s, key, len)
    case Some(b) =>
      key in s.bound && s.bound[key] == b && 0 < b < p.numSlots && s.status[b].Reachable() && s.status[b].rank < len
  }

  ghost predicate CtxOk(p: Params, s: State, t: Tid, key: Key, ctx: Ctx)
    requires Shape(p, s)
  {
    match ctx
    case Lookup => true
    case First(v, prev, prevLen) => PrevOk(p, s, key, prev, prevLen)
    case Retry(prev, prevLen, idx) =>
      PrevOk(p, s, key, prev, prevLen) && Mine(p, s, t, idx) && s.kv[idx].Some? && s.kv[idx].value.0 == key
  }

  function CtxLen(ctx: Ctx): nat { if ctx.Lookup? then 0 else ctx.prevLen }

  ghost predicate Answered(p: Params, s: State, key: Key, bucket: nat, truth: Option<nat>)
    requires Shape(p, s)
  {
    match truth
    case None => bucket == 0
    case Some(b) => bucket == b && key in s.bound && s.bound[key] == b && 0 < b < p.numSlots
  }

  ghost predicate ThreadOk(p: Params, s: State, t: Tid, pc: Pc)
    requires Shape(p, s)
  {
    match pc
    case Idle => true
    case Threw => true
    case LoadPrev(_, _) => true
    case FindHead(key, ctx) => CtxOk(p, s, t, key, ctx)
    case Walk(key, ctx, cur, truth, headLen, left) =>
      && CtxOk(p, s, t, key, ctx)
      && CtxLen(ctx) <= headLen
      && left <= headLen <= |s.chains[SlotOf(p, key)]|
      && cur == Last(s.chains[SlotOf(p, key)][..left])
      && TruthOk(p, s, key, truth, headLen)
      && (truth.Some? ==> s.status[truth.value].rank < left)
    case PickSlot(key, _, prev, prevLen, _) =>
      PrevOk(p, s, key, prev, prevLen) && AbsentIn(p, s, key, prevLen)
    case ClaimSlot(key, _, prev, prevLen, _, cand, word) =>
      PrevOk(p, s, key, prev, prevLen) && AbsentIn(p, s, key, prevLen) && cand < p.numSlots && word % 4 == EMPTY
    case Construct(key, _, prev, prevLen, idx) =>
      PrevOk(p, s, key, prev, prevLen) && AbsentIn(p, s, key, prevLen) && Mine(p, s, t, idx)
    case SetNext(key, prev, prevLen, idx) =>
      && PrevOk(p, s, key, prev, prevLen) && AbsentIn(p, s, key, prevLen)
      && Mine(p, s, t, idx) && s.kv[idx].Some? && s.kv[idx].value.0 == key
    case CasHead(key, prev, prevLen, idx) =>
      && PrevOk(p, s, key, prev, prevLen) && AbsentIn(p, s, key, prevLen)
      && Mine(p, s, t, idx) && s.kv[idx].Some? && s.kv[idx].value.0 == key
      && s.next[idx] == prev / 4
    case MarkLinked(key, idx) =>
      idx < p.numSlots && s.status[idx].Publishing? && s.status[idx].owner == t && key in s.bound && s.bound[key] == idx
    case Destroy(key, idx, existing, truth) =>
      Mine(p, s, t, idx) && existing != 0 && Answered(p, s, key, existing, truth)
    case Release(key, idx, existing, truth) =>
      Mine(p, s, t, idx) && existing != 0 && Answered(p, s, key, existing, truth)
    case Return(key, bucket, inserted, truth) =>
      if inserted then key in s.bound && s.bound[key] == bucket else Answered(p, s, key, bucket, truth)
  }

  ghost predicate MemoryOk(p: Params, s: State) {
    Shape(p, s) && ChainsOk(p, s) && WordsOk(p, s) && StatusOk(p, s) && BoundOk(p, s)
  }

  ghost predicate Inv(p: Params, s: State) {
    && MemoryOk(p, s)
    && forall t {:trigger ThreadOk(p, s, t, s.threads[t])} | t in s.threads :: ThreadOk(p, s, t, s.threads[t])
  }

  // ---------------------------------------------------------------- what one step leaves alone

  /** What a step of thread t may change, as the other threads see it. */
  ghost predicate Evolves(p: Params, s: State, t: Tid, s': State)
    requires Shape(p, s) && Shape(p, s')
  {
    && (forall i | 0 <= i < p.numSlots :: s.chains[i] <= s'.chains[i])
    && (forall b | 0 <= b < p.numSlots && s.status[b].Reachable() ::
          && s'.status[b].Reachable()
          && s'.status[b].slot == s.status[b].slot && s'.status[b].rank == s.status[b].rank
          && s'.kv[b] == s.kv[b] && s'.next[b] == s.next[b]
          && (s.status[b].Linked? ==> s'.status[b].Linked?))
    && (forall b | 0 <= b < p.numSlots && (s.status[b].Building? || s.status[b].Publishing?)
        && s.status[b].owner != t ::
          s'.status[b] == s.status[b] && s'.kv[b] == s.kv[b] && s'.next[b] == s.next[b])
    && (forall k | k in s.bound :: k in s'.bound && s'.bound[k] == s.bound[k])
  }

  lemma AbsentStable(p: Params, s: State, t: Tid, s': State, key: Key, len: nat)
    requires MemoryOk(p, s) && Shape(p, s') && Evolves(p, s, t, s')
    requires AbsentIn(p, s, key, len)
    ensures AbsentIn(p, s', key, len)
  {
    var slot := SlotOf(p, key);
    forall i | 0 <= i < len
      ensures s'.chains[slot][i] < |s'.kv| && s'.kv[s'.chains[slot][i]].Some? ==>
        s'.kv[s'.chains[slot][i]].value.0 != key
    {
      assert BucketOk(p, s, slot, i);
      assert s'.chains[slot][i] == s.chains[slot][i];
    }
  }

  lemma PrevStable(p: Params, s: State, t: Tid, s': State, key: Key, prev: nat, len: nat)
    requires Shape(p, s) && Shape(p, s') && Evolves(p, s, t, s')
    requires PrevOk(p, s, key, prev, len)
    ensures PrevOk(p, s', key, prev, len)
  {
    var slot := SlotOf(p, key);
    assert s'.chains[slot][..len] == s.chains[slot][..len];
  }

  lemma ThreadStable(p: Params, s: State, t: Tid, s': State, u: Tid, pc: Pc)
    requires MemoryOk(p, s) && Shape(p, s') && Evolves(p, s, t, s') && u != t
    requires ThreadOk(p, s, u, pc)
    ensures ThreadOk(p, s', u, pc)
  {
    match pc
    case FindHead(key, ctx) =>
      if !ctx.Lookup? { PrevStable(p, s, t, s', key, ctx.prev, ctx.prevLen); }
    case Walk(key, ctx, cur, truth, headLen, left) =>
      if !ctx.Lookup? { PrevStable(p, s, t, s', key, ctx.prev, ctx.prevLen); }
      var slot := SlotOf(p, key);
      assert s'.chains[slot][..left] == s.chains[slot][..left];
      if truth.None? { AbsentStable(p, s, t, s', key, headLen); }
    case PickSlot(key, _, prev, prevLen, _) =>
      PrevStable(p, s, t, s', key, prev, prevLen); AbsentStable(p, s, t, s', key, prevLen);
    case ClaimSlot(key, _, prev, prevLen, _, _, _) =>
      PrevStable(p, s, t, s', key, prev, prevLen); AbsentStable(p, s, t, s', key, prevLen);
    case Construct(key, _, prev, prevLen, _) =>
      PrevStable(p, s, t, s', key, prev, prevLen); AbsentStable(p, s, t, s', key, prevLen);
    case SetNext(key, prev, prevLen, _) =>
      PrevStable(p, s, t, s', key, prev, prevLen); AbsentStable(p, s, t, s', key, prevLen);
    case CasHead(key, prev, prevLen, _) =>
      PrevStable(p, s, t, s', key, prev, prevLen); AbsentStable(p, s, t, s', key, prevLen);
    case _ =>
  }

  /** Reassembles the invariant after a step of t. */
  lemma Assemble(p: Params, s: State, t: Tid, s': State)
    requires Inv(p, s) && t in s.threads
    requires MemoryOk(p, s') && Evolves(p, s, t, s')
    requires s'.threads.Keys == s.threads.Keys
    requires forall u | u in s.threads && u != t :: s'.threads[u] == s.threads[u]
    requires ThreadOk(p, s', t, s'.threads[t])
    ensures Inv(p, s')
  {
    forall u | u in s'.threads ensures ThreadOk(p, s', u, s'.threads[u]) {
      if u != t { ThreadStable(p, s, t, s', u, s.threads[u]); }
    }
  }

  // ---------------------------------------------------------------- every step keeps the invariant

  /** Steps that only move the thread's own program counter. */
  lemma LocalStep(p: Params, s: State, t: Tid, pc: Pc)
    requires Inv(p, s) && t in s.threads
    requires ThreadOk(p, s, t, pc)
    ensures Inv(p, s.(threads := s.threads[t := pc])) && Evolves(p, s, t, s.(threads := s.threads[t := pc]))
  {
    var s' := s.(threads := s.threads[t := pc]);
    forall slot, i | 0 <= slot < p.numSlots && 0 <= i < |s'.chains[slot]| ensures BucketOk(p, s', slot, i) {
      assert BucketOk(p, s, slot, i);
    }
    ThreadSame(p, s, s', t, pc);
    Assemble(p, s, t, s');
  }

  lemma ThreadSame(p: Params, s: State, s': State, t: Tid, pc: Pc)
    requires Shape(p, s) && s' == s.(threads := s'.threads)
    requires ThreadOk(p, s, t, pc)
    ensures ThreadOk(p, s', t, pc)
  {
  }

  lemma LoadPrevKeeps(p: Params, s: State, t: Tid, s': State)
    requires Inv(p, s) && DoLoadPrev(p, s, t, s')
    ensures Inv(p, s') && Evolves(p, s, t, s')
  {
    var slot := SlotOf(p, s.threads[t].key);
    assert s.chains[slot][..|s.chains[slot]|] == s.chains[slot];
    LocalStep(p, s, t, s'.threads[t]);
  }

  lemma BoundInChain(p: Params, s: State, key: Key)
    requires MemoryOk(p, s)
    ensures key in s.bound ==>
      var b := s.bound[key]; var c := s.chains[SlotOf(p, key)];
      s.status[b].rank < |c| && c[s.status[b].rank] == b && s.kv[b].Some? && s.kv[b].value.0 == key
  {
    if key in s.bound {
      assert BucketOk(p, s, s.status[s.bound[key]].slot, s.status[s.bound[key]].rank);
    }
  }

  lemma LookupMatches(p: Params, s: State, key: Key)
    requires MemoryOk(p, s)
    ensures TruthOk(p, s, key, AbsLookup(s, key), |s.chains[SlotOf(p, key)]|)
  {
    var slot := SlotOf(p, key);
    if key in s.bound {
      var b := s.bound[key];
      assert BucketOk(p, s, s.status[b].slot, s.status[b].rank);
    } else {
      forall i | 0 <= i < |s.chains[slot]|
        ensures s.chains[slot][i] < |s.kv| && s.kv[s.chains[slot][i]].Some? ==> s.kv[s.chains[slot][i]].value.0 != key
      {
        assert BucketOk(p, s, slot, i);
      }
    }
  }

  lemma FindHeadKeeps(p: Params, s: State, t: Tid, s': State)
    requires Inv(p, s) && DoFindHead(p, s, t, s')
    ensures Inv(p, s') && Evolves(p, s, t, s')
  {
    var slot := SlotOf(p, s.threads[t].key);
    assert ThreadOk(p, s, t, s.threads[t]);
    assert s.chains[slot][..|s.chains[slot]|] == s.chains[slot];
    LookupMatches(p, s, s.threads[t].key);
    LocalStep(p, s, t, s'.threads[t]);
  }

  /** The bucket a walk stands on is the newest of the `left` oldest, hence a sound memory access. */
  lemma WalkOn(p: Params, s: State, t: Tid)
    requires Inv(p, s) && t in s.threads && s.threads[t].Walk?
    ensures var pc := s.threads[t];
      && (pc.cur == 0 <==> pc.left == 0)
      && (pc.cur != 0 ==>
            && 0 < pc.left <= |s.chains[SlotOf(p, pc.key)]| && BucketOk(p, s, SlotOf(p, pc.key), pc.left - 1)
            && pc.cur == s.chains[SlotOf(p, pc.key)][pc.left - 1])
  {
    var pc := s.threads[t];
    var slot := SlotOf(p, pc.key);
    assert ThreadOk(p, s, t, pc);
    if pc.left > 0 { assert BucketOk(p, s, slot, pc.left - 1); }
  }

  lemma WalkMiss(p: Params, s: State, t: Tid)
    requires Inv(p, s) && t in s.threads && s.threads[t].Walk? && s.threads[t].cur != 0
    requires s.threads[t].cur < p.numSlots && s.kv[s.threads[t].cur].Some?
    requires s.kv[s.threads[t].cur].value.0 != s.threads[t].key
    ensures var pc := s.threads[t];
      pc.left > 0 && ThreadOk(p, s, t, pc.(cur := s.next[pc.cur], left := pc.left - 1))
  {
    var pc := s.threads[t];
    assert ThreadOk(p, s, t, pc);
    WalkOn(p, s, t);
    var c := s.chains[SlotOf(p, pc.key)];
    assert s.next[pc.cur] == Last(c[..pc.left - 1]);
    if pc.truth.Some? { BoundInChain(p, s, pc.key); }
  }

  lemma WalkEnd(p: Params, s: State, t: Tid)
    requires Inv(p, s) && t in s.threads && s.threads[t].Walk? && s.threads[t].cur == 0
    ensures var pc := s.threads[t]; ThreadOk(p, s, t, AfterFind(pc.key, pc.ctx, 0, pc.truth))
  {
    var pc := s.threads[t];
    assert ThreadOk(p, s, t, pc);
    WalkOn(p, s, t);
  }

  lemma WalkHit(p: Params, s: State, t: Tid)
    requires Inv(p, s) && t in s.threads && s.threads[t].Walk? && s.threads[t].cur != 0
    requires s.threads[t].cur < p.numSlots && s.kv[s.threads[t].cur].Some?
    requires s.kv[s.threads[t].cur].value.0 == s.threads[t].key
    ensures var pc := s.threads[t]; ThreadOk(p, s, t, AfterFind(pc.key, pc.ctx, pc.cur, pc.truth))
  {
    var pc := s.threads[t];
    assert ThreadOk(p, s, t, pc);
    WalkOn(p, s, t);
  }

  lemma WalkKeeps(p: Params, s: State, t: Tid, s': State)
    requires Inv(p, s) && DoWalk(s, t, s')
    ensures Inv(p, s') && Evolves(p, s, t, s')
  {
    var pc := s.threads[t];
    WalkOn(p, s, t);
    if pc.cur == 0 { WalkEnd(p, s, t); }
    else if s.kv[pc.cur].value.0 == pc.key { WalkHit(p, s, t); }
    else { WalkMiss(p, s, t); }
    LocalStep(p, s, t, s'.threads[t]);
  }

  lemma PickSlotKeeps(p: Params, s: State, t: Tid, s': State)
    requires Inv(p, s) && DoPickSlot(p, s, t, s')
    ensures Inv(p, s') && Evolves(p, s, t, s')
  {
    assert ThreadOk(p, s, t, s.threads[t]);
    LocalStep(p, s, t, s'.threads[t]);
  }

  /** Chains, bindings and reachable buckets are untouched: what remains is the words and statuses. */
  lemma PrivateChange(p: Params, s: State, t: Tid, s': State)
    requires MemoryOk(p, s) && Shape(p, s')
    requires s'.chains == s.chains && s'.bound == s.bound
    requires forall b | 0 <= b < p.numSlots && s.status[b].Reachable() ::
      s'.status[b].Reachable() && s'.status[b].slot == s.status[b].slot && s'.status[b].rank == s.status[b].rank
      && s'.kv[b] == s.kv[b] && s'.next[b] == s.next[b]
    requires forall b | 0 <= b < p.numSlots && s'.status[b].Reachable() :: s.status[b].Reachable()
    requires s'.status[0] == Nil
    ensures ChainsOk(p, s') && StatusOk(p, s') && BoundOk(p, s')
  {
    forall slot, i | 0 <= slot < p.numSlots && 0 <= i < |s'.chains[slot]| ensures BucketOk(p, s', slot, i) {
      assert BucketOk(p, s, slot, i);
    }
  }

  /** Only bucket b changes: a free one, or one of t's that is not reachable yet, or t's as it becomes LINKED. */
  ghost predicate ChangesOnly(p: Params, s: State, t: Tid, s': State, b: nat)
    requires Shape(p, s)
  {
    && Shape(p, s') && 0 < b < p.numSlots && s'.chains == s.chains && s'.bound == s.bound
    && s'.words == s.words[b := s'.words[b]] && s'.status == s.status[b := s'.status[b]]
    && s'.kv == s.kv[b := s'.kv[b]] && s'.next == s.next[b := s'.next[b]]
    && s'.words[b] / 4 == s.words[b] / 4 && s'.words[b] % 4 == s'.status[b].Code()
    && if s.status[b].Publishing? then
         && s.status[b].owner == t && s'.status[b] == Linked(s.status[b].slot, s.status[b].rank)
         && s'.kv == s.kv && s'.next == s.next
       else
         (s.status[b].Free? || s.status[b] == Building(t)) && !s'.status[b].Reachable() && !s'.status[b].Nil?
  }

  lemma BucketChange(p: Params, s: State, t: Tid, s': State, b: nat)
    requires MemoryOk(p, s) && ChangesOnly(p, s, t, s', b)
    ensures MemoryOk(p, s') && Evolves(p, s, t, s')
  {
    PrivateChange(p, s, t, s');
  }

  ghost predicate Moved(s: State, t: Tid, s': State) {
    t in s.threads && t in s'.threads && s'.threads == s.threads[t := s'.threads[t]]
  }

  lemma BucketKeeps(p: Params, s: State, t: Tid, s': State, b: nat)
    requires Inv(p, s) && ChangesOnly(p, s, t, s', b) && Moved(s, t, s') && ThreadOk(p, s', t, s'.threads[t])
    ensures Inv(p, s') && Evolves(p, s, t, s')
  {
    BucketChange(p, s, t, s', b);
    Assemble(p, s, t, s');
  }

  lemma ClaimSlotNext(p: Params, s: State, t: Tid, s': State)
    requires MemoryOk(p, s) && DoClaimSlot(s, t, s') && ThreadOk(p, s, t, s.threads[t])
    requires s.words[s.threads[t].cand] == s.threads[t].word
    ensures ChangesOnly(p, s, t, s', s.threads[t].cand) && ThreadOk(p, s', t, s'.threads[t])
  {
    var pc := s.threads[t];
    assert s.status[pc.cand].Free?;
    BucketChange(p, s, t, s', pc.cand);
    AbsentStable(p, s, t, s', pc.key, pc.prevLen);
  }

  lemma ClaimSlotKeeps(p: Params, s: State, t: Tid, s': State)
    requires Inv(p, s) && DoClaimSlot(s, t, s')
    ensures Inv(p, s') && Evolves(p, s, t, s')
  {
    var pc := s.threads[t];
    assert ThreadOk(p, s, t, pc);
    if s.words[pc.cand] == pc.word {
      ClaimSlotNext(p, s, t, s');
      BucketKeeps(p, s, t, s', pc.cand);
    } else {
      LocalStep(p, s, t, s'.threads[t]);
    }
  }

  lemma BuildNext(p: Params, s: State, t: Tid, s': State)
    requires MemoryOk(p, s) && (DoConstruct(s, t, s') || DoSetNext(s, t, s')) && ThreadOk(p, s, t, s.threads[t])
    ensures ChangesOnly(p, s, t, s', s.threads[t].idx) && ThreadOk(p, s', t, s'.threads[t])
  {
    var pc := s.threads[t];
    BucketChange(p, s, t, s', pc.idx);
    AbsentStable(p, s, t, s', pc.key, pc.prevLen);
  }

  lemma BuildKeeps(p: Params, s: State, t: Tid, s': State)
    requires Inv(p, s) && (DoConstruct(s, t, s') || DoSetNext(s, t, s'))
    ensures Inv(p, s') && Evolves(p, s, t, s')
  {
    assert ThreadOk(p, s, t, s.threads[t]);
    BuildNext(p, s, t, s');
    BucketKeeps(p, s, t, s', s.threads[t].idx);
  }

  lemma FinishNext(p: Params, s: State, t: Tid, s': State)
    requires MemoryOk(p, s) && (DoMarkLinked(s, t, s') || DoDestroy(s, t, s') || DoRelease(s, t, s'))
    requires ThreadOk(p, s, t, s.threads[t])
    ensures ChangesOnly(p, s, t, s', s.threads[t].idx) && ThreadOk(p, s', t, s'.threads[t])
  {
    assert s.words[s.threads[t].idx] % 4 == s.status[s.threads[t].idx].Code();
  }

  lemma FinishKeeps(p: Params, s: State, t: Tid, s': State)
    requires Inv(p, s) && (DoMarkLinked(s, t, s') || DoDestroy(s, t, s') || DoRelease(s, t, s'))
    ensures Inv(p, s') && Evolves(p, s, t, s')
  {
    assert ThreadOk(p, s, t, s.threads[t]);
    FinishNext(p, s, t, s');
    BucketKeeps(p, s, t, s', s.threads[t].idx);
  }

  /**
   * A successful compare-and-swap proves that the chain has not grown since `prev` was read, even
   * though the state bits of the word may have gone back and forth; so the key is still absent.
   */
  lemma CasMeansAbsent(p: Params, s: State, t: Tid)
    requires Inv(p, s) && t in s.threads && s.threads[t].CasHead?
    requires s.words[SlotOf(p, s.threads[t].key)] == s.threads[t].prev
    ensures |s.chains[SlotOf(p, s.threads[t].key)]| == s.threads[t].prevLen
    ensures s.threads[t].key !in s.bound
  {
    var pc := s.threads[t];
    var slot := SlotOf(p, pc.key);
    var c := s.chains[slot];
    assert ThreadOk(p, s, t, pc);
    if pc.prevLen > 0 { assert BucketOk(p, s, slot, pc.prevLen - 1); }
    if |c| > 0 { assert BucketOk(p, s, slot, |c| - 1); }
    BoundInChain(p, s, pc.key);
  }

  ghost predicate Pushes(p: Params, s: State, t: Tid, s': State) {
    && Inv(p, s) && DoCasHead(p, s, t, s')
    && s.words[SlotOf(p, s.threads[t].key)] == s.threads[t].prev
  }

  lemma PushKeepsChains(p: Params, s: State, t: Tid, s': State)
    requires Pushes(p, s, t, s')
    ensures Shape(p, s') && ChainsOk(p, s')
  {
    var pc := s.threads[t];
    var slot := SlotOf(p, pc.key);
    var c := s.chains[slot];
    assert ThreadOk(p, s, t, pc);
    CasMeansAbsent(p, s, t);
    assert c[..pc.prevLen] == c;
    forall x, i | 0 <= x < p.numSlots && 0 <= i < |s'.chains[x]| ensures BucketOk(p, s', x, i) {
      if x != slot || i < |c| { assert BucketOk(p, s, x, i); }
    }
  }

  lemma PushKeepsWords(p: Params, s: State, t: Tid, s': State)
    requires Pushes(p, s, t, s')
    ensures Shape(p, s') && WordsOk(p, s')
  {
    assert ThreadOk(p, s, t, s.threads[t]);
  }

  lemma PushKeepsStatus(p: Params, s: State, t: Tid, s': State)
    requires Pushes(p, s, t, s')
    ensures Shape(p, s') && StatusOk(p, s') && BoundOk(p, s')
  {
    assert ThreadOk(p, s, t, s.threads[t]);
  }

  lemma PushEvolves(p: Params, s: State, t: Tid, s': State)
    requires Pushes(p, s, t, s')
    ensures Shape(p, s') && Evolves(p, s, t, s')
  {
    assert ThreadOk(p, s, t, s.threads[t]);
    CasMeansAbsent(p, s, t);
  }

  lemma CasHeadKeeps(p: Params, s: State, t: Tid, s': State)
    requires Inv(p, s) && DoCasHead(p, s, t, s')
    ensures Inv(p, s') && Evolves(p, s, t, s')
  {
    var pc := s.threads[t];
    var slot := SlotOf(p, pc.key);
    assert ThreadOk(p, s, t, pc);
    if s.words[slot] == pc.prev {
      PushKeepsChains(p, s, t, s'); PushKeepsWords(p, s, t, s'); PushKeepsStatus(p, s, t, s'); PushEvolves(p, s, t, s');
      Assemble(p, s, t, s');
    } else {
      assert s.chains[slot][..|s.chains[slot]|] == s.chains[slot];
      LocalStep(p, s, t, s'.threads[t]);
    }
  }

  lemma StepKeeps(p: Params, s: State, t: Tid, s': State)
    requires Inv(p, s) && Step(p, s, t, s')
    ensures Inv(p, s') && Evolves(p, s, t, s')
  {
    if Call(s, t, s') { LocalStep(p, s, t, s'.threads[t]); }
    else if DoLoadPrev(p, s, t, s') { LoadPrevKeeps(p, s, t, s'); }
    else if DoFindHead(p, s, t, s') { FindHeadKeeps(p, s, t, s'); }
    else if DoWalk(s, t, s') { WalkKeeps(p, s, t, s'); }
    else if DoPickSlot(p, s, t, s') { PickSlotKeeps(p, s, t, s'); }
    else if DoClaimSlot(s, t, s') { ClaimSlotKeeps(p, s, t, s'); }
    else if DoConstruct(s, t, s') || DoSetNext(s, t, s') { BuildKeeps(p, s, t, s'); }
    else if DoCasHead(p, s, t, s') { CasHeadKeeps(p, s, t, s'); }
    else { FinishKeeps(p, s, t, s'); }
  }

  // ---------------------------------------------------------------- whole runs

  /** Step i of a run: `sched[i]` is the thread that moves. */
  ghost predicate Follows(p: Params, run: seq<State>, sched: seq<Tid>, i: nat)
    requires i < |sched| && |run| == |sched| + 1 && p.numSlots >= 1
  {
    |run[i].words| == |run[i].chains| == |run[i].status| == p.numSlots && Step(p, run[i], sched[i], run[i + 1])
  }

  ghost predicate Run(p: Params, run: seq<State>, sched: seq<Tid>) {
    && ValidParams(p)
    && |run| == |sched| + 1
    && Init(p, run[0])
    && forall i | 0 <= i < |sched| :: Follows(p, run, sched, i)
  }

  lemma InitOk(p: Params, s: State)
    requires ValidParams(p) && Init(p, s)
    ensures Inv(p, s)
  {
  }

  lemma {:induction false} RunInv(p: Params, run: seq<State>, sched: seq<Tid>, i: nat)
    requires Run(p, run, sched) && i < |run|
    ensures Inv(p, run[i])
  {
    if i == 0 {
      InitOk(p, run[0]);
    } else {
      RunInv(p, run, sched, i - 1);
      assert Follows(p, run, sched, i - 1);
      StepKeeps(p, run[i - 1], sched[i - 1], run[i]);
    }
  }

  lemma RunStep(p: Params, run: seq<State>, sched: seq<Tid>, i: nat)
    requires Run(p, run, sched) && i < |sched|
    ensures Shape(p, run[i]) && Shape(p, run[i + 1]) && Evolves(p, run[i], sched[i], run[i + 1])
  {
    RunInv(p, run, sched, i);
    assert Follows(p, run, sched, i);
    StepKeeps(p, run[i], sched[i], run[i + 1]);
  }

  /** Once reachable, a bucket never changes, never becomes EMPTY again and stays bound to its key. */
  lemma {:induction false} ReachableForever(p: Params, run: seq<State>, sched: seq<Tid>, i: nat, j: nat, b: nat)
    requires Run(p, run, sched) && i <= j < |run| && b < p.numSlots
    requires |run[i].status| == p.numSlots && run[i].status[b].Reachable()
    ensures Shape(p, run[i]) && Shape(p, run[j])
    ensures run[j].status[b].Reachable() && run[j].words[b] % 4 != EMPTY
    ensures run[j].kv[b] == run[i].kv[b] && run[j].kv[b].Some? && run[j].next[b] == run[i].next[b]
    ensures run[i].status[b].Linked? ==> run[j].status[b].Linked?
    ensures run[j].kv[b].value.0 in run[j].bound && run[j].bound[run[j].kv[b].value.0] == b
    decreases j
  {
    RunInv(p, run, sched, i);
    RunInv(p, run, sched, j);
    assert BucketOk(p, run[i], run[i].status[b].slot, run[i].status[b].rank);
    if i < j {
      ReachableForever(p, run, sched, i, j - 1, b);
      RunStep(p, run, sched, j - 1);
      assert BucketOk(p, run[j], run[j].status[b].slot, run[j].status[b].rank);
    }
  }

  /** Thread t's call of findOrConstruct for `key` returns (iterator, true) in this step. */
  ghost predicate ReturnsTrue(s: State, t: Tid, s': State, key: Key) {
    && t in s.threads && t in s'.threads
    && s'.threads[t].Return? && s'.threads[t].inserted && s'.threads[t].key == key
    && s.threads[t] != s'.threads[t]
  }

  lemma WinnerLinks(p: Params, s: State, t: Tid, s': State, key: Key)
    requires Inv(p, s) && Step(p, s, t, s') && ReturnsTrue(s, t, s', key)
    ensures key in s.bound ==> s.bound[key] < p.numSlots && !s.status[s.bound[key]].Linked?
    ensures Shape(p, s') && key in s'.bound && s'.bound[key] < p.numSlots && s'.status[s'.bound[key]].Linked?
  {
    assert ThreadOk(p, s, t, s.threads[t]);
    if s.threads[t].CasHead? { CasMeansAbsent(p, s, t); }
  }

  /** In any run at most one call per key returns true. */
  lemma OneWinnerPerKey(p: Params, run: seq<State>, sched: seq<Tid>, i: nat, j: nat, key: Key)
    requires Run(p, run, sched) && i < |sched| && j < |sched|
    requires ReturnsTrue(run[i], sched[i], run[i + 1], key)
    requires ReturnsTrue(run[j], sched[j], run[j + 1], key)
    ensures i == j
  {
    if i < j { LaterLoses(p, run, sched, i, j, key); }
    if j < i { LaterLoses(p, run, sched, j, i, key); }
  }

  lemma LaterLoses(p: Params, run: seq<State>, sched: seq<Tid>, i: nat, j: nat, key: Key)
    requires Run(p, run, sched) && i < j < |sched|
    requires ReturnsTrue(run[i], sched[i], run[i + 1], key)
    ensures !ReturnsTrue(run[j], sched[j], run[j + 1], key)
  {
    WinnerStaysLinked(p, run, sched, i, j, key);
    LinkedNoWinner(p, run, sched, j, key);
  }

  lemma WinnerStaysLinked(p: Params, run: seq<State>, sched: seq<Tid>, i: nat, j: nat, key: Key)
    requires Run(p, run, sched) && i < j < |run|
    requires ReturnsTrue(run[i], sched[i], run[i + 1], key)
    ensures key in run[j].bound && run[j].bound[key] < |run[j].status| && run[j].status[run[j].bound[key]].Linked?
  {
    WinAt(p, run, sched, i, key);
    ReachableForever(p, run, sched, i + 1, j, run[i + 1].bound[key]);
  }

  lemma WinAt(p: Params, run: seq<State>, sched: seq<Tid>, i: nat, key: Key)
    requires Run(p, run, sched) && i < |sched|
    requires ReturnsTrue(run[i], sched[i], run[i + 1], key)
    ensures Shape(p, run[i + 1]) && key in run[i + 1].bound && run[i + 1].bound[key] < p.numSlots
    ensures var b := run[i + 1].bound[key];
      run[i + 1].status[b].Linked? && run[i + 1].kv[b].Some? && run[i + 1].kv[b].value.0 == key
  {
    RunInv(p, run, sched, i);
    assert Follows(p, run, sched, i);
    WinnerLinks(p, run[i], sched[i], run[i + 1], key);
    RunInv(p, run, sched, i + 1);
    BoundKey(p, run[i + 1], key);
  }

  lemma BoundKey(p: Params, s: State, key: Key)
    requires Inv(p, s) && key in s.bound
    ensures s.bound[key] < p.numSlots && s.status[s.bound[key]].Reachable()
    ensures s.kv[s.bound[key]].Some? && s.kv[s.bound[key]].value.0 == key
  {
  }

  lemma LinkedNoWinner(p: Params, run: seq<State>, sched: seq<Tid>, j: nat, key: Key)
    requires Run(p, run, sched) && j < |sched| && key in run[j].bound
    requires run[j].bound[key] < |run[j].status| && run[j].status[run[j].bound[key]].Linked?
    ensures !ReturnsTrue(run[j], sched[j], run[j + 1], key)
  {
    RunInv(p, run, sched, j);
    assert Follows(p, run, sched, j);
    if ReturnsTrue(run[j], sched[j], run[j + 1], key) {
      WinnerLinks(p, run[j], sched[j], run[j + 1], key);
    }
  }

  /** A head load by t, inside its current call, at which the abstract map answered `truth`. */
  ghost predicate LoadedHead(run: seq<State>, sched: seq<Tid>, t: Tid, key: Key, truth: Option<nat>, i: nat, j: nat)
    requires j < |run| == |sched| + 1
  {
    && i < j && sched[i] == t
    && t in run[i].threads && run[i].threads[t].FindHead? && run[i].threads[t].key == key
    && AbsLookup(run[i], key) == truth
    && forall m | i < m <= j ::
         t in run[m].threads && !run[m].threads[t].Idle? && !run[m].threads[t].LoadPrev? && !run[m].threads[t].FindHead?
  }

  ghost predicate HasTruth(pc: Pc) {
    pc.Walk? || pc.Destroy? || pc.Release? || (pc.Return? && !pc.inserted)
  }

  lemma StepMoves(p: Params, s: State, u: Tid, s': State)
    requires p.numSlots >= 1 && |s.words| == |s.chains| == |s.status| == p.numSlots && Step(p, s, u, s')
    ensures Moved(s, u, s')
  {
  }

  lemma TruthStep(p: Params, s: State, u: Tid, s': State, t: Tid)
    requires p.numSlots >= 1 && |s.words| == |s.chains| == |s.status| == p.numSlots && Step(p, s, u, s')
    requires t in s'.threads && HasTruth(s'.threads[t])
    ensures t in s.threads
    ensures (u == t && s.threads[t].FindHead? && s.threads[t].key == s'.threads[t].key
             && AbsLookup(s, s'.threads[t].key) == s'.threads[t].truth)
         || (HasTruth(s.threads[t]) && s.threads[t].key == s'.threads[t].key
             && s.threads[t].truth == s'.threads[t].truth)
  {
    StepMoves(p, s, u, s');
  }

  /** Every recorded answer comes from a head load of the same call. */
  lemma {:induction false} TruthHasOrigin(p: Params, run: seq<State>, sched: seq<Tid>, t: Tid, j: nat) returns (i: nat)
    requires Run(p, run, sched) && j < |run|
    requires t in run[j].threads && HasTruth(run[j].threads[t])
    ensures LoadedHead(run, sched, t, run[j].threads[t].key, run[j].threads[t].truth, i, j)
  {
    assert Follows(p, run, sched, j - 1);
    TruthStep(p, run[j - 1], sched[j - 1], run[j], t);
    if sched[j - 1] == t && run[j - 1].threads[t].FindHead? {
      i := j - 1;
    } else {
      i := TruthHasOrigin(p, run, sched, t, j - 1);
    }
  }

  /**
   * Linearizability of every call that does not insert: its result is the abstract map's answer at
   * a head load made during the call.
   */
  lemma FindLinearizes(p: Params, run: seq<State>, sched: seq<Tid>, t: Tid, j: nat) returns (i: nat)
    requires Run(p, run, sched) && j < |run|
    requires t in run[j].threads && run[j].threads[t].Return? && !run[j].threads[t].inserted
    ensures i < j
    ensures var pc := run[j].threads[t];
      && LoadedHead(run, sched, t, pc.key, AbsLookup(run[i], pc.key), i, j)
      && pc.bucket == (if pc.key in run[i].bound then run[i].bound[pc.key] else 0)
      && (pc.bucket != 0 ==>
            pc.bucket < |run[j].kv| && run[j].kv[pc.bucket].Some? && run[j].kv[pc.bucket].value.0 == pc.key)
  {
    i := TruthHasOrigin(p, run, sched, t, j);
    RunInv(p, run, sched, j);
    assert ThreadOk(p, run[j], t, run[j].threads[t]);
  }

  // ---------------------------------------------------------------- calls that insert

  /** Step k of the run is the compare-and-swap by which thread sched[k] binds the key, absent until then. */
  ghost predicate BindsAt(run: seq<State>, sched: seq<Tid>, k: nat, key: Key, b: nat)
    requires k < |sched| && |run| == |sched| + 1
  {
    && sched[k] in run[k].threads && run[k].threads[sched[k]].CasHead?
    && run[k].threads[sched[k]].key == key && run[k].threads[sched[k]].idx == b
    && key !in run[k].bound && run[k + 1].bound == run[k].bound[key := b]
  }

  /** The call has bound its key to the bucket and will return true, or has done so. */
  ghost predicate Won(pc: Pc, key: Key, b: nat) {
    (pc.MarkLinked? && pc.key == key && pc.idx == b) || (pc.Return? && pc.inserted && pc.key == key && pc.bucket == b)
  }

  lemma BoundStep(p: Params, s: State, t: Tid, s': State)
    requires Inv(p, s) && Step(p, s, t, s')
    ensures s'.bound == s.bound
         || (&& s.threads[t].CasHead? && s.threads[t].key !in s.bound && t in s'.threads
             && s'.bound == s.bound[s.threads[t].key := s.threads[t].idx]
             && Won(s'.threads[t], s.threads[t].key, s.threads[t].idx))
  {
    if DoCasHead(p, s, t, s') && s.words[SlotOf(p, s.threads[t].key)] == s.threads[t].prev { CasMeansAbsent(p, s, t); }
  }

  /** The abstract map changes at no step but the compare-and-swap of an inserting call. */
  lemma OnlyCasBinds(p: Params, run: seq<State>, sched: seq<Tid>, k: nat)
    requires Run(p, run, sched) && k < |sched|
    ensures run[k + 1].bound == run[k].bound || exists key, b :: BindsAt(run, sched, k, key, b)
  {
    RunInv(p, run, sched, k);
    assert Follows(p, run, sched, k);
    BoundStep(p, run[k], sched[k], run[k + 1]);
    if run[k + 1].bound != run[k].bound {
      var pc := run[k].threads[sched[k]];
      assert BindsAt(run, sched, k, pc.key, pc.idx);
    }
  }

  lemma WonStep(p: Params, s: State, u: Tid, s': State, t: Tid, key: Key, b: nat)
    requires p.numSlots >= 1 && |s.words| == |s.chains| == |s.status| == p.numSlots && Step(p, s, u, s')
    requires t in s'.threads && Won(s'.threads[t], key, b)
    ensures t in s.threads
    ensures Won(s.threads[t], key, b)
         || (u == t && s.threads[t].CasHead? && s.threads[t].key == key && s.threads[t].idx == b
             && s'.bound == s.bound[key := b]
             && s.words[SlotOf(p, key)] == s.threads[t].prev)
  {
    StepMoves(p, s, u, s');
  }

  /**
   * Linearizability of every call that inserts: it takes effect at a compare-and-swap of the same
   * call, where the key was absent and becomes bound to the bucket that the call returns.
   */
  lemma {:induction false} InsertLinearizes(p: Params, run: seq<State>, sched: seq<Tid>, t: Tid, j: nat,
                                            key: Key, b: nat)
    returns (k: nat)
    requires Run(p, run, sched) && j < |run| && t in run[j].threads && Won(run[j].threads[t], key, b)
    ensures k < j && sched[k] == t && BindsAt(run, sched, k, key, b)
    ensures forall m | k < m <= j :: t in run[m].threads && Won(run[m].threads[t], key, b)
  {
    WonBefore(p, run, sched, t, j, key, b);
    if t in run[j - 1].threads && Won(run[j - 1].threads[t], key, b) {
      k := InsertLinearizes(p, run, sched, t, j - 1, key, b);
    } else {
      k := j - 1;
    }
  }

  lemma WonBefore(p: Params, run: seq<State>, sched: seq<Tid>, t: Tid, j: nat, key: Key, b: nat)
    requires Run(p, run, sched) && j < |run| && t in run[j].threads && Won(run[j].threads[t], key, b)
    ensures j > 0
    ensures (t in run[j - 1].threads && Won(run[j - 1].threads[t], key, b))
      || (sched[j - 1] == t && BindsAt(run, sched, j - 1, key, b))
  {
    assert Follows(p, run, sched, j - 1);
    WonStep(p, run[j - 1], sched[j - 1], run[j], t, key, b);
    if !Won(run[j - 1].threads[t], key, b) {
      RunInv(p, run, sched, j - 1);
      CasMeansAbsent(p, run[j - 1], t);
    }
  }

  /** Bindings are never changed or lost. */
  lemma {:induction false} BoundForever(p: Params, run: seq<State>, sched: seq<Tid>, i: nat, j: nat, key: Key)
    requires Run(p, run, sched) && i <= j < |run| && key in run[i].bound
    ensures key in run[j].bound && run[j].bound[key] == run[i].bound[key]
    decreases j
  {
    if i < j {
      BoundForever(p, run, sched, i, j - 1, key);
      RunStep(p, run, sched, j - 1);
    }
  }

  lemma BoundBefore(p: Params, run: seq<State>, sched: seq<Tid>, j: nat, key: Key)
    requires Run(p, run, sched) && j < |run| && key in run[j].bound
    ensures j > 0
    ensures if key in run[j - 1].bound then run[j].bound[key] == run[j - 1].bound[key]
      else BoundAt(run, sched, j - 1, key, run[j].bound[key])
  {
    RunInv(p, run, sched, j - 1);
    assert Follows(p, run, sched, j - 1);
    BoundStep(p, run[j - 1], sched[j - 1], run[j]);
  }

  /** Step k binds the key and leaves its call a winner. */
  ghost predicate BoundAt(run: seq<State>, sched: seq<Tid>, k: nat, key: Key, b: nat)
    requires k < |sched| && |run| == |sched| + 1
  {
    BindsAt(run, sched, k, key, b) && sched[k] in run[k + 1].threads && Won(run[k + 1].threads[sched[k]], key, b)
  }

  lemma {:induction false} BoundByCas(p: Params, run: seq<State>, sched: seq<Tid>, j: nat, key: Key) returns (k: nat)
    requires Run(p, run, sched) && j < |run| && key in run[j].bound
    ensures k < j && BoundAt(run, sched, k, key, run[j].bound[key])
  {
    BoundBefore(p, run, sched, j, key);
    if key in run[j - 1].bound {
      k := BoundByCas(p, run, sched, j - 1, key);
    } else {
      k := j - 1;
    }
  }

  /** The winner's call for the key has returned true between steps k and j, or is about to at j. */
  ghost predicate Settles(run: seq<State>, sched: seq<Tid>, t: Tid, k: nat, j: nat, key: Key, b: nat)
    requires k <= j < |run| == |sched| + 1
  {
    || (t in run[j].threads && run[j].threads[t] == MarkLinked(key, b))
    || exists m | k <= m < j :: sched[m] == t && ReturnsTrue(run[m], t, run[m + 1], key)
  }

  lemma MarkLinkedStep(p: Params, s: State, u: Tid, s': State, t: Tid)
    requires p.numSlots >= 1 && |s.words| == |s.chains| == |s.status| == p.numSlots && Step(p, s, u, s')
    requires t in s.threads && s.threads[t].MarkLinked?
    ensures t in s'.threads
    ensures if u == t then ReturnsTrue(s, t, s', s.threads[t].key) else s'.threads[t] == s.threads[t]
  {
    StepMoves(p, s, u, s');
  }

  lemma {:induction false} WinnerSettles(p: Params, run: seq<State>, sched: seq<Tid>, k: nat, j: nat, key: Key, b: nat)
    requires Run(p, run, sched) && k < j < |run| && BoundAt(run, sched, k, key, b)
    ensures Settles(run, sched, sched[k], k, j, key, b)
    decreases j
  {
    var t := sched[k];
    if j == k + 1 {
      assert run[k + 1].threads[t].Return? ==> ReturnsTrue(run[k], t, run[k + 1], key);
    } else {
      WinnerSettles(p, run, sched, k, j - 1, key, b);
      if t in run[j - 1].threads && run[j - 1].threads[t] == MarkLinked(key, b) {
        RunInv(p, run, sched, j - 1);
        assert Follows(p, run, sched, j - 1);
        MarkLinkedStep(p, run[j - 1], sched[j - 1], run[j], t);
      }
    }
  }

  /**
   * Every bound key has exactly one winner: one step of one call bound it, and that call has
   * returned true since or stands right before the update that precedes its return.  With
   * OneWinnerPerKey no other call for the key ever returns true.
   */
  lemma ExactlyOneWinner(p: Params, run: seq<State>, sched: seq<Tid>, j: nat, key: Key) returns (k: nat)
    requires Run(p, run, sched) && j < |run| && key in run[j].bound
    ensures k < j && BindsAt(run, sched, k, key, run[j].bound[key])
    ensures forall m, b | 0 <= m < |sched| && BindsAt(run, sched, m, key, b) :: m == k
    ensures Settles(run, sched, sched[k], k, j, key, run[j].bound[key])
  {
    k := BoundByCas(p, run, sched, j, key);
    WinnerSettles(p, run, sched, k, j, key, run[j].bound[key]);
    forall m, b | 0 <= m < |sched| && BindsAt(run, sched, m, key, b) ensures m == k {
      if m < k { BoundForever(p, run, sched, m + 1, k, key); }
      if k < m { BoundForever(p, run, sched, k + 1, m, key); }
    }
  }

  /** The chain walk of a reader is wait-free: whatever the others do, its own steps run down `left`. */
  lemma WalkIsBounded(p: Params, s: State, t: Tid, s': State)
    requires Inv(p, s) && Step(p, s, t, s') && s.threads[t].Walk?
    ensures s'.threads[t].Walk? ==> s'.threads[t].left == s.threads[t].left - 1
  {
    WalkOn(p, s, t);
  }


  /** The bucket reached from the head of `slot` after following next_ n times. */
  ghost function Follow(s: State, slot: nat, n: nat): nat
    requires slot < |s.words|
  {
    if n == 0 then s.words[slot] / 4
    else var b := Follow(s, slot, n - 1); if b < |s.next| then s.next[b] else 0
  }

  lemma {:induction false} FollowIsChain(p: Params, s: State, slot: nat, n: nat)
    requires MemoryOk(p, s) && slot < p.numSlots && n < |s.chains[slot]|
    ensures Follow(s, slot, n) == s.chains[slot][|s.chains[slot]| - 1 - n]
  {
    var c := s.chains[slot];
    if n > 0 {
      FollowIsChain(p, s, slot, n - 1);
      assert BucketOk(p, s, slot, |c| - n);
    }
  }

  /** The walk from the head of the key's slot meets bucket b, and b holds the key. */
  ghost predicate MeetsIn(p: Params, s: State, key: Key, b: nat)
    requires Shape(p, s) && b < p.numSlots
  {
    && s.kv[b].Some? && s.kv[b].value.0 == key
    && exists n: nat :: n < |s.chains[SlotOf(p, key)]| && Follow(s, SlotOf(p, key), n) == b
  }

  /** The walk from the head of the slot meets n different buckets and then 0. */
  ghost predicate WalkEnds(s: State, slot: nat, n: nat)
    requires slot < |s.words|
  {
    && Follow(s, slot, n) == 0
    && forall i, j | 0 <= i < j < n :: Follow(s, slot, i) != Follow(s, slot, j)
  }

  /** Bucket b is constructed and holds a key of the slot. */
  ghost predicate Houses(p: Params, s: State, slot: nat, b: nat)
    requires Shape(p, s)
  {
    0 < b < p.numSlots && s.kv[b].Some? && SlotOf(p, s.kv[b].value.0) == slot
  }

  /** Every bucket on the chain of a slot holds a key of that slot, so no two slots share a bucket. */
  lemma ChainHouses(p: Params, s: State, slot: nat, n: nat)
    requires MemoryOk(p, s) && slot < p.numSlots && n < |s.chains[slot]|
    ensures Houses(p, s, slot, Follow(s, slot, n))
  {
    FollowIsChain(p, s, slot, n);
    assert BucketOk(p, s, slot, |s.chains[slot]| - 1 - n);
  }

  lemma AbstractionAt(p: Params, s: State, key: Key, b: nat)
    requires Inv(p, s) && 0 < b < p.numSlots
    ensures (key in s.bound && s.bound[key] == b) <==> MeetsIn(p, s, key, b)
    ensures forall slot | 0 <= slot < p.numSlots :: WalkEnds(s, slot, |s.chains[slot]|)
  {
    var home := SlotOf(p, key);
    var c := s.chains[home];
    if key in s.bound && s.bound[key] == b {
      BoundInChain(p, s, key);
      var n := |c| - 1 - s.status[b].rank;
      FollowIsChain(p, s, home, n);
    }
    forall n: nat | n < |c| && Follow(s, home, n) == b && s.kv[b].Some? && s.kv[b].value.0 == key
      ensures key in s.bound && s.bound[key] == b
    {
      FollowIsChain(p, s, home, n);
      assert BucketOk(p, s, home, |c| - 1 - n);
    }
    forall slot | 0 <= slot < p.numSlots ensures WalkEnds(s, slot, |s.chains[slot]|) { ChainIsSimple(p, s, slot); }
  }

  /**
   * In every reachable state the memory really holds the abstract map: a key is bound to b exactly
   * when following next_ from the head of its slot meets b and b holds the key; from every head the
   * walk meets no bucket twice and ends at 0; every bucket met holds a key of the slot the walk
   * started from, so the chains of two slots share no bucket.
   */
  lemma AbstractionIsReal(p: Params, run: seq<State>, sched: seq<Tid>, i: nat, key: Key, b: nat)
    requires Run(p, run, sched) && i < |run| && 0 < b < p.numSlots
    ensures Shape(p, run[i])
    ensures (key in run[i].bound && run[i].bound[key] == b) <==> MeetsIn(p, run[i], key, b)
    ensures forall slot | 0 <= slot < p.numSlots :: WalkEnds(run[i], slot, |run[i].chains[slot]|)
    ensures forall slot, n | 0 <= slot < p.numSlots && 0 <= n < |run[i].chains[slot]| ::
      Houses(p, run[i], slot, Follow(run[i], slot, n))
    ensures forall x, y, m, n | 0 <= x < y < p.numSlots && 0 <= m < |run[i].chains[x]| && 0 <= n < |run[i].chains[y]| ::
      Follow(run[i], x, m) != Follow(run[i], y, n)
  {
    var s := run[i];
    RunInv(p, run, sched, i);
    AbstractionAt(p, s, key, b);
    forall slot, n | 0 <= slot < p.numSlots && 0 <= n < |s.chains[slot]|
      ensures Houses(p, s, slot, Follow(s, slot, n))
    {
      ChainHouses(p, s, slot, n);
    }
  }

  lemma ChainIsSimple(p: Params, s: State, slot: nat)
    requires MemoryOk(p, s) && slot < p.numSlots
    ensures WalkEnds(s, slot, |s.chains[slot]|)
  {
    var d := s.chains[slot];
    if |d| > 0 {
      FollowIsChain(p, s, slot, |d| - 1);
      assert BucketOk(p, s, slot, 0);
    }
    forall m, n | 0 <= m < n < |d| ensures Follow(s, slot, m) != Follow(s, slot, n) {
      FollowIsChain(p, s, slot, m);
      FollowIsChain(p, s, slot, n);
      assert BucketOk(p, s, slot, |d| - 1 - m);
      assert BucketOk(p, s, slot, |d| - 1 - n);
    }
  }

  /**
   * The range and state checks written into the steps exclude nothing: every access is in range, a
   * bucket whose key is read is not EMPTY, and stateUpdate finds the state it is told to expect.
   */
  lemma AccessesAreSafe(p: Params, run: seq<State>, sched: seq<Tid>, i: nat, t: Tid)
    requires Run(p, run, sched) && i < |run| && t in run[i].threads
    ensures Shape(p, run[i])
    ensures var pc := run[i].threads[t];
      && (pc.Walk? && pc.cur != 0 ==>
            && pc.cur < p.numSlots && run[i].kv[pc.cur].Some?
            && run[i].words[pc.cur] % 4 != EMPTY)
      && (pc.ClaimSlot? ==> pc.cand < p.numSlots)
      && (pc.Construct? || pc.SetNext? || pc.CasHead? || pc.Destroy? ==> pc.idx < p.numSlots)
      && (pc.MarkLinked? ==> pc.idx < p.numSlots && run[i].status[pc.idx].Reachable())
      && (pc.MarkLinked? || pc.Release? ==> pc.idx < p.numSlots && run[i].words[pc.idx] % 4 == CONSTRUCTING)
  {
    RunInv(p, run, sched, i);
    assert ThreadOk(p, run[i], t, run[i].threads[t]);
    if run[i].threads[t].Walk? && run[i].threads[t].cur != 0 { WalkOn(p, run[i], t); }
  }

  /** The packed words always fit the 32-bit IndexType: two state bits never collide with the index. */
  lemma WordsFit(p: Params, s: State, i: nat)
    requires Inv(p, s) && i < p.numSlots
    ensures s.words[i] < 0x1_0000_0000
  {
    var c := s.chains[i];
    if |c| > 0 { assert BucketOk(p, s, i, |c| - 1); }
  }

  /** `keyToSlotIdx`: masking and then subtracting in a loop is the remainder. */
  method KeyToSlotIdx(p: Params, key: Key) returns (h: nat)
    requires p.numSlots >= 1
    ensures h == SlotOf(p, key)
  {
    h := p.hash(key) % (p.slotMask + 1);
    ghost var masked, turns := h, 0;
    while h >= p.numSlots
      invariant masked == turns * p.numSlots + h
    {
      h := h - p.numSlots;
      turns := turns + 1;
    }
    RemainderIsUnique(turns, p.numSlots, h);
  }

  lemma RemainderIsUnique(q: nat, n: nat, r: nat)
    requires r < n
    ensures (q * n + r) % n == r
  {
    var x := q * n + r;
    var q', r' := x / n, x % n;
    assert x == q' * n + r';
    var k := q - q';
    assert k * n == q * n - q' * n;
    MultipleIsFar(k, n);
  }

  lemma MultipleIsFar(k: int, n: nat)
    ensures k >= 1 ==> k * n >= n
    ensures k <= -1 ==> k * n <= 0 - n
  {
    if k >= 1 { assert k * n == n + (k - 1) * n; }
    if k <= -1 { assert k * n == 0 - n + (k + 1) * n; }
  }
}
