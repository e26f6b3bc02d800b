/** One application thread per node, any number of agents, and a directory that answers each
    request with one set of replies. */
module CacheSingle {
  import opened Options
  import opened CacheState
  import opened CacheSteps
  import opened CacheInv
  import opened CacheProof
  import opened CacheOwnProof
  import opened CacheFindProof
  import opened CacheAppKeeps
  import opened CacheAgentProof
  import opened CacheTheorems

  /** What the directory still owes for a tag. A write miss on a shared line is answered in
      two parts, the data and the aggregated acknowledgement, in either order. */
  datatype Stage = OwesRead | OwesWrite | OwesAck | OwesData | OwesUpgrade | OwesEvict

  /** The node and the directory's debts to it. */
  datatype Node = Node(s: State, owed: map<Tag, Stage>)

  /** The replies that the handlers accept. */
  predicate MayAnswer(g: Stage, m: MsgType) {
    match g
    case OwesRead => m == ReadMissAckData || m == ReadMissDirtyAckData || m == MCheckFail || m == BitmapCheckFail
    case OwesWrite => m == WriteMissAckData || m == WriteMissDirtyAckData || m == WriteMissSharedData
                      || m == WriteMissSharedAggAck || m == MCheckFail || m == BitmapCheckFail
    case OwesAck => m == WriteMissSharedAggAck
    case OwesData => m == WriteMissSharedData
    case OwesUpgrade => m == WriteSharedNotOnlyAggAck || m == WriteSharedOnlyAck || m == MCheckFail || m == BitmapCheckFail
    case OwesEvict => m == EvictSharedAck || m == EvictDirtyAck || m == MCheckFail || m == BitmapCheckFail
  }

  /** What is owed after answer m. */
  function Rest(g: Stage, m: MsgType): Option<Stage> {
    if g == OwesWrite && m == WriteMissSharedData then Some(OwesAck)
    else if g == OwesWrite && m == WriteMissSharedAggAck then Some(OwesData)
    else None
  }

  function StageOf(req: Req, hasData: bool, acked: bool): Stage {
    match req
    case ReadMissReq => OwesRead
    case WriteMissReq => if hasData then OwesAck else if acked then OwesData else OwesWrite
    case WriteSharedReq => OwesUpgrade
  }

  /** The tag of the line whose eviction the thread is in. */
  function EvictTag(s: State, a: App): Tag { At(s.lines, DefaultSlot(a.evict.cur)).tag }

  /** The thread takes a message from its channel in this step. */
  predicate Consumes(a: App, inp: Input) {
    inp.Recv? && ((a.pc.Own? && a.pc.ow.Await?) || (a.pc == Wait(WRecv) && a.evict.stash.None?))
  }

  predicate SendsEvict(pc: Pc) { pc.Evict? && pc.ev.EvSend? }

  predicate SendsRequest(pc: Pc) { pc.Own? && pc.ow.Send? }

  /** The directory's debts after a step of the thread. */
  function Book(s: State, a: App, inp: Input, owed: map<Tag, Stage>): map<Tag, Stage> {
    if SendsRequest(a.pc) then owed[a.t := StageOf(a.pc.req, false, false)]
    else if SendsEvict(a.pc) then owed[EvictTag(s, a) := OwesEvict]
    else if Consumes(a, inp) && inp.msg.tag in owed then
      var r := Rest(owed[inp.msg.tag], inp.msg.mtype);
      if r.Some? then owed[inp.msg.tag := r.value] else owed - {inp.msg.tag}
    else owed
  }

  /** One step of the thread, of an agent, or a delivery by the directory. */
  ghost predicate NodeStep(c: Config, n: Node, ev: Event, n': Node)
    requires c.Valid()
  {
    match ev
    case ByAgent(v, inp) => AgentNext(c, n.s, v, inp, n'.s) && n'.owed == n.owed
    case ByApp(u, inp) =>
      && u == 0 && AppNext(c, n.s, 0, inp, n'.s)
      && (Consumes(n.s.apps[0], inp) ==> inp.msg.tag in n.owed && MayAnswer(n.owed[inp.msg.tag], inp.msg.mtype))
      && n'.owed == Book(n.s, n.s.apps[0], inp, n.owed)
  }

  ghost predicate NodeRun(c: Config, ns: seq<Node>, es: seq<Event>)
    requires c.Valid()
  {
    && |ns| == |es| + 1 && Init(ns[0].s) && ns[0].s.apps.Keys == {0} && ns[0].owed == map[]
    && forall i {:trigger es[i]} :: 0 <= i < |es| ==> NodeStep(c, ns[i], es[i], ns[i + 1])
  }

  // ---- the invariant ------------------------------------------------------------------

  /** The main line that newLine has just made for the thread's tag. */
  predicate Fresh(c: Config, lines: Lines, t: Tag, w: nat) {
    FoundMain(c, lines, t, w) && At(lines, Slot(false, c.home(t), w)).Is(false, Invalid)
  }

  /** The thread has an eviction in hand and will find the line that newLine has made. */
  ghost predicate FindsFresh(c: Config, lines: Lines, a: App) {
    match a.pc
    case Find(fd) => !a.evict.startNext && (
      match fd
      case RLockSet => exists w :: Fresh(c, lines, a.t, w)
      case FindMain(i) => exists w :: i <= w && Fresh(c, lines, a.t, w)
      case FindShadow(_, m) => m.Some? && Fresh(c, lines, a.t, m.value)
      case Decide(m, _) => m.Some? && Fresh(c, lines, a.t, m.value)
      case CasInvalid(w) => Fresh(c, lines, a.t, w)
      case RUnlockSet(_) => false)
    case Evict(_, retry) => !retry ==> exists w :: Fresh(c, lines, a.t, w)
    case New(nw) => nw == WUnlockSet(true) && a.evict.startNext && exists w :: Fresh(c, lines, a.t, w)
    case Tail(dontWait) => if dontWait then a.evict.startNext && exists w :: Fresh(c, lines, a.t, w) else !a.evict.startNext
    case Own(_, _, _) => !a.evict.startNext
    case Touch(_, hit, _) => !hit && !a.evict.startNext
    case Wait(_) => !a.evict.startNext
    case Crash(_) => false
    case Idle => false
  }

  /** The shadow slots in use. */
  function ExpectPend(c: Config, a: App): set<Slot> {
    if a.pc.New? && a.pc.nw.Refill? then {Slot(true, c.home(a.t), a.pc.nw.w)}
    else if a.evict.startNext then {DefaultSlot(a.evict.next)}
    else if a.evict.wait && a.pc != Wait(WUnlock) then {DefaultSlot(a.evict.cur)}
    else {}
  }

  /** The directory owes the answer to the eviction. */
  predicate OwedEvict(a: App) {
    Pending(a) && a.evict.stash.None? && (a.pc.Wait? ==> a.pc.wt.WRecv?)
  }

  predicate OwedMiss(pc: Pc) { pc.Own? && pc.ow.Await? }

  /** The directory's debts are the answer to the request the thread waits on and the answer
      to its eviction, and no others. */
  ghost predicate OwedOk(lines: Lines, a: App, owed: map<Tag, Stage>) {
    var et := At(lines, DefaultSlot(a.evict.cur)).tag;
    && (forall t :: t in owed ==> (OwedMiss(a.pc) && t == a.t) || (OwedEvict(a) && t == et))
    && (OwedMiss(a.pc) ==> a.t in owed && owed[a.t] == StageOf(a.pc.req, a.pc.ow.hasData, a.pc.ow.acked))
    && (OwedEvict(a) ==> et in owed && owed[et] == OwesEvict)
  }

  /** No bad reply, and the thread-local eviction flags as one thread can have them. */
  predicate FlagsOk(a: App) {
    && a.pc != Crash(BadReply) && (a.pc.Own? ==> !a.pc.ow.Stuck?)
    && (a.evict.wait && a.evict.startNext ==> a.pc == Evict(EvStart, true) && a.evict.next == a.evict.cur)
    && (a.evict.startNext && a.pc.Evict? ==> a.pc.ev.EvStart?)
    && ((a.pc.Evict? && !a.pc.retry) || a.pc.Find? || a.pc.New? || a.pc.Own? || (a.evict.startNext && !a.pc.Evict?) ==> !a.succ)
    && (a.pc.Own? && a.pc.ow.Await? ==>
          !(a.pc.ow.hasData && a.pc.ow.acked) && (a.pc.req != WriteMissReq ==> !a.pc.ow.hasData && !a.pc.ow.acked))
  }

  predicate StashOk(lines: Lines, a: App) {
    a.evict.stash.Some? ==>
      Pending(a) && (a.pc.Wait? ==> a.pc.wt.WRecv?)
      && a.evict.stash.value.tag == At(lines, DefaultSlot(a.evict.cur)).tag && MayAnswer(OwesEvict, a.evict.stash.value.mtype)
  }

  ghost predicate FreshOk(c: Config, lines: Lines, a: App) {
    a.evict.wait || a.evict.startNext ==> FindsFresh(c, lines, a)
  }

  predicate PendOk(c: Config, a: App) { a.pool.pend == ExpectPend(c, a) }

  ghost predicate ThreadOk(c: Config, lines: Lines, a: App) {
    FlagsOk(a) && StashOk(lines, a) && FreshOk(c, lines, a) && PendOk(c, a)
  }

  ghost predicate MovingOk(c: Config, locks: Locks, a: App) {
    forall h :: LockOf(locks, h).moving.Some? ==> Debt(a.pc) && h == c.home(a.t)
  }

  ghost predicate NodeOk(c: Config, n: Node)
    requires c.Valid()
  {
    && Inv(c, n.s) && n.s.apps.Keys == {0}
    && ThreadOk(c, n.s.lines, n.s.apps[0]) && MovingOk(c, n.s.locks, n.s.apps[0])
    && OwedOk(n.s.lines, n.s.apps[0], n.owed)
  }

  /** The line being evicted holds another tag than the line the thread owns. */
  lemma TagsDiffer(c: Config, s: State, a: App)
    requires c.Valid() && Inv(c, s) && 0 in s.apps && s.apps[0] == a && MovingOk(c, s.locks, a)
    requires a.pc.Own? && Pending(a)
    ensures EvictTag(s, a) != a.t
  {
    assert AppOk(c, s.lines, s.locks, 0, a);
    var p, q := a.pc.p, DefaultSlot(a.evict.cur);
    assert LineOk(c, q, At(s.lines, q));
    assert Live(s.locks, p, At(s.lines, p)) && Live(s.locks, q, At(s.lines, q));
  }

  // ---- steps of the agents -----------------------------------------------------------------

  lemma AgentKeepsFresh(c: Config, s: State, v: nat, e: Effect, t: Tag, w: nat)
    requires EffectOk(s, AgentId(v), e) && Fresh(c, s.lines, t, w)
    ensures Fresh(c, Apply(s, e).lines, t, w)
  {
  }

  lemma AgentKeepsThread(c: Config, s: State, v: nat, e: Effect, a: App)
    requires EffectOk(s, AgentId(v), e) && ThreadOk(c, s.lines, a)
    ensures ThreadOk(c, Apply(s, e).lines, a)
    ensures EvictTag(Apply(s, e), a) == EvictTag(s, a)
  {
    forall w | Fresh(c, s.lines, a.t, w) ensures Fresh(c, Apply(s, e).lines, a.t, w) {
      AgentKeepsFresh(c, s, v, e, a.t, w);
    }
  }

  lemma AgentNode(c: Config, n: Node, v: nat, inp: Input, n': Node)
    requires c.Valid() && NodeOk(c, n) && NodeStep(c, n, ByAgent(v, inp), n')
    ensures NodeOk(c, n')
  {
    AgentKeeps(c, n.s, v, inp, n'.s);
    var AgentMoves(g', e) := AgentMove(c, n.s, v, n.s.agents[v], inp);
    AgentStepGood(c, n.s, v, n.s.agents[v], inp, g', e);
    AgentKeepsThread(c, n.s, v, e, n.s.apps[0]);
    forall h ensures LockOf(n'.s.locks, h).moving == LockOf(n.s.locks, h).moving {}
  }

  // ---- steps of the thread ---------------------------------------------------------------------

  /** The step leaves the line of the eviction its tag, and delivers only what is owed. */
  ghost predicate Delivered(a: App, inp: Input, owed: map<Tag, Stage>) {
    Consumes(a, inp) ==> inp.msg.tag in owed && MayAnswer(owed[inp.msg.tag], inp.msg.mtype)
  }

  lemma TouchFlags(c: Config, s: State, a: App, a': App, e: Effect)
    requires c.Valid() && FlagsOk(a) && StashOk(s.lines, a) && FreshOk(c, s.lines, a) && PendOk(c, a)
    requires a.pc.Touch? && TouchStep(s, 0, a) == Moves(a', e)
    ensures FlagsOk(a') && PendOk(c, a') && StashOk(Apply(s, e).lines, a')
  {
  }

  lemma TouchFresh(c: Config, s: State, a: App, a': App, e: Effect)
    requires c.Valid() && FreshOk(c, s.lines, a) && a.pc.Touch? && TouchStep(s, 0, a) == Moves(a', e)
    ensures FreshOk(c, Apply(s, e).lines, a') && e.lk.None? && !Debt(a'.pc)
  {
  }

  lemma TouchOwed(c: Config, s: State, a: App, inp: Input, a': App, e: Effect, owed: map<Tag, Stage>)
    requires c.Valid() && a.pc.Touch? && TouchStep(s, 0, a) == Moves(a', e)
    requires FreshOk(c, s.lines, a) && OwedOk(s.lines, a, owed)
    ensures OwedOk(Apply(s, e).lines, a', Book(s, a, inp, owed))
  {
  }

  lemma TailFlags(c: Config, s: State, a: App, inp: Input, a': App, e: Effect)
    requires c.Valid() && ThreadOk(c, s.lines, a)
    requires (a.pc.Tail? || a.pc.Idle?) && AppMove(c, s, 0, a, inp) == Moves(a', e)
    ensures ThreadOk(c, s.lines, a') && e == NOTHING
  {
  }

  lemma TailOwed(c: Config, s: State, a: App, inp: Input, a': App, e: Effect, owed: map<Tag, Stage>)
    requires c.Valid() && FreshOk(c, s.lines, a) && OwedOk(s.lines, a, owed)
    requires (a.pc.Tail? || a.pc.Idle?) && AppMove(c, s, 0, a, inp) == Moves(a', e)
    ensures OwedOk(s.lines, a', Book(s, a, inp, owed))
  {
  }

  lemma EvictFlags(c: Config, s: State, a: App, a': App, e: Effect)
    requires c.Valid() && FlagsOk(a) && StashOk(s.lines, a) && PendOk(c, a)
    requires EvOk(s.lines, 0, a) && a.pc.Evict? && EvictStep(s, 0, a) == Moves(a', e)
    ensures FlagsOk(a') && PendOk(c, a') && StashOk(Apply(s, e).lines, a')
  {
  }

  lemma EvictFresh(c: Config, s: State, a: App, a': App, e: Effect)
    requires c.Valid() && FreshOk(c, s.lines, a) && EvOk(s.lines, 0, a) && a.pc.Evict? && EvictStep(s, 0, a) == Moves(a', e)
    ensures FreshOk(c, Apply(s, e).lines, a') && e.lk.None? && !Debt(a'.pc)
  {
    forall w | Fresh(c, s.lines, a.t, w) ensures Fresh(c, Apply(s, e).lines, a.t, w) {
      assert e.wr.Some? ==> e.wr.value.0 == DefaultSlot(a.evict.cur);
    }
  }

  lemma EvictOwed(c: Config, s: State, a: App, inp: Input, a': App, e: Effect, owed: map<Tag, Stage>)
    requires c.Valid() && OwedOk(s.lines, a, owed) && EvOk(s.lines, 0, a) && StashOk(s.lines, a) && FlagsOk(a)
    requires a.pc.Evict? && EvictStep(s, 0, a) == Moves(a', e)
    ensures OwedOk(Apply(s, e).lines, a', Book(s, a, inp, owed))
  {
  }

  lemma WaitFlags(c: Config, s: State, a: App, inp: Input, a': App, e: Effect, owed: map<Tag, Stage>)
    requires c.Valid() && FlagsOk(a) && StashOk(s.lines, a) && FreshOk(c, s.lines, a) && PendOk(c, a) && EvOk(s.lines, 0, a)
    requires OwedOk(s.lines, a, owed) && Delivered(a, inp, owed)
    requires a.pc.Wait? && WaitStep(s, 0, a, inp) == Moves(a', e)
    ensures FlagsOk(a') && PendOk(c, a') && StashOk(Apply(s, e).lines, a')
  {
  }

  lemma WaitFresh(c: Config, s: State, a: App, inp: Input, a': App, e: Effect)
    requires c.Valid() && FreshOk(c, s.lines, a) && EvOk(s.lines, 0, a) && a.pc.Wait? && WaitStep(s, 0, a, inp) == Moves(a', e)
    requires a'.pc != Crash(BadReply)
    ensures FreshOk(c, Apply(s, e).lines, a') && e.lk.None? && !Debt(a'.pc)
  {
  }

  lemma WaitOwed(c: Config, s: State, a: App, inp: Input, a': App, e: Effect, owed: map<Tag, Stage>)
    requires c.Valid() && OwedOk(s.lines, a, owed) && Delivered(a, inp, owed) && EvOk(s.lines, 0, a) && StashOk(s.lines, a)
    requires a.pc.Wait? && WaitStep(s, 0, a, inp) == Moves(a', e)
    ensures OwedOk(Apply(s, e).lines, a', Book(s, a, inp, owed))
  {
  }

  lemma NewFlags(c: Config, s: State, a: App, a': App, e: Effect)
    requires c.Valid() && ThreadOk(c, s.lines, a)
    requires a.pc.New? && NewStep(c, s, 0, a) == Moves(a', e)
    ensures FlagsOk(a') && PendOk(c, a') && StashOk(Apply(s, e).lines, a')
  {
  }

  lemma NewFresh(c: Config, s: State, a: App, a': App, e: Effect)
    requires c.Valid() && FreshOk(c, s.lines, a) && PcOk(c, s.lines, 0, a)
    requires a.pc.New? && NewStep(c, s, 0, a) == Moves(a', e)
    ensures FreshOk(c, Apply(s, e).lines, a')
  {
    if a.pc.nw.Refill? && a'.pc.New? { assert Fresh(c, Apply(s, e).lines, a.t, a.pc.nw.w); }
  }

  lemma NewMoving(c: Config, s: State, a: App, a': App, e: Effect)
    requires c.Valid() && MovingOk(c, s.locks, a) && a.pc.New? && NewStep(c, s, 0, a) == Moves(a', e)
    ensures MovingOk(c, Apply(s, e).locks, a')
  {
    forall h | LockOf(Apply(s, e).locks, h).moving.Some? ensures Debt(a'.pc) && h == c.home(a'.t) {
      assert LockOf(s.locks, h).moving.Some? ==> Debt(a.pc) && h == c.home(a.t);
    }
  }

  lemma NewOwed(c: Config, s: State, a: App, inp: Input, a': App, e: Effect, owed: map<Tag, Stage>)
    requires c.Valid() && OwedOk(s.lines, a, owed) && FreshOk(c, s.lines, a) && FlagsOk(a)
    requires a.pc.New? && NewStep(c, s, 0, a) == Moves(a', e)
    ensures OwedOk(Apply(s, e).lines, a', Book(s, a, inp, owed))
  {
  }

  lemma OwnFlags(c: Config, s: State, a: App, inp: Input, a': App, e: Effect, owed: map<Tag, Stage>)
    requires c.Valid() && FlagsOk(a) && StashOk(s.lines, a) && PendOk(c, a) && FreshOk(c, s.lines, a)
    requires OwedOk(s.lines, a, owed) && Delivered(a, inp, owed)
    requires a.pc.Own? && OwnOk(s.lines, 0, a.t, a.pc.p, a.pc.req, a.pc.ow)
    requires Pending(a) ==> EvictTag(s, a) != a.t
    requires OwnStepAt(c, s, 0, a, inp, a', e)
    ensures FlagsOk(a') && PendOk(c, a') && StashOk(Apply(s, e).lines, a')
  {
  }

  lemma OwnFresh(c: Config, s: State, a: App, inp: Input, a': App, e: Effect)
    requires c.Valid() && FreshOk(c, s.lines, a) && OwnStepAt(c, s, 0, a, inp, a', e)
    ensures FreshOk(c, Apply(s, e).lines, a') && !Debt(a'.pc)
    ensures forall h :: LockOf(Apply(s, e).locks, h).moving == LockOf(s.locks, h).moving
  {
  }

  lemma AwaitOwed(c: Config, s: State, a: App, inp: Input, a': App, e: Effect, owed: map<Tag, Stage>)
    requires c.Valid() && OwedOk(s.lines, a, owed) && Delivered(a, inp, owed) && FlagsOk(a)
    requires a.pc.Own? && a.pc.ow.Await? && (Pending(a) ==> EvictTag(s, a) != a.t)
    requires OwnStepAt(c, s, 0, a, inp, a', e)
    ensures OwedOk(s.lines, a', Book(s, a, inp, owed)) && e == NOTHING
  {
  }

  lemma OwnOwed(c: Config, s: State, a: App, inp: Input, a': App, e: Effect, owed: map<Tag, Stage>)
    requires c.Valid() && OwedOk(s.lines, a, owed) && Delivered(a, inp, owed) && FlagsOk(a)
    requires a.pc.Own? && OwnOk(s.lines, 0, a.t, a.pc.p, a.pc.req, a.pc.ow)
    requires Pending(a) ==> EvictTag(s, a) != a.t
    requires OwnStepAt(c, s, 0, a, inp, a', e)
    ensures OwedOk(Apply(s, e).lines, a', Book(s, a, inp, owed))
  {
    if a.pc.ow.Await? { AwaitOwed(c, s, a, inp, a', e, owed); }
  }

  lemma FindFlags(c: Config, s: State, a: App, a': App, e: Effect)
    requires c.Valid() && FlagsOk(a) && StashOk(s.lines, a) && PendOk(c, a) && FreshOk(c, s.lines, a)
    requires a.pc.Find? && FindOk(c, s.lines, a.t, a.pc.fd) && FindStep(c, s, 0, a) == Moves(a', e)
    ensures FlagsOk(a') && PendOk(c, a') && StashOk(Apply(s, e).lines, a')
  {
  }

  ghost predicate OneMain(lines: Lines, h: nat, t: Tag) {
    forall w, w' :: At(lines, Slot(false, h, w)).Holds(t) && At(lines, Slot(false, h, w')).Holds(t) ==> w == w'
  }

  lemma LookFresh(c: Config, s: State, a: App, a': App, e: Effect)
    requires c.Valid() && FreshOk(c, s.lines, a) && a.pc.Find? && (a.pc.fd.FindMain? || a.pc.fd.FindShadow?)
    requires FindStep(c, s, 0, a) == Moves(a', e) && OneMain(s.lines, c.home(a.t), a.t)
    requires FindOk(c, s.lines, a'.t, if a'.pc.Find? then a'.pc.fd else RLockSet)
    ensures FreshOk(c, s.lines, a') && e == NOTHING && !Debt(a'.pc)
  {
  }

  lemma FindFresh(c: Config, s: State, a: App, a': App, e: Effect)
    requires c.Valid() && FreshOk(c, s.lines, a) && a.pc.Find? && !a.pc.fd.FindMain? && !a.pc.fd.FindShadow?
    requires FindOk(c, s.lines, a.t, a.pc.fd) && FindStep(c, s, 0, a) == Moves(a', e)
    ensures FreshOk(c, Apply(s, e).lines, a') && !Debt(a'.pc)
    ensures forall h :: LockOf(Apply(s, e).locks, h).moving == LockOf(s.locks, h).moving
  {
  }

  lemma FindOwed(c: Config, s: State, a: App, inp: Input, a': App, e: Effect, owed: map<Tag, Stage>)
    requires c.Valid() && OwedOk(s.lines, a, owed) && FreshOk(c, s.lines, a)
    requires a.pc.Find? && FindOk(c, s.lines, a.t, a.pc.fd) && FindStep(c, s, 0, a) == Moves(a', e)
    ensures OwedOk(Apply(s, e).lines, a', Book(s, a, inp, owed))
  {
  }

  // ---- the whole step ---------------------------------------------------------------------------

  lemma SameMoving(c: Config, s: State, a: App, a': App, e: Effect)
    requires MovingOk(c, s.locks, a) && !Debt(a.pc)
    requires forall h :: LockOf(Apply(s, e).locks, h).moving == LockOf(s.locks, h).moving
    ensures MovingOk(c, Apply(s, e).locks, a')
  {
    forall h ensures LockOf(Apply(s, e).locks, h).moving.None? {
      assert LockOf(s.locks, h).moving.None?;
    }
  }

  /** The thread's part of the invariant after its step. */
  ghost predicate Kept1(c: Config, s: State, a: App, inp: Input, a': App, e: Effect, owed: map<Tag, Stage>) {
    && ThreadOk(c, Apply(s, e).lines, a') && MovingOk(c, Apply(s, e).locks, a')
    && OwedOk(Apply(s, e).lines, a', Book(s, a, inp, owed))
  }

  lemma FindKept1(c: Config, s: State, a: App, inp: Input, a': App, e: Effect, owed: map<Tag, Stage>)
    requires c.Valid() && ThreadOk(c, s.lines, a) && MovingOk(c, s.locks, a) && OwedOk(s.lines, a, owed)
    requires a.pc.Find? && FindOk(c, s.lines, a.t, a.pc.fd) && FindStep(c, s, 0, a) == Moves(a', e)
    requires HoldsRead(a.pc) ==> OneMain(s.lines, c.home(a.t), a.t)
    requires PcOk(c, Apply(s, e).lines, 0, a')
    ensures Kept1(c, s, a, inp, a', e, owed)
  {
    FindFlags(c, s, a, a', e);
    FindOwed(c, s, a, inp, a', e, owed);
    if a.pc.fd.FindMain? || a.pc.fd.FindShadow? { LookFresh(c, s, a, a', e); } else { FindFresh(c, s, a, a', e); }
    SameMoving(c, s, a, a', e);
  }

  lemma OneMainHeld(c: Config, s: State, a: App)
    requires c.Valid() && LinesInv(c, s) && LocksInv(s) && Unique(s.lines, s.locks)
    requires AppId(0) in LockOf(s.locks, c.home(a.t)).rw.readers
    ensures OneMain(s.lines, c.home(a.t), a.t)
  {
    forall w, w' | At(s.lines, Slot(false, c.home(a.t), w)).Holds(a.t) && At(s.lines, Slot(false, c.home(a.t), w')).Holds(a.t)
      ensures w == w'
    {
      OnlyOne(c, s, AppId(0), a.t, Slot(false, c.home(a.t), w));
    }
  }

  /** What the thread's step may start from. */
  ghost predicate From(c: Config, s: State, a: App, inp: Input, owed: map<Tag, Stage>)
    requires c.Valid()
  {
    && PcOk(c, s.lines, 0, a) && EvOk(s.lines, 0, a)
    && ThreadOk(c, s.lines, a) && MovingOk(c, s.locks, a) && OwedOk(s.lines, a, owed) && Delivered(a, inp, owed)
  }

  lemma TailKept1(c: Config, s: State, a: App, inp: Input, a': App, e: Effect, owed: map<Tag, Stage>)
    requires c.Valid() && From(c, s, a, inp, owed) && (a.pc.Tail? || a.pc.Idle?) && AppMove(c, s, 0, a, inp) == Moves(a', e)
    ensures Kept1(c, s, a, inp, a', e, owed)
  {
    TailFlags(c, s, a, inp, a', e);
    TailOwed(c, s, a, inp, a', e, owed);
    SameMoving(c, s, a, a', e);
  }

  lemma EvictKept1(c: Config, s: State, a: App, inp: Input, a': App, e: Effect, owed: map<Tag, Stage>)
    requires c.Valid() && From(c, s, a, inp, owed) && a.pc.Evict? && EvictStep(s, 0, a) == Moves(a', e)
    ensures Kept1(c, s, a, inp, a', e, owed)
  {
    EvictFlags(c, s, a, a', e);
    EvictFresh(c, s, a, a', e);
    EvictOwed(c, s, a, inp, a', e, owed);
    SameMoving(c, s, a, a', e);
  }

  lemma NewKept1(c: Config, s: State, a: App, inp: Input, a': App, e: Effect, owed: map<Tag, Stage>)
    requires c.Valid() && From(c, s, a, inp, owed) && a.pc.New? && NewStep(c, s, 0, a) == Moves(a', e)
    ensures Kept1(c, s, a, inp, a', e, owed)
  {
    NewFlags(c, s, a, a', e);
    NewFresh(c, s, a, a', e);
    NewMoving(c, s, a, a', e);
    NewOwed(c, s, a, inp, a', e, owed);
  }

  lemma OwnKept1(c: Config, s: State, a: App, inp: Input, a': App, e: Effect, owed: map<Tag, Stage>)
    requires c.Valid() && From(c, s, a, inp, owed) && OwnStepAt(c, s, 0, a, inp, a', e)
    requires Pending(a) ==> EvictTag(s, a) != a.t
    ensures Kept1(c, s, a, inp, a', e, owed)
  {
    OwnFlags(c, s, a, inp, a', e, owed);
    OwnFresh(c, s, a, inp, a', e);
    OwnOwed(c, s, a, inp, a', e, owed);
    SameMoving(c, s, a, a', e);
  }

  lemma TouchKept1(c: Config, s: State, a: App, inp: Input, a': App, e: Effect, owed: map<Tag, Stage>)
    requires c.Valid() && From(c, s, a, inp, owed) && a.pc.Touch? && TouchStep(s, 0, a) == Moves(a', e)
    ensures Kept1(c, s, a, inp, a', e, owed)
  {
    TouchFlags(c, s, a, a', e);
    TouchFresh(c, s, a, a', e);
    TouchOwed(c, s, a, inp, a', e, owed);
    SameMoving(c, s, a, a', e);
  }

  lemma WaitKept1(c: Config, s: State, a: App, inp: Input, a': App, e: Effect, owed: map<Tag, Stage>)
    requires c.Valid() && From(c, s, a, inp, owed) && a.pc.Wait? && WaitStep(s, 0, a, inp) == Moves(a', e)
    ensures Kept1(c, s, a, inp, a', e, owed)
  {
    WaitFlags(c, s, a, inp, a', e, owed);
    WaitFresh(c, s, a, inp, a', e);
    WaitOwed(c, s, a, inp, a', e, owed);
    SameMoving(c, s, a, a', e);
  }

  lemma ThreadKept(c: Config, s: State, a: App, inp: Input, a': App, e: Effect, owed: map<Tag, Stage>)
    requires c.Valid() && From(c, s, a, inp, owed) && AppMove(c, s, 0, a, inp) == Moves(a', e)
    requires a.pc.Find? && HoldsRead(a.pc) ==> OneMain(s.lines, c.home(a.t), a.t)
    requires a.pc.Own? && Pending(a) ==> EvictTag(s, a) != a.t
    requires PcOk(c, Apply(s, e).lines, 0, a')
    ensures Kept1(c, s, a, inp, a', e, owed)
  {
    match a.pc
    case Evict(_, _) => EvictKept1(c, s, a, inp, a', e, owed);
    case Find(_) => FindKept1(c, s, a, inp, a', e, owed);
    case New(_) => NewKept1(c, s, a, inp, a', e, owed);
    case Own(_, _, _) => OwnKept1(c, s, a, inp, a', e, owed);
    case Touch(_, _, _) => TouchKept1(c, s, a, inp, a', e, owed);
    case Wait(_) => WaitKept1(c, s, a, inp, a', e, owed);
    case _ => TailKept1(c, s, a, inp, a', e, owed);
  }

  lemma Facts1(c: Config, s: State, a: App)
    requires c.Valid() && Inv(c, s) && 0 in s.apps && s.apps[0] == a && MovingOk(c, s.locks, a)
    ensures PcOk(c, s.lines, 0, a) && EvOk(s.lines, 0, a)
    ensures a.pc.Find? && HoldsRead(a.pc) ==> OneMain(s.lines, c.home(a.t), a.t)
    ensures a.pc.Own? && Pending(a) ==> EvictTag(s, a) != a.t
  {
    assert AppOk(c, s.lines, s.locks, 0, a);
    if a.pc.Own? && Pending(a) { TagsDiffer(c, s, a); }
    if a.pc.Find? && HoldsRead(a.pc) { OneMainHeld(c, s, a); }
  }

  lemma AppThread(c: Config, n: Node, inp: Input, a': App, e: Effect)
    requires c.Valid() && NodeOk(c, n) && Delivered(n.s.apps[0], inp, n.owed)
    requires AppMove(c, n.s, 0, n.s.apps[0], inp) == Moves(a', e) && PcOk(c, Apply(n.s, e).lines, 0, a')
    ensures Kept1(c, n.s, n.s.apps[0], inp, a', e, n.owed)
  {
    Facts1(c, n.s, n.s.apps[0]);
    ThreadKept(c, n.s, n.s.apps[0], inp, a', e, n.owed);
  }

  lemma AppNode(c: Config, n: Node, inp: Input, n': Node)
    requires c.Valid() && NodeOk(c, n) && NodeStep(c, n, ByApp(0, inp), n')
    ensures NodeOk(c, n')
  {
    AppKept(c, n.s, 0, inp, n'.s);
    AppKeeps(c, n.s, 0, inp, n'.s);
    var r := AppMove(c, n.s, 0, n.s.apps[0], inp);
    AppThread(c, n, inp, r.a, r.e);
  }

  lemma NodeStepOk(c: Config, n: Node, ev: Event, n': Node)
    requires c.Valid() && NodeOk(c, n) && NodeStep(c, n, ev, n')
    ensures NodeOk(c, n')
  {
    match ev
    case ByApp(_, inp) => AppNode(c, n, inp, n');
    case ByAgent(v, inp) => AgentNode(c, n, v, inp, n');
  }

  lemma NodeInitOk(c: Config, n: Node)
    requires c.Valid() && Init(n.s) && n.s.apps.Keys == {0} && n.owed == map[]
    ensures NodeOk(c, n)
  {
    InitInv(c, n.s);
    assert forall h :: LockOf(n.s.locks, h).moving.None?;
  }

  lemma NodeAdvance(c: Config, ns: seq<Node>, es: seq<Event>, i: nat)
    requires c.Valid() && NodeRun(c, ns, es) && i < |es| && NodeOk(c, ns[i])
    ensures NodeOk(c, ns[i + 1])
  {
    NodeStepOk(c, ns[i], es[i], ns[i + 1]);
  }

  lemma {:induction false} Chain<S(!new)>(P: S -> bool, ss: seq<S>, i: nat)
    requires i < |ss| && P(ss[0]) && forall k :: 0 <= k < |ss| - 1 && P(ss[k]) ==> P(ss[k + 1])
    ensures P(ss[i])
  {
    if i > 0 { Chain(P, ss, i - 1); }
  }

  lemma NodeRunOk(c: Config, ns: seq<Node>, es: seq<Event>, i: nat)
    requires c.Valid() && NodeRun(c, ns, es) && i <= |es|
    ensures NodeOk(c, ns[i])
  {
    var P := n => c.Valid() && NodeOk(c, n);
    NodeInitOk(c, ns[0]);
    forall k | 0 <= k < |es| && P(ns[k]) ensures P(ns[k + 1]) { NodeAdvance(c, ns, es, k); }
    Chain(P, ns, i);
  }

  // ---- what follows -------------------------------------------------------------------------------

  lemma PendingOnly(c: Config, n: Node, p: Slot)
    requires c.Valid() && NodeOk(c, n) && p.shadow && At(n.s.lines, p).Used()
    ensures p in n.s.apps[0].pool.pend
  {
    assert LineOk(c, p, At(n.s.lines, p)) && OwnerOk(n.s.apps, p, At(n.s.lines, p));
  }

  /** Every reply the directory may send is one that the handlers accept. */
  lemma NoBadReply(c: Config, ns: seq<Node>, es: seq<Event>, i: nat)
    requires c.Valid() && NodeRun(c, ns, es) && i <= |es|
    ensures 0 in ns[i].s.apps
    ensures var pc := ns[i].s.apps[0].pc; pc != Crash(BadReply) && (pc.Own? ==> !pc.ow.Stuck?)
  {
    NodeRunOk(c, ns, es, i);
  }

  /** At most one shadow slot is in use. */
  lemma OneEvictionPending(c: Config, ns: seq<Node>, es: seq<Event>, i: nat, p: Slot, q: Slot)
    requires c.Valid() && NodeRun(c, ns, es) && i <= |es| && 0 in ns[i].s.apps
    requires p.shadow && q.shadow && At(ns[i].s.lines, p).Used() && At(ns[i].s.lines, q).Used()
    ensures p == q
  {
    NodeRunOk(c, ns, es, i);
    PendingOnly(c, ns[i], p);
    PendingOnly(c, ns[i], q);
  }

  /** While a request and an eviction are both outstanding they are for different tags. */
  lemma PendingTagDiffers(c: Config, ns: seq<Node>, es: seq<Event>, i: nat)
    requires c.Valid() && NodeRun(c, ns, es) && i <= |es| && 0 in ns[i].s.apps
    requires ns[i].s.apps[0].pc.Own? && Pending(ns[i].s.apps[0])
    ensures EvictTag(ns[i].s, ns[i].s.apps[0]) != ns[i].s.apps[0].t
  {
    NodeRunOk(c, ns, es, i);
    Facts1(c, ns[i].s, ns[i].s.apps[0]);
  }

  /** When readLine or writeLine has returned, every shadow slot is PRESERVED, no eviction is
      in hand, no reply is stashed and the directory owes nothing. */
  lemma NothingLeftOver(c: Config, ns: seq<Node>, es: seq<Event>, i: nat)
    requires c.Valid() && NodeRun(c, ns, es) && i <= |es| && 0 in ns[i].s.apps && ns[i].s.apps[0].pc == Idle
    ensures ns[i].owed == map[] && ns[i].s.apps[0].evict.stash == None
    ensures !ns[i].s.apps[0].evict.wait && !ns[i].s.apps[0].evict.startNext
    ensures forall p: Slot :: p.shadow ==> At(ns[i].s.lines, p).st == Preserved
  {
    NodeRunOk(c, ns, es, i);
    forall p: Slot | p.shadow ensures At(ns[i].s.lines, p).st == Preserved {
      if At(ns[i].s.lines, p).Used() { PendingOnly(c, ns[i], p); }
    }
  }

  lemma StashesOnce(c: Config, s: State, a: App, inp: Input, owed: map<Tag, Stage>)
    requires c.Valid() && a.pc.Own? && a.pc.ow.Await? && inp.Recv? && inp.msg.tag != a.t
    requires OwedOk(s.lines, a, owed) && inp.msg.tag in owed
    ensures a.evict.stash == None && inp.msg.tag == EvictTag(s, a)
    ensures var r := OwnStep(c, s, 0, a, inp); r.Moves? && r.a.evict.stash == Some(inp.msg)
    ensures Rest(owed[inp.msg.tag], inp.msg.mtype).None?
  {
  }

  /** The answer to an eviction that arrives while the thread waits for another request is
      stashed over nothing, and from then on the directory owes no other. */
  lemma StashedOnce(c: Config, ns: seq<Node>, es: seq<Event>, i: nat)
    requires c.Valid() && NodeRun(c, ns, es) && i < |es| && es[i].ByApp? && 0 in ns[i].s.apps
    requires Consumes(ns[i].s.apps[0], es[i].inp) && ns[i].s.apps[0].pc.Own? && es[i].inp.msg.tag != ns[i].s.apps[0].t
    ensures ns[i].s.apps[0].evict.stash == None && es[i].inp.msg.tag == EvictTag(ns[i].s, ns[i].s.apps[0])
    ensures 0 in ns[i + 1].s.apps && ns[i + 1].s.apps[0].evict.stash == Some(es[i].inp.msg)
    ensures ns[i + 1].owed == ns[i].owed - {es[i].inp.msg.tag}
  {
    NodeRunOk(c, ns, es, i);
    assert NodeStep(c, ns[i], es[i], ns[i + 1]);
    StashesOnce(c, ns[i].s, ns[i].s.apps[0], es[i].inp, ns[i].owed);
  }
}
