/** What the cache guarantees in every run: any number of application threads and agents,
    any interleaving, any messages from the directory. */
module CacheTheorems {
  import opened Options
  import opened CacheState
  import opened CacheSteps
  import opened CacheInv
  import opened CacheProof
  import opened CacheOwnProof
  import opened CacheAppKeeps
  import opened CacheBufProof
  import opened CacheAgentProof

  /** Which thread moves, and what the environment gives it. */
  datatype Event = ByApp(u: nat, inp: Input) | ByAgent(v: nat, inp: Input)

  ghost predicate Step(c: Config, s: State, ev: Event, s': State)
    requires c.Valid()
  {
    match ev
    case ByApp(u, inp) => AppNext(c, s, u, inp, s')
    case ByAgent(v, inp) => AgentNext(c, s, v, inp, s')
  }

  /** The state that initLine leaves: every line PRESERVED and without a buffer, every lock
      free, every buffer on one stack, no thread inside the cache. */
  ghost predicate Init(s: State) {
    && (forall p :: At(s.lines, p).st == Preserved && !At(s.lines, p).flag && At(s.lines, p).data.None? && At(s.lines, p).owner.None?)
    && (forall p :: At(s.lines, p).lock == FREE)
    && (forall h :: LockOf(s.locks, h) == SetLock(FREE, None))
    && (forall u :: u in s.apps ==>
          s.apps[u].pc == Idle && s.apps[u].evict == Eviction(false, None, false, None, false, None)
          && s.apps[u].pool == Pool(s.apps[u].pool.stack, {}, {}, |s.apps[u].pool.stack|))
    && (forall v :: v in s.agents ==> s.agents[v].pc == AIdle)
    && s.revoked == {} && s.downgraded == {} && BufOk(s)
  }

  /** A run: ss[i] steps to ss[i+1] by es[i]. */
  ghost predicate Run(c: Config, ss: seq<State>, es: seq<Event>)
    requires c.Valid()
  {
    && |ss| == |es| + 1 && Init(ss[0])
    && forall i {:trigger es[i]} :: 0 <= i < |es| ==> Step(c, ss[i], es[i], ss[i + 1])
  }

  lemma InitInv(c: Config, s: State)
    requires c.Valid() && Init(s)
    ensures Inv(c, s)
  {
  }

  /** The invariant holds in every state of every run. */
  lemma {:induction false} RunInv(c: Config, ss: seq<State>, es: seq<Event>, i: nat)
    requires c.Valid() && Run(c, ss, es) && i <= |es|
    ensures Inv(c, ss[i])
  {
    if i == 0 {
      InitInv(c, ss[0]);
    } else {
      RunInv(c, ss, es, i - 1);
      StepInv(c, ss[i - 1], es[i - 1], ss[i]);
    }
  }

  lemma StepInv(c: Config, s: State, ev: Event, s': State)
    requires c.Valid() && Inv(c, s) && Step(c, s, ev, s')
    ensures Inv(c, s')
  {
    match ev
    case ByApp(u, inp) => AppKeeps(c, s, u, inp, s');
    case ByAgent(v, inp) => AgentKeeps(c, s, v, inp, s');
  }

  // ---- never found twice ---------------------------------------------------------

  /** The asserts in readLine, writeLine and findLineForAgent that a tag is not found in
      both a main and a shadow slot never fail. */
  lemma NeverBothFound(c: Config, ss: seq<State>, es: seq<Event>, i: nat)
    requires c.Valid() && Run(c, ss, es) && i <= |es|
    ensures forall u :: u in ss[i].apps ==> ss[i].apps[u].pc != Crash(BothFound)
    ensures forall v :: v in ss[i].agents ==> ss[i].agents[v].pc != ACrash(BothFound)
  {
    RunInv(c, ss, es, i);
    forall u | u in ss[i].apps ensures ss[i].apps[u].pc != Crash(BothFound) {
      assert AppOk(c, ss[i].lines, ss[i].locks, u, ss[i].apps[u]);
    }
    forall v | v in ss[i].agents ensures ss[i].agents[v].pc != ACrash(BothFound) {
      assert AgentOk(c, ss[i].lines, ss[i].locks, v, ss[i].agents[v]);
    }
  }

  // ---- no invalidation or downgrade is lost ---------------------------------------

  /** In this step agent v finishes message m: it leaves the handler for m, or finds that
      the node has no line for m. */
  ghost predicate Finishes(c: Config, s: State, ev: Event, s': State, m: AgentMsg)
    requires c.Valid()
  {
    ev.ByAgent? && ev.v in s.agents && ev.v in s'.agents
    && s.agents[ev.v].msg == m && s.agents[ev.v].pc != AUnlock && s'.agents[ev.v].pc == AUnlock
  }

  /** In this step an application thread sends request req for tag t. */
  ghost predicate Sends(s: State, ev: Event, t: Tag, req: Req) {
    ev.ByApp? && ev.u in s.apps && s.apps[ev.u].t == t
    && s.apps[ev.u].pc.Own? && s.apps[ev.u].pc.ow.Send? && s.apps[ev.u].pc.req == req
  }

  /** What one step does to the history of tag t. */
  ghost predicate Marks(c: Config, s: State, ev: Event, s': State, t: Tag)
    requires c.Valid()
  {
    && (forall m :: Finishes(c, s, ev, s', m) && m.tag == t && IsWrite(m.mtype) ==> t in s'.revoked)
    && (forall m :: Finishes(c, s, ev, s', m) && m.tag == t && m.mtype == ReadMissDirty ==> t in s'.downgraded)
    && (t in s.revoked && !Sends(s, ev, t, ReadMissReq) && !Sends(s, ev, t, WriteMissReq) ==> t in s'.revoked)
    && (t in s.downgraded && !Sends(s, ev, t, WriteSharedReq) && !Sends(s, ev, t, WriteMissReq) ==> t in s'.downgraded)
  }

  lemma StepMarks(c: Config, s: State, ev: Event, s': State, t: Tag)
    requires c.Valid() && Step(c, s, ev, s')
    ensures Marks(c, s, ev, s', t)
  {
    match ev
    case ByApp(u, inp) => AppAsks(c, s, u, s.apps[u], inp);
    case ByAgent(v, inp) => AgentFinishes(c, s, v, s.agents[v], inp);
  }

  lemma RunMarks(c: Config, ss: seq<State>, es: seq<Event>, t: Tag)
    requires c.Valid() && Run(c, ss, es)
    ensures forall k :: 0 <= k < |es| ==> Marks(c, ss[k], es[k], ss[k + 1], t)
  {
    forall k | 0 <= k < |es| ensures Marks(c, ss[k], es[k], ss[k + 1], t) {
      StepMarks(c, ss[k], es[k], ss[k + 1], t);
    }
  }

  lemma AppAsks(c: Config, s: State, u: nat, a: App, inp: Input)
    requires c.Valid() && AppMove(c, s, u, a, inp).Moves?
    ensures var e := AppMove(c, s, u, a, inp).e;
            && (e.asked != {} ==> a.pc.Own? && a.pc.ow.Send? && a.pc.req != WriteSharedReq && e.asked == {a.t})
            && (e.askedWrite != {} ==> a.pc.Own? && a.pc.ow.Send? && a.pc.req != ReadMissReq && e.askedWrite == {a.t})
  {
    match a.pc
    case Own(_, _, ow) => { match ow case Send => case _ => }
    case Evict(ev, _) => { match ev case _ => }
    case Find(fd) => { match fd case _ => }
    case New(nw) => { match nw case _ => }
    case Touch(_, _, ln) => { match ln case _ => }
    case Wait(wt) => { match wt case _ => }
    case _ =>
  }

  lemma AgentFinishes(c: Config, s: State, v: nat, g: Agent, inp: Input)
    requires c.Valid() && AgentMove(c, s, v, g, inp).AgentMoves?
    ensures var r := AgentMove(c, s, v, g, inp);
            && r.ge.asked == {} && r.ge.askedWrite == {}
            && (g.pc != AUnlock && r.g.pc == AUnlock ==>
                  (IsWrite(g.msg.mtype) ==> g.msg.tag in r.ge.revoke)
                  && (g.msg.mtype == ReadMissDirty ==> g.msg.tag in r.ge.downgrade))
  {
  }

  lemma {:induction false} StaysRevoked(c: Config, ss: seq<State>, es: seq<Event>, i: nat, j: nat, m: AgentMsg)
    requires c.Valid() && i < j <= |es| && |ss| == |es| + 1
    requires forall k :: 0 <= k < |es| ==> Marks(c, ss[k], es[k], ss[k + 1], m.tag)
    requires Finishes(c, ss[i], es[i], ss[i + 1], m) && IsWrite(m.mtype)
    requires forall k :: i < k < j ==> !Sends(ss[k], es[k], m.tag, ReadMissReq) && !Sends(ss[k], es[k], m.tag, WriteMissReq)
    ensures m.tag in ss[j].revoked
  {
    assert Marks(c, ss[j - 1], es[j - 1], ss[j - 1 + 1], m.tag);
    if i < j - 1 {
      StaysRevoked(c, ss, es, i, j - 1, m);
    }
  }

  /** Once an agent has finished a WRITE_* message for t, no line of the node that holds t is
      SHARED or MODIFIED until the node has sent a miss for t. */
  lemma NoLostInvalidation(c: Config, ss: seq<State>, es: seq<Event>, i: nat, j: nat, m: AgentMsg, p: Slot)
    requires c.Valid() && Run(c, ss, es) && i < j <= |es|
    requires Finishes(c, ss[i], es[i], ss[i + 1], m) && IsWrite(m.mtype)
    requires forall k :: i < k < j ==> !Sends(ss[k], es[k], m.tag, ReadMissReq) && !Sends(ss[k], es[k], m.tag, WriteMissReq)
    ensures At(ss[j].lines, p).Holds(m.tag) ==> At(ss[j].lines, p).st != Shared && At(ss[j].lines, p).st != Modified
  {
    RunMarks(c, ss, es, m.tag);
    StaysRevoked(c, ss, es, i, j, m);
    RunInv(c, ss, es, j);
    assert HistOk(ss[j].apps, ss[j].revoked, ss[j].downgraded, p, At(ss[j].lines, p));
  }

  lemma {:induction false} StaysDowngraded(c: Config, ss: seq<State>, es: seq<Event>, i: nat, j: nat, m: AgentMsg)
    requires c.Valid() && i < j <= |es| && |ss| == |es| + 1
    requires forall k :: 0 <= k < |es| ==> Marks(c, ss[k], es[k], ss[k + 1], m.tag)
    requires Finishes(c, ss[i], es[i], ss[i + 1], m) && m.mtype == ReadMissDirty
    requires forall k :: i < k < j ==> !Sends(ss[k], es[k], m.tag, WriteSharedReq) && !Sends(ss[k], es[k], m.tag, WriteMissReq)
    ensures m.tag in ss[j].downgraded
  {
    assert Marks(c, ss[j - 1], es[j - 1], ss[j - 1 + 1], m.tag);
    if i < j - 1 {
      StaysDowngraded(c, ss, es, i, j - 1, m);
    }
  }

  /** Once an agent has finished a READ_MISS_DIRTY message for t, no line of the node that
      holds t is MODIFIED until the node has sent a write request for t. */
  lemma NoLostDowngrade(c: Config, ss: seq<State>, es: seq<Event>, i: nat, j: nat, m: AgentMsg, p: Slot)
    requires c.Valid() && Run(c, ss, es) && i < j <= |es|
    requires Finishes(c, ss[i], es[i], ss[i + 1], m) && m.mtype == ReadMissDirty
    requires forall k :: i < k < j ==> !Sends(ss[k], es[k], m.tag, WriteSharedReq) && !Sends(ss[k], es[k], m.tag, WriteMissReq)
    ensures At(ss[j].lines, p).Holds(m.tag) ==> At(ss[j].lines, p).st != Modified
  {
    RunMarks(c, ss, es, m.tag);
    StaysDowngraded(c, ss, es, i, j, m);
    RunInv(c, ss, es, j);
    assert HistOk(ss[j].apps, ss[j].revoked, ss[j].downgraded, p, At(ss[j].lines, p));
  }

  // ---- ownership of a line in transition --------------------------------------------

  predicate InTransition(l: Line) { l.st == ToShared || l.st == ToModified }

  /** A main line in TO_SHARED or TO_MODIFIED has exactly one owning thread, which works on
      that line's tag; every other line state has none. */
  lemma OneOwner(c: Config, ss: seq<State>, es: seq<Event>, i: nat, p: Slot)
    requires c.Valid() && Run(c, ss, es) && i <= |es| && !p.shadow
    ensures InTransition(At(ss[i].lines, p)) <==> exists u :: u in ss[i].apps && Owning(ss[i].apps[u].pc, p)
    ensures forall u, v :: u in ss[i].apps && v in ss[i].apps && Owning(ss[i].apps[u].pc, p) && Owning(ss[i].apps[v].pc, p) ==>
              u == v && ss[i].apps[u].t == At(ss[i].lines, p).tag
  {
    var s := ss[i];
    RunInv(c, ss, es, i);
    assert LineOk(c, p, At(s.lines, p)) && OwnerOk(s.apps, p, At(s.lines, p));
    forall u | u in s.apps && Owning(s.apps[u].pc, p)
      ensures At(s.lines, p).owner == Some(u) && InTransition(At(s.lines, p)) && s.apps[u].t == At(s.lines, p).tag
    {
      assert AppOk(c, s.lines, s.locks, u, s.apps[u]);
    }
    if InTransition(At(s.lines, p)) {
      var u := At(s.lines, p).owner.value;
      assert u in s.apps && Owning(s.apps[u].pc, p);
    }
  }

  /** The compare-and-swap by which the owner of a main line takes it out of transition. */
  predicate OwnerExits(s: State, ev: Event, p: Slot, l: Line, l': Line) {
    && ev.ByApp? && ev.u in s.apps && l.owner == Some(ev.u) && Owning(s.apps[ev.u].pc, p)
    && (s.apps[ev.u].pc.ow.Exit1? || s.apps[ev.u].pc.ow.Exit2?)
    && l' == l.(flag := false, st := l'.st, owner := None) && l'.Stable() && (l.flag ==> l'.st == Invalid)
  }

  predicate OnlyFlagged(ev: Event, l: Line, l': Line) {
    l'.st == l.st && l'.tag == l.tag && l'.data == l.data && l'.owner == l.owner
    && (l.flag ==> l'.flag) && (l'.flag && !l.flag ==> ev.ByAgent?)
  }

  lemma OwnExits(c: Config, s: State, u: nat, a: App, inp: Input, a': App, e: Effect)
    requires c.Valid() && OwnStepAt(c, s, u, a, inp, a', e) && u in s.apps && s.apps[u] == a
    requires At(s.lines, a.pc.p).owner == Some(u) && InTransition(At(s.lines, a.pc.p))
    requires e.wr.Some?
    ensures OwnerExits(s, ByApp(u, inp), a.pc.p, At(s.lines, a.pc.p), At(Apply(s, e).lines, a.pc.p))
  {
  }

  lemma OwnedUnderApp(c: Config, s: State, u: nat, a: App, inp: Input, a': App, e: Effect, p: Slot)
    requires c.Valid() && OwnsOnly(s, u, a) && (a.pc.Own? ==> OwnStepAt(c, s, u, a, inp, a', e)) && EffectOk(s, AppId(u), e)
    requires !p.shadow && InTransition(At(s.lines, p)) && LineOk(c, p, At(s.lines, p))
    ensures var l, l' := At(s.lines, p), At(Apply(s, e).lines, p);
            OnlyFlagged(ByApp(u, inp), l, l') || OwnerExits(s, ByApp(u, inp), p, l, l')
  {
    if e.wr.Some? && At(s.lines, p).owner == Some(u) {
      assert Owning(a.pc, p);
      OwnExits(c, s, u, a, inp, a', e);
    }
  }

  lemma OwnedApp(c: Config, s: State, u: nat, inp: Input, s': State, p: Slot)
    requires c.Valid() && Inv(c, s) && AppNext(c, s, u, inp, s')
    requires !p.shadow && InTransition(At(s.lines, p)) && LineOk(c, p, At(s.lines, p))
    ensures var l, l' := At(s.lines, p), At(s'.lines, p);
            OnlyFlagged(ByApp(u, inp), l, l') || OwnerExits(s, ByApp(u, inp), p, l, l')
  {
    AppKept(c, s, u, inp, s');
    var r := AppMove(c, s, u, s.apps[u], inp);
    OwnedUnderApp(c, s, u, s.apps[u], inp, r.a, r.e, p);
  }

  lemma OwnedAgent(c: Config, s: State, v: nat, inp: Input, s': State, p: Slot)
    requires c.Valid() && Inv(c, s) && AgentNext(c, s, v, inp, s')
    requires !p.shadow && InTransition(At(s.lines, p)) && LineOk(c, p, At(s.lines, p))
    ensures OnlyFlagged(ByAgent(v, inp), At(s.lines, p), At(s'.lines, p))
  {
    var AgentMoves(g', e) := AgentMove(c, s, v, s.agents[v], inp);
    AgentStepGood(c, s, v, s.agents[v], inp, g', e);
  }

  /** While a main line is in transition its tag, buffer and status stay: a step leaves them
      (an agent may raise the flag), or is the exit compare-and-swap of the owner. In
      particular the line is never re-tagged or evicted. */
  lemma OwnedLineStays(c: Config, ss: seq<State>, es: seq<Event>, i: nat, p: Slot)
    requires c.Valid() && Run(c, ss, es) && i < |es| && !p.shadow && InTransition(At(ss[i].lines, p))
    ensures var l, l' := At(ss[i].lines, p), At(ss[i + 1].lines, p);
            OnlyFlagged(es[i], l, l') || OwnerExits(ss[i], es[i], p, l, l')
  {
    RunInv(c, ss, es, i);
    assert Step(c, ss[i], es[i], ss[i + 1]);
    assert LineOk(c, p, At(ss[i].lines, p));
    match es[i]
    case ByApp(u, inp) => OwnedApp(c, ss[i], u, inp, ss[i + 1], p);
    case ByAgent(v, inp) => OwnedAgent(c, ss[i], v, inp, ss[i + 1], p);
  }

  lemma SecondPass(c: Config, s: State, u: nat, a: App, inp: Input)
    requires c.Valid() && a.pc.Own? && a.pc.ow.Exit1? && OwnOk(s.lines, u, a.t, a.pc.p, a.pc.req, a.pc.ow)
    requires a.pc.ow.pass == 1
    ensures OwnStep(c, s, u, a, inp).Moves? && OwnStep(c, s, u, a, inp).a.pc == Tail(false)
  {
  }

  /** The exit loop of an owner ends within two passes: it never starts a third, and on the
      second its first compare-and-swap succeeds whatever the agents do. */
  lemma ExitInTwoPasses(c: Config, ss: seq<State>, es: seq<Event>, i: nat, u: nat, inp: Input)
    requires c.Valid() && Run(c, ss, es) && i <= |es| && u in ss[i].apps
    requires ss[i].apps[u].pc.Own? && (ss[i].apps[u].pc.ow.Exit1? || ss[i].apps[u].pc.ow.Exit2?)
    ensures ss[i].apps[u].pc.ow.pass <= 1
    ensures ss[i].apps[u].pc.ow.pass == 1 ==>
              ss[i].apps[u].pc.ow.Exit1? && OwnStep(c, ss[i], u, ss[i].apps[u], inp).Moves?
              && OwnStep(c, ss[i], u, ss[i].apps[u], inp).a.pc == Tail(false)
  {
    RunInv(c, ss, es, i);
    var a := ss[i].apps[u];
    assert AppOk(c, ss[i].lines, ss[i].locks, u, a);
    if a.pc.ow.pass == 1 { SecondPass(c, ss[i], u, a, inp); }
  }

  // ---- buffers --------------------------------------------------------------------

  /** The buffers, the threads and what each thread started with. */
  ghost predicate SameHolders(s: State, s': State) {
    && s'.loc.Keys == s.loc.Keys && s'.apps.Keys == s.apps.Keys
    && forall u :: u in s.apps ==> s'.apps[u].pool.quota == s.apps[u].pool.quota
  }

  lemma AppStock(c: Config, s: State, u: nat, inp: Input, s': State)
    requires c.Valid() && Inv(c, s) && AppNext(c, s, u, inp, s')
    ensures SameHolders(s, s')
  {
    AppKept(c, s, u, inp, s');
  }

  lemma AgentStock(c: Config, s: State, v: nat, inp: Input, s': State)
    requires c.Valid() && Inv(c, s) && AgentNext(c, s, v, inp, s')
    ensures SameHolders(s, s')
  {
    var AgentMoves(g', e) := AgentMove(c, s, v, s.agents[v], inp);
    AgentStepGood(c, s, v, s.agents[v], inp, g', e);
  }

  lemma StepStock(c: Config, s: State, ev: Event, s': State)
    requires c.Valid() && Inv(c, s) && Step(c, s, ev, s')
    ensures SameHolders(s, s')
  {
    match ev
    case ByApp(u, inp) => AppStock(c, s, u, inp, s');
    case ByAgent(v, inp) => AgentStock(c, s, v, inp, s');
  }

  lemma {:induction false} RunStock(c: Config, ss: seq<State>, es: seq<Event>, i: nat)
    requires c.Valid() && Run(c, ss, es) && i <= |es|
    ensures ss[i].loc.Keys == ss[0].loc.Keys && ss[i].apps.Keys == ss[0].apps.Keys
    ensures forall u :: u in ss[0].apps ==> ss[i].apps[u].pool.quota == |ss[0].apps[u].pool.stack|
  {
    if i > 0 {
      RunStock(c, ss, es, i - 1);
      RunInv(c, ss, es, i - 1);
      StepStock(c, ss[i - 1], es[i - 1], ss[i - 1 + 1]);
    }
  }

  /** Buffer b is on a stack at the start of the run. */
  ghost predicate Dealt(s: State, b: Buf) {
    exists u, k :: u in s.apps && 0 <= k < |s.apps[u].pool.stack| && s.apps[u].pool.stack[k] == b
  }

  /** A buffer that initLine dealt out always has exactly one place, not counting a main line that
      newLine has copied and not yet rewritten. */
  lemma PlacedOnce(c: Config, ss: seq<State>, es: seq<Event>, i: nat, b: Buf)
    requires c.Valid() && Run(c, ss, es) && i <= |es| && Dealt(ss[0], b)
    ensures exists z :: Content(ss[i], z) == Some(b)
    ensures forall z, z' :: Content(ss[i], z) == Some(b) && Content(ss[i], z') == Some(b) ==> z == z'
  {
    var u, k :| u in ss[0].apps && 0 <= k < |ss[0].apps[u].pool.stack| && ss[0].apps[u].pool.stack[k] == b;
    assert Content(ss[0], InStack(u, k)) == Some(b);
    RunStock(c, ss, es, i);
    RunInv(c, ss, es, i);
    assert b in ss[i].loc && Content(ss[i], ss[i].loc[b]) == Some(b);
  }

  /** One set's slots of one kind, and all slots of one kind. */
  function Row(h: nat, width: nat, shadow: bool): (r: set<Slot>)
    ensures |r| == width
    ensures forall p :: p in r <==> p.shadow == shadow && p.set_ == h && p.way < width
  {
    if width == 0 then {} else Row(h, width - 1, shadow) + {Slot(shadow, h, width - 1)}
  }

  function Grid(depth: nat, width: nat, shadow: bool): (r: set<Slot>)
    ensures |r| == depth * width
    ensures forall p :: p in r <==> p.shadow == shadow && p.set_ < depth && p.way < width
  {
    if depth == 0 then {} else
      assert Grid(depth - 1, width, shadow) !! Row(depth - 1, width, shadow);
      Grid(depth - 1, width, shadow) + Row(depth - 1, width, shadow)
  }

  lemma SubsetCount<T>(a: set<T>, b: set<T>)
    requires a <= b
    ensures |a| <= |b|
  {
    assert b == a + (b - a);
  }

  /** The thread has a buffer to pop wherever newLine pops one. */
  lemma EnoughBuffers(c: Config, lines: Lines, u: nat, a: App)
    requires SetsOk(c, lines, u, a) && PcOk(c, lines, u, a) && a.pool.quota >= 2 * (c.depth * c.width)
    ensures a.pc.New? && (a.pc.nw.Fill? || a.pc.nw.Refill?) ==> |a.pool.stack| >= 1
  {
    SubsetCount(a.pool.fills, Grid(c.depth, c.width, false));
    SubsetCount(a.pool.pend, Grid(c.depth, c.width, true));
  }

  /** A thread whose stack starts with at least twice as many buffers as there are main slots
      never pops an empty stack. */
  lemma NeverEmptyPop(c: Config, ss: seq<State>, es: seq<Event>, i: nat, u: nat)
    requires c.Valid() && Run(c, ss, es) && i <= |es| && u in ss[0].apps
    requires |ss[0].apps[u].pool.stack| >= 2 * (c.depth * c.width)
    ensures u in ss[i].apps
    ensures ss[i].apps[u].pc.New? && (ss[i].apps[u].pc.nw.Fill? || ss[i].apps[u].pc.nw.Refill?) ==> |ss[i].apps[u].pool.stack| >= 1
  {
    RunInv(c, ss, es, i);
    RunStock(c, ss, es, i);
    assert AppOk(c, ss[i].lines, ss[i].locks, u, ss[i].apps[u]);
    EnoughBuffers(c, ss[i].lines, u, ss[i].apps[u]);
  }

  // ---- a refused eviction -----------------------------------------------------------

  lemma RetryBlocked(c: Config, s: State, u: nat, a: App, inp: Input)
    requires c.Valid() && EvOk(s.lines, u, a) && a.pc.Evict? && a.pc.ev.EvLock? && a.pc.retry
    ensures AppMove(c, s, u, a, inp) == Blocked
  {
  }

  /** A thread that evicts again from wait_evict holds the line's lock, and start_evict waits for
      that lock: the thread never moves again. */
  lemma {:induction false} StaysBlocked(c: Config, ss: seq<State>, es: seq<Event>, i: nat, j: nat, u: nat)
    requires c.Valid() && Run(c, ss, es) && i <= j <= |es| && u in ss[i].apps
    requires ss[i].apps[u].pc.Evict? && ss[i].apps[u].pc.ev.EvLock? && ss[i].apps[u].pc.retry
    ensures u in ss[j].apps && ss[j].apps[u] == ss[i].apps[u]
    ensures forall inp :: AppMove(c, ss[j], u, ss[j].apps[u], inp) == Blocked
    decreases j - i
  {
    if i < j {
      StaysBlocked(c, ss, es, i, j - 1, u);
      assert Step(c, ss[j - 1], es[j - 1], ss[j - 1 + 1]);
    }
    RunInv(c, ss, es, j);
    assert AppOk(c, ss[j].lines, ss[j].locks, u, ss[j].apps[u]);
    forall inp ensures AppMove(c, ss[j], u, ss[j].apps[u], inp) == Blocked {
      RetryBlocked(c, ss[j], u, ss[j].apps[u], inp);
    }
  }

  /** The second eviction of a line is therefore never sent: the retry can only end by
      finding the line INVALID. */
  lemma NeverSentTwice(c: Config, ss: seq<State>, es: seq<Event>, i: nat, u: nat)
    requires c.Valid() && Run(c, ss, es) && i <= |es| && u in ss[i].apps
    ensures !(ss[i].apps[u].pc.Evict? && ss[i].apps[u].pc.ev.EvSend? && ss[i].apps[u].pc.retry)
  {
    RunInv(c, ss, es, i);
    assert AppOk(c, ss[i].lines, ss[i].locks, u, ss[i].apps[u]);
  }
}
