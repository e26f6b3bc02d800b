/** One round of the loop of an access: from the start of start_evict to the place where the answer to an eviction
    is awaited or not. */
module CacheRounds {
  import opened Options
  import opened CacheState
  import opened CacheSteps
  import opened CacheInv
  import opened CacheTheorems
  import opened CacheAccess

  // ---- what happens in a round -----------------------------------------------------------------------

  /** In this step thread u gives its tag to a main line of the tag's set. */
  ghost predicate Fills(c: Config, s: State, ev: Event, s': State, u: nat) {
    Acts(s, ev, u) &&
    var home, t := c.home(s.apps[u].t), s.apps[u].t;
    exists w :: !At(s.lines, Slot(false, home, w)).Holds(t) && At(s'.lines, Slot(false, home, w)).Holds(t)
  }

  /** In this step thread u sends a request to the directory. */
  predicate Asks(s: State, ev: Event, u: nat) { Acts(s, ev, u) && s.apps[u].pc.Own? && s.apps[u].pc.ow.Send? }

  /** Inside a round, up to the place where the answer to an eviction is awaited or not. */
  predicate InLoop(pc: Pc) { pc.Find? || pc.New? || pc.Own? || pc.Touch? || pc.Tail? || (pc.Evict? && !pc.retry) }

  predicate Starts(pc: Pc) { pc == Evict(EvStart, false) }

  /** What a thread has done since its round began. */
  datatype Done = Done(filled: bool, asked: bool, passed: bool)

  predicate DoneAt(a: App, d: Done) {
    (InLoop(a.pc) && !a.pc.Tail? ==> !a.succ) &&
    match a.pc
    case Evict(_, retry) => !retry ==> d == Done(false, false, false)
    case Find(_) => d == Done(false, false, false)
    case New(nw) => d == Done(nw.WUnlockSet? && nw.fresh_, false, false)
    case Own(_, _, ow) => d == Done(false, !ow.OwnUnlock? && !ow.Send?, false)
    case Touch(_, hit, ln) => d == Done(false, !hit, ln.UnlockLine? && ln.ok)
    case Tail(dontWait) => dontWait == (d.filled || (d.passed && !d.asked)) && a.succ == d.passed
    case _ => true
  }

  ghost function Next(c: Config, s: State, ev: Event, s': State, u: nat, d: Done): Done {
    Done(d.filled || Fills(c, s, ev, s', u), d.asked || Asks(s, ev, u), d.passed || Passes(s, ev, u))
  }

  // ---- one step --------------------------------------------------------------------------------------

  /** The step gives no main line a tag it did not hold. */
  predicate NoNewTag(s: State, e: Effect) {
    e.wr.Some? && !e.wr.value.0.shadow && e.wr.value.1.Used() ==>
      At(s.lines, e.wr.value.0).Used() && e.wr.value.1.tag == At(s.lines, e.wr.value.0).tag
  }

  /** The step gives tag t to a main line of the set. */
  predicate GivesTag(s: State, e: Effect, home: nat, t: Tag) {
    && e.wr.Some? && !e.wr.value.0.shadow && e.wr.value.0.set_ == home
    && e.wr.value.1.Holds(t) && !At(s.lines, e.wr.value.0).Holds(t)
  }

  lemma EvictRound(s: State, u: nat, a: App)
    requires a.pc.Evict? && !a.pc.retry && EvictStep(s, u, a).Moves? && EvOk(s.lines, u, a) && !a.succ
    ensures var r := EvictStep(s, u, a); DoneAt(r.a, Done(false, false, false)) && NoNewTag(s, r.e)
  {}

  lemma FindRound(c: Config, s: State, u: nat, a: App)
    requires c.Valid() && a.pc.Find? && FindStep(c, s, u, a).Moves? && !a.succ
    ensures var r := FindStep(c, s, u, a); DoneAt(r.a, Done(false, false, false)) && NoNewTag(s, r.e)
  {}

  /** newLine gives the tag to a main line in the step before it unlocks the set with success, and only then. */
  lemma NewRound(c: Config, s: State, u: nat, a: App, filled: bool)
    requires c.Valid() && a.pc.New? && NewStep(c, s, u, a).Moves? && !a.succ && NewOk(c, s.lines, u, a, a.pc.nw)
    requires DoneAt(a, Done(filled, false, false))
    ensures var r := NewStep(c, s, u, a); var now := r.a.pc.New? && r.a.pc.nw.WUnlockSet? && r.a.pc.nw.fresh_;
      && DoneAt(r.a, Done(filled || now, false, false))
      && (now ==> GivesTag(s, r.e, c.home(a.t), a.t))
      && (!now ==> NoNewTag(s, r.e))
  {}

  lemma OwnRound(c: Config, s: State, u: nat, a: App, inp: Input, asked: bool)
    requires c.Valid() && a.pc.Own? && OwnStep(c, s, u, a, inp).Moves? && DoneAt(a, Done(false, asked, false))
    ensures var r := OwnStep(c, s, u, a, inp); DoneAt(r.a, Done(false, asked || a.pc.ow.Send?, false)) && NoNewTag(s, r.e)
  {}

  lemma TouchRound(s: State, u: nat, a: App, inp: Input, asked: bool, passed: bool)
    requires u in s.apps && s.apps[u] == a && a.pc.Touch? && TouchStep(s, u, a).Moves? && DoneAt(a, Done(false, asked, passed))
    requires a.pc.ln.Check2? ==> a.access == Read
    ensures var r := TouchStep(s, u, a); DoneAt(r.a, Done(false, asked, passed || Passes(s, ByApp(u, inp), u))) && NoNewTag(s, r.e)
  {}

  /** A round begins with the access not done. */
  predicate StartsUndone(a: App) { a.pc.Evict? && !a.pc.retry ==> !a.succ }

  lemma MoveUndone(c: Config, s: State, u: nat, a: App, inp: Input)
    requires c.Valid() && AppMove(c, s, u, a, inp).Moves? && StartsUndone(a)
    ensures StartsUndone(AppMove(c, s, u, a, inp).a)
  {
    match a.pc
    case Evict(_, _) =>
    case Find(_) => FindStarts(c, s, u, a);
    case New(_) => NewStarts(c, s, u, a);
    case Own(_, _, _) => OwnStarts(c, s, u, a, inp);
    case Touch(_, _, _) =>
    case Wait(_) => WaitStarts(s, u, a, inp);
    case _ =>
  }

  lemma FindStarts(c: Config, s: State, u: nat, a: App)
    requires c.Valid() && a.pc.Find? && FindStep(c, s, u, a).Moves?
    ensures !FindStep(c, s, u, a).a.pc.Evict?
  {}

  lemma NewStarts(c: Config, s: State, u: nat, a: App)
    requires c.Valid() && a.pc.New? && NewStep(c, s, u, a).Moves?
    ensures !NewStep(c, s, u, a).a.pc.Evict?
  {}

  lemma OwnStarts(c: Config, s: State, u: nat, a: App, inp: Input)
    requires c.Valid() && a.pc.Own? && OwnStep(c, s, u, a, inp).Moves?
    ensures !OwnStep(c, s, u, a, inp).a.pc.Evict?
  {}

  lemma WaitStarts(s: State, u: nat, a: App, inp: Input)
    requires a.pc.Wait? && WaitStep(s, u, a, inp).Moves?
    ensures StartsUndone(WaitStep(s, u, a, inp).a)
  {}

  lemma StepUndone(c: Config, s: State, ev: Event, s': State, u: nat)
    requires c.Valid() && Step(c, s, ev, s') && (u in s.apps ==> StartsUndone(s.apps[u]))
    ensures u in s'.apps ==> StartsUndone(s'.apps[u])
  {
    if ev.ByApp? && ev.u == u { MoveUndone(c, s, u, s.apps[u], ev.inp); }
  }

  lemma {:induction false} RunUndone(c: Config, ss: seq<State>, es: seq<Event>, i: nat, u: nat)
    requires c.Valid() && Run(c, ss, es) && i <= |es|
    ensures u in ss[i].apps ==> StartsUndone(ss[i].apps[u])
    decreases i
  {
    if i > 0 {
      RunUndone(c, ss, es, i - 1, u);
      StepUndone(c, ss[i - 1], es[i - 1], ss[i - 1 + 1], u);
    }
  }

  // ---- the round -------------------------------------------------------------------------------------

  /** What a step of a run does to a thread inside its round. */
  ghost predicate RoundFate(c: Config, s: State, ev: Event, s': State, u: nat, d: Done) {
    u in s.apps && InLoop(s.apps[u].pc) && !s.apps[u].pc.Tail? && DoneAt(s.apps[u], d) ==>
      u in s'.apps && DoneAt(s'.apps[u], Next(c, s, ev, s', u, d))
  }

  lemma NoFill(c: Config, s: State, u: nat, inp: Input, s': State)
    requires c.Valid() && AppNext(c, s, u, inp, s') && NoNewTag(s, AppMove(c, s, u, s.apps[u], inp).e)
    ensures !Fills(c, s, ByApp(u, inp), s', u)
  {}

  lemma FillIs(c: Config, s: State, u: nat, inp: Input, s': State)
    requires c.Valid() && AppNext(c, s, u, inp, s')
    requires GivesTag(s, AppMove(c, s, u, s.apps[u], inp).e, c.home(s.apps[u].t), s.apps[u].t)
    ensures Fills(c, s, ByApp(u, inp), s', u)
  {
    var e := AppMove(c, s, u, s.apps[u], inp).e;
    assert e.wr.value.0 == Slot(false, c.home(s.apps[u].t), e.wr.value.0.way);
  }

  lemma StepRound(c: Config, s: State, ev: Event, s': State, u: nat, d: Done)
    requires c.Valid() && Step(c, s, ev, s') && (u in s.apps ==> AppOk(c, s.lines, s.locks, u, s.apps[u]) && ReadsTwice(s.apps[u]))
    ensures RoundFate(c, s, ev, s', u, d)
  {
    if Acts(s, ev, u) && InLoop(s.apps[u].pc) && !s.apps[u].pc.Tail? && DoneAt(s.apps[u], d) { ActRound(c, s, ev, s', u, d); }
  }

  lemma ActRound(c: Config, s: State, ev: Event, s': State, u: nat, d: Done)
    requires c.Valid() && Step(c, s, ev, s') && Acts(s, ev, u) && AppOk(c, s.lines, s.locks, u, s.apps[u]) && ReadsTwice(s.apps[u])
    requires InLoop(s.apps[u].pc) && !s.apps[u].pc.Tail? && DoneAt(s.apps[u], d)
    ensures u in s'.apps && DoneAt(s'.apps[u], Next(c, s, ev, s', u, d))
  {
    var a, inp := s.apps[u], ev.inp;
    match a.pc
    case Evict(_, _) => EvictRound(s, u, a); NoFill(c, s, u, inp, s');
    case Find(_) => FindRound(c, s, u, a); NoFill(c, s, u, inp, s');
    case New(nw) =>
      NewRound(c, s, u, a, d.filled);
      var r := NewStep(c, s, u, a);
      if r.a.pc.New? && r.a.pc.nw.WUnlockSet? && r.a.pc.nw.fresh_ { FillIs(c, s, u, inp, s'); } else { NoFill(c, s, u, inp, s'); }
    case Own(_, _, _) => OwnRound(c, s, u, a, inp, d.asked); NoFill(c, s, u, inp, s');
    case Touch(_, _, _) => TouchRound(s, u, a, inp, d.asked, d.passed); NoFill(c, s, u, inp, s');
    case _ =>
  }

  ghost predicate RoundFated(c: Config, ss: seq<State>, es: seq<Event>, u: nat) {
    |ss| == |es| + 1 && forall k {:trigger es[k]} :: 0 <= k < |es| ==> RoundFates(c, ss[k], es[k], ss[k + 1], u)
  }

  ghost predicate RoundFates(c: Config, s: State, ev: Event, s': State, u: nat) { forall d :: RoundFate(c, s, ev, s', u, d) }

  lemma StepRounds(c: Config, s: State, ev: Event, s': State, u: nat)
    requires c.Valid() && Step(c, s, ev, s') && (u in s.apps ==> AppOk(c, s.lines, s.locks, u, s.apps[u]) && ReadsTwice(s.apps[u]))
    ensures RoundFates(c, s, ev, s', u)
  {
    forall d ensures RoundFate(c, s, ev, s', u, d) { StepRound(c, s, ev, s', u, d); }
  }

  lemma RunRoundFated(c: Config, ss: seq<State>, es: seq<Event>, u: nat)
    requires c.Valid() && Run(c, ss, es)
    ensures RoundFated(c, ss, es, u)
  {
    forall k | 0 <= k < |es| ensures RoundFates(c, ss[k], es[k], ss[k + 1], u) {
      RunInv(c, ss, es, k);
      RunReadsTwice(c, ss, es, k, u);
      StepRounds(c, ss[k], es[k], ss[k + 1], u);
    }
  }

  /** The thread begins a round in state i and has not left it in state j. */
  ghost predicate Round(ss: seq<State>, es: seq<Event>, i: nat, j: nat, u: nat) {
    && |ss| == |es| + 1 && i < j <= |es| && Acts(ss[i], es[i], u) && Starts(ss[i].apps[u].pc)
    && forall k :: i < k <= j ==> u in ss[k].apps && InLoop(ss[k].apps[u].pc) && !Starts(ss[k].apps[u].pc) && (k < j ==> !ss[k].apps[u].pc.Tail?)
  }

  ghost predicate Filled(c: Config, ss: seq<State>, es: seq<Event>, i: nat, j: nat, u: nat)
    requires j <= |es| < |ss|
  {
    exists k :: i <= k < j && Fills(c, ss[k], es[k], ss[k + 1], u)
  }

  ghost predicate Asked(ss: seq<State>, es: seq<Event>, i: nat, j: nat, u: nat)
    requires j <= |es| < |ss|
  {
    exists k :: i <= k < j && Asks(ss[k], es[k], u)
  }

  ghost function DoneIn(c: Config, ss: seq<State>, es: seq<Event>, i: nat, j: nat, u: nat): Done
    requires j <= |es| < |ss|
  {
    Done(Filled(c, ss, es, i, j, u), Asked(ss, es, i, j, u), Passed(ss, es, i, j, u))
  }

  lemma DoneNext(c: Config, ss: seq<State>, es: seq<Event>, i: nat, j: nat, u: nat)
    requires i + 1 < j <= |es| < |ss|
    ensures DoneIn(c, ss, es, i, j, u) == Next(c, ss[j - 1], es[j - 1], ss[j - 1 + 1], u, DoneIn(c, ss, es, i, j - 1, u))
  {
    PassedNext(ss, es, i, j, u);
  }

  lemma DoneFirst(c: Config, ss: seq<State>, es: seq<Event>, i: nat, u: nat)
    requires i < |es| < |ss| && Acts(ss[i], es[i], u) && Starts(ss[i].apps[u].pc)
    ensures DoneIn(c, ss, es, i, i + 1, u) == Next(c, ss[i], es[i], ss[i + 1], u, Done(false, false, false))
  {
    assert !Asks(ss[i], es[i], u) && !Passes(ss[i], es[i], u);
    assert !Fills(c, ss[i], es[i], ss[i + 1], u) ==> !Filled(c, ss, es, i, i + 1, u);
  }

  lemma {:induction false} RoundIs(c: Config, ss: seq<State>, es: seq<Event>, i: nat, j: nat, u: nat)
    requires RoundFated(c, ss, es, u) && Round(ss, es, i, j, u) && !ss[i].apps[u].succ
    ensures DoneAt(ss[j].apps[u], DoneIn(c, ss, es, i, j, u))
    decreases j
  {
    if j > i + 1 {
      RoundIs(c, ss, es, i, j - 1, u);
      var e, d := es[j - 1], DoneIn(c, ss, es, i, j - 1, u);
      assert RoundFates(c, ss[j - 1], e, ss[j - 1 + 1], u);
      assert RoundFate(c, ss[j - 1], e, ss[j - 1 + 1], u, d);
      DoneNext(c, ss, es, i, j, u);
    } else {
      var e, d := es[i], Done(false, false, false);
      assert RoundFates(c, ss[i], e, ss[i + 1], u);
      assert RoundFate(c, ss[i], e, ss[i + 1], u, d);
      DoneFirst(c, ss, es, i, u);
    }
  }

  /** At the end of a round a thread that has a line to evict awaits the answer, unless it has given its tag to a
      line of the set or has been served without a request. Else it returns, or begins the next round. */
  lemma WaitsExactly(c: Config, ss: seq<State>, es: seq<Event>, i: nat, j: nat, u: nat)
    requires c.Valid() && Run(c, ss, es) && j < |es| && Round(ss, es, i, j, u) && ss[j].apps[u].pc.Tail? && Acts(ss[j], es[j], u)
    ensures u in ss[j + 1].apps
    ensures var pc, done := ss[j + 1].apps[u].pc, DoneIn(c, ss, es, i, j, u);
      && (pc == Wait(WRecv) <==> ss[j].apps[u].evict.wait && !done.filled && !(done.passed && !done.asked))
      && (pc != Wait(WRecv) ==> if done.passed then pc == Idle else Starts(pc))
  {
    RunUndone(c, ss, es, i, u);
    RunRoundFated(c, ss, es, u);
    RoundIs(c, ss, es, i, j, u);
    assert Step(c, ss[j], es[j], ss[j + 1]);
  }

  // ---- the line that a thread is evicting ------------------------------------------------------------

  /** The step keeps the tag of every shadow line in use. */
  predicate KeepsTags(s: State, e: Effect) {
    e.wr.Some? && e.wr.value.0.shadow && At(s.lines, e.wr.value.0).Used() ==> e.wr.value.1.tag == At(s.lines, e.wr.value.0).tag
  }

  lemma MoveKeepsTags(c: Config, s: State, u: nat, a: App, inp: Input)
    requires c.Valid() && AppMove(c, s, u, a, inp).Moves? && PcOk(c, s.lines, u, a)
    ensures KeepsTags(s, AppMove(c, s, u, a, inp).e)
  {
    match a.pc
    case Evict(_, _) =>
    case Find(_) => FindKeepsTags(c, s, u, a);
    case New(_) => NewKeepsTags(c, s, u, a);
    case Own(_, _, _) => OwnKeepsTags(c, s, u, a, inp);
    case Touch(_, _, _) =>
    case Wait(_) => WaitKeepsTags(s, u, a, inp);
    case _ =>
  }

  lemma FindKeepsTags(c: Config, s: State, u: nat, a: App)
    requires c.Valid() && a.pc.Find? && FindStep(c, s, u, a).Moves?
    ensures KeepsTags(s, FindStep(c, s, u, a).e)
  {}

  lemma NewKeepsTags(c: Config, s: State, u: nat, a: App)
    requires c.Valid() && a.pc.New? && NewStep(c, s, u, a).Moves? && NewOk(c, s.lines, u, a, a.pc.nw)
    ensures KeepsTags(s, NewStep(c, s, u, a).e)
  {}

  lemma OwnKeepsTags(c: Config, s: State, u: nat, a: App, inp: Input)
    requires c.Valid() && a.pc.Own? && OwnStep(c, s, u, a, inp).Moves?
    ensures KeepsTags(s, OwnStep(c, s, u, a, inp).e)
  {}

  lemma WaitKeepsTags(s: State, u: nat, a: App, inp: Input)
    requires a.pc.Wait? && WaitStep(s, u, a, inp).Moves?
    ensures KeepsTags(s, WaitStep(s, u, a, inp).e)
  {}

  lemma AgentKeepsTags(c: Config, s: State, v: nat, g: Agent, inp: Input)
    requires c.Valid() && AgentMove(c, s, v, g, inp).AgentMoves?
    ensures KeepsTags(s, AgentMove(c, s, v, g, inp).ge)
  {}

  lemma StepKeepsTag(c: Config, s: State, ev: Event, s': State, p: Slot)
    requires c.Valid() && AppsInv(c, s) && Step(c, s, ev, s') && p.shadow && At(s.lines, p).Used()
    ensures At(s'.lines, p).tag == At(s.lines, p).tag
  {
    if ev.ByApp? {
      assert AppOk(c, s.lines, s.locks, ev.u, s.apps[ev.u]);
      MoveKeepsTags(c, s, ev.u, s.apps[ev.u], ev.inp);
    } else {
      AgentKeepsTags(c, s, ev.v, s.agents[ev.v], ev.inp);
    }
  }

  /** Thread a does not go for the line whose eviction it is waiting for. */
  predicate Apart(c: Config, lines: Lines, a: App)
    requires c.Valid()
  {
    var cur := a.evict.cur;
    a.evict.wait ==>
      && (a.pc.Touch? && a.pc.p.shadow ==> Some(a.pc.p) != cur)
      && (a.pc.Find? && a.pc.fd.RUnlockSet? && a.pc.fd.then_.ToHit? && a.pc.fd.then_.q.shadow ==> Some(a.pc.fd.then_.q) != cur)
      && (a.pc.Find? && a.pc.fd.Decide? && a.pc.fd.sh.Some? && Some(Slot(true, c.home(a.t), a.pc.fd.sh.value)) == cur ==>
            At(lines, cur.value).tag == a.t)
  }

  lemma StepApart(c: Config, s: State, ev: Event, s': State, u: nat)
    requires c.Valid() && Inv(c, s) && Step(c, s, ev, s') && (u in s.apps ==> Apart(c, s.lines, s.apps[u]))
    ensures u in s'.apps ==> Apart(c, s'.lines, s'.apps[u])
  {
    if u in s.apps {
      assert AppOk(c, s.lines, s.locks, u, s.apps[u]);
      if Acts(s, ev, u) {
        ActApart(c, s, u, s.apps[u], ev.inp);
      } else {
        OtherKeeps(c, s, ev, s', u);
        ApartKept(c, s.lines, s'.lines, s.apps[u]);
      }
    }
  }

  lemma ApartKept(c: Config, lines: Lines, lines': Lines, a: App)
    requires c.Valid() && Apart(c, lines, a)
    requires Pending(a) ==> At(lines', DefaultSlot(a.evict.cur)).tag == At(lines, DefaultSlot(a.evict.cur)).tag
    ensures Apart(c, lines', a)
  {}

  lemma OtherKeeps(c: Config, s: State, ev: Event, s': State, u: nat)
    requires c.Valid() && Inv(c, s) && Step(c, s, ev, s') && u in s.apps && !Acts(s, ev, u) && EvOk(s.lines, u, s.apps[u])
    ensures u in s'.apps && s'.apps[u] == s.apps[u]
    ensures Pending(s.apps[u]) ==>
      At(s'.lines, DefaultSlot(s.apps[u].evict.cur)).tag == At(s.lines, DefaultSlot(s.apps[u].evict.cur)).tag
  {
    if Pending(s.apps[u]) { StepKeepsTag(c, s, ev, s', DefaultSlot(s.apps[u].evict.cur)); }
  }

  lemma ActApart(c: Config, s: State, u: nat, a: App, inp: Input)
    requires c.Valid() && AppMove(c, s, u, a, inp).Moves? && Apart(c, s.lines, a) && EvOk(s.lines, u, a) && PcOk(c, s.lines, u, a)
    ensures var r := AppMove(c, s, u, a, inp); Apart(c, Apply(s, r.e).lines, r.a)
  {
    match a.pc
    case Evict(_, _) => EvictApart(c, s, u, a);
    case Find(_) => FindApart(c, s, u, a);
    case New(_) => NewApart(c, s, u, a);
    case Own(_, _, _) => OwnApart(c, s, u, a, inp);
    case Touch(_, _, _) => TouchApart(c, s, u, a);
    case Wait(_) => WaitApart(c, s, u, a, inp);
    case _ =>
  }

  lemma EvictApart(c: Config, s: State, u: nat, a: App)
    requires c.Valid() && a.pc.Evict? && EvictStep(s, u, a).Moves?
    ensures var r := EvictStep(s, u, a); Apart(c, Apply(s, r.e).lines, r.a)
  {}

  lemma FindApart(c: Config, s: State, u: nat, a: App)
    requires c.Valid() && a.pc.Find? && FindStep(c, s, u, a).Moves? && Apart(c, s.lines, a)
    ensures var r := FindStep(c, s, u, a); Apart(c, Apply(s, r.e).lines, r.a)
  {}

  lemma NewApart(c: Config, s: State, u: nat, a: App)
    requires c.Valid() && a.pc.New? && NewStep(c, s, u, a).Moves?
    ensures var r := NewStep(c, s, u, a); Apart(c, Apply(s, r.e).lines, r.a)
  {}

  lemma OwnApart(c: Config, s: State, u: nat, a: App, inp: Input)
    requires c.Valid() && a.pc.Own? && OwnStep(c, s, u, a, inp).Moves? && !a.pc.p.shadow
    ensures var r := OwnStep(c, s, u, a, inp); Apart(c, Apply(s, r.e).lines, r.a)
  {}

  lemma TouchApart(c: Config, s: State, u: nat, a: App)
    requires c.Valid() && a.pc.Touch? && TouchStep(s, u, a).Moves? && Apart(c, s.lines, a)
    ensures var r := TouchStep(s, u, a); Apart(c, Apply(s, r.e).lines, r.a)
  {}

  lemma WaitApart(c: Config, s: State, u: nat, a: App, inp: Input)
    requires c.Valid() && a.pc.Wait? && WaitStep(s, u, a, inp).Moves?
    ensures var r := WaitStep(s, u, a, inp); Apart(c, Apply(s, r.e).lines, r.a)
  {}

  lemma {:induction false} RunApart(c: Config, ss: seq<State>, es: seq<Event>, i: nat, u: nat)
    requires c.Valid() && Run(c, ss, es) && i <= |es|
    ensures u in ss[i].apps ==> Apart(c, ss[i].lines, ss[i].apps[u])
    decreases i
  {
    if i > 0 {
      RunInv(c, ss, es, i - 1);
      RunApart(c, ss, es, i - 1, u);
      StepApart(c, ss[i - 1], es[i - 1], ss[i - 1 + 1], u);
    }
  }

  /** A thread holds the lock of the line that it evicts, and never tries to lock this line for an access: an access
      to the tag being evicted goes to await the answer. */
  lemma NeverLocksOwn(c: Config, ss: seq<State>, es: seq<Event>, i: nat, u: nat)
    requires c.Valid() && Run(c, ss, es) && i <= |es| && u in ss[i].apps && ss[i].apps[u].pc.Touch? && ss[i].apps[u].evict.wait
    ensures var a := ss[i].apps[u]; a.evict.cur.Some? && LineLocked(ss[i].lines, u, a.evict.cur.value) && a.pc.p != a.evict.cur.value
  {
    RunInv(c, ss, es, i);
    RunApart(c, ss, es, i, u);
    assert AppOk(c, ss[i].lines, ss[i].locks, u, ss[i].apps[u]);
  }
}
