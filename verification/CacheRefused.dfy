/** What becomes of a thread whose eviction the directory refuses. It leaves wait_evict exactly when it
    loads INVALID. It is lost in two ways: waiting for a lock it holds, exactly when it takes the line
    back to TO_PRESERVED; and undoing an EVICT_SHARED for ever, exactly when an agent takes the line to
    TO_SHARED before it is undone. One of the three happens within seventeen turns of the thread. */
module CacheRefused {
  import opened Options
  import opened CacheState
  import opened CacheSteps
  import opened CacheInv
  import opened CacheOwnProof
  import opened CacheTheorems
  import opened CacheUndo

  /** The thread takes a refusal of its eviction in this step. */
  predicate Refuses(s: State, ev: Event, u: nat) {
    && ev.ByApp? && ev.u == u && u in s.apps && s.apps[u].pc == Wait(WRecv)
    && var a := s.apps[u];
       (a.evict.stash.Some? || ev.inp.Recv?)
       && var m := if a.evict.stash.Some? then a.evict.stash.value else ev.inp.msg;
          m.mtype == MCheckFail && m.tag == At(s.lines, DefaultSlot(a.evict.cur)).tag
  }

  /** In this step the retry loads INVALID. */
  predicate SawInvalid(s: State, ev: Event, u: nat) {
    && ev.ByApp? && ev.u == u && u in s.apps && s.apps[u].pc == Evict(EvLoad, true)
    && At(s.lines, DefaultSlot(s.apps[u].evict.cur)).st == Invalid
  }

  /** In this step the retry's compare-and-swap finds the word it expects. */
  predicate WonCas(s: State, ev: Event, u: nat) {
    && ev.ByApp? && ev.u == u && u in s.apps
    && var pc := s.apps[u].pc;
       pc.Evict? && pc.retry && pc.ev.EvCas? && At(s.lines, DefaultSlot(s.apps[u].evict.cur)).Is(pc.ev.f, pc.ev.tmp)
  }

  /** In this step the thread takes a refusal of its EVICT_SHARED, and the line is TO_SHARED already. */
  predicate RefusedLate(s: State, ev: Event, u: nat) {
    Refuses(s, ev, u) && !s.apps[u].evict.evDirty && At(s.lines, DefaultSlot(s.apps[u].evict.cur)).st == ToShared
  }

  /** In this step an agent takes the line from TO_PRESERVED to TO_SHARED, for a READ_MISS_DIRTY, while
      the thread undoes its EVICT_SHARED. */
  predicate Demotes(s: State, ev: Event, u: nat) {
    && u in s.apps && ev.ByAgent? && ev.v in s.agents
    && var a, g := s.apps[u], s.agents[ev.v];
       var p := DefaultSlot(a.evict.cur);
       && a.pc.Wait? && a.pc.wt.Revert? && !a.evict.evDirty
       && g.pc == ACas(p, ToPreserved) && g.msg.mtype == ReadMissDirty && At(s.lines, p).Is(false, ToPreserved)
  }

  // ---- one step ------------------------------------------------------------------------------------

  lemma RefusingStep(c: Config, s: State, u: nat, inp: Input, s': State)
    requires c.Valid() && Inv(c, s) && AppNext(c, s, u, inp, s') && Refusing(s.apps[u].pc)
    ensures Refusing(s'.apps[u].pc) || Escaping(s'.apps[u].pc)
  {
    assert AppOk(c, s.lines, s.locks, u, s.apps[u]);
    if s.apps[u].pc.Wait? { RevertStep(c, s, u, s.apps[u], inp); } else { RetryStep(c, s, u, s.apps[u]); }
  }

  lemma RevertStep(c: Config, s: State, u: nat, a: App, inp: Input)
    requires a.pc.Wait? && a.pc.wt.Revert? && WaitStep(s, u, a, inp).Moves?
    ensures Refusing(WaitStep(s, u, a, inp).a.pc)
  {}

  lemma RetryStep(c: Config, s: State, u: nat, a: App)
    requires EvOk(s.lines, u, a) && a.pc.Evict? && Refusing(a.pc) && EvictStep(s, u, a).Moves?
    ensures Refusing(EvictStep(s, u, a).a.pc) || Escaping(EvictStep(s, u, a).a.pc)
  {}

  /** The only ways into giving the buffer back, into waiting for the lock and into the undo loop. */
  lemma Entered(c: Config, s: State, u: nat, a: App, inp: Input, a': App, e: Effect)
    requires c.Valid() && u in s.apps && s.apps[u] == a && AppMove(c, s, u, a, inp) == Moves(a', e)
    ensures var l := At(s.lines, DefaultSlot(a.evict.cur));
      && (Escaping(a'.pc) <==> a.pc == Evict(EvLoad, true) && l.st == Invalid)
      && (Lost(a'.pc) <==> a.pc.Evict? && a.pc.retry && a.pc.ev.EvCas? && l.Is(a.pc.ev.f, a.pc.ev.tmp))
      && (Undoing(a'.pc) ==> Undoing(a.pc) || (Refuses(s, ByApp(u, inp), u) && a'.pc == Wait(Revert(0))))
      && (Refuses(s, ByApp(u, inp), u) ==> a'.pc == Wait(Revert(0)) && a'.evict == a.evict.(stash := None) && e == NOTHING)
  {
    match a.pc
    case Evict(_, _) => EnteredEvict(s, u, a);
    case Find(_) => EnteredFind(c, s, u, a);
    case New(_) => EnteredNew(c, s, u, a);
    case Own(_, _, _) => EnteredOwn(c, s, u, a, inp);
    case Touch(_, _, _) => EnteredTouch(s, u, a);
    case Wait(_) => EnteredWait(s, u, a, inp);
    case _ =>
  }

  predicate Undoing(pc: Pc) { pc.Wait? && pc.wt.Revert? }

  predicate Elsewhere(r: AppStep) { r.Moves? ==> !Escaping(r.a.pc) && !Lost(r.a.pc) && !Undoing(r.a.pc) }

  lemma EnteredEvict(s: State, u: nat, a: App)
    requires a.pc.Evict? && EvictStep(s, u, a).Moves?
    ensures var l, pc' := At(s.lines, DefaultSlot(a.evict.cur)), EvictStep(s, u, a).a.pc;
      && (Escaping(pc') <==> a.pc == Evict(EvLoad, true) && l.st == Invalid)
      && (Lost(pc') <==> a.pc.retry && a.pc.ev.EvCas? && l.Is(a.pc.ev.f, a.pc.ev.tmp))
      && !Undoing(pc')
  {}

  lemma EnteredFind(c: Config, s: State, u: nat, a: App)
    requires c.Valid() && a.pc.Find?
    ensures Elsewhere(FindStep(c, s, u, a))
  {}

  lemma EnteredNew(c: Config, s: State, u: nat, a: App)
    requires c.Valid() && a.pc.New?
    ensures Elsewhere(NewStep(c, s, u, a))
  {}

  lemma EnteredOwn(c: Config, s: State, u: nat, a: App, inp: Input)
    requires c.Valid() && a.pc.Own?
    ensures Elsewhere(OwnStep(c, s, u, a, inp))
  {}

  lemma EnteredTouch(s: State, u: nat, a: App)
    requires a.pc.Touch?
    ensures Elsewhere(TouchStep(s, u, a))
  {}

  lemma EnteredWait(s: State, u: nat, a: App, inp: Input)
    requires u in s.apps && s.apps[u] == a && a.pc.Wait? && WaitStep(s, u, a, inp).Moves?
    ensures var r := WaitStep(s, u, a, inp);
      && !Escaping(r.a.pc) && !Lost(r.a.pc)
      && (Undoing(r.a.pc) ==> Undoing(a.pc) || (Refuses(s, ByApp(u, inp), u) && r.a.pc == Wait(Revert(0))))
      && (Refuses(s, ByApp(u, inp), u) ==> r.a.pc == Wait(Revert(0)) && r.a.evict == a.evict.(stash := None) && r.e == NOTHING)
  {}

  // ---- the undo loop -------------------------------------------------------------------------------

  /** A turn of the thread in the undo loop. */
  lemma UndoMove(s: State, u: nat, a: App, inp: Input)
    requires u in s.apps && s.apps[u] == a && Undoing(a.pc) && RoundOk(a)
    ensures var r := WaitStep(s, u, a, inp);
      && r.Moves?
      && (Undoing(r.a.pc) ==> r.e == NOTHING && r.a == a.Go(r.a.pc) && RoundOk(r.a))
      && (Spinning(s, a) ==> Undoing(r.a.pc))
  {}

  lemma OwnRound(c: Config, s: State, u: nat, inp: Input, s': State)
    requires c.Valid() && AppNext(c, s, u, inp, s') && RoundAt(s, u)
    ensures RoundAt(s', u)
  {
    var a := s.apps[u];
    var r := AppMove(c, s, u, a, inp);
    Entered(c, s, u, a, inp, r.a, r.e);
    if Undoing(a.pc) { UndoMove(s, u, a, inp); }
  }

  lemma StepRound(c: Config, s: State, ev: Event, s': State, u: nat)
    requires c.Valid() && Step(c, s, ev, s') && (u in s.apps ==> RoundAt(s, u))
    ensures u in s'.apps ==> RoundAt(s', u)
  {
    if ev.ByApp? && ev.u == u { OwnRound(c, s, u, ev.inp, s'); }
  }

  lemma {:induction false} RunRound(c: Config, ss: seq<State>, es: seq<Event>, i: nat, u: nat)
    requires c.Valid() && Run(c, ss, es) && i <= |es|
    ensures u in ss[i].apps ==> RoundAt(ss[i], u)
  {
    if i > 0 {
      RunRound(c, ss, es, i - 1, u);
      StepRound(c, ss[i - 1], es[i - 1], ss[i], u);
    }
  }

  /** What one step does to a spinning thread, and what makes it spin. */
  ghost predicate SpinFate(s: State, ev: Event, s': State, u: nat) {
    && (SpinsAt(s', u) ==> SpinsAt(s, u) || RefusedLate(s, ev, u) || Demotes(s, ev, u))
    && (RefusedLate(s, ev, u) || Demotes(s, ev, u) ==> SpinsAt(s', u))
    && (SpinsAt(s, u) ==> SpinsAt(s', u) && s'.apps[u] == s.apps[u].Go(s'.apps[u].pc))
  }

  lemma OwnSpin(c: Config, s: State, u: nat, inp: Input, s': State)
    requires c.Valid() && AppNext(c, s, u, inp, s') && RoundAt(s, u)
    ensures SpinFate(s, ByApp(u, inp), s', u)
  {
    var a := s.apps[u];
    var r := AppMove(c, s, u, a, inp);
    Entered(c, s, u, a, inp, r.a, r.e);
    if Undoing(a.pc) { UndoMove(s, u, a, inp); }
  }

  lemma OthersSpin(c: Config, s: State, ev: Event, s': State, u: nat)
    requires c.Valid() && Inv(c, s) && Step(c, s, ev, s') && ev != ByApp(u, ev.inp)
    ensures SpinFate(s, ev, s', u)
  {
    if u in s.apps && Undoing(s.apps[u].pc) {
      UndoLine(c, s, u);
      OthersCalm(c, s, ev, s', u, DefaultSlot(s.apps[u].evict.cur));
      SpinsByOthers(c, s, ev, s', u, s.apps[u], DefaultSlot(s.apps[u].evict.cur));
    }
  }

  lemma UndoLine(c: Config, s: State, u: nat)
    requires c.Valid() && Inv(c, s) && u in s.apps && Undoing(s.apps[u].pc)
    ensures var p := DefaultSlot(s.apps[u].evict.cur);
      Mine(s.lines, u, p) && (At(s.lines, p).st == ToPreserved || At(s.lines, p).st == ToShared)
  {
    assert AppOk(c, s.lines, s.locks, u, s.apps[u]);
  }

  lemma SpinsByOthers(c: Config, s: State, ev: Event, s': State, u: nat, a: App, p: Slot)
    requires c.Valid() && Step(c, s, ev, s') && ev != ByApp(u, ev.inp)
    requires u in s.apps && s.apps[u] == a && Undoing(a.pc) && p == DefaultSlot(a.evict.cur)
    requires At(s.lines, p).st == ToPreserved || At(s.lines, p).st == ToShared
    requires Calms(At(s.lines, p), At(s'.lines, p))
    requires ev.ByApp? ==> At(s'.lines, p).Is(At(s.lines, p).flag, At(s.lines, p).st)
    ensures SpinFate(s, ev, s', u)
  {
    if ev.ByAgent? && At(s.lines, p).st == ToPreserved { AgentDemotes(c, s, ev.v, s.agents[ev.v], ev.inp, p); }
  }

  /** The one step of an agent that takes a line from TO_PRESERVED to TO_SHARED. */
  lemma AgentDemotes(c: Config, s: State, v: nat, g: Agent, inp: Input, p: Slot)
    requires c.Valid() && AgentMove(c, s, v, g, inp).AgentMoves? && At(s.lines, p).st == ToPreserved
    ensures At(Apply(s, AgentMove(c, s, v, g, inp).ge).lines, p).st == ToShared
      <==> g.pc == ACas(p, ToPreserved) && g.msg.mtype == ReadMissDirty && At(s.lines, p).Is(false, ToPreserved)
  {}

  // ---- one step of a run -----------------------------------------------------------------------------

  /** The thread is nearer the end of its loops, by one turn if it was its own step. */
  ghost predicate Nearer(s: State, ev: Event, s': State, u: nat) {
    Open(s, u) ==>
      && TurnsLeft(s, s.apps[u]) >= 1
      && (Ended(s', u) || (Open(s', u) && TurnsLeft(s', s'.apps[u]) + Turn(ev, u) <= TurnsLeft(s, s.apps[u])))
  }

  function Turn(ev: Event, u: nat): nat { if ev.ByApp? && ev.u == u then 1 else 0 }

  lemma OwnNearer(c: Config, s: State, u: nat, inp: Input, s': State)
    requires c.Valid() && AppNext(c, s, u, inp, s') && Open(s, u) && InHand(s, u, s.apps[u])
    ensures Nearer(s, ByApp(u, inp), s', u)
  {
    OwnTurn(c, s, u, s.apps[u], inp);
  }

  lemma OthersNearer(c: Config, s: State, ev: Event, s': State, u: nat)
    requires c.Valid() && Inv(c, s) && Step(c, s, ev, s') && ev != ByApp(u, ev.inp) && Open(s, u) && InHand(s, u, s.apps[u])
    ensures Nearer(s, ev, s', u)
  {
    var a := s.apps[u];
    OthersCalm(c, s, ev, s', u, DefaultSlot(if a.pc == Evict(EvStart, true) then a.evict.next else a.evict.cur));
    OthersTurns(s, s', u);
    OwnTurn(c, s, u, a, Tau);
  }

  lemma StepNearer(c: Config, s: State, ev: Event, s': State, u: nat)
    requires c.Valid() && Inv(c, s) && Step(c, s, ev, s') && RoundAt(s, u)
    ensures Nearer(s, ev, s', u)
  {
    if Open(s, u) {
      OpenInHand(c, s, u);
      if ev == ByApp(u, ev.inp) { OwnNearer(c, s, u, ev.inp, s'); } else { OthersNearer(c, s, ev, s', u); }
    }
  }

  /** What the step from s to s' does to thread u. */
  ghost predicate Fate(s: State, ev: Event, s': State, u: nat) {
    && (u in s.apps ==> u in s'.apps)
    && (EscapingAt(s', u) ==> EscapingAt(s, u) || SawInvalid(s, ev, u))
    && (SawInvalid(s, ev, u) ==> EscapingAt(s', u))
    && (LostAt(s', u) ==> LostAt(s, u) || WonCas(s, ev, u))
    && (WonCas(s, ev, u) ==> LostAt(s', u))
    && (u in s.apps && Refusing(s.apps[u].pc) ==> Refusing(s'.apps[u].pc) || EscapingAt(s', u))
    && SpinFate(s, ev, s', u) && Nearer(s, ev, s', u)
  }

  lemma StepFate(c: Config, s: State, ev: Event, s': State, u: nat)
    requires c.Valid() && Inv(c, s) && Step(c, s, ev, s') && (u in s.apps ==> RoundAt(s, u))
    ensures Fate(s, ev, s', u)
  {
    if u in s.apps { StepNearer(c, s, ev, s', u); }
    if ev.ByApp? && ev.u == u {
      var r := AppMove(c, s, u, s.apps[u], ev.inp);
      Entered(c, s, u, s.apps[u], ev.inp, r.a, r.e);
      OwnSpin(c, s, u, ev.inp, s');
      if Refusing(s.apps[u].pc) { RefusingStep(c, s, u, ev.inp, s'); }
    } else {
      OthersSpin(c, s, ev, s', u);
    }
  }

  lemma RunFate(c: Config, ss: seq<State>, es: seq<Event>, i: nat, u: nat)
    requires c.Valid() && Run(c, ss, es) && i < |es|
    ensures Fate(ss[i], es[i], ss[i + 1], u)
  {
    RunInv(c, ss, es, i);
    RunRound(c, ss, es, i, u);
    StepFate(c, ss[i], es[i], ss[i + 1], u);
  }

  ghost predicate Fated(ss: seq<State>, es: seq<Event>, u: nat) {
    |ss| == |es| + 1 && forall k {:trigger es[k]} :: 0 <= k < |es| ==> Fate(ss[k], es[k], ss[k + 1], u)
  }

  lemma RunFated(c: Config, ss: seq<State>, es: seq<Event>, u: nat)
    requires c.Valid() && Run(c, ss, es)
    ensures Fated(ss, es, u)
  {
    forall k | 0 <= k < |es| ensures Fate(ss[k], es[k], ss[k + 1], u) { RunFate(c, ss, es, k, u); }
  }

  // ---- from the refusal on -------------------------------------------------------------------------------

  lemma {:induction false} StillRefusing(ss: seq<State>, es: seq<Event>, i: nat, j: nat, u: nat)
    requires Fated(ss, es, u) && i <= j <= |es| && u in ss[i].apps && Refusing(ss[i].apps[u].pc)
    ensures u in ss[j].apps
    ensures Refusing(ss[j].apps[u].pc) || exists k :: i < k <= j && EscapingAt(ss[k], u)
    decreases j
  {
    if i < j {
      StillRefusing(ss, es, i, j - 1, u);
      var e := es[j - 1];
      assert Fate(ss[j - 1], e, ss[j], u);
    }
  }

  lemma {:induction false} EscapeNeedsInvalid(ss: seq<State>, es: seq<Event>, i: nat, j: nat, u: nat)
    requires Fated(ss, es, u) && i < j <= |es| && !EscapingAt(ss[i], u) && EscapingAt(ss[j], u)
    ensures exists k :: i <= k < j && SawInvalid(ss[k], es[k], u)
    decreases j
  {
    var e := es[j - 1];
    assert Fate(ss[j - 1], e, ss[j], u);
    if !SawInvalid(ss[j - 1], e, u) { EscapeNeedsInvalid(ss, es, i, j - 1, u); }
  }

  lemma {:induction false} LossNeedsCas(ss: seq<State>, es: seq<Event>, i: nat, j: nat, u: nat)
    requires Fated(ss, es, u) && i < j <= |es| && !LostAt(ss[i], u) && LostAt(ss[j], u)
    ensures exists k :: i <= k < j && WonCas(ss[k], es[k], u)
    decreases j
  {
    var e := es[j - 1];
    assert Fate(ss[j - 1], e, ss[j], u);
    if !WonCas(ss[j - 1], e, u) { LossNeedsCas(ss, es, i, j - 1, u); }
  }

  /** The two if-and-only-ifs, for a thread that is at i + 1 neither out nor lost. */
  lemma Fates(ss: seq<State>, es: seq<Event>, i: nat, j: nat, u: nat)
    requires Fated(ss, es, u) && i < j <= |es| && !EscapingAt(ss[i + 1], u) && !LostAt(ss[i + 1], u)
    ensures (exists k :: i < k <= j && EscapingAt(ss[k], u)) <==> (exists k :: i < k < j && SawInvalid(ss[k], es[k], u))
    ensures (exists k :: i < k <= j && LostAt(ss[k], u)) <==> (exists k :: i < k < j && WonCas(ss[k], es[k], u))
  {
    forall k | i < k <= j && EscapingAt(ss[k], u) ensures exists n :: i < n < j && SawInvalid(ss[n], es[n], u) {
      EscapeNeedsInvalid(ss, es, i + 1, k, u);
    }
    forall k | i < k < j && SawInvalid(ss[k], es[k], u) ensures EscapingAt(ss[k + 1], u) {}
    forall k | i < k <= j && LostAt(ss[k], u) ensures exists n :: i < n < j && WonCas(ss[n], es[n], u) {
      LossNeedsCas(ss, es, i + 1, k, u);
    }
    forall k | i < k < j && WonCas(ss[k], es[k], u) ensures LostAt(ss[k + 1], u) {}
  }

  lemma {:induction false} SpinNeedsCause(ss: seq<State>, es: seq<Event>, i: nat, j: nat, u: nat)
    requires Fated(ss, es, u) && i < j <= |es| && !SpinsAt(ss[i], u) && SpinsAt(ss[j], u)
    ensures exists k :: i <= k < j && (RefusedLate(ss[k], es[k], u) || Demotes(ss[k], es[k], u))
    decreases j
  {
    var e := es[j - 1];
    assert Fate(ss[j - 1], e, ss[j], u);
    if !RefusedLate(ss[j - 1], e, u) && !Demotes(ss[j - 1], e, u) { SpinNeedsCause(ss, es, i, j - 1, u); }
  }

  /** A spinning thread only goes round its loop. */
  lemma {:induction false} StillSpins(ss: seq<State>, es: seq<Event>, i: nat, j: nat, u: nat)
    requires Fated(ss, es, u) && i <= j <= |es| && SpinsAt(ss[i], u)
    ensures SpinsAt(ss[j], u) && ss[j].apps[u] == ss[i].apps[u].Go(ss[j].apps[u].pc)
    decreases j
  {
    if i < j {
      StillSpins(ss, es, i, j - 1, u);
      var e := es[j - 1];
      assert Fate(ss[j - 1], e, ss[j], u);
    }
  }

  /** How often thread u takes a turn from event i up to event j. */
  function Turns(es: seq<Event>, i: nat, j: nat, u: nat): nat
    requires i <= j <= |es|
    decreases j
  {
    if i == j then 0 else Turns(es, i, j - 1, u) + Turn(es[j - 1], u)
  }

  lemma {:induction false} FewerTurns(ss: seq<State>, es: seq<Event>, i: nat, j: nat, u: nat)
    requires Fated(ss, es, u) && i <= j <= |es| && Open(ss[i], u)
    requires forall k :: i <= k <= j ==> !Ended(ss[k], u)
    ensures Open(ss[j], u) && TurnsLeft(ss[j], ss[j].apps[u]) + Turns(es, i, j, u) <= TurnsLeft(ss[i], ss[i].apps[u])
    decreases j
  {
    if i < j {
      FewerTurns(ss, es, i, j - 1, u);
      var e := es[j - 1];
      assert Fate(ss[j - 1], e, ss[j], u);
    }
  }

  /** The third if-and-only-if, for a thread that does not spin at i. */
  lemma Spun(ss: seq<State>, es: seq<Event>, i: nat, j: nat, u: nat)
    requires Fated(ss, es, u) && i < j <= |es| && !SpinsAt(ss[i], u)
    ensures (exists k :: i < k <= j && SpinsAt(ss[k], u)) <==>
      (exists k :: i <= k < j && (RefusedLate(ss[k], es[k], u) || Demotes(ss[k], es[k], u)))
  {
    forall k | i < k <= j && SpinsAt(ss[k], u)
      ensures exists n :: i <= n < j && (RefusedLate(ss[n], es[n], u) || Demotes(ss[n], es[n], u))
    {
      SpinNeedsCause(ss, es, i, k, u);
    }
    forall k | i <= k < j && (RefusedLate(ss[k], es[k], u) || Demotes(ss[k], es[k], u)) ensures SpinsAt(ss[k + 1], u) {
      var e := es[k];
      assert Fate(ss[k], e, ss[k + 1], u);
    }
  }

  /** From the refusal on, as long as the thread has not loaded INVALID, it is undoing the eviction or
      evicting again. It gets out exactly by loading INVALID; it waits for its own lock exactly by winning
      the compare-and-swap; and it spins exactly if an agent takes the line to TO_SHARED before the
      EVICT_SHARED is undone. */
  lemma RefusedEvictionHangs(c: Config, ss: seq<State>, es: seq<Event>, i: nat, j: nat, u: nat)
    requires c.Valid() && Run(c, ss, es) && i < j <= |es| && Refuses(ss[i], es[i], u)
    ensures u in ss[j].apps
    ensures Refusing(ss[j].apps[u].pc) || exists k :: i < k <= j && EscapingAt(ss[k], u)
    ensures (exists k :: i < k <= j && EscapingAt(ss[k], u)) <==> (exists k :: i < k < j && SawInvalid(ss[k], es[k], u))
    ensures (exists k :: i < k <= j && LostAt(ss[k], u)) <==> (exists k :: i < k < j && WonCas(ss[k], es[k], u))
    ensures (exists k :: i < k <= j && SpinsAt(ss[k], u)) <==>
      (exists k :: i <= k < j && (RefusedLate(ss[k], es[k], u) || Demotes(ss[k], es[k], u)))
  {
    TakesRefusal(c, ss, es, i, u);
    RunFated(c, ss, es, u);
    StillRefusing(ss, es, i + 1, j, u);
    Fates(ss, es, i, j, u);
    Spun(ss, es, i, j, u);
  }

  /** A thread that is still in its loops can move, and does not take seventeen turns without getting out
      or being lost. */
  lemma RefusalEnds(c: Config, ss: seq<State>, es: seq<Event>, i: nat, j: nat, u: nat)
    requires c.Valid() && Run(c, ss, es) && i < j <= |es| && Refuses(ss[i], es[i], u)
    ensures Open(ss[j], u) ==> forall inp :: AppMove(c, ss[j], u, ss[j].apps[u], inp).Moves?
    ensures Turns(es, i + 1, j, u) >= 17 ==> exists k :: i < k <= j && Ended(ss[k], u)
  {
    TakesRefusal(c, ss, es, i, u);
    RunFated(c, ss, es, u);
    AtMostSeventeen(c, ss, es, i + 1, u);
    OpenMoves(c, ss, es, j, u);
    if forall k :: i < k <= j ==> !Ended(ss[k], u) { FewerTurns(ss, es, i + 1, j, u); }
  }

  /** A state in which thread u is in its loops with turns left and can move. */
  ghost predicate CanMove(c: Config, s: State, u: nat)
    requires c.Valid()
  {
    Open(s, u) ==> TurnsLeft(s, s.apps[u]) >= 1 && forall inp :: AppMove(c, s, u, s.apps[u], inp).Moves?
  }

  lemma OpenTurns(c: Config, s: State, u: nat)
    requires c.Valid() && (Open(s, u) ==> InHand(s, u, s.apps[u]))
    ensures CanMove(c, s, u)
  {
    if Open(s, u) {
      forall inp ensures AppMove(c, s, u, s.apps[u], inp).Moves? && TurnsLeft(s, s.apps[u]) >= 1 { OwnTurn(c, s, u, s.apps[u], inp); }
    }
  }

  lemma OpenMoves(c: Config, ss: seq<State>, es: seq<Event>, j: nat, u: nat)
    requires c.Valid() && Run(c, ss, es) && j <= |es|
    ensures CanMove(c, ss[j], u)
  {
    RunInv(c, ss, es, j);
    RunRound(c, ss, es, j, u);
    if Open(ss[j], u) { OpenInHand(c, ss[j], u); }
    OpenTurns(c, ss[j], u);
  }

  lemma AtMostSeventeen(c: Config, ss: seq<State>, es: seq<Event>, i: nat, u: nat)
    requires c.Valid() && Run(c, ss, es) && i <= |es| && u in ss[i].apps && ss[i].apps[u].pc == Wait(Revert(0))
    ensures TurnsLeft(ss[i], ss[i].apps[u]) <= 17
  {
    RunInv(c, ss, es, i);
    UndoLine(c, ss[i], u);
    FirstTurns(ss[i], ss[i].apps[u]);
  }

  lemma FirstTurns(s: State, a: App)
    requires a.pc == Wait(Revert(0)) && (Evicted(s, a).st == ToPreserved || Evicted(s, a).st == ToShared)
    ensures TurnsLeft(s, a) <= 17
  {}

  /** Both losses are for ever: a thread that waits for its own lock does not change and cannot move, and
      a spinning thread only goes on to its next compare-and-swap, which fails. */
  lemma LostForEver(c: Config, ss: seq<State>, es: seq<Event>, i: nat, j: nat, u: nat)
    requires c.Valid() && Run(c, ss, es) && i <= j <= |es|
    ensures LostAt(ss[i], u) ==>
      u in ss[j].apps && ss[j].apps[u] == ss[i].apps[u] && forall inp :: AppMove(c, ss[j], u, ss[j].apps[u], inp) == Blocked
    ensures SpinsAt(ss[i], u) ==>
      && SpinsAt(ss[j], u) && ss[j].apps[u] == ss[i].apps[u].Go(ss[j].apps[u].pc)
      && forall inp :: AppMove(c, ss[j], u, ss[j].apps[u], inp) == SpinTurn(ss[j].apps[u])
  {
    if LostAt(ss[i], u) { StaysBlocked(c, ss, es, i, j, u); }
    if SpinsAt(ss[i], u) {
      RunFated(c, ss, es, u);
      StillSpins(ss, es, i, j, u);
      RunRound(c, ss, es, j, u);
      forall inp
        ensures AppMove(c, ss[j], u, ss[j].apps[u], inp) == SpinTurn(ss[j].apps[u])
      {
        SpinMove(c, ss[j], u, ss[j].apps[u], inp);
      }
    }
  }

  /** The other compare-and-swap of the round comes next. */
  function SpinTurn(a: App): AppStep
    requires a.pc.Wait? && a.pc.wt.Revert?
  {
    Local(a.Go(Wait(Revert(if a.pc.wt.n == 0 then 1 else 0))))
  }

  lemma SpinMove(c: Config, s: State, u: nat, a: App, inp: Input)
    requires c.Valid() && Spinning(s, a) && RoundOk(a)
    ensures AppMove(c, s, u, a, inp) == SpinTurn(a)
  {}

  lemma TakesRefusal(c: Config, ss: seq<State>, es: seq<Event>, i: nat, u: nat)
    requires c.Valid() && Run(c, ss, es) && i < |es| && Refuses(ss[i], es[i], u)
    ensures u in ss[i + 1].apps && ss[i + 1].apps[u].pc == Wait(Revert(0))
  {
    assert Step(c, ss[i], es[i], ss[i + 1]);
  }
}
