/** What an access to the cache comes to: when it succeeds and returns, what it asks the directory for, and in
    what status the answer leaves the line. */
module CacheAccess {
  import opened Options
  import opened CacheState
  import opened CacheSteps
  import opened CacheInv
  import opened CacheTheorems

  predicate Acts(s: State, ev: Event, u: nat) { ev.ByApp? && ev.u == u && u in s.apps }

  // ---- success ---------------------------------------------------------------------------------------

  /** In this step thread u, under the lock of line p, loads a status that allows its access: MODIFIED, or, as
      the first load of a read, SHARED. */
  predicate Passes(s: State, ev: Event, u: nat) {
    Acts(s, ev, u) && s.apps[u].pc.Touch? &&
    var a := s.apps[u];
    var st := At(s.lines, a.pc.p).st;
    match a.pc.ln
    case Check1 => if a.access == Read then st.Shared? else st.Modified?
    case Check2 => st.Modified?
    case _ => false
  }

  /** The last parts of an access, once it has touched the line or failed to: the next step of the thread that
      leaves them goes back to the look-up or returns. */
  predicate Ending(pc: Pc) { pc.Tail? || pc.Wait? || (pc.Evict? && pc.retry) }

  /** Where the thread may be when a check has passed, and what it then remembers. */
  predicate Result(a: App, passed: bool) {
    if a.pc.Touch? && a.pc.ln.UnlockLine? then a.pc.ln.ok == passed && !a.succ
    else if Ending(a.pc) then a.succ == passed
    else !a.pc.Idle? && !a.pc.Crash? ==> !passed && !a.succ
  }

  /** A thread that has a line in wait_evict evicts it again; else it would not come back there. */
  predicate StartsAgain(a: App) {
    && (a.pc == Evict(EvStart, true) ==> a.evict.startNext)
    && (a.pc.Evict? && a.pc.ev.EvSend? ==> !a.pc.retry)
    && (a.pc.Touch? && a.pc.ln.Check2? ==> a.access == Read)
  }

  lemma StepResult(c: Config, s: State, u: nat, inp: Input, passed: bool)
    requires c.Valid() && u in s.apps && AppMove(c, s, u, s.apps[u], inp).Moves? && !s.apps[u].pc.Idle?
    requires Result(s.apps[u], passed) && StartsAgain(s.apps[u])
    ensures var a, a', now := s.apps[u], AppMove(c, s, u, s.apps[u], inp).a, passed || Passes(s, ByApp(u, inp), u);
      && Result(a', now) && (a'.pc.Idle? ==> now) && a'.access == a.access && a'.t == a.t
      && (passed ==> !Passes(s, ByApp(u, inp), u))
  {
    match s.apps[u].pc
    case Evict(_, _) => EvictResult(s, u, s.apps[u], passed);
    case Find(_) => FindResult(c, s, u, s.apps[u]);
    case New(_) => NewResult(c, s, u, s.apps[u]);
    case Own(_, _, _) => OwnResult(c, s, u, s.apps[u], inp);
    case Touch(_, _, _) => TouchResult(s, u, s.apps[u], inp, passed);
    case Wait(_) => WaitResult(s, u, s.apps[u], inp, passed);
    case _ =>
  }

  predicate Same(a: App, a': App) { a'.access == a.access && a'.t == a.t }

  lemma EvictResult(s: State, u: nat, a: App, passed: bool)
    requires a.pc.Evict? && EvictStep(s, u, a).Moves? && Result(a, passed) && StartsAgain(a)
    ensures var a' := EvictStep(s, u, a).a; Result(a', passed) && !a'.pc.Idle? && Same(a, a')
  {}

  lemma FindResult(c: Config, s: State, u: nat, a: App)
    requires c.Valid() && a.pc.Find? && FindStep(c, s, u, a).Moves? && Result(a, false)
    ensures var a' := FindStep(c, s, u, a).a; Result(a', false) && !a'.pc.Idle? && Same(a, a')
  {}

  lemma NewResult(c: Config, s: State, u: nat, a: App)
    requires c.Valid() && a.pc.New? && NewStep(c, s, u, a).Moves? && Result(a, false)
    ensures var a' := NewStep(c, s, u, a).a; Result(a', false) && !a'.pc.Idle? && Same(a, a')
  {}

  lemma OwnResult(c: Config, s: State, u: nat, a: App, inp: Input)
    requires c.Valid() && a.pc.Own? && OwnStep(c, s, u, a, inp).Moves? && Result(a, false)
    ensures var a' := OwnStep(c, s, u, a, inp).a; Result(a', false) && !a'.pc.Idle? && Same(a, a')
  {}

  lemma TouchResult(s: State, u: nat, a: App, inp: Input, passed: bool)
    requires u in s.apps && s.apps[u] == a && a.pc.Touch? && TouchStep(s, u, a).Moves? && Result(a, passed) && StartsAgain(a)
    ensures var a' := TouchStep(s, u, a).a;
      Result(a', passed || Passes(s, ByApp(u, inp), u)) && !a'.pc.Idle? && Same(a, a') && (passed ==> !Passes(s, ByApp(u, inp), u))
  {}

  lemma WaitResult(s: State, u: nat, a: App, inp: Input, passed: bool)
    requires a.pc.Wait? && WaitStep(s, u, a, inp).Moves? && Result(a, passed)
    ensures var a' := WaitStep(s, u, a, inp).a; Result(a', passed) && (a'.pc.Idle? ==> passed) && Same(a, a')
  {}

  /** Only reads load the status twice. */
  predicate ReadsTwice(a: App) { a.pc.Touch? && a.pc.ln.Check2? ==> a.access == Read }

  lemma SecondCheck(c: Config, s: State, u: nat, a: App, inp: Input)
    requires c.Valid() && AppMove(c, s, u, a, inp).Moves? && ReadsTwice(a)
    ensures ReadsTwice(AppMove(c, s, u, a, inp).a)
  {
    match a.pc
    case Evict(_, _) => EvictChecksNot(s, u, a);
    case Find(_) => FindChecksNot(c, s, u, a);
    case New(_) => NewChecksNot(c, s, u, a);
    case Own(_, _, _) => OwnChecksNot(c, s, u, a, inp);
    case Wait(_) => WaitChecksNot(s, u, a, inp);
    case _ =>
  }

  predicate ChecksNot(r: AppStep) { r.Moves? && r.a.pc.Touch? ==> r.a.pc.ln.LockLine? }

  lemma EvictChecksNot(s: State, u: nat, a: App)
    requires a.pc.Evict?
    ensures ChecksNot(EvictStep(s, u, a))
  {}

  lemma FindChecksNot(c: Config, s: State, u: nat, a: App)
    requires c.Valid() && a.pc.Find?
    ensures ChecksNot(FindStep(c, s, u, a))
  {}

  lemma NewChecksNot(c: Config, s: State, u: nat, a: App)
    requires c.Valid() && a.pc.New?
    ensures ChecksNot(NewStep(c, s, u, a))
  {}

  lemma OwnChecksNot(c: Config, s: State, u: nat, a: App, inp: Input)
    requires c.Valid() && a.pc.Own?
    ensures ChecksNot(OwnStep(c, s, u, a, inp))
  {}

  lemma WaitChecksNot(s: State, u: nat, a: App, inp: Input)
    requires a.pc.Wait?
    ensures ChecksNot(WaitStep(s, u, a, inp))
  {}

  lemma StepReadsTwice(c: Config, s: State, ev: Event, s': State, u: nat)
    requires c.Valid() && Step(c, s, ev, s') && (u in s.apps ==> ReadsTwice(s.apps[u]))
    ensures u in s'.apps ==> ReadsTwice(s'.apps[u])
  {
    if ev.ByApp? && ev.u == u { SecondCheck(c, s, u, s.apps[u], ev.inp); }
  }

  lemma {:induction false} RunReadsTwice(c: Config, ss: seq<State>, es: seq<Event>, i: nat, u: nat)
    requires c.Valid() && Run(c, ss, es) && i <= |es|
    ensures u in ss[i].apps ==> ReadsTwice(ss[i].apps[u])
    decreases i
  {
    if i > 0 {
      RunReadsTwice(c, ss, es, i - 1, u);
      StepReadsTwice(c, ss[i - 1], es[i - 1], ss[i - 1 + 1], u);
    }
  }

  lemma RunStartsAgain(c: Config, ss: seq<State>, es: seq<Event>, i: nat, u: nat)
    requires c.Valid() && Run(c, ss, es) && i <= |es| && u in ss[i].apps
    ensures StartsAgain(ss[i].apps[u])
  {
    RunInv(c, ss, es, i);
    RunReadsTwice(c, ss, es, i, u);
    assert AppOk(c, ss[i].lines, ss[i].locks, u, ss[i].apps[u]);
  }

  /** Thread u begins an access in step i and has not returned in state j. */
  ghost predicate Inside(ss: seq<State>, es: seq<Event>, i: nat, j: nat, u: nat) {
    && |ss| == |es| + 1 && i < j <= |es| && Acts(ss[i], es[i], u) && ss[i].apps[u].pc.Idle?
    && forall k :: i < k <= j ==> u in ss[k].apps && !ss[k].apps[u].pc.Idle?
  }

  /** A check has passed between i and j. */
  ghost predicate Passed(ss: seq<State>, es: seq<Event>, i: nat, j: nat, u: nat)
    requires j <= |es| < |ss|
  {
    exists k :: i < k < j && Passes(ss[k], es[k], u)
  }

  lemma CallIs(c: Config, s: State, ev: Event, s': State, u: nat)
    requires c.Valid() && Step(c, s, ev, s') && Acts(s, ev, u) && s.apps[u].pc.Idle?
    ensures ev.inp.Call? && u in s'.apps && Result(s'.apps[u], false)
    ensures s'.apps[u].access == ev.inp.access && s'.apps[u].t == ev.inp.tag
  {}

  /** What a step does to a thread inside its access. */
  predicate AccessFate(s: State, ev: Event, s': State, u: nat) {
    u in s.apps && !s.apps[u].pc.Idle? ==>
      && u in s'.apps
      && (Result(s.apps[u], true) ==> Result(s'.apps[u], true) && Same(s.apps[u], s'.apps[u]) && !Passes(s, ev, u))
      && (Result(s.apps[u], false) ==> Result(s'.apps[u], Passes(s, ev, u)) && Same(s.apps[u], s'.apps[u]))
      && (Acts(s, ev, u) && s'.apps[u].pc.Idle? && Result(s.apps[u], false) ==> Passes(s, ev, u))
  }

  lemma StepAccess(c: Config, s: State, ev: Event, s': State, u: nat)
    requires c.Valid() && Step(c, s, ev, s') && (u in s.apps ==> StartsAgain(s.apps[u]))
    ensures AccessFate(s, ev, s', u)
  {
    if Acts(s, ev, u) && !s.apps[u].pc.Idle? {
      if Result(s.apps[u], true) { StepResult(c, s, u, ev.inp, true); }
      if Result(s.apps[u], false) { StepResult(c, s, u, ev.inp, false); }
    }
  }

  ghost predicate Fated(ss: seq<State>, es: seq<Event>, u: nat) {
    |ss| == |es| + 1 && forall k {:trigger es[k]} :: 0 <= k < |es| ==> AccessFate(ss[k], es[k], ss[k + 1], u)
  }

  lemma RunFated(c: Config, ss: seq<State>, es: seq<Event>, u: nat)
    requires c.Valid() && Run(c, ss, es)
    ensures Fated(ss, es, u)
  {
    forall k | 0 <= k < |es| ensures AccessFate(ss[k], es[k], ss[k + 1], u) {
      if u in ss[k].apps { RunStartsAgain(c, ss, es, k, u); }
      StepAccess(c, ss[k], es[k], ss[k + 1], u);
    }
  }

  lemma {:induction false} InsideIs(ss: seq<State>, es: seq<Event>, i: nat, j: nat, u: nat)
    requires Fated(ss, es, u) && Inside(ss, es, i, j, u) && Result(ss[i + 1].apps[u], false)
    ensures Result(ss[j].apps[u], Passed(ss, es, i, j, u)) && Same(ss[i + 1].apps[u], ss[j].apps[u])
    decreases j
  {
    if j > i + 1 {
      InsideIs(ss, es, i, j - 1, u);
      var e := es[j - 1];
      assert AccessFate(ss[j - 1], e, ss[j], u);
      PassedNext(ss, es, i, j, u);
    }
  }

  lemma PassedNext(ss: seq<State>, es: seq<Event>, i: nat, j: nat, u: nat)
    requires i + 1 < j <= |es| < |ss|
    ensures Passed(ss, es, i, j, u) <==> Passed(ss, es, i, j - 1, u) || Passes(ss[j - 1], es[j - 1], u)
  {}

  /** readLine and writeLine return only after a check has passed: under the line's lock the status was MODIFIED,
      or SHARED for a read. Once a check has passed they do not look the tag up again, and check no other line. */
  lemma ReturnsExactly(c: Config, ss: seq<State>, es: seq<Event>, i: nat, j: nat, u: nat)
    requires c.Valid() && Run(c, ss, es) && j < |es| && Inside(ss, es, i, j, u)
    ensures es[i].inp.Call? && ss[j].apps[u].access == es[i].inp.access && ss[j].apps[u].t == es[i].inp.tag
    ensures Acts(ss[j], es[j], u) && u in ss[j + 1].apps && ss[j + 1].apps[u].pc.Idle? ==> Passed(ss, es, i, j, u)
    ensures Passed(ss, es, i, j, u) ==>
      var pc := ss[j].apps[u].pc; Ending(pc) || pc.Crash? || (pc.Touch? && pc.ln == UnlockLine(true))
    ensures Ending(ss[j].apps[u].pc) ==> (ss[j].apps[u].succ <==> Passed(ss, es, i, j, u))
    ensures Passed(ss, es, i, j, u) ==> !Passes(ss[j], es[j], u)
  {
    assert Step(c, ss[i], es[i], ss[i + 1]);
    CallIs(c, ss[i], es[i], ss[i + 1], u);
    RunFated(c, ss, es, u);
    InsideIs(ss, es, i, j, u);
    var e := es[j];
    assert AccessFate(ss[j], e, ss[j + 1], u);
  }
}
