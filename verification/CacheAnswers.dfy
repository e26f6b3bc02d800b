/** What the answer to an eviction makes of the line: given back, or as it was before. */
module CacheAnswers {
  import opened Options
  import opened CacheState
  import opened CacheSteps
  import opened CacheInv
  import opened CacheTheorems
  import opened CacheAccess

  /** The answer that thread u takes in wait_evict in this step, from the stash or from the directory. */
  predicate TakesAnswer(s: State, ev: Event, u: nat, m: Msg) {
    && Acts(s, ev, u) && s.apps[u].pc == Wait(WRecv)
    && if s.apps[u].evict.stash.Some? then m == s.apps[u].evict.stash.value else ev.inp.Recv? && m == ev.inp.msg
  }

  function Cur(s: State, u: nat): Line
    requires u in s.apps
  {
    At(s.lines, DefaultSlot(s.apps[u].evict.cur))
  }

  lemma GivesBackStep(c: Config, s: State, u: nat, inp: Input)
    requires c.Valid() && u in s.apps && AppMove(c, s, u, s.apps[u], inp).Moves?
    ensures AppMove(c, s, u, s.apps[u], inp).a.pc == Wait(WRecycle) ==>
      || (exists m :: TakesAnswer(s, ByApp(u, inp), u, m) && m.tag == Cur(s, u).tag && (m.mtype.EvictDirtyAck? || m.mtype.EvictSharedAck?))
      || (s.apps[u].pc == Wait(WSpin) && Cur(s, u).flag)
    ensures AppMove(c, s, u, s.apps[u], inp).a.pc == Wait(WSpin) ==>
      || (exists m :: TakesAnswer(s, ByApp(u, inp), u, m) && m.tag == Cur(s, u).tag && m.mtype.BitmapCheckFail?)
      || (s.apps[u].pc == Wait(WSpin) && !Cur(s, u).flag)
  {
    match s.apps[u].pc
    case Evict(_, _) => EvictNotBack(s, u, s.apps[u]);
    case Find(_) => FindNotBack(c, s, u, s.apps[u]);
    case New(_) => NewNotBack(c, s, u, s.apps[u]);
    case Own(_, _, _) => OwnNotBack(c, s, u, s.apps[u], inp);
    case Wait(_) => WaitBack(s, u, s.apps[u], inp);
    case _ =>
  }

  predicate NotBack(r: AppStep) { r.Moves? ==> r.a.pc != Wait(WRecycle) && r.a.pc != Wait(WSpin) }

  lemma EvictNotBack(s: State, u: nat, a: App)
    requires a.pc.Evict?
    ensures NotBack(EvictStep(s, u, a))
  {}

  lemma FindNotBack(c: Config, s: State, u: nat, a: App)
    requires c.Valid() && a.pc.Find?
    ensures NotBack(FindStep(c, s, u, a))
  {}

  lemma NewNotBack(c: Config, s: State, u: nat, a: App)
    requires c.Valid() && a.pc.New?
    ensures NotBack(NewStep(c, s, u, a))
  {}

  lemma OwnNotBack(c: Config, s: State, u: nat, a: App, inp: Input)
    requires c.Valid() && a.pc.Own?
    ensures NotBack(OwnStep(c, s, u, a, inp))
  {}

  lemma WaitBack(s: State, u: nat, a: App, inp: Input)
    requires u in s.apps && s.apps[u] == a && a.pc.Wait? && WaitStep(s, u, a, inp).Moves?
    ensures var pc' := WaitStep(s, u, a, inp).a.pc;
      && (pc' == Wait(WRecycle) ==>
            || (exists m :: TakesAnswer(s, ByApp(u, inp), u, m) && m.tag == Cur(s, u).tag && (m.mtype.EvictDirtyAck? || m.mtype.EvictSharedAck?))
            || (a.pc == Wait(WSpin) && Cur(s, u).flag))
      && (pc' == Wait(WSpin) ==>
            || (exists m :: TakesAnswer(s, ByApp(u, inp), u, m) && m.tag == Cur(s, u).tag && m.mtype.BitmapCheckFail?)
            || (a.pc == Wait(WSpin) && !Cur(s, u).flag))
  {
    if a.pc == Wait(WRecv) {
      var m := if a.evict.stash.Some? then a.evict.stash.value else inp.msg;
      assert TakesAnswer(s, ByApp(u, inp), u, m);
    }
  }

  /** A thread gives the buffer of an evicted line back only after an acknowledgement for that line, or after a failed
      check of the bitmap once it has seen the flag that an agent raised. */
  lemma GivesBackOnly(c: Config, ss: seq<State>, es: seq<Event>, i: nat, u: nat)
    requires c.Valid() && Run(c, ss, es) && i < |es| && Acts(ss[i], es[i], u) && u in ss[i + 1].apps
    ensures ss[i + 1].apps[u].pc == Wait(WRecycle) ==>
      || (exists m :: TakesAnswer(ss[i], es[i], u, m) && m.tag == Cur(ss[i], u).tag && (m.mtype.EvictDirtyAck? || m.mtype.EvictSharedAck?))
      || (ss[i].apps[u].pc == Wait(WSpin) && Cur(ss[i], u).flag)
    ensures ss[i + 1].apps[u].pc == Wait(WSpin) ==>
      || (exists m :: TakesAnswer(ss[i], es[i], u, m) && m.tag == Cur(ss[i], u).tag && m.mtype.BitmapCheckFail?)
      || (ss[i].apps[u].pc == Wait(WSpin) && !Cur(ss[i], u).flag)
  {
    assert Step(c, ss[i], es[i], ss[i + 1]);
    GivesBackStep(c, ss[i], u, es[i].inp);
  }

  /** An answer fails an assertion exactly if it is for another line or of a type that no eviction is answered with; it
      begins the undoing exactly if it is a refusal for that line; and the stash is then empty. */
  lemma AnswerLeads(c: Config, ss: seq<State>, es: seq<Event>, i: nat, u: nat, m: Msg)
    requires c.Valid() && Run(c, ss, es) && i < |es| && TakesAnswer(ss[i], es[i], u, m)
    ensures u in ss[i + 1].apps && ss[i + 1].apps[u].evict.stash == None && ss[i + 1].lines == ss[i].lines
    ensures var pc, mine := ss[i + 1].apps[u].pc, m.tag == Cur(ss[i], u).tag;
      && (pc.Crash? <==> !mine || m.mtype !in {EvictDirtyAck, EvictSharedAck, MCheckFail, BitmapCheckFail})
      && (!pc.Crash? <==> pc.Wait?) && (pc.Wait? && pc.wt.Revert? <==> mine && m.mtype.MCheckFail?)
  {
    assert Step(c, ss[i], es[i], ss[i + 1]);
  }

  // ---- a refused eviction is undone ------------------------------------------------------------------

  /** The status that a line has again when its eviction is undone: INVALID if an agent raised the flag, SHARED if it
      took the line to TO_SHARED, and otherwise the status that the line was evicted in. */
  function Before(l: Line): Status {
    if l.flag then Invalid else if l.st.ToShared? then Shared else if l.dirty then Modified else Shared
  }

  lemma UndoStep(c: Config, s: State, u: nat, inp: Input)
    requires c.Valid() && u in s.apps && EvOk(s.lines, u, s.apps[u]) && s.apps[u].pc.Wait? && s.apps[u].pc.wt.Revert?
    requires WaitStep(s, u, s.apps[u], inp).Moves? && !(WaitStep(s, u, s.apps[u], inp).a.pc.Wait?)
    ensures var a, r := s.apps[u], WaitStep(s, u, s.apps[u], inp);
      && r.a == a.(evict := a.evict.(startNext := true, next := a.evict.cur), pc := Evict(EvStart, true))
      && At(Apply(s, r.e).lines, DefaultSlot(a.evict.cur)) == Cur(s, u).Set(false, Before(Cur(s, u)))
  {}

  /** When a refused eviction is undone, the line has again the status that it was evicted in, as far as no agent has
      asked for it meanwhile, and its eviction is started again. */
  lemma UndoRestores(c: Config, ss: seq<State>, es: seq<Event>, i: nat, u: nat)
    requires c.Valid() && Run(c, ss, es) && i < |es| && Acts(ss[i], es[i], u) && u in ss[i + 1].apps
    requires ss[i].apps[u].pc.Wait? && ss[i].apps[u].pc.wt.Revert? && !ss[i + 1].apps[u].pc.Wait?
    ensures ss[i + 1].apps[u].pc == Evict(EvStart, true) && ss[i + 1].apps[u].evict.next == ss[i].apps[u].evict.cur
    ensures At(ss[i + 1].lines, DefaultSlot(ss[i].apps[u].evict.cur)) == Cur(ss[i], u).Set(false, Before(Cur(ss[i], u)))
  {
    RunInv(c, ss, es, i);
    assert Step(c, ss[i], es[i], ss[i + 1]);
    assert AppOk(c, ss[i].lines, ss[i].locks, u, ss[i].apps[u]);
    UndoStep(c, ss[i], u, es[i].inp);
  }

  lemma EvictStepIs(c: Config, s: State, u: nat, p: Slot)
    requires c.Valid() && u in s.apps && EvOk(s.lines, u, s.apps[u]) && s.apps[u].pc.Evict? && EvictStep(s, u, s.apps[u]).Moves?
    requires At(s.lines, p).st != ToPreserved && At(Apply(s, EvictStep(s, u, s.apps[u]).e).lines, p).st == ToPreserved
    ensures var l, l' := At(s.lines, p), At(Apply(s, EvictStep(s, u, s.apps[u]).e).lines, p);
      (l.st.Shared? || l.st.Modified?) && l' == l.(st := ToPreserved, dirty := l.st.Modified?) && s.apps[u].evict.cur == Some(p)
  {}

  /** A line is evicted from SHARED or MODIFIED, which it remembers, by the thread whose shadow line it is; and the
      message that the thread has then sent says which. */
  lemma EvictsAs(c: Config, ss: seq<State>, es: seq<Event>, i: nat, u: nat, p: Slot)
    requires c.Valid() && Run(c, ss, es) && i < |es| && Acts(ss[i], es[i], u) && ss[i].apps[u].pc.Evict?
    requires At(ss[i].lines, p).st != ToPreserved && At(ss[i + 1].lines, p).st == ToPreserved
    ensures var l, l' := At(ss[i].lines, p), At(ss[i + 1].lines, p);
      && p.shadow && l.owner == Some(u) && (l.st.Shared? || l.st.Modified?) && l' == l.(st := ToPreserved, dirty := l.st.Modified?)
  {
    RunInv(c, ss, es, i);
    assert Step(c, ss[i], es[i], ss[i + 1]);
    assert AppOk(c, ss[i].lines, ss[i].locks, u, ss[i].apps[u]);
    EvictStepIs(c, ss[i], u, p);
  }

  /** While the answer is outstanding the thread knows whether it has evicted the line as MODIFIED. */
  lemma KnowsKind(c: Config, ss: seq<State>, es: seq<Event>, i: nat, u: nat)
    requires c.Valid() && Run(c, ss, es) && i <= |es| && u in ss[i].apps && Pending(ss[i].apps[u])
    ensures Cur(ss[i], u).st == ToPreserved ==> ss[i].apps[u].evict.evDirty == Cur(ss[i], u).dirty
  {
    RunInv(c, ss, es, i);
    assert AppOk(c, ss[i].lines, ss[i].locks, u, ss[i].apps[u]);
  }
}
