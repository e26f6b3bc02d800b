/** The look-up of a tag under the set's read lock: what it comes to, while other threads and agents go on changing
    the set's lines. */
module CacheLookup {
  import opened Options
  import opened CacheState
  import opened CacheSteps
  import opened CacheInv
  import opened CacheTheorems
  import opened CacheAccess
  import opened CacheRounds

  /** No main (shadow) line among the first n ways of the set holds t. */
  ghost predicate Nowhere(lines: Lines, shadow: bool, home: nat, t: Tag, n: nat) {
    forall j :: 0 <= j < n ==> !At(lines, Slot(shadow, home, j)).Holds(t)
  }

  /** What a thread knows of the set at each place of its look-up. */
  ghost predicate Knows(c: Config, lines: Lines, a: App, fd: FindPc)
    requires c.Valid()
  {
    var home := c.home(a.t);
    match fd
    case FindMain(i) => Nowhere(lines, false, home, a.t, i)
    case FindShadow(i, m) => (m.None? ==> Nowhere(lines, false, home, a.t, c.width)) && Nowhere(lines, true, home, a.t, i)
    case Decide(m, sh) =>
      && (m.None? ==> Nowhere(lines, false, home, a.t, c.width)) && (sh.None? ==> Nowhere(lines, true, home, a.t, c.width))
      && (sh.Some? ==> sh.value < c.width && At(lines, Slot(true, home, sh.value)).tag == a.t)
    case RUnlockSet(next) => Found(c, lines, a, next)
    case _ => true
  }

  /** What a thread has found when it leaves the look-up. */
  ghost predicate Found(c: Config, lines: Lines, a: App, next: Then)
    requires c.Valid()
  {
    var home := c.home(a.t);
    match next
    case ToNew => Nowhere(lines, false, home, a.t, c.width) && Nowhere(lines, true, home, a.t, c.width)
    case ToTail =>
      && Nowhere(lines, false, home, a.t, c.width) && a.evict.wait && a.evict.cur.Some?
      && a.evict.cur.value.set_ == home && At(lines, a.evict.cur.value).tag == a.t
    case ToHit(p) =>
      && p.set_ == home && p.way < c.width && At(lines, p).tag == a.t
      && if p.shadow then Nowhere(lines, false, home, a.t, c.width) else At(lines, p).Used()
    case ToCrash => true
  }

  // ---- steps of the thread itself ----------------------------------------------------------------------

  /** The line whose eviction the thread awaits is in the set of its tag. */
  predicate CurAtHome(c: Config, lines: Lines, a: App)
    requires c.Valid()
  {
    a.evict.wait ==> a.evict.cur.Some? && a.evict.cur.value.set_ == c.home(At(lines, a.evict.cur.value).tag)
  }

  lemma FindKnows(c: Config, s: State, u: nat, a: App)
    requires c.Valid() && a.pc.Find? && FindStep(c, s, u, a).Moves?
    requires Knows(c, s.lines, a, a.pc.fd) && FindOk(c, s.lines, a.t, a.pc.fd) && CurAtHome(c, s.lines, a)
    ensures var r := FindStep(c, s, u, a); r.a.pc.Find? ==> Knows(c, Apply(s, r.e).lines, r.a, r.a.pc.fd)
  {}

  predicate FindsNothing(r: AppStep) { r.Moves? && r.a.pc.Find? ==> r.a.pc.fd == RLockSet }

  lemma MoveKnows(c: Config, s: State, u: nat, a: App, inp: Input)
    requires c.Valid() && AppMove(c, s, u, a, inp).Moves? && !a.pc.Find?
    ensures FindsNothing(AppMove(c, s, u, a, inp))
  {
    match a.pc
    case New(_) => NewKnows(c, s, u, a);
    case Own(_, _, _) => OwnKnows(c, s, u, a, inp);
    case Wait(_) => WaitKnows(s, u, a, inp);
    case _ =>
  }

  lemma NewKnows(c: Config, s: State, u: nat, a: App)
    requires c.Valid() && a.pc.New?
    ensures FindsNothing(NewStep(c, s, u, a))
  {}

  lemma OwnKnows(c: Config, s: State, u: nat, a: App, inp: Input)
    requires c.Valid() && a.pc.Own?
    ensures FindsNothing(OwnStep(c, s, u, a, inp))
  {}

  lemma WaitKnows(s: State, u: nat, a: App, inp: Input)
    requires a.pc.Wait?
    ensures FindsNothing(WaitStep(s, u, a, inp))
  {}

  // ---- steps of others -----------------------------------------------------------------------------------

  /** The line keeps its tag, and does not come into use; a main line does not go out of use either. */
  predicate Kept(shadow: bool, l: Line, l': Line) {
    l'.tag == l.tag && (l'.Used() ==> l.Used()) && (!shadow && l.Used() ==> l'.Used())
  }

  predicate KeepsLine(s: State, e: Effect) { e.wr.Some? ==> Kept(e.wr.value.0.shadow, At(s.lines, e.wr.value.0), e.wr.value.1) }

  lemma EvictKeepsLine(s: State, u: nat, a: App)
    requires a.pc.Evict? && EvictStep(s, u, a).Moves? && EvOk(s.lines, u, a)
    ensures KeepsLine(s, EvictStep(s, u, a).e)
  {}

  lemma FindKeepsLine(c: Config, s: State, u: nat, a: App)
    requires c.Valid() && a.pc.Find? && FindStep(c, s, u, a).Moves?
    ensures KeepsLine(s, FindStep(c, s, u, a).e)
  {}

  lemma OwnKeepsLine(c: Config, s: State, u: nat, a: App, inp: Input)
    requires c.Valid() && a.pc.Own? && OwnStep(c, s, u, a, inp).Moves?
    ensures KeepsLine(s, OwnStep(c, s, u, a, inp).e)
  {}

  lemma TouchKeepsLine(s: State, u: nat, a: App)
    requires a.pc.Touch? && TouchStep(s, u, a).Moves?
    ensures KeepsLine(s, TouchStep(s, u, a).e)
  {}

  lemma WaitKeepsLine(s: State, u: nat, a: App, inp: Input)
    requires a.pc.Wait? && WaitStep(s, u, a, inp).Moves? && EvOk(s.lines, u, a)
    ensures KeepsLine(s, WaitStep(s, u, a, inp).e)
  {}

  lemma AgentKeepsLine(c: Config, s: State, v: nat, g: Agent, inp: Input)
    requires c.Valid() && AgentMove(c, s, v, g, inp).AgentMoves?
    ensures KeepsLine(s, AgentMove(c, s, v, g, inp).ge)
  {}

  /** newLine writes lines of its own set only, and holds the set's write lock then. */
  lemma NewWrites(c: Config, s: State, u: nat, a: App)
    requires c.Valid() && a.pc.New? && NewStep(c, s, u, a).Moves?
    ensures var e := NewStep(c, s, u, a).e; e.wr.Some? ==> HoldsWrite(a.pc) && e.wr.value.0.set_ == c.home(a.t)
  {}

  lemma MoveKeepsLine(c: Config, s: State, u: nat, a: App, inp: Input, home: nat)
    requires c.Valid() && AppMove(c, s, u, a, inp).Moves? && EvOk(s.lines, u, a)
    requires HoldsWrite(a.pc) ==> c.home(a.t) != home
    ensures var e := AppMove(c, s, u, a, inp).e; e.wr.Some? && e.wr.value.0.set_ == home ==> KeepsLine(s, e)
  {
    match a.pc
    case Evict(_, _) => EvictKeepsLine(s, u, a);
    case Find(_) => FindKeepsLine(c, s, u, a);
    case New(_) => NewWrites(c, s, u, a);
    case Own(_, _, _) => OwnKeepsLine(c, s, u, a, inp);
    case Touch(_, _, _) => TouchKeepsLine(s, u, a);
    case Wait(_) => WaitKeepsLine(s, u, a, inp);
    case _ =>
  }

  ghost predicate SetKept(lines: Lines, lines': Lines, home: nat) {
    forall p: Slot :: p.set_ == home ==> Kept(p.shadow, At(lines, p), At(lines', p))
  }

  lemma KnowsKept(c: Config, lines: Lines, lines': Lines, a: App, fd: FindPc)
    requires c.Valid() && Knows(c, lines, a, fd) && SetKept(lines, lines', c.home(a.t))
    ensures Knows(c, lines', a, fd)
  {}

  /** While a thread reads the set, nobody else writes it. */
  lemma NobodyWrites(c: Config, s: State, u: nat, v: nat)
    requires c.Valid() && u in s.apps && v in s.apps && HoldsRead(s.apps[u].pc) && HoldsWrite(s.apps[v].pc)
    requires LocksHeld(c, s.locks, u, s.apps[u]) && LocksHeld(c, s.locks, v, s.apps[v]) && LocksInv(s)
    ensures c.home(s.apps[v].t) != c.home(s.apps[u].t)
  {
    assert LockOk(LockOf(s.locks, c.home(s.apps[u].t)));
  }

  lemma OtherSetKept(c: Config, s: State, ev: Event, s': State, u: nat)
    requires c.Valid() && Inv(c, s) && Step(c, s, ev, s') && u in s.apps && HoldsRead(s.apps[u].pc) && !Acts(s, ev, u)
    ensures SetKept(s.lines, s'.lines, c.home(s.apps[u].t))
  {
    if ev.ByApp? {
      assert AppOk(c, s.lines, s.locks, u, s.apps[u]) && AppOk(c, s.lines, s.locks, ev.u, s.apps[ev.u]);
      if HoldsWrite(s.apps[ev.u].pc) { NobodyWrites(c, s, u, ev.u); }
      MoveKeepsLine(c, s, ev.u, s.apps[ev.u], ev.inp, c.home(s.apps[u].t));
    } else {
      AgentKeepsLine(c, s, ev.v, s.agents[ev.v], ev.inp);
    }
  }

  // ---- runs ----------------------------------------------------------------------------------------------

  ghost predicate LooksRight(c: Config, s: State, u: nat)
    requires c.Valid()
  {
    u in s.apps && s.apps[u].pc.Find? ==> Knows(c, s.lines, s.apps[u], s.apps[u].pc.fd)
  }

  lemma CurHome(c: Config, s: State, u: nat)
    requires c.Valid() && LinesInv(c, s) && u in s.apps && s.apps[u].pc.Find? && EvOk(s.lines, u, s.apps[u])
    ensures CurAtHome(c, s.lines, s.apps[u])
  {
    var p := DefaultSlot(s.apps[u].evict.cur);
    assert LineOk(c, p, At(s.lines, p));
  }

  lemma ActLooks(c: Config, s: State, ev: Event, s': State, u: nat)
    requires c.Valid() && Inv(c, s) && Step(c, s, ev, s') && Acts(s, ev, u) && LooksRight(c, s, u)
    ensures LooksRight(c, s', u)
  {
    assert AppOk(c, s.lines, s.locks, u, s.apps[u]);
    if s.apps[u].pc.Find? {
      CurHome(c, s, u);
      FindKnows(c, s, u, s.apps[u]);
    } else {
      MoveKnows(c, s, u, s.apps[u], ev.inp);
    }
  }

  lemma OtherLooks(c: Config, s: State, ev: Event, s': State, u: nat)
    requires c.Valid() && Inv(c, s) && Step(c, s, ev, s') && !Acts(s, ev, u) && LooksRight(c, s, u)
    ensures LooksRight(c, s', u)
  {
    SameApp(c, s, ev, s', u);
    if u in s.apps && s.apps[u].pc.Find? && !s.apps[u].pc.fd.RLockSet? {
      OtherSetKept(c, s, ev, s', u);
      KnowsKept(c, s.lines, s'.lines, s.apps[u], s.apps[u].pc.fd);
    }
  }

  lemma SameApp(c: Config, s: State, ev: Event, s': State, u: nat)
    requires c.Valid() && Step(c, s, ev, s') && !Acts(s, ev, u)
    ensures (u in s'.apps <==> u in s.apps) && (u in s.apps ==> s'.apps[u] == s.apps[u])
  {}

  lemma {:induction false} RunLooks(c: Config, ss: seq<State>, es: seq<Event>, i: nat, u: nat)
    requires c.Valid() && Run(c, ss, es) && i <= |es|
    ensures LooksRight(c, ss[i], u)
    decreases i
  {
    if i > 0 {
      RunInv(c, ss, es, i - 1);
      RunLooks(c, ss, es, i - 1, u);
      NextLooks(c, ss[i - 1], es[i - 1], ss[i - 1 + 1], u);
    }
  }

  lemma NextLooks(c: Config, s: State, ev: Event, s': State, u: nat)
    requires c.Valid() && Inv(c, s) && Step(c, s, ev, s') && LooksRight(c, s, u)
    ensures LooksRight(c, s', u)
  {
    if Acts(s, ev, u) { ActLooks(c, s, ev, s', u); } else { OtherLooks(c, s, ev, s', u); }
  }

  /** Where the look-up leads thread a. */
  ghost predicate LeadsTo(c: Config, lines: Lines, a: App, pc: Pc)
    requires c.Valid()
  {
    match pc
    case New(_) => Found(c, lines, a, ToNew)
    case Tail(_) => Found(c, lines, a, ToTail)
    case Touch(p, hit, _) => hit && Found(c, lines, a, ToHit(p))
    case Own(p, _, _) => !p.shadow && p.set_ == c.home(a.t) && At(lines, p).Holds(a.t)
    case _ => false
  }

  lemma LeavesLookup(c: Config, s: State, u: nat, a: App)
    requires c.Valid() && a.pc.Find? && FindStep(c, s, u, a).Moves? && !FindStep(c, s, u, a).a.pc.Find?
    requires Knows(c, s.lines, a, a.pc.fd) && FindOk(c, s.lines, a.t, a.pc.fd)
    ensures LeadsTo(c, s.lines, a, FindStep(c, s, u, a).a.pc)
  {}

  /** The look-up goes to newLine only if no line of the set holds the tag. It goes to a main line, to own it or to
      touch it, only if that line holds the tag; to a shadow line only if no main line does and that line has the
      tag; and straight to the end of the round only if no main line does and the tag is the one that the thread
      is evicting. So a tag in a main line is always found there, and one in a shadow line is never filled anew. */
  lemma FindsExactly(c: Config, ss: seq<State>, es: seq<Event>, i: nat, u: nat)
    requires c.Valid() && Run(c, ss, es) && i < |es| && Acts(ss[i], es[i], u) && ss[i].apps[u].pc.Find?
    ensures u in ss[i + 1].apps
    ensures ss[i + 1].apps[u].pc.Find? || LeadsTo(c, ss[i].lines, ss[i].apps[u], ss[i + 1].apps[u].pc)
  {
    RunInv(c, ss, es, i);
    RunLooks(c, ss, es, i, u);
    assert Step(c, ss[i], es[i], ss[i + 1]);
    LeavesStep(c, ss[i], es[i], ss[i + 1], u);
  }

  lemma LeavesStep(c: Config, s: State, ev: Event, s': State, u: nat)
    requires c.Valid() && Inv(c, s) && Step(c, s, ev, s') && Acts(s, ev, u) && s.apps[u].pc.Find? && LooksRight(c, s, u)
    ensures u in s'.apps && (s'.apps[u].pc.Find? || LeadsTo(c, s.lines, s.apps[u], s'.apps[u].pc))
  {
    assert AppOk(c, s.lines, s.locks, u, s.apps[u]);
    if !FindStep(c, s, u, s.apps[u]).a.pc.Find? { LeavesLookup(c, s, u, s.apps[u]); }
  }
}
