/** The locks of the lines: who holds one while it touches the bytes, who is kept out, and what else a thread can be
    waiting for. */
module CacheTouch {
  import opened Options
  import opened CacheState
  import opened CacheSteps
  import opened CacheInv
  import opened CacheTheorems
  import opened CacheAccess

  /** A read, and any access to a shadow line, shares the line's lock. */
  predicate Shares(a: App)
    requires a.pc.Touch?
  {
    a.access == Read || a.pc.p.shadow
  }

  /** Between taking the lock of line p and giving it back. */
  predicate Touching(a: App, p: Slot) { a.pc.Touch? && a.pc.p == p && !a.pc.ln.LockLine? }

  predicate LockSound(k: RW) { k.writer.Some? ==> k.readers == {} }

  /** A thread that touches a line holds its lock: as a reader if it shares it, else as the writer. */
  predicate Held(lines: Lines, u: nat, a: App) {
    a.pc.Touch? && !a.pc.ln.LockLine? ==>
      var k := At(lines, a.pc.p).lock;
      if Shares(a) then AppId(u) in k.readers else k.writer == Some(AppId(u))
  }

  // ---- one step -------------------------------------------------------------------------------------

  /** What a step of thread u may do to the lock of a line. */
  predicate LockMove(u: nat, k: RW, k': RW) {
    || k' == k
    || (k.writer.None? && k' == RW(None, k.readers + {AppId(u)}))
    || (k == FREE && k' == RW(Some(AppId(u)), {}))
    || k' == RW(k.writer, k.readers - {AppId(u)})
    || (k.writer == Some(AppId(u)) && k' == FREE)
  }

  predicate MovesLock(s: State, u: nat, e: Effect) { e.wr.Some? ==> LockMove(u, At(s.lines, e.wr.value.0).lock, e.wr.value.1.lock) }

  predicate KeepsLock(s: State, e: Effect) { e.wr.Some? ==> e.wr.value.1.lock == At(s.lines, e.wr.value.0).lock }

  lemma EvictLocks(s: State, u: nat, a: App)
    requires a.pc.Evict? && EvictStep(s, u, a).Moves?
    ensures MovesLock(s, u, EvictStep(s, u, a).e) && !EvictStep(s, u, a).a.pc.Touch?
  {}

  /** A thread comes to a line from outside before its lock. */
  predicate ComesIn(a: App) { a.pc.Touch? ==> a.pc.ln.LockLine? }

  lemma FindLocks(c: Config, s: State, u: nat, a: App)
    requires c.Valid() && a.pc.Find? && FindStep(c, s, u, a).Moves?
    ensures KeepsLock(s, FindStep(c, s, u, a).e) && ComesIn(FindStep(c, s, u, a).a)
  {}

  lemma NewLocks(c: Config, s: State, u: nat, a: App)
    requires c.Valid() && a.pc.New? && NewStep(c, s, u, a).Moves?
    ensures KeepsLock(s, NewStep(c, s, u, a).e) && ComesIn(NewStep(c, s, u, a).a)
  {}

  lemma OwnLocks(c: Config, s: State, u: nat, a: App, inp: Input)
    requires c.Valid() && a.pc.Own? && OwnStep(c, s, u, a, inp).Moves?
    ensures KeepsLock(s, OwnStep(c, s, u, a, inp).e) && ComesIn(OwnStep(c, s, u, a, inp).a)
  {}

  lemma TouchLocks(s: State, u: nat, a: App)
    requires a.pc.Touch? && TouchStep(s, u, a).Moves? && Held(s.lines, u, a)
    ensures MovesLock(s, u, TouchStep(s, u, a).e) && Held(Apply(s, TouchStep(s, u, a).e).lines, u, TouchStep(s, u, a).a)
  {}

  lemma WaitLocks(s: State, u: nat, a: App, inp: Input)
    requires a.pc.Wait? && WaitStep(s, u, a, inp).Moves? && EvOk(s.lines, u, a)
    ensures MovesLock(s, u, WaitStep(s, u, a, inp).e) && !WaitStep(s, u, a, inp).a.pc.Touch?
  {}

  lemma MoveLocks(c: Config, s: State, u: nat, a: App, inp: Input)
    requires c.Valid() && AppMove(c, s, u, a, inp).Moves? && EvOk(s.lines, u, a) && Held(s.lines, u, a)
    ensures var r := AppMove(c, s, u, a, inp); MovesLock(s, u, r.e) && Held(Apply(s, r.e).lines, u, r.a)
  {
    match a.pc
    case Evict(_, _) => EvictLocks(s, u, a);
    case Find(_) => FindLocks(c, s, u, a);
    case New(_) => NewLocks(c, s, u, a);
    case Own(_, _, _) => OwnLocks(c, s, u, a, inp);
    case Touch(_, _, _) => TouchLocks(s, u, a);
    case Wait(_) => WaitLocks(s, u, a, inp);
    case _ =>
  }

  lemma AgentLocks(c: Config, s: State, v: nat, g: Agent, inp: Input)
    requires c.Valid() && AgentMove(c, s, v, g, inp).AgentMoves?
    ensures KeepsLock(s, AgentMove(c, s, v, g, inp).ge)
  {}

  // ---- runs ------------------------------------------------------------------------------------------

  ghost predicate LocksSound(s: State) { forall p :: LockSound(At(s.lines, p).lock) }

  ghost predicate AllHeld(s: State) { forall u :: u in s.apps ==> Held(s.lines, u, s.apps[u]) }

  lemma StepLocks(c: Config, s: State, ev: Event, s': State)
    requires c.Valid() && AppsInv(c, s) && Step(c, s, ev, s') && LocksSound(s) && AllHeld(s)
    ensures LocksSound(s') && AllHeld(s')
  {
    if ev.ByApp? {
      assert AppOk(c, s.lines, s.locks, ev.u, s.apps[ev.u]) && Held(s.lines, ev.u, s.apps[ev.u]);
      MoveLocks(c, s, ev.u, s.apps[ev.u], ev.inp);
      OthersHeld(c, s, ev, s', ev.u);
    } else {
      AgentLocks(c, s, ev.v, s.agents[ev.v], ev.inp);
      forall p ensures At(s'.lines, p).lock == At(s.lines, p).lock {}
      forall u | u in s'.apps ensures Held(s'.lines, u, s'.apps[u]) { assert Held(s.lines, u, s.apps[u]); }
    }
  }

  lemma OthersHeld(c: Config, s: State, ev: Event, s': State, v: nat)
    requires c.Valid() && Step(c, s, ev, s') && ev.ByApp? && ev.u == v && LocksSound(s) && AllHeld(s)
    requires MovesLock(s, v, AppMove(c, s, v, s.apps[v], ev.inp).e)
    ensures LocksSound(s') && forall u :: u in s'.apps && u != v ==> Held(s'.lines, u, s'.apps[u])
  {
    forall p ensures LockSound(At(s'.lines, p).lock) { assert LockSound(At(s.lines, p).lock); }
    forall u | u in s'.apps && u != v ensures Held(s'.lines, u, s'.apps[u]) {
      assert Held(s.lines, u, s.apps[u]);
      if s.apps[u].pc.Touch? { assert LockSound(At(s.lines, s.apps[u].pc.p).lock); }
    }
  }

  lemma {:induction false} RunLocks(c: Config, ss: seq<State>, es: seq<Event>, i: nat)
    requires c.Valid() && Run(c, ss, es) && i <= |es|
    ensures LocksSound(ss[i]) && AllHeld(ss[i])
    decreases i
  {
    if i > 0 {
      RunInv(c, ss, es, i - 1);
      RunLocks(c, ss, es, i - 1);
      StepLocks(c, ss[i - 1], es[i - 1], ss[i - 1 + 1]);
    }
  }

  /** A thread touches the bytes of a line only under its lock: as a reader for a read and for any access to a shadow
      line, as the writer for a write to a main line. */
  lemma TouchesLocked(c: Config, ss: seq<State>, es: seq<Event>, i: nat, u: nat, p: Slot)
    requires c.Valid() && Run(c, ss, es) && i <= |es| && u in ss[i].apps && Touching(ss[i].apps[u], p)
    ensures var k := At(ss[i].lines, p).lock;
      if Shares(ss[i].apps[u]) then AppId(u) in k.readers && k.writer == None else k == RW(Some(AppId(u)), {})
  {
    RunLocks(c, ss, es, i);
    assert Held(ss[i].lines, u, ss[i].apps[u]) && LockSound(At(ss[i].lines, p).lock);
  }

  /** Two threads touch the bytes of one line at a time only if both share it: a write to a main line excludes every
      other access to the line. Writes to a shadow line do not exclude each other, as both share it. */
  lemma WriteExcludes(c: Config, ss: seq<State>, es: seq<Event>, i: nat, u: nat, v: nat, p: Slot)
    requires c.Valid() && Run(c, ss, es) && i <= |es| && u != v && u in ss[i].apps && v in ss[i].apps
    requires Touching(ss[i].apps[u], p) && Touching(ss[i].apps[v], p)
    ensures Shares(ss[i].apps[u]) && Shares(ss[i].apps[v])
  {
    TouchesLocked(c, ss, es, i, u, p);
    TouchesLocked(c, ss, es, i, v, p);
  }

  /** At a shadow line a second thread is let in while the first still touches the bytes, also when both write. */
  lemma ShadowLetsIn(c: Config, ss: seq<State>, es: seq<Event>, i: nat, u: nat, v: nat, p: Slot, inp: Input) returns (s': State)
    requires c.Valid() && Run(c, ss, es) && i <= |es| && u != v && u in ss[i].apps && v in ss[i].apps && p.shadow
    requires Touching(ss[i].apps[v], p) && ss[i].apps[u].pc.Touch? && ss[i].apps[u].pc.p == p && ss[i].apps[u].pc.ln.LockLine?
    ensures AppNext(c, ss[i], u, inp, s') && u in s'.apps && v in s'.apps && Touching(s'.apps[u], p) && Touching(s'.apps[v], p)
    ensures s'.apps[u].access == ss[i].apps[u].access && s'.apps[v].access == ss[i].apps[v].access
  {
    TouchesLocked(c, ss, es, i, v, p);
    var r := AppMove(c, ss[i], u, ss[i].apps[u], inp);
    s' := Apply(ss[i], r.e).(apps := ss[i].apps[u := r.a]);
  }

  // ---- what a thread waits for --------------------------------------------------------------------------

  /** A message that the thread waits for, or a call. */
  predicate NeedsInput(a: App) {
    a.pc.Idle? || (a.pc.Own? && a.pc.ow.Await?) || (a.pc == Wait(WRecv) && a.evict.stash.None?)
  }

  predicate Given(a: App, inp: Input) { if a.pc.Idle? then inp.Call? else inp.Recv? }

  /** A lock that thread u waits for: that of the set, to read it while another writes it, or to write it while another
      holds it; or that of a line, to share it while another writes it, or to write or evict it while anyone holds it. */
  predicate KeptOut(c: Config, s: State, a: App)
    requires c.Valid()
  {
    var rw := LockOf(s.locks, c.home(a.t)).rw;
    match a.pc
    case Find(fd) => fd.RLockSet? && rw.writer.Some?
    case New(nw) => nw.WLockSet? && rw != FREE
    case Touch(p, _, ln) => ln.LockLine? && if Shares(a) then At(s.lines, p).lock.writer.Some? else At(s.lines, p).lock != FREE
    case Evict(ev, _) => ev.EvLock? && At(s.lines, DefaultSlot(a.evict.cur)).lock != FREE
    case _ => false
  }

  /** Past every lock and message, the code has nothing left to do: an endless loop or a failed assertion, or a pop of
      an empty stack. */
  predicate Lost(a: App) { a.pc.Crash? || (a.pc.Own? && a.pc.ow.Stuck?) || (a.pc.New? && a.pc.nw.Refill? && a.pool.stack == []) }

  /** In every state of a run a thread can take a step, unless it waits for a message or a call that is not there, is
      kept out of a lock, or is lost: no other state of the cache holds it up. */
  lemma WaitsOnlyFor(c: Config, ss: seq<State>, es: seq<Event>, i: nat, u: nat, inp: Input)
    requires c.Valid() && Run(c, ss, es) && i <= |es| && u in ss[i].apps
    ensures (exists s' :: AppNext(c, ss[i], u, inp, s')) <==>
      !KeptOut(c, ss[i], ss[i].apps[u]) && !Lost(ss[i].apps[u]) && (NeedsInput(ss[i].apps[u]) ==> Given(ss[i].apps[u], inp))
  {
    RunInv(c, ss, es, i);
    assert AppOk(c, ss[i].lines, ss[i].locks, u, ss[i].apps[u]);
    CanMove(c, ss[i], u, ss[i].apps[u], inp);
    MovesNext(c, ss[i], u, inp);
  }

  lemma MovesNext(c: Config, s: State, u: nat, inp: Input)
    requires c.Valid() && u in s.apps
    ensures (exists s' :: AppNext(c, s, u, inp, s')) <==> AppMove(c, s, u, s.apps[u], inp).Moves?
  {
    var r := AppMove(c, s, u, s.apps[u], inp);
    if r.Moves? { assert AppNext(c, s, u, inp, Apply(s, r.e).(apps := s.apps[u := r.a])); }
  }

  lemma CanMove(c: Config, s: State, u: nat, a: App, inp: Input)
    requires c.Valid() && PcOk(c, s.lines, u, a)
    ensures AppMove(c, s, u, a, inp).Moves? <==> !KeptOut(c, s, a) && !Lost(a) && (NeedsInput(a) ==> Given(a, inp))
  {
    match a.pc
    case Find(_) => FindCan(c, s, u, a);
    case New(_) => NewCan(c, s, u, a);
    case Own(_, _, _) => OwnCan(c, s, u, a, inp);
    case Wait(_) => WaitCan(c, s, u, a, inp);
    case _ =>
  }

  lemma FindCan(c: Config, s: State, u: nat, a: App)
    requires c.Valid() && a.pc.Find?
    ensures FindStep(c, s, u, a).Moves? <==> !KeptOut(c, s, a)
  {}

  lemma NewCan(c: Config, s: State, u: nat, a: App)
    requires c.Valid() && a.pc.New? && NewOk(c, s.lines, u, a, a.pc.nw)
    ensures NewStep(c, s, u, a).Moves? <==> !KeptOut(c, s, a) && !Lost(a)
  {}

  lemma OwnCan(c: Config, s: State, u: nat, a: App, inp: Input)
    requires c.Valid() && a.pc.Own?
    ensures OwnStep(c, s, u, a, inp).Moves? <==> !Lost(a) && (NeedsInput(a) ==> Given(a, inp))
  {}

  lemma WaitCan(c: Config, s: State, u: nat, a: App, inp: Input)
    requires c.Valid() && a.pc.Wait?
    ensures WaitStep(s, u, a, inp).Moves? <==> (NeedsInput(a) ==> Given(a, inp))
  {}

  // ---- start_evict that nobody disturbs ---------------------------------------------------------------

  /** Thread u goes on in start_evict, k steps at most, up to its lock or to an INVALID line. */
  function Marking(s: State, u: nat, k: nat): State
    decreases k
  {
    if k == 0 || u !in s.apps || !s.apps[u].pc.Evict? || !(s.apps[u].pc.ev.EvLoad? || s.apps[u].pc.ev.EvFlag? || s.apps[u].pc.ev.EvCas?) then s
    else
      var r := EvictStep(s, u, s.apps[u]);
      if r.Blocked? then s else Marking(Apply(s, r.e).(apps := s.apps[u := r.a]), u, k - 1)
  }

  /** The line as start_evict found it has been marked as being evicted, or found INVALID. */
  ghost predicate MarkedFrom(s: State, s': State, u: nat, p: Slot) {
    var l, l' := At(s.lines, p), At(s'.lines, p);
    && u in s'.apps && s'.apps[u].pc.Evict?
    && if l.st.Invalid? then s'.apps[u].pc.ev.EvRecycle? && s'.lines == s.lines
       else s'.apps[u].pc.ev == EvLock(l.st) && l' == l.(st := ToPreserved, dirty := l.st.Modified?)
            && forall q :: q != p ==> At(s'.lines, q) == At(s.lines, q)
  }

  /** The state after one step of start_evict. */
  function Turned(s: State, u: nat): State
    requires u in s.apps && s.apps[u].pc.Evict? && EvictStep(s, u, s.apps[u]).Moves?
  {
    Apply(s, EvictStep(s, u, s.apps[u]).e).(apps := s.apps[u := EvictStep(s, u, s.apps[u]).a])
  }

  /** The compare-and-swap of what was loaded. */
  lemma MarksCas(s: State, u: nat, tmp: Status, f: bool, retry: bool, k: nat)
    requires u in s.apps && s.apps[u].pc == Evict(EvCas(tmp, f), retry) && At(s.lines, DefaultSlot(s.apps[u].evict.cur)).Is(f, tmp)
    requires !tmp.Invalid? && k >= 1
    ensures MarkedFrom(s, Marking(s, u, k), u, DefaultSlot(s.apps[u].evict.cur))
  {
    assert Marking(s, u, k) == Marking(Turned(s, u), u, k - 1);
  }

  lemma MarksFlag(s: State, u: nat, retry: bool, k: nat)
    requires u in s.apps && k >= 2
    requires var l := At(s.lines, DefaultSlot(s.apps[u].evict.cur)); s.apps[u].pc == Evict(EvFlag(l.st), retry) && !l.st.Invalid?
    ensures MarkedFrom(s, Marking(s, u, k), u, DefaultSlot(s.apps[u].evict.cur))
  {
    var l, s1 := At(s.lines, DefaultSlot(s.apps[u].evict.cur)), Turned(s, u);
    assert Marking(s, u, k) == Marking(s1, u, k - 1);
    MarksCas(s1, u, l.st, l.flag, retry, k - 1);
  }

  lemma MarksFresh(s: State, u: nat, retry: bool, k: nat)
    requires u in s.apps && s.apps[u].pc == Evict(EvLoad, retry) && k >= 3
    ensures MarkedFrom(s, Marking(s, u, k), u, DefaultSlot(s.apps[u].evict.cur))
  {
    var s1 := Turned(s, u);
    assert Marking(s, u, k) == Marking(s1, u, k - 1);
    if !At(s.lines, DefaultSlot(s.apps[u].evict.cur)).st.Invalid? { MarksFlag(s1, u, retry, k - 1); }
  }

  lemma MarksStale(s: State, u: nat, tmp: Status, f: bool, retry: bool, k: nat)
    requires u in s.apps && s.apps[u].pc == Evict(EvCas(tmp, f), retry) && !tmp.Invalid? && k >= 4
    ensures MarkedFrom(s, Marking(s, u, k), u, DefaultSlot(s.apps[u].evict.cur))
  {
    if At(s.lines, DefaultSlot(s.apps[u].evict.cur)).Is(f, tmp) {
      MarksCas(s, u, tmp, f, retry, k);
    } else {
      assert Marking(s, u, k) == Marking(Turned(s, u), u, k - 1);
      MarksFresh(Turned(s, u), u, retry, k - 1);
    }
  }

  /** start_evict, from its first load on, when nobody disturbs it: whatever it has loaded before, within five steps
      the line is marked, by the status it has, or found INVALID. */
  lemma MarksAlone(c: Config, ss: seq<State>, es: seq<Event>, i: nat, u: nat)
    requires c.Valid() && Run(c, ss, es) && i <= |es| && u in ss[i].apps && ss[i].apps[u].pc.Evict?
    requires var ev := ss[i].apps[u].pc.ev; ev.EvLoad? || ev.EvFlag? || ev.EvCas?
    ensures MarkedFrom(ss[i], Marking(ss[i], u, 5), u, DefaultSlot(ss[i].apps[u].evict.cur))
  {
    RunInv(c, ss, es, i);
    assert AppOk(c, ss[i].lines, ss[i].locks, u, ss[i].apps[u]);
    MarksFrom(ss[i], u);
  }

  lemma MarksFrom(s: State, u: nat)
    requires u in s.apps && s.apps[u].pc.Evict? && (s.apps[u].pc.ev.EvLoad? || s.apps[u].pc.ev.EvFlag? || s.apps[u].pc.ev.EvCas?)
    requires EvictingOk(s.lines, u, DefaultSlot(s.apps[u].evict.cur), s.apps[u].pc.ev)
    ensures MarkedFrom(s, Marking(s, u, 5), u, DefaultSlot(s.apps[u].evict.cur))
  {
    var Evict(ev, retry) := s.apps[u].pc;
    match ev
    case EvLoad => MarksFresh(s, u, retry, 5);
    case EvFlag(tmp) =>
      assert Marking(s, u, 5) == Marking(Turned(s, u), u, 4);
      MarksStale(Turned(s, u), u, tmp, At(s.lines, DefaultSlot(s.apps[u].evict.cur)).flag, retry, 4);
    case EvCas(tmp, f) => MarksStale(s, u, tmp, f, retry, 5);
  }
}
