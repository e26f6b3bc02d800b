/** The loop that undoes a refused eviction, and the loop that evicts again: how the line's word changes
    under them, how many turns they take, and when the first of them never ends. */
module CacheUndo {
  import opened Options
  import opened CacheState
  import opened CacheSteps
  import opened CacheInv
  import opened CacheProof
  import opened CacheOwnProof
  import opened CacheAppKeeps
  import opened CacheAgentProof
  import opened CacheTheorems

  /** Undoing the eviction, or evicting again from inside wait_evict. */
  predicate Refusing(pc: Pc) {
    || (pc.Wait? && pc.wt.Revert?)
    || (pc.Evict? && pc.retry && (pc.ev.EvStart? || pc.ev.EvLoad? || pc.ev.EvFlag? || pc.ev.EvCas? || pc.ev.EvLock?))
  }

  /** Giving the buffer back, which ends wait_evict. */
  predicate Escaping(pc: Pc) { pc == Evict(EvRecycle, true) }

  /** Waiting for the line's lock, which the thread itself holds. */
  predicate Lost(pc: Pc) { pc.Evict? && pc.retry && pc.ev.EvLock? }

  predicate EscapingAt(s: State, u: nat) { u in s.apps && Escaping(s.apps[u].pc) }

  predicate LostAt(s: State, u: nat) { u in s.apps && Lost(s.apps[u].pc) }

  /** The compare-and-swaps of one round: an eviction sent as EVICT_SHARED has only the first two. */
  function Round(evDirty: bool): nat { if evDirty then 4 else 2 }

  predicate RoundOk(a: App) { a.pc.Wait? && a.pc.wt.Revert? ==> a.pc.wt.n < Round(a.evict.evDirty) }

  predicate RoundAt(s: State, u: nat) { u in s.apps && RoundOk(s.apps[u]) }

  /** The line that the thread evicts. */
  function Evicted(s: State, a: App): Line {
    At(s.lines, DefaultSlot(if a.pc == Evict(EvStart, true) then a.evict.next else a.evict.cur))
  }

  /** Undoing an EVICT_SHARED while the line is TO_SHARED, which no compare-and-swap of the round expects. */
  predicate Spinning(s: State, a: App) {
    a.pc.Wait? && a.pc.wt.Revert? && !a.evict.evDirty && Evicted(s, a).st == ToShared
  }

  predicate SpinsAt(s: State, u: nat) { u in s.apps && Spinning(s, s.apps[u]) }

  /** The thread has left both loops, for good or for ever. */
  predicate Ended(s: State, u: nat) { EscapingAt(s, u) || LostAt(s, u) || SpinsAt(s, u) }

  /** The thread is in one of the two loops and may still get out of it. */
  predicate Open(s: State, u: nat) {
    u in s.apps && Refusing(s.apps[u].pc) && !LostAt(s, u) && !SpinsAt(s, u)
  }

  // ---- the line's word -------------------------------------------------------------------------------

  /** What the others may do to the word of a line that a thread is evicting. */
  predicate Calms(l: Line, l': Line) {
    || l'.Is(l.flag, l.st)
    || (!l.flag && l.st == Modified && (l'.Is(false, Shared) || l'.Is(false, Invalid)))
    || (!l.flag && l.st == Shared && l'.Is(false, Invalid))
    || (!l.flag && !l.Stable() && l'.Is(true, l.st))
    || (!l.flag && l.st == ToPreserved && l'.Is(false, ToShared))
  }

  lemma AllowedCalms(k: SetLock, w: Who, u: nat, p: Slot, l: Line, l': Line)
    requires Allowed(k, w, p, l, l') && p.shadow && l.Used() && l.owner == Some(u) && w != AppId(u)
    ensures Calms(l, l') && (w.AppId? ==> l'.Is(l.flag, l.st))
  {}

  lemma AppCalm(c: Config, s: State, w: nat, inp: Input, s': State, u: nat, p: Slot)
    requires c.Valid() && Inv(c, s) && AppNext(c, s, w, inp, s') && w != u && Mine(s.lines, u, p)
    ensures At(s'.lines, p).Is(At(s.lines, p).flag, At(s.lines, p).st)
  {
    assert LineOk(c, p, At(s.lines, p));
    var l, l' := At(s.lines, p), At(s'.lines, p);
    AppKept(c, s, w, inp, s');
    if l' != l { AllowedCalms(LockOf(s.locks, p.set_), AppId(w), u, p, l, l'); }
  }

  lemma AgentCalm(c: Config, s: State, v: nat, inp: Input, s': State, u: nat, p: Slot)
    requires c.Valid() && Inv(c, s) && AgentNext(c, s, v, inp, s') && Mine(s.lines, u, p)
    ensures Calms(At(s.lines, p), At(s'.lines, p))
  {
    assert LineOk(c, p, At(s.lines, p));
    var l, l' := At(s.lines, p), At(s'.lines, p);
    var AgentMoves(g', e) := AgentMove(c, s, v, s.agents[v], inp);
    AgentStepGood(c, s, v, s.agents[v], inp, g', e);
    if l' != l { AllowedCalms(LockOf(s.locks, p.set_), AgentId(v), u, p, l, l'); }
  }

  /** A step of another thread, seen from u. */
  lemma OthersCalm(c: Config, s: State, ev: Event, s': State, u: nat, p: Slot)
    requires c.Valid() && Inv(c, s) && Step(c, s, ev, s') && ev != ByApp(u, ev.inp) && Mine(s.lines, u, p)
    ensures Calms(At(s.lines, p), At(s'.lines, p))
    ensures ev.ByApp? ==> At(s'.lines, p).Is(At(s.lines, p).flag, At(s.lines, p).st)
  {
    match ev
    case ByApp(w, inp) => AppCalm(c, s, w, inp, s', u, p);
    case ByAgent(v, inp) => AgentCalm(c, s, v, inp, s', u, p);
  }

  // ---- turns left ----------------------------------------------------------------------------------------

  function Rank(l: Line): nat { match l.st case Modified => 2 case Shared => 1 case _ => 0 }

  /** Which compare-and-swap of a round expects the word. */
  function Place(l: Line): nat { (if l.st == ToShared then 2 else 0) + (if l.flag then 1 else 0) }

  /** How often the word can still change while the eviction is pending. */
  function Changes(l: Line): nat { if l.flag then 0 else if l.st == ToShared then 1 else 2 }

  /** How many compare-and-swaps of the loop come before the one that expects the word. */
  function Away(l: Line, round: nat, n: nat): int { if n <= Place(l) then Place(l) - n else Place(l) + round - n }

  /** A bound on the thread's own turns up to the end of the two loops. */
  function TurnsLeft(s: State, a: App): int {
    var l := Evicted(s, a);
    match a.pc
    case Wait(Revert(n)) => 9 + 4 * Changes(l) + Away(l, Round(a.evict.evDirty), n)
    case Evict(EvStart, _) => 3 * Rank(l) + 2
    case Evict(EvLoad, _) => 3 * Rank(l) + 1
    case Evict(EvFlag(tmp), _) => 3 * Rank(l) + (if tmp == l.st then 0 else 3)
    case Evict(EvCas(tmp, f), _) => 3 * Rank(l) + (if l.Is(f, tmp) then -1 else 2)
    case _ => 0
  }

  lemma UndoWord(s: State, a: App)
    requires a.pc.Wait? && a.pc.wt.Revert? && (Evicted(s, a).st == ToPreserved || Evicted(s, a).st == ToShared)
    ensures Spinning(s, a) <==> forall n :: 0 <= n < Round(a.evict.evDirty) ==> RevertCas(s, DefaultSlot(a.evict.cur), a.evict.evDirty, n) == None
  {
    if !Spinning(s, a) {
      assert RevertCas(s, DefaultSlot(a.evict.cur), a.evict.evDirty, Place(Evicted(s, a))).Some?;
    }
  }

  /** The undo loop has a compare-and-swap that expects the line's present word exactly if it does not spin. */
  lemma UndoCanEnd(c: Config, s: State, u: nat)
    requires c.Valid() && Inv(c, s) && u in s.apps && s.apps[u].pc.Wait? && s.apps[u].pc.wt.Revert?
    ensures var a := s.apps[u];
      SpinsAt(s, u) <==> forall n :: 0 <= n < Round(a.evict.evDirty) ==> RevertCas(s, DefaultSlot(a.evict.cur), a.evict.evDirty, n) == None
  {
    var a := s.apps[u];
    assert AppOk(c, s.lines, s.locks, u, a);
    UndoWord(s, a);
  }

  /** What the invariant says of the line while the thread is in the loops. */
  predicate InHand(s: State, u: nat, a: App) {
    var l := Evicted(s, a);
    && Mine(s.lines, u, DefaultSlot(if a.pc == Evict(EvStart, true) then a.evict.next else a.evict.cur)) && RoundOk(a)
    && (a.pc == Evict(EvStart, true) ==> a.evict.startNext)
    && (if a.pc.Wait? then l.st == ToPreserved || l.st == ToShared else l.Stable() && !l.flag)
    && (a.pc.Evict? && (a.pc.ev.EvFlag? || a.pc.ev.EvCas?) ==> a.pc.ev.tmp.Shared? || a.pc.ev.tmp.Modified?)
  }

  lemma OpenInHand(c: Config, s: State, u: nat)
    requires c.Valid() && Inv(c, s) && RoundAt(s, u) && Open(s, u)
    ensures InHand(s, u, s.apps[u])
  {
    var a := s.apps[u];
    assert AppOk(c, s.lines, s.locks, u, a);
    var p := DefaultSlot(if a.pc == Evict(EvStart, true) then a.evict.next else a.evict.cur);
    assert LineOk(c, p, At(s.lines, p));
  }

  lemma OthersTurns(s: State, s': State, u: nat)
    requires u in s.apps && u in s'.apps && s'.apps[u] == s.apps[u] && Open(s, u) && InHand(s, u, s.apps[u])
    requires Calms(Evicted(s, s.apps[u]), Evicted(s', s'.apps[u]))
    ensures Open(s', u) || SpinsAt(s', u)
    ensures Open(s', u) ==> TurnsLeft(s', s'.apps[u]) <= TurnsLeft(s, s.apps[u])
  {}

  /** The thread itself can always move, and each turn brings it nearer the end. */
  lemma OwnTurn(c: Config, s: State, u: nat, a: App, inp: Input)
    requires c.Valid() && u in s.apps && s.apps[u] == a && Open(s, u) && InHand(s, u, a)
    ensures TurnsLeft(s, a) >= 1
    ensures var r := AppMove(c, s, u, a, inp);
      && r.Moves?
      && var s' := After(s, u, r.a, r.e);
         (Escaping(r.a.pc) || Lost(r.a.pc) || (Refusing(r.a.pc) && !Spinning(s', r.a) && TurnsLeft(s', r.a) < TurnsLeft(s, a)))
  {
    if a.pc.Wait? { UndoTurn(s, u, a, inp); } else { AgainTurn(s, u, a); }
  }

  lemma UndoTurn(s: State, u: nat, a: App, inp: Input)
    requires u in s.apps && s.apps[u] == a && Open(s, u) && InHand(s, u, a) && a.pc.Wait?
    ensures TurnsLeft(s, a) >= 1
    ensures var r := WaitStep(s, u, a, inp);
      r.Moves? && Refusing(r.a.pc) && !Lost(r.a.pc)
      && !Spinning(After(s, u, r.a, r.e), r.a) && TurnsLeft(After(s, u, r.a, r.e), r.a) < TurnsLeft(s, a)
  {}

  lemma AgainTurn(s: State, u: nat, a: App)
    requires u in s.apps && s.apps[u] == a && Open(s, u) && InHand(s, u, a) && a.pc.Evict?
    ensures TurnsLeft(s, a) >= 1
    ensures var r := EvictStep(s, u, a);
      && r.Moves?
      && var s' := After(s, u, r.a, r.e);
         (Escaping(r.a.pc) || Lost(r.a.pc) || (Refusing(r.a.pc) && !Spinning(s', r.a) && TurnsLeft(s', r.a) < TurnsLeft(s, a)))
  {}
}
