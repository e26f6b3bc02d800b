/** The steps of start_evict, wait_evict and the accesses to the bytes of a line. */
module CacheEvictProof {
  import opened Options
  import opened CacheState
  import opened CacheSteps
  import opened CacheInv
  import opened CacheProof
  import opened CacheOwnProof

  /** Steps that write nothing, from positions that hold no set lock and own no main line. */
  lemma OutsideLocal(c: Config, s: State, u: nat, a: App, a': App)
    requires c.Valid() && Ready(c, s, u, a) && a'.pool == a.pool
    requires !a.pc.Own? && !Debt(a.pc) && Outside(a'.pc)
    requires EvOk(s.lines, u, a')
    ensures Good(c, s, u, a, a', NOTHING)
  {
    LocalGood(c, s, u, a, a');
  }

  lemma TailGood(c: Config, s: State, u: nat, a: App, inp: Input, a': App, e: Effect)
    requires c.Valid() && Ready(c, s, u, a) && (a.pc.Tail? || a.pc.Idle?) && AppMove(c, s, u, a, inp) == Moves(a', e)
    ensures Good(c, s, u, a, a', e) && Quiet(s, e) && a'.pool == a.pool
  {
    OutsideLocal(c, s, u, a, a');
  }

  ghost predicate EvictStepAt(s: State, u: nat, a: App, a': App, e: Effect) {
    a.pc.Evict? && EvictStep(s, u, a) == Moves(a', e)
  }

  lemma EvictEv(lines: Lines, s: State, u: nat, a: App, a': App, e: Effect)
    requires EvictStepAt(s, u, a, a', e) && s.lines == lines
    requires a.pc.ev.EvStart? || a.pc.ev.EvLoad? || a.pc.ev.EvFlag? || a.pc.ev.EvSend?
    requires EvOk(lines, u, a)
    ensures EvOk(lines, u, a')
  {
  }

  lemma EvictLocalGood(c: Config, s: State, u: nat, a: App, a': App, e: Effect)
    requires c.Valid() && Ready(c, s, u, a) && EvictStepAt(s, u, a, a', e)
    requires a.pc.ev.EvStart? || a.pc.ev.EvLoad? || a.pc.ev.EvFlag? || a.pc.ev.EvSend?
    ensures Good(c, s, u, a, a', e) && Quiet(s, e) && a'.pool == a.pool
  {
    EvictEv(s.lines, s, u, a, a', e);
    OutsideLocal(c, s, u, a, a');
  }

  /** Writing a shadow line that stays the thread's own keeps its sets. */
  lemma KeepSets(c: Config, lines: Lines, u: nat, a: App, a': App, p: Slot, l': Line)
    requires SetsOk(c, lines, u, a) && a'.pool == a.pool && !Debt(a.pc) && !Debt(a'.pc)
    requires l'.owner == At(lines, p).owner && (At(lines, p).Used() ==> l'.Used())
    ensures SetsOk(c, lines[p := l'], u, a')
  {
  }

  /** Positions that hold no set lock and own no main line. */
  predicate Outside(pc: Pc) {
    !pc.Own? && !pc.New? && !pc.Crash? && (pc.Find? ==> pc.fd == RLockSet)
  }

  /** The evicting thread changes the word of its own shadow line. */
  predicate OwnWord(s: State, u: nat, a: App, p: Slot, l': Line) {
    var l := At(s.lines, p);
    Mine(s.lines, u, p) && l' == l.(flag := l'.flag, st := l'.st, dirty := l'.dirty)
  }

  lemma WordWrite(c: Config, s: State, u: nat, a: App, p: Slot, l': Line, a': App)
    requires OwnsOnly(s, u, a) && OwnWord(s, u, a, p, l') && a'.pool == a.pool && !a.pc.Own?
    requires LineOk(c, p, At(s.lines, p)) && HistOk(s.apps, s.revoked, s.downgraded, p, At(s.lines, p))
    requires !l'.flag && l'.Used() && (l'.Stable() || l'.st == ToPreserved)
    requires var l := At(s.lines, p);
             && (l'.st == Modified ==> l.st == ToPreserved && l.dirty && !l.flag)
             && (l'.st == ToPreserved ==> (l.st == Shared || l.st == Modified) && (l'.dirty ==> l.st == Modified))
             && (l'.st == Shared ==> !l.flag && !l.Stable())
    ensures var e := Wrote(p, l');
            EffectOk(s, AppId(u), e) && WriteOk(c, s, u, a', e) && OwnedKept(s, u, a, a', e) && Quiet(s, e)
  {
  }

  lemma OutsideGood(c: Config, s: State, u: nat, a: App, a': App, e: Effect)
    requires c.Valid() && e.revoke == {} && e.downgrade == {} && Outside(a'.pc)
    requires EffectOk(s, AppId(u), e) && WriteOk(c, s, u, a', e) && OwnedKept(s, u, a, a', e)
    requires EvOk(Apply(s, e).lines, u, a') && SetsOk(c, Apply(s, e).lines, u, a')
    ensures Good(c, s, u, a, a', e)
  {
  }

  lemma OutsideWord(c: Config, s: State, u: nat, a: App, p: Slot, l': Line, a': App)
    requires c.Valid() && Ready(c, s, u, a) && LineFacts(c, s, p) && OwnWord(s, u, a, p, l')
    requires a'.pool == a.pool && !a.pc.Own? && !Debt(a.pc) && Outside(a'.pc)
    requires !l'.flag && l'.Used() && (l'.Stable() || l'.st == ToPreserved)
    requires var l := At(s.lines, p);
             && (l'.st == Modified ==> l.st == ToPreserved && l.dirty && !l.flag)
             && (l'.st == ToPreserved ==> (l.st == Shared || l.st == Modified) && (l'.dirty ==> l.st == Modified))
             && (l'.st == Shared ==> !l.flag && !l.Stable())
    requires EvOk(s.lines[p := l'], u, a')
    ensures Good(c, s, u, a, a', Wrote(p, l')) && Quiet(s, Wrote(p, l'))
  {
    WordWrite(c, s, u, a, p, l', a');
    KeepSets(c, s.lines, u, a, a', p, l');
  }

  lemma CasEv(s: State, u: nat, a: App, a': App, e: Effect)
    requires EvictStepAt(s, u, a, a', e) && a.pc.ev.EvCas? && EvOk(s.lines, u, a)
    ensures EvOk(Apply(s, e).lines, u, a')
  {
  }

  lemma EvictCasGood(c: Config, s: State, u: nat, a: App, a': App, e: Effect)
    requires c.Valid() && Ready(c, s, u, a) && EvictStepAt(s, u, a, a', e) && a.pc.ev.EvCas?
    requires LineFacts(c, s, DefaultSlot(a.evict.cur))
    ensures Good(c, s, u, a, a', e) && Quiet(s, e) && a'.pool == a.pool
  {
    var p := DefaultSlot(a.evict.cur);
    CasEv(s, u, a, a', e);
    if e.wr.Some? {
      OutsideWord(c, s, u, a, p, e.wr.value.1, a');
    } else {
      OutsideLocal(c, s, u, a, a');
    }
  }

  /** A thread takes or gives up the lock of a line. */
  lemma LineLockWrite(c: Config, s: State, u: nat, a: App, p: Slot, k: RW, a': App)
    requires OwnsOnly(s, u, a) && a'.pool == a.pool && !a.pc.Own?
    requires LineOk(c, p, At(s.lines, p)) && OwnerOk(s.apps, p, At(s.lines, p))
    requires HistOk(s.apps, s.revoked, s.downgraded, p, At(s.lines, p))
    requires var w := At(s.lines, p).lock.writer; w.Some? && w != Some(AppId(u)) ==> k.writer == w
    ensures var e := Wrote(p, At(s.lines, p).(lock := k));
            EffectOk(s, AppId(u), e) && WriteOk(c, s, u, a', e) && OwnedKept(s, u, a, a', e) && Quiet(s, e)
  {
  }

  lemma OutsideLock(c: Config, s: State, u: nat, a: App, p: Slot, k: RW, a': App)
    requires c.Valid() && Ready(c, s, u, a) && LineFacts(c, s, p)
    requires a'.pool == a.pool && !a.pc.Own? && !Debt(a.pc) && Outside(a'.pc)
    requires var w := At(s.lines, p).lock.writer; w.Some? && w != Some(AppId(u)) ==> k.writer == w
    requires EvOk(s.lines[p := At(s.lines, p).(lock := k)], u, a')
    ensures var e := Wrote(p, At(s.lines, p).(lock := k)); Good(c, s, u, a, a', e) && Quiet(s, e)
  {
    LineLockWrite(c, s, u, a, p, k, a');
    KeepSets(c, s.lines, u, a, a', p, At(s.lines, p).(lock := k));
    OutsideGood(c, s, u, a, a', Wrote(p, At(s.lines, p).(lock := k)));
  }

  lemma EvLockEv(s: State, u: nat, a: App, a': App, e: Effect)
    requires EvictStepAt(s, u, a, a', e) && a.pc.ev.EvLock? && EvOk(s.lines, u, a)
    ensures EvOk(Apply(s, e).lines, u, a')
  {
  }

  lemma EvLockGood(c: Config, s: State, u: nat, a: App, a': App, e: Effect)
    requires c.Valid() && Ready(c, s, u, a) && EvictStepAt(s, u, a, a', e) && a.pc.ev.EvLock?
    requires LineFacts(c, s, DefaultSlot(a.evict.cur))
    ensures Good(c, s, u, a, a', e) && Quiet(s, e) && a'.pool == a.pool
  {
    var p := DefaultSlot(a.evict.cur);
    EvLockEv(s, u, a, a', e);
    OutsideLock(c, s, u, a, p, e.wr.value.1.lock, a');
  }

  // ---- recycling a shadow slot ----------------------------------------------------

  lemma RecycleWrite(c: Config, s: State, u: nat, a: App, p: Slot, pc': Pc, a0: App)
    requires OwnsOnly(s, u, a) && Mine(s.lines, u, p) && !a.pc.Own? && a0.pool == a.pool
    requires LineOk(c, p, At(s.lines, p))
    ensures var r := Recycle(s, u, a0, p, pc');
            EffectOk(s, AppId(u), r.e) && WriteOk(c, s, u, r.a, r.e) && OwnedKept(s, u, a, r.a, r.e)
  {
  }

  lemma RecycleSets(c: Config, s: State, u: nat, a: App, p: Slot, pc': Pc, a0: App)
    requires SetsOk(c, s.lines, u, a) && p in a.pool.pend && a0.pool == a.pool && !Debt(a.pc) && !Debt(pc')
    ensures var r := Recycle(s, u, a0, p, pc'); SetsOk(c, Apply(s, r.e).lines, u, r.a)
  {
  }

  lemma RecycleEv(s: State, u: nat, a: App, inp: Input, a': App, e: Effect)
    requires EvOk(s.lines, u, a)
    requires (EvictStepAt(s, u, a, a', e) && a.pc.ev.EvRecycle?) || (a.pc == Wait(WRecycle) && WaitStep(s, u, a, inp) == Moves(a', e))
    ensures EvOk(Apply(s, e).lines, u, a')
  {
  }

  lemma RecycleAll(c: Config, s: State, u: nat, a: App, p: Slot, pc': Pc, a0: App, a': App, e: Effect)
    requires c.Valid() && Ready(c, s, u, a) && LineOk(c, p, At(s.lines, p)) && Mine(s.lines, u, p)
    requires a.pc.Evict? || a.pc.Wait?
    requires a0.pool == a.pool && Recycle(s, u, a0, p, pc') == Moves(a', e)
    requires pc' == Wait(WUnlock) || pc' == Find(RLockSet)
    requires EvOk(Apply(s, e).lines, u, a')
    ensures Good(c, s, u, a, a', e)
  {
    RecycleWrite(c, s, u, a, p, pc', a0);
    RecycleSets(c, s, u, a, p, pc', a0);
    OutsideGood(c, s, u, a, a', e);
  }

  lemma EvRecycleGood(c: Config, s: State, u: nat, a: App, a': App, e: Effect)
    requires c.Valid() && Ready(c, s, u, a) && LineFacts(c, s, DefaultSlot(a.evict.cur))
    requires EvictStepAt(s, u, a, a', e) && a.pc.ev.EvRecycle?
    ensures Good(c, s, u, a, a', e)
  {
    RecycleEv(s, u, a, Tau, a', e);
    RecycleAll(c, s, u, a, DefaultSlot(a.evict.cur), a'.pc, a.(evict := a.evict.(wait := false)), a', e);
  }

  lemma WRecycleGood(c: Config, s: State, u: nat, a: App, inp: Input, a': App, e: Effect)
    requires c.Valid() && Ready(c, s, u, a) && LineFacts(c, s, DefaultSlot(a.evict.cur))
    requires a.pc == Wait(WRecycle) && WaitStep(s, u, a, inp) == Moves(a', e)
    ensures Good(c, s, u, a, a', e)
  {
    RecycleEv(s, u, a, inp, a', e);
    RecycleAll(c, s, u, a, DefaultSlot(a.evict.cur), a'.pc, a, a', e);
  }

  // ---- wait_evict -------------------------------------------------------------------

  lemma WaitEv(s: State, u: nat, a: App, inp: Input, a': App, e: Effect)
    requires a.pc.Wait? && WaitStep(s, u, a, inp) == Moves(a', e) && a.pc.wt != WRecycle
    requires EvOk(s.lines, u, a)
    ensures EvOk(Apply(s, e).lines, u, a')
  {
  }

  lemma WaitGood(c: Config, s: State, u: nat, a: App, inp: Input, a': App, e: Effect)
    requires c.Valid() && Ready(c, s, u, a) && a.pc.Wait? && WaitStep(s, u, a, inp) == Moves(a', e)
    requires a.pc.wt == WRecv || a.pc.wt == WSpin
    ensures Good(c, s, u, a, a', e) && Quiet(s, e) && a'.pool == a.pool
  {
    WaitEv(s, u, a, inp, a', e);
    if a'.pc.Crash? { LocalGood(c, s, u, a, a'); } else { OutsideLocal(c, s, u, a, a'); }
  }

  lemma RevertWord(s: State, u: nat, a: App, l': Line)
    requires EvOk(s.lines, u, a) && a.pc.Wait? && a.pc.wt.Revert?
    requires RevertCas(s, DefaultSlot(a.evict.cur), a.evict.evDirty, a.pc.wt.n) == Some(l')
    ensures OwnWord(s, u, a, DefaultSlot(a.evict.cur), l') && !l'.flag && l'.Stable()
    ensures var l := At(s.lines, DefaultSlot(a.evict.cur));
            && (l'.st == Modified ==> l.st == ToPreserved && l.dirty && !l.flag)
            && (l'.st == Shared ==> !l.flag && !l.Stable())
  {
  }

  lemma RevertGood(c: Config, s: State, u: nat, a: App, inp: Input, a': App, e: Effect)
    requires c.Valid() && Ready(c, s, u, a) && a.pc.Wait? && WaitStep(s, u, a, inp) == Moves(a', e)
    requires a.pc.wt.Revert? && LineFacts(c, s, DefaultSlot(a.evict.cur))
    ensures Good(c, s, u, a, a', e) && Quiet(s, e) && a'.pool == a.pool
  {
    var p := DefaultSlot(a.evict.cur);
    WaitEv(s, u, a, inp, a', e);
    if e.wr.Some? {
      RevertWord(s, u, a, e.wr.value.1);
      OutsideWord(c, s, u, a, p, e.wr.value.1, a');
    } else {
      OutsideLocal(c, s, u, a, a');
    }
  }

  lemma WUnlockGood(c: Config, s: State, u: nat, a: App, inp: Input, a': App, e: Effect)
    requires c.Valid() && Ready(c, s, u, a) && a.pc == Wait(WUnlock) && WaitStep(s, u, a, inp) == Moves(a', e)
    requires LineFacts(c, s, DefaultSlot(a.evict.cur))
    ensures Good(c, s, u, a, a', e) && Quiet(s, e) && a'.pool == a.pool
  {
    var p := DefaultSlot(a.evict.cur);
    WaitEv(s, u, a, inp, a', e);
    OutsideLock(c, s, u, a, p, FREE, a');
  }

  // ---- bytes of a line ----------------------------------------------------------------

  lemma TouchLockEv(s: State, u: nat, a: App, a': App, e: Effect)
    requires a.pc.Touch? && TouchStep(s, u, a) == Moves(a', e) && EvOk(s.lines, u, a)
    requires a.pc.ln.LockLine? || a.pc.ln.UnlockLine?
    ensures EvOk(Apply(s, e).lines, u, a')
  {
  }

  lemma TouchEv(s: State, u: nat, a: App, a': App, e: Effect)
    requires a.pc.Touch? && TouchStep(s, u, a) == Moves(a', e) && EvOk(s.lines, u, a)
    ensures EvOk(Apply(s, e).lines, u, a')
  {
    if a.pc.ln.LockLine? || a.pc.ln.UnlockLine? { TouchLockEv(s, u, a, a', e); }
  }

  lemma TouchShape(s: State, u: nat, a: App, a': App, e: Effect)
    requires a.pc.Touch? && TouchStep(s, u, a) == Moves(a', e) && EvOk(s.lines, u, a)
    ensures a'.pool == a.pool && (a'.pc.Touch? || a'.pc.Tail?)
    ensures e == NOTHING || var l := At(s.lines, a.pc.p);
              && e.wr.Some? && e == Wrote(a.pc.p, l.(lock := e.wr.value.1.lock))
              && (l.lock.writer.Some? && l.lock.writer != Some(AppId(u)) ==> e.wr.value.1.lock.writer == l.lock.writer)
  {
  }

  lemma TouchGood(c: Config, s: State, u: nat, a: App, a': App, e: Effect)
    requires c.Valid() && Ready(c, s, u, a) && a.pc.Touch? && TouchStep(s, u, a) == Moves(a', e)
    requires LineFacts(c, s, a.pc.p)
    ensures Good(c, s, u, a, a', e) && Quiet(s, e) && a'.pool == a.pool
  {
    TouchEv(s, u, a, a', e);
    TouchShape(s, u, a, a', e);
    if e != NOTHING {
      OutsideLock(c, s, u, a, a.pc.p, e.wr.value.1.lock, a');
    } else {
      OutsideLocal(c, s, u, a, a');
    }
  }
}
