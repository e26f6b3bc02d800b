/** The steps of newLine under the set's write lock. */
module CacheNewProof {
  import opened Options
  import opened CacheState
  import opened CacheSteps
  import opened CacheInv
  import opened CacheProof
  import opened CacheOwnProof
  import opened CacheFindProof

  ghost predicate NewStepAt(c: Config, s: State, u: nat, a: App, a': App, e: Effect)
    requires c.Valid()
  {
    a.pc.New? && NewStep(c, s, u, a) == Moves(a', e)
  }

  lemma WLockGood(c: Config, s: State, u: nat, a: App, a': App, e: Effect)
    requires c.Valid() && Ready(c, s, u, a) && NewStepAt(c, s, u, a, a', e)
    requires a.pc.nw.WLockSet? || a.pc.nw.WUnlockSet?
    requires LockOk(LockOf(s.locks, c.home(a.t)))
    ensures Good(c, s, u, a, a', e) && Quiet(s, e) && a'.pool == a.pool
  {
    LockChangeGood(c, s, u, a, a', e);
  }

  lemma ScanKeeps(c: Config, s: State, u: nat, a: App)
    requires c.Valid() && a.pc.New? && a.pc.nw.Scan? && ScanOk(c, s.lines, c.home(a.t), a.t, a.pc.nw)
    requires var h, w := c.home(a.t), a.pc.nw.i; LineOk(c, Slot(false, h, w), At(s.lines, Slot(false, h, w)))
    ensures NewOk(c, s.lines, u, a, ScanStep(c, s, a))
  {
  }

  lemma NewLocal(c: Config, s: State, u: nat, a: App, a': App)
    requires c.Valid() && Ready(c, s, u, a) && SameButPc(a, a')
    requires a.pc.New? && a'.pc.New? && a.pc.nw != WLockSet && !a.pc.nw.Refill? && a'.pc.nw != WLockSet && !a'.pc.nw.Refill?
    requires NewOk(c, s.lines, u, a', a'.pc.nw)
    ensures Good(c, s, u, a, a', NOTHING)
  {
    KeepPlain(c, s.lines, u, a, a');
    LocalGood(c, s, u, a, a');
  }

  lemma ScanGood(c: Config, s: State, u: nat, a: App, a': App, e: Effect)
    requires c.Valid() && Ready(c, s, u, a) && NewStepAt(c, s, u, a, a', e) && LinesInv(c, s)
    requires a.pc.nw.Scan?
    ensures Good(c, s, u, a, a', e) && Quiet(s, e) && a'.pool == a.pool
  {
    var h, w := c.home(a.t), a.pc.nw.i;
    assert LineOk(c, Slot(false, h, w), At(s.lines, Slot(false, h, w)));
    ScanKeeps(c, s, u, a);
    NewLocal(c, s, u, a, a');
  }

  lemma EvChkGood(c: Config, s: State, u: nat, a: App, a': App, e: Effect)
    requires c.Valid() && Ready(c, s, u, a) && NewStepAt(c, s, u, a, a', e)
    requires a.pc.nw.EvChk? || a.pc.nw.MvLoad?
    ensures Good(c, s, u, a, a', e) && Quiet(s, e) && a'.pool == a.pool
  {
    NewLocal(c, s, u, a, a');
  }

  /** No line at all holds the tag that newLine looks for. */
  lemma NoTagAnywhere(c: Config, s: State, t: Tag)
    requires c.Valid() && LinesInv(c, s) && NoTag(s.lines, c.home(t), t, c.width)
    ensures forall q :: !At(s.lines, q).Holds(t)
  {
    forall q: Slot ensures !At(s.lines, q).Holds(t) {
      assert LineOk(c, q, At(s.lines, q));
      assert q == Slot(q.shadow, q.set_, q.way);
    }
  }

  /** Main line w of the set gets tag t and is INVALID. */
  predicate Renewed(s: State, p: Slot, t: Tag, l': Line) {
    var l := At(s.lines, p);
    l' == l.(tag := t, data := l'.data, flag := false, st := Invalid) && l'.data.Some?
  }

  lemma RenewWrite(c: Config, s: State, u: nat, a: App, p: Slot, a': App, e: Effect)
    requires c.Valid() && OwnsOnly(s, u, a) && a.pc.New? && a.pc.nw != WLockSet
    requires LockOf(s.locks, c.home(a.t)).rw.writer == Some(AppId(u)) && LockOk(LockOf(s.locks, c.home(a.t)))
    requires !p.shadow && p.set_ == c.home(a.t) && p.way < c.width && LineOk(c, p, At(s.lines, p))
    requires !At(s.lines, p).Used() || At(s.lines, p).Stable()
    requires e.wr.Some? && e.wr.value.0 == p && Renewed(s, p, a.t, e.wr.value.1)
    requires e == NOTHING.(wr := e.wr, lk := e.lk, mv := e.mv)
    requires e.lk.Some? ==> e.lk.value == (c.home(a.t), LockOf(s.locks, c.home(a.t)).(moving := None))
    requires a'.pool.pend == a.pool.pend && a'.pc == New(WUnlockSet(true)) && a'.t == a.t
    requires a.pc.nw.Refill? <==> e.lk.Some?
    requires LocksHeld(c, s.locks, u, a)
    ensures EffectOk(s, AppId(u), e) && WriteOk(c, s, u, a', e) && OwnedKept(s, u, a, a', e)
    ensures LocksHeld(c, Apply(s, e).locks, u, a') && PcOk(c, Apply(s, e).lines, u, a')
  {
  }

  lemma RetagGood(c: Config, s: State, u: nat, a: App, a': App, e: Effect)
    requires c.Valid() && Ready(c, s, u, a) && NewStepAt(c, s, u, a, a', e)
    requires a.pc.nw.Retag? && LinesInv(c, s) && LocksInv(s)
    ensures Good(c, s, u, a, a', e)
  {
    var p := Slot(false, c.home(a.t), a.pc.nw.w);
    assert LineOk(c, p, At(s.lines, p)) && LockOk(LockOf(s.locks, c.home(a.t)));
    RenewWrite(c, s, u, a, p, a', e);
    KeepPlain(c, s.lines, u, a, a');
    KeepSelf(c, s.lines, u, a', p, e.wr.value.1);
  }

  /** The thread after it has popped a buffer for main line p that was PRESERVED. */
  predicate Filled(a: App, p: Slot, a': App) {
    && |a.pool.stack| >= 1 && a'.evict == a.evict && a'.access == a.access && a'.pc == New(WUnlockSet(true))
    && a'.pool == a.pool.(stack := a.pool.stack[..|a.pool.stack| - 1], fills := a.pool.fills + {p})
  }

  lemma FillSets(c: Config, s: State, u: nat, a: App, p: Slot, a': App, l': Line)
    requires SetsOk(c, s.lines, u, a) && a.pc.New? && !a.pc.nw.Refill? && Filled(a, p, a')
    requires !p.shadow && c.ValidSlot(p) && !At(s.lines, p).Used() && l'.Used()
    ensures SetsOk(c, s.lines[p := l'], u, a')
  {
    assert p !in a.pool.fills;
    assert |a'.pool.fills| == |a.pool.fills| + 1;
  }

  lemma FillEv(s: State, u: nat, a: App, p: Slot, a': App, l': Line)
    requires EvOk(s.lines, u, a) && a.pc.New? && Filled(a, p, a') && !p.shadow && l'.lock == At(s.lines, p).lock
    ensures EvOk(s.lines[p := l'], u, a')
  {
  }

  lemma FillGood(c: Config, s: State, u: nat, a: App, a': App, e: Effect)
    requires c.Valid() && Ready(c, s, u, a) && NewStepAt(c, s, u, a, a', e)
    requires a.pc.nw.Fill? && LinesInv(c, s) && LocksInv(s)
    ensures Good(c, s, u, a, a', e) && e.wr.Some?
  {
    var p := Slot(false, c.home(a.t), a.pc.nw.w);
    assert LineOk(c, p, At(s.lines, p)) && LockOk(LockOf(s.locks, c.home(a.t)));
    RenewWrite(c, s, u, a, p, a', e);
    FillSets(c, s, u, a, p, a', e.wr.value.1);
    FillEv(s, u, a, p, a', e.wr.value.1);
  }

  lemma RefillSelf(c: Config, s: State, u: nat, a: App, p: Slot, q: Slot, a': App, l': Line)
    requires EvOk(s.lines, u, a) && SetsOk(c, s.lines, u, a) && a.pc.New? && a.pc.nw.Refill?
    requires !p.shadow && l'.Used() && l'.lock == At(s.lines, p).lock
    requires Mine(s.lines, u, q) && At(s.lines, q).Stable()
    requires |a.pool.stack| >= 1
    requires a'.evict == a.evict.(startNext := true, next := Some(q)) && a'.access == a.access && a'.pc == New(WUnlockSet(true))
    requires a'.pool == a.pool.(stack := a.pool.stack[..|a.pool.stack| - 1])
    ensures EvOk(s.lines[p := l'], u, a') && SetsOk(c, s.lines[p := l'], u, a')
  {
  }

  lemma RefillGood(c: Config, s: State, u: nat, a: App, a': App, e: Effect)
    requires c.Valid() && Ready(c, s, u, a) && NewStepAt(c, s, u, a, a', e)
    requires a.pc.nw.Refill? && LinesInv(c, s) && LocksInv(s) && |a.pool.stack| >= 1
    ensures Good(c, s, u, a, a', e) && e.wr.Some?
  {
    var p := Slot(false, c.home(a.t), a.pc.nw.w);
    assert LineOk(c, p, At(s.lines, p)) && LockOk(LockOf(s.locks, c.home(a.t)));
    RenewWrite(c, s, u, a, p, a', e);
    RefillSelf(c, s, u, a, p, Slot(true, c.home(a.t), a.pc.nw.w), a', e.wr.value.1);
  }

  lemma MvStoreWrite(c: Config, s: State, u: nat, a: App, a': App, e: Effect)
    requires c.Valid() && OwnsOnly(s, u, a) && NewStepAt(c, s, u, a, a', e) && a.pc.nw.MvStore?
    requires LocksHeld(c, s.locks, u, a) && LockOk(LockOf(s.locks, c.home(a.t)))
    requires var h, w := c.home(a.t), a.pc.nw.w;
             && CanEvict(c, s.lines, h, w) && At(s.lines, Slot(false, h, w)).st == a.pc.nw.tmp && a.pc.nw.tmp != Invalid
             && LineOk(c, Slot(false, h, w), At(s.lines, Slot(false, h, w)))
             && HistOk(s.apps, s.revoked, s.downgraded, Slot(false, h, w), At(s.lines, Slot(false, h, w)))
    ensures EffectOk(s, AppId(u), e) && WriteOk(c, s, u, a', e) && OwnedKept(s, u, a, a', e)
    ensures LocksHeld(c, Apply(s, e).locks, u, a')
  {
  }

  lemma MvStoreSelf(c: Config, lines: Lines, u: nat, a: App, p: Slot, l': Line, a': App)
    requires EvOk(lines, u, a) && SetsOk(c, lines, u, a) && a.pc.New? && !a.pc.nw.Refill?
    requires p.shadow && c.ValidSlot(p) && At(lines, p).owner.None? && l'.owner == Some(u) && l'.lock == At(lines, p).lock
    requires a'.evict == a.evict && a'.access == a.access && a'.pc.New? && a'.pc.nw.Refill?
    requires a'.pool == a.pool.(pend := a.pool.pend + {p})
    ensures EvOk(lines[p := l'], u, a') && SetsOk(c, lines[p := l'], u, a')
  {
    assert p !in a.pool.pend;
  }

  lemma MvStorePc(c: Config, lines: Lines, u: nat, a: App, a': App, l': Line)
    requires c.Valid() && a.pc.New? && a.pc.nw.MvStore? && NewOk(c, lines, u, a, a.pc.nw)
    requires a'.pc == New(Refill(a.pc.nw.w)) && a'.t == a.t
    requires l'.owner == Some(u) && l'.Stable() && l'.tag == At(lines, Slot(false, c.home(a.t), a.pc.nw.w)).tag
    requires l'.data == At(lines, Slot(false, c.home(a.t), a.pc.nw.w)).data
    ensures PcOk(c, lines[Slot(true, c.home(a.t), a.pc.nw.w) := l'], u, a')
  {
    var h, w := c.home(a.t), a.pc.nw.w;
    assert !At(lines, Slot(false, h, w)).Holds(a.t);
  }

  lemma MvStoreGood(c: Config, s: State, u: nat, a: App, a': App, e: Effect)
    requires c.Valid() && Ready(c, s, u, a) && NewStepAt(c, s, u, a, a', e)
    requires a.pc.nw.MvStore? && LinesInv(c, s) && LocksInv(s) && HistInv(s)
    ensures Good(c, s, u, a, a', e) && e.wr.Some?
  {
    var h, w := c.home(a.t), a.pc.nw.w;
    var from, p := Slot(false, h, w), Slot(true, h, w);
    assert LineOk(c, from, At(s.lines, from)) && HistOk(s.apps, s.revoked, s.downgraded, from, At(s.lines, from));
    assert LineOk(c, p, At(s.lines, p)) && LockOk(LockOf(s.locks, h));
    MvStoreWrite(c, s, u, a, a', e);
    MvStoreSelf(c, s.lines, u, a, p, e.wr.value.1, a');
    MvStorePc(c, s.lines, u, a, a', e.wr.value.1);
  }
}
