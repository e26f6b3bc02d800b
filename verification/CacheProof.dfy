/** Every step keeps the invariant of CacheInv. */
module CacheProof {
  import opened Options
  import opened CacheState
  import opened CacheSteps
  import opened CacheInv

  // ---- what one thread may do to a line and to a set lock -----------------------

  predicate SameButWord(l: Line, l': Line) {
    l' == l.(flag := l'.flag, st := l'.st)
  }

  /** An agent holding the set's read lock downgrades, invalidates or flags a line. */
  predicate AgentChange(k: SetLock, w: Who, l: Line, l': Line) {
    && w.AgentId? && w in k.rw.readers && SameButWord(l, l') && l.Used() && !l.flag
    && (|| ((l.st.Shared? || l.st.Modified?) && !l'.flag && (l'.st.Invalid? || l'.st.Shared?))
        || (!l.Stable() && l'.flag && l'.st == l.st)
        || (l.st == ToPreserved && !l'.flag && l'.st == ToShared))
  }

  /** A thread holding the set's read lock takes a main line to TO_SHARED or TO_MODIFIED. */
  predicate Grab(k: SetLock, w: Who, p: Slot, l: Line, l': Line) {
    && w.AppId? && w in k.rw.readers && !p.shadow && l.Stable()
    && SameButWord(l, l'.(owner := l.owner)) && l'.owner == Some(w.n) && (l'.st.ToShared? || l'.st.ToModified?)
  }

  /** The owner of a line changes it; a main line stays in use with its tag. */
  predicate OwnChange(w: Who, p: Slot, l: Line, l': Line) {
    && w.AppId? && l.owner == Some(w.n) && l'.tag == l.tag && l'.lock == l.lock
    && (if p.shadow then l.Used() else l'.Stable())
  }

  /** newLine, under the set's write lock, fills, re-tags or copies a line nobody owns. */
  predicate Build(k: SetLock, w: Who, p: Slot, l: Line, l': Line) {
    && w.AppId? && k.rw.writer == Some(w) && l'.lock == l.lock && l'.Used()
    && (if p.shadow then !l.Used() else !l.Used() || l.Stable())
  }

  predicate LockChange(w: Who, l: Line, l': Line) {
    l' == l.(lock := l'.lock) && (l.lock.writer.Some? && l.lock.writer != Some(w) ==> l'.lock.writer == l.lock.writer)
  }

  predicate Allowed(k: SetLock, w: Who, p: Slot, l: Line, l': Line) {
    AgentChange(k, w, l, l') || Grab(k, w, p, l, l') || OwnChange(w, p, l, l') || Build(k, w, p, l, l') || LockChange(w, l, l')
  }

  predicate LockAllowed(w: Who, k: SetLock, k': SetLock) {
    && LockOk(k')
    && k'.rw.readers - {w} == k.rw.readers - {w}
    && (k.rw.writer.Some? && k.rw.writer != Some(w) ==> k' == k)
    && (k'.rw.writer.Some? && k'.rw.writer != Some(w) ==> k' == k)
  }

  ghost predicate EffectOk(s: State, w: Who, e: Effect) {
    && (e.wr.Some? ==> var (p, l') := e.wr.value; Allowed(LockOf(s.locks, p.set_), w, p, At(s.lines, p), l'))
    && (e.lk.Some? ==> var (h, k') := e.lk.value; LockAllowed(w, LockOf(s.locks, h), k'))
  }

  // ---- what another thread can rely on -------------------------------------------

  predicate RelyAt(v: Who, k: SetLock, p: Slot, l: Line, l': Line) {
    && (v.AppId? && l.owner == Some(v.n) ==>
          && l'.owner == l.owner && l'.tag == l.tag && l'.data == l.data && l'.dirty == l.dirty
          && (!p.shadow ==> l'.st == l.st && (l.flag ==> l'.flag))
          && (p.shadow ==>
                && (l.Stable() ==> l'.Stable()) && (l.st == Invalid ==> l'.st == Invalid)
                && ((l.st.ToPreserved? || l.st.ToShared?) ==> (l'.st.ToPreserved? || l'.st.ToShared?))
                && (l'.st == ToPreserved ==> l.st == ToPreserved)))
    && (v in k.rw.readers || k.rw.writer == Some(v) ==> l'.tag == l.tag && (l'.Used() ==> l.Used()))
    && (k.rw.writer == Some(v) && !p.shadow && l.Stable() ==> l'.st == l.st && l'.data == l.data)
    && (k.rw.writer == Some(v) && !p.shadow && !l.Used() ==> !l'.Used())
    && (l.lock.writer == Some(v) ==> l'.lock.writer == Some(v))
    && (!p.shadow && l.Used() ==> l'.Used())
  }

  ghost predicate Rely(v: Who, lines: Lines, locks: Locks, lines': Lines, locks': Locks) {
    && (forall p: Slot :: RelyAt(v, LockOf(locks, p.set_), p, At(lines, p), At(lines', p)))
    && (forall h :: LockRely(v, LockOf(locks, h), LockOf(locks', h)))
  }

  predicate LockRely(v: Who, k: SetLock, k': SetLock) {
    && (v in k.rw.readers <==> v in k'.rw.readers)
    && (k.rw.writer == Some(v) <==> k'.rw.writer == Some(v))
    && (k.rw.writer == Some(v) ==> k'.moving == k.moving)
  }

  lemma AllowedRely(c: Config, v: Who, w: Who, k: SetLock, p: Slot, l: Line, l': Line)
    requires v != w && LockOk(k) && LineOk(c, p, l) && LineOk(c, p, l') && Allowed(k, w, p, l, l')
    ensures RelyAt(v, k, p, l, l')
  {
  }

  lemma EffectRely(c: Config, s: State, w: Who, e: Effect, v: Who)
    requires LinesInv(c, s) && LocksInv(s) && EffectOk(s, w, e) && v != w
    requires e.wr.Some? ==> LineOk(c, e.wr.value.0, e.wr.value.1)
    ensures Rely(v, s.lines, s.locks, Apply(s, e).lines, Apply(s, e).locks)
  {
    var s' := Apply(s, e);
    forall p: Slot ensures RelyAt(v, LockOf(s.locks, p.set_), p, At(s.lines, p), At(s'.lines, p)) {
      assert LineOk(c, p, At(s.lines, p)) && LockOk(LockOf(s.locks, p.set_));
      if e.wr.Some? && e.wr.value.0 == p {
        AllowedRely(c, v, w, LockOf(s.locks, p.set_), p, At(s.lines, p), At(s'.lines, p));
      }
    }
    forall h ensures LockRely(v, LockOf(s.locks, h), LockOf(s'.locks, h)) {
      if e.lk.Some? && e.lk.value.0 == h {
        var k, k' := LockOf(s.locks, h), LockOf(s'.locks, h);
        assert v in k.rw.readers <==> v in k.rw.readers - {w};
        assert v in k'.rw.readers <==> v in k'.rw.readers - {w};
      }
    }
  }

  lemma NoTagRely(v: Who, lines: Lines, locks: Locks, lines': Lines, locks': Locks, h: nat, t: Tag, n: nat)
    requires Rely(v, lines, locks, lines', locks') && LockOf(locks, h).rw.writer == Some(v)
    requires NoTag(lines, h, t, n)
    ensures NoTag(lines', h, t, n)
  {
    forall j | 0 <= j < n
      ensures !At(lines', Slot(false, h, j)).Holds(t) && !At(lines', Slot(true, h, j)).Holds(t)
    {
      var p, q := Slot(false, h, j), Slot(true, h, j);
      assert RelyAt(v, LockOf(locks, p.set_), p, At(lines, p), At(lines', p));
      assert RelyAt(v, LockOf(locks, q.set_), q, At(lines, q), At(lines', q));
    }
  }

  lemma MineRely(lines: Lines, locks: Locks, lines': Lines, locks': Locks, u: nat, p: Slot)
    requires Rely(AppId(u), lines, locks, lines', locks')
    ensures Mine(lines, u, p) ==> Mine(lines', u, p)
    ensures Mine(lines, u, p) && At(lines, p).Stable() ==> At(lines', p).Stable()
    ensures Mine(lines, u, p) && At(lines, p).st == Invalid ==> At(lines', p).st == Invalid
    ensures forall d :: Mine(lines, u, p) && Sent(lines, p, d) ==> Sent(lines', p, d)
    ensures LineLocked(lines, u, p) ==> LineLocked(lines', u, p)
  {
    assert RelyAt(AppId(u), LockOf(locks, p.set_), p, At(lines, p), At(lines', p));
  }

  lemma OwnRely(lines: Lines, locks: Locks, lines': Lines, locks': Locks, u: nat, t: Tag, p: Slot, req: Req, ow: OwnPc)
    requires Rely(AppId(u), lines, locks, lines', locks')
    requires OwnOk(lines, u, t, p, req, ow)
    ensures OwnOk(lines', u, t, p, req, ow)
  {
    assert RelyAt(AppId(u), LockOf(locks, p.set_), p, At(lines, p), At(lines', p));
  }

  lemma FindRely(c: Config, lines: Lines, locks: Locks, lines': Lines, locks': Locks, u: nat, t: Tag, pc: FindPc)
    requires c.Valid()
    requires Rely(AppId(u), lines, locks, lines', locks') && AppId(u) in LockOf(locks, c.home(t)).rw.readers
    requires FindOk(c, lines, t, pc)
    ensures FindOk(c, lines', t, pc)
  {
    forall j | FoundMain(c, lines, t, j) ensures FoundMain(c, lines', t, j) {
      var p := Slot(false, c.home(t), j);
      assert RelyAt(AppId(u), LockOf(locks, p.set_), p, At(lines, p), At(lines', p));
    }
  }

  lemma NewRely(c: Config, lines: Lines, locks: Locks, lines': Lines, locks': Locks, u: nat, a: App, pc: NewPc)
    requires c.Valid()
    requires Rely(AppId(u), lines, locks, lines', locks') && LockOf(locks, c.home(a.t)).rw.writer == Some(AppId(u))
    requires NewOk(c, lines, u, a, pc)
    ensures NewOk(c, lines', u, a, pc)
  {
    var h := c.home(a.t);
    var n := if pc.Scan? then pc.i else c.width;
    if NoTag(lines, h, a.t, n) { NoTagRely(AppId(u), lines, locks, lines', locks', h, a.t, n); }
    forall j | 0 <= j
      ensures var p := Slot(false, h, j); RelyAt(AppId(u), LockOf(locks, h), p, At(lines, p), At(lines', p))
      ensures var p := Slot(true, h, j); RelyAt(AppId(u), LockOf(locks, h), p, At(lines, p), At(lines', p))
    {
      var p, q := Slot(false, h, j), Slot(true, h, j);
      assert RelyAt(AppId(u), LockOf(locks, p.set_), p, At(lines, p), At(lines', p));
      assert RelyAt(AppId(u), LockOf(locks, q.set_), q, At(lines, q), At(lines', q));
    }
    if pc.Refill? { MineRely(lines, locks, lines', locks', u, Slot(true, h, pc.w)); }
  }

  lemma PcRely(c: Config, lines: Lines, locks: Locks, lines': Lines, locks': Locks, u: nat, a: App)
    requires c.Valid()
    requires Rely(AppId(u), lines, locks, lines', locks') && LocksHeld(c, locks, u, a)
    requires PcOk(c, lines, u, a)
    ensures PcOk(c, lines', u, a)
  {
    match a.pc
    case Find(pc) => if pc != RLockSet { FindRely(c, lines, locks, lines', locks', u, a.t, pc); }
    case New(pc) => if pc != WLockSet { NewRely(c, lines, locks, lines', locks', u, a, pc); }
    case Own(p, req, ow) => OwnRely(lines, locks, lines', locks', u, a.t, p, req, ow);
    case _ =>
  }

  lemma EvRely(lines: Lines, locks: Locks, lines': Lines, locks': Locks, u: nat, a: App)
    requires Rely(AppId(u), lines, locks, lines', locks')
    requires EvOk(lines, u, a)
    ensures EvOk(lines', u, a)
  {
    MineRely(lines, locks, lines', locks', u, DefaultSlot(a.evict.cur));
    MineRely(lines, locks, lines', locks', u, DefaultSlot(a.evict.next));
    if a.pc.Touch? {
      MineRely(lines, locks, lines', locks', u, a.pc.p);
    }
  }

  lemma AppRely(c: Config, lines: Lines, locks: Locks, lines': Lines, locks': Locks, u: nat, a: App)
    requires c.Valid()
    requires Rely(AppId(u), lines, locks, lines', locks')
    requires AppOk(c, lines, locks, u, a)
    ensures AppOk(c, lines', locks', u, a)
  {
    assert LockRely(AppId(u), LockOf(locks, c.home(a.t)), LockOf(locks', c.home(a.t)));
    PcRely(c, lines, locks, lines', locks', u, a);
    EvRely(lines, locks, lines', locks', u, a);
    forall p | p in a.pool.pend ensures Mine(lines', u, p) { MineRely(lines, locks, lines', locks', u, p); }
    forall p | p in a.pool.fills ensures At(lines', p).Used() {
      assert RelyAt(AppId(u), LockOf(locks, p.set_), p, At(lines, p), At(lines', p));
    }
  }

  lemma AgentRely(c: Config, lines: Lines, locks: Locks, lines': Lines, locks': Locks, v: nat, g: Agent)
    requires c.Valid()
    requires Rely(AgentId(v), lines, locks, lines', locks')
    requires forall p :: LineOk(c, p, At(lines', p))
    requires AgentOk(c, lines, locks, v, g)
    ensures AgentOk(c, lines', locks', v, g)
  {
    var h := c.home(g.msg.tag);
    assert LockRely(AgentId(v), LockOf(locks, h), LockOf(locks', h));
    if AgentHoldsRead(g.pc) {
      forall p: Slot | p.set_ == h
        ensures At(lines', p).Holds(g.msg.tag) ==> At(lines, p).Holds(g.msg.tag)
        ensures At(lines', p).Used() ==> At(lines, p).Used()
        ensures At(lines', p).tag == At(lines, p).tag
        ensures !p.shadow && At(lines, p).Holds(g.msg.tag) ==> At(lines', p).Holds(g.msg.tag)
      {
        assert RelyAt(AgentId(v), LockOf(locks, p.set_), p, At(lines, p), At(lines', p));
      }
      if g.pc.ALoad? || g.pc.ACas? {
        forall q | At(lines', q).Holds(g.msg.tag) ensures q == g.pc.p {
          assert LineOk(c, q, At(lines', q));
        }
      }
    }
  }

  // ---- the other threads after a step ---------------------------------------------

  lemma OthersKeep(c: Config, s: State, w: Who, e: Effect)
    requires c.Valid() && LinesInv(c, s) && LocksInv(s) && AppsInv(c, s) && AgentsInv(c, s) && EffectOk(s, w, e)
    requires forall p :: LineOk(c, p, At(Apply(s, e).lines, p))
    ensures LocksInv(Apply(s, e))
    ensures forall u :: u in s.apps && AppId(u) != w ==> AppOk(c, Apply(s, e).lines, Apply(s, e).locks, u, s.apps[u])
    ensures forall v :: v in s.agents && AgentId(v) != w ==> AgentOk(c, Apply(s, e).lines, Apply(s, e).locks, v, s.agents[v])
  {
    var s' := Apply(s, e);
    if e.wr.Some? { assert LineOk(c, e.wr.value.0, At(s'.lines, e.wr.value.0)); }
    forall h ensures LockOk(LockOf(s'.locks, h)) {
      assert LockOk(LockOf(s.locks, h));
    }
    forall u | u in s.apps && AppId(u) != w ensures AppOk(c, s'.lines, s'.locks, u, s.apps[u]) {
      EffectRely(c, s, w, e, AppId(u));
      AppRely(c, s.lines, s.locks, s'.lines, s'.locks, u, s.apps[u]);
    }
    forall v | v in s.agents && AgentId(v) != w ensures AgentOk(c, s'.lines, s'.locks, v, s.agents[v]) {
      EffectRely(c, s, w, e, AgentId(v));
      AgentRely(c, s.lines, s.locks, s'.lines, s'.locks, v, s.agents[v]);
    }
  }
}
