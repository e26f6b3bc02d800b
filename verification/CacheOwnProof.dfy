/** What a step of an application thread must establish, and the steps of the owner of a
    main line. */
module CacheOwnProof {
  import opened Options
  import opened CacheState
  import opened CacheSteps
  import opened CacheInv
  import opened CacheProof

  function After(s: State, u: nat, a': App, e: Effect): State {
    Apply(s, e).(apps := s.apps[u := a'])
  }

  /** The line written is as it should be. */
  ghost predicate WriteOk(c: Config, s: State, u: nat, a': App, e: Effect) {
    e.wr.Some? ==>
      var (p, l) := e.wr.value;
      var s' := After(s, u, a', e);
      LineOk(c, p, l) && OwnerOk(s'.apps, p, l) && HistOk(s'.apps, s'.revoked, s'.downgraded, p, l)
  }

  /** The lines that u owns and does not write stay owned, and a request that was still to
      be sent is still to be sent unless it is sent by this step. */
  ghost predicate OwnedKept(s: State, u: nat, a: App, a': App, e: Effect) {
    forall q :: !(e.wr.Some? && e.wr.value.0 == q) && At(s.lines, q).owner == Some(u) ==>
      && (if q.shadow then q in a'.pool.pend else Owning(a'.pc, q))
      && (!q.shadow && BeforeMiss(a.pc) ==> BeforeMiss(a'.pc) || At(s.lines, q).tag in e.asked)
      && (!q.shadow && BeforeSend(a.pc) && At(s.lines, q).st == ToModified ==>
            BeforeSend(a'.pc) || At(s.lines, q).tag in e.askedWrite)
  }

  /** What the invariant says of line p. */
  predicate LineFacts(c: Config, s: State, p: Slot) {
    LineOk(c, p, At(s.lines, p)) && OwnerOk(s.apps, p, At(s.lines, p)) && HistOk(s.apps, s.revoked, s.downgraded, p, At(s.lines, p))
  }

  /** What u knows before a step: its own invariant and which lines it owns. */
  ghost predicate Ready(c: Config, s: State, u: nat, a: App)
    requires c.Valid()
  {
    && AppOk(c, s.lines, s.locks, u, a) && OwnsOnly(s, u, a)
  }

  ghost predicate OwnsOnly(s: State, u: nat, a: App) {
    && u in s.apps && s.apps[u] == a
    && forall q :: At(s.lines, q).owner == Some(u) ==> if q.shadow then q in a.pool.pend else Owning(a.pc, q)
  }

  /** What a step of u must establish itself; the rest of the invariant follows from KeepInv. */
  ghost predicate Good(c: Config, s: State, u: nat, a: App, a': App, e: Effect)
    requires c.Valid()
  {
    && e.revoke == {} && e.downgrade == {}
    && EffectOk(s, AppId(u), e) && WriteOk(c, s, u, a', e) && OwnedKept(s, u, a, a', e)
    && AppOk(c, Apply(s, e).lines, Apply(s, e).locks, u, a')
  }

  /** A step that leaves tags, buffers and the use of every line alone. */
  ghost predicate Quiet(s: State, e: Effect) {
    && e.mv.None?
    && (e.wr.Some? ==> var (p, l') := e.wr.value; var l := At(s.lines, p);
          l'.tag == l.tag && l'.data == l.data && (l'.Used() <==> l.Used()))
    && (e.lk.Some? ==> var (h, k') := e.lk.value; k'.moving == LockOf(s.locks, h).moving)
  }

  lemma QuietLine(s: State, e: Effect, p: Slot)
    requires Quiet(s, e)
    ensures var l, l' := At(s.lines, p), At(Apply(s, e).lines, p);
            l'.tag == l.tag && l'.data == l.data && (l'.Used() <==> l.Used())
    ensures Live(Apply(s, e).locks, p, At(Apply(s, e).lines, p)) <==> Live(s.locks, p, At(s.lines, p))
  {
  }

  /** A quiet step of a thread that keeps its stack keeps tags unique and buffers in place. */
  lemma QuietStep(s: State, u: nat, a': App, e: Effect)
    requires u in s.apps && a'.pool == s.apps[u].pool && Quiet(s, e)
    requires Unique(s.lines, s.locks) && BufOk(s)
    ensures var s' := After(s, u, a', e);
            Unique(s'.lines, s'.locks) && BufOk(s')
  {
    var s' := After(s, u, a', e);
    forall p
      ensures var l, l' := At(s.lines, p), At(s'.lines, p);
              l'.tag == l.tag && l'.data == l.data && (Live(s'.locks, p, l') <==> Live(s.locks, p, l))
    {
      QuietLine(s, e, p);
    }
    forall z ensures Content(s', z) == Content(s, z) {
      if z.AtSlot? { QuietLine(s, e, z.p); }
    }
  }

  /** The lines and the history after a step of u. */
  lemma LinesAfter(c: Config, s: State, u: nat, a: App, a': App, e: Effect)
    requires LinesInv(c, s) && HistInv(s) && u in s.apps && s.apps[u] == a
    requires e.revoke == {} && e.downgrade == {} && WriteOk(c, s, u, a', e) && OwnedKept(s, u, a, a', e)
    ensures LinesInv(c, After(s, u, a', e)) && HistInv(After(s, u, a', e))
  {
    var s' := After(s, u, a', e);
    forall p
      ensures LineOk(c, p, At(s'.lines, p)) && OwnerOk(s'.apps, p, At(s'.lines, p))
      ensures HistOk(s'.apps, s'.revoked, s'.downgraded, p, At(s'.lines, p))
    {
      assert LineOk(c, p, At(s.lines, p)) && OwnerOk(s.apps, p, At(s.lines, p));
      assert HistOk(s.apps, s.revoked, s.downgraded, p, At(s.lines, p));
      if !(e.wr.Some? && e.wr.value.0 == p) {
        assert At(s'.lines, p) == At(s.lines, p);
      }
    }
  }

  lemma OwnedBy(c: Config, s: State, u: nat)
    requires c.Valid() && LinesInv(c, s) && AppsInv(c, s) && u in s.apps
    ensures Ready(c, s, u, s.apps[u])
  {
    forall q | At(s.lines, q).owner == Some(u)
      ensures if q.shadow then q in s.apps[u].pool.pend else Owning(s.apps[u].pc, q)
    {
      assert OwnerOk(s.apps, q, At(s.lines, q));
    }
  }

  /** Steps that write no line and no lock. */
  lemma LocalGood(c: Config, s: State, u: nat, a: App, a': App)
    requires c.Valid() && Ready(c, s, u, a)
    requires a'.pool == a.pool
    requires a.pc.Own? ==> a'.pc.Own? && a'.pc.p == a.pc.p && !BeforeSend(a.pc)
    requires AppOk(c, s.lines, s.locks, u, a')
    ensures Good(c, s, u, a, a', NOTHING)
  {
  }

  /** A position outside start_evict, wait_evict and the line-locked sections. */
  predicate Plain(pc: Pc) {
    !pc.Evict? && !pc.Wait? && (pc.Touch? ==> pc.ln.LockLine?)
  }

  predicate SameButPc(a: App, a': App) {
    a'.access == a.access && a'.t == a.t && a'.pool == a.pool && a'.evict == a.evict.(stash := a'.evict.stash)
  }

  lemma KeepPlain(c: Config, lines: Lines, u: nat, a: App, a': App)
    requires EvOk(lines, u, a) && SetsOk(c, lines, u, a)
    requires Plain(a.pc) && Plain(a'.pc) && SameButPc(a, a') && Debt(a.pc) == Debt(a'.pc)
    ensures EvOk(lines, u, a') && SetsOk(c, lines, u, a')
  {
  }

  /** Writing a main line does not disturb what the thread knows of its evictions. */
  lemma KeepSelf(c: Config, lines: Lines, u: nat, a: App, p: Slot, l': Line)
    requires EvOk(lines, u, a) && SetsOk(c, lines, u, a) && !a.pc.Touch?
    requires !p.shadow && l'.lock == At(lines, p).lock && l'.Used()
    ensures EvOk(lines[p := l'], u, a) && SetsOk(c, lines[p := l'], u, a)
  {
  }

  // ---- the owner of a main line ----------------------------------------------------

  lemma OwnLocal(c: Config, s: State, u: nat, a: App, a': App)
    requires c.Valid() && Ready(c, s, u, a) && a.pc.Own? && a'.pc.Own? && SameButPc(a, a')
    requires !BeforeSend(a.pc) && !a'.pc.ow.OwnUnlock? && a'.pc.p == a.pc.p && a'.pc.req == a.pc.req
    requires OwnOk(s.lines, u, a.t, a.pc.p, a.pc.req, a'.pc.ow)
    ensures Good(c, s, u, a, a', NOTHING)
  {
    KeepPlain(c, s.lines, u, a, a');
    LocalGood(c, s, u, a, a');
  }

  lemma AwaitShape(c: Config, s: State, u: nat, a: App, inp: Input, a': App, e: Effect)
    requires c.Valid() && OwnStepAt(c, s, u, a, inp, a', e) && (a.pc.ow.Await? || a.pc.ow.SpinFlag?)
    ensures e == NOTHING && SameButPc(a, a') && a'.pc.Own? && a'.pc.p == a.pc.p && a'.pc.req == a.pc.req
    ensures !BeforeSend(a'.pc) && !a'.pc.ow.Exit2? && (a'.pc.ow.Exit1? ==> a'.pc.ow.pass == 0)
  {
  }

  lemma AwaitGood(c: Config, s: State, u: nat, a: App, inp: Input, a': App, e: Effect)
    requires c.Valid() && Ready(c, s, u, a) && OwnStepAt(c, s, u, a, inp, a', e)
    requires a.pc.ow.Await? || a.pc.ow.SpinFlag?
    ensures Good(c, s, u, a, a', e) && Quiet(s, e) && a'.pool == a.pool
  {
    AwaitShape(c, s, u, a, inp, a', e);
    OwnLocal(c, s, u, a, a');
  }

  ghost predicate OwnStepAt(c: Config, s: State, u: nat, a: App, inp: Input, a': App, e: Effect)
    requires c.Valid()
  {
    a.pc.Own? && OwnStep(c, s, u, a, inp) == Moves(a', e)
  }

  lemma SendGood(c: Config, s: State, u: nat, a: App, inp: Input, a': App, e: Effect)
    requires c.Valid() && Ready(c, s, u, a) && OwnStepAt(c, s, u, a, inp, a', e)
    requires a.pc.ow.OwnUnlock? || a.pc.ow.Send?
    requires LockOk(LockOf(s.locks, c.home(a.t)))
    ensures Good(c, s, u, a, a', e) && Quiet(s, e) && a'.pool == a.pool
  {
    KeepPlain(c, s.lines, u, a, a');
  }

  /** The line p taken back to stable status st' by its owner. */
  function Left(s: State, p: Slot, st': Status): Effect {
    Wrote(p, At(s.lines, p).(flag := false, st := st', owner := None))
  }

  lemma LeaveWrite(c: Config, s: State, u: nat, a: App, st': Status, a': App)
    requires OwnsOnly(s, u, a) && a.pc.Own? && !BeforeSend(a.pc) && OwnOk(s.lines, u, a.t, a.pc.p, a.pc.req, a.pc.ow)
    requires var p := a.pc.p; LineOk(c, p, At(s.lines, p)) && HistOk(s.apps, s.revoked, s.downgraded, p, At(s.lines, p))
    requires st' == Invalid || (!At(s.lines, a.pc.p).flag && (st' == Shared || (st' == Modified && a.pc.req != ReadMissReq)))
    requires a'.pool == a.pool
    ensures var e := Left(s, a.pc.p, st');
            EffectOk(s, AppId(u), e) && WriteOk(c, s, u, a', e) && OwnedKept(s, u, a, a', e) && Quiet(s, e)
  {
  }

  lemma LeaveSelf(c: Config, lines: Lines, locks: Locks, u: nat, a: App, p: Slot, l': Line, a': App)
    requires c.Valid() && EvOk(lines, u, a) && SetsOk(c, lines, u, a) && a.pc.Own?
    requires !p.shadow && l'.lock == At(lines, p).lock && l'.Used()
    requires SameButPc(a, a') && (a'.pc.Tail? || (a'.pc.Touch? && a'.pc.ln.LockLine?))
    ensures AppOk(c, lines[p := l'], locks, u, a')
  {
    KeepPlain(c, lines, u, a, a');
    if a'.pc.Tail? { KeepSelf(c, lines, u, a', p, l'); }
  }

  /** The owner takes its line back to a stable status. */
  lemma LeaveGood(c: Config, s: State, u: nat, a: App, st': Status, a': App)
    requires c.Valid() && Ready(c, s, u, a) && a.pc.Own? && !BeforeSend(a.pc)
    requires var p := a.pc.p; LineOk(c, p, At(s.lines, p)) && HistOk(s.apps, s.revoked, s.downgraded, p, At(s.lines, p))
    requires st' == Invalid || (!At(s.lines, a.pc.p).flag && (st' == Shared || (st' == Modified && a.pc.req != ReadMissReq)))
    requires SameButPc(a, a') && (a'.pc.Tail? || (a'.pc.Touch? && a'.pc.ln.LockLine?))
    ensures var e := Left(s, a.pc.p, st'); Good(c, s, u, a, a', e) && Quiet(s, e)
  {
    LeaveWrite(c, s, u, a, st', a');
    LeaveSelf(c, s.lines, s.locks, u, a, a.pc.p, Left(s, a.pc.p, st').wr.value.1, a');
  }

  lemma ExitGood(c: Config, s: State, u: nat, a: App, inp: Input, a': App, e: Effect)
    requires c.Valid() && Ready(c, s, u, a) && OwnStepAt(c, s, u, a, inp, a', e)
    requires a.pc.ow.Exit1? || a.pc.ow.Exit2?
    requires var p := a.pc.p; LineOk(c, p, At(s.lines, p)) && HistOk(s.apps, s.revoked, s.downgraded, p, At(s.lines, p))
    ensures Good(c, s, u, a, a', e) && Quiet(s, e) && a'.pool == a.pool
  {
    if a.pc.ow.Exit1? && At(s.lines, a.pc.p).flag {
      LeaveGood(c, s, u, a, Invalid, a');
    } else if a.pc.ow.Exit2? && !At(s.lines, a.pc.p).flag {
      LeaveGood(c, s, u, a, Target(a.pc.req, a.pc.ow.got), a');
    } else {
      OwnLocal(c, s, u, a, a');
    }
  }
}
