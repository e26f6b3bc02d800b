/** The steps of the lookup under the set's read lock. */
module CacheFindProof {
  import opened CacheState
  import opened CacheSteps
  import opened CacheInv
  import opened CacheProof
  import opened CacheOwnProof

  ghost predicate FindStepAt(c: Config, s: State, u: nat, a: App, a': App, e: Effect)
    requires c.Valid()
  {
    a.pc.Find? && FindStep(c, s, u, a) == Moves(a', e)
  }

  /** A main and a shadow line of one set cannot hold the same tag while the set is read-locked. */
  lemma NotBoth(c: Config, s: State, w: Who, h: nat, t: Tag, i: nat, j: nat)
    requires LocksInv(s) && Unique(s.lines, s.locks)
    requires w in LockOf(s.locks, h).rw.readers
    ensures !(At(s.lines, Slot(false, h, i)).Holds(t) && At(s.lines, Slot(true, h, j)).Holds(t))
  {
    var p, q := Slot(false, h, i), Slot(true, h, j);
    assert LockOk(LockOf(s.locks, h));
    assert At(s.lines, p).Used() ==> Live(s.locks, p, At(s.lines, p));
    assert At(s.lines, q).Used() ==> Live(s.locks, q, At(s.lines, q));
  }

  lemma FindLocal(c: Config, s: State, u: nat, a: App, a': App)
    requires c.Valid() && Ready(c, s, u, a) && SameButPc(a, a')
    requires a.pc.Find? && a'.pc.Find? && a.pc.fd != RLockSet && a'.pc.fd != RLockSet
    requires FindOk(c, s.lines, a.t, a'.pc.fd)
    ensures Good(c, s, u, a, a', NOTHING)
  {
    KeepPlain(c, s.lines, u, a, a');
    LocalGood(c, s, u, a, a');
  }

  lemma LookGood(c: Config, s: State, u: nat, a: App, a': App, e: Effect)
    requires c.Valid() && Ready(c, s, u, a) && FindStepAt(c, s, u, a, a', e)
    requires a.pc.fd.FindMain? || a.pc.fd.FindShadow?
    requires LocksInv(s) && Unique(s.lines, s.locks)
    ensures Good(c, s, u, a, a', e) && Quiet(s, e) && a'.pool == a.pool
  {
    if a.pc.fd.FindShadow? && a.pc.fd.m.Some? {
      NotBoth(c, s, AppId(u), c.home(a.t), a.t, a.pc.fd.m.value, a.pc.fd.i);
    }
    FindLocal(c, s, u, a, a');
  }

  lemma LockChangeGood(c: Config, s: State, u: nat, a: App, a': App, e: Effect)
    requires c.Valid() && Ready(c, s, u, a) && SameButPc(a, a')
    requires Plain(a.pc) && Plain(a'.pc) && Debt(a.pc) == Debt(a'.pc)
    requires !a.pc.Own? && PcOk(c, s.lines, u, a')
    requires e == NOTHING.(lk := e.lk) && EffectOk(s, AppId(u), e) && LocksHeld(c, Apply(s, e).locks, u, a')
    ensures Good(c, s, u, a, a', e)
  {
    KeepPlain(c, s.lines, u, a, a');
  }

  lemma RLockGood(c: Config, s: State, u: nat, a: App, a': App, e: Effect)
    requires c.Valid() && Ready(c, s, u, a) && FindStepAt(c, s, u, a, a', e)
    requires a.pc.fd.RLockSet? || a.pc.fd.RUnlockSet?
    requires LockOk(LockOf(s.locks, c.home(a.t)))
    ensures Good(c, s, u, a, a', e) && Quiet(s, e) && a'.pool == a.pool
  {
    LockChangeGood(c, s, u, a, a', e);
  }

  lemma GrabWrite(c: Config, s: State, u: nat, a: App, p: Slot, from: Status, req: Req, otherwise: FindPc, a': App, e: Effect)
    requires c.Valid() && OwnsOnly(s, u, a) && a.pc.Find? && AppId(u) in LockOf(s.locks, c.home(a.t)).rw.readers
    requires !p.shadow && p.set_ == c.home(a.t) && At(s.lines, p).tag == a.t
    requires LineOk(c, p, At(s.lines, p)) && HistOk(s.apps, s.revoked, s.downgraded, p, At(s.lines, p))
    requires if req == WriteSharedReq then from == Shared else from == Invalid
    requires TryOwn(s, u, a, p, from, req, otherwise) == Moves(a', e) && e.wr.Some?
    ensures EffectOk(s, AppId(u), e) && WriteOk(c, s, u, a', e) && OwnedKept(s, u, a, a', e) && Quiet(s, e)
    ensures LocksHeld(c, s.locks, u, a') && PcOk(c, Apply(s, e).lines, u, a')
  {
  }

  lemma GrabGood(c: Config, s: State, u: nat, a: App, p: Slot, from: Status, req: Req, otherwise: FindPc, a': App, e: Effect)
    requires c.Valid() && Ready(c, s, u, a) && a.pc.Find? && a.pc.fd != RLockSet
    requires !p.shadow && p.set_ == c.home(a.t) && At(s.lines, p).Holds(a.t)
    requires LineOk(c, p, At(s.lines, p)) && HistOk(s.apps, s.revoked, s.downgraded, p, At(s.lines, p))
    requires if req == WriteSharedReq then from == Shared else from == Invalid
    requires TryOwn(s, u, a, p, from, req, otherwise) == Moves(a', e)
    requires otherwise != RLockSet && FindOk(c, s.lines, a.t, otherwise)
    ensures Good(c, s, u, a, a', e) && Quiet(s, e) && a'.pool == a.pool
  {
    if e.wr.Some? {
      GrabWrite(c, s, u, a, p, from, req, otherwise, a', e);
      KeepPlain(c, s.lines, u, a, a');
      KeepSelf(c, s.lines, u, a', p, e.wr.value.1);
    } else {
      FindLocal(c, s, u, a, a');
    }
  }

  lemma DecideGood(c: Config, s: State, u: nat, a: App, a': App, e: Effect)
    requires c.Valid() && Ready(c, s, u, a) && FindStepAt(c, s, u, a, a', e)
    requires LinesInv(c, s) && HistInv(s)
    requires a.pc.fd.Decide? || a.pc.fd.CasInvalid?
    ensures Good(c, s, u, a, a', e) && Quiet(s, e) && a'.pool == a.pool
  {
    if a.pc.fd.Decide? && a.pc.fd.m.None? {
      FindLocal(c, s, u, a, a');
    } else {
      var w := if a.pc.fd.Decide? then a.pc.fd.m.value else a.pc.fd.w;
      var p := Slot(false, c.home(a.t), w);
      assert LineOk(c, p, At(s.lines, p)) && HistOk(s.apps, s.revoked, s.downgraded, p, At(s.lines, p));
      if a.pc.fd.CasInvalid? {
        GrabGood(c, s, u, a, p, Invalid, WriteMissReq, RUnlockSet(ToHit(p)), a', e);
      } else if a.access == Read {
        GrabGood(c, s, u, a, p, Invalid, ReadMissReq, RUnlockSet(ToHit(p)), a', e);
      } else {
        GrabGood(c, s, u, a, p, Shared, WriteSharedReq, CasInvalid(w), a', e);
      }
    }
  }
}
