/** Every step of an agent keeps the invariant. */
module CacheAgentProof {
  import opened CacheState
  import opened CacheSteps
  import opened CacheInv
  import opened CacheProof
  import opened CacheOwnProof
  import opened CacheFindProof

  ghost predicate AgentAt(c: Config, s: State, v: nat, g: Agent, inp: Input, g': Agent, e: Effect)
    requires c.Valid()
  {
    v in s.agents && s.agents[v] == g && AgentOk(c, s.lines, s.locks, v, g) && AgentMove(c, s, v, g, inp) == AgentMoves(g', e)
  }

  ghost predicate AgentGood(c: Config, s: State, v: nat, g': Agent, e: Effect)
    requires c.Valid()
  {
    var s' := Apply(s, e);
    && EffectOk(s, AgentId(v), e) && Quiet(s, e) && LinesInv(c, s') && HistInv(s')
    && AgentOk(c, s'.lines, s'.locks, v, g')
  }

  /** A line that holds t while its set is read-locked is the only one. */
  lemma OnlyOne(c: Config, s: State, w: Who, t: Tag, p: Slot)
    requires c.Valid() && LinesInv(c, s) && LocksInv(s) && Unique(s.lines, s.locks)
    requires w in LockOf(s.locks, c.home(t)).rw.readers && At(s.lines, p).Holds(t)
    ensures OnlyAt(s.lines, t, p) && p.set_ == c.home(t)
  {
    assert LockOk(LockOf(s.locks, c.home(t)));
    assert LineOk(c, p, At(s.lines, p));
    forall q | At(s.lines, q).Holds(t) ensures q == p {
      assert LineOk(c, q, At(s.lines, q));
      assert Live(s.locks, p, At(s.lines, p)) && Live(s.locks, q, At(s.lines, q));
    }
  }

  /** A scan of every way that met t nowhere proves that no line holds it. */
  lemma NoneHolds(c: Config, s: State, t: Tag)
    requires c.Valid() && LinesInv(c, s)
    requires forall j :: 0 <= j < c.width ==> !At(s.lines, Slot(false, c.home(t), j)).Holds(t)
    requires forall j :: 0 <= j < c.width ==> !At(s.lines, Slot(true, c.home(t), j)).Holds(t)
    ensures forall q :: !At(s.lines, q).Holds(t)
  {
    forall q: Slot ensures !At(s.lines, q).Holds(t) {
      assert LineOk(c, q, At(s.lines, q));
      assert q == Slot(q.shadow, q.set_, q.way);
    }
  }

  /** The history after a message is finished: no line other than p holds the tag, and p is as the message wants it. */
  lemma FinishHist(s: State, m: AgentMsg, p: Slot, e: Effect)
    requires HistInv(s) && OnlyAt(s.lines, m.tag, p)
    requires e == Finished(m).(wr := e.wr) && (e.wr.Some? ==> e.wr.value.0 == p)
    requires HistOk(s.apps, s.revoked + e.revoke, s.downgraded + e.downgrade, p, At(Apply(s, e).lines, p))
    ensures HistInv(Apply(s, e))
  {
    var s' := Apply(s, e);
    forall q ensures HistOk(s'.apps, s'.revoked, s'.downgraded, q, At(s'.lines, q)) {
      assert HistOk(s.apps, s.revoked, s.downgraded, q, At(s.lines, q));
      assert q != p ==> !At(s.lines, q).Holds(m.tag);
      assert s'.revoked == s.revoked + e.revoke && s'.downgraded == s.downgraded + e.downgrade;
    }
  }

  lemma AgentLookGood(c: Config, s: State, v: nat, g: Agent, inp: Input, g': Agent, e: Effect)
    requires c.Valid() && AgentAt(c, s, v, g, inp, g', e)
    requires LinesInv(c, s) && LocksInv(s) && Unique(s.lines, s.locks) && HistInv(s)
    requires g.pc.AFindMain? || g.pc.AFindShadow?
    ensures AgentGood(c, s, v, g', e)
  {
    var t := g.msg.tag;
    var h := c.home(t);
    if g.pc.AFindShadow? {
      var j := g.pc.i;
      if g.pc.m.Some? {
        OnlyOne(c, s, AgentId(v), t, Slot(false, h, g.pc.m.value));
        NotBoth(c, s, AgentId(v), h, t, g.pc.m.value, j);
      } else if j >= c.width {
        NoneHolds(c, s, t);
        FinishHist(s, g.msg, Slot(true, h, c.width), e);
      } else if At(s.lines, Slot(true, h, j)).Holds(t) {
        OnlyOne(c, s, AgentId(v), t, Slot(true, h, j));
      }
    }
    assert Apply(s, e).lines == s.lines;
  }

  lemma AgentLockGood(c: Config, s: State, v: nat, g: Agent, inp: Input, g': Agent, e: Effect)
    requires c.Valid() && AgentAt(c, s, v, g, inp, g', e)
    requires LinesInv(c, s) && LocksInv(s) && HistInv(s)
    requires g.pc.AIdle? || g.pc.ALock? || g.pc.AUnlock?
    ensures AgentGood(c, s, v, g', e)
  {
    var k := LockOf(s.locks, c.home(g.msg.tag));
    assert LockOk(k);
    assert k.rw.readers + {AgentId(v)} - {AgentId(v)} == k.rw.readers - {AgentId(v)};
    assert k.rw.readers - {AgentId(v)} - {AgentId(v)} == k.rw.readers - {AgentId(v)};
    assert Apply(s, e).revoked == s.revoked && Apply(s, e).downgraded == s.downgraded;
  }

  lemma AgentLoadGood(c: Config, s: State, v: nat, g: Agent, inp: Input, g': Agent, e: Effect)
    requires c.Valid() && AgentAt(c, s, v, g, inp, g', e) && g.pc.ALoad?
    requires LinesInv(c, s) && HistInv(s)
    ensures AgentGood(c, s, v, g', e)
  {
    var p := g.pc.p;
    assert HistOk(s.apps, s.revoked, s.downgraded, p, At(s.lines, p));
    if At(s.lines, p).st == Preserved {
      FinishHist(s, g.msg, p, e);
    } else {
      assert Apply(s, e).revoked == s.revoked && Apply(s, e).downgraded == s.downgraded;
    }
  }

  /** The line an agent has just changed is as the history wants it. */
  lemma CasHist(c: Config, s: State, v: nat, g: Agent, inp: Input, g': Agent, e: Effect)
    requires c.Valid() && AgentAt(c, s, v, g, inp, g', e) && g.pc.ACas? && e.wr.Some?
    requires LineOk(c, g.pc.p, At(s.lines, g.pc.p))
    requires HistOk(s.apps, s.revoked, s.downgraded, g.pc.p, At(s.lines, g.pc.p))
    ensures HistOk(s.apps, s.revoked + e.revoke, s.downgraded + e.downgrade, g.pc.p, e.wr.value.1)
    ensures EffectOk(s, AgentId(v), e) && Quiet(s, e) && LineOk(c, g.pc.p, e.wr.value.1)
    ensures e.wr.value.1.owner == At(s.lines, g.pc.p).owner
    ensures e == Finished(g.msg).(wr := e.wr) && e.wr.value.0 == g.pc.p && g'.pc == AUnlock && g'.msg == g.msg
  {
  }

  lemma AgentCasGood(c: Config, s: State, v: nat, g: Agent, inp: Input, g': Agent, e: Effect)
    requires c.Valid() && AgentAt(c, s, v, g, inp, g', e) && g.pc.ACas?
    requires LinesInv(c, s) && HistInv(s)
    ensures AgentGood(c, s, v, g', e)
  {
    var p := g.pc.p;
    var s' := Apply(s, e);
    assert LineOk(c, p, At(s.lines, p)) && OwnerOk(s.apps, p, At(s.lines, p));
    assert HistOk(s.apps, s.revoked, s.downgraded, p, At(s.lines, p));
    if e.wr.Some? {
      CasHist(c, s, v, g, inp, g', e);
      FinishHist(s, g.msg, p, e);
      forall q ensures LineOk(c, q, At(s'.lines, q)) && OwnerOk(s'.apps, q, At(s'.lines, q)) {
        assert LineOk(c, q, At(s.lines, q)) && OwnerOk(s.apps, q, At(s.lines, q));
      }
    } else {
      assert s'.revoked == s.revoked && s'.downgraded == s.downgraded;
    }
  }

  lemma AgentKeeps(c: Config, s: State, v: nat, inp: Input, s': State)
    requires c.Valid() && Inv(c, s) && AgentNext(c, s, v, inp, s')
    ensures Inv(c, s')
  {
    var g := s.agents[v];
    var AgentMoves(g', e) := AgentMove(c, s, v, g, inp);
    AgentStepGood(c, s, v, g, inp, g', e);
    AgentInv(c, s, v, g', e);
    assert s' == Apply(s, e).(agents := s.agents[v := g']);
  }

  lemma AgentStepGood(c: Config, s: State, v: nat, g: Agent, inp: Input, g': Agent, e: Effect)
    requires c.Valid() && AgentAt(c, s, v, g, inp, g', e)
    requires LinesInv(c, s) && LocksInv(s) && Unique(s.lines, s.locks) && HistInv(s)
    ensures AgentGood(c, s, v, g', e)
  {
    match g.pc
    case AIdle => AgentLockGood(c, s, v, g, inp, g', e);
    case ALock => AgentLockGood(c, s, v, g, inp, g', e);
    case AUnlock => AgentLockGood(c, s, v, g, inp, g', e);
    case AFindMain(_) => AgentLookGood(c, s, v, g, inp, g', e);
    case AFindShadow(_, _) => AgentLookGood(c, s, v, g, inp, g', e);
    case ALoad(_) => AgentLoadGood(c, s, v, g, inp, g', e);
    case ACas(_, _) => AgentCasGood(c, s, v, g, inp, g', e);
    case ACrash(_) =>
  }

  lemma AgentInv(c: Config, s: State, v: nat, g': Agent, e: Effect)
    requires c.Valid() && Inv(c, s) && v in s.agents && AgentGood(c, s, v, g', e)
    ensures Inv(c, Apply(s, e).(agents := s.agents[v := g']))
  {
    var s' := Apply(s, e).(agents := s.agents[v := g']);
    OthersKeep(c, s, AgentId(v), e);
    forall z ensures Content(s', z) == Content(s, z) {
      if z.AtSlot? { QuietLine(s, e, z.p); }
    }
    forall p
      ensures var l, l' := At(s.lines, p), At(s'.lines, p);
              l'.tag == l.tag && l'.data == l.data && (Live(s'.locks, p, l') <==> Live(s.locks, p, l))
    {
      QuietLine(s, e, p);
    }
  }
}
