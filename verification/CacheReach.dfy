/** States that runs reach, and how a script extends a run. */
module CacheReach {
  import opened CacheState
  import opened CacheSteps
  import opened CacheInv
  import opened CacheTheorems
  import opened CacheScript
  import R = CacheRefused

  ghost predicate EndsIn(c: Config, ss: seq<State>, es: seq<Event>, s: State)
    requires c.Valid()
  {
    Run(c, ss, es) && ss[|es|] == s
  }

  ghost predicate HasRefusal(ss: seq<State>, es: seq<Event>) {
    |ss| > |es| && exists i :: 0 <= i < |es| && R.Refuses(ss[i], es[i], 0)
  }

  /** Some run that starts in s0 ends in s; and, if so marked, thread 0 has had an eviction refused in it. */
  ghost predicate Reached(c: Config, s0: State, s: State, refused: bool)
    requires c.Valid()
  {
    exists ss, es :: EndsIn(c, ss, es, s) && ss[0] == s0 && (refused ==> HasRefusal(ss, es))
  }

  lemma Longer(c: Config, ss: seq<State>, es: seq<Event>, s: State, ev: Event, s': State)
    requires c.Valid() && EndsIn(c, ss, es, s) && Step(c, s, ev, s')
    ensures EndsIn(c, ss + [s'], es + [ev], s')
  {
    var ss', es' := ss + [s'], es + [ev];
    forall i | 0 <= i < |es'| ensures Step(c, ss'[i], es'[i], ss'[i + 1]) {
      if i < |es| { assert Step(c, ss[i], es[i], ss[i + 1]); }
    }
  }

  lemma Extend(c: Config, s0: State, s: State, refused: bool, ev: Event, s': State)
    requires c.Valid() && Reached(c, s0, s, refused) && Step(c, s, ev, s')
    ensures Reached(c, s0, s', refused || R.Refuses(s, ev, 0))
  {
    var ss, es :| EndsIn(c, ss, es, s) && ss[0] == s0 && (refused ==> HasRefusal(ss, es));
    Longer(c, ss, es, s, ev, s');
    StillRefused(ss, es, s', ev, refused);
  }

  lemma StillRefused(ss: seq<State>, es: seq<Event>, s': State, ev: Event, refused: bool)
    requires |ss| == |es| + 1 && (refused ==> HasRefusal(ss, es))
    ensures refused || R.Refuses(ss[|es|], ev, 0) ==> HasRefusal(ss + [s'], es + [ev])
  {
    var ss', es' := ss + [s'], es + [ev];
    if refused {
      var i :| 0 <= i < |es| && R.Refuses(ss[i], es[i], 0);
      assert R.Refuses(ss'[i], es'[i], 0);
    }
    if R.Refuses(ss[|es|], ev, 0) { assert R.Refuses(ss'[|es|], es'[|es|], 0); }
  }

  ghost function Reaching(c: Config, s0: State, refused: bool): State -> bool
    requires c.Valid()
  {
    (s: State) => c.Valid() && Reached(c, s0, s, refused)
  }

  /** Being reached goes on to hold as a thread moves, and so does having been refused. */
  lemma ReachingCloses(c: Config, s0: State, refused: bool, u: nat)
    requires c.Valid()
    ensures Closed(c, Reaching(c, s0, refused), u)
  {
    var P := Reaching(c, s0, refused);
    forall s, inp, s' | P(s) && AppNext(c, s, u, inp, s') ensures P(s') { Extend(c, s0, s, refused, ByApp(u, inp), s'); }
  }

  /** The invariant holds, and every thread still has the buffers it started with or has used them. */
  lemma ReachedInv(c: Config, s0: State, s: State)
    requires c.Valid() && Reached(c, s0, s, false)
    ensures Inv(c, s) && s.apps.Keys == s0.apps.Keys
    ensures forall u :: u in s0.apps ==> s.apps[u].pool.quota == |s0.apps[u].pool.stack|
  {
    var ss, es :| EndsIn(c, ss, es, s) && ss[0] == s0;
    RunInv(c, ss, es, |es|);
    RunStock(c, ss, es, |es|);
  }

  lemma Starts(c: Config, s0: State)
    requires c.Valid() && Init(s0)
    ensures Reached(c, s0, s0, false)
  {
    assert EndsIn(c, [s0], [], s0);
  }

  // ---- an agent's steps ----------------------------------------------------------------------------------

  /** Agent v is at g; the set of its tag has lock k. */
  ghost predicate AgentOn(c: Config, s0: State, s: State, v: nat, g: Agent, k: SetLock)
    requires c.Valid()
  {
    Reached(c, s0, s, false) && v in s.agents && s.agents[v] == g && LockOf(s.locks, c.home(g.msg.tag)) == k
  }

  /** The effect is on the set of the message that the agent has then. */
  predicate AgentInSet(c: Config, g: Agent, r: AgentStep) {
    r.AgentMoves? && r.g.msg.tag == g.msg.tag && (r.ge.lk.Some? ==> r.ge.lk.value.0 == c.home(g.msg.tag))
  }

  lemma DoAgent(c: Config, s0: State, s: State, v: nat, inp: Input, g: Agent, k: SetLock) returns (s': State)
    requires c.Valid() && AgentOn(c, s0, s, v, g, k) && AgentInSet(c, g, AgentMove(c, s, v, g, inp))
    ensures var r := AgentMove(c, s, v, g, inp);
      && s'.lines == (if r.ge.wr.Some? then s.lines[r.ge.wr.value.0 := r.ge.wr.value.1] else s.lines)
      && s'.apps == s.apps && AgentOn(c, s0, s', v, r.g, LockAfter(r.ge, k))
  {
    var r := AgentMove(c, s, v, g, inp);
    s' := Apply(s, r.ge).(agents := s.agents[v := r.g]);
    assert AgentNext(c, s, v, inp, s');
    Extend(c, s0, s, false, ByAgent(v, inp), s');
  }
}
