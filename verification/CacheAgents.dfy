/** What an agent does to the lines of the cache: which change each message makes, and when its handler ends. */
module CacheAgents {
  import opened Options
  import opened CacheState
  import opened CacheSteps
  import opened CacheInv
  import opened CacheTheorems

  /** A status that a thread of the node is about to leave. */
  predicate Passing(st: Status) { st.ToShared? || st.ToModified? || st.ToPreserved? }

  /** What message m makes of a line. A READ_MISS_DIRTY takes MODIFIED to SHARED, and a line that is being
      evicted to TO_SHARED. The others take the status they are sent for, SHARED or MODIFIED, to INVALID, and
      raise the flag of a line that is in passing. */
  predicate Answers(m: AgentMsgType, l: Line, l': Line) {
    && !l.flag && l' == l.(flag := l'.flag, st := l'.st)
    && match m
       case ReadMissDirty => (l.st.Modified? && l'.Is(false, Shared)) || (l.st.ToPreserved? && l'.Is(false, ToShared))
       case WriteSharedNotOnly => (l.st.Shared? && l'.Is(false, Invalid)) || (Passing(l.st) && l'.Is(true, l.st))
       case WriteMissShared => (l.st.Shared? && l'.Is(false, Invalid)) || (Passing(l.st) && l'.Is(true, l.st))
       case WriteMissDirty => (l.st.Modified? && l'.Is(false, Invalid)) || (Passing(l.st) && l'.Is(true, l.st))
       case OtherAgentMsg => false
  }

  /** The agent has found line p for its message and has not yet answered. */
  predicate Handling(pc: AgentPc, p: Slot) { (pc.ALoad? || pc.ACas?) && pc.p == p }

  lemma ChangeIs(c: Config, s: State, v: nat, g: Agent, inp: Input, p: Slot)
    requires c.Valid() && AgentMove(c, s, v, g, inp).AgentMoves? && Sensible(g)
    ensures var r := AgentMove(c, s, v, g, inp); var l, l' := At(s.lines, p), At(Apply(s, r.ge).lines, p);
      && (l' != l ==> Handling(g.pc, p) && Answers(g.msg.mtype, l, l') && r.g == g.Go(AUnlock))
      && (Handling(g.pc, p) && !Handling(r.g.pc, p) ==> l.st.Preserved? || Answers(g.msg.mtype, l, l'))
  {}

  /** An agent handles only messages it knows, and tries only compare-and-swaps that its message asks for. */
  predicate Sensible(g: Agent) {
    && (g.pc.ALoad? || g.pc.ACas? ==> !g.msg.mtype.OtherAgentMsg?)
    && (g.pc.ACas? ==> Reaction(g.msg.mtype, g.pc.tmp).Some?)
  }

  /** An agent changes a line only in the set of its message's tag, only the one line that holds the tag, and only
      as its message asks; its handler then ends. It ends otherwise only on a line it finds PRESERVED. */
  lemma AgentChanges(c: Config, ss: seq<State>, es: seq<Event>, i: nat, p: Slot)
    requires c.Valid() && Run(c, ss, es) && i < |es| && es[i].ByAgent?
    ensures es[i].v in ss[i].agents && es[i].v in ss[i + 1].agents
    ensures At(ss[i + 1].lines, p) != At(ss[i].lines, p) ==>
      && Answers(ss[i].agents[es[i].v].msg.mtype, At(ss[i].lines, p), At(ss[i + 1].lines, p))
      && At(ss[i].lines, p).Holds(ss[i].agents[es[i].v].msg.tag) && OnlyAt(ss[i].lines, ss[i].agents[es[i].v].msg.tag, p)
      && ss[i + 1].agents[es[i].v].pc == AUnlock
    ensures var g, g' := ss[i].agents[es[i].v], ss[i + 1].agents[es[i].v];
      Handling(g.pc, p) && !Handling(g'.pc, p) ==>
        At(ss[i].lines, p).st.Preserved? || Answers(g.msg.mtype, At(ss[i].lines, p), At(ss[i + 1].lines, p))
  {
    RunInv(c, ss, es, i);
    assert Step(c, ss[i], es[i], ss[i + 1]);
    var v := es[i].v;
    var g := ss[i].agents[v];
    assert AgentOk(c, ss[i].lines, ss[i].locks, v, g);
    OnlyReactions(c, ss, es, i, v);
    ChangeIs(c, ss[i], v, g, es[i].inp, p);
  }

  lemma {:induction false} OnlyReactions(c: Config, ss: seq<State>, es: seq<Event>, i: nat, v: nat)
    requires c.Valid() && Run(c, ss, es) && i <= |es| && v in ss[i].agents
    ensures Sensible(ss[i].agents[v])
    decreases i
  {
    if i > 0 {
      assert Step(c, ss[i - 1], es[i - 1], ss[i - 1 + 1]);
      if v in ss[i - 1].agents { OnlyReactions(c, ss, es, i - 1, v); }
      if es[i - 1].ByAgent? && es[i - 1].v == v { NextSensible(c, ss[i - 1], v, ss[i - 1].agents[v], es[i - 1].inp); }
    }
  }

  lemma NextSensible(c: Config, s: State, v: nat, g: Agent, inp: Input)
    requires c.Valid() && AgentMove(c, s, v, g, inp).AgentMoves? && Sensible(g)
    ensures Sensible(AgentMove(c, s, v, g, inp).g)
  {}

  /** The message that agent v took last. */
  function LastMessage(ss: seq<State>, es: seq<Event>, i: nat, v: nat): AgentMsg
    requires i <= |es| < |ss|
    decreases i
  {
    if i == 0 then AgentMsg(0, OtherAgentMsg)
    else if es[i - 1].ByAgent? && es[i - 1].v == v && v in ss[i - 1].agents && ss[i - 1].agents[v].pc == AIdle && es[i - 1].inp.RecvAgent?
    then es[i - 1].inp.amsg
    else LastMessage(ss, es, i - 1, v)
  }

  /** An agent that is not idle works on the message it took last. */
  lemma {:induction false} WorksOnLast(c: Config, ss: seq<State>, es: seq<Event>, i: nat, v: nat)
    requires c.Valid() && Run(c, ss, es) && i <= |es| && v in ss[i].agents && ss[i].agents[v].pc != AIdle
    ensures ss[i].agents[v].msg == LastMessage(ss, es, i, v)
    decreases i
  {
    if i > 0 {
      assert Step(c, ss[i - 1], es[i - 1], ss[i - 1 + 1]);
      if es[i - 1].ByAgent? && es[i - 1].v == v { NextMessage(c, ss[i - 1], v, ss[i - 1].agents[v], es[i - 1].inp); }
      if ss[i - 1].agents[v].pc != AIdle { WorksOnLast(c, ss, es, i - 1, v); }
    }
  }

  lemma NextMessage(c: Config, s: State, v: nat, g: Agent, inp: Input)
    requires c.Valid() && AgentMove(c, s, v, g, inp).AgentMoves?
    ensures var g' := AgentMove(c, s, v, g, inp).g;
      if g.pc == AIdle then inp.RecvAgent? && g'.msg == inp.amsg else g'.msg == g.msg
  {}

  // ---- a handler that nobody disturbs -------------------------------------------------------------

  /** The statuses on which the handler of m ends, if the flag is not set. */
  predicate Ends(m: AgentMsgType, st: Status) {
    match m
    case ReadMissDirty => st.Modified? || st.ToPreserved?
    case WriteSharedNotOnly => st.Shared? || Passing(st)
    case WriteMissShared => st.Shared? || Passing(st)
    case WriteMissDirty => st.Modified? || Passing(st)
    case OtherAgentMsg => false
  }

  predicate AgentAt(s: State, v: nat, pc: AgentPc) { v in s.agents && s.agents[v].pc == pc }

  /** What two steps of the agent alone, from its load on, do to it and to the line. */
  predicate HandledAs(m: AgentMsgType, l: Line, pc: AgentPc, l': Line, p: Slot) {
    if l.st.Preserved? then pc == AIdle && l' == l
    else if !l.flag && Ends(m, l.st) then pc == AUnlock && Answers(m, l, l')
    else pc == ALoad(p) && l' == l
  }

  /** A handler that nobody disturbs ends at once on a PRESERVED line; in two steps, with its answer, exactly on
      the words for its message; and on any other word it is back at its load with the line unchanged, so that it
      goes on for as long as the word stays. */
  lemma HandlerAlone(c: Config, s: State, v: nat, p: Slot) returns (s1: State, s2: State)
    requires c.Valid() && AgentAt(s, v, ALoad(p)) && !s.agents[v].msg.mtype.OtherAgentMsg?
    ensures AgentNext(c, s, v, Tau, s1) && AgentNext(c, s1, v, Tau, s2) && v in s2.agents
    ensures HandledAs(s.agents[v].msg.mtype, At(s.lines, p), s2.agents[v].pc, At(s2.lines, p), p)
    ensures forall q :: q != p ==> At(s2.lines, q) == At(s.lines, q)
  {
    var g := s.agents[v];
    s1 := AgentTurn(c, s, v, g);
    s2 := AgentTurn(c, s1, v, s1.agents[v]);
  }

  lemma AgentTurn(c: Config, s: State, v: nat, g: Agent) returns (s': State)
    requires c.Valid() && v in s.agents && s.agents[v] == g && AgentMove(c, s, v, g, Tau).AgentMoves?
    ensures var r := AgentMove(c, s, v, g, Tau); s' == Apply(s, r.ge).(agents := s.agents[v := r.g])
    ensures AgentNext(c, s, v, Tau, s')
  {
    var r := AgentMove(c, s, v, g, Tau);
    s' := Apply(s, r.ge).(agents := s.agents[v := r.g]);
  }

  /** A compare-and-swap that fails leads back to the load, with nothing changed. */
  lemma LoadsAgain(c: Config, ss: seq<State>, es: seq<Event>, i: nat, v: nat, p: Slot, tmp: Status)
    requires c.Valid() && Run(c, ss, es) && i < |es| && es[i].ByAgent? && es[i].v == v
    requires AgentAt(ss[i], v, ACas(p, tmp)) && !At(ss[i].lines, p).Is(false, tmp)
    ensures AgentAt(ss[i + 1], v, ALoad(p)) && ss[i + 1].lines == ss[i].lines
  {
    assert Step(c, ss[i], es[i], ss[i + 1]);
    OnlyReactions(c, ss, es, i, v);
  }

  // ---- an agent's look-up ---------------------------------------------------------------------------

  predicate LooksUp(pc: AgentPc) { pc.ALock? || pc.AFindMain? || pc.AFindShadow? }

  /** Agent v goes on to the end of its look-up, k steps at most. */
  function Lookup(c: Config, s: State, v: nat, k: nat): State
    requires c.Valid()
    decreases k
  {
    if k == 0 || v !in s.agents || !LooksUp(s.agents[v].pc) then s
    else
      var r := AgentMove(c, s, v, s.agents[v], Tau);
      if r.AgentBlocked? then s else Lookup(c, Apply(s, r.ge).(agents := s.agents[v := r.g]), v, k - 1)
  }

  function NextLook(c: Config, s: State, v: nat): State
    requires c.Valid() && v in s.agents && AgentMove(c, s, v, s.agents[v], Tau).AgentMoves?
  {
    var r := AgentMove(c, s, v, s.agents[v], Tau);
    Apply(s, r.ge).(agents := s.agents[v := r.g])
  }

  predicate HoldsTag(lines: Lines, home: nat, t: Tag, shadow: bool, w: nat) { At(lines, Slot(shadow, home, w)).Holds(t) }

  /** At most one line of the set holds the tag. */
  ghost predicate OneHolds(lines: Lines, home: nat, t: Tag) {
    forall x: bool, y: bool, i, j {:trigger HoldsTag(lines, home, t, x, i), HoldsTag(lines, home, t, y, j)} ::
      HoldsTag(lines, home, t, x, i) && HoldsTag(lines, home, t, y, j) ==> x == y && i == j
  }

  /** What the look-up comes to: the line of the set that holds the tag, or the end of the handler when none does; a
      message that no handler knows fails the assertion there. */
  predicate LookedUp(c: Config, s: State, s': State, v: nat)
    requires c.Valid()
  {
    && v in s.agents && v in s'.agents && s'.lines == s.lines &&
    var g, pc := s.agents[v], s'.agents[v].pc;
    var home, t := c.home(g.msg.tag), g.msg.tag;
    && s'.agents[v].msg == g.msg
    && match pc
       case ALoad(p) => !g.msg.mtype.OtherAgentMsg? && p.set_ == home && p.way < c.width && At(s.lines, p).Holds(t)
       case ACrash(why) => why == BadReply && g.msg.mtype.OtherAgentMsg? && !NoneIn(c, s.lines, home, t, c.width, c.width)
       case AUnlock => NoneIn(c, s.lines, home, t, c.width, c.width)
       case _ => false
  }

  /** Neither the first i main lines nor the first j shadow lines of the set hold the tag. */
  predicate NoneIn(c: Config, lines: Lines, home: nat, t: Tag, i: nat, j: nat) {
    && (forall k :: 0 <= k < i ==> !HoldsTag(lines, home, t, false, k))
    && (forall k :: 0 <= k < j ==> !HoldsTag(lines, home, t, true, k))
  }

  lemma {:induction false} ShadowPart(c: Config, s: State, v: nat, i: nat, m: Option<nat>, k: nat)
    requires c.Valid() && AgentAt(s, v, AFindShadow(i, m)) && i <= c.width && k > c.width - i
    requires var home, t := c.home(s.agents[v].msg.tag), s.agents[v].msg.tag;
      && NoneIn(c, s.lines, home, t, if m.None? then c.width else 0, i) && OneHolds(s.lines, home, t)
      && (m.Some? ==> m.value < c.width && HoldsTag(s.lines, home, t, false, m.value))
    ensures LookedUp(c, s, Lookup(c, s, v, k), v)
    decreases c.width - i
  {
    var home, t := c.home(s.agents[v].msg.tag), s.agents[v].msg.tag;
    var s' := NextLook(c, s, v);
    assert Lookup(c, s, v, k) == Lookup(c, s', v, k - 1);
    if i < c.width {
      assert HoldsTag(s.lines, home, t, true, i) <==> At(s.lines, Slot(true, home, i)).Holds(t);
      if !HoldsTag(s.lines, home, t, true, i) { ShadowPart(c, s', v, i + 1, m, k - 1); }
    }
  }

  lemma {:induction false} MainPart(c: Config, s: State, v: nat, i: nat, k: nat)
    requires c.Valid() && AgentAt(s, v, AFindMain(i)) && i <= c.width && k > 2 * c.width - i + 1
    requires var home, t := c.home(s.agents[v].msg.tag), s.agents[v].msg.tag;
      NoneIn(c, s.lines, home, t, i, 0) && OneHolds(s.lines, home, t)
    ensures LookedUp(c, s, Lookup(c, s, v, k), v)
    decreases c.width - i
  {
    var home, t := c.home(s.agents[v].msg.tag), s.agents[v].msg.tag;
    var s' := NextLook(c, s, v);
    assert Lookup(c, s, v, k) == Lookup(c, s', v, k - 1);
    if i == c.width {
      ShadowPart(c, s', v, 0, None, k - 1);
    } else {
      assert HoldsTag(s.lines, home, t, false, i) <==> At(s.lines, Slot(false, home, i)).Holds(t);
      if HoldsTag(s.lines, home, t, false, i) {
        ShadowPart(c, s', v, 0, Some(i), k - 1);
      } else {
        MainPart(c, s', v, i + 1, k - 1);
      }
    }
  }

  lemma OneInSet(c: Config, s: State, home: nat, t: Tag)
    requires c.Valid() && LocksInv(s) && Unique(s.lines, s.locks) && LockOf(s.locks, home).rw.writer.None?
    ensures OneHolds(s.lines, home, t)
  {
    assert LockOk(LockOf(s.locks, home));
    forall x: bool, y: bool, i, j | HoldsTag(s.lines, home, t, x, i) && HoldsTag(s.lines, home, t, y, j) ensures x == y && i == j {
      var p, q := Slot(x, home, i), Slot(y, home, j);
      assert Live(s.locks, p, At(s.lines, p)) && Live(s.locks, q, At(s.lines, q));
    }
  }

  /** The look-up of an agent that nobody disturbs, once no thread writes the set, ends within 2 * width + 3 steps:
      at the line that holds the tag of its message, and at the end of its handler exactly when no line does. */
  lemma FindsAlone(c: Config, ss: seq<State>, es: seq<Event>, i: nat, v: nat)
    requires c.Valid() && Run(c, ss, es) && i <= |es| && AgentAt(ss[i], v, ALock)
    requires LockOf(ss[i].locks, c.home(ss[i].agents[v].msg.tag)).rw.writer.None?
    ensures LookedUp(c, ss[i], Lookup(c, ss[i], v, 2 * c.width + 3), v)
  {
    RunInv(c, ss, es, i);
    var s := ss[i];
    OneInSet(c, s, c.home(s.agents[v].msg.tag), s.agents[v].msg.tag);
    FindsFrom(c, s, v);
  }

  lemma FindsFrom(c: Config, s: State, v: nat)
    requires c.Valid() && AgentAt(s, v, ALock) && OneHolds(s.lines, c.home(s.agents[v].msg.tag), s.agents[v].msg.tag)
    requires LockOf(s.locks, c.home(s.agents[v].msg.tag)).rw.writer.None?
    ensures LookedUp(c, s, Lookup(c, s, v, 2 * c.width + 3), v)
  {
    var k := 2 * c.width + 2;
    var s', s2 := LocksSet(c, s, v, k);
    LooksFrom(c, s', v, k, s2);
    SameLookup(c, s, s', s2, v);
  }

  lemma LooksFrom(c: Config, s: State, v: nat, k: nat, s2: State)
    requires c.Valid() && AgentAt(s, v, AFindMain(0)) && k > 2 * c.width + 1 && s2 == Lookup(c, s, v, k)
    requires OneHolds(s.lines, c.home(s.agents[v].msg.tag), s.agents[v].msg.tag)
    ensures LookedUp(c, s, s2, v)
  {
    MainPart(c, s, v, 0, k);
  }

  lemma SameLookup(c: Config, s: State, s1: State, s2: State, v: nat)
    requires c.Valid() && LookedUp(c, s1, s2, v) && v in s.agents && s1.lines == s.lines && s1.agents[v].msg == s.agents[v].msg
    ensures LookedUp(c, s, s2, v)
  {}

  lemma LocksSet(c: Config, s: State, v: nat, k: nat) returns (s': State, s2: State)
    requires c.Valid() && AgentAt(s, v, ALock) && LockOf(s.locks, c.home(s.agents[v].msg.tag)).rw.writer.None?
    ensures AgentAt(s', v, AFindMain(0)) && s'.agents[v].msg == s.agents[v].msg && s'.lines == s.lines
    ensures s2 == Lookup(c, s', v, k) == Lookup(c, s, v, k + 1)
  {
    s' := NextLook(c, s, v);
    s2 := Lookup(c, s', v, k);
  }
}
