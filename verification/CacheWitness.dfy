/** The exceptions that the cache theorems name do occur: a tag in two lines, and a thread that is lost in
    either way after a refusal. */
module CacheWitness {
  import opened Options
  import opened CacheState
  import opened CacheSteps
  import opened CacheOwnProof
  import opened CacheScript
  import opened CacheReach
  import T = CacheTheorems
  import R = CacheRefused
  import U = CacheUndo
  import CacheLines

  /** A cache of one set and one way. */
  const ONE: Config := Config(1, 1, (t: Tag) => 0)
  const MAIN: Slot := Slot(false, 0, 0)
  const SHADOW: Slot := Slot(true, 0, 0)

  lemma OneValid()
    ensures ONE.Valid()
  {}

  // ---- the start ---------------------------------------------------------------------------------------

  const IDLE: App := App(Idle, Read, 0, false, Eviction(false, None, false, None, false, None), Pool([0, 1], {}, {}, 2))
  const NO_MESSAGE: AgentMsg := AgentMsg(0, OtherAgentMsg)

  /** One thread with two buffers, and one agent. */
  const START: State := State(map[], map[], map[0 := IDLE], map[0 := Agent(AIdle, NO_MESSAGE)],
                              map[0 := InStack(0, 0), 1 := InStack(0, 1)], {}, {})

  ghost function Here(refused: bool): State -> bool
    requires ONE.Valid()
  {
    Reaching(ONE, START, refused)
  }

  lemma StartsHere()
    ensures T.Init(START)
  {
    var stacks: seq<seq<Buf>>, loc := [[0, 1]], map[0 := InStack(0, 0), 1 := InStack(0, 1)];
    assert CacheLines.Put(stacks, loc, 0, 0) && CacheLines.Put(stacks, loc, 0, 1);
    forall u, k | 0 <= u < |stacks| && 0 <= k < |stacks[u]| ensures CacheLines.Put(stacks, loc, u, k) {}
    CacheLines.StartsRuns(stacks, map[], loc, {0});
    var s := CacheLines.Started(stacks, map[], loc, {0});
    assert s.apps == START.apps && s.agents == START.agents;
    assert s == START;
  }

  // ---- a tag in two lines --------------------------------------------------------------------------------

  /** A main line that holds tag t in buffer b, SHARED. */
  function Held(t: Tag, b: Buf): Line { EMPTY_LINE.(tag := t, data := Some(b), st := Shared) }

  /** The thread after its first access, which has put tag 0 into the main line. */
  const FIRST: App := IDLE.(succ := true, pool := Pool([0], {}, {MAIN}, 2))

  lemma ToFirst() returns (s: State)
    requires ONE.Valid()
    ensures On(ONE, Here(false), s, 0, FIRST, OPEN) && s.agents == START.agents
    ensures At(s.lines, MAIN) == Held(0, 1) && At(s.lines, SHADOW) == EMPTY_LINE
  {
    StartsHere();
    Starts(ONE, START);
    ReachingCloses(ONE, START, false, 0);
    var w;
    assert Free(ONE, START.lines, 0, 0);
    s, w := FillAccess(ONE, Here(false), START, 0, IDLE, Read, 0);
    assert {} + {MAIN} == {MAIN} && [0, 1][..1] == [0];
  }

  /** The thread when tag 0 is in both lines. */
  const DOUBLE: App := IDLE.(t := 1, pc := New(Refill(0)), pool := Pool([0], {SHADOW}, {MAIN}, 2))

  lemma ToDouble() returns (s: State)
    requires ONE.Valid()
    ensures On(ONE, Here(false), s, 0, DOUBLE, WrittenBy(0).(moving := Some(0))) && s.agents == START.agents
    ensures At(s.lines, MAIN) == Held(0, 1) && At(s.lines, SHADOW) == Held(0, 1).(owner := Some(0))
  {
    var av, ev;
    s := ToFirst();
    assert Movable(ONE, s.lines, 0, 0);
    s, av, ev := Search(ONE, Here(false), s, 0, FIRST, Read, 1);
    s := MoveOut(ONE, Here(false), s, 0, Searched(ONE, FIRST, Read, 1, av, ev), av, 0);
    assert {} + {SHADOW} == {SHADOW};
  }

  predicate InTwoLines(s: State) {
    var l, l' := At(s.lines, MAIN), At(s.lines, SHADOW);
    l.Used() && l'.Used() && l.tag == l'.tag && l.data == l'.data
  }

  /** A run puts one tag, and one buffer, in two lines. */
  lemma TagInTwoLines()
    ensures ONE.Valid() && exists ss: seq<State>, es: seq<T.Event> :: T.Run(ONE, ss, es) && InTwoLines(ss[|es|])
  {
    OneValid();
    var s := ToDouble();
    var ss, es :| EndsIn(ONE, ss, es, s);
    assert T.Run(ONE, ss, es) && InTwoLines(ss[|es|]);
  }

  // ---- a refused eviction ----------------------------------------------------------------------------------

  /** The shadow line when its EVICT_SHARED has been sent. */
  const EVICTED: Line := Held(0, 1).(st := ToPreserved, owner := Some(0), lock := RW(Some(AppId(0)), {}))

  /** The thread when it waits for the answer. */
  const WAITING: App := IDLE.(t := 1, succ := true, pc := Wait(WRecv), pool := Pool([], {SHADOW}, {MAIN}, 2),
                              evict := Eviction(false, None, true, Some(SHADOW), false, None))

  lemma ToSent() returns (s: State)
    requires ONE.Valid()
    ensures On(ONE, Here(false), s, 0, WAITING.(succ := false, pc := Find(RLockSet)), OPEN) && s.agents == START.agents
    ensures At(s.lines, MAIN) == Held(1, 0).(st := Invalid) && At(s.lines, SHADOW) == EVICTED
  {
    s := ToDouble();
    s := FinishMove(ONE, Here(false), s, 0, DOUBLE, 0);
    assert [0][..0] == [];
  }

  /** Up to the moment when the thread waits for the answer to its EVICT_SHARED. */
  lemma ToAnswer() returns (s: State)
    requires ONE.Valid()
    ensures On(ONE, Here(false), s, 0, WAITING, OPEN) && s.agents == START.agents
    ensures At(s.lines, MAIN) == Held(1, 0) && At(s.lines, SHADOW) == EVICTED
  {
    var a := WAITING.(succ := false, pc := Find(RLockSet));
    s := ToSent();
    s := MissAndWait(ONE, Here(false), s, 0, a, 0);
  }

  /** The refusal arrives. */
  lemma Refusal(s: State) returns (s': State)
    requires ONE.Valid() && Reached(ONE, START, s, false) && 0 in s.apps && s.apps[0] == WAITING && At(s.lines, SHADOW).tag == 0
    ensures Reached(ONE, START, s', true) && s'.lines == s.lines && s'.locks == s.locks
    ensures 0 in s'.apps && s'.apps[0] == WAITING.Go(Wait(Revert(0)))
  {
    var inp := Recv(Msg(0, MCheckFail));
    var r := AppMove(ONE, s, 0, WAITING, inp);
    s' := After(s, 0, r.a, r.e);
    assert R.Refuses(s, T.ByApp(0, inp), 0);
    Extend(ONE, START, s, false, T.ByApp(0, inp), s');
  }

  /** The refusal is undone and the eviction started again, up to the lock. */
  lemma Retry(s: State) returns (s': State)
    requires ONE.Valid() && On(ONE, Here(true), s, 0, WAITING.Go(Wait(Revert(0))), OPEN) && At(s.lines, SHADOW) == EVICTED
    ensures Reached(ONE, START, s', true) && U.LostAt(s', 0)
  {
    var a := WAITING.Go(Wait(Revert(0)));
    s' := UndoOut(ONE, Here(true), s, 0, a, SHADOW);
    s' := OutAgain(ONE, Here(true), s', 0, a.(evict := a.evict.(startNext := true, next := a.evict.cur), pc := Evict(EvStart, true)), SHADOW);
  }

  /** A run has an eviction refused, and its thread then waits for its own lock. */
  lemma RefusalLosesThread()
    ensures ONE.Valid() && exists ss: seq<State>, es: seq<T.Event> :: T.Run(ONE, ss, es) && HasRefusal(ss, es) && U.LostAt(ss[|es|], 0)
  {
    OneValid();
    ReachingCloses(ONE, START, true, 0);
    var s := ToAnswer();
    s := Refusal(s);
    s := Retry(s);
    var ss, es :| EndsIn(ONE, ss, es, s) && HasRefusal(ss, es);
    assert T.Run(ONE, ss, es);
  }

  // ---- the agent's part ----------------------------------------------------------------------------

  /** The thread waits, and agent 0 is as given. */
  ghost predicate Seen(s: State, l: Line, k: SetLock, g: Agent)
    requires ONE.Valid()
  {
    AgentOn(ONE, START, s, 0, g, k) && At(s.lines, MAIN) == Held(1, 0) && At(s.lines, SHADOW) == l && 0 in s.apps && s.apps[0] == WAITING
  }

  const READ_MISS: AgentMsg := AgentMsg(0, ReadMissDirty)

  const AGENT_READS: SetLock := SetLock(RW(None, {AgentId(0)}), None)

  /** Agent 0 takes READ_MISS_DIRTY for tag 0 and finds the line that is being evicted. */
  lemma AgentFinds(s: State) returns (s': State)
    requires ONE.Valid() && Seen(s, EVICTED, OPEN, Agent(AIdle, NO_MESSAGE))
    ensures Seen(s', EVICTED, AGENT_READS, Agent(ALoad(SHADOW), READ_MISS))
  {
    s' := DoAgent(ONE, START, s, 0, RecvAgent(READ_MISS), Agent(AIdle, NO_MESSAGE), OPEN);
    s' := DoAgent(ONE, START, s', 0, Tau, Agent(ALock, READ_MISS), OPEN);
    assert FREE.readers + {AgentId(0)} == {AgentId(0)};
    s' := DoAgent(ONE, START, s', 0, Tau, Agent(AFindMain(0), READ_MISS), AGENT_READS);
    s' := DoAgent(ONE, START, s', 0, Tau, Agent(AFindMain(1), READ_MISS), AGENT_READS);
    s' := DoAgent(ONE, START, s', 0, Tau, Agent(AFindShadow(0, None), READ_MISS), AGENT_READS);
  }

  /** It takes the line from TO_PRESERVED to TO_SHARED. */
  lemma AgentTakes(s: State) returns (s': State)
    requires ONE.Valid() && Seen(s, EVICTED, AGENT_READS, Agent(ALoad(SHADOW), READ_MISS))
    ensures Seen(s', EVICTED.(st := ToShared), OPEN, Agent(AIdle, READ_MISS))
  {
    s' := DoAgent(ONE, START, s, 0, Tau, Agent(ALoad(SHADOW), READ_MISS), AGENT_READS);
    s' := DoAgent(ONE, START, s', 0, Tau, Agent(ACas(SHADOW, ToPreserved), READ_MISS), AGENT_READS);
    s' := AgentLeaves(s', EVICTED.(st := ToShared));
  }

  lemma AgentLeaves(s: State, l: Line) returns (s': State)
    requires ONE.Valid() && Seen(s, l, AGENT_READS, Agent(AUnlock, READ_MISS))
    ensures Seen(s', l, OPEN, Agent(AIdle, READ_MISS))
  {
    s' := DoAgent(ONE, START, s, 0, Tau, Agent(AUnlock, READ_MISS), AGENT_READS);
    assert AGENT_READS.rw.readers - {AgentId(0)} == {};
  }

  /** A run has an eviction refused after an agent has taken the line to TO_SHARED, and its thread then
      undoes the eviction for ever. */
  lemma RefusalSpinsThread()
    ensures ONE.Valid() && exists ss: seq<State>, es: seq<T.Event> :: T.Run(ONE, ss, es) && HasRefusal(ss, es) && U.SpinsAt(ss[|es|], 0)
  {
    OneValid();
    var s := ToAnswer();
    s := AgentFinds(s);
    s := AgentTakes(s);
    s := Refusal(s);
    var ss, es :| EndsIn(ONE, ss, es, s) && HasRefusal(ss, es);
    assert T.Run(ONE, ss, es) && U.SpinsAt(ss[|es|], 0);
  }
}
