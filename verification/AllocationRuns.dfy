/** Global memory allocation by all threads of all nodes: what is handed out never overlaps. */
module AllocationRuns {
  import opened Memory
  import opened LineAccess
  import opened Allocation

  /** `nodes` nodes with `agents` agents each; every agent allocates from `per` bytes. */
  datatype Config = Config(nodes: nat, agents: nat, per: nat)

  datatype AgentId = AgentId(node: nat, i: nat)

  /** Where a thread is in Cache::malloc. Stopped: it was refused a chunk and loops forever.
      Failed: an assert does not hold. */
  datatype Phase =
    | Idle
    | Asked(size: nat, align: bool)
    | Acked(size: nat, align: bool, chunk: nat)
    | Stopped
    | Failed

  /** next: the node to ask for the next chunk. */
  datatype Thread = Thread(alloc: Local, next: nat, phase: Phase)

  /** A result of malloc, and the chunk it was cut from. */
  datatype Grant = Grant(thread: nat, chunk: GAddr, at: GAddr, size: nat, align: bool)

  datatype Origin = Origin(thread: nat, agent: AgentId, i: nat)

  /** given and grants only record what happened. */
  datatype State = State(threads: seq<Thread>, agents: map<AgentId, Global>, given: map<GAddr, Origin>, grants: seq<Grant>)

  predicate InConfig(cfg: Config, a: AgentId) { a.node < cfg.nodes && a.i < cfg.agents }

  /** The region of an agent. */
  function RegionOf(cfg: Config, a: AgentId): GAddr { GAddr(a.node, cfg.per * a.i) }

  function Init(cfg: Config, threads: nat): State {
    State(seq(threads, i => Thread(Local(NULL, NULL, []), 0, Idle)),
          map a | a in AllAgents(cfg) :: NewGlobal(RegionOf(cfg, a), cfg.per), map[], [])
  }

  function AllAgents(cfg: Config): set<AgentId> { set n, i | 0 <= n < cfg.nodes && 0 <= i < cfg.agents :: AgentId(n, i) }

  lemma AgentsAll(cfg: Config, a: AgentId)
    ensures a in AllAgents(cfg) <==> InConfig(cfg, a)
  {
    if InConfig(cfg, a) { assert a == AgentId(a.node, a.i); }
  }

  // ---- steps ---------------------------------------------------------------------------------------------

  datatype Event =
    | Call(t: nat, size: nat, align: bool)
    | Serve(t: nat, agent: AgentId)
    | Receive(t: nat)

  predicate Enabled(s: State, e: Event) {
    && e.t < |s.threads|
    && match e
       case Call(t, size, align) => s.threads[t].phase.Idle? && size <= CHUNK
       case Serve(t, a) => s.threads[t].phase.Asked? && a in s.agents && a.node == s.threads[t].next
       case Receive(t) => s.threads[t].phase.Acked?
  }

  function Apply(cfg: Config, s: State, e: Event): State
    requires Enabled(s, e)
  {
    match e
    case Call(t, size, align) => Called(s, t, size, align)
    case Serve(t, a) => Served(s, t, a)
    case Receive(t) => Received(cfg, s, t)
  }

  predicate AssertOk(l: Local, size: nat, align: bool) { Start(l, align).addr + size <= GB40 }

  function Called(s: State, t: nat, size: nat, align: bool): State
    requires Enabled(s, Call(t, size, align))
  {
    var th := s.threads[t];
    var l := th.alloc;
    var phase := if !AssertOk(l, size, align) then Failed else if NeedsChunk(l, size, align) then Asked(size, align) else Idle;
    s.(threads := s.threads[t := Thread(AfterMalloc(l, size, align), th.next, phase)],
       grants := if phase.Idle? then s.grants + [Grant(t, l.head, Start(l, align), size, align)] else s.grants)
  }

  function Served(s: State, t: nat, a: AgentId): State
    requires Enabled(s, Serve(t, a))
  {
    var th, g := s.threads[t], s.agents[a];
    match Reply(g)
    case Given(c) =>
      State(s.threads[t := th.(phase := Acked(th.phase.size, th.phase.align, c.addr))], s.agents[a := AfterReply(g)],
            s.given[c := Origin(t, a, g.tail)], s.grants)
    case Full => s.(threads := s.threads[t := th.(phase := Stopped)])
    case Broken => s.(threads := s.threads[t := th.(phase := Failed)])
  }

  function Received(cfg: Config, s: State, t: nat): State
    requires Enabled(s, Receive(t))
  {
    var th := s.threads[t];
    var size, align, l := th.phase.size, th.phase.align, WithChunk(th.alloc, GAddr(th.next, th.phase.chunk));
    var phase := if !AssertOk(l, size, align) || NeedsChunk(l, size, align) then Failed else Idle;
    s.(threads := s.threads[t := Thread(AfterMalloc(l, size, align), if cfg.nodes == 0 then 0 else (th.next + 1) % cfg.nodes, phase)],
       grants := if phase.Idle? then s.grants + [Grant(t, l.head, Start(l, align), size, align)] else s.grants)
  }

  /** The events are enabled one after the other. */
  predicate Runs(cfg: Config, s: State, es: seq<Event>)
    decreases |es|
  {
    es == [] || (Enabled(s, es[0]) && Runs(cfg, Apply(cfg, s, es[0]), es[1..]))
  }

  function After(cfg: Config, s: State, es: seq<Event>): State
    requires Runs(cfg, s, es)
    decreases |es|
  {
    if es == [] then s else After(cfg, Apply(cfg, s, es[0]), es[1..])
  }

  // ---- the invariant ---------------------------------------------------------------------------------------

  /** The agent's region is its own, and its bitmap is dense. */
  predicate AgentOk(cfg: Config, s: State, a: AgentId)
    requires a in s.agents
  {
    InConfig(cfg, a) && s.agents[a].start == RegionOf(cfg, a) && Dense(s.agents[a]) && |s.agents[a].bitmap| * CHUNK <= cfg.per
  }

  /** A chunk handed out is below the tail of its agent. */
  predicate ChunkOk(cfg: Config, s: State, c: GAddr)
    requires c in s.given
  {
    var o := s.given[c];
    o.agent in s.agents && o.i < s.agents[o.agent].tail && c == ChunkAt(RegionOf(cfg, o.agent), o.i)
  }

  predicate Holds(s: State, t: nat, c: GAddr) { c in s.given && s.given[c].thread == t }

  predicate ThreadOk(s: State, t: nat)
    requires t < |s.threads|
  {
    var th := s.threads[t];
    && LocalOk(th.alloc) && (forall c :: c in th.alloc.heads ==> Holds(s, t, c))
    && (th.phase.Acked? ==> Holds(s, t, GAddr(th.next, th.phase.chunk)) && GAddr(th.next, th.phase.chunk) !in th.alloc.heads)
    && (th.phase.Asked? || th.phase.Acked? ==> th.phase.size <= CHUNK)
  }

  predicate LocalOk(l: Local) {
    && l.cur.node == l.head.node && l.head.addr <= l.cur.addr && l.cur.addr <= AlignUp(l.head.addr + CHUNK)
    && (l.heads == [] ==> l.head == NULL && l.cur == NULL) && (l.heads != [] ==> l.head == l.heads[|l.heads| - 1])
  }

  /** A grant lies in a chunk of its thread, before what is still free there, and on a line if asked. */
  predicate GrantOk(s: State, g: Grant) {
    && g.thread < |s.threads| && Inside(g) && (g.align ==> Aligned(g.at))
    && var l := s.threads[g.thread].alloc;
       g.chunk in l.heads && (g.chunk == l.head ==> g.at.addr + g.size <= l.cur.addr)
  }

  predicate Inside(g: Grant) {
    g.at.node == g.chunk.node && g.chunk.addr <= g.at.addr && g.at.addr + g.size <= g.chunk.addr + CHUNK
  }

  predicate GrantsApart(g: Grant, h: Grant) { Apart(g.at, g.size, h.at, h.size) }

  ghost predicate AgentsOk(cfg: Config, s: State) {
    && (forall a {:trigger AgentOk(cfg, s, a)} :: a in s.agents ==> AgentOk(cfg, s, a))
    && (forall c {:trigger ChunkOk(cfg, s, c)} :: c in s.given ==> ChunkOk(cfg, s, c))
  }

  ghost predicate ThreadsOk(s: State) { forall t: nat {:trigger ThreadOk(s, t)} :: t < |s.threads| ==> ThreadOk(s, t) }

  ghost predicate GrantsOk(s: State) {
    && (forall i {:trigger GrantOk(s, s.grants[i])} :: 0 <= i < |s.grants| ==> GrantOk(s, s.grants[i]))
    && (forall i, j {:trigger GrantsApart(s.grants[i], s.grants[j])} :: 0 <= i < j < |s.grants| ==> GrantsApart(s.grants[i], s.grants[j]))
  }

  ghost predicate Inv(cfg: Config, s: State) { AgentsOk(cfg, s) && ThreadsOk(s) && GrantsOk(s) }

  // ---- chunks do not overlap ----------------------------------------------------------------------------------

  /** Chunk i of an agent lies in the agent's part of the node's memory. */
  lemma InRegion(cfg: Config, g: Global, a: AgentId, i: nat)
    requires g.start == RegionOf(cfg, a) && |g.bitmap| * CHUNK <= cfg.per && i < |g.bitmap|
    ensures cfg.per * a.i <= ChunkAt(g.start, i).addr && ChunkAt(g.start, i).addr + CHUNK <= cfg.per * (a.i + 1)
  {
    assert (i + 1) * CHUNK <= |g.bitmap| * CHUNK;
  }

  lemma RegionsApart(per: nat, i: nat, j: nat)
    requires i < j
    ensures per * (i + 1) <= per * j
  {}

  lemma ChunksApart(cfg: Config, s: State, c: GAddr, d: GAddr)
    requires AgentsOk(cfg, s) && c in s.given && d in s.given && c != d
    ensures Apart(c, CHUNK, d, CHUNK)
  {
    assert ChunkOk(cfg, s, c) && ChunkOk(cfg, s, d);
    var o, p := s.given[c], s.given[d];
    assert AgentOk(cfg, s, o.agent) && AgentOk(cfg, s, p.agent);
    InRegion(cfg, s.agents[o.agent], o.agent, o.i);
    InRegion(cfg, s.agents[p.agent], p.agent, p.i);
    if o.agent.i < p.agent.i { RegionsApart(cfg.per, o.agent.i, p.agent.i); }
    if p.agent.i < o.agent.i { RegionsApart(cfg.per, p.agent.i, o.agent.i); }
  }

  /** The chunk an agent hands out was not handed out before. */
  lemma NewChunk(cfg: Config, s: State, a: AgentId)
    requires AgentsOk(cfg, s) && a in s.agents && Reply(s.agents[a]).Given?
    ensures Reply(s.agents[a]).chunk !in s.given
  {
    var c := Reply(s.agents[a]).chunk;
    assert AgentOk(cfg, s, a);
    if c in s.given {
      assert ChunkOk(cfg, s, c);
      var o := s.given[c];
      assert AgentOk(cfg, s, o.agent);
      InRegion(cfg, s.agents[a], a, s.agents[a].tail);
      InRegion(cfg, s.agents[o.agent], o.agent, o.i);
      if o.agent.i < a.i { RegionsApart(cfg.per, o.agent.i, a.i); }
      if a.i < o.agent.i { RegionsApart(cfg.per, a.i, o.agent.i); }
      assert false;
    }
  }

  // ---- steps keep the invariant -------------------------------------------------------------------------------

  lemma AlignMono(x: nat, y: nat)
    requires x <= y
    ensures AlignUp(x) <= AlignUp(y) && AlignUp(AlignUp(y)) == AlignUp(y)
  {}

  /** A thread starts at a place before what it has handed out. */
  lemma LocalAfter(l: Local, size: nat, align: bool)
    requires LocalOk(l)
    ensures LocalOk(AfterMalloc(l, size, align)) && l.cur.addr <= AfterMalloc(l, size, align).cur.addr
    ensures l.cur.addr <= Start(l, align).addr && l.head.addr <= Start(l, align).addr && Start(l, align).node == l.head.node
    ensures align ==> Aligned(Start(l, align))
  {
    AlignMono(l.cur.addr, AlignUp(l.head.addr + CHUNK));
    AlignMono(0, l.head.addr + CHUNK);
  }

  /** The state after a malloc inside the current chunk, or one that has to ask. */
  function Cut(s: State, t: nat, size: nat, align: bool, next: nat, phase: Phase): State
    requires t < |s.threads|
  {
    var l := s.threads[t].alloc;
    s.(threads := s.threads[t := Thread(AfterMalloc(l, size, align), next, phase)],
       grants := if phase.Idle? then s.grants + [Grant(t, l.head, Start(l, align), size, align)] else s.grants)
  }

  lemma CutThreads(s: State, t: nat, size: nat, align: bool, next: nat, phase: Phase)
    requires t < |s.threads| && ThreadsOk(s) && !phase.Acked? && (phase.Asked? ==> phase.size <= CHUNK)
    ensures ThreadsOk(Cut(s, t, size, align, next, phase))
  {
    var s' := Cut(s, t, size, align, next, phase);
    forall u: nat | u < |s'.threads| ensures ThreadOk(s', u) {
      assert ThreadOk(s, u);
      if u == t { LocalAfter(s.threads[t].alloc, size, align); }
    }
  }

  lemma CutGrants(cfg: Config, s: State, t: nat, size: nat, align: bool, next: nat, phase: Phase)
    requires t < |s.threads| && Inv(cfg, s) && (phase.Idle? ==> !NeedsChunk(s.threads[t].alloc, size, align))
    ensures GrantsOk(Cut(s, t, size, align, next, phase))
  {
    var s', l, n := Cut(s, t, size, align, next, phase), s.threads[t].alloc, |s.grants|;
    assert ThreadOk(s, t);
    LocalAfter(l, size, align);
    var grants' := s'.grants;
    forall i | 0 <= i < |grants'| ensures GrantOk(s', grants'[i]) {
      if i < n { assert GrantOk(s, s.grants[i]); }
    }
    forall i, j | 0 <= i < j < |grants'| ensures GrantsApart(grants'[i], grants'[j]) {
      if j < n { assert GrantsApart(s.grants[i], s.grants[j]); } else { NewApart(cfg, s, t, s.grants[i], grants'[n]); }
    }
  }

  /** What is cut from a thread's chunk does not overlap anything handed out before. */
  lemma NewApart(cfg: Config, s: State, t: nat, g: Grant, n: Grant)
    requires Inv(cfg, s) && t < |s.threads| && GrantOk(s, g) && Inside(n) && n.thread == t
    requires n.chunk == s.threads[t].alloc.head && n.chunk in s.threads[t].alloc.heads && s.threads[t].alloc.cur.addr <= n.at.addr
    ensures GrantsApart(g, n)
  {
    assert ThreadOk(s, t) && ThreadOk(s, g.thread);
    assert Holds(s, t, n.chunk) && Holds(s, g.thread, g.chunk);
    if g.chunk != n.chunk { ChunksApart(cfg, s, g.chunk, n.chunk); }
  }

  lemma CutKeeps(cfg: Config, s: State, t: nat, size: nat, align: bool, next: nat, phase: Phase)
    requires t < |s.threads| && Inv(cfg, s) && !phase.Acked? && (phase.Asked? ==> phase.size <= CHUNK)
    requires phase.Idle? ==> !NeedsChunk(s.threads[t].alloc, size, align)
    ensures Inv(cfg, Cut(s, t, size, align, next, phase))
  {
    CutThreads(s, t, size, align, next, phase);
    CutGrants(cfg, s, t, size, align, next, phase);
    SameAgents(cfg, s, Cut(s, t, size, align, next, phase));
  }

  lemma SameAgents(cfg: Config, s: State, s': State)
    requires AgentsOk(cfg, s) && s'.agents == s.agents && s'.given == s.given
    ensures AgentsOk(cfg, s')
  {
    forall a | a in s'.agents ensures AgentOk(cfg, s', a) { assert AgentOk(cfg, s, a); }
    forall c | c in s'.given ensures ChunkOk(cfg, s', c) { assert ChunkOk(cfg, s, c); }
  }

  /** A thread's phase changes to one without a chunk. */
  lemma PhaseKeeps(cfg: Config, s: State, t: nat, phase: Phase)
    requires t < |s.threads| && Inv(cfg, s) && !phase.Acked? && !phase.Asked?
    ensures Inv(cfg, s.(threads := s.threads[t := s.threads[t].(phase := phase)]))
  {
    var s' := s.(threads := s.threads[t := s.threads[t].(phase := phase)]);
    forall u: nat | u < |s'.threads| ensures ThreadOk(s', u) { assert ThreadOk(s, u); }
    forall i | 0 <= i < |s'.grants| ensures GrantOk(s', s'.grants[i]) { assert GrantOk(s, s.grants[i]); }
    forall i, j | 0 <= i < j < |s'.grants| ensures GrantsApart(s'.grants[i], s'.grants[j]) { assert GrantsApart(s.grants[i], s.grants[j]); }
    SameAgents(cfg, s, s');
  }

  /** A thread takes the chunk it was sent. */
  function Opened(s: State, t: nat): State
    requires Enabled(s, Receive(t))
  {
    var th := s.threads[t];
    s.(threads := s.threads[t := Thread(WithChunk(th.alloc, GAddr(th.next, th.phase.chunk)), th.next, Idle)])
  }

  lemma OpenedKeeps(cfg: Config, s: State, t: nat)
    requires Inv(cfg, s) && Enabled(s, Receive(t))
    ensures Inv(cfg, Opened(s, t))
  {
    var s' := Opened(s, t);
    assert ThreadOk(s, t);
    forall u: nat | u < |s'.threads| ensures ThreadOk(s', u) {
      assert ThreadOk(s, u);
      if u == t { AlignMono(0, s'.threads[t].alloc.head.addr + CHUNK); }
    }
    forall i | 0 <= i < |s'.grants| ensures GrantOk(s', s'.grants[i]) { assert GrantOk(s, s.grants[i]); }
    forall i, j | 0 <= i < j < |s'.grants| ensures GrantsApart(s'.grants[i], s'.grants[j]) { assert GrantsApart(s.grants[i], s.grants[j]); }
    SameAgents(cfg, s, s');
  }

  lemma ReceivedIsCut(cfg: Config, s: State, t: nat)
    requires Enabled(s, Receive(t))
    ensures t < |Received(cfg, s, t).threads|
    ensures var th, l := Received(cfg, s, t).threads[t], s.threads[t].phase;
      Received(cfg, s, t) == Cut(Opened(s, t), t, l.size, l.align, th.next, th.phase)
  {
    var s', l := Received(cfg, s, t), s.threads[t].phase;
    assert s'.threads == Cut(Opened(s, t), t, l.size, l.align, s'.threads[t].next, s'.threads[t].phase).threads;
  }

  lemma ServedKeeps(cfg: Config, s: State, t: nat, a: AgentId)
    requires Inv(cfg, s) && Enabled(s, Serve(t, a))
    ensures Inv(cfg, Served(s, t, a))
  {
    assert AgentOk(cfg, s, a);
    StaysDense(s.agents[a]);
    if Reply(s.agents[a]).Given? {
      GivenAgents(cfg, s, t, a);
      GivenThreads(cfg, s, t, a);
      GivenGrants(cfg, s, t, a);
    } else {
      PhaseKeeps(cfg, s, t, Stopped);
    }
  }

  lemma GivenAgents(cfg: Config, s: State, t: nat, a: AgentId)
    requires AgentsOk(cfg, s) && Enabled(s, Serve(t, a)) && Reply(s.agents[a]).Given?
    ensures AgentsOk(cfg, Served(s, t, a))
  {
    var s' := Served(s, t, a);
    assert AgentOk(cfg, s, a);
    StaysDense(s.agents[a]);
    forall b | b in s'.agents ensures AgentOk(cfg, s', b) { if b != a { assert AgentOk(cfg, s, b); } }
    forall c | c in s'.given ensures ChunkOk(cfg, s', c) {
      if c != Reply(s.agents[a]).chunk { assert ChunkOk(cfg, s, c); }
    }
  }

  lemma GivenThreads(cfg: Config, s: State, t: nat, a: AgentId)
    requires Inv(cfg, s) && Enabled(s, Serve(t, a)) && Reply(s.agents[a]).Given?
    ensures ThreadsOk(Served(s, t, a))
  {
    var s', c := Served(s, t, a), Reply(s.agents[a]).chunk;
    NewChunk(cfg, s, a);
    assert AgentOk(cfg, s, a) && c.node == s.threads[t].next;
    forall u: nat | u < |s'.threads| ensures ThreadOk(s', u) {
      assert ThreadOk(s, u);
      forall d | d in s'.threads[u].alloc.heads ensures Holds(s', u, d) { assert Holds(s, u, d); }
      assert c !in s.threads[u].alloc.heads by { assert c in s.threads[u].alloc.heads ==> Holds(s, u, c); }
    }
  }

  lemma GivenGrants(cfg: Config, s: State, t: nat, a: AgentId)
    requires Inv(cfg, s) && Enabled(s, Serve(t, a)) && Reply(s.agents[a]).Given?
    ensures GrantsOk(Served(s, t, a))
  {
    var s' := Served(s, t, a);
    forall i | 0 <= i < |s'.grants| ensures GrantOk(s', s'.grants[i]) { assert GrantOk(s, s.grants[i]); }
    forall i, j | 0 <= i < j < |s'.grants| ensures GrantsApart(s'.grants[i], s'.grants[j]) { assert GrantsApart(s.grants[i], s.grants[j]); }
  }

  lemma StepKeeps(cfg: Config, s: State, e: Event)
    requires Inv(cfg, s) && Enabled(s, e)
    ensures Inv(cfg, Apply(cfg, s, e))
  {
    match e
    case Call(t, size, align) =>
      var phase := Called(s, t, size, align).threads[t].phase;
      assert Called(s, t, size, align) == Cut(s, t, size, align, s.threads[t].next, phase);
      CutKeeps(cfg, s, t, size, align, s.threads[t].next, phase);
    case Serve(t, a) => ServedKeeps(cfg, s, t, a);
    case Receive(t) =>
      OpenedKeeps(cfg, s, t);
      ReceivedIsCut(cfg, s, t);
      var l, th := s.threads[t].phase, Received(cfg, s, t).threads[t];
      CutKeeps(cfg, Opened(s, t), t, l.size, l.align, th.next, th.phase);
  }

  lemma InitInv(cfg: Config, threads: nat)
    ensures Inv(cfg, Init(cfg, threads))
  {
    var s := Init(cfg, threads);
    forall a | a in s.agents ensures AgentOk(cfg, s, a) { AgentsAll(cfg, a); }
    forall t: nat | t < |s.threads| ensures ThreadOk(s, t) { AlignMono(0, CHUNK); }
  }

  lemma {:induction false} RunInv(cfg: Config, s: State, es: seq<Event>)
    requires Inv(cfg, s) && Runs(cfg, s, es)
    ensures Inv(cfg, After(cfg, s, es))
    decreases |es|
  {
    if es != [] {
      StepKeeps(cfg, s, es[0]);
      RunInv(cfg, Apply(cfg, s, es[0]), es[1..]);
    }
  }

  // ---- theorems ------------------------------------------------------------------------------------------------

  /** In every run, what malloc returned to any threads of any nodes does not overlap. */
  lemma NeverOverlap(cfg: Config, threads: nat, es: seq<Event>, i: nat, j: nat)
    requires Runs(cfg, Init(cfg, threads), es)
    requires i < j < |After(cfg, Init(cfg, threads), es).grants|
    ensures var gs := After(cfg, Init(cfg, threads), es).grants; Apart(gs[i].at, gs[i].size, gs[j].at, gs[j].size)
  {
    InitInv(cfg, threads);
    RunInv(cfg, Init(cfg, threads), es);
    var gs := After(cfg, Init(cfg, threads), es).grants;
    assert GrantsApart(gs[i], gs[j]);
  }

  /** It lies in one chunk that one agent gave to that thread alone, and on a line if asked. */
  lemma InOwnChunk(cfg: Config, threads: nat, es: seq<Event>, i: nat)
    requires Runs(cfg, Init(cfg, threads), es)
    requires i < |After(cfg, Init(cfg, threads), es).grants|
    ensures var s := After(cfg, Init(cfg, threads), es);
      var g := s.grants[i];
      g.chunk in s.given && s.given[g.chunk].thread == g.thread && Inside(g) && (g.align ==> Aligned(g.at)) && ChunkOk(cfg, s, g.chunk)
  {
    InitInv(cfg, threads);
    RunInv(cfg, Init(cfg, threads), es);
    var s := After(cfg, Init(cfg, threads), es);
    var g := s.grants[i];
    assert GrantOk(s, g) && ThreadOk(s, g.thread) && Holds(s, g.thread, g.chunk) && ChunkOk(cfg, s, g.chunk);
  }
}
