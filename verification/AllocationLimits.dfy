/** When Cache::malloc hands out the null address, and when one of its asserts fails: exactly. */
module AllocationLimits {
  import opened Memory
  import opened LineAccess
  import opened Allocation
  import opened AllocationRuns

  // ---- the null address --------------------------------------------------------------------------------

  /** So far, the chunk at the null address has been cut only for requests of size zero. */
  ghost predicate Unspent(s: State, n: nat)
    requires n <= |s.grants|
  {
    forall j :: 0 <= j < n && s.grants[j].chunk == NULL ==> s.grants[j].size == 0
  }

  predicate InOrder(g: Grant, h: Grant) { g.chunk == h.chunk ==> g.at.addr + g.size <= h.at.addr }

  ghost predicate NullGrant(s: State, i: nat)
    requires i < |s.grants|
  {
    s.grants[i].chunk == NULL && Unspent(s, i) ==> s.grants[i].at == NULL
  }

  ghost predicate NullCur(s: State, t: nat)
    requires t < |s.threads|
  {
    var l := s.threads[t].alloc;
    !s.threads[t].phase.Failed? && l.heads != [] && l.head == NULL && Unspent(s, |s.grants|) ==> l.cur == NULL
  }

  /** A chunk is cut from its start to its end; as long as nothing was cut from the chunk at the null
      address, the next cut starts there. */
  ghost predicate Cuts(s: State) {
    && (forall i, j {:trigger InOrder(s.grants[i], s.grants[j])} :: 0 <= i < j < |s.grants| ==> InOrder(s.grants[i], s.grants[j]))
    && (forall i: nat {:trigger NullGrant(s, i)} :: i < |s.grants| ==> NullGrant(s, i))
    && (forall t: nat {:trigger NullCur(s, t)} :: t < |s.threads| ==> NullCur(s, t))
  }

  lemma CutOrder(cfg: Config, s: State, t: nat, g: Grant, n: Grant)
    requires Inv(cfg, s) && t < |s.threads| && GrantOk(s, g) && n.thread == t
    requires n.chunk == s.threads[t].alloc.head && n.chunk in s.threads[t].alloc.heads && s.threads[t].alloc.cur.addr <= n.at.addr
    ensures InOrder(g, n)
  {
    assert ThreadOk(s, t) && ThreadOk(s, g.thread);
    assert Holds(s, t, n.chunk) && Holds(s, g.thread, g.chunk);
  }

  lemma CutCuts(cfg: Config, s: State, t: nat, size: nat, align: bool, next: nat, phase: Phase)
    requires t < |s.threads| && Inv(cfg, s) && Cuts(s) && !s.threads[t].phase.Failed?
    requires if phase.Idle? then !NeedsChunk(s.threads[t].alloc, size, align)
      else phase.Failed? || NeedsChunk(s.threads[t].alloc, size, align)
    ensures Cuts(Cut(s, t, size, align, next, phase))
  {
    var s', l, n := Cut(s, t, size, align, next, phase), s.threads[t].alloc, |s.grants|;
    assert ThreadOk(s, t) && NullCur(s, t);
    LocalAfter(l, size, align);
    var grants' := s'.grants;
    assert Unspent(s', |grants'|) ==> Unspent(s, n) by {
      if Unspent(s', |grants'|) {
        forall j | 0 <= j < n && s.grants[j].chunk == NULL ensures s.grants[j].size == 0 { assert grants'[j] == s.grants[j]; }
      }
    }
    forall i, j | 0 <= i < j < |grants'| ensures InOrder(grants'[i], grants'[j]) {
      if j < n { assert InOrder(s.grants[i], s.grants[j]); } else {
        assert GrantOk(s, s.grants[i]);
        CutOrder(cfg, s, t, s.grants[i], grants'[n]);
      }
    }
    forall i: nat | i < |grants'| ensures NullGrant(s', i) {
      assert Unspent(s', i) ==> Unspent(s, i) by {
        if Unspent(s', i) {
          forall j | 0 <= j < i && s.grants[j].chunk == NULL ensures s.grants[j].size == 0 { assert grants'[j] == s.grants[j]; }
        }
      }
      if i < n { assert NullGrant(s, i); }
    }
    forall u: nat | u < |s'.threads| ensures NullCur(s', u) {
      assert NullCur(s, u);
      if u == t && !phase.Failed? && l.heads != [] && l.head == NULL && Unspent(s', |grants'|) {
        assert l.cur == NULL && Start(l, align) == NULL;
        if phase.Idle? { assert grants'[n].chunk == NULL && grants'[n].size == size; }
      }
    }
  }

  /** The thread cuts from the same place as before, or from the start of a chunk. */
  predicate Alike(th: Thread, th': Thread) {
    (th'.alloc == th.alloc && !th.phase.Failed?) || th' == th || th'.alloc.head == th'.alloc.cur
  }

  lemma SameCuts(s: State, s': State)
    requires Cuts(s) && s'.grants == s.grants && |s'.threads| == |s.threads|
    requires forall t :: 0 <= t < |s.threads| ==> Alike(s.threads[t], s'.threads[t])
    ensures Cuts(s')
  {
    assert forall n: nat :: n <= |s.grants| ==> (Unspent(s', n) <==> Unspent(s, n));
    forall i, j | 0 <= i < j < |s'.grants| ensures InOrder(s'.grants[i], s'.grants[j]) { assert InOrder(s.grants[i], s.grants[j]); }
    forall i: nat | i < |s'.grants| ensures NullGrant(s', i) { assert NullGrant(s, i); }
    forall t: nat | t < |s'.threads| ensures NullCur(s', t) { assert NullCur(s, t); }
  }

  lemma StepCuts(cfg: Config, s: State, e: Event)
    requires Inv(cfg, s) && Cuts(s) && Enabled(s, e)
    ensures Cuts(Apply(cfg, s, e))
  {
    match e
    case Call(t, size, align) =>
      var phase := Called(s, t, size, align).threads[t].phase;
      assert Called(s, t, size, align) == Cut(s, t, size, align, s.threads[t].next, phase);
      CutCuts(cfg, s, t, size, align, s.threads[t].next, phase);
    case Serve(t, a) => SameCuts(s, Served(s, t, a));
    case Receive(t) =>
      OpenedKeeps(cfg, s, t);
      SameCuts(s, Opened(s, t));
      ReceivedIsCut(cfg, s, t);
      var l, th := s.threads[t].phase, Received(cfg, s, t).threads[t];
      CutCuts(cfg, Opened(s, t), t, l.size, l.align, th.next, th.phase);
  }

  lemma {:induction false} RunCuts(cfg: Config, s: State, es: seq<Event>)
    requires Inv(cfg, s) && Cuts(s) && Runs(cfg, s, es)
    ensures Cuts(After(cfg, s, es))
    decreases |es|
  {
    if es != [] {
      StepKeeps(cfg, s, es[0]);
      StepCuts(cfg, s, es[0]);
      RunCuts(cfg, Apply(cfg, s, es[0]), es[1..]);
    }
  }

  /** The chunk at the null address is the first of agent 0 of node 0. */
  lemma NullChunk(cfg: Config, s: State, c: GAddr)
    requires AgentsOk(cfg, s) && c in s.given
    ensures c == NULL <==> s.given[c].agent == AgentId(0, 0) && s.given[c].i == 0
  {
    assert ChunkOk(cfg, s, c);
    var o := s.given[c];
    assert AgentOk(cfg, s, o.agent);
    InRegion(cfg, s.agents[o.agent], o.agent, o.i);
    if o.agent.i > 0 { RegionsApart(cfg.per, 0, o.agent.i); }
  }

  /** In every run: a result of malloc is the null address exactly when it is cut from chunk 0 of agent 0
      of node 0 and nothing but requests of size zero was cut from that chunk before. */
  lemma NullExactly(cfg: Config, threads: nat, es: seq<Event>, i: nat)
    requires Runs(cfg, Init(cfg, threads), es) && i < |After(cfg, Init(cfg, threads), es).grants|
    ensures var s := After(cfg, Init(cfg, threads), es);
      var g := s.grants[i];
      && g.chunk in s.given
      && (g.at == NULL <==>
            s.given[g.chunk].agent == AgentId(0, 0) && s.given[g.chunk].i == 0
            && forall j :: 0 <= j < i && s.grants[j].chunk == g.chunk ==> s.grants[j].size == 0)
  {
    InOwnChunk(cfg, threads, es, i);
    InitInv(cfg, threads);
    RunInv(cfg, Init(cfg, threads), es);
    RunCuts(cfg, Init(cfg, threads), es);
    var s := After(cfg, Init(cfg, threads), es);
    var g := s.grants[i];
    NullChunk(cfg, s, g.chunk);
    assert NullGrant(s, i);
    if g.at == NULL {
      assert g.chunk == NULL;
      forall j | 0 <= j < i && s.grants[j].chunk == g.chunk ensures s.grants[j].size == 0 { assert InOrder(s.grants[j], g); }
    }
  }

  // ---- one request ------------------------------------------------------------------------------------------

  lemma {:induction false} AfterMore(cfg: Config, s: State, es: seq<Event>, e: Event)
    requires Runs(cfg, s, es) && Enabled(After(cfg, s, es), e)
    ensures Runs(cfg, s, es + [e]) && After(cfg, s, es + [e]) == Apply(cfg, After(cfg, s, es), e)
    decreases |es|
  {
    var fs := es + [e];
    if es == [] {
      assert fs[0] == e && fs[1..] == [];
    } else {
      AfterMore(cfg, Apply(cfg, s, es[0]), es[1..], e);
      assert fs[0] == es[0] && fs[1..] == es[1..] + [e];
    }
  }

  /** Thread 0 asks agent i of the node whose turn it is, which gives it chunk c. */
  lemma Request(cfg: Config, s0: State, es: seq<Event>, size: nat, align: bool, a: AgentId, c: GAddr) returns (es': seq<Event>)
    requires Runs(cfg, s0, es) && size <= CHUNK
    requires var s := After(cfg, s0, es);
      && 0 < |s.threads| && s.threads[0].phase.Idle? && NeedsChunk(s.threads[0].alloc, size, align)
      && AssertOk(s.threads[0].alloc, size, align)
      && a in s.agents && a.node == s.threads[0].next && Reply(s.agents[a]) == Given(c) && c.node == a.node
    ensures Runs(cfg, s0, es')
    ensures var s, s' := After(cfg, s0, es), After(cfg, s0, es');
      var l := WithChunk(AfterMalloc(s.threads[0].alloc, size, align), c);
      && |s'.threads| == |s.threads| && s'.agents == s.agents[a := AfterReply(s.agents[a])]
      && s'.threads[0].alloc == AfterMalloc(l, size, align)
      && s'.threads[0].next == (if cfg.nodes == 0 then 0 else (s.threads[0].next + 1) % cfg.nodes)
      && (if AssertOk(l, size, align) && !NeedsChunk(l, size, align)
          then s'.threads[0].phase.Idle? && s'.grants == s.grants + [Grant(0, c, Start(l, align), size, align)]
          else s'.threads[0].phase.Failed?)
  {
    AfterMore(cfg, s0, es, Call(0, size, align));
    es' := es + [Call(0, size, align)];
    AfterMore(cfg, s0, es', Serve(0, a));
    es' := es' + [Serve(0, a)];
    AfterMore(cfg, s0, es', Receive(0));
    es' := es' + [Receive(0)];
  }

  /** The first request of a run, served by agent i of node 0. */
  lemma FirstRequest(cfg: Config, threads: nat, size: nat, align: bool, i: nat) returns (es: seq<Event>)
    requires 0 < cfg.nodes && i < cfg.agents && 0 < threads && CHUNK <= cfg.per && size <= CHUNK
    ensures var s0, c := Init(cfg, threads), GAddr(0, cfg.per * i);
      var l := WithChunk(Local(NULL, NULL, []), c);
      && Runs(cfg, s0, es) && 0 < |After(cfg, s0, es).threads|
      && (if AssertOk(l, size, align) && !NeedsChunk(l, size, align)
          then After(cfg, s0, es).grants == [Grant(0, c, Start(l, align), size, align)]
          else After(cfg, s0, es).threads[0].phase.Failed?)
  {
    var a := AgentId(0, i);
    AgentsAll(cfg, a);
    var s := Init(cfg, threads);
    assert |s.agents[a].bitmap| > 0 && Reply(s.agents[a]) == Given(GAddr(0, cfg.per * i));
    assert After(cfg, s, []) == s;
    es := Request(cfg, s, [], size, align, a, GAddr(0, cfg.per * i));
    assert WithChunk(AfterMalloc(s.threads[0].alloc, size, align), GAddr(0, cfg.per * i)).cur == GAddr(0, cfg.per * i);
  }

  ghost predicate GrantsNull(cfg: Config, threads: nat, es: seq<Event>)
    requires Runs(cfg, Init(cfg, threads), es)
  {
    exists i :: 0 <= i < |After(cfg, Init(cfg, threads), es).grants| && After(cfg, Init(cfg, threads), es).grants[i].at == NULL
  }

  /** Some run hands out the null address exactly when there are nodes, agents, threads and room for a chunk. */
  lemma NullPossible(cfg: Config, threads: nat)
    ensures (exists es :: Runs(cfg, Init(cfg, threads), es) && GrantsNull(cfg, threads, es)) <==>
              0 < cfg.nodes && 0 < cfg.agents && 0 < threads && CHUNK <= cfg.per
  {
    if es :| Runs(cfg, Init(cfg, threads), es) && GrantsNull(cfg, threads, es) { NullNeeds(cfg, threads, es); }
    if 0 < cfg.nodes && 0 < cfg.agents && 0 < threads && CHUNK <= cfg.per {
      var es := FirstRequest(cfg, threads, 8, false, 0);
      assert After(cfg, Init(cfg, threads), es).grants[0].at == NULL;
      assert GrantsNull(cfg, threads, es);
    }
  }

  lemma NullNeeds(cfg: Config, threads: nat, es: seq<Event>)
    requires Runs(cfg, Init(cfg, threads), es) && GrantsNull(cfg, threads, es)
    ensures 0 < cfg.nodes && 0 < cfg.agents && 0 < threads && CHUNK <= cfg.per
  {
    var s := After(cfg, Init(cfg, threads), es);
    var i: nat :| i < |s.grants| && s.grants[i].at == NULL;
    InOwnChunk(cfg, threads, es, i);
    InitInv(cfg, threads);
    RunInv(cfg, Init(cfg, threads), es);
    assert GrantOk(s, s.grants[i]);
    SameThreads(cfg, Init(cfg, threads), es);
    var o := s.given[s.grants[i].chunk];
    assert AgentOk(cfg, s, o.agent);
    NoChunks(|s.agents[o.agent].bitmap|, cfg.per);
  }

  lemma {:induction false} SameThreads(cfg: Config, s: State, es: seq<Event>)
    requires Runs(cfg, s, es)
    ensures |After(cfg, s, es).threads| == |s.threads|
    decreases |es|
  {
    if es != [] { SameThreads(cfg, Apply(cfg, s, es[0]), es[1..]); }
  }

  lemma NoChunks(n: nat, per: nat)
    requires n * CHUNK <= per
    ensures per < CHUNK ==> n == 0
  {}

  // ---- the asserts -----------------------------------------------------------------------------------------------

  /** No agent hands out a chunk that does not start on a line. */
  predicate Regular(cfg: Config) { cfg.per % LINE == 0 || cfg.agents <= 1 || cfg.per < CHUNK }

  /** Where the last chunk of a node starts. */
  function LastChunk(cfg: Config): nat
    requires 0 < cfg.agents && CHUNK <= cfg.per
  {
    cfg.per * (cfg.agents - 1) + (cfg.per / CHUNK - 1) * CHUNK
  }

  /** Behind the end of every chunk, a request as large as a chunk is still within the bound that malloc asserts. */
  predicate Bounded(cfg: Config) {
    0 < cfg.agents && CHUNK <= cfg.per ==> LastChunk(cfg) + CHUNK + CHUNK <= GB40
  }

  predicate Fails(s: State) { exists t :: 0 <= t < |s.threads| && s.threads[t].phase.Failed? }

  lemma {:induction false} Multiples(per: nat, i: nat, k: nat)
    requires per % LINE == 0 || i == 0
    ensures (per * i + k * CHUNK) % LINE == 0
  {
    if i == 0 { assert k * CHUNK == LINE * (8192 * k); } else {
      var q := per / LINE;
      assert per == LINE * q && per * i == LINE * (q * i) && k * CHUNK == LINE * (8192 * k);
      assert per * i + k * CHUNK == LINE * (q * i + 8192 * k);
    }
  }

  lemma LastIsLast(cfg: Config, i: nat, k: nat, n: nat)
    requires i < cfg.agents && k < n && n * CHUNK <= cfg.per
    ensures CHUNK <= cfg.per && cfg.per * i + k * CHUNK <= LastChunk(cfg)
  {
    NoChunks(n, cfg.per);
    if i + 1 < cfg.agents { RegionsApart(cfg.per, i, cfg.agents - 1); }
    FewChunks(n, cfg.per);
    assert k * CHUNK <= (cfg.per / CHUNK - 1) * CHUNK;
    assert cfg.per * i <= cfg.per * (cfg.agents - 1);
  }

  lemma FewChunks(n: nat, per: nat)
    requires n * CHUNK <= per
    ensures n <= per / CHUNK
  {}

  /** Where a chunk that was handed out starts and ends. */
  lemma ChunkBounds(cfg: Config, s: State, c: GAddr)
    requires AgentsOk(cfg, s) && c in s.given
    ensures Bounded(cfg) ==> c.addr + CHUNK + CHUNK <= GB40
    ensures Regular(cfg) ==> Aligned(c)
  {
    assert ChunkOk(cfg, s, c);
    var o := s.given[c];
    assert AgentOk(cfg, s, o.agent);
    LastIsLast(cfg, o.agent.i, o.i, |s.agents[o.agent].bitmap|);
    if cfg.per % LINE == 0 || o.agent.i == 0 { Multiples(cfg.per, o.agent.i, o.i); }
  }

  lemma AlignedChunk(c: GAddr)
    requires Aligned(c)
    ensures AlignUp(c.addr + CHUNK) == c.addr + CHUNK && AlignUp(c.addr) == c.addr
  {}

  lemma FitsBound(l: Local, size: nat, align: bool)
    requires LocalOk(l) && size <= CHUNK && (l.heads == [] || (Aligned(l.head) && l.head.addr + CHUNK + CHUNK <= GB40))
    ensures AssertOk(l, size, align)
  {
    AlignedChunk(l.head);
    AlignMono(l.cur.addr, AlignUp(l.head.addr + CHUNK));
  }

  lemma StepsSafely(cfg: Config, s: State, e: Event)
    requires Inv(cfg, s) && Enabled(s, e) && Regular(cfg) && Bounded(cfg) && !Fails(s)
    ensures !Fails(Apply(cfg, s, e))
  {
    var th := s.threads[e.t];
    assert ThreadOk(s, e.t) && th.phase == s.threads[e.t].phase;
    if th.alloc.heads != [] {
      assert AllocationRuns.Holds(s, e.t, th.alloc.head);
      ChunkBounds(cfg, s, th.alloc.head);
    }
    match e
    case Call(t, size, align) => FitsBound(th.alloc, size, align);
    case Serve(t, a) =>
      assert AgentOk(cfg, s, a);
      StaysDense(s.agents[a]);
    case Receive(t) =>
      var c := GAddr(th.next, th.phase.chunk);
      ChunkBounds(cfg, s, c);
      AlignedChunk(c);
      SecondTry(th.alloc, c, th.phase.size, th.phase.align);
  }

  lemma {:induction false} RunsSafely(cfg: Config, s: State, es: seq<Event>)
    requires Inv(cfg, s) && Runs(cfg, s, es) && Regular(cfg) && Bounded(cfg) && !Fails(s)
    ensures !Fails(After(cfg, s, es))
    decreases |es|
  {
    if es != [] {
      StepKeeps(cfg, s, es[0]);
      StepsSafely(cfg, s, es[0]);
      RunsSafely(cfg, Apply(cfg, s, es[0]), es[1..]);
    }
  }

  // ---- a run that uses up a node's memory -----------------------------------------------------------------------

  /** Thread 0 has asked for r rounds of whole chunks, and in this round m nodes, always the last agent. */
  predicate Used(cfg: Config, s: State, r: nat, m: nat) {
    && 0 < |s.threads| && s.threads[0].phase.Idle? && s.threads[0].next == m < cfg.nodes && 0 < cfg.agents
    && (s.threads[0].alloc.heads == [] || s.threads[0].alloc.cur.addr == s.threads[0].alloc.head.addr + CHUNK)
    && (s.threads[0].alloc.heads == [] ==> s.threads[0].alloc.cur == NULL)
    && forall n: nat {:trigger Tail(cfg, s, n, r, m)} :: n < cfg.nodes ==> Tail(cfg, s, n, r, m)
  }

  predicate Tail(cfg: Config, s: State, n: nat, r: nat, m: nat)
    requires 0 < cfg.agents
  {
    var a := AgentId(n, cfg.agents - 1);
    && a in s.agents && s.agents[a].start == RegionOf(cfg, a) && |s.agents[a].bitmap| == cfg.per / CHUNK
    && Dense(s.agents[a]) && s.agents[a].tail == if n < m then r + 1 else r
  }

  /** One more request; afterwards an assert has failed, or all of the chunk that came is used. */
  lemma OneMore(cfg: Config, s0: State, es: seq<Event>, r: nat, m: nat) returns (es': seq<Event>)
    requires Runs(cfg, s0, es) && Used(cfg, After(cfg, s0, es), r, m) && r < cfg.per / CHUNK
    ensures Runs(cfg, s0, es')
    ensures var s' := After(cfg, s0, es');
      Fails(s') || (Used(cfg, s', if m + 1 == cfg.nodes then r + 1 else r, if m + 1 == cfg.nodes then 0 else m + 1)
        && s'.threads[0].alloc.head == ChunkAt(RegionOf(cfg, AgentId(m, cfg.agents - 1)), r) && s'.threads[0].alloc.heads != [])
  {
    var s, a := After(cfg, s0, es), AgentId(m, cfg.agents - 1);
    var l, c := s.threads[0].alloc, ChunkAt(RegionOf(cfg, a), r);
    assert Tail(cfg, s, m, r, m);
    StaysDense(s.agents[a]);
    if !AssertOk(l, CHUNK, false) {
      AfterMore(cfg, s0, es, Call(0, CHUNK, false));
      es' := es + [Call(0, CHUNK, false)];
    } else {
      es' := Request(cfg, s0, es, CHUNK, false, a, c);
      var s' := After(cfg, s0, es');
      NextTurn(m, cfg.nodes);
      if !Fails(s') { MoreUsed(cfg, s, s', r, m); }
    }
  }

  lemma NextTurn(m: nat, n: nat)
    requires m < n
    ensures (m + 1) % n == if m + 1 == n then 0 else m + 1
  {}

  lemma MoreUsed(cfg: Config, s: State, s': State, r: nat, m: nat)
    requires Used(cfg, s, r, m) && m < cfg.nodes && r < cfg.per / CHUNK
    requires var a := AgentId(m, cfg.agents - 1);
      && a in s.agents && |s'.threads| == |s.threads| && s'.agents == s.agents[a := AfterReply(s.agents[a])]
      && s'.threads[0].phase.Idle? && s'.threads[0].next == (if m + 1 == cfg.nodes then 0 else m + 1)
      && s'.threads[0].alloc.heads != [] && s'.threads[0].alloc.cur.addr == s'.threads[0].alloc.head.addr + CHUNK
    ensures Used(cfg, s', if m + 1 == cfg.nodes then r + 1 else r, if m + 1 == cfg.nodes then 0 else m + 1)
  {
    var r', m', a := if m + 1 == cfg.nodes then r + 1 else r, if m + 1 == cfg.nodes then 0 else m + 1, AgentId(m, cfg.agents - 1);
    assert Tail(cfg, s, m, r, m);
    StaysDense(s.agents[a]);
    forall n: nat | n < cfg.nodes ensures Tail(cfg, s', n, r', m') { assert Tail(cfg, s, n, r, m); }
  }

  lemma {:induction false} Rounds(cfg: Config, threads: nat, r: nat, m: nat) returns (es: seq<Event>)
    requires 0 < threads && 0 < cfg.agents && m < cfg.nodes && r <= cfg.per / CHUNK && (m > 0 ==> r < cfg.per / CHUNK)
    ensures Runs(cfg, Init(cfg, threads), es)
    ensures Fails(After(cfg, Init(cfg, threads), es)) || Used(cfg, After(cfg, Init(cfg, threads), es), r, m)
    decreases r, m
  {
    var s := Init(cfg, threads);
    if m > 0 {
      es := Rounds(cfg, threads, r, m - 1);
      if !Fails(After(cfg, s, es)) { es := OneMore(cfg, s, es, r, m - 1); }
    } else if r > 0 {
      es := Rounds(cfg, threads, r - 1, cfg.nodes - 1);
      if !Fails(After(cfg, s, es)) { es := OneMore(cfg, s, es, r - 1, cfg.nodes - 1); }
    } else {
      es := [];
      forall n: nat | n < cfg.nodes ensures Tail(cfg, s, n, 0, 0) { AgentsAll(cfg, AgentId(n, cfg.agents - 1)); }
    }
  }

  lemma {:induction false} Overruns(cfg: Config, threads: nat) returns (es: seq<Event>)
    requires 0 < threads && 0 < cfg.nodes && !Bounded(cfg)
    ensures Runs(cfg, Init(cfg, threads), es) && Fails(After(cfg, Init(cfg, threads), es))
  {
    var s, k := Init(cfg, threads), cfg.per / CHUNK;
    es := Rounds(cfg, threads, k - 1, 0);
    if !Fails(After(cfg, s, es)) {
      es := OneMore(cfg, s, es, k - 1, 0);
      if !Fails(After(cfg, s, es)) {
        var s' := After(cfg, s, es);
        assert s'.threads[0].alloc.head.addr == LastChunk(cfg);
        AfterMore(cfg, s, es, Call(0, CHUNK, false));
        es := es + [Call(0, CHUNK, false)];
        assert After(cfg, s, es).threads[0].phase.Failed?;
      }
    }
  }

  ghost predicate Safe(cfg: Config, threads: nat, es: seq<Event>) {
    Runs(cfg, Init(cfg, threads), es) ==> !Fails(After(cfg, Init(cfg, threads), es))
  }

  /** No assert fails in any run. */
  ghost predicate NeverFails(cfg: Config, threads: nat) { forall es :: Safe(cfg, threads, es) }

  /** For requests of at most a chunk, as the code demands: no assert fails in any run if and only if the
      regions of the agents start on lines (or nothing that does not is handed out) and a chunk fits
      between the last chunk of a node and the 40 GB that malloc asserts. */
  lemma FailsExactly(cfg: Config, threads: nat)
    requires 0 < cfg.nodes && 0 < threads
    ensures NeverFails(cfg, threads) <==> Regular(cfg) && Bounded(cfg)
  {
    if Regular(cfg) && Bounded(cfg) {
      InitInv(cfg, threads);
      forall es ensures Safe(cfg, threads, es) {
        if Runs(cfg, Init(cfg, threads), es) { RunsSafely(cfg, Init(cfg, threads), es); }
      }
    } else {
      var es := Failure(cfg, threads);
      assert !Safe(cfg, threads, es);
    }
  }

  lemma Failure(cfg: Config, threads: nat) returns (es: seq<Event>)
    requires 0 < threads && 0 < cfg.nodes && !(Regular(cfg) && Bounded(cfg))
    ensures Runs(cfg, Init(cfg, threads), es) && Fails(After(cfg, Init(cfg, threads), es))
  {
    if !Bounded(cfg) {
      es := Overruns(cfg, threads);
    } else {
      es := FirstRequest(cfg, threads, CHUNK, true, 1);
      SecondTry(Local(NULL, NULL, []), GAddr(0, cfg.per), CHUNK, true);
    }
  }

  /** For example: one agent with all of 40 GB hands out its last chunk, and the next call fails. */
  lemma FullNodeFails(threads: nat)
    requires 0 < threads
    ensures Regular(Config(1, 1, GB40)) && !NeverFails(Config(1, 1, GB40), threads)
  {
    FailsExactly(Config(1, 1, GB40), threads);
  }
}
