/** A call of add or try_get that nobody disturbs from some point on comes to its end, from wherever it has got to
    and whatever unfinished calls others have left behind. */
module FreeListSolo {
  import opened Options
  import opened FreeList

  /** Thread t goes on to the end of its call, k steps at most. */
  function Finish(s: State, t: nat, k: nat): Option<State>
    requires t in s.ths
    decreases k
  {
    if s.ths[t].Idle? then Some(s)
    else if k == 0 then None
    else
      var r := Step(s, t, Tau);
      if r.None? || t !in r.value.ths then None else Finish(r.value, t, k - 1)
  }

  predicate OnList(s: State, n: Id) { n in s.nodes && s.nodes[n].ph == Listed }

  /** Steps that are left once a node has been put back. */
  function AfterPush(s: State, c: Cont): nat {
    match c
    case Done => 0
    case Look(h) => if h.None? then 0 else if OnList(s, h.value) then 11 else 21
  }

  /** A bound on the steps that are left. A thread looks at a node that is the head, that is on the list, or
      neither; the head it remembers is the current one, or has to be loaded again. */
  function Bound(s: State, pc: Pc): nat {
    match pc
    case Idle => 0
    case DropTwo(_) => 1
    case CheckFlag(_) => 2
    case CasPop(n, _) => if s.head == Some(n) then 3 else if OnList(s, n) then 8 else 18
    case LoadNext(n) => if s.head == Some(n) then 4 else if OnList(s, n) then 9 else 19
    case CasRefs(n, refs) =>
      if n !in s.nodes || Low(refs) == 0 || s.nodes[n].refs != refs then 8
      else if s.head == Some(n) then 5 else if OnList(s, n) then 10 else 20
    case LoadRefs(n) => if s.head == Some(n) then 6 else if OnList(s, n) then 11 else 21
    case GetHead => 7
    case DropOne(n, h) =>
      if n in s.nodes && s.nodes[n].refs == SHOULD + 1 then if h == s.head then 16 else 26
      else if h == s.head then 7 else 22
    case LoadHead(_, c) => AfterPush(s, c) + 4
    case StoreNext(_, h, c) => AfterPush(s, c) + (if h == s.head then 3 else 7)
    case StoreRefs(_, h, c) => AfterPush(s, c) + (if h == s.head then 2 else 6)
    case CasPush(_, h, c) => AfterPush(s, c) + (if h == s.head then 1 else 5)
    case GiveUpRef(_, h, c) => AfterPush(s, c) + (if h == s.head then 4 else 8)
    case Failed(_) => 0
  }

  /** A node on the list has references. */
  lemma HasReferences(s: State, n: Id)
    requires Inv(s) && n in s.nodes && s.nodes[n].ph == Listed
    ensures 0 < s.nodes[n].refs < SHOULD && Low(s.nodes[n].refs) != 0
  {
    HolderCount(s, n);
    assert NodeOk(s.ths, n, s.nodes[n]);
  }

  /** The head is on the list. */
  lemma HeadOnList(s: State)
    requires Inv(s)
    ensures s.head.Some? ==> OnList(s, s.head.value)
  {
    if s.head.Some? { InList(s.head, s.nodes, s.list, s.head.value); }
  }

  /** What the bound relies on. */
  predicate Sound(s: State, pc: Pc) {
    && (s.head.Some? ==> OnList(s, s.head.value))
    && !pc.Failed?
    && (!pc.Idle? && !pc.GetHead? ==> pc.n in s.nodes && (OnList(s, pc.n) ==> 0 < s.nodes[pc.n].refs < SHOULD))
    && (pc.CheckFlag? ==> s.nodes[pc.n].refs < SHOULD)
    && (pc.LoadHead? || pc.StoreNext? || pc.StoreRefs? || pc.CasPush? || pc.GiveUpRef? ==> !OnList(s, pc.n))
  }

  lemma IsSound(s: State, t: nat)
    requires Inv(s) && t in s.ths
    ensures Sound(s, s.ths[t])
  {
    HeadOnList(s);
    var pc := s.ths[t];
    assert PcOk(s.nodes, t, pc);
    if !pc.Idle? && !pc.GetHead? {
      if OnList(s, pc.n) { HasReferences(s, pc.n); }
      HolderCount(s, pc.n);
      assert NodeOk(s.ths, pc.n, s.nodes[pc.n]);
    }
  }

  /** The next step is possible and leads to the end of the call or nearer to it. */
  lemma NextDown(s: State, t: nat)
    requires t in s.ths && !s.ths[t].Idle? && Sound(s, s.ths[t])
    ensures Step(s, t, Tau).Some?
    ensures var s' := Step(s, t, Tau).value; t in s'.ths && Bound(s', s'.ths[t]) < Bound(s, s.ths[t])
  {}

  /** The state after the next step, if there is one. */
  function Next(s: State, t: nat): State
    requires t in s.ths
  {
    var r := Step(s, t, Tau);
    if r.None? || t !in r.value.ths then s else r.value
  }

  /** The bound can be relied on in the next k states of the thread alone. */
  predicate SoundOn(s: State, t: nat, k: nat)
    decreases k
  {
    t in s.ths && Sound(s, s.ths[t]) && (k > 0 && !s.ths[t].Idle? ==> SoundOn(Next(s, t), t, k - 1))
  }

  lemma NextKeeps(s: State, t: nat)
    requires Inv(s) && t in s.ths && !s.ths[t].Idle?
    ensures t in Next(s, t).ths && Inv(Next(s, t))
  {
    if Step(s, t, Tau).Some? { StepKeeps(s, t, Tau); }
  }

  lemma {:induction false} StaysSound(s: State, t: nat, k: nat)
    requires Inv(s) && t in s.ths
    ensures SoundOn(s, t, k)
    decreases k
  {
    IsSound(s, t);
    if k > 0 && !s.ths[t].Idle? {
      NextKeeps(s, t);
      StaysSound(Next(s, t), t, k - 1);
    }
  }

  /** The call ends within as many steps as the bound says. */
  lemma {:induction false} EndsAlone(s: State, t: nat, k: nat)
    requires SoundOn(s, t, k) && k >= Bound(s, s.ths[t])
    ensures Finish(s, t, k).Some?
    decreases k
  {
    if !s.ths[t].Idle? {
      NextDown(s, t);
      EndsAlone(Next(s, t), t, k - 1);
    }
  }

  lemma BoundIs(s: State, pc: Pc)
    ensures Bound(s, pc) <= 29
  {}

  /** From every state of every run a thread that nobody disturbs ends its call within 29 steps, so no unfinished
      call of another thread stands in its way. */
  lemma NobodyBlocks(ss: seq<State>, es: seq<Event>, i: nat, t: nat)
    requires Runs(ss, es) && Init(ss[0]) && i < |ss| && t in ss[i].ths
    ensures Finish(ss[i], t, 29).Some?
  {
    RunInv(ss, es, i);
    BoundIs(ss[i], ss[i].ths[t]);
    StaysSound(ss[i], t, 29);
    EndsAlone(ss[i], t, 29);
  }
}
