/** What a call of enqueue does: which value it publishes, when it is refused, and what it does when nobody
    disturbs it. */
module QueueCalls {
  import opened Options
  import opened QueueState
  import opened QueueInv
  import opened QueueProducer
  import opened QueueTheorems

  // ---- the values published -------------------------------------------------------------------

  /** Step i begins a call of enqueue. */
  predicate Begins(ss: seq<State>, es: seq<Event>, i: nat)
    requires i < |es| < |ss|
  {
    es[i].who.ByProducer? && ss[i].p.pc.PIdle? && es[i].inp.Enqueue?
  }

  /** The argument of the last call of enqueue begun before state i. */
  function LastValue(ss: seq<State>, es: seq<Event>, i: nat): int
    requires i <= |es| < |ss|
    decreases i
  {
    if i == 0 then 0 else if Begins(ss, es, i - 1) then es[i - 1].inp.v else LastValue(ss, es, i - 1)
  }

  /** The arguments of the calls that had published their element by state i, in that order. */
  function Accepted(ss: seq<State>, es: seq<Event>, i: nat): seq<int>
    requires i <= |es| < |ss|
    decreases i
  {
    if i == 0 then []
    else if ss[i].n.tail != ss[i - 1].n.tail then Accepted(ss, es, i - 1) + [LastValue(ss, es, i - 1)]
    else Accepted(ss, es, i - 1)
  }

  lemma ProducerValue(s: State, inp: Input)
    requires ProducerStep(s, inp).Some?
    ensures var s' := ProducerStep(s, inp).value;
      && (s.p.pc.PIdle? ==> inp.Enqueue? && s'.p.v == inp.v && !s'.p.pc.PIdle?)
      && (!s.p.pc.PIdle? ==> s'.p.v == s.p.v)
      && (s'.n.tail == s.n.tail || (s'.n.tail == s.n.tail + 1 && !s.p.pc.PIdle? && s'.p.pc.PIdle?))
      && s'.x.items == s.x.items + (if s'.n.tail != s.n.tail then [s.p.v] else [])
  {}

  lemma DequeuerValue(s: State, t: nat, inp: Input)
    requires t in s.ths && DequeuerStep(s, t, inp).Some?
    ensures var s' := DequeuerStep(s, t, inp).value; s'.p == s.p && s'.n.tail == s.n.tail && s'.x.items == s.x.items
  {}

  /** What a step does to the value of the call and to the elements published. */
  predicate ValueMoves(s: State, e: Event, s': State) {
    var begins := e.who.ByProducer? && s.p.pc.PIdle? && e.inp.Enqueue?;
    && (begins ==> s'.p.v == e.inp.v && s'.n.tail == s.n.tail)
    && (!begins ==> s'.p.v == s.p.v && (s.p.pc.PIdle? ==> s'.p.pc.PIdle?))
    && (s'.n.tail == s.n.tail || (s'.n.tail == s.n.tail + 1 && !s.p.pc.PIdle?))
    && s'.x.items == s.x.items + (if s'.n.tail != s.n.tail then [s.p.v] else [])
  }

  lemma StepValue(s: State, e: Event, s': State)
    requires Step(s, e.who, e.inp) == Some(s')
    ensures ValueMoves(s, e, s')
  {
    match e.who
    case ByProducer => ProducerValue(s, e.inp);
    case ByDequeuer(t) => DequeuerValue(s, t, e.inp);
  }

  lemma {:induction false} RunValues(ss: seq<State>, es: seq<Event>, i: nat)
    requires Runs(ss, es) && Init(ss[0]) && i < |ss|
    ensures !ss[i].p.pc.PIdle? ==> ss[i].p.v == LastValue(ss, es, i)
    ensures ss[i].x.items == Accepted(ss, es, i) && |Accepted(ss, es, i)| == ss[i].n.tail
  {
    if i > 0 {
      RunValues(ss, es, i - 1);
      var e := es[i - 1];
      assert Step(ss[i - 1], e.who, e.inp) == Some(ss[i]);
      StepValue(ss[i - 1], e, ss[i]);
    }
  }

  /** The k-th element that dequeuers get is the argument of the k-th call of enqueue that published one. */
  lemma DeliversAccepted(ss: seq<State>, es: seq<Event>, i: nat, t: nat, k: nat)
    requires Runs(ss, es) && StaysApart(ss, es) && Init(ss[0]) && i < |ss| && Takes(ss[i], t, k)
    ensures k < |Accepted(ss, es, i)| && Delivered(ss[i], t) == Some(Accepted(ss, es, i)[k])
  {
    RunValues(ss, es, i);
    RightElement(ss, es, i, t, k);
  }

  /** An element is published by the producer, in the last step of a call, and by no other step. */
  lemma PublishesOnce(ss: seq<State>, es: seq<Event>, i: nat)
    requires Runs(ss, es) && Init(ss[0]) && i < |es|
    ensures ss[i + 1].n.tail == ss[i].n.tail ||
      (es[i].who.ByProducer? && !ss[i].p.pc.PIdle? && ss[i + 1].p.pc.PIdle? && ss[i + 1].n.tail == ss[i].n.tail + 1)
  {
    var e := es[i];
    assert Step(ss[i], e.who, e.inp) == Some(ss[i + 1]);
    match e.who
    case ByProducer => ProducerValue(ss[i], e.inp);
    case ByDequeuer(t) => DequeuerValue(ss[i], t, e.inp);
  }

  // ---- refusals -----------------------------------------------------------------------------------

  /** Step i ends a call of enqueue that publishes nothing. */
  predicate Refuses(ss: seq<State>, es: seq<Event>, i: nat)
    requires i < |es| < |ss|
  {
    es[i].who.ByProducer? && !ss[i].p.pc.PIdle? && ss[i + 1].p.pc.PIdle? && ss[i + 1].n.tail == ss[i].n.tail
  }

  lemma RefusedStep(s: State, inp: Input)
    requires ProducerOk(s) && ProducerStep(s, inp).Some? && s.n.head <= s.n.tail
    requires var s' := ProducerStep(s, inp).value; !s.p.pc.PIdle? && s'.p.pc.PIdle? && s'.n.tail == s.n.tail
    ensures s.n.tail % BLOCK == 0
    ensures (s.p.pc.PGrow? && inp == Malloc(false) && (s.idx == [] || s.p.used == s.p.size))
      || (s.p.pc.PBlock? && inp == Requisition(None)) || s.n.tail + BLOCK - s.n.head >= HALF
    ensures ProducerStep(s, inp).value == s.(p := s.p.(pc := PIdle))
  {
    if s.p.pc.PHead? { HeadAllows(s); }
    RefusedAt(s, inp);
    if s.p.pc.PHead? || s.p.pc.PGrow? || s.p.pc.PBlock? { assert s.n.tail == |s.x.home| * BLOCK; }
  }

  /** The check of the head never refuses in reach of the comparison. */
  lemma HeadAllows(s: State)
    requires s.n.head <= s.n.tail
    ensures s.n.tail + BLOCK - s.n.head < HALF ==> CircularLess(s.n.head, s.n.tail + BLOCK)
  {
    if s.n.tail + BLOCK - s.n.head < HALF { CircularLessExact(s.n.head, s.n.tail + BLOCK); }
  }

  lemma RefusedAt(s: State, inp: Input)
    requires ProducerStep(s, inp).Some?
    requires var s' := ProducerStep(s, inp).value; !s.p.pc.PIdle? && s'.p.pc.PIdle? && s'.n.tail == s.n.tail
    ensures (s.p.pc.PGrow? && inp == Malloc(false)) || (s.p.pc.PBlock? && inp == Requisition(None))
      || (s.p.pc.PHead? && !CircularLess(s.n.head, s.n.tail + BLOCK))
    ensures ProducerStep(s, inp).value == s.(p := s.p.(pc := PIdle))
  {}

  /** enqueue is refused only between two blocks, and only because there is no memory for a larger index
      that is needed, or no new block, or the queue holds nearly 2^63 elements; it then leaves everything
      that others see as it was. */
  lemma RefusedOnly(ss: seq<State>, es: seq<Event>, i: nat)
    requires Runs(ss, es) && StaysApart(ss, es) && Init(ss[0]) && i < |es| && Refuses(ss, es, i)
    ensures ss[i].n.tail % BLOCK == 0
    ensures (es[i].inp == Malloc(false) && (ss[i].idx == [] || ss[i].p.used == ss[i].p.size))
      || es[i].inp == Requisition(None) || ss[i].n.tail + BLOCK - ss[i].n.head >= HALF
    ensures ss[i + 1] == ss[i].(p := ss[i].p.(pc := PIdle))
  {
    RunInv(ss, es, i);
    NeverPastTail(ss, es, i);
    assert Step(ss[i], es[i].who, es[i].inp) == Some(ss[i + 1]);
    RefusedStep(ss[i], es[i].inp);
  }

  // ---- reuse of a block -------------------------------------------------------------------------

  /** All indices of the oldest block have been taken and freed. */
  predicate OldestFree(s: State) {
    0 < s.p.used <= |s.x.home| &&
    var o := |s.x.home| - s.p.used;
    forall i {:trigger Finished(s.x.given, i)} :: o * BLOCK <= i < (o + 1) * BLOCK ==> Finished(s.x.given, i)
  }

  lemma FlagsMean(s: State)
    requires BlocksInv(s) && s.x.home != []
    ensures s.p.last.Some? && s.p.last.value in s.blocks && s.blocks[s.p.last.value].next in s.blocks
    ensures AllFlags(s.blocks[s.blocks[s.p.last.value].next]) <==> OldestFree(s)
  {
    NextInRing(s.blocks, s.x.home, s.p.last, s.p.used);
    var o := |s.x.home| - s.p.used;
    var blk := s.blocks[s.x.home[o]];
    assert BlockOk(blk, o, s.x.given, s.x.items);
    if OldestFree(s) {
      forall k | 0 <= k < BLOCK ensures k in blk.flags {
        assert CellOk(blk, o, k, s.x.given, s.x.items) && Finished(s.x.given, o * BLOCK + k);
      }
    }
    if AllFlags(blk) {
      forall i | o * BLOCK <= i < (o + 1) * BLOCK ensures Finished(s.x.given, i) {
        assert CellOk(blk, o, i - o * BLOCK, s.x.given, s.x.items);
      }
    }
  }

  /** The producer goes on to the oldest block exactly when all its elements have been taken and freed. */
  lemma ReusesExactly(ss: seq<State>, es: seq<Event>, i: nat)
    requires Runs(ss, es) && StaysApart(ss, es) && Init(ss[0]) && i < |es| && es[i].who.ByProducer? && ss[i].p.pc.PTest?
    ensures ss[i + 1].x.home != ss[i].x.home <==> OldestFree(ss[i])
    ensures OldestFree(ss[i]) ==> ss[i + 1].x.home == ss[i].x.home + [ss[i].x.home[|ss[i].x.home| - ss[i].p.used]]
    ensures ss[i + 1].blocks.Keys == ss[i].blocks.Keys
  {
    RunInv(ss, es, i);
    assert Step(ss[i], es[i].who, es[i].inp) == Some(ss[i + 1]);
    FlagsMean(ss[i]);
    NextInRing(ss[i].blocks, ss[i].x.home, ss[i].p.last, ss[i].p.used);
  }

  // ---- a call that nobody disturbs -----------------------------------------------------------------

  /** What the environment answers when it is asked. */
  function Answer(pc: ProducerPc, grow: bool, b: Option<Bid>): Input {
    match pc
    case PGrow => Malloc(grow)
    case PBlock => Requisition(b)
    case _ => Tau
  }

  /** The producer goes on, k steps at most, to the end of its call. */
  function Drive(s: State, grow: bool, b: Option<Bid>, k: nat): Option<State>
    decreases k
  {
    if s.p.pc.PIdle? || k == 0 then Some(s)
    else
      var r := ProducerStep(s, Answer(s.p.pc, grow, b));
      if r.None? then None else Drive(r.value, grow, b, k - 1)
  }

  /** From s to s' the element is published, and nothing else has changed for others. */
  predicate Published(s: State, s': State) {
    s'.p.pc.PIdle? && s'.n == s.n.(tail := s.n.tail + 1) && s'.x.items == s.x.items + [s.p.v] && s'.blocks.Keys == s.blocks.Keys
  }

  lemma StoreAlone(s: State, grow: bool, b: Option<Bid>)
    requires Inv(s) && (s.p.pc.PBase? || s.p.pc.PBlk? || s.p.pc.PFront? || s.p.pc.PElem? || s.p.pc.PTail?)
    ensures ProducerStep(s, Tau).Some? && Inv(ProducerStep(s, Tau).value)
    ensures var s' := ProducerStep(s, Tau).value;
      if s.p.pc.PTail? then Published(s, s')
      else && s'.n == s.n && s'.x.items == s.x.items && s'.blocks.Keys == s.blocks.Keys && s'.p.v == s.p.v
           && s'.p.pc == match s.p.pc case PBase => PBlk case PBlk => PFront case PFront => PElem case _ => PTail
  {
    NextInRing(s.blocks, s.x.home, s.p.last, s.p.used);
    ProducerInv(s, Tau);
  }

  function StoresLeft(pc: ProducerPc): nat {
    match pc case PBase => 5 case PBlk => 4 case PFront => 3 case PElem => 2 case PTail => 1 case _ => 0
  }

  /** Once there is a block for the element it is published. */
  lemma {:induction false} FromStore(s: State, grow: bool, b: Option<Bid>, k: nat) returns (s': State)
    requires Inv(s) && (s.p.pc.PBase? || s.p.pc.PBlk? || s.p.pc.PFront? || s.p.pc.PElem? || s.p.pc.PTail?)
    requires k >= StoresLeft(s.p.pc)
    ensures Drive(s, grow, b, k) == Some(s') && Published(s, s')
    decreases StoresLeft(s.p.pc)
  {
    StoreAlone(s, grow, b);
    s' := ProducerStep(s, Tau).value;
    if !s.p.pc.PTail? { s' := FromStore(s', grow, b, k - 1); }
  }

  lemma FromBlock(s: State, grow: bool, b: Option<Bid>, k: nat) returns (s': State)
    requires Inv(s) && s.p.pc.PBlock? && k >= 6 && (b.Some? ==> b.value !in s.blocks)
    ensures Drive(s, grow, b, k) == Some(s')
    ensures if b.Some? then NewBlock(s, s', b.value) else s' == s.(p := s.p.(pc := PIdle))
  {
    if b.Some? {
      ProducerInv(s, Requisition(b));
      var s1 := Linked(s, b.value);
      LinkedKeys(s, b.value);
      s' := FromStore(s1, grow, b, k - 1);
    } else {
      s' := s.(p := s.p.(pc := PIdle));
    }
  }

  predicate NewBlock(s: State, s': State, b: Bid) {
    && s'.p.pc.PIdle? && s'.n == s.n.(tail := s.n.tail + 1) && s'.x.items == s.x.items + [s.p.v]
    && s'.blocks.Keys == s.blocks.Keys + {b}
  }

  /** The call has published its element in a new block, or has done nothing. */
  predicate BlockTaken(s: State, s': State, given: bool, b: Option<Bid>)
    requires given ==> b.Some?
  {
    if given then NewBlock(s, s', b.value) else s'.p.pc.PIdle? && s'.n == s.n && s'.x == s.x && s'.blocks == s.blocks
  }

  lemma LinkedKeys(s: State, b: Bid)
    ensures Linked(s, b).blocks.Keys == s.blocks.Keys + {b} && Linked(s, b).n == s.n && Linked(s, b).x.items == s.x.items
    ensures Linked(s, b).p.v == s.p.v && Linked(s, b).p.pc == PBase
  {}

  /** Whether the call needs a larger index, once it needs a block. */
  predicate NeedsIndex(s: State) { s.idx == [] || s.p.used == s.p.size }

  /** From the check of the head on: a block is needed. */
  lemma FromHead(s: State, grow: bool, b: Option<Bid>, k: nat) returns (s': State)
    requires Inv(s) && s.p.pc.PHead? && k >= 8 && (b.Some? ==> b.value !in s.blocks)
    requires s.n.head <= s.n.tail && s.n.tail + BLOCK - s.n.head < HALF
    ensures Drive(s, grow, b, k) == Some(s')
    ensures BlockTaken(s, s', (NeedsIndex(s) ==> grow) && b.Some?, b)
  {
    var s1 := HeadChecked(s);
    if NeedsIndex(s) {
      s' := FromGrow(s1, grow, b, k - 1);
    } else {
      s' := FromBlock(s1, grow, b, k - 1);
    }
  }

  lemma HeadChecked(s: State) returns (s': State)
    requires Inv(s) && s.p.pc.PHead? && s.n.head <= s.n.tail && s.n.tail + BLOCK - s.n.head < HALF
    ensures ProducerStep(s, Tau) == Some(s') && Inv(s') && s' == s.(p := s.p.(pc := if NeedsIndex(s) then PGrow else PBlock))
  {
    HeadAllows(s);
    HeadNotPast(s);
    ProducerInv(s, Tau);
    s' := ProducerStep(s, Tau).value;
  }

  lemma FromGrow(s: State, grow: bool, b: Option<Bid>, k: nat) returns (s': State)
    requires Inv(s) && s.p.pc.PGrow? && k >= 7 && (b.Some? ==> b.value !in s.blocks)
    ensures Drive(s, grow, b, k) == Some(s')
    ensures BlockTaken(s, s', grow && b.Some?, b)
  {
    ProducerInv(s, Malloc(grow));
    s' := ProducerStep(s, Malloc(grow)).value;
    if grow { s' := FromBlock(s', grow, b, k - 1); }
  }

  /** The call needs a block that it has to ask for. */
  predicate NeedsBlock(s: State) { s.n.tail % BLOCK == 0 && !OldestFree(s) }

  /** A call of enqueue that nobody disturbs publishes its argument, unless it needs a block and is given no
      memory for it; then nothing happens. It takes a new block exactly when it is between two blocks and the
      oldest block is still in use. */
  lemma SoloEnqueue(s: State, v: int, grow: bool, b: Option<Bid>) returns (s': State)
    requires Inv(s) && s.p.pc.PIdle? && (b.Some? ==> b.value !in s.blocks)
    requires s.n.tail + BLOCK - s.n.head < HALF
    ensures ProducerStep(s, Enqueue(v)).Some? && Drive(ProducerStep(s, Enqueue(v)).value, grow, b, 9) == Some(s') && s'.p.pc.PIdle?
    ensures var given := (NeedsIndex(s) ==> grow) && b.Some?;
      && (NeedsBlock(s) && !given ==> s'.n == s.n && s'.x == s.x && s'.blocks == s.blocks)
      && (!NeedsBlock(s) || given ==> s'.n == s.n.(tail := s.n.tail + 1) && s'.x.items == s.x.items + [v])
      && (NeedsBlock(s) && given ==> s'.blocks.Keys == s.blocks.Keys + {b.value})
      && (!NeedsBlock(s) ==> s'.blocks.Keys == s.blocks.Keys)
  {
    HeadBelow(s);
    ProducerInv(s, Enqueue(v));
    var s1 := ProducerStep(s, Enqueue(v)).value;
    if s1.p.pc.PElem? {
      s' := FromStore(s1, grow, b, 9);
    } else if s1.p.pc.PTest? {
      s' := FromTest(s1, grow, b);
    } else {
      s' := FromHead(s1, grow, b, 9);
    }
  }

  lemma HeadBelow(s: State)
    requires Inv(s)
    ensures s.n.head <= s.n.tail
  {}

  lemma FromTest(s: State, grow: bool, b: Option<Bid>) returns (s': State)
    requires Inv(s) && s.p.pc.PTest? && (b.Some? ==> b.value !in s.blocks)
    requires s.n.head <= s.n.tail && s.n.tail + BLOCK - s.n.head < HALF
    ensures Drive(s, grow, b, 9) == Some(s')
    ensures OldestFree(s) ==> Published(s, s')
    ensures !OldestFree(s) ==> BlockTaken(s, s', (NeedsIndex(s) ==> grow) && b.Some?, b)
  {
    FlagsMean(s);
    ProducerInv(s, Tau);
    s' := ProducerStep(s, Tau).value;
    if OldestFree(s) {
      var s1 := s';
      s' := FromStore(s1, grow, b, 8);
    } else {
      s' := FromHead(s', grow, b, 8);
    }
  }

  // ---- dequeues that get nothing ------------------------------------------------------------------------

  /** Dequeuer t begins a call in step i and is still claiming in state j. */
  predicate Asking(ss: seq<State>, es: seq<Event>, i: nat, j: nat, t: nat) {
    && |ss| == |es| + 1 && i < j <= |es| && es[i].who == ByDequeuer(t) && es[i].inp.Dequeue?
    && t in ss[i].ths && ss[i].ths[t].Idle?
    && forall k :: i < k <= j ==> t in ss[k].ths && ss[k].ths[t].Claiming?
  }

  /** In three states of the call, in this order or with the last one first: the counts handed out, less those given
      back, were as many as the elements published. */
  ghost predicate AllClaimed(ss: seq<State>, i: nat, j: nat) {
    exists a, b, d {:trigger ss[a].n, ss[b].n, ss[d].n} ::
      i < a <= j < |ss| && i < b < d <= j && !CircularLess(ss[d].n.opt - ss[b].n.over, ss[a].n.tail)
  }

  ghost predicate Tail(ss: seq<State>, i: nat, j: nat, tail: nat) { exists a {:trigger ss[a]} :: i < a < j <= |ss| && ss[a].n.tail == tail }

  ghost predicate Over(ss: seq<State>, i: nat, j: nat, o: nat) { exists b {:trigger ss[b]} :: i < b < j <= |ss| && ss[b].n.over == o }

  ghost predicate Both(ss: seq<State>, i: nat, j: nat, m: nat, o: nat) {
    exists b, d {:trigger ss[b], ss[d]} :: i < b < d < j <= |ss| && ss[b].n.over == o && ss[d].n.opt == m
  }

  /** What the call remembers comes from its own loads. */
  ghost predicate Remembers(ss: seq<State>, i: nat, j: nat, c: Claim) {
    match c
    case LoadTail(max) => max > 0
    case LoadOver(max, tail) => max > 0 && Tail(ss, i, j, tail)
    case LoadOpt(max, tail, o) => max > 0 && Tail(ss, i, j, tail) && Over(ss, i, j, o)
    case AddOpt(n, o) => n > 0 && Over(ss, i, j, o)
    case Again(n, m, o) => n > 0 && Both(ss, i, j, m, o)
    case AddOver(_, _, k) => k == 0 ==> AllClaimed(ss, i, j)
    case AddHead(_, k) => k > 0
  }

  lemma LaterTail(ss: seq<State>, i: nat, j: nat, tail: nat)
    requires Tail(ss, i, j, tail) && j < |ss|
    ensures Tail(ss, i, j + 1, tail)
  {}

  lemma LaterOver(ss: seq<State>, i: nat, j: nat, o: nat)
    requires Over(ss, i, j, o) && j < |ss|
    ensures Over(ss, i, j + 1, o)
  {}

  lemma LaterBoth(ss: seq<State>, i: nat, j: nat, m: nat, o: nat)
    requires Both(ss, i, j, m, o) && j < |ss|
    ensures Both(ss, i, j + 1, m, o)
  {}

  lemma Later(ss: seq<State>, i: nat, j: nat, c: Claim)
    requires Remembers(ss, i, j, c) && j + 1 < |ss|
    ensures Remembers(ss, i, j + 1, c)
  {
    if c.LoadOver? || c.LoadOpt? { LaterTail(ss, i, j, c.tail); }
    if c.LoadOpt? || c.AddOpt? { LaterOver(ss, i, j, c.o); }
    if c.Again? { LaterBoth(ss, i, j, c.m, c.o); }
  }

  lemma NotLess(a: int, b: int)
    ensures CircularLess(a, b) ==> Wrap(b - a) > 0
  {}

  /** The next step of the claim remembers what it loads. */
  lemma ClaimRemembers(ss: seq<State>, i: nat, j: nat, t: nat, c: Claim)
    requires i < j < |ss| - 1 && t in ss[j].ths && ss[j].ths[t] == Claiming(c) && Remembers(ss, i, j, c)
    requires ss[j + 1] == ClaimStep(ss[j], t, c)
    ensures t in ss[j + 1].ths
    ensures match ss[j + 1].ths[t]
            case Claiming(c') => Remembers(ss, i, j + 1, c')
            case Idle => AllClaimed(ss, i, j)
            case Working(_) => true
  {
    match c
    case LoadTail(_) => assert Tail(ss, i, j + 1, ss[j].n.tail);
    case LoadOver(_, tail) => LaterTail(ss, i, j, tail); assert Over(ss, i, j + 1, ss[j].n.over);
    case LoadOpt(_, tail, o) => OptRemembers(ss, i, j, tail, o);
    case AddOpt(_, o) => AddRemembers(ss, i, j, o);
    case Again(_, m, o) => AgainRemembers(ss, i, j, m, o);
    case _ =>
  }

  lemma OptRemembers(ss: seq<State>, i: nat, j: nat, tail: nat, o: nat)
    requires i < j < |ss| - 1 && Tail(ss, i, j, tail) && Over(ss, i, j, o)
    ensures if CircularLess(ss[j].n.opt - o, tail) then Over(ss, i, j + 1, o) && Left(tail, ss[j].n.opt, o) > 0 else AllClaimed(ss, i, j)
  {
    LaterOver(ss, i, j, o);
    NotLess(ss[j].n.opt - o, tail);
    if !CircularLess(ss[j].n.opt - o, tail) {
      var a :| i < a < j <= |ss| && ss[a].n.tail == tail;
      var b :| i < b < j <= |ss| && ss[b].n.over == o;
      assert !CircularLess(ss[j].n.opt - ss[b].n.over, ss[a].n.tail);
    }
  }

  lemma AddRemembers(ss: seq<State>, i: nat, j: nat, o: nat)
    requires i < j < |ss| - 1 && Over(ss, i, j, o)
    ensures Both(ss, i, j + 1, ss[j].n.opt, o)
  {
    var b :| i < b < j <= |ss| && ss[b].n.over == o;
    assert ss[b].n.over == o && ss[j].n.opt == ss[j].n.opt;
  }

  lemma AgainRemembers(ss: seq<State>, i: nat, j: nat, m: nat, o: nat)
    requires i < j < |ss| - 1 && Both(ss, i, j, m, o)
    ensures if CircularLess(m - o, ss[j].n.tail) then Left(ss[j].n.tail, m, o) > 0 else AllClaimed(ss, i, j + 1)
  {
    NotLess(m - o, ss[j].n.tail);
    if !CircularLess(m - o, ss[j].n.tail) {
      var b, d :| i < b < d < j <= |ss| && ss[b].n.over == o && ss[d].n.opt == m;
      assert !CircularLess(ss[d].n.opt - ss[b].n.over, ss[j].n.tail);
    }
  }

  lemma {:induction false} AskingIs(ss: seq<State>, es: seq<Event>, i: nat, j: nat, t: nat)
    requires Runs(ss, es) && Asking(ss, es, i, j, t) && es[i].inp.max > 0
    ensures Remembers(ss, i, j, ss[j].ths[t].c)
    decreases j
  {
    var e := es[j - 1];
    assert Step(ss[j - 1], e.who, e.inp) == Some(ss[j]);
    if j > i + 1 {
      AskingIs(ss, es, i, j - 1, t);
      if e.who == ByDequeuer(t) {
        ClaimRemembers(ss, i, j - 1, t, ss[j - 1].ths[t].c);
      } else {
        OthersClaim(ss[j - 1], e, ss[j], t);
        Later(ss, i, j - 1, ss[j - 1].ths[t].c);
      }
    }
  }

  lemma OthersClaim(s: State, e: Event, s': State, t: nat)
    requires Step(s, e.who, e.inp) == Some(s') && e.who != ByDequeuer(t) && t in s.ths
    ensures t in s'.ths && s'.ths[t] == s.ths[t]
  {}

  /** A call of dequeue gets nothing only if, by its own loads, the counts handed out less those given back were as
      many as the elements published: everything it could see was claimed by others. */
  lemma NothingOnlyIfClaimed(ss: seq<State>, es: seq<Event>, i: nat, j: nat, t: nat)
    requires Runs(ss, es) && Asking(ss, es, i, j, t) && j < |es| && es[i].inp.max > 0
    requires es[j].who == ByDequeuer(t) && t in ss[j + 1].ths && ss[j + 1].ths[t].Idle?
    ensures AllClaimed(ss, i, j)
  {
    AskingIs(ss, es, i, j, t);
    var e := es[j];
    assert Step(ss[j], e.who, e.inp) == Some(ss[j + 1]);
    ClaimRemembers(ss, i, j, t, ss[j].ths[t].c);
  }
}
