/** What holds in every run of the explicit sub-queue. */
module QueueTheorems {
  import opened Options
  import opened QueueState
  import opened QueueClaim
  import opened QueueInv
  import opened QueueProducer
  import opened QueueWorker

  datatype Event = Event(who: Actor, inp: Input)

  /** The words that this step compares or subtracts stand for numbers less than 2^63 apart. */
  predicate Apart(s: State, e: Event) {
    match e.who
    case ByProducer => s.p.pc.PHead? ==> s.n.tail - s.n.head <= HALF
    case ByDequeuer(t) =>
      t in s.ths ==>
        match s.ths[t]
        case Idle => true
        case Claiming(c) => ClaimNear(s.n, c)
        case Working(w) => WorkNear(s.idx, w)
  }

  predicate Runs(ss: seq<State>, es: seq<Event>) {
    && |ss| == |es| + 1
    && (forall i {:trigger es[i]} :: 0 <= i < |es| ==> Step(ss[i], es[i].who, es[i].inp) == Some(ss[i + 1]))
  }

  predicate StaysApart(ss: seq<State>, es: seq<Event>)
    requires |ss| == |es| + 1
  {
    forall i {:trigger es[i]} :: 0 <= i < |es| ==> Apart(ss[i], es[i])
  }

  /** A new sub-queue: its constructor has built an empty index of INITIAL entries, or had no
      memory for it; all dequeuers are idle. */
  predicate Init(s: State) {
    && s.n == Counters(0, 0, 0, 0) && s.blocks == map[] && s.x == History([], [], [], [])
    && (|| (s.idx == [] && s.p == Producer(PIdle, s.p.v, None, 0, INITIAL / 2, 0))
        || (s.idx == [Header(INITIAL, WORD - 1, map[], map[], Span(0, 0, 0, 0))]
            && s.p == Producer(PIdle, s.p.v, None, 0, INITIAL, 0)))
    && forall t :: t in s.ths ==> s.ths[t].Idle?
  }

  /** The dequeuer still has index k in hand, at this stage. */
  predicate HasIndex(pc: Pc, k: nat, g: Stage) {
    pc.Working? &&
    match pc.w
    case LoadIndex(a, b) => g == Held && a <= k < b
    case LoadFront(a, b, _) => g == Held && a <= k < b
    case ReadBase(a, b, _, _, _) => g == Held && a <= k < b
    case ReadBlock(i, b, _, _) => g == Held && i <= k < b
    case Move(i, q) => if k < i then g == Moved && q.s <= k else g == Held && k < q.b
    case Flag(i, q) => if k < i then g == Moved && q.s <= k else g == Held && q.e <= k < q.b
    case Failed => false
  }

  predicate Carried(ths: map<nat, Pc>, g: Given, k: nat) {
    g.g == Gone || (g.t in ths && HasIndex(ths[g.t], k, g.g))
  }

  /** No index is forgotten before its slot is freed. */
  ghost predicate CarriedInv(ths: map<nat, Pc>, given: seq<Given>) {
    forall k :: 0 <= k < |given| ==> Carried(ths, given[k], k)
  }

  ghost predicate Inv(s: State) {
    && ClaimInv(s.n, s.x.marks, s.ths)
    && BlocksInv(s)
    && CarriedInv(s.ths, s.x.given)
    && !s.p.pc.PFailed?
  }

  lemma InitOk(s: State)
    requires Init(s)
    ensures Inv(s)
  {}

  lemma SamePcClaims(n: Counters, marks: seq<Mark>, ths: map<nat, Pc>, t: nat, pc: Pc)
    requires ClaimInv(n, marks, ths) && t in ths && !ths[t].Claiming? && !pc.Claiming?
    ensures ClaimInv(n, marks, ths[t := pc])
  {
    PlainKeeps(n, marks, ths, t, pc);
  }

  lemma HeadNotPast(s: State)
    requires ClaimInv(s.n, s.x.marks, s.ths) && s.n.tail - s.n.head <= HALF
    ensures !CircularLess(s.n.tail, s.n.head)
  {
    HeadBelowTail(s.n, s.x.marks, s.ths);
    assert Wrap(s.n.tail - s.n.head) == s.n.tail - s.n.head;
  }

  /** The producer leaves the dequeuers alone, and its assertion fails only at a passed tail. */
  lemma ProducerOnly(s: State, inp: Input)
    requires ProducerStep(s, inp).Some?
    ensures var s' := ProducerStep(s, inp).value;
      && s'.ths == s.ths && s'.x.given == s.x.given && s'.x.marks == s.x.marks
      && s'.n in {s.n, s.n.(tail := s.n.tail + 1)}
      && (s'.p.pc.PFailed? ==> s.p.pc.PHead? && CircularLess(s.n.tail, s.n.head))
  {}

  lemma ProducerClaims(s: State, inp: Input)
    requires ClaimInv(s.n, s.x.marks, s.ths) && ProducerStep(s, inp).Some?
    ensures var s' := ProducerStep(s, inp).value; ClaimInv(s'.n, s'.x.marks, s'.ths)
  {
    ProducerOnly(s, inp);
    TailKeeps(s.n, s.x.marks, s.ths);
  }

  lemma ProducerInv(s: State, inp: Input)
    requires Inv(s) && ProducerStep(s, inp).Some? && Apart(s, Event(ByProducer, inp))
    ensures Inv(ProducerStep(s, inp).value)
  {
    ProducerClaims(s, inp);
    ProducerKeeps(s, inp);
    ProducerOnly(s, inp);
    if s.p.pc.PHead? { HeadNotPast(s); }
  }

  lemma WorkClaims(s: State, t: nat, w: Work)
    requires ClaimInv(s.n, s.x.marks, s.ths) && t in s.ths && s.ths[t] == Working(w)
    ensures var s' := WorkStep(s, t, w); ClaimInv(s'.n, s'.x.marks, s'.ths) && s'.p == s.p
  {
    var s' := WorkStep(s, t, w);
    if w != Failed { SamePcClaims(s.n, s.x.marks, s.ths, t, s'.ths[t]); }
  }

  /** Between two positions that hold the same indices. */
  lemma CarriedGo(ths: map<nat, Pc>, given: seq<Given>, t: nat, pc: Pc)
    requires t in ths && CarriedInv(ths, given) && forall k, g :: HasIndex(ths[t], k, g) ==> HasIndex(pc, k, g)
    ensures CarriedInv(ths[t := pc], given)
  {
    var ths' := ths[t := pc];
    forall k | 0 <= k < |given| ensures Carried(ths', given[k], k) {
      assert Carried(ths, given[k], k);
    }
  }

  lemma ClaimCarried(s: State, t: nat, c: Claim)
    requires t in s.ths && s.ths[t] == Claiming(c) && CarriedInv(s.ths, s.x.given) && s.n.head == |s.x.given|
    ensures CarriedInv(ClaimStep(s, t, c).ths, ClaimStep(s, t, c).x.given)
  {
    var s' := ClaimStep(s, t, c);
    forall k | 0 <= k < |s'.x.given| ensures Carried(s'.ths, s'.x.given[k], k) {
      if k < |s.x.given| { assert Carried(s.ths, s.x.given[k], k); }
    }
  }

  lemma MoveCarried(ths: map<nat, Pc>, given: seq<Given>, t: nat, i: nat, q: Part)
    requires t in ths && ths[t] == Working(Move(i, q)) && CarriedInv(ths, given)
    requires q.s <= i < q.e <= q.b <= |given| && given[i].t == t
    ensures CarriedInv(ths[t := Working(if i + 1 == q.e then Flag(q.e, q) else Move(i + 1, q))], Staged(given, i, Moved))
  {
    var ths' := ths[t := Working(if i + 1 == q.e then Flag(q.e, q) else Move(i + 1, q))];
    var given' := Staged(given, i, Moved);
    forall k | 0 <= k < |given'| ensures Carried(ths', given'[k], k) {
      assert Carried(ths, given[k], k);
    }
  }

  lemma FlagCarried(ths: map<nat, Pc>, given: seq<Given>, t: nat, i: nat, q: Part, pc: Pc)
    requires t in ths && ths[t] == Working(Flag(i + 1, q)) && CarriedInv(ths, given)
    requires q.s <= i < q.e <= q.b <= |given|
    requires if i != q.s then pc == Working(Flag(i, q)) else if q.e == q.b then pc == Idle
             else pc.Working? && pc.w.ReadBlock? && pc.w.i == q.e && pc.w.b == q.b
    ensures CarriedInv(ths[t := pc], Staged(given, i, Gone))
  {
    var ths' := ths[t := pc];
    var given' := Staged(given, i, Gone);
    forall k | 0 <= k < |given'| ensures Carried(ths', given'[k], k) {
      assert Carried(ths, given[k], k);
    }
  }

  lemma FindCarried(s: State, t: nat, w: Work)
    requires CarriedInv(s.ths, s.x.given) && t in s.ths && s.ths[t] == Working(w)
    requires !w.Move? && !w.Flag? && !w.Failed? && WorkStep(s, t, w).ths[t] != Working(Failed)
    ensures CarriedInv(WorkStep(s, t, w).ths, s.x.given)
  {
    var w' := FindGoes(s, t, w);
    FindSame(s, t, w, w');
    CarriedGo(s.ths, s.x.given, t, Working(w'));
  }

  lemma FindSame(s: State, t: nat, w: Work, w': Work)
    requires !w.Move? && !w.Flag? && !w.Failed? && w' != Failed && WorkStep(s, t, w).ths == s.ths[t := Working(w')]
    ensures forall k, g :: HasIndex(Working(w), k, g) ==> HasIndex(Working(w'), k, g)
  {
    assert WorkStep(s, t, w).ths[t] == Working(w');
  }

  lemma MovesCarried(s: State, t: nat, i: nat, q: Part)
    requires BlocksInv(s) && CarriedInv(s.ths, s.x.given) && t in s.ths && s.ths[t] == Working(Move(i, q))
    requires WorkOk(s.idx, s.x.home, s.x.given, t, Move(i, q))
    ensures var s' := WorkStep(s, t, Move(i, q)); CarriedInv(s'.ths, s'.x.given)
  {
    MoveFound(s, t, i, q);
    MoveCarried(s.ths, s.x.given, t, i, q);
  }

  lemma FlagsCarried(s: State, t: nat, i: nat, q: Part)
    requires BlocksInv(s) && CarriedInv(s.ths, s.x.given) && t in s.ths && s.ths[t] == Working(Flag(i + 1, q))
    requires WorkOk(s.idx, s.x.home, s.x.given, t, Flag(i + 1, q))
    ensures var s' := WorkStep(s, t, Flag(i + 1, q)); CarriedInv(s'.ths, s'.x.given)
  {
    FlagFound(s, t, i, q);
    FlagCarried(s.ths, s.x.given, t, i, q, FlagStep(s, t, i, q, s.blocks[q.k]).ths[t]);
  }

  lemma WorkStepCarried(s: State, t: nat, w: Work)
    requires BlocksInv(s) && CarriedInv(s.ths, s.x.given) && t in s.ths && s.ths[t] == Working(w)
    requires BlocksInv(WorkStep(s, t, w))
    ensures CarriedInv(WorkStep(s, t, w).ths, WorkStep(s, t, w).x.given)
  {
    assert WorkOk(s.idx, s.x.home, s.x.given, t, w);
    if w.Move? {
      MovesCarried(s, t, w.i, w.q);
    } else if w.Flag? {
      FlagsCarried(s, t, w.i - 1, w.q);
    } else {
      var w' := FindGoes(s, t, w);
      assert WorkStep(s, t, w).ths[t] == Working(w');
      assert WorkOk(s.idx, s.x.home, s.x.given, t, w');
      FindCarried(s, t, w);
    }
  }

  lemma StartInv(s: State, t: nat, max: nat)
    requires Inv(s) && t in s.ths && s.ths[t].Idle?
    ensures Inv(Go(s, t, Claiming(LoadTail(max))))
  {
    PlainKeeps(s.n, s.x.marks, s.ths, t, Claiming(LoadTail(max)));
    CarriedGo(s.ths, s.x.given, t, Claiming(LoadTail(max)));
    QueueWorker.GoKeeps(s, Go(s, t, Claiming(LoadTail(max))), t, Claiming(LoadTail(max)));
  }

  lemma ClaimInvStep(s: State, t: nat, c: Claim)
    requires Inv(s) && t in s.ths && s.ths[t] == Claiming(c) && ClaimNear(s.n, c)
    ensures Inv(ClaimStep(s, t, c))
  {
    ClaimStepKeeps(s, t);
    ClaimBlocks(s, t, c);
    ClaimCarried(s, t, c);
  }

  lemma WorkInvStep(s: State, t: nat, w: Work)
    requires Inv(s) && t in s.ths && s.ths[t] == Working(w) && WorkNear(s.idx, w)
    ensures Inv(WorkStep(s, t, w))
  {
    assert WorkOk(s.idx, s.x.home, s.x.given, t, w);
    WorkKeeps(s, t, w);
    WorkClaims(s, t, w);
    WorkStepCarried(s, t, w);
  }

  lemma StepInv(s: State, e: Event)
    requires Inv(s) && Step(s, e.who, e.inp).Some? && Apart(s, e)
    ensures Inv(Step(s, e.who, e.inp).value)
  {
    match e.who {
      case ByProducer => ProducerInv(s, e.inp);
      case ByDequeuer(t) =>
        match s.ths[t] {
          case Idle => StartInv(s, t, e.inp.max);
          case Claiming(c) => ClaimInvStep(s, t, c);
          case Working(w) => WorkInvStep(s, t, w);
        }
    }
  }

  lemma {:induction false} RunInv(ss: seq<State>, es: seq<Event>, i: nat)
    requires Runs(ss, es) && StaysApart(ss, es) && Init(ss[0]) && i < |ss|
    ensures Inv(ss[i])
  {
    if i == 0 {
      InitOk(ss[0]);
    } else {
      RunInv(ss, es, i - 1);
      assert Apart(ss[i - 1], es[i - 1]);
      StepInv(ss[i - 1], es[i - 1]);
    }
  }

  /** headIndex never passes tailIndex, whatever stale values dequeuers decide with. */
  lemma NeverPastTail(ss: seq<State>, es: seq<Event>, i: nat)
    requires Runs(ss, es) && StaysApart(ss, es) && Init(ss[0]) && i < |ss|
    ensures ss[i].n.head <= ss[i].n.tail == |ss[i].x.items|
  {
    RunInv(ss, es, i);
  }

  /** No assertion of the code fails, no slot is read before it holds an element or after its
      element was destroyed, and no index entry is read before it is written. */
  lemma NeverFails(ss: seq<State>, es: seq<Event>, i: nat)
    requires Runs(ss, es) && StaysApart(ss, es) && Init(ss[0]) && i < |ss|
    ensures !ss[i].p.pc.PFailed?
    ensures forall t :: t in ss[i].ths ==> ss[i].ths[t] != Working(Failed)
  {
    RunInv(ss, es, i);
    forall t | t in ss[i].ths ensures ss[i].ths[t] != Working(Failed) {
      if ss[i].ths[t].Working? { assert WorkOk(ss[i].idx, ss[i].x.home, ss[i].x.given, t, ss[i].ths[t].w); }
    }
  }

  /** The step with which dequeuer t takes the element of index k. */
  predicate Takes(s: State, t: nat, k: nat) {
    t in s.ths && s.ths[t].Working? && s.ths[t].w.Move? && s.ths[t].w.i == k
  }

  /** The dequeuer that takes index k gets the k-th value enqueued: through reuse of blocks,
      insertion of blocks and doubling of the index, the block found is the one that holds k. */
  lemma RightElement(ss: seq<State>, es: seq<Event>, i: nat, t: nat, k: nat)
    requires Runs(ss, es) && StaysApart(ss, es) && Init(ss[0]) && i < |ss| && Takes(ss[i], t, k)
    ensures k < |ss[i].x.items| && Delivered(ss[i], t) == Some(ss[i].x.items[k])
    ensures k < ss[i].n.head == |ss[i].x.given| && ss[i].x.given[k] == Given(t, Held)
  {
    RunInv(ss, es, i);
    var s := ss[i];
    assert WorkOk(s.idx, s.x.home, s.x.given, t, s.ths[t].w);
    MoveFound(s, t, k, s.ths[t].w.q);
  }

  /** Stages only advance, and an index once handed out keeps its dequeuer. */
  predicate Advances(given: seq<Given>, given': seq<Given>) {
    && |given| <= |given'|
    && forall k :: 0 <= k < |given| ==> given'[k].t == given[k].t && (given[k].g != Held ==> given'[k].g != Held)
  }

  lemma StepAdvances(s: State, e: Event)
    requires Inv(s) && Step(s, e.who, e.inp).Some?
    ensures Advances(s.x.given, Step(s, e.who, e.inp).value.x.given)
  {
    match e.who {
      case ByProducer =>
      case ByDequeuer(t) =>
        if s.ths[t].Claiming? { ClaimAdvances(s, t, s.ths[t].c); }
        if s.ths[t].Working? { WorkAdvances(s, t, s.ths[t].w); }
    }
  }

  lemma ClaimAdvances(s: State, t: nat, c: Claim)
    ensures Advances(s.x.given, ClaimStep(s, t, c).x.given)
  {}

  lemma WorkAdvances(s: State, t: nat, w: Work)
    ensures Advances(s.x.given, WorkStep(s, t, w).x.given)
  {}

  lemma {:induction false} RunAdvances(ss: seq<State>, es: seq<Event>, i: nat, j: nat)
    requires Runs(ss, es) && StaysApart(ss, es) && Init(ss[0]) && i <= j < |ss|
    ensures Advances(ss[i].x.given, ss[j].x.given)
  {
    if i < j {
      RunAdvances(ss, es, i, j - 1);
      RunInv(ss, es, j - 1);
      StepAdvances(ss[j - 1], es[j - 1]);
    }
  }

  /** No index is taken twice, by whichever dequeuers. */
  lemma TakenOnce(ss: seq<State>, es: seq<Event>, i: nat, j: nat, t: nat, u: nat, k: nat)
    requires Runs(ss, es) && StaysApart(ss, es) && Init(ss[0]) && i < j < |es|
    requires es[i].who == ByDequeuer(t) && Takes(ss[i], t, k)
    ensures !(es[j].who == ByDequeuer(u) && Takes(ss[j], u, k))
  {
    RightElement(ss, es, i, t, k);
    MovedAfter(ss, es, i, t, k);
    RunAdvances(ss, es, i + 1, j);
    if Takes(ss[j], u, k) { RightElement(ss, es, j, u, k); }
  }

  lemma MovedAfter(ss: seq<State>, es: seq<Event>, i: nat, t: nat, k: nat)
    requires Runs(ss, es) && StaysApart(ss, es) && Init(ss[0]) && i < |es|
    requires es[i].who == ByDequeuer(t) && Takes(ss[i], t, k)
    ensures k < |ss[i + 1].x.given| && ss[i + 1].x.given[k].g == Moved
  {
    RunInv(ss, es, i);
    var s := ss[i];
    assert WorkOk(s.idx, s.x.home, s.x.given, t, s.ths[t].w);
    MoveFound(s, t, k, s.ths[t].w.q);
    assert Step(s, es[i].who, es[i].inp) == Some(ss[i + 1]);
  }

  /** When no dequeue is under way the counters balance, and every index below headIndex has
      been taken and its slot freed. */
  lemma Settled(ss: seq<State>, es: seq<Event>, i: nat)
    requires Runs(ss, es) && StaysApart(ss, es) && Init(ss[0]) && i < |ss|
    requires forall t :: t in ss[i].ths ==> ss[i].ths[t].Idle?
    ensures ss[i].n.opt == ss[i].n.head + ss[i].n.over
    ensures |ss[i].x.given| == ss[i].n.head && forall k :: 0 <= k < ss[i].n.head ==> ss[i].x.given[k].g == Gone
  {
    RunInv(ss, es, i);
    Balanced(ss[i]);
    forall k | 0 <= k < ss[i].n.head ensures ss[i].x.given[k].g == Gone {
      assert Carried(ss[i].ths, ss[i].x.given[k], k);
    }
  }

  lemma Balanced(s: State)
    requires ClaimInv(s.n, s.x.marks, s.ths) && forall t :: t in s.ths ==> s.ths[t].Idle?
    ensures s.n.opt == s.n.head + s.n.over
  {
    var marks := s.x.marks;
    forall p | 0 <= p < |marks| ensures marks[p].f == Taken || marks[p].f == Returned {
      assert Owned(s.ths, marks, p);
    }
    OnlyTwo(marks, |marks|);
  }

  /** Numbers so small that no two of them are 2^63 apart. */
  predicate Few(s: State) { s.n.opt < HALF - 2 * BLOCK && s.n.tail < HALF - 2 * BLOCK }

  lemma FewApart(s: State, e: Event)
    requires Inv(s) && Few(s)
    ensures Apart(s, e)
  {
    match e.who {
      case ByProducer =>
      case ByDequeuer(t) =>
        if t in s.ths && s.ths[t].Claiming? { assert ClaimOk(s.n, s.x.marks, t, s.ths[t].c); }
        if t in s.ths && s.ths[t].Working? { FewWork(s, t, s.ths[t].w); }
    }
  }

  lemma FewWork(s: State, t: nat, w: Work)
    requires BlocksInv(s) && s.n.tail < HALF - 2 * BLOCK && t in s.ths && s.ths[t] == Working(w)
    ensures WorkNear(s.idx, w)
  {
    assert WorkOk(s.idx, s.x.home, s.x.given, t, w);
    if w.ReadBase? {
      assert HeaderOk(s.idx[w.h], s.x.home);
      assert Intact(s.idx[w.h], s.x.home, w.pf);
    }
  }

  /** Until almost 2^63 elements or counts have been used up, every run stays apart. */
  lemma {:induction false} FewStaysApart(ss: seq<State>, es: seq<Event>)
    requires Runs(ss, es) && Init(ss[0]) && forall i :: 0 <= i < |ss| ==> Few(ss[i])
    ensures StaysApart(ss, es)
  {
    if es != [] {
      var n := |es| - 1;
      FewStaysApart(ss[..n + 1], es[..n]);
      RunInv(ss[..n + 1], es[..n], n);
      FewApart(ss[n], es[n]);
      forall i {:trigger es[i]} | 0 <= i < |es| ensures Apart(ss[i], es[i]) {
        if i < n { assert Apart(ss[..n + 1][i], es[..n][i]); }
      }
    }
  }

  lemma {:induction false} OnlyTwo(marks: seq<Mark>, k: nat)
    requires k <= |marks| && forall p :: 0 <= p < |marks| ==> marks[p].f == Taken || marks[p].f == Returned
    ensures Count(marks, Taken, k) + Count(marks, Returned, k) == k
  {
    if k > 0 { OnlyTwo(marks, k - 1); }
  }
}
