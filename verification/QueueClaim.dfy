/** How dequeuers share out indices: headIndex never passes tailIndex although each dequeuer
    decides with a stale value of dequeueOvercommit. */
module QueueClaim {
  import opened QueueState

  /** How many of the first k marks have fate f. */
  function Count(marks: seq<Mark>, f: Fate, k: nat): (r: nat)
    requires k <= |marks|
    ensures r <= k
  {
    if k == 0 then 0 else Count(marks, f, k - 1) + (if marks[k - 1].f == f then 1 else 0)
  }

  predicate Range(marks: seq<Mark>, a: nat, b: nat, m: Mark) {
    b <= |marks| && forall p :: a <= p < b ==> marks[p] == m
  }

  /** Where thread t still has undecided marks, and of which fate. */
  predicate Covers(pc: Pc, p: nat, f: Fate) {
    pc.Claiming? &&
    match pc.c
    case Again(n, m, _) => f == Pending && m <= p < m + n
    case AddOver(n, m, k) => if p < m + k then f == Won && m <= p else f == Lost && p < m + n
    case AddHead(m, k) => f == Won && m <= p < m + k
    case _ => false
  }

  predicate ClaimOk(n: Counters, marks: seq<Mark>, t: nat, c: Claim) {
    match c
    case LoadTail(_) => true
    case LoadOver(_, _) => true
    case LoadOpt(_, _, o) => o <= n.over
    case AddOpt(_, o) => o <= n.over
    case Again(w, m, o) => Range(marks, m, m + w, Mark(t, Pending)) && o <= Count(marks, Returned, m)
    case AddOver(w, m, k) => k < w && Range(marks, m, m + k, Mark(t, Won)) && Range(marks, m + k, m + w, Mark(t, Lost))
    case AddHead(m, k) => Range(marks, m, m + k, Mark(t, Won))
  }

  /** A count that was taken for an element is, less the counts given back before it, below
      the tail. */
  predicate Fits(n: Counters, marks: seq<Mark>, p: nat)
    requires p < |marks|
  {
    marks[p].f == Won || marks[p].f == Taken ==> p - Count(marks, Returned, p) < n.tail
  }

  predicate Owned(ths: map<nat, Pc>, marks: seq<Mark>, p: nat)
    requires p < |marks|
  {
    marks[p].f == Taken || marks[p].f == Returned
    || (marks[p].t in ths && Covers(ths[marks[p].t], p, marks[p].f))
  }

  ghost predicate ClaimInv(n: Counters, marks: seq<Mark>, ths: map<nat, Pc>) {
    && n.opt == |marks|
    && n.over == Count(marks, Returned, |marks|)
    && n.head == Count(marks, Taken, |marks|)
    && (forall p :: 0 <= p < |marks| ==> Fits(n, marks, p))
    && (forall p :: 0 <= p < |marks| ==> Owned(ths, marks, p))
    && (forall t :: t in ths && ths[t].Claiming? ==> ClaimOk(n, marks, t, ths[t].c))
  }

  // ---- counting -------------------------------------------------------------------------

  /** What the marks a..b add to a count over the first k. */
  function Overlap(a: nat, b: nat, k: nat): nat {
    if k <= a || b <= a then 0 else Min(b, k) - a
  }

  lemma {:induction false} CountFated(marks: seq<Mark>, a: nat, b: nat, f: Fate, g: Fate, k: nat)
    requires b <= |marks| && k <= |marks| && forall p :: a <= p < b ==> marks[p].f != g
    ensures Count(Fated(marks, a, b, f), g, k) == Count(marks, g, k) + (if g == f then Overlap(a, b, k) else 0)
    decreases k
  {
    if k > 0 {
      CountFated(marks, a, b, f, g, k - 1);
      assert Fated(marks, a, b, f)[k - 1].f == if a <= k - 1 < b then f else marks[k - 1].f;
    }
  }

  lemma {:induction false} CountAppend(marks: seq<Mark>, more: seq<Mark>, f: Fate, k: nat)
    requires k <= |marks|
    ensures Count(marks + more, f, k) == Count(marks, f, k)
  {
    if k > 0 { CountAppend(marks, more, f, k - 1); }
  }

  lemma {:induction false} CountNew(marks: seq<Mark>, t: nat, w: nat, f: Fate, k: nat)
    requires k <= w && f != Pending
    ensures Count(marks + seq(w, _ => Mark(t, Pending)), f, |marks| + k) == Count(marks, f, |marks|)
  {
    if k > 0 { CountNew(marks, t, w, f, k - 1); } else { CountAppend(marks, seq(w, _ => Mark(t, Pending)), f, |marks|); }
  }

  lemma {:induction false} CountMono(marks: seq<Mark>, f: Fate, j: nat, k: nat)
    requires j <= k <= |marks|
    ensures Count(marks, f, j) <= Count(marks, f, k) <= Count(marks, f, j) + k - j
  {
    if j < k { CountMono(marks, f, j, k - 1); }
  }

  lemma {:induction false} CountAll(marks: seq<Mark>, k: nat)
    requires k <= |marks|
    ensures Count(marks, Pending, k) + Count(marks, Won, k) + Count(marks, Lost, k)
          + Count(marks, Taken, k) + Count(marks, Returned, k) == k
  {
    if k > 0 { CountAll(marks, k - 1); }
  }

  /** No more counts are decided for elements than elements are published. */
  lemma {:induction false} WonFits(n: Counters, marks: seq<Mark>, k: nat)
    requires k <= |marks| && forall p :: 0 <= p < |marks| ==> Fits(n, marks, p)
    ensures Count(marks, Won, k) + Count(marks, Taken, k) <= n.tail
  {
    if k > 0 {
      WonFits(n, marks, k - 1);
      assert Fits(n, marks, k - 1);
      CountAll(marks, k);
    }
  }

  lemma {:induction false} CountRange(marks: seq<Mark>, a: nat, b: nat, m: Mark)
    requires a <= b && Range(marks, a, b, m)
    ensures Count(marks, m.f, b) == Count(marks, m.f, a) + b - a
    decreases b
  {
    if a < b { CountRange(marks, a, b - 1, m); }
  }

  // ---- the steps --------------------------------------------------------------------------

  /** The comparison in this claim is of numbers near enough for circular_less_than. */
  predicate ClaimNear(n: Counters, c: Claim) { c.Again? ==> Near(c.m - c.o, n.tail) }

  /** What another thread's claim relies on. */
  lemma OtherClaim(n: Counters, n': Counters, marks: seq<Mark>, marks': seq<Mark>, t: nat, u: nat, c: Claim)
    requires u != t && ClaimOk(n, marks, u, c) && n.over <= n'.over && |marks| <= |marks'|
    requires forall p :: 0 <= p < |marks| && marks[p].t != t ==> marks'[p] == marks[p]
    requires forall k :: 0 <= k <= |marks| ==> Count(marks, Returned, k) <= Count(marks', Returned, k)
    ensures ClaimOk(n', marks', u, c)
  {}

  /** Marks a..b of thread t change fate; tail and opt stay. */
  lemma FatedKeeps(n: Counters, n': Counters, marks: seq<Mark>, marks': seq<Mark>, ths: map<nat, Pc>, ths': map<nat, Pc>,
                   t: nat, pc: Pc, a: nat, b: nat, from: Fate, f: Fate)
    requires ClaimInv(n, marks, ths) && t in ths && ths' == ths[t := pc]
    requires Range(marks, a, b, Mark(t, from)) && from != Returned && from != Taken
    requires marks' == Fated(marks, a, b, f) && (f == Won || f == Taken ==> from == Won)
    requires n' == n.(over := n.over + (if f == Returned then Overlap(a, b, |marks|) else 0),
                      head := n.head + (if f == Taken then Overlap(a, b, |marks|) else 0))
    requires forall p :: 0 <= p < |marks'| ==> Owned(ths', marks', p)
    requires pc.Claiming? ==> ClaimOk(n', marks', t, pc.c)
    ensures ClaimInv(n', marks', ths')
  {
    CountFated(marks, a, b, f, Returned, |marks|);
    CountFated(marks, a, b, f, Taken, |marks|);
    forall k | 0 <= k <= |marks| ensures Count(marks, Returned, k) <= Count(marks', Returned, k) {
      CountFated(marks, a, b, f, Returned, k);
    }
    forall p | 0 <= p < |marks'| ensures Fits(n', marks', p) {
      assert Fits(n, marks, p);
      assert Count(marks, Returned, p) <= Count(marks', Returned, p);
    }
    forall u | u in ths' && ths'[u].Claiming? ensures ClaimOk(n', marks', u, ths'[u].c) {
      if u != t { OtherClaim(n, n', marks, marks', t, u, ths[u].c); }
    }
  }

  lemma AddOptKeeps(n: Counters, marks: seq<Mark>, ths: map<nat, Pc>, t: nat, w: nat, o: nat)
    requires ClaimInv(n, marks, ths) && t in ths && ths[t] == Claiming(AddOpt(w, o))
    ensures ClaimInv(n.(opt := n.opt + w), marks + seq(w, _ => Mark(t, Pending)), ths[t := Claiming(Again(w, n.opt, o))])
  {
    var more := seq(w, _ => Mark(t, Pending));
    var n', marks', ths' := n.(opt := n.opt + w), marks + more, ths[t := Claiming(Again(w, n.opt, o))];
    CountNew(marks, t, w, Returned, w);
    CountNew(marks, t, w, Taken, w);
    forall k | 0 <= k <= |marks| ensures Count(marks', Returned, k) == Count(marks, Returned, k) {
      CountAppend(marks, more, Returned, k);
    }
    forall p | 0 <= p < |marks'| ensures Fits(n', marks', p) && Owned(ths', marks', p) {
      if p < |marks| { assert Fits(n, marks, p) && Owned(ths, marks, p); }
    }
    forall u | u in ths' && ths'[u].Claiming? ensures ClaimOk(n', marks', u, ths'[u].c) {
      if u != t { OtherClaim(n, n', marks, marks', t, u, ths[u].c); }
    }
  }

  /** Deciding the pending marks m..m+w of thread t: the first k are for elements, the rest are
      to be given back. */
  function Decided(marks: seq<Mark>, m: nat, k: nat, w: nat): seq<Mark>
    requires k <= w
  {
    Fated(Fated(marks, m, m + k, Won), m + k, m + w, Lost)
  }

  lemma DecidedCount(marks: seq<Mark>, t: nat, m: nat, k: nat, w: nat, g: Fate, j: nat)
    requires k <= w && Range(marks, m, m + w, Mark(t, Pending)) && j <= |marks|
    requires g == Returned || g == Taken
    ensures Count(Decided(marks, m, k, w), g, j) == Count(marks, g, j)
  {
    CountFated(marks, m, m + k, Won, g, j);
    CountFated(Fated(marks, m, m + k, Won), m + k, m + w, Lost, g, j);
  }

  lemma DecidedOwned(marks: seq<Mark>, marks': seq<Mark>, ths: map<nat, Pc>, ths': map<nat, Pc>, t: nat, m: nat, k: nat, w: nat, o: nat)
    requires k <= w && Range(marks, m, m + w, Mark(t, Pending)) && marks' == Decided(marks, m, k, w)
    requires t in ths && ths[t] == Claiming(Again(w, m, o))
    requires ths' == ths[t := Claiming(if k < w then AddOver(w, m, k) else AddHead(m, k))]
    requires forall p :: 0 <= p < |marks| ==> Owned(ths, marks, p)
    ensures forall p :: 0 <= p < |marks'| ==> Owned(ths', marks', p)
    ensures ClaimOk(Counters(0, 0, 0, 0), marks', t, ths'[t].c)
    ensures forall p :: 0 <= p < |marks| && marks[p].t != t ==> marks'[p] == marks[p]
  {
    forall p | 0 <= p < |marks'| ensures Owned(ths', marks', p) {
      assert Owned(ths, marks, p);
    }
  }

  /** The decision moves neither counted fate. */
  lemma AgainKeeps(n: Counters, marks: seq<Mark>, marks': seq<Mark>, ths: map<nat, Pc>, ths': map<nat, Pc>,
                   t: nat, w: nat, m: nat, o: nat, k: nat)
    requires ClaimInv(n, marks, ths) && t in ths && ths[t] == Claiming(Again(w, m, o))
    requires k <= w && (k > 0 ==> m + k - 1 - o < n.tail)
    requires marks' == Decided(marks, m, k, w)
    requires ths' == ths[t := Claiming(if k < w then AddOver(w, m, k) else AddHead(m, k))]
    ensures ClaimInv(n, marks', ths')
  {
    assert ClaimOk(n, marks, t, ths[t].c);
    forall j | 0 <= j <= |marks| ensures Count(marks', Returned, j) == Count(marks, Returned, j) {
      DecidedCount(marks, t, m, k, w, Returned, j);
    }
    DecidedCount(marks, t, m, k, w, Taken, |marks|);
    DecidedOwned(marks, marks', ths, ths', t, m, k, w, o);
    DecidedFits(n, marks, marks', m, k, w, o);
    forall u | u in ths' && ths'[u].Claiming? ensures ClaimOk(n, marks', u, ths'[u].c) {
      if u != t { OtherClaim(n, n, marks, marks', t, u, ths[u].c); }
    }
  }

  lemma DecidedFits(n: Counters, marks: seq<Mark>, marks': seq<Mark>, m: nat, k: nat, w: nat, o: nat)
    requires k <= w && m + w <= |marks| && marks' == Decided(marks, m, k, w)
    requires o <= Count(marks, Returned, m) && (k > 0 ==> m + k - 1 - o < n.tail)
    requires forall p :: 0 <= p < |marks| ==> Fits(n, marks, p)
    requires forall j :: 0 <= j <= |marks| ==> Count(marks', Returned, j) == Count(marks, Returned, j)
    ensures forall p :: 0 <= p < |marks'| ==> Fits(n, marks', p)
  {
    forall p | 0 <= p < |marks'| ensures Fits(n, marks', p) {
      assert Fits(n, marks, p);
      if m <= p < m + k { CountMono(marks, Returned, m, p); }
    }
  }

  lemma AddOverKeeps(n: Counters, marks: seq<Mark>, ths: map<nat, Pc>, t: nat, w: nat, m: nat, k: nat)
    requires ClaimInv(n, marks, ths) && t in ths && ths[t] == Claiming(AddOver(w, m, k))
    ensures ClaimInv(n.(over := n.over + Sub(w, k)), Fated(marks, m + k, m + w, Returned),
                     ths[t := if k == 0 then Idle else Claiming(AddHead(m, k))])
  {
    assert ClaimOk(n, marks, t, ths[t].c);
    var pc := if k == 0 then Idle else Claiming(AddHead(m, k));
    var ths', marks' := ths[t := pc], Fated(marks, m + k, m + w, Returned);
    forall p | 0 <= p < |marks'| ensures Owned(ths', marks', p) {
      assert Owned(ths, marks, p);
    }
    FatedKeeps(n, n.(over := n.over + Sub(w, k)), marks, marks', ths, ths', t, pc, m + k, m + w, Lost, Returned);
  }

  lemma AddHeadKeeps(n: Counters, marks: seq<Mark>, ths: map<nat, Pc>, t: nat, m: nat, k: nat, pc: Pc)
    requires ClaimInv(n, marks, ths) && t in ths && ths[t] == Claiming(AddHead(m, k)) && !pc.Claiming?
    ensures ClaimInv(n.(head := n.head + k), Fated(marks, m, m + k, Taken), ths[t := pc])
    ensures n.head + k <= n.tail
  {
    assert ClaimOk(n, marks, t, ths[t].c);
    var ths', marks' := ths[t := pc], Fated(marks, m, m + k, Taken);
    forall p | 0 <= p < |marks'| ensures Owned(ths', marks', p) {
      assert Owned(ths, marks, p);
    }
    FatedKeeps(n, n.(head := n.head + k), marks, marks', ths, ths', t, pc, m, m + k, Won, Taken);
    WonFits(n, marks, |marks|);
    CountRange(marks, m, m + k, Mark(t, Won));
    CountMono(marks, Won, m + k, |marks|);
  }

  /** A step that moves no counter and gives out no mark. */
  lemma PlainKeeps(n: Counters, marks: seq<Mark>, ths: map<nat, Pc>, t: nat, pc: Pc)
    requires ClaimInv(n, marks, ths) && t in ths
    requires forall p, f :: !Covers(ths[t], p, f)
    requires pc.Claiming? ==> ClaimOk(n, marks, t, pc.c)
    ensures ClaimInv(n, marks, ths[t := pc])
  {
    var ths' := ths[t := pc];
    forall p | 0 <= p < |marks| ensures Owned(ths', marks, p) {
      assert Owned(ths, marks, p);
    }
  }

  lemma TailKeeps(n: Counters, marks: seq<Mark>, ths: map<nat, Pc>)
    requires ClaimInv(n, marks, ths)
    ensures ClaimInv(n.(tail := n.tail + 1), marks, ths)
  {
    var n' := n.(tail := n.tail + 1);
    forall p | 0 <= p < |marks| ensures Fits(n', marks, p) {
      assert Fits(n, marks, p);
    }
    forall t | t in ths && ths[t].Claiming? ensures ClaimOk(n', marks, t, ths[t].c) {
      assert ClaimOk(n, marks, t, ths[t].c);
    }
  }

  /** headIndex never passes tailIndex. */
  lemma HeadBelowTail(n: Counters, marks: seq<Mark>, ths: map<nat, Pc>)
    requires ClaimInv(n, marks, ths)
    ensures n.head <= n.tail
  {
    WonFits(n, marks, |marks|);
  }

  lemma ClaimStepKeeps(s: State, t: nat)
    requires ClaimInv(s.n, s.x.marks, s.ths) && t in s.ths && s.ths[t].Claiming? && ClaimNear(s.n, s.ths[t].c)
    ensures var s' := ClaimStep(s, t, s.ths[t].c); ClaimInv(s'.n, s'.x.marks, s'.ths)
    ensures s.ths[t].c.AddHead? ==> s.n.head + s.ths[t].c.k <= s.n.tail
  {
    var c := s.ths[t].c;
    assert ClaimOk(s.n, s.x.marks, t, c);
    match c {
      case AddOpt(w, o) => AddOptKeeps(s.n, s.x.marks, s.ths, t, w, o);
      case Again(w, m, o) => DecideKeeps(s, t, w, m, o);
      case AddOver(w, m, k) => AddOverKeeps(s.n, s.x.marks, s.ths, t, w, m, k);
      case AddHead(m, k) =>
        AddHeadKeeps(s.n, s.x.marks, s.ths, t, m, k, if k == 0 then Idle else Working(LoadIndex(s.n.head, s.n.head + k)));
      case _ => LoadKeeps(s, t, c);
    }
  }

  lemma LoadKeeps(s: State, t: nat, c: Claim)
    requires ClaimInv(s.n, s.x.marks, s.ths) && t in s.ths && s.ths[t] == Claiming(c)
    requires c.LoadTail? || c.LoadOver? || c.LoadOpt?
    ensures var s' := ClaimStep(s, t, c); ClaimInv(s'.n, s'.x.marks, s'.ths)
  {
    assert ClaimOk(s.n, s.x.marks, t, c);
    PlainKeeps(s.n, s.x.marks, s.ths, t, ClaimStep(s, t, c).ths[t]);
  }

  lemma DecideKeeps(s: State, t: nat, w: nat, m: nat, o: nat)
    requires ClaimInv(s.n, s.x.marks, s.ths) && t in s.ths && s.ths[t] == Claiming(Again(w, m, o)) && Near(m - o, s.n.tail)
    ensures var s' := ClaimStep(s, t, Again(w, m, o)); ClaimInv(s'.n, s'.x.marks, s'.ths)
  {
    var k := if CircularLess(m - o, s.n.tail) then Min(w, Left(s.n.tail, m, o)) else 0;
    NearLeft(s.n.tail, m, o);
    var s' := ClaimStep(s, t, Again(w, m, o));
    AgainKeeps(s.n, s.x.marks, s'.x.marks, s.ths, s'.ths, t, w, m, o, k);
  }

  lemma NearLeft(tail: nat, m: nat, o: nat)
    requires Near(m - o, tail)
    ensures CircularLess(m - o, tail) <==> m - o < tail
    ensures CircularLess(m - o, tail) ==> Left(tail, m, o) == tail - (m - o)
  {
    CircularLessExact(m - o, tail);
  }
}
