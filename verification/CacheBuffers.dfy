/** How many buffers a thread needs: with twice as many as there are main slots it never pops an empty
    stack, and with one less some run has it do so. */
module CacheBuffers {
  import opened Options
  import opened CacheState
  import opened CacheSteps
  import opened CacheInv
  import opened CacheTheorems
  import opened CacheScript
  import opened CacheReach
  import CacheLines

  /** Every set has tags without end. */
  ghost predicate Spread(c: Config) { forall h: nat, n: nat {:trigger TagFor(c, h, n)} :: h < c.depth ==> TagFor(c, h, n) }

  ghost predicate TagFor(c: Config, h: nat, n: nat) { exists t: Tag :: t >= n && c.home(t) == h }

  /** Thread u is at one of the two places that pop a buffer, and has none. */
  predicate EmptyPop(s: State, u: nat) {
    u in s.apps && s.apps[u].pc.New? && (s.apps[u].pc.nw.Fill? || s.apps[u].pc.nw.Refill?) && s.apps[u].pool.stack == []
  }

  /** In no run does a thread that starts with at least q buffers pop an empty stack. */
  ghost predicate Enough(c: Config, q: nat)
    requires c.Valid()
  {
    forall ss: seq<State>, es: seq<Event>, i: nat, u: nat {:trigger Run(c, ss, es), EmptyPop(ss[i], u)} ::
      Run(c, ss, es) && i <= |es| && u in ss[0].apps && |ss[0].apps[u].pool.stack| >= q ==> !EmptyPop(ss[i], u)
  }

  // ---- the start -----------------------------------------------------------------------------------------

  const NEVER: Eviction := Eviction(false, None, false, None, false, None)

  /** Thread 0 has n buffers, thread 1 none. */
  function Two(n: nat): State {
    State(map[], map[], map[0 := App(Idle, Read, 0, false, NEVER, Pool(seq(n, k => k), {}, {}, n)),
                            1 := App(Idle, Read, 0, false, NEVER, Pool([], {}, {}, 0))],
          map[], map b: nat | b < n :: InStack(0, b), {}, {})
  }

  lemma TwoStarts(n: nat)
    ensures Init(Two(n))
  {
    var s := Two(n);
    var stacks: seq<seq<Buf>> := [seq(n, k => k), []];
    forall u, k | 0 <= u < |stacks| && 0 <= k < |stacks[u]| ensures CacheLines.Put(stacks, s.loc, u, k) {}
    CacheLines.StartsRuns(stacks, map[], s.loc, {});
    var s0 := CacheLines.Started(stacks, map[], s.loc, {});
    assert s0.apps == s.apps && s0.agents == s.agents;
    assert s0 == s;
  }

  // ---- between accesses ------------------------------------------------------------------------------------

  /** Both threads are idle; main lines are free or SHARED, and thread 0 has filled the SHARED ones; the
      shadow lines that it is not evicting are free; and no line holds a tag from `top` on. */
  ghost predicate Between(c: Config, n: nat, s: State, top: nat)
    requires c.Valid()
  {
    && Reached(c, Two(n), s, false) && s.apps.Keys == {0, 1} && (forall h :: LockOf(s.locks, h) == OPEN)
    && s.apps[0].pc == Idle && !s.apps[0].evict.startNext && s.apps[1].pc == Idle && s.apps[1].evict == NEVER
    && (forall p :: LineAt(c, s.apps[0].pool, p, At(s.lines, p), top))
  }

  /** A main line that is free or SHARED, and not locked. */
  predicate Plain(l: Line) { l.lock == FREE && !l.flag && (l.st == Preserved || l.st == Shared) }

  predicate LineAt(c: Config, pool: Pool, p: Slot, l: Line, top: nat) {
    && (l.Used() ==> l.tag < top)
    && (if p.shadow then p !in pool.pend ==> l.st == Preserved && l.lock == FREE
        else Plain(l) && (c.ValidSlot(p) ==> (l.Used() <==> p in pool.fills)))
  }

  /** The number of main slots. */
  function Slots(c: Config): nat { c.depth * c.width }

  /** A thread that started with n buffers has what it has not put into lines. */
  ghost predicate Stocked(c: Config, pool: Pool, n: int) {
    && pool.fills <= Grid(c.depth, c.width, false) && pool.pend <= Grid(c.depth, c.width, true)
    && |pool.stack| + |pool.fills| + |pool.pend| == n
  }

  lemma Counted(c: Config, n: nat, s: State)
    requires c.Valid() && Reached(c, Two(n), s, false) && 0 in s.apps && s.apps[0].pc == Idle
    ensures Stocked(c, s.apps[0].pool, n)
    ensures forall p :: p in s.apps[0].pool.pend ==> At(s.lines, p).owner == Some(0)
  {
    ReachedInv(c, Two(n), s);
    assert AppOk(c, s.lines, s.locks, 0, s.apps[0]);
    FromSets(c, s.lines, s.apps[0], n);
  }

  lemma FromSets(c: Config, lines: Lines, a: App, n: nat)
    requires SetsOk(c, lines, 0, a) && a.pc == Idle && a.pool.quota == n
    ensures Stocked(c, a.pool, n)
    ensures forall p :: p in a.pool.pend ==> At(lines, p).owner == Some(0)
  {
    forall p | p in a.pool.pend ensures At(lines, p).owner == Some(0) && p in Grid(c.depth, c.width, true) { assert Mine(lines, 0, p); }
  }

  lemma Unheld(c: Config, n: nat, s: State, top: nat, t: Tag)
    requires c.Valid() && Between(c, n, s, top) && t >= top
    ensures NoTag(s.lines, c.home(t), t, c.width) && CalmSet(c, s.lines, c.home(t))
  {
    forall j | 0 <= j < c.width
      ensures !At(s.lines, Slot(false, c.home(t), j)).Holds(t) && !At(s.lines, Slot(true, c.home(t), j)).Holds(t)
      ensures Calm(At(s.lines, Slot(false, c.home(t), j)))
    {
      var p, q := Slot(false, c.home(t), j), Slot(true, c.home(t), j);
      assert LineAt(c, s.apps[0].pool, p, At(s.lines, p), top) && LineAt(c, s.apps[0].pool, q, At(s.lines, q), top);
    }
  }

  // ---- filling the main lines -------------------------------------------------------------------------------

  /** Thread 0 fills one more main line. */
  lemma FillOne(c: Config, n: nat, s: State, top: nat, p: Slot, t: Tag) returns (s': State)
    requires c.Valid() && Between(c, n, s, top) && t >= top && c.home(t) == p.set_
    requires !p.shadow && c.ValidSlot(p) && p !in s.apps[0].pool.fills && |s.apps[0].pool.stack| > 0 && !s.apps[0].evict.wait
    ensures Between(c, n, s', t + 1) && !s'.apps[0].evict.wait
    ensures |s'.apps[0].pool.fills| == |s.apps[0].pool.fills| + 1 && s'.apps[0].pool.pend == s.apps[0].pool.pend
  {
    var P := Reaching(c, Two(n), false);
    ReachingCloses(c, Two(n), false, 0);
    Unheld(c, n, s, top, t);
    assert LineAt(c, s.apps[0].pool, p, At(s.lines, p), top);
    assert Free(c, s.lines, c.home(t), p.way);
    var w;
    s', w := FillAccess(c, P, s, 0, s.apps[0], Read, t);
    var q := Slot(false, c.home(t), w);
    assert LineAt(c, s.apps[0].pool, q, At(s.lines, q), top);
    forall r ensures LineAt(c, s'.apps[0].pool, r, At(s'.lines, r), t + 1) {
      assert LineAt(c, s.apps[0].pool, r, At(s.lines, r), top);
    }
  }

  /** A thread that has not filled all main lines has a buffer and a main line to fill. */
  lemma LineLeft(c: Config, pool: Pool) returns (p: Slot)
    requires Stocked(c, pool, 2 * Slots(c) - 1) && pool.pend == {} && !(Grid(c.depth, c.width, false) <= pool.fills)
    ensures |pool.fills| < Slots(c) && |pool.stack| > 0 && !p.shadow && c.ValidSlot(p) && p !in pool.fills
  {
    p :| p in Grid(c.depth, c.width, false) && p !in pool.fills;
    Proper(pool.fills, Grid(c.depth, c.width, false), p);
  }

  /** Thread 0 fills all main lines. */
  lemma {:induction false} FillAll(c: Config, n: nat, s: State, top: nat) returns (s': State, top': nat)
    requires c.Valid() && Spread(c) && Slots(c) > 0 && n == 2 * Slots(c) - 1
    requires Between(c, n, s, top) && !s.apps[0].evict.wait && s.apps[0].pool.pend == {}
    ensures Between(c, n, s', top') && Grid(c.depth, c.width, false) <= s'.apps[0].pool.fills
    decreases Slots(c) - |s.apps[0].pool.fills|
  {
    s', top' := s, top;
    if !(Grid(c.depth, c.width, false) <= s.apps[0].pool.fills) {
      Counted(c, n, s);
      var p := LineLeft(c, s.apps[0].pool);
      var t := NewTag(c, p.set_, top);
      s' := FillOne(c, n, s, top, p, t);
      s', top' := FillAll(c, n, s', t + 1);
    }
  }

  lemma NewTag(c: Config, h: nat, top: nat) returns (t: Tag)
    requires Spread(c) && h < c.depth
    ensures t >= top && c.home(t) == h
  {
    assert TagFor(c, h, top);
    t :| t >= top && c.home(t) == h;
  }

  lemma Proper<T>(a: set<T>, b: set<T>, x: T)
    requires a <= b && x in b && x !in a
    ensures |a| < |b|
  {
    SubsetCount(a, b - {x});
  }

  // ---- moving lines out ---------------------------------------------------------------------------------------

  /** Up to where newLine pops a buffer for the main line, a read of a tag that no line holds, in a set whose main
      lines are all SHARED. */
  lemma MoveFor(c: Config, P: State -> bool, s: State, u: nat, a: App, t: Tag) returns (s': State, w: nat)
    requires c.Valid() && On(c, P, s, u, a, OPEN) && a.pc == Idle && !a.evict.startNext
    requires NoTag(s.lines, c.home(t), t, c.width) && CalmSet(c, s.lines, c.home(t))
    requires forall j :: 0 <= j < c.width ==> At(s.lines, Slot(false, c.home(t), j)).st == Shared
    requires exists j :: 0 <= j < c.width && Movable(c, s.lines, c.home(t), j)
    ensures w < c.width && Movable(c, s.lines, c.home(t), w)
    ensures var p := Slot(true, c.home(t), w);
      && Writes(s, s', u, p, CopyOf(At(s.lines, p), At(s.lines, Slot(false, c.home(t), w)), u))
      && On(c, P, s', u, Moving(a, Read, t, p), WrittenBy(u).(moving := Some(w)))
  {
    var av, ev;
    s', av, ev := Search(c, P, s, u, a, Read, t);
    w := ev.value;
    s' := MoveOut(c, P, s', u, Searched(c, a, Read, t, av, ev), av, w);
  }

  /** Thread 0 moves a line of p's set out, up to where it pops a buffer for the main line. */
  lemma MoveOne(c: Config, n: nat, s: State, top: nat, p: Slot, t: Tag) returns (s': State, w: nat)
    requires c.Valid() && Between(c, n, s, top) && Grid(c.depth, c.width, false) <= s.apps[0].pool.fills
    requires t >= top && c.home(t) == p.set_ && p.shadow && c.ValidSlot(p) && p !in s.apps[0].pool.pend
    ensures w < c.width && Movable(c, s.lines, c.home(t), w)
    ensures var q := Slot(true, c.home(t), w);
      && Writes(s, s', 0, q, CopyOf(At(s.lines, q), At(s.lines, Slot(false, c.home(t), w)), 0))
      && On(c, Reaching(c, Two(n), false), s', 0, Moving(s.apps[0], Read, t, q), WrittenBy(0).(moving := Some(w)))
  {
    ReachingCloses(c, Two(n), false, 0);
    Unheld(c, n, s, top, t);
    forall j | 0 <= j < c.width ensures At(s.lines, Slot(false, c.home(t), j)).st == Shared {
      var q := Slot(false, c.home(t), j);
      assert q in Grid(c.depth, c.width, false);
      assert LineAt(c, s.apps[0].pool, q, At(s.lines, q), top);
    }
    assert LineAt(c, s.apps[0].pool, p, At(s.lines, p), top);
    assert Movable(c, s.lines, c.home(t), p.way);
    s', w := MoveFor(c, Reaching(c, Two(n), false), s, 0, s.apps[0], t);
  }

  /** Thread 1 fetches the line before thread 0 does, so that thread 0 hits it and returns without waiting
      for the answer to its eviction. */
  lemma LeftPending(c: Config, n: nat, s: State, a: App, w: nat) returns (s': State)
    requires c.Valid() && On(c, Reaching(c, Two(n), false), s, 0, a, OPEN) && a.pc == Find(RLockSet) && a.access == Read
    requires s.apps.Keys == {0, 1} && s.apps[1].pc == Idle && s.apps[1].evict == NEVER && FoundAt(c, s.lines, a.t, w)
    requires var l := At(s.lines, Slot(false, c.home(a.t), w)); l.Is(false, Invalid) && l.lock == FREE
    ensures var m := Slot(false, c.home(a.t), w);
      && At(s'.lines, m) == At(s.lines, m).(st := Shared, owner := None)
      && (forall q :: q != m ==> At(s'.lines, q) == At(s.lines, q))
    ensures On(c, Reaching(c, Two(n), false), s', 0, a.(succ := true, pc := Idle), OPEN)
    ensures s'.apps.Keys == {0, 1} && s'.apps[1].pc == Idle && s'.apps[1].evict == NEVER
  {
    var P := Reaching(c, Two(n), false);
    ReachingCloses(c, Two(n), false, 1);
    s' := OtherFetches(c, P, s, 1, s.apps[1], a.t, w);
    s' := Hit(c, P, s', 0, a, w);
    s' := Return(c, P, s', 0, a.(succ := true, pc := Tail(true)));
  }

  /** An idle thread reads tag t, which an INVALID line holds. */
  lemma OtherFetches(c: Config, P: State -> bool, s: State, u: nat, a: App, t: Tag, w: nat) returns (s': State)
    requires c.Valid() && Closed(c, P, u) && P(s) && u in s.apps && s.apps[u] == a && (forall h :: LockOf(s.locks, h) == OPEN)
    requires a.pc == Idle && a.evict == NEVER && FoundAt(c, s.lines, t, w)
    requires var l := At(s.lines, Slot(false, c.home(t), w)); l.Is(false, Invalid) && l.lock == FREE
    ensures var m := Slot(false, c.home(t), w); Writes(s, s', u, m, At(s.lines, m).(st := Shared, owner := None))
    ensures On(c, P, s', u, Done(a, Read, t), OPEN)
  {
    var d := a.(access := Read, t := t, succ := false, pc := Find(RLockSet));
    s' := Begin(c, P, s, u, a, Read, t);
    s' := Miss(c, P, s', u, d, w);
    s' := Return(c, P, s', u, d.(succ := true, pc := Tail(false)));
  }

  /** The lines after a line of way w has been moved out for tag t, and has been fetched. */
  ghost predicate LinesMoved(c: Config, lines: Lines, lines': Lines, h: nat, t: Tag, w: nat) {
    var q, m := Slot(true, h, w), Slot(false, h, w);
    && At(lines', q).Used() && At(lines', q).tag == At(lines, m).tag && At(lines', m).Is(false, Shared) && At(lines', m).tag == t
    && At(lines', m).lock == At(lines, m).lock && (forall r :: r != q && r != m ==> At(lines', r) == At(lines, r))
  }

  lemma LinesBetween(c: Config, lines: Lines, lines': Lines, pool: Pool, pool': Pool, h: nat, t: Tag, w: nat, top: nat)
    requires LinesMoved(c, lines, lines', h, t, w) && t >= top && At(lines, Slot(false, h, w)).Used()
    requires pool'.fills == pool.fills && pool'.pend == pool.pend + {Slot(true, h, w)}
    requires forall r :: LineAt(c, pool, r, At(lines, r), top)
    ensures forall r :: LineAt(c, pool', r, At(lines', r), t + 1)
  {
    assert LineAt(c, pool, Slot(false, h, w), At(lines, Slot(false, h, w)), top);
    forall r ensures LineAt(c, pool', r, At(lines', r), t + 1) { assert LineAt(c, pool, r, At(lines, r), top); }
  }

  /** With a buffer to pop, thread 0 ends its access with one more eviction pending. */
  lemma MovedOne(c: Config, n: nat, s: State, top: nat, t: Tag, w: nat, s1: State) returns (s': State)
    requires c.Valid() && Between(c, n, s, top) && t >= top && w < c.width && |s.apps[0].pool.stack| > 0
    requires Movable(c, s.lines, c.home(t), w) && Slot(true, c.home(t), w) !in s.apps[0].pool.pend
    requires var q := Slot(true, c.home(t), w);
      && Writes(s, s1, 0, q, CopyOf(At(s.lines, q), At(s.lines, Slot(false, c.home(t), w)), 0))
      && On(c, Reaching(c, Two(n), false), s1, 0, Moving(s.apps[0], Read, t, q), WrittenBy(0).(moving := Some(w)))
    ensures Between(c, n, s', t + 1) && s'.apps[0].pool.fills == s.apps[0].pool.fills
    ensures s'.apps[0].pool.pend == s.apps[0].pool.pend + {Slot(true, c.home(t), w)}
  {
    s' := EndMove(c, n, s, top, t, w, s1);
    LinesBetween(c, s.lines, s'.lines, s.apps[0].pool, s'.apps[0].pool, c.home(t), t, w, top);
  }

  lemma EndMove(c: Config, n: nat, s: State, top: nat, t: Tag, w: nat, s1: State) returns (s': State)
    requires c.Valid() && Between(c, n, s, top) && t >= top && w < c.width && |s.apps[0].pool.stack| > 0
    requires Movable(c, s.lines, c.home(t), w) && Slot(true, c.home(t), w) !in s.apps[0].pool.pend
    requires var q := Slot(true, c.home(t), w);
      && Writes(s, s1, 0, q, CopyOf(At(s.lines, q), At(s.lines, Slot(false, c.home(t), w)), 0))
      && On(c, Reaching(c, Two(n), false), s1, 0, Moving(s.apps[0], Read, t, q), WrittenBy(0).(moving := Some(w)))
    ensures LinesMoved(c, s.lines, s'.lines, c.home(t), t, w)
    ensures var q := Slot(true, c.home(t), w);
      On(c, Reaching(c, Two(n), false), s', 0, Sending(Moving(s.apps[0], Read, t, q), q, false).(succ := true, pc := Idle), OPEN)
    ensures s'.apps.Keys == {0, 1} && s'.apps[1].pc == Idle && s'.apps[1].evict == NEVER
  {
    var q, m := Slot(true, c.home(t), w), Slot(false, c.home(t), w);
    var a := Moving(s.apps[0], Read, t, q);
    Unheld(c, n, s, top, t);
    assert LineAt(c, s.apps[0].pool, q, At(s.lines, q), top) && LineAt(c, s.apps[0].pool, m, At(s.lines, m), top);
    s' := FinishMove(c, Reaching(c, Two(n), false), s1, 0, a, w);
    s' := LeftPending(c, n, s', Sending(a, q, false), w);
  }

  /** With all main lines filled, the thread has a shadow slot left to move a line to. */
  lemma SlotLeft(c: Config, pool: Pool) returns (p: Slot)
    requires Stocked(c, pool, 2 * Slots(c) - 1) && Grid(c.depth, c.width, false) <= pool.fills
    ensures |pool.pend| < Slots(c) && p.shadow && c.ValidSlot(p) && p !in pool.pend
  {
    SubsetCount(Grid(c.depth, c.width, false), pool.fills);
    p := Pick(pool.pend, Grid(c.depth, c.width, true));
  }

  /** Thread 0 moves a line of p's set out, or has no buffer to do so. */
  lemma MoveSome(c: Config, n: nat, s: State, top: nat, p: Slot, t: Tag) returns (s': State)
    requires c.Valid() && Between(c, n, s, top) && Grid(c.depth, c.width, false) <= s.apps[0].pool.fills
    requires t >= top && c.home(t) == p.set_ && p.shadow && c.ValidSlot(p) && p !in s.apps[0].pool.pend
    ensures s.apps[0].pool.stack == [] ==> Reached(c, Two(n), s', false) && EmptyPop(s', 0)
    ensures s.apps[0].pool.stack != [] ==>
      Between(c, n, s', t + 1) && s'.apps[0].pool.fills == s.apps[0].pool.fills && |s'.apps[0].pool.pend| == |s.apps[0].pool.pend| + 1
  {
    var w;
    s', w := MoveOne(c, n, s, top, p, t);
    if s.apps[0].pool.stack != [] {
      NotPending(c, n, s, Slot(true, c.home(t), w));
      s' := MovedOne(c, n, s, top, t, w, s');
    }
  }

  /** With all main lines filled, thread 0 moves one more line out, or has no buffer to do so. */
  lemma MoveNext(c: Config, n: nat, s: State, top: nat) returns (s': State, top': nat)
    requires c.Valid() && Spread(c) && Slots(c) > 0 && n == 2 * Slots(c) - 1
    requires Between(c, n, s, top) && Grid(c.depth, c.width, false) <= s.apps[0].pool.fills
    ensures |s.apps[0].pool.pend| < Slots(c)
    ensures s.apps[0].pool.stack == [] ==> Reached(c, Two(n), s', false) && EmptyPop(s', 0)
    ensures s.apps[0].pool.stack != [] ==>
      Between(c, n, s', top') && s'.apps[0].pool.fills == s.apps[0].pool.fills && |s'.apps[0].pool.pend| == |s.apps[0].pool.pend| + 1
  {
    Counted(c, n, s);
    var p := SlotLeft(c, s.apps[0].pool);
    var t := NewTag(c, p.set_, top);
    s' := MoveSome(c, n, s, top, p, t);
    top' := t + 1;
  }

  /** A free shadow slot is not one that thread 0 is evicting. */
  lemma NotPending(c: Config, n: nat, s: State, p: Slot)
    requires c.Valid() && Reached(c, Two(n), s, false) && 0 in s.apps && s.apps[0].pc == Idle && p.shadow && At(s.lines, p).st == Preserved
    ensures p !in s.apps[0].pool.pend
  {
    Counted(c, n, s);
    ReachedInv(c, Two(n), s);
    assert LineOk(c, p, At(s.lines, p));
  }

  /** With all main lines filled, thread 0 goes on moving lines out until it has no buffer left. */
  lemma {:induction false} MoveAll(c: Config, n: nat, s: State, top: nat) returns (s': State)
    requires c.Valid() && Spread(c) && Slots(c) > 0 && n == 2 * Slots(c) - 1
    requires Between(c, n, s, top) && Grid(c.depth, c.width, false) <= s.apps[0].pool.fills
    ensures Reached(c, Two(n), s', false) && EmptyPop(s', 0)
    decreases Slots(c) - |s.apps[0].pool.pend|
  {
    var top';
    s', top' := MoveNext(c, n, s, top);
    if s.apps[0].pool.stack != [] { s' := MoveAll(c, n, s', top'); }
  }

  lemma Pick<T>(a: set<T>, b: set<T>) returns (x: T)
    requires |a| < |b|
    ensures x in b && x !in a
  {
    if b <= a { SubsetCount(b, a); }
    x :| x in b && x !in a;
  }

  // ---- the least number ---------------------------------------------------------------------------------------

  lemma OneLess(c: Config) returns (ss: seq<State>, es: seq<Event>)
    requires c.Valid() && Spread(c) && Slots(c) > 0
    ensures Run(c, ss, es) && 0 in ss[0].apps && |ss[0].apps[0].pool.stack| == 2 * Slots(c) - 1 && EmptyPop(ss[|es|], 0)
  {
    var n := 2 * Slots(c) - 1;
    TwoStarts(n);
    Starts(c, Two(n));
    var s, top := FillAll(c, n, Two(n), 0);
    s := MoveAll(c, n, s, top);
    ss, es :| EndsIn(c, ss, es, s) && ss[0] == Two(n);
  }

  /** Twice as many buffers as there are main slots is the least number with which a thread never pops an
      empty stack, whatever the sizes of the cache. */
  lemma LeastBuffers(c: Config, q: nat)
    requires c.Valid() && Spread(c)
    ensures Enough(c, q) <==> q >= 2 * Slots(c)
  {
    if q >= 2 * Slots(c) {
      forall ss: seq<State>, es: seq<Event>, i: nat, u: nat |
          Run(c, ss, es) && i <= |es| && u in ss[0].apps && |ss[0].apps[u].pool.stack| >= q
        ensures !EmptyPop(ss[i], u)
      {
        NeverEmptyPop(c, ss, es, i, u);
      }
    } else {
      assert Slots(c) > 0;
      var ss, es := OneLess(c);
      assert EmptyPop(ss[|es|], 0);
    }
  }
}
