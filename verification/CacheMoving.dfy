/** One line for every tag and one place for every buffer, but for the line that newLine is moving:
    exactly when the cache holds a tag or a buffer twice. */
module CacheMoving {
  import opened Options
  import opened CacheState
  import opened CacheSteps
  import opened CacheInv
  import opened CacheProof
  import opened CacheAppKeeps
  import opened CacheAgentProof
  import opened CacheTheorems

  // ---- who holds a set's write lock ------------------------------------------------------------

  /** The thread is inside newLine for set h. */
  predicate Within(c: Config, a: App, h: nat)
    requires c.Valid()
  {
    HoldsWrite(a.pc) && c.home(a.t) == h
  }

  predicate WriterAt(c: Config, apps: map<nat, App>, h: nat, k: SetLock)
    requires c.Valid()
  {
    k.rw.writer.Some? ==>
      k.rw.writer.value.AppId? && k.rw.writer.value.n in apps && Within(c, apps[k.rw.writer.value.n], h)
  }

  ghost predicate WritersOk(c: Config, s: State)
    requires c.Valid()
  {
    forall h {:trigger LockOf(s.locks, h)} :: WriterAt(c, s.apps, h, LockOf(s.locks, h))
  }

  /** A thread that takes or keeps the write lock of set h is inside newLine afterwards. */
  lemma OwnWriter(c: Config, s: State, u: nat, a: App, inp: Input, a': App, e: Effect, h: nat)
    requires c.Valid() && AppMove(c, s, u, a, inp) == Moves(a', e)
    requires LockOf(s.locks, h).rw.writer == Some(AppId(u)) ==> Within(c, a, h)
    requires LockOf(Apply(s, e).locks, h).rw.writer == Some(AppId(u))
    ensures Within(c, a', h)
  {
    if a.pc.New? { NewWriter(c, s, u, a, a', e, h); } else { OtherWriter(c, s, u, a, inp, a', e, h); }
  }

  lemma NewWriter(c: Config, s: State, u: nat, a: App, a': App, e: Effect, h: nat)
    requires c.Valid() && a.pc.New? && NewStep(c, s, u, a) == Moves(a', e)
    requires LockOf(s.locks, h).rw.writer == Some(AppId(u)) ==> Within(c, a, h)
    requires LockOf(Apply(s, e).locks, h).rw.writer == Some(AppId(u))
    ensures Within(c, a', h)
  {
  }

  lemma OtherWriter(c: Config, s: State, u: nat, a: App, inp: Input, a': App, e: Effect, h: nat)
    requires c.Valid() && !a.pc.New? && AppMove(c, s, u, a, inp) == Moves(a', e)
    ensures LockOf(Apply(s, e).locks, h).rw.writer == LockOf(s.locks, h).rw.writer
    ensures !a.pc.Crash?
  {
    match a.pc
    case Find(_) => FindWriter(c, s, u, a, a', e, h);
    case Own(_, _, _) => OwnedWriter(c, s, u, a, inp, a', e, h);
    case Evict(_, _) => EvictWriter(c, s, u, a, a', e, h);
    case Touch(_, _, _) => TouchWriter(c, s, u, a, a', e, h);
    case Wait(_) => WaitWriter(c, s, u, a, inp, a', e, h);
    case _ =>
  }

  lemma FindWriter(c: Config, s: State, u: nat, a: App, a': App, e: Effect, h: nat)
    requires c.Valid() && a.pc.Find? && FindStep(c, s, u, a) == Moves(a', e)
    ensures LockOf(Apply(s, e).locks, h).rw.writer == LockOf(s.locks, h).rw.writer
  {}

  lemma OwnedWriter(c: Config, s: State, u: nat, a: App, inp: Input, a': App, e: Effect, h: nat)
    requires c.Valid() && a.pc.Own? && OwnStep(c, s, u, a, inp) == Moves(a', e)
    ensures LockOf(Apply(s, e).locks, h).rw.writer == LockOf(s.locks, h).rw.writer
  {}

  lemma EvictWriter(c: Config, s: State, u: nat, a: App, a': App, e: Effect, h: nat)
    requires a.pc.Evict? && EvictStep(s, u, a) == Moves(a', e)
    ensures LockOf(Apply(s, e).locks, h).rw.writer == LockOf(s.locks, h).rw.writer
  {}

  lemma TouchWriter(c: Config, s: State, u: nat, a: App, a': App, e: Effect, h: nat)
    requires a.pc.Touch? && TouchStep(s, u, a) == Moves(a', e)
    ensures LockOf(Apply(s, e).locks, h).rw.writer == LockOf(s.locks, h).rw.writer
  {}

  lemma WaitWriter(c: Config, s: State, u: nat, a: App, inp: Input, a': App, e: Effect, h: nat)
    requires a.pc.Wait? && WaitStep(s, u, a, inp) == Moves(a', e)
    ensures LockOf(Apply(s, e).locks, h).rw.writer == LockOf(s.locks, h).rw.writer
  {}

  /** A step of thread u changes no set lock that another thread holds for writing, nor gives it one. */
  lemma OthersLocks(c: Config, s: State, u: nat, inp: Input, s': State, h: nat)
    requires c.Valid() && Inv(c, s) && AppNext(c, s, u, inp, s')
    ensures var k, k' := LockOf(s.locks, h), LockOf(s'.locks, h);
      k'.rw.writer.Some? && k'.rw.writer != Some(AppId(u)) ==> k' == k
  {
    AppKept(c, s, u, inp, s');
  }

  lemma AppWriterAt(c: Config, s: State, u: nat, inp: Input, s': State, h: nat)
    requires c.Valid() && AppNext(c, s, u, inp, s') && WriterAt(c, s.apps, h, LockOf(s.locks, h))
    requires var k, k' := LockOf(s.locks, h), LockOf(s'.locks, h);
      k'.rw.writer.Some? && k'.rw.writer != Some(AppId(u)) ==> k' == k
    ensures WriterAt(c, s'.apps, h, LockOf(s'.locks, h))
  {
    var r := AppMove(c, s, u, s.apps[u], inp);
    assert LockOf(s'.locks, h) == LockOf(Apply(s, r.e).locks, h);
    if LockOf(s'.locks, h).rw.writer == Some(AppId(u)) { OwnWriter(c, s, u, s.apps[u], inp, r.a, r.e, h); }
  }

  lemma AppWriters(c: Config, s: State, u: nat, inp: Input, s': State)
    requires c.Valid() && Inv(c, s) && WritersOk(c, s) && AppNext(c, s, u, inp, s')
    ensures WritersOk(c, s')
  {
    forall h ensures WriterAt(c, s'.apps, h, LockOf(s'.locks, h)) {
      assert WriterAt(c, s.apps, h, LockOf(s.locks, h));
      OthersLocks(c, s, u, inp, s', h);
      AppWriterAt(c, s, u, inp, s', h);
    }
  }

  lemma AgentWriter(c: Config, s: State, v: nat, g: Agent, inp: Input, g': Agent, e: Effect, h: nat)
    requires c.Valid() && AgentMove(c, s, v, g, inp) == AgentMoves(g', e)
    ensures LockOf(Apply(s, e).locks, h).rw.writer == LockOf(s.locks, h).rw.writer
  {
  }

  lemma AgentWriters(c: Config, s: State, v: nat, inp: Input, s': State)
    requires c.Valid() && WritersOk(c, s) && AgentNext(c, s, v, inp, s')
    ensures WritersOk(c, s')
  {
    var AgentMoves(g', e) := AgentMove(c, s, v, s.agents[v], inp);
    forall h ensures WriterAt(c, s'.apps, h, LockOf(s'.locks, h)) {
      assert WriterAt(c, s.apps, h, LockOf(s.locks, h));
      AgentWriter(c, s, v, s.agents[v], inp, g', e, h);
    }
  }

  lemma {:induction false} RunWriters(c: Config, ss: seq<State>, es: seq<Event>, i: nat)
    requires c.Valid() && Run(c, ss, es) && i <= |es|
    ensures WritersOk(c, ss[i])
  {
    if i > 0 {
      RunWriters(c, ss, es, i - 1);
      RunInv(c, ss, es, i - 1);
      assert Step(c, ss[i - 1], es[i - 1], ss[i - 1 + 1]);
      match es[i - 1]
      case ByApp(u, inp) => AppWriters(c, ss[i - 1], u, inp, ss[i]);
      case ByAgent(v, inp) => AgentWriters(c, ss[i - 1], v, inp, ss[i]);
    }
  }

  // ---- the line that is being moved ----------------------------------------------------------------

  /** Thread u has copied main line p to shadow line q and not yet rewritten p. */
  predicate Moving(c: Config, s: State, u: nat, p: Slot, q: Slot)
    requires c.Valid()
  {
    && u in s.apps && s.apps[u].pc.New? && s.apps[u].pc.nw.Refill?
    && p == Slot(false, c.home(s.apps[u].t), s.apps[u].pc.nw.w) && q == Slot(true, p.set_, p.way)
  }

  /** The two lines of a move have one tag and one buffer. */
  lemma MovingSame(c: Config, s: State, u: nat, p: Slot, q: Slot)
    requires c.Valid() && Inv(c, s) && Moving(c, s, u, p, q)
    ensures At(s.lines, p).Used() && At(s.lines, q).Used()
    ensures At(s.lines, p).tag == At(s.lines, q).tag && At(s.lines, p).data == At(s.lines, q).data
  {
    assert AppOk(c, s.lines, s.locks, u, s.apps[u]);
  }

  /** A line in use has a live line with its tag and buffer: itself, or the copy when it is moving. */
  lemma Base(c: Config, s: State, p: Slot) returns (b: Slot)
    requires c.Valid() && Inv(c, s) && WritersOk(c, s) && At(s.lines, p).Used()
    ensures Live(s.locks, b, At(s.lines, b))
    ensures At(s.lines, b).tag == At(s.lines, p).tag && At(s.lines, b).data == At(s.lines, p).data
    ensures b == p || exists u :: Moving(c, s, u, p, b)
  {
    b := p;
    if !Live(s.locks, p, At(s.lines, p)) {
      var k := LockOf(s.locks, p.set_);
      assert LockOk(k) && WriterAt(c, s.apps, p.set_, k);
      var u := k.rw.writer.value.n;
      assert AppOk(c, s.lines, s.locks, u, s.apps[u]);
      b := Slot(true, p.set_, p.way);
      assert p == Slot(false, p.set_, p.way) && Moving(c, s, u, p, b);
      MovingSame(c, s, u, p, b);
    }
  }

  /** Two lines with the same live line are the two lines of a move. */
  lemma Pair(c: Config, s: State, p: Slot, q: Slot, b: Slot)
    requires c.Valid() && p != q
    requires b == p || exists u :: Moving(c, s, u, p, b)
    requires b == q || exists u :: Moving(c, s, u, q, b)
    ensures exists u :: Moving(c, s, u, p, q) || Moving(c, s, u, q, p)
  {
    if b == p { var u :| Moving(c, s, u, q, b); }
    else if b == q { var u :| Moving(c, s, u, p, b); }
  }

  // ---- theorems ----------------------------------------------------------------------------------------

  /** A line in use lies in the set of its tag. Two lines of the whole cache hold the same tag exactly
      when they are the two lines of a move in progress. */
  lemma OneLinePerTag(c: Config, ss: seq<State>, es: seq<Event>, i: nat, p: Slot, q: Slot)
    requires c.Valid() && Run(c, ss, es) && i <= |es|
    requires p != q && At(ss[i].lines, p).Used() && At(ss[i].lines, q).Used()
    ensures p.set_ == c.home(At(ss[i].lines, p).tag)
    ensures At(ss[i].lines, p).tag == At(ss[i].lines, q).tag <==>
              exists u :: Moving(c, ss[i], u, p, q) || Moving(c, ss[i], u, q, p)
  {
    var s := ss[i];
    RunInv(c, ss, es, i);
    RunWriters(c, ss, es, i);
    assert LineOk(c, p, At(s.lines, p));
    if At(s.lines, p).tag == At(s.lines, q).tag {
      var b := Base(c, s, p);
      var d := Base(c, s, q);
      assert b == d;
      Pair(c, s, p, q, b);
    } else if u :| Moving(c, s, u, p, q) || Moving(c, s, u, q, p) {
      if Moving(c, s, u, p, q) { MovingSame(c, s, u, p, q); } else { MovingSame(c, s, u, q, p); }
      assert false;
    }
  }

  /** No thread is between copying a line and rewriting it. */
  ghost predicate AtRest(s: State) { forall u :: u in s.apps ==> !(s.apps[u].pc.New? && s.apps[u].pc.nw.Refill?) }

  /** Without a move in progress each tag is in at most one line of the whole cache. */
  lemma OneLineAtRest(c: Config, ss: seq<State>, es: seq<Event>, i: nat, p: Slot, q: Slot)
    requires c.Valid() && Run(c, ss, es) && i <= |es| && AtRest(ss[i])
    requires At(ss[i].lines, p).Used() && At(ss[i].lines, q).Used() && At(ss[i].lines, p).tag == At(ss[i].lines, q).tag
    ensures p == q
  {
    if p != q { OneLinePerTag(c, ss, es, i, p, q); }
  }

  /** Two lines in use hold the same buffer exactly when they are the two lines of a move. */
  lemma OneLinePerBuffer(c: Config, ss: seq<State>, es: seq<Event>, i: nat, p: Slot, q: Slot)
    requires c.Valid() && Run(c, ss, es) && i <= |es|
    requires p != q && At(ss[i].lines, p).Used() && At(ss[i].lines, q).Used()
    ensures At(ss[i].lines, p).data == At(ss[i].lines, q).data <==>
              exists u :: Moving(c, ss[i], u, p, q) || Moving(c, ss[i], u, q, p)
  {
    var s := ss[i];
    RunInv(c, ss, es, i);
    RunWriters(c, ss, es, i);
    if At(s.lines, p).data == At(s.lines, q).data {
      var b := Base(c, s, p);
      var d := Base(c, s, q);
      SameContent(c, s, b, d);
      Pair(c, s, p, q, b);
    } else if u :| Moving(c, s, u, p, q) || Moving(c, s, u, q, p) {
      if Moving(c, s, u, p, q) { MovingSame(c, s, u, p, q); } else { MovingSame(c, s, u, q, p); }
      assert false;
    }
  }

  lemma SameContent(c: Config, s: State, b: Slot, d: Slot)
    requires c.Valid() && Inv(c, s) && Live(s.locks, b, At(s.lines, b)) && Live(s.locks, d, At(s.lines, d))
    requires At(s.lines, b).data == At(s.lines, d).data
    ensures b == d
  {
    assert LineOk(c, b, At(s.lines, b));
    assert Content(s, AtSlot(b)).Some? && Content(s, AtSlot(d)) == Content(s, AtSlot(b));
  }

  /** The buffer that is stored at a place, whatever the position of the threads. */
  function Stored(s: State, z: Loc): Option<Buf> {
    match z
    case AtSlot(p) => At(s.lines, p).data
    case InStack(u, k) =>
      if u in s.apps && k < |s.apps[u].pool.stack| then Some(s.apps[u].pool.stack[k]) else None
  }

  /** The place that counts for a buffer stored at z. */
  lemma BasePlace(c: Config, s: State, z: Loc, b: Buf) returns (y: Loc)
    requires c.Valid() && Inv(c, s) && WritersOk(c, s) && Stored(s, z) == Some(b)
    ensures Content(s, y) == Some(b)
    ensures y == z || (z.AtSlot? && y.AtSlot? && exists u :: Moving(c, s, u, z.p, y.p))
  {
    y := z;
    if z.AtSlot? {
      assert LineOk(c, z.p, At(s.lines, z.p));
      var p := Base(c, s, z.p);
      y := AtSlot(p);
    }
  }

  /** Every buffer that initLine dealt out is always stored somewhere, and in one place only: one position
      of one thread's stack, one main line or one shadow line; two only while its line is being moved. */
  lemma BufferInOnePlace(c: Config, ss: seq<State>, es: seq<Event>, i: nat, b: Buf, z: Loc, y: Loc)
    requires c.Valid() && Run(c, ss, es) && i <= |es| && Dealt(ss[0], b)
    ensures exists x :: Stored(ss[i], x) == Some(b)
    ensures z != y && Stored(ss[i], z) == Some(b) && Stored(ss[i], y) == Some(b) ==>
              z.AtSlot? && y.AtSlot? && exists u :: Moving(c, ss[i], u, z.p, y.p) || Moving(c, ss[i], u, y.p, z.p)
  {
    var s := ss[i];
    RunInv(c, ss, es, i);
    RunWriters(c, ss, es, i);
    PlacedOnce(c, ss, es, i, b);
    var x :| Content(s, x) == Some(b);
    assert Stored(s, x) == Some(b);
    if z != y && Stored(s, z) == Some(b) && Stored(s, y) == Some(b) {
      var z' := BasePlace(c, s, z, b);
      var y' := BasePlace(c, s, y, b);
      assert z' == y';
      Pair(c, s, z.p, y.p, z'.p);
    }
  }

  /** The exception is real: the step that copies a line leaves its tag and its buffer in two lines. */
  lemma MoveDoubles(c: Config, ss: seq<State>, es: seq<Event>, i: nat, u: nat, inp: Input)
    requires c.Valid() && Run(c, ss, es) && i < |es| && es[i] == ByApp(u, inp)
    requires u in ss[i].apps && ss[i].apps[u].pc.New? && ss[i].apps[u].pc.nw.MvStore?
    ensures var p := Slot(false, c.home(ss[i].apps[u].t), ss[i].apps[u].pc.nw.w);
      var q := Slot(true, p.set_, p.way);
      var l, l' := At(ss[i + 1].lines, p), At(ss[i + 1].lines, q);
      Moving(c, ss[i + 1], u, p, q) && l.Used() && l'.Used() && l.tag == l'.tag && l.data == l'.data
  {
    RunInv(c, ss, es, i + 1);
    assert Step(c, ss[i], es[i], ss[i + 1]);
    var p := Slot(false, c.home(ss[i].apps[u].t), ss[i].apps[u].pc.nw.w);
    MovingSame(c, ss[i + 1], u, p, Slot(true, p.set_, p.way));
  }

  // ---- the status of a line -------------------------------------------------------------------------------

  /** The flag is set only in TO_* states; main lines are never TO_PRESERVED, shadow lines never
      TO_MODIFIED; TO_INVALID does not occur. */
  lemma StatusOfLines(c: Config, ss: seq<State>, es: seq<Event>, i: nat, p: Slot)
    requires c.Valid() && Run(c, ss, es) && i <= |es|
    ensures var l := At(ss[i].lines, p);
      && (l.flag ==> l.st == ToShared || l.st == ToModified || l.st == ToPreserved)
      && l.st != ToInvalid && (if p.shadow then l.st != ToModified else l.st != ToPreserved)
  {
    RunInv(c, ss, es, i);
    assert LineOk(c, p, At(ss[i].lines, p));
  }

  lemma AppFills(c: Config, s: State, u: nat, inp: Input, s': State, p: Slot)
    requires c.Valid() && Inv(c, s) && AppNext(c, s, u, inp, s') && !p.shadow && At(s.lines, p).Used()
    ensures At(s'.lines, p).Used()
  {
    AppKept(c, s, u, inp, s');
  }

  lemma AgentFills(c: Config, s: State, v: nat, inp: Input, s': State, p: Slot)
    requires c.Valid() && Inv(c, s) && AgentNext(c, s, v, inp, s') && !p.shadow && At(s.lines, p).Used()
    ensures At(s'.lines, p).Used()
  {
    var AgentMoves(g', e) := AgentMove(c, s, v, s.agents[v], inp);
    AgentStepGood(c, s, v, s.agents[v], inp, g', e);
  }

  /** A main line that has been filled is never PRESERVED again. */
  lemma {:induction false} NeverPreservedAgain(c: Config, ss: seq<State>, es: seq<Event>, i: nat, j: nat, p: Slot)
    requires c.Valid() && Run(c, ss, es) && i <= j <= |es| && !p.shadow && At(ss[i].lines, p).st != Preserved
    ensures At(ss[j].lines, p).st != Preserved
    decreases j
  {
    if i < j {
      NeverPreservedAgain(c, ss, es, i, j - 1, p);
      RunInv(c, ss, es, j - 1);
      assert Step(c, ss[j - 1], es[j - 1], ss[j - 1 + 1]);
      match es[j - 1]
      case ByApp(u, inp) => AppFills(c, ss[j - 1], u, inp, ss[j], p);
      case ByAgent(v, inp) => AgentFills(c, ss[j - 1], v, inp, ss[j], p);
    }
  }
}
