/** WRLock: a reader/writer lock in a 16-bit word, one step for every load, store and compare-and-swap. */
module WrLock {
  import opened Sums

  const WIDTH: nat := 0x1_0000

  /** The most readers the word can count. */
  const MOST: nat := 0x8000

  /** Where a thread is. v is the word it has loaded. Reading, Leaving and LeaveCas hold the lock for
      reading, Writing holds it for writing. */
  datatype Pc =
    | Out
    | WLoad(once: bool)
    | WCas(once: bool)
    | RLoad(once: bool)
    | RCas(once: bool, v: nat)
    | Reading
    | Leaving
    | LeaveCas(v: nat)
    | Writing

  datatype State = State(word: nat, threads: seq<Pc>)

  function Init(n: nat): State { State(0, seq(n, i => Out)) }

  /** Lock and TryLock start wLock, try_wLock, rLock and try_rLock; Unlock starts rUnlock. */
  datatype Event =
    | Lock(t: nat, write: bool, once: bool)
    | Unlock(t: nat)
    | Go(t: nat)

  predicate Enabled(s: State, e: Event) {
    && e.t < |s.threads|
    && match e
       case Lock(t, write, once) => s.threads[t].Out?
       case Unlock(t) => s.threads[t].Reading?
       case Go(t) => !s.threads[t].Out? && !s.threads[t].Reading?
  }

  function Apply(s: State, e: Event): State
    requires Enabled(s, e)
  {
    match e
    case Lock(t, write, once) => Goto(s, t, if write then WLoad(once) else RLoad(once))
    case Unlock(t) => Goto(s, t, Leaving)
    case Go(t) => Next(s, t)
  }

  function Goto(s: State, t: nat, pc: Pc): State
    requires t < |s.threads|
  {
    s.(threads := s.threads[t := pc])
  }

  /** One step of a lock operation; the step from Writing is wUnlock's store. */
  function Next(s: State, t: nat): State
    requires t < |s.threads|
  {
    match s.threads[t]
    case WLoad(once) => Goto(s, t, if s.word == 0 then WCas(once) else if once then Out else WLoad(once))
    case WCas(once) => if s.word == 0 then Goto(s.(word := 1), t, Writing) else Goto(s, t, if once then Out else WLoad(once))
    case RLoad(once) => Goto(s, t, if s.word != 1 then RCas(once, s.word) else if once then Out else RLoad(once))
    case RCas(once, v) => if s.word == v then Goto(s.(word := (v + 2) % WIDTH), t, Reading) else Goto(s, t, RLoad(once))
    case Leaving => Goto(s, t, LeaveCas(s.word))
    case LeaveCas(v) => if s.word == v then Goto(s.(word := (v + WIDTH - 2) % WIDTH), t, Out) else Goto(s, t, Leaving)
    case Writing => Goto(s.(word := 0), t, Out)
    case Out => s
    case Reading => s
  }

  // ---- who holds the lock ---------------------------------------------------------------------------------

  predicate Reads(pc: Pc) { pc.Reading? || pc.Leaving? || pc.LeaveCas? }

  function ReadList(ths: seq<Pc>): seq<nat> { seq(|ths|, i requires 0 <= i < |ths| => if Reads(ths[i]) then 1 else 0) }

  function WriteList(ths: seq<Pc>): seq<nat> { seq(|ths|, i requires 0 <= i < |ths| => if ths[i].Writing? then 1 else 0) }

  function Readers(ths: seq<Pc>): nat { Sum(ReadList(ths)) }

  function Writers(ths: seq<Pc>): nat { Sum(WriteList(ths)) }

  lemma Moved(ths: seq<Pc>, t: nat, pc: Pc)
    requires t < |ths|
    ensures Readers(ths[t := pc]) + (if Reads(ths[t]) then 1 else 0) == Readers(ths) + (if Reads(pc) then 1 else 0)
    ensures Writers(ths[t := pc]) + (if ths[t].Writing? then 1 else 0) == Writers(ths) + (if pc.Writing? then 1 else 0)
    ensures Reads(ths[t]) ==> Readers(ths) > 0
    ensures ths[t].Writing? ==> Writers(ths) > 0
  {
    SumUpdate(ReadList(ths), t, if Reads(pc) then 1 else 0);
    SumUpdate(WriteList(ths), t, if pc.Writing? then 1 else 0);
    assert ReadList(ths[t := pc]) == ReadList(ths)[t := if Reads(pc) then 1 else 0];
    assert WriteList(ths[t := pc]) == WriteList(ths)[t := if pc.Writing? then 1 else 0];
    SumAtLeast(ReadList(ths), t);
    SumAtLeast(WriteList(ths), t);
  }

  /** The word is 1 when there is a writer, who is then alone, and otherwise twice the number of readers. */
  predicate Means(s: State) {
    && Writers(s.threads) <= 1 && (Writers(s.threads) == 1 ==> Readers(s.threads) == 0)
    && s.word == (if Writers(s.threads) == 1 then 1 else 2 * Readers(s.threads))
  }

  /** What a thread remembers to be no writer's word. */
  predicate Loaded(pc: Pc) { pc.RCas? ==> pc.v != 1 }

  ghost predicate Inv(s: State) { Means(s) && forall t {:trigger s.threads[t]} :: 0 <= t < |s.threads| ==> Loaded(s.threads[t]) }

  /** A step keeps the meaning exactly when it does not let in one reader too many. */
  lemma StepMeans(s: State, e: Event)
    requires Inv(s) && Enabled(s, e) && Readers(s.threads) < MOST
    ensures Means(Apply(s, e)) <==> Readers(Apply(s, e).threads) < MOST
  {
    var s' := Apply(s, e);
    Moved(s.threads, e.t, s'.threads[e.t]);
    assert s'.threads == s.threads[e.t := s'.threads[e.t]];
    assert Loaded(s.threads[e.t]);
  }

  lemma StepKeeps(s: State, e: Event)
    requires Inv(s) && Enabled(s, e) && Readers(s.threads) < MOST && Readers(Apply(s, e).threads) < MOST
    ensures Inv(Apply(s, e))
  {
    StepMeans(s, e);
  }

  // ---- runs ------------------------------------------------------------------------------------------------

  predicate Runs(s: State, es: seq<Event>)
    decreases |es|
  {
    es == [] || (Enabled(s, es[0]) && Runs(Apply(s, es[0]), es[1..]))
  }

  function After(s: State, es: seq<Event>): State
    requires Runs(s, es)
    decreases |es|
  {
    if es == [] then s else After(Apply(s, es[0]), es[1..])
  }

  /** At every moment of the run fewer than 32768 threads hold the lock for reading. */
  predicate Sparse(s: State, es: seq<Event>)
    requires Runs(s, es)
    decreases |es|
  {
    Readers(s.threads) < MOST && (es == [] || Sparse(Apply(s, es[0]), es[1..]))
  }

  lemma InitInv(n: nat)
    ensures Inv(Init(n))
  {
    SumZero(ReadList(Init(n).threads));
    SumZero(WriteList(Init(n).threads));
  }

  lemma {:induction false} RunInv(s: State, es: seq<Event>)
    requires Inv(s) && Runs(s, es) && Sparse(s, es)
    ensures Inv(After(s, es))
    decreases |es|
  {
    if es != [] {
      assert Readers(Apply(s, es[0]).threads) < MOST;
      StepKeeps(s, es[0]);
      RunInv(Apply(s, es[0]), es[1..]);
    }
  }

  // ---- theorems --------------------------------------------------------------------------------------------

  /** The word counts the holders. */
  lemma WordMeans(n: nat, es: seq<Event>)
    requires Runs(Init(n), es) && Sparse(Init(n), es)
    ensures var s := After(Init(n), es);
      && (s.word == 1 <==> Writers(s.threads) == 1)
      && (s.word != 1 ==> Writers(s.threads) == 0 && s.word == 2 * Readers(s.threads))
      && (s.word == 0 <==> Writers(s.threads) == 0 && Readers(s.threads) == 0)
  {
    InitInv(n);
    RunInv(Init(n), es);
  }

  /** A writer excludes every other holder. */
  lemma WriterAlone(n: nat, es: seq<Event>, t: nat, u: nat)
    requires Runs(Init(n), es) && Sparse(Init(n), es) && t != u
    requires var ths := After(Init(n), es).threads; t < |ths| && u < |ths| && ths[t].Writing?
    ensures var pc := After(Init(n), es).threads[u]; !pc.Writing? && !Reads(pc)
  {
    InitInv(n);
    RunInv(Init(n), es);
    var ths := After(Init(n), es).threads;
    SumAtLeast(WriteList(ths), t);
    SumAtLeast(ReadList(ths), u);
    if t < u { SumTwo(WriteList(ths), t, u); } else { SumTwo(WriteList(ths), u, t); }
  }

  // ---- one reader too many -----------------------------------------------------------------------------------

  lemma {:induction false} AfterMore(s: State, es: seq<Event>, e: Event)
    requires Runs(s, es) && Enabled(After(s, es), e)
    ensures Runs(s, es + [e]) && After(s, es + [e]) == Apply(After(s, es), e)
    decreases |es|
  {
    var fs := es + [e];
    if es == [] {
      assert fs[0] == e && fs[1..] == [];
    } else {
      AfterMore(Apply(s, es[0]), es[1..], e);
      assert fs[0] == es[0] && fs[1..] == es[1..] + [e];
    }
  }

  /** The first k threads hold the lock for reading, the others have not begun. */
  predicate FirstRead(s: State, n: nat, k: nat) {
    && |s.threads| == n && (forall i :: 0 <= i < n ==> s.threads[i] == if i < k then Reading else Out)
    && s.word == 2 * k % WIDTH
  }

  /** Readers get in one by one. */
  lemma {:induction false} ReadersIn(n: nat, k: nat) returns (es: seq<Event>)
    requires k <= n && k <= MOST
    ensures Runs(Init(n), es) && FirstRead(After(Init(n), es), n, k)
  {
    if k == 0 {
      es := [];
    } else {
      es := ReadersIn(n, k - 1);
      es := OneReader(n, k - 1, es);
    }
  }

  lemma OneReader(n: nat, k: nat, es: seq<Event>) returns (es': seq<Event>)
    requires k < n && k < MOST && Runs(Init(n), es) && FirstRead(After(Init(n), es), n, k)
    ensures Runs(Init(n), es') && FirstRead(After(Init(n), es'), n, k + 1)
  {
    AfterMore(Init(n), es, Lock(k, false, false));
    es' := es + [Lock(k, false, false)];
    AfterMore(Init(n), es', Go(k));
    es' := es' + [Go(k)];
    AfterMore(Init(n), es', Go(k));
    es' := es' + [Go(k)];
  }

  lemma {:induction false} CountReaders(ths: seq<Pc>, k: nat)
    requires k <= |ths| && forall i :: 0 <= i < |ths| ==> ths[i] == if i < k then Reading else Out
    ensures Readers(ths) == k
  {
    if ths != [] {
      var rest := ths[1..];
      assert ReadList(ths)[1..] == ReadList(rest);
      CountReaders(rest, if k == 0 then 0 else k - 1);
    }
  }

  /** One writer at most, and then no reader. */
  predicate Exclusive(s: State) { Writers(s.threads) <= 1 && (Writers(s.threads) == 1 ==> Readers(s.threads) == 0) }

  /** With 32768 readers, who get in one after the other, the word is that of a free lock: a run in which
      a writer then gets in beside them all. */
  lemma OneTooMany(n: nat)
    requires n > MOST
    ensures exists es :: Runs(Init(n), es) && !Exclusive(After(Init(n), es)) && Readers(After(Init(n), es).threads) == MOST
  {
    var es := ReadersIn(n, MOST);
    var s := After(Init(n), es);
    CountReaders(s.threads, MOST);
    SumZero(WriteList(s.threads));
    assert s.word == 0;
    es := WriterIn(n, es);
    assert Runs(Init(n), es);
  }

  /** What holds of at most 32768 threads, even if all of them read: the word is right up to its width. */
  predicate Weak(s: State) {
    && |s.threads| <= MOST && Exclusive(s)
    && s.word == (if Writers(s.threads) == 1 then 1 else if Readers(s.threads) == MOST then 0 else 2 * Readers(s.threads))
  }

  ghost predicate WeakInv(s: State) { Weak(s) && forall t {:trigger s.threads[t]} :: 0 <= t < |s.threads| ==> Loaded(s.threads[t]) }

  lemma NotAllRead(ths: seq<Pc>, t: nat)
    requires t < |ths| && !Reads(ths[t])
    ensures Readers(ths) < |ths|
  {
    assert ReadList(ths)[t] == 0;
    SumAtMost(ReadList(ths));
  }

  lemma WeakStep(s: State, e: Event)
    requires WeakInv(s) && Enabled(s, e)
    ensures WeakInv(Apply(s, e))
  {
    var s' := Apply(s, e);
    Moved(s.threads, e.t, s'.threads[e.t]);
    assert s'.threads == s.threads[e.t := s'.threads[e.t]];
    assert Loaded(s.threads[e.t]);
    if !Reads(s.threads[e.t]) { NotAllRead(s.threads, e.t); }
    SumAtMost(ReadList(s.threads));
  }

  lemma {:induction false} RunWeak(s: State, es: seq<Event>)
    requires WeakInv(s) && Runs(s, es)
    ensures WeakInv(After(s, es))
    decreases |es|
  {
    if es != [] {
      WeakStep(s, es[0]);
      RunWeak(Apply(s, es[0]), es[1..]);
    }
  }

  /** The lock excludes in every run of n threads if and only if there are at most 32768 of them. */
  lemma ExcludesExactly(n: nat)
    ensures n <= MOST <==> forall es :: Runs(Init(n), es) ==> Exclusive(After(Init(n), es))
  {
    if n <= MOST {
      InitInv(n);
      forall es | Runs(Init(n), es) ensures Exclusive(After(Init(n), es)) { RunWeak(Init(n), es); }
    } else {
      OneTooMany(n);
    }
  }

  lemma WriterIn(n: nat, es: seq<Event>) returns (es': seq<Event>)
    requires 0 < n && Runs(Init(n), es) && |After(Init(n), es).threads| == n
    requires After(Init(n), es).threads[n - 1] == Out && After(Init(n), es).word == 0
    ensures Runs(Init(n), es') && |After(Init(n), es').threads| == n
    ensures Readers(After(Init(n), es').threads) == Readers(After(Init(n), es).threads)
    ensures Writers(After(Init(n), es').threads) == Writers(After(Init(n), es).threads) + 1
  {
    var t, s0 := n - 1, After(Init(n), es);
    AfterMore(Init(n), es, Lock(t, true, true));
    es' := es + [Lock(t, true, true)];
    AfterMore(Init(n), es', Go(t));
    es' := es' + [Go(t)];
    AfterMore(Init(n), es', Go(t));
    es' := es' + [Go(t)];
    assert After(Init(n), es').threads == s0.threads[t := Writing];
    Moved(s0.threads, t, Writing);
  }

  // ---- how calls return --------------------------------------------------------------------------------------

  /** Inside one of the four lock operations. */
  predicate InLock(pc: Pc) { pc.WLoad? || pc.WCas? || pc.RLoad? || pc.RCas? }

  /** A lock operation: for writing or for reading, trying once or waiting. */
  datatype Call = Call(write: bool, once: bool)

  function CallOf(pc: Pc): Call
    requires InLock(pc)
  {
    Call(pc.WLoad? || pc.WCas?, pc.once)
  }

  /** Words that let a lock operation in: for writing zero, for reading all but a writer's. */
  predicate Allows(word: nat, write: bool) { if write then word == 0 else word != 1 }

  /** The lock operation that thread t began last. */
  function LastCall(es: seq<Event>, t: nat): Call
    decreases |es|
  {
    if es == [] then Call(false, false)
    else if es[|es| - 1].Lock? && es[|es| - 1].t == t then Call(es[|es| - 1].write, es[|es| - 1].once)
    else LastCall(es[..|es| - 1], t)
  }

  lemma {:induction false} RunFront(s: State, es: seq<Event>)
    requires Runs(s, es) && es != []
    ensures var front, e := es[..|es| - 1], es[|es| - 1];
      Runs(s, front) && Enabled(After(s, front), e) && After(s, es) == Apply(After(s, front), e)
    decreases |es|
  {
    var front, e := es[..|es| - 1], es[|es| - 1];
    if |es| > 1 {
      RunFront(Apply(s, es[0]), es[1..]);
      assert front[1..] == es[1..][..|es| - 2] && front[0] == es[0];
    }
  }

  lemma {:induction false} RunCalls(n: nat, es: seq<Event>, t: nat)
    requires Runs(Init(n), es)
    ensures |After(Init(n), es).threads| == n
    ensures t < n && InLock(After(Init(n), es).threads[t]) ==> CallOf(After(Init(n), es).threads[t]) == LastCall(es, t)
    decreases |es|
  {
    if es != [] {
      RunFront(Init(n), es);
      RunCalls(n, es[..|es| - 1], t);
    }
  }

  /** A lock operation that ends in step e leaves its thread a holder of the kind asked for; only an operation
      that tries once may end without the lock, and only on a word that forbids it: for writing any word but
      zero, for reading a writer's word. */
  lemma CallReturns(n: nat, es: seq<Event>, e: Event)
    requires Runs(Init(n), es + [e])
    requires Runs(Init(n), es) && e.t < |After(Init(n), es).threads| && InLock(After(Init(n), es).threads[e.t])
    requires e.t < |After(Init(n), es + [e]).threads| && !InLock(After(Init(n), es + [e]).threads[e.t])
    ensures var c, word, pc := LastCall(es, e.t), After(Init(n), es).word, After(Init(n), es + [e]).threads[e.t];
      && (pc == (if c.write then Writing else Reading) || (pc == Out && c.once && !Allows(word, c.write)))
      && (pc == Writing ==> word == 0 && After(Init(n), es + [e]).word == 1)
  {
    assert (es + [e])[..|es|] == es;
    RunFront(Init(n), es + [e]);
    RunCalls(n, es, e.t);
  }

  /** The events get thread t the lock. */
  predicate TakenBy(s: State, t: nat, write: bool, es: seq<Event>)
    requires t < |s.threads|
  {
    Runs(s, es) && After(s, es) == State(if write then 1 else (s.word + 2) % WIDTH, s.threads[t := if write then Writing else Reading])
  }

  /** The events leave thread t outside, if it tries once, or waiting. */
  predicate RefusedBy(s: State, t: nat, c: Call, es: seq<Event>)
    requires t < |s.threads|
  {
    && Runs(s, es)
    && After(s, es) == s.(threads := s.threads[t := if c.once then Out else if c.write then WLoad(false) else RLoad(false)])
  }

  /** A lock operation that nobody disturbs: it gets the lock if the word allows it, and otherwise gives up
      or goes on waiting, and leaves the word. */
  lemma TakesAlone(s: State, t: nat, c: Call)
    requires t < |s.threads| && s.threads[t] == Out
    ensures var begun := [Lock(t, c.write, c.once), Go(t)];
      if Allows(s.word, c.write) then TakenBy(s, t, c.write, begun + [Go(t)]) else RefusedBy(s, t, c, begun)
  {
    var begun := [Lock(t, c.write, c.once), Go(t)];
    var s1 := Apply(s, begun[0]);
    var s2 := Apply(s1, begun[1]);
    assert begun[1..] == [Go(t)] && [Go(t)][1..] == [];
    assert Runs(s2, []) && Runs(s1, [Go(t)]) && After(s1, [Go(t)]) == s2;
    assert Runs(s, begun) && After(s, begun) == s2;
    if Allows(s.word, c.write) {
      AfterMore(s, begun, Go(t));
    }
  }

  /** An unlock that nobody disturbs takes the thread out of the word. */
  lemma FreesAlone(s: State, t: nat)
    requires t < |s.threads| && (s.threads[t] == Reading || s.threads[t] == Writing)
    ensures var es := if s.threads[t] == Reading then [Unlock(t), Go(t), Go(t)] else [Go(t)];
      Runs(s, es) &&
      After(s, es) == State(if s.threads[t] == Reading then (s.word + WIDTH - 2) % WIDTH else 0, s.threads[t := Out])
  {
    if s.threads[t] == Reading {
      var s1 := Apply(s, Unlock(t));
      assert Runs(s, []) && After(s, []) == s;
      AfterMore(s, [], Unlock(t));
      AfterMore(s, [Unlock(t)], Go(t));
      AfterMore(s, [Unlock(t), Go(t)], Go(t));
      assert [] + [Unlock(t)] == [Unlock(t)] && [Unlock(t)] + [Go(t)] == [Unlock(t), Go(t)];
      assert [Unlock(t), Go(t)] + [Go(t)] == [Unlock(t), Go(t), Go(t)];
    } else {
      assert Runs(s, []) && After(s, []) == s;
      AfterMore(s, [], Go(t));
      assert [] + [Go(t)] == [Go(t)];
    }
  }
}
