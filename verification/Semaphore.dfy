/** LightweightSemaphore: a counter and a semaphore of the operating system, one step for every load,
    compare-and-swap, fetch and system call. */
module Semaphore {
  import opened Sums

  /** A call of waitMany(max, timeout), or of tryWaitMany(max) when it does not block; wait and tryWait
      are those with max 1. */
  datatype Call = Call(max: nat, blocks: bool, timeout: int)

  /** Where a thread is. Idle keeps the last call and its result; base is what the call has taken so
      far and seen or below the value of the counter that was loaded. */
  datatype Pc =
    | Idle(c: Call, result: nat)
    | Try(c: Call, base: nat)
    | TryCas(c: Call, base: nat, seen: nat)
    | Spin(c: Call, left: nat)
    | SpinCas(c: Call, left: nat, seen: nat)
    | Sub(c: Call)
    | Park(c: Call)
    | Undo(c: Call)
    | UndoTry(c: Call)
    | UndoCas(c: Call, below: int)
    | Add(n: nat)
    | Post(k: nat)

  /** got records what the current or last call has taken. */
  datatype Thread = Thread(pc: Pc, got: nat)

  /** The counter, the tokens of the system's semaphore, and the totals taken and signalled so far. */
  datatype State = State(count: int, os: nat, threads: seq<Thread>, acquired: nat, signalled: nat)

  /** Whether a wait of the operating system without a timeout may fail. */
  datatype Config = Config(initial: nat, maxSpins: nat, osFails: bool)

  const NONE: Call := Call(0, false, 0)

  function Init(cfg: Config, n: nat): State { State(cfg.initial, 0, seq(n, i => Thread(Idle(NONE, 0), 0)), 0, 0) }

  // ---- steps -------------------------------------------------------------------------------------------

  /** luck decides what the code leaves open: whether a weak compare-and-swap fails without reason,
      and whether a system wait gets a token or gives up. */
  datatype Event =
    | Begin(t: nat, c: Call)
    | Release(t: nat, n: nat)
    | Go(t: nat, luck: bool)

  predicate Enabled(cfg: Config, s: State, e: Event) {
    && e.t < |s.threads|
    && match e
       case Begin(t, c) => s.threads[t].pc.Idle?
       case Release(t, n) => s.threads[t].pc.Idle?
       case Go(t, luck) => CanGo(cfg, s, s.threads[t].pc, luck)
  }

  /** A thread waits in Park for a token or its timeout; all other steps are always possible. */
  predicate CanGo(cfg: Config, s: State, pc: Pc, luck: bool) {
    match pc
    case Idle(_, _) => false
    case Park(c) => if luck then s.os > 0 && c.timeout != 0 else c.timeout >= 0 || cfg.osFails
    case _ => true
  }

  function Apply(cfg: Config, s: State, e: Event): State
    requires Enabled(cfg, s, e)
  {
    match e
    case Begin(t, c) => s.(threads := s.threads[t := Thread(Try(c, 0), 0)])
    case Release(t, n) => s.(threads := s.threads[t := Thread(Add(n), 0)])
    case Go(t, luck) => Next(cfg, s, t, luck)
  }

  function Goto(s: State, t: nat, pc: Pc): State
    requires t < |s.threads|
  {
    s.(threads := s.threads[t := s.threads[t].(pc := pc)])
  }

  /** The thread has taken n more, and the rest of the state is count, os. */
  function Took(s: State, t: nat, n: nat, count: int, os: nat, pc: Pc): State
    requires t < |s.threads|
  {
    State(count, os, s.threads[t := Thread(pc, s.threads[t].got + n)], s.acquired + n, s.signalled)
  }

  /** What is left of the counter when up to max are taken. */
  function Rest(seen: nat, max: nat): (r: nat)
    ensures r <= seen && seen - r <= max
  {
    if seen > max then seen - max else 0
  }

  /** After tryWaitMany took nothing. */
  function NoLuck(cfg: Config, c: Call, base: nat): Pc {
    if base == 0 && c.blocks && c.max > 0 then Spin(c, cfg.maxSpins) else Idle(c, base)
  }

  function Tried(cfg: Config, c: Call, base: nat, seen: int): Pc { if seen > 0 then TryCas(c, base, seen) else NoLuck(cfg, c, base) }

  /** After the blocking part took one. */
  function GotOne(c: Call): Pc { if c.max > 1 then Try(c, 1) else Idle(c, 1) }

  function Next(cfg: Config, s: State, t: nat, luck: bool): State
    requires t < |s.threads| && CanGo(cfg, s, s.threads[t].pc, luck)
  {
    match s.threads[t].pc
    case Try(c, base) => Goto(s, t, Tried(cfg, c, base, s.count))
    case TryCas(c, base, seen) =>
      if s.count == seen && luck then
        var rest := Rest(seen, if c.max > base then c.max - base else 0);
        Took(s, t, seen - rest, rest, s.os, Idle(c, base + (seen - rest)))
      else Goto(s, t, Tried(cfg, c, base, s.count))
    case Spin(c, left) =>
      if left == 0 then Goto(s, t, Sub(c))
      else if s.count > 0 then Goto(s, t, SpinCas(c, left - 1, s.count)) else Goto(s, t, Spin(c, left - 1))
    case SpinCas(c, left, seen) =>
      if s.count == seen then Took(s, t, seen - Rest(seen, c.max), Rest(seen, c.max), s.os, Idle(c, seen - Rest(seen, c.max)))
      else Goto(s, t, Spin(c, left))
    case Sub(c) =>
      if s.count > 0 then Took(s, t, 1, s.count - 1, s.os, GotOne(c)) else Goto(s.(count := s.count - 1), t, Park(c))
    case Park(c) => if luck then Took(s, t, 1, s.count, s.os - 1, GotOne(c)) else Goto(s, t, Undo(c))
    case Undo(c) => Goto(s, t, if s.count >= 0 then UndoTry(c) else UndoCas(c, s.count))
    case UndoTry(c) => if s.os > 0 then Took(s, t, 1, s.count, s.os - 1, GotOne(c)) else Goto(s, t, Undo(c))
    case UndoCas(c, below) => if s.count == below then Goto(s.(count := s.count + 1), t, Idle(c, 0)) else Goto(s, t, Undo(c))
    case Add(n) =>
      Goto(s.(count := s.count + n, signalled := s.signalled + n), t, Posting(if -s.count < n then -s.count else n))
    case Post(k) => Goto(s.(os := s.os + 1), t, Posting(k - 1))
    case Idle(_, _) => s
  }

  function Posting(k: int): Pc { if k > 0 then Post(k) else Idle(NONE, 0) }

  predicate Runs(cfg: Config, s: State, es: seq<Event>)
    decreases |es|
  {
    es == [] || (Enabled(cfg, s, es[0]) && Runs(cfg, Apply(cfg, s, es[0]), es[1..]))
  }

  function After(cfg: Config, s: State, es: seq<Event>): State
    requires Runs(cfg, s, es)
    decreases |es|
  {
    if es == [] then s else After(cfg, Apply(cfg, s, es[0]), es[1..])
  }

  // ---- counting threads --------------------------------------------------------------------------------

  /** A thread that has counted itself below zero and has neither a token nor taken that back. */
  function Waits(th: Thread): nat { if th.pc.Park? || th.pc.Undo? || th.pc.UndoTry? || th.pc.UndoCas? then 1 else 0 }

  /** The tokens a signalling thread still has to post. */
  function Owes(th: Thread): nat { if th.pc.Post? then th.pc.k else 0 }

  function WaitList(ths: seq<Thread>): seq<nat> { seq(|ths|, i requires 0 <= i < |ths| => Waits(ths[i])) }

  function OweList(ths: seq<Thread>): seq<nat> { seq(|ths|, i requires 0 <= i < |ths| => Owes(ths[i])) }

  function Waiters(ths: seq<Thread>): nat { Sum(WaitList(ths)) }

  function Owed(ths: seq<Thread>): nat { Sum(OweList(ths)) }

  lemma Moved(ths: seq<Thread>, t: nat, th: Thread)
    requires t < |ths|
    ensures Waiters(ths[t := th]) + Waits(ths[t]) == Waiters(ths) + Waits(th)
    ensures Owed(ths[t := th]) + Owes(ths[t]) == Owed(ths) + Owes(th)
  {
    SumUpdate(WaitList(ths), t, Waits(th));
    SumUpdate(OweList(ths), t, Owes(th));
    assert WaitList(ths[t := th]) == WaitList(ths)[t := Waits(th)];
    assert OweList(ths[t := th]) == OweList(ths)[t := Owes(th)];
  }

  // ---- the invariant -----------------------------------------------------------------------------------

  function Above(x: int): nat { if x > 0 then x else 0 }

  /** Every waiting thread is met by a token, posted or owed, or by the counter being below zero; and
      what was there and signalled is either taken, or in the counter, or in tokens. */
  predicate Balanced(cfg: Config, s: State) {
    && Waiters(s.threads) == s.os + Owed(s.threads) + Above(-s.count)
    && cfg.initial + s.signalled == s.acquired + Above(s.count) + s.os + Owed(s.threads)
  }

  /** A call never takes more than it asked for, and returns what it took. */
  predicate CallOk(cfg: Config, th: Thread) {
    match th.pc
    case Idle(c, result) => th.got == result <= c.max && (Insists(cfg, c) ==> result > 0)
    case Try(c, base) => th.got == base && Tries(c, base)
    case TryCas(c, base, seen) => th.got == base && Tries(c, base) && seen > 0
    case Spin(c, left) => th.got == 0 && c.max > 0
    case SpinCas(c, left, seen) => th.got == 0 && c.max > 0 && seen > 0
    case Sub(c) => th.got == 0 && c.max > 0
    case Park(c) => th.got == 0 && c.max > 0
    case Undo(c) => th.got == 0 && c.max > 0 && !Insists(cfg, c)
    case UndoTry(c) => th.got == 0 && c.max > 0 && !Insists(cfg, c)
    case UndoCas(c, below) => below < 0 && th.got == 0 && c.max > 0 && !Insists(cfg, c)
    case Add(n) => th.got == 0
    case Post(k) => th.got == 0 && k > 0
  }

  predicate Tries(c: Call, base: nat) { base <= c.max && (base == 0 || (base == 1 && c.max > 1)) }

  /** A wait without a timeout. */
  predicate Insists(cfg: Config, c: Call) { c.blocks && c.max > 0 && c.timeout < 0 && !cfg.osFails }

  ghost predicate Inv(cfg: Config, s: State) {
    Balanced(cfg, s) && forall t {:trigger s.threads[t]} :: 0 <= t < |s.threads| ==> CallOk(cfg, s.threads[t])
  }

  /** What a step does to the thread and to the rest of the state, without the sums. */
  predicate Even(s: State, s': State, th: Thread, th': Thread) {
    && Waits(th') - Waits(th) == s'.os - s.os + Owes(th') - Owes(th) + Above(-s'.count) - Above(-s.count)
    && s'.signalled - s.signalled == s'.acquired - s.acquired + Above(s'.count) - Above(s.count) + s'.os - s.os + Owes(th') - Owes(th)
  }

  lemma StepEven(cfg: Config, s: State, e: Event)
    requires Enabled(cfg, s, e) && CallOk(cfg, s.threads[e.t])
    ensures Even(s, Apply(cfg, s, e), s.threads[e.t], Apply(cfg, s, e).threads[e.t])
    ensures Apply(cfg, s, e).threads == s.threads[e.t := Apply(cfg, s, e).threads[e.t]]
  {}

  lemma StepBalanced(cfg: Config, s: State, e: Event)
    requires Enabled(cfg, s, e) && Balanced(cfg, s) && CallOk(cfg, s.threads[e.t])
    ensures Balanced(cfg, Apply(cfg, s, e))
  {
    StepEven(cfg, s, e);
    var s' := Apply(cfg, s, e);
    Moved(s.threads, e.t, s'.threads[e.t]);
    EvenBalanced(cfg, s, s', e.t);
  }

  lemma EvenBalanced(cfg: Config, s: State, s': State, t: nat)
    requires t < |s.threads| == |s'.threads| && Balanced(cfg, s) && Even(s, s', s.threads[t], s'.threads[t])
    requires Waiters(s'.threads) + Waits(s.threads[t]) == Waiters(s.threads) + Waits(s'.threads[t])
    requires Owed(s'.threads) + Owes(s.threads[t]) == Owed(s.threads) + Owes(s'.threads[t])
    ensures Balanced(cfg, s')
  {}

  lemma StepCall(cfg: Config, s: State, e: Event)
    requires Enabled(cfg, s, e) && CallOk(cfg, s.threads[e.t])
    ensures CallOk(cfg, Apply(cfg, s, e).threads[e.t])
  {}

  lemma StepKeeps(cfg: Config, s: State, e: Event)
    requires Enabled(cfg, s, e) && Inv(cfg, s)
    ensures Inv(cfg, Apply(cfg, s, e))
  {
    StepBalanced(cfg, s, e);
    StepCall(cfg, s, e);
  }

  lemma InitInv(cfg: Config, n: nat)
    ensures Inv(cfg, Init(cfg, n))
  {
    var ths := Init(cfg, n).threads;
    SumZero(WaitList(ths));
    SumZero(OweList(ths));
  }

  lemma {:induction false} RunInv(cfg: Config, s: State, es: seq<Event>)
    requires Inv(cfg, s) && Runs(cfg, s, es)
    ensures Inv(cfg, After(cfg, s, es))
    decreases |es|
  {
    if es != [] {
      StepKeeps(cfg, s, es[0]);
      RunInv(cfg, Apply(cfg, s, es[0]), es[1..]);
    }
  }

  // ---- theorems ----------------------------------------------------------------------------------------

  /** In every run: the waiting threads are as many as the tokens and the counter's distance below zero. */
  lemma WaitersMatched(cfg: Config, n: nat, es: seq<Event>)
    requires Runs(cfg, Init(cfg, n), es)
    ensures var s := After(cfg, Init(cfg, n), es);
      Waiters(s.threads) == s.os + Owed(s.threads) + (if s.count < 0 then -s.count else 0)
  {
    InitInv(cfg, n);
    RunInv(cfg, Init(cfg, n), es);
  }

  /** In every run nothing is lost or made up, so no more is acquired than was there and signalled. */
  lemma Conserved(cfg: Config, n: nat, es: seq<Event>)
    requires Runs(cfg, Init(cfg, n), es)
    ensures var s := After(cfg, Init(cfg, n), es);
      && cfg.initial + s.signalled == s.acquired + (if s.count > 0 then s.count else 0) + s.os + Owed(s.threads)
      && s.acquired <= cfg.initial + s.signalled
  {
    InitInv(cfg, n);
    RunInv(cfg, Init(cfg, n), es);
  }

  /** No wake-up is lost: once the counter is back at zero every waiting thread has a token, posted or
      owed by a thread that is signalling. A thread that gives up therefore leaves its loop. */
  lemma NoLostWakeup(cfg: Config, n: nat, es: seq<Event>, t: nat)
    requires Runs(cfg, Init(cfg, n), es) && t < n
    requires var s := After(cfg, Init(cfg, n), es);
      s.count >= 0 && t < |s.threads| && Waits(s.threads[t]) == 1
    ensures var s := After(cfg, Init(cfg, n), es);
      s.os > 0 || exists u :: 0 <= u < |s.threads| && s.threads[u].pc.Post?
  {
    InitInv(cfg, n);
    RunInv(cfg, Init(cfg, n), es);
    var s := After(cfg, Init(cfg, n), es);
    assert WaitList(s.threads)[t] == 1;
    SumAtLeast(WaitList(s.threads), t);
    if s.os == 0 {
      var owes := OweList(s.threads);
      if forall i :: 0 <= i < |owes| ==> owes[i] == 0 { SumZero(owes); }
      var u :| 0 <= u < |owes| && owes[u] != 0;
      assert s.threads[u].pc.Post?;
    }
  }

  /** A call returns what it took, at most what it asked for; a wait without a timeout takes something. */
  lemma ReturnsWhatItTook(cfg: Config, n: nat, es: seq<Event>, t: nat)
    requires Runs(cfg, Init(cfg, n), es)
    requires var s := After(cfg, Init(cfg, n), es);
      t < |s.threads| && s.threads[t].pc.Idle?
    ensures var th := After(cfg, Init(cfg, n), es).threads[t];
      th.pc.result == th.got <= th.pc.c.max && (Insists(cfg, th.pc.c) ==> th.pc.result > 0)
  {
    InitInv(cfg, n);
    RunInv(cfg, Init(cfg, n), es);
    assert CallOk(cfg, After(cfg, Init(cfg, n), es).threads[t]);
  }

  /** That max is positive is needed in Insists: waitMany(0) returns 0, which its assert does not allow. */
  lemma WaitManyOfNone(cfg: Config)
    ensures exists es :: Runs(cfg, Init(cfg, 1), es) && Returned(After(cfg, Init(cfg, 1), es), Call(0, true, -1), 0)
  {
    var s0, c := Init(cfg, 1), Call(0, true, -1);
    var s1 := Apply(cfg, s0, Begin(0, c));
    var s2 := Apply(cfg, s1, Go(0, true));
    var es := [Begin(0, c), Go(0, true)];
    assert es[1..] == [Go(0, true)] && [Go(0, true)][1..] == [];
    if cfg.initial == 0 {
      assert Runs(cfg, s2, []) && Runs(cfg, s1, [Go(0, true)]) && After(cfg, s2, []) == s2 && After(cfg, s1, [Go(0, true)]) == s2;
    } else {
      var s3 := Apply(cfg, s2, Go(0, true));
      es := [Begin(0, c), Go(0, true), Go(0, true)];
      assert es[1..] == [Go(0, true), Go(0, true)] && [Go(0, true), Go(0, true)][1..] == [Go(0, true)];
      assert Runs(cfg, s3, []) && Runs(cfg, s2, [Go(0, true)]) && Runs(cfg, s1, [Go(0, true), Go(0, true)]);
      assert After(cfg, s3, []) == s3 && After(cfg, s2, [Go(0, true)]) == s3 && After(cfg, s1, [Go(0, true), Go(0, true)]) == s3;
    }
    assert Runs(cfg, s0, es) && Returned(After(cfg, s0, es), c, 0);
  }

  /** Thread 0 has returned from call c with this result. */
  predicate Returned(s: State, c: Call, result: nat) { 0 < |s.threads| && s.threads[0].pc == Idle(c, result) }

  // ---- a wait in vain --------------------------------------------------------------------------------

  lemma {:induction false} AfterMore(cfg: Config, s: State, es: seq<Event>, e: Event)
    requires Runs(cfg, s, es) && Enabled(cfg, After(cfg, s, es), e)
    ensures Runs(cfg, s, es + [e]) && After(cfg, s, es + [e]) == Apply(cfg, After(cfg, s, es), e)
    decreases |es|
  {
    if es == [] {
      assert [e][1..] == [];
    } else {
      assert (es + [e])[1..] == es[1..] + [e];
      AfterMore(cfg, Apply(cfg, s, es[0]), es[1..], e);
    }
  }

  ghost predicate Reached(cfg: Config, n: nat, s: State) {
    exists es :: Runs(cfg, Init(cfg, n), es) && After(cfg, Init(cfg, n), es) == s
  }

  lemma Do(cfg: Config, n: nat, s: State, e: Event)
    requires Reached(cfg, n, s) && Enabled(cfg, s, e)
    ensures Reached(cfg, n, Apply(cfg, s, e))
  {
    var es :| Runs(cfg, Init(cfg, n), es) && After(cfg, Init(cfg, n), es) == s;
    AfterMore(cfg, Init(cfg, n), es, e);
  }

  /** Thread t has returned nothing from a wait without a timeout for at least one. */
  predicate InVain(s: State, t: nat) {
    && t < |s.threads| && s.threads[t].pc.Idle?
    && var c := s.threads[t].pc.c; c.blocks && c.max > 0 && c.timeout < 0 && s.threads[t].pc.result == 0
  }

  /** Some run has a wait without a timeout return nothing if and only if such a wait of the system may fail. */
  lemma InVainExactly(cfg: Config)
    ensures (exists n, s, t :: Reached(cfg, n, s) && InVain(s, t)) <==> cfg.osFails
  {
    if cfg.osFails {
      var s := UsedUp(cfg);
      s := Waited(cfg, s);
      assert InVain(s, 0);
    }
    forall n, s, t | Reached(cfg, n, s) && InVain(s, t) ensures cfg.osFails {
      var es :| Runs(cfg, Init(cfg, n), es) && After(cfg, Init(cfg, n), es) == s;
      ReturnsWhatItTook(cfg, n, es, t);
    }
  }

  /** Reached with one thread, which is at pc. */
  ghost predicate Alone(cfg: Config, s: State, count: int, pc: Pc) {
    Reached(cfg, 1, s) && |s.threads| == 1 && s.count == count && s.threads[0].pc == pc
  }

  lemma DoAlone(cfg: Config, s: State, luck: bool) returns (s': State)
    requires Reached(cfg, 1, s) && |s.threads| == 1 && Enabled(cfg, s, Go(0, luck))
    ensures s' == Next(cfg, s, 0, luck) && Reached(cfg, 1, s')
  {
    s' := Next(cfg, s, 0, luck);
    Do(cfg, 1, s, Go(0, luck));
  }

  /** The thread takes what the semaphore starts with. */
  lemma UsedUp(cfg: Config) returns (s: State)
    ensures |s.threads| == 1 && s.threads[0].pc.Idle? && Alone(cfg, s, 0, s.threads[0].pc)
  {
    s := Init(cfg, 1);
    assert Runs(cfg, s, []) && After(cfg, s, []) == s;
    if cfg.initial > 0 {
      Do(cfg, 1, s, Begin(0, Call(cfg.initial, false, 0)));
      s := Apply(cfg, s, Begin(0, Call(cfg.initial, false, 0)));
      s := DoAlone(cfg, s, true);
      s := DoAlone(cfg, s, true);
    }
  }

  /** It waits, spins, is refused by the system and gives up. */
  lemma Waited(cfg: Config, s: State) returns (s': State)
    requires cfg.osFails && |s.threads| == 1 && s.threads[0].pc.Idle? && Alone(cfg, s, 0, s.threads[0].pc)
    ensures Alone(cfg, s', 0, Idle(Call(1, true, -1), 0))
  {
    var c := Call(1, true, -1);
    Do(cfg, 1, s, Begin(0, c));
    s' := Apply(cfg, s, Begin(0, c));
    s' := DoAlone(cfg, s', true);
    s' := Spun(cfg, s', c, cfg.maxSpins);
    s' := DoAlone(cfg, s', true);
    s' := DoAlone(cfg, s', true);
    s' := DoAlone(cfg, s', false);
    s' := DoAlone(cfg, s', true);
    s' := DoAlone(cfg, s', true);
  }

  lemma {:induction false} Spun(cfg: Config, s: State, c: Call, left: nat) returns (s': State)
    requires Alone(cfg, s, 0, Spin(c, left))
    ensures Alone(cfg, s', 0, Spin(c, 0))
    decreases left
  {
    s' := s;
    if left > 0 {
      s' := DoAlone(cfg, s, true);
      s' := Spun(cfg, s', c, left - 1);
    }
  }

  // ---- how calls return ------------------------------------------------------------------------------

  /** The call that thread t began last; signal counts as none. */
  function LastCall(es: seq<Event>, t: nat): Call
    decreases |es|
  {
    if es == [] then NONE
    else var e := es[|es| - 1];
      if e.Begin? && e.t == t then e.c else if e.Release? && e.t == t then NONE else LastCall(es[..|es| - 1], t)
  }

  lemma {:induction false} RunFront(cfg: Config, s: State, es: seq<Event>)
    requires Runs(cfg, s, es) && es != []
    ensures var front, e := es[..|es| - 1], es[|es| - 1];
      Runs(cfg, s, front) && Enabled(cfg, After(cfg, s, front), e) && After(cfg, s, es) == Apply(cfg, After(cfg, s, front), e)
    decreases |es|
  {
    var front := es[..|es| - 1];
    if |es| > 1 {
      RunFront(cfg, Apply(cfg, s, es[0]), es[1..]);
      assert front[1..] == es[1..][..|es| - 2] && front[0] == es[0];
    }
  }

  /** In step e the system's wait of thread t gives up. */
  predicate GivesUp(s: State, e: Event, t: nat) { t < |s.threads| && e == Go(t, false) && s.threads[t].pc.Park? }

  /** The system's wait of thread t has given up since t began its last call. */
  ghost predicate GaveUp(cfg: Config, s: State, es: seq<Event>, t: nat)
    requires Runs(cfg, s, es)
    decreases |es|
  {
    es != [] && var front, e := es[..|es| - 1], es[|es| - 1];
      RunFront(cfg, s, es);
      GivesUp(After(cfg, s, front), e, t) || (!((e.Begin? || e.Release?) && e.t == t) && GaveUp(cfg, s, front, t))
  }

  /** The thread works on this call, and has gone below zero in vain if it takes that back. */
  ghost predicate Remembers(pc: Pc, c: Call, gaveUp: bool) {
    match pc
    case Idle(d, result) => d == c && (c.blocks && c.max > 0 && result == 0 ==> gaveUp)
    case Undo(d) => d == c && gaveUp
    case UndoTry(d) => d == c && gaveUp
    case UndoCas(d, _) => d == c && gaveUp
    case Add(_) => c == NONE
    case Post(_) => c == NONE
    case _ => pc.c == c
  }

  lemma StepRemembers(cfg: Config, s: State, e: Event, t: nat, c: Call, gaveUp: bool)
    requires Enabled(cfg, s, e) && t < |s.threads| && Remembers(s.threads[t].pc, c, gaveUp) && CallOk(cfg, s.threads[t])
    ensures |Apply(cfg, s, e).threads| == |s.threads|
    ensures var c' := if e.Begin? && e.t == t then e.c else if e.Release? && e.t == t then NONE else c;
      Remembers(Apply(cfg, s, e).threads[t].pc, c', GivesUp(s, e, t) || (!((e.Begin? || e.Release?) && e.t == t) && gaveUp))
  {}

  lemma {:induction false} RunRemembers(cfg: Config, n: nat, es: seq<Event>, t: nat)
    requires Runs(cfg, Init(cfg, n), es) && t < n
    ensures |After(cfg, Init(cfg, n), es).threads| == n
    ensures Remembers(After(cfg, Init(cfg, n), es).threads[t].pc, LastCall(es, t), GaveUp(cfg, Init(cfg, n), es, t))
    decreases |es|
  {
    if es != [] {
      var front, e := es[..|es| - 1], es[|es| - 1];
      RunFront(cfg, Init(cfg, n), es);
      RunRemembers(cfg, n, front, t);
      InitInv(cfg, n);
      RunInv(cfg, Init(cfg, n), front);
      assert CallOk(cfg, After(cfg, Init(cfg, n), front).threads[t]);
      StepRemembers(cfg, After(cfg, Init(cfg, n), front), e, t, LastCall(front, t), GaveUp(cfg, Init(cfg, n), front, t));
    }
  }

  /** A blocking call for at least one returns nothing only after it has gone below zero and its wait of the
      system has given up; a call that does not block returns nothing only in a step that saw no count. */
  lemma NothingTaken(cfg: Config, n: nat, es: seq<Event>, e: Event)
    requires Runs(cfg, Init(cfg, n), es) && Enabled(cfg, After(cfg, Init(cfg, n), es), e) && e.Go? && e.t < n
    requires var s := After(cfg, Init(cfg, n), es);
      && e.t < |s.threads| && !s.threads[e.t].pc.Idle? && LastCall(es, e.t).max > 0
      && e.t < |Apply(cfg, s, e).threads| && Apply(cfg, s, e).threads[e.t].pc.Idle? && Apply(cfg, s, e).threads[e.t].pc.result == 0
    ensures if LastCall(es, e.t).blocks then GaveUp(cfg, Init(cfg, n), es, e.t) else After(cfg, Init(cfg, n), es).count <= 0
  {
    RunRemembers(cfg, n, es, e.t);
    InitInv(cfg, n);
    RunInv(cfg, Init(cfg, n), es);
    var s := After(cfg, Init(cfg, n), es);
    assert CallOk(cfg, s.threads[e.t]);
    StepRemembers(cfg, s, e, e.t, LastCall(es, e.t), GaveUp(cfg, Init(cfg, n), es, e.t));
  }

  // ---- calls that nobody disturbs ------------------------------------------------------------------------

  lemma RunTwo(cfg: Config, s: State, a: Event, b: Event)
    requires Enabled(cfg, s, a) && Enabled(cfg, Apply(cfg, s, a), b)
    ensures Runs(cfg, s, [a, b]) && After(cfg, s, [a, b]) == Apply(cfg, Apply(cfg, s, a), b)
  {
    assert [a, b][1..] == [b] && [b][1..] == [];
    assert Runs(cfg, Apply(cfg, Apply(cfg, s, a), b), []);
    assert Runs(cfg, Apply(cfg, s, a), [b]) && After(cfg, Apply(cfg, s, a), [b]) == Apply(cfg, Apply(cfg, s, a), b);
  }

  /** A call on a positive count takes as much of it as it asks for and is there, and returns that. */
  lemma TakesAlone(cfg: Config, s: State, t: nat, c: Call)
    requires t < |s.threads| && s.threads[t].pc.Idle? && s.count > 0
    ensures var es, k := [Begin(t, c), Go(t, true), Go(t, true)], if c.max < s.count then c.max else s.count;
      && Runs(cfg, s, es)
      && After(cfg, s, es) ==
           State(s.count - k, s.os, s.threads[t := Thread(Idle(c, k), k)], s.acquired + k, s.signalled)
  {
    RunTwo(cfg, s, Begin(t, c), Go(t, true));
    AfterMore(cfg, s, [Begin(t, c), Go(t, true)], Go(t, true));
    assert [Begin(t, c), Go(t, true)] + [Go(t, true)] == [Begin(t, c), Go(t, true), Go(t, true)];
  }

  /** Without a count, a call that does not block returns nothing, and one that blocks and asks for something
      goes to spin. */
  lemma RefusedAlone(cfg: Config, s: State, t: nat, c: Call)
    requires t < |s.threads| && s.threads[t].pc.Idle? && s.count <= 0
    ensures var es := [Begin(t, c), Go(t, true)];
      && Runs(cfg, s, es)
      && After(cfg, s, es) == s.(threads := s.threads[t := Thread(if c.blocks && c.max > 0 then Spin(c, cfg.maxSpins) else Idle(c, 0), 0)])
  {
    RunTwo(cfg, s, Begin(t, c), Go(t, true));
  }

  /** A spinning call that nobody disturbs registers as a waiter once its spins are used up. */
  lemma {:induction false} ParksAlone(cfg: Config, s: State, t: nat, c: Call, left: nat) returns (es: seq<Event>)
    requires t < |s.threads| && s.threads[t].pc == Spin(c, left) && s.count <= 0
    ensures |es| == left + 2 && Runs(cfg, s, es)
    ensures After(cfg, s, es) == s.(count := s.count - 1, threads := s.threads[t := Thread(Park(c), s.threads[t].got)])
    decreases left
  {
    var s1 := Apply(cfg, s, Go(t, true));
    if left == 0 {
      es := [Go(t, true), Go(t, true)];
      RunTwo(cfg, s, Go(t, true), Go(t, true));
    } else {
      var rest := ParksAlone(cfg, s1, t, c, left - 1);
      es := [Go(t, true)] + rest;
      assert es[1..] == rest;
      assert s1.threads[t := Thread(Park(c), s.threads[t].got)] == s.threads[t := Thread(Park(c), s.threads[t].got)];
    }
  }

  /** signal(n) adds n to the count and posts a token for each waiter, n at most. */
  lemma SignalsAlone(cfg: Config, s: State, t: nat, n: nat) returns (es: seq<Event>)
    requires t < |s.threads| && s.threads[t].pc.Idle?
    ensures Runs(cfg, s, es)
    ensures var k := if s.count >= 0 then 0 else if -s.count < n then -s.count else n;
      After(cfg, s, es) == State(s.count + n, s.os + k, s.threads[t := Thread(Idle(NONE, 0), 0)], s.acquired, s.signalled + n)
  {
    var k := if s.count >= 0 then 0 else if -s.count < n then -s.count else n;
    RunTwo(cfg, s, Release(t, n), Go(t, true));
    var s2 := Apply(cfg, Apply(cfg, s, Release(t, n)), Go(t, true));
    es := [Release(t, n), Go(t, true)];
    if k > 0 {
      var rest := PostsAlone(cfg, s2, t, k);
      Joined(cfg, s, es, rest);
      es := es + rest;
    }
  }

  lemma {:induction false} PostsAlone(cfg: Config, s: State, t: nat, k: nat) returns (es: seq<Event>)
    requires t < |s.threads| && s.threads[t].pc == Post(k) && k > 0
    ensures Runs(cfg, s, es)
    ensures After(cfg, s, es) == s.(os := s.os + k, threads := s.threads[t := Thread(Idle(NONE, 0), s.threads[t].got)])
    decreases k
  {
    var s1 := Apply(cfg, s, Go(t, true));
    var rest: seq<Event> := [];
    if k > 1 { rest := PostsAlone(cfg, s1, t, k - 1); }
    es := [Go(t, true)] + rest;
    assert es[1..] == rest;
    assert s1.threads[t := Thread(Idle(NONE, 0), s.threads[t].got)] == s.threads[t := Thread(Idle(NONE, 0), s.threads[t].got)];
  }

  lemma {:induction false} Joined(cfg: Config, s: State, es: seq<Event>, fs: seq<Event>)
    requires Runs(cfg, s, es) && Runs(cfg, After(cfg, s, es), fs)
    ensures Runs(cfg, s, es + fs) && After(cfg, s, es + fs) == After(cfg, After(cfg, s, es), fs)
    decreases |es|
  {
    if es == [] {
      assert es + fs == fs;
    } else {
      assert (es + fs)[1..] == es[1..] + fs;
      Joined(cfg, Apply(cfg, s, es[0]), es[1..], fs);
    }
  }
}
