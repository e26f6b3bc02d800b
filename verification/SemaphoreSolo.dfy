/** A call of the semaphore that nobody disturbs from some point on: what it takes and when it ends, from wherever it
    has got to. */
module SemaphoreSolo {
  import opened Options
  import opened Semaphore

  /** Thread t goes on to the end of its call, k steps at most; its waits of the system succeed. */
  function Alone(cfg: Config, s: State, t: nat, k: nat): Option<State>
    requires t < |s.threads|
    decreases k
  {
    if s.threads[t].pc.Idle? then Some(s)
    else if k == 0 || !CanGo(cfg, s, s.threads[t].pc, true) then None
    else Alone(cfg, Next(cfg, s, t, true), t, k - 1)
  }

  /** The call has ended; it has taken k more, and the rest is count and os. */
  function Ended(s: State, t: nat, c: Call, k: nat, count: int, os: nat): State
    requires t < |s.threads|
  {
    var got := s.threads[t].got + k;
    State(count, os, s.threads[t := Thread(Idle(c, got), got)], s.acquired + k, s.signalled)
  }

  function Least(a: nat, b: nat): nat { if a < b then a else b }

  /** The call has taken all it may of what the counter has above zero. */
  function TookAll(s: State, t: nat, c: Call): State
    requires t < |s.threads|
  {
    var got := s.threads[t].got;
    var k := Least(if got < c.max then c.max - got else 0, Above(s.count));
    Ended(s, t, c, k, s.count - k, s.os)
  }

  /** Not registered as a waiter, or just about to register. */
  predicate Looks(pc: Pc) { pc.Try? || pc.TryCas? || pc.Spin? || pc.SpinCas? || pc.Sub? }

  /** Registered as a waiter, with a token at hand; one that gives up looks for it once the counter is back at zero. */
  predicate Woken(s: State, pc: Pc) {
    s.os > 0 &&
    match pc
    case Park(c) => c.timeout != 0
    case UndoTry(_) => true
    case Undo(_) => s.count >= 0
    case UndoCas(_, _) => s.count >= 0
    case _ => false
  }

  /** Registered as a waiter whose wait has given up, with nothing to look for. */
  predicate InVain(s: State, pc: Pc) { s.count < 0 && (pc.Undo? || pc.UndoCas? || (pc.UndoTry? && s.os == 0)) }

  /** As before, but a token is still to be posted. */
  predicate Owed(s: State, pc: Pc) { s.count >= 0 && s.os == 0 && (pc.Undo? || pc.UndoTry? || pc.UndoCas?) }

  // ---- looking at the counter ------------------------------------------------------------------------

  lemma LastTry(cfg: Config, s: State, t: nat, k: nat)
    requires t < |s.threads| && CallOk(cfg, s.threads[t]) && s.threads[t].pc.TryCas? && s.threads[t].pc.seen == s.count && k >= 1
    ensures Alone(cfg, s, t, k) == Some(TookAll(s, t, s.threads[t].pc.c))
  {
    assert Alone(cfg, s, t, k) == Alone(cfg, Next(cfg, s, t, true), t, k - 1);
  }

  /** After the first element, or from the start: all that is there. */
  lemma TriesAlone(cfg: Config, s: State, t: nat, k: nat)
    requires t < |s.threads| && CallOk(cfg, s.threads[t]) && (s.threads[t].pc.Try? || s.threads[t].pc.TryCas?) && k >= 2
    requires s.count > 0 || s.threads[t].got > 0
    ensures Alone(cfg, s, t, k) == Some(TookAll(s, t, s.threads[t].pc.c))
  {
    var c := s.threads[t].pc.c;
    if s.threads[t].pc.TryCas? && s.threads[t].pc.seen == s.count {
      LastTry(cfg, s, t, k);
    } else {
      var s1 := Next(cfg, s, t, true);
      assert Alone(cfg, s, t, k) == Alone(cfg, s1, t, k - 1);
      if s.count > 0 { LastTry(cfg, s1, t, k - 1); }
      assert TookAll(s1, t, c).threads == TookAll(s, t, c).threads;
    }
  }

  /** The registration finds a count after all: it takes one, and tries for the rest. */
  lemma SubAlone(cfg: Config, s: State, t: nat, k: nat)
    requires t < |s.threads| && CallOk(cfg, s.threads[t]) && s.threads[t].pc.Sub? && s.count > 0 && k >= 3
    ensures Alone(cfg, s, t, k) == Some(TookAll(s, t, s.threads[t].pc.c))
  {
    var c, s1 := s.threads[t].pc.c, Next(cfg, s, t, true);
    assert Alone(cfg, s, t, k) == Alone(cfg, s1, t, k - 1);
    if c.max > 1 { TriesAlone(cfg, s1, t, k - 1); }
    assert TookAll(s1, t, c).threads == TookAll(s, t, c).threads;
  }

  lemma SpinAlone(cfg: Config, s: State, t: nat, k: nat)
    requires t < |s.threads| && CallOk(cfg, s.threads[t]) && s.threads[t].pc.Spin? && s.count > 0 && k >= 4
    ensures Alone(cfg, s, t, k) == Some(TookAll(s, t, s.threads[t].pc.c))
  {
    var c, s1 := s.threads[t].pc.c, Next(cfg, s, t, true);
    assert Alone(cfg, s, t, k) == Alone(cfg, s1, t, k - 1);
    if s.threads[t].pc.left == 0 {
      SubAlone(cfg, s1, t, k - 1);
    } else {
      assert Alone(cfg, s1, t, k - 1) == Alone(cfg, Next(cfg, s1, t, true), t, k - 2);
    }
    assert TookAll(s1, t, c).threads == TookAll(s, t, c).threads;
  }

  /** On a positive count a call that is not yet a waiter takes as much as it asks for and is there. */
  lemma TakesFrom(cfg: Config, s: State, t: nat)
    requires t < |s.threads| && CallOk(cfg, s.threads[t]) && Looks(s.threads[t].pc) && s.count > 0
    ensures Alone(cfg, s, t, 5) == Some(TookAll(s, t, s.threads[t].pc.c))
  {
    var pc := s.threads[t].pc;
    if pc.Sub? {
      SubAlone(cfg, s, t, 5);
    } else if pc.Spin? {
      SpinAlone(cfg, s, t, 5);
    } else if pc.SpinCas? {
      var s1 := Next(cfg, s, t, true);
      assert Alone(cfg, s, t, 5) == Alone(cfg, s1, t, 4);
      if s.count != pc.seen { SpinAlone(cfg, s1, t, 4); }
      assert TookAll(s1, t, pc.c).threads == TookAll(s, t, pc.c).threads;
    } else {
      TriesAlone(cfg, s, t, 5);
    }
  }

  // ---- waiters ---------------------------------------------------------------------------------------

  /** The token taken, and what a call for more finds in the counter. */
  function WithToken(s: State, t: nat, c: Call): State
    requires t < |s.threads|
  {
    var k := Least(if c.max > 1 then c.max - 1 else 0, Above(s.count));
    Ended(s, t, c, 1 + k, s.count - k, if s.os > 0 then s.os - 1 else 0)
  }

  lemma TokenAlone(cfg: Config, s: State, t: nat, k: nat)
    requires t < |s.threads| && CallOk(cfg, s.threads[t]) && (s.threads[t].pc.Park? || s.threads[t].pc.UndoTry?) && Woken(s, s.threads[t].pc) && k >= 3
    ensures Alone(cfg, s, t, k) == Some(WithToken(s, t, s.threads[t].pc.c))
  {
    var c, s1 := s.threads[t].pc.c, Next(cfg, s, t, true);
    assert Alone(cfg, s, t, k) == Alone(cfg, s1, t, k - 1);
    if c.max > 1 { TriesAlone(cfg, s1, t, k - 1); }
    assert TookAll(s1, t, c).threads == WithToken(s, t, c).threads;
  }

  /** A waiter for whom there is a token takes it, and then as much of the counter as it may; also one that is
      giving up, if the counter is back at zero. */
  lemma WakesFrom(cfg: Config, s: State, t: nat)
    requires t < |s.threads| && CallOk(cfg, s.threads[t]) && Woken(s, s.threads[t].pc)
    ensures Alone(cfg, s, t, 5) == Some(WithToken(s, t, s.threads[t].pc.c))
  {
    var c := s.threads[t].pc.c;
    if s.threads[t].pc.Park? || s.threads[t].pc.UndoTry? {
      TokenAlone(cfg, s, t, 5);
    } else {
      var s1 := Next(cfg, s, t, true);
      assert Alone(cfg, s, t, 5) == Alone(cfg, s1, t, 4);
      if s.threads[t].pc.UndoCas? {
        var s2 := Next(cfg, s1, t, true);
        assert Alone(cfg, s1, t, 4) == Alone(cfg, s2, t, 3);
        TokenAlone(cfg, s2, t, 3);
        assert WithToken(s2, t, c).threads == WithToken(s, t, c).threads;
      } else {
        TokenAlone(cfg, s1, t, 4);
        assert WithToken(s1, t, c).threads == WithToken(s, t, c).threads;
      }
    }
  }

  /** A waiter that gives up while the counter is below zero takes its registration back and returns nothing. */
  lemma GivesUpFrom(cfg: Config, s: State, t: nat)
    requires t < |s.threads| && CallOk(cfg, s.threads[t]) && InVain(s, s.threads[t].pc)
    ensures Alone(cfg, s, t, 4) == Some(Ended(s, t, s.threads[t].pc.c, 0, s.count + 1, s.os))
  {
    var c, s1 := s.threads[t].pc.c, Next(cfg, s, t, true);
    assert Alone(cfg, s, t, 4) == Alone(cfg, s1, t, 3);
    if !s1.threads[t].pc.Idle? {
      var s2 := Next(cfg, s1, t, true);
      assert Alone(cfg, s1, t, 3) == Alone(cfg, s2, t, 2);
      if !s2.threads[t].pc.Idle? { assert Alone(cfg, s2, t, 2) == Alone(cfg, Next(cfg, s2, t, true), t, 1); }
      assert Ended(s2, t, c, 0, s.count + 1, s.os).threads == Ended(s, t, c, 0, s.count + 1, s.os).threads;
    }
    assert Ended(s1, t, c, 0, s.count + 1, s.os).threads == Ended(s, t, c, 0, s.count + 1, s.os).threads;
  }

  /** A waiter that gives up while a token is still to be posted goes round until it is. */
  lemma {:induction false} GoesRound(cfg: Config, s: State, t: nat, k: nat)
    requires t < |s.threads| && CallOk(cfg, s.threads[t]) && Owed(s, s.threads[t].pc)
    ensures Alone(cfg, s, t, k) == None
    decreases k
  {
    if k > 0 { GoesRound(cfg, Next(cfg, s, t, true), t, k - 1); }
  }
}
