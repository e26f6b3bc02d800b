/** An access to the cache that nobody disturbs and whose requests are granted: it returns with success, the tag's
    line allows the access, and nothing else has changed. */
module CacheSolo {
  import opened Options
  import opened CacheState
  import opened CacheSteps
  import opened CacheInv
  import opened CacheScript

  // ---- steps of one thread ---------------------------------------------------------------------------

  ghost predicate Path(c: Config, u: nat, ss: seq<State>, inps: seq<Input>)
    requires c.Valid()
  {
    |ss| == |inps| + 1 && forall k {:trigger inps[k]} :: 0 <= k < |inps| ==> AppNext(c, ss[k], u, inps[k], ss[k + 1])
  }

  /** Steps of thread u alone lead from s0 to s. */
  ghost predicate Alone(c: Config, u: nat, s0: State, s: State)
    requires c.Valid()
  {
    exists ss, inps :: Path(c, u, ss, inps) && ss[0] == s0 && ss[|inps|] == s
  }

  ghost function AloneFrom(c: Config, u: nat, s0: State): State -> bool
    requires c.Valid()
  {
    (s: State) => c.Valid() && Alone(c, u, s0, s)
  }

  lemma AloneCloses(c: Config, u: nat, s0: State)
    requires c.Valid()
    ensures Closed(c, AloneFrom(c, u, s0), u) && Alone(c, u, s0, s0)
  {
    var P := AloneFrom(c, u, s0);
    forall s, inp, s' | P(s) && AppNext(c, s, u, inp, s') ensures P(s') {
      var ss, inps :| Path(c, u, ss, inps) && ss[0] == s0 && ss[|inps|] == s;
      var ss', inps' := ss + [s'], inps + [inp];
      forall k | 0 <= k < |inps'| ensures AppNext(c, ss'[k], u, inps'[k], ss'[k + 1]) {
        if k < |inps| { assert AppNext(c, ss[k], u, inps[k], ss[k + 1]); }
      }
      assert Path(c, u, ss', inps');
    }
    assert Path(c, u, [s0], []);
  }

  // ---- the access ------------------------------------------------------------------------------------

  /** Nobody is at work in the set of t: its lock is free, its main lines are free or stable, and its shadow lines
      are free. */
  ghost predicate CalmFor(c: Config, s: State, t: Tag)
    requires c.Valid()
  {
    && (forall h :: LockOf(s.locks, h) == OPEN)
    && (forall j :: 0 <= j < c.width ==> Calm(At(s.lines, Slot(false, c.home(t), j))))
    && (forall j :: 0 <= j < c.width ==> var q := At(s.lines, Slot(true, c.home(t), j)); q.st == Preserved && q.lock == FREE)
  }

  /** The thread can begin an access, and has no eviction to start or to wait for. */
  predicate Rested(a: App) { a.pc == Idle && !a.evict.startNext && !a.evict.wait && a.evict.stash == None }

  predicate HeldAt(c: Config, lines: Lines, t: Tag, w: nat) { w < c.width && At(lines, Slot(false, c.home(t), w)).Holds(t) }

  ghost predicate Held(c: Config, lines: Lines, t: Tag) { exists w :: HeldAt(c, lines, t, w) }

  /** The access has been served by the main line of way w: it holds the tag in a status that allows the access, its
      own if that did; only this line and its shadow slot, which is free again, have changed; a line that held the
      tag has kept its buffer; and no line is given up while another is free. */
  ghost predicate Served(c: Config, s: State, s': State, access: Access, t: Tag, w: nat) {
    var p, q := Slot(false, c.home(t), w), Slot(true, c.home(t), w);
    var l, l' := At(s.lines, p), At(s'.lines, p);
    && w < c.width && l'.Holds(t) && Calm(l') && At(s'.lines, q).st == Preserved && At(s'.lines, q).lock == FREE
    && l'.st == (if l.Holds(t) && Suffices(access, l.st) then l.st else if access == Read then Shared else Modified)
    && (forall r :: r != p && r != q ==> At(s'.lines, r) == At(s.lines, r))
    && (Held(c, s.lines, t) ==> l.Holds(t) && l'.data == l.data)
    && ((exists j :: 0 <= j < c.width && Free(c, s.lines, c.home(t), j)) && !Held(c, s.lines, t) ==> Free(c, s.lines, c.home(t), w))
  }

  /** The thread has returned with success, and has no eviction pending that it had not before. */
  predicate Back(a: App, a': App, access: Access, t: Tag) {
    && Rested(a') && a'.succ && a'.access == access && a'.t == t && a'.pool.pend == a.pool.pend
    && |a'.pool.stack| + |a'.pool.fills| == |a.pool.stack| + |a.pool.fills|
  }

  lemma HeldFound(c: Config, s: State, t: Tag, w: nat)
    requires c.Valid() && Inv(c, s) && CalmFor(c, s, t) && HeldAt(c, s.lines, t, w)
    ensures FoundAt(c, s.lines, t, w)
  {
    var p := Slot(false, c.home(t), w);
    assert LockOf(s.locks, c.home(t)) == OPEN;
    forall j | 0 <= j < w ensures !At(s.lines, Slot(false, c.home(t), j)).Holds(t) {
      var q := Slot(false, c.home(t), j);
      if At(s.lines, q).Holds(t) { assert Live(s.locks, p, At(s.lines, p)) && Live(s.locks, q, At(s.lines, q)); }
    }
  }

  /** The tag is in the cache, in a status that allows the access. */
  lemma SoloHit(c: Config, s: State, u: nat, a: App, access: Access, t: Tag, w: nat) returns (s': State)
    requires c.Valid() && CalmFor(c, s, t) && u in s.apps && s.apps[u] == a && Rested(a)
    requires FoundAt(c, s.lines, t, w) && Suffices(access, At(s.lines, Slot(false, c.home(t), w)).st)
    ensures Alone(c, u, s, s') && Served(c, s, s', access, t, w) && u in s'.apps && Back(a, s'.apps[u], access, t)
  {
    var P := AloneFrom(c, u, s);
    AloneCloses(c, u, s);
    assert HeldAt(c, s.lines, t, w);
    s' := HitAccess(c, P, s, u, a, access, t, w);
  }

  /** The tag is in the cache, in a status that does not allow the access: the request is granted. */
  lemma SoloMiss(c: Config, s: State, u: nat, a: App, access: Access, t: Tag, w: nat) returns (s': State)
    requires c.Valid() && CalmFor(c, s, t) && u in s.apps && s.apps[u] == a && Rested(a)
    requires FoundAt(c, s.lines, t, w) && !Suffices(access, At(s.lines, Slot(false, c.home(t), w)).st)
    ensures Alone(c, u, s, s') && Served(c, s, s', access, t, w) && u in s'.apps && Back(a, s'.apps[u], access, t)
  {
    var P := AloneFrom(c, u, s);
    AloneCloses(c, u, s);
    assert HeldAt(c, s.lines, t, w);
    s' := MissAccess(c, P, s, u, a, access, t, w);
  }

  lemma NoneHeld(c: Config, s: State, t: Tag)
    requires c.Valid() && CalmFor(c, s, t) && !Held(c, s.lines, t)
    ensures NoTag(s.lines, c.home(t), t, c.width) && CalmSet(c, s.lines, c.home(t))
  {
    forall j | 0 <= j < c.width
      ensures !At(s.lines, Slot(false, c.home(t), j)).Holds(t) && !At(s.lines, Slot(true, c.home(t), j)).Holds(t)
    {
      assert !HeldAt(c, s.lines, t, j);
    }
  }

  /** A free line is not among those that a thread was the first to fill. */
  lemma FreshFill(c: Config, s: State, u: nat, p: Slot)
    requires c.Valid() && Inv(c, s) && u in s.apps && !At(s.lines, p).Used()
    ensures p !in s.apps[u].pool.fills && p !in s.apps[u].pool.pend
  {
    assert AppOk(c, s.lines, s.locks, u, s.apps[u]);
    assert LineOk(c, p, At(s.lines, p));
  }

  /** No free line is among those that the thread was the first to fill. */
  ghost predicate FillsUsed(lines: Lines, a: App) { forall p :: !At(lines, p).Used() ==> p !in a.pool.fills }

  lemma NoneFilled(c: Config, s: State, u: nat)
    requires c.Valid() && Inv(c, s) && u in s.apps
    ensures FillsUsed(s.lines, s.apps[u])
  {
    forall p | !At(s.lines, p).Used() ensures p !in s.apps[u].pool.fills { FreshFill(c, s, u, p); }
  }

  /** The tag is not in the cache and a line of its set is free: the line is filled and fetched. */
  lemma SoloFill(c: Config, s: State, u: nat, a: App, access: Access, t: Tag) returns (s': State, w: nat)
    requires c.Valid() && CalmFor(c, s, t) && u in s.apps && s.apps[u] == a && Rested(a) && |a.pool.stack| > 0 && FillsUsed(s.lines, a)
    requires !Held(c, s.lines, t) && exists j :: 0 <= j < c.width && Free(c, s.lines, c.home(t), j)
    ensures Alone(c, u, s, s') && Served(c, s, s', access, t, w) && u in s'.apps && Back(a, s'.apps[u], access, t)
  {
    AloneCloses(c, u, s);
    NoneHeld(c, s, t);
    s', w := FillAccess(c, AloneFrom(c, u, s), s, u, a, access, t);
    assert !At(s.lines, Slot(false, c.home(t), w)).Used();
  }

  /** The scan has found no free line: it has found one to move. */
  lemma MovableFound(c: Config, s: State, t: Tag, av: Option<nat>, ev: Option<nat>)
    requires c.Valid() && CalmFor(c, s, t) && c.width > 0 && Scanned(c, s.lines, c.home(t), c.width, av, ev)
    requires forall j :: 0 <= j < c.width ==> !Free(c, s.lines, c.home(t), j)
    ensures av == None && ev.Some? && ev.value < c.width && Movable(c, s.lines, c.home(t), ev.value)
  {
    assert !Free(c, s.lines, c.home(t), 0);
    assert Movable(c, s.lines, c.home(t), 0);
  }

  /** The tag is not in the cache and its set is full: a line is re-tagged, or moved out and its eviction awaited. */
  lemma SoloReplace(c: Config, s: State, u: nat, a: App, access: Access, t: Tag) returns (s': State, w: nat)
    requires c.Valid() && Inv(c, s) && CalmFor(c, s, t) && u in s.apps && s.apps[u] == a && Rested(a) && |a.pool.stack| > 0
    requires !Held(c, s.lines, t) && c.width > 0 && forall j :: 0 <= j < c.width ==> !Free(c, s.lines, c.home(t), j)
    ensures Alone(c, u, s, s') && Served(c, s, s', access, t, w) && u in s'.apps && Back(a, s'.apps[u], access, t)
  {
    AloneCloses(c, u, s);
    NoneHeld(c, s, t);
    var av, ev;
    var s1 := s;
    s1, av, ev := Search(c, AloneFrom(c, u, s), s, u, a, access, t);
    MovableFound(c, s, t, av, ev);
    w := ev.value;
    if At(s.lines, Slot(false, c.home(t), w)).st == Invalid {
      s' := Retagged(c, s, s1, u, a, access, t, w);
    } else {
      FreshFill(c, s, u, Slot(true, c.home(t), w));
      assert LineOk(c, Slot(false, c.home(t), w), At(s.lines, Slot(false, c.home(t), w)));
      s' := Evicted(c, s, s1, u, a, access, t, w);
    }
  }

  lemma Retagged(c: Config, s: State, s1: State, u: nat, a: App, access: Access, t: Tag, w: nat) returns (s': State)
    requires c.Valid() && CalmFor(c, s, t) && Rested(a) && !Held(c, s.lines, t) && w < c.width
    requires On(c, AloneFrom(c, u, s), s1, u, Searched(c, a, access, t, None, Some(w)), WrittenBy(u)) && Moved(s, s1, u)
    requires At(s.lines, Slot(false, c.home(t), w)).st == Invalid && forall j :: 0 <= j < c.width ==> !Free(c, s.lines, c.home(t), j)
    ensures Alone(c, u, s, s') && Served(c, s, s', access, t, w) && u in s'.apps && Back(a, s'.apps[u], access, t)
  {
    NoneHeld(c, s, t);
    var d := Searched(c, a, access, t, None, Some(w));
    s' := RetagLine(c, AloneFrom(c, u, s), s1, u, d, None, w);
    NewFound(c, s, s', u, t, w);
    s' := FetchNew(c, AloneFrom(c, u, s), s', u, d.Go(Tail(true)), w);
  }

  lemma Evicted(c: Config, s: State, s1: State, u: nat, a: App, access: Access, t: Tag, w: nat) returns (s': State)
    requires c.Valid() && CalmFor(c, s, t) && Rested(a) && !Held(c, s.lines, t) && w < c.width
    requires On(c, AloneFrom(c, u, s), s1, u, Searched(c, a, access, t, None, Some(w)), WrittenBy(u)) && Moved(s, s1, u)
    requires var m := At(s.lines, Slot(false, c.home(t), w)); (m.st == Shared || m.st == Modified) && m.data.Some?
    requires Slot(true, c.home(t), w) !in a.pool.pend
    requires |a.pool.stack| > 0 && forall j :: 0 <= j < c.width ==> !Free(c, s.lines, c.home(t), j)
    ensures Alone(c, u, s, s') && Served(c, s, s', access, t, w) && u in s'.apps && Back(a, s'.apps[u], access, t)
  {
    var p, m := Slot(true, c.home(t), w), Slot(false, c.home(t), w);
    NoneHeld(c, s, t);
    s' := MoveAccess(c, AloneFrom(c, u, s), s1, u, a, access, t, w);
    assert a.pool.pend + {p} - {p} == a.pool.pend;
  }

  /** An access that nobody disturbs, in a calm set, whose requests are granted, returns with success; the tag's line
      then allows the access, and nothing else has changed. A tag that the cache does not hold needs a buffer. */
  lemma SoloAccess(c: Config, s: State, u: nat, access: Access, t: Tag) returns (s': State, w: nat)
    requires c.Valid() && Inv(c, s) && CalmFor(c, s, t) && u in s.apps && Rested(s.apps[u])
    requires !Held(c, s.lines, t) ==> c.width > 0 && |s.apps[u].pool.stack| > 0
    ensures Alone(c, u, s, s') && Served(c, s, s', access, t, w) && u in s'.apps && Back(s.apps[u], s'.apps[u], access, t)
  {
    if Held(c, s.lines, t) {
      w :| HeldAt(c, s.lines, t, w);
      HeldFound(c, s, t, w);
      if Suffices(access, At(s.lines, Slot(false, c.home(t), w)).st) {
        s' := SoloHit(c, s, u, s.apps[u], access, t, w);
      } else {
        s' := SoloMiss(c, s, u, s.apps[u], access, t, w);
      }
    } else if exists j :: 0 <= j < c.width && Free(c, s.lines, c.home(t), j) {
      NoneFilled(c, s, u);
      s', w := SoloFill(c, s, u, s.apps[u], access, t);
    } else {
      s', w := SoloReplace(c, s, u, s.apps[u], access, t);
    }
  }
}
