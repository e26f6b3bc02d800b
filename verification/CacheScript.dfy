/** Scenes from which runs of the cache are put together: a thread looks a tag up, takes a free line,
    moves a line out, fetches or hits a line, and sends an eviction, while all others stand still. */
module CacheScript {
  import opened Options
  import opened CacheState
  import opened CacheSteps
  import opened CacheInv
  import opened CacheOwnProof

  const OPEN: SetLock := SetLock(FREE, None)

  function ReadBy(u: nat): SetLock { SetLock(RW(None, {AppId(u)}), None) }

  function WrittenBy(u: nat): SetLock { SetLock(RW(Some(AppId(u)), {}), None) }

  /** P goes on to hold as thread u moves. */
  ghost predicate Closed(c: Config, P: State -> bool, u: nat)
    requires c.Valid()
  {
    forall s, inp, s' {:trigger P(s), AppNext(c, s, u, inp, s')} :: P(s) && AppNext(c, s, u, inp, s') ==> P(s')
  }

  /** The lock of set h is k, and those of the other sets are free. */
  ghost predicate OnlyLock(locks: Locks, h: nat, k: SetLock) {
    LockOf(locks, h) == k && forall g :: g != h ==> LockOf(locks, g) == OPEN
  }

  /** Thread u is at a; the set of its tag has lock k. */
  ghost predicate On(c: Config, P: State -> bool, s: State, u: nat, a: App, k: SetLock)
    requires c.Valid()
  {
    Closed(c, P, u) && P(s) && u in s.apps && s.apps[u] == a && OnlyLock(s.locks, c.home(a.t), k)
  }

  /** Thread u has moved to a, and line p has become l. */
  ghost predicate Writes(s: State, s': State, u: nat, p: Slot, l: Line) {
    && At(s'.lines, p) == l && (forall q :: q != p ==> At(s'.lines, q) == At(s.lines, q))
    && Stood(s, s', u)
  }

  /** Only thread u has moved. */
  ghost predicate Stood(s: State, s': State, u: nat) {
    && u in s'.apps && s'.apps.Keys == s.apps.Keys && s'.agents == s.agents
    && forall v {:trigger s'.apps[v]} :: v in s.apps && v != u ==> s'.apps[v] == s.apps[v]
  }

  /** Only thread u has moved, and no line has changed. */
  ghost predicate Moved(s: State, s': State, u: nat) { s'.lines == s.lines && Stood(s, s', u) }

  function LockAfter(e: Effect, k: SetLock): SetLock { if e.lk.Some? then e.lk.value.1 else k }

  /** The effect is on the set of tag t, and is the only thing that happens. */
  predicate InSet(c: Config, t: Tag, r: AppStep) {
    r.Moves? && r.a.t == t && (r.e.lk.Some? ==> r.e.lk.value.0 == c.home(t))
  }

  lemma Do(c: Config, P: State -> bool, s: State, u: nat, inp: Input, a: App, k: SetLock) returns (s': State)
    requires c.Valid() && On(c, P, s, u, a, k) && InSet(c, a.t, AppMove(c, s, u, a, inp))
    ensures var r := AppMove(c, s, u, a, inp);
      && s'.lines == (if r.e.wr.Some? then s.lines[r.e.wr.value.0 := r.e.wr.value.1] else s.lines)
      && Stood(s, s', u) && On(c, P, s', u, r.a, LockAfter(r.e, k))
  {
    var r := AppMove(c, s, u, a, inp);
    s' := After(s, u, r.a, r.e);
    assert AppNext(c, s, u, inp, s');
    forall g | g != c.home(a.t) ensures LockOf(s'.locks, g) == OPEN { assert LockOf(s.locks, g) == OPEN; }
  }

  // ---- looking up ------------------------------------------------------------------------------------

  lemma Called(c: Config, P: State -> bool, s: State, u: nat, a: App, access: Access, t: Tag) returns (s': State)
    requires c.Valid() && On(c, P, s, u, a, OPEN) && a.pc == Idle
    ensures On(c, P, s', u, a.(access := access, t := t, succ := false, pc := Evict(EvStart, false)), OPEN) && Moved(s, s', u)
  {
    var r := AppMove(c, s, u, a, Call(access, t));
    s' := After(s, u, r.a, r.e);
    assert AppNext(c, s, u, Call(access, t), s');
    forall g ensures LockOf(s'.locks, g) == OPEN { assert g != c.home(a.t) ==> LockOf(s.locks, g) == OPEN; }
  }

  /** An idle thread begins an access to tag t. */
  lemma Begin(c: Config, P: State -> bool, s: State, u: nat, a: App, access: Access, t: Tag) returns (s': State)
    requires c.Valid() && On(c, P, s, u, a, OPEN) && a.pc == Idle && !a.evict.startNext
    ensures On(c, P, s', u, a.(access := access, t := t, succ := false, pc := Find(RLockSet)), OPEN) && Moved(s, s', u)
  {
    s' := Called(c, P, s, u, a, access, t);
    s' := Do(c, P, s', u, Tau, a.(access := access, t := t, succ := false, pc := Evict(EvStart, false)), OPEN);
  }

  lemma EnterSet(c: Config, P: State -> bool, s: State, u: nat, a: App) returns (s': State)
    requires c.Valid() && On(c, P, s, u, a, OPEN) && a.pc == Find(RLockSet)
    ensures On(c, P, s', u, a.Go(Find(FindMain(0))), ReadBy(u)) && Moved(s, s', u)
  {
    s' := Do(c, P, s, u, Tau, a, OPEN);
    assert FREE.readers + {AppId(u)} == {AppId(u)};
  }

  /** No main line from way i on holds the tag. */
  lemma {:induction false} PassMain(c: Config, P: State -> bool, s: State, u: nat, a: App, i: nat) returns (s': State)
    requires c.Valid() && On(c, P, s, u, a, ReadBy(u)) && a.pc == Find(FindMain(i)) && i <= c.width
    requires forall j :: i <= j < c.width ==> !At(s.lines, Slot(false, c.home(a.t), j)).Holds(a.t)
    ensures On(c, P, s', u, a.Go(Find(FindShadow(0, None))), ReadBy(u)) && Moved(s, s', u)
    decreases c.width - i
  {
    s' := Do(c, P, s, u, Tau, a, ReadBy(u));
    if i < c.width { s' := PassMain(c, P, s', u, a.Go(Find(FindMain(i + 1))), i + 1); }
  }

  /** The main line of way w is the first from way i on to hold the tag. */
  lemma {:induction false} FindMainLine(c: Config, P: State -> bool, s: State, u: nat, a: App, i: nat, w: nat) returns (s': State)
    requires c.Valid() && On(c, P, s, u, a, ReadBy(u)) && a.pc == Find(FindMain(i)) && i <= w < c.width
    requires forall j :: i <= j < w ==> !At(s.lines, Slot(false, c.home(a.t), j)).Holds(a.t)
    requires At(s.lines, Slot(false, c.home(a.t), w)).Holds(a.t)
    ensures On(c, P, s', u, a.Go(Find(FindShadow(0, Some(w)))), ReadBy(u)) && Moved(s, s', u)
    decreases w - i
  {
    s' := Do(c, P, s, u, Tau, a, ReadBy(u));
    if i < w { s' := FindMainLine(c, P, s', u, a.Go(Find(FindMain(i + 1))), i + 1, w); }
  }

  lemma {:induction false} PassShadow(c: Config, P: State -> bool, s: State, u: nat, a: App, i: nat, m: Option<nat>) returns (s': State)
    requires c.Valid() && On(c, P, s, u, a, ReadBy(u)) && a.pc == Find(FindShadow(i, m)) && i <= c.width
    requires forall j :: i <= j < c.width ==> !At(s.lines, Slot(true, c.home(a.t), j)).Holds(a.t)
    ensures On(c, P, s', u, a.Go(Find(Decide(m, None))), ReadBy(u)) && Moved(s, s', u)
    decreases c.width - i
  {
    s' := Do(c, P, s, u, Tau, a, ReadBy(u));
    if i < c.width { s' := PassShadow(c, P, s', u, a.Go(Find(FindShadow(i + 1, m))), i + 1, m); }
  }

  lemma LeaveSet(c: Config, P: State -> bool, s: State, u: nat, a: App, next: Then) returns (s': State)
    requires c.Valid() && On(c, P, s, u, a, ReadBy(u)) && a.pc == Find(RUnlockSet(next))
    requires next == ToNew || next.ToHit?
    ensures On(c, P, s', u, a.Go(if next == ToNew then New(WLockSet) else Touch(next.q, true, LockLine)), OPEN) && Moved(s, s', u)
  {
    s' := Do(c, P, s, u, Tau, a, ReadBy(u));
    assert ReadBy(u).rw.readers - {AppId(u)} == {};
  }

  /** No line of the set holds the tag: the thread goes to newLine. */
  lemma LookNone(c: Config, P: State -> bool, s: State, u: nat, a: App) returns (s': State)
    requires c.Valid() && On(c, P, s, u, a, OPEN) && a.pc == Find(RLockSet)
    requires NoTag(s.lines, c.home(a.t), a.t, c.width)
    ensures On(c, P, s', u, a.Go(New(WLockSet)), OPEN) && Moved(s, s', u)
  {
    s' := EnterSet(c, P, s, u, a);
    s' := PassMain(c, P, s', u, a.Go(Find(FindMain(0))), 0);
    s' := PassShadow(c, P, s', u, a.Go(Find(FindShadow(0, None))), 0, None);
    s' := Do(c, P, s', u, Tau, a.Go(Find(Decide(None, None))), ReadBy(u));
    s' := LeaveSet(c, P, s', u, a.Go(Find(RUnlockSet(ToNew))), ToNew);
  }

  /** Only the main line of way w holds the tag. */
  ghost predicate FoundAt(c: Config, lines: Lines, t: Tag, w: nat) {
    && w < c.width && At(lines, Slot(false, c.home(t), w)).Holds(t)
    && (forall j :: 0 <= j < w ==> !At(lines, Slot(false, c.home(t), j)).Holds(t))
    && (forall j :: 0 <= j < c.width ==> !At(lines, Slot(true, c.home(t), j)).Holds(t))
  }

  lemma LookFound(c: Config, P: State -> bool, s: State, u: nat, a: App, w: nat) returns (s': State)
    requires c.Valid() && On(c, P, s, u, a, OPEN) && a.pc == Find(RLockSet) && FoundAt(c, s.lines, a.t, w)
    ensures On(c, P, s', u, a.Go(Find(Decide(Some(w), None))), ReadBy(u)) && Moved(s, s', u)
  {
    s' := EnterSet(c, P, s, u, a);
    s' := FindMainLine(c, P, s', u, a.Go(Find(FindMain(0))), 0, w);
    s' := PassShadow(c, P, s', u, a.Go(Find(FindShadow(0, Some(w)))), 0, Some(w));
  }

  // ---- hits and misses -------------------------------------------------------------------------------

  /** The statuses that allow an access: MODIFIED, and SHARED for a read. */
  predicate Suffices(access: Access, st: Status) { st.Modified? || (access == Read && st.Shared?) }

  /** The thread reads or writes the bytes of a main line whose status allows it. */
  lemma TouchLine(c: Config, P: State -> bool, s: State, u: nat, a: App, p: Slot, hit: bool) returns (s': State)
    requires c.Valid() && On(c, P, s, u, a, OPEN) && a.pc == Touch(p, hit, LockLine) && !p.shadow
    requires Suffices(a.access, At(s.lines, p).st) && At(s.lines, p).lock == FREE
    ensures On(c, P, s', u, a.(succ := true, pc := Tail(hit)), OPEN) && Writes(s, s', u, p, At(s.lines, p))
  {
    s' := TakeLine(c, P, s, u, a, p, hit);
    s' := CheckLine(c, P, s', u, a.Go(Touch(p, hit, Check1)), p, hit);
    s' := LetGo(c, P, s', u, a.Go(Touch(p, hit, UnlockLine(true))), p, hit);
  }

  lemma TakeLine(c: Config, P: State -> bool, s: State, u: nat, a: App, p: Slot, hit: bool) returns (s': State)
    requires c.Valid() && On(c, P, s, u, a, OPEN) && a.pc == Touch(p, hit, LockLine) && !p.shadow && At(s.lines, p).lock == FREE
    ensures On(c, P, s', u, a.Go(Touch(p, hit, Check1)), OPEN)
    ensures Writes(s, s', u, p, At(s.lines, p).(lock := if a.access == Read then RW(None, {AppId(u)}) else RW(Some(AppId(u)), {})))
  {
    s' := Do(c, P, s, u, Tau, a, OPEN);
    assert FREE.readers + {AppId(u)} == {AppId(u)};
  }

  lemma CheckLine(c: Config, P: State -> bool, s: State, u: nat, a: App, p: Slot, hit: bool) returns (s': State)
    requires c.Valid() && On(c, P, s, u, a, OPEN) && a.pc == Touch(p, hit, Check1) && Suffices(a.access, At(s.lines, p).st)
    ensures On(c, P, s', u, a.Go(Touch(p, hit, UnlockLine(true))), OPEN) && Moved(s, s', u)
  {
    s' := Do(c, P, s, u, Tau, a, OPEN);
    if a.access == Read && At(s.lines, p).st.Modified? { s' := Do(c, P, s', u, Tau, a.Go(Touch(p, hit, Check2)), OPEN); }
  }

  lemma LetGo(c: Config, P: State -> bool, s: State, u: nat, a: App, p: Slot, hit: bool) returns (s': State)
    requires c.Valid() && On(c, P, s, u, a, OPEN) && a.pc == Touch(p, hit, UnlockLine(true)) && !p.shadow
    requires At(s.lines, p).lock == if a.access == Read then RW(None, {AppId(u)}) else RW(Some(AppId(u)), {})
    ensures On(c, P, s', u, a.(succ := true, pc := Tail(hit)), OPEN) && Writes(s, s', u, p, At(s.lines, p).(lock := FREE))
  {
    s' := Do(c, P, s, u, Tau, a, OPEN);
    assert {AppId(u)} - {AppId(u)} == {};
  }

  /** An access to a main line whose status allows it. */
  lemma Hit(c: Config, P: State -> bool, s: State, u: nat, a: App, w: nat) returns (s': State)
    requires c.Valid() && On(c, P, s, u, a, OPEN) && a.pc == Find(RLockSet) && FoundAt(c, s.lines, a.t, w)
    requires var l := At(s.lines, Slot(false, c.home(a.t), w)); Suffices(a.access, l.st) && l.lock == FREE
    ensures On(c, P, s', u, a.(succ := true, pc := Tail(true)), OPEN)
    ensures var p := Slot(false, c.home(a.t), w); Writes(s, s', u, p, At(s.lines, p))
  {
    var p := Slot(false, c.home(a.t), w);
    s' := LookFound(c, P, s, u, a, w);
    s' := Do(c, P, s', u, Tau, a.Go(Find(Decide(Some(w), None))), ReadBy(u));
    if a.access == Write { s' := Do(c, P, s', u, Tau, a.Go(Find(CasInvalid(w))), ReadBy(u)); }
    s' := LeaveSet(c, P, s', u, a.Go(Find(RUnlockSet(ToHit(p)))), ToHit(p));
    s' := TouchLine(c, P, s', u, a.Go(Touch(p, true, LockLine)), p, true);
  }

  /** The owner of a line sends its request. */
  lemma Ask(c: Config, P: State -> bool, s: State, u: nat, a: App, p: Slot, req: Req) returns (s': State)
    requires c.Valid() && On(c, P, s, u, a, ReadBy(u)) && a.pc == Own(p, req, OwnUnlock)
    ensures On(c, P, s', u, a.Go(Own(p, req, Await(false, false))), OPEN) && Moved(s, s', u)
  {
    s' := Do(c, P, s, u, Tau, a, ReadBy(u));
    assert ReadBy(u).rw.readers - {AppId(u)} == {};
    s' := Do(c, P, s', u, Tau, a.Go(Own(p, req, Send)), OPEN);
  }

  /** An answer that grants the request. */
  function Grant(req: Req): MsgType {
    match req case ReadMissReq => ReadMissAckData case WriteMissReq => WriteMissAckData case WriteSharedReq => WriteSharedOnlyAck
  }

  /** The status in which a granted request leaves the line. */
  function GrantedStatus(req: Req): Status { if req == ReadMissReq then Shared else Modified }

  /** The request is granted, and the owner leaves the line. */
  lemma Answered(c: Config, P: State -> bool, s: State, u: nat, a: App, p: Slot, req: Req) returns (s': State)
    requires c.Valid() && On(c, P, s, u, a, OPEN) && a.pc == Own(p, req, Await(false, false))
    requires At(s.lines, p).Is(false, Transit(req))
    ensures On(c, P, s', u, a.Go(Touch(p, false, LockLine)), OPEN)
    ensures Writes(s, s', u, p, At(s.lines, p).(st := GrantedStatus(req), owner := None))
  {
    s' := Do(c, P, s, u, Recv(Msg(a.t, Grant(req))), a, OPEN);
    s' := Do(c, P, s', u, Tau, a.Go(Own(p, req, Exit1(true, 0))), OPEN);
    s' := Do(c, P, s', u, Tau, a.Go(Own(p, req, Exit2(true, 0))), OPEN);
  }

  /** The request that an access makes for a line in a status that does not allow it. */
  function Asks(access: Access, st: Status): Req {
    if access == Read then ReadMissReq else if st.Shared? then WriteSharedReq else WriteMissReq
  }

  /** The thread takes a line that it has found in a status that does not allow its access. */
  lemma Take(c: Config, P: State -> bool, s: State, u: nat, a: App, w: nat) returns (s': State)
    requires c.Valid() && On(c, P, s, u, a, OPEN) && a.pc == Find(RLockSet) && FoundAt(c, s.lines, a.t, w)
    requires var l := At(s.lines, Slot(false, c.home(a.t), w)); l.Stable() && !l.flag && !Suffices(a.access, l.st)
    ensures var p := Slot(false, c.home(a.t), w);
      var req := Asks(a.access, At(s.lines, p).st);
      && Writes(s, s', u, p, At(s.lines, p).(st := Transit(req), owner := Some(u)))
      && On(c, P, s', u, a.Go(Own(p, req, OwnUnlock)), ReadBy(u))
  {
    s' := LookFound(c, P, s, u, a, w);
    s' := Do(c, P, s', u, Tau, a.Go(Find(Decide(Some(w), None))), ReadBy(u));
    if Asks(a.access, At(s.lines, Slot(false, c.home(a.t), w)).st) == WriteMissReq {
      s' := Do(c, P, s', u, Tau, a.Go(Find(CasInvalid(w))), ReadBy(u));
    }
  }

  /** An access to a line in a status that does not allow it: its request is granted. */
  lemma Miss(c: Config, P: State -> bool, s: State, u: nat, a: App, w: nat) returns (s': State)
    requires c.Valid() && On(c, P, s, u, a, OPEN) && a.pc == Find(RLockSet) && FoundAt(c, s.lines, a.t, w)
    requires var l := At(s.lines, Slot(false, c.home(a.t), w)); l.Stable() && !l.flag && !Suffices(a.access, l.st) && l.lock == FREE
    ensures On(c, P, s', u, a.(succ := true, pc := Tail(false)), OPEN)
    ensures var p := Slot(false, c.home(a.t), w);
      Writes(s, s', u, p, At(s.lines, p).(st := if a.access == Read then Shared else Modified, owner := None))
  {
    var p := Slot(false, c.home(a.t), w);
    var req := Asks(a.access, At(s.lines, p).st);
    s' := Take(c, P, s, u, a, w);
    s' := Ask(c, P, s', u, a.Go(Own(p, req, OwnUnlock)), p, req);
    s' := Answered(c, P, s', u, a.Go(Own(p, req, Await(false, false))), p, req);
    s' := TouchLine(c, P, s', u, a.Go(Touch(p, false, LockLine)), p, false);
  }

  // ---- newLine ---------------------------------------------------------------------------------------

  /** What the scan can take of way i. */
  predicate Free(c: Config, lines: Lines, h: nat, i: nat) { At(lines, Slot(false, h, i)).st == Preserved }

  predicate Movable(c: Config, lines: Lines, h: nat, i: nat) {
    At(lines, Slot(false, h, i)).Stable() && At(lines, Slot(true, h, i)).st == Preserved
  }

  /** What the scan has found after n ways. */
  ghost predicate Scanned(c: Config, lines: Lines, h: nat, n: nat, av: Option<nat>, ev: Option<nat>) {
    && (av.Some? ==> av.value < n && Free(c, lines, h, av.value))
    && (av.None? ==> forall j :: 0 <= j < n ==> !Free(c, lines, h, j))
    && (ev.Some? ==> ev.value < n && Movable(c, lines, h, ev.value))
    && (ev.None? ==> forall j :: 0 <= j < n ==> !Movable(c, lines, h, j))
  }

  /** Nobody is changing the line: it is free or in a stable status, without flag, and not locked. */
  predicate Calm(l: Line) { l.lock == FREE && !l.flag && (l.st == Preserved || l.Stable()) }

  ghost predicate CalmSet(c: Config, lines: Lines, h: nat) { forall j :: 0 <= j < c.width ==> Calm(At(lines, Slot(false, h, j))) }

  /** The scan of one way. */
  lemma ScanWay(c: Config, P: State -> bool, s: State, u: nat, a: App, i: nat, av: Option<nat>, ev: Option<nat>)
    returns (s': State, av': Option<nat>, ev': Option<nat>)
    requires c.Valid() && On(c, P, s, u, a, WrittenBy(u)) && a.pc == New(Scan(i, 0, false, av, ev)) && i < c.width
    requires NoTag(s.lines, c.home(a.t), a.t, c.width) && Calm(At(s.lines, Slot(false, c.home(a.t), i)))
    requires Scanned(c, s.lines, c.home(a.t), i, av, ev)
    ensures On(c, P, s', u, a.Go(New(Scan(i + 1, 0, false, av', ev'))), WrittenBy(u)) && Moved(s, s', u)
    ensures Scanned(c, s.lines, c.home(a.t), i + 1, av', ev')
  {
    var h := c.home(a.t);
    av', ev' := if Free(c, s.lines, h, i) then Some(i) else av, if Movable(c, s.lines, h, i) then Some(i) else ev;
    s' := ScanTags(c, P, s, u, a, i, av, ev);
    if Free(c, s.lines, h, i) {
      s' := Do(c, P, s', u, Tau, a.Go(New(Scan(i, 2, false, av, ev))), WrittenBy(u));
    } else {
      s' := ScanStable(c, P, s', u, a.Go(New(Scan(i, 2, false, av, ev))), i, av, ev);
    }
  }

  /** Neither line of way i holds the tag. */
  lemma ScanTags(c: Config, P: State -> bool, s: State, u: nat, a: App, i: nat, av: Option<nat>, ev: Option<nat>) returns (s': State)
    requires c.Valid() && On(c, P, s, u, a, WrittenBy(u)) && a.pc == New(Scan(i, 0, false, av, ev)) && i < c.width
    requires !At(s.lines, Slot(false, c.home(a.t), i)).Holds(a.t) && !At(s.lines, Slot(true, c.home(a.t), i)).Holds(a.t)
    ensures On(c, P, s', u, a.Go(New(Scan(i, 2, false, av, ev))), WrittenBy(u)) && Moved(s, s', u)
  {
    s' := Do(c, P, s, u, Tau, a, WrittenBy(u));
    s' := Do(c, P, s', u, Tau, a.Go(New(Scan(i, 1, false, av, ev))), WrittenBy(u));
  }

  /** Which stable status the main line has takes up to three loads. */
  lemma ScanStable(c: Config, P: State -> bool, s: State, u: nat, a: App, i: nat, av: Option<nat>, ev: Option<nat>) returns (s': State)
    requires c.Valid() && On(c, P, s, u, a, WrittenBy(u)) && a.pc == New(Scan(i, 2, false, av, ev)) && i < c.width
    requires At(s.lines, Slot(false, c.home(a.t), i)).Stable()
    ensures On(c, P, s', u, a.Go(New(Scan(i + 1, 0, false, av, if Movable(c, s.lines, c.home(a.t), i) then Some(i) else ev))), WrittenBy(u))
    ensures Moved(s, s', u)
  {
    var st := At(s.lines, Slot(false, c.home(a.t), i)).st;
    s' := Do(c, P, s, u, Tau, a, WrittenBy(u));
    s' := Do(c, P, s', u, Tau, a.Go(New(Scan(i, 3, false, av, ev))), WrittenBy(u));
    if !st.Invalid? { s' := ScanValid(c, P, s', u, a.Go(New(Scan(i, 4, false, av, ev))), i, av, ev); }
    s' := ScanFree(c, P, s', u, a.Go(New(Scan(i, 6, false, av, ev))), i, av, ev);
  }

  lemma ScanValid(c: Config, P: State -> bool, s: State, u: nat, a: App, i: nat, av: Option<nat>, ev: Option<nat>) returns (s': State)
    requires c.Valid() && On(c, P, s, u, a, WrittenBy(u)) && a.pc == New(Scan(i, 4, false, av, ev)) && i < c.width
    requires var st := At(s.lines, Slot(false, c.home(a.t), i)).st; st.Shared? || st.Modified?
    ensures On(c, P, s', u, a.Go(New(Scan(i, 6, false, av, ev))), WrittenBy(u)) && Moved(s, s', u)
  {
    s' := Do(c, P, s, u, Tau, a, WrittenBy(u));
    if At(s.lines, Slot(false, c.home(a.t), i)).st.Modified? {
      s' := Do(c, P, s', u, Tau, a.Go(New(Scan(i, 5, false, av, ev))), WrittenBy(u));
    }
  }

  /** Whether the shadow slot of way i is free. */
  lemma ScanFree(c: Config, P: State -> bool, s: State, u: nat, a: App, i: nat, av: Option<nat>, ev: Option<nat>) returns (s': State)
    requires c.Valid() && On(c, P, s, u, a, WrittenBy(u)) && a.pc == New(Scan(i, 6, false, av, ev)) && i < c.width
    requires At(s.lines, Slot(false, c.home(a.t), i)).Stable()
    ensures On(c, P, s', u, a.Go(New(Scan(i + 1, 0, false, av, if Movable(c, s.lines, c.home(a.t), i) then Some(i) else ev))), WrittenBy(u))
    ensures Moved(s, s', u)
  {
    s' := Do(c, P, s, u, Tau, a, WrittenBy(u));
  }

  lemma {:induction false} ScanRest(c: Config, P: State -> bool, s: State, u: nat, a: App, i: nat, av: Option<nat>, ev: Option<nat>)
    returns (s': State, av': Option<nat>, ev': Option<nat>)
    requires c.Valid() && On(c, P, s, u, a, WrittenBy(u)) && a.pc == New(Scan(i, 0, false, av, ev)) && i <= c.width
    requires NoTag(s.lines, c.home(a.t), a.t, c.width) && CalmSet(c, s.lines, c.home(a.t))
    requires Scanned(c, s.lines, c.home(a.t), i, av, ev)
    ensures On(c, P, s', u, a.Go(New(Scan(c.width, 0, false, av', ev'))), WrittenBy(u)) && Moved(s, s', u)
    ensures Scanned(c, s.lines, c.home(a.t), c.width, av', ev')
    decreases c.width - i
  {
    s', av', ev' := s, av, ev;
    if i < c.width {
      s', av', ev' := ScanWay(c, P, s, u, a, i, av, ev);
      s', av', ev' := ScanRest(c, P, s', u, a.Go(New(Scan(i + 1, 0, false, av', ev'))), i + 1, av', ev');
    }
  }

  /** The scan of a calm set that does not hold the tag. */
  lemma ScanSet(c: Config, P: State -> bool, s: State, u: nat, a: App) returns (s': State, av: Option<nat>, ev: Option<nat>)
    requires c.Valid() && On(c, P, s, u, a, OPEN) && a.pc == New(WLockSet)
    requires NoTag(s.lines, c.home(a.t), a.t, c.width) && CalmSet(c, s.lines, c.home(a.t))
    ensures On(c, P, s', u, a.Go(New(Scan(c.width, 0, false, av, ev))), WrittenBy(u)) && Moved(s, s', u)
    ensures Scanned(c, s.lines, c.home(a.t), c.width, av, ev)
  {
    s' := Do(c, P, s, u, Tau, a, OPEN);
    s', av, ev := ScanRest(c, P, s', u, a.Go(New(Scan(0, 0, false, None, None))), 0, None, None);
  }

  /** A line that newLine has filled for tag t. */
  function Fresh(l: Line, t: Tag, stack: seq<Buf>): Line
    requires |stack| > 0
  {
    l.(tag := t, data := Some(stack[|stack| - 1]), flag := false, st := Invalid)
  }

  function Popped(stack: seq<Buf>): seq<Buf>
    requires |stack| > 0
  {
    stack[..|stack| - 1]
  }

  /** newLine fills the free main line of way w, and the thread looks the tag up again. */
  lemma FillLine(c: Config, P: State -> bool, s: State, u: nat, a: App, w: nat, ev: Option<nat>) returns (s': State)
    requires c.Valid() && On(c, P, s, u, a, WrittenBy(u)) && a.pc == New(Scan(c.width, 0, false, Some(w), ev)) && |a.pool.stack| > 0
    ensures var p := Slot(false, c.home(a.t), w); Writes(s, s', u, p, Fresh(At(s.lines, p), a.t, a.pool.stack))
    ensures var f := a.pool.(stack := Popped(a.pool.stack), fills := a.pool.fills + {Slot(false, c.home(a.t), w)});
      On(c, P, s', u, a.(pc := Tail(true), pool := f), OPEN)
  {
    var f := a.pool.(stack := Popped(a.pool.stack), fills := a.pool.fills + {Slot(false, c.home(a.t), w)});
    s' := Do(c, P, s, u, Tau, a, WrittenBy(u));
    s' := Do(c, P, s', u, Tau, a.Go(New(Fill(w))), WrittenBy(u));
    s' := Do(c, P, s', u, Tau, a.(pc := New(WUnlockSet(true)), pool := f), WrittenBy(u));
  }

  /** Without a line to fill, newLine gives an INVALID line that it can move the new tag. */
  lemma RetagLine(c: Config, P: State -> bool, s: State, u: nat, a: App, av: Option<nat>, w: nat) returns (s': State)
    requires c.Valid() && On(c, P, s, u, a, WrittenBy(u)) && a.pc == New(Scan(c.width, 0, false, av, Some(w)))
    requires (av.Some? ==> a.pool.stack == []) && At(s.lines, Slot(false, c.home(a.t), w)).st == Invalid
    ensures var p := Slot(false, c.home(a.t), w); Writes(s, s', u, p, At(s.lines, p).(tag := a.t))
    ensures On(c, P, s', u, a.Go(Tail(true)), OPEN)
  {
    s' := Do(c, P, s, u, Tau, a, WrittenBy(u));
    s' := Do(c, P, s', u, Tau, a.Go(New(EvChk(w))), WrittenBy(u));
    s' := Do(c, P, s', u, Tau, a.Go(New(Retag(w))), WrittenBy(u));
    s' := Do(c, P, s', u, Tau, a.Go(New(WUnlockSet(true))), WrittenBy(u));
  }

  /** A copy of a main line in a shadow slot. */
  function CopyOf(l: Line, from: Line, u: nat): Line {
    l.(tag := from.tag, data := from.data, flag := false, st := from.st, owner := Some(u))
  }

  /** newLine copies the SHARED or MODIFIED main line of way w to its shadow slot. */
  lemma MoveOut(c: Config, P: State -> bool, s: State, u: nat, a: App, av: Option<nat>, w: nat) returns (s': State)
    requires c.Valid() && On(c, P, s, u, a, WrittenBy(u)) && a.pc == New(Scan(c.width, 0, false, av, Some(w)))
    requires (av.Some? ==> a.pool.stack == []) && At(s.lines, Slot(false, c.home(a.t), w)).st != Invalid
    ensures var p, from := Slot(true, c.home(a.t), w), At(s.lines, Slot(false, c.home(a.t), w));
      Writes(s, s', u, p, CopyOf(At(s.lines, p), from, u))
    ensures On(c, P, s', u, a.(pc := New(Refill(w)), pool := a.pool.(pend := a.pool.pend + {Slot(true, c.home(a.t), w)})),
               WrittenBy(u).(moving := Some(w)))
  {
    s' := Do(c, P, s, u, Tau, a, WrittenBy(u));
    s' := Do(c, P, s', u, Tau, a.Go(New(EvChk(w))), WrittenBy(u));
    s' := Do(c, P, s', u, Tau, a.Go(New(MvLoad(w))), WrittenBy(u));
    s' := Do(c, P, s', u, Tau, a.Go(New(MvStore(w, At(s.lines, Slot(false, c.home(a.t), w)).st))), WrittenBy(u));
  }

  /** The main line takes the new tag and a buffer. */
  lemma RefillLine(c: Config, P: State -> bool, s: State, u: nat, a: App, w: nat) returns (s': State)
    requires c.Valid() && On(c, P, s, u, a, WrittenBy(u).(moving := Some(w))) && a.pc == New(Refill(w)) && |a.pool.stack| > 0
    ensures var p := Slot(false, c.home(a.t), w); Writes(s, s', u, p, Fresh(At(s.lines, p), a.t, a.pool.stack))
    ensures On(c, P, s', u, a.(pc := Tail(true), pool := a.pool.(stack := Popped(a.pool.stack)),
                               evict := a.evict.(startNext := true, next := Some(Slot(true, c.home(a.t), w)))), OPEN)
  {
    s' := Do(c, P, s, u, Tau, a, WrittenBy(u).(moving := Some(w)));
    s' := Do(c, P, s', u, Tau, a.(pc := New(WUnlockSet(true)), pool := a.pool.(stack := Popped(a.pool.stack)),
                                  evict := a.evict.(startNext := true, next := Some(Slot(true, c.home(a.t), w)))), WrittenBy(u));
  }

  // ---- sending an eviction -----------------------------------------------------------------------------

  /** A shadow line whose eviction has been sent. */
  function OutLine(l: Line, u: nat): Line { l.(st := ToPreserved, dirty := l.st == Modified, lock := RW(Some(AppId(u)), {})) }

  /** After newLine or a hit the thread goes round its loop again, with no eviction to start. */
  lemma Again(c: Config, P: State -> bool, s: State, u: nat, a: App) returns (s': State)
    requires c.Valid() && On(c, P, s, u, a, OPEN) && a.pc == Tail(true) && !a.succ && !a.evict.startNext
    ensures On(c, P, s', u, a.Go(Find(RLockSet)), OPEN) && Moved(s, s', u)
  {
    s' := Do(c, P, s, u, Tau, a, OPEN);
    s' := Do(c, P, s', u, Tau, a.Go(Evict(EvStart, false)), OPEN);
  }

  /** The thread ends its access. */
  lemma Return(c: Config, P: State -> bool, s: State, u: nat, a: App) returns (s': State)
    requires c.Valid() && On(c, P, s, u, a, OPEN) && a.pc.Tail? && a.succ && (a.pc.dontWait || !a.evict.wait)
    ensures On(c, P, s', u, a.Go(Idle), OPEN) && Moved(s, s', u)
  {
    s' := Do(c, P, s, u, Tau, a, OPEN);
  }

  /** The thread while it evicts p. */
  function EvictingOf(a: App, p: Slot): App {
    a.(evict := a.evict.(startNext := false, wait := true, cur := Some(p), next := None))
  }

  /** After newLine has moved a line out, the thread sends its eviction and looks the tag up again. */
  lemma SendOut(c: Config, P: State -> bool, s: State, u: nat, a: App, p: Slot) returns (s': State)
    requires c.Valid() && On(c, P, s, u, a, OPEN) && a.pc == Tail(true) && !a.succ && a.evict.startNext && a.evict.next == Some(p)
    requires var l := At(s.lines, p); !l.flag && (l.st == Shared || l.st == Modified) && l.lock == FREE
    ensures Writes(s, s', u, p, OutLine(At(s.lines, p), u))
    ensures On(c, P, s', u, a.(pc := Find(RLockSet),
      evict := Eviction(false, None, true, Some(p), At(s.lines, p).st == Modified, a.evict.stash)), OPEN)
  {
    var d, st := EvictingOf(a, p), At(s.lines, p).st;
    s' := Do(c, P, s, u, Tau, a, OPEN);
    s' := Do(c, P, s', u, Tau, a.Go(Evict(EvStart, false)), OPEN);
    s' := Do(c, P, s', u, Tau, d.Go(Evict(EvLoad, false)), OPEN);
    s' := Do(c, P, s', u, Tau, d.Go(Evict(EvFlag(st), false)), OPEN);
    s' := SendWord(c, P, s', u, d.Go(Evict(EvCas(st, false), false)), p, st);
  }

  lemma SendWord(c: Config, P: State -> bool, s: State, u: nat, a: App, p: Slot, st: Status) returns (s': State)
    requires c.Valid() && On(c, P, s, u, a, OPEN) && a.pc == Evict(EvCas(st, false), false) && a.evict.cur == Some(p)
    requires At(s.lines, p).Is(false, st) && (st == Shared || st == Modified) && At(s.lines, p).lock == FREE
    ensures Writes(s, s', u, p, OutLine(At(s.lines, p), u))
    ensures On(c, P, s', u, a.(pc := Find(RLockSet), evict := a.evict.(evDirty := st == Modified)), OPEN)
  {
    s' := Do(c, P, s, u, Tau, a, OPEN);
    s' := Do(c, P, s', u, Tau, a.Go(Evict(EvLock(st), false)), OPEN);
    s' := Do(c, P, s', u, Tau, a.Go(Evict(EvSend(st), false)), OPEN);
  }

  /** A slot whose line has been evicted. */
  function Emptied(l: Line): Line { l.(flag := false, st := Preserved, data := None, owner := None, lock := FREE) }

  /** The thread when its eviction of p has been acknowledged. */
  function Settled(a: App, p: Slot, b: Buf): App {
    a.(pc := Idle, pool := a.pool.(stack := a.pool.stack + [b], pend := a.pool.pend - {p}), evict := a.evict.(stash := None, wait := false))
  }

  /** The eviction is acknowledged, the buffer given back and the slot freed; the access has succeeded and returns. */
  lemma Acknowledged(c: Config, P: State -> bool, s: State, u: nat, a: App, p: Slot, b: Buf) returns (s': State)
    requires c.Valid() && On(c, P, s, u, a, OPEN) && a.pc == Wait(WRecv) && a.succ && a.evict.stash == None && a.evict.cur == Some(p)
    requires At(s.lines, p).data == Some(b)
    ensures Writes(s, s', u, p, Emptied(At(s.lines, p)))
    ensures On(c, P, s', u, Settled(a, p, b), OPEN)
  {
    var m := if a.evict.evDirty then EvictDirtyAck else EvictSharedAck;
    s' := Do(c, P, s, u, Recv(Msg(At(s.lines, p).tag, m)), a, OPEN);
    var d := a.(evict := a.evict.(stash := None));
    s' := Do(c, P, s', u, Tau, d.Go(Wait(WRecycle)), OPEN);
    s' := Do(c, P, s', u, Tau, d.(pc := Wait(WUnlock), pool := a.pool.(stack := a.pool.stack + [b], pend := a.pool.pend - {p})), OPEN);
  }

  /** A refused EVICT_SHARED is undone. */
  lemma UndoOut(c: Config, P: State -> bool, s: State, u: nat, a: App, p: Slot) returns (s': State)
    requires c.Valid() && On(c, P, s, u, a, OPEN) && a.pc == Wait(Revert(0)) && a.evict.cur == Some(p) && !a.evict.evDirty
    requires At(s.lines, p).Is(false, ToPreserved)
    ensures Writes(s, s', u, p, At(s.lines, p).(st := Shared))
    ensures On(c, P, s', u, a.(evict := a.evict.(startNext := true, next := a.evict.cur), pc := Evict(EvStart, true)), OPEN)
  {
    s' := Do(c, P, s, u, Tau, a, OPEN);
  }

  /** The eviction of a SHARED line is started again from inside wait_evict, up to the lock. */
  lemma OutAgain(c: Config, P: State -> bool, s: State, u: nat, a: App, p: Slot) returns (s': State)
    requires c.Valid() && On(c, P, s, u, a, OPEN) && a.pc == Evict(EvStart, true) && a.evict.startNext && a.evict.next == Some(p)
    requires At(s.lines, p).Is(false, Shared)
    ensures On(c, P, s', u, EvictingOf(a, p).Go(Evict(EvLock(Shared), true)), OPEN)
  {
    var d := EvictingOf(a, p);
    s' := Do(c, P, s, u, Tau, a, OPEN);
    s' := Do(c, P, s', u, Tau, d.Go(Evict(EvLoad, true)), OPEN);
    s' := Do(c, P, s', u, Tau, d.Go(Evict(EvFlag(Shared), true)), OPEN);
    s' := Do(c, P, s', u, Tau, d.Go(Evict(EvCas(Shared, false), true)), OPEN);
  }

  /** A thread that has an eviction pending and has missed waits for the answer. */
  lemma MissAndWait(c: Config, P: State -> bool, s: State, u: nat, a: App, w: nat) returns (s': State)
    requires c.Valid() && On(c, P, s, u, a, OPEN) && a.pc == Find(RLockSet) && FoundAt(c, s.lines, a.t, w)
    requires var l := At(s.lines, Slot(false, c.home(a.t), w)); l.Is(false, Invalid) && l.lock == FREE
    requires a.evict.wait
    ensures On(c, P, s', u, a.(succ := true, pc := Wait(WRecv)), OPEN)
    ensures var p := Slot(false, c.home(a.t), w);
      Writes(s, s', u, p, At(s.lines, p).(st := if a.access == Read then Shared else Modified, owner := None))
  {
    s' := Miss(c, P, s, u, a, w);
    s' := Do(c, P, s', u, Tau, a.(succ := true, pc := Tail(false)), OPEN);
  }

  // ---- accesses in parts ------------------------------------------------------------------------------------

  /** The thread at the end of an access. */
  function Done(a: App, access: Access, t: Tag): App { a.(access := access, t := t, succ := true, pc := Idle) }

  lemma NewFound(c: Config, s: State, s': State, u: nat, t: Tag, w: nat)
    requires NoTag(s.lines, c.home(t), t, c.width) && w < c.width
    requires var p := Slot(false, c.home(t), w);
      Writes(s, s', u, p, At(s'.lines, p)) && At(s'.lines, p).Holds(t)
    ensures FoundAt(c, s'.lines, t, w)
  {}

  /** The thread when it has looked the tag up and scanned its set. */
  function Searched(c: Config, a: App, access: Access, t: Tag, av: Option<nat>, ev: Option<nat>): App {
    a.(access := access, t := t, succ := false, pc := New(Scan(c.width, 0, false, av, ev)))
  }

  /** Up to the end of newLine's scan, an access to a tag that no line of its calm set holds. */
  lemma Search(c: Config, P: State -> bool, s: State, u: nat, a: App, access: Access, t: Tag)
    returns (s': State, av: Option<nat>, ev: Option<nat>)
    requires c.Valid() && On(c, P, s, u, a, OPEN) && a.pc == Idle && !a.evict.startNext
    requires NoTag(s.lines, c.home(t), t, c.width) && CalmSet(c, s.lines, c.home(t))
    ensures On(c, P, s', u, Searched(c, a, access, t, av, ev), WrittenBy(u)) && Moved(s, s', u)
    ensures Scanned(c, s.lines, c.home(t), c.width, av, ev)
  {
    var d := a.(access := access, t := t, succ := false, pc := Find(RLockSet));
    s' := Begin(c, P, s, u, a, access, t);
    s' := LookNone(c, P, s', u, d);
    s', av, ev := ScanSet(c, P, s', u, d.Go(New(WLockSet)));
  }

  /** The thread when newLine has filled p for its access. */
  function Filling(a: App, access: Access, t: Tag, p: Slot): App
    requires |a.pool.stack| > 0
  {
    a.(access := access, t := t, succ := false, pc := Tail(true),
       pool := a.pool.(stack := Popped(a.pool.stack), fills := a.pool.fills + {p}))
  }

  /** The thread looks up the line that newLine has given its tag, and its request is granted. */
  lemma FetchNew(c: Config, P: State -> bool, s: State, u: nat, a: App, w: nat) returns (s': State)
    requires c.Valid() && On(c, P, s, u, a, OPEN) && a.pc == Tail(true) && !a.succ && !a.evict.startNext && !a.evict.wait
    requires FoundAt(c, s.lines, a.t, w)
    requires var l := At(s.lines, Slot(false, c.home(a.t), w)); l.Is(false, Invalid) && l.lock == FREE
    ensures var p := Slot(false, c.home(a.t), w);
      Writes(s, s', u, p, At(s.lines, p).(st := if a.access == Read then Shared else Modified, owner := None))
    ensures On(c, P, s', u, a.(succ := true, pc := Idle), OPEN)
  {
    s' := Again(c, P, s, u, a);
    s' := Miss(c, P, s', u, a.Go(Find(RLockSet)), w);
    s' := Return(c, P, s', u, a.(succ := true, pc := Tail(false)));
  }

  /** An access to a tag that no line holds, in a set with a free line: the line is filled and fetched. */
  lemma FillAccess(c: Config, P: State -> bool, s: State, u: nat, a: App, access: Access, t: Tag) returns (s': State, w: nat)
    requires c.Valid() && On(c, P, s, u, a, OPEN) && a.pc == Idle && !a.evict.startNext && !a.evict.wait && |a.pool.stack| > 0
    requires NoTag(s.lines, c.home(t), t, c.width) && CalmSet(c, s.lines, c.home(t))
    requires exists j :: 0 <= j < c.width && Free(c, s.lines, c.home(t), j)
    ensures w < c.width && Free(c, s.lines, c.home(t), w)
    ensures var p := Slot(false, c.home(t), w);
      && Writes(s, s', u, p, Fresh(At(s.lines, p), t, a.pool.stack).(st := if access == Read then Shared else Modified, owner := None))
      && On(c, P, s', u, Filling(a, access, t, p).(succ := true, pc := Idle), OPEN)
  {
    var av, ev;
    s', av, ev := Search(c, P, s, u, a, access, t);
    w := av.value;
    var p := Slot(false, c.home(t), w);
    s' := FillLine(c, P, s', u, Searched(c, a, access, t, av, ev), w, ev);
    NewFound(c, s, s', u, t, w);
    s' := FetchNew(c, P, s', u, Filling(a, access, t, p), w);
  }

  /** The thread when newLine has copied the main line of p's way to p for its access. */
  function Moving(a: App, access: Access, t: Tag, p: Slot): App {
    a.(access := access, t := t, succ := false, pc := New(Refill(p.way)), pool := a.pool.(pend := a.pool.pend + {p}))
  }

  /** The thread when it has sent the eviction of p. */
  function Sending(a: App, p: Slot, dirty: bool): App
    requires |a.pool.stack| > 0
  {
    a.(pc := Find(RLockSet), pool := a.pool.(stack := Popped(a.pool.stack)), evict := Eviction(false, None, true, Some(p), dirty, a.evict.stash))
  }

  /** From the copy in the shadow slot to the second look-up, the eviction being sent. */
  lemma FinishMove(c: Config, P: State -> bool, s: State, u: nat, a: App, w: nat) returns (s': State)
    requires c.Valid() && On(c, P, s, u, a, WrittenBy(u).(moving := Some(w))) && a.pc == New(Refill(w)) && !a.succ && |a.pool.stack| > 0
    requires var l := At(s.lines, Slot(true, c.home(a.t), w)); !l.flag && (l.st == Shared || l.st == Modified) && l.lock == FREE
    ensures var p, m := Slot(true, c.home(a.t), w), Slot(false, c.home(a.t), w);
      && At(s'.lines, p) == OutLine(At(s.lines, p), u) && At(s'.lines, m) == Fresh(At(s.lines, m), a.t, a.pool.stack)
      && (forall q :: q != p && q != m ==> At(s'.lines, q) == At(s.lines, q)) && Stood(s, s', u)
      && On(c, P, s', u, Sending(a, p, At(s.lines, p).st == Modified), OPEN)
  {
    var p := Slot(true, c.home(a.t), w);
    s' := RefillLine(c, P, s, u, a, w);
    s' := SendOut(c, P, s', u, a.(pc := Tail(true), pool := a.pool.(stack := Popped(a.pool.stack)),
                                  evict := a.evict.(startNext := true, next := Some(p))), p);
  }

  /** An access to a line whose status allows it. */
  lemma HitAccess(c: Config, P: State -> bool, s: State, u: nat, a: App, access: Access, t: Tag, w: nat) returns (s': State)
    requires c.Valid() && On(c, P, s, u, a, OPEN) && a.pc == Idle && !a.evict.startNext && FoundAt(c, s.lines, t, w)
    requires var l := At(s.lines, Slot(false, c.home(t), w)); Suffices(access, l.st) && l.lock == FREE
    ensures On(c, P, s', u, Done(a, access, t), OPEN)
    ensures var p := Slot(false, c.home(t), w); Writes(s, s', u, p, At(s.lines, p))
  {
    var d := a.(access := access, t := t, succ := false, pc := Find(RLockSet));
    s' := Begin(c, P, s, u, a, access, t);
    s' := Hit(c, P, s', u, d, w);
    s' := Return(c, P, s', u, d.(succ := true, pc := Tail(true)));
  }

  /** An access to a line whose status does not allow it: its request is granted. */
  lemma MissAccess(c: Config, P: State -> bool, s: State, u: nat, a: App, access: Access, t: Tag, w: nat) returns (s': State)
    requires c.Valid() && On(c, P, s, u, a, OPEN) && a.pc == Idle && !a.evict.startNext && !a.evict.wait && FoundAt(c, s.lines, t, w)
    requires var l := At(s.lines, Slot(false, c.home(t), w)); l.Stable() && !l.flag && !Suffices(access, l.st) && l.lock == FREE
    ensures On(c, P, s', u, Done(a, access, t), OPEN)
    ensures var p := Slot(false, c.home(t), w);
      Writes(s, s', u, p, At(s.lines, p).(st := if access == Read then Shared else Modified, owner := None))
  {
    var d := a.(access := access, t := t, succ := false, pc := Find(RLockSet));
    s' := Begin(c, P, s, u, a, access, t);
    s' := Miss(c, P, s', u, d, w);
    s' := Return(c, P, s', u, d.(succ := true, pc := Tail(false)));
  }

  /** What is left of a main line that has been given a new tag and fetched, and of its shadow slot. */
  predicate Replaced(s: State, s': State, u: nat, m: Slot, p: Slot, access: Access, t: Tag, b: Buf) {
    && At(s'.lines, m) == At(s.lines, m).(tag := t, data := Some(b), flag := false, st := if access == Read then Shared else Modified, owner := None)
    && At(s'.lines, p).st == Preserved && At(s'.lines, p).lock == FREE && u in s'.apps
  }

  /** The thread when it has sent the eviction of p for its access. */
  function Leaving(a: App, access: Access, t: Tag, p: Slot, dirty: bool): App
    requires |a.pool.stack| > 0
  {
    Sending(Moving(a, access, t, p), p, dirty)
  }

  /** From the scan on, an access that moves the main line of way w out, up to its second look-up. */
  lemma MoveAway(c: Config, P: State -> bool, s: State, u: nat, a: App, access: Access, t: Tag, w: nat) returns (s': State)
    requires c.Valid() && On(c, P, s, u, Searched(c, a, access, t, None, Some(w)), WrittenBy(u)) && |a.pool.stack| > 0
    requires var m := At(s.lines, Slot(false, c.home(t), w)); m.st == Shared || m.st == Modified
    requires At(s.lines, Slot(true, c.home(t), w)).lock == FREE
    ensures var m, p := Slot(false, c.home(t), w), Slot(true, c.home(t), w);
      && At(s'.lines, m) == Fresh(At(s.lines, m), t, a.pool.stack)
      && At(s'.lines, p) == OutLine(CopyOf(At(s.lines, p), At(s.lines, m), u), u)
      && (forall q :: q != p && q != m ==> At(s'.lines, q) == At(s.lines, q)) && Stood(s, s', u)
      && On(c, P, s', u, Leaving(a, access, t, p, At(s.lines, m).st == Modified), OPEN)
  {
    s' := MoveOut(c, P, s, u, Searched(c, a, access, t, None, Some(w)), None, w);
    s' := FinishMove(c, P, s', u, Moving(a, access, t, Slot(true, c.home(t), w)), w);
  }

  /** From the scan on, an access that moves the main line of way w out: its eviction is acknowledged. */
  lemma MoveAccess(c: Config, P: State -> bool, s: State, u: nat, a: App, access: Access, t: Tag, w: nat) returns (s': State)
    requires c.Valid() && On(c, P, s, u, Searched(c, a, access, t, None, Some(w)), WrittenBy(u)) && a.evict.stash == None && |a.pool.stack| > 0
    requires var m := At(s.lines, Slot(false, c.home(t), w));
      && (m.st == Shared || m.st == Modified) && m.lock == FREE && m.data.Some? && m.tag != t && w < c.width
    requires At(s.lines, Slot(true, c.home(t), w)).lock == FREE && NoTag(s.lines, c.home(t), t, c.width)
    ensures var m, p := Slot(false, c.home(t), w), Slot(true, c.home(t), w);
      && Replaced(s, s', u, m, p, access, t, a.pool.stack[|a.pool.stack| - 1])
      && (forall q :: q != p && q != m ==> At(s'.lines, q) == At(s.lines, q))
      && s'.apps[u] == Settled(Leaving(a, access, t, p, At(s.lines, m).st == Modified).(succ := true), p, At(s.lines, m).data.value)
    ensures P(s')
  {
    var m, p := Slot(false, c.home(t), w), Slot(true, c.home(t), w);
    s' := MoveAway(c, P, s, u, a, access, t, w);
    var d := Leaving(a, access, t, p, At(s.lines, m).st == Modified);
    s' := MissAndWait(c, P, s', u, d, w);
    s' := Acknowledged(c, P, s', u, d.(succ := true, pc := Wait(WRecv)), p, At(s.lines, m).data.value);
  }
}
