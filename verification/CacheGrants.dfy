/** What a thread asks the directory for, and in what status the answers it takes leave the line. */
module CacheGrants {
  import opened Options
  import opened CacheState
  import opened CacheSteps
  import opened CacheInv
  import opened CacheTheorems
  import opened CacheAccess

  // ---- requests ------------------------------------------------------------------------------------

  /** The request that an access makes for a line in this status, and the status it leaves the line in meanwhile. */
  predicate AsksWith(access: Access, st: Status, req: Req, st': Status) {
    match req
    case ReadMissReq => access == Read && st.Invalid? && st'.ToShared?
    case WriteMissReq => access == Write && st.Invalid? && st'.ToModified?
    case WriteSharedReq => access == Write && st.Shared? && st'.ToModified?
  }

  lemma AskIs(c: Config, s: State, u: nat, a: App)
    requires c.Valid() && a.pc.Find? && FindOk(c, s.lines, a.t, a.pc.fd) && FindStep(c, s, u, a).Moves?
    requires a.pc.fd.CasInvalid? ==> a.access == Write
    requires FindStep(c, s, u, a).a.pc.Own?
    ensures var r := FindStep(c, s, u, a); var p, req := r.a.pc.p, r.a.pc.req;
      && r.a.pc == Own(p, req, OwnUnlock) && !p.shadow && p.set_ == c.home(a.t) && At(s.lines, p).Holds(a.t) && !At(s.lines, p).flag
      && AsksWith(a.access, At(s.lines, p).st, req, At(Apply(s, r.e).lines, p).st)
      && At(Apply(s, r.e).lines, p) == At(s.lines, p).(st := Transit(req), owner := Some(u))
      && r.a == a.Go(r.a.pc)
  {}

  predicate WritesInvalid(a: App) { a.pc.Find? && a.pc.fd.CasInvalid? ==> a.access == Write }

  lemma StepWrites(c: Config, s: State, ev: Event, s': State, u: nat)
    requires c.Valid() && Step(c, s, ev, s') && (u in s.apps ==> WritesInvalid(s.apps[u]))
    ensures u in s'.apps ==> WritesInvalid(s'.apps[u])
  {
    if Acts(s, ev, u) { MoveWrites(c, s, u, s.apps[u], ev.inp); }
  }

  lemma MoveWrites(c: Config, s: State, u: nat, a: App, inp: Input)
    requires c.Valid() && AppMove(c, s, u, a, inp).Moves?
    ensures WritesInvalid(AppMove(c, s, u, a, inp).a)
  {
    match a.pc
    case Evict(_, _) => EvictWrites(s, u, a);
    case Find(_) => FindWrites(c, s, u, a);
    case New(_) => NewWrites(c, s, u, a);
    case Own(_, _, _) => OwnWrites(c, s, u, a, inp);
    case Wait(_) => WaitWrites(s, u, a, inp);
    case _ =>
  }

  predicate LooksOnly(r: AppStep) { r.Moves? && r.a.pc.Find? ==> !r.a.pc.fd.CasInvalid? }

  lemma EvictWrites(s: State, u: nat, a: App)
    requires a.pc.Evict?
    ensures LooksOnly(EvictStep(s, u, a))
  {}

  lemma FindWrites(c: Config, s: State, u: nat, a: App)
    requires c.Valid() && a.pc.Find? && FindStep(c, s, u, a).Moves?
    ensures WritesInvalid(FindStep(c, s, u, a).a)
  {}

  lemma NewWrites(c: Config, s: State, u: nat, a: App)
    requires c.Valid() && a.pc.New?
    ensures LooksOnly(NewStep(c, s, u, a))
  {}

  lemma OwnWrites(c: Config, s: State, u: nat, a: App, inp: Input)
    requires c.Valid() && a.pc.Own?
    ensures LooksOnly(OwnStep(c, s, u, a, inp))
  {}

  lemma WaitWrites(s: State, u: nat, a: App, inp: Input)
    requires a.pc.Wait?
    ensures LooksOnly(WaitStep(s, u, a, inp))
  {}

  lemma {:induction false} RunWrites(c: Config, ss: seq<State>, es: seq<Event>, i: nat, u: nat)
    requires c.Valid() && Run(c, ss, es) && i <= |es|
    ensures u in ss[i].apps ==> WritesInvalid(ss[i].apps[u])
    decreases i
  {
    if i > 0 {
      RunWrites(c, ss, es, i - 1, u);
      StepWrites(c, ss[i - 1], es[i - 1], ss[i - 1 + 1], u);
    }
  }

  lemma OnlyFindAsks(c: Config, s: State, u: nat, a: App, inp: Input)
    requires c.Valid() && AppMove(c, s, u, a, inp).Moves? && !a.pc.Own? && AppMove(c, s, u, a, inp).a.pc.Own?
    ensures a.pc.Find?
  {
    match a.pc
    case Evict(_, _) => EvictAsksNot(s, u, a);
    case New(_) => NewAsksNot(c, s, u, a);
    case Wait(_) => WaitAsksNot(s, u, a, inp);
    case _ =>
  }

  lemma EvictAsksNot(s: State, u: nat, a: App)
    requires a.pc.Evict? && EvictStep(s, u, a).Moves?
    ensures !EvictStep(s, u, a).a.pc.Own?
  {}

  lemma NewAsksNot(c: Config, s: State, u: nat, a: App)
    requires c.Valid() && a.pc.New? && NewStep(c, s, u, a).Moves?
    ensures !NewStep(c, s, u, a).a.pc.Own?
  {}

  lemma WaitAsksNot(s: State, u: nat, a: App, inp: Input)
    requires a.pc.Wait? && WaitStep(s, u, a, inp).Moves?
    ensures !WaitStep(s, u, a, inp).a.pc.Own?
  {}

  /** A thread becomes the owner of a main line only when the line holds its tag without flag: INVALID for a read,
      which then asks for the line; INVALID for a write, which asks for it to write; SHARED for a write, which asks
      only for the right to write. */
  lemma AsksExactly(c: Config, ss: seq<State>, es: seq<Event>, i: nat, u: nat)
    requires c.Valid() && Run(c, ss, es) && i < |es| && Acts(ss[i], es[i], u)
    requires !ss[i].apps[u].pc.Own? && u in ss[i + 1].apps && ss[i + 1].apps[u].pc.Own?
    ensures var a, a' := ss[i].apps[u], ss[i + 1].apps[u];
      var l, l' := At(ss[i].lines, a'.pc.p), At(ss[i + 1].lines, a'.pc.p);
      && !a'.pc.p.shadow && l.Holds(a.t) && !l.flag && AsksWith(a.access, l.st, a'.pc.req, l'.st)
      && l' == l.(st := l'.st, owner := Some(u)) && a' == a.Go(Own(a'.pc.p, a'.pc.req, OwnUnlock))
  {
    RunInv(c, ss, es, i);
    RunWrites(c, ss, es, i, u);
    AsksStep(c, ss[i], es[i], ss[i + 1], u);
  }

  lemma AsksStep(c: Config, s: State, ev: Event, s': State, u: nat)
    requires c.Valid() && Inv(c, s) && Step(c, s, ev, s') && Acts(s, ev, u) && WritesInvalid(s.apps[u])
    requires !s.apps[u].pc.Own? && u in s'.apps && s'.apps[u].pc.Own?
    ensures var a, a' := s.apps[u], s'.apps[u];
      var l, l' := At(s.lines, a'.pc.p), At(s'.lines, a'.pc.p);
      && !a'.pc.p.shadow && l.Holds(a.t) && !l.flag && AsksWith(a.access, l.st, a'.pc.req, l'.st)
      && l' == l.(st := l'.st, owner := Some(u)) && a' == a.Go(Own(a'.pc.p, a'.pc.req, OwnUnlock))
  {
    assert AppOk(c, s.lines, s.locks, u, s.apps[u]);
    OnlyFindAsks(c, s, u, s.apps[u], ev.inp);
    AskIs(c, s, u, s.apps[u]);
  }

  // ---- answers --------------------------------------------------------------------------------------

  /** The answers that grant a request by themselves. */
  function Grants(req: Req): set<MsgType> {
    match req
    case ReadMissReq => {ReadMissAckData, ReadMissDirtyAckData}
    case WriteMissReq => {WriteMissAckData, WriteMissDirtyAckData}
    case WriteSharedReq => {WriteSharedNotOnlyAggAck, WriteSharedOnlyAck}
  }

  /** The request is granted: by one such answer, or a write miss by the data of a sharer together with the
      acknowledgement of all. */
  predicate GrantedBy(req: Req, took: set<MsgType>) {
    || (exists m :: m in took && m in Grants(req))
    || (req == WriteMissReq && WriteMissSharedData in took && WriteMissSharedAggAck in took)
  }

  predicate RefusedBy(took: set<MsgType>) { MCheckFail in took || BitmapCheckFail in took }

  /** The answer for its line that thread u takes in this step. */
  function Takes(s: State, ev: Event, u: nat): set<MsgType> {
    if Acts(s, ev, u) && s.apps[u].pc.Own? && s.apps[u].pc.ow.Await? && ev.inp.Recv? && ev.inp.msg.tag == s.apps[u].t
    then {ev.inp.msg.mtype} else {}
  }

  /** The answers taken since step i, in which the request was sent. */
  function TookSince(ss: seq<State>, es: seq<Event>, i: nat, j: nat, u: nat): set<MsgType>
    requires i < j <= |es| < |ss|
    decreases j
  {
    if j == i + 1 then {} else TookSince(ss, es, i, j - 1, u) + Takes(ss[j - 1], es[j - 1], u)
  }

  /** The owner knows what it has taken; after BITMAP_CHECK_FAIL it has seen the flag raised. */
  predicate Knows(ow: OwnPc, req: Req, took: set<MsgType>, flag: bool) {
    match ow
    case OwnUnlock => false
    case Send => false
    case Await(hasData, acked) =>
      && took <= {WriteMissSharedData, WriteMissSharedAggAck} && (req != WriteMissReq ==> took == {})
      && (hasData <==> WriteMissSharedData in took) && (acked <==> WriteMissSharedAggAck in took) && !(hasData && acked)
    case SpinFlag => !GrantedBy(req, took) && RefusedBy(took)
    case Exit1(got, _) => (got <==> GrantedBy(req, took)) && (got || RefusedBy(took)) && (BitmapCheckFail in took ==> flag)
    case Exit2(got, _) => (got <==> GrantedBy(req, took)) && (got || RefusedBy(took)) && (BitmapCheckFail in took ==> flag)
    case Stuck => true
  }

  /** The status in which the owner leaves the line. */
  function Outcome(req: Req, granted: bool, flag: bool): Status {
    if flag then Invalid
    else if granted then if req == ReadMissReq then Shared else Modified
    else if req == WriteSharedReq then Shared else Invalid
  }

  /** The owner has left line p, which was l. */
  predicate LeavesAs(a: App, l: Line, a': App, l': Line, req: Req, p: Slot, granted: bool) {
    && l' == l.(flag := false, st := Outcome(req, granted, l.flag), owner := None)
    && (if granted && !l.flag then a' == a.Go(Touch(p, false, LockLine)) else a' == a.(succ := false, pc := Tail(false)))
  }

  lemma OwnerStep(c: Config, s: State, u: nat, a: App, inp: Input, took: set<MsgType>)
    requires c.Valid() && u in s.apps && s.apps[u] == a && a.pc.Own? && OwnStep(c, s, u, a, inp).Moves?
    requires At(s.lines, a.pc.p).st == Transit(a.pc.req) && Knows(a.pc.ow, a.pc.req, took, At(s.lines, a.pc.p).flag)
    ensures var r, took' := OwnStep(c, s, u, a, inp), took + Takes(s, ByApp(u, inp), u);
      var p, req := a.pc.p, a.pc.req;
      if r.a.pc.Own?
      then r.a.pc == Own(p, req, r.a.pc.ow) && Knows(r.a.pc.ow, req, took', At(Apply(s, r.e).lines, p).flag) && r.a.t == a.t
      else LeavesAs(a, At(s.lines, p), r.a, At(Apply(s, r.e).lines, p), req, p, GrantedBy(req, took))
  {
    match a.pc.ow
    case Await(_, _) => AwaitStep(c, s, u, a, inp, took);
    case _ =>
  }

  lemma AwaitStep(c: Config, s: State, u: nat, a: App, inp: Input, took: set<MsgType>)
    requires c.Valid() && u in s.apps && s.apps[u] == a && a.pc.Own? && a.pc.ow.Await? && OwnStep(c, s, u, a, inp).Moves?
    requires Knows(a.pc.ow, a.pc.req, took, At(s.lines, a.pc.p).flag)
    ensures var r := OwnStep(c, s, u, a, inp);
      && r.a.pc.Own? && r.a.pc == Own(a.pc.p, a.pc.req, r.a.pc.ow) && r.a.t == a.t
      && r.e.wr.None? && Knows(r.a.pc.ow, a.pc.req, took + Takes(s, ByApp(u, inp), u), At(s.lines, a.pc.p).flag)
  {
    if inp.Recv? && inp.msg.tag == a.t {
      var m := inp.msg.mtype;
      if Judge(a.pc.req, m) == Granted { assert m in Grants(a.pc.req); }
      if Judge(a.pc.req, m) == Refused || Judge(a.pc.req, m) == AwaitFlag { NotGranted(a.pc.req, took, m); }
    } else {
      assert took + {} == took;
    }
  }

  lemma NotGranted(req: Req, took: set<MsgType>, m: MsgType)
    requires took <= {WriteMissSharedData, WriteMissSharedAggAck} && (m == MCheckFail || m == BitmapCheckFail)
    requires !(WriteMissSharedData in took && WriteMissSharedAggAck in took)
    ensures !GrantedBy(req, took + {m})
  {}

  /** Thread u sends the request for line p in step i, and is the owner of p in all states up to j. */
  ghost predicate Owns(ss: seq<State>, es: seq<Event>, i: nat, j: nat, u: nat, p: Slot, req: Req) {
    && |ss| == |es| + 1 && i < j <= |es| && Acts(ss[i], es[i], u) && ss[i].apps[u].pc == Own(p, req, Send)
    && forall k :: i < k <= j ==> u in ss[k].apps && ss[k].apps[u].pc.Own? && ss[k].apps[u].pc.p == p && ss[k].apps[u].pc.req == req
  }

  lemma StepKnows(c: Config, s: State, ev: Event, s': State, u: nat, p: Slot, req: Req, took: set<MsgType>)
    requires c.Valid() && Inv(c, s) && Step(c, s, ev, s') && u in s.apps && s.apps[u].pc.Own?
    requires s.apps[u].pc.p == p && s.apps[u].pc.req == req && Knows(s.apps[u].pc.ow, req, took, At(s.lines, p).flag)
    requires !Acts(s, ev, u) && At(s.lines, p).flag ==> At(s'.lines, p).flag
    ensures u in s'.apps
    ensures s'.apps[u].pc.Own? ==>
      Knows(s'.apps[u].pc.ow, req, took + Takes(s, ev, u), At(s'.lines, p).flag) && s'.apps[u].t == s.apps[u].t
    ensures !s'.apps[u].pc.Own? ==> LeavesAs(s.apps[u], At(s.lines, p), s'.apps[u], At(s'.lines, p), req, p, GrantedBy(req, took))
  {
    assert AppOk(c, s.lines, s.locks, u, s.apps[u]);
    if Acts(s, ev, u) {
      OwnerStep(c, s, u, s.apps[u], ev.inp, took);
    } else {
      assert took + {} == took;
    }
  }

  lemma SendStep(c: Config, s: State, ev: Event, s': State, u: nat, p: Slot, req: Req)
    requires c.Valid() && Step(c, s, ev, s') && Acts(s, ev, u) && s.apps[u].pc == Own(p, req, Send)
    ensures u in s'.apps && s'.apps[u].pc == Own(p, req, Await(false, false)) && s'.apps[u].t == s.apps[u].t
  {}

  /** The flag of an owned line stays raised until its owner leaves the line. */
  lemma FlagStays(c: Config, ss: seq<State>, es: seq<Event>, k: nat, u: nat, p: Slot)
    requires c.Valid() && Run(c, ss, es) && k < |es| && u in ss[k].apps && ss[k].apps[u].pc.Own? && ss[k].apps[u].pc.p == p
    ensures !Acts(ss[k], es[k], u) && At(ss[k].lines, p).flag ==> At(ss[k + 1].lines, p).flag
  {
    OwnedByOne(c, ss, es, k, u, p);
    OwnedLineStays(c, ss, es, k, p);
  }

  lemma OwnedByOne(c: Config, ss: seq<State>, es: seq<Event>, k: nat, u: nat, p: Slot)
    requires c.Valid() && Run(c, ss, es) && k < |es| && u in ss[k].apps && ss[k].apps[u].pc.Own? && ss[k].apps[u].pc.p == p
    ensures !p.shadow && InTransition(At(ss[k].lines, p)) && At(ss[k].lines, p).owner == Some(u)
  {
    RunInv(c, ss, es, k);
    assert AppOk(c, ss[k].lines, ss[k].locks, u, ss[k].apps[u]);
  }

  lemma RunKnows(c: Config, ss: seq<State>, es: seq<Event>, k: nat, u: nat, p: Slot, req: Req, took: set<MsgType>)
    requires c.Valid() && Run(c, ss, es) && k < |es| && u in ss[k].apps && ss[k].apps[u].pc.Own?
    requires ss[k].apps[u].pc.p == p && ss[k].apps[u].pc.req == req && Knows(ss[k].apps[u].pc.ow, req, took, At(ss[k].lines, p).flag)
    ensures u in ss[k + 1].apps
    ensures ss[k + 1].apps[u].pc.Own? ==>
      && Knows(ss[k + 1].apps[u].pc.ow, req, took + Takes(ss[k], es[k], u), At(ss[k + 1].lines, p).flag)
      && ss[k + 1].apps[u].t == ss[k].apps[u].t
  {
    RunInv(c, ss, es, k);
    FlagStays(c, ss, es, k, u, p);
    StepKnows(c, ss[k], es[k], ss[k + 1], u, p, req, took);
  }

  /** In every step of the run the owner of p learns what it is answered. */
  ghost predicate Learns(ss: seq<State>, es: seq<Event>, u: nat, p: Slot, req: Req) {
    |ss| == |es| + 1 && forall k {:trigger es[k]} :: 0 <= k < |es| ==> LearnsIn(ss[k], es[k], ss[k + 1], u, p, req)
  }

  ghost predicate LearnsIn(s: State, ev: Event, s': State, u: nat, p: Slot, req: Req) {
    forall took: set<MsgType> :: LearnsAt(s, ev, s', u, p, req, took)
  }

  predicate LearnsAt(s: State, ev: Event, s': State, u: nat, p: Slot, req: Req, took: set<MsgType>) {
    u in s.apps && s.apps[u].pc.Own? && s.apps[u].pc.p == p && s.apps[u].pc.req == req && Knows(s.apps[u].pc.ow, req, took, At(s.lines, p).flag) ==>
      u in s'.apps
      && (s'.apps[u].pc.Own? ==> Knows(s'.apps[u].pc.ow, req, took + Takes(s, ev, u), At(s'.lines, p).flag) && s'.apps[u].t == s.apps[u].t)
  }

  lemma RunLearns(c: Config, ss: seq<State>, es: seq<Event>, u: nat, p: Slot, req: Req)
    requires c.Valid() && Run(c, ss, es)
    ensures Learns(ss, es, u, p, req)
  {
    forall k | 0 <= k < |es| ensures LearnsIn(ss[k], es[k], ss[k + 1], u, p, req) {
      var a := if u in ss[k].apps then ss[k].apps[u].pc else Idle;
      var s, e, s' := ss[k], es[k], ss[k + 1];
      forall took: set<MsgType> ensures LearnsAt(s, e, s', u, p, req, took) {
        if a.Own? && a.p == p && a.req == req && Knows(a.ow, req, took, At(s.lines, p).flag) { RunKnows(c, ss, es, k, u, p, req, took); }
      }
    }
  }

  lemma {:induction false} OwnsIs(ss: seq<State>, es: seq<Event>, i: nat, j: nat, u: nat, p: Slot, req: Req)
    requires Learns(ss, es, u, p, req) && Owns(ss, es, i, j, u, p, req)
    requires ss[i + 1].apps[u].pc == Own(p, req, Await(false, false))
    ensures Knows(ss[j].apps[u].pc.ow, req, TookSince(ss, es, i, j, u), At(ss[j].lines, p).flag) && ss[j].apps[u].t == ss[i + 1].apps[u].t
    decreases j
  {
    if j > i + 1 {
      OwnsIs(ss, es, i, j - 1, u, p, req);
      var k, took := j - 1, TookSince(ss, es, i, j - 1, u);
      var e := es[k];
      assert LearnsIn(ss[k], e, ss[k + 1], u, p, req) && LearnsAt(ss[k], e, ss[k + 1], u, p, req, took);
    }
  }

  /** The owner of a line leaves it by what it was answered since its request, and by whether an agent has raised
      the flag meanwhile: INVALID if so; else SHARED after a granted read miss, MODIFIED after a granted write miss
      or upgrade; and where it was after a refusal. After BITMAP_CHECK_FAIL the flag has been raised. It touches the bytes exactly if it was granted and not flagged. */
  lemma AnswerLeaves(c: Config, ss: seq<State>, es: seq<Event>, i: nat, j: nat, u: nat, p: Slot, req: Req)
    requires c.Valid() && Run(c, ss, es) && j < |es| && Owns(ss, es, i, j, u, p, req)
    requires u in ss[j + 1].apps && !ss[j + 1].apps[u].pc.Own?
    ensures var took := TookSince(ss, es, i, j, u);
      && (GrantedBy(req, took) || RefusedBy(took)) && (BitmapCheckFail in took ==> At(ss[j].lines, p).flag)
      && LeavesAs(ss[j].apps[u], At(ss[j].lines, p), ss[j + 1].apps[u], At(ss[j + 1].lines, p), req, p, GrantedBy(req, took))
  {
    assert Step(c, ss[i], es[i], ss[i + 1]);
    SendStep(c, ss[i], es[i], ss[i + 1], u, p, req);
    RunLearns(c, ss, es, u, p, req);
    OwnsIs(ss, es, i, j, u, p, req);
    RunLeaves(c, ss, es, j, u, p, req, TookSince(ss, es, i, j, u));
  }

  lemma RunLeaves(c: Config, ss: seq<State>, es: seq<Event>, j: nat, u: nat, p: Slot, req: Req, took: set<MsgType>)
    requires c.Valid() && Run(c, ss, es) && j < |es| && u in ss[j].apps && ss[j].apps[u].pc.Own?
    requires ss[j].apps[u].pc.p == p && ss[j].apps[u].pc.req == req && Knows(ss[j].apps[u].pc.ow, req, took, At(ss[j].lines, p).flag)
    requires u in ss[j + 1].apps && !ss[j + 1].apps[u].pc.Own?
    ensures BitmapCheckFail in took ==> At(ss[j].lines, p).flag
    ensures GrantedBy(req, took) || RefusedBy(took)
    ensures LeavesAs(ss[j].apps[u], At(ss[j].lines, p), ss[j + 1].apps[u], At(ss[j + 1].lines, p), req, p, GrantedBy(req, took))
  {
    RunInv(c, ss, es, j);
    FlagStays(c, ss, es, j, u, p);
    StepKnows(c, ss[j], es[j], ss[j + 1], u, p, req, took);
    LeavesFromExit(c, ss[j], es[j], ss[j + 1], u);
  }

  lemma LeavesFromExit(c: Config, s: State, ev: Event, s': State, u: nat)
    requires c.Valid() && Step(c, s, ev, s') && u in s.apps && s.apps[u].pc.Own? && u in s'.apps && !s'.apps[u].pc.Own?
    ensures s.apps[u].pc.ow.Exit1? || s.apps[u].pc.ow.Exit2?
  {}

  // ---- other messages ---------------------------------------------------------------------------------

  /** The messages that the handler of this request knows. */
  function Known(req: Req): set<MsgType> {
    Grants(req) + {MCheckFail, BitmapCheckFail} + (if req == WriteMissReq then {WriteMissSharedData, WriteMissSharedAggAck} else {})
  }

  /** A message for the line whose eviction the thread awaits. */
  predicate ForEviction(s: State, u: nat, m: Msg)
    requires u in s.apps
  {
    s.apps[u].evict.wait && m.tag == At(s.lines, DefaultSlot(s.apps[u].evict.cur)).tag
  }

  /** What an owner that awaits an answer makes of a message: one for its line it takes, if its handler knows it and it
      is not the data for a second time; one for the line it is evicting, and only that, it puts aside; and any other
      leaves it in the endless loop or the failed assertion of the code. */
  lemma TakesMessage(c: Config, ss: seq<State>, es: seq<Event>, i: nat, u: nat)
    requires c.Valid() && Run(c, ss, es) && i < |es| && Acts(ss[i], es[i], u) && ss[i].apps[u].pc.Own? && ss[i].apps[u].pc.ow.Await?
    ensures u in ss[i + 1].apps && ss[i + 1].apps[u].pc.Own? && es[i].inp.Recv?
    ensures var a, a', m := ss[i].apps[u], ss[i + 1].apps[u], es[i].inp.msg;
      && (a'.pc.ow == Stuck <==>
            if m.tag == a.t then m.mtype !in Known(a.pc.req) || (m.mtype.WriteMissSharedData? && a.pc.ow.hasData)
            else !ForEviction(ss[i], u, m))
      && a'.evict.stash == (if m.tag != a.t && ForEviction(ss[i], u, m) then Some(m) else a.evict.stash)
      && (m.tag != a.t && ForEviction(ss[i], u, m) ==> a'.pc == a.pc)
  {
    assert Step(c, ss[i], es[i], ss[i + 1]);
    MessageStep(c, ss[i], u, ss[i].apps[u], es[i].inp);
  }

  lemma MessageStep(c: Config, s: State, u: nat, a: App, inp: Input)
    requires c.Valid() && u in s.apps && s.apps[u] == a && a.pc.Own? && a.pc.ow.Await? && OwnStep(c, s, u, a, inp).Moves?
    ensures var a' := OwnStep(c, s, u, a, inp).a;
      && inp.Recv? && a'.pc.Own?
      && (a'.pc.ow == Stuck <==>
            if inp.msg.tag == a.t then inp.msg.mtype !in Known(a.pc.req) || (inp.msg.mtype.WriteMissSharedData? && a.pc.ow.hasData)
            else !ForEviction(s, u, inp.msg))
      && a'.evict.stash == (if inp.msg.tag != a.t && ForEviction(s, u, inp.msg) then Some(inp.msg) else a.evict.stash)
      && (inp.msg.tag != a.t && ForEviction(s, u, inp.msg) ==> a'.pc == a.pc)
  {}
}
