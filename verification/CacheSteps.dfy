/** The steps of Cache.cpp and CacheAgent.cpp: one step for each atomic load,
    compare-and-swap, store, lock action, send and receive. */
module CacheSteps {
  import opened Options
  import opened CacheState

  /** What a step does to the shared state: at most one line is written, at most one set
      lock changes, at most one buffer changes place. */
  datatype Effect = Effect(wr: Option<(Slot, Line)>, lk: Option<(nat, SetLock)>, mv: Option<(Buf, Loc)>,
                           revoke: set<Tag>, downgrade: set<Tag>, asked: set<Tag>, askedWrite: set<Tag>)

  const NOTHING := Effect(None, None, None, {}, {}, {}, {})

  function Wrote(p: Slot, l: Line): Effect { NOTHING.(wr := Some((p, l))) }

  function Relock(s: nat, k: SetLock): Effect { NOTHING.(lk := Some((s, k))) }

  /** The outcome of a step: the thread is not able to move, or its new local state and the effect. */
  datatype AppStep = Blocked | Moves(a: App, e: Effect)

  datatype AgentStep = AgentBlocked | AgentMoves(g: Agent, ge: Effect)

  /** What the environment supplies to a step that needs it. */
  datatype Input = Tau | Call(access: Access, tag: Tag) | Recv(msg: Msg) | RecvAgent(amsg: AgentMsg)

  function Local(a: App): AppStep { Moves(a, NOTHING) }

  function Transit(req: Req): Status { if req == ReadMissReq then ToShared else ToModified }

  function Target(req: Req, got: bool): Status {
    match req
    case ReadMissReq => if got then Shared else Invalid
    case WriteMissReq => if got then Modified else Invalid
    case WriteSharedReq => if got then Modified else Shared
  }

  /** compare_exchange_strong on the (flag, status) word of slot p. */
  function Cas(lines: Lines, p: Slot, f: bool, s: Status, f': bool, s': Status): Option<Line> {
    var l := At(lines, p);
    if l.Is(f, s) then Some(l.Set(f', s')) else None
  }

  function RLocked(rw: RW, w: Who): Option<RW> {
    if rw.writer.None? then Some(rw.(readers := rw.readers + {w})) else None
  }

  function WLocked(rw: RW, w: Who): Option<RW> {
    if rw == FREE then Some(RW(Some(w), {})) else None
  }

  function RUnlocked(rw: RW, w: Who): RW { rw.(readers := rw.readers - {w}) }

  function ReadUnlock(s: State, home: nat, w: Who): Effect {
    var k := LockOf(s.locks, home);
    Relock(home, k.(rw := RUnlocked(k.rw, w)))
  }

  /** start_evict, Cache.cpp:546-590. */
  function EvictStep(s: State, u: nat, a: App): AppStep
    requires a.pc.Evict?
  {
    var retry := a.pc.retry;
    var p := DefaultSlot(a.evict.cur);
    var l := At(s.lines, p);
    var done := if retry then Wait(WRecv) else Find(RLockSet);
    match a.pc.ev
    case EvStart =>
      if a.evict.startNext then
        Local(a.(evict := a.evict.(startNext := false, wait := true, cur := a.evict.next, next := None), pc := Evict(EvLoad, retry)))
      else Local(a.Go(Find(RLockSet)))
    case EvLoad => Local(a.Go(Evict(if l.st == Invalid then EvRecycle else EvFlag(l.st), retry)))
    case EvRecycle => Recycle(s, u, a.(evict := a.evict.(wait := false)), p, if retry then Wait(WUnlock) else Find(RLockSet))
    case EvFlag(tmp) => Local(a.Go(Evict(EvCas(tmp, l.flag), retry)))
    case EvCas(tmp, f) =>
      var cas := Cas(s.lines, p, f, tmp, f, ToPreserved);
      if cas.Some?
      then Moves(a.Go(Evict(EvLock(tmp), retry)), Wrote(p, cas.value.(dirty := tmp == Modified)))
      else Local(a.Go(Evict(EvLoad, retry)))
    case EvLock(tmp) =>
      var k := WLocked(l.lock, AppId(u));
      if k.None? then Blocked else Moves(a.Go(Evict(EvSend(tmp), retry)), Wrote(p, l.(lock := k.value)))
    case EvSend(tmp) => Local(a.(evict := a.evict.(evDirty := tmp != Shared), pc := done))
  }

  /** Give the buffer of an evicted line back to the thread's stack and free the shadow
      slot, Cache.cpp:566-568, 610-612, 664-666. */
  function Recycle(s: State, u: nat, a: App, p: Slot, pc': Pc): AppStep {
    var l := At(s.lines, p);
    var b := if l.data.Some? then l.data.value else 0;
    Moves(a.(pool := a.pool.(stack := a.pool.stack + [b], pend := a.pool.pend - {p}), pc := pc'),
          Wrote(p, l.(flag := false, st := Preserved, data := None, owner := None))
          .(mv := Some((b, InStack(u, |a.pool.stack|)))))
  }

  /** A compare-and-swap that takes main line p to a transient state. */
  function TryOwn(s: State, u: nat, a: App, p: Slot, from: Status, req: Req, otherwise: FindPc): AppStep {
    var cas := Cas(s.lines, p, false, from, false, Transit(req));
    if cas.Some?
    then Moves(a.Go(Own(p, req, OwnUnlock)), Wrote(p, cas.value.(owner := Some(u))))
    else Local(a.Go(Find(otherwise)))
  }

  /** Lookup under the set's read lock and the decision that follows it,
      Cache.cpp:49-53, 69-92, 118-122, 174-175, 275-276, 328-329, 381-382, 403-432. */
  function FindStep(c: Config, s: State, u: nat, a: App): AppStep
    requires a.pc.Find? && c.Valid()
  {
    var home := c.home(a.t);
    match a.pc.fd
    case RLockSet =>
      var k := LockOf(s.locks, home);
      var rw := RLocked(k.rw, AppId(u));
      if rw.None? then Blocked else Moves(a.Go(Find(FindMain(0))), Relock(home, k.(rw := rw.value)))
    case FindMain(i) =>
      Local(a.Go(Find(
        if i >= c.width then FindShadow(0, None)
        else if At(s.lines, Slot(false, home, i)).Holds(a.t) then FindShadow(0, Some(i))
        else FindMain(i + 1))))
    case FindShadow(i, m) =>
      Local(a.Go(Find(
        if i >= c.width then Decide(m, None)
        else if At(s.lines, Slot(true, home, i)).Holds(a.t) then Decide(m, Some(i))
        else FindShadow(i + 1, m))))
    case Decide(m, sh) =>
      if m.None? then
        Local(a.Go(Find(RUnlockSet(
          if sh.None? then ToNew
          else if a.evict.wait && At(s.lines, DefaultSlot(a.evict.cur)).tag == a.t then ToTail
          else ToHit(Slot(true, home, sh.value))))))
      else if sh.Some? then Local(a.Go(Find(RUnlockSet(ToCrash))))
      else
        var p := Slot(false, home, m.value);
        if a.access == Read then TryOwn(s, u, a, p, Invalid, ReadMissReq, RUnlockSet(ToHit(p)))
        else TryOwn(s, u, a, p, Shared, WriteSharedReq, CasInvalid(m.value))
    case CasInvalid(m) =>
      var p := Slot(false, home, m);
      TryOwn(s, u, a, p, Invalid, WriteMissReq, RUnlockSet(ToHit(p)))
    case RUnlockSet(next) =>
      var pc' := match next
        case ToNew => New(WLockSet)
        case ToTail => Tail(false)
        case ToHit(p) => Touch(p, true, LockLine)
        case ToCrash => Crash(BothFound);
      Moves(a.Go(pc'), ReadUnlock(s, home, AppId(u)))
  }

  /** One load of newLine's scan, Cache.cpp:442-456: phase ph of way i is the ph-th status
      load that the loop body may make. At the end, the choice of Cache.cpp:457-472. */
  function ScanStep(c: Config, s: State, a: App): NewPc
    requires a.pc.New? && a.pc.nw.Scan? && c.Valid()
  {
    var Scan(i, ph, ex, av, ev) := a.pc.nw;
    var main := At(s.lines, Slot(false, c.home(a.t), i));
    var shadow := At(s.lines, Slot(true, c.home(a.t), i));
    if i >= c.width then
      if ex then WUnlockSet(false)
      else if av.Some? && |a.pool.stack| >= 1 then Fill(av.value)
      else if ev.Some? then EvChk(ev.value)
      else WUnlockSet(false)
    else match ph
      case 0 => if main.Holds(a.t) then Scan(i + 1, 0, true, av, ev) else Scan(i, 1, ex, av, ev)
      case 1 => if shadow.Holds(a.t) then Scan(i + 1, 0, true, av, ev) else Scan(i, 2, ex, av, ev)
      case 2 => if main.st == Preserved then Scan(i + 1, 0, ex, Some(i), ev) else Scan(i, 3, ex, av, ev)
      case 3 => Scan(i, if main.st == Invalid then 6 else 4, ex, av, ev)
      case 4 => Scan(i, if main.st == Shared then 6 else 5, ex, av, ev)
      case 5 => if main.st == Modified then Scan(i, 6, ex, av, ev) else Scan(i + 1, 0, ex, av, ev)
      case _ => Scan(i + 1, 0, ex, av, if shadow.st == Preserved then Some(i) else ev)
  }

  /** The main line p takes tag a.t and the buffer on top of the thread's stack. */
  function TakeBuffer(s: State, a: App, p: Slot): AppStep
    requires |a.pool.stack| > 0
  {
    var b := a.pool.stack[|a.pool.stack| - 1];
    Moves(a.(pool := a.pool.(stack := a.pool.stack[..|a.pool.stack| - 1]), pc := New(WUnlockSet(true))),
          Wrote(p, At(s.lines, p).(tag := a.t, data := Some(b), flag := false, st := Invalid))
          .(mv := Some((b, AtSlot(p)))))
  }

  /** newLine under the set's write lock, Cache.cpp:69-75, 433-498. */
  function NewStep(c: Config, s: State, u: nat, a: App): AppStep
    requires a.pc.New? && c.Valid()
  {
    var home := c.home(a.t);
    var k := LockOf(s.locks, home);
    match a.pc.nw
    case WLockSet =>
      var rw := WLocked(k.rw, AppId(u));
      if rw.None? then Blocked
      else Moves(a.Go(New(Scan(0, 0, false, None, None))), Relock(home, k.(rw := rw.value)))
    case Scan(_, _, _, _, _) => Local(a.Go(New(ScanStep(c, s, a))))
    case Fill(w) =>
      var p := Slot(false, home, w);
      if |a.pool.stack| == 0 then Blocked else
      var r := TakeBuffer(s, a, p);
      Moves(r.a.(pool := r.a.pool.(fills := r.a.pool.fills + {p})), r.e)
    case EvChk(w) =>
      Local(a.Go(New(if At(s.lines, Slot(false, home, w)).st == Invalid then Retag(w) else MvLoad(w))))
    case Retag(w) =>
      var p := Slot(false, home, w);
      Moves(a.Go(New(WUnlockSet(true))), Wrote(p, At(s.lines, p).(tag := a.t)))
    case MvLoad(w) => Local(a.Go(New(MvStore(w, At(s.lines, Slot(false, home, w)).st))))
    case MvStore(w, tmp) =>
      var from := At(s.lines, Slot(false, home, w));
      var p := Slot(true, home, w);
      Moves(a.(pool := a.pool.(pend := a.pool.pend + {p}), pc := New(Refill(w))),
            Wrote(p, At(s.lines, p).(tag := from.tag, data := from.data, flag := false, st := tmp, owner := Some(u)))
            .(lk := Some((home, k.(moving := Some(w)))),
              mv := if from.data.Some? then Some((from.data.value, AtSlot(p))) else None))
    case Refill(w) =>
      if |a.pool.stack| == 0 then Blocked else
      var r := TakeBuffer(s, a, Slot(false, home, w));
      Moves(r.a.(evict := r.a.evict.(startNext := true, next := Some(Slot(true, home, w)))),
            r.e.(lk := Some((home, k.(moving := None)))))
    case WUnlockSet(fresh_) => Moves(a.Go(Tail(fresh_)), Relock(home, k.(rw := FREE)))
  }

  /** How a reply for the line itself is taken by readMiss, writeMiss and writeShared. */
  datatype Verdict = Granted | Refused | AwaitFlag | SharedData | AggAck | Unexpected

  function Judge(req: Req, m: MsgType): Verdict {
    match m
    case MCheckFail => Refused
    case BitmapCheckFail => AwaitFlag
    case ReadMissAckData => if req == ReadMissReq then Granted else Unexpected
    case ReadMissDirtyAckData => if req == ReadMissReq then Granted else Unexpected
    case WriteMissAckData => if req == WriteMissReq then Granted else Unexpected
    case WriteMissDirtyAckData => if req == WriteMissReq then Granted else Unexpected
    case WriteMissSharedData => if req == WriteMissReq then SharedData else Unexpected
    case WriteMissSharedAggAck => if req == WriteMissReq then AggAck else Unexpected
    case WriteSharedNotOnlyAggAck => if req == WriteSharedReq then Granted else Unexpected
    case WriteSharedOnlyAck => if req == WriteSharedReq then Granted else Unexpected
    case _ => Unexpected
  }

  /** Cache.cpp:709-758, 798-866, 905-966. */
  function OnReply(v: Verdict, hasData: bool, acked: bool): OwnPc {
    match v
    case Granted => Exit1(true, 0)
    case Refused => Exit1(false, 0)
    case AwaitFlag => SpinFlag
    case SharedData => if hasData then Stuck else if acked then Exit1(true, 0) else Await(true, acked)
    case AggAck => if hasData then Exit1(true, 0) else Await(hasData, true)
    case Unexpected => Stuck
  }

  /** Request, replies and the exit loops of the owner of a main line,
      Cache.cpp:122-172, 276-326, 329-379, 696-991. */
  function OwnStep(c: Config, s: State, u: nat, a: App, inp: Input): AppStep
    requires a.pc.Own? && c.Valid()
  {
    var Own(p, req, ow) := a.pc;
    match ow
    case OwnUnlock => Moves(a.Go(Own(p, req, Send)), ReadUnlock(s, c.home(a.t), AppId(u)))
    case Send =>
      Moves(a.Go(Own(p, req, Await(false, false))),
            NOTHING.(asked := if req == WriteSharedReq then {} else {a.t},
                     askedWrite := if req == ReadMissReq then {} else {a.t}))
    case Await(hasData, acked) =>
      if !inp.Recv? then Blocked
      else if inp.msg.tag == a.t then Local(a.Go(Own(p, req, OnReply(Judge(req, inp.msg.mtype), hasData, acked))))
      else if a.evict.wait && inp.msg.tag == At(s.lines, DefaultSlot(a.evict.cur)).tag then Local(a.(evict := a.evict.(stash := Some(inp.msg))))
      else Local(a.Go(Own(p, req, Stuck)))
    case SpinFlag => Local(if At(s.lines, p).flag then a.Go(Own(p, req, Exit1(false, 0))) else a)
    case Exit1(got, pass) =>
      var cas := Cas(s.lines, p, true, Transit(req), false, Invalid);
      if cas.Some?
      then Moves(a.(succ := false, pc := Tail(false)), Wrote(p, cas.value.(owner := None)))
      else Local(a.Go(Own(p, req, Exit2(got, pass))))
    case Exit2(got, pass) =>
      var cas := Cas(s.lines, p, false, Transit(req), false, Target(req, got));
      if cas.Some?
      then Moves(if got then a.Go(Touch(p, false, LockLine)) else a.(succ := false, pc := Tail(false)),
                 Wrote(p, cas.value.(owner := None)))
      else Local(a.Go(Own(p, req, Exit1(got, pass + 1))))
    case Stuck => Blocked
  }

  /** Access to the bytes of a line under its own lock: the hit paths and the end of a
      successful miss, Cache.cpp:82-89, 159-166, 176-186, 236-243, 313-320, 366-373, 383-393. A write
      to a shadow line takes the read lock, Cache.cpp:236-243. */
  function TouchStep(s: State, u: nat, a: App): AppStep
    requires a.pc.Touch?
  {
    var Touch(p, hit, ln) := a.pc;
    var l, shared := At(s.lines, p), a.access == Read || p.shadow;
    match ln
    case LockLine =>
      var k := if shared then RLocked(l.lock, AppId(u)) else WLocked(l.lock, AppId(u));
      if k.None? then Blocked else Moves(a.Go(Touch(p, hit, Check1)), Wrote(p, l.(lock := k.value)))
    case Check1 =>
      Local(a.Go(Touch(p, hit,
        if l.st == (if a.access == Read then Shared else Modified) then UnlockLine(true)
        else if a.access == Read then Check2
        else UnlockLine(false))))
    case Check2 => Local(a.Go(Touch(p, hit, UnlockLine(l.st == Modified))))
    case UnlockLine(ok) =>
      Moves(a.(succ := ok, pc := Tail(hit && ok)),
            Wrote(p, l.(lock := if shared then RUnlocked(l.lock, AppId(u)) else FREE)))
  }

  /** The compare-and-swaps that undo a refused eviction, Cache.cpp:616-640. */
  function RevertCas(s: State, p: Slot, evDirty: bool, n: nat): Option<Line> {
    match n
    case 0 => Cas(s.lines, p, false, ToPreserved, false, if evDirty then Modified else Shared)
    case 1 => Cas(s.lines, p, true, ToPreserved, false, Invalid)
    case 2 => Cas(s.lines, p, false, ToShared, false, Shared)
    case _ => Cas(s.lines, p, true, ToShared, false, Invalid)
  }

  /** What an answer to an eviction leads to, Cache.cpp:606-689. */
  function OnEvictReply(m: MsgType): Pc {
    match m
    case EvictDirtyAck => Wait(WRecycle)
    case EvictSharedAck => Wait(WRecycle)
    case MCheckFail => Wait(Revert(0))
    case BitmapCheckFail => Wait(WSpin)
    case _ => Crash(BadReply)
  }

  function Again(a: App): Pc { if a.succ then Idle else Evict(EvStart, false) }

  /** wait_evict, Cache.cpp:591-695. */
  function WaitStep(s: State, u: nat, a: App, inp: Input): AppStep
    requires a.pc.Wait?
  {
    var p := DefaultSlot(a.evict.cur);
    var l := At(s.lines, p);
    match a.pc.wt
    case WRecv =>
      if a.evict.stash.None? && !inp.Recv? then Blocked else
      var m := if a.evict.stash.Some? then a.evict.stash.value else inp.msg;
      Local(a.(evict := a.evict.(stash := None), pc := if m.tag == l.tag then OnEvictReply(m.mtype) else Crash(BadReply)))
    case WSpin => Local(if l.flag then a.Go(Wait(WRecycle)) else a)
    case WRecycle => Recycle(s, u, a, p, Wait(WUnlock))
    case Revert(n) =>
      var cas := RevertCas(s, p, a.evict.evDirty, n);
      if cas.Some?
      then Moves(a.(evict := a.evict.(startNext := true, next := a.evict.cur), pc := Evict(EvStart, true)), Wrote(p, cas.value))
      else Local(a.Go(Wait(Revert(if n >= (if a.evict.evDirty then 3 else 1) then 0 else n + 1))))
    case WUnlock => Moves(a.(evict := a.evict.(wait := false), pc := Again(a)), Wrote(p, l.(lock := FREE)))
  }

  /** One step of application thread u. */
  function AppMove(c: Config, s: State, u: nat, a: App, inp: Input): AppStep
    requires c.Valid()
  {
    match a.pc
    case Idle =>
      if inp.Call? then Local(a.(access := inp.access, t := inp.tag, succ := false, pc := Evict(EvStart, false)))
      else Blocked
    case Evict(_, _) => EvictStep(s, u, a)
    case Find(_) => FindStep(c, s, u, a)
    case New(_) => NewStep(c, s, u, a)
    case Own(_, _, _) => OwnStep(c, s, u, a, inp)
    case Touch(_, _, _) => TouchStep(s, u, a)
    case Tail(dontWait) => Local(a.Go(if !dontWait && a.evict.wait then Wait(WRecv) else Again(a)))
    case Wait(_) => WaitStep(s, u, a, inp)
    case Crash(_) => Blocked
  }

  predicate Takes(m: AgentMsgType) { m != OtherAgentMsg }

  predicate IsWrite(m: AgentMsgType) { (m.WriteSharedNotOnly? || m.WriteMissShared? || m.WriteMissDirty?) }

  /** The history entry of an agent that has finished its message. */
  function Finished(m: AgentMsg): Effect {
    NOTHING.(revoke := if IsWrite(m.mtype) then {m.tag} else {},
             downgrade := if m.mtype == ReadMissDirty then {m.tag} else {})
  }

  /** The compare-and-swap that an agent tries after it loaded status tmp, if any:
      (new flag, new status), CacheAgent.cpp:46-54, 63-71, 80-90, 99-109. */
  function Reaction(m: AgentMsgType, tmp: Status): Option<(bool, Status)> {
    if m == ReadMissDirty then
      if tmp == Modified then Some((false, Shared))
      else if tmp == ToPreserved then Some((false, ToShared))
      else None
    else if tmp == (if m == WriteMissDirty then Modified else Shared) then Some((false, Invalid))
    else if tmp == ToModified || tmp == ToShared || tmp == ToPreserved then Some((true, tmp))
    else None
  }

  /** One step of agent v, CacheAgent.cpp:12-122 and findLineForAgent, Cache.cpp:499-530. */
  function AgentMove(c: Config, s: State, v: nat, g: Agent, inp: Input): AgentStep
    requires c.Valid()
  {
    var home := c.home(g.msg.tag);
    var k := LockOf(s.locks, home);
    match g.pc
    case AIdle =>
      if inp.RecvAgent? then AgentMoves(Agent(ALock, inp.amsg), NOTHING) else AgentBlocked
    case ALock =>
      var rw := RLocked(k.rw, AgentId(v));
      if rw.None? then AgentBlocked else AgentMoves(g.Go(AFindMain(0)), Relock(home, k.(rw := rw.value)))
    case AFindMain(i) =>
      if i >= c.width then AgentMoves(g.Go(AFindShadow(0, None)), NOTHING)
      else if At(s.lines, Slot(false, home, i)).Holds(g.msg.tag) then AgentMoves(g.Go(AFindShadow(0, Some(i))), NOTHING)
      else AgentMoves(g.Go(AFindMain(i + 1)), NOTHING)
    case AFindShadow(i, m) =>
      if i >= c.width then
        if m.None? then AgentMoves(g.Go(AUnlock), Finished(g.msg))
        else AgentMoves(g.Go(if Takes(g.msg.mtype) then ALoad(Slot(false, home, m.value)) else ACrash(BadReply)), NOTHING)
      else if At(s.lines, Slot(true, home, i)).Holds(g.msg.tag) then
        AgentMoves(g.Go(if m.Some? then ACrash(BothFound)
                        else if Takes(g.msg.mtype) then ALoad(Slot(true, home, i))
                        else ACrash(BadReply)), NOTHING)
      else AgentMoves(g.Go(AFindShadow(i + 1, m)), NOTHING)
    case ALoad(p) =>
      var st := At(s.lines, p).st;
      if st == Preserved then AgentMoves(g.Go(AUnlock), Finished(g.msg))
      else if Reaction(g.msg.mtype, st).Some? then AgentMoves(g.Go(ACas(p, st)), NOTHING)
      else AgentMoves(g, NOTHING)
    case ACas(p, tmp) =>
      var r := Reaction(g.msg.mtype, tmp);
      if r.None? then AgentBlocked else
      var cas := Cas(s.lines, p, false, tmp, r.value.0, r.value.1);
      if cas.Some?
      then AgentMoves(g.Go(AUnlock), Finished(g.msg).(wr := Some((p, cas.value))))
      else AgentMoves(g.Go(ALoad(p)), NOTHING)
    case AUnlock => AgentMoves(g.Go(AIdle), ReadUnlock(s, home, AgentId(v)))
    case ACrash(_) => AgentBlocked
  }

  /** The shared state after an effect. */
  function Apply(s: State, e: Effect): State {
    s.(lines := if e.wr.Some? then s.lines[e.wr.value.0 := e.wr.value.1] else s.lines,
       locks := if e.lk.Some? then s.locks[e.lk.value.0 := e.lk.value.1] else s.locks,
       loc := if e.mv.Some? then s.loc[e.mv.value.0 := e.mv.value.1] else s.loc,
       revoked := s.revoked - e.asked + e.revoke,
       downgraded := s.downgraded - e.askedWrite + e.downgrade)
  }

  /** Application thread u takes one step from s to s'. */
  ghost predicate AppNext(c: Config, s: State, u: nat, inp: Input, s': State)
    requires c.Valid()
  {
    u in s.apps &&
    var r := AppMove(c, s, u, s.apps[u], inp);
    r.Moves? && s' == Apply(s, r.e).(apps := s.apps[u := r.a])
  }

  /** Agent v takes one step from s to s'. */
  ghost predicate AgentNext(c: Config, s: State, v: nat, inp: Input, s': State)
    requires c.Valid()
  {
    v in s.agents &&
    var r := AgentMove(c, s, v, s.agents[v], inp);
    r.AgentMoves? && s' == Apply(s, r.ge).(agents := s.agents[v := r.g])
  }
}
