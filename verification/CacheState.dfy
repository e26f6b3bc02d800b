/** The shared and per-thread state of one node's cache: the main and shadow
    lines, the per-set lock, and the position of every application thread and
    agent inside its code. */
module CacheState {
  import opened Options

  type Tag = nat
  type Buf = nat

  datatype Status =
    | Invalid | Shared | Modified | ToInvalid
    | ToShared | ToModified | Preserved | ToPreserved

  /** Application threads and agent threads have separate numberings. */
  datatype Who = AppId(n: nat) | AgentId(n: nat)

  /** A reader/writer lock as its holders; WrLock.dfy shows that the 16-bit word does this. */
  datatype RW = RW(writer: Option<Who>, readers: set<Who>)

  const FREE := RW(None, {})

  /** One cache line. `flag` and `st` are one atomic word. `owner` and `dirty` are
      auxiliary: the application thread that is changing a main line or evicting a
      shadow line, and whether the line was MODIFIED when its eviction was sent. */
  datatype Line = Line(flag: bool, st: Status, tag: Tag, data: Option<Buf>,
                       lock: RW, owner: Option<nat>, dirty: bool)
  {
    predicate Is(f: bool, s: Status) { flag == f && st == s }
    function Set(f: bool, s: Status): Line { this.(flag := f, st := s) }
    predicate Stable() { (st.Invalid? || st.Shared? || st.Modified?) }
    predicate Used() { st != Preserved }
    predicate Holds(t: Tag) { st != Preserved && tag == t }
  }

  datatype Slot = Slot(shadow: bool, set_: nat, way: nat)

  /** The lock of one set. `moving` is auxiliary: the way whose main line has been
      copied to its shadow slot while the main line is not yet rewritten. */
  datatype SetLock = SetLock(rw: RW, moving: Option<nat>)

  /** Any number of sets and ways, any map from tags to sets. */
  datatype Config = Config(depth: nat, width: nat, home: Tag -> nat)
  {
    ghost predicate Valid() { forall t :: home(t) < depth }
    predicate ValidSlot(p: Slot) { p.set_ < depth && p.way < width }
  }

  type Lines = map<Slot, Line>
  type Locks = map<nat, SetLock>

  const EMPTY_LINE := Line(false, Preserved, 0, None, FREE, None, false)

  function At(lines: Lines, p: Slot): Line {
    if p in lines then lines[p] else EMPTY_LINE
  }

  function LockOf(locks: Locks, s: nat): SetLock {
    if s in locks then locks[s] else SetLock(FREE, None)
  }

  datatype MsgType =
    | ReadMissAckData | ReadMissDirtyAckData
    | WriteMissAckData | WriteMissDirtyAckData | WriteMissSharedData | WriteMissSharedAggAck
    | WriteSharedNotOnlyAggAck | WriteSharedOnlyAck
    | EvictSharedAck | EvictDirtyAck
    | MCheckFail | BitmapCheckFail | OtherMsg

  datatype Msg = Msg(tag: Tag, mtype: MsgType)

  datatype AgentMsgType = WriteSharedNotOnly | WriteMissShared | ReadMissDirty | WriteMissDirty | OtherAgentMsg

  datatype AgentMsg = AgentMsg(tag: Tag, mtype: AgentMsgType)

  datatype Req = ReadMissReq | WriteMissReq | WriteSharedReq

  datatype Access = Read | Write

  datatype Why = BothFound | BadReply

  /** Inside start_evict. */
  datatype EvPc = EvStart | EvLoad | EvRecycle | EvFlag(tmp: Status) | EvCas(tmp: Status, f: bool) | EvLock(tmp: Status) | EvSend(tmp: Status)

  /** After the set's read lock is released by a thread that owns no line. */
  datatype Then = ToNew | ToTail | ToHit(q: Slot) | ToCrash

  /** The lookup under the set's read lock. */
  datatype FindPc =
    | RLockSet | FindMain(i: nat) | FindShadow(i: nat, m: Option<nat>)
    | Decide(m: Option<nat>, sh: Option<nat>) | CasInvalid(w: nat) | RUnlockSet(then_: Then)

  /** newLine under the set's write lock. A thread at Fill or Refill pops a buffer; with an empty stack the
      code is undefined there, and the thread does not move. */
  datatype NewPc =
    | WLockSet | Scan(i: nat, ph: nat, ex: bool, av: Option<nat>, ev: Option<nat>)
    | Fill(w: nat) | EvChk(w: nat) | Retag(w: nat) | MvLoad(w: nat) | MvStore(w: nat, tmp: Status) | Refill(w: nat)
    | WUnlockSet(fresh_: bool)

  /** A thread that has moved a main line to TO_SHARED or TO_MODIFIED. `Stuck` is the
      endless loop, or the failed assert, that follows an unexpected reply. */
  datatype OwnPc =
    | OwnUnlock | Send | Await(hasData: bool, acked: bool) | SpinFlag
    | Exit1(got: bool, pass: nat) | Exit2(got: bool, pass: nat) | Stuck

  /** Access to the bytes of a line under the line's lock. */
  datatype LinePc = LockLine | Check1 | Check2 | UnlockLine(ok: bool)

  /** Inside wait_evict. */
  datatype WaitPc = WRecv | WSpin | WRecycle | Revert(n: nat) | WUnlock

  /** Where an application thread is inside readLine or writeLine. */
  datatype Pc =
    | Idle
    | Evict(ev: EvPc, retry: bool)
    | Find(fd: FindPc)
    | New(nw: NewPc)
    | Own(p: Slot, req: Req, ow: OwnPc)
    | Touch(p: Slot, hit: bool, ln: LinePc)
    | Tail(dontWait: bool)
    | Wait(wt: WaitPc)
    | Crash(why: Why)

  /** The thread-local eviction variables of Cache.h:109-115. */
  datatype Eviction = Eviction(startNext: bool, next: Option<Slot>, wait: bool, cur: Option<Slot>,
                               evDirty: bool, stash: Option<Msg>)

  /** The thread's stack of free buffers. `pend`, `fills` and `quota` are auxiliary: the
      shadow slots the thread is evicting, the main slots it was the first to fill, and
      the size its stack started with. */
  datatype Pool = Pool(stack: seq<Buf>, pend: set<Slot>, fills: set<Slot>, quota: nat)

  /** An application thread: its position, the access it performs and its result so far. */
  datatype App = App(pc: Pc, access: Access, t: Tag, succ: bool, evict: Eviction, pool: Pool)
  {
    function Go(pc': Pc): App { this.(pc := pc') }
  }

  datatype AgentPc =
    | AIdle
    | ALock
    | AFindMain(i: nat)
    | AFindShadow(i: nat, m: Option<nat>)
    | ALoad(p: Slot)
    | ACas(p: Slot, tmp: Status)
    | AUnlock
    | ACrash(why: Why)

  datatype Agent = Agent(pc: AgentPc, msg: AgentMsg)
  {
    function Go(pc': AgentPc): Agent { this.(pc := pc') }
  }

  /** Where a data buffer is (auxiliary). */
  datatype Loc = AtSlot(p: Slot) | InStack(u: nat, k: nat)

  /** `revoked` and `downgraded` are history: the tags for which an agent has finished
      a WRITE_* message (a READ_MISS_DIRTY message) and for which the node has sent no
      miss (no write request) since. */
  datatype State = State(lines: Lines, locks: Locks, apps: map<nat, App>, agents: map<nat, Agent>,
                         loc: map<Buf, Loc>, revoked: set<Tag>, downgraded: set<Tag>)

  function DefaultSlot(o: Option<Slot>): Slot {
    if o.Some? then o.value else Slot(true, 0, 0)
  }
}
