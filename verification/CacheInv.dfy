/** The inductive invariant of the cache: what holds of every line, every set lock,
    every application thread and every agent in every reachable state. */
module CacheInv {
  import opened Options
  import opened CacheState
  import opened CacheSteps

  // ---- positions -------------------------------------------------------------

  predicate HoldsRead(pc: Pc) { (pc.Find? && !pc.fd.RLockSet?) || (pc.Own? && pc.ow.OwnUnlock?) }

  predicate HoldsWrite(pc: Pc) { pc.New? && !pc.nw.WLockSet? }

  predicate AgentHoldsRead(pc: AgentPc) {
    pc.AFindMain? || pc.AFindShadow? || pc.ALoad? || pc.ACas? || pc.AUnlock?
  }

  /** The thread has moved main line p to TO_SHARED or TO_MODIFIED and not yet out of it. */
  predicate Owning(pc: Pc, p: Slot) { pc.Own? && pc.p == p }

  /** The request for the line owned has not been sent. */
  predicate BeforeSend(pc: Pc) { pc.Own? && (pc.ow.OwnUnlock? || pc.ow.Send?) }

  /** A miss for the line owned has not been sent. */
  predicate BeforeMiss(pc: Pc) { BeforeSend(pc) && pc.req != WriteSharedReq }

  /** Inside start_evict, between choosing the line and having sent its eviction. */
  predicate Evicting(pc: Pc) { pc.Evict? && !pc.ev.EvStart? }

  /** The eviction of `cur` has been sent and not been answered. */
  predicate Pending(a: App) {
    a.evict.wait && !Evicting(a.pc) && a.pc != Wait(WUnlock) && a.pc != Evict(EvStart, true)
  }

  // ---- lines -------------------------------------------------------------------

  predicate LineOk(c: Config, p: Slot, l: Line) {
    && (l.Used() ==> c.ValidSlot(p) && p.set_ == c.home(l.tag))
    && (l.flag ==> (l.st.ToShared? || l.st.ToModified? || l.st.ToPreserved?))
    && (l.data.Some? <==> l.Used())
    && (if p.shadow
        then (l.st.Preserved? || l.st.Invalid? || l.st.Shared? || l.st.Modified? || l.st.ToPreserved? || l.st.ToShared?) && (l.owner.Some? <==> l.Used())
        else (l.st.Preserved? || l.st.Invalid? || l.st.Shared? || l.st.Modified? || l.st.ToShared? || l.st.ToModified?) && (l.owner.Some? <==> l.Used() && !l.Stable()))
  }

  predicate OwnerOk(apps: map<nat, App>, p: Slot, l: Line) {
    l.owner.Some? ==>
      l.owner.value in apps &&
      var a := apps[l.owner.value];
      if p.shadow then p in a.pool.pend else Owning(a.pc, p)
  }

  predicate LockOk(k: SetLock) {
    && (k.rw.writer.Some? ==> k.rw.readers == {})
    && (k.rw.writer.None? ==> k.moving.None?)
  }

  /** The line is in use and is not the copy that a running newLine is about to rewrite. */
  predicate Live(locks: Locks, p: Slot, l: Line) {
    l.Used() && !(!p.shadow && LockOf(locks, p.set_).moving == Some(p.way))
  }

  ghost predicate Unique(lines: Lines, locks: Locks) {
    forall p, q :: Live(locks, p, At(lines, p)) && Live(locks, q, At(lines, q)) && At(lines, p).tag == At(lines, q).tag ==> p == q
  }

  // ---- application threads ---------------------------------------------------

  predicate FoundMain(c: Config, lines: Lines, t: Tag, w: nat) {
    w < c.width && At(lines, Slot(false, c.home(t), w)).Holds(t)
  }

  /** No line of the set holds t among the first n ways. */
  ghost predicate NoTag(lines: Lines, s: nat, t: Tag, n: nat) {
    forall j :: 0 <= j < n ==> !At(lines, Slot(false, s, j)).Holds(t) && !At(lines, Slot(true, s, j)).Holds(t)
  }

  predicate CanFill(c: Config, lines: Lines, s: nat, w: nat) {
    w < c.width && At(lines, Slot(false, s, w)).st == Preserved
  }

  predicate CanEvict(c: Config, lines: Lines, s: nat, w: nat) {
    w < c.width && At(lines, Slot(false, s, w)).Stable() && At(lines, Slot(true, s, w)).st == Preserved
  }

  ghost predicate ScanOk(c: Config, lines: Lines, s: nat, t: Tag, pc: NewPc)
    requires pc.Scan?
  {
    var Scan(i, ph, ex, av, ev) := pc;
    var main := At(lines, Slot(false, s, i));
    && i <= c.width && ph <= 6
    && (i == c.width ==> ph == 0)
    && (!ex ==> NoTag(lines, s, t, i))
    && (av.Some? ==> CanFill(c, lines, s, av.value))
    && (ev.Some? ==> CanEvict(c, lines, s, ev.value))
    && (ph >= 1 ==> !main.Holds(t))
    && (ph >= 2 ==> !At(lines, Slot(true, s, i)).Holds(t))
    && (ph >= 3 ==> main.Used())
    && (ph >= 6 ==> main.Stable())
  }

  predicate FindOk(c: Config, lines: Lines, t: Tag, pc: FindPc) {
    match pc
    case FindShadow(_, m) => m.Some? ==> FoundMain(c, lines, t, m.value)
    case Decide(m, sh) => m.Some? ==> FoundMain(c, lines, t, m.value) && sh.None?
    case CasInvalid(w) => FoundMain(c, lines, t, w)
    case RUnlockSet(next) => next != ToCrash
    case _ => true
  }

  ghost predicate NewOk(c: Config, lines: Lines, u: nat, a: App, pc: NewPc) {
    var s := c.home(a.t);
    match pc
    case WLockSet => true
    case Scan(_, _, _, _, _) => ScanOk(c, lines, s, a.t, pc)
    case Fill(w) => NoTag(lines, s, a.t, c.width) && CanFill(c, lines, s, w) && |a.pool.stack| >= 1
    case EvChk(w) => NoTag(lines, s, a.t, c.width) && CanEvict(c, lines, s, w)
    case Retag(w) => NoTag(lines, s, a.t, c.width) && CanEvict(c, lines, s, w) && At(lines, Slot(false, s, w)).st == Invalid
    case MvLoad(w) => NoTag(lines, s, a.t, c.width) && CanEvict(c, lines, s, w) && At(lines, Slot(false, s, w)).st != Invalid
    case MvStore(w, tmp) =>
      NoTag(lines, s, a.t, c.width) && CanEvict(c, lines, s, w) && At(lines, Slot(false, s, w)).st == tmp && tmp != Invalid
    case Refill(w) =>
      NoTag(lines, s, a.t, c.width) && w < c.width && At(lines, Slot(false, s, w)).Stable()
      && Mine(lines, u, Slot(true, s, w)) && At(lines, Slot(true, s, w)).Stable()
      && At(lines, Slot(true, s, w)).tag == At(lines, Slot(false, s, w)).tag
      && At(lines, Slot(true, s, w)).data == At(lines, Slot(false, s, w)).data
    case WUnlockSet(_) => true
  }

  predicate OwnOk(lines: Lines, u: nat, t: Tag, p: Slot, req: Req, ow: OwnPc) {
    var l := At(lines, p);
    && !p.shadow && l.owner == Some(u) && l.st == Transit(req) && l.tag == t
    && (ow.Exit1? ==> ow.pass <= 1 && (ow.pass == 1 ==> l.flag))
    && (ow.Exit2? ==> ow.pass == 0)
  }

  ghost predicate PcOk(c: Config, lines: Lines, u: nat, a: App) {
    match a.pc
    case Find(pc) => FindOk(c, lines, a.t, pc)
    case New(pc) => NewOk(c, lines, u, a, pc)
    case Own(p, req, ow) => OwnOk(lines, u, a.t, p, req, ow)
    case Crash(why) => why != BothFound
    case _ => true
  }

  /** p is a shadow slot that u is evicting. */
  predicate Mine(lines: Lines, u: nat, p: Slot) {
    p.shadow && At(lines, p).owner == Some(u)
  }

  predicate LineLocked(lines: Lines, u: nat, p: Slot) { At(lines, p).lock.writer == Some(AppId(u)) }

  predicate Sent(lines: Lines, p: Slot, dirty: bool) {
    var l := At(lines, p);
    (l.st.ToPreserved? || l.st.ToShared?) && (l.st == ToPreserved ==> l.dirty == dirty)
  }

  /** The eviction in progress, position by position. */
  predicate EvictingOk(lines: Lines, u: nat, p: Slot, pc: EvPc) {
    match pc
    case EvStart => true
    case EvLoad => At(lines, p).Stable()
    case EvRecycle => At(lines, p).st == Invalid
    case EvFlag(tmp) => At(lines, p).Stable() && (tmp.Shared? || tmp.Modified?)
    case EvCas(tmp, _) => At(lines, p).Stable() && (tmp.Shared? || tmp.Modified?)
    case EvLock(tmp) => (tmp.Shared? || tmp.Modified?) && Sent(lines, p, tmp == Modified)
    case EvSend(tmp) => (tmp.Shared? || tmp.Modified?) && Sent(lines, p, tmp == Modified) && LineLocked(lines, u, p)
  }

  predicate EvOk(lines: Lines, u: nat, a: App) {
    var p := DefaultSlot(a.evict.cur);
    && (a.evict.startNext ==> a.evict.next.Some? && Mine(lines, u, a.evict.next.value) && At(lines, a.evict.next.value).Stable())
    && (a.pc == Evict(EvStart, true) ==> a.evict.startNext && a.evict.wait && LineLocked(lines, u, a.evict.next.value))
    && (Evicting(a.pc) ==>
          !a.evict.startNext && a.evict.wait && a.evict.cur.Some? && Mine(lines, u, p)
          && (a.pc.retry ==> LineLocked(lines, u, p) && !a.pc.ev.EvSend?) && EvictingOk(lines, u, p, a.pc.ev))
    && (Pending(a) ==> a.evict.cur.Some? && Mine(lines, u, p) && LineLocked(lines, u, p) && Sent(lines, p, a.evict.evDirty))
    && (a.pc.Wait? ==> if a.pc.wt.WUnlock? then a.evict.cur.Some? && LineLocked(lines, u, p) else a.evict.wait)
    && (a.pc.Touch? && !a.pc.ln.LockLine? && a.access == Write && !a.pc.p.shadow ==>
          LineLocked(lines, u, a.pc.p) && (a.evict.wait ==> a.pc.p != p))
  }

  /** The thread has one buffer more than its share until newLine pops it. */
  predicate Debt(pc: Pc) { pc.New? && pc.nw.Refill? }

  ghost predicate SetsOk(c: Config, lines: Lines, u: nat, a: App) {
    && (forall p :: p in a.pool.pend ==> c.ValidSlot(p) && Mine(lines, u, p))
    && (forall p :: p in a.pool.fills ==> c.ValidSlot(p) && !p.shadow && At(lines, p).Used())
    && |a.pool.stack| + |a.pool.fills| + |a.pool.pend| == a.pool.quota + (if Debt(a.pc) then 1 else 0)
  }

  predicate LocksHeld(c: Config, locks: Locks, u: nat, a: App)
    requires c.Valid()
  {
    var k := LockOf(locks, c.home(a.t));
    && (HoldsRead(a.pc) ==> AppId(u) in k.rw.readers)
    && (HoldsWrite(a.pc) ==> k.rw.writer == Some(AppId(u)))
    && (HoldsWrite(a.pc) ==> k.moving == if a.pc.nw.Refill? then Some(a.pc.nw.w) else None)
  }

  ghost predicate AppOk(c: Config, lines: Lines, locks: Locks, u: nat, a: App)
    requires c.Valid()
  {
    LocksHeld(c, locks, u, a) && PcOk(c, lines, u, a) && EvOk(lines, u, a) && SetsOk(c, lines, u, a)
  }

  // ---- agents ------------------------------------------------------------------

  /** No slot of the set holds t except possibly p. */
  ghost predicate OnlyAt(lines: Lines, t: Tag, p: Slot) {
    forall q :: At(lines, q).Holds(t) ==> q == p
  }

  ghost predicate AgentOk(c: Config, lines: Lines, locks: Locks, v: nat, g: Agent)
    requires c.Valid()
  {
    var s := c.home(g.msg.tag);
    && (AgentHoldsRead(g.pc) ==> AgentId(v) in LockOf(locks, s).rw.readers)
    && match g.pc
       case AFindMain(i) =>
         i <= c.width && forall j :: 0 <= j < i ==> !At(lines, Slot(false, s, j)).Holds(g.msg.tag)
       case AFindShadow(i, m) =>
         && i <= c.width
         && (m.Some? ==> FoundMain(c, lines, g.msg.tag, m.value))
         && (m.None? ==> forall j :: 0 <= j < c.width ==> !At(lines, Slot(false, s, j)).Holds(g.msg.tag))
         && (forall j :: 0 <= j < i ==> !At(lines, Slot(true, s, j)).Holds(g.msg.tag))
       case ALoad(p) => p.set_ == s && OnlyAt(lines, g.msg.tag, p) && (p.shadow || At(lines, p).Holds(g.msg.tag))
                        && (At(lines, p).Used() ==> At(lines, p).tag == g.msg.tag)
       case ACas(p, _) => p.set_ == s && OnlyAt(lines, g.msg.tag, p) && (p.shadow || At(lines, p).Holds(g.msg.tag))
                        && (At(lines, p).Used() ==> At(lines, p).tag == g.msg.tag)
       case ACrash(why) => why == BadReply
       case _ => true
  }

  // ---- history -----------------------------------------------------------------

  predicate HistOk(apps: map<nat, App>, revoked: set<Tag>, downgraded: set<Tag>, p: Slot, l: Line) {
    && (l.Used() && l.tag in revoked ==>
          l.st != Shared && l.st != Modified &&
          (!l.flag && l.st != Invalid ==>
             !p.shadow && l.owner.Some? && l.owner.value in apps && BeforeMiss(apps[l.owner.value].pc)))
    && (l.Used() && l.tag in downgraded ==>
          l.st != Modified && !(l.st == ToPreserved && l.dirty) &&
          (l.st == ToModified ==>
             l.owner.Some? && l.owner.value in apps && BeforeSend(apps[l.owner.value].pc)))
  }

  // ---- buffers -----------------------------------------------------------------

  /** The buffer at place z, if any: a line in use holds one, and so does each stack position. */
  function Content(s: State, z: Loc): Option<Buf> {
    match z
    case AtSlot(p) => if Live(s.locks, p, At(s.lines, p)) then At(s.lines, p).data else None
    case InStack(u, k) =>
      if u in s.apps && k < |s.apps[u].pool.stack| then Some(s.apps[u].pool.stack[k]) else None
  }

  /** `loc` gives every buffer its place, and every place holds the buffer that `loc` puts there. */
  ghost predicate BufOk(s: State) {
    && (forall z :: Content(s, z).Some? ==> Content(s, z).value in s.loc && s.loc[Content(s, z).value] == z)
    && (forall b :: b in s.loc ==> Content(s, s.loc[b]) == Some(b))
  }

  // ---- the invariant -----------------------------------------------------------

  ghost predicate LinesInv(c: Config, s: State) {
    forall p :: LineOk(c, p, At(s.lines, p)) && OwnerOk(s.apps, p, At(s.lines, p))
  }

  ghost predicate LocksInv(s: State) { forall h :: LockOk(LockOf(s.locks, h)) }

  ghost predicate AppsInv(c: Config, s: State)
    requires c.Valid()
  {
    forall u :: u in s.apps ==> AppOk(c, s.lines, s.locks, u, s.apps[u])
  }

  ghost predicate AgentsInv(c: Config, s: State)
    requires c.Valid()
  {
    forall v :: v in s.agents ==> AgentOk(c, s.lines, s.locks, v, s.agents[v])
  }

  ghost predicate HistInv(s: State) {
    forall p :: HistOk(s.apps, s.revoked, s.downgraded, p, At(s.lines, p))
  }

  ghost predicate Inv(c: Config, s: State)
    requires c.Valid()
  {
    && LinesInv(c, s) && LocksInv(s) && Unique(s.lines, s.locks)
    && AppsInv(c, s) && AgentsInv(c, s) && HistInv(s)
    && BufOk(s)
  }
}
