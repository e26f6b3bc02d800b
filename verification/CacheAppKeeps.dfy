/** Every step of an application thread keeps the invariant. */
module CacheAppKeeps {
  import opened CacheState
  import opened CacheSteps
  import opened CacheInv
  import opened CacheProof
  import opened CacheOwnProof
  import opened CacheFindProof
  import opened CacheNewProof
  import opened CacheEvictProof
  import opened CacheBufProof

  ghost predicate Kept(c: Config, s: State, u: nat, a: App, a': App, e: Effect)
    requires c.Valid()
  {
    && Good(c, s, u, a, a', e)
    && Unique(Apply(s, e).lines, Apply(s, e).locks) && BufOk(After(s, u, a', e)) && SameStock(s, u, a', e)
  }

  lemma EvictKept(c: Config, s: State, u: nat, a: App, a': App, e: Effect)
    requires c.Valid() && Ready(c, s, u, a) && EvictStepAt(s, u, a, a', e)
    requires LineFacts(c, s, DefaultSlot(a.evict.cur)) && Unique(s.lines, s.locks) && BufOk(s)
    ensures Kept(c, s, u, a, a', e)
  {
    var p := DefaultSlot(a.evict.cur);
    match a.pc.ev
    case EvRecycle =>
      EvRecycleGood(c, s, u, a, a', e);
      RecycleUnique(s, u, p, a.(evict := a.evict.(wait := false)), a'.pc);
      RecycleBuf(c, s, u, a, p, a.(evict := a.evict.(wait := false)), a'.pc);
    case EvCas(_, _) => EvictCasGood(c, s, u, a, a', e); QuietStep(s, u, a', e);
    case EvLock(_) => EvLockGood(c, s, u, a, a', e); QuietStep(s, u, a', e);
    case _ => EvictLocalGood(c, s, u, a, a', e); QuietStep(s, u, a', e);
  }

  lemma FindKept(c: Config, s: State, u: nat, a: App, a': App, e: Effect)
    requires c.Valid() && Ready(c, s, u, a) && FindStepAt(c, s, u, a, a', e)
    requires LinesInv(c, s) && LocksInv(s) && HistInv(s) && Unique(s.lines, s.locks) && BufOk(s)
    ensures Kept(c, s, u, a, a', e)
  {
    assert LockOk(LockOf(s.locks, c.home(a.t)));
    match a.pc.fd {
      case RLockSet => RLockGood(c, s, u, a, a', e);
      case RUnlockSet(_) => RLockGood(c, s, u, a, a', e);
      case FindMain(_) => LookGood(c, s, u, a, a', e);
      case FindShadow(_, _) => LookGood(c, s, u, a, a', e);
      case _ => DecideGood(c, s, u, a, a', e);
    }
    QuietStep(s, u, a', e);
  }

  lemma NewKept(c: Config, s: State, u: nat, a: App, a': App, e: Effect)
    requires c.Valid() && Ready(c, s, u, a) && NewStepAt(c, s, u, a, a', e)
    requires LinesInv(c, s) && LocksInv(s) && HistInv(s) && Unique(s.lines, s.locks) && BufOk(s)
    ensures Kept(c, s, u, a, a', e)
  {
    match a.pc.nw
    case Fill(_) => FillKept(c, s, u, a, a', e);
    case Retag(_) => RetagKept(c, s, u, a, a', e);
    case MvStore(_, _) => MvStoreKept(c, s, u, a, a', e);
    case Refill(_) => RefillKept(c, s, u, a, a', e);
    case _ => NewQuietKept(c, s, u, a, a', e);
  }

  lemma NewQuietKept(c: Config, s: State, u: nat, a: App, a': App, e: Effect)
    requires c.Valid() && Ready(c, s, u, a) && NewStepAt(c, s, u, a, a', e)
    requires !a.pc.nw.Fill? && !a.pc.nw.Retag? && !a.pc.nw.MvStore? && !a.pc.nw.Refill?
    requires LinesInv(c, s) && LocksInv(s) && HistInv(s) && Unique(s.lines, s.locks) && BufOk(s)
    ensures Kept(c, s, u, a, a', e)
  {
    LockFact(s, c.home(a.t));
    match a.pc.nw {
      case Scan(_, _, _, _, _) => ScanGood(c, s, u, a, a', e);
      case EvChk(_) => EvChkGood(c, s, u, a, a', e);
      case MvLoad(_) => EvChkGood(c, s, u, a, a', e);
      case _ => WLockGood(c, s, u, a, a', e);
    }
    QuietStep(s, u, a', e);
  }

  lemma LockFact(s: State, h: nat)
    requires LocksInv(s)
    ensures LockOk(LockOf(s.locks, h))
  {
  }

  lemma FillKept(c: Config, s: State, u: nat, a: App, a': App, e: Effect)
    requires c.Valid() && Ready(c, s, u, a) && NewStepAt(c, s, u, a, a', e) && a.pc.nw.Fill?
    requires LinesInv(c, s) && LocksInv(s) && HistInv(s) && Unique(s.lines, s.locks) && BufOk(s)
    ensures Kept(c, s, u, a, a', e)
  {
    FillGood(c, s, u, a, a', e);
    TakeBuf(c, s, u, a, a', e);
    NoTagAnywhere(c, s, a.t);
    RenewUnique(s, Slot(false, c.home(a.t), a.pc.nw.w), a.t, e);
  }

  lemma RetagKept(c: Config, s: State, u: nat, a: App, a': App, e: Effect)
    requires c.Valid() && Ready(c, s, u, a) && NewStepAt(c, s, u, a, a', e) && a.pc.nw.Retag?
    requires LinesInv(c, s) && LocksInv(s) && HistInv(s) && Unique(s.lines, s.locks) && BufOk(s)
    ensures Kept(c, s, u, a, a', e)
  {
    RetagGood(c, s, u, a, a', e);
    RetagBuf(c, s, u, a, a', e);
    NoTagAnywhere(c, s, a.t);
    RenewUnique(s, Slot(false, c.home(a.t), a.pc.nw.w), a.t, e);
  }

  lemma MvStoreKept(c: Config, s: State, u: nat, a: App, a': App, e: Effect)
    requires c.Valid() && Ready(c, s, u, a) && NewStepAt(c, s, u, a, a', e) && a.pc.nw.MvStore?
    requires LinesInv(c, s) && LocksInv(s) && HistInv(s) && Unique(s.lines, s.locks) && BufOk(s)
    ensures Kept(c, s, u, a, a', e)
  {
    var p := Slot(false, c.home(a.t), a.pc.nw.w);
    assert LineOk(c, p, At(s.lines, p));
    MvStoreGood(c, s, u, a, a', e);
    MvStoreBuf(c, s, u, a, a', e);
    MvStoreUnique(c, s, u, a, a', e);
  }

  lemma RefillKept(c: Config, s: State, u: nat, a: App, a': App, e: Effect)
    requires c.Valid() && Ready(c, s, u, a) && NewStepAt(c, s, u, a, a', e) && a.pc.nw.Refill?
    requires LinesInv(c, s) && LocksInv(s) && HistInv(s) && Unique(s.lines, s.locks) && BufOk(s)
    ensures Kept(c, s, u, a, a', e)
  {
    RefillGood(c, s, u, a, a', e);
    TakeBuf(c, s, u, a, a', e);
    NoTagAnywhere(c, s, a.t);
    RenewUnique(s, Slot(false, c.home(a.t), a.pc.nw.w), a.t, e);
  }

  lemma OwnGood(c: Config, s: State, u: nat, a: App, inp: Input, a': App, e: Effect)
    requires c.Valid() && Ready(c, s, u, a) && OwnStepAt(c, s, u, a, inp, a', e)
    requires LineFacts(c, s, a.pc.p) && LockOk(LockOf(s.locks, c.home(a.t)))
    ensures Good(c, s, u, a, a', e) && Quiet(s, e) && a'.pool == a.pool
  {
    match a.pc.ow
    case OwnUnlock => SendGood(c, s, u, a, inp, a', e);
    case Send => SendGood(c, s, u, a, inp, a', e);
    case Await(_, _) => AwaitGood(c, s, u, a, inp, a', e);
    case SpinFlag => AwaitGood(c, s, u, a, inp, a', e);
    case Exit1(_, _) => ExitGood(c, s, u, a, inp, a', e);
    case Exit2(_, _) => ExitGood(c, s, u, a, inp, a', e);
    case Stuck =>
  }

  lemma OwnKept(c: Config, s: State, u: nat, a: App, inp: Input, a': App, e: Effect)
    requires c.Valid() && Ready(c, s, u, a) && OwnStepAt(c, s, u, a, inp, a', e)
    requires LineFacts(c, s, a.pc.p) && LockOk(LockOf(s.locks, c.home(a.t))) && Unique(s.lines, s.locks) && BufOk(s)
    ensures Kept(c, s, u, a, a', e)
  {
    OwnGood(c, s, u, a, inp, a', e);
    QuietStep(s, u, a', e);
  }

  lemma WaitKept(c: Config, s: State, u: nat, a: App, inp: Input, a': App, e: Effect)
    requires c.Valid() && Ready(c, s, u, a) && a.pc.Wait? && WaitStep(s, u, a, inp) == Moves(a', e)
    requires LineFacts(c, s, DefaultSlot(a.evict.cur)) && Unique(s.lines, s.locks) && BufOk(s)
    ensures Kept(c, s, u, a, a', e)
  {
    var p := DefaultSlot(a.evict.cur);
    match a.pc.wt
    case WRecycle =>
      WRecycleGood(c, s, u, a, inp, a', e);
      RecycleUnique(s, u, p, a, a'.pc);
      RecycleBuf(c, s, u, a, p, a, a'.pc);
    case Revert(_) => RevertGood(c, s, u, a, inp, a', e); QuietStep(s, u, a', e);
    case WUnlock => WUnlockGood(c, s, u, a, inp, a', e); QuietStep(s, u, a', e);
    case _ => WaitGood(c, s, u, a, inp, a', e); QuietStep(s, u, a', e);
  }

  lemma FactsAt(c: Config, s: State, p: Slot)
    requires LinesInv(c, s) && HistInv(s)
    ensures LineFacts(c, s, p)
  {
  }

  lemma AppStepKept(c: Config, s: State, u: nat, a: App, inp: Input, a': App, e: Effect)
    requires c.Valid() && Ready(c, s, u, a) && AppMove(c, s, u, a, inp) == Moves(a', e)
    requires LinesInv(c, s) && LocksInv(s) && HistInv(s) && Unique(s.lines, s.locks) && BufOk(s)
    ensures Kept(c, s, u, a, a', e)
  {
    match a.pc
    case Idle => TailGood(c, s, u, a, inp, a', e); QuietStep(s, u, a', e);
    case Tail(_) => TailGood(c, s, u, a, inp, a', e); QuietStep(s, u, a', e);
    case Evict(_, _) => FactsAt(c, s, DefaultSlot(a.evict.cur)); EvictKept(c, s, u, a, a', e);
    case Find(_) => FindKept(c, s, u, a, a', e);
    case New(_) => NewKept(c, s, u, a, a', e);
    case Own(p, _, _) => FactsAt(c, s, p); LockFact(s, c.home(a.t)); OwnKept(c, s, u, a, inp, a', e);
    case Touch(p, _, _) => FactsAt(c, s, p); TouchGood(c, s, u, a, a', e); QuietStep(s, u, a', e);
    case Wait(_) => FactsAt(c, s, DefaultSlot(a.evict.cur)); WaitKept(c, s, u, a, inp, a', e);
    case Crash(_) =>
  }

  lemma KeepInv(c: Config, s: State, u: nat, a: App, a': App, e: Effect)
    requires c.Valid() && Inv(c, s) && u in s.apps && s.apps[u] == a && Kept(c, s, u, a, a', e)
    ensures Inv(c, After(s, u, a', e))
  {
    var s' := After(s, u, a', e);
    LinesAfter(c, s, u, a, a', e);
    forall p ensures LineOk(c, p, At(Apply(s, e).lines, p)) {
      assert LineOk(c, p, At(s'.lines, p));
    }
    OthersKeep(c, s, AppId(u), e);
  }

  lemma AppKeeps(c: Config, s: State, u: nat, inp: Input, s': State)
    requires c.Valid() && Inv(c, s) && AppNext(c, s, u, inp, s')
    ensures Inv(c, s')
  {
    var a := s.apps[u];
    var Moves(a', e) := AppMove(c, s, u, a, inp);
    OwnedBy(c, s, u);
    AppStepKept(c, s, u, a, inp, a', e);
    KeepInv(c, s, u, a, a', e);
  }

  lemma AppKept(c: Config, s: State, u: nat, inp: Input, s': State)
    requires c.Valid() && Inv(c, s) && AppNext(c, s, u, inp, s')
    ensures Ready(c, s, u, s.apps[u])
    ensures var r := AppMove(c, s, u, s.apps[u], inp); 
            && r.Moves? && s' == After(s, u, r.a, r.e) && Kept(c, s, u, s.apps[u], r.a, r.e)
            && (s.apps[u].pc.Own? ==> OwnStepAt(c, s, u, s.apps[u], inp, r.a, r.e))
  {
    var a := s.apps[u];
    var Moves(a', e) := AppMove(c, s, u, a, inp);
    OwnedBy(c, s, u);
    AppStepKept(c, s, u, a, inp, a', e);
  }
}
