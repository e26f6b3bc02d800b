/** The lock-free free list of concurrentqueue.h: one step for each atomic access of add,
    try_get and add_knowing_refcount_is_zero, by any number of threads. */
module FreeList {
  import opened Options

  type Id = nat

  /** SHOULD_BE_ON_FREELIST; the mask of the reference count is one less. */
  const SHOULD: nat := 0x8000_0000
  const WRAP: nat := 0x1_0000_0000

  /** What a thread does once a node has been put back: finish add, or go on looking from
      the head that its compare-and-swap saw. */
  datatype Cont = Done | Look(h: Option<Id>)

  datatype Pc =
    | Idle
    | LoadHead(n: Id, c: Cont)
    | StoreNext(n: Id, h: Option<Id>, c: Cont)
    | StoreRefs(n: Id, h: Option<Id>, c: Cont)
    | CasPush(n: Id, h: Option<Id>, c: Cont)
    | GiveUpRef(n: Id, h: Option<Id>, c: Cont)
    | GetHead
    | LoadRefs(n: Id)
    | CasRefs(n: Id, refs: nat)
    | LoadNext(n: Id)
    | CasPop(n: Id, x: Option<Id>)
    | CheckFlag(n: Id)
    | DropTwo(n: Id)
    | DropOne(n: Id, h: Option<Id>)
    | Failed(n: Id)

  /** Auxiliary: what a node is doing. Owned by the client; waiting for its last reference
      to go before it is put back; claimed by the thread that puts it back (count zero);
      ready to be pushed; on the list; popped but not yet handed over. */
  datatype Phase = Owned | Waiting | Claimed(t: nat) | Ready(t: nat) | Listed | Popped(t: nat)

  /** A node: the 32-bit word, the link, and (auxiliary) its phase and the threads that hold
      a reference to it. */
  datatype Node = Node(refs: nat, next: Option<Id>, ph: Phase, holders: set<nat>)

  datatype State = State(head: Option<Id>, nodes: map<Id, Node>, ths: map<nat, Pc>, list: seq<Id>)

  datatype Input = Tau | CallAdd(n: Id) | CallGet

  function Low(w: nat): nat { w % SHOULD }

  function Put(s: State, t: nat, n: Id, x: Node, pc: Pc): State {
    s.(nodes := s.nodes[n := x], ths := s.ths[t := pc])
  }

  function Go(s: State, t: nat, pc: Pc): State { s.(ths := s.ths[t := pc]) }

  function Resume(c: Cont): Pc {
    match c
    case Done => Idle
    case Look(h) => if h.Some? then LoadRefs(h.value) else Idle
  }

  /** One atomic step of thread t, or None if it cannot move. add may be called on a node that
      the client owns, and on no other. */
  function Step(s: State, t: nat, inp: Input): Option<State>
    requires t in s.ths
  {
    match s.ths[t]
    case Idle => (
      match inp
      case Tau => None
      case CallGet => Some(Go(s, t, GetHead))
      case CallAdd(n) =>
        if n !in s.nodes || s.nodes[n].ph != Owned then None else
        var x := s.nodes[n];
        var x' := x.(refs := (x.refs + SHOULD) % WRAP);
        Some(if x.refs == 0
             then Put(s, t, n, x'.(ph := Claimed(t)), LoadHead(n, Done))
             else Put(s, t, n, x'.(ph := Waiting), Idle)))
    case LoadHead(n, c) => Some(Go(s, t, StoreNext(n, s.head, c)))
    case GetHead => Some(Go(s, t, if s.head.Some? then LoadRefs(s.head.value) else Idle))
    case _ => if s.ths[t].n !in s.nodes then None else OnNode(s, t, s.ths[t].n, s.nodes[s.ths[t].n])
  }

  /** The steps that access node n. */
  function OnNode(s: State, t: nat, n: Id, x: Node): Option<State>
    requires t in s.ths && !s.ths[t].Idle? && !s.ths[t].LoadHead? && !s.ths[t].GetHead?
  {
    match s.ths[t]
    case StoreNext(_, h, c) => Some(Put(s, t, n, x.(next := h), StoreRefs(n, h, c)))
    case StoreRefs(_, h, c) => Some(Put(s, t, n, x.(refs := 1, ph := Ready(t)), CasPush(n, h, c)))
    case CasPush(_, h, c) =>
      Some(if s.head == h
           then Put(s, t, n, x.(ph := Listed), Resume(c)).(head := Some(n), list := [n] + s.list)
           else Go(s, t, GiveUpRef(n, s.head, c)))
    case GiveUpRef(_, h, c) =>
      var x' := x.(refs := (x.refs + SHOULD - 1) % WRAP);
      Some(if x.refs == 1
           then Put(s, t, n, x'.(ph := Claimed(t)), StoreNext(n, h, c))
           else Put(s, t, n, x'.(ph := Waiting), Resume(c)))
    case LoadRefs(_) => Some(Go(s, t, CasRefs(n, x.refs)))
    case CasRefs(_, refs) =>
      Some(if Low(refs) == 0 || x.refs != refs
           then Go(s, t, GetHead)
           else Put(s, t, n, x.(refs := (refs + 1) % WRAP, holders := x.holders + {t}), LoadNext(n)))
    case LoadNext(_) => Some(Go(s, t, CasPop(n, x.next)))
    case CasPop(_, nx) =>
      Some(if s.head == Some(n)
           then Put(s, t, n, x.(ph := Popped(t)), CheckFlag(n)).(head := nx, list := if s.list == [] then [] else s.list[1..])
           else Go(s, t, DropOne(n, s.head)))
    case CheckFlag(_) => Some(Go(s, t, if x.refs < SHOULD then DropTwo(n) else Failed(n)))
    case DropTwo(_) =>
      Some(Put(s, t, n, x.(refs := (x.refs + WRAP - 2) % WRAP, holders := x.holders - {t}, ph := Owned), Idle))
    case DropOne(_, h) =>
      var x' := x.(refs := (x.refs + WRAP - 1) % WRAP, holders := x.holders - {t});
      Some(if x.refs == SHOULD + 1
           then Put(s, t, n, x'.(ph := Claimed(t)), LoadHead(n, Look(h)))
           else Put(s, t, n, x', Resume(Look(h))))
    case Failed(_) => None
  }

  // ---- the invariant -----------------------------------------------------------------

  /** The word of a node in its phase. */
  function Word(ph: Phase, holders: nat): nat {
    match ph
    case Owned => holders
    case Waiting => SHOULD + holders
    case Claimed(_) => SHOULD
    case _ => 1 + holders
  }

  ghost predicate NodeOk(ths: map<nat, Pc>, n: Id, x: Node) {
    && x.refs == Word(x.ph, |x.holders|)
    && (x.ph.Claimed? ==> x.holders == {})
    && (x.ph.Waiting? ==> x.holders != {})
    && (forall t :: t in x.holders ==> t in ths && Holds(ths[t], n))
    && (x.ph.Claimed? || x.ph.Ready? || x.ph.Popped? ==> x.ph.t in ths && Busy(ths[x.ph.t], n))
  }

  /** The thread holds a reference to n. */
  predicate Holds(pc: Pc, n: Id) {
    (pc.LoadNext? || pc.CasPop? || pc.CheckFlag? || pc.DropTwo? || pc.DropOne? || pc.Failed?) && pc.n == n
  }

  /** The thread is the one that n's phase names. */
  predicate Busy(pc: Pc, n: Id) {
    (pc.LoadHead? || pc.StoreNext? || pc.StoreRefs? || pc.CasPush? || pc.GiveUpRef? || pc.CheckFlag? || pc.DropTwo?) && pc.n == n
  }

  predicate PcOk(nodes: map<Id, Node>, t: nat, pc: Pc) {
    (pc.Idle? || pc.GetHead?) ||
    (pc.n in nodes &&
     var x := nodes[pc.n];
     && (Holds(pc, pc.n) ==> t in x.holders)
     && match pc
        case LoadHead(_, c) => x.ph == Claimed(t) && ContOk(nodes, c)
        case StoreNext(_, h, c) => x.ph == Claimed(t) && ContOk(nodes, c) && IsNode(nodes, h)
        case StoreRefs(_, h, c) => x.ph == Claimed(t) && x.next == h && ContOk(nodes, c) && IsNode(nodes, h)
        case CasPush(_, h, c) => x.ph == Ready(t) && x.next == h && ContOk(nodes, c) && IsNode(nodes, h)
        case GiveUpRef(_, h, c) => x.ph == Ready(t) && ContOk(nodes, c) && IsNode(nodes, h)
        case CasPop(_, nx) => x.next == nx
        case CheckFlag(_) => x.ph == Popped(t)
        case DropTwo(_) => x.ph == Popped(t)
        case DropOne(_, h) => IsNode(nodes, h)
        case Failed(_) => false
        case _ => true)
  }

  predicate IsNode(nodes: map<Id, Node>, h: Option<Id>) { h.Some? ==> h.value in nodes }

  predicate ContOk(nodes: map<Id, Node>, c: Cont) { c.Look? ==> IsNode(nodes, c.h) }

  predicate Linked(nodes: map<Id, Node>, list: seq<Id>, i: nat)
    requires i < |list|
  {
    && list[i] in nodes && nodes[list[i]].ph == Listed
    && nodes[list[i]].next == (if i + 1 < |list| then Some(list[i + 1]) else None)
  }

  /** `list` is the chain of links from the head, without repetition, and holds exactly the
      listed nodes. */
  ghost predicate ListOk(head: Option<Id>, nodes: map<Id, Node>, list: seq<Id>) {
    && head == (if list == [] then None else Some(list[0]))
    && (forall i :: 0 <= i < |list| ==> Linked(nodes, list, i))
    && (forall i, j :: 0 <= i < j < |list| ==> list[i] != list[j])
    && (forall n :: n in nodes && nodes[n].ph == Listed ==> n in list)
  }

  /** With fewer threads than the reference count can hold, no word wraps around. */
  ghost predicate Inv(s: State) {
    && |s.ths.Keys| < SHOULD - 1
    && (forall n :: n in s.nodes ==> NodeOk(s.ths, n, s.nodes[n]) && IsNode(s.nodes, s.nodes[n].next))
    && (forall t :: t in s.ths ==> PcOk(s.nodes, t, s.ths[t]))
    && ListOk(s.head, s.nodes, s.list)
  }

  // ---- preservation -------------------------------------------------------------------

  /** What thread t may do to a node while other threads look at it: their references and the
      phases that name them stay, and the link changes only while nobody holds the node. */
  predicate Allowed(t: nat, x: Node, x': Node) {
    && x.holders - {t} == x'.holders - {t}
    && (x.ph.Claimed? || x.ph.Ready? || x.ph.Popped? ==> x.ph.t == t || x'.ph == x.ph)
    && (x'.next != x.next ==> x.holders == {} && x.ph == Claimed(t))
  }

  /** The thread is at node n or at none. */
  predicate At(pc: Pc, n: Id) { pc.Idle? || pc.GetHead? || pc.n == n }

  lemma OtherNode(ths: map<nat, Pc>, t: nat, pc: Pc, n: Id, m: Id, x: Node)
    requires t in ths && At(ths[t], n) && m != n && NodeOk(ths, m, x)
    ensures NodeOk(ths[t := pc], m, x)
  {
    assert t !in x.holders;
  }

  lemma OtherThread(nodes: map<Id, Node>, t: nat, u: nat, pc: Pc, n: Id, x: Node)
    requires n in nodes && u != t && PcOk(nodes, u, pc) && Allowed(t, nodes[n], x)
    ensures PcOk(nodes[n := x], u, pc)
  {
    if !(pc.Idle? || pc.GetHead?) && pc.n == n {
      assert nodes[n := x].Keys == nodes.Keys;
      assert u in x.holders - {t} <==> u in nodes[n].holders - {t};
    }
  }

  /** Same listed nodes, same links among them. */
  lemma ListKept(head: Option<Id>, nodes: map<Id, Node>, list: seq<Id>, n: Id, x: Node)
    requires n in nodes && ListOk(head, nodes, list)
    requires x.ph == Listed <==> nodes[n].ph == Listed
    requires nodes[n].ph == Listed ==> x.next == nodes[n].next
    ensures ListOk(head, nodes[n := x], list)
  {
    var ns := nodes[n := x];
    forall i | 0 <= i < |list| ensures Linked(ns, list, i) {
      assert Linked(nodes, list, i);
    }
  }

  lemma InList(head: Option<Id>, nodes: map<Id, Node>, list: seq<Id>, m: Id)
    requires ListOk(head, nodes, list)
    ensures m in list <==> m in nodes && nodes[m].ph == Listed
    ensures IsNode(nodes, head) && (head == Some(m) ==> list != [] && list[0] == m && m in list)
  {
    if m in list {
      var i :| 0 <= i < |list| && list[i] == m;
      assert Linked(nodes, list, i);
    }
    if list != [] { assert Linked(nodes, list, 0); }
  }

  ghost predicate NodesInv(s: State) {
    forall n :: n in s.nodes ==> NodeOk(s.ths, n, s.nodes[n]) && IsNode(s.nodes, s.nodes[n].next)
  }

  ghost predicate ThreadsInv(s: State) {
    forall t :: t in s.ths ==> PcOk(s.nodes, t, s.ths[t])
  }

  /** A step of t that rewrites node n and keeps the list. */
  lemma PutKeeps(s: State, t: nat, n: Id, x: Node, pc: Pc)
    requires Inv(s) && t in s.ths && n in s.nodes && At(s.ths[t], n)
    requires Allowed(t, s.nodes[n], x) && IsNode(s.nodes, x.next)
    requires NodeOk(s.ths[t := pc], n, x) && PcOk(s.nodes[n := x], t, pc)
    ensures NodesInv(Put(s, t, n, x, pc)) && ThreadsInv(Put(s, t, n, x, pc))
    ensures Put(s, t, n, x, pc).ths.Keys == s.ths.Keys
  {
    var s' := Put(s, t, n, x, pc);
    forall m | m in s'.nodes ensures NodeOk(s'.ths, m, s'.nodes[m]) && IsNode(s'.nodes, s'.nodes[m].next) {
      if m != n { OtherNode(s.ths, t, pc, n, m, s.nodes[m]); }
    }
    forall u | u in s'.ths ensures PcOk(s'.nodes, u, s'.ths[u]) {
      if u != t { OtherThread(s.nodes, t, u, s.ths[u], n, x); }
    }
  }

  lemma SameNode(ths: map<nat, Pc>, t: nat, pc: Pc, n: Id, x: Node)
    requires t in ths && NodeOk(ths, n, x)
    requires Holds(ths[t], n) ==> Holds(pc, n)
    requires Busy(ths[t], n) ==> Busy(pc, n)
    ensures NodeOk(ths[t := pc], n, x)
  {}

  /** A step of t that changes no node. */
  lemma GoKeeps(s: State, t: nat, pc: Pc)
    requires Inv(s) && t in s.ths && PcOk(s.nodes, t, pc)
    requires forall m :: Holds(s.ths[t], m) ==> Holds(pc, m)
    requires forall m :: Busy(s.ths[t], m) ==> Busy(pc, m)
    ensures Inv(Go(s, t, pc))
  {
    var s' := Go(s, t, pc);
    assert s'.ths.Keys == s.ths.Keys;
    forall m | m in s'.nodes ensures NodeOk(s'.ths, m, s'.nodes[m]) && IsNode(s'.nodes, s'.nodes[m].next) {
      SameNode(s.ths, t, pc, m, s.nodes[m]);
    }
  }

  lemma HolderCount(s: State, n: Id)
    requires Inv(s) && n in s.nodes
    ensures |s.nodes[n].holders| < SHOULD - 1
  {
    var a, b := s.nodes[n].holders, s.ths.Keys;
    assert a <= b;
    assert b == a + (b - a);
  }

  lemma AddKeeps(s: State, t: nat, n: Id)
    requires Inv(s) && t in s.ths && s.ths[t].Idle? && Step(s, t, CallAdd(n)).Some?
    ensures Inv(Step(s, t, CallAdd(n)).value)
  {
    HolderCount(s, n);
    var x := s.nodes[n];
    var x' := x.(refs := (x.refs + SHOULD) % WRAP, ph := if x.refs == 0 then Claimed(t) else Waiting);
    var pc := if x.refs == 0 then LoadHead(n, Done) else Idle;
    assert x'.refs == x.refs + SHOULD;
    PutKeeps(s, t, n, x', pc);
    ListKept(s.head, s.nodes, s.list, n, x');
    assert Step(s, t, CallAdd(n)).value == Put(s, t, n, x', pc);
  }

  lemma StoreKeeps(s: State, t: nat, n: Id, x: Node)
    requires Inv(s) && t in s.ths && n in s.nodes && x == s.nodes[n]
    requires s.ths[t].StoreNext? || s.ths[t].StoreRefs?
    requires s.ths[t].n == n
    ensures OnNode(s, t, n, x).Some? && Inv(OnNode(s, t, n, x).value)
  {
    var pc := s.ths[t];
    var x', pc' := if pc.StoreNext? then x.(next := pc.h) else x.(refs := 1, ph := Ready(t)),
                   if pc.StoreNext? then StoreRefs(n, pc.h, pc.c) else CasPush(n, pc.h, pc.c);
    assert PcOk(s.nodes, t, pc);
    PutKeeps(s, t, n, x', pc');
    ListKept(s.head, s.nodes, s.list, n, x');
  }

  lemma ResumeOk(nodes: map<Id, Node>, t: nat, c: Cont)
    requires ContOk(nodes, c)
    ensures PcOk(nodes, t, Resume(c)) && forall m :: !Holds(Resume(c), m)
  {}

  lemma PushKeeps(s: State, t: nat, n: Id, x: Node)
    requires Inv(s) && t in s.ths && n in s.nodes && x == s.nodes[n]
    requires s.ths[t].CasPush? && s.ths[t].n == n
    ensures OnNode(s, t, n, x).Some? && Inv(OnNode(s, t, n, x).value)
  {
    var pc := s.ths[t];
    assert PcOk(s.nodes, t, pc);
    InList(s.head, s.nodes, s.list, n);
    if s.head == pc.h {
      var x' := x.(ph := Listed);
      ResumeOk(s.nodes[n := x'], t, pc.c);
      PutKeeps(s, t, n, x', Resume(pc.c));
      PushList(s.head, s.nodes, s.list, n, x');
    } else {
      GoKeeps(s, t, GiveUpRef(n, s.head, pc.c));
    }
  }

  lemma PushList(head: Option<Id>, nodes: map<Id, Node>, list: seq<Id>, n: Id, x: Node)
    requires n in nodes && ListOk(head, nodes, list) && nodes[n].ph != Listed
    requires x.ph == Listed && x.next == head
    ensures ListOk(Some(n), nodes[n := x], [n] + list)
  {
    var l, ns := [n] + list, nodes[n := x];
    InList(head, nodes, list, n);
    forall i | 0 <= i < |l| ensures Linked(ns, l, i) {
      if i > 0 { assert Linked(nodes, list, i - 1) && l[i] == list[i - 1]; }
      if i + 1 < |l| { assert l[i + 1] == list[i]; }
    }
    forall m | m in ns && ns[m].ph == Listed ensures m in l {
      if m == n { assert l[0] == n; } else { InList(head, nodes, list, m); }
    }
  }

  lemma GiveUpKeeps(s: State, t: nat, n: Id, x: Node)
    requires Inv(s) && t in s.ths && n in s.nodes && x == s.nodes[n]
    requires s.ths[t].GiveUpRef? && s.ths[t].n == n
    ensures OnNode(s, t, n, x).Some? && Inv(OnNode(s, t, n, x).value)
  {
    var pc := s.ths[t];
    assert PcOk(s.nodes, t, pc);
    HolderCount(s, n);
    var x' := x.(refs := (x.refs + SHOULD - 1) % WRAP, ph := if x.refs == 1 then Claimed(t) else Waiting);
    var pc' := if x.refs == 1 then StoreNext(n, pc.h, pc.c) else Resume(pc.c);
    ResumeOk(s.nodes[n := x'], t, pc.c);
    assert x'.refs == x.refs + SHOULD - 1;
    PutKeeps(s, t, n, x', pc');
    ListKept(s.head, s.nodes, s.list, n, x');
  }

  lemma CasRefsKeeps(s: State, t: nat, n: Id, x: Node)
    requires Inv(s) && t in s.ths && n in s.nodes && x == s.nodes[n]
    requires s.ths[t].CasRefs? && s.ths[t].n == n
    ensures OnNode(s, t, n, x).Some? && Inv(OnNode(s, t, n, x).value)
  {
    var pc := s.ths[t];
    if Low(pc.refs) == 0 || x.refs != pc.refs {
      GoKeeps(s, t, GetHead);
    } else {
      HolderCount(s, n);
      var x' := x.(refs := (pc.refs + 1) % WRAP, holders := x.holders + {t});
      TakeNode(s.ths, t, n, x, x');
      PutKeeps(s, t, n, x', LoadNext(n));
      ListKept(s.head, s.nodes, s.list, n, x');
    }
  }

  lemma TakeNode(ths: map<nat, Pc>, t: nat, n: Id, x: Node, x': Node)
    requires t in ths && ths[t].CasRefs? && NodeOk(ths, n, x) && |x.holders| < SHOULD - 1
    requires Low(x.refs) != 0
    requires x' == x.(refs := (x.refs + 1) % WRAP, holders := x.holders + {t})
    ensures NodeOk(ths[t := LoadNext(n)], n, x') && Allowed(t, x, x')
  {
    assert t !in x.holders;
    assert !x.ph.Claimed?;
    assert x'.refs == x.refs + 1;
  }

  lemma PopKeeps(s: State, t: nat, n: Id, x: Node)
    requires Inv(s) && t in s.ths && n in s.nodes && x == s.nodes[n]
    requires s.ths[t].CasPop? && s.ths[t].n == n
    ensures OnNode(s, t, n, x).Some? && Inv(OnNode(s, t, n, x).value)
  {
    var pc := s.ths[t];
    assert PcOk(s.nodes, t, pc);
    InList(s.head, s.nodes, s.list, n);
    if s.head == Some(n) {
      var x' := x.(ph := Popped(t));
      PutKeeps(s, t, n, x', CheckFlag(n));
      PopList(s.head, s.nodes, s.list, n, x');
    } else {
      GoKeeps(s, t, DropOne(n, s.head));
    }
  }

  lemma PopList(head: Option<Id>, nodes: map<Id, Node>, list: seq<Id>, n: Id, x: Node)
    requires n in nodes && ListOk(head, nodes, list) && list != [] && list[0] == n
    requires x.ph != Listed
    ensures ListOk(nodes[n].next, nodes[n := x], list[1..])
  {
    var l, ns := list[1..], nodes[n := x];
    assert Linked(nodes, list, 0);
    forall i | 0 <= i < |l| ensures Linked(ns, l, i) {
      assert Linked(nodes, list, i + 1) && l[i] == list[i + 1] && list[0] != list[i + 1];
    }
    forall m | m in ns && ns[m].ph == Listed ensures m in l {
      assert m in nodes && m in list;
    }
  }

  lemma DropTwoKeeps(s: State, t: nat, n: Id, x: Node)
    requires Inv(s) && t in s.ths && n in s.nodes && x == s.nodes[n]
    requires s.ths[t].DropTwo? && s.ths[t].n == n
    ensures OnNode(s, t, n, x).Some? && Inv(OnNode(s, t, n, x).value)
  {
    assert PcOk(s.nodes, t, s.ths[t]);
    HolderCount(s, n);
    DropTwoPut(s, t, n, x.(refs := (x.refs + WRAP - 2) % WRAP, holders := x.holders - {t}, ph := Owned));
  }

  lemma DropTwoPut(s: State, t: nat, n: Id, x: Node)
    requires Inv(s) && t in s.ths && n in s.nodes && s.ths[t].DropTwo? && s.ths[t].n == n
    requires var w := s.nodes[n];
      && w.ph == Popped(t) && t in w.holders && |w.holders| < SHOULD - 1
      && x == w.(refs := (w.refs + WRAP - 2) % WRAP, holders := w.holders - {t}, ph := Owned)
    ensures Inv(Put(s, t, n, x, Idle))
  {
    DropTwoNode(s.ths, t, n, s.nodes[n], x);
    PutKeeps(s, t, n, x, Idle);
    ListKept(s.head, s.nodes, s.list, n, x);
  }

  lemma DropTwoNode(ths: map<nat, Pc>, t: nat, n: Id, x: Node, x': Node)
    requires t in ths && ths[t].DropTwo? && NodeOk(ths, n, x)
    requires x.ph == Popped(t) && t in x.holders && |x.holders| < SHOULD - 1
    requires x' == x.(refs := (x.refs + WRAP - 2) % WRAP, holders := x.holders - {t}, ph := Owned)
    ensures NodeOk(ths[t := Idle], n, x') && Allowed(t, x, x')
  {
    assert x'.refs == x.refs - 2;
  }

  lemma DropOneIs(s: State, t: nat, n: Id, x: Node, h: Option<Id>)
    requires t in s.ths && s.ths[t] == DropOne(n, h) && 0 < x.refs < WRAP
    ensures OnNode(s, t, n, x) ==
      (if x.refs == SHOULD + 1
       then Some(Put(s, t, n, x.(refs := SHOULD, holders := x.holders - {t}, ph := Claimed(t)), LoadHead(n, Look(h))))
       else Some(Put(s, t, n, x.(refs := x.refs - 1, holders := x.holders - {t}), Resume(Look(h)))))
  {
    assert (x.refs + WRAP - 1) % WRAP == x.refs - 1;
  }

  lemma DropOneKeeps(s: State, t: nat, n: Id, x: Node)
    requires Inv(s) && t in s.ths && n in s.nodes && x == s.nodes[n]
    requires s.ths[t].DropOne? && s.ths[t].n == n
    ensures OnNode(s, t, n, x).Some? && Inv(OnNode(s, t, n, x).value)
  {
    var h := s.ths[t].h;
    assert PcOk(s.nodes, t, s.ths[t]);
    HolderCount(s, n);
    DropWord(x, t);
    DropOneIs(s, t, n, x, h);
    if x.refs == SHOULD + 1 {
      LastPut(s, t, n, x, h);
    } else {
      NotLastPut(s, t, n, x, h);
    }
  }

  lemma LastPut(s: State, t: nat, n: Id, x: Node, h: Option<Id>)
    requires Inv(s) && t in s.ths && n in s.nodes && x == s.nodes[n]
    requires s.ths[t] == DropOne(n, h) && IsNode(s.nodes, h) && t in x.holders
    requires x.ph.Waiting? && x.holders == {t} && x.refs == SHOULD + 1
    ensures Inv(Put(s, t, n, x.(refs := SHOULD, holders := x.holders - {t}, ph := Claimed(t)), LoadHead(n, Look(h))))
  {
    DropOnePut(s, t, n, x.(refs := SHOULD, holders := x.holders - {t}, ph := Claimed(t)), LoadHead(n, Look(h)));
  }

  lemma NotLastPut(s: State, t: nat, n: Id, x: Node, h: Option<Id>)
    requires Inv(s) && t in s.ths && n in s.nodes && x == s.nodes[n]
    requires s.ths[t] == DropOne(n, h) && IsNode(s.nodes, h) && t in x.holders && !x.ph.Claimed?
    requires !(x.ph.Waiting? && x.holders == {t}) && |x.holders - {t}| == |x.holders| - 1
    ensures x.refs > 0 && Inv(Put(s, t, n, x.(refs := x.refs - 1, holders := x.holders - {t}), Resume(Look(h))))
  {
    var x' := x.(refs := x.refs - 1, holders := x.holders - {t});
    ResumeOk(s.nodes[n := x'], t, Look(h));
    DropOnePut(s, t, n, x', Resume(Look(h)));
  }

  lemma DropOnePut(s: State, t: nat, n: Id, x: Node, pc: Pc)
    requires Inv(s) && t in s.ths && n in s.nodes && s.ths[t].DropOne? && s.ths[t].n == n
    requires var w := s.nodes[n];
      && t in w.holders && !w.ph.Claimed? && x.next == w.next
      && (w.ph.Waiting? && w.holders == {t} ==> x.ph == Claimed(t) && Busy(pc, n))
      && (!(w.ph.Waiting? && w.holders == {t}) ==> x.ph == w.ph)
      && x.holders == w.holders - {t} && |x.holders| == |w.holders| - 1 && x.refs == w.refs - 1
    requires PcOk(s.nodes[n := x], t, pc)
    ensures Inv(Put(s, t, n, x, pc))
  {
    HolderCount(s, n);
    DropOneNode(s.ths, t, n, s.nodes[n], x, pc);
    PutKeeps(s, t, n, x, pc);
    ListKept(s.head, s.nodes, s.list, n, x);
  }

  /** Taking one reference away: the word tells the last holder of a waiting node. */
  lemma DropWord(x: Node, t: nat)
    requires x.refs == Word(x.ph, |x.holders|) && t in x.holders && !x.ph.Claimed?
    requires |x.holders| < SHOULD - 1
    ensures 0 < x.refs < WRAP
    ensures |x.holders - {t}| == |x.holders| - 1
    ensures (x.refs + WRAP - 1) % WRAP == x.refs - 1
    ensures x.refs == SHOULD + 1 <==> x.ph.Waiting? && x.holders == {t}
  {
    assert |x.holders - {t}| == |x.holders| - 1;
    if |x.holders| == 1 { assert x.holders - {t} == {}; }
  }

  lemma DropOneNode(ths: map<nat, Pc>, t: nat, n: Id, x: Node, x': Node, pc: Pc)
    requires t in ths && NodeOk(ths, n, x) && t in x.holders && |x.holders| < SHOULD - 1 && !x.ph.Claimed?
    requires ths[t].DropOne?
    requires x.ph.Waiting? && x.holders == {t} ==> x'.ph == Claimed(t) && Busy(pc, n)
    requires !(x.ph.Waiting? && x.holders == {t}) ==> x'.ph == x.ph
    requires x'.holders == x.holders - {t} && |x'.holders| == |x.holders| - 1 && x'.refs == x.refs - 1
    ensures NodeOk(ths[t := pc], n, x') && (x'.next == x.next ==> Allowed(t, x, x'))
  {}

  /** Every step of every thread keeps the invariant. */
  lemma StepKeeps(s: State, t: nat, inp: Input)
    requires Inv(s) && t in s.ths && Step(s, t, inp).Some?
    ensures Inv(Step(s, t, inp).value)
  {
    var pc := s.ths[t];
    assert PcOk(s.nodes, t, pc);
    if pc.Idle? {
      if inp.CallAdd? { AddKeeps(s, t, inp.n); } else { GoKeeps(s, t, GetHead); }
    } else if pc.LoadHead? {
      InList(s.head, s.nodes, s.list, pc.n);
      GoKeeps(s, t, StoreNext(pc.n, s.head, pc.c));
    } else if pc.GetHead? {
      InList(s.head, s.nodes, s.list, 0);
      GoKeeps(s, t, if s.head.Some? then LoadRefs(s.head.value) else Idle);
    } else {
      NodeStepKeeps(s, t, pc.n, s.nodes[pc.n]);
    }
  }

  lemma NodeStepKeeps(s: State, t: nat, n: Id, x: Node)
    requires Inv(s) && t in s.ths && n in s.nodes && x == s.nodes[n]
    requires !s.ths[t].Idle? && !s.ths[t].LoadHead? && !s.ths[t].GetHead? && s.ths[t].n == n
    requires OnNode(s, t, n, x).Some?
    ensures Inv(OnNode(s, t, n, x).value)
  {
    assert PcOk(s.nodes, t, s.ths[t]);
    match s.ths[t] {
      case StoreNext(_, _, _) => StoreKeeps(s, t, n, x);
      case StoreRefs(_, _, _) => StoreKeeps(s, t, n, x);
      case CasPush(_, _, _) => PushKeeps(s, t, n, x);
      case GiveUpRef(_, _, _) => GiveUpKeeps(s, t, n, x);
      case LoadRefs(_) => GoKeeps(s, t, CasRefs(n, x.refs));
      case CasRefs(_, _) => CasRefsKeeps(s, t, n, x);
      case LoadNext(_) => GoKeeps(s, t, CasPop(n, x.next));
      case CasPop(_, _) => PopKeeps(s, t, n, x);
      case CheckFlag(_) => HolderCount(s, n); GoKeeps(s, t, DropTwo(n));
      case DropTwo(_) => DropTwoKeeps(s, t, n, x);
      case DropOne(_, _) => DropOneKeeps(s, t, n, x);
    }
  }

  // ---- runs ---------------------------------------------------------------------------

  datatype Event = Event(t: nat, inp: Input)

  predicate Runs(ss: seq<State>, es: seq<Event>) {
    && |ss| == |es| + 1
    && forall i {:trigger es[i]} :: 0 <= i < |es| ==>
         es[i].t in ss[i].ths && Step(ss[i], es[i].t, es[i].inp) == Some(ss[i + 1])
  }

  /** An empty list; every node belongs to the client; no thread is in a call. */
  ghost predicate Init(s: State) {
    && |s.ths.Keys| < SHOULD - 1 && s.head == None && s.list == []
    && (forall t :: t in s.ths ==> s.ths[t] == Idle)
    && (forall n :: n in s.nodes ==> s.nodes[n] == Node(0, None, Owned, {}))
  }

  lemma {:induction false} RunInv(ss: seq<State>, es: seq<Event>, i: nat)
    requires Runs(ss, es) && Init(ss[0]) && i < |ss|
    ensures Inv(ss[i])
  {
    if i > 0 {
      RunInv(ss, es, i - 1);
      var e := es[i - 1];
      StepKeeps(ss[i - 1], e.t, e.inp);
    }
  }

  /** The assertion of try_get never fails, and in every reachable state the links from the
      head form a chain that holds each listed node exactly once. */
  lemma OnListOnce(ss: seq<State>, es: seq<Event>, i: nat)
    requires Runs(ss, es) && Init(ss[0]) && i < |ss|
    ensures ListOk(ss[i].head, ss[i].nodes, ss[i].list)
    ensures forall t :: t in ss[i].ths ==> !ss[i].ths[t].Failed?
  {
    RunInv(ss, es, i);
    forall t | t in ss[i].ths ensures !ss[i].ths[t].Failed? {
      assert PcOk(ss[i].nodes, t, ss[i].ths[t]);
    }
  }

  lemma NextKept(s: State, t: nat, inp: Input, n: Id, u: nat)
    requires t in s.ths && Step(s, t, inp).Some? && n in s.nodes && NodeOk(s.ths, n, s.nodes[n])
    requires PcOk(s.nodes, t, s.ths[t]) && u in s.nodes[n].holders
    ensures n in Step(s, t, inp).value.nodes && Step(s, t, inp).value.nodes[n].next == s.nodes[n].next
  {}

  /** While some thread holds a reference to a node, no step changes its link. */
  lemma LinkFrozen(ss: seq<State>, es: seq<Event>, i: nat, n: Id)
    requires Runs(ss, es) && Init(ss[0]) && i < |es| && n in ss[i].nodes
    requires exists u :: u in ss[i].ths && Holds(ss[i].ths[u], n)
    ensures n in ss[i + 1].nodes && ss[i + 1].nodes[n].next == ss[i].nodes[n].next
  {
    RunInv(ss, es, i);
    var e := es[i];
    var u :| u in ss[i].ths && Holds(ss[i].ths[u], n);
    assert PcOk(ss[i].nodes, u, ss[i].ths[u]);
    NextKept(ss[i], e.t, e.inp, n, u);
  }

  /** Step i hands node n to the caller of try_get. */
  predicate HandsOut(ss: seq<State>, es: seq<Event>, i: nat, n: Id)
    requires Runs(ss, es) && i < |es|
  {
    assert es[i].t in ss[i].ths;
    ss[i].ths[es[i].t] == DropTwo(n)
  }

  /** Step i is the first access of a call add(n). */
  predicate Adds(ss: seq<State>, es: seq<Event>, i: nat, n: Id)
    requires Runs(ss, es) && i < |es|
  {
    assert es[i].t in ss[i].ths;
    ss[i].ths[es[i].t].Idle? && es[i].inp == CallAdd(n)
  }

  /** A node of the client stays its own until it is added. */
  lemma OwnedStays(s: State, t: nat, inp: Input, n: Id)
    requires Inv(s) && t in s.ths && Step(s, t, inp).Some? && n in s.nodes && s.nodes[n].ph == Owned
    requires !(s.ths[t].Idle? && inp == CallAdd(n))
    ensures n in Step(s, t, inp).value.nodes && Step(s, t, inp).value.nodes[n].ph == Owned
  {
    assert PcOk(s.nodes, t, s.ths[t]);
    assert NodeOk(s.ths, n, s.nodes[n]);
    HolderCount(s, n);
    InList(s.head, s.nodes, s.list, n);
  }

  lemma {:induction false} OwnedUntilAdd(ss: seq<State>, es: seq<Event>, i: nat, j: nat, n: Id)
    requires Runs(ss, es) && Init(ss[0]) && i <= j < |ss|
    requires n in ss[i].nodes && ss[i].nodes[n].ph == Owned
    requires forall k :: i <= k < j ==> !Adds(ss, es, k, n)
    ensures n in ss[j].nodes && ss[j].nodes[n].ph == Owned
  {
    if i < j {
      OwnedUntilAdd(ss, es, i, j - 1, n);
      RunInv(ss, es, j - 1);
      assert !Adds(ss, es, j - 1, n);
      OwnedStays(ss[j - 1], es[j - 1].t, es[j - 1].inp, n);
    }
  }

  lemma HandOutOwned(s: State, t: nat, inp: Input, n: Id)
    requires Inv(s) && t in s.ths && s.ths[t] == DropTwo(n) && Step(s, t, inp).Some?
    ensures n in s.nodes && s.nodes[n].ph == Popped(t)
    ensures n in Step(s, t, inp).value.nodes && Step(s, t, inp).value.nodes[n].ph == Owned
  {
    assert PcOk(s.nodes, t, s.ths[t]);
  }

  /** No ABA: between two times that a node is handed out it has been added again, and nobody
      is handed a node that the client still owns. */
  lemma OneGetterPerAdd(ss: seq<State>, es: seq<Event>, i: nat, j: nat, n: Id)
    requires Runs(ss, es) && Init(ss[0]) && i < j < |es|
    requires HandsOut(ss, es, i, n) && HandsOut(ss, es, j, n)
    ensures exists k :: i < k < j && Adds(ss, es, k, n)
  {
    if forall k :: i + 1 <= k < j ==> !Adds(ss, es, k, n) {
      HandsOutOwned(ss, es, i, n);
      OwnedUntilAdd(ss, es, i + 1, j, n);
      HandsOutOwned(ss, es, j, n);
      assert false;
    }
  }

  lemma HandsOutOwned(ss: seq<State>, es: seq<Event>, i: nat, n: Id)
    requires Runs(ss, es) && Init(ss[0]) && i < |es| && HandsOut(ss, es, i, n)
    ensures n in ss[i].nodes && ss[i].nodes[n].ph != Owned && n in ss[i + 1].nodes && ss[i + 1].nodes[n].ph == Owned
  {
    RunInv(ss, es, i);
    HandOutOwned(ss[i], es[i].t, es[i].inp, n);
  }

  /** No node is lost: when no call is under way, each node is the client's or on the list. */
  lemma NoneLost(ss: seq<State>, es: seq<Event>, i: nat, n: Id)
    requires Runs(ss, es) && Init(ss[0]) && i < |ss| && n in ss[i].nodes
    requires forall t :: t in ss[i].ths ==> ss[i].ths[t].Idle?
    ensures ss[i].nodes[n].ph == Owned || n in ss[i].list
    ensures ss[i].nodes[n].refs == if n in ss[i].list then 1 else 0
  {
    RunInv(ss, es, i);
    var x := ss[i].nodes[n];
    assert NodeOk(ss[i].ths, n, x);
    assert x.holders == {};
    InList(ss[i].head, ss[i].nodes, ss[i].list, n);
  }

  // ---- what a call returns ----------------------------------------------------------------------

  /** Inside try_get, or putting a node back on its behalf. */
  predicate InGet(pc: Pc) {
    match pc
    case Idle => false
    case LoadHead(_, c) => c.Look?
    case StoreNext(_, _, c) => c.Look?
    case StoreRefs(_, _, c) => c.Look?
    case CasPush(_, _, c) => c.Look?
    case GiveUpRef(_, _, c) => c.Look?
    case _ => true
  }

  /** The call will return null if it goes on without another look at the head. */
  predicate HasNull(pc: Pc) {
    match pc
    case LoadHead(_, c) => c == Look(None)
    case StoreNext(_, _, c) => c == Look(None)
    case StoreRefs(_, _, c) => c == Look(None)
    case CasPush(_, _, c) => c == Look(None)
    case GiveUpRef(_, _, c) => c == Look(None)
    case DropOne(_, h) => h == None
    case _ => false
  }

  lemma GetStep(s: State, t: nat, inp: Input)
    requires t in s.ths && InGet(s.ths[t]) && Step(s, t, inp).Some?
    ensures var pc, pc' := s.ths[t], Step(s, t, inp).value.ths[t];
      && (pc'.Idle? ==> pc.DropTwo? || HasNull(pc) || s.head == None)
      && (!pc'.Idle? ==> InGet(pc') && (HasNull(pc') ==> HasNull(pc) || s.head == None))
  {}

  /** Thread t begins try_get in step i and has not returned in state j. */
  ghost predicate Getting(ss: seq<State>, es: seq<Event>, i: nat, j: nat, t: nat) {
    && |ss| == |es| + 1 && i < j <= |es| && es[i] == Event(t, CallGet) && t in ss[i].ths && ss[i].ths[t].Idle?
    && forall k :: i < k <= j ==> t in ss[k].ths && !ss[k].ths[t].Idle?
  }

  /** Thread t looks at the head between i and j, and finds it null. */
  ghost predicate SawNull(ss: seq<State>, es: seq<Event>, i: nat, j: nat, t: nat)
    requires j <= |es| < |ss|
  {
    exists k :: i < k < j && es[k].t == t && ss[k].head == None
  }

  lemma {:induction false} GettingIs(ss: seq<State>, es: seq<Event>, i: nat, j: nat, t: nat)
    requires Runs(ss, es) && Getting(ss, es, i, j, t)
    ensures InGet(ss[j].ths[t]) && (HasNull(ss[j].ths[t]) ==> SawNull(ss, es, i, j, t))
    decreases j
  {
    var e := es[j - 1];
    assert Step(ss[j - 1], e.t, e.inp) == Some(ss[j]);
    if j > i + 1 {
      GettingIs(ss, es, i, j - 1, t);
      if e.t == t { GetStep(ss[j - 1], t, e.inp); } else { OthersStay(ss[j - 1], e.t, e.inp, t); }
    }
  }

  lemma OthersStay(s: State, t: nat, inp: Input, u: nat)
    requires t in s.ths && u in s.ths && u != t && Step(s, t, inp).Some?
    ensures u in Step(s, t, inp).value.ths && Step(s, t, inp).value.ths[u] == s.ths[u]
  {}

  /** try_get returns a node, which is then the client's, or null; and null only if the head was null
      when the call looked at it. */
  lemma NullOnlyIfEmpty(ss: seq<State>, es: seq<Event>, i: nat, j: nat, t: nat)
    requires Runs(ss, es) && Init(ss[0]) && j < |es| && Getting(ss, es, i, j, t)
    requires es[j].t == t && t in ss[j + 1].ths && ss[j + 1].ths[t].Idle?
    ensures (exists n :: HandsOut(ss, es, j, n) && n in ss[j + 1].nodes && ss[j + 1].nodes[n].ph == Owned) || SawNull(ss, es, i, j + 1, t)
  {
    GettingIs(ss, es, i, j, t);
    GetStep(ss[j], t, es[j].inp);
    RunInv(ss, es, j);
    var pc := ss[j].ths[t];
    if pc.DropTwo? {
      HandOutOwned(ss[j], t, es[j].inp, pc.n);
      assert HandsOut(ss, es, j, pc.n);
    }
  }

  /** Thread t takes k steps after the one with input inp, and nobody else moves. */
  function Alone(s: State, t: nat, inp: Input, k: nat): Option<State>
    requires t in s.ths
    decreases k
  {
    var r := Step(s, t, inp);
    if r.None? || k == 0 || t !in r.value.ths then r else Alone(r.value, t, Tau, k - 1)
  }

  /** No call is under way. */
  predicate Quiet(s: State) { forall t :: t in s.ths ==> s.ths[t].Idle? }

  /** A try_get that nobody disturbs, when no other call is under way, returns null exactly on an empty list;
      otherwise it takes the first node off, which is then the client's and has no references. */
  lemma GetAlone(s: State, t: nat)
    requires Inv(s) && Quiet(s) && t in s.ths
    ensures s.list == [] ==> Alone(s, t, CallGet, 1) == Some(s)
    ensures s.list != [] ==>
      && s.list[0] in s.nodes
      && Alone(s, t, CallGet, 6).Some? && t in Alone(s, t, CallGet, 6).value.ths
      && Alone(s, t, CallGet, 6).value.ths[t] == DropTwo(s.list[0])
      && Alone(s, t, CallGet, 7) == Some(s.(head := s.nodes[s.list[0]].next, list := s.list[1..],
           nodes := s.nodes[s.list[0] := s.nodes[s.list[0]].(refs := 0, ph := Owned)]))
  {
    if s.list == [] {
      assert s.ths[t := GetHead][t := Idle] == s.ths;
    } else {
      var n := s.list[0];
      assert Linked(s.nodes, s.list, 0);
      NobodyHolds(s, n);
      Taken(s, t, n);
    }
  }

  lemma NobodyHolds(s: State, n: Id)
    requires Inv(s) && Quiet(s) && n in s.nodes
    ensures s.nodes[n].holders == {} && s.nodes[n].refs == if s.nodes[n].ph.Listed? then 1 else 0
    ensures s.nodes[n].ph.Listed? || s.nodes[n].ph.Owned?
  {
    assert NodeOk(s.ths, n, s.nodes[n]);
  }

  /** The steps of try_get up to the subtraction, and with it. */
  lemma Taken(s: State, t: nat, n: Id)
    requires t in s.ths && s.ths[t] == Idle && s.head == Some(n) && n in s.nodes && s.list != [] && s.list[0] == n
    requires s.nodes[n].refs == 1 && s.nodes[n].holders == {} && s.nodes[n].ph == Listed
    ensures var x := s.nodes[n];
      && Alone(s, t, CallGet, 6) == Some(s.(head := x.next, list := s.list[1..],
           nodes := s.nodes[n := x.(refs := 2, holders := {t}, ph := Popped(t))], ths := s.ths[t := DropTwo(n)]))
      && Alone(s, t, CallGet, 7) == Some(s.(head := x.next, list := s.list[1..], nodes := s.nodes[n := x.(refs := 0, ph := Owned)]))
  {
    var x := s.nodes[n];
    var held := x.(refs := 2, holders := {t});
    var popped := held.(ph := Popped(t));
    var s3, s4 := Go(s, t, CasRefs(n, 1)), Put(s, t, n, held, LoadNext(n));
    var s6 := s.(head := x.next, list := s.list[1..], nodes := s.nodes[n := popped], ths := s.ths[t := CheckFlag(n)]);
    var s7 := s6.(ths := s.ths[t := DropTwo(n)]);
    var s8 := s.(head := x.next, list := s.list[1..], nodes := s.nodes[n := x.(refs := 0, ph := Owned)]);
    Looking(s, t, n, s3);
    Holding(s, s3, s4, t, n, x);
    PoppedIs(s, s4, s6, t, n, held);
    Popping(s4, t, n, held, s6);
    Handing(s, s6, s7, s8, t, n);
    Chain(s, s3, s4, s6, s7, s8, t);
  }

  lemma PoppedIs(s: State, s4: State, s6: State, t: nat, n: Id, x: Node)
    requires t in s.ths && n in s.nodes && s.list != [] && s4 == Put(s, t, n, x, LoadNext(n))
    requires s6 == s.(head := x.next, list := s.list[1..], nodes := s.nodes[n := x.(ph := Popped(t))], ths := s.ths[t := CheckFlag(n)])
    ensures s6 == s4.(head := x.next, list := s4.list[1..], nodes := s4.nodes[n := x.(ph := Popped(t))], ths := s4.ths[t := CheckFlag(n)])
  {
    assert s4.nodes[n := x.(ph := Popped(t))] == s6.nodes && s4.ths[t := CheckFlag(n)] == s6.ths;
  }

  lemma Holding(s: State, s3: State, s4: State, t: nat, n: Id, x: Node)
    requires t in s.ths && n in s.nodes && x == s.nodes[n] && x.refs == 1 && x.holders == {}
    requires s3 == Go(s, t, CasRefs(n, 1)) && s4 == Put(s, t, n, x.(refs := 2, holders := {t}), LoadNext(n))
    ensures Step(s3, t, Tau) == Some(s4)
  {
    assert x.holders + {t} == {t};
    assert s3.ths[t := LoadNext(n)] == s4.ths;
  }

  lemma Handing(s: State, s6: State, s7: State, s8: State, t: nat, n: Id)
    requires t in s.ths && s.ths[t] == Idle && n in s.nodes && n in s6.nodes && s6.ths == s.ths[t := CheckFlag(n)]
    requires s6.nodes == s.nodes[n := s6.nodes[n]] && s6.nodes[n].refs == 2 && s6.nodes[n].holders == {t}
    requires s7 == s6.(ths := s.ths[t := DropTwo(n)])
    requires s8 == s6.(nodes := s.nodes[n := s6.nodes[n].(refs := 0, holders := {}, ph := Owned)], ths := s.ths)
    ensures Step(s6, t, Tau) == Some(s7) && Step(s7, t, Tau) == Some(s8)
  {
    assert s6.ths[t := DropTwo(n)] == s7.ths;
    assert {t} - {t} == {};
    assert s7.ths[t := Idle] == s.ths && s7.nodes[n := s8.nodes[n]] == s8.nodes;
  }

  lemma Looking(s: State, t: nat, n: Id, s3: State)
    requires t in s.ths && s.ths[t] == Idle && s.head == Some(n) && n in s.nodes && s.nodes[n].refs == 1
    requires s3 == Go(s, t, CasRefs(n, 1))
    ensures Alone(s, t, CallGet, 2) == Some(s3)
  {
    var s1, s2 := Go(s, t, GetHead), Go(s, t, LoadRefs(n));
    assert s1.ths[t := LoadRefs(n)] == s2.ths && s2.ths[t := CasRefs(n, 1)] == s3.ths;
    assert Step(s, t, CallGet) == Some(s1) && Step(s1, t, Tau) == Some(s2) && Step(s2, t, Tau) == Some(s3);
    assert Alone(s2, t, Tau, 0) == Some(s3);
    assert Alone(s1, t, Tau, 1) == Some(s3);
  }

  lemma Popping(s: State, t: nat, n: Id, x: Node, s': State)
    requires t in s.ths && s.ths[t] == LoadNext(n) && s.head == Some(n) && n in s.nodes && s.nodes[n] == x && s.list != []
    requires s' == s.(head := x.next, list := s.list[1..], nodes := s.nodes[n := x.(ph := Popped(t))], ths := s.ths[t := CheckFlag(n)])
    ensures Alone(s, t, Tau, 1) == Some(s')
  {
    var s1 := Go(s, t, CasPop(n, x.next));
    assert s1.ths[t := CheckFlag(n)] == s'.ths;
    assert Step(s, t, Tau) == Some(s1) && Step(s1, t, Tau) == Some(s');
  }

  /** Steps of a thread alone, put together. */
  lemma {:induction false} AloneMore(s: State, t: nat, inp: Input, k: nat, j: nat)
    requires t in s.ths && Alone(s, t, inp, k).Some? && t in Alone(s, t, inp, k).value.ths
    ensures Alone(s, t, inp, k + 1 + j) == Alone(Alone(s, t, inp, k).value, t, Tau, j)
    decreases k
  {
    var r := Step(s, t, inp);
    if k > 0 && r.Some? && t in r.value.ths { AloneMore(r.value, t, Tau, k - 1, j); }
  }

  lemma Chain(s: State, s3: State, s4: State, s6: State, s7: State, s8: State, t: nat)
    requires t in s.ths && t in s3.ths && t in s4.ths && t in s6.ths && t in s7.ths
    requires Alone(s, t, CallGet, 2) == Some(s3) && Step(s3, t, Tau) == Some(s4) && Alone(s4, t, Tau, 1) == Some(s6)
    requires Step(s6, t, Tau) == Some(s7) && Step(s7, t, Tau) == Some(s8)
    ensures Alone(s, t, CallGet, 6) == Some(s7) && Alone(s, t, CallGet, 7) == Some(s8)
  {
    AloneMore(s, t, CallGet, 2, 0);
    assert Alone(s3, t, Tau, 0) == Some(s4);
    AloneMore(s, t, CallGet, 3, 1);
    AloneMore(s, t, CallGet, 5, 0);
    assert Alone(s6, t, Tau, 0) == Some(s7);
    AloneMore(s, t, CallGet, 6, 0);
    assert Alone(s7, t, Tau, 0) == Some(s8);
  }

  /** An add of a node of the client that nobody disturbs, when no other call is under way, puts it on the
      list, in front. */
  lemma AddAlone(s: State, t: nat, n: Id)
    requires Inv(s) && Quiet(s) && t in s.ths && n in s.nodes && s.nodes[n].ph == Owned
    ensures Alone(s, t, CallAdd(n), 4) == Some(s.(head := Some(n), list := [n] + s.list,
      nodes := s.nodes[n := Node(1, s.head, Listed, {})]))
  {
    NobodyHolds(s, n);
    var x := s.nodes[n];
    var s2 := Put(s, t, n, x.(refs := SHOULD, ph := Claimed(t)), StoreNext(n, s.head, Done));
    var s3 := Put(s, t, n, x.(refs := SHOULD, ph := Claimed(t), next := s.head), StoreRefs(n, s.head, Done));
    var s4 := Put(s, t, n, x.(refs := 1, ph := Ready(t), next := s.head), CasPush(n, s.head, Done));
    var s5 := s.(head := Some(n), list := [n] + s.list, nodes := s.nodes[n := Node(1, s.head, Listed, {})]);
    Claiming(s, s2, s3, t, n, x);
    Pushing(s, s3, s4, s5, t, n);
    AloneMore(s, t, CallAdd(n), 2, 1);
  }

  lemma Claiming(s: State, s2: State, s3: State, t: nat, n: Id, x: Node)
    requires t in s.ths && s.ths[t] == Idle && n in s.nodes && x == s.nodes[n] && x.refs == 0 && x.ph == Owned
    requires s2 == Put(s, t, n, x.(refs := SHOULD, ph := Claimed(t)), StoreNext(n, s.head, Done))
    requires s3 == Put(s, t, n, x.(refs := SHOULD, ph := Claimed(t), next := s.head), StoreRefs(n, s.head, Done))
    ensures Alone(s, t, CallAdd(n), 2) == Some(s3)
  {
    var s1 := Put(s, t, n, x.(refs := SHOULD, ph := Claimed(t)), LoadHead(n, Done));
    assert Step(s, t, CallAdd(n)) == Some(s1);
    assert Step(s1, t, Tau) == Some(s2) by { assert s1.ths[t := StoreNext(n, s.head, Done)] == s2.ths; }
    assert Step(s2, t, Tau) == Some(s3) by {
      assert s2.ths[t := StoreRefs(n, s.head, Done)] == s3.ths && s2.nodes[n := s3.nodes[n]] == s3.nodes;
    }
    assert Alone(s2, t, Tau, 0) == Some(s3);
    assert Alone(s1, t, Tau, 1) == Some(s3);
  }

  lemma Pushing(s: State, s3: State, s4: State, s5: State, t: nat, n: Id)
    requires t in s.ths && n in s.nodes && s.ths[t] == Idle && s.nodes[n].holders == {}
    requires var x := s.nodes[n];
      && s3 == Put(s, t, n, x.(refs := SHOULD, ph := Claimed(t), next := s.head), StoreRefs(n, s.head, Done))
      && s4 == Put(s, t, n, x.(refs := 1, ph := Ready(t), next := s.head), CasPush(n, s.head, Done))
      && s5 == s.(head := Some(n), list := [n] + s.list, nodes := s.nodes[n := Node(1, s.head, Listed, {})])
    ensures Alone(s3, t, Tau, 1) == Some(s5)
  {
    assert Step(s3, t, Tau) == Some(s4) by {
      assert s3.ths[t := CasPush(n, s.head, Done)] == s4.ths && s3.nodes[n := s4.nodes[n]] == s4.nodes;
    }
    assert Step(s4, t, Tau) == Some(s5) by {
      assert s4.ths[t := Idle] == s.ths && s4.nodes[n := s5.nodes[n]] == s5.nodes;
    }
    assert Alone(s4, t, Tau, 0) == Some(s5);
  }
}
