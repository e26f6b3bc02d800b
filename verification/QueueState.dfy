/** The explicit sub-queue of concurrentqueue.h: one producer, any number of dequeuers, one
    step for each access to a shared word. Indices are words of 64 bits that only ever grow;
    the counters below are the numbers they stand for, and every comparison and difference is
    taken on the words. dequeue is dequeue_bulk with a maximum of one. */
module QueueState {
  import opened Options

  type Bid = nat

  const BLOCK: nat := 32
  const INITIAL: nat := 32
  const WORD: int := 0x1_0000_0000_0000_0000
  const HALF: int := 0x8000_0000_0000_0000

  function Wrap(x: int): nat { x % WORD }

  /** circular_less_than on the words of a and b. */
  predicate CircularLess(a: int, b: int) { Wrap(a - b) > HALF }

  function Signed(w: nat): int { if w >= HALF then w - WORD else w }

  function Min(a: nat, b: nat): nat { if a < b then a else b }

  // ---- shared memory -----------------------------------------------------------------

  /** tailIndex, headIndex, dequeueOptimisticCount, dequeueOvercommit. */
  datatype Counters = Counters(tail: nat, head: nat, opt: nat, over: nat)

  /** A block index: slots that were never written are absent. Auxiliary: block number b (its
      indices start at b * BLOCK) has slot (b - c) % size; the slots of lo..top are intact;
      front is the slot of block number pf. */
  datatype Header = Header(size: nat, front: nat, bases: map<nat, nat>, blks: map<nat, Bid>, x: Span)

  datatype Span = Span(c: nat, lo: nat, top: nat, pf: nat)

  datatype Block = Block(next: Bid, flags: set<nat>, elems: map<nat, int>)

  // ---- the producer --------------------------------------------------------------------

  datatype ProducerPc = PIdle | PTest | PHead | PGrow | PBlock | PBase | PBlk | PFront | PElem | PTail | PFailed

  datatype Producer = Producer(pc: ProducerPc, v: int, last: Option<Bid>, used: nat, size: nat, front: nat)

  // ---- dequeuers ------------------------------------------------------------------------

  datatype Claim =
    | LoadTail(max: nat)
    | LoadOver(max: nat, tail: nat)
    | LoadOpt(max: nat, tail: nat, o: nat)
    | AddOpt(n: nat, o: nat)
    | Again(n: nat, m: nat, o: nat)
    | AddOver(n: nat, m: nat, k: nat)
    | AddHead(m: nat, k: nat)

  datatype Work =
    | LoadIndex(a: nat, b: nat)
    | LoadFront(a: nat, b: nat, h: nat)
    | ReadBase(a: nat, b: nat, h: nat, f: nat, pf: nat)
    | ReadBlock(i: nat, b: nat, h: nat, j: nat)
    | Move(i: nat, q: Part)
    | Flag(i: nat, q: Part)
    | Failed

  /** The part s..e of the range that ends at b, in block k, found in slot j of header h. */
  datatype Part = Part(s: nat, e: nat, b: nat, h: nat, j: nat, k: Bid)

  datatype Pc = Idle | Claiming(c: Claim) | Working(w: Work)

  // ---- auxiliary history -----------------------------------------------------------------

  /** What became of each count taken from dequeueOptimisticCount: not decided; decided to
      take; decided to give back; headIndex advanced; dequeueOvercommit advanced. */
  datatype Fate = Pending | Won | Lost | Taken | Returned

  datatype Mark = Mark(t: nat, f: Fate)

  /** What became of each index handed out by headIndex. */
  datatype Stage = Held | Moved | Gone

  datatype Given = Given(t: nat, g: Stage)

  /** home: the block of each block number. items: the values published. */
  datatype History = History(marks: seq<Mark>, given: seq<Given>, home: seq<Bid>, items: seq<int>)

  datatype State = State(n: Counters, idx: seq<Header>, blocks: map<Bid, Block>, p: Producer,
                         ths: map<nat, Pc>, x: History)

  datatype Input = Tau | Enqueue(v: int) | Malloc(ok: bool) | Requisition(b: Option<Bid>) | Dequeue(max: nat)

  // ---- the producer's steps --------------------------------------------------------------

  predicate AllFlags(b: Block) { forall k :: 0 <= k < BLOCK ==> k in b.flags }

  /** The entries that new_block_index copies: the used ones, oldest first. */
  function Copied<T>(from: map<nat, T>, front: nat, used: nat, size: nat): map<nat, T>
    requires size > 0
  {
    map j: nat | 0 <= j < used && Old(front, used, j, size) in from :: from[Old(front, used, j, size)]
  }

  /** The slot of the j-th used entry, oldest first. */
  function Old(front: nat, used: nat, j: nat, size: nat): nat
    requires size > 0
  {
    (front - used + j) % size
  }

  function Grown(s: State): State {
    var p := s.p;
    var mask := p.size;
    var used := p.used;
    var front := if used == 0 then WORD - 1 else used - 1;
    var hd := if s.idx == [] || mask == 0
              then Header(2 * mask, front, map[], map[], Span(|s.x.home|, |s.x.home|, |s.x.home|, 0))
              else Header(2 * mask, front,
                          Copied(s.idx[|s.idx| - 1].bases, p.front, used, mask),
                          Copied(s.idx[|s.idx| - 1].blks, p.front, used, mask),
                          Span(Sub(|s.x.home|, used), Sub(|s.x.home|, used), |s.x.home|, Sub(|s.x.home|, 1)));
    s.(idx := s.idx + [hd], p := p.(pc := PBlock, size := 2 * mask, front := used))
  }

  function Sub(a: nat, b: nat): nat { if b <= a then a - b else 0 }

  /** Take the empty block b that follows the last one. */
  function Reused(s: State, b: Bid): State
    requires b in s.blocks
  {
    s.(blocks := s.blocks[b := s.blocks[b].(flags := {})],
       p := s.p.(pc := PBase, last := Some(b)), x := s.x.(home := s.x.home + [b]))
  }

  /** Link a new block behind the last one. */
  function Linked(s: State, b: Bid): State {
    var p := s.p.(pc := PBase, last := Some(b), used := s.p.used + 1);
    var x := s.x.(home := s.x.home + [b]);
    if s.p.last.None? || s.p.last.value !in s.blocks
    then s.(blocks := s.blocks[b := Block(b, {}, map[])], p := p, x := x)
    else
      var l := s.blocks[s.p.last.value];
      s.(blocks := s.blocks[b := Block(l.next, {}, map[])][s.p.last.value := l.(next := b)], p := p, x := x)
  }

  function SetLast(s: State, hd: Header): State
    requires s.idx != []
  {
    s.(idx := s.idx[|s.idx| - 1 := hd])
  }

  /** One step of the producer; None when the step is not enabled by this input. */
  function ProducerStep(s: State, inp: Input): Option<State> {
    var p := s.p;
    match p.pc
    case PIdle =>
      if !inp.Enqueue? then None else
      var q := p.(v := inp.v);
      Some(s.(p := if s.n.tail % BLOCK != 0 then q.(pc := PElem)
                   else if p.last.Some? then q.(pc := PTest) else q.(pc := PHead)))
    case PTest =>
      if p.last.None? || p.last.value !in s.blocks || s.blocks[p.last.value].next !in s.blocks then None else
      var b := s.blocks[p.last.value].next;
      Some(if AllFlags(s.blocks[b]) then Reused(s, b) else s.(p := p.(pc := PHead)))
    case PHead =>
      Some(s.(p := if CircularLess(s.n.tail, s.n.head) then p.(pc := PFailed)
                   else if !CircularLess(s.n.head, s.n.tail + BLOCK) then p.(pc := PIdle)
                   else if s.idx == [] || p.used == p.size then p.(pc := PGrow) else p.(pc := PBlock)))
    case PGrow => if !inp.Malloc? then None else Some(if inp.ok then Grown(s) else s.(p := p.(pc := PIdle)))
    case PBlock =>
      if !inp.Requisition? then None
      else if inp.b.None? then Some(s.(p := p.(pc := PIdle)))
      else if inp.b.value in s.blocks then None
      else Some(Linked(s, inp.b.value))
    case PFailed => None
    case _ => if s.idx == [] || p.last.None? || p.last.value !in s.blocks then None else Store(s, s.idx[|s.idx| - 1], p.last.value)
  }

  /** The stores that publish an element: index entry, front, element, tail. */
  function Store(s: State, hd: Header, b: Bid): Option<State>
    requires s.idx != [] && b in s.blocks
  {
    var p := s.p;
    match p.pc
    case PBase =>
      var lo := if hd.x.top == hd.x.lo + hd.size then hd.x.lo + 1 else hd.x.lo;
      Some(SetLast(s, hd.(bases := hd.bases[p.front := s.n.tail], x := hd.x.(lo := lo))).(p := p.(pc := PBlk)))
    case PBlk =>
      Some(SetLast(s, hd.(blks := hd.blks[p.front := b], x := hd.x.(top := hd.x.top + 1))).(p := p.(pc := PFront)))
    case PFront =>
      if p.size == 0 then None else
      Some(SetLast(s, hd.(front := p.front, x := hd.x.(pf := Sub(hd.x.top, 1))))
           .(p := p.(pc := PElem, front := (p.front + 1) % p.size)))
    case PElem =>
      var k := s.blocks[b];
      Some(s.(blocks := s.blocks[b := k.(elems := k.elems[s.n.tail % BLOCK := p.v])], p := p.(pc := PTail)))
    case PTail =>
      Some(s.(n := s.n.(tail := s.n.tail + 1), x := s.x.(items := s.x.items + [p.v]), p := p.(pc := PIdle)))
    case _ => None
  }

  // ---- a dequeuer's steps -----------------------------------------------------------------

  function Go(s: State, t: nat, pc: Pc): State { s.(ths := s.ths[t := pc]) }

  /** The marks a..b get fate f. */
  function Fated(marks: seq<Mark>, a: nat, b: nat, f: Fate): (r: seq<Mark>)
    ensures |r| == |marks|
  {
    seq(|marks|, i requires 0 <= i < |marks| => if a <= i < b then marks[i].(f := f) else marks[i])
  }

  /** How many elements the counters leave for a dequeuer whose position is m. */
  function Left(tail: nat, m: nat, o: nat): nat { Wrap(tail - (m - o)) }

  function ClaimStep(s: State, t: nat, c: Claim): State {
    match c
    case LoadTail(max) => Go(s, t, Claiming(LoadOver(max, s.n.tail)))
    case LoadOver(max, tail) => Go(s, t, Claiming(LoadOpt(max, tail, s.n.over)))
    case LoadOpt(max, tail, o) =>
      Go(s, t, if CircularLess(s.n.opt - o, tail) then Claiming(AddOpt(Min(max, Left(tail, s.n.opt, o)), o)) else Idle)
    case AddOpt(n, o) =>
      Go(s, t, Claiming(Again(n, s.n.opt, o)))
      .(n := s.n.(opt := s.n.opt + n), x := s.x.(marks := s.x.marks + seq(n, _ => Mark(t, Pending))))
    case Again(n, m, o) =>
      var k := if CircularLess(m - o, s.n.tail) then Min(n, Left(s.n.tail, m, o)) else 0;
      Go(s, t, Claiming(if k < n then AddOver(n, m, k) else AddHead(m, k)))
      .(x := s.x.(marks := Fated(Fated(s.x.marks, m, m + k, Won), m + k, m + n, Lost)))
    case AddOver(n, m, k) =>
      Go(s, t, if k == 0 then Idle else Claiming(AddHead(m, k)))
      .(n := s.n.(over := s.n.over + Sub(n, k)), x := s.x.(marks := Fated(s.x.marks, m + k, m + n, Returned)))
    case AddHead(m, k) =>
      // With a maximum of zero the code looks up an entry here and touches no element.
      var a := s.n.head;
      Go(s, t, if k == 0 then Idle else Working(LoadIndex(a, a + k)))
      .(n := s.n.(head := a + k),
        x := s.x.(marks := Fated(s.x.marks, m, m + k, Taken), given := s.x.given + seq(k, _ => Given(t, Held))))
  }

  /** The slot of the block of index a, as computed from the front entry. Sizes are powers of
      two, so the mask of the code is the remainder. */
  function Slot(a: nat, f: nat, base: nat, size: nat): nat
    requires size > 0
  {
    (f + Signed(Wrap(a / BLOCK * BLOCK - base)) / BLOCK) % size
  }

  /** The end of the part of s..b that lies in the block of s. */
  function BlockEnd(s: nat, b: nat): nat {
    var e := (s / BLOCK + 1) * BLOCK;
    if CircularLess(b, e) then b else e
  }

  function Staged(given: seq<Given>, i: nat, g: Stage): (r: seq<Given>)
    ensures |r| == |given|
  {
    if i < |given| then given[i := given[i].(g := g)] else given
  }

  function WorkStep(s: State, t: nat, w: Work): State {
    var failed := Go(s, t, Working(Failed));
    match w
    case LoadIndex(a, b) => if s.idx == [] then failed else Go(s, t, Working(LoadFront(a, b, |s.idx| - 1)))
    case LoadFront(a, b, h) =>
      if h >= |s.idx| then failed else Go(s, t, Working(ReadBase(a, b, h, s.idx[h].front, s.idx[h].x.pf)))
    case ReadBase(a, b, h, f, _) =>
      if h >= |s.idx| || f !in s.idx[h].bases || s.idx[h].size == 0 then failed
      else Go(s, t, Working(ReadBlock(a, b, h, Slot(a, f, s.idx[h].bases[f], s.idx[h].size))))
    case ReadBlock(i, b, h, j) =>
      if h >= |s.idx| || j !in s.idx[h].blks then failed
      else Go(s, t, Working(Move(i, Part(i, BlockEnd(i, b), b, h, j, s.idx[h].blks[j]))))
    case Move(i, q) => if q.k in s.blocks then MoveStep(s, t, i, q, s.blocks[q.k]) else failed
    case Flag(i, q) => if q.k in s.blocks then FlagStep(s, t, Sub(i, 1), q, s.blocks[q.k]) else failed
    case Failed => s
  }

  /** Move element i out of its slot and destroy it. */
  function MoveStep(s: State, t: nat, i: nat, q: Part, blk: Block): State {
    if i % BLOCK !in blk.elems then Go(s, t, Working(Failed)) else
    Go(s, t, Working(if i + 1 == q.e then Flag(q.e, q) else Move(i + 1, q)))
    .(blocks := s.blocks[q.k := blk.(elems := blk.elems - {i % BLOCK})],
      x := s.x.(given := Staged(s.x.given, i, Moved)))
  }

  /** Set the empty flags of s..e, last index first; then go on with the next block. */
  function FlagStep(s: State, t: nat, i: nat, q: Part, blk: Block): State {
    if i % BLOCK in blk.flags || q.h >= |s.idx| || s.idx[q.h].size == 0 then Go(s, t, Working(Failed)) else
    Go(s, t, if i != q.s then Working(Flag(i, q))
             else if q.e == q.b then Idle
             else Working(ReadBlock(q.e, q.b, q.h, (q.j + 1) % s.idx[q.h].size)))
    .(blocks := s.blocks[q.k := blk.(flags := blk.flags + {i % BLOCK})],
      x := s.x.(given := Staged(s.x.given, i, Gone)))
  }

  function DequeuerStep(s: State, t: nat, inp: Input): Option<State>
    requires t in s.ths
  {
    match s.ths[t]
    case Idle => if inp.Dequeue? then Some(Go(s, t, Claiming(LoadTail(inp.max)))) else None
    case Claiming(c) => Some(ClaimStep(s, t, c))
    case Working(w) => if w.Failed? then None else Some(WorkStep(s, t, w))
  }

  datatype Actor = ByProducer | ByDequeuer(t: nat)

  function Step(s: State, who: Actor, inp: Input): Option<State> {
    match who
    case ByProducer => ProducerStep(s, inp)
    case ByDequeuer(t) => if t in s.ths then DequeuerStep(s, t, inp) else None
  }

  /** The value that a step of t hands to its caller. */
  function Delivered(s: State, t: nat): Option<int>
    requires t in s.ths
  {
    match s.ths[t]
    case Working(Move(i, q)) =>
      if q.k in s.blocks && i % BLOCK in s.blocks[q.k].elems then Some(s.blocks[q.k].elems[i % BLOCK]) else None
    case _ => None
  }

  // ---- comparisons on words ------------------------------------------------------------------

  /** circular_less_than is right exactly for numbers that are not too far apart. */
  predicate Near(a: int, b: int) { -HALF < a - b <= HALF }

  lemma CircularLessExact(a: int, b: int)
    requires -WORD < a - b < WORD
    ensures (CircularLess(a, b) <==> a < b) <==> Near(a, b)
    ensures CircularLess(a, b) ==> Wrap(b - a) < HALF
  {
    if a < b { assert Wrap(a - b) == a - b + WORD; } else { assert Wrap(a - b) == a - b; }
  }
}
