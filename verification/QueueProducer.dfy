/** The producer's steps keep the ring, the block indexes and the dequeuers' claims. */
module QueueProducer {
  import opened Options
  import opened QueueState
  import opened QueueInv

  // ---- what dequeuers rely on ---------------------------------------------------------------

  /** How a header may change under a dequeuer: entries of unfinished indices stay in reach. */
  predicate HeaderGrows(hd: Header, hd': Header, given: seq<Given>) {
    && hd'.size == hd.size && hd'.x.c == hd.x.c && hd.x.top <= hd'.x.top
    && (hd'.x.lo == hd.x.lo || forall i :: 0 <= i < |given| && i < hd'.x.lo * BLOCK ==> given[i].g == Gone)
    && (FrontOk(hd) ==> FrontOk(hd')) && hd.x.pf <= hd'.x.pf
  }

  lemma ReachGrows(hd: Header, hd': Header, given: seq<Given>, a: nat, b: nat)
    requires HeaderGrows(hd, hd', given) && Reach(hd, a, b) && a < |given| && given[a].g != Gone
    ensures Reach(hd', a, b)
  {}

  predicate IdxGrows(idx: seq<Header>, idx': seq<Header>, given: seq<Given>) {
    |idx| <= |idx'| && forall h :: 0 <= h < |idx| ==> HeaderGrows(idx[h], idx'[h], given)
  }

  predicate HomeGrows(home: seq<Bid>, home': seq<Bid>) {
    |home| <= |home'| && forall o :: 0 <= o < |home| ==> home'[o] == home[o]
  }

  lemma WorkerGrows(idx: seq<Header>, idx': seq<Header>, home: seq<Bid>, home': seq<Bid>, given: seq<Given>, t: nat, w: Work)
    requires WorkOk(idx, home, given, t, w) && IdxGrows(idx, idx', given) && HomeGrows(home, home')
    ensures WorkOk(idx', home', given, t, w)
  {
    match w {
      case LoadIndex(a, b) =>
      case LoadFront(a, b, h) =>
        assert HeaderGrows(idx[h], idx'[h], given) && given[a].g != Gone;
        ReachGrows(idx[h], idx'[h], given, a, b);
      case ReadBase(a, b, h, f, pf) =>
        assert HeaderGrows(idx[h], idx'[h], given) && given[a].g != Gone;
        ReachGrows(idx[h], idx'[h], given, a, b);
      case ReadBlock(i, b, h, j) =>
        assert HeaderGrows(idx[h], idx'[h], given) && given[i].g != Gone;
        ReachGrows(idx[h], idx'[h], given, i, b);
      case Move(i, q) => PartGrows(idx, idx', home, home', given, t, w);
      case Flag(i, q) => PartGrows(idx, idx', home, home', given, t, w);
    }
  }

  lemma PartGrows(idx: seq<Header>, idx': seq<Header>, home: seq<Bid>, home': seq<Bid>, given: seq<Given>, t: nat, w: Work)
    requires (w.Move? || w.Flag?) && WorkOk(idx, home, given, t, w) && IdxGrows(idx, idx', given) && HomeGrows(home, home')
    ensures WorkOk(idx', home', given, t, w)
  {
    var q := w.q;
    assert HeaderGrows(idx[q.h], idx'[q.h], given) && given[q.s].g != Gone;
    ReachGrows(idx[q.h], idx'[q.h], given, q.s, q.b);
  }

  lemma WorkersGrow(idx: seq<Header>, idx': seq<Header>, home: seq<Bid>, home': seq<Bid>, given: seq<Given>, ths: map<nat, Pc>)
    requires WorkersOk(idx, home, given, ths) && IdxGrows(idx, idx', given) && HomeGrows(home, home')
    ensures WorkersOk(idx', home', given, ths)
  {
    forall t | t in ths && ths[t].Working? ensures WorkOk(idx', home', given, t, ths[t].w) {
      WorkerGrows(idx, idx', home, home', given, t, ths[t].w);
    }
  }

  lemma HeaderKept(hd: Header, home: seq<Bid>, home': seq<Bid>)
    requires HeaderOk(hd, home) && HomeGrows(home, home')
    ensures HeaderOk(hd, home')
  {
    forall o | hd.x.lo <= o < hd.x.top ensures Intact(hd, home', o) {
      assert Intact(hd, home, o);
    }
  }

  lemma HeadersKept(idx: seq<Header>, home: seq<Bid>, home': seq<Bid>)
    requires HeadersOk(idx, home) && HomeGrows(home, home')
    ensures HeadersOk(idx, home')
  {
    forall h | 0 <= h < |idx| ensures HeaderOk(idx[h], home') {
      HeaderKept(idx[h], home, home');
    }
  }

  // ---- reuse of the next block ----------------------------------------------------------------

  lemma OldestDone(blk: Block, o: nat, given: seq<Given>, items: seq<int>, i: nat)
    requires BlockOk(blk, o, given, items) && AllFlags(blk) && o * BLOCK <= i < (o + 1) * BLOCK
    ensures i < |given| && given[i].g == Gone
  {
    assert CellOk(blk, o, i - o * BLOCK, given, items);
  }

  lemma ReuseRing(blocks: map<Bid, Block>, blocks': map<Bid, Block>, home: seq<Bid>, last: Option<Bid>, used: nat, b: Bid)
    requires RingOk(blocks, home, last, used) && used > 0 && b == home[|home| - used]
    requires b in blocks && blocks' == blocks[b := blocks[b].(flags := {})]
    ensures RingOk(blocks', home + [b], Some(b), used)
  {
    var home' := home + [b];
    forall o | |home'| - used <= o < |home'| ensures LinkOk(blocks', home', used, o) {
      if o < |home| { assert LinkOk(blocks, home, used, o); } else { assert LinkOk(blocks, home, used, |home| - used); }
    }
  }

  lemma ReuseCells(blocks: map<Bid, Block>, blocks': map<Bid, Block>, home: seq<Bid>, used: nat, b: Bid, given: seq<Given>, items: seq<int>)
    requires 0 < used <= |home| && CellsOk(blocks, home, used, given, items) && b == home[|home| - used]
    requires b in blocks && blocks' == blocks[b := blocks[b].(flags := {})]
    requires forall o, o' :: |home| - used <= o < o' < |home| ==> home[o] != home[o']
    requires |given| <= |items| == |home| * BLOCK
    ensures CellsOk(blocks', home + [b], used, given, items)
  {
    var home' := home + [b];
    forall o | |home'| - used <= o < |home'| ensures home'[o] in blocks' && BlockOk(blocks'[home'[o]], o, given, items) {
      if o < |home| {
        assert home[o] != b && home[o] in blocks;
      } else {
        forall k | 0 <= k < BLOCK ensures CellOk(blocks'[b], o, k, given, items) {}
      }
    }
  }

  /** A new block number: the entry for it is still to be written. */
  lemma CurrentEnters(hd: Header, p: Producer, p': Producer, q: nat)
    requires CurrentOk(hd, p, q) && !Entering(p.pc) && p'.pc.PBase?
    requires p'.size == p.size && p'.front == p.front && p'.used > 0
    requires p'.used == p.used || (p'.used == p.used + 1 && p.used < p.size)
    ensures CurrentOk(hd, p', q + 1)
  {}

  lemma ReuseDone(blk: Block, home: seq<Bid>, used: nat, given: seq<Given>, items: seq<int>, b: Bid)
    requires 0 < used <= |home| && DoneOk(home, used, given) && AllFlags(blk) && BlockOk(blk, |home| - used, given, items)
    ensures DoneOk(home + [b], used, given)
  {
    var o := |home| - used;
    OldestDone(blk, o, given, items, o * BLOCK + BLOCK - 1);
    forall i | 0 <= i < (o + 1) * BLOCK ensures given[i].g == Gone {
      if i >= o * BLOCK { OldestDone(blk, o, given, items, i); }
    }
  }

  lemma ReuseMemory(s: State, s': State, b: Bid)
    requires BlocksInv(s) && s.p.pc.PTest? && s.p.used > 0
    requires b == s.x.home[|s.x.home| - s.p.used] && b in s.blocks && AllFlags(s.blocks[b])
    requires s' == Reused(s, b)
    ensures MemoryOk(s')
  {
    ReuseRing(s.blocks, s'.blocks, s.x.home, s.p.last, s.p.used, b);
    ReuseCells(s.blocks, s'.blocks, s.x.home, s.p.used, b, s.x.given, s.x.items);
    ReuseDone(s.blocks[b], s.x.home, s.p.used, s.x.given, s.x.items, b);
  }

  /** A new block number leaves the entries and the dequeuers alone. */
  lemma HomeMemory(s: State, s': State, b: Bid)
    requires BlocksInv(s) && s'.idx == s.idx && s'.x == s.x.(home := s.x.home + [b]) && s'.ths == s.ths && s'.n == s.n
    ensures HeadersOk(s'.idx, s'.x.home) && WorkersOk(s'.idx, s'.x.home, s'.x.given, s'.ths)
  {
    HeadersKept(s.idx, s.x.home, s'.x.home);
    WorkersGrow(s.idx, s'.idx, s.x.home, s'.x.home, s.x.given, s.ths);
  }

  lemma EnterProducer(s: State, s': State, b: Bid)
    requires ProducerOk(s) && (s.p.pc.PTest? || s.p.pc.PBlock?) && s.idx != []
    requires s'.idx == s.idx && s'.x == s.x.(home := s.x.home + [b]) && s'.n == s.n
    requires s'.p.pc.PBase? && s'.p.size == s.p.size && s'.p.front == s.p.front && s'.p.used > 0
    requires s'.p.used == s.p.used || (s'.p.used == s.p.used + 1 && s.p.used < s.p.size)
    ensures ProducerOk(s')
  {
    CurrentEnters(s.idx[|s.idx| - 1], s.p, s'.p, |s.x.home|);
  }

  lemma ReuseKeeps(s: State, b: Bid)
    requires BlocksInv(s) && s.p.pc.PTest? && s.p.used > 0
    requires b == s.x.home[|s.x.home| - s.p.used] && b in s.blocks && AllFlags(s.blocks[b])
    ensures BlocksInv(Reused(s, b))
  {
    var s' := Reused(s, b);
    ReuseMemory(s, s', b);
    HomeMemory(s, s', b);
    EnterProducer(s, s', b);
  }

  lemma NextInRing(blocks: map<Bid, Block>, home: seq<Bid>, last: Option<Bid>, used: nat)
    requires RingOk(blocks, home, last, used) && home != []
    ensures last.value in blocks && blocks[last.value].next == home[|home| - used] && home[|home| - used] in blocks
  {
    assert LinkOk(blocks, home, used, |home| - 1);
    assert LinkOk(blocks, home, used, |home| - used);
  }

  /** A step that only moves the producer on. */
  lemma ProducerMoves(s: State, pc: ProducerPc, v: int)
    requires BlocksInv(s) && ProducerOk(s.(p := s.p.(pc := pc, v := v)))
    ensures BlocksInv(s.(p := s.p.(pc := pc, v := v)))
  {}

  lemma TestKeeps(s: State)
    requires BlocksInv(s) && s.p.pc.PTest?
    ensures ProducerStep(s, Tau).Some? && BlocksInv(ProducerStep(s, Tau).value)
  {
    NextInRing(s.blocks, s.x.home, s.p.last, s.p.used);
    var b := s.blocks[s.p.last.value].next;
    if AllFlags(s.blocks[b]) { ReuseKeeps(s, b); } else { ProducerMoves(s, PHead, s.p.v); }
  }

  // ---- a new block -----------------------------------------------------------------------------

  lemma LinkLinks(blocks: map<Bid, Block>, blocks': map<Bid, Block>, home: seq<Bid>, home': seq<Bid>, last: Option<Bid>,
                  used: nat, u: nat, b: Bid)
    requires home' == home + [b] && u == used + 1
    requires home != [] && RingOk(blocks, home, last, used) && b !in blocks && last.value in blocks
    requires blocks' == blocks[b := Block(blocks[last.value].next, {}, map[])][last.value := blocks[last.value].(next := b)]
    ensures forall o :: |home| - used <= o < |home| + 1 ==> LinkOk(blocks', home', u, o)
  {
    assert LinkOk(blocks, home, used, |home| - 1);
    forall o | |home| - used <= o < |home| + 1 ensures LinkOk(blocks', home', u, o) {
      if o < |home| { assert LinkOk(blocks, home, used, o); }
    }
  }

  lemma LinkRing(blocks: map<Bid, Block>, blocks': map<Bid, Block>, home: seq<Bid>, home': seq<Bid>, last: Option<Bid>,
                 used: nat, u: nat, b: Bid)
    requires RingOk(blocks, home, last, used) && b !in blocks && home' == home + [b] && u == used + 1
    requires forall o :: |home| - used <= o < |home| + 1 ==> LinkOk(blocks', home', u, o)
    ensures RingOk(blocks', home', Some(b), u)
  {
    forall o, o' | |home'| - (used + 1) <= o < o' < |home'| ensures home'[o] != home'[o'] {
      if o' == |home| { assert LinkOk(blocks, home, used, o); }
    }
  }

  predicate SameCells(b: Block, b': Block) { b'.flags == b.flags && b'.elems == b.elems }

  lemma LinkCells(blocks: map<Bid, Block>, blocks': map<Bid, Block>, home: seq<Bid>, used: nat, b: Bid, given: seq<Given>, items: seq<int>)
    requires used <= |home| && CellsOk(blocks, home, used, given, items) && b !in blocks
    requires |given| <= |items| == |home| * BLOCK
    requires b in blocks' && blocks'[b].flags == {}
    requires forall c :: c in blocks ==> c in blocks' && SameCells(blocks[c], blocks'[c])
    ensures CellsOk(blocks', home + [b], used + 1, given, items)
  {
    var home' := home + [b];
    forall o | |home'| - (used + 1) <= o < |home'| ensures home'[o] in blocks' && BlockOk(blocks'[home'[o]], o, given, items) {
      if o < |home| {
        assert home[o] in blocks && SameCells(blocks[home[o]], blocks'[home[o]]);
        forall k | 0 <= k < BLOCK ensures CellOk(blocks'[home[o]], o, k, given, items) {
          assert CellOk(blocks[home[o]], o, k, given, items);
        }
      } else {
        forall k | 0 <= k < BLOCK ensures CellOk(blocks'[b], o, k, given, items) {}
      }
    }
  }

  lemma FirstBlock(s: State, s': State, b: Bid)
    requires RingOk(s.blocks, s.x.home, s.p.last, s.p.used) && s' == Linked(s, b) && s.x.home == []
    ensures RingOk(s'.blocks, s'.x.home, s'.p.last, s'.p.used)
    ensures s'.blocks == s.blocks[b := Block(b, {}, map[])]
  {}

  lemma NextBlock(s: State, s': State, b: Bid)
    requires RingOk(s.blocks, s.x.home, s.p.last, s.p.used) && b !in s.blocks && s' == Linked(s, b) && s.x.home != []
    ensures RingOk(s'.blocks, s'.x.home, s'.p.last, s'.p.used)
    ensures b in s'.blocks && s'.blocks[b].flags == {}
    ensures forall c :: c in s.blocks ==> c in s'.blocks && SameCells(s.blocks[c], s'.blocks[c])
  {
    NextInRing(s.blocks, s.x.home, s.p.last, s.p.used);
    LinkLinks(s.blocks, s'.blocks, s.x.home, s'.x.home, s.p.last, s.p.used, s'.p.used, b);
    LinkRing(s.blocks, s'.blocks, s.x.home, s'.x.home, s.p.last, s.p.used, s'.p.used, b);
  }

  lemma LinkMemory(s: State, s': State, b: Bid)
    requires BlocksInv(s) && s.p.pc.PBlock? && b !in s.blocks && s' == Linked(s, b)
    ensures MemoryOk(s')
  {
    if s.x.home == [] { FirstBlock(s, s', b); } else { NextBlock(s, s', b); }
    LinkCells(s.blocks, s'.blocks, s.x.home, s.p.used, b, s.x.given, s.x.items);
  }

  lemma LinkKeeps(s: State, b: Bid)
    requires BlocksInv(s) && s.p.pc.PBlock? && b !in s.blocks
    ensures BlocksInv(Linked(s, b))
  {
    var s' := Linked(s, b);
    LinkMemory(s, s', b);
    HomeMemory(s, s', b);
    EnterProducer(s, s', b);
  }

  // ---- a larger index ----------------------------------------------------------------------------

  lemma SmallMod(j: nat, n: nat)
    requires j < n
    ensures j % n == j
  {
    Unique(j, n, 0, j);
  }

  lemma CopiedAt<T>(from: map<nat, T>, front: nat, used: nat, size: nat, j: nat)
    requires size > 0 && j < used && Old(front, used, j, size) in from
    ensures j in Copied(from, front, used, size) && Copied(from, front, used, size)[j] == from[Old(front, used, j, size)]
  {}

  /** Doubling copies the used entries, oldest first, to the front of the new index. */
  lemma CopiedIntact(hd: Header, home: seq<Bid>, front: nat, used: nat, o: nat, hd': Header)
    requires hd.size > 0 && used <= |home| && |home| - used <= o < |home|
    requires Intact(hd, home, o) && front == SlotOf(hd, |home|)
    requires hd'.size == 2 * hd.size && used <= hd.size && hd'.x.c == |home| - used
    requires hd'.bases == Copied(hd.bases, front, used, hd.size) && hd'.blks == Copied(hd.blks, front, used, hd.size)
    ensures Intact(hd', home, o)
  {
    var j := o - (|home| - used);
    ModShift(|home| - hd.x.c, j - used, hd.size);
    assert Old(front, used, j, hd.size) == SlotOf(hd, o) by {
      assert |home| - hd.x.c + (j - used) == o - hd.x.c;
      assert front - used + j == front + (j - used);
    }
    SmallMod(j, hd'.size);
    CopiedAt(hd.bases, front, used, hd.size, j);
    CopiedAt(hd.blks, front, used, hd.size, j);
  }

  lemma GrowHeaders(s: State, s': State)
    requires BlocksInv(s) && s.p.pc.PGrow? && s' == Grown(s)
    ensures HeadersOk(s'.idx, s'.x.home)
  {
    var hd' := s'.idx[|s.idx|];
    if s.idx != [] { GrownHeader(s.idx[|s.idx| - 1], s.x.home, s.p, hd'); }
    forall h | 0 <= h < |s'.idx| ensures HeaderOk(s'.idx[h], s.x.home) {
      if h < |s.idx| { assert HeaderOk(s.idx[h], s.x.home); }
    }
  }

  lemma GrowProducer(s: State, s': State)
    requires ProducerOk(s) && s.p.pc.PGrow? && s' == Grown(s) && (s.x.home == [] <==> s.p.used == 0)
    ensures ProducerOk(s')
  {
    GrownCurrent(s'.idx[|s.idx|], s'.p, |s.x.home|);
  }

  lemma GrowKeeps(s: State)
    requires BlocksInv(s) && s.p.pc.PGrow?
    ensures BlocksInv(Grown(s))
  {
    var s' := Grown(s);
    GrowHeaders(s, s');
    GrowProducer(s, s');
    WorkersGrow(s.idx, s'.idx, s.x.home, s.x.home, s.x.given, s.ths);
  }

  lemma GrownCurrent(hd: Header, p: Producer, q: nat)
    requires p.pc.PBlock? && p.size >= 2 && p.used < p.size && p.used <= q && (q > 0 ==> p.used > 0)
    requires hd.size == p.size && p.front == p.used && (p.used > 0 ==> hd.front == p.used - 1)
    requires hd.x == Span(q - p.used, q - p.used, q, Sub(q, 1))
    ensures CurrentOk(hd, p, q)
  {
    SmallMod(p.used, p.size);
    if q > 0 { SmallMod(p.used - 1, p.size); }
  }

  lemma GrownHeader(hd: Header, home: seq<Bid>, p: Producer, hd': Header)
    requires HeaderOk(hd, home) && CurrentOk(hd, p, |home|) && p.pc.PGrow? && p.used == p.size
    requires hd' == Header(2 * p.size, p.used - 1, Copied(hd.bases, p.front, p.used, p.size),
                           Copied(hd.blks, p.front, p.used, p.size), Span(|home| - p.used, |home| - p.used, |home|, Sub(|home|, 1)))
    ensures HeaderOk(hd', home)
  {
    forall o | hd'.x.lo <= o < hd'.x.top ensures Intact(hd', home, o) {
      assert Intact(hd, home, o);
      CopiedIntact(hd, home, p.front, p.used, o, hd');
    }
  }

  // ---- publishing ---------------------------------------------------------------------------------

  /** Writing slot j of the block being filled breaks no entry in reach. */
  lemma BaseHeader(hd: Header, hd': Header, home: seq<Bid>, p: Producer, q: nat)
    requires HeaderOk(hd, home) && CurrentOk(hd, p, q) && q == |home| && p.pc.PBase?
    requires hd' == hd.(bases := hd.bases[p.front := (q - 1) * BLOCK],
                        x := hd.x.(lo := if hd.x.top == hd.x.lo + hd.size then hd.x.lo + 1 else hd.x.lo))
    ensures HeaderOk(hd', home) && CurrentOk(hd', p.(pc := PBlk), q)
  {
    forall o | hd'.x.lo <= o < hd'.x.top ensures Intact(hd', home, o) {
      assert Intact(hd, home, o);
      ModDistinct(q - 1 - hd.x.c, o - hd.x.c, hd.size);
    }
  }

  lemma BlkHeader(hd: Header, hd': Header, home: seq<Bid>, p: Producer, q: nat, b: Bid)
    requires HeaderOk(hd, home) && CurrentOk(hd, p, q) && q == |home| && p.pc.PBlk? && b == home[q - 1]
    requires hd' == hd.(blks := hd.blks[p.front := b], x := hd.x.(top := hd.x.top + 1))
    ensures HeaderOk(hd', home) && CurrentOk(hd', p.(pc := PFront), q)
  {
    forall o | hd'.x.lo <= o < hd'.x.top ensures Intact(hd', home, o) {
      if o < q - 1 {
        assert Intact(hd, home, o);
        ModDistinct(q - 1 - hd.x.c, o - hd.x.c, hd.size);
      }
    }
  }

  lemma FrontHeader(hd: Header, hd': Header, home: seq<Bid>, p: Producer, p': Producer, q: nat)
    requires HeaderOk(hd, home) && CurrentOk(hd, p, q) && q == |home| && p.pc.PFront?
    requires hd' == hd.(front := p.front, x := hd.x.(pf := Sub(hd.x.top, 1)))
    requires p' == p.(pc := PElem, front := (p.front + 1) % p.size)
    ensures HeaderOk(hd', home) && CurrentOk(hd', p', q)
  {
    ModShift(q - 1 - hd.x.c, 1, hd.size);
    forall o | hd'.x.lo <= o < hd'.x.top ensures Intact(hd', home, o) {
      assert Intact(hd, home, o);
    }
  }

  /** Only the last header changes. */
  lemma SetLastKeeps(s: State, hd: Header, p: Producer)
    requires BlocksInv(s) && s.idx != [] && HeaderOk(hd, s.x.home)
    requires HeaderGrows(s.idx[|s.idx| - 1], hd, s.x.given)
    requires ProducerOk(SetLast(s, hd).(p := p)) && p.last == s.p.last && p.used == s.p.used
    ensures BlocksInv(SetLast(s, hd).(p := p))
  {
    var s' := SetLast(s, hd).(p := p);
    forall h | 0 <= h < |s'.idx| ensures HeaderOk(s'.idx[h], s.x.home) {
      if h < |s.idx| - 1 { assert HeaderOk(s.idx[h], s.x.home); }
    }
    WorkersGrow(s.idx, s'.idx, s.x.home, s.x.home, s.x.given, s.ths);
  }

  lemma BaseGrows(hd: Header, hd': Header, p: Producer, home: seq<Bid>, given: seq<Given>)
    requires CurrentOk(hd, p, |home|) && p.pc.PBase? && DoneOk(home, p.used, given)
    requires hd'.size == hd.size && hd'.front == hd.front
    requires hd'.x == hd.x.(lo := if hd.x.top == hd.x.lo + hd.size then hd.x.lo + 1 else hd.x.lo)
    ensures HeaderGrows(hd, hd', given)
  {
    assert hd'.x.lo <= |home| - p.used;
    assert hd'.x.lo * BLOCK <= (|home| - p.used) * BLOCK;
    if FrontOk(hd) {
      assert hd'.x.lo <= hd'.x.pf < hd'.x.top;
      assert SlotOf(hd', hd'.x.pf) == SlotOf(hd, hd.x.pf);
    }
  }

  lemma BaseKeeps(s: State, b: Bid)
    requires BlocksInv(s) && s.p.pc.PBase? && b in s.blocks && s.idx != []
    ensures BlocksInv(Store(s, s.idx[|s.idx| - 1], b).value)
  {
    var hd := s.idx[|s.idx| - 1];
    var lo := if hd.x.top == hd.x.lo + hd.size then hd.x.lo + 1 else hd.x.lo;
    var hd' := hd.(bases := hd.bases[s.p.front := s.n.tail], x := hd.x.(lo := lo));
    BaseHeader(hd, hd', s.x.home, s.p, |s.x.home|);
    BaseGrows(hd, hd', s.p, s.x.home, s.x.given);
    SetLastKeeps(s, hd', s.p.(pc := PBlk));
  }

  lemma BlkKeeps(s: State, b: Bid)
    requires BlocksInv(s) && s.p.pc.PBlk? && s.p.last == Some(b) && b in s.blocks && s.idx != []
    ensures BlocksInv(Store(s, s.idx[|s.idx| - 1], b).value)
  {
    var hd := s.idx[|s.idx| - 1];
    var hd' := hd.(blks := hd.blks[s.p.front := b], x := hd.x.(top := hd.x.top + 1));
    BlkHeader(hd, hd', s.x.home, s.p, |s.x.home|, b);
    SetLastKeeps(s, hd', s.p.(pc := PFront));
  }

  lemma FrontKeeps(s: State, b: Bid)
    requires BlocksInv(s) && s.p.pc.PFront? && b in s.blocks && s.idx != []
    ensures Store(s, s.idx[|s.idx| - 1], b).Some? && BlocksInv(Store(s, s.idx[|s.idx| - 1], b).value)
  {
    var hd := s.idx[|s.idx| - 1];
    var hd' := hd.(front := s.p.front, x := hd.x.(pf := Sub(hd.x.top, 1)));
    var p' := s.p.(pc := PElem, front := (s.p.front + 1) % s.p.size);
    FrontHeader(hd, hd', s.x.home, s.p, p', |s.x.home|);
    SetLastKeeps(s, hd', p');
  }

  /** The element goes to a slot that no dequeuer may touch. */
  lemma ElemCells(blocks: map<Bid, Block>, blocks': map<Bid, Block>, home: seq<Bid>, last: Option<Bid>, used: nat,
                  given: seq<Given>, items: seq<int>, b: Bid, v: int)
    requires RingOk(blocks, home, last, used) && CellsOk(blocks, home, used, given, items) && last == Some(b) && b in blocks
    requires (|home| - 1) * BLOCK <= |items| < |home| * BLOCK && |given| <= |items|
    requires blocks' == blocks[b := blocks[b].(elems := blocks[b].elems[|items| % BLOCK := v])]
    ensures RingOk(blocks', home, last, used) && CellsOk(blocks', home, used, given, items)
  {
    forall o | |home| - used <= o < |home| ensures LinkOk(blocks', home, used, o) {
      assert LinkOk(blocks, home, used, o);
    }
    forall o | |home| - used <= o < |home| ensures home[o] in blocks' && BlockOk(blocks'[home[o]], o, given, items) {
      assert home[o] in blocks && BlockOk(blocks[home[o]], o, given, items);
      forall k | 0 <= k < BLOCK ensures CellOk(blocks'[home[o]], o, k, given, items) {
        assert CellOk(blocks[home[o]], o, k, given, items);
      }
    }
  }

  lemma ElemKeeps(s: State, b: Bid)
    requires BlocksInv(s) && s.p.pc.PElem? && s.p.last == Some(b) && b in s.blocks && s.idx != []
    ensures BlocksInv(Store(s, s.idx[|s.idx| - 1], b).value)
  {
    var s' := Store(s, s.idx[|s.idx| - 1], b).value;
    ElemCells(s.blocks, s'.blocks, s.x.home, s.p.last, s.p.used, s.x.given, s.x.items, b, s.p.v);
    assert ProducerOk(s');
  }

  lemma TailCells(blocks: map<Bid, Block>, home: seq<Bid>, used: nat, given: seq<Given>, items: seq<int>, v: int)
    requires 0 < used <= |home| && CellsOk(blocks, home, used, given, items)
    requires (|home| - 1) * BLOCK <= |items| < |home| * BLOCK
    requires var k := |items| % BLOCK; k in blocks[home[|home| - 1]].elems && blocks[home[|home| - 1]].elems[k] == v
    ensures CellsOk(blocks, home, used, given, items + [v])
  {
    forall o | |home| - used <= o < |home| ensures home[o] in blocks && BlockOk(blocks[home[o]], o, given, items + [v]) {
      assert home[o] in blocks && BlockOk(blocks[home[o]], o, given, items);
      forall k | 0 <= k < BLOCK ensures CellOk(blocks[home[o]], o, k, given, items + [v]) {
        assert CellOk(blocks[home[o]], o, k, given, items);
      }
    }
  }

  lemma TailStepKeeps(s: State, b: Bid)
    requires BlocksInv(s) && s.p.pc.PTail? && s.p.last == Some(b) && b in s.blocks && s.idx != []
    ensures BlocksInv(Store(s, s.idx[|s.idx| - 1], b).value)
  {
    var s' := Store(s, s.idx[|s.idx| - 1], b).value;
    TailCells(s.blocks, s.x.home, s.p.used, s.x.given, s.x.items, s.p.v);
    assert ProducerOk(s');
  }

  lemma StoreKeeps(s: State, b: Bid)
    requires BlocksInv(s) && s.p.last == Some(b) && b in s.blocks && s.idx != []
    requires Store(s, s.idx[|s.idx| - 1], b).Some?
    ensures BlocksInv(Store(s, s.idx[|s.idx| - 1], b).value)
  {
    match s.p.pc {
      case PBase => BaseKeeps(s, b);
      case PBlk => BlkKeeps(s, b);
      case PFront => FrontKeeps(s, b);
      case PElem => ElemKeeps(s, b);
      case PTail => TailStepKeeps(s, b);
      case _ =>
    }
  }

  lemma IdleProducer(s: State, pc: ProducerPc, v: int)
    requires ProducerOk(s) && s.p.pc.PIdle?
    requires pc == (if s.n.tail % BLOCK != 0 then PElem else if s.x.home != [] then PTest else PHead)
    ensures ProducerOk(s.(p := s.p.(pc := pc, v := v)))
  {}

  lemma HeadProducer(s: State, pc: ProducerPc)
    requires ProducerOk(s) && s.p.pc.PHead?
    requires pc.PFailed? || pc.PIdle? || pc == (if s.idx == [] || s.p.used == s.p.size then PGrow else PBlock)
    ensures ProducerOk(s.(p := s.p.(pc := pc)))
  {}

  lemma StartKeeps(s: State, inp: Input)
    requires BlocksInv(s) && (s.p.pc.PIdle? || s.p.pc.PHead?) && ProducerStep(s, inp).Some?
    ensures BlocksInv(ProducerStep(s, inp).value)
  {
    var p' := ProducerStep(s, inp).value.p;
    if s.p.pc.PIdle? { IdleProducer(s, p'.pc, p'.v); } else { HeadProducer(s, p'.pc); }
    assert ProducerStep(s, inp).value == s.(p := s.p.(pc := p'.pc, v := p'.v));
    ProducerMoves(s, p'.pc, p'.v);
  }

  /** Every step of the producer keeps the invariant. */
  lemma BeginKeeps(s: State, inp: Input)
    requires BlocksInv(s) && ProducerStep(s, inp).Some? && (s.p.pc.PIdle? || s.p.pc.PHead? || s.p.pc.PTest?)
    ensures BlocksInv(ProducerStep(s, inp).value)
  {
    if s.p.pc.PTest? { TestKeeps(s); } else { StartKeeps(s, inp); }
  }

  lemma AskKeeps(s: State, inp: Input)
    requires BlocksInv(s) && ProducerStep(s, inp).Some? && (s.p.pc.PGrow? || s.p.pc.PBlock?)
    ensures BlocksInv(ProducerStep(s, inp).value)
  {
    if (if s.p.pc.PGrow? then !inp.ok else inp.b.None?) {
      ProducerMoves(s, PIdle, s.p.v);
    } else if s.p.pc.PGrow? {
      GrowKeeps(s);
    } else {
      LinkKeeps(s, inp.b.value);
    }
  }

  lemma ProducerKeeps(s: State, inp: Input)
    requires BlocksInv(s) && ProducerStep(s, inp).Some?
    ensures BlocksInv(ProducerStep(s, inp).value)
  {
    if s.p.pc.PIdle? || s.p.pc.PHead? || s.p.pc.PTest? {
      BeginKeeps(s, inp);
    } else if s.p.pc.PGrow? || s.p.pc.PBlock? {
      AskKeeps(s, inp);
    } else {
      StoreKeeps(s, s.p.last.value);
    }
  }
}
