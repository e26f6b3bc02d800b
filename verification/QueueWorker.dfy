/** The dequeuers' steps keep the ring, the block indexes and each other's claims. */
module QueueWorker {
  import opened Options
  import opened QueueState
  import opened QueueInv

  /** What a step of thread t does to the indices handed out: it may add some, and it changes
      only its own. */
  predicate GivenMoves(given: seq<Given>, given': seq<Given>, t: nat) {
    && |given| <= |given'|
    && forall i :: 0 <= i < |given| ==> given'[i].t == given[i].t && (given[i].t != t ==> given'[i] == given[i])
  }

  lemma OtherWorker(idx: seq<Header>, home: seq<Bid>, given: seq<Given>, given': seq<Given>, t: nat, u: nat, w: Work)
    requires u != t && WorkOk(idx, home, given, u, w) && GivenMoves(given, given', t)
    ensures WorkOk(idx, home, given', u, w)
  {}

  lemma OtherWorkers(idx: seq<Header>, home: seq<Bid>, given: seq<Given>, given': seq<Given>, ths: map<nat, Pc>, t: nat, pc: Pc)
    requires WorkersOk(idx, home, given, ths) && GivenMoves(given, given', t)
    requires pc.Working? ==> WorkOk(idx, home, given', t, pc.w)
    ensures WorkersOk(idx, home, given', ths[t := pc])
  {
    var ths' := ths[t := pc];
    forall u | u in ths' && ths'[u].Working? ensures WorkOk(idx, home, given', u, ths'[u].w) {
      if u != t { OtherWorker(idx, home, given, given', t, u, ths[u].w); }
    }
  }

  /** Steps that change neither memory nor the indices handed out. */
  lemma GoKeeps(s: State, s': State, t: nat, pc: Pc)
    requires BlocksInv(s) && (pc.Working? ==> WorkOk(s.idx, s.x.home, s.x.given, t, pc.w))
    requires s' == s.(ths := s.ths[t := pc], n := s'.n, x := s.x.(marks := s'.x.marks))
    requires s'.n.head == s.n.head && s'.n.tail == s.n.tail
    ensures BlocksInv(s')
  {
    OtherWorkers(s.idx, s.x.home, s.x.given, s.x.given, s.ths, t, pc);
    SameProducer(s, s');
  }

  lemma SameProducer(s: State, s': State)
    requires ProducerOk(s) && s'.p == s.p && s'.idx == s.idx && s'.n.tail == s.n.tail
    requires s'.x.home == s.x.home && s'.x.items == s.x.items && s'.blocks == s.blocks
    ensures ProducerOk(s')
  {}

  // ---- an index is handed out -------------------------------------------------------------------

  lemma HandOutCells(blocks: map<Bid, Block>, home: seq<Bid>, used: nat, given: seq<Given>, given': seq<Given>, items: seq<int>, t: nat)
    requires used <= |home| && CellsOk(blocks, home, used, given, items) && |given| <= |given'|
    requires forall i :: 0 <= i < |given| ==> given'[i] == given[i]
    requires forall i :: |given| <= i < |given'| ==> given'[i] == Given(t, Held)
    ensures CellsOk(blocks, home, used, given', items)
  {
    forall o | |home| - used <= o < |home| ensures home[o] in blocks && BlockOk(blocks[home[o]], o, given', items) {
      assert home[o] in blocks && BlockOk(blocks[home[o]], o, given, items);
      forall k | 0 <= k < BLOCK ensures CellOk(blocks[home[o]], o, k, given', items) {
        assert CellOk(blocks[home[o]], o, k, given, items);
      }
    }
  }

  lemma AddHeadBlocks(s: State, t: nat, m: nat, k: nat)
    requires BlocksInv(s) && s.n.head + k <= s.n.tail
    ensures BlocksInv(ClaimStep(s, t, AddHead(m, k)))
  {
    var s' := ClaimStep(s, t, AddHead(m, k));
    HandOutCells(s.blocks, s.x.home, s.p.used, s.x.given, s'.x.given, s.x.items, t);
    OtherWorkers(s.idx, s.x.home, s.x.given, s'.x.given, s.ths, t, s'.ths[t]);
    SameProducer(s, s');
  }

  lemma ClaimBlocks(s: State, t: nat, c: Claim)
    requires BlocksInv(s) && (c.AddHead? ==> s.n.head + c.k <= s.n.tail)
    ensures BlocksInv(ClaimStep(s, t, c))
  {
    if c.AddHead? {
      AddHeadBlocks(s, t, c.m, c.k);
    } else {
      var s' := ClaimStep(s, t, c);
      GoKeeps(s, s', t, s'.ths[t]);
    }
  }

  // ---- finding the block -----------------------------------------------------------------------

  lemma LoadIndexOk(s: State, t: nat, a: nat, b: nat)
    requires BlocksInv(s) && WorkOk(s.idx, s.x.home, s.x.given, t, LoadIndex(a, b))
    ensures s.idx != [] && WorkOk(s.idx, s.x.home, s.x.given, t, LoadFront(a, b, |s.idx| - 1))
  {
    assert s.x.given[a].g == Held;
    assert a >= (|s.x.home| - s.p.used) * BLOCK;
    assert 0 < b <= s.n.tail;
  }

  /** The entry found from the front entry is the one of the block of index a. */
  lemma SlotFound(hd: Header, home: seq<Bid>, a: nat, f: nat, pf: nat)
    requires HeaderOk(hd, home) && hd.x.lo <= a / BLOCK <= pf < hd.x.top && f == SlotOf(hd, pf)
    requires f in hd.bases ==> -HALF <= a / BLOCK * BLOCK - hd.bases[f] < HALF
    ensures f in hd.bases && Slot(a, f, hd.bases[f], hd.size) == SlotOf(hd, a / BLOCK)
  {
    assert Intact(hd, home, pf);
    SlotDistance(hd, a / BLOCK, pf);
    BlocksApart(a / BLOCK, pf);
  }

  lemma SlotDistance(hd: Header, o: nat, pf: nat)
    requires hd.size > 0
    ensures (SlotOf(hd, pf) + (o - pf)) % hd.size == SlotOf(hd, o)
  {
    ModShift(pf - hd.x.c, o - pf, hd.size);
    assert pf - hd.x.c + (o - pf) == o - hd.x.c;
  }

  lemma BlocksApart(o: nat, pf: nat)
    requires -HALF <= o * BLOCK - pf * BLOCK < HALF
    ensures Signed(Wrap(o * BLOCK - pf * BLOCK)) / BLOCK == o - pf
  {
    SignedWrap(o * BLOCK - pf * BLOCK);
  }

  lemma SignedWrap(x: int)
    requires -HALF <= x < HALF
    ensures Signed(Wrap(x)) == x
  {}

  lemma BlockEndExact(s: nat, b: nat)
    requires Near(b, (s / BLOCK + 1) * BLOCK)
    ensures BlockEnd(s, b) == Min(b, (s / BLOCK + 1) * BLOCK)
  {
    CircularLessExact(b, (s / BLOCK + 1) * BLOCK);
  }

  /** The differences that a dequeuer takes on words are of numbers near enough. */
  predicate WorkNear(idx: seq<Header>, w: Work) {
    match w
    case ReadBase(a, b, h, f, _) => h < |idx| && f in idx[h].bases ==> -HALF <= a / BLOCK * BLOCK - idx[h].bases[f] < HALF
    case ReadBlock(i, b, _, _) => Near(b, (i / BLOCK + 1) * BLOCK)
    case _ => true
  }

  lemma ReadBlockOk(idx: seq<Header>, home: seq<Bid>, given: seq<Given>, t: nat, i: nat, b: nat, h: nat, j: nat)
    requires WorkOk(idx, home, given, t, ReadBlock(i, b, h, j)) && HeadersOk(idx, home) && Near(b, (i / BLOCK + 1) * BLOCK)
    ensures j in idx[h].blks
    ensures WorkOk(idx, home, given, t, Move(i, Part(i, BlockEnd(i, b), b, h, j, idx[h].blks[j])))
  {
    assert HeaderOk(idx[h], home);
    assert Intact(idx[h], home, i / BLOCK);
    BlockEndExact(i, b);
  }

  /** Where a dequeuer goes on while it looks for its block. */
  lemma FindOk(s: State, t: nat, w: Work, w': Work)
    requires BlocksInv(s) && WorkOk(s.idx, s.x.home, s.x.given, t, w) && WorkNear(s.idx, w)
    requires !w.Move? && !w.Flag? && WorkStep(s, t, w) == Go(s, t, Working(w'))
    ensures WorkOk(s.idx, s.x.home, s.x.given, t, w')
  {
    match w {
      case LoadIndex(a, b) => LoadIndexOk(s, t, a, b);
      case LoadFront(a, b, h) =>
      case ReadBase(a, b, h, f, pf) =>
        assert HeaderOk(s.idx[h], s.x.home);
        SlotFound(s.idx[h], s.x.home, a, f, pf);
      case ReadBlock(i, b, h, j) => ReadBlockOk(s.idx, s.x.home, s.x.given, t, i, b, h, j);
    }
    assert WorkStep(s, t, w).ths[t] == Working(w');
  }

  lemma FindGoes(s: State, t: nat, w: Work) returns (w': Work)
    requires !w.Move? && !w.Flag? && !w.Failed?
    ensures WorkStep(s, t, w) == Go(s, t, Working(w'))
  {
    w' := WorkStep(s, t, w).ths[t].w;
  }

  lemma FindKeeps(s: State, t: nat, w: Work)
    requires BlocksInv(s) && WorkOk(s.idx, s.x.home, s.x.given, t, w) && WorkNear(s.idx, w)
    requires !w.Move? && !w.Flag?
    ensures BlocksInv(WorkStep(s, t, w))
  {
    var w' := FindGoes(s, t, w);
    FindOk(s, t, w, w');
    GoKeeps(s, WorkStep(s, t, w), t, Working(w'));
  }

  // ---- moving elements and freeing slots --------------------------------------------------------

  /** An index that is not finished lives in the ring. */
  lemma InRing(home: seq<Bid>, used: nat, given: seq<Given>, i: nat)
    requires used <= |home| && DoneOk(home, used, given) && i < |given| && given[i].g != Gone && i / BLOCK < |home|
    ensures |home| - used <= i / BLOCK < |home|
  {}

  /** One slot and the stage of its index change together. */
  lemma CellsMove(blocks: map<Bid, Block>, blocks': map<Bid, Block>, home: seq<Bid>, used: nat,
                  given: seq<Given>, items: seq<int>, i: nat, blk: Block, g: Stage)
    requires CellsInv(blocks, home, used, given, items) && i < |given| && given[i].g != Gone && g != Held
    requires |home| - used <= i / BLOCK < |home| && blocks' == blocks[home[i / BLOCK] := blk]
    requires CellChanged(blocks[home[i / BLOCK]], blk, i % BLOCK, g)
    ensures CellsInv(blocks', home, used, Staged(given, i, g), items)
  {
    var given' := Staged(given, i, g);
    forall o | |home| - used <= o < |home| ensures home[o] in blocks' && BlockOk(blocks'[home[o]], o, given', items) {
      assert home[o] in blocks && BlockOk(blocks[home[o]], o, given, items);
      forall k | 0 <= k < BLOCK ensures CellOk(blocks'[home[o]], o, k, given', items) {
        assert CellOk(blocks[home[o]], o, k, given, items);
      }
    }
  }

  ghost predicate CellsInv(blocks: map<Bid, Block>, home: seq<Bid>, used: nat, given: seq<Given>, items: seq<int>) {
    && used <= |home| && CellsOk(blocks, home, used, given, items) && DoneOk(home, used, given)
    && forall o, o' :: |home| - used <= o < o' < |home| ==> home[o] != home[o']
  }

  /** Slot c lost its element, or got its flag. */
  predicate CellChanged(blk: Block, blk': Block, c: nat, g: Stage) {
    && blk'.next == blk.next
    && (g == Gone ==> blk'.flags == blk.flags + {c}) && (g != Gone ==> blk'.flags == blk.flags)
    && (blk'.elems == blk.elems || blk'.elems == blk.elems - {c})
  }

  lemma RingSame(blocks: map<Bid, Block>, blocks': map<Bid, Block>, home: seq<Bid>, last: Option<Bid>, used: nat, k: Bid)
    requires RingOk(blocks, home, last, used) && k in blocks && k in blocks' && blocks'[k].next == blocks[k].next
    requires blocks' == blocks[k := blocks'[k]]
    ensures RingOk(blocks', home, last, used)
  {
    forall o | |home| - used <= o < |home| ensures LinkOk(blocks', home, used, o) {
      assert LinkOk(blocks, home, used, o);
    }
  }

  /** The producer does not depend on the slots of finished indices. */
  lemma ProducerSame(s: State, s': State, i: nat)
    requires ProducerOk(s) && s'.p == s.p && s'.idx == s.idx && s'.n == s.n && s'.x.home == s.x.home && s'.x.items == s.x.items
    requires i / BLOCK < |s.x.home| && i < s.n.tail
    requires s.p.last.Some? && s.p.last.value in s.blocks && s.p.last.value in s'.blocks
    requires var e, e' := s.blocks[s.p.last.value].elems, s'.blocks[s.p.last.value].elems;
             e' == e || (i / BLOCK == |s.x.home| - 1 && e' == e - {i % BLOCK})
    ensures ProducerOk(s')
  {}

  /** A dequeuer changes the slot of its index i, and i's stage, and its own position. */
  lemma CellStepKeeps(s: State, s': State, t: nat, i: nat, blk: Block, g: Stage, pc: Pc)
    requires BlocksInv(s) && i < |s.x.given| && s.x.given[i].t == t && s.x.given[i].g != Gone && g != Held
    requires i / BLOCK < |s.x.home|
    requires var k := s.x.home[i / BLOCK];
      && k in s.blocks && CellChanged(s.blocks[k], blk, i % BLOCK, g)
      && s' == s.(blocks := s.blocks[k := blk], x := s.x.(given := Staged(s.x.given, i, g)), ths := s.ths[t := pc])
    requires pc.Working? ==> WorkOk(s.idx, s.x.home, s'.x.given, t, pc.w)
    ensures BlocksInv(s')
  {
    InRing(s.x.home, s.p.used, s.x.given, i);
    CellsMove(s.blocks, s'.blocks, s.x.home, s.p.used, s.x.given, s.x.items, i, blk, g);
    RingSame(s.blocks, s'.blocks, s.x.home, s.p.last, s.p.used, s.x.home[i / BLOCK]);
    OtherWorkers(s.idx, s.x.home, s.x.given, s'.x.given, s.ths, t, pc);
    assert LinkOk(s.blocks, s.x.home, s.p.used, |s.x.home| - 1);
    ProducerSame(s, s', i);
  }

  lemma MoveFound(s: State, t: nat, i: nat, q: Part)
    requires BlocksInv(s) && WorkOk(s.idx, s.x.home, s.x.given, t, Move(i, q))
    ensures i / BLOCK == q.s / BLOCK < |s.x.home| && i < |s.x.items| && i < |s.x.given|
    ensures q.k in s.blocks && i % BLOCK in s.blocks[q.k].elems && s.blocks[q.k].elems[i % BLOCK] == s.x.items[i]
  {
    assert s.x.given[i] == Given(t, Held);
    InRing(s.x.home, s.p.used, s.x.given, i);
    assert CellOk(s.blocks[s.x.home[i / BLOCK]], i / BLOCK, i % BLOCK, s.x.given, s.x.items);
  }

  lemma MoveKeeps(s: State, t: nat, i: nat, q: Part)
    requires BlocksInv(s) && WorkOk(s.idx, s.x.home, s.x.given, t, Move(i, q))
    ensures BlocksInv(WorkStep(s, t, Move(i, q)))
  {
    MoveFound(s, t, i, q);
    var blk := s.blocks[q.k];
    var pc := Working(if i + 1 == q.e then Flag(q.e, q) else Move(i + 1, q));
    MovedOn(s.idx, s.x.home, s.x.given, t, i, q);
    CellStepKeeps(s, MoveStep(s, t, i, q, blk), t, i, blk.(elems := blk.elems - {i % BLOCK}), Moved, pc);
  }

  lemma MovedOn(idx: seq<Header>, home: seq<Bid>, given: seq<Given>, t: nat, i: nat, q: Part)
    requires WorkOk(idx, home, given, t, Move(i, q))
    ensures WorkOk(idx, home, Staged(given, i, Moved), t, if i + 1 == q.e then Flag(q.e, q) else Move(i + 1, q))
  {}

  lemma FlagFound(s: State, t: nat, i: nat, q: Part)
    requires BlocksInv(s) && WorkOk(s.idx, s.x.home, s.x.given, t, Flag(i + 1, q))
    ensures i / BLOCK == q.s / BLOCK < |s.x.home| && i < |s.x.given| && s.x.given[i] == Given(t, Moved)
    ensures q.k in s.blocks && i % BLOCK !in s.blocks[q.k].flags
  {
    assert s.x.given[i] == Given(t, Moved);
    InRing(s.x.home, s.p.used, s.x.given, i);
    assert CellOk(s.blocks[s.x.home[i / BLOCK]], i / BLOCK, i % BLOCK, s.x.given, s.x.items);
  }

  lemma SlotNext(hd: Header, o: nat)
    requires hd.size > 0
    ensures (SlotOf(hd, o) + 1) % hd.size == SlotOf(hd, o + 1)
  {
    ModShift(o - hd.x.c, 1, hd.size);
    assert o - hd.x.c + 1 == o + 1 - hd.x.c;
  }

  /** The next part of the range starts a block. */
  lemma NextPart(idx: seq<Header>, home: seq<Bid>, given: seq<Given>, t: nat, q: Part)
    requires PartOk(idx, home, q) && q.e < q.b && Mine(given, t, q.e, q.b, Held)
    ensures WorkOk(idx, home, given, t, ReadBlock(q.e, q.b, q.h, (q.j + 1) % idx[q.h].size))
  {
    SlotNext(idx[q.h], q.s / BLOCK);
  }

  lemma FlaggedOn(idx: seq<Header>, home: seq<Bid>, given: seq<Given>, t: nat, i: nat, q: Part, pc: Pc)
    requires WorkOk(idx, home, given, t, Flag(i + 1, q))
    requires pc == if i != q.s then Working(Flag(i, q))
                   else if q.e == q.b then Idle
                   else Working(ReadBlock(q.e, q.b, q.h, (q.j + 1) % idx[q.h].size))
    ensures pc.Working? ==> WorkOk(idx, home, Staged(given, i, Gone), t, pc.w)
  {
    if i == q.s && q.e != q.b { NextPart(idx, home, Staged(given, i, Gone), t, q); }
  }

  lemma FlagKeeps(s: State, t: nat, i: nat, q: Part)
    requires BlocksInv(s) && WorkOk(s.idx, s.x.home, s.x.given, t, Flag(i + 1, q))
    ensures BlocksInv(WorkStep(s, t, Flag(i + 1, q)))
  {
    FlagFound(s, t, i, q);
    var blk := s.blocks[q.k];
    var pc := FlagStep(s, t, i, q, blk).ths[t];
    FlaggedOn(s.idx, s.x.home, s.x.given, t, i, q, pc);
    CellStepKeeps(s, FlagStep(s, t, i, q, blk), t, i, blk.(flags := blk.flags + {i % BLOCK}), Gone, pc);
  }

  /** Every step of a dequeuer that holds indices keeps the invariant. */
  lemma WorkKeeps(s: State, t: nat, w: Work)
    requires BlocksInv(s) && WorkOk(s.idx, s.x.home, s.x.given, t, w) && WorkNear(s.idx, w)
    ensures BlocksInv(WorkStep(s, t, w))
  {
    match w {
      case Move(i, q) => MoveKeeps(s, t, i, q);
      case Flag(i, q) => FlagKeeps(s, t, i - 1, q);
      case _ => FindKeeps(s, t, w);
    }
  }
}
