/** What holds of the ring of blocks, the block indexes and the dequeuers at work. */
module QueueInv {
  import opened Options
  import opened QueueState

  // ---- remainders -----------------------------------------------------------------------

  lemma {:induction false} ModTimes(x: int, n: nat, q: nat)
    requires n > 0
    ensures (x + n * q) % n == x % n && (x - n * q) % n == x % n
    decreases q
  {
    if q > 0 {
      ModTimes(x, n, q - 1);
      var y, z := x + n * (q - 1), x - n * (q - 1);
      Distributes(x, n, q);
      ModOnce(y, n);
      ModOnce(z - n, n);
    }
  }

  lemma Distributes(x: int, n: nat, q: nat)
    ensures x + n * q == x + n * (q - 1) + n && x - n * q == x - n * (q - 1) - n
  {}

  lemma ModOnce(x: int, n: nat)
    requires n > 0
    ensures (x + n) % n == x % n
  {
    var q := x / n;
    assert x == n * q + x % n;
    assert x + n == n * (q + 1) + x % n;
    Unique(x + n, n, q + 1, x % n);
  }

  lemma MulStep(n: nat, a: int, b: int)
    requires a > b
    ensures n * a >= n * b + n
  {
    assert n * a == n * b + n + n * (a - b - 1);
    assert n * (a - b - 1) >= 0;
  }

  lemma Unique(x: int, n: nat, q: int, r: nat)
    requires n > 0 && x == n * q + r && r < n
    ensures x % n == r
  {
    var q' := x / n;
    if q < q' { MulStep(n, q', q); }
    if q > q' { MulStep(n, q, q'); }
  }

  lemma ModShift(a: int, b: int, n: nat)
    requires n > 0
    ensures (a % n + b) % n == (a + b) % n
  {
    var q := a / n;
    assert a == n * q + a % n;
    if q >= 0 {
      ModTimes(a % n + b, n, q);
    } else {
      ModTimes(a % n + b, n, -q);
      assert n * -q == -(n * q);
    }
  }

  lemma ModDistinct(a: int, b: int, n: nat)
    requires n > 0 && b < a < b + n
    ensures a % n != b % n
  {
    var p, q := a / n, b / n;
    if p > q { MulStep(n, p, q); }
    if p < q { MulStep(n, q, p); }
  }

  // ---- the ring ---------------------------------------------------------------------------

  /** The block number after o, going round. */
  function After(home: seq<Bid>, used: nat, o: nat): nat
    requires used <= |home|
  {
    if o + 1 < |home| then o + 1 else |home| - used
  }

  predicate LinkOk(blocks: map<Bid, Block>, home: seq<Bid>, used: nat, o: nat)
    requires 0 < used <= |home| && |home| - used <= o < |home|
  {
    home[o] in blocks && blocks[home[o]].next == home[After(home, used, o)]
  }

  /** The last `used` block numbers live in distinct blocks, linked in a ring in that order. */
  ghost predicate RingOk(blocks: map<Bid, Block>, home: seq<Bid>, last: Option<Bid>, used: nat) {
    && used <= |home| && (used == 0 <==> home == [])
    && last == (if home == [] then None else Some(home[|home| - 1]))
    && (forall o :: |home| - used <= o < |home| ==> LinkOk(blocks, home, used, o))
    && (forall o, o' :: |home| - used <= o < o' < |home| ==> home[o] != home[o'])
  }

  // ---- elements ---------------------------------------------------------------------------

  predicate Live(given: seq<Given>, i: nat) { i < |given| ==> given[i].g == Held }

  predicate Finished(given: seq<Given>, i: nat) { i < |given| && given[i].g == Gone }

  /** Slot k of the block that holds the indices from o * BLOCK. */
  predicate CellOk(blk: Block, o: nat, k: nat, given: seq<Given>, items: seq<int>) {
    var i := o * BLOCK + k;
    && (k in blk.flags <==> Finished(given, i))
    && (i < |items| && Live(given, i) ==> k in blk.elems && blk.elems[k] == items[i])
  }

  ghost predicate BlockOk(blk: Block, o: nat, given: seq<Given>, items: seq<int>) {
    forall k :: 0 <= k < BLOCK ==> CellOk(blk, o, k, given, items)
  }

  ghost predicate CellsOk(blocks: map<Bid, Block>, home: seq<Bid>, used: nat, given: seq<Given>, items: seq<int>)
    requires used <= |home|
  {
    forall o :: |home| - used <= o < |home| ==> home[o] in blocks && BlockOk(blocks[home[o]], o, given, items)
  }

  /** Blocks were only reused once all their indices were finished. */
  predicate DoneOk(home: seq<Bid>, used: nat, given: seq<Given>)
    requires used <= |home|
  {
    && (|home| - used) * BLOCK <= |given|
    && forall i :: 0 <= i < (|home| - used) * BLOCK ==> given[i].g == Gone
  }

  // ---- block indexes ------------------------------------------------------------------------

  function SlotOf(hd: Header, o: int): nat
    requires hd.size > 0
  {
    (o - hd.x.c) % hd.size
  }

  predicate Intact(hd: Header, home: seq<Bid>, o: nat)
    requires hd.size > 0 && o < |home|
  {
    var j := SlotOf(hd, o);
    j in hd.bases && hd.bases[j] == o * BLOCK && j in hd.blks && hd.blks[j] == home[o]
  }

  ghost predicate HeaderOk(hd: Header, home: seq<Bid>) {
    && hd.size >= 2 && hd.x.c <= hd.x.lo <= hd.x.top <= |home| && hd.x.top - hd.x.lo <= hd.size
    && forall o :: hd.x.lo <= o < hd.x.top ==> Intact(hd, home, o)
  }

  ghost predicate HeadersOk(idx: seq<Header>, home: seq<Bid>) {
    forall h :: 0 <= h < |idx| ==> HeaderOk(idx[h], home)
  }

  predicate FrontOk(hd: Header) {
    hd.size > 0 && hd.x.lo <= hd.x.pf < hd.x.top && hd.front == SlotOf(hd, hd.x.pf)
  }

  /** The number of the block whose entry is being written, and the next entry to write. */
  predicate Entering(pc: ProducerPc) { pc.PBase? || pc.PBlk? || pc.PFront? }

  predicate CurrentOk(hd: Header, p: Producer, q: nat) {
    && hd.size == p.size && p.size >= 2 && p.used <= p.size && p.used <= q && (q > 0 ==> p.used > 0)
    && hd.x.lo <= q - p.used
    && (hd.x.lo == hd.x.c || hd.x.lo + hd.size <= hd.x.top + 1)
    && (Entering(p.pc) ==> q > 0 && p.front == SlotOf(hd, q - 1))
    && (!Entering(p.pc) ==> p.front == SlotOf(hd, q))
    && hd.x.top == (if p.pc.PBase? || p.pc.PBlk? then q - 1 else q)
    && (p.pc.PBlk? ==> hd.x.top - hd.x.lo < hd.size && p.front in hd.bases && hd.bases[p.front] == (q - 1) * BLOCK)
    && (q <= 1 ==> hd.x.pf == 0)
    && (!Entering(p.pc) && q > 0 ==> FrontOk(hd) && hd.x.pf == q - 1)
    && (Entering(p.pc) && q > 1 ==> FrontOk(hd) && hd.x.pf == q - 2)
  }

  /** The tail, in blocks. */
  predicate TailOk(tail: nat, q: nat, pc: ProducerPc) {
    match pc
    case PIdle => q * BLOCK - BLOCK < tail <= q * BLOCK
    case PBase => q > 0 && tail == (q - 1) * BLOCK
    case PBlk => q > 0 && tail == (q - 1) * BLOCK
    case PFront => q > 0 && tail == (q - 1) * BLOCK
    case PElem => q > 0 && (q - 1) * BLOCK <= tail < q * BLOCK
    case PTail => q > 0 && (q - 1) * BLOCK <= tail < q * BLOCK
    case _ => tail == q * BLOCK && (pc.PTest? ==> q > 0)
  }

  predicate ProducerOk(s: State) {
    && TailOk(s.n.tail, |s.x.home|, s.p.pc) && s.n.tail == |s.x.items|
    && s.p.size > 0
    && (s.idx == [] ==> s.x.home == [] && (s.p.pc.PIdle? || s.p.pc.PHead? || s.p.pc.PGrow? || s.p.pc.PFailed?))
    && (s.idx != [] ==> CurrentOk(s.idx[|s.idx| - 1], s.p, |s.x.home|))
    && (s.p.pc.PGrow? ==> s.idx == [] || s.p.used == s.p.size)
    && (s.p.pc.PBlock? ==> s.idx != [] && s.p.used < s.p.size)
    && (s.p.pc.PTail? ==> s.p.last.Some? && s.p.last.value in s.blocks
                          && var e := s.blocks[s.p.last.value].elems;
                             s.n.tail % BLOCK in e && e[s.n.tail % BLOCK] == s.p.v)
  }

  // ---- dequeuers at work ----------------------------------------------------------------------

  predicate Mine(given: seq<Given>, t: nat, a: nat, b: nat, g: Stage) {
    b <= |given| && forall i :: a <= i < b ==> given[i] == Given(t, g)
  }

  /** The header has the entries of the indices a..b. */
  predicate Reach(hd: Header, a: nat, b: nat) {
    a < b && hd.x.lo <= a / BLOCK && (b - 1) / BLOCK < hd.x.top
  }

  predicate PartOk(idx: seq<Header>, home: seq<Bid>, q: Part) {
    && q.h < |idx| && Reach(idx[q.h], q.s, q.b) && idx[q.h].size > 0
    && q.j == SlotOf(idx[q.h], q.s / BLOCK) && q.s / BLOCK < |home| && q.k == home[q.s / BLOCK]
    && q.s < q.e == Min(q.b, (q.s / BLOCK + 1) * BLOCK)
  }

  predicate WorkOk(idx: seq<Header>, home: seq<Bid>, given: seq<Given>, t: nat, w: Work) {
    match w
    case LoadIndex(a, b) => a < b && Mine(given, t, a, b, Held)
    case LoadFront(a, b, h) =>
      && Mine(given, t, a, b, Held) && h < |idx| && Reach(idx[h], a, b) && FrontOk(idx[h])
      && (b - 1) / BLOCK <= idx[h].x.pf
    case ReadBase(a, b, h, f, pf) =>
      && Mine(given, t, a, b, Held) && h < |idx| && Reach(idx[h], a, b) && idx[h].size > 0
      && a / BLOCK <= pf < idx[h].x.top && f == SlotOf(idx[h], pf)
    case ReadBlock(i, b, h, j) =>
      && Mine(given, t, i, b, Held) && h < |idx| && Reach(idx[h], i, b) && idx[h].size > 0
      && j == SlotOf(idx[h], i / BLOCK)
    case Move(i, q) =>
      && PartOk(idx, home, q) && q.s <= i < q.e
      && Mine(given, t, q.s, i, Moved) && Mine(given, t, i, q.b, Held)
    case Flag(i, q) =>
      && PartOk(idx, home, q) && q.s < i <= q.e
      && Mine(given, t, q.s, i, Moved) && Mine(given, t, i, q.e, Gone) && Mine(given, t, q.e, q.b, Held)
    case Failed => false
  }

  ghost predicate WorkersOk(idx: seq<Header>, home: seq<Bid>, given: seq<Given>, ths: map<nat, Pc>) {
    forall t :: t in ths && ths[t].Working? ==> WorkOk(idx, home, given, t, ths[t].w)
  }

  ghost predicate MemoryOk(s: State) {
    && RingOk(s.blocks, s.x.home, s.p.last, s.p.used)
    && CellsOk(s.blocks, s.x.home, s.p.used, s.x.given, s.x.items)
    && DoneOk(s.x.home, s.p.used, s.x.given)
  }

  ghost predicate BlocksInv(s: State) {
    && MemoryOk(s)
    && HeadersOk(s.idx, s.x.home)
    && ProducerOk(s)
    && |s.x.given| == s.n.head <= s.n.tail
    && WorkersOk(s.idx, s.x.home, s.x.given, s.ths)
  }
}
