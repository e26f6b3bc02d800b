/** Global memory as bytes, and an allocator that hands out segments of it. */
module Memory {
  import opened Options

  type Byte = x: nat | x < 256

  /** A global address: a node and an address in its memory. */
  datatype GAddr = GAddr(node: nat, addr: nat)

  const NULL: GAddr := GAddr(0, 0)
  const WORD: nat := 0x1_0000_0000_0000_0000
  const CHUNK: nat := 0x200_0000

  /** Bytes that were never written are absent and read as zero. */
  type Mem = map<GAddr, Byte>

  function Gadd(a: GAddr, off: nat): GAddr { GAddr(a.node, a.addr + off) }

  function At(m: Mem, a: GAddr): Byte { if a in m then m[a] else 0 }

  function Load(m: Mem, a: GAddr, n: nat): (r: seq<Byte>)
    ensures |r| == n
  {
    seq(n, i requires 0 <= i < n => At(m, Gadd(a, i)))
  }

  function Store(m: Mem, a: GAddr, bs: seq<Byte>): Mem {
    map x | x in m.Keys + Range(a, |bs|) ::
      if x.node == a.node && a.addr <= x.addr < a.addr + |bs| then bs[x.addr - a.addr] else m[x]
  }

  function Range(a: GAddr, n: nat): set<GAddr> { set i | 0 <= i < n :: Gadd(a, i) }

  predicate Within(x: GAddr, a: GAddr, n: nat) { x.node == a.node && a.addr <= x.addr < a.addr + n }

  /** The n bytes at a and the k bytes at b do not overlap. */
  predicate Apart(a: GAddr, n: nat, b: GAddr, k: nat) {
    a.node != b.node || a.addr + n <= b.addr || b.addr + k <= a.addr
  }

  lemma InRange(a: GAddr, n: nat, x: GAddr)
    ensures x in Range(a, n) <==> Within(x, a, n)
  {
    if Within(x, a, n) { assert x == Gadd(a, x.addr - a.addr); }
  }

  lemma StoreAt(m: Mem, a: GAddr, bs: seq<Byte>, x: GAddr)
    ensures At(Store(m, a, bs), x) == if Within(x, a, |bs|) then bs[x.addr - a.addr] else At(m, x)
  {
    InRange(a, |bs|, x);
  }

  lemma LoadStored(m: Mem, a: GAddr, bs: seq<Byte>)
    ensures Load(Store(m, a, bs), a, |bs|) == bs
  {
    forall i | 0 <= i < |bs| ensures Load(Store(m, a, bs), a, |bs|)[i] == bs[i] { StoreAt(m, a, bs, Gadd(a, i)); }
  }

  lemma LoadApart(m: Mem, a: GAddr, bs: seq<Byte>, b: GAddr, n: nat)
    requires Apart(a, |bs|, b, n)
    ensures Load(Store(m, a, bs), b, n) == Load(m, b, n)
  {
    forall i | 0 <= i < n ensures Load(Store(m, a, bs), b, n)[i] == Load(m, b, n)[i] { StoreAt(m, a, bs, Gadd(b, i)); }
  }

  /** Two stores side by side are one. */
  lemma StoreTwice(m: Mem, a: GAddr, x: seq<Byte>, y: seq<Byte>)
    ensures Store(Store(m, a, x), Gadd(a, |x|), y) == Store(m, a, x + y)
  {
    var l, r := Store(Store(m, a, x), Gadd(a, |x|), y), Store(m, a, x + y);
    forall k ensures k in l <==> k in r {
      InRange(a, |x|, k);
      InRange(Gadd(a, |x|), |y|, k);
      InRange(a, |x + y|, k);
    }
    forall k | k in l ensures l[k] == r[k] {
      StoreAt(Store(m, a, x), Gadd(a, |x|), y, k);
      StoreAt(m, a, x, k);
      StoreAt(m, a, x + y, k);
    }
  }

  // ---- numbers in memory ---------------------------------------------------------------------------

  function Pow256(w: nat): (r: nat)
    ensures r > 0
  {
    if w == 0 then 1 else 256 * Pow256(w - 1)
  }

  /** n in w bytes, the lowest first; higher bytes are lost. */
  function Encode(n: nat, w: nat): (r: seq<Byte>)
    ensures |r| == w
  {
    if w == 0 then [] else [n % 256] + Encode(n / 256, w - 1)
  }

  function Decode(bs: seq<Byte>): nat {
    if bs == [] then 0 else bs[0] + 256 * Decode(bs[1..])
  }

  lemma {:induction false} RoundTrip(n: nat, w: nat)
    requires n < Pow256(w)
    ensures Decode(Encode(n, w)) == n
  {
    if w > 0 {
      RoundTrip(n / 256, w - 1);
      assert Encode(n, w)[1..] == Encode(n / 256, w - 1);
    }
  }

  lemma Pow8()
    ensures Pow256(8) == WORD
  {
    assert Pow256(4) == 0x1_0000_0000;
  }

  /** sizeof(GAddr): the structure is packed. */
  const GSIZE: nat := 10

  predicate ValidAddr(a: GAddr) { a.node < 256 && a.addr < WORD }

  function EncodeAddr(a: GAddr): (r: seq<Byte>)
    ensures |r| == GSIZE
  {
    Encode(a.addr, 8) + [a.node % 256, 0]
  }

  function DecodeAddr(bs: seq<Byte>): GAddr
    requires |bs| == GSIZE
  {
    GAddr(bs[8], Decode(bs[..8]))
  }

  lemma AddrRoundTrip(a: GAddr)
    requires ValidAddr(a)
    ensures DecodeAddr(EncodeAddr(a)) == a
  {
    Pow8();
    RoundTrip(a.addr, 8);
    assert EncodeAddr(a)[..8] == Encode(a.addr, 8);
  }

  // ---- allocation ------------------------------------------------------------------------------------

  datatype Segment = Segment(at: GAddr, size: nat)

  predicate FitsBeside(a: GAddr, size: nat, s: Segment) { Apart(a, size, s.at, s.size) }

  /** What the allocator promises of a segment. */
  predicate Fits(a: GAddr, size: nat, taken: seq<Segment>) {
    && a.node < 256 && a.addr + size <= WORD && a.addr < WORD && a != NULL
    && forall i :: 0 <= i < |taken| ==> FitsBeside(a, size, taken[i])
  }

  /** The plan has fitting answers to requests of these sizes, one after the other. */
  ghost predicate Gives(plan: seq<GAddr>, taken: seq<Segment>, sizes: seq<nat>)
    decreases |sizes|
  {
    sizes == [] ||
    (plan != [] && Fits(plan[0], sizes[0], taken) && Gives(plan[1..], taken + [Segment(plan[0], sizes[0])], sizes[1..]))
  }

  lemma GivesOne(plan: seq<GAddr>, taken: seq<Segment>, size: nat)
    ensures Gives(plan, taken, [size]) <==> plan != [] && Fits(plan[0], size, taken)
  {
    assert [size][1..] == [];
  }

  lemma GivesFirst(plan: seq<GAddr>, taken: seq<Segment>, size: nat, sizes: seq<nat>)
    ensures Gives(plan, taken, [size] + sizes) <==>
      Gives(plan, taken, [size]) && plan != [] && Gives(plan[1..], taken + [Segment(plan[0], size)], sizes)
  {
    GivesOne(plan, taken, size);
    assert ([size] + sizes)[1..] == sizes;
  }

  /** Memory with an allocator. Its answers are an arbitrary plan; it keeps its promise or, like the
      code when memory runs out, never answers (None). */
  class GAlloc {
    var mem: Mem
    var taken: seq<Segment>
    var plan: seq<GAddr>

    /** It answers requests of these sizes, one after the other. */
    ghost predicate Answers(sizes: seq<nat>)
      reads `taken, `plan
    {
      Gives(plan, taken, sizes)
    }

    method Malloc(size: nat) returns (r: Option<GAddr>)
      requires size <= CHUNK
      modifies this`taken, this`plan
      ensures r.Some? <==> old(Answers([size]))
      ensures r.Some? ==> Fits(r.value, size, old(taken)) && taken == old(taken) + [Segment(r.value, size)]
      ensures r.Some? ==> old(plan) != [] && r.value == old(plan)[0] && plan == old(plan)[1..]
      ensures r.None? ==> taken == old(taken) && plan == old(plan)
    {
      GivesOne(plan, taken, size);
      if plan == [] || !Fits(plan[0], size, taken) { return None; }
      r := Some(plan[0]);
      taken := taken + [Segment(plan[0], size)];
      plan := plan[1..];
    }

    method Write(a: GAddr, off: nat, bs: seq<Byte>)
      modifies this`mem
      ensures mem == Store(old(mem), Gadd(a, off), bs)
    {
      mem := Store(mem, Gadd(a, off), bs);
    }

    method Read(a: GAddr, off: nat, n: nat) returns (bs: seq<Byte>)
      ensures bs == Load(mem, Gadd(a, off), n)
    {
      bs := Load(mem, Gadd(a, off), n);
    }
  }
}
