/** GAddrArray: a radix tree of segments in global memory, 1024 entries a segment. */
module RadixArray {
  import opened Memory
  import opened Words

  const N: nat := 1024

  function Pow(k: nat): (r: nat)
    ensures r >= 1
  {
    if k == 0 then 1 else Pow(k - 1) * N
  }

  /** pos divided by N, t times. */
  function Shift(pos: nat, t: nat): nat { if t == 0 then pos else Shift(pos, t - 1) / N }

  lemma {:induction false} ShiftBound(pos: nat, layer: nat, t: nat)
    requires pos < Pow(layer) && t <= layer
    ensures Shift(pos, t) < Pow(layer - t)
    decreases t
  {
    if t > 0 { ShiftBound(pos, layer, t - 1); }
  }

  lemma PowMono(a: nat, b: nat)
    requires a <= b
    ensures Pow(a) <= Pow(b)
    decreases b
  {
    if a < b { PowMono(a, b - 1); }
  }

  /** The offset of the address of node p in its parent's segment. */
  function Slot(p: nat): nat { p % N * GSIZE }

  // ---- the segments -----------------------------------------------------------------------------------

  /** The node p of layer k; layer 0 is the root. */
  datatype Place = Place(k: nat, p: nat)

  type Segs = map<Place, GAddr>

  /** A segment of elements of this size fits in a chunk of memory, as the allocator demands. */
  predicate Small(es: nat) { es * N <= CHUNK }

  /** The size of the segments of a layer: the last layer holds elements, the others addresses; a
      tree without layers has a root of addresses. */
  function SegSize(layers: nat, es: nat, k: nat): nat { if k + 1 == layers then es * N else GSIZE * N }

  function Parent(x: Place): Place
    requires x.k > 0
  {
    Place(x.k - 1, x.p / N)
  }

  /** The address kept in the parent's segment. */
  predicate Linked(m: Mem, segs: Segs, x: Place)
    requires x.k > 0
  {
    && x in segs && Parent(x) in segs && ValidAddr(segs[x])
    && Load(m, Gadd(segs[Parent(x)], Slot(x.p)), GSIZE) == EncodeAddr(segs[x])
  }

  predicate Beside(segs: Segs, layers: nat, es: nat, x: Place, y: Place)
    requires x in segs && y in segs
  {
    Apart(segs[x], SegSize(layers, es, x.k), segs[y], SegSize(layers, es, y.k))
  }

  /** The segments of all layers below `layer`, and the first pos of that layer, are built. */
  predicate Present(segs: Segs, x: Place, layer: nat, pos: nat) {
    x in segs <==> (x.k < layer && x.p < Pow(x.k)) || (x.k == layer && x.p < pos)
  }

  ghost predicate Built(m: Mem, segs: Segs, taken: seq<Segment>, layers: nat, es: nat, layer: nat, pos: nat) {
    && (forall x :: Present(segs, x, layer, pos))
    && (forall x {:trigger InTaken(segs, taken, layers, es, x)} :: x in segs ==> InTaken(segs, taken, layers, es, x))
    && (forall x, y {:trigger Beside(segs, layers, es, x, y)} :: x in segs && y in segs && x != y ==> Beside(segs, layers, es, x, y))
    && (forall x {:trigger Linked(m, segs, x)} :: x in segs && x.k > 0 ==> Linked(m, segs, x))
  }

  predicate InTaken(segs: Segs, taken: seq<Segment>, layers: nat, es: nat, x: Place)
    requires x in segs
  {
    && ValidAddr(segs[x]) && segs[x].addr + SegSize(layers, es, x.k) <= WORD
    && Segment(segs[x], SegSize(layers, es, x.k)) in taken
  }

  /** The cells of different places do not overlap. */
  lemma CellsApart(segs: Segs, layers: nat, es: nat, x: Place, y: Place)
    requires x.k > 0 && y.k > 0 && x != y && Parent(x) in segs && Parent(y) in segs
    requires x.k < layers && y.k < layers
    requires Parent(x) != Parent(y) ==> Beside(segs, layers, es, Parent(x), Parent(y))
    ensures Apart(Gadd(segs[Parent(x)], Slot(x.p)), GSIZE, Gadd(segs[Parent(y)], Slot(y.p)), GSIZE)
  {
    if Parent(x) == Parent(y) {
      assert x.p % N != y.p % N;
    }
  }

  /** One more segment, linked from its parent. */
  lemma BuiltMore(m: Mem, m': Mem, segs: Segs, taken: seq<Segment>, layers: nat, es: nat, layer: nat, pos: nat, a: GAddr)
    requires Built(m, segs, taken, layers, es, layer, pos) && 0 < layer < layers && pos < Pow(layer)
    requires Fits(a, SegSize(layers, es, layer), taken) && ValidAddr(a)
    requires Place(layer - 1, pos / N) in segs
    requires m' == Store(m, Gadd(segs[Place(layer - 1, pos / N)], Slot(pos)), EncodeAddr(a))
    ensures Built(m', segs[Place(layer, pos) := a], taken + [Segment(a, SegSize(layers, es, layer))], layers, es, layer, pos + 1)
  {
    var z := Place(layer, pos);
    var segs', taken', pos' := segs[z := a], taken + [Segment(a, SegSize(layers, es, layer))], pos + 1;
    assert Present(segs, z, layer, pos);
    forall x ensures Present(segs', x, layer, pos') { assert Present(segs, x, layer, pos); }
    forall x | x in segs' ensures InTaken(segs', taken', layers, es, x) {
      if x == z { assert taken'[|taken|] == Segment(a, SegSize(layers, es, layer)); } else { assert InTaken(segs, taken, layers, es, x); }
    }
    forall x, y | x in segs' && y in segs' && x != y ensures Beside(segs', layers, es, x, y) {
      if x == z { NewBeside(segs, taken, layers, es, y, a, SegSize(layers, es, layer)); }
      else if y == z { NewBeside(segs, taken, layers, es, x, a, SegSize(layers, es, layer)); }
      else { assert Beside(segs, layers, es, x, y); }
    }
    forall x: Place | x in segs' && x.k > 0 ensures Linked(m', segs', x) {
      StillLinked(m, m', segs, taken, layers, es, layer, pos, a, x);
    }
  }

  lemma NewBeside(segs: Segs, taken: seq<Segment>, layers: nat, es: nat, x: Place, a: GAddr, size: nat)
    requires x in segs && InTaken(segs, taken, layers, es, x) && Fits(a, size, taken)
    ensures Apart(a, size, segs[x], SegSize(layers, es, x.k)) && Apart(segs[x], SegSize(layers, es, x.k), a, size)
  {
    var i :| 0 <= i < |taken| && taken[i] == Segment(segs[x], SegSize(layers, es, x.k));
    assert FitsBeside(a, size, taken[i]);
  }

  lemma StillLinked(m: Mem, m': Mem, segs: Segs, taken: seq<Segment>, layers: nat, es: nat, layer: nat, pos: nat, a: GAddr, x: Place)
    requires Built(m, segs, taken, layers, es, layer, pos) && 0 < layer < layers && pos < Pow(layer) && ValidAddr(a)
    requires Place(layer - 1, pos / N) in segs && Place(layer, pos) !in segs
    requires m' == Store(m, Gadd(segs[Place(layer - 1, pos / N)], Slot(pos)), EncodeAddr(a))
    requires x in segs[Place(layer, pos) := a] && x.k > 0
    ensures Linked(m', segs[Place(layer, pos) := a], x)
  {
    var z := Place(layer, pos);
    var cell := Gadd(segs[Parent(z)], Slot(pos));
    if x == z {
      LoadStored(m, cell, EncodeAddr(a));
    } else {
      assert Linked(m, segs, x) && Present(segs, x, layer, pos);
      CellsApart(segs, layers, es, z, x);
      LoadApart(m, cell, EncodeAddr(a), Gadd(segs[Parent(x)], Slot(x.p)), GSIZE);
    }
  }

  /** The last segment of a layer ends it. */
  lemma BuiltNext(m: Mem, segs: Segs, taken: seq<Segment>, layers: nat, es: nat, layer: nat)
    requires Built(m, segs, taken, layers, es, layer, Pow(layer))
    ensures Built(m, segs, taken, layers, es, layer + 1, 0)
  {
    var next := layer + 1;
    forall x ensures Present(segs, x, next, 0) { assert Present(segs, x, layer, Pow(layer)); }
  }

  lemma BuiltRoot(m: Mem, root: GAddr, taken: seq<Segment>, layers: nat, es: nat)
    requires ValidAddr(root) && root.addr + SegSize(layers, es, 0) <= WORD && |taken| > 0 && taken[|taken| - 1] == Segment(root, SegSize(layers, es, 0))
    ensures Built(m, map[Place(0, 0) := root], taken, layers, es, 1, 0)
  {
    var segs := map[Place(0, 0) := root];
    forall x ensures Present(segs, x, 1, 0) { assert Pow(0) == 1; }
  }

  // ---- the way down -----------------------------------------------------------------------------------

  /** The node of layer j on the way to entry pos of a layer. */
  function OnWay(layer: nat, pos: nat, j: nat): Place
    requires j <= layer
  {
    Place(j, Shift(pos, layer - j))
  }

  /** v is the index, inside its segment, of the node t layers above pos. */
  predicate IsStep(v: nat, pos: nat, t: nat) { v == Shift(pos, t) % N }

  lemma WayEnds(layer: nat, pos: nat)
    requires 0 < layer && pos < Pow(layer)
    ensures OnWay(layer, pos, 0) == Place(0, 0) && OnWay(layer, pos, layer - 1) == Place(layer - 1, pos / N)
  {
    ShiftBound(pos, layer, layer);
    assert Shift(pos, 0) == pos;
  }

  lemma WayDown(m: Mem, segs: Segs, taken: seq<Segment>, layers: nat, es: nat, built: nat, done: nat, layer: nat, pos: nat, j: nat)
    requires Built(m, segs, taken, layers, es, built, done) && layer <= built
    requires 1 <= j < layer && pos < Pow(layer)
    ensures Linked(m, segs, OnWay(layer, pos, j)) && Parent(OnWay(layer, pos, j)) == OnWay(layer, pos, j - 1)
  {
    var next := OnWay(layer, pos, j);
    ShiftBound(pos, layer, layer - j);
    assert Present(segs, next, built, done);
  }

  /** The segment LocateParentNode finds for entry pos of a layer. */
  function Holder(layer: nat, pos: nat): Place { if layer == 0 then Place(0, 0) else Place(layer - 1, pos / N) }

  // ---- elements ---------------------------------------------------------------------------------------

  lemma Steps(a: nat, b: nat, es: nat)
    requires a < b
    ensures a * es + es <= b * es
  {
    assert (a + 1) * es <= b * es;
  }

  ghost predicate Complete(m: Mem, segs: Segs, taken: seq<Segment>, layers: nat, es: nat) {
    Built(m, segs, taken, layers, es, if layers <= 1 then 1 else layers, 0)
  }

  /** The offset of element off in its segment. */
  function Cell(off: nat, es: nat): (r: nat)
    ensures r + es <= N * es
  {
    Steps(off % N, N, es);
    off % N * es
  }

  /** Where element off is kept. */
  function ElementAt(segs: Segs, layers: nat, es: nat, off: nat): GAddr
    requires Holder(layers, off) in segs
  {
    Gadd(segs[Holder(layers, off)], Cell(off, es))
  }

  lemma HolderThere(m: Mem, segs: Segs, taken: seq<Segment>, layers: nat, es: nat, off: nat)
    requires Complete(m, segs, taken, layers, es) && off < Pow(layers)
    ensures Holder(layers, off) in segs
  {
    assert Present(segs, Holder(layers, off), if layers <= 1 then 1 else layers, 0);
  }

  /** An element lies inside its segment; without layers, just when its size is at most 10240. */
  lemma ElementInside(m: Mem, segs: Segs, taken: seq<Segment>, layers: nat, es: nat, off: nat)
    requires Complete(m, segs, taken, layers, es) && off < Pow(layers)
    ensures Holder(layers, off) in segs
    ensures Cell(off, es) + es <= SegSize(layers, es, Holder(layers, off).k) <==> layers > 0 || es <= GSIZE * N
  {
    HolderThere(m, segs, taken, layers, es, off);
  }

  /** For example: the only element of an array of one element of 10241 bytes does not fit in its root. */
  lemma LargeElement(m: Mem, segs: Segs, taken: seq<Segment>)
    requires Complete(m, segs, taken, 0, 10241)
    ensures Holder(0, 0) in segs && Cell(0, 10241) + 10241 > SegSize(0, 10241, Holder(0, 0).k)
  {
    assert Pow(0) == 1;
    ElementInside(m, segs, taken, 0, 10241, 0);
  }

  /** Different elements do not overlap. */
  lemma ElementsApart(m: Mem, segs: Segs, taken: seq<Segment>, layers: nat, es: nat, o: nat, p: nat)
    requires Complete(m, segs, taken, layers, es) && o < Pow(layers) && p < Pow(layers) && o != p
    ensures Holder(layers, o) in segs && Holder(layers, p) in segs
    ensures Apart(ElementAt(segs, layers, es, o), es, ElementAt(segs, layers, es, p), es)
  {
    HolderThere(m, segs, taken, layers, es, o);
    HolderThere(m, segs, taken, layers, es, p);
    if Holder(layers, o) == Holder(layers, p) {
      SameHolder(layers, o, p);
      CellsInOne(segs[Holder(layers, o)], o % N, p % N, es);
    } else {
      OtherHolder(m, segs, taken, layers, es, o, p);
    }
  }

  lemma OtherHolder(m: Mem, segs: Segs, taken: seq<Segment>, layers: nat, es: nat, o: nat, p: nat)
    requires Complete(m, segs, taken, layers, es) && Holder(layers, o) != Holder(layers, p)
    requires Holder(layers, o) in segs && Holder(layers, p) in segs
    ensures Apart(ElementAt(segs, layers, es, o), es, ElementAt(segs, layers, es, p), es)
  {
    InOthers(m, segs, taken, layers, es, Holder(layers, o), Holder(layers, p), Cell(o, es), Cell(p, es));
  }

  lemma InOthers(m: Mem, segs: Segs, taken: seq<Segment>, layers: nat, es: nat, x: Place, y: Place, u: nat, v: nat)
    requires Complete(m, segs, taken, layers, es) && x in segs && y in segs && x != y && x.k + 1 == layers && y.k == x.k
    requires u + es <= N * es && v + es <= N * es
    ensures Apart(Gadd(segs[x], u), es, Gadd(segs[y], v), es)
  {
    assert Beside(segs, layers, es, x, y);
    ApartInside(segs[x], es * N, segs[y], es * N, u, v, es);
  }

  lemma CellsInOne(a: GAddr, o: nat, p: nat, es: nat)
    requires o != p
    ensures Apart(Gadd(a, o * es), es, Gadd(a, p * es), es)
  {
    if o < p { Steps(o, p, es); } else { Steps(p, o, es); }
  }

  lemma ApartInside(a: GAddr, n: nat, b: GAddr, k: nat, x: nat, y: nat, e: nat)
    requires Apart(a, n, b, k) && x + e <= n && y + e <= k
    ensures Apart(Gadd(a, x), e, Gadd(b, y), e)
  {}

  lemma SameHolder(layers: nat, o: nat, p: nat)
    requires o < Pow(layers) && p < Pow(layers) && Holder(layers, o) == Holder(layers, p) && o != p
    ensures o % N != p % N
  {
    assert Pow(0) == 1;
  }

  // ---- what was there before ----------------------------------------------------------------------------

  /** The segments handed out before keep their contents. */
  ghost predicate Kept(m: Mem, m': Mem, before: seq<Segment>) {
    forall i :: 0 <= i < |before| ==> SameAt(m, m', before[i])
  }

  predicate SameAt(m: Mem, m': Mem, s: Segment) { Load(m', s.at, s.size) == Load(m, s.at, s.size) }

  ghost predicate Away(segs: Segs, layers: nat, es: nat, before: seq<Segment>) {
    forall x, i :: x in segs && 0 <= i < |before| ==> FitsBeside(segs[x], SegSize(layers, es, x.k), before[i])
  }

  /** From m0 to m, with `before` handed out in m0, only segments handed out later were written. */
  ghost predicate Clean(m0: Mem, before: seq<Segment>, m: Mem, taken: seq<Segment>, segs: Segs, layers: nat, es: nat) {
    before <= taken && Kept(m0, m, before) && Away(segs, layers, es, before)
  }

  lemma CleanMore(m0: Mem, before: seq<Segment>, m: Mem, m': Mem, taken: seq<Segment>, segs: Segs,
                  layers: nat, es: nat, layer: nat, pos: nat, a: GAddr)
    requires Clean(m0, before, m, taken, segs, layers, es) && 0 < layer < layers
    requires Fits(a, SegSize(layers, es, layer), taken) && Place(layer - 1, pos / N) in segs
    requires m' == Store(m, Gadd(segs[Place(layer - 1, pos / N)], Slot(pos)), EncodeAddr(a))
    ensures Clean(m0, before, m', taken + [Segment(a, SegSize(layers, es, layer))], segs[Place(layer, pos) := a], layers, es)
  {
    var z, p := Place(layer, pos), Place(layer - 1, pos / N);
    var segs' := segs[z := a];
    forall x, i | x in segs' && 0 <= i < |before| ensures FitsBeside(segs'[x], SegSize(layers, es, x.k), before[i]) {
      if x == z { assert before[i] == taken[i]; }
    }
    forall i | 0 <= i < |before| ensures SameAt(m0, m', before[i]) {
      assert SameAt(m0, m, before[i]) && FitsBeside(segs[p], SegSize(layers, es, p.k), before[i]);
      LoadApart(m, Gadd(segs[p], Slot(pos)), EncodeAddr(a), before[i].at, before[i].size);
    }
  }

  lemma SegmentTaken(m: Mem, segs: Segs, taken: seq<Segment>, taken': seq<Segment>, layers: nat, es: nat, built: nat, done: nat)
    requires Built(m, segs, taken, layers, es, built, done) && taken <= taken'
    ensures Built(m, segs, taken', layers, es, built, done)
  {
    forall x | x in segs ensures InTaken(segs, taken', layers, es, x) { assert InTaken(segs, taken, layers, es, x); }
  }

  // ---- the array's own fields in memory -------------------------------------------------------------------

  datatype ArrayHeader = ArrayHeader(root: GAddr, arraySize: nat, elementSize: nat, layerSize: seq<nat>, layers: nat)

  /** GetSerializeSize. */
  const ARRAY_SIZE: nat := GSIZE + 8 * 5 + 8 * 2

  predicate ValidArrayHeader(h: ArrayHeader) {
    ValidAddr(h.root) && |h.layerSize| == 4 && Fit(ArrayWords(h))
  }

  function ArrayWords(h: ArrayHeader): seq<nat> { [h.arraySize, h.elementSize] + h.layerSize + [h.layers] }

  function ArrayBytes(h: ArrayHeader): seq<Byte> { EncodeAddr(h.root) + Bytes(ArrayWords(h)) }

  // ---- the memory that is asked for --------------------------------------------------------------------------

  /** The sizes of the segments from place pos of a layer on, in the order in which they are built. */
  function SizesFrom(layers: nat, es: nat, layer: nat, pos: nat): seq<nat>
    decreases layers - layer, Pow(layer) - pos
  {
    if layer >= layers then []
    else if pos >= Pow(layer) then SizesFrom(layers, es, layer + 1, 0)
    else [SegSize(layers, es, layer)] + SizesFrom(layers, es, layer, pos + 1)
  }

  /** Everything that Init asks for. */
  function Needed(layers: nat, es: nat): seq<nat> { [SegSize(layers, es, 0)] + SizesFrom(layers, es, 1, 0) }

  // ---- the class ------------------------------------------------------------------------------------------

  class GAddrArray {
    var root: GAddr
    var arraySize: nat
    var elementSize: nat
    var layerSize: seq<nat>
    var layers: nat
    /** Where the segments are. */
    ghost var segs: Segs

    constructor ()
      ensures arraySize == 0
    {
      root, arraySize, elementSize, layerSize, layers, segs := NULL, 0, 0, [0, 0, 0, 0], 0, map[];
    }

    /** The sizes are set up: the fewest layers that reach arraySize. */
    ghost predicate Sized()
      reads `layers, `layerSize, `arraySize
    {
      && layers < 4 && |layerSize| == 4 && (forall i :: 0 <= i <= layers ==> layerSize[i] == Pow(i))
      && arraySize <= Pow(layers) && (layers > 0 ==> Pow(layers - 1) < arraySize)
    }

    ghost predicate Rooted()
      reads this
    {
      Place(0, 0) in segs && segs[Place(0, 0)] == root
    }

    /** The tree is complete in memory m. */
    ghost predicate Ready(m: Mem, taken: seq<Segment>)
      reads this
    {
      Sized() && Rooted() && Complete(m, segs, taken, layers, elementSize)
    }

    function Value(): ArrayHeader
      reads `root, `arraySize, `elementSize, `layerSize, `layers
    {
      ArrayHeader(root, arraySize, elementSize, layerSize, layers)
    }

    method Serialize(addr: GAddr, g: GAlloc)
      modifies g`mem
      ensures g.mem == Store(old(g.mem), addr, ArrayBytes(Value()))
    {
      ghost var m, bs := g.mem, EncodeAddr(root);
      assert Gadd(addr, 0) == addr && bs + Bytes([]) == bs;
      g.Write(addr, 0, EncodeAddr(root));
      var off := GSIZE;
      Append(g, addr, off, [arraySize], m, bs, []);
      off := off + 8;
      Append(g, addr, off, [elementSize], m, bs, [arraySize]);
      off := off + 8;
      Append(g, addr, off, layerSize, m, bs, [arraySize] + [elementSize]);
      off := off + 8 * |layerSize|;
      Append(g, addr, off, [layers], m, bs, [arraySize] + [elementSize] + layerSize);
      assert [] + [arraySize] == [arraySize];
      assert [arraySize] + [elementSize] + layerSize + [layers] == ArrayWords(Value());
    }

    /** Reads what was serialized as h. */
    method Deserialize(addr: GAddr, g: GAlloc, ghost h: ArrayHeader)
      requires ValidArrayHeader(h) && Load(g.mem, addr, ARRAY_SIZE) == ArrayBytes(h)
      modifies `root, `arraySize, `elementSize, `layerSize, `layers
      ensures Value() == h
    {
      ghost var bs, ws := EncodeAddr(h.root), ArrayWords(h);
      LoadPart(g.mem, addr, ARRAY_SIZE, 0, GSIZE);
      var off := 0;
      var a := g.Read(addr, off, GSIZE);
      assert a == bs;
      AddrRoundTrip(h.root);
      off := off + GSIZE;
      var size := Get(g, addr, off, 1, bs, ws, 0);
      off := off + 8;
      var element := Get(g, addr, off, 1, bs, ws, 1);
      off := off + 8;
      var sizes := Get(g, addr, off, 4, bs, ws, 2);
      off := off + 8 * 4;
      var n := Get(g, addr, off, 1, bs, ws, 6);
      root, arraySize, elementSize, layerSize, layers := DecodeAddr(a), size[0], element[0], sizes, n[0];
    }

    /** LocateParentNode: the segment of layer layer - 1 that pos of that layer falls into; the root
        for layer 0. */
    method LocateParent(layer: nat, pos: nat, g: GAlloc, ghost built: nat, ghost done: nat) returns (cur: GAddr)
      requires Rooted() && layer <= layers && pos < Pow(layer)
      requires layer <= built && Built(g.mem, segs, g.taken, layers, elementSize, built, done)
      ensures Holder(layer, pos) in segs && cur == segs[Holder(layer, pos)]
    {
      var path := PathTo(layer, pos, layers);
      cur := root;
      if layer > 0 { WayEnds(layer, pos); }
      var j: nat := 1;
      while j < layer
        invariant 1 <= j && (layer > 0 ==> j <= layer)
        invariant layer == 0 ==> cur == root
        invariant layer > 0 ==> OnWay(layer, pos, j - 1) in segs && cur == segs[OnWay(layer, pos, j - 1)]
      {
        WayDown(g.mem, segs, g.taken, layers, elementSize, built, done, layer, pos, j);
        ghost var next := OnWay(layer, pos, j);
        assert IsStep(path[j], pos, layer - j);
        var bytes := g.Read(cur, path[j] * GSIZE, GSIZE);
        AddrRoundTrip(segs[next]);
        cur := DecodeAddr(bytes);
        j := j + 1;
      }
    }

    /** GetElementGAddr. */
    method GetElement(off: nat, g: GAlloc) returns (a: GAddr)
      requires Ready(g.mem, g.taken) && off < arraySize
      ensures Holder(layers, off) in segs && a == ElementAt(segs, layers, elementSize, off)
    {
      var parent := LocateParent(layers, off, g, if layers <= 1 then 1 else layers, 0);
      a := Gadd(parent, off % N * elementSize);
    }

    /** The layers that count elements need, and their sizes. */
    method SetSizes(count: nat, es: nat)
      requires count <= Pow(3)
      modifies this
      ensures Sized() && arraySize == count && elementSize == es
    {
      var bound, n := 1, 0;
      while bound < count
        invariant bound == Pow(n) && n <= 3 && (n > 0 ==> Pow(n - 1) < count)
        decreases 3 - n
      {
        bound := bound * N;
        n := n + 1;
      }
      var sizes: seq<nat> := [1, 0, 0, 0];
      var i := 1;
      while i <= n
        invariant 1 <= i <= n + 1 && |sizes| == 4 && forall k :: 0 <= k < i ==> sizes[k] == Pow(k)
      {
        sizes := sizes[i := sizes[i - 1] * N];
        i := i + 1;
      }
      arraySize, elementSize, layers, layerSize := count, es, n, sizes;
    }

    /** Init; not ok exactly when the allocator does not answer what is needed. */
    method Init(count: nat, es: nat, g: GAlloc) returns (ok: bool)
      requires count <= Pow(3) && Small(es)
      modifies this, g
      ensures Sized() && arraySize == count && elementSize == es
      ensures ok <==> Gives(old(g.plan), old(g.taken), Needed(layers, es))
      ensures ok ==> Ready(g.mem, g.taken)
      ensures old(g.taken) <= g.taken && Kept(old(g.mem), g.mem, old(g.taken))
    {
      SetSizes(count, es);
      var slot := if layers == 1 then es else GSIZE;
      GivesFirst(g.plan, g.taken, slot * N, SizesFrom(layers, es, 1, 0));
      var r := g.Malloc(slot * N);
      if r.None? { return false; }
      root := r.value;
      segs := map[Place(0, 0) := root];
      BuiltRoot(g.mem, root, g.taken, layers, es);
      if layers == 1 { return true; }
      ok := BuildLayers(g, old(g.mem), old(g.taken));
    }

    /** The layers of segments below the root. */
    method BuildLayers(g: GAlloc, ghost m0: Mem, ghost before: seq<Segment>) returns (ok: bool)
      requires layers != 1 && Sized() && Rooted() && Small(elementSize)
      requires Built(g.mem, segs, g.taken, layers, elementSize, 1, 0) && Clean(m0, before, g.mem, g.taken, segs, layers, elementSize)
      modifies this`segs, g
      ensures Sized() && Rooted() && Clean(m0, before, g.mem, g.taken, segs, layers, elementSize)
      ensures ok <==> old(g.Answers(SizesFrom(layers, elementSize, 1, 0)))
      ensures ok ==> Complete(g.mem, segs, g.taken, layers, elementSize)
    {
      var layer := 1;
      while layer < layers
        invariant 1 <= layer && (if layers == 0 then layer == 1 else layer <= layers) && Sized() && Rooted()
        invariant Built(g.mem, segs, g.taken, layers, elementSize, layer, 0)
        invariant Clean(m0, before, g.mem, g.taken, segs, layers, elementSize)
        invariant g.Answers(SizesFrom(layers, elementSize, layer, 0)) <==> old(g.Answers(SizesFrom(layers, elementSize, 1, 0)))
      {
        ok := BuildLayer(layer, g, m0, before);
        if !ok { return; }
        layer := layer + 1;
      }
      ok := true;
    }

    /** The segments of one layer. */
    method BuildLayer(layer: nat, g: GAlloc, ghost m0: Mem, ghost before: seq<Segment>) returns (ok: bool)
      requires 0 < layer < layers && Sized() && Rooted() && Small(elementSize)
      requires Built(g.mem, segs, g.taken, layers, elementSize, layer, 0)
      requires Clean(m0, before, g.mem, g.taken, segs, layers, elementSize)
      modifies this`segs, g
      ensures Sized() && Rooted() && Clean(m0, before, g.mem, g.taken, segs, layers, elementSize)
      ensures ok ==> (g.Answers(SizesFrom(layers, elementSize, layer + 1, 0)) <==> old(g.Answers(SizesFrom(layers, elementSize, layer, 0))))
      ensures !ok ==> !old(g.Answers(SizesFrom(layers, elementSize, layer, 0)))
      ensures ok ==> Built(g.mem, segs, g.taken, layers, elementSize, layer + 1, 0)
    {
      var pos, size := 0, layerSize[layer];
      while pos < size
        invariant pos <= size && Rooted()
        invariant Built(g.mem, segs, g.taken, layers, elementSize, layer, pos)
        invariant Clean(m0, before, g.mem, g.taken, segs, layers, elementSize)
        invariant g.Answers(SizesFrom(layers, elementSize, layer, pos)) <==> old(g.Answers(SizesFrom(layers, elementSize, layer, 0)))
      {
        ok := AddSegment(layer, pos, g, m0, before);
        if !ok { return; }
        pos := pos + 1;
      }
      BuiltNext(g.mem, segs, g.taken, layers, elementSize, layer);
      ok := true;
    }

    /** One segment, and its address in the parent's. */
    method AddSegment(layer: nat, pos: nat, g: GAlloc, ghost m0: Mem, ghost before: seq<Segment>) returns (ok: bool)
      requires 0 < layer < layers && Rooted() && Small(elementSize) && pos < Pow(layer)
      requires Built(g.mem, segs, g.taken, layers, elementSize, layer, pos)
      requires Clean(m0, before, g.mem, g.taken, segs, layers, elementSize)
      modifies this`segs, g
      ensures Rooted() && Clean(m0, before, g.mem, g.taken, segs, layers, elementSize)
      ensures ok ==> (g.Answers(SizesFrom(layers, elementSize, layer, pos + 1)) <==> old(g.Answers(SizesFrom(layers, elementSize, layer, pos))))
      ensures !ok ==> !old(g.Answers(SizesFrom(layers, elementSize, layer, pos)))
      ensures ok ==> Built(g.mem, segs, g.taken, layers, elementSize, layer, pos + 1)
    {
      var slot := if layer < layers - 1 then GSIZE else elementSize;
      ghost var m, taken := g.mem, g.taken;
      GivesFirst(g.plan, g.taken, slot * N, SizesFrom(layers, elementSize, layer, pos + 1));
      var r := g.Malloc(slot * N);
      if r.None? { return false; }
      SegmentTaken(m, segs, taken, g.taken, layers, elementSize, layer, pos);
      var parent := LocateParent(layer, pos, g, layer, pos);
      g.Write(parent, pos % N * GSIZE, EncodeAddr(r.value));
      BuiltMore(m, g.mem, segs, taken, layers, elementSize, layer, pos, r.value);
      CleanMore(m0, before, m, g.mem, taken, segs, layers, elementSize, layer, pos, r.value);
      segs := segs[Place(layer, pos) := r.value];
      ok := true;
    }
  }

  /** path[i]: the index of the node of layer i inside its segment. */
  method PathTo(layer: nat, pos: nat, layers: nat) returns (path: seq<nat>)
    requires layer <= layers
    ensures |path| == layers + 1
    ensures forall i :: 0 <= i < layer ==> IsStep(path[i], pos, layer - i)
  {
    var steps := new nat[layers + 1];
    var p, j := pos, layer;
    while j > 0
      invariant 0 <= j <= layer && p == Shift(pos, layer - j)
      invariant forall i :: j <= i < layer ==> IsStep(steps[i], pos, layer - i)
    {
      j := j - 1;
      p := p / N;
      steps[j] := p % N;
    }
    path := steps[..];
  }
}
