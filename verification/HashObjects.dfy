/** The structures of the hash index, typed, and the bytes of global memory that hold them. */
module HashObjects {
  import opened Options
  import opened Memory
  import opened RadixArray

  /** What is kept in memory: a BucketNode, an Items, or the head_ of a BucketHeader. */
  datatype Cell =
    | Node(key: nat, next: GAddr, items: GAddr)
    | Items(p0: GAddr, p1: GAddr, count: nat, next: GAddr)
    | Header(head: GAddr)

  type Cells = map<GAddr, Cell>

  /** The sizes of the structures, padding included. */
  function Size(c: Cell): (r: nat)
    ensures 0 < r <= 48
  {
    match c
    case Node(_, _, _) => 32
    case Items(_, _, _, _) => 48
    case Header(_) => GSIZE
  }

  predicate ValidCell(c: Cell) {
    match c
    case Node(key, next, items) => key < WORD && ValidAddr(next) && ValidAddr(items)
    case Items(p0, p1, count, next) => ValidAddr(p0) && ValidAddr(p1) && count < WORD && ValidAddr(next)
    case Header(head) => ValidAddr(head)
  }

  /** The bytes of a structure; padding is zero. */
  function EncodeCell(c: Cell): (r: seq<Byte>)
    ensures |r| == Size(c)
  {
    match c
    case Node(key, next, items) => Encode(key, 8) + EncodeAddr(next) + EncodeAddr(items) + [0, 0, 0, 0]
    case Items(p0, p1, count, next) =>
      EncodeAddr(p0) + EncodeAddr(p1) + [0, 0, 0, 0] + Encode(count, 8) + EncodeAddr(next) + [0, 0, 0, 0, 0, 0]
    case Header(head) => EncodeAddr(head)
  }

  function DecodeNode(bs: seq<Byte>): Cell
    requires |bs| == 32
  {
    Node(Decode(bs[..8]), DecodeAddr(bs[8..18]), DecodeAddr(bs[18..28]))
  }

  function DecodeItems(bs: seq<Byte>): Cell
    requires |bs| == 48
  {
    Items(DecodeAddr(bs[..10]), DecodeAddr(bs[10..20]), Decode(bs[24..32]), DecodeAddr(bs[32..42]))
  }

  function DecodeHeader(bs: seq<Byte>): Cell
    requires |bs| == GSIZE
  {
    Header(DecodeAddr(bs))
  }

  lemma NodeRoundTrip(c: Cell)
    requires c.Node? && ValidCell(c)
    ensures DecodeNode(EncodeCell(c)) == c
  {
    var bs := EncodeCell(c);
    assert bs[..8] == Encode(c.key, 8) && bs[8..18] == EncodeAddr(c.next) && bs[18..28] == EncodeAddr(c.items);
    Pow8();
    RoundTrip(c.key, 8);
    AddrRoundTrip(c.next);
    AddrRoundTrip(c.items);
  }

  lemma ItemsRoundTrip(c: Cell)
    requires c.Items? && ValidCell(c)
    ensures DecodeItems(EncodeCell(c)) == c
  {
    var bs := EncodeCell(c);
    assert bs[..10] == EncodeAddr(c.p0) && bs[10..20] == EncodeAddr(c.p1);
    assert bs[24..32] == Encode(c.count, 8) && bs[32..42] == EncodeAddr(c.next);
    Pow8();
    RoundTrip(c.count, 8);
    AddrRoundTrip(c.p0);
    AddrRoundTrip(c.p1);
    AddrRoundTrip(c.next);
  }

  lemma HeaderRoundTrip(c: Cell)
    requires c.Header? && ValidCell(c)
    ensures DecodeHeader(EncodeCell(c)) == c
  {
    AddrRoundTrip(c.head);
  }

  // ---- the structures in memory -------------------------------------------------------------------------

  /** The array of buckets. */
  datatype Tree = Tree(segs: Segs, layers: nat, es: nat)

  /** The bytes at a are the structure; it lies in allocated memory and not on an address of the array. */
  ghost predicate CellOk(m: Mem, taken: seq<Segment>, cells: Cells, t: Tree, a: GAddr)
    requires a in cells
  {
    && Load(m, a, Size(cells[a])) == EncodeCell(cells[a]) && ValidCell(cells[a]) && ValidAddr(a)
    && Owned(taken, a, Size(cells[a])) && OffTree(t, a, Size(cells[a]))
  }

  ghost predicate Owned(taken: seq<Segment>, a: GAddr, n: nat) { exists s :: s in taken && Inside(a, n, s) }

  predicate Inside(a: GAddr, n: nat, s: Segment) {
    a.node == s.at.node && s.at.addr <= a.addr && a.addr + n <= s.at.addr + s.size
  }

  ghost predicate OffTree(t: Tree, a: GAddr, n: nat) { forall x {:trigger OffLink(t, x, a, n)} :: OffLink(t, x, a, n) }

  predicate OffLink(t: Tree, x: Place, a: GAddr, n: nat) {
    x in t.segs && x.k > 0 && Parent(x) in t.segs ==> Apart(Gadd(t.segs[Parent(x)], Slot(x.p)), GSIZE, a, n)
  }

  predicate CellsBeside(cells: Cells, a: GAddr, b: GAddr)
    requires a in cells && b in cells
  {
    Apart(a, Size(cells[a]), b, Size(cells[b]))
  }

  /** All structures, and the array, are in memory; nothing overlaps. */
  ghost predicate World(m: Mem, taken: seq<Segment>, cells: Cells, t: Tree) {
    && Complete(m, t.segs, taken, t.layers, t.es)
    && (forall a {:trigger CellOk(m, taken, cells, t, a)} :: a in cells ==> CellOk(m, taken, cells, t, a))
    && (forall a, b {:trigger CellsBeside(cells, a, b)} :: a in cells && b in cells && a != b ==> CellsBeside(cells, a, b))
  }

  predicate Room(cells: Cells, a: GAddr, n: nat, b: GAddr)
    requires b in cells
  {
    Apart(a, n, b, Size(cells[b]))
  }

  /** A structure is written where no other one is. */
  lemma Put(m: Mem, taken: seq<Segment>, cells: Cells, t: Tree, a: GAddr, c: Cell)
    requires World(m, taken, cells, t) && ValidCell(c) && ValidAddr(a)
    requires Owned(taken, a, Size(c)) && OffTree(t, a, Size(c))
    requires forall b {:trigger Room(cells, a, Size(c), b)} :: b in cells && b != a ==> Room(cells, a, Size(c), b)
    ensures World(Store(m, a, EncodeCell(c)), taken, cells[a := c], t)
  {
    var m', cells' := Store(m, a, EncodeCell(c)), cells[a := c];
    KeepsTree(m, taken, t, a, EncodeCell(c));
    forall b | b in cells' ensures CellOk(m', taken, cells', t, b) {
      if b == a { LoadStored(m, a, EncodeCell(c)); } else {
        assert CellOk(m, taken, cells, t, b) && Room(cells, a, Size(c), b);
        LoadApart(m, a, EncodeCell(c), b, Size(cells[b]));
      }
    }
    forall b, d | b in cells' && d in cells' && b != d ensures CellsBeside(cells', b, d) {
      if b == a { assert Room(cells, a, Size(c), d); }
      else if d == a { assert Room(cells, a, Size(c), b); }
      else { assert CellsBeside(cells, b, d); }
    }
  }

  lemma KeepsTree(m: Mem, taken: seq<Segment>, t: Tree, a: GAddr, bs: seq<Byte>)
    requires Complete(m, t.segs, taken, t.layers, t.es) && OffTree(t, a, |bs|)
    ensures Complete(Store(m, a, bs), t.segs, taken, t.layers, t.es)
  {
    var m' := Store(m, a, bs);
    forall x | x in t.segs && x.k > 0 ensures Linked(m', t.segs, x) {
      assert Linked(m, t.segs, x) && OffLink(t, x, a, |bs|);
      LoadApart(m, a, bs, Gadd(t.segs[Parent(x)], Slot(x.p)), GSIZE);
    }
  }

  /** A new segment changes nothing. */
  lemma Grown(m: Mem, taken: seq<Segment>, taken': seq<Segment>, cells: Cells, t: Tree)
    requires World(m, taken, cells, t) && taken <= taken'
    ensures World(m, taken', cells, t)
  {
    SegmentTaken(m, t.segs, taken, taken', t.layers, t.es, if t.layers <= 1 then 1 else t.layers, 0);
    forall a | a in cells ensures CellOk(m, taken', cells, t, a) {
      assert CellOk(m, taken, cells, t, a);
      var s :| s in taken && Inside(a, Size(cells[a]), s);
      assert s in taken';
    }
  }

  /** A new segment is apart from every structure and from the array. */
  lemma NewApart(m: Mem, taken: seq<Segment>, cells: Cells, t: Tree, a: GAddr, n: nat)
    requires World(m, taken, cells, t) && Fits(a, n, taken)
    ensures forall b :: b in cells ==> Room(cells, a, n, b)
    ensures OffTree(t, a, n)
  {
    forall b | b in cells ensures Room(cells, a, n, b) {
      assert CellOk(m, taken, cells, t, b);
      var s :| s in taken && Inside(b, Size(cells[b]), s);
      InsideApart(taken, a, n, b, Size(cells[b]), s);
    }
    forall x ensures OffLink(t, x, a, n) {
      if x in t.segs && x.k > 0 && Parent(x) in t.segs {
        NewOffLink(m, taken, t, x, a, n);
      }
    }
  }

  lemma InsideApart(taken: seq<Segment>, a: GAddr, n: nat, b: GAddr, k: nat, s: Segment)
    requires Fits(a, n, taken) && s in taken && Inside(b, k, s)
    ensures Apart(a, n, b, k) && Apart(b, k, a, n)
  {
    var i :| 0 <= i < |taken| && taken[i] == s;
    assert FitsBeside(a, n, taken[i]);
  }

  lemma NewOffLink(m: Mem, taken: seq<Segment>, t: Tree, x: Place, a: GAddr, n: nat)
    requires Complete(m, t.segs, taken, t.layers, t.es) && Fits(a, n, taken)
    requires x in t.segs && x.k > 0 && Parent(x) in t.segs
    ensures Apart(Gadd(t.segs[Parent(x)], Slot(x.p)), GSIZE, a, n)
  {
    var p := Parent(x);
    assert InTaken(t.segs, taken, t.layers, t.es, p) && Present(t.segs, x, if t.layers <= 1 then 1 else t.layers, 0);
    InsideApart(taken, a, n, Gadd(t.segs[p], Slot(x.p)), GSIZE, Segment(t.segs[p], SegSize(t.layers, t.es, p.k)));
  }

  lemma NewFits(m: Mem, taken: seq<Segment>, taken': seq<Segment>, cells: Cells, t: Tree, a: GAddr, c: Cell)
    requires World(m, taken, cells, t) && Fits(a, Size(c), taken) && taken' == taken + [Segment(a, Size(c))] && ValidCell(c)
    ensures a !in cells && World(m, taken', cells, t) && World(Store(m, a, EncodeCell(c)), taken', cells[a := c], t)
  {
    NewApart(m, taken, cells, t, a, Size(c));
    assert a in cells ==> Room(cells, a, Size(c), a);
    Grown(m, taken, taken', cells, t);
    assert taken'[|taken|] in taken' && Inside(a, Size(c), taken'[|taken|]);
    Put(m, taken', cells, t, a, c);
  }

  lemma SameFits(m: Mem, taken: seq<Segment>, cells: Cells, t: Tree, a: GAddr, c: Cell)
    requires World(m, taken, cells, t) && a in cells && Size(c) == Size(cells[a]) && ValidCell(c)
    ensures World(Store(m, a, EncodeCell(c)), taken, cells[a := c], t)
  {
    assert CellOk(m, taken, cells, t, a);
    forall b | b in cells && b != a ensures Room(cells, a, Size(c), b) { assert CellsBeside(cells, a, b); }
    Put(m, taken, cells, t, a, c);
  }

  // ---- access ----------------------------------------------------------------------------------------------

  method ReadNode(g: GAlloc, a: GAddr, ghost cells: Cells, ghost t: Tree) returns (c: Cell)
    requires World(g.mem, g.taken, cells, t) && a in cells && cells[a].Node?
    ensures c == cells[a]
  {
    assert CellOk(g.mem, g.taken, cells, t, a);
    NodeRoundTrip(cells[a]);
    var bs := g.Read(a, 0, 32);
    c := DecodeNode(bs);
  }

  method ReadItems(g: GAlloc, a: GAddr, ghost cells: Cells, ghost t: Tree) returns (c: Cell)
    requires World(g.mem, g.taken, cells, t) && a in cells && cells[a].Items?
    ensures c == cells[a]
  {
    assert CellOk(g.mem, g.taken, cells, t, a);
    ItemsRoundTrip(cells[a]);
    var bs := g.Read(a, 0, 48);
    c := DecodeItems(bs);
  }

  method ReadHeader(g: GAlloc, a: GAddr, ghost cells: Cells, ghost t: Tree) returns (c: Cell)
    requires World(g.mem, g.taken, cells, t) && a in cells && cells[a].Header?
    ensures c == cells[a]
  {
    assert CellOk(g.mem, g.taken, cells, t, a);
    HeaderRoundTrip(cells[a]);
    var bs := g.Read(a, 0, GSIZE);
    c := DecodeHeader(bs);
  }

  /** Writes a structure over one of its kind. */
  method Overwrite(g: GAlloc, a: GAddr, c: Cell, ghost cells: Cells, ghost t: Tree)
    requires World(g.mem, g.taken, cells, t) && a in cells && Size(c) == Size(cells[a]) && ValidCell(c)
    modifies g`mem
    ensures World(g.mem, g.taken, cells[a := c], t)
  {
    SameFits(g.mem, g.taken, cells, t, a, c);
    g.Write(a, 0, EncodeCell(c));
  }

  /** Allocates memory for a structure and writes it. */
  method Create(g: GAlloc, c: Cell, ghost cells: Cells, ghost t: Tree) returns (r: Option<GAddr>)
    requires World(g.mem, g.taken, cells, t) && ValidCell(c)
    modifies g
    ensures r.Some? <==> old(g.Answers([Size(c)]))
    ensures r.Some? ==> forall sizes: seq<nat> {:trigger g.Answers(sizes)} :: g.Answers(sizes) <==> old(g.Answers([Size(c)] + sizes))
    ensures r.Some? ==> |g.taken| == old(|g.taken|) + 1
    ensures r.None? ==> World(g.mem, g.taken, cells, t)
    ensures r.Some? ==> r.value !in cells && r.value != NULL && ValidAddr(r.value)
    ensures r.Some? ==> World(g.mem, g.taken, cells[r.value := c], t)
  {
    ghost var taken, plan := g.taken, g.plan;
    r := g.Malloc(Size(c));
    if r.None? { return; }
    forall sizes: seq<nat> ensures Gives(plan[1..], g.taken, sizes) <==> Gives(plan, taken, [Size(c)] + sizes) {
      GivesFirst(plan, taken, Size(c), sizes);
    }
    NewFits(g.mem, taken, g.taken, cells, t, r.value, c);
    g.Write(r.value, 0, EncodeCell(c));
  }
}
