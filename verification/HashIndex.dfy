/** The hash index refines a multimap: of every key, the pointers inserted for it, in order. */
module HashIndex {
  import opened Options
  import opened Memory
  import opened Words
  import opened RadixArray
  import opened HashObjects
  import opened HashChains
  import opened HashBuckets

  /** Hash. */
  function BucketOf(k: Key, n: nat): (b: nat)
    requires n > 0
    ensures b < n
  {
    k % n
  }

  predicate InBucket(rep: Rep, n: nat, b: nat, k: Key) { k in rep.index && n > 0 && BucketOf(k, n) == b }

  /** Bucket b has its header in memory, and the keys of its chain belong to it. */
  ghost predicate BucketAt(cells: Cells, rep: Rep, hdrs: seq<GAddr>, order: seq<seq<Key>>, b: nat)
    requires b < |hdrs| == |order|
  {
    && hdrs[b] in cells && cells[hdrs[b]].Header? && BucketOk(cells, rep, cells[hdrs[b]].head, order[b])
    && forall k {:trigger InBucket(rep, |hdrs|, b, k)} :: k in order[b] ==> InBucket(rep, |hdrs|, b, k)
  }

  /** Every key of the index has its pointers, and is in the chain of its bucket. */
  ghost predicate Listed(cells: Cells, rep: Rep, order: seq<seq<Key>>, k: Key) {
    ListOk(cells, rep, k) && |order| > 0 && k in order[BucketOf(k, |order|)]
  }

  predicate Distinct(hdrs: seq<GAddr>) { forall i, j :: 0 <= i < j < |hdrs| ==> hdrs[i] != hdrs[j] }

  ghost predicate IndexOk(cells: Cells, rep: Rep, hdrs: seq<GAddr>, order: seq<seq<Key>>) {
    && |hdrs| == |order| && Distinct(hdrs)
    && (forall b: nat {:trigger BucketAt(cells, rep, hdrs, order, b)} :: b < |hdrs| ==> BucketAt(cells, rep, hdrs, order, b))
    && (forall k {:trigger Listed(cells, rep, order, k)} :: k in rep.index ==> Listed(cells, rep, order, k))
  }

  /** New structures change nothing. */
  lemma ExtendedOk(cells: Cells, cells': Cells, rep: Rep, hdrs: seq<GAddr>, order: seq<seq<Key>>)
    requires IndexOk(cells, rep, hdrs, order) && Extends(cells, cells')
    ensures IndexOk(cells', rep, hdrs, order)
  {
    forall b: nat | b < |hdrs| ensures BucketAt(cells', rep, hdrs, order, b) {
      assert BucketAt(cells, rep, hdrs, order, b);
      SameChain(cells, cells', rep, cells[hdrs[b]].head, order[b]);
    }
    forall k | k in rep.index ensures Listed(cells', rep, order, k) {
      assert Listed(cells, rep, order, k);
      SameList(cells, cells', rep, k);
    }
  }

  /** Only headers change. */
  ghost predicate HeadersOnly(cells: Cells, cells': Cells) {
    forall a :: a in cells && !cells[a].Header? ==> a in cells' && cells'[a] == cells[a]
  }

  lemma SameChain(cells: Cells, cells': Cells, rep: Rep, head: GAddr, ks: seq<Key>)
    requires BucketOk(cells, rep, head, ks) && HeadersOnly(cells, cells')
    ensures BucketOk(cells', rep, head, ks)
  {
    forall i: nat | i < |ks| ensures LinkOk(cells', rep, ks, i) { assert LinkOk(cells, rep, ks, i); }
  }

  lemma SameList(cells: Cells, cells': Cells, rep: Rep, k: Key)
    requires ListOk(cells, rep, k) && HeadersOnly(cells, cells')
    ensures ListOk(cells', rep, k)
  {
    var its, ptrs := rep.lists[k], rep.index[k];
    forall i: nat | i < |its| ensures ItemOk(cells', rep.owner, its, ptrs, k, i) { assert ItemOk(cells, rep.owner, its, ptrs, k, i); }
  }

  /** An insertion into the chain of the key's bucket, and the header written back. */
  lemma InsertedOk(cells: Cells, rep: Rep, hdrs: seq<GAddr>, order: seq<seq<Key>>, k: Key, ptr: GAddr,
                   mid: Cells, rep': Rep, ks': seq<Key>, head': GAddr)
    requires IndexOk(cells, rep, hdrs, order) && |hdrs| > 0
    requires var b := BucketOf(k, |hdrs|);
      Inserted(cells, rep, order[b], k, ptr, mid, rep') && ks' == (if k in order[b] then order[b] else order[b] + [k])
    requires BucketOk(mid, rep', head', ks') && ListOk(mid, rep', k)
    ensures var b := BucketOf(k, |hdrs|);
      IndexOk(mid[hdrs[b] := Header(head')], rep', hdrs, order[b := ks'])
  {
    var n, b := |hdrs|, BucketOf(k, |hdrs|);
    var cells', order', ks := mid[hdrs[b] := Header(head')], order[b := ks'], order[b];
    assert BucketAt(cells, rep, hdrs, order, b) && CellKept(cells, mid, rep, rep', ks, k, hdrs[b]);
    forall c: nat | c < n ensures BucketAt(cells', rep', hdrs, order', c) {
      assert BucketAt(cells, rep, hdrs, order, c);
      assert CellKept(cells, mid, rep, rep', ks, k, hdrs[c]);
      if c == b {
        SameChain(mid, cells', rep', head', ks');
      } else {
        OtherBucket(cells, rep, hdrs, order, b, c, k);
        BucketKept(cells, rep, ks, k, ptr, mid, rep', cells[hdrs[c]].head, order[c]);
        SameChain(mid, cells', rep', cells[hdrs[c]].head, order[c]);
      }
      forall j | j in order'[c] ensures InBucket(rep', n, c, j) { assert j != k ==> InBucket(rep, n, c, j); }
    }
    forall j | j in rep'.index ensures Listed(cells', rep', order', j) {
      if j != k {
        assert Listed(cells, rep, order, j);
        ListKept(cells, rep, ks, k, ptr, mid, rep', j);
      }
      SameList(mid, cells', rep', j);
    }
  }

  lemma OtherBucket(cells: Cells, rep: Rep, hdrs: seq<GAddr>, order: seq<seq<Key>>, b: nat, c: nat, k: Key)
    requires IndexOk(cells, rep, hdrs, order) && b < |hdrs| && c < |hdrs| && b != c && BucketOf(k, |hdrs|) == b
    ensures k !in order[c] && forall j :: j in order[c] ==> j !in order[b]
  {
    assert BucketAt(cells, rep, hdrs, order, b) && BucketAt(cells, rep, hdrs, order, c);
    forall j | j in order[c] ensures j !in order[b] && j != k {
      assert InBucket(rep, |hdrs|, c, j);
      assert j in order[b] ==> InBucket(rep, |hdrs|, b, j);
    }
  }

  /** The key's bucket has the key exactly when the index does. */
  lemma KeyInBucket(cells: Cells, rep: Rep, hdrs: seq<GAddr>, order: seq<seq<Key>>, k: Key)
    requires IndexOk(cells, rep, hdrs, order) && |hdrs| > 0
    ensures k in rep.index <==> k in order[BucketOf(k, |hdrs|)]
    ensures k in rep.index ==> ListOk(cells, rep, k)
    ensures BucketAt(cells, rep, hdrs, order, BucketOf(k, |hdrs|))
  {
    var b := BucketOf(k, |hdrs|);
    assert BucketAt(cells, rep, hdrs, order, b);
    assert k in order[b] ==> InBucket(rep, |hdrs|, b, k);
    assert k in rep.index ==> Listed(cells, rep, order, k);
  }

  // ---- the headers in the array ------------------------------------------------------------------------------

  /** Element b of the array is the header of bucket b. */
  predicate HeaderAt(t: Tree, hdrs: seq<GAddr>, b: nat)
    requires b < |hdrs|
  {
    Holder(t.layers, b) in t.segs && hdrs[b] == ElementAt(t.segs, t.layers, GSIZE, b)
  }

  ghost predicate HeadersAt(t: Tree, hdrs: seq<GAddr>) {
    && t.es == GSIZE && |hdrs| <= Pow(t.layers)
    && forall b: nat {:trigger HeaderAt(t, hdrs, b)} :: b < |hdrs| ==> HeaderAt(t, hdrs, b)
  }

  /** An element is in allocated memory and not on an address of the array. */
  lemma ElementFree(m: Mem, taken: seq<Segment>, t: Tree, b: nat)
    requires Complete(m, t.segs, taken, t.layers, t.es) && t.es == GSIZE && b < Pow(t.layers)
    ensures Holder(t.layers, b) in t.segs
    ensures var e := ElementAt(t.segs, t.layers, GSIZE, b);
      Owned(taken, e, GSIZE) && OffTree(t, e, GSIZE) && ValidAddr(e)
  {
    ElementInside(m, t.segs, taken, t.layers, t.es, b);
    var h, e := Holder(t.layers, b), ElementAt(t.segs, t.layers, GSIZE, b);
    assert InTaken(t.segs, taken, t.layers, t.es, h);
    var s := Segment(t.segs[h], SegSize(t.layers, t.es, h.k));
    assert s in taken && HashObjects.Inside(e, GSIZE, s);
    SegmentValid(m, taken, t, h);
    forall x ensures OffLink(t, x, e, GSIZE) {
      if x in t.segs && x.k > 0 && Parent(x) in t.segs { LinkOff(m, taken, t, x, h, RadixArray.Cell(b, GSIZE)); }
    }
  }

  lemma SegmentValid(m: Mem, taken: seq<Segment>, t: Tree, h: Place)
    requires Complete(m, t.segs, taken, t.layers, t.es) && h in t.segs
    ensures ValidAddr(t.segs[h]) && t.segs[h].addr + SegSize(t.layers, t.es, h.k) <= WORD
  {
    assert InTaken(t.segs, taken, t.layers, t.es, h);
  }

  lemma LinkOff(m: Mem, taken: seq<Segment>, t: Tree, x: Place, h: Place, off: nat)
    requires Complete(m, t.segs, taken, t.layers, t.es) && h in t.segs && x in t.segs && x.k > 0 && Parent(x) in t.segs
    requires h.k == if t.layers == 0 then 0 else t.layers - 1
    requires off + GSIZE <= SegSize(t.layers, t.es, h.k)
    ensures Apart(Gadd(t.segs[Parent(x)], Slot(x.p)), GSIZE, Gadd(t.segs[h], off), GSIZE)
  {
    var p := Parent(x);
    assert Present(t.segs, x, if t.layers <= 1 then 1 else t.layers, 0);
    assert Beside(t.segs, t.layers, t.es, p, h);
    ApartInside(t.segs[p], SegSize(t.layers, t.es, p.k), t.segs[h], SegSize(t.layers, t.es, h.k), Slot(x.p), off, GSIZE);
  }

  /** The headers of the first buckets are written. */
  lemma HeaderPut(m: Mem, taken: seq<Segment>, cells: Cells, t: Tree, hdrs: seq<GAddr>, i: nat)
    requires World(m, taken, cells, t) && HeadersAt(t, hdrs) && i == |hdrs| < Pow(t.layers) && Distinct(hdrs)
    requires forall a :: a in cells ==> a in hdrs && cells[a] == Header(NULL)
    ensures Holder(t.layers, i) in t.segs
    ensures var e := ElementAt(t.segs, t.layers, GSIZE, i);
      World(Store(m, e, EncodeAddr(NULL)), taken, cells[e := Header(NULL)], t) && HeadersAt(t, hdrs + [e]) && Distinct(hdrs + [e])
  {
    ElementFree(m, taken, t, i);
    var e := ElementAt(t.segs, t.layers, GSIZE, i);
    forall b: nat | b < |hdrs| ensures Apart(e, GSIZE, hdrs[b], GSIZE) {
      assert HeaderAt(t, hdrs, b);
      ElementsApart(m, t.segs, taken, t.layers, t.es, i, b);
    }
    forall a | a in cells && a != e ensures Room(cells, e, Size(Header(NULL)), a) {
      var b :| 0 <= b < |hdrs| && hdrs[b] == a;
    }
    Put(m, taken, cells, t, e, Header(NULL));
    var hdrs' := hdrs + [e];
    forall b: nat | b < |hdrs'| ensures HeaderAt(t, hdrs', b) { if b < i { assert HeaderAt(t, hdrs, b); } }
  }

  lemma EmptyWorld(m: Mem, taken: seq<Segment>, t: Tree)
    requires Complete(m, t.segs, taken, t.layers, t.es)
    ensures World(m, taken, map[], t)
  {}

  lemma EmptyIndex(cells: Cells, hdrs: seq<GAddr>, order: seq<seq<Key>>)
    requires |order| == |hdrs| && Distinct(hdrs) && (forall b :: 0 <= b < |hdrs| ==> order[b] == [])
    requires forall b :: 0 <= b < |hdrs| ==> hdrs[b] in cells && cells[hdrs[b]] == Header(NULL)
    ensures IndexOk(cells, Rep(map[], map[], map[], map[]), hdrs, order)
  {
    var rep := Rep(map[], map[], map[], map[]);
    forall b: nat | b < |hdrs| ensures BucketAt(cells, rep, hdrs, order, b) { assert order[b] == []; }
  }

  /** The pointer SearchRecord finds among those inserted for a key: the first of the newest items. */
  function Found(ptrs: seq<GAddr>): GAddr
    requires |ptrs| > 0
  {
    ptrs[2 * (Chunks(|ptrs|) - 1)]
  }

  /** Only every second insertion for a key changes what SearchRecord finds. */
  lemma FoundNext(ptrs: seq<GAddr>, ptr: GAddr)
    ensures Found(ptrs + [ptr]) == if |ptrs| % 2 == 0 then ptr else Found(ptrs)
  {
    assert Chunks(|ptrs| + 1) == if |ptrs| % 2 == 0 then Chunks(|ptrs|) + 1 else Chunks(|ptrs|);
  }

  /** SearchRecord finds the latest pointer of a key exactly after an odd number of insertions, when the
      last two differ. */
  lemma FoundIsLatest(ptrs: seq<GAddr>)
    requires |ptrs| > 0 && (|ptrs| > 1 ==> ptrs[|ptrs| - 2] != ptrs[|ptrs| - 1])
    ensures Found(ptrs) == ptrs[|ptrs| - 1] <==> |ptrs| % 2 == 1
  {
    assert 2 * (Chunks(|ptrs|) - 1) == if |ptrs| % 2 == 1 then |ptrs| - 1 else |ptrs| - 2;
  }

  /** What is serialized of an index: its array and its counts. */
  datatype IndexHeader = IndexHeader(buckets: ArrayHeader, bucketsCount: nat, recordCount: nat)

  /** GetSerializeSize. */
  const INDEX_SIZE: nat := ARRAY_SIZE + 8 * 2

  predicate ValidIndexHeader(h: IndexHeader) { ValidArrayHeader(h.buckets) && h.bucketsCount < WORD && h.recordCount < WORD }

  function IndexWords(h: IndexHeader): seq<nat> { ArrayWords(h.buckets) + [h.bucketsCount] + [h.recordCount] }

  function IndexBytes(h: IndexHeader): seq<Byte> { EncodeAddr(h.buckets.root) + Bytes(IndexWords(h)) }

  /** Memory determines what was serialized. */
  lemma {:induction false} HeaderUnique(h: IndexHeader, k: IndexHeader)
    requires ValidIndexHeader(h) && ValidIndexHeader(k) && IndexBytes(h) == IndexBytes(k)
    ensures h == k
  {
    AddrRoundTrip(h.buckets.root);
    AddrRoundTrip(k.buckets.root);
    assert IndexBytes(h)[..GSIZE] == EncodeAddr(h.buckets.root) && IndexBytes(k)[..GSIZE] == EncodeAddr(k.buckets.root);
    assert IndexBytes(h)[GSIZE..] == Bytes(IndexWords(h)) && IndexBytes(k)[GSIZE..] == Bytes(IndexWords(k));
    NumbersOf(IndexWords(h));
    NumbersOf(IndexWords(k));
    IndexWordsUnique(h, k);
  }

  lemma IndexWordsUnique(h: IndexHeader, k: IndexHeader)
    requires ValidIndexHeader(h) && ValidIndexHeader(k) && IndexWords(h) == IndexWords(k)
    ensures h == k.(buckets := k.buckets.(root := h.buckets.root))
  {
    var x, y, a, b := IndexWords(h), IndexWords(k), h.buckets, k.buckets;
    assert x[0] == a.arraySize && x[1] == a.elementSize && x[2..6] == a.layerSize && x[6] == a.layers;
    assert y[0] == b.arraySize && y[1] == b.elementSize && y[2..6] == b.layerSize && y[6] == b.layers;
    assert x[7] == h.bucketsCount && x[8] == h.recordCount && y[7] == k.bucketsCount && y[8] == k.recordCount;
  }

  class HashIndex {
    var buckets: GAddrArray
    var bucketsCount: nat
    var recordCount: nat
    ghost var cells: Cells
    ghost var rep: Rep
    ghost var hdrs: seq<GAddr>
    ghost var order: seq<seq<Key>>

    constructor ()
      ensures bucketsCount == 0 && fresh(buckets)
    {
      buckets := new GAddrArray();
      bucketsCount, recordCount := 0, 0;
      cells, rep, hdrs, order := map[], Rep(map[], map[], map[], map[]), [], [];
    }

    ghost function Array(): Tree
      reads this, buckets
    {
      Tree(buckets.segs, buckets.layers, buckets.elementSize)
    }

    /** The index is in the memory of g. */
    ghost predicate Valid(g: GAlloc)
      reads this, buckets, g
    {
      && buckets.Sized() && buckets.Rooted() && buckets.arraySize == bucketsCount == |hdrs|
      && World(g.mem, g.taken, cells, Array()) && HeadersAt(Array(), hdrs) && IndexOk(cells, rep, hdrs, order)
    }

    /** Init; not ok exactly when the allocator does not answer what is needed. */
    method Init(count: nat, g: GAlloc) returns (ok: bool)
      requires count <= Pow(3)
      modifies this, buckets, g
      ensures buckets == old(buckets)
      ensures ok <==> Gives(old(g.plan), old(g.taken), Needed(buckets.layers, GSIZE))
      ensures buckets.Sized() && buckets.arraySize == count
      ensures ok ==> Valid(g) && bucketsCount == count && rep.index == map[] && recordCount == 0
    {
      bucketsCount, recordCount := count, 0;
      ok := buckets.Init(count, GSIZE, g);
      if !ok { return; }
      WriteHeaders(g);
      order := seq(count, i => []);
      rep := Rep(map[], map[], map[], map[]);
      EmptyIndex(cells, hdrs, order);
    }

    /** The loop of Init that writes empty headers. */
    method WriteHeaders(g: GAlloc)
      requires buckets.Ready(g.mem, g.taken) && buckets.arraySize == bucketsCount && buckets.elementSize == GSIZE
      modifies this`cells, this`hdrs, g
      ensures g.taken == old(g.taken)
      ensures World(g.mem, g.taken, cells, Array()) && HeadersAt(Array(), hdrs) && |hdrs| == bucketsCount && Distinct(hdrs)
      ensures forall b :: 0 <= b < |hdrs| ==> hdrs[b] in cells && cells[hdrs[b]] == Header(NULL)
    {
      ghost var cs: Cells, hs: seq<GAddr>, t := map[], [], Array();
      EmptyWorld(g.mem, g.taken, t);
      var i, n := 0, bucketsCount;
      while i < n
        invariant i == |hs| <= n && Distinct(hs) && g.taken == old(g.taken)
        invariant World(g.mem, g.taken, cs, t) && HeadersAt(t, hs)
        invariant forall a :: a in cs ==> a in hs && cs[a] == Header(NULL)
        invariant forall b :: 0 <= b < |hs| ==> hs[b] in cs
      {
        var header := new BucketHeader();
        HeaderPut(g.mem, g.taken, cs, t, hs, i);
        var a := buckets.GetElement(i, g);
        g.Write(a, 0, EncodeAddr(header.head));
        cs, hs := cs[a := Header(NULL)], hs + [a];
        i := i + 1;
      }
      cells, hdrs := cs, hs;
    }

    function Value(): IndexHeader
      reads this, buckets
    {
      IndexHeader(buckets.Value(), bucketsCount, recordCount)
    }

    method Serialize(addr: GAddr, g: GAlloc)
      requires ValidIndexHeader(Value())
      modifies g`mem
      ensures g.mem == Store(old(g.mem), addr, IndexBytes(Value()))
    {
      ghost var m, bs, ws := g.mem, EncodeAddr(buckets.root), ArrayWords(buckets.Value());
      buckets.Serialize(addr, g);
      var off := ARRAY_SIZE;
      Append(g, addr, off, [bucketsCount], m, bs, ws);
      off := off + 8;
      Append(g, addr, off, [recordCount], m, bs, ws + [bucketsCount]);
    }

    /** Reads what was serialized as h. */
    method Deserialize(addr: GAddr, g: GAlloc, ghost h: IndexHeader)
      requires ValidIndexHeader(h) && Load(g.mem, addr, INDEX_SIZE) == IndexBytes(h)
      modifies `bucketsCount, `recordCount, buckets`root, buckets`arraySize, buckets`elementSize, buckets`layerSize, buckets`layers
      ensures Value() == h
    {
      ghost var bs, ws := EncodeAddr(h.buckets.root), IndexWords(h);
      ArrayPart(g.mem, addr, h);
      buckets.Deserialize(addr, g, h.buckets);
      var off := ARRAY_SIZE;
      var count := Get(g, addr, off, 1, bs, ws, 7);
      off := off + 8;
      var records := Get(g, addr, off, 1, bs, ws, 8);
      bucketsCount, recordCount := count[0], records[0];
    }

    /** An index read from memory is the index that was serialized there: it stands for the same records. */
    ghost method Adopt(from: HashIndex, g: GAlloc)
      requires from.Valid(g) && Value() == from.Value() && from.buckets != buckets && from != this
      modifies `cells, `rep, `hdrs, `order, buckets`segs
      ensures Valid(g) && rep.index == from.rep.index
    {
      cells, rep, hdrs, order := from.cells, from.rep, from.hdrs, from.order;
      buckets.segs := from.buckets.segs;
    }

    /** InsertRecord; no answer exactly when the allocator does not answer what is needed. */
    method InsertRecord(key: Key, ptr: GAddr, g: GAlloc) returns (added: Option<bool>)
      requires Valid(g) && bucketsCount > 0 && key < WORD && ValidAddr(ptr)
      modifies this`cells, this`rep, this`order, this`recordCount, g
      ensures Valid(g)
      ensures added.Some? <==> old(g.Answers(Needs(rep, key)))
      ensures added.Some? ==> |g.taken| == old(|g.taken| + |Needs(rep, key)|)
      ensures added.Some? ==> added.value == (key !in old(rep.index)) && recordCount == old(recordCount) + 1
      ensures added.Some? ==> rep.index == old(rep.index)[key := Before(old(rep), key) + [ptr]]
      ensures added.None? ==> rep.index == old(rep.index) && recordCount == old(recordCount)
    {
      var header, at := OpenBucket(key, g);
      ghost var cells', rep', order';
      added, cells', rep', order' := InsertInto(header, at, key, ptr, g, cells, rep, hdrs, order, Array());
      cells, rep, order, recordCount := cells', rep', order', if added.Some? then recordCount + 1 else recordCount;
    }

    /** Finds the header of the key's bucket and deserializes it. */
    method OpenBucket(key: Key, g: GAlloc) returns (header: BucketHeader, at: GAddr)
      requires Valid(g) && bucketsCount > 0
      ensures fresh(header) && at == hdrs[BucketOf(key, bucketsCount)]
      ensures BucketAt(cells, rep, hdrs, order, BucketOf(key, bucketsCount))
      ensures cells[at] == Header(header.head)
      ensures key in rep.index <==> key in order[BucketOf(key, bucketsCount)]
      ensures key in rep.index ==> ListOk(cells, rep, key)
    {
      KeyInBucket(cells, rep, hdrs, order, key);
      var b := BucketOf(key, bucketsCount);
      assert HeaderAt(Array(), hdrs, b);
      at := buckets.GetElement(b, g);
      header := new BucketHeader();
      var c := ReadHeader(g, at, cells, Array());
      header.head := c.head;
    }

    /** SearchRecord. */
    method SearchRecord(key: Key, g: GAlloc) returns (ptr: GAddr)
      requires Valid(g) && bucketsCount > 0
      ensures key !in rep.index ==> ptr == NULL
      ensures key in rep.index ==> |rep.index[key]| > 0 && ptr == Found(rep.index[key])
    {
      var header, at := OpenBucket(key, g);
      var found, list := header.SearchNode(key, g, cells, rep, order[BucketOf(key, bucketsCount)], Array());
      if !found { return NULL; }
      HeadItems(cells, rep, key);
      var items := ReadItems(g, list, cells, Array());
      ptr := items.p0;
    }
  }

  lemma ArrayPart(m: Mem, addr: GAddr, h: IndexHeader)
    requires ValidIndexHeader(h) && Load(m, addr, INDEX_SIZE) == IndexBytes(h)
    ensures Load(m, addr, ARRAY_SIZE) == ArrayBytes(h.buckets)
  {
    LoadPart(m, addr, INDEX_SIZE, 0, ARRAY_SIZE);
    BytesSplit(ArrayWords(h.buckets), [h.bucketsCount] + [h.recordCount]);
    assert IndexWords(h) == ArrayWords(h.buckets) + ([h.bucketsCount] + [h.recordCount]);
    assert Load(m, Gadd(addr, 0), ARRAY_SIZE) == Load(m, addr, ARRAY_SIZE);
  }

  /** The part of InsertRecord between reading the header and writing it back. */
  method InsertInto(header: BucketHeader, at: GAddr, key: Key, ptr: GAddr, g: GAlloc, ghost cells: Cells, ghost rep: Rep,
                    ghost hdrs: seq<GAddr>, ghost order: seq<seq<Key>>, ghost t: Tree)
    returns (added: Option<bool>, ghost cells': Cells, ghost rep': Rep, ghost order': seq<seq<Key>>)
    requires World(g.mem, g.taken, cells, t) && IndexOk(cells, rep, hdrs, order) && |hdrs| > 0 && key < WORD && ValidAddr(ptr)
    requires at == hdrs[BucketOf(key, |hdrs|)] && at in cells && cells[at] == Header(header.head)
    modifies header, g
    ensures World(g.mem, g.taken, cells', t) && IndexOk(cells', rep', hdrs, order')
    ensures added.Some? <==> old(g.Answers(Needs(rep, key)))
    ensures added.Some? ==> |g.taken| == old(|g.taken|) + |Needs(rep, key)|
    ensures added.Some? ==> added.value == (key !in rep.index) && rep'.index == rep.index[key := Before(rep, key) + [ptr]]
    ensures added.None? ==> rep' == rep
  {
    ghost var b := BucketOf(key, |hdrs|);
    KeyInBucket(cells, rep, hdrs, order, key);
    ghost var mid, ks';
    added, mid, rep', ks' := header.InsertNode(key, ptr, g, cells, rep, order[b], t);
    if added.None? {
      ExtendedOk(cells, mid, rep, hdrs, order);
      return None, mid, rep, order;
    }
    InsertedOk(cells, rep, hdrs, order, key, ptr, mid, rep', ks', header.head);
    assert CellKept(cells, mid, rep, rep', order[b], key, at);
    WriteBack(g, at, header.head, mid, rep', ks', t);
    cells', order' := mid[at := Header(header.head)], order[b := ks'];
  }

  /** The header of a bucket is serialized. */
  method WriteBack(g: GAlloc, at: GAddr, head: GAddr, ghost cells: Cells, ghost rep: Rep, ghost ks: seq<Key>, ghost t: Tree)
    requires World(g.mem, g.taken, cells, t) && at in cells && cells[at].Header? && BucketOk(cells, rep, head, ks)
    modifies g`mem
    ensures World(g.mem, g.taken, cells[at := Header(head)], t)
  {
    if ks != [] { assert LinkOk(cells, rep, ks, 0); }
    Overwrite(g, at, Header(head), cells, t);
  }
}
