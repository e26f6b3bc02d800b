/** The chains of the hash index: what the nodes and items in memory stand for, and what an insertion
    does to them. */
module HashChains {
  import opened Memory
  import opened HashObjects

  type Key = nat

  /** Of every key: its node, its items from the newest to the oldest, and the pointers inserted for it
      in the order of insertion. owner says whose items a structure is. */
  datatype Rep = Rep(nodeAt: map<Key, GAddr>, lists: map<Key, seq<GAddr>>, owner: map<GAddr, Key>, index: map<Key, seq<GAddr>>)

  /** SLOT_NUM. */
  const SLOTS: nat := 2

  function Chunks(n: nat): (r: nat)
    ensures 2 * r == n || 2 * r == n + 1
  {
    (n + 1) / 2
  }

  function Nth(its: seq<GAddr>, i: nat): GAddr { if i < |its| then its[i] else NULL }

  /** The items hold pointers 2j and, if there is one, 2j + 1. */
  predicate HoldsChunk(c: Cell, ptrs: seq<GAddr>, j: nat) {
    && c.Items? && 2 * j < |ptrs| && c.count == (if 2 * j + 1 < |ptrs| then 2 else 1)
    && c.p0 == ptrs[2 * j] && (2 * j + 1 < |ptrs| ==> c.p1 == ptrs[2 * j + 1])
  }

  predicate ItemOk(cells: Cells, owner: map<GAddr, Key>, its: seq<GAddr>, ptrs: seq<GAddr>, k: Key, i: nat)
    requires i < |its|
  {
    && its[i] in cells && its[i] != NULL && ValidAddr(its[i]) && its[i] in owner && owner[its[i]] == k
    && HoldsChunk(cells[its[i]], ptrs, |its| - 1 - i) && cells[its[i]].next == Nth(its, i + 1)
  }

  /** The items hold the pointers, the newest items first; only those may have a free slot. */
  ghost predicate ListIs(cells: Cells, owner: map<GAddr, Key>, its: seq<GAddr>, ptrs: seq<GAddr>, k: Key) {
    && |ptrs| > 0 && |its| == Chunks(|ptrs|)
    && forall i: nat {:trigger ItemOk(cells, owner, its, ptrs, k, i)} :: i < |its| ==> ItemOk(cells, owner, its, ptrs, k, i)
  }

  ghost predicate ListOk(cells: Cells, rep: Rep, k: Key) {
    k in rep.lists && k in rep.index && ListIs(cells, rep.owner, rep.lists[k], rep.index[k], k)
  }

  predicate NodeOk(cells: Cells, rep: Rep, k: Key, next: GAddr) {
    && k in rep.nodeAt && k in rep.lists && |rep.lists[k]| > 0 && rep.nodeAt[k] in cells && rep.nodeAt[k] != NULL
    && ValidAddr(rep.nodeAt[k]) && cells[rep.nodeAt[k]] == Node(k, next, rep.lists[k][0])
  }

  /** The node of the i-th key of a bucket; null behind the last. */
  function AddrAt(rep: Rep, ks: seq<Key>, i: nat): GAddr {
    if i < |ks| && ks[i] in rep.nodeAt then rep.nodeAt[ks[i]] else NULL
  }

  predicate LinkOk(cells: Cells, rep: Rep, ks: seq<Key>, i: nat)
    requires i < |ks|
  {
    NodeOk(cells, rep, ks[i], AddrAt(rep, ks, i + 1))
  }

  predicate Once(ks: seq<Key>) { forall i, j :: 0 <= i < j < |ks| ==> ks[i] != ks[j] }

  /** From head, the nodes of these keys in this order, each once, up to null. */
  ghost predicate BucketOk(cells: Cells, rep: Rep, head: GAddr, ks: seq<Key>) {
    && head == AddrAt(rep, ks, 0) && Once(ks)
    && forall i: nat {:trigger LinkOk(cells, rep, ks, i)} :: i < |ks| ==> LinkOk(cells, rep, ks, i)
  }

  // ---- what an insertion does ------------------------------------------------------------------------------

  /** A structure the insertion of k into the bucket of keys ks may change. */
  predicate Touched(cells: Cells, rep: Rep, ks: seq<Key>, k: Key, a: GAddr)
    requires a in cells
  {
    (cells[a].Node? && cells[a].key in ks) || (cells[a].Items? && a in rep.owner && rep.owner[a] == k)
  }

  predicate CellKept(cells: Cells, cells': Cells, rep: Rep, rep': Rep, ks: seq<Key>, k: Key, a: GAddr)
    requires a in cells
  {
    && a in cells' && (cells'[a] == cells[a] || (Touched(cells, rep, ks, k, a) && cells'[a].Node? == cells[a].Node? && cells'[a].Items? == cells[a].Items?))
    && (a in rep.owner ==> a in rep'.owner && rep'.owner[a] == rep.owner[a])
  }

  predicate KeyKept(rep: Rep, rep': Rep, k: Key) {
    && (k in rep'.nodeAt <==> k in rep.nodeAt) && (k in rep.nodeAt ==> rep'.nodeAt[k] == rep.nodeAt[k])
    && (k in rep'.lists <==> k in rep.lists) && (k in rep.lists ==> rep'.lists[k] == rep.lists[k])
    && (k in rep'.index <==> k in rep.index) && (k in rep.index ==> rep'.index[k] == rep.index[k])
  }

  function Before(rep: Rep, k: Key): seq<GAddr> { if k in rep.index then rep.index[k] else [] }

  /** ptr is added for k in the bucket of keys ks; other keys keep all they have. */
  ghost predicate Inserted(cells: Cells, rep: Rep, ks: seq<Key>, k: Key, ptr: GAddr, cells': Cells, rep': Rep) {
    && rep'.index == rep.index[k := Before(rep, k) + [ptr]]
    && (forall a {:trigger CellKept(cells, cells', rep, rep', ks, k, a)} :: a in cells ==> CellKept(cells, cells', rep, rep', ks, k, a))
    && (forall j {:trigger KeyKept(rep, rep', j)} :: j != k ==> KeyKept(rep, rep', j))
  }

  /** The pointers of the other keys stay. */
  lemma ListKept(cells: Cells, rep: Rep, ks: seq<Key>, k: Key, ptr: GAddr, cells': Cells, rep': Rep, j: Key)
    requires Inserted(cells, rep, ks, k, ptr, cells', rep') && j != k && ListOk(cells, rep, j)
    ensures ListOk(cells', rep', j)
  {
    assert KeyKept(rep, rep', j);
    var its, ptrs := rep.lists[j], rep.index[j];
    forall i: nat | i < |its| ensures ItemOk(cells', rep'.owner, its, ptrs, j, i) {
      assert ItemOk(cells, rep.owner, its, ptrs, j, i) && CellKept(cells, cells', rep, rep', ks, k, its[i]);
    }
  }

  /** The chains of the other buckets stay. */
  lemma BucketKept(cells: Cells, rep: Rep, ks: seq<Key>, k: Key, ptr: GAddr, cells': Cells, rep': Rep, head: GAddr, others: seq<Key>)
    requires Inserted(cells, rep, ks, k, ptr, cells', rep') && BucketOk(cells, rep, head, others)
    requires k !in others && forall j :: j in others ==> j !in ks
    ensures BucketOk(cells', rep', head, others)
  {
    forall i: nat | i < |others| ensures LinkOk(cells', rep', others, i) && AddrAt(rep', others, i) == AddrAt(rep, others, i) {
      assert LinkOk(cells, rep, others, i) && KeyKept(rep, rep', others[i]);
      if i + 1 < |others| { assert KeyKept(rep, rep', others[i + 1]); }
      assert CellKept(cells, cells', rep, rep', ks, k, rep.nodeAt[others[i]]);
    }
  }

  // ---- the three ways to insert ----------------------------------------------------------------------------

  function WithSecond(c: Cell, ptr: GAddr): Cell
    requires c.Items?
  {
    Items(c.p0, ptr, c.count + 1, c.next)
  }

  /** Into the free slot of the newest items. */
  lemma AddToHead(cells: Cells, rep: Rep, head: GAddr, ks: seq<Key>, k: Key, ptr: GAddr, cells': Cells, rep': Rep)
    requires BucketOk(cells, rep, head, ks) && ListOk(cells, rep, k) && k in ks
    requires rep.lists[k][0] in cells && cells[rep.lists[k][0]].Items? && cells[rep.lists[k][0]].count < SLOTS
    requires cells' == cells[rep.lists[k][0] := WithSecond(cells[rep.lists[k][0]], ptr)]
    requires rep' == rep.(index := rep.index[k := rep.index[k] + [ptr]])
    ensures BucketOk(cells', rep', head, ks) && ListOk(cells', rep', k) && Inserted(cells, rep, ks, k, ptr, cells', rep')
  {
    var its, ptrs, ptrs' := rep.lists[k], rep.index[k], rep.index[k] + [ptr];
    assert ItemOk(cells, rep.owner, its, ptrs, k, 0);
    forall i: nat | i < |its| ensures ItemOk(cells', rep.owner, its, ptrs', k, i) {
      assert ItemOk(cells, rep.owner, its, ptrs, k, i);
    }
    forall i: nat | i < |ks| ensures LinkOk(cells', rep', ks, i) && AddrAt(rep', ks, i) == AddrAt(rep, ks, i) {
      assert LinkOk(cells, rep, ks, i);
    }
  }

  function WithItems(c: Cell, a: GAddr): Cell
    requires c.Node?
  {
    Node(c.key, c.next, a)
  }

  function WithNext(c: Cell, a: GAddr): Cell
    requires c.Node?
  {
    Node(c.key, a, c.items)
  }

  /** The parts of AddChunk's result. */
  predicate NewChunk(cells: Cells, rep: Rep, k: Key, ptr: GAddr, a: GAddr, cells': Cells, rep': Rep) {
    && a !in cells && a != NULL && ValidAddr(a) && k in rep.nodeAt && k in rep.lists && |rep.lists[k]| > 0 && k in rep.index
    && rep.nodeAt[k] in cells && cells[rep.nodeAt[k]].Node?
    && cells' == cells[a := Items(ptr, NULL, 1, rep.lists[k][0])][rep.nodeAt[k] := WithItems(cells[rep.nodeAt[k]], a)]
    && rep' == Rep(rep.nodeAt, rep.lists[k := [a] + rep.lists[k]], rep.owner[a := k], rep.index[k := rep.index[k] + [ptr]])
  }

  lemma ChunkInList(cells: Cells, rep: Rep, k: Key, ptr: GAddr, a: GAddr, cells': Cells, rep': Rep)
    requires ListOk(cells, rep, k) && NewChunk(cells, rep, k, ptr, a, cells', rep')
    requires rep.lists[k][0] in cells && cells[rep.lists[k][0]].Items? && cells[rep.lists[k][0]].count >= SLOTS
    ensures ListOk(cells', rep', k)
  {
    var its, ptrs, its', ptrs' := rep.lists[k], rep.index[k], [a] + rep.lists[k], rep.index[k] + [ptr];
    assert ItemOk(cells, rep.owner, its, ptrs, k, 0);
    forall i: nat | i < |its'| ensures ItemOk(cells', rep'.owner, its', ptrs', k, i) {
      if i > 0 { assert ItemOk(cells, rep.owner, its, ptrs, k, i - 1); }
    }
  }

  /** Into new items before the newest. */
  lemma AddChunk(cells: Cells, rep: Rep, head: GAddr, ks: seq<Key>, k: Key, ptr: GAddr, a: GAddr, cells': Cells, rep': Rep)
    requires BucketOk(cells, rep, head, ks) && ListOk(cells, rep, k) && NewChunk(cells, rep, k, ptr, a, cells', rep') && k in ks
    requires rep.lists[k][0] in cells && cells[rep.lists[k][0]].Items? && cells[rep.lists[k][0]].count >= SLOTS
    ensures BucketOk(cells', rep', head, ks) && ListOk(cells', rep', k) && Inserted(cells, rep, ks, k, ptr, cells', rep')
  {
    ChunkInList(cells, rep, k, ptr, a, cells', rep');
    var at: nat :| at < |ks| && ks[at] == k;
    assert LinkOk(cells, rep, ks, at);
    forall i: nat | i < |ks| ensures LinkOk(cells', rep', ks, i) && AddrAt(rep', ks, i) == AddrAt(rep, ks, i) {
      assert LinkOk(cells, rep, ks, i);
    }
  }

  /** The parts of AddKey's result. */
  predicate NewKey(cells: Cells, rep: Rep, ks: seq<Key>, k: Key, ptr: GAddr, a: GAddr, n: GAddr, mid: Cells, rep': Rep) {
    && a !in cells && a != NULL && ValidAddr(a) && n !in cells && n != NULL && ValidAddr(n) && n != a
    && k !in ks && k !in rep.index
    && mid == cells[a := Items(ptr, NULL, 1, NULL)][n := Node(k, NULL, a)]
    && rep' == Rep(rep.nodeAt[k := n], rep.lists[k := [a]], rep.owner[a := k], rep.index[k := [ptr]])
  }

  /** With the first node of a chain. */
  lemma AddFirst(cells: Cells, rep: Rep, head: GAddr, k: Key, ptr: GAddr, a: GAddr, n: GAddr, cells': Cells, rep': Rep)
    requires BucketOk(cells, rep, head, []) && NewKey(cells, rep, [], k, ptr, a, n, cells', rep')
    ensures head == NULL
    ensures BucketOk(cells', rep', n, [k]) && ListOk(cells', rep', k) && Inserted(cells, rep, [], k, ptr, cells', rep')
  {
    assert Before(rep, k) + [ptr] == [ptr];
    assert ItemOk(cells', rep'.owner, [a], [ptr], k, 0) && LinkOk(cells', rep', [k], 0);
  }

  /** With a new node at the end of a chain. */
  lemma AddLast(cells: Cells, rep: Rep, head: GAddr, ks: seq<Key>, k: Key, ptr: GAddr, a: GAddr, n: GAddr,
                mid: Cells, cells': Cells, rep': Rep)
    requires BucketOk(cells, rep, head, ks) && ks != [] && NewKey(cells, rep, ks, k, ptr, a, n, mid, rep')
    requires var last := AddrAt(rep, ks, |ks| - 1); last in mid && mid[last].Node? && cells' == mid[last := WithNext(mid[last], n)]
    ensures BucketOk(cells', rep', head, ks + [k]) && ListOk(cells', rep', k)
    ensures Inserted(cells, rep, ks, k, ptr, cells', rep')
  {
    var ks', last := ks + [k], AddrAt(rep, ks, |ks| - 1);
    assert LinkOk(cells, rep, ks, |ks| - 1);
    assert Before(rep, k) + [ptr] == [ptr];
    assert ItemOk(cells', rep'.owner, [a], [ptr], k, 0);
    forall i: nat | i < |ks| ensures AddrAt(rep', ks', i) == AddrAt(rep, ks, i) { assert LinkOk(cells, rep, ks, i); }
    forall i: nat | i < |ks'| ensures LinkOk(cells', rep', ks', i) {
      if i < |ks| {
        assert LinkOk(cells, rep, ks, i);
        if i < |ks| - 1 { OtherNode(cells, rep, head, ks, i); }
      }
    }
  }

  lemma OtherNode(cells: Cells, rep: Rep, head: GAddr, ks: seq<Key>, i: nat)
    requires BucketOk(cells, rep, head, ks) && i + 1 < |ks|
    ensures AddrAt(rep, ks, i) != AddrAt(rep, ks, |ks| - 1)
  {
    assert LinkOk(cells, rep, ks, i) && LinkOk(cells, rep, ks, |ks| - 1);
  }

  // ---- the order in which the pointers are found -------------------------------------------------------------

  function Chunk(ptrs: seq<GAddr>, j: nat): seq<GAddr>
    requires 2 * j < |ptrs|
  {
    if 2 * j + 1 < |ptrs| then [ptrs[2 * j], ptrs[2 * j + 1]] else [ptrs[2 * j]]
  }

  /** The pointers of the c oldest items, as an iterator meets them. */
  function Visit(ptrs: seq<GAddr>, c: nat): seq<GAddr>
    requires 2 * c <= |ptrs| + 1
  {
    if c == 0 then [] else Chunk(ptrs, c - 1) + Visit(ptrs, c - 1)
  }

  function Oldest(ptrs: seq<GAddr>, c: nat): seq<GAddr> { if 2 * c <= |ptrs| then ptrs[..2 * c] else ptrs }

  lemma OldestNext(ptrs: seq<GAddr>, c: nat)
    requires 2 * c < |ptrs|
    ensures Oldest(ptrs, c + 1) == Oldest(ptrs, c) + Chunk(ptrs, c)
  {}

  lemma Together<T>(x: seq<T>, y: seq<T>, z: seq<T>, v: seq<T>)
    requires x == y + z && multiset(v) == multiset(y)
    ensures multiset(z + v) == multiset(x)
  {}

  /** The iterator's order has every inserted pointer as often as it was inserted. */
  lemma {:induction false} VisitsEach(ptrs: seq<GAddr>, c: nat)
    requires 2 * c <= |ptrs| + 1
    ensures multiset(Visit(ptrs, c)) == multiset(Oldest(ptrs, c))
  {
    if c == 0 {
      assert Oldest(ptrs, c) == [];
    } else {
      VisitsEach(ptrs, c - 1);
      OldestNext(ptrs, c - 1);
      Together(Oldest(ptrs, c), Oldest(ptrs, c - 1), Chunk(ptrs, c - 1), Visit(ptrs, c - 1));
    }
  }

  lemma VisitsAll(ptrs: seq<GAddr>)
    ensures multiset(Visit(ptrs, Chunks(|ptrs|))) == multiset(ptrs)
  {
    VisitsEach(ptrs, Chunks(|ptrs|));
    assert Oldest(ptrs, Chunks(|ptrs|)) == ptrs;
  }
}
