/** BucketHeader and ItemsIter: one chain of the hash index. */
module HashBuckets {
  import opened Options
  import opened Memory
  import opened HashObjects
  import opened HashChains

  /** Every structure is still there. */
  ghost predicate Extends(cells: Cells, cells': Cells) { forall a :: a in cells ==> a in cells' && cells'[a] == cells[a] }

  lemma AtEnd(cells: Cells, rep: Rep, head: GAddr, ks: seq<Key>, i: nat)
    requires BucketOk(cells, rep, head, ks) && i <= |ks|
    ensures AddrAt(rep, ks, i) == NULL <==> i == |ks|
    ensures i < |ks| ==> LinkOk(cells, rep, ks, i)
  {
    if i < |ks| { assert LinkOk(cells, rep, ks, i); }
  }

  /** The sizes of the memory that the insertion of a pointer for the key asks for: nothing if the key's
      newest items have a free slot, otherwise new items, and a node for a new key. */
  function Needs(rep: Rep, key: Key): seq<nat> {
    if key !in rep.index then [48, 32] else if |rep.index[key]| % 2 == 0 then [48] else []
  }

  class BucketHeader {
    var head: GAddr

    constructor ()
      ensures head == NULL
    {
      head := NULL;
    }

    /** The loop that follows the chain until the key or the end. */
    method Walk(key: Key, g: GAlloc, ghost cells: Cells, ghost rep: Rep, ghost ks: seq<Key>, ghost t: Tree)
      returns (cur: GAddr, prev: GAddr, node: Cell, ghost i: nat)
      requires World(g.mem, g.taken, cells, t) && BucketOk(cells, rep, head, ks)
      ensures i <= |ks| && key !in ks[..i] && cur == AddrAt(rep, ks, i)
      ensures prev == if i == 0 then NULL else AddrAt(rep, ks, i - 1)
      ensures cur != NULL <==> i < |ks|
      ensures cur != NULL ==> ks[i] == key && cur in cells && node == cells[cur] && LinkOk(cells, rep, ks, i)
      ensures prev != NULL <==> i > 0
    {
      cur, prev, i, node := head, NULL, 0, Header(NULL);
      while cur != NULL
        invariant i <= |ks| && key !in ks[..i] && cur == AddrAt(rep, ks, i)
        invariant prev == if i == 0 then NULL else AddrAt(rep, ks, i - 1)
        decreases |ks| - i
      {
        AtEnd(cells, rep, head, ks, i);
        node := ReadNode(g, cur, cells, t);
        if node.key == key { break; }
        assert ks[..i + 1] == ks[..i] + [ks[i]];
        prev := cur;
        cur := node.next;
        i := i + 1;
      }
      AtEnd(cells, rep, head, ks, i);
      if i > 0 { AtEnd(cells, rep, head, ks, i - 1); }
    }

    /** SearchNode. */
    method SearchNode(key: Key, g: GAlloc, ghost cells: Cells, ghost rep: Rep, ghost ks: seq<Key>, ghost t: Tree)
      returns (found: bool, items: GAddr)
      requires World(g.mem, g.taken, cells, t) && BucketOk(cells, rep, head, ks)
      ensures found == (key in ks)
      ensures found ==> key in rep.lists && |rep.lists[key]| > 0 && items == rep.lists[key][0]
    {
      var cur, prev, node;
      ghost var i;
      cur, prev, node, i := Walk(key, g, cells, rep, ks, t);
      found, items := cur != NULL, NULL;
      if found { items := node.items; } else { assert ks[..i] == ks; }
    }

    /** InsertNode; no answer exactly when the allocator does not answer what is needed. */
    method InsertNode(key: Key, ptr: GAddr, g: GAlloc, ghost cells: Cells, ghost rep: Rep, ghost ks: seq<Key>, ghost t: Tree)
      returns (added: Option<bool>, ghost cells': Cells, ghost rep': Rep, ghost ks': seq<Key>)
      requires World(g.mem, g.taken, cells, t) && BucketOk(cells, rep, head, ks) && key < WORD && ValidAddr(ptr)
      requires if key in ks then ListOk(cells, rep, key) else key !in rep.index
      modifies this, g
      ensures World(g.mem, g.taken, cells', t)
      ensures added.Some? <==> old(g.Answers(Needs(rep, key)))
      ensures added.Some? ==> |g.taken| == old(|g.taken|) + |Needs(rep, key)|
      ensures added.None? ==> Extends(cells, cells') && head == old(head)
      ensures added.Some? ==> added.value == (key !in ks) && ks' == if key in ks then ks else ks + [key]
      ensures added.Some? ==> BucketOk(cells', rep', head, ks') && ListOk(cells', rep', key)
      ensures added.Some? ==> Inserted(cells, rep, ks, key, ptr, cells', rep')
    {
      var cur, prev, node;
      ghost var i;
      cur, prev, node, i := Walk(key, g, cells, rep, ks, t);
      if cur != NULL {
        ks' := ks;
        added, cells', rep' := AddPtr(cur, node, key, ptr, g, cells, rep, ks, i, t);
      } else {
        assert ks[..i] == ks;
        ks' := ks + [key];
        added, cells', rep' := AddNode(prev, key, ptr, g, cells, rep, ks, t);
      }
    }

    /** The key has a node: into its newest items, or new ones before them. */
    method AddPtr(cur: GAddr, node: Cell, key: Key, ptr: GAddr, g: GAlloc, ghost cells: Cells, ghost rep: Rep,
                  ghost ks: seq<Key>, ghost i: nat, ghost t: Tree)
      returns (added: Option<bool>, ghost cells': Cells, ghost rep': Rep)
      requires World(g.mem, g.taken, cells, t) && BucketOk(cells, rep, head, ks) && key < WORD && ValidAddr(ptr)
      requires i < |ks| && ks[i] == key && LinkOk(cells, rep, ks, i) && ListOk(cells, rep, key)
      requires cur == AddrAt(rep, ks, i) && cur in cells && node == cells[cur]
      modifies g
      ensures World(g.mem, g.taken, cells', t)
      ensures added.Some? <==> old(g.Answers(Needs(rep, key)))
      ensures added.Some? ==> |g.taken| == old(|g.taken|) + |Needs(rep, key)|
      ensures added.None? ==> Extends(cells, cells')
      ensures added.Some? ==> !added.value && BucketOk(cells', rep', head, ks) && ListOk(cells', rep', key)
      ensures added.Some? ==> Inserted(cells, rep, ks, key, ptr, cells', rep')
    {
      cells', rep' := cells, rep;
      HeadItems(cells, rep, key);
      var items := ReadItems(g, node.items, cells, t);
      assert CellOk(g.mem, g.taken, cells, t, node.items) && CellOk(g.mem, g.taken, cells, t, cur);
      if items.count != SLOTS {
        assert items.count < SLOTS;
        Overwrite(g, node.items, WithSecond(items, ptr), cells, t);
        cells' := cells[node.items := WithSecond(items, ptr)];
        rep' := rep.(index := rep.index[key := rep.index[key] + [ptr]]);
        AddToHead(cells, rep, head, ks, key, ptr, cells', rep');
      } else {
        var r := Create(g, Items(ptr, NULL, 1, node.items), cells, t);
        if r.None? { return None, cells, rep; }
        ghost var mid := cells[r.value := Items(ptr, NULL, 1, node.items)];
        Overwrite(g, cur, WithItems(node, r.value), mid, t);
        cells' := mid[cur := WithItems(node, r.value)];
        rep' := Rep(rep.nodeAt, rep.lists[key := [r.value] + rep.lists[key]], rep.owner[r.value := key], rep.index[key := rep.index[key] + [ptr]]);
        AddChunk(cells, rep, head, ks, key, ptr, r.value, cells', rep');
      }
      added := Some(false);
    }

    /** The key is new: new items, a new node, and the link to it. */
    method AddNode(prev: GAddr, key: Key, ptr: GAddr, g: GAlloc, ghost cells: Cells, ghost rep: Rep, ghost ks: seq<Key>, ghost t: Tree)
      returns (added: Option<bool>, ghost cells': Cells, ghost rep': Rep)
      requires World(g.mem, g.taken, cells, t) && BucketOk(cells, rep, head, ks) && key < WORD && ValidAddr(ptr)
      requires key !in ks && key !in rep.index
      requires prev == if ks == [] then NULL else AddrAt(rep, ks, |ks| - 1)
      requires prev != NULL <==> ks != []
      modifies this, g
      ensures World(g.mem, g.taken, cells', t)
      ensures added.Some? <==> old(g.Answers(Needs(rep, key)))
      ensures added.Some? ==> |g.taken| == old(|g.taken|) + |Needs(rep, key)|
      ensures added.None? ==> Extends(cells, cells') && head == old(head)
      ensures added.Some? ==> added.value && BucketOk(cells', rep', head, ks + [key]) && ListOk(cells', rep', key)
      ensures added.Some? ==> Inserted(cells, rep, ks, key, ptr, cells', rep')
    {
      assert [48] + [32] == [48, 32];
      GivesFirst(g.plan, g.taken, 48, [32]);
      var a := Create(g, Items(ptr, NULL, 1, NULL), cells, t);
      if a.None? { return None, cells, rep; }
      ghost var mid := cells[a.value := Items(ptr, NULL, 1, NULL)];
      var n := Create(g, Node(key, NULL, a.value), mid, t);
      if n.None? { return None, mid, rep; }
      cells' := mid[n.value := Node(key, NULL, a.value)];
      rep' := Rep(rep.nodeAt[key := n.value], rep.lists[key := [a.value]], rep.owner[a.value := key], rep.index[key := [ptr]]);
      assert NewKey(cells, rep, ks, key, ptr, a.value, n.value, cells', rep');
      if prev != NULL {
        AtEnd(cells, rep, head, ks, |ks| - 1);
        mid := cells';
        var node := ReadNode(g, prev, mid, t);
        assert node.next == NULL;
        assert CellOk(g.mem, g.taken, mid, t, prev);
        Overwrite(g, prev, WithNext(node, n.value), mid, t);
        cells' := mid[prev := WithNext(node, n.value)];
        AddLast(cells, rep, head, ks, key, ptr, a.value, n.value, mid, cells', rep');
      } else {
        AddFirst(cells, rep, head, key, ptr, a.value, n.value, cells', rep');
        assert head == NULL;
        assert ks + [key] == [key];
        head := n.value;
      }
      added := Some(true);
    }
  }

  lemma HeadItems(cells: Cells, rep: Rep, k: Key)
    requires ListOk(cells, rep, k)
    ensures |rep.lists[k]| > 0 && rep.lists[k][0] in cells
    ensures HoldsChunk(cells[rep.lists[k][0]], rep.index[k], |rep.lists[k]| - 1)
  {
    assert ItemOk(cells, rep.owner, rep.lists[k], rep.index[k], k, 0);
  }

  /** ItemsIter; rest is what it will still yield. */
  class ItemsIter {
    var itemsAddr: GAddr
    var pos: int
    var items: Cell
    ghost var its: seq<GAddr>
    ghost var ptrs: seq<GAddr>
    /** How many items are not finished. */
    ghost var left: nat
    ghost var rest: seq<GAddr>

    ghost predicate Valid(cells: Cells, owner: map<GAddr, Key>, k: Key)
      reads this
    {
      Reached(cells, owner, its, ptrs, k, left, itemsAddr, items, pos, rest)
    }

    /** At the newest items of a key, or at null. */
    constructor (itemsAddr: GAddr, ghost its: seq<GAddr>, ghost ptrs: seq<GAddr>, ghost cells: Cells, ghost owner: map<GAddr, Key>, ghost k: Key)
      requires itemsAddr == Nth(its, 0)
      requires if its == [] then ptrs == [] else ListIs(cells, owner, its, ptrs, k)
      ensures Valid(cells, owner, k) && rest == Visit(ptrs, Chunks(|ptrs|))
    {
      this.itemsAddr, pos, items := itemsAddr, -1, Header(NULL);
      this.its, this.ptrs, left, rest := its, ptrs, |its|, Visit(ptrs, Chunks(|ptrs|));
    }

    /** GetNext: the next pointer, null after the last. */
    method GetNext(g: GAlloc, ghost cells: Cells, ghost owner: map<GAddr, Key>, ghost k: Key, ghost t: Tree) returns (ret: GAddr)
      requires World(g.mem, g.taken, cells, t) && Valid(cells, owner, k)
      modifies this`itemsAddr, this`pos, this`items, this`left, this`rest
      ensures Valid(cells, owner, k)
      ensures old(rest) == [] ==> ret == NULL && rest == []
      ensures old(rest) != [] ==> ret == old(rest)[0] && rest == old(rest)[1..]
    {
      Stops(cells, owner, its, ptrs, k, left, itemsAddr, items, pos, rest);
      if itemsAddr == NULL { return NULL; }
      if pos < 0 {
        items := ReadItems(g, itemsAddr, cells, t);
        pos := 0;
      }
      ret := Take(cells, owner, k);
    }

    /** The pointer at the current slot; then the next slot, or the next items. */
    method Take(ghost cells: Cells, ghost owner: map<GAddr, Key>, ghost k: Key) returns (ret: GAddr)
      requires itemsAddr != NULL && itemsAddr in cells && items == cells[itemsAddr] && pos >= 0
      requires Valid(cells, owner, k) || (pos == 0 && Reached(cells, owner, its, ptrs, k, left, itemsAddr, items, -1, rest))
      modifies this`itemsAddr, this`pos, this`left, this`rest
      ensures Valid(cells, owner, k) && old(rest) != [] && ret == old(rest)[0] && rest == old(rest)[1..]
    {
      Advance(cells, owner, its, ptrs, k, left, itemsAddr, items, pos, rest);
      assert pos < items.count;
      ret := if pos == 0 then items.p0 else items.p1;
      pos, rest := pos + 1, rest[1..];
      if pos == items.count {
        itemsAddr, pos, left := items.next, -1, left - 1;
      }
    }
  }

  /** The iterator is before the first unfinished items (pos < 0), or inside them. */
  ghost predicate Reached(cells: Cells, owner: map<GAddr, Key>, its: seq<GAddr>, ptrs: seq<GAddr>, k: Key, left: nat, at: GAddr,
                     items: Cell, pos: int, rest: seq<GAddr>) {
    && (if its == [] then ptrs == [] else ListIs(cells, owner, its, ptrs, k))
    && left <= |its| && at == Nth(its, |its| - left) && 2 * left <= |ptrs| + 1
    && (if pos < 0 then rest == Visit(ptrs, left) else InItems(cells, its, ptrs, left, at, items, pos, rest))
  }

  lemma Stops(cells: Cells, owner: map<GAddr, Key>, its: seq<GAddr>, ptrs: seq<GAddr>, k: Key, left: nat, at: GAddr,
              items: Cell, pos: int, rest: seq<GAddr>)
    requires Reached(cells, owner, its, ptrs, k, left, at, items, pos, rest)
    ensures at == NULL <==> rest == []
    ensures at != NULL ==> at in cells && cells[at].Items? && (pos < 0 || items == cells[at])
  {
    EndsAtNull(cells, owner, its, ptrs, k, left);
    if pos >= 0 { Advance(cells, owner, its, ptrs, k, left, at, items, pos, rest); }
  }

  /** The iterator is at slot pos of the first unfinished items. */
  predicate InItems(cells: Cells, its: seq<GAddr>, ptrs: seq<GAddr>, left: nat, at: GAddr, items: Cell, pos: nat, rest: seq<GAddr>) {
    && 0 < left <= |its| && at == Nth(its, |its| - left) && 2 * left <= |ptrs| + 1
    && at in cells && items == cells[at] && items.Items? && pos < items.count && pos <= |Chunk(ptrs, left - 1)|
    && rest == Chunk(ptrs, left - 1)[pos..] + Visit(ptrs, left - 1)
  }

  lemma Advance(cells: Cells, owner: map<GAddr, Key>, its: seq<GAddr>, ptrs: seq<GAddr>, k: Key, left: nat, at: GAddr, items: Cell,
                pos: nat, rest: seq<GAddr>)
    requires at != NULL && at in cells && cells[at] == items
    requires Reached(cells, owner, its, ptrs, k, left, at, items, pos, rest)
      || (pos == 0 && Reached(cells, owner, its, ptrs, k, left, at, items, -1, rest))
    ensures left > 0 && items.Items? && pos < items.count && rest != [] && rest[0] == if pos == 0 then items.p0 else items.p1
    ensures pos + 1 == items.count ==> Reached(cells, owner, its, ptrs, k, left - 1, items.next, items, -1, rest[1..])
    ensures pos + 1 < items.count ==> Reached(cells, owner, its, ptrs, k, left, at, items, pos + 1, rest[1..])
  {
    assert ItemOk(cells, owner, its, ptrs, k, |its| - left);
    var c := Chunk(ptrs, left - 1);
    assert c[0..] == c;
    assert rest == c[pos..] + Visit(ptrs, left - 1);
    assert c[pos..] == [c[pos]] + c[pos + 1..];
  }

  lemma EndsAtNull(cells: Cells, owner: map<GAddr, Key>, its: seq<GAddr>, ptrs: seq<GAddr>, k: Key, left: nat)
    requires if its == [] then ptrs == [] else ListIs(cells, owner, its, ptrs, k)
    requires left <= |its| && 2 * left <= |ptrs| + 1
    ensures Nth(its, |its| - left) == NULL <==> left == 0
    ensures left > 0 ==> ItemOk(cells, owner, its, ptrs, k, |its| - left)
    ensures Visit(ptrs, left) == [] <==> left == 0
  {
    if left > 0 { assert ItemOk(cells, owner, its, ptrs, k, |its| - left); }
  }
}
