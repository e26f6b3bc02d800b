/** The tree of btree.h: nodes in a heap, changed in place, reached from the root. */
module BTree {
  import opened Options
  import opened BTreeShape
  import opened BTreeMoves
  import opened BTreeOrder
  import opened BTreeSearch
  import opened BTreeInsert
  import opened BTreeSteps
  import opened BTreeNodes
  import opened BTreeRoom

  // ---- searching one node -----------------------------------------------------------------------------

  /** linear_search_impl with a plain comparison. */
  method LinearSearch(keys: seq<int>, k: int) returns (s: nat)
    requires Sorted(keys)
    ensures IsLower(keys, k, s)
  {
    s := 0;
    while s < |keys|
      invariant s <= |keys| && forall j :: 0 <= j < s ==> keys[j] < k
    {
      if !(keys[s] < k) { break; }
      s := s + 1;
    }
  }

  /** binary_search_impl with a plain comparison: the same position. */
  method BinarySearch(keys: seq<int>, k: int) returns (s: nat)
    requires Sorted(keys)
    ensures IsLower(keys, k, s)
  {
    s := 0;
    var e := |keys|;
    while s != e
      invariant s <= e <= |keys|
      invariant forall j :: 0 <= j < s ==> keys[j] < k
      invariant forall j :: e <= j < |keys| ==> k <= keys[j]
    {
      var mid := (s + e) / 2;
      if keys[mid] < k { s := mid + 1; } else { e := mid; }
    }
  }

  class Tree {
    /** kNodeValues. */
    const most: nat
    /** Whether nodes are searched linearly. */
    const linear: bool
    var nodes: Heap
    var root: Id
    var rightmost: Id
    var size: nat
    /** The allocator's next node. */
    var next: Id

    /** Links, counts and the two outermost leaves are right; only the hole may be empty. */
    ghost predicate Linked(hole: Hole)
      reads this
    {
      && most >= 3 && Sizes(most, nodes, root, hole) && Edges(nodes, root, rightmost)
      && forall n :: n in nodes ==> n < next
    }

    /** The keys of the tree in order. */
    ghost function Contents(): seq<int>
      reads this
    {
      if size == 0 || root !in nodes then [] else InOrder(nodes, root, nodes[root].lvl)
    }

    ghost predicate Valid()
      reads this
    {
      && most >= 3 && |Contents()| == size && Sorted(Contents())
      && (size > 0 ==> Linked(NoHole))
      && forall n :: n in nodes ==> n < next
    }

    constructor (most: nat, linear: bool)
      requires most >= 3
      ensures Valid() && Contents() == [] && this.most == most
    {
      this.most, this.linear := most, linear;
      nodes, root, rightmost, size, next := map[], 0, 0, 0, 0;
    }

    // ---- making room ------------------------------------------------------------------------------------

    /** Full node n shares with its left sibling, if that one has room; more of n goes there when the
        key is to be put at n's end. */
    method ShareWithLeft(n: Id, i: nat) returns (done: bool, n': Id, i': nat)
      requires Linked(NoHole) && n in nodes && n != root && |nodes[n].keys| == most && i <= most
      modifies this`nodes
      ensures done <==> LeftTakes(most, old(nodes), n, i)
      ensures done ==> LeftShared(most, old(nodes), root, n, i, nodes, n', i')
      ensures done ==> var l := Sibling(old(nodes), n, -1);
        l in nodes && |nodes[l].keys| == |old(nodes)[l].keys| + Moves(most - |old(nodes)[l].keys|, i < most)
      ensures !done ==> nodes == old(nodes)
    {
      done, n', i' := false, n, i;
      HasParent(most, nodes, root, n);
      LeftDecides(most, nodes, root, n, i);
      if nodes[n].pos > 0 {
        var left := nodes[nodes[n].parent].kids[nodes[n].pos - 1];
        var count := |nodes[left].keys|;
        if count < most {
          var m := Moves(most - count, i < most);
          if i >= m || count + m < most {
            n', i' := GiveLeft(n, left, i, m);
            done := true;
          }
        }
      }
    }

    /** Full node n shares with its right sibling, if that one has room. */
    method ShareWithRight(n: Id, i: nat) returns (done: bool, n': Id, i': nat)
      requires Linked(NoHole) && n in nodes && n != root && |nodes[n].keys| == most && i <= most
      modifies this`nodes
      ensures done <==> RightTakes(most, old(nodes), n, i)
      ensures done ==> RightShared(most, old(nodes), root, n, i, nodes, n', i')
      ensures done ==> var r := Sibling(old(nodes), n, 1);
        r in nodes && |nodes[r].keys| == |old(nodes)[r].keys| + Moves(most - |old(nodes)[r].keys|, i > 0)
      ensures !done ==> nodes == old(nodes)
    {
      done, n', i' := false, n, i;
      HasParent(most, nodes, root, n);
      RightDecides(most, nodes, root, n, i);
      if nodes[n].pos < |nodes[nodes[n].parent].keys| {
        var right := nodes[nodes[n].parent].kids[nodes[n].pos + 1];
        var count := |nodes[right].keys|;
        if count < most {
          var m := Moves(most - count, i > 0);
          if i <= most - m || count + m < most {
            n', i' := GiveRight(n, right, i, m);
            done := true;
          }
        }
      }
    }

    /** The move to the left and the new place. */
    method GiveLeft(n: Id, left: Id, i: nat, m: nat) returns (n': Id, i': nat)
      requires Linked(NoHole) && n in nodes && n != root && |nodes[n].keys| == most && i <= most && Siblings(nodes, root, left, n)
      requires 0 < |nodes[left].keys| && 1 <= m <= most - |nodes[left].keys| && (i >= m || |nodes[left].keys| + m < most)
      modifies this`nodes
      ensures LeftShared(most, old(nodes), root, n, i, nodes, n', i')
      ensures left in nodes && |nodes[left].keys| == |old(nodes)[left].keys| + m
    {
      n', i' := n, i;
      LeftCount(nodes, root, left, n, |nodes[left].keys| + m);
      nodes := RightToLeft(nodes, root, left, n, m);
      if i >= m { i' := i - m; } else { n', i' := left, i + |nodes[left].keys| + 1 - m; }
    }

    /** The move to the right and the new place. */
    method GiveRight(n: Id, right: Id, i: nat, m: nat) returns (n': Id, i': nat)
      requires Linked(NoHole) && n in nodes && n != root && |nodes[n].keys| == most && i <= most && Siblings(nodes, root, n, right)
      requires 0 < |nodes[right].keys| && 1 <= m <= most - |nodes[right].keys| && (i <= most - m || |nodes[right].keys| + m < most)
      modifies this`nodes
      ensures RightShared(most, old(nodes), root, n, i, nodes, n', i')
      ensures right in nodes && |nodes[right].keys| == |old(nodes)[right].keys| + m
    {
      n', i' := n, i;
      LeftCount(nodes, root, n, right, most - m);
      nodes := LeftToRight(nodes, root, n, right, m);
      if i > |nodes[n].keys| { n', i' := right, i - |nodes[n].keys| - 1; }
    }

    /** A new root above the old one. */
    method GrowRoot()
      requires Linked(NoHole) && nodes[root].max == most
      modifies this`nodes, this`root, this`next
      ensures next == old(next) + 1
      ensures root == old(next) && nodes == Taller(old(nodes), old(root), root, most)
      ensures Linked(Hole(root))
    {
      TallerWhole(most, nodes, root, next, rightmost);
      TallerIs(nodes, root, next, most);
      var top := next;
      next := next + 1;
      nodes := nodes[top := Node(nodes[root].lvl + 1, most, [], [], nodes[root].parent, 0)];
      nodes := InitChild(nodes, top, 0, root);
      root := top;
    }

    /** Splits the full node n, whose parent has room. */
    method SplitUnder(n: Id, i: nat, ghost hole: Hole) returns (n': Id, i': nat)
      requires Linked(hole) && n in nodes && n != root && |nodes[n].keys| == most && nodes[n].max == most && i <= most
      requires nodes[n].parent in nodes && |nodes[nodes[n].parent].keys| < most && (hole.NoHole? || hole == Hole(nodes[n].parent))
      modifies this`nodes, this`rightmost, this`next
      ensures Linked(Hole(n')) && next == old(next) + 1
      ensures var c := Kept(most, i, most);
        && CanSplit(old(nodes), root, n, old(next), c) && nodes == Split(old(nodes), n, old(next), c)
        && (if i <= c then n' == n && i' == i else n' == old(next) && i' == i - c - 1)
    {
      SplitDone(most, nodes, root, n, next, i, hole, rightmost);
      var d := next;
      next := next + 1;
      nodes := SplitNode(nodes, root, n, d, i, most);
      n', i' := n, i;
      if i > |nodes[n].keys| { n', i' := d, i - |nodes[n].keys| - 1; }
      if nodes[n].lvl == 0 && rightmost == n { rightmost := d; }
    }

    /** Before n is split: its parent is given room, or a new root is made. */
    method RoomAbove(n: Id) returns (ghost hole: Hole)
      requires Linked(NoHole) && n in nodes && |nodes[n].keys| == most && nodes[n].max == most
      modifies this`nodes, this`root, this`rightmost, this`next
      ensures Linked(hole) && Ready(most, old(nodes), old(root), n, nodes, root, hole)
      ensures next >= old(next)
      ensures n != old(root) && old(nodes[n].parent in nodes) && old(|nodes[nodes[n].parent].keys|) < most ==>
        nodes == old(nodes) && next == old(next)
      decreases nodes[root].lvl - nodes[n].lvl, 0
    {
      ghost var t0, root0 := nodes, root;
      hole := NoHole;
      if n != root {
        HasParent(most, nodes, root, n);
        LeavesSame(t0, root0);
        ParentLevels(most, nodes, root, n);
        var parent := nodes[n].parent;
        if |nodes[parent].keys| == most {
          var pn, pi := RebalanceOrSplit(parent, nodes[n].pos);
          ParentRoom(most, t0, root0, n, nodes, root, pn, pi);
          hole := Hole(pn);
        }
      } else {
        TallerWhole(most, nodes, root, next, rightmost);
        GrowRoot();
        hole := Hole(root);
      }
    }

    /** rebalance_or_split: gives the full node n, where position i is to be filled, room, by sharing
        with a sibling or by splitting, after making room in the parent. */
    method RebalanceOrSplit(n: Id, i: nat) returns (n': Id, i': nat)
      requires Linked(NoHole) && n in nodes && |nodes[n].keys| == most && nodes[n].max == most && i <= most
      modifies this`nodes, this`root, this`rightmost, this`next
      ensures Linked(Hole(n'))
      ensures Room(most, old(nodes), old(root), n, i, nodes, root, n', i')
      ensures n != old(root) && LeftTakes(most, old(nodes), n, i) ==>
        LeftShared(most, old(nodes), root, n, i, nodes, n', i') && next == old(next)
      ensures n != old(root) && !LeftTakes(most, old(nodes), n, i) && RightTakes(most, old(nodes), n, i) ==>
        RightShared(most, old(nodes), root, n, i, nodes, n', i') && next == old(next)
      ensures n == old(root) || !(LeftTakes(most, old(nodes), n, i) || RightTakes(most, old(nodes), n, i)) ==> next > old(next)
      decreases nodes[root].lvl - nodes[n].lvl, 1
    {
      ghost var t0, root0 := nodes, root;
      if n != root {
        var done: bool;
        done, n', i' := ShareWithLeft(n, i);
        if done {
          LeftSharedRoom(most, t0, root, n, i, nodes, n', i', rightmost);
          return;
        }
        done, n', i' := ShareWithRight(n, i);
        if done {
          RightSharedRoom(most, t0, root, n, i, nodes, n', i', rightmost);
          return;
        }
      }
      ghost var hole := RoomAbove(n);
      ghost var t, root1, d := nodes, root, next;
      n', i' := SplitUnder(n, i, hole);
      SplitRoom(most, t0, root0, t, root1, n, d, Kept(most, i, most), i, n', i');
    }

    // ---- searching -------------------------------------------------------------------------------------

    method LowerBoundInNode(n: Id, k: int) returns (i: nat)
      requires n in nodes && Sorted(nodes[n].keys)
      ensures IsLower(nodes[n].keys, k, i)
    {
      if linear { i := LinearSearch(nodes[n].keys, k); } else { i := BinarySearch(nodes[n].keys, k); }
    }

    /** internal_locate with a plain comparison: the leaf and position where k belongs. */
    method Locate(k: int) returns (n: Id, i: nat)
      requires Shape(nodes, root) && Sorted(InOrder(nodes, root, nodes[root].lvl))
      ensures Leaf(nodes, n) && OnPath(nodes, root, n, k) && IsLower(nodes[n].keys, k, i)
    {
      n := root;
      NodeSorted(nodes, root, n, k);
      i := LowerBoundInNode(n, k);
      while nodes[n].lvl > 0
        invariant n in nodes && OnPath(nodes, root, n, k) && IsLower(nodes[n].keys, k, i)
        decreases nodes[n].lvl
      {
        KidOnPath(nodes, root, n, k, i);
        n := nodes[n].kids[i];
        NodeSorted(nodes, root, n, k);
        i := LowerBoundInNode(n, k);
      }
    }

    /** internal_last: from past the end of a node up to the key that follows it. */
    method Last(n0: Id, i0: nat) returns (at: Option<(Id, nat)>)
      requires Shape(nodes, root) && n0 in nodes && i0 <= |nodes[n0].keys| && Leaf(nodes, nodes[root].parent)
      ensures at == Next(nodes, root, n0, i0, nodes[root].lvl)
    {
      var n: Id, i: nat := n0, i0;
      ghost var fuel: nat := nodes[root].lvl;
      while i == |nodes[n].keys|
        invariant n in nodes && i <= |nodes[n].keys| && fuel >= nodes[root].lvl - nodes[n].lvl
        invariant Next(nodes, root, n, i, fuel) == Next(nodes, root, n0, i0, nodes[root].lvl)
        decreases nodes[root].lvl - nodes[n].lvl
      {
        UpStep(nodes, root, n);
        i := nodes[n].pos;
        n := nodes[n].parent;
        if nodes[n].lvl == 0 { return None; }
        fuel := fuel - 1;
      }
      return Some((n, i));
    }

    /** internal_lower_bound: the first key that is not less than k. */
    method LowerBound(k: int) returns (at: Option<(Id, nat)>)
      requires Valid() && size > 0
      ensures KeyAt(nodes, at) == NotLess(Contents(), k)
      ensures k in Contents() <==> KeyAt(nodes, at) == Some(k)
    {
      var n, i := Locate(k);
      at := Last(n, i);
      NextIsNotLess(nodes, root, n, i, k);
      NotLessIs(Contents(), k);
    }

    // ---- inserting -----------------------------------------------------------------------------------------

    /** A full root leaf smaller than a node is replaced by one twice the size. */
    method GrowLeaf()
      requires Linked(NoHole) && nodes[root].lvl == 0 && nodes[root].max < most
      modifies this`nodes, this`root, this`rightmost, this`next
      ensures Linked(NoHole) && Leaf(nodes, root) && nodes[root].keys == old(nodes[root].keys)
      ensures nodes[root].max == if 2 * old(nodes[root].max) < most then 2 * old(nodes[root].max) else most
      ensures nodes[root].max > old(nodes[root].max)
      ensures forall i: nat :: i <= |nodes[root].keys| ==> SamePlace(old(nodes), old(root), old(root), i, nodes, root, root, i)
    {
      OnlyRoot(nodes, root);
      assert SizeOk(most, nodes, root, NoHole, root);
      var max := if 2 * nodes[root].max < most then 2 * nodes[root].max else most;
      var n := next;
      next := next + 1;
      nodes := map[n := Node(0, max, nodes[root].keys, [], n, 0)];
      root := n;
      rightmost := n;
    }

    /** Room in a leaf for one more key, in internal_emplace. */
    method MakeRoom(n0: Id, i0: nat) returns (n: Id, i: nat)
      requires Linked(if size == 0 then Hole(n0) else NoHole) && Leaf(nodes, n0) && i0 <= |nodes[n0].keys|
      requires size == 0 ==> nodes[n0].keys == []
      modifies this`nodes, this`root, this`rightmost, this`next
      ensures Linked(Hole(n)) && Leaf(nodes, n) && i <= |nodes[n].keys| < nodes[n].max
      ensures SamePlace(old(nodes), old(root), n0, i0, nodes, root, n, i)
      ensures old(|nodes[n0].keys| < nodes[n0].max) ==> nodes == old(nodes) && root == old(root) && next == old(next)
    {
      n, i := n0, i0;
      FullLeaf(most, nodes, root, n, if size == 0 then Hole(n0) else NoHole);
      if |nodes[n].keys| == nodes[n].max {
        if nodes[n].max < most {
          GrowLeaf();
          n := root;
          SizesWeaken(most, nodes, root, n);
          assert SizeOk(most, nodes, root, NoHole, root);
        } else {
          n, i := RebalanceOrSplit(n, i);
        }
      } else if size != 0 {
        SizesWeaken(most, nodes, root, n);
      }
    }

    /** internal_emplace at a leaf position. */
    method Emplace(n0: Id, i0: nat, k: int) returns (n: Id, i: nat)
      requires Linked(if size == 0 then Hole(n0) else NoHole) && Leaf(nodes, n0) && i0 <= |nodes[n0].keys|
      requires size == 0 ==> nodes[n0].keys == []
      modifies this`nodes, this`root, this`rightmost, this`next, this`size
      ensures Linked(NoHole) && size == old(size) + 1
      ensures InOrder(nodes, root, nodes[root].lvl) == InOrder(Put(old(nodes), n0, i0, k), old(root), old(nodes[root].lvl))
      ensures n in nodes && i < |nodes[n].keys| && nodes[n].keys[i] == k
    {
      n, i := MakeRoom(n0, i0);
      PutWhole(most, nodes, root, n, i, k, rightmost);
      var keys := EmplaceValue(nodes[n].keys, i, k);
      nodes := nodes[n := nodes[n].(keys := keys)];
      size := size + 1;
    }

    /** new_leaf_root_node: the first node of an empty tree. */
    method Plant()
      requires most >= 3 && size == 0
      modifies this`nodes, this`root, this`rightmost, this`next
      ensures nodes == map[root := Node(0, 1, [], [], root, 0)] && root == rightmost == old(next) && next == root + 1
    {
      root := next;
      rightmost := next;
      nodes := map[next := Node(0, 1, [], [], next, 0)];
      next := next + 1;
    }

    /** insert_unique: puts k in its place unless it is there, and says where it is. */
    method InsertUnique(k: int) returns (n: Id, i: nat, inserted: bool)
      requires Valid()
      modifies this`nodes, this`root, this`rightmost, this`next, this`size
      ensures Valid()
      ensures inserted <==> k !in old(Contents())
      ensures Contents() == if inserted then Ins(old(Contents()), k) else old(Contents())
      ensures n in nodes && i < |nodes[n].keys| && nodes[n].keys[i] == k
    {
      ghost var before := Contents();
      if size == 0 {
        Plant();
        Planted(most, nodes, root);
      }
      ghost var hole := if size == 0 then Hole(root) else NoHole;
      assert Linked(hole) && InOrder(nodes, root, nodes[root].lvl) == before;
      n, i := Locate(k);
      var last := Last(n, i);
      Located(nodes, root, n, i, k, before);
      if last.Some? && !(k < nodes[last.value.0].keys[last.value.1]) {
        return last.value.0, last.value.1, false;
      }
      n, i := Emplace(n, i, k);
      inserted := true;
    }
  }

  lemma Planted(most: nat, t: Heap, root: Id)
    requires most >= 3 && t == map[root := Node(0, 1, [], [], root, 0)]
    ensures Shape(t, root) && Sizes(most, t, root, Hole(root)) && Edges(t, root, root) && InOrder(t, root, 0) == []
  {}

  /** What the end of a search says about k. */
  lemma Located(t: Heap, root: Id, n: Id, i: nat, k: int, s: seq<int>)
    requires Shape(t, root) && Leaf(t, n) && OnPath(t, root, n, k) && IsLower(t[n].keys, k, i)
    requires s == InOrder(t, root, t[root].lvl) && Sorted(s)
    ensures var at := Next(t, root, n, i, t[root].lvl);
      && (at.Some? ==> at.value.0 in t && at.value.1 < |t[at.value.0].keys| && k <= t[at.value.0].keys[at.value.1])
      && (k in s <==> at.Some? && t[at.value.0].keys[at.value.1] == k)
    ensures InOrder(Put(t, n, i, k), root, t[root].lvl) == Ins(s, k)
    ensures k !in s ==> Sorted(Ins(s, k)) && |Ins(s, k)| == |s| + 1
  {
    NextIsNotLess(t, root, n, i, k);
    NextIn(t, root, n, i, t[root].lvl);
    NotLessIs(s, k);
    NotLessAtLeast(s, k);
    PutInPlace(t, root, n, i, k);
    if k !in s {
      InsSorted(s, k);
      InsAdds(s, k);
    }
  }

  lemma {:induction false} NotLessAtLeast(s: seq<int>, k: int)
    ensures NotLess(s, k).Some? ==> k <= NotLess(s, k).value
  {
    if s != [] && k > s[0] { NotLessAtLeast(s[1..], k); }
  }

  lemma {:induction false} NextIn(t: Heap, root: Id, n: Id, i: nat, fuel: nat)
    ensures var at := Next(t, root, n, i, fuel); at.Some? ==> at.value.0 in t && at.value.1 < |t[at.value.0].keys|
    decreases fuel
  {
    if n in t && i >= |t[n].keys| && n != root && fuel > 0 { NextIn(t, root, t[n].parent, t[n].pos, fuel - 1); }
  }

  /** emplace_value among the keys of a leaf: the later ones move up, the last one first. */
  method EmplaceValue(keys: seq<int>, i: nat, k: int) returns (s: seq<int>)
    requires i <= |keys|
    ensures s == keys[..i] + [k] + keys[i..]
  {
    s := keys;
    if i < |keys| {
      s := s + [s[|keys| - 1]];
      var j := |keys| - 1;
      while j > i
        invariant i <= j < |keys| && |s| == |keys| + 1
        invariant s[..j + 1] == keys[..j + 1] && s[j + 1..] == keys[j..]
      {
        ghost var was := s;
        assert was[j - 1] == was[..j + 1][j - 1] == keys[j - 1];
        s := s[j := s[j - 1]];
        assert s[j..] == [keys[j - 1]] + was[j + 1..] && keys[j - 1..] == [keys[j - 1]] + keys[j..];
        assert s[..j] == was[..j + 1][..j];
        j := j - 1;
      }
      ghost var was := s;
      s := s[i := k];
      assert s == was[..i] + [k] + was[i + 1..];
    } else {
      s := s + [k];
    }
  }

  // ---- lemmas about searching -----------------------------------------------------------------------------

  lemma {:induction false} KeysSorted(keys: seq<int>, parts: seq<seq<int>>, i: nat, j: nat)
    requires |parts| == |keys| + 1 && Sorted(Weave(keys, parts)) && i < j < |keys|
    ensures keys[i] < keys[j]
    decreases j
  {
    WeaveAt(keys, parts, j);
    HeadsLast(keys[..j], parts[..j]);
    var h, c := Heads(keys[..j], parts[..j]), Tails(keys[j..], parts[j + 1..]);
    var s := h + parts[j] + c;
    assert s[|h| - 1] == keys[j - 1] && s[|h| + |parts[j]|] == keys[j];
    if i < j - 1 { KeysSorted(keys, parts, i, j - 1); }
  }

  lemma NodeSorted(t: Heap, root: Id, n: Id, k: int)
    requires Shape(t, root) && n in t && OnPath(t, root, n, k) && Sorted(InOrder(t, root, t[root].lvl))
    ensures Sorted(t[n].keys)
  {
    PathSorted(t, root, n, k);
    assert Down(t, root, n);
    if t[n].lvl > 0 {
      forall i, j | 0 <= i < j < |t[n].keys| ensures t[n].keys[i] < t[n].keys[j] {
        KeysSorted(t[n].keys, Parts(t, t[n].kids, t[n].lvl - 1), i, j);
      }
    }
  }

  lemma KidOnPath(t: Heap, root: Id, n: Id, k: int, i: nat)
    requires Shape(t, root) && n in t && OnPath(t, root, n, k) && t[n].lvl > 0 && IsLower(t[n].keys, k, i)
    ensures i < |t[n].kids| && t[n].kids[i] in t && t[t[n].kids[i]].lvl + 1 == t[n].lvl && OnPath(t, root, t[n].kids[i], k)
  {
    assert Down(t, root, n);
    assert Child(t, root, n, i);
  }

  lemma UpStep(t: Heap, root: Id, n: Id)
    requires Shape(t, root) && n in t && Leaf(t, t[root].parent)
    ensures t[n].parent in t && (n == root ==> t[t[n].parent].lvl == 0)
    ensures n != root ==> t[t[n].parent].lvl == t[n].lvl + 1 <= t[root].lvl && t[n].pos <= |t[t[n].parent].keys|
  {
    assert Up(t, root, n);
    if n != root { assert Up(t, root, t[n].parent) && Down(t, root, t[n].parent); }
  }

  // ---- lemmas about inserting ---------------------------------------------------------------------------------

  lemma OnlyRoot(t: Heap, root: Id)
    requires Shape(t, root) && t[root].lvl == 0
    ensures t.Keys == {root}
  {
    forall n | n in t ensures n == root { assert Up(t, root, n); }
  }

  /** A leaf that is full is a whole node, or the only node. */
  lemma FullLeaf(most: nat, t: Heap, root: Id, n: Id, hole: Hole)
    requires Sizes(most, t, root, hole) && Leaf(t, n)
    ensures 1 <= t[n].max <= most && |t[n].keys| <= t[n].max && (t[n].max < most ==> n == root)
  {
    assert SizeOk(most, t, root, hole, n);
  }

  lemma SizesWeaken(most: nat, t: Heap, root: Id, n: Id)
    requires Sizes(most, t, root, NoHole)
    ensures Sizes(most, t, root, Hole(n))
  {
    forall m | m in t ensures SizeOk(most, t, root, Hole(n), m) {
      assert SizeOk(most, t, root, NoHole, m);
    }
  }

  /** The key fills the hole. */
  lemma PutWhole(most: nat, t: Heap, root: Id, n: Id, i: nat, k: int, rightmost: Id)
    requires Sizes(most, t, root, Hole(n)) && Edges(t, root, rightmost) && Leaf(t, n) && i <= |t[n].keys| < t[n].max
    ensures var t' := t[n := t[n].(keys := t[n].keys[..i] + [k] + t[n].keys[i..])];
      t' == Put(t, n, i, k) && Sizes(most, t', root, NoHole) && Edges(t', root, rightmost)
  {
    var t' := Put(t, n, i, k);
    PutShape(t, root, n, i, k);
    forall m | m in t' ensures SizeOk(most, t', root, NoHole, m) { assert SizeOk(most, t, root, Hole(n), m); }
    PutEdges(t, root, n, i, k, rightmost);
    PutEdges(t, root, n, i, k, t[root].parent);
  }

  lemma {:induction false} PutEdges(t: Heap, root: Id, j: Id, i: nat, k: int, n: Id)
    requires Shape(t, root) && Leaf(t, j) && n in t
    ensures RightEdge(t, root, n) ==> RightEdge(Put(t, j, i, k), root, n)
    ensures LeftEdge(t, root, n) ==> LeftEdge(Put(t, j, i, k), root, n)
    decreases t[root].lvl - t[n].lvl
  {
    if n != root {
      EdgeUp(t, root, n);
      PutShape(t, root, j, i, k);
      EdgeUp(Put(t, j, i, k), root, n);
      PutEdges(t, root, j, i, k, t[n].parent);
    }
  }

  /** n, full, can be split: from t0 to t its parent was given room. */
  ghost predicate Ready(most: nat, t0: Heap, root0: Id, n: Id, t: Heap, root: Id, hole: Hole) {
    && n in t0 && n in t && n != root && SameBody(t0[n], t[n]) && t[n].parent in t && |t[t[n].parent].keys| < most
    && (hole.NoHole? || hole == Hole(t[n].parent))
    && LeavesKept(t0, root0, t, root) && SameBodiesBelow(t0, t, t0[n].lvl)
  }

  lemma ParentLevels(most: nat, t: Heap, root: Id, n: Id)
    requires Shape(t, root) && Sizes(most, t, root, NoHole) && n in t && n != root
    ensures var p := t[n].parent; p in t && t[n].lvl < t[p].lvl <= t[root].lvl && t[p].max == most && |t[p].keys| <= most
  {
    assert Up(t, root, n) && Up(t, root, t[n].parent);
    assert SizeOk(most, t, root, NoHole, t[n].parent);
  }

  lemma TallerIs(t: Heap, root: Id, top: Id, most: nat)
    requires root in t && top !in t
    ensures InitChild(t[top := Node(t[root].lvl + 1, most, [], [], t[root].parent, 0)], top, 0, root) == Taller(t, root, top, most)
  {
    assert [] + [root] == [root];
  }

  lemma HasParent(most: nat, t: Heap, root: Id, n: Id)
    requires Shape(t, root) && Sizes(most, t, root, NoHole) && n in t && n != root
    ensures var p := t[n].parent;
      && p in t && |t[p].kids| == |t[p].keys| + 1 && t[n].pos < |t[p].kids|
      && (t[n].pos > 0 ==> var l := t[p].kids[t[n].pos - 1]; l in t && Siblings(t, root, l, n) && 0 < |t[l].keys|)
      && (t[n].pos < |t[p].keys| ==> var r := t[p].kids[t[n].pos + 1]; r in t && Siblings(t, root, n, r) && 0 < |t[r].keys|)
  {
    var p := t[n].parent;
    assert Up(t, root, n) && Down(t, root, p);
    if t[n].pos > 0 {
      assert Child(t, root, p, t[n].pos - 1);
      assert SizeOk(most, t, root, NoHole, t[p].kids[t[n].pos - 1]);
    }
    if t[n].pos < |t[p].keys| {
      assert Child(t, root, p, t[n].pos + 1);
      assert SizeOk(most, t, root, NoHole, t[p].kids[t[n].pos + 1]);
    }
  }

  /** Siblings l and r, of which one is full, may share so that l has c keys and the position i of
      node n, one of them, becomes i' of n'. */
  ghost predicate Shares(most: nat, t: Heap, root: Id, l: Id, r: Id, c: nat, n: Id, i: nat, n': Id, i': nat) {
    && Siblings(t, root, l, r) && (n == l || n == r) && 0 < |t[l].keys| && 0 < |t[r].keys| && i <= |t[n].keys|
    && 0 < c <= most && c < |t[l].keys| + |t[r].keys| <= c + most
    && (if n' == l then c < most else |t[l].keys| + |t[r].keys| - c < most)
    && (if Joint(t, l, n, i) <= c then n' == l && i' == Joint(t, l, n, i) else n' == r && i' == Joint(t, l, n, i) - c - 1)
  }

  lemma SharesRoom(most: nat, t: Heap, root: Id, l: Id, r: Id, c: nat, n: Id, i: nat, n': Id, i': nat)
    requires Shape(t, root) && Shares(most, t, root, l, r, c, n, i, n', i') && t[l].max == t[r].max == most
    ensures CanShare(t, root, l, r, c) && Room(most, t, root, n, i, Share(t, l, r, c), root, n', i')
  {
    SharePossible(t, root, l, r, c);
    ShareRoom(most, t, root, l, r, c, n, i, n', i');
  }

  lemma SharesWhole(most: nat, t: Heap, root: Id, l: Id, r: Id, c: nat, n: Id, i: nat, n': Id, i': nat, rightmost: Id)
    requires Sizes(most, t, root, NoHole) && Edges(t, root, rightmost) && Shares(most, t, root, l, r, c, n, i, n', i')
    ensures CanShare(t, root, l, r, c) && t[l].max == t[r].max == most
    ensures Sizes(most, Share(t, l, r, c), root, Hole(n')) && Edges(Share(t, l, r, c), root, rightmost)
    ensures Share(t, l, r, c).Keys == t.Keys
  {
    SharePossible(t, root, l, r, c);
    ShareBody(t, root, l, r, c, l);
    assert SizeOk(most, t, root, NoHole, l) && SizeOk(most, t, root, NoHole, r);
    ShareWhole(most, t, root, l, r, c, n', rightmost);
  }

  lemma LeftCount(t: Heap, root: Id, l: Id, r: Id, c: nat)
    requires Shape(t, root) && Siblings(t, root, l, r) && c <= |t[l].keys| + |t[r].keys|
    ensures CanShare(t, root, l, r, c) && l in Share(t, l, r, c) && |Share(t, l, r, c)[l].keys| == c
  {
    SharePossible(t, root, l, r, c);
    ShareBody(t, root, l, r, c, l);
    MovedAt(t, root, l, r, c, l);
  }

  /** n gave keys to its left sibling. */
  ghost predicate LeftShared(most: nat, t: Heap, root: Id, n: Id, i: nat, t': Heap, n': Id, i': nat) {
    exists l, c :: Shares(most, t, root, l, n, c, n, i, n', i') && CanShare(t, root, l, n, c) && t' == Share(t, l, n, c)
  }

  /** The sibling of n before it (-1) or after it (1); n itself where there is none. */
  function Sibling(t: Heap, n: Id, side: int): Id
    requires n in t
  {
    if t[n].parent in t && 0 <= t[n].pos + side < |t[t[n].parent].kids| then t[t[n].parent].kids[t[n].pos + side] else n
  }

  /** A sibling with this many keys takes some: it has room for two, or for one that leaves the key to be
      inserted on the full side a place. */
  predicate Spare(most: nat, count: nat, aside: bool) { count + 1 < most || (count + 1 == most && aside) }

  /** The full node n, where position i is to be filled, gives keys to its left sibling. */
  predicate LeftTakes(most: nat, t: Heap, n: Id, i: nat) {
    n in t && Sibling(t, n, -1) != n && Sibling(t, n, -1) in t && Spare(most, |t[Sibling(t, n, -1)].keys|, i > 0)
  }

  predicate RightTakes(most: nat, t: Heap, n: Id, i: nat) {
    n in t && Sibling(t, n, 1) != n && Sibling(t, n, 1) in t && Spare(most, |t[Sibling(t, n, 1)].keys|, i < most)
  }

  /** The test of the code, in terms of how many keys it would move. */
  lemma SpareMeans(most: nat, count: nat, i: nat)
    requires count < most && i <= most
    ensures Spare(most, count, i > 0) <==> i >= Moves(most - count, i < most) || count + Moves(most - count, i < most) < most
    ensures Spare(most, count, i < most) <==> i <= most - Moves(most - count, i > 0) || count + Moves(most - count, i > 0) < most
  {}

  lemma LeftDecides(most: nat, t: Heap, root: Id, n: Id, i: nat)
    requires Shape(t, root) && Sizes(most, t, root, NoHole) && n in t && n != root && i <= most
    ensures t[n].parent in t && t[n].pos < |t[t[n].parent].kids|
    ensures t[n].pos == 0 ==> !LeftTakes(most, t, n, i)
    ensures t[n].pos > 0 ==> var l := t[t[n].parent].kids[t[n].pos - 1];
      Sibling(t, n, -1) == l && l in t && (LeftTakes(most, t, n, i) <==> Spare(most, |t[l].keys|, i > 0))
    ensures t[n].pos > 0 ==> var count := |t[t[t[n].parent].kids[t[n].pos - 1]].keys|;
      LeftTakes(most, t, n, i) <==> count < most && (i >= Moves(most - count, i < most) || count + Moves(most - count, i < most) < most)
  {
    HasParent(most, t, root, n);
    if t[n].pos > 0 {
      var count := |t[t[t[n].parent].kids[t[n].pos - 1]].keys|;
      if count < most { SpareMeans(most, count, i); }
    }
  }

  lemma RightDecides(most: nat, t: Heap, root: Id, n: Id, i: nat)
    requires Shape(t, root) && Sizes(most, t, root, NoHole) && n in t && n != root && i <= most
    ensures t[n].parent in t && |t[t[n].parent].kids| == |t[t[n].parent].keys| + 1
    ensures t[n].pos >= |t[t[n].parent].keys| ==> !RightTakes(most, t, n, i)
    ensures t[n].pos < |t[t[n].parent].keys| ==> var r := t[t[n].parent].kids[t[n].pos + 1];
      Sibling(t, n, 1) == r && r in t && (RightTakes(most, t, n, i) <==> Spare(most, |t[r].keys|, i < most))
    ensures t[n].pos < |t[t[n].parent].keys| ==> var count := |t[t[t[n].parent].kids[t[n].pos + 1]].keys|;
      RightTakes(most, t, n, i) <==> count < most && (i <= most - Moves(most - count, i > 0) || count + Moves(most - count, i > 0) < most)
  {
    HasParent(most, t, root, n);
    if t[n].pos < |t[t[n].parent].keys| {
      var count := |t[t[t[n].parent].kids[t[n].pos + 1]].keys|;
      if count < most { SpareMeans(most, count, i); }
    }
  }

  /** n gave keys to its right sibling. */
  ghost predicate RightShared(most: nat, t: Heap, root: Id, n: Id, i: nat, t': Heap, n': Id, i': nat) {
    exists r, c :: Shares(most, t, root, n, r, c, n, i, n', i') && CanShare(t, root, n, r, c) && t' == Share(t, n, r, c)
  }

  lemma LeftSharedRoom(most: nat, t: Heap, root: Id, n: Id, i: nat, t': Heap, n': Id, i': nat, rightmost: Id)
    requires Sizes(most, t, root, NoHole) && Edges(t, root, rightmost) && LeftShared(most, t, root, n, i, t', n', i')
    ensures Sizes(most, t', root, Hole(n')) && Edges(t', root, rightmost) && t'.Keys == t.Keys
    ensures Room(most, t, root, n, i, t', root, n', i')
  {
    var l, c :| Shares(most, t, root, l, n, c, n, i, n', i') && CanShare(t, root, l, n, c) && t' == Share(t, l, n, c);
    SharesWhole(most, t, root, l, n, c, n, i, n', i', rightmost);
    SharesRoom(most, t, root, l, n, c, n, i, n', i');
  }

  lemma RightSharedRoom(most: nat, t: Heap, root: Id, n: Id, i: nat, t': Heap, n': Id, i': nat, rightmost: Id)
    requires Sizes(most, t, root, NoHole) && Edges(t, root, rightmost) && RightShared(most, t, root, n, i, t', n', i')
    ensures Sizes(most, t', root, Hole(n')) && Edges(t', root, rightmost) && t'.Keys == t.Keys
    ensures Room(most, t, root, n, i, t', root, n', i')
  {
    var r, c :| Shares(most, t, root, n, r, c, n, i, n', i') && CanShare(t, root, n, r, c) && t' == Share(t, n, r, c);
    SharesWhole(most, t, root, n, r, c, n, i, n', i', rightmost);
    SharesRoom(most, t, root, n, r, c, n, i, n', i');
  }

  lemma SplitDone(most: nat, t: Heap, root: Id, n: Id, d: Id, i: nat, hole: Hole, rightmost: Id)
    requires Sizes(most, t, root, hole) && Edges(t, root, rightmost) && d !in t && i <= most && most >= 3
    requires n in t && n != root && |t[n].keys| == most && t[n].max == most
    requires t[n].parent in t && |t[t[n].parent].keys| < most && (hole.NoHole? || hole == Hole(t[n].parent))
    ensures var c := Kept(most, i, most);
      && CanSplit(t, root, n, d, c) && n in Split(t, n, d, c) && |Split(t, n, d, c)[n].keys| == c
      && Split(t, n, d, c).Keys == t.Keys + {d} && Split(t, n, d, c)[n].lvl == t[n].lvl
      && Sizes(most, Split(t, n, d, c), root, Hole(if i <= c then n else d))
      && Edges(Split(t, n, d, c), root, if t[n].lvl == 0 && rightmost == n then d else rightmost)
  {
    var c := Kept(most, i, most);
    SplitPossible(t, root, n, d, c);
    SplitBody(t, root, n, d, c, n);
    CutAt(t, root, n, d, c, n);
    SplitWhole(most, t, root, n, d, c, hole, if i <= c then n else d, rightmost);
  }

  /** How many keys are moved to a sibling with so many free slots: all it has room for, or as near to half of
      that as a whole number of keys comes without being none. */
  function Moves(free: nat, half: bool): (m: nat)
    requires free > 0
    ensures 1 <= m <= free && (!half ==> m == free) && (half && free > 1 ==> 2 * m <= free <= 2 * m + 1)
  {
    var m := if half then free / 2 else free;
    if m < 1 then 1 else m
  }

  /** After room was made in n's parent, n hangs from the node with room. */
  lemma ParentRoom(most: nat, t0: Heap, root0: Id, n: Id, t: Heap, root: Id, pn: Id, pi: nat)
    requires n in t0 && n != root0 && Shape(t0, root0) && Shape(t, root)
    requires Room(most, t0, root0, t0[n].parent, t0[n].pos, t, root, pn, pi)
    ensures n in t && n != root && SameBody(t0[n], t[n]) && t[n].parent == pn && t[n].parent in t && |t[pn].keys| < most
    ensures LeavesKept(t0, root0, t, root) && SameBodiesBelow(t0, t, t0[n].lvl)
  {
    assert Up(t0, root0, n);
    assert Down(t, root, pn);
    assert Child(t, root, pn, pi);
  }
}
