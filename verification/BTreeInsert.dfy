/** Making room commutes with putting the new key: whatever sharing, splitting or growing happens
    first, the key ends up at the same place in the order. */
module BTreeInsert {
  import opened BTreeShape
  import opened BTreeMoves
  import opened BTreeOrder
  import opened BTreeSearch

  /** A key put at (n, i) of t and the same key put at (n', i') of t' give trees with the same
      keys in order. */
  ghost predicate SamePlace(t: Heap, root: Id, n: Id, i: nat, t': Heap, root': Id, n': Id, i': nat) {
    && root in t && root' in t'
    && forall k: int :: InOrder(Put(t', n', i', k), root', t'[root'].lvl) == InOrder(Put(t, n, i, k), root, t[root].lvl)
  }

  ghost predicate LeafKept(t: Heap, root: Id, t': Heap, root': Id, j: Id, i: nat)
    requires j in t
  {
    Leaf(t', j) && t'[j].keys == t[j].keys && SamePlace(t, root, j, i, t', root', j, i)
  }

  /** The same for every leaf: leaves were not touched. */
  ghost predicate LeavesKept(t: Heap, root: Id, t': Heap, root': Id) {
    forall j: Id, i: nat :: Leaf(t, j) && i <= |t[j].keys| ==> LeafKept(t, root, t', root', j, i)
  }

  lemma PlaceTrans(t: Heap, r: Id, n: Id, i: nat, t1: Heap, r1: Id, n1: Id, i1: nat, t2: Heap, r2: Id, n2: Id, i2: nat)
    requires SamePlace(t, r, n, i, t1, r1, n1, i1) && SamePlace(t1, r1, n1, i1, t2, r2, n2, i2)
    ensures SamePlace(t, r, n, i, t2, r2, n2, i2)
  {
    forall k ensures InOrder(Put(t2, n2, i2, k), r2, t2[r2].lvl) == InOrder(Put(t, n, i, k), r, t[r].lvl) {
      assert InOrder(Put(t1, n1, i1, k), r1, t1[r1].lvl) == InOrder(Put(t, n, i, k), r, t[r].lvl);
    }
  }

  lemma LeavesTrans(t: Heap, r: Id, t1: Heap, r1: Id, t2: Heap, r2: Id)
    requires LeavesKept(t, r, t1, r1) && LeavesKept(t1, r1, t2, r2)
    ensures LeavesKept(t, r, t2, r2)
  {
    forall j: Id, i: nat | Leaf(t, j) && i <= |t[j].keys| ensures LeafKept(t, r, t2, r2, j, i) {
      assert LeafKept(t, r, t1, r1, j, i) && LeafKept(t1, r1, t2, r2, j, i);
      PlaceTrans(t, r, j, i, t1, r1, j, i, t2, r2, j, i);
    }
  }

  // ---- sharing ----------------------------------------------------------------------------------------

  lemma PutAdopt(t: Heap, n: Id, j: Id, i: nat, k: int)
    requires n in t
    ensures n in Put(t, j, i, k) && Adopt(Put(t, j, i, k), n) == Put(Adopt(t, n), j, i, k)
  {
    var a, b := Adopt(Put(t, j, i, k), n), Put(Adopt(t, n), j, i, k);
    assert a.Keys == b.Keys;
    forall m | m in t ensures a[m] == b[m] {}
  }

  lemma PutAdoptTwo(t: Heap, l: Id, r: Id, j: Id, i: nat, k: int)
    requires l in t && r in t
    ensures l in Put(t, j, i, k) && r in Adopt(Put(t, j, i, k), l)
    ensures Adopt(Adopt(Put(t, j, i, k), l), r) == Put(Adopt(Adopt(t, l), r), j, i, k)
  {
    PutAdopt(t, l, j, i, k);
    PutAdopt(Adopt(t, l), r, j, i, k);
  }

  /** Moving keys among internal nodes. */
  lemma MovedHigh(t: Heap, root: Id, l: Id, r: Id, c: nat, j: Id, i: nat, k: int)
    requires Shape(t, root) && CanShare(t, root, l, r, c) && t[l].lvl > 0 && Leaf(t, j) && i <= |t[j].keys|
    ensures CanShare(Put(t, j, i, k), root, l, r, c)
    ensures Moved(Put(t, j, i, k), l, r, c) == Put(Moved(t, l, r, c), j, i, k)
  {
    SiblingLinks(t, root, l, r);
    var u := Put(t, j, i, k);
    assert u[l] == t[l] && u[r] == t[r] && u[t[l].parent] == t[t[l].parent];
    MovedOther(t, u, l, r, c, j);
  }

  lemma MovedOther(t: Heap, u: Heap, l: Id, r: Id, c: nat, j: Id)
    requires l in t && r in t && t[l].parent in t && t[l].pos < |t[t[l].parent].keys| && c < |Both(t, l, r)|
    requires j in t && j in u && u == t[j := u[j]] && j != l && j != r && j != t[l].parent
    ensures Both(u, l, r) == Both(t, l, r) && Moved(u, l, r, c) == Moved(t, l, r, c)[j := u[j]]
  {}

  /** Sharing among internal nodes. */
  lemma ShareHigh(t: Heap, root: Id, l: Id, r: Id, c: nat, j: Id, i: nat, k: int)
    requires Shape(t, root) && CanShare(t, root, l, r, c) && t[l].lvl > 0 && Leaf(t, j) && i <= |t[j].keys|
    ensures CanShare(Put(t, j, i, k), root, l, r, c)
    ensures Share(Put(t, j, i, k), l, r, c) == Put(Share(t, l, r, c), j, i, k)
  {
    MovedHigh(t, root, l, r, c, j, i, k);
    MovedAt(t, root, l, r, c, l);
    PutAdoptTwo(Moved(t, l, r, c), l, r, j, i, k);
  }

  lemma ShareLeafKept(t: Heap, root: Id, l: Id, r: Id, c: nat, j: Id, i: nat)
    requires Shape(t, root) && CanShare(t, root, l, r, c) && t[l].lvl > 0 && Leaf(t, j) && i <= |t[j].keys|
    ensures LeafKept(t, root, Share(t, l, r, c), root, j, i)
  {
    var t' := Share(t, l, r, c);
    SiblingLinks(t, root, l, r);
    ShareBody(t, root, l, r, c, j);
    ShareBody(t, root, l, r, c, root);
    MovedAt(t, root, l, r, c, j);
    MovedAt(t, root, l, r, c, root);
    forall k: int ensures InOrder(Put(t', j, i, k), root, t'[root].lvl) == InOrder(Put(t, j, i, k), root, t[root].lvl) {
      PutShape(t, root, j, i, k);
      ShareHigh(t, root, l, r, c, j, i, k);
      ShareOrder(Put(t, j, i, k), root, l, r, c);
    }
  }

  lemma ShareLeavesKept(t: Heap, root: Id, l: Id, r: Id, c: nat)
    requires Shape(t, root) && CanShare(t, root, l, r, c) && t[l].lvl > 0
    ensures LeavesKept(t, root, Share(t, l, r, c), root)
  {
    forall j: Id, i: nat | Leaf(t, j) && i <= |t[j].keys| ensures LeafKept(t, root, Share(t, l, r, c), root, j, i) {
      ShareLeafKept(t, root, l, r, c, j, i);
    }
  }

  /** Inserting into a sequence, before or after the cut. */
  lemma InsertCut(s: seq<int>, q: nat, c: nat, k: int)
    requires q <= |s| && c < |s|
    ensures var u := s[..q] + [k] + s[q..];
      && (q <= c ==> u[..c + 1] == s[..c][..q] + [k] + s[..c][q..] && u[c + 1] == s[c] && u[c + 2..] == s[c + 1..])
      && (q > c ==> u[..c] == s[..c] && u[c] == s[c]
                    && u[c + 1..] == s[c + 1..][..q - c - 1] + [k] + s[c + 1..][q - c - 1..])
  {}

  /** Position i of leaf n, one of two siblings, counted over both and the key between them. */
  function Joint(t: Heap, l: Id, n: Id, i: nat): nat
    requires l in t
  {
    if n == l then i else |t[l].keys| + 1 + i
  }

  lemma JointPut(t: Heap, root: Id, l: Id, r: Id, n: Id, i: nat, k: int)
    requires Shape(t, root) && Siblings(t, root, l, r) && t[l].lvl == 0 && (n == l || n == r) && i <= |t[n].keys|
    ensures Leaf(t, n) && Siblings(Put(t, n, i, k), root, l, r)
    ensures var t', q := Put(t, n, i, k), Joint(t, l, n, i);
      && t[l].parent in t && t[l].pos < |t[t[l].parent].keys| && q <= |Both(t, l, r)|
      && t'[l].parent == t[l].parent && t'[l].pos == t[l].pos && t'[t[l].parent] == t[t[l].parent]
      && Both(t', l, r) == Both(t, l, r)[..q] + [k] + Both(t, l, r)[q..]
  {
    SiblingLinks(t, root, l, r);
    var q := Joint(t, l, n, i);
    if n == l {
      assert Both(t, l, r)[..q] == t[l].keys[..i];
    } else {
      assert Both(t, l, r)[..q] == t[l].keys + [t[t[l].parent].keys[t[l].pos]] + t[r].keys[..i];
    }
  }

  /** Leaves that differ in their keys only come out of a move alike. */
  lemma MovedAlike(t: Heap, u: Heap, root: Id, l: Id, r: Id, c: nat, c': nat)
    requires CanShare(t, root, l, r, c) && CanShare(u, root, l, r, c') && u.Keys == t.Keys && t[l].lvl == 0
    requires forall m :: m in t && m != l && m != r ==> u[m] == t[m]
    requires u[l] == t[l].(keys := u[l].keys) && u[r] == t[r].(keys := u[r].keys)
    ensures var a, b, p := Moved(u, l, r, c'), Moved(t, l, r, c), t[l].parent;
      && a.Keys == b.Keys == t.Keys
      && (forall m :: m in t && m != l && m != r && m != p ==> a[m] == b[m])
      && a[l] == b[l].(keys := Both(u, l, r)[..c']) && a[r] == b[r].(keys := Both(u, l, r)[c' + 1..])
      && a[p] == b[p].(keys := t[p].keys[t[l].pos := Both(u, l, r)[c']])
      && b[l].keys == Both(t, l, r)[..c] && b[r].keys == Both(t, l, r)[c + 1..]
      && b[p].keys == t[p].keys[t[l].pos := Both(t, l, r)[c]]
  {
    MovedAt(t, root, l, r, c, l);
    MovedAt(u, root, l, r, c', l);
    forall m | m in t && m != l && m != r && m != t[l].parent ensures Moved(u, l, r, c')[m] == Moved(t, l, r, c)[m] {
      MovedAt(t, root, l, r, c, m);
      MovedAt(u, root, l, r, c', m);
    }
  }

  /** Two heaps after a move that differ as the joint keys s and u do, cut at c and c'. */
  predicate Alike(a: Heap, b: Heap, l: Id, r: Id, p: Id, s: seq<int>, u: seq<int>, c: nat, c': nat, keys: seq<int>, i: nat)
    requires c < |s| && c' < |u| && i < |keys|
  {
    && l != r && l != p && r != p && a.Keys == b.Keys && l in b && r in b && p in b
    && (forall m :: m in b && m != l && m != r && m != p ==> a[m] == b[m])
    && a[l] == b[l].(keys := u[..c']) && a[r] == b[r].(keys := u[c' + 1..]) && a[p] == b[p].(keys := keys[i := u[c']])
    && b[l].keys == s[..c] && b[r].keys == s[c + 1..] && b[p].keys == keys[i := s[c]]
  }

  lemma PlacedLeft(a: Heap, b: Heap, l: Id, r: Id, p: Id, s: seq<int>, u: seq<int>, q: nat, c: nat, k: int, keys: seq<int>, i: nat)
    requires q <= c < |s| && u == s[..q] + [k] + s[q..] && i < |keys| && Alike(a, b, l, r, p, s, u, c, c + 1, keys, i)
    ensures a == Put(b, l, q, k)
  {
    InsertCut(s, q, c, k);
  }

  lemma PlacedRight(a: Heap, b: Heap, l: Id, r: Id, p: Id, s: seq<int>, u: seq<int>, q: nat, c: nat, k: int, keys: seq<int>, i: nat)
    requires c < q <= |s| && u == s[..q] + [k] + s[q..] && i < |keys| && Alike(a, b, l, r, p, s, u, c, c, keys, i)
    ensures a == Put(b, r, q - c - 1, k)
  {
    InsertCut(s, q, c, k);
  }

  lemma MovedPlaced(t: Heap, u: Heap, root: Id, l: Id, r: Id, c: nat, q: nat, k: int)
    requires CanShare(t, root, l, r, c) && CanShare(u, root, l, r, if q <= c then c + 1 else c)
    requires u.Keys == t.Keys && t[l].lvl == 0 && forall m :: m in t && m != l && m != r ==> u[m] == t[m]
    requires u[l] == t[l].(keys := u[l].keys) && u[r] == t[r].(keys := u[r].keys)
    requires q <= |Both(t, l, r)| && Both(u, l, r) == Both(t, l, r)[..q] + [k] + Both(t, l, r)[q..]
    ensures Moved(u, l, r, if q <= c then c + 1 else c)
         == if q <= c then Put(Moved(t, l, r, c), l, q, k) else Put(Moved(t, l, r, c), r, q - c - 1, k)
  {
    var c', p := if q <= c then c + 1 else c, t[l].parent;
    MovedAlike(t, u, root, l, r, c, c');
    if q <= c {
      PlacedLeft(Moved(u, l, r, c'), Moved(t, l, r, c), l, r, p, Both(t, l, r), Both(u, l, r), q, c, k, t[p].keys, t[l].pos);
    } else {
      PlacedRight(Moved(u, l, r, c'), Moved(t, l, r, c), l, r, p, Both(t, l, r), Both(u, l, r), q, c, k, t[p].keys, t[l].pos);
    }
  }

  lemma LowPossible(t: Heap, root: Id, l: Id, r: Id, c: nat, n: Id, i: nat, k: int)
    requires Shape(t, root) && CanShare(t, root, l, r, c) && t[l].lvl == 0 && (n == l || n == r) && i <= |t[n].keys|
    ensures var q, u := Joint(t, l, n, i), Put(t, n, i, k);
      && CanShare(u, root, l, r, if q <= c then c + 1 else c)
      && u.Keys == t.Keys && (forall m :: m in t && m != l && m != r ==> u[m] == t[m])
      && u[l] == t[l].(keys := u[l].keys) && u[r] == t[r].(keys := u[r].keys)
      && q <= |Both(t, l, r)| && Both(u, l, r) == Both(t, l, r)[..q] + [k] + Both(t, l, r)[q..]
  {
    JointPut(t, root, l, r, n, i, k);
    SiblingLinks(t, root, l, r);
  }

  /** Sharing between two leaves: the key goes where its joint position says. */
  lemma ShareLow(t: Heap, root: Id, l: Id, r: Id, c: nat, n: Id, i: nat, n': Id, i': nat, k: int)
    requires Shape(t, root) && CanShare(t, root, l, r, c) && t[l].lvl == 0 && (n == l || n == r) && i <= |t[n].keys|
    requires var q := Joint(t, l, n, i); if q <= c then n' == l && i' == q else n' == r && i' == q - c - 1
    ensures var c' := if n' == l then c + 1 else c;
      && CanShare(Put(t, n, i, k), root, l, r, c')
      && Share(Put(t, n, i, k), l, r, c') == Put(Share(t, l, r, c), n', i', k)
  {
    LowPossible(t, root, l, r, c, n, i, k);
    MovedPlaced(t, Put(t, n, i, k), root, l, r, c, Joint(t, l, n, i), k);
    MovedAt(t, root, l, r, c, l);
    PutAdoptTwo(Moved(t, l, r, c), l, r, n', i', k);
  }

  lemma SharePlace(t: Heap, root: Id, l: Id, r: Id, c: nat, n: Id, i: nat, n': Id, i': nat)
    requires Shape(t, root) && CanShare(t, root, l, r, c) && t[l].lvl == 0 && (n == l || n == r) && i <= |t[n].keys|
    requires var q := Joint(t, l, n, i); if q <= c then n' == l && i' == q else n' == r && i' == q - c - 1
    ensures SamePlace(t, root, n, i, Share(t, l, r, c), root, n', i')
  {
    var t' := Share(t, l, r, c);
    SiblingLinks(t, root, l, r);
    ShareBody(t, root, l, r, c, root);
    MovedAt(t, root, l, r, c, root);
    forall k ensures InOrder(Put(t', n', i', k), root, t'[root].lvl) == InOrder(Put(t, n, i, k), root, t[root].lvl) {
      PutShape(t, root, n, i, k);
      ShareLow(t, root, l, r, c, n, i, n', i', k);
      ShareOrder(Put(t, n, i, k), root, l, r, if n' == l then c + 1 else c);
    }
  }

  // ---- splitting -----------------------------------------------------------------------------------------

  lemma CutOther(t: Heap, u: Heap, root: Id, n: Id, d: Id, c: nat, j: Id)
    requires CanSplit(t, root, n, d, c) && j in t && j in u && u == t[j := u[j]] && j != n && j != t[n].parent
    ensures CanSplit(u, root, n, d, c) && Cut(u, n, d, c) == Cut(t, n, d, c)[j := u[j]]
  {}

  /** Splitting an internal node. */
  lemma SplitHigh(t: Heap, root: Id, n: Id, d: Id, c: nat, j: Id, i: nat, k: int)
    requires Shape(t, root) && CanSplit(t, root, n, d, c) && t[n].lvl > 0 && Leaf(t, j) && i <= |t[j].keys|
    ensures CanSplit(Put(t, j, i, k), root, n, d, c)
    ensures Split(Put(t, j, i, k), n, d, c) == Put(Split(t, n, d, c), j, i, k)
  {
    SplitPossible(t, root, n, d, c);
    CutOther(t, Put(t, j, i, k), root, n, d, c, j);
    CutAt(t, root, n, d, c, j);
    PutAdoptTwo(Cut(t, n, d, c), t[n].parent, d, j, i, k);
  }

  lemma SplitLeafKept(t: Heap, root: Id, n: Id, d: Id, c: nat, j: Id, i: nat)
    requires Shape(t, root) && CanSplit(t, root, n, d, c) && t[n].lvl > 0 && Leaf(t, j) && i <= |t[j].keys|
    ensures LeafKept(t, root, Split(t, n, d, c), root, j, i)
  {
    var t' := Split(t, n, d, c);
    SplitPossible(t, root, n, d, c);
    SplitBody(t, root, n, d, c, j);
    SplitBody(t, root, n, d, c, root);
    CutAt(t, root, n, d, c, j);
    CutAt(t, root, n, d, c, root);
    forall k: int ensures InOrder(Put(t', j, i, k), root, t'[root].lvl) == InOrder(Put(t, j, i, k), root, t[root].lvl) {
      PutShape(t, root, j, i, k);
      SplitHigh(t, root, n, d, c, j, i, k);
      SplitOrder(Put(t, j, i, k), root, n, d, c);
    }
  }

  lemma SplitLeavesKept(t: Heap, root: Id, n: Id, d: Id, c: nat)
    requires Shape(t, root) && CanSplit(t, root, n, d, c) && t[n].lvl > 0
    ensures LeavesKept(t, root, Split(t, n, d, c), root)
  {
    forall j: Id, i: nat | Leaf(t, j) && i <= |t[j].keys| ensures LeafKept(t, root, Split(t, n, d, c), root, j, i) {
      SplitLeafKept(t, root, n, d, c, j, i);
    }
  }

  lemma CutLeft(t: Heap, root: Id, n: Id, d: Id, c: nat, i: nat, k: int)
    requires Shape(t, root) && CanSplit(t, root, n, d, c) && t[n].lvl == 0 && i <= c
    ensures CanSplit(Put(t, n, i, k), root, n, d, c + 1) && n in Cut(t, n, d, c) && i <= |Cut(t, n, d, c)[n].keys|
    ensures Cut(Put(t, n, i, k), n, d, c + 1) == Put(Cut(t, n, d, c), n, i, k)
  {
    InsertCut(t[n].keys, i, c, k);
  }

  lemma CutRight(t: Heap, root: Id, n: Id, d: Id, c: nat, i: nat, k: int)
    requires Shape(t, root) && CanSplit(t, root, n, d, c) && t[n].lvl == 0 && c < i <= |t[n].keys|
    ensures CanSplit(Put(t, n, i, k), root, n, d, c)
    ensures Cut(Put(t, n, i, k), n, d, c) == Put(Cut(t, n, d, c), d, i - c - 1, k)
  {
    InsertCut(t[n].keys, i, c, k);
  }

  /** Splitting a leaf: the key goes to the half that its position says. */
  lemma SplitLow(t: Heap, root: Id, n: Id, d: Id, c: nat, i: nat, n': Id, i': nat, k: int)
    requires Shape(t, root) && CanSplit(t, root, n, d, c) && t[n].lvl == 0 && i <= |t[n].keys|
    requires if i <= c then n' == n && i' == i else n' == d && i' == i - c - 1
    ensures var c' := if i <= c then c + 1 else c;
      && CanSplit(Put(t, n, i, k), root, n, d, c')
      && Split(Put(t, n, i, k), n, d, c') == Put(Split(t, n, d, c), n', i', k)
  {
    CutAt(t, root, n, d, c, n);
    if i <= c { CutLeft(t, root, n, d, c, i, k); } else { CutRight(t, root, n, d, c, i, k); }
    PutAdoptTwo(Cut(t, n, d, c), t[n].parent, d, n', i', k);
  }

  lemma SplitPlace(t: Heap, root: Id, n: Id, d: Id, c: nat, i: nat, n': Id, i': nat)
    requires Shape(t, root) && CanSplit(t, root, n, d, c) && t[n].lvl == 0 && i <= |t[n].keys|
    requires if i <= c then n' == n && i' == i else n' == d && i' == i - c - 1
    ensures SamePlace(t, root, n, i, Split(t, n, d, c), root, n', i')
  {
    var t' := Split(t, n, d, c);
    SplitPossible(t, root, n, d, c);
    SplitBody(t, root, n, d, c, root);
    CutAt(t, root, n, d, c, root);
    forall k: int ensures InOrder(Put(t', n', i', k), root, t'[root].lvl) == InOrder(Put(t, n, i, k), root, t[root].lvl) {
      PutShape(t, root, n, i, k);
      SplitLow(t, root, n, d, c, i, n', i', k);
      SplitOrder(Put(t, n, i, k), root, n, d, if i <= c then c + 1 else c);
    }
  }

  // ---- a new root ------------------------------------------------------------------------------------------

  lemma TallerPut(t: Heap, root: Id, top: Id, max: nat, j: Id, i: nat, k: int)
    requires Shape(t, root) && top !in t && Leaf(t, j) && i <= |t[j].keys|
    ensures Taller(Put(t, j, i, k), root, top, max) == Put(Taller(t, root, top, max), j, i, k)
  {}

  lemma TallerLeavesKept(t: Heap, root: Id, top: Id, max: nat)
    requires Shape(t, root) && top !in t
    ensures LeavesKept(t, root, Taller(t, root, top, max), top)
  {
    var t' := Taller(t, root, top, max);
    forall j: Id, i: nat | Leaf(t, j) && i <= |t[j].keys| ensures LeafKept(t, root, t', top, j, i) {
      forall k: int ensures InOrder(Put(t', j, i, k), top, t'[top].lvl) == InOrder(Put(t, j, i, k), root, t[root].lvl) {
        PutShape(t, root, j, i, k);
        TallerPut(t, root, top, max, j, i, k);
        TallerOrder(Put(t, j, i, k), root, top, max);
      }
    }
  }
}
