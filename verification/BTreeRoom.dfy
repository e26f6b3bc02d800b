/** What it means that a full node was given room, and that each way of doing it does. */
module BTreeRoom {
  import opened BTreeShape
  import opened BTreeMoves
  import opened BTreeOrder
  import opened BTreeSearch
  import opened BTreeInsert
  import opened BTreeSteps

  /** Position i of the full node n of t has become position i' of n' in t', which has room: for a
      leaf, a key put there is put at the same place in the order; for an inner node, the child
      there is the same, and so are the leaves. Nodes below n's level only get new parents. */
  ghost predicate Room(most: nat, t: Heap, root: Id, n: Id, i: nat, t': Heap, root': Id, n': Id, i': nat) {
    && n in t && n' in t' && t'[n'].lvl == t[n].lvl && |t'[n'].keys| < most && t'[n'].max == most
    && (t[n].lvl == 0 ==> i' <= |t'[n'].keys| && SamePlace(t, root, n, i, t', root', n', i'))
    && (t[n].lvl > 0 ==> SameChild(t, n, i, t', n', i') && LeavesKept(t, root, t', root'))
    && SameBodiesBelow(t, t', t[n].lvl)
  }

  predicate SameChild(t: Heap, n: Id, i: nat, t': Heap, n': Id, i': nat)
    requires n in t && n' in t'
  {
    i < |t[n].kids| && i' < |t'[n'].kids| && t'[n'].kids[i'] == t[n].kids[i]
  }

  ghost predicate SameBodiesBelow(t: Heap, t': Heap, k: nat) {
    forall m :: m in t && t[m].lvl < k ==> m in t' && SameBody(t[m], t'[m])
  }

  /** The outermost leaves are found. */
  ghost predicate Edges(t: Heap, root: Id, rightmost: Id) {
    && Shape(t, root) && Leaf(t, rightmost) && RightEdge(t, root, rightmost)
    && Leaf(t, t[root].parent) && LeftEdge(t, root, t[root].parent)
  }

  // ---- sharing -------------------------------------------------------------------------------------------

  lemma ShareBelow(t: Heap, root: Id, l: Id, r: Id, c: nat)
    requires Shape(t, root) && CanShare(t, root, l, r, c)
    ensures SameBodiesBelow(t, Share(t, l, r, c), t[l].lvl)
  {
    SiblingLinks(t, root, l, r);
    forall m | m in t && t[m].lvl < t[l].lvl ensures m in Share(t, l, r, c) && SameBody(t[m], Share(t, l, r, c)[m]) {
      ShareBody(t, root, l, r, c, m);
      MovedAt(t, root, l, r, c, m);
    }
  }

  lemma ShareChild(t: Heap, root: Id, l: Id, r: Id, c: nat, n: Id, i: nat, n': Id, i': nat)
    requires Shape(t, root) && CanShare(t, root, l, r, c) && t[l].lvl > 0 && (n == l || n == r) && i <= |t[n].keys|
    requires var q := Joint(t, l, n, i); if q <= c then n' == l && i' == q else n' == r && i' == q - c - 1
    ensures n in t && n' in Share(t, l, r, c) && SameChild(t, n, i, Share(t, l, r, c), n', i')
  {
    SiblingLinks(t, root, l, r);
    KidsCut(t, root, l, r, c);
    ShareBody(t, root, l, r, c, l);
    ShareBody(t, root, l, r, c, r);
    MovedAt(t, root, l, r, c, l);
    var kids, q := t[l].kids + t[r].kids, Joint(t, l, n, i);
    assert kids[q] == t[n].kids[i];
  }

  lemma ShareRoom(most: nat, t: Heap, root: Id, l: Id, r: Id, c: nat, n: Id, i: nat, n': Id, i': nat)
    requires Shape(t, root) && CanShare(t, root, l, r, c) && (n == l || n == r) && i <= |t[n].keys|
    requires var q := Joint(t, l, n, i); if q <= c then n' == l && i' == q else n' == r && i' == q - c - 1
    requires if n' == l then c < most else |Both(t, l, r)| - c - 1 < most
    requires t[l].max == most && t[r].max == most
    ensures Room(most, t, root, n, i, Share(t, l, r, c), root, n', i')
  {
    SiblingLinks(t, root, l, r);
    ShareBelow(t, root, l, r, c);
    ShareBody(t, root, l, r, c, n');
    MovedAt(t, root, l, r, c, n');
    if t[l].lvl == 0 {
      SharePlace(t, root, l, r, c, n, i, n', i');
    } else {
      ShareChild(t, root, l, r, c, n, i, n', i');
      ShareLeavesKept(t, root, l, r, c);
    }
  }

  lemma ShareWhole(most: nat, t: Heap, root: Id, l: Id, r: Id, c: nat, n': Id, rightmost: Id)
    requires Shape(t, root) && CanShare(t, root, l, r, c) && Sizes(most, t, root, NoHole) && Edges(t, root, rightmost)
    requires 0 < c <= most && c + 1 < |Both(t, l, r)| <= c + 1 + most
    ensures Sizes(most, Share(t, l, r, c), root, Hole(n')) && Edges(Share(t, l, r, c), root, rightmost)
  {
    var t' := Share(t, l, r, c);
    ShareSizes(most, t, root, l, r, c, NoHole);
    ShareShape(t, root, l, r, c);
    ShareEdges(t, root, l, r, c, rightmost);
    ShareEdges(t, root, l, r, c, t[root].parent);
    ShareBody(t, root, l, r, c, rightmost);
    ShareBody(t, root, l, r, c, t[root].parent);
    ShareBody(t, root, l, r, c, root);
    MovedAt(t, root, l, r, c, rightmost);
    MovedAt(t, root, l, r, c, t[root].parent);
    MovedAt(t, root, l, r, c, root);
    SiblingKids(t, root, l, r);
    KidsCut(t, root, l, r, c);
    ShareLinks(t, root, l, r, c, root);
    SiblingLinks(t, root, l, r);
    assert root !in t[l].kids + t[r].kids;
    assert forall x :: x in t[l].kids + t[r].kids <==> x in FirstKids(t[l].lvl, t[l].kids + t[r].kids, c) + RestKids(t[l].lvl, t[l].kids + t[r].kids, c);
    forall n | n in t' ensures SizeOk(most, t', root, Hole(n'), n) { assert SizeOk(most, t', root, NoHole, n); }
  }

  // ---- splitting -----------------------------------------------------------------------------------------

  lemma SplitBelow(t: Heap, root: Id, n: Id, d: Id, c: nat)
    requires Shape(t, root) && CanSplit(t, root, n, d, c)
    ensures SameBodiesBelow(t, Split(t, n, d, c), t[n].lvl)
  {
    SplitPossible(t, root, n, d, c);
    forall m | m in t && t[m].lvl < t[n].lvl ensures m in Split(t, n, d, c) && SameBody(t[m], Split(t, n, d, c)[m]) {
      SplitBody(t, root, n, d, c, m);
      CutAt(t, root, n, d, c, m);
    }
  }

  lemma SplitChild(t: Heap, root: Id, n: Id, d: Id, c: nat, i: nat, n': Id, i': nat)
    requires Shape(t, root) && CanSplit(t, root, n, d, c) && t[n].lvl > 0 && i <= |t[n].keys|
    requires if i <= c then n' == n && i' == i else n' == d && i' == i - c - 1
    ensures n' in Split(t, n, d, c) && SameChild(t, n, i, Split(t, n, d, c), n', i')
  {
    SplitPossible(t, root, n, d, c);
    SplitKids(t, root, n, d, c);
    SplitBody(t, root, n, d, c, n);
    SplitBody(t, root, n, d, c, d);
    CutAt(t, root, n, d, c, n);
  }

  /** Room was made above n, from t0 to t; n itself was only given its place. */
  lemma SplitRoom(most: nat, t0: Heap, root0: Id, t: Heap, root: Id, n: Id, d: Id, c: nat, i: nat, n': Id, i': nat)
    requires n in t0 && n in t && SameBody(t0[n], t[n]) && LeavesKept(t0, root0, t, root) && SameBodiesBelow(t0, t, t0[n].lvl)
    requires Shape(t, root) && CanSplit(t, root, n, d, c) && i <= |t[n].keys| == most && t[n].max == most
    requires if i <= c then n' == n && i' == i else n' == d && i' == i - c - 1
    ensures Room(most, t0, root0, n, i, Split(t, n, d, c), root, n', i')
  {
    var t' := Split(t, n, d, c);
    SplitBelow(t, root, n, d, c);
    SplitBody(t, root, n, d, c, n');
    CutAt(t, root, n, d, c, n);
    BelowTrans(t0, t, t', t0[n].lvl);
    if t[n].lvl == 0 {
      assert LeafKept(t0, root0, t, root, n, i);
      SplitPlace(t, root, n, d, c, i, n', i');
      PlaceTrans(t0, root0, n, i, t, root, n, i, t', root, n', i');
    } else {
      SplitChild(t, root, n, d, c, i, n', i');
      SplitLeavesKept(t, root, n, d, c);
      LeavesTrans(t0, root0, t, root, t', root);
    }
  }

  lemma BelowTrans(t0: Heap, t1: Heap, t2: Heap, k: nat)
    requires SameBodiesBelow(t0, t1, k) && SameBodiesBelow(t1, t2, k)
    ensures SameBodiesBelow(t0, t2, k)
  {}

  lemma LeavesSame(t: Heap, root: Id)
    requires root in t
    ensures LeavesKept(t, root, t, root)
  {
    forall j: Id, i: nat | Leaf(t, j) && i <= |t[j].keys| ensures LeafKept(t, root, t, root, j, i) {}
  }

  lemma SplitWhole(most: nat, t: Heap, root: Id, n: Id, d: Id, c: nat, hole: Hole, n': Id, rightmost: Id)
    requires Shape(t, root) && CanSplit(t, root, n, d, c) && Sizes(most, t, root, hole) && Edges(t, root, rightmost)
    requires (hole.NoHole? || hole == Hole(t[n].parent)) && |t[t[n].parent].keys| < most
    requires (c > 0 || n' == n) && (c + 1 < |t[n].keys| || n' == d)
    ensures Sizes(most, Split(t, n, d, c), root, Hole(n'))
    ensures Edges(Split(t, n, d, c), root, if rightmost == n then d else rightmost)
  {
    var t', left := Split(t, n, d, c), t[root].parent;
    SplitSizes(most, t, root, n, d, c, hole, Hole(n'));
    SplitShape(t, root, n, d, c);
    SplitEdges(t, root, n, d, c, rightmost);
    SplitEdges(t, root, n, d, c, left);
    SplitPossible(t, root, n, d, c);
    SplitBody(t, root, n, d, c, rightmost);
    SplitBody(t, root, n, d, c, left);
    SplitBody(t, root, n, d, c, root);
    SplitBody(t, root, n, d, c, d);
    CutAt(t, root, n, d, c, rightmost);
    CutAt(t, root, n, d, c, left);
    CutAt(t, root, n, d, c, root);
    SplitKids(t, root, n, d, c);
    SplitLinks(t, root, n, d, c, root);
  }

  // ---- growing ---------------------------------------------------------------------------------------------

  lemma TallerWhole(most: nat, t: Heap, root: Id, top: Id, rightmost: Id)
    requires Shape(t, root) && top !in t && Sizes(most, t, root, NoHole) && t[root].max == most && Edges(t, root, rightmost)
    ensures var t' := Taller(t, root, top, most);
      && Shape(t', top) && Sizes(most, t', top, Hole(top)) && Edges(t', top, rightmost)
      && SameBody(t[root], t'[root]) && t'[root].parent == top && LeavesKept(t, root, t', top) && SameBodiesBelow(t, t', t[root].lvl + 1)
  {
    TallerShape(t, root, top, most);
    TallerSizes(most, t, root, top);
    TallerEdges(t, root, top, most, rightmost);
    TallerEdges(t, root, top, most, t[root].parent);
    TallerLeavesKept(t, root, top, most);
  }
}
