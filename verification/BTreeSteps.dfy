/** Counts of the nodes, the two outermost leaves, and when a heap is the result of a step. */
module BTreeSteps {
  import opened BTreeShape
  import opened BTreeMoves

  datatype Hole = NoHole | Hole(n: Id)

  /** Every node has between one key and its maximum; only the hole may be empty. Only a root that
      is a leaf may have a maximum below kNodeValues. */
  predicate SizeOk(most: nat, t: Heap, root: Id, hole: Hole, n: Id)
    requires n in t
  {
    && 1 <= t[n].max <= most && (n != root || t[n].lvl > 0 ==> t[n].max == most)
    && |t[n].keys| <= t[n].max && (hole != Hole(n) ==> |t[n].keys| > 0)
  }

  ghost predicate Sizes(most: nat, t: Heap, root: Id, hole: Hole) {
    forall n {:trigger SizeOk(most, t, root, hole, n)} :: n in t ==> SizeOk(most, t, root, hole, n)
  }

  // ---- the outermost leaves ------------------------------------------------------------------------

  /** n is the last node of its level. */
  predicate RightEdge(t: Heap, root: Id, n: Id)
    decreases if n in t && root in t then t[root].lvl - t[n].lvl else 0
  {
    n in t && root in t &&
    (n == root ||
     (t[n].parent in t && t[n].lvl < t[t[n].parent].lvl <= t[root].lvl
      && t[n].pos + 1 == |t[t[n].parent].kids| && RightEdge(t, root, t[n].parent)))
  }

  /** n is the first node of its level. */
  predicate LeftEdge(t: Heap, root: Id, n: Id)
    decreases if n in t && root in t then t[root].lvl - t[n].lvl else 0
  {
    n in t && root in t &&
    (n == root ||
     (t[n].parent in t && t[n].lvl < t[t[n].parent].lvl <= t[root].lvl
      && t[n].pos == 0 && LeftEdge(t, root, t[n].parent)))
  }

  lemma EdgeUp(t: Heap, root: Id, n: Id)
    requires Shape(t, root) && n in t && n != root
    ensures t[n].parent in t && t[t[n].parent].lvl == t[n].lvl + 1 <= t[root].lvl
    ensures RightEdge(t, root, n) <==> t[n].pos + 1 == |t[t[n].parent].kids| && RightEdge(t, root, t[n].parent)
    ensures LeftEdge(t, root, n) <==> t[n].pos == 0 && LeftEdge(t, root, t[n].parent)
  {
    assert Up(t, root, n) && Up(t, root, t[n].parent);
  }

  /** The last kid of the right sibling and the first of the left one, among both siblings' kids. */
  lemma OuterKid(t: Heap, root: Id, l: Id, r: Id, c: nat, n: Id)
    requires Shape(t, root) && CanShare(t, root, l, r, c) && n in t && n != root && (t[n].parent == l || t[n].parent == r)
    ensures var kids := t[l].kids + t[r].kids;
      var kl, kr := FirstKids(t[l].lvl, kids, c), RestKids(t[l].lvl, kids, c);
      && (t[n].parent == r && t[n].pos + 1 == |t[r].kids| ==> n in kr && Index(kr, n) + 1 == |kr|)
      && (t[n].parent == l && t[n].pos == 0 ==> n in kl && n !in kr && Index(kl, n) == 0)
  {
    SiblingLinks(t, root, l, r);
    KidsCut(t, root, l, r, c);
    assert Up(t, root, n);
    var kids := t[l].kids + t[r].kids;
    var kl, kr := FirstKids(t[l].lvl, kids, c), RestKids(t[l].lvl, kids, c);
    if t[n].parent == r && t[n].pos + 1 == |t[r].kids| {
      assert (kl + kr)[|kids| - 1] == n;
      IndexOf(kr, |kr| - 1);
    }
    if t[n].parent == l && t[n].pos == 0 {
      assert (kl + kr)[0] == n;
      IndexOf(kl, 0);
    }
  }

  /** A node moved between siblings: last of its siblings before and after. */
  lemma ShareEdgeKid(t: Heap, root: Id, l: Id, r: Id, c: nat, n: Id)
    requires Shape(t, root) && CanShare(t, root, l, r, c) && n in t && n != root && (t[n].parent == l || t[n].parent == r)
    ensures var t' := Share(t, l, r, c);
      && n in t' && r in t' && l in t'
      && (t[n].parent == r && t[n].pos + 1 == |t[r].kids| ==> t'[n].parent == r && t'[n].pos + 1 == |t'[r].kids|)
      && (t[n].parent == l && t[n].pos == 0 ==> t'[n].parent == l && t'[n].pos == 0)
  {
    OuterKid(t, root, l, r, c, n);
    ShareLinks(t, root, l, r, c, n);
    ShareBody(t, root, l, r, c, n);
    ShareBody(t, root, l, r, c, r);
    MovedAt(t, root, l, r, c, r);
  }

  lemma ShareEdgeOther(t: Heap, root: Id, l: Id, r: Id, c: nat, n: Id)
    requires Shape(t, root) && CanShare(t, root, l, r, c) && n in t && n != root && t[n].parent != l && t[n].parent != r
    ensures var t' := Share(t, l, r, c);
      && n in t' && t[n].parent in t && t[n].parent in t' && t'[n].parent == t[n].parent && t'[n].pos == t[n].pos
      && t'[t[n].parent].kids == t[t[n].parent].kids
  {
    SiblingKids(t, root, l, r);
    KidsCut(t, root, l, r, c);
    var kids := t[l].kids + t[r].kids;
    assert forall m :: m in kids <==> m in FirstKids(t[l].lvl, kids, c) + RestKids(t[l].lvl, kids, c);
    assert Up(t, root, n);
    ShareLinks(t, root, l, r, c, n);
    ShareBody(t, root, l, r, c, n);
    ShareBody(t, root, l, r, c, t[n].parent);
    MovedAt(t, root, l, r, c, t[n].parent);
  }

  lemma LeftSiblingNotLast(t: Heap, root: Id, l: Id, r: Id)
    requires Shape(t, root) && Siblings(t, root, l, r)
    ensures !RightEdge(t, root, l) && !LeftEdge(t, root, r)
  {
    SiblingLinks(t, root, l, r);
  }

  lemma {:induction false} ShareEdges(t: Heap, root: Id, l: Id, r: Id, c: nat, n: Id)
    requires Shape(t, root) && CanShare(t, root, l, r, c) && n in t
    ensures n in Share(t, l, r, c)
    ensures RightEdge(t, root, n) ==> RightEdge(Share(t, l, r, c), root, n)
    ensures LeftEdge(t, root, n) ==> LeftEdge(Share(t, l, r, c), root, n)
    decreases t[root].lvl - t[n].lvl
  {
    var t' := Share(t, l, r, c);
    ShareBody(t, root, l, r, c, n);
    ShareBody(t, root, l, r, c, root);
    if n != root {
      ShareShape(t, root, l, r, c);
      EdgeUp(t, root, n);
      EdgeUp(t', root, n);
      ShareEdges(t, root, l, r, c, t[n].parent);
      if t[n].parent == l || t[n].parent == r {
        LeftSiblingNotLast(t, root, l, r);
        ShareEdgeKid(t, root, l, r, c, n);
      } else {
        ShareEdgeOther(t, root, l, r, c, n);
      }
    }
  }

  /** What the split does to the links of a kid of the node that is split. */
  lemma SplitEdgeBelow(t: Heap, root: Id, n: Id, d: Id, c: nat, m: Id)
    requires Shape(t, root) && CanSplit(t, root, n, d, c) && m in t && m != root && t[m].parent == n
    ensures var t' := Split(t, n, d, c);
      && m in t' && d in t'
      && (t[m].pos == 0 ==> t'[m].parent == n && t'[m].pos == 0)
      && (t[m].pos + 1 == |t[n].kids| ==> t'[m].parent == d && t'[m].pos + 1 == |t'[d].kids|)
  {
    assert Up(t, root, m);
    SplitKids(t, root, n, d, c);
    SplitKidEdge(t, root, n, d, c, m);
    SplitBody(t, root, n, d, c, d);
    SplitLinks(t, root, n, d, c, m);
    CutAt(t, root, n, d, c, m);
  }

  lemma SplitLevelKids(t: Heap, root: Id, n: Id, d: Id, c: nat, m: Id)
    requires Shape(t, root) && CanSplit(t, root, n, d, c) && m in t && m != root && t[m].parent == t[n].parent
    ensures var p, ks := t[n].parent, t[t[n].parent].kids;
      && t[m].pos < |ks| && ks[t[m].pos] == m && Distinct(ks) && d !in ks && t[n].pos < |ks|
      && m !in RestKids(t[n].lvl, t[n].kids, c) && d !in RestKids(t[n].lvl, t[n].kids, c)
  {
    assert Up(t, root, m);
    SplitPossible(t, root, n, d, c);
    KidsDistinct(t, root, t[n].parent);
    KidsOf(t, root, t[n].parent);
    KidsOf(t, root, n);
    assert forall x :: x in RestKids(t[n].lvl, t[n].kids, c) ==> x in t[n].kids;
  }

  /** What it does to the links of the node, its new sibling and its other siblings. */
  lemma SplitEdgeLevel(t: Heap, root: Id, n: Id, d: Id, c: nat, m: Id)
    requires Shape(t, root) && CanSplit(t, root, n, d, c) && m in t && m != root && t[m].parent == t[n].parent
    ensures var t', p := Split(t, n, d, c), t[n].parent;
      && m in t' && d in t' && p in t'
      && t'[m].parent == p && t'[d].parent == p && t'[d].pos == t[n].pos + 1 && |t'[p].kids| == |t[p].kids| + 1
      && t'[m].pos == (if t[m].pos <= t[n].pos then t[m].pos else t[m].pos + 1)
  {
    SplitLevelKids(t, root, n, d, c, m);
    ParentKidEdge(t[t[n].parent].kids, t[n].pos, d, t[m].pos);
    SplitBody(t, root, n, d, c, t[n].parent);
    SplitLinks(t, root, n, d, c, m);
    SplitLinks(t, root, n, d, c, d);
    CutAt(t, root, n, d, c, m);
  }

  lemma SplitEdgeOther(t: Heap, root: Id, n: Id, d: Id, c: nat, m: Id)
    requires Shape(t, root) && CanSplit(t, root, n, d, c) && m in t && m != root && t[m].parent != n && t[m].parent != t[n].parent
    ensures var t', q := Split(t, n, d, c), t[m].parent;
      && m in t' && q in t && q in t' && t'[m].parent == q && t'[m].pos == t[m].pos && t'[q].kids == t[q].kids
  {
    assert Up(t, root, m);
    SplitKids(t, root, n, d, c);
    SplitBody(t, root, n, d, c, t[m].parent);
    SplitLinks(t, root, n, d, c, m);
    CutAt(t, root, n, d, c, m);
    CutAt(t, root, n, d, c, t[m].parent);
  }

  lemma SplitKidEdge(t: Heap, root: Id, n: Id, d: Id, c: nat, m: Id)
    requires Shape(t, root) && CanSplit(t, root, n, d, c) && m in t && m != root && t[m].parent == n
    ensures var kn, kd := FirstKids(t[n].lvl, t[n].kids, c), RestKids(t[n].lvl, t[n].kids, c);
      && (t[m].pos == 0 ==> m in kn && m !in kd)
      && (t[m].pos + 1 == |t[n].kids| ==> m in kd && Index(kd, m) + 1 == |kd|)
  {
    assert Up(t, root, m);
    SplitPossible(t, root, n, d, c);
    SplitKids(t, root, n, d, c);
    var kn, kd := FirstKids(t[n].lvl, t[n].kids, c), RestKids(t[n].lvl, t[n].kids, c);
    assert (kn + kd)[t[m].pos] == m;
    if t[m].pos + 1 == |t[n].kids| { IndexOf(kd, |kd| - 1); }
  }

  lemma ParentKidEdge(ks: seq<Id>, i: nat, d: Id, a: nat)
    requires i < |ks| && a < |ks| && Distinct(ks) && d !in ks
    ensures var kp := ks[..i + 1] + [d] + ks[i + 1..];
      && Distinct(kp) && ks[a] in kp && d in kp && Index(kp, ks[a]) == (if a <= i then a else a + 1) && Index(kp, d) == i + 1 && |kp| == |ks| + 1
  {
    var kp := ks[..i + 1] + [d] + ks[i + 1..];
    InsertedKid(ks, i, d);
    IndexOf(kp, if a <= i then a else a + 1);
    IndexOf(kp, i + 1);
    assert kp[i + 1] == d && kp[if a <= i then a else a + 1] == ks[a];
  }

  lemma SameSibling(t: Heap, root: Id, m: Id, n: Id)
    requires Shape(t, root) && m in t && n in t && m != root && n != root && t[m].parent == t[n].parent && m != n
    ensures t[n].parent in t && t[m].pos != t[n].pos && t[n].pos < |t[t[n].parent].kids|
  {
    assert Up(t, root, m) && Up(t, root, n);
  }

  lemma {:induction false} SplitEdges(t: Heap, root: Id, n: Id, d: Id, c: nat, m: Id)
    requires Shape(t, root) && CanSplit(t, root, n, d, c) && m in t
    ensures LeftEdge(t, root, m) ==> LeftEdge(Split(t, n, d, c), root, m)
    ensures RightEdge(t, root, m) ==> RightEdge(Split(t, n, d, c), root, if m == n then d else m)
    decreases t[root].lvl - t[m].lvl
  {
    var t' := Split(t, n, d, c);
    SplitBody(t, root, n, d, c, m);
    SplitBody(t, root, n, d, c, d);
    SplitBody(t, root, n, d, c, root);
    if m != root {
      SplitShape(t, root, n, d, c);
      assert Up(t, root, n);
      EdgeUp(t, root, m);
      EdgeUp(t', root, m);
      EdgeUp(t', root, d);
      SplitEdges(t, root, n, d, c, t[m].parent);
      if t[m].parent == n { SplitEdgeBelow(t, root, n, d, c, m); }
      else if t[m].parent == t[n].parent { SplitEdgeLevel(t, root, n, d, c, m); if m != n { SameSibling(t, root, m, n); } }
      else { SplitEdgeOther(t, root, n, d, c, m); }
    }
  }

  lemma {:induction false} TallerEdges(t: Heap, root: Id, top: Id, max: nat, n: Id)
    requires Shape(t, root) && top !in t && n in t
    ensures RightEdge(t, root, n) ==> RightEdge(Taller(t, root, top, max), top, n)
    ensures LeftEdge(t, root, n) ==> LeftEdge(Taller(t, root, top, max), top, n)
    decreases t[root].lvl - t[n].lvl
  {
    var t' := Taller(t, root, top, max);
    TallerShape(t, root, top, max);
    EdgeUp(t', top, n);
    if n != root {
      EdgeUp(t, root, n);
      TallerEdges(t, root, top, max, t[n].parent);
    }
  }

  // ---- counts ------------------------------------------------------------------------------------------

  lemma ShareSizes(most: nat, t: Heap, root: Id, l: Id, r: Id, c: nat, hole: Hole)
    requires Shape(t, root) && CanShare(t, root, l, r, c) && Sizes(most, t, root, NoHole)
    requires c <= most && |Both(t, l, r)| - c - 1 <= most
    requires (c > 0 || hole == Hole(l)) && (c + 1 < |Both(t, l, r)| || hole == Hole(r))
    ensures Sizes(most, Share(t, l, r, c), root, hole)
  {
    var t' := Share(t, l, r, c);
    SiblingLinks(t, root, l, r);
    ShareBody(t, root, l, r, c, root);
    forall n | n in t' ensures SizeOk(most, t', root, hole, n) {
      ShareBody(t, root, l, r, c, n);
      MovedAt(t, root, l, r, c, n);
      assert SizeOk(most, t, root, NoHole, n) && SizeOk(most, t, root, NoHole, l) && SizeOk(most, t, root, NoHole, r);
    }
  }

  lemma SplitSizes(most: nat, t: Heap, root: Id, n: Id, d: Id, c: nat, hole: Hole, hole': Hole)
    requires Shape(t, root) && CanSplit(t, root, n, d, c) && Sizes(most, t, root, hole)
    requires (hole.NoHole? || hole == Hole(t[n].parent)) && |t[t[n].parent].keys| < most
    requires (c > 0 || hole' == Hole(n)) && (c + 1 < |t[n].keys| || hole' == Hole(d))
    ensures Sizes(most, Split(t, n, d, c), root, hole')
  {
    var t' := Split(t, n, d, c);
    SplitPossible(t, root, n, d, c);
    SplitBody(t, root, n, d, c, d);
    CutAt(t, root, n, d, c, n);
    forall m | m in t' ensures SizeOk(most, t', root, hole', m) {
      if m != d { CutAt(t, root, n, d, c, m); assert SizeOk(most, t, root, hole, m); }
      SplitBody(t, root, n, d, c, m);
      assert SizeOk(most, t, root, hole, n) && SizeOk(most, t, root, hole, t[n].parent);
    }
  }

  lemma TallerSizes(most: nat, t: Heap, root: Id, top: Id)
    requires Shape(t, root) && top !in t && Sizes(most, t, root, NoHole) && t[root].max == most
    ensures Sizes(most, Taller(t, root, top, most), top, Hole(top))
  {
    var t' := Taller(t, root, top, most);
    assert SizeOk(most, t, root, NoHole, root);
    forall n | n in t' ensures SizeOk(most, t', top, Hole(top), n) {
      if n != top { assert SizeOk(most, t, root, NoHole, n); }
    }
  }

  // ---- recognising the result of a step -----------------------------------------------------------------

  lemma IsShare(t: Heap, root: Id, l: Id, r: Id, c: nat, t': Heap)
    requires Shape(t, root) && CanShare(t, root, l, r, c) && t'.Keys == t.Keys
    requires forall m :: m in t ==> m in Moved(t, l, r, c) && SameBody(Moved(t, l, r, c)[m], t'[m])
    requires ShareLinked(t, l, r, c, t')
    ensures t' == Share(t, l, r, c)
  {
    ShareBody(t, root, l, r, c, root);
    forall m | m in t ensures m in Share(t, l, r, c) && t'[m] == Share(t, l, r, c)[m] {
      IsShareAt(t, root, l, r, c, t', m);
    }
    EqualHeaps(t', Share(t, l, r, c));
  }

  lemma EqualHeaps(a: Heap, b: Heap)
    requires a.Keys == b.Keys && forall m :: m in a ==> m in b && a[m] == b[m]
    ensures a == b
  {}

  lemma IsShareAt(t: Heap, root: Id, l: Id, r: Id, c: nat, t': Heap, m: Id)
    requires Shape(t, root) && CanShare(t, root, l, r, c) && m in t && m in t' && m in Moved(t, l, r, c)
    requires SameBody(Moved(t, l, r, c)[m], t'[m]) && ShareLinked(t, l, r, c, t')
    ensures m in Share(t, l, r, c) && t'[m] == Share(t, l, r, c)[m]
  {
    ShareBody(t, root, l, r, c, m);
    IsShareLinks(t, root, l, r, c, t', m);
  }

  /** The kids of both siblings point to where Share puts them, the rest to where they did. */
  ghost predicate ShareLinked(t: Heap, l: Id, r: Id, c: nat, t': Heap)
    requires l in t && r in t
  {
    var kids := t[l].kids + t[r].kids;
    var kl, kr := FirstKids(t[l].lvl, kids, c), RestKids(t[l].lvl, kids, c);
    && (forall i :: 0 <= i < |kl| ==> kl[i] in t' && t'[kl[i]].parent == l && t'[kl[i]].pos == i)
    && (forall i :: 0 <= i < |kr| ==> kr[i] in t' && t'[kr[i]].parent == r && t'[kr[i]].pos == i)
    && (forall m :: m in t && m !in kids ==> m in t' && t'[m].parent == t[m].parent && t'[m].pos == t[m].pos)
  }

  lemma IsShareLinks(t: Heap, root: Id, l: Id, r: Id, c: nat, t': Heap, m: Id)
    requires Shape(t, root) && CanShare(t, root, l, r, c) && ShareLinked(t, l, r, c, t') && m in t && m in t'
    ensures m in Share(t, l, r, c) && t'[m].parent == Share(t, l, r, c)[m].parent && t'[m].pos == Share(t, l, r, c)[m].pos
  {
    KidsCut(t, root, l, r, c);
    ShareBody(t, root, l, r, c, m);
    ShareLinks(t, root, l, r, c, m);
    var kids := t[l].kids + t[r].kids;
    assert m in kids <==> m in FirstKids(t[l].lvl, kids, c) + RestKids(t[l].lvl, kids, c);
  }

  /** The kids of the parent and of the new node point to where Split puts them, the rest to where they did. */
  ghost predicate SplitLinked(t: Heap, n: Id, d: Id, c: nat, t': Heap)
    requires n in t && t[n].parent in t && t[n].pos < |t[t[n].parent].kids|
  {
    var p, i := t[n].parent, t[n].pos;
    var kd, kp := RestKids(t[n].lvl, t[n].kids, c), t[p].kids[..i + 1] + [d] + t[p].kids[i + 1..];
    && (forall j :: 0 <= j < |kp| ==> kp[j] in t' && t'[kp[j]].parent == p && t'[kp[j]].pos == j)
    && (forall j :: 0 <= j < |kd| ==> kd[j] in t' && t'[kd[j]].parent == d && t'[kd[j]].pos == j)
    && (forall m :: m in t && m !in kp && m !in kd ==> m in t' && t'[m].parent == t[m].parent && t'[m].pos == t[m].pos)
  }

  lemma IsSplit(t: Heap, root: Id, n: Id, d: Id, c: nat, t': Heap)
    requires Shape(t, root) && CanSplit(t, root, n, d, c) && t'.Keys == t.Keys + {d}
    requires forall m :: m in t' ==> m in Cut(t, n, d, c) && SameBody(Cut(t, n, d, c)[m], t'[m])
    requires SplitLinked(t, n, d, c, t')
    ensures t' == Split(t, n, d, c)
  {
    SplitBody(t, root, n, d, c, n);
    forall m | m in t' ensures m in Split(t, n, d, c) && t'[m] == Split(t, n, d, c)[m] {
      IsSplitAt(t, root, n, d, c, t', m);
    }
    EqualHeaps(t', Split(t, n, d, c));
  }

  lemma IsSplitAt(t: Heap, root: Id, n: Id, d: Id, c: nat, t': Heap, m: Id)
    requires Shape(t, root) && CanSplit(t, root, n, d, c) && (m in t || m == d) && m in t'
    requires m in Cut(t, n, d, c) && SameBody(Cut(t, n, d, c)[m], t'[m]) && SplitLinked(t, n, d, c, t')
    ensures m in Split(t, n, d, c) && t'[m] == Split(t, n, d, c)[m]
  {
    SplitKids(t, root, n, d, c);
    CutAt(t, root, n, d, c, n);
    SplitBody(t, root, n, d, c, m);
    SplitLinks(t, root, n, d, c, m);
    if m != d { CutAt(t, root, n, d, c, m); }
  }
}
