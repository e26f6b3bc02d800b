/** Sharing and splitting keep the links of the tree. */
module BTreeMoves {
  import opened BTreeShape

  // ---- sharing --------------------------------------------------------------------------------

  lemma SharePossible(t: Heap, root: Id, l: Id, r: Id, c: nat)
    requires Shape(t, root) && Siblings(t, root, l, r)
    requires c <= |t[l].keys| + |t[r].keys|
    ensures CanShare(t, root, l, r, c)
  {
    SiblingLinks(t, root, l, r);
  }

  lemma DistinctSplit(a: seq<Id>, b: seq<Id>)
    requires Distinct(a + b)
    ensures Distinct(a) && Distinct(b) && forall m :: m in a ==> m !in b
  {
    forall i, j | 0 <= i < j < |a| ensures a[i] != a[j] { assert (a + b)[i] != (a + b)[j]; }
    forall i, j | 0 <= i < j < |b| ensures b[i] != b[j] { assert (a + b)[|a| + i] != (a + b)[|a| + j]; }
    forall i, j | 0 <= i < |a| && 0 <= j < |b| ensures a[i] != b[j] { assert (a + b)[i] != (a + b)[|a| + j]; }
  }

  /** The kids of both siblings, cut after kid c. */
  lemma KidsCut(t: Heap, root: Id, l: Id, r: Id, c: nat)
    requires Shape(t, root) && CanShare(t, root, l, r, c)
    ensures var kids := t[l].kids + t[r].kids;
      var kl, kr := FirstKids(t[l].lvl, kids, c), RestKids(t[l].lvl, kids, c);
      && kl + kr == kids && Distinct(kl) && Distinct(kr)
      && |kl| == (if t[l].lvl == 0 then 0 else c + 1)
      && |kr| == (if t[l].lvl == 0 then 0 else |Both(t, l, r)| - c)
      && (forall m :: m in kl ==> m !in kr)
  {
    SiblingLinks(t, root, l, r);
    SiblingKids(t, root, l, r);
    var kids := t[l].kids + t[r].kids;
    var kl, kr := FirstKids(t[l].lvl, kids, c), RestKids(t[l].lvl, kids, c);
    assert kl + kr == kids;
    DistinctSplit(kl, kr);
  }

  lemma ShareDownSibling(t: Heap, root: Id, l: Id, r: Id, c: nat, n: Id)
    requires Shape(t, root) && CanShare(t, root, l, r, c) && (n == l || n == r)
    ensures n in Share(t, l, r, c) && Down(Share(t, l, r, c), root, n)
  {
    ShareBody(t, root, l, r, c, n);
    MovedAt(t, root, l, r, c, n);
    SiblingLinks(t, root, l, r);
    KidsCut(t, root, l, r, c);
    forall i | 0 <= i < |Share(t, l, r, c)[n].kids| ensures Child(Share(t, l, r, c), root, n, i) {
      ShareKid(t, root, l, r, c, n, i);
    }
  }

  lemma ShareKid(t: Heap, root: Id, l: Id, r: Id, c: nat, n: Id, i: nat)
    requires Shape(t, root) && CanShare(t, root, l, r, c) && (n == l || n == r)
    requires n in Share(t, l, r, c) && i < |Share(t, l, r, c)[n].kids|
    ensures Child(Share(t, l, r, c), root, n, i)
  {
    var t' := Share(t, l, r, c);
    ShareBody(t, root, l, r, c, n);
    MovedAt(t, root, l, r, c, n);
    SiblingLinks(t, root, l, r);
    SiblingKids(t, root, l, r);
    KidsCut(t, root, l, r, c);
    var kids := t[l].kids + t[r].kids;
    var k := t'[n].kids[i];
    IndexOf(t'[n].kids, i);
    assert k in FirstKids(t[l].lvl, kids, c) + RestKids(t[l].lvl, kids, c);
    ShareBody(t, root, l, r, c, k);
    MovedAt(t, root, l, r, c, k);
    ShareLinks(t, root, l, r, c, k);
    assert Up(t, root, k);
  }

  lemma ShareDownOther(t: Heap, root: Id, l: Id, r: Id, c: nat, n: Id)
    requires Shape(t, root) && CanShare(t, root, l, r, c) && n in t && n != l && n != r
    ensures n in Share(t, l, r, c) && Down(Share(t, l, r, c), root, n)
  {
    var t' := Share(t, l, r, c);
    ShareBody(t, root, l, r, c, n);
    MovedAt(t, root, l, r, c, n);
    SiblingKids(t, root, l, r);
    KidsCut(t, root, l, r, c);
    assert Down(t, root, n);
    forall i | 0 <= i < |t'[n].kids| ensures Child(t', root, n, i) {
      assert Child(t, root, n, i);
      var k := t[n].kids[i];
      assert k !in FirstKids(t[l].lvl, t[l].kids + t[r].kids, c) + RestKids(t[l].lvl, t[l].kids + t[r].kids, c);
      ShareBody(t, root, l, r, c, k);
      MovedAt(t, root, l, r, c, k);
      ShareLinks(t, root, l, r, c, k);
    }
  }

  lemma ShareUp(t: Heap, root: Id, l: Id, r: Id, c: nat, n: Id)
    requires Shape(t, root) && CanShare(t, root, l, r, c) && n in t
    ensures n in Share(t, l, r, c) && root in Share(t, l, r, c) && Up(Share(t, l, r, c), root, n)
  {
    ShareBody(t, root, l, r, c, n);
    ShareBody(t, root, l, r, c, root);
    ShareLinks(t, root, l, r, c, n);
    MovedAt(t, root, l, r, c, n);
    MovedAt(t, root, l, r, c, root);
    SiblingLinks(t, root, l, r);
    SiblingKids(t, root, l, r);
    KidsCut(t, root, l, r, c);
    assert Up(t, root, n);
    var kids := t[l].kids + t[r].kids;
    assert n in kids <==> n in FirstKids(t[l].lvl, kids, c) + RestKids(t[l].lvl, kids, c);
    if n != root {
      ShareBody(t, root, l, r, c, l);
      ShareBody(t, root, l, r, c, r);
      ShareBody(t, root, l, r, c, t[n].parent);
      MovedAt(t, root, l, r, c, t[n].parent);
    }
  }

  lemma ShareShape(t: Heap, root: Id, l: Id, r: Id, c: nat)
    requires Shape(t, root) && CanShare(t, root, l, r, c)
    ensures Shape(Share(t, l, r, c), root)
  {
    var t' := Share(t, l, r, c);
    ShareBody(t, root, l, r, c, root);
    forall n | n in t' ensures Down(t', root, n) && Up(t', root, n) {
      ShareUp(t, root, l, r, c, n);
      if n == l || n == r { ShareDownSibling(t, root, l, r, c, n); } else { ShareDownOther(t, root, l, r, c, n); }
    }
  }

  // ---- splitting --------------------------------------------------------------------------------

  lemma SplitPossible(t: Heap, root: Id, n: Id, d: Id, c: nat)
    requires Shape(t, root) && n in t && n != root && d !in t && c < |t[n].keys|
    ensures CanSplit(t, root, n, d, c)
    ensures |t[n].kids| == (if t[n].lvl == 0 then 0 else |t[n].keys| + 1)
    ensures var p := t[n].parent; |t[p].kids| == |t[p].keys| + 1 && t[p].lvl == t[n].lvl + 1 && t[p].kids[t[n].pos] == n
  {
    assert Up(t, root, n) && Down(t, root, n) && Down(t, root, t[n].parent);
  }

  /** The kids of node n and of its parent after the cut. */
  lemma SplitKids(t: Heap, root: Id, n: Id, d: Id, c: nat)
    requires Shape(t, root) && CanSplit(t, root, n, d, c)
    ensures var p, i := t[n].parent, t[n].pos;
      var kn, kd := FirstKids(t[n].lvl, t[n].kids, c), RestKids(t[n].lvl, t[n].kids, c);
      var kp := t[p].kids[..i + 1] + [d] + t[p].kids[i + 1..];
      && kn + kd == t[n].kids && Distinct(kn) && Distinct(kd) && Distinct(kp)
      && |kn| == (if t[n].lvl == 0 then 0 else c + 1) && |kd| == (if t[n].lvl == 0 then 0 else |t[n].keys| - c)
      && (forall m :: m in kn ==> m !in kd)
      && (forall m :: m in kd || m in kn ==> m in t && m != root && t[m].parent == n && m !in kp && t[m].lvl + 1 == t[n].lvl)
      && (forall m :: m in t[p].kids ==> m in t && m != root && t[m].parent == p && t[m].lvl + 1 == t[p].lvl)
      && (forall m :: m in kp <==> m == d || m in t[p].kids)
  {
    var p, i := t[n].parent, t[n].pos;
    SplitPossible(t, root, n, d, c);
    KidsDistinct(t, root, n);
    KidsDistinct(t, root, p);
    KidsOf(t, root, n);
    KidsOf(t, root, p);
    var kn, kd := FirstKids(t[n].lvl, t[n].kids, c), RestKids(t[n].lvl, t[n].kids, c);
    assert kn + kd == t[n].kids;
    DistinctSplit(kn, kd);
    InsertedKid(t[p].kids, i, d);
    assert forall m :: m in kn + kd <==> m in kn || m in kd;
  }

  lemma KidsOf(t: Heap, root: Id, n: Id)
    requires n in t && Down(t, root, n)
    ensures forall m :: m in t[n].kids ==> m in t && m != root && t[m].parent == n && t[m].lvl + 1 == t[n].lvl
  {
    forall m | m in t[n].kids ensures m in t && m != root && t[m].parent == n && t[m].lvl + 1 == t[n].lvl {
      var i :| 0 <= i < |t[n].kids| && t[n].kids[i] == m;
      assert Child(t, root, n, i);
    }
  }

  lemma InsertedKid(kids: seq<Id>, i: nat, d: Id)
    requires i < |kids| && Distinct(kids) && d !in kids
    ensures var ks := kids[..i + 1] + [d] + kids[i + 1..]; Distinct(ks) && forall m :: m in ks <==> m == d || m in kids
  {
    var ks := kids[..i + 1] + [d] + kids[i + 1..];
    assert kids == kids[..i + 1] + kids[i + 1..];
    forall a, b | 0 <= a < b < |ks| ensures ks[a] != ks[b] {
      var a', b' := if a <= i then a else a - 1, if b <= i then b else b - 1;
      if a != i + 1 { assert ks[a] == kids[a']; }
      if b != i + 1 { assert ks[b] == kids[b']; }
    }
  }

  lemma SplitDownNode(t: Heap, root: Id, n: Id, d: Id, c: nat, m: Id)
    requires Shape(t, root) && CanSplit(t, root, n, d, c) && (m == n || m == d)
    ensures m in Split(t, n, d, c) && Down(Split(t, n, d, c), root, m)
  {
    var t' := Split(t, n, d, c);
    SplitBody(t, root, n, d, c, m);
    CutAt(t, root, n, d, c, n);
    SplitKids(t, root, n, d, c);
    assert Down(t, root, n);
    forall i | 0 <= i < |t'[m].kids| ensures Child(t', root, m, i) {
      var k := t'[m].kids[i];
      IndexOf(t'[m].kids, i);
      SplitNodeKid(t, root, n, d, c, m, i);
    }
  }

  lemma SplitNodeKid(t: Heap, root: Id, n: Id, d: Id, c: nat, m: Id, i: nat)
    requires Shape(t, root) && CanSplit(t, root, n, d, c) && (m == n || m == d)
    requires m in Split(t, n, d, c) && i < |Split(t, n, d, c)[m].kids|
    ensures Child(Split(t, n, d, c), root, m, i)
  {
    var t' := Split(t, n, d, c);
    SplitBody(t, root, n, d, c, m);
    CutAt(t, root, n, d, c, n);
    SplitKids(t, root, n, d, c);
    var k := t'[m].kids[i];
    IndexOf(t'[m].kids, i);
    assert k in t[n].kids by { assert k in FirstKids(t[n].lvl, t[n].kids, c) + RestKids(t[n].lvl, t[n].kids, c); }
    assert Down(t, root, n);
    var j := Index(t[n].kids, k);
    assert Child(t, root, n, j);
    assert m == n ==> j == i by {
      KidsDistinct(t, root, n);
      if m == n { assert t[n].kids[i] == k; IndexOf(t[n].kids, i); }
    }
    CutAt(t, root, n, d, c, k);
    SplitBody(t, root, n, d, c, k);
    SplitLinks(t, root, n, d, c, k);
  }

  lemma SplitDownParent(t: Heap, root: Id, n: Id, d: Id, c: nat)
    requires Shape(t, root) && CanSplit(t, root, n, d, c)
    ensures t[n].parent in Split(t, n, d, c) && Down(Split(t, n, d, c), root, t[n].parent)
  {
    var t', p := Split(t, n, d, c), t[n].parent;
    SplitBody(t, root, n, d, c, p);
    CutAt(t, root, n, d, c, n);
    SplitPossible(t, root, n, d, c);
    SplitKids(t, root, n, d, c);
    forall i | 0 <= i < |t'[p].kids| ensures Child(t', root, p, i) {
      var k := t'[p].kids[i];
      IndexOf(t'[p].kids, i);
      if k != d { CutAt(t, root, n, d, c, k); }
      SplitBody(t, root, n, d, c, k);
      SplitLinks(t, root, n, d, c, k);
    }
  }

  lemma SplitDownOther(t: Heap, root: Id, n: Id, d: Id, c: nat, m: Id)
    requires Shape(t, root) && CanSplit(t, root, n, d, c) && m in t && m != n && m != t[n].parent
    ensures m in Split(t, n, d, c) && Down(Split(t, n, d, c), root, m)
  {
    var t', p := Split(t, n, d, c), t[n].parent;
    SplitBody(t, root, n, d, c, m);
    CutAt(t, root, n, d, c, m);
    SplitKids(t, root, n, d, c);
    assert Down(t, root, m);
    forall i | 0 <= i < |t'[m].kids| ensures Child(t', root, m, i) {
      assert Child(t, root, m, i);
      var k := t[m].kids[i];
      CutAt(t, root, n, d, c, k);
      SplitBody(t, root, n, d, c, k);
      SplitLinks(t, root, n, d, c, k);
    }
  }

  lemma SplitUp(t: Heap, root: Id, n: Id, d: Id, c: nat, m: Id)
    requires Shape(t, root) && CanSplit(t, root, n, d, c) && (m in t || m == d)
    ensures m in Split(t, n, d, c) && root in Split(t, n, d, c) && Up(Split(t, n, d, c), root, m)
  {
    var t', p := Split(t, n, d, c), t[n].parent;
    SplitBody(t, root, n, d, c, m);
    SplitBody(t, root, n, d, c, root);
    CutAt(t, root, n, d, c, root);
    SplitPossible(t, root, n, d, c);
    SplitKids(t, root, n, d, c);
    assert Up(t, root, n);
    if m != root {
      SplitLinks(t, root, n, d, c, m);
      SplitBody(t, root, n, d, c, p);
      SplitBody(t, root, n, d, c, d);
      SplitBody(t, root, n, d, c, n);
      if m != d {
        assert Up(t, root, m);
        CutAt(t, root, n, d, c, m);
        CutAt(t, root, n, d, c, t[m].parent);
        SplitBody(t, root, n, d, c, t[m].parent);
        SplitUpKid(t, root, n, d, c, m);
      }
    }
  }

  /** A kid of n stays in one of the two halves. */
  lemma SplitUpKid(t: Heap, root: Id, n: Id, d: Id, c: nat, m: Id)
    requires Shape(t, root) && CanSplit(t, root, n, d, c) && m in t && m != root
    ensures t[m].parent == n ==>
      m in FirstKids(t[n].lvl, t[n].kids, c) + RestKids(t[n].lvl, t[n].kids, c)
      && (m !in RestKids(t[n].lvl, t[n].kids, c) ==>
            t[m].pos < |FirstKids(t[n].lvl, t[n].kids, c)| && FirstKids(t[n].lvl, t[n].kids, c)[t[m].pos] == m)
    ensures t[m].parent == t[n].parent ==> m in t[t[n].parent].kids
  {
    assert Up(t, root, m);
    SplitKids(t, root, n, d, c);
    if t[m].parent == n {
      var kn, kd := FirstKids(t[n].lvl, t[n].kids, c), RestKids(t[n].lvl, t[n].kids, c);
      assert (kn + kd)[t[m].pos] == m;
    }
  }

  lemma SplitShape(t: Heap, root: Id, n: Id, d: Id, c: nat)
    requires Shape(t, root) && CanSplit(t, root, n, d, c)
    ensures Shape(Split(t, n, d, c), root)
  {
    var t' := Split(t, n, d, c);
    SplitBody(t, root, n, d, c, root);
    forall m | m in t' ensures Down(t', root, m) && Up(t', root, m) {
      SplitUp(t, root, n, d, c, m);
      if m == n || m == d { SplitDownNode(t, root, n, d, c, m); }
      else if m == t[n].parent { SplitDownParent(t, root, n, d, c); }
      else { SplitDownOther(t, root, n, d, c, m); }
    }
  }

  // ---- a new root --------------------------------------------------------------------------------

  lemma TallerShape(t: Heap, root: Id, top: Id, max: nat)
    requires Shape(t, root) && top !in t
    ensures Shape(Taller(t, root, top, max), top)
  {
    var t' := Taller(t, root, top, max);
    forall n | n in t' ensures Down(t', top, n) && Up(t', top, n) {
      if n != top {
        assert Down(t, root, n) && Up(t, root, n);
        forall i | 0 <= i < |t'[n].kids| ensures Child(t', top, n, i) { assert Child(t, root, n, i); }
      }
    }
  }
}
