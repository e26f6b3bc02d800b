/** Nodes of the B-tree, their links, and the two ways keys move between siblings. */
module BTreeShape {

  type Id = nat

  /** A node. Leaves have level 0 (a leaf is one whose stored maximum is not the internal marker).
      The parent of the root is the leftmost leaf. */
  datatype Node = Node(lvl: nat, max: nat, keys: seq<int>, kids: seq<Id>, parent: Id, pos: nat)

  type Heap = map<Id, Node>

  // ---- links ------------------------------------------------------------------------------

  predicate Child(t: Heap, root: Id, n: Id, i: nat)
    requires n in t && i < |t[n].kids|
  {
    var c := t[n].kids[i];
    c in t && c != root && t[c].parent == n && t[c].pos == i && t[c].lvl + 1 == t[n].lvl
  }

  ghost predicate Down(t: Heap, root: Id, n: Id)
    requires n in t
  {
    && |t[n].kids| == (if t[n].lvl == 0 then 0 else |t[n].keys| + 1)
    && forall i :: 0 <= i < |t[n].kids| ==> Child(t, root, n, i)
  }

  predicate Up(t: Heap, root: Id, n: Id)
    requires n in t && root in t
  {
    n != root ==>
      && t[n].parent in t && t[t[n].parent].lvl == t[n].lvl + 1
      && t[n].pos < |t[t[n].parent].kids| && t[t[n].parent].kids[t[n].pos] == n
      && t[n].lvl < t[root].lvl
  }

  /** Parent links, positions and levels are right: every node hangs from the root at one place,
      and all leaves are at one depth. */
  ghost predicate Shape(t: Heap, root: Id) {
    root in t && forall n {:trigger Down(t, root, n)} {:trigger Up(t, root, n)} :: n in t ==> Down(t, root, n) && Up(t, root, n)
  }

  predicate Siblings(t: Heap, root: Id, l: Id, r: Id) {
    && l in t && r in t && l != root && r != root
    && t[l].parent == t[r].parent && t[l].pos + 1 == t[r].pos
  }

  lemma SiblingLinks(t: Heap, root: Id, l: Id, r: Id)
    requires Shape(t, root) && Siblings(t, root, l, r)
    ensures var p := t[l].parent; var i := t[l].pos;
      && p in t && t[p].lvl == t[l].lvl + 1 && t[p].lvl == t[r].lvl + 1 && i < |t[p].keys|
      && |t[p].kids| == |t[p].keys| + 1 && t[p].kids[i] == l && t[p].kids[i + 1] == r && l != r && p != l && p != r
    ensures |t[l].kids| == (if t[l].lvl == 0 then 0 else |t[l].keys| + 1)
    ensures |t[r].kids| == (if t[l].lvl == 0 then 0 else |t[r].keys| + 1)
  {
    assert Up(t, root, l) && Up(t, root, r);
    assert Down(t, root, t[l].parent) && Down(t, root, l) && Down(t, root, r);
  }

  // ---- adoption -----------------------------------------------------------------------------

  function Index(kids: seq<Id>, m: Id): (i: nat)
    requires m in kids
    ensures i < |kids| && kids[i] == m
  {
    if kids[0] == m then 0 else 1 + Index(kids[1..], m)
  }

  predicate Distinct(kids: seq<Id>) { forall i, j :: 0 <= i < j < |kids| ==> kids[i] != kids[j] }

  /** init_child for every child of n. */
  function Adopt(t: Heap, n: Id): (t': Heap)
    requires n in t
    ensures t'.Keys == t.Keys
  {
    map m | m in t :: if m in t[n].kids then t[m].(parent := n, pos := Index(t[n].kids, m)) else t[m]
  }

  // ---- sharing keys between siblings ----------------------------------------------------------

  /** The keys of siblings l and r with the key between them. */
  function Both(t: Heap, l: Id, r: Id): seq<int>
    requires l in t && r in t && t[l].parent in t && t[l].pos < |t[t[l].parent].keys|
  {
    t[l].keys + [t[t[l].parent].keys[t[l].pos]] + t[r].keys
  }

  /** The first kids, one more than keys; none in a leaf. */
  function FirstKids(lvl: nat, kids: seq<Id>, c: nat): seq<Id> {
    if lvl == 0 || |kids| <= c then [] else kids[..c + 1]
  }

  function RestKids(lvl: nat, kids: seq<Id>, c: nat): seq<Id> {
    if lvl == 0 || |kids| <= c then [] else kids[c + 1..]
  }

  /** Siblings l and r share their keys anew: c keys go to l, the next one between them. */
  function Moved(t: Heap, l: Id, r: Id, c: nat): Heap
    requires l in t && r in t && t[l].parent in t && t[l].pos < |t[t[l].parent].keys| && c < |Both(t, l, r)|
  {
    var p := t[l].parent;
    var keys := Both(t, l, r);
    var kids := t[l].kids + t[r].kids;
    t[l := t[l].(keys := keys[..c], kids := FirstKids(t[l].lvl, kids, c))]
     [r := t[r].(keys := keys[c + 1..], kids := RestKids(t[l].lvl, kids, c))]
     [p := t[p].(keys := t[p].keys[t[l].pos := keys[c]])]
  }

  function Share(t: Heap, l: Id, r: Id, c: nat): Heap
    requires l in t && r in t && t[l].parent in t && t[l].pos < |t[t[l].parent].keys| && c < |Both(t, l, r)|
  {
    Adopt(Adopt(Moved(t, l, r, c), l), r)
  }

  // ---- splitting a node -----------------------------------------------------------------------

  /** Node n keeps c keys; the next key goes up into its parent, the rest to the new node d, which
      becomes n's right sibling. */
  function Cut(t: Heap, n: Id, d: Id, c: nat): Heap
    requires n in t && t[n].parent in t && c < |t[n].keys|
    requires t[n].pos <= |t[t[n].parent].keys| && t[n].pos < |t[t[n].parent].kids|
  {
    var p := t[n].parent;
    var i := t[n].pos;
    t[n := t[n].(keys := t[n].keys[..c], kids := FirstKids(t[n].lvl, t[n].kids, c))]
     [d := Node(t[n].lvl, t[n].max, t[n].keys[c + 1..], RestKids(t[n].lvl, t[n].kids, c), p, i + 1)]
     [p := t[p].(keys := t[p].keys[..i] + [t[n].keys[c]] + t[p].keys[i..],
                 kids := t[p].kids[..i + 1] + [d] + t[p].kids[i + 1..])]
  }

  function Split(t: Heap, n: Id, d: Id, c: nat): Heap
    requires n in t && t[n].parent in t && c < |t[n].keys|
    requires t[n].pos <= |t[t[n].parent].keys| && t[n].pos < |t[t[n].parent].kids|
  {
    Adopt(Adopt(Cut(t, n, d, c), t[n].parent), d)
  }

  /** A new root above the old one, with no key yet. */
  function Taller(t: Heap, root: Id, top: Id, max: nat): Heap
    requires root in t
  {
    t[top := Node(t[root].lvl + 1, max, [], [root], t[root].parent, 0)][root := t[root].(parent := top, pos := 0)]
  }

  // ---- shape is kept ---------------------------------------------------------------------------

  lemma KidsDistinct(t: Heap, root: Id, n: Id)
    requires n in t && Down(t, root, n)
    ensures Distinct(t[n].kids)
  {
    forall i, j | 0 <= i < j < |t[n].kids| ensures t[n].kids[i] != t[n].kids[j] {
      assert Child(t, root, n, i) && Child(t, root, n, j);
    }
  }

  lemma IndexOf(kids: seq<Id>, i: nat)
    requires Distinct(kids) && i < |kids|
    ensures Index(kids, kids[i]) == i
  {}

  /** Moved kids: where the i-th kid of both siblings ends up. */
  lemma SiblingKids(t: Heap, root: Id, l: Id, r: Id)
    requires Shape(t, root) && Siblings(t, root, l, r)
    ensures Distinct(t[l].kids + t[r].kids)
    ensures forall m :: m in t[l].kids + t[r].kids <==> m in t && m != root && (t[m].parent == l || t[m].parent == r)
    ensures l !in t[l].kids + t[r].kids && r !in t[l].kids + t[r].kids && t[l].parent !in t[l].kids + t[r].kids
  {
    var kids := t[l].kids + t[r].kids;
    SiblingLinks(t, root, l, r);
    assert Down(t, root, l) && Down(t, root, r);
    forall i | 0 <= i < |kids| ensures kids[i] in t && kids[i] != root && t[kids[i]].lvl + 1 == t[l].lvl
      && t[kids[i]].parent == (if i < |t[l].kids| then l else r)
      && t[kids[i]].pos == (if i < |t[l].kids| then i else i - |t[l].kids|)
    {
      if i < |t[l].kids| { assert Child(t, root, l, i); } else { assert Child(t, root, r, i - |t[l].kids|); }
    }
    forall m | m in t && m != root && (t[m].parent == l || t[m].parent == r) ensures m in kids {
      assert Up(t, root, m);
      if t[m].parent == l { assert kids[t[m].pos] == m; } else { assert kids[|t[l].kids| + t[m].pos] == m; }
    }
  }

  predicate CanShare(t: Heap, root: Id, l: Id, r: Id, c: nat) {
    && Siblings(t, root, l, r) && t[l].parent in t && t[l].pos < |t[t[l].parent].keys| && c < |Both(t, l, r)|
    && l != r && t[l].parent != l && t[l].parent != r
  }

  /** The same but for links upwards. */
  predicate SameBody(x: Node, y: Node) { y == x.(parent := y.parent, pos := y.pos) }

  lemma AdoptAt(t: Heap, n: Id, m: Id)
    requires n in t && m in t
    ensures SameBody(t[m], Adopt(t, n)[m])
    ensures m !in t[n].kids ==> Adopt(t, n)[m] == t[m]
    ensures m in t[n].kids ==> Adopt(t, n)[m].parent == n && Adopt(t, n)[m].pos == Index(t[n].kids, m)
  {}

  /** What becomes of the records of the two siblings, their parent and the rest. */
  lemma MovedAt(t: Heap, root: Id, l: Id, r: Id, c: nat, m: Id)
    requires CanShare(t, root, l, r, c) && m in t
    ensures var a, kids, p := Moved(t, l, r, c), t[l].kids + t[r].kids, t[l].parent;
      && a.Keys == t.Keys
      && a[l] == t[l].(keys := Both(t, l, r)[..c], kids := FirstKids(t[l].lvl, kids, c))
      && a[r] == t[r].(keys := Both(t, l, r)[c + 1..], kids := RestKids(t[l].lvl, kids, c))
      && a[p] == t[p].(keys := t[p].keys[t[l].pos := Both(t, l, r)[c]])
      && (m != l && m != r && m != p ==> a[m] == t[m])
  {}

  /** Node by node, what Share leaves. */
  lemma ShareBody(t: Heap, root: Id, l: Id, r: Id, c: nat, m: Id)
    requires CanShare(t, root, l, r, c) && m in t
    ensures Share(t, l, r, c).Keys == t.Keys && SameBody(Moved(t, l, r, c)[m], Share(t, l, r, c)[m])
  {
    var a := Moved(t, l, r, c);
    MovedAt(t, root, l, r, c, m);
    AdoptAt(a, l, m);
    AdoptAt(Adopt(a, l), r, m);
  }

  lemma ShareLinks(t: Heap, root: Id, l: Id, r: Id, c: nat, m: Id)
    requires CanShare(t, root, l, r, c) && m in t
    ensures var t', kids := Share(t, l, r, c), t[l].kids + t[r].kids;
      var kl, kr := FirstKids(t[l].lvl, kids, c), RestKids(t[l].lvl, kids, c);
      && (m in kr ==> t'[m].parent == r && t'[m].pos == Index(kr, m))
      && (m in kl && m !in kr ==> t'[m].parent == l && t'[m].pos == Index(kl, m))
      && (m !in kl && m !in kr ==> t'[m].parent == t[m].parent && t'[m].pos == t[m].pos)
  {
    var a := Moved(t, l, r, c);
    MovedAt(t, root, l, r, c, m);
    AdoptAt(a, l, m);
    AdoptAt(a, l, r);
    AdoptAt(Adopt(a, l), r, m);
  }

  predicate CanSplit(t: Heap, root: Id, n: Id, d: Id, c: nat) {
    && n in t && n != root && d !in t && t[n].parent in t && t[n].parent != n && c < |t[n].keys|
    && t[n].pos <= |t[t[n].parent].keys| && t[n].pos < |t[t[n].parent].kids|
  }

  lemma CutAt(t: Heap, root: Id, n: Id, d: Id, c: nat, m: Id)
    requires CanSplit(t, root, n, d, c) && m in t
    ensures var a, p, i := Cut(t, n, d, c), t[n].parent, t[n].pos;
      && a.Keys == t.Keys + {d}
      && a[n] == t[n].(keys := t[n].keys[..c], kids := FirstKids(t[n].lvl, t[n].kids, c))
      && a[d] == Node(t[n].lvl, t[n].max, t[n].keys[c + 1..], RestKids(t[n].lvl, t[n].kids, c), p, i + 1)
      && a[p] == t[p].(keys := t[p].keys[..i] + [t[n].keys[c]] + t[p].keys[i..],
                       kids := t[p].kids[..i + 1] + [d] + t[p].kids[i + 1..])
      && (m != n && m != p ==> a[m] == t[m])
  {}

  /** Node by node, what Split leaves. */
  lemma SplitBody(t: Heap, root: Id, n: Id, d: Id, c: nat, m: Id)
    requires CanSplit(t, root, n, d, c) && (m in t || m == d)
    ensures Split(t, n, d, c).Keys == t.Keys + {d} && m in Cut(t, n, d, c) && SameBody(Cut(t, n, d, c)[m], Split(t, n, d, c)[m])
  {
    var a := Cut(t, n, d, c);
    CutAt(t, root, n, d, c, n);
    AdoptAt(a, t[n].parent, m);
    AdoptAt(Adopt(a, t[n].parent), d, m);
  }

  lemma SplitLinks(t: Heap, root: Id, n: Id, d: Id, c: nat, m: Id)
    requires CanSplit(t, root, n, d, c) && (m in t || m == d)
    ensures var a, t', p := Cut(t, n, d, c), Split(t, n, d, c), t[n].parent;
      && d in a && p in a && m in a && m in t'
      && (m in a[d].kids ==> t'[m].parent == d && t'[m].pos == Index(a[d].kids, m))
      && (m in a[p].kids && m !in a[d].kids ==> t'[m].parent == p && t'[m].pos == Index(a[p].kids, m))
      && (m !in a[d].kids && m !in a[p].kids ==> t'[m].parent == a[m].parent && t'[m].pos == a[m].pos)
  {
    var a, p := Cut(t, n, d, c), t[n].parent;
    CutAt(t, root, n, d, c, n);
    AdoptAt(a, p, m);
    AdoptAt(a, p, d);
    AdoptAt(Adopt(a, p), d, m);
  }
}
