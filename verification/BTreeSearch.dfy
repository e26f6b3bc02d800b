/** Where a key belongs: search paths, and what putting a key into a leaf does to the order. */
module BTreeSearch {
  import opened Options
  import opened BTreeShape
  import opened BTreeMoves
  import opened BTreeOrder

  predicate Sorted(s: seq<int>) { forall i, j :: 0 <= i < j < |s| ==> s[i] < s[j] }

  /** k put before the first element that is not less. */
  function Ins(s: seq<int>, k: int): seq<int> {
    if s == [] || k <= s[0] then [k] + s else [s[0]] + Ins(s[1..], k)
  }

  /** The first element that is not less than k. */
  function NotLess(s: seq<int>, k: int): Option<int> {
    if s == [] then None else if k <= s[0] then Some(s[0]) else NotLess(s[1..], k)
  }

  lemma SortedCons(x: int, s: seq<int>)
    requires Sorted(s) && (s == [] || x < s[0])
    ensures Sorted([x] + s)
  {
    forall i, j | 0 <= i < j < |[x] + s| ensures ([x] + s)[i] < ([x] + s)[j] {
      if i == 0 { assert s[0] <= s[j - 1]; }
    }
  }

  lemma SortedRest(s: seq<int>)
    requires Sorted(s) && s != []
    ensures Sorted(s[1..]) && (s[1..] == [] || s[0] < s[1..][0])
  {}

  lemma {:induction false} InsSorted(s: seq<int>, k: int)
    requires Sorted(s) && k !in s
    ensures Sorted(Ins(s, k))
    ensures Ins(s, k) != [] && Ins(s, k)[0] == (if s == [] || k <= s[0] then k else s[0])
  {
    if s == [] || k <= s[0] {
      SortedCons(k, s);
    } else {
      SortedRest(s);
      InsSorted(s[1..], k);
      SortedCons(s[0], Ins(s[1..], k));
    }
  }

  lemma {:induction false} InsAdds(s: seq<int>, k: int)
    ensures multiset(Ins(s, k)) == multiset(s) + multiset{k} && |Ins(s, k)| == |s| + 1
  {
    if !(s == [] || k <= s[0]) {
      InsAdds(s[1..], k);
      assert s == [s[0]] + s[1..];
    }
  }

  lemma {:induction false} NotLessIs(s: seq<int>, k: int)
    requires Sorted(s)
    ensures k in s <==> NotLess(s, k) == Some(k)
  {
    if s != [] {
      assert s == [s[0]] + s[1..];
      NotLessIs(s[1..], k);
      if k <= s[0] { assert forall x :: x in s[1..] ==> s[0] < x; }
    }
  }

  lemma {:induction false} InsRight(b: seq<int>, c: seq<int>, k: int)
    requires c == [] || k <= c[0]
    ensures Ins(b + c, k) == Ins(b, k) + c
    ensures NotLess(b + c, k) == (if NotLess(b, k).Some? then NotLess(b, k) else if c == [] then None else Some(c[0]))
  {
    if b == [] {
      assert b + c == c;
    } else {
      assert (b + c)[1..] == b[1..] + c;
      InsRight(b[1..], c, k);
    }
  }

  lemma {:induction false} InsMiddle(a: seq<int>, b: seq<int>, c: seq<int>, k: int)
    requires forall x :: x in a ==> x < k
    requires c == [] || k <= c[0]
    ensures Ins(a + b + c, k) == a + Ins(b, k) + c
    ensures NotLess(a + b + c, k) == (if NotLess(b, k).Some? then NotLess(b, k) else if c == [] then None else Some(c[0]))
  {
    if a == [] {
      assert a + b + c == b + c;
      InsRight(b, c, k);
    } else {
      assert a[0] in a;
      assert (a + b + c)[1..] == a[1..] + b + c;
      assert forall x :: x in a[1..] ==> x in a;
      InsMiddle(a[1..], b, c, k);
      assert [a[0]] + (a[1..] + Ins(b, k) + c) == a + Ins(b, k) + c;
    }
  }

  // ---- putting a key into a leaf ---------------------------------------------------------------------

  /** emplace_value in a leaf. */
  function Put(t: Heap, j: Id, i: nat, k: int): Heap {
    if j in t && i <= |t[j].keys| then t[j := t[j].(keys := t[j].keys[..i] + [k] + t[j].keys[i..])] else t
  }

  predicate Leaf(t: Heap, j: Id) { j in t && t[j].lvl == 0 }

  lemma PutShape(t: Heap, root: Id, j: Id, i: nat, k: int)
    requires Shape(t, root) && Leaf(t, j)
    ensures Shape(Put(t, j, i, k), root)
  {
    var t' := Put(t, j, i, k);
    forall n | n in t' ensures Down(t', root, n) && Up(t', root, n) {
      assert Down(t, root, n) && Up(t, root, n);
      forall c | 0 <= c < |t'[n].kids| ensures Child(t', root, n, c) { assert Child(t, root, n, c); }
    }
  }

  /** The ancestor of n at level h, or n. */
  function Above(t: Heap, root: Id, n: Id, h: nat): (a: Id)
    decreases h
  {
    if h == 0 || n !in t || t[n].lvl >= h then n
    else var b := Above(t, root, n, h - 1); if b in t then t[b].parent else b
  }

  lemma KidNotAbove(t: Heap, root: Id, j: Id, n: Id, c: nat)
    requires Shape(t, root) && Leaf(t, j) && n in t && c < |t[n].kids| && t[n].lvl > 0
    requires Above(t, root, j, t[n].lvl) != n && Child(t, root, n, c)
    ensures Above(t, root, j, t[n].lvl - 1) != t[n].kids[c]
  {}

  lemma {:induction false} FramePut(t: Heap, root: Id, j: Id, i: nat, k: int, n: Id, h: nat)
    requires Shape(t, root) && Leaf(t, j) && n in t && t[n].lvl == h && Above(t, root, j, h) != n
    ensures SameOrder(t, Put(t, j, i, k), n, h)
    decreases h, 1
  {
    if h > 0 { FramePutKids(t, root, j, i, k, n, h); }
    NodeFrame(t, Put(t, j, i, k), n, h);
  }

  lemma {:induction false} FramePutKids(t: Heap, root: Id, j: Id, i: nat, k: int, n: Id, h: nat)
    requires Shape(t, root) && Leaf(t, j) && n in t && t[n].lvl == h > 0 && Above(t, root, j, h) != n
    ensures Parts(Put(t, j, i, k), t[n].kids, h - 1) == Parts(t, t[n].kids, h - 1)
    decreases h, 0
  {
    assert Down(t, root, n);
    forall c | 0 <= c < |t[n].kids| ensures SameOrder(t, Put(t, j, i, k), t[n].kids[c], h - 1) {
      FramePutKid(t, root, j, i, k, n, h, c);
    }
    PartsFrame(t, Put(t, j, i, k), t[n].kids, h - 1);
  }

  lemma {:induction false} FramePutKid(t: Heap, root: Id, j: Id, i: nat, k: int, n: Id, h: nat, c: nat)
    requires Shape(t, root) && Leaf(t, j) && n in t && t[n].lvl == h > 0 && Above(t, root, j, h) != n && c < |t[n].kids|
    ensures SameOrder(t, Put(t, j, i, k), t[n].kids[c], h - 1)
    decreases h - 1, 2
  {
    assert Down(t, root, n);
    assert Child(t, root, n, c);
    KidNotAbove(t, root, j, n, c);
    FramePut(t, root, j, i, k, t[n].kids[c], h - 1);
  }

  // ---- search paths ------------------------------------------------------------------------------------

  /** lower_bound: position i of a node's keys is the first not less than k. */
  predicate IsLower(keys: seq<int>, k: int, i: nat) {
    i <= |keys| && (forall j :: 0 <= j < i ==> keys[j] < k) && (forall j :: i <= j < |keys| ==> k <= keys[j])
  }

  /** Node n is where a search for k gets to. */
  ghost predicate OnPath(t: Heap, root: Id, n: Id, k: int)
    requires Shape(t, root) && n in t
    decreases t[root].lvl - t[n].lvl
  {
    n != root ==>
      (assert Up(t, root, n); assert Up(t, root, t[n].parent);
       IsLower(t[t[n].parent].keys, k, t[n].pos) && OnPath(t, root, t[n].parent, k))
  }

  /** internal_last: from a position past the keys of a node to the key that follows it. */
  function Next(t: Heap, root: Id, n: Id, i: nat, fuel: nat): Option<(Id, nat)>
    decreases fuel
  {
    if n !in t then None
    else if i < |t[n].keys| then Some((n, i))
    else if n == root || fuel == 0 then None
    else Next(t, root, t[n].parent, t[n].pos, fuel - 1)
  }

  function KeyAt(t: Heap, at: Option<(Id, nat)>): Option<int> {
    if at.Some? && at.value.0 in t && at.value.1 < |t[at.value.0].keys| then Some(t[at.value.0].keys[at.value.1]) else None
  }

  lemma {:induction false} HeadsLast(keys: seq<int>, parts: seq<seq<int>>)
    requires |keys| == |parts| > 0
    ensures var s := Heads(keys, parts); s != [] && s[|s| - 1] == keys[|keys| - 1]
  {
    if |keys| > 1 { HeadsLast(keys[1..], parts[1..]); }
  }

  /** A search at node p for k goes to kid i: what precedes it is less, what follows is not. */
  lemma PathParts(keys: seq<int>, parts: seq<seq<int>>, i: nat, k: int)
    requires |parts| == |keys| + 1 && IsLower(keys, k, i) && Sorted(Weave(keys, parts))
    ensures var h, c := Heads(keys[..i], parts[..i]), Tails(keys[i..], parts[i + 1..]);
      && Weave(keys, parts) == h + parts[i] + c && Sorted(parts[i])
      && (forall x :: x in h ==> x < k) && (c == [] <==> i == |keys|) && (i < |keys| ==> c[0] == keys[i])
  {
    WeaveAt(keys, parts, i);
    var h, c := Heads(keys[..i], parts[..i]), Tails(keys[i..], parts[i + 1..]);
    Pieces(h, parts[i], c);
    if i > 0 { HeadsLast(keys[..i], parts[..i]); }
    forall x | x in h ensures x < k {
      var j :| 0 <= j < |h| && h[j] == x;
      assert x <= h[|h| - 1];
    }
  }

  lemma Pieces(a: seq<int>, b: seq<int>, c: seq<int>)
    requires Sorted(a + b + c)
    ensures Sorted(a) && Sorted(b)
  {
    var s := a + b + c;
    forall i, j | 0 <= i < j < |a| ensures a[i] < a[j] { assert s[i] < s[j]; }
    forall i, j | 0 <= i < j < |b| ensures b[i] < b[j] { assert s[|a| + i] < s[|a| + j]; }
  }

  /** The keys below any node of the path are sorted. */
  lemma {:induction false} PathSorted(t: Heap, root: Id, n: Id, k: int)
    requires Shape(t, root) && n in t && OnPath(t, root, n, k) && Sorted(InOrder(t, root, t[root].lvl))
    ensures Sorted(InOrder(t, n, t[n].lvl))
    decreases t[root].lvl - t[n].lvl
  {
    if n != root {
      var p := t[n].parent;
      assert Up(t, root, n) && Up(t, root, p) && Down(t, root, p);
      PathSorted(t, root, p, k);
      PathParts(t[p].keys, Parts(t, t[p].kids, t[n].lvl), t[n].pos, k);
    }
  }

  /** k was put in its place below node n. */
  ghost predicate PutBelow(t: Heap, j: Id, i: nat, k: int, n: Id) {
    n in t && InOrder(Put(t, j, i, k), n, t[n].lvl) == Ins(InOrder(t, n, t[n].lvl), k)
  }

  lemma PathNode(t: Heap, root: Id, n: Id, k: int)
    requires Shape(t, root) && n in t && n != root && OnPath(t, root, n, k) && Sorted(InOrder(t, root, t[root].lvl))
    ensures var p := t[n].parent;
      && p in t && t[p].lvl == t[n].lvl + 1 <= t[root].lvl && OnPath(t, root, p, k) && IsLower(t[p].keys, k, t[n].pos)
      && |t[p].kids| == |t[p].keys| + 1 && t[p].kids[t[n].pos] == n && Sorted(InOrder(t, p, t[n].lvl + 1))
  {
    assert Up(t, root, n) && Up(t, root, t[n].parent) && Down(t, root, t[n].parent);
    PathSorted(t, root, t[n].parent, k);
  }

  lemma PutNode(t: Heap, t': Heap, p: Id, h: nat, q: nat, k: int)
    requires SameKeys(t, t', p) && |t[p].kids| == |t[p].keys| + 1 && IsLower(t[p].keys, k, q)
    requires Parts(t', t[p].kids, h) == Parts(t, t[p].kids, h)[q := Ins(Parts(t, t[p].kids, h)[q], k)]
    requires Sorted(InOrder(t, p, h + 1))
    ensures InOrder(t', p, h + 1) == Ins(InOrder(t, p, h + 1), k)
  {
    PutWeave(t[p].keys, Parts(t, t[p].kids, h), q, k);
  }

  lemma PutUp(t: Heap, root: Id, j: Id, i: nat, k: int, n: Id)
    requires Shape(t, root) && Leaf(t, j) && n in t && n != root && Above(t, root, j, t[n].lvl) == n
    requires OnPath(t, root, n, k) && Sorted(InOrder(t, root, t[root].lvl)) && PutBelow(t, j, i, k, n)
    ensures PutBelow(t, j, i, k, t[n].parent)
  {
    PathNode(t, root, n, k);
    PutParts(t, root, j, i, k, n);
    PutNode(t, Put(t, j, i, k), t[n].parent, t[n].lvl, t[n].pos, k);
  }

  lemma PutParts(t: Heap, root: Id, j: Id, i: nat, k: int, n: Id)
    requires Shape(t, root) && Leaf(t, j) && n in t && n != root && Above(t, root, j, t[n].lvl) == n && PutBelow(t, j, i, k, n)
    ensures var p, h, q := t[n].parent, t[n].lvl, t[n].pos;
      && p in t && p != j && q < |t[p].kids| && |t[p].kids| == |t[p].keys| + 1 && t[p].lvl == h + 1
      && Parts(Put(t, j, i, k), t[p].kids, h) == Parts(t, t[p].kids, h)[q := Ins(Parts(t, t[p].kids, h)[q], k)]
  {
    var t', p, h, q := Put(t, j, i, k), t[n].parent, t[n].lvl, t[n].pos;
    assert Up(t, root, n) && Down(t, root, p);
    forall c | 0 <= c < |t[p].kids| && c != q ensures Parts(t', t[p].kids, h)[c] == Parts(t, t[p].kids, h)[c] {
      assert Child(t, root, p, c);
      FramePut(t, root, j, i, k, t[p].kids[c], h);
      assert SameOrder(t, t', t[p].kids[c], h);
    }
  }

  lemma PutWeave(keys: seq<int>, parts: seq<seq<int>>, q: nat, k: int)
    requires |parts| == |keys| + 1 && IsLower(keys, k, q) && Sorted(Weave(keys, parts))
    ensures Weave(keys, parts[q := Ins(parts[q], k)]) == Ins(Weave(keys, parts), k)
  {
    PathParts(keys, parts, q, k);
    var parts' := parts[q := Ins(parts[q], k)];
    WeaveAt(keys, parts', q);
    assert parts'[..q] == parts[..q] && parts'[q + 1..] == parts[q + 1..];
    InsMiddle(Heads(keys[..q], parts[..q]), parts[q], Tails(keys[q..], parts[q + 1..]), k);
  }

  lemma AboveUp(t: Heap, root: Id, j: Id, n: Id)
    requires Shape(t, root) && Leaf(t, j) && n in t && n != root && Above(t, root, j, t[n].lvl) == n
    ensures Above(t, root, j, t[n].lvl + 1) == t[n].parent
  {}

  lemma {:induction false} PutToRoot(t: Heap, root: Id, j: Id, i: nat, k: int, n: Id)
    requires Shape(t, root) && Leaf(t, j) && n in t && Above(t, root, j, t[n].lvl) == n
    requires OnPath(t, root, n, k) && Sorted(InOrder(t, root, t[root].lvl)) && PutBelow(t, j, i, k, n)
    ensures PutBelow(t, j, i, k, root)
    decreases t[root].lvl - t[n].lvl
  {
    if n != root {
      assert Up(t, root, n) && Up(t, root, t[n].parent);
      PutUp(t, root, j, i, k, n);
      AboveUp(t, root, j, n);
      PutToRoot(t, root, j, i, k, t[n].parent);
    }
  }

  lemma {:induction false} PutInLeaf(keys: seq<int>, i: nat, k: int)
    requires IsLower(keys, k, i)
    ensures keys[..i] + [k] + keys[i..] == Ins(keys, k)
    ensures NotLess(keys, k) == (if i < |keys| then Some(keys[i]) else None)
  {
    var a, c := keys[..i], keys[i..];
    assert keys == a + [] + c;
    InsMiddle(a, [], c, k);
    assert Ins([], k) == [k];
  }

  /** A key put where the search for it ends is put in its place in the order of the tree. */
  lemma PutInPlace(t: Heap, root: Id, j: Id, i: nat, k: int)
    requires Shape(t, root) && Leaf(t, j) && OnPath(t, root, j, k) && IsLower(t[j].keys, k, i)
    requires Sorted(InOrder(t, root, t[root].lvl))
    ensures InOrder(Put(t, j, i, k), root, t[root].lvl) == Ins(InOrder(t, root, t[root].lvl), k)
  {
    PutInLeaf(t[j].keys, i, k);
    PutToRoot(t, root, j, i, k, j);
  }

  lemma NotLessNode(t: Heap, p: Id, h: nat, q: nat, k: int)
    requires p in t && |t[p].kids| == |t[p].keys| + 1 && IsLower(t[p].keys, k, q) && Sorted(InOrder(t, p, h + 1))
    ensures NotLess(InOrder(t, p, h + 1), k)
         == (var below := NotLess(InOrder(t, t[p].kids[q], h), k);
             if below.Some? then below else if q < |t[p].keys| then Some(t[p].keys[q]) else None)
  {
    var keys, parts := t[p].keys, Parts(t, t[p].kids, h);
    PathParts(keys, parts, q, k);
    InsMiddle(Heads(keys[..q], parts[..q]), parts[q], Tails(keys[q..], parts[q + 1..]), k);
  }

  /** The key after the end of the search is the first of the tree that is not less. */
  lemma {:induction false} NextUp(t: Heap, root: Id, n: Id, k: int, fuel: nat)
    requires Shape(t, root) && n in t && n != root && OnPath(t, root, n, k) && Sorted(InOrder(t, root, t[root].lvl))
    requires fuel >= t[root].lvl - t[n].lvl && fuel > 0
    ensures NotLess(InOrder(t, root, t[root].lvl), k)
         == (var below := NotLess(InOrder(t, n, t[n].lvl), k);
             if below.Some? then below else KeyAt(t, Next(t, root, t[n].parent, t[n].pos, fuel - 1)))
    decreases t[root].lvl - t[n].lvl
  {
    var p := t[n].parent;
    PathNode(t, root, n, k);
    NotLessNode(t, p, t[n].lvl, t[n].pos, k);
    if p != root {
      assert Up(t, root, p);
      NextUp(t, root, p, k, fuel - 1);
    }
  }

  lemma NextIsNotLess(t: Heap, root: Id, j: Id, i: nat, k: int)
    requires Shape(t, root) && Leaf(t, j) && OnPath(t, root, j, k) && IsLower(t[j].keys, k, i)
    requires Sorted(InOrder(t, root, t[root].lvl))
    ensures KeyAt(t, Next(t, root, j, i, t[root].lvl)) == NotLess(InOrder(t, root, t[root].lvl), k)
  {
    PutInLeaf(t[j].keys, i, k);
    if j != root {
      assert Up(t, root, j);
      NextUp(t, root, j, k, t[root].lvl);
    }
  }
}
