/** The keys of the tree in order, and why sharing and splitting do not change them. */
module BTreeOrder {
  import opened BTreeShape
  import opened BTreeMoves

  // ---- weaving keys between the parts below them ------------------------------------------------

  function Tails(keys: seq<int>, parts: seq<seq<int>>): seq<int> {
    if keys == [] || parts == [] then [] else [keys[0]] + parts[0] + Tails(keys[1..], parts[1..])
  }

  function Heads(keys: seq<int>, parts: seq<seq<int>>): seq<int> {
    if keys == [] || parts == [] then [] else parts[0] + [keys[0]] + Heads(keys[1..], parts[1..])
  }

  function Weave(keys: seq<int>, parts: seq<seq<int>>): seq<int> {
    if parts == [] then [] else parts[0] + Tails(keys, parts[1..])
  }

  lemma WeaveStep(keys: seq<int>, parts: seq<seq<int>>)
    requires |parts| == |keys| + 1 && keys != []
    ensures Weave(keys, parts) == parts[0] + ([keys[0]] + Weave(keys[1..], parts[1..]))
  {
    assert [keys[0]] + parts[1] + Tails(keys[1..], parts[1..][1..]) == [keys[0]] + (parts[1] + Tails(keys[1..], parts[1..][1..]));
  }

  lemma HeadsStep(keys: seq<int>, parts: seq<seq<int>>, i: nat)
    requires |parts| > i && |keys| >= i > 0
    ensures Heads(keys[..i], parts[..i]) == parts[0] + ([keys[0]] + Heads(keys[1..][..i - 1], parts[1..][..i - 1]))
  {
    assert keys[..i][1..] == keys[1..][..i - 1] && parts[..i][1..] == parts[1..][..i - 1];
  }

  lemma Regroup(a: seq<int>, b: seq<int>, h: seq<int>, x: seq<int>, y: seq<int>)
    ensures (a + (b + h)) + x + y == a + (b + (h + x + y))
  {}

  lemma {:induction false} WeaveAt(keys: seq<int>, parts: seq<seq<int>>, i: nat)
    requires |parts| == |keys| + 1 && i <= |keys|
    ensures Weave(keys, parts) == Heads(keys[..i], parts[..i]) + parts[i] + Tails(keys[i..], parts[i + 1..])
    decreases i
  {
    if i == 0 {
      assert keys[0..] == keys;
    } else {
      var ks, ps := keys[1..], parts[1..];
      WeaveAt(ks, ps, i - 1);
      WeaveStep(keys, parts);
      HeadsStep(keys, parts, i);
      assert ks[i - 1..] == keys[i..] && ps[i..] == parts[i + 1..];
      Regroup(parts[0], [keys[0]], Heads(ks[..i - 1], ps[..i - 1]), parts[i], Tails(keys[i..], parts[i + 1..]));
    }
  }

  lemma {:induction false} WeaveJoin(k1: seq<int>, p1: seq<seq<int>>, x: int, k2: seq<int>, p2: seq<seq<int>>)
    requires |p1| == |k1| + 1 && |p2| == |k2| + 1
    ensures Weave(k1 + [x] + k2, p1 + p2) == Weave(k1, p1) + [x] + Weave(k2, p2)
    decreases |k1|
  {
    var keys, parts := k1 + [x] + k2, p1 + p2;
    WeaveStep(keys, parts);
    if k1 == [] {
      assert keys[1..] == k2 && parts[1..] == p2;
      assert p1 == [p1[0]] && Weave(k1, p1) == p1[0];
    } else {
      WeaveStep(k1, p1);
      WeaveRest(k1, p1, x, k2, p2);
      WeaveJoin(k1[1..], p1[1..], x, k2, p2);
      Regroup(p1[0], [k1[0]], Weave(k1[1..], p1[1..]), [x], Weave(k2, p2));
    }
  }

  lemma WeaveRest(k1: seq<int>, p1: seq<seq<int>>, x: int, k2: seq<int>, p2: seq<seq<int>>)
    requires k1 != [] && p1 != []
    ensures (k1 + [x] + k2)[0] == k1[0] && (k1 + [x] + k2)[1..] == k1[1..] + [x] + k2
    ensures (p1 + p2)[0] == p1[0] && (p1 + p2)[1..] == p1[1..] + p2
  {}

  /** Two neighbouring parts and the key between them may be divided otherwise. */
  lemma WeaveTwo(keys: seq<int>, parts: seq<seq<int>>, i: nat, x: int, a: seq<int>, b: seq<int>)
    requires |parts| == |keys| + 1 && i < |keys|
    requires a + [x] + b == parts[i] + [keys[i]] + parts[i + 1]
    ensures Weave(keys[i := x], parts[i := a][i + 1 := b]) == Weave(keys, parts)
  {
    var keys', parts' := keys[i := x], parts[i := a][i + 1 := b];
    WeaveAt(keys, parts, i);
    WeaveAt(keys', parts', i);
    assert keys'[..i] == keys[..i] && parts'[..i] == parts[..i];
    assert keys'[i..][1..] == keys[i..][1..] && parts'[i + 1..][1..] == parts[i + 1..][1..];
    var h, tl := Heads(keys[..i], parts[..i]), Tails(keys[i..][1..], parts[i + 1..][1..]);
    assert Tails(keys[i..], parts[i + 1..]) == [keys[i]] + parts[i + 1] + tl;
    assert Tails(keys'[i..], parts'[i + 1..]) == [x] + b + tl;
    calc {
      h + parts[i] + ([keys[i]] + parts[i + 1] + tl);
      h + (parts[i] + [keys[i]] + parts[i + 1]) + tl;
      h + (a + [x] + b) + tl;
      h + a + ([x] + b + tl);
    }
  }

  /** One part may be cut in two by a key of its own. */
  lemma WeaveSplit(keys: seq<int>, parts: seq<seq<int>>, i: nat, x: int, a: seq<int>, b: seq<int>)
    requires |parts| == |keys| + 1 && i <= |keys| && a + [x] + b == parts[i]
    ensures Weave(keys[..i] + [x] + keys[i..], parts[..i] + [a, b] + parts[i + 1..]) == Weave(keys, parts)
  {
    var keys', parts' := keys[..i] + [x] + keys[i..], parts[..i] + [a, b] + parts[i + 1..];
    WeaveAt(keys, parts, i);
    WeaveAt(keys', parts', i);
    assert keys'[..i] == keys[..i] && parts'[..i] == parts[..i];
    assert keys'[i..][1..] == keys[i..] && parts'[i + 1..][1..] == parts[i + 1..];
    var h, tl := Heads(keys[..i], parts[..i]), Tails(keys[i..], parts[i + 1..]);
    assert Tails(keys'[i..], parts'[i + 1..]) == [x] + b + tl;
    assert h + a + ([x] + b + tl) == h + (a + [x] + b) + tl;
  }

  // ---- the keys in order --------------------------------------------------------------------------

  /** The keys below node n of level h, in order. */
  function InOrder(t: Heap, n: Id, h: nat): seq<int>
    decreases h, 0
  {
    if n !in t then [] else if h == 0 then t[n].keys else Weave(t[n].keys, Parts(t, t[n].kids, h - 1))
  }

  function Parts(t: Heap, kids: seq<Id>, h: nat): (r: seq<seq<int>>)
    decreases h, 1
  {
    seq(|kids|, i requires 0 <= i < |kids| => InOrder(t, kids[i], h))
  }

  lemma PartsJoin(t: Heap, a: seq<Id>, b: seq<Id>, h: nat)
    ensures Parts(t, a + b, h) == Parts(t, a, h) + Parts(t, b, h)
  {}

  predicate SameKeys(t: Heap, t': Heap, m: Id) {
    m in t && m in t' && t'[m].keys == t[m].keys && t'[m].kids == t[m].kids
  }

  /** All nodes below level k are the same. */
  predicate SameBelow(t: Heap, t': Heap, k: nat) {
    forall m :: m in t && t[m].lvl < k ==> SameKeys(t, t', m)
  }

  predicate SameOrder(t: Heap, t': Heap, m: Id, h: nat) { InOrder(t', m, h) == InOrder(t, m, h) }

  lemma NodeFrame(t: Heap, t': Heap, n: Id, h: nat)
    requires SameKeys(t, t', n) && (h > 0 ==> Parts(t', t[n].kids, h - 1) == Parts(t, t[n].kids, h - 1))
    ensures SameOrder(t, t', n, h)
  {}

  lemma PartsFrame(t: Heap, t': Heap, kids: seq<Id>, h: nat)
    requires forall i :: 0 <= i < |kids| ==> SameOrder(t, t', kids[i], h)
    ensures Parts(t', kids, h) == Parts(t, kids, h)
  {
    forall i | 0 <= i < |kids| ensures Parts(t', kids, h)[i] == Parts(t, kids, h)[i] {
      assert SameOrder(t, t', kids[i], h);
    }
  }

  lemma {:induction false} FrameLow(t: Heap, t': Heap, root: Id, k: nat, n: Id, h: nat)
    requires Shape(t, root) && n in t && t[n].lvl == h < k && SameBelow(t, t', k)
    ensures SameOrder(t, t', n, h)
    decreases h, 1
  {
    if h > 0 { FrameParts(t, t', root, k, n, h); }
    NodeFrame(t, t', n, h);
  }

  lemma {:induction false} FrameParts(t: Heap, t': Heap, root: Id, k: nat, n: Id, h: nat)
    requires Shape(t, root) && n in t && t[n].lvl == h <= k && h > 0 && SameBelow(t, t', k)
    ensures Parts(t', t[n].kids, h - 1) == Parts(t, t[n].kids, h - 1)
    decreases h, 0
  {
    assert Down(t, root, n);
    forall i | 0 <= i < |t[n].kids| ensures SameOrder(t, t', t[n].kids[i], h - 1) {
      assert Child(t, root, n, i);
      FrameLow(t, t', root, k, t[n].kids[i], h - 1);
    }
    PartsFrame(t, t', t[n].kids, h - 1);
  }

  lemma LevelFrame(t: Heap, t': Heap, root: Id, m: Id)
    requires Shape(t, root) && m in t && SameKeys(t, t', m) && SameBelow(t, t', t[m].lvl)
    ensures SameOrder(t, t', m, t[m].lvl)
  {
    if t[m].lvl > 0 { FrameParts(t, t', root, t[m].lvl, m, t[m].lvl); }
    NodeFrame(t, t', m, t[m].lvl);
  }

  /** Two kids of p divide their keys otherwise. */
  lemma TwoKidsOrder(t: Heap, t': Heap, p: Id, h: nat, i: nat, x: int, a: seq<int>, b: seq<int>)
    requires p in t && p in t' && t'[p].kids == t[p].kids && |t[p].kids| == |t[p].keys| + 1 && i < |t[p].keys|
    requires t'[p].keys == t[p].keys[i := x]
    requires Parts(t', t[p].kids, h) == Parts(t, t[p].kids, h)[i := a][i + 1 := b]
    requires a + [x] + b == InOrder(t, t[p].kids[i], h) + [t[p].keys[i]] + InOrder(t, t[p].kids[i + 1], h)
    ensures SameOrder(t, t', p, h + 1)
  {
    WeaveTwo(t[p].keys, Parts(t, t[p].kids, h), i, x, a, b);
  }

  /** Kid n of p is cut in two. */
  lemma CutKidOrder(t: Heap, t': Heap, p: Id, n: Id, d: Id, h: nat, i: nat, x: int, kids: seq<Id>)
    requires p in t && p in t' && |t[p].kids| == |t[p].keys| + 1 && i < |t[p].kids| && t[p].kids[i] == n
    requires t'[p].keys == t[p].keys[..i] + [x] + t[p].keys[i..] && t'[p].kids == kids
    requires Parts(t', kids, h) == Parts(t, t[p].kids, h)[..i] + [InOrder(t', n, h), InOrder(t', d, h)] + Parts(t, t[p].kids, h)[i + 1..]
    requires InOrder(t', n, h) + [x] + InOrder(t', d, h) == InOrder(t, n, h)
    ensures SameOrder(t, t', p, h + 1)
  {
    WeaveSplit(t[p].keys, Parts(t, t[p].kids, h), i, x, InOrder(t', n, h), InOrder(t', d, h));
  }

  /** Above level k only node p changed, and p's keys in order did not. */
  ghost predicate SameAbove(t: Heap, t': Heap, p: Id, k: nat) {
    && p in t && t[p].lvl == k && SameOrder(t, t', p, k)
    && (forall m :: m in t && t[m].lvl >= k && m != p ==> SameKeys(t, t', m))
    && (forall m :: m in t && t[m].lvl + 1 == k && t[m].parent != p ==> SameOrder(t, t', m, k - 1))
  }

  lemma {:induction false} FrameHigh(t: Heap, t': Heap, root: Id, p: Id, k: nat, n: Id, h: nat)
    requires Shape(t, root) && k > 0 && SameAbove(t, t', p, k) && n in t && t[n].lvl == h >= k
    ensures SameOrder(t, t', n, h)
    decreases h, 1
  {
    if n != p {
      FrameHighKids(t, t', root, p, k, n, h);
      NodeFrame(t, t', n, h);
    }
  }

  lemma {:induction false} FrameHighKids(t: Heap, t': Heap, root: Id, p: Id, k: nat, n: Id, h: nat)
    requires Shape(t, root) && k > 0 && SameAbove(t, t', p, k) && n in t && t[n].lvl == h >= k && n != p
    ensures Parts(t', t[n].kids, h - 1) == Parts(t, t[n].kids, h - 1)
    decreases h, 0
  {
    assert Down(t, root, n);
    forall i | 0 <= i < |t[n].kids| ensures SameOrder(t, t', t[n].kids[i], h - 1) {
      assert Child(t, root, n, i);
      if h > k { FrameHigh(t, t', root, p, k, t[n].kids[i], h - 1); }
    }
    PartsFrame(t, t', t[n].kids, h - 1);
  }

  // ---- sharing ------------------------------------------------------------------------------------

  lemma ShareSame(t: Heap, root: Id, l: Id, r: Id, c: nat)
    requires Shape(t, root) && CanShare(t, root, l, r, c)
    ensures forall m :: m in t && m != l && m != r && m != t[l].parent ==> SameKeys(t, Share(t, l, r, c), m)
    ensures SameBelow(t, Share(t, l, r, c), t[l].lvl)
  {
    var t' := Share(t, l, r, c);
    SiblingLinks(t, root, l, r);
    forall m | m in t && m != l && m != r && m != t[l].parent ensures SameKeys(t, t', m) {
      ShareBody(t, root, l, r, c, m);
      MovedAt(t, root, l, r, c, m);
    }
  }

  /** Joined, cut anew, and woven: the same sequence. */
  lemma ReWeave(lk: seq<int>, x: int, rk: seq<int>, pl: seq<seq<int>>, pr: seq<seq<int>>, c: nat, a: seq<seq<int>>, b: seq<seq<int>>)
    requires |pl| == |lk| + 1 && |pr| == |rk| + 1 && c < |lk| + 1 + |rk| && a + b == pl + pr && |a| == c + 1
    ensures var keys := lk + [x] + rk;
      Weave(keys[..c], a) + [keys[c]] + Weave(keys[c + 1..], b) == Weave(lk, pl) + [x] + Weave(rk, pr)
  {
    var keys := lk + [x] + rk;
    WeaveJoin(lk, pl, x, rk, pr);
    WeaveJoin(keys[..c], a, keys[c], keys[c + 1..], b);
    assert keys == keys[..c] + [keys[c]] + keys[c + 1..];
  }

  /** Both siblings with the key between them keep their keys in order. */
  lemma PairKept(t: Heap, root: Id, l: Id, r: Id, c: nat)
    requires Shape(t, root) && CanShare(t, root, l, r, c)
    ensures var h := t[l].lvl;
      InOrder(Share(t, l, r, c), l, h) + [Both(t, l, r)[c]] + InOrder(Share(t, l, r, c), r, h)
      == InOrder(t, l, h) + [t[t[l].parent].keys[t[l].pos]] + InOrder(t, r, h)
  {
    var t', h := Share(t, l, r, c), t[l].lvl;
    ShareBody(t, root, l, r, c, l);
    ShareBody(t, root, l, r, c, r);
    MovedAt(t, root, l, r, c, l);
    MovedAt(t, root, l, r, c, r);
    SiblingLinks(t, root, l, r);
    if h > 0 {
      KidsCut(t, root, l, r, c);
      ShareSame(t, root, l, r, c);
      PairInner(t, t', root, l, r, c, t[t[l].parent].keys[t[l].pos]);
    } else {
      assert Both(t, l, r) == Both(t, l, r)[..c] + [Both(t, l, r)[c]] + Both(t, l, r)[c + 1..];
    }
  }

  lemma PairInner(t: Heap, t': Heap, root: Id, l: Id, r: Id, c: nat, x: int)
    requires Shape(t, root) && l in t && r in t && l in t' && r in t' && t[l].lvl == t[r].lvl > 0
    requires |t[l].kids| == |t[l].keys| + 1 && |t[r].kids| == |t[r].keys| + 1
    requires var keys := t[l].keys + [x] + t[r].keys;
      c < |keys| && t'[l].keys == keys[..c] && t'[r].keys == keys[c + 1..]
    requires t'[l].kids + t'[r].kids == t[l].kids + t[r].kids && |t'[l].kids| == c + 1
    requires SameBelow(t, t', t[l].lvl)
    ensures var h, keys := t[l].lvl, t[l].keys + [x] + t[r].keys;
      InOrder(t', l, h) + [keys[c]] + InOrder(t', r, h) == InOrder(t, l, h) + [x] + InOrder(t, r, h)
  {
    var h := t[l].lvl;
    PairParts(t, t', root, l, r, t'[l].kids, t'[r].kids);
    PartsJoin(t, t'[l].kids, t'[r].kids, h - 1);
    PartsJoin(t, t[l].kids, t[r].kids, h - 1);
    ReWeave(t[l].keys, x, t[r].keys, Parts(t, t[l].kids, h - 1), Parts(t, t[r].kids, h - 1), c,
            Parts(t, t'[l].kids, h - 1), Parts(t, t'[r].kids, h - 1));
  }

  lemma PairParts(t: Heap, t': Heap, root: Id, l: Id, r: Id, kl: seq<Id>, kr: seq<Id>)
    requires Shape(t, root) && l in t && r in t && t[l].lvl == t[r].lvl > 0 && kl + kr == t[l].kids + t[r].kids
    requires SameBelow(t, t', t[l].lvl)
    ensures Parts(t', kl, t[l].lvl - 1) == Parts(t, kl, t[l].lvl - 1)
    ensures Parts(t', kr, t[l].lvl - 1) == Parts(t, kr, t[l].lvl - 1)
  {
    var h := t[l].lvl;
    FrameParts(t, t', root, h, l, h);
    FrameParts(t, t', root, h, r, h);
    PartsJoin(t, t[l].kids, t[r].kids, h - 1);
    PartsJoin(t', t[l].kids, t[r].kids, h - 1);
    PartsJoin(t, kl, kr, h - 1);
    PartsJoin(t', kl, kr, h - 1);
    assert Parts(t', kl, h - 1) + Parts(t', kr, h - 1) == Parts(t, kl, h - 1) + Parts(t, kr, h - 1);
    assert Parts(t', kl, h - 1) == (Parts(t', kl, h - 1) + Parts(t', kr, h - 1))[..|kl|];
    assert Parts(t', kr, h - 1) == (Parts(t', kl, h - 1) + Parts(t', kr, h - 1))[|kl|..];
  }

  /** Nodes of the siblings' level, but for the two. */
  lemma ShareLevel(t: Heap, root: Id, l: Id, r: Id, c: nat, m: Id)
    requires Shape(t, root) && CanShare(t, root, l, r, c) && m in t && t[m].lvl == t[l].lvl && m != l && m != r
    ensures SameOrder(t, Share(t, l, r, c), m, t[l].lvl)
  {
    ShareSame(t, root, l, r, c);
    SiblingLinks(t, root, l, r);
    LevelFrame(t, Share(t, l, r, c), root, m);
  }

  lemma ShareParts(t: Heap, root: Id, l: Id, r: Id, c: nat)
    requires Shape(t, root) && CanShare(t, root, l, r, c)
    ensures var t', h, p, i := Share(t, l, r, c), t[l].lvl, t[l].parent, t[l].pos;
      && i + 1 < |t[p].kids|
      && Parts(t', t[p].kids, h) == Parts(t, t[p].kids, h)[i := InOrder(t', l, h)][i + 1 := InOrder(t', r, h)]
  {
    var t', h, p, i := Share(t, l, r, c), t[l].lvl, t[l].parent, t[l].pos;
    SiblingLinks(t, root, l, r);
    KidsDistinct(t, root, p);
    var parts, parts' := Parts(t, t[p].kids, h), Parts(t', t[p].kids, h);
    forall j | 0 <= j < |parts| && j != i && j != i + 1 ensures parts'[j] == parts[j] {
      assert Child(t, root, p, j);
      ShareLevel(t, root, l, r, c, t[p].kids[j]);
    }
  }

  lemma ShareParentOrder(t: Heap, root: Id, l: Id, r: Id, c: nat)
    requires Shape(t, root) && CanShare(t, root, l, r, c)
    ensures SameOrder(t, Share(t, l, r, c), t[l].parent, t[l].lvl + 1)
  {
    var t', h, p, i := Share(t, l, r, c), t[l].lvl, t[l].parent, t[l].pos;
    SiblingLinks(t, root, l, r);
    ShareBody(t, root, l, r, c, p);
    MovedAt(t, root, l, r, c, p);
    ShareParts(t, root, l, r, c);
    PairKept(t, root, l, r, c);
    TwoKidsOrder(t, t', p, h, i, Both(t, l, r)[c], InOrder(t', l, h), InOrder(t', r, h));
  }

  lemma ShareParent(t: Heap, root: Id, l: Id, r: Id, c: nat)
    requires Shape(t, root) && CanShare(t, root, l, r, c)
    ensures SameAbove(t, Share(t, l, r, c), t[l].parent, t[l].lvl + 1)
  {
    ShareParentOrder(t, root, l, r, c);
    SiblingLinks(t, root, l, r);
    ShareSame(t, root, l, r, c);
    var t', h := Share(t, l, r, c), t[l].lvl;
    forall m | m in t && t[m].lvl == h && t[m].parent != t[l].parent ensures SameOrder(t, t', m, h) {
      ShareLevel(t, root, l, r, c, m);
    }
  }

  /** Sharing keys between siblings leaves the keys of the whole tree in their order. */
  lemma ShareOrder(t: Heap, root: Id, l: Id, r: Id, c: nat)
    requires Shape(t, root) && CanShare(t, root, l, r, c)
    ensures InOrder(Share(t, l, r, c), root, t[root].lvl) == InOrder(t, root, t[root].lvl)
  {
    ShareParent(t, root, l, r, c);
    assert Up(t, root, l);
    FrameHigh(t, Share(t, l, r, c), root, t[l].parent, t[l].lvl + 1, root, t[root].lvl);
  }

  // ---- splitting ------------------------------------------------------------------------------------

  lemma SplitSame(t: Heap, root: Id, n: Id, d: Id, c: nat)
    requires Shape(t, root) && CanSplit(t, root, n, d, c)
    ensures forall m :: m in t && m != n && m != t[n].parent ==> SameKeys(t, Split(t, n, d, c), m)
    ensures SameBelow(t, Split(t, n, d, c), t[n].lvl)
  {
    var t' := Split(t, n, d, c);
    SplitPossible(t, root, n, d, c);
    forall m | m in t && m != n && m != t[n].parent ensures SameKeys(t, t', m) {
      SplitBody(t, root, n, d, c, m);
      CutAt(t, root, n, d, c, m);
    }
  }

  lemma HalvesInner(t: Heap, t': Heap, root: Id, n: Id, d: Id, c: nat)
    requires Shape(t, root) && n in t && n in t' && d in t' && t[n].lvl > 0 && c < |t[n].keys| && |t[n].kids| == |t[n].keys| + 1
    requires t'[n].keys == t[n].keys[..c] && t'[d].keys == t[n].keys[c + 1..]
    requires t'[n].kids + t'[d].kids == t[n].kids && |t'[n].kids| == c + 1
    requires SameBelow(t, t', t[n].lvl)
    ensures InOrder(t', n, t[n].lvl) + [t[n].keys[c]] + InOrder(t', d, t[n].lvl) == InOrder(t, n, t[n].lvl)
  {
    var h, keys := t[n].lvl, t[n].keys;
    FrameParts(t, t', root, h, n, h);
    PartsJoin(t', t'[n].kids, t'[d].kids, h - 1);
    assert keys == keys[..c] + [keys[c]] + keys[c + 1..];
    WeaveJoin(keys[..c], Parts(t', t'[n].kids, h - 1), keys[c], keys[c + 1..], Parts(t', t'[d].kids, h - 1));
  }

  lemma HalvesAre(t: Heap, root: Id, n: Id, d: Id, c: nat)
    requires Shape(t, root) && CanSplit(t, root, n, d, c)
    ensures var t' := Split(t, n, d, c);
      && n in t' && d in t' && t'[n].keys == t[n].keys[..c] && t'[d].keys == t[n].keys[c + 1..]
      && (t[n].lvl > 0 ==> |t[n].kids| == |t[n].keys| + 1 && t'[n].kids + t'[d].kids == t[n].kids && |t'[n].kids| == c + 1)
  {
    SplitBody(t, root, n, d, c, n);
    SplitBody(t, root, n, d, c, d);
    CutAt(t, root, n, d, c, n);
    SplitPossible(t, root, n, d, c);
    SplitKids(t, root, n, d, c);
  }

  lemma HalvesKept(t: Heap, root: Id, n: Id, d: Id, c: nat)
    requires Shape(t, root) && CanSplit(t, root, n, d, c)
    ensures var h := t[n].lvl;
      InOrder(Split(t, n, d, c), n, h) + [t[n].keys[c]] + InOrder(Split(t, n, d, c), d, h) == InOrder(t, n, h)
  {
    HalvesAre(t, root, n, d, c);
    if t[n].lvl > 0 {
      SplitSame(t, root, n, d, c);
      HalvesInner(t, Split(t, n, d, c), root, n, d, c);
    } else {
      HalvesLeaf(t, Split(t, n, d, c), n, d, c);
    }
  }

  lemma HalvesLeaf(t: Heap, t': Heap, n: Id, d: Id, c: nat)
    requires n in t && n in t' && d in t' && c < |t[n].keys|
    requires t'[n].keys == t[n].keys[..c] && t'[d].keys == t[n].keys[c + 1..]
    ensures InOrder(t', n, 0) + [t[n].keys[c]] + InOrder(t', d, 0) == InOrder(t, n, 0)
  {
    assert t[n].keys == t[n].keys[..c] + [t[n].keys[c]] + t[n].keys[c + 1..];
  }

  lemma SplitLevel(t: Heap, root: Id, n: Id, d: Id, c: nat, m: Id)
    requires Shape(t, root) && CanSplit(t, root, n, d, c) && m in t && t[m].lvl == t[n].lvl && m != n
    ensures SameOrder(t, Split(t, n, d, c), m, t[n].lvl)
  {
    SplitSame(t, root, n, d, c);
    SplitPossible(t, root, n, d, c);
    LevelFrame(t, Split(t, n, d, c), root, m);
  }

  lemma SplitParts(t: Heap, root: Id, n: Id, d: Id, c: nat)
    requires Shape(t, root) && CanSplit(t, root, n, d, c)
    ensures var t', h, i, ks := Split(t, n, d, c), t[n].lvl, t[n].pos, t[t[n].parent].kids;
      Parts(t', ks[..i + 1] + [d] + ks[i + 1..], h)
      == Parts(t, ks, h)[..i] + [InOrder(t', n, h), InOrder(t', d, h)] + Parts(t, ks, h)[i + 1..]
  {
    var t', h, p, i := Split(t, n, d, c), t[n].lvl, t[n].parent, t[n].pos;
    SplitPossible(t, root, n, d, c);
    var ks := t[p].kids;
    KidsDistinct(t, root, p);
    forall j | 0 <= j < |ks| && j != i ensures SameOrder(t, t', ks[j], h) {
      assert Child(t, root, p, j);
      SplitLevel(t, root, n, d, c, ks[j]);
    }
    SplitPartsAre(t, t', ks, i, d, h);
  }

  lemma ParentAfterSplit(t: Heap, root: Id, n: Id, d: Id, c: nat)
    requires Shape(t, root) && CanSplit(t, root, n, d, c)
    ensures var t', p, i := Split(t, n, d, c), t[n].parent, t[n].pos;
      && p in t' && |t[p].kids| == |t[p].keys| + 1 && i < |t[p].kids| && t[p].kids[i] == n
      && t'[p].keys == t[p].keys[..i] + [t[n].keys[c]] + t[p].keys[i..]
      && t'[p].kids == t[p].kids[..i + 1] + [d] + t[p].kids[i + 1..]
  {
    SplitPossible(t, root, n, d, c);
    SplitBody(t, root, n, d, c, t[n].parent);
    CutAt(t, root, n, d, c, t[n].parent);
  }

  lemma SplitParentOrder(t: Heap, root: Id, n: Id, d: Id, c: nat)
    requires Shape(t, root) && CanSplit(t, root, n, d, c)
    ensures SameOrder(t, Split(t, n, d, c), t[n].parent, t[n].lvl + 1)
  {
    var p, h, i, ks := t[n].parent, t[n].lvl, t[n].pos, t[t[n].parent].kids;
    ParentAfterSplit(t, root, n, d, c);
    HalvesKept(t, root, n, d, c);
    SplitParts(t, root, n, d, c);
    CutKidOrder(t, Split(t, n, d, c), p, n, d, h, i, t[n].keys[c], ks[..i + 1] + [d] + ks[i + 1..]);
  }

  lemma SplitParent(t: Heap, root: Id, n: Id, d: Id, c: nat)
    requires Shape(t, root) && CanSplit(t, root, n, d, c)
    ensures SameAbove(t, Split(t, n, d, c), t[n].parent, t[n].lvl + 1)
  {
    SplitParentOrder(t, root, n, d, c);
    SplitPossible(t, root, n, d, c);
    SplitSame(t, root, n, d, c);
    var t', h := Split(t, n, d, c), t[n].lvl;
    forall m | m in t && t[m].lvl == h && t[m].parent != t[n].parent ensures SameOrder(t, t', m, h) {
      SplitLevel(t, root, n, d, c, m);
    }
  }

  lemma SplitPartsAre(t: Heap, t': Heap, ks: seq<Id>, i: nat, d: Id, h: nat)
    requires i < |ks| && forall j :: 0 <= j < |ks| && j != i ==> SameOrder(t, t', ks[j], h)
    ensures Parts(t', ks[..i + 1] + [d] + ks[i + 1..], h)
         == Parts(t, ks, h)[..i] + [InOrder(t', ks[i], h), InOrder(t', d, h)] + Parts(t, ks, h)[i + 1..]
  {
    var all := ks[..i + 1] + [d] + ks[i + 1..];
    var res := Parts(t, ks, h)[..i] + [InOrder(t', ks[i], h), InOrder(t', d, h)] + Parts(t, ks, h)[i + 1..];
    forall j | 0 <= j < |all| ensures Parts(t', all, h)[j] == res[j] {
      if j < i { assert SameOrder(t, t', ks[j], h); }
      if j > i + 1 { assert all[j] == ks[j - 1] && SameOrder(t, t', ks[j - 1], h); }
    }
  }

  /** Splitting a node leaves the keys of the whole tree in their order. */
  lemma SplitOrder(t: Heap, root: Id, n: Id, d: Id, c: nat)
    requires Shape(t, root) && CanSplit(t, root, n, d, c)
    ensures InOrder(Split(t, n, d, c), root, t[root].lvl) == InOrder(t, root, t[root].lvl)
  {
    SplitParent(t, root, n, d, c);
    assert Up(t, root, n);
    FrameHigh(t, Split(t, n, d, c), root, t[n].parent, t[n].lvl + 1, root, t[root].lvl);
  }

  lemma TallerOrder(t: Heap, root: Id, top: Id, max: nat)
    requires Shape(t, root) && top !in t
    ensures InOrder(Taller(t, root, top, max), top, t[root].lvl + 1) == InOrder(t, root, t[root].lvl)
  {
    var t', h := Taller(t, root, top, max), t[root].lvl;
    if h > 0 {
      assert SameBelow(t, t', h);
      FrameParts(t, t', root, h, root, h);
    }
    assert Parts(t', [root], h) == [InOrder(t', root, h)];
    assert Tails([], []) == [];
  }
}
