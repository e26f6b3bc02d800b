/** The member functions of btree_node that move keys and children, on the heap they work in. */
module BTreeNodes {
  import opened BTreeShape
  import opened BTreeMoves
  import opened BTreeSteps

  // ---- moving children ----------------------------------------------------------------------------------

  /** init_child. */
  function InitChild(t: Heap, n: Id, i: nat, c: Id): Heap
    requires n in t && c in t && c != n && i <= |t[n].kids|
  {
    t[n := t[n].(kids := Placed(t[n].kids, i, c))][c := t[c].(parent := n, pos := i)]
  }

  /** The child array after c was put at position i. */
  function Placed(kids: seq<Id>, i: nat, c: Id): seq<Id>
    requires i <= |kids|
  {
    if i < |kids| then kids[i := c] else kids + [c]
  }

  /** The first m children of r are appended to l's. */
  method TakeFirst(t: Heap, l: Id, r: Id, m: nat) returns (h: Heap)
    requires l in t && r in t && l != r && m <= |t[r].kids| && Apart(t, t[l].kids + t[r].kids, l, r)
    ensures Took(t, h, l, |t[l].kids|, t[r].kids[..m])
    ensures h[l] == t[l].(kids := t[l].kids + t[r].kids[..m])
  {
    h := t;
    for j := 0 to m
      invariant Taken(t, h, l, r, j)
    {
      TakeStep(t, h, l, r, j);
      h := InitChild(h, l, |t[l].kids| + j, h[r].kids[j]);
    }
  }

  /** The children of r move down by m; the first m are overwritten. */
  method ShiftDown(t: Heap, r: Id, m: nat) returns (h: Heap)
    requires r in t && m <= |t[r].kids| && Apart(t, t[r].kids, r, r)
    ensures Took(t, h, r, 0, t[r].kids[m..]) && h[r] == t[r].(kids := t[r].kids[m..])
  {
    var n := |t[r].kids| - m;
    h := t;
    ShiftStart(t, r, m);
    for j := 0 to n
      invariant Shifted(t, h, r, m, j)
    {
      ShiftStep(t, h, r, m, j);
      h := InitChild(h, r, j, h[r].kids[j + m]);
    }
    ShiftEnd(t, h, r, m);
    h := h[r := h[r].(kids := h[r].kids[..n])];
  }

  /** The children of r from position `from` move up by m, the last one first. */
  method ShiftUp(t: Heap, r: Id, from: nat, m: nat) returns (h: Heap)
    requires r in t && from <= |t[r].kids| && Apart(t, t[r].kids, r, r)
    ensures Took(t, h, r, from + m, t[r].kids[from..])
    ensures Raised(t[r].kids, h[r].kids, from, m) && h[r] == t[r].(kids := h[r].kids)
  {
    h := t[r := t[r].(kids := t[r].kids + Unused(m))];
    RaiseStart(t, h, r, from, m);
    for i := |t[r].kids| downto from
      invariant Raising(t, h, r, from, m, i)
    {
      RaiseStep(t, h, r, from, m, i);
      h := InitChild(h, r, i + m, h[r].kids[i]);
    }
    RaiseEnd(t, h, r, from, m);
  }

  /** The children of l from position n become the first of r; l's own slots are cleared by the caller. */
  method GiveLast(t: Heap, l: Id, r: Id, n: nat) returns (h: Heap)
    requires l in t && r in t && l != r && n <= |t[l].kids| && Apart(t, t[l].kids, l, r)
    requires |t[l].kids| - n <= |t[r].kids| || t[r].kids == []
    ensures Took(t, h, r, 0, t[l].kids[n..]) && h[l] == t[l]
    ensures h[r] == t[r].(kids := t[l].kids[n..] + Beyond(t[r].kids, |t[l].kids| - n))
  {
    h := t;
    GaveNone(t, l, r, n);
    for i := 0 to |t[l].kids| - n
      invariant Gave(t, h, l, r, n, i)
    {
      GaveStep(t, h, l, r, n, i);
      h := InitChild(h, r, i, h[l].kids[n + i]);
    }
    assert t[l].kids[n..n + (|t[l].kids| - n)] == t[l].kids[n..];
  }

  /** i children of l, from position n, hang from r. */
  ghost predicate Gave(t: Heap, h: Heap, l: Id, r: Id, n: nat, i: nat) {
    && l in t && r in t && n + i <= |t[l].kids| && (|t[l].kids| - n <= |t[r].kids| || t[r].kids == [])
    && Apart(t, t[l].kids, l, r)
    && Giving(t, h, l, r, t[l].kids[n..n + i], t[l].kids[n..n + i] + Beyond(t[r].kids, i))
  }

  lemma GaveNone(t: Heap, l: Id, r: Id, n: nat)
    requires l in t && r in t && l != r && n <= |t[l].kids| && Apart(t, t[l].kids, l, r)
    requires |t[l].kids| - n <= |t[r].kids| || t[r].kids == []
    ensures Gave(t, t, l, r, n, 0)
  {
    assert t[l].kids[n..n + 0] == [];
    assert [] + t[r].kids == t[r].kids;
  }

  lemma GaveStep(t: Heap, h: Heap, l: Id, r: Id, n: nat, i: nat)
    requires Gave(t, h, l, r, n, i) && n + i < |t[l].kids|
    ensures var c := t[l].kids[n + i];
      && c in h && c != r && i <= |h[r].kids| && l in h && h[l] == t[l] && Gave(t, InitChild(h, r, i, c), l, r, n, i + 1)
  {
    var lk, rk := t[l].kids, t[r].kids;
    GiveOne(lk, rk, n, i);
    Slice(t, lk, l, r, n, n + i);
    GiveMore(t, h, l, r, lk[n..n + i], lk[n + i], lk[n..n + i] + Beyond(rk, i));
    GaveNext(t, InitChild(h, r, i, lk[n + i]), l, r, n, i, lk[n..n + i] + [lk[n + i]], lk[n..n + i] + [lk[n + i]] + Beyond(rk, i + 1));
  }

  lemma GaveNext(t: Heap, h: Heap, l: Id, r: Id, n: nat, i: nat, ks: seq<Id>, now: seq<Id>)
    requires Giving(t, h, l, r, ks, now) && n + i < |t[l].kids| && Apart(t, t[l].kids, l, r)
    requires (|t[l].kids| - n <= |t[r].kids| || t[r].kids == []) && ks == t[l].kids[n..n + i + 1] && now == ks + Beyond(t[r].kids, i + 1)
    ensures Gave(t, h, l, r, n, i + 1)
  {
    assert n + i + 1 == n + (i + 1);
  }

  /** Slots of the child array that hold no child yet. */
  function Unused(m: nat): (r: seq<Id>)
    ensures |r| == m
  {
    seq(m, _ => 0)
  }

  function Beyond(ks: seq<Id>, m: nat): seq<Id> { if m <= |ks| then ks[m..] else [] }

  /** The list after raising: m slots freed at `from`. */
  predicate Raised(ks: seq<Id>, ks': seq<Id>, from: nat, m: nat)
    requires from <= |ks|
  {
    |ks'| == |ks| + m && ks'[..from] == ks[..from] && ks'[from + m..] == ks[from..]
  }

  ghost predicate Raising(t: Heap, t': Heap, r: Id, from: nat, m: nat, i: nat) {
    && r in t && r in t' && from <= i <= |t[r].kids| && Apart(t, t[r].kids, r, r)
    && Took(t, t', r, i + m, t[r].kids[i..]) && t'[r] == t[r].(kids := t'[r].kids)
    && RaisedTo(t[r].kids, t'[r].kids, m, i)
  }

  /** The list while it is being raised: done from position i on. */
  predicate RaisedTo(ks: seq<Id>, ks': seq<Id>, m: nat, i: nat)
    requires i <= |ks|
  {
    |ks'| == |ks| + m && ks'[..i] == ks[..i] && ks'[i + m..] == ks[i..]
  }

  lemma RaiseOne(ks: seq<Id>, ks': seq<Id>, m: nat, i: nat)
    requires i < |ks| && RaisedTo(ks, ks', m, i + 1) && Distinct(ks)
    ensures ks'[i] == ks[i] && RaisedTo(ks, ks'[i + m := ks[i]], m, i) && ks[i] !in ks[i + 1..] && ks[i..] == [ks[i]] + ks[i + 1..]
  {
    var u := ks'[i + m := ks[i]];
    assert ks'[i] == ks'[..i + 1][i];
    assert u[..i] == ks'[..i + 1][..i];
    assert u[i + m..] == [ks[i]] + ks'[i + 1 + m..];
  }

  lemma RaiseStep(t: Heap, t': Heap, r: Id, from: nat, m: nat, i: nat)
    requires Raising(t, t', r, from, m, i + 1) && from <= i
    ensures var c := t[r].kids[i];
      c in t' && c != r && t'[r].kids[i] == c && i + m < |t'[r].kids| && Raising(t, InitChild(t', r, i + m, c), r, from, m, i)
  {
    RaiseOne(t[r].kids, t'[r].kids, m, i);
    TookFront(t, t', r, i + 1 + m, t[r].kids[i + 1..], t[r].kids[i]);
  }

  lemma TookFront(t: Heap, t': Heap, n: Id, at: nat, ks: seq<Id>, c: Id)
    requires Took(t, t', n, at, ks) && c !in ks && c in t && c != n && n !in ks && 0 < at <= |t'[n].kids|
    ensures Took(t, InitChild(t', n, at - 1, c), n, at - 1, [c] + ks)
  {}

  lemma RaiseStart(t: Heap, t': Heap, r: Id, from: nat, m: nat)
    requires r in t && from <= |t[r].kids| && Apart(t, t[r].kids, r, r)
    requires t' == t[r := t[r].(kids := t[r].kids + Unused(m))]
    ensures Raising(t, t', r, from, m, |t[r].kids|)
  {
    assert t[r].kids[|t[r].kids|..] == [];
    assert (t[r].kids + Unused(m))[..|t[r].kids|] == t[r].kids[..|t[r].kids|];
  }

  lemma RaiseEnd(t: Heap, t': Heap, r: Id, from: nat, m: nat)
    requires Raising(t, t', r, from, m, from)
    ensures Took(t, t', r, from + m, t[r].kids[from..]) && Raised(t[r].kids, t'[r].kids, from, m)
    ensures t'[r] == t[r].(kids := t'[r].kids)
  {}

  /** Children ks of l hang from r, whose list is `now`. */
  ghost predicate Giving(t: Heap, t': Heap, l: Id, r: Id, ks: seq<Id>, now: seq<Id>) {
    l in t && r in t && l != r && Took(t, t', r, 0, ks) && t'[l] == t[l] && t'[r] == t[r].(kids := now)
  }

  lemma GiveOne(lk: seq<Id>, rk: seq<Id>, n: nat, i: nat)
    requires n + i < |lk| && Distinct(lk) && (i < |rk| || rk == [])
    ensures var ks, c := lk[n..n + i], lk[n + i];
      var now := ks + Beyond(rk, i);
      && c !in ks && lk[n..n + i + 1] == ks + [c] && i <= |now|
      && Placed(now, i, c) == ks + [c] + Beyond(rk, i + 1)
  {
    var ks, c := lk[n..n + i], lk[n + i];
    if i < |rk| { assert (ks + rk[i..])[i := c] == ks + [c] + rk[i + 1..]; }
  }

  lemma Slice(t: Heap, ks: seq<Id>, l: Id, r: Id, a: nat, b: nat)
    requires Apart(t, ks, l, r) && a <= b <= |ks|
    ensures l !in ks[a..b] && r !in ks[a..b]
    ensures b < |ks| ==> ks[b] in t && ks[b] != l && ks[b] != r
  {
    if b < |ks| { assert ks[b] in ks; }
  }

  lemma GiveMore(t: Heap, t': Heap, l: Id, r: Id, ks: seq<Id>, c: Id, now: seq<Id>)
    requires Giving(t, t', l, r, ks, now)
    requires c in t && c != l && c != r && c !in ks && r !in ks && |ks| <= |now|
    ensures Giving(t, InitChild(t', r, |ks|, c), l, r, ks + [c], Placed(now, |ks|, c))
  {
    TookMore(t, t', r, 0, ks, c);
  }

  /** Distinct nodes of the heap other than l and r. */
  predicate Apart(t: Heap, ks: seq<Id>, l: Id, r: Id) {
    Distinct(ks) && l !in ks && r !in ks && forall k :: k in ks ==> k in t
  }

  lemma TookMore(t: Heap, t': Heap, n: Id, at: nat, ks: seq<Id>, c: Id)
    requires Took(t, t', n, at, ks) && c !in ks && c in t && c != n && n !in ks && |t'[n].kids| >= at + |ks|
    ensures Took(t, InitChild(t', n, at + |ks|, c), n, at, ks + [c])
  {}

  /** The first j children of r were appended to l's. */
  ghost predicate Taken(t: Heap, t': Heap, l: Id, r: Id, j: nat) {
    && l in t && r in t && l != r && j <= |t[r].kids| && Apart(t, t[l].kids + t[r].kids, l, r)
    && Took(t, t', l, |t[l].kids|, t[r].kids[..j]) && t'[l] == t[l].(kids := t[l].kids + t[r].kids[..j]) && t'[r] == t[r]
  }

  lemma TakeStep(t: Heap, t': Heap, l: Id, r: Id, j: nat)
    requires Taken(t, t', l, r, j) && j < |t[r].kids|
    ensures var c := t[r].kids[j];
      && c in t' && c != l && |t'[l].kids| == |t[l].kids| + j
      && Taken(t, InitChild(t', l, |t[l].kids| + j, c), l, r, j + 1)
  {
    var rk := t[r].kids;
    ApartAt(t, t[l].kids, rk, l, r);
    assert rk[..j + 1] == rk[..j] + [rk[j]];
    TookMore(t, t', l, |t[l].kids|, rk[..j], rk[j]);
  }

  /** The first j children of r past the m-th have moved down. */
  ghost predicate Shifted(t: Heap, t': Heap, r: Id, m: nat, j: nat) {
    && r in t && m + j <= |t[r].kids| && Apart(t, t[r].kids, r, r)
    && Took(t, t', r, 0, t[r].kids[m..m + j]) && t'[r] == t[r].(kids := t[r].kids[m..m + j] + t[r].kids[j..])
  }

  lemma ShiftStep(t: Heap, t': Heap, r: Id, m: nat, j: nat)
    requires Shifted(t, t', r, m, j) && m + j < |t[r].kids|
    ensures var c := t[r].kids[m + j];
      && c in t' && c != r && |t'[r].kids| == |t[r].kids| && t'[r].kids[j + m] == c
      && Shifted(t, InitChild(t', r, j, c), r, m, j + 1)
  {
    ShiftedDown(t[r].kids, m, j);
    TookMore(t, t', r, 0, t[r].kids[m..m + j], t[r].kids[m + j]);
  }

  lemma ShiftStart(t: Heap, r: Id, m: nat)
    requires r in t && m <= |t[r].kids| && Apart(t, t[r].kids, r, r)
    ensures Shifted(t, t, r, m, 0)
  {
    assert t[r].kids[m..m] == [] && t[r].kids[0..] == t[r].kids;
  }

  lemma ShiftEnd(t: Heap, h: Heap, r: Id, m: nat)
    requires r in t && m <= |t[r].kids| && Shifted(t, h, r, m, |t[r].kids| - m)
    ensures |h[r].kids| >= |t[r].kids| - m
    ensures var u := h[r := h[r].(kids := h[r].kids[..|t[r].kids| - m])];
      Took(t, u, r, 0, t[r].kids[m..]) && u[r] == t[r].(kids := t[r].kids[m..])
  {
    var ks := t[r].kids[m..];
    assert t[r].kids[m..m + (|t[r].kids| - m)] == ks;
    assert r !in ks by { assert forall x :: x in ks ==> x in t[r].kids; }
    Truncated(t, h, r, ks, h[r].kids[..|t[r].kids| - m]);
  }

  lemma Truncated(t: Heap, h: Heap, r: Id, ks: seq<Id>, kids: seq<Id>)
    requires Took(t, h, r, 0, ks) && r !in ks && r in h
    ensures Took(t, h[r := h[r].(kids := kids)], r, 0, ks)
  {}

  lemma ShiftedDown(rk: seq<Id>, m: nat, j: nat)
    requires m + j < |rk| && Distinct(rk)
    ensures var now := rk[m..m + j] + rk[j..];
      && now[j + m] == rk[m + j] && now[j := rk[m + j]] == rk[m..m + j + 1] + rk[j + 1..]
    ensures rk[m..m + j + 1] == rk[m..m + j] + [rk[m + j]] && rk[m + j] !in rk[m..m + j]
  {}

  lemma ApartAt(t: Heap, a: seq<Id>, b: seq<Id>, l: Id, r: Id)
    requires Apart(t, a + b, l, r)
    ensures Apart(t, b, l, r)
  {
    DistinctSplit(a, b);
    assert forall k :: k in b ==> k in a + b;
  }

  /** The children ks now hang from n at positions from `at`; only they and n changed. */
  ghost predicate Took(t: Heap, t': Heap, n: Id, at: nat, ks: seq<Id>) {
    && t'.Keys == t.Keys && n in t
    && (forall a :: 0 <= a < |ks| ==> ks[a] in t && t'[ks[a]] == t[ks[a]].(parent := n, pos := at + a))
    && (forall m :: m in t && m != n && m !in ks ==> t'[m] == t[m])
  }

  // ---- rebalancing ------------------------------------------------------------------------------------

  /** The keys are where Moved has them; the children where they were. */
  ghost predicate KeysMoved(t: Heap, root: Id, l: Id, r: Id, c: nat, h: Heap)
    requires CanShare(t, root, l, r, c)
  {
    h.Keys == t.Keys && forall n :: n in t ==> KeysAsMoved(t, root, l, r, c, h, n)
  }

  predicate KeysAsMoved(t: Heap, root: Id, l: Id, r: Id, c: nat, h: Heap, n: Id)
    requires CanShare(t, root, l, r, c) && n in t && n in h
  {
    n in Moved(t, l, r, c) && h[n] == t[n].(keys := Moved(t, l, r, c)[n].keys)
  }

  lemma KeysMovedIs(t: Heap, root: Id, l: Id, r: Id, c: nat, h: Heap)
    requires Shape(t, root) && CanShare(t, root, l, r, c)
    requires var p := t[l].parent;
      && h == t[l := t[l].(keys := Both(t, l, r)[..c])][p := t[p].(keys := t[p].keys[t[l].pos := Both(t, l, r)[c]])]
               [r := t[r].(keys := Both(t, l, r)[c + 1..])]
    ensures KeysMoved(t, root, l, r, c, h)
  {
    forall n | n in t ensures KeysAsMoved(t, root, l, r, c, h, n) {
      KeysMovedAt(t, root, l, r, c, h, n);
    }
  }

  lemma KeysMovedAt(t: Heap, root: Id, l: Id, r: Id, c: nat, h: Heap, n: Id)
    requires CanShare(t, root, l, r, c) && n in t && n in h
    requires var p := t[l].parent;
      && l in h && r in h && p in h
      && h[l] == t[l].(keys := Both(t, l, r)[..c]) && h[r] == t[r].(keys := Both(t, l, r)[c + 1..])
      && h[p] == t[p].(keys := t[p].keys[t[l].pos := Both(t, l, r)[c]])
      && (n != l && n != r && n != p ==> h[n] == t[n])
    ensures KeysAsMoved(t, root, l, r, c, h, n)
  {
    MovedAt(t, root, l, r, c, n);
  }

  /** Keys moved, children handed over and linked: that is Share. */
  lemma Finish(t: Heap, root: Id, l: Id, r: Id, c: nat, h1: Heap, h: Heap)
    requires Shape(t, root) && CanShare(t, root, l, r, c) && KeysMoved(t, root, l, r, c, h1) && h.Keys == t.Keys
    requires var kids := t[l].kids + t[r].kids;
      && h[l] == h1[l].(kids := FirstKids(t[l].lvl, kids, c)) && h[r] == h1[r].(kids := RestKids(t[l].lvl, kids, c))
    requires forall x :: x in t && x != l && x != r ==> SameBody(h1[x], h[x])
    requires ShareLinked(t, l, r, c, h)
    ensures h == Share(t, l, r, c)
  {
    forall m | m in t ensures m in Moved(t, l, r, c) && SameBody(Moved(t, l, r, c)[m], h[m]) {
      MovedAt(t, root, l, r, c, m);
      assert KeysAsMoved(t, root, l, r, c, h1, m);
    }
    IsShare(t, root, l, r, c, h);
  }

  lemma FinishLeaf(t: Heap, root: Id, l: Id, r: Id, c: nat, h: Heap)
    requires Shape(t, root) && CanShare(t, root, l, r, c) && t[l].lvl == 0 && KeysMoved(t, root, l, r, c, h)
    ensures h == Share(t, l, r, c)
  {
    SiblingLinks(t, root, l, r);
    Finish(t, root, l, r, c, h, h);
  }

  /** One node's record, where only keys changed. */
  predicate SameLinks(x: Node, y: Node) { y.parent == x.parent && y.pos == x.pos }

  /** Before the move: the children of l and of r hang from them in order. */
  ghost predicate HungInOrder(t: Heap, n: Id, at: nat, ks: seq<Id>) {
    forall a :: 0 <= a < |ks| ==> ks[a] in t && t[ks[a]].parent == n && t[ks[a]].pos == at + a
  }

  lemma HungMore(t: Heap, n: Id, at: nat, ks: seq<Id>, ls: seq<Id>)
    requires HungInOrder(t, n, at, ks) && HungInOrder(t, n, at + |ks|, ls)
    ensures HungInOrder(t, n, at, ks + ls)
  {}

  lemma HungStill(t: Heap, h: Heap, n: Id, at: nat, ks: seq<Id>, m: Id, at': nat, ls: seq<Id>)
    requires HungInOrder(t, n, at, ks) && Took(t, h, m, at', ls) && m !in ks && (forall k :: k in ks ==> k !in ls)
    ensures HungInOrder(h, n, at, ks)
  {}

  lemma HungThrough(t: Heap, h: Heap, n: Id, at: nat, ks: seq<Id>, m: Id, at': nat, ls: seq<Id>)
    requires HungInOrder(t, n, at, ks) && Took(t, h, m, at', ls) && SameLinks(t[m], h[m]) && Separate(ks, ls)
    ensures HungInOrder(h, n, at, ks)
  {}

  lemma HungNow(t: Heap, h: Heap, n: Id, at: nat, ks: seq<Id>)
    requires Took(t, h, n, at, ks)
    ensures HungInOrder(h, n, at, ks)
  {}

  lemma HungBefore(t: Heap, root: Id, n: Id, h: Heap)
    requires n in t && Down(t, root, n) && h.Keys == t.Keys && forall x :: x in t ==> SameLinks(t[x], h[x])
    ensures HungInOrder(h, n, 0, t[n].kids)
  {
    forall a | 0 <= a < |t[n].kids|
      ensures t[n].kids[a] in h && h[t[n].kids[a]].parent == n && h[t[n].kids[a]].pos == a
    {
      assert Child(t, root, n, a);
    }
  }

  lemma KeysMovedLinks(t: Heap, root: Id, l: Id, r: Id, c: nat, h: Heap)
    requires CanShare(t, root, l, r, c) && KeysMoved(t, root, l, r, c, h)
    ensures h.Keys == t.Keys && h[l].kids == t[l].kids && h[r].kids == t[r].kids
    ensures forall x :: x in t ==> SameLinks(t[x], h[x])
  {
    forall x | x in t ensures SameLinks(t[x], h[x]) {
      assert KeysAsMoved(t, root, l, r, c, h, x);
    }
    assert KeysAsMoved(t, root, l, r, c, h, l) && KeysAsMoved(t, root, l, r, c, h, r);
  }

  /** The children of two siblings, apart from both, hang where they should. */
  lemma SiblingsApart(t: Heap, h: Heap, root: Id, l: Id, r: Id)
    requires Shape(t, root) && Siblings(t, root, l, r) && h.Keys == t.Keys && forall x :: x in t ==> SameLinks(t[x], h[x])
    ensures Apart(h, t[l].kids + t[r].kids, l, r) && Apart(h, t[l].kids, l, r) && Apart(h, t[r].kids, r, r)
    ensures HungInOrder(h, l, 0, t[l].kids)
  {
    SiblingKids(t, root, l, r);
    ApartAt(h, t[l].kids, t[r].kids, l, r);
    DistinctSplit(t[l].kids, t[r].kids);
    assert forall k :: k in t[l].kids ==> k in t[l].kids + t[r].kids;
    assert Down(t, root, l);
    HungBefore(t, root, l, h);
  }

  lemma LinkedFrom(t: Heap, l: Id, r: Id, c: nat, h: Heap)
    requires l in t && r in t
    requires var kids := t[l].kids + t[r].kids;
      && HungInOrder(h, l, 0, FirstKids(t[l].lvl, kids, c)) && HungInOrder(h, r, 0, RestKids(t[l].lvl, kids, c))
      && forall m :: m in t && m !in kids ==> m in h && SameLinks(t[m], h[m])
    ensures ShareLinked(t, l, r, c, h)
  {}

  predicate Separate(a: seq<Id>, b: seq<Id>) { forall k :: k in a ==> k !in b }

  /** a goes behind lk under l, then b goes to the front under r. */
  lemma MoveTwo(h0: Heap, h1: Heap, h2: Heap, l: Id, r: Id, lk: seq<Id>, a: seq<Id>, b: seq<Id>)
    requires HungInOrder(h0, l, 0, lk) && Took(h0, h1, l, |lk|, a) && Took(h1, h2, r, 0, b)
    requires Separate(lk, a) && Separate(lk, b) && Separate(a, b) && l !in lk && r !in lk && r !in a
    ensures HungInOrder(h2, l, 0, lk + a) && HungInOrder(h2, r, 0, b)
  {
    HungStill(h0, h1, l, 0, lk, l, |lk|, a);
    HungStill(h1, h2, l, 0, lk, r, 0, b);
    HungNow(h0, h1, l, |lk|, a);
    HungStill(h1, h2, l, |lk|, a, r, 0, b);
    HungMore(h2, l, 0, lk, a);
    HungNow(h1, h2, r, 0, b);
  }

  lemma TookRest(h0: Heap, h1: Heap, n: Id, at: nat, ks: seq<Id>)
    requires Took(h0, h1, n, at, ks) && SameLinks(h0[n], h1[n])
    ensures forall x :: x in h0 && x !in ks ==> x in h1 && SameLinks(h0[x], h1[x])
    ensures forall x :: x in h0 && x != n ==> x in h1 && SameBody(h0[x], h1[x])
  {
    forall x | x in h0 && x != n && x in ks ensures SameBody(h0[x], h1[x]) {
      var a :| 0 <= a < |ks| && ks[a] == x;
    }
  }

  /** Three lists that make up distinct children. */
  lemma Apart3(t: Heap, lk: seq<Id>, rk: seq<Id>, m: nat, l: Id, r: Id)
    requires Apart(t, lk + rk, l, r) && m <= |rk|
    ensures Separate(lk, rk[..m]) && Separate(lk, rk[m..]) && Separate(rk[..m], rk[m..])
    ensures l !in lk && r !in lk && r !in rk[..m] && l !in rk[..m] && l !in rk[m..] && r !in rk[m..]
  {
    DistinctSplit(lk, rk);
    assert rk == rk[..m] + rk[m..];
    DistinctSplit(rk[..m], rk[m..]);
    assert forall x :: x in rk[..m] || x in rk[m..] ==> x in rk;
    assert forall x :: x in rk || x in lk ==> x in lk + rk;
  }

  /** Links and bodies after two moves. */
  lemma AfterTwo(t: Heap, h1: Heap, h2: Heap, h: Heap, l: Id, r: Id, a: seq<Id>, b: seq<Id>, at: nat, at': nat)
    requires h1.Keys == t.Keys && (forall x :: x in t ==> SameLinks(t[x], h1[x]))
    requires Took(h1, h2, l, at, a) && SameLinks(h1[l], h2[l]) && Took(h2, h, r, at', b) && SameLinks(h2[r], h[r])
    ensures forall x :: x in t && x !in a && x !in b ==> x in h && SameLinks(t[x], h[x])
    ensures forall x :: x in t && x != l && x != r ==> x in h && SameBody(h1[x], h[x])
  {
    TookRest(h1, h2, l, at, a);
    TookRest(h2, h, r, at', b);
  }

  /** What the records and links are after the children kl and kr were handed to l and r. */
  ghost predicate HandedOver(t: Heap, h1: Heap, h: Heap, l: Id, r: Id, kl: seq<Id>, kr: seq<Id>) {
    && l in t && r in t && h1.Keys == t.Keys == h.Keys && kl + kr == t[l].kids + t[r].kids
    && h[l] == h1[l].(kids := kl) && h[r] == h1[r].(kids := kr)
    && HungInOrder(h, l, 0, kl) && HungInOrder(h, r, 0, kr)
    && (forall x :: x in t && x !in kl + kr ==> SameLinks(t[x], h[x]))
    && (forall x :: x in t && x != l && x != r ==> SameBody(h1[x], h[x]))
  }

  lemma FirstHanded(t: Heap, h1: Heap, h2: Heap, h: Heap, l: Id, r: Id, m: nat)
    requires l in t && r in t && l != r && m <= |t[r].kids| && h1.Keys == t.Keys && forall x :: x in t ==> SameLinks(t[x], h1[x])
    requires Apart(h1, t[l].kids + t[r].kids, l, r) && HungInOrder(h1, l, 0, t[l].kids)
    requires Took(h1, h2, l, |t[l].kids|, t[r].kids[..m]) && h2[l] == h1[l].(kids := t[l].kids + t[r].kids[..m])
    requires Took(h2, h, r, 0, t[r].kids[m..]) && h[r] == h2[r].(kids := t[r].kids[m..])
    ensures HandedOver(t, h1, h, l, r, t[l].kids + t[r].kids[..m], t[r].kids[m..])
  {
    var lk, rk := t[l].kids, t[r].kids;
    Apart3(h1, lk, rk, m, l, r);
    MoveTwo(h1, h2, h, l, r, lk, rk[..m], rk[m..]);
    AfterTwo(t, h1, h2, h, l, r, rk[..m], rk[m..], |lk|, 0);
    assert (lk + rk[..m]) + rk[m..] == lk + rk;
  }

  /** Children kl under l and kr under r, in order; nothing else moved. */
  lemma ConcludeShare(t: Heap, root: Id, l: Id, r: Id, c: nat, h1: Heap, h: Heap, kl: seq<Id>, kr: seq<Id>)
    requires Shape(t, root) && CanShare(t, root, l, r, c) && KeysMoved(t, root, l, r, c, h1) && t[l].lvl > 0
    requires HandedOver(t, h1, h, l, r, kl, kr) && |kl| == c + 1
    ensures h == Share(t, l, r, c)
  {
    var kids := t[l].kids + t[r].kids;
    assert |kids| > c;
    assert kl == (kl + kr)[..c + 1] && kr == (kl + kr)[c + 1..];
    LinkedFrom(t, l, r, c, h);
    Finish(t, root, l, r, c, h1, h);
  }

  /** The keys of rebalance_right_to_left. */
  method KeysToLeft(t: Heap, ghost root: Id, l: Id, r: Id, m: nat) returns (h: Heap)
    requires l in t && r in t && 1 <= m <= |t[r].keys| && Shape(t, root) && CanShare(t, root, l, r, |t[l].keys| + m)
    ensures KeysMoved(t, root, l, r, |t[l].keys| + m, h)
  {
    var p, i := t[l].parent, t[l].pos;
    h := t[l := t[l].(keys := t[l].keys + [t[p].keys[i]])];
    h := h[l := h[l].(keys := h[l].keys + h[r].keys[..m - 1])];
    h := h[p := h[p].(keys := h[p].keys[i := h[r].keys[m - 1]])];
    h := h[r := h[r].(keys := h[r].keys[m..])];
    MovedLeft(t, l, r, m, h);
    KeysMovedIs(t, root, l, r, |t[l].keys| + m, h);
  }

  /** rebalance_right_to_left: the first m keys and children of r's side go to l. */
  method RightToLeft(t: Heap, ghost root: Id, l: Id, r: Id, m: nat) returns (h: Heap)
    requires Shape(t, root) && Siblings(t, root, l, r) && 1 <= m <= |t[r].keys|
    ensures CanShare(t, root, l, r, |t[l].keys| + m) && h == Share(t, l, r, |t[l].keys| + m)
  {
    SiblingLinks(t, root, l, r);
    SharePossible(t, root, l, r, |t[l].keys| + m);
    h := KeysToLeft(t, root, l, r, m);
    if t[l].lvl > 0 {
      h := ChildrenToLeft(t, h, root, l, r, m, |t[l].keys| + m);
    } else {
      FinishLeaf(t, root, l, r, |t[l].keys| + m, h);
    }
  }

  method ChildrenToLeft(ghost t: Heap, h1: Heap, ghost root: Id, l: Id, r: Id, m: nat, ghost c: nat) returns (h: Heap)
    requires Shape(t, root) && CanShare(t, root, l, r, c) && t[l].lvl > 0 && m <= |t[r].keys| && c == |t[l].keys| + m
    requires KeysMoved(t, root, l, r, c, h1)
    ensures h == Share(t, l, r, c)
  {
    SiblingLinks(t, root, l, r);
    KeysMovedLinks(t, root, l, r, c, h1);
    SiblingsApart(t, h1, root, l, r);
    h := HandFirst(t, h1, l, r, m);
    ConcludeShare(t, root, l, r, c, h1, h, t[l].kids + t[r].kids[..m], t[r].kids[m..]);
  }

  lemma MovedLeft(t: Heap, l: Id, r: Id, m: nat, h: Heap)
    requires l in t && r in t && t[l].parent in t && t[l].pos < |t[t[l].parent].keys| && 1 <= m <= |t[r].keys|
    requires l != r && t[l].parent != l && t[l].parent != r
    requires var p, i := t[l].parent, t[l].pos;
      var x := t[l].(keys := t[l].keys + [t[p].keys[i]]);
      h == t[l := x][l := x.(keys := x.keys + t[r].keys[..m - 1])][p := t[p].(keys := t[p].keys[i := t[r].keys[m - 1]])]
            [r := t[r].(keys := t[r].keys[m..])]
    ensures var p, c := t[l].parent, |t[l].keys| + m;
      && c < |Both(t, l, r)|
      && h == t[l := t[l].(keys := Both(t, l, r)[..c])][p := t[p].(keys := t[p].keys[t[l].pos := Both(t, l, r)[c]])]
               [r := t[r].(keys := Both(t, l, r)[c + 1..])]
  {
    var c := |t[l].keys| + m;
    assert Both(t, l, r)[..c] == t[l].keys + [t[t[l].parent].keys[t[l].pos]] + t[r].keys[..m - 1];
    assert Both(t, l, r)[c + 1..] == t[r].keys[m..];
  }

  /** b goes to the front under r, where the children rk of r have made room. */
  lemma MakeRoomFor(h0: Heap, h1: Heap, h2: Heap, l: Id, r: Id, a: seq<Id>, b: seq<Id>, rk: seq<Id>)
    requires HungInOrder(h0, l, 0, a) && Took(h0, h1, r, |b|, rk) && Took(h1, h2, r, 0, b)
    requires Separate(a, rk) && Separate(a, b) && Separate(rk, b) && r !in a && r !in rk
    ensures HungInOrder(h2, l, 0, a) && HungInOrder(h2, r, 0, b + rk)
  {
    HungStill(h0, h1, l, 0, a, r, |b|, rk);
    HungStill(h1, h2, l, 0, a, r, 0, b);
    HungNow(h0, h1, r, |b|, rk);
    HungStill(h1, h2, r, |b|, rk, r, 0, b);
    HungNow(h1, h2, r, 0, b);
    HungMore(h2, r, 0, b, rk);
  }

  lemma Apart3Left(t: Heap, lk: seq<Id>, rk: seq<Id>, n: nat, l: Id, r: Id)
    requires Apart(t, lk + rk, l, r) && n <= |lk|
    ensures Separate(lk[..n], rk) && Separate(lk[..n], lk[n..]) && Separate(rk, lk[n..])
    ensures r !in lk[..n] && r !in rk && l !in rk && l !in lk[n..] && r !in lk[n..]
  {
    DistinctSplit(lk, rk);
    assert lk == lk[..n] + lk[n..];
    DistinctSplit(lk[..n], lk[n..]);
    assert forall x :: x in lk[..n] || x in lk[n..] ==> x in lk;
    assert forall x :: x in rk || x in lk ==> x in lk + rk;
  }

  lemma HungFirst(t: Heap, n: Id, ks: seq<Id>, m: nat)
    requires HungInOrder(t, n, 0, ks) && m <= |ks|
    ensures HungInOrder(t, n, 0, ks[..m])
  {}

  /** Clearing slots of l's child array changes no link. */
  lemma ClearKids(h: Heap, l: Id, ks: seq<Id>, r: Id, b: seq<Id>)
    requires l in h && HungInOrder(h, r, 0, b)
    ensures HungInOrder(h[l := h[l].(kids := ks)], r, 0, b)
  {}

  lemma LastHanded(t: Heap, h1: Heap, h2: Heap, h3: Heap, h: Heap, l: Id, r: Id, n: nat, m: nat)
    requires l in t && r in t && l != r && n + m == |t[l].kids| && h1.Keys == t.Keys && forall x :: x in t ==> SameLinks(t[x], h1[x])
    requires Apart(h1, t[l].kids + t[r].kids, l, r) && HungInOrder(h1, l, 0, t[l].kids)
    requires Took(h1, h2, r, m, t[r].kids) && h2[r] == h1[r].(kids := h2[r].kids)
    requires Took(h2, h3, r, 0, t[l].kids[n..]) && h3[l] == h2[l] == h1[l] && h3[r] == h1[r].(kids := t[l].kids[n..] + t[r].kids)
    requires h == h3[l := h3[l].(kids := t[l].kids[..n])]
    ensures HandedOver(t, h1, h, l, r, t[l].kids[..n], t[l].kids[n..] + t[r].kids)
  {
    var lk, rk := t[l].kids, t[r].kids;
    HungFirst(h1, l, lk, n);
    Apart3Left(h1, lk, rk, n, l, r);
    MakeRoomFor(h1, h2, h3, l, r, lk[..n], lk[n..], rk);
    AfterTwo(t, h1, h2, h3, r, r, rk, lk[n..], m, 0);
    ClearKids(h3, l, lk[..n], l, lk[..n]);
    ClearKids(h3, l, lk[..n], r, lk[n..] + rk);
    assert lk[..n] + (lk[n..] + rk) == lk + rk;
  }

  /** The keys of rebalance_left_to_right. */
  method KeysToRight(t: Heap, ghost root: Id, l: Id, r: Id, m: nat) returns (h: Heap)
    requires l in t && 1 <= m <= |t[l].keys| && Shape(t, root) && CanShare(t, root, l, r, |t[l].keys| - m)
    ensures KeysMoved(t, root, l, r, |t[l].keys| - m, h)
  {
    var p, i, n := t[l].parent, t[l].pos, |t[l].keys|;
    h := t[r := t[r].(keys := [t[p].keys[i]] + t[r].keys)];
    h := h[r := h[r].(keys := h[l].keys[n - (m - 1)..] + h[r].keys)];
    h := h[p := h[p].(keys := h[p].keys[i := h[l].keys[n - m]])];
    h := h[l := h[l].(keys := h[l].keys[..n - m])];
    MovedRight(t, l, r, m, h);
    KeysMovedIs(t, root, l, r, n - m, h);
  }

  /** rebalance_left_to_right: the last m keys and children of l's side go to r. */
  method LeftToRight(t: Heap, ghost root: Id, l: Id, r: Id, m: nat) returns (h: Heap)
    requires Shape(t, root) && Siblings(t, root, l, r) && 1 <= m <= |t[l].keys|
    ensures CanShare(t, root, l, r, |t[l].keys| - m) && h == Share(t, l, r, |t[l].keys| - m)
  {
    SiblingLinks(t, root, l, r);
    SharePossible(t, root, l, r, |t[l].keys| - m);
    h := KeysToRight(t, root, l, r, m);
    if t[l].lvl > 0 {
      ghost var h1, n := h, |t[l].kids| - m;
      KeysMovedLinks(t, root, l, r, |t[l].keys| - m, h1);
      SiblingsApart(t, h1, root, l, r);
      h := HandLast(t, h, l, r, |t[l].kids| - m);
      ConcludeShare(t, root, l, r, |t[l].keys| - m, h1, h, t[l].kids[..n], t[l].kids[n..] + t[r].kids);
    } else {
      FinishLeaf(t, root, l, r, |t[l].keys| - m, h);
    }
  }

  /** The children of rebalance_left_to_right. */
  method HandLast(ghost t: Heap, h1: Heap, l: Id, r: Id, n: nat) returns (h: Heap)
    requires l in t && r in t && l != r && n <= |t[l].kids| && h1.Keys == t.Keys && (forall x :: x in t ==> SameLinks(t[x], h1[x]))
    requires h1[l].kids == t[l].kids && h1[r].kids == t[r].kids
    requires Apart(h1, t[l].kids + t[r].kids, l, r) && Apart(h1, t[l].kids, l, r) && Apart(h1, t[r].kids, r, r)
    requires HungInOrder(h1, l, 0, t[l].kids)
    ensures HandedOver(t, h1, h, l, r, t[l].kids[..n], t[l].kids[n..] + t[r].kids)
  {
    var m := |h1[l].kids| - n;
    h := ShiftUp(h1, r, 0, m);
    ghost var h2 := h;
    RoomMade(t, h1, h2, l, r, m);
    h := GiveLast(h, l, r, n);
    ghost var h3 := h;
    h := h[l := h[l].(kids := h[l].kids[..n])];
    LastHanded(t, h1, h2, h3, h, l, r, n, m);
  }

  /** The children of rebalance_right_to_left. */
  method HandFirst(ghost t: Heap, h1: Heap, l: Id, r: Id, m: nat) returns (h: Heap)
    requires l in t && r in t && l != r && m <= |t[r].kids| && h1.Keys == t.Keys && (forall x :: x in t ==> SameLinks(t[x], h1[x]))
    requires h1[l].kids == t[l].kids && h1[r].kids == t[r].kids
    requires Apart(h1, t[l].kids + t[r].kids, l, r) && Apart(h1, t[r].kids, r, r) && HungInOrder(h1, l, 0, t[l].kids)
    ensures HandedOver(t, h1, h, l, r, t[l].kids + t[r].kids[..m], t[r].kids[m..])
  {
    h := TakeFirst(h1, l, r, m);
    ghost var h2 := h;
    StillApart(t, h1, h2, l, r, m);
    h := ShiftDown(h, r, m);
    FirstHanded(t, h1, h2, h, l, r, m);
  }

  lemma StillApart(t: Heap, h1: Heap, h2: Heap, l: Id, r: Id, m: nat)
    requires l in t && r in t && l != r && m <= |t[r].kids| && h1.Keys == t.Keys && h1[r].kids == t[r].kids
    requires Apart(h1, t[r].kids, r, r) && Took(h1, h2, l, |t[l].kids|, t[r].kids[..m])
    ensures h2[r] == h1[r] && Apart(h2, t[r].kids, r, r)
  {
    assert r !in t[r].kids[..m] by { assert forall x :: x in t[r].kids[..m] ==> x in t[r].kids; }
  }

  lemma RoomMade(t: Heap, h1: Heap, h2: Heap, l: Id, r: Id, m: nat)
    requires l in t && r in t && l != r && h1.Keys == t.Keys && h1[l].kids == t[l].kids && h1[r].kids == t[r].kids
    requires Apart(h1, t[l].kids + t[r].kids, l, r) && Apart(h1, t[l].kids, l, r)
    requires Took(h1, h2, r, 0 + m, h1[r].kids[0..]) && Raised(h1[r].kids, h2[r].kids, 0, m)
    ensures h1[r].kids[0..] == t[r].kids && h2[l] == h1[l] && h2.Keys == t.Keys
    ensures Apart(h2, t[l].kids, l, r) && m <= |h2[r].kids| && Beyond(h2[r].kids, m) == t[r].kids
  {
    assert l !in t[r].kids by { assert forall x :: x in t[r].kids ==> x in t[l].kids + t[r].kids; }
  }

  lemma MovedRight(t: Heap, l: Id, r: Id, m: nat, h: Heap)
    requires l in t && r in t && t[l].parent in t && t[l].pos < |t[t[l].parent].keys| && 1 <= m <= |t[l].keys|
    requires l != r && t[l].parent != l && t[l].parent != r
    requires var p, i, n := t[l].parent, t[l].pos, |t[l].keys|;
      var y := t[r].(keys := [t[p].keys[i]] + t[r].keys);
      h == t[r := y][r := y.(keys := t[l].keys[n - (m - 1)..] + y.keys)][p := t[p].(keys := t[p].keys[i := t[l].keys[n - m]])]
            [l := t[l].(keys := t[l].keys[..n - m])]
    ensures var p, c := t[l].parent, |t[l].keys| - m;
      && c < |Both(t, l, r)|
      && h == t[l := t[l].(keys := Both(t, l, r)[..c])][p := t[p].(keys := t[p].keys[t[l].pos := Both(t, l, r)[c]])]
               [r := t[r].(keys := Both(t, l, r)[c + 1..])]
  {
    var c := |t[l].keys| - m;
    assert Both(t, l, r)[..c] == t[l].keys[..c] && Both(t, l, r)[c] == t[l].keys[c];
    assert Both(t, l, r)[c + 1..] == t[l].keys[c + 1..] + ([t[t[l].parent].keys[t[l].pos]] + t[r].keys);
  }

  // ---- splitting ------------------------------------------------------------------------------------

  /** How many keys stay in a full node: inserting at its start leaves none, at its end all but one. */
  function Kept(count: nat, i: nat, most: nat): (c: nat)
    requires count > 0
    ensures c < count
  {
    (if i == 0 then 1 else if i == most then count else count - count / 2) - 1
  }

  /** The keys are where Cut has them, d is new, the children are where they were. */
  predicate KeysCut(t: Heap, n: Id, d: Id, c: nat, h: Heap) {
    && n in t && t[n].parent in t && c < |t[n].keys| && t[n].pos <= |t[t[n].parent].keys| && t[n].parent != n && d !in t
    && var p, i := t[n].parent, t[n].pos;
       h == t[d := Node(t[n].lvl, t[n].max, t[n].keys[c + 1..], [], p, 0)][n := t[n].(keys := t[n].keys[..c])]
             [p := t[p].(keys := t[p].keys[..i] + [t[n].keys[c]] + t[p].keys[i..])]
  }

  /** What the records and links are after kp became the children of p and kd those of d. */
  ghost predicate HalvesLinked(t: Heap, h1: Heap, h: Heap, n: Id, d: Id, p: Id, kn: seq<Id>, kd: seq<Id>, kp: seq<Id>) {
    && n in h1 && d in h1 && p in h1 && h.Keys == h1.Keys
    && h[n] == h1[n].(kids := kn) && h[p] == h1[p].(kids := kp)
    && h[d] == h1[d].(kids := kd, parent := h[d].parent, pos := h[d].pos)
    && HungInOrder(h, p, 0, kp) && HungInOrder(h, d, 0, kd)
    && (forall x :: x in t && x !in kp && x !in kd ==> x in h1 && SameLinks(t[x], h[x]))
    && (forall x :: x in t && x != n && x != p ==> x in h1 && SameBody(h1[x], h[x]))
  }

  lemma ConcludeSplit(t: Heap, root: Id, n: Id, d: Id, c: nat, h1: Heap, h: Heap, kn: seq<Id>, kd: seq<Id>)
    requires Shape(t, root) && CanSplit(t, root, n, d, c) && KeysCut(t, n, d, c, h1)
    requires kn == FirstKids(t[n].lvl, t[n].kids, c) && kd == RestKids(t[n].lvl, t[n].kids, c)
    requires var p, i := t[n].parent, t[n].pos;
      HalvesLinked(t, h1, h, n, d, p, kn, kd, t[p].kids[..i + 1] + [d] + t[p].kids[i + 1..])
    ensures h == Split(t, n, d, c)
  {
    var p, i := t[n].parent, t[n].pos;
    var kp := t[p].kids[..i + 1] + [d] + t[p].kids[i + 1..];
    assert kp[i + 1] == d;
    CutAt(t, root, n, d, c, n);
    forall m | m in h ensures m in Cut(t, n, d, c) && SameBody(Cut(t, n, d, c)[m], h[m]) {
      if m != d { CutAt(t, root, n, d, c, m); }
    }
    IsSplit(t, root, n, d, c, h);
  }

  /** d took the slot behind position i of p; kp is p's list. */
  ghost predicate SlotTaken(h1: Heap, h: Heap, p: Id, d: Id, kp: seq<Id>, i: nat) {
    && p in h1 && d in h1 && h.Keys == h1.Keys && i < |kp| && kp[i] in h1
    && h[p] == h1[p].(kids := kp) && h[d] == h1[d].(parent := p, pos := i + 1) && h[kp[i]] == h1[kp[i]]
    && HungInOrder(h, p, 0, kp)
    && (forall x :: x in h1 && x !in kp ==> SameLinks(h1[x], h[x]))
    && (forall x :: x in h1 && x != p ==> SameBody(h1[x], h[x]))
  }

  /** The later children of p have made room for d. */
  lemma TakeSlot(h1: Heap, h2: Heap, p: Id, i: nat, d: Id, ks: seq<Id>)
    requires p in h1 && d in h1 && p != d && h1[p].kids == ks && i < |ks| && Apart(h1, ks, p, d)
    requires Took(h1, h2, p, i + 2, ks[i + 1..]) && Raised(ks, h2[p].kids, i + 1, 1) && h2[p] == h1[p].(kids := h2[p].kids)
    requires HungInOrder(h1, p, 0, ks)
    ensures SlotTaken(h1, InitChild(h2, p, i + 1, d), p, d, ks[..i + 1] + [d] + ks[i + 1..], i)
  {
    var kp := ks[..i + 1] + [d] + ks[i + 1..];
    RaisedSlot(ks, h2[p].kids, i, d);
    SlotHung(h1, h2, p, i, d, ks);
    SlotRest(h1, h2, p, i, d, ks);
    SlotLists(ks, i, d);
    SlotIs(h1, InitChild(h2, p, i + 1, d), p, d, ks, kp, i);
  }

  lemma SlotIs(h1: Heap, h: Heap, p: Id, d: Id, ks: seq<Id>, kp: seq<Id>, i: nat)
    requires p in h1 && d in h1 && h.Keys == h1.Keys && i < |kp| && kp[i] in h1
    requires h[p] == h1[p].(kids := kp) && h[d] == h1[d].(parent := p, pos := i + 1) && h[kp[i]] == h1[kp[i]]
    requires HungInOrder(h, p, 0, kp) && (forall x :: x in ks ==> x in kp) && d in kp
    requires forall x :: x in h1 && x !in ks && x != d ==> SameLinks(h1[x], h[x])
    requires forall x :: x in h1 && x != p ==> SameBody(h1[x], h[x])
    ensures SlotTaken(h1, h, p, d, kp, i)
  {}

  lemma SlotLists(ks: seq<Id>, i: nat, d: Id)
    requires i < |ks|
    ensures var kp := ks[..i + 1] + [d] + ks[i + 1..];
      kp[i] == ks[i] && kp[i + 1] == d && d in kp && forall x :: x in ks ==> x in kp
  {
    var kp := ks[..i + 1] + [d] + ks[i + 1..];
    assert kp[i + 1] == d;
    forall x | x in ks ensures x in kp {
      var j :| 0 <= j < |ks| && ks[j] == x;
      assert kp[if j <= i then j else j + 1] == x;
    }
  }

  lemma NotLater(ks: seq<Id>, i: nat)
    requires Distinct(ks) && i < |ks|
    ensures ks[i] in ks && ks[i] !in ks[i + 1..]
  {}

  lemma SlotRest(h1: Heap, h2: Heap, p: Id, i: nat, d: Id, ks: seq<Id>)
    requires p in h1 && d in h1 && p != d && i < |ks| && Apart(h1, ks, p, d)
    requires Took(h1, h2, p, i + 2, ks[i + 1..]) && i + 1 < |h2[p].kids| && h2[p] == h1[p].(kids := h2[p].kids)
    ensures var h3 := InitChild(h2, p, i + 1, d);
      && h3.Keys == h1.Keys && h3[d] == h1[d].(parent := p, pos := i + 1) && ks[i] in h1 && h3[ks[i]] == h1[ks[i]]
      && h3[p] == h2[p].(kids := h2[p].kids[i + 1 := d])
      && (forall x :: x in h1 && x !in ks && x != d ==> SameLinks(h1[x], h3[x]))
      && (forall x :: x in h1 && x != p ==> SameBody(h1[x], h3[x]))
  {
    NotLater(ks, i);
    assert forall x :: x in ks[i + 1..] ==> x in ks;
    TookRest(h1, h2, p, i + 2, ks[i + 1..]);
  }

  lemma SlotHung(h1: Heap, h2: Heap, p: Id, i: nat, d: Id, ks: seq<Id>)
    requires p in h1 && d in h1 && p != d && i < |ks| && Apart(h1, ks, p, d) && HungInOrder(h1, p, 0, ks)
    requires Took(h1, h2, p, i + 2, ks[i + 1..]) && i + 1 < |h2[p].kids|
    ensures HungInOrder(InitChild(h2, p, i + 1, d), p, 0, ks[..i + 1] + [d] + ks[i + 1..])
  {
    var h3, a, b := InitChild(h2, p, i + 1, d), ks[..i + 1], ks[i + 1..];
    assert ks == a + b;
    DistinctSplit(a, b);
    assert p !in a && p !in b && d !in a && d !in b;
    HungFirst(h1, p, ks, i + 1);
    HungStill(h1, h2, p, 0, a, p, i + 2, b);
    HungNow(h1, h2, p, i + 2, b);
    HungWith(h2, p, i + 1, d, 0, a);
    HungWith(h2, p, i + 1, d, i + 2, b);
    HungMore(h3, p, 0, a, [d]);
    HungMore(h3, p, 0, a + [d], b);
  }

  lemma HungWith(h: Heap, p: Id, i: nat, d: Id, at: nat, ks: seq<Id>)
    requires p in h && d in h && p != d && i <= |h[p].kids| && HungInOrder(h, p, at, ks) && d !in ks && p !in ks
    ensures HungInOrder(InitChild(h, p, i, d), p, at, ks)
  {}

  lemma RaisedSlot(ks: seq<Id>, ks': seq<Id>, i: nat, d: Id)
    requires i < |ks| && Raised(ks, ks', i + 1, 1)
    ensures i + 1 < |ks'| && ks'[i + 1 := d] == ks[..i + 1] + [d] + ks[i + 1..]
  {
    assert ks' == ks'[..i + 1] + [ks'[i + 1]] + ks'[i + 2..];
  }

  /** The last children of n go to d; n's slots are cleared. */
  lemma TailGiven(t: Heap, h1: Heap, h3: Heap, h4: Heap, n: Id, d: Id, p: Id, c: nat, kp: seq<Id>, i: nat)
    requires n in t && p in t && d !in t && h1.Keys == t.Keys + {d} && c + 1 <= |h1[n].kids| && n != p
    requires SlotTaken(h1, h3, p, d, kp, i) && kp[i] == n && (forall x :: x in t ==> SameLinks(t[x], h1[x]))
    requires Took(h3, h4, d, 0, h1[n].kids[c + 1..]) && h4[n] == h3[n] && h4[d] == h3[d].(kids := h1[n].kids[c + 1..])
    requires Separate(kp, h1[n].kids) && p !in h1[n].kids && n !in h1[n].kids && p !in kp && d in kp
    ensures HalvesLinked(t, h1, h4[n := h4[n].(kids := h1[n].kids[..c + 1])], n, d, p, h1[n].kids[..c + 1], h1[n].kids[c + 1..], kp)
  {
    var kd := h1[n].kids[c + 1..];
    assert forall x :: x in kd ==> x in h1[n].kids;
    TailHung(h3, h4, n, d, p, kd, kp, h1[n].kids[..c + 1]);
    TailRest(t, h1, h3, h4, n, d, p, kd, kp);
  }

  lemma TailHung(h3: Heap, h4: Heap, n: Id, d: Id, p: Id, kd: seq<Id>, kp: seq<Id>, kn: seq<Id>)
    requires n in h3 && d in h3 && Took(h3, h4, d, 0, kd) && SameLinks(h3[d], h4[d]) && HungInOrder(h3, p, 0, kp) && Separate(kp, kd)
    ensures var h := h4[n := h4[n].(kids := kn)]; HungInOrder(h, p, 0, kp) && HungInOrder(h, d, 0, kd)
  {
    HungNow(h3, h4, d, 0, kd);
    HungThrough(h3, h4, p, 0, kp, d, 0, kd);
    ClearKids(h4, n, kn, d, kd);
    ClearKids(h4, n, kn, p, kp);
  }

  lemma TailRest(t: Heap, h1: Heap, h3: Heap, h4: Heap, n: Id, d: Id, p: Id, kd: seq<Id>, kp: seq<Id>)
    requires n in t && p in t && d !in t && h1.Keys == t.Keys + {d} == h3.Keys && n != p && p !in kd && n !in kd && n in kp && d in kp
    requires (forall x :: x in t ==> SameLinks(t[x], h1[x])) && (forall x :: x in h1 && x !in kp ==> SameLinks(h1[x], h3[x]))
    requires forall x :: x in h1 && x != p ==> SameBody(h1[x], h3[x])
    requires Took(h3, h4, d, 0, kd) && SameLinks(h3[d], h4[d])
    ensures h4[p] == h3[p] && h4.Keys == h1.Keys
    ensures forall x :: x in t && x !in kp && x !in kd ==> x in h1 && SameLinks(t[x], h4[x])
    ensures forall x :: x in t && x != n && x != p ==> x in h1 && SameBody(h1[x], h4[x])
  {
    TookRest(h3, h4, d, 0, kd);
  }

  lemma CutReady(t: Heap, root: Id, n: Id, d: Id, c: nat, h: Heap)
    requires Shape(t, root) && CanSplit(t, root, n, d, c) && KeysCut(t, n, d, c, h)
    ensures var p, i, ks := t[n].parent, t[n].pos, t[t[n].parent].kids;
      && h.Keys == t.Keys + {d} && (forall x :: x in t ==> SameLinks(t[x], h[x]))
      && (forall x :: x in t && x != n && x != p ==> h[x] == t[x])
      && h[p].kids == ks && h[n].kids == t[n].kids && i < |ks| && ks[i] == n && Apart(h, ks, p, d) && Apart(h, ks, p, p)
      && HungInOrder(h, p, 0, ks)
  {
    var p := t[n].parent;
    SplitPossible(t, root, n, d, c);
    assert Down(t, root, p);
    KidsDistinct(t, root, p);
    KidsOf(t, root, p);
    forall a | 0 <= a < |t[p].kids| ensures t[p].kids[a] in h && h[t[p].kids[a]].parent == p && h[t[p].kids[a]].pos == a {
      assert Child(t, root, p, a);
    }
  }

  /** Where the two lists of children of a split inner node lie. */
  lemma InnerReady(t: Heap, root: Id, n: Id, d: Id, c: nat, h: Heap)
    requires Shape(t, root) && CanSplit(t, root, n, d, c) && t[n].lvl > 0 && t.Keys <= h.Keys
    ensures var p, i, ks := t[n].parent, t[n].pos, t[t[n].parent].kids;
      var kp := ks[..i + 1] + [d] + ks[i + 1..];
      && Separate(kp, t[n].kids) && p !in t[n].kids && n !in t[n].kids && d !in t[n].kids && p !in kp && d in kp && kp[i] == n
      && |t[n].kids| == |t[n].keys| + 1 && Apart(h, t[n].kids, n, d) && n != p
      && FirstKids(t[n].lvl, t[n].kids, c) == t[n].kids[..c + 1] && RestKids(t[n].lvl, t[n].kids, c) == t[n].kids[c + 1..]
  {
    var p, i := t[n].parent, t[n].pos;
    SplitPossible(t, root, n, d, c);
    SplitKids(t, root, n, d, c);
    KidsOf(t, root, n);
    KidsOf(t, root, p);
    KidsDistinct(t, root, n);
    var kp := t[p].kids[..i + 1] + [d] + t[p].kids[i + 1..];
    assert kp[i + 1] == d && kp[i] == n;
    forall k | k in kp ensures k !in t[n].kids {}
  }

  lemma LeafHalves(t: Heap, root: Id, n: Id, d: Id, c: nat, h1: Heap, h: Heap)
    requires Shape(t, root) && CanSplit(t, root, n, d, c) && KeysCut(t, n, d, c, h1) && t[n].lvl == 0
    requires var p, i, ks := t[n].parent, t[n].pos, t[t[n].parent].kids;
      SlotTaken(h1, h, p, d, ks[..i + 1] + [d] + ks[i + 1..], i)
    ensures h == Split(t, n, d, c)
  {
    var p, i, ks := t[n].parent, t[n].pos, t[t[n].parent].kids;
    SplitPossible(t, root, n, d, c);
    CutReady(t, root, n, d, c, h1);
    assert (ks[..i + 1] + [d] + ks[i + 1..])[i] == n;
    ConcludeSplit(t, root, n, d, c, h1, h, [], []);
  }

  /** The keys of a split: the last ones to the new node d, the one before them to the parent. */
  method CutKeys(t: Heap, n: Id, d: Id, i: nat, most: nat) returns (h: Heap, c: nat)
    requires n in t && t[n].parent in t && t[n].parent != n && t[n].pos <= |t[t[n].parent].keys|
    requires d !in t && t[n].keys != [] && t[n].max == most
    ensures c == Kept(|t[n].keys|, i, most) && KeysCut(t, n, d, c, h)
  {
    var p, pos, count := t[n].parent, t[n].pos, |t[n].keys|;
    var x, y, z := t[n], Node(t[n].lvl, most, [], [], p, 0), t[p];
    var give := if i == 0 then count - 1 else if i == most then 0 else count / 2;
    c := count - give - 1;
    y := y.(keys := x.keys[c + 1..]);
    x := x.(keys := x.keys[..c + 1]);
    var up := x.keys[c];
    x := x.(keys := x.keys[..c]);
    z := z.(keys := z.keys[..pos] + [up] + z.keys[pos..]);
    assert t[n].keys[..c + 1][..c] == t[n].keys[..c];
    h := t[d := y][n := x][p := z];
  }

  /** split: i is where the next key will be inserted; the keys behind the middle one go to d. */
  method SplitNode(t: Heap, ghost root: Id, n: Id, d: Id, i: nat, most: nat) returns (h: Heap)
    requires Shape(t, root) && n in t && n != root && d !in t && t[n].keys != [] && t[n].max == most
    ensures var c := Kept(|t[n].keys|, i, most);
      CanSplit(t, root, n, d, c) && h == Split(t, n, d, c)
  {
    var p, pos := t[n].parent, t[n].pos;
    SplitPossible(t, root, n, d, Kept(|t[n].keys|, i, most));
    var c: nat;
    h, c := CutKeys(t, n, d, i, most);
    h := CutChildren(t, h, root, n, d, c);
  }

  /** The children of a split. */
  method CutChildren(t: Heap, h1: Heap, ghost root: Id, n: Id, d: Id, c: nat) returns (h: Heap)
    requires Shape(t, root) && CanSplit(t, root, n, d, c) && KeysCut(t, n, d, c, h1)
    ensures h == Split(t, n, d, c)
  {
    var p, pos := t[n].parent, t[n].pos;
    CutReady(t, root, n, d, c, h1);
    h := ShiftUp(h1, p, pos + 1, 1);
    TakeSlot(h1, h, p, pos, d, t[p].kids);
    h := InitChild(h, p, pos + 1, d);
    if h[n].lvl > 0 {
      ghost var h3 := h;
      InnerReady(t, root, n, d, c, h3);
      SlotLists(t[p].kids, pos, d);
      h := GiveLast(h, n, d, c + 1);
      InnerHalves(t, root, n, d, c, h1, h3, h);
      h := h[n := h[n].(kids := h[n].kids[..c + 1])];
    } else {
      LeafHalves(t, root, n, d, c, h1, h);
    }
  }

  lemma InnerHalves(t: Heap, root: Id, n: Id, d: Id, c: nat, h1: Heap, h3: Heap, h4: Heap)
    requires Shape(t, root) && CanSplit(t, root, n, d, c) && KeysCut(t, n, d, c, h1) && t[n].lvl > 0 && c + 1 <= |t[n].kids|
    requires var p, i, ks := t[n].parent, t[n].pos, t[t[n].parent].kids;
      SlotTaken(h1, h3, p, d, ks[..i + 1] + [d] + ks[i + 1..], i)
    requires Took(h3, h4, d, 0, t[n].kids[c + 1..]) && h4[n] == h3[n] && h4[d] == h3[d].(kids := t[n].kids[c + 1..])
    ensures h4[n := h4[n].(kids := t[n].kids[..c + 1])] == Split(t, n, d, c)
  {
    var p, i, ks := t[n].parent, t[n].pos, t[t[n].parent].kids;
    CutReady(t, root, n, d, c, h1);
    InnerReady(t, root, n, d, c, h1);
    TailGiven(t, h1, h3, h4, n, d, p, c, ks[..i + 1] + [d] + ks[i + 1..], i);
    ConcludeSplit(t, root, n, d, c, h1, h4[n := h4[n].(kids := t[n].kids[..c + 1])], t[n].kids[..c + 1], t[n].kids[c + 1..]);
  }
}
