/** The steps that create or free a line keep tags unique and every buffer in one place. */
module CacheBufProof {
  import opened Options
  import opened CacheState
  import opened CacheSteps
  import opened CacheInv
  import opened CacheProof
  import opened CacheOwnProof
  import opened CacheNewProof

  /** The step adds no buffer, and does not change what the thread started with. */
  predicate SameStock(s: State, u: nat, a': App, e: Effect) {
    u in s.apps && a'.pool.quota == s.apps[u].pool.quota && Apply(s, e).loc.Keys == s.loc.Keys
  }

  /** One buffer moves to a place that was empty; nothing else changes place. */
  lemma BufMove(s: State, s': State, b: Buf, y: Loc)
    requires BufOk(s) && b in s.loc && s'.loc == s.loc[b := y]
    requires Content(s, y) == None && Content(s', y) == Some(b) && Content(s', s.loc[b]) == None
    requires forall z :: z != y && z != s.loc[b] ==> Content(s', z) == Content(s, z)
    ensures BufOk(s') && s'.loc.Keys == s.loc.Keys
  {
    forall z | Content(s', z).Some?
      ensures Content(s', z).value in s'.loc && s'.loc[Content(s', z).value] == z
    {
      if z != y {
        assert Content(s, z) == Content(s', z);
        assert s.loc[Content(s, z).value] == z;
      }
    }
    forall b' | b' in s'.loc ensures Content(s', s'.loc[b']) == Some(b') {
      if b' != b {
        assert Content(s, s.loc[b']) == Some(b') && Content(s, s.loc[b]) == Some(b);
      }
    }
  }

  /** Main line p gets the buffer on top of the stack of u: Fill and Refill. */
  predicate Takes(s: State, u: nat, a: App, p: Slot, a': App, e: Effect) {
    && u in s.apps && s.apps[u] == a && |a.pool.stack| >= 1
    && e.wr.Some? && e.wr.value.0 == p && e.wr.value.1.Used()
    && e.wr.value.1.data == Some(a.pool.stack[|a.pool.stack| - 1])
    && e.mv == Some((a.pool.stack[|a.pool.stack| - 1], AtSlot(p)))
    && a'.pool.stack == a.pool.stack[..|a.pool.stack| - 1] && a'.pool.quota == a.pool.quota
    && (if e.lk.Some?
        then e.lk.value.0 == p.set_ && e.lk.value.1.moving.None? && LockOf(s.locks, p.set_).moving == Some(p.way)
        else LockOf(s.locks, p.set_).moving.None? && !At(s.lines, p).Used())
  }

  lemma TakesBuf(s: State, u: nat, a: App, p: Slot, a': App, e: Effect)
    requires Takes(s, u, a, p, a', e) && !p.shadow && BufOk(s)
    ensures BufOk(After(s, u, a', e)) && SameStock(s, u, a', e)
  {
    var s' := After(s, u, a', e);
    var n := |a.pool.stack| - 1;
    var b := a.pool.stack[n];
    assert Content(s, InStack(u, n)) == Some(b);
    forall z | z != AtSlot(p) && z != InStack(u, n) ensures Content(s', z) == Content(s, z) {
      assert z.AtSlot? && z.p.set_ == p.set_ && z.p.way == p.way ==> z.p.shadow;
    }
    BufMove(s, s', b, AtSlot(p));
  }

  lemma TakeBuf(c: Config, s: State, u: nat, a: App, a': App, e: Effect)
    requires c.Valid() && Ready(c, s, u, a) && NewStepAt(c, s, u, a, a', e)
    requires (a.pc.nw.Fill? || a.pc.nw.Refill?) && |a.pool.stack| >= 1 && BufOk(s)
    ensures BufOk(After(s, u, a', e)) && SameStock(s, u, a', e)
  {
    TakesBuf(s, u, a, Slot(false, c.home(a.t), a.pc.nw.w), a', e);
  }

  /** Shadow line p gets what main line `from` of its set holds, and `from` is being moved from now on: MvStore. */
  predicate Doubles(s: State, u: nat, a: App, from: Slot, p: Slot, a': App, e: Effect) {
    && u in s.apps && s.apps[u] == a && a'.pool.stack == a.pool.stack && a'.pool.quota == a.pool.quota
    && from == Slot(false, p.set_, p.way) && p.shadow
    && At(s.lines, from).Used() && At(s.lines, from).data.Some? && !At(s.lines, p).Used()
    && LockOf(s.locks, p.set_).moving.None?
    && e.wr.Some? && e.wr.value.0 == p && e.wr.value.1.Used() && e.wr.value.1.data == At(s.lines, from).data
    && e.lk.Some? && e.lk.value.0 == p.set_ && e.lk.value.1.moving == Some(p.way)
    && e.mv == Some((At(s.lines, from).data.value, AtSlot(p)))
  }

  lemma DoublesBuf(s: State, u: nat, a: App, from: Slot, p: Slot, a': App, e: Effect)
    requires Doubles(s, u, a, from, p, a', e) && BufOk(s)
    ensures BufOk(After(s, u, a', e)) && SameStock(s, u, a', e)
  {
    var s' := After(s, u, a', e);
    var b := At(s.lines, from).data.value;
    assert Content(s, AtSlot(from)) == Some(b);
    forall z | z != AtSlot(p) && z != AtSlot(from) ensures Content(s', z) == Content(s, z) {
      assert z.AtSlot? && z.p.set_ == p.set_ && z.p.way == p.way ==> z.p.shadow;
    }
    BufMove(s, s', b, AtSlot(p));
  }

  lemma MvStoreBuf(c: Config, s: State, u: nat, a: App, a': App, e: Effect)
    requires c.Valid() && Ready(c, s, u, a) && NewStepAt(c, s, u, a, a', e) && a.pc.nw.MvStore?
    requires var p := Slot(false, c.home(a.t), a.pc.nw.w); LineOk(c, p, At(s.lines, p))
    requires BufOk(s)
    ensures BufOk(After(s, u, a', e)) && SameStock(s, u, a', e)
  {
    var from, p := Slot(false, c.home(a.t), a.pc.nw.w), Slot(true, c.home(a.t), a.pc.nw.w);
    assert At(s.lines, from).data.Some?;
    DoublesBuf(s, u, a, from, p, a', e);
  }

  lemma RecycleBuf(c: Config, s: State, u: nat, a: App, p: Slot, a0: App, pc': Pc)
    requires u in s.apps && s.apps[u] == a && a0.pool == a.pool && BufOk(s)
    requires p.shadow && At(s.lines, p).Used() && At(s.lines, p).data.Some?
    ensures var r := Recycle(s, u, a0, p, pc'); BufOk(After(s, u, r.a, r.e)) && SameStock(s, u, r.a, r.e)
  {
    var r := Recycle(s, u, a0, p, pc');
    var s' := After(s, u, r.a, r.e);
    var b := At(s.lines, p).data.value;
    var y := InStack(u, |a.pool.stack|);
    assert Content(s, AtSlot(p)) == Some(b);
    forall z | z != AtSlot(p) && z != y ensures Content(s', z) == Content(s, z) {
    }
    BufMove(s, s', b, y);
  }

  lemma RetagBuf(c: Config, s: State, u: nat, a: App, a': App, e: Effect)
    requires c.Valid() && NewStepAt(c, s, u, a, a', e) && a.pc.nw.Retag?
    requires u in s.apps && s.apps[u] == a && BufOk(s)
    requires At(s.lines, Slot(false, c.home(a.t), a.pc.nw.w)).Used()
    ensures BufOk(After(s, u, a', e)) && SameStock(s, u, a', e)
  {
    var s' := After(s, u, a', e);
    forall z ensures Content(s', z) == Content(s, z) {
    }
  }

  /** A main line that newLine gives the new tag is the only line that holds it. */
  lemma RenewUnique(s: State, p: Slot, t: Tag, e: Effect)
    requires Unique(s.lines, s.locks) && !p.shadow && (forall q :: !At(s.lines, q).Holds(t))
    requires e.wr.Some? && e.wr.value.0 == p && e.wr.value.1.tag == t
    requires e.lk.Some? ==> e.lk.value.0 == p.set_ && LockOf(s.locks, p.set_).moving == Some(p.way)
    ensures Unique(Apply(s, e).lines, Apply(s, e).locks)
  {
    var s' := Apply(s, e);
    forall q | q != p && Live(s'.locks, q, At(s'.lines, q))
      ensures At(s'.lines, q) == At(s.lines, q) && Live(s.locks, q, At(s.lines, q)) && At(s.lines, q).tag != t
    {
      assert !At(s.lines, q).Holds(t);
      assert q.set_ == p.set_ && q.way == p.way ==> q.shadow;
    }
  }

  lemma MvStoreUnique(c: Config, s: State, u: nat, a: App, a': App, e: Effect)
    requires c.Valid() && Ready(c, s, u, a) && NewStepAt(c, s, u, a, a', e) && a.pc.nw.MvStore?
    requires Unique(s.lines, s.locks)
    ensures Unique(Apply(s, e).lines, Apply(s, e).locks)
  {
    var s' := Apply(s, e);
    var from, p := Slot(false, c.home(a.t), a.pc.nw.w), Slot(true, c.home(a.t), a.pc.nw.w);
    assert Live(s.locks, from, At(s.lines, from)) && !Live(s'.locks, from, At(s'.lines, from));
    forall q | q != p && Live(s'.locks, q, At(s'.lines, q))
      ensures At(s'.lines, q) == At(s.lines, q) && Live(s.locks, q, At(s.lines, q)) && At(s.lines, q).tag != At(s.lines, from).tag
    {
    }
  }

  lemma RecycleUnique(s: State, u: nat, p: Slot, a0: App, pc': Pc)
    requires Unique(s.lines, s.locks)
    ensures var r := Recycle(s, u, a0, p, pc'); Unique(Apply(s, r.e).lines, Apply(s, r.e).locks)
  {
    var r := Recycle(s, u, a0, p, pc');
    var s' := Apply(s, r.e);
    forall q | Live(s'.locks, q, At(s'.lines, q))
      ensures q != p && At(s'.lines, q) == At(s.lines, q) && Live(s.locks, q, At(s.lines, q))
    {
    }
  }
}
