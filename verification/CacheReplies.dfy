/** How one application thread takes replies: the two parts of a shared write miss in either order, and
    a stashed eviction reply exactly once. */
module CacheReplies {
  import opened Options
  import opened CacheState
  import opened CacheSteps
  import opened CacheInv
  import opened CacheProof
  import opened CacheTheorems
  import opened CacheSingle

  // ---- the two parts of a write miss ------------------------------------------------------------------

  /** In this step the thread, waiting for tag t, takes message m for it. */
  predicate TakesReply(n: Node, ev: Event, t: Tag, m: MsgType) {
    && ev.ByApp? && 0 in n.s.apps && OwedMiss(n.s.apps[0].pc) && n.s.apps[0].t == t && ev.inp == Recv(Msg(t, m))
  }

  ghost predicate TookIn(ns: seq<Node>, es: seq<Event>, i: nat, j: nat, t: Tag, m: MsgType)
    requires j <= |es| < |ns|
  {
    exists k :: i < k < j && TakesReply(ns[k], es[k], t, m)
  }

  /** Thread 0 sends a write miss of tag t in step i, and waits for the answer in all states up to j. */
  ghost predicate WaitsSince(ns: seq<Node>, es: seq<Event>, i: nat, j: nat, p: Slot, t: Tag) {
    && i < j <= |es| < |ns| && es[i].ByApp? && 0 in ns[i].s.apps
    && ns[i].s.apps[0].pc == Own(p, WriteMissReq, Send) && ns[i].s.apps[0].t == t
    && forall k :: i < k <= j ==> WaitsAt(ns[k], p, t)
  }

  predicate WaitsAt(n: Node, p: Slot, t: Tag) {
    && 0 in n.s.apps && n.s.apps[0].t == t
    && n.s.apps[0].pc.Own? && n.s.apps[0].pc.p == p && n.s.apps[0].pc.req == WriteMissReq && n.s.apps[0].pc.ow.Await?
  }

  /** What one step does to a thread that sends, or waits for, a write miss of tag t. */
  ghost predicate WaitFate(n: Node, ev: Event, n': Node, p: Slot, t: Tag) {
    && (WaitsAt(n, p, t) && WaitsAt(n', p, t) ==> Noting(n, ev, n', t))
    && (ev.ByApp? && 0 in n.s.apps && n.s.apps[0].pc == Own(p, WriteMissReq, Send) && WaitsAt(n', p, t) ==>
          !n'.s.apps[0].pc.ow.hasData && !n'.s.apps[0].pc.ow.acked)
    && (WaitsAt(n, p, t) && TakesPart(n, ev, t) ==> Ending(n, ev, n', p, t))
  }

  predicate TakesPart(n: Node, ev: Event, t: Tag) {
    TakesReply(n, ev, t, WriteMissSharedData) || TakesReply(n, ev, t, WriteMissSharedAggAck)
  }

  predicate Noting(n: Node, ev: Event, n': Node, t: Tag)
    requires 0 in n.s.apps && 0 in n'.s.apps && OwedMiss(n.s.apps[0].pc) && OwedMiss(n'.s.apps[0].pc)
  {
    var w, w' := n.s.apps[0].pc.ow, n'.s.apps[0].pc.ow;
    && (w'.hasData <==> w.hasData || TakesReply(n, ev, t, WriteMissSharedData))
    && (w'.acked <==> w.acked || TakesReply(n, ev, t, WriteMissSharedAggAck))
  }

  predicate Ending(n: Node, ev: Event, n': Node, p: Slot, t: Tag)
    requires 0 in n.s.apps && OwedMiss(n.s.apps[0].pc)
  {
    && 0 in n'.s.apps
    && (n'.s.apps[0].pc == Own(p, WriteMissReq, Exit1(true, 0)) <==>
          (n.s.apps[0].pc.ow.hasData || TakesReply(n, ev, t, WriteMissSharedData))
          && (n.s.apps[0].pc.ow.acked || TakesReply(n, ev, t, WriteMissSharedAggAck)))
    && (n'.s.apps[0].pc != Own(p, WriteMissReq, Exit1(true, 0)) ==> WaitsAt(n', p, t))
  }

  /** What the invariant says of the thread, as far as it is needed here. */
  ghost predicate Plain(n: Node) { n.s.apps.Keys == {0} && FlagsOk(n.s.apps[0]) && OwedOk(n.s.lines, n.s.apps[0], n.owed) }

  lemma RunPlain(c: Config, ns: seq<Node>, es: seq<Event>, i: nat)
    requires c.Valid() && NodeRun(c, ns, es) && i <= |es|
    ensures Plain(ns[i])
  {
    NodeRunOk(c, ns, es, i);
  }

  lemma StepFate(c: Config, n: Node, ev: Event, n': Node, p: Slot, t: Tag)
    requires c.Valid() && Plain(n) && Plain(n') && NodeStep(c, n, ev, n')
    ensures WaitFate(n, ev, n', p, t)
  {
    if ev.ByApp? && n.s.apps[0].pc.Own? {
      var a := n.s.apps[0];
      if a.pc.ow.Send? && WaitsAt(n', p, t) { AfterSend(c, n, ev, n', p, t); }
      if WaitsAt(n, p, t) { AwaitStep(c, n.s, a, ev.inp, p, t); }
    }
  }

  lemma AfterSend(c: Config, n: Node, ev: Event, n': Node, p: Slot, t: Tag)
    requires c.Valid() && ev.ByApp? && AppNext(c, n.s, 0, ev.inp, n'.s)
    requires n.s.apps[0].pc.Own? && n.s.apps[0].pc.ow.Send? && WaitsAt(n', p, t)
    ensures !n'.s.apps[0].pc.ow.hasData && !n'.s.apps[0].pc.ow.acked
  {}

  /** One step of a thread that waits for a write miss. */
  lemma AwaitStep(c: Config, s: State, a: App, inp: Input, p: Slot, t: Tag)
    requires c.Valid() && a.pc.Own? && a.pc.p == p && a.pc.req == WriteMissReq && a.pc.ow.Await? && a.t == t
    requires OwnStep(c, s, 0, a, inp).Moves? && FlagsOk(a) && FlagsOk(OwnStep(c, s, 0, a, inp).a)
    ensures var a', w := OwnStep(c, s, 0, a, inp).a, a.pc.ow;
      var d, k := inp == Recv(Msg(t, WriteMissSharedData)), inp == Recv(Msg(t, WriteMissSharedAggAck));
      && a'.pc.Own? && a'.t == t && a'.pc.p == p && a'.pc.req == WriteMissReq
      && (a'.pc.ow.Await? ==> (a'.pc.ow.hasData <==> w.hasData || d) && (a'.pc.ow.acked <==> w.acked || k))
      && (d || k ==> (a'.pc.ow == Exit1(true, 0) <==> (w.hasData || d) && (w.acked || k)))
      && (d || k ==> a'.pc.ow == Exit1(true, 0) || a'.pc.ow.Await?)
  {}

  ghost predicate WaitFated(ns: seq<Node>, es: seq<Event>, p: Slot, t: Tag) {
    |ns| == |es| + 1 && forall k {:trigger es[k]} :: 0 <= k < |es| ==> WaitFate(ns[k], es[k], ns[k + 1], p, t)
  }

  lemma RunFate(c: Config, ns: seq<Node>, es: seq<Event>, k: nat, p: Slot, t: Tag)
    requires c.Valid() && NodeRun(c, ns, es) && k < |es|
    ensures WaitFate(ns[k], es[k], ns[k + 1], p, t)
  {
    RunPlain(c, ns, es, k);
    RunPlain(c, ns, es, k + 1);
    StepFate(c, ns[k], es[k], ns[k + 1], p, t);
  }

  lemma RunFated(c: Config, ns: seq<Node>, es: seq<Event>, p: Slot, t: Tag)
    requires c.Valid() && NodeRun(c, ns, es)
    ensures WaitFated(ns, es, p, t)
  {
    forall k | 0 <= k < |es| ensures WaitFate(ns[k], es[k], ns[k + 1], p, t) { RunFate(c, ns, es, k, p, t); }
  }

  predicate HasNoted(n: Node, data: bool, ack: bool) {
    0 in n.s.apps && OwedMiss(n.s.apps[0].pc) && n.s.apps[0].pc.ow.hasData == data && n.s.apps[0].pc.ow.acked == ack
  }

  /** What a waiting thread has noted is what it has taken. */
  lemma {:induction false} Noted(ns: seq<Node>, es: seq<Event>, i: nat, j: nat, p: Slot, t: Tag)
    requires WaitFated(ns, es, p, t) && WaitsSince(ns, es, i, j, p, t)
    ensures WaitsAt(ns[j], p, t)
    ensures HasNoted(ns[j], TookIn(ns, es, i, j, t, WriteMissSharedData), TookIn(ns, es, i, j, t, WriteMissSharedAggAck))
    decreases j
  {
    var e := es[j - 1];
    assert WaitsAt(ns[j], p, t) && WaitFate(ns[j - 1], e, ns[j], p, t);
    if i + 1 < j {
      Noted(ns, es, i, j - 1, p, t);
      TookNext(ns, es, i, j - 1, t, WriteMissSharedData);
      TookNext(ns, es, i, j - 1, t, WriteMissSharedAggAck);
      NotedNext(ns[j - 1], e, ns[j], p, t, TookIn(ns, es, i, j - 1, t, WriteMissSharedData), TookIn(ns, es, i, j - 1, t, WriteMissSharedAggAck));
    }
  }

  lemma NotedNext(n: Node, ev: Event, n': Node, p: Slot, t: Tag, data: bool, ack: bool)
    requires WaitFate(n, ev, n', p, t) && WaitsAt(n, p, t) && WaitsAt(n', p, t) && HasNoted(n, data, ack)
    ensures HasNoted(n', data || TakesReply(n, ev, t, WriteMissSharedData), ack || TakesReply(n, ev, t, WriteMissSharedAggAck))
  {}

  lemma TookNext(ns: seq<Node>, es: seq<Event>, i: nat, j: nat, t: Tag, m: MsgType)
    requires i < j < |es| < |ns|
    ensures TookIn(ns, es, i, j + 1, t, m) <==> TookIn(ns, es, i, j, t, m) || TakesReply(ns[j], es[j], t, m)
  {
    if TookIn(ns, es, i, j, t, m) {
      var k :| i < k < j && TakesReply(ns[k], es[k], t, m);
      assert i < k < j + 1;
    }
  }

  /** writeMiss of tag t, over whole runs: a step that takes the shared data or the aggregated
      acknowledgement ends the wait, with success, exactly when with it both have been taken since the
      request was sent, in whichever order; otherwise the thread goes on waiting. */
  lemma EitherOrder(c: Config, ns: seq<Node>, es: seq<Event>, i: nat, j: nat, p: Slot, t: Tag)
    requires c.Valid() && NodeRun(c, ns, es) && WaitsSince(ns, es, i, j, p, t) && j < |es| && TakesPart(ns[j], es[j], t)
    ensures 0 in ns[j + 1].s.apps
    ensures ns[j + 1].s.apps[0].pc == Own(p, WriteMissReq, Exit1(true, 0)) <==>
              TookIn(ns, es, i, j + 1, t, WriteMissSharedData) && TookIn(ns, es, i, j + 1, t, WriteMissSharedAggAck)
    ensures ns[j + 1].s.apps[0].pc != Own(p, WriteMissReq, Exit1(true, 0)) ==> WaitsAt(ns[j + 1], p, t)
  {
    RunFated(c, ns, es, p, t);
    Ends(ns, es, i, j, p, t);
  }

  lemma Ends(ns: seq<Node>, es: seq<Event>, i: nat, j: nat, p: Slot, t: Tag)
    requires WaitFated(ns, es, p, t) && WaitsSince(ns, es, i, j, p, t) && j < |es| && TakesPart(ns[j], es[j], t)
    ensures 0 in ns[j + 1].s.apps
    ensures ns[j + 1].s.apps[0].pc == Own(p, WriteMissReq, Exit1(true, 0)) <==>
              TookIn(ns, es, i, j + 1, t, WriteMissSharedData) && TookIn(ns, es, i, j + 1, t, WriteMissSharedAggAck)
    ensures ns[j + 1].s.apps[0].pc != Own(p, WriteMissReq, Exit1(true, 0)) ==> WaitsAt(ns[j + 1], p, t)
  {
    Noted(ns, es, i, j, p, t);
    var e := es[j];
    assert WaitFate(ns[j], e, ns[j + 1], p, t);
    TookNext(ns, es, i, j, t, WriteMissSharedData);
    TookNext(ns, es, i, j, t, WriteMissSharedAggAck);
  }

  // ---- the stashed reply ---------------------------------------------------------------------------------

  /** In this step the thread puts a reply for its eviction aside. */
  predicate Stashes(n: Node, ev: Event) {
    && ev.ByApp? && 0 in n.s.apps && ev.inp.Recv? && OwedMiss(n.s.apps[0].pc) && ev.inp.msg.tag != n.s.apps[0].t
  }

  /** In this step the thread takes the reply it had put aside. */
  predicate TakesStash(n: Node, ev: Event) {
    ev.ByApp? && 0 in n.s.apps && n.s.apps[0].pc == Wait(WRecv) && n.s.apps[0].evict.stash.Some?
  }

  predicate Holds(n: Node, m: Option<Msg>) { 0 in n.s.apps && n.s.apps[0].evict.stash == m }

  /** What one step does to the stash. */
  ghost predicate StashFate(n: Node, ev: Event, n': Node) {
    && 0 in n.s.apps && 0 in n'.s.apps
    && (Stashes(n, ev) ==> Holds(n, None) && Holds(n', Some(ev.inp.msg)))
    && (TakesStash(n, ev) ==> Holds(n', None) && n'.s.apps[0].pc == OnEvictReply(n.s.apps[0].evict.stash.value.mtype))
    && (!Stashes(n, ev) && !TakesStash(n, ev) ==> Holds(n', n.s.apps[0].evict.stash))
  }

  lemma StashStep(c: Config, n: Node, ev: Event, n': Node)
    requires c.Valid() && Plain(n) && Plain(n') && NodeStep(c, n, ev, n')
    ensures StashFate(n, ev, n')
  {
    if ev.ByApp? {
      var a := n.s.apps[0];
      AppStash(c, n.s, a, ev.inp);
      if Stashes(n, ev) { StashesOnce(c, n.s, a, ev.inp, n.owed); }
    }
  }

  lemma AppStash(c: Config, s: State, a: App, inp: Input)
    requires c.Valid() && AppMove(c, s, 0, a, inp).Moves? && FlagsOk(AppMove(c, s, 0, a, inp).a)
    ensures var a' := AppMove(c, s, 0, a, inp).a;
      if a.pc == Wait(WRecv) then
        a'.evict.stash == None && (a.evict.stash.Some? ==> a'.pc == OnEvictReply(a.evict.stash.value.mtype))
      else if OwedMiss(a.pc) && inp.Recv? && inp.msg.tag != a.t then a'.evict.stash == Some(inp.msg)
      else a'.evict.stash == a.evict.stash
  {
    match a.pc
    case Evict(_, _) => EvictStash(s, a);
    case Find(_) => FindStash(c, s, a);
    case New(_) => NewStash(c, s, a);
    case Own(_, _, _) => OwnStash(c, s, a, inp);
    case Touch(_, _, _) => TouchStash(s, a);
    case Wait(_) => WaitStash(s, a, inp);
    case _ =>
  }

  lemma EvictStash(s: State, a: App)
    requires a.pc.Evict? && EvictStep(s, 0, a).Moves?
    ensures EvictStep(s, 0, a).a.evict.stash == a.evict.stash
  {}

  lemma FindStash(c: Config, s: State, a: App)
    requires c.Valid() && a.pc.Find? && FindStep(c, s, 0, a).Moves?
    ensures FindStep(c, s, 0, a).a.evict.stash == a.evict.stash
  {}

  lemma NewStash(c: Config, s: State, a: App)
    requires c.Valid() && a.pc.New? && NewStep(c, s, 0, a).Moves?
    ensures NewStep(c, s, 0, a).a.evict.stash == a.evict.stash
  {}

  lemma OwnStash(c: Config, s: State, a: App, inp: Input)
    requires c.Valid() && a.pc.Own? && OwnStep(c, s, 0, a, inp).Moves? && FlagsOk(OwnStep(c, s, 0, a, inp).a)
    ensures var a' := OwnStep(c, s, 0, a, inp).a;
      a'.evict.stash == if a.pc.ow.Await? && inp.Recv? && inp.msg.tag != a.t then Some(inp.msg) else a.evict.stash
  {}

  lemma TouchStash(s: State, a: App)
    requires a.pc.Touch? && TouchStep(s, 0, a).Moves?
    ensures TouchStep(s, 0, a).a.evict.stash == a.evict.stash
  {}

  lemma WaitStash(s: State, a: App, inp: Input)
    requires a.pc.Wait? && WaitStep(s, 0, a, inp).Moves? && WaitStep(s, 0, a, inp).a.pc != Crash(BadReply)
    ensures var a' := WaitStep(s, 0, a, inp).a;
      && a'.evict.stash == (if a.pc.wt.WRecv? then None else a.evict.stash)
      && (a.pc.wt.WRecv? && a.evict.stash.Some? ==> a'.pc == OnEvictReply(a.evict.stash.value.mtype))
  {}

  ghost predicate StashFated(ns: seq<Node>, es: seq<Event>) {
    |ns| == |es| + 1 && forall k {:trigger es[k]} :: 0 <= k < |es| ==> StashFate(ns[k], es[k], ns[k + 1])
  }

  lemma RunStashFate(c: Config, ns: seq<Node>, es: seq<Event>, k: nat)
    requires c.Valid() && NodeRun(c, ns, es) && k < |es|
    ensures StashFate(ns[k], es[k], ns[k + 1])
  {
    RunPlain(c, ns, es, k);
    RunPlain(c, ns, es, k + 1);
    StashStep(c, ns[k], es[k], ns[k + 1]);
  }

  lemma RunStashFated(c: Config, ns: seq<Node>, es: seq<Event>)
    requires c.Valid() && NodeRun(c, ns, es)
    ensures StashFated(ns, es)
  {
    forall k | 0 <= k < |es| ensures StashFate(ns[k], es[k], ns[k + 1]) { RunStashFate(c, ns, es, k); }
  }

  /** Between i and j the thread neither takes nor puts aside a reply. */
  ghost predicate Untouched(ns: seq<Node>, es: seq<Event>, i: nat, j: nat)
    requires j <= |es| < |ns|
  {
    forall k :: i < k < j ==> !TakesStash(ns[k], es[k]) && !Stashes(ns[k], es[k])
  }

  /** The reply m, put aside in step i, is the next thing taken from the stash, before j. */
  ghost predicate TakenBy(ns: seq<Node>, es: seq<Event>, i: nat, j: nat, m: Msg)
    requires j <= |es| < |ns|
  {
    exists k :: i < k < j && TakesStash(ns[k], es[k]) && Holds(ns[k], Some(m)) && Untouched(ns, es, i, k)
  }

  lemma {:induction false} TakenLater(ns: seq<Node>, es: seq<Event>, i: nat, j: nat, m: Msg)
    requires StashFated(ns, es) && i < j <= |es| && Stashes(ns[i], es[i]) && es[i].inp.msg == m
    ensures (Holds(ns[j], Some(m)) && Untouched(ns, es, i, j)) || TakenBy(ns, es, i, j, m)
    decreases j
  {
    var e := es[j - 1];
    assert StashFate(ns[j - 1], e, ns[j]);
    if i + 1 < j {
      TakenLater(ns, es, i, j - 1, m);
      if Holds(ns[j - 1], Some(m)) && Untouched(ns, es, i, j - 1) {
        assert !Stashes(ns[j - 1], e);
        if TakesStash(ns[j - 1], e) { assert i < j - 1 < j; } else { assert Untouched(ns, es, i, j); }
      }
    }
  }

  /** The reply put aside in step i is taken in step k, and handled like one that arrives in time. */
  ghost predicate TakenAt(ns: seq<Node>, es: seq<Event>, i: nat, k: nat)
    requires i < k < |es| < |ns|
  {
    && Stashes(ns[i], es[i]) && TakesStash(ns[k], es[k]) && Holds(ns[k], Some(es[i].inp.msg)) && Untouched(ns, es, i, k)
    && Holds(ns[k + 1], None) && ns[k + 1].s.apps[0].pc == OnEvictReply(es[i].inp.msg.mtype)
  }

  /** A reply that was put aside is taken before the access returns; until then the stash is left alone. */
  lemma StashTaken(c: Config, ns: seq<Node>, es: seq<Event>, i: nat, j: nat)
    requires c.Valid() && NodeRun(c, ns, es) && i < j <= |es| && Stashes(ns[i], es[i])
    requires 0 in ns[j].s.apps && ns[j].s.apps[0].pc == Idle
    ensures exists k :: i < k < j && TakenAt(ns, es, i, k)
  {
    RunStashFated(c, ns, es);
    NothingLeftOver(c, ns, es, j);
    FirstTaken(ns, es, i, j);
  }

  lemma FirstTaken(ns: seq<Node>, es: seq<Event>, i: nat, j: nat)
    requires StashFated(ns, es) && i < j <= |es| && Stashes(ns[i], es[i]) && Holds(ns[j], None)
    ensures exists k :: i < k < j && TakenAt(ns, es, i, k)
  {
    TakenLater(ns, es, i, j, es[i].inp.msg);
    var k :| i < k < j && TakesStash(ns[k], es[k]) && Holds(ns[k], Some(es[i].inp.msg)) && Untouched(ns, es, i, k);
    var e := es[k];
    assert StashFate(ns[k], e, ns[k + 1]);
    assert TakenAt(ns, es, i, k);
  }

  /** The reply m was put aside before j, and the stash left alone since. */
  ghost predicate StashedBy(ns: seq<Node>, es: seq<Event>, j: nat, m: Msg)
    requires j <= |es| < |ns|
  {
    exists i :: 0 <= i < j && Stashes(ns[i], es[i]) && es[i].inp.msg == m && Untouched(ns, es, i, j)
  }

  lemma StashedMore(ns: seq<Node>, es: seq<Event>, j: nat, m: Msg)
    requires j < |es| < |ns| && StashedBy(ns, es, j, m) && !TakesStash(ns[j], es[j]) && !Stashes(ns[j], es[j])
    ensures StashedBy(ns, es, j + 1, m)
  {
    var i :| 0 <= i < j && Stashes(ns[i], es[i]) && es[i].inp.msg == m && Untouched(ns, es, i, j);
    assert Untouched(ns, es, i, j + 1);
  }

  lemma HeldBefore(n: Node, ev: Event, n': Node, m: Msg)
    requires StashFate(n, ev, n') && Holds(n', Some(m))
    ensures !TakesStash(n, ev) && if Stashes(n, ev) then ev.inp.msg == m else Holds(n, Some(m))
  {}

  lemma {:induction false} HeldWasStashed(ns: seq<Node>, es: seq<Event>, j: nat, m: Msg)
    requires StashFated(ns, es) && j <= |es| && Holds(ns[0], None) && Holds(ns[j], Some(m))
    ensures StashedBy(ns, es, j, m)
    decreases j
  {
    if j > 0 {
      var i := j - 1;
      HeldBefore(ns[i], es[i], ns[i + 1], m);
      if Stashes(ns[i], es[i]) {
        assert Untouched(ns, es, i, j);
        assert StashedBy(ns, es, j, m);
      } else {
        HeldWasStashed(ns, es, i, m);
        StashedMore(ns, es, i, m);
      }
    }
  }

  /** And only once: what is taken from the stash was put aside since the last time something was taken. */
  lemma TakenWasStashed(c: Config, ns: seq<Node>, es: seq<Event>, j: nat)
    requires c.Valid() && NodeRun(c, ns, es) && j < |es| && TakesStash(ns[j], es[j])
    ensures StashedBy(ns, es, j, ns[j].s.apps[0].evict.stash.value)
  {
    RunStashFated(c, ns, es);
    HeldWasStashed(ns, es, j, ns[j].s.apps[0].evict.stash.value);
  }
}
