/** A call of dequeue that nobody disturbs: it delivers the next elements in order, as many as it asks for or as
    there are, frees their slots, and ends. */
module QueueSolo {
  import opened Options
  import opened QueueState
  import opened QueueClaim
  import opened QueueInv
  import opened QueueWorker
  import opened QueueTheorems

  /** The state in which a call ends, and what it has delivered. */
  datatype Outcome = Outcome(s: State, got: seq<int>)

  /** Dequeuer t goes on, k steps at most, to the end of its call. */
  function Finish(s: State, t: nat, k: nat): Option<Outcome>
    requires t in s.ths
    decreases k
  {
    if s.ths[t].Idle? then Some(Outcome(s, []))
    else if k == 0 then None
    else
      var r := DequeuerStep(s, t, Tau);
      if r.None? || t !in r.value.ths then None else
      var rest := Finish(r.value, t, k - 1);
      if rest.None? || Delivered(s, t).None? then rest
      else Some(rest.value.(got := [Delivered(s, t).value] + rest.value.got))
  }

  // ---- taking the elements -----------------------------------------------------------------------

  /** The next index to take, and where the range ends. */
  function Front(w: Work): nat
    requires !w.Failed?
  {
    match w
    case LoadIndex(a, _) => a
    case LoadFront(a, _, _) => a
    case ReadBase(a, _, _, _, _) => a
    case ReadBlock(i, _, _, _) => i
    case Move(i, _) => i
    case Flag(_, q) => q.e
  }

  function Limit(w: Work): nat
    requires !w.Failed?
  {
    match w
    case LoadIndex(_, b) => b
    case LoadFront(_, b, _) => b
    case ReadBase(_, b, _, _, _) => b
    case ReadBlock(_, b, _, _) => b
    case Move(_, q) => q.b
    case Flag(_, q) => q.b
  }

  /** More than the steps that are left. */
  function Effort(w: Work): nat {
    match w
    case LoadIndex(a, b) => 4 + 3 * Sub(b, a)
    case LoadFront(a, b, _) => 3 + 3 * Sub(b, a)
    case ReadBase(a, b, _, _, _) => 2 + 3 * Sub(b, a)
    case ReadBlock(i, b, _, _) => 1 + 3 * Sub(b, i)
    case Move(i, q) => 3 * Sub(q.b, q.e) + 1 + Sub(q.e, q.s) + Sub(q.e, i)
    case Flag(i, q) => 3 * Sub(q.b, q.e) + 1 + Sub(i, q.s)
    case Failed => 0
  }

  /** The index is so near the tail that every comparison is right. */
  predicate Close(s: State, i: nat) { s.n.tail + 2 * BLOCK - i < HALF }

  lemma CloseWork(s: State, t: nat, w: Work)
    requires BlocksInv(s) && t in s.ths && s.ths[t] == Working(w) && WorkOk(s.idx, s.x.home, s.x.given, t, w) && Close(s, Front(w))
    ensures WorkNear(s.idx, w) && Front(w) <= Limit(w) <= |s.x.items| && (Front(w) == Limit(w) ==> w.Flag?)
  {
    if w.ReadBase? {
      assert HeaderOk(s.idx[w.h], s.x.home);
      assert Intact(s.idx[w.h], s.x.home, w.pf);
    }
  }

  /** The step before the end: the last slot of the last block is freed. */
  predicate Ends(w: Work) { w.Flag? && w.i == w.q.s + 1 && w.q.e == w.q.b }

  /** From s to s' dequeuer t, at work at w, has gone on: to its end or nearer to it. */
  predicate GoesOn(s: State, s': State, t: nat, w: Work)
    requires t in s.ths && !w.Failed?
  {
    && t in s'.ths && s'.ths == s.ths[t := s'.ths[t]] && s'.n == s.n && s'.x.items == s.x.items && s'.p == s.p
    && if Ends(w) then s'.ths[t] == Idle else Nearer(w, s'.ths[t])
  }

  predicate Nearer(w: Work, pc: Pc)
    requires !w.Failed?
  {
    && pc.Working? && !pc.w.Failed? && Effort(pc.w) < Effort(w) && Limit(pc.w) == Limit(w)
    && Front(pc.w) == Front(w) + (if w.Move? then 1 else 0)
  }

  lemma FindOn(s: State, t: nat, w: Work)
    requires BlocksInv(s) && t in s.ths && s.ths[t] == Working(w) && WorkOk(s.idx, s.x.home, s.x.given, t, w) && WorkNear(s.idx, w)
    requires !w.Move? && !w.Flag?
    ensures GoesOn(s, WorkStep(s, t, w), t, w) && Delivered(s, t) == None
  {
    var w' := FindGoes(s, t, w);
    FindOk(s, t, w, w');
    assert WorkStep(s, t, w).ths[t] == Working(w');
    if w.ReadBlock? { BlockEndExact(w.i, w.b); }
  }

  lemma MoveOn(s: State, t: nat, i: nat, q: Part)
    requires BlocksInv(s) && t in s.ths && s.ths[t] == Working(Move(i, q)) && WorkOk(s.idx, s.x.home, s.x.given, t, Move(i, q))
    ensures GoesOn(s, WorkStep(s, t, Move(i, q)), t, Move(i, q))
    ensures i < |s.x.items| && Delivered(s, t) == Some(s.x.items[i])
  {
    MoveFound(s, t, i, q);
  }

  lemma FlagOn(s: State, t: nat, i: nat, q: Part)
    requires BlocksInv(s) && t in s.ths && s.ths[t] == Working(Flag(i + 1, q)) && WorkOk(s.idx, s.x.home, s.x.given, t, Flag(i + 1, q))
    ensures GoesOn(s, WorkStep(s, t, Flag(i + 1, q)), t, Flag(i + 1, q)) && Delivered(s, t) == None
  {
    FlagFound(s, t, i, q);
  }

  lemma WorkOn(s: State, t: nat, w: Work) returns (s': State)
    requires Inv(s) && t in s.ths && s.ths[t] == Working(w) && !w.Failed? && Close(s, Front(w))
    ensures DequeuerStep(s, t, Tau) == Some(s') && Inv(s') && GoesOn(s, s', t, w)
    ensures Front(w) <= Limit(w) <= |s.x.items| && (w.Move? ==> Front(w) < Limit(w))
    ensures Delivered(s, t) == if w.Move? then Some(s.x.items[Front(w)]) else None
  {
    assert WorkOk(s.idx, s.x.home, s.x.given, t, w);
    CloseWork(s, t, w);
    WorkInvStep(s, t, w);
    s' := WorkStep(s, t, w);
    if w.Move? { MoveOn(s, t, w.i, w.q); } else if w.Flag? { FlagOn(s, t, w.i - 1, w.q); } else { FindOn(s, t, w); }
  }

  /** What is known of a call at work that nobody disturbs. */
  ghost predicate AtWork(s: State, t: nat) {
    Inv(s) && t in s.ths && s.ths[t].Working? && !s.ths[t].w.Failed? && Close(s, Front(s.ths[t].w))
  }

  lemma NextAtWork(s: State, t: nat) returns (s': State)
    requires AtWork(s, t)
    ensures DequeuerStep(s, t, Tau) == Some(s') && GoesOn(s, s', t, s.ths[t].w)
    ensures if Ends(s.ths[t].w) then Inv(s') else AtWork(s', t)
    ensures WorksAt(s, s', t)
  {
    s' := WorkOn(s, t, s.ths[t].w);
  }

  /** The states that a call at work passes through, up to the one in which it has ended. */
  ghost predicate Works(ss: seq<State>, t: nat)
    decreases |ss|
  {
    && ss != [] && t in ss[0].ths
    && if |ss| == 1 then ss[0].ths[t].Idle? else WorksAt(ss[0], ss[1], t) && Works(ss[1..], t)
  }

  predicate WorksAt(s: State, s': State, t: nat) {
    && t in s.ths && s.ths[t].Working? && !s.ths[t].w.Failed? && DequeuerStep(s, t, Tau) == Some(s') && GoesOn(s, s', t, s.ths[t].w)
    && Hands(s, t, s.ths[t].w)
  }

  /** A step delivers the next element of the range if it moves one. */
  predicate Hands(s: State, t: nat, w: Work)
    requires t in s.ths && !w.Failed?
  {
    && Front(w) <= Limit(w) <= |s.x.items| && (w.Move? ==> Front(w) < Limit(w))
    && Delivered(s, t) == if w.Move? then Some(s.x.items[Front(w)]) else None
  }

  /** A call at work comes to its end. */
  lemma {:induction false} WorkEnds(s: State, t: nat) returns (ss: seq<State>)
    requires AtWork(s, t)
    ensures Works(ss, t) && |ss| > 1 && ss[0] == s && Inv(ss[|ss| - 1])
    decreases Effort(s.ths[t].w)
  {
    var s' := NextAtWork(s, t);
    var rest := [s'];
    if !Ends(s.ths[t].w) { rest := WorkEnds(s', t); }
    ss := [s] + rest;
    assert ss[1..] == rest;
  }

  /** On the way it delivers the elements of its range in order. */
  lemma {:induction false} TakesRange(ss: seq<State>, t: nat, k: nat) returns (o: Outcome)
    requires Works(ss, t) && |ss| > 1 && k > Effort(ss[0].ths[t].w)
    ensures var w := ss[0].ths[t].w;
      && Finish(ss[0], t, k) == Some(o) && o.s == ss[|ss| - 1] && o.s.ths == ss[0].ths[t := Idle]
      && o.s.n == ss[0].n && o.s.x.items == ss[0].x.items
      && Front(w) <= Limit(w) <= |ss[0].x.items| && o.got == ss[0].x.items[Front(w)..Limit(w)]
    decreases |ss|
  {
    var s, w := ss[0], ss[0].ths[t].w;
    if |ss| == 2 {
      o := Outcome(ss[1], []);
    } else {
      o := TakesRange(ss[1..], t, k - 1);
      if w.Move? { o := o.(got := [s.x.items[Front(w)]] + o.got); }
    }
  }

  // ---- claiming them -------------------------------------------------------------------------------

  /** What a claim that nobody disturbs remembers, when n elements are to be had and max are asked for. */
  predicate Claims(s: State, c: Claim, max: nat, n: nat) {
    && max > 0 && s.n.head <= s.n.tail && s.n.tail - s.n.head < HALF
    && s.n.opt == s.n.head + s.n.over + (if c.Again? || c.AddHead? then n else 0)
    && (!c.AddHead? ==> n == Min(max, s.n.tail - s.n.head)) && s.n.head + n <= s.n.tail
    && match c
       case LoadTail(m) => m == max
       case LoadOver(m, tail) => m == max && tail == s.n.tail
       case LoadOpt(m, tail, o) => m == max && tail == s.n.tail && o == s.n.over
       case AddOpt(k, o) => k == n && o == s.n.over && n > 0
       case Again(k, m, o) => k == n && m + n == s.n.opt && o == s.n.over && n > 0
       case AddHead(m, k) => k == n && m + n == s.n.opt && n > 0
       case _ => false
  }

  function StepsLeft(c: Claim): nat {
    match c
    case LoadTail(_) => 6
    case LoadOver(_, _) => 5
    case LoadOpt(_, _, _) => 4
    case AddOpt(_, _) => 3
    case Again(_, _, _) => 2
    case _ => 1
  }

  /** One step of the claim: to the next one, to nothing when there is nothing, or to the range handed out. */
  lemma ClaimOn(s: State, t: nat, c: Claim, max: nat, n: nat)
    requires t in s.ths && s.ths[t] == Claiming(c) && Claims(s, c, max, n)
    ensures ClaimNear(s.n, c)
    ensures var s' := ClaimStep(s, t, c);
      && t in s'.ths && s'.ths == s.ths[t := s'.ths[t]] && s'.x.items == s.x.items && s'.n.tail == s.n.tail && s'.n.over == s.n.over
      && match s'.ths[t]
         case Idle => c.LoadOpt? && n == 0 && s'.n == s.n
         case Claiming(c') => Claims(s', c', max, n) && StepsLeft(c') < StepsLeft(c) && s'.n.head == s.n.head
         case Working(w) => w == LoadIndex(s.n.head, s.n.head + n) && n > 0 && s'.n == s.n.(head := s.n.head + n)
  {
    CircularLessExact(s.n.head, s.n.tail);
    NearLeft(s.n.tail, s.n.head + s.n.over, s.n.over);
  }

  lemma StepClaim(s: State, t: nat, c: Claim, max: nat, n: nat) returns (s': State)
    requires Inv(s) && t in s.ths && s.ths[t] == Claiming(c) && Claims(s, c, max, n)
    ensures Inv(s') && s' == ClaimStep(s, t, c)
  {
    ClaimOn(s, t, c, max, n);
    ClaimInvStep(s, t, c);
    s' := ClaimStep(s, t, c);
  }

  /** The range is handed out, or there is nothing to take. */
  predicate HandedOut(s: State, s': State, t: nat, n: nat) {
    && t in s.ths && s'.x.items == s.x.items && s'.n.tail == s.n.tail && s'.n.head == s.n.head + n
    && s'.ths == s.ths[t := if n == 0 then Idle else Working(LoadIndex(s.n.head, s.n.head + n))]
  }

  /** The state after the claim. */
  function AfterClaim(s: State, t: nat, k: nat): State
    decreases k
  {
    if k == 0 || t !in s.ths || !s.ths[t].Claiming? then s else AfterClaim(ClaimStep(s, t, s.ths[t].c), t, k - 1)
  }

  lemma {:induction false} ClaimKeeps(s: State, t: nat, c: Claim, max: nat, n: nat, k: nat)
    requires Inv(s) && t in s.ths && s.ths[t] == Claiming(c) && Claims(s, c, max, n)
    ensures Inv(AfterClaim(s, t, k))
    decreases k
  {
    if k > 0 {
      ClaimOn(s, t, c, max, n);
      var s1 := StepClaim(s, t, c, max, n);
      if s1.ths[t].Claiming? { ClaimKeeps(s1, t, s1.ths[t].c, max, n, k - 1); }
    }
  }

  lemma {:induction false} ClaimEnds(s: State, t: nat, c: Claim, max: nat, n: nat, k: nat) returns (left: nat)
    requires t in s.ths && s.ths[t] == Claiming(c) && Claims(s, c, max, n) && k >= StepsLeft(c)
    ensures HandedOut(s, AfterClaim(s, t, k), t, n) && AfterClaim(s, t, k).n.over == s.n.over
    ensures left + StepsLeft(c) >= k && FinishesAs(s, t, k, AfterClaim(s, t, k), left)
    decreases StepsLeft(c)
  {
    ClaimOn(s, t, c, max, n);
    var s1 := ClaimStep(s, t, c);
    assert Finish(s, t, k) == Finish(s1, t, k - 1);
    if s1.ths[t].Claiming? {
      left := ClaimEnds(s1, t, s1.ths[t].c, max, n, k - 1);
    } else {
      left := k - 1;
    }
  }

  predicate FinishesAs(s: State, t: nat, k: nat, s': State, left: nat) {
    t in s.ths && t in s'.ths && Finish(s, t, k) == Finish(s', t, left)
  }

  // ---- the call --------------------------------------------------------------------------------------

  lemma BeginsCall(s: State, t: nat, max: nat) returns (s': State)
    requires Inv(s) && t in s.ths && (forall u :: u in s.ths ==> s.ths[u].Idle?)
    requires max > 0 && s.n.tail - s.n.head < HALF
    ensures DequeuerStep(s, t, Dequeue(max)) == Some(s') && s' == Go(s, t, Claiming(LoadTail(max))) && Inv(s')
    ensures s.n.head <= s.n.tail == |s.x.items| && s.n.opt == s.n.head + s.n.over
    ensures Claims(s', LoadTail(max), max, Min(max, s.n.tail - s.n.head))
  {
    Balanced(s);
    StartInv(s, t, max);
    s' := Go(s, t, Claiming(LoadTail(max)));
  }

  lemma AllGone(s: State)
    requires Inv(s) && forall u :: u in s.ths ==> s.ths[u].Idle?
    ensures |s.x.given| == s.n.head && s.n.opt == s.n.head + s.n.over
    ensures forall i :: 0 <= i < s.n.head ==> s.x.given[i].g == Gone
  {
    Balanced(s);
    forall i | 0 <= i < s.n.head ensures s.x.given[i].g == Gone { assert Carried(s.ths, s.x.given[i], i); }
  }

  /** What the call hands over and leaves behind. */
  predicate Handed(s: State, o: Outcome, n: nat) {
    && s.n.head <= s.n.tail == |s.x.items| && s.n.head + n <= s.n.tail && o.got == s.x.items[s.n.head..s.n.head + n]
    && o.s.n == s.n.(opt := s.n.opt + n, head := s.n.head + n) && o.s.ths == s.ths && o.s.x.items == s.x.items
    && |o.s.x.given| == o.s.n.head && forall i :: 0 <= i < o.s.n.head ==> o.s.x.given[i].g == Gone
  }

  lemma EndsCall(s: State, t: nat, n: nat, k: nat) returns (o: Outcome)
    requires Inv(s) && t in s.ths && (forall u :: u in s.ths && u != t ==> s.ths[u].Idle?) && 0 < n <= s.n.head
    requires s.ths[t] == Working(LoadIndex(s.n.head - n, s.n.head))
    requires s.n.tail + 2 * BLOCK - (s.n.head - n) < HALF && k > 4 + 3 * n
    ensures Finish(s, t, k) == Some(o) && o.s.n == s.n && o.s.ths == s.ths[t := Idle] && o.s.x.items == s.x.items && Inv(o.s)
    ensures s.n.head <= |s.x.items| && o.got == s.x.items[s.n.head - n..s.n.head]
  {
    var ss := WorkEnds(s, t);
    o := TakesRange(ss, t, k);
  }

  lemma ClaimsFrom(s: State, t: nat, max: nat, n: nat, k: nat) returns (s': State, left: nat)
    requires Inv(s) && t in s.ths && s.ths[t] == Claiming(LoadTail(max)) && Claims(s, LoadTail(max), max, n) && k >= 6
    ensures Inv(s') && HandedOut(s, s', t, n) && s'.n.over == s.n.over && left + 6 >= k && FinishesAs(s, t, k, s', left)
  {
    ClaimKeeps(s, t, LoadTail(max), max, n, k);
    left := ClaimEnds(s, t, LoadTail(max), max, n, k);
    s' := AfterClaim(s, t, k);
  }

  /** The claim of a call: from the call to the range handed out. */
  lemma ClaimsCall(s: State, t: nat, max: nat, k: nat) returns (s2: State, left: nat)
    requires Inv(s) && t in s.ths && (forall u :: u in s.ths ==> s.ths[u].Idle?)
    requires max > 0 && s.n.tail - s.n.head < HALF && k >= 6
    ensures DequeuerStep(s, t, Dequeue(max)).Some? && FinishesAs(DequeuerStep(s, t, Dequeue(max)).value, t, k, s2, left)
    ensures s.n.head <= s.n.tail == |s.x.items| && s.n.opt == s.n.head + s.n.over && left + 6 >= k && Inv(s2)
    ensures var n := Min(max, s.n.tail - s.n.head);
      && s2.ths == s.ths[t := if n == 0 then Idle else Working(LoadIndex(s.n.head, s.n.head + n))] && s2.x.items == s.x.items
      && s2.n.head == s.n.head + n && s2.n.tail == s.n.tail && s2.n.over == s.n.over
  {
    var s1 := BeginsCall(s, t, max);
    var n := Min(max, s.n.tail - s.n.head);
    s2, left := ClaimsFrom(s1, t, max, n, k);
    assert s1.ths[t := s2.ths[t]] == s.ths[t := s2.ths[t]];
  }

  lemma FinishCall(s2: State, t: nat, n: nat, left: nat) returns (o: Outcome)
    requires Inv(s2) && t in s2.ths && (forall u :: u in s2.ths && u != t ==> s2.ths[u].Idle?) && n <= s2.n.head
    requires s2.ths[t] == if n == 0 then Idle else Working(LoadIndex(s2.n.head - n, s2.n.head))
    requires s2.n.tail + 2 * BLOCK - (s2.n.head - n) < HALF && left > 4 + 3 * n
    ensures Finish(s2, t, left) == Some(o) && o.s.ths == s2.ths[t := Idle] && o.s.x.items == s2.x.items && o.s.n == s2.n
    ensures s2.n.head <= |s2.x.items| && o.got == s2.x.items[s2.n.head - n..s2.n.head]
    ensures |o.s.x.given| == o.s.n.head && o.s.n.opt == o.s.n.head + o.s.n.over
    ensures forall i :: 0 <= i < o.s.n.head ==> o.s.x.given[i].g == Gone
  {
    if n == 0 { o := Outcome(s2, []); assert s2.ths == s2.ths[t := Idle]; } else { o := EndsCall(s2, t, n, left); }
    AllGone(o.s);
  }

  /** Between dequeues a call that nobody disturbs delivers the oldest elements in order, as many as it asked for or
      as there are, frees their slots, and leaves the others; it gets nothing exactly when the queue is empty. */
  lemma SoloDequeue(s: State, t: nat, max: nat) returns (o: Outcome, k: nat)
    requires Inv(s) && t in s.ths && (forall u :: u in s.ths ==> s.ths[u].Idle?)
    requires max > 0 && s.n.tail + 2 * BLOCK - s.n.head < HALF
    ensures DequeuerStep(s, t, Dequeue(max)).Some? && t in DequeuerStep(s, t, Dequeue(max)).value.ths
    ensures Finish(DequeuerStep(s, t, Dequeue(max)).value, t, k) == Some(o)
    ensures s.n.head <= s.n.tail && Handed(s, o, Min(max, s.n.tail - s.n.head))
  {
    var n := Min(max, s.n.tail - s.n.head);
    k := 11 + 3 * n;
    var s2, left := ClaimsCall(s, t, max, k);
    o := FinishCall(s2, t, n, left);
    assert o.s.ths == s.ths;
  }

  /** From every state of a run a dequeuer at work that nobody disturbs comes to its end, whatever unfinished calls
      others have left behind, and delivers the rest of its range in order. */
  lemma DequeueEnds(ss: seq<State>, es: seq<Event>, i: nat, t: nat) returns (o: Outcome)
    requires Runs(ss, es) && StaysApart(ss, es) && Init(ss[0]) && i < |ss| && t in ss[i].ths && ss[i].ths[t].Working?
    requires !ss[i].ths[t].w.Failed? ==> Close(ss[i], Front(ss[i].ths[t].w))
    ensures !ss[i].ths[t].w.Failed?
    ensures var s, w := ss[i], ss[i].ths[t].w;
      && Finish(s, t, Effort(w) + 1) == Some(o) && o.s.ths == s.ths[t := Idle]
      && Front(w) <= Limit(w) <= |s.x.items| && o.got == s.x.items[Front(w)..Limit(w)]
  {
    NeverFails(ss, es, i);
    RunInv(ss, es, i);
    var path := WorkEnds(ss[i], t);
    o := TakesRange(path, t, Effort(ss[i].ths[t].w) + 1);
  }
}
