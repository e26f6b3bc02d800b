/** Cache::initLine: the buffers are dealt out and every line is reset, which is where every run starts. */
module CacheLines {
  import opened Options
  import opened CacheState
  import opened CacheSteps
  import opened CacheInv
  import opened CacheTheorems

  predicate Reset(l: Line) { l.st.Preserved? && !l.flag && l.data.None? && l.owner.None? && l.lock == FREE }

  /** A line as its constructor leaves it: its lock is free, and (auxiliary) no thread changes it. */
  predicate Built(l: Line) { l.owner.None? && l.lock == FREE }

  /** The slots before way j of set i. */
  predicate Passed(p: Slot, i: nat, j: nat) { p.set_ < i || (p.set_ == i && p.way < j) }

  /** loc says of every dealt buffer in which stack it is, and where. */
  ghost predicate DealtOut(stacks: seq<seq<Buf>>, loc: map<Buf, Loc>) {
    && (forall u, k {:trigger stacks[u][k]} :: 0 <= u < |stacks| && 0 <= k < |stacks[u]| ==> Put(stacks, loc, u, k))
    && (forall b {:trigger loc[b]} :: b in loc ==> InPlace(stacks, loc[b], b))
  }

  predicate Put(stacks: seq<seq<Buf>>, loc: map<Buf, Loc>, u: nat, k: nat)
    requires u < |stacks| && k < |stacks[u]|
  {
    stacks[u][k] in loc && loc[stacks[u][k]] == InStack(u, k)
  }

  predicate InPlace(stacks: seq<seq<Buf>>, z: Loc, b: Buf) { z.InStack? && z.u < |stacks| && z.k < |stacks[z.u]| && stacks[z.u][z.k] == b }

  lemma DealtMore(stacks: seq<seq<Buf>>, loc: map<Buf, Loc>, u: nat, b: Buf)
    requires DealtOut(stacks, loc) && u < |stacks| && b !in loc
    ensures DealtOut(stacks[u := stacks[u] + [b]], loc[b := InStack(u, |stacks[u]|)])
  {
    var stacks', loc' := stacks[u := stacks[u] + [b]], loc[b := InStack(u, |stacks[u]|)];
    forall v, k | 0 <= v < |stacks'| && 0 <= k < |stacks'[v]| ensures Put(stacks', loc', v, k) {
      if v != u || k < |stacks[u]| { assert stacks'[v][k] == stacks[v][k] && Put(stacks, loc, v, k); }
    }
    forall d | d in loc' ensures InPlace(stacks', loc'[d], d) { if d != b { assert InPlace(stacks, loc[d], d); } }
  }

  lemma TimesMono(a: nat, b: nat, m: nat)
    ensures a <= b ==> a * m <= b * m
  {}

  lemma {:induction false} Quotient(n: nat, q: nat, m: nat, r: nat)
    requires n == q * m + r && r < m
    ensures q == n / m
  {
    TimesMono(q + 1, n / m, m);
    TimesMono(n / m + 1, q, m);
    assert n == n / m * m + n % m;
  }

  lemma RoundStep(a: nat, m: nat)
    requires a < m
    ensures (a + 1) % m == if a + 1 == m then 0 else a + 1
  {}

  class Cache {
    /** available_data_stack, one stack for every application thread. */
    var stacks: seq<seq<Buf>>
    var lines: Lines
    ghost var loc: map<Buf, Loc>

    constructor (lines: Lines)
      ensures this.lines == lines
    {
      this.lines, stacks, loc := lines, [], map[];
    }

    /** initLine for apps threads and clines buffers. */
    method InitLine(clines: nat, apps: nat, depth: nat, width: nat)
      requires 0 < apps && 0 < clines
      requires forall p :: p in lines ==> p.set_ < depth && p.way < width && Built(lines[p])
      modifies this
      ensures |stacks| == apps && DealtOut(stacks, loc) && forall b: nat :: b in loc <==> b < clines
      ensures forall u :: 0 <= u < apps ==> clines / apps <= |stacks[u]| <= clines / apps + 1
      ensures forall p :: Reset(At(lines, p))
    {
      DealBuffers(clines, apps);
      ResetLines(depth, width);
    }

    /** The first loop: the buffers go round the threads. */
    method DealBuffers(clines: nat, apps: nat)
      requires 0 < apps
      modifies `stacks, `loc
      ensures |stacks| == apps && DealtOut(stacks, loc) && forall b: nat :: b in loc <==> b < clines
      ensures forall u :: 0 <= u < apps ==> clines / apps <= |stacks[u]| <= clines / apps + 1
    {
      var ss: seq<seq<Buf>>, i, appt: nat := seq(apps, u => []), 0, 0;
      ghost var where: map<Buf, Loc>, round: nat := map[], 0;
      while i < clines
        invariant i <= clines && |ss| == apps && appt < apps && i == round * apps + appt
        invariant forall u :: 0 <= u < apps ==> |ss[u]| == if u < appt then round + 1 else round
        invariant DealtOut(ss, where) && forall b: nat :: b in where <==> b < i
      {
        DealtMore(ss, where, appt, i);
        where := where[i := InStack(appt, |ss[appt]|)];
        ss := ss[appt := ss[appt] + [i]];
        i := i + 1;
        RoundStep(appt, apps);
        if appt + 1 == apps { round := round + 1; }
        appt := (appt + 1) % apps;
      }
      Quotient(clines, round, apps, appt);
      stacks, loc := ss, where;
    }

    /** The second loop, over all sets and ways. */
    method ResetLines(depth: nat, width: nat)
      requires forall p :: p in lines ==> p.set_ < depth && p.way < width && Built(lines[p])
      modifies `lines
      ensures forall p :: Reset(At(lines, p))
    {
      var ls, i := lines, 0;
      while i < depth
        invariant i <= depth && forall p :: p in ls ==> p.set_ < depth && p.way < width && Built(ls[p])
        invariant forall p :: p in ls && Passed(p, i, 0) ==> Reset(ls[p])
      {
        var j := 0;
        while j < width
          invariant j <= width && forall p :: p in ls ==> p.set_ < depth && p.way < width && Built(ls[p])
          invariant forall p :: p in ls && Passed(p, i, j) ==> Reset(ls[p])
        {
          var main, shadow := Slot(false, i, j), Slot(true, i, j);
          ls := ls[main := At(ls, main).Set(false, Preserved).(data := None)][shadow := At(ls, shadow).Set(false, Preserved).(data := None)];
          j := j + 1;
        }
        i := i + 1;
      }
      lines := ls;
    }
  }

  // ---- the start of every run ----------------------------------------------------------------------------

  /** The state after initLine, with idle threads and agents. */
  function Started(stacks: seq<seq<Buf>>, lines: Lines, loc: map<Buf, Loc>, agents: set<nat>): State {
    State(lines, map[],
          map u: nat | u < |stacks| :: App(Idle, Read, 0, false, Eviction(false, None, false, None, false, None), Pool(stacks[u], {}, {}, |stacks[u]|)),
          map v | v in agents :: Agent(AIdle, AgentMsg(0, OtherAgentMsg)), loc, {}, {})
  }

  /** It is the initial state of every run. */
  lemma StartsRuns(stacks: seq<seq<Buf>>, lines: Lines, loc: map<Buf, Loc>, agents: set<nat>)
    requires DealtOut(stacks, loc) && forall p :: Reset(At(lines, p))
    ensures Init(Started(stacks, lines, loc, agents))
  {
    var s := Started(stacks, lines, loc, agents);
    forall z | Content(s, z).Some? ensures Content(s, z).value in s.loc && s.loc[Content(s, z).value] == z {
      assert z.AtSlot? ==> Reset(At(lines, z.p));
      if z.InStack? { assert Put(stacks, loc, z.u, z.k); }
    }
    forall b | b in s.loc ensures Content(s, s.loc[b]) == Some(b) { assert InPlace(stacks, loc[b], b); }
    forall p ensures At(s.lines, p).lock == FREE { assert Reset(At(lines, p)); }
    forall p ensures At(s.lines, p).st == Preserved && !At(s.lines, p).flag && At(s.lines, p).data.None? && At(s.lines, p).owner.None? {
      assert Reset(At(lines, p));
    }
  }

  /** With two buffers for every main slot and thread, every thread has enough never to run out. */
  lemma {:induction false} EnoughForAll(clines: nat, apps: nat, depth: nat, width: nat)
    requires 0 < apps && clines >= 2 * (depth * width) * apps
    ensures clines / apps >= 2 * (depth * width)
  {
    var x := 2 * (depth * width);
    TimesMono(clines / apps + 1, x, apps);
    assert clines == clines / apps * apps + clines % apps;
  }
}
