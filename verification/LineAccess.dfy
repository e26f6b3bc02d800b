/** DSM::read and DSM::write: byte ranges split over cache lines refine a flat byte memory. */
module LineAccess {
  import opened Memory

  /** DSM_CACHE_LINE_SIZE. */
  const LINE: nat := 4096

  /** getTag: the line number shifted by the width of a node number, plus the node. */
  function Tag(a: GAddr): nat { a.addr / LINE * 256 + a.node }

  /** A tag names exactly one line of one node. */
  lemma TagExact(a: GAddr, b: GAddr)
    requires ValidAddr(a) && ValidAddr(b)
    ensures Tag(a) == Tag(b) <==> a.node == b.node && a.addr / LINE == b.addr / LINE
    ensures Tag(a) < WORD
  {
    if Tag(a) == Tag(b) {
      assert a.node == Tag(a) % 256 && b.node == Tag(b) % 256;
    }
  }

  /** One access to one line. */
  datatype Piece = Piece(at: GAddr, start: nat, len: nat)

  /** The piece lies in one line. */
  predicate InLine(p: Piece) { p.start + p.len <= LINE && p.start == p.at.addr % LINE }

  /** The pieces lie in one line each and cover size bytes from a, in order, each starting where the
      one before ends. */
  ghost predicate Covers(ps: seq<Piece>, a: GAddr, size: nat) {
    && (forall i :: 0 <= i < |ps| ==> InLine(ps[i]))
    && (forall i :: 0 < i < |ps| ==> Follows(ps[i - 1], ps[i]))
    && (if ps == [] then size == 0 else ps[0].at == a && Gadd(ps[|ps| - 1].at, ps[|ps| - 1].len) == Gadd(a, size))
  }

  predicate Follows(p: Piece, q: Piece) { q.at == Gadd(p.at, p.len) }

  lemma CoversMore(ps: seq<Piece>, a: GAddr, size: nat, p: Piece)
    requires Covers(ps, a, size) && InLine(p) && p.at == Gadd(a, size)
    ensures Covers(ps + [p], a, size + p.len)
  {
    var qs := ps + [p];
    forall i | 0 < i < |qs| ensures Follows(qs[i - 1], qs[i]) {
      if i < |ps| { assert Follows(ps[i - 1], ps[i]); }
    }
  }

  type Lines = map<nat, seq<Byte>>

  /** The contents of a line; one that was never written is all zero. */
  function LineOf(lines: Lines, t: nat): (r: seq<Byte>)
    ensures |r| == LINE
  {
    if t in lines && |lines[t]| == LINE then lines[t] else seq(LINE, i => 0)
  }

  /** The flat memory: the byte at an address. */
  function Flat(lines: Lines, a: GAddr): Byte { LineOf(lines, Tag(a))[a.addr % LINE] }

  /** From the one memory to the other, exactly the bytes bs were written at a. */
  ghost predicate Wrote(lines: Lines, lines': Lines, a: GAddr, bs: seq<Byte>) {
    forall x :: ValidAddr(x) ==> Flat(lines', x) == if Within(x, a, |bs|) then bs[x.addr - a.addr] else Flat(lines, x)
  }

  lemma WroteTwice(l0: Lines, l1: Lines, l2: Lines, a: GAddr, x: seq<Byte>, y: seq<Byte>)
    requires Wrote(l0, l1, a, x) && Wrote(l1, l2, Gadd(a, |x|), y)
    ensures Wrote(l0, l2, a, x + y)
  {}

  lemma WritesLine(lines: Lines, a: GAddr, bs: seq<Byte>)
    requires ValidAddr(a) && a.addr % LINE + |bs| <= LINE
    ensures var line, s := LineOf(lines, Tag(a)), a.addr % LINE;
      Wrote(lines, lines[Tag(a) := line[..s] + bs + line[s + |bs|..]], a, bs)
  {
    var line, s := LineOf(lines, Tag(a)), a.addr % LINE;
    var lines' := lines[Tag(a) := line[..s] + bs + line[s + |bs|..]];
    forall x | ValidAddr(x) ensures Flat(lines', x) == if Within(x, a, |bs|) then bs[x.addr - a.addr] else Flat(lines, x) {
      TagExact(x, a);
    }
  }

  lemma ReadsLine(lines: Lines, a: GAddr, len: nat)
    requires ValidAddr(a) && a.addr % LINE + len <= LINE
    ensures forall i :: 0 <= i < len ==> LineOf(lines, Tag(a))[a.addr % LINE + i] == Flat(lines, Gadd(a, i))
  {
    forall i | 0 <= i < len ensures LineOf(lines, Tag(a))[a.addr % LINE + i] == Flat(lines, Gadd(a, i)) {
      assert Gadd(a, i).addr / LINE == a.addr / LINE;
    }
  }

  predicate Aligned(a: GAddr) { a.addr % LINE == 0 }

  lemma NextAligned(a: GAddr)
    requires Aligned(a)
    ensures Aligned(Gadd(a, LINE))
  {}

  class Dsm {
    /** The contents of the lines, by tag. */
    var lines: Lines
    /** readLine on the line of iter. */
    method ReadPiece(iter: GAddr, start: nat, len: nat) returns (to: seq<Byte>, ghost p: Piece)
      requires start == iter.addr % LINE && start + len <= LINE && ValidAddr(iter)
      ensures |to| == len && forall i :: 0 <= i < len ==> to[i] == Flat(lines, Gadd(iter, i))
      ensures p == Piece(iter, start, len)
    {
      to := LineOf(lines, Tag(iter))[start..start + len];
      ReadsLine(lines, iter, len);
      p := Piece(iter, start, len);
    }

    /** writeLine on the line of iter. */
    method WritePiece(iter: GAddr, start: nat, from: seq<Byte>) returns (ghost p: Piece)
      requires start == iter.addr % LINE && start + |from| <= LINE && ValidAddr(iter)
      modifies this
      ensures Wrote(old(lines), lines, iter, from) && p == Piece(iter, start, |from|)
    {
      WritesLine(lines, iter, from);
      var line := LineOf(lines, Tag(iter));
      lines := lines[Tag(iter) := line[..start] + from + line[start + |from|..]];
      p := Piece(iter, start, |from|);
    }

    /** DSM::write; ps are its line accesses. */
    method Write(a: GAddr, from: seq<Byte>) returns (ghost ps: seq<Piece>)
      requires ValidAddr(a) && a.addr + |from| <= WORD
      modifies this
      ensures Wrote(old(lines), lines, a, from) && Covers(ps, a, |from|)
    {
      ghost var l0 := lines;
      var size := |from|;
      var p;
      p, ps := WriteFirst(a, from);
      var iter := Gadd(a, p);
      while size - p >= LINE
        invariant p <= size && iter == Gadd(a, p) && (p < size ==> Aligned(iter))
        invariant Covers(ps, a, p) && Wrote(l0, lines, a, from[..p])
      {
        ps := WriteStep(l0, a, from, p, p + LINE, iter, ps);
        NextAligned(iter);
        p := p + LINE;
        iter := Gadd(iter, LINE);
      }
      if p != size { ps := WriteStep(l0, a, from, p, size, iter, ps); }
      assert from[..size] == from;
    }

    /** The piece that starts inside a line: up to its end, or all. */
    method WriteFirst(a: GAddr, from: seq<Byte>) returns (len: nat, ghost ps: seq<Piece>)
      requires ValidAddr(a)
      modifies this
      ensures len <= |from| && (len < |from| ==> Aligned(Gadd(a, len)))
      ensures Covers(ps, a, len) && Wrote(old(lines), lines, a, from[..len])
    {
      var start := a.addr % LINE;
      len := if |from| < LINE - start then |from| else LINE - start;
      ghost var piece := WritePiece(a, start, from[..len]);
      ps := [piece];
    }

    /** One more piece of a write: bytes p..q, at the start of a line. */
    method WriteStep(ghost l0: Lines, ghost a: GAddr, from: seq<Byte>, p: nat, q: nat, iter: GAddr, ghost ps: seq<Piece>)
      returns (ghost ps': seq<Piece>)
      requires p <= q <= |from| && q - p <= LINE && iter == Gadd(a, p) && Aligned(iter) && ValidAddr(iter)
      requires Wrote(l0, lines, a, from[..p]) && Covers(ps, a, p)
      modifies this
      ensures Wrote(l0, lines, a, from[..q]) && ps' == ps + [Piece(iter, 0, q - p)] && Covers(ps', a, q)
    {
      ghost var l1 := lines;
      CoversMore(ps, a, p, Piece(iter, 0, q - p));
      ghost var piece := WritePiece(iter, 0, from[p..q]);
      ps' := ps + [piece];
      WroteTwice(l0, l1, lines, a, from[..p], from[p..q]);
      assert from[..p] + from[p..q] == from[..q];
    }

    /** DSM::read; ps are its line accesses. */
    method Read(a: GAddr, size: nat) returns (to: seq<Byte>, ghost ps: seq<Piece>)
      requires ValidAddr(a) && a.addr + size <= WORD
      ensures IsRead(lines, a, size, to) && Covers(ps, a, size)
    {
      to, ps := ReadFirst(a, size);
      var iter := Gadd(a, |to|);
      while size - |to| >= LINE
        invariant |to| <= size && iter == Gadd(a, |to|) && (|to| < size ==> Aligned(iter))
        invariant Covers(ps, a, |to|) && IsRead(lines, a, |to|, to)
        decreases size - |to|
      {
        NextAligned(iter);
        to, ps := ReadStep(a, to, iter, LINE, ps);
        iter := Gadd(iter, LINE);
      }
      if size != |to| { to, ps := ReadStep(a, to, iter, size - |to|, ps); }
    }

    /** The piece that starts inside a line: up to its end, or all. */
    method ReadFirst(a: GAddr, size: nat) returns (to: seq<Byte>, ghost ps: seq<Piece>)
      requires ValidAddr(a)
      ensures |to| <= size && (|to| < size ==> Aligned(Gadd(a, |to|)))
      ensures Covers(ps, a, |to|) && IsRead(lines, a, |to|, to)
    {
      var start := a.addr % LINE;
      var len := if size < LINE - start then size else LINE - start;
      ghost var piece;
      to, piece := ReadPiece(a, start, len);
      ps := [piece];
    }

    /** One more piece of a read, at the start of a line. */
    method ReadStep(ghost a: GAddr, to: seq<Byte>, iter: GAddr, len: nat, ghost ps: seq<Piece>)
      returns (to': seq<Byte>, ghost ps': seq<Piece>)
      requires IsRead(lines, a, |to|, to) && iter == Gadd(a, |to|) && Aligned(iter) && ValidAddr(iter) && len <= LINE
      requires Covers(ps, a, |to|)
      ensures IsRead(lines, a, |to| + len, to') && ps' == ps + [Piece(iter, 0, len)] && Covers(ps', a, |to| + len)
    {
      CoversMore(ps, a, |to|, Piece(iter, 0, len));
      ghost var piece;
      var more;
      more, piece := ReadPiece(iter, 0, len);
      to', ps' := to + more, ps + [piece];
    }
  }

  /** The bytes are those of the flat memory from a on. */
  ghost predicate IsRead(lines: Lines, a: GAddr, size: nat, to: seq<Byte>) {
    |to| == size && forall i :: 0 <= i < size ==> to[i] == Flat(lines, Gadd(a, i))
  }

  /** What was written is read back. */
  lemma ReadsWritten(lines: Lines, lines': Lines, a: GAddr, bs: seq<Byte>, to: seq<Byte>)
    requires ValidAddr(a) && a.addr + |bs| <= WORD && Wrote(lines, lines', a, bs) && IsRead(lines', a, |bs|, to)
    ensures to == bs
  {
    forall i | 0 <= i < |bs| ensures to[i] == bs[i] {
      assert ValidAddr(Gadd(a, i)) && Within(Gadd(a, i), a, |bs|);
    }
  }

  /** The flat memory that the lines stand for, as far as it goes. */
  lemma WroteIsStore(lines: Lines, lines': Lines, m: Mem, a: GAddr, bs: seq<Byte>)
    requires Wrote(lines, lines', a, bs) && forall x :: ValidAddr(x) ==> Flat(lines, x) == At(m, x)
    ensures forall x :: ValidAddr(x) ==> Flat(lines', x) == At(Store(m, a, bs), x)
  {
    forall x | ValidAddr(x) ensures Flat(lines', x) == At(Store(m, a, bs), x) { StoreAt(m, a, bs, x); }
  }
}
