/** 64-bit numbers in memory, several side by side. */
module Words {
  import opened Memory

  predicate Fit(ws: seq<nat>) { forall i :: 0 <= i < |ws| ==> ws[i] < WORD }

  function Bytes(ws: seq<nat>): (r: seq<Byte>)
    ensures |r| == 8 * |ws|
  {
    if ws == [] then [] else Encode(ws[0], 8) + Bytes(ws[1..])
  }

  function Numbers(bs: seq<Byte>): (r: seq<nat>)
    requires |bs| % 8 == 0
    ensures 8 * |r| == |bs|
  {
    if bs == [] then [] else [Decode(bs[..8])] + Numbers(bs[8..])
  }

  lemma {:induction false} NumbersOf(ws: seq<nat>)
    requires Fit(ws)
    ensures Numbers(Bytes(ws)) == ws
  {
    if ws != [] {
      Pow8();
      RoundTrip(ws[0], 8);
      NumbersOf(ws[1..]);
      assert Bytes(ws)[..8] == Encode(ws[0], 8) && Bytes(ws)[8..] == Bytes(ws[1..]);
    }
  }

  lemma {:induction false} BytesSplit(xs: seq<nat>, ys: seq<nat>)
    ensures Bytes(xs + ys) == Bytes(xs) + Bytes(ys)
  {
    if xs == [] { assert xs + ys == ys; } else {
      assert (xs + ys)[1..] == xs[1..] + ys;
      BytesSplit(xs[1..], ys);
    }
  }

  /** Behind the bytes bs and the numbers done, the numbers ws are written. */
  method Append(g: GAlloc, a: GAddr, off: nat, ws: seq<nat>, ghost m: Mem, ghost bs: seq<Byte>, ghost done: seq<nat>)
    requires g.mem == Store(m, a, bs + Bytes(done)) && off == |bs| + 8 * |done|
    modifies g`mem
    ensures g.mem == Store(m, a, bs + Bytes(done + ws))
  {
    StoreTwice(m, a, bs + Bytes(done), Bytes(ws));
    BytesSplit(done, ws);
    assert bs + Bytes(done) + Bytes(ws) == bs + Bytes(done + ws);
    g.Write(a, off, Bytes(ws));
  }

  /** n numbers are read, of those (ws) that follow the bytes bs. */
  method Get(g: GAlloc, a: GAddr, off: nat, n: nat, ghost bs: seq<Byte>, ghost ws: seq<nat>, ghost at: nat) returns (r: seq<nat>)
    requires Load(g.mem, a, |bs| + 8 * |ws|) == bs + Bytes(ws) && Fit(ws)
    requires off == |bs| + 8 * at && at + n <= |ws|
    ensures r == ws[at..at + n]
  {
    var got := g.Read(a, off, 8 * n);
    LoadPart(g.mem, a, |bs| + 8 * |ws|, off, 8 * n);
    Middle(bs, ws, at, n);
    NumbersOf(ws[at..at + n]);
    r := Numbers(got);
  }

  lemma {:induction false} Middle(bs: seq<Byte>, ws: seq<nat>, at: nat, n: nat)
    requires at + n <= |ws|
    ensures (bs + Bytes(ws))[|bs| + 8 * at..|bs| + 8 * at + 8 * n] == Bytes(ws[at..at + n])
  {
    Three(ws, at, n);
    var x, y, z := Bytes(ws[..at]), Bytes(ws[at..at + n]), Bytes(ws[at + n..]);
    Cut(bs, x, y, z);
    assert |x| == 8 * at && |y| == 8 * n;
  }

  lemma {:induction false} Three(ws: seq<nat>, at: nat, n: nat)
    requires at + n <= |ws|
    ensures Bytes(ws) == Bytes(ws[..at]) + (Bytes(ws[at..at + n]) + Bytes(ws[at + n..]))
  {
    assert ws == ws[..at] + (ws[at..at + n] + ws[at + n..]);
    BytesSplit(ws[..at], ws[at..at + n] + ws[at + n..]);
    BytesSplit(ws[at..at + n], ws[at + n..]);
  }

  lemma Cut(a: seq<Byte>, b: seq<Byte>, c: seq<Byte>, d: seq<Byte>)
    ensures (a + (b + (c + d)))[|a| + |b|..|a| + |b| + |c|] == c
  {}

  lemma LoadPart(m: Mem, a: GAddr, n: nat, off: nat, k: nat)
    requires off + k <= n
    ensures Load(m, Gadd(a, off), k) == Load(m, a, n)[off..off + k]
  {}

  /** Only the n bytes at a differ. */
  ghost predicate Outside(m: Mem, m': Mem, a: GAddr, n: nat) { forall x :: !Within(x, a, n) ==> At(m', x) == At(m, x) }

  lemma StoreOutside(m: Mem, a: GAddr, bs: seq<Byte>, n: nat)
    requires |bs| <= n
    ensures Outside(m, Store(m, a, bs), a, n)
  {
    forall x | !Within(x, a, n) ensures At(Store(m, a, bs), x) == At(m, x) { StoreAt(m, a, bs, x); }
  }

  lemma LoadOutside(m: Mem, m': Mem, a: GAddr, n: nat, b: GAddr, k: nat)
    requires Outside(m, m', a, n) && Apart(a, n, b, k)
    ensures Load(m', b, k) == Load(m, b, k)
  {
    forall i | 0 <= i < k ensures Load(m', b, k)[i] == Load(m, b, k)[i] { assert !Within(Gadd(b, i), a, n); }
  }

  lemma OutsideInside(m: Mem, m': Mem, a: GAddr, n: nat, b: GAddr, k: nat)
    requires Outside(m, m', a, n) && b.node == a.node && b.addr <= a.addr && a.addr + n <= b.addr + k
    ensures Outside(m, m', b, k)
  {}

  lemma OutsideTwice(m: Mem, m1: Mem, m2: Mem, a: GAddr, n: nat)
    requires Outside(m, m1, a, n) && Outside(m1, m2, a, n)
    ensures Outside(m, m2, a, n)
  {}
}
