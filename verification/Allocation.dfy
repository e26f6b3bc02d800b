/** LocalAllocator and GlobalAllocator: what their methods compute, and the methods. */
module Allocation {
  import opened Memory
  import opened LineAccess

  const GB40: nat := 40 * 0x4000_0000

  // ---- a thread's allocator ---------------------------------------------------------------------------

  datatype Local = Local(head: GAddr, cur: GAddr, heads: seq<GAddr>)

  function AlignUp(x: nat): (r: nat)
    ensures x <= r < x + LINE && r % LINE == 0
  {
    if x % LINE != 0 then (x / LINE + 1) * LINE else x
  }

  function Start(l: Local, align: bool): GAddr { if align then GAddr(l.cur.node, AlignUp(l.cur.addr)) else l.cur }

  /** Whether malloc asks for a new chunk. */
  predicate NeedsChunk(l: Local, size: nat, align: bool) {
    l.heads == [] || Start(l, align).addr + size > l.head.addr + CHUNK
  }

  /** The allocator after malloc: the start is rounded up even when a new chunk is needed. */
  function AfterMalloc(l: Local, size: nat, align: bool): Local {
    var at := Start(l, align);
    l.(cur := if NeedsChunk(l, size, align) then at else Gadd(at, size))
  }

  function WithChunk(l: Local, c: GAddr): Local { Local(c, c, l.heads + [c]) }

  /** The second try, in a chunk just received, asks for another exactly when the chunk does not start
      on a line and what is lost by rounding up is missing at its end. */
  lemma SecondTry(l: Local, c: GAddr, size: nat, align: bool)
    requires size <= CHUNK
    ensures NeedsChunk(WithChunk(l, c), size, align) <==> align && c.addr % LINE != 0 && AlignUp(c.addr) - c.addr + size > CHUNK
  {}

  class LocalAllocator {
    var head: GAddr
    var cur: GAddr
    var logHeads: seq<GAddr>

    function Value(): Local
      reads this
    {
      Local(head, cur, logHeads)
    }

    constructor ()
      ensures Value() == Local(NULL, NULL, [])
    {
      head, cur, logHeads := NULL, NULL, [];
    }

    /** malloc; ok unless its assert fails. */
    method Malloc(size: nat, align: bool) returns (res: GAddr, needChunk: bool, ok: bool)
      modifies this
      ensures res == Start(old(Value()), align) && needChunk == NeedsChunk(old(Value()), size, align)
      ensures Value() == AfterMalloc(old(Value()), size, align)
      ensures ok == (res.addr + size <= GB40)
      ensures !needChunk ==> res.addr + size <= head.addr + CHUNK && cur == Gadd(res, size) && head == old(head)
      ensures old(cur).addr <= res.addr && (align ==> Aligned(res)) && (!align ==> res == old(cur))
    {
      if align {
        if cur.addr % LINE != 0 {
          cur := GAddr(cur.node, (cur.addr / LINE + 1) * LINE);
        }
      }
      res := cur;
      if logHeads == [] || cur.addr + size > head.addr + CHUNK {
        needChunk := true;
      } else {
        needChunk := false;
        cur := GAddr(cur.node, cur.addr + size);
      }
      ok := res.addr + size <= GB40;
    }

    /** set_chunck. */
    method SetChunk(a: GAddr)
      modifies this
      ensures Value() == WithChunk(old(Value()), a)
    {
      logHeads := logHeads + [a];
      head, cur := a, a;
    }
  }

  // ---- an agent's allocator -----------------------------------------------------------------------------

  datatype Global = Global(start: GAddr, bitmap: seq<bool>, tail: nat)

  datatype Answer = Given(chunk: GAddr) | Full | Broken

  function NewGlobal(start: GAddr, size: nat): Global { Global(start, seq(size / CHUNK, i => false), 0) }

  function ChunkAt(start: GAddr, i: nat): GAddr { GAddr(start.node, start.addr + i * CHUNK) }

  /** The answer to a request for a chunk; Broken stands for the failing assert. */
  function Reply(g: Global): Answer {
    if g.tail >= |g.bitmap| then Full else if g.bitmap[g.tail] then Broken else Given(ChunkAt(g.start, g.tail))
  }

  function AfterReply(g: Global): Global {
    if Reply(g).Given? then Global(g.start, g.bitmap[g.tail := true], g.tail + 1) else g
  }

  /** Exactly the chunks before the tail are taken. */
  predicate Dense(g: Global) { g.tail <= |g.bitmap| && forall i :: 0 <= i < |g.bitmap| ==> g.bitmap[i] == (i < g.tail) }

  /** The chunks are handed out in order, and the assert never fails. */
  lemma StaysDense(g: Global)
    requires Dense(g)
    ensures Dense(AfterReply(g)) && !Reply(g).Broken?
  {}

  class GlobalAllocator {
    const start: GAddr
    const bitmap: array<bool>
    var bitmapTail: nat

    function Value(): Global
      reads this, bitmap
    {
      Global(start, bitmap[..], bitmapTail)
    }

    constructor (start: GAddr, size: nat)
      ensures Value() == NewGlobal(start, size) && Dense(Value())
    {
      this.start := start;
      bitmap := new bool[size / CHUNK](i => false);
      bitmapTail := 0;
    }

    /** alloc_chunck. */
    method AllocChunk() returns (r: Answer)
      modifies this, bitmap
      ensures r == Reply(old(Value())) && Value() == AfterReply(old(Value()))
      ensures old(Dense(Value())) ==> Dense(Value()) && (r.Full? <==> old(bitmapTail) == bitmap.Length)
      ensures old(Dense(Value())) && !r.Full? ==> r == Given(ChunkAt(start, old(bitmapTail))) && bitmapTail == old(bitmapTail) + 1
    {
      if bitmapTail >= bitmap.Length { return Full; }
      if !bitmap[bitmapTail] {
        bitmap[bitmapTail] := true;
        r := Given(ChunkAt(start, bitmapTail));
        bitmapTail := bitmapTail + 1;
      } else {
        r := Broken;
      }
    }
  }
}
