/** The copying loop of new_block_index, over the arrays it works on. */
module QueueIndex {
  import opened QueueState
  import opened QueueInv
  import opened QueueProducer

  datatype Entry = Entry(base: nat, block: Bid)

  lemma OldNext(front: nat, used: nat, j: nat, size: nat)
    requires 0 < size && front < size && 0 < used <= size && j < used
    ensures (Old(front, used, j, size) + 1) % size == Old(front, used, j + 1, size)
    ensures Old(front, used, j + 1, size) == front <==> j + 1 == used
  {
    ModShift(front - used + j, 1, size);
    Unique(front, size, 0, front);
    if j + 1 < used { ModDistinct(front, front - used + j + 1, size); }
  }

  /** The new array starts with the used entries, oldest first, and nothing is lost when the
      used entries fill the old one. */
  method CopyEntries(entries: array<Entry>, front: nat, used: nat) returns (copy: array<Entry>, j: nat)
    requires front < entries.Length && used <= entries.Length
    ensures copy.Length == 2 * entries.Length && j == used
    ensures CopyOf(copy[..], entries[..], front, used)
  {
    var size := entries.Length;
    copy := new Entry[2 * size];
    j := 0;
    if used != 0 {
      var i := (front - used) % size;
      OldNext(front, used, 0, size);
      copy[j] := entries[i];
      j := j + 1;
      i := (i + 1) % size;
      while i != front
        invariant 0 < j <= used && i == Old(front, used, j, size)
        invariant i == front <==> j == used
        invariant forall k :: 0 <= k < j ==> copy[k] == entries[Old(front, used, k, size)]
        decreases used - j
      {
        OldNext(front, used, j, size);
        copy[j] := entries[i];
        j := j + 1;
        i := (i + 1) % size;
      }
    }
  }

  // ---- the copy is the index that the growth step installs ----------------------------------------

  /** The array holds every entry that header hd is known to hold. */
  ghost predicate Shows(entries: seq<Entry>, hd: Header) {
    && |entries| == hd.size
    && (forall j :: j in hd.bases ==> j < hd.size && entries[j].base == hd.bases[j])
    && (forall j :: j in hd.blks ==> j < hd.size && entries[j].block == hd.blks[j])
  }

  /** What CopyEntries leaves of the old entries in the new array. */
  ghost predicate CopyOf(copy: seq<Entry>, entries: seq<Entry>, front: nat, used: nat) {
    && |copy| == 2 * |entries| && 0 < |entries| && used <= |entries|
    && forall k :: 0 <= k < used ==> copy[k] == entries[Old(front, used, k, |entries|)]
  }

  /** If the old array shows the current index of a run's state, the copy shows the index that the growth
      step installs; and entry k of it is that of the k-th of the last `used` blocks, oldest first. */
  lemma CopyIsGrown(s: State, entries: seq<Entry>, copy: seq<Entry>)
    requires BlocksInv(s) && s.p.pc.PGrow? && s.idx != [] && Shows(entries, s.idx[|s.idx| - 1])
    requires CopyOf(copy, entries, s.p.front, s.p.used)
    ensures Shows(copy, Grown(s).idx[|s.idx|])
    ensures s.p.used <= |s.x.home| && forall k :: 0 <= k < s.p.used ==>
      copy[k] == Entry((|s.x.home| - s.p.used + k) * BLOCK, s.x.home[|s.x.home| - s.p.used + k])
  {
    var hd, hd' := s.idx[|s.idx| - 1], Grown(s).idx[|s.idx|];
    assert HeaderOk(hd, s.x.home);
    GrowHeaders(s, Grown(s));
    assert HeaderOk(hd', s.x.home);
    forall k | 0 <= k < s.p.used
      ensures copy[k] == Entry((|s.x.home| - s.p.used + k) * BLOCK, s.x.home[|s.x.home| - s.p.used + k])
    {
      SmallMod(k, hd'.size);
      assert Intact(hd', s.x.home, |s.x.home| - s.p.used + k);
    }
  }
}
