/** The buffer pool of the N-buffer capture engine, as values: the
    round-robin free-slot search and the accounting of which captured chunk
    sits in which slot, has been written, or is still waiting. */
module Pool {
  import opened Esp

  /** NUM_BUFFERS. */
  const NumBuffers: nat := 6

  // ---------------------------------------------------------------------
  // Free-slot search
  // ---------------------------------------------------------------------

  /** The slot looked at by the i-th probe of a search starting at start. */
  function Probe(start: nat, i: nat): (s: nat)
    ensures s < NumBuffers
  {
    (start + i) % NumBuffers
  }

  /** A slot the producer may fill in this iteration: its non-blocking take
      succeeded (lockOk) and it is not waiting to be saved. */
  predicate Usable(ready: seq<bool>, lockOk: seq<bool>, slot: nat)
    requires |ready| == NumBuffers && |lockOk| == NumBuffers
  {
    slot < NumBuffers && lockOk[slot] && !ready[slot]
  }

  /** The number of the first probe from i on that finds a usable slot, or
      NumBuffers when none of probes i, ..., NumBuffers - 1 does. */
  function FirstUsableProbe(start: nat, ready: seq<bool>, lockOk: seq<bool>, i: nat): (j: nat)
    requires |ready| == NumBuffers && |lockOk| == NumBuffers && i <= NumBuffers
    ensures i <= j <= NumBuffers
    ensures forall k :: i <= k < j ==> !Usable(ready, lockOk, Probe(start, k))
    ensures j < NumBuffers ==> Usable(ready, lockOk, Probe(start, j))
    decreases NumBuffers - i
  {
    if i == NumBuffers then NumBuffers
    else if Usable(ready, lockOk, Probe(start, i)) then i
    else FirstUsableProbe(start, ready, lockOk, i + 1)
  }

  /** The slot the search picks, if any. */
  function FirstUsable(start: nat, ready: seq<bool>, lockOk: seq<bool>): Option<nat>
    requires |ready| == NumBuffers && |lockOk| == NumBuffers
  {
    var j := FirstUsableProbe(start, ready, lockOk, 0);
    if j < NumBuffers then Some(Probe(start, j)) else None
  }

  /** The probe of a search starting at start that looks at slot s. */
  function ProbeFor(start: nat, s: nat): nat
    requires start < NumBuffers && s < NumBuffers
  {
    if s >= start then s - start else s + NumBuffers - start
  }

  lemma ProbeNoWrap(start: nat, i: nat)
    requires start < NumBuffers && i < NumBuffers
    ensures Probe(start, i) == if start + i < NumBuffers then start + i else start + i - NumBuffers
  {
  }

  /** The probes of one search visit every slot, each exactly once. */
  lemma ProbesArePermutation(start: nat)
    requires start < NumBuffers
    ensures forall i, j :: 0 <= i < j < NumBuffers ==> Probe(start, i) != Probe(start, j)
    ensures forall s :: 0 <= s < NumBuffers ==> ProbeFor(start, s) < NumBuffers && Probe(start, ProbeFor(start, s)) == s
  {
    forall i, j | 0 <= i < j < NumBuffers ensures Probe(start, i) != Probe(start, j) {
      ProbeNoWrap(start, i);
      ProbeNoWrap(start, j);
    }
    forall s | 0 <= s < NumBuffers ensures ProbeFor(start, s) < NumBuffers && Probe(start, ProbeFor(start, s)) == s {
      ProbeNoWrap(start, ProbeFor(start, s));
    }
  }

  /** The search picks the first usable slot in round-robin order from start,
      and finds none exactly when no slot at all is usable. */
  lemma FirstUsableSpec(start: nat, ready: seq<bool>, lockOk: seq<bool>)
    requires start < NumBuffers && |ready| == NumBuffers && |lockOk| == NumBuffers
    ensures FirstUsable(start, ready, lockOk).None? <==>
      forall s :: 0 <= s < NumBuffers ==> !Usable(ready, lockOk, s)
    ensures FirstUsable(start, ready, lockOk).Some? ==>
      exists j :: 0 <= j < NumBuffers && FirstUsable(start, ready, lockOk).value == Probe(start, j)
        && Usable(ready, lockOk, Probe(start, j))
        && forall k :: 0 <= k < j ==> !Usable(ready, lockOk, Probe(start, k))
  {
    var j := FirstUsableProbe(start, ready, lockOk, 0);
    if FirstUsable(start, ready, lockOk).None? {
      forall s | 0 <= s < NumBuffers ensures !Usable(ready, lockOk, s) {
        ProbeNoWrap(start, ProbeFor(start, s));
        assert Probe(start, ProbeFor(start, s)) == s;
      }
    }
  }

  /** The round-robin loop of the producer (one probe per slot, each lock
      tried at most once), without what it does with the slot it finds. */
  method FindFreeSlot(start: nat, ready: seq<bool>, lockOk: seq<bool>) returns (slot: Option<nat>)
    requires start < NumBuffers && |ready| == NumBuffers && |lockOk| == NumBuffers
    ensures slot == FirstUsable(start, ready, lockOk)
    ensures slot.Some? ==> slot.value < NumBuffers && lockOk[slot.value] && !ready[slot.value]
  {
    var i := 0;
    while i < NumBuffers
      invariant 0 <= i <= NumBuffers
      invariant FirstUsableProbe(start, ready, lockOk, 0) == FirstUsableProbe(start, ready, lockOk, i)
    {
      var bufferIndex := (start + i) % NumBuffers;
      if lockOk[bufferIndex] {
        if !ready[bufferIndex] {
          return Some(bufferIndex);
        }
        // Taken but waiting to be saved: given back at once.
      }
      i := i + 1;
    }
    return None;
  }

  // ---------------------------------------------------------------------
  // Chunk accounting
  // ---------------------------------------------------------------------

  /** One fwrite of a whole slot: the file it went to, the slot, and the
      serial number of the captured chunk the slot held. */
  datatype Block = Block(path: string, slot: nat, chunk: nat)

  /** Where a completed chunk is: at position pos of the output, or still
      in ready slot slot. */
  datatype Loc = InFile(pos: nat) | InSlot(slot: nat)

  /** Nothing completed is lost or written twice. loc[c] says where chunk c
      (the c-th completed fill) is: each chunk is at exactly one place, each
      write holds the chunk whose place it is, and each ready slot holds the
      chunk whose place it is. */
  ghost predicate Accounted(loc: seq<Loc>, written: seq<Block>, ready: seq<bool>, content: seq<nat>)
    requires |ready| == |content|
  {
    && (forall c :: 0 <= c < |loc| ==>
          match loc[c]
          case InFile(k) => k < |written| && written[k].chunk == c
          case InSlot(i) => i < |ready| && ready[i] && content[i] == c)
    && (forall k :: 0 <= k < |written| ==> written[k].chunk < |loc| && loc[written[k].chunk] == InFile(k))
    && (forall i :: 0 <= i < |ready| && ready[i] ==> content[i] < |loc| && loc[content[i]] == InSlot(i))
  }

  lemma InitiallyAccounted(ready: seq<bool>, content: seq<nat>)
    requires |ready| == |content| && forall i :: 0 <= i < |ready| ==> !ready[i]
    ensures Accounted([], [], ready, content)
  {
  }

  /** Completing a fill in a slot that is not ready keeps the accounting:
      the new chunk is the next serial and sits in that slot. */
  lemma CompleteAccounted(loc: seq<Loc>, written: seq<Block>, ready: seq<bool>, content: seq<nat>, s: nat)
    requires |ready| == |content| && s < |ready| && !ready[s]
    requires Accounted(loc, written, ready, content)
    ensures Accounted(loc + [InSlot(s)], written, ready[s := true], content[s := |loc|])
  {
    var loc', ready', content' := loc + [InSlot(s)], ready[s := true], content[s := |loc|];
    forall c | 0 <= c < |loc'|
      ensures match loc'[c]
              case InFile(k) => k < |written| && written[k].chunk == c
              case InSlot(i) => i < |ready'| && ready'[i] && content'[i] == c
    {
      if c < |loc| && loc[c].InSlot? {
        assert loc[c].slot != s;
      }
    }
  }

  /** Writing ready slot s and clearing its flag keeps the accounting: its
      chunk moves from the slot to the end of the output. */
  lemma DrainAccounted(loc: seq<Loc>, written: seq<Block>, ready: seq<bool>, content: seq<nat>, s: nat, path: string)
    requires |ready| == |content| && s < |ready| && ready[s]
    requires Accounted(loc, written, ready, content)
    ensures Accounted(loc[content[s] := InFile(|written|)], written + [Block(path, s, content[s])], ready[s := false], content)
  {
    var loc', written', ready' := loc[content[s] := InFile(|written|)], written + [Block(path, s, content[s])], ready[s := false];
    forall c | 0 <= c < |loc'|
      ensures match loc'[c]
              case InFile(k) => k < |written'| && written'[k].chunk == c
              case InSlot(i) => i < |ready'| && ready'[i] && content[i] == c
    {
      if c != content[s] && loc[c].InSlot? {
        assert loc[c].slot != s;
      }
    }
    forall k | 0 <= k < |written'|
      ensures written'[k].chunk < |loc'| && loc'[written'[k].chunk] == InFile(k)
    {
      if k < |written| {
        assert written'[k] == written[k];
        assert loc[written[k].chunk] == InFile(k);
      }
    }
  }

  /** No chunk is written twice. */
  lemma {:induction false} WrittenOnce(loc: seq<Loc>, written: seq<Block>, ready: seq<bool>, content: seq<nat>)
    requires |ready| == |content| && Accounted(loc, written, ready, content)
    ensures forall a, b :: 0 <= a < b < |written| ==> written[a].chunk != written[b].chunk
  {
    forall a, b | 0 <= a < b < |written| ensures written[a].chunk != written[b].chunk {
      assert loc[written[a].chunk] == InFile(a);
      assert loc[written[b].chunk] == InFile(b);
    }
  }

  /** Chunk c is among the writes. */
  predicate WrittenOut(written: seq<Block>, c: nat) {
    exists k :: 0 <= k < |written| && written[k].chunk == c
  }

  /** Once no slot is ready, every completed chunk has been written. */
  lemma {:induction false} NothingPendingMeansAllWritten(loc: seq<Loc>, written: seq<Block>, ready: seq<bool>, content: seq<nat>)
    requires |ready| == |content| && Accounted(loc, written, ready, content)
    requires forall i :: 0 <= i < |ready| ==> !ready[i]
    ensures forall c :: 0 <= c < |loc| ==> WrittenOut(written, c)
  {
    forall c | 0 <= c < |loc| ensures WrittenOut(written, c) {
      match loc[c]
      case InFile(k) =>
        assert k < |written| && written[k].chunk == c;
      case InSlot(i) =>
        assert false;
    }
  }

  /** A chunk still pending in a ready slot is in no write. */
  lemma PendingNotWritten(loc: seq<Loc>, written: seq<Block>, ready: seq<bool>, content: seq<nat>, i: nat)
    requires |ready| == |content| && Accounted(loc, written, ready, content)
    requires i < |ready| && ready[i]
    ensures !WrittenOut(written, content[i])
  {
  }

  /** The writes of the suspend flush of slots 0 .. n - 1, in ascending slot order. */
  function FlushBlocks(path: string, ready: seq<bool>, content: seq<nat>, n: nat): seq<Block>
    requires |ready| == |content| && n <= |ready|
  {
    if n == 0 then []
    else
      var tail := if ready[n - 1] then [Block(path, n - 1, content[n - 1])] else [];
      FlushBlocks(path, ready, content, n - 1) + tail
  }

  /** The flush writes exactly the ready slots, each once, in ascending slot
      order, each with the chunk it holds. */
  lemma {:induction false} FlushBlocksSpec(path: string, ready: seq<bool>, content: seq<nat>, n: nat)
    requires |ready| == |content| && n <= |ready|
    ensures forall k, l :: 0 <= k < l < |FlushBlocks(path, ready, content, n)| ==>
      FlushBlocks(path, ready, content, n)[k].slot < FlushBlocks(path, ready, content, n)[l].slot
    ensures forall k :: 0 <= k < |FlushBlocks(path, ready, content, n)| ==>
      var b := FlushBlocks(path, ready, content, n)[k];
      b.slot < n && ready[b.slot] && b.chunk == content[b.slot] && b.path == path
    ensures forall i :: 0 <= i < n && ready[i] ==>
      exists k :: 0 <= k < |FlushBlocks(path, ready, content, n)| && FlushBlocks(path, ready, content, n)[k].slot == i
  {
    if n > 0 {
      FlushBlocksSpec(path, ready, content, n - 1);
      var prev := FlushBlocks(path, ready, content, n - 1);
      var all := FlushBlocks(path, ready, content, n);
      assert forall k :: 0 <= k < |prev| ==> all[k] == prev[k];
      if ready[n - 1] {
        assert all[|prev|].slot == n - 1;
      }
    }
  }

  // ---------------------------------------------------------------------
  // The slots
  // ---------------------------------------------------------------------

  /** The bufferReady[] flags and buffer[] contents of the pool, and the log
      of every slot the file-save task has written to a file. A slot's
      contents are the serial number of the chunk last completed in it. */
  class SlotPool {
    const ready: array<bool>
    const content: array<nat>
    /** The number of chunks completed so far. */
    var fills: nat
    var written: seq<Block>
    /** Where each completed chunk is now. */
    ghost var loc: seq<Loc>

    ghost predicate Valid()
      reads this, ready, content
    {
      && ready.Length == NumBuffers && content.Length == NumBuffers
      && fills == |loc|
      && Accounted(loc, written, ready[..], content[..])
    }

    constructor ()
      ensures Valid() && fresh(ready) && fresh(content)
      ensures fills == 0 && written == [] && forall i :: 0 <= i < NumBuffers ==> !ready[i]
    {
      ready := new bool[NumBuffers](_ => false);
      content := new nat[NumBuffers](_ => 0);
      fills, written, loc := 0, [], [];
      new;
      InitiallyAccounted(ready[..], content[..]);
    }

    /** A fill reaches the end of free slot s: the slot is marked ready and
        holds the next chunk. */
    method Complete(s: nat)
      requires Valid() && s < NumBuffers && !ready[s]
      modifies this, ready, content
      ensures Valid()
      ensures fills == old(fills) + 1 && written == old(written)
      ensures ready[..] == old(ready[..])[s := true] && content[..] == old(content[..])[s := old(fills)]
    {
      ghost var r0, c0 := ready[..], content[..];
      CompleteAccounted(loc, written, r0, c0, s);
      ready[s] := true;
      content[s] := fills;
      assert ready[..] == r0[s := true] && content[..] == c0[s := fills];
      fills, loc := fills + 1, loc + [InSlot(s)];
    }

    /** Ready slot s is written to the file at path and marked free. */
    method Release(s: nat, path: string)
      requires Valid() && s < NumBuffers && ready[s]
      modifies this, ready
      ensures Valid()
      ensures fills == old(fills) && written == old(written) + [Block(path, s, content[s])]
      ensures ready[..] == old(ready[..])[s := false]
    {
      var block := Block(path, s, content[s]);
      ghost var r0, c0 := ready[..], content[..];
      DrainAccounted(loc, written, r0, c0, s, path);
      loc := loc[content[s] := InFile(|written|)];
      written := written + [block];
      ready[s] := false;
      assert ready[..] == r0[s := false];
    }

    /** The suspend flush to the file at path: every ready slot, in ascending
        index order, is written and marked free; afterwards every chunk
        completed so far has been written. */
    method Flush(path: string)
      requires Valid()
      modifies this, ready
      ensures Valid() && fills == old(fills)
      ensures written == old(written) + FlushBlocks(path, old(ready[..]), content[..], NumBuffers)
      ensures forall i :: 0 <= i < NumBuffers ==> !ready[i]
      ensures forall c :: 0 <= c < fills ==> WrittenOut(written, c)
    {
      ghost var before := ready[..];
      for i := 0 to NumBuffers
        invariant Valid() && fills == old(fills)
        invariant written == old(written) + FlushBlocks(path, before, content[..], i)
        invariant forall j :: 0 <= j < i ==> !ready[j]
        invariant forall j :: i <= j < NumBuffers ==> ready[j] == before[j]
      {
        if ready[i] {
          Release(i, path);
        }
      }
      NothingPendingMeansAllWritten(loc, written, ready[..], content[..]);
    }
  }
}
