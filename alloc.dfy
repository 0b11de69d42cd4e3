/** The allocation steps both capture engines share: the outcome of creating
    each slot's buffer and mutex, and the rollback loops run when one of those
    creations fails. */
module Alloc {

  /** The first slot from i on whose buffer or whose mutex cannot be
      created, or |bufOk| when every remaining allocation succeeds. */
  function FirstFailure(bufOk: seq<bool>, mutexOk: seq<bool>, i: nat): (f: nat)
    requires |bufOk| == |mutexOk| && i <= |bufOk|
    ensures i <= f <= |bufOk|
    ensures forall j :: i <= j < f ==> bufOk[j] && mutexOk[j]
    ensures f < |bufOk| ==> !bufOk[f] || !mutexOk[f]
    decreases |bufOk| - i
  {
    if i == |bufOk| || !bufOk[i] || !mutexOk[i] then i else FirstFailure(bufOk, mutexOk, i + 1)
  }

  /** The rollback after buffer n could not be allocated: the buffers
      before n are freed, their mutexes are left alone. */
  method FreeBuffersBefore(buf: array<bool>, n: nat)
    requires n < buf.Length
    modifies buf
    ensures forall k :: 0 <= k <= n ==> !buf[k]
    ensures forall k :: n < k < buf.Length ==> buf[k] == old(buf[k])
  {
    buf[n] := false;
    for j := 0 to n
      invariant forall k :: 0 <= k < j ==> !buf[k]
      invariant !buf[n]
      invariant forall k :: n < k < buf.Length ==> buf[k] == old(buf[k])
    {
      buf[j] := false;
    }
  }

  /** The rollback after the mutex of slot n could not be created: the
      buffers up to and including n and the mutexes before n are freed. */
  method FreeSlotsThrough(buf: array<bool>, mutex: array<bool>, n: nat)
    requires n < buf.Length == mutex.Length && buf != mutex
    modifies buf, mutex
    ensures forall k :: 0 <= k <= n ==> !buf[k] && !mutex[k]
    ensures forall k :: n < k < buf.Length ==> buf[k] == old(buf[k]) && mutex[k] == old(mutex[k])
  {
    mutex[n] := false;
    for j := 0 to n + 1
      invariant forall k :: 0 <= k < j ==> !buf[k] && !mutex[k]
      invariant !mutex[n]
      invariant forall k :: n < k < buf.Length ==> buf[k] == old(buf[k]) && mutex[k] == old(mutex[k])
    {
      buf[j] := false;
      if j < n {
        mutex[j] := false;
      }
    }
  }

  /** The rollback of audio_capture_deinit: every buffer and every mutex
      that exists is freed. */
  method FreeAll(buf: array<bool>, mutex: array<bool>)
    requires buf.Length == mutex.Length && buf != mutex
    modifies buf, mutex
    ensures forall k :: 0 <= k < buf.Length ==> !buf[k] && !mutex[k]
  {
    for i := 0 to buf.Length
      invariant forall k :: 0 <= k < i ==> !buf[k] && !mutex[k]
    {
      if buf[i] {
        buf[i] := false;
      }
      if mutex[i] {
        mutex[i] := false;
      }
    }
  }
}
