/** The N-buffer capture engine: six slots filled by the capture task,
    handed to the file-save task through a queue of slot indices, written to
    a rotating output file, and the start/stop controller around them.
    Each task step runs from one blocking point of its loop to the next. */
module Capture {
  import opened Esp
  import opened Rtos
  import opened Pool
  import Filename
  import opened Alloc

  /** AUDIO_BUFFER_SIZE: 32 KiB per slot. */
  const BufferSize: nat := 32 * 1024
  /** The handoff queue has room for 2 * NUM_BUFFERS indices. */
  const QueueLength: nat := 2 * NumBuffers
  /** The size of currentFilePath. */
  const PathBufferLen: nat := 128

  /** The path the file-save task opens, for a directory listing (None when
      the directory cannot be opened). */
  function SessionPath(dir: Option<seq<string>>): string {
    Filename.NextPath(dir, PathBufferLen)
  }

  class AudioCapture {
    /** The slots' ready flags and contents, and what has been written. */
    const pool: SlotPool
    /** buffer[i] != NULL */
    const bufAlloc: array<bool>
    /** mutex[i] != NULL */
    const mutexMade: array<bool>
    var activeBuffer: nat

    /** The capture task's local writePos. */
    var writePos: nat

    /** dataQueue: whether it exists, its capacity and the indices in it. */
    var queueMade: bool
    var queueCapacity: nat
    var queue: seq<nat>

    /** audioFile != NULL, and currentFilePath. */
    var fileOpen: bool
    var path: string

    var tasksRunning: bool
    /** audio_capture_start's static resources_initialized. */
    var resourcesInitialized: bool
    /** audioTaskHandle != NULL, fileTaskHandle != NULL */
    var audioHandle: bool
    var fileHandle: bool
    var audio: AudioTask
    var file: FileTask
    /** A notification given to the task and not yet taken. */
    var audioNotified: bool
    var fileNotified: bool

    /** The allocation arrays have one entry per slot and are distinct. */
    ghost predicate Shape() {
      && bufAlloc.Length == NumBuffers && mutexMade.Length == NumBuffers
      && bufAlloc != mutexMade && pool.ready != bufAlloc && pool.ready != mutexMade
    }

    ghost predicate Valid()
      reads this, pool, pool.ready, pool.content
    {
      && pool.Valid() && Shape()
      && activeBuffer < NumBuffers
      && writePos < BufferSize
      && (audio.Reading? ==> audio.slot < NumBuffers && !pool.ready[audio.slot])
      && (audioHandle <==> audio != AudioAbsent)
      && (fileHandle <==> file != FileAbsent)
      && (file == Serving || file == Waiting ==> fileOpen)
      && (audio != AudioAbsent || file != FileAbsent ==> resourcesInitialized)
      && (!resourcesInitialized ==> forall i :: 0 <= i < NumBuffers ==> !pool.ready[i])
    }

    /** No buffer, mutex or queue exists. */
    ghost predicate NothingAllocated()
      reads this`queueMade, bufAlloc, mutexMade
      requires bufAlloc.Length == NumBuffers && mutexMade.Length == NumBuffers
    {
      && !queueMade
      && (forall i :: 0 <= i < NumBuffers ==> !bufAlloc[i])
      && (forall i :: 0 <= i < NumBuffers ==> !mutexMade[i])
    }

    /** Every buffer, every mutex and the queue exist. */
    ghost predicate AllAllocated()
      reads this`queueMade, bufAlloc, mutexMade
      requires bufAlloc.Length == NumBuffers && mutexMade.Length == NumBuffers
    {
      && queueMade
      && (forall i :: 0 <= i < NumBuffers ==> bufAlloc[i])
      && (forall i :: 0 <= i < NumBuffers ==> mutexMade[i])
    }

    /** The static initial state: nothing allocated, no task, no slot ready. */
    constructor ()
      ensures Valid()
      ensures fresh(pool) && fresh(pool.ready) && fresh(pool.content) && fresh(bufAlloc) && fresh(mutexMade)
      ensures NothingAllocated() && forall i :: 0 <= i < NumBuffers ==> !pool.ready[i]
      ensures activeBuffer == 0 && writePos == 0 && queue == [] && pool.fills == 0 && pool.written == []
      ensures !fileOpen && !tasksRunning && !resourcesInitialized && !audioHandle && !fileHandle
      ensures audio == AudioAbsent && file == FileAbsent && !audioNotified && !fileNotified
    {
      pool := new SlotPool();
      bufAlloc := new bool[NumBuffers](_ => false);
      mutexMade := new bool[NumBuffers](_ => false);
      activeBuffer, writePos := 0, 0;
      queueMade, queueCapacity, queue := false, 0, [];
      fileOpen, path := false, "";
      tasksRunning, resourcesInitialized := false, false;
      audioHandle, fileHandle := false, false;
      audio, file := AudioAbsent, FileAbsent;
      audioNotified, fileNotified := false, false;
    }

    // -------------------------------------------------------------------
    // The slot protocol
    // -------------------------------------------------------------------

    /** Writes slot idx to the current file if it is a slot index and still
        ready, then frees it; any other index is only logged. */
    method Drain(idx: nat)
      requires Valid()
      modifies pool, pool.ready
      ensures Valid() && pool.fills == old(pool.fills)
      ensures idx < NumBuffers && old(pool.ready[idx]) ==>
        && pool.written == old(pool.written) + [Block(path, idx, pool.content[idx])]
        && pool.ready[..] == old(pool.ready[..])[idx := false]
      ensures !(idx < NumBuffers && old(pool.ready[idx])) ==>
        pool.written == old(pool.written) && pool.ready[..] == old(pool.ready[..])
    {
      if idx < NumBuffers && pool.ready[idx] {
        pool.Release(idx, path);
      }
    }

    // -------------------------------------------------------------------
    // The capture task
    // -------------------------------------------------------------------

    /** The capture task at the top of its loop. A pending stop notification
        is taken and the task suspends itself. Otherwise it takes the first
        usable slot in round-robin order from activeBuffer (lockOk[i] says
        whether the non-blocking take of slot i's mutex succeeds), makes it
        active and blocks in its read; without a usable slot it yields and
        stays at the top of the loop. */
    method ProducerSelect(lockOk: seq<bool>)
      requires Valid() && audio == Capturing && |lockOk| == NumBuffers
      modifies this`audio, this`audioNotified, this`activeBuffer
      ensures Valid() && !audioNotified
      ensures old(audioNotified) ==> audio == AudioParked && activeBuffer == old(activeBuffer)
      ensures !old(audioNotified) ==>
        match FirstUsable(old(activeBuffer), pool.ready[..], lockOk)
        case None => audio == Capturing && activeBuffer == old(activeBuffer)
        case Some(s) => audio == Reading(s) && activeBuffer == s
    {
      if audioNotified {
        audioNotified := false;
        audio := AudioParked;
        return;
      }
      var found := FindFreeSlot(activeBuffer, pool.ready[..], lockOk);
      if found.Some? {
        activeBuffer := found.value;
        audio := Reading(found.value);
      }
    }

    /** The read of the capture task that holds a slot: it asks for the room
        left in the slot (source answers). A failed or empty read changes
        nothing; a read that reaches the end of the slot marks it ready, gives
        it the next chunk serial, queues its index and resets writePos. Then
        the mutex is released and the task is back at the top of its loop. */
    method ProducerRead(source: Source)
      requires Valid() && audio.Reading?
      modifies this`audio, this`writePos, this`queue, pool, pool.ready, pool.content
      ensures Valid() && audio == Capturing && pool.written == old(pool.written)
      ensures
        var s := old(audio).slot;
        var got := source(BufferSize - old(writePos));
        if got.status != Ok || got.bytes == 0 then
          && writePos == old(writePos) && pool.fills == old(pool.fills) && queue == old(queue)
          && pool.ready[..] == old(pool.ready[..]) && pool.content[..] == old(pool.content[..])
        else if old(writePos) + got.bytes < BufferSize then
          && writePos == old(writePos) + got.bytes && pool.fills == old(pool.fills) && queue == old(queue)
          && pool.ready[..] == old(pool.ready[..]) && pool.content[..] == old(pool.content[..])
        else
          && writePos == 0 && pool.fills == old(pool.fills) + 1 && queue == old(queue) + [s]
          && pool.ready[..] == old(pool.ready[..])[s := true]
          && pool.content[..] == old(pool.content[..])[s := old(pool.fills)]
    {
      var bufferIndex := audio.slot;
      var result := source(BufferSize - writePos);
      audio := Capturing;
      if result.status == Ok && result.bytes > 0 {
        writePos := writePos + result.bytes;
        if writePos >= BufferSize {
          writePos := 0;
          pool.Complete(bufferIndex);
          queue := queue + [bufferIndex];
        }
      }
    }

    // -------------------------------------------------------------------
    // The file-save task
    // -------------------------------------------------------------------

    /** The file-save task opening its output file, when it starts and each
        time it is resumed: a fresh name from the directory listing dir, then
        fopen, which succeeds when fopenOk holds. On failure the task deletes
        itself; the statement after vTaskDelete(NULL) never runs, so
        fileTaskHandle stays set. */
    method ConsumerOpen(dir: Option<seq<string>>, fopenOk: bool)
      requires Valid() && file == Opening
      modifies this`path, this`fileOpen, this`file
      ensures Valid()
      ensures path == SessionPath(dir)
      ensures fopenOk ==> file == Serving && fileOpen
      ensures !fopenOk ==> file == Dead && !fileOpen
    {
      var status, generated := Filename.GenerateFilename(true, PathBufferLen, dir);
      path := generated;
      if fopenOk {
        fileOpen := true;
        file := Serving;
      } else {
        fileOpen := false;
        file := Dead;
      }
    }

    /** One step of the file-save task's loop. At the top of the loop a
        pending stop notification flushes every ready slot, closes the file
        and suspends the task. Otherwise the task takes the oldest queued
        index and drains it, or blocks in Waiting while the queue is empty; a
        blocked task does not look at notifications. */
    method ConsumerStep()
      requires Valid() && (file == Serving || file == Waiting)
      modifies this`fileNotified, this`file, this`fileOpen, this`queue, pool, pool.ready
      ensures Valid() && pool.fills == old(pool.fills)
      ensures old(file) == Serving && old(fileNotified) ==>
        && pool.written == old(pool.written) + FlushBlocks(path, old(pool.ready[..]), pool.content[..], NumBuffers)
        && (forall i :: 0 <= i < NumBuffers ==> !pool.ready[i])
        && (forall c :: 0 <= c < pool.fills ==> WrittenOut(pool.written, c))
        && queue == old(queue) && !fileOpen && file == FileParked && !fileNotified
      ensures !(old(file) == Serving && old(fileNotified)) ==>
        && fileNotified == old(fileNotified) && fileOpen == old(fileOpen)
        && (if old(queue) == [] then
              && file == Waiting && queue == []
              && pool.written == old(pool.written) && pool.ready[..] == old(pool.ready[..])
            else
              var idx := old(queue)[0];
              && file == Serving && queue == old(queue)[1..]
              && (if idx < NumBuffers && old(pool.ready[idx]) then
                    && pool.written == old(pool.written) + [Block(path, idx, pool.content[idx])]
                    && pool.ready[..] == old(pool.ready[..])[idx := false]
                  else
                    pool.written == old(pool.written) && pool.ready[..] == old(pool.ready[..])))
    {
      if file == Serving && fileNotified {
        fileNotified := false;
        pool.Flush(path);
        fileOpen := false;
        file := FileParked;
        return;
      }
      if queue == [] {
        file := Waiting;
        return;
      }
      var bufferIndex := queue[0];
      queue := queue[1..];
      file := Serving;
      Drain(bufferIndex);
    }

    // -------------------------------------------------------------------
    // Resources
    // -------------------------------------------------------------------

    /** audio_capture_init: the queue, then for each slot its buffer and its
        mutex, in that order; the outcome of each creation is an input. A
        failure undoes part of what was created: a buffer failure at slot f
        frees the buffers before f and leaves their mutexes; a mutex failure
        at f frees the buffers and the mutexes up to f. */
    method Init(queueOk: bool, bufOk: seq<bool>, mutexOk: seq<bool>) returns (r: Err)
      requires Shape() && pool.ready.Length == NumBuffers && forall i :: 0 <= i < NumBuffers ==> !pool.ready[i]
      requires |bufOk| == NumBuffers && |mutexOk| == NumBuffers
      modifies this`queueMade, this`queueCapacity, this`queue, this`activeBuffer, pool.ready, bufAlloc, mutexMade
      ensures pool.ready[..] == old(pool.ready[..])
      ensures !queueOk ==>
        && r == Fail && !queueMade && queue == old(queue) && activeBuffer == old(activeBuffer)
        && bufAlloc[..] == old(bufAlloc[..]) && mutexMade[..] == old(mutexMade[..])
      ensures queueOk && FirstFailure(bufOk, mutexOk, 0) == NumBuffers ==>
        && r == Ok && AllAllocated() && queueCapacity == QueueLength && queue == []
        && activeBuffer == 0 && forall i :: 0 <= i < NumBuffers ==> !pool.ready[i]
      ensures queueOk && FirstFailure(bufOk, mutexOk, 0) < NumBuffers ==>
        var f := FirstFailure(bufOk, mutexOk, 0);
        && r == NoMem && !queueMade && activeBuffer == old(activeBuffer)
        && (forall j :: 0 <= j <= f ==> !bufAlloc[j])
        && (forall j :: f < j < NumBuffers ==> bufAlloc[j] == old(bufAlloc[j]) && mutexMade[j] == old(mutexMade[j]))
        && (!bufOk[f] ==> (forall j :: 0 <= j < f ==> mutexMade[j]) && mutexMade[f] == old(mutexMade[f]))
        && (bufOk[f] ==> forall j :: 0 <= j <= f ==> !mutexMade[j])
    {
      if !queueOk {
        queueMade := false;
        return Fail;
      }
      queueMade, queueCapacity, queue := true, QueueLength, [];
      for i := 0 to NumBuffers
        invariant queueMade && queueCapacity == QueueLength && queue == []
        invariant activeBuffer == old(activeBuffer) && pool.ready[..] == old(pool.ready[..])
        invariant forall j :: 0 <= j < i ==> bufOk[j] && mutexOk[j] && bufAlloc[j] && mutexMade[j]
        invariant forall j :: i <= j < NumBuffers ==> bufAlloc[j] == old(bufAlloc[j]) && mutexMade[j] == old(mutexMade[j])
        invariant FirstFailure(bufOk, mutexOk, 0) == FirstFailure(bufOk, mutexOk, i)
      {
        if !bufOk[i] {
          FreeBuffersBefore(bufAlloc, i);
          queueMade := false;
          return NoMem;
        }
        bufAlloc[i] := true;
        if !mutexOk[i] {
          FreeSlotsThrough(bufAlloc, mutexMade, i);
          queueMade := false;
          return NoMem;
        }
        mutexMade[i] := true;
        pool.ready[i] := false;
        assert pool.ready[..] == old(pool.ready[..]);
      }
      activeBuffer := 0;
      return Ok;
    }

    /** audio_capture_deinit: frees every buffer and mutex, deletes the queue
        and closes the file. */
    method Deinit()
      requires Shape()
      modifies this`queueMade, this`fileOpen, bufAlloc, mutexMade
      ensures NothingAllocated() && !fileOpen
    {
      FreeAll(bufAlloc, mutexMade);
      if queueMade {
        queueMade := false;
      }
      if fileOpen {
        fileOpen := false;
      }
    }

    // -------------------------------------------------------------------
    // The controller
    // -------------------------------------------------------------------

    /** The running branch of audio_capture_start: a suspended capture task
        is resumed, and the file-save task with it when that one is suspended
        too; nothing is allocated. */
    method Resume()
      requires Valid() && tasksRunning
      modifies this`audio, this`file
      ensures Valid()
      ensures if old(audioHandle) && old(audio) == AudioParked then
                audio == Capturing && file == (if old(file) == FileParked then Opening else old(file))
              else
                audio == old(audio) && file == old(file)
    {
      if audioHandle && audio == AudioParked {
        audio := Capturing;
        if file == FileParked {
          file := Opening;
        }
      }
    }

    /** The clean-up of audio_capture_start when task handles exist although
        the tasks are not marked running: both tasks are deleted. */
    method DeleteStrayTasks()
      requires Valid() && !tasksRunning
      modifies this`audio, this`audioHandle, this`audioNotified, this`file, this`fileHandle, this`fileNotified
      ensures Valid() && audio == AudioAbsent && file == FileAbsent && !audioHandle && !fileHandle
      ensures audioNotified == (old(audioNotified) && !old(audioHandle))
      ensures fileNotified == (old(fileNotified) && !old(fileHandle))
    {
      if audioHandle || fileHandle {
        if audioHandle {
          audio, audioHandle, audioNotified := AudioAbsent, false, false;
        }
        if fileHandle {
          file, fileHandle, fileNotified := FileAbsent, false, false;
        }
      }
    }

    /** The first-start branch of audio_capture_start: init, then the two
        tasks; a failure releases everything and leaves the engine idle. */
    method Launch(queueOk: bool, bufOk: seq<bool>, mutexOk: seq<bool>, audioTaskOk: bool, fileTaskOk: bool)
        returns (r: Err)
      requires Valid() && !resourcesInitialized && !tasksRunning && audio == AudioAbsent && file == FileAbsent
      requires |bufOk| == NumBuffers && |mutexOk| == NumBuffers
      modifies this`tasksRunning, this`resourcesInitialized, this`audioHandle, this`fileHandle
      modifies this`audio, this`file, this`audioNotified, this`fileNotified, this`writePos
      modifies this`queueMade, this`queueCapacity, this`queue, this`activeBuffer, this`fileOpen
      modifies pool.ready, bufAlloc, mutexMade
      ensures Valid() && pool.ready[..] == old(pool.ready[..])
      ensures
        var complete := queueOk && FirstFailure(bufOk, mutexOk, 0) == NumBuffers;
        && (!queueOk ==> r == Fail)
        && (queueOk && !complete ==> r == NoMem)
        && (complete && !(audioTaskOk && fileTaskOk) ==> r == NoMem)
        && (complete && audioTaskOk && fileTaskOk ==>
              && r == Ok && tasksRunning && resourcesInitialized && AllAllocated()
              && queue == [] && queueCapacity == QueueLength && activeBuffer == 0 && writePos == 0
              && audio == Capturing && file == Opening && !audioNotified && !fileNotified)
        && (r != Ok ==>
              && !tasksRunning && !resourcesInitialized && NothingAllocated() && !fileOpen
              && audio == AudioAbsent && file == FileAbsent)
    {
      r := Init(queueOk, bufOk, mutexOk);
      if r != Ok {
        Deinit();
        return r;
      }
      r := Spawn(audioTaskOk, fileTaskOk);
    }

    /** The task creation of audio_capture_start after a successful init: the
        capture task, then the file-save task. When the first cannot be
        created, everything is released; when the second cannot, the first is
        deleted and everything is released. */
    method Spawn(audioTaskOk: bool, fileTaskOk: bool) returns (r: Err)
      requires Valid() && !resourcesInitialized && !tasksRunning && audio == AudioAbsent && file == FileAbsent
      modifies this`tasksRunning, this`resourcesInitialized, this`audioHandle, this`fileHandle
      modifies this`audio, this`file, this`audioNotified, this`fileNotified, this`writePos
      modifies this`queueMade, this`fileOpen, bufAlloc, mutexMade
      ensures Valid() && tasksRunning == (r == Ok)
      ensures audioTaskOk && fileTaskOk ==>
        && r == Ok && tasksRunning && resourcesInitialized && writePos == 0
        && audio == Capturing && file == Opening && !audioNotified && !fileNotified
        && queueMade == old(queueMade) && unchanged(bufAlloc, mutexMade)
      ensures !(audioTaskOk && fileTaskOk) ==>
        && r == NoMem && !tasksRunning && !resourcesInitialized && NothingAllocated() && !fileOpen
        && audio == AudioAbsent && file == FileAbsent
    {
      if !(audioTaskOk && fileTaskOk) {
        Abandon();
        return NoMem;
      }
      Run();
      return Ok;
    }

    /** Both tasks exist: the capture task at the top of its loop with
        writePos 0, the file-save task about to open its file. */
    method Run()
      requires Valid() && audio == AudioAbsent && file == FileAbsent
      modifies this`tasksRunning, this`resourcesInitialized, this`audioHandle, this`fileHandle
      modifies this`audio, this`file, this`audioNotified, this`fileNotified, this`writePos
      ensures Valid() && tasksRunning && resourcesInitialized && writePos == 0
      ensures audio == Capturing && file == Opening && !audioNotified && !fileNotified
    {
      audio, audioHandle, audioNotified, writePos := Capturing, true, false, 0;
      file, fileHandle, fileNotified := Opening, true, false;
      resourcesInitialized, tasksRunning := true, true;
    }

    /** The clean-up when a task cannot be created: deinit, and the
        resources count as not initialized. */
    method Abandon()
      requires Valid() && audio == AudioAbsent && file == FileAbsent
      requires forall i :: 0 <= i < NumBuffers ==> !pool.ready[i]
      modifies this`queueMade, this`fileOpen, this`resourcesInitialized, bufAlloc, mutexMade
      ensures Valid() && NothingAllocated() && !fileOpen && !resourcesInitialized
    {
      Deinit();
      resourcesInitialized := false;
    }

    /** audio_capture_start; the outcome of every creation (the queue, each
        buffer and mutex, each task) is an input. While running it only
        resumes suspended tasks and allocates nothing. Otherwise stray task
        handles are deleted first; if the resources were initialized by an
        earlier start nothing more happens; else everything is allocated and
        both tasks are created, and a failure releases everything allocated
        so far. */
    method Start(queueOk: bool, bufOk: seq<bool>, mutexOk: seq<bool>, audioTaskOk: bool, fileTaskOk: bool)
        returns (r: Err)
      requires Valid() && |bufOk| == NumBuffers && |mutexOk| == NumBuffers
      modifies this`tasksRunning, this`resourcesInitialized, this`audioHandle, this`fileHandle
      modifies this`audio, this`file, this`audioNotified, this`fileNotified, this`writePos
      modifies this`queueMade, this`queueCapacity, this`queue, this`activeBuffer, this`fileOpen
      modifies pool.ready, bufAlloc, mutexMade
      ensures Valid() && pool.ready[..] == old(pool.ready[..])
      ensures old(tasksRunning) ==>
        && r == Ok && tasksRunning && queue == old(queue)
        && queueMade == old(queueMade) && queueCapacity == old(queueCapacity) && unchanged(bufAlloc, mutexMade)
        && activeBuffer == old(activeBuffer) && writePos == old(writePos) && fileOpen == old(fileOpen)
        && resourcesInitialized == old(resourcesInitialized)
        && audioHandle == old(audioHandle) && fileHandle == old(fileHandle)
        && audioNotified == old(audioNotified) && fileNotified == old(fileNotified)
        && (if old(audioHandle) && old(audio) == AudioParked then
              audio == Capturing && file == (if old(file) == FileParked then Opening else old(file))
            else
              audio == old(audio) && file == old(file))
      ensures !old(tasksRunning) && old(resourcesInitialized) ==>
        && r == Ok && resourcesInitialized && !tasksRunning && queue == old(queue)
        && queueMade == old(queueMade) && queueCapacity == old(queueCapacity) && unchanged(bufAlloc, mutexMade)
        && activeBuffer == old(activeBuffer) && writePos == old(writePos) && fileOpen == old(fileOpen)
        && !audioHandle && !fileHandle && audio == AudioAbsent && file == FileAbsent
      ensures !old(tasksRunning) && !old(resourcesInitialized) ==>
        var complete := queueOk && FirstFailure(bufOk, mutexOk, 0) == NumBuffers;
        && (!queueOk ==> r == Fail)
        && (queueOk && !complete ==> r == NoMem)
        && (complete && !(audioTaskOk && fileTaskOk) ==> r == NoMem)
        && (complete && audioTaskOk && fileTaskOk ==>
              && r == Ok && tasksRunning && resourcesInitialized && AllAllocated()
              && queue == [] && queueCapacity == QueueLength && activeBuffer == 0 && writePos == 0
              && audio == Capturing && file == Opening && !audioNotified && !fileNotified && IsRunning())
        && (r != Ok ==>
              && !tasksRunning && !resourcesInitialized && NothingAllocated() && !fileOpen
              && audio == AudioAbsent && file == FileAbsent)
    {
      if tasksRunning {
        Resume();
        return Ok;
      }
      DeleteStrayTasks();
      if !resourcesInitialized {
        r := Launch(queueOk, bufOk, mutexOk, audioTaskOk, fileTaskOk);
        return r;
      }
      return Ok;
    }

    /** audio_capture_stop up to its wait: OK at once when not running (and
        clearing tasksRunning when a task handle is missing); otherwise both
        tasks are notified, and None means the answer comes from StopConfirm
        once the tasks have had their time to react. */
    method StopNotify() returns (r: Option<Err>)
      requires Valid()
      modifies this`tasksRunning, this`audioNotified, this`fileNotified
      ensures Valid()
      ensures !old(tasksRunning) ==>
        r == Some(Ok) && !tasksRunning && audioNotified == old(audioNotified) && fileNotified == old(fileNotified)
      ensures old(tasksRunning) && !(audioHandle && fileHandle) ==>
        r == Some(Ok) && !tasksRunning && audioNotified == old(audioNotified) && fileNotified == old(fileNotified)
      ensures old(tasksRunning) && audioHandle && fileHandle ==>
        r == None && tasksRunning && audioNotified && fileNotified
    {
      if !tasksRunning {
        return Some(Ok);
      }
      if !audioHandle || !fileHandle {
        tasksRunning := false;
        return Some(Ok);
      }
      audioNotified, fileNotified := true, true;
      return None;
    }

    /** audio_capture_stop after its wait: OK exactly when both tasks are
        suspended, FAIL otherwise; tasksRunning stays set either way. */
    method StopConfirm() returns (r: Err)
      requires Valid() && tasksRunning && audioHandle && fileHandle
      ensures r == Ok <==> audio == AudioParked && file == FileParked
      ensures r == Ok || r == Fail
      ensures r == Ok ==> !IsRunning()
    {
      if audio != AudioParked || file != FileParked {
        return Fail;
      }
      return Ok;
    }

    /** audio_capture_is_running: running, both handles set and the capture
        task not suspended (AudioParked is eSuspended). Where each handle is
        set exactly when its task exists, as Valid keeps it, that is: the
        running flag, a file task, and a capture task that is live. */
    predicate IsRunning(): (r: bool)
      reads this
      ensures (audioHandle <==> audio != AudioAbsent) && (fileHandle <==> file != FileAbsent) ==>
        (r <==> tasksRunning && file != FileAbsent && (audio == Capturing || audio.Reading?))
    {
      tasksRunning && audioHandle && fileHandle && audio != AudioParked
    }
  }

  /** Two starts in a row: the first allocates everything and starts both
      tasks; the second, whatever its creations would return, answers OK,
      creates nothing new and leaves the engine running. */
  method StartTwice(queueOk: bool, bufOk: seq<bool>, mutexOk: seq<bool>, audioTaskOk: bool, fileTaskOk: bool)
      returns (e: AudioCapture, first: Err, second: Err)
    requires |bufOk| == NumBuffers && |mutexOk| == NumBuffers
    ensures first == Ok && second == Ok
    ensures e.Valid() && e.AllAllocated() && e.queueCapacity == QueueLength && e.queue == []
    ensures e.IsRunning() && e.audio == Capturing && e.file == Opening
  {
    e := new AudioCapture();
    var all := seq(NumBuffers, _ => true);
    assert FirstFailure(all, all, 0) == NumBuffers;
    first := e.Start(true, all, all, true, true);
    second := e.Start(queueOk, bufOk, mutexOk, audioTaskOk, fileTaskOk);
  }

  /** A read that fills the whole request. */
  function FullRead(n: nat): (r: ReadResult)
    ensures r.status == Ok && r.bytes == n
  {
    ReadResult(Ok, n)
  }

  /** A first start on which every creation succeeds, followed by the
      file-save task's first open. */
  method Started() returns (e: AudioCapture)
    ensures fresh(e) && fresh(e.pool) && fresh(e.pool.ready) && fresh(e.pool.content)
    ensures fresh(e.bufAlloc) && fresh(e.mutexMade)
    ensures e.Valid() && e.tasksRunning && e.audioHandle && e.fileHandle
    ensures e.audio == Capturing && e.file == Serving && !e.audioNotified && !e.fileNotified
    ensures e.activeBuffer == 0 && e.pool.ready[..] == seq(NumBuffers, _ => false)
  {
    e := new AudioCapture();
    var all := seq(NumBuffers, _ => true);
    assert FirstFailure(all, all, 0) == NumBuffers;
    var started := e.Start(true, all, all, true, true);
    e.ConsumerOpen(Some([]), true);
    assert e.pool.ready[..] == seq(NumBuffers, _ => false);
  }

  /** A started engine whose capture task is reading into slot 0 and
      whose file task has just flushed an empty pool and suspended, both
      after a stop notification. */
  method StopDuringRead() returns (e: AudioCapture)
    ensures fresh(e) && fresh(e.pool) && fresh(e.pool.ready) && fresh(e.pool.content)
    ensures fresh(e.bufAlloc) && fresh(e.mutexMade)
    ensures e.Valid() && e.tasksRunning && e.audioHandle && e.fileHandle
    ensures e.audio == Reading(0) && e.audioNotified && e.file == FileParked
  {
    e := Started();
    var all := seq(NumBuffers, _ => true);
    FirstUsableSpec(0, e.pool.ready[..], all);
    assert Usable(e.pool.ready[..], all, Probe(0, 0));
    e.ProducerSelect(all);
    var notified := e.StopNotify();
    e.ConsumerStep();
  }

  /** A stop that confirms with a chunk still pending: the file task's flush
      skipped slot 0 because the capture task was still reading into it; the
      read then completes the slot, and the capture task suspends. The chunk
      stays in its ready slot, outside every file, until a later session
      drains it. */
  method StopLeavesPending() returns (e: AudioCapture, r: Err)
    ensures r == Ok && e.Valid() && e.pool.ready[0]
    ensures !WrittenOut(e.pool.written, e.pool.content[0])
  {
    e := StopDuringRead();
    e.ProducerRead(FullRead);
    assert e.pool.ready[..][0];
    e.ProducerSelect(seq(NumBuffers, _ => true));
    r := e.StopConfirm();
    assert e.pool.ready[..][0];
    PendingNotWritten(e.pool.loc, e.pool.written, e.pool.ready[..], e.pool.content[..], 0);
  }

  /** Two stops in a row both answer OK. The second notifies the suspended
      tasks again, and neither notification is taken. */
  method StopTwice() returns (e: AudioCapture, first: Err, second: Err)
    ensures fresh(e) && fresh(e.pool) && fresh(e.pool.ready) && fresh(e.pool.content)
    ensures fresh(e.bufAlloc) && fresh(e.mutexMade)
    ensures e.Valid() && e.tasksRunning && e.audioHandle && e.fileHandle
    ensures first == Ok && second == Ok
    ensures e.audio == AudioParked && e.file == FileParked && e.audioNotified && e.fileNotified
  {
    e := new AudioCapture();
    var all := seq(NumBuffers, _ => true);
    assert FirstFailure(all, all, 0) == NumBuffers;
    var started := e.Start(true, all, all, true, true);
    e.ConsumerOpen(Some([]), true);
    var notified := e.StopNotify();
    e.ProducerSelect(all);
    e.ConsumerStep();
    first := e.StopConfirm();
    notified := e.StopNotify();
    second := e.StopConfirm();
  }

  /** The start after two stops resumes both tasks, but the notifications
      the second stop left pending are taken at the tasks' first check: the
      file task opens a new file and suspends again, and so does the capture
      task, while the engine still counts as started. */
  method RestartAfterStopTwice() returns (e: AudioCapture, r: Err)
    ensures r == Ok && e.tasksRunning
    ensures e.audio == AudioParked && e.file == FileParked && !e.IsRunning()
  {
    var first, second;
    e, first, second := StopTwice();
    var all := seq(NumBuffers, _ => true);
    r := e.Start(true, all, all, true, true);
    e.ConsumerOpen(Some([]), true);
    e.ConsumerStep();
    e.ProducerSelect(all);
  }
}
