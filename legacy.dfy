/** The legacy double-buffer capture engine: two 96 KiB buffers filled in
    turn by the capture task, a single readyBuffer index, a queue of buffer
    indices to the file-save task, and one fixed output file that every open
    truncates. Each task step runs from one blocking point of its loop to the
    next. A buffer's contents are the serial number of the chunk last
    completed in it. */
module Legacy {
  import opened Esp
  import opened Rtos
  import opened Alloc

  /** AUDIO_BUFFER_SIZE: 96 KiB per buffer. */
  const BufferSize: nat := 96 * 1024
  /** The two buffers of the double buffer. */
  const Slots: nat := 2
  /** The handoff queue has room for 10 indices. */
  const QueueLength: nat := 10
  /** AUDIO_FILE_PATH, opened in "wb" mode on every open. */
  const FilePath: string := "/sdcard/audio.bin"

  /** activeBuffer ^= 1 on a buffer index. */
  function Other(b: nat): (o: nat)
    requires b < Slots
    ensures o < Slots && o != b
  {
    if b == 0 then 1 else 0
  }

  class DoubleBuffer {
    /** buffer[i] != NULL */
    const bufAlloc: array<bool>
    /** mutex[i] != NULL */
    const mutexMade: array<bool>
    var activeBuffer: nat
    /** The buffer last completed, or -1 for none. */
    var readyBuffer: int
    var writePos: nat
    /** The serial number of the chunk each buffer holds, and the number of
        chunks completed so far. */
    var content: seq<nat>
    var fills: nat

    /** dataQueue: whether it exists, its capacity and the indices in it. */
    var queueMade: bool
    var queueCapacity: nat
    var queue: seq<nat>

    /** audioFile != NULL, and the chunks written to FilePath since it was
        last opened. */
    var fileOpen: bool
    var saved: seq<nat>

    var tasksRunning: bool
    /** audio_capture_start's static resources_initialized. */
    var resourcesInitialized: bool
    /** audioTaskHandle != NULL, fileTaskHandle != NULL */
    var audioHandle: bool
    var fileHandle: bool
    var audio: AudioTask
    var file: FileTask
    /** A notification given to the task and not yet taken. */
    var audioNotified: bool
    var fileNotified: bool

    /** The allocation arrays have one entry per buffer and are distinct. */
    ghost predicate Shape() {
      bufAlloc.Length == Slots && mutexMade.Length == Slots && bufAlloc != mutexMade
    }

    ghost predicate Valid()
      reads this
    {
      && Shape() && |content| == Slots
      && activeBuffer < Slots
      && -1 <= readyBuffer < Slots as int
      && writePos < BufferSize
      && (forall k :: 0 <= k < |queue| ==> queue[k] < Slots)
      && !audio.Reading?
      && (audioHandle <==> audio != AudioAbsent)
      && (fileHandle <==> file != FileAbsent)
      && (file == Serving || file == Waiting ==> fileOpen)
    }

    /** No buffer, mutex or queue exists. */
    ghost predicate NothingAllocated()
      reads this`queueMade, bufAlloc, mutexMade
      requires Shape()
    {
      && !queueMade
      && (forall i :: 0 <= i < Slots ==> !bufAlloc[i])
      && (forall i :: 0 <= i < Slots ==> !mutexMade[i])
    }

    /** Every buffer, every mutex and the queue exist. */
    ghost predicate AllAllocated()
      reads this`queueMade, bufAlloc, mutexMade
      requires Shape()
    {
      && queueMade
      && (forall i :: 0 <= i < Slots ==> bufAlloc[i])
      && (forall i :: 0 <= i < Slots ==> mutexMade[i])
    }

    /** The static initial audioBuffer: nothing allocated, activeBuffer 0,
        readyBuffer -1, writePos 0, no task. */
    constructor ()
      ensures Valid() && fresh(bufAlloc) && fresh(mutexMade) && NothingAllocated()
      ensures activeBuffer == 0 && readyBuffer == -1 && writePos == 0 && fills == 0
      ensures queue == [] && saved == [] && !fileOpen
      ensures !tasksRunning && !resourcesInitialized && !audioHandle && !fileHandle
      ensures audio == AudioAbsent && file == FileAbsent && !audioNotified && !fileNotified
    {
      bufAlloc := new bool[Slots](_ => false);
      mutexMade := new bool[Slots](_ => false);
      activeBuffer, readyBuffer, writePos := 0, -1, 0;
      content, fills := [0, 0], 0;
      queueMade, queueCapacity, queue := false, 0, [];
      fileOpen, saved := false, [];
      tasksRunning, resourcesInitialized := false, false;
      audioHandle, fileHandle := false, false;
      audio, file := AudioAbsent, FileAbsent;
      audioNotified, fileNotified := false, false;
    }

    // -------------------------------------------------------------------
    // The capture task
    // -------------------------------------------------------------------

    /** One pass of the capture task's loop. A pending stop notification is
        taken and the task suspends itself. Otherwise it takes the active
        buffer's mutex (a blocking take) and asks source for the room left in
        it. A failed or empty read changes nothing; a read that reaches the
        end of the buffer resets writePos, makes that buffer readyBuffer (over
        whatever readyBuffer held), switches activeBuffer to the other buffer
        and queues the completed index. readyBuffer is never consulted. */
    method ProducerStep(source: Source)
      requires Valid() && audio == Capturing
      modifies this`audio, this`audioNotified, this`writePos, this`readyBuffer, this`activeBuffer
      modifies this`content, this`fills, this`queue
      ensures Valid() && !audioNotified
      ensures old(audioNotified) ==>
        && audio == AudioParked && writePos == old(writePos) && readyBuffer == old(readyBuffer)
        && activeBuffer == old(activeBuffer) && queue == old(queue) && content == old(content) && fills == old(fills)
      ensures !old(audioNotified) ==>
        var b := old(activeBuffer);
        var got := source(BufferSize - old(writePos));
        && audio == Capturing
        && if got.status != Ok || got.bytes == 0 then
             && writePos == old(writePos) && readyBuffer == old(readyBuffer) && activeBuffer == b
             && queue == old(queue) && content == old(content) && fills == old(fills)
           else if old(writePos) + got.bytes < BufferSize then
             && writePos == old(writePos) + got.bytes && readyBuffer == old(readyBuffer) && activeBuffer == b
             && queue == old(queue) && content == old(content) && fills == old(fills)
           else
             && writePos == 0 && readyBuffer == b && activeBuffer == Other(b)
             && queue == old(queue) + [b] && content == old(content)[b := old(fills)] && fills == old(fills) + 1
    {
      if audioNotified {
        audioNotified := false;
        audio := AudioParked;
        return;
      }
      var bufferIndex := activeBuffer;
      var result := source(BufferSize - writePos);
      if result.status == Ok && result.bytes > 0 {
        writePos := writePos + result.bytes;
        if writePos >= BufferSize {
          writePos := 0;
          readyBuffer := bufferIndex;
          activeBuffer := Other(activeBuffer);
          content, fills := content[bufferIndex := fills], fills + 1;
          queue := queue + [bufferIndex];
        }
      }
    }

    // -------------------------------------------------------------------
    // The file-save task
    // -------------------------------------------------------------------

    /** The file-save task opening FilePath in "wb" mode, when it starts and
        each time it is resumed: a successful open truncates the file, so the
        previous session's chunks are gone. On failure the task deletes
        itself; the statement after vTaskDelete(NULL) never runs, so
        fileTaskHandle stays set. */
    method ConsumerOpen(fopenOk: bool)
      requires Valid() && file == Opening
      modifies this`fileOpen, this`file, this`saved
      ensures Valid()
      ensures fopenOk ==> file == Serving && fileOpen && saved == []
      ensures !fopenOk ==> file == Dead && !fileOpen && saved == old(saved)
    {
      if fopenOk {
        fileOpen, saved := true, [];
        file := Serving;
      } else {
        fileOpen := false;
        file := Dead;
      }
    }

    /** One step of the file-save task's loop. At the top of the loop a
        pending stop notification writes readyBuffer if it is not -1, resets
        it, closes the file and suspends the task. Otherwise the task takes
        the oldest queued index and writes that buffer whatever readyBuffer
        says, then resets readyBuffer; or it blocks in Waiting while the
        queue is empty. */
    method ConsumerStep()
      requires Valid() && (file == Serving || file == Waiting)
      modifies this`fileNotified, this`file, this`fileOpen, this`queue, this`readyBuffer, this`saved
      ensures Valid()
      ensures old(file) == Serving && old(fileNotified) ==>
        && saved == old(saved) + (if old(readyBuffer) == -1 then [] else [content[old(readyBuffer)]])
        && readyBuffer == -1 && queue == old(queue) && !fileOpen && file == FileParked && !fileNotified
      ensures !(old(file) == Serving && old(fileNotified)) ==>
        && fileNotified == old(fileNotified) && fileOpen == old(fileOpen)
        && if old(queue) == [] then
             file == Waiting && queue == [] && saved == old(saved) && readyBuffer == old(readyBuffer)
           else
             && file == Serving && queue == old(queue)[1..]
             && saved == old(saved) + [content[old(queue)[0]]] && readyBuffer == -1
    {
      if file == Serving && fileNotified {
        fileNotified := false;
        if readyBuffer != -1 {
          saved := saved + [content[readyBuffer]];
          readyBuffer := -1;
        }
        fileOpen := false;
        file := FileParked;
        return;
      }
      if queue == [] {
        file := Waiting;
        return;
      }
      var bufferIndex := queue[0];
      queue := queue[1..];
      file := Serving;
      saved := saved + [content[bufferIndex]];
      readyBuffer := -1;
    }

    // -------------------------------------------------------------------
    // Resources
    // -------------------------------------------------------------------

    /** audio_capture_init: the queue, then for each buffer the buffer and
        its mutex; the outcome of each creation is an input. A buffer failure
        at f frees the buffers before f and leaves their mutexes; a mutex
        failure at f frees the buffers and the mutexes up to f. On success
        activeBuffer is 0, readyBuffer -1 and writePos 0. */
    method Init(queueOk: bool, bufOk: seq<bool>, mutexOk: seq<bool>) returns (r: Err)
      requires Shape() && |bufOk| == Slots && |mutexOk| == Slots
      modifies this`queueMade, this`queueCapacity, this`queue, this`activeBuffer, this`readyBuffer, this`writePos
      modifies bufAlloc, mutexMade
      ensures !queueOk ==>
        && r == Fail && !queueMade && queue == old(queue)
        && activeBuffer == old(activeBuffer) && readyBuffer == old(readyBuffer) && writePos == old(writePos)
        && bufAlloc[..] == old(bufAlloc[..]) && mutexMade[..] == old(mutexMade[..])
      ensures queueOk && FirstFailure(bufOk, mutexOk, 0) == Slots ==>
        && r == Ok && AllAllocated() && queueCapacity == QueueLength && queue == []
        && activeBuffer == 0 && readyBuffer == -1 && writePos == 0
      ensures queueOk && FirstFailure(bufOk, mutexOk, 0) < Slots ==>
        var f := FirstFailure(bufOk, mutexOk, 0);
        && r == NoMem && !queueMade && queue == []
        && activeBuffer == old(activeBuffer) && readyBuffer == old(readyBuffer) && writePos == old(writePos)
        && (forall j :: 0 <= j <= f ==> !bufAlloc[j])
        && (forall j :: f < j < Slots ==> bufAlloc[j] == old(bufAlloc[j]) && mutexMade[j] == old(mutexMade[j]))
        && (!bufOk[f] ==> (forall j :: 0 <= j < f ==> mutexMade[j]) && mutexMade[f] == old(mutexMade[f]))
        && (bufOk[f] ==> forall j :: 0 <= j <= f ==> !mutexMade[j])
    {
      if !queueOk {
        queueMade := false;
        return Fail;
      }
      queueMade, queueCapacity, queue := true, QueueLength, [];
      for i := 0 to Slots
        invariant queueMade && queueCapacity == QueueLength && queue == []
        invariant activeBuffer == old(activeBuffer) && readyBuffer == old(readyBuffer) && writePos == old(writePos)
        invariant forall j :: 0 <= j < i ==> bufOk[j] && mutexOk[j] && bufAlloc[j] && mutexMade[j]
        invariant forall j :: i <= j < Slots ==> bufAlloc[j] == old(bufAlloc[j]) && mutexMade[j] == old(mutexMade[j])
        invariant FirstFailure(bufOk, mutexOk, 0) == FirstFailure(bufOk, mutexOk, i)
      {
        if !bufOk[i] {
          FreeBuffersBefore(bufAlloc, i);
          queueMade := false;
          return NoMem;
        }
        bufAlloc[i] := true;
        if !mutexOk[i] {
          FreeSlotsThrough(bufAlloc, mutexMade, i);
          queueMade := false;
          return NoMem;
        }
        mutexMade[i] := true;
      }
      activeBuffer, readyBuffer, writePos := 0, -1, 0;
      return Ok;
    }

    /** audio_capture_deinit: frees every buffer and mutex, deletes the queue
        and closes the file. */
    method Deinit()
      requires Shape()
      modifies this`queueMade, this`fileOpen, bufAlloc, mutexMade
      ensures NothingAllocated() && !fileOpen
    {
      FreeAll(bufAlloc, mutexMade);
      if queueMade {
        queueMade := false;
      }
      if fileOpen {
        fileOpen := false;
      }
    }

    // -------------------------------------------------------------------
    // The controller
    // -------------------------------------------------------------------

    /** The running branch of audio_capture_start: a suspended capture task
        is resumed, and the file-save task with it when that one is suspended
        too; nothing is allocated. */
    method Resume()
      requires Valid() && tasksRunning
      modifies this`audio, this`file
      ensures Valid()
      ensures if old(audioHandle) && old(audio) == AudioParked then
                audio == Capturing && file == (if old(file) == FileParked then Opening else old(file))
              else
                audio == old(audio) && file == old(file)
    {
      if audioHandle && audio == AudioParked {
        audio := Capturing;
        if file == FileParked {
          file := Opening;
        }
      }
    }

    /** The clean-up of audio_capture_start when task handles exist although
        the tasks are not marked running: both tasks are deleted. */
    method DeleteStrayTasks()
      requires Valid() && !tasksRunning
      modifies this`audio, this`audioHandle, this`audioNotified, this`file, this`fileHandle, this`fileNotified
      ensures Valid() && audio == AudioAbsent && file == FileAbsent && !audioHandle && !fileHandle
      ensures audioNotified == (old(audioNotified) && !old(audioHandle))
      ensures fileNotified == (old(fileNotified) && !old(fileHandle))
    {
      if audioHandle || fileHandle {
        if audioHandle {
          audio, audioHandle, audioNotified := AudioAbsent, false, false;
        }
        if fileHandle {
          file, fileHandle, fileNotified := FileAbsent, false, false;
        }
      }
    }

    /** The first-start branch of audio_capture_start: init, then the two
        tasks; a failure releases everything and leaves the engine idle. */
    method Launch(queueOk: bool, bufOk: seq<bool>, mutexOk: seq<bool>, audioTaskOk: bool, fileTaskOk: bool)
        returns (r: Err)
      requires Valid() && !resourcesInitialized && !tasksRunning && audio == AudioAbsent && file == FileAbsent
      requires |bufOk| == Slots && |mutexOk| == Slots
      modifies this`tasksRunning, this`resourcesInitialized, this`audioHandle, this`fileHandle
      modifies this`audio, this`file, this`audioNotified, this`fileNotified
      modifies this`queueMade, this`queueCapacity, this`queue, this`activeBuffer, this`readyBuffer
      modifies this`writePos, this`fileOpen, bufAlloc, mutexMade
      ensures Valid()
      ensures
        var complete := queueOk && FirstFailure(bufOk, mutexOk, 0) == Slots;
        && (!queueOk ==> r == Fail)
        && (queueOk && !complete ==> r == NoMem)
        && (complete && !(audioTaskOk && fileTaskOk) ==> r == NoMem)
        && (complete && audioTaskOk && fileTaskOk ==>
              && r == Ok && tasksRunning && resourcesInitialized && AllAllocated()
              && queue == [] && queueCapacity == QueueLength
              && activeBuffer == 0 && readyBuffer == -1 && writePos == 0
              && audio == Capturing && file == Opening && !audioNotified && !fileNotified)
        && (r != Ok ==>
              && !tasksRunning && !resourcesInitialized && NothingAllocated() && !fileOpen
              && audio == AudioAbsent && file == FileAbsent)
    {
      r := Init(queueOk, bufOk, mutexOk);
      if r != Ok {
        Deinit();
        return r;
      }
      r := Spawn(audioTaskOk, fileTaskOk);
    }

    /** The task creation of audio_capture_start after a successful init: the
        capture task, then the file-save task. When either cannot be created,
        the capture task (if it was created) is deleted and everything is
        released. */
    method Spawn(audioTaskOk: bool, fileTaskOk: bool) returns (r: Err)
      requires Valid() && !resourcesInitialized && !tasksRunning && audio == AudioAbsent && file == FileAbsent
      modifies this`tasksRunning, this`resourcesInitialized, this`audioHandle, this`fileHandle
      modifies this`audio, this`file, this`audioNotified, this`fileNotified
      modifies this`queueMade, this`fileOpen, bufAlloc, mutexMade
      ensures Valid() && tasksRunning == (r == Ok)
      ensures audioTaskOk && fileTaskOk ==>
        && r == Ok && resourcesInitialized
        && audio == Capturing && file == Opening && !audioNotified && !fileNotified
        && queueMade == old(queueMade) && unchanged(bufAlloc, mutexMade)
      ensures !(audioTaskOk && fileTaskOk) ==>
        && r == NoMem && !resourcesInitialized && NothingAllocated() && !fileOpen
        && audio == AudioAbsent && file == FileAbsent
    {
      if !(audioTaskOk && fileTaskOk) {
        Deinit();
        resourcesInitialized := false;
        return NoMem;
      }
      audio, audioHandle, audioNotified := Capturing, true, false;
      file, fileHandle, fileNotified := Opening, true, false;
      resourcesInitialized, tasksRunning := true, true;
      return Ok;
    }

    /** audio_capture_start; the outcome of every creation (the queue, each
        buffer and mutex, each task) is an input. While running it only
        resumes suspended tasks and allocates nothing. Otherwise stray task
        handles are deleted first; if the resources were initialized by an
        earlier start nothing more happens; else everything is allocated and
        both tasks are created, and a failure releases everything allocated
        so far. */
    method Start(queueOk: bool, bufOk: seq<bool>, mutexOk: seq<bool>, audioTaskOk: bool, fileTaskOk: bool)
        returns (r: Err)
      requires Valid() && |bufOk| == Slots && |mutexOk| == Slots
      modifies this`tasksRunning, this`resourcesInitialized, this`audioHandle, this`fileHandle
      modifies this`audio, this`file, this`audioNotified, this`fileNotified
      modifies this`queueMade, this`queueCapacity, this`queue, this`activeBuffer, this`readyBuffer
      modifies this`writePos, this`fileOpen, bufAlloc, mutexMade
      ensures Valid()
      ensures old(tasksRunning) ==>
        && r == Ok && tasksRunning && queue == old(queue) && saved == old(saved)
        && activeBuffer == old(activeBuffer) && readyBuffer == old(readyBuffer) && writePos == old(writePos)
        && audioHandle == old(audioHandle) && fileHandle == old(fileHandle)
        && audioNotified == old(audioNotified) && fileNotified == old(fileNotified) && fileOpen == old(fileOpen)
        && queueMade == old(queueMade) && queueCapacity == old(queueCapacity) && unchanged(bufAlloc, mutexMade)
        && resourcesInitialized == old(resourcesInitialized)
        && (if old(audioHandle) && old(audio) == AudioParked then
              audio == Capturing && file == (if old(file) == FileParked then Opening else old(file))
            else
              audio == old(audio) && file == old(file))
      ensures !old(tasksRunning) && old(resourcesInitialized) ==>
        && r == Ok && resourcesInitialized && !tasksRunning && queue == old(queue)
        && queueMade == old(queueMade) && queueCapacity == old(queueCapacity) && unchanged(bufAlloc, mutexMade)
        && activeBuffer == old(activeBuffer) && readyBuffer == old(readyBuffer) && writePos == old(writePos)
        && fileOpen == old(fileOpen)
        && !audioHandle && !fileHandle && audio == AudioAbsent && file == FileAbsent
      ensures !old(tasksRunning) && !old(resourcesInitialized) ==>
        var complete := queueOk && FirstFailure(bufOk, mutexOk, 0) == Slots;
        && (!queueOk ==> r == Fail)
        && (queueOk && !complete ==> r == NoMem)
        && (complete && !(audioTaskOk && fileTaskOk) ==> r == NoMem)
        && (complete && audioTaskOk && fileTaskOk ==>
              && r == Ok && tasksRunning && resourcesInitialized && AllAllocated()
              && queue == [] && queueCapacity == QueueLength
              && activeBuffer == 0 && readyBuffer == -1 && writePos == 0
              && audio == Capturing && file == Opening && !audioNotified && !fileNotified && IsRunning())
        && (r != Ok ==>
              && !tasksRunning && !resourcesInitialized && NothingAllocated() && !fileOpen
              && audio == AudioAbsent && file == FileAbsent)
    {
      if tasksRunning {
        Resume();
        return Ok;
      }
      DeleteStrayTasks();
      if !resourcesInitialized {
        r := Launch(queueOk, bufOk, mutexOk, audioTaskOk, fileTaskOk);
        return r;
      }
      return Ok;
    }

    /** audio_capture_stop up to its wait: OK at once when not running (and
        clearing tasksRunning when a task handle is missing); otherwise both
        tasks are notified, and None means the answer comes from StopConfirm
        once the tasks have had their time to react. */
    method StopNotify() returns (r: Option<Err>)
      requires Valid()
      modifies this`tasksRunning, this`audioNotified, this`fileNotified
      ensures Valid()
      ensures !old(tasksRunning) ==>
        r == Some(Ok) && !tasksRunning && audioNotified == old(audioNotified) && fileNotified == old(fileNotified)
      ensures old(tasksRunning) && !(audioHandle && fileHandle) ==>
        r == Some(Ok) && !tasksRunning && audioNotified == old(audioNotified) && fileNotified == old(fileNotified)
      ensures old(tasksRunning) && audioHandle && fileHandle ==>
        r == None && tasksRunning && audioNotified && fileNotified
    {
      if !tasksRunning {
        return Some(Ok);
      }
      if !audioHandle || !fileHandle {
        tasksRunning := false;
        return Some(Ok);
      }
      audioNotified, fileNotified := true, true;
      return None;
    }

    /** audio_capture_stop after its wait: OK exactly when both tasks are
        suspended, FAIL otherwise; tasksRunning stays set either way. */
    method StopConfirm() returns (r: Err)
      requires Valid() && tasksRunning && audioHandle && fileHandle
      ensures r == Ok <==> audio == AudioParked && file == FileParked
      ensures r == Ok || r == Fail
      ensures r == Ok ==> !IsRunning()
    {
      if audio != AudioParked || file != FileParked {
        return Fail;
      }
      return Ok;
    }

    /** audio_capture_is_running: running, both handles set and the capture
        task not suspended (AudioParked is eSuspended). Where each handle is
        set exactly when its task exists, as Valid keeps it, that is: the
        running flag, a file task, and a capture task that is live. */
    predicate IsRunning(): (r: bool)
      reads this
      ensures (audioHandle <==> audio != AudioAbsent) && (fileHandle <==> file != FileAbsent) ==>
        (r <==> tasksRunning && file != FileAbsent && (audio == Capturing || audio.Reading?))
    {
      tasksRunning && audioHandle && fileHandle && audio != AudioParked
    }
  }

  /** A read that fills the whole room it is given. */
  function FullRead(n: nat): ReadResult {
    ReadResult(Ok, n)
  }

  /** A first start on which every creation succeeds, followed by the
      file-save task's first open. */
  method Running() returns (e: DoubleBuffer)
    ensures fresh(e) && fresh(e.bufAlloc) && fresh(e.mutexMade)
    ensures e.Valid() && e.tasksRunning && e.audioHandle && e.fileHandle
    ensures e.audio == Capturing && e.file == Serving && !e.audioNotified && !e.fileNotified
    ensures e.activeBuffer == 0 && e.readyBuffer == -1 && e.writePos == 0 && e.fills == 0
    ensures e.queue == [] && e.saved == []
  {
    e := new DoubleBuffer();
    var r := e.Start(true, [true, true], [true, true], true, true);
    e.ConsumerOpen(true);
  }

  /** Two starts in a row: the second, whatever its creations would
      return, answers OK, creates nothing new and leaves the engine
      running with its buffers as they were. */
  method StartTwice(queueOk: bool, bufOk: seq<bool>, mutexOk: seq<bool>, audioTaskOk: bool, fileTaskOk: bool)
      returns (e: DoubleBuffer, first: Err, second: Err)
    requires |bufOk| == Slots && |mutexOk| == Slots
    ensures first == Ok && second == Ok
    ensures e.Valid() && e.AllAllocated() && e.queueCapacity == QueueLength && e.queue == []
    ensures e.IsRunning() && e.activeBuffer == 0 && e.readyBuffer == -1 && e.writePos == 0
  {
    e := new DoubleBuffer();
    first := e.Start(true, [true, true], [true, true], true, true);
    second := e.Start(queueOk, bufOk, mutexOk, audioTaskOk, fileTaskOk);
  }

  /** The capture task completes three buffers before the file-save task
      writes any: buffer 0 is refilled while its first chunk is still
      queued, so chunk 0 never reaches the file and chunk 2 is written
      twice. */
  method OverrunScenario() returns (written: seq<nat>)
    ensures written == [2, 1, 2]
  {
    var e := Running();
    e.ProducerStep(FullRead);
    e.ProducerStep(FullRead);
    e.ProducerStep(FullRead);
    assert e.queue == [0, 1, 0] && e.content == [2, 1];
    e.ConsumerStep();
    e.ConsumerStep();
    e.ConsumerStep();
    written := e.saved;
  }

  /** One completed buffer, then a stop that both tasks confirm: the
      suspend flush writes the ready buffer, but its index stays queued. */
  method StoppedSession() returns (e: DoubleBuffer, first: seq<nat>)
    ensures fresh(e) && fresh(e.bufAlloc) && fresh(e.mutexMade)
    ensures e.Valid() && e.tasksRunning && e.audioHandle && e.fileHandle
    ensures e.audio == AudioParked && e.file == FileParked && !e.audioNotified && !e.fileNotified
    ensures e.queue == [0] && e.content[0] == 0 && first == e.saved == [0]
  {
    e := Running();
    e.ProducerStep(FullRead);
    var n := e.StopNotify();
    e.ProducerStep(FullRead);
    e.ConsumerStep();
    first := e.saved;
    var stopped := e.StopConfirm();
    assert stopped == Ok;
  }

  /** A stop after one completed buffer, then a start: the resumed
      file-save task reopens the same path in "wb" mode, which empties the
      file, and then writes the stale queued index again, so the new
      session's file holds the old session's chunk once more. */
  method StopStartScenario() returns (first: seq<nat>, reopened: seq<nat>, second: seq<nat>)
    ensures first == [0] && reopened == [] && second == [0]
  {
    var e;
    e, first := StoppedSession();
    var r := e.Start(true, [true, true], [true, true], true, true);
    e.ConsumerOpen(true);
    reopened := e.saved;
    assert e.queue == [0];
    e.ConsumerStep();
    second := e.saved;
  }
}
