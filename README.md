# 8-Microphone capture firmware: a Dafny model

This project models the core of an ESP32 firmware that records eight PDM
microphones. An ADAU7118 converts their signals to TDM, and the ESP32 writes
the audio to an SD card. The model covers three parts:

- **The N-buffer capture engine** (`main/Audio_capture/AudioCapture.c`):
  - It has six slots. Each slot holds a DMA buffer, a mutex and a
    `bufferReady` flag.
  - The capture task fills the first free slot in round-robin order from
    `activeBuffer`, and queues the slot's index once the slot is full.
  - The file-save task writes each queued slot that is still ready, then
    frees it.
  - On a stop notification, the file-save task drains every ready slot in
    index order and closes the file.
  - On resume, it opens a new file. The name is `/sdcard/AUDIO<n>.bin`,
    where `n` is one more than the largest index already on the card.
  - `audio_capture_start`, `audio_capture_stop` and
    `audio_capture_is_running` drive the lifecycle. That covers allocation
    with rollback, task creation, suspend and resume.
- **The legacy double-buffer engine** (`AudioCapture.c` at the repository
  root). It runs the same protocol with two buffers and a toggling
  `activeBuffer`. It keeps a single `readyBuffer` that the producer never
  consults, and it always writes to one fixed path.
- **The ADAU7118 bring-up driver** (`main/ADAU7118/ADAU7118.c`). It has
  handle-guarded register read and write primitives, I2C bus setup and
  teardown, and a vendor-ID check with at most five retries. It then writes
  seven configuration registers, stopping at the first failure; read-backs
  only log.

## How the model is built

### Tasks and outside calls

- Each task step is one atomic method on a class that holds the engine's
  globals.
- The FreeRTOS task states are explicit, and so are the notifications that
  have not been taken yet.
- The task program counters are explicit:
  - `Rtos.AudioTask`: absent, at the top of its loop, reading into a slot,
    or suspended.
  - `Rtos.FileTask`: absent, opening, serving, blocked on the queue,
    suspended, or dead after a failed `fopen`.
- Everything outside the code is a parameter:
  - the result of each allocation;
  - whether the non-blocking mutex take succeeds;
  - what `i2s_channel_read` returns for a given request;
  - the directory listing;
  - whether `fopen` succeeds;
  - the I2C master's reply to the k-th bus call.

### What the pool records

- Slot contents are abstracted to chunk serial numbers. The chunk a slot
  holds is the number of fills before it.
- The output is the sequence of `(path, slot, chunk)` blocks written so far.
- In the N-buffer engine, the ghost map `SlotPool.loc` records where each
  chunk is. A chunk is either pending in exactly one ready slot, or written
  in exactly one block.
- The invariant `Pool.Accounted` states this. Each step preserves it, so no
  chunk is lost or written twice.
- The file task's suspend flush writes every chunk completed before it.
  A stop does not always leave every filled chunk in a file, though. The
  flush skips a slot that is not yet ready, so it skips the slot the capture
  task is still reading into. If that read completes after the flush and
  before the capture task takes its own notification, the chunk stays
  pending in its ready slot. It reaches a file only in the next session,
  through the queue. `Capture.StopLeavesPending` shows such a stop.

### What the legacy engine gives up

The legacy engine has no such guarantee:

- In `Legacy.OverrunScenario`, three fills happen before the file-save
  task gets a turn.
- The file then receives chunks `[2, 1, 2]`: chunk 0 is lost and chunk 2 is
  written twice.
- `Legacy.StopStartScenario` shows the next session reopening the same path
  in `"wb"` mode, which empties the file. The index the stop left queued is
  then written again, so the new file holds the earlier session's chunk
  once more.

### The ADAU7118 driver

- The driver records every I2C master call in a trace.
- `Adau7118.ConfigLog` describes the register writes found in it.

## Model

| member | source | states |
|---|---|---|
| Alloc.FirstFailure | main/Audio_capture/AudioCapture.c:274-311 | the slot at which allocation stops: every earlier slot got its buffer and its mutex, and at that slot one of them failed (or every slot succeeded) |
| Alloc.FreeBuffersBefore | main/Audio_capture/AudioCapture.c:279-282 | the buffer-failure rollback frees buffers 0..i-1 and leaves later ones as they were; mutexes are not touched |
| Alloc.FreeSlotsThrough | main/Audio_capture/AudioCapture.c:296-303 | the mutex-failure rollback frees buffers 0..i and mutexes 0..i-1 (mutex i was never created), later slots unchanged |
| Alloc.FreeAll | main/Audio_capture/AudioCapture.c:322-332 | deinit leaves no buffer and no mutex allocated, whatever existed before |
| Filename.DigitChar | main/Audio_capture/AudioCapture.c:82-83 | the digit printed for d < 10 is a digit whose value is d |
| Filename.SkipSpace | main/Audio_capture/AudioCapture.c:69 | `%d` skips leading white space: the rest is a suffix of the input that starts with a non-space, and is empty exactly when the input is all white space |
| Filename.DigitRun | main/Audio_capture/AudioCapture.c:69 | the longest leading run of digits: all digits, followed by a non-digit or the end |
| Filename.Show | main/Audio_capture/AudioCapture.c:82-83 | `%d` of a natural number is a non-empty run of digits |
| Filename.ShowValue | main/Audio_capture/AudioCapture.c:82-83 | the digits printed for n read back as n |
| Filename.DigitRunStops | main/Audio_capture/AudioCapture.c:69 | the digit run of digits followed by a non-digit ends exactly at that non-digit |
| Filename.ScanShow | main/Audio_capture/AudioCapture.c:69-83 | scanning `%d` from a printed index followed by a non-digit gives back that index |
| Filename.MaxIndex | main/Audio_capture/AudioCapture.c:42-76 | the running maximum of the scan, starting from 0, is never negative |
| Filename.Truncate | main/Audio_capture/AudioCapture.c:82-83 | snprintf into maxLen bytes keeps the whole text when it fits, and otherwise exactly its first maxLen - 1 characters |
| Filename.MaxIndexBounds | main/Audio_capture/AudioCapture.c:65-76 | every index parsed from a matching entry is at most the maximum |
| Filename.MaxIndexAttained | main/Audio_capture/AudioCapture.c:42-76 | the maximum is 0 or is the index of some entry |
| Filename.EntryIndex | main/Audio_capture/AudioCapture.c:67-83 | the file name written for session n parses back as index n |
| Filename.NextSessionAdvances | main/Audio_capture/AudioCapture.c:65-83 | once the new file exists, the next scan finds it as the maximum, so each session's index is one above the last |
| Filename.AppendAbove | main/Audio_capture/AudioCapture.c:71-73 | adding an entry with an index above the maximum makes that index the new maximum |
| Filename.SmallNames | main/Audio_capture/AudioCapture.c:82-83 | the names for indices 1, 3 and 4 are `AUDIO1.bin`, `AUDIO3.bin` and `/sdcard/AUDIO4.bin` |
| Filename.TwoFilesExample | main/Audio_capture/AudioCapture.c:65-83 | a card holding `AUDIO1.bin` and `AUDIO3.bin` gives the path `/sdcard/AUDIO4.bin` |
| Filename.MaxIndexExtend | main/Audio_capture/AudioCapture.c:65-76 | one more loop iteration takes the running maximum one step further |
| Filename.GenerateFilename | main/Audio_capture/AudioCapture.c:39-87 | INVALID_ARG and no text for a NULL or shorter-than-16 buffer; NOT_FOUND and `AUDIO1` for an unreadable directory; otherwise OK and the path with index max+1, truncated to the buffer: the text is `Filename.NextPath`, built from `ScanInt` (the `%d` conversion), `IndexOf` (the prefix test and scan of one entry) and `Step` (one iteration of the maximum) |
| Pool.Probe | main/Audio_capture/AudioCapture.c:113 | the i-th probe is a slot index below 6 |
| Pool.FirstUsableProbe | main/Audio_capture/AudioCapture.c:112-159 | the first probe from i on whose mutex is taken and whose slot is not ready; none of the probes before it qualifies |
| Pool.ProbeNoWrap | main/Audio_capture/AudioCapture.c:113 | `(start + i) % 6` as a wrap-around without division |
| Pool.ProbesArePermutation | main/Audio_capture/AudioCapture.c:112-113 | the six probes from any start visit each slot exactly once |
| Pool.FirstUsableSpec | main/Audio_capture/AudioCapture.c:108-164 | the search finds nothing exactly when no slot is usable; a slot it finds is usable, and every slot probed before it was not |
| Pool.FindFreeSlot | main/Audio_capture/AudioCapture.c:108-164 | the for loop returns `Pool.FirstUsable`: the first usable slot in round-robin order, a slot whose mutex was taken and which is not ready |
| Pool.InitiallyAccounted | main/Audio_capture/AudioCapture.c:20-26 | with no ready slot and nothing filled, the chunk accounting holds |
| Pool.CompleteAccounted | main/Audio_capture/AudioCapture.c:136-144 | marking a non-ready slot ready with a new chunk keeps every chunk either pending in one slot or written once |
| Pool.DrainAccounted | main/Audio_capture/AudioCapture.c:245-255 | writing a ready slot and clearing its flag moves its chunk from pending to written, keeping the accounting |
| Pool.WrittenOnce | main/Audio_capture/AudioCapture.c:244-259 | under the accounting, no chunk appears in two written blocks |
| Pool.PendingNotWritten | main/Audio_capture/AudioCapture.c:194-208 | a chunk still pending in a ready slot is in no write |
| Pool.NothingPendingMeansAllWritten | main/Audio_capture/AudioCapture.c:194-208 | when no slot is ready, every chunk ever filled has been written |
| Pool.FlushBlocksSpec | main/Audio_capture/AudioCapture.c:194-208 | the flush writes the ready slots in ascending index order, each once, each with the chunk it holds, and no other slot |
| Pool.SlotPool.constructor | main/Audio_capture/AudioCapture.c:20-26 | no slot ready, nothing filled, nothing written |
| Pool.SlotPool.Complete | main/Audio_capture/AudioCapture.c:136-144 | the slot becomes ready with the next chunk serial; no other slot changes and the accounting invariant is kept |
| Pool.SlotPool.Release | main/Audio_capture/AudioCapture.c:246-255 | the ready slot's chunk is appended to the file and the slot's flag alone is cleared |
| Pool.SlotPool.Flush | main/Audio_capture/AudioCapture.c:194-208 | the ready slots are appended in index order, no slot is ready afterwards, and every chunk filled so far is in the file |
| Capture.AudioCapture.constructor | main/Audio_capture/AudioCapture.c:5-36 | the static initial state: nothing allocated, no task, no slot ready, `activeBuffer` 0 |
| Capture.AudioCapture.Drain | main/Audio_capture/AudioCapture.c:245-259 | a dequeued index is written only if it is below 6 and its slot is ready, and then that slot alone is freed; any other index changes nothing |
| Capture.AudioCapture.ProducerSelect | main/Audio_capture/AudioCapture.c:97-164 | a pending notification suspends the task; otherwise the first usable slot becomes `activeBuffer` and is read into; with none, nothing changes |
| Capture.AudioCapture.ProducerRead | main/Audio_capture/AudioCapture.c:124-152 | the read asks for `size - writePos` bytes; a failed or empty read changes nothing; a partial read advances `writePos`; a read that reaches the end resets `writePos`, marks only that slot ready and queues its index |
| Capture.AudioCapture.ConsumerOpen | main/Audio_capture/AudioCapture.c:172-238 | the file is opened at the generated path; a failed `fopen` ends the task with its handle still set |
| Capture.AudioCapture.ConsumerStep | main/Audio_capture/AudioCapture.c:190-261 | a notification drains every ready slot in order, closes the file and suspends; otherwise one queued index is taken and drained as Drain states, or the task blocks on an empty queue |
| Capture.AudioCapture.Init | main/Audio_capture/AudioCapture.c:265-317 | no queue gives FAIL; a failed buffer or mutex gives NO_MEM, deletes the queue and rolls back as the Alloc rows state; success gives a 12-entry queue, every buffer and mutex, no ready slot and `activeBuffer` 0 |
| Capture.AudioCapture.Deinit | main/Audio_capture/AudioCapture.c:320-345 | nothing allocated and the file closed afterwards |
| Capture.AudioCapture.Resume | main/Audio_capture/AudioCapture.c:353-366 | while running, a suspended capture task is resumed with the file task; otherwise nothing changes |
| Capture.AudioCapture.DeleteStrayTasks | main/Audio_capture/AudioCapture.c:369-380 | task handles left set while not running are deleted and cleared |
| Capture.AudioCapture.Launch | main/Audio_capture/AudioCapture.c:383-436 | init, then both tasks; each failure returns its error and leaves nothing allocated and no task; success leaves both tasks running over a fresh pool |
| Capture.AudioCapture.Spawn | main/Audio_capture/AudioCapture.c:392-435 | both tasks created sets `tasksRunning` and `resources_initialized`; a failed creation deletes the other task, releases everything and returns NO_MEM |
| Capture.AudioCapture.Run | main/Audio_capture/AudioCapture.c:392-435 | both tasks exist, the capture task at the top of its loop and the file task about to open its file |
| Capture.AudioCapture.Abandon | main/Audio_capture/AudioCapture.c:403-429 | after a failed task creation nothing is allocated and `resources_initialized` is false |
| Capture.AudioCapture.Start | main/Audio_capture/AudioCapture.c:348-438 | while running: OK, suspended tasks resumed, and the queue, buffers, mutexes, active slot, write position and file unchanged; not running with resources already initialized: OK, stray tasks deleted, and the same resources unchanged; otherwise the Launch outcome, and a full success is reported running by `audio_capture_is_running` |
| Capture.AudioCapture.StopNotify | main/Audio_capture/AudioCapture.c:441-460 | OK when not running; OK and `tasksRunning` cleared when a handle is missing; otherwise both tasks are notified and `tasksRunning` stays set |
| Capture.AudioCapture.IsRunning | main/Audio_capture/AudioCapture.c:474-479 | the running flag, both task handles set and the capture task not suspended (`AudioParked` is `eSuspended`); where handles match tasks, as `Valid` keeps them, that is the running flag with a file task and a live capture task |
| Capture.StartTwice | main/Audio_capture/AudioCapture.c:348-438 | a start on an engine already started returns OK, whatever its creations would return, and leaves everything allocated once and the engine running |
| Capture.Started | main/Audio_capture/AudioCapture.c:348-438 | a first start with every creation succeeding, then the file task's open, leaves both tasks running, slot 0 active and no slot ready |
| Capture.StopDuringRead | main/Audio_capture/AudioCapture.c:97-145 | a stop notified while the capture task reads into slot 0 lets the file task flush an empty pool and suspend while that read is still in progress |
| Capture.StopLeavesPending | main/Audio_capture/AudioCapture.c:190-209 | a stop can confirm OK with a completed chunk still in its ready slot and in no file: the flush ran before the read completed |
| Capture.StopTwice | main/Audio_capture/AudioCapture.c:440-470 | two stops in a row both return OK; the second leaves a notification pending for each suspended task |
| Capture.RestartAfterStopTwice | main/Audio_capture/AudioCapture.c:97-196 | the start after two stops returns OK, but both tasks take the pending notification at their first check and suspend again, so the engine is not reported running |
| Capture.AudioCapture.StopConfirm | main/Audio_capture/AudioCapture.c:462-479 | OK exactly when both tasks are suspended, FAIL otherwise; after OK `audio_capture_is_running` is false |
| Legacy.Other | AudioCapture.c:69 | `activeBuffer ^= 1` maps a buffer index to the other one |
| Legacy.DoubleBuffer.constructor | AudioCapture.c:5-26 | `activeBuffer` 0, `readyBuffer` -1, `writePos` 0, nothing allocated, no task |
| Legacy.DoubleBuffer.ProducerStep | AudioCapture.c:35-81 | a notification suspends; a failed or empty read changes nothing; a partial read advances `writePos`; a full buffer resets `writePos`, sets `readyBuffer` to it, switches to the other buffer and queues it, without looking at whether that buffer was saved |
| Legacy.DoubleBuffer.ConsumerOpen | AudioCapture.c:89-141 | the fixed path is opened in `"wb"` mode, which truncates what it held; a failed `fopen` ends the task |
| Legacy.DoubleBuffer.ConsumerStep | AudioCapture.c:101-162 | a notification writes `readyBuffer` if it is not -1, resets it, closes the file and suspends; otherwise the dequeued index is written unchecked and `readyBuffer` becomes -1 |
| Legacy.DoubleBuffer.Init | AudioCapture.c:166-221 | a 10-entry queue, the same rollback as the N-buffer engine, and on success `activeBuffer` 0, `readyBuffer` -1, `writePos` 0 |
| Legacy.DoubleBuffer.Deinit | AudioCapture.c:224-249 | nothing allocated and the file closed afterwards |
| Legacy.DoubleBuffer.Resume | AudioCapture.c:257-270 | while running, a suspended capture task is resumed with the file task |
| Legacy.DoubleBuffer.DeleteStrayTasks | AudioCapture.c:273-284 | stray task handles are deleted and cleared |
| Legacy.DoubleBuffer.Launch | AudioCapture.c:287-341 | init, then both tasks, with the same failure handling as the N-buffer engine |
| Legacy.DoubleBuffer.Spawn | AudioCapture.c:297-340 | both tasks created sets the flags; a failure releases everything and returns NO_MEM |
| Legacy.DoubleBuffer.Start | AudioCapture.c:252-343 | the same three cases as the N-buffer start; while running and when the resources are already initialized, the queue, buffers, mutexes, buffer indices, write position and file are unchanged |
| Legacy.DoubleBuffer.StopNotify | AudioCapture.c:346-365 | OK when not running or a handle is missing; otherwise both tasks are notified |
| Legacy.DoubleBuffer.IsRunning | AudioCapture.c:379-384 | the same conjunction as the N-buffer engine's `audio_capture_is_running` |
| Legacy.StartTwice | AudioCapture.c:252-343 | a second start returns OK and allocates nothing; the engine stays running with its buffer indices reset by the first |
| Legacy.DoubleBuffer.StopConfirm | AudioCapture.c:367-384 | OK exactly when both tasks are suspended, FAIL otherwise; after OK the engine is not reported running |
| Legacy.Running | AudioCapture.c:287-340 | a first start with every creation succeeding leaves both tasks running with the file open and nothing queued |
| Legacy.OverrunScenario | AudioCapture.c:63-160 | three fills before the file task runs put chunks 2, 1, 2 in the file: the first chunk is overwritten before it is saved |
| Legacy.StoppedSession | AudioCapture.c:103-131 | a stop after one fill leaves both tasks suspended with that chunk saved and its stale index still queued |
| Legacy.StopStartScenario | AudioCapture.c:90-135 | after a stop and a restart the reopen in `"wb"` mode empties the file at the same path, and the stale queued index then writes the earlier session's chunk into it again |
| Adau7118.ReadIsNoWrite | main/ADAU7118/ADAU7118.c:61-76 | a register read puts no register write on the bus, leaves the handles alone and counts one vendor-ID read exactly when the device handle is set and the register is the vendor-ID register; the exact bus trace of a read is `Adau7118.Driver.ReadReg`'s |
| Adau7118.ConfigLogMeaning | main/ADAU7118/ADAU7118.c:119-198 | a configuration log writes the next entries of the register table in order; it ends OK exactly when all were written and answered OK, and otherwise with the error of its last write, every earlier write having been answered OK |
| Adau7118.IdLoopSpec | main/ADAU7118/ADAU7118.c:94-110 | the retry loop ends with the ID matched or after 5 retries; each retry is one read, plus the read that matched; it writes nothing |
| Adau7118.IdPhase | main/ADAU7118/ADAU7118.c:94-115 | from device_ID 0 the ID register is read 1 to 5 times, exactly 5 times when it never matches, with no register write |
| Adau7118.ConfigTablesAgree | main/ADAU7118/ADAU7118.c:122-186 | the step table and the expected write list name the same register and value at each step |
| Adau7118.ConfigStepLog | main/ADAU7118/ADAU7118.c:122-135 | one configuration block adds its own write and reply to the log, and its read-back adds nothing |
| Adau7118.ConfigFromSpec | main/ADAU7118/ADAU7118.c:119-198 | the configuration sequence from step i adds exactly a configuration log to the writes already on the bus |
| Adau7118.InitI2cNoWrite | main/ADAU7118/ADAU7118.c:10-47 | bus setup puts no register write on the bus |
| Adau7118.InitSpecProperties | main/ADAU7118/ADAU7118.c:79-199 | I2C setup failure returns its error; an ID failure returns NOT_FOUND; either way no register is written; once the ID matches, the writes form a configuration log; only a matched ID can give OK |
| Adau7118.InitOkIff | main/ADAU7118/ADAU7118.c:79-199 | Init returns OK exactly when the bus came up, the ID matched and all seven table writes were issued in order and answered OK; read-back replies play no part |
| Adau7118.DeinitIdempotent | main/ADAU7118/ADAU7118.c:202-211 | deinit leaves both handles NULL, and a second deinit issues no call and changes nothing |
| Adau7118.Driver.constructor | main/ADAU7118/ADAU7118.c:6-7 | both handles NULL, no bus call made |
| Adau7118.Driver.WriteReg | main/ADAU7118/ADAU7118.c:50-58 | without a device handle INVALID_STATE and no bus call; otherwise one two-byte transmit whose status is returned; outcome and trace equal `Adau7118.WriteSpec` |
| Adau7118.Driver.ReadReg | main/ADAU7118/ADAU7118.c:61-76 | NULL handle or output gives INVALID_ARG and no bus call; a failed address send returns its error without receiving; otherwise one byte is received and its status returned; with an output pointer, outcome, byte and trace equal `Adau7118.ReadSpec` |
| Adau7118.Driver.InitI2c | main/ADAU7118/ADAU7118.c:10-47 | a failed bus creation returns its error; a failed device add deletes the bus and clears its handle before returning the error; success sets both handles; outcome and trace equal `Adau7118.InitI2cSpec` |
| Adau7118.Driver.Configure | main/ADAU7118/ADAU7118.c:122-135 | one block: a failed write ends the sequence with its error; otherwise the read-back follows and the sequence goes on |
| Adau7118.Driver.CheckId | main/ADAU7118/ADAU7118.c:90-110 | the while loop leaves device_ID and the bus exactly as the recursive retry definition `Adau7118.IdLoop` does |
| Adau7118.Driver.ConfigureAll | main/ADAU7118/ADAU7118.c:119-198 | the seven blocks written out in order match the recursive configuration definition `Adau7118.ConfigFrom` |
| Adau7118.Driver.Init | main/ADAU7118/ADAU7118.c:79-199 | the return value and bus trace are those of `Adau7118.InitSpec`, whose properties InitSpecProperties and InitOkIff state |
| Adau7118.Driver.Deinit | main/ADAU7118/ADAU7118.c:202-212 | the device is removed and the bus deleted when their handles are set, leaving both NULL; the state is `Adau7118.DeinitSpec` of the old one |

## Left out

- Real concurrency is not modelled. Each task step is atomic, so preemption inside a step and memory ordering are not covered. The 1000 ms wait in `audio_capture_stop` is the gap between StopNotify and StopConfirm, where any task steps may run.
- Blocking calls are not modelled. Mutex takes with `portMAX_DELAY` and `xQueueReceive` always succeed. An empty queue leaves the file-save task waiting, and a notification is only seen after the next dequeue.
- Queue capacity is not modelled. The queue is an unbounded sequence: a send to a full queue, which blocks in the source, always succeeds here. The capacity (12 or 10) is recorded but not enforced.
- Queue items are not modelled at byte width. The N-buffer engine sends an `int` into a one-byte queue item; the model treats every item as a plain slot index.
- Audio bytes are not modelled. Each buffer's contents are a chunk serial number, and `fwrite` is taken to write the whole buffer. Short writes, `fflush` and `setvbuf`, including `setvbuf` on a NULL file, are not modelled.
- Legacy.DoubleBuffer.ProducerStep: a chunk is committed to a buffer only when that buffer fills. The partial overwrite of a buffer still waiting to be written is therefore not visible until the buffer is full.
- `vTaskDelete(NULL)` never returns, so the handle-clearing statement after it never runs. The model keeps the file task's handle set, in the state `Dead`.
- Adau7118.Driver.ReadReg: a failed `i2c_master_receive` is assumed to leave the output byte unchanged.
- Filename.GenerateFilename: integers are unbounded. Overflow of the parsed `%d` value and of `max_index + 1` is not modelled.
- Filename.GenerateFilename: `strncmp` is modelled as a prefix test on characters, not on bytes.
- Logging (`ESP_LOG*`), delays (`vTaskDelay`) and the I2C and I2S pin and clock configuration are not modelled. That includes the log line for register 0x05: it names 0xC0 as written, but the code writes 0xC1, and that is what the model states.
- `main/main.c`, `main/Hardware/hardwareInit.c` and `main/uart_console/uart_console.c` are not part of this model.
