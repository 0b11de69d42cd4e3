/** The ADAU7118 bring-up driver: the I2C bus and device handles, the
    register read and write primitives, the vendor-ID check with bounded
    retries and the fixed configuration sequence. The I2C master is an
    oracle: the reply to the k-th bus call of the driver's lifetime is
    bus(k), and every call is recorded in a trace. */
module Adau7118 {
  import opened Esp

  /** ADAU7118_I2C_ADDR, the 7-bit device address. */
  const DeviceAddress: byte := 0x17
  /** ADAU7118_REG_VENDOR_ID and the value it must read (Defult_VENDOR_ID). */
  const VendorIdReg: byte := 0x00
  const VendorId: byte := 0x41
  /** max_retries of the vendor-ID check. */
  const MaxRetries: nat := 5

  const RegEnables: byte := 0x04
  const RegDecRatioClkMap: byte := 0x05
  const RegHpfControl: byte := 0x06
  const RegSptCtrl1: byte := 0x07
  const RegSptCtrl2: byte := 0x08
  const RegDriveStrength: byte := 0x11
  const RegReset: byte := 0x12

  /** A call into the I2C master driver. */
  datatype Call =
    | NewMasterBus            // i2c_new_master_bus
    | AddDevice               // i2c_master_bus_add_device
    | DelMasterBus            // i2c_del_master_bus
    | RmDevice                // i2c_master_bus_rm_device
    | Transmit(bytes: seq<byte>)
    | Receive                 // i2c_master_receive of one byte

  /** What a bus call returns: its status and, for a receive, the byte. */
  datatype Reply = Reply(status: Err, data: byte)

  /** The bus: the reply to the k-th call. */
  type Bus = nat -> Reply

  /** The driver's state: every bus call so far, i2c_bus_handle != NULL and
      adau7118_dev_handle != NULL. */
  datatype State = State(trace: seq<Call>, bus: bool, dev: bool)

  datatype Outcome = Outcome(status: Err, state: State)
  datatype ReadOutcome = ReadOutcome(status: Err, data: byte, state: State)
  datatype IdOutcome = IdOutcome(id: byte, retries: nat, state: State)

  /** One step of the configuration sequence: a register write, and
      whether a read-back of the register follows it. */
  datatype ConfigStep = ConfigStep(reg: byte, value: byte, readBack: bool)

  /** The configuration writes of Init_ADAU7118, in order. DEC_RATIO_CLK_MAP
      is written 0b11000001 (0xC1). */
  const Config: seq<ConfigStep> := [
    ConfigStep(RegReset, 0x01, false),
    ConfigStep(RegEnables, 0x3F, true),
    ConfigStep(RegDecRatioClkMap, 0xC1, true),
    ConfigStep(RegHpfControl, 0xD0, true),
    ConfigStep(RegSptCtrl1, 0x53, true),
    ConfigStep(RegSptCtrl2, 0x00, true),
    ConfigStep(RegDriveStrength, 0x2A, true)
  ]

  /** The bytes the configuration writes put on the bus, in order. */
  const ConfigWrites: seq<seq<byte>> := [
    [0x12, 0x01], [0x04, 0x3F], [0x05, 0xC1], [0x06, 0xD0], [0x07, 0x53], [0x08, 0x00], [0x11, 0x2A]
  ]

  // ---------------------------------------------------------------------
  // The bus calls as functions of the state
  // ---------------------------------------------------------------------

  /** The reply to the next bus call. */
  function Answer(bus: Bus, s: State): Reply {
    bus(|s.trace|)
  }

  /** s after one more bus call. */
  function Issue(s: State, c: Call): (t: State)
    ensures t.trace == s.trace + [c] && t.bus == s.bus && t.dev == s.dev
  {
    s.(trace := s.trace + [c])
  }

  /** adau7118_write_reg. */
  function WriteSpec(bus: Bus, s: State, reg: byte, value: byte): Outcome {
    if !s.dev then Outcome(InvalidState, s)
    else Outcome(Answer(bus, s).status, Issue(s, Transmit([reg, value])))
  }

  /** adau7118_read_reg with a non-NULL output that holds prior: the byte
      left there is the one received, or prior when nothing was received. */
  function ReadSpec(bus: Bus, s: State, reg: byte, prior: byte): ReadOutcome {
    if !s.dev then ReadOutcome(InvalidArg, prior, s)
    else if Answer(bus, s).status != Ok then ReadOutcome(Answer(bus, s).status, prior, Issue(s, Transmit([reg])))
    else
      var s1 := Issue(s, Transmit([reg]));
      var rx := Answer(bus, s1);
      ReadOutcome(rx.status, if rx.status == Ok then rx.data else prior, Issue(s1, Receive))
  }

  /** adau7118_init_i2c. */
  function InitI2cSpec(bus: Bus, s: State): Outcome {
    var created := Answer(bus, s);
    var s1 := Issue(s, NewMasterBus);
    if created.status != Ok then Outcome(created.status, s1)
    else
      var added := Answer(bus, s1);
      var s2 := Issue(s1.(bus := true), AddDevice);
      if added.status != Ok then Outcome(added.status, Issue(s2, DelMasterBus).(bus := false))
      else Outcome(Ok, s2.(dev := true))
  }

  /** The vendor-ID loop of Init_ADAU7118 from device_ID id after retries
      retries: a failed read or a wrong value counts one retry; the loop
      ends when the ID matches or after MaxRetries retries. */
  function IdLoop(bus: Bus, s: State, id: byte, retries: nat): IdOutcome
    decreases MaxRetries - retries, if id == VendorId then 0 else 1
  {
    if id == VendorId || retries >= MaxRetries then IdOutcome(id, retries, s)
    else
      var rd := ReadSpec(bus, s, VendorIdReg, id);
      if rd.status != Ok then IdLoop(bus, rd.state, rd.data, retries + 1)
      else if rd.data != VendorId then IdLoop(bus, rd.state, rd.data, retries + 1)
      else IdLoop(bus, rd.state, rd.data, retries)
  }

  /** The state after step i's write succeeded: its read-back, if any,
      into a local whose value is never used. */
  function ReadBack(bus: Bus, s: State, i: nat): State
    requires i < |Config|
  {
    if Config[i].readBack then ReadSpec(bus, s, Config[i].reg, 0).state else s
  }

  /** The configuration sequence from step i on: each write in turn, the
      first failing write's status ending it, and each read-back's result
      ignored. */
  function ConfigFrom(bus: Bus, s: State, i: nat): Outcome
    requires i <= |Config|
    decreases |Config| - i
  {
    if i == |Config| then Outcome(Ok, s)
    else
      var w := WriteSpec(bus, s, Config[i].reg, Config[i].value);
      if w.status != Ok then w else ConfigFrom(bus, ReadBack(bus, w.state, i), i + 1)
  }

  /** Init_ADAU7118. */
  function InitSpec(bus: Bus, s: State): Outcome {
    var i2c := InitI2cSpec(bus, s);
    if i2c.status != Ok then i2c
    else
      var id := IdLoop(bus, i2c.state, 0, 0);
      if id.id != VendorId then Outcome(NotFound, id.state)
      else ConfigFrom(bus, id.state, 0)
  }

  /** adau7118_deinit. */
  function DeinitSpec(s: State): State {
    var s1 := if s.dev then Issue(s, RmDevice).(dev := false) else s;
    if s1.bus then Issue(s1, DelMasterBus).(bus := false) else s1
  }

  // ---------------------------------------------------------------------
  // What a trace says
  // ---------------------------------------------------------------------

  /** A register write: a two-byte transmit. */
  predicate IsWrite(c: Call) {
    c.Transmit? && |c.bytes| == 2
  }

  /** A register write as it went out: its two bytes and the bus's reply. */
  datatype Written = Written(bytes: seq<byte>, status: Err)

  /** Every register write in trace t, in order, with the reply it got. */
  function Writes(bus: Bus, t: seq<Call>): seq<Written> {
    if t == [] then []
    else
      var k := |t| - 1;
      Writes(bus, t[..k]) + (if IsWrite(t[k]) then [Written(t[k].bytes, bus(k).status)] else [])
  }

  /** The number of reads of the vendor-ID register in trace t. */
  function IdReads(t: seq<Call>): nat {
    if t == [] then 0
    else IdReads(t[..|t| - 1]) + (if t[|t| - 1] == Transmit([VendorIdReg]) then 1 else 0)
  }

  lemma WritesIssue(bus: Bus, t: seq<Call>, c: Call)
    ensures Writes(bus, t + [c]) == Writes(bus, t) + (if IsWrite(c) then [Written(c.bytes, bus(|t|).status)] else [])
    ensures IdReads(t + [c]) == IdReads(t) + (if c == Transmit([VendorIdReg]) then 1 else 0)
  {
    assert (t + [c])[..|t|] == t;
  }

  /** A read puts no register write on the bus, leaves the handles alone and,
      with a device handle, reads the register it is given once. */
  lemma ReadIsNoWrite(bus: Bus, s: State, reg: byte, prior: byte)
    ensures var rd := ReadSpec(bus, s, reg, prior);
      && Writes(bus, rd.state.trace) == Writes(bus, s.trace)
      && IdReads(rd.state.trace) == IdReads(s.trace) + (if s.dev && reg == VendorIdReg then 1 else 0)
      && rd.state.bus == s.bus && rd.state.dev == s.dev
  {
    if s.dev {
      WritesIssue(bus, s.trace, Transmit([reg]));
      WritesIssue(bus, s.trace + [Transmit([reg])], Receive);
    }
  }

  /** The register writes at the tail of a log, after the first n entries. */
  function After(log: seq<Written>, n: nat): seq<Written> {
    if n <= |log| then log[n..] else []
  }

  /** L is the log of the configuration sequence run from step i that ended
      with status: each entry wrote the next entry of ConfigWrites; an entry
      answered with an error is the last one and its error is the status;
      the sequence ends Ok only when it reaches the end of the table. */
  ghost predicate ConfigLog(L: seq<Written>, i: nat, status: Err)
    decreases |L|
  {
    if L == [] then i == |Config| && status == Ok
    else
      && i < |Config| && L[0].bytes == ConfigWrites[i]
      && if L[0].status != Ok then |L| == 1 && status == L[0].status
         else ConfigLog(L[1..], i + 1, status)
  }

  /** What a configuration log says, entry by entry: it wrote the next
      entries of ConfigWrites in order; it ended Ok exactly when it wrote
      all of them and every one was answered Ok; otherwise its last write
      got the error it ended with and every write before that was answered
      Ok. */
  lemma {:induction false} ConfigLogMeaning(L: seq<Written>, i: nat, status: Err)
    requires ConfigLog(L, i, status)
    ensures i + |L| <= |Config|
    ensures forall j :: 0 <= j < |L| ==> L[j].bytes == ConfigWrites[i + j]
    ensures status == Ok <==> i + |L| == |Config| && forall j :: 0 <= j < |L| ==> L[j].status == Ok
    ensures status != Ok ==> |L| > 0 && L[|L| - 1].status == status && forall j :: 0 <= j < |L| - 1 ==> L[j].status == Ok
    decreases |L|
  {
    if L != [] && L[0].status == Ok {
      var rest := L[1..];
      ConfigLogMeaning(rest, i + 1, status);
      assert forall j :: 0 < j < |L| ==> L[j] == rest[j - 1];
      if status != Ok {
        assert L[|L| - 1] == rest[|rest| - 1];
      }
    }
  }

  lemma ConfigLogCons(w: Written, L: seq<Written>, i: nat, status: Err)
    requires i < |Config| && w.bytes == ConfigWrites[i] && w.status == Ok
    requires ConfigLog(L, i + 1, status)
    ensures ConfigLog([w] + L, i, status)
  {
    assert ([w] + L)[1..] == L;
  }

  // ---------------------------------------------------------------------
  // Properties of the bring-up sequence
  // ---------------------------------------------------------------------

  /** The vendor-ID loop from device_ID id after retries retries: it ends
      with the ID matched or with MaxRetries retries, a match before the
      loop's last retry, one register read per retry plus the read that
      matched, and no register write. */
  lemma {:induction false} IdLoopSpec(bus: Bus, s: State, id: byte, retries: nat)
    requires s.dev && retries <= MaxRetries
    ensures var o := IdLoop(bus, s, id, retries);
      && o.state.bus == s.bus && o.state.dev
      && o.retries <= MaxRetries
      && (o.id == VendorId || o.retries == MaxRetries)
      && (id != VendorId && o.id == VendorId ==> o.retries < MaxRetries)
      && IdReads(o.state.trace) == IdReads(s.trace) + o.retries - retries + (if id != VendorId && o.id == VendorId then 1 else 0)
      && Writes(bus, o.state.trace) == Writes(bus, s.trace)
    decreases MaxRetries - retries, if id == VendorId then 0 else 1
  {
    if id != VendorId && retries < MaxRetries {
      var rd := ReadSpec(bus, s, VendorIdReg, id);
      ReadIsNoWrite(bus, s, VendorIdReg, id);
      var retries' := if rd.status != Ok || rd.data != VendorId then retries + 1 else retries;
      IdLoopSpec(bus, rd.state, rd.data, retries');
    }
  }

  /** The vendor-ID check of Init_ADAU7118: it reads the register at least
      once and at most MaxRetries times, it ends with the ID matched or
      after MaxRetries failed or wrong reads, and it writes no register. */
  lemma IdPhase(bus: Bus, s: State)
    requires s.dev
    ensures var o := IdLoop(bus, s, 0, 0);
      var count := IdReads(o.state.trace) - IdReads(s.trace);
      && o.state.bus == s.bus && o.state.dev
      && IdReads(s.trace) <= IdReads(o.state.trace)
      && 1 <= count <= MaxRetries
      && (o.id != VendorId ==> count == MaxRetries)
      && Writes(bus, o.state.trace) == Writes(bus, s.trace)
  {
    IdLoopSpec(bus, s, 0, 0);
  }

  /** The table of steps and the list of writes agree. */
  lemma ConfigTablesAgree(i: nat)
    requires i < |Config|
    ensures ConfigWrites[i] == [Config[i].reg, Config[i].value]
  {
  }

  /** One configuration step adds its write, with the bus's reply, to the
      write log, and its read-back adds none. */
  lemma ConfigStepLog(bus: Bus, s: State, i: nat)
    requires s.dev && i < |Config|
    ensures var w := WriteSpec(bus, s, Config[i].reg, Config[i].value);
      var entry := Written(ConfigWrites[i], w.status);
      && Writes(bus, w.state.trace) == Writes(bus, s.trace) + [entry]
      && Writes(bus, ReadBack(bus, w.state, i).trace) == Writes(bus, s.trace) + [entry]
      && ReadBack(bus, w.state, i).dev
  {
    ConfigTablesAgree(i);
    WritesIssue(bus, s.trace, Transmit([Config[i].reg, Config[i].value]));
    var w := WriteSpec(bus, s, Config[i].reg, Config[i].value);
    ReadIsNoWrite(bus, w.state, Config[i].reg, 0);
  }

  /** Splitting the tail of a log after its first new entry. */
  lemma AfterCons(before: seq<Written>, entry: Written, after: seq<Written>)
    requires before + [entry] <= after
    ensures before <= after && After(after, |before|) == [entry] + After(after, |before| + 1)
  {
    assert after[..|before|] == (before + [entry])[..|before|] == before;
    assert after[|before|] == entry;
  }

  /** The configuration sequence from step i adds to the write log exactly
      the log ConfigLog describes. */
  lemma {:induction false} ConfigFromSpec(bus: Bus, s: State, i: nat)
    requires s.dev && i <= |Config|
    ensures var o := ConfigFrom(bus, s, i);
      var before := Writes(bus, s.trace);
      var after := Writes(bus, o.state.trace);
      before <= after && ConfigLog(After(after, |before|), i, o.status)
    decreases |Config| - i
  {
    var o := ConfigFrom(bus, s, i);
    var before := Writes(bus, s.trace);
    if i == |Config| {
      assert After(before, |before|) == [];
    } else {
      var w := WriteSpec(bus, s, Config[i].reg, Config[i].value);
      var entry := Written(ConfigWrites[i], w.status);
      ConfigStepLog(bus, s, i);
      var mid := before + [entry];
      if w.status != Ok {
        assert After(mid, |before|) == [entry];
      } else {
        var next := ReadBack(bus, w.state, i);
        ConfigFromSpec(bus, next, i + 1);
        AfterCons(before, entry, Writes(bus, o.state.trace));
        ConfigLogCons(entry, After(Writes(bus, o.state.trace), |mid|), i, o.status);
      }
    }
  }

  /** adau7118_init_i2c puts no register write on the bus. */
  lemma InitI2cNoWrite(bus: Bus, s: State)
    ensures Writes(bus, InitI2cSpec(bus, s).state.trace) == Writes(bus, s.trace)
  {
    var t := s.trace;
    WritesIssue(bus, t, NewMasterBus);
    WritesIssue(bus, t + [NewMasterBus], AddDevice);
    WritesIssue(bus, t + [NewMasterBus] + [AddDevice], DelMasterBus);
  }

  /** Init_ADAU7118 from any state: it writes no register unless the I2C bus
      came up and the vendor ID matched, and the ID failure returns
      NOT_FOUND; once the ID matched, the writes it issues are those of the
      configuration sequence as ConfigLog describes them, so it returns Ok
      exactly when all seven were issued and answered Ok, and a failing
      write ends it with that write's status. The read-backs' replies play
      no part. */
  lemma InitSpecProperties(bus: Bus, s: State)
    ensures var o := InitSpec(bus, s);
      var i2c := InitI2cSpec(bus, s);
      var idOk := i2c.status == Ok && IdLoop(bus, i2c.state, 0, 0).id == VendorId;
      var before := Writes(bus, s.trace);
      var after := Writes(bus, o.state.trace);
      && before <= after
      && (i2c.status != Ok ==> o.status == i2c.status)
      && (i2c.status == Ok && !idOk ==> o.status == NotFound)
      && (!idOk ==> after == before)
      && (idOk ==> ConfigLog(After(after, |before|), 0, o.status))
      && (o.status == Ok ==> idOk)
  {
    var i2c := InitI2cSpec(bus, s);
    InitI2cNoWrite(bus, s);
    if i2c.status == Ok {
      IdPhase(bus, i2c.state);
      var id := IdLoop(bus, i2c.state, 0, 0);
      if id.id == VendorId {
        ConfigFromSpec(bus, id.state, 0);
      }
    }
  }

  /** The status of a complete Init_ADAU7118: Ok exactly when the vendor ID
      matched and all seven configuration writes went out and were answered
      Ok. */
  lemma InitOkIff(bus: Bus, s: State)
    ensures var o := InitSpec(bus, s);
      var i2c := InitI2cSpec(bus, s);
      var added := After(Writes(bus, o.state.trace), |Writes(bus, s.trace)|);
      o.status == Ok <==>
        && i2c.status == Ok && IdLoop(bus, i2c.state, 0, 0).id == VendorId
        && |added| == |ConfigWrites|
        && (forall j :: 0 <= j < |added| ==> added[j].bytes == ConfigWrites[j] && added[j].status == Ok)
  {
    InitSpecProperties(bus, s);
    var o := InitSpec(bus, s);
    var i2c := InitI2cSpec(bus, s);
    if i2c.status == Ok && IdLoop(bus, i2c.state, 0, 0).id == VendorId {
      ConfigLogMeaning(After(Writes(bus, o.state.trace), |Writes(bus, s.trace)|), 0, o.status);
    }
  }

  /** After adau7118_deinit both handles are NULL, and a second deinit
      issues no bus call and changes nothing. */
  lemma DeinitIdempotent(s: State)
    ensures !DeinitSpec(s).bus && !DeinitSpec(s).dev
    ensures DeinitSpec(DeinitSpec(s)) == DeinitSpec(s)
  {
  }

  // ---------------------------------------------------------------------
  // The driver
  // ---------------------------------------------------------------------

  class Driver {
    /** Every bus call so far, i2c_bus_handle != NULL, adau7118_dev_handle != NULL. */
    var trace: seq<Call>
    var bus: bool
    var dev: bool

    function St(): State
      reads this
    {
      State(trace, bus, dev)
    }

    /** Both handles NULL, no call made. */
    constructor ()
      ensures trace == [] && !bus && !dev
    {
      trace, bus, dev := [], false, false;
    }

    /** One bus call: its reply is the oracle's answer at this position. */
    method Call1(oracle: Bus, c: Call) returns (rep: Reply)
      modifies this`trace
      ensures trace == old(trace) + [c] && rep == oracle(|old(trace)|)
    {
      rep := oracle(|trace|);
      trace := trace + [c];
    }

    /** adau7118_write_reg: without a device handle INVALID_STATE and no bus
        call; otherwise one two-byte transmit, whose status is returned. */
    method WriteReg(oracle: Bus, reg: byte, value: byte) returns (r: Err)
      modifies this`trace
      ensures !dev ==> r == InvalidState && trace == old(trace)
      ensures dev ==> trace == old(trace) + [Transmit([reg, value])] && r == oracle(|old(trace)|).status
      ensures Outcome(r, St()) == WriteSpec(oracle, old(St()), reg, value)
    {
      if !dev {
        return InvalidState;
      }
      var rep := Call1(oracle, Transmit([reg, value]));
      return rep.status;
    }

    /** adau7118_read_reg; hasOut is false for a NULL output pointer, prior
        is what the output holds and data what it holds afterwards. Without
        a device handle or output INVALID_ARG and no bus call; otherwise the
        register address is sent, and when that fails its status is returned
        and nothing is received. */
    method ReadReg(oracle: Bus, reg: byte, hasOut: bool, prior: byte) returns (r: Err, data: byte)
      modifies this`trace
      ensures !dev || !hasOut ==> r == InvalidArg && data == prior && trace == old(trace)
      ensures dev && hasOut && oracle(|old(trace)|).status != Ok ==>
        r == oracle(|old(trace)|).status && data == prior && trace == old(trace) + [Transmit([reg])]
      ensures dev && hasOut && oracle(|old(trace)|).status == Ok ==>
        && trace == old(trace) + [Transmit([reg]), Receive]
        && r == oracle(|old(trace)| + 1).status
        && data == (if r == Ok then oracle(|old(trace)| + 1).data else prior)
      ensures hasOut ==> ReadOutcome(r, data, St()) == ReadSpec(oracle, old(St()), reg, prior)
    {
      if !dev || !hasOut {
        return InvalidArg, prior;
      }
      var sent := Call1(oracle, Transmit([reg]));
      if sent.status != Ok {
        return sent.status, prior;
      }
      var got := Call1(oracle, Receive);
      data := if got.status == Ok then got.data else prior;
      return got.status, data;
    }

    /** adau7118_init_i2c: create the bus, then add the device; when adding
        the device fails the bus is deleted and its handle cleared before the
        error is returned. */
    method InitI2c(oracle: Bus) returns (r: Err)
      modifies this
      ensures Outcome(r, St()) == InitI2cSpec(oracle, old(St()))
      ensures r == Ok ==> bus && dev
      ensures oracle(|old(trace)|).status == Ok && r != Ok ==>
        !bus && trace == old(trace) + [NewMasterBus, AddDevice, DelMasterBus]
    {
      var created := Call1(oracle, NewMasterBus);
      if created.status != Ok {
        return created.status;
      }
      bus := true;
      var added := Call1(oracle, AddDevice);
      if added.status != Ok {
        var _ := Call1(oracle, DelMasterBus);
        bus := false;
        return added.status;
      }
      dev := true;
      return Ok;
    }

    /** One block of the configuration sequence: step i's write, and its
        read-back (whose result is ignored) when the write succeeded. */
    method Configure(oracle: Bus, i: nat) returns (r: Err)
      requires i < |Config| && dev
      modifies this`trace
      ensures bus == old(bus) && dev == old(dev)
      ensures r != Ok ==> Outcome(r, St()) == ConfigFrom(oracle, old(St()), i)
      ensures r == Ok ==> ConfigFrom(oracle, St(), i + 1) == ConfigFrom(oracle, old(St()), i)
    {
      var step := Config[i];
      r := WriteReg(oracle, step.reg, step.value);
      if r != Ok {
        return;
      }
      if step.readBack {
        var check, readData := ReadReg(oracle, step.reg, true, 0);
      }
    }

    /** The vendor-ID loop of Init_ADAU7118: reads the ID register until it
        answers VendorId or MaxRetries reads have failed or answered
        something else. */
    method CheckId(oracle: Bus) returns (deviceId: byte)
      requires dev
      modifies this`trace
      ensures var o := IdLoop(oracle, old(St()), 0, 0);
        deviceId == o.id && St() == o.state
    {
      deviceId := 0;
      var retryCount: nat := 0;
      while deviceId != VendorId && retryCount < MaxRetries
        invariant retryCount <= MaxRetries
        invariant IdLoop(oracle, St(), deviceId, retryCount) == IdLoop(oracle, old(St()), 0, 0)
        decreases MaxRetries - retryCount, if deviceId == VendorId then 0 else 1
      {
        var status;
        status, deviceId := ReadReg(oracle, VendorIdReg, true, deviceId);
        if status != Ok {
          retryCount := retryCount + 1;
          continue;
        }
        if deviceId != VendorId {
          retryCount := retryCount + 1;
        }
      }
    }

    /** The seven configuration blocks of Init_ADAU7118, written out one
        after the other; the first failing write ends the sequence. */
    method ConfigureAll(oracle: Bus) returns (r: Err)
      requires dev
      modifies this`trace
      ensures Outcome(r, St()) == ConfigFrom(oracle, old(St()), 0)
    {
      r := Configure(oracle, 0);
      if r != Ok { return; }
      r := Configure(oracle, 1);
      if r != Ok { return; }
      r := Configure(oracle, 2);
      if r != Ok { return; }
      r := Configure(oracle, 3);
      if r != Ok { return; }
      r := Configure(oracle, 4);
      if r != Ok { return; }
      r := Configure(oracle, 5);
      if r != Ok { return; }
      r := Configure(oracle, 6);
      if r != Ok { return; }
      return Ok;
    }

    /** Init_ADAU7118: the I2C bring-up, the vendor-ID check with at most
        MaxRetries retries, then the seven configuration writes. */
    method Init(oracle: Bus) returns (r: Err)
      modifies this
      ensures Outcome(r, St()) == InitSpec(oracle, old(St()))
    {
      r := InitI2c(oracle);
      if r != Ok {
        return;
      }
      var deviceId := CheckId(oracle);
      if deviceId != VendorId {
        return NotFound;
      }
      r := ConfigureAll(oracle);
    }

    /** adau7118_deinit: removes the device and deletes the bus when their
        handles are set, leaving both NULL. */
    method Deinit()
      modifies this
      ensures St() == DeinitSpec(old(St()))
      ensures !bus && !dev
      ensures trace == old(trace) + (if old(dev) then [RmDevice] else []) + (if old(bus) then [DelMasterBus] else [])
    {
      if dev {
        trace := trace + [RmDevice];
        dev := false;
      }
      if bus {
        trace := trace + [DelMasterBus];
        bus := false;
      }
    }
  }
}
