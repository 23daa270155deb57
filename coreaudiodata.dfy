/** The device-ownership and open/closed flags of `CoreAudioData`, and the
    four operations that update them: `SetHogStatus`, `SetMixingSupport`,
    `CloseAnalog` and `CloseSPDIF`. Every Core Audio call is a request the
    object issues; its outcome is a parameter. */
module CoreAudioState {
  import opened AudioTypes

  /** The fields of `CoreAudioData` these operations read or write.
      `unitOpen` stands for a non-null `mOutputUnit`. */
  datatype DeviceState = DeviceState(
    deviceID: uint32,
    unitOpen: bool,
    digitalInUse: bool,
    hog: int,
    mixerRestore: int,
    streamIndex: int,
    bytesPerPacket: uint32,
    revertFormat: bool,
    ioProc: bool,
    initialized: bool,
    started: bool,
    wasDigital: bool)

  /** The member initialisers: nothing open, nobody hogging, no mixer
      setting to restore, no stream chosen. */
  function Initial(deviceID: uint32): DeviceState
  {
    DeviceState(deviceID, false, false, -1, -1, -1, UInt32Max, false, false, false, false, false)
  }

  /** The Core Audio calls the operations make, in the order they make them. */
  datatype Request =
    | StopUnit            // AudioOutputUnitStop
    | UninitializeUnit    // AudioUnitUninitialize
    | DisposeUnit         // AudioComponentInstanceDispose
    | ToggleHog           // write of kAudioDevicePropertyHogMode
    | ReadMixing          // read of kAudioDevicePropertySupportsMixing
    | WriteMixing(enable: bool)
    | StopDevice          // AudioDeviceStop
    | DestroyIOProc       // AudioDeviceDestroyIOProcID
    | RevertFormat        // AudioStreamChangeFormat back to mFormatOrig
    | UnloadHardware      // AudioHardwareUnload

  /** The outcome of a hog-mode write: its status and the process id found
      in the written variable afterwards, which is how the code learns who
      owns the device. */
  datatype HogReply = HogReply(status: int, owner: int)

  /** The new state, the request log extended by the calls made, and the
      operation's boolean result. */
  datatype Step = Step(state: DeviceState, log: seq<Request>, ok: bool)

  /** `log'` is `log` followed by further requests. */
  predicate Extends(log': seq<Request>, log: seq<Request>)
  {
    |log| <= |log'| && log'[..|log|] == log
  }

  /** The requests an operation added to `log`. */
  function Issued(log': seq<Request>, log: seq<Request>): seq<Request>
    requires |log| <= |log'|
  {
    log'[|log|..]
  }

  /** The invariant the flag state keeps: the mixer setting to restore is
      unknown (-1), off (0) or on (1), a stream index is -1 or an index, and
      a format to revert exists only while the digital output is in use. */
  predicate Valid(s: DeviceState)
  {
    -1 <= s.mixerRestore <= 1
    && s.streamIndex >= -1
    && (s.revertFormat ==> s.digitalInUse)
  }

  /** `SetHogStatus(hog)`. Taking hog mode writes only when nobody is
      recorded as owner, and the owner the device then reports is recorded;
      it succeeds when that owner is this process. Releasing writes -1 only
      when an owner is recorded, and succeeds, recording the reported
      owner, when that owner is no longer this process. */
  function SetHogStep(s: DeviceState, log: seq<Request>, hog: bool, pid: int, reply: HogReply): Step
  {
    if s.deviceID == 0 then Step(s, log, false)
    else if hog then
      if s.hog == -1 then Step(s.(hog := reply.owner), log + [ToggleHog], reply.status == 0 && reply.owner == pid)
      else Step(s, log, true)
    else
      if s.hog > -1 then
        if reply.status != 0 || reply.owner == pid then Step(s, log + [ToggleHog], false)
        else Step(s.(hog := reply.owner), log + [ToggleHog], true)
      else Step(s, log, true)
  }

  /** `SetMixingSupport(mix)`: the first change reads the current setting
      (`mixingNow`, false when the read fails) so it can be restored; the
      write's `status` decides the result, and only a successful first
      change records the setting to restore. */
  function SetMixingStep(s: DeviceState, log: seq<Request>, mix: bool, mixingNow: bool, status: int): Step
  {
    if s.deviceID == 0 then Step(s, log, false)
    else
      var first := s.mixerRestore == -1;
      var log' := (if first then log + [ReadMixing] else log) + [WriteMixing(mix)];
      if status != 0 then Step(s, log', false)
      else if first then Step(s.(mixerRestore := if mixingNow then 1 else 0), log', true)
      else Step(s, log', true)
  }

  /** `CloseAnalog`: stop, uninitialise and dispose of an open output unit
      (stop and uninitialise only when started and initialised), then clear
      the four analog flags. */
  function CloseAnalogStep(s: DeviceState, log: seq<Request>): Step
  {
    var log1 := if s.unitOpen && s.started then log + [StopUnit] else log;
    var log2 := if s.unitOpen && s.initialized then log1 + [UninitializeUnit] else log1;
    var log3 := if s.unitOpen then log2 + [DisposeUnit] else log2;
    Step(s.(unitOpen := false, ioProc := false, initialized := false, started := false, wasDigital := false),
         log3, true)
  }

  /** The start of `CloseSPDIF`: stop the device if started, remove the IO
      proc if installed, and revert the stream format if it was changed. */
  function HaltDigitalStep(s: DeviceState, log: seq<Request>): Step
  {
    var log1 := if s.started then log + [StopDevice] else log;
    var log2 := if s.ioProc then log1 + [DestroyIOProc] else log1;
    var log3 := if s.revertFormat then log2 + [RevertFormat] else log2;
    Step(s.(started := false, ioProc := false, revertFormat := false), log3, true)
  }

  /** Give back the mixer setting recorded by the first `SetMixingSupport`,
      if there is one. */
  function RestoreMixingStep(s: DeviceState, log: seq<Request>, mixStatus: int): Step
  {
    if s.mixerRestore > -1 then SetMixingStep(s, log, s.mixerRestore != 0, false, mixStatus)
    else Step(s, log, true)
  }

  /** The end of `CloseSPDIF`: unload the hardware, forget the mixer setting,
      the packet size and the stream, and remember that the output was digital. */
  function UnloadStep(s: DeviceState, log: seq<Request>): Step
  {
    Step(s.(mixerRestore := -1, bytesPerPacket := UInt32Max, streamIndex := -1, wasDigital := true),
         log + [UnloadHardware], true)
  }

  /** `CloseSPDIF`: a no-op unless digital output is in use; otherwise halt
      the digital output, release hog mode, restore the recorded mixer
      setting, unload the hardware and reset the digital bookkeeping.
      `mDigitalInUse` is left as it was, and the results of the device calls
      are ignored. */
  function CloseSPDIFStep(s: DeviceState, log: seq<Request>, pid: int, hogReply: HogReply, mixStatus: int): Step
  {
    if !s.digitalInUse then Step(s, log, true)
    else
      var a := HaltDigitalStep(s, log);
      var h := SetHogStep(a.state, a.log, false, pid, hogReply);
      var m := RestoreMixingStep(h.state, h.log, mixStatus);
      var u := UnloadStep(m.state, m.log);
      Step(u.state, u.log, true)
  }

  /** The request `r` when `c` holds, else nothing. */
  function When(c: bool, r: Request): seq<Request>
  {
    if c then [r] else []
  }

  lemma ExtendsItself(log: seq<Request>)
    ensures Extends(log, log) && Issued(log, log) == []
  {
  }

  lemma ExtendsByOne(log: seq<Request>, c: bool, x: Request)
    ensures var log' := if c then log + [x] else log;
      Extends(log', log) && Issued(log', log) == When(c, x)
  {
    if c {
      assert (log + [x])[..|log|] == log;
    }
  }

  /** Logs extended twice are extended by both batches, in order. */
  lemma {:induction false} ExtendsChain(l0: seq<Request>, l1: seq<Request>, l2: seq<Request>)
    requires Extends(l1, l0) && Extends(l2, l1)
    ensures Extends(l2, l0) && Issued(l2, l0) == Issued(l1, l0) + Issued(l2, l1)
  {
    assert l2[..|l0|] == l2[..|l1|][..|l0|];
    assert l2[|l0|..] == l2[|l0|..|l1|] + l2[|l1|..];
    assert l2[|l0|..|l1|] == l2[..|l1|][|l0|..];
  }

  /** A hog-mode operation changes only the recorded owner. */
  lemma SetHogOnlyTouchesHog(s: DeviceState, log: seq<Request>, hog: bool, pid: int, reply: HogReply)
    ensures var r := SetHogStep(s, log, hog, pid, reply);
      r.state == s.(hog := r.state.hog)
  {
  }

  /** A hog-mode operation issues the one write exactly when the device is
      known and there is something to change: no owner recorded when
      taking, an owner recorded when releasing. */
  lemma SetHogRequests(s: DeviceState, log: seq<Request>, hog: bool, pid: int, reply: HogReply)
    ensures var r := SetHogStep(s, log, hog, pid, reply);
      Extends(r.log, log)
      && Issued(r.log, log) == When(s.deviceID != 0 && (if hog then s.hog == -1 else s.hog > -1), ToggleHog)
  {
    ExtendsByOne(log, s.deviceID != 0 && (if hog then s.hog == -1 else s.hog > -1), ToggleHog);
  }

  /** Taking hog mode succeeds exactly when the device is known and either
      an owner was already recorded or the write succeeds and the device
      reports this process; on
      success this process is the recorded owner unless one already was. */
  lemma TakeHog(s: DeviceState, log: seq<Request>, pid: int, reply: HogReply)
    ensures var r := SetHogStep(s, log, true, pid, reply);
      (r.ok <==> s.deviceID != 0 && (s.hog != -1 || (reply.status == 0 && reply.owner == pid)))
      && (r.ok ==> r.state.hog == (if s.hog == -1 then pid else s.hog))
  {
  }

  /** Releasing hog mode succeeds exactly when the device is known and
      either no owner was recorded or the device accepted the write and no
      longer reports this process; a successful release never leaves this
      process recorded as owner, and a failed one changes nothing. */
  lemma ReleaseHog(s: DeviceState, log: seq<Request>, pid: int, reply: HogReply)
    ensures var r := SetHogStep(s, log, false, pid, reply);
      (r.ok <==> s.deviceID != 0 && (s.hog <= -1 || (reply.status == 0 && reply.owner != pid)))
      && (r.ok && s.hog > -1 ==> r.state.hog != pid)
      && (!r.ok ==> r.state == s)
  {
  }

  /** `SetMixingSupport` changes only the setting to restore, and that only
      on the first successful change, where it records the setting read
      before the write; it succeeds exactly when the device is known and the
      write succeeds. */
  lemma MixingRecordedOnce(s: DeviceState, log: seq<Request>, mix: bool, mixingNow: bool, status: int)
    ensures var r := SetMixingStep(s, log, mix, mixingNow, status);
      r.state == s.(mixerRestore := r.state.mixerRestore)
      && (r.ok <==> s.deviceID != 0 && status == 0)
      && r.state.mixerRestore == (if r.ok && s.mixerRestore == -1 then (if mixingNow then 1 else 0) else s.mixerRestore)
      && (Valid(s) ==> Valid(r.state))
  {
  }

  /** A known device always gets the mixing write, preceded by a read of
      the current setting on the first change; an unknown one gets nothing. */
  lemma MixingRequests(s: DeviceState, log: seq<Request>, mix: bool, mixingNow: bool, status: int)
    ensures var r := SetMixingStep(s, log, mix, mixingNow, status);
      Extends(r.log, log)
      && Issued(r.log, log) == When(s.deviceID != 0 && s.mixerRestore == -1, ReadMixing)
                               + When(s.deviceID != 0, WriteMixing(mix))
  {
    var known := s.deviceID != 0;
    var log1 := if known && s.mixerRestore == -1 then log + [ReadMixing] else log;
    var log2 := if known then log1 + [WriteMixing(mix)] else log1;
    ExtendsByOne(log, known && s.mixerRestore == -1, ReadMixing);
    ExtendsByOne(log1, known, WriteMixing(mix));
    ExtendsChain(log, log1, log2);
  }

  /** The calls `CloseAnalog` makes: dispose of an open unit, stopping and
      uninitialising it first exactly when it was started and initialised. */
  lemma CloseAnalogRequests(s: DeviceState, log: seq<Request>)
    ensures var r := CloseAnalogStep(s, log);
      Extends(r.log, log)
      && Issued(r.log, log) == When(s.unitOpen && s.started, StopUnit)
                               + When(s.unitOpen && s.initialized, UninitializeUnit)
                               + When(s.unitOpen, DisposeUnit)
  {
    var log1 := if s.unitOpen && s.started then log + [StopUnit] else log;
    var log2 := if s.unitOpen && s.initialized then log1 + [UninitializeUnit] else log1;
    var log3 := if s.unitOpen then log2 + [DisposeUnit] else log2;
    ExtendsByOne(log, s.unitOpen && s.started, StopUnit);
    ExtendsByOne(log1, s.unitOpen && s.initialized, UninitializeUnit);
    ExtendsByOne(log2, s.unitOpen, DisposeUnit);
    ExtendsChain(log, log1, log2);
    ExtendsChain(log, log2, log3);
  }

  /** `CloseAnalog` leaves the unit closed and the four flags false, changes
      nothing else, and keeps the invariant. */
  lemma CloseAnalogResets(s: DeviceState, log: seq<Request>)
    ensures var r := CloseAnalogStep(s, log);
      !r.state.unitOpen && !r.state.ioProc && !r.state.initialized && !r.state.started && !r.state.wasDigital
      && r.state.(unitOpen := s.unitOpen, ioProc := s.ioProc, initialized := s.initialized,
                  started := s.started, wasDigital := s.wasDigital) == s
      && (Valid(s) ==> Valid(r.state))
  {
  }

  /** Closing the analog output a second time issues nothing and changes nothing. */
  lemma CloseAnalogIdempotent(s: DeviceState, log: seq<Request>, log': seq<Request>)
    ensures var r := CloseAnalogStep(s, log);
      CloseAnalogStep(r.state, log') == Step(r.state, log', true)
  {
  }

  /** The calls the start of `CloseSPDIF` makes. */
  lemma HaltDigitalRequests(s: DeviceState, log: seq<Request>)
    ensures var r := HaltDigitalStep(s, log);
      Extends(r.log, log)
      && Issued(r.log, log) == When(s.started, StopDevice) + When(s.ioProc, DestroyIOProc)
                               + When(s.revertFormat, RevertFormat)
  {
    var log1 := if s.started then log + [StopDevice] else log;
    var log2 := if s.ioProc then log1 + [DestroyIOProc] else log1;
    var log3 := if s.revertFormat then log2 + [RevertFormat] else log2;
    ExtendsByOne(log, s.started, StopDevice);
    ExtendsByOne(log1, s.ioProc, DestroyIOProc);
    ExtendsByOne(log2, s.revertFormat, RevertFormat);
    ExtendsChain(log, log1, log2);
    ExtendsChain(log, log2, log3);
  }

  /** The calls `CloseSPDIF` makes when digital output is in use: stop the
      device, remove the IO proc and revert the format where needed, release
      a recorded hog, restore a recorded mixer setting (never reading it),
      and finally unload the hardware. */
  lemma CloseSPDIFRequests(s: DeviceState, log: seq<Request>, pid: int, hogReply: HogReply, mixStatus: int)
    requires s.digitalInUse
    ensures var r := CloseSPDIFStep(s, log, pid, hogReply, mixStatus);
      Extends(r.log, log)
      && Issued(r.log, log) == When(s.started, StopDevice) + When(s.ioProc, DestroyIOProc)
                               + When(s.revertFormat, RevertFormat)
                               + When(s.deviceID != 0 && s.hog > -1, ToggleHog)
                               + When(s.deviceID != 0 && s.mixerRestore > -1, WriteMixing(s.mixerRestore != 0))
                               + [UnloadHardware]
  {
    var a := HaltDigitalStep(s, log);
    var h := SetHogStep(a.state, a.log, false, pid, hogReply);
    var m := RestoreMixingStep(h.state, h.log, mixStatus);
    var u := UnloadStep(m.state, m.log);
    HaltDigitalRequests(s, log);
    SetHogRequests(a.state, a.log, false, pid, hogReply);
    if h.state.mixerRestore > -1 {
      MixingRequests(h.state, h.log, h.state.mixerRestore != 0, false, mixStatus);
    } else {
      ExtendsItself(h.log);
    }
    ExtendsByOne(m.log, true, UnloadHardware);
    ExtendsChain(log, a.log, h.log);
    ExtendsChain(log, h.log, m.log);
    ExtendsChain(log, m.log, u.log);
  }

  /** `CloseSPDIF` does nothing unless digital output is in use. Otherwise
      it leaves the device stopped, without IO proc, format to revert, mixer
      setting, packet size or stream, and marked as digital, still in
      digital use, with the analog flags untouched; it keeps the invariant. */
  lemma CloseSPDIFResets(s: DeviceState, log: seq<Request>, pid: int, hogReply: HogReply, mixStatus: int)
    ensures var r := CloseSPDIFStep(s, log, pid, hogReply, mixStatus);
      (!s.digitalInUse ==> r.state == s && r.log == log)
      && (s.digitalInUse ==>
            r.state.digitalInUse && !r.state.started && !r.state.ioProc && !r.state.revertFormat
            && r.state.mixerRestore == -1 && r.state.streamIndex == -1
            && r.state.bytesPerPacket == UInt32Max && r.state.wasDigital
            && r.state.unitOpen == s.unitOpen && r.state.initialized == s.initialized
            && r.state.deviceID == s.deviceID)
      && (Valid(s) ==> Valid(r.state))
  {
    if s.digitalInUse {
      var a := HaltDigitalStep(s, log);
      SetHogOnlyTouchesHog(a.state, a.log, false, pid, hogReply);
    }
  }

  /** `CloseSPDIF` restores mixing exactly when a setting was recorded (and
      the device is known), to that setting, and never reads it. */
  lemma CloseSPDIFRestoresMixing(s: DeviceState, log: seq<Request>, pid: int, hogReply: HogReply, mixStatus: int,
                                 enable: bool)
    requires s.digitalInUse
    ensures var r := CloseSPDIFStep(s, log, pid, hogReply, mixStatus);
      Extends(r.log, log)
      && ReadMixing !in Issued(r.log, log)
      && (WriteMixing(enable) in Issued(r.log, log) <==>
            s.deviceID != 0 && s.mixerRestore > -1 && enable == (s.mixerRestore != 0))
  {
    CloseSPDIFRequests(s, log, pid, hogReply, mixStatus);
    var r := CloseSPDIFStep(s, log, pid, hogReply, mixStatus);
    MixingAmongCloseRequests(s, Issued(r.log, log), enable);
  }

  /** Among the calls `CloseSPDIF` makes, the only mixing call is the
      restoring write. */
  lemma MixingAmongCloseRequests(s: DeviceState, q: seq<Request>, enable: bool)
    requires q == When(s.started, StopDevice) + When(s.ioProc, DestroyIOProc)
                  + When(s.revertFormat, RevertFormat)
                  + When(s.deviceID != 0 && s.hog > -1, ToggleHog)
                  + When(s.deviceID != 0 && s.mixerRestore > -1, WriteMixing(s.mixerRestore != 0))
                  + [UnloadHardware]
    ensures ReadMixing !in q
    ensures WriteMixing(enable) in q <==> s.deviceID != 0 && s.mixerRestore > -1 && enable == (s.mixerRestore != 0)
  {
  }

  /** Because `CloseSPDIF` keeps `mDigitalInUse`, calling it again runs
      once more, but then only releases a hog still recorded and unloads
      the hardware. */
  lemma CloseSPDIFAgain(s: DeviceState, log: seq<Request>, pid: int, hogReply: HogReply, mixStatus: int,
                        hogReply': HogReply, mixStatus': int)
    requires s.digitalInUse
    ensures var r := CloseSPDIFStep(s, log, pid, hogReply, mixStatus);
      var r2 := CloseSPDIFStep(r.state, r.log, pid, hogReply', mixStatus');
      Extends(r2.log, r.log)
      && Issued(r2.log, r.log) == When(s.deviceID != 0 && r.state.hog > -1, ToggleHog) + [UnloadHardware]
  {
    var r := CloseSPDIFStep(s, log, pid, hogReply, mixStatus);
    CloseSPDIFResets(s, log, pid, hogReply, mixStatus);
    CloseSPDIFRequests(r.state, r.log, pid, hogReply', mixStatus');
  }

  /** A new object satisfies the invariant. */
  lemma InitialValid(id: uint32)
    ensures Valid(Initial(id))
  {
  }

  /** On a state that keeps the invariant, the restoring write of `CloseSPDIF`
      turns mixing on exactly when the setting recorded by the first
      `SetMixingSupport` was on (1), and off exactly when it was off (0). */
  lemma CloseSPDIFRestoresRecorded(s: DeviceState, log: seq<Request>, pid: int, hogReply: HogReply, mixStatus: int)
    requires Valid(s) && s.digitalInUse
    ensures var r := CloseSPDIFStep(s, log, pid, hogReply, mixStatus);
      Extends(r.log, log)
      && (WriteMixing(true) in Issued(r.log, log) <==> s.deviceID != 0 && s.mixerRestore == 1)
      && (WriteMixing(false) in Issued(r.log, log) <==> s.deviceID != 0 && s.mixerRestore == 0)
  {
    CloseSPDIFRestoresMixing(s, log, pid, hogReply, mixStatus, true);
    CloseSPDIFRestoresMixing(s, log, pid, hogReply, mixStatus, false);
  }

  /** The object: its fields, and the log of the Core Audio calls it has made. */
  class CoreAudioData {
    var deviceID: uint32
    var unitOpen: bool
    var digitalInUse: bool
    var hog: int
    var mixerRestore: int
    var streamIndex: int
    var bytesPerPacket: uint32
    var revertFormat: bool
    var ioProc: bool
    var initialized: bool
    var started: bool
    var wasDigital: bool
    var requests: seq<Request>

    function State(): DeviceState
      reads this
    {
      DeviceState(deviceID, unitOpen, digitalInUse, hog, mixerRestore, streamIndex, bytesPerPacket,
                  revertFormat, ioProc, initialized, started, wasDigital)
    }

    /** `CoreAudioData(parent, deviceID)`, without the device reset it performs first. */
    constructor(id: uint32)
      ensures State() == Initial(id) && requests == []
      ensures Valid(State())
    {
      deviceID, unitOpen, digitalInUse := id, false, false;
      hog, mixerRestore, streamIndex, bytesPerPacket := -1, -1, -1, UInt32Max;
      revertFormat, ioProc, initialized, started, wasDigital := false, false, false, false, false;
      requests := [];
    }

    method SetHogStatus(wantHog: bool, pid: int, reply: HogReply) returns (ok: bool)
      requires Valid(State())
      modifies this
      ensures Valid(State())
      ensures var step := SetHogStep(old(State()), old(requests), wantHog, pid, reply);
        State() == step.state && requests == step.log && ok == step.ok
    {
      if deviceID == 0 {
        return false;
      }
      if wantHog {
        if hog == -1 {
          requests := requests + [ToggleHog];
          hog := reply.owner;
          if reply.status != 0 || hog != pid {
            return false;
          }
        }
      } else {
        if hog > -1 {
          requests := requests + [ToggleHog];
          var hogPid := reply.owner;
          if reply.status != 0 || hogPid == pid {
            return false;
          }
          hog := hogPid;
        }
      }
      return true;
    }

    method SetMixingSupport(mix: bool, mixingNow: bool, status: int) returns (ok: bool)
      requires Valid(State())
      modifies this
      ensures Valid(State())
      ensures var step := SetMixingStep(old(State()), old(requests), mix, mixingNow, status);
        State() == step.state && requests == step.log && ok == step.ok
    {
      if deviceID == 0 {
        return false;
      }
      var restore := -1;
      if mixerRestore == -1 {
        requests := requests + [ReadMixing];
        restore := if mixingNow then 1 else 0;
      }
      requests := requests + [WriteMixing(mix)];
      if status != 0 {
        return false;
      }
      if mixerRestore == -1 {
        mixerRestore := restore;
      }
      return true;
    }

    method CloseAnalog()
      requires Valid(State())
      modifies this
      ensures Valid(State())
      ensures var step := CloseAnalogStep(old(State()), old(requests));
        State() == step.state && requests == step.log
    {
      if unitOpen {
        if started {
          requests := requests + [StopUnit];
        }
        if initialized {
          requests := requests + [UninitializeUnit];
        }
        requests := requests + [DisposeUnit];
        unitOpen := false;
      }
      ioProc := false;
      initialized := false;
      started := false;
      wasDigital := false;
    }

    /** The device-stopping steps at the start of `CloseSPDIF`. */
    method HaltDigital()
      requires Valid(State())
      modifies this
      ensures Valid(State())
      ensures var step := HaltDigitalStep(old(State()), old(requests));
        State() == step.state && requests == step.log
    {
      if started {
        requests := requests + [StopDevice];
        started := false;
      }
      if ioProc {
        requests := requests + [DestroyIOProc];
        ioProc := false;
      }
      if revertFormat {
        requests := requests + [RevertFormat];
        revertFormat := false;
      }
    }

    /** The unload and reset steps at the end of `CloseSPDIF`. */
    method Unload()
      requires Valid(State())
      modifies this
      ensures Valid(State())
      ensures var step := UnloadStep(old(State()), old(requests));
        State() == step.state && requests == step.log
    {
      requests := requests + [UnloadHardware];
      mixerRestore := -1;
      bytesPerPacket := UInt32Max;
      streamIndex := -1;
      wasDigital := true;
    }

    method CloseSPDIF(pid: int, hogReply: HogReply, mixStatus: int)
      requires Valid(State())
      modifies this
      ensures Valid(State())
      ensures var step := CloseSPDIFStep(old(State()), old(requests), pid, hogReply, mixStatus);
        State() == step.state && requests == step.log
    {
      if !digitalInUse {
        return;
      }
      HaltDigital();
      var _ := SetHogStatus(false, pid, hogReply);
      if mixerRestore > -1 {
        var _ := SetMixingSupport(mixerRestore != 0, false, mixStatus);
      }
      Unload();
    }
  }
}
