/**
 * The root command's own radio lifecycle runWithRadio, which wraps `trace-signal` (and,
 * as runCommandWithRadio with a command timeout, `bat` and `status`): finding the
 * serial port, opening it and the trace file, clearing syntax errors, running the body
 * and shutting the radio down, with `fatal` ending the process on any error.
 */
module Root {
  import opened Wrappers
  import opened Text
  import Cli

  /** An enumerated serial device. */
  datatype SerialDevice = SerialDevice(path: string, description: string)

  const PeiMarker: string := "tetra_pei_interface"

  predicate IsPeiDevice(d: SerialDevice) {
    Contains(Lower(d.description), PeiMarker)
  }

  /**
   * The position of the first device whose lowercased description names the PEI
   * interface, or the number of devices when there is none.
   */
  function FirstPeiIndex(devices: seq<SerialDevice>): (k: nat)
    ensures k <= |devices|
    ensures forall j :: 0 <= j < k ==> !IsPeiDevice(devices[j])
    ensures k < |devices| ==> IsPeiDevice(devices[k])
    decreases |devices|
  {
    if devices == [] || IsPeiDevice(devices[0]) then 0
    else
      var k := FirstPeiIndex(devices[1..]);
      assert forall j :: 1 <= j < k + 1 ==> devices[j] == devices[1..][j - 1];
      k + 1
  }

  /** The path of the first device whose lowercased description names the PEI interface. */
  function FirstPeiDevice(devices: seq<SerialDevice>): (r: Option<string>)
    ensures r.None? <==> forall i :: 0 <= i < |devices| ==> !IsPeiDevice(devices[i])
    ensures r.Some? ==> var k := FirstPeiIndex(devices);
      k < |devices| && r.value == devices[k].path && IsPeiDevice(devices[k])
      && forall j :: 0 <= j < k ==> !IsPeiDevice(devices[j])
  {
    var k := FirstPeiIndex(devices);
    if k < |devices| then Some(devices[k].path) else None
  }

  /** getRadioPortName as a function of the device flag and the enumeration. */
  function PortName(device: string, devices: Result<seq<SerialDevice>>): Result<string> {
    if Cli.IsOverride(device) then Success(device)
    else match devices
      case Failure(cause) => Failure(cause)
      case Success(list) =>
        match FirstPeiDevice(list)
        case None => Failure(Cli.NoPeiHint)
        case Some(path) => Success(path)
  }

  /**
   * getRadioPortName: an overriding device flag is returned as it is without enumerating;
   * otherwise an enumeration error is passed on, and the first device whose lowercased
   * description contains the PEI marker is chosen, or the hint error when there is none.
   */
  method GetRadioPortName(device: string, devices: Result<seq<SerialDevice>>) returns (r: Result<string>)
    ensures Cli.IsOverride(device) ==> r == Success(device)
    ensures !Cli.IsOverride(device) && devices.Failure? ==> r == Failure(devices.cause)
    ensures !Cli.IsOverride(device) && devices.Success? ==>
      && (r.Failure? <==> forall i :: 0 <= i < |devices.value| ==> !IsPeiDevice(devices.value[i]))
      && (r.Failure? ==> r.cause == Cli.NoPeiHint)
      && (r.Success? ==> var k := FirstPeiIndex(devices.value);
            && k < |devices.value| && IsPeiDevice(devices.value[k]) && r.value == devices.value[k].path
            && forall j :: 0 <= j < k ==> !IsPeiDevice(devices.value[j]))
    ensures r == PortName(device, devices)
  {
    if Cli.IsOverride(device) {
      return Success(device);
    }
    if devices.Failure? {
      return Failure(devices.cause);
    }
    var list := devices.value;
    var i := 0;
    while i < |list|
      invariant 0 <= i <= |list|
      invariant forall j :: 0 <= j < i ==> !IsPeiDevice(list[j])
      invariant FirstPeiIndex(list) == i + FirstPeiIndex(list[i..])
    {
      var description := Lower(list[i].description);
      if Contains(description, PeiMarker) {
        return Success(list[i].path);
      }
      assert list[i..][1..] == list[i + 1..];
      i := i + 1;
    }
    return Failure(Cli.NoPeiHint);
  }

  /** What runWithRadio depends on. */
  datatype RootEnv = RootEnv(
    device: string,
    traceFilename: string,
    devices: Result<seq<SerialDevice>>,   // serialdet.List
    serialError: Option<string>,          // serial.Open
    traceOpenError: Option<string>,       // os.OpenFile
    clearError: Option<string>,           // ClearSyntaxErrors
    bodyFatal: Option<string>)            // the message when the body ends the process through `fatal`

  datatype RootStep =
    | OpenSerial(port: string)
    | OpenTraceFile(filename: string)
    | NewRadio(traced: bool)          // com.NewWithTrace or com.New
    | ClearSyntaxErrors
    | Body(bounded: bool)             // the command body, under the command timeout or not
    | Reset                           // ATZ on the shutdown context
    | Close
    | WaitUntilClosed
    | CloseTraceFile
    | CloseSerial

  /** The steps taken, and the message `fatal` printed when it ended the process. */
  datatype RootLife = RootLife(steps: seq<RootStep>, fatal: Option<string>)

  /** Opening the serial device, then the trace file when one is named. */
  function Opening(port: string, traceFilename: string): (steps: seq<RootStep>)
    ensures |steps| == (if traceFilename != "" then 2 else 1)
    ensures steps[0] == OpenSerial(port)
    ensures traceFilename != "" ==> steps[1] == OpenTraceFile(traceFilename)
    ensures forall i :: 0 <= i < |steps| ==> IsSetupStep(steps[i])
  {
    [OpenSerial(port)] + (if traceFilename != "" then [OpenTraceFile(traceFilename)] else [])
  }

  /** The steps before the body once every one of them succeeds. */
  function Setup(port: string, traceFilename: string): (steps: seq<RootStep>)
    ensures |steps| == |Opening(port, traceFilename)| + 2
    ensures steps[..|Opening(port, traceFilename)|] == Opening(port, traceFilename)
    ensures steps[|steps| - 2..] == [NewRadio(traceFilename != ""), ClearSyntaxErrors]
    ensures forall i :: 0 <= i < |steps| ==> IsSetupStep(steps[i])
  {
    Opening(port, traceFilename) + [NewRadio(traceFilename != ""), ClearSyntaxErrors]
  }

  /** The shutdown, then the deferred closes in reverse order of their deferral. */
  function Teardown(traceFilename: string): seq<RootStep> {
    [Reset, Close, WaitUntilClosed] + (if traceFilename != "" then [CloseTraceFile] else []) + [CloseSerial]
  }

  /**
   * runWithRadio, with `bounded` for runCommandWithRadio's command timeout. The deferred
   * closes of the trace file and the serial device run after the shutdown, in reverse
   * order of their deferral, and not at all when `fatal` exits.
   */
  function RunWithRadio(env: RootEnv, bounded: bool): RootLife {
    match PortName(env.device, env.devices)
    case Failure(cause) => RootLife([], Some(cause))
    case Success(port) =>
      if env.serialError.Some? then RootLife([OpenSerial(port)], env.serialError)
      else if env.traceFilename != "" && env.traceOpenError.Some? then
        RootLife(Opening(port, env.traceFilename), Some("cannot access PEI trace file: " + env.traceOpenError.value))
      else
        var started := Setup(port, env.traceFilename);
        if env.clearError.Some? then RootLife(started, Some("cannot connect to radio: " + env.clearError.value))
        else if env.bodyFatal.Some? then RootLife(started + [Body(bounded)], env.bodyFatal)
        else RootLife(started + [Body(bounded)] + Teardown(env.traceFilename), None)
  }

  // ---------------------------------------------------------------------------
  // Properties

  /** Whether the steps before the body all succeed. */
  predicate Starts(env: RootEnv) {
    && PortName(env.device, env.devices).Success?
    && env.serialError.None?
    && (env.traceFilename != "" ==> env.traceOpenError.None?)
    && env.clearError.None?
  }

  predicate IsSetupStep(st: RootStep) {
    st.OpenSerial? || st.OpenTraceFile? || st.NewRadio? || st.ClearSyntaxErrors?
  }

  /** The steps when every step before the body succeeds. */
  lemma StartedLife(env: RootEnv, bounded: bool)
    requires Starts(env)
    ensures var port := PortName(env.device, env.devices).value;
      RunWithRadio(env, bounded).steps
        == Setup(port, env.traceFilename) + [Body(bounded)]
           + (if env.bodyFatal.None? then Teardown(env.traceFilename) else [])
  {
  }

  /** The steps when one before the body fails: setup steps only, the trace file among them exactly when it was opened. */
  lemma FailedLife(env: RootEnv, bounded: bool)
    requires !Starts(env)
    ensures forall i :: 0 <= i < |RunWithRadio(env, bounded).steps| ==> IsSetupStep(RunWithRadio(env, bounded).steps[i])
    ensures OpenTraceFile(env.traceFilename) in RunWithRadio(env, bounded).steps <==>
      env.traceFilename != "" && PortName(env.device, env.devices).Success? && env.serialError.None?
  {
    var steps := RunWithRadio(env, bounded).steps;
    if PortName(env.device, env.devices).Success? && env.serialError.None? {
      var port := PortName(env.device, env.devices).value;
      var o := Opening(port, env.traceFilename);
      if env.traceFilename != "" && env.traceOpenError.Some? {
        assert steps == o;
        assert steps[1] == OpenTraceFile(env.traceFilename);
      } else {
        assert steps == Setup(port, env.traceFilename);
        assert steps == o + [NewRadio(env.traceFilename != ""), ClearSyntaxErrors];
        if env.traceFilename != "" {
          assert steps[1] == OpenTraceFile(env.traceFilename);
        }
      }
    }
  }

  /**
   * The trace file is opened exactly when it is named and the serial device opened, the
   * radio is traced exactly when it is named, and ClearSyntaxErrors comes right before
   * the body, which runs exactly when every earlier step succeeded.
   */
  lemma StartOrder(env: RootEnv, bounded: bool)
    ensures var life := RunWithRadio(env, bounded);
      && (OpenTraceFile(env.traceFilename) in life.steps <==>
            env.traceFilename != "" && PortName(env.device, env.devices).Success? && env.serialError.None?)
      && (Body(bounded) in life.steps <==> Starts(env))
      && (Starts(env) ==>
            var n := if env.traceFilename != "" then 4 else 3;
            && life.steps[n] == Body(bounded)
            && life.steps[n - 2..n] == [NewRadio(env.traceFilename != ""), ClearSyntaxErrors])
  {
    var steps := RunWithRadio(env, bounded).steps;
    if Starts(env) {
      StartedLife(env, bounded);
      var port := PortName(env.device, env.devices).value;
      var o := Opening(port, env.traceFilename);
      assert steps[..|o| + 2] == Setup(port, env.traceFilename);
      assert steps[|o| + 2] == Body(bounded);
      if env.traceFilename != "" {
        assert steps[1] == OpenTraceFile(env.traceFilename);
      } else {
        assert forall i :: 0 <= i < |steps| ==> steps[i] != OpenTraceFile(env.traceFilename);
      }
    } else {
      FailedLife(env, bounded);
      assert !IsSetupStep(Body(bounded));
    }
  }

  /**
   * After a body that returns: ATZ, Close and WaitUntilClosed in that order, then the
   * trace file, then the serial device. When `fatal` ends the process none of them runs.
   */
  lemma RootShutdownOrder(env: RootEnv, bounded: bool)
    ensures var life := RunWithRadio(env, bounded);
      && (Starts(env) && env.bodyFatal.None? ==>
            var n := if env.traceFilename != "" then 4 else 3;
            && life.steps[n + 1..] == [Reset, Close, WaitUntilClosed]
                                      + (if env.traceFilename != "" then [CloseTraceFile] else []) + [CloseSerial])
      && (!(Starts(env) && env.bodyFatal.None?) ==>
            Reset !in life.steps && Close !in life.steps && WaitUntilClosed !in life.steps
            && CloseTraceFile !in life.steps && CloseSerial !in life.steps)
  {
    if Starts(env) && env.bodyFatal.None? {
      TeardownAfterBody(env, bounded);
    } else {
      NoTeardown(env, bounded);
    }
  }

  lemma TeardownAfterBody(env: RootEnv, bounded: bool)
    requires Starts(env) && env.bodyFatal.None?
    ensures var steps := RunWithRadio(env, bounded).steps;
      var n := if env.traceFilename != "" then 4 else 3;
      |steps| >= n + 1 && steps[n + 1..] == Teardown(env.traceFilename)
  {
    StartedLife(env, bounded);
    var started := Setup(PortName(env.device, env.devices).value, env.traceFilename);
    assert |started| == if env.traceFilename != "" then 4 else 3;
  }

  lemma NoTeardown(env: RootEnv, bounded: bool)
    requires !(Starts(env) && env.bodyFatal.None?)
    ensures var steps := RunWithRadio(env, bounded).steps;
      Reset !in steps && Close !in steps && WaitUntilClosed !in steps
      && CloseTraceFile !in steps && CloseSerial !in steps
  {
    var steps := RunWithRadio(env, bounded).steps;
    if Starts(env) {
      StartedLife(env, bounded);
      SetupThenBody(Setup(PortName(env.device, env.devices).value, env.traceFilename), bounded);
    } else {
      FailedLife(env, bounded);
    }
    NoShutdownStep(steps, bounded);
  }

  lemma SetupThenBody(setup: seq<RootStep>, bounded: bool)
    requires forall i :: 0 <= i < |setup| ==> IsSetupStep(setup[i])
    ensures var steps := setup + [Body(bounded)];
      forall i :: 0 <= i < |steps| ==> IsSetupStep(steps[i]) || steps[i] == Body(bounded)
  {
  }

  lemma NoShutdownStep(steps: seq<RootStep>, bounded: bool)
    requires forall i :: 0 <= i < |steps| ==> IsSetupStep(steps[i]) || steps[i] == Body(bounded)
    ensures Reset !in steps && Close !in steps && WaitUntilClosed !in steps
      && CloseTraceFile !in steps && CloseSerial !in steps
  {
  }

  // ---------------------------------------------------------------------------
  // The lifecycle as the source runs it, with its deferred calls

  /** runWithRadio / runCommandWithRadio */
  method RunRadioCommand(env: RootEnv, bounded: bool) returns (life: RootLife)
    ensures life == RunWithRadio(env, bounded)
  {
    var steps: seq<RootStep> := [];
    var deferred: seq<RootStep> := [];
    var port := GetRadioPortName(env.device, env.devices);
    if port.Failure? {
      return RootLife(steps, Some(port.cause));
    }
    steps := steps + [OpenSerial(port.value)];
    if env.serialError.Some? {
      return RootLife(steps, env.serialError);
    }
    deferred := [CloseSerial] + deferred;
    var traced := false;
    if env.traceFilename != "" {
      steps := steps + [OpenTraceFile(env.traceFilename)];
      if env.traceOpenError.Some? {
        return RootLife(steps, Some("cannot access PEI trace file: " + env.traceOpenError.value));
      }
      deferred := [CloseTraceFile] + deferred;
      traced := true;
    }
    assert steps == Opening(port.value, env.traceFilename);
    steps := steps + [NewRadio(traced), ClearSyntaxErrors];
    assert steps == Setup(port.value, env.traceFilename);
    if env.clearError.Some? {
      return RootLife(steps, Some("cannot connect to radio: " + env.clearError.value));
    }
    steps := steps + [Body(bounded)];
    if env.bodyFatal.Some? {
      return RootLife(steps, env.bodyFatal);
    }
    steps := steps + [Reset, Close, WaitUntilClosed];
    assert [Reset, Close, WaitUntilClosed] + deferred == Teardown(env.traceFilename);
    life := RootLife(steps + deferred, None);
  }
}
