/**
 * The command lifecycle of the cli package: setting up the PEI trace, finding the radio's
 * port, opening the PEI, clearing syntax errors, running the command body and shutting
 * the PEI down, with every error going to a fatal error handler.
 */
module Cli {
  import opened Wrappers
  import opened Text

  /** A device flag names the port itself unless it is empty or, in any case, "auto". */
  predicate IsOverride(device: string) {
    device != "" && Lower(device) != "auto"
  }

  /** "auto" counts in any mix of cases: every other non-empty flag is an override. */
  lemma AutoInAnyCase(device: string)
    ensures IsOverride(device) <==> device != "" && !SameIgnoringCase(device, "auto")
  {
    LowerFoldsCase(device, "auto");
    assert Lower("auto") == "auto";
  }

  const NoPeiHint: string :=
    "no active PEI interface found, use the --device parameter to provide the serial communication device"

  /** What serial.FindRadioPortName reports. */
  datatype Detection = Found(port: string) | NoPEIFound | DetectionFailed(cause: string)

  /** FindRadioPortName */
  function FindRadioPortName(device: string, detection: Detection): (r: Result<string>)
    ensures IsOverride(device) ==> r == Success(device)
    ensures !IsOverride(device) ==>
      && (detection.Found? <==> r.Success?)
      && (detection.Found? ==> r.value == detection.port)
      && (detection.NoPEIFound? ==> r == Failure(NoPeiHint))
      && (detection.DetectionFailed? ==> r == Failure(detection.cause))
  {
    if IsOverride(device) then Success(device)
    else match detection
      case NoPEIFound => Failure(NoPeiHint)
      case DetectionFailed(cause) => Failure(cause)
      case Found(port) => Success(port)
  }

  /**
   * The trace file as the `io.WriteCloser` setupTracePEI returns: no value, an open file,
   * or the typed nil that a failed os.OpenFile leaves in the interface, which compares
   * unequal to nil.
   */
  datatype TraceHandle = NilInterface | TraceFile(name: string) | NilFile

  datatype TraceSetup = TraceSetup(handle: TraceHandle, error: Option<string>)

  /** setupTracePEI, with `openError` the outcome of os.OpenFile. */
  function SetupTracePEI(filename: string, openError: Option<string>): (r: TraceSetup)
    ensures filename == "" ==> r == TraceSetup(NilInterface, None)
    ensures r.error.Some? <==> filename != "" && openError.Some?
    ensures r.handle == NilInterface <==> filename == ""
    ensures filename != "" && openError.None? ==> r.handle == TraceFile(filename)
  {
    if filename == "" then TraceSetup(NilInterface, None)
    else if openError.Some? then TraceSetup(NilFile, openError)
    else TraceSetup(TraceFile(filename), None)
  }

  /** The fatal error handler a command passes: none, the default one, or its own. */
  datatype FatalHandler = NilHandler | DefaultHandler | CustomHandler(returning: bool)

  /** A nil handler is replaced by the default one. */
  function EffectiveHandler(h: FatalHandler): (e: FatalHandler)
    ensures e != NilHandler
    ensures h == NilHandler ==> e == DefaultHandler
    ensures h != NilHandler ==> e == h
  {
    if h == NilHandler then DefaultHandler else h
  }

  /** The default handler prints and exits, and so does a custom one that does not return. */
  predicate Exits(h: FatalHandler) {
    h.DefaultHandler? || (h.CustomHandler? && !h.returning)
  }

  /** What the lifecycle depends on. */
  datatype Env = Env(
    device: string,
    traceFilename: string,
    traceOpenError: Option<string>,
    detection: Detection,
    openError: Option<string>,
    clearError: Option<string>,
    bodyExits: bool)          // the body ends the process through the command's own `fatal`

  datatype Step =
    | OpenTrace(filename: string)
    | Handled(message: string)                 // the fatal error handler is called
    | Open(port: string, traced: bool)         // serial.Open or serial.OpenWithTrace
    | ClearSyntaxErrors
    | Run(bounded: bool)                       // the body, with the command timeout or not
    | Reset                                    // ATZ on the shutdown context
    | Close
    | WaitUntilClosed
    | CloseTrace

  /** The steps taken, and whether the process exited after the last one. */
  datatype Life = Life(steps: seq<Step>, exited: bool)

  function IsStartupStep(st: Step): bool {
    st.OpenTrace? || st.Handled? || st.Open? || st.ClearSyntaxErrors?
  }

  predicate AllStartup(steps: seq<Step>) {
    forall i :: 0 <= i < |steps| ==> IsStartupStep(steps[i])
  }

  lemma AllStartupAppend(a: seq<Step>, b: seq<Step>)
    requires AllStartup(a) && AllStartup(b)
    ensures AllStartup(a + b)
  {
  }

  /** A step that may fail: the handler is called on failure, and its exit ends the run. */
  function Checked(problem: Option<string>, context: string): (steps: seq<Step>)
    ensures AllStartup(steps)
  {
    if problem.Some? then [Handled(context + problem.value)] else []
  }

  /**
   * What the steps before the body leave: the steps, whether the handler ended the
   * process, and whether the close of the trace file has been deferred.
   */
  datatype Started = Started(steps: seq<Step>, exited: bool, closesTrace: bool)

  /** setupTracePEI and its check. */
  function TraceSteps(env: Env): (steps: seq<Step>)
    ensures AllStartup(steps)
  {
    var s := (if env.traceFilename != "" then [OpenTrace(env.traceFilename)] else []);
    var c := Checked(SetupTracePEI(env.traceFilename, env.traceOpenError).error, "cannot access PEI trace file: ");
    AllStartupAppend(s, c);
    s + c
  }

  /** The port search and its check. */
  function PortSteps(port: Result<string>): (steps: seq<Step>)
    ensures AllStartup(steps)
  {
    if port.Failure? then [Handled(port.cause)] else []
  }

  /** serial.Open or serial.OpenWithTrace and its check. */
  function OpenSteps(port: Result<string>, traced: bool, openError: Option<string>): (steps: seq<Step>)
    ensures AllStartup(steps)
  {
    var c := Checked(openError, "cannot connect to radio: ");
    AllStartupAppend([Open(if port.Success? then port.value else "", traced)], c);
    [Open(if port.Success? then port.value else "", traced)] + c
  }

  /** ClearSyntaxErrors and its check. */
  function ClearSteps(clearError: Option<string>): (steps: seq<Step>)
    ensures AllStartup(steps)
  {
    var c := Checked(clearError, "cannot initialize radio: ");
    AllStartupAppend([ClearSyntaxErrors], c);
    [ClearSyntaxErrors] + c
  }

  /**
   * Everything RunWithPEI does before the body, with handler `h`. A handler that returns
   * lets it continue: a failed port search leaves the empty port name, and the typed nil
   * trace handle counts as a trace file.
   */
  function Startup(env: Env, h: FatalHandler): Started {
    var exits := Exits(EffectiveHandler(h));
    var trace := SetupTracePEI(env.traceFilename, env.traceOpenError);
    var s1 := TraceSteps(env);
    var traced := trace.handle != NilInterface;
    if trace.error.Some? && exits then Started(s1, true, false)
    else
      var port := FindRadioPortName(env.device, env.detection);
      var s2 := s1 + PortSteps(port);
      if port.Failure? && exits then Started(s2, true, false)
      else
        var s3 := s2 + OpenSteps(port, traced, env.openError);
        if env.openError.Some? && exits then Started(s3, true, traced)
        else Started(s3 + ClearSteps(env.clearError), env.clearError.Some? && exits, traced)
  }

  /** The steps before the body are only those, and they end the process only through a handler that exits. */
  lemma StartupSteps(env: Env, h: FatalHandler)
    ensures AllStartup(Startup(env, h).steps)
    ensures Startup(env, h).exited ==> Exits(EffectiveHandler(h))
    ensures Startup(env, h).exited <==> Exits(EffectiveHandler(h)) && Failed(env)
  {
    var s1 := TraceSteps(env);
    var port := FindRadioPortName(env.device, env.detection);
    var s2 := s1 + PortSteps(port);
    AllStartupAppend(s1, PortSteps(port));
    var traced := SetupTracePEI(env.traceFilename, env.traceOpenError).handle != NilInterface;
    var s3 := s2 + OpenSteps(port, traced, env.openError);
    AllStartupAppend(s2, OpenSteps(port, traced, env.openError));
    AllStartupAppend(s3, ClearSteps(env.clearError));
  }

  /** After the body returns: ATZ, Close, WaitUntilClosed, then the deferred close of the trace file. */
  function Shutdown(traced: bool): seq<Step> {
    [Reset, Close, WaitUntilClosed] + (if traced then [CloseTrace] else [])
  }

  /** RunWithPEI with handler `h`; `bounded` is RunWithPEIAndTimeout's command timeout. */
  function Lifecycle(env: Env, h: FatalHandler, bounded: bool): Life {
    var st := Startup(env, h);
    if st.exited then Life(st.steps, true)
    else if env.bodyExits then Life(st.steps + [Run(bounded)], true)
    else Life(st.steps + [Run(bounded)] + Shutdown(st.closesTrace), false)
  }

  // ---------------------------------------------------------------------------
  // Properties

  /** Some step before the body fails. */
  predicate Failed(env: Env) {
    || (env.traceFilename != "" && env.traceOpenError.Some?)
    || FindRadioPortName(env.device, env.detection).Failure?
    || env.openError.Some?
    || env.clearError.Some?
  }

  /**
   * With a handler that exits (the default one, which is also what a nil handler
   * becomes), the body runs exactly when no earlier step failed, and then it comes after
   * opening the trace file if one is named, opening the port (with a trace exactly when
   * a file is named) and ClearSyntaxErrors, in that order.
   */
  lemma ExitingLifecycle(env: Env, h: FatalHandler, bounded: bool)
    requires Exits(EffectiveHandler(h))
    ensures var life := Lifecycle(env, h, bounded);
      && (Run(bounded) in life.steps <==> !Failed(env))
      && (!Failed(env) ==>
            life.steps[..|Startup(env, h).steps| + 1]
              == (if env.traceFilename != "" then [OpenTrace(env.traceFilename)] else [])
                 + [Open(FindRadioPortName(env.device, env.detection).value, env.traceFilename != ""),
                    ClearSyntaxErrors, Run(bounded)])
  {
    var st := Startup(env, h);
    var life := Lifecycle(env, h, bounded);
    StartupSteps(env, h);
    if !Failed(env) {
      assert life.steps[..|st.steps| + 1] == st.steps + [Run(bounded)];
    }
  }

  /**
   * Shutdown happens only after the body returned: the body, then ATZ, Close and
   * WaitUntilClosed, then the trace file is closed. The process exits instead exactly
   * when the body ends it or an earlier step fails with a handler that exits, and then
   * none of the shutdown steps happen.
   */
  lemma ShutdownOrder(env: Env, h: FatalHandler, bounded: bool)
    ensures var life := Lifecycle(env, h, bounded);
      && (!life.exited <==> !env.bodyExits && !(Exits(EffectiveHandler(h)) && Failed(env)))
      && (!life.exited ==>
            var n := |Startup(env, h).steps|;
            && life.steps[n..n + 4] == [Run(bounded), Reset, Close, WaitUntilClosed]
            && |life.steps| == n + 4 + (if Startup(env, h).closesTrace then 1 else 0)
            && (Startup(env, h).closesTrace ==> life.steps[n + 4] == CloseTrace))
      && (life.exited ==> forall i :: 0 <= i < |life.steps| ==> !IsShutdownStep(life.steps[i]))
  {
    var st := Startup(env, h);
    StartupSteps(env, h);
    if Lifecycle(env, h, bounded).exited {
      ExitedWithoutShutdown(env, h, bounded);
    } else {
      assert Lifecycle(env, h, bounded).steps == st.steps + [Run(bounded)] + Shutdown(st.closesTrace);
      ShutdownAfter(st.steps, bounded, st.closesTrace);
    }
  }

  lemma ShutdownAfter(before: seq<Step>, bounded: bool, traced: bool)
    ensures var s, n := before + [Run(bounded)] + Shutdown(traced), |before|;
      && |s| == n + 4 + (if traced then 1 else 0)
      && s[n..n + 4] == [Run(bounded), Reset, Close, WaitUntilClosed]
      && (traced ==> s[n + 4] == CloseTrace)
  {
    var s := before + [Run(bounded)] + Shutdown(traced);
    assert s[|before|..] == [Run(bounded), Reset, Close, WaitUntilClosed] + (if traced then [CloseTrace] else []);
  }

  lemma ExitedWithoutShutdown(env: Env, h: FatalHandler, bounded: bool)
    requires Lifecycle(env, h, bounded).exited
    ensures var steps := Lifecycle(env, h, bounded).steps;
      forall i :: 0 <= i < |steps| ==> !IsShutdownStep(steps[i])
  {
    var st := Startup(env, h);
    StartupSteps(env, h);
    if !st.exited {
      assert Lifecycle(env, h, bounded).steps == st.steps + [Run(bounded)];
    }
  }

  function IsShutdownStep(st: Step): bool {
    st.Reset? || st.Close? || st.WaitUntilClosed? || st.CloseTrace?
  }

  /**
   * With a handler that returns, the body runs whatever fails, and the PEI is opened with
   * a trace exactly when a file is named: a failed trace setup still counts as a trace,
   * because its handle is a typed nil.
   */
  lemma ReturningHandlerContinues(env: Env, bounded: bool)
    ensures var life := Lifecycle(env, CustomHandler(true), bounded);
      var port := FindRadioPortName(env.device, env.detection);
      && Run(bounded) in life.steps
      && (life.exited <==> env.bodyExits)
      && Open(if port.Success? then port.value else "", env.traceFilename != "") in life.steps
      && Startup(env, CustomHandler(true)).closesTrace == (env.traceFilename != "")
  {
    var h := CustomHandler(true);
    var life := Lifecycle(env, h, bounded);
    var trace := SetupTracePEI(env.traceFilename, env.traceOpenError);
    var traced := trace.handle != NilInterface;
    var port := FindRadioPortName(env.device, env.detection);
    var s2 := TraceSteps(env) + PortSteps(port);
    var s3 := s2 + OpenSteps(port, traced, env.openError);
    var st := Startup(env, h);
    assert st == Started(s3 + ClearSteps(env.clearError), false, traced);
    var tail := if env.bodyExits then [] else Shutdown(traced);
    assert life.steps == st.steps + [Run(bounded)] + tail;
    assert life.steps[|st.steps|] == Run(bounded);
    assert life.steps[|s2|] == Open(if port.Success? then port.value else "", env.traceFilename != "");
  }

  /** RunWithPEIAndTimeout takes the same steps as RunWithPEI, only the body runs under the command timeout. */
  lemma TimeoutOnlyBoundsTheBody(env: Env, h: FatalHandler)
    ensures |Lifecycle(env, h, true).steps| == |Lifecycle(env, h, false).steps|
    ensures Lifecycle(env, h, true).exited == Lifecycle(env, h, false).exited
    ensures forall i :: 0 <= i < |Lifecycle(env, h, true).steps| ==>
      var a, b := Lifecycle(env, h, true).steps[i], Lifecycle(env, h, false).steps[i];
      a == b || (a == Run(true) && b == Run(false))
  {
    var st := Startup(env, h);
    if !st.exited {
      var tail := if env.bodyExits then [] else Shutdown(st.closesTrace);
      assert Lifecycle(env, h, true).steps == st.steps + [Run(true)] + tail;
      assert Lifecycle(env, h, false).steps == st.steps + [Run(false)] + tail;
      RunSwap(st.steps, tail);
    }
  }

  lemma RunSwap(before: seq<Step>, after: seq<Step>)
    ensures var a, b := before + [Run(true)] + after, before + [Run(false)] + after;
      |a| == |b| && forall i :: 0 <= i < |a| ==> a[i] == b[i] || (a[i] == Run(true) && b[i] == Run(false))
  {
  }

  // ---------------------------------------------------------------------------
  // The lifecycle as the source runs it, with its deferred calls

  /** The steps before the body, as RunWithPEI takes them, with the calls it defers. */
  method Start(env: Env, h: FatalHandler) returns (steps: seq<Step>, exited: bool, deferred: seq<Step>)
    requires h != NilHandler
    ensures Started(steps, exited, deferred == [CloseTrace]) == Startup(env, h)
    ensures deferred == [] || deferred == [CloseTrace]
  {
    var exits := Exits(h);
    assert exits == Exits(EffectiveHandler(h));
    steps, deferred := [], [];
    var trace := SetupTracePEI(env.traceFilename, env.traceOpenError);
    var traced := trace.handle != NilInterface;
    if env.traceFilename != "" {
      steps := steps + [OpenTrace(env.traceFilename)];
    }
    steps := steps + Checked(trace.error, "cannot access PEI trace file: ");
    assert steps == TraceSteps(env);
    if trace.error.Some? && exits {
      return steps, true, deferred;
    }
    var port := FindRadioPortName(env.device, env.detection);
    var portName := "";
    if port.Failure? {
      steps := steps + [Handled(port.cause)];
      if exits {
        return steps, true, deferred;
      }
    } else {
      portName := port.value;
    }
    ghost var s2 := TraceSteps(env) + PortSteps(port);
    assert steps == s2;
    if traced {
      deferred := [CloseTrace] + deferred;
    }
    steps := steps + ([Open(portName, traced)] + Checked(env.openError, "cannot connect to radio: "));
    ghost var s3 := s2 + OpenSteps(port, traced, env.openError);
    assert steps == s3;
    if env.openError.Some? && exits {
      return steps, true, deferred;
    }
    steps := steps + ([ClearSyntaxErrors] + Checked(env.clearError, "cannot initialize radio: "));
    assert steps == s3 + ClearSteps(env.clearError);
    exited := env.clearError.Some? && exits;
  }

  /** RunWithPEI / RunWithPEIAndTimeout: the steps are taken in order and the deferred ones run last, in reverse. */
  method RunWithPEI(env: Env, handler: FatalHandler, bounded: bool) returns (life: Life)
    ensures life == Lifecycle(env, handler, bounded)
  {
    var h := handler;
    if h == NilHandler {
      h := DefaultHandler;
    }
    var steps, exited, deferred := Start(env, h);
    assert Startup(env, h) == Startup(env, handler);
    if exited {
      return Life(steps, true);
    }
    steps := steps + [Run(bounded)];
    if env.bodyExits {
      return Life(steps, true);
    }
    steps := steps + [Reset, Close, WaitUntilClosed];
    life := Life(steps + deferred, false);
  }
}
