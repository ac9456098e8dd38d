/**
 * The `trace-signal` command: after initialising the radio it scans the GPS position and
 * the signal strength once, then again on every tick of the scan ticker, until the
 * requested number of scans is reached or the context ends.
 */
module Signal {
  import opened Wrappers
  import opened Pei

  const TraceInit: seq<Command> := [At("ATZ"), At("ATE0"), At("AT+CSCS=8859-1")]

  /** One printed line: "[<time>] lat: … lon: … satellites: … signal: … dBm". */
  datatype ScanLine = ScanLine(time: int, latitude: real, longitude: real, satellites: int, dbm: int)

  datatype Scanned = Scanned(line: ScanLine, session: Session)

  /**
   * scanSignalAndPosition at clock value `now`: a failed position query is replaced by
   * zeros at the current time, a failed signal query by 0 dBm, and a line is printed
   * either way.
   */
  function Scan(s: Session, sc: Script, now: int): (r: Scanned)
    ensures r.session.log == s.log + [Issued(RequestGPSPosition), Issued(RequestSignalStrength)]
    ensures r.session == s.(log := r.session.log, exchanges := s.exchanges + 2)
    ensures NextReply(s, sc).Ok? ==>
      && r.line.latitude == sc.facts.position.latitude && r.line.longitude == sc.facts.position.longitude
      && r.line.satellites == sc.facts.position.satellites && r.line.time == sc.facts.position.time
    ensures NextReply(s, sc).Failed? ==>
      r.line.latitude == 0.0 && r.line.longitude == 0.0 && r.line.satellites == 0 && r.line.time == now
    ensures ReplyAt(sc.replies, s.exchanges + 1).Ok? ==> r.line.dbm == sc.facts.signal
    ensures ReplyAt(sc.replies, s.exchanges + 1).Failed? ==> r.line.dbm == 0
  {
    var gps := Query(s, sc, RequestGPSPosition, sc.facts.position);
    var position := if gps.result.Success? then gps.result.value else Position(0.0, 0.0, 0, now);
    var signal := Query(gps.session, sc, RequestSignalStrength, sc.facts.signal);
    var dbm := if signal.result.Success? then signal.result.value else 0;
    Scanned(ScanLine(position.time, position.latitude, position.longitude, position.satellites, dbm), signal.session)
  }

  datatype Traced = Traced(outcome: Outcome, lines: seq<ScanLine>, session: Session)

  /**
   * The scan goroutine with `count` scans done: a tick scans at the tick's clock value and
   * ends the loop once a positive limit `n` is reached, a cancellation ends it at once,
   * and an indication (nothing is registered here) is passed over.
   */
  function Tracing(s: Session, sc: Script, n: int, count: int, lines: seq<ScanLine>): Traced
    decreases Pending(s, sc)
  {
    var ob := Observe(s, sc);
    match ob.event
    case Cancel => Traced(Completed, lines, ob.session)
    case Indication(_, _) => Tracing(ob.session, sc, n, count, lines)
    case Tick(now) =>
      var scan := Scan(ob.session, sc, now);
      if n > 0 && count + 1 >= n then Traced(Completed, lines + [scan.line], scan.session)
      else Tracing(scan.session, sc, n, count + 1, lines + [scan.line])
  }

  /** runTraceSignal with the scan-count flag `n` and the clock value `now` of the first scan. */
  function RunTraceSignal(s: Session, sc: Script, n: int, now: int): Traced {
    var init := ExchangeAll(s, sc, TraceInit);
    if init.error.Some? then Traced(Fatal(Error("cannot initilize radio", init.error.value)), [], init.session)
    else
      var first := Scan(init.session, sc, now);
      if n == 1 then Traced(Completed, [first.line], first.session)
      else Tracing(first.session, sc, n, 1, [first.line])
  }

  /** The number of ticks among the events from index `i` up to the first cancellation. */
  function TicksBeforeCancel(events: seq<Event>, i: nat): nat
    decreases |events| - i
  {
    if i >= |events| || events[i].Cancel? then 0
    else (if events[i].Tick? then 1 else 0) + TicksBeforeCancel(events, i + 1)
  }

  function Min(a: int, b: int): int {
    if a <= b then a else b
  }

  // ---------------------------------------------------------------------------
  // Properties

  /**
   * The loop adds one line per tick until the first cancellation, and stops early once a
   * positive limit is reached; without a limit it scans on every tick.
   */
  lemma {:induction false} TracingCount(s: Session, sc: Script, n: int, count: int, lines: seq<ScanLine>)
    requires n > 0 ==> count < n
    ensures var t := Tracing(s, sc, n, count, lines); var ticks := TicksBeforeCancel(sc.events, s.consumed);
      && |lines| <= |t.lines| && t.lines[..|lines|] == lines
      && |t.lines| - |lines| == (if n > 0 then Min(n - count, ticks) else ticks)
      && t.outcome == Completed
    decreases Pending(s, sc)
  {
    var ob := Observe(s, sc);
    match ob.event
    case Cancel =>
    case Indication(_, _) =>
      TracingCount(ob.session, sc, n, count, lines);
    case Tick(now) =>
      var scan := Scan(ob.session, sc, now);
      if !(n > 0 && count + 1 >= n) {
        TracingCount(scan.session, sc, n, count + 1, lines + [scan.line]);
        var t := Tracing(scan.session, sc, n, count + 1, lines + [scan.line]);
        assert t.lines[..|lines|] == t.lines[..|lines| + 1][..|lines|];
      }
  }

  /**
   * How many lines trace-signal prints, with `ticks` the ticks before the context ends:
   * none when initialisation fails, one for a limit of 1, `min(n, 1 + ticks)` for a
   * larger limit, and one more than the ticks without a limit.
   */
  lemma TraceSignalCount(s: Session, sc: Script, n: int, now: int)
    ensures var init := ExchangeAll(s, sc, TraceInit);
      var r := RunTraceSignal(s, sc, n, now);
      var ticks := TicksBeforeCancel(sc.events, s.consumed);
      && (init.error.Some? <==> r.outcome.Fatal?)
      && (init.error.Some? ==> r.lines == [] && r.session == init.session)
      && (init.error.None? && n == 1 ==> |r.lines| == 1)
      && (init.error.None? && n > 1 ==> |r.lines| == Min(n, 1 + ticks))
      && (init.error.None? && n <= 0 ==> |r.lines| == 1 + ticks)
      && (init.error.None? ==> r.lines[0] == Scan(init.session, sc, now).line)
  {
    ExchangeAllIssuesPrefix(s, sc, TraceInit);
    var init := ExchangeAll(s, sc, TraceInit);
    if init.error.None? && n != 1 {
      var first := Scan(init.session, sc, now);
      TracingCount(first.session, sc, n, 1, [first.line]);
    }
  }

  // ---------------------------------------------------------------------------
  // The command against the radio

  /** scanSignalAndPosition */
  method ScanOn(radio: Radio, now: int) returns (line: ScanLine)
    modifies radio
    ensures Scanned(line, radio.State()) == Scan(old(radio.State()), radio.script, now)
  {
    var gps := radio.Request(RequestGPSPosition, radio.script.facts.position);
    var position := Position(0.0, 0.0, 0, now);
    if gps.Success? {
      position := gps.value;
    }
    var signal := radio.Request(RequestSignalStrength, radio.script.facts.signal);
    var dbm := 0;
    if signal.Success? {
      dbm := signal.value;
    }
    line := ScanLine(position.time, position.latitude, position.longitude, position.satellites, dbm);
  }

  /** runTraceSignal */
  method TraceOn(radio: Radio, n: int, now: int) returns (outcome: Outcome, lines: seq<ScanLine>)
    modifies radio
    ensures Traced(outcome, lines, radio.State()) == RunTraceSignal(old(radio.State()), radio.script, n, now)
  {
    var err := radio.ATs(TraceInit);
    if err.Some? {
      return Fatal(Error("cannot initilize radio", err.value)), [];
    }
    var first := ScanOn(radio, now);
    lines := [first];
    if n == 1 {
      return Completed, lines;
    }
    ghost var start := radio.State();
    var count := 1;
    while true
      invariant Tracing(radio.State(), radio.script, n, count, lines) == Tracing(start, radio.script, n, 1, [first])
      decreases Pending(radio.State(), radio.script)
    {
      var e := radio.NextEvent();
      match e
      case Cancel => return Completed, lines;
      case Indication(_, _) =>
      case Tick(tick) =>
        var line := ScanOn(radio, tick);
        lines := lines + [line];
        count := count + 1;
        if n > 0 && count >= n {
          return Completed, lines;
        }
    }
  }
}
