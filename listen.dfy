/**
 * The `listen` command: the radio is initialised for incoming messages, handlers are
 * registered for message parts, voice activity, talkgroup state and mode changes, and the
 * command then waits until its context ends while the router hands indications to them.
 */
module Listen {
  import opened Wrappers
  import opened Text
  import opened Sds
  import opened Pei

  const ListenInit: seq<Command> := [
    At("ATZ"),
    At("ATE0"),
    At("AT+CSCS=8859-1"),
    At("AT+CTSP=2,0,0"),     // call signalling
    At("AT+CTSP=2,2,20"),    // status
    At("AT+CTSP=1,3,2"),     // simple text messaging
    At("AT+CTSP=1,3,9"),     // simple immediate text messaging
    At("AT+CTSP=1,3,130"),   // text messaging
    At("AT+CTSP=1,3,137"),   // immediate text messaging
    At("AT+CTSP=1,3,138")]   // message with user data header

  const VoicePrefix: string := "+CTXG:"
  const ModePrefix: string := "+CTOM: "

  /** The handlers runListen registers, in its order. */
  const ListenRegistrations: seq<Registration> := [
    Registration("+CTSDSR: 12,", 1, MessagePartDecoder),
    Registration("+CTSDSR: 13,", 1, MessagePartDecoder),
    Registration(VoicePrefix, 0, VoiceActivity),
    Registration("+CDTXC:", 0, TalkgroupIdle),
    Registration("+CTCR:", 0, TalkgroupInactive),
    Registration(ModePrefix, 0, OperatingModeReport)]

  /** The blocks the handlers print, by what they say. */
  datatype Report =
    | VoiceTx                  // "VOICE TX"
    | VoiceRx(itsi: string)    // "VOICE RX", "ITSI: <itsi>"
    | Idle                     // "TALKGROUP IDLE"
    | Inactive                 // "TALKGROUP INACTIVE"
    | ModeChanged(mode: AIMode)  // "AI MODE: <mode>"

  /**
   * decodeMessagePart: two lines are decoded into a part for the SDS stack; other line
   * counts and parts that fail to decode are dropped.
   */
  function DecodeMessagePart(lines: seq<string>, decode: Decoder): (part: Option<Part>)
    ensures part.Some? <==> |lines| == 2 && !decode(lines[0], lines[1]).failed
    ensures part.Some? ==> part.value == decode(lines[0], lines[1]).part
  {
    if |lines| == 2 && !decode(lines[0], lines[1]).failed then Some(decode(lines[0], lines[1]).part) else None
  }

  /**
   * An SDS report indication on the listen registrations takes its one following line
   * with it; the part goes on the stack exactly when that line is there and the two lines
   * decode, and the indication is dropped otherwise.
   */
  lemma SdsReportEffect(line: string, following: seq<string>, decode: Decoder)
    requires IsPrefix("+CTSDSR: 12,", line) || IsPrefix("+CTSDSR: 13,", line)
    ensures var e := EventEffect(ListenRegistrations, decode, Indication(line, following));
      && (e.Stacked? <==> following != [] && !decode(line, following[0]).failed)
      && (e.Stacked? ==> e.part == decode(line, following[0]).part)
      && (!e.Stacked? ==> e == Ignored)
  {
    var k := if IsPrefix("+CTSDSR: 12,", line) then 0 else 1;
    ListenRoutesByPrefix(line, k);
    var lines := HandlerLines(ListenRegistrations[k], line, following);
    assert following != [] ==> lines == [line, following[0]];
  }

  /** The +CTXG: handler: the comma-separated fields after the prefix decide what is printed. */
  function VoiceReport(line: string): Option<Report>
    requires |line| >= |VoicePrefix|
  {
    var fields := Split(line[|VoicePrefix|..], ',');
    if |fields| == 4 then Some(VoiceTx)
    else if |fields| == 6 then Some(VoiceRx(fields[5]))
    else None
  }

  /**
   * Four fields (three commas after the prefix) mean transmission, six fields (five commas)
   * mean reception, and any other count prints nothing. The ITSI of a reception is the
   * sixth field: it holds no comma and the line ends with a comma followed by it.
   */
  lemma VoiceReportFields(line: string)
    requires IsPrefix(VoicePrefix, line)
    ensures var commas := Count(line[|VoicePrefix|..], ',');
      && (VoiceReport(line) == Some(VoiceTx) <==> commas == 3)
      && (VoiceReport(line).Some? && VoiceReport(line).value.VoiceRx? <==> commas == 5)
      && (VoiceReport(line).None? <==> commas != 3 && commas != 5)
    ensures VoiceReport(line).Some? && VoiceReport(line).value.VoiceRx? ==>
      var itsi := VoiceReport(line).value.itsi;
      && ',' !in itsi
      && |itsi| + 1 <= |line| - |VoicePrefix|
      && line[|line| - |itsi| - 1..] == [','] + itsi
  {
    var rest := line[|VoicePrefix|..];
    SplitCount(rest, ',');
    if |Split(rest, ',')| == 6 {
      SplitLastField(rest, ',');
      assert rest[|rest| - |Split(rest, ',')[5]| - 1..] == line[|line| - |Split(rest, ',')[5]| - 1..];
    }
  }

  /** The +CTOM: handler: the text after the prefix must be a number, otherwise nothing is printed. */
  function ModeReport(line: string): (r: Option<Report>)
    requires |line| >= |ModePrefix|
    ensures r.Some? <==>
      NumberSyntax(line[|ModePrefix|..]) && MinInt64 <= SignedValue(line[|ModePrefix|..]) <= MaxInt64
    ensures r.Some? ==> r.value == ModeChanged(AIMode(SignedValue(line[|ModePrefix|..])))
  {
    match Atoi(line[|ModePrefix|..])
    case None => None
    case Some(code) => Some(ModeChanged(AIMode(code)))
  }

  /** What one delivery does: print a block, put a part on the SDS stack, nothing, or a slice panic. */
  datatype Effect = Printed(report: Report) | Stacked(part: Part) | Ignored | SlicePanic

  /**
   * The listen handlers. The two parsers slice the first line after their prefix, which
   * panics when the line is shorter; handlers that other commands register do nothing here.
   */
  function Handle(h: Handler, lines: seq<string>, decode: Decoder): Effect
    requires lines != []
  {
    match h
    case MessagePartDecoder =>
      (match DecodeMessagePart(lines, decode)
       case Some(part) => Stacked(part)
       case None => Ignored)
    case VoiceActivity =>
      if |lines[0]| < |VoicePrefix| then SlicePanic
      else (match VoiceReport(lines[0])
        case Some(r) => Printed(r)
        case None => Ignored)
    case TalkgroupIdle => Printed(Idle)
    case TalkgroupInactive => Printed(Inactive)
    case OperatingModeReport =>
      if |lines[0]| < |ModePrefix| then SlicePanic
      else (match ModeReport(lines[0])
        case Some(r) => Printed(r)
        case None => Ignored)
    case _ => Ignored
  }

  /** The effect of an event once the router has delivered it. */
  function EventEffect(regs: seq<Registration>, decode: Decoder, e: Event): Effect {
    match Deliver(regs, e)
    case None => Ignored
    case Some(d) => Handle(d.handler, d.lines, decode)
  }

  datatype Heard = Heard(reports: seq<Report>, stack: seq<Part>, panicked: bool, session: Session)

  /**
   * `<-ctx.Done()`: the events go to the handlers until the context ends. Under
   * cli.RunWithPEI that context never ends, so a `Cancel` here stands for the process
   * being stopped.
   */
  function Listening(s: Session, sc: Script, decode: Decoder, reports: seq<Report>, stack: seq<Part>): Heard
    decreases Pending(s, sc)
  {
    var ob := Observe(s, sc);
    if ob.event.Cancel? then Heard(reports, stack, false, ob.session)
    else match EventEffect(s.indications, decode, ob.event)
      case Printed(r) => Listening(ob.session, sc, decode, reports + [r], stack)
      case Stacked(p) => Listening(ob.session, sc, decode, reports, stack + [p])
      case Ignored => Listening(ob.session, sc, decode, reports, stack)
      case SlicePanic => Heard(reports, stack, true, ob.session)
  }

  datatype Listened = Listened(outcome: Outcome, reports: seq<Report>, stack: seq<Part>, session: Session)

  /** runListen */
  function RunListen(s: Session, sc: Script, decode: Decoder): Listened {
    var init := ExchangeAll(s, sc, ListenInit);
    if init.error.Some? then Listened(Fatal(Error("cannot initialize radio", init.error.value)), [], [], init.session)
    else
      var h := Listening(RegisterAll(init.session, ListenRegistrations), sc, decode, [], []);
      Listened(if h.panicked then Crashed("slice bounds out of range") else Completed, h.reports, h.stack, h.session)
  }

  /**
   * The message callback's block: the ISSI, the ITSI and the OPTA only when they are not
   * empty, then always the text and the separator.
   */
  function MessageBlock(source: string, opta: string, text: string, itsi: string): (lines: seq<string>)
    ensures |lines| == 4 + (if itsi != "" then 1 else 0) + (if opta != "" then 1 else 0)
    ensures lines[0] == "MESSAGE" && lines[1] == "ISSI:" + source
    ensures itsi != "" ==> lines[2] == "ITSI:" + itsi
    ensures opta != "" ==> lines[|lines| - 3] == "OPTA:" + opta
    ensures lines[|lines| - 2] == "TEXT:" + text && lines[|lines| - 1] == "--"
  {
    ["MESSAGE", "ISSI:" + source]
      + (if itsi != "" then ["ITSI:" + itsi] else [])
      + (if opta != "" then ["OPTA:" + opta] else [])
      + ["TEXT:" + text, "--"]
  }

  function Responses(responses: seq<string>): (cmds: seq<Command>)
    ensures |cmds| == |responses|
  {
    seq(|responses|, i requires 0 <= i < |responses| => At(responses[i]))
  }

  // ---------------------------------------------------------------------------
  // Properties

  /**
   * Characters 2, 3 and 10 tell the listen prefixes apart: the index of the only one a
   * line can start with.
   */
  function PrefixIndex(line: string): nat
    requires |line| >= 6
  {
    if line[2] == 'D' then 3
    else if line[3] == 'S' then (if |line| > 10 && line[10] == '2' then 0 else 1)
    else if line[3] == 'X' then 2
    else if line[3] == 'C' then 4
    else 5
  }

  lemma PrefixIndexOfMatch(line: string, k: nat)
    requires k < |ListenRegistrations| && IsPrefix(ListenRegistrations[k].prefix, line)
    ensures PrefixIndex(line) == k
  {
    var p := ListenRegistrations[k].prefix;
    assert line[..|p|] == p;
    if k == 0 {
      assert line[2] == p[2] && line[3] == p[3] && line[10] == p[10];
    } else if k == 1 {
      assert line[2] == p[2] && line[3] == p[3] && line[10] == p[10];
    } else {
      assert line[2] == p[2] && line[3] == p[3];
    }
  }

  /** No line fits two of the listen prefixes. */
  lemma ListenPrefixesExclusive(line: string, i: nat, j: nat)
    requires i < |ListenRegistrations| && j < |ListenRegistrations| && i != j
    ensures !(IsPrefix(ListenRegistrations[i].prefix, line) && IsPrefix(ListenRegistrations[j].prefix, line))
  {
    if IsPrefix(ListenRegistrations[i].prefix, line) && IsPrefix(ListenRegistrations[j].prefix, line) {
      PrefixIndexOfMatch(line, i);
      PrefixIndexOfMatch(line, j);
    }
  }

  /**
   * On a radio with nothing else registered, a line goes to the listen handler whose
   * prefix it starts with, whatever the router's order of preference among them.
   */
  lemma ListenRoutesByPrefix(line: string, k: nat)
    requires k < |ListenRegistrations| && IsPrefix(ListenRegistrations[k].prefix, line)
    ensures Route(ListenRegistrations, line) == Some(k)
  {
    forall j | 0 <= j < |ListenRegistrations| && j != k
      ensures !IsPrefix(ListenRegistrations[j].prefix, line)
    {
      ListenPrefixesExclusive(line, j, k);
    }
    RouteUnique(ListenRegistrations, line, k);
  }

  /**
   * Initialisation issues the listed commands in order; when one fails nothing is
   * registered and no event is observed, and otherwise every command was sent and the six
   * handlers are registered in order right after.
   */
  lemma RunListenInit(s: Session, sc: Script, decode: Decoder)
    ensures var init := ExchangeAll(s, sc, ListenInit); var r := RunListen(s, sc, decode);
      && (init.error.Some? ==>
            && r.outcome == Fatal(Error("cannot initialize radio", init.error.value))
            && r.session == init.session
            && r.session.indications == s.indications
            && r.session.consumed == s.consumed
            && s.log <= r.session.log <= s.log + Issues(ListenInit))
      && (init.error.None? ==>
            && r.session.indications == s.indications + ListenRegistrations
            && r.session.log == s.log + Issues(ListenInit) + Registrations(ListenRegistrations))
  {
    ExchangeAllIssuesPrefix(s, sc, ListenInit);
    var init := ExchangeAll(s, sc, ListenInit);
    if init.error.None? {
      ExchangeAllFailFast(s, sc, ListenInit);
      assert ListenInit[..|ListenInit|] == ListenInit;
      RegisterAllAppends(init.session, ListenRegistrations);
      ListeningFacts(RegisterAll(init.session, ListenRegistrations), sc, decode, [], []);
    } else {
      var k := init.session.exchanges - s.exchanges;
      assert Issues(ListenInit[..k]) == Issues(ListenInit)[..k];
    }
  }

  /** A handler whose registered prefix is long enough for its parser. */
  predicate FitsParser(reg: Registration) {
    && (reg.handler.VoiceActivity? ==> |reg.prefix| >= |VoicePrefix|)
    && (reg.handler.OperatingModeReport? ==> |reg.prefix| >= |ModePrefix|)
  }

  /** A part goes on the stack only as the successful decoding of a two-line indication. */
  ghost predicate StackedFrom(regs: seq<Registration>, sc: Script, decode: Decoder, from: nat, to: nat, p: Part) {
    exists i :: from <= i < to && EventEffect(regs, decode, EventAt(sc.events, i)) == Stacked(p)
  }

  /**
   * What a wait from state `s` with `reports` and `stack` so far leaves in `h`: only events
   * were observed, the last one observed is the cancellation unless a handler panicked,
   * the ones before were not cancellations, the blocks and parts only accumulate, and
   * every new part on the stack was decoded from one of the observed events.
   */
  ghost predicate ListenedFrom(s: Session, sc: Script, decode: Decoder, reports: seq<Report>, stack: seq<Part>, h: Heard) {
    && h.session == s.(consumed := h.session.consumed)
    && s.consumed < h.session.consumed
    && (!h.panicked <==> EventAt(sc.events, h.session.consumed - 1).Cancel?)
    && (forall i :: s.consumed <= i < h.session.consumed - 1 ==> !EventAt(sc.events, i).Cancel?)
    && |reports| <= |h.reports| && h.reports[..|reports|] == reports
    && |stack| <= |h.stack| && h.stack[..|stack|] == stack
    && (forall j :: |stack| <= j < |h.stack| ==>
          StackedFrom(s.indications, sc, decode, s.consumed, h.session.consumed, h.stack[j]))
  }

  /** Listening only observes events and ends when the context does (see ListenedFrom). */
  lemma {:induction false} ListeningFacts(s: Session, sc: Script, decode: Decoder, reports: seq<Report>, stack: seq<Part>)
    ensures ListenedFrom(s, sc, decode, reports, stack, Listening(s, sc, decode, reports, stack))
    decreases Pending(s, sc)
  {
    var ob := Observe(s, sc);
    if !ob.event.Cancel? {
      var eff := EventEffect(s.indications, decode, ob.event);
      if !eff.SlicePanic? {
        var reports' := if eff.Printed? then reports + [eff.report] else reports;
        var stack' := if eff.Stacked? then stack + [eff.part] else stack;
        ListeningFacts(ob.session, sc, decode, reports', stack');
        var h := Listening(ob.session, sc, decode, reports', stack');
        assert h == Listening(s, sc, decode, reports, stack);
        ListenedStep(s, sc, decode, reports, stack, eff, h);
      }
    }
  }

  /** One delivered event that did not panic extends what the rest of the wait leaves. */
  lemma ListenedStep(s: Session, sc: Script, decode: Decoder, reports: seq<Report>, stack: seq<Part>, eff: Effect, h: Heard)
    requires !EventAt(sc.events, s.consumed).Cancel?
    requires eff == EventEffect(s.indications, decode, EventAt(sc.events, s.consumed)) && !eff.SlicePanic?
    requires ListenedFrom(s.(consumed := s.consumed + 1), sc, decode,
      if eff.Printed? then reports + [eff.report] else reports,
      if eff.Stacked? then stack + [eff.part] else stack, h)
    ensures ListenedFrom(s, sc, decode, reports, stack, h)
  {
    var reports' := if eff.Printed? then reports + [eff.report] else reports;
    var stack' := if eff.Stacked? then stack + [eff.part] else stack;
    assert h.reports[..|reports|] == h.reports[..|reports'|][..|reports|];
    assert h.stack[..|stack|] == h.stack[..|stack'|][..|stack|];
    forall j | |stack| <= j < |h.stack|
      ensures StackedFrom(s.indications, sc, decode, s.consumed, h.session.consumed, h.stack[j])
    {
      if j < |stack'| {
        assert h.stack[j] == stack'[j] == eff.part;
      } else {
        var i :| s.consumed + 1 <= i < h.session.consumed
                 && EventEffect(s.indications, decode, EventAt(sc.events, i)) == Stacked(h.stack[j]);
      }
    }
  }

  /** With every parser registered under a prefix as long as the one it slices off, nothing panics. */
  lemma {:induction false} ListeningNeverPanics(s: Session, sc: Script, decode: Decoder, reports: seq<Report>, stack: seq<Part>)
    requires forall k :: 0 <= k < |s.indications| ==> FitsParser(s.indications[k])
    ensures !Listening(s, sc, decode, reports, stack).panicked
    decreases Pending(s, sc)
  {
    var ob := Observe(s, sc);
    if !ob.event.Cancel? {
      var eff := EventEffect(s.indications, decode, ob.event);
      if ob.event.Indication? {
        match Route(s.indications, ob.event.line)
        case None =>
        case Some(k) =>
          assert FitsParser(s.indications[k]);
      }
      var reports' := if eff.Printed? then reports + [eff.report] else reports;
      var stack' := if eff.Stacked? then stack + [eff.part] else stack;
      ListeningNeverPanics(ob.session, sc, decode, reports', stack');
    }
  }

  /** On a fresh radio runListen never panics: it ends through the context or a failed initialisation. */
  lemma RunListenNeverPanics(s: Session, sc: Script, decode: Decoder)
    requires s.indications == []
    ensures !RunListen(s, sc, decode).outcome.Crashed?
  {
    var init := ExchangeAll(s, sc, ListenInit);
    if init.error.None? {
      ExchangeAllIssuesPrefix(s, sc, ListenInit);
      RegisterAllAppends(init.session, ListenRegistrations);
      var r := RegisterAll(init.session, ListenRegistrations);
      assert r.indications == ListenRegistrations;
      ListenParsersFit();
      ListeningNeverPanics(r, sc, decode, [], []);
    }
  }

  lemma ListenParsersFit()
    ensures forall k :: 0 <= k < |ListenRegistrations| ==> FitsParser(ListenRegistrations[k])
  {
  }

  // ---------------------------------------------------------------------------
  // The command against the radio

  /** The SDS stack's response callback: the responses in order, stopping at the first failure. */
  method SendResponses(radio: Radio, responses: seq<string>) returns (error: Option<string>)
    modifies radio
    ensures Sequenced(error, radio.State()) == ExchangeAll(old(radio.State()), radio.script, Responses(responses))
  {
    ghost var start := radio.State();
    var i := 0;
    while i < |responses|
      invariant 0 <= i <= |responses|
      invariant ExchangeAll(radio.State(), radio.script, Responses(responses)[i..])
             == ExchangeAll(start, radio.script, Responses(responses))
    {
      assert Responses(responses)[i..][1..] == Responses(responses)[i + 1..];
      var reply := radio.AT(At(responses[i]));
      if reply.Failed? {
        return Some(reply.cause);
      }
      i := i + 1;
    }
    return None;
  }

  /** runListen */
  method Run(radio: Radio, decode: Decoder) returns (outcome: Outcome, reports: seq<Report>, stack: seq<Part>)
    modifies radio
    ensures Listened(outcome, reports, stack, radio.State()) == RunListen(old(radio.State()), radio.script, decode)
  {
    var err := radio.ATs(ListenInit);
    if err.Some? {
      return Fatal(Error("cannot initialize radio", err.value)), [], [];
    }
    ghost var init := radio.State();
    var i := 0;
    while i < |ListenRegistrations|
      invariant 0 <= i <= |ListenRegistrations|
      invariant RegisterAll(radio.State(), ListenRegistrations[i..]) == RegisterAll(init, ListenRegistrations)
    {
      assert ListenRegistrations[i..][1..] == ListenRegistrations[i + 1..];
      radio.AddIndication(ListenRegistrations[i]);
      i := i + 1;
    }
    var panicked;
    panicked, reports, stack := Await(radio, decode);
    outcome := if panicked then Crashed("slice bounds out of range") else Completed;
  }

  /** `<-ctx.Done()` against the radio: the router hands each event to its handler until the context ends. */
  method Await(radio: Radio, decode: Decoder) returns (panicked: bool, reports: seq<Report>, stack: seq<Part>)
    modifies radio
    ensures Heard(reports, stack, panicked, radio.State()) == Listening(old(radio.State()), radio.script, decode, [], [])
  {
    ghost var goal := Listening(radio.State(), radio.script, decode, [], []);
    reports, stack := [], [];
    while true
      invariant Listening(radio.State(), radio.script, decode, reports, stack) == goal
      decreases Pending(radio.State(), radio.script)
    {
      ghost var before := radio.State();
      ghost var ob := Observe(before, radio.script);
      var regs := radio.indications;
      var e := radio.NextEvent();
      assert e == ob.event && radio.State() == ob.session;
      if e.Cancel? {
        assert goal == Heard(reports, stack, false, ob.session);
        return false, reports, stack;
      }
      var eff := EventEffect(regs, decode, e);
      assert eff == EventEffect(before.indications, decode, ob.event);
      match eff
      case Printed(r) => reports := reports + [r];
      case Stacked(p) => stack := stack + [p];
      case Ignored =>
      case SlicePanic =>
        assert goal == Heard(reports, stack, true, ob.session);
        return true, reports, stack;
    }
  }
}
