/**
 * The abstract PEI (peripheral equipment interface) that every command runs against.
 *
 * The session layer itself lives in an external library. Here it is replaced by a radio
 * that answers each command exchange from a script of replies, delivers a script of
 * indications, scan ticks and a cancellation when a caller waits, records every command
 * it is given and every indication registered with it, and tracks its air-interface mode.
 * The `Session` datatype is the radio's changing state as a value; the step functions
 * below (Exchange, ExchangeAll, AddIndication, NextEvent and the queries) say what one
 * PEI call does to it, and the class `Radio` has one method per call, each proved to
 * agree with its step function.
 */
module Pei {
  import opened Wrappers
  import opened Text
  import opened Sds

  /** ctrl.AIMode: the air-interface operating mode, by its numeric code. */
  datatype AIMode = AIMode(code: int)

  /** Trunked mode operation. */
  const TMO: AIMode := AIMode(0)
  /** Direct mode operation. */
  const DMO: AIMode := AIMode(1)

  datatype TalkgroupKind = TalkgroupDynamic | TalkgroupStatic
  datatype TalkgroupInfo = TalkgroupInfo(gtsi: string, name: string)

  /**
   * A command line sent to the radio: either a literal AT command, or one that the external
   * ctrl and sds packages render (their exact text is not part of the model).
   */
  datatype Command =
    | At(line: string)
    | SwitchToSDSTL
    | SetOperatingMode(mode: AIMode)
    | SetTalkgroup(gtsi: string)
    | RequestOperatingMode
    | RequestTalkgroup
    | RequestTalkgroups(kind: TalkgroupKind)
    | RequestMaxMessagePDUBits
    | RequestGPSPosition
    | RequestSignalStrength
    | SendMessage(destination: string, pdu: Pdu)

  /** How the radio answered one command exchange. */
  datatype Reply = Ok | Failed(cause: string)

  /**
   * The indication handlers the commands register, as tagged entries: each names the
   * closure of the source it stands for, with the values that closure captures.
   */
  datatype Handler =
    | ReportCorrelator(awaited: Byte)     // delivery reports for one message reference (send)
    | PartConfirmation                    // confirmation of one concatenated part (send)
    | MessagePartDecoder                  // incoming SDS parts (listen)
    | VoiceActivity                       // +CTXG: (listen)
    | TalkgroupIdle                       // +CDTXC: (listen)
    | TalkgroupInactive                   // +CTCR: (listen)
    | OperatingModeReport                 // +CTOM:  (listen)

  datatype Registration = Registration(prefix: string, trailingLines: nat, handler: Handler)

  /**
   * What a waiting caller can observe next: an unsolicited line with the lines that follow
   * it, a tick of a scan ticker (carrying the clock value), or the cancellation of the
   * context (a deadline, a timeout or an interrupt).
   */
  datatype Event = Indication(line: string, following: seq<string>) | Tick(now: int) | Cancel

  /** One entry of the radio's record of what it was asked to do. */
  datatype Action = Issued(command: Command) | Registered(registration: Registration)

  datatype Position = Position(latitude: real, longitude: real, satellites: int, time: int)

  /** What the radio reports when it is queried. */
  datatype Facts = Facts(
    talkgroup: string,
    dynamicGroups: seq<TalkgroupInfo>,
    staticGroups: seq<TalkgroupInfo>,
    position: Position,
    signal: int,
    maxPDUBits: int)

  /**
   * The behaviour of the radio for one run: the reply to each command exchange in order
   * (a plain OK once the list runs out), the events in order (a cancellation once the list
   * runs out: the deadline or the interrupt comes eventually), and its readings.
   */
  datatype Script = Script(replies: seq<Reply>, events: seq<Event>, facts: Facts)

  /** The state of the radio as a value. */
  datatype Session = Session(
    log: seq<Action>,                 // every command issued and every indication registered
    exchanges: nat,                   // command exchanges made so far
    consumed: nat,                    // events observed so far
    indications: seq<Registration>,   // registered indications, in registration order
    mode: AIMode)                     // the current air-interface mode

  /** Why a command ends through `fatal`/`fatalf`. */
  datatype Fault =
    | Usage(message: string)                 // a command-line problem, found before any exchange
    | Error(context: string, cause: string)  // "<context>: <cause>"
    | Interrupted                            // the context's own error: deadline exceeded or cancelled

  /** How a command body ends: normally, through a fatal error (the process exits), or in a panic. */
  datatype Outcome = Completed | Fatal(fault: Fault) | Crashed(reason: string)

  datatype Ran = Ran(outcome: Outcome, session: Session)

  function ReplyAt(replies: seq<Reply>, i: nat): Reply {
    if i < |replies| then replies[i] else Ok
  }

  function EventAt(events: seq<Event>, i: nat): Event {
    if i < |events| then events[i] else Cancel
  }

  /** The reply the radio gives to the command exchange that follows state `s`. */
  function NextReply(s: Session, sc: Script): Reply {
    ReplyAt(sc.replies, s.exchanges)
  }

  /** A successful SetOperatingMode switches the radio; nothing else changes its mode. */
  function ModeAfter(mode: AIMode, c: Command, r: Reply): AIMode {
    if c.SetOperatingMode? && r.Ok? then c.mode else mode
  }

  datatype Exchanged = Exchanged(reply: Reply, session: Session)

  /** AT: one command exchange. */
  function Exchange(s: Session, sc: Script, c: Command): Exchanged {
    var r := NextReply(s, sc);
    Exchanged(r, s.(log := s.log + [Issued(c)], exchanges := s.exchanges + 1, mode := ModeAfter(s.mode, c, r)))
  }

  datatype Sequenced = Sequenced(error: Option<string>, session: Session)

  /** ATs: the commands one after another, stopping at the first failure. */
  function ExchangeAll(s: Session, sc: Script, cmds: seq<Command>): Sequenced
    decreases |cmds|
  {
    if cmds == [] then Sequenced(None, s)
    else
      var e := Exchange(s, sc, cmds[0]);
      if e.reply.Failed? then Sequenced(Some(e.reply.cause), e.session)
      else ExchangeAll(e.session, sc, cmds[1..])
  }

  /** AddIndication: the registration is appended and recorded; nothing is ever unregistered. */
  function Register(s: Session, reg: Registration): Session {
    s.(log := s.log + [Registered(reg)], indications := s.indications + [reg])
  }

  function RegisterAll(s: Session, regs: seq<Registration>): Session
    decreases |regs|
  {
    if regs == [] then s else RegisterAll(Register(s, regs[0]), regs[1..])
  }

  datatype Received = Received(event: Event, session: Session)

  /** A waiting caller observes the next event. */
  function Observe(s: Session, sc: Script): Received {
    Received(EventAt(sc.events, s.consumed), s.(consumed := s.consumed + 1))
  }

  /** The number of events still scripted after state `s`; it bounds every wait. */
  function Pending(s: Session, sc: Script): nat {
    if s.consumed < |sc.events| then |sc.events| - s.consumed else 0
  }

  datatype Answer<+T> = Answer(result: Result<T>, session: Session)

  /** A query: one exchange whose acknowledgment carries `value`. */
  function Query<T>(s: Session, sc: Script, c: Command, value: T): Answer<T> {
    var e := Exchange(s, sc, c);
    Answer(if e.reply.Ok? then Success(value) else Failure(e.reply.cause), e.session)
  }

  function GroupsOf(f: Facts, kind: TalkgroupKind): seq<TalkgroupInfo> {
    if kind == TalkgroupDynamic then f.dynamicGroups else f.staticGroups
  }

  function Issues(cmds: seq<Command>): (r: seq<Action>)
    ensures |r| == |cmds|
  {
    seq(|cmds|, i requires 0 <= i < |cmds| => Issued(cmds[i]))
  }

  lemma IssuesAppend(a: seq<Command>, b: seq<Command>)
    ensures Issues(a + b) == Issues(a) + Issues(b)
  {
  }

  /** The radio acknowledges the `n` exchanges that follow the first `from` ones. */
  predicate AllOk(sc: Script, from: nat, n: nat) {
    forall j :: from <= j < from + n ==> ReplyAt(sc.replies, j).Ok?
  }

  /**
   * ATs issues the commands in order, each at most once, and records nothing else: it
   * neither waits for events nor registers anything.
   */
  lemma {:induction false} ExchangeAllIssuesPrefix(s: Session, sc: Script, cmds: seq<Command>)
    ensures var r := ExchangeAll(s, sc, cmds);
      && s.exchanges <= r.session.exchanges <= s.exchanges + |cmds|
      && r.session.log == s.log + Issues(cmds[..r.session.exchanges - s.exchanges])
      && r.session.consumed == s.consumed
      && r.session.indications == s.indications
    decreases |cmds|
  {
    if cmds != [] {
      var e := Exchange(s, sc, cmds[0]);
      if e.reply.Ok? {
        ExchangeAllIssuesPrefix(e.session, sc, cmds[1..]);
        var r := ExchangeAll(e.session, sc, cmds[1..]);
        assert r == ExchangeAll(s, sc, cmds);
        var k := r.session.exchanges - e.session.exchanges;
        assert [cmds[0]] + cmds[1..][..k] == cmds[..k + 1];
        IssuesAppend([cmds[0]], cmds[1..][..k]);
        assert Issues([cmds[0]]) == [Issued(cmds[0])];
        calc {
          r.session.log;
          e.session.log + Issues(cmds[1..][..k]);
          s.log + [Issued(cmds[0])] + Issues(cmds[1..][..k]);
          s.log + Issues(cmds[..k + 1]);
        }
      } else {
        assert cmds[..1] == [cmds[0]];
      }
    }
  }

  /**
   * ATs stops right after the first command the radio rejects: it fails exactly when some
   * command is rejected, that rejection is its error, and every command before it was
   * acknowledged; when it succeeds, every command was sent.
   */
  lemma {:induction false} ExchangeAllFailFast(s: Session, sc: Script, cmds: seq<Command>)
    ensures var r := ExchangeAll(s, sc, cmds);
      && s.exchanges <= r.session.exchanges
      && (r.error.None? <==> AllOk(sc, s.exchanges, |cmds|))
      && (r.error.None? ==> r.session.exchanges == s.exchanges + |cmds|)
      && (r.error.Some? ==>
            && s.exchanges < r.session.exchanges
            && AllOk(sc, s.exchanges, r.session.exchanges - s.exchanges - 1)
            && ReplyAt(sc.replies, r.session.exchanges - 1) == Failed(r.error.value))
    decreases |cmds|
  {
    if cmds != [] {
      var e := Exchange(s, sc, cmds[0]);
      if e.reply.Ok? {
        ExchangeAllFailFast(e.session, sc, cmds[1..]);
        var r := ExchangeAll(e.session, sc, cmds[1..]);
        ShiftAllOk(sc, s.exchanges, |cmds| - 1);
        if r.error.Some? {
          ShiftAllOk(sc, s.exchanges, r.session.exchanges - e.session.exchanges - 1);
        }
      }
    }
  }

  /** Acknowledging the exchange at `from` and the `n` after it is acknowledging `n + 1` from `from`. */
  lemma ShiftAllOk(sc: Script, from: nat, n: nat)
    requires ReplyAt(sc.replies, from).Ok?
    ensures AllOk(sc, from + 1, n) <==> AllOk(sc, from, n + 1)
  {
  }

  /** Sequencing `a + b` is sequencing `a` and, when that succeeds, `b` after it. */
  lemma {:induction false} ExchangeAllAppend(s: Session, sc: Script, a: seq<Command>, b: seq<Command>)
    ensures var first := ExchangeAll(s, sc, a);
      ExchangeAll(s, sc, a + b) == if first.error.Some? then first else ExchangeAll(first.session, sc, b)
    decreases |a|
  {
    if a == [] {
      assert a + b == b;
    } else {
      assert (a + b)[0] == a[0] && (a + b)[1..] == a[1..] + b;
      ExchangeAllAppend(Exchange(s, sc, a[0]).session, sc, a[1..], b);
    }
  }

  /** A sequence without a SetOperatingMode never changes the mode. */
  lemma {:induction false} ExchangeAllKeepsMode(s: Session, sc: Script, cmds: seq<Command>)
    requires forall i :: 0 <= i < |cmds| ==> !cmds[i].SetOperatingMode?
    ensures ExchangeAll(s, sc, cmds).session.mode == s.mode
    decreases |cmds|
  {
    if cmds != [] {
      ExchangeAllKeepsMode(Exchange(s, sc, cmds[0]).session, sc, cmds[1..]);
    }
  }

  /** A sequence that succeeds leaves the radio in the mode its last SetOperatingMode chose. */
  lemma {:induction false} ExchangeAllEndsInMode(s: Session, sc: Script, cmds: seq<Command>, m: AIMode)
    requires cmds != [] && cmds[|cmds| - 1] == SetOperatingMode(m)
    requires ExchangeAll(s, sc, cmds).error.None?
    ensures ExchangeAll(s, sc, cmds).session.mode == m
    decreases |cmds|
  {
    var e := Exchange(s, sc, cmds[0]);
    if |cmds| > 1 {
      ExchangeAllEndsInMode(e.session, sc, cmds[1..], m);
    }
  }

  function Registrations(regs: seq<Registration>): (r: seq<Action>)
    ensures |r| == |regs|
  {
    seq(|regs|, i requires 0 <= i < |regs| => Registered(regs[i]))
  }

  /** Registering several indications appends them, in order, to the registrations and the record. */
  lemma {:induction false} RegisterAllAppends(s: Session, regs: seq<Registration>)
    ensures RegisterAll(s, regs) == s.(log := s.log + Registrations(regs), indications := s.indications + regs)
    decreases |regs|
  {
    if regs == [] {
      assert Registrations(regs) == [];
    } else {
      var s1 := Register(s, regs[0]);
      RegisterAllAppends(s1, regs[1..]);
      RegistrationsCons(regs);
      assert (s.log + [Registered(regs[0])]) + Registrations(regs[1..]) == s.log + Registrations(regs);
      assert (s.indications + [regs[0]]) + regs[1..] == s.indications + regs;
    }
  }

  lemma RegistrationsCons(regs: seq<Registration>)
    requires regs != []
    ensures Registrations(regs) == [Registered(regs[0])] + Registrations(regs[1..])
  {
    var tail := Registrations(regs[1..]);
    assert forall i :: 0 <= i < |tail| ==> tail[i] == Registered(regs[i + 1]);
  }

  /** The lines the router hands a handler: the indication line and up to `trailingLines` more. */
  function HandlerLines(reg: Registration, line: string, following: seq<string>): (lines: seq<string>)
    ensures 1 <= |lines| <= 1 + reg.trailingLines && lines[0] == line
    ensures |lines| == 1 + reg.trailingLines <==> |following| >= reg.trailingLines
  {
    [line] + following[..if reg.trailingLines <= |following| then reg.trailingLines else |following|]
  }

  /**
   * The registration an incoming line goes to: the first one, in registration order,
   * whose prefix the line starts with, or none.
   */
  function Route(regs: seq<Registration>, line: string): (r: Option<nat>)
    ensures r.Some? ==> r.value < |regs| && IsPrefix(regs[r.value].prefix, line)
    ensures r.Some? ==> forall j :: 0 <= j < r.value ==> !IsPrefix(regs[j].prefix, line)
    ensures r.None? <==> forall j :: 0 <= j < |regs| ==> !IsPrefix(regs[j].prefix, line)
    decreases |regs|
  {
    if regs == [] then None
    else if IsPrefix(regs[0].prefix, line) then Some(0)
    else match Route(regs[1..], line)
      case None => None
      case Some(k) => Some(k + 1)
  }

  datatype Delivery = Delivery(handler: Handler, lines: seq<string>)

  /** What the router does with an event: an indication goes to its handler, if any. */
  function Deliver(regs: seq<Registration>, e: Event): Option<Delivery> {
    match e
    case Indication(line, following) =>
      (match Route(regs, line)
       case None => None
       case Some(k) => Some(Delivery(regs[k].handler, HandlerLines(regs[k], line, following))))
    case _ => None
  }

  /** When a single registered prefix fits the line, that registration gets it, whatever the order. */
  lemma RouteUnique(regs: seq<Registration>, line: string, k: nat)
    requires k < |regs| && IsPrefix(regs[k].prefix, line)
    requires forall j :: 0 <= j < |regs| && j != k ==> !IsPrefix(regs[j].prefix, line)
    ensures Route(regs, line) == Some(k)
  {
  }

  /**
   * The radio behind the PEI: its script is fixed when it is created, and the PEI calls
   * advance its state.
   */
  class Radio {
    const script: Script
    var log: seq<Action>
    var exchanges: nat
    var consumed: nat
    var indications: seq<Registration>
    var mode: AIMode

    function State(): Session
      reads this
    {
      Session(log, exchanges, consumed, indications, mode)
    }

    constructor (script: Script, mode: AIMode)
      ensures this.script == script
      ensures State() == Session([], 0, 0, [], mode)
    {
      this.script := script;
      log, exchanges, consumed, indications := [], 0, 0, [];
      this.mode := mode;
    }

    /** AT */
    method AT(c: Command) returns (reply: Reply)
      modifies this
      ensures Exchanged(reply, State()) == Exchange(old(State()), script, c)
    {
      reply := ReplyAt(script.replies, exchanges);
      log := log + [Issued(c)];
      exchanges := exchanges + 1;
      if c.SetOperatingMode? && reply.Ok? {
        mode := c.mode;
      }
    }

    /** ATs */
    method ATs(cmds: seq<Command>) returns (error: Option<string>)
      modifies this
      ensures Sequenced(error, State()) == ExchangeAll(old(State()), script, cmds)
    {
      ghost var start := State();
      var i := 0;
      while i < |cmds|
        invariant 0 <= i <= |cmds|
        invariant ExchangeAll(State(), script, cmds[i..]) == ExchangeAll(start, script, cmds)
      {
        assert cmds[i..][1..] == cmds[i + 1..];
        var reply := AT(cmds[i]);
        if reply.Failed? {
          return Some(reply.cause);
        }
        i := i + 1;
      }
      return None;
    }

    /** AddIndication */
    method AddIndication(reg: Registration)
      modifies this
      ensures State() == Register(old(State()), reg)
    {
      log := log + [Registered(reg)];
      indications := indications + [reg];
    }

    /** Blocks until the next event and returns it. */
    method NextEvent() returns (e: Event)
      modifies this
      ensures Received(e, State()) == Observe(old(State()), script)
    {
      e := EventAt(script.events, consumed);
      consumed := consumed + 1;
    }

    /** A query that the external ctrl or sds package makes with one exchange. */
    method Request<T>(c: Command, value: T) returns (r: Result<T>)
      modifies this
      ensures Answer(r, State()) == Query(old(State()), script, c, value)
    {
      var reply := AT(c);
      r := if reply.Ok? then Success(value) else Failure(reply.cause);
    }

    /** ctrl.RequestOperatingMode */
    method RequestOperatingMode() returns (r: Result<AIMode>)
      modifies this
      ensures Answer(r, State()) == Query(old(State()), script, Command.RequestOperatingMode, old(mode))
    {
      r := Request(Command.RequestOperatingMode, mode);
    }
  }
}
