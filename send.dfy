/**
 * The `send` command: message-reference defaulting and validation, the delivery report
 * request, the choice between one PDU and a concatenated transfer, the acknowledgment
 * correlator with its two one-shot signals, and the part sequencer.
 */
module Send {
  import opened Wrappers
  import opened Text
  import opened Sds
  import opened Pei

  /** The radio accepts text messages up to this many bits, whatever it negotiates. */
  const MaxPDUBits: int := 668

  const ReportPrefix: string := "+CTSDSR: 12,"
  const ConfirmationPrefix: string := "+CMGS: 0,"

  const SendInit: seq<Command> := [At("ATZ"), At("ATE0"), At("AT+CSCS=8859-1"), SwitchToSDSTL]

  datatype SendFlags = SendFlags(
    messageReference: int,
    immediate: bool,
    ackReceive: bool,
    ackConsume: bool,
    simple: bool,
    encoding: string)

  /** The external SDS encoder and decoder. */
  datatype Codec = Codec(
    encodings: map<string, Encoding>,                        // sds.EncodingByName
    pduBits: Pdu -> int,                                     // the bit length Encode reports
    split: (Byte, bv8, Encoding, int, string) -> seq<Pdu>,   // sds.NewConcatenatedMessageTransfer
    decode: Decoder)                                         // sds.ParseIncomingMessage

  // ---------------------------------------------------------------------------
  // Reference, report request and command line

  /**
   * The reference chosen when none is given: `(rand.Int() + 1) & 0xFF`. `r` stands for
   * rand.Int(), a non-negative 64-bit value; even where `r + 1` wraps to the smallest
   * 64-bit integer its low byte is `(r + 1) % 256`.
   */
  function DefaultReference(r: nat): (ref: int)
    ensures 0 <= ref <= 255
    ensures ref == 0 <==> r % 256 == 255
  {
    (r + 1) % 256
  }

  /** The reference in use: the flag's value, or a generated one when the flag is 0. */
  function MessageReference(flag: int, r: nat): (ref: int)
    ensures flag != 0 ==> ref == flag
    ensures flag == 0 ==> 0 <= ref <= 255
  {
    if flag == 0 then DefaultReference(r) else flag
  }

  predicate ValidReference(ref: int) {
    1 <= ref <= 255
  }

  /** The delivery report request built from the two acknowledgment flags. */
  function ReportRequest(ackReceive: bool, ackConsume: bool): (mask: bv8)
    ensures (mask & MessageReceivedReportRequested != 0) <==> ackReceive
    ensures (mask & MessageConsumedReportRequested != 0) <==> ackConsume
    ensures mask == NoReportRequested <==> !ackReceive && !ackConsume
  {
    var mask := NoReportRequested;
    var mask := if ackReceive then mask | MessageReceivedReportRequested else mask;
    if ackConsume then mask | MessageConsumedReportRequested else mask
  }

  /** The key under which the encoding flag is looked up. */
  function EncodingKey(name: string): string {
    Upper(TrimSpace(name))
  }

  /**
   * The lookup ignores surrounding white space and letter case: two flags give the same
   * key exactly when their trimmed texts differ only in the case of their letters.
   */
  lemma EncodingKeyIgnoresCase(a: string, b: string)
    ensures EncodingKey(a) == EncodingKey(b) <==> SameIgnoringCase(TrimSpace(a), TrimSpace(b))
  {
    UpperFoldsCase(TrimSpace(a), TrimSpace(b));
  }

  datatype Plan = Plan(destination: string, reference: Byte, encoding: Encoding, text: string, report: bv8)

  /**
   * The checks made before the radio is touched, in the source's order: two arguments,
   * then a reference in 1..255, then a known encoding.
   */
  function PlanSend(args: seq<string>, flags: SendFlags, r: nat, encodings: map<string, Encoding>): (p: Result<Plan>)
    ensures p.Success? <==>
      && |args| >= 2
      && ValidReference(MessageReference(flags.messageReference, r))
      && EncodingKey(flags.encoding) in encodings
    ensures p.Success? ==>
      && p.value.destination == args[0]
      && p.value.reference == MessageReference(flags.messageReference, r)
      && p.value.encoding == encodings[EncodingKey(flags.encoding)]
      && p.value.text == Join(args[1..], " ")
      && p.value.report == ReportRequest(flags.ackReceive, flags.ackConsume)
  {
    if |args| < 2 then Failure("tetra-cli send <destination ISSI> <text>")
    else
      var ref := MessageReference(flags.messageReference, r);
      if !ValidReference(ref) then Failure("the message reference must be 1-255")
      else if EncodingKey(flags.encoding) !in encodings then Failure("unexpected encoding")
      else Success(Plan(args[0], ref, encodings[EncodingKey(flags.encoding)], Join(args[1..], " "),
                        ReportRequest(flags.ackReceive, flags.ackConsume)))
  }

  /** The single PDU: a simple text message, or a text message transfer carrying the reference. */
  function MessagePdu(plan: Plan, flags: SendFlags): Pdu {
    if flags.simple then SimpleTextMessage(flags.immediate, plan.encoding, plan.text)
    else TextMessageTransfer(plan.reference, flags.immediate, plan.report, plan.encoding, plan.text)
  }

  /** ReceivedReportRequested of the transfer; a simple message leaves the transfer empty. */
  function WaitsForReceipt(pdu: Pdu): bool {
    pdu.TextMessageTransfer? && pdu.report & MessageReceivedReportRequested != 0
  }

  /** ConsumedReportRequested of the transfer. */
  function WaitsForConsumption(pdu: Pdu): bool {
    pdu.TextMessageTransfer? && pdu.report & MessageConsumedReportRequested != 0
  }

  // ---------------------------------------------------------------------------
  // The acknowledgment correlator

  predicate ReceivedReport(p: Payload) {
    || (p.SDSReport? && p.status == ReceiptAckByDestination)
    || (p.SDSShortReport? && p.reportType == MessageReceivedShort)
  }

  predicate ConsumedReport(p: Payload) {
    || (p.SDSReport? && p.status == ConsumedByDestination)
    || (p.SDSShortReport? && p.reportType == MessageConsumedShort)
  }

  /** The two one-shot signals, closed or not. */
  datatype Signals = Signals(received: bool, consumed: bool)

  const NoneFired := Signals(false, false)

  /** What one delivered report does: close "received", close "consumed", or nothing. */
  datatype Signal = NoSignal | ReceivedSignal | ConsumedSignal

  /** The signal a report payload fires for the awaited reference. */
  function ReportSignal(awaited: Byte, p: Payload): Signal {
    match p
    case SDSReport(ref, status) =>
      if ref != awaited then NoSignal
      else (match status
        case ReceiptAckByDestination => ReceivedSignal
        case ConsumedByDestination => ConsumedSignal
        case OtherDeliveryStatus(_) => NoSignal)
    case SDSShortReport(ref, kind) =>
      if ref != awaited then NoSignal
      else (match kind
        case MessageReceivedShort => ReceivedSignal
        case MessageConsumedShort => ConsumedSignal
        case OtherShortReport(_) => NoSignal)
    case _ => NoSignal
  }

  /**
   * The correlator's handler, for the lines the router hands it. It acts only on exactly
   * two lines, and uses the decoded part even when the decoder reported an error.
   */
  function Correlate(awaited: Byte, lines: seq<string>, decode: Decoder): (sig: Signal)
    ensures sig == ReceivedSignal <==>
      |lines| == 2 && var p := decode(lines[0], lines[1]).part.payload; ReceivedReport(p) && p.reference == awaited
    ensures sig == ConsumedSignal <==>
      |lines| == 2 && var p := decode(lines[0], lines[1]).part.payload; ConsumedReport(p) && p.reference == awaited
  {
    if |lines| == 2 then ReportSignal(awaited, decode(lines[0], lines[1]).part.payload) else NoSignal
  }

  /**
   * Closing a signal channel: a signal that is already closed makes Go panic, which is
   * the `None` here.
   */
  function Fire(sig: Signals, f: Signal): (r: Option<Signals>)
    ensures r.None? <==> (f == ReceivedSignal && sig.received) || (f == ConsumedSignal && sig.consumed)
    ensures r.Some? ==> r.value.received == (sig.received || f == ReceivedSignal)
    ensures r.Some? ==> r.value.consumed == (sig.consumed || f == ConsumedSignal)
  {
    match f
    case NoSignal => Some(sig)
    case ReceivedSignal => if sig.received then None else Some(sig.(received := true))
    case ConsumedSignal => if sig.consumed then None else Some(sig.(consumed := true))
  }

  /** The signal an event fires once the router has delivered it, if it goes to a correlator. */
  function EventSignal(regs: seq<Registration>, decode: Decoder, e: Event): (sig: Signal)
    ensures sig != NoSignal ==>
      && e.Indication?
      && Deliver(regs, e).Some?
      && Deliver(regs, e).value.handler.ReportCorrelator?
      && |Deliver(regs, e).value.lines| == 2
  {
    match Deliver(regs, e)
    case Some(Delivery(ReportCorrelator(awaited), lines)) => Correlate(awaited, lines, decode)
    case _ => NoSignal
  }

  datatype Kind = Receipt | Consumption

  function Fired(sig: Signals, k: Kind): bool {
    if k == Receipt then sig.received else sig.consumed
  }

  datatype WaitEnd = Signalled | WaitCancelled | Panicked

  datatype Waited = Waited(end: WaitEnd, signals: Signals, session: Session)

  /**
   * `select` on one signal and the context: returns at once if the signal is closed,
   * otherwise observes events, letting the router deliver indications to the correlator,
   * until the signal closes, the context is cancelled, or the correlator panics.
   */
  function Await(s: Session, sc: Script, decode: Decoder, sig: Signals, k: Kind): Waited
    decreases Pending(s, sc)
  {
    if Fired(sig, k) then Waited(Signalled, sig, s)
    else
      var ob := Observe(s, sc);
      if ob.event.Cancel? then Waited(WaitCancelled, sig, ob.session)
      else match Fire(sig, EventSignal(s.indications, decode, ob.event))
        case None => Waited(Panicked, sig, ob.session)
        case Some(next) => Await(ob.session, sc, decode, next, k)
  }

  datatype SendResult =
    | Sent
    | SendFailed(cause: string)               // "cannot send SDS text message: <cause>"
    | PartFailed(number: nat, cause: string)  // "cannot send SDS text message part #<number>: <cause>"
    | Cancelled                               // ctx.Err()
    | Panic                                   // close of a closed channel

  datatype Sending = Sending(result: SendResult, session: Session)

  function Stopped(end: WaitEnd): SendResult {
    if end == Panicked then Panic else Cancelled
  }

  function Correlator(ref: Byte): Registration {
    Registration(ReportPrefix, 1, ReportCorrelator(ref))
  }

  /**
   * sendSingleTextMessage: register the correlator, send the PDU, then wait for
   * "received" if requested and for "consumed" if requested, in that order.
   */
  function SendSingle(s: Session, sc: Script, decode: Decoder, dest: string, ref: Byte, pdu: Pdu,
                      waitReceived: bool, waitConsumed: bool): Sending
  {
    var e := Exchange(Register(s, Correlator(ref)), sc, SendMessage(dest, pdu));
    if e.reply.Failed? then Sending(SendFailed(e.reply.cause), e.session)
    else
      var w1 := if waitReceived then Await(e.session, sc, decode, NoneFired, Receipt)
                else Waited(Signalled, NoneFired, e.session);
      if w1.end != Signalled then Sending(Stopped(w1.end), w1.session)
      else
        var w2 := if waitConsumed then Await(w1.session, sc, decode, w1.signals, Consumption)
                  else Waited(Signalled, w1.signals, w1.session);
        if w2.end != Signalled then Sending(Stopped(w2.end), w2.session)
        else Sending(Sent, w2.session)
  }

  // ---------------------------------------------------------------------------
  // The concatenated transfer sequencer

  /** An event that the confirmation handler pushes into its channel. */
  predicate IsConfirmation(regs: seq<Registration>, e: Event) {
    match Deliver(regs, e)
    case Some(Delivery(PartConfirmation, lines)) => |lines| == 1
    case _ => false
  }

  datatype Confirmation = Confirmation(confirmed: bool, session: Session)

  /** Blocks until a part confirmation arrives or the context is cancelled. */
  function AwaitConfirmation(s: Session, sc: Script): Confirmation
    decreases Pending(s, sc)
  {
    var ob := Observe(s, sc);
    if ob.event.Cancel? then Confirmation(false, ob.session)
    else if IsConfirmation(s.indications, ob.event) then Confirmation(true, ob.session)
    else AwaitConfirmation(ob.session, sc)
  }

  const Confirmer := Registration(ConfirmationPrefix, 0, PartConfirmation)

  /** The parts from index `i` on, each but the last followed by a wait for its confirmation. */
  function SendParts(s: Session, sc: Script, dest: string, pdus: seq<Pdu>, i: nat): Sending
    decreases |pdus| - i
  {
    if i >= |pdus| then Sending(Sent, s)
    else
      var e := Exchange(s, sc, SendMessage(dest, pdus[i]));
      if e.reply.Failed? then Sending(PartFailed(i + 1, e.reply.cause), e.session)
      else if i < |pdus| - 1 then
        var c := AwaitConfirmation(e.session, sc);
        if !c.confirmed then Sending(Cancelled, c.session)
        else SendParts(c.session, sc, dest, pdus, i + 1)
      else Sending(Sent, e.session)
  }

  /** sendConcatenatedTextMessage: register the confirmation handler, split the text, send the parts. */
  function SendConcatenated(s: Session, sc: Script, codec: Codec, dest: string, ref: Byte,
                            encoding: Encoding, maxBits: int, text: string): Sending
  {
    SendParts(Register(s, Confirmer), sc, dest, codec.split(ref, NoReportRequested, encoding, maxBits, text), 0)
  }

  // ---------------------------------------------------------------------------
  // The command

  function SendOutcome(r: SendResult): Outcome {
    match r
    case Sent => Completed
    case SendFailed(cause) => Fatal(Error("cannot send SDS text message", cause))
    case PartFailed(n, cause) => Fatal(Error("cannot send SDS text message part #" + Itoa(n), cause))
    case Cancelled => Fatal(Interrupted)
    case Panic => Crashed("close of closed channel")
  }

  /** runSend */
  function RunSend(s: Session, sc: Script, codec: Codec, args: seq<string>, flags: SendFlags, r: nat): Ran {
    match PlanSend(args, flags, r, codec.encodings)
    case Failure(usage) => Ran(Fatal(Usage(usage)), s)
    case Success(plan) => SendPlanned(s, sc, codec, plan, flags)
  }

  /** runSend once the command line is accepted: initialise, ask for the length, send. */
  function SendPlanned(s: Session, sc: Script, codec: Codec, plan: Plan, flags: SendFlags): Ran {
    var init := ExchangeAll(s, sc, SendInit);
    if init.error.Some? then Ran(Fatal(Error("cannot initialize radio", init.error.value)), init.session)
    else
      var q := Query(init.session, sc, RequestMaxMessagePDUBits, sc.facts.maxPDUBits);
      if q.result.Failure? then Ran(Fatal(Error("cannot find out how long an SDS text message may be", q.result.cause)), q.session)
      else
        var pdu := MessagePdu(plan, flags);
        var sent :=
          if codec.pduBits(pdu) <= MaxPDUBits
          then SendSingle(q.session, sc, codec.decode, plan.destination, plan.reference, pdu,
                          WaitsForReceipt(pdu), WaitsForConsumption(pdu))
          else SendConcatenated(q.session, sc, codec, plan.destination, plan.reference, plan.encoding, MaxPDUBits, plan.text);
        Ran(SendOutcome(sent.result), sent.session)
  }

  function KindSignal(k: Kind): Signal {
    if k == Receipt then ReceivedSignal else ConsumedSignal
  }

  /** Some event observed in `from..to` fired `f` at a correlator registered in `regs`. */
  ghost predicate Reported(regs: seq<Registration>, sc: Script, decode: Decoder, from: nat, to: nat, f: Signal) {
    exists i :: from <= i < to && EventSignal(regs, decode, EventAt(sc.events, i)) == f
  }

  // ---------------------------------------------------------------------------
  // Properties of the wait for a delivery report

  /**
   * A wait only observes events: it ends Signalled exactly when its signal is closed; a
   * cancellation is the last event it observed and every event before that last one was
   * something else; a panic comes from a report for a signal that was already closed;
   * signals only ever close; and a signal it closed was closed by a matching report among
   * the events it observed.
   */
  lemma {:induction false} AwaitFacts(s: Session, sc: Script, decode: Decoder, sig: Signals, k: Kind)
    ensures var w := Await(s, sc, decode, sig, k);
      && w.session == s.(consumed := w.session.consumed)
      && s.consumed <= w.session.consumed
      && (w.end == Signalled <==> Fired(w.signals, k))
      && (w.end == WaitCancelled ==>
            s.consumed < w.session.consumed && EventAt(sc.events, w.session.consumed - 1) == Cancel)
      && (w.end == Panicked ==>
            && s.consumed < w.session.consumed
            && Fire(w.signals, EventSignal(s.indications, decode, EventAt(sc.events, w.session.consumed - 1))).None?)
      && (forall i :: s.consumed <= i < w.session.consumed - 1 ==> !EventAt(sc.events, i).Cancel?)
      && (sig.received ==> w.signals.received)
      && (sig.consumed ==> w.signals.consumed)
      && (w.signals.received && !sig.received ==>
            Reported(s.indications, sc, decode, s.consumed, w.session.consumed, ReceivedSignal))
      && (w.signals.consumed && !sig.consumed ==>
            Reported(s.indications, sc, decode, s.consumed, w.session.consumed, ConsumedSignal))
    decreases Pending(s, sc)
  {
    if !Fired(sig, k) {
      var ob := Observe(s, sc);
      if !ob.event.Cancel? {
        var f := EventSignal(s.indications, decode, ob.event);
        match Fire(sig, f)
        case None =>
        case Some(next) =>
          AwaitFacts(ob.session, sc, decode, next, k);
          var w := Await(ob.session, sc, decode, next, k);
          assert w == Await(s, sc, decode, sig, k);
          assert EventAt(sc.events, s.consumed) == ob.event;
          if next.received && !sig.received {
            assert EventSignal(s.indications, decode, EventAt(sc.events, s.consumed)) == ReceivedSignal;
          }
          if next.consumed && !sig.consumed {
            assert EventSignal(s.indications, decode, EventAt(sc.events, s.consumed)) == ConsumedSignal;
          }
      }
    }
  }

  /**
   * The converse: when the events up to some `i` are neither a cancellation nor a report,
   * and event `i` is the awaited report, the wait ends Signalled right after it.
   */
  lemma {:induction false} AwaitReaches(s: Session, sc: Script, decode: Decoder, sig: Signals, k: Kind, i: nat)
    requires !Fired(sig, k) && s.consumed <= i
    requires forall j :: s.consumed <= j < i ==>
      !EventAt(sc.events, j).Cancel? && EventSignal(s.indications, decode, EventAt(sc.events, j)) == NoSignal
    requires EventSignal(s.indications, decode, EventAt(sc.events, i)) == KindSignal(k)
    ensures Await(s, sc, decode, sig, k).end == Signalled
    ensures Await(s, sc, decode, sig, k).session.consumed == i + 1
    decreases i - s.consumed
  {
    var ob := Observe(s, sc);
    if s.consumed < i {
      AwaitReaches(ob.session, sc, decode, sig, k, i);
    }
  }

  /**
   * A report for a signal that is already closed closes it a second time: when the
   * receipt is confirmed twice while the wait for consumption is on, the command panics.
   */
  lemma DuplicateReceiptPanics(s: Session, sc: Script, decode: Decoder, sig: Signals)
    requires sig.received && !sig.consumed
    requires EventSignal(s.indications, decode, EventAt(sc.events, s.consumed)) == ReceivedSignal
    ensures Await(s, sc, decode, sig, Consumption).end == Panicked
  {
  }

  // ---------------------------------------------------------------------------
  // Properties of the single message path

  /**
   * sendSingleTextMessage registers its correlator for good and issues one command. The
   * send fails exactly when the radio rejects that command, and then no event is awaited.
   * When it was sent, each report it waited for was received among the events it observed,
   * and when it waited for none it observed nothing.
   */
  lemma SendSingleFacts(s: Session, sc: Script, decode: Decoder, dest: string, ref: Byte, pdu: Pdu,
                        waitReceived: bool, waitConsumed: bool)
    ensures var r := SendSingle(s, sc, decode, dest, ref, pdu, waitReceived, waitConsumed);
      var regs := s.indications + [Correlator(ref)];
      && r.session.log == s.log + [Registered(Correlator(ref)), Issued(SendMessage(dest, pdu))]
      && r.session.indications == regs
      && r.session.exchanges == s.exchanges + 1
      && s.consumed <= r.session.consumed
      && (r.result.SendFailed? <==> NextReply(s, sc).Failed?)
      && (r.result.SendFailed? ==> r.result.cause == NextReply(s, sc).cause && r.session.consumed == s.consumed)
      && (r.result.Sent? && waitReceived ==>
            Reported(regs, sc, decode, s.consumed, r.session.consumed, ReceivedSignal))
      && (r.result.Sent? && waitConsumed ==>
            Reported(regs, sc, decode, s.consumed, r.session.consumed, ConsumedSignal))
      && (!waitReceived && !waitConsumed ==> r.session.consumed == s.consumed)
      && (r.result.Sent? || r.result.SendFailed? || r.result.Cancelled? || r.result.Panic?)
  {
    var e := Exchange(Register(s, Correlator(ref)), sc, SendMessage(dest, pdu));
    if e.reply.Ok? {
      var w1 := if waitReceived then Await(e.session, sc, decode, NoneFired, Receipt)
                else Waited(Signalled, NoneFired, e.session);
      if waitReceived {
        AwaitFacts(e.session, sc, decode, NoneFired, Receipt);
      }
      if w1.end == Signalled {
        var w2 := if waitConsumed then Await(w1.session, sc, decode, w1.signals, Consumption)
                  else Waited(Signalled, w1.signals, w1.session);
        if waitConsumed {
          AwaitFacts(w1.session, sc, decode, w1.signals, Consumption);
        }
        if w2.end == Signalled {
          var regs := s.indications + [Correlator(ref)];
          if waitReceived {
            var i :| e.session.consumed <= i < w1.session.consumed
                     && EventSignal(regs, decode, EventAt(sc.events, i)) == ReceivedSignal;
            assert Reported(regs, sc, decode, s.consumed, w2.session.consumed, ReceivedSignal);
          }
          if waitConsumed {
            if w1.signals.consumed {
              var i :| e.session.consumed <= i < w1.session.consumed
                       && EventSignal(regs, decode, EventAt(sc.events, i)) == ConsumedSignal;
              assert Reported(regs, sc, decode, s.consumed, w2.session.consumed, ConsumedSignal);
            } else {
              var i :| w1.session.consumed <= i < w2.session.consumed
                       && EventSignal(regs, decode, EventAt(sc.events, i)) == ConsumedSignal;
              assert Reported(regs, sc, decode, s.consumed, w2.session.consumed, ConsumedSignal);
            }
          }
        }
      }
    }
  }

  // ---------------------------------------------------------------------------
  // Properties of the concatenated path

  /** A wait for a part confirmation only observes events, and ends on a confirmation or a cancellation. */
  lemma {:induction false} AwaitConfirmationFacts(s: Session, sc: Script)
    ensures var c := AwaitConfirmation(s, sc);
      && c.session == s.(consumed := c.session.consumed)
      && s.consumed < c.session.consumed
      && (c.confirmed <==> !EventAt(sc.events, c.session.consumed - 1).Cancel?)
      && (c.confirmed ==> IsConfirmation(s.indications, EventAt(sc.events, c.session.consumed - 1)))
      && (forall i :: s.consumed <= i < c.session.consumed - 1 ==>
            !EventAt(sc.events, i).Cancel? && !IsConfirmation(s.indications, EventAt(sc.events, i)))
    decreases Pending(s, sc)
  {
    var ob := Observe(s, sc);
    if !ob.event.Cancel? && !IsConfirmation(s.indications, ob.event) {
      AwaitConfirmationFacts(ob.session, sc);
    }
  }

  /** A wait for a part confirmation changes nothing but the events observed. */
  lemma ConfirmationKeeps(s: Session, sc: Script)
    ensures var c := AwaitConfirmation(s, sc);
      c.session == s.(consumed := c.session.consumed) && s.consumed < c.session.consumed
  {
    AwaitConfirmationFacts(s, sc);
  }

  function SendMessages(dest: string, pdus: seq<Pdu>): (r: seq<Command>)
    ensures |r| == |pdus|
  {
    seq(|pdus|, j requires 0 <= j < |pdus| => SendMessage(dest, pdus[j]))
  }

  /** The commands for the parts `i..i + 1 + k` are the one for part `i` followed by the rest. */
  lemma IssuesSendMessagesCons(dest: string, pdus: seq<Pdu>, i: nat, k: nat)
    requires i + 1 + k <= |pdus|
    ensures Issues(SendMessages(dest, pdus[i..i + 1 + k]))
         == [Issued(SendMessage(dest, pdus[i]))] + Issues(SendMessages(dest, pdus[i + 1..i + 1 + k]))
  {
    assert SendMessages(dest, pdus[i..i + 1 + k])
        == [SendMessage(dest, pdus[i])] + SendMessages(dest, pdus[i + 1..i + 1 + k]);
    IssuesAppend([SendMessage(dest, pdus[i])], SendMessages(dest, pdus[i + 1..i + 1 + k]));
  }

  /**
   * The parts go out in order, one exchange each, and nothing is registered on the way:
   * after `k` exchanges the record shows exactly the first `k` parts from `i`.
   */
  lemma {:induction false} SendPartsInOrder(s: Session, sc: Script, dest: string, pdus: seq<Pdu>, i: nat)
    requires i <= |pdus|
    ensures var r := SendParts(s, sc, dest, pdus, i);
      && s.exchanges <= r.session.exchanges <= s.exchanges + |pdus| - i
      && r.session.log == s.log + Issues(SendMessages(dest, pdus[i..i + r.session.exchanges - s.exchanges]))
      && r.session.indications == s.indications
      && r.session.mode == s.mode
      && s.consumed <= r.session.consumed
    decreases |pdus| - i
  {
    if i < |pdus| {
      var e := Exchange(s, sc, SendMessage(dest, pdus[i]));
      if e.reply.Ok? && i < |pdus| - 1 {
        var c := AwaitConfirmation(e.session, sc);
        ConfirmationKeeps(e.session, sc);
        if c.confirmed {
          SendPartsInOrder(c.session, sc, dest, pdus, i + 1);
          var r := SendParts(c.session, sc, dest, pdus, i + 1);
          assert r == SendParts(s, sc, dest, pdus, i);
          IssuesSendMessagesCons(dest, pdus, i, r.session.exchanges - c.session.exchanges);
        } else {
          IssuesSendMessagesCons(dest, pdus, i, 0);
        }
      } else {
        IssuesSendMessagesCons(dest, pdus, i, 0);
      }
    }
  }

  /**
   * How the part loop ends, with `k` parts sent: all of them exactly on success, and then
   * every exchange was acknowledged; a failure names part number `i + k`, the rejected
   * one, after `k - 1` acknowledged parts; a cancellation comes after at least one
   * acknowledged part and before the last.
   */
  lemma {:induction false} SendPartsEnds(s: Session, sc: Script, dest: string, pdus: seq<Pdu>, i: nat)
    requires i <= |pdus|
    ensures var r := SendParts(s, sc, dest, pdus, i);
      var k := r.session.exchanges - s.exchanges;
      && s.exchanges <= r.session.exchanges
      && (r.result.Sent? ==> i + k == |pdus| && AllOk(sc, s.exchanges, k))
      && (r.result.PartFailed? ==>
            && 1 <= k && r.result.number == i + k
            && AllOk(sc, s.exchanges, k - 1)
            && ReplyAt(sc.replies, r.session.exchanges - 1) == Failed(r.result.cause))
      && (r.result.Cancelled? ==> 1 <= k && i + k < |pdus| && AllOk(sc, s.exchanges, k))
      && (r.result.Sent? || r.result.PartFailed? || r.result.Cancelled?)
    decreases |pdus| - i
  {
    if i < |pdus| {
      var e := Exchange(s, sc, SendMessage(dest, pdus[i]));
      if e.reply.Ok? && i < |pdus| - 1 {
        var c := AwaitConfirmation(e.session, sc);
        ConfirmationKeeps(e.session, sc);
        if c.confirmed {
          SendPartsEnds(c.session, sc, dest, pdus, i + 1);
          var r := SendParts(c.session, sc, dest, pdus, i + 1);
          assert r == SendParts(s, sc, dest, pdus, i);
          var k := r.session.exchanges - c.session.exchanges;
          if r.result.PartFailed? {
            ShiftAllOk(sc, s.exchanges, k - 1);
          } else {
            ShiftAllOk(sc, s.exchanges, k);
          }
        }
      }
    }
  }

  /**
   * A three-part transfer whose first part is acknowledged but never confirmed sends that
   * one part only, and ends with the context's error.
   */
  lemma MissingConfirmationStops(s: Session, sc: Script, dest: string, pdus: seq<Pdu>)
    requires |pdus| == 3
    requires NextReply(s, sc).Ok?
    requires forall j :: s.consumed <= j < |sc.events| ==> !IsConfirmation(s.indications, sc.events[j])
    ensures SendParts(s, sc, dest, pdus, 0).result == Cancelled
    ensures SendParts(s, sc, dest, pdus, 0).session.log == s.log + [Issued(SendMessage(dest, pdus[0]))]
  {
    var e := Exchange(s, sc, SendMessage(dest, pdus[0]));
    AwaitConfirmationFacts(e.session, sc);
    var c := AwaitConfirmation(e.session, sc);
    assert !c.confirmed;
  }

  // ---------------------------------------------------------------------------
  // Properties of the command

  /**
   * The command-line checks come first: a usage error leaves the radio untouched, and
   * once they pass the radio is always addressed.
   */
  lemma RunSendChecksFirst(s: Session, sc: Script, codec: Codec, args: seq<string>, flags: SendFlags, r: nat)
    ensures var run := RunSend(s, sc, codec, args, flags, r);
      PlanSend(args, flags, r, codec.encodings).Failure? <==> run.session == s
    ensures var run := RunSend(s, sc, codec, args, flags, r);
      PlanSend(args, flags, r, codec.encodings).Failure? <==> run.outcome.Fatal? && run.outcome.fault.Usage?
  {
    var plan := PlanSend(args, flags, r, codec.encodings);
    if plan.Success? {
      PlannedAddressesRadio(s, sc, codec, plan.value, flags);
    }
  }

  /** Once the command line is accepted, at least one command goes to the radio and no usage error follows. */
  lemma PlannedAddressesRadio(s: Session, sc: Script, codec: Codec, plan: Plan, flags: SendFlags)
    ensures var run := SendPlanned(s, sc, codec, plan, flags);
      s.exchanges < run.session.exchanges && !(run.outcome.Fatal? && run.outcome.fault.Usage?)
  {
    ExchangeAllFailFast(s, sc, SendInit);
    var init := ExchangeAll(s, sc, SendInit);
    if init.error.None? {
      var q := Query(init.session, sc, RequestMaxMessagePDUBits, sc.facts.maxPDUBits);
      var pdu := MessagePdu(plan, flags);
      if q.result.Success? && codec.pduBits(pdu) <= MaxPDUBits {
        SendSingleFacts(q.session, sc, codec.decode, plan.destination, plan.reference, pdu,
                        WaitsForReceipt(pdu), WaitsForConsumption(pdu));
      } else if q.result.Success? {
        var split := codec.split(plan.reference, NoReportRequested, plan.encoding, MaxPDUBits, plan.text);
        SendPartsEnds(Register(q.session, Confirmer), sc, plan.destination, split, 0);
      }
    }
  }

  /** A generated reference whose low byte comes out 0 is refused like an explicit 0 would be. */
  lemma GeneratedZeroRefused(args: seq<string>, flags: SendFlags, r: nat, encodings: map<string, Encoding>)
    requires flags.messageReference == 0 && r % 256 == 255
    ensures PlanSend(args, flags, r, encodings).Failure?
  {
  }

  /**
   * Which path the message takes: once the radio is initialised and has answered the
   * length query, the next thing the command does is register the delivery report
   * correlator when the PDU fits in 668 bits, and the part confirmation handler otherwise.
   */
  lemma PathChoice(s: Session, sc: Script, codec: Codec, plan: Plan, flags: SendFlags)
    requires AllOk(sc, s.exchanges, |SendInit| + 1)
    ensures var run := SendPlanned(s, sc, codec, plan, flags);
      var n := |s.log| + |SendInit| + 1;
      && |run.session.log| > n
      && run.session.log[..n] == s.log + Issues(SendInit + [RequestMaxMessagePDUBits])
      && (codec.pduBits(MessagePdu(plan, flags)) <= MaxPDUBits <==>
            run.session.log[n] == Registered(Correlator(plan.reference)))
      && (codec.pduBits(MessagePdu(plan, flags)) > MaxPDUBits <==>
            run.session.log[n] == Registered(Confirmer))
  {
    ExchangeAllFailFast(s, sc, SendInit);
    ExchangeAllIssuesPrefix(s, sc, SendInit);
    var init := ExchangeAll(s, sc, SendInit);
    assert SendInit[..|SendInit|] == SendInit;
    assert ReplyAt(sc.replies, s.exchanges + |SendInit|).Ok?;
    var q := Query(init.session, sc, RequestMaxMessagePDUBits, sc.facts.maxPDUBits);
    IssuesAppend(SendInit, [RequestMaxMessagePDUBits]);
    assert Issues([RequestMaxMessagePDUBits]) == [Issued(RequestMaxMessagePDUBits)];
    assert q.session.log == s.log + Issues(SendInit + [RequestMaxMessagePDUBits]);
    var pdu := MessagePdu(plan, flags);
    if codec.pduBits(pdu) <= MaxPDUBits {
      SendSingleFacts(q.session, sc, codec.decode, plan.destination, plan.reference, pdu,
                      WaitsForReceipt(pdu), WaitsForConsumption(pdu));
    } else {
      var split := codec.split(plan.reference, NoReportRequested, plan.encoding, MaxPDUBits, plan.text);
      SendPartsInOrder(Register(q.session, Confirmer), sc, plan.destination, split, 0);
    }
  }

  // ---------------------------------------------------------------------------
  // The command against the radio

  /** The `select` of one wait. */
  method WaitForSignal(radio: Radio, decode: Decoder, sig: Signals, k: Kind) returns (end: WaitEnd, signals: Signals)
    modifies radio
    ensures Waited(end, signals, radio.State()) == Await(old(radio.State()), radio.script, decode, sig, k)
  {
    signals := sig;
    while !Fired(signals, k)
      invariant Await(radio.State(), radio.script, decode, signals, k)
             == Await(old(radio.State()), radio.script, decode, sig, k)
      decreases Pending(radio.State(), radio.script)
    {
      var regs := radio.indications;
      var e := radio.NextEvent();
      if e.Cancel? {
        return WaitCancelled, signals;
      }
      var fired := Fire(signals, EventSignal(regs, decode, e));
      if fired.None? {
        return Panicked, signals;
      }
      signals := fired.value;
    }
    end := Signalled;
  }

  /** sendSingleTextMessage */
  method SendSingleText(radio: Radio, decode: Decoder, dest: string, ref: Byte, pdu: Pdu,
                        waitReceived: bool, waitConsumed: bool) returns (result: SendResult)
    modifies radio
    ensures Sending(result, radio.State())
         == SendSingle(old(radio.State()), radio.script, decode, dest, ref, pdu, waitReceived, waitConsumed)
  {
    radio.AddIndication(Correlator(ref));
    var reply := radio.AT(SendMessage(dest, pdu));
    if reply.Failed? {
      return SendFailed(reply.cause);
    }
    var end, signals := Signalled, NoneFired;
    if waitReceived {
      end, signals := WaitForSignal(radio, decode, signals, Receipt);
      if end != Signalled {
        return Stopped(end);
      }
    }
    if waitConsumed {
      end, signals := WaitForSignal(radio, decode, signals, Consumption);
      if end != Signalled {
        return Stopped(end);
      }
    }
    result := Sent;
  }

  /** The `select` on the part confirmation channel. */
  method WaitForConfirmation(radio: Radio) returns (confirmed: bool)
    modifies radio
    ensures Confirmation(confirmed, radio.State()) == AwaitConfirmation(old(radio.State()), radio.script)
  {
    while true
      invariant AwaitConfirmation(radio.State(), radio.script) == AwaitConfirmation(old(radio.State()), radio.script)
      decreases Pending(radio.State(), radio.script)
    {
      var regs := radio.indications;
      var e := radio.NextEvent();
      if e.Cancel? {
        return false;
      }
      if IsConfirmation(regs, e) {
        return true;
      }
    }
  }

  /** sendConcatenatedTextMessage */
  method SendConcatenatedText(radio: Radio, codec: Codec, dest: string, ref: Byte, encoding: Encoding,
                              maxBits: int, text: string) returns (result: SendResult)
    modifies radio
    ensures Sending(result, radio.State())
         == SendConcatenated(old(radio.State()), radio.script, codec, dest, ref, encoding, maxBits, text)
  {
    radio.AddIndication(Confirmer);
    var pdus := codec.split(ref, NoReportRequested, encoding, maxBits, text);
    var i := 0;
    while i < |pdus|
      invariant 0 <= i <= |pdus|
      invariant SendParts(radio.State(), radio.script, dest, pdus, i)
             == SendConcatenated(old(radio.State()), radio.script, codec, dest, ref, encoding, maxBits, text)
    {
      var reply := radio.AT(SendMessage(dest, pdus[i]));
      if reply.Failed? {
        return PartFailed(i + 1, reply.cause);
      }
      if i < |pdus| - 1 {
        var confirmed := WaitForConfirmation(radio);
        if !confirmed {
          return Cancelled;
        }
      } else {
        return Sent;
      }
      i := i + 1;
    }
    result := Sent;
  }

  /** runSend */
  method Run(radio: Radio, codec: Codec, args: seq<string>, flags: SendFlags, r: nat) returns (outcome: Outcome)
    modifies radio
    ensures Ran(outcome, radio.State()) == RunSend(old(radio.State()), radio.script, codec, args, flags, r)
  {
    var plan := PlanSend(args, flags, r, codec.encodings);
    if plan.Failure? {
      return Fatal(Usage(plan.cause));
    }
    outcome := SendPlannedOn(radio, codec, plan.value, flags);
  }

  /** runSend once the command line is accepted. */
  method SendPlannedOn(radio: Radio, codec: Codec, plan: Plan, flags: SendFlags) returns (outcome: Outcome)
    modifies radio
    ensures Ran(outcome, radio.State()) == SendPlanned(old(radio.State()), radio.script, codec, plan, flags)
  {
    ghost var s := radio.State();
    var err := radio.ATs(SendInit);
    ghost var init := ExchangeAll(s, radio.script, SendInit);
    assert err == init.error && radio.State() == init.session;
    if err.Some? {
      return Fatal(Error("cannot initialize radio", err.value));
    }
    var maxBits := radio.Request(RequestMaxMessagePDUBits, radio.script.facts.maxPDUBits);
    ghost var q := Query(init.session, radio.script, RequestMaxMessagePDUBits, radio.script.facts.maxPDUBits);
    assert maxBits == q.result && radio.State() == q.session;
    if maxBits.Failure? {
      return Fatal(Error("cannot find out how long an SDS text message may be", maxBits.cause));
    }
    var pdu := MessagePdu(plan, flags);
    var sent;
    if codec.pduBits(pdu) <= MaxPDUBits {
      sent := SendSingleText(radio, codec.decode, plan.destination, plan.reference, pdu,
                             WaitsForReceipt(pdu), WaitsForConsumption(pdu));
    } else {
      sent := SendConcatenatedText(radio, codec, plan.destination, plan.reference,
                                   plan.encoding, MaxPDUBits, plan.text);
    }
    outcome := SendOutcome(sent);
  }
}
