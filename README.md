# tetra-cli in Dafny

tetra-cli is a command-line tool that controls a TETRA radio terminal through its PEI
(peripheral equipment interface), a serial line that carries AT commands and unsolicited
indications. This project models the tool's commands and its command lifecycle:

- `send` sends an SDS text message. It defaults and validates the message reference,
  builds the delivery report request, and either sends one PDU or a concatenated transfer
  part by part. A single PDU may wait for "received" and "consumed" reports that a
  temporary indication handler correlates with the message reference.
- `listen` initialises the radio for incoming traffic and registers six indication
  handlers. These cover message parts, voice activity, talkgroup idle/inactive and mode
  changes. Then it waits until its context ends.
- `set-talkgroup`, `get-talkgroup` and `talkgroups`.
  - `set-talkgroup` chooses the operating mode and the talkgroup.
  - `get-talkgroup` reads both.
  - `talkgroups` reads the dynamic talkgroups in TMO and the static ones in DMO, then
    switches back.
- `trace-signal` scans the GPS position and signal strength once, then once per ticker
  tick, until a scan count is reached or the context ends.
- The lifecycles that wrap these commands:
  - the cmd package's runWithRadio, which wraps `trace-signal`, including device
    detection and the interrupt signal; runCommandWithRadio adds a command timeout to it
    for `bat` and `status`;
  - the cli package's RunWithPEI, which wraps `listen`, and RunWithPEIAndTimeout, which
    wraps the three talkgroup commands, with its fatal error handler.

The PEI session itself comes from an external library. Here it is a radio, module `Pei`,
that behaves as follows:

- It answers each command exchange from a script of replies.
- It delivers a script of events (indications, ticks, a cancellation) to a caller that
  waits.
- It records every command and every registration.
- It tracks the air-interface mode.

The state is the datatype `Pei.Session`, and every PEI call is a step function on it.
`Pei.Radio` is a class with one method per PEI call, each proved against its step
function. Each command is a pure function from a session and a script to an outcome and
a final session. In addition, each command has a method that runs against a `Radio` and
is proved equal to that function. The properties are lemmas about the functions.

Events are handled in order, one at a time:

- An indication reaches a handler only while a command waits.
- The router hands it to the first registration whose prefix the line starts with.
- A Go `select` that finds a signal already closed takes it before the next event.

A Go panic (a second close of a channel, a slice out of range) is a distinct outcome of
the model, as is a fatal exit.

Where the code differs from its documented design, the model follows the code:

- send forces the maximum PDU length to 668 bits whatever the radio reports
  (cmd/send.go:85).
- The temporary handlers of send are never unregistered.
- A second delivery report for the same reference closes a closed channel and panics
  (`Send.DuplicateReceiptPanics`).
- In send's correlator a part that fails to decode is logged and still inspected.

## Model

| member | source | states |
|---|---|---|
| Text.LowerFoldsCase | cmd/root.go:118 | lowering leaves no upper-case letter and is idempotent, and two texts lower alike exactly when they differ only in letter case |
| Text.UpperFoldsCase | cmd/send.go:58 | raising leaves no lower-case letter and is idempotent, and two texts raise alike exactly when they differ only in letter case |
| Text.TrimSpace | cmd/talkgroup.go:53 | the result is a contiguous slice of the input with only white space cut on either side, and it neither starts nor ends with white space |
| Text.TrimSpaceEmptyIff | cmd/talkgroup.go:51-54 | trimming leaves nothing exactly when the argument is all white space (then no GTSI is set) |
| Text.Split | cmd/listen.go:88 | splitting always yields at least one field |
| Text.SplitCount | cmd/listen.go:88-94 | splitting at a separator yields one field more than the separator occurs, and no field contains it |
| Text.JoinSplit | cmd/listen.go:88 | joining the fields of a split with the separator gives back the original text |
| Text.SplitLastField | cmd/listen.go:93 | with two or more fields, the text ends with the separator followed by the last field, which holds no separator |
| Text.Atoi | cmd/listen.go:103-106 | the conversion succeeds exactly for an optionally signed decimal numeral whose value fits 64 bits, and then yields that value |
| Text.AtoiItoa | cmd/send.go:188 | converting any 64-bit integer to decimal and back gives the integer again |
| Pei.ExchangeAllIssuesPrefix | pkg/radio/radio.go:13 | ATs issues a prefix of its commands, in order, each once, and neither registers anything nor observes events |
| Pei.ExchangeAllFailFast | pkg/radio/radio.go:13 | ATs fails exactly when some command is rejected; it stops right after the first rejection, reports it, and every earlier command was acknowledged |
| Pei.ExchangeAllAppend | pkg/radio/radio.go:13 | sequencing `a + b` is sequencing `a` and, only when that succeeds, `b` |
| Pei.ExchangeAllKeepsMode | pkg/radio/radio.go:12-13 | commands without a mode switch never change the operating mode |
| Pei.ExchangeAllEndsInMode | cmd/talkgroup.go:56-61 | a successful sequence ending in a mode switch leaves the radio in that mode |
| Pei.RegisterAllAppends | pkg/radio/radio.go:9 | registering several indications appends them in order to the registrations and the record, and changes nothing else |
| Pei.HandlerLines | pkg/radio/radio.go:9 | a handler gets the indication line first and at most `trailingLines` more, and all of them exactly when that many follow |
| Pei.Route | pkg/radio/radio.go:9 | an indication goes to the first registration whose prefix it starts with, and to none exactly when no prefix fits |
| Pei.RouteUnique | pkg/radio/radio.go:9 | when exactly one registered prefix fits, that registration receives the line |
| Pei.Radio.constructor | pkg/radio/radio.go:5-14 | a new radio has the given script and mode and an empty record |
| Pei.Radio.AT | pkg/radio/radio.go:12 | AT sends one command and agrees with the Exchange step |
| Pei.Radio.ATs | pkg/radio/radio.go:13 | the loop over the commands agrees with the fail-fast ExchangeAll step |
| Pei.Radio.AddIndication | pkg/radio/radio.go:9 | AddIndication appends the registration and records it |
| Pei.Radio.NextEvent | cmd/listen.go:110 | a waiting caller consumes the next scripted event, agreeing with the Observe step |
| Pei.Radio.Request | pkg/radio/radio.go:11 | a query is one exchange that yields its value when acknowledged and the cause otherwise |
| Pei.Radio.RequestOperatingMode | cmd/talkgroup.go:81-84 | the mode query yields the radio's current mode when acknowledged |
| Send.DefaultReference | cmd/send.go:50-52 | the generated reference is a byte, and it is 0 exactly when the random value is 255 modulo 256 |
| Send.MessageReference | cmd/send.go:50-52 | a non-zero flag is used as given; a zero flag is replaced by a byte |
| Send.ReportRequest | cmd/send.go:63-69 | the "received" bit is set exactly when receipt is acknowledged, the "consumed" bit exactly when consumption is, and no report is requested exactly when neither is |
| Send.EncodingKeyIgnoresCase | cmd/send.go:58 | two encoding flags are looked up under the same key exactly when their trimmed texts differ only in letter case |
| Send.PlanSend | cmd/send.go:44-69 | the command line is accepted exactly when there are at least two arguments, the reference is in 1..255 and the trimmed, upper-cased encoding is known; then the plan has the destination, the reference, the encoding, the space-joined text and the report request |
| Send.Correlate | cmd/send.go:111-146 | the correlator signals "received" exactly for a two-line indication carrying a receipt report (full or short) for the awaited reference, and "consumed" likewise for a consumption report |
| Send.Fire | cmd/send.go:123-143 | closing a signal succeeds exactly when it was not closed before (a second close panics) |
| Send.EventSignal | cmd/send.go:111-112 | an event fires a signal only as a two-line indication routed to a report correlator |
| Send.AwaitFacts | cmd/send.go:154-169 | waiting only observes events: it ends signalled exactly when the awaited signal fired, otherwise on a cancellation or a panic at the last event; signals only accumulate, and each new one came from an observed event |
| Send.AwaitReaches | cmd/send.go:154-161 | if an observed report fires the awaited signal before any cancellation, the wait ends signalled |
| Send.DuplicateReceiptPanics | cmd/send.go:123-127 | a second receipt report for the awaited reference panics |
| Send.SendSingleFacts | cmd/send.go:108-172 | the single send registers the correlator, sends the PDU once, fails exactly when the radio rejects it, waits for each requested report in order, and observes nothing when none is requested |
| Send.AwaitConfirmationFacts | cmd/send.go:190-195 | waiting for a part confirmation ends confirmed exactly at a one-line confirmation and otherwise at a cancellation, having only observed events |
| Send.SendPartsInOrder | cmd/send.go:183-197 | the parts are sent in order, each once, with the record holding exactly the parts sent so far |
| Send.SendPartsEnds | cmd/send.go:184-198 | the part loop ends sent after all parts with every exchange acknowledged, failed with the 1-based number and the cause of the part the radio rejected after acknowledging the earlier ones, or cancelled before the last part |
| Send.MissingConfirmationStops | cmd/send.go:184-196 | a three-part transfer whose first part is acknowledged but never confirmed sends only that part and ends cancelled |
| Send.RunSendChecksFirst | cmd/send.go:44-71 | a usage error happens exactly when the command line is refused, and then the radio is untouched |
| Send.PlannedAddressesRadio | cmd/send.go:71-105 | once the command line is accepted at least one command reaches the radio, and no usage error follows |
| Send.GeneratedZeroRefused | cmd/send.go:50-55 | a generated reference of 0 is refused as a usage error |
| Send.PathChoice | cmd/send.go:71-101 | once initialisation and the length query are acknowledged, the record starts with those commands and the next step registers the delivery report correlator exactly when the PDU fits in 668 bits, and the part confirmation handler exactly when it does not |
| Send.WaitForSignal | cmd/send.go:154-169 | the select loop over the radio's events agrees with Await |
| Send.SendSingleText | cmd/send.go:108-172 | sendSingleTextMessage against the radio agrees with SendSingle |
| Send.WaitForConfirmation | cmd/send.go:191-195 | the wait for a part confirmation agrees with AwaitConfirmation |
| Send.SendConcatenatedText | cmd/send.go:174-199 | the loop over the parts agrees with SendConcatenated |
| Send.Run | cmd/send.go:44-106 | runSend against the radio agrees with RunSend |
| Send.SendPlannedOn | cmd/send.go:71-105 | runSend after the command-line checks, against the radio, agrees with SendPlanned |
| Listen.SdsReportEffect | cmd/listen.go:74-86 | an SDS report indication puts a part on the stack exactly when its one following line is there and the two lines decode, that part being the decoded one; otherwise it is dropped |
| Listen.VoiceReportFields | cmd/listen.go:87-95 | three commas after the prefix mean transmission, five mean reception, other counts print nothing; the received ITSI is the last field and holds no comma |
| Listen.ModeReport | cmd/listen.go:102-108 | a mode is reported exactly when the rest of the line is a 64-bit integer, and then it is that mode |
| Listen.MessageBlock | cmd/listen.go:52-60 | the message block has the ISSI line, the ITSI and OPTA lines only when they are non-empty, then the text line and the separator |
| Listen.PrefixIndexOfMatch | cmd/listen.go:85-102 | characters 2, 3 and 10 identify the listen prefix a line starts with |
| Listen.ListenPrefixesExclusive | cmd/listen.go:85-102 | no line starts with two of the listen prefixes |
| Listen.ListenRoutesByPrefix | cmd/listen.go:85-102 | with only the listen handlers registered, a line reaches the handler of its prefix, whatever the router's order |
| Listen.RunListenInit | cmd/listen.go:32-102 | a failed initialisation ends fatally in the session the failed ATs left: nothing registered, nothing observed, and the record extended by a prefix of the initialisation commands; otherwise every command was sent and the six handlers are registered in order |
| Listen.ListeningFacts | cmd/listen.go:74-110 | listening only observes events until the first cancellation (or a panic); reports and stacked parts only accumulate, and each new part was decoded from an observed indication |
| Listen.ListeningNeverPanics | cmd/listen.go:87-108 | when every parser is registered under a prefix at least as long as what it slices off, no handler panics |
| Listen.RunListenNeverPanics | cmd/listen.go:31-111 | on a radio with nothing registered, listen never panics |
| Listen.SendResponses | cmd/listen.go:63-72 | the response callback's loop sends the responses in order and stops at the first failure |
| Listen.Run | cmd/listen.go:31-111 | runListen against the radio agrees with RunListen |
| Listen.Await | cmd/listen.go:110 | the wait for the end of the context against the radio agrees with Listening |
| Talkgroup.SwitchUnless | cmd/talkgroup.go:108-113 | a skipped switch changes nothing; otherwise it succeeds exactly when the radio acknowledges it, and then the radio is in the target mode |
| Talkgroup.SetTalkgroupFacts | cmd/talkgroup.go:41-69 | the arguments are checked before the radio is touched; the initialisation ends in the mode switch; the talkgroup command is sent only for a non-empty trimmed GTSI; the command completes exactly when the initialisation does, and then the radio is in the requested mode |
| Talkgroup.GetTalkgroupSequence | cmd/talkgroup.go:71-92 | get-talkgroup is the fail-fast sequence of its initialisation and the two queries, completes exactly when all are acknowledged, and shows the radio's own mode and talkgroup |
| Talkgroup.ListDmoSequence | cmd/talkgroup.go:123-141 | from the switch to DMO on, talkgroups is the fail-fast sequence of its commands; it keeps the dynamic list and, when it completes, shows the static list read in DMO and leaves the radio in its starting mode |
| Talkgroup.ListTmoSequence | cmd/talkgroup.go:108-141 | from the switch to TMO on, talkgroups is the fail-fast sequence of its commands; when it completes it shows both lists, the dynamic one read in TMO and the static one in DMO, and leaves the radio in its starting mode |
| Talkgroup.GetTalkgroupsSequence | cmd/talkgroup.go:94-142 | talkgroups is the fail-fast sequence of its commands for the starting mode, completes exactly when all are acknowledged, and then shows both lists |
| Talkgroup.GetTalkgroupsRestoresMode | cmd/talkgroup.go:103-141 | a completed talkgroups run leaves the radio in its starting mode, having read the dynamic groups in TMO and the static ones in DMO |
| Talkgroup.SetTalkgroupOn | cmd/talkgroup.go:41-69 | runSetTalkgroup against the radio agrees with RunSetTalkgroup |
| Talkgroup.GetTalkgroupOn | cmd/talkgroup.go:71-92 | runGetTalkgroup against the radio agrees with RunGetTalkgroup |
| Talkgroup.GetTalkgroupsOn | cmd/talkgroup.go:94-142 | runGetTalkgroups against the radio agrees with RunGetTalkgroups |
| Signal.Scan | cmd/signal.go:74-90 | a scan makes the position and signal queries; a failed position becomes zeros at the current time, a failed signal becomes 0 dBm, and otherwise the radio's readings are shown |
| Signal.TracingCount | cmd/signal.go:49-71 | the scan loop adds one line per tick until the first cancellation, stopping early once a positive limit is reached |
| Signal.TraceSignalCount | cmd/signal.go:33-72 | trace-signal prints no line when initialisation fails, one for a limit of 1, min(n, 1 + ticks) for a larger limit and 1 + ticks without a limit, the first being the initial scan |
| Signal.ScanOn | cmd/signal.go:74-90 | scanSignalAndPosition against the radio agrees with Scan |
| Signal.TraceOn | cmd/signal.go:33-72 | runTraceSignal's loop over the radio's events agrees with RunTraceSignal |
| Cli.FindRadioPortName | pkg/cli/cli.go:115-128 | a device flag other than empty or "auto" is used as given; otherwise the detected port is used, "no PEI found" becomes the hint to use --device, and other detection errors pass through |
| Cli.SetupTracePEI | pkg/cli/cli.go:105-111 | no trace file name gives a nil handle and no error; a failed open gives an error and a handle that is not nil; a successful one gives the open file |
| Cli.EffectiveHandler | pkg/cli/cli.go:62-64 | a nil fatal error handler is replaced by the default one, and any other is kept |
| Cli.AutoInAnyCase | pkg/cli/cli.go:115-117 | a device flag is used as the port exactly when it is not empty and not "auto" in any mix of letter cases |
| Cli.StartupSteps | pkg/cli/cli.go:66-93 | before the body only opening, handler and clearing steps happen, and they end the process exactly when a step fails and the handler exits |
| Cli.ExitingLifecycle | pkg/cli/cli.go:60-95 | with an exiting handler the body runs exactly when no earlier step failed, right after opening the trace file, opening the port traced exactly when a file is named, and clearing syntax errors |
| Cli.ShutdownOrder | pkg/cli/cli.go:95-102 | after a returning body come ATZ, Close and WaitUntilClosed, then the deferred trace close; when the process exits none of them happens |
| Cli.ReturningHandlerContinues | pkg/cli/cli.go:69-95 | with a handler that returns the body always runs, and the port is opened with a trace exactly when a file is named, even if its open failed |
| Cli.TimeoutOnlyBoundsTheBody | pkg/cli/cli.go:49-56 | the timeout wrapper takes the same steps, only with the body bounded |
| Cli.Start | pkg/cli/cli.go:60-93 | the steps before the body, with the trace close deferred after the port lookup, agree with Startup |
| Cli.RunWithPEI | pkg/cli/cli.go:60-103 | the lifecycle with its deferred calls agrees with Lifecycle |
| Root.FirstPeiDevice | cmd/root.go:127-132 | the chosen device is the first whose lower-cased description contains the PEI marker, and none is chosen exactly when no device has it |
| Root.FirstPeiIndex | cmd/root.go:127-132 | the loop stops at the first device with the PEI marker, or past the end when none has it |
| Root.GetRadioPortName | cmd/root.go:117-135 | an explicit device is used as given; otherwise the path of the first PEI device is used, a listing error passes through, and no PEI device gives the hint to use --device |
| Root.StartOrder | cmd/root.go:61-107 | the trace file is opened exactly when named after the serial device opened; the body runs exactly when every earlier step succeeded, right after creating the radio and clearing syntax errors |
| Root.StartedLife | cmd/root.go:61-114 | a run whose setup succeeds opens the serial device, the trace file when named, creates the radio and clears syntax errors, runs the body, and shuts down only after a body that returns |
| Root.FailedLife | cmd/root.go:61-105 | a run whose setup fails takes only setup steps, and the trace file is opened exactly when named after a port was found and the serial device opened |
| Root.RootShutdownOrder | cmd/root.go:78-114 | after a returning body come ATZ, Close and WaitUntilClosed, then the trace file and the serial device are closed in reverse order of opening; `fatal` ends the process with none of them |
| Root.RunRadioCommand | cmd/root.go:52-115 | runWithRadio with its deferred calls agrees with RunWithRadio |

## Left out

- The PEI session, its line transport and its router are external (github.com/ftl/tetra-pei).
  - The radio is a script of replies and events.
  - The command text of the ctrl and sds requests is not modelled; commands are tagged values.
  - The router's first-match policy is assumed.
- The SDS encoders and parsers are external and appear as uninterpreted parameters (`Send.Codec`, `Sds.Decoder`):
  - the PDU bit length;
  - NewConcatenatedMessageTransfer;
  - ParseIncomingMessage;
  - the EncodingByName table.
- The SDS stack of listen is external. The model keeps the parts it receives (`Listen.ListeningFacts`) and the two callbacks it drives (`Listen.MessageBlock`, `Listen.SendResponses`). Left out:
  - reassembly of concatenated parts;
  - generation of responses;
  - SplitLeadingOPTA and SplitTrailingITSI;
  - the status callback's `%4x` output.
- Printed output is modelled as datatypes (report blocks, scan lines, talkgroup lists), not as formatted text. Left out:
  - RFC 3339 time formatting and floating-point formatting;
  - log.Printf diagnostics;
  - AIMode.String.
- ctrl.AIModeByName is a map parameter.
- Concurrency is left out:
  - goroutines;
  - Go's random choice in a `select` when several cases are ready (the model takes an already closed signal first, then events in order);
  - indications arriving during a command exchange, which are not dispatched;
  - the capacity-1 buffer of the part confirmation channel (a surplus confirmation that would block the router).
- Timing is left out:
  - command timeouts, the scan interval, the shutdown timeout and, under runWithRadio, the interrupt signal appear only as a `Cancel` event or a `Tick` event;
  - time.Now is the parameter `now`;
  - rand.Int is the parameter `r`.
- ATZ is not modelled as resetting the operating mode: only an acknowledged SetOperatingMode changes it.
- What a nil PEI or an unopened port does after a custom fatal error handler returns is not modelled. The lifecycle continues with the steps the code takes.
- Command-line parsing and registration through cobra are not modelled: flags, `init`, Execute and the hidden trace flag.
- The commands bat, info, routing, status and listDevices are not part of this model.
- cli.RunWithRadioAndTimeout wraps send (cmd/send.go:30), info and routing, but pkg/cli/cli.go as modelled here does not define it, so it is not part of this model. The body of send is modelled against the abstract radio with no wrapper around it.
- Listen.RunListen, Listen.Await: listen is wrapped by cli.RunWithPEI, whose context is the command's background context and never ends, so in the code listen waits until the process is stopped and the shutdown of pkg/cli/cli.go:97-101 never follows it. In the model a `Cancel` event (or the end of the event script) stands for that stop, and the `Completed` outcome after it is not followed by any shutdown step in Listen.
- The scan counter of trace-signal is an unbounded integer; Go's `int` overflow after 2^63 scans is not modelled.
- Text.Lower, Text.Upper: only ASCII letters change case, unlike Go's Unicode strings.ToLower and strings.ToUpper.
- Send.DefaultReference: rand.Int() is any non-negative integer rather than one below 2^63, which makes no difference to its low byte.
- The value of the max-PDU-bits query is discarded, as in the code, which always uses 668.
