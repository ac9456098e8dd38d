/**
 * The talkgroup commands: `set-talkgroup` switches the operating mode and optionally the
 * talkgroup, `get-talkgroup` reads both, and `talkgroups` reads the dynamic talkgroups in
 * trunked mode and the static ones in direct mode, then switches back to the mode the
 * radio was in.
 */
module Talkgroup {
  import opened Wrappers
  import opened Text
  import opened Pei

  const SetUsage: string := "tetra-cli set-talkgroup <TMO|DMO> [<GTSI>]"

  function SetInit(mode: AIMode): seq<Command> {
    [At("ATZ"), At("ATE0"), At("AT+CTSP=1,1,11"), SetOperatingMode(mode)]
  }

  /** The GTSI argument: the second argument without surrounding white space, or none. */
  function GtsiArgument(args: seq<string>): string {
    if |args| > 1 then TrimSpace(args[1]) else ""
  }

  /**
   * runSetTalkgroup. `modes` stands for ctrl.AIModeByName. The reply to the talkgroup
   * command is not looked at.
   */
  function RunSetTalkgroup(s: Session, sc: Script, modes: map<string, AIMode>, args: seq<string>): Ran {
    if |args| < 1 then Ran(Fatal(Usage(SetUsage)), s)
    else if args[0] !in modes then Ran(Fatal(Usage("invalid AI mode " + args[0])), s)
    else
      var gtsi := GtsiArgument(args);
      var init := ExchangeAll(s, sc, SetInit(modes[args[0]]));
      if init.error.Some? then Ran(Fatal(Error("cannot initialize radio", init.error.value)), init.session)
      else if gtsi != "" then Ran(Completed, Exchange(init.session, sc, SetTalkgroup(gtsi)).session)
      else Ran(Completed, init.session)
  }

  /** The commands set-talkgroup sends once its arguments are accepted. */
  function SetCommands(mode: AIMode, gtsi: string): seq<Command> {
    SetInit(mode) + (if gtsi != "" then [SetTalkgroup(gtsi)] else [])
  }

  const GetInit: seq<Command> := [At("ATZ"), At("ATE0"), At("AT+CTSP=1,1,11")]

  datatype Shown = Shown(outcome: Outcome, mode: Option<AIMode>, talkgroup: Option<string>, session: Session)

  /** runGetTalkgroup: what it prints is the mode line, then the GTSI line. */
  function RunGetTalkgroup(s: Session, sc: Script): Shown {
    var init := ExchangeAll(s, sc, GetInit);
    if init.error.Some? then Shown(Fatal(Error("cannot initialize radio", init.error.value)), None, None, init.session)
    else
      var m := Query(init.session, sc, RequestOperatingMode, init.session.mode);
      if m.result.Failure? then
        Shown(Fatal(Error("cannot find out the current operating mode", m.result.cause)), None, None, m.session)
      else
        var g := Query(m.session, sc, RequestTalkgroup, sc.facts.talkgroup);
        if g.result.Failure? then
          Shown(Fatal(Error("cannot find out the current talkgroup", g.result.cause)), Some(m.result.value), None, g.session)
        else Shown(Completed, Some(m.result.value), Some(g.result.value), g.session)
  }

  const GetCommands: seq<Command> := GetInit + [RequestOperatingMode, RequestTalkgroup]

  /** `if skip { } else { AT(SetOperatingMode(target)) }` */
  function SwitchUnless(s: Session, sc: Script, target: AIMode, skip: bool): (r: Sequenced)
    ensures skip ==> r == Sequenced(None, s)
    ensures !skip && r.error.None? ==> r.session.mode == target
    ensures !skip ==> (r.error.None? <==> NextReply(s, sc).Ok?)
    ensures r == ExchangeAll(s, sc, if skip then [] else [SetOperatingMode(target)])
  {
    if skip then Sequenced(None, s)
    else
      var e := Exchange(s, sc, SetOperatingMode(target));
      assert [SetOperatingMode(target)][1..] == [];
      assert ExchangeAll(e.session, sc, []) == Sequenced(None, e.session);
      ExchangeAll(s, sc, [SetOperatingMode(target)])
  }

  /** RequestTalkgroups: the radio lists its talkgroups of that kind. */
  function ReadGroups(s: Session, sc: Script, kind: TalkgroupKind): Answer<seq<TalkgroupInfo>> {
    Query(s, sc, RequestTalkgroups(kind), GroupsOf(sc.facts, kind))
  }

  datatype Listing = Listing(outcome: Outcome, tmo: seq<TalkgroupInfo>, dmo: seq<TalkgroupInfo>, session: Session)

  /** runGetTalkgroups: the two lists it prints, TMO rows first. */
  function RunGetTalkgroups(s: Session, sc: Script): Listing {
    var init := ExchangeAll(s, sc, [At("ATZ"), At("ATE0")]);
    if init.error.Some? then Listing(Fatal(Error("cannot initialize radio", init.error.value)), [], [], init.session)
    else
      var q := Query(init.session, sc, RequestOperatingMode, init.session.mode);
      if q.result.Failure? then Listing(Fatal(Error("cannot read last mode", q.result.cause)), [], [], q.session)
      else ListTmo(q.session, sc, q.result.value)
  }

  /** runGetTalkgroups once the mode the radio was in is known: TMO, its dynamic talkgroups, then DMO. */
  function ListTmo(s: Session, sc: Script, last: AIMode): Listing {
    var toTmo := SwitchUnless(s, sc, TMO, last == TMO);
    if toTmo.error.Some? then Listing(Fatal(Error("cannot switch to TMO", toTmo.error.value)), [], [], toTmo.session)
    else
      var tmo := ReadGroups(toTmo.session, sc, TalkgroupDynamic);
      if tmo.result.Failure? then Listing(Fatal(Error("cannot read TMO talkgroups", tmo.result.cause)), [], [], tmo.session)
      else ListDmo(tmo.session, sc, last, tmo.result.value)
  }

  /** runGetTalkgroups once the dynamic talkgroups are read: DMO, its static talkgroups, then the mode it was in. */
  function ListDmo(s: Session, sc: Script, last: AIMode, tmo: seq<TalkgroupInfo>): Listing {
    var toDmo := SwitchUnless(s, sc, DMO, false);
    if toDmo.error.Some? then Listing(Fatal(Error("cannot switch to DMO", toDmo.error.value)), tmo, [], toDmo.session)
    else
      var dmo := ReadGroups(toDmo.session, sc, TalkgroupStatic);
      if dmo.result.Failure? then
        Listing(Fatal(Error("cannot read DMO talkgroups", dmo.result.cause)), tmo, [], dmo.session)
      else
        var back := SwitchUnless(dmo.session, sc, last, last == DMO);
        if back.error.Some? then
          Listing(Fatal(Error("cannot switch to last mode", back.error.value)), tmo, dmo.result.value, back.session)
        else Listing(Completed, tmo, dmo.result.value, back.session)
  }

  function TmoSwitch(last: AIMode): seq<Command> {
    if last != TMO then [SetOperatingMode(TMO)] else []
  }

  function BackSwitch(last: AIMode): seq<Command> {
    if last != DMO then [SetOperatingMode(last)] else []
  }

  function DmoCommands(last: AIMode): seq<Command> {
    [SetOperatingMode(DMO), RequestTalkgroups(TalkgroupStatic)] + BackSwitch(last)
  }

  function TmoCommands(last: AIMode): seq<Command> {
    TmoSwitch(last) + ([RequestTalkgroups(TalkgroupDynamic)] + DmoCommands(last))
  }

  /** The commands runGetTalkgroups sends, for the mode the radio starts in. */
  function ListCommands(last: AIMode): seq<Command> {
    [At("ATZ"), At("ATE0"), RequestOperatingMode] + TmoCommands(last)
  }

  // ---------------------------------------------------------------------------
  // Properties

  /**
   * set-talkgroup checks its arguments before it touches the radio, sends the
   * initialisation ending in the mode switch and then, for a non-empty GTSI only, the
   * talkgroup command, stopping at the first rejected initialisation command. It
   * completes exactly when the initialisation went through, whatever the reply to the
   * talkgroup command, and then the radio is in the requested mode.
   */
  lemma SetTalkgroupFacts(s: Session, sc: Script, modes: map<string, AIMode>, args: seq<string>)
    ensures var r := RunSetTalkgroup(s, sc, modes, args);
      (|args| < 1 || args[0] !in modes) <==> r.outcome.Fatal? && r.outcome.fault.Usage?
    ensures |args| < 1 || args[0] !in modes ==> RunSetTalkgroup(s, sc, modes, args).session == s
    ensures |args| >= 1 && args[0] in modes ==>
      var r := RunSetTalkgroup(s, sc, modes, args);
      var mode := modes[args[0]];
      && r.session == ExchangeAll(s, sc, SetCommands(mode, GtsiArgument(args))).session
      && (r.outcome.Completed? <==> AllOk(sc, s.exchanges, |SetInit(mode)|))
      && (r.outcome.Completed? ==> ExchangeAll(s, sc, SetInit(mode)).session.mode == mode)
  {
    if |args| >= 1 && args[0] in modes {
      var mode := modes[args[0]];
      var gtsi := GtsiArgument(args);
      ExchangeAllAppend(s, sc, SetInit(mode), if gtsi != "" then [SetTalkgroup(gtsi)] else []);
      ExchangeAllFailFast(s, sc, SetInit(mode));
      if ExchangeAll(s, sc, SetInit(mode)).error.None? {
        ExchangeAllEndsInMode(s, sc, SetInit(mode), mode);
      }
    }
  }

  /**
   * get-talkgroup is the fail-fast sequence of its initialisation, the mode query and the
   * talkgroup query: it completes exactly when every one of them is acknowledged, and the
   * mode it shows is the radio's mode.
   */
  lemma GetTalkgroupSequence(s: Session, sc: Script)
    ensures var r := RunGetTalkgroup(s, sc);
      && r.session == ExchangeAll(s, sc, GetCommands).session
      && (r.outcome.Completed? <==> ExchangeAll(s, sc, GetCommands).error.None?)
      && (r.outcome.Completed? <==> AllOk(sc, s.exchanges, |GetCommands|))
      && (r.mode.Some? ==> r.mode.value == s.mode)
      && (r.talkgroup.Some? ==> r.mode.Some? && r.talkgroup.value == sc.facts.talkgroup)
  {
    ExchangeAllAppend(s, sc, GetInit, [RequestOperatingMode, RequestTalkgroup]);
    ExchangeAllKeepsMode(s, sc, GetInit);
    ExchangeAllFailFast(s, sc, GetCommands);
  }

  /** A query is the one-command sequence of its command, with the value on success. */
  lemma QueryAsSequence<T>(s: Session, sc: Script, c: Command, v: T)
    ensures var q := Query(s, sc, c, v); var e := ExchangeAll(s, sc, [c]);
      && q.session == e.session
      && (q.result.Success? <==> e.error.None?)
      && (q.result.Success? ==> q.result.value == v)
      && (q.result.Failure? ==> e.error == Some(q.result.cause))
  {
    assert [c][1..] == [];
  }

  /**
   * From the switch to DMO on, talkgroups is the fail-fast sequence of DmoCommands; it
   * keeps the dynamic talkgroups already read and, when it completes, shows the static
   * ones and leaves the radio in the mode it started in, having read them in DMO.
   */
  lemma ListDmoSequence(s: Session, sc: Script, last: AIMode, tmo: seq<TalkgroupInfo>)
    ensures var r := ListDmo(s, sc, last, tmo); var e := ExchangeAll(s, sc, DmoCommands(last));
      && r.session == e.session
      && (r.outcome.Completed? <==> e.error.None?)
      && r.tmo == tmo
      && (r.outcome.Completed? ==>
            && r.dmo == sc.facts.staticGroups && r.session.mode == last
            && ExchangeAll(s, sc, [SetOperatingMode(DMO)]).session.mode == DMO)
  {
    var toDmo := ExchangeAll(s, sc, [SetOperatingMode(DMO)]);
    ExchangeAllAppend(s, sc, [SetOperatingMode(DMO)], [RequestTalkgroups(TalkgroupStatic)] + BackSwitch(last));
    assert DmoCommands(last) == [SetOperatingMode(DMO)] + ([RequestTalkgroups(TalkgroupStatic)] + BackSwitch(last));
    if toDmo.error.None? {
      QueryAsSequence(toDmo.session, sc, RequestTalkgroups(TalkgroupStatic), sc.facts.staticGroups);
      ExchangeAllAppend(toDmo.session, sc, [RequestTalkgroups(TalkgroupStatic)], BackSwitch(last));
    }
  }

  /**
   * From the switch to TMO on, talkgroups is the fail-fast sequence of TmoCommands; when
   * it completes it shows both lists and leaves the radio in the mode it started in,
   * having read the dynamic talkgroups after the switch to TMO.
   */
  lemma ListTmoSequence(s: Session, sc: Script, last: AIMode)
    ensures var r := ListTmo(s, sc, last); var e := ExchangeAll(s, sc, TmoCommands(last));
      && r.session == e.session
      && (r.outcome.Completed? <==> e.error.None?)
      && (r.outcome.Completed? ==>
            && r.tmo == sc.facts.dynamicGroups && r.dmo == sc.facts.staticGroups && r.session.mode == last
            && ExchangeAll(s, sc, TmoSwitch(last)).session.mode == (if last != TMO then TMO else s.mode)
            && ExchangeAll(s, sc, TmoSwitch(last) + [RequestTalkgroups(TalkgroupDynamic), SetOperatingMode(DMO)]).session.mode == DMO)
  {
    var toTmo := ExchangeAll(s, sc, TmoSwitch(last));
    ExchangeAllAppend(s, sc, TmoSwitch(last), [RequestTalkgroups(TalkgroupDynamic)] + DmoCommands(last));
    if last == TMO {
      assert TmoSwitch(last) == [];
    }
    if toTmo.error.None? {
      QueryAsSequence(toTmo.session, sc, RequestTalkgroups(TalkgroupDynamic), sc.facts.dynamicGroups);
      ExchangeAllAppend(toTmo.session, sc, [RequestTalkgroups(TalkgroupDynamic)], DmoCommands(last));
      var tmo := ReadGroups(toTmo.session, sc, TalkgroupDynamic);
      if tmo.result.Success? {
        ListDmoSequence(tmo.session, sc, last, tmo.result.value);
        ExchangeAllAppend(s, sc, TmoSwitch(last), [RequestTalkgroups(TalkgroupDynamic), SetOperatingMode(DMO)]);
        ExchangeAllAppend(toTmo.session, sc, [RequestTalkgroups(TalkgroupDynamic)], [SetOperatingMode(DMO)]);
      }
    }
  }

  /**
   * talkgroups is the fail-fast sequence of ListCommands for the mode the radio starts in:
   * the switch to TMO is skipped when it already was in TMO, the dynamic talkgroups are
   * read next, the switch to DMO always follows, then the static talkgroups are read, and
   * the switch back is skipped when it started in DMO. It completes exactly when every
   * command is acknowledged, and then shows both lists.
   */
  lemma GetTalkgroupsSequence(s: Session, sc: Script)
    ensures var r := RunGetTalkgroups(s, sc);
      && r.session == ExchangeAll(s, sc, ListCommands(s.mode)).session
      && (r.outcome.Completed? <==> ExchangeAll(s, sc, ListCommands(s.mode)).error.None?)
      && (r.outcome.Completed? ==> r.tmo == sc.facts.dynamicGroups && r.dmo == sc.facts.staticGroups)
  {
    var a := [At("ATZ"), At("ATE0")];
    assert ListCommands(s.mode) == a + ([RequestOperatingMode] + TmoCommands(s.mode));
    ExchangeAllKeepsMode(s, sc, a);
    ExchangeAllAppend(s, sc, a, [RequestOperatingMode] + TmoCommands(s.mode));
    var s1 := ExchangeAll(s, sc, a);
    if s1.error.None? {
      QueryAsSequence(s1.session, sc, RequestOperatingMode, s1.session.mode);
      ExchangeAllAppend(s1.session, sc, [RequestOperatingMode], TmoCommands(s.mode));
      var q := Query(s1.session, sc, RequestOperatingMode, s1.session.mode);
      if q.result.Success? {
        ListTmoSequence(q.session, sc, s.mode);
      }
    }
  }

  /**
   * The mode the radio ends in when talkgroups completes is the mode it started in, and
   * each list was read in its own mode: the dynamic talkgroups in TMO, the static ones in
   * DMO.
   */
  lemma GetTalkgroupsRestoresMode(s: Session, sc: Script)
    requires RunGetTalkgroups(s, sc).outcome.Completed?
    ensures RunGetTalkgroups(s, sc).session.mode == s.mode
    ensures ExchangeAll(s, sc, [At("ATZ"), At("ATE0"), RequestOperatingMode] + TmoSwitch(s.mode)).session.mode == TMO
    ensures ExchangeAll(s, sc, [At("ATZ"), At("ATE0"), RequestOperatingMode] + TmoSwitch(s.mode)
                               + [RequestTalkgroups(TalkgroupDynamic), SetOperatingMode(DMO)]).session.mode == DMO
  {
    var a := [At("ATZ"), At("ATE0")];
    var head := [At("ATZ"), At("ATE0"), RequestOperatingMode];
    var sw := TmoSwitch(s.mode);
    var dyn := [RequestTalkgroups(TalkgroupDynamic), SetOperatingMode(DMO)];
    assert head == a + [RequestOperatingMode];
    assert head + sw + dyn == head + (sw + dyn);
    ExchangeAllKeepsMode(s, sc, a);
    ExchangeAllAppend(s, sc, a, [RequestOperatingMode]);
    var s1 := ExchangeAll(s, sc, a);
    QueryAsSequence(s1.session, sc, RequestOperatingMode, s1.session.mode);
    var q := Query(s1.session, sc, RequestOperatingMode, s1.session.mode);
    assert RunGetTalkgroups(s, sc) == ListTmo(q.session, sc, s.mode);
    ListTmoSequence(q.session, sc, s.mode);
    ExchangeAllAppend(s, sc, head, sw);
    ExchangeAllAppend(s, sc, head, sw + dyn);
  }

  // ---------------------------------------------------------------------------
  // The commands against the radio

  /** runSetTalkgroup */
  method SetTalkgroupOn(radio: Radio, modes: map<string, AIMode>, args: seq<string>) returns (outcome: Outcome)
    modifies radio
    ensures Ran(outcome, radio.State()) == RunSetTalkgroup(old(radio.State()), radio.script, modes, args)
  {
    if |args| < 1 {
      return Fatal(Usage(SetUsage));
    }
    if args[0] !in modes {
      return Fatal(Usage("invalid AI mode " + args[0]));
    }
    var gtsi := "";
    if |args| > 1 {
      gtsi := TrimSpace(args[1]);
    }
    var err := radio.ATs(SetInit(modes[args[0]]));
    if err.Some? {
      return Fatal(Error("cannot initialize radio", err.value));
    }
    if gtsi != "" {
      var _ := radio.AT(SetTalkgroup(gtsi));
    }
    outcome := Completed;
  }

  /** runGetTalkgroup */
  method GetTalkgroupOn(radio: Radio) returns (outcome: Outcome, mode: Option<AIMode>, talkgroup: Option<string>)
    modifies radio
    ensures Shown(outcome, mode, talkgroup, radio.State()) == RunGetTalkgroup(old(radio.State()), radio.script)
  {
    var err := radio.ATs(GetInit);
    if err.Some? {
      return Fatal(Error("cannot initialize radio", err.value)), None, None;
    }
    var current := radio.RequestOperatingMode();
    if current.Failure? {
      return Fatal(Error("cannot find out the current operating mode", current.cause)), None, None;
    }
    var group := radio.Request(RequestTalkgroup, radio.script.facts.talkgroup);
    if group.Failure? {
      return Fatal(Error("cannot find out the current talkgroup", group.cause)), Some(current.value), None;
    }
    return Completed, Some(current.value), Some(group.value);
  }

  /** runGetTalkgroups */
  method GetTalkgroupsOn(radio: Radio) returns (outcome: Outcome, tmo: seq<TalkgroupInfo>, dmo: seq<TalkgroupInfo>)
    modifies radio
    ensures Listing(outcome, tmo, dmo, radio.State()) == RunGetTalkgroups(old(radio.State()), radio.script)
  {
    tmo, dmo := [], [];
    var err := radio.ATs([At("ATZ"), At("ATE0")]);
    if err.Some? {
      return Fatal(Error("cannot initialize radio", err.value)), tmo, dmo;
    }
    var lastMode := radio.RequestOperatingMode();
    if lastMode.Failure? {
      return Fatal(Error("cannot read last mode", lastMode.cause)), tmo, dmo;
    }
    var last := lastMode.value;
    if last != TMO {
      err := radio.ATs([SetOperatingMode(TMO)]);
      if err.Some? {
        return Fatal(Error("cannot switch to TMO", err.value)), tmo, dmo;
      }
    }
    var groups := radio.Request(RequestTalkgroups(TalkgroupDynamic), GroupsOf(radio.script.facts, TalkgroupDynamic));
    if groups.Failure? {
      return Fatal(Error("cannot read TMO talkgroups", groups.cause)), tmo, dmo;
    }
    tmo := groups.value;
    err := radio.ATs([SetOperatingMode(DMO)]);
    if err.Some? {
      return Fatal(Error("cannot switch to DMO", err.value)), tmo, dmo;
    }
    groups := radio.Request(RequestTalkgroups(TalkgroupStatic), GroupsOf(radio.script.facts, TalkgroupStatic));
    if groups.Failure? {
      return Fatal(Error("cannot read DMO talkgroups", groups.cause)), tmo, dmo;
    }
    dmo := groups.value;
    if last != DMO {
      err := radio.ATs([SetOperatingMode(last)]);
      if err.Some? {
        return Fatal(Error("cannot switch to last mode", err.value)), tmo, dmo;
      }
    }
    outcome := Completed;
  }
}
