/** send_notification from the form to what it hands on: the engine
    request for "Destination Address", or the snmptrap command line for the
    other targets. Name resolution, the value constructors of the engine's
    types and the window search are parameters (Env). */
module Send {
  import opened SnmpTypes
  import opened Text
  import opened Rows
  import opened Validation
  import opened Destination
  import Engine
  import Snmptrap

  /** What send_notification asks of its surroundings: gethostbyname (None
      when it raises), whether a value is accepted by the engine's
      constructor for a type, whether a terminal window with the given
      title is available, and the configured paths of snmptrap.exe and the
      MIB directory. */
  datatype Env = Env(
    resolve: string -> Option<string>,
    parses: (OidType, string) -> bool,
    windowAvailable: string -> bool,
    snmptrapPath: string,
    mibsPath: string)

  /** How a send attempt ends: refused with a failure, an engine request
      handed to the notification originator, or a command line for the
      chosen snmptrap target. */
  datatype Outcome =
    | Rejected(failure: Failure)
    | EngineSend(request: Engine.Request)
    | Command(target: SendTarget, line: string)

  /** The text put in front of the options: the snmptrap program name, or
      for the local executable its quoted path, -Lo, all MIBs and the
      quoted MIB directory. */
  function CommandPrefix(target: SendTarget, env: Env): string {
    if target == LocalExecutable
    then Snmptrap.Quoted(env.snmptrapPath) + " -Lo -m ALL -M " + Snmptrap.Quoted(env.mibsPath) + " "
    else "snmptrap "
  }

  /** The window title a terminal target copies the command into. */
  function WindowOf(target: SendTarget): Option<string> {
    match target
    case SecureCRT => Some("SecureCRT")
    case PuTTY => Some("PuTTY")
    case _ => None
  }

  /** The snmptrap branch: options first (an unsupported privacy protocol
      stops here), then the varbind words, then the target's own check. */
  function CliCommand(v: Notification, agentAddress: string, env: Env): Outcome
    requires v.sendTo != DestinationAddress
  {
    match Snmptrap.Options(v, agentAddress)
    case Err(f) => Rejected(f)
    case Ok(options) =>
      match Snmptrap.VarbindString(v.rows)
      case Err(f) => Rejected(f)
      case Ok(varbinds) =>
        if WindowOf(v.sendTo).Some? && !env.windowAvailable(WindowOf(v.sendTo).value)
        then Rejected(WindowUnavailable(WindowOf(v.sendTo).value))
        else Command(v.sendTo, CommandPrefix(v.sendTo, env) + options + " " + varbinds)
  }

  /** send_notification: validation, the destination split, resolution of
      the destination host and of the agent address, then the chosen
      target. The engine is given the destination as typed; the resolved
      agent address goes into the SNMPv1 trailer and options. */
  function Send(n: Notification, env: Env): Outcome {
    match Validate(n)
    case Err(f) => Rejected(f)
    case Ok(v) =>
      match ParseDestination(v.destination)
      case Err(f) => Rejected(f)
      case Ok(endpoint) =>
        if env.resolve(endpoint.host).None? then Rejected(DestinationUnresolvable)
        else
          match env.resolve(v.agent)
          case None => Rejected(AgentUnresolvable)
          case Some(agentAddress) =>
            if v.sendTo == DestinationAddress then
              match Engine.EngineRequest(v, endpoint, agentAddress, env.parses)
              case Err(f) => Rejected(f)
              case Ok(request) => EngineSend(request)
            else CliCommand(v, agentAddress, env)
  }

  /** send_notification as the code is written. It differs from Send only
      where the code reads a name it never bound: an SNMPv2c engine send
      has no `authentication` (misnertraptool.py:684) and an SNMPv3
      snmptrap send with no authentication but a privacy protocol has no
      `options` (misnertraptool.py:807-825). Both names are first read
      after every check Send makes (the row walk, the trailer, the window
      search), so the code raises exactly where Send hands on its result. */
  function SendAsWritten(n: Notification, env: Env): Outcome {
    match Send(n, env)
    case Rejected(f) => Rejected(f)
    case EngineSend(request) =>
      if Engine.EngineAuthAsWritten(n).None? then Rejected(Unbound("authentication"))
      else EngineSend(request)
    case Command(target, line) =>
      if n.kind.Mentions("SNMPv3") && Snmptrap.V3LevelAsWritten(n.authProtocol, n.privProtocol).None?
      then Rejected(Unbound("options"))
      else Command(target, line)
  }

  /** The code as written and Send agree on every form except the two
      that read an unbound name: a valid SNMPv2c form sent to Destination
      Address, and a valid SNMPv3 form with no authentication but a privacy
      protocol sent to a snmptrap target. There the code raises instead. */
  lemma SendAsWrittenDiffersOnlyOnUnbound(n: Notification, env: Env)
    ensures var o, p := SendAsWritten(n, env), Send(n, env);
      && (p.EngineSend? && n.kind.Family() == "SNMPv2c" ==> o == Rejected(Unbound("authentication")))
      && ((p.Command? && n.kind.Family() == "SNMPv3" && n.authProtocol == AuthNone && n.privProtocol != PrivNone)
            ==> o == Rejected(Unbound("options")))
      && (o != p <==>
            || (p.EngineSend? && n.kind.Family() == "SNMPv2c")
            || (p.Command? && n.kind.Family() == "SNMPv3" && n.authProtocol == AuthNone && n.privProtocol != PrivNone))
  {
    Engine.AsWrittenLeavesV2cUnauthenticated(n);
    Snmptrap.AsWrittenLeavesOptionsUnbound(n.authProtocol, n.privProtocol);
    assert "SNMPv3" != "SNMPv1" && "SNMPv3" != "SNMPv2c" && "SNMPv3" != "Trap" && "SNMPv3" != "Inform";
  }

  /** Send never stops on an unbound name: every refusal is a failed
      field check, a bad destination, a host that does not resolve, a bad
      row, a privacy protocol snmptrap lacks or a missing window. */
  lemma SendBindsEveryName(n: Notification, env: Env)
    ensures Send(n, env).Rejected? ==> !Send(n, env).failure.Unbound?
  {
    if Validate(n).Err? {
      ValidateFailedCheck(n);
    } else {
      var v := Validate(n).value;
      var d := ParseDestination(v.destination);
      if d.Ok? && env.resolve(d.value.host).Some? && env.resolve(v.agent).Some? {
        var agentAddress := env.resolve(v.agent).value;
        assert v.agent == n.agent;
        SendReachesTarget(n, env, d.value, agentAddress);
        if v.sendTo == DestinationAddress {
          EngineRefusalIsRowFailure(v, d.value, agentAddress, env.parses);
        } else {
          CliRefusalIsNotUnbound(v, agentAddress, env);
        }
      }
    }
  }

  /** The engine branch refuses only with a bad row's failure. */
  lemma EngineRefusalIsRowFailure(v: Notification, target: Endpoint, agentAddress: string,
                                  parses: (OidType, string) -> bool)
    ensures Engine.EngineRequest(v, target, agentAddress, parses).Err? ==>
      !Engine.EngineRequest(v, target, agentAddress, parses).failure.Unbound?
  {
    var step := Engine.EngineStep(parses);
    Engine.EngineRequestUnfolds(v, target, agentAddress, parses);
    if Collect(v.rows, step).Err? {
      var k := FirstBadRow(v.rows, step);
      Engine.EngineStepApplies(parses);
      Engine.EngineRowChecks(v.rows[k], k + 1, parses);
    }
  }

  /** The snmptrap branch refuses only with an unsupported privacy
      protocol, a bad row's failure or a missing window. */
  lemma CliRefusalIsNotUnbound(v: Notification, agentAddress: string, env: Env)
    requires v.sendTo != DestinationAddress
    ensures CliCommand(v, agentAddress, env).Rejected? ==> !CliCommand(v, agentAddress, env).failure.Unbound?
  {
    Snmptrap.CliRejectsOnlyUnsupportedPriv(v, agentAddress);
    if Collect(v.rows, Snmptrap.CliStep()).Err? {
      var k := FirstBadRow(v.rows, Snmptrap.CliStep());
      Snmptrap.CliTokenReadsBack(v.rows[k], k + 1);
    }
  }

  /** A form that passes validation, whose destination parses and whose
      two hosts resolve, goes to its target with the validated form. */
  lemma SendReachesTarget(n: Notification, env: Env, endpoint: Endpoint, agentAddress: string)
    requires Validate(n).Ok?
    requires ParseDestination(Validate(n).value.destination) == Ok(endpoint)
    requires env.resolve(endpoint.host).Some?
    requires env.resolve(n.agent) == Some(agentAddress)
    ensures var v := Validate(n).value;
      && (v.sendTo == DestinationAddress ==>
            Send(n, env) == match Engine.EngineRequest(v, endpoint, agentAddress, env.parses)
                            case Err(f) => Rejected(f)
                            case Ok(request) => EngineSend(request))
      && (v.sendTo != DestinationAddress ==> Send(n, env) == CliCommand(v, agentAddress, env))
  {
  }

  /** A form that fails validation is refused with the failure of the
      first check it fails, before anything else is looked at. */
  lemma SendValidatesFirst(n: Notification, env: Env)
    requires exists k :: 1 <= k <= 9 && !Passes(n, k)
    ensures Send(n, env).Rejected?
    ensures var k := CheckNumber(Send(n, env).failure);
      1 <= k <= 9 && !Passes(n, k) && forall j :: 1 <= j < k ==> Passes(n, j)
  {
    ValidateAcceptsExactly(n);
    ValidateReportsFirstFailure(n);
  }

  /** What reaches the notification originator: a form that passed all
      nine checks, sent to the destination as typed (the port defaulting
      to 162) whose host resolves, with the PDU its type names, the
      security model of its version, the rows in order, and for SNMPv1 the
      RFC 3584 trap OID (a generic type read back from it, or the
      specific type under the enterprise) and the three trailer varbinds:
      sysUpTime 0, the resolved agent address and the enterprise. */
  lemma EngineSendCarriesForm(n: Notification, env: Env)
    requires Send(n, env).EngineSend?
    ensures n.sendTo == DestinationAddress
    ensures forall k :: 1 <= k <= 9 ==> Passes(n, k)
    ensures var req := Send(n, env).request;
      && ParseDestination(n.destination) == Ok(req.target)
      && env.resolve(req.target.host).Some? && env.resolve(n.agent).Some?
      && (req.pdu == Engine.Inform <==> n.kind.Kind() == "Inform")
      && (req.auth.CommunityData? <==> n.kind.Family() != "SNMPv3")
      && |req.varbinds| == |n.rows| + (if n.kind == V1Trap then 3 else 0)
      && (forall k :: 0 <= k < |n.rows| ==> Engine.EngineRow(n.rows[k], k + 1, env.parses) == Ok(req.varbinds[k]))
      && (n.kind == V1Trap ==>
            && Engine.GenericOf(req.trapOid) == (if n.generic < 6 then Some(n.generic) else None)
            && (n.generic == 6 ==>
                  Engine.SpecificOf(req.trapOid, EffectiveSourceOid(n)) == Some(EffectiveSpecific(n)))
            && req.varbinds[|n.rows|..] ==
                 [ Engine.Varbind(Engine.SysUpTimeOid, Engine.PlainInt(0)),
                   Engine.Varbind(Engine.SnmpTrapAddressOid, Engine.PlainText(env.resolve(n.agent).value)),
                   Engine.Varbind(Engine.SnmpTrapEnterpriseOid, Engine.PlainText(EffectiveSourceOid(n))) ])
      && (n.kind != V1Trap ==> req.trapOid == n.sourceOid)
  {
    ValidateAcceptsExactly(n);
    EngineSendIsRequest(n, env);
    var v := Validate(n).value;
    var endpoint := ParseDestination(v.destination).value;
    var agentAddress := env.resolve(v.agent).value;
    Engine.EngineRequestVarbinds(v, endpoint, agentAddress, env.parses);
    Engine.EngineAuthCoversEveryType(v);
    if v.kind == V1Trap {
      Engine.V1TranslationReadsBack(v);
    }
  }

  /** An engine send hands on the request built from the validated form,
      its parsed destination and the resolved agent address. */
  lemma EngineSendIsRequest(n: Notification, env: Env)
    requires Send(n, env).EngineSend?
    ensures Validate(n).Ok? && Validate(n).value.sendTo == DestinationAddress
    ensures ParseDestination(Validate(n).value.destination).Ok?
    ensures env.resolve(ParseDestination(Validate(n).value.destination).value.host).Some?
    ensures env.resolve(n.agent).Some?
    ensures Engine.EngineRequest(Validate(n).value, ParseDestination(Validate(n).value.destination).value,
                                 env.resolve(n.agent).value, env.parses)
            == Ok(Send(n, env).request)
  {
    assert Validate(n).Ok?;
    var v := Validate(n).value;
    assert v.agent == n.agent;
    assert ParseDestination(v.destination).Ok?;
    assert env.resolve(v.agent).Some?;
    assert v.sendTo == DestinationAddress;
  }

  /** What a snmptrap target receives: a form that passed all nine checks
      whose destination splits and resolves, and the command line made of
      the target's prefix, the options and the varbind words; a terminal
      target only when its window is available. */
  lemma CommandCarriesForm(n: Notification, env: Env)
    requires Send(n, env).Command?
    ensures forall k :: 1 <= k <= 9 ==> Passes(n, k)
    ensures ParseDestination(n.destination).Ok?
    ensures var c := Send(n, env);
      var v := Validate(n).value;
      var agentAddress := env.resolve(n.agent).value;
      && c.target == n.sendTo && c.target != DestinationAddress
      && env.resolve(n.agent).Some?
      && Snmptrap.Options(v, agentAddress).Ok?
      && Snmptrap.VarbindString(n.rows).Ok?
      && c.line == CommandPrefix(c.target, env) + Snmptrap.Options(v, agentAddress).value
                   + " " + Snmptrap.VarbindString(n.rows).value
      && (WindowOf(c.target).Some? ==> env.windowAvailable(WindowOf(c.target).value))
  {
    ValidateAcceptsExactly(n);
    CommandIsCliCommand(n, env);
    assert Validate(n).value.rows == n.rows;
  }

  /** A command comes from the snmptrap branch run on the validated form
      and the resolved agent address. */
  lemma CommandIsCliCommand(n: Notification, env: Env)
    requires Send(n, env).Command?
    ensures Validate(n).Ok? && Validate(n).value.sendTo != DestinationAddress
    ensures ParseDestination(Validate(n).value.destination).Ok?
    ensures env.resolve(n.agent).Some?
    ensures Send(n, env) == CliCommand(Validate(n).value, env.resolve(n.agent).value, env)
  {
  }

  /** Whenever the engine target would send a form, the Output Only and
      Local Executable targets produce a command for it too, unless it is
      SNMPv3 with authentication and a privacy protocol snmptrap lacks. */
  lemma CliAcceptsWhatEngineAccepts(n: Notification, env: Env, target: SendTarget)
    requires target == OutputOnly || target == LocalExecutable
    requires Send(n.(sendTo := DestinationAddress), env).EngineSend?
    requires !(n.kind.Family() == "SNMPv3" && n.authProtocol != AuthNone
               && n.privProtocol in {TripleDES, AES192, AES256})
    ensures Send(n.(sendTo := target), env).Command?
  {
    var e := n.(sendTo := DestinationAddress);
    ValidateIgnoresTarget(e, target);
    assert e.(sendTo := target) == n.(sendTo := target);
    var ve := Validate(e).value;
    var v := ve.(sendTo := target);
    var endpoint := ParseDestination(v.destination).value;
    var agentAddress := env.resolve(v.agent).value;
    Engine.EngineRequestUnfolds(ve, endpoint, agentAddress, env.parses);
    Snmptrap.EngineAcceptedTableIsCliAccepted(v.rows, env.parses);
    Snmptrap.CliRejectsOnlyUnsupportedPriv(v, agentAddress);
    assert CliCommand(v, agentAddress, env).Command?;
  }

  /** Validation does not look at the target. */
  lemma ValidateIgnoresTarget(n: Notification, target: SendTarget)
    ensures Validate(n.(sendTo := target)).Ok? <==> Validate(n).Ok?
    ensures Validate(n).Ok? ==> Validate(n.(sendTo := target)).value == Validate(n).value.(sendTo := target)
  {
  }

  /** An SNMPv1 enterprise-specific trap (generic type 6, specific type 1)
      with one String varbind. */
  function ExampleV1Form(target: SendTarget): Notification {
    Notification(V1Trap, "public", "10.0.0.1", "10.0.0.2:162", "1.3.6.1.4.1.3.1.1", 6, "1",
                 "", "", AuthNone, "", PrivNone, "",
                 [Row(Some("1.3.6.1.2.1.1.5.0"), "3", Some("host1"))], target)
  }

  /** Its enterprise and its row's OID are dotted numbers. */
  lemma ExampleV1OidsDotted()
    ensures CharacterTest("1.3.6.1.4.1.3.1.1", OidChars)
    ensures CharacterTest("1.3.6.1.2.1.1.5.0", OidChars)
  {
    assert forall c :: c in "1.3.6.1.4.1.3.1.1" ==> c in OidChars;
    assert forall c :: c in "1.3.6.1.2.1.1.5.0" ==> c in OidChars;
  }

  /** The example passes validation unchanged. */
  lemma ExampleV1Valid(target: SendTarget)
    ensures Validate(ExampleV1Form(target)) == Ok(ExampleV1Form(target))
  {
    var n := ExampleV1Form(target);
    ExampleV1OidsDotted();
    assert n.sourceOid == "1.3.6.1.4.1.3.1.1" && n.specific == "1";
    assert IsDigits(n.specific);
    assert !V1Trap.Mentions("SNMPv3") && V1Trap.Mentions("SNMPv1");
    assert EffectiveSourceOid(n) == n.sourceOid;
    assert Passes(n, 1) && Passes(n, 2) && Passes(n, 3) && Passes(n, 4);
    assert Passes(n, 5);
    assert Passes(n, 6) && Passes(n, 7) && Passes(n, 8) && Passes(n, 9);
    ValidateAcceptsExactly(n);
    assert n.(sourceOid := n.sourceOid, specific := n.specific) == n;
  }

  /** Its destination names the host and the default port explicitly. */
  lemma ExampleV1Destination()
    ensures ParseDestination("10.0.0.2:162") == Ok(Endpoint("10.0.0.2", "162", 162))
  {
    assert DigitsValue(DefaultPort) == 162 by {
      assert ParseDestination("10.0.0.2") == Ok(Endpoint("10.0.0.2", DefaultPort, 162));
    }
    ParseFormatRoundTrip("10.0.0.2", "162");
    assert "10.0.0.2" + ":" + "162" == "10.0.0.2:162";
  }

  /** Its one row's type cell names String. */
  lemma ExampleV1RowType()
    ensures TypeOfCell(Trim(ExampleV1Form(OutputOnly).rows[0].typeText)) == Some(OctetString)
  {
    TrimUntouched("3");
    TypeOfCellReadsEditorIndex(3);
    assert Decimal(3) == "3";
  }

  /** Its one row is a String varbind on the engine path... */
  lemma ExampleV1EngineRow(parses: (OidType, string) -> bool)
    requires parses(OctetString, "host1")
    ensures Engine.EngineRow(ExampleV1Form(OutputOnly).rows[0], 1, parses)
            == Ok(Engine.Varbind("1.3.6.1.2.1.1.5.0", Engine.Typed(OctetString, "host1")))
  {
    var row := ExampleV1Form(OutputOnly).rows[0];
    ExampleV1RowType();
    TrimUntouched("1.3.6.1.2.1.1.5.0");
    TrimUntouched("host1");
    ExampleV1OidsDotted();
    Engine.EngineRowAcceptsExactly(row, 1, parses);
    Engine.EngineRowChecks(row, 1, parses);
  }

  /** ...and the word 'oid s "host1"' on the snmptrap path. */
  lemma ExampleV1CliToken()
    ensures Snmptrap.CliToken(ExampleV1Form(OutputOnly).rows[0], 1) == Ok("1.3.6.1.2.1.1.5.0 s \"host1\"")
  {
    ExampleV1RowType();
    TrimUntouched("1.3.6.1.2.1.1.5.0");
    TrimUntouched("host1");
    assert ' ' !in "1.3.6.1.2.1.1.5.0";
    assert OctetString.Letter() == 's';
    assert "1.3.6.1.2.1.1.5.0" + " " + ['s'] + " " + Snmptrap.Quoted("host1") == "1.3.6.1.2.1.1.5.0 s \"host1\"";
  }

  /** The example's snmptrap options: the enterprise, the resolved agent
      address, then the generic and specific types as separate words. */
  lemma ExampleV1Options()
    ensures Snmptrap.OptionWords(ExampleV1Form(OutputOnly), "10.0.0.1")
            == Ok(["-v", "1", "-c", "public", "10.0.0.2:162", "1.3.6.1.4.1.3.1.1", "10.0.0.1", "6", "1", "0"])
  {
    assert Decimal(6) == "6";
  }

  /** Its trap OID on the engine path is enterprise.0.specific. */
  lemma ExampleV1TrapOid()
    ensures Engine.TrapIdentityOf(ExampleV1Form(DestinationAddress))
            == Engine.TrapIdentity("1.3.6.1.4.1.3.1.1.0.1", "1.3.6.1.4.1.3.1.1")
  {
    assert "1.3.6.1.4.1.3.1.1" + ".0." + "1" == "1.3.6.1.4.1.3.1.1.0.1";
  }

  /** The example's row followed by the SNMPv1 trailer for its agent
      address and enterprise. */
  lemma ExampleV1Varbinds(row: Engine.Varbind)
    ensures [row] + Engine.Trailer(V1Trap, "10.0.0.1", "1.3.6.1.4.1.3.1.1") ==
      [ row,
        Engine.Varbind(Engine.SysUpTimeOid, Engine.PlainInt(0)),
        Engine.Varbind(Engine.SnmpTrapAddressOid, Engine.PlainText("10.0.0.1")),
        Engine.Varbind(Engine.SnmpTrapEnterpriseOid, Engine.PlainText("1.3.6.1.4.1.3.1.1")) ]
  {
    assert V1Trap.Mentions("SNMPv1");
  }

  /** The engine request built from the example: the trap OID
      enterprise.0.specific, its row, and the three SNMPv1 trailer varbinds. */
  lemma ExampleV1Request(parses: (OidType, string) -> bool)
    requires parses(OctetString, "host1")
    ensures Engine.EngineRequest(ExampleV1Form(DestinationAddress), Endpoint("10.0.0.2", "162", 162),
                                 "10.0.0.1", parses) ==
      Ok(Engine.Request(
        Engine.CommunityData("public", 0), Endpoint("10.0.0.2", "162", 162), Engine.Trap,
        "1.3.6.1.4.1.3.1.1.0.1",
        [ Engine.Varbind("1.3.6.1.2.1.1.5.0", Engine.Typed(OctetString, "host1")),
          Engine.Varbind(Engine.SysUpTimeOid, Engine.PlainInt(0)),
          Engine.Varbind(Engine.SnmpTrapAddressOid, Engine.PlainText("10.0.0.1")),
          Engine.Varbind(Engine.SnmpTrapEnterpriseOid, Engine.PlainText("1.3.6.1.4.1.3.1.1")) ],
        None))
  {
    var n := ExampleV1Form(DestinationAddress);
    ExampleV1EngineRow(parses);
    ExampleV1TrapOid();
    assert n.rows[0] == ExampleV1Form(OutputOnly).rows[0];
    var step := Engine.EngineStep(parses);
    CollectSingle(n.rows[0], step);
    assert n.rows == [n.rows[0]];
    assert step(n.rows[0], 1) == Engine.EngineRow(n.rows[0], 1, parses);
    var row := Engine.Varbind("1.3.6.1.2.1.1.5.0", Engine.Typed(OctetString, "host1"));
    assert Collect(n.rows, step) == Ok([row]);
    assert Engine.EngineAuth(n) == Engine.CommunityData("public", 0);
    assert Engine.PduOf(n.kind) == Engine.Trap;
    ExampleV1Varbinds(row);
  }

  /** The snmptrap varbind string of the example: its one row's word. */
  lemma ExampleV1VarbindString()
    ensures Snmptrap.VarbindString(ExampleV1Form(OutputOnly).rows) == Ok("1.3.6.1.2.1.1.5.0 s \"host1\"")
  {
    var n := ExampleV1Form(OutputOnly);
    ExampleV1CliToken();
    var step := Snmptrap.CliStep();
    CollectSingle(n.rows[0], step);
    assert n.rows == [n.rows[0]];
    assert step(n.rows[0], 1) == Snmptrap.CliToken(n.rows[0], 1);
  }

  /** On the snmptrap path the example keeps the enterprise and passes the
      generic and specific types as separate arguments: the line is
      "snmptrap", the options joined by spaces, and the row's word. */
  lemma ExampleV1Command(env: Env)
    ensures CliCommand(ExampleV1Form(OutputOnly), "10.0.0.1", env) ==
      Command(OutputOnly,
              "snmptrap "
              + Join(["-v", "1", "-c", "public", "10.0.0.2:162", "1.3.6.1.4.1.3.1.1", "10.0.0.1", "6", "1", "0"], " ")
              + " " + "1.3.6.1.2.1.1.5.0 s \"host1\"")
  {
    ExampleV1Options();
    ExampleV1VarbindString();
    assert CommandPrefix(OutputOnly, env) == "snmptrap ";
    assert WindowOf(OutputOnly).None?;
  }
}
