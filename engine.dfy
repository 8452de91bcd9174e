/** The "Destination Address" branch of send_notification: everything the
    PySNMP notification originator is handed (PDU kind, authentication,
    transport target, trap OID, varbinds, context). The send itself is not
    part of this model. */
module Engine {
  import opened SnmpTypes
  import opened Text
  import opened Rows
  import Destination

  datatype Pdu = Trap | Inform

  /** 'trap' for a type that mentions Trap, 'inform' for one that mentions
      Inform; every entry of the type combobox mentions exactly one. */
  function PduOf(t: NotificationType): (p: Pdu)
    ensures p == Inform <==> t.Kind() == "Inform"
  {
    if t.Mentions("Inform") then Inform else Trap
  }

  /** snmpTraps (RFC 3584 section 3.1): the prefix of the six generic trap OIDs. */
  const SnmpTrapsPrefix: string := "1.3.6.1.6.3.1.1.5."
  /** sysUpTime.0 */
  const SysUpTimeOid: string := "1.3.6.1.2.1.1.3.0"
  /** snmpTrapAddress.0 */
  const SnmpTrapAddressOid: string := "1.3.6.1.6.3.18.1.3.0"
  /** snmpTrapEnterprise.0 */
  const SnmpTrapEnterpriseOid: string := "1.3.6.1.6.3.1.1.4.3.0"

  /** What a varbind carries to the engine: a value of one of the table's
      types (Null carries no text), or a plain Python int or str as the
      SNMPv1 trailer uses. */
  datatype EngineValue = Typed(tag: OidType, text: string) | PlainInt(i: int) | PlainText(s: string)

  datatype Varbind = Varbind(oid: string, value: EngineValue)

  /** The notification OID sent and the enterprise OID kept for the trailer. */
  datatype TrapIdentity = TrapIdentity(trapOid: string, enterprise: string)

  /** SNMPv1 generic and specific types folded into one SNMPv2 trap OID
      (RFC 3584 section 3.1): snmpTraps.(generic + 1) for a generic trap,
      enterprise.0.specific for an enterprise-specific one. Other versions
      send the source OID as it is, with an empty enterprise. */
  function TrapIdentityOf(v: Notification): TrapIdentity {
    if v.kind == V1Trap then
      var enterprise := v.sourceOid;
      if v.generic < 6 then TrapIdentity(SnmpTrapsPrefix + Decimal(v.generic + 1), enterprise)
      else TrapIdentity(enterprise + ".0." + v.specific, enterprise)
    else TrapIdentity(v.sourceOid, "")
  }

  /** Reading a trap OID back the other way: one of the six snmpTraps OIDs
      gives the generic type it stands for. */
  function GenericOf(trapOid: string): Option<GenericTrap> {
    if |trapOid| == |SnmpTrapsPrefix| + 1 && trapOid[..|SnmpTrapsPrefix|] == SnmpTrapsPrefix
       && '1' <= trapOid[|SnmpTrapsPrefix|] <= '6'
    then Some(trapOid[|SnmpTrapsPrefix|] as int - '1' as int)
    else None
  }

  /** ...and an OID of the form enterprise.0.specific gives the specific type. */
  function SpecificOf(trapOid: string, enterprise: string): Option<string> {
    var head := enterprise + ".0.";
    if |head| <= |trapOid| && trapOid[..|head|] == head then Some(trapOid[|head|..]) else None
  }

  /** The translation loses nothing: a generic SNMPv1 trap's OID reads back
      as its generic type, and an enterprise-specific one's reads back as no
      generic type and as its specific type under its enterprise. */
  lemma {:induction false} V1TranslationReadsBack(v: Notification)
    requires v.kind == V1Trap
    ensures var id := TrapIdentityOf(v);
      && id.enterprise == v.sourceOid
      && (v.generic < 6 ==> GenericOf(id.trapOid) == Some(v.generic))
      && (v.generic == 6 ==>
            GenericOf(id.trapOid) == None && SpecificOf(id.trapOid, id.enterprise) == Some(v.specific))
  {
    var id := TrapIdentityOf(v);
    if v.generic < 6 {
      assert Decimal(v.generic + 1) == [('0' as int + v.generic + 1) as char];
      assert id.trapOid[..|SnmpTrapsPrefix|] == SnmpTrapsPrefix;
    } else {
      var head := v.sourceOid + ".0.";
      assert id.trapOid[..|head|] == head;
      assert id.trapOid[|head|..] == v.specific;
      assert id.trapOid[|v.sourceOid| + 1] == '0';
      assert forall i :: 0 <= i < |SnmpTrapsPrefix| ==> SnmpTrapsPrefix[i] != '0';
    }
  }

  /** The three varbinds an SNMPv1 trap carries after the user's (RFC 3584
      section 3.1): sysUpTime 0, the agent address and the enterprise OID. */
  function Trailer(t: NotificationType, agentAddress: string, enterprise: string): seq<Varbind> {
    if t.Mentions("SNMPv1") then
      [ Varbind(SysUpTimeOid, PlainInt(0)),
        Varbind(SnmpTrapAddressOid, PlainText(agentAddress)),
        Varbind(SnmpTrapEnterpriseOid, PlainText(enterprise)) ]
    else []
  }

  /** One table row converted for the engine: all three cells must hold an
      item, the stripped OID must be a dotted number (the empty OID passes),
      the type cell must name a table entry, and the stripped value must be
      accepted by that type's constructor (`parses`); Null takes no value.
      EngineRowChecks states what a converted row satisfies. */
  function EngineRow(row: Row, number: nat, parses: (OidType, string) -> bool): Result<Varbind> {
    if row.oid.None? || row.value.None? then Err(RowMissingValue(number))
    else
      var oid := Trim(row.oid.value);
      var typeText := Trim(row.typeText);
      var data := Trim(row.value.value);
      if !CharacterTest(oid, OidChars) then Err(RowOidNotDotted(number))
      else
        match TypeOfCell(typeText)
        case None => Err(RowTypeUnreadable(number))
        case Some(tag) =>
          if tag == NullObject then Ok(Varbind(oid, Typed(NullObject, "")))
          else if parses(tag, data) then Ok(Varbind(oid, Typed(tag, data)))
          else Err(RowValueInvalid(number))
  }

  /** A converted row keeps the row's stripped OID, which is all digits and
      dots, and the type its type cell names, with the stripped value unless
      the type is Null; a row that fails reports its own row number, and a
      value is refused only when its type's constructor refuses it. */
  lemma EngineRowChecks(row: Row, number: nat, parses: (OidType, string) -> bool)
    ensures var r := EngineRow(row, number, parses);
      && (r.Ok? ==>
            && row.oid.Some? && row.value.Some?
            && r.value.oid == Trim(row.oid.value)
            && (forall i :: 0 <= i < |r.value.oid| ==> r.value.oid[i] in OidChars)
            && r.value.value.Typed?
            && TypeOfCell(Trim(row.typeText)) == Some(r.value.value.tag)
            && (r.value.value.tag != NullObject ==>
                  r.value.value.text == Trim(row.value.value)
                  && parses(r.value.value.tag, r.value.value.text)))
      && (r.Err? ==>
            r.failure in {RowMissingValue(number), RowOidNotDotted(number),
                          RowTypeUnreadable(number), RowValueInvalid(number)})
      && (r == Err(RowValueInvalid(number)) ==>
            TypeOfCell(Trim(row.typeText)).Some? && TypeOfCell(Trim(row.typeText)).value != NullObject
            && !parses(TypeOfCell(Trim(row.typeText)).value, Trim(row.value.value)))
  {
  }

  /** A row is converted exactly when both cells hold an item, its stripped
      OID is digits and dots, its type cell names a table entry, and that
      type's constructor accepts the stripped value (Null takes none). */
  lemma EngineRowAcceptsExactly(row: Row, number: nat, parses: (OidType, string) -> bool)
    ensures EngineRow(row, number, parses).Ok? <==>
      && row.oid.Some? && row.value.Some?
      && CharacterTest(Trim(row.oid.value), OidChars)
      && TypeOfCell(Trim(row.typeText)).Some?
      && (TypeOfCell(Trim(row.typeText)).value == NullObject
          || parses(TypeOfCell(Trim(row.typeText)).value, Trim(row.value.value)))
  {
  }

  /** A bad row is reported by its first defect in the order the loop
      looks: a missing cell, then an OID that is not a dotted number, then
      a type cell int() or OID_TYPES cannot read, then a value the type's
      constructor refuses. */
  lemma EngineRowReportsFirstDefect(row: Row, number: nat, parses: (OidType, string) -> bool)
    ensures var r := EngineRow(row, number, parses);
      var cells := row.oid.Some? && row.value.Some?;
      && (r == Err(RowMissingValue(number)) <==> !cells)
      && (r == Err(RowOidNotDotted(number)) <==> cells && !CharacterTest(Trim(row.oid.value), OidChars))
      && (r == Err(RowTypeUnreadable(number)) <==>
            cells && CharacterTest(Trim(row.oid.value), OidChars) && TypeOfCell(Trim(row.typeText)).None?)
      && (r == Err(RowValueInvalid(number)) <==>
            && cells && CharacterTest(Trim(row.oid.value), OidChars)
            && TypeOfCell(Trim(row.typeText)).Some? && TypeOfCell(Trim(row.typeText)).value != NullObject
            && !parses(TypeOfCell(Trim(row.typeText)).value, Trim(row.value.value)))
  {
  }

  function EngineStep(parses: (OidType, string) -> bool): (Row, nat) -> Result<Varbind> {
    (row: Row, number: nat) => EngineRow(row, number, parses)
  }

  /** The first varbind loop of send_notification: rows are converted in
      table order and appended; the first bad row ends the loop. */
  method GatherVarbinds(rows: seq<Row>, parses: (OidType, string) -> bool) returns (r: Result<seq<Varbind>>)
    ensures r == Collect(rows, EngineStep(parses))
  {
    var step := EngineStep(parses);
    var varbinds: seq<Varbind> := [];
    for i := 0 to |rows|
      invariant Collect(rows[..i], step) == Ok(varbinds)
    {
      CollectStep(rows, i, step);
      var varbind := EngineRow(rows[i], i + 1, parses);
      assert step(rows[i], i + 1) == varbind;
      if varbind.Err? {
        CollectStaysFailed(rows, i + 1, step);
        return Err(varbind.failure);
      }
      varbinds := varbinds + [varbind.value];
    }
    assert rows[..|rows|] == rows;
    r := Ok(varbinds);
  }

  /** The authentication protocols as the engine names them. */
  datatype EngineAuthProtocol = HmacMd5 | HmacSha

  /** The privacy protocols as the engine names them: all five are available. */
  datatype EnginePrivProtocol = Des | TripleDesEde | AesCfb128 | AesCfb192 | AesCfb256

  function EngineAuthProtocolOf(p: AuthProtocol): Option<EngineAuthProtocol> {
    match p
    case AuthNone => None
    case MD5 => Some(HmacMd5)
    case SHA1 => Some(HmacSha)
  }

  function EnginePrivProtocolOf(p: PrivProtocol): Option<EnginePrivProtocol> {
    match p
    case PrivNone => None
    case DES => Some(Des)
    case TripleDES => Some(TripleDesEde)
    case AES128 => Some(AesCfb128)
    case AES192 => Some(AesCfb192)
    case AES256 => Some(AesCfb256)
  }

  /** The authentication object handed to the engine: community data with
      its message-processing model (0 for SNMPv1, 1 for SNMPv2c), or a USM
      user with as many keys as its security level needs. */
  datatype Authentication =
    | CommunityData(community: string, mpModel: nat)
    | UsmUser(userName: string)
    | UsmUserAuth(userName: string, authKey: string, authProtocol: EngineAuthProtocol)
    | UsmUserAuthPriv(userName: string, authKey: string, privKey: string,
                      authProtocol: EngineAuthProtocol, privProtocol: EnginePrivProtocol)
  {
    function Level(): SecurityLevel
      requires !CommunityData?
    {
      match this
      case UsmUser(_) => NoAuthNoPriv
      case UsmUserAuth(_, _, _) => AuthNoPriv
      case UsmUserAuthPriv(_, _, _, _, _) => AuthPriv
    }
  }

  /** The USM user built for an SNMPv3 notification. */
  function UsmUserOf(v: Notification): Authentication {
    if v.authProtocol == AuthNone then UsmUser(v.securityName)
    else if v.privProtocol == PrivNone then
      UsmUserAuth(v.securityName, v.authKey, EngineAuthProtocolOf(v.authProtocol).value)
    else
      UsmUserAuthPriv(v.securityName, v.authKey, v.privKey,
                      EngineAuthProtocolOf(v.authProtocol).value, EnginePrivProtocolOf(v.privProtocol).value)
  }

  /** The USM user runs at the RFC 3411 level the protocols ask for, under
      the form's security name, and carries the engine's own name of every
      protocol it uses; privacy is dropped, key and all, when there is no
      authentication, and every one of the five privacy protocols is
      passed on. */
  lemma UsmUserMatchesLevel(v: Notification)
    ensures var a := UsmUserOf(v);
      && !a.CommunityData? && a.userName == v.securityName
      && a.Level() == LevelFor(v.authProtocol, v.privProtocol)
      && (a.Level() != NoAuthNoPriv ==>
            a.authKey == v.authKey && EngineAuthProtocolOf(v.authProtocol) == Some(a.authProtocol))
      && (a.Level() == AuthPriv ==>
            a.privKey == v.privKey && EnginePrivProtocolOf(v.privProtocol) == Some(a.privProtocol))
  {
  }

  /** The engine's privacy names are distinct: the user carries the very
      protocol selected. */
  lemma EnginePrivProtocolsDistinct(p: PrivProtocol, q: PrivProtocol)
    requires p != q && p != PrivNone && q != PrivNone
    ensures EnginePrivProtocolOf(p).Some? && EnginePrivProtocolOf(p) != EnginePrivProtocolOf(q)
  {
  }

  /** The authentication as the source computes it. Its first test,
      `('SNMPv1' or 'SNMPv2c') in notification_type`, evaluates the `or`
      first and so only asks for 'SNMPv1'; an SNMPv2c notification gets no
      authentication (None: the name stays unbound and the send raises). */
  function EngineAuthAsWritten(v: Notification): Option<Authentication> {
    var mpModel := if v.kind == V1Trap then 0 else 1;
    var community :=
      if v.kind.Mentions(PyOr("SNMPv1", "SNMPv2c")) then Some(CommunityData(v.community, mpModel))
      else None;
    if v.kind.Mentions("SNMPv3") then Some(UsmUserOf(v)) else community
  }

  /** As written, exactly the two SNMPv2c types are left without an
      authentication on the engine path. */
  lemma AsWrittenLeavesV2cUnauthenticated(v: Notification)
    ensures EngineAuthAsWritten(v).None? <==> v.kind == V2cTrap || v.kind == V2cInform
  {
    assert PyOr("SNMPv1", "SNMPv2c") == "SNMPv1";
    assert "SNMPv1" != "SNMPv2c" && "SNMPv1" != "SNMPv3";
  }

  /** The authentication as evidently intended: community data for SNMPv1
      and SNMPv2c, the USM user for SNMPv3. */
  function EngineAuth(v: Notification): Authentication {
    if v.kind.Mentions("SNMPv3") then UsmUserOf(v)
    else CommunityData(v.community, if v.kind == V1Trap then 0 else 1)
  }

  /** Every notification type gets an authentication of its own security
      model (community for SNMPv1/v2c with the matching message-processing
      model, USM for SNMPv3), and it agrees with the source wherever the
      source binds one. */
  lemma EngineAuthCoversEveryType(v: Notification)
    ensures var a := EngineAuth(v);
      && (a.CommunityData? <==> v.kind.Family() != "SNMPv3")
      && (a.CommunityData? ==> a.community == v.community
                               && a.mpModel == (if v.kind.Family() == "SNMPv1" then 0 else 1))
      && (EngineAuthAsWritten(v).Some? ==> EngineAuthAsWritten(v) == Some(a))
  {
    assert PyOr("SNMPv1", "SNMPv2c") == "SNMPv1";
    assert "SNMPv1" != "SNMPv2c" && "SNMPv1" != "SNMPv3" && "SNMPv2c" != "SNMPv3";
  }

  /** What the source hands the notification originator. */
  datatype Request = Request(
    auth: Authentication,
    target: Destination.Endpoint,
    pdu: Pdu,
    trapOid: string,
    varbinds: seq<Varbind>,
    context: Option<string>)

  /** The engine request for a validated notification, its parsed
      destination and the resolved agent address. A custom context is
      registered only for SNMPv3 with a non-empty context name. */
  function EngineRequest(v: Notification, target: Destination.Endpoint, agentAddress: string,
                         parses: (OidType, string) -> bool): Result<Request>
  {
    var id := TrapIdentityOf(v);
    match Collect(v.rows, EngineStep(parses))
    case Err(f) => Err(f)
    case Ok(varbinds) =>
      Ok(Request(EngineAuth(v), target, PduOf(v.kind), id.trapOid,
                 varbinds + Trailer(v.kind, agentAddress, id.enterprise),
                 if v.context != "" && v.kind.Mentions("SNMPv3") then Some(v.context) else None))
  }

  /** How the request is assembled: the table walk's failure, or the walked
      rows followed by the trailer. */
  lemma EngineRequestUnfolds(v: Notification, target: Destination.Endpoint, agentAddress: string,
                              parses: (OidType, string) -> bool)
    ensures var c := Collect(v.rows, EngineStep(parses));
      && (c.Err? ==> EngineRequest(v, target, agentAddress, parses) == Err(c.failure))
      && (c.Ok? ==>
            && EngineRequest(v, target, agentAddress, parses).Ok?
            && EngineRequest(v, target, agentAddress, parses).value.varbinds
               == c.value + Trailer(v.kind, agentAddress, TrapIdentityOf(v).enterprise))
  {
  }

  /** The request's varbinds are the table's rows, converted in order, and
      for SNMPv1 exactly the three trailer varbinds after them, carrying
      the resolved agent address and the enterprise OID. */
  lemma EngineRequestVarbinds(v: Notification, target: Destination.Endpoint, agentAddress: string,
                              parses: (OidType, string) -> bool)
    requires EngineRequest(v, target, agentAddress, parses).Ok?
    ensures var req := EngineRequest(v, target, agentAddress, parses).value;
      && |req.varbinds| == |v.rows| + (if v.kind == V1Trap then 3 else 0)
      && (forall k :: 0 <= k < |v.rows| ==> EngineRow(v.rows[k], k + 1, parses) == Ok(req.varbinds[k]))
      && (v.kind == V1Trap ==>
            req.varbinds[|v.rows|..] ==
              [ Varbind(SysUpTimeOid, PlainInt(0)),
                Varbind(SnmpTrapAddressOid, PlainText(agentAddress)),
                Varbind(SnmpTrapEnterpriseOid, PlainText(v.sourceOid)) ])
  {
    var step := EngineStep(parses);
    EngineRequestUnfolds(v, target, agentAddress, parses);
    CollectSucceeds(v.rows, step);
    var req := EngineRequest(v, target, agentAddress, parses).value;
    forall k | 0 <= k < |v.rows|
      ensures EngineRow(v.rows[k], k + 1, parses) == Ok(req.varbinds[k])
    {
      assert step(v.rows[k], k + 1) == EngineRow(v.rows[k], k + 1, parses);
    }
  }

  /** A bad row stops the engine path with the failure of the first bad
      row, numbered from 1. */
  lemma EngineRequestFirstBadRow(v: Notification, target: Destination.Endpoint, agentAddress: string,
                                 parses: (OidType, string) -> bool)
    requires EngineRequest(v, target, agentAddress, parses).Err?
    ensures exists k :: && 0 <= k < |v.rows|
                        && EngineRow(v.rows[k], k + 1, parses) == Err(EngineRequest(v, target, agentAddress, parses).failure)
                        && (forall j :: 0 <= j < k ==> EngineRow(v.rows[j], j + 1, parses).Ok?)
  {
    var step := EngineStep(parses);
    var c := Collect(v.rows, step);
    EngineRequestUnfolds(v, target, agentAddress, parses);
    var k := FirstBadRow(v.rows, step);
    EngineStepApplies(parses);
    assert EngineRow(v.rows[k], k + 1, parses) == Err(EngineRequest(v, target, agentAddress, parses).failure);
  }

  /** The engine's step is the row conversion. */
  lemma EngineStepApplies(parses: (OidType, string) -> bool)
    ensures forall row, number :: EngineStep(parses)(row, number) == EngineRow(row, number, parses)
  {
  }
}
