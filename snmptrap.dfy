/** The snmptrap branches of send_notification: the options handed to
    Net-SNMP's snmptrap and the varbind words that follow them. Each
    options format string of the source puts single spaces between its
    fields, so the options are modelled as the list of those fields
    (OptionWords) joined with spaces (Options). */
module Snmptrap {
  import opened SnmpTypes
  import opened Text
  import opened Rows
  import Engine

  /** The flag that makes snmptrap send an InformRequest; an SNMPv1 trap
      never carries it. */
  function PduWords(t: NotificationType): (w: seq<string>)
    ensures w == ["-Ci"] <==> Engine.PduOf(t) == Engine.Inform
    ensures w == [] <==> Engine.PduOf(t) == Engine.Trap
  {
    if t.Mentions("Inform") then ["-Ci"] else []
  }

  /** snmptrap's -a names: SHA-1 is called SHA. */
  function CliAuthName(p: AuthProtocol): string {
    if p == SHA1 then "SHA" else p.Name()
  }

  /** snmptrap's -x names: AES-128 is called AES. */
  function CliPrivName(p: PrivProtocol): string {
    if p == AES128 then "AES" else p.Name()
  }

  /** Privacy protocols snmptrap does not offer, by their (renamed) names. */
  const UnsupportedPriv: set<string> := {"3DES", "AES-192", "AES-256"}

  /** '"%s"' % s */
  function Quoted(s: string): string {
    "\"" + s + "\""
  }

  /** The -l level as the source chooses it: its three tests cover
      (None, None), (set, None) and (set, set); with no authentication but
      a privacy protocol none of them holds and `options` is never bound. */
  function V3LevelAsWritten(auth: AuthProtocol, priv: PrivProtocol): Option<SecurityLevel> {
    if auth == AuthNone && priv == PrivNone then Some(NoAuthNoPriv)
    else if auth != AuthNone && priv == PrivNone then Some(AuthNoPriv)
    else if auth != AuthNone && priv != PrivNone then Some(AuthPriv)
    else None
  }

  /** As written, the options are unbound exactly for "no authentication
      with a privacy protocol", and wherever they are bound the level is the
      RFC 3411 level of the protocols. */
  lemma AsWrittenLeavesOptionsUnbound(auth: AuthProtocol, priv: PrivProtocol)
    ensures V3LevelAsWritten(auth, priv).None? <==> auth == AuthNone && priv != PrivNone
    ensures V3LevelAsWritten(auth, priv).Some? ==> V3LevelAsWritten(auth, priv).value == LevelFor(auth, priv)
  {
  }

  /** The fields of the options string for a validated notification and
      the resolved agent address, or the failure for a privacy protocol
      snmptrap lacks. The SNMPv3 level is LevelFor, the level the engine
      path's USM user runs at; no authentication gives noAuthNoPriv. */
  function OptionWords(v: Notification, agentAddress: string): Result<seq<string>> {
    if v.kind.Mentions("SNMPv1") then
      Ok(["-v", "1", "-c", v.community, v.destination, v.sourceOid, agentAddress,
          Decimal(v.generic), v.specific, "0"])
    else if v.kind.Mentions("SNMPv2c") then
      Ok(PduWords(v.kind) + ["-v", "2c", "-c", v.community, v.destination, "0", v.sourceOid])
    else
      var level := LevelFor(v.authProtocol, v.privProtocol);
      var priv := CliPrivName(v.privProtocol);
      if level == AuthPriv && priv in UnsupportedPriv then Err(PrivUnsupported(priv))
      else
        Ok(PduWords(v.kind)
           + ["-v", "3", "-n", Quoted(v.context), "-u", v.securityName, "-l", level.Name()]
           + (if level != NoAuthNoPriv then ["-a", CliAuthName(v.authProtocol), "-A", v.authKey] else [])
           + (if level == AuthPriv then ["-x", priv, "-X", v.privKey] else [])
           + [v.destination, "0", v.sourceOid])
  }

  /** The options string itself. */
  function Options(v: Notification, agentAddress: string): Result<string> {
    match OptionWords(v, agentAddress)
    case Err(f) => Err(f)
    case Ok(words) => Ok(Join(words, " "))
  }

  /** snmptrap reads back the fields the options were built from whenever
      none of them contains a space. */
  lemma OptionsReadBack(v: Notification, agentAddress: string)
    requires OptionWords(v, agentAddress).Ok?
    requires var w := OptionWords(v, agentAddress).value;
      forall k :: 0 <= k < |w| ==> ' ' !in w[k]
    ensures Split(Options(v, agentAddress).value, ' ') == OptionWords(v, agentAddress).value
  {
    SplitJoin(OptionWords(v, agentAddress).value, ' ');
  }

  /** Only SNMPv3 with authentication and 3DES, AES-192 or AES-256 is
      refused, naming the protocol; the engine path sends all of those. */
  lemma CliRejectsOnlyUnsupportedPriv(v: Notification, agentAddress: string)
    ensures OptionWords(v, agentAddress).Err? <==>
      && v.kind.Family() == "SNMPv3"
      && v.authProtocol != AuthNone
      && v.privProtocol in {TripleDES, AES192, AES256}
    ensures OptionWords(v, agentAddress).Err? ==>
      && OptionWords(v, agentAddress).failure == PrivUnsupported(v.privProtocol.Name())
      && Engine.UsmUserOf(v).Level() == AuthPriv
  {
    assert "SNMPv3" != "SNMPv1" && "SNMPv3" != "SNMPv2c";
  }

  /** An SNMPv1 command carries what the engine path derives its trap from
      (RFC 3584 section 3.1): the enterprise, the agent address the engine's
      trailer carries, the generic type as a number and the specific type,
      from which the engine's trap OID follows. */
  lemma V1OptionsMatchEngineTrap(v: Notification, agentAddress: string)
    requires v.kind == V1Trap
    ensures OptionWords(v, agentAddress).Ok?
    ensures var w := OptionWords(v, agentAddress).value;
      var id := Engine.TrapIdentityOf(v);
      && |w| == 10
      && w[..5] == ["-v", "1", "-c", v.community, v.destination]
      && w[5] == id.enterprise
      && w[6] == agentAddress
      && IsDigits(w[7]) && DigitsValue(w[7]) == v.generic
      && w[8] == v.specific
      && id.trapOid == (if DigitsValue(w[7]) < 6 then Engine.SnmpTrapsPrefix + Decimal(DigitsValue(w[7]) + 1)
                        else w[5] + ".0." + w[8])
      && w[9] == "0"
  {
  }

  /** An SNMPv2c or SNMPv3 command names its version after the optional
      -Ci (with the community for SNMPv2c, the quoted context for SNMPv3),
      and ends with the destination, uptime 0 and the same trap OID the
      engine path sends. */
  lemma V2cV3OptionsMatchEngineTrap(v: Notification, agentAddress: string)
    requires v.kind != V1Trap && OptionWords(v, agentAddress).Ok?
    ensures var w := OptionWords(v, agentAddress).value;
      var p := |PduWords(v.kind)|;
      && |w| >= p + 7
      && (v.kind.Family() == "SNMPv2c" ==> |w| == p + 7 && w[p..p + 4] == ["-v", "2c", "-c", v.community])
      && (v.kind.Family() == "SNMPv3" ==> w[p..p + 4] == ["-v", "3", "-n", Quoted(v.context)])
      && w[|w| - 3..] == [v.destination, "0", Engine.TrapIdentityOf(v).trapOid]
  {
    var pdu := PduWords(v.kind);
    var tail := [v.destination, "0", v.sourceOid];
    assert Engine.TrapIdentityOf(v).trapOid == v.sourceOid;
    if v.kind.Family() == "SNMPv2c" {
      V2cOptionWords(v, agentAddress);
      WordsAround(pdu, ["-v", "2c", "-c", v.community], [], tail);
    } else {
      var middle := V3OptionWords(v, agentAddress);
      WordsAround(pdu, ["-v", "3", "-n", Quoted(v.context)], middle, tail);
    }
  }

  /** The SNMPv2c options laid out: flag, head, destination part. */
  lemma V2cOptionWords(v: Notification, agentAddress: string)
    requires v.kind.Family() == "SNMPv2c"
    ensures OptionWords(v, agentAddress)
            == Ok(PduWords(v.kind) + ["-v", "2c", "-c", v.community] + [] + [v.destination, "0", v.sourceOid])
  {
    assert !v.kind.Mentions("SNMPv1") && v.kind.Mentions("SNMPv2c");
    var head, tail := ["-v", "2c", "-c", v.community], [v.destination, "0", v.sourceOid];
    assert head + [] + tail == ["-v", "2c", "-c", v.community, v.destination, "0", v.sourceOid];
    assert PduWords(v.kind) + head + [] + tail == PduWords(v.kind) + (head + [] + tail);
  }

  /** The SNMPv3 options laid out: flag, head, the user and key words,
      destination part. */
  lemma V3OptionWords(v: Notification, agentAddress: string) returns (middle: seq<string>)
    requires v.kind.Family() == "SNMPv3" && OptionWords(v, agentAddress).Ok?
    ensures OptionWords(v, agentAddress).value
            == PduWords(v.kind) + ["-v", "3", "-n", Quoted(v.context)] + middle + [v.destination, "0", v.sourceOid]
  {
    assert !v.kind.Mentions("SNMPv1") && !v.kind.Mentions("SNMPv2c");
    var level := LevelFor(v.authProtocol, v.privProtocol);
    var keys := (if level != NoAuthNoPriv then ["-a", CliAuthName(v.authProtocol), "-A", v.authKey] else [])
                + (if level == AuthPriv then ["-x", CliPrivName(v.privProtocol), "-X", v.privKey] else []);
    middle := ["-u", v.securityName, "-l", level.Name()] + keys;
  }

  /** Where the fixed parts of an options list sit. */
  lemma WordsAround(pdu: seq<string>, head: seq<string>, middle: seq<string>, tail: seq<string>)
    ensures var w := pdu + head + middle + tail;
      w[|pdu|..|pdu| + |head|] == head && w[|w| - |tail|..] == tail
  {
  }

  /** For every version, the options start with -Ci exactly when the
      engine path would send an Inform; an SNMPv1 trap never does. */
  lemma InformFlagLeadsExactlyForInforms(v: Notification, agentAddress: string)
    requires OptionWords(v, agentAddress).Ok?
    ensures var w := OptionWords(v, agentAddress).value;
      && |w| > 0
      && (w[0] == "-Ci" <==> Engine.PduOf(v.kind) == Engine.Inform)
  {
  }

  /** An SNMPv3 command runs at the engine's USM level under the same
      user, and carries the -a/-A pair exactly when that user has an
      authentication key and the -x/-X pair exactly when it has a privacy
      key. */
  lemma V3OptionsMatchUsmUser(v: Notification, agentAddress: string)
    requires v.kind.Family() == "SNMPv3" && OptionWords(v, agentAddress).Ok?
    ensures var w := OptionWords(v, agentAddress).value;
      var p := |PduWords(v.kind)|;
      var user := Engine.UsmUserOf(v);
      && |w| == p + 11 + (if user.Level() == NoAuthNoPriv then 0 else 4) + (if user.Level() == AuthPriv then 4 else 0)
      && w[p + 4..p + 8] == ["-u", user.userName, "-l", user.Level().Name()]
      && (user.Level() != NoAuthNoPriv ==> w[p + 8..p + 12] == ["-a", CliAuthName(v.authProtocol), "-A", user.authKey])
      && (user.Level() == AuthPriv ==> w[p + 12..p + 16] == ["-x", CliPrivName(v.privProtocol), "-X", user.privKey])
  {
    Engine.UsmUserMatchesLevel(v);
  }

  /** One table row as a snmptrap varbind: all three cells must hold an
      item and the stripped OID must not contain a space; the type cell
      must name a table entry. The word is 'oid letter "value"'. */
  function CliToken(row: Row, number: nat): Result<string> {
    if row.oid.None? || row.value.None? then Err(RowMissingValue(number))
    else
      var oid := Trim(row.oid.value);
      var data := Quoted(Trim(row.value.value));
      if ' ' in oid then Err(RowOidHasSpace(number))
      else
        match TypeOfCell(Trim(row.typeText))
        case None => Err(RowTypeUnreadable(number))
        case Some(tag) => Ok(oid + " " + [tag.Letter()] + " " + data)
  }

  function CliStep(): (Row, nat) -> Result<string> {
    (row: Row, number: nat) => CliToken(row, number)
  }

  /** The varbind string: the rows' words joined with spaces, or the
      failure of the first bad row. */
  function VarbindString(rows: seq<Row>): Result<string> {
    match Collect(rows, CliStep())
    case Err(f) => Err(f)
    case Ok(tokens) => Ok(Join(tokens, " "))
  }

  /** snmptrap reads a row's OID as the first word of its varbind and the
      type letter as the second, and everything after the second space is
      the stripped value in double quotes; a failing row reports its own
      number. */
  lemma CliTokenReadsBack(row: Row, number: nat)
    ensures var r := CliToken(row, number);
      && (r.Ok? ==>
            && row.oid.Some? && row.value.Some? && TypeOfCell(Trim(row.typeText)).Some?
            && |Split(r.value, ' ')| >= 2
            && Split(r.value, ' ')[0] == Trim(row.oid.value)
            && Split(r.value, ' ')[1] == [TypeOfCell(Trim(row.typeText)).value.Letter()]
            && |Trim(row.oid.value)| + 3 <= |r.value|
            && r.value[|Trim(row.oid.value)| + 3..] == Quoted(Trim(row.value.value)))
      && (r.Err? ==> r.failure in {RowMissingValue(number), RowOidHasSpace(number), RowTypeUnreadable(number)})
  {
    var r := CliToken(row, number);
    if r.Ok? {
      var oid := Trim(row.oid.value);
      var letter := TypeOfCell(Trim(row.typeText)).value.Letter();
      var data := Quoted(Trim(row.value.value));
      SplitVarbindWord(oid, letter, data);
      assert r.value == oid + " " + [letter] + " " + data;
      assert (oid + " " + [letter] + " " + data)[|oid| + 3..] == data;
    }
  }

  /** A row becomes a varbind word exactly when both cells hold an item,
      its stripped OID has no space and its type cell names a table entry;
      the value is not looked at. */
  lemma CliTokenAcceptsExactly(row: Row, number: nat)
    ensures CliToken(row, number).Ok? <==>
      && row.oid.Some? && row.value.Some?
      && ' ' !in Trim(row.oid.value)
      && TypeOfCell(Trim(row.typeText)).Some?
  {
  }

  /** A bad row is reported by its first defect in the order the loop
      looks: a missing cell, then a space in the OID, then a type cell
      int() or OID_TYPES cannot read. */
  lemma CliTokenReportsFirstDefect(row: Row, number: nat)
    ensures var r := CliToken(row, number);
      var cells := row.oid.Some? && row.value.Some?;
      && (r == Err(RowMissingValue(number)) <==> !cells)
      && (r == Err(RowOidHasSpace(number)) <==> cells && ' ' in Trim(row.oid.value))
      && (r == Err(RowTypeUnreadable(number)) <==>
            cells && ' ' !in Trim(row.oid.value) && TypeOfCell(Trim(row.typeText)).None?)
  {
  }

  /** The first two words of 'oid letter data' are the OID and the letter
      when the OID has no space. */
  lemma SplitVarbindWord(oid: string, letter: char, data: string)
    requires ' ' !in oid && letter != ' '
    ensures var w := Split(oid + " " + [letter] + " " + data, ' ');
      |w| >= 2 && w[0] == oid && w[1] == [letter]
  {
    var tail := [letter] + " " + data;
    assert oid + " " + [letter] + " " + data == oid + [' '] + tail;
    SplitFirstPiece(oid, ' ', tail);
    SplitFirstPiece([letter], ' ', data);
  }

  /** Every row the engine path accepts is accepted by the snmptrap path,
      with the same OID and the letter of the same type. */
  lemma EngineAcceptedRowIsCliAccepted(row: Row, number: nat, parses: (OidType, string) -> bool)
    requires Engine.EngineRow(row, number, parses).Ok?
    ensures var vb := Engine.EngineRow(row, number, parses).value;
      && vb.value.Typed?
      && CliToken(row, number) == Ok(vb.oid + " " + [vb.value.tag.Letter()] + " " + Quoted(Trim(row.value.value)))
  {
    Engine.EngineRowChecks(row, number, parses);
    var oid := Trim(row.oid.value);
    assert ' ' !in oid by {
      assert forall i :: 0 <= i < |oid| ==> oid[i] in OidChars;
    }
  }

  /** Every table the engine path accepts is accepted by the snmptrap path. */
  lemma EngineAcceptedTableIsCliAccepted(rows: seq<Row>, parses: (OidType, string) -> bool)
    requires Collect(rows, Engine.EngineStep(parses)).Ok?
    ensures VarbindString(rows).Ok?
  {
    CollectSucceeds(rows, Engine.EngineStep(parses));
    CollectSucceeds(rows, CliStep());
    forall k | 0 <= k < |rows| ensures CliStep()(rows[k], k + 1).Ok? {
      assert Engine.EngineStep(parses)(rows[k], k + 1) == Engine.EngineRow(rows[k], k + 1, parses);
      EngineAcceptedRowIsCliAccepted(rows[k], k + 1, parses);
    }
  }

  /** The second varbind loop of send_notification: each row's word is
      appended in table order, the first bad row ends the loop, and the
      words are joined with spaces. */
  method BuildVarbindString(rows: seq<Row>) returns (r: Result<string>)
    ensures r == VarbindString(rows)
  {
    var step := CliStep();
    var tokens: seq<string> := [];
    for i := 0 to |rows|
      invariant Collect(rows[..i], step) == Ok(tokens)
    {
      CollectStep(rows, i, step);
      var token := CliToken(rows[i], i + 1);
      assert step(rows[i], i + 1) == token;
      if token.Err? {
        CollectStaysFailed(rows, i + 1, step);
        return Err(token.failure);
      }
      tokens := tokens + [token.value];
    }
    assert rows[..|rows|] == rows;
    r := Ok(Join(tokens, " "));
  }
}
