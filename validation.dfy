/** The ordered field checks at the top of send_notification, with the two
    defaults they apply first. */
module Validation {
  import opened SnmpTypes
  import opened Text

  /** Shown as the placeholder of the specific-type field and used when it is blank. */
  const SpecificTrapTypeDefault: string := "1"

  /** The enterprise OID used for a blank source OID on a generic SNMPv1 trap. */
  const DefaultEnterpriseOid: string := "1.3.6.1.6.3.1.1.5"

  /** The specific trap type after a blank one has been defaulted. */
  function EffectiveSpecific(n: Notification): (s: string)
    ensures n.specific == "" ==> s == SpecificTrapTypeDefault
    ensures n.specific != "" ==> s == n.specific
  {
    if n.specific == "" then SpecificTrapTypeDefault else n.specific
  }

  /** The source OID after a blank one has been defaulted, which happens only
      for SNMPv1 with a generic trap type below 6. */
  function EffectiveSourceOid(n: Notification): string {
    if n.sourceOid == "" && n.kind.Mentions("SNMPv1") && n.generic < 6
    then DefaultEnterpriseOid
    else n.sourceOid
  }

  /** Check number k of the chain, 1 to 9, stated as the condition under
      which the form passes it. */
  predicate Passes(n: Notification, k: int)
    requires 1 <= k <= 9
  {
    var v3 := n.kind.Mentions("SNMPv3");
    match k
    case 1 => n.community != "" || v3
    case 2 => n.agent != "" || n.kind != V1Trap
    case 3 => n.destination != ""
    case 4 => EffectiveSourceOid(n) != ""
    case 5 => forall i :: 0 <= i < |EffectiveSourceOid(n)| ==> EffectiveSourceOid(n)[i] in OidChars
    case 6 => IsDigits(EffectiveSpecific(n)) || n.generic != 6 || n.kind != V1Trap
    case 7 => n.securityName != "" || !v3
    case 8 => Utf16Length(n.authKey) >= 8 || n.authProtocol == AuthNone || !v3
    case _ => Utf16Length(n.privKey) >= 8 || n.authProtocol == AuthNone || n.privProtocol == PrivNone || !v3
  }

  /** The position in the chain of the check that reports a failure. */
  function CheckNumber(f: Failure): int {
    match f
    case CommunityMissing => 1
    case AgentMissing => 2
    case DestinationMissing => 3
    case SourceOidMissing => 4
    case SourceOidNotDotted => 5
    case SpecificNotNumeric => 6
    case SecurityNameMissing => 7
    case AuthKeyTooShort => 8
    case PrivKeyTooShort => 9
    case _ => 0
  }

  /** The validation chain as the source writes it: on success the form
      with the two defaults applied, otherwise the failure of the first
      check that fails (ValidateAcceptsExactly, ValidateReportsFirstFailure). */
  function Validate(n: Notification): (r: Result<Notification>)
    ensures r.Ok? ==> r.value == n.(sourceOid := EffectiveSourceOid(n), specific := EffectiveSpecific(n))
  {
    var specific := EffectiveSpecific(n);
    var v3 := n.kind.Mentions("SNMPv3");
    if n.community == "" && !v3 then Err(CommunityMissing)
    else if n.agent == "" && n.kind == V1Trap then Err(AgentMissing)
    else if n.destination == "" then Err(DestinationMissing)
    else if n.sourceOid == "" && !(n.kind.Mentions("SNMPv1") && n.generic < 6) then Err(SourceOidMissing)
    else
      var source := EffectiveSourceOid(n);
      if !CharacterTest(source, OidChars) then Err(SourceOidNotDotted)
      else if !IsDigits(specific) && n.generic == 6 && n.kind == V1Trap then Err(SpecificNotNumeric)
      else if n.securityName == "" && v3 then Err(SecurityNameMissing)
      else if Utf16Length(n.authKey) < 8 && n.authProtocol != AuthNone && v3 then Err(AuthKeyTooShort)
      else if Utf16Length(n.privKey) < 8 && n.authProtocol != AuthNone && n.privProtocol != PrivNone && v3
      then Err(PrivKeyTooShort)
      else Ok(n.(sourceOid := source, specific := specific))
  }

  /** The form is accepted exactly when it passes all nine checks. */
  lemma ValidateAcceptsExactly(n: Notification)
    ensures Validate(n).Ok? <==> forall k :: 1 <= k <= 9 ==> Passes(n, k)
  {
    if Validate(n).Ok? {
      forall k | 1 <= k <= 9 ensures Passes(n, k) {
        ValidatePassedPrefix(n, k);
      }
    } else {
      var k := CheckNumber(Validate(n).failure);
      ValidateReportsFirstFailure(n);
      assert !Passes(n, k);
    }
  }

  /** A rejected form is rejected by the first check it fails: the reported
      check fails and every check before it passes. */
  lemma ValidateReportsFirstFailure(n: Notification)
    requires Validate(n).Err?
    ensures var k := CheckNumber(Validate(n).failure);
      1 <= k <= 9 && !Passes(n, k) && forall j :: 1 <= j < k ==> Passes(n, j)
  {
    var k := CheckNumber(Validate(n).failure);
    ValidateFailedCheck(n);
    forall j | 1 <= j < k ensures Passes(n, j) {
      ValidatePassedPrefix(n, j);
    }
  }

  /** The check a rejection names is one of the nine, and the form fails it. */
  lemma ValidateFailedCheck(n: Notification)
    requires Validate(n).Err?
    ensures 1 <= CheckNumber(Validate(n).failure) <= 9
    ensures !Passes(n, CheckNumber(Validate(n).failure))
  {
    if Validate(n).failure == SourceOidNotDotted {
      assert !CharacterTest(EffectiveSourceOid(n), OidChars);
    }
  }

  /** Check k passes whenever the chain got past it. */
  lemma ValidatePassedPrefix(n: Notification, k: int)
    requires 1 <= k <= 9
    requires Validate(n).Ok? || k < CheckNumber(Validate(n).failure)
    ensures Passes(n, k)
  {
  }

  /** What a notification that passed validation is known to satisfy: the
      source OID is a non-empty dotted number, the fields its version needs
      are present and the USM keys are long enough. */
  lemma ValidatedIsWellFormed(n: Notification)
    requires Validate(n).Ok?
    ensures var v := Validate(n).value;
      && v.sourceOid != ""
      && (forall i :: 0 <= i < |v.sourceOid| ==> v.sourceOid[i] in OidChars)
      && v.destination != ""
      && (v.kind != V3Trap && v.kind != V3Inform ==> v.community != "")
      && (v.kind == V1Trap ==> v.agent != "")
      && (v.kind == V1Trap && v.generic == 6 ==> IsDigits(v.specific))
      && (v.kind == V3Trap || v.kind == V3Inform ==> v.securityName != "")
      && ((v.kind == V3Trap || v.kind == V3Inform) && v.authProtocol != AuthNone ==> Utf16Length(v.authKey) >= 8)
      && (((v.kind == V3Trap || v.kind == V3Inform) && v.authProtocol != AuthNone
           && v.privProtocol != PrivNone) ==> Utf16Length(v.privKey) >= 8)
  {
  }
}
