/** The notification record that the main window's form fields describe, the
    protocol and varbind-type tables, and the outcomes of building a
    notification. */
module SnmpTypes {

  datatype Option<+T> = None | Some(value: T) {
    function GetOr(default: T): T {
      match this
      case Some(v) => v
      case None => default
    }
  }

  datatype Result<+T> = Ok(value: T) | Err(failure: Failure)

  /** The five entries of the notification-type combobox. Each label is
      "<family> <kind>". The source tests a token against the label with
      Python's `in`; for the tokens it uses ("SNMPv1", "SNMPv2c", "SNMPv3",
      "Trap", "Inform") that test holds exactly when the token is the
      label's family or its kind, which is what Mentions states. */
  datatype NotificationType = V1Trap | V2cTrap | V2cInform | V3Trap | V3Inform {
    function Family(): string {
      match this
      case V1Trap => "SNMPv1"
      case V2cTrap | V2cInform => "SNMPv2c"
      case V3Trap | V3Inform => "SNMPv3"
    }

    function Kind(): string {
      match this
      case V2cInform | V3Inform => "Inform"
      case _ => "Trap"
    }

    function Label(): string {
      Family() + " " + Kind()
    }

    /** `token in notification_type` */
    predicate Mentions(token: string) {
      token == Family() || token == Kind()
    }
  }

  /** Entries of the authentication-protocol combobox. */
  datatype AuthProtocol = AuthNone | MD5 | SHA1 {
    function Name(): string {
      match this
      case AuthNone => "None"
      case MD5 => "MD5"
      case SHA1 => "SHA-1"
    }
  }

  /** Entries of the privacy-protocol combobox. */
  datatype PrivProtocol = PrivNone | DES | TripleDES | AES128 | AES192 | AES256 {
    function Name(): string {
      match this
      case PrivNone => "None"
      case DES => "DES"
      case TripleDES => "3DES"
      case AES128 => "AES-128"
      case AES192 => "AES-192"
      case AES256 => "AES-256"
    }
  }

  /** The securityLevel of RFC 3411 (section 3.4.3): privacy is only
      available together with authentication. */
  datatype SecurityLevel = NoAuthNoPriv | AuthNoPriv | AuthPriv {
    function Name(): string {
      match this
      case NoAuthNoPriv => "noAuthNoPriv"
      case AuthNoPriv => "authNoPriv"
      case AuthPriv => "authPriv"
    }
  }

  /** The level a USM user with these protocols runs at: no authentication
      means noAuthNoPriv whatever privacy protocol is selected. */
  function LevelFor(auth: AuthProtocol, priv: PrivProtocol): SecurityLevel {
    if auth == AuthNone then NoAuthNoPriv
    else if priv == PrivNone then AuthNoPriv
    else AuthPriv
  }

  /** The value types a varbind row can declare: the name shown in the
      table and the snmptrap type letter. */
  datatype OidType =
    | Integer | Unsigned | Counter32 | OctetString
    | NullObject | ObjectId | TimeTicks | IpAddress
  {
    function Name(): string {
      match this
      case Integer => "Integer"
      case Unsigned => "Unsigned"
      case Counter32 => "Counter32"
      case OctetString => "String"
      case NullObject => "Null Object"
      case ObjectId => "OID"
      case TimeTicks => "Time Ticks"
      case IpAddress => "IP Address"
    }

    function Letter(): char {
      match this
      case Integer => 'i'
      case Unsigned => 'u'
      case Counter32 => 'c'
      case OctetString => 's'
      case NullObject => 'n'
      case ObjectId => 'o'
      case TimeTicks => 't'
      case IpAddress => 'a'
    }
  }

  /** The OID_TYPES table, indexed by the number stored in a row's type cell. */
  const OidTypes: seq<OidType> :=
    [Integer, Unsigned, Counter32, OctetString, NullObject, ObjectId, TimeTicks, IpAddress]

  /** One row of the varbind table. `None` is a cell that holds no table item
      (the user never typed into it). The type cell always holds an item:
      every way of adding a row fills it. */
  datatype Row = Row(oid: Option<string>, typeText: string, value: Option<string>)

  /** The generic trap type is the leading digit of the generic-type combobox entry. */
  type GenericTrap = g: int | 0 <= g <= 6

  /** Entries of the "Send To" combobox. */
  datatype SendTarget = DestinationAddress | LocalExecutable | OutputOnly | SecureCRT | PuTTY

  /** The form state read at the top of send_notification. */
  datatype Notification = Notification(
    kind: NotificationType,
    community: string,
    agent: string,
    destination: string,
    sourceOid: string,
    generic: GenericTrap,
    specific: string,
    securityName: string,
    context: string,
    authProtocol: AuthProtocol,
    authKey: string,
    privProtocol: PrivProtocol,
    privKey: string,
    rows: seq<Row>,
    sendTo: SendTarget)

  /** Every way a send attempt ends before anything is handed on. The
      source shows an error dialog for most of them; DestinationMalformed,
      RowTypeUnreadable and Unbound("options") are Python exceptions the
      source does not catch, which abort the send just the same.
      Unbound("authentication") is raised inside the engine send's `try`,
      whose bare `except` shows an error dialog and raises it again. Only
      the code as written (Send.SendAsWritten) reaches Unbound. */
  datatype Failure =
    | CommunityMissing
    | AgentMissing
    | DestinationMissing
    | SourceOidMissing
    | SourceOidNotDotted
    | SpecificNotNumeric
    | SecurityNameMissing
    | AuthKeyTooShort
    | PrivKeyTooShort
    | DestinationMalformed
    | PortInvalid
    | DestinationUnresolvable
    | AgentUnresolvable
    | RowMissingValue(row: nat)
    | RowOidNotDotted(row: nat)
    | RowTypeUnreadable(row: nat)
    | RowValueInvalid(row: nat)
    | RowOidHasSpace(row: nat)
    | PrivUnsupported(protocol: string)
    | WindowUnavailable(window: string)
    | Unbound(variable: string)
}
