# misnertraptool notification builder, modelled in Dafny

misnertraptool is a Windows GUI that builds SNMP notifications (SNMPv1
Trap, SNMPv2c Trap or Inform, SNMPv3 Trap or Inform) from a form and a
varbind table. It then does one of two things:
- it hands the notification to the PySNMP notification originator (target
  "Destination Address");
- it builds a Net-SNMP `snmptrap` command line for a local executable, for
  the output tab, or for a SecureCRT or PuTTY window.

This project models the core of `send_notification`, from the form to what
it hands on, together with the helpers that core relies on:

- `types.dfy` (`SnmpTypes`): the form (`Notification`), one varbind row
  (`Row`), the notification types, the protocol comboboxes, the RFC 3411
  security levels (`LevelFor`), the `OID_TYPES` table (`OidTypes`), and
  every way a send attempt can end early (`Failure`).
- `text.dfy` (`Text`): the Python string operations the code uses.
  - `strip` and `strip(chars)`;
  - `character_test`;
  - `isdigit` and `int()` on digit strings;
  - `"%s" % n`;
  - `' '.join` and `split(c)`;
  - `len()` of Qt text, counted in UTF-16 code units.
- `validation.dfy` (`Validation`): the two defaults (a blank specific type,
  a blank source OID for a generic SNMPv1 trap) and the nine ordered field
  checks.
- `destination.dfy` (`Destination`): splitting the destination into host
  and port.
- `rows.dfy` (`Rows`): the row-by-row table walk shared by both send paths
  (`Collect`), reading the type cell, and the varbind rows as the save
  routine stores them and the open routine rebuilds them.
- `engine.dfy` (`Engine`): the "Destination Address" branch. It covers:
  - the PDU kind;
  - the SNMPv1 to SNMPv2 trap-OID translation of RFC 3584 section 3.1;
  - the varbind loop and the three SNMPv1 trailer varbinds;
  - community or USM authentication at the level of RFC 3411 section
    3.4.3;
  - the request handed to the originator.
- `snmptrap.dfy` (`Snmptrap`): the snmptrap options for each version and
  security level, and the varbind words.
- `history.dfy` (`History`): `combobox_history_add`, with
  `collections.deque(items, 10)` as a class (`BoundedDeque`) and the
  combobox as a class (`ComboBox`).
- `send.dfy` (`Send`): the whole pipeline, with name resolution, the
  engine's value constructors and the window search as parameters (`Env`).
  It ends with a worked SNMPv1 example.
  - `Send` runs the corrected branches of the two findings below: SNMPv2c
    gets its community authentication on the engine path, and SNMPv3 with
    no authentication but a privacy protocol gets noAuthNoPriv options on
    the snmptrap path. The lemmas about `Send` describe that corrected
    pipeline.
  - `SendAsWritten` is the pipeline as the code is written. It agrees
    with `Send` except on those two inputs, where it ends with
    `Unbound("authentication")` or `Unbound("options")`, at the point where
    the code first reads the unbound name.

Nothing here runs: the send itself, DNS, subprocesses and the GUI are
outside the model. Apart from the two corrected branches of `Send`, the
model states what the code computes up to the point where it would call
out.

## Behaviour as coded

In the places below, the documented behaviour of the tool and the code
differ. The model follows the code. (The two places where the code
evidently does not do what its authors intended are under "## Findings".)

- The snmptrap SNMPv1 options carry the (possibly defaulted) source OID as
  the enterprise, followed by the generic and specific types as separate
  arguments (`misnertraptool.py:797-799`). They do not carry the
  `enterprise.0.specific` OID that the engine path sends. For the worked
  example, the command is `snmptrap -v 1 -c public 10.0.0.2:162
  1.3.6.1.4.1.3.1.1 10.0.0.1 6 1 0 1.3.6.1.2.1.1.5.0 s "host1"`
  (`Send.ExampleV1Command`, `Send.ExampleV1Options`).
- For the Local Executable target, the line starts with the quoted
  executable path and `-Lo -m ALL -M "<mibs>"`, not with the options.
- The engine's transport target is the destination host as typed. The
  resolved address is used only to check that the host resolves
  (`misnertraptool.py:640-648`).
- The agent address in the SNMPv1 trailer and in the SNMPv1 snmptrap
  options is the resolved one (`misnertraptool.py:649-654`).
- Both hosts are resolved before either path runs, so an unresolvable
  agent address also stops SNMPv2c and SNMPv3 sends.
- An empty varbind OID passes `character_test` on the engine path. The
  snmptrap path checks the OID only for a space.

## Model

| member | source | states |
|---|---|---|
| Text.StripLeftRemovesRun | misnertraptool.py:971 | The left half of `strip(chars)` keeps a suffix, removes only characters of the set, and stops at a character outside it. |
| Text.StripRightRemovesRun | misnertraptool.py:971 | The right half keeps a prefix, removes only characters of the set, and stops at a character outside it. |
| Text.TrimIsInnerPiece | misnertraptool.py:709-711 | `s.strip()` is a contiguous piece of `s` that neither starts nor ends with whitespace, and everything cut off around it is whitespace. |
| Text.TrimUntouched | misnertraptool.py:709-711 | Text that neither starts nor ends with whitespace is its own `strip()`. |
| Text.CharacterTest | misnertraptool.py:969-974 | `character_test` is true exactly when every character of the text is in the allowed set; the empty text passes. |
| Text.Decimal | misnertraptool.py:670 | `"%s" % n` is a digit string without a leading zero whose `int()` is `n`. |
| Text.DecimalRoundTrip | misnertraptool.py:720 | A digit string without a leading zero is `"%s"` of its own `int()`. |
| Text.Join | misnertraptool.py:846 | `' '.join` of no parts is `''`, and of one part is that part. |
| Text.Split | misnertraptool.py:632 | `split(c)` always yields at least one piece. |
| Text.SplitJoin | misnertraptool.py:846 | Splitting a join at its separator gives back the parts when no part contains the separator. |
| Text.Utf16Length | misnertraptool.py:611-615 | `len()` of a key lies between its number of characters and twice that, and equals it when every character is in the Basic Multilingual Plane. |
| Text.Utf16LengthOfChar | misnertraptool.py:611-615 | One character counts 1 inside the Basic Multilingual Plane and 2 (a surrogate pair) outside it. |
| Text.Utf16LengthAdditive | misnertraptool.py:611-615 | The length of joined text is the sum of the lengths of its parts, so with Utf16LengthOfChar a key's length is the sum over its characters. |
| Text.Utf16LengthOfAstralText | misnertraptool.py:611 | A key of four characters outside the Basic Multilingual Plane has length 8, so it meets the 8-character minimum. |
| Validation.EffectiveSpecific | misnertraptool.py:576-577 | A blank specific trap type becomes `'1'` (`SPECIFIC_TRAP_TYPE`); any other is kept as it is. |
| Validation.Validate | misnertraptool.py:576-618 | An accepted form comes back with exactly the two defaults applied and nothing else changed. |
| Validation.ValidateAcceptsExactly | misnertraptool.py:580-618 | The form is accepted if and only if it passes all nine checks. |
| Validation.ValidateReportsFirstFailure | misnertraptool.py:580-618 | A rejection names a check the form fails, and the form passes every earlier check. |
| Validation.ValidateFailedCheck | misnertraptool.py:580-618 | A rejection's failure is one of the nine checks, and the form fails that check. |
| Validation.ValidatePassedPrefix | misnertraptool.py:580-618 | Every check before the one that stopped the chain passes. |
| Validation.ValidatedIsWellFormed | misnertraptool.py:576-618 | An accepted form has a non-empty dotted source OID, a destination, the community, agent, specific type and security name its version needs, and keys of at least 8 UTF-16 code units where USM uses them. |
| Destination.ParseDestination | misnertraptool.py:631-640 | A colon-free destination is the host on the default port text `'162'`, which `int()` reads as 162. More than one colon is refused as malformed. A result splits the text at its one colon into a colon-free host and a digit port read by `int()`. The only failures are malformed and invalid port. |
| Destination.ParseFormatRoundTrip | misnertraptool.py:631-639 | Parsing `host + ":" + port` gives back the host and port for any colon-free host and digit port. |
| Destination.NonNumericPortRejected | misnertraptool.py:633-636 | A port that is not all digits is refused, whatever the host. |
| Rows.CollectSucceeds | misnertraptool.py:707-738 | The table walk succeeds if and only if every row converts, and then yields one item per row, each the conversion of its row, in table order. |
| Rows.CollectReportsFirstBadRow | misnertraptool.py:707-738 | A failed walk reports the failure of a row such that every row before it converts. |
| Rows.TypeOfCellReadsEditorIndex | misnertraptool.py:720 | The text of every `OID_TYPES` index, as the type editor stores it, reads back as that entry. |
| Rows.OidTypeLettersDistinct | misnertraptool.py:67-79 | The table's letters and names are pairwise distinct. |
| Rows.ReloadedTable | misnertraptool.py:485-492 | Reopening rebuilds one row per stored row, each with all three cells filled from the stored text. |
| Rows.SaveRows | misnertraptool.py:513-523 | One stored row per table row, in order, with a cell that has no item stored as `''`. |
| Rows.SaveReloadRoundTrip | misnertraptool.py:513-523 | Saving a reopened table stores what was loaded, and reopening a saved table restores every row whose cells all held an item. |
| Engine.PduOf | misnertraptool.py:659-662 | The PDU is an Inform if and only if the notification type is an Inform. |
| Engine.V1TranslationReadsBack | misnertraptool.py:666-672 | The RFC 3584 translation loses nothing. A generic SNMPv1 trap's OID reads back as its generic type. An enterprise-specific trap's OID reads back as no generic type, and as its specific type under its enterprise. The enterprise is the source OID. |
| Engine.EngineRowChecks | misnertraptool.py:707-737 | A converted row keeps the stripped OID (all digits and dots), the type its cell names and, except for Null, the stripped value that the type's constructor accepts. A failed row reports its own row number with one of the four row failures, and an invalid value is one that the constructor refuses. |
| Engine.EngineRowAcceptsExactly | misnertraptool.py:707-737 | A row is converted if and only if both cells hold an item, the stripped OID is digits and dots, the type cell names an `OID_TYPES` entry, and that type is Null or its constructor accepts the stripped value. |
| Engine.EngineRowReportsFirstDefect | misnertraptool.py:707-737 | A bad row is reported by its first defect in loop order, each in both directions: a missing cell gives RowMissingValue; then an OID that is not a dotted number gives RowOidNotDotted; then an unreadable type cell gives RowTypeUnreadable; then a refused value gives RowValueInvalid. |
| Engine.GatherVarbinds | misnertraptool.py:704-738 | The varbind loop returns exactly the table walk of the engine's row conversion. |
| Engine.UsmUserMatchesLevel | misnertraptool.py:686-702 | The USM user runs under the security name at the RFC 3411 level of the selected protocols. It carries the auth key and protocol at authNoPriv and above, and the privacy key and protocol at authPriv. |
| Engine.EnginePrivProtocolsDistinct | misnertraptool.py:690-694 | Distinct selected privacy protocols map to distinct engine protocols. |
| Engine.AsWrittenLeavesV2cUnauthenticated | misnertraptool.py:684-686 | As written, exactly the two SNMPv2c types get no authentication. |
| Engine.EngineAuthCoversEveryType | misnertraptool.py:684-702 | The corrected authentication is community data, with mpModel 0 for SNMPv1 and 1 for SNMPv2c, if and only if the type is not SNMPv3. It agrees with the code wherever the code binds one. |
| Engine.EngineRequestUnfolds | misnertraptool.py:703-744 | A failed table walk is the request's failure. Otherwise the request's varbinds are the walked rows followed by the trailer. |
| Engine.EngineRequestVarbinds | misnertraptool.py:740-744 | The request carries every row, converted and in order. For SNMPv1 it adds exactly sysUpTime 0, the agent address and the enterprise OID after them. |
| Engine.EngineRequestFirstBadRow | misnertraptool.py:707-738 | A refused request reports the failure of the first bad row, numbered from 1. |
| Snmptrap.PduWords | misnertraptool.py:791-794 | The PDU words are `-Ci` if and only if the engine path would send an Inform, and empty otherwise. |
| Snmptrap.InformFlagLeadsExactlyForInforms | misnertraptool.py:791-825 | For every version, the options start with `-Ci` if and only if the engine path would send an Inform; SNMPv1 options never do. |
| Snmptrap.AsWrittenLeavesOptionsUnbound | misnertraptool.py:807-825 | As written, the options are unbound exactly for no authentication with a privacy protocol. Wherever they are bound, the level is the RFC 3411 level. |
| Snmptrap.OptionsReadBack | misnertraptool.py:797-825 | Splitting the options string at spaces gives back its fields when none contains a space. |
| Snmptrap.CliRejectsOnlyUnsupportedPriv | misnertraptool.py:816-821 | Options are refused if and only if the notification is SNMPv3 with authentication and 3DES, AES-192 or AES-256. The refusal names the protocol, which the engine path would send at authPriv. |
| Snmptrap.V1OptionsMatchEngineTrap | misnertraptool.py:797-799 | The SNMPv1 options are exactly ten words: `-v 1 -c`, the community, the destination, the enterprise, the agent address, the generic type as digits, the specific type and uptime `0`. The engine's trap OID follows from the enterprise, generic and specific words. |
| Snmptrap.V2cV3OptionsMatchEngineTrap | misnertraptool.py:800-825 | After the optional `-Ci`, SNMPv2c options are `-v 2c -c` and the community (seven words in all), and SNMPv3 options start with `-v 3 -n` and the quoted context. Both end with the destination, uptime 0 and the engine's trap OID. |
| Snmptrap.V3OptionsMatchUsmUser | misnertraptool.py:802-825 | SNMPv3 options name the engine's USM user and level. They carry `-a/-A` exactly when the user has an auth key, and `-x/-X` exactly when it has a privacy key. |
| Snmptrap.CliTokenReadsBack | misnertraptool.py:830-844 | A row's word splits into the stripped OID and the type letter first, and everything after the second space is the stripped value in double quotes. A failed row reports its own number with one of the three row failures. |
| Snmptrap.CliTokenAcceptsExactly | misnertraptool.py:830-844 | A row becomes a word if and only if both cells hold an item, the stripped OID has no space, and the type cell names an `OID_TYPES` entry. |
| Snmptrap.CliTokenReportsFirstDefect | misnertraptool.py:830-844 | A bad row is reported by its first defect in loop order, each in both directions: a missing cell gives RowMissingValue; then a space in the OID gives RowOidHasSpace; then an unreadable type cell gives RowTypeUnreadable. |
| Snmptrap.EngineAcceptedRowIsCliAccepted | misnertraptool.py:830-844 | Every row the engine path accepts becomes a word with the same OID and the letter of the same type. |
| Snmptrap.EngineAcceptedTableIsCliAccepted | misnertraptool.py:827-846 | Every table the engine path accepts gives a varbind string. |
| Snmptrap.BuildVarbindString | misnertraptool.py:827-846 | The varbind loop returns the rows' words joined by spaces, or the first bad row's failure. |
| History.LastN | misnertraptool.py:427 | `deque(items, n)` holds the last `n` items, or all of them when there are at most `n`. |
| History.RemoveAt | misnertraptool.py:429 | Removing one position shortens the deque by one and adds nothing. |
| History.PushFront | misnertraptool.py:430 | `appendleft` puts the entry first and keeps the order of the rest. When there is room it keeps every old entry and grows by one; when full it drops exactly the rightmost entry and stays at the bound. |
| History.PushBackKeepsLastN | misnertraptool.py:427 | Appending to a bounded deque keeps the last `n` of everything appended. |
| History.BoundedDeque.constructor | misnertraptool.py:427 | The new deque holds the last `maxlen` items. |
| History.BoundedDeque.Append | misnertraptool.py:427 | `append` adds on the right and drops the leftmost entry when full. |
| History.BoundedDeque.AppendLeft | misnertraptool.py:430 | `appendleft` adds on the left and drops the rightmost entry when full. |
| History.BoundedDeque.Remove | misnertraptool.py:428-429 | `remove` takes out the first occurrence of the entry. |
| History.HistoryAdd | misnertraptool.py:415-434 | The combobox is refilled with the updated history, and its text is left as it was. |
| History.UpdatedPutsCurrentFirst | misnertraptool.py:415-434 | An empty text changes nothing. Otherwise the text comes first, the history holds 1 to 10 entries, and every entry is the text or was there before. |
| History.UpdatedIdempotent | misnertraptool.py:415-434 | Adding the same text again changes nothing. |
| History.UpdatedIsMoveToFront | misnertraptool.py:426-434 | For a duplicate-free history, the update is move-to-front: the text first, the other kept entries in order without it, and at most ten in all. |
| History.UpdatedKeepsNoDuplicates | misnertraptool.py:426-434 | A duplicate-free history stays duplicate-free. |
| Send.SendReachesTarget | misnertraptool.py:631-657 | A valid form whose destination parses and whose hosts resolve goes to the engine request or to the snmptrap command for its target. |
| Send.SendBindsEveryName | misnertraptool.py:555-902 | The corrected pipeline never stops on an unbound name: every refusal is a failed check, a bad destination, an unresolved host, a bad row, an unsupported privacy protocol or a missing window. |
| Send.SendAsWrittenDiffersOnlyOnUnbound | misnertraptool.py:684-900 | The code as written agrees with `Send` except in two cases. A valid SNMPv2c engine send ends with `Unbound("authentication")`. A valid SNMPv3 snmptrap send with no authentication and a privacy protocol ends with `Unbound("options")`. |
| Send.SendValidatesFirst | misnertraptool.py:579-618 | A form failing any check is refused with the first failing check, before anything else happens. |
| Send.EngineSendCarriesForm | misnertraptool.py:555-744 | An engine send has a valid form, a parsed and resolvable destination, the PDU of its type, the security model of its version and every row in order. For SNMPv1 the RFC 3584 trap OID reads back as the generic type, or for an enterprise-specific trap as the specific type under the enterprise, and the rows are followed by exactly sysUpTime 0, the resolved agent address and the enterprise. Other versions send the source OID. |
| Send.EngineSendIsRequest | misnertraptool.py:631-767 | An engine send hands on exactly the request built from the validated form, its parsed destination (whose host resolves) and the resolved agent address. |
| Send.CommandIsCliCommand | misnertraptool.py:631-654 | A command comes from the snmptrap branch run on the validated form, whose destination parses, and the resolved agent address. |
| Send.CommandCarriesForm | misnertraptool.py:789-902 | A command line is the target's prefix, the options and the varbind words, built from a valid form whose destination parses. A terminal target gets one only when its window is available. |
| Send.CliAcceptsWhatEngineAccepts | misnertraptool.py:797-846 | The Output Only and Local Executable targets produce a command for every form the engine target sends, except SNMPv3 with authentication and a privacy protocol that snmptrap lacks. |
| Send.ValidateIgnoresTarget | misnertraptool.py:576-618 | Validation does not depend on the send target. |
| Send.ExampleV1OidsDotted | misnertraptool.py:599-602 | The example's enterprise and row OID pass `character_test`. |
| Send.ExampleV1Valid | misnertraptool.py:576-618 | The worked SNMPv1 enterprise-specific example passes validation unchanged. |
| Send.ExampleV1Destination | misnertraptool.py:631-639 | `10.0.0.2:162` parses as host `10.0.0.2`, port 162. |
| Send.ExampleV1RowType | misnertraptool.py:720 | The example row's type cell `3` names String. |
| Send.ExampleV1EngineRow | misnertraptool.py:707-738 | The example row becomes a String varbind `host1` on the engine path. |
| Send.ExampleV1CliToken | misnertraptool.py:830-844 | The example row becomes `1.3.6.1.2.1.1.5.0 s "host1"` on the snmptrap path. |
| Send.ExampleV1Options | misnertraptool.py:797-799 | The example's options carry the enterprise (not `enterprise.0.specific`), the resolved agent address, `6`, `1` and `0`. |
| Send.ExampleV1TrapOid | misnertraptool.py:666-672 | The example's engine trap OID is `1.3.6.1.4.1.3.1.1.0.1`, with enterprise `1.3.6.1.4.1.3.1.1`. |
| Send.ExampleV1Varbinds | misnertraptool.py:740-744 | The example's row is followed by sysUpTime 0, the agent address and the enterprise. |
| Send.ExampleV1Request | misnertraptool.py:656-744 | The example's engine request: community `public` with mpModel 0, a Trap to `10.0.0.2:162`, trap OID `1.3.6.1.4.1.3.1.1.0.1`, and four varbinds. |
| Send.ExampleV1VarbindString | misnertraptool.py:827-846 | The example's varbind string is its one row's word. |
| Send.ExampleV1Command | misnertraptool.py:899-901 | The example's Output Only line is `snmptrap`, the options joined by spaces, and the row's word. |

## Left out

- The GUI is not modelled: the window, the dialogs, the status bar and output-tab messages, and the line-748 choice of log message.
- Reading the form out of the widgets is not modelled; the model starts from a `Notification` value.
- The notification-file and configuration persistence (shelve) is not modelled. Only the varbind rows as stored and reloaded are.
- The PySNMP send, its error and Inform-timeout handling, and the custom-context engine set-up are not modelled. The request handed to the originator is.
- rfc1902 and pyasn1 value parsing is the parameter `parses`; which texts each type's constructor accepts is not modelled.
- `socket.gethostbyname` is the parameter `resolve`.
- `window_available` and the window search are the parameter `windowAvailable`. AppActivate/SendKeys, subprocess execution of snmptrap.exe and its error reporting are not modelled; the model stops at the command line.
- The `sys.platform == 'win32'` test is taken as true, because the program imports the Windows COM modules unconditionally.
- The eight `combobox_history_add` calls in `send_notification` and the history write to the configuration are not modelled. `History.HistoryAdd` models one call.
- History.UpdatedIsMoveToFront: stated only for duplicate-free histories, because with a duplicate, `deque.remove` takes out only the first copy.
- History.BoundedDeque.Remove: requires the entry to be present, because `deque.remove` raises otherwise and the one caller checks membership first.
- Text.IsDigits: ASCII digits only. Python's unicode `isdigit` also accepts other digit characters, which `int()` may then reject or read differently.
- Python 2 `str()` of a non-ASCII cell on the engine path (lines 709-711) raises an uncaught exception. The model treats cells as Unicode text and does not model that exception.
- `int()` also accepts a sign and surrounding whitespace. The type cell only ever holds an index written by the type editor, so the model reads digit strings only.
- Destination.ParseDestination: the port is not range-checked, because the transport target constructor that would reject it is outside the model.
- Rows.TypeOfCell: a type cell that is not an index of `OID_TYPES` makes the code raise an uncaught exception at lines 720 and 843. The model reports it as `RowTypeUnreadable` for that row.
- `Engine.GenericOf` reads only the six generic OIDs; other SNMPv2 trap OIDs are not decoded.
- The varbind editors (combobox delegate), row add/remove/move and the other GUI slots are not modelled.

## Findings

| source | as written | input that shows it | evidently intended | confidence | as-written member | corrected member |
|---|---|---|---|---|---|---|
| misnertraptool.py:684 | the `or` is evaluated before `in`, so only `'SNMPv1'` is looked for and SNMPv2c gets no `authentication`; the send raises where line 766 reads it (`Send.SendAsWritten` ends with `Unbound("authentication")` there) | an SNMPv2c Trap or Inform sent to "Destination Address" | community data with mpModel 1 for SNMPv2c | high; not executed | Engine.AsWrittenLeavesV2cUnauthenticated | Engine.EngineAuthCoversEveryType |
| misnertraptool.py:807-825 | the three level tests miss "no authentication, privacy set", so `options` is never bound and the send raises where the command line reads it (`Send.SendAsWritten` ends with `Unbound("options")` there) | SNMPv3 Trap, privacy protocol DES picked, then authentication set back to None (lines 351-357 only disable the privacy combobox), target Output Only | noAuthNoPriv options, the level the engine path's USM user gets | high; not executed | Snmptrap.AsWrittenLeavesOptionsUnbound | Snmptrap.V3OptionsMatchUsmUser |
