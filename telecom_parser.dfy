/** The enhanced telecom message parser: a raw SCAT line is named by the
    first `0xNNNN` subsystem id it carries and typed by the first message
    pattern table row whose regular expression matches; parsed lines update
    message counters, and the metrics add success rates for procedures with
    attempts. */
module TelecomParser {
  import opened Wrappers
  import opened Text
  import opened Patterns
  import opened Counters
  import Rates

  // ------------------------------------------------------------ subsystems

  /** `SUBSYSTEM_MAP`. */
  const SubsystemMap: map<nat, string> := map[
    0x1394 := "AT_COMMANDS", 0x13a1 := "PDN_CONNECTIVITY", 0x251c := "LTE_SECURITY",
    0x251d := "LTE_RRC", 0x2521 := "LTE_RLC_UL", 0x2522 := "LTE_RLC_DL",
    0x2523 := "LTE_PDCP_UL", 0x2524 := "LTE_PDCP_DL", 0x2525 := "LTE_MEASUREMENT",
    0x1388 := "NAS_EMM", 0x1450 := "NAS_ESM", 0x0040 := "POWER_MANAGEMENT",
    0x1194 := "FREQUENCY_SYNC", 0x12c0 := "AUTHENTICATION", 0x1b58 := "MOBILITY_MANAGEMENT",
    0x1ce8 := "BEARER_MANAGEMENT"]

  /** `0x([0-9a-fA-F]{4})` matches at `i`. */
  predicate HexIdAt(s: string, i: nat) {
    i + 6 <= |s| && s[i] == '0' && s[i + 1] == 'x' && AllHex(s[i + 2..i + 6])
  }

  /** The leftmost match at or after `from`. */
  function FindHexId(s: string, from: nat): (r: Option<nat>)
    requires from <= |s|
    ensures r.Some? ==> from <= r.value && HexIdAt(s, r.value) && forall k :: from <= k < r.value ==> !HexIdAt(s, k)
    ensures r.None? ==> forall k :: from <= k <= |s| ==> !HexIdAt(s, k)
    decreases |s| - from
  {
    if HexIdAt(s, from) then Some(from)
    else if from == |s| then None
    else FindHexId(s, from + 1)
  }

  function Pow16(n: nat): nat { if n == 0 then 1 else 16 * Pow16(n - 1) }

  lemma {:induction false} HexDigitsBound(t: string)
    requires AllHex(t)
    ensures HexDigitsValue(t) < Pow16(|t|)
    decreases |t|
  {
    if t != [] {
      HexDigitsBound(t[..|t| - 1]);
    }
  }

  /** `int(match.group(1), 16)`: a 16-bit value read from the first
      `0xNNNN` of the text (the four digits after `0x`, in either case). */
  function SubsystemId(s: string): (r: Option<nat>)
    ensures r.None? <==> forall k :: 0 <= k <= |s| ==> !HexIdAt(s, k)
    ensures r.Some? ==> r.value < 0x10000
    ensures r.Some? ==> exists i :: HexIdAt(s, i) && r.value == HexDigitsValue(s[i + 2..i + 6])
  {
    var i := FindHexId(s, 0);
    if i.None? then None
    else
      var t := s[i.value + 2..i.value + 6];
      HexDigitsBound(t);
      assert Pow16(4) == 0x10000;
      Some(HexDigitsValue(t))
  }

  /** `SUBSYSTEM_MAP.get(id, f"SSID_{id:04X}")`. */
  function SubsystemName(id: nat): string
    requires id < 0x10000
  {
    if id in SubsystemMap then SubsystemMap[id] else "SSID_" + Hex4(id)
  }

  /** Distinct ids get distinct names: the fallback name spells the id in
      hexadecimal, and no table name starts with `SSID_`. */
  lemma SubsystemNamesDistinct(a: nat, b: nat)
    requires a < 0x10000 && b < 0x10000
    requires SubsystemName(a) == SubsystemName(b)
    ensures a == b
  {
    if a !in SubsystemMap && b !in SubsystemMap {
      assert Hex4(a) == SubsystemName(a)[5..];
      assert Hex4(b) == SubsystemName(b)[5..];
      Hex4Value(a);
      Hex4Value(b);
    }
  }

  /** An id outside the table is named `SSID_` and its four upper-case
      hexadecimal digits, which read back as the id. */
  lemma UnknownSubsystemName(id: nat)
    requires id < 0x10000 && id !in SubsystemMap
    ensures |SubsystemName(id)| == 9 && StartsWith(SubsystemName(id), "SSID_")
    ensures AllHex(SubsystemName(id)[5..]) && HexDigitsValue(SubsystemName(id)[5..]) == id
  {
    assert SubsystemName(id)[5..] == Hex4(id);
    Hex4Value(id);
    assert SubsystemName(id)[..5] == "SSID_";
  }

  // --------------------------------------------------------- message types

  /** The keys of `MESSAGE_PATTERNS`, in dictionary order. */
  datatype MsgType = Rach | RrcConnection | NasAttach | Tau | Lau | Authentication | Ciphering | Security | FreqSyncUl | FreqSyncDl | UeCapability | Handover | Reselection | Csfb | BearerSetup | BearerModify | BearerRelease | SibInfo | MibInfo | Measurement

  function Name(t: MsgType): string {
    match t
    case Rach => "RACH"
    case RrcConnection => "RRC_CONNECTION"
    case NasAttach => "NAS_ATTACH"
    case Tau => "TAU"
    case Lau => "LAU"
    case Authentication => "AUTHENTICATION"
    case Ciphering => "CIPHERING"
    case Security => "SECURITY"
    case FreqSyncUl => "FREQ_SYNC_UL"
    case FreqSyncDl => "FREQ_SYNC_DL"
    case UeCapability => "UE_CAPABILITY"
    case Handover => "HANDOVER"
    case Reselection => "RESELECTION"
    case Csfb => "CSFB"
    case BearerSetup => "BEARER_SETUP"
    case BearerModify => "BEARER_MODIFY"
    case BearerRelease => "BEARER_RELEASE"
    case SibInfo => "SIB_INFO"
    case MibInfo => "MIB_INFO"
    case Measurement => "MEASUREMENT"
  }

  const Types: seq<MsgType> := [Rach, RrcConnection, NasAttach, Tau, Lau, Authentication, Ciphering, Security, FreqSyncUl, FreqSyncDl, UeCapability, Handover, Reselection, Csfb, BearerSetup, BearerModify, BearerRelease, SibInfo, MibInfo, Measurement]

  /** The row of the pattern table that yields `t`. */
  function Row(t: MsgType): (i: nat)
    ensures i < |Types| && Types[i] == t
  {
    match t
    case Rach => 0
    case RrcConnection => 1
    case NasAttach => 2
    case Tau => 3
    case Lau => 4
    case Authentication => 5
    case Ciphering => 6
    case Security => 7
    case FreqSyncUl => 8
    case FreqSyncDl => 9
    case UeCapability => 10
    case Handover => 11
    case Reselection => 12
    case Csfb => 13
    case BearerSetup => 14
    case BearerModify => 15
    case BearerRelease => 16
    case SibInfo => 17
    case MibInfo => 18
    case Measurement => 19
  }

  lemma RowsDistinct(i: nat)
    requires i < |Types|
    ensures Row(Types[i]) == i
  {
  }

  lemma TypesDistinct()
    ensures forall a, b :: 0 <= a < b < |Types| ==> Types[a] != Types[b]
  {
    forall a, b | 0 <= a < b < |Types| ensures Types[a] != Types[b] {
      RowsDistinct(a);
      RowsDistinct(b);
    }
  }

  /** `MESSAGE_PATTERNS`: for each type the regular expressions tried in
      order, every one of the form `l0.*l1.*...`. */
  const RachPatterns: Alternation := [
    Chain(["rach", "preamble"]),
    Chain(["random", "access"]),
    Chain(["RACH", "attempt"]),
    Chain(["preamble", "transmission"]),
    Chain(["contention", "resolution"])]

  const RrcConnectionPatterns: Alternation := [
    Chain(["RRC", "connection", "request"]),
    Chain(["RRC", "connection", "setup"]),
    Chain(["RRC", "connection", "complete"]),
    Chain(["rrc", "establishment"]),
    Chain(["RRC", "connection", "release"]),
    Chain(["connection", "reconfiguration"])]

  const NasAttachPatterns: Alternation := [
    Chain(["attach", "request"]),
    Chain(["attach", "accept"]),
    Chain(["attach", "complete"]),
    Chain(["EMM", "attach"]),
    Chain(["ESM", "bearer"]),
    Chain(["attach", "reject"])]

  const TauPatterns: Alternation := [
    Chain(["tracking", "area", "update"]),
    Chain(["TAU", "request"]),
    Chain(["TAU", "accept"]),
    Chain(["TAU", "complete"]),
    Chain(["TAU", "reject"]),
    Chain(["periodic", "TAU"])]

  const LauPatterns: Alternation := [
    Chain(["location", "area", "update"]),
    Chain(["LAU", "request"]),
    Chain(["LAU", "accept"]),
    Chain(["LAU", "complete"]),
    Chain(["LAU", "reject"]),
    Chain(["periodic", "LAU"])]

  const AuthenticationPatterns: Alternation := [
    Chain(["authentication", "request"]),
    Chain(["authentication", "response"]),
    Chain(["authentication", "challenge"]),
    Chain(["AUTN"]),
    Chain(["RAND"]),
    Chain(["SRES"]),
    Chain(["authentication", "failure"]),
    Chain(["authentication", "reject"])]

  const CipheringPatterns: Alternation := [
    Chain(["security", "mode", "command"]),
    Chain(["security", "mode", "complete"]),
    Chain(["ciphering", "algorithm"]),
    Chain(["integrity", "algorithm"]),
    Chain(["security", "context"]),
    Chain(["cipher", "key"]),
    Chain(["integrity", "key"])]

  const SecurityPatterns: Alternation := [
    Chain(["security", "activation"]),
    Chain(["security", "deactivation"]),
    Chain(["security", "capability"]),
    Chain(["encryption", "started"]),
    Chain(["integrity", "protection"]),
    Chain(["security", "failure"])]

  const FreqSyncUlPatterns: Alternation := [
    Chain(["uplink", "frequency"]),
    Chain(["UL", "frequency"]),
    Chain(["uplink", "sync"]),
    Chain(["timing", "advance"]),
    Chain(["UL", "power", "control"]),
    Chain(["frequency", "offset", "UL"])]

  const FreqSyncDlPatterns: Alternation := [
    Chain(["downlink", "frequency"]),
    Chain(["DL", "frequency"]),
    Chain(["downlink", "sync"]),
    Chain(["frame", "sync"]),
    Chain(["symbol", "sync"]),
    Chain(["frequency", "offset", "DL"])]

  const UeCapabilityPatterns: Alternation := [
    Chain(["UE", "capability", "enquiry"]),
    Chain(["UE", "capability", "information"]),
    Chain(["capability", "transfer"]),
    Chain(["feature", "group", "indicator"]),
    Chain(["supported", "bands"]),
    Chain(["RF", "capability"]),
    Chain(["protocol", "capability"])]

  const HandoverPatterns: Alternation := [
    Chain(["handover", "command"]),
    Chain(["handover", "complete"]),
    Chain(["handover", "request"]),
    Chain(["HO", "preparation"]),
    Chain(["handover", "failure"]),
    Chain(["X2", "handover"]),
    Chain(["S1", "handover"]),
    Chain(["intra", "LTE", "handover"])]

  const ReselectionPatterns: Alternation := [
    Chain(["cell", "reselection"]),
    Chain(["reselection", "criteria"]),
    Chain(["neighbor", "cell", "measurement"]),
    Chain(["reselection", "priority"]),
    Chain(["inter", "frequency", "reselection"]),
    Chain(["inter", "RAT", "reselection"])]

  const CsfbPatterns: Alternation := [
    Chain(["CSFB", "procedure"]),
    Chain(["circuit", "switched", "fallback"]),
    Chain(["CSFB", "call", "setup"]),
    Chain(["CSFB", "redirection"]),
    Chain(["SRVCC"])]

  const BearerSetupPatterns: Alternation := [
    Chain(["bearer", "setup"]),
    Chain(["bearer", "establishment"]),
    Chain(["default", "bearer"]),
    Chain(["dedicated", "bearer"]),
    Chain(["EPS", "bearer"]),
    Chain(["bearer", "context"])]

  const BearerModifyPatterns: Alternation := [
    Chain(["bearer", "modification"]),
    Chain(["bearer", "update"]),
    Chain(["QoS", "update"]),
    Chain(["bearer", "reconfiguration"]),
    Chain(["TFT", "modification"])]

  const BearerReleasePatterns: Alternation := [
    Chain(["bearer", "release"]),
    Chain(["bearer", "deactivation"]),
    Chain(["bearer", "deletion"]),
    Chain(["context", "deactivation"]),
    Chain(["bearer", "cleanup"])]

  const SibInfoPatterns: Alternation := [
    Chain(["SIB", "1"]),
    Chain(["SIB", "2"]),
    Chain(["SIB", "3"]),
    Chain(["SIB", "4"]),
    Chain(["SIB", "5"]),
    Chain(["system", "information", "block"]),
    Chain(["SIB", "reception"]),
    Chain(["SIB", "decoding"]),
    Chain(["SIB", "update"]),
    Chain(["SIB", "scheduling"])]

  const MibInfoPatterns: Alternation := [
    Chain(["MIB", "reception"]),
    Chain(["master", "information", "block"]),
    Chain(["MIB", "decoding"]),
    Chain(["PBCH", "decoding"]),
    Chain(["system", "frame", "number"])]

  const MeasurementPatterns: Alternation := [
    Chain(["RSRP", "measurement"]),
    Chain(["RSRQ", "measurement"]),
    Chain(["SINR", "measurement"]),
    Chain(["serving", "cell", "measurement"]),
    Chain(["neighbor", "cell", "measurement"]),
    Chain(["measurement", "report"]),
    Chain(["measurement", "configuration"])]

  const AsWrittenPatterns: seq<Alternation> := [
    RachPatterns,
    RrcConnectionPatterns,
    NasAttachPatterns,
    TauPatterns,
    LauPatterns,
    AuthenticationPatterns,
    CipheringPatterns,
    SecurityPatterns,
    FreqSyncUlPatterns,
    FreqSyncDlPatterns,
    UeCapabilityPatterns,
    HandoverPatterns,
    ReselectionPatterns,
    CsfbPatterns,
    BearerSetupPatterns,
    BearerModifyPatterns,
    BearerReleasePatterns,
    SibInfoPatterns,
    MibInfoPatterns,
    MeasurementPatterns]

  /** `_detect_message_type` as written: the text is lower-cased but searched
      case-sensitively, so an alternative with an upper-case letter never
      fires. */
  function DetectAsWritten(message: string): (r: Option<MsgType>)
    ensures r.Some? <==> exists i :: 0 <= i < |AsWrittenPatterns| && Matches(Lower(message), AsWrittenPatterns[i], false)
  {
    Pick(Lower(message), AsWrittenPatterns, false, Types)
  }

  /** The detection the patterns are written for: every alternative compared
      without regard to case. */
  function Detect(message: string): (r: Option<MsgType>)
    ensures r.Some? <==> exists i :: 0 <= i < |AsWrittenPatterns| && Matches(message, AsWrittenPatterns[i], true)
  {
    Pick(message, AsWrittenPatterns, true, Types)
  }

  /** A message gets type `t` exactly when a pattern of `t` matches and no
      pattern of an earlier type does. */
  lemma DetectIff(message: string, t: MsgType)
    ensures Detect(message) == Some(t)
            <==> Matches(message, AsWrittenPatterns[Row(t)], true)
                 && forall j :: 0 <= j < Row(t) ==> !Matches(message, AsWrittenPatterns[j], true)
  {
    TypesDistinct();
    PickIff(message, AsWrittenPatterns, true, Types, Row(t));
  }

  /** As written, an alternative holding an upper-case letter never holds on
      the lower-cased text. */
  lemma UpperAlternativeNeverHolds(message: string, ls: seq<string>, k: nat)
    requires k < |ls| && HasUpper(ls[k])
    ensures !Holds(Lower(message), Chain(ls), false)
  {
    SearchLoweredFails(message, ls, k);
  }

  /** An alternative written in lower case holds on the lower-cased text
      exactly when it holds without regard to case: the two detections only
      differ on the alternatives with upper-case letters. */
  lemma LowerAlternativeAgrees(message: string, ls: seq<string>)
    requires forall k :: 0 <= k < |ls| ==> !HasUpper(ls[k])
    ensures Holds(Lower(message), Chain(ls), false) <==> Holds(message, Chain(ls), true)
  {
    forall k | 0 <= k < |ls| ensures Lower(ls[k]) == ls[k] {
      LowerOfLowerCase(ls[k]);
    }
    assert seq(|ls|, k requires 0 <= k < |ls| => Lower(ls[k])) == ls;
  }

  /** An alternative fails without regard to case when one of its
      lower-case literals is missing from the lower-cased text. */
  lemma LowerLiteralMissing(message: string, ls: seq<string>, k: nat)
    requires k < |ls| && !HasUpper(ls[k]) && !Contains(Lower(message), ls[k])
    ensures !Holds(message, Chain(ls), true)
  {
    var lowered := seq(|ls|, i requires 0 <= i < |ls| => Lower(ls[i]));
    LowerOfLowerCase(ls[k]);
    if Search(Lower(message), lowered) {
      SearchContains(Lower(message), lowered, k);
    }
  }

  /** As written, the RRC_CONNECTION row only matches through its two
      lower-case alternatives, `rrc.*establishment` and
      `connection.*reconfiguration`. */
  lemma RrcRowAsWritten(message: string)
    ensures Matches(Lower(message), RrcConnectionPatterns, false)
            ==> Holds(Lower(message), Chain(["rrc", "establishment"]), false)
                || Holds(Lower(message), Chain(["connection", "reconfiguration"]), false)
  {
    var row := RrcConnectionPatterns;
    forall j | 0 <= j < |row| && j != 3 && j != 5 ensures !Holds(Lower(message), row[j], false) {
      assert IsUpper(row[j].ls[0][0]);
      UpperAlternativeNeverHolds(message, row[j].ls, 0);
    }
  }

  /** "connection" and "request" sit at positions 4 and 15 of the text. */
  lemma RequestTailPlaced()
    ensures PlacedFrom("rrc connection request", ["rrc", "connection", "request"], [0, 4, 15], 1, 3)
  {
    var t, ls, pos := "rrc connection request", ["rrc", "connection", "request"], [0, 4, 15];
    assert PlacedFrom(t, ls, pos, 3, 22);
    assert MatchFrom(t, ls[2], 15, 0);
    assert PlacedFrom(t, ls, pos, 2, 14);
    assert MatchFrom(t, ls[1], 4, 0);
  }

  /** The lower-case literals of `RRC.*connection.*request` occur in order
      in the text `rrc connection request`. */
  lemma RequestTextInOrder()
    ensures Search("rrc connection request", ["rrc", "connection", "request"])
  {
    var t, ls, pos := "rrc connection request", ["rrc", "connection", "request"], [0, 4, 15];
    assert t == "rrc " + "connection " + "request";
    assert '\n' !in "rrc " && '\n' !in "connection " && '\n' !in "request";
    RequestTailPlaced();
    assert MatchFrom(t, ls[0], 0, 0);
    assert PlacedFrom(t, ls, pos, 0, 0);
    PlacedInOrder(t, ls, pos, 0, 0);
    SearchWhole(t, ls);
  }

  lemma RequestTextLowerCase()
    ensures Lower("rrc connection request") == "rrc connection request"
  {
    assert "rrc connection request" == "rrc " + "connection " + "request";
    assert Lower("rrc ") == "rrc ";
    assert Lower("connection ") == "connection ";
    assert Lower("request") == "request";
    LowerConcat("rrc ", "connection ");
    LowerConcat("rrc " + "connection ", "request");
  }

  lemma RequestLiteralsLowered()
    ensures Lower("RRC") == "rrc" && Lower("connection") == "connection" && Lower("request") == "request"
  {
  }

  /** Without regard to case, `RRC.*connection.*request` finds the text
      `rrc connection request`. */
  lemma RequestHoldsIgnoringCase()
    ensures Holds("rrc connection request", Chain(["RRC", "connection", "request"]), true)
  {
    RequestTextInOrder();
    RequestTextLowerCase();
    RequestLiteralsLowered();
    var ls := ["RRC", "connection", "request"];
    assert seq(|ls|, k requires 0 <= k < |ls| => Lower(ls[k])) == ["rrc", "connection", "request"];
  }

  /** As written, the capital `RRC` never occurs in lower-cased text. */
  lemma RequestMissedAsWritten()
    ensures !Holds(Lower("rrc connection request"), Chain(["RRC", "connection", "request"]), false)
  {
    var ls := ["RRC", "connection", "request"];
    assert IsUpper(ls[0][0]);
    UpperAlternativeNeverHolds("rrc connection request", ls, 0);
  }

  /** The text `rrc connection request` satisfies `RRC.*connection.*request`
      without regard to case, but not as written. */
  lemma RrcRequestMissed()
    ensures Holds("rrc connection request", Chain(["RRC", "connection", "request"]), true)
    ensures !Holds(Lower("rrc connection request"), Chain(["RRC", "connection", "request"]), false)
  {
    RequestHoldsIgnoringCase();
    RequestMissedAsWritten();
  }

  /** The RACH row fails on `rrc connection request` without regard to case:
      each of its alternatives needs a letter the text lacks. */
  lemma RequestNoRach()
    ensures !Matches("rrc connection request", RachPatterns, true)
  {
    var m := "rrc connection request";
    RequestTextLowerCase();
    assert 'a' !in m && 'l' !in m;
    MissingChar(m, "random", 1);
    MissingChar(m, "preamble", 3);
    MissingChar(m, "attempt", 0);
    MissingChar(m, "resolution", 4);
    LowerLiteralMissing(m, ["rach", "preamble"], 1);
    LowerLiteralMissing(m, ["random", "access"], 0);
    LowerLiteralMissing(m, ["RACH", "attempt"], 1);
    LowerLiteralMissing(m, ["preamble", "transmission"], 0);
    LowerLiteralMissing(m, ["contention", "resolution"], 1);
  }

  /** On the text `rrc connection request` the detector as written finds no
      RRC_CONNECTION message, while the case-insensitive detector does. */
  lemma RrcRequestDetection()
    ensures DetectAsWritten("rrc connection request") != Some(RrcConnection)
    ensures Detect("rrc connection request") == Some(RrcConnection)
  {
    RequestMissedByDetector();
    RequestFoundIgnoringCase();
  }

  lemma RequestMissedByDetector()
    ensures DetectAsWritten("rrc connection request") != Some(RrcConnection)
  {
    var m := "rrc connection request";
    TypesDistinct();
    assert Types[1] == RrcConnection && AsWrittenPatterns[1] == RrcConnectionPatterns;
    PickIff(Lower(m), AsWrittenPatterns, false, Types, 1);
    RequestRowMissedAsWritten();
  }

  /** As written, no alternative of the RRC_CONNECTION row finds the
      lower-cased text: the two lower-case ones need a `b` or an `f`. */
  lemma RequestRowMissedAsWritten()
    ensures !Matches(Lower("rrc connection request"), RrcConnectionPatterns, false)
  {
    var m := "rrc connection request";
    RequestTextLowerCase();
    RrcRowAsWritten(m);
    assert 'b' !in m && 'f' !in m;
    MissingChar(m, "establishment", 4);
    MissingChar(m, "reconfiguration", 5);
    if Search(m, ["rrc", "establishment"]) {
      SearchContains(m, ["rrc", "establishment"], 1);
    }
    if Search(m, ["connection", "reconfiguration"]) {
      SearchContains(m, ["connection", "reconfiguration"], 1);
    }
  }

  lemma RequestFoundIgnoringCase()
    ensures Detect("rrc connection request") == Some(RrcConnection)
  {
    var m := "rrc connection request";
    RequestHoldsIgnoringCase();
    assert Holds(m, RrcConnectionPatterns[0], true);
    RequestNoRach();
    assert Row(RrcConnection) == 1;
    DetectIff(m, RrcConnection);
  }

  // ------------------------------------------------------- parse_message

  /** The fields of the structured message that the model keeps; the time
      stamp and the extracted measurement, procedure, security and frequency
      dictionaries are not part of this model. */
  datatype Parsed = Parsed(
    messageType: string,
    subsystemId: Option<string>,
    subsystemName: string,
    rawMessage: string)

  /** The subsystem name of a message: `UNKNOWN` without an id. */
  function SubsystemOf(raw: string): string {
    var id := SubsystemId(raw);
    if id.Some? then SubsystemName(id.value) else "UNKNOWN"
  }

  /** Which detector a parser runs: `_detect_message_type` as written, or
      the case-insensitive one its patterns are written for. */
  datatype Detection = AsWritten | IgnoringCase

  function DetectWith(d: Detection, message: string): Option<MsgType> {
    if d == AsWritten then DetectAsWritten(message) else Detect(message)
  }

  /** `parse_message(raw)` with detector `d`: a result when a type is
      detected or a non-zero subsystem id is present
      (`if message_type or subsystem_id`). */
  function Parse(raw: string, d: Detection): (r: Option<Parsed>)
    ensures r.None? <==> DetectWith(d, raw).None? && (SubsystemId(raw).None? || SubsystemId(raw) == Some(0))
    ensures r.Some? ==> r.value.subsystemName == SubsystemOf(raw)
    ensures r.Some? ==> (r.value.messageType == "CELLULAR_DEBUG" <==> DetectWith(d, raw).None?)
    ensures r.Some? && DetectWith(d, raw).Some? ==> r.value.messageType == Name(DetectWith(d, raw).value)
    ensures r.Some? ==> (r.value.subsystemId.Some? <==> SubsystemId(raw).Some? && SubsystemId(raw).value != 0)
  {
    var id := SubsystemId(raw);
    var t := DetectWith(d, raw);
    NoTypeIsCellularDebug();
    if t.None? && (id.None? || id.value == 0) then None
    else
      Some(Parsed(
        if t.Some? then Name(t.value) else "CELLULAR_DEBUG",
        if id.Some? && id.value != 0 then Some("0x" + Hex4(id.value)) else None,
        SubsystemOf(raw),
        Strip(raw)))
  }

  lemma NoTypeIsCellularDebug()
    ensures forall t :: Name(t) != "CELLULAR_DEBUG"
  {
  }

  /** A reported subsystem id is `0x` and the four upper-case hexadecimal
      digits of the id found in the text. */
  lemma ParsedSubsystemId(raw: string, d: Detection)
    requires Parse(raw, d).Some? && Parse(raw, d).value.subsystemId.Some?
    ensures |Parse(raw, d).value.subsystemId.value| == 6
    ensures Parse(raw, d).value.subsystemId.value[..2] == "0x"
    ensures HexDigitsValue(Parse(raw, d).value.subsystemId.value[2..]) == SubsystemId(raw).value
  {
    var id := SubsystemId(raw).value;
    assert Parse(raw, d).value.subsystemId.value[2..] == Hex4(id);
    Hex4Value(id);
  }

  // ------------------------------------------- counters and procedure states

  /** `_update_counters(message_type, subsystem)`. */
  function CountersAfter(counts: map<string, nat>, t: Option<MsgType>, subsystem: string): map<string, nat> {
    var c := if t.Some? then Inc(counts, Name(t.value)) else counts;
    Inc(c, "subsystem_" + subsystem)
  }

  /** Each parsed message raises its type's count when it has one and its
      subsystem's count, and no other. */
  lemma CountersAfterGet(counts: map<string, nat>, t: Option<MsgType>, subsystem: string, k: string)
    ensures Get(CountersAfter(counts, t, subsystem), k)
            == Get(counts, k) + (if t.Some? && k == Name(t.value) then 1 else 0)
               + (if k == "subsystem_" + subsystem then 1 else 0)
  {
  }

  predicate Procedural(name: string) {
    Contains(name, "REQUEST") || Contains(name, "ATTEMPT") || Contains(name, "COMPLETE")
    || Contains(name, "ACCEPT") || Contains(name, "FAILURE") || Contains(name, "REJECT")
  }

  /** `_update_procedure_states(message_type, procedure_info)`. */
  function StatesAfter(states: map<string, nat>, t: Option<string>): (r: map<string, nat>)
    ensures t.None? || !Procedural(t.value) ==> r == states
  {
    if t.None? then states
    else if Contains(t.value, "REQUEST") || Contains(t.value, "ATTEMPT") then Inc(states, t.value + "_attempts")
    else if Contains(t.value, "COMPLETE") || Contains(t.value, "ACCEPT") then Inc(states, t.value + "_success")
    else if Contains(t.value, "FAILURE") || Contains(t.value, "REJECT") then Inc(states, t.value + "_failures")
    else states
  }

  lemma CapabilityIsNoAccept()
    ensures !Contains("UE_CAPABILITY", "ACCEPT")
  {
    forall i | 0 <= i <= 7 ensures !OccursAt("UE_CAPABILITY", "ACCEPT", i) {
      var w := "UE_CAPABILITY"[i..i + 6];
      assert w[0] != 'A' || w[1] != 'C';
    }
  }

  lemma NoTypeContainsRequest(t: MsgType)
    ensures !Contains(Name(t), "REQUEST")
  {
    match t
    case Rach => MissingChar("RACH", "REQUEST", 1);
    case RrcConnection => MissingChar("RRC_CONNECTION", "REQUEST", 2);
    case NasAttach => MissingChar("NAS_ATTACH", "REQUEST", 0);
    case Tau => MissingChar("TAU", "REQUEST", 0);
    case Lau => MissingChar("LAU", "REQUEST", 0);
    case Authentication => MissingChar("AUTHENTICATION", "REQUEST", 0);
    case Ciphering => MissingChar("CIPHERING", "REQUEST", 2);
    case Security => MissingChar("SECURITY", "REQUEST", 2);
    case FreqSyncUl => MissingChar("FREQ_SYNC_UL", "REQUEST", 6);
    case FreqSyncDl => MissingChar("FREQ_SYNC_DL", "REQUEST", 3);
    case UeCapability => MissingChar("UE_CAPABILITY", "REQUEST", 0);
    case Handover => MissingChar("HANDOVER", "REQUEST", 2);
    case Reselection => MissingChar("RESELECTION", "REQUEST", 2);
    case Csfb => MissingChar("CSFB", "REQUEST", 0);
    case BearerSetup => MissingChar("BEARER_SETUP", "REQUEST", 2);
    case BearerModify => MissingChar("BEARER_MODIFY", "REQUEST", 2);
    case BearerRelease => MissingChar("BEARER_RELEASE", "REQUEST", 2);
    case SibInfo => MissingChar("SIB_INFO", "REQUEST", 0);
    case MibInfo => MissingChar("MIB_INFO", "REQUEST", 0);
    case Measurement => MissingChar("MEASUREMENT", "REQUEST", 2);
  }

  lemma NoTypeContainsAttempt(t: MsgType)
    ensures !Contains(Name(t), "ATTEMPT")
  {
    match t
    case Rach => MissingChar("RACH", "ATTEMPT", 1);
    case RrcConnection => MissingChar("RRC_CONNECTION", "ATTEMPT", 0);
    case NasAttach => MissingChar("NAS_ATTACH", "ATTEMPT", 3);
    case Tau => MissingChar("TAU", "ATTEMPT", 3);
    case Lau => MissingChar("LAU", "ATTEMPT", 1);
    case Authentication => MissingChar("AUTHENTICATION", "ATTEMPT", 4);
    case Ciphering => MissingChar("CIPHERING", "ATTEMPT", 0);
    case Security => MissingChar("SECURITY", "ATTEMPT", 0);
    case FreqSyncUl => MissingChar("FREQ_SYNC_UL", "ATTEMPT", 0);
    case FreqSyncDl => MissingChar("FREQ_SYNC_DL", "ATTEMPT", 0);
    case UeCapability => MissingChar("UE_CAPABILITY", "ATTEMPT", 4);
    case Handover => MissingChar("HANDOVER", "ATTEMPT", 1);
    case Reselection => MissingChar("RESELECTION", "ATTEMPT", 0);
    case Csfb => MissingChar("CSFB", "ATTEMPT", 0);
    case BearerSetup => MissingChar("BEARER_SETUP", "ATTEMPT", 4);
    case BearerModify => MissingChar("BEARER_MODIFY", "ATTEMPT", 1);
    case BearerRelease => MissingChar("BEARER_RELEASE", "ATTEMPT", 1);
    case SibInfo => MissingChar("SIB_INFO", "ATTEMPT", 0);
    case MibInfo => MissingChar("MIB_INFO", "ATTEMPT", 0);
    case Measurement => MissingChar("MEASUREMENT", "ATTEMPT", 5);
  }

  lemma NoTypeContainsComplete(t: MsgType)
    ensures !Contains(Name(t), "COMPLETE")
  {
    match t
    case Rach => MissingChar("RACH", "COMPLETE", 1);
    case RrcConnection => MissingChar("RRC_CONNECTION", "COMPLETE", 2);
    case NasAttach => MissingChar("NAS_ATTACH", "COMPLETE", 1);
    case Tau => MissingChar("TAU", "COMPLETE", 0);
    case Lau => MissingChar("LAU", "COMPLETE", 0);
    case Authentication => MissingChar("AUTHENTICATION", "COMPLETE", 2);
    case Ciphering => MissingChar("CIPHERING", "COMPLETE", 1);
    case Security => MissingChar("SECURITY", "COMPLETE", 1);
    case FreqSyncUl => MissingChar("FREQ_SYNC_UL", "COMPLETE", 1);
    case FreqSyncDl => MissingChar("FREQ_SYNC_DL", "COMPLETE", 1);
    case UeCapability => MissingChar("UE_CAPABILITY", "COMPLETE", 1);
    case Handover => MissingChar("HANDOVER", "COMPLETE", 0);
    case Reselection => MissingChar("RESELECTION", "COMPLETE", 2);
    case Csfb => MissingChar("CSFB", "COMPLETE", 1);
    case BearerSetup => MissingChar("BEARER_SETUP", "COMPLETE", 0);
    case BearerModify => MissingChar("BEARER_MODIFY", "COMPLETE", 0);
    case BearerRelease => MissingChar("BEARER_RELEASE", "COMPLETE", 0);
    case SibInfo => MissingChar("SIB_INFO", "COMPLETE", 0);
    case MibInfo => MissingChar("MIB_INFO", "COMPLETE", 0);
    case Measurement => MissingChar("MEASUREMENT", "COMPLETE", 0);
  }

  lemma NoTypeContainsAccept(t: MsgType)
    ensures !Contains(Name(t), "ACCEPT")
  {
    match t
    case Rach => MissingChar("RACH", "ACCEPT", 3);
    case RrcConnection => MissingChar("RRC_CONNECTION", "ACCEPT", 0);
    case NasAttach => MissingChar("NAS_ATTACH", "ACCEPT", 3);
    case Tau => MissingChar("TAU", "ACCEPT", 1);
    case Lau => MissingChar("LAU", "ACCEPT", 1);
    case Authentication => MissingChar("AUTHENTICATION", "ACCEPT", 4);
    case Ciphering => MissingChar("CIPHERING", "ACCEPT", 0);
    case Security => MissingChar("SECURITY", "ACCEPT", 0);
    case FreqSyncUl => MissingChar("FREQ_SYNC_UL", "ACCEPT", 0);
    case FreqSyncDl => MissingChar("FREQ_SYNC_DL", "ACCEPT", 0);
    case UeCapability => CapabilityIsNoAccept();
    case Handover => MissingChar("HANDOVER", "ACCEPT", 1);
    case Reselection => MissingChar("RESELECTION", "ACCEPT", 0);
    case Csfb => MissingChar("CSFB", "ACCEPT", 0);
    case BearerSetup => MissingChar("BEARER_SETUP", "ACCEPT", 1);
    case BearerModify => MissingChar("BEARER_MODIFY", "ACCEPT", 1);
    case BearerRelease => MissingChar("BEARER_RELEASE", "ACCEPT", 1);
    case SibInfo => MissingChar("SIB_INFO", "ACCEPT", 0);
    case MibInfo => MissingChar("MIB_INFO", "ACCEPT", 0);
    case Measurement => MissingChar("MEASUREMENT", "ACCEPT", 1);
  }

  lemma NoTypeContainsFailure(t: MsgType)
    ensures !Contains(Name(t), "FAILURE")
  {
    match t
    case Rach => MissingChar("RACH", "FAILURE", 0);
    case RrcConnection => MissingChar("RRC_CONNECTION", "FAILURE", 0);
    case NasAttach => MissingChar("NAS_ATTACH", "FAILURE", 0);
    case Tau => MissingChar("TAU", "FAILURE", 0);
    case Lau => MissingChar("LAU", "FAILURE", 0);
    case Authentication => MissingChar("AUTHENTICATION", "FAILURE", 0);
    case Ciphering => MissingChar("CIPHERING", "FAILURE", 0);
    case Security => MissingChar("SECURITY", "FAILURE", 0);
    case FreqSyncUl => MissingChar("FREQ_SYNC_UL", "FAILURE", 1);
    case FreqSyncDl => MissingChar("FREQ_SYNC_DL", "FAILURE", 1);
    case UeCapability => MissingChar("UE_CAPABILITY", "FAILURE", 0);
    case Handover => MissingChar("HANDOVER", "FAILURE", 0);
    case Reselection => MissingChar("RESELECTION", "FAILURE", 0);
    case Csfb => MissingChar("CSFB", "FAILURE", 1);
    case BearerSetup => MissingChar("BEARER_SETUP", "FAILURE", 0);
    case BearerModify => MissingChar("BEARER_MODIFY", "FAILURE", 3);
    case BearerRelease => MissingChar("BEARER_RELEASE", "FAILURE", 0);
    case SibInfo => MissingChar("SIB_INFO", "FAILURE", 1);
    case MibInfo => MissingChar("MIB_INFO", "FAILURE", 1);
    case Measurement => MissingChar("MEASUREMENT", "FAILURE", 0);
  }

  lemma NoTypeContainsReject(t: MsgType)
    ensures !Contains(Name(t), "REJECT")
  {
    MissingChar(Name(t), "REJECT", 2);
  }

  /** No message type names a request, attempt, completion, acceptance,
      failure or rejection. */
  lemma TypesAreNoProcedures(t: MsgType)
    ensures !Procedural(Name(t))
  {
    NoTypeContainsRequest(t);
    NoTypeContainsAttempt(t);
    NoTypeContainsComplete(t);
    NoTypeContainsAccept(t);
    NoTypeContainsFailure(t);
    NoTypeContainsReject(t);
  }

  /** So the procedure states never change. */
  lemma StatesNeverChange(states: map<string, nat>, t: Option<MsgType>)
    ensures StatesAfter(states, if t.Some? then Some(Name(t.value)) else None) == states
  {
    if t.Some? {
      TypesAreNoProcedures(t.value);
    }
  }

  /** The parser's counters. */
  datatype Parser = Parser(messageCounts: map<string, nat>, procedureStates: map<string, nat>)

  const InitialParser := Parser(map[], map[])

  /** `parse_message` on the counters: an ignored message changes nothing. */
  function Step(p: Parser, raw: string, d: Detection): Parser {
    if Parse(raw, d).None? then p
    else
      var t := DetectWith(d, raw);
      Parser(CountersAfter(p.messageCounts, t, SubsystemOf(raw)),
             StatesAfter(p.procedureStates, if t.Some? then Some(Name(t.value)) else None))
  }

  /** A counter key is a message type or `subsystem_` and a subsystem. */
  ghost predicate CounterKey(k: string) {
    (exists t :: k == Name(t)) || StartsWith(k, "subsystem_")
  }

  ghost predicate Reachable(p: Parser) {
    p.procedureStates == map[] && forall k :: k in p.messageCounts ==> CounterKey(k)
  }

  lemma CountersKeepKeys(counts: map<string, nat>, t: Option<MsgType>, subsystem: string)
    requires forall k :: k in counts ==> CounterKey(k)
    ensures forall k :: k in CountersAfter(counts, t, subsystem) ==> CounterKey(k)
  {
    var key := "subsystem_" + subsystem;
    assert StartsWith(key, "subsystem_") by {
      assert key[..10] == "subsystem_";
    }
  }

  /** From the initial state, the procedure states stay empty and every
      counter counts a message type or a subsystem. */
  lemma StepKeepsReachable(p: Parser, raw: string, d: Detection)
    requires Reachable(p)
    ensures Reachable(Step(p, raw, d))
  {
    if Parse(raw, d).Some? {
      var t := DetectWith(d, raw);
      StatesNeverChange(p.procedureStates, t);
      CountersKeepKeys(p.messageCounts, t, SubsystemOf(raw));
    }
  }

  // ----------------------------------------------------------- get_metrics

  datatype Metric = Count(n: nat) | Percent(p: real)

  /** The procedures whose success rate the metrics report. */
  const RateProcedures: seq<string> := ["RACH", "RRC_CONNECTION", "NAS_ATTACH", "HANDOVER", "TAU"]

  /** `message_counts.copy()` updated with `procedure_states`. */
  function Merged(p: Parser): map<string, nat> {
    p.messageCounts + p.procedureStates
  }

  /** The rate of one procedure, added only when it has attempts. */
  function AddRate(m: map<string, Metric>, merged: map<string, nat>, proc: string): map<string, Metric> {
    var attempts := Get(merged, proc + "_attempts");
    if attempts > 0 then
      m[proc + "_success_rate" := Percent(Rates.Rate(Get(merged, proc + "_success"), attempts))]
    else m
  }

  /** The rates of the first `n` procedures added to the counts. */
  function RatesUpTo(p: Parser, n: nat): map<string, Metric>
    requires n <= |RateProcedures|
  {
    if n == 0 then map k | k in Merged(p) :: Count(Merged(p)[k])
    else AddRate(RatesUpTo(p, n - 1), Merged(p), RateProcedures[n - 1])
  }

  /** `get_metrics()`. */
  function Metrics(p: Parser): map<string, Metric> {
    RatesUpTo(p, |RateProcedures|)
  }

  /** A procedure's rate key is present exactly when that key was a counter
      already or the procedure has attempts; its value is then
      `success / attempts * 100`. */
  lemma {:induction false} RateKeyIff(p: Parser, n: nat, i: nat)
    requires n <= |RateProcedures| && i < |RateProcedures|
    ensures var key := RateProcedures[i] + "_success_rate";
            key in RatesUpTo(p, n)
            <==> key in Merged(p) || (i < n && Get(Merged(p), RateProcedures[i] + "_attempts") > 0)
    ensures var attempts := Get(Merged(p), RateProcedures[i] + "_attempts");
            i < n && attempts > 0 ==> RatesUpTo(p, n)[RateProcedures[i] + "_success_rate"]
                                      == Percent(Rates.Rate(Get(Merged(p), RateProcedures[i] + "_success"), attempts))
    decreases n
  {
    RateKeysDistinct();
    if n > 0 {
      RateKeyIff(p, n - 1, i);
    }
  }

  lemma RateKeysDistinct()
    ensures forall a, b :: 0 <= a < b < |RateProcedures| ==> RateProcedures[a] + "_success_rate" != RateProcedures[b] + "_success_rate"
  {
  }

  /** No message type is the attempt key of a rate procedure. */
  lemma AttemptKeysAreNoCounters(i: nat)
    requires i < |RateProcedures|
    ensures !CounterKey(RateProcedures[i] + "_attempts")
  {
    var key := RateProcedures[i] + "_attempts";
    assert key[|RateProcedures[i]| + 1] == 'a';
    assert 'a' in key;
    forall t ensures key != Name(t) {
      NameWithoutA(t);
    }
    assert key[0] != 's';
  }

  /** The message type names are written in capitals, so none holds the
      `a` of `_attempts`. */
  lemma NameWithoutA(t: MsgType)
    ensures 'a' !in Name(t)
  {
  }

  /** Since the procedure states stay empty and no counter is an attempt
      key, the metrics of a running parser never report a success rate
      that was not already a counter. */
  lemma NoRatesReported(p: Parser, i: nat)
    requires Reachable(p) && i < |RateProcedures|
    ensures Get(Merged(p), RateProcedures[i] + "_attempts") == 0
    ensures RateProcedures[i] + "_success_rate" in Metrics(p) <==> RateProcedures[i] + "_success_rate" in p.messageCounts
  {
    AttemptKeysAreNoCounters(i);
    RateKeyIff(p, |RateProcedures|, i);
  }

  // ------------------------------------------------------------ the parser

  class TelecomMessageParser {
    /** `AsWritten` for `_detect_message_type` as it stands. */
    const detection: Detection
    var messageCounts: map<string, nat>
    var procedureStates: map<string, nat>

    function State(): Parser
      reads this
    {
      Parser(messageCounts, procedureStates)
    }

    constructor (detection: Detection)
      ensures this.detection == detection && State() == InitialParser
    {
      this.detection := detection;
      messageCounts, procedureStates := map[], map[];
    }

    /** `parse_message(raw_message)`. */
    method ParseMessage(raw: string) returns (r: Option<Parsed>)
      modifies this
      ensures r == Parse(raw, detection)
      ensures State() == Step(old(State()), raw, detection)
    {
      r := Parse(raw, detection);
      if r.Some? {
        var t := DetectWith(detection, raw);
        UpdateCounters(t, r.value.subsystemName);
        UpdateProcedureStates(if t.Some? then Some(Name(t.value)) else None);
      }
    }

    /** `_update_counters`. */
    method UpdateCounters(t: Option<MsgType>, subsystem: string)
      modifies this
      ensures messageCounts == CountersAfter(old(messageCounts), t, subsystem)
      ensures procedureStates == old(procedureStates)
    {
      if t.Some? {
        messageCounts := Inc(messageCounts, Name(t.value));
      }
      messageCounts := Inc(messageCounts, "subsystem_" + subsystem);
    }

    /** `_update_procedure_states`. */
    method UpdateProcedureStates(t: Option<string>)
      modifies this
      ensures procedureStates == StatesAfter(old(procedureStates), t)
      ensures messageCounts == old(messageCounts)
    {
      if t.Some? {
        var name := t.value;
        if Contains(name, "REQUEST") || Contains(name, "ATTEMPT") {
          procedureStates := Inc(procedureStates, name + "_attempts");
        } else if Contains(name, "COMPLETE") || Contains(name, "ACCEPT") {
          procedureStates := Inc(procedureStates, name + "_success");
        } else if Contains(name, "FAILURE") || Contains(name, "REJECT") {
          procedureStates := Inc(procedureStates, name + "_failures");
        }
      }
    }

    /** `get_metrics()`: the loop over the rate procedures. */
    method GetMetrics() returns (metrics: map<string, Metric>)
      ensures metrics == Metrics(State())
    {
      var merged := messageCounts + procedureStates;
      metrics := map k | k in merged :: Count(merged[k]);
      var i := 0;
      while i < |RateProcedures|
        invariant 0 <= i <= |RateProcedures|
        invariant metrics == RatesUpTo(State(), i)
      {
        var proc := RateProcedures[i];
        var attempts := Get(merged, proc + "_attempts");
        if attempts > 0 {
          metrics := metrics[proc + "_success_rate" := Percent(Rates.Rate(Get(merged, proc + "_success"), attempts))];
        }
        i := i + 1;
      }
    }
  }
}
