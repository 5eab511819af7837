/** `EnhancedKpiExtractionService`: counts the packets tshark selects with
    one display filter per procedure step, reads frame numbers and times
    for a few of them, and turns the counts into guarded success rates. */
module EnhancedKpiExtraction {
  import opened Wrappers
  import opened Text
  import opened JavaInt
  import Rates

  /** `EventDetail(frameNumber, timestamp)`. */
  datatype EventDetail = EventDetail(frameNumber: Int32, timestamp: real)

  // --------------------------------------------------------- countPackets

  /** A line that `trim()` empties: every character is at most a space
      (`Text.TrimEmpty`). */
  predicate Blank(line: string) {
    forall i :: 0 <= i < |line| ==> line[i] <= ' '
  }

  /** A line `countPackets` counts: not blank once trimmed, and not starting
      with "Cannot" (checked on the untrimmed line). */
  predicate Counted(line: string) {
    !Blank(line) && !StartsWith(line, "Cannot")
  }

  function CountedLines(lines: seq<string>): (n: nat)
    ensures n <= |lines|
  {
    if lines == [] then 0 else (if Counted(lines[0]) then 1 else 0) + CountedLines(lines[1..])
  }

  /** The count for one tshark run: `None` stands for a process that could
      not be started, where the exception handler returns 0. */
  function PacketCount(output: Option<seq<string>>): nat {
    match output
    case None => 0
    case Some(lines) => CountedLines(lines)
  }

  /** `countPackets`, given the lines `readLine` returns. */
  method CountPackets(output: Option<seq<string>>) returns (count: int)
    ensures count == PacketCount(output)
  {
    if output.None? {
      return 0;
    }
    var lines := output.value;
    count := 0;
    var i := 0;
    while i < |lines|
      invariant 0 <= i <= |lines|
      invariant count + CountedLines(lines[i..]) == CountedLines(lines)
    {
      var line := lines[i];
      assert lines[i..][0] == line && lines[i..][1..] == lines[i + 1..];
      TrimEmpty(line);
      if Trim(line) != [] && !StartsWith(line, "Cannot") {
        count := count + 1;
      }
      i := i + 1;
    }
    assert lines[i..] == [];
  }

  /** Counting splits over concatenated outputs. */
  lemma {:induction false} CountedAppend(a: seq<string>, b: seq<string>)
    ensures CountedLines(a + b) == CountedLines(a) + CountedLines(b)
    decreases |a|
  {
    if a == [] {
      assert a + b == b;
    } else {
      assert (a + b)[0] == a[0];
      assert (a + b)[1..] == a[1..] + b;
      CountedAppend(a[1..], b);
    }
  }

  /** A line adds one to the count exactly when it is counted, wherever it
      stands: blank lines and "Cannot" lines are ignored. */
  lemma OneLine(a: seq<string>, line: string, b: seq<string>)
    ensures CountedLines(a + [line] + b) == CountedLines(a + b) + (if Counted(line) then 1 else 0)
  {
    CountedAppend(a + [line], b);
    CountedAppend(a, [line]);
    CountedAppend(a, b);
  }

  /** Every line is counted exactly when none is blank or a "Cannot" line. */
  lemma {:induction false} AllCounted(lines: seq<string>)
    ensures CountedLines(lines) == |lines| <==> forall i :: 0 <= i < |lines| ==> Counted(lines[i])
    decreases |lines|
  {
    if lines != [] {
      var rest := lines[1..];
      AllCounted(rest);
      if forall i :: 0 <= i < |lines| ==> Counted(lines[i]) {
        forall i | 0 <= i < |rest|
          ensures Counted(rest[i])
        {
          assert rest[i] == lines[i + 1];
        }
      } else {
        var i :| 0 <= i < |lines| && !Counted(lines[i]);
        if i > 0 {
          assert rest[i - 1] == lines[i];
        }
      }
    }
  }

  // ----------------------------------------------------- getPacketDetails

  /** What one line yields: nothing, a detail, or an exception from
      `parseInt` or `parseDouble`. */
  datatype LineResult = Skipped | Parsed(detail: EventDetail) | Failed

  /** One line of the details loop: counted lines with at least two
      `|`-separated parts give the frame number and the epoch time. */
  function ParseLine(line: string, parseDouble: string -> Option<real>): (r: LineResult)
    ensures r != Skipped ==> Counted(line) && |JavaSplit(line, '|')| >= 2
  {
    if !Counted(line) then Skipped
    else
      var parts := JavaSplit(line, '|');
      if |parts| < 2 then Skipped
      else
        match ParseInt(parts[0])
        case None => Failed
        case Some(frame) =>
          match parseDouble(parts[1])
          case None => Failed
          case Some(t) => Parsed(EventDetail(frame, t))
  }

  /** The details of the lines: the exception handler sits outside the
      loop, so a line that fails to parse ends the list with what was read
      before it. */
  function Details(lines: seq<string>, parseDouble: string -> Option<real>): seq<EventDetail> {
    if lines == [] then []
    else
      match ParseLine(lines[0], parseDouble)
      case Skipped => Details(lines[1..], parseDouble)
      case Failed => []
      case Parsed(d) => [d] + Details(lines[1..], parseDouble)
  }

  function PacketDetails(output: Option<seq<string>>, parseDouble: string -> Option<real>): seq<EventDetail> {
    match output
    case None => []
    case Some(lines) => Details(lines, parseDouble)
  }

  /** Only counted lines yield details, so there are at most as many
      details as `countPackets` counts. */
  lemma {:induction false} DetailsWithinCount(lines: seq<string>, parseDouble: string -> Option<real>)
    ensures |Details(lines, parseDouble)| <= CountedLines(lines)
    decreases |lines|
  {
    if lines != [] {
      DetailsWithinCount(lines[1..], parseDouble);
    }
  }

  /** One turn of the details loop: with the details read so far in front
      of the details of the rest, the line's result either ends the list,
      skips the line, or moves its detail to the front. */
  lemma DetailsStep(lines: seq<string>, i: nat, details: seq<EventDetail>, parseDouble: string -> Option<real>)
    requires i < |lines|
    requires Details(lines, parseDouble) == details + Details(lines[i..], parseDouble)
    ensures ParseLine(lines[i], parseDouble).Failed? ==> Details(lines, parseDouble) == details
    ensures ParseLine(lines[i], parseDouble).Skipped? ==>
              Details(lines, parseDouble) == details + Details(lines[i + 1..], parseDouble)
    ensures ParseLine(lines[i], parseDouble).Parsed? ==>
              Details(lines, parseDouble) == (details + [ParseLine(lines[i], parseDouble).detail]) + Details(lines[i + 1..], parseDouble)
  {
    assert lines[i..][0] == lines[i] && lines[i..][1..] == lines[i + 1..];
    match ParseLine(lines[i], parseDouble)
    case Failed =>
      assert details + [] == details;
    case Skipped =>
    case Parsed(d) =>
      assert details + ([d] + Details(lines[i + 1..], parseDouble))
          == (details + [d]) + Details(lines[i + 1..], parseDouble);
  }

  /** The body of the details loop for one line: a counted line with at
      least two parts gives `parseInt` of the first and `parseDouble` of
      the second, and either parse may throw. */
  method ReadDetail(line: string, parseDouble: string -> Option<real>) returns (r: LineResult)
    ensures r == ParseLine(line, parseDouble)
  {
    TrimEmpty(line);
    if Trim(line) == [] || StartsWith(line, "Cannot") {
      return Skipped;
    }
    var parts := JavaSplit(line, '|');
    if |parts| < 2 {
      return Skipped;
    }
    var frame := ParseInt(parts[0]);
    if frame.None? {
      return Failed;
    }
    var t := parseDouble(parts[1]);
    if t.None? {
      return Failed;
    }
    r := Parsed(EventDetail(frame.value, t.value));
  }

  /** `getPacketDetails`, given the lines `readLine` returns. */
  method GetPacketDetails(output: Option<seq<string>>, parseDouble: string -> Option<real>)
    returns (details: seq<EventDetail>)
    ensures details == PacketDetails(output, parseDouble)
  {
    details := [];
    if output.None? {
      return;
    }
    var lines := output.value;
    var i := 0;
    while i < |lines|
      invariant 0 <= i <= |lines|
      invariant Details(lines, parseDouble) == details + Details(lines[i..], parseDouble)
    {
      var r := ReadDetail(lines[i], parseDouble);
      DetailsStep(lines, i, details, parseDouble);
      match r {
        case Failed => return;
        case Skipped =>
        case Parsed(d) => details := details + [d];
      }
      i := i + 1;
    }
    assert lines[i..] == [];
  }

  /** A line that fails to parse drops every line after it. */
  lemma {:induction false} FailureDropsRest(a: seq<string>, bad: string, b: seq<string>,
                                            parseDouble: string -> Option<real>)
    requires ParseLine(bad, parseDouble) == Failed
    ensures Details(a + [bad] + b, parseDouble) == Details(a, parseDouble)
    decreases |a|
  {
    var s := a + [bad] + b;
    if a == [] {
      assert s[0] == bad;
    } else {
      assert s[0] == a[0];
      assert s[1..] == a[1..] + [bad] + b;
      FailureDropsRest(a[1..], bad, b, parseDouble);
      assert Details(s[1..], parseDouble) == Details(a[1..], parseDouble);
    }
  }

  /** Without failing lines the details of concatenated outputs are
      concatenated. */
  lemma {:induction false} DetailsAppend(a: seq<string>, b: seq<string>, parseDouble: string -> Option<real>)
    requires forall i :: 0 <= i < |a| ==> ParseLine(a[i], parseDouble) != Failed
    ensures Details(a + b, parseDouble) == Details(a, parseDouble) + Details(b, parseDouble)
    decreases |a|
  {
    if a == [] {
      assert a + b == b;
    } else {
      assert (a + b)[0] == a[0];
      assert (a + b)[1..] == a[1..] + b;
      assert ParseLine(a[0], parseDouble) != Failed;
      DetailsAppend(a[1..], b, parseDouble);
    }
  }

  /** The lines tshark prints with `-e frame.number -e frame.time_epoch
      -E separator=|`, given the text of each time. */
  function PrintedLines(ds: seq<EventDetail>, times: seq<string>): seq<string>
    requires |times| == |ds|
  {
    if ds == [] then [] else [IntText(ds[0].frameNumber) + "|" + times[0]] + PrintedLines(ds[1..], times[1..])
  }

  /** The decimal text of a frame number starts with a sign or a digit and
      has no separator. */
  lemma FrameText(n: int)
    ensures IntText(n) != [] && '|' !in IntText(n)
    ensures IntText(n)[0] == '-' || IsDigit(IntText(n)[0])
  {
    var digits := NatText(if n < 0 then -n else n);
    if n < 0 {
      assert IntText(n) == "-" + digits;
      assert forall k :: 1 <= k < |IntText(n)| ==> IntText(n)[k] == digits[k - 1];
    }
  }

  /** A line that starts with a sign or a digit is counted. */
  lemma CountedFromFirst(line: string)
    requires line != [] && (line[0] == '-' || IsDigit(line[0]))
    ensures Counted(line)
  {
    StartsWithMatch(line, "Cannot");
  }

  /** "frame|time" splits into the frame and the time. */
  lemma SplitPrinted(frame: string, time: string)
    requires time != [] && '|' !in time && '|' !in frame
    ensures JavaSplit(frame + "|" + time, '|') == [frame, time]
  {
    var line := frame + "|" + time;
    assert line == frame + ['|'] + time;
    assert line[|frame|] == '|';
    SplitAround(frame, time, '|');
  }

  /** One printed line reads back as the detail it was printed from. */
  lemma ParsePrinted(d: EventDetail, time: string, parseDouble: string -> Option<real>)
    requires time != [] && '|' !in time && parseDouble(time) == Some(d.timestamp)
    ensures ParseLine(IntText(d.frameNumber) + "|" + time, parseDouble) == Parsed(d)
  {
    var frame := IntText(d.frameNumber);
    var line := frame + "|" + time;
    FrameText(d.frameNumber);
    assert line[0] == frame[0];
    CountedFromFirst(line);
    SplitPrinted(frame, time);
    ParseIntText(d.frameNumber);
  }

  /** The details of printed lines are the details printed: frame numbers
      and times survive the round trip through tshark's text. */
  lemma {:induction false} DetailsOfPrinted(ds: seq<EventDetail>, times: seq<string>,
                                            parseDouble: string -> Option<real>)
    requires |times| == |ds|
    requires forall i :: 0 <= i < |ds| ==>
               times[i] != [] && '|' !in times[i] && parseDouble(times[i]) == Some(ds[i].timestamp)
    ensures Details(PrintedLines(ds, times), parseDouble) == ds
    decreases |ds|
  {
    if ds != [] {
      var lines := PrintedLines(ds, times);
      ParsePrinted(ds[0], times[0], parseDouble);
      assert lines[0] == IntText(ds[0].frameNumber) + "|" + times[0];
      assert lines[1..] == PrintedLines(ds[1..], times[1..]);
      DetailsOfPrinted(ds[1..], times[1..], parseDouble);
      assert [ds[0]] + ds[1..] == ds;
    }
  }

  // --------------------------------------------------------- the counters

  /** The keys of the `counters` map. */
  datatype Counter =
    | LteRrcReq
    | LteRrcSetup
    | LteAttachReq
    | LteAttachAcc
    | LteAttachRej
    | LteTauReq
    | LteTauAcc
    | LteTauRej
    | LteErabSetup
    | LteErabComplete
    | LtePdnReq
    | LtePdnAcc
    | LtePdnRej
    | LteServiceReq
    | LteServiceAcc
    | LteHoCmd
    | LteHoComplete
    | LteMeasReport
    | LteSecCmd
    | LteSecComplete
    | WcdmaRrcReq
    | WcdmaRrcSetup
    | WcdmaRabAssign
    | WcdmaRabComplete
    | WcdmaHoCmd
    | WcdmaHoComplete
    | WcdmaAsuCmd
    | WcdmaAsuComplete
    | WcdmaCellUpdate
    | WcdmaCellUpdateConfirm
    | PdpReq
    | PdpAcc
    | WcdmaRauReq
    | WcdmaRauAcc
    | CallSetup
    | CallConnect
    | CallDisconnect
    | RachAttempts

  /** The key string of the map. */
  function CounterName(c: Counter): string {
    match c
    case LteRrcReq => "lte_rrc_req"
    case LteRrcSetup => "lte_rrc_setup"
    case LteAttachReq => "lte_attach_req"
    case LteAttachAcc => "lte_attach_acc"
    case LteAttachRej => "lte_attach_rej"
    case LteTauReq => "lte_tau_req"
    case LteTauAcc => "lte_tau_acc"
    case LteTauRej => "lte_tau_rej"
    case LteErabSetup => "lte_erab_setup"
    case LteErabComplete => "lte_erab_complete"
    case LtePdnReq => "lte_pdn_req"
    case LtePdnAcc => "lte_pdn_acc"
    case LtePdnRej => "lte_pdn_rej"
    case LteServiceReq => "lte_service_req"
    case LteServiceAcc => "lte_service_acc"
    case LteHoCmd => "lte_ho_cmd"
    case LteHoComplete => "lte_ho_complete"
    case LteMeasReport => "lte_meas_report"
    case LteSecCmd => "lte_sec_cmd"
    case LteSecComplete => "lte_sec_complete"
    case WcdmaRrcReq => "wcdma_rrc_req"
    case WcdmaRrcSetup => "wcdma_rrc_setup"
    case WcdmaRabAssign => "wcdma_rab_assign"
    case WcdmaRabComplete => "wcdma_rab_complete"
    case WcdmaHoCmd => "wcdma_ho_cmd"
    case WcdmaHoComplete => "wcdma_ho_complete"
    case WcdmaAsuCmd => "wcdma_asu_cmd"
    case WcdmaAsuComplete => "wcdma_asu_complete"
    case WcdmaCellUpdate => "wcdma_cell_update"
    case WcdmaCellUpdateConfirm => "wcdma_cell_update_confirm"
    case PdpReq => "pdp_req"
    case PdpAcc => "pdp_acc"
    case WcdmaRauReq => "wcdma_rau_req"
    case WcdmaRauAcc => "wcdma_rau_acc"
    case CallSetup => "call_setup"
    case CallConnect => "call_connect"
    case CallDisconnect => "call_disconnect"
    case RachAttempts => "rach_attempts"
  }

  /** The display filter the counter's tshark run uses. */
  function Filter(c: Counter): string {
    match c
    case LteRrcReq => "lte-rrc.rrcConnectionRequest_element"
    case LteRrcSetup => "lte-rrc.rrcConnectionSetup_element"
    case LteAttachReq => "nas-eps.nas_msg_emm_type == 0x41"
    case LteAttachAcc => "nas-eps.nas_msg_emm_type == 0x42"
    case LteAttachRej => "nas-eps.nas_msg_emm_type == 0x44"
    case LteTauReq => "nas-eps.nas_msg_emm_type == 0x48"
    case LteTauAcc => "nas-eps.nas_msg_emm_type == 0x49"
    case LteTauRej => "nas-eps.nas_msg_emm_type == 0x4b"
    case LteErabSetup => "lte-rrc.rrcConnectionReconfiguration_element"
    case LteErabComplete => "lte-rrc.rrcConnectionReconfigurationComplete_element"
    case LtePdnReq => "nas-eps.nas_msg_esm_type == 0xd0"
    case LtePdnAcc => "nas-eps.nas_msg_esm_type == 0xd1"
    case LtePdnRej => "nas-eps.nas_msg_esm_type == 0xd2"
    case LteServiceReq => "nas-eps.nas_msg_emm_type == 0x4c"
    case LteServiceAcc => "nas-eps.nas_msg_emm_type == 0x4e"
    case LteHoCmd => "lte-rrc.mobilityFromEUTRACommand_element"
    case LteHoComplete => "lte-rrc.rrcConnectionReconfigurationComplete_element"
    case LteMeasReport => "lte-rrc.measurementReport_element"
    case LteSecCmd => "lte-rrc.securityModeCommand_element"
    case LteSecComplete => "lte-rrc.securityModeComplete_element"
    case WcdmaRrcReq => "rrc.rrcConnectionRequest_element"
    case WcdmaRrcSetup => "rrc.rrcConnectionSetup_element"
    case WcdmaRabAssign => "rrc.radioBearerSetup"
    case WcdmaRabComplete => "rrc.radioBearerSetupComplete_element"
    case WcdmaHoCmd => "rrc.physicalChannelReconfiguration"
    case WcdmaHoComplete => "rrc.physicalChannelReconfigurationComplete_element"
    case WcdmaAsuCmd => "rrc.activeSetUpdate_element"
    case WcdmaAsuComplete => "rrc.activeSetUpdateComplete_element"
    case WcdmaCellUpdate => "rrc.cellUpdate_element"
    case WcdmaCellUpdateConfirm => "rrc.cellUpdateConfirm_element"
    case PdpReq => "gsm_a.gm.sm.msg_type == 0x41"
    case PdpAcc => "gsm_a.gm.sm.msg_type == 0x42"
    case WcdmaRauReq => "gsm_a.gm.gmm.msg_type == 0x08"
    case WcdmaRauAcc => "gsm_a.gm.gmm.msg_type == 0x09"
    case CallSetup => "gsm_a.dtap.msg_cc_type == 0x05"
    case CallConnect => "gsm_a.dtap.msg_cc_type == 0x0f"
    case CallDisconnect => "gsm_a.dtap.msg_cc_type == 0x25"
    case RachAttempts => "gsm_a.rach"
  }

  const AllCounters: set<Counter> := {
      LteRrcReq, LteRrcSetup, LteAttachReq, LteAttachAcc,
      LteAttachRej, LteTauReq, LteTauAcc, LteTauRej,
      LteErabSetup, LteErabComplete, LtePdnReq, LtePdnAcc,
      LtePdnRej, LteServiceReq, LteServiceAcc, LteHoCmd,
      LteHoComplete, LteMeasReport, LteSecCmd, LteSecComplete,
      WcdmaRrcReq, WcdmaRrcSetup, WcdmaRabAssign, WcdmaRabComplete,
      WcdmaHoCmd, WcdmaHoComplete, WcdmaAsuCmd, WcdmaAsuComplete,
      WcdmaCellUpdate, WcdmaCellUpdateConfirm, PdpReq, PdpAcc,
      WcdmaRauReq, WcdmaRauAcc, CallSetup, CallConnect,
      CallDisconnect, RachAttempts
  }

  lemma CountersComplete(c: Counter)
    ensures c in AllCounters
  {
  }

  /** `lte_erab_complete` and `lte_ho_complete` run the same filter. */
  lemma SharedFilter()
    ensures Filter(LteErabComplete) == Filter(LteHoComplete)
    ensures LteErabComplete != LteHoComplete
  {
  }

  // ------------------------------------------------ calculateSuccessRates

  /** The keys of the map `calculateSuccessRates` returns. */
  datatype SuccessRate =
    | LteRrcSr
    | LteAttachSr
    | LteTauSr
    | LtePdnSr
    | LteServiceSr
    | LteHoSr
    | LteSecSr
    | WcdmaRrcSr
    | WcdmaRabSr
    | WcdmaHoSr
    | PdpSr
    | WcdmaRauSr
    | CallSetupSr

  function RateName(r: SuccessRate): string {
    match r
    case LteRrcSr => "lte_rrc_sr"
    case LteAttachSr => "lte_attach_sr"
    case LteTauSr => "lte_tau_sr"
    case LtePdnSr => "lte_pdn_sr"
    case LteServiceSr => "lte_service_sr"
    case LteHoSr => "lte_ho_sr"
    case LteSecSr => "lte_sec_sr"
    case WcdmaRrcSr => "wcdma_rrc_sr"
    case WcdmaRabSr => "wcdma_rab_sr"
    case WcdmaHoSr => "wcdma_ho_sr"
    case PdpSr => "pdp_sr"
    case WcdmaRauSr => "wcdma_rau_sr"
    case CallSetupSr => "call_setup_sr"
  }

  /** The counters a rate divides: (successes, attempts). */
  function RateCounters(r: SuccessRate): (Counter, Counter) {
    match r
    case LteRrcSr => (LteRrcSetup, LteRrcReq)
    case LteAttachSr => (LteAttachAcc, LteAttachReq)
    case LteTauSr => (LteTauAcc, LteTauReq)
    case LtePdnSr => (LtePdnAcc, LtePdnReq)
    case LteServiceSr => (LteServiceAcc, LteServiceReq)
    case LteHoSr => (LteHoComplete, LteHoCmd)
    case LteSecSr => (LteSecComplete, LteSecCmd)
    case WcdmaRrcSr => (WcdmaRrcSetup, WcdmaRrcReq)
    case WcdmaRabSr => (WcdmaRabComplete, WcdmaRabAssign)
    case WcdmaHoSr => (WcdmaHoComplete, WcdmaHoCmd)
    case PdpSr => (PdpAcc, PdpReq)
    case WcdmaRauSr => (WcdmaRauAcc, WcdmaRauReq)
    case CallSetupSr => (CallConnect, CallSetup)
  }

  const AllSuccessRates: set<SuccessRate> := {
      LteRrcSr, LteAttachSr, LteTauSr, LtePdnSr,
      LteServiceSr, LteHoSr, LteSecSr, WcdmaRrcSr,
      WcdmaRabSr, WcdmaHoSr, PdpSr, WcdmaRauSr,
      CallSetupSr
  }

  lemma SuccessRatesComplete(r: SuccessRate)
    ensures r in AllSuccessRates
  {
  }

  /** `counters.getOrDefault(key, 0)`. */
  function GetOrDefault(counters: map<Counter, int>, c: Counter): int {
    if c in counters then counters[c] else 0
  }

  /** `calculateSuccessRates`: thirteen guarded rates put one after the
      other into a fresh map. */
  method CalculateSuccessRates(counters: map<Counter, int>) returns (rates: map<SuccessRate, real>)
    ensures rates.Keys == AllSuccessRates
    ensures forall r :: r in rates ==>
              rates[r] == Rates.GuardedRate(GetOrDefault(counters, RateCounters(r).0),
                                            GetOrDefault(counters, RateCounters(r).1))
    ensures forall r :: r in rates && GetOrDefault(counters, RateCounters(r).1) <= 0 ==> rates[r] == 0.0
  {
    rates := map[];
    rates := rates[LteRrcSr := Rates.GuardedRate(GetOrDefault(counters, LteRrcSetup), GetOrDefault(counters, LteRrcReq))];
    rates := rates[LteAttachSr := Rates.GuardedRate(GetOrDefault(counters, LteAttachAcc), GetOrDefault(counters, LteAttachReq))];
    rates := rates[LteTauSr := Rates.GuardedRate(GetOrDefault(counters, LteTauAcc), GetOrDefault(counters, LteTauReq))];
    rates := rates[LtePdnSr := Rates.GuardedRate(GetOrDefault(counters, LtePdnAcc), GetOrDefault(counters, LtePdnReq))];
    rates := rates[LteServiceSr := Rates.GuardedRate(GetOrDefault(counters, LteServiceAcc), GetOrDefault(counters, LteServiceReq))];
    rates := rates[LteHoSr := Rates.GuardedRate(GetOrDefault(counters, LteHoComplete), GetOrDefault(counters, LteHoCmd))];
    rates := rates[LteSecSr := Rates.GuardedRate(GetOrDefault(counters, LteSecComplete), GetOrDefault(counters, LteSecCmd))];
    rates := rates[WcdmaRrcSr := Rates.GuardedRate(GetOrDefault(counters, WcdmaRrcSetup), GetOrDefault(counters, WcdmaRrcReq))];
    rates := rates[WcdmaRabSr := Rates.GuardedRate(GetOrDefault(counters, WcdmaRabComplete), GetOrDefault(counters, WcdmaRabAssign))];
    rates := rates[WcdmaHoSr := Rates.GuardedRate(GetOrDefault(counters, WcdmaHoComplete), GetOrDefault(counters, WcdmaHoCmd))];
    rates := rates[PdpSr := Rates.GuardedRate(GetOrDefault(counters, PdpAcc), GetOrDefault(counters, PdpReq))];
    rates := rates[WcdmaRauSr := Rates.GuardedRate(GetOrDefault(counters, WcdmaRauAcc), GetOrDefault(counters, WcdmaRauReq))];
    rates := rates[CallSetupSr := Rates.GuardedRate(GetOrDefault(counters, CallConnect), GetOrDefault(counters, CallSetup))];
    forall r | r in rates
      ensures rates[r] == Rates.GuardedRate(GetOrDefault(counters, RateCounters(r).0),
                                            GetOrDefault(counters, RateCounters(r).1))
    {
    }
  }

  /** There are thirteen rates. */
  lemma ThirteenRates()
    ensures |AllSuccessRates| == 13
  {
  }

  /** Each rate divides two different counters. */
  lemma RateCountersDiffer(r: SuccessRate)
    ensures RateCounters(r).0 != RateCounters(r).1
  {
  }

  /** A rate whose successes stay within its attempts is a percentage. */
  lemma RateBounded(counters: map<Counter, int>, r: SuccessRate)
    requires 0 <= GetOrDefault(counters, RateCounters(r).0) <= GetOrDefault(counters, RateCounters(r).1)
    ensures 0.0 <= Rates.GuardedRate(GetOrDefault(counters, RateCounters(r).0),
                                     GetOrDefault(counters, RateCounters(r).1)) <= 100.0
  {
    Rates.RateBounds(GetOrDefault(counters, RateCounters(r).0), GetOrDefault(counters, RateCounters(r).1));
  }

  /** With every counter present, `getOrDefault` reads the counters
      themselves. */
  lemma RatesOverAllCounters(counters: map<Counter, int>, rates: map<SuccessRate, real>)
    requires counters.Keys == AllCounters
    requires forall r :: r in rates ==>
               rates[r] == Rates.GuardedRate(GetOrDefault(counters, RateCounters(r).0),
                                             GetOrDefault(counters, RateCounters(r).1))
    ensures forall r :: r in rates ==>
              rates[r] == Rates.GuardedRate(counters[RateCounters(r).0], counters[RateCounters(r).1])
  {
    forall r | r in rates
      ensures rates[r] == Rates.GuardedRate(counters[RateCounters(r).0], counters[RateCounters(r).1])
    {
      CountersComplete(RateCounters(r).0);
      CountersComplete(RateCounters(r).1);
    }
  }

  // -------------------------------------------------------- extractAllKpis

  /** `KpiResult` without the measurements. */
  datatype KpiResult = KpiResult(
    successRates: map<SuccessRate, real>,
    counters: map<Counter, int>,
    events: map<Counter, seq<EventDetail>>)

  /** Every counter present holds the count of its filter's run. */
  ghost predicate CountsFrom(counters: map<Counter, int>, run: string -> Option<seq<string>>) {
    forall c {:trigger counters[c]} :: c in counters ==> counters[c] == Count(run, c)
  }

  /** Every event list present holds the details of its filter's run. */
  ghost predicate DetailsFrom(events: map<Counter, seq<EventDetail>>, runDetails: string -> Option<seq<string>>,
                              parseDouble: string -> Option<real>) {
    forall c {:trigger events[c]} :: c in events ==> events[c] == PacketDetails(runDetails(Filter(c)), parseDouble)
  }

  /** The count `countPackets` returns for the counter's filter. */
  function Count(run: string -> Option<seq<string>>, c: Counter): nat {
    PacketCount(run(Filter(c)))
  }

  /** `counters.put(key, countPackets(pcapFile, filter))`: only the key's
      entry changes, and every key present holds its filter's count if it
      did before. */
  method PutCount(counters: map<Counter, int>, c: Counter, run: string -> Option<seq<string>>)
    returns (updated: map<Counter, int>)
    ensures c in updated && updated == counters[c := updated[c]]
    ensures CountsFrom(counters, run) ==> CountsFrom(updated, run)
  {
    var n := CountPackets(run(Filter(c)));
    updated := counters[c := n];
  }

  /** `events.put(key, getPacketDetails(pcapFile, filter))`. */
  method PutDetails(events: map<Counter, seq<EventDetail>>, c: Counter, runDetails: string -> Option<seq<string>>,
                    parseDouble: string -> Option<real>)
    returns (updated: map<Counter, seq<EventDetail>>)
    ensures c in updated && updated == events[c := updated[c]]
    ensures DetailsFrom(events, runDetails, parseDouble) ==> DetailsFrom(updated, runDetails, parseDouble)
  {
    var d := GetPacketDetails(runDetails(Filter(c)), parseDouble);
    updated := events[c := d];
  }

  /** The LTE RRC connection and LTE attach counters. */
  const LteRrcAndAttachCounters: set<Counter> := {
      LteRrcReq, LteRrcSetup, LteAttachReq, LteAttachAcc,
      LteAttachRej
  }

  /** The event lists of the LTE RRC connection request and setup, in their order. */
  method PutRrcEvents(events: map<Counter, seq<EventDetail>>, runDetails: string -> Option<seq<string>>,
                    parseDouble: string -> Option<real>)
    returns (updated: map<Counter, seq<EventDetail>>)
    ensures updated.Keys == events.Keys + {LteRrcReq, LteRrcSetup}
    ensures DetailsFrom(events, runDetails, parseDouble) ==> DetailsFrom(updated, runDetails, parseDouble)
  {
    updated := events;
    updated := PutDetails(updated, LteRrcReq, runDetails, parseDouble);
    updated := PutDetails(updated, LteRrcSetup, runDetails, parseDouble);
  }

  /** The event lists of the LTE attach request and accept, in their order. */
  method PutAttachEvents(events: map<Counter, seq<EventDetail>>, runDetails: string -> Option<seq<string>>,
                    parseDouble: string -> Option<real>)
    returns (updated: map<Counter, seq<EventDetail>>)
    ensures updated.Keys == events.Keys + {LteAttachReq, LteAttachAcc}
    ensures DetailsFrom(events, runDetails, parseDouble) ==> DetailsFrom(updated, runDetails, parseDouble)
  {
    updated := events;
    updated := PutDetails(updated, LteAttachReq, runDetails, parseDouble);
    updated := PutDetails(updated, LteAttachAcc, runDetails, parseDouble);
  }

  /** The puts of `extractAllKpis` for LTE RRC connection and LTE attach, with their event lists, in its order, into empty maps. */
  method LteRrcAndAttach(run: string -> Option<seq<string>>, runDetails: string -> Option<seq<string>>,
                         parseDouble: string -> Option<real>)
    returns (counters: map<Counter, int>, events: map<Counter, seq<EventDetail>>)
    ensures counters.Keys == LteRrcAndAttachCounters
    ensures CountsFrom(counters, run)
    ensures events.Keys == {LteRrcReq, LteRrcSetup, LteAttachReq, LteAttachAcc}
    ensures DetailsFrom(events, runDetails, parseDouble)
  {
    counters := map[];
    events := map[];
    counters := PutCount(counters, LteRrcReq, run);
    counters := PutCount(counters, LteRrcSetup, run);
    events := PutRrcEvents(events, runDetails, parseDouble);
    counters := PutCount(counters, LteAttachReq, run);
    counters := PutCount(counters, LteAttachAcc, run);
    counters := PutCount(counters, LteAttachRej, run);
    events := PutAttachEvents(events, runDetails, parseDouble);
  }

  /** The LTE TAU, E-RAB setup, PDN connectivity and service request counters. */
  const LteProceduresCounters: set<Counter> := {
      LteTauReq, LteTauAcc, LteTauRej, LteErabSetup,
      LteErabComplete, LtePdnReq, LtePdnAcc, LtePdnRej,
      LteServiceReq, LteServiceAcc
  }

  /** The puts of `extractAllKpis` for LTE TAU, E-RAB setup, PDN connectivity and service request, in its order. */
  method PutLteProcedures(counters: map<Counter, int>, run: string -> Option<seq<string>>)
    returns (updated: map<Counter, int>)
    ensures updated.Keys == counters.Keys + LteProceduresCounters
    ensures CountsFrom(counters, run) ==> CountsFrom(updated, run)
  {
    updated := counters;
    updated := PutCount(updated, LteTauReq, run);
    updated := PutCount(updated, LteTauAcc, run);
    updated := PutCount(updated, LteTauRej, run);
    updated := PutCount(updated, LteErabSetup, run);
    updated := PutCount(updated, LteErabComplete, run);
    updated := PutCount(updated, LtePdnReq, run);
    updated := PutCount(updated, LtePdnAcc, run);
    updated := PutCount(updated, LtePdnRej, run);
    updated := PutCount(updated, LteServiceReq, run);
    updated := PutCount(updated, LteServiceAcc, run);
  }

  /** The LTE handover, measurement reports and security mode counters. */
  const LteRadioCounters: set<Counter> := {
      LteHoCmd, LteHoComplete, LteMeasReport, LteSecCmd,
      LteSecComplete
  }

  /** The puts of `extractAllKpis` for LTE handover, measurement reports and security mode, in its order. */
  method PutLteRadio(counters: map<Counter, int>, run: string -> Option<seq<string>>)
    returns (updated: map<Counter, int>)
    ensures updated.Keys == counters.Keys + LteRadioCounters
    ensures CountsFrom(counters, run) ==> CountsFrom(updated, run)
  {
    updated := counters;
    updated := PutCount(updated, LteHoCmd, run);
    updated := PutCount(updated, LteHoComplete, run);
    updated := PutCount(updated, LteMeasReport, run);
    updated := PutCount(updated, LteSecCmd, run);
    updated := PutCount(updated, LteSecComplete, run);
  }

  /** The WCDMA RRC, RAB, handover, active set update and cell update counters. */
  const WcdmaCounters: set<Counter> := {
      WcdmaRrcReq, WcdmaRrcSetup, WcdmaRabAssign, WcdmaRabComplete,
      WcdmaHoCmd, WcdmaHoComplete, WcdmaAsuCmd, WcdmaAsuComplete,
      WcdmaCellUpdate, WcdmaCellUpdateConfirm
  }

  /** The puts of `extractAllKpis` for WCDMA RRC, RAB, handover, active set update and cell update, in its order. */
  method PutWcdma(counters: map<Counter, int>, run: string -> Option<seq<string>>)
    returns (updated: map<Counter, int>)
    ensures updated.Keys == counters.Keys + WcdmaCounters
    ensures CountsFrom(counters, run) ==> CountsFrom(updated, run)
  {
    updated := counters;
    updated := PutCount(updated, WcdmaRrcReq, run);
    updated := PutCount(updated, WcdmaRrcSetup, run);
    updated := PutCount(updated, WcdmaRabAssign, run);
    updated := PutCount(updated, WcdmaRabComplete, run);
    updated := PutCount(updated, WcdmaHoCmd, run);
    updated := PutCount(updated, WcdmaHoComplete, run);
    updated := PutCount(updated, WcdmaAsuCmd, run);
    updated := PutCount(updated, WcdmaAsuComplete, run);
    updated := PutCount(updated, WcdmaCellUpdate, run);
    updated := PutCount(updated, WcdmaCellUpdateConfirm, run);
  }

  /** The 3G PDP context, routing area update, call control and GSM RACH counters. */
  const PacketAndCallCounters: set<Counter> := {
      PdpReq, PdpAcc, WcdmaRauReq, WcdmaRauAcc,
      CallSetup, CallConnect, CallDisconnect, RachAttempts
  }

  /** The puts of `extractAllKpis` for 3G PDP context, routing area update, call control and GSM RACH, in its order. */
  method PutPacketAndCall(counters: map<Counter, int>, run: string -> Option<seq<string>>)
    returns (updated: map<Counter, int>)
    ensures updated.Keys == counters.Keys + PacketAndCallCounters
    ensures CountsFrom(counters, run) ==> CountsFrom(updated, run)
  {
    updated := counters;
    updated := PutCount(updated, PdpReq, run);
    updated := PutCount(updated, PdpAcc, run);
    updated := PutCount(updated, WcdmaRauReq, run);
    updated := PutCount(updated, WcdmaRauAcc, run);
    updated := PutCount(updated, CallSetup, run);
    updated := PutCount(updated, CallConnect, run);
    updated := PutCount(updated, CallDisconnect, run);
    updated := PutCount(updated, RachAttempts, run);
  }

  /** The sections together put every counter. */
  lemma SectionsCoverAll()
    ensures LteRrcAndAttachCounters + LteProceduresCounters + LteRadioCounters + WcdmaCounters + PacketAndCallCounters == AllCounters
  {
  }

  /** `extractAllKpis`, given tshark's output lines for a display filter:
      `run` for the counting command and `runDetails` for the details
      command. */
  method ExtractAllKpis(run: string -> Option<seq<string>>, runDetails: string -> Option<seq<string>>,
                        parseDouble: string -> Option<real>)
    returns (result: KpiResult)
    ensures result.counters.Keys == AllCounters
    ensures CountsFrom(result.counters, run)
    ensures result.counters[LteErabComplete] == result.counters[LteHoComplete]
    ensures result.events.Keys == {LteRrcReq, LteRrcSetup, LteAttachReq, LteAttachAcc}
    ensures DetailsFrom(result.events, runDetails, parseDouble)
    ensures result.successRates.Keys == AllSuccessRates
    ensures forall r :: r in result.successRates ==>
              result.successRates[r] == Rates.GuardedRate(result.counters[RateCounters(r).0],
                                                          result.counters[RateCounters(r).1])
  {
    var counters, events := LteRrcAndAttach(run, runDetails, parseDouble);
    counters := PutLteProcedures(counters, run);
    counters := PutLteRadio(counters, run);
    counters := PutWcdma(counters, run);
    counters := PutPacketAndCall(counters, run);
    SectionsCoverAll();
    assert counters.Keys == AllCounters;
    SharedFilter();
    var successRates := CalculateSuccessRates(counters);
    RatesOverAllCounters(counters, successRates);
    result := KpiResult(successRates, counters, events);
  }
}
