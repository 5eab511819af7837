/** `SimpleKPICalculator` of the comprehensive calculator script: packet
    counts read from tshark's output, the frame and time of each event, the
    `kpis` table of counts and success rates, and the fields the statistics
    and Prometheus handlers derive from it. */
module ComprehensiveKpi {
  import opened Wrappers
  import opened Text
  import opened Counters
  import Rates

  // ---------------------------------------------------------- count_packets

  /** A line tshark prints for a packet: neither blank nor one of its
      "Cannot find dissector" warnings. */
  predicate Counted(line: string) { Strip(line) != [] && !StartsWith(line, "Cannot") }

  /** The list comprehension of `count_packets`: the counted lines, in
      order. */
  function Kept(lines: seq<string>): (r: seq<string>)
    ensures |r| <= |lines|
    ensures forall i :: 0 <= i < |r| ==> Counted(r[i])
    decreases |lines|
  {
    if lines == [] then []
    else Kept(lines[..|lines| - 1]) + (if Counted(lines[|lines| - 1]) then [lines[|lines| - 1]] else [])
  }

  /** The filter works line by line. */
  lemma {:induction false} KeptAppend(a: seq<string>, b: seq<string>)
    ensures Kept(a + b) == Kept(a) + Kept(b)
    decreases |b|
  {
    if b == [] {
      assert a + b == a;
    } else {
      assert (a + b)[..|a + b| - 1] == a + b[..|b| - 1];
      assert (a + b)[|a + b| - 1] == b[|b| - 1];
      KeptAppend(a, b[..|b| - 1]);
    }
  }

  /** `count_packets` on what `subprocess.run` gives back, `None` when it
      raises (the method then reports 0). */
  function CountPackets(stdout: Option<string>): nat {
    match stdout
    case None => 0
    case Some(out) => |Kept(Split(Strip(out), '\n'))|
  }

  /** Wherever they appear, blank lines and "Cannot" lines count for
      nothing and every other line counts once. */
  lemma SkippedLinesIgnored(a: seq<string>, l: string, b: seq<string>)
    ensures |Kept(a + [l] + b)| == |Kept(a + b)| + (if Counted(l) then 1 else 0)
  {
    KeptAppend(a + [l], b);
    KeptAppend(a, [l]);
    KeptAppend(a, b);
    assert [l][..0] == [];
  }

  /** Output made only of whitespace counts no packet. */
  lemma BlankOutputCountsNone(out: string)
    requires forall i :: 0 <= i < |out| ==> IsPySpace(out[i])
    ensures CountPackets(Some(out)) == 0
  {
    StripEmpty(out);
    StripEmpty([]);
    var lines: seq<string> := [[]];
    assert Split(Strip(out), '\n') == lines;
    assert lines[..0] == [];
  }

  // ----------------------------------------------------- get_packet_details

  /** One event: the frame number and its epoch time. */
  datatype Detail = Detail(frame: int, timestamp: real)

  /** What one line gives: nothing, an event, or an exception from `int` or
      `float`. */
  datatype LineResult = Skipped | Failed | Parsed(detail: Detail)

  /** A counted line with at least two '|' fields gives `int` of the first
      and `float` of the second (`toInt` and `toFloat`, `None` where they
      raise). */
  function ParseLine(line: string, toInt: string -> Option<int>, toFloat: string -> Option<real>): LineResult {
    var parts := Split(line, '|');
    if !Counted(line) || |parts| < 2 then Skipped
    else if toInt(parts[0]).None? || toFloat(parts[1]).None? then Failed
    else Parsed(Detail(toInt(parts[0]).value, toFloat(parts[1]).value))
  }

  /** The details of the lines, `None` as soon as a conversion raises. */
  function DetailsOf(lines: seq<string>, toInt: string -> Option<int>, toFloat: string -> Option<real>): Option<seq<Detail>>
    decreases |lines|
  {
    if lines == [] then Some([])
    else
      var prev := DetailsOf(lines[..|lines| - 1], toInt, toFloat);
      if prev.None? then None
      else
        match ParseLine(lines[|lines| - 1], toInt, toFloat)
        case Skipped => prev
        case Failed => None
        case Parsed(d) => Some(prev.value + [d])
  }

  /** `get_packet_details`: any exception, from the subprocess or from a
      conversion, gives the empty list. */
  function PacketDetails(stdout: Option<string>, toInt: string -> Option<int>, toFloat: string -> Option<real>): seq<Detail> {
    match stdout
    case None => []
    case Some(out) =>
      match DetailsOf(Split(Strip(out), '\n'), toInt, toFloat)
      case None => []
      case Some(details) => details
  }

  /** Once a conversion has raised, later lines cannot undo it. */
  lemma {:induction false} FailureIsFinal(lines: seq<string>, i: nat, toInt: string -> Option<int>, toFloat: string -> Option<real>)
    requires i <= |lines| && DetailsOf(lines[..i], toInt, toFloat).None?
    ensures DetailsOf(lines, toInt, toFloat).None?
    decreases |lines| - i
  {
    if i < |lines| {
      assert lines[..i + 1][..i] == lines[..i];
      FailureIsFinal(lines, i + 1, toInt, toFloat);
    } else {
      assert lines[..i] == lines;
    }
  }

  /** Only a line holding a '|' can yield an event; so there are never more
      events than counted lines, and exactly as many when every line holds
      a '|' and every conversion succeeds. */
  lemma {:induction false} DetailsPerLine(lines: seq<string>, toInt: string -> Option<int>, toFloat: string -> Option<real>)
    ensures DetailsOf(lines, toInt, toFloat).Some? ==> |DetailsOf(lines, toInt, toFloat).value| <= |Kept(lines)|
    ensures DetailsOf(lines, toInt, toFloat).Some? && (forall i :: 0 <= i < |lines| ==> '|' in lines[i]) ==>
              |DetailsOf(lines, toInt, toFloat).value| == |Kept(lines)|
    decreases |lines|
  {
    if lines != [] {
      var init := lines[..|lines| - 1];
      DetailsPerLine(init, toInt, toFloat);
      SplitsIffSeparator(lines[|lines| - 1], '|');
    }
  }

  /** A line without a '|' adds no event. */
  lemma LineWithoutFieldsIgnored(lines: seq<string>, line: string, toInt: string -> Option<int>, toFloat: string -> Option<real>)
    requires '|' !in line
    ensures DetailsOf(lines + [line], toInt, toFloat) == DetailsOf(lines, toInt, toFloat)
  {
    SplitsIffSeparator(line, '|');
    assert (lines + [line])[..|lines|] == lines;
  }

  /** `DetailsOf` of one more line, according to what that line gives. */
  lemma DetailsOfStep(lines: seq<string>, i: nat, toInt: string -> Option<int>, toFloat: string -> Option<real>)
    requires i < |lines| && DetailsOf(lines[..i], toInt, toFloat).Some?
    ensures ParseLine(lines[i], toInt, toFloat).Skipped? ==>
              DetailsOf(lines[..i + 1], toInt, toFloat) == DetailsOf(lines[..i], toInt, toFloat)
    ensures ParseLine(lines[i], toInt, toFloat).Failed? ==> DetailsOf(lines[..i + 1], toInt, toFloat).None?
    ensures ParseLine(lines[i], toInt, toFloat).Parsed? ==>
              DetailsOf(lines[..i + 1], toInt, toFloat)
              == Some(DetailsOf(lines[..i], toInt, toFloat).value + [ParseLine(lines[i], toInt, toFloat).detail])
  {
    assert lines[..i + 1][..i] == lines[..i] && lines[..i + 1][i] == lines[i];
  }

  /** The body of the details loop for one line. */
  method ReadDetail(line: string, toInt: string -> Option<int>, toFloat: string -> Option<real>) returns (r: LineResult)
    ensures r == ParseLine(line, toInt, toFloat)
  {
    if Strip(line) == [] || StartsWith(line, "Cannot") {
      return Skipped;
    }
    var parts := Split(line, '|');
    if |parts| < 2 {
      return Skipped;
    }
    var frame := toInt(parts[0]);
    var timestamp := toFloat(parts[1]);
    if frame.None? || timestamp.None? {
      return Failed;
    }
    r := Parsed(Detail(frame.value, timestamp.value));
  }

  method GetPacketDetails(stdout: Option<string>, toInt: string -> Option<int>, toFloat: string -> Option<real>)
    returns (details: seq<Detail>)
    ensures details == PacketDetails(stdout, toInt, toFloat)
  {
    if stdout.None? {
      return [];
    }
    var lines := Split(Strip(stdout.value), '\n');
    details := [];
    for i := 0 to |lines|
      invariant DetailsOf(lines[..i], toInt, toFloat) == Some(details)
    {
      var r := ReadDetail(lines[i], toInt, toFloat);
      DetailsOfStep(lines, i, toInt, toFloat);
      match r {
        case Failed =>
          FailureIsFinal(lines, i + 1, toInt, toFloat);
          return [];
        case Skipped =>
        case Parsed(d) => details := details + [d];
      }
    }
    assert lines[..|lines|] == lines;
  }

  // ------------------------------------------------------------- the kpis

  /** The events `analyze` counts, one tshark display filter each. */
  datatype Event =
    | LteRrcReq | LteRrcSetup | LteAttachReq | LteAttachAcc | LteTauReq | LteTauAcc | LteErabSetup
    | LtePdnReq | LtePdnAcc | LteServiceReq | LteServiceAcc | WcdmaRrcReq | WcdmaRrcSetup
    | WcdmaRabAssign | WcdmaRabComplete | WcdmaHoCmd | WcdmaHoComplete | CallSetup | CallConnect
    | CallDisconnect | RachAttempts | LteMeasReport | LteHoCmd | LteHoComplete | WcdmaAsuCmd
    | WcdmaAsuComplete | WcdmaCellUpdate | WcdmaCellUpdateConfirm | PdpReq | PdpAcc | LteSecCmd
    | LteSecComplete | WcdmaSecCmd | WcdmaSecComplete | LteLocationUpdate | WcdmaRauReq
    | WcdmaRauAcc

  /** The event's key in the `kpis` and `event_details` dicts. */
  function EventName(e: Event): string {
    match e
    case LteRrcReq => "lte_rrc_req"
    case LteRrcSetup => "lte_rrc_setup"
    case LteAttachReq => "lte_attach_req"
    case LteAttachAcc => "lte_attach_acc"
    case LteTauReq => "lte_tau_req"
    case LteTauAcc => "lte_tau_acc"
    case LteErabSetup => "lte_erab_setup"
    case LtePdnReq => "lte_pdn_req"
    case LtePdnAcc => "lte_pdn_acc"
    case LteServiceReq => "lte_service_req"
    case LteServiceAcc => "lte_service_acc"
    case WcdmaRrcReq => "wcdma_rrc_req"
    case WcdmaRrcSetup => "wcdma_rrc_setup"
    case WcdmaRabAssign => "wcdma_rab_assign"
    case WcdmaRabComplete => "wcdma_rab_complete"
    case WcdmaHoCmd => "wcdma_ho_cmd"
    case WcdmaHoComplete => "wcdma_ho_complete"
    case CallSetup => "call_setup"
    case CallConnect => "call_connect"
    case CallDisconnect => "call_disconnect"
    case RachAttempts => "rach_attempts"
    case LteMeasReport => "lte_meas_report"
    case LteHoCmd => "lte_ho_cmd"
    case LteHoComplete => "lte_ho_complete"
    case WcdmaAsuCmd => "wcdma_asu_cmd"
    case WcdmaAsuComplete => "wcdma_asu_complete"
    case WcdmaCellUpdate => "wcdma_cell_update"
    case WcdmaCellUpdateConfirm => "wcdma_cell_update_confirm"
    case PdpReq => "pdp_req"
    case PdpAcc => "pdp_acc"
    case LteSecCmd => "lte_sec_cmd"
    case LteSecComplete => "lte_sec_complete"
    case WcdmaSecCmd => "wcdma_sec_cmd"
    case WcdmaSecComplete => "wcdma_sec_complete"
    case LteLocationUpdate => "lte_location_update"
    case WcdmaRauReq => "wcdma_rau_req"
    case WcdmaRauAcc => "wcdma_rau_acc"
  }

  /** The display filter `analyze` passes to tshark for the event. */
  function Filter(e: Event): string {
    match e
    case LteRrcReq => "lte-rrc.rrcConnectionRequest_element"
    case LteRrcSetup => "lte-rrc.rrcConnectionSetup_element"
    case LteAttachReq => "nas_eps.nas_msg_emm_type == 0x41"
    case LteAttachAcc => "nas_eps.nas_msg_emm_type == 0x42"
    case LteTauReq => "nas_eps.nas_msg_emm_type == 0x48"
    case LteTauAcc => "nas_eps.nas_msg_emm_type == 0x49"
    case LteErabSetup => "lte-rrc.rrcConnectionReconfiguration_element"
    case LtePdnReq => "nas_eps.nas_msg_esm_type == 0xd0"
    case LtePdnAcc => "nas_eps.nas_msg_esm_type == 0xd1"
    case LteServiceReq => "nas_eps.nas_msg_emm_type == 0x4c"
    case LteServiceAcc => "nas_eps.nas_msg_emm_type == 0x4d"
    case WcdmaRrcReq => "rrc.rrcConnectionRequest_element"
    case WcdmaRrcSetup => "rrc.rrcConnectionSetup_element"
    case WcdmaRabAssign => "rrc.radioBearerSetup"
    case WcdmaRabComplete => "rrc.radioBearerSetupComplete_element"
    case WcdmaHoCmd => "rrc.physicalChannelReconfiguration"
    case WcdmaHoComplete => "rrc.physicalChannelReconfigurationComplete_element"
    case CallSetup => "gsm_a.dtap.msg_cc_type == 0x05"
    case CallConnect => "gsm_a.dtap.msg_cc_type == 0x0f"
    case CallDisconnect => "gsm_a.dtap.msg_cc_type == 0x25"
    case RachAttempts => "gsm_a.rach"
    case LteMeasReport => "lte-rrc.measurementReport_element"
    case LteHoCmd => "lte-rrc.mobilityFromEUTRACommand_element"
    case LteHoComplete => "lte-rrc.rrcConnectionReconfigurationComplete_element"
    case WcdmaAsuCmd => "rrc.activeSetUpdate_element"
    case WcdmaAsuComplete => "rrc.activeSetUpdateComplete_element"
    case WcdmaCellUpdate => "rrc.cellUpdate_element"
    case WcdmaCellUpdateConfirm => "rrc.cellUpdateConfirm_element"
    case PdpReq => "gsm_a.gm.sm.msg_type == 0x41"
    case PdpAcc => "gsm_a.gm.sm.msg_type == 0x42"
    case LteSecCmd => "lte-rrc.securityModeCommand_element"
    case LteSecComplete => "lte-rrc.securityModeComplete_element"
    case WcdmaSecCmd => "rrc.securityModeCommand_element"
    case WcdmaSecComplete => "rrc.securityModeComplete_element"
    case LteLocationUpdate => "gsm_a.dtap.msg_mm_type == 0x08"
    case WcdmaRauReq => "gsm_a.gm.gmm.msg_type == 0x08"
    case WcdmaRauAcc => "gsm_a.gm.gmm.msg_type == 0x09"
  }

  /** The success rates of the `kpis` dict. */
  datatype RateKpi =
    | LteRrcSuccess | LteAttachSuccess | LteTauSuccess | LtePdnSuccess | LteServiceSuccess
    | WcdmaRrcSuccess | WcdmaRabSuccess | WcdmaHoSuccess | CallSuccess | CallDropRate
    | LteHoSuccess | WcdmaAsuSuccess | WcdmaCellReselSuccess | PdpSuccess | LteSecSuccess
    | WcdmaSecSuccess | WcdmaRauSuccess

  function RateName(r: RateKpi): string {
    match r
    case LteRrcSuccess => "lte_rrc_success"
    case LteAttachSuccess => "lte_attach_success"
    case LteTauSuccess => "lte_tau_success"
    case LtePdnSuccess => "lte_pdn_success"
    case LteServiceSuccess => "lte_service_success"
    case WcdmaRrcSuccess => "wcdma_rrc_success"
    case WcdmaRabSuccess => "wcdma_rab_success"
    case WcdmaHoSuccess => "wcdma_ho_success"
    case CallSuccess => "call_success"
    case CallDropRate => "call_drop_rate"
    case LteHoSuccess => "lte_ho_success"
    case WcdmaAsuSuccess => "wcdma_asu_success"
    case WcdmaCellReselSuccess => "wcdma_cell_resel_success"
    case PdpSuccess => "pdp_success"
    case LteSecSuccess => "lte_sec_success"
    case WcdmaSecSuccess => "wcdma_sec_success"
    case WcdmaRauSuccess => "wcdma_rau_success"
  }

  const AllRates: set<RateKpi> := {
      LteRrcSuccess, LteAttachSuccess, LteTauSuccess, LtePdnSuccess, LteServiceSuccess,
      WcdmaRrcSuccess, WcdmaRabSuccess, WcdmaHoSuccess, CallSuccess, CallDropRate, LteHoSuccess,
      WcdmaAsuSuccess, WcdmaCellReselSuccess, PdpSuccess, LteSecSuccess, WcdmaSecSuccess,
      WcdmaRauSuccess
    }

  lemma RatesComplete(r: RateKpi)
    ensures r in AllRates
  {
  }

  /** `(succ / max(att, 1)) * 100` or `(succ / att * 100) if att > 0 else 0`. */
  datatype Form = MaxForm | GuardedForm

  /** Each rate's form, successes and attempts, as the dict writes them. */
  function RateRow(r: RateKpi): (Form, Event, Event) {
    match r
    case LteRrcSuccess => (MaxForm, LteRrcSetup, LteRrcReq)
    case LteAttachSuccess => (MaxForm, LteAttachAcc, LteAttachReq)
    case LteTauSuccess => (MaxForm, LteTauAcc, LteTauReq)
    case LtePdnSuccess => (MaxForm, LtePdnAcc, LtePdnReq)
    case LteServiceSuccess => (MaxForm, LteServiceAcc, LteServiceReq)
    case WcdmaRrcSuccess => (MaxForm, WcdmaRrcSetup, WcdmaRrcReq)
    case WcdmaRabSuccess => (MaxForm, WcdmaRabComplete, WcdmaRabAssign)
    case WcdmaHoSuccess => (MaxForm, WcdmaHoComplete, WcdmaHoCmd)
    case CallSuccess => (MaxForm, CallConnect, CallSetup)
    case CallDropRate => (MaxForm, CallDisconnect, CallConnect)
    case LteHoSuccess => (GuardedForm, LteHoComplete, LteHoCmd)
    case WcdmaAsuSuccess => (GuardedForm, WcdmaAsuComplete, WcdmaAsuCmd)
    case WcdmaCellReselSuccess => (GuardedForm, WcdmaCellUpdateConfirm, WcdmaCellUpdate)
    case PdpSuccess => (GuardedForm, PdpAcc, PdpReq)
    case LteSecSuccess => (GuardedForm, LteSecComplete, LteSecCmd)
    case WcdmaSecSuccess => (GuardedForm, WcdmaSecComplete, WcdmaSecCmd)
    case WcdmaRauSuccess => (GuardedForm, WcdmaRauAcc, WcdmaRauReq)
  }

  /** A key of the `kpis` dict: a count or a rate. */
  datatype Key = EventKey(e: Event) | RateKey(r: RateKpi)

  function KeyName(k: Key): string {
    match k
    case EventKey(e) => EventName(e)
    case RateKey(r) => RateName(r)
  }

  /** The events in the order `analyze` reads them. */
  const Analyzed: seq<Event> := [
      LteRrcReq, LteRrcSetup, LteAttachReq, LteAttachAcc, LteTauReq, LteTauAcc, LteErabSetup,
      LtePdnReq, LtePdnAcc, LteServiceReq, LteServiceAcc, WcdmaRrcReq, WcdmaRrcSetup,
      WcdmaRabAssign, WcdmaRabComplete, WcdmaHoCmd, WcdmaHoComplete, CallSetup, CallConnect,
      CallDisconnect, RachAttempts, LteMeasReport, LteHoCmd, LteHoComplete, WcdmaAsuCmd,
      WcdmaAsuComplete, WcdmaCellUpdate, WcdmaCellUpdateConfirm, PdpReq, PdpAcc, LteSecCmd,
      LteSecComplete, WcdmaSecCmd, WcdmaSecComplete, LteLocationUpdate, WcdmaRauReq, WcdmaRauAcc
    ]

  lemma AnalyzedComplete(e: Event)
    ensures e in Analyzed
  {
  }

  /** A dict filled one key at a time, in the order of `events`, with
      `f` of each key. */
  function Tabulate<V>(events: seq<Event>, f: Event -> V): map<Event, V>
    decreases |events|
  {
    if events == [] then map[]
    else Tabulate(events[..|events| - 1], f)[events[|events| - 1] := f(events[|events| - 1])]
  }

  /** The filled dict holds exactly the listed keys, each under its own
      value: a later assignment to the same key stores the same value. */
  lemma {:induction false} TabulateAt<V>(events: seq<Event>, f: Event -> V, e: Event)
    ensures e in Tabulate(events, f) <==> e in events
    ensures e in events ==> Tabulate(events, f)[e] == f(e)
    decreases |events|
  {
    if events != [] {
      var init := events[..|events| - 1];
      TabulateAt(init, f, e);
      assert events == init + [events[|events| - 1]];
    }
  }

  /** The counts `analyze` takes, one tshark run per filter. */
  function Counts(run: string -> Option<string>): map<Event, nat> {
    Tabulate(Analyzed, e => CountPackets(run(Filter(e))))
  }

  /** Every event has the count of its own filter. */
  lemma CountsEveryEvent(run: string -> Option<string>, e: Event)
    ensures e in Counts(run) && Counts(run)[e] == CountPackets(run(Filter(e)))
  {
    AnalyzedComplete(e);
    TabulateAt(Analyzed, e => CountPackets(run(Filter(e))), e);
  }

  /** The `event_details` dict: the details under the same keys. */
  function EventDetails(run: string -> Option<string>, toInt: string -> Option<int>, toFloat: string -> Option<real>)
    : map<Event, seq<Detail>>
  {
    Tabulate(Analyzed, e => PacketDetails(run(Filter(e)), toInt, toFloat))
  }

  /** Every event has the details of its own filter. */
  lemma DetailsEveryEvent(run: string -> Option<string>, toInt: string -> Option<int>, toFloat: string -> Option<real>, e: Event)
    ensures e in EventDetails(run, toInt, toFloat)
    ensures EventDetails(run, toInt, toFloat)[e] == PacketDetails(run(Filter(e)), toInt, toFloat)
  {
    AnalyzedComplete(e);
    TabulateAt(Analyzed, e => PacketDetails(run(Filter(e)), toInt, toFloat), e);
  }

  /** A value of the `kpis` dict: a count or a percentage. */
  datatype Value = Count(n: int) | Ratio(r: real)

  function Number(v: Value): real {
    match v
    case Count(n) => n as real
    case Ratio(r) => r
  }

  /** `(num / den * 100) if den > 0 else 0`, whose fallback is the integer
      0. */
  function GuardedValue(num: nat, den: nat): (v: Value)
    ensures Number(v) == Rates.GuardedRate(num, den)
    ensures den == 0 <==> v == Count(0)
  {
    if den > 0 then Ratio(num as real / den as real * 100.0) else Count(0)
  }

  /** One entry of the `kpis` dict. */
  function Kpi(c: map<Event, nat>, k: Key): Value {
    match k
    case EventKey(e) => Count(Get(c, e))
    case RateKey(r) =>
      var (form, succ, att) := RateRow(r);
      match form
      case MaxForm => Ratio(Rates.Rate(Get(c, succ), Get(c, att)))
      case GuardedForm => GuardedValue(Get(c, succ), Get(c, att))
  }

  /** The `kpis` dict `analyze` assigns. */
  function KpiTable(c: map<Event, nat>): (kpis: map<Key, Value>)
    ensures forall e :: EventKey(e) in kpis
    ensures forall r :: RateKey(r) in kpis
  {
    forall e { AnalyzedComplete(e); }
    forall r { RatesComplete(r); }
    map k | k in (set e | e in Analyzed :: EventKey(e)) + (set r | r in AllRates :: RateKey(r)) :: Kpi(c, k)
  }

  /** A rate whose successes stay within its attempts is a percentage. */
  lemma RateBounded(c: map<Event, nat>, r: RateKpi)
    ensures var (_, succ, att) := RateRow(r);
            Get(c, succ) <= Get(c, att) ==> 0.0 <= Number(KpiTable(c)[RateKey(r)]) <= 100.0
  {
    var (_, succ, att) := RateRow(r);
    if Get(c, succ) <= Get(c, att) {
      Rates.RateBounds(Get(c, succ), Get(c, att));
    }
  }

  /** A guarded rate agrees with the `max` form exactly when there are
      attempts or no successes: with successes but no attempts the `max`
      form reports 100 per success and the guarded one 0. */
  lemma FormsAgree(c: map<Event, nat>, r: RateKpi)
    ensures var (form, succ, att) := RateRow(r);
            (Number(KpiTable(c)[RateKey(r)]) == Rates.Rate(Get(c, succ), Get(c, att)))
            <==> (form == MaxForm || Get(c, att) > 0 || Get(c, succ) == 0)
  {
    var (_, succ, att) := RateRow(r);
    Rates.RateFormsAgree(Get(c, succ), Get(c, att));
  }

  /** Every rate entry is the rate of its row's successes over its
      attempts: the `max` form as a ratio for the first kind of row, the
      guarded form for the second, where no attempts give the integer 0. */
  lemma RateValue(c: map<Event, nat>, r: RateKpi)
    ensures var (form, succ, att) := RateRow(r);
            var v := KpiTable(c)[RateKey(r)];
            && (form == MaxForm ==> v == Ratio(Rates.Rate(Get(c, succ), Get(c, att))))
            && (form == GuardedForm ==> Number(v) == Rates.GuardedRate(Get(c, succ), Get(c, att)))
            && (form == GuardedForm ==> (v == Count(0) <==> Get(c, att) == 0))
  {
    var (form, succ, att) := RateRow(r);
    var v := KpiTable(c)[RateKey(r)];
    assert v == Kpi(c, RateKey(r));
  }

  /** The call drop rate divides disconnects by connects, not by setups. */
  lemma CallDropOverConnects(c: map<Event, nat>)
    ensures Number(KpiTable(c)[RateKey(CallDropRate)]) == Rates.Rate(Get(c, CallDisconnect), Get(c, CallConnect))
  {
    assert RateRow(CallDropRate) == (MaxForm, CallDisconnect, CallConnect);
    RateValue(c, CallDropRate);
  }

  // ------------------------------------------------- statistics and metrics

  /** `calc.kpis.get(key, 0)` for a count. */
  function CountOr0(kpis: map<Key, Value>, e: Event): int {
    if EventKey(e) in kpis && kpis[EventKey(e)].Count? then kpis[EventKey(e)].n else 0
  }

  /** The statistics groups that carry a `failures` field, named by their
      rate. */
  predicate HasFailures(r: RateKpi) {
    r in {LteRrcSuccess, LteAttachSuccess, LteTauSuccess, LtePdnSuccess, LteServiceSuccess,
          WcdmaRrcSuccess, WcdmaRabSuccess, WcdmaHoSuccess, CallSuccess}
  }

  /** The `failures` field: attempts minus successes. */
  function Failures(kpis: map<Key, Value>, r: RateKpi): int {
    var (_, succ, att) := RateRow(r);
    CountOr0(kpis, att) - CountOr0(kpis, succ)
  }

  /** The `failures` fields of `get_detailed_statistics_static`. */
  function FailureFields(kpis: map<Key, Value>): (f: map<RateKpi, int>)
    ensures forall r :: r in f <==> HasFailures(r)
  {
    forall r { RatesComplete(r); }
    map r | r in AllRates && HasFailures(r) :: Failures(kpis, r)
  }

  /** The field is not clamped: it is negative exactly when more successes
      than attempts were counted (the two come from different filters). */
  lemma FailuresSign(c: map<Event, nat>, r: RateKpi)
    requires HasFailures(r)
    ensures var (_, succ, att) := RateRow(r);
            && FailureFields(KpiTable(c))[r] == Get(c, att) - Get(c, succ)
            && (FailureFields(KpiTable(c))[r] < 0 <==> Get(c, succ) > Get(c, att))
  {
  }

  /** One RRC setup seen without its request gives -1 failures. */
  lemma NegativeFailures()
    ensures FailureFields(KpiTable(map[LteRrcSetup := 1]))[LteRrcSuccess] == -1
  {
    FailuresSign(map[LteRrcSetup := 1], LteRrcSuccess);
  }

  /** `scat_total_procedures` of the Prometheus text. */
  function PrometheusTotal(kpis: map<Key, Value>): int {
    CountOr0(kpis, LteRrcReq) + CountOr0(kpis, WcdmaRrcReq) + CountOr0(kpis, CallSetup)
  }

  /** The `total_procedures` that `analyze` logs. */
  function LoggedTotal(c: map<Event, nat>): nat {
    Get(c, LteRrcReq) + Get(c, LteAttachReq) + Get(c, LtePdnReq) + Get(c, LteServiceReq)
    + Get(c, WcdmaRrcReq) + Get(c, CallSetup) + Get(c, PdpReq) + Get(c, WcdmaRauReq)
    + Get(c, LteHoCmd) + Get(c, WcdmaAsuCmd) + Get(c, WcdmaCellUpdate)
  }

  /** The exported total sums three of the eleven procedures the log
      counts, so it agrees with the log only when the other eight are 0. */
  lemma TotalsCompared(c: map<Event, nat>)
    ensures PrometheusTotal(KpiTable(c)) <= LoggedTotal(c)
    ensures PrometheusTotal(KpiTable(c)) == LoggedTotal(c) <==>
              Get(c, LteAttachReq) == Get(c, LtePdnReq) == Get(c, LteServiceReq) == Get(c, PdpReq)
              == Get(c, WcdmaRauReq) == Get(c, LteHoCmd) == Get(c, WcdmaAsuCmd) == Get(c, WcdmaCellUpdate) == 0
  {
  }

  // -------------------------------------------------------------- analyze

  /** The calculator's state: the `kpis` and `event_details` dicts, empty
      until the first analysis. */
  class SimpleKpiCalculator {
    var kpis: map<Key, Value>
    var eventDetails: map<Event, seq<Detail>>

    constructor()
      ensures kpis == map[] && eventDetails == map[]
    {
      kpis := map[];
      eventDetails := map[];
    }

    /** `analyze`: tshark's output for the counting command (`run`) and for
        the details command (`runDetails`) on each filter. */
    method Analyze(run: string -> Option<string>, runDetails: string -> Option<string>,
                   toInt: string -> Option<int>, toFloat: string -> Option<real>)
      modifies this
      ensures eventDetails == EventDetails(runDetails, toInt, toFloat)
      ensures kpis == KpiTable(Counts(run))
    {
      eventDetails := map[];
      var details := EventDetails(runDetails, toInt, toFloat);
      var counts := Counts(run);
      var table := KpiTable(counts);
      eventDetails, kpis := details, table;
    }
  }
}
