/** The multi-RAT KPI calculator of the old SCAT scripts: it reads the
    decoded packet text line by line, classifies each upper-cased line with
    ordered substring tests, counts a few message kinds at most once per
    frame, collects signal samples, and derives success rates. */
module OldKpiCalculator {
  import opened Wrappers
  import opened Text
  import opened NumberSearch
  import opened Counters
  import Rates

  /** The calculator's integer counters, one per attribute. */
  datatype Counter =
    | LteRrcRequest | LteRrcSetupComplete | LteRrcReject
    | LteAttachRequest | LteAttachAccept | LteAttachReject
    | LteTauRequest | LteTauAccept | LteTauReject
    | LteServiceRequest | LteErabSetupRequest | LteErabSetupResponse
    | LteRachAttempt | LteRachResponse
    | LteHandoverCommand | LteHandoverComplete | LteHandoverFailure
    | LteCallSetup | LteCallConnect | LteCallDisconnect
    | LteRrcReleaseNormal | LteRrcReleaseAbnormal
    | LtePdnRequest | LtePdnAccept | LtePdnReject
    | LteBearerModifyRequest | LteBearerModifyAccept
    | WcdmaRrcRequest | WcdmaRrcSetupComplete | WcdmaRabRequest | WcdmaRabComplete
    | WcdmaCallSetup | WcdmaCallConnect | WcdmaHandoverCommand | WcdmaHandoverComplete
    | GsmCallSetup | GsmCallConnect | GsmHandoverCommand | GsmHandoverComplete
    | NrRrcRequest | NrRrcSetupComplete | NrRegistrationRequest | NrRegistrationAccept
    | MeasurementReports

  /** All the calculator's state: counters, sample lists, the packet count,
      the frame being read and the per-frame de-duplication keys. */
  datatype Calc = Calc(
    counts: map<Counter, nat>,
    lteRsrp: seq<int>, lteRsrq: seq<int>, wcdmaRscp: seq<int>, wcdmaEcno: seq<int>,
    totalPackets: nat,
    currentFrame: Option<string>,
    frameMessages: set<string>)

  const Initial := Calc(map[], [], [], [], [], 0, None, {})

  // ------------------------------------------------- frames and count_once

  /** `re.match(r'^FRAME (\d+):', line_upper)`: the frame number text. */
  function FrameHeader(u: string): (r: Option<string>)
    ensures r.Some? ==> StartsWith(u, "FRAME ") && |r.value| >= 1 && AllDigits(r.value)
  {
    if StartsWith(u, "FRAME ") && DigitRun(u, 6) > 0 && 6 + DigitRun(u, 6) < |u|
       && u[6 + DigitRun(u, 6)] == ':'
    then Some(u[6..6 + DigitRun(u, 6)])
    else None
  }

  /** The key `f"{current_frame}:{message_type}"`; no frame prints as None. */
  function Key(frame: Option<string>, tag: string): string {
    (match frame case Some(f) => f case None => "None") + ":" + tag
  }

  // ------------------------------------------------------------ LTE block

  /** What one classification block does with a line: the counter it
      raises, the samples it appends and the new de-duplication set. */
  datatype Outcome = Outcome(bump: Option<Counter>, first: seq<int>, second: seq<int>, seen: set<string>)

  predicate LteContext(u: string) {
    Contains(u, "LTE") || Contains(u, "EUTRAN") || Contains(u, "NAS EPS") || Contains(u, "EPS MOBILITY")
  }

  predicate LteRrcMessage(u: string) {
    Contains(u, "C1: RRCCONNECTIONREQUEST") || Contains(u, "C1: RRCCONNECTIONSETUP")
    || Contains(u, "C1: RRCCONNECTIONREJECT")
  }

  function OptionalSample(v: Option<int>): seq<int> {
    if v.Some? then [v.value] else []
  }

  /** A request/accept/reject triple, each counted once per frame: a kind
      whose key is already in the set lets the next kind be tried. */
  function Triple(u: string, frame: Option<string>, seen: set<string>, tags: seq<string>, cs: seq<Counter>): (r: Outcome)
    requires |tags| == 3 && |cs| == 3
    ensures seen <= r.seen && r.first == [] && r.second == []
    ensures r.bump.Some? <==> r.seen != seen
    ensures r.bump.Some? ==> exists k :: 0 <= k < 3 && r.bump == Some(cs[k]) && r.seen == seen + {Key(frame, tags[k])}
  {
    if Contains(u, "REQUEST") && Key(frame, tags[0]) !in seen then
      Outcome(Some(cs[0]), [], [], seen + {Key(frame, tags[0])})
    else if Contains(u, "ACCEPT") && Key(frame, tags[1]) !in seen then
      Outcome(Some(cs[1]), [], [], seen + {Key(frame, tags[1])})
    else if Contains(u, "REJECT") && Key(frame, tags[2]) !in seen then
      Outcome(Some(cs[2]), [], [], seen + {Key(frame, tags[2])})
    else Outcome(None, [], [], seen)
  }

  function Plain(b: Option<Counter>, seen: set<string>): Outcome {
    Outcome(b, [], [], seen)
  }

  /** The LTE `if/elif` chain; `first`/`second` are the RSRP/RSRQ samples.
      Only the three `C1:` RRC branches take de-duplication keys here; the
      rest of the chain is `LteProcedures`. */
  function LteBlock(u: string, frame: Option<string>, seen: set<string>): (r: Outcome)
    ensures seen <= r.seen
    ensures r.bump == Some(LteRrcRequest)
            <==> Contains(u, "C1: RRCCONNECTIONREQUEST") && Key(frame, "lte_rrc_request") !in seen
    ensures r.bump == Some(LteRrcRequest) ==> r.seen == seen + {Key(frame, "lte_rrc_request")}
  {
    if Contains(u, "C1: RRCCONNECTIONREQUEST") && Key(frame, "lte_rrc_request") !in seen then
      Plain(Some(LteRrcRequest), seen + {Key(frame, "lte_rrc_request")})
    else if Contains(u, "C1: RRCCONNECTIONSETUP") && Key(frame, "lte_rrc_setup") !in seen then
      Plain(Some(LteRrcSetupComplete), seen + {Key(frame, "lte_rrc_setup")})
    else if Contains(u, "C1: RRCCONNECTIONREJECT") && Key(frame, "lte_rrc_reject") !in seen then
      Plain(Some(LteRrcReject), seen + {Key(frame, "lte_rrc_reject")})
    else if Contains(u, "RRCCONNECTIONREJECT") then Plain(Some(LteRrcReject), seen)
    else if Contains(u, "RRCCONNECTIONRELEASE") then
      if Contains(u, "NORMAL") || Contains(u, "MO-SIGNALLING") then Plain(Some(LteRrcReleaseNormal), seen)
      else Plain(Some(LteRrcReleaseAbnormal), seen)
    else LteProcedures(u, frame, seen)
  }

  /** ATTACH and TAU (counted once per frame), then the NAS and RAN
      procedures counted on every line, then measurement reports. */
  function LteProcedures(u: string, frame: Option<string>, seen: set<string>): (r: Outcome)
    ensures seen <= r.seen
    ensures r.bump != Some(LteRrcRequest)
  {
    if Contains(u, "ATTACH") then
      Triple(u, frame, seen, ["lte_attach_request", "lte_attach_accept", "lte_attach_reject"],
             [LteAttachRequest, LteAttachAccept, LteAttachReject])
    else if Contains(u, "TAU") || Contains(u, "TRACKING AREA UPDATE") then
      Triple(u, frame, seen, ["lte_tau_request", "lte_tau_accept", "lte_tau_reject"],
             [LteTauRequest, LteTauAccept, LteTauReject])
    else if LteOtherBranch(u) then Plain(LteOther(u), seen)
    else if Contains(u, "MEASUREMENTREPORT") then
      Outcome(None, OptionalSample(SearchInt(u, ["RSRP"], NotDigitOrMinus, 0)),
              OptionalSample(SearchInt(u, ["RSRQ"], NotDigitOrMinus, 0)), seen)
    else Plain(None, seen)
  }

  /** The conditions of the `elif` branches from SERVICE REQUEST to BEARER MODIFY. */
  predicate LteOtherBranch(u: string) {
    Contains(u, "SERVICE REQUEST") || Contains(u, "E-RAB") || Contains(u, "ERAB") || Contains(u, "RACH")
    || Contains(u, "HANDOVER") || Contains(u, "PDN CONNECTIVITY") || Contains(u, "PDN CONNECTION")
    || (Contains(u, "BEARER") && Contains(u, "MODIFY"))
  }

  /** The counter those branches raise, if any. */
  function LteOther(u: string): (r: Option<Counter>)
    ensures r != Some(LteRrcRequest)
  {
    if Contains(u, "SERVICE REQUEST") then Some(LteServiceRequest)
    else if Contains(u, "E-RAB") || Contains(u, "ERAB") then
      if !Contains(u, "SETUP") then None
      else if Contains(u, "REQUEST") then Some(LteErabSetupRequest)
      else if Contains(u, "RESPONSE") || Contains(u, "COMPLETE") then Some(LteErabSetupResponse)
      else None
    else if Contains(u, "RACH") then
      if Contains(u, "ATTEMPT") || Contains(u, "REQUEST") then Some(LteRachAttempt)
      else if Contains(u, "RESPONSE") then Some(LteRachResponse)
      else None
    else if Contains(u, "HANDOVER") then
      if Contains(u, "COMMAND") then Some(LteHandoverCommand)
      else if Contains(u, "COMPLETE") then Some(LteHandoverComplete)
      else if Contains(u, "FAILURE") then Some(LteHandoverFailure)
      else None
    else if Contains(u, "PDN CONNECTIVITY") || Contains(u, "PDN CONNECTION") then
      if Contains(u, "REQUEST") then Some(LtePdnRequest)
      else if Contains(u, "ACCEPT") then Some(LtePdnAccept)
      else if Contains(u, "REJECT") then Some(LtePdnReject)
      else None
    else if Contains(u, "BEARER") && Contains(u, "MODIFY") then
      if Contains(u, "REQUEST") then Some(LteBearerModifyRequest)
      else if Contains(u, "ACCEPT") || Contains(u, "COMPLETE") then Some(LteBearerModifyAccept)
      else None
    else None
  }

  // ---------------------------------------------------------- WCDMA block

  predicate WcdmaContext(u: string) {
    Contains(u, "WCDMA") || Contains(u, "UMTS") || Contains(u, "UTRAN")
    || Contains(u, "MESSAGE: RRCCONNECTIONREQUEST") || Contains(u, "MESSAGE: RRCCONNECTIONSETUP")
  }

  /** `EC[/-]?NO`: the optional separator is tried first. */
  const EcNoKeys: seq<string> := ["EC/NO", "EC-NO", "ECNO"]

  /** The WCDMA chain; `first`/`second` are the RSCP/Ec-No samples. */
  function WcdmaBlock(u: string, frame: Option<string>, seen: set<string>): (r: Outcome)
    ensures seen <= r.seen
    ensures r.bump != Some(LteRrcRequest)
  {
    if Contains(u, "MESSAGE: RRCCONNECTIONREQUEST") && Key(frame, "wcdma_rrc_request") !in seen then
      Plain(Some(WcdmaRrcRequest), seen + {Key(frame, "wcdma_rrc_request")})
    else if Contains(u, "MESSAGE: RRCCONNECTIONSETUP") && Key(frame, "wcdma_rrc_setup") !in seen then
      Plain(Some(WcdmaRrcSetupComplete), seen + {Key(frame, "wcdma_rrc_setup")})
    else if Contains(u, "RAB") then
      if !Contains(u, "ASSIGNMENT") then Plain(None, seen)
      else if Contains(u, "REQUEST") then Plain(Some(WcdmaRabRequest), seen)
      else if Contains(u, "COMPLETE") then Plain(Some(WcdmaRabComplete), seen)
      else Plain(None, seen)
    else if Contains(u, "HANDOVER") then
      if Contains(u, "COMMAND") then Plain(Some(WcdmaHandoverCommand), seen)
      else if Contains(u, "COMPLETE") then Plain(Some(WcdmaHandoverComplete), seen)
      else Plain(None, seen)
    else if Contains(u, "MEASUREMENTREPORT") then
      var ecno := OptionalSample(SearchInt(u, EcNoKeys, NotDigitOrMinus, 0));
      Outcome(None, OptionalSample(SearchInt(u, ["RSCP"], NotDigitOrMinus, 0)), ecno + ecno, seen)
    else Plain(None, seen)
  }

  // ------------------------------------------------- GSM, NR, call control

  function GsmBlock(u: string): (r: Option<Counter>)
    ensures r.Some? ==> r.value in {GsmHandoverCommand, GsmHandoverComplete}
  {
    if Contains(u, "GSM") && Contains(u, "HANDOVER") then
      if Contains(u, "COMMAND") then Some(GsmHandoverCommand)
      else if Contains(u, "COMPLETE") then Some(GsmHandoverComplete)
      else None
    else None
  }

  function NrBlock(u: string): (r: Option<Counter>)
    ensures r.Some? ==> r.value in {NrRrcRequest, NrRrcSetupComplete, NrRegistrationRequest, NrRegistrationAccept}
  {
    if Contains(u, "5G") || Contains(u, "NR") then
      if Contains(u, "RRCSETUP") then
        if Contains(u, "REQUEST") then Some(NrRrcRequest)
        else if Contains(u, "COMPLETE") then Some(NrRrcSetupComplete)
        else None
      else if Contains(u, "REGISTRATION") then
        if Contains(u, "REQUEST") then Some(NrRegistrationRequest)
        else if Contains(u, "ACCEPT") then Some(NrRegistrationAccept)
        else None
      else None
    else None
  }

  /** The RAT a call-control line is booked under: LTE, then WCDMA, then GSM. */
  function ByRat(u: string, lte: Counter, wcdma: Counter, gsm: Counter): Option<Counter> {
    if Contains(u, "LTE") || Contains(u, "EUTRAN") then Some(lte)
    else if Contains(u, "WCDMA") || Contains(u, "UMTS") then Some(wcdma)
    else if Contains(u, "GSM") then Some(gsm)
    else None
  }

  function CallControlBlock(u: string): (r: Option<Counter>)
    ensures r.Some? ==> r.value in {LteCallSetup, WcdmaCallSetup, GsmCallSetup, LteCallConnect, WcdmaCallConnect,
                                    GsmCallConnect, LteCallDisconnect}
  {
    if Contains(u, "CC") || Contains(u, "CALL CONTROL") then
      if Contains(u, "SETUP") && !Contains(u, "COMPLETE") then
        ByRat(u, LteCallSetup, WcdmaCallSetup, GsmCallSetup)
      else if Contains(u, "CONNECT") && !Contains(u, "ACKNOWLEDGE") then
        ByRat(u, LteCallConnect, WcdmaCallConnect, GsmCallConnect)
      else if Contains(u, "DISCONNECT") then
        if Contains(u, "LTE") || Contains(u, "EUTRAN") then Some(LteCallDisconnect) else None
      else None
    else None
  }

  function MeasurementBlock(u: string): (r: Option<Counter>)
    ensures r.Some? ==> r.value == MeasurementReports
  {
    if Contains(u, "MEASUREMENT") && Contains(u, "REPORT") then Some(MeasurementReports) else None
  }

  // ------------------------------------------------------- process_packet

  /** `process_packet` on the calculator state. */
  function Step(c: Calc, line: string): Calc {
    var u := Upper(line);
    var c' := c.(totalPackets := c.totalPackets + 1);
    match FrameHeader(u)
    case Some(n) => c'.(currentFrame := Some(n), frameMessages := {})
    case None => Classify(c', u)
  }

  /** Every line counts as a packet; a frame header starts its frame, any
      other line goes through the classification blocks. */
  lemma StepCases(c: Calc, line: string)
    ensures var c' := c.(totalPackets := c.totalPackets + 1);
            && (FrameHeader(Upper(line)).Some? ==>
                  Step(c, line) == c'.(currentFrame := FrameHeader(Upper(line)), frameMessages := {}))
            && (FrameHeader(Upper(line)).None? ==> Step(c, line) == Classify(c', Upper(line)))
  {
  }

  /** The counters the blocks choose, in the order the source bumps them. */
  function Choices(u: string, lte: Outcome, w: Outcome): seq<Option<Counter>> {
    [lte.bump, w.bump, GsmBlock(u), NrBlock(u), CallControlBlock(u), MeasurementBlock(u)]
  }

  /** The classification blocks on a line that is not a frame header. */
  function Classify(c: Calc, u: string): Calc {
    var lte := if LteContext(u) || LteRrcMessage(u) then LteBlock(u, c.currentFrame, c.frameMessages)
               else Plain(None, c.frameMessages);
    var w := if WcdmaContext(u) then WcdmaBlock(u, c.currentFrame, lte.seen) else Plain(None, lte.seen);
    var counts := Bumps(c.counts, Choices(u, lte, w));
    c.(counts := counts, lteRsrp := c.lteRsrp + lte.first, lteRsrq := c.lteRsrq + lte.second,
       wcdmaRscp := c.wcdmaRscp + w.first, wcdmaEcno := c.wcdmaEcno + w.second, frameMessages := w.seen)
  }

  function Run(c: Calc, lines: seq<string>): Calc
    decreases |lines|
  {
    if lines == [] then c else Run(Step(c, lines[0]), lines[1..])
  }

  // --------------------------------------------------------- calculate_kpis

  /** The keys of the dictionary `calculate_kpis` returns. */
  datatype Kpi =
    | LteRrcSuccessRate | LteAttachSuccessRate | LteTauSuccessRate
    | LteErabSuccessRate | LteRachSuccessRate | LteHandoverSuccessRate
    | LteCallSuccessRate | LteCallDropRate | LteRrcAbnormalReleaseRate
    | LtePdnSuccessRate | LteBearerModifySuccessRate | LteRsrpAvg
    | LteRsrqAvg | WcdmaRrcSuccessRate | WcdmaRabSuccessRate
    | WcdmaCallSuccessRate | WcdmaHandoverSuccessRate | WcdmaRscpAvg
    | WcdmaEcnoAvg | GsmCallSuccessRate | GsmHandoverSuccessRate
    | NrRrcSuccessRate | NrRegistrationSuccessRate

  /** The key as the dictionary spells it. */
  function KpiName(k: Kpi): string {
    match k
    case LteRrcSuccessRate => "lte_rrc_success_rate"
    case LteAttachSuccessRate => "lte_attach_success_rate"
    case LteTauSuccessRate => "lte_tau_success_rate"
    case LteErabSuccessRate => "lte_erab_success_rate"
    case LteRachSuccessRate => "lte_rach_success_rate"
    case LteHandoverSuccessRate => "lte_handover_success_rate"
    case LteCallSuccessRate => "lte_call_success_rate"
    case LteCallDropRate => "lte_call_drop_rate"
    case LteRrcAbnormalReleaseRate => "lte_rrc_abnormal_release_rate"
    case LtePdnSuccessRate => "lte_pdn_success_rate"
    case LteBearerModifySuccessRate => "lte_bearer_modify_success_rate"
    case LteRsrpAvg => "lte_rsrp_avg"
    case LteRsrqAvg => "lte_rsrq_avg"
    case WcdmaRrcSuccessRate => "wcdma_rrc_success_rate"
    case WcdmaRabSuccessRate => "wcdma_rab_success_rate"
    case WcdmaCallSuccessRate => "wcdma_call_success_rate"
    case WcdmaHandoverSuccessRate => "wcdma_handover_success_rate"
    case WcdmaRscpAvg => "wcdma_rscp_avg"
    case WcdmaEcnoAvg => "wcdma_ecno_avg"
    case GsmCallSuccessRate => "gsm_call_success_rate"
    case GsmHandoverSuccessRate => "gsm_handover_success_rate"
    case NrRrcSuccessRate => "nr_rrc_success_rate"
    case NrRegistrationSuccessRate => "nr_registration_success_rate"
  }

  const AllKpis: set<Kpi> := {
      LteRrcSuccessRate, LteAttachSuccessRate, LteTauSuccessRate, LteErabSuccessRate,
      LteRachSuccessRate, LteHandoverSuccessRate, LteCallSuccessRate, LteCallDropRate,
      LteRrcAbnormalReleaseRate, LtePdnSuccessRate, LteBearerModifySuccessRate, LteRsrpAvg,
      LteRsrqAvg, WcdmaRrcSuccessRate, WcdmaRabSuccessRate, WcdmaCallSuccessRate,
      WcdmaHandoverSuccessRate, WcdmaRscpAvg, WcdmaEcnoAvg, GsmCallSuccessRate,
      GsmHandoverSuccessRate, NrRrcSuccessRate, NrRegistrationSuccessRate
  }

  lemma KpisComplete(k: Kpi)
    ensures k in AllKpis
  {
  }

  /** The four averages of the dictionary. */
  predicate IsAverage(k: Kpi) {
    k == LteRsrpAvg || k == LteRsrqAvg || k == WcdmaRscpAvg || k == WcdmaEcnoAvg
  }

  /** The samples an average is taken over. */
  function Samples(c: Calc, k: Kpi): seq<int> {
    match k
    case LteRsrpAvg => c.lteRsrp
    case LteRsrqAvg => c.lteRsrq
    case WcdmaRscpAvg => c.wcdmaRscp
    case WcdmaEcnoAvg => c.wcdmaEcno
    case _ => []
  }

  /** The successes a rate counts. */
  function Successes(c: Calc, k: Kpi): int {
    var n := c.counts;
    match k
    case LteRrcSuccessRate => Get(n, LteRrcSetupComplete)
    case LteAttachSuccessRate => Get(n, LteAttachAccept)
    case LteTauSuccessRate => Get(n, LteTauAccept)
    case LteErabSuccessRate => Get(n, LteErabSetupResponse)
    case LteRachSuccessRate => Get(n, LteRachResponse)
    case LteHandoverSuccessRate => Get(n, LteHandoverComplete)
    case LteCallSuccessRate => Get(n, LteCallConnect)
    case LteCallDropRate => Get(n, LteCallDisconnect)
    case LteRrcAbnormalReleaseRate => Get(n, LteRrcReleaseAbnormal)
    case LtePdnSuccessRate => Get(n, LtePdnAccept)
    case LteBearerModifySuccessRate => Get(n, LteBearerModifyAccept)
    case WcdmaRrcSuccessRate => Get(n, WcdmaRrcSetupComplete)
    case WcdmaRabSuccessRate => Get(n, WcdmaRabComplete)
    case WcdmaCallSuccessRate => Get(n, WcdmaCallConnect)
    case WcdmaHandoverSuccessRate => Get(n, WcdmaHandoverComplete)
    case GsmCallSuccessRate => Get(n, GsmCallConnect)
    case GsmHandoverSuccessRate => Get(n, GsmHandoverComplete)
    case NrRrcSuccessRate => Get(n, NrRrcSetupComplete)
    case NrRegistrationSuccessRate => Get(n, NrRegistrationAccept)
    case _ => 0
  }

  /** The attempts a rate divides by. */
  function Attempts(c: Calc, k: Kpi): int {
    var n := c.counts;
    match k
    case LteRrcSuccessRate => Get(n, LteRrcRequest)
    case LteAttachSuccessRate => Get(n, LteAttachRequest)
    case LteTauSuccessRate => Get(n, LteTauRequest)
    case LteErabSuccessRate => Get(n, LteErabSetupRequest)
    case LteRachSuccessRate => Get(n, LteRachAttempt)
    case LteHandoverSuccessRate => Get(n, LteHandoverCommand)
    case LteCallSuccessRate => Get(n, LteCallSetup)
    case LteCallDropRate => Get(n, LteCallConnect)
    case LteRrcAbnormalReleaseRate => Get(n, LteRrcReleaseNormal) + Get(n, LteRrcReleaseAbnormal)
    case LtePdnSuccessRate => Get(n, LtePdnRequest)
    case LteBearerModifySuccessRate => Get(n, LteBearerModifyRequest)
    case WcdmaRrcSuccessRate => Get(n, WcdmaRrcRequest)
    case WcdmaRabSuccessRate => Get(n, WcdmaRabRequest)
    case WcdmaCallSuccessRate => Get(n, WcdmaCallSetup)
    case WcdmaHandoverSuccessRate => Get(n, WcdmaHandoverCommand)
    case GsmCallSuccessRate => Get(n, GsmCallSetup)
    case GsmHandoverSuccessRate => Get(n, GsmHandoverCommand)
    case NrRrcSuccessRate => Get(n, NrRrcRequest)
    case NrRegistrationSuccessRate => Get(n, NrRegistrationRequest)
    case _ => 0
  }

  function AverageKpi(c: Calc, k: Kpi): real
    requires IsAverage(k)
  {
    Rates.Average(Samples(c, k))
  }

  function RateKpi(c: Calc, k: Kpi): real
    requires !IsAverage(k)
  {
    Rates.Rate(Successes(c, k), Attempts(c, k))
  }

  /** One entry of `calculate_kpis`: an average of samples, or a rate of
      the `max(att, 1)` form. */
  function KpiValue(c: Calc, k: Kpi): real {
    if IsAverage(k) then AverageKpi(c, k) else RateKpi(c, k)
  }

  /** `calculate_kpis`: a dictionary with every key. */
  function Kpis(c: Calc): map<Kpi, real> {
    map k | k in AllKpis :: KpiValue(c, k)
  }

  /** The dictionary has an entry for every key. */
  lemma KpisHaveEveryKey(c: Calc)
    ensures Kpis(c).Keys == AllKpis
  {
  }

  /** An entry of the dictionary is its rate or its average. */
  lemma KpiEntry(c: Calc, k: Kpi)
    ensures k in Kpis(c) && Kpis(c)[k] == KpiValue(c, k)
  {
    KpisComplete(k);
  }

  // ------------------------------------------------------------ properties

  /** Every line, frame header or not, counts as one packet. */
  lemma StepCountsPacket(c: Calc, line: string)
    ensures Step(c, line).totalPackets == c.totalPackets + 1
  {
  }

  /** A `FRAME N:` line starts frame N with an empty key set and changes no
      counter and no sample list. */
  lemma FrameLineResets(c: Calc, line: string, n: string)
    requires FrameHeader(Upper(line)) == Some(n)
    ensures Step(c, line) == c.(totalPackets := c.totalPackets + 1, currentFrame := Some(n), frameMessages := {})
  {
  }

  /** Inside a frame the frame stays and de-duplication keys only accumulate. */
  lemma StepKeepsFrame(c: Calc, line: string)
    requires FrameHeader(Upper(line)).None?
    ensures Step(c, line).currentFrame == c.currentFrame
    ensures c.frameMessages <= Step(c, line).frameMessages
  {
  }

  /** No counter ever goes down. */
  lemma CountersNeverDecrease(c: Calc, line: string, k: Counter)
    ensures Get(Step(c, line).counts, k) >= Get(c.counts, k)
  {
    var u := Upper(line);
    if FrameHeader(u).None? {
      var lte := if LteContext(u) || LteRrcMessage(u) then LteBlock(u, c.currentFrame, c.frameMessages)
                 else Plain(None, c.frameMessages);
      var w := if WcdmaContext(u) then WcdmaBlock(u, c.currentFrame, lte.seen) else Plain(None, lte.seen);
      BumpsGet(c.counts, Choices(u, lte, w), k);
    }
  }

  /** The line raises `lte_rrc_request`: an RRC request in LTE context whose
      key for the current frame is not yet taken. */
  predicate RequestCounted(c: Calc, line: string) {
    var u := Upper(line);
    FrameHeader(u).None? && (LteContext(u) || LteRrcMessage(u))
    && Contains(u, "C1: RRCCONNECTIONREQUEST") && Key(c.currentFrame, "lte_rrc_request") !in c.frameMessages
  }

  /** Of the blocks after the LTE one, none raises `lte_rrc_request`. */
  lemma OnlyLteRequests(u: string, lte: Outcome, w: Outcome)
    requires w.bump != Some(LteRrcRequest)
    ensures forall i :: 1 <= i < |Choices(u, lte, w)| ==> Choices(u, lte, w)[i] != Some(LteRrcRequest)
  {
  }

  /** The classification blocks raise `lte_rrc_request` exactly when the
      LTE block takes the frame's request key. */
  lemma ClassifyRequest(c: Calc, u: string)
    ensures var counted := (LteContext(u) || LteRrcMessage(u)) && Contains(u, "C1: RRCCONNECTIONREQUEST")
                           && Key(c.currentFrame, "lte_rrc_request") !in c.frameMessages;
            && Get(Classify(c, u).counts, LteRrcRequest) == Get(c.counts, LteRrcRequest) + (if counted then 1 else 0)
            && (counted ==> Key(c.currentFrame, "lte_rrc_request") in Classify(c, u).frameMessages)
  {
    var lte := if LteContext(u) || LteRrcMessage(u) then LteBlock(u, c.currentFrame, c.frameMessages)
               else Plain(None, c.frameMessages);
    var w := if WcdmaContext(u) then WcdmaBlock(u, c.currentFrame, lte.seen) else Plain(None, lte.seen);
    var bs := Choices(u, lte, w);
    OnlyLteRequests(u, lte, w);
    BumpsGet(c.counts, bs, LteRrcRequest);
    OnlyFirstChooses(bs, Some(LteRrcRequest));
  }

  /** `lte_rrc_request` moves exactly on the lines that pass `count_once`, and
      those lines take the key. */
  lemma RequestStep(c: Calc, line: string)
    ensures Get(Step(c, line).counts, LteRrcRequest)
            == Get(c.counts, LteRrcRequest) + (if RequestCounted(c, line) then 1 else 0)
    ensures RequestCounted(c, line) ==> Key(c.currentFrame, "lte_rrc_request") in Step(c, line).frameMessages
  {
    var u := Upper(line);
    if FrameHeader(u).None? {
      ClassifyRequest(c.(totalPackets := c.totalPackets + 1), u);
    }
  }

  /** Within one frame (no `FRAME N:` line in between), however many
      `C1: RRCCONNECTIONREQUEST` lines arrive, `lte_rrc_request` rises at
      most once, and not at all once the frame's key is taken. */
  lemma {:induction false} RequestOncePerFrame(c: Calc, lines: seq<string>)
    requires forall i :: 0 <= i < |lines| ==> FrameHeader(Upper(lines[i])).None?
    ensures Get(Run(c, lines).counts, LteRrcRequest)
            <= Get(c.counts, LteRrcRequest) + (if Key(c.currentFrame, "lte_rrc_request") in c.frameMessages then 0 else 1)
    decreases |lines|
  {
    if lines != [] {
      var c1 := Step(c, lines[0]);
      RequestStep(c, lines[0]);
      StepKeepsFrame(c, lines[0]);
      RequestOncePerFrame(c1, lines[1..]);
    }
  }

  /** An RRC release that reaches its branch is normal exactly when the line
      says NORMAL or MO-SIGNALLING, and abnormal otherwise. */
  lemma ReleaseClassified(u: string, frame: Option<string>, seen: set<string>)
    requires Contains(u, "RRCCONNECTIONRELEASE") && !Contains(u, "RRCCONNECTIONREJECT")
    requires !Contains(u, "C1: RRCCONNECTIONREQUEST") && !Contains(u, "C1: RRCCONNECTIONSETUP")
    ensures LteBlock(u, frame, seen).bump == Some(LteRrcReleaseNormal)
            <==> Contains(u, "NORMAL") || Contains(u, "MO-SIGNALLING")
    ensures LteBlock(u, frame, seen).bump == Some(LteRrcReleaseAbnormal)
            <==> !(Contains(u, "NORMAL") || Contains(u, "MO-SIGNALLING"))
  {
    if Contains(u, "C1: RRCCONNECTIONREJECT") {
      ContainsTransitive(u, "C1: RRCCONNECTIONREJECT", "RRCCONNECTIONREJECT") by {
        assert OccursAt("C1: RRCCONNECTIONREJECT", "RRCCONNECTIONREJECT", 4);
      }
    }
  }

  /** A call-control line that says both SETUP and COMPLETE never counts as a
      call setup. */
  lemma NoSetupOnComplete(u: string)
    requires Contains(u, "SETUP") && Contains(u, "COMPLETE")
    ensures CallControlBlock(u) !in {Some(LteCallSetup), Some(WcdmaCallSetup), Some(GsmCallSetup)}
  {
  }

  /** A WCDMA measurement report with an Ec/No value appends that value
      twice, and an RSCP value once. */
  lemma EcNoAppendedTwice(u: string, frame: Option<string>, seen: set<string>)
    requires !Contains(u, "MESSAGE: RRCCONNECTIONREQUEST") && !Contains(u, "MESSAGE: RRCCONNECTIONSETUP")
    requires !Contains(u, "RAB") && !Contains(u, "HANDOVER") && Contains(u, "MEASUREMENTREPORT")
    ensures var v := SearchInt(u, EcNoKeys, NotDigitOrMinus, 0);
            WcdmaBlock(u, frame, seen).second == (if v.Some? then [v.value, v.value] else [])
    ensures |WcdmaBlock(u, frame, seen).first| == (if SearchInt(u, ["RSCP"], NotDigitOrMinus, 0).Some? then 1 else 0)
  {
  }

  // ------------------------------------------------------ the calculator

  class ComprehensiveKpiCalculator {
    var counts: map<Counter, nat>
    var lteRsrp: seq<int>
    var lteRsrq: seq<int>
    var wcdmaRscp: seq<int>
    var wcdmaEcno: seq<int>
    var totalPackets: nat
    var currentFrame: Option<string>
    var frameMessages: set<string>

    function State(): Calc
      reads this
    {
      Calc(counts, lteRsrp, lteRsrq, wcdmaRscp, wcdmaEcno, totalPackets, currentFrame, frameMessages)
    }

    constructor ()
      ensures State() == Initial
    {
      counts, lteRsrp, lteRsrq, wcdmaRscp, wcdmaEcno := map[], [], [], [], [];
      totalPackets, currentFrame, frameMessages := 0, None, {};
    }

    /** `process_packet(line)`. */
    method ProcessPacket(line: string)
      modifies this
      ensures State() == Step(old(State()), line)
    {
      StepCases(State(), line);
      totalPackets := totalPackets + 1;
      var u := Upper(line);
      var header := FrameHeader(u);
      if header.Some? {
        currentFrame := header;
        frameMessages := {};
        return;
      }
      ghost var c1 := State();
      var lte := Plain(None, frameMessages);
      if LteContext(u) || LteRrcMessage(u) {
        lte := LteBlock(u, currentFrame, frameMessages);
      }
      var w := Plain(None, lte.seen);
      if WcdmaContext(u) {
        w := WcdmaBlock(u, currentFrame, lte.seen);
      }
      counts := Bumps(counts, Choices(u, lte, w));
      lteRsrp, lteRsrq := lteRsrp + lte.first, lteRsrq + lte.second;
      wcdmaRscp, wcdmaEcno := wcdmaRscp + w.first, wcdmaEcno + w.second;
      frameMessages := w.seen;
      assert State() == Classify(c1, u);
    }

    /** `calculate_kpis()`. */
    function CalculateKpis(): map<Kpi, real>
      reads this
    {
      Kpis(State())
    }
  }
}
