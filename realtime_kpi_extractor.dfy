/** The real-time KPI extractor: each SCAT output line is classified by an
    ordered chain of substring tests and updates per-KPI records (attempt
    total, successes, counts per cause and per cell, measurement samples),
    the serving cell and the last establishment cause;
    `calculate_success_rates` summarises every KPI with attempts. */
module RealtimeKpiExtractor {
  import opened Wrappers
  import opened Text
  import opened NumberSearch
  import opened Patterns
  import opened Counters
  import Rates

  // ----------------------------------------------------------- the record

  datatype CellCount = CellCount(total: nat, success: nat)

  /** One RSRP sample; the source keeps the numbers as floats parsed from
      integer text. */
  datatype Measurement = Measurement(value: int, rsrq: Option<int>, cellId: Option<string>, timestamp: string)

  /** The per-KPI record of the `defaultdict`. */
  datatype KpiData = KpiData(
    total: nat, success: nat,
    byCause: map<string, nat>,
    byCell: map<string, CellCount>,
    measurements: seq<Measurement>,
    timestamps: seq<string>)

  const EmptyData := KpiData(0, 0, map[], map[], [], [])

  /** `self.kpis[name]`: a missing name reads as a fresh record. */
  function Entry(kpis: map<string, KpiData>, name: string): KpiData {
    if name in kpis then kpis[name] else EmptyData
  }

  function Cell(byCell: map<string, CellCount>, c: string): CellCount {
    if c in byCell then byCell[c] else CellCount(0, 0)
  }

  /** The extractor's state (`rrc_state` is never assigned and is left out). */
  datatype Extractor = Extractor(
    kpis: map<string, KpiData>,
    currentCell: Option<string>,
    establishmentCause: Option<string>)

  const Initial := Extractor(map[], None, None)

  // --------------------------------------------------------------- causes

  const EstablishmentKeys: seq<string> := ["emergency", "highPriorityAccess", "mt-Access", "mo-Signalling", "mo-Data"]
  const EstablishmentNames: seq<string> := ["EMERGENCY", "HIGH_PRIORITY_ACCESS", "MT_ACCESS", "MO_SIGNAL", "MO_DATA"]
  const ReleaseKeys: seq<string> := ["loadBalancingTAUrequired", "cs-FallbackHighPriority", "rrc-Suspend"]
  const ReleaseNames: seq<string> := ["LB_TAU", "CSFB", "SUSPEND"]

  /** The name of the first key (in dictionary order) found in the line, else
      the fallback. */
  function CauseOf(line: string, keys: seq<string>, names: seq<string>, fallback: string): (r: string)
    requires |keys| == |names|
    ensures r == fallback <==> (FirstMatch(line, Words(keys), false).None? || names[FirstMatch(line, Words(keys), false).value] == fallback)
  {
    match FirstMatch(line, Words(keys), false)
    case Some(i) => names[i]
    case None => fallback
  }

  /** `_extract_establishment_cause`. */
  function EstablishmentCause(line: string): string {
    CauseOf(line, EstablishmentKeys, EstablishmentNames, "UNKNOWN")
  }

  /** `_extract_release_cause`. */
  function ReleaseCause(line: string): string {
    CauseOf(line, ReleaseKeys, ReleaseNames, "OTHER")
  }

  /** Cause `i` is reported exactly when its key is in the line and no
      earlier key is; no key at all gives the fallback. */
  lemma CauseIsFirstKey(line: string, keys: seq<string>, names: seq<string>, fallback: string, i: nat)
    requires |keys| == |names| && i < |keys|
    requires forall j :: 0 <= j < |names| ==> names[j] != fallback
    requires forall j, k :: 0 <= j < k < |names| ==> names[j] != names[k]
    ensures CauseOf(line, keys, names, fallback) == names[i]
            <==> Contains(line, keys[i]) && forall j :: 0 <= j < i ==> !Contains(line, keys[j])
    ensures CauseOf(line, keys, names, fallback) == fallback <==> forall j :: 0 <= j < |keys| ==> !Contains(line, keys[j])
  {
    forall j | 0 <= j < |keys| {
      WordsMatch(line, keys, j);
    }
    FirstMatchIff(line, Words(keys), false, i);
    var r := FirstMatch(line, Words(keys), false);
    if r.Some? && names[r.value] == names[i] {
      assert r.value == i;
    }
  }

  /** The establishment cause is the first key found, else UNKNOWN. */
  lemma EstablishmentCauseSpec(line: string, i: nat)
    requires i < |EstablishmentKeys|
    ensures EstablishmentCause(line) == EstablishmentNames[i]
            <==> Contains(line, EstablishmentKeys[i]) && forall j :: 0 <= j < i ==> !Contains(line, EstablishmentKeys[j])
    ensures EstablishmentCause(line) == "UNKNOWN"
            <==> forall j :: 0 <= j < |EstablishmentKeys| ==> !Contains(line, EstablishmentKeys[j])
  {
    CauseIsFirstKey(line, EstablishmentKeys, EstablishmentNames, "UNKNOWN", i);
  }

  /** The release cause is the first key found, else OTHER. */
  lemma ReleaseCauseSpec(line: string, i: nat)
    requires i < |ReleaseKeys|
    ensures ReleaseCause(line) == ReleaseNames[i]
            <==> Contains(line, ReleaseKeys[i]) && forall j :: 0 <= j < i ==> !Contains(line, ReleaseKeys[j])
    ensures ReleaseCause(line) == "OTHER"
            <==> forall j :: 0 <= j < |ReleaseKeys| ==> !Contains(line, ReleaseKeys[j])
  {
    CauseIsFirstKey(line, ReleaseKeys, ReleaseNames, "OTHER", i);
  }

  // --------------------------------------------------------- measurements

  /** `_extract_measurements`: `RSRP[:\s=]+(-?\d+)`, `RSRQ[:\s=]+(-?\d+)`
      and `(?:Cell|PCI)[:\s=]+(\d+)`, all case-insensitive. */
  function Rsrp(line: string): Option<int> { SearchInt(Lower(line), ["rsrp"], ColonSpaceOrEquals, 1) }
  function Rsrq(line: string): Option<int> { SearchInt(Lower(line), ["rsrq"], ColonSpaceOrEquals, 1) }
  function CellId(line: string): (r: Option<string>)
    ensures r.Some? ==> |r.value| >= 1 && AllDigits(r.value)
  {
    var m := Find(Lower(line), ["cell", "pci"], ColonSpaceOrEquals, 1, false, 0);
    if m.Some? then FindShape(Lower(line), ["cell", "pci"], ColonSpaceOrEquals, 1, false, 0); m
    else None
  }

  // ----------------------------------------------------- the line chain

  /** The `if/elif` chain of `process_line`, one row per branch. */
  const AsWrittenTable: seq<Alternation> := [
    [AllOf(["RRCConnectionRequest"]), AllOf(["rrcConnectionRequest"])],
    [AllOf(["RRCConnectionSetupComplete"]), AllOf(["rrcConnectionSetupComplete"])],
    [AllOf(["RRCConnectionRelease"]), AllOf(["rrcConnectionRelease"])],
    [AllOf(["RSRP"]), AllOf(["rsrp"])],
    [AllOf(["HandoverCommand"]), AllOf(["mobilityFromEUTRACommand"])],
    [AllOf(["HandoverComplete"]), AllOf(["rrcConnectionReconfigurationComplete"])],
    [AllOf(["AttachRequest"]), AllOf(["ATTACH REQUEST"])],
    [AllOf(["AttachAccept"]), AllOf(["ATTACH ACCEPT"])],
    [AllOf(["TAURequest"]), AllOf(["TRACKING AREA UPDATE REQUEST"])],
    [AllOf(["TAUAccept"]), AllOf(["TRACKING AREA UPDATE ACCEPT"])],
    [AllOf(["RRCSetup", "NR"])],
    [AllOf(["RRCSetupComplete", "NR"])]
  ]

  /** The branches a row leads to. */
  datatype Branch =
    | RrcRequest | RrcSetupComplete | RrcRelease | RsrpReport
    | HandoverCommand | HandoverComplete | AttachRequest | AttachAccept
    | TauRequest | TauAccept | NrSetup | NrSetupComplete

  const AsWrittenBranches: seq<Branch> :=
    [RrcRequest, RrcSetupComplete, RrcRelease, RsrpReport, HandoverCommand, HandoverComplete,
     AttachRequest, AttachAccept, TauRequest, TauAccept, NrSetup, NrSetupComplete]

  /** As written, the NR setup-complete branch can never be taken: every
      `RRCSetupComplete` line holds `RRCSetup`, so the row before it fires. */
  lemma NrSetupCompleteUnreachable(line: string)
    ensures FirstMatch(line, AsWrittenTable, false) != Some(11)
  {
    if FirstMatch(line, AsWrittenTable, false) == Some(11) {
      MatchesOne(line, AllOf(["RRCSetupComplete", "NR"]), false);
      AllOfTwo(line, "RRCSetupComplete", "NR");
      ContainsTransitive(line, "RRCSetupComplete", "RRCSetup") by {
        assert OccursAt("RRCSetupComplete", "RRCSetup", 0);
      }
      MatchesOne(line, AllOf(["RRCSetup", "NR"]), false);
      AllOfTwo(line, "RRCSetup", "NR");
    }
  }

  /** The chain with the two NR rows in the order that lets both fire: the
      more specific `RRCSetupComplete` test first. */
  const CorrectedTable: seq<Alternation> := AsWrittenTable[..10] + [AsWrittenTable[11], AsWrittenTable[10]]
  const CorrectedBranches: seq<Branch> := AsWrittenBranches[..10] + [NrSetupComplete, NrSetup]

  /** The order of the two NR tests: as `process_line` writes them, or with
      the setup-complete test first. */
  datatype NrOrder = AsWritten | CompleteFirst

  function TableOf(o: NrOrder): seq<Alternation> {
    if o == AsWritten then AsWrittenTable else CorrectedTable
  }

  function BranchesOf(o: NrOrder): seq<Branch> {
    if o == AsWritten then AsWrittenBranches else CorrectedBranches
  }

  /** The branch a line takes under order `o`, if any. */
  function BranchOf(o: NrOrder, line: string): (r: Option<Branch>)
    ensures r.Some? <==> exists i :: 0 <= i < |TableOf(o)| && Matches(line, TableOf(o)[i], false)
  {
    var i := FirstMatch(line, TableOf(o), false);
    if i.Some? then Some(BranchesOf(o)[i.value]) else None
  }

  /** As written, a line that holds `RRCSetupComplete` and `NR` and that no
      earlier branch claims raises the 5G attempt count; with the corrected
      order it raises the 5G success count. */
  lemma NrSetupCompleteCounted(line: string)
    requires forall i :: 0 <= i < 10 ==> !Matches(line, AsWrittenTable[i], false)
    requires Contains(line, "RRCSetupComplete") && Contains(line, "NR")
    ensures BranchOf(AsWritten, line) == Some(NrSetup)
    ensures BranchOf(CompleteFirst, line) == Some(NrSetupComplete)
  {
    MatchesOne(line, AllOf(["RRCSetupComplete", "NR"]), false);
    AllOfTwo(line, "RRCSetupComplete", "NR");
    assert CorrectedTable[10] == [AllOf(["RRCSetupComplete", "NR"])];
    forall j | 0 <= j < 10
      ensures !Matches(line, CorrectedTable[j], false)
    {
      assert CorrectedTable[j] == AsWrittenTable[j];
    }
    FirstMatchIff(line, CorrectedTable, false, 10);
    ContainsTransitive(line, "RRCSetupComplete", "RRCSetup") by {
      assert OccursAt("RRCSetupComplete", "RRCSetup", 0);
    }
    MatchesOne(line, AllOf(["RRCSetup", "NR"]), false);
    AllOfTwo(line, "RRCSetup", "NR");
    FirstMatchIff(line, AsWrittenTable, false, 10);
  }

  // --------------------------------------------------------- process_line

  /** `+= 1` on a per-KPI field, a cause or a cell count. */
  function AddTotal(d: KpiData): KpiData { d.(total := d.total + 1) }
  function AddSuccess(d: KpiData): KpiData { d.(success := d.success + 1) }
  function AddCause(d: KpiData, cause: string): KpiData { d.(byCause := Inc(d.byCause, cause)) }
  function AddCellTotal(d: KpiData, c: string): KpiData {
    d.(byCell := d.byCell[c := Cell(d.byCell, c).(total := Cell(d.byCell, c).total + 1)])
  }
  function AddCellSuccess(d: KpiData, c: string): KpiData {
    d.(byCell := d.byCell[c := Cell(d.byCell, c).(success := Cell(d.byCell, c).success + 1)])
  }

  function Put(s: Extractor, name: string, d: KpiData): Extractor {
    s.(kpis := s.kpis[name := d])
  }

  /** `process_line(line)` at time `now` (the `isoformat()` text). */
  function Step(o: NrOrder, s: Extractor, line: string, now: string): Extractor {
    match BranchOf(o, line)
    case None => s
    case Some(b) => Apply(s, b, line, now)
  }

  function Apply(s: Extractor, b: Branch, line: string, now: string): Extractor {
    match b
    case RrcRequest =>
      var cause := EstablishmentCause(line);
      var d := AddCause(AddTotal(Entry(s.kpis, "LTE_RRC")), cause);
      Put(s, "LTE_RRC", d.(timestamps := d.timestamps + [now])).(establishmentCause := Some(cause))
    case RrcSetupComplete =>
      var d := AddSuccess(Entry(s.kpis, "LTE_RRC"));
      Put(s, "LTE_RRC", if s.establishmentCause.Some? then AddCause(d, s.establishmentCause.value + "_SUCCESS") else d)
    case RrcRelease =>
      Put(s, "LTE_RRC_RELEASE", AddCause(Entry(s.kpis, "LTE_RRC_RELEASE"), ReleaseCause(line)))
    case RsrpReport =>
      var rsrp := Rsrp(line);
      if rsrp.Some? && rsrp.value != 0 then
        var d := Entry(s.kpis, "RSRP");
        var m := Measurement(rsrp.value, Rsrq(line), CellId(line), now);
        var s' := Put(s, "RSRP", d.(measurements := d.measurements + [m]));
        if CellId(line).Some? then s'.(currentCell := CellId(line)) else s'
      else s
    case HandoverCommand =>
      var d := AddTotal(Entry(s.kpis, "LTE_HO"));
      Put(s, "LTE_HO", if s.currentCell.Some? then AddCellTotal(d, s.currentCell.value) else d)
    case HandoverComplete =>
      var d := AddSuccess(Entry(s.kpis, "LTE_HO"));
      Put(s, "LTE_HO", if s.currentCell.Some? then AddCellSuccess(d, s.currentCell.value) else d)
    case AttachRequest => Put(s, "LTE_ATTACH", AddTotal(Entry(s.kpis, "LTE_ATTACH")))
    case AttachAccept => Put(s, "LTE_ATTACH", AddSuccess(Entry(s.kpis, "LTE_ATTACH")))
    case TauRequest => Put(s, "LTE_TAU", AddTotal(Entry(s.kpis, "LTE_TAU")))
    case TauAccept => Put(s, "LTE_TAU", AddSuccess(Entry(s.kpis, "LTE_TAU")))
    case NrSetup => Put(s, "5G_RRC", AddTotal(Entry(s.kpis, "5G_RRC")))
    case NrSetupComplete => Put(s, "5G_RRC", AddSuccess(Entry(s.kpis, "5G_RRC")))
  }

  // ------------------------------------------------------------ properties

  /** An RRC request raises `LTE_RRC.total` and exactly one cause count, the
      line's establishment cause, and remembers that cause. */
  lemma RequestCountsOneCause(o: NrOrder, s: Extractor, line: string, now: string, cause: string)
    requires BranchOf(o, line) == Some(RrcRequest)
    ensures Entry(Step(o, s, line, now).kpis, "LTE_RRC").total == Entry(s.kpis, "LTE_RRC").total + 1
    ensures Get(Entry(Step(o, s, line, now).kpis, "LTE_RRC").byCause, cause)
            == Get(Entry(s.kpis, "LTE_RRC").byCause, cause) + (if cause == EstablishmentCause(line) then 1 else 0)
    ensures Step(o, s, line, now).establishmentCause == Some(EstablishmentCause(line))
  {
  }

  /** A setup complete adds `<cause>_SUCCESS` only for a cause seen on an
      earlier request, and otherwise leaves the cause counts alone. */
  lemma SetupCompleteCause(o: NrOrder, s: Extractor, line: string, now: string)
    requires BranchOf(o, line) == Some(RrcSetupComplete)
    ensures Entry(Step(o, s, line, now).kpis, "LTE_RRC").success == Entry(s.kpis, "LTE_RRC").success + 1
    ensures s.establishmentCause.None? ==> Entry(Step(o, s, line, now).kpis, "LTE_RRC").byCause == Entry(s.kpis, "LTE_RRC").byCause
    ensures s.establishmentCause.Some? ==>
              Entry(Step(o, s, line, now).kpis, "LTE_RRC").byCause
              == Inc(Entry(s.kpis, "LTE_RRC").byCause, s.establishmentCause.value + "_SUCCESS")
  {
  }

  /** Handover counts go to the current cell only once a cell has been seen. */
  lemma HandoverByCell(o: NrOrder, s: Extractor, line: string, now: string)
    requires BranchOf(o, line) == Some(HandoverCommand)
    ensures Entry(Step(o, s, line, now).kpis, "LTE_HO").total == Entry(s.kpis, "LTE_HO").total + 1
    ensures s.currentCell.None? ==> Entry(Step(o, s, line, now).kpis, "LTE_HO").byCell == Entry(s.kpis, "LTE_HO").byCell
    ensures s.currentCell.Some? ==>
              var c := s.currentCell.value;
              var before := Entry(s.kpis, "LTE_HO").byCell;
              Entry(Step(o, s, line, now).kpis, "LTE_HO").byCell == before[c := Cell(before, c).(total := Cell(before, c).total + 1)]
  {
    assert Step(o, s, line, now) == Apply(s, HandoverCommand, line, now);
    HandoverEntry(s, line, now);
    var d := Entry(s.kpis, "LTE_HO");
    assert AddTotal(d).byCell == d.byCell;
    if s.currentCell.Some? {
      var c := s.currentCell.value;
      assert Entry(Step(o, s, line, now).kpis, "LTE_HO") == AddCellTotal(AddTotal(d), c);
      assert AddCellTotal(AddTotal(d), c).byCell == d.byCell[c := Cell(d.byCell, c).(total := Cell(d.byCell, c).total + 1)];
    }
  }

  lemma HandoverEntry(s: Extractor, line: string, now: string)
    ensures var d := AddTotal(Entry(s.kpis, "LTE_HO"));
            Entry(Apply(s, HandoverCommand, line, now).kpis, "LTE_HO")
              == if s.currentCell.Some? then AddCellTotal(d, s.currentCell.value) else d
  {
    var d := AddTotal(Entry(s.kpis, "LTE_HO"));
    var d' := if s.currentCell.Some? then AddCellTotal(d, s.currentCell.value) else d;
    assert Apply(s, HandoverCommand, line, now) == Put(s, "LTE_HO", d');
  }

  /** The serving cell only changes on an RSRP line that carries a cell id,
      and then becomes that id. */
  lemma CellFollowsMeasurements(o: NrOrder, s: Extractor, line: string, now: string)
    ensures Step(o, s, line, now).currentCell != s.currentCell ==>
              BranchOf(o, line) == Some(RsrpReport) && Step(o, s, line, now).currentCell == CellId(line)
  {
    var b := BranchOf(o, line);
    if b.Some? {
      ApplyKeepsCell(s, b.value, line, now);
    }
  }

  lemma ApplyKeepsCell(s: Extractor, b: Branch, line: string, now: string)
    ensures Apply(s, b, line, now).currentCell != s.currentCell ==>
              b == RsrpReport && Apply(s, b, line, now).currentCell == CellId(line)
  {
  }

  // ------------------------------------------------- calculate_success_rates

  datatype Stats = Stats(min: int, max: int, avg: real, count: nat, timeSeries: seq<Measurement>)

  datatype Summary = Summary(
    successRate: real, total: nat, success: nat,
    byCause: map<string, nat>, byCell: map<string, CellCount>,
    measurements: Option<Stats>)

  function Values(ms: seq<Measurement>): (vs: seq<int>)
    ensures |vs| == |ms| && forall i :: 0 <= i < |ms| ==> vs[i] == ms[i].value
  {
    seq(|ms|, i requires 0 <= i < |ms| => ms[i].value)
  }

  function Min(xs: seq<int>): (m: int)
    requires |xs| > 0
    ensures (exists i :: 0 <= i < |xs| && xs[i] == m) && forall i :: 0 <= i < |xs| ==> m <= xs[i]
    decreases |xs|
  {
    if |xs| == 1 then xs[0]
    else
      var r := Min(xs[1..]);
      assert forall i :: 1 <= i < |xs| ==> xs[i] == xs[1..][i - 1];
      if xs[0] <= r then xs[0] else r
  }

  function Max(xs: seq<int>): (m: int)
    requires |xs| > 0
    ensures (exists i :: 0 <= i < |xs| && xs[i] == m) && forall i :: 0 <= i < |xs| ==> xs[i] <= m
    decreases |xs|
  {
    if |xs| == 1 then xs[0]
    else
      var r := Max(xs[1..]);
      assert forall i :: 1 <= i < |xs| ==> xs[i] == xs[1..][i - 1];
      if xs[0] >= r then xs[0] else r
  }

  /** `measurements[-100:]`: the most recent hundred samples. */
  function LastHundred(ms: seq<Measurement>): (r: seq<Measurement>)
    ensures |r| == if |ms| <= 100 then |ms| else 100
    ensures r == ms[|ms| - |r|..]
  {
    if |ms| <= 100 then ms else ms[|ms| - 100..]
  }

  function StatsOf(ms: seq<Measurement>): Option<Stats> {
    if ms == [] then None
    else
      var vs := Values(ms);
      Some(Stats(Min(vs), Max(vs), Rates.Average(vs), |ms|, LastHundred(ms)))
  }

  /** The summary of a KPI with attempts. */
  function SummaryOf(d: KpiData): Summary
    requires d.total > 0
  {
    Summary(d.success as real / d.total as real * 100.0, d.total, d.success, d.byCause, d.byCell,
            StatsOf(d.measurements))
  }

  /** The result dictionary: only the KPIs with `total > 0`. */
  function SuccessRates(kpis: map<string, KpiData>): (r: map<string, Summary>)
    ensures forall n :: n in r <==> n in kpis && kpis[n].total > 0
  {
    map n | n in kpis && kpis[n].total > 0 :: SummaryOf(kpis[n])
  }

  /** The success rate is `success / total * 100`, a percentage when the
      successes do not exceed the attempts. */
  lemma SummaryRate(d: KpiData)
    requires d.total > 0
    ensures SummaryOf(d).successRate * d.total as real == d.success as real * 100.0
    ensures d.success <= d.total ==> 0.0 <= SummaryOf(d).successRate <= 100.0
  {
    if d.success <= d.total {
      assert d.success as real / d.total as real <= 1.0;
    }
  }

  /** The time series holds at most the hundred latest samples, and the
      statistics bound the average by the extreme samples. */
  lemma StatsBounds(ms: seq<Measurement>)
    requires ms != []
    ensures |StatsOf(ms).value.timeSeries| <= 100
    ensures StatsOf(ms).value.min as real <= StatsOf(ms).value.avg <= StatsOf(ms).value.max as real
    ensures StatsOf(ms).value.count == |ms|
  {
    var vs := Values(ms);
    Rates.AverageBounds(vs, Min(vs), Max(vs));
  }

  /** Only the `RSRP` record collects samples, and no branch ever counts an
      `RSRP` attempt. */
  ghost predicate SamplesOnlyUncounted(s: Extractor) {
    Entry(s.kpis, "RSRP").total == 0
    && forall n :: n in s.kpis && n != "RSRP" ==> s.kpis[n].measurements == []
  }

  /** Every branch keeps samples only in the record without attempts. */
  lemma ApplyKeepsSamplesUncounted(s: Extractor, b: Branch, line: string, now: string)
    requires SamplesOnlyUncounted(s)
    ensures SamplesOnlyUncounted(Apply(s, b, line, now))
  {
    // one branch at a time keeps the case split small
    match b
    case RrcRequest =>
    case RrcSetupComplete =>
    case RrcRelease =>
    case RsrpReport =>
    case HandoverCommand =>
    case HandoverComplete =>
    case AttachRequest =>
    case AttachAccept =>
    case TauRequest =>
    case TauAccept =>
    case NrSetup =>
    case NrSetupComplete =>
  }

  lemma StepKeepsSamplesUncounted(o: NrOrder, s: Extractor, line: string, now: string)
    requires SamplesOnlyUncounted(s)
    ensures SamplesOnlyUncounted(Step(o, s, line, now))
  {
    var b := BranchOf(o, line);
    if b.Some? {
      ApplyKeepsSamplesUncounted(s, b.value, line, now);
    }
  }

  /** Hence the measurement statistics of `calculate_success_rates` are never
      part of its result: the record that holds samples has no attempts. */
  lemma MeasurementsNeverReported(s: Extractor)
    requires SamplesOnlyUncounted(s)
    ensures forall n :: n in SuccessRates(s.kpis) ==> SuccessRates(s.kpis)[n].measurements.None?
  {
  }

  // ---------------------------------------------------------- the extractor

  class RealtimeKpiExtractor {
    /** The order of the two NR tests: `AsWritten` for `process_line` as it
        stands, `CompleteFirst` for the order that counts 5G successes. */
    const order: NrOrder
    var kpis: map<string, KpiData>
    var currentCell: Option<string>
    var establishmentCause: Option<string>

    function State(): Extractor
      reads this
    {
      Extractor(kpis, currentCell, establishmentCause)
    }

    constructor (order: NrOrder)
      ensures this.order == order && State() == Initial
    {
      this.order := order;
      kpis, currentCell, establishmentCause := map[], None, None;
    }

    /** `_extract_establishment_cause` / `_extract_release_cause`: the loop
      over the cause dictionary. */
    static method ExtractCause(line: string, keys: seq<string>, names: seq<string>, fallback: string)
      returns (cause: string)
      requires |keys| == |names|
      ensures cause == CauseOf(line, keys, names, fallback)
    {
      var i := FirstWord(line, keys);
      cause := if i.Some? then names[i.value] else fallback;
    }

    /** `process_line(line)`; `now` is the time stamp text of the call. */
    method ProcessLine(line: string, now: string)
      modifies this
      ensures State() == Step(order, old(State()), line, now)
    {
      var b := BranchOf(order, line);
      if b.None? {
        return;
      }
      match b.value {
        case RrcRequest =>
          var cause := ExtractCause(line, EstablishmentKeys, EstablishmentNames, "UNKNOWN");
          establishmentCause := Some(cause);
          var d := AddCause(AddTotal(Entry(kpis, "LTE_RRC")), cause);
          kpis := kpis["LTE_RRC" := d.(timestamps := d.timestamps + [now])];
        case RrcSetupComplete =>
          var d := AddSuccess(Entry(kpis, "LTE_RRC"));
          if establishmentCause.Some? {
            d := AddCause(d, establishmentCause.value + "_SUCCESS");
          }
          kpis := kpis["LTE_RRC" := d];
        case RrcRelease =>
          var cause := ExtractCause(line, ReleaseKeys, ReleaseNames, "OTHER");
          kpis := kpis["LTE_RRC_RELEASE" := AddCause(Entry(kpis, "LTE_RRC_RELEASE"), cause)];
        case RsrpReport =>
          var rsrp := Rsrp(line);
          if rsrp.Some? && rsrp.value != 0 {
            var cell := CellId(line);
            var d := Entry(kpis, "RSRP");
            kpis := kpis["RSRP" := d.(measurements := d.measurements + [Measurement(rsrp.value, Rsrq(line), cell, now)])];
            if cell.Some? {
              currentCell := cell;
            }
          }
        case HandoverCommand =>
          var d := AddTotal(Entry(kpis, "LTE_HO"));
          if currentCell.Some? {
            d := AddCellTotal(d, currentCell.value);
          }
          kpis := kpis["LTE_HO" := d];
        case HandoverComplete =>
          var d := AddSuccess(Entry(kpis, "LTE_HO"));
          if currentCell.Some? {
            d := AddCellSuccess(d, currentCell.value);
          }
          kpis := kpis["LTE_HO" := d];
        case AttachRequest => kpis := kpis["LTE_ATTACH" := AddTotal(Entry(kpis, "LTE_ATTACH"))];
        case AttachAccept => kpis := kpis["LTE_ATTACH" := AddSuccess(Entry(kpis, "LTE_ATTACH"))];
        case TauRequest => kpis := kpis["LTE_TAU" := AddTotal(Entry(kpis, "LTE_TAU"))];
        case TauAccept => kpis := kpis["LTE_TAU" := AddSuccess(Entry(kpis, "LTE_TAU"))];
        case NrSetup => kpis := kpis["5G_RRC" := AddTotal(Entry(kpis, "5G_RRC"))];
        case NrSetupComplete => kpis := kpis["5G_RRC" := AddSuccess(Entry(kpis, "5G_RRC"))];
      }
    }

    /** `calculate_success_rates()`: the loop over the KPI records. */
    method CalculateSuccessRates() returns (results: map<string, Summary>)
      ensures results == SuccessRates(kpis)
    {
      results := map[];
      var todo := kpis.Keys;
      while todo != {}
        invariant todo <= kpis.Keys
        invariant forall n :: n in results <==> n in kpis && n !in todo && kpis[n].total > 0
        invariant forall n :: n in results ==> results[n] == SummaryOf(kpis[n])
        decreases |todo|
      {
        var name :| name in todo;
        var data := kpis[name];
        if data.total > 0 {
          results := results[name := SummaryOf(data)];
        }
        todo := todo - {name};
      }
    }
  }
}
