/** `KPIExtractor`: per-packet parsers that append signal samples and bump
    accessibility and mobility counters in one `kpis` dictionary, and
    `calculate_kpis`, which averages the samples and derives guarded rates. */
module KpiExtractor {
  import opened Wrappers
  import opened Text
  import opened NumberSearch
  import opened Counters
  import Rates

  /** The counter entries of the `kpis` dictionary that the parsers bump. */
  datatype Counter =
    | RrcAttempts | RrcSuccess | ErabAttempts | ErabSuccess
    | RachAttempts | RachSuccess | HandoverAttempts | HandoverSuccess

  /** The sample lists and those counters. */
  datatype Kpis = Kpis(rsrp: seq<int>, rsrq: seq<int>, sinr: seq<int>, counts: map<Counter, nat>)

  const Initial := Kpis([], [], [], map[])

  /** `re.search(r'key[:\s]+(-?\d+)', packet, re.IGNORECASE)` and `int()` of
      the capture; the key is lower case, letters are folded, and the
      separator and digits are unchanged by folding. */
  function Sample(packet: string, key: string): Option<int> {
    SearchInt(Lower(packet), [key], ColonOrSpace, 1)
  }

  function Append(xs: seq<int>, v: Option<int>): (r: seq<int>)
    ensures v.None? ==> r == xs
    ensures v.Some? ==> r == xs + [v.value]
  {
    if v.Some? then xs + [v.value] else xs
  }

  function Bumped(m: map<Counter, nat>, c: Counter, fires: bool): (r: map<Counter, nat>)
    ensures forall k :: Get(r, k) == Get(m, k) + (if fires && k == c then 1 else 0)
  {
    if fires then Inc(m, c) else m
  }

  /** `parse_measurement_report`. */
  function MeasurementReport(s: Kpis, packet: string): Kpis {
    s.(rsrp := Append(s.rsrp, Sample(packet, "rsrp")),
       rsrq := Append(s.rsrq, Sample(packet, "rsrq")),
       sinr := Append(s.sinr, Sample(packet, "sinr")))
  }

  /** `parse_rrc_connection`: a request, else a setup complete. */
  function RrcConnection(s: Kpis, packet: string): Kpis {
    if Contains(packet, "RRCConnectionRequest") then s.(counts := Inc(s.counts, RrcAttempts))
    else if Contains(packet, "RRCConnectionSetupComplete") then s.(counts := Inc(s.counts, RrcSuccess))
    else s
  }

  /** `parse_rach`: two independent tests. */
  function Rach(s: Kpis, packet: string): Kpis {
    var c := Bumped(s.counts, RachAttempts, Contains(packet, "RACH") && Contains(packet, "Attempt"));
    s.(counts := Bumped(c, RachSuccess, Contains(packet, "RACH") && Contains(packet, "Success")))
  }

  /** `parse_handover`: two independent tests, the second on the lower-cased
      packet for `handover`. */
  function Handover(s: Kpis, packet: string): Kpis {
    var c := Bumped(s.counts, HandoverAttempts, Contains(packet, "MobilityControlInfo"));
    s.(counts := Bumped(c, HandoverSuccess,
                        Contains(packet, "RRCConnectionReconfigurationComplete") && Contains(Lower(packet), "handover")))
  }

  /** `parse_erab`: two independent tests. */
  function Erab(s: Kpis, packet: string): Kpis {
    var c := Bumped(s.counts, ErabAttempts, Contains(packet, "E-RAB") && Contains(packet, "Setup"));
    s.(counts := Bumped(c, ErabSuccess, Contains(packet, "E-RAB") && Contains(packet, "Complete")))
  }

  /** `calculate_kpis`: averages that are 0 without samples, and rates that
      are 0 without attempts. */
  function Results(s: Kpis): map<string, real> {
    var n := s.counts;
    map[
      "rsrp_avg" := Rates.Average(s.rsrp),
      "rsrq_avg" := Rates.Average(s.rsrq),
      "sinr_avg" := Rates.Average(s.sinr),
      "rrc_success_rate" := Rates.GuardedRate(Get(n, RrcSuccess), Get(n, RrcAttempts)),
      "rach_success_rate" := Rates.GuardedRate(Get(n, RachSuccess), Get(n, RachAttempts)),
      "erab_success_rate" := Rates.GuardedRate(Get(n, ErabSuccess), Get(n, ErabAttempts)),
      "handover_success_rate" := Rates.GuardedRate(Get(n, HandoverSuccess), Get(n, HandoverAttempts))
    ]
  }

  // ------------------------------------------------------------ properties

  /** An RRC packet raises the attempts or the successes, never both, and
      the attempts win when the packet names both messages. */
  lemma RrcAttemptOrSuccess(s: Kpis, packet: string)
    ensures var t := RrcConnection(s, packet).counts;
            Get(t, RrcAttempts) == Get(s.counts, RrcAttempts) + (if Contains(packet, "RRCConnectionRequest") then 1 else 0)
    ensures var t := RrcConnection(s, packet).counts;
            Get(t, RrcSuccess) == Get(s.counts, RrcSuccess)
              + (if !Contains(packet, "RRCConnectionRequest") && Contains(packet, "RRCConnectionSetupComplete") then 1 else 0)
    ensures var t := RrcConnection(s, packet).counts;
            !(Get(t, RrcAttempts) > Get(s.counts, RrcAttempts) && Get(t, RrcSuccess) > Get(s.counts, RrcSuccess))
  {
  }

  /** A RACH packet that says both Attempt and Success raises both counters. */
  lemma RachBoth(s: Kpis, packet: string)
    requires Contains(packet, "RACH") && Contains(packet, "Attempt") && Contains(packet, "Success")
    ensures Get(Rach(s, packet).counts, RachAttempts) == Get(s.counts, RachAttempts) + 1
    ensures Get(Rach(s, packet).counts, RachSuccess) == Get(s.counts, RachSuccess) + 1
  {
  }

  /** A measurement report appends one parsed value to each list whose
      metric it names with a number, and nothing to the others. */
  lemma MeasurementAppends(s: Kpis, packet: string)
    ensures var t := MeasurementReport(s, packet);
            |t.rsrp| == |s.rsrp| + (if Sample(packet, "rsrp").Some? then 1 else 0)
            && t.rsrp[..|s.rsrp|] == s.rsrp
            && (Sample(packet, "rsrp").Some? ==> t.rsrp[|s.rsrp|] == Sample(packet, "rsrp").value)
    ensures MeasurementReport(s, packet).counts == s.counts
  {
  }

  /** A packet that does not hold the keyword (in any case) adds no sample. */
  lemma NoKeywordNoSample(packet: string, key: string)
    requires !Contains(Lower(packet), key)
    ensures Sample(packet, key).None?
  {
    FindNeedsKey(Lower(packet), [key], ColonOrSpace, 1, true);
  }

  /** Without samples an average is 0; without attempts a rate is 0. */
  lemma EmptyResults(s: Kpis)
    requires s.rsrp == [] && Get(s.counts, RrcAttempts) == 0
    ensures Results(s)["rsrp_avg"] == 0.0 && Results(s)["rrc_success_rate"] == 0.0
  {
  }

  /** A success count within the attempts gives a percentage. */
  lemma RateIsPercentage(s: Kpis)
    requires Get(s.counts, HandoverSuccess) <= Get(s.counts, HandoverAttempts)
    ensures 0.0 <= Results(s)["handover_success_rate"] <= 100.0
  {
    Rates.RateBounds(Get(s.counts, HandoverSuccess), Get(s.counts, HandoverAttempts));
  }

  // -------------------------------------------------------- the extractor

  class KpiExtractor {
    var rsrp: seq<int>
    var rsrq: seq<int>
    var sinr: seq<int>
    var counts: map<Counter, nat>

    function State(): Kpis
      reads this
    {
      Kpis(rsrp, rsrq, sinr, counts)
    }

    constructor ()
      ensures State() == Initial
    {
      rsrp, rsrq, sinr, counts := [], [], [], map[];
    }

    method ParseMeasurementReport(packet: string)
      modifies this
      ensures State() == MeasurementReport(old(State()), packet)
    {
      var p := Sample(packet, "rsrp");
      var q := Sample(packet, "rsrq");
      var n := Sample(packet, "sinr");
      if p.Some? { rsrp := rsrp + [p.value]; }
      if q.Some? { rsrq := rsrq + [q.value]; }
      if n.Some? { sinr := sinr + [n.value]; }
    }

    method ParseRrcConnection(packet: string)
      modifies this
      ensures State() == RrcConnection(old(State()), packet)
    {
      if Contains(packet, "RRCConnectionRequest") {
        counts := Inc(counts, RrcAttempts);
      } else if Contains(packet, "RRCConnectionSetupComplete") {
        counts := Inc(counts, RrcSuccess);
      }
    }

    method ParseRach(packet: string)
      modifies this
      ensures State() == Rach(old(State()), packet)
    {
      if Contains(packet, "RACH") && Contains(packet, "Attempt") {
        counts := Inc(counts, RachAttempts);
      }
      if Contains(packet, "RACH") && Contains(packet, "Success") {
        counts := Inc(counts, RachSuccess);
      }
    }

    method ParseHandover(packet: string)
      modifies this
      ensures State() == Handover(old(State()), packet)
    {
      if Contains(packet, "MobilityControlInfo") {
        counts := Inc(counts, HandoverAttempts);
      }
      if Contains(packet, "RRCConnectionReconfigurationComplete") && Contains(Lower(packet), "handover") {
        counts := Inc(counts, HandoverSuccess);
      }
    }

    method ParseErab(packet: string)
      modifies this
      ensures State() == Erab(old(State()), packet)
    {
      if Contains(packet, "E-RAB") && Contains(packet, "Setup") {
        counts := Inc(counts, ErabAttempts);
      }
      if Contains(packet, "E-RAB") && Contains(packet, "Complete") {
        counts := Inc(counts, ErabSuccess);
      }
    }

    /** `calculate_kpis()`. */
    function CalculateKpis(): map<string, real>
      reads this
    {
      Results(State())
    }
  }
}
