/** The real-time KPI monitor: each log line (plain text, or a JSON object
    whose `message` field holds the text) is classified by an ordered chain
    of case-insensitive regular expressions, and at most one attempt or
    success counter moves; `get_kpis` derives the six success rates. */
module RealtimeKpiMonitor {
  import opened Wrappers
  import opened Text
  import opened Patterns
  import opened Counters
  import opened JsonInput
  import Rates

  /** The monitor's counter attributes. */
  datatype Kind =
    | RrcAttempt | RrcSuccess | CallAttempt | CallSuccess
    | HandoverAttempt | HandoverSuccess | RachAttempt | RachSuccess
    | AttachAttempt | AttachSuccess | TauAttempt | TauSuccess

  /** The `if/elif` chain: row `i` raises `Kinds[i]`. */
  const Kinds: seq<Kind> := [RrcAttempt, RrcSuccess, CallAttempt, CallSuccess,
                             HandoverAttempt, HandoverSuccess, RachAttempt, RachSuccess,
                             AttachAttempt, AttachSuccess, TauAttempt, TauSuccess]

  /** The row that raises `k`. */
  function Row(k: Kind): (i: nat)
    ensures i < |Kinds| && Kinds[i] == k
  {
    match k
    case RrcAttempt => 0  case RrcSuccess => 1  case CallAttempt => 2  case CallSuccess => 3
    case HandoverAttempt => 4  case HandoverSuccess => 5  case RachAttempt => 6  case RachSuccess => 7
    case AttachAttempt => 8  case AttachSuccess => 9  case TauAttempt => 10  case TauSuccess => 11
  }

  /** Each row raises its own counter. */
  lemma RowsDistinct(i: nat)
    requires i < |Kinds|
    ensures Row(Kinds[i]) == i
  {
  }

  const Table: seq<Alternation> := [
    [Chain(["RRCConnectionRequest"]), Chain(["rrcConnectionRequest"])],
    [Chain(["RRCConnectionSetupComplete"]), Chain(["rrcConnectionSetupComplete"])],
    [Chain(["Setup", "CC"]), Chain(["Call", "Setup"])],
    [Chain(["Connect_acknowledge"]), Chain(["Call", "Connected"])],
    [Chain(["RRCConnectionReconfiguration", "mobilityControlInfo"]), Chain(["HandoverCommand"])],
    [Chain(["RRCConnectionReconfigurationComplete", "handover"]), Chain(["HandoverComplete"])],
    [Chain(["MAC", "RACH", "Attempt"]), Chain(["RACH", "preamble", "transmission"])],
    [Chain(["RACH", "result", "Success"]), Chain(["Random", "Access", "Response"])],
    [Chain(["Attach", "Request"]), Chain(["ATTACH", "REQUEST"])],
    [Chain(["Attach", "Accept"]), Chain(["ATTACH", "ACCEPT"])],
    [Chain(["TAU", "Request"]), Chain(["TRACKING", "AREA", "UPDATE", "REQUEST"])],
    [Chain(["TAU", "Accept"]), Chain(["TRACKING", "AREA", "UPDATE", "ACCEPT"])]
  ]

  /** The counter a message raises, if any. */
  function Classify(m: string): (r: Option<Kind>)
    ensures r.Some? <==> exists i :: 0 <= i < |Table| && Matches(m, Table[i], true)
  {
    var i := FirstMatch(m, Table, true);
    if i.Some? then Some(Kinds[i.value]) else None
  }

  /** The text classified for a line, or `None` when handling the line
      raises (invalid JSON, or a `message` that is not a string) and the
      `except` clause swallows it. */
  function Message(line: string, json: Json): (r: Option<string>)
    ensures !StartsWith(Strip(line), "{") ==> r == Some(line)
    ensures StartsWith(Strip(line), "{") && json.Invalid? ==> r.None?
  {
    if !StartsWith(Strip(line), "{") then Some(line) else MessageText(json)
  }

  /** The monitor's state: its counters and `last_update`. */
  datatype Monitor = Monitor(counts: map<Kind, nat>, lastUpdate: int)

  /** `parse_log_line(line)` at time `now` (`int(time.time())`). */
  function Step(s: Monitor, line: string, json: Json, now: int): Monitor {
    match Message(line, json)
    case None => s
    case Some(m) => Monitor(Bump(s.counts, Classify(m)), now)
  }

  /** A value of the `get_kpis` dictionary. */
  datatype KpiValue = Count(n: int) | Percent(p: real)

  function Kpis(s: Monitor): map<string, KpiValue> {
    var n := s.counts;
    map[
      "rrc_success_rate" := Percent(Rates.Rate(Get(n, RrcSuccess), Get(n, RrcAttempt))),
      "call_success_rate" := Percent(Rates.Rate(Get(n, CallSuccess), Get(n, CallAttempt))),
      "handover_success_rate" := Percent(Rates.Rate(Get(n, HandoverSuccess), Get(n, HandoverAttempt))),
      "rach_success_rate" := Percent(Rates.Rate(Get(n, RachSuccess), Get(n, RachAttempt))),
      "attach_success_rate" := Percent(Rates.Rate(Get(n, AttachSuccess), Get(n, AttachAttempt))),
      "tau_success_rate" := Percent(Rates.Rate(Get(n, TauSuccess), Get(n, TauAttempt))),
      "rrc_attempts" := Count(Get(n, RrcAttempt)),
      "rrc_successes" := Count(Get(n, RrcSuccess)),
      "handover_attempts" := Count(Get(n, HandoverAttempt)),
      "handover_successes" := Count(Get(n, HandoverSuccess)),
      "rach_attempts" := Count(Get(n, RachAttempt)),
      "rach_successes" := Count(Get(n, RachSuccess)),
      "last_update" := Count(s.lastUpdate)
    ]
  }

  // ------------------------------------------------------------ properties

  /** Each counter moves by at most one, and no two counters move on the
      same line. */
  lemma AtMostOneCounter(s: Monitor, line: string, json: Json, now: int, k: Kind, k': Kind)
    ensures Get(Step(s, line, json, now).counts, k) == Get(s.counts, k)
            || Get(Step(s, line, json, now).counts, k) == Get(s.counts, k) + 1
    ensures (Get(Step(s, line, json, now).counts, k) > Get(s.counts, k)
             && Get(Step(s, line, json, now).counts, k') > Get(s.counts, k')) ==> k == k'
  {
    var m := Message(line, json);
    if m.Some? {
      BumpGet(s.counts, Classify(m.value), k);
      BumpGet(s.counts, Classify(m.value), k');
    }
  }

  /** A counter moves exactly when the line's message selects its row. */
  lemma CounterMovesOnItsRow(s: Monitor, line: string, json: Json, now: int, i: nat)
    requires i < |Table|
    ensures Get(Step(s, line, json, now).counts, Kinds[i]) == Get(s.counts, Kinds[i]) + 1
            <==> Message(line, json).Some? && FirstMatch(Message(line, json).value, Table, true) == Some(i)
  {
    var m := Message(line, json);
    if m.Some? {
      BumpGet(s.counts, Classify(m.value), Kinds[i]);
      var r := FirstMatch(m.value, Table, true);
      if r.Some? && Kinds[r.value] == Kinds[i] {
        RowsDistinct(i);
        RowsDistinct(r.value);
      }
    }
  }

  /** Counters never decrease. */
  lemma CountersNeverDecrease(s: Monitor, line: string, json: Json, now: int, k: Kind)
    ensures Get(Step(s, line, json, now).counts, k) >= Get(s.counts, k)
  {
    AtMostOneCounter(s, line, json, now, k, k);
  }

  /** A line whose handling raises changes nothing, not even `last_update`;
      any other line sets `last_update`. */
  lemma FailedLineUnchanged(s: Monitor, line: string, json: Json, now: int)
    ensures Message(line, json).None? ==> Step(s, line, json, now) == s
    ensures Message(line, json).Some? ==> Step(s, line, json, now).lastUpdate == now
  {
  }

  /** A line with `rrcconnectionrequest` in any case is an RRC attempt, even
      when it also names the setup complete. */
  lemma RrcRequestFirst(m: string)
    requires Contains(Lower(m), "rrcconnectionrequest")
    ensures Classify(m) == Some(RrcAttempt)
  {
    assert Lower("RRCConnectionRequest") == "rrcconnectionrequest";
    MatchesWord(m, Table[0], true, 0, "RRCConnectionRequest");
  }

  /** Every rate has the `max(att, 1)` form: with no attempts it is
      `100 * successes`, which is 0 only when there are no successes either. */
  lemma RatesWithoutAttempts(s: Monitor)
    requires Get(s.counts, RrcAttempt) == 0
    ensures Kpis(s)["rrc_success_rate"] == Percent(Get(s.counts, RrcSuccess) as real * 100.0)
    ensures Kpis(s)["rrc_success_rate"] == Percent(0.0) <==> Get(s.counts, RrcSuccess) == 0
  {
  }

  /** With attempts, a rate is the exact percentage of successes. */
  lemma RateWithAttempts(s: Monitor)
    requires Get(s.counts, HandoverAttempt) > 0
    ensures Kpis(s)["handover_success_rate"].p * Get(s.counts, HandoverAttempt) as real
            == Get(s.counts, HandoverSuccess) as real * 100.0
  {
  }

  // ----------------------------------------------------------- the monitor

  class RealtimeKpiMonitor {
    var counts: map<Kind, nat>
    var lastUpdate: int

    function State(): Monitor
      reads this
    {
      Monitor(counts, lastUpdate)
    }

    /** All counters zero, `last_update` the creation time. */
    constructor (now: int)
      ensures State() == Monitor(map[], now)
    {
      counts := map[];
      lastUpdate := now;
    }

    /** `parse_log_line(line)`; `json` is what `json.loads(line)` gives. */
    method ParseLogLine(line: string, json: Json, now: int)
      modifies this
      ensures State() == Step(old(State()), line, json, now)
    {
      var message := Message(line, json);
      if message.Some? {
        counts := Bump(counts, Classify(message.value));
        lastUpdate := now;
      }
    }

    /** `get_kpis()`. */
    function GetKpis(): map<string, KpiValue>
      reads this
    {
      Kpis(State())
    }
  }
}
