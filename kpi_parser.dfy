/** The Prometheus exporter's `KPIMetrics`: every log line is decoded as
    JSON, its `message` is classified by an ordered chain of substring tests
    (at most one attempt or success counter moves), and then all four rates
    are recomputed from the counters. */
module KpiParser {
  import opened Wrappers
  import opened Text
  import opened Patterns
  import opened Counters
  import opened JsonInput
  import Rates

  datatype Kind =
    | RrcAttempt | RrcSuccess | CallAttempt | CallSuccess
    | HandoverAttempt | HandoverSuccess | RachAttempt | RachSuccess

  /** The `if/elif` chain: row `i` raises `Kinds[i]`. */
  const Kinds: seq<Kind> := [RrcAttempt, RrcSuccess, CallAttempt, CallSuccess,
                             HandoverAttempt, HandoverSuccess, RachAttempt, RachSuccess]

  const Table: seq<Alternation> := [
    [AllOf(["RRCConnectionRequest"])],
    [AllOf(["RRCConnectionSetupComplete"])],
    [AllOf(["Setup", "CC"])],
    [AllOf(["Connect_acknowledge"])],
    [AllOf(["RRCConnectionReconfiguration", "mobilityControlInfo"])],
    [AllOf(["RRCConnectionReconfigurationComplete"])],
    [AllOf(["MAC RACH Attempt"])],
    [AllOf(["RACH result = Success"])]
  ]

  /** The row that raises `k`. */
  function Row(k: Kind): (i: nat)
    ensures i < |Kinds| && Kinds[i] == k
  {
    match k
    case RrcAttempt => 0  case RrcSuccess => 1  case CallAttempt => 2  case CallSuccess => 3
    case HandoverAttempt => 4  case HandoverSuccess => 5  case RachAttempt => 6  case RachSuccess => 7
  }

  lemma RowsDistinct(i: nat)
    requires i < |Kinds|
    ensures Row(Kinds[i]) == i
  {
  }

  /** The words each row tests, in order. */
  const Words: seq<seq<string>> := [
    ["RRCConnectionRequest"], ["RRCConnectionSetupComplete"], ["Setup", "CC"], ["Connect_acknowledge"],
    ["RRCConnectionReconfiguration", "mobilityControlInfo"], ["RRCConnectionReconfigurationComplete"],
    ["MAC RACH Attempt"], ["RACH result = Success"]
  ]

  /** The counter a string message raises, if any. */
  function Classify(m: string): (r: Option<Kind>)
    ensures r.Some? <==> exists i :: 0 <= i < |Table| && Matches(m, Table[i], false)
  {
    var i := FirstMatch(m, Table, false);
    if i.Some? then Some(Kinds[i.value]) else None
  }

  /** The message as the `in` tests see it: a string, searched for
      substrings, or a list or object, searched for an equal element or
      key. */
  datatype Operand = Str(text: string) | Members(items: seq<string>)

  /** `word in message`. */
  predicate In(word: string, op: Operand) {
    match op
    case Str(t) => Contains(t, word)
    case Members(items) => word in items
  }

  /** Every word of row `i` is `in` the message. */
  predicate RowHolds(op: Operand, i: nat)
    requires i < |Words|
  {
    forall k | 0 <= k < |Words[i]| :: In(Words[i][k], op)
  }

  /** The first row at or after `from` whose words are all in the message. */
  function FirstRowFrom(op: Operand, from: nat): (r: Option<nat>)
    requires from <= |Words|
    ensures r.Some? ==> from <= r.value < |Words| && RowHolds(op, r.value)
                        && forall j :: from <= j < r.value ==> !RowHolds(op, j)
    ensures r.None? ==> forall j :: from <= j < |Words| ==> !RowHolds(op, j)
    decreases |Words| - from
  {
    if from == |Words| then None
    else if RowHolds(op, from) then Some(from)
    else FirstRowFrom(op, from + 1)
  }

  /** The row the `if/elif` chain takes. */
  function RowOf(op: Operand): Option<nat> {
    FirstRowFrom(op, 0)
  }

  /** The row a message takes: row `i` exactly when its words are all in the
      message and those of no earlier row are. */
  lemma RowOfIff(op: Operand, i: nat)
    requires i < |Words|
    ensures RowOf(op) == Some(i) <==> RowHolds(op, i) && forall j :: 0 <= j < i ==> !RowHolds(op, j)
  {
  }

  /** On a string message the chain is the substring table. */
  lemma {:induction false} StringRowAgrees(m: string, i: nat)
    requires i < |Words|
    ensures RowHolds(Str(m), i) <==> Matches(m, Table[i], false)
  {
    assert Table[i] == [AllOf(Words[i])];
    MatchesOne(m, AllOf(Words[i]), false);
  }

  lemma StringRowOf(m: string)
    ensures RowOf(Str(m)) == FirstMatch(m, Table, false)
  {
    forall i | 0 <= i < |Words| ensures RowHolds(Str(m), i) <==> Matches(m, Table[i], false) {
      StringRowAgrees(m, i);
    }
    var r := RowOf(Str(m));
    if r.Some? {
      RowOfIff(Str(m), r.value);
      FirstMatchIff(m, Table, false, r.value);
    }
  }

  /** The counter a message raises, if any. */
  function ClassifyOperand(op: Operand): (r: Option<Kind>)
    ensures op.Str? ==> r == Classify(op.text)
    ensures r.Some? <==> exists i :: 0 <= i < |Words| && RowHolds(op, i)
  {
    match op
    case Str(m) => StringRowOf(m); Classify(m)
    case Members(_) =>
      var i := RowOf(op);
      if i.Some? then Some(Kinds[i.value]) else None
  }

  /** `log_entry.get('message', '')` for the `in` tests: `None` when the
      decoding or the `.get` raises, or when the message is a number, a
      boolean or `null` and the first `in` test raises. */
  function MessageOperand(json: Json): (r: Option<Operand>)
    ensures r.Some? <==> json.Object? && !json.message.Scalar?
    ensures json.Object? && json.message.Absent? ==> r == Some(Str(""))
    ensures json.Object? && json.message.Text? ==> r == Some(Str(json.message.text))
    ensures json.Object? && json.message.Container? ==> r == Some(Members(json.message.items))
  {
    match json
    case Object(Absent) => Some(Str(""))
    case Object(Text(t)) => Some(Str(t))
    case Object(Container(items)) => Some(Members(items))
    case _ => None
  }

  /** The four success-rate attributes. */
  datatype RateFields = RateFields(rrc: real, call: real, handover: real, rach: real)

  /** The exporter's state. */
  datatype Metrics = Metrics(counts: map<Kind, nat>, rates: RateFields, lastUpdate: int)

  /** The rates `succ / max(att, 1) * 100` of the given counters. */
  function RatesOf(n: map<Kind, nat>): RateFields {
    RateFields(Rates.Rate(Get(n, RrcSuccess), Get(n, RrcAttempt)),
               Rates.Rate(Get(n, CallSuccess), Get(n, CallAttempt)),
               Rates.Rate(Get(n, HandoverSuccess), Get(n, HandoverAttempt)),
               Rates.Rate(Get(n, RachSuccess), Get(n, RachAttempt)))
  }

  /** Every rate attribute agrees with the counters. */
  predicate RatesCurrent(s: Metrics) {
    s.rates == RatesOf(s.counts)
  }

  /** A fresh `KPIMetrics()` at time `now`; its rates are the integer 0. */
  function Initial(now: int): Metrics {
    Metrics(map[], RateFields(0.0, 0.0, 0.0, 0.0), now)
  }

  /** `parse_scat_log_line(line)` where `json` is `json.loads(line)`. */
  function Step(s: Metrics, json: Json, now: int): Metrics {
    match MessageOperand(json)
    case None => s
    case Some(op) =>
      var counts := Bump(s.counts, ClassifyOperand(op));
      Metrics(counts, RatesOf(counts), now)
  }

  // ------------------------------------------------------------ properties

  /** The initial rates already agree with the (zero) counters, and every
      line keeps them in agreement: after a decoded line they are recomputed,
      after any other line nothing changes. */
  lemma InitialRatesCurrent(now: int)
    ensures RatesCurrent(Initial(now))
  {
    assert Rates.Rate(0, 0) == 0.0;
  }

  lemma StepKeepsRatesCurrent(s: Metrics, json: Json, now: int)
    ensures MessageOperand(json).Some? ==> RatesCurrent(Step(s, json, now))
    ensures RatesCurrent(s) ==> RatesCurrent(Step(s, json, now))
  {
  }

  /** A line on which the handler raises (not JSON, not an object, or a
      message that is a number, a boolean or `null`) changes nothing, not
      even `last_update`; every other line sets `last_update`. */
  lemma UndecodedLineUnchanged(s: Metrics, json: Json, now: int)
    ensures json.Invalid? || json.NonObject? || (json.Object? && json.message.Scalar?) ==> Step(s, json, now) == s
    ensures json.Object? && !json.message.Scalar? ==> Step(s, json, now).lastUpdate == now
  {
  }

  /** A list message counts by element equality, not by substring: the list
      `["RRCConnectionRequest"]` is an RRC attempt, the list
      `["RRCConnectionRequest x"]` raises no counter, while the string
      `RRCConnectionRequest x` would. */
  lemma ListMessageMembership(s: Metrics, now: int)
    ensures Step(s, Object(Container(["RRCConnectionRequest"])), now).counts == Bump(s.counts, Some(RrcAttempt))
    ensures Step(s, Object(Container(["RRCConnectionRequest x"])), now).counts == s.counts
    ensures Step(s, Object(Text("RRCConnectionRequest x")), now).counts == Bump(s.counts, Some(RrcAttempt))
  {
    assert RowHolds(Members(["RRCConnectionRequest"]), 0);
    var op := Members(["RRCConnectionRequest x"]);
    forall i | 0 <= i < |Words| ensures !RowHolds(op, i) {
      assert Words[i][0] != "RRCConnectionRequest x";
      assert !In(Words[i][0], op);
    }
    var t := "RRCConnectionRequest x";
    assert OccursAt(t, "RRCConnectionRequest", 0);
    assert RowHolds(Str(t), 0);
    StringRowAgrees(t, 0);
    FirstMatchIff(t, Table, false, 0);
  }

  /** Each counter moves by at most one, and no two counters move on the
      same line. */
  lemma AtMostOneCounter(s: Metrics, json: Json, now: int, k: Kind, k': Kind)
    ensures Get(Step(s, json, now).counts, k) == Get(s.counts, k)
            || Get(Step(s, json, now).counts, k) == Get(s.counts, k) + 1
    ensures (Get(Step(s, json, now).counts, k) > Get(s.counts, k)
             && Get(Step(s, json, now).counts, k') > Get(s.counts, k')) ==> k == k'
  {
    var m := MessageOperand(json);
    if m.Some? {
      BumpGet(s.counts, ClassifyOperand(m.value), k);
      BumpGet(s.counts, ClassifyOperand(m.value), k');
    }
  }

  /** A counter moves exactly when the message selects its row. */
  lemma CounterMovesOnItsRow(s: Metrics, json: Json, now: int, i: nat)
    requires i < |Table|
    ensures Get(Step(s, json, now).counts, Kinds[i]) == Get(s.counts, Kinds[i]) + 1
            <==> MessageOperand(json).Some? && RowOf(MessageOperand(json).value) == Some(i)
  {
    var m := MessageOperand(json);
    if m.Some? {
      if m.value.Str? {
        StringRowOf(m.value.text);
      }
      BumpGet(s.counts, ClassifyOperand(m.value), Kinds[i]);
      var r := RowOf(m.value);
      if r.Some? && Kinds[r.value] == Kinds[i] {
        RowsDistinct(i);
        RowsDistinct(r.value);
      }
    }
  }

  /** A reconfiguration with `mobilityControlInfo` that also says
      `RRCConnectionReconfigurationComplete` is booked as a handover attempt,
      not a success: the attempt test comes first and the complete message
      holds the reconfiguration name. */
  lemma CompleteWithMobilityIsAttempt(m: string)
    requires !Contains(m, "RRCConnectionRequest") && !Contains(m, "RRCConnectionSetupComplete")
    requires !(Contains(m, "Setup") && Contains(m, "CC")) && !Contains(m, "Connect_acknowledge")
    requires Contains(m, "RRCConnectionReconfigurationComplete") && Contains(m, "mobilityControlInfo")
    ensures Classify(m) == Some(HandoverAttempt)
  {
    ContainsTransitive(m, "RRCConnectionReconfigurationComplete", "RRCConnectionReconfiguration") by {
      assert OccursAt("RRCConnectionReconfigurationComplete", "RRCConnectionReconfiguration", 0);
    }
    AllOfTwo(m, "RRCConnectionReconfiguration", "mobilityControlInfo");
    MatchesOne(m, Table[4][0], false);
    AllOfOne(m, "RRCConnectionRequest");
    MatchesOne(m, Table[0][0], false);
    AllOfOne(m, "RRCConnectionSetupComplete");
    MatchesOne(m, Table[1][0], false);
    AllOfTwo(m, "Setup", "CC");
    MatchesOne(m, Table[2][0], false);
    AllOfOne(m, "Connect_acknowledge");
    MatchesOne(m, Table[3][0], false);
    FirstMatchIff(m, Table, false, 4);
  }

  // --------------------------------------------------------- the exporter

  class KpiMetrics {
    var counts: map<Kind, nat>
    var rrcSuccessRate: real
    var callSuccessRate: real
    var handoverSuccessRate: real
    var rachSuccessRate: real
    var lastUpdate: int

    function State(): Metrics
      reads this
    {
      Metrics(counts, RateFields(rrcSuccessRate, callSuccessRate, handoverSuccessRate, rachSuccessRate), lastUpdate)
    }

    constructor (now: int)
      ensures State() == Initial(now)
    {
      counts := map[];
      rrcSuccessRate, callSuccessRate, handoverSuccessRate, rachSuccessRate := 0.0, 0.0, 0.0, 0.0;
      lastUpdate := now;
    }

    /** `parse_scat_log_line(line)`; `json` is what `json.loads(line)` gives. */
    method ParseScatLogLine(json: Json, now: int)
      modifies this
      ensures State() == Step(old(State()), json, now)
    {
      var message := MessageOperand(json);
      if message.None? {
        return;
      }
      counts := Bump(counts, ClassifyOperand(message.value));
      rrcSuccessRate := Rates.Rate(Get(counts, RrcSuccess), Get(counts, RrcAttempt));
      callSuccessRate := Rates.Rate(Get(counts, CallSuccess), Get(counts, CallAttempt));
      handoverSuccessRate := Rates.Rate(Get(counts, HandoverSuccess), Get(counts, HandoverAttempt));
      rachSuccessRate := Rates.Rate(Get(counts, RachSuccess), Get(counts, RachAttempt));
      lastUpdate := now;
    }
  }
}
