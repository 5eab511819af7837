/** `MissingKpiExtractor`: eight small extractors, each a loop over the
    lines tshark prints for one display filter, that count authentication,
    bearer and reject messages, PDCP sequence gaps, CRC errors, TAU
    latencies, measurement lines and MCS indices. */
module MissingKpi {
  import opened Wrappers
  import opened Text
  import opened JavaInt
  import opened Counters
  import Rates

  // --------------------------------------------------------- tshark output

  /** `output.split("\n")`. */
  function OutputLines(output: string): seq<string> { JavaSplit(output, '\n') }

  /** `line.split("\\|")`: the fields tshark separates with '|'. */
  function Fields(line: string): seq<string> { JavaSplit(line, '|') }

  /** The number of lines a test accepts. */
  function CountWhere(lines: seq<string>, p: string -> bool): (n: nat)
    ensures n <= |lines|
    decreases |lines|
  {
    if lines == [] then 0
    else CountWhere(lines[..|lines| - 1], p) + (if p(lines[|lines| - 1]) then 1 else 0)
  }

  lemma CountWhereStep(lines: seq<string>, p: string -> bool, i: nat)
    requires i < |lines|
    ensures CountWhere(lines[..i + 1], p) == CountWhere(lines[..i], p) + (if p(lines[i]) then 1 else 0)
  {
    assert lines[..i + 1][..i] == lines[..i];
  }

  /** A test that accepts fewer lines counts fewer. */
  lemma {:induction false} CountWhereImplies(lines: seq<string>, p: string -> bool, q: string -> bool)
    requires forall l :: p(l) ==> q(l)
    ensures CountWhere(lines, p) <= CountWhere(lines, q)
    decreases |lines|
  {
    if lines != [] {
      CountWhereImplies(lines[..|lines| - 1], p, q);
    }
  }

  /** Three tests no line passes twice count at most one per line. */
  lemma {:induction false} CountWhereExclusive(lines: seq<string>, p: string -> bool, q: string -> bool, r: string -> bool)
    requires forall l :: !(p(l) && q(l)) && !(p(l) && r(l)) && !(q(l) && r(l))
    ensures CountWhere(lines, p) + CountWhere(lines, q) + CountWhere(lines, r) <= |lines|
    decreases |lines|
  {
    if lines != [] {
      CountWhereExclusive(lines[..|lines| - 1], p, q, r);
    }
  }

  // ------------------------------------------------------- extractAuthKpis

  /** The `if / else if` chain on the printed message type: 82, 83 and 84
      are 0x52 (request), 0x53 (response) and 0x54 (reject). */
  predicate IsAuthRequest(line: string) { Contains(line, "82") }
  predicate IsAuthResponse(line: string) { !Contains(line, "82") && Contains(line, "83") }
  predicate IsAuthReject(line: string) { !Contains(line, "82") && !Contains(line, "83") && Contains(line, "84") }

  /** `extractAuthKpis`: the three counts, at most one per line, and the
      success rate `resp * 100 / req`, 0 without requests. */
  method ExtractAuthKpis(output: string) returns (authReq: nat, authResp: nat, authRej: nat, authSr: real)
    ensures authReq == CountWhere(OutputLines(output), IsAuthRequest)
    ensures authResp == CountWhere(OutputLines(output), IsAuthResponse)
    ensures authRej == CountWhere(OutputLines(output), IsAuthReject)
    ensures authReq + authResp + authRej <= |OutputLines(output)|
    ensures authSr == Rates.GuardedRate(authResp, authReq)
  {
    var lines := OutputLines(output);
    authReq, authResp, authRej := 0, 0, 0;
    for i := 0 to |lines|
      invariant authReq == CountWhere(lines[..i], IsAuthRequest)
      invariant authResp == CountWhere(lines[..i], IsAuthResponse)
      invariant authRej == CountWhere(lines[..i], IsAuthReject)
    {
      CountWhereStep(lines, IsAuthRequest, i);
      CountWhereStep(lines, IsAuthResponse, i);
      CountWhereStep(lines, IsAuthReject, i);
      var line := lines[i];
      if Contains(line, "82") {
        authReq := authReq + 1;
      } else if Contains(line, "83") {
        authResp := authResp + 1;
      } else if Contains(line, "84") {
        authRej := authRej + 1;
      }
    }
    assert lines[..|lines|] == lines;
    CountWhereExclusive(lines, IsAuthRequest, IsAuthResponse, IsAuthReject);
    authSr := if authReq > 0 then (authResp as real * 100.0) / authReq as real else 0.0;
  }

  // -------------------------------------------- extractDedicatedBearerKpis

  /** The per-QCI request and accept counts and the QCI of the last
      request. */
  datatype BearerState = BearerState(bearerReq: map<string, nat>, bearerAcc: map<string, nat>, lastQci: Option<string>)

  /** One line: a request (type 197, 0xc5) counts for its QCI, "1" when the
      field is empty, and becomes the last request; an accept (type 198,
      0xc6) counts for the QCI of the last request, and only when there was
      one. */
  function BearerStep(st: BearerState, line: string): BearerState {
    var parts := Fields(line);
    if |parts| < 2 then st
    else
      var qci := if parts[0] == [] then "1" else parts[0];
      var msgType := parts[1];
      if Contains(msgType, "197") then BearerState(Inc(st.bearerReq, "QCI" + qci), st.bearerAcc, Some(qci))
      else if Contains(msgType, "198") && st.lastQci.Some? then
        BearerState(st.bearerReq, Inc(st.bearerAcc, "QCI" + st.lastQci.value), st.lastQci)
      else st
  }

  function BearerRun(lines: seq<string>): BearerState
    decreases |lines|
  {
    if lines == [] then BearerState(map[], map[], None)
    else BearerStep(BearerRun(lines[..|lines| - 1]), lines[|lines| - 1])
  }

  /** Accepts are only ever credited to a QCI that was requested, and every
      requested QCI has at least one request. */
  ghost predicate BearerValid(st: BearerState) {
    && st.bearerAcc.Keys <= st.bearerReq.Keys
    && (st.lastQci.Some? ==> "QCI" + st.lastQci.value in st.bearerReq)
    && forall q :: q in st.bearerReq ==> st.bearerReq[q] >= 1
  }

  lemma BearerStepValid(st: BearerState, line: string)
    requires BearerValid(st)
    ensures BearerValid(BearerStep(st, line))
  {
  }

  lemma {:induction false} BearerRunValid(lines: seq<string>)
    ensures BearerValid(BearerRun(lines))
    decreases |lines|
  {
    if lines != [] {
      BearerRunValid(lines[..|lines| - 1]);
      BearerStepValid(BearerRun(lines[..|lines| - 1]), lines[|lines| - 1]);
    }
  }

  /** An accept seen before any request changes nothing. */
  lemma AcceptBeforeRequestIgnored(st: BearerState, line: string)
    requires st.lastQci.None?
    requires |Fields(line)| >= 2 && !Contains(Fields(line)[1], "197")
    ensures BearerStep(st, line) == st
  {
  }

  /** The three metrics of one QCI: requests, accepts and their rate. */
  datatype BearerKpi = BearerKpi(req: nat, acc: nat, sr: real)

  /** The metrics `DEDICATED_BEARER_SR_<key>_REQ`, `_SUC` and `_SR` for
      every requested QCI key ("QCI" and the value). */
  function BearerReport(st: BearerState): map<string, BearerKpi> {
    map q | q in st.bearerReq :: BearerKpi(st.bearerReq[q], Get(st.bearerAcc, q),
                                          Rates.GuardedRate(Get(st.bearerAcc, q), st.bearerReq[q]))
  }

  /** The report of a valid state covers exactly the requested QCIs, and
      each rate divides that QCI's accepts by its (non-zero) request
      count. */
  lemma ValidReportFacts(st: BearerState)
    requires BearerValid(st)
    ensures var report := BearerReport(st);
            && report.Keys == st.bearerReq.Keys
            && st.bearerAcc.Keys <= report.Keys
            && forall q :: q in report ==>
                 report[q].req >= 1 && report[q].sr * report[q].req as real == report[q].acc as real * 100.0
  {
    var report := BearerReport(st);
    forall q | q in report
      ensures report[q].req >= 1 && report[q].sr * report[q].req as real == report[q].acc as real * 100.0
    {
      var acc := Get(st.bearerAcc, q);
      var req := st.bearerReq[q];
      assert report[q] == BearerKpi(req, acc, Rates.GuardedRate(acc, req));
    }
  }

  method ExtractDedicatedBearerKpis(output: string) returns (report: map<string, BearerKpi>)
    ensures report == BearerReport(BearerRun(OutputLines(output)))
  {
    var lines := OutputLines(output);
    var bearerReq: map<string, nat> := map[];
    var bearerAcc: map<string, nat> := map[];
    var lastQci: Option<string> := None;
    for i := 0 to |lines|
      invariant BearerState(bearerReq, bearerAcc, lastQci) == BearerRun(lines[..i])
    {
      assert lines[..i + 1][..i] == lines[..i];
      var parts := Fields(lines[i]);
      if |parts| >= 2 {
        var qci := if parts[0] == [] then "1" else parts[0];
        var msgType := parts[1];
        if Contains(msgType, "197") {
          bearerReq := Inc(bearerReq, "QCI" + qci);
          lastQci := Some(qci);
        } else if Contains(msgType, "198") && lastQci != None {
          bearerAcc := Inc(bearerAcc, "QCI" + lastQci.value);
        }
      }
    }
    assert lines[..|lines|] == lines;
    report := map q | q in bearerReq :: BearerKpi(bearerReq[q], Get(bearerAcc, q),
                                                 if bearerReq[q] > 0 then Get(bearerAcc, q) as real * 100.0 / bearerReq[q] as real else 0.0);
  }

  // ---------------------------------------------------- extractRejectCauses

  /** The chain on the second field: 76 (0x4c) service reject, 75 (0x4b)
      TAU reject, 84 (0x54) authentication reject. Lines with fewer than two
      fields count for nothing. */
  predicate IsServiceReject(line: string) {
    |Fields(line)| >= 2 && Contains(Fields(line)[1], "76")
  }
  predicate IsTauReject(line: string) {
    |Fields(line)| >= 2 && !Contains(Fields(line)[1], "76") && Contains(Fields(line)[1], "75")
  }
  predicate IsAuthFailure(line: string) {
    |Fields(line)| >= 2 && !Contains(Fields(line)[1], "76") && !Contains(Fields(line)[1], "75")
    && Contains(Fields(line)[1], "84")
  }

  method ExtractRejectCauses(output: string) returns (srRej: nat, tauRej: nat, authRej: nat)
    ensures srRej == CountWhere(OutputLines(output), IsServiceReject)
    ensures tauRej == CountWhere(OutputLines(output), IsTauReject)
    ensures authRej == CountWhere(OutputLines(output), IsAuthFailure)
    ensures srRej + tauRej + authRej <= |OutputLines(output)|
  {
    var lines := OutputLines(output);
    srRej, tauRej, authRej := 0, 0, 0;
    for i := 0 to |lines|
      invariant srRej == CountWhere(lines[..i], IsServiceReject)
      invariant tauRej == CountWhere(lines[..i], IsTauReject)
      invariant authRej == CountWhere(lines[..i], IsAuthFailure)
    {
      CountWhereStep(lines, IsServiceReject, i);
      CountWhereStep(lines, IsTauReject, i);
      CountWhereStep(lines, IsAuthFailure, i);
      var parts := Fields(lines[i]);
      if |parts| >= 2 {
        var msgType := parts[1];
        if Contains(msgType, "76") {
          srRej := srRej + 1;
        } else if Contains(msgType, "75") {
          tauRej := tauRej + 1;
        } else if Contains(msgType, "84") {
          authRej := authRej + 1;
        }
      }
    }
    assert lines[..|lines|] == lines;
    CountWhereExclusive(lines, IsServiceReject, IsTauReject, IsAuthFailure);
  }

  // ------------------------------------------------------------ calculateLoss

  function SeqMin(s: seq<int>): (m: int)
    requires |s| > 0
    ensures m in s && forall i :: 0 <= i < |s| ==> m <= s[i]
    decreases |s|
  {
    if |s| == 1 then s[0]
    else var m := SeqMin(s[..|s| - 1]); if s[|s| - 1] < m then s[|s| - 1] else m
  }

  function SeqMax(s: seq<int>): (m: int)
    requires |s| > 0
    ensures m in s && forall i :: 0 <= i < |s| ==> s[i] <= m
    decreases |s|
  {
    if |s| == 1 then s[0]
    else var m := SeqMax(s[..|s| - 1]); if s[|s| - 1] > m then s[|s| - 1] else m
  }

  /** `calculateLoss` with exact arithmetic: fewer than two numbers give 0;
      otherwise the numbers missing from the range `min..max`, as a
      percentage of the range, or 0 when none is missing. The result is a
      percentage below 100. */
  function Loss(seqNums: seq<int>): (loss: real)
    ensures 0.0 <= loss < 100.0
    ensures |seqNums| < 2 ==> loss == 0.0
  {
    if |seqNums| < 2 then 0.0
    else
      var expected := SeqMax(seqNums) - SeqMin(seqNums) + 1;
      var lost := expected - |seqNums|;
      if lost > 0 then
        Rates.ShareBelow(lost as real, expected as real);
        lost as real * 100.0 / expected as real
      else 0.0
  }

  /** `calculateLoss` as written: `expected` and `lost` are `int`s and
      wrap. A Java list holds fewer than 2^31 elements. */
  function LossAsWritten(seqNums: seq<Int32>): real
    requires |seqNums| < 0x8000_0000
  {
    if |seqNums| < 2 then 0.0
    else
      var expected := Wrap32(SeqMax(seqNums) - SeqMin(seqNums) + 1);
      var lost := Wrap32(expected - |seqNums|);
      if lost > 0 then
        // `expected == 0` would make `lost` the negated size
        assert expected != 0;
        lost as real * 100.0 / expected as real
      else 0.0
  }

  /** The wrap-around makes the loss negative: for the sequence numbers 0
      and 2^31 - 1 the range wraps to -2^31 and `lost` to 2^31 - 2, while
      the exact loss is just below 100%. */
  lemma LossAsWrittenNegative()
    ensures LossAsWritten([0, 0x7fff_ffff]) < 0.0
    ensures Loss([0, 0x7fff_ffff]) == (0x7fff_fffe as real * 100.0) / 0x8000_0000 as real
  {
    var s: seq<Int32> := [0, 0x7fff_ffff];
    assert SeqMin(s) == 0 && SeqMax(s) == 0x7fff_ffff;
    assert Wrap32(0x8000_0000) == -0x8000_0000;
    assert Wrap32(-0x8000_0000 - 2) == 0x7fff_fffe;
  }

  /** Without overflow, the code computes the exact loss. */
  lemma LossAsWrittenAgrees(seqNums: seq<Int32>)
    requires 2 <= |seqNums| < 0x8000_0000
    requires SeqMax(seqNums) - SeqMin(seqNums) + 1 < 0x8000_0000
    ensures LossAsWritten(seqNums) == Loss(seqNums)
  {
  }

  /** How `calculateLoss` does its arithmetic: in wrapping Java `int`s, as
      written, or exactly. */
  datatype LossForm = Wrapping | Exact

  function LossOf(form: LossForm, seqNums: seq<Int32>): real
    requires form == Wrapping ==> |seqNums| < 0x8000_0000
  {
    if form == Wrapping then LossAsWritten(seqNums) else Loss(seqNums)
  }

  predicate Sorted(s: seq<int>) {
    forall i, j :: 0 <= i < j < |s| ==> s[i] <= s[j]
  }

  /** `Collections.sort` on the list, here an insertion sort. */
  method Sort(a: array<Int32>)
    modifies a
    ensures Sorted(a[..]) && multiset(a[..]) == multiset(old(a[..]))
  {
    if a.Length < 2 {
      return;
    }
    var i := 1;
    while i < a.Length
      invariant 1 <= i <= a.Length
      invariant Sorted(a[..i])
      invariant multiset(a[..]) == multiset(old(a[..]))
    {
      Insert(a, i);
      i := i + 1;
    }
    assert a[..a.Length] == a[..];
  }

  /** One step of the insertion sort: `a[i]` moves left into the sorted
      prefix `a[..i]`. */
  method Insert(a: array<Int32>, i: nat)
    requires 0 < i < a.Length && Sorted(a[..i])
    modifies a
    ensures Sorted(a[..i + 1]) && multiset(a[..]) == multiset(old(a[..]))
  {
    var j := i;
    while j > 0 && a[j - 1] > a[j]
      invariant 0 <= j <= i
      invariant forall k, l :: 0 <= k < l <= i && k != j && l != j ==> a[k] <= a[l]
      invariant forall l :: j < l <= i ==> a[j] <= a[l]
      invariant multiset(a[..]) == multiset(old(a[..]))
    {
      a[j - 1], a[j] := a[j], a[j - 1];
      j := j - 1;
    }
  }

  /** After sorting, the first and last numbers are the smallest and the
      largest. */
  lemma SortedEnds(s: seq<int>, t: seq<int>)
    requires |s| > 0 && Sorted(s) && multiset(s) == multiset(t)
    ensures |t| == |s| && s[0] == SeqMin(t) && s[|s| - 1] == SeqMax(t)
  {
    assert |multiset(s)| == |multiset(t)|;
    assert s[0] in multiset(t) && s[|s| - 1] in multiset(t);
    assert SeqMin(t) in multiset(s) && SeqMax(t) in multiset(s);
  }

  /** `calculateLoss`: sorts the list in place, then reads the range from
      its ends, in the arithmetic `form` says. A Java list holds fewer than
      2^31 elements. */
  method CalculateLoss(seqNums: array<Int32>, form: LossForm) returns (loss: real)
    requires form == Wrapping ==> seqNums.Length < 0x8000_0000
    modifies seqNums
    ensures seqNums.Length >= 2 ==> Sorted(seqNums[..])
    ensures multiset(seqNums[..]) == multiset(old(seqNums[..]))
    ensures loss == LossOf(form, old(seqNums[..]))
  {
    if seqNums.Length < 2 {
      return 0.0;
    }
    Sort(seqNums);
    SortedEnds(seqNums[..], old(seqNums[..]));
    var expected: int := seqNums[seqNums.Length - 1] as int - seqNums[0] as int + 1;
    var received := seqNums.Length;
    var lost := expected - received;
    if form == Wrapping {
      expected := Wrap32(expected);
      lost := Wrap32(expected - received);
    }
    if lost > 0 {
      assert expected != 0;
      loss := lost as real * 100.0 / expected as real;
    } else {
      loss := 0.0;
    }
  }

  // -------------------------------------------------------- extractPdcpLoss

  /** Downlink and uplink sequence numbers: a line with two fields and a
      first field `parseInt` accepts adds its number to the downlink list
      when the direction field contains "0", to the uplink list otherwise. */
  function PdcpSamples(lines: seq<string>): (r: (seq<Int32>, seq<Int32>))
    ensures |r.0| + |r.1| <= |lines|
    decreases |lines|
  {
    if lines == [] then ([], [])
    else
      var prev := PdcpSamples(lines[..|lines| - 1]);
      var parts := Fields(lines[|lines| - 1]);
      if |parts| < 2 || ParseInt(parts[0]).None? then prev
      else if Contains(parts[1], "0") then (prev.0 + [ParseInt(parts[0]).value], prev.1)
      else (prev.0, prev.1 + [ParseInt(parts[0]).value])
  }

  method ExtractPdcpLoss(output: string, form: LossForm) returns (dlLoss: real, ulLoss: real)
    requires form == Wrapping ==> |OutputLines(output)| < 0x8000_0000
    ensures dlLoss == LossOf(form, PdcpSamples(OutputLines(output)).0)
    ensures ulLoss == LossOf(form, PdcpSamples(OutputLines(output)).1)
    ensures form == Exact ==> 0.0 <= dlLoss < 100.0 && 0.0 <= ulLoss < 100.0
  {
    var lines := OutputLines(output);
    var dlSeq: seq<Int32> := [];
    var ulSeq: seq<Int32> := [];
    for i := 0 to |lines|
      invariant (dlSeq, ulSeq) == PdcpSamples(lines[..i])
    {
      assert lines[..i + 1][..i] == lines[..i];
      var parts := Fields(lines[i]);
      if |parts| >= 2 {
        var parsed := ParseInt(parts[0]);
        if parsed.Some? {
          var dir := parts[1];
          if Contains(dir, "0") {
            dlSeq := dlSeq + [parsed.value];
          } else {
            ulSeq := ulSeq + [parsed.value];
          }
        }
      }
    }
    assert lines[..|lines|] == lines;
    var dl := new Int32[|dlSeq|](k requires 0 <= k < |dlSeq| => dlSeq[k]);
    var ul := new Int32[|ulSeq|](k requires 0 <= k < |ulSeq| => ulSeq[k]);
    assert dl[..] == dlSeq && ul[..] == ulSeq;
    dlLoss := CalculateLoss(dl, form);
    ulLoss := CalculateLoss(ul, form);
  }

  // ------------------------------------------------------------- extractBler

  predicate IsBlock(line: string) { line != [] }
  predicate IsCrcError(line: string) { line != [] && Contains(line, "1") }

  /** `extractBler`: CRC errors (a "1" in the status) over non-empty lines,
      as a percentage, 0 without any. */
  method ExtractBler(output: string) returns (bler: real)
    ensures bler == Rates.GuardedRate(CountWhere(OutputLines(output), IsCrcError), CountWhere(OutputLines(output), IsBlock))
    ensures 0.0 <= bler <= 100.0
  {
    var lines := OutputLines(output);
    var total, errors := 0, 0;
    for i := 0 to |lines|
      invariant total == CountWhere(lines[..i], IsBlock)
      invariant errors == CountWhere(lines[..i], IsCrcError)
    {
      CountWhereStep(lines, IsBlock, i);
      CountWhereStep(lines, IsCrcError, i);
      var line := lines[i];
      if line != [] {
        total := total + 1;
        if Contains(line, "1") {
          errors := errors + 1;
        }
      }
    }
    assert lines[..|lines|] == lines;
    CountWhereImplies(lines, IsCrcError, IsBlock);
    Rates.RateBounds(errors, total);
    bler := if total > 0 then (errors as real * 100.0 / total as real) else 0.0;
  }

  // ---------------------------------------------------------- extractCellLoad

  /** `count > 0 ? Math.min(100.0, count / 10.0) : 0.0`: a percentage that
      saturates at 1000 measurement lines. */
  function CellLoad(count: nat): (load: real)
    ensures 0.0 <= load <= 100.0
    ensures load == 100.0 <==> count >= 1000
    ensures count < 1000 ==> load * 10.0 == count as real
  {
    if count > 0 then (if 100.0 <= count as real / 10.0 then 100.0 else count as real / 10.0) else 0.0
  }

  method ExtractCellLoad(output: string) returns (load: real)
    ensures load == CellLoad(CountWhere(OutputLines(output), IsBlock))
  {
    var lines := OutputLines(output);
    var count := 0;
    for i := 0 to |lines|
      invariant count == CountWhere(lines[..i], IsBlock)
    {
      CountWhereStep(lines, IsBlock, i);
      if lines[i] != [] {
        count := count + 1;
      }
    }
    assert lines[..|lines|] == lines;
    load := if count > 0 then (if 100.0 <= count as real / 10.0 then 100.0 else count as real / 10.0) else 0.0;
  }

  // -------------------------------------------------- extractModulationScheme

  /** The MCS indices: every non-empty line that `parseInt` accepts once
      trimmed; the others are skipped. */
  function McsValues(lines: seq<string>): (r: seq<int>)
    ensures |r| <= CountWhere(lines, IsBlock)
    ensures forall i :: 0 <= i < |r| ==> -0x8000_0000 <= r[i] < 0x8000_0000
    decreases |lines|
  {
    if lines == [] then []
    else
      var prev := McsValues(lines[..|lines| - 1]);
      var line := lines[|lines| - 1];
      if line != [] && ParseInt(Trim(line)).Some? then prev + [ParseInt(Trim(line)).value] else prev
  }

  lemma McsValuesStep(lines: seq<string>, i: nat)
    requires i < |lines|
    ensures var line := lines[i];
            McsValues(lines[..i + 1]) == if line != [] && ParseInt(Trim(line)).Some?
                                         then McsValues(lines[..i]) + [ParseInt(Trim(line)).value]
                                         else McsValues(lines[..i])
  {
    assert lines[..i + 1][..i] == lines[..i];
  }

  /** `extractModulationScheme`: the metric it stores is the average index,
      0 without indices. */
  method ExtractModulationScheme(output: string) returns (avgMcs: real)
    ensures avgMcs == Rates.Average(McsValues(OutputLines(output)))
  {
    var lines := OutputLines(output);
    var mcsValues: seq<int> := [];
    for i := 0 to |lines|
      invariant mcsValues == McsValues(lines[..i])
    {
      McsValuesStep(lines, i);
      var line := lines[i];
      if line != [] {
        var parsed := ParseInt(Trim(line));
        if parsed.Some? {
          mcsValues := mcsValues + [parsed.value];
        }
      }
    }
    assert lines[..|lines|] == lines;
    avgMcs := if |mcsValues| == 0 then 0.0 else Rates.Sum(mcsValues) as real / |mcsValues| as real;
  }

  /** Indices within the MCS table (0 to 31) give an average within it. */
  lemma McsAverageInTable(lines: seq<string>)
    requires forall i :: 0 <= i < |McsValues(lines)| ==> 0 <= McsValues(lines)[i] <= 31
    ensures 0.0 <= Rates.Average(McsValues(lines)) <= 31.0
  {
    if |McsValues(lines)| > 0 {
      Rates.AverageBounds(McsValues(lines), 0, 31);
    }
  }

  // ------------------------------------------------------ extractTauLatency

  /** The latencies measured so far and the time of a pending request. */
  datatype TauState = TauState(latencies: seq<real>, lastReqTime: Option<real>)

  /** One line: its time comes from `Double.parseDouble`, given as
      `parseDouble` (`None` where it throws, and the line is skipped). A
      request (type 72, 0x48) becomes the pending request; an accept (type
      73, 0x49) with a pending request adds the delay in milliseconds and
      clears it; an accept without one is ignored. */
  function TauStep(st: TauState, line: string, parseDouble: string -> Option<real>): TauState {
    var parts := Fields(line);
    if |parts| < 2 || parseDouble(parts[0]).None? then st
    else
      var time := parseDouble(parts[0]).value;
      if Contains(parts[1], "72") then TauState(st.latencies, Some(time))
      else if Contains(parts[1], "73") && st.lastReqTime.Some? then
        TauState(st.latencies + [(time - st.lastReqTime.value) * 1000.0], None)
      else st
  }

  function TauRun(lines: seq<string>, parseDouble: string -> Option<real>): TauState
    decreases |lines|
  {
    if lines == [] then TauState([], None)
    else TauStep(TauRun(lines[..|lines| - 1], parseDouble), lines[|lines| - 1], parseDouble)
  }

  /** The number of request lines. */
  function TauRequests(lines: seq<string>, parseDouble: string -> Option<real>): nat
    decreases |lines|
  {
    if lines == [] then 0
    else
      var parts := Fields(lines[|lines| - 1]);
      TauRequests(lines[..|lines| - 1], parseDouble)
        + (if |parts| >= 2 && parseDouble(parts[0]).Some? && Contains(parts[1], "72") then 1 else 0)
  }

  /** Each latency uses up its own request: latencies and the pending
      request together are at most the requests seen. */
  lemma {:induction false} TauPairsBounded(lines: seq<string>, parseDouble: string -> Option<real>)
    ensures var st := TauRun(lines, parseDouble);
            |st.latencies| + (if st.lastReqTime.Some? then 1 else 0) <= TauRequests(lines, parseDouble)
    decreases |lines|
  {
    if lines != [] {
      TauPairsBounded(lines[..|lines| - 1], parseDouble);
    }
  }

  /** An accept with no pending request changes nothing. */
  lemma AcceptWithoutRequestIgnored(st: TauState, line: string, parseDouble: string -> Option<real>)
    requires st.lastReqTime.None?
    requires |Fields(line)| >= 2 && !Contains(Fields(line)[1], "72")
    ensures TauStep(st, line, parseDouble) == st
  {
  }

  /** `extractTauLatency`: the mean latency, 0 without any. */
  method ExtractTauLatency(output: string, parseDouble: string -> Option<real>) returns (avgLatency: real)
    ensures avgLatency == Rates.MeanReal(TauRun(OutputLines(output), parseDouble).latencies)
    ensures |TauRun(OutputLines(output), parseDouble).latencies| <= TauRequests(OutputLines(output), parseDouble)
  {
    var lines := OutputLines(output);
    var latencies: seq<real> := [];
    var lastReqTime: Option<real> := None;
    for i := 0 to |lines|
      invariant TauState(latencies, lastReqTime) == TauRun(lines[..i], parseDouble)
    {
      assert lines[..i + 1][..i] == lines[..i];
      var parts := Fields(lines[i]);
      if |parts| >= 2 {
        var parsed := parseDouble(parts[0]);
        if parsed.Some? {
          var time := parsed.value;
          var msgType := parts[1];
          if Contains(msgType, "72") {
            lastReqTime := Some(time);
          } else if Contains(msgType, "73") && lastReqTime != None {
            latencies := latencies + [(time - lastReqTime.value) * 1000.0];
            lastReqTime := None;
          }
        }
      }
    }
    assert lines[..|lines|] == lines;
    TauPairsBounded(lines, parseDouble);
    avgLatency := if |latencies| == 0 then 0.0 else Rates.SumReal(latencies) / |latencies| as real;
  }
}
