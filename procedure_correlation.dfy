/** The correlation loops of `ProcedureCorrelationService`: LTE RRC
    connection establishment, LTE handover and PDN connectivity. Each loop
    walks the decoded messages in capture order, keeps the open procedures in
    a map keyed by transaction identifier, moves a procedure to the output
    list when its closing message arrives, and at the end appends every
    procedure still open as a failure.

    Each loop is a method proved against a fold over the message sequence
    (`RrcRun`, `HandoverRun`, `PdnRun`); the properties of the fold are
    lemmas. */
module ProcedureCorrelation {
  import opened Wrappers
  import opened Text
  import opened JavaInt

  /** `(long) ((later - earlier) * 1000)`: a latency in milliseconds. */
  function Millis(earlier: real, later: real): int {
    Truncate((later - earlier) * 1000.0)
  }

  /** `id != null ? id : frame + ""`: the map key of a message. */
  function KeyOf(id: Option<string>, frame: int): string {
    if id.Some? then id.value else IntText(frame)
  }

  // ------------------------------------------------- flushing leftovers

  /** `active.values().forEach(p -> { ...; out.add(p); })`: `out` is `done`
      followed by every open procedure, marked by `finish`, in the map's own
      iteration order, which Java leaves unspecified. */
  ghost predicate Flushed<P>(done: seq<P>, active: map<string, P>, finish: P -> P, out: seq<P>) {
    && |out| == |done| + |active|
    && out[..|done|] == done
    && (forall k :: k in active ==> finish(active[k]) in out[|done|..])
    && (forall j :: |done| <= j < |out| ==> exists k :: k in active && out[j] == finish(active[k]))
  }

  method FlushLeftovers<P>(done: seq<P>, active: map<string, P>, finish: P -> P) returns (out: seq<P>)
    ensures Flushed(done, active, finish, out)
  {
    out := done;
    var rest := active.Keys;
    while rest != {}
      invariant rest <= active.Keys
      invariant |out| + |rest| == |done| + |active|
      invariant |out| >= |done| && out[..|done|] == done
      invariant forall k :: k in active && k !in rest ==> finish(active[k]) in out[|done|..]
      invariant forall j :: |done| <= j < |out| ==> exists k :: k in active && out[j] == finish(active[k])
      decreases |rest|
    {
      var k :| k in rest;
      ghost var before := out;
      out := out + [finish(active[k])];
      rest := rest - {k};
      assert out[..|before|] == before;
      forall k' | k' in active && k' !in rest ensures finish(active[k']) in out[|done|..] {
        if k' != k {
          assert finish(active[k']) in before[|done|..];
        }
        assert out[|done|..] == before[|done|..] + [finish(active[k])];
      }
    }
  }

  /** Adding a key grows a map by at most one entry, and overwriting a
      present key does not grow it. */
  lemma PutSize<V>(m: map<string, V>, k: string, v: V)
    ensures |m[k := v]| <= |m| + 1
    ensures k in m ==> |m[k := v]| == |m|
  {
    if k in m {
      assert m[k := v].Keys == m.Keys;
    } else {
      assert m[k := v].Keys == m.Keys + {k};
    }
  }

  /** Removing a present key shrinks a map by exactly one entry. */
  lemma RemoveSize<V>(m: map<string, V>, k: string)
    requires k in m
    ensures |m - {k}| == |m| - 1
  {
    assert (m - {k}).Keys == m.Keys - {k};
  }

  // ------------------------------------------------------------------ RRC

  /** One `lte-rrc` packet with a message identifier (`parseRrcMessage`). */
  datatype RrcMessage = RrcMessage(
    frameNumber: Int32,
    timestamp: real,
    messageType: string,
    transactionId: Option<string>,
    establishmentCause: Option<string>)

  datatype RrcProcedure = RrcProcedure(
    transactionId: string,
    requestFrame: Int32, requestTime: real,
    setupFrame: Int32, setupTime: real,
    completeFrame: Int32, completeTime: real,
    establishmentCause: Option<string>,
    success: bool, failureReason: Option<string>,
    setupLatencyMs: int, totalLatencyMs: int)

  /** The open procedures and the list of procedures emitted so far. */
  datatype RrcState = RrcState(active: map<string, RrcProcedure>, procedures: seq<RrcProcedure>)

  datatype RrcKind = Request | Setup | SetupComplete | Reject | Ignored

  /** Which `contains` test of the if/else chain comes first. */
  datatype Order =
    | AsWritten     // RRCConnectionSetup is tested before RRCConnectionSetupComplete
    | CompleteFirst // the longer name is tested first

  function Classify(order: Order, t: string): RrcKind {
    if Contains(t, "RRCConnectionRequest") then Request
    else if order == CompleteFirst && Contains(t, "RRCConnectionSetupComplete") then SetupComplete
    else if Contains(t, "RRCConnectionSetup") then Setup
    else if order == AsWritten && Contains(t, "RRCConnectionSetupComplete") then SetupComplete
    else if Contains(t, "RRCConnectionReject") then Reject
    else Ignored
  }

  function RrcKey(msg: RrcMessage): string {
    KeyOf(msg.transactionId, msg.frameNumber)
  }

  /** The procedure a request opens; the other fields keep Java's defaults. */
  function Opened(key: string, msg: RrcMessage): RrcProcedure {
    RrcProcedure(key, msg.frameNumber, msg.timestamp, 0, 0.0, 0, 0.0,
                 msg.establishmentCause, false, None, 0, 0)
  }

  /** `calculateLatencies`: a latency is set only for a positive time. */
  function CalculateLatencies(p: RrcProcedure): (r: RrcProcedure)
    ensures r.(setupLatencyMs := p.setupLatencyMs, totalLatencyMs := p.totalLatencyMs) == p
    ensures r.setupLatencyMs == if p.setupTime > 0.0 then Millis(p.requestTime, p.setupTime) else p.setupLatencyMs
    ensures r.totalLatencyMs == if p.completeTime > 0.0 then Millis(p.requestTime, p.completeTime) else p.totalLatencyMs
  {
    var withSetup := if p.setupTime > 0.0 then p.(setupLatencyMs := Millis(p.requestTime, p.setupTime)) else p;
    if p.completeTime > 0.0 then withSetup.(totalLatencyMs := Millis(p.requestTime, p.completeTime)) else withSetup
  }

  function Completed(p: RrcProcedure, msg: RrcMessage): RrcProcedure {
    CalculateLatencies(p.(completeFrame := msg.frameNumber, completeTime := msg.timestamp, success := true))
  }

  function Rejected(p: RrcProcedure): RrcProcedure {
    p.(success := false, failureReason := Some("Rejected"))
  }

  function Incomplete(p: RrcProcedure): RrcProcedure {
    p.(success := false, failureReason := Some("Incomplete"))
  }

  /** One iteration of the loop over the messages. */
  function RrcStep(st: RrcState, msg: RrcMessage, kind: RrcKind): RrcState {
    var key := RrcKey(msg);
    match kind
    case Request => RrcState(st.active[key := Opened(key, msg)], st.procedures)
    case Setup =>
      if key in st.active
      then RrcState(st.active[key := st.active[key].(setupFrame := msg.frameNumber, setupTime := msg.timestamp)], st.procedures)
      else st
    case SetupComplete =>
      if key in st.active
      then RrcState(st.active - {key}, st.procedures + [Completed(st.active[key], msg)])
      else st
    case Reject =>
      if key in st.active
      then RrcState(st.active - {key}, st.procedures + [Rejected(st.active[key])])
      else st
    case Ignored => st
  }

  /** The state after the loop has seen `msgs`. */
  function RrcRun(order: Order, msgs: seq<RrcMessage>): RrcState
    decreases |msgs|
  {
    if msgs == [] then RrcState(map[], [])
    else
      var last := msgs[|msgs| - 1];
      RrcStep(RrcRun(order, msgs[..|msgs| - 1]), last, Classify(order, last.messageType))
  }

  /** The number of RRC connection requests among `msgs`. */
  function Requests(msgs: seq<RrcMessage>): nat
    decreases |msgs|
  {
    if msgs == [] then 0
    else Requests(msgs[..|msgs| - 1]) + if Contains(msgs[|msgs| - 1].messageType, "RRCConnectionRequest") then 1 else 0
  }

  /** The run over one more message is one more step. */
  lemma RrcRunStep(order: Order, msgs: seq<RrcMessage>, i: nat)
    requires i < |msgs|
    ensures RrcRun(order, msgs[..i + 1]) == RrcStep(RrcRun(order, msgs[..i]), msgs[i], Classify(order, msgs[i].messageType))
  {
    assert msgs[..i + 1][..i] == msgs[..i];
  }

  /** `correlateLteRrcProcedures`, from the message list on, with the
      `contains` tests in the given order (`AsWritten` for the code). */
  method CorrelateRrc(messages: seq<RrcMessage>, order: Order) returns (procedures: seq<RrcProcedure>)
    ensures Flushed(RrcRun(order, messages).procedures, RrcRun(order, messages).active, Incomplete, procedures)
    ensures |procedures| <= Requests(messages)
  {
    var active: map<string, RrcProcedure> := map[];
    var done: seq<RrcProcedure> := [];
    var i := 0;
    while i < |messages|
      invariant i <= |messages|
      invariant RrcState(active, done) == RrcRun(order, messages[..i])
    {
      var msg := messages[i];
      var procKey := if msg.transactionId.Some? then msg.transactionId.value else IntText(msg.frameNumber);
      var t := msg.messageType;
      var setup := Contains(t, "RRCConnectionSetup");
      var complete := Contains(t, "RRCConnectionSetupComplete");
      ghost var before := RrcState(active, done);
      assert procKey == RrcKey(msg);
      RrcRunStep(order, messages, i);
      if Contains(t, "RRCConnectionRequest") {
        assert Classify(order, t) == Request;
        active := active[procKey := Opened(procKey, msg)];
      } else if complete && (order == CompleteFirst || !setup) {
        assert Classify(order, t) == SetupComplete;
        if procKey in active {
          done := done + [Completed(active[procKey], msg)];
          active := active - {procKey};
        }
      } else if setup {
        assert Classify(order, t) == Setup;
        if procKey in active {
          active := active[procKey := active[procKey].(setupFrame := msg.frameNumber, setupTime := msg.timestamp)];
        }
      } else if Contains(t, "RRCConnectionReject") {
        assert Classify(order, t) == Reject;
        if procKey in active {
          done := done + [Rejected(active[procKey])];
          active := active - {procKey};
        }
      } else {
        assert Classify(order, t) == Ignored;
      }
      assert RrcState(active, done) == RrcStep(before, msg, Classify(order, t));
      i := i + 1;
    }
    assert messages[..i] == messages;
    RrcRunSize(order, messages);
    procedures := FlushLeftovers(done, active, Incomplete);
  }

  /** A request opens a procedure under its transaction identifier, or under
      its frame number when it has none, replacing any procedure open under
      that key; nothing is emitted. */
  lemma RequestOpens(order: Order, st: RrcState, msg: RrcMessage)
    requires Contains(msg.messageType, "RRCConnectionRequest")
    ensures var st' := RrcStep(st, msg, Classify(order, msg.messageType));
            var key := if msg.transactionId.Some? then msg.transactionId.value else IntText(msg.frameNumber);
            && st'.procedures == st.procedures
            && st'.active.Keys == st.active.Keys + {key}
            && st'.active[key].transactionId == key
            && st'.active[key].requestFrame == msg.frameNumber
            && st'.active[key].establishmentCause == msg.establishmentCause
            && !st'.active[key].success
            && forall k :: k in st.active && k != key ==> st'.active[k] == st.active[k]
  {
  }

  /** A reject is classified as one under either order. */
  lemma RejectClassified(order: Order, t: string)
    requires Contains(t, "RRCConnectionReject")
    requires !Contains(t, "RRCConnectionRequest") && !Contains(t, "RRCConnectionSetup")
    ensures Classify(order, t) == Reject
  {
    if Contains(t, "RRCConnectionSetupComplete") {
      SetupPrefix();
      ContainsTransitive(t, "RRCConnectionSetupComplete", "RRCConnectionSetup");
    }
  }

  /** A reject removes the open procedure of its key and emits it as a
      failure with reason "Rejected"; with no open procedure it changes
      nothing. */
  lemma RejectCloses(st: RrcState, msg: RrcMessage)
    ensures var st' := RrcStep(st, msg, Reject);
            var key := RrcKey(msg);
            && key !in st'.active
            && (key in st.active ==>
                  && st'.active.Keys == st.active.Keys - {key}
                  && |st'.procedures| == |st.procedures| + 1
                  && st'.procedures[..|st.procedures|] == st.procedures
                  && var p := st'.procedures[|st.procedures|];
                     !p.success && p.failureReason == Some("Rejected")
                     && p.transactionId == st.active[key].transactionId
                     && p.requestFrame == st.active[key].requestFrame)
            && (key !in st.active ==> st' == st)
  {
    var st' := RrcStep(st, msg, Reject);
    if RrcKey(msg) in st.active {
      assert st'.procedures[..|st.procedures|] == st.procedures;
    }
  }

  lemma SetupPrefix()
    ensures Contains("RRCConnectionSetupComplete", "RRCConnectionSetup")
  {
    assert OccursAt("RRCConnectionSetupComplete", "RRCConnectionSetup", 0);
  }

  /** As written, every text that names RRCConnectionSetupComplete also
      names RRCConnectionSetup and is taken by that branch first. */
  lemma SetupCompleteUnreachable(t: string)
    ensures Classify(AsWritten, t) != SetupComplete
  {
    if Contains(t, "RRCConnectionSetupComplete") {
      SetupPrefix();
      ContainsTransitive(t, "RRCConnectionSetupComplete", "RRCConnectionSetup");
    }
  }

  /** How the two orders classify the message name itself. */
  lemma SetupCompleteLiteral()
    ensures Classify(AsWritten, "RRCConnectionSetupComplete") == Setup
    ensures Classify(CompleteFirst, "RRCConnectionSetupComplete") == SetupComplete
  {
    MissingChar("RRCConnectionSetupComplete", "RRCConnectionRequest", 15);
    assert OccursAt("RRCConnectionSetupComplete", "RRCConnectionSetupComplete", 0);
    SetupPrefix();
  }

  ghost predicate NoneSucceeded(st: RrcState) {
    && (forall k :: k in st.active ==> !st.active[k].success)
    && (forall j :: 0 <= j < |st.procedures| ==> !st.procedures[j].success)
  }

  /** As written, no RRC procedure is ever emitted as a success. */
  lemma {:induction false} AsWrittenNeverSucceeds(msgs: seq<RrcMessage>)
    ensures NoneSucceeded(RrcRun(AsWritten, msgs))
    decreases |msgs|
  {
    if msgs != [] {
      var last := msgs[|msgs| - 1];
      AsWrittenNeverSucceeds(msgs[..|msgs| - 1]);
      SetupCompleteUnreachable(last.messageType);
    }
  }

  /** The corrected order emits a success for a request followed by its
      setup complete, where the order as written emits nothing and leaves the
      procedure open. */
  lemma CompleteFirstSucceeds(request: RrcMessage, complete: RrcMessage)
    requires request.messageType == "RRCConnectionRequest"
    requires complete.messageType == "RRCConnectionSetupComplete"
    requires request.transactionId == complete.transactionId == Some("0")
    ensures var st := RrcRun(CompleteFirst, [request, complete]);
            |st.procedures| == 1 && st.procedures[0].success && st.active == map[]
    ensures var st := RrcRun(AsWritten, [request, complete]);
            st.procedures == [] && "0" in st.active && !st.active["0"].success
  {
    assert OccursAt("RRCConnectionRequest", "RRCConnectionRequest", 0);
    SetupCompleteLiteral();
    assert [request, complete][..1] == [request];
    assert [request][..0] == [];
    var st0 := RrcState(map[], []);
    forall order: Order ensures RrcRun(order, [request]) == RrcStep(st0, request, Request) {
      assert Classify(order, request.messageType) == Request;
    }
    var st1 := RrcStep(st0, request, Request);
    assert "0" in st1.active && !st1.active["0"].success;
    assert RrcRun(CompleteFirst, [request, complete]) == RrcStep(st1, complete, SetupComplete);
    assert RrcRun(AsWritten, [request, complete]) == RrcStep(st1, complete, Setup);
  }

  /** A setup complete with a request open under its key closes it as a
      success, under the corrected order. */
  lemma CompleteCloses(st: RrcState, msg: RrcMessage)
    requires Contains(msg.messageType, "RRCConnectionSetupComplete")
    requires !Contains(msg.messageType, "RRCConnectionRequest")
    requires RrcKey(msg) in st.active
    ensures var st' := RrcStep(st, msg, Classify(CompleteFirst, msg.messageType));
            && st'.active.Keys == st.active.Keys - {RrcKey(msg)}
            && |st'.procedures| == |st.procedures| + 1
            && st'.procedures[|st.procedures|].success
            && st'.procedures[|st.procedures|].completeFrame == msg.frameNumber
            && st'.procedures[|st.procedures|].transactionId == st.active[RrcKey(msg)].transactionId
  {
  }

  /** Each procedure, open or emitted, comes from a distinct request, so
      the output is never longer than the number of requests. */
  lemma {:induction false} RrcRunSize(order: Order, msgs: seq<RrcMessage>)
    ensures |RrcRun(order, msgs).procedures| + |RrcRun(order, msgs).active| <= Requests(msgs)
    decreases |msgs|
  {
    if msgs != [] {
      var init := msgs[..|msgs| - 1];
      var last := msgs[|msgs| - 1];
      RrcRunSize(order, init);
      RrcStepSize(RrcRun(order, init), last, Classify(order, last.messageType));
    }
  }

  /** Only a request can add to the open and emitted procedures together. */
  lemma RrcStepSize(st: RrcState, msg: RrcMessage, kind: RrcKind)
    ensures var st' := RrcStep(st, msg, kind);
            |st'.procedures| + |st'.active| <= |st.procedures| + |st.active| + if kind == Request then 1 else 0
  {
    var key := RrcKey(msg);
    match kind
    case Request => PutSize(st.active, key, Opened(key, msg));
    case Setup => if key in st.active { PutSize(st.active, key, st.active[key].(setupFrame := msg.frameNumber, setupTime := msg.timestamp)); }
    case SetupComplete => if key in st.active { RemoveSize(st.active, key); }
    case Reject => if key in st.active { RemoveSize(st.active, key); }
    case Ignored =>
  }

  // ------------------------------------------------------------- handover

  /** One packet of the reconfiguration capture. */
  datatype HandoverPacket = HandoverPacket(
    frameNumber: Int32,
    timestamp: real,
    messageType: Option<string>,
    transactionId: Option<string>,
    hasMobilityControl: bool,
    physCellId: Option<string>)

  datatype HandoverProcedure = HandoverProcedure(
    transactionId: string,
    commandFrame: Int32, commandTime: real,
    completeFrame: Int32, completeTime: real,
    sourceCellId: Option<string>, targetCellId: Option<string>,
    success: bool, failureReason: Option<string>,
    latencyMs: int)

  datatype HandoverState = HandoverState(active: map<string, HandoverProcedure>, handovers: seq<HandoverProcedure>)

  /** A reconfiguration with mobility control information: a handover command. */
  predicate IsCommand(p: HandoverPacket) {
    p.messageType.Some? && Contains(p.messageType.value, "rrcConnectionReconfiguration") && p.hasMobilityControl
  }

  predicate IsHandoverComplete(p: HandoverPacket) {
    !IsCommand(p) && p.messageType.Some? && Contains(p.messageType.value, "rrcConnectionReconfigurationComplete")
  }

  /** `frameNum - 1` as Java `int` arithmetic computes it. */
  function PreviousFrame(f: Int32): (r: Int32)
    ensures f > -0x8000_0000 ==> r == f - 1
    ensures f == -0x8000_0000 ==> r == 0x7fff_ffff
  {
    Wrap32(f - 1)
  }

  /** A complete without a transaction identifier looks for the command of
      the previous frame. */
  function CompleteKey(p: HandoverPacket): string {
    KeyOf(p.transactionId, PreviousFrame(p.frameNumber))
  }

  function Command(key: string, p: HandoverPacket): HandoverProcedure {
    HandoverProcedure(key, p.frameNumber, p.timestamp, 0, 0.0, None, p.physCellId, false, None, 0)
  }

  function HandoverDone(h: HandoverProcedure, p: HandoverPacket): HandoverProcedure {
    h.(completeFrame := p.frameNumber, completeTime := p.timestamp, success := true,
       latencyMs := Millis(h.commandTime, p.timestamp))
  }

  function NoCompletion(h: HandoverProcedure): HandoverProcedure {
    h.(success := false, failureReason := Some("No completion"))
  }

  function HandoverStep(st: HandoverState, p: HandoverPacket): HandoverState {
    if IsCommand(p) then
      var key := KeyOf(p.transactionId, p.frameNumber);
      HandoverState(st.active[key := Command(key, p)], st.handovers)
    else if IsHandoverComplete(p) && CompleteKey(p) in st.active then
      var key := CompleteKey(p);
      HandoverState(st.active - {key}, st.handovers + [HandoverDone(st.active[key], p)])
    else st
  }

  function HandoverRun(packets: seq<HandoverPacket>): HandoverState
    decreases |packets|
  {
    if packets == [] then HandoverState(map[], [])
    else HandoverStep(HandoverRun(packets[..|packets| - 1]), packets[|packets| - 1])
  }

  function Commands(packets: seq<HandoverPacket>): nat
    decreases |packets|
  {
    if packets == [] then 0
    else Commands(packets[..|packets| - 1]) + if IsCommand(packets[|packets| - 1]) then 1 else 0
  }

  /** `correlateLteHandovers`, from the decoded packets on. */
  method CorrelateHandovers(packets: seq<HandoverPacket>) returns (handovers: seq<HandoverProcedure>)
    ensures Flushed(HandoverRun(packets).handovers, HandoverRun(packets).active, NoCompletion, handovers)
    ensures |handovers| <= Commands(packets)
  {
    var active: map<string, HandoverProcedure> := map[];
    var done: seq<HandoverProcedure> := [];
    var i := 0;
    while i < |packets|
      invariant i <= |packets|
      invariant HandoverState(active, done) == HandoverRun(packets[..i])
    {
      var p := packets[i];
      if p.messageType.Some? && Contains(p.messageType.value, "rrcConnectionReconfiguration") && p.hasMobilityControl {
        var key := if p.transactionId.Some? then p.transactionId.value else IntText(p.frameNumber);
        active := active[key := Command(key, p)];
      } else if p.messageType.Some? && Contains(p.messageType.value, "rrcConnectionReconfigurationComplete") {
        var key := if p.transactionId.Some? then p.transactionId.value else IntText(PreviousFrame(p.frameNumber));
        if key in active {
          done := done + [HandoverDone(active[key], p)];
          active := active - {key};
        }
      }
      assert packets[..i + 1][..i] == packets[..i];
      i := i + 1;
    }
    assert packets[..i] == packets;
    HandoverRunSize(packets);
    handovers := FlushLeftovers(done, active, NoCompletion);
  }

  /** A complete emits a handover exactly when a command is open under its
      key, and the same complete seen again emits nothing more. */
  lemma CompleteEmittedOnce(st: HandoverState, p: HandoverPacket)
    requires IsHandoverComplete(p)
    ensures |HandoverStep(st, p).handovers| == |st.handovers| + if CompleteKey(p) in st.active then 1 else 0
    ensures CompleteKey(p) !in HandoverStep(st, p).active
    ensures HandoverStep(HandoverStep(st, p), p) == HandoverStep(st, p)
  {
  }

  /** The name of a complete contains the name of a reconfiguration, so a
      complete that carries mobility control information opens a handover. */
  lemma CompleteWithMobilityIsCommand(p: HandoverPacket)
    requires p.messageType.Some? && Contains(p.messageType.value, "rrcConnectionReconfigurationComplete")
    requires p.hasMobilityControl
    ensures IsCommand(p) && !IsHandoverComplete(p)
  {
    assert OccursAt("rrcConnectionReconfigurationComplete", "rrcConnectionReconfiguration", 0);
    ContainsTransitive(p.messageType.value, "rrcConnectionReconfigurationComplete", "rrcConnectionReconfiguration");
  }

  lemma {:induction false} HandoverRunSize(packets: seq<HandoverPacket>)
    ensures |HandoverRun(packets).handovers| + |HandoverRun(packets).active| <= Commands(packets)
    decreases |packets|
  {
    if packets != [] {
      var init := packets[..|packets| - 1];
      var p := packets[|packets| - 1];
      var st := HandoverRun(init);
      HandoverRunSize(init);
      if IsCommand(p) {
        var key := KeyOf(p.transactionId, p.frameNumber);
        PutSize(st.active, key, Command(key, p));
      } else if IsHandoverComplete(p) && CompleteKey(p) in st.active {
        RemoveSize(st.active, CompleteKey(p));
      }
    }
  }

  // ------------------------------------------------------ PDN connectivity

  /** One ESM packet. */
  datatype PdnPacket = PdnPacket(
    frameNumber: Int32,
    timestamp: real,
    msgType: Option<string>,
    pti: Option<string>,
    esmCause: Option<string>)

  datatype PdnProcedure = PdnProcedure(
    pti: string,
    requestFrame: Int32, requestTime: real,
    activateFrame: Int32, activateTime: real,
    acceptFrame: Int32, acceptTime: real,
    rejectFrame: Int32, rejectTime: real,
    success: bool, cause: Option<string>,
    latencyMs: int)

  datatype PdnState = PdnState(active: map<string, PdnProcedure>, procedures: seq<PdnProcedure>)

  /** `activeProcedures.get(pti)` / `remove(pti)`: a packet without a PTI
      finds nothing, since every key is a string. */
  predicate IsOpen(st: PdnState, pti: Option<string>) {
    pti.Some? && pti.value in st.active
  }

  function PdnRequest(key: string, p: PdnPacket): PdnProcedure {
    PdnProcedure(key, p.frameNumber, p.timestamp, 0, 0.0, 0, 0.0, 0, 0.0, false, None, 0)
  }

  function PdnIncomplete(q: PdnProcedure): PdnProcedure {
    q.(success := false, cause := Some("Incomplete"))
  }

  function PdnStep(st: PdnState, p: PdnPacket): PdnState {
    if p.msgType == Some("0xc1") then
      var key := KeyOf(p.pti, p.frameNumber);
      PdnState(st.active[key := PdnRequest(key, p)], st.procedures)
    else if p.msgType == Some("0xc2") && IsOpen(st, p.pti) then
      var q := st.active[p.pti.value];
      PdnState(st.active - {p.pti.value},
               st.procedures + [q.(success := false, rejectFrame := p.frameNumber, rejectTime := p.timestamp, cause := p.esmCause)])
    else if p.msgType == Some("0xd2") && IsOpen(st, p.pti) then
      var q := st.active[p.pti.value];
      PdnState(st.active[p.pti.value := q.(activateFrame := p.frameNumber, activateTime := p.timestamp)], st.procedures)
    else if p.msgType == Some("0xd3") && IsOpen(st, p.pti) then
      var q := st.active[p.pti.value];
      PdnState(st.active - {p.pti.value},
               st.procedures + [q.(success := true, acceptFrame := p.frameNumber, acceptTime := p.timestamp,
                                   latencyMs := Millis(q.requestTime, p.timestamp))])
    else st
  }

  function PdnRun(packets: seq<PdnPacket>): PdnState
    decreases |packets|
  {
    if packets == [] then PdnState(map[], [])
    else PdnStep(PdnRun(packets[..|packets| - 1]), packets[|packets| - 1])
  }

  function PdnRequests(packets: seq<PdnPacket>): nat
    decreases |packets|
  {
    if packets == [] then 0
    else PdnRequests(packets[..|packets| - 1]) + if packets[|packets| - 1].msgType == Some("0xc1") then 1 else 0
  }

  /** `correlateLtePdnConnectivity`, from the decoded packets on. */
  method CorrelatePdn(packets: seq<PdnPacket>) returns (procedures: seq<PdnProcedure>)
    ensures Flushed(PdnRun(packets).procedures, PdnRun(packets).active, PdnIncomplete, procedures)
    ensures |procedures| <= PdnRequests(packets)
  {
    var active: map<string, PdnProcedure> := map[];
    var done: seq<PdnProcedure> := [];
    var i := 0;
    while i < |packets|
      invariant i <= |packets|
      invariant PdnState(active, done) == PdnRun(packets[..i])
    {
      var p := packets[i];
      if p.msgType == Some("0xc1") {
        var key := if p.pti.Some? then p.pti.value else IntText(p.frameNumber);
        active := active[key := PdnRequest(key, p)];
      } else if p.msgType == Some("0xc2") {
        if p.pti.Some? && p.pti.value in active {
          var q := active[p.pti.value];
          done := done + [q.(success := false, rejectFrame := p.frameNumber, rejectTime := p.timestamp, cause := p.esmCause)];
          active := active - {p.pti.value};
        }
      } else if p.msgType == Some("0xd2") {
        if p.pti.Some? && p.pti.value in active {
          var q := active[p.pti.value];
          active := active[p.pti.value := q.(activateFrame := p.frameNumber, activateTime := p.timestamp)];
        }
      } else if p.msgType == Some("0xd3") {
        if p.pti.Some? && p.pti.value in active {
          var q := active[p.pti.value];
          done := done + [q.(success := true, acceptFrame := p.frameNumber, acceptTime := p.timestamp,
                             latencyMs := Millis(q.requestTime, p.timestamp))];
          active := active - {p.pti.value};
        }
      }
      assert packets[..i + 1][..i] == packets[..i];
      i := i + 1;
    }
    assert packets[..i] == packets;
    PdnRunSize(packets);
    procedures := FlushLeftovers(done, active, PdnIncomplete);
  }

  /** 0xc2 closes an open procedure as a failure carrying the ESM cause,
      0xd3 closes it as a success, 0xd2 only records the activation. */
  lemma PdnOutcomes(st: PdnState, p: PdnPacket)
    ensures var st' := PdnStep(st, p);
            && (p.msgType == Some("0xc2") && IsOpen(st, p.pti) ==>
                  && st'.active.Keys == st.active.Keys - {p.pti.value}
                  && |st'.procedures| == |st.procedures| + 1
                  && !st'.procedures[|st.procedures|].success
                  && st'.procedures[|st.procedures|].cause == p.esmCause
                  && st'.procedures[|st.procedures|].pti == st.active[p.pti.value].pti)
            && (p.msgType == Some("0xd3") && IsOpen(st, p.pti) ==>
                  && st'.active.Keys == st.active.Keys - {p.pti.value}
                  && |st'.procedures| == |st.procedures| + 1
                  && st'.procedures[|st.procedures|].success
                  && st'.procedures[|st.procedures|].pti == st.active[p.pti.value].pti)
            && (p.msgType == Some("0xd2") ==>
                  st'.active.Keys == st.active.Keys && st'.procedures == st.procedures)
            && (p.msgType != Some("0xc1") && !IsOpen(st, p.pti) ==> st' == st)
  {
  }

  /** A request without a PTI is filed under its frame number, which no later
      packet can name: every packet without a PTI except a request changes
      nothing. */
  lemma MissingPtiChangesNothing(st: PdnState, p: PdnPacket)
    requires p.pti.None? && p.msgType != Some("0xc1")
    ensures PdnStep(st, p) == st
  {
  }

  lemma {:induction false} PdnRunSize(packets: seq<PdnPacket>)
    ensures |PdnRun(packets).procedures| + |PdnRun(packets).active| <= PdnRequests(packets)
    decreases |packets|
  {
    if packets != [] {
      var init := packets[..|packets| - 1];
      var p := packets[|packets| - 1];
      var st := PdnRun(init);
      PdnRunSize(init);
      if p.msgType == Some("0xc1") {
        var key := KeyOf(p.pti, p.frameNumber);
        PutSize(st.active, key, PdnRequest(key, p));
      } else if IsOpen(st, p.pti) {
        if p.msgType == Some("0xd2") {
          PutSize(st.active, p.pti.value, st.active[p.pti.value]);
        } else {
          RemoveSize(st.active, p.pti.value);
        }
      }
    }
  }
}
