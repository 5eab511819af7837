/** `GsmtapListenerService`: the decoder of the GSMTAP header of each UDP
    datagram, the type-name and radio-technology tables, and the per-session
    capture that frames each datagram as a big-endian PCAP record. */
module GsmtapListener {
  import opened Wrappers
  import opened Text
  import opened JavaInt
  import opened Bytes

  // ------------------------------------------------------ header layout

  /** The 16-byte GSMTAP version 2 header of Osmocom: `headerLength`
      counts 32-bit words, the two multi-byte fields are big-endian. */
  datatype GsmtapHeader = GsmtapHeader(
    version: Byte, headerLength: Byte, gsmtapType: Byte, timeslot: Byte,
    arfcn: U16, signalDbm: Byte, snrDb: Byte, frameNumber: U32,
    subType: Byte, antennaNr: Byte, subSlot: Byte, reserved: Byte)

  function EncodeHeader(h: GsmtapHeader): (r: seq<Byte>)
    ensures |r| == 16
  {
    [h.version, h.headerLength, h.gsmtapType, h.timeslot] + BE16(h.arfcn) + [h.signalDbm, h.snrDb]
    + BE32(h.frameNumber) + [h.subType, h.antennaNr, h.subSlot, h.reserved]
  }

  // ------------------------------------------------------------ decoder

  /** The fields of `GsmtapPacket` the decoder fills. */
  datatype GsmtapPacket = GsmtapPacket(
    version: Byte, headerLength: Byte, gsmtapType: Byte, timeslot: Byte,
    arfcn: U16, signalDbm: int, snrDb: int, frameNumber: Int32,
    subType: Byte, antennaNr: Byte, subSlot: Byte, reserved: Byte,
    payload: Option<seq<Byte>>,
    timestamp: int, typeName: string, rat: string)

  /** How the decoder turns the header length field into the payload offset. */
  datatype LengthUnit =
    | AsOctets // as written: the field is used as a byte offset
    | AsWords  // the GSMTAP definition: the field counts 32-bit words

  function PayloadStart(headerLength: Byte, unit: LengthUnit): nat {
    match unit
    case AsOctets => headerLength
    case AsWords => 4 * headerLength
  }

  /** `parseGsmtapHeader` reading the header length in `unit`; `nowMs` is
      `Instant.now().toEpochMilli()`. */
  function Decode(data: seq<Byte>, nowMs: int, unit: LengthUnit): (r: Result<GsmtapPacket, string>)
    ensures r.Err? <==> |data| < 16
    ensures r.Ok? ==> var start := PayloadStart(data[1], unit);
                      r.value.payload == if start < |data| then Some(data[start..]) else None
  {
    if |data| < 16 then Err("GSMTAP packet too short")
    else
      var start := PayloadStart(data[1], unit);
      Ok(GsmtapPacket(
        data[0], data[1], data[2], data[3],
        ReadBE16(data, 4), Signed8(data[6]), Signed8(data[7]), Signed32(ReadBE32(data, 8)),
        data[12], data[13], data[14], data[15],
        if start < |data| then Some(data[start..]) else None,
        nowMs, TypeName(data[2]), DetectRat(data[2], data[12])))
  }

  /** The decoder as written. */
  function ParseGsmtapHeaderAsWritten(data: seq<Byte>, nowMs: int): Result<GsmtapPacket, string> {
    Decode(data, nowMs, AsOctets)
  }

  /** The decoder with the header length read in words. */
  function ParseGsmtapHeader(data: seq<Byte>, nowMs: int): Result<GsmtapPacket, string> {
    Decode(data, nowMs, AsWords)
  }

  /** Decoding an encoded header gives back every field, read the way the
      Java fields type them, and the bytes after the header as payload. */
  lemma DecodeEncode(h: GsmtapHeader, payload: seq<Byte>, nowMs: int, unit: LengthUnit)
    ensures var r := Decode(EncodeHeader(h) + payload, nowMs, unit);
            && r.Ok?
            && r.value.version == h.version && r.value.headerLength == h.headerLength
            && r.value.gsmtapType == h.gsmtapType && r.value.timeslot == h.timeslot
            && r.value.arfcn == h.arfcn
            && r.value.signalDbm == Signed8(h.signalDbm) && r.value.snrDb == Signed8(h.snrDb)
            && r.value.frameNumber == Signed32(h.frameNumber)
            && r.value.subType == h.subType && r.value.antennaNr == h.antennaNr
            && r.value.subSlot == h.subSlot && r.value.reserved == h.reserved
            && r.value.timestamp == nowMs
            && r.value.typeName == TypeName(h.gsmtapType)
            && r.value.rat == DetectRat(h.gsmtapType, h.subType)
  {
    var e := EncodeHeader(h);
    var data := e + payload;
    var pre := [h.version, h.headerLength, h.gsmtapType, h.timeslot];
    assert data == pre + BE16(h.arfcn) + ([h.signalDbm, h.snrDb] + BE32(h.frameNumber) + [h.subType, h.antennaNr, h.subSlot, h.reserved] + payload);
    BE16RoundTrip(pre, h.arfcn, [h.signalDbm, h.snrDb] + BE32(h.frameNumber) + [h.subType, h.antennaNr, h.subSlot, h.reserved] + payload);
    var pre2 := pre + BE16(h.arfcn) + [h.signalDbm, h.snrDb];
    assert data == pre2 + BE32(h.frameNumber) + ([h.subType, h.antennaNr, h.subSlot, h.reserved] + payload);
    BE32RoundTrip(pre2, h.frameNumber, [h.subType, h.antennaNr, h.subSlot, h.reserved] + payload);
  }

  /** With the standard header length of 4 words the corrected decoder
      returns exactly the bytes after the header. */
  lemma PayloadAfterHeader(h: GsmtapHeader, payload: seq<Byte>, nowMs: int)
    requires h.headerLength == 4
    ensures var r := ParseGsmtapHeader(EncodeHeader(h) + payload, nowMs);
            r.Ok? && r.value.payload == if payload == [] then None else Some(payload)
  {
    assert (EncodeHeader(h) + payload)[16..] == payload;
  }

  /** As written, the same datagram yields a payload that begins with the
      last 12 bytes of the header. */
  lemma AsWrittenPayloadKeepsHeader(h: GsmtapHeader, payload: seq<Byte>, nowMs: int)
    requires h.headerLength == 4
    ensures var r := ParseGsmtapHeaderAsWritten(EncodeHeader(h) + payload, nowMs);
            && r.Ok? && r.value.payload == Some(EncodeHeader(h)[4..] + payload)
            && |r.value.payload.value| == |payload| + 12
  {
    assert (EncodeHeader(h) + payload)[4..] == EncodeHeader(h)[4..] + payload;
  }

  // ------------------------------------------------------------- tables

  /** `getGsmtapTypeName`. */
  function TypeName(t: Byte): string {
    match t
    case 0x01 => "UM"
    case 0x02 => "ABIS"
    case 0x03 => "UM_BURST"
    case 0x04 => "SIM"
    case 0x05 => "TETRA_I1"
    case 0x06 => "TETRA_I1_BURST"
    case 0x07 => "WMX_BURST"
    case 0x08 => "GB_LLC"
    case 0x09 => "GB_SNDCP"
    case 0x0A => "GMR1_UM"
    case 0x0B => "UMTS_RLC_MAC"
    case 0x0C => "UMTS_RRC"
    case 0x0D => "LTE_RRC"
    case 0x0E => "LTE_MAC"
    case 0x0F => "LTE_MAC_FRAMED"
    case 0x10 => "OSMOCORE_LOG"
    case 0x11 => "QC_DIAG"
    case 0x12 => "LTE_NAS"
    case 0x13 => "5GNR_RRC"
    case 0x14 => "5GNR_MAC"
    case 0x15 => "5GNR_NAS"
    case _ => "UNKNOWN_" + IntText(t)
  }

  predicate Known(t: Byte) { 0x01 <= t <= 0x15 }

  /** `detectRat`: the sub-type plays no part. */
  function DetectRat(t: Byte, subType: Byte): string {
    match t
    case 0x01 | 0x02 | 0x03 | 0x08 | 0x09 => "GSM"
    case 0x0B | 0x0C => "WCDMA"
    case 0x0D | 0x0E | 0x0F | 0x12 => "LTE"
    case 0x13 | 0x14 | 0x15 => "5GNR"
    case _ => "UNKNOWN"
  }

  /** An unmapped type is named by its decimal value. */
  lemma UnknownTypeName(t: Byte)
    requires !Known(t)
    ensures TypeName(t) == "UNKNOWN_" + IntText(t)
    ensures TypeName(t)[..2] == "UN"
    ensures DigitsValue(TypeName(t)[8..]) == t
    ensures DetectRat(t, 0) == "UNKNOWN"
  {
    var u := "UNKNOWN_" + NatText(t);
    assert TypeName(t) == u;
    assert u[8..] == NatText(t);
    assert u[..2] == "UN";
    NatTextValue(t);
  }

  /** The family prefixes of the known names; none begins like an
      unknown one. */
  lemma KnownName(t: Byte)
    requires Known(t)
    ensures !StartsWith(TypeName(t), "UN")
    ensures StartsWith(TypeName(t), "LTE_") <==> t in {0x0D, 0x0E, 0x0F, 0x12}
    ensures StartsWith(TypeName(t), "UMTS_") <==> t in {0x0B, 0x0C}
    ensures StartsWith(TypeName(t), "5GNR_") <==> t in {0x13, 0x14, 0x15}
  {
    StartsWithMatch(TypeName(t), "UN");
    StartsWithMatch(TypeName(t), "LTE_");
    StartsWithMatch(TypeName(t), "UMTS_");
    StartsWithMatch(TypeName(t), "5GNR_");
    match t
    case 0x01 => case 0x02 => case 0x03 => case 0x04 => case 0x05 =>
    case 0x06 => case 0x07 => case 0x08 => case 0x09 => case 0x0A =>
    case 0x0B => case 0x0C => case 0x0D => case 0x0E => case 0x0F =>
    case 0x10 => case 0x11 => case 0x12 => case 0x13 => case 0x14 =>
    case 0x15 =>
  }

  /** Distinct types have distinct names. */
  lemma TypeNamesDistinct(a: Byte, b: Byte)
    requires a != b
    ensures TypeName(a) != TypeName(b)
  {
    if !Known(a) && !Known(b) {
      UnknownTypeName(a);
      UnknownTypeName(b);
    } else if !Known(a) {
      UnknownTypeName(a);
      KnownName(b);
    } else if !Known(b) {
      UnknownTypeName(b);
      KnownName(a);
    }
  }

  /** The radio technology agrees with the family the type name gives: the
      LTE, UMTS and 5G NR types are exactly those named after them. */
  lemma RatFollowsName(t: Byte, subType: Byte)
    ensures DetectRat(t, subType) == "LTE" <==> StartsWith(TypeName(t), "LTE_")
    ensures DetectRat(t, subType) == "WCDMA" <==> StartsWith(TypeName(t), "UMTS_")
    ensures DetectRat(t, subType) == "5GNR" <==> StartsWith(TypeName(t), "5GNR_")
  {
    if Known(t) {
      KnownName(t);
    } else {
      UnknownTypeName(t);
      assert DetectRat(t, subType) == "UNKNOWN";
      assert TypeName(t)[0] == 'U';
    }
  }

  // ---------------------------------------------------- session capture

  /** `writePcapGlobalHeader`: `ByteBuffer` writes big-endian. */
  const GlobalHeaderBE: seq<Byte> :=
    BE32(0xa1b2c3d4) + BE16(2) + BE16(4) + BE32(0) + BE32(0) + BE32(65535) + BE32(1)

  lemma GlobalHeaderLength()
    ensures |GlobalHeaderBE| == 24
  {
  }

  lemma GlobalHeaderFields()
    ensures |GlobalHeaderBE| == 24
    ensures GlobalHeaderBE[..4] == [0xa1, 0xb2, 0xc3, 0xd4]
    ensures ReadBE32(GlobalHeaderBE, 16) == 65535 && ReadBE32(GlobalHeaderBE, 20) == 1
  {
  }

  /** `writePcapPacket`: the record of `data` stamped with the clock
      reading `nowMs` (`System.currentTimeMillis()`). */
  function RecordBE(nowMs: nat, data: seq<Byte>): (r: seq<Byte>)
    requires |data| < 0x8000_0000
    ensures |r| == 16 + |data| && r[16..] == data
  {
    BE32(Unsigned32(Wrap32(nowMs / 1000))) + BE32((nowMs % 1000) * 1000) + BE32(|data|) + BE32(|data|) + data
  }

  /** Both length fields hold the length of the data, the microseconds are
      below one million and the seconds are the clock's, as a Java `int`. */
  lemma RecordFields(nowMs: nat, data: seq<Byte>)
    requires |data| < 0x8000_0000
    ensures var r := RecordBE(nowMs, data);
            && ReadBE32(r, 8) == |data| && ReadBE32(r, 12) == |data|
            && ReadBE32(r, 4) < 1_000_000
            && Signed32(ReadBE32(r, 0)) == Wrap32(nowMs / 1000)
  {
    var sec := BE32(Unsigned32(Wrap32(nowMs / 1000)));
    var usec := BE32((nowMs % 1000) * 1000);
    var len := BE32(|data|);
    BE32RoundTrip([], Unsigned32(Wrap32(nowMs / 1000)), usec + len + len + data);
    BE32RoundTrip(sec, (nowMs % 1000) * 1000, len + len + data);
    BE32RoundTrip(sec + usec, |data|, len + data);
    BE32RoundTrip(sec + usec + len, |data|, data);
    var r := RecordBE(nowMs, data);
    assert r == [] + sec + (usec + len + len + data);
    assert r == sec + usec + (len + len + data);
    assert r == sec + usec + len + (len + data);
    assert r == sec + usec + len + len + data;
  }

  const FlushThreshold := 1024 * 1024

  /** The capture buffer, the header flag and the bytes appended to the
      output file so far. */
  datatype Capture = Capture(buffer: seq<Byte>, headerWritten: bool, file: seq<Byte>)

  /** What `flushToFile` puts back into the emptied buffer. */
  datatype Refill =
    | RewriteHeader // as written: the global header again
    | Nothing       // the header is written once, at the start of the file

  /** `flushToFile`: the buffer is appended to the file and emptied. */
  function Flush(c: Capture, refill: Refill): (r: Capture)
    ensures c.buffer != [] ==> r.file == c.file + c.buffer
    ensures c.buffer == [] ==> r == c
  {
    if |c.buffer| == 0 then c
    else Capture(if refill == RewriteHeader && c.headerWritten then GlobalHeaderBE else [], c.headerWritten, c.file + c.buffer)
  }

  /** `writePcapPacket`: a flush follows once the buffer passes 1 MiB. */
  function Write(c: Capture, data: seq<Byte>, nowMs: nat, refill: Refill): Capture
    requires |data| < 0x8000_0000
  {
    var c' := c.(buffer := c.buffer + RecordBE(nowMs, data));
    if |c'.buffer| > FlushThreshold then Flush(c', refill) else c'
  }

  /** `processGsmtapPacket` for one session: a datagram the decoder rejects
      is not recorded, any other is recorded whole. */
  function Receive(c: Capture, data: seq<Byte>, nowMs: nat, refill: Refill): (r: Capture)
    requires |data| < 0x8000_0000
    ensures |data| < 16 ==> r == c
  {
    if ParseGsmtapHeader(data, nowMs).Err? then c else Write(c, data, nowMs, refill)
  }

  /** Everything written so far: the file followed by what is still buffered. */
  function Contents(c: Capture): seq<Byte> {
    c.file + c.buffer
  }

  const Opened := Capture(GlobalHeaderBE, true, [])

  /** A header written once: writing appends exactly one record to the
      contents and flushing moves bytes without changing the contents. */
  lemma WriteAppendsRecord(c: Capture, data: seq<Byte>, nowMs: nat)
    requires |data| < 0x8000_0000
    ensures Contents(Write(c, data, nowMs, Nothing)) == Contents(c) + RecordBE(nowMs, data)
  {
  }

  lemma FlushKeepsContents(c: Capture)
    ensures Contents(Flush(c, Nothing)) == Contents(c)
    ensures Flush(c, Nothing).buffer == []
  {
  }

  /** As written, every flush of a non-empty buffer adds another global
      header to the contents. */
  lemma RewriteAddsHeader(c: Capture)
    requires c.buffer != [] && c.headerWritten
    ensures Contents(Flush(c, RewriteHeader)) == Contents(c) + GlobalHeaderBE
  {
  }

  /** One packet of more than 1 MiB and a close: as written the file holds
      a second global header after the record, where a PCAP reader expects
      the next record header. */
  lemma SecondHeaderInFile(data: seq<Byte>, nowMs: nat)
    requires FlushThreshold < |data| < 0x8000_0000
    ensures Flush(Write(Opened, data, nowMs, RewriteHeader), RewriteHeader).file
            == GlobalHeaderBE + RecordBE(nowMs, data) + GlobalHeaderBE
    ensures Flush(Write(Opened, data, nowMs, Nothing), Nothing).file
            == GlobalHeaderBE + RecordBE(nowMs, data)
  {
    var r := RecordBE(nowMs, data);
    GlobalHeaderLength();
    assert |GlobalHeaderBE + r| > FlushThreshold;
    assert Write(Opened, data, nowMs, RewriteHeader) == Flush(Capture(GlobalHeaderBE + r, true, []), RewriteHeader);
    assert Write(Opened, data, nowMs, Nothing) == Flush(Capture(GlobalHeaderBE + r, true, []), Nothing);
    assert Flush(Capture(GlobalHeaderBE + r, true, []), RewriteHeader) == Capture(GlobalHeaderBE, true, GlobalHeaderBE + r);
    assert [] + (GlobalHeaderBE + r) == GlobalHeaderBE + r;
  }

  /** Bytes appended to the buffer are appended to what the file and the
      buffer hold together. */
  lemma AppendBoth<T>(file: seq<T>, buf: seq<T>, head: seq<T>, recs: seq<T>, x: seq<T>, y: seq<T>)
    requires file + buf == head + recs
    ensures file + (buf + x + y) == head + (recs + (x + y))
  {
    calc {
      file + (buf + x + y);
      (file + buf) + (x + y);
      head + (recs + (x + y));
    }
  }

  /** A header appended after a file that starts with it leaves one header
      followed by the old records and the new header. */
  lemma HeaderAgain<T>(file: seq<T>, head: seq<T>, recs: seq<T>)
    requires file == head + recs
    ensures file + ([] + head) == head + (recs + head)
  {
  }

  /** `SessionCapture`: its file and buffer together always hold one global
      header followed by what was written after it. */
  class SessionCapture {
    /** What a flush puts back into the buffer: `RewriteHeader` for
        `flushToFile` as written. */
    const refill: Refill
    var pcapBuffer: seq<Byte>
    var pcapHeaderWritten: bool
    var file: seq<Byte>
    /** The bytes written after the first global header: the packet records
        and, where a flush rewrites the header, the headers it writes. */
    ghost var records: seq<Byte>

    function State(): Capture
      reads this
    {
      Capture(pcapBuffer, pcapHeaderWritten, file)
    }

    ghost predicate Valid()
      reads this
    {
      file + pcapBuffer == GlobalHeaderBE + records
    }

    constructor (refill: Refill)
      ensures this.refill == refill && State() == Opened && records == [] && Valid()
    {
      this.refill := refill;
      pcapBuffer := [];
      file := [];
      records := [];
      pcapHeaderWritten := false;
      new;
      WritePcapGlobalHeader();
    }

    method WritePcapGlobalHeader()
      modifies this
      ensures pcapBuffer == old(pcapBuffer) + GlobalHeaderBE && pcapHeaderWritten
      ensures file == old(file) && records == old(records)
    {
      pcapBuffer := pcapBuffer + BE32(0xa1b2c3d4) + BE16(2) + BE16(4) + BE32(0) + BE32(0) + BE32(65535) + BE32(1);
      pcapHeaderWritten := true;
    }

    /** The header a flush of a non-empty buffer writes again, if any. */
    function Rewritten(buffer: seq<Byte>, headerWritten: bool): seq<Byte>
    {
      if refill == RewriteHeader && buffer != [] && headerWritten then GlobalHeaderBE else []
    }

    method WritePcapPacket(data: seq<Byte>, nowMs: nat)
      requires Valid() && |data| < 0x8000_0000
      modifies this
      ensures State() == Write(old(State()), data, nowMs, refill)
      ensures records == old(records) + RecordBE(nowMs, data)
                         + (if |old(pcapBuffer)| + |RecordBE(nowMs, data)| > FlushThreshold
                            then Rewritten(old(pcapBuffer) + RecordBE(nowMs, data), old(pcapHeaderWritten)) else [])
      ensures Valid()
    {
      var tsSec := Wrap32(nowMs / 1000);
      var tsUsec := (nowMs % 1000) * 1000;
      var header := BE32(Unsigned32(tsSec)) + BE32(tsUsec) + BE32(|data|) + BE32(|data|);
      assert header + data == RecordBE(nowMs, data);
      AppendBoth(file, pcapBuffer, GlobalHeaderBE, records, header, data);
      pcapBuffer := pcapBuffer + header;
      pcapBuffer := pcapBuffer + data;
      records := records + RecordBE(nowMs, data);
      if |pcapBuffer| > FlushThreshold {
        FlushToFile();
      }
    }

    method FlushToFile()
      requires Valid()
      modifies this
      ensures State() == Flush(old(State()), refill)
      ensures records == old(records) + Rewritten(old(pcapBuffer), old(pcapHeaderWritten)) && Valid()
    {
      if |pcapBuffer| == 0 {
        return;
      }
      file := file + pcapBuffer;
      pcapBuffer := [];
      if refill == RewriteHeader && pcapHeaderWritten {
        WritePcapGlobalHeader();
        records := records + GlobalHeaderBE;
        HeaderAgain(file, GlobalHeaderBE, old(records));
      }
    }

    /** `close`: after it the file is the global header followed by
        everything written before the close; without the header rewrite
        nothing is left buffered, as written a non-empty buffer leaves a
        fresh global header behind. */
    method Close()
      requires Valid()
      modifies this
      ensures State() == Flush(old(State()), refill)
      ensures file == GlobalHeaderBE + old(records)
      ensures pcapBuffer == Rewritten(old(pcapBuffer), old(pcapHeaderWritten))
      ensures refill == Nothing ==> file == GlobalHeaderBE + records && pcapBuffer == []
    {
      FlushToFile();
    }
  }
}
