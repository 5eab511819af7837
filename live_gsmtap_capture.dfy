/** `LiveGsmtapCaptureService`: the hex dump read out of a logcat line, the
    fixed GSMTAP header it is wrapped in, and the little-endian PCAP writer
    the wrapped packets go to. */
module LiveGsmtapCapture {
  import opened Wrappers
  import opened Text
  import opened JavaInt
  import opened Bytes
  import GsmtapListener

  // --------------------------------------------------- parseDiagMessage

  /** `replaceAll("[^0-9a-fA-F ]", "")`. */
  function KeepHexAndSpace(s: string): (r: string)
    ensures forall i :: 0 <= i < |r| ==> IsHexDigit(r[i]) || r[i] == ' '
    ensures |r| <= |s|
    decreases |s|
  {
    if s == [] then []
    else (if IsHexDigit(s[0]) || s[0] == ' ' then [s[0]] else []) + KeepHexAndSpace(s[1..])
  }

  function NonEmpty(ps: seq<string>): (r: seq<string>)
    ensures forall i :: 0 <= i < |r| ==> r[i] != [] && r[i] in ps
    decreases |ps|
  {
    if ps == [] then []
    else (if ps[0] == [] then [] else [ps[0]]) + NonEmpty(ps[1..])
  }

  /** Java's `t.split("\\s+")` on a text whose only white space is ' ': a
      run of spaces separates two pieces, a leading run leaves an empty
      first piece, trailing empty pieces are dropped, and a text without a
      space is its own single piece. */
  function SplitSpaces(t: string): (r: seq<string>)
    ensures forall i :: 0 <= i < |r| ==> ' ' !in r[i]
    ensures forall i :: 1 <= i < |r| ==> r[i] != []
  {
    if ' ' !in t then [t]
    else
      var ps := Split(t, ' ');
      SplitPieces(t, ' ');
      DropTrailingEmpty([ps[0]] + NonEmpty(ps[1..]))
  }

  /** Every piece of a split is made of characters of the text. */
  lemma {:induction false} SplitChars(s: string, c: char)
    ensures forall k, j :: 0 <= k < |Split(s, c)| && 0 <= j < |Split(s, c)[k]| ==> Split(s, c)[k][j] in s
    decreases |s|
  {
    if s != [] {
      SplitChars(s[1..], c);
      var rest := Split(s[1..], c);
      forall k, j | 0 <= k < |Split(s, c)| && 0 <= j < |Split(s, c)[k]| ensures Split(s, c)[k][j] in s {
        if s[0] != c && k == 0 && j > 0 {
          assert Split(s, c)[0][j] == rest[0][j - 1];
        } else if s[0] == c {
          assert Split(s, c)[k][j] == rest[k - 1][j];
        } else if k > 0 {
          assert Split(s, c)[k][j] == rest[k][j];
        }
      }
    }
  }

  /** After cleaning, every piece is a run of hexadecimal digits. */
  lemma SplitSpacesHex(t: string)
    requires forall i :: 0 <= i < |t| ==> IsHexDigit(t[i]) || t[i] == ' '
    ensures forall i :: 0 <= i < |SplitSpaces(t)| ==> AllHex(SplitSpaces(t)[i])
  {
    if ' ' in t {
      var ps := Split(t, ' ');
      SplitPieces(t, ' ');
      SplitChars(t, ' ');
      var qs := [ps[0]] + NonEmpty(ps[1..]);
      forall i, j | 0 <= i < |qs| && 0 <= j < |qs[i]| ensures IsHexDigit(qs[i][j]) {
        assert qs[i] in ps;
        var k :| 0 <= k < |ps| && ps[k] == qs[i];
        assert qs[i][j] in t && qs[i][j] != ' ';
      }
    }
  }

  /** `(byte) Integer.parseInt(piece, 16)` of one piece, `None` where it
      throws; an empty piece leaves the array's zero. */
  function PieceByte(p: string): Option<Byte>
    requires AllHex(p)
  {
    if p == [] then Some(0)
    else if HexDigitsValue(p) > 0x7fff_ffff then None
    else Some(HexDigitsValue(p) % 0x100)
  }

  function PiecesBytes(ps: seq<string>): (r: Option<seq<Byte>>)
    requires forall i :: 0 <= i < |ps| ==> AllHex(ps[i])
    decreases |ps|
  {
    if ps == [] then Some([])
    else
      var init := PiecesBytes(ps[..|ps| - 1]);
      var b := PieceByte(ps[|ps| - 1]);
      if init.None? || b.None? then None else Some(init.value + [b.value])
  }

  /** The bytes are the pieces' low bytes, one per piece, or there are none
      at all when some piece does not fit a Java `int`. */
  lemma {:induction false} PiecesBytesSpec(ps: seq<string>)
    requires forall i :: 0 <= i < |ps| ==> AllHex(ps[i])
    ensures PiecesBytes(ps).None? <==> exists i :: 0 <= i < |ps| && PieceByte(ps[i]).None?
    ensures PiecesBytes(ps).Some? ==>
              && |PiecesBytes(ps).value| == |ps|
              && forall i :: 0 <= i < |ps| ==> PiecesBytes(ps).value[i] == PieceByte(ps[i]).value
    decreases |ps|
  {
    if ps != [] {
      var init := ps[..|ps| - 1];
      PiecesBytesSpec(init);
      assert forall i :: 0 <= i < |init| ==> init[i] == ps[i];
      if PiecesBytes(init).None? {
        var i :| 0 <= i < |init| && PieceByte(init[i]).None?;
        assert PieceByte(ps[i]).None?;
      }
    }
  }

  /** `parseDiagMessage`: `None` for a line without the QC_IMAGE or DIAG
      marker, or with a piece `parseInt` rejects. */
  function DiagMessage(logLine: string): (r: Option<seq<Byte>>)
    ensures r.Some? ==> Contains(logLine, "QC_IMAGE") || Contains(logLine, "DIAG")
  {
    if !Contains(logLine, "QC_IMAGE") && !Contains(logLine, "DIAG") then None
    else
      var cleaned := KeepHexAndSpace(logLine);
      SplitSpacesHex(cleaned);
      PiecesBytes(SplitSpaces(cleaned))
  }

  lemma {:induction false} PrefixNone(ps: seq<string>, n: nat)
    requires n <= |ps| && forall i :: 0 <= i < |ps| ==> AllHex(ps[i])
    requires PiecesBytes(ps[..n]).None?
    ensures PiecesBytes(ps).None?
    decreases |ps| - n
  {
    if n < |ps| {
      assert ps[..n + 1][..n] == ps[..n];
      PrefixNone(ps, n + 1);
    } else {
      assert ps[..n] == ps;
    }
  }

  /** The loop of `parseDiagMessage` that parses each piece into a byte
      array of one byte per piece. */
  method PiecesToBytes(hexBytes: seq<string>) returns (r: Option<seq<Byte>>)
    requires forall i :: 0 <= i < |hexBytes| ==> AllHex(hexBytes[i])
    ensures r == PiecesBytes(hexBytes)
  {
    var diagData := new Byte[|hexBytes|](_ => 0);
    for i := 0 to |hexBytes|
      invariant PiecesBytes(hexBytes[..i]) == Some(diagData[..i])
      invariant forall j :: i <= j < |hexBytes| ==> diagData[j] == 0
    {
      assert hexBytes[..i + 1][..i] == hexBytes[..i];
      if hexBytes[i] != [] {
        var v := HexDigitsValue(hexBytes[i]);
        if v > 0x7fff_ffff {
          PrefixNone(hexBytes, i + 1);
          return None;
        }
        diagData[i] := v % 0x100;
      }
      assert diagData[..i + 1] == diagData[..i] + [diagData[i]];
    }
    assert hexBytes[..|hexBytes|] == hexBytes;
    assert diagData[..|hexBytes|] == diagData[..];
    return Some(diagData[..]);
  }

  method ParseDiagMessage(logLine: string) returns (r: Option<seq<Byte>>)
    ensures r == DiagMessage(logLine)
  {
    if !Contains(logLine, "QC_IMAGE") && !Contains(logLine, "DIAG") {
      return None;
    }
    var cleaned := KeepHexAndSpace(logLine);
    var hexBytes := SplitSpaces(cleaned);
    SplitSpacesHex(cleaned);
    r := PiecesToBytes(hexBytes);
  }

  lemma MarkerSplit()
    ensures SplitSpaces("DA 01") == ["DA", "01"]
  {
    assert Split("01", ' ') == ["01"] by {
      SplitNoSeparator("01", ' ');
    }
    assert " 01"[1..] == "01";
    assert Split(" 01", ' ') == [[], "01"];
    assert "A 01"[1..] == " 01";
    assert ['A'] + [] == "A" && [[], "01"][1..] == ["01"];
    assert Split("A 01", ' ') == ["A", "01"];
    assert "DA 01"[1..] == "A 01";
    assert ['D'] + "A" == "DA" && ["A", "01"][1..] == ["01"];
    assert Split("DA 01", ' ') == ["DA", "01"];
  }

  lemma MarkerBytes()
    ensures PiecesBytes(["DA", "01"]) == Some([0xDA, 0x01])
  {
    assert HexDigitsValue("DA") == 0xDA by {
      assert "DA"[..1] == "D";
      assert ("D")[..0] == [];
    }
    assert HexDigitsValue("01") == 1 by {
      assert "01"[..1] == "0";
      assert ("0")[..0] == [];
    }
    assert PieceByte("DA") == Some(0xDA);
    assert PieceByte("01") == Some(0x01);
    var one: seq<string> := ["DA"];
    assert one[..0] == [] && one[0] == "DA";
    assert PiecesBytes(one[..0]) == Some([]);
    var da: seq<Byte> := [0xDA];
    assert [] + da == da;
    assert PiecesBytes(one) == Some(da);
    assert da + [0x01] == [0xDA, 0x01];
    var two: seq<string> := ["DA", "01"];
    assert two[..1] == one && two[1] == "01";
  }

  /** The hexadecimal letters of the marker itself are read as data: the
      line "DIAG 01" gives the bytes 0xDA and 0x01. */
  lemma MarkerLettersAreData()
    ensures DiagMessage("DIAG 01") == Some([0xDA, 0x01])
  {
    assert OccursAt("DIAG 01", "DIAG", 0);
    assert KeepHexAndSpace("DIAG 01") == "DA 01";
    MarkerSplit();
    MarkerBytes();
  }

  // ------------------------------------------------------- wrapInGsmtap

  /** The header `wrapInGsmtap` writes: version 2, 4 words, LTE RRC,
      signal and SNR unknown (0x80), sub-type UL-CCCH. */
  const LteRrcHeader := GsmtapListener.GsmtapHeader(2, 4, 0x0D, 0, 0, 0x80, 0x80, 0, 1, 0, 0, 0)

  method WrapInGsmtap(diagMessage: seq<Byte>) returns (r: seq<Byte>)
    ensures r == GsmtapListener.EncodeHeader(LteRrcHeader) + diagMessage
  {
    var baos: seq<Byte> := [];
    baos := baos + [0x02];   // version
    baos := baos + [0x04];   // header length in words
    baos := baos + [0x0D];   // LTE RRC
    baos := baos + [0x00];   // timeslot
    baos := baos + [0x00];   // ARFCN
    baos := baos + [0x00];
    baos := baos + [0x80];   // signal level
    baos := baos + [0x80];   // SNR
    baos := baos + [0x00];   // frame number
    baos := baos + [0x00];
    baos := baos + [0x00];
    baos := baos + [0x00];
    baos := baos + [0x01];   // sub-type
    baos := baos + [0x00];   // antenna
    baos := baos + [0x00];   // sub-slot
    baos := baos + [0x00];   // padding
    baos := baos + diagMessage;
    return baos;
  }

  /** The 16 header bytes: [0]=2, [1]=4, [2]=0x0D, [6]=[7]=0x80,
      [12]=1, every other byte 0. */
  lemma WrapperHeaderBytes()
    ensures var e := GsmtapListener.EncodeHeader(LteRrcHeader);
            && e[0] == 2 && e[1] == 4 && e[2] == 0x0D && e[6] == 0x80 && e[7] == 0x80 && e[12] == 1
            && forall i :: 0 <= i < 16 && i !in {0, 1, 2, 6, 7, 12} ==> e[i] == 0
  {
  }

  /** Decoding a wrapped message gives version 2, type LTE_RRC, radio
      technology LTE, ARFCN 0 and frame 0 with either decoder; the decoder
      that reads the header length in words returns the message as payload,
      the decoder as written returns it behind the last 12 header bytes. */
  lemma WrappedDecodes(diagMessage: seq<Byte>, nowMs: int)
    ensures var r := GsmtapListener.ParseGsmtapHeader(GsmtapListener.EncodeHeader(LteRrcHeader) + diagMessage, nowMs);
            && r.Ok?
            && r.value.version == 2 && r.value.gsmtapType == 0x0D
            && r.value.typeName == "LTE_RRC" && r.value.rat == "LTE"
            && r.value.arfcn == 0 && r.value.frameNumber == 0
            && r.value.payload == if diagMessage == [] then None else Some(diagMessage)
    ensures var r := GsmtapListener.ParseGsmtapHeaderAsWritten(GsmtapListener.EncodeHeader(LteRrcHeader) + diagMessage, nowMs);
            && r.Ok?
            && r.value.version == 2 && r.value.gsmtapType == 0x0D
            && r.value.typeName == "LTE_RRC" && r.value.rat == "LTE"
            && r.value.arfcn == 0 && r.value.frameNumber == 0
            && r.value.payload == Some(GsmtapListener.EncodeHeader(LteRrcHeader)[4..] + diagMessage)
  {
    GsmtapListener.DecodeEncode(LteRrcHeader, diagMessage, nowMs, GsmtapListener.AsWords);
    GsmtapListener.PayloadAfterHeader(LteRrcHeader, diagMessage, nowMs);
    GsmtapListener.DecodeEncode(LteRrcHeader, diagMessage, nowMs, GsmtapListener.AsOctets);
    GsmtapListener.AsWrittenPayloadKeepsHeader(LteRrcHeader, diagMessage, nowMs);
  }

  // ---------------------------------------------------------- PcapWriter

  /** `writeGlobalHeader`: the same header as the session capture's,
      little-endian. */
  const GlobalHeaderLE: seq<Byte> :=
    [0xd4, 0xc3, 0xb2, 0xa1, 0x02, 0x00, 0x04, 0x00, 0x00, 0x00, 0x00, 0x00,
     0x00, 0x00, 0x00, 0x00, 0xff, 0xff, 0x00, 0x00, 0x01, 0x00, 0x00, 0x00]

  /** The little-endian header is the magic number, the version 2.4, a zero
      time zone and accuracy, snap length 65535 and link type 1, each in
      little-endian order. */
  lemma GlobalHeaderLEBytes()
    ensures GlobalHeaderLE == LE32(0xa1b2c3d4) + LE16(2) + LE16(4) + LE32(0) + LE32(0) + LE32(65535) + LE32(1)
  {
  }

  lemma MagicField()
    ensures |GlobalHeaderLE| == 24 && ReadLE32(GlobalHeaderLE, 0) == ReadBE32(GsmtapListener.GlobalHeaderBE, 0)
  {
  }

  lemma VersionFields()
    ensures ReadLE16(GlobalHeaderLE, 4) == ReadBE16(GsmtapListener.GlobalHeaderBE, 4) == 2
    ensures ReadLE16(GlobalHeaderLE, 6) == ReadBE16(GsmtapListener.GlobalHeaderBE, 6) == 4
  {
  }

  lemma ZoneFields()
    ensures ReadLE32(GlobalHeaderLE, 8) == ReadBE32(GsmtapListener.GlobalHeaderBE, 8) == 0
    ensures ReadLE32(GlobalHeaderLE, 12) == ReadBE32(GsmtapListener.GlobalHeaderBE, 12) == 0
  {
  }

  lemma SnapAndLinkFields()
    ensures ReadLE32(GlobalHeaderLE, 16) == ReadBE32(GsmtapListener.GlobalHeaderBE, 16) == 65535
    ensures ReadLE32(GlobalHeaderLE, 20) == ReadBE32(GsmtapListener.GlobalHeaderBE, 20) == 1
  {
  }

  /** Field by field, the little-endian header holds the fields of the
      big-endian header of the session capture. */
  lemma GlobalHeaderLEFields()
    ensures |GlobalHeaderLE| == 24 && ReadLE32(GlobalHeaderLE, 0) == ReadBE32(GsmtapListener.GlobalHeaderBE, 0)
    ensures ReadLE16(GlobalHeaderLE, 4) == ReadBE16(GsmtapListener.GlobalHeaderBE, 4) == 2
    ensures ReadLE16(GlobalHeaderLE, 6) == ReadBE16(GsmtapListener.GlobalHeaderBE, 6) == 4
    ensures ReadLE32(GlobalHeaderLE, 8) == ReadBE32(GsmtapListener.GlobalHeaderBE, 8) == 0
    ensures ReadLE32(GlobalHeaderLE, 12) == ReadBE32(GsmtapListener.GlobalHeaderBE, 12) == 0
    ensures ReadLE32(GlobalHeaderLE, 16) == ReadBE32(GsmtapListener.GlobalHeaderBE, 16) == 65535
    ensures ReadLE32(GlobalHeaderLE, 20) == ReadBE32(GsmtapListener.GlobalHeaderBE, 20) == 1
  {
    MagicField();
    VersionFields();
    ZoneFields();
    SnapAndLinkFields();
  }

  /** `writePacket`: the record header and the data. */
  function RecordLE(nowMs: nat, data: seq<Byte>): (r: seq<Byte>)
    requires |data| < 0x8000_0000
    ensures |r| == 16 + |data| && r[16..] == data
  {
    LE32(Unsigned32(Wrap32(nowMs / 1000))) + LE32((nowMs % 1000) * 1000) + LE32(|data|) + LE32(|data|) + data
  }

  /** The lengths equal the data length, the microseconds are below one
      million, the seconds are the clock's as a Java `int`. */
  lemma RecordLEFields(nowMs: nat, data: seq<Byte>)
    requires |data| < 0x8000_0000
    ensures var r := RecordLE(nowMs, data);
            && ReadLE32(r, 8) == |data| && ReadLE32(r, 12) == |data|
            && ReadLE32(r, 4) < 1_000_000
            && Signed32(ReadLE32(r, 0)) == Wrap32(nowMs / 1000)
  {
    var sec := LE32(Unsigned32(Wrap32(nowMs / 1000)));
    var usec := LE32((nowMs % 1000) * 1000);
    var len := LE32(|data|);
    LE32RoundTrip([], Unsigned32(Wrap32(nowMs / 1000)), usec + len + len + data);
    LE32RoundTrip(sec, (nowMs % 1000) * 1000, len + len + data);
    LE32RoundTrip(sec + usec, |data|, len + data);
    LE32RoundTrip(sec + usec + len, |data|, data);
    var r := RecordLE(nowMs, data);
    assert r == [] + sec + (usec + len + len + data);
    assert r == sec + usec + (len + len + data);
    assert r == sec + usec + len + (len + data);
  }

  /** `(x >> 8 * k) & 0xFF` of a Java `int`, for k in 0..3. */
  function ByteOf(x: Int32, k: nat): Byte
    requires k < 4
  {
    if k == 0 then Unsigned32(x) % 0x100
    else if k == 1 then Unsigned32(x) / 0x100 % 0x100
    else if k == 2 then Unsigned32(x) / 0x1_0000 % 0x100
    else Unsigned32(x) / 0x100_0000
  }

  /** The simple PCAP writer; `file` is what the output stream has
      received. */
  class PcapWriter {
    var file: seq<Byte>

    constructor ()
      ensures file == []
    {
      file := [];
    }

    method WriteGlobalHeader()
      modifies this
      ensures file == old(file) + GlobalHeaderLE
    {
      file := file + [0xd4, 0xc3, 0xb2, 0xa1, 0x02, 0x00, 0x04, 0x00, 0x00, 0x00, 0x00, 0x00,
                      0x00, 0x00, 0x00, 0x00, 0xff, 0xff, 0x00, 0x00, 0x01, 0x00, 0x00, 0x00];
    }

    method WritePacket(packetData: seq<Byte>, nowMs: nat)
      requires |packetData| < 0x8000_0000
      modifies this
      ensures file == old(file) + RecordLE(nowMs, packetData)
    {
      var tsSec := Wrap32(nowMs / 1000);
      var tsUsec: Int32 := (nowMs % 1000) * 1000;
      var length: Int32 := |packetData|;
      var baos: seq<Byte> := [];
      baos := baos + [ByteOf(tsSec, 0), ByteOf(tsSec, 1), ByteOf(tsSec, 2), ByteOf(tsSec, 3)];
      baos := baos + [ByteOf(tsUsec, 0), ByteOf(tsUsec, 1), ByteOf(tsUsec, 2), ByteOf(tsUsec, 3)];
      baos := baos + [ByteOf(length, 0), ByteOf(length, 1), ByteOf(length, 2), ByteOf(length, 3)];
      baos := baos + [ByteOf(length, 0), ByteOf(length, 1), ByteOf(length, 2), ByteOf(length, 3)];
      file := file + baos;
      file := file + packetData;
    }
  }
}
