/**
 * u-blox M8 UBX receive path: the four-state recogniser of the UBX frame header
 * (sync characters 0xB5 0x62, message class, message id), the message-id to
 * read-length table of the SPI read loop, and the little-endian field layout of a
 * UBX-NAV-PVT frame (class 0x01, id 0x07) held in a 100-byte buffer.
 */
module UbloxGps {
  import opened Common

  // ---------------------------------------------------------------------------
  // Frame header recogniser

  /** What one byte does to the recogniser: the new state, the message id returned
      (0 unless a header has just completed), and the header slot 0..3 the byte is
      stored in, if any. */
  datatype Recognised = Recognised(flag: int, id: int, slot: Option<int>)

  /** One call of `messageType` in recogniser state `flag`. */
  function Recognise(flag: int, b: Byte): (r: Recognised)
    ensures 0 <= r.flag <= 3
    ensures r.id != 0 ==> flag == 3
    ensures r.slot.Some? ==> 0 <= r.slot.value < 4
  {
    if b == 0xB5 && flag == 0 then Recognised(1, 0, Some(0))
    else if b == 0x62 && flag == 1 then Recognised(2, 0, Some(1))
    else if flag == 2 then Recognised(3, 0, Some(2))
    else if flag == 3 then Recognised(0, b, Some(3))
    else Recognised(0, 0, None)
  }

  /** The recogniser run over a sequence of bytes; `id` is what the last call returned. */
  function RunSync(flag: int, bytes: seq<Byte>): Recognised
    requires |bytes| > 0
    decreases |bytes|
  {
    var r := Recognise(flag, bytes[0]);
    if |bytes| == 1 then r else RunSync(r.flag, bytes[1..])
  }

  /** A buffer with the byte stored in the slot the recogniser chose. */
  function Store(buf: seq<Byte>, slot: Option<int>, b: Byte): seq<Byte>
    requires slot.Some? ==> 0 <= slot.value < |buf|
  {
    if slot.Some? then buf[slot.value := b] else buf
  }

  /** The transitions, both ways: each state is reached exactly from its
      predecessor with the right byte, everything else falls back to state 0, and
      the id is the byte after a complete header. */
  lemma SyncTransitions(flag: int, b: Byte)
    ensures var r := Recognise(flag, b);
            && (r.flag == 1 <==> flag == 0 && b == 0xB5)
            && (r.flag == 2 <==> flag == 1 && b == 0x62)
            && (r.flag == 3 <==> flag == 2)
            && (r.flag == 0 <==> !(flag == 0 && b == 0xB5) && !(flag == 1 && b == 0x62) && flag != 2)
            && r.id == (if flag == 3 then b else 0)
            && r.slot == (if 1 <= r.flag then Some(r.flag - 1) else if flag == 3 then Some(3) else None)
  {
  }

  /** From the idle state a complete header 0xB5 0x62 class id returns the id and
      leaves the recogniser idle again. */
  lemma HeaderYieldsId(msgClass: Byte, id: Byte)
    ensures RunSync(0, [0xB5, 0x62, msgClass, id]) == Recognised(0, id, Some(3))
  {
    var b := [0xB5, 0x62, msgClass, id];
    assert b[1..] == [0x62, msgClass, id] && b[1..][1..] == [msgClass, id] && b[1..][1..][1..] == [id];
    assert RunSync(2, [msgClass, id]) == RunSync(3, [id]);
    assert RunSync(1, [0x62, msgClass, id]) == RunSync(2, [msgClass, id]);
  }

  /** The recogniser does not restart on a repeated 0xB5: 0xB5 0xB5 0x62 ends idle. */
  lemma RepeatedSyncCharMisses(rest: seq<Byte>)
    requires rest == [0xB5, 0xB5, 0x62]
    ensures RunSync(0, rest) == Recognised(0, 0, None)
  {
    assert rest[1..] == [0xB5, 0x62] && rest[1..][1..] == [0x62];
    assert RunSync(1, [0xB5, 0x62]) == RunSync(0, [0x62]);
  }

  // ---------------------------------------------------------------------------
  // Read lengths

  /** Number of bytes read after the header of the message with this id; any other
      id keeps the loop in header-search mode. */
  function ReadLength(id: int): Option<int> {
    if id == 0x03 then Some(20)
    else if id == 0x02 then Some(32)
    else if id == 0x12 then Some(40)
    else if id == 0x07 then Some(96)
    else None
  }

  /** Exactly the four ids are read, and every read fits in the 100-byte buffer after
      its four header bytes. */
  lemma ReadLengthFits(id: int)
    ensures ReadLength(id).Some? <==> id in {0x02, 0x03, 0x07, 0x12}
    ensures ReadLength(id).Some? ==> 1 <= ReadLength(id).value && 4 + ReadLength(id).value <= 100
  {
  }

  /** The read loop's own variables between iterations: searching one byte at a
      time, or about to decode a message of a known length. */
  predicate LoopState(messageFlag: int, length: int) {
    || (messageFlag == 0 && length == 1)
    || (messageFlag == 1 && length in {20, 32, 40, 96})
  }

  /** The buffer after `length` bytes are read into it from index 4 on. */
  function Fill(buf: seq<Byte>, incoming: seq<Byte>): (r: seq<Byte>)
    requires 4 + |incoming| <= |buf|
    ensures |r| == |buf| && r[..4] == buf[..4] && r[4 + |incoming|..] == buf[4 + |incoming|..]
    ensures r[4..4 + |incoming|] == incoming
  {
    seq(|buf|, j requires 0 <= j < |buf| => if 4 <= j < 4 + |incoming| then incoming[j - 4] else buf[j])
  }

  // ---------------------------------------------------------------------------
  // Little-endian fields

  function Uint16LE(b0: Byte, b1: Byte): (v: int)
    ensures 0 <= v < 0x1_0000
  {
    b0 + 256 * b1
  }

  function Uint32LE(b0: Byte, b1: Byte, b2: Byte, b3: Byte): (v: int)
    ensures 0 <= v < 0x1_0000_0000
  {
    b0 + 256 * b1 + 0x1_0000 * b2 + 0x100_0000 * b3
  }

  /** A two's-complement signed 32-bit field. */
  function Int32LE(b0: Byte, b1: Byte, b2: Byte, b3: Byte): (v: int)
    ensures -0x8000_0000 <= v < 0x8000_0000
    ensures v >= 0 <==> b3 < 0x80
  {
    var u := Uint32LE(b0, b1, b2, b3);
    if u >= 0x8000_0000 then u - 0x1_0000_0000 else u
  }

  /** The four bytes of an unsigned 32-bit value, least significant first. */
  function Uint32Bytes(u: int): seq<Byte>
    requires 0 <= u < 0x1_0000_0000
  {
    [u % 256, (u / 256) % 256, (u / 0x1_0000) % 256, u / 0x100_0000]
  }

  /** The four bytes of a signed 32-bit value in two's complement. */
  function Int32Bytes(v: int): seq<Byte>
    requires -0x8000_0000 <= v < 0x8000_0000
  {
    Uint32Bytes(if v < 0 then v + 0x1_0000_0000 else v)
  }

  /** The two bytes of an unsigned 16-bit value, least significant first. */
  function Uint16Bytes(u: int): seq<Byte>
    requires 0 <= u < 0x1_0000
  {
    [u % 256, u / 256]
  }

  /** Decoding the encoding gives the value back, and encoding a decoded field gives
      its bytes back. */
  lemma Uint16RoundTrip(u: int, b0: Byte, b1: Byte)
    requires 0 <= u < 0x1_0000
    ensures var b := Uint16Bytes(u); Uint16LE(b[0], b[1]) == u
    ensures Uint16Bytes(Uint16LE(b0, b1)) == [b0, b1]
  {
    var v := b0 + 256 * b1;
    assert v / 256 == b1 && v % 256 == b0;
  }

  lemma Uint32RoundTrip(u: int)
    requires 0 <= u < 0x1_0000_0000
    ensures var b := Uint32Bytes(u); Uint32LE(b[0], b[1], b[2], b[3]) == u
  {
    var q1 := u / 256;
    var q2 := q1 / 256;
    assert u == u % 256 + 256 * q1;
    assert q1 == q1 % 256 + 256 * q2;
    assert q2 == u / 0x1_0000;
    assert q2 == q2 % 256 + 256 * (u / 0x100_0000);
  }

  lemma Uint32BytesRoundTrip(b0: Byte, b1: Byte, b2: Byte, b3: Byte)
    ensures Uint32Bytes(Uint32LE(b0, b1, b2, b3)) == [b0, b1, b2, b3]
  {
    var u := Uint32LE(b0, b1, b2, b3);
    assert u == b0 + 256 * (b1 + 256 * (b2 + 256 * b3));
    assert u / 256 == b1 + 256 * (b2 + 256 * b3);
    assert u / 0x1_0000 == (u / 256) / 256 == b2 + 256 * b3;
    assert u / 0x100_0000 == (u / 0x1_0000) / 256 == b3;
  }

  /** Decoding an encoded signed value gives it back. */
  lemma Int32RoundTrip(v: int)
    requires -0x8000_0000 <= v < 0x8000_0000
    ensures var b := Int32Bytes(v); Int32LE(b[0], b[1], b[2], b[3]) == v
  {
    Uint32RoundTrip(if v < 0 then v + 0x1_0000_0000 else v);
  }

  /** Encoding a decoded signed value gives the bytes back: no two byte patterns
      decode alike. */
  lemma Int32BytesRoundTrip(b0: Byte, b1: Byte, b2: Byte, b3: Byte)
    ensures Int32Bytes(Int32LE(b0, b1, b2, b3)) == [b0, b1, b2, b3]
  {
    Uint32BytesRoundTrip(b0, b1, b2, b3);
  }

  // ---------------------------------------------------------------------------
  // The NAV-PVT layout

  /** Format codes of the unpack: B unsigned byte, H unsigned 16-bit, I unsigned
      32-bit, i signed 32-bit, all little-endian. */
  predicate IsCode(c: char) {
    c == 'B' || c == 'H' || c == 'I' || c == 'i'
  }

  function Width(c: char): nat {
    if c == 'B' then 1 else if c == 'H' then 2 else 4
  }

  /** The format "<BBBBHIHBBBBBBIiBBBBiiiiIIiiiiiIIHBBBBBBiBBBBH", written in five
      groups of nine codes. */
  const Codes0: seq<char> := ['B', 'B', 'B', 'B', 'H', 'I', 'H', 'B', 'B']
  const Codes1: seq<char> := ['B', 'B', 'B', 'B', 'I', 'i', 'B', 'B', 'B']
  const Codes2: seq<char> := ['B', 'i', 'i', 'i', 'i', 'I', 'I', 'i', 'i']
  const Codes3: seq<char> := ['i', 'i', 'i', 'I', 'I', 'H', 'B', 'B', 'B']
  const Codes4: seq<char> := ['B', 'B', 'B', 'i', 'B', 'B', 'B', 'B', 'H']
  const PvtFormat: seq<char> := Codes0 + Codes1 + Codes2 + Codes3 + Codes4

  /** Byte offset of field n: the widths of the fields before it (no padding with '<'). */
  function OffsetOf(fmt: seq<char>, n: nat): nat
    requires n <= |fmt|
  {
    if n == 0 then 0 else OffsetOf(fmt, n - 1) + Width(fmt[n - 1])
  }

  lemma OffsetMonotone(fmt: seq<char>, m: nat, n: nat)
    requires m <= n <= |fmt|
    ensures OffsetOf(fmt, m) <= OffsetOf(fmt, n)
    decreases n - m
  {
    if m < n {
      OffsetMonotone(fmt, m, n - 1);
    }
  }

  /** The value of one field from its bytes. */
  function FieldValue(c: char, b: seq<Byte>): int
    requires |b| == Width(c)
  {
    if c == 'B' then b[0]
    else if c == 'H' then Uint16LE(b[0], b[1])
    else if c == 'I' then Uint32LE(b[0], b[1], b[2], b[3])
    else Int32LE(b[0], b[1], b[2], b[3])
  }

  /** Field n of an unpack of `data` with format `fmt`. */
  function Field(fmt: seq<char>, data: seq<Byte>, n: nat): int
    requires n < |fmt| && |data| == OffsetOf(fmt, |fmt|)
  {
    OffsetMonotone(fmt, n + 1, |fmt|);
    FieldValue(fmt[n], data[OffsetOf(fmt, n)..OffsetOf(fmt, n + 1)])
  }

  /** The whole unpack: one value per code. */
  function Unpack(fmt: seq<char>, data: seq<Byte>): (v: seq<int>)
    requires |data| == OffsetOf(fmt, |fmt|)
    ensures |v| == |fmt|
  {
    seq(|fmt|, n requires 0 <= n < |fmt| => Field(fmt, data, n))
  }

  /** The NAV-PVT format has 45 codes, all valid, and consumes exactly 100 bytes; the
      fields read by the decoder sit at the UBX-NAV-PVT payload offsets plus the six
      bytes of sync, class, id and length in front of them. */
  lemma PvtLayout()
    ensures |PvtFormat| == 45 && OffsetOf(PvtFormat, 45) == 100
    ensures forall n :: 0 <= n < |PvtFormat| ==> IsCode(PvtFormat[n])
    ensures PvtFormat[15] == 'B' && OffsetOf(PvtFormat, 15) == 26   // fixType
    ensures PvtFormat[18] == 'B' && OffsetOf(PvtFormat, 18) == 29   // numSV
    ensures PvtFormat[19] == 'i' && OffsetOf(PvtFormat, 19) == 30   // lon
    ensures PvtFormat[20] == 'i' && OffsetOf(PvtFormat, 20) == 34   // lat
    ensures PvtFormat[21] == 'i' && OffsetOf(PvtFormat, 21) == 38   // height
    ensures PvtFormat[22] == 'i' && OffsetOf(PvtFormat, 22) == 42   // hMSL
    ensures PvtFormat[23] == 'I' && OffsetOf(PvtFormat, 23) == 46   // hAcc
    ensures PvtFormat[24] == 'I' && OffsetOf(PvtFormat, 24) == 50   // vAcc
    ensures PvtFormat[25] == 'i' && OffsetOf(PvtFormat, 25) == 54   // velN
    ensures PvtFormat[26] == 'i' && OffsetOf(PvtFormat, 26) == 58   // velE
    ensures PvtFormat[27] == 'i' && OffsetOf(PvtFormat, 27) == 62   // velD
    ensures PvtFormat[29] == 'i' && OffsetOf(PvtFormat, 29) == 70   // headMot
    ensures PvtFormat[30] == 'I' && OffsetOf(PvtFormat, 30) == 74   // sAcc
    ensures PvtFormat[32] == 'H' && OffsetOf(PvtFormat, 32) == 82   // pDOP
  {
    assert OffsetOf(PvtFormat, 1) == 1; assert OffsetOf(PvtFormat, 2) == 2;
    assert OffsetOf(PvtFormat, 3) == 3; assert OffsetOf(PvtFormat, 4) == 4;
    assert OffsetOf(PvtFormat, 5) == 6; assert OffsetOf(PvtFormat, 6) == 10;
    assert OffsetOf(PvtFormat, 7) == 12; assert OffsetOf(PvtFormat, 8) == 13;
    assert OffsetOf(PvtFormat, 9) == 14; assert OffsetOf(PvtFormat, 10) == 15;
    assert OffsetOf(PvtFormat, 11) == 16; assert OffsetOf(PvtFormat, 12) == 17;
    assert OffsetOf(PvtFormat, 13) == 18; assert OffsetOf(PvtFormat, 14) == 22;
    assert OffsetOf(PvtFormat, 15) == 26; assert OffsetOf(PvtFormat, 16) == 27;
    assert OffsetOf(PvtFormat, 17) == 28; assert OffsetOf(PvtFormat, 18) == 29;
    assert OffsetOf(PvtFormat, 19) == 30; assert OffsetOf(PvtFormat, 20) == 34;
    assert OffsetOf(PvtFormat, 21) == 38; assert OffsetOf(PvtFormat, 22) == 42;
    assert OffsetOf(PvtFormat, 23) == 46; assert OffsetOf(PvtFormat, 24) == 50;
    assert OffsetOf(PvtFormat, 25) == 54; assert OffsetOf(PvtFormat, 26) == 58;
    assert OffsetOf(PvtFormat, 27) == 62; assert OffsetOf(PvtFormat, 28) == 66;
    assert OffsetOf(PvtFormat, 29) == 70; assert OffsetOf(PvtFormat, 30) == 74;
    assert OffsetOf(PvtFormat, 31) == 78; assert OffsetOf(PvtFormat, 32) == 82;
    assert OffsetOf(PvtFormat, 33) == 84; assert OffsetOf(PvtFormat, 34) == 85;
    assert OffsetOf(PvtFormat, 35) == 86; assert OffsetOf(PvtFormat, 36) == 87;
    assert OffsetOf(PvtFormat, 37) == 88; assert OffsetOf(PvtFormat, 38) == 89;
    assert OffsetOf(PvtFormat, 39) == 90; assert OffsetOf(PvtFormat, 40) == 94;
    assert OffsetOf(PvtFormat, 41) == 95; assert OffsetOf(PvtFormat, 42) == 96;
    assert OffsetOf(PvtFormat, 43) == 97; assert OffsetOf(PvtFormat, 44) == 98;
  }

  // ---------------------------------------------------------------------------
  // Decoding

  /** The fourteen gps_* outputs. */
  datatype GpsFix = GpsFix(
    lat: real, lon: real, h: real, hmsl: real, stat: int,
    north: real, east: real, down: real, crs: real, nsat: int,
    pdop: real, velacc: real, altacc: real, horizacc: real)

  /** What every output is set to when the buffer does not hold a NAV-PVT message. */
  const NoFix := GpsFix(0.0, 0.0, 0.0, 0.0, 0, 0.0, 0.0, 0.0, 0.0, 0, 0.0, 0.0, 0.0, 0.0)

  /** Degrees per unit of lat, lon (1e-7) and of the heading of motion (1e-5). */
  const DegPerLatLon: real := 0.0000001
  const DegPerHeading: real := 0.00001
  /** Feet per millimetre, for lengths, speeds and their accuracies. */
  const FeetPerMm: real := 0.00328084
  const PdopScale: real := 0.01

  /** One call of `decodeMessage` on the 100-byte buffer. */
  function Decode(data: seq<Byte>): GpsFix
    requires |data| == 100
  {
    if data[3] == 0x07 then
      PvtLayout();
      var v := Unpack(PvtFormat, data);
      GpsFix(v[20] as real * DegPerLatLon, v[19] as real * DegPerLatLon,
             v[21] as real * FeetPerMm, v[22] as real * FeetPerMm, v[15],
             v[25] as real * FeetPerMm, v[26] as real * FeetPerMm, v[27] as real * FeetPerMm,
             v[29] as real * DegPerHeading, v[18], v[32] as real * PdopScale,
             v[30] as real * FeetPerMm, v[24] as real * FeetPerMm, v[23] as real * FeetPerMm)
    else
      NoFix
  }

  /** Any message other than NAV-PVT zeroes every output. */
  lemma DecodeOtherMessage(data: seq<Byte>)
    requires |data| == 100 && data[3] != 0x07
    ensures Decode(data) == NoFix
  {
  }

  /** For NAV-PVT each output is its little-endian field, read at its offset, times
      its scale. */
  lemma DecodePvt(data: seq<Byte>)
    requires |data| == 100 && data[3] == 0x07
    ensures var f := Decode(data);
            && f.stat == data[26] && f.nsat == data[29]
            && f.lon == Int32LE(data[30], data[31], data[32], data[33]) as real * DegPerLatLon
            && f.lat == Int32LE(data[34], data[35], data[36], data[37]) as real * DegPerLatLon
            && f.h == Int32LE(data[38], data[39], data[40], data[41]) as real * FeetPerMm
            && f.hmsl == Int32LE(data[42], data[43], data[44], data[45]) as real * FeetPerMm
            && f.horizacc == Uint32LE(data[46], data[47], data[48], data[49]) as real * FeetPerMm
            && f.altacc == Uint32LE(data[50], data[51], data[52], data[53]) as real * FeetPerMm
            && f.north == Int32LE(data[54], data[55], data[56], data[57]) as real * FeetPerMm
            && f.east == Int32LE(data[58], data[59], data[60], data[61]) as real * FeetPerMm
            && f.down == Int32LE(data[62], data[63], data[64], data[65]) as real * FeetPerMm
            && f.crs == Int32LE(data[70], data[71], data[72], data[73]) as real * DegPerHeading
            && f.velacc == Uint32LE(data[74], data[75], data[76], data[77]) as real * FeetPerMm
            && f.pdop == Uint16LE(data[82], data[83]) as real * PdopScale
  {
    PvtLayout();
  }

  /** A latitude written into its field in two's complement is decoded to that
      value in units of 1e-7 degrees, whatever the rest of the buffer holds. */
  lemma LatitudeRoundTrip(data: seq<Byte>, rawLat: int)
    requires |data| == 100 && data[3] == 0x07
    requires -0x8000_0000 <= rawLat < 0x8000_0000
    ensures var d := data[..34] + Int32Bytes(rawLat) + data[38..];
            |d| == 100 && Decode(d).lat == rawLat as real * DegPerLatLon
  {
    var d := data[..34] + Int32Bytes(rawLat) + data[38..];
    DecodePvt(d);
    Int32RoundTrip(rawLat);
    assert d[34..38] == Int32Bytes(rawLat);
  }

  // ---------------------------------------------------------------------------

  /** The receiver: the recogniser state and the outputs of the last decode (absent
      before the first). */
  class Ublox {
    var typeFlag: int
    var fix: Option<GpsFix>

    constructor ()
      ensures typeFlag == 0 && fix == None
    {
      typeFlag := 0;
      fix := None;
    }

    /** One call of `messageType`: advances the recogniser and stores the byte in
        its header slot. */
    method MessageType(b: Byte, data: array<Byte>) returns (id: int)
      requires data.Length == 100
      modifies this, data
      ensures var r := Recognise(old(typeFlag), b);
              && typeFlag == r.flag && id == r.id
              && data[..] == Store(old(data[..]), r.slot, b)
      ensures fix == old(fix)
    {
      if b == 0xB5 && typeFlag == 0 {
        typeFlag := 1;
        data[0] := b;
        id := 0;
      } else if b == 0x62 && typeFlag == 1 {
        typeFlag := 2;
        data[1] := b;
        id := 0;
      } else if typeFlag == 2 {
        typeFlag := 3;
        data[2] := b;
        id := 0;
      } else if typeFlag == 3 {
        id := b;
        typeFlag := 0;
        data[3] := b;
      } else {
        typeFlag := 0;
        id := 0;
      }
    }

    /** One call of `decodeMessage`. */
    method DecodeMessage(data: array<Byte>)
      requires data.Length == 100
      modifies this
      ensures fix == Some(Decode(data[..])) && typeFlag == old(typeFlag)
    {
      fix := Some(Decode(data[..]));
    }

    /** One pass of the `getMessages` loop: read `length` bytes into the buffer from
        index 4 on, then either feed the last byte to the recogniser and pick the
        read length of a recognised message, or decode the message just read and
        return to header search. */
    method ReceiveStep(data: array<Byte>, messageFlag: int, length: int, incoming: seq<Byte>)
      returns (messageFlag': int, length': int)
      requires data.Length == 100 && LoopState(messageFlag, length) && |incoming| == length
      modifies this, data
      ensures LoopState(messageFlag', length')
      ensures var filled := Fill(old(data[..]), incoming);
              var last := incoming[length - 1];
              if messageFlag == 0 then
                var r := Recognise(old(typeFlag), last);
                && typeFlag == r.flag && fix == old(fix)
                && data[..] == Store(filled, r.slot, last)
                && (if ReadLength(r.id).Some? then messageFlag' == 1 && length' == ReadLength(r.id).value
                    else messageFlag' == 0 && length' == length)
              else
                && fix == Some(Decode(filled)) && typeFlag == 0
                && data[..] == [0, 0, 0, 0] + filled[4..]
                && messageFlag' == 0 && length' == 1
    {
      ghost var buf := data[..];
      var fromGps: Byte := 0;
      var i := 0;
      while i < length
        invariant 0 <= i <= length
        invariant forall j :: 0 <= j < 100 ==> data[j] == (if 4 <= j < 4 + i then incoming[j - 4] else buf[j])
        invariant i > 0 ==> fromGps == incoming[i - 1]
        invariant typeFlag == old(typeFlag) && fix == old(fix)
      {
        fromGps := incoming[i];
        data[i + 4] := fromGps;
        i := i + 1;
      }
      assert data[..] == Fill(buf, incoming);
      messageFlag', length' := messageFlag, length;
      if messageFlag == 0 {
        var id := MessageType(fromGps, data);
        ReadLengthFits(id);
        if id == 0x03 {
          length', messageFlag' := 20, 1;
        } else if id == 0x02 {
          length', messageFlag' := 32, 1;
        } else if id == 0x12 {
          length', messageFlag' := 40, 1;
        } else if id == 0x07 {
          length', messageFlag' := 96, 1;
        }
      } else {
        DecodeMessage(data);
        messageFlag', length' := 0, 1;
        data[0], data[1], data[2], data[3] := 0, 0, 0, 0;
        typeFlag := 0;
        assert data[..] == [0, 0, 0, 0] + Fill(buf, incoming)[4..];
      }
    }
  }
}
