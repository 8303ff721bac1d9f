/** Bytes on disk: big-endian numbers, log-entry records, framed segments and
    the two frame scanners of internal/wal/wal.go. The checksum is any function
    of the frame body that fits four bytes. */
module WalFrames {
  import opened Types

  const SEGMENT_HEADER_SIZE: nat := 12
  const FRAME_HEADER_SIZE: nat := 8
  const MAX_RECORD_SIZE: nat := 0x20_0000
  const U32: nat := 0x1_0000_0000
  const U64: nat := 0x1_0000_0000_0000_0000

  // ------------------------------------------------------- big-endian numbers

  function Pow256(n: nat): nat { if n == 0 then 1 else 256 * Pow256(n - 1) }

  function BigEndian(n: nat, x: nat): (b: Bytes)
    ensures |b| == n
  {
    if n == 0 then [] else BigEndian(n - 1, x / 256) + [x % 256]
  }

  function Number(b: Bytes): nat {
    if b == [] then 0 else 256 * Number(b[..|b| - 1]) + b[|b| - 1]
  }

  lemma {:induction false} NumberRoundTrip(n: nat, x: nat)
    requires x < Pow256(n)
    ensures Number(BigEndian(n, x)) == x
  {
    if n > 0 {
      NumberRoundTrip(n - 1, x / 256);
      var b := BigEndian(n, x);
      assert b[..n - 1] == BigEndian(n - 1, x / 256);
    }
  }

  lemma Sizes()
    ensures Pow256(4) == U32 && Pow256(8) == U64
  {
    assert Pow256(1) == 0x100;
    assert Pow256(2) == 0x1_0000;
    assert Pow256(3) == 0x100_0000;
    assert Pow256(4) == 0x1_0000_0000;
    assert Pow256(5) == 0x100_0000_0000;
    assert Pow256(6) == 0x1_0000_0000_0000;
    assert Pow256(7) == 0x100_0000_0000_0000;
  }

  // ------------------------------------------------------------ log-entry records

  function KindCode(k: EntryKind): byte {
    match k
    case NoOp => 0
    case OpenSession => 1
    case CloseSession => 2
    case SetKey => 3
    case DeleteKey => 4
  }

  function KindOf(code: byte): EntryKind
    requires code <= 4
  {
    if code == 0 then NoOp else if code == 1 then OpenSession else if code == 2 then CloseSession
    else if code == 3 then SetKey else DeleteKey
  }

  /** Entries whose numbers fit their fields. */
  predicate Fits(e: Entry) {
    e.index < U64 && e.term < U64 && e.sequence < U64 && |e.key| < U32 && |e.value| < U32
  }

  function EncodeEntry(e: Entry): Bytes {
    BigEndian(8, e.index) + BigEndian(8, e.term) + [KindCode(e.kind)] + e.session + BigEndian(8, e.sequence)
      + BigEndian(4, |e.key|) + BigEndian(4, |e.value|) + e.key + e.value
  }

  datatype Decoded = Decoded(entry: Entry) | TooShort | LengthMismatch | UnknownKind

  function DecodeEntry(p: Bytes): Decoded {
    if |p| < 49 then TooShort
    else
      var keyLength, valueLength := Number(p[41..45]), Number(p[45..49]);
      if 49 + keyLength + valueLength != |p| then LengthMismatch
      else if p[16] > 4 then UnknownKind
      else Decoded(Entry(Number(p[0..8]), Number(p[8..16]), KindOf(p[16]), p[17..33], Number(p[33..41]),
                         p[49..49 + keyLength], p[49 + keyLength..]))
  }

  /** Where each field of an encoded entry lies. */
  lemma EncodedFields(e: Entry)
    ensures var p := EncodeEntry(e);
            && |p| == 49 + |e.key| + |e.value|
            && p[0..8] == BigEndian(8, e.index) && p[8..16] == BigEndian(8, e.term) && p[16] == KindCode(e.kind)
            && p[17..33] == e.session && p[33..41] == BigEndian(8, e.sequence)
            && p[41..45] == BigEndian(4, |e.key|) && p[45..49] == BigEndian(4, |e.value|)
            && p[49..49 + |e.key|] == e.key && p[49 + |e.key|..] == e.value
  {
    hide BigEndian;
  }

  /** Decoding inverts encoding for every entry within the limits. */
  lemma EntryRoundTrip(e: Entry)
    requires Fits(e)
    ensures DecodeEntry(EncodeEntry(e)) == Decoded(e)
  {
    hide EncodeEntry, BigEndian, Number, Pow256;
    EncodedFields(e);
    Sizes();
    NumberRoundTrip(8, e.index);
    NumberRoundTrip(8, e.term);
    NumberRoundTrip(8, e.sequence);
    NumberRoundTrip(4, |e.key|);
    NumberRoundTrip(4, |e.value|);
  }

  // ----------------------------------------------------------------- framed segments

  type Checksum = Bytes -> nat

  ghost predicate IsChecksum(crc: Checksum) { forall b :: crc(b) < U32 }

  predicate BodyOk(body: Bytes) { 0 < |body| <= MAX_RECORD_SIZE }

  predicate AllBodiesOk(bodies: seq<Bytes>) { forall i :: 0 <= i < |bodies| ==> BodyOk(bodies[i]) }

  function Frame(crc: Checksum, body: Bytes): Bytes {
    BigEndian(4, |body|) + BigEndian(4, crc(body)) + body
  }

  function Frames(crc: Checksum, bodies: seq<Bytes>): Bytes {
    if bodies == [] then [] else Frame(crc, bodies[0]) + Frames(crc, bodies[1..])
  }

  /** "QKVWAL01" and format version 1. */
  function SegmentHeader(): Bytes { [0x51, 0x4B, 0x56, 0x57, 0x41, 0x4C, 0x30, 0x31, 0, 0, 0, 1] }

  datatype Scan =
    | Scanned(bodies: seq<Bytes>, end: nat)
    | BadHeader
    | TornHeader(at: nat)
    | BadLength(at: nat)
    | TornBody(at: nat)
    | BadChecksum(at: nat)

  /** Puts what was already read in front of what is still to be read. */
  function Prepend(bodies: seq<Bytes>, scan: Scan): Scan {
    if scan.Scanned? then Scanned(bodies + scan.bodies, scan.end) else scan
  }

  /** The frames from an offset on. In the final segment an interrupted last
      frame ends the scan instead of failing it. */
  function ScanFrom(crc: Checksum, bytes: Bytes, offset: nat, tolerant: bool): Scan
    requires offset <= |bytes|
    decreases |bytes| - offset
  {
    if offset == |bytes| then Scanned([], offset)
    else if |bytes| - offset < FRAME_HEADER_SIZE then
      if tolerant then Scanned([], offset) else TornHeader(offset)
    else
      var length := Number(bytes[offset..offset + 4]);
      var end := offset + FRAME_HEADER_SIZE + length;
      if length == 0 || length > MAX_RECORD_SIZE then BadLength(offset)
      else if end > |bytes| then
        if tolerant then Scanned([], offset) else TornBody(offset)
      else
        var body := bytes[offset + FRAME_HEADER_SIZE..end];
        if crc(body) != Number(bytes[offset + 4..offset + 8]) then
          if tolerant && end == |bytes| then Scanned([], offset) else BadChecksum(offset)
        else
          Prepend([body], ScanFrom(crc, bytes, end, tolerant))
  }

  function ScanSegment(crc: Checksum, bytes: Bytes, tolerant: bool): Scan {
    if |bytes| < SEGMENT_HEADER_SIZE || bytes[..SEGMENT_HEADER_SIZE] != SegmentHeader() then BadHeader
    else ScanFrom(crc, bytes, SEGMENT_HEADER_SIZE, tolerant)
  }

  // ------------------------------------------------------------------- torn tails

  lemma SliceOf(b: Bytes, offset: nat, n: nat, i: nat, j: nat)
    requires i <= j <= n && offset + n <= |b|
    ensures b[offset..offset + n][i..j] == b[offset + i..offset + j]
  {
    var part, slice := b[offset..offset + n], b[offset + i..offset + j];
    assert |part[i..j]| == |slice|;
    forall k | 0 <= k < j - i ensures part[i..j][k] == slice[k] {
      assert part[i..j][k] == part[i + k] == b[offset + i + k];
    }
  }

  /** A frame written at an offset reads back. */
  lemma FrameReads(crc: Checksum, bytes: Bytes, offset: nat, body: Bytes)
    requires IsChecksum(crc) && BodyOk(body)
    requires offset + |Frame(crc, body)| <= |bytes| && bytes[offset..offset + |Frame(crc, body)|] == Frame(crc, body)
    ensures |Frame(crc, body)| == FRAME_HEADER_SIZE + |body|
    ensures Number(bytes[offset..offset + 4]) == |body|
    ensures Number(bytes[offset + 4..offset + 8]) == crc(body)
    ensures bytes[offset + 8..offset + 8 + |body|] == body
  {
    hide BigEndian, Number, Pow256;
    Sizes();
    NumberRoundTrip(4, |body|);
    NumberRoundTrip(4, crc(body));
    var f := Frame(crc, body);
    assert f[0..4] == BigEndian(4, |body|) && f[4..8] == BigEndian(4, crc(body)) && f[8..|f|] == body;
    SliceOf(bytes, offset, |f|, 0, 4);
    SliceOf(bytes, offset, |f|, 4, 8);
    SliceOf(bytes, offset, |f|, 8, |f|);
  }

  /** A cut inside a frame ends a tolerant scan there. */
  lemma TornFrame(crc: Checksum, whole: Bytes, cut: nat, offset: nat, body: Bytes)
    requires IsChecksum(crc) && BodyOk(body) && offset <= cut <= |whole|
    requires offset + |Frame(crc, body)| <= |whole| && whole[offset..offset + |Frame(crc, body)|] == Frame(crc, body)
    requires cut < offset + |Frame(crc, body)|
    ensures ScanFrom(crc, whole[..cut], offset, true) == Scanned([], offset)
  {
    FrameReads(crc, whole, offset, body);
    if offset + FRAME_HEADER_SIZE <= cut {
      assert whole[..cut][offset..offset + 4] == whole[offset..offset + 4];
    }
  }

  /** The number of frames that lie wholly before a cut. */
  function WholeFrames(crc: Checksum, bodies: seq<Bytes>, room: nat): (k: nat)
    ensures k <= |bodies|
  {
    if bodies == [] || |Frame(crc, bodies[0])| > room then 0
    else 1 + WholeFrames(crc, bodies[1..], room - |Frame(crc, bodies[0])|)
  }

  lemma {:induction false} ScanPrefix(crc: Checksum, before: Bytes, bodies: seq<Bytes>, cut: nat)
    requires IsChecksum(crc) && AllBodiesOk(bodies)
    requires |before| <= cut <= |before| + |Frames(crc, bodies)|
    ensures var k := WholeFrames(crc, bodies, cut - |before|);
            ScanFrom(crc, (before + Frames(crc, bodies))[..cut], |before|, true) == Scanned(bodies[..k], |before| + |Frames(crc, bodies[..k])|)
    decreases |bodies|
  {
    hide BigEndian, Number, IsChecksum, Frame, ScanFrom;
    var whole := before + Frames(crc, bodies);
    if bodies != [] {
      var f := Frame(crc, bodies[0]);
      FirstFrame(before, f, Frames(crc, bodies[1..]));
      if |f| > cut - |before| {
        TornFrame(crc, whole, cut, |before|, bodies[0]);
        assert bodies[..0] == [];
      } else {
        ScanPrefix(crc, before + f, bodies[1..], cut);
        ScanRest(crc, before, bodies, cut);
      }
    } else {
      assert whole[..cut] == before;
      ScanNothing(crc, before, true);
    }
  }

  lemma FirstFrame(before: Bytes, f: Bytes, rest: Bytes)
    ensures before + (f + rest) == (before + f) + rest && (before + (f + rest))[|before|..|before| + |f|] == f
  {
  }

  lemma SliceBelow(b: Bytes, i: nat, j: nat, cut: nat)
    requires i <= j <= cut <= |b|
    ensures b[..cut][i..j] == b[i..j]
  {
  }

  lemma FirstBodies(bodies: seq<Bytes>, k: nat)
    requires bodies != [] && k <= |bodies| - 1
    ensures bodies[..k + 1] != [] && bodies[..k + 1][0] == bodies[0] && bodies[..k + 1][1..] == bodies[1..][..k]
    ensures [bodies[0]] + bodies[1..][..k] == bodies[..k + 1]
  {
  }

  lemma ScanNothing(crc: Checksum, bytes: Bytes, tolerant: bool)
    ensures ScanFrom(crc, bytes, |bytes|, tolerant) == Scanned([], |bytes|)
  {
  }

  /** A whole first frame and then what the rest scans to. */
  lemma ScanRest(crc: Checksum, before: Bytes, bodies: seq<Bytes>, cut: nat)
    requires IsChecksum(crc) && AllBodiesOk(bodies) && bodies != []
    requires var f := Frame(crc, bodies[0]);
             && |before| + |f| <= cut <= |before| + |Frames(crc, bodies)|
             && var k := WholeFrames(crc, bodies[1..], cut - |before| - |f|);
                ScanFrom(crc, (before + f + Frames(crc, bodies[1..]))[..cut], |before + f|, true)
                  == Scanned(bodies[1..][..k], |before + f| + |Frames(crc, bodies[1..][..k])|)
    ensures var k := WholeFrames(crc, bodies, cut - |before|);
            ScanFrom(crc, (before + Frames(crc, bodies))[..cut], |before|, true) == Scanned(bodies[..k], |before| + |Frames(crc, bodies[..k])|)
  {
    hide BigEndian, Number, IsChecksum, Frame, ScanFrom;
    var f, whole := Frame(crc, bodies[0]), before + Frames(crc, bodies);
    FirstFrame(before, f, Frames(crc, bodies[1..]));
    var k := WholeFrames(crc, bodies[1..], cut - |before| - |f|);
    SliceBelow(whole, |before|, |before| + |f|, cut);
    ScanFirst(crc, whole[..cut], |before|, bodies[0]);
    FirstBodies(bodies, k);
  }

  lemma ScanFirst(crc: Checksum, bytes: Bytes, offset: nat, body: Bytes)
    requires IsChecksum(crc) && BodyOk(body)
    requires offset + |Frame(crc, body)| <= |bytes| && bytes[offset..offset + |Frame(crc, body)|] == Frame(crc, body)
    ensures var rest := ScanFrom(crc, bytes, offset + |Frame(crc, body)|, true);
            ScanFrom(crc, bytes, offset, true) == if rest.Scanned? then Scanned([body] + rest.bodies, rest.end) else rest
  {
    FrameReads(crc, bytes, offset, body);
  }

  /** After any cut of the final segment past its header, recovery reads exactly
      the records whose frames lie wholly before the cut, and what it keeps of
      the file is exactly those frames. */
  lemma TornTail(crc: Checksum, bodies: seq<Bytes>, cut: nat)
    requires IsChecksum(crc) && AllBodiesOk(bodies)
    requires SEGMENT_HEADER_SIZE <= cut <= |SegmentHeader() + Frames(crc, bodies)|
    ensures var whole := SegmentHeader() + Frames(crc, bodies);
            var k := WholeFrames(crc, bodies, cut - SEGMENT_HEADER_SIZE);
            var scan := ScanSegment(crc, whole[..cut], true);
            && scan.Scanned? && scan.bodies == bodies[..k] && scan.end <= cut
            && whole[..scan.end] == SegmentHeader() + Frames(crc, bodies[..k])
  {
    hide Frames, ScanFrom, WholeFrames, IsChecksum, AllBodiesOk, SegmentHeader;
    HeaderSize();
    var whole := SegmentHeader() + Frames(crc, bodies);
    var k := WholeFrames(crc, bodies, cut - SEGMENT_HEADER_SIZE);
    assert whole[..cut][..SEGMENT_HEADER_SIZE] == SegmentHeader();
    ScanPrefix(crc, SegmentHeader(), bodies, cut);
    FramesSplit(crc, bodies, k);
    WholeFit(crc, bodies, cut - SEGMENT_HEADER_SIZE);
    var end := SEGMENT_HEADER_SIZE + |Frames(crc, bodies[..k])|;
    assert whole[..end] == SegmentHeader() + Frames(crc, bodies)[..end - SEGMENT_HEADER_SIZE];
  }

  lemma HeaderSize()
    ensures |SegmentHeader()| == SEGMENT_HEADER_SIZE
  {
  }

  lemma {:induction false} FramesSplit(crc: Checksum, bodies: seq<Bytes>, k: nat)
    requires k <= |bodies|
    ensures Frames(crc, bodies) == Frames(crc, bodies[..k]) + Frames(crc, bodies[k..])
    decreases |bodies|
  {
    if k > 0 {
      assert bodies[..k][1..] == bodies[1..][..k - 1] && bodies[1..][k - 1..] == bodies[k..];
      FramesSplit(crc, bodies[1..], k - 1);
    } else {
      assert bodies[..0] == [] && bodies[0..] == bodies;
    }
  }

  lemma {:induction false} WholeFit(crc: Checksum, bodies: seq<Bytes>, room: nat)
    ensures |Frames(crc, bodies[..WholeFrames(crc, bodies, room)])| <= room
    decreases |bodies|
  {
    var k := WholeFrames(crc, bodies, room);
    if k > 0 {
      WholeFit(crc, bodies[1..], room - |Frame(crc, bodies[0])|);
      assert bodies[..k][1..] == bodies[1..][..k - 1];
    } else {
      assert bodies[..0] == [];
    }
  }

  // ----------------------------------------------------------------- the scanners

  /** A reader at an offset has read `bodies`, and what remains is a scan from there. */
  ghost predicate ScannedSoFar(crc: Checksum, bytes: Bytes, tolerant: bool, bodies: seq<Bytes>, offset: nat) {
    offset <= |bytes| && ScanSegment(crc, bytes, tolerant) == Prepend(bodies, ScanFrom(crc, bytes, offset, tolerant))
  }

  lemma ReadStarts(crc: Checksum, bytes: Bytes, tolerant: bool)
    ensures if |bytes| < SEGMENT_HEADER_SIZE || bytes[..SEGMENT_HEADER_SIZE] != SegmentHeader()
            then ScanSegment(crc, bytes, tolerant) == BadHeader
            else ScannedSoFar(crc, bytes, tolerant, [], SEGMENT_HEADER_SIZE)
  {
    hide ScanFrom;
    if |bytes| >= SEGMENT_HEADER_SIZE {
      var scan := ScanFrom(crc, bytes, SEGMENT_HEADER_SIZE, tolerant);
      if scan.Scanned? { assert [] + scan.bodies == scan.bodies; }
    }
  }

  lemma ReadOn(crc: Checksum, bytes: Bytes, tolerant: bool, bodies: seq<Bytes>, offset: nat, body: Bytes, end: nat)
    requires ScannedSoFar(crc, bytes, tolerant, bodies, offset) && end <= |bytes|
    requires ScanFrom(crc, bytes, offset, tolerant) == Prepend([body], ScanFrom(crc, bytes, end, tolerant))
    ensures ScannedSoFar(crc, bytes, tolerant, bodies + [body], end)
  {
    hide ScanFrom, ScanSegment;
    var rest := ScanFrom(crc, bytes, end, tolerant);
    if rest.Scanned? { assert bodies + ([body] + rest.bodies) == (bodies + [body]) + rest.bodies; }
  }

  lemma ReadEnds(crc: Checksum, bytes: Bytes, tolerant: bool, bodies: seq<Bytes>, offset: nat)
    requires ScannedSoFar(crc, bytes, tolerant, bodies, offset)
    ensures var scan := ScanFrom(crc, bytes, offset, tolerant);
            && (scan == Scanned([], offset) ==> ScanSegment(crc, bytes, tolerant) == Scanned(bodies, offset))
            && (!scan.Scanned? ==> ScanSegment(crc, bytes, tolerant) == scan)
  {
    hide ScanFrom, ScanSegment;
    assert bodies + [] == bodies;
  }

  /** readSegment: read frames until the end, or, in the final segment, until an
      interrupted frame, whose offset becomes the new end of the file. */
  method ReadSegment(crc: Checksum, bytes: Bytes, recoverFinalFrame: bool) returns (scan: Scan)
    ensures scan == ScanSegment(crc, bytes, recoverFinalFrame)
  {
    hide Number, ScannedSoFar, ScanSegment, Prepend;
    ReadStarts(crc, bytes, recoverFinalFrame);
    if |bytes| < SEGMENT_HEADER_SIZE || bytes[..SEGMENT_HEADER_SIZE] != SegmentHeader() {
      return BadHeader;
    }
    var offset := SEGMENT_HEADER_SIZE;
    var bodies: seq<Bytes> := [];
    while offset != |bytes|
      invariant SEGMENT_HEADER_SIZE <= offset <= |bytes|
      invariant ScannedSoFar(crc, bytes, recoverFinalFrame, bodies, offset)
      decreases |bytes| - offset
    {
      ReadEnds(crc, bytes, recoverFinalFrame, bodies, offset);
      if |bytes| - offset < FRAME_HEADER_SIZE {
        if recoverFinalFrame { return Scanned(bodies, offset); }
        return TornHeader(offset);
      }
      var length := Number(bytes[offset..offset + 4]);
      if length == 0 { return BadLength(offset); }
      if length > MAX_RECORD_SIZE { return BadLength(offset); }
      var frameEnd := offset + FRAME_HEADER_SIZE + length;
      if frameEnd > |bytes| {
        if recoverFinalFrame { return Scanned(bodies, offset); }
        return TornBody(offset);
      }
      var body := bytes[offset + FRAME_HEADER_SIZE..frameEnd];
      if crc(body) != Number(bytes[offset + 4..offset + 8]) {
        if recoverFinalFrame && frameEnd == |bytes| { return Scanned(bodies, offset); }
        return BadChecksum(offset);
      }
      ReadOn(crc, bytes, recoverFinalFrame, bodies, offset, body, frameEnd);
      bodies, offset := bodies + [body], frameEnd;
    }
    ReadEnds(crc, bytes, recoverFinalFrame, bodies, offset);
    return Scanned(bodies, offset);
  }

  /** scanSegmentFrames: visit every frame body; true when none was refused. */
  method ScanSegmentFrames(crc: Checksum, contents: Bytes, tolerateInterruptedTail: bool) returns (ok: bool, visited: seq<Bytes>)
    ensures var scan := ScanSegment(crc, contents, tolerateInterruptedTail);
            ok == scan.Scanned? && (ok ==> visited == scan.bodies)
  {
    hide Number, ScannedSoFar, ScanSegment, Prepend;
    ReadStarts(crc, contents, tolerateInterruptedTail);
    ok, visited := false, [];
    if |contents| < SEGMENT_HEADER_SIZE { return; }
    if contents[..SEGMENT_HEADER_SIZE] != SegmentHeader() { return; }
    var offset := SEGMENT_HEADER_SIZE;
    while offset < |contents|
      invariant SEGMENT_HEADER_SIZE <= offset <= |contents| && !ok
      invariant ScannedSoFar(crc, contents, tolerateInterruptedTail, visited, offset)
    {
      ReadEnds(crc, contents, tolerateInterruptedTail, visited, offset);
      if |contents| - offset < FRAME_HEADER_SIZE {
        ok := tolerateInterruptedTail;
        return;
      }
      var length := Number(contents[offset..offset + 4]);
      if length == 0 || length > MAX_RECORD_SIZE { return; }
      var end := offset + FRAME_HEADER_SIZE + length;
      if end > |contents| {
        ok := tolerateInterruptedTail;
        return;
      }
      var body := contents[offset + FRAME_HEADER_SIZE..end];
      if crc(body) != Number(contents[offset + 4..offset + 8]) {
        ok := tolerateInterruptedTail && end == |contents|;
        return;
      }
      ReadOn(crc, contents, tolerateInterruptedTail, visited, offset, body, end);
      visited, offset := visited + [body], end;
    }
    ReadEnds(crc, contents, tolerateInterruptedTail, visited, offset);
    ok := true;
  }
}
