/** makeSolidPng, byte by byte, against sections 3.1, 3.2 and 4.1.1 of RFC 2083. The checksum and
    the compressor are parameters. */
module Png {
  import opened Common

  type Byte = b: int | 0 <= b < 256
  type Bytes = seq<Byte>
  const WORD := 0x1_0000_0000
  type Word = n: int | 0 <= n < WORD

  /** crc32 and deflateSync. */
  datatype Codec = Codec(crc: Bytes -> Word, deflate: Bytes -> Bytes)

  datatype Colour = Colour(r: int, g: int, b: int)
  datatype PngError = OutOfRange

  // ----- Big-endian words -----

  function BigEndian(n: Word): (r: Bytes)
    ensures |r| == 4
  {
    [n / 0x1000000, n / 0x10000 % 256, n / 0x100 % 256, n % 256]
  }

  function FromBigEndian(b: Bytes): Word
    requires |b| == 4
  {
    var b0: int, b1: int, b2: int, b3: int := b[0], b[1], b[2], b[3];
    b0 * 0x1000000 + b1 * 0x10000 + b2 * 0x100 + b3
  }

  lemma WordsRoundTrip(n: Word, b: Bytes)
    requires |b| == 4
    ensures FromBigEndian(BigEndian(n)) == n
    ensures BigEndian(FromBigEndian(b)) == b
  {
    var b0: int, b1: int, b2: int, b3: int := b[0], b[1], b[2], b[3];
    var m := FromBigEndian(b);
    assert m / 0x1000000 == b0 && m / 0x10000 == b0 * 256 + b1 && m / 0x100 == b0 * 0x10000 + b1 * 256 + b2;
    assert n == (n / 0x100) * 0x100 + n % 256 && n / 0x100 == (n / 0x10000) * 256 + n / 0x100 % 256;
  }

  // ----- Chunks: section 3.2 -----

  datatype Chunk = Chunk(kind: Bytes, data: Bytes)

  predicate Fits(c: Chunk) {
    |c.kind| == 4 && |c.data| < WORD
  }

  function WriteChunk(c: Chunk, crc: Bytes -> Word): Bytes
    requires Fits(c)
  {
    BigEndian(|c.data|) + c.kind + c.data + BigEndian(crc(c.kind + c.data))
  }

  /** The reader: length, type, data and a checksum that must agree; then what follows. */
  function ReadChunk(bytes: Bytes, crc: Bytes -> Word): (r: Option<(Chunk, Bytes)>)
    ensures r.Some? ==> Fits(r.value.0) && |r.value.1| < |bytes|
  {
    if |bytes| < 12 then None
    else
      var length := FromBigEndian(bytes[..4]);
      if |bytes| < 12 + length then None
      else
        var c := Chunk(bytes[4..8], bytes[8..8 + length]);
        if bytes[8 + length..12 + length] == BigEndian(crc(c.kind + c.data)) then Some((c, bytes[12 + length..])) else None
  }

  function WriteChunks(chunks: seq<Chunk>, crc: Bytes -> Word): Bytes
    requires forall c :: c in chunks ==> Fits(c)
  {
    if chunks == [] then [] else WriteChunk(chunks[0], crc) + WriteChunks(chunks[1..], crc)
  }

  function ReadChunks(bytes: Bytes, crc: Bytes -> Word): Option<seq<Chunk>>
    decreases |bytes|
  {
    if bytes == [] then Some([])
    else match ReadChunk(bytes, crc)
      case None => None
      case Some((c, rest)) => match ReadChunks(rest, crc) case None => None case Some(cs) => Some([c] + cs)
  }

  lemma ChunkReadsBack(c: Chunk, rest: Bytes, crc: Bytes -> Word)
    requires Fits(c)
    ensures ReadChunk(WriteChunk(c, crc) + rest, crc) == Some((c, rest))
  {
    var bytes := WriteChunk(c, crc) + rest;
    WordsRoundTrip(|c.data|, BigEndian(|c.data|));
    assert bytes[..4] == BigEndian(|c.data|);
    assert bytes[4..8] == c.kind;
    assert bytes[8..8 + |c.data|] == c.data;
    assert bytes[8 + |c.data|..12 + |c.data|] == BigEndian(crc(c.kind + c.data));
    assert bytes[12 + |c.data|..] == rest;
  }

  lemma ChunkWritesBack(bytes: Bytes, crc: Bytes -> Word)
    requires ReadChunk(bytes, crc).Some?
    ensures var (c, rest) := ReadChunk(bytes, crc).value; WriteChunk(c, crc) + rest == bytes
  {
    var (c, rest) := ReadChunk(bytes, crc).value;
    var length := FromBigEndian(bytes[..4]);
    WordsRoundTrip(length, bytes[..4]);
    assert bytes == bytes[..4] + bytes[4..8] + bytes[8..8 + length] + bytes[8 + length..12 + length] + bytes[12 + length..];
  }

  /** Reading undoes writing, for every list of chunks whose lengths fit their word. */
  lemma {:induction false} ChunksReadBack(chunks: seq<Chunk>, crc: Bytes -> Word)
    requires forall c :: c in chunks ==> Fits(c)
    ensures ReadChunks(WriteChunks(chunks, crc), crc) == Some(chunks)
  {
    if chunks != [] {
      ChunksReadBack(chunks[1..], crc);
      ChunkReadsBack(chunks[0], WriteChunks(chunks[1..], crc), crc);
      assert [chunks[0]] + chunks[1..] == chunks;
    }
  }

  /** And writing undoes reading: the reader accepts nothing but what the writer produces. */
  lemma {:induction false} ChunksWriteBack(bytes: Bytes, crc: Bytes -> Word)
    requires ReadChunks(bytes, crc).Some?
    ensures var chunks := ReadChunks(bytes, crc).value; (forall c :: c in chunks ==> Fits(c)) && WriteChunks(chunks, crc) == bytes
    decreases |bytes|
  {
    if bytes != [] {
      var (c, rest) := ReadChunk(bytes, crc).value;
      ChunksWriteBack(rest, crc);
      ChunkWritesBack(bytes, crc);
      var chunks := ReadChunks(bytes, crc).value;
      assert chunks[1..] == ReadChunks(rest, crc).value;
    }
  }

  // ----- Scanlines -----

  /** Math.round. */
  function Round(v: real): int {
    (v + 0.5).Floor
  }

  /** A colour channel in row y, as a buffer stores it: rounded, then modulo 256. */
  function Shaded(channel: int, y: nat, height: nat): Byte
    requires y < height
  {
    Round(channel as real * Shade(y, height)) % 256
  }

  /** The gentle gradient: 1 at the top, towards 0.65 at the bottom. */
  function Shade(y: nat, height: nat): real
    requires y < height
  {
    1.0 - (y as real / height as real) * 0.35
  }

  function Pixel(colour: Colour, y: nat, height: nat): Bytes
    requires y < height
  {
    [Shaded(colour.r, y, height), Shaded(colour.g, y, height), Shaded(colour.b, y, height)]
  }

  function Pixels(colour: Colour, y: nat, height: nat, count: nat): (r: Bytes)
    requires y < height
    ensures |r| == 3 * count
  {
    if count == 0 then [] else Pixels(colour, y, height, count - 1) + Pixel(colour, y, height)
  }

  /** Where row y starts, row by row; RowStartIsProduct gives the closed form. */
  function RowStart(width: nat, y: nat): nat {
    if y == 0 then 0 else RowStart(width, y - 1) + 1 + width * 3
  }

  lemma {:induction false} RowStartIsProduct(width: nat, y: nat)
    ensures RowStart(width, y) == y * (1 + width * 3)
  {
    if y > 0 {
      RowStartIsProduct(width, y - 1);
      assert (y - 1) * (1 + width * 3) + (1 + width * 3) == y * (1 + width * 3);
    }
  }

  lemma {:induction false} RowsInOrder(width: nat, y: nat, z: nat)
    requires y < z
    ensures RowStart(width, y) + 1 + width * 3 <= RowStart(width, z)
    decreases z
  {
    if y < z - 1 { RowsInOrder(width, y, z - 1); }
  }

  /** The first `count` rows: a filter byte 0, then the row's pixels. */
  function Rows(colour: Colour, width: nat, height: nat, count: nat): (r: Bytes)
    requires count <= height
    ensures |r| == RowStart(width, count)
  {
    if count == 0 then [] else Rows(colour, width, height, count - 1) + [0] + Pixels(colour, count - 1, height, width)
  }

  lemma {:induction false} PixelAt(colour: Colour, y: nat, height: nat, count: nat, x: nat)
    requires y < height && x < count
    ensures Pixels(colour, y, height, count)[3 * x..3 * x + 3] == Pixel(colour, y, height)
  {
    var most := Pixels(colour, y, height, count - 1);
    if x < count - 1 {
      PixelAt(colour, y, height, count - 1, x);
      assert Pixels(colour, y, height, count)[3 * x..3 * x + 3] == most[3 * x..3 * x + 3];
    }
  }

  lemma LastRowAt(colour: Colour, width: nat, height: nat, y: nat, x: nat)
    requires y < height && x < width
    ensures var px := RowStart(width, y) + 1 + 3 * x;
      && px + 3 <= |Rows(colour, width, height, y + 1)|
      && Rows(colour, width, height, y + 1)[RowStart(width, y)] == 0
      && Rows(colour, width, height, y + 1)[px..px + 3] == Pixel(colour, y, height)
  {
    PixelAt(colour, y, height, width, x);
    LaterBytes(Rows(colour, width, height, y), Pixels(colour, y, height, width), 3 * x);
  }

  /** Byte by byte: row y starts with filter type 0 and holds pixel x at offset 1 + 3x. */
  lemma {:induction false} RowAt(colour: Colour, width: nat, height: nat, count: nat, y: nat, x: nat)
    requires y < count <= height && x < width
    ensures var px := RowStart(width, y) + 1 + 3 * x;
      && px + 3 <= |Rows(colour, width, height, count)|
      && Rows(colour, width, height, count)[RowStart(width, y)] == 0
      && Rows(colour, width, height, count)[px..px + 3] == Pixel(colour, y, height)
    decreases count
  {
    hide Pixel;
    if y == count - 1 {
      LastRowAt(colour, width, height, y, x);
    } else {
      var before, line := Rows(colour, width, height, count - 1), Pixels(colour, count - 1, height, width);
      RowAt(colour, width, height, count - 1, y, x);
      RowsInOrder(width, y, count - 1);
      EarlierBytes(before, line, RowStart(width, y), RowStart(width, y) + 1 + 3 * x);
    }
  }

  lemma EarlierBytes(before: Bytes, line: Bytes, start: nat, px: nat)
    requires start < |before| && px + 3 <= |before|
    ensures (before + [0] + line)[start] == before[start] && (before + [0] + line)[px..px + 3] == before[px..px + 3]
  {
  }

  lemma LaterBytes(before: Bytes, line: Bytes, at: nat)
    requires at + 3 <= |line|
    ensures (before + [0] + line)[|before|] == 0
    ensures (before + [0] + line)[|before| + 1 + at..|before| + 1 + at + 3] == line[at..at + 3]
  {
  }

  lemma ShadesOrdered(y: nat, z: nat, height: nat)
    requires y <= z < height
    ensures 0.65 <= Shade(z, height) <= Shade(y, height) <= 1.0 == Shade(0, height)
  {
    var a, b := y as real / height as real, z as real / height as real;
    assert 0.0 <= a <= b < 1.0;
    assert 0 as real / height as real == 0.0;
  }

  lemma ProductsOrdered(c: real, a: real, b: real)
    requires 0.0 <= c && a <= b
    ensures c * a <= c * b
  {
  }

  lemma RoundOrder(u: real, v: real)
    requires u <= v
    ensures Round(u) <= Round(v)
    ensures u - 0.5 < Round(u) as real <= u + 0.5
  {
    var a, b := (u + 0.5).Floor, (v + 0.5).Floor;
    assert a as real <= u + 0.5 < a as real + 1.0;
    assert b as real <= v + 0.5 < b as real + 1.0;
    assert a as real < (b + 1) as real;
  }

  lemma RoundInBand(channel: int, u: real)
    requires channel as real * 0.65 <= u <= channel as real && 0 <= channel
    ensures 0 <= Round(u) <= channel && 65 * channel <= 100 * Round(u) + 50
  {
    RoundOrder(u, channel as real);
    assert Round(channel as real) == channel;
    assert (65 * channel) as real <= 100.0 * Round(u) as real + 50.0;
  }

  lemma NoWrap(channel: int, y: nat, height: nat)
    requires 0 <= channel < 256 && y < height
    ensures Shaded(channel, y, height) == Round(channel as real * Shade(y, height)) <= channel
    ensures 65 * channel <= 100 * Shaded(channel, y, height) + 50
  {
    ShadesOrdered(y, y, height);
    ProductsOrdered(channel as real, 0.65, Shade(y, height));
    ProductsOrdered(channel as real, Shade(y, height), 1.0);
    RoundInBand(channel, channel as real * Shade(y, height));
  }

  lemma ShadesDarken(channel: int, y: nat, z: nat, height: nat)
    requires 0 <= channel && y <= z < height
    ensures Round(channel as real * Shade(z, height)) <= Round(channel as real * Shade(y, height))
  {
    var c, s, t := channel as real, Shade(z, height), Shade(y, height);
    ShadesOrdered(y, z, height);
    ProductsOrdered(c, s, t);
    RoundOrder(c * s, c * t);
  }

  lemma TimesOne(c: real, s: real)
    requires s == 1.0
    ensures c * s == c
  {
  }

  lemma TopRow(channel: int, height: nat)
    requires 0 <= channel < 256 && height > 0
    ensures Shaded(channel, 0, height) == channel
  {
    ShadesOrdered(0, 0, height);
    TimesOne(channel as real, Shade(0, height));
    RoundInBand(channel, channel as real);
    assert Round(channel as real) == channel;
  }

  /** With channels in 0..255 nothing wraps, row 0 is the colour itself, and rows only darken,
      never below 65 percent. */
  lemma GradientDarkens(channel: int, y: nat, z: nat, height: nat)
    requires 0 <= channel < 256 && y <= z < height
    ensures Shaded(channel, 0, height) == channel
    ensures Shaded(channel, z, height) <= Shaded(channel, y, height) <= channel
    ensures 65 * channel <= 100 * Shaded(channel, z, height) + 50
  {
    NoWrap(channel, y, height);
    NoWrap(channel, z, height);
    ShadesDarken(channel, y, z, height);
    TopRow(channel, height);
  }

  // ----- The file: sections 3.1 and 4.1.1 -----

  const SIGNATURE: Bytes := [0x89, 0x50, 0x4e, 0x47, 0x0d, 0x0a, 0x1a, 0x0a]
  const IHDR: Bytes := [73, 72, 68, 82]
  const IDAT: Bytes := [73, 68, 65, 84]
  const IEND: Bytes := [73, 69, 78, 68]

  function HeaderData(width: Word, height: Word): (r: Bytes)
    ensures |r| == 13
  {
    BigEndian(width) + BigEndian(height) + [8, 2, 0, 0, 0]
  }

  function FileChunks(width: Word, height: Word, compressed: Bytes): seq<Chunk> {
    [Chunk(IHDR, HeaderData(width, height)), Chunk(IDAT, compressed), Chunk(IEND, [])]
  }

  /** Every length and dimension must fit its four-byte word, or writeUInt32BE throws. */
  predicate Encodable(width: nat, height: nat, colour: Colour, codec: Codec) {
    width < WORD && height < WORD && |codec.deflate(Rows(colour, width, height, height))| < WORD
  }

  function Encode(width: nat, height: nat, colour: Colour, codec: Codec): Bytes
    requires Encodable(width, height, colour, codec)
  {
    SIGNATURE + WriteChunks(FileChunks(width, height, codec.deflate(Rows(colour, width, height, height))), codec.crc)
  }

  function Decode(bytes: Bytes, crc: Bytes -> Word): Option<seq<Chunk>> {
    if |bytes| < 8 || bytes[..8] != SIGNATURE then None else ReadChunks(bytes[8..], crc)
  }

  datatype Header = Header(width: Word, height: Word, bitDepth: Byte, colourType: Byte, compression: Byte, filter: Byte, interlace: Byte)

  function ParseHeader(data: Bytes): Header
    requires |data| == 13
  {
    Header(FromBigEndian(data[..4]), FromBigEndian(data[4..8]), data[8], data[9], data[10], data[11], data[12])
  }

  /** Section 4.1.1 for a truecolour image: non-zero dimensions of at most 2^31 - 1, an allowed depth,
      and the only defined compression, filter and plain interlace methods. */
  predicate ValidHeader(h: Header) {
    && 1 <= h.width < 0x8000_0000 && 1 <= h.height < 0x8000_0000
    && h.colourType == 2 && h.bitDepth in {8, 16} && h.compression == 0 && h.filter == 0 && h.interlace in {0, 1}
  }

  /** A chunk reader gets back exactly IHDR, IDAT and IEND; the header carries the dimensions, and
      it is valid by section 4.1.1 exactly when they are in range. */
  lemma FileReadsBack(width: nat, height: nat, colour: Colour, codec: Codec)
    requires Encodable(width, height, colour, codec)
    ensures var chunks := FileChunks(width, height, codec.deflate(Rows(colour, width, height, height)));
      && Decode(Encode(width, height, colour, codec), codec.crc) == Some(chunks)
      && |chunks[0].data| == 13 && ParseHeader(chunks[0].data) == Header(width, height, 8, 2, 0, 0, 0)
      && (ValidHeader(ParseHeader(chunks[0].data)) <==> 1 <= width < 0x8000_0000 && 1 <= height < 0x8000_0000)
  {
    var chunks := FileChunks(width, height, codec.deflate(Rows(colour, width, height, height)));
    var bytes := Encode(width, height, colour, codec);
    assert bytes[8..] == WriteChunks(chunks, codec.crc);
    ChunksReadBack(chunks, codec.crc);
    var data := HeaderData(width, height);
    assert data[..4] == BigEndian(width) && data[4..8] == BigEndian(height);
    WordsRoundTrip(width, data[..4]);
    WordsRoundTrip(height, data[4..8]);
  }

  /** With a compressor that `inflate` undoes, a reader of the file finds pixel (x, y) of the image. */
  lemma PixelsReadBack(width: nat, height: nat, colour: Colour, codec: Codec, inflate: Bytes -> Bytes, x: nat, y: nat)
    requires Encodable(width, height, colour, codec) && x < width && y < height
    requires forall raw: Bytes :: inflate(codec.deflate(raw)) == raw
    ensures Decode(Encode(width, height, colour, codec), codec.crc).Some?
    ensures var chunks := Decode(Encode(width, height, colour, codec), codec.crc).value;
      && |chunks| == 3
      && var raw := inflate(chunks[1].data);
         && |raw| == height * (1 + width * 3)
         && RowStart(width, y) + 1 + 3 * x + 3 <= |raw| && raw[RowStart(width, y)] == 0
         && raw[RowStart(width, y) + 1 + 3 * x..RowStart(width, y) + 1 + 3 * x + 3] == Pixel(colour, y, height)
  {
    FileReadsBack(width, height, colour, codec);
    RowAt(colour, width, height, height, y, x);
    RowStartIsProduct(width, y);
    RowStartIsProduct(width, height);
  }

  // ----- The buffers -----

  /** Buffer.writeUInt32BE; false is its RangeError. */
  method WriteUInt32BE(buffer: array<Byte>, value: int, offset: nat) returns (ok: bool)
    requires offset + 4 <= buffer.Length
    modifies buffer
    ensures ok <==> 0 <= value < WORD
    ensures ok ==> buffer[offset..offset + 4] == BigEndian(value)
    ensures forall k :: 0 <= k < buffer.Length && (!ok || k < offset || offset + 4 <= k) ==> buffer[k] == old(buffer[k])
  {
    if value < 0 || value >= WORD { return false; }
    buffer[offset] := value / 0x1000000;
    buffer[offset + 1] := value / 0x10000 % 256;
    buffer[offset + 2] := value / 0x100 % 256;
    buffer[offset + 3] := value % 256;
    return true;
  }

  /** chunk(). */
  method MakeChunk(kind: Bytes, data: Bytes, crc: Bytes -> Word) returns (r: Result<Bytes, PngError>)
    requires |kind| == 4
    ensures r == if |data| < WORD then Ok(WriteChunk(Chunk(kind, data), crc)) else Err(OutOfRange)
  {
    var lenBuf := new Byte[4](_ => 0);
    var ok := WriteUInt32BE(lenBuf, |data|, 0);
    if !ok { return Err(OutOfRange); }
    var crcBuf := new Byte[4](_ => 0);
    ok := WriteUInt32BE(crcBuf, crc(kind + data), 0);
    assert lenBuf[..] == lenBuf[0..4] && crcBuf[..] == crcBuf[0..4];
    return Ok(lenBuf[..] + kind + data + crcBuf[..]);
  }

  /** The indices 0 to n - 1, in order. */
  ghost predicate InOrder(written: seq<nat>, n: nat) {
    |written| == n && forall k :: 0 <= k < n ==> written[k] == k
  }

  lemma ThreeMore(written: seq<nat>, n: nat)
    requires InOrder(written, n)
    ensures InOrder(written + [n, n + 1, n + 2], n + 3)
  {
  }

  /** The three channels of one pixel. */
  method FillPixel(raw: array<Byte>, px: nat, y: nat, height: nat, colour: Colour, ghost before: seq<nat>) returns (ghost written: seq<nat>)
    requires y < height && px + 3 <= raw.Length
    modifies raw
    ensures raw[..px + 3] == old(raw[..px]) + Pixel(colour, y, height)
    ensures written == before + [px, px + 1, px + 2]
  {
    hide Shaded;
    raw[px] := Shaded(colour.r, y, height);
    raw[px + 1] := Shaded(colour.g, y, height);
    raw[px + 2] := Shaded(colour.b, y, height);
    written := before + [px, px + 1, px + 2];
  }

  /** The inner loop over one row's pixels. */
  method FillRow(raw: array<Byte>, rowStart: nat, width: nat, y: nat, height: nat, colour: Colour, ghost before: seq<nat>)
    returns (ghost written: seq<nat>)
    requires y < height && rowStart + 1 + width * 3 <= raw.Length && InOrder(before, rowStart)
    modifies raw
    ensures raw[..rowStart + 1 + width * 3] == old(raw[..rowStart]) + [0] + Pixels(colour, y, height, width)
    ensures InOrder(written, rowStart + 1 + width * 3)
  {
    hide Shaded;
    raw[rowStart] := 0;
    written := before + [rowStart];
    ghost var start := raw[..rowStart + 1];
    assert start == old(raw[..rowStart]) + [0] && InOrder(written, rowStart + 1);
    hide InOrder;
    for x := 0 to width
      invariant raw[..rowStart + 1 + x * 3] == start + Pixels(colour, y, height, x)
      invariant InOrder(written, rowStart + 1 + x * 3)
    {
      var px := rowStart + 1 + x * 3;
      ThreeMore(written, px);
      written := FillPixel(raw, px, y, height, colour, written);
    }
  }

  /** The scanline loops. `written` lists the indices in the order of the assignments: every byte of
      the buffer is written exactly once, from the first to the last. */
  method FillRows(width: nat, height: nat, colour: Colour) returns (raw: array<Byte>, ghost written: seq<nat>)
    ensures fresh(raw) && raw[..] == Rows(colour, width, height, height)
    ensures raw.Length == height * (1 + width * 3) && InOrder(written, raw.Length)
  {
    var rowBytes := 1 + width * 3;
    BufferFits(colour, width, height);
    raw := new Byte[rowBytes * height](_ => 0);
    written := [];
    hide RowStart, Rows, Pixels;
    for y := 0 to height
      invariant fresh(raw) && raw.Length == RowStart(width, height) && RowStart(width, y) <= raw.Length
      invariant raw[..RowStart(width, y)] == Rows(colour, width, height, y) && InOrder(written, RowStart(width, y))
    {
      RowFits(width, height, y);
      var rowStart := y * rowBytes;
      written := FillRow(raw, rowStart, width, y, height, colour, written);
      NextRow(colour, width, height, y);
    }
    assert raw[..] == raw[..RowStart(width, height)];
  }

  lemma BufferFits(colour: Colour, width: nat, height: nat)
    ensures (1 + width * 3) * height == height * (1 + width * 3) == RowStart(width, height)
    ensures RowStart(width, 0) == 0 && Rows(colour, width, height, 0) == []
  {
    RowStartIsProduct(width, height);
  }

  lemma RowFits(width: nat, height: nat, y: nat)
    requires y < height
    ensures y * (1 + width * 3) == RowStart(width, y)
    ensures RowStart(width, y) + 1 + width * 3 == RowStart(width, y + 1) <= RowStart(width, height)
  {
    RowStartIsProduct(width, y);
    RowsInOrder(width, y, height);
  }

  lemma NextRow(colour: Colour, width: nat, height: nat, y: nat)
    requires y < height
    ensures Rows(colour, width, height, y + 1) == Rows(colour, width, height, y) + [0] + Pixels(colour, y, height, width)
  {
  }

  /** The IHDR data buffer. */
  method MakeHeader(width: nat, height: nat) returns (r: Result<Bytes, PngError>)
    ensures r == if width < WORD && height < WORD then Ok(HeaderData(width, height)) else Err(OutOfRange)
  {
    var ihdrData := new Byte[13](_ => 0);
    var ok := WriteUInt32BE(ihdrData, width, 0);
    if !ok { return Err(OutOfRange); }
    ghost var first := ihdrData[0..4];
    ok := WriteUInt32BE(ihdrData, height, 4);
    if !ok { return Err(OutOfRange); }
    ghost var second := ihdrData[4..8];
    ihdrData[8] := 8;
    ihdrData[9] := 2;
    ihdrData[10] := 0;
    ihdrData[11] := 0;
    ihdrData[12] := 0;
    assert ihdrData[0..4] == BigEndian(width) by {
      forall k | 0 <= k < 4 ensures ihdrData[k] == BigEndian(width)[k] { assert ihdrData[k] == first[k]; }
    }
    assert ihdrData[4..8] == second;
    assert ihdrData[..] == ihdrData[0..4] + ihdrData[4..8] + [8, 2, 0, 0, 0];
    return Ok(ihdrData[..]);
  }

  method MakeSolidPng(width: nat, height: nat, colour: Colour, codec: Codec) returns (r: Result<Bytes, PngError>)
    ensures r == if Encodable(width, height, colour, codec) then Ok(Encode(width, height, colour, codec)) else Err(OutOfRange)
  {
    var ihdrData := MakeHeader(width, height);
    if ihdrData.Err? { return Err(OutOfRange); }
    var ihdr := MakeChunk(IHDR, ihdrData.value, codec.crc);
    var raw, written := FillRows(width, height, colour);
    var compressed := codec.deflate(raw[..]);
    var idat := MakeChunk(IDAT, compressed, codec.crc);
    if idat.Err? { return Err(OutOfRange); }
    var iend := MakeChunk(IEND, [], codec.crc);
    ThreeChunks(width, height, compressed, codec.crc);
    return Ok(SIGNATURE + (ihdr.value + (idat.value + iend.value)));
  }

  lemma ThreeChunks(width: Word, height: Word, compressed: Bytes, crc: Bytes -> Word)
    requires |compressed| < WORD
    ensures WriteChunks(FileChunks(width, height, compressed), crc)
      == WriteChunk(Chunk(IHDR, HeaderData(width, height)), crc) + (WriteChunk(Chunk(IDAT, compressed), crc) + WriteChunk(Chunk(IEND, []), crc))
  {
    var chunks := FileChunks(width, height, compressed);
    assert chunks[1..] == [chunks[1], chunks[2]] && [chunks[1], chunks[2]][1..] == [chunks[2]] && [chunks[2]][1..] == [];
    assert WriteChunks([chunks[2]], crc) == WriteChunk(chunks[2], crc);
    assert WriteChunks([chunks[1], chunks[2]], crc) == WriteChunk(chunks[1], crc) + WriteChunks([chunks[2]], crc);
  }
}
