/**
 A one-colour PNG built by hand: its scanlines, and the chunks of section 3.2 of RFC 2083 around them. What deflating
 the scanlines gives is taken as it comes.
 */
module Png {
  import opened Common
  import opened Crc32

  const LIMIT: nat := 0x1_0000_0000

  /** A number put in a buffer keeps its lowest eight bits. */
  function ToByte(n: int): (byte: bv8) { (n % 256) as bv8 }

  function OfByte(b: bv8): (n: nat)
    ensures n < 256
  {
    b as nat
  }

  lemma ByteKept(n: nat)
    requires n < 256
    ensures OfByte(ToByte(n)) == n
  {
  }

  // -- Numbers, highest byte first ------------------------------------------------------------------------------------------------------

  function BigEndian(n: nat): (s: Bytes)
    requires n < LIMIT
    ensures |s| == 4
  {
    [ToByte(n / 0x1000000), ToByte(n / 0x10000 % 256), ToByte(n / 0x100 % 256), ToByte(n % 256)]
  }

  function Number(s: Bytes): (n: nat)
    requires |s| == 4
    ensures n < LIMIT
  {
    OfByte(s[0]) * 0x1000000 + OfByte(s[1]) * 0x10000 + OfByte(s[2]) * 0x100 + OfByte(s[3])
  }

  lemma Digits(n: nat, a: nat, b: nat, c: nat, d: nat)
    requires n < LIMIT && a == n / 0x1000000 && b == n / 0x10000 % 256 && c == n / 0x100 % 256 && d == n % 256
    ensures a < 256 && a * 0x1000000 + b * 0x10000 + c * 0x100 + d == n
  {
    var m := n / 0x100;
    var l := m / 0x100;
    assert n == m * 0x100 + d && m == l * 0x100 + c && l == l / 0x100 * 0x100 + l % 0x100;
    assert n / 0x10000 == l && n / 0x1000000 == l / 0x100;
  }

  lemma NumberKept(n: nat)
    requires n < LIMIT
    ensures Number(BigEndian(n)) == n
  {
    Digits(n, n / 0x1000000, n / 0x10000 % 256, n / 0x100 % 256, n % 256);
    ByteKept(n / 0x1000000);
    ByteKept(n / 0x10000 % 256);
    ByteKept(n / 0x100 % 256);
    ByteKept(n % 256);
    hide ToByte, OfByte;
  }

  /** A check, highest byte first. */
  function CheckBytes(c: bv32): (s: Bytes)
    ensures |s| == 4
  {
    var low := LowBytes(c, 4);
    [low[3], low[2], low[1], low[0]]
  }

  // -- Chunks ---------------------------------------------------------------------------------------------------------------------------------

  /** Its length, its type and data, and the check of those two; data too long to count is refused. */
  function Chunk(kind: Bytes, data: Bytes): (r: Option<Bytes>)
    requires |kind| == 4
    ensures r.Some? <==> |data| < LIMIT
    ensures r.Some? ==> |r.value| == 12 + |data|
  {
    if |data| >= LIMIT then None else Some(BigEndian(|data|) + (kind + data) + CheckBytes(Crc(kind + data)))
  }

  datatype Parsed = Parsed(kind: Bytes, data: Bytes, rest: Bytes)

  /** Reads one chunk: as long as it says, its check right. */
  function ParseChunk(s: Bytes): (r: Option<Parsed>) {
    if |s| < 12 then None
    else
      var n := Number(s[..4]);
      if |s| < 12 + n || s[8 + n..12 + n] != CheckBytes(Crc(s[4..8 + n])) then None
      else Some(Parsed(s[4..8], s[8..8 + n], s[12 + n..]))
  }

  /** What a chunk is, part by part. */
  lemma PartsOf(length: Bytes, kind: Bytes, data: Bytes, check: Bytes, rest: Bytes)
    requires |length| == |kind| == |check| == 4
    ensures var s, n := length + (kind + data) + check + rest, |data|;
            && |s| >= 12 + n && s[..4] == length && s[4..8] == kind && s[8..8 + n] == data && s[4..8 + n] == kind + data
            && s[8 + n..12 + n] == check && s[12 + n..] == rest
  {
  }

  lemma ChunkIsRead(kind: Bytes, data: Bytes, rest: Bytes)
    requires |kind| == 4 && |data| < LIMIT
    ensures ParseChunk(Chunk(kind, data).value + rest) == Some(Parsed(kind, data, rest))
  {
    hide Crc, CheckBytes, BigEndian, Number;
    NumberKept(|data|);
    PartsOf(BigEndian(|data|), kind, data, CheckBytes(Crc(kind + data)), rest);
  }

  /** Whatever is read as a chunk is one: nothing else parses. */
  lemma OnlyChunksAreRead(s: Bytes)
    requires ParseChunk(s).Some?
    ensures var p := ParseChunk(s).value;
            |p.kind| == 4 && |p.data| < LIMIT && Number(s[..4]) == |p.data| && s == s[..4] + (p.kind + p.data) + CheckBytes(Crc(p.kind + p.data)) + p.rest
  {
    hide Crc, CheckBytes, Number;
    var n := Number(s[..4]);
    assert s[4..8] + s[8..8 + n] == s[4..8 + n];
    assert s == s[..4] + s[4..8 + n] + s[8 + n..12 + n] + s[12 + n..];
  }

  /** A chunk damaged within four bytes in a row of its type and data is not read. */
  lemma DamageIsNotRead(before: Bytes, x: Bytes, y: Bytes, after: Bytes, rest: Bytes)
    requires |x| == |y| == 4 && x != y && 4 <= |before + x + after| < LIMIT
    ensures ParseChunk(BigEndian(|before + x + after| - 4) + (before + y + after) + CheckBytes(Crc(before + x + after)) + rest) == None
  {
    var good, bad := before + x + after, before + y + after;
    var n := |good| - 4;
    BurstsAreSeen(before, x, y, after);
    ChecksDiffer(Crc(good), Crc(bad));
    NumberKept(n);
    hide Crc, CheckBytes, BigEndian, Number;
    assert bad == bad[..4] + bad[4..];
    PartsOf(BigEndian(n), bad[..4], bad[4..], CheckBytes(Crc(good)), rest);
  }

  lemma ChecksDiffer(c: bv32, d: bv32)
    requires c != d
    ensures CheckBytes(c) != CheckBytes(d)
  {
    hide LowBytes;
    if CheckBytes(c) == CheckBytes(d) {
      var a, b := LowBytes(c, 4), LowBytes(d, 4);
      assert CheckBytes(c)[0] == a[3] && CheckBytes(c)[1] == a[2] && CheckBytes(c)[2] == a[1] && CheckBytes(c)[3] == a[0];
      assert CheckBytes(d)[0] == b[3] && CheckBytes(d)[1] == b[2] && CheckBytes(d)[2] == b[1] && CheckBytes(d)[3] == b[0];
      assert a == b;
      LowBytesTellAll(c, d);
    }
  }

  // -- The picture ---------------------------------------------------------------------------------------------------------------------------

  const SIGNATURE: Bytes := [0x89, 0x50, 0x4e, 0x47, 0x0d, 0x0a, 0x1a, 0x0a]
  const IHDR: Bytes := [0x49, 0x48, 0x44, 0x52]
  const IDAT: Bytes := [0x49, 0x44, 0x41, 0x54]
  const IEND: Bytes := [0x49, 0x45, 0x4e, 0x44]

  /** Width, height, eight bits a sample, true colour; compression, filter and interlace as ever. */
  function Header(size: nat): (s: Bytes)
    requires size < LIMIT
    ensures |s| == 13
  {
    BigEndian(size) + BigEndian(size) + [8, 2, 0, 0, 0]
  }

  /** The file, unless a length is too long to be written. */
  function Square(size: nat, deflated: Bytes): (file: Option<Bytes>) {
    if size >= LIMIT || |deflated| >= LIMIT then None
    else Some(SIGNATURE + Chunk(IHDR, Header(size)).value + Chunk(IDAT, deflated).value + Chunk(IEND, []).value)
  }

  /** All the chunks of a file, one after another. */
  function ParseAll(s: Bytes): (chunks: Option<seq<(Bytes, Bytes)>>)
    decreases |s|
  {
    if s == [] then Some([])
    else
      var first := ParseChunk(s);
      if first.None? || |first.value.rest| >= |s| then None
      else
        var others := ParseAll(first.value.rest);
        if others.None? then None else Some([(first.value.kind, first.value.data)] + others.value)
  }

  lemma OneMoreChunk(kind: Bytes, data: Bytes, rest: Bytes)
    requires |kind| == 4 && |data| < LIMIT && ParseAll(rest).Some?
    ensures ParseAll(Chunk(kind, data).value + rest) == Some([(kind, data)] + ParseAll(rest).value)
  {
    ChunkIsRead(kind, data, rest);
    hide ParseChunk, Chunk;
    assert Chunk(kind, data).value + rest != [];
  }

  /** A square is read back as it was written: the signature, then three chunks, to the last byte. */
  lemma SquareIsRead(size: nat, deflated: Bytes)
    requires Square(size, deflated).Some?
    ensures var s := Square(size, deflated).value;
            |s| >= 8 && s[..8] == SIGNATURE && ParseAll(s[8..]) == Some([(IHDR, Header(size)), (IDAT, deflated), (IEND, [])])
    ensures Number(Header(size)[..4]) == size && Number(Header(size)[4..8]) == size && Header(size)[8..] == [8, 2, 0, 0, 0]
  {
    hide Chunk, ParseChunk, BigEndian, Number;
    var a, b, c := Chunk(IHDR, Header(size)).value, Chunk(IDAT, deflated).value, Chunk(IEND, []).value;
    var none: seq<(Bytes, Bytes)> := [];
    OneMoreChunk(IEND, [], []);
    assert c + [] == c && [(IEND, [])] + none == [(IEND, [])];
    OneMoreChunk(IDAT, deflated, c);
    assert [(IDAT, deflated)] + [(IEND, [])] == [(IDAT, deflated), (IEND, [])];
    OneMoreChunk(IHDR, Header(size), b + c);
    assert [(IHDR, Header(size))] + [(IDAT, deflated), (IEND, [])] == [(IHDR, Header(size)), (IDAT, deflated), (IEND, [])];
    assert (SIGNATURE + a + b + c)[8..] == a + (b + c);
    NumberKept(size);
    assert Header(size)[..4] == BigEndian(size) && Header(size)[4..8] == BigEndian(size);
  }

  // -- Its scanlines ------------------------------------------------------------------------------------------------------------------------------

  function Pixels(n: nat, pixel: Bytes): (s: Bytes)
    requires |pixel| == 3
    ensures |s| == 3 * n
  {
    if n == 0 then [] else Pixels(n - 1, pixel) + pixel
  }

  /** A scanline: no filter, then its pixels. */
  function Line(size: nat, pixel: Bytes): (s: Bytes)
    requires |pixel| == 3
    ensures |s| == 3 * size + 1
  {
    [0] + Pixels(size, pixel)
  }

  function Lines(n: nat, size: nat, pixel: Bytes): (s: Bytes)
    requires |pixel| == 3
    ensures |s| == n * (3 * size + 1)
  {
    if n == 0 then [] else Lines(n - 1, size, pixel) + Line(size, pixel)
  }

  method WritePixel(raw: array<bv8>, offset: nat, r: bv8, g: bv8, b: bv8)
    requires offset + 3 <= raw.Length
    modifies raw
    ensures raw[..] == old(raw[..offset]) + [r, g, b] + old(raw[offset + 3..])
  {
    raw[offset] := r;
    raw[offset + 1] := g;
    raw[offset + 2] := b;
  }

  lemma PixelPlaced(was: Bytes, s: Bytes, t: Bytes, start: nat, line: Bytes, pixel: Bytes)
    requires |pixel| == 3 && start + |line| + 3 <= |was| && s == was[..start] + line + was[start + |line|..]
    requires t == s[..start + |line|] + pixel + s[start + |line| + 3..]
    ensures t == was[..start] + (line + pixel) + was[start + |line| + 3..]
  {
  }

  /** One scanline written in its place, each of its bytes once, in order: as many are written as come before the next. */
  method WriteLine(raw: array<bv8>, start: nat, size: nat, r: bv8, g: bv8, b: bv8, ghost written: nat) returns (ghost wrote: nat)
    requires start + 3 * size + 1 <= raw.Length && written == start
    modifies raw
    ensures raw[..] == old(raw[..start]) + Line(size, [r, g, b]) + old(raw[start + 3 * size + 1..])
    ensures wrote == start + 3 * size + 1
  {
    ghost var was := raw[..];
    ghost var pixel := [r, g, b];
    raw[start] := 0;
    wrote := written + 1;
    assert raw[..] == was[..start] + ([0] + Pixels(0, pixel)) + was[start + 1..];
    for x := 0 to size
      invariant wrote == start + 1 + 3 * x
      invariant raw[..] == was[..start] + ([0] + Pixels(x, pixel)) + was[start + 1 + 3 * x..]
    {
      var offset := start + 1 + x * 3;
      assert wrote == offset;
      ghost var line := [0] + Pixels(x, pixel);
      ghost var s := raw[..];
      WritePixel(raw, offset, r, g, b);
      wrote := wrote + 3;
      PixelPlaced(was, s, raw[..], start, line, pixel);
      assert line + pixel == [0] + Pixels(x + 1, pixel);
      hide Pixels;
    }
  }

  /** The raw picture: every byte of it written, none outside it. */
  method Raw(size: nat, red: int, green: int, blue: int) returns (raw: array<bv8>)
    ensures raw[..] == Lines(size, size, [ToByte(red), ToByte(green), ToByte(blue)])
  {
    var stride := size * 3 + 1;
    var r, g, b := ToByte(red), ToByte(green), ToByte(blue);
    raw := new bv8[stride * size](_ => 0);
    ghost var written := 0;
    for y := 0 to size
      invariant written == y * stride <= raw.Length
      invariant raw[..y * stride] == Lines(y, size, [r, g, b])
    {
      var start := y * stride;
      Fits(y, size, stride);
      ghost var before := raw[..];
      written := WriteLine(raw, start, size, r, g, b, written);
      assert raw[..start + stride] == before[..start] + Line(size, [r, g, b]);
      assert start + stride == (y + 1) * stride;
    }
    assert raw[..size * stride] == raw[..];
  }

  lemma {:induction false} Grows(a: nat, b: nat, stride: nat)
    requires a <= b
    ensures a * stride <= b * stride
    decreases b
  {
    if a < b {
      Grows(a, b - 1, stride);
      assert b * stride == (b - 1) * stride + stride;
    }
  }

  lemma Fits(y: nat, size: nat, stride: nat)
    requires y < size
    ensures y * stride + stride <= stride * size
  {
    Grows(y + 1, size, stride);
    assert (y + 1) * stride == y * stride + stride;
  }

  /** Byte by byte: each line starts with no filter, each pixel is the colour. */
  lemma {:induction false} LinesAre(n: nat, size: nat, pixel: Bytes, y: nat, x: nat, k: nat)
    requires |pixel| == 3 && y < n && x < size && k < 3
    ensures 0 <= y * (3 * size + 1) && y * (3 * size + 1) + 1 + 3 * x + k < n * (3 * size + 1)
    ensures Lines(n, size, pixel)[y * (3 * size + 1)] == 0
    ensures Lines(n, size, pixel)[y * (3 * size + 1) + 1 + 3 * x + k] == pixel[k]
    decreases n
  {
    var stride := 3 * size + 1;
    if y == n - 1 {
      PixelsAre(size, pixel, x, k);
      assert y * stride + stride == n * stride;
    } else {
      LinesAre(n - 1, size, pixel, y, x, k);
      assert (n - 1) * stride + stride == n * stride;
    }
  }

  lemma {:induction false} PixelsAre(n: nat, pixel: Bytes, x: nat, k: nat)
    requires |pixel| == 3 && x < n && k < 3
    ensures Pixels(n, pixel)[3 * x + k] == pixel[k]
    decreases n
  {
    if x < n - 1 { PixelsAre(n - 1, pixel, x, k); }
  }

  // -- The file, as it is put together -----------------------------------------------------------------------------------------------------------

  method WriteChunk(kind: Bytes, data: Bytes) returns (chunk: Option<Bytes>)
    requires |kind| == 4
    ensures chunk == Chunk(kind, data)
  {
    if |data| >= LIMIT { return None; }
    var crc := Compute(kind + data);
    return Some(BigEndian(|data|) + (kind + data) + CheckBytes(crc));
  }

  /** `deflate` is the library's; the rest is written here. */
  method PngSquare(size: nat, red: int, green: int, blue: int, deflate: Bytes -> Bytes) returns (file: Option<Bytes>)
    ensures file == Square(size, deflate(Lines(size, size, [ToByte(red), ToByte(green), ToByte(blue)])))
  {
    hide Chunk, Lines;
    var raw := Raw(size, red, green, blue);
    if size >= LIMIT { return None; }
    var header := WriteChunk(IHDR, Header(size));
    var body := WriteChunk(IDAT, deflate(raw[..]));
    var end := WriteChunk(IEND, []);
    if body.None? { return None; }
    return Some(SIGNATURE + header.value + body.value + end.value);
  }
}
