/**
 * The encoding half of `captureScreenshot` (src/file_manager.cpp): the
 * display's RGB565 pixels written as an uncompressed 24-bit Windows BMP, a
 * 54-byte BITMAPFILEHEADER + BITMAPINFOHEADER followed by the rows bottom-up,
 * each pixel as blue, green, red bytes and each row zero-padded to a multiple
 * of four bytes.
 */
module Screenshot {
  import opened Config

  type Byte = bv8

  /** An RGB565 pixel as the sprite reports it: red in bits 15-11, green in 10-5, blue in 4-0. */
  type Pixel = bv16

  const HeaderSize: nat := 54

  /** Bytes per stored row: three per pixel, rounded up to a multiple of four. */
  function RowSize(width: nat): (r: nat)
    ensures r % 4 == 0 && 3 * width <= r < 3 * width + 4
    ensures forall m: int {:trigger m % 4} :: m % 4 == 0 && 3 * width <= m ==> r <= m
  {
    ((width * 3 + 3) / 4) * 4
  }

  /** The header and pixel data of a `width` x `height` image. */
  function FileSize(width: nat, height: nat): nat {
    HeaderSize + RowSize(width) * height
  }

  /**
   * A 32-bit field, least significant byte first, as the code's shifts and
   * masks lay it out.
   */
  function LE32(v: bv32): (r: seq<Byte>)
    ensures |r| == 4
  {
    [(v & 0xFF) as Byte, ((v >> 8) & 0xFF) as Byte, ((v >> 16) & 0xFF) as Byte, ((v >> 24) & 0xFF) as Byte]
  }

  /** The value a reader of the file recovers from a 4-byte little-endian field. */
  function ReadLE32(b: seq<Byte>): bv32
    requires |b| == 4
  {
    (b[0] as bv32) | ((b[1] as bv32) << 8) | ((b[2] as bv32) << 16) | ((b[3] as bv32) << 24)
  }

  /** The value a reader recovers from a 2-byte little-endian field. */
  function ReadLE16(b: seq<Byte>): bv16
    requires |b| == 2
  {
    (b[0] as bv16) | ((b[1] as bv16) << 8)
  }

  /** Reading a written field gives the value back. */
  lemma {:induction false} LE32RoundTrip(v: bv32)
    ensures ReadLE32(LE32(v)) == v
  {
  }

  /** An `int` header value as the 32 bits the code stores; larger values are truncated. */
  function Field(v: nat): bv32 {
    (v % 0x1_0000_0000) as bv32
  }

  /**
   * The header array as initialised, before its size fields are filled in:
   * "BM", the pixel-data offset 54, the info-header size 40, one plane and
   * 24 bits per pixel; every other byte is zero.
   */
  function TemplateByte(i: int): Byte {
    if i == 0 then 0x42
    else if i == 1 then 0x4D
    else if i == 10 then 0x36
    else if i == 14 then 0x28
    else if i == 26 then 0x01
    else if i == 28 then 0x18
    else 0x00
  }

  /** Byte `i` of a header whose size, width and height fields hold the given values. */
  function HeaderByte(size: bv32, width: bv32, height: bv32, i: int): Byte {
    if 2 <= i < 6 then LE32(size)[i - 2]
    else if 18 <= i < 22 then LE32(width)[i - 18]
    else if 22 <= i < 26 then LE32(height)[i - 22]
    else TemplateByte(i)
  }

  function Header(size: bv32, width: bv32, height: bv32): (r: seq<Byte>)
    ensures |r| == HeaderSize
  {
    seq(HeaderSize, i => HeaderByte(size, width, height, i))
  }

  /** The header of a `width` x `height` image. */
  function BmpHeader(width: nat, height: nat): (r: seq<Byte>)
    ensures |r| == HeaderSize
  {
    Header(Field(FileSize(width, height)), Field(width), Field(height))
  }

  /** A reader finds the "BM" signature, then the file size, width and height it was given. */
  lemma {:induction false} HeaderFields(size: bv32, width: bv32, height: bv32)
    ensures Header(size, width, height)[..2] == [0x42, 0x4D]
    ensures ReadLE32(Header(size, width, height)[2..6]) == size
    ensures ReadLE32(Header(size, width, height)[18..22]) == width
    ensures ReadLE32(Header(size, width, height)[22..26]) == height
  {
    var h := Header(size, width, height);
    assert h[2..6] == LE32(size) by {
      assert forall k :: 0 <= k < 4 ==> h[2..6][k] == HeaderByte(size, width, height, 2 + k);
    }
    assert h[18..22] == LE32(width) by {
      assert forall k :: 0 <= k < 4 ==> h[18..22][k] == HeaderByte(size, width, height, 18 + k);
    }
    assert h[22..26] == LE32(height) by {
      assert forall k :: 0 <= k < 4 ==> h[22..26][k] == HeaderByte(size, width, height, 22 + k);
    }
    LE32RoundTrip(size);
    LE32RoundTrip(width);
    LE32RoundTrip(height);
  }

  /**
   * The fixed fields: pixel data at offset 54, a 40-byte info header, one
   * plane, 24 bits per pixel, and zero for the reserved, compression
   * (uncompressed), image size, resolution and palette fields.
   */
  lemma {:induction false} HeaderConstants(size: bv32, width: bv32, height: bv32)
    ensures Header(size, width, height)[6..10] == [0, 0, 0, 0]
    ensures ReadLE32(Header(size, width, height)[10..14]) == 54
    ensures ReadLE32(Header(size, width, height)[14..18]) == 40
    ensures ReadLE16(Header(size, width, height)[26..28]) == 1
    ensures ReadLE16(Header(size, width, height)[28..30]) == 24
    ensures forall i :: 30 <= i < HeaderSize ==> Header(size, width, height)[i] == 0
  {
    var h := Header(size, width, height);
    assert h[10..14] == [0x36, 0, 0, 0];
    assert h[14..18] == [0x28, 0, 0, 0];
    assert h[26..28] == [1, 0];
    assert h[28..30] == [0x18, 0];
  }

  function Red5(p: Pixel): (r: Byte)
    ensures r < 32
  {
    ((p >> 11) & 0x1F) as Byte
  }

  function Green6(p: Pixel): (r: Byte)
    ensures r < 64
  {
    ((p >> 5) & 0x3F) as Byte
  }

  function Blue5(p: Pixel): (r: Byte)
    ensures r < 32
  {
    (p & 0x1F) as Byte
  }

  /** A pixel from its three channels. */
  function Pack565(r5: Byte, g6: Byte, b5: Byte): Pixel
    requires r5 < 32 && g6 < 64 && b5 < 32
  {
    ((r5 as Pixel) << 11) | ((g6 as Pixel) << 5) | (b5 as Pixel)
  }

  /** The three channel extractions split a pixel into exactly its fields. */
  lemma {:induction false} ChannelsRoundTrip(p: Pixel)
    ensures Pack565(Red5(p), Green6(p), Blue5(p)) == p
  {
  }

  /** A 5-bit channel widened to 8 bits by repeating its top bits below it. */
  function Expand5(c: Byte): (r: Byte)
    requires c < 32
    ensures r >> 3 == c
    ensures c == 0 ==> r == 0
    ensures c == 31 ==> r == 255
  {
    (c << 3) | (c >> 2)
  }

  /** A 6-bit channel widened to 8 bits by repeating its top bits below it. */
  function Expand6(g: Byte): (r: Byte)
    requires g < 64
    ensures r >> 2 == g
    ensures g == 0 ==> r == 0
    ensures g == 63 ==> r == 255
  {
    (g << 2) | (g >> 4)
  }

  /** Widening keeps the order of intensities. */
  lemma {:induction false} ExpandIsMonotone(c: Byte, d: Byte)
    requires c < d < 64
    ensures d < 32 ==> Expand5(c) < Expand5(d)
    ensures Expand6(c) < Expand6(d)
  {
  }

  /** A pixel's three stored bytes: blue, green, red. */
  function PixelBytes(p: Pixel): (r: seq<Byte>)
    ensures |r| == 3
  {
    [Expand5(Blue5(p)), Expand6(Green6(p)), Expand5(Red5(p))]
  }

  /** The pixel bytes of a row, left to right. */
  function PixelRun(row: seq<Pixel>): (r: seq<Byte>)
    ensures |r| == 3 * |row|
  {
    if row == [] then [] else PixelRun(row[..|row| - 1]) + PixelBytes(row[|row| - 1])
  }

  /** Pixel `x` of a row lands at bytes 3x, 3x+1 and 3x+2. */
  lemma {:induction false} PixelRunIndex(row: seq<Pixel>, x: nat, c: nat)
    requires x < |row| && c < 3
    ensures PixelRun(row)[3 * x + c] == PixelBytes(row[x])[c]
    decreases |row|
  {
    if x < |row| - 1 {
      PixelRunIndex(row[..|row| - 1], x, c);
    }
  }

  function Zeros(n: nat): (r: seq<Byte>)
    ensures |r| == n && forall i :: 0 <= i < n ==> r[i] == 0
  {
    seq(n, _ => 0)
  }

  /** One stored row: its pixel bytes, then zero padding up to `rowSize`. */
  function RowBytes(row: seq<Pixel>, rowSize: nat): seq<Byte>
    requires 3 * |row| <= rowSize
  {
    PixelRun(row) + Zeros(rowSize - 3 * |row|)
  }

  /** Every row of the image has the display's width. */
  predicate IsScreen(sprite: seq<seq<Pixel>>) {
    |sprite| == ScreenHeight && forall y :: 0 <= y < |sprite| ==> |sprite[y]| == ScreenWidth
  }

  /** The stored rows of `rows`, last row first. */
  function BottomUp(rows: seq<seq<Pixel>>, rowSize: nat): seq<Byte>
    requires forall y :: 0 <= y < |rows| ==> 3 * |rows[y]| <= rowSize
  {
    if rows == [] then [] else BottomUp(rows[1..], rowSize) + RowBytes(rows[0], rowSize)
  }

  /** Where stored row `k` starts in the pixel data: k rows of `rowSize` bytes. */
  function RowOffset(k: nat, rowSize: nat): nat {
    if k == 0 then 0 else RowOffset(k - 1, rowSize) + rowSize
  }

  lemma {:induction false} RowOffsetIsProduct(k: nat, rowSize: nat)
    ensures RowOffset(k, rowSize) == rowSize * k
  {
    if k > 0 {
      RowOffsetIsProduct(k - 1, rowSize);
    }
  }

  /** Later rows start after earlier rows end. */
  lemma {:induction false} RowOffsetBelow(k: nat, m: nat, rowSize: nat)
    requires k < m
    ensures RowOffset(k, rowSize) + rowSize <= RowOffset(m, rowSize)
  {
    if k < m - 1 {
      RowOffsetBelow(k, m - 1, rowSize);
    }
  }

  /** Every stored row takes exactly `rowSize` bytes. */
  lemma {:induction false} BottomUpLength(rows: seq<seq<Pixel>>, rowSize: nat)
    requires forall y :: 0 <= y < |rows| ==> 3 * |rows[y]| <= rowSize
    ensures |BottomUp(rows, rowSize)| == RowOffset(|rows|, rowSize)
    decreases |rows|
  {
    if rows != [] {
      BottomUpLength(rows[1..], rowSize);
    }
  }

  /** The `k`-th stored row is image row |rows|-1-k. */
  lemma {:induction false} BottomUpIndex(rows: seq<seq<Pixel>>, rowSize: nat, k: nat, j: nat)
    requires forall y :: 0 <= y < |rows| ==> 3 * |rows[y]| <= rowSize
    requires k < |rows| && j < rowSize
    ensures RowOffset(k, rowSize) + j < |BottomUp(rows, rowSize)|
    ensures BottomUp(rows, rowSize)[RowOffset(k, rowSize) + j] == RowBytes(rows[|rows| - 1 - k], rowSize)[j]
    decreases |rows|
  {
    var rest := BottomUp(rows[1..], rowSize);
    BottomUpLength(rows[1..], rowSize);
    if k < |rows| - 1 {
      RowOffsetBelow(k, |rows| - 1, rowSize);
      BottomUpIndex(rows[1..], rowSize, k, j);
      assert rows[1..][|rows| - 2 - k] == rows[|rows| - 1 - k];
    }
  }

  /** The whole file for an image of the display's size. */
  function Bmp(sprite: seq<seq<Pixel>>): seq<Byte>
    requires IsScreen(sprite)
  {
    BmpHeader(ScreenWidth, ScreenHeight) + BottomUp(sprite, RowSize(ScreenWidth))
  }

  /** The file is exactly as long as its header says. */
  lemma {:induction false} BmpLength(sprite: seq<seq<Pixel>>)
    requires IsScreen(sprite)
    ensures |Bmp(sprite)| == FileSize(ScreenWidth, ScreenHeight)
  {
    BottomUpLength(sprite, RowSize(ScreenWidth));
    RowOffsetIsProduct(ScreenHeight, RowSize(ScreenWidth));
  }

  /** Byte `t` of the pixel data is byte 54 + t of the file. */
  lemma {:induction false} BmpBody(sprite: seq<seq<Pixel>>, t: nat)
    requires IsScreen(sprite)
    requires t < |BottomUp(sprite, RowSize(ScreenWidth))|
    ensures HeaderSize + t < |Bmp(sprite)| && Bmp(sprite)[HeaderSize + t] == BottomUp(sprite, RowSize(ScreenWidth))[t]
  {
  }

  /** Pixel `x` of image row `y` within the pixel data. */
  lemma {:induction false} RowsPixel(sprite: seq<seq<Pixel>>, rowSize: nat, x: nat, y: nat, c: nat)
    requires forall r :: 0 <= r < |sprite| ==> 3 * |sprite[r]| <= rowSize
    requires y < |sprite| && x < |sprite[y]| && c < 3
    ensures var t := RowOffset(|sprite| - 1 - y, rowSize) + 3 * x + c;
      t < |BottomUp(sprite, rowSize)| && BottomUp(sprite, rowSize)[t] == PixelBytes(sprite[y][x])[c]
  {
    var k := |sprite| - 1 - y;
    var row := sprite[y];
    assert sprite[|sprite| - 1 - k] == row;
    BottomUpIndex(sprite, rowSize, k, 3 * x + c);
    PixelRunIndex(row, x, c);
    assert RowBytes(row, rowSize)[3 * x + c] == PixelRun(row)[3 * x + c];
  }

  /**
   * Pixel (x, y) of the display is stored as blue, green, red (c = 0, 1, 2)
   * at the start of stored row H-1-y plus 3x.
   */
  lemma {:induction false} BmpPixel(sprite: seq<seq<Pixel>>, x: nat, y: nat, c: nat)
    requires IsScreen(sprite)
    requires x < ScreenWidth && y < ScreenHeight && c < 3
    ensures var at := HeaderSize + RowOffset(ScreenHeight - 1 - y, RowSize(ScreenWidth)) + 3 * x + c;
      at < |Bmp(sprite)| && Bmp(sprite)[at] == PixelBytes(sprite[y][x])[c]
  {
    var rs := RowSize(ScreenWidth);
    RowsPixel(sprite, rs, x, y, c);
    BmpBody(sprite, RowOffset(ScreenHeight - 1 - y, rs) + 3 * x + c);
  }

  /** The bytes after a stored row's pixels, up to the row size, are zero. */
  lemma {:induction false} BmpPadding(sprite: seq<seq<Pixel>>, y: nat, j: nat)
    requires IsScreen(sprite)
    requires y < ScreenHeight && 3 * ScreenWidth <= j < RowSize(ScreenWidth)
    ensures var at := HeaderSize + RowOffset(ScreenHeight - 1 - y, RowSize(ScreenWidth)) + j;
      at < |Bmp(sprite)| && Bmp(sprite)[at] == 0
  {
    var rs := RowSize(ScreenWidth);
    var k := ScreenHeight - 1 - y;
    assert sprite[|sprite| - 1 - k] == sprite[y];
    BottomUpIndex(sprite, rs, k, j);
    BmpBody(sprite, RowOffset(k, rs) + j);
  }

  /** Fills `rowBuffer` with one stored row: the pixel loop, then the padding loop. */
  method FillRow(row: seq<Pixel>, rowBuffer: array<Byte>)
    requires 3 * |row| <= rowBuffer.Length
    modifies rowBuffer
    ensures rowBuffer[..] == RowBytes(row, rowBuffer.Length)
  {
    var bufIdx := 0;
    for x := 0 to |row|
      invariant bufIdx == 3 * x
      invariant rowBuffer[..bufIdx] == PixelRun(row[..x])
    {
      var pixel := row[x];
      ghost var before := rowBuffer[..bufIdx];
      rowBuffer[bufIdx] := Expand5(Blue5(pixel));
      rowBuffer[bufIdx + 1] := Expand6(Green6(pixel));
      rowBuffer[bufIdx + 2] := Expand5(Red5(pixel));
      assert rowBuffer[..bufIdx + 3] == before + PixelBytes(pixel);
      assert row[..x + 1][..x] == row[..x];
      bufIdx := bufIdx + 3;
    }
    assert row[..|row|] == row;
    while bufIdx < rowBuffer.Length
      invariant 3 * |row| <= bufIdx <= rowBuffer.Length
      invariant rowBuffer[..bufIdx] == PixelRun(row) + Zeros(bufIdx - 3 * |row|)
    {
      rowBuffer[bufIdx] := 0;
      assert rowBuffer[..bufIdx + 1] == rowBuffer[..bufIdx] + [0];
      bufIdx := bufIdx + 1;
    }
    assert rowBuffer[..] == rowBuffer[..bufIdx];
  }

  /** The header array: the template with the size, width and height fields filled in. */
  method WriteHeader(width: nat, height: nat) returns (header: seq<Byte>)
    ensures header == BmpHeader(width, height)
  {
    var fileSize := FileSize(width, height);
    header := FillHeader(Field(fileSize), Field(width), Field(height));
  }

  method FillHeader(size: bv32, width: bv32, height: bv32) returns (header: seq<Byte>)
    ensures header == Header(size, width, height)
  {
    var bmpHeader := new Byte[HeaderSize](TemplateByte);
    PutLE32(bmpHeader, 18, width);
    PutLE32(bmpHeader, 22, height);
    PutLE32(bmpHeader, 2, size);
    header := bmpHeader[..];
    assert forall i :: 0 <= i < HeaderSize ==> header[i] == HeaderByte(size, width, height, i);
  }

  /** Stores a 32-bit field at `at`, least significant byte first, leaving the other bytes alone. */
  method PutLE32(a: array<Byte>, at: nat, v: bv32)
    requires at + 4 <= a.Length
    modifies a
    ensures forall i :: 0 <= i < a.Length ==> a[i] == if at <= i < at + 4 then LE32(v)[i - at] else old(a[i])
  {
    var b := LE32(v);
    a[at], a[at + 1], a[at + 2], a[at + 3] := b[0], b[1], b[2], b[3];
  }

  /**
   * `captureScreenshot` from the header onwards: the bytes written to the
   * file, in order. The rows go out bottom-up through one row buffer.
   */
  method EncodeScreenshot(sprite: seq<seq<Pixel>>) returns (file: seq<Byte>)
    requires IsScreen(sprite)
    ensures file == Bmp(sprite)
  {
    file := WriteHeader(ScreenWidth, ScreenHeight);
    var rowSize := RowSize(ScreenWidth);
    var rowBuffer := new Byte[rowSize];
    var y := ScreenHeight;
    while y > 0
      invariant 0 <= y <= ScreenHeight
      invariant file == BmpHeader(ScreenWidth, ScreenHeight) + BottomUp(sprite[y..], rowSize)
    {
      y := y - 1;
      FillRow(sprite[y], rowBuffer);
      assert sprite[y..][1..] == sprite[y + 1..];
      file := file + rowBuffer[..];
    }
  }
}
