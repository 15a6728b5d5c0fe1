/**
 * Shapes3D's MD2 loader: reads a Quake II MD2 model file into an
 * `Md2Data` and keeps every model it has read, by file name.
 *
 * The file is a little-endian `ByteBuffer`. `Buffer` models it: the bytes
 * and the position, which Java keeps between 0 and the limit (here the
 * length of the file). A read past the limit throws, and so does moving the
 * position outside [0, limit]. The loader does not catch either, so a
 * malformed file makes the whole load throw: the model's steps return
 * `None` (or `ok == false`) exactly when the Java would throw, and say what
 * they read otherwise.
 *
 * The layout: a 68-byte header (a 4-byte identifier and sixteen 32-bit
 * integers), then at `offsetFrames + frameSize * j` frame j: three floats of
 * scale, three of translation, a 16-byte name and then four bytes per point
 * (x, y, z and a normal index that is skipped). The OpenGL commands start at
 * `offsetGLcmds` and run to `offsetEnd`: each is a 32-bit count whose sign
 * says strip or fan, followed by that many 12-byte vertices.
 *
 * Decoding a 32-bit float is the parameter `asFloat`, from the 32 bits (as
 * an unsigned number) to the value.
 */
module Md2 {

  import opened Vectors
  import opened Md2Models

  /** A Java byte. */
  newtype SByte = b: int | -128 <= b < 128

  /** The Java byte with the given eight bits. */
  function ByteOf(u: int): SByte
    requires 0 <= u < 256
  {
    if u < 128 then u as SByte else (u - 256) as SByte
  }

  /** `getUByte`: the byte read as a number from 0 to 255, the same bits. */
  function UByte(b: SByte): (r: int)
    ensures 0 <= r < 256
  {
    if b < 0 then b as int + 256 else b as int
  }

  /** Reading a byte as unsigned keeps its bits... */
  lemma ByteOfUByte(b: SByte)
    ensures ByteOf(UByte(b)) == b
  {
  }

  /** ...and so does writing such a number back as a byte. */
  lemma UByteOfByte(u: int)
    requires 0 <= u < 256
    ensures UByte(ByteOf(u)) == u
  {
  }

  /** `(char) buf.get()`: Java widens the byte with its sign, so a negative
    * byte becomes a char from 0xFF80 up. */
  function CharOf(b: SByte): char
  {
    if b < 0 then (b as int + 0x1_0000) as char else b as int as char
  }

  /** The char keeps the byte's bits in its low eight, and is ASCII exactly
    * when the byte is not negative. */
  lemma CharKeepsByte(b: SByte)
    ensures (CharOf(b) as int) % 256 == UByte(b)
    ensures CharOf(b) as int < 128 <==> 0 <= b
  {
  }

  /** The 32 bits at p, least significant byte first, as an unsigned number. */
  function U32(data: seq<SByte>, p: int): (r: int)
    requires 0 <= p && p + 4 <= |data|
    ensures 0 <= r < 0x1_0000_0000
  {
    UByte(data[p]) + 0x100 * (UByte(data[p + 1]) + 0x100 * (UByte(data[p + 2]) + 0x100 * UByte(data[p + 3])))
  }

  /** `getInt`: the 32 bits at p as a two's complement number. */
  function I32(data: seq<SByte>, p: int): (r: int)
    requires 0 <= p && p + 4 <= |data|
    ensures -0x8000_0000 <= r < 0x8000_0000
  {
    var u := U32(data, p);
    if u < 0x8000_0000 then u else u - 0x1_0000_0000
  }

  /** The four bytes a 32-bit integer is written as. */
  function IntBytes(v: int): (r: seq<SByte>)
    requires -0x8000_0000 <= v < 0x8000_0000
    ensures |r| == 4
  {
    var u := if v < 0 then v + 0x1_0000_0000 else v;
    var q1 := u / 0x100;
    var q2 := q1 / 0x100;
    [ByteOf(u % 0x100), ByteOf(q1 % 0x100), ByteOf(q2 % 0x100), ByteOf(q2 / 0x100)]
  }

  /** Reading back a written integer gives it back. */
  lemma {:induction false} IntRoundTrip(v: int)
    requires -0x8000_0000 <= v < 0x8000_0000
    ensures I32(IntBytes(v), 0) == v
  {
    var u := if v < 0 then v + 0x1_0000_0000 else v;
    var q1 := u / 0x100;
    var q2 := q1 / 0x100;
    var bs := IntBytes(v);
    UByteOfByte(u % 0x100);
    UByteOfByte(q1 % 0x100);
    UByteOfByte(q2 % 0x100);
    UByteOfByte(q2 / 0x100);
    assert U32(bs, 0) == u;
  }

  /** `getChar`: the 16 bits at p, least significant byte first. */
  function U16(data: seq<SByte>, p: int): (r: int)
    requires 0 <= p && p + 2 <= |data|
    ensures 0 <= r < 0x1_0000
  {
    UByte(data[p]) + 0x100 * UByte(data[p + 1])
  }

  /** The two bytes a 16-bit value (signed or not) is written as. */
  function ShortBytes(v: int): (r: seq<SByte>)
    requires -0x8000 <= v < 0x1_0000
    ensures |r| == 2
  {
    var u := if v < 0 then v + 0x1_0000 else v;
    [ByteOf(u % 0x100), ByteOf(u / 0x100)]
  }

  /** `getShort` as written: a char above 32767 becomes 65536 - ch. */
  function ShortAsWritten(data: seq<SByte>, p: int): (r: int)
    requires 0 <= p && p + 2 <= |data|
    ensures 0 <= r <= 0x8000
  {
    var ch := U16(data, p);
    if ch > 32767 then 0x1_0000 - ch else ch
  }

  /** `getUShort` as written: a char above 32767 becomes -(65536 - ch). */
  function UShortAsWritten(data: seq<SByte>, p: int): (r: int)
    requires 0 <= p && p + 2 <= |data|
    ensures -0x8000 <= r < 0x8000
  {
    var ch := U16(data, p);
    if ch > 32767 then -(0x1_0000 - ch) else ch
  }

  /** `getShort` as its comment describes it: two's complement. */
  function Short(data: seq<SByte>, p: int): (r: int)
    requires 0 <= p && p + 2 <= |data|
    ensures -0x8000 <= r < 0x8000
  {
    var ch := U16(data, p);
    if ch > 32767 then ch - 0x1_0000 else ch
  }

  /** `getUShort` as its comment describes it: unsigned. */
  function UShort(data: seq<SByte>, p: int): (r: int)
    requires 0 <= p && p + 2 <= |data|
    ensures 0 <= r < 0x1_0000
  {
    U16(data, p)
  }

  /** A signed 16-bit value reads back through `Short`. */
  lemma {:induction false} ShortRoundTrip(v: int)
    requires -0x8000 <= v < 0x8000
    ensures Short(ShortBytes(v), 0) == v
  {
    var u := if v < 0 then v + 0x1_0000 else v;
    UByteOfByte(u % 0x100);
    UByteOfByte(u / 0x100);
  }

  /** An unsigned 16-bit value reads back through `UShort`. */
  lemma {:induction false} UShortRoundTrip(v: int)
    requires 0 <= v < 0x1_0000
    ensures UShort(ShortBytes(v), 0) == v
  {
    UByteOfByte(v % 0x100);
    UByteOfByte(v / 0x100);
  }

  /** As written, `getShort` reads the bytes of -1 as 1. */
  lemma {:induction false} ShortAsWrittenLosesSign()
    ensures ShortAsWritten(ShortBytes(-1), 0) == 1
    ensures Short(ShortBytes(-1), 0) == -1
  {
    ShortRoundTrip(-1);
  }

  /** As written, `getUShort` reads the bytes of 65535 as -1. */
  lemma {:induction false} UShortAsWrittenGoesNegative()
    ensures UShortAsWritten(ShortBytes(0xFFFF), 0) == -1
    ensures UShort(ShortBytes(0xFFFF), 0) == 0xFFFF
  {
    UShortRoundTrip(0xFFFF);
  }

  /** As written, `getUShort` computes what `getShort`'s comment asks for,
    * and `getShort` its magnitude. */
  lemma AsWrittenSwapped(data: seq<SByte>, p: int)
    requires 0 <= p && p + 2 <= |data|
    ensures UShortAsWritten(data, p) == Short(data, p)
    ensures ShortAsWritten(data, p) == if Short(data, p) < 0 then -Short(data, p) else Short(data, p)
  {
  }

  /** The file as a `ByteBuffer` with a position. */
  class Buffer {
    const data: seq<SByte>
    var position: int

    ghost predicate Valid()
      reads this
    {
      0 <= position <= |data|
    }

    /** `ByteBuffer.wrap` followed by `rewind`. */
    constructor (data: seq<SByte>)
      ensures this.data == data && position == 0 && Valid()
    {
      this.data := data;
      position := 0;
    }

    /** `get()`: the byte at the position. */
    method Get() returns (b: SByte)
      requires Valid() && position < |data|
      modifies this`position
      ensures Valid() && b == data[old(position)] && position == old(position) + 1
    {
      b := data[position];
      position := position + 1;
    }

    /** `getInt()`. */
    method GetInt() returns (v: int)
      requires Valid() && position + 4 <= |data|
      modifies this`position
      ensures Valid() && v == I32(data, old(position)) && position == old(position) + 4
    {
      v := I32(data, position);
      position := position + 4;
    }

    /** `getFloat()`. */
    method GetFloat(asFloat: int -> real) returns (f: real)
      requires Valid() && position + 4 <= |data|
      modifies this`position
      ensures Valid() && f == asFloat(U32(data, old(position))) && position == old(position) + 4
    {
      f := asFloat(U32(data, position));
      position := position + 4;
    }

    /** `position(p)`. */
    method SetPosition(p: int)
      requires 0 <= p <= |data|
      modifies this`position
      ensures Valid() && position == p
    {
      position := p;
    }
  }

  /** The characters before the first stop character, or all of them. */
  function TakeUntil(cs: seq<char>, stop: char): seq<char>
  {
    if cs == [] || cs[0] == stop then [] else [cs[0]] + TakeUntil(cs[1..], stop)
  }

  /** What `TakeUntil` gives is a prefix of cs without the stop character,
    * ending at a stop character or at the end. */
  lemma {:induction false} TakeUntilStops(cs: seq<char>, stop: char)
    ensures var r := TakeUntil(cs, stop);
            |r| <= |cs| && r == cs[..|r|] && stop !in r && (|r| < |cs| ==> cs[|r|] == stop)
    decreases |cs|
  {
    if cs != [] && cs[0] != stop {
      TakeUntilStops(cs[1..], stop);
      var t := TakeUntil(cs[1..], stop);
      assert TakeUntil(cs, stop) == [cs[0]] + t;
      assert cs == [cs[0]] + cs[1..];
    }
  }

  /** Any prefix of cs that holds no stop character and ends at a stop
    * character or at the end is the one `TakeUntil` gives. */
  lemma {:induction false} TakeUntilUnique(cs: seq<char>, stop: char, r: seq<char>)
    requires |r| <= |cs| && r == cs[..|r|] && stop !in r
    requires |r| < |cs| ==> cs[|r|] == stop
    ensures TakeUntil(cs, stop) == r
    decreases |cs|
  {
    if cs != [] && cs[0] != stop {
      assert r != [] && r[0] == cs[0];
      TakeUntilUnique(cs[1..], stop, r[1..]);
    }
  }

  /** The bytes as Java chars. */
  function Chars(bs: seq<SByte>): (r: seq<char>)
    ensures |r| == |bs|
  {
    seq(|bs|, i requires 0 <= i < |bs| => CharOf(bs[i]))
  }

  /** `readString(n, stop)` at p. */
  function TextAt(data: seq<SByte>, p: int, n: int, stop: char): string
    requires 0 <= p && 0 <= n && p + n <= |data|
  {
    TakeUntil(Chars(data[p..p + n]), stop)
  }

  /** `readString(nbytes, stopAt)`: the characters before the first stopAt
    * among the next nbytes bytes, the position moved on by nbytes whatever
    * the length of the string. */
  method ReadString(buf: Buffer, n: int, stop: char) returns (s: Option<string>)
    requires buf.Valid() && 0 <= n
    modifies buf`position
    ensures buf.Valid()
    ensures s.Some? <==> old(buf.position) + n <= |buf.data|
    ensures s.Some? ==> s.value == TextAt(buf.data, old(buf.position), n, stop) && buf.position == old(buf.position) + n
  {
    var start := buf.position;
    if start + n > |buf.data| {
      return None;
    }
    var nextPos := start + n;
    ghost var cs := Chars(buf.data[start..nextPos]);
    var r := "";
    var i := 0;
    var stopped := false;
    while i < n && !stopped
      invariant 0 <= i <= n && buf.Valid() && buf.position == start + i
      invariant |r| == i - (if stopped then 1 else 0) && r == cs[..|r|] && stop !in r
      invariant stopped ==> cs[|r|] == stop
    {
      var b := buf.Get();
      var ch := CharOf(b);
      assert ch == cs[i];
      if ch != stop {
        r := r + [ch];
      } else {
        stopped := true;
      }
      i := i + 1;
    }
    TakeUntilUnique(cs, stop, r);
    buf.SetPosition(nextPos);
    s := Some(r);
  }

  /** The MD2 header. */
  datatype Header = Header(ident: string, version: int, skinWidth: int, skinHeight: int, frameSize: int,
                           numSkins: int, numXYZ: int, numST: int, numTris: int, numGLcmds: int,
                           numFrames: int, offsetSkins: int, offsetST: int, offsetTris: int,
                           offsetFrames: int, offsetGLcmds: int, offsetEnd: int)

  const HeaderSize := 68

  /** The header at p: the identifier, then sixteen integers in order. */
  function HeaderAt(data: seq<SByte>, p: int): Header
    requires 0 <= p && p + HeaderSize <= |data|
  {
    Header(TextAt(data, p, 4, 0 as char), I32(data, p + 4), I32(data, p + 8), I32(data, p + 12), I32(data, p + 16),
           I32(data, p + 20), I32(data, p + 24), I32(data, p + 28), I32(data, p + 32), I32(data, p + 36),
           I32(data, p + 40), I32(data, p + 44), I32(data, p + 48), I32(data, p + 52),
           I32(data, p + 56), I32(data, p + 60), I32(data, p + 64))
  }

  /** `loadHeader`: throws exactly when the file is shorter than a header. */
  method LoadHeader(buf: Buffer) returns (h: Option<Header>)
    requires buf.Valid()
    modifies buf`position
    ensures buf.Valid()
    ensures h.Some? <==> old(buf.position) + HeaderSize <= |buf.data|
    ensures h.Some? ==> h.value == HeaderAt(buf.data, old(buf.position)) && buf.position == old(buf.position) + HeaderSize
  {
    var p := buf.position;
    if p + HeaderSize > |buf.data| {
      return None;
    }
    var ident := ReadString(buf, 4, 0 as char);
    var version := buf.GetInt();
    var skinWidth := buf.GetInt();
    var skinHeight := buf.GetInt();
    var frameSize := buf.GetInt();
    var numSkins := buf.GetInt();
    var numXYZ := buf.GetInt();
    var numST := buf.GetInt();
    var numTris := buf.GetInt();
    var numGLcmds := buf.GetInt();
    var numFrames := buf.GetInt();
    var offsetSkins := buf.GetInt();
    var offsetST := buf.GetInt();
    var offsetTris := buf.GetInt();
    var offsetFrames := buf.GetInt();
    var offsetGLcmds := buf.GetInt();
    var offsetEnd := buf.GetInt();
    h := Some(Header(ident.value, version, skinWidth, skinHeight, frameSize, numSkins, numXYZ, numST, numTris,
                     numGLcmds, numFrames, offsetSkins, offsetST, offsetTris, offsetFrames, offsetGLcmds, offsetEnd));
  }

  /** j times m, added up one m at a time. */
  function Mul(m: int, j: nat): int
  {
    if j == 0 then 0 else Mul(m, j - 1) + m
  }

  lemma {:induction false} MulIsProduct(m: int, j: nat)
    ensures Mul(m, j) == j * m
  {
    if j > 0 {
      MulIsProduct(m, j - 1);
      assert (j - 1) * m + m == j * m;
    }
  }

  /** Where frame j starts: `offsetFrames + framesize * j`. */
  function FrameBase(h: Header, j: nat): int
  {
    h.offsetFrames + Mul(h.frameSize, j)
  }

  /** The bytes of frame j lie in a file of the given length. */
  predicate FrameFits(h: Header, len: int, j: nat)
  {
    0 <= h.numXYZ && 0 <= FrameBase(h, j) && FrameBase(h, j) + 40 + 4 * h.numXYZ <= len
  }

  /** Frames 0 to n - 1 can be read and their points stored. */
  ghost predicate PointsFit(h: Header, len: int, n: int)
  {
    0 <= n <= h.numFrames && forall j :: 0 <= j < n ==> FrameFits(h, len, j)
  }

  /** One more frame that fits extends the frames that fit... */
  lemma FitsStep(h: Header, len: int, j: nat)
    requires PointsFit(h, len, j) && j < h.numFrames && FrameFits(h, len, j)
    ensures PointsFit(h, len, j + 1)
  {
  }

  /** ...and a frame that does not fit means the frames do not all fit. */
  lemma FitsStop(h: Header, len: int, j: nat)
    requires j < h.numFrames && !FrameFits(h, len, j)
    ensures !PointsFit(h, len, h.numFrames)
  {
  }

  /** `getPointList` does not throw: the first position is in the file, the
    * point and name arrays can be made and every frame lies in the file. */
  ghost predicate FramesFit(h: Header, len: int)
  {
    0 <= h.offsetFrames <= len && 0 <= h.numFrames && PointsFit(h, len, h.numFrames)
  }

  /** Three floats at p. */
  function Triple(data: seq<SByte>, p: int, asFloat: int -> real): PVec
    requires 0 <= p && p + 12 <= |data|
  {
    PVec(asFloat(U32(data, p)), asFloat(U32(data, p + 4)), asFloat(U32(data, p + 8)))
  }

  /** The point whose bytes start at q: each byte scaled and translated. */
  function PointFrom(data: seq<SByte>, q: int, sc: PVec, tr: PVec): PVec
    requires 0 <= q && q + 3 <= |data|
  {
    PVec(sc.x * UByte(data[q]) as real + tr.x, sc.y * UByte(data[q + 1]) as real + tr.y, sc.z * UByte(data[q + 2]) as real + tr.z)
  }

  /** The n points whose bytes start at q, four bytes apart. */
  function PointRun(data: seq<SByte>, q: int, n: int, sc: PVec, tr: PVec): (r: seq<PVec>)
    requires 0 <= q && 0 <= n && q + 4 * n <= |data|
    ensures |r| == n
  {
    seq(n, i requires 0 <= i < n => PointFrom(data, q + 4 * i, sc, tr))
  }

  /** The points of frame j. */
  function FramePoints(data: seq<SByte>, h: Header, j: nat, asFloat: int -> real): (r: seq<PVec>)
    requires FrameFits(h, |data|, j)
    ensures |r| == h.numXYZ
  {
    var base := FrameBase(h, j);
    PointRun(data, base + 40, h.numXYZ, Triple(data, base, asFloat), Triple(data, base + 12, asFloat))
  }

  /** A larger multiple of a non-negative m is no smaller. */
  lemma {:induction false} MulGrows(m: int, j: nat, n: nat)
    requires 0 <= m && j <= n
    ensures Mul(m, j) <= Mul(m, n)
    decreases n
  {
    if j < n {
      MulGrows(m, j, n - 1);
    }
  }

  /** The lists one after another. */
  function Flatten<T>(fs: seq<seq<T>>): seq<T>
    decreases |fs|
  {
    if fs == [] then [] else Flatten(fs[..|fs| - 1]) + fs[|fs| - 1]
  }

  /** Appending a list appends its elements. */
  lemma FlattenSnoc<T>(fs: seq<seq<T>>, f: seq<T>)
    ensures Flatten(fs + [f]) == Flatten(fs) + f
  {
    assert (fs + [f])[..|fs|] == fs;
  }

  /** Every list holds m elements. */
  ghost predicate Uniform<T>(fs: seq<seq<T>>, m: int)
  {
    forall k :: 0 <= k < |fs| ==> |fs[k]| == m
  }

  /** Lists of m elements each flatten to Mul(m, |fs|) elements... */
  lemma {:induction false} FlattenCount<T>(fs: seq<seq<T>>, m: int)
    requires Uniform(fs, m)
    ensures |Flatten(fs)| == Mul(m, |fs|)
    decreases |fs|
  {
    if fs != [] {
      FlattenCount(fs[..|fs| - 1], m);
    }
  }

  /** ...and element i of list j lands at Mul(m, j) + i. */
  lemma {:induction false} FlattenIndex<T>(fs: seq<seq<T>>, m: int, j: nat, i: int)
    requires Uniform(fs, m) && j < |fs| && 0 <= i < m
    ensures 0 <= Mul(m, j) + i < |Flatten(fs)| && Flatten(fs)[Mul(m, j) + i] == fs[j][i]
    decreases |fs|
  {
    var n := |fs| - 1;
    var init := fs[..n];
    assert Uniform(init, m);
    FlattenCount(init, m);
    MulGrows(m, j, n);
    if j < n {
      FlattenIndex(init, m, j, i);
      MulGrows(m, j + 1, n);
    }
  }

  /** The points of frames 0 to n - 1, frame by frame. */
  ghost function Frames(data: seq<SByte>, h: Header, n: nat, asFloat: int -> real): (r: seq<seq<PVec>>)
    requires PointsFit(h, |data|, n)
    ensures |r| == n
  {
    seq(n, j requires 0 <= j < n => FramePoints(data, h, j, asFloat))
  }

  /** The points of frames 0 to n - 1, frame after frame. */
  ghost function AllPoints(data: seq<SByte>, h: Header, n: nat, asFloat: int -> real): seq<PVec>
    requires PointsFit(h, |data|, n)
  {
    Flatten(Frames(data, h, n, asFloat))
  }

  /** One more frame appends its points. */
  lemma FramesStep(data: seq<SByte>, h: Header, n: nat, asFloat: int -> real)
    requires PointsFit(h, |data|, n + 1)
    ensures PointsFit(h, |data|, n) && FrameFits(h, |data|, n)
    ensures AllPoints(data, h, n + 1, asFloat) == AllPoints(data, h, n, asFloat) + FramePoints(data, h, n, asFloat)
  {
    assert FrameFits(h, |data|, n);
    assert Frames(data, h, n + 1, asFloat) == Frames(data, h, n, asFloat) + [FramePoints(data, h, n, asFloat)];
    FlattenSnoc(Frames(data, h, n, asFloat), FramePoints(data, h, n, asFloat));
  }

  /** Every frame has numXYZ points. */
  lemma FramesUniform(data: seq<SByte>, h: Header, n: nat, asFloat: int -> real)
    requires PointsFit(h, |data|, n)
    ensures Uniform(Frames(data, h, n, asFloat), h.numXYZ)
  {
  }

  /** Point i of frame j is at Mul(numXYZ, j) + i of all the points. */
  lemma PointAt(data: seq<SByte>, h: Header, asFloat: int -> real, j: nat, i: int)
    requires PointsFit(h, |data|, h.numFrames) && 0 <= j < h.numFrames && 0 <= i < h.numXYZ
    ensures FrameFits(h, |data|, j)
    ensures |AllPoints(data, h, h.numFrames, asFloat)| == Mul(h.numXYZ, h.numFrames)
    ensures 0 <= Mul(h.numXYZ, j) + i < Mul(h.numXYZ, h.numFrames)
    ensures AllPoints(data, h, h.numFrames, asFloat)[Mul(h.numXYZ, j) + i] == FramePoints(data, h, j, asFloat)[i]
  {
    var fs := Frames(data, h, h.numFrames, asFloat);
    assert AllPoints(data, h, h.numFrames, asFloat) == Flatten(fs);
    assert FrameFits(h, |data|, j) && fs[j] == FramePoints(data, h, j, asFloat);
    FramesUniform(data, h, h.numFrames, asFloat);
    FlattenIndex(fs, h.numXYZ, j, i);
    FlattenCount(fs, h.numXYZ);
  }

  /** The name of frame j. */
  function NameAt(data: seq<SByte>, h: Header, j: nat): string
    requires FrameFits(h, |data|, j)
  {
    TextAt(data, FrameBase(h, j) + 24, 16, 0 as char)
  }

  /** The names of frames 0 to n - 1. */
  ghost function FrameNames(data: seq<SByte>, h: Header, n: nat): (r: seq<string>)
    requires PointsFit(h, |data|, n)
    ensures |r| == n
  {
    seq(n, j requires 0 <= j < n => NameAt(data, h, j))
  }

  /** One more frame appends its name. */
  lemma NamesStep(data: seq<SByte>, h: Header, n: nat)
    requires PointsFit(h, |data|, n + 1)
    ensures PointsFit(h, |data|, n)
    ensures FrameNames(data, h, n + 1) == FrameNames(data, h, n) + [NameAt(data, h, n)]
  {
  }

  /** Three floats, as for a frame's scale or translation. */
  method ReadTriple(buf: Buffer, asFloat: int -> real) returns (v: PVec)
    requires buf.Valid() && buf.position + 12 <= |buf.data|
    modifies buf`position
    ensures buf.Valid() && buf.position == old(buf.position) + 12
    ensures v == Triple(buf.data, old(buf.position), asFloat)
  {
    var x := buf.GetFloat(asFloat);
    var y := buf.GetFloat(asFloat);
    var z := buf.GetFloat(asFloat);
    v := PVec(x, y, z);
  }

  /** The scale, translation and name at the start of a frame. */
  method ReadFrameHeader(buf: Buffer, asFloat: int -> real, ghost at: int) returns (sc: PVec, tr: PVec, name: string)
    requires buf.Valid() && buf.position == at && at + 40 <= |buf.data|
    modifies buf`position
    ensures buf.Valid() && buf.position == at + 40
    ensures sc == Triple(buf.data, at, asFloat) && tr == Triple(buf.data, at + 12, asFloat)
    ensures name == TextAt(buf.data, at + 24, 16, 0 as char)
  {
    sc := ReadTriple(buf, asFloat);
    tr := ReadTriple(buf, asFloat);
    var s := ReadString(buf, 16, 0 as char);
    name := s.value;
  }

  /** One point: three bytes scaled and translated, then the normal index,
    * which is read and dropped. */
  method ReadPoint(buf: Buffer, sc: PVec, tr: PVec) returns (p: PVec)
    requires buf.Valid() && buf.position + 4 <= |buf.data|
    modifies buf`position
    ensures buf.Valid() && buf.position == old(buf.position) + 4
    ensures p == PointFrom(buf.data, old(buf.position), sc, tr)
  {
    var xb := buf.Get();
    var yb := buf.Get();
    var zb := buf.Get();
    var normIndex := buf.Get();
    p := PVec(sc.x * UByte(xb) as real + tr.x, sc.y * UByte(yb) as real + tr.y, sc.z * UByte(zb) as real + tr.z);
  }

  /** The points of one frame, stored from `start` on, with the box grown
    * over each. */
  method ReadFramePoints(buf: Buffer, points: array<PVec>, start: int, n: int, sc: PVec, tr: PVec, box0: BBox,
                         ghost q: int, ghost done: seq<PVec>, ghost run: seq<PVec>)
    returns (box: BBox)
    requires buf.Valid() && buf.position == q && 0 <= n && q + 4 * n <= |buf.data|
    requires run == PointRun(buf.data, q, n, sc, tr)
    requires 0 <= start && start + n <= points.Length && points[..start] == done && box0 == BoxOf(done)
    modifies buf`position, points
    ensures buf.Valid() && buf.position == q + 4 * n
    ensures points[..start + n] == done + run
    ensures box == BoxOf(done + run)
  {
    box := box0;
    assert done + run[..0] == done;
    for i := 0 to n
      invariant buf.Valid() && buf.position == q + 4 * i
      invariant points[..start + i] == done + run[..i]
      invariant box == BoxOf(done + run[..i])
    {
      var p := ReadPoint(buf, sc, tr);
      points[start + i] := p;
      assert points[..start + i + 1] == points[..start + i] + [p];
      assert run[..i + 1] == run[..i] + [p];
      ghost var grown := done + run[..i + 1];
      assert grown[..|grown| - 1] == done + run[..i] && grown[|grown| - 1] == p;
      box := Grow(box, p);
    }
    assert run[..n] == run;
  }

  /** Where frame j's parts lie. */
  lemma FrameAt(data: seq<SByte>, h: Header, j: nat, asFloat: int -> real)
    requires FrameFits(h, |data|, j)
    ensures var base := FrameBase(h, j);
            0 <= base && base + 40 + 4 * h.numXYZ <= |data| &&
            FramePoints(data, h, j, asFloat) == PointRun(data, base + 40, h.numXYZ, Triple(data, base, asFloat), Triple(data, base + 12, asFloat)) &&
            NameAt(data, h, j) == TextAt(data, base + 24, 16, 0 as char)
  {
  }

  /** The start of frame j: the position set to it and its scale,
    * translation and name read. */
  method ReadFrame(buf: Buffer, h: Header, j: nat, asFloat: int -> real) returns (sc: PVec, tr: PVec, name: string)
    requires buf.Valid() && FrameFits(h, |buf.data|, j)
    modifies buf`position
    ensures buf.Valid() && buf.position == FrameBase(h, j) + 40
    ensures sc == Triple(buf.data, FrameBase(h, j), asFloat) && tr == Triple(buf.data, FrameBase(h, j) + 12, asFloat)
    ensures name == NameAt(buf.data, h, j)
  {
    buf.SetPosition(FrameBase(h, j));
    sc, tr, name := ReadFrameHeader(buf, asFloat, FrameBase(h, j));
  }

  /** Frame j read after frames 0 to j - 1: its name, and its points stored
    * after those of frames 0 to j - 1 with the box grown over them. */
  method ReadNextFrame(buf: Buffer, h: Header, j: nat, points: array<PVec>, index: int, box0: BBox, asFloat: int -> real)
    returns (name: string, box: BBox)
    requires buf.Valid() && PointsFit(h, |buf.data|, j + 1) && 0 <= h.numXYZ
    requires index == Mul(h.numXYZ, j) && 0 <= index && index + h.numXYZ <= points.Length
    requires points[..index] == AllPoints(buf.data, h, j, asFloat) && box0 == BoxOf(AllPoints(buf.data, h, j, asFloat))
    modifies buf`position, points
    ensures buf.Valid()
    ensures points[..index + h.numXYZ] == AllPoints(buf.data, h, j + 1, asFloat)
    ensures box == BoxOf(AllPoints(buf.data, h, j + 1, asFloat))
    ensures name == NameAt(buf.data, h, j)
  {
    FramesStep(buf.data, h, j, asFloat);
    FrameAt(buf.data, h, j, asFloat);
    var sc, tr;
    sc, tr, name := ReadFrame(buf, h, j, asFloat);
    box := ReadFramePoints(buf, points, index, h.numXYZ, sc, tr, box0, FrameBase(h, j) + 40,
                           AllPoints(buf.data, h, j, asFloat), FramePoints(buf.data, h, j, asFloat));
  }

  /** The frame loop of `getPointList`: every frame read in turn into
    * `points`, its name kept and the box grown over its points; it fails at
    * the first frame that does not lie in the file. */
  method ReadFrames(buf: Buffer, h: Header, points: array<PVec>, asFloat: int -> real)
    returns (ok: bool, names: seq<string>, box: BBox)
    requires buf.Valid() && 0 <= h.numFrames && (h.numFrames > 0 ==> 0 <= h.numXYZ)
    requires points.Length == Mul(h.numXYZ, h.numFrames)
    modifies buf`position, points
    ensures buf.Valid()
    ensures ok <==> PointsFit(h, |buf.data|, h.numFrames)
    ensures ok ==> points[..] == AllPoints(buf.data, h, h.numFrames, asFloat)
    ensures ok ==> names == FrameNames(buf.data, h, h.numFrames)
    ensures ok ==> box == BoxOf(points[..])
  {
    names := [];
    var index := 0;
    box := NoBox;
    for j := 0 to h.numFrames
      invariant buf.Valid()
      invariant PointsFit(h, |buf.data|, j)
      invariant index == Mul(h.numXYZ, j) && 0 <= index <= points.Length
      invariant points[..index] == AllPoints(buf.data, h, j, asFloat)
      invariant box == BoxOf(AllPoints(buf.data, h, j, asFloat))
      invariant names == FrameNames(buf.data, h, j)
    {
      if !FrameFits(h, |buf.data|, j) {
        FitsStop(h, |buf.data|, j);
        ok := false;
        return;
      }
      FitsStep(h, |buf.data|, j);
      MulGrows(h.numXYZ, j + 1, h.numFrames);
      NamesStep(buf.data, h, j);
      var name;
      name, box := ReadNextFrame(buf, h, j, points, index, box, asFloat);
      names := names + [name];
      index := index + h.numXYZ;
    }
    assert points[..] == points[..index];
    ok := true;
  }

  /** `getPointList`: the points of every frame in order, the frame names,
    * and the centre and size of the box of all the points. */
  method GetPointList(buf: Buffer, h: Header, asFloat: int -> real)
    returns (ok: bool, points: array<PVec>, names: seq<string>, modOffset: PVec, modSize: PVec)
    requires buf.Valid()
    modifies buf`position
    ensures buf.Valid() && fresh(points)
    ensures ok <==> FramesFit(h, |buf.data|)
    ensures ok ==> points[..] == AllPoints(buf.data, h, h.numFrames, asFloat)
    ensures ok ==> names == FrameNames(buf.data, h, h.numFrames)
    ensures ok ==> modOffset == Centre(BoxOf(points[..])) && modSize == Extent(BoxOf(points[..]))
  {
    points, names, modOffset, modSize := new PVec[0], [], Zero, Zero;
    if h.offsetFrames < 0 || h.offsetFrames > |buf.data| || h.numFrames < 0 {
      ok := false;
      return;
    }
    if h.numFrames > 0 && h.numXYZ < 0 {
      assert !FrameFits(h, |buf.data|, 0);
      ok := false;
      return;
    }
    buf.SetPosition(h.offsetFrames);
    MulIsProduct(h.numXYZ, h.numFrames);
    points := new PVec[h.numFrames * h.numXYZ];
    var box;
    ok, names, box := ReadFrames(buf, h, points, asFloat);
    if ok {
      modOffset := Centre(box);
      modSize := Extent(box);
    }
  }

  predicate IsDigit(c: char)
  {
    '0' <= c <= '9'
  }

  /** Where the backward scan over trailing digits stops: at a non-digit,
    * or at index 0. */
  function ScanBack(s: string, pos: int): (r: int)
    requires 0 <= pos < |s|
    ensures 0 <= r <= pos
    ensures r > 0 ==> !IsDigit(s[r])
    ensures forall k :: r < k <= pos ==> IsDigit(s[k])
    decreases pos
  {
    if pos > 0 && IsDigit(s[pos]) then ScanBack(s, pos - 1) else pos
  }

  /** A name with its trailing digits removed: what is left is a prefix that
    * ends in a non-digit at index 1 or later and is followed only by digits;
    * when the string has no non-digit after its first character nothing is
    * left. */
  function Stripped(s: string): (r: string)
    ensures |r| <= |s| && r == s[..|r|]
    ensures r != [] ==> 2 <= |r| && !IsDigit(r[|r| - 1]) && forall k :: |r| <= k < |s| ==> IsDigit(s[k])
    ensures r == [] <==> forall k :: 1 <= k < |s| ==> IsDigit(s[k])
  {
    if |s| == 0 then "" else
      var p := ScanBack(s, |s| - 1);
      if p > 0 then s[..p + 1] else ""
  }

  /** Stripping twice strips no more. */
  lemma {:induction false} StripIdempotent(s: string)
    ensures Stripped(Stripped(s)) == Stripped(s)
  {
    var r := Stripped(s);
    if r != [] {
      assert !IsDigit(r[|r| - 1]);
      assert r[..|r|] == r;
    }
  }

  /** `stripTrailingNumber(s)`: "" for a null string. */
  method StripTrailingNumber(s: Option<string>) returns (r: string)
    ensures r == if s.None? then "" else Stripped(s.value)
  {
    r := "";
    if s.Some? && |s.value| > 0 {
      var c := s.value;
      var pos := |c| - 1;
      while pos > 0 && '0' <= c[pos] <= '9'
        invariant 0 <= pos < |c| && ScanBack(c, |c| - 1) == ScanBack(c, pos)
      {
        pos := pos - 1;
      }
      if pos > 0 {
        r := c[..pos + 1];
      }
    }
  }

  /** The stripped name of every frame. */
  ghost function Keys(names: seq<string>): (r: seq<string>)
    ensures |r| == |names|
  {
    seq(|names|, f requires 0 <= f < |names| => Stripped(names[f]))
  }

  /** The runs describe keys 0 to n - 1: runs in order, covering every
    * index, each key that of its run, and no two neighbouring runs with the
    * same key. */
  ghost predicate Runs(keys: seq<string>, n: int, states: seq<AnimState>)
    requires n <= |keys|
  {
    |states| >= 1 && states[0].startFrame == 0 && states[|states| - 1].endFrame == n - 1 &&
    (forall k :: 0 <= k < |states| ==> 0 <= states[k].startFrame <= states[k].endFrame < n) &&
    (forall k :: 0 <= k < |states| - 1 ==> states[k + 1].startFrame == states[k].endFrame + 1) &&
    (forall k, f :: 0 <= k < |states| && states[k].startFrame <= f <= states[k].endFrame ==>
       keys[f] == states[k].name) &&
    (forall k :: 0 <= k < |states| - 1 ==> states[k].name != states[k + 1].name)
  }

  /** The states describe frames 0 to n - 1: runs of equal stripped names. */
  ghost predicate StatesOf(names: seq<string>, n: int, states: seq<AnimState>)
    requires n <= |names|
  {
    Runs(Keys(names), n, states)
  }

  /** Every index is in a run. */
  lemma {:induction false} FrameInState(keys: seq<string>, n: int, states: seq<AnimState>, f: int)
    requires n <= |keys| && Runs(keys, n, states) && 0 <= f < n
    ensures exists k :: 0 <= k < |states| && states[k].startFrame <= f <= states[k].endFrame
  {
    var k := 0;
    while states[k].endFrame < f
      invariant 0 <= k < |states| && states[k].startFrame <= f
      decreases |states| - k
    {
      k := k + 1;
    }
  }

  /** Index i joins the last run when its key is the run's. */
  lemma ExtendLast(keys: seq<string>, i: int, list: seq<AnimState>, state: AnimState)
    requires 1 <= i < |keys| && Runs(keys, i, list + [state]) && state.endFrame == i - 1
    requires keys[i] == state.name
    ensures Runs(keys, i + 1, list + [state.(endFrame := i)])
  {
    var before, after := list + [state], list + [state.(endFrame := i)];
    assert forall k :: 0 <= k < |list| ==> after[k] == before[k];
    forall k, f | 0 <= k < |after| && after[k].startFrame <= f <= after[k].endFrame
      ensures keys[f] == after[k].name
    {
      if k < |list| || f < i {
        assert before[k].startFrame <= f <= before[k].endFrame;
      }
    }
  }

  /** Index i starts a new run when its key differs. */
  lemma StartNext(keys: seq<string>, i: int, list: seq<AnimState>, state: AnimState)
    requires 1 <= i < |keys| && Runs(keys, i, list + [state]) && state.endFrame == i - 1
    requires keys[i] != state.name
    ensures Runs(keys, i + 1, (list + [state]) + [AnimState(keys[i], i, i)])
  {
    var before := list + [state];
    var after := before + [AnimState(keys[i], i, i)];
    assert forall k :: 0 <= k < |before| ==> after[k] == before[k];
    forall k, f | 0 <= k < |after| && after[k].startFrame <= f <= after[k].endFrame
      ensures keys[f] == after[k].name
    {
      if k < |before| {
        assert before[k].startFrame <= f <= before[k].endFrame;
      }
    }
  }

  /** `getModelStates`: the frames split into runs of equal stripped names;
    * with no frames, `frameNames[0]` throws. */
  method GetModelStates(names: seq<string>) returns (states: Option<seq<AnimState>>)
    ensures states.None? <==> names == []
    ensures states.Some? ==> StatesOf(names, |names|, states.value)
  {
    if names == [] {
      return None;
    }
    ghost var keys := Keys(names);
    var list: seq<AnimState> := [];
    var first := StripTrailingNumber(Some(names[0]));
    var state := AnimState(first, 0, 0);
    for i := 1 to |names|
      invariant Runs(keys, i, list + [state])
      invariant state.endFrame == i - 1
    {
      var next := StripTrailingNumber(Some(names[i]));
      assert next == keys[i];
      if state.name == next {
        ExtendLast(keys, i, list, state);
        state := state.(endFrame := i);
      } else {
        StartNext(keys, i, list, state);
        list := list + [state];
        state := AnimState(next, i, i);
      }
    }
    states := Some(list + [state]);
  }

  /** The vertices a command announces: Java's `-cmd` leaves
    * Integer.MIN_VALUE negative, so that command reads none. */
  function VertexCount(cmd: int): nat
  {
    if 0 <= cmd then cmd else if cmd == -0x8000_0000 then 0 else -cmd
  }

  /** The vertex whose 12 bytes start at q. */
  function VertexAt(data: seq<SByte>, q: int, asFloat: int -> real): Vertex
    requires 0 <= q && q + 12 <= |data|
  {
    Vertex(asFloat(U32(data, q)), asFloat(U32(data, q + 4)), I32(data, q + 8))
  }

  /** The n vertices from q on. */
  function VertexRun(data: seq<SByte>, q: int, n: int, asFloat: int -> real): (r: seq<Vertex>)
    requires 0 <= q && 0 <= n && q + 12 * n <= |data|
    ensures |r| == n
  {
    seq(n, k requires 0 <= k < n => VertexAt(data, q + 12 * k, asFloat))
  }

  datatype GlList = GlList(cmds: seq<int>, verts: seq<Vertex>)

  /** The commands and vertices from p to the end mark, or `None` when a
    * read would pass the end of the file. */
  ghost function GlFrom(data: seq<SByte>, p: int, end: int, asFloat: int -> real): Option<GlList>
    requires 0 <= p <= |data|
    decreases |data| - p
  {
    if end <= p then Some(GlList([], []))
    else if |data| < p + 4 then None
    else
      var cmd := I32(data, p);
      var n := VertexCount(cmd);
      if |data| < p + 4 + 12 * n then None
      else
        match GlFrom(data, p + 4 + 12 * n, end, asFloat)
        case None => None
        case Some(rest) => Some(GlList([cmd] + rest.cmds, VertexRun(data, p + 4, n, asFloat) + rest.verts))
  }

  /** The total of the counts the commands announce. */
  function TotalCount(cmds: seq<int>): nat
  {
    if cmds == [] then 0 else VertexCount(cmds[0]) + TotalCount(cmds[1..])
  }

  /** There are as many vertices as the commands announce. */
  lemma {:induction false} CountsMatch(data: seq<SByte>, p: int, end: int, asFloat: int -> real)
    requires 0 <= p <= |data| && GlFrom(data, p, end, asFloat).Some?
    ensures TotalCount(GlFrom(data, p, end, asFloat).value.cmds) == |GlFrom(data, p, end, asFloat).value.verts|
    decreases |data| - p
  {
    if p < end {
      var n := VertexCount(I32(data, p));
      CountsMatch(data, p + 4 + 12 * n, end, asFloat);
      var g := GlFrom(data, p, end, asFloat).value;
      assert g.cmds[1..] == GlFrom(data, p + 4 + 12 * n, end, asFloat).value.cmds;
    }
  }

  /** What was read so far, put in front of what remains. */
  function Prefixed(cmds: seq<int>, verts: seq<Vertex>, rest: Option<GlList>): Option<GlList>
  {
    if rest.None? then None else Some(GlList(cmds + rest.value.cmds, verts + rest.value.verts))
  }

  /** Nothing read yet: what remains is all there is. */
  lemma PrefixedNothing(g: Option<GlList>)
    ensures Prefixed([], [], g) == g
  {
    if g.Some? {
      assert [] + g.value.cmds == g.value.cmds && [] + g.value.verts == g.value.verts;
    }
  }

  /** At the end mark what was read is the whole list. */
  lemma PrefixedAll(cmds: seq<int>, verts: seq<Vertex>)
    ensures Prefixed(cmds, verts, Some(GlList([], []))) == Some(GlList(cmds, verts))
  {
    assert cmds + [] == cmds && verts + [] == verts;
  }

  /** Reading one command and its vertices moves them from what remains to
    * what was read. */
  lemma GlStep(data: seq<SByte>, p: int, end: int, asFloat: int -> real, cmds: seq<int>, verts: seq<Vertex>)
    requires 0 <= p < end && p + 4 <= |data|
    requires p + 4 + 12 * VertexCount(I32(data, p)) <= |data|
    ensures var n := VertexCount(I32(data, p));
            Prefixed(cmds, verts, GlFrom(data, p, end, asFloat))
              == Prefixed(cmds + [I32(data, p)], verts + VertexRun(data, p + 4, n, asFloat), GlFrom(data, p + 4 + 12 * n, end, asFloat))
  {
    var n := VertexCount(I32(data, p));
    var rest := GlFrom(data, p + 4 + 12 * n, end, asFloat);
    if rest.Some? {
      var vs := VertexRun(data, p + 4, n, asFloat);
      assert cmds + ([I32(data, p)] + rest.value.cmds) == (cmds + [I32(data, p)]) + rest.value.cmds;
      assert verts + (vs + rest.value.verts) == (verts + vs) + rest.value.verts;
    }
  }

  /** The n vertices at the position. */
  method ReadVertices(buf: Buffer, n: nat, asFloat: int -> real) returns (vs: seq<Vertex>)
    requires buf.Valid() && buf.position + 12 * n <= |buf.data|
    modifies buf`position
    ensures buf.Valid() && buf.position == old(buf.position) + 12 * n
    ensures vs == VertexRun(buf.data, old(buf.position), n, asFloat)
  {
    ghost var q := buf.position;
    ghost var run := VertexRun(buf.data, q, n, asFloat);
    vs := [];
    for k := 0 to n
      invariant buf.Valid() && buf.position == q + 12 * k
      invariant vs == run[..k]
    {
      var s := buf.GetFloat(asFloat);
      var t := buf.GetFloat(asFloat);
      var idx := buf.GetInt();
      assert Vertex(s, t, idx) == run[k];
      vs := vs + [Vertex(s, t, idx)];
      assert run[..k + 1] == run[..k] + [run[k]];
    }
    assert run[..n] == run;
  }

  /** One pass of `getGLcommands`' loop: a command and the vertices it
    * announces, appended to what was read; false when a read would pass
    * the end of the file, and then the whole list cannot be read. */
  method ReadCommand(buf: Buffer, end: int, asFloat: int -> real, cmds: seq<int>, verts: seq<Vertex>,
                     ghost all: Option<GlList>, ghost p: int)
      returns (read: bool, cmds': seq<int>, verts': seq<Vertex>)
    requires buf.Valid() && buf.position == p && p < end
    requires all == Prefixed(cmds, verts, GlFrom(buf.data, p, end, asFloat))
    modifies buf`position
    ensures buf.Valid()
    ensures read ==> p < buf.position && all == Prefixed(cmds', verts', GlFrom(buf.data, buf.position, end, asFloat))
    ensures !read ==> all == None
  {
    cmds', verts' := cmds, verts;
    if buf.position + 4 > |buf.data| {
      return false, cmds', verts';
    }
    var cmd := buf.GetInt();
    var n := VertexCount(cmd);
    if buf.position + 12 * n > |buf.data| {
      return false, cmds', verts';
    }
    GlStep(buf.data, p, end, asFloat, cmds, verts);
    var vs := ReadVertices(buf, n, asFloat);
    cmds' := cmds + [cmd];
    verts' := verts + vs;
    read := true;
  }

  /** `getGLcommands` does not throw. */
  ghost predicate GlReadable(data: seq<SByte>, h: Header, asFloat: int -> real)
  {
    0 <= h.offsetGLcmds <= |data| && GlFrom(data, h.offsetGLcmds, h.offsetEnd, asFloat).Some?
  }

  /** `getGLcommands`: every command up to the end mark, each followed by
    * the vertices it announces. */
  method GetGLcommands(buf: Buffer, h: Header, asFloat: int -> real) returns (ok: bool, cmds: seq<int>, verts: seq<Vertex>)
    requires buf.Valid()
    modifies buf`position
    ensures buf.Valid()
    ensures ok <==> GlReadable(buf.data, h, asFloat)
    ensures ok ==> GlFrom(buf.data, h.offsetGLcmds, h.offsetEnd, asFloat) == Some(GlList(cmds, verts))
  {
    cmds, verts := [], [];
    if h.offsetGLcmds < 0 || h.offsetGLcmds > |buf.data| {
      return false, cmds, verts;
    }
    buf.SetPosition(h.offsetGLcmds);
    ghost var all := GlFrom(buf.data, h.offsetGLcmds, h.offsetEnd, asFloat);
    PrefixedNothing(all);
    while buf.position < h.offsetEnd
      invariant buf.Valid()
      invariant all == Prefixed(cmds, verts, GlFrom(buf.data, buf.position, h.offsetEnd, asFloat))
      decreases |buf.data| - buf.position
    {
      var read;
      read, cmds, verts := ReadCommand(buf, h.offsetEnd, asFloat, cmds, verts, all, buf.position);
      if !read {
        return false, cmds, verts;
      }
    }
    PrefixedAll(cmds, verts);
    ok := true;
  }

  /** The file can be loaded: it holds a header, its frames fit, there is at
    * least one frame, and the command list can be read. */
  ghost predicate Loadable(data: seq<SByte>, asFloat: int -> real)
  {
    HeaderSize <= |data| &&
    var h := HeaderAt(data, 0);
    FramesFit(h, |data|) && 1 <= h.numFrames && GlReadable(data, h, asFloat)
  }

  /** The model read from the file. */
  ghost predicate Decoded(m: Md2Data, data: seq<SByte>, asFloat: int -> real)
    requires Loadable(data, asFloat)
    reads m, m.point
  {
    var h := HeaderAt(data, 0);
    var names := FrameNames(data, h, h.numFrames);
    m.numFrames == h.numFrames && m.numXYZ == h.numXYZ &&
    m.point[..] == AllPoints(data, h, h.numFrames, asFloat) &&
    m.modOffset == Centre(BoxOf(m.point[..])) && m.modSize == Extent(BoxOf(m.point[..])) &&
    Some(GlList(m.glCommand, m.glVertex)) == GlFrom(data, h.offsetGLcmds, h.offsetEnd, asFloat) &&
    StatesOf(names, h.numFrames, m.animState)
  }

  /** MD2's table of the models read so far, by file name. */
  class Md2Library {
    var models: map<string, Md2Data>

    constructor ()
      ensures models == map[]
    {
      models := map[];
    }

    /** `getModelData(app, modelFile, skinFile)`: a file read before gives
      * the same model again, whatever the skin; otherwise the file (`None`
      * when it cannot be loaded) is read into a new model, kept under its
      * name. A load that throws keeps nothing. */
    method GetModelData(modelFile: string, skin: nat, file: Option<seq<SByte>>, asFloat: int -> real)
      returns (r: Option<Md2Data>)
      modifies this`models
      ensures modelFile in old(models) ==> r == Some(old(models)[modelFile]) && models == old(models)
      ensures modelFile !in old(models) ==> (r.Some? <==> file.Some? && Loadable(file.value, asFloat))
      ensures modelFile !in old(models) && r.None? ==> models == old(models)
      ensures modelFile !in old(models) && r.Some? ==>
                fresh(r.value) && fresh(r.value.point) && models == old(models)[modelFile := r.value] &&
                Decoded(r.value, file.value, asFloat)
    {
      if modelFile in models {
        return Some(models[modelFile]);
      }
      if file.None? {
        return None;
      }
      var buf := new Buffer(file.value);
      var header := LoadHeader(buf);
      if header.None? {
        return None;
      }
      var h := header.value;
      var ok, points, names, modOffset, modSize := GetPointList(buf, h, asFloat);
      if !ok {
        return None;
      }
      var states := GetModelStates(names);
      if states.None? {
        return None;
      }
      var glOk, cmds, verts := GetGLcommands(buf, h, asFloat);
      if !glOk {
        return None;
      }
      var m := new Md2Data(h.numFrames, h.numXYZ, h.frameSize, points, modOffset, modSize, cmds, verts, skin, states.value);
      models := models[modelFile := m];
      r := Some(m);
    }
  }
}
