/**
 * Shapes3D's Shape3D: what every shape shares. This covers the pick-colour
 * bookkeeping, the per-part setters and the position and rotation setters.
 *
 * Each new shape takes the next pick colour, 8 more than the last, starting
 * from 0xFF000000. It is registered under that colour plus 0..7, one colour
 * per part, so the low three bits of a colour read back from the pick
 * buffer name the part and the rest name the shape. The library's static
 * state (the next pick colour, the shape counter, the colour map and the
 * list of shapes made) is the `Registry` object that every constructor is
 * given.
 *
 * A per-part setter walks the parts with a flag starting at 1 and doubled
 * in 32-bit arithmetic. Part pn is changed when every bit of its flag is
 * set in the mask. From part 32 on, the flag has shifted out to 0, so every
 * such part is changed whatever the mask. Parts are values here; the
 * attributes the setters change are the tag, the draw mode, the visibility
 * and the texture.
 *
 * Rendering the pick buffer is not modelled: a pick starts from the colour
 * (or the buffer of colours) it read.
 */
module Shapes {

  import opened Vectors
  import opened Picking
  import Util

  /** Part-flag constants. */
  const ALL: bv32 := 0xFF
  const BOTTOM: bv32 := 0x01
  const TOP: bv32 := 0x02
  const FRONT: bv32 := 0x04
  const BACK: bv32 := 0x08
  const LEFT: bv32 := 0x10
  const RIGHT: bv32 := 0x20
  const BODY: bv32 := 0x01
  const END0: bv32 := 0x02
  const END1: bv32 := 0x04

  /** Draw modes. */
  const WIRE: int := 0x11
  const SOLID: int := 0x12
  const TEXTURE: int := 0x14

  /** The first pick colour, before the first increment. */
  const FirstPickColor: bv32 := 0xFF00_0000

  /** The shape bits of a pick colour: all but the low three. */
  const ShapeBits: bv32 := 0xFFFF_FFF8

  /** A texture: none, or a rectangle cut from an image. */
  datatype Texture = NoTexture | Region(image: nat, x: int, y: int, w: int, h: int)

  /** The attributes of a shape part that the per-part setters change. */
  datatype PartState = PartState(tag: string, drawMode: int, visible: bool, texture: Texture)

  /** A new part: drawn solid and as a wire frame, visible, untextured. */
  const NewPart := PartState("", 0x13, true, NoTexture)

  /** The flag of part q selects part q and no other of the eight. */
  lemma {:induction false} FlagSelectsOnly(q: nat, pn: nat)
    requires q < 8 && pn < 8
    ensures Selected(Flag(q), pn) <==> pn == q
  {
    PartFlags();
  }

  /** ALL selects each of the eight parts. */
  lemma {:induction false} AllSelects(pn: nat)
    requires pn < 8
    ensures Selected(ALL, pn)
  {
    PartFlags();
  }

  /** The first three values of an array as a vector, or nothing for a
    * shorter array: the array forms of `moveTo`, `rotateTo` and `rotateBy`
    * ignore arrays of fewer than three values. */
  function FromArray(a: seq<real>): (r: Option<PVec>)
    ensures r.Some? <==> |a| >= 3
    ensures r.Some? ==> r.value.x == a[0] && r.value.y == a[1] && r.value.z == a[2]
  {
    if |a| >= 3 then Some(PVec(a[0], a[1], a[2])) else None
  }

  /** `moveTo(xyz)` and `rotateTo(angles)` on the vector v. */
  function SetFrom(v: PVec, a: seq<real>): PVec
  {
    if FromArray(a).Some? then FromArray(a).value else v
  }

  /** `rotateBy(angle)` on the vector v. */
  function TurnedBy(v: PVec, a: seq<real>): PVec
  {
    if FromArray(a).Some? then Add(v, FromArray(a).value) else v
  }

  /** Every value of the array negated. */
  function Negated(a: seq<real>): (r: seq<real>)
    ensures |r| == |a| && forall i :: 0 <= i < |a| ==> r[i] == -a[i]
  {
    seq(|a|, i requires 0 <= i < |a| => -a[i])
  }

  /** Setting from the same array twice is setting it once. */
  lemma {:induction false} SetFromTwice(v: PVec, a: seq<real>)
    ensures SetFrom(SetFrom(v, a), a) == SetFrom(v, a)
  {
  }

  /** Turning by an array and then by its negation restores the angles. */
  lemma {:induction false} TurnedByUndone(v: PVec, a: seq<real>)
    ensures TurnedBy(TurnedBy(v, a), Negated(a)) == v
  {
    if |a| >= 3 {
      var n := Negated(a);
      assert n[0] == -a[0] && n[1] == -a[1] && n[2] == -a[2];
    }
  }

  /** Turns by two arrays commute. */
  lemma {:induction false} TurnsCommute(v: PVec, a: seq<real>, b: seq<real>)
    ensures TurnedBy(TurnedBy(v, a), b) == TurnedBy(TurnedBy(v, b), a)
  {
  }

  /** The shape bits of a colour. */
  function Base(c: bv32): bv32
  {
    c & ShapeBits
  }

  /** The part bits of a colour. */
  function Low(c: bv32): bv32
  {
    c & 7
  }

  /** The colour of part i of the shape with base colour p. */
  function Colour(p: bv32, i: bv32): bv32
  {
    p + i
  }

  /** A base pick colour plus a part number splits back into the two: the
    * low three bits are the part and the rest the base. */
  lemma {:induction false} ColourSplits(p: bv32, i: bv32)
    requires Low(p) == 0 && i < 8
    ensures Low(Colour(p, i)) == i && Base(Colour(p, i)) == p
  {
  }

  /** A colour is its shape bits plus its part bits. */
  lemma {:induction false} ColourJoins(k: bv32)
    ensures k == Colour(Base(k), Low(k)) && Low(Base(k)) == 0 && Low(k) < 8
  {
  }

  /** The part a pick colour names: its low three bits as a number. */
  function PartOf(c: bv32): (part: int)
    ensures 0 <= part < 8
  {
    var low := Low(c);
    if low == 0 then 0 else if low == 1 then 1 else if low == 2 then 2 else if low == 3 then 3
    else if low == 4 then 4 else if low == 5 then 5 else if low == 6 then 6 else 7
  }

  /** The part number as the low bits it came from. */
  lemma {:induction false} PartOfBits(c: bv32)
    ensures PartOf(c) as bv32 == Low(c)
  {
  }

  /** The flag of part pn, as the setters compute it: 1 for part 0, and
    * each next one the last shifted left in 32-bit arithmetic. */
  function Flag(pn: nat): bv32
  {
    if pn == 0 then 1 else Doubled(Flag(pn - 1))
  }

  /** One step of the flag: shifted left by one bit. */
  function Doubled(flag: bv32): bv32
  {
    flag << 1
  }

  /** Below 32 the flag is the single bit pn; from 32 on it has shifted out
    * and is 0. */
  lemma {:induction false} FlagIsBit(pn: nat)
    ensures pn < 32 ==> Flag(pn) == (1 as bv32) << pn
    ensures pn >= 32 ==> Flag(pn) == 0
  {
    if 0 < pn <= 32 {
      FlagIsBit(pn - 1);
      ShiftOnce(pn - 1);
    } else if pn > 32 {
      FlagIsBit(pn - 1);
    }
  }

  /** Shifting the single bit k left once gives bit k + 1, or 0 from bit 31. */
  lemma ShiftOnce(k: nat)
    requires k < 32
    ensures Doubled((1 as bv32) << k) == if k < 31 then (1 as bv32) << (k + 1) else 0
  {
  }

  /** Part pn is selected by the mask when every bit of its flag is set in
    * it. */
  predicate Selected(mask: bv32, pn: nat)
  {
    Hits(mask, Flag(pn))
  }

  /** The setters' test: every bit of the flag is set in the mask. */
  predicate Hits(mask: bv32, flag: bv32)
  {
    flag == mask & flag
  }

  /** Every part from 32 on is selected by every mask. */
  lemma {:induction false} SelectedFrom32(mask: bv32, pn: nat)
    requires pn >= 32
    ensures Selected(mask, pn)
  {
    FlagIsBit(pn);
  }

  /** A part from 8 to 31 has a flag outside the eight part bits. */
  lemma {:induction false} FlagAboveEight(pn: nat)
    requires 8 <= pn < 32
    ensures Flag(pn) != 0 && Flag(pn) & ALL == 0
  {
    FlagIsBit(pn);
  }

  /** The flags of the eight parts that have pick colours. */
  lemma {:induction false} PartFlags()
    ensures Flag(0) == 1 && Flag(1) == 2 && Flag(2) == 4 && Flag(3) == 8
    ensures Flag(4) == 0x10 && Flag(5) == 0x20 && Flag(6) == 0x40 && Flag(7) == 0x80
  {
    assert Flag(1) == 2;
    assert Flag(2) == 4;
    assert Flag(3) == 8;
    assert Flag(4) == 0x10;
    assert Flag(5) == 0x20;
    assert Flag(6) == 0x40;
  }

  /** The flag a pick reports selects its own part and no other of the
    * eight. */
  lemma {:induction false} PickFlagSelectsPart(c: bv32, pn: nat)
    requires pn < 8
    ensures Selected(Flag(PartOf(c)), pn) <==> pn == PartOf(c)
  {
    PartFlags();
  }

  /** The parts after a setter: part pn is g applied to it when the mask
    * selects pn, and unchanged otherwise. */
  function Updated(ps: seq<PartState>, mask: bv32, g: PartState -> PartState): (r: seq<PartState>)
    ensures |r| == |ps|
    ensures forall i :: 0 <= i < |ps| ==> r[i] == UpdatedAt(ps, mask, g, i)
  {
    seq(|ps|, i requires 0 <= i < |ps| => UpdatedAt(ps, mask, g, i))
  }

  /** Part i after a setter. */
  function UpdatedAt(ps: seq<PartState>, mask: bv32, g: PartState -> PartState, i: nat): PartState
    requires i < |ps|
  {
    if Selected(mask, i) then g(ps[i]) else ps[i]
  }

  /** The updates of the four setters. */
  function WithTag(t: string): PartState -> PartState
  {
    (p: PartState) => p.(tag := t)
  }

  function WithDrawMode(m: int): PartState -> PartState
  {
    (p: PartState) => p.(drawMode := m)
  }

  function WithVisible(v: bool): PartState -> PartState
  {
    (p: PartState) => p.(visible := v)
  }

  function WithTexture(t: Texture): PartState -> PartState
  {
    (p: PartState) => p.(texture := t)
  }

  /** Setting the visibility of the same parts twice is setting it once. */
  lemma {:induction false} VisibleTwice(ps: seq<PartState>, mask: bv32, v: bool)
    ensures Updated(Updated(ps, mask, WithVisible(v)), mask, WithVisible(v)) == Updated(ps, mask, WithVisible(v))
  {
    var once := Updated(ps, mask, WithVisible(v));
    forall i | 0 <= i < |ps|
      ensures Updated(once, mask, WithVisible(v))[i] == once[i]
    {
      if Selected(mask, i) {
        assert once[i] == ps[i].(visible := v);
      }
    }
  }

  /** A mask trimmed by `use` selects none of the parts 8 to 31. */
  lemma {:induction false} UsedMaskStopsAtEight(mask: bv32, pn: nat)
    requires 8 <= pn < 32
    ensures !Selected(mask & ALL, pn)
  {
    FlagAboveEight(pn);
  }

  /** A colour as a key of the colour map. */
  datatype Key = Key(argb: bv32)

  /** The shape registered under colour c. */
  function ShapeAt(m: map<Key, Shape3D>, c: bv32): Shape3D
    requires Key(c) in m
  {
    m[Key(c)]
  }

  /** The pick a colour read back from the buffer stands for: the shape
    * registered under it, the part in its low bits and that part's flag. */
  function PickAt(m: map<Key, Shape3D>, c: bv32): (r: Option<Picked>)
  {
    if Key(c) in m then Some(Picked(ShapeAt(m, c).ref, PartOf(c), Flag(PartOf(c)))) else None
  }

  /** A pick names a registered shape, and that shape's pick colour plus
    * the picked part is the colour read. */
  lemma {:induction false} PickRoundTrip(reg: Registry, c: bv32)
    requires reg.Valid() && Key(c) in reg.colourMap
    ensures PickAt(reg.colourMap, c).Some?
    ensures ShapeAt(reg.colourMap, c).ref == PickAt(reg.colourMap, c).value.shape
    ensures Colour(ShapeAt(reg.colourMap, c).pickColor, PickAt(reg.colourMap, c).value.part as bv32) == c
  {
    ColourJoins(c);
    PartOfBits(c);
  }

  /** The static state shared by every shape. */
  class Registry {
    var nextPickColor: bv32
    var nextShapeNo: int
    var colourMap: map<Key, Shape3D>
    var shapesMade: seq<Shape3D>

    /** Every base colour has its low bits clear, and every colour in the
      * map belongs to the shape whose base colour is its shape bits. */
    ghost predicate Valid()
      reads this
    {
      Low(nextPickColor) == 0 && nextShapeNo >= 0 &&
      forall k :: k in colourMap ==> ShapeAt(colourMap, k.argb).pickColor == Base(k.argb)
    }

    /** The state before any shape is made. */
    constructor ()
      ensures Valid()
      ensures nextPickColor == FirstPickColor && nextShapeNo == 0 && colourMap == map[] && shapesMade == []
    {
      nextPickColor := FirstPickColor;
      nextShapeNo := 0;
      colourMap := map[];
      shapesMade := [];
    }

    /** `nextPickColor()`: 8 on from the last, with its low bits still
      * clear. */
    method NextPickColor() returns (c: bv32)
      requires Low(nextPickColor) == 0
      modifies this`nextPickColor
      ensures c == nextPickColor == old(nextPickColor) + 8
      ensures Low(c) == 0
    {
      nextPickColor := nextPickColor + 8;
      c := nextPickColor;
    }

    /** The next shape number. */
    method NextShapeNo() returns (n: int)
      modifies this`nextShapeNo
      ensures n == nextShapeNo == old(nextShapeNo) + 1
    {
      nextShapeNo := nextShapeNo + 1;
      n := nextShapeNo;
    }

    /** The constructor's registration loop: the eight colours of the
      * shape's base colour map to it, and every other entry is kept. */
    method RegisterColours(s: Shape3D)
      requires Low(s.pickColor) == 0
      modifies this`colourMap
      ensures forall k :: k in colourMap <==> k in old(colourMap) || Base(k.argb) == s.pickColor
      ensures forall k :: k in colourMap ==>
                colourMap[k] == if Base(k.argb) == s.pickColor then s else old(colourMap)[k]
    {
      var i: bv32 := 0;
      while i < 8
        invariant i <= 8
        invariant forall k :: k in colourMap <==> k in old(colourMap) || (Base(k.argb) == s.pickColor && Low(k.argb) < i)
        invariant forall k :: k in colourMap ==>
                    colourMap[k] == if Base(k.argb) == s.pickColor && Low(k.argb) < i then s else old(colourMap)[k]
      {
        var c := Colour(s.pickColor, i);
        ColourSplits(s.pickColor, i);
        colourMap := colourMap[Key(c) := s];
        forall k: Key | k.argb != c && Base(k.argb) == s.pickColor && Low(k.argb) < i + 1 ensures Low(k.argb) < i {
          ColourJoins(k.argb);
        }
        i := i + 1;
      }
      forall k: Key | Base(k.argb) == s.pickColor ensures Low(k.argb) < 8 {
        ColourJoins(k.argb);
      }
    }

    /** Adds a shape to the list of shapes made. */
    method AddShape(s: Shape3D)
      modifies this`shapesMade
      ensures shapesMade == old(shapesMade) + [s]
    {
      shapesMade := shapesMade + [s];
    }
  }

  /** Picking one pixel: the pick for the colour read there, or none when
    * no shape is registered under it. */
  method Pick(reg: Registry, c: bv32) returns (r: Option<Picked>)
    requires reg.Valid()
    ensures r.Some? <==> Key(c) in reg.colourMap
    ensures r.Some? ==> r.value.shape == ShapeAt(reg.colourMap, c).ref && r.value.part == PartOf(c) &&
                        r.value.partFlag == Flag(PartOf(c))
    ensures r.Some? ==> Colour(ShapeAt(reg.colourMap, c).pickColor, r.value.part as bv32) == c
  {
    r := None;
    if Key(c) in reg.colourMap {
      var shapePicked := ShapeAt(reg.colourMap, c);
      var shapePart := PartOf(c);
      var shapeFlag := Flag(shapePart);
      r := Some(Picked(shapePicked.ref, shapePart, shapeFlag));
      PickRoundTrip(reg, c);
    }
  }

  /** The pick at pixel (h, v) of a buffer of the given width, if any. */
  function PixelAt(m: map<Key, Shape3D>, pixels: seq<bv32>, width: int, h: int, v: int): Option<Picked>
  {
    if 0 <= h + v * width < |pixels| then PickAt(m, pixels[h + v * width]) else None
  }

  /** The picks of every pixel in a rectangle of the buffer. */
  ghost function Marquee(m: map<Key, Shape3D>, pixels: seq<bv32>, width: int,
                         left: int, top: int, right: int, bottom: int): set<Picked>
  {
    set h, v | left <= h <= right && top <= v <= bottom && PixelAt(m, pixels, width, h, v).Some? ::
      PixelAt(m, pixels, width, h, v).value
  }

  /** A row of the rectangle grows by one pixel at a time. */
  lemma {:induction false} MarqueeNextPixel(m: map<Key, Shape3D>, pixels: seq<bv32>, width: int,
                                           left: int, h: int, v: int)
    ensures Marquee(m, pixels, width, left, v, h, v) ==
            Marquee(m, pixels, width, left, v, h - 1, v) +
            (if left <= h && PixelAt(m, pixels, width, h, v).Some? then {PixelAt(m, pixels, width, h, v).value} else {})
  {
  }

  /** The rectangle grows by one row at a time. */
  lemma {:induction false} MarqueeNextRow(m: map<Key, Shape3D>, pixels: seq<bv32>, width: int,
                                         left: int, top: int, right: int, v: int)
    requires top <= v
    ensures Marquee(m, pixels, width, left, top, right, v) ==
            Marquee(m, pixels, width, left, top, right, v - 1) + Marquee(m, pixels, width, left, v, right, v)
  {
  }

  /** A pixel inside a width × height buffer has an index inside it. */
  lemma {:induction false} PixelIndexInside(width: int, height: int, h: int, v: int)
    requires 0 <= h < width && 0 <= v < height
    ensures 0 <= h + v * width < width * height
  {
    assert v * width <= (height - 1) * width;
  }

  /** One row of the marquee loop: the picks of the pixels from left to
    * right on row v are added. */
  method MarqueeRow(reg: Registry, pixels: seq<bv32>, width: int, height: int,
                    left: int, right: int, v: int, picked0: set<Picked>) returns (picked: set<Picked>)
    requires 0 <= left <= right < width && 0 <= v < height && |pixels| == width * height
    ensures picked == picked0 + Marquee(reg.colourMap, pixels, width, left, v, right, v)
  {
    ghost var m := reg.colourMap;
    picked := picked0;
    var vOffset := v * width;
    for h := left to right + 1
      invariant picked == picked0 + Marquee(m, pixels, width, left, v, h - 1, v)
    {
      PixelIndexInside(width, height, h, v);
      MarqueeNextPixel(m, pixels, width, left, h, v);
      var c := pixels[h + vOffset];
      if Key(c) in reg.colourMap {
        var shapePicked := ShapeAt(reg.colourMap, c);
        var shapePart := PartOf(c);
        var shapeFlag := Flag(shapePart);
        picked := picked + {Picked(shapePicked.ref, shapePart, shapeFlag)};
      }
    }
  }

  /** The marquee pick: nothing when the marquee misses the buffer, and
    * otherwise the picks of every pixel inside the marquee clipped to the
    * buffer, each once. The sort of the result is not modelled. */
  method MarqueePick(reg: Registry, pixels: seq<bv32>, width: int, height: int,
                     x0: int, y0: int, x1: int, y1: int) returns (picked: set<Picked>)
    requires width > 0 && height > 0 && |pixels| == width * height
    ensures var mq := Util.BoxBox(x0, y0, x1, y1, 0, 0, width - 1, height - 1);
            picked == if |mq| != 4 then {} else Marquee(reg.colourMap, pixels, width, mq[0], mq[1], mq[2], mq[3])
  {
    var marquee := Util.BoxBox(x0, y0, x1, y1, 0, 0, width - 1, height - 1);
    if |marquee| != 4 {
      return {};
    }
    ghost var buffer := Util.Normalised(0, 0, width - 1, height - 1);
    assert buffer.left == 0 && buffer.top == 0 && buffer.right == width - 1 && buffer.bottom == height - 1;
    ghost var m := reg.colourMap;
    picked := {};
    for v := marquee[1] to marquee[3] + 1
      invariant picked == Marquee(m, pixels, width, marquee[0], marquee[1], marquee[2], v - 1)
    {
      MarqueeNextRow(m, pixels, width, marquee[0], marquee[1], marquee[2], v);
      picked := MarqueeRow(reg, pixels, width, height, marquee[0], marquee[2], v, picked);
    }
  }

  /** Two flags merged: their bitwise OR. */
  function Or(f: bv32, flag: bv32): bv32
  {
    f | flag
  }

  /** No bit of `bits` is set in the flag. */
  predicate Clear(flag: bv32, bits: bv32)
  {
    flag & bits == 0
  }

  /** Merging a flag in twice is merging it once. */
  lemma {:induction false} OrIdempotent(f: bv32, x: bv32)
    ensures Or(Or(f, x), x) == Or(f, x)
  {
  }

  /** A flag already merged stays merged when another is merged in. */
  lemma {:induction false} OrKeeps(f: bv32, x: bv32, y: bv32)
    requires Or(f, y) == f
    ensures Or(Or(f, x), y) == Or(f, x)
  {
  }

  /** Merging two flags clear of some bits leaves them clear. */
  lemma {:induction false} OrClear(f: bv32, x: bv32, bits: bv32)
    requires Clear(f, bits) && Clear(x, bits)
    ensures Clear(Or(f, x), bits)
  {
  }

  /** The OR of the part flags of shape s's picks. */
  function FlagsOf(ps: seq<Picked>, s: ShapeRef): bv32
  {
    if ps == [] then 0
    else
      var last := ps[|ps| - 1];
      var f0 := FlagsOf(ps[..|ps| - 1], s);
      if last.shape == s then Or(f0, last.partFlag) else f0
  }

  /** The shapes of a list of picks. */
  function ShapesOf(ps: seq<Picked>): set<ShapeRef>
  {
    set i | 0 <= i < |ps| :: ps[i].shape
  }

  /** A shape with no picks has no flags. */
  lemma {:induction false} NoPicksNoFlags(ps: seq<Picked>, s: ShapeRef)
    requires s !in ShapesOf(ps)
    ensures FlagsOf(ps, s) == 0
    decreases |ps|
  {
    if ps != [] {
      var init := ps[..|ps| - 1];
      assert ShapesOf(init) <= ShapesOf(ps) by {
        forall i | 0 <= i < |init| ensures init[i].shape in ShapesOf(ps) {
          assert init[i] == ps[i];
        }
      }
      NoPicksNoFlags(init, s);
    }
  }

  /** The merged flag of a shape holds the flag of every one of its picks. */
  lemma {:induction false} FlagsHoldEachPick(ps: seq<Picked>, k: int)
    requires 0 <= k < |ps|
    ensures Or(FlagsOf(ps, ps[k].shape), ps[k].partFlag) == FlagsOf(ps, ps[k].shape)
    decreases |ps|
  {
    var init := ps[..|ps| - 1];
    var last := ps[|ps| - 1];
    var s := ps[k].shape;
    if k == |ps| - 1 {
      OrIdempotent(FlagsOf(init, s), last.partFlag);
    } else {
      assert init[k] == ps[k];
      FlagsHoldEachPick(init, k);
      if last.shape == s {
        OrKeeps(FlagsOf(init, s), last.partFlag, ps[k].partFlag);
      }
    }
  }

  /** The merged flag of a shape holds no bit that none of its picks has. */
  lemma {:induction false} FlagsOnlyFromPicks(ps: seq<Picked>, s: ShapeRef, bits: bv32)
    requires forall i :: 0 <= i < |ps| && ps[i].shape == s ==> Clear(ps[i].partFlag, bits)
    ensures Clear(FlagsOf(ps, s), bits)
    decreases |ps|
  {
    if ps == [] {
      assert Clear(0, bits);
    } else {
      var init := ps[..|ps| - 1];
      var last := ps[|ps| - 1];
      forall i | 0 <= i < |init| && init[i].shape == s ensures Clear(init[i].partFlag, bits) {
        assert init[i] == ps[i];
      }
      FlagsOnlyFromPicks(init, s, bits);
      if last.shape == s {
        OrClear(FlagsOf(init, s), last.partFlag, bits);
      }
    }
  }

  /** The shapes of a prefix grow by one pick at a time. */
  lemma {:induction false} ShapesOfNext(ps: seq<Picked>, n: int)
    requires 0 <= n < |ps|
    ensures ShapesOf(ps[..n + 1]) == ShapesOf(ps[..n]) + {ps[n].shape}
  {
    assert ps[..n + 1] == ps[..n] + [ps[n]];
    assert ps[..n + 1][n] == ps[n];
    forall t | t in ShapesOf(ps[..n + 1]) ensures t in ShapesOf(ps[..n]) + {ps[n].shape} {
      var i :| 0 <= i < n + 1 && ps[..n + 1][i].shape == t;
      if i < n {
        assert ps[..n][i] == ps[..n + 1][i];
      }
    }
    forall t | t in ShapesOf(ps[..n]) ensures t in ShapesOf(ps[..n + 1]) {
      var i :| 0 <= i < n && ps[..n][i].shape == t;
      assert ps[..n + 1][i] == ps[..n][i];
    }
  }

  /** `mergePicks`: one pick per shape picked, with part -1 and the OR of
    * the part flags of all that shape's picks. The order of the result
    * (a hash map's) is not specified; here it is the order in which the
    * shapes first appear. */
  method MergePicks(picked: seq<Picked>) returns (result: seq<Picked>)
    ensures forall i :: 0 <= i < |result| ==>
              result[i].part == -1 && result[i].partFlag == FlagsOf(picked, result[i].shape)
    ensures forall i, j :: 0 <= i < j < |result| ==> result[i].shape != result[j].shape
    ensures ShapesOf(result) == ShapesOf(picked)
  {
    var flags: map<ShapeRef, bv32> := map[];
    var order: seq<ShapeRef> := [];
    for n := 0 to |picked|
      invariant flags.Keys == ShapesOf(picked[..n])
      invariant forall t :: t in flags <==> t in order
      invariant forall i, j :: 0 <= i < j < |order| ==> order[i] != order[j]
      invariant forall t :: t in flags ==> flags[t] == FlagsOf(picked[..n], t)
    {
      var p := picked[n];
      ShapesOfNext(picked, n);
      assert picked[..n + 1][..n] == picked[..n];
      assert picked[..n + 1][n] == p;
      var f;
      if p.shape in flags {
        f := Or(flags[p.shape], p.partFlag);
      } else {
        NoPicksNoFlags(picked[..n], p.shape);
        f := p.partFlag;
        order := order + [p.shape];
      }
      flags := flags[p.shape := f];
    }
    assert picked[..|picked|] == picked;
    result := [];
    for i := 0 to |order|
      invariant |result| == i
      invariant forall k :: 0 <= k < i ==> result[k] == Picked(order[k], -1, flags[order[k]])
    {
      result := result + [Picked(order[i], -1, flags[order[i]])];
    }
    forall t | t in ShapesOf(picked) ensures t in ShapesOf(result) {
      var k :| 0 <= k < |order| && order[k] == t;
      assert result[k].shape == t;
    }
  }

  class Shape3D {
    const pickColor: bv32
    const tagNo: int
    const ref: ShapeRef
    var parts: seq<PartState>
    var useParts: bv32
    var pos: PVec
    var rot: PVec

    /** The constructor: the next pick colour and shape number, the eight
      * colours registered to this shape and the shape added to the list
      * made; every other colour keeps its shape. */
    constructor (reg: Registry, hash: Int32, parts: seq<PartState>)
      requires reg.Valid()
      modifies reg
      ensures reg.Valid()
      ensures pickColor == reg.nextPickColor == old(reg.nextPickColor) + 8
      ensures tagNo == reg.nextShapeNo == old(reg.nextShapeNo) + 1 && ref == ShapeRef(tagNo, hash)
      ensures forall i: bv32 :: i < 8 ==> Key(Colour(pickColor, i)) in reg.colourMap && reg.colourMap[Key(Colour(pickColor, i))] == this
      ensures forall k :: k in old(reg.colourMap) && Base(k.argb) != pickColor ==>
                k in reg.colourMap && reg.colourMap[k] == old(reg.colourMap[k])
      ensures reg.shapesMade == old(reg.shapesMade) + [this]
      ensures this.parts == parts && useParts == ALL && pos == Zero && rot == Zero
    {
      var pc := reg.NextPickColor();
      var no := reg.NextShapeNo();
      pickColor := pc;
      tagNo := no;
      ref := ShapeRef(no, hash);
      this.parts := parts;
      useParts := ALL;
      pos := Zero;
      rot := Zero;
      new;
      reg.RegisterColours(this);
      reg.AddShape(this);
      forall i: bv32 | i < 8 ensures Base(Colour(pickColor, i)) == pickColor {
        ColourSplits(pickColor, i);
      }
    }

    /** `use(parts)`: the default mask, trimmed to the eight part bits. */
    method Use(mask: bv32)
      modifies this`useParts
      ensures useParts == mask & ALL
      ensures forall pn :: 8 <= pn < 32 ==> !Selected(useParts, pn)
    {
      useParts := mask & ALL;
      forall pn | 8 <= pn < 32 ensures !Selected(useParts, pn) {
        UsedMaskStopsAtEight(mask, pn);
      }
    }

    /** The part-flag loop every per-part setter runs: g is applied to the
      * selected parts and the others are left alone. */
    method ForParts(mask: bv32, g: PartState -> PartState)
      modifies this`parts
      ensures parts == Updated(old(parts), mask, g)
    {
      var ps := parts;
      var pn := 0;
      var flag: bv32 := 1;
      while pn < |ps|
        invariant 0 <= pn <= |ps| == |parts|
        invariant flag == Flag(pn)
        invariant forall i :: 0 <= i < pn ==> ps[i] == UpdatedAt(parts, mask, g, i)
        invariant forall i :: pn <= i < |ps| ==> ps[i] == parts[i]
      {
        if Hits(mask, flag) {
          ps := ps[pn := g(ps[pn])];
        }
        flag := Doubled(flag);
        pn := pn + 1;
      }
      parts := ps;
    }

    /** `tag(tag, parts)`. */
    method Tag(t: string, mask: bv32)
      modifies this`parts
      ensures parts == Updated(old(parts), mask, WithTag(t))
    {
      ForParts(mask, WithTag(t));
    }

    /** `drawMode(mode, parts)`. */
    method DrawMode(mode: int, mask: bv32)
      modifies this`parts
      ensures parts == Updated(old(parts), mask, WithDrawMode(mode))
    {
      ForParts(mask, WithDrawMode(mode));
    }

    /** `visible(visible, parts)`. */
    method Visible(v: bool, mask: bv32)
      modifies this`parts
      ensures parts == Updated(old(parts), mask, WithVisible(v))
    {
      ForParts(mask, WithVisible(v));
    }

    /** `visible(visible)`: the parts of the default mask. */
    method VisibleUsed(v: bool)
      modifies this`parts
      ensures parts == Updated(old(parts), useParts, WithVisible(v))
    {
      Visible(v, useParts);
    }

    /** `texture(texture, parts)`. */
    method SetTexture(t: Texture, mask: bv32)
      modifies this`parts
      ensures parts == Updated(old(parts), mask, WithTexture(t))
    {
      ForParts(mask, WithTexture(t));
    }

    /** `moveTo(xyz)`: the first three values, or no change for a shorter
      * array. */
    method MoveToArray(xyz: seq<real>)
      modifies this`pos
      ensures pos == SetFrom(old(pos), xyz)
    {
      if |xyz| >= 3 {
        pos := PVec(xyz[0], xyz[1], xyz[2]);
      }
    }

    /** `rotateTo(angles)`: the first three values, or no change for a
      * shorter array. */
    method RotateToArray(angles: seq<real>)
      modifies this`rot
      ensures rot == SetFrom(old(rot), angles)
    {
      if |angles| >= 3 {
        rot := PVec(angles[0], angles[1], angles[2]);
      }
    }

    /** `rotateBy(x, y, z)`: each angle added to its axis. */
    method RotateBy(x: real, y: real, z: real)
      modifies this`rot
      ensures rot == Add(old(rot), PVec(x, y, z))
    {
      rot := PVec(rot.x + x, rot.y + y, rot.z + z);
    }

    /** `rotateBy(angle)`: the first three values added, or no change for a
      * shorter array. */
    method RotateByArray(angle: seq<real>)
      modifies this`rot
      ensures rot == TurnedBy(old(rot), angle)
    {
      if |angle| >= 3 {
        rot := PVec(rot.x + angle[0], rot.y + angle[1], rot.z + angle[2]);
      }
    }
  }
}
