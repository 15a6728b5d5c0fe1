/**
 * Shapes3D's SkyBox: a cube of side `size` drawn with a texture, turned so
 * that +y is up, and textured from one composite image laid out as
 *
 *        top
 *   left front right back
 *        bottom
 *
 * in a 4 × 3 grid of cells of width/4 × height/3 pixels (integer
 * division). The orientation the constructor asks for has origin
 * (0, zero_pos, 0) and up direction (0, -1, 0); making an orientation from
 * those two vectors is the `orient` parameter.
 */
module Sky {

  import opened Vectors
  import opened Shapes
  import Box
  import Picking

  /** An image: its identity and size in pixels. */
  datatype Image = Image(id: nat, width: nat, height: nat)

  /** The grid cell (column, row) of face pn's texture, in the face order
    * bottom, top, front, back, left, right. */
  function Cell(pn: int): (int, int)
    requires 0 <= pn < 6
  {
    [(1, 2), (1, 0), (1, 1), (3, 1), (0, 1), (2, 1)][pn]
  }

  /** The region of the image that face pn is textured with. */
  function Crop(img: Image, pn: int): Texture
    requires 0 <= pn < 6
  {
    var dw, dh := img.width / 4, img.height / 3;
    Region(img.id, Cell(pn).0 * dw, Cell(pn).1 * dh, dw, dh)
  }

  /** Every crop lies inside the image. */
  lemma {:induction false} CropInside(img: Image, pn: int)
    requires 0 <= pn < 6
    ensures var r := Crop(img, pn);
            r.image == img.id && 0 <= r.x && r.x + r.w <= img.width && 0 <= r.y && r.y + r.h <= img.height
  {
    var dw, dh := img.width / 4, img.height / 3;
    assert 4 * dw <= img.width && 3 * dh <= img.height;
  }

  /** Two different faces are textured from non-overlapping crops. */
  lemma {:induction false} CropsDisjoint(img: Image, p: int, q: int)
    requires 0 <= p < 6 && 0 <= q < 6 && p != q
    ensures var a, b := Crop(img, p), Crop(img, q);
            a.x + a.w <= b.x || b.x + b.w <= a.x || a.y + a.h <= b.y || b.y + b.h <= a.y
  {
  }

  /** Texturing the parts selected by face pn's flag textures that face
    * alone. */
  lemma {:induction false} FaceTextured(ps: seq<PartState>, pn: int, t: Texture)
    requires |ps| == 6 && 0 <= pn < 6
    ensures Updated(ps, Flag(pn), WithTexture(t)) == ps[pn := ps[pn].(texture := t)]
  {
    var r := Updated(ps, Flag(pn), WithTexture(t));
    forall i | 0 <= i < 6 ensures r[i] == ps[pn := ps[pn].(texture := t)][i] {
      FlagSelectsOnly(pn, i);
    }
  }

  /** The shape and the box of a new skybox. */
  method Build(reg: Registry, hash: Picking.Int32, size: real, o: Orientation) returns (s: Shape3D, b: Box.Box)
    requires reg.Valid()
    modifies reg
    ensures fresh(s) && reg.Valid()
    ensures b.w == size && b.h == size && b.d == size && b.orientation == o && b.pickColor == s.pickColor
    ensures |s.parts| == 6 && forall pn :: 0 <= pn < 6 ==> s.parts[pn] == NewPart.(tag := Box.FaceTags[pn], drawMode := TEXTURE)
  {
    s := new Shape3D(reg, hash, seq(6, pn requires 0 <= pn < 6 => NewPart.(tag := Box.FaceTags[pn])));
    b := new Box.Box(size, size, size, o, s.pickColor);
    s.DrawMode(TEXTURE, s.useParts);
    forall pn | 0 <= pn < 6 ensures Selected(ALL, pn) {
      AllSelects(pn);
    }
  }

  class SkyBox {
    const origin: PVec
    const up: PVec
    const shape: Shape3D
    const box: Box.Box

    /** A skybox has the six faces of a box. */
    ghost predicate Valid()
      reads this, shape
    {
      |shape.parts| == 6
    }

    /** `SkyBox(size, zero_pos)`: a cube of side size, every face drawn
      * with a texture. */
    constructor (reg: Registry, hash: Picking.Int32, size: real, zeroPos: real, orient: (PVec, PVec) -> Orientation)
      requires reg.Valid()
      modifies reg
      ensures Valid() && reg.Valid() && fresh(shape)
      ensures origin == PVec(0.0, zeroPos, 0.0) && up == PVec(0.0, -1.0, 0.0)
      ensures box.w == size && box.h == size && box.d == size && box.orientation == orient(origin, up)
      ensures box.pickColor == shape.pickColor
      ensures forall pn :: 0 <= pn < 6 ==> shape.parts[pn] == NewPart.(tag := Box.FaceTags[pn], drawMode := TEXTURE)
    {
      origin := PVec(0.0, zeroPos, 0.0);
      up := PVec(0.0, -1.0, 0.0);
      var s, b := Build(reg, hash, size, orient(PVec(0.0, zeroPos, 0.0), PVec(0.0, -1.0, 0.0)));
      shape := s;
      box := b;
    }

    /** `SkyBox(size)`: the mid-height of the box at height zero. */
    constructor Sized(reg: Registry, hash: Picking.Int32, size: real, orient: (PVec, PVec) -> Orientation)
      requires reg.Valid()
      modifies reg
      ensures Valid() && reg.Valid() && fresh(shape)
      ensures origin == Zero && up == PVec(0.0, -1.0, 0.0)
      ensures box.w == size && box.h == size && box.d == size && box.orientation == orient(origin, up)
      ensures box.pickColor == shape.pickColor
      ensures forall pn :: 0 <= pn < 6 ==> shape.parts[pn] == NewPart.(tag := Box.FaceTags[pn], drawMode := TEXTURE)
    {
      origin := Zero;
      up := PVec(0.0, -1.0, 0.0);
      var s, b := Build(reg, hash, size, orient(Zero, PVec(0.0, -1.0, 0.0)));
      shape := s;
      box := b;
    }

    /** One call of `texture(image, part)` with the flag of face pn: that
      * face alone takes the texture. */
    method TextureFace(t: Texture, mask: bv32, ghost pn: int)
      requires Valid() && 0 <= pn < 6 && mask == Flag(pn)
      modifies shape`parts
      ensures Valid() && shape.parts == old(shape.parts)[pn := old(shape.parts)[pn].(texture := t)]
    {
      FaceTextured(shape.parts, pn, t);
      shape.SetTexture(t, mask);
    }

    /** `texture(image)`: each face textured with its cell of the composite
      * image; nothing else of the faces changes. */
    method Texture(img: Image)
      requires Valid()
      modifies shape`parts
      ensures Valid()
      ensures forall pn :: 0 <= pn < 6 ==> shape.parts[pn] == old(shape.parts[pn]).(texture := Crop(img, pn))
    {
      var dw := img.width / 4;
      var dh := img.height / 3;
      PartFlags();
      TextureFace(Region(img.id, dw, 0, dw, dh), TOP, 1);
      TextureFace(Region(img.id, 0, dh, dw, dh), LEFT, 4);
      TextureFace(Region(img.id, dw, dh, dw, dh), FRONT, 2);
      TextureFace(Region(img.id, 2 * dw, dh, dw, dh), RIGHT, 5);
      TextureFace(Region(img.id, 3 * dw, dh, dw, dh), BACK, 3);
      TextureFace(Region(img.id, dw, 2 * dh, dw, dh), BOTTOM, 0);
      assert Crop(img, 0) == Region(img.id, dw, 2 * dh, dw, dh);
      assert Crop(img, 1) == Region(img.id, dw, 0, dw, dh);
      assert Crop(img, 2) == Region(img.id, dw, dh, dw, dh);
      assert Crop(img, 3) == Region(img.id, 3 * dw, dh, dw, dh);
      assert Crop(img, 4) == Region(img.id, 0, dh, dw, dh);
      assert Crop(img, 5) == Region(img.id, 2 * dw, dh, dw, dh);
    }
  }
}
