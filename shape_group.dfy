/**
 * Shapes3D's ShapeGroup: a list of child shapes that is moved and rotated
 * as one, with its own position and rotation.
 *
 * `addChild` takes Java varargs, so the argument list itself may be null
 * and so may any element of it; only the non-null shapes are appended, in
 * the order given. `visible` sets the visibility of the parts each child
 * currently uses. A shape may be added to a group more than once; setting
 * its visibility a second time changes nothing more.
 */
module Groups {

  import opened Vectors
  import opened Shapes

  /** The shapes present in a varargs list, in order. */
  function Present(ss: seq<Option<Shape3D>>): (r: seq<Shape3D>)
    ensures |r| <= |ss|
  {
    if ss == [] then []
    else
      var init := Present(ss[..|ss| - 1]);
      if ss[|ss| - 1].Some? then init + [ss[|ss| - 1].value] else init
  }

  /** The shapes a whole varargs argument adds: none for a null list. */
  function Added(arg: Option<seq<Option<Shape3D>>>): seq<Shape3D>
  {
    if arg.Some? then Present(arg.value) else []
  }

  /** A shape is among those present exactly when it is a non-null element
    * of the list. */
  lemma {:induction false} PresentExactly(ss: seq<Option<Shape3D>>, s: Shape3D)
    ensures s in Present(ss) <==> Some(s) in ss
    decreases |ss|
  {
    if ss != [] {
      var init := ss[..|ss| - 1];
      PresentExactly(init, s);
      assert ss == init + [ss[|ss| - 1]];
    }
  }

  /** Filtering keeps the order of concatenated lists. */
  lemma {:induction false} PresentAppend(a: seq<Option<Shape3D>>, b: seq<Option<Shape3D>>)
    ensures Present(a + b) == Present(a) + Present(b)
    decreases |b|
  {
    if b != [] {
      var binit := b[..|b| - 1];
      assert (a + b)[..|a + b| - 1] == a + binit;
      assert (a + b)[|a + b| - 1] == b[|b| - 1];
      PresentAppend(a, binit);
    } else {
      assert a + b == a;
    }
  }

  /** A list with no shapes in it adds nothing. */
  lemma {:induction false} AllNullAddsNothing(ss: seq<Option<Shape3D>>)
    requires forall i :: 0 <= i < |ss| ==> ss[i].None?
    ensures Present(ss) == []
    decreases |ss|
  {
    if ss != [] {
      AllNullAddsNothing(ss[..|ss| - 1]);
    }
  }

  class ShapeGroup {
    var pos: PVec
    var rot: PVec
    var children: seq<Shape3D>

    /** An empty group at the origin, unrotated. */
    constructor ()
      ensures pos == Zero && rot == Zero && children == []
    {
      pos := Zero;
      rot := Zero;
      children := [];
    }

    /** `addChild(sub_shapes...)`: the non-null shapes appended in order. */
    method AddChild(arg: Option<seq<Option<Shape3D>>>)
      modifies this`children
      ensures children == old(children) + Added(arg)
    {
      if arg.Some? && |arg.value| > 0 {
        var ss := arg.value;
        for i := 0 to |ss|
          invariant children == old(children) + Present(ss[..i])
        {
          assert ss[..i + 1][..i] == ss[..i];
          if ss[i].Some? {
            children := children + [ss[i].value];
          }
        }
        assert ss[..|ss|] == ss;
      }
    }

    /** `children()`: the children in order. */
    method Children() returns (cs: seq<Shape3D>)
      ensures |cs| == |children| && forall i :: 0 <= i < |cs| ==> cs[i] == children[i]
    {
      cs := children;
    }

    /** `child(n)`: null exactly when n is not a position in the list. */
    method Child(n: int) returns (r: Option<Shape3D>)
      ensures r.None? <==> n < 0 || n >= |children|
      ensures r.Some? ==> r.value == children[n]
    {
      if n < 0 || n >= |children| {
        r := None;
      } else {
        r := Some(children[n]);
      }
    }

    /** `visible(visible)`: every child's parts of its default mask are made
      * visible or invisible; nothing else of a child changes. */
    method Visible(v: bool)
      modifies set c | c in children
      ensures forall c :: c in children ==>
                c.parts == Updated(old(c.parts), c.useParts, WithVisible(v)) && c.useParts == old(c.useParts) &&
                c.pos == old(c.pos) && c.rot == old(c.rot)
    {
      for i := 0 to |children|
        invariant forall c :: c in children ==>
                    c.useParts == old(c.useParts) && c.pos == old(c.pos) && c.rot == old(c.rot)
        invariant forall c :: c in children ==>
                    c.parts == if c in children[..i] then Updated(old(c.parts), c.useParts, WithVisible(v)) else old(c.parts)
      {
        var s := children[i];
        if s in children[..i] {
          VisibleTwice(old(s.parts), s.useParts, v);
        }
        s.VisibleUsed(v);
        assert children[..i + 1] == children[..i] + [s];
      }
      assert children[..|children|] == children;
    }

    /** `moveTo(x, y, z)`. */
    method MoveTo(x: real, y: real, z: real)
      modifies this`pos
      ensures pos == PVec(x, y, z)
    {
      pos := PVec(x, y, z);
    }

    /** `moveTo(xyz)`: ignored for fewer than three values. */
    method MoveToArray(xyz: seq<real>)
      modifies this`pos
      ensures pos == SetFrom(old(pos), xyz)
    {
      if |xyz| >= 3 {
        pos := PVec(xyz[0], xyz[1], xyz[2]);
      }
    }

    /** `rotateTo(angles)`: ignored for fewer than three values. */
    method RotateToArray(angles: seq<real>)
      modifies this`rot
      ensures rot == SetFrom(old(rot), angles)
    {
      if |angles| >= 3 {
        rot := PVec(angles[0], angles[1], angles[2]);
      }
    }

    /** `rotateBy(x, y, z)`: each angle added to its axis. */
    method RotateBy(x: real, y: real, z: real)
      modifies this`rot
      ensures rot == Add(old(rot), PVec(x, y, z))
    {
      rot := PVec(rot.x + x, rot.y + y, rot.z + z);
    }

    /** `rotateBy(angle)`: ignored for fewer than three values. */
    method RotateByArray(angle: seq<real>)
      modifies this`rot
      ensures rot == TurnedBy(old(rot), angle)
    {
      if |angle| >= 3 {
        rot := PVec(rot.x + angle[0], rot.y + angle[1], rot.z + angle[2]);
      }
    }
  }
}
