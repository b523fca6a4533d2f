/**
 * The decal placement resolver: where `updateImageTransform` puts a decal's
 * group (anchor and orientation on one face of the box) and its mesh (the
 * in-plane offset, scale and spin) for a box configuration and a decal
 * configuration. Orientations are exact: Euler angles in quarter turns.
 */
module DecalPlacement {
  import opened BoxGeometry

  /** The face a decal is attached to, as the face selector names it; any
      other name is kept verbatim. */
  datatype Face = Front | Back | Left | Right | Top | OtherFace(name: string)

  const FaceNames: set<string> := {"front", "back", "left", "right", "top"}

  function FaceName(f: Face): string
  {
    match f
    case Front => "front"
    case Back => "back"
    case Left => "left"
    case Right => "right"
    case Top => "top"
    case OtherFace(name) => name
  }

  /** Reads the value of the face selector. */
  function ParseFace(s: string): (f: Face)
    ensures FaceName(f) == s
    ensures f.OtherFace? <==> s !in FaceNames
  {
    if s == "front" then Front
    else if s == "back" then Back
    else if s == "left" then Left
    else if s == "right" then Right
    else if s == "top" then Top
    else OtherFace(s)
  }

  /** An `OtherFace` never carries one of the five names. */
  predicate Canonical(f: Face)
  {
    f.OtherFace? ==> f.name !in FaceNames
  }

  lemma NameThenParse(f: Face)
    requires Canonical(f)
    ensures ParseFace(FaceName(f)) == f
  {
  }

  /** `getFaceLabel`: the Vietnamese label of a face for the decal list; a
      name with no label is shown as it is. */
  function FaceLabel(f: Face): (shown: string)
    ensures f.OtherFace? ==> shown == f.name
    ensures !f.OtherFace? ==> |shown| > 0 && shown != FaceName(f)
  {
    match f
    case Front => "Tr\U{01B0}\U{1EDB}c"
    case Back => "Sau"
    case Left => "Tr\U{00E1}i"
    case Right => "Ph\U{1EA3}i"
    case Top => "N\U{1EAF}p"
    case OtherFace(name) => name
  }

  /** The five faces get five different labels. */
  lemma LabelsDistinct(f: Face, g: Face)
    requires !f.OtherFace? && !g.OtherFace? && f != g
    ensures FaceLabel(f) != FaceLabel(g)
  {
    var lf, lg := FaceLabel(f), FaceLabel(g);
    if |lf| == |lg| {
      if {f, g} == {Front, Top} {
        assert lf[0] != lg[0];
      } else if {f, g} == {Left, Right} {
        assert lf[0] != lg[0];
      } else if {f, g} == {Front, Left} {
        assert lf[2] != lg[2];
      } else if {f, g} == {Back, Top} {
        assert lf[0] != lg[0];
      }
    }
  }

  /** A decal's own settings: face, in-plane offset, uniform scale and
      rotation in degrees. */
  datatype DecalConfig = DecalConfig(face: Face, x: real, y: real, scale: real, rotate: real)

  /** The settings a newly added decal starts with. */
  const DefaultDecalConfig: DecalConfig := DecalConfig(Front, 0.0, 0.0, 1.0, 0.0)

  /** Euler angles about x, y and z, applied in three.js's default XYZ order,
      each a whole number of quarter turns. */
  datatype Turns = Turns(x: int, y: int, z: int)

  const NoTurn: Turns := Turns(0, 0, 0)

  /** The decal's pose: the group's position and orientation, then the mesh's
      position, scale and rotation about its normal (in degrees) inside the
      group. The mesh is never rotated about x or y. */
  datatype Placement = Placement(anchor: Vec3, orientation: Turns, offset: Vec3, scale: Vec3, spinDegrees: real)

  /** Distance between a decal and the surface it sits on. */
  const Standoff: real := 0.05

  /** Anchor of each face: the centre of the face pushed out by the standoff;
      the origin for a face with no anchor. */
  function FaceAnchor(c: BoxConfig, f: Face): (a: Vec3)
    ensures f == Front || f == Back || f.OtherFace? ==> a.x == 0.0 && a.y == 0.0
    ensures f == Left || f == Right || f == Top || f.OtherFace? ==> a.z == 0.0
    ensures f != Top ==> a.y == 0.0
    ensures f == Top ==> a.x == 0.0
  {
    var w, h, l := c.width, c.height, c.length;
    match f
    case Front => Vec3(0.0, 0.0, l / 2.0 + Standoff)
    case Back => Vec3(0.0, 0.0, -l / 2.0 - Standoff)
    case Left => Vec3(-w / 2.0 - Standoff, 0.0, 0.0)
    case Right => Vec3(w / 2.0 + Standoff, 0.0, 0.0)
    case Top => Vec3(0.0, h / 2.0 + 3.0 + Standoff, 0.0)
    case OtherFace(_) => Origin
  }

  /** Orientation of each face: a half turn of yaw for the back, a quarter
      turn either way for the sides, a quarter turn of pitch down for the top. */
  function FaceTurns(f: Face): (t: Turns)
    ensures t.z == 0
    ensures f == Top <==> t.x != 0
    ensures f == Front || f.OtherFace? <==> t == NoTurn
  {
    match f
    case Front => NoTurn
    case Back => Turns(0, 2, 0)
    case Left => Turns(0, -1, 0)
    case Right => Turns(0, 1, 0)
    case Top => Turns(-1, 0, 0)
    case OtherFace(_) => NoTurn
  }

  /** `updateImageTransform`: reset the group, give it the anchor and the
      orientation of the face, then set the mesh's local transform. */
  function Resolve(c: BoxConfig, d: DecalConfig): (p: Placement)
    ensures p.offset.z == 0.0 && p.scale.z == 1.0 && p.scale.x == p.scale.y == d.scale
    ensures p.spinDegrees == -d.rotate
    ensures d.face.OtherFace? ==> p.anchor == Origin && p.orientation == NoTurn
  {
    Placement(FaceAnchor(c, d.face), FaceTurns(d.face), Vec3(d.x, d.y, 0.0), Vec3(d.scale, d.scale, 1.0), -d.rotate)
  }

  // Exact rotations by whole quarter turns, right-handed as in three.js: a
  // quarter turn permutes two coordinates and negates one of them.

  function RotateX(q: int, v: Vec3): Vec3
  {
    var r := q % 4;
    if r == 0 then v
    else if r == 1 then Vec3(v.x, -v.z, v.y)
    else if r == 2 then Vec3(v.x, -v.y, -v.z)
    else Vec3(v.x, v.z, -v.y)
  }

  function RotateY(q: int, v: Vec3): Vec3
  {
    var r := q % 4;
    if r == 0 then v
    else if r == 1 then Vec3(v.z, v.y, -v.x)
    else if r == 2 then Vec3(-v.x, v.y, -v.z)
    else Vec3(-v.z, v.y, v.x)
  }

  function RotateZ(q: int, v: Vec3): Vec3
  {
    var r := q % 4;
    if r == 0 then v
    else if r == 1 then Vec3(-v.y, v.x, v.z)
    else if r == 2 then Vec3(-v.x, -v.y, v.z)
    else Vec3(v.y, -v.x, v.z)
  }

  /** A direction of the group's own frame, seen in the box's frame. */
  function Orient(t: Turns, v: Vec3): Vec3
  {
    RotateX(t.x, RotateY(t.y, RotateZ(t.z, v)))
  }

  function Plus(a: Vec3, b: Vec3): Vec3 { Vec3(a.x + b.x, a.y + b.y, a.z + b.z) }
  function Minus(a: Vec3, b: Vec3): Vec3 { Vec3(a.x - b.x, a.y - b.y, a.z - b.z) }
  function Negate(a: Vec3): Vec3 { Vec3(-a.x, -a.y, -a.z) }
  function DotProduct(a: Vec3, b: Vec3): real { a.x * b.x + a.y * b.y + a.z * b.z }
  function Cross(a: Vec3, b: Vec3): Vec3
  {
    Vec3(a.y * b.z - a.z * b.y, a.z * b.x - a.x * b.z, a.x * b.y - a.y * b.x)
  }

  const UnitX: Vec3 := Vec3(1.0, 0.0, 0.0)
  const UnitY: Vec3 := Vec3(0.0, 1.0, 0.0)
  const UnitZ: Vec3 := Vec3(0.0, 0.0, 1.0)

  /** Outward unit normal of each addressable face of the box. */
  function Normal(f: Face): Vec3
    requires !f.OtherFace?
  {
    match f
    case Front => UnitZ
    case Back => Vec3(0.0, 0.0, -1.0)
    case Left => Vec3(-1.0, 0.0, 0.0)
    case Right => UnitX
    case Top => UnitY
  }

  /** The solid whose surface carries decals on a face: the lid for the top,
      the body for the four sides. */
  function Carrier(m: BoxModel, f: Face): Part
    requires |m.parts| >= 2 && !f.OtherFace?
  {
    if f == Top then m.parts[1] else m.parts[0]
  }

  /** Centre of the face of a cuboid part whose outward normal is an axis direction n. */
  function FaceCentre(p: Part, n: Vec3): Vec3
    requires p.shape.Cuboid?
  {
    Plus(p.position, Vec3(n.x * p.shape.size.x / 2.0, n.y * p.shape.size.y / 2.0, n.z * p.shape.size.z / 2.0))
  }

  /** Where the centre of the decal image ends up in the box's frame. */
  function DecalCentre(p: Placement): Vec3
  {
    Plus(p.anchor, Orient(p.orientation, p.offset))
  }

  /** What each face's orientation does to a direction of the decal's frame. */
  lemma {:induction false} FaceTurnsAct(f: Face, v: Vec3)
    ensures Orient(FaceTurns(f), v) ==
      match f
      case Back => Vec3(-v.x, v.y, -v.z)
      case Left => Vec3(-v.z, v.y, v.x)
      case Right => Vec3(v.z, v.y, -v.x)
      case Top => Vec3(v.x, v.z, -v.y)
      case _ => v
  {
  }

  /** On each of the five faces the decal's plane faces outwards, and the
      image stands upright on the four sides (on the top its upper edge points
      to the back). */
  lemma DecalFacesOutward(f: Face)
    requires !f.OtherFace?
    ensures Orient(FaceTurns(f), UnitZ) == Normal(f)
    ensures f != Top ==> Orient(FaceTurns(f), UnitY) == UnitY
    ensures f == Top ==> Orient(FaceTurns(f), UnitY) == Vec3(0.0, 0.0, -1.0)
  {
    FaceTurnsAct(f, UnitY);
    FaceTurnsAct(f, UnitZ);
  }

  /** The image is not mirrored: for a viewer in front of the face, its right
      edge lies to the right of its upper edge. */
  lemma DecalNotMirrored(f: Face)
    requires !f.OtherFace?
    ensures Orient(FaceTurns(f), UnitX) == Cross(Orient(FaceTurns(f), UnitY), Normal(f))
  {
    FaceTurnsAct(f, UnitX);
    FaceTurnsAct(f, UnitY);
  }

  /** Each anchor is the centre of the surface that carries the decal (the
      lid's top for `top`, so the literal 3 there is the lid height) moved out
      along the face's normal by the standoff. */
  lemma AnchorOnSurface(c: BoxConfig, f: Face)
    requires !f.OtherFace?
    ensures var m, n := BuildBox(c), Normal(f);
      |m.parts| >= 2 && Carrier(m, f).shape.Cuboid? &&
      FaceAnchor(c, f) == Plus(FaceCentre(Carrier(m, f), n), Vec3(Standoff * n.x, Standoff * n.y, Standoff * n.z))
  {
    BodyAndLid(c);
  }

  /** The offset moves the decal inside its face's plane only: whatever x and y
      are, the decal's centre stays at the standoff distance from the surface. */
  lemma OffsetStaysInFacePlane(c: BoxConfig, d: DecalConfig)
    requires !d.face.OtherFace?
    ensures var p, m, n := Resolve(c, d), BuildBox(c), Normal(d.face);
      |m.parts| >= 2 && Carrier(m, d.face).shape.Cuboid? &&
      DotProduct(Minus(DecalCentre(p), FaceCentre(Carrier(m, d.face), n)), n) == Standoff
  {
    AnchorOnSurface(c, d.face);
    FaceTurnsAct(d.face, Vec3(d.x, d.y, 0.0));
  }

  /** A face name with no anchor leaves the group at the origin, unrotated. */
  lemma UnknownFaceAtOrigin(c: BoxConfig, d: DecalConfig)
    requires d.face.OtherFace?
    ensures Resolve(c, d).anchor == Origin && Resolve(c, d).orientation == NoTurn
    ensures DecalCentre(Resolve(c, d)) == Vec3(d.x, d.y, 0.0)
  {
  }

  /** Opposite faces have opposite anchors. */
  lemma OppositeAnchors(c: BoxConfig, d: DecalConfig)
    ensures Resolve(c, d.(face := Back)).anchor == Negate(Resolve(c, d.(face := Front)).anchor)
    ensures Resolve(c, d.(face := Left)).anchor == Negate(Resolve(c, d.(face := Right)).anchor)
  {
    assert Resolve(c, d.(face := Back)).anchor == Vec3(0.0, 0.0, -c.length / 2.0 - Standoff);
    assert Resolve(c, d.(face := Front)).anchor == Vec3(0.0, 0.0, c.length / 2.0 + Standoff);
    assert Resolve(c, d.(face := Left)).anchor == Vec3(-c.width / 2.0 - Standoff, 0.0, 0.0);
    assert Resolve(c, d.(face := Right)).anchor == Vec3(c.width / 2.0 + Standoff, 0.0, 0.0);
  }

  /** Each anchor depends on one dimension only: front and back on the length,
      left and right on the width, top on the height. */
  lemma AnchorDependsOnOneDimension(c1: BoxConfig, c2: BoxConfig, d: DecalConfig)
    ensures (d.face == Front || d.face == Back) && c1.length == c2.length ==> Resolve(c1, d) == Resolve(c2, d)
    ensures (d.face == Left || d.face == Right) && c1.width == c2.width ==> Resolve(c1, d) == Resolve(c2, d)
    ensures d.face == Top && c1.height == c2.height ==> Resolve(c1, d) == Resolve(c2, d)
  {
  }

  /** The mesh's transform is the decal's offset, a uniform scale that leaves
      the depth alone and the rotation reversed, whatever the face and the box. */
  lemma LocalTransformIgnoresFaceAndBox(c1: BoxConfig, c2: BoxConfig, d1: DecalConfig, d2: DecalConfig)
    requires d1.x == d2.x && d1.y == d2.y && d1.scale == d2.scale && d1.rotate == d2.rotate
    ensures var p1, p2 := Resolve(c1, d1), Resolve(c2, d2);
      p1.offset == p2.offset == Vec3(d1.x, d1.y, 0.0) &&
      p1.scale == p2.scale == Vec3(d1.scale, d1.scale, 1.0) &&
      p1.spinDegrees == p2.spinDegrees == -d1.rotate
  {
  }

  /** Widening the box from 20 to 30 moves a left-face anchor from -10.05 to -15.05. */
  lemma WideningMovesLeftAnchor(c: BoxConfig, d: DecalConfig)
    requires d.face == Left
    ensures Resolve(c.(width := 20.0), d).anchor == Vec3(-10.05, 0.0, 0.0)
    ensures Resolve(c.(width := 30.0), d).anchor == Vec3(-15.05, 0.0, 0.0)
  {
  }
}
