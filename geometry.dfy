/**
 * The box builder: the solids `createGiftBox` puts in the box group for a
 * configuration, with their sizes, positions and materials. Lengths are exact
 * reals (centimetres in the configurator).
 */
module BoxGeometry {
  import opened Options
  import opened PatternTexture

  datatype Vec3 = Vec3(x: real, y: real, z: real)

  const Origin: Vec3 := Vec3(0.0, 0.0, 0.0)
  const UnitScale: Vec3 := Vec3(1.0, 1.0, 1.0)

  const LidHeight: real := 3.0
  const LidOverlap: real := 0.6
  const RibbonWidth: real := 4.0
  const RibbonThickness: real := 0.2

  /** The configurator's settings. Colours are CSS strings; `pattern` is the
      parsed `data-pattern` name. */
  datatype BoxConfig = BoxConfig(
    width: real, height: real, length: real,
    boxColor: string, ribbonColor: string,
    hasRibbon: bool,
    pattern: PatternKind,
    patternColor: string)

  /** The settings the page starts with. */
  const InitialConfig: BoxConfig :=
    BoxConfig(20.0, 15.0, 20.0, "#ffffff", "#ef4444", true, NoPattern, "rgba(0,0,0,0.15)")

  /** A canvas texture: the square canvas and the commands drawn on it. */
  datatype Texture = CanvasTexture(size: int, ops: seq<DrawOp>)

  datatype Side = FrontSide | DoubleSide

  datatype Material = Material(
    color: Color, texture: Option<Texture>,
    roughness: real, metalness: real,
    transparent: bool, opacity: real,
    side: Side)

  datatype PartKind = Body | Lid | VerticalRibbon | HorizontalRibbon | Bow

  /** A cuboid of the given extents, or the torus knot of the bow
      (radius, tube radius, tubular and radial segment counts). */
  datatype Shape = Cuboid(size: Vec3) | TorusKnot(radius: real, tube: real, tubularSegments: nat, radialSegments: nat)

  datatype Surface = BoxSurface | RibbonSurface

  /** One mesh of the box group: its geometry, the position of its centre,
      its rotation about x in quarter turns, its scale and which material it wears. */
  datatype Part = Part(kind: PartKind, shape: Shape, position: Vec3, pitchTurns: int, scale: Vec3, surface: Surface)

  datatype BoxModel = BoxModel(boxMaterial: Material, ribbonMaterial: Material, parts: seq<Part>)

  /** The texture `createPatternTexture` paints for the configuration's pattern. */
  function PatternTextureOf(c: BoxConfig): Texture
  {
    CanvasTexture(CanvasSize, PatternOps(c.pattern, Css(c.boxColor), Css(c.patternColor)))
  }

  /** The box group for a configuration, given the pattern texture (if any)
      that was painted for it. */
  function ComposeBox(c: BoxConfig, texture: Option<Texture>): (m: BoxModel)
    ensures |m.parts| == if c.hasRibbon then 5 else 2
    ensures m.boxMaterial.texture == texture && m.ribbonMaterial.texture == None
    ensures forall i :: 0 <= i < |m.parts| ==> (m.parts[i].kind == Bow <==> !m.parts[i].shape.Cuboid?)
  {
    var boxMat := Material(if c.pattern == NoPattern then Css(c.boxColor) else White, texture, 0.6, 0.1, false, 1.0, FrontSide);
    var ribbonMat := Material(Css(c.ribbonColor), None, 0.4, 0.0, false, 1.0, DoubleSide);
    var w, h, l := c.width, c.height, c.length;
    var body := Part(Body, Cuboid(Vec3(w, h, l)), Origin, 0, UnitScale, BoxSurface);
    var lid := Part(Lid, Cuboid(Vec3(w + LidOverlap, LidHeight, l + LidOverlap)), Vec3(0.0, h / 2.0 + LidHeight / 2.0, 0.0), 0, UnitScale, BoxSurface);
    var ribbon :=
      if c.hasRibbon then
        [ Part(VerticalRibbon, Cuboid(Vec3(RibbonWidth, h + LidHeight + 0.2, l + LidOverlap + RibbonThickness)),
               Vec3(0.0, LidHeight / 2.0, 0.0), 0, UnitScale, RibbonSurface),
          Part(HorizontalRibbon, Cuboid(Vec3(w + LidOverlap + RibbonThickness, h + LidHeight + 0.2, RibbonWidth)),
               Vec3(0.0, LidHeight / 2.0, 0.0), 0, UnitScale, RibbonSurface),
          Part(Bow, TorusKnot(2.5, 0.7, 64, 8), Vec3(0.0, h / 2.0 + LidHeight + 1.5, 0.0), 1, Vec3(1.0, 1.0, 0.5), RibbonSurface) ]
      else [];
    BoxModel(boxMat, ribbonMat, [body, lid] + ribbon)
  }

  /** `createGiftBox`: paint a pattern texture unless the pattern is `none`,
      then compose the group. */
  function BuildBox(c: BoxConfig): (m: BoxModel)
    ensures m.boxMaterial.texture.Some? <==> c.pattern != NoPattern
    ensures m.boxMaterial.texture.Some? ==> m.boxMaterial.texture.value.size == 512
  {
    ComposeBox(c, if c.pattern != NoPattern then Some(PatternTextureOf(c)) else None)
  }

  /** Lowest and highest y reached by a cuboid part. */
  function Bottom(p: Part): real
    requires p.shape.Cuboid?
  {
    p.position.y - p.shape.size.y / 2.0
  }

  function Top(p: Part): real
    requires p.shape.Cuboid?
  {
    p.position.y + p.shape.size.y / 2.0
  }

  /** Half extents of a cuboid part along x and z. */
  function HalfWidth(p: Part): real
    requires p.shape.Cuboid?
  {
    p.shape.size.x / 2.0
  }

  function HalfDepth(p: Part): real
    requires p.shape.Cuboid?
  {
    p.shape.size.z / 2.0
  }

  /** The body is exactly (w, h, l) at the origin; the lid is
      (w + 0.6, 3, l + 0.6), its bottom face on the body's top face, and it
      overhangs the body by 0.3 on every side. */
  lemma BodyAndLid(c: BoxConfig)
    ensures var m := BuildBox(c);
      |m.parts| >= 2 &&
      m.parts[0].kind == Body && m.parts[0].shape == Cuboid(Vec3(c.width, c.height, c.length)) &&
      m.parts[0].position == Origin &&
      m.parts[1].kind == Lid && m.parts[1].shape == Cuboid(Vec3(c.width + 0.6, 3.0, c.length + 0.6)) &&
      m.parts[1].position == Vec3(0.0, c.height / 2.0 + 1.5, 0.0) &&
      Bottom(m.parts[1]) == Top(m.parts[0]) == c.height / 2.0 &&
      HalfWidth(m.parts[1]) == HalfWidth(m.parts[0]) + 0.3 &&
      HalfDepth(m.parts[1]) == HalfDepth(m.parts[0]) + 0.3
  {
  }

  /** The two ribbon strips and the bow are present exactly when the ribbon
      is switched on; otherwise the group holds the body and the lid only. */
  lemma RibbonPresence(c: BoxConfig)
    ensures var m := BuildBox(c);
      (c.hasRibbon ==>
         |m.parts| == 5 && m.parts[2].kind == VerticalRibbon && m.parts[3].kind == HorizontalRibbon && m.parts[4].kind == Bow) &&
      (!c.hasRibbon ==> |m.parts| == 2) &&
      (forall i :: 0 <= i < |m.parts| ==> (m.parts[i].surface == RibbonSurface <==> i >= 2))
  {
  }

  /** The strips wrap the stack of body and lid: both are centred at y = 1.5,
      the middle of the stack, reach 0.1 below the body and 0.1 above the lid,
      and stand 0.1 proud of the lid on the sides they cross; they are 4 wide.
      The bow floats 1.5 above the lid. */
  lemma RibbonWrapsStack(c: BoxConfig)
    requires c.hasRibbon
    ensures var m := BuildBox(c);
      |m.parts| == 5 &&
      var body, lid, v, hr, bow := m.parts[0], m.parts[1], m.parts[2], m.parts[3], m.parts[4];
      v.shape.Cuboid? && hr.shape.Cuboid? && body.shape.Cuboid? && lid.shape.Cuboid? &&
      v.position == hr.position == Vec3(0.0, 1.5, 0.0) &&
      v.position.y == (Bottom(body) + Top(lid)) / 2.0 &&
      Bottom(v) == Bottom(hr) == Bottom(body) - 0.1 &&
      Top(v) == Top(hr) == Top(lid) + 0.1 &&
      HalfDepth(v) == HalfDepth(lid) + 0.1 && v.shape.size.x == 4.0 &&
      HalfWidth(hr) == HalfWidth(lid) + 0.1 && hr.shape.size.z == 4.0 &&
      bow.shape == TorusKnot(2.5, 0.7, 64, 8) &&
      bow.position == Vec3(0.0, Top(lid) + 1.5, 0.0) && bow.pitchTurns == 1 && bow.scale == Vec3(1.0, 1.0, 0.5)
  {
  }

  /** A pattern texture is painted exactly when the pattern is not `none`;
      then the surface's own colour is white so the texture shows unaltered,
      otherwise it is the box colour. The box surface is opaque and
      single-sided, the ribbon surface double-sided in the ribbon colour. */
  lemma MaterialSelection(c: BoxConfig)
    ensures var m := BuildBox(c);
      (m.boxMaterial.texture.Some? <==> c.pattern != NoPattern) &&
      (m.boxMaterial.texture.Some? ==>
         m.boxMaterial.color == White && m.boxMaterial.texture.value.ops == PatternOps(c.pattern, Css(c.boxColor), Css(c.patternColor))) &&
      (m.boxMaterial.texture.None? ==> m.boxMaterial.color == Css(c.boxColor)) &&
      !m.boxMaterial.transparent && m.boxMaterial.opacity == 1.0 && m.boxMaterial.side == FrontSide &&
      m.ribbonMaterial.color == Css(c.ribbonColor) && m.ribbonMaterial.side == DoubleSide
  {
  }

  /** Every part of the group depends on the dimensions and the ribbon switch
      only: colours and the pattern change materials, never geometry. */
  lemma GeometryIgnoresStyle(c1: BoxConfig, c2: BoxConfig)
    requires c1.width == c2.width && c1.height == c2.height && c1.length == c2.length
    requires c1.hasRibbon == c2.hasRibbon
    ensures BuildBox(c1).parts == BuildBox(c2).parts
  {
  }
}
