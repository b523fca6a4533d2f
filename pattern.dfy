/**
 * The procedural pattern texture of the box surface: the canvas drawing
 * commands `createPatternTexture` issues for each pattern kind, as a list of
 * commands rather than pixels.
 */
module PatternTexture {

  /** A colour as the script writes it: a CSS colour string taken from the
      configuration, or a packed 0xRRGGBB literal. */
  datatype Color = Css(text: string) | Rgb(hex: int)

  const White: Color := Rgb(0xffffff)

  /** Side of the square canvas, in pixels. */
  const CanvasSize: int := 512

  /** The pattern names the configurator offers; any other name is kept verbatim. */
  datatype PatternKind = NoPattern | StripesH | StripesV | Dots | Hearts | OtherPattern(name: string)

  /** Reads the `data-pattern` string of a pattern option. */
  function ParsePattern(s: string): (p: PatternKind)
    ensures PatternName(p) == s
    ensures p.OtherPattern? <==> s !in {"none", "stripes_h", "stripes_v", "dots", "hearts"}
  {
    if s == "none" then NoPattern
    else if s == "stripes_h" then StripesH
    else if s == "stripes_v" then StripesV
    else if s == "dots" then Dots
    else if s == "hearts" then Hearts
    else OtherPattern(s)
  }

  function PatternName(p: PatternKind): string
  {
    match p
    case NoPattern => "none"
    case StripesH => "stripes_h"
    case StripesV => "stripes_v"
    case Dots => "dots"
    case Hearts => "hearts"
    case OtherPattern(name) => name
  }

  /** A kind is canonical when an `OtherPattern` does not carry one of the known names. */
  predicate Canonical(p: PatternKind)
  {
    p.OtherPattern? ==> p.name !in {"none", "stripes_h", "stripes_v", "dots", "hearts"}
  }

  lemma NameThenParse(p: PatternKind)
    requires Canonical(p)
    ensures ParsePattern(PatternName(p)) == p
  {
  }

  /** One call on the 2D canvas context. A filled circle stands for the
      `beginPath`/`arc`/`fill` triple the script issues per dot. */
  datatype DrawOp =
    | SetFillStyle(color: Color)
    | FillRect(x: int, y: int, w: int, h: int)
    | Translate(dx: int, dy: int)
    | RotateDegrees(deg: int)
    | FillCircle(cx: int, cy: int, r: int)
    | SetFont(font: string)
    | FillText(text: string, x: int, y: int)

  const HeartGlyph: string := "\U{2665}"
  const HeartFont: string := "40px Arial"

  /** Background fill in the box colour, then the ink for the motif. */
  function Background(base: Color, ink: Color): seq<DrawOp>
  {
    [SetFillStyle(base), FillRect(0, 0, CanvasSize, CanvasSize), SetFillStyle(ink)]
  }

  /** The 45-degree turn about the canvas centre that `stripes_h` draws under. */
  const DiagonalTurn: seq<DrawOp> := [Translate(256, 256), RotateDegrees(45), Translate(-256, -256)]

  function DiagonalStripe(k: int): DrawOp { FillRect(-256 + 40 * k, 0, 20, 768) }
  function VerticalStripe(k: int): DrawOp { FillRect(40 * k, 0, 20, CanvasSize) }
  function Dot(a: int, b: int): DrawOp { FillCircle(50 * a, 50 * b, 10) }
  function Heart(a: int, b: int): DrawOp { FillText(HeartGlyph, 20 + 60 * a, 40 + 60 * b) }

  /** The first n cells of a one-dimensional run. */
  function Row(n: nat, cell: int -> DrawOp): (r: seq<DrawOp>)
    ensures |r| == n
  {
    seq(n, k => cell(k))
  }

  /** Column a of a grid: cells (a, 0) .. (a, m - 1). */
  function Column(a: int, m: nat, cell: (int, int) -> DrawOp): (r: seq<DrawOp>)
    ensures |r| == m
  {
    seq(m, b => cell(a, b))
  }

  /** The cells of an n-by-m grid, column after column, as two nested loops
      with the outer loop over the first coordinate produce them. */
  function Grid(n: nat, m: nat, cell: (int, int) -> DrawOp): seq<DrawOp>
  {
    if n == 0 then [] else Grid(n - 1, m, cell) + Column(n - 1, m, cell)
  }

  /** What is drawn in the pattern colour after the background. */
  function Motif(kind: PatternKind): (m: seq<DrawOp>)
    ensures kind.NoPattern? || kind.OtherPattern? ==> m == []
  {
    match kind
    case StripesH => DiagonalTurn + Row(26, DiagonalStripe)
    case StripesV => Row(13, VerticalStripe)
    case Dots => Grid(11, 11, Dot)
    case Hearts => [SetFont(HeartFont)] + Grid(9, 8, Heart)
    case _ => []
  }

  /** The whole command list of the canvas for a pattern kind. */
  function PatternOps(kind: PatternKind, base: Color, ink: Color): (ops: seq<DrawOp>)
    ensures |ops| >= 3 && ops[..3] == [SetFillStyle(base), FillRect(0, 0, 512, 512), SetFillStyle(ink)]
  {
    Background(base, ink) + Motif(kind)
  }

  lemma {:induction false} GridLength(n: nat, m: nat, cell: (int, int) -> DrawOp)
    ensures |Grid(n, m, cell)| == n * m
  {
    if n > 0 {
      GridLength(n - 1, m, cell);
      assert (n - 1) * m + m == n * m;
    }
  }

  /** Cell (a, b) of the grid sits at index a * m + b. */
  lemma {:induction false} GridAt(n: nat, m: nat, cell: (int, int) -> DrawOp, a: int, b: int)
    requires 0 <= a < n && 0 <= b < m
    ensures |Grid(n, m, cell)| == n * m
    ensures a * m + b < n * m && Grid(n, m, cell)[a * m + b] == cell(a, b)
  {
    GridLength(n, m, cell);
    GridLength(n - 1, m, cell);
    assert Grid(n, m, cell) == Grid(n - 1, m, cell) + Column(n - 1, m, cell);
    if a == n - 1 {
      assert a * m + b == (n - 1) * m + b;
      assert Column(n - 1, m, cell)[b] == cell(a, b);
    } else {
      GridAt(n - 1, m, cell, a, b);
      assert a * m + b < (n - 1) * m;
    }
    assert a * m + b < n * m by {
      assert a * m <= (n - 1) * m;
    }
  }

  /** Number of commands per kind: 13 vertical bands, 26 diagonal bands
      after three transform steps, 11 by 11 dots, a font and 9 by 8 hearts,
      and the background alone for any other kind. */
  lemma CommandCounts(kind: PatternKind, base: Color, ink: Color)
    ensures |PatternOps(kind, base, ink)| ==
      3 + match kind
          case StripesH => 3 + 26
          case StripesV => 13
          case Dots => 121
          case Hearts => 1 + 72
          case _ => 0
  {
    GridLength(11, 11, Dot);
    GridLength(9, 8, Heart);
  }

  /** True when the command fills a disc that contains the point. */
  predicate CircleCovers(op: DrawOp, px: int, py: int)
  {
    op.FillCircle? && (px - op.cx) * (px - op.cx) + (py - op.cy) * (py - op.cy) <= op.r * op.r
  }

  /** True when the command fills an axis-aligned rectangle whose columns contain px. */
  predicate RectSpans(op: DrawOp, px: int)
  {
    op.FillRect? && op.x <= px < op.x + op.w
  }

  /** Every dot is a disc of radius 10 centred on a 50-unit lattice point of the canvas. */
  lemma DotsOnLattice(k: int)
    requires 0 <= k < |Motif(Dots)|
    ensures Motif(Dots)[k] == FillCircle(50 * (k / 11), 50 * (k % 11), 10)
    ensures 0 <= 50 * (k / 11) < CanvasSize && 0 <= 50 * (k % 11) < CanvasSize
  {
    GridLength(11, 11, Dot);
    GridAt(11, 11, Dot, k / 11, k % 11);
  }

  /** Every lattice point of the canvas lies inside some dot. */
  lemma DotsCoverLatticePoints(a: int, b: int)
    requires 0 <= a && 0 <= b && 50 * a < CanvasSize && 50 * b < CanvasSize
    ensures exists k :: 0 <= k < |Motif(Dots)| && CircleCovers(Motif(Dots)[k], 50 * a, 50 * b)
  {
    GridAt(11, 11, Dot, a, b);
    assert CircleCovers(Motif(Dots)[a * 11 + b], 50 * a, 50 * b);
  }

  lemma {:induction false} OffLatticeSquareAtLeast625(m: int)
    ensures (50 * m + 25) * (50 * m + 25) >= 625
  {
    var t := 50 * m + 25;
    if m >= 0 {
      assert t >= 25;
      assert t * t >= 25 * t;
    } else {
      assert -t >= 25;
      assert (-t) * (-t) >= 25 * (-t);
    }
  }

  /** No dot reaches the midpoint between four lattice points. */
  lemma DotsMissMidpoints(a: int, b: int)
    ensures forall k :: 0 <= k < |Motif(Dots)| ==> !CircleCovers(Motif(Dots)[k], 50 * a + 25, 50 * b + 25)
  {
    forall k | 0 <= k < |Motif(Dots)|
      ensures !CircleCovers(Motif(Dots)[k], 50 * a + 25, 50 * b + 25)
    {
      DotsOnLattice(k);
      var i, j := k / 11, k % 11;
      OffLatticeSquareAtLeast625(a - i);
      OffLatticeSquareAtLeast625(b - j);
      assert 50 * a + 25 - 50 * i == 50 * (a - i) + 25;
      assert 50 * b + 25 - 50 * j == 50 * (b - j) + 25;
    }
  }

  /** A square is never negative, and exceeds 100 once the number is more
      than 10 away from zero. */
  lemma {:induction false} SquareExceedsRadius(u: int)
    ensures u * u >= 0
    ensures (u > 10 || u < -10) ==> u * u > 100
  {
    if u >= 0 {
      assert u * u >= 0 * u;
      if u > 10 { assert u * u >= 11 * u; }
    } else {
      assert u * u == (-u) * (-u);
      assert (-u) * (-u) >= 0 * (-u);
      if u < -10 { assert (-u) * (-u) >= 11 * (-u); }
    }
  }

  /** A point within radius 10 of one centre is outside radius 10 of any
      centre at least 50 away along an axis. */
  lemma DiscsApart(px: int, py: int, x1: int, y1: int, x2: int, y2: int)
    requires (px - x1) * (px - x1) + (py - y1) * (py - y1) <= 100
    requires x2 - x1 >= 50 || x1 - x2 >= 50 || y2 - y1 >= 50 || y1 - y2 >= 50
    ensures (px - x2) * (px - x2) + (py - y2) * (py - y2) > 100
  {
    SquareExceedsRadius(px - x1);
    SquareExceedsRadius(py - y1);
    SquareExceedsRadius(px - x2);
    SquareExceedsRadius(py - y2);
  }

  /** No point of the canvas is inside two different dots: the dots never
      overlap, since their centres are 50 apart and their radii 10. */
  lemma DotsDisjoint(k1: int, k2: int, px: int, py: int)
    requires 0 <= k1 < |Motif(Dots)| && 0 <= k2 < |Motif(Dots)| && k1 != k2
    requires CircleCovers(Motif(Dots)[k1], px, py)
    ensures !CircleCovers(Motif(Dots)[k2], px, py)
  {
    DotsOnLattice(k1);
    DotsOnLattice(k2);
    var x1, y1, x2, y2 := 50 * (k1 / 11), 50 * (k1 % 11), 50 * (k2 / 11), 50 * (k2 % 11);
    assert (px - x1) * (px - x1) + (py - y1) * (py - y1) <= 100;
    CellsApart(k1, k2);
    DiscsApart(px, py, x1, y1, x2, y2);
    assert Motif(Dots)[k2] == FillCircle(x2, y2, 10);
  }

  /** Two different cells of the 11-column dot grid have centres at least 50
      apart along one axis. */
  lemma CellsApart(k1: int, k2: int)
    requires 0 <= k1 && 0 <= k2 && k1 != k2
    ensures var x1, y1, x2, y2 := 50 * (k1 / 11), 50 * (k1 % 11), 50 * (k2 / 11), 50 * (k2 % 11);
      x2 - x1 >= 50 || x1 - x2 >= 50 || y2 - y1 >= 50 || y1 - y2 >= 50
  {
    assert k1 == 11 * (k1 / 11) + k1 % 11 && k2 == 11 * (k2 / 11) + k2 % 11;
  }

  /** A canvas column is inked by a vertical band exactly when it lies in the
      first 20 units of a 40-unit period. */
  lemma VerticalBandsCover(px: int)
    requires 0 <= px < CanvasSize
    ensures (exists k :: 0 <= k < |Motif(StripesV)| && RectSpans(Motif(StripesV)[k], px)) <==> px % 40 < 20
  {
    if px % 40 < 20 {
      var k := px / 40;
      assert Motif(StripesV) == Row(13, VerticalStripe);
      assert Row(13, VerticalStripe)[k] == VerticalStripe(k);
      assert RectSpans(Motif(StripesV)[k], px);
    }
    if exists k :: 0 <= k < |Motif(StripesV)| && RectSpans(Motif(StripesV)[k], px) {
      var k :| 0 <= k < |Motif(StripesV)| && RectSpans(Motif(StripesV)[k], px);
      assert Motif(StripesV) == Row(13, VerticalStripe);
      assert Row(13, VerticalStripe)[k] == VerticalStripe(k);
      assert px == 40 * k + (px - 40 * k) && 0 <= px - 40 * k < 20;
    }
  }

  /** Every heart lies on the 60-unit lattice offset by (20, 40), inside the canvas. */
  lemma HeartsOnLattice(k: int)
    requires 1 <= k < |Motif(Hearts)|
    ensures Motif(Hearts)[k] == FillText(HeartGlyph, 20 + 60 * ((k - 1) / 8), 40 + 60 * ((k - 1) % 8))
    ensures 20 + 60 * ((k - 1) / 8) < CanvasSize && 40 + 60 * ((k - 1) % 8) < CanvasSize
  {
    GridLength(9, 8, Heart);
    GridAt(9, 8, Heart, (k - 1) / 8, (k - 1) % 8);
  }

  lemma RowSnoc(n: nat, cell: int -> DrawOp)
    ensures Row(n + 1, cell) == Row(n, cell) + [cell(n)]
  {
  }

  lemma ColumnSnoc(a: int, m: nat, cell: (int, int) -> DrawOp)
    ensures Column(a, m + 1, cell) == Column(a, m, cell) + [cell(a, m)]
  {
  }

  /** The band loop of `stripes_h`, under the diagonal turn. */
  method DiagonalBands() returns (ops: seq<DrawOp>)
    ensures ops == Row(26, DiagonalStripe)
  {
    ops := [];
    var i := -256;
    ghost var k: nat := 0;
    while i < 768
      invariant k <= 26 && i == -256 + 40 * k
      invariant ops == Row(k, DiagonalStripe)
    {
      RowSnoc(k, DiagonalStripe);
      ops := ops + [FillRect(i, 0, 20, 768)];
      i, k := i + 40, k + 1;
    }
  }

  /** The band loop of `stripes_v`. */
  method VerticalBands() returns (ops: seq<DrawOp>)
    ensures ops == Row(13, VerticalStripe)
  {
    ops := [];
    var x := 0;
    ghost var k: nat := 0;
    while x < 512
      invariant k <= 13 && x == 40 * k
      invariant ops == Row(k, VerticalStripe)
    {
      RowSnoc(k, VerticalStripe);
      ops := ops + [FillRect(x, 0, 20, 512)];
      x, k := x + 40, k + 1;
    }
  }

  /** The nested loops of `dots`. */
  method DotGrid() returns (ops: seq<DrawOp>)
    ensures ops == Grid(11, 11, Dot)
  {
    ops := [];
    var x := 0;
    ghost var a: nat := 0;
    while x < 512
      invariant a <= 11 && x == 50 * a
      invariant ops == Grid(a, 11, Dot)
    {
      var y := 0;
      ghost var b: nat := 0;
      while y < 512
        invariant b <= 11 && y == 50 * b
        invariant ops == Grid(a, 11, Dot) + Column(a, b, Dot)
      {
        ColumnSnoc(a, b, Dot);
        ops := ops + [FillCircle(x, y, 10)];
        y, b := y + 50, b + 1;
      }
      x, a := x + 50, a + 1;
    }
  }

  /** The nested loops of `hearts`. */
  method HeartGrid() returns (ops: seq<DrawOp>)
    ensures ops == Grid(9, 8, Heart)
  {
    ops := [];
    var x := 20;
    ghost var a: nat := 0;
    while x < 512
      invariant a <= 9 && x == 20 + 60 * a
      invariant ops == Grid(a, 8, Heart)
    {
      var y := 40;
      ghost var b: nat := 0;
      while y < 512
        invariant b <= 8 && y == 40 + 60 * b
        invariant ops == Grid(a, 8, Heart) + Column(a, b, Heart)
      {
        ColumnSnoc(a, b, Heart);
        ops := ops + [FillText(HeartGlyph, x, y)];
        y, b := y + 60, b + 1;
      }
      x, a := x + 60, a + 1;
    }
  }

  /** `createPatternTexture` without the canvas: the commands its branches
      issue, in order. */
  method CreatePatternTexture(kind: PatternKind, base: Color, ink: Color) returns (ops: seq<DrawOp>)
    ensures ops == PatternOps(kind, base, ink)
  {
    ops := [SetFillStyle(base), FillRect(0, 0, 512, 512), SetFillStyle(ink)];
    if kind == StripesH {
      var bands := DiagonalBands();
      ops := ops + [Translate(256, 256), RotateDegrees(45), Translate(-256, -256)] + bands;
    } else if kind == StripesV {
      var bands := VerticalBands();
      ops := ops + bands;
    } else if kind == Dots {
      var dots := DotGrid();
      ops := ops + dots;
    } else if kind == Hearts {
      var hearts := HeartGrid();
      ops := ops + [SetFont("40px Arial")] + hearts;
    }
  }
}
