/**
 The 3x3 matrices of the DRM renderer (src/backend/drm/Math.cpp and the composition in src/backend/drm/Renderer.cpp),
 over the reals. A matrix acts on the points of the plane; the cosine and sine of a rotation are parameters.
 */
module Projection {
  datatype Mat = Mat(m0: real, m1: real, m2: real, m3: real, m4: real, m5: real, m6: real, m7: real, m8: real)
  datatype Point = Point(x: real, y: real)
  datatype Box = Box(x: real, y: real, w: real, h: real)
  datatype Transform = Normal | Rot90 | Rot180 | Rot270 | Flipped | Flipped90 | Flipped180 | Flipped270

  const IDENTITY := Mat(1.0, 0.0, 0.0, 0.0, 1.0, 0.0, 0.0, 0.0, 1.0)

  /** A row times a column. */
  function Dot(r0: real, r1: real, r2: real, c0: real, c1: real, c2: real): real { r0 * c0 + r1 * c1 + r2 * c2 }

  function Product(a: Mat, b: Mat): Mat {
    Mat(Dot(a.m0, a.m1, a.m2, b.m0, b.m3, b.m6), Dot(a.m0, a.m1, a.m2, b.m1, b.m4, b.m7),
        Dot(a.m0, a.m1, a.m2, b.m2, b.m5, b.m8),
        Dot(a.m3, a.m4, a.m5, b.m0, b.m3, b.m6), Dot(a.m3, a.m4, a.m5, b.m1, b.m4, b.m7),
        Dot(a.m3, a.m4, a.m5, b.m2, b.m5, b.m8),
        Dot(a.m6, a.m7, a.m8, b.m0, b.m3, b.m6), Dot(a.m6, a.m7, a.m8, b.m1, b.m4, b.m7),
        Dot(a.m6, a.m7, a.m8, b.m2, b.m5, b.m8))
  }

  function Translation(x: real, y: real): Mat { Mat(1.0, 0.0, x, 0.0, 1.0, y, 0.0, 0.0, 1.0) }

  function Scaling(x: real, y: real): Mat { Mat(x, 0.0, 0.0, 0.0, y, 0.0, 0.0, 0.0, 1.0) }

  function Rotation(c: real, s: real): Mat { Mat(c, -s, 0.0, s, c, 0.0, 0.0, 0.0, 1.0) }

  function Linear(a: real, b: real, c: real, d: real): Mat { Mat(a, b, 0.0, c, d, 0.0, 0.0, 0.0, 1.0) }

  /** The table of the eight transforms. */
  function Table(t: Transform): Mat {
    match t
    case Normal => Linear(1.0, 0.0, 0.0, 1.0)
    case Rot90 => Linear(0.0, 1.0, -1.0, 0.0)
    case Rot180 => Linear(-1.0, 0.0, 0.0, -1.0)
    case Rot270 => Linear(0.0, -1.0, 1.0, 0.0)
    case Flipped => Linear(-1.0, 0.0, 0.0, 1.0)
    case Flipped90 => Linear(0.0, 1.0, 1.0, 0.0)
    case Flipped180 => Linear(1.0, 0.0, 0.0, -1.0)
    case Flipped270 => Linear(0.0, -1.0, -1.0, 0.0)
  }

  function Copysign(v: real): real { if v < 0.0 then -1.0 else 1.0 }

  /** A row of the projection: the coordinates it mixes, scaled, and the translation. */
  datatype Row = Row(onX: real, onY: real, shift: real)

  function ProjectedRow(r: real, a: real, b: real): Row { Row(r * a, r * b, -Copysign(r * a + r * b)) }

  /** The projection from the factors of both axes and the matrix of the transform. */
  function ProjectedBy(x: real, y: real, m: Mat): Mat {
    var (r, s) := (ProjectedRow(x, m.m0, m.m1), ProjectedRow(y, -m.m3, -m.m4));
    Mat(r.onX, r.onY, r.shift, s.onX, s.onY, s.shift, 0.0, 0.0, 1.0)
  }

  function Projected(width: int, height: int, t: Transform): Mat
    requires width > 0 && height > 0
  {
    ProjectedBy(2.0 / width as real, 2.0 / height as real, Table(t))
  }

  function Rotated(b: Box, rotation: real, c: real, s: real): Mat {
    var m := Product(IDENTITY, Translation(b.x, b.y));
    if rotation != 0.0 then
      Product(Product(Product(m, Translation(b.w / 2.0, b.h / 2.0)), Rotation(c, s)),
          Translation(-b.w / 2.0, -b.h / 2.0))
    else m
  }

  function TurnedBy(m: Mat, t: Transform): Mat {
    Product(Product(Product(m, Translation(0.5, 0.5)), Table(t)), Translation(-0.5, -0.5))
  }

  /** projectBox up to the outer projection. */
  function Placed(b: Box, t: Transform, rotation: real, c: real, s: real): Mat {
    var m := Product(Rotated(b, rotation, c, s), Scaling(b.w, b.h));
    if t != Normal then TurnedBy(m, t) else m
  }

  // ----- matrices as maps

  predicate Affine(m: Mat) { m.m6 == 0.0 && m.m7 == 0.0 && m.m8 == 1.0 }

  function Act(r0: real, r1: real, r2: real, p: Point): real { r0 * p.x + r1 * p.y + r2 }

  function Apply(m: Mat, p: Point): Point { Point(Act(m.m0, m.m1, m.m2, p), Act(m.m3, m.m4, m.m5, p)) }

  /** The nine floats, row by row. */
  function Floats(m: Mat): (f: seq<real>)
    ensures |f| == 9
  {
    [m.m0, m.m1, m.m2, m.m3, m.m4, m.m5, m.m6, m.m7, m.m8]
  }

  /** matrixMultiply is the matrix product, entry by entry, of any two matrices. */
  lemma ProductEntries(a: Mat, b: Mat, row: nat, col: nat)
    requires row < 3 && col < 3
    ensures var f, g := Floats(a), Floats(b);
            Floats(Product(a, b))[3 * row + col] ==
            f[3 * row] * g[col] + f[3 * row + 1] * g[3 + col] + f[3 * row + 2] * g[6 + col]
  {
    hide Dot, Product;
    var (x, y, z) :=
      if row == 0 then (a.m0, a.m1, a.m2) else if row == 1 then (a.m3, a.m4, a.m5) else (a.m6, a.m7, a.m8);
    ProductRow(a, b, row, col);
    ThreeEntries(x, y, z, b, col);
    hide Floats;
    RowOfFloats(a, row);
  }

  lemma RowOfFloats(a: Mat, row: nat)
    requires row < 3
    ensures var f := Floats(a);
            (f[3 * row], f[3 * row + 1], f[3 * row + 2])
            == if row == 0 then (a.m0, a.m1, a.m2) else if row == 1 then (a.m3, a.m4, a.m5) else (a.m6, a.m7, a.m8)
  {
  }

  lemma ProductRow(a: Mat, b: Mat, row: nat, col: nat)
    requires row < 3 && col < 3
    ensures var (x, y, z) :=
              if row == 0 then (a.m0, a.m1, a.m2) else if row == 1 then (a.m3, a.m4, a.m5) else (a.m6, a.m7, a.m8);
            Floats(Product(a, b))[3 * row + col] ==
            [Dot(x, y, z, b.m0, b.m3, b.m6), Dot(x, y, z, b.m1, b.m4, b.m7), Dot(x, y, z, b.m2, b.m5, b.m8)][col]
  {
    hide Dot;
  }

  lemma ThreeEntries(x: real, y: real, z: real, b: Mat, col: nat)
    requires col < 3
    ensures var g := Floats(b);
            [Dot(x, y, z, b.m0, b.m3, b.m6), Dot(x, y, z, b.m1, b.m4, b.m7), Dot(x, y, z, b.m2, b.m5, b.m8)][col]
            == x * g[col] + y * g[3 + col] + z * g[6 + col]
  {
  }

  /** A row of a product acts as the row acts on the image. */
  lemma RowOfProduct(r0: real, r1: real, r2: real, b: Mat, p: Point)
    requires Affine(b)
    ensures Act(Dot(r0, r1, r2, b.m0, b.m3, b.m6), Dot(r0, r1, r2, b.m1, b.m4, b.m7),
            Dot(r0, r1, r2, b.m2, b.m5, b.m8), p)
            == Act(r0, r1, r2, Apply(b, p))
  {
  }

  lemma LastRow(b: Mat)
    requires Affine(b)
    ensures Dot(0.0, 0.0, 1.0, b.m0, b.m3, b.m6) == 0.0 && Dot(0.0, 0.0, 1.0, b.m1, b.m4, b.m7) == 0.0
    ensures Dot(0.0, 0.0, 1.0, b.m2, b.m5, b.m8) == 1.0
  {
  }

  /** matrixMultiply composes: first `b`, then `a`. */
  lemma ProductComposes(a: Mat, b: Mat, p: Point)
    requires Affine(a) && Affine(b)
    ensures Affine(Product(a, b)) && Apply(Product(a, b), p) == Apply(a, Apply(b, p))
  {
    hide Dot, Act;
    RowOfProduct(a.m0, a.m1, a.m2, b, p);
    RowOfProduct(a.m3, a.m4, a.m5, b, p);
    LastRow(b);
  }

  /** An affine map is its three coefficients in each row: two matrices that act alike are equal. */
  lemma SameMap(a: Mat, b: Mat)
    requires Affine(a) && Affine(b) && forall p :: Apply(a, p) == Apply(b, p)
    ensures a == b
  {
    var _ := Apply(a, Point(0.0, 0.0)) == Apply(b, Point(0.0, 0.0));
    var _ := Apply(a, Point(1.0, 0.0)) == Apply(b, Point(1.0, 0.0));
    var _ := Apply(a, Point(0.0, 1.0)) == Apply(b, Point(0.0, 1.0));
  }

  // ----- the table

  /** Quarter turns, and a reflection first when flipped. */
  function Quarters(t: Transform): int {
    match t
    case Normal | Flipped => 0
    case Rot90 | Flipped90 => 1
    case Rot180 | Flipped180 => 2
    case Rot270 | Flipped270 => 3
  }

  predicate IsFlipped(t: Transform) { t.Flipped? || t.Flipped90? || t.Flipped180? || t.Flipped270? }

  function Named(quarters: int, flipped: bool): Transform
    requires -3 <= quarters <= 6
  {
    match if quarters < 0 then quarters + 4 else if quarters >= 4 then quarters - 4 else quarters
    case 0 => if flipped then Flipped else Normal
    case 1 => if flipped then Flipped90 else Rot90
    case 2 => if flipped then Flipped180 else Rot180
    case _ => if flipped then Flipped270 else Rot270
  }

  function Composed(a: Transform, b: Transform): Transform {
    Named(Quarters(a) + (if IsFlipped(a) then -Quarters(b) else Quarters(b)), IsFlipped(a) != IsFlipped(b))
  }

  /** What each transform does to a point. */
  function Faced(t: Transform, p: Point): Point {
    match t
    case Normal => p
    case Rot90 => Point(p.y, -p.x)
    case Rot180 => Point(-p.x, -p.y)
    case Rot270 => Point(-p.y, p.x)
    case Flipped => Point(-p.x, p.y)
    case Flipped90 => Point(p.y, p.x)
    case Flipped180 => Point(p.x, -p.y)
    case Flipped270 => Point(-p.y, -p.x)
  }

  lemma TableActs(t: Transform, p: Point)
    ensures Affine(Table(t)) && Apply(Table(t), p) == Faced(t, p)
  {
    match t {
      case Normal =>
      case Rot90 =>
      case Rot180 =>
      case Rot270 =>
      case Flipped =>
      case Flipped90 =>
      case Flipped180 =>
      case Flipped270 =>
    }
  }

  lemma TurnThenFaced(a: Transform, b: Transform, p: Point)
    requires !IsFlipped(a)
    ensures Faced(a, Faced(b, p)) == Faced(Composed(a, b), p)
  {
    match a {
      case Normal =>
      case Rot90 =>
      case Rot180 =>
      case Rot270 =>
    }
  }

  lemma FlipThenFaced(a: Transform, b: Transform, p: Point)
    requires IsFlipped(a)
    ensures Faced(a, Faced(b, p)) == Faced(Composed(a, b), p)
  {
    match a {
      case Flipped =>
      case Flipped90 =>
      case Flipped180 =>
      case Flipped270 =>
    }
  }

  lemma FacedTwice(a: Transform, b: Transform, p: Point)
    ensures Faced(a, Faced(b, p)) == Faced(Composed(a, b), p)
  {
    hide *;
    if IsFlipped(a) {
      FlipThenFaced(a, b, p);
    } else {
      TurnThenFaced(a, b, p);
    }
  }

  /** The table is closed under products, as turns and reflections compose: a reflection reverses later turns. */
  lemma TableComposes(a: Transform, b: Transform)
    ensures Product(Table(a), Table(b)) == Table(Composed(a, b))
  {
    hide Apply, Table, Product, Composed, Faced, Affine;
    forall p ensures Affine(Product(Table(a), Table(b))) && Affine(Table(Composed(a, b)))
                     && Apply(Product(Table(a), Table(b)), p) == Apply(Table(Composed(a, b)), p) {
      TableActs(b, p);
      TableActs(a, Faced(b, p));
      TableActs(Composed(a, b), p);
      FacedTwice(a, b, p);
      ProductComposes(Table(a), Table(b), p);
    }
    var _ := Apply(Product(Table(a), Table(b)), Point(0.0, 0.0));
    SameMap(Product(Table(a), Table(b)), Table(Composed(a, b)));
  }

  // ----- matrixProjection

  /** The box that is mapped: its sides are swapped for quarter turns. */
  function Domain(width: int, height: int, t: Transform): Box {
    if Quarter(t) then Box(0.0, 0.0, height as real, width as real) else Box(0.0, 0.0, width as real, height as real)
  }

  predicate Inside(b: Box, p: Point) { b.x <= p.x <= b.x + b.w && b.y <= p.y <= b.y + b.h }

  const SQUARE := Box(-1.0, -1.0, 2.0, 2.0)
  const UNIT := Box(0.0, 0.0, 1.0, 1.0)

  /** [0, n] onto [-1, 1], and back. */
  function Forth(a: real, n: real): real
    requires n > 0.0
  {
    2.0 * a / n - 1.0
  }

  function Back(u: real, n: real): real { (u + 1.0) / 2.0 * n }

  lemma ForthAndBack(a: real, u: real, n: real)
    requires n > 0.0
    ensures 0.0 <= a <= n <==> -1.0 <= Forth(a, n) <= 1.0
    ensures Back(Forth(a, n), n) == a && Forth(Back(u, n), n) == u
    ensures 2.0 / n > 0.0 && 2.0 / n * a == Forth(a, n) + 1.0
  {
    var r := 2.0 * a / n;
    assert r * n == 2.0 * a;
    if a <= n { assert (2.0 - r) * n >= 0.0; }
    if a < 0.0 { assert r < 0.0; }
    if a > n { assert (r - 2.0) * n > 0.0; }
    var q := 2.0 / n;
    assert q * n == 2.0;
    assert (q * a - r) * n == 0.0;
    assert 2.0 * ((u + 1.0) / 2.0 * n) == (u + 1.0) * n;
    assert (u + 1.0) * n / n == u + 1.0;
  }

  predicate Quarter(t: Transform) { Quarters(t) % 2 == 1 }

  /** Whether the horizontal and the vertical run backwards. */
  predicate Leftward(t: Transform) { t.Rot180? || t.Rot270? || t.Flipped? || t.Flipped270? }

  predicate Downward(t: Transform) { t.Normal? || t.Rot270? || t.Flipped? || t.Flipped90? }

  function Signed(back: bool, v: real): real { if back then -v else v }

  /**
   The side of the box that ends up horizontal, and the one that ends up vertical, run over [-1, 1] one way or the
   other.
   */
  function Ideal(width: int, height: int, t: Transform, p: Point): Point
    requires width > 0 && height > 0
  {
    var q := if Quarter(t) then Point(p.y, p.x) else p;
    Point(Signed(Leftward(t), Forth(q.x, width as real)), Signed(Downward(t), Forth(q.y, height as real)))
  }

  /** The point that a point of the square comes from. */
  function Unprojected(width: int, height: int, t: Transform, q: Point): Point {
    var p := Point(Back(Signed(Leftward(t), q.x), width as real), Back(Signed(Downward(t), q.y), height as real));
    if Quarter(t) then Point(p.y, p.x) else p
  }

  lemma ProjectedIsIdeal(width: int, height: int, t: Transform, p: Point)
    requires width > 0 && height > 0
    ensures Apply(Projected(width, height, t), p) == Ideal(width, height, t, p)
  {
    var (m, w, h) := (Table(t), width as real, height as real);
    ProjectedRows(2.0 / w, 2.0 / h, m, p);
    TableRows(t);
    RowIsIdeal(m.m0, m.m1, w, p);
    RowIsIdeal(-m.m3, -m.m4, h, p);
    hide Forth, Table, Leftward, Downward, Quarter, Axis, RowAt, Apply, ProjectedBy;
  }

  /** A row acting on a point. */
  function RowAt(r: real, a: real, b: real, p: Point): real {
    var row := ProjectedRow(r, a, b);
    Act(row.onX, row.onY, row.shift, p)
  }

  lemma ProjectedRows(x: real, y: real, m: Mat, p: Point)
    ensures Apply(ProjectedBy(x, y, m), p) == Point(RowAt(x, m.m0, m.m1, p), RowAt(y, -m.m3, -m.m4, p))
  {
    hide ProjectedRow, Act;
  }

  lemma TableRows(t: Transform)
    ensures var m := Table(t);
            && Axis(m.m0, m.m1) && (m.m0 == 0.0 <==> Quarter(t)) && (m.m0 + m.m1 < 0.0 <==> Leftward(t))
            && Axis(-m.m3, -m.m4) && (-m.m4 == 0.0 <==> Quarter(t)) && (-m.m3 + -m.m4 < 0.0 <==> Downward(t))
  {
    match t {
      case Normal =>
      case Rot90 =>
      case Rot180 =>
      case Rot270 =>
      case Flipped =>
      case Flipped90 =>
      case Flipped180 =>
      case Flipped270 =>
    }
  }

  predicate Axis(a: real, b: real) { (a == 0.0 && (b == 1.0 || b == -1.0)) || (b == 0.0 && (a == 1.0 || a == -1.0)) }

  lemma RowIsIdeal(a: real, b: real, n: real, p: Point)
    requires Axis(a, b) && n > 0.0
    ensures RowAt(2.0 / n, a, b, p) == Signed(a + b < 0.0, Forth(if b == 0.0 then p.x else p.y, n))
  {
    ForthAndBack(p.x, 0.0, n);
    ForthAndBack(p.y, 0.0, n);
    PickedRow(a, b, 2.0 / n, p, Forth(p.x, n), Forth(p.y, n));
    hide Forth, RowAt, Axis;
  }

  lemma PickedRow(a: real, b: real, r: real, p: Point, fx: real, fy: real)
    requires Axis(a, b) && r > 0.0 && r * p.x == fx + 1.0 && r * p.y == fy + 1.0
    ensures RowAt(r, a, b, p) == Signed(a + b < 0.0, if b == 0.0 then fx else fy)
  {
    if a == 0.0 {
      if b == 1.0 { } else { }
    } else {
      if a == 1.0 { } else { }
    }
  }

  /** For every size and transform the box is mapped one-to-one onto the square, and nothing else is. */
  lemma ProjectionIsBijective(width: int, height: int, t: Transform, p: Point, q: Point)
    requires width > 0 && height > 0
    ensures var m := Projected(width, height, t);
            && (Inside(Domain(width, height, t), p) <==> Inside(SQUARE, Apply(m, p)))
            && Unprojected(width, height, t, Apply(m, p)) == p
            && Apply(m, Unprojected(width, height, t, q)) == q
  {
    var w, h := width as real, height as real;
    var p1 := if Quarter(t) then Point(p.y, p.x) else p;
    ProjectedIsIdeal(width, height, t, p);
    ProjectedIsIdeal(width, height, t, Unprojected(width, height, t, q));
    ForthAndBack(p1.x, Signed(Leftward(t), q.x), w);
    ForthAndBack(p1.y, Signed(Downward(t), q.y), h);
    hide Forth, Back, Apply, Projected, Leftward, Downward;
  }

  // ----- projectBox

  function Shift(p: Point, d: Point): Point { Point(p.x + d.x, p.y + d.y) }

  function Opposite(p: Point): Point { Point(-p.x, -p.y) }

  function Stretch(b: Box, p: Point): Point { Point(b.w * p.x, b.h * p.y) }

  function Turn(c: real, s: real, p: Point): Point { Point(c * p.x - s * p.y, s * p.x + c * p.y) }

  const MIDDLE := Point(0.5, 0.5)

  function Corner(b: Box): Point { Point(b.x, b.y) }

  function HalfSize(b: Box): Point { Point(b.w / 2.0, b.h / 2.0) }

  function Centre(b: Box): Point { Shift(Corner(b), HalfSize(b)) }

  /** Of a rotation by nothing only the angle is asked for: its cosine is 1 and its sine 0. */
  predicate Angle(rotation: real, c: real, s: real) { rotation == 0.0 ==> c == 1.0 && s == 0.0 }

  /** The unit square about its middle, as the transform turns it. */
  function Facing(t: Transform, p: Point): Point { Apply(Table(t), Shift(p, Opposite(MIDDLE))) }

  /** Turn the unit square about its middle, stretch it to the box, rotate it about the centre of the box. */
  function IdealPlace(b: Box, t: Transform, c: real, s: real, p: Point): Point {
    Shift(Turn(c, s, Stretch(b, Facing(t, p))), Centre(b))
  }

  lemma Maps(b: Box, c: real, s: real, p: Point, q: Point)
    ensures Apply(Translation(q.x, q.y), p) == Shift(p, q)
    ensures Apply(Translation(-q.x, -q.y), p) == Shift(p, Opposite(q))
    ensures Apply(Rotation(c, s), p) == Turn(c, s, p)
    ensures Apply(Scaling(b.w, b.h), p) == Stretch(b, p)
  {
  }

  lemma Turned(m: Mat, t: Transform, p: Point)
    requires Affine(m)
    ensures Affine(TurnedBy(m, t)) && Apply(TurnedBy(m, t), p) == Apply(m, Shift(Facing(t, p), MIDDLE))
  {
    hide Product, Apply, Shift, Opposite;
    var m1 := Product(m, Translation(0.5, 0.5));
    var m2 := Product(m1, Table(t));
    ProductComposes(m, Translation(0.5, 0.5), Facing(t, p));
    ProductComposes(m1, Table(t), Shift(p, Opposite(MIDDLE)));
    ProductComposes(m2, Translation(-0.5, -0.5), p);
    Maps(UNIT, 1.0, 0.0, Facing(t, p), MIDDLE);
    Maps(UNIT, 1.0, 0.0, p, MIDDLE);
  }

  lemma RotatedAbout(m: Mat, o: Point, c: real, s: real, p: Point)
    requires Affine(m)
    ensures var m' := Product(Product(Product(m, Translation(o.x, o.y)), Rotation(c, s)), Translation(-o.x, -o.y));
            && Affine(m') && Apply(m', p) == Apply(m, Shift(Turn(c, s, Shift(p, Opposite(o))), o))
  {
    hide Product, Apply, Shift, Opposite, Turn;
    var m1 := Product(m, Translation(o.x, o.y));
    var p1 := Shift(p, Opposite(o));
    var q := Turn(c, s, p1);
    ProductComposes(m, Translation(o.x, o.y), q);
    ProductComposes(m1, Rotation(c, s), p1);
    ProductComposes(Product(m1, Rotation(c, s)), Translation(-o.x, -o.y), p);
    Maps(UNIT, c, s, p, o);
    Maps(UNIT, c, s, p1, o);
    Maps(UNIT, c, s, q, o);
  }

  lemma RotatedActs(b: Box, rotation: real, c: real, s: real, p: Point)
    requires Angle(rotation, c, s)
    ensures var m := Rotated(b, rotation, c, s);
            Affine(m) && Apply(m, p) == Shift(Turn(c, s, Shift(p, Opposite(HalfSize(b)))), Centre(b))
  {
    var o := HalfSize(b);
    var m := Product(IDENTITY, Translation(b.x, b.y));
    assert m == Translation(b.x, b.y) && Affine(m);
    assert -b.w / 2.0 == -o.x && -b.h / 2.0 == -o.y;
    var q := Turn(c, s, Shift(p, Opposite(o)));
    Shifts(q, Corner(b), o);
    hide Product, Apply, Turn;
    if rotation != 0.0 {
      RotatedAbout(m, o, c, s, p);
      Maps(b, c, s, Shift(q, o), Corner(b));
    } else {
      NoTurn(Shift(p, Opposite(o)));
      Maps(b, c, s, p, Corner(b));
    }
  }

  lemma NoTurn(p: Point)
    ensures Turn(1.0, 0.0, p) == p
  {
  }

  lemma Shifts(p: Point, a: Point, b: Point)
    ensures Shift(Shift(p, b), a) == Shift(p, Shift(a, b))
    ensures Shift(Shift(p, b), Opposite(b)) == p && Shift(Shift(p, Opposite(b)), b) == p
  {
  }

  lemma Stretched(b: Box, q: Point)
    ensures Shift(Stretch(b, Shift(q, MIDDLE)), Opposite(HalfSize(b))) == Stretch(b, q)
  {
  }

  lemma NormalFaces(p: Point)
    ensures Shift(Facing(Normal, p), MIDDLE) == p
  {
  }

  /** projectBox does what it should for every box, transform and rotation. */
  lemma PlacedIsIdeal(b: Box, t: Transform, rotation: real, c: real, s: real, p: Point)
    requires Angle(rotation, c, s)
    ensures Affine(Placed(b, t, rotation, c, s)) && Apply(Placed(b, t, rotation, c, s), p) == IdealPlace(b, t, c, s, p)
  {
    hide Apply, Product, Facing, Rotated, TurnedBy, Shift, Stretch, Turn, Opposite, HalfSize, Centre;
    var q := Facing(t, p);
    var p1 := Shift(q, MIDDLE);
    var p2 := Stretch(b, p1);
    var r := Rotated(b, rotation, c, s);
    Stretched(b, q);
    NormalFaces(p);
    Maps(b, c, s, p1, MIDDLE);
    RotatedActs(b, rotation, c, s, p2);
    ProductComposes(r, Scaling(b.w, b.h), p1);
    Turned(Product(r, Scaling(b.w, b.h)), t, p);
  }

  /** The centre stays where it is, whatever the rotation and the transform. */
  lemma CentreIsFixed(b: Box, t: Transform, rotation: real, c: real, s: real)
    requires Angle(rotation, c, s)
    ensures Apply(Placed(b, t, rotation, c, s), MIDDLE) == Centre(b)
  {
    hide *;
    PlacedIsIdeal(b, t, rotation, c, s, MIDDLE);
    MiddleStays(b, t, c, s);
  }

  lemma MiddleStays(b: Box, t: Transform, c: real, s: real)
    ensures IdealPlace(b, t, c, s, MIDDLE) == Centre(b)
  {
    hide Centre, Apply, Table, HalfSize;
    assert Shift(MIDDLE, Opposite(MIDDLE)) == Point(0.0, 0.0);
    TableKeepsOrigin(t);
    assert Turn(c, s, Stretch(b, Point(0.0, 0.0))) == Point(0.0, 0.0);
    hide Turn, Stretch, Opposite;
  }

  lemma TableKeepsOrigin(t: Transform)
    ensures Apply(Table(t), Point(0.0, 0.0)) == Point(0.0, 0.0)
  {
    hide Table;
    TableIsLinear(t);
  }

  lemma TableIsLinear(t: Transform)
    ensures Table(t).m2 == Table(t).m5 == 0.0
  {
  }

  /** Without a rotation the unit square lands on the box, and only it does. */
  lemma UnitSquareFillsBox(b: Box, t: Transform, p: Point)
    requires b.w > 0.0 && b.h > 0.0
    ensures Inside(UNIT, p) <==> Inside(b, Apply(Placed(b, t, 0.0, 1.0, 0.0), p))
  {
    hide Apply, Placed, Table, Turn;
    PlacedIsIdeal(b, t, 0.0, 1.0, 0.0, p);
    var q := Facing(t, p);
    NoTurn(Stretch(b, q));
    TableKeepsSquare(t, Shift(p, Opposite(MIDDLE)));
    HalfSpan(q.x, b.w);
    HalfSpan(q.y, b.h);
  }

  lemma TableKeepsSquare(t: Transform, p: Point)
    ensures var q := Apply(Table(t), p);
            -0.5 <= p.x <= 0.5 && -0.5 <= p.y <= 0.5 <==> -0.5 <= q.x <= 0.5 && -0.5 <= q.y <= 0.5
  {
    match t {
      case Normal =>
      case Rot90 =>
      case Rot180 =>
      case Rot270 =>
      case Flipped =>
      case Flipped90 =>
      case Flipped180 =>
      case Flipped270 =>
    }
  }

  lemma HalfSpan(a: real, n: real)
    requires n > 0.0
    ensures -0.5 <= a <= 0.5 <==> -n / 2.0 <= n * a <= n / 2.0
  {
    if a < -0.5 { assert n * (-0.5 - a) > 0.0; }
    if a > 0.5 { assert n * (a - 0.5) > 0.0; }
    if -0.5 <= a <= 0.5 { assert n * (a + 0.5) >= 0.0 && n * (0.5 - a) >= 0.0; }
  }

  function Square(x: real): real { x * x }

  function Far(p: Point, q: Point): real { Square(p.x - q.x) + Square(p.y - q.y) }

  /** A true rotation moves no point nearer to the centre of the box and none away. */
  lemma RotationKeepsDistance(b: Box, t: Transform, rotation: real, c: real, s: real, p: Point)
    requires Angle(rotation, c, s) && c * c + s * s == 1.0
    ensures Far(Apply(Placed(b, t, rotation, c, s), p), Centre(b))
            == Far(Apply(Placed(b, t, 0.0, 1.0, 0.0), p), Centre(b))
  {
    hide Placed, Apply, Facing, Turn, Stretch, Far;
    PlacedIsIdeal(b, t, rotation, c, s, p);
    PlacedIsIdeal(b, t, 0.0, 1.0, 0.0, p);
    var q := Stretch(b, Facing(t, p));
    NoTurn(q);
    FarShift(Turn(c, s, q), Centre(b));
    FarShift(q, Centre(b));
    Pythagoras(c, s, q);
  }

  lemma FarShift(p: Point, o: Point)
    ensures Far(Shift(p, o), o) == Far(p, Point(0.0, 0.0))
  {
    hide Square;
    assert p.x + o.x - o.x == p.x && p.y + o.y - o.y == p.y;
  }

  lemma Pythagoras(c: real, s: real, p: Point)
    requires c * c + s * s == 1.0
    ensures Far(Turn(c, s, p), Point(0.0, 0.0)) == Far(p, Point(0.0, 0.0))
  {
    var x, y := p.x, p.y;
    var xx, yy := x * x, y * y;
    assert Square(c * x - s * y) == (c * c) * xx - 2.0 * (c * s) * (x * y) + (s * s) * yy;
    assert Square(s * x + c * y) == (s * s) * xx + 2.0 * (c * s) * (x * y) + (c * c) * yy;
    assert (c * c) * xx + (s * s) * xx == (c * c + s * s) * xx;
    assert (c * c) * yy + (s * s) * yy == (c * c + s * s) * yy;
  }

  // ----- blit

  /** The matrix that flips the target upside down about its middle. */
  function Base(width: int, height: int): Mat {
    var w, h := width as real / 2.0, height as real / 2.0;
    Product(Product(Product(IDENTITY, Translation(w, h)), Table(Flipped180)), Translation(-w, -h))
  }

  function BlitMatrix(width: int, height: int): Mat
    requires width > 0 && height > 0
  {
    var box := Box(0.0, 0.0, width as real, height as real);
    Product(Projected(width, height, Flipped180), Product(Base(width, height), Placed(box, Flipped180, 0.0, 1.0, 0.0)))
  }

  lemma BaseFlips(width: int, height: int, p: Point)
    ensures Affine(Base(width, height)) && Apply(Base(width, height), p) == Point(p.x, height as real - p.y)
  {
    var w, h := width as real / 2.0, height as real / 2.0;
    assert Base(width, height) == Mat(1.0, 0.0, 0.0, 0.0, -1.0, height as real, 0.0, 0.0, 1.0);
  }

  const FILL := Mat(2.0, 0.0, -1.0, 0.0, 2.0, -1.0, 0.0, 0.0, 1.0)

  /** For every size of the target, the whole of it is filled, upright: (u, v) goes to (2u - 1, 2v - 1). */
  lemma BlitFillsTheTarget(width: int, height: int)
    requires width > 0 && height > 0
    ensures BlitMatrix(width, height) == FILL
  {
    hide BlitMatrix, Apply;
    forall p ensures Affine(BlitMatrix(width, height)) && Apply(BlitMatrix(width, height), p) == Apply(FILL, p) {
      BlitPoint(width, height, p);
      FillPoint(p);
    }
    var _ := Apply(BlitMatrix(width, height), MIDDLE);
    SameMap(BlitMatrix(width, height), FILL);
  }

  lemma FillPoint(p: Point)
    ensures Apply(FILL, p) == Point(2.0 * p.x - 1.0, 2.0 * p.y - 1.0)
  {
  }

  lemma Upright(p: Point)
    ensures Facing(Flipped180, p) == Point(p.x - 0.5, 0.5 - p.y)
  {
  }

  /** projectBox with the flip lays the unit square on the box upside down. */
  lemma UpsideDown(w: real, h: real, p: Point)
    ensures IdealPlace(Box(0.0, 0.0, w, h), Flipped180, 1.0, 0.0, p) == Point(w * p.x, h - h * p.y)
  {
    var box := Box(0.0, 0.0, w, h);
    Upright(p);
    NoTurn(Stretch(box, Facing(Flipped180, p)));
    hide Facing, Turn;
    assert w * (p.x - 0.5) == w * p.x - w / 2.0 && h * (0.5 - p.y) == h / 2.0 - h * p.y;
  }

  lemma FillsIdeally(width: int, height: int, p: Point, r: Point)
    requires width > 0 && height > 0 && r == Point(width as real * p.x, height as real * p.y)
    ensures Ideal(width, height, Flipped180, r) == Point(2.0 * p.x - 1.0, 2.0 * p.y - 1.0)
  {
    var w, h := width as real, height as real;
    assert w * p.x == Back(2.0 * p.x - 1.0, w) && h * p.y == Back(2.0 * p.y - 1.0, h);
    ForthAndBack(0.0, 2.0 * p.x - 1.0, w);
    ForthAndBack(0.0, 2.0 * p.y - 1.0, h);
    hide Forth, Back;
  }

  lemma BlitPoint(width: int, height: int, p: Point)
    requires width > 0 && height > 0
    ensures Affine(BlitMatrix(width, height))
            && Apply(BlitMatrix(width, height), p) == Point(2.0 * p.x - 1.0, 2.0 * p.y - 1.0)
  {
    hide Apply, Base, Placed, Projected, Product, IdealPlace, Ideal;
    var w, h := width as real, height as real;
    var box := Box(0.0, 0.0, w, h);
    var proj, base, placed := Projected(width, height, Flipped180), Base(width, height),
        Placed(box, Flipped180, 0.0, 1.0, 0.0);
    var q, r := Point(w * p.x, h - h * p.y), Point(w * p.x, h * p.y);
    PlacedIsIdeal(box, Flipped180, 0.0, 1.0, 0.0, p);
    UpsideDown(w, h, p);
    BaseFlips(width, height, q);
    assert h - (h - h * p.y) == h * p.y;
    ProductComposes(base, placed, p);
    ProjectedIsAffine(width, height, Flipped180);
    ProductComposes(proj, Product(base, placed), p);
    ProjectedIsIdeal(width, height, Flipped180, r);
    FillsIdeally(width, height, p, r);
  }

  lemma ProjectedIsAffine(width: int, height: int, t: Transform)
    requires width > 0 && height > 0
    ensures Affine(Projected(width, height, t))
  {
  }

  // ----- the code: every function writes into the caller's nine floats

  ghost function Value(a: array<real>): Mat
    requires a.Length == 9
    reads a
  {
    Mat(a[0], a[1], a[2], a[3], a[4], a[5], a[6], a[7], a[8])
  }

  /** memcpy of a local matrix. */
  method Store(mat: array<real>, m: Mat)
    requires mat.Length == 9
    modifies mat
    ensures Value(mat) == m
  {
    mat[0], mat[1], mat[2] := m.m0, m.m1, m.m2;
    mat[3], mat[4], mat[5] := m.m3, m.m4, m.m5;
    mat[6], mat[7], mat[8] := m.m6, m.m7, m.m8;
  }

  method MatrixIdentity(mat: array<real>)
    requires mat.Length == 9
    modifies mat
    ensures Value(mat) == IDENTITY
  {
    Store(mat, IDENTITY);
  }

  /** The result may be either factor. */
  method MatrixMultiply(mat: array<real>, a: array<real>, b: array<real>)
    requires mat.Length == a.Length == b.Length == 9
    modifies mat
    ensures Value(mat) == Product(old(Value(a)), old(Value(b)))
  {
    var product := Mat(
      a[0] * b[0] + a[1] * b[3] + a[2] * b[6],
      a[0] * b[1] + a[1] * b[4] + a[2] * b[7],
      a[0] * b[2] + a[1] * b[5] + a[2] * b[8],
      a[3] * b[0] + a[4] * b[3] + a[5] * b[6],
      a[3] * b[1] + a[4] * b[4] + a[5] * b[7],
      a[3] * b[2] + a[4] * b[5] + a[5] * b[8],
      a[6] * b[0] + a[7] * b[3] + a[8] * b[6],
      a[6] * b[1] + a[7] * b[4] + a[8] * b[7],
      a[6] * b[2] + a[7] * b[5] + a[8] * b[8]);
    Store(mat, product);
  }

  /** Multiplies in place by a matrix of the library. */
  method MultiplyBy(mat: array<real>, m: Mat)
    requires mat.Length == 9
    modifies mat
    ensures Value(mat) == Product(old(Value(mat)), m)
  {
    hide Product;
    var factor := new real[9];
    Store(factor, m);
    MatrixMultiply(mat, mat, factor);
  }

  method MatrixTranslate(mat: array<real>, x: real, y: real)
    requires mat.Length == 9
    modifies mat
    ensures Value(mat) == Product(old(Value(mat)), Translation(x, y))
  {
    MultiplyBy(mat, Mat(1.0, 0.0, x, 0.0, 1.0, y, 0.0, 0.0, 1.0));
  }

  method MatrixScale(mat: array<real>, x: real, y: real)
    requires mat.Length == 9
    modifies mat
    ensures Value(mat) == Product(old(Value(mat)), Scaling(x, y))
  {
    MultiplyBy(mat, Mat(x, 0.0, 0.0, 0.0, y, 0.0, 0.0, 0.0, 1.0));
  }

  method MatrixRotate(mat: array<real>, c: real, s: real)
    requires mat.Length == 9
    modifies mat
    ensures Value(mat) == Product(old(Value(mat)), Rotation(c, s))
  {
    MultiplyBy(mat, Mat(c, -s, 0.0, s, c, 0.0, 0.0, 0.0, 1.0));
  }

  method MatrixTransform(mat: array<real>, t: Transform)
    requires mat.Length == 9
    modifies mat
    ensures Value(mat) == Product(old(Value(mat)), Table(t))
  {
    MultiplyBy(mat, Table(t));
  }

  method MatrixProjection(mat: array<real>, width: int, height: int, t: Transform)
    requires mat.Length == 9 && width > 0 && height > 0
    modifies mat
    ensures Value(mat) == Projected(width, height, t)
  {
    hide Table, ProjectedBy;
    FillProjection(mat, 2.0 / width as real, 2.0 / height as real, Table(t));
  }

  method FillProjection(mat: array<real>, x: real, y: real, m: Mat)
    requires mat.Length == 9
    modifies mat
    ensures Value(mat) == ProjectedBy(x, y, m)
  {
    Store(mat, Mat(0.0, 0.0, 0.0, 0.0, 0.0, 0.0, 0.0, 0.0, 0.0));
    var (m0, m1, m3, m4) := (x * m.m0, x * m.m1, y * -m.m3, y * -m.m4);
    mat[0], mat[1] := m0, m1;
    mat[3], mat[4] := m3, m4;
    assert mat[0] + mat[1] == m0 + m1 && mat[3] + mat[4] == m3 + m4;
    mat[2] := -Copysign(mat[0] + mat[1]);
    mat[5] := -Copysign(mat[3] + mat[4]);
    mat[8] := 1.0;
  }

  method ProjectBox(mat: array<real>, b: Box, t: Transform, rotation: real, c: real, s: real, projection: array<real>)
    requires mat.Length == projection.Length == 9 && mat != projection
    modifies mat
    ensures Value(mat) == Product(Value(projection), Placed(b, t, rotation, c, s))
  {
    hide Product, Table;
    MatrixIdentity(mat);
    MatrixTranslate(mat, b.x, b.y);
    if rotation != 0.0 {
      MatrixTranslate(mat, b.w / 2.0, b.h / 2.0);
      MatrixRotate(mat, c, s);
      MatrixTranslate(mat, -b.w / 2.0, -b.h / 2.0);
    }
    MatrixScale(mat, b.w, b.h);
    if t != Normal {
      MatrixTranslate(mat, 0.5, 0.5);
      MatrixTransform(mat, t);
      MatrixTranslate(mat, -0.5, -0.5);
    }
    MatrixMultiply(mat, projection, mat);
  }

  /** The matrix part of CDRMRenderer::blit. */
  method Blit(width: int, height: int) returns (glMtx: array<real>)
    requires width > 0 && height > 0
    ensures fresh(glMtx) && glMtx.Length == 9 && Value(glMtx) == FILL
  {
    hide Product, Table, Projected, Placed;
    var mtx, base, monitorProj := new real[9], new real[9], new real[9];
    MatrixIdentity(base);
    MatrixTranslate(base, width as real / 2.0, height as real / 2.0);
    MatrixTransform(base, Flipped180);
    MatrixTranslate(base, -(width as real) / 2.0, -(height as real) / 2.0);
    HalfOpposite(width as real);
    HalfOpposite(height as real);
    ProjectBox(mtx, Box(0.0, 0.0, width as real, height as real), Flipped180, 0.0, 1.0, 0.0, base);
    MatrixProjection(monitorProj, width, height, Flipped180);
    glMtx := new real[9];
    MatrixMultiply(glMtx, monitorProj, mtx);
    BlitFillsTheTarget(width, height);
  }

  lemma HalfOpposite(x: real)
    ensures -x / 2.0 == -(x / 2.0)
  {
  }
}
