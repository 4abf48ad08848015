/**
 * The geometry of one connector: the midpoint between its two endpoints and
 * the path drawn for its type, as `connect` computes them, and the shapes a
 * drawing is made of.
 */
module Connect {
  import opened GoInt
  import opened Wrappers

  datatype Point = Point(x: int, y: int)

  /** The four connector types that draw a path; each has its own stroke. */
  datatype PathStyle = Normal | Bold | Change | ChangeInertia

  /**
   * A path through `points`. Only a `normal` connector gives its path an
   * element id, made of the two node ids.
   */
  datatype Path = Path(style: PathStyle, points: seq<Point>, color: string, id: Option<string>)

  /** What a drawing puts on the canvas, in drawing order. */
  datatype Shape =
    | ConnectorPath(path: Path)
    | TextLines(at: Point, text: string)
    | NodeMark(title: string, center: Point, fill: string, stroke: string)

  /**
   * The midpoint of two coordinates, halving the distance from the smaller
   * one with Go's truncating division.
   */
  function Mid(p: int, q: int): (m: int)
    ensures m == Min(p, q) + (Max(p, q) - Min(p, q)) / 2
    ensures Min(p, q) <= m <= Max(p, q)
  {
    if p > q then q + GoDiv(p - q, 2) else p + GoDiv(q - p, 2)
  }

  /**
   * The point halfway between `a` and `b`: in each coordinate, the smaller
   * end plus half the distance, rounded down.
   */
  function Midpoint(a: Point, b: Point): (m: Point)
    ensures m.x == Min(a.x, b.x) + (Max(a.x, b.x) - Min(a.x, b.x)) / 2
    ensures m.y == Min(a.y, b.y) + (Max(a.y, b.y) - Min(a.y, b.y)) / 2
  {
    Point(Mid(a.x, b.x), Mid(a.y, b.y))
  }

  /** The midpoint does not depend on which endpoint comes first. */
  lemma MidpointSymmetric(a: Point, b: Point)
    ensures Midpoint(a, b) == Midpoint(b, a)
  {
  }

  /** The midpoint lies in the box spanned by the two endpoints. */
  lemma MidpointBetween(a: Point, b: Point)
    ensures Min(a.x, b.x) <= Midpoint(a, b).x <= Max(a.x, b.x)
    ensures Min(a.y, b.y) <= Midpoint(a, b).y <= Max(a.y, b.y)
  {
  }

  /** The style a connector type selects, if any. */
  function StyleOf(kind: string): (r: Option<PathStyle>)
    ensures r.Some? <==> kind in {"normal", "bold", "change", "change-inertia"}
  {
    match kind
    case "normal" => Some(Normal)
    case "bold" => Some(Bold)
    case "change" => Some(Change)
    case "change-inertia" => Some(ChangeInertia)
    case _ => None
  }

  /**
   * The path `connect` draws between nodes `aId` at `a` and `bId` at `b`:
   * a straight segment for `normal` and `bold`, a segment bent through the
   * midpoint for `change` and `change-inertia`, and nothing for any other
   * type.
   */
  function PathOf(kind: string, color: string, aId: string, bId: string, a: Point, b: Point): (r: Option<Path>)
    ensures r.Some? <==> StyleOf(kind).Some?
    ensures r.Some? ==> r.value.style == StyleOf(kind).value && r.value.color == color
    ensures r.Some? ==> |r.value.points| in {2, 3} && r.value.points[0] == a && r.value.points[|r.value.points| - 1] == b
    ensures r.Some? ==> (|r.value.points| == 2 <==> kind in {"normal", "bold"})
    ensures r.Some? && |r.value.points| == 3 ==> r.value.points[1] == Midpoint(a, b)
    ensures r.Some? ==> (r.value.id.Some? <==> kind == "normal")
    ensures r.Some? && kind == "normal" ==> r.value.id == Some(aId + "-" + bId)
  {
    match kind
    case "normal" => Some(Path(Normal, [a, b], color, Some(aId + "-" + bId)))
    case "bold" => Some(Path(Bold, [a, b], color, None))
    case "change" => Some(Path(Change, [a, Midpoint(a, b), b], color, None))
    case "change-inertia" => Some(Path(ChangeInertia, [a, Midpoint(a, b), b], color, None))
    case _ => None
  }

  /**
   * Everything `connect` puts on the canvas: the path, when the type has
   * one, then the label, offset by (8, 10) from the midpoint whatever the
   * type.
   */
  function ConnectShapes(kind: string, color: string, caption: string,
                         aId: string, bId: string, a: Point, b: Point): (r: seq<Shape>)
    ensures |r| == if StyleOf(kind).Some? then 2 else 1
    ensures r[|r| - 1] == TextLines(Point(Midpoint(a, b).x + 8, Midpoint(a, b).y + 10), caption)
    ensures |r| == 2 ==> r[0] == ConnectorPath(PathOf(kind, color, aId, bId, a, b).value)
  {
    var m := Midpoint(a, b);
    var text := TextLines(Point(m.x + 8, m.y + 10), caption);
    match PathOf(kind, color, aId, bId, a, b)
    case Some(p) => [ConnectorPath(p), text]
    case None => [text]
  }

  /** The shapes `connect` adds are the optional path followed by the caption. */
  lemma ConnectShapesSplit(kind: string, color: string, caption: string,
                           aId: string, bId: string, a: Point, b: Point)
    ensures var path := PathOf(kind, color, aId, bId, a, b);
      ConnectShapes(kind, color, caption, aId, bId, a, b) ==
      (if path.Some? then [ConnectorPath(path.value)] else []) +
      [TextLines(Point(Midpoint(a, b).x + 8, Midpoint(a, b).y + 10), caption)]
  {
  }
}
