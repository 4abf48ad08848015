/**
 * The renderer's drawing pass over a decoded map: the scan for per-stage
 * maxima, the placement of every node, the resolution of each connector's
 * endpoints, and what ends up on the canvas.
 *
 * The package-level variables of the renderer (the flag values, the decoded
 * input, the grid, the connector counter) become the fields of `Program`.
 * The canvas is modelled as the sequence of shapes drawn on it, and the
 * error stream as the sequence of node names it reports.
 */
module Drawing {
  import opened Wrappers
  import opened GoInt
  import opened Layout
  import opened Connect

  /**
   * A decoded node. Only its coordinates are written after decoding, so the
   * decoded attributes are constants and `X`, `Y` the only variables.
   */
  class Node {
    const ID: string
    const Label: string
    const Description: string
    var X: int
    var Y: int
    const Visibility: int
    const Evolution: string
    const EvolutionX: int
    const Fill: string
    const Color: string

    /** A freshly decoded node: its coordinates hold Go's zero value. */
    constructor (id: string, caption: string, description: string, visibility: int,
                 evolution: string, evolutionX: int, fill: string, color: string)
      ensures ID == id && Label == caption && Description == description
      ensures Visibility == visibility && Evolution == evolution && EvolutionX == evolutionX
      ensures Fill == fill && Color == color
      ensures X == 0 && Y == 0
    {
      ID, Label, Description := id, caption, description;
      Visibility, Evolution, EvolutionX := visibility, evolution, evolutionX;
      Fill, Color := fill, color;
      X, Y := 0, 0;
    }
  }

  datatype Connector = Connector(Label: string, From: string, To: string, Color: string, Type: string)

  /** The decoded input document. */
  datatype MapDoc = MapDoc(Nodes: seq<Node>, Connectors: seq<Connector>)

  /** The five accumulators of the scan. */
  datatype Maxima = Maxima(genesis: int, custom: int, product: int, commodity: int, visibility: int)

  /**
   * The largest offset among the nodes of one stage, starting from 0: it is
   * never negative, bounds every offset of that stage, and is either 0 or
   * the offset of some node of that stage.
   */
  function StageMax(nodes: seq<Node>, stage: string): (m: int)
    ensures m >= 0
    ensures forall i :: 0 <= i < |nodes| && nodes[i].Evolution == stage ==> nodes[i].EvolutionX <= m
    ensures m == 0 || exists i :: 0 <= i < |nodes| && nodes[i].Evolution == stage && nodes[i].EvolutionX == m
    decreases |nodes|
  {
    if nodes == [] then 0
    else
      var prefix := nodes[..|nodes| - 1];
      var m := StageMax(prefix, stage);
      var n := nodes[|nodes| - 1];
      assert forall i :: 0 <= i < |prefix| ==> prefix[i] == nodes[i];
      if n.Evolution == stage && n.EvolutionX > m then n.EvolutionX else m
  }

  /**
   * The largest visibility among all nodes, starting from 0: never negative,
   * an upper bound of every visibility, and either 0 or some node's.
   */
  function VisibilityMax(nodes: seq<Node>): (m: int)
    ensures m >= 0
    ensures forall i :: 0 <= i < |nodes| ==> nodes[i].Visibility <= m
    ensures m == 0 || exists i :: 0 <= i < |nodes| && nodes[i].Visibility == m
    decreases |nodes|
  {
    if nodes == [] then 0
    else
      var prefix := nodes[..|nodes| - 1];
      var m := VisibilityMax(prefix);
      var n := nodes[|nodes| - 1];
      assert forall i :: 0 <= i < |prefix| ==> prefix[i] == nodes[i];
      if n.Visibility > m then n.Visibility else m
  }

  function MaximaOf(nodes: seq<Node>): Maxima {
    Maxima(StageMax(nodes, "genesis"), StageMax(nodes, "custom"), StageMax(nodes, "product"),
           StageMax(nodes, "commodity"), VisibilityMax(nodes))
  }

  function IDs(nodes: seq<Node>): (ids: seq<string>)
    ensures |ids| == |nodes| && forall i :: 0 <= i < |nodes| ==> ids[i] == nodes[i].ID
  {
    seq(|nodes|, i requires 0 <= i < |nodes| => nodes[i].ID)
  }

  /** The position of the last occurrence of `id` in `ids`, if any. */
  function LastIndex(ids: seq<string>, id: string): (r: Option<nat>)
    ensures r.None? <==> id !in ids
    ensures r.Some? ==> r.value < |ids| && ids[r.value] == id
    ensures r.Some? ==> forall j :: r.value < j < |ids| ==> ids[j] != id
    decreases |ids|
  {
    if ids == [] then None
    else if ids[|ids| - 1] == id then Some(|ids| - 1)
    else
      var prefix := ids[..|ids| - 1];
      assert ids == prefix + [ids[|ids| - 1]];
      LastIndex(prefix, id)
  }

  /** The node a connector endpoint names: the last node with that id, or none. */
  function Lookup(nodes: seq<Node>, id: string): (r: Node?)
    ensures r == null <==> id !in IDs(nodes)
    ensures r != null ==> exists i :: 0 <= i < |nodes| && nodes[i] == r && r.ID == id &&
                                      forall j :: i < j < |nodes| ==> nodes[j].ID != id
  {
    match LastIndex(IDs(nodes), id)
    case None => null
    case Some(i) => nodes[i]
  }

  /** A connector is drawn exactly when both its endpoints name a node. */
  predicate Resolvable(ids: seq<string>, c: Connector) {
    c.From in ids && c.To in ids
  }

  /** How many of the connectors are drawn. */
  function DrawnCount(ids: seq<string>, cs: seq<Connector>): nat
    decreases |cs|
  {
    if cs == [] then 0
    else DrawnCount(ids, cs[..|cs| - 1]) + if Resolvable(ids, cs[|cs| - 1]) then 1 else 0
  }

  /**
   * The names reported for skipped connectors, in order: the `From` name,
   * even when it is the `To` end that is missing.
   */
  function Skipped(ids: seq<string>, cs: seq<Connector>): seq<string>
    decreases |cs|
  {
    if cs == [] then []
    else Skipped(ids, cs[..|cs| - 1]) + if Resolvable(ids, cs[|cs| - 1]) then [] else [cs[|cs| - 1].From]
  }

  function Pos(n: Node): Point
    reads n
  {
    Point(n.X, n.Y)
  }

  /** The title of a node's mark: its description when there is one, else its label. */
  function Title(description: string, caption: string): (t: string)
    ensures t in {description, caption}
    ensures t == "" <==> description == "" && caption == ""
    ensures description != "" ==> t == description
  {
    if description != "" then description else caption
  }

  /** What `DrawNode` puts on the canvas for node `n` at `p`. */
  function NodeShapes(n: Node, p: Point): (r: seq<Shape>)
    ensures |r| == 2 && r[0].NodeMark? && r[0].center == p
    ensures r[0].title == Title(n.Description, n.Label)
    ensures r[0].fill == n.Fill && r[0].stroke == n.Color
    ensures r[1] == TextLines(Point(p.x + 8, p.y + 10), n.Label)
  {
    [NodeMark(Title(n.Description, n.Label), p, n.Fill, n.Color),
     TextLines(Point(p.x + 8, p.y + 10), n.Label)]
  }

  /** What the node loop puts on the canvas for nodes at positions `pts`. */
  function NodesDrawn(nodes: seq<Node>, pts: seq<Point>): seq<Shape>
    requires |pts| == |nodes|
    decreases |nodes|
  {
    if nodes == [] then []
    else NodesDrawn(nodes[..|nodes| - 1], pts[..|nodes| - 1]) + NodeShapes(nodes[|nodes| - 1], pts[|nodes| - 1])
  }

  /** The coordinates of the nodes, in order. */
  function Positions(nodes: seq<Node>): (pts: seq<Point>)
    reads nodes
    ensures |pts| == |nodes|
  {
    seq(|nodes|, i reads nodes requires 0 <= i < |nodes| => Pos(nodes[i]))
  }

  /** The x coordinates of the nodes, in order. */
  function Xs(nodes: seq<Node>): (xs: seq<int>)
    reads nodes
    ensures |xs| == |nodes|
  {
    seq(|nodes|, i reads nodes requires 0 <= i < |nodes| => nodes[i].X)
  }

  /**
   * Where `NodeXY` puts each node, given the grid, the maxima and the x
   * coordinates the nodes had before.
   */
  function LaidOut(nodes: seq<Node>, g: Grid, mx: Maxima, xs: seq<int>): (pts: seq<Point>)
    requires |xs| == |nodes| && mx.custom + 1 != 0 && mx.visibility + 1 != 0
    ensures |pts| == |nodes|
  {
    seq(|nodes|, i requires 0 <= i < |nodes| =>
      Point(NodeX(g, nodes[i].Evolution, mx.custom, nodes[i].EvolutionX, xs[i]),
            NodeY(g, mx.visibility, nodes[i].Visibility)))
  }

  /**
   * What the connector loop puts on the canvas, in connector order, for
   * nodes with ids `ids` at positions `pts`.
   */
  function ConnectorsDrawn(ids: seq<string>, pts: seq<Point>, cs: seq<Connector>): seq<Shape>
    requires |pts| == |ids|
    decreases |cs|
  {
    if cs == [] then []
    else
      var c := cs[|cs| - 1];
      ConnectorsDrawn(ids, pts, cs[..|cs| - 1]) + ConnectorDrawn(ids, pts, c)
  }

  /** What the connector loop draws for one connector: nothing unless both ends resolve. */
  function ConnectorDrawn(ids: seq<string>, pts: seq<Point>, c: Connector): seq<Shape>
    requires |pts| == |ids|
  {
    var from, to := LastIndex(ids, c.From), LastIndex(ids, c.To);
    if from.Some? && to.Some? then ConnectShapes(c.Type, c.Color, c.Label, c.From, c.To, pts[from.value], pts[to.value])
    else []
  }

  /** Appending to a sequence that already has a prefix keeps the prefix in front. */
  lemma AppendAssociates<T>(a: seq<T>, b: seq<T>, c: seq<T>)
    ensures (a + b) + c == a + (b + c)
  {
  }

  /** The connector specifications one connector further on. */
  lemma ConnectorStep(ids: seq<string>, pts: seq<Point>, cs: seq<Connector>, i: int)
    requires 0 <= i < |cs| && |pts| == |ids|
    ensures var c := cs[i];
      && DrawnCount(ids, cs[..i + 1]) == DrawnCount(ids, cs[..i]) + (if Resolvable(ids, c) then 1 else 0)
      && Skipped(ids, cs[..i + 1]) == Skipped(ids, cs[..i]) + (if Resolvable(ids, c) then [] else [c.From])
      && ConnectorsDrawn(ids, pts, cs[..i + 1]) == ConnectorsDrawn(ids, pts, cs[..i]) + ConnectorDrawn(ids, pts, c)
  {
    assert cs[..i + 1][..i] == cs[..i];
  }

  /**
   * Resolving a connector against the nodes: it is drawn between the last
   * node named `From` and the last node named `To`, at their positions, or
   * skipped when either is missing.
   */
  lemma ResolvedConnector(nodes: seq<Node>, c: Connector)
    ensures var a, b := Lookup(nodes, c.From), Lookup(nodes, c.To);
      && ((a == null || b == null) <==> !Resolvable(IDs(nodes), c))
      && (a == null || b == null ==> ConnectorDrawn(IDs(nodes), Positions(nodes), c) == [])
      && (a != null && b != null ==> ConnectorDrawn(IDs(nodes), Positions(nodes), c) ==
                                     ConnectShapes(c.Type, c.Color, c.Label, a.ID, b.ID, Pos(a), Pos(b)))
  {
  }

  /** Every connector is either drawn or reported, once. */
  lemma {:induction false} DrawnOrSkipped(ids: seq<string>, cs: seq<Connector>)
    ensures DrawnCount(ids, cs) + |Skipped(ids, cs)| == |cs|
    decreases |cs|
  {
    if cs != [] {
      DrawnOrSkipped(ids, cs[..|cs| - 1]);
    }
  }

  /**
   * Skipping a connector does not stop the loop: the connectors after it
   * are drawn exactly as if they came first.
   */
  lemma {:induction false} DrawnCountSplits(ids: seq<string>, cs1: seq<Connector>, cs2: seq<Connector>)
    ensures DrawnCount(ids, cs1 + cs2) == DrawnCount(ids, cs1) + DrawnCount(ids, cs2)
    decreases |cs2|
  {
    if cs2 == [] {
      assert cs1 + cs2 == cs1;
    } else {
      var init := cs2[..|cs2| - 1];
      assert (cs1 + cs2)[..|cs1 + cs2| - 1] == cs1 + init;
      DrawnCountSplits(ids, cs1, init);
    }
  }

  /**
   * With nodes A and B, a connector from A to B is drawn and one from A to
   * a missing node is skipped, and the report names A.
   */
  lemma DanglingConnectorSkipped()
    ensures var cs := [Connector("", "A", "B", "black", "normal"), Connector("", "A", "missing", "black", "normal")];
      DrawnCount(["A", "B"], cs) == 1 && Skipped(["A", "B"], cs) == ["A"]
  {
    var cs := [Connector("", "A", "B", "black", "normal"), Connector("", "A", "missing", "black", "normal")];
    assert cs[..1] == [cs[0]];
    assert [cs[0]][..0] == [];
  }

  /**
   * After the scan, a custom node with a non-negative offset lies in the
   * custom band whenever the margins leave a non-negative drawable width.
   */
  lemma CustomNodeInCustomBand(nodes: seq<Node>, k: int, margin: int, width: int, height: int, x: int)
    requires 0 <= k < |nodes| && nodes[k].Evolution == "custom" && nodes[k].EvolutionX >= 0
    requires Drawable(width, margin) >= 0
    ensures var g := GridOf(margin, width, height);
      g.Custom <= NodeX(g, "custom", StageMax(nodes, "custom"), nodes[k].EvolutionX, x) <= g.Custom + g.XQuarterLenght
  {
    BandsPartitionWidth(margin, width, height);
    NodeXInBand(GridOf(margin, width, height), "custom", StageMax(nodes, "custom"), nodes[k].EvolutionX, x);
  }

  /**
   * After the scan, a node with a non-negative visibility lies between the
   * bottom axis and one drawable height above it.
   */
  lemma NodeWithinHeight(nodes: seq<Node>, k: int, margin: int, width: int, height: int)
    requires 0 <= k < |nodes| && nodes[k].Visibility >= 0
    requires Drawable(height, margin) >= 0
    ensures var g := GridOf(margin, width, height);
      -g.YLenght <= NodeY(g, VisibilityMax(nodes), nodes[k].Visibility) <= 0
  {
    NodeYWithinHeight(GridOf(margin, width, height), VisibilityMax(nodes), nodes[k].Visibility);
  }

  /** The state of the renderer: its flags, its input, and what it has drawn. */
  class Program {
    const width: int
    const height: int
    const margin: int
    const inputData: MapDoc
    var mapGrid: Grid
    /** Counts the connectors drawn, across drawings. */
    var connectID: int
    /** The shapes drawn on the current canvas, in order. */
    var canvas: seq<Shape>
    /** The node names reported on the error stream, in order. */
    var stderr: seq<string>

    constructor (width: int, height: int, margin: int, inputData: MapDoc)
      ensures this.width == width && this.height == height && this.margin == margin
      ensures this.inputData == inputData
      ensures connectID == 0 && canvas == [] && stderr == []
    {
      this.width, this.height, this.margin := width, height, margin;
      this.inputData := inputData;
      mapGrid := Grid(0, 0, 0, 0, 0, 0, 0);
      connectID := 0;
      canvas, stderr := [], [];
    }

    /** `grid`: computes the band parameters; the guides and axes are not modelled. */
    method SetUpGrid(margin: int, width: int, height: int)
      modifies this`mapGrid
      ensures mapGrid == GridOf(margin, width, height)
    {
      mapGrid := Grid(
        XQuarterLenght := GoDiv(width - margin * 4, 4),
        Genesis := 0,
        Custom := GoDiv(width - margin * 4, 4),
        Product := GoDiv((width - margin * 4) * 2, 4),
        Commodity := GoDiv((width - margin * 4) * 3, 4),
        YLenght := height - margin * 4,
        Visible := 0);
    }

    /**
     * Writes a node's coordinates. The divisors must not be zero, or Go
     * panics; the drawing pass only passes non-negative maxima.
     */
    method NodeXY(n: Node, maxGenesis: int, maxCustom: int, maxProduct: int, maxCommodity: int, maxY: int)
      requires maxCustom + 1 != 0 && maxY + 1 != 0
      modifies n
      ensures n.X == NodeX(mapGrid, n.Evolution, maxCustom, n.EvolutionX, old(n.X))
      ensures n.Y == NodeY(mapGrid, maxY, n.Visibility)
    {
      match n.Evolution {
        case "genesis" =>
          n.X := mapGrid.Genesis + GoDiv(mapGrid.XQuarterLenght, maxCustom + 1) * n.EvolutionX;
        case "custom" =>
          n.X := mapGrid.Custom + GoDiv(mapGrid.XQuarterLenght, maxCustom + 1) * n.EvolutionX;
        case "product" =>
          n.X := mapGrid.Product + GoDiv(mapGrid.XQuarterLenght, maxCustom + 1) * n.EvolutionX;
        case "commodity" =>
          n.X := mapGrid.Commodity + GoDiv(mapGrid.XQuarterLenght, maxCustom + 1) * n.EvolutionX;
        case _ =>
      }
      n.Y := GoDiv(-mapGrid.YLenght, maxY + 1) * (maxY + 1 - n.Visibility);
    }

    /** The first loop of `drawing`: the five running maxima. */
    method ScanMaxima(nodes: seq<Node>) returns (mx: Maxima)
      ensures mx == MaximaOf(nodes)
    {
      var maxGenesis, maxCustom, maxProduct, maxCommodity := 0, 0, 0, 0;
      var maxY := 0;
      for i := 0 to |nodes|
        invariant maxGenesis == StageMax(nodes[..i], "genesis")
        invariant maxCustom == StageMax(nodes[..i], "custom")
        invariant maxProduct == StageMax(nodes[..i], "product")
        invariant maxCommodity == StageMax(nodes[..i], "commodity")
        invariant maxY == VisibilityMax(nodes[..i])
      {
        var n := nodes[i];
        assert nodes[..i + 1][..i] == nodes[..i];
        if n.Evolution == "genesis" && n.EvolutionX > maxGenesis {
          maxGenesis := n.EvolutionX;
        }
        if n.Evolution == "custom" && n.EvolutionX > maxCustom {
          maxCustom := n.EvolutionX;
        }
        if n.Evolution == "product" && n.EvolutionX > maxProduct {
          maxProduct := n.EvolutionX;
        }
        if n.Evolution == "commodity" && n.EvolutionX > maxCommodity {
          maxCommodity := n.EvolutionX;
        }
        if n.Visibility > maxY {
          maxY := n.Visibility;
        }
      }
      assert nodes[..|nodes|] == nodes;
      mx := Maxima(maxGenesis, maxCustom, maxProduct, maxCommodity, maxY);
    }

    /**
     * The second loop of `drawing`: `NodeXY` on every node. A node listed
     * twice is placed twice, to the same coordinates.
     */
    method PlaceNodes(nodes: seq<Node>, mx: Maxima)
      requires mx.custom >= 0 && mx.visibility >= 0
      modifies nodes
      ensures Positions(nodes) == LaidOut(nodes, mapGrid, mx, old(Xs(nodes)))
    {
      for i := 0 to |nodes|
        invariant forall n :: n in nodes[..i] ==>
          n.X == NodeX(mapGrid, n.Evolution, mx.custom, n.EvolutionX, old(n.X)) &&
          n.Y == NodeY(mapGrid, mx.visibility, n.Visibility)
        invariant forall n :: n in nodes && n !in nodes[..i] ==> n.X == old(n.X) && n.Y == old(n.Y)
      {
        var n := nodes[i];
        NodeXIdempotent(mapGrid, n.Evolution, mx.custom, n.EvolutionX, old(n.X));
        NodeXY(n, mx.genesis, mx.custom, mx.product, mx.commodity, mx.visibility);
        assert nodes[..i + 1] == nodes[..i] + [n];
      }
      assert nodes[..|nodes|] == nodes;
      ghost var xs := old(Xs(nodes));
      assert forall i :: 0 <= i < |nodes| ==> old(nodes[i].X) == xs[i];
    }

    /** The inner loop of `drawing`: the last node named `From` and the last named `To`. */
    method FindEndpoints(nodes: seq<Node>, c: Connector) returns (a: Node?, b: Node?)
      ensures a == Lookup(nodes, c.From) && b == Lookup(nodes, c.To)
    {
      a, b := null, null;
      for i := 0 to |nodes|
        invariant a == Lookup(nodes[..i], c.From)
        invariant b == Lookup(nodes[..i], c.To)
      {
        var n := nodes[i];
        assert IDs(nodes[..i + 1]) == IDs(nodes[..i]) + [n.ID];
        assert IDs(nodes[..i + 1])[..i] == IDs(nodes[..i]);
        if n.ID == c.From {
          a := n;
        }
        if n.ID == c.To {
          b := n;
        }
      }
      assert nodes[..|nodes|] == nodes;
    }

    /** `connect`: counts the connector and draws its path and label. */
    method Connect(c: Connector, a: Node, b: Node)
      modifies this`connectID, this`canvas
      ensures connectID == old(connectID) + 1
      ensures canvas == old(canvas) + ConnectShapes(c.Type, c.Color, c.Label, a.ID, b.ID, Pos(a), Pos(b))
    {
      connectID := connectID + 1;

      var x, y := Halfway(a, b);
      DrawPath(c.Type, c.Color, a.ID, b.ID, Pos(a), Pos(b), Point(x, y));
      x := x + 8;
      y := y + 10;
      canvas := canvas + [TextLines(Point(x, y), c.Label)];
      ConnectShapesSplit(c.Type, c.Color, c.Label, a.ID, b.ID, Pos(a), Pos(b));
    }

    /**
     * The start of `connect`: the point halfway between two nodes, each
     * coordinate taken from the smaller one with Go's truncating halving.
     */
    method Halfway(a: Node, b: Node) returns (x: int, y: int)
      ensures Point(x, y) == Midpoint(Pos(a), Pos(b))
    {
      x := a.X + GoDiv(b.X - a.X, 2);
      if a.X > b.X {
        x := b.X + GoDiv(a.X - b.X, 2);
      }
      y := a.Y + GoDiv(b.Y - a.Y, 2);
      if a.Y > b.Y {
        y := b.Y + GoDiv(a.Y - b.Y, 2);
      }
    }

    /**
     * The switch on the connector type inside `connect`: a path between
     * `a` and `b`, bent through `mid` for the change kinds, or nothing for
     * an unknown type.
     */
    method DrawPath(kind: string, color: string, aId: string, bId: string, a: Point, b: Point, mid: Point)
      requires mid == Midpoint(a, b)
      modifies this`canvas
      ensures var path := PathOf(kind, color, aId, bId, a, b);
        canvas == old(canvas) + if path.Some? then [ConnectorPath(path.value)] else []
    {
      match kind {
        case "normal" =>
          canvas := canvas + [ConnectorPath(Path(Normal, [a, b], color, Some(aId + "-" + bId)))];
        case "bold" =>
          canvas := canvas + [ConnectorPath(Path(Bold, [a, b], color, None))];
        case "change" =>
          canvas := canvas + [ConnectorPath(Path(Change, [a, mid, b], color, None))];
        case "change-inertia" =>
          canvas := canvas + [ConnectorPath(Path(ChangeInertia, [a, mid, b], color, None))];
        case _ =>
      }
    }

    /**
     * The third loop of `drawing`: each connector whose endpoints both
     * resolve is drawn; any other is reported and skipped, and the loop
     * goes on.
     */
    method DrawConnectors(nodes: seq<Node>, cs: seq<Connector>, ghost pts: seq<Point>)
      requires pts == Positions(nodes)
      modifies this`connectID, this`canvas, this`stderr
      ensures pts == Positions(nodes)
      ensures connectID == old(connectID) + DrawnCount(IDs(nodes), cs)
      ensures stderr == old(stderr) + Skipped(IDs(nodes), cs)
      ensures canvas == old(canvas) + ConnectorsDrawn(IDs(nodes), pts, cs)
    {
      ghost var ids := IDs(nodes);
      ghost var drawn0, skipped0, canvas0 := connectID, stderr, canvas;
      for i := 0 to |cs|
        invariant connectID == drawn0 + DrawnCount(ids, cs[..i])
        invariant stderr == skipped0 + Skipped(ids, cs[..i])
        invariant canvas == canvas0 + ConnectorsDrawn(ids, pts, cs[..i])
        invariant pts == Positions(nodes)
      {
        ConnectorStep(ids, pts, cs, i);
        DrawConnector(nodes, cs[i], pts);
        AppendAssociates(skipped0, Skipped(ids, cs[..i]), if Resolvable(ids, cs[i]) then [] else [cs[i].From]);
        AppendAssociates(canvas0, ConnectorsDrawn(ids, pts, cs[..i]), ConnectorDrawn(ids, pts, cs[i]));
      }
      assert cs[..|cs|] == cs;
    }

    /**
     * One turn of the connector loop: a connector whose endpoints both
     * resolve is drawn; otherwise its `From` name is reported, even when it
     * is the `To` end that is missing.
     */
    method DrawConnector(nodes: seq<Node>, c: Connector, ghost pts: seq<Point>)
      requires pts == Positions(nodes)
      modifies this`connectID, this`canvas, this`stderr
      ensures pts == Positions(nodes)
      ensures connectID == old(connectID) + if Resolvable(IDs(nodes), c) then 1 else 0
      ensures stderr == old(stderr) + if Resolvable(IDs(nodes), c) then [] else [c.From]
      ensures canvas == old(canvas) + ConnectorDrawn(IDs(nodes), pts, c)
    {
      ResolvedConnector(nodes, c);
      var a, b := FindEndpoints(nodes, c);
      if a == null || b == null {
        stderr := stderr + [c.From];
        return;
      }
      if b == null {
        // never taken: the test above already skipped a missing `To`
        assert false;
      }
      Connect(c, a, b);
    }

    /** `DrawNode`: the node's mark, titled, and its label beside it. */
    method DrawNode(n: Node)
      modifies this`canvas
      ensures canvas == old(canvas) + NodeShapes(n, Pos(n))
    {
      var title := Title(n.Description, n.Label);
      canvas := canvas + [NodeMark(title, Point(n.X, n.Y), n.Fill, n.Color)];
      canvas := canvas + [TextLines(Point(n.X + 8, n.Y + 10), n.Label)];
    }

    /** The last loop of `drawing`. */
    method DrawNodes(nodes: seq<Node>, ghost pts: seq<Point>)
      requires pts == Positions(nodes)
      modifies this`canvas
      ensures pts == Positions(nodes)
      ensures canvas == old(canvas) + NodesDrawn(nodes, pts)
    {
      for i := 0 to |nodes|
        invariant canvas == old(canvas) + NodesDrawn(nodes[..i], pts[..i])
        invariant pts == Positions(nodes)
      {
        assert nodes[..i + 1][..i] == nodes[..i];
        assert pts[..i + 1][..i] == pts[..i];
        DrawNode(nodes[i]);
      }
      assert nodes[..|nodes|] == nodes;
      assert pts[..|nodes|] == pts;
    }

    /**
     * `drawing`: on a fresh canvas, computes the grid, places every node,
     * draws the connectors that resolve, then the nodes.
     */
    method Drawing()
      modifies this`mapGrid, this`connectID, this`canvas, this`stderr, inputData.Nodes
      ensures mapGrid == GridOf(margin, width, height)
      ensures Positions(inputData.Nodes) ==
        LaidOut(inputData.Nodes, mapGrid, MaximaOf(inputData.Nodes), old(Xs(inputData.Nodes)))
      ensures connectID == old(connectID) + DrawnCount(IDs(inputData.Nodes), inputData.Connectors)
      ensures stderr == old(stderr) + Skipped(IDs(inputData.Nodes), inputData.Connectors)
      ensures canvas == ConnectorsDrawn(IDs(inputData.Nodes), Positions(inputData.Nodes), inputData.Connectors) +
                        NodesDrawn(inputData.Nodes, Positions(inputData.Nodes))
    {
      var nodes := inputData.Nodes;
      var connectors := inputData.Connectors;
      ghost var pts := LayOut(nodes);
      Render(nodes, connectors, pts);
    }

    /** The grid and the first two loops of `drawing`; `pts` are the new positions. */
    method LayOut(nodes: seq<Node>) returns (ghost pts: seq<Point>)
      modifies this`mapGrid, nodes
      ensures mapGrid == GridOf(margin, width, height)
      ensures pts == LaidOut(nodes, mapGrid, MaximaOf(nodes), old(Xs(nodes)))
      ensures pts == Positions(nodes)
      ensures connectID == old(connectID) && stderr == old(stderr)
    {
      SetUpGrid(margin, width, height);
      var mx := ScanMaxima(nodes);
      PlaceNodes(nodes, mx);
      pts := Positions(nodes);
    }

    /** The connector loop and then the node loop of `drawing`, at the positions `pts`. */
    method Render(nodes: seq<Node>, cs: seq<Connector>, ghost pts: seq<Point>)
      requires pts == Positions(nodes)
      modifies this`connectID, this`canvas, this`stderr
      ensures pts == Positions(nodes)
      ensures connectID == old(connectID) + DrawnCount(IDs(nodes), cs)
      ensures stderr == old(stderr) + Skipped(IDs(nodes), cs)
      ensures canvas == ConnectorsDrawn(IDs(nodes), pts, cs) + NodesDrawn(nodes, pts)
    {
      canvas := [];
      DrawConnectors(nodes, cs, pts);
      assert canvas == ConnectorsDrawn(IDs(nodes), pts, cs);
      DrawNodes(nodes, pts);
    }
  }
}
