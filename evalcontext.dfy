/**
 * The incremental evaluation context of the HCL experiment: node blocks
 * are decoded in file order, each against the context built from the
 * blocks before it, and each one's `{x}` projection is registered under
 * its label in the context variable `node`.
 *
 * The HCL library's body decoding is a function parameter (`Decoder`),
 * and so is the failure of the projection into a cty value.
 */
module EvalContext {
  import opened Wrappers

  /** The cty values the context holds: numbers, objects and maps. */
  datatype Value = Number(n: int) | Object(attrs: map<string, Value>) | MapVal(elems: map<string, Value>)

  datatype Severity = Error | Warning
  datatype Diag = Diag(severity: Severity, summary: string)

  /** A node as decoded from a `node` block. */
  datatype Node = Node(
    ID: string, Label: string, Description: string, X: int, Y: int,
    Visibility: int, Evolution: string, EvolutionX: int, Fill: string, Color: string)

  /** A top-level block: its type, its labels and its (library) body. */
  datatype Block<B> = Block(Type: string, Labels: seq<string>, Body: B)

  /** `gohcl.DecodeBody` against a context: the decoded node and its diagnostics. */
  type Decoder<!B> = (map<string, Value>, B) -> (Node, seq<Diag>)

  /** What the block loop has produced so far. */
  datatype Outcome = Outcome(vars: map<string, Value>, reported: seq<Diag>, err: Option<string>)

  predicate HasErrors(diags: seq<Diag>)
  {
    exists i :: 0 <= i < |diags| && diags[i].severity == Error
  }

  /** The diagnostics `handleDiags` writes out: all of them, but only when one is an error. */
  function Shown(diags: seq<Diag>): (r: seq<Diag>)
    ensures r == [] || r == diags
    ensures r != [] <==> HasErrors(diags)
  {
    if HasErrors(diags) then diags else []
  }

  /** The root schema gives every `node` block exactly one label, its name. */
  predicate Labelled<B>(block: Block<B>)
  {
    block.Type == "node" ==> |block.Labels| == 1
  }

  predicate AllLabelled<B>(blocks: seq<Block<B>>)
  {
    forall i :: 0 <= i < |blocks| ==> Labelled(blocks[i])
  }

  /** The context never holds anything but the map `node`. */
  predicate NodeMapOk(vars: map<string, Value>)
  {
    vars.Keys <= {"node"} && ("node" in vars ==> vars["node"].MapVal?)
  }

  /** The registered nodes: the map under `node`, or none before the first. */
  function Entries(vars: map<string, Value>): map<string, Value>
  {
    if "node" in vars && vars["node"].MapVal? then vars["node"].elems else map[]
  }

  /** `gocty.ToCtyValue(node, nodeType)` with `nodeType` the object type `{x: number}`. */
  function Project(n: Node): (v: Value)
    ensures v.Object? && v.attrs.Keys == {"x"}
  {
    Object(map["x" := Number(n.EvolutionX)])
  }

  /** The projection keeps `x` and nothing else. */
  lemma ProjectionCarriesOnlyX(a: Node, b: Node)
    ensures Project(a) == Project(b) <==> a.EvolutionX == b.EvolutionX
  {
    if Project(a) == Project(b) {
      assert Project(a).attrs["x"] == Project(b).attrs["x"];
    }
  }

  /** The labels of the `node` blocks among `blocks`. */
  function NodeLabels<B>(blocks: seq<Block<B>>): (labels: set<string>)
    requires AllLabelled(blocks)
    ensures forall i :: 0 <= i < |blocks| && blocks[i].Type == "node" ==> blocks[i].Labels[0] in labels
    ensures forall l :: l in labels ==> exists i :: 0 <= i < |blocks| && blocks[i].Type == "node" && blocks[i].Labels[0] == l
  {
    set i | 0 <= i < |blocks| && blocks[i].Type == "node" :: blocks[i].Labels[0]
  }

  /**
   * One turn of the block loop. Any block other than `node` is ignored.
   * A node block is decoded against `vars`; its diagnostics are shown but
   * never stop the loop; a failed projection does, with the context as it
   * was; otherwise the projection is registered under the block's label.
   */
  function Step<B>(vars: map<string, Value>, block: Block<B>, decode: Decoder<B>,
                   convError: Node -> Option<string>): (r: Outcome)
    requires NodeMapOk(vars) && Labelled(block)
    ensures NodeMapOk(r.vars)
    ensures block.Type != "node" ==> r == Outcome(vars, [], None)
    ensures block.Type == "node" ==> r.reported == Shown(decode(vars, block.Body).1)
    ensures r.err.Some? <==> block.Type == "node" && convError(decode(vars, block.Body).0).Some?
    ensures r.err.Some? ==> r.vars == vars
    ensures block.Type == "node" && r.err.None? ==>
      Entries(r.vars) == Entries(vars)[block.Labels[0] := Project(decode(vars, block.Body).0)]
  {
    if block.Type != "node" then Outcome(vars, [], None)
    else
      var (node, diags) := decode(vars, block.Body);
      match convError(node)
      case Some(e) => Outcome(vars, Shown(diags), Some(e))
      case None =>
        var v := Project(node);
        var m := if "node" !in vars then map[block.Labels[0] := v] else vars["node"].elems[block.Labels[0] := v];
        Outcome(vars["node" := MapVal(m)], Shown(diags), None)
  }

  /** The block loop of `realMain` over `blocks`, from an empty context. */
  function Run<B>(blocks: seq<Block<B>>, decode: Decoder<B>, convError: Node -> Option<string>): (o: Outcome)
    requires AllLabelled(blocks)
    ensures NodeMapOk(o.vars)
    decreases |blocks|
  {
    if blocks == [] then Outcome(map[], [], None)
    else
      var prev := Run(blocks[..|blocks| - 1], decode, convError);
      if prev.err.Some? then prev
      else
        var s := Step(prev.vars, blocks[|blocks| - 1], decode, convError);
        Outcome(s.vars, prev.reported + s.reported, s.err)
  }

  /** One more block: the loop either has stopped already or takes one more step. */
  lemma RunStep<B>(blocks: seq<Block<B>>, decode: Decoder<B>, convError: Node -> Option<string>, i: int)
    requires AllLabelled(blocks) && 0 <= i < |blocks|
    ensures var prev := Run(blocks[..i], decode, convError);
      var s := Step(prev.vars, blocks[i], decode, convError);
      Run(blocks[..i + 1], decode, convError) ==
        if prev.err.Some? then prev else Outcome(s.vars, prev.reported + s.reported, s.err)
  {
    assert blocks[..i + 1][..i] == blocks[..i];
  }

  /** After an error, later blocks are never looked at. */
  lemma {:induction false} ErrorStops<B>(blocks: seq<Block<B>>, k: int,
                                         decode: Decoder<B>, convError: Node -> Option<string>)
    requires AllLabelled(blocks) && 0 <= k <= |blocks|
    requires Run(blocks[..k], decode, convError).err.Some?
    ensures Run(blocks, decode, convError) == Run(blocks[..k], decode, convError)
    decreases |blocks|
  {
    if k == |blocks| {
      assert blocks[..k] == blocks;
    } else {
      var init := blocks[..|blocks| - 1];
      assert init[..k] == blocks[..k];
      ErrorStops(init, k, decode, convError);
    }
  }

  /**
   * Loop invariant: as long as no error has stopped the loop, the labels
   * registered are exactly those of the node blocks processed.
   */
  lemma {:induction false} DomainIsProcessedLabels<B>(blocks: seq<Block<B>>, decode: Decoder<B>,
                                                      convError: Node -> Option<string>)
    requires AllLabelled(blocks)
    requires Run(blocks, decode, convError).err.None?
    ensures Entries(Run(blocks, decode, convError).vars).Keys == NodeLabels(blocks)
    decreases |blocks|
  {
    if blocks != [] {
      var init := blocks[..|blocks| - 1];
      var last := blocks[|blocks| - 1];
      DomainIsProcessedLabels(init, decode, convError);
      NodeLabelsOfLast(blocks);
    }
  }

  /** The labels of a block sequence are those before its last block and the last block's own. */
  lemma NodeLabelsOfLast<B>(blocks: seq<Block<B>>)
    requires AllLabelled(blocks) && blocks != []
    ensures var init, last := blocks[..|blocks| - 1], blocks[|blocks| - 1];
      NodeLabels(blocks) == NodeLabels(init) + (if last.Type == "node" then {last.Labels[0]} else {})
  {
    var init, last := blocks[..|blocks| - 1], blocks[|blocks| - 1];
    forall l | l in NodeLabels(blocks)
      ensures l in NodeLabels(init) + (if last.Type == "node" then {last.Labels[0]} else {})
    {
      var i :| 0 <= i < |blocks| && blocks[i].Type == "node" && blocks[i].Labels[0] == l;
      if i < |blocks| - 1 {
        assert init[i] == blocks[i];
      }
    }
    forall l | l in NodeLabels(init)
      ensures l in NodeLabels(blocks)
    {
      var i :| 0 <= i < |init| && init[i].Type == "node" && init[i].Labels[0] == l;
      assert blocks[i] == init[i];
    }
  }

  /**
   * Each block is decoded against the labels of the node blocks before it:
   * a block naming a later node finds nothing under that name.
   */
  lemma SeesOnlyEarlierLabels<B>(blocks: seq<Block<B>>, decode: Decoder<B>,
                                 convError: Node -> Option<string>, k: int, l: string)
    requires AllLabelled(blocks) && 0 <= k <= |blocks|
    requires Run(blocks[..k], decode, convError).err.None?
    requires forall i :: 0 <= i < k && blocks[i].Type == "node" ==> blocks[i].Labels[0] != l
    ensures l !in Entries(Run(blocks[..k], decode, convError).vars)
  {
    DomainIsProcessedLabels(blocks[..k], decode, convError);
  }

  /**
   * The entry for a label is the projection of the last node block with
   * that label, decoded against the context before it: later blocks with
   * other labels leave it alone, and an earlier one is overwritten.
   */
  lemma {:induction false} LastBlockWins<B>(blocks: seq<Block<B>>, decode: Decoder<B>,
                                            convError: Node -> Option<string>, k: int)
    requires AllLabelled(blocks) && 0 <= k < |blocks| && blocks[k].Type == "node"
    requires forall j :: k < j < |blocks| && blocks[j].Type == "node" ==> blocks[j].Labels[0] != blocks[k].Labels[0]
    requires Run(blocks, decode, convError).err.None?
    ensures var before := Run(blocks[..k], decode, convError).vars;
      var l := blocks[k].Labels[0];
      l in Entries(Run(blocks, decode, convError).vars) &&
      Entries(Run(blocks, decode, convError).vars)[l] == Project(decode(before, blocks[k].Body).0)
    decreases |blocks|
  {
    var init := blocks[..|blocks| - 1];
    RunStep(blocks, decode, convError, |blocks| - 1);
    assert blocks[..|blocks|] == blocks;
    var prev := Run(init, decode, convError);
    if prev.err.Some? {
      assert false;
    }
    if k == |blocks| - 1 {
      assert init == blocks[..k];
    } else {
      assert init[..k] == blocks[..k];
      LastBlockWins(init, decode, convError, k);
    }
  }

  /** The first node block creates the map `node` with its one entry. */
  lemma FirstNodeCreatesMap<B>(block: Block<B>, decode: Decoder<B>, convError: Node -> Option<string>)
    requires block.Type == "node" && |block.Labels| == 1
    requires convError(decode(map[], block.Body).0).None?
    ensures Run([block], decode, convError).vars ==
      map["node" := MapVal(map[block.Labels[0] := Project(decode(map[], block.Body).0)])]
  {
    assert [block][..0] == [];
  }

  /** `handleDiags`'s destination: the lines written to standard error. */
  class Stream {
    var written: seq<Diag>

    constructor ()
      ensures written == []
    {
      written := [];
    }
  }

  /** The `hcl.EvalContext` of `realMain`; its function table is empty and not modelled. */
  class EvalContext {
    var Variables: map<string, Value>

    constructor ()
      ensures Variables == map[]
    {
      Variables := map[];
    }
  }

  /**
   * `handleDiags`: writes the diagnostics when one is an error, and then
   * returns no error all the same, since the error it builds is dropped.
   */
  method HandleDiags(w: Stream, diags: seq<Diag>) returns (err: Option<string>)
    modifies w
    ensures err.None?
    ensures w.written == old(w.written) + Shown(diags)
  {
    if HasErrors(diags) {
      w.written := w.written + diags;
    }
    return None;
  }

  /**
   * One turn of `realMain`'s block loop: a node block is decoded against
   * the context, its diagnostics handled, and its projection registered
   * under its label, unless the projection fails.
   */
  method VisitBlock<B>(ctx: EvalContext, stderr: Stream, block: Block<B>, decode: Decoder<B>,
                       convError: Node -> Option<string>) returns (err: Option<string>)
    requires NodeMapOk(ctx.Variables) && Labelled(block)
    modifies ctx, stderr
    ensures var s := Step(old(ctx.Variables), block, decode, convError);
      && err == s.err
      && ctx.Variables == s.vars
      && stderr.written == old(stderr.written) + s.reported
  {
    err := None;
    if block.Type == "node" {
      var (node, diags) := decode(ctx.Variables, block.Body);
      err := HandleDiags(stderr, diags);
      if err.Some? {
        // never taken: `handleDiags` always returns nil
        assert false;
      }
      err := convError(node);
      if err.Some? {
        return;
      }
      var v := Project(node);
      var m: map<string, Value>;
      if "node" !in ctx.Variables {
        m := map[block.Labels[0] := v];
      } else {
        m := ctx.Variables["node"].elems;
        m := m[block.Labels[0] := v];
      }
      ctx.Variables := ctx.Variables["node" := MapVal(m)];
    }
  }

  /**
   * `realMain` from parsing on: a parse failure ends it; otherwise the
   * blocks are walked in order, as `Run` says, and the context they
   * built is handed back with the error that stopped the walk, if any.
   */
  method RealMain<B>(stderr: Stream, parseError: Option<string>, contentDiags: seq<Diag>,
                     blocks: seq<Block<B>>, decode: Decoder<B>, convError: Node -> Option<string>)
    returns (err: Option<string>, ctx: EvalContext?)
    requires AllLabelled(blocks)
    modifies stderr
    ensures parseError.Some? ==> err == parseError && ctx == null && stderr.written == old(stderr.written)
    ensures parseError.None? ==>
      && ctx != null && fresh(ctx)
      && err == Run(blocks, decode, convError).err
      && ctx.Variables == Run(blocks, decode, convError).vars
      && stderr.written == old(stderr.written) + Shown(contentDiags) + Run(blocks, decode, convError).reported
  {
    if parseError.Some? {
      return parseError, null;
    }
    err := HandleDiags(stderr, contentDiags);
    if err.Some? {
      // never taken: `handleDiags` always returns nil
      assert false;
    }
    ctx := new EvalContext();
    err := WalkBlocks(ctx, stderr, blocks, decode, convError);
  }

  /** `VisitBlock` on the `i`th block takes the walk from `blocks[..i]` to `blocks[..i + 1]`. */
  method Advance<B>(ctx: EvalContext, stderr: Stream, blocks: seq<Block<B>>, i: int, decode: Decoder<B>,
                    convError: Node -> Option<string>, ghost w0: seq<Diag>) returns (err: Option<string>)
    requires AllLabelled(blocks) && 0 <= i < |blocks|
    requires Run(blocks[..i], decode, convError).err.None?
    requires ctx.Variables == Run(blocks[..i], decode, convError).vars
    requires stderr.written == w0 + Run(blocks[..i], decode, convError).reported
    modifies ctx, stderr
    ensures err == Run(blocks[..i + 1], decode, convError).err
    ensures ctx.Variables == Run(blocks[..i + 1], decode, convError).vars
    ensures stderr.written == w0 + Run(blocks[..i + 1], decode, convError).reported
  {
    ghost var prev := Run(blocks[..i], decode, convError);
    ghost var s := Step(prev.vars, blocks[i], decode, convError);
    RunStep(blocks, decode, convError, i);
    assert w0 + prev.reported + s.reported == w0 + (prev.reported + s.reported);
    err := VisitBlock(ctx, stderr, blocks[i], decode, convError);
  }

  /** The block loop of `realMain`, from an empty context, stopping at the first failed projection. */
  method WalkBlocks<B>(ctx: EvalContext, stderr: Stream, blocks: seq<Block<B>>, decode: Decoder<B>,
                       convError: Node -> Option<string>) returns (err: Option<string>)
    requires AllLabelled(blocks) && ctx.Variables == map[]
    modifies ctx, stderr
    ensures err == Run(blocks, decode, convError).err
    ensures ctx.Variables == Run(blocks, decode, convError).vars
    ensures stderr.written == old(stderr.written) + Run(blocks, decode, convError).reported
  {
    err := None;
    ghost var w0 := stderr.written;
    for i := 0 to |blocks|
      invariant err.None?
      invariant ctx.Variables == Run(blocks[..i], decode, convError).vars
      invariant Run(blocks[..i], decode, convError).err.None?
      invariant stderr.written == w0 + Run(blocks[..i], decode, convError).reported
    {
      err := Advance(ctx, stderr, blocks, i, decode, convError, w0);
      if err.Some? {
        ErrorStops(blocks, i + 1, decode, convError);
        return;
      }
    }
    assert blocks[..|blocks|] == blocks;
  }

  // The sample input: three custom nodes, each `x` one more than the previous node's.

  /** The `x` attribute of the sample: a literal, or `node.<name>.x + n`. */
  datatype Expr = Lit(n: int) | RefPlus(name: string, n: int)

  /** The looked-up `x` of a registered node, when the context has one. */
  function RefX(vars: map<string, Value>, name: string): Option<int>
  {
    if name in Entries(vars) && Entries(vars)[name].Object? && "x" in Entries(vars)[name].attrs
       && Entries(vars)[name].attrs["x"].Number?
    then Some(Entries(vars)[name].attrs["x"].n)
    else None
  }

  /**
   * A decoder for the sample's bodies: every node is a custom node of
   * visibility 1; an `x` that names an unknown node is an error
   * diagnostic, and `x` is then left at zero.
   */
  function SampleDecode(vars: map<string, Value>, x: Expr): (Node, seq<Diag>)
  {
    var (value, diags) := match x
      case Lit(n) => (n, [])
      case RefPlus(name, n) =>
        match RefX(vars, name)
        case Some(v) => (v + n, [])
        case None => (0, [Diag(Error, if "node" in vars then "Unsupported attribute" else "Unknown variable")]);
    (Node("", "label", "", 0, 0, 1, "custom", value, "", ""), diags)
  }

  function NoConvError(n: Node): Option<string>
  {
    None
  }

  /** The first two sample blocks, `node id {x = 1}` and `node id2 {x = node.id.x + 1}`. */
  lemma SampleFirstTwo()
    ensures var o := Run([Block("node", ["id"], Lit(1)), Block("node", ["id2"], RefPlus("id", 1))],
                         SampleDecode, NoConvError);
      && o.err.None? && o.reported == []
      && Entries(o.vars) == map["id" := Object(map["x" := Number(1)]), "id2" := Object(map["x" := Number(2)])]
  {
    var b0, b1 := Block("node", ["id"], Lit(1)), Block("node", ["id2"], RefPlus("id", 1));
    var p1, p2 := Object(map["x" := Number(1)]), Object(map["x" := Number(2)]);
    var blocks := [b0, b1];
    assert blocks[..0] == [];
    assert blocks[..1] == [b0];
    assert blocks[..2] == blocks;

    RunStep(blocks, SampleDecode, NoConvError, 0);
    var s0 := Step(map[], b0, SampleDecode, NoConvError);
    assert SampleDecode(map[], Lit(1)) == (Node("", "label", "", 0, 0, 1, "custom", 1, "", ""), []);
    assert s0.err.None? && s0.reported == [] && Entries(s0.vars) == map["id" := p1];
    var o1 := Run(blocks[..1], SampleDecode, NoConvError);
    assert o1 == Outcome(s0.vars, [], None);

    RunStep(blocks, SampleDecode, NoConvError, 1);
    var s1 := Step(o1.vars, b1, SampleDecode, NoConvError);
    assert RefX(o1.vars, "id") == Some(1);
    assert SampleDecode(o1.vars, RefPlus("id", 1)) == (Node("", "label", "", 0, 0, 1, "custom", 2, "", ""), []);
    assert s1.err.None? && s1.reported == [] && Entries(s1.vars) == map["id" := p1, "id2" := p2];
  }

  /**
   * The sample input: `node id {x = 1}`, `node id2 {x = node.id.x + 1}`,
   * `node id3 {x = node.id2.x + 1}` register `x` = 1, 2 and 3, each block
   * reading the one declared before it.
   */
  lemma SampleChain()
    ensures var o := Run([Block("node", ["id"], Lit(1)), Block("node", ["id2"], RefPlus("id", 1)),
                          Block("node", ["id3"], RefPlus("id2", 1))], SampleDecode, NoConvError);
      && o.err.None? && o.reported == []
      && Entries(o.vars) == map["id" := Object(map["x" := Number(1)]), "id2" := Object(map["x" := Number(2)]),
                                "id3" := Object(map["x" := Number(3)])]
  {
    var b0, b1, b2 := Block("node", ["id"], Lit(1)), Block("node", ["id2"], RefPlus("id", 1)),
                      Block("node", ["id3"], RefPlus("id2", 1));
    var blocks := [b0, b1, b2];
    assert blocks[..2] == [b0, b1];
    assert blocks[..3] == blocks;
    SampleFirstTwo();
    var o2 := Run(blocks[..2], SampleDecode, NoConvError);
    RunStep(blocks, SampleDecode, NoConvError, 2);
    var s2 := Step(o2.vars, b2, SampleDecode, NoConvError);
    assert "id2" != "id" && RefX(o2.vars, "id2") == Some(2);
    assert SampleDecode(o2.vars, RefPlus("id2", 1)) == (Node("", "label", "", 0, 0, 1, "custom", 3, "", ""), []);
    assert s2.err.None? && s2.reported == [];
    assert Entries(s2.vars) == Entries(o2.vars)["id3" := Object(map["x" := Number(3)])];
  }

  /**
   * A forward reference, `node a {x = node.b.x + 1}` before `node b {x = 5}`:
   * the diagnostic is written, the loop goes on, and `a` is registered with `x = 0`.
   */
  lemma ForwardReferenceIsNotFatal()
    ensures var o := Run([Block("node", ["a"], RefPlus("b", 1)), Block("node", ["b"], Lit(5))],
                         SampleDecode, NoConvError);
      && o.err.None?
      && o.reported == [Diag(Error, "Unknown variable")]
      && Entries(o.vars) == map["a" := Object(map["x" := Number(0)]), "b" := Object(map["x" := Number(5)])]
  {
    var b0, b1 := Block("node", ["a"], RefPlus("b", 1)), Block("node", ["b"], Lit(5));
    var blocks := [b0, b1];
    assert blocks[..0] == [];
    assert blocks[..1] == [b0];
    RunStep(blocks, SampleDecode, NoConvError, 0);
    RunStep(blocks, SampleDecode, NoConvError, 1);
    assert blocks[..2] == blocks;
    assert HasErrors([Diag(Error, "Unknown variable")]) by {
      assert [Diag(Error, "Unknown variable")][0].severity == Error;
    }
  }
}
