# go-wardley: the layout core and the HCL evaluation context, in Dafny

go-wardley draws Wardley maps. A map is a list of nodes and a list of connectors. Each node has:

- a stage of evolution: genesis, custom, product or commodity;
- an offset `x` inside that stage;
- a visibility.

Each connector names its two end nodes and has a type. The renderer (`main.go`) turns a decoded map into SVG. Its core is integer arithmetic over that decoded map:

- `grid` cuts the drawable width into four bands, one per stage.
- `drawing` scans the nodes for the largest offset per stage and the largest visibility.
- `NodeXY` places every node.
- `drawing` then resolves each connector's endpoints by id, skipping and reporting any connector with a missing end.
- `connect` counts each connector it draws, computes the midpoint between its ends and picks a path shape for its type.

The experiment in `hcltest/main.go` decodes `node` blocks one at a time. Each block is decoded against an evaluation context. After each block, the block's `{x}` projection is registered in the context under the block's label. So a later block can refer to `node.<label>.x` of any earlier block.

The model has six modules:

- `GoInt` (`goint.dfy`): Go's truncating integer division, which differs from Dafny's Euclidean `/` on negative operands.
- `Layout` (`layout.dfy`): the grid and the coordinate formulas of `NodeXY`, as pure functions, with their bounds and band ordering.
- `Connect` (`connect.dfy`): the midpoint and the path chosen by connector type, as pure functions.
- `Drawing` (`drawing.dfy`), which contains two classes:
  - `Node`: its decoded attributes are constants and `X`, `Y` are mutable.
  - `Program`: its fields are the package globals (the flag values, the input, `mapGrid`, `connectID`), plus the canvas as the sequence of shapes drawn and standard error as the sequence of names reported.
  
  `Drawing`'s methods do what the loops of `drawing`, `NodeXY`, `connect` and `DrawNode` do. Each method is proved against specification functions (`MaximaOf`, `LaidOut`, `DrawnCount`, `Skipped`, `ConnectorsDrawn`, `NodesDrawn`).
- `EvalContext` (`evalcontext.dfy`): the block loop of `realMain`.
  - It is specified by `Step` and `Run`, and carried out imperatively by `RealMain`, `WalkBlocks`, `VisitBlock` and `HandleDiags` on an `EvalContext` object whose `Variables` map is reassigned.
  - Body decoding (`gohcl.DecodeBody`) is a function parameter `decode`. The failure of `gocty.ToCtyValue` is a function parameter `convError`. The projection itself is the concrete object `{x: EvolutionX}`.
- `Wrappers` (`wrappers.dfy`): an `Option` type.

Where one might expect other behaviour than the code has, the model follows the code:

- One might expect a node at the maximum visibility to sit on the bottom axis (y = 0). The code gives it `(-YLenght)/(maxY+1)`, one step above the bottom axis, and puts visibility 0 at the top (`Layout.MaxVisibilityIsOneStepAboveAxis`).
- One might expect a block that refers to a later node to fail the run. The code writes the diagnostic and continues, because `handleDiags` always returns nil (`EvalContext.ForwardReferenceIsNotFatal`). The node is then registered with `x = 0` by the sample decoder.

Quirks of the code that are modelled as written:

- Every stage divides by `maxCustom + 1`.
- A node of unknown stage keeps its previous x.
- The second `b == nil` test is never reached.
- A skipped connector is reported under its `From` name, even when `To` is the missing end.
- The label of a connector of unknown type is still drawn, and the connector is still counted.

## Model

| member | source | states |
|---|---|---|
| GoInt.GoDiv | main.go:198 | the quotient truncates toward zero: the remainder is smaller than the divisor in magnitude and has the dividend's sign; on non-negative operands it is Dafny's quotient |
| GoInt.GoDivNegate | main.go:198 | negating the dividend negates the truncated quotient |
| GoInt.GoDivTruncates | main.go:198 | Go's -7/2 is -3 where the Euclidean quotient is -4 |
| Layout.GridOf | main.go:273-281 | genesis origin and `Visible` are 0, the quarter width equals the custom origin, and `YLenght` is the drawable height |
| Layout.BandsPartitionWidth | main.go:273-281 | for a non-negative drawable width the origins are ordered genesis, custom, product, commodity, each at least a quarter width apart, and the last band ends within the drawable width |
| Layout.NodeX | main.go:186-196 | a node of a known stage lands at its stage origin plus `(XQuarterLenght/(maxCustom+1))*EvolutionX`, whatever its stage; any other stage keeps the previous x |
| Layout.NodeY | main.go:198 | for a non-negative height and maximum, one visibility step is `YLenght/(maxY+1)` rounded down and a node sits `maxY+1-Visibility` steps above the bottom axis (y = 0, with negative y above it); visibility `maxY+1` gives y = 0; when `YLenght < maxY+1` the step is 0 and every node gets y = 0, otherwise y = 0 exactly for visibility `maxY+1` |
| Layout.NodeXIdempotent | main.go:186-196 | placing a node a second time leaves x where the first placement put it |
| Layout.NodeXInBand | main.go:186-196 | with `0 <= EvolutionX <= maxCustom` and a non-negative quarter width, x lies within the node's band |
| Layout.CustomNormalisation | main.go:190-191 | with custom maximum 1, offsets 0 and 1 sit at the custom origin and half a quarter width right of it |
| Layout.GenesisLeavesItsBand | main.go:188-189 | with no custom node, a genesis offset of 5 lands past the end of the commodity band (x = 1400 on a 1280-wide map) |
| Layout.NodeYWithinHeight | main.go:198 | for `0 <= Visibility <= maxY` and a non-negative drawable height, `-YLenght <= Y <= 0` |
| Layout.NodeYMonotone | main.go:198 | a higher visibility never gives a smaller y, so it never places a node higher on the map (y = 0 is the bottom axis) |
| Layout.MaxVisibilityIsOneStepAboveAxis | main.go:198 | at the maximum visibility y is `-YLenght/(maxY+1)`, not 0 (-152 of -608 on a 768-high map with maximum 3) |
| Connect.Mid | main.go:223-230 | the midpoint coordinate is the smaller end plus half the distance, truncated, and lies between the two ends |
| Connect.Midpoint | main.go:223-230 | each coordinate of the midpoint is the smaller end plus half the distance, rounded down |
| Connect.MidpointSymmetric | main.go:223-230 | the midpoint does not depend on the order of the two ends |
| Connect.MidpointBetween | main.go:223-230 | the midpoint lies in the box spanned by the two ends |
| Connect.StyleOf | main.go:235-248 | a path style is chosen exactly for `normal`, `bold`, `change` and `change-inertia` |
| Connect.PathOf | main.go:235-248 | a path exists exactly for the four known types; it starts at a and ends at b; it has two points exactly for `normal`/`bold` and otherwise passes through the midpoint; only `normal` paths carry the id `aId-bId` |
| Connect.ConnectShapes | main.go:235-253 | `connect` draws the path when the type has one, and always draws the label last, at the midpoint offset by (8, 10) |
| Drawing.Node.constructor | hcl/hcl.go:26-37 | a decoded node holds its attributes and Go's zero coordinates |
| Drawing.StageMax | main.go:122-136 | a stage maximum is non-negative, bounds every offset of that stage, and is 0 or some node's offset of that stage |
| Drawing.VisibilityMax | main.go:137-139 | the visibility maximum is non-negative, bounds every visibility, and is 0 or some node's visibility |
| Drawing.LastIndex | main.go:146-154 | none exactly when the id is absent; otherwise an index holding the id with no later one |
| Drawing.Lookup | main.go:145-154 | an endpoint is null exactly when no node has the id, and otherwise is the last node in order with that id |
| Drawing.NodeShapes | main.go:205-213 | `DrawNode` draws two shapes: a mark at the node's point titled by its description, or by its label when there is none, with the node's fill and stroke; then the label at the point offset by (8, 10) |
| Drawing.Title | main.go:205-209 | the title is the description when there is one, otherwise the label, and is empty only when both are |
| Drawing.ResolvedConnector | main.go:144-163 | a connector is skipped exactly when an endpoint is missing; otherwise it is drawn between the last nodes named `From` and `To`, at their positions |
| Drawing.DrawnOrSkipped | main.go:155-163 | every connector is either counted as drawn or reported, never both |
| Drawing.DrawnCountSplits | main.go:155-157 | skip-and-continue: the count over two runs of connectors is the sum of the counts |
| Drawing.DanglingConnectorSkipped | main.go:155-157 | with nodes A and B, A→B is drawn and A→missing is skipped, and the report names A |
| Drawing.CustomNodeInCustomBand | main.go:191 | after the scan, a custom node with a non-negative offset lies in the custom band when the drawable width is non-negative |
| Drawing.NodeWithinHeight | main.go:198 | after the scan, a node with a non-negative visibility lies between the axis and one drawable height above it |
| Drawing.Program.constructor | main.go:34-44 | the globals start with the flag values and input given, the counter at 0, nothing drawn or reported |
| Drawing.Program.SetUpGrid | main.go:273-281 | `mapGrid` becomes the grid of the flag values |
| Drawing.Program.NodeXY | main.go:186-199 | the node's x becomes `NodeX` of its previous x, and its y is always overwritten with `NodeY` |
| Drawing.Program.ScanMaxima | main.go:122-140 | the five accumulators end as the stage maxima and the visibility maximum |
| Drawing.Program.PlaceNodes | main.go:141-143 | every node ends at its `LaidOut` position, computed from its x before the loop |
| Drawing.Program.FindEndpoints | main.go:145-154 | a and b are the last nodes named `From` and `To`, or null |
| Drawing.Program.Connect | main.go:218-257 | the counter goes up by one and the canvas gains exactly `ConnectShapes` for the two nodes' ids and positions |
| Drawing.Program.Halfway | main.go:223-230 | the point computed at the start of `connect` is the midpoint of the two nodes' positions |
| Drawing.Program.DrawPath | main.go:235-248 | the switch on the connector type adds exactly the path `PathOf` gives, or nothing for an unknown type |
| Drawing.Program.DrawConnector | main.go:145-163 | a resolvable connector is counted and drawn; any other adds its `From` name to standard error and changes nothing else |
| Drawing.Program.DrawConnectors | main.go:144-164 | the counter grows by the number of resolvable connectors, standard error gains the skipped `From` names in order, and the canvas gains the connector shapes in order |
| Drawing.Program.DrawNode | main.go:202-216 | the canvas gains the node's titled mark and its label offset by (8, 10) |
| Drawing.Program.DrawNodes | main.go:165-167 | the canvas gains every node's shapes in node order |
| Drawing.Program.LayOut | main.go:119-143 | the grid is set and every node is placed; the counter and standard error are untouched |
| Drawing.Program.Render | main.go:144-167 | on a fresh canvas, the connectors are drawn and then the nodes; the counter and standard error advance as for `DrawConnectors` |
| Drawing.Program.Drawing | main.go:106-171 | one whole drawing: grid, placements, counter, reports, and a canvas holding the drawn connectors followed by all nodes |
| EvalContext.Shown | hcltest/main.go:175-187 | diagnostics are written exactly when one of them is an error, and then all of them |
| EvalContext.Project | hcltest/main.go:110-112 | the projection is an object with the single attribute `x` |
| EvalContext.ProjectionCarriesOnlyX | hcltest/main.go:74-85 | two nodes project alike exactly when their `EvolutionX` agree, so visibility and the rest are dropped |
| EvalContext.Step | hcltest/main.go:122-153 | non-node blocks change nothing; a node block fails exactly when its projection fails, leaving the context as it was; otherwise its label is mapped to its projection and every other entry is kept |
| EvalContext.Run | hcltest/main.go:115-156 | the context only ever holds the map `node` |
| EvalContext.ErrorStops | hcltest/main.go:132-135 | after a failed projection no later block is looked at |
| EvalContext.DomainIsProcessedLabels | hcltest/main.go:115-154 | without a failure, the registered labels are exactly the labels of the node blocks processed |
| EvalContext.SeesOnlyEarlierLabels | hcltest/main.go:125 | a block is decoded against a context holding no label that only later blocks declare |
| EvalContext.LastBlockWins | hcltest/main.go:145-152 | a label's entry is the projection of the last node block with that label, decoded against the context before it |
| EvalContext.FirstNodeCreatesMap | hcltest/main.go:139-143 | the first node block creates the map `node` with exactly its own entry |
| EvalContext.Stream.constructor | hcltest/main.go:175-183 | a stream starts empty |
| EvalContext.EvalContext.constructor | hcltest/main.go:105-108 | the context starts with no variables |
| EvalContext.HandleDiags | hcltest/main.go:175-187 | never returns an error; writes the diagnostics when one is an error |
| EvalContext.VisitBlock | hcltest/main.go:122-153 | one loop turn changes the context, the error and standard error as `Step` says |
| EvalContext.Advance | hcltest/main.go:115-154 | one loop turn takes the state for the first i blocks to the state for the first i+1 |
| EvalContext.WalkBlocks | hcltest/main.go:115-156 | the loop ends with `Run`'s context, error and written diagnostics |
| EvalContext.RealMain | hcltest/main.go:87-157 | a parse error is returned as is; otherwise the content diagnostics never stop the run, and the result is `Run`'s |
| EvalContext.SampleFirstTwo | hcltest/main.go:51-62 | `id` gets x = 1 and `id2`, reading `node.id.x`, gets x = 2 |
| EvalContext.SampleChain | hcltest/main.go:51-68 | the sample input registers `id`, `id2`, `id3` with x = 1, 2, 3 and reports nothing |
| EvalContext.ForwardReferenceIsNotFatal | hcltest/main.go:125-129 | a reference to a later node writes its diagnostic, the loop goes on, and both nodes are registered |

## Left out

- SVG output is not modelled: the canvas calls, markers, styles, opacity, font sizes and the `Gstyle`/`Gend` grouping (main.go:107-117, 168-170, 204, 214). The canvas is the sequence of shapes the core decides on.
- The guide lines and axis labels of `grid` are not modelled, nor is the `showGuides` flag (main.go:282-326).
- Flag parsing, `main`, `realMain` of the renderer, file creation and the HTTP server are I/O and are not modelled.
- The debug logger and the `fmt.Print` tracing in `hcltest/main.go` are not modelled, and neither is the debug `logger.Printf` of each node id in the connector loop of `drawing` (main.go:147): they only write log lines.
- Drawing.Program.DrawNode: the label is kept whole; its split into lines at `\n` (`strings.Split`) is not modelled. The same holds for connector labels in `Connect.ConnectShapes`.
- Go's `int` is 64 bits wide; the model uses unbounded integers, so overflow in the coordinate arithmetic is not modelled.
- The `ParseHCLFile`/`ParseHCL` wrappers in `hcl/hcl.go` and `hcltest/main.go:159-173` call the HCL library. `RealMain` takes the parse outcome and the content diagnostics as parameters.
- `gohcl.DecodeBody` and the HCL expression evaluation behind it are library code. They are the `decode` parameter. `SampleDecode` is a small illustrative decoder for the sample input, not HCL.
- `gocty.ToCtyValue` is library code. Its result is modelled as the concrete `{x}` object and its failure as the `convError` parameter.
- The function table of the `hcl.EvalContext` is always empty and is not modelled.
- cue/cue.go and cueconfig/main.go only call the CUE library and are not part of this model.
- `EvalContext.RealMain` requires every `node` block to carry exactly one label. The root schema demands one label, and the library's content extraction guarantees it before the loop runs.
