# codeXdiagram core, modelled in Dafny

codeXdiagram turns source code into diagrams. This project models the deterministic parts of
that pipeline and proves properties of them:

- **The normal-mode endpoint** (`/api/generate-normal`).
  - It rejects a request without code.
  - It answers a Sudoku validator with a fixed hand-drawn document.
  - Otherwise it labels every function match, cleans every condition and loop match, and
    lays the constructs out top to bottom in a 900-wide SVG document.
  - The document is a list of templates (Start, one box per function or the "Process
    Algorithm" placeholder, one diamond per condition, one loop box per loop, End), each
    drawing a fixed list of shapes, arrows and texts at the cursor `yPos`.
- **The JSON endpoint** (`/api/generate-json`).
  - It strips a markdown code fence from the language model's reply.
  - It falls back to a fixed six-node graph when the reply does not parse, or when the model
    call fails for a reason other than the API key or the quota.
  - An API-key failure is answered with 401, a quota failure with 429.
- **The Mermaid serialiser** (`parseXmlToMermaid`). It writes a class diagram from a tree of
  classes, properties, methods, parameters and relationships.
- **The two client renderers of the node/edge graph.**
  - The interactive view gives positionless nodes a three-column grid position. Its
    auto-layout turns the layout engine's centres into top-left corners.
  - The static renderer chooses each node's shape, style, corner radius and class from its
    type. It builds a graph with one node per id and one edge per (source, target) pair.

The layout emitter, the Mermaid serialiser and the two renderers' graph-building code are
methods with loops. Each method is proved equal to a specification function, and the
properties are proved about those functions.

The model keeps three quirks of the layout as the source has them, each stated as a lemma:
- The Sudoku document declares a height of 1200 but draws its Return True terminal at
  y = 1250.
- The End terminal can fall outside the declared canvas height.
  - From five constructs on, the declared height is 150 + 100 per construct, and End starts
    at or below that line.
  - End then overflows by exactly 50 + 20 per condition, plus 100 when no function was
    found.
  - Smaller documents overflow too when their sections take more than 400 units, for
    example three conditions and no function.
- The first function box's incoming arrow starts 10 below the Start terminal.

## Model

| member | source | states |
|---|---|---|
| Text.Trim | server/server.js:289 | `trim()`: the result is the slice of the input between its leading and trailing whitespace runs, and it neither starts nor ends with whitespace |
| FlowGraph.ById | client/src/components/FlowchartViewer.jsx:139-144 | repeated `setNode` calls: the keys of the resulting map are exactly the node ids |
| FlowGraph.ByIdOf | client/src/components/SvgFlowchartGenerator.jsx:52-59 | with distinct ids, every node is keyed to its own value |
| FlowGraph.EdgePairs | client/src/components/FlowchartViewer.jsx:146-148 | repeated `setEdge` calls: the set holds exactly the (source, target) pairs of the edges |
| ConstructNames.CapturedName | server/server.js:280-281 | the `(\w+)` capture is a non-empty run of word characters that sits right after the keyword and its whitespace |
| ConstructNames.FirstKeywordName | server/server.js:280-281 | the leftmost index where `kw\s+(\w+)` matches; no index before it matches; none is returned only when no index matches |
| ConstructNames.KeywordName | server/server.js:280-281 | a captured name is a non-empty word contained in the match |
| ConstructNames.FunctionLabel | server/server.js:278-283 | a label is a non-empty word, and it is either "anonymous" or a substring of the match |
| ConstructNames.FunctionLabels | server/server.js:278-283 | one label per match, in order |
| ConstructNames.NameAfterKeyword | server/server.js:280-281 | keyword, whitespace, then a word ended by a non-word character: the pattern matches at 0 and captures exactly that word |
| ConstructNames.JavaScriptHeaderLabel | server/server.js:280-282 | `function <name>(<params>)` is labelled `<name>` |
| ConstructNames.AbsentKeywordNoName | server/server.js:280-282 | where the keyword does not occur, nothing is captured |
| ConstructNames.PythonHeaderLabel | server/server.js:281-282 | `def <name>...` without the text `function` is labelled `<name>` |
| ConstructNames.AnonymousHeaderLabel | server/server.js:282 | `function ()` is labelled "anonymous" |
| ConstructNames.AlternativeLength | server/server.js:289 | a match of one alternative stays inside the text; a literal alternative matches one character exactly when that character is the literal |
| ConstructNames.NoMatchNoLiteral | server/server.js:296 | where the alternation fails, the character there is not one of its literals |
| ConstructNames.RemoveMatches | server/server.js:289 | the global replace leaves no literal of the pattern (`)` or `:`) in its result and never lengthens the text |
| ConstructNames.InertMatch | server/server.js:296 | where no keyword occurs, the alternation matches exactly the literal characters |
| ConstructNames.RemoveMatchesInert | server/server.js:296 | over a keyword-free stretch, the replace only strips the literals |
| ConstructNames.FirstAlternative | server/server.js:289 | ordered alternation: once the earlier alternatives fail, the first one that matches decides the match |
| ConstructNames.CleanCondition | server/server.js:287-290 | a cleaned condition is trimmed, contains no `)` or `:`, and is no longer than the match |
| ConstructNames.CleanLoop | server/server.js:294-297 | a cleaned loop is trimmed, contains no `)` or `:`, and is no longer than the match |
| ConstructNames.CleanConditions | server/server.js:287-290 | one cleaned condition per match, in order |
| ConstructNames.CleanLoops | server/server.js:294-297 | one cleaned loop per match, in order |
| ConstructNames.StripNothing | server/server.js:289 | text without `)` or `:` is left as it is |
| ConstructNames.ParenthesisedCondition | server/server.js:289 | `if (<body>)` is shown as its body trimmed, with its colons removed |
| ConstructNames.PythonCondition | server/server.js:289 | `if <body>:` is shown as its body trimmed, with every `)` removed, including those of calls inside it |
| ConstructNames.ParenthesisedLoop | server/server.js:296 | `for (<body>)` and `while (<body>)` are shown as the body trimmed, with its colons removed |
| ConstructNames.PythonLoop | server/server.js:296 | `for <body>:` and `while <body>:` are shown as the body trimmed, with every `)` removed |
| SvgLayout.Truncate | server/server.js:575 | a label longer than 25 characters becomes its first 22 characters plus "...", giving length 25; a shorter one is unchanged |
| SvgLayout.CursorIsLinear | server/server.js:549 | after n constructs of one kind the cursor has moved n times that kind's step |
| SvgLayout.DrawBlocks | server/server.js:563-591 | a section loop appends one template per item, each at the running cursor, and returns the cursor advanced once per item |
| SvgLayout.DrawFunctions | server/server.js:542-559 | the function section appends a box per name, or the placeholder when there is none, and leaves the cursor where the conditions start |
| SvgLayout.EmitFlowchart | server/server.js:476-620 | the emitter produces exactly the specified document, and its final cursor is the End terminal's |
| LayoutFacts.ShapeSequence | server/server.js:535-617 | top to bottom, the shapes are: the Start terminal; a box per function or the one placeholder; a diamond per condition; a loop box per loop; the End terminal |
| LayoutFacts.ArrowLabelSequence | server/server.js:582-606 | the arrow labels are "No" then "Yes" for each condition and "Loop" for each loop, in order; nothing else is labelled |
| LayoutFacts.DocumentLength | server/server.js:535-618 | the document holds 2 + max(F, 1) + C + L templates |
| LayoutFacts.FunctionPlacement | server/server.js:543-550 | the i-th function box is the (i+1)-th template, at y = 150 + 100 i |
| LayoutFacts.ConditionPlacement | server/server.js:563-591 | the i-th diamond follows the function section, at 120 i below where the conditions start |
| LayoutFacts.LoopPlacement | server/server.js:596-610 | the i-th loop box follows the diamonds, at 100 i below where the loops start |
| LayoutFacts.EndPlacement | server/server.js:614-618 | the End terminal is the last template, at the final cursor |
| LayoutFacts.TemplatesJoin | server/server.js:547 | each template's incoming arrow runs from 40 above the cursor to the cursor; each shape ends 40 above the next cursor |
| LayoutFacts.StartConnector | server/server.js:535-556 | the Start terminal ends at y = 100; the placeholder's arrow starts there, the first function box's arrow at y = 110 |
| LayoutFacts.DecisionBranches | server/server.js:565-587 | the "No" path leaves the left vertex and the "Yes" path the right one; each is a chain of three arrows rejoining the column 30 below the bottom vertex |
| LayoutFacts.LoopBackEdge | server/server.js:603-606 | the back-edge leaves the middle of the box's right side and re-enters the column on the loop's own incoming arrow |
| LayoutFacts.EndTerminalOverflow | server/server.js:478 | with five or more constructs, the End terminal's bottom exceeds the declared height by 50 + 20 per condition, plus 100 when no function was found |
| LayoutFacts.SmallDocumentOverflow | server/server.js:478 | below five constructs the canvas is 600 high, and End overflows it exactly when the sections take more than 400 units (100 per function or the placeholder, 120 per condition, 100 per loop) |
| LayoutFacts.EmptyProgramDocument | server/server.js:476-620 | with no construct, the document is Start, the placeholder and End on a 600-high canvas |
| NormalEndpoint.NormalResponse | server/server.js:263-627 | status 400 with "No code provided" exactly when the code is missing or empty; otherwise 200 with a document 900 wide; a Sudoku validator gets the fixed document |
| NormalEndpoint.GenerateNormal | server/server.js:263-627 | the handler's response is the specified one |
| NormalEndpoint.SudokuReturnTrueBelowCanvas | server/server.js:459-462 | the Sudoku document's Return True terminal starts at y = 1250, below its declared height of 1200 |
| NormalEndpoint.SudokuIgnoresConstructs | server/server.js:273 | for a Sudoku validator, the extracted constructs play no part in the response |
| NormalEndpoint.NormalDocumentSize | server/server.js:478 | other code gets a document 900 wide and max(600, 150 + 100 (F + C + L)) high |
| JsonEndpoint.FallbackFlowchart | server/server.js:78-97 | six nodes and six edges, the first node a start node and the last an end node |
| JsonEndpoint.FallbackNodeIds | server/server.js:81-88 | the node ids are exactly "1" to "6" |
| JsonEndpoint.FallbackWellFormed | server/server.js:78-97 | distinct node ids, distinct edge ids, and every edge joins two nodes of the graph |
| JsonEndpoint.FallbackDecision | server/server.js:84-93 | the decision node "3" has exactly two out-edges, "Yes" to node 4 and "No" to node 5 |
| JsonEndpoint.FallbackIgnoresCode | server/server.js:78 | the fallback graph does not depend on the code |
| JsonEndpoint.FindFrom | server/server.js:182-183 | the first occurrence at or after `from`; none is returned only when there is no occurrence |
| JsonEndpoint.Capture | server/server.js:182-183 | the lazy capture up to the first closing fence, less its trailing whitespace |
| JsonEndpoint.FencedBody | server/server.js:182-183 | a captured body contains no fence and neither starts nor ends with whitespace |
| JsonEndpoint.CleanJson | server/server.js:182-185 | the extracted text is never longer than the reply |
| JsonEndpoint.NoFenceWholeText | server/server.js:185 | a reply without a fence is parsed as it is |
| JsonEndpoint.FencedAt | server/server.js:182-183 | for a reply made of text in which the opening does not start, the opening, whitespace, a body, whitespace and the first fence from the body's start on, the capture is exactly the body; backquotes may appear anywhere else |
| JsonEndpoint.JsonFenceBody | server/server.js:182 | the first ```` ```json ```` block yields its trimmed body, whatever follows its closing fence, plain blocks included |
| JsonEndpoint.PlainFenceBody | server/server.js:183 | in a reply without ```` ```json ````, the first plain ```` ``` ```` block yields its trimmed body |
| JsonEndpoint.GenerateJson | server/server.js:101-229 | 400 exactly when the code is missing or empty; 401 exactly when the failure mentions "API key"; 429 exactly when it mentions "quota" and not "API key"; an error body exactly when the status is not 200; the fallback flag exactly on a 200 after a failed call |
| JsonEndpoint.AnsweredReply | server/server.js:187-198 | a reply that parses is returned as it is; one that does not is replaced by the fallback graph, still with status 200 |
| JsonEndpoint.OtherFailureFallsBack | server/server.js:222-229 | any other failure gets status 200, the well-formed fallback graph, the fallback flag and the failure's message |
| Mermaid.ArrowLine | client/src/utils/parseXmlToMermaid.js:66 | a relationship line is indented by two spaces and ends with a newline |
| Mermaid.RelationshipLine | client/src/utils/parseXmlToMermaid.js:60-80 | a relationship gives a line exactly when its tag is Inheritance, Composition, Aggregation or Association |
| Mermaid.AppendClass | client/src/utils/parseXmlToMermaid.js:23-55 | the class body appends exactly the class block |
| Mermaid.AppendClasses | client/src/utils/parseXmlToMermaid.js:22-56 | the class loop appends the class blocks in document order |
| Mermaid.AppendRelationships | client/src/utils/parseXmlToMermaid.js:59-80 | the relationship loop appends the relationship lines in document order |
| Mermaid.ParseXmlToMermaid | client/src/utils/parseXmlToMermaid.js:6-87 | the result is the specified diagram, or the error diagram when the XML does not parse |
| Mermaid.HeaderFirst | client/src/utils/parseXmlToMermaid.js:19 | every output, the error diagram included, starts with "classDiagram\n" |
| Mermaid.UnknownTagIgnored | client/src/utils/parseXmlToMermaid.js:63-79 | a relationship with any other tag leaves the diagram unchanged |
| Mermaid.MissingTypes | client/src/utils/parseXmlToMermaid.js:33-47 | a missing or empty return type reads `void`; a missing property or parameter type reads as empty |
| Mermaid.ConcatAppend | client/src/utils/parseXmlToMermaid.js:22-80 | the text of two runs of items is the first run's text followed by the second's |
| Mermaid.ErrorDiagramShape | client/src/utils/parseXmlToMermaid.js:13-16 | the error diagram is the diagram of a one-class document `Error` with the property "Error parsing XML" typed with the parser's message, without the final newline |
| Mermaid.PropertyLineCount | client/src/utils/parseXmlToMermaid.js:34 | a property line is exactly one line |
| Mermaid.MethodLineCount | client/src/utils/parseXmlToMermaid.js:44-52 | a method line, parameters included, is exactly one line |
| Mermaid.ClassBlockCount | client/src/utils/parseXmlToMermaid.js:27-55 | a class block takes 2 + P + M lines |
| Mermaid.ClassesLineCount | client/src/utils/parseXmlToMermaid.js:22-56 | the class blocks together take the sum of their line counts |
| Mermaid.RelationshipLineCount | client/src/utils/parseXmlToMermaid.js:60-80 | a known relationship takes one line, any other none |
| Mermaid.RelationshipsLineCount | client/src/utils/parseXmlToMermaid.js:59-80 | the relationship section takes one line per known relationship |
| Mermaid.DiagramLineCount | client/src/utils/parseXmlToMermaid.js:19-80 | the diagram has one header line, 2 + P + M lines per class and one line per known relationship |
| FlowchartViewer.DefaultPosition | client/src/components/FlowchartViewer.jsx:43-46 | the default x is one of 100, 300 or 500; the default y is 100 or more, on a 100 grid |
| FlowchartViewer.DefaultPositionsDistinct | client/src/components/FlowchartViewer.jsx:44-45 | two different indices never get the same grid cell |
| FlowchartViewer.DefaultPositionNextRow | client/src/components/FlowchartViewer.jsx:44-45 | index i + 3 is in the same column as index i, one row down |
| FlowchartViewer.Initialized | client/src/components/FlowchartViewer.jsx:40-47 | a node with a position is unchanged; one without gets its grid cell; every result has a position |
| FlowchartViewer.InitializedNodes | client/src/components/FlowchartViewer.jsx:39-48 | length and order are preserved, id, type and label are kept, and every node has a position |
| FlowchartViewer.InitializedPositions | client/src/components/FlowchartViewer.jsx:43-46 | the i-th node keeps its own position, or gets grid cell i |
| FlowchartViewer.InitializedIdempotent | client/src/components/FlowchartViewer.jsx:39-48 | initializing twice gives the same result as initializing once |
| FlowchartViewer.InitializedApart | client/src/components/FlowchartViewer.jsx:43-46 | two positionless nodes never start on the same spot |
| FlowchartViewer.LayoutSize | client/src/components/FlowchartViewer.jsx:141-143 | a decision node is 120 by 120; every other node is 180 by 60 |
| FlowchartViewer.TopLeft | client/src/components/FlowchartViewer.jsx:165-168 | the top-left corner plus half the node's layout size is the centre |
| FlowchartViewer.Placed | client/src/components/FlowchartViewer.jsx:154-170 | a node with a layout result gets its top-left corner; one without is returned unchanged; id, type and label are kept |
| FlowchartViewer.LayoutNodes | client/src/components/FlowchartViewer.jsx:154-170 | length, order, ids, types and labels are kept |
| FlowchartViewer.LayoutCentres | client/src/components/FlowchartViewer.jsx:154-170 | each laid-out node's box is centred on the engine's centre; the other nodes are unchanged |
| FlowchartViewer.LayoutIdempotent | client/src/components/FlowchartViewer.jsx:154-170 | applying the same layout result twice gives the same result as applying it once |
| FlowchartViewer.Viewer.constructor | client/src/components/FlowchartViewer.jsx:52-60 | the initial state is the initialized nodes and the edges, or nothing without flow data |
| FlowchartViewer.Viewer.OnLayout | client/src/components/FlowchartViewer.jsx:131-173 | with no nodes, nothing changes; otherwise the nodes are replaced by their placement from the engine's centres for the sizes and links handed to it; the edges are unchanged |
| FlowchartViewer.BuildSizes | client/src/components/FlowchartViewer.jsx:139-144 | the `setNode` loop keys every node's layout size by its id |
| FlowchartViewer.BuildLinks | client/src/components/FlowchartViewer.jsx:146-148 | the `setEdge` loop collects the (source, target) pairs |
| FlowchartViewer.PlaceNodes | client/src/components/FlowchartViewer.jsx:154-170 | the map places every node in order |
| SvgFlowchartGenerator.AppearanceOf | client/src/components/SvgFlowchartGenerator.jsx:29-50 | a diamond exactly for "decision", otherwise a rectangle; the blue style exactly for start and end, yellow exactly for decision, green exactly for io, purple exactly for every other type |
| SvgFlowchartGenerator.NodeValue | client/src/components/SvgFlowchartGenerator.jsx:52-59 | the node's label and appearance; rx = ry, 15 exactly for start and end and 5 otherwise; the class is "node-" followed by the type |
| SvgFlowchartGenerator.EdgeValue | client/src/components/SvgFlowchartGenerator.jsx:64-69 | the edge's label, or "" when it has none, with the fixed edge and arrowhead styles |
| SvgFlowchartGenerator.WithEndpoint | client/src/components/SvgFlowchartGenerator.jsx:64 | an edge's endpoint that is not yet a node is added without a value; existing nodes keep theirs |
| SvgFlowchartGenerator.RenderGraph.SetNode | client/src/components/SvgFlowchartGenerator.jsx:52 | the node's entry is set and the edges are unchanged |
| SvgFlowchartGenerator.RenderGraph.SetEdge | client/src/components/SvgFlowchartGenerator.jsx:64 | the pair's entry is set and both endpoints become nodes |
| SvgFlowchartGenerator.EdgeEndpoints | client/src/components/SvgFlowchartGenerator.jsx:63-70 | after the edge loop, existing nodes keep their values, every endpoint is a node, and every added node has no value and is an endpoint |
| SvgFlowchartGenerator.GraphEdges | client/src/components/SvgFlowchartGenerator.jsx:63-70 | one edge entry per (source, target) pair of the input |
| SvgFlowchartGenerator.GraphEdgesOf | client/src/components/SvgFlowchartGenerator.jsx:63-70 | an edge whose pair no later edge repeats keeps its own label and style |
| SvgFlowchartGenerator.ClosedAddsNoNode | client/src/components/SvgFlowchartGenerator.jsx:63-70 | when every edge joins nodes of the flowchart, the edge loop adds no node |
| SvgFlowchartGenerator.WellFormedGraphNodes | client/src/components/SvgFlowchartGenerator.jsx:27-70 | a well-formed flowchart gives exactly one graph node per node, keyed by its id and holding its label and style |
| SvgFlowchartGenerator.BuildGraph | client/src/components/SvgFlowchartGenerator.jsx:16-70 | the graph is new; its nodes and edges are the specified maps |
| SvgFlowchartGenerator.AddNodes | client/src/components/SvgFlowchartGenerator.jsx:27-60 | the node loop keys every node's value by its id and leaves the edges alone |
| SvgFlowchartGenerator.AddEdges | client/src/components/SvgFlowchartGenerator.jsx:63-70 | the edge loop sets one entry per pair and adds the missing endpoints |

## Left out

- **Regular-expression scans.** The three `code.match(/.../g)` scans of the normal endpoint (server/server.js:276, 286, 293) are inputs: the handler takes the lists of raw matches. The per-match patterns applied to those matches are modelled.
- **Model call and JSON parsing.**
  - The language-model call is a `ModelCall` value: a reply, or a failure with an optional message.
  - `JSON.parse` together with the `nodes.length` and `edges.length` reads is a function parameter from text to an optional graph.
  - The graph a reply parses to is not checked further.
- **The 500 paths.** Both endpoints' outer `catch` blocks answer 500: the JSON endpoint's (server/server.js:231-241), and the normal endpoint's (server/server.js:628-634, with "Failed to generate flowchart" and `details`). They answer exceptions the model cannot raise:
  - a missing request body failing the destructuring (server/server.js:265);
  - a truthy non-string `code` failing at `code.includes` (server/server.js:273);
  - a failing logger.
- **Code values.** `code` is an optional string. A non-string JSON value for `code` is not modelled.
- **Presentation text.** The CSS `<style>`/`<defs>` blocks and the exact number-to-text rendering of the SVG are not modelled. The documents are modelled as lists of elements with integer coordinates. Labels are not escaped in the source, and no well-formedness of the markup is claimed.
- **Unused and debug code.** `generateSimpleXml`, `/api/test-gemini`, Express setup, CORS and static serving are not modelled, and neither is console output.
- **XML parsing.**
  - The DOM parser and `querySelectorAll` are replaced by the parsed tree: a missing attribute is `None` and reads "null".
  - A `Class` element nested inside another element is not modelled. The source's selector would also find it.
  - Exceptions in `parseXmlToMermaid` other than the parser error are not modelled.
- **Layout libraries.** The layout engine behind `dagre.layout` is a function parameter. A node it does not place keeps its position.
  - Graph-library details beyond `setNode`/`setEdge` are not modelled. This includes the default edge label and the rank settings.
  - d3 rendering, zoom and downloads are not modelled.
- **Styling maps.** The `styledNodes`/`styledEdges` maps and the custom node components of the interactive view (client/src/components/FlowchartViewer.jsx:10-36, 63-128) only attach CSS, so they are not modelled.
- **Scheduling.** The 100 ms timer that triggers the auto-layout, and React state plumbing beyond the `nodes`/`edges` fields, are not modelled.
- **Rendering details.** The static renderer's edge curve (`d3.curveBasis`) and everything after the graph is built are not modelled.
- **Unicode.** JavaScript's `\s` is modelled over the code points it names; `\w` is ASCII only, as without the `u` flag.
- SvgLayout.Truncate: strings are sequences of Unicode code points, while the source's `length` and `substring` count UTF-16 code units. A label with characters outside the Basic Multilingual Plane is therefore cut at a different place, and a cut through a surrogate pair cannot be represented.
- FlowchartViewer.TopLeft, FlowchartViewer.LayoutNodes: positions and layout centres are integers. The source's are floating-point numbers, so a fractional position or centre is not represented.
- JsonEndpoint.PlainFenceBody: it is stated for replies with no ```` ```json ```` anywhere. A reply whose only ```` ```json ```` has no fence after it also takes the plain path, and that case is not covered.
- ConstructNames.PythonCondition, ConstructNames.ParenthesisedCondition, ConstructNames.ParenthesisedLoop, ConstructNames.PythonLoop: these are stated for headers whose body does not contain the keyword. A keyword repeated inside the body is covered only by the general `CleanCondition`/`CleanLoop` contracts.
- Mermaid.DiagramLineCount: it is stated for attribute values without a newline. A newline inside an attribute adds lines.
