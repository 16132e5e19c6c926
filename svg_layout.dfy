/** The layout emitter of `/api/generate-normal` (server/server.js:476-620): one pass down a
    fixed column at x = 450 with a vertical cursor that starts at 150. Function boxes come
    first (or a single "Process Algorithm" placeholder when there are none), then one
    decision diamond per condition, then one loop box per loop, then the End terminal.

    The emitter builds its document by appending one template per construct to a string.
    The model keeps that structure: the document's content is the sequence of appended
    templates with the values interpolated into them (`Fragment`), and `Render` expands a
    template into the elements it draws. The constant `<style>` and `<defs>` text is not
    modelled. */
module SvgLayout {

  /** The CSS class of a `<rect>`. */
  datatype BoxClass = StartEnd | ProcessBox | LoopBox

  /** The CSS class of a `<text>`. */
  datatype TextClass = NodeText | ArrowText

  datatype Vertex = Vertex(x: int, y: int)

  /** One drawn SVG element. */
  datatype Element =
    | Rect(cls: BoxClass, x: int, y: int, width: int, height: int)
    | Diamond(top: Vertex, right: Vertex, bottom: Vertex, left: Vertex)  // <polygon class="decision-box">
    | Label(textClass: TextClass, x: int, y: int, text: string)          // <text>
    | Arrow(x1: int, y1: int, x2: int, y2: int)                         // <line class="arrow">

  /** One template appended to the document, with its interpolated values. */
  datatype Fragment =
    | StartTemplate                                 // server/server.js:535-536
    | FunctionTemplate(name: string, y: int)        // server/server.js:544-548
    | PlaceholderTemplate(y: int)                   // server/server.js:553-557
    | ConditionTemplate(condition: string, y: int)  // server/server.js:565-587
    | LoopTemplate(loop: string, y: int)            // server/server.js:597-607
    | EndTemplate(y: int)                           // server/server.js:615-619

  /** An SVG document: the width and height declared on the root element and the templates
      appended after the header, in order. */
  datatype Svg = Svg(width: int, height: int, content: seq<Fragment>)

  function Max(a: int, b: int): int {
    if a >= b then a else b
  }

  // ---------------------------------------------------------------------------
  // Templates
  // ---------------------------------------------------------------------------

  /** Condition and loop labels longer than 25 characters are cut to their first 22
      characters followed by "..." (server/server.js:575, 599). */
  function Truncate(text: string): (r: string)
    ensures |r| <= 25
    ensures |text| <= 25 ==> r == text
    ensures |text| > 25 ==> |r| == 25 && r[..22] == text[..22] && r[22..] == "..."
  {
    if |text| > 25 then text[..22] + "..." else text
  }

  /** The elements a template draws. A decision diamond is 200 wide and 80 high, centred
      40 below the cursor; its "No" detour leaves on the left and its "Yes" detour on the
      right, and both come back to the column 70 below the centre. A loop box's back-edge
      leaves on the right and re-enters the column 20 above the box. The placeholder's
      arrow starts at the bottom of the Start terminal (y = 100); every other arrow into a
      box starts 40 above it. */
  function Render(t: Fragment): seq<Element> {
    match t
    case StartTemplate =>
      [Rect(StartEnd, 350, 50, 200, 50), Label(NodeText, 450, 75, "Start")]
    case FunctionTemplate(name, y) =>
      [Rect(ProcessBox, 350, y, 200, 60),
       Label(NodeText, 450, y + 30, name + "()"),
       Arrow(450, y - 40, 450, y)]
    case PlaceholderTemplate(y) =>
      [Rect(ProcessBox, 350, y, 200, 60),
       Label(NodeText, 450, y + 30, "Process Algorithm"),
       Arrow(450, 100, 450, y)]
    case ConditionTemplate(condition, y) =>
      var cy := y + 40;
      [Diamond(Vertex(450, cy - 40), Vertex(550, cy), Vertex(450, cy + 40), Vertex(350, cy)),
       Label(NodeText, 450, cy, Truncate(condition)),
       Arrow(450, y - 40, 450, y),
       Arrow(350, cy, 250, cy),
       Arrow(250, cy, 250, cy + 70),
       Arrow(250, cy + 70, 450, cy + 70),
       Label(ArrowText, 300, cy - 10, "No"),
       Arrow(550, cy, 650, cy),
       Arrow(650, cy, 650, cy + 70),
       Arrow(650, cy + 70, 450, cy + 70),
       Label(ArrowText, 600, cy - 10, "Yes")]
    case LoopTemplate(loop, y) =>
      [Rect(LoopBox, 350, y, 200, 60),
       Label(NodeText, 450, y + 30, Truncate(loop)),
       Arrow(450, y - 40, 450, y),
       Arrow(550, y + 30, 600, y + 30),
       Arrow(600, y + 30, 600, y - 20),
       Arrow(600, y - 20, 450, y - 20),
       Label(ArrowText, 600, y + 50, "Loop")]
    case EndTemplate(y) =>
      [Rect(StartEnd, 350, y, 200, 50),
       Label(NodeText, 450, y + 25, "End"),
       Arrow(450, y - 40, 450, y)]
  }

  /** The elements of a document, template after template. */
  function Elements(content: seq<Fragment>): seq<Element> {
    if content == [] then [] else Render(content[0]) + Elements(content[1..])
  }

  // ---------------------------------------------------------------------------
  // Sections and the cursor
  // ---------------------------------------------------------------------------

  /** The three kinds of extracted construct, each drawn by its own template. */
  datatype Kind = Function | Condition | Loop

  function Block(k: Kind, text: string, y: int): Fragment {
    match k
    case Function => FunctionTemplate(text, y)
    case Condition => ConditionTemplate(text, y)
    case Loop => LoopTemplate(text, y)
  }

  /** How far the cursor moves after one construct of kind `k` (server/server.js:549, 590, 609). */
  function Advance(k: Kind): nat {
    match k
    case Condition => 120
    case _ => 100
  }

  /** The cursor after `n` constructs of kind `k` drawn from `y0`. */
  function Cursor(k: Kind, y0: int, n: nat): int {
    if n == 0 then y0 else Cursor(k, y0, n - 1) + Advance(k)
  }

  /** Each construct moves the cursor by the same step. */
  lemma {:induction false} CursorIsLinear(k: Kind, y0: int, n: nat)
    ensures Cursor(k, y0, n) == y0 + Advance(k) * n
  {
    if n > 0 {
      CursorIsLinear(k, y0, n - 1);
    }
  }

  /** The templates of a section: the first item drawn with the cursor at `y`, each later
      one a step further down. */
  function Blocks(k: Kind, items: seq<string>, y: int): seq<Fragment>
    decreases |items|
  {
    if items == [] then []
    else [Block(k, items[0], y)] + Blocks(k, items[1..], y + Advance(k))
  }

  /** The cursor once the function boxes (or the placeholder) are drawn. */
  function ConditionsTop(functions: nat): int {
    150 + 100 * Max(functions, 1)
  }

  /** The cursor once the decision diamonds are drawn. */
  function LoopsTop(functions: nat, conditions: nat): int {
    ConditionsTop(functions) + 120 * conditions
  }

  /** The cursor at the End terminal. */
  function EndCursor(functions: nat, conditions: nat, loops: nat): int {
    LoopsTop(functions, conditions) + 100 * loops
  }

  /** The height written on the root element (server/server.js:478): 100 per construct
      whatever its kind. */
  function DeclaredHeight(functions: nat, conditions: nat, loops: nat): int {
    Max(600, 150 + (functions + conditions + loops) * 100)
  }

  function FunctionSection(funcNames: seq<string>): seq<Fragment> {
    if |funcNames| > 0 then Blocks(Function, funcNames, 150) else [PlaceholderTemplate(150)]
  }

  /** The document the emitter produces for the three cleaned construct lists. */
  function NormalFlowchart(funcNames: seq<string>, conditions: seq<string>, loops: seq<string>): Svg {
    var f, c, l := |funcNames|, |conditions|, |loops|;
    Svg(900, DeclaredHeight(f, c, l),
        [StartTemplate]
        + FunctionSection(funcNames)
        + Blocks(Condition, conditions, ConditionsTop(f))
        + Blocks(Loop, loops, LoopsTop(f, c))
        + [EndTemplate(EndCursor(f, c, l))])
  }

  // ---------------------------------------------------------------------------
  // The emitter
  // ---------------------------------------------------------------------------

  /** Drawing the next item moves its template from the pending ones to the drawn ones. */
  lemma DrawStep(k: Kind, items: seq<string>, i: nat, y: int, drawn: seq<Fragment>)
    requires i < |items|
    ensures drawn + Blocks(k, items[i..], y)
         == (drawn + [Block(k, items[i], y)]) + Blocks(k, items[i + 1..], y + Advance(k))
  {
    assert items[i..][1..] == items[i + 1..];
  }

  /** One of the emitter's section loops (server/server.js:543-550, 563-591, 596-610):
      appends the template of each item at the cursor and advances the cursor by the
      kind's step. */
  method DrawBlocks(k: Kind, items: seq<string>, content: seq<Fragment>, y0: int)
    returns (svgContent: seq<Fragment>, yPos: int)
    ensures svgContent == content + Blocks(k, items, y0)
    ensures yPos == Cursor(k, y0, |items|)
  {
    svgContent := content;
    yPos := y0;
    for i := 0 to |items|
      invariant yPos == Cursor(k, y0, i)
      invariant svgContent + Blocks(k, items[i..], yPos) == content + Blocks(k, items, y0)
    {
      DrawStep(k, items, i, yPos, svgContent);
      svgContent := svgContent + [Block(k, items[i], yPos)];
      yPos := yPos + Advance(k);
    }
    assert items[|items|..] == [];
  }

  /** The function section (server/server.js:542-559): a box per function name, or the
      placeholder when there is none. */
  method DrawFunctions(funcNames: seq<string>, content: seq<Fragment>)
    returns (svgContent: seq<Fragment>, yPos: int)
    ensures svgContent == content + FunctionSection(funcNames)
    ensures yPos == ConditionsTop(|funcNames|)
  {
    if |funcNames| > 0 {
      svgContent, yPos := DrawBlocks(Function, funcNames, content, 150);
      CursorIsLinear(Function, 150, |funcNames|);
    } else {
      svgContent := content + [PlaceholderTemplate(150)];
      yPos := 150 + 100;
    }
  }

  /** The emitter (server/server.js:476-620): the Start terminal, the function section,
      the condition and loop sections, then the End terminal at the final cursor. */
  method EmitFlowchart(funcNames: seq<string>, conditions: seq<string>, loops: seq<string>)
    returns (svg: Svg, yPos: int)
    ensures svg == NormalFlowchart(funcNames, conditions, loops)
    ensures yPos == EndCursor(|funcNames|, |conditions|, |loops|)
  {
    var f, c, l := |funcNames|, |conditions|, |loops|;
    var height := Max(600, 150 + (f + c + l) * 100);
    var svgContent := [StartTemplate];
    svgContent, yPos := DrawFunctions(funcNames, svgContent);
    svgContent, yPos := DrawBlocks(Condition, conditions, svgContent, yPos);
    CursorIsLinear(Condition, ConditionsTop(f), c);
    assert yPos == LoopsTop(f, c);
    svgContent, yPos := DrawBlocks(Loop, loops, svgContent, yPos);
    CursorIsLinear(Loop, LoopsTop(f, c), l);
    assert yPos == EndCursor(f, c, l);
    svgContent := svgContent + [EndTemplate(yPos)];
    svg := Svg(900, height, svgContent);
  }
}
