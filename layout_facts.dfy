/** Properties of the normal-mode document: which shapes appear and in what order, which
    branch labels appear, where each construct's template sits, how the connectors join,
    and where the End terminal lands relative to the declared height. */
module LayoutFacts {
  import opened SvgLayout

  // ---------------------------------------------------------------------------
  // Projections
  // ---------------------------------------------------------------------------

  /** The concatenation of `f` over the elements, in order. */
  function Project<T>(es: seq<Element>, f: Element -> seq<T>): seq<T> {
    if es == [] then [] else f(es[0]) + Project(es[1..], f)
  }

  /** The concatenation of `g` over the templates, in order. */
  function FlatMap<T>(content: seq<Fragment>, g: Fragment -> seq<T>): seq<T> {
    if content == [] then [] else g(content[0]) + FlatMap(content[1..], g)
  }

  /** `p` repeated `n` times. */
  function Repeat<T>(p: seq<T>, n: nat): seq<T> {
    if n == 0 then [] else p + Repeat(p, n - 1)
  }

  lemma {:induction false} ProjectAppend<T>(a: seq<Element>, b: seq<Element>, f: Element -> seq<T>)
    ensures Project(a + b, f) == Project(a, f) + Project(b, f)
  {
    if a == [] {
      assert a + b == b;
    } else {
      assert (a + b)[1..] == a[1..] + b;
      ProjectAppend(a[1..], b, f);
    }
  }

  lemma {:induction false} ProjectNothing<T>(es: seq<Element>, f: Element -> seq<T>)
    requires forall k | 0 <= k < |es| :: f(es[k]) == []
    ensures Project(es, f) == []
  {
    if es != [] {
      ProjectNothing(es[1..], f);
    }
  }

  lemma {:induction false} FlatMapAppend<T>(a: seq<Fragment>, b: seq<Fragment>, g: Fragment -> seq<T>)
    ensures FlatMap(a + b, g) == FlatMap(a, g) + FlatMap(b, g)
  {
    if a == [] {
      assert a + b == b;
    } else {
      assert (a + b)[1..] == a[1..] + b;
      FlatMapAppend(a[1..], b, g);
    }
  }

  /** Projecting the drawn elements is projecting each template's elements in turn. */
  lemma {:induction false} ProjectElements<T>(content: seq<Fragment>, f: Element -> seq<T>, g: Fragment -> seq<T>)
    requires forall t :: Project(Render(t), f) == g(t)
    ensures Project(Elements(content), f) == FlatMap(content, g)
  {
    if content != [] {
      ProjectElements(content[1..], f, g);
      ProjectAppend(Render(content[0]), Elements(content[1..]), f);
    }
  }

  /** Over a section, a projection that gives every template of the kind the same value
      repeats that value once per item. */
  lemma {:induction false} FlatMapBlocks<T>(k: Kind, items: seq<string>, y: int, g: Fragment -> seq<T>, p: seq<T>)
    requires forall text, y' :: g(Block(k, text, y')) == p
    ensures FlatMap(Blocks(k, items, y), g) == Repeat(p, |items|)
    decreases |items|
  {
    if items != [] {
      FlatMapBlocks(k, items[1..], y + Advance(k), g, p);
    }
  }

  /** A projection of the document is the concatenation of its sections' projections. */
  lemma DocumentFlatMap<T>(funcNames: seq<string>, conditions: seq<string>, loops: seq<string>, g: Fragment -> seq<T>)
    ensures var f, c, l := |funcNames|, |conditions|, |loops|;
      FlatMap(NormalFlowchart(funcNames, conditions, loops).content, g) ==
        g(StartTemplate) + FlatMap(FunctionSection(funcNames), g)
        + FlatMap(Blocks(Condition, conditions, ConditionsTop(f)), g)
        + FlatMap(Blocks(Loop, loops, LoopsTop(f, c)), g)
        + g(EndTemplate(EndCursor(f, c, l)))
  {
    var f, c, l := |funcNames|, |conditions|, |loops|;
    var start := [StartTemplate];
    var functions := FunctionSection(funcNames);
    var decisions := Blocks(Condition, conditions, ConditionsTop(f));
    var loopBoxes := Blocks(Loop, loops, LoopsTop(f, c));
    var end := [EndTemplate(EndCursor(f, c, l))];
    FlatMapAppend(start, functions, g);
    FlatMapAppend(start + functions, decisions, g);
    FlatMapAppend(start + functions + decisions, loopBoxes, g);
    FlatMapAppend(start + functions + decisions + loopBoxes, end, g);
  }

  // ---------------------------------------------------------------------------
  // Shapes
  // ---------------------------------------------------------------------------

  /** The kinds of flowchart shape the document draws. */
  datatype Shape = Terminal | Process | Decision | LoopShape

  /** The shape an element draws, if it is one. */
  function ShapeOf(e: Element): seq<Shape> {
    match e
    case Rect(cls, _, _, _, _) =>
      (match cls
       case StartEnd => [Terminal]
       case ProcessBox => [Process]
       case LoopBox => [LoopShape])
    case Diamond(_, _, _, _) => [Decision]
    case _ => []
  }

  /** The one shape each template draws. */
  function TemplateShape(t: Fragment): seq<Shape> {
    match t
    case StartTemplate => [Terminal]
    case EndTemplate(_) => [Terminal]
    case FunctionTemplate(_, _) => [Process]
    case PlaceholderTemplate(_) => [Process]
    case ConditionTemplate(_, _) => [Decision]
    case LoopTemplate(_, _) => [LoopShape]
  }

  /** Every template draws exactly one shape, as its first element. */
  lemma RenderShape(t: Fragment)
    ensures Project(Render(t), ShapeOf) == TemplateShape(t)
  {
    var es := Render(t);
    ProjectNothing(es[1..], ShapeOf);
  }

  /** The shapes of the document, top to bottom, template by template. */
  lemma ElementShapes(content: seq<Fragment>)
    ensures Project(Elements(content), ShapeOf) == FlatMap(content, TemplateShape)
  {
    forall t ensures Project(Render(t), ShapeOf) == TemplateShape(t) {
      RenderShape(t);
    }
    ProjectElements(content, ShapeOf, TemplateShape);
  }

  lemma FunctionSectionShapes(funcNames: seq<string>)
    ensures FlatMap(FunctionSection(funcNames), TemplateShape) == Repeat([Process], Max(|funcNames|, 1))
  {
    if |funcNames| > 0 {
      FlatMapBlocks(Function, funcNames, 150, TemplateShape, [Process]);
    }
  }

  /** The document's shapes, top to bottom: the Start terminal, one process box per function
      (or the single placeholder), one diamond per condition, one loop box per loop, and the
      End terminal. */
  lemma ShapeSequence(funcNames: seq<string>, conditions: seq<string>, loops: seq<string>)
    ensures Project(Elements(NormalFlowchart(funcNames, conditions, loops).content), ShapeOf) ==
      [Terminal] + Repeat([Process], Max(|funcNames|, 1)) + Repeat([Decision], |conditions|)
      + Repeat([LoopShape], |loops|) + [Terminal]
  {
    var f, c, l := |funcNames|, |conditions|, |loops|;
    var content := NormalFlowchart(funcNames, conditions, loops).content;
    var g := TemplateShape;
    calc {
      Project(Elements(content), ShapeOf);
    == { ElementShapes(content); }
      FlatMap(content, g);
    == { DocumentFlatMap(funcNames, conditions, loops, g); }
      g(StartTemplate) + FlatMap(FunctionSection(funcNames), g)
      + FlatMap(Blocks(Condition, conditions, ConditionsTop(f)), g)
      + FlatMap(Blocks(Loop, loops, LoopsTop(f, c)), g)
      + g(EndTemplate(EndCursor(f, c, l)));
    == { FunctionSectionShapes(funcNames);
         FlatMapBlocks(Condition, conditions, ConditionsTop(f), g, [Decision]);
         FlatMapBlocks(Loop, loops, LoopsTop(f, c), g, [LoopShape]); }
      [Terminal] + Repeat([Process], Max(f, 1)) + Repeat([Decision], c) + Repeat([LoopShape], l) + [Terminal];
    }
  }

  // ---------------------------------------------------------------------------
  // Branch labels
  // ---------------------------------------------------------------------------

  /** The text of an arrow label (class `arrow-text`). */
  function ArrowLabelOf(e: Element): seq<string> {
    if e.Label? && e.textClass == ArrowText then [e.text] else []
  }

  /** The arrow labels each template draws. */
  function TemplateArrowLabels(t: Fragment): seq<string> {
    match t
    case ConditionTemplate(_, _) => ["No", "Yes"]
    case LoopTemplate(_, _) => ["Loop"]
    case _ => []
  }

  lemma ConditionArrowLabels(condition: string, y: int)
    ensures Project(Render(ConditionTemplate(condition, y)), ArrowLabelOf) == ["No", "Yes"]
  {
    var b := Render(ConditionTemplate(condition, y));
    var front, back := b[..7], b[7..];
    assert b == front + back;
    assert front == front[..6] + [b[6]];
    assert back == back[..3] + [b[10]];
    ProjectNothing(front[..6], ArrowLabelOf);
    ProjectNothing(back[..3], ArrowLabelOf);
    ProjectAppend(front[..6], [b[6]], ArrowLabelOf);
    ProjectAppend(back[..3], [b[10]], ArrowLabelOf);
    ProjectAppend(front, back, ArrowLabelOf);
  }

  lemma LoopArrowLabels(loop: string, y: int)
    ensures Project(Render(LoopTemplate(loop, y)), ArrowLabelOf) == ["Loop"]
  {
    var b := Render(LoopTemplate(loop, y));
    assert b == b[..6] + [b[6]];
    ProjectNothing(b[..6], ArrowLabelOf);
    ProjectAppend(b[..6], [b[6]], ArrowLabelOf);
  }

  lemma RenderArrowLabels(t: Fragment)
    ensures Project(Render(t), ArrowLabelOf) == TemplateArrowLabels(t)
  {
    match t
    case ConditionTemplate(c, y) => ConditionArrowLabels(c, y);
    case LoopTemplate(l, y) => LoopArrowLabels(l, y);
    case _ => ProjectNothing(Render(t), ArrowLabelOf);
  }

  lemma ElementArrowLabels(content: seq<Fragment>)
    ensures Project(Elements(content), ArrowLabelOf) == FlatMap(content, TemplateArrowLabels)
  {
    forall t ensures Project(Render(t), ArrowLabelOf) == TemplateArrowLabels(t) {
      RenderArrowLabels(t);
    }
    ProjectElements(content, ArrowLabelOf, TemplateArrowLabels);
  }

  lemma {:induction false} RepeatNothing<T>(p: seq<T>, n: nat)
    requires p == []
    ensures Repeat(p, n) == []
  {
    if n > 0 {
      RepeatNothing(p, n - 1);
    }
  }

  lemma FunctionSectionArrowLabels(funcNames: seq<string>)
    ensures FlatMap(FunctionSection(funcNames), TemplateArrowLabels) == []
  {
    if |funcNames| > 0 {
      var none: seq<string> := [];
      FlatMapBlocks(Function, funcNames, 150, TemplateArrowLabels, none);
      RepeatNothing(none, |funcNames|);
    }
  }

  /** The arrow labels of the document, top to bottom: "No" then "Yes" for every condition,
      then "Loop" for every loop; function boxes and terminals carry none. */
  lemma ArrowLabelSequence(funcNames: seq<string>, conditions: seq<string>, loops: seq<string>)
    ensures Project(Elements(NormalFlowchart(funcNames, conditions, loops).content), ArrowLabelOf) ==
      Repeat(["No", "Yes"], |conditions|) + Repeat(["Loop"], |loops|)
  {
    var content := NormalFlowchart(funcNames, conditions, loops).content;
    ElementArrowLabels(content);
    DocumentArrowLabels(funcNames, conditions, loops);
    assert Project(Elements(content), ArrowLabelOf) == FlatMap(content, TemplateArrowLabels);
  }

  lemma DocumentArrowLabels(funcNames: seq<string>, conditions: seq<string>, loops: seq<string>)
    ensures FlatMap(NormalFlowchart(funcNames, conditions, loops).content, TemplateArrowLabels) ==
      Repeat(["No", "Yes"], |conditions|) + Repeat(["Loop"], |loops|)
  {
    var f, c, l := |funcNames|, |conditions|, |loops|;
    DocumentFlatMap(funcNames, conditions, loops, TemplateArrowLabels);
    FunctionSectionArrowLabels(funcNames);
    DecisionSectionArrowLabels(conditions, ConditionsTop(f));
    LoopSectionArrowLabels(loops, LoopsTop(f, c));
    DropEmpty(TemplateArrowLabels(StartTemplate), FlatMap(FunctionSection(funcNames), TemplateArrowLabels),
      Repeat(["No", "Yes"], c), Repeat(["Loop"], l), TemplateArrowLabels(EndTemplate(EndCursor(f, c, l))));
  }

  lemma DropEmpty<T>(a: seq<T>, b: seq<T>, c: seq<T>, d: seq<T>, e: seq<T>)
    requires a == [] && b == [] && e == []
    ensures a + b + c + d + e == c + d
  {
  }

  lemma DecisionSectionArrowLabels(conditions: seq<string>, y: int)
    ensures FlatMap(Blocks(Condition, conditions, y), TemplateArrowLabels) == Repeat(["No", "Yes"], |conditions|)
  {
    FlatMapBlocks(Condition, conditions, y, TemplateArrowLabels, ["No", "Yes"]);
  }

  lemma LoopSectionArrowLabels(loops: seq<string>, y: int)
    ensures FlatMap(Blocks(Loop, loops, y), TemplateArrowLabels) == Repeat(["Loop"], |loops|)
  {
    FlatMapBlocks(Loop, loops, y, TemplateArrowLabels, ["Loop"]);
  }

  // ---------------------------------------------------------------------------
  // Placement
  // ---------------------------------------------------------------------------

  lemma {:induction false} CursorShift(k: Kind, y: int, n: nat)
    ensures Cursor(k, y + Advance(k), n) == Cursor(k, y, n + 1)
  {
    if n > 0 {
      CursorShift(k, y, n - 1);
    }
  }

  /** A section has one template per item. */
  lemma {:induction false} BlocksLength(k: Kind, items: seq<string>, y: int)
    ensures |Blocks(k, items, y)| == |items|
    decreases |items|
  {
    if items != [] {
      BlocksLength(k, items[1..], y + Advance(k));
    }
  }

  /** The i-th template of a section draws the i-th item, `i` steps below the first. */
  lemma {:induction false} BlockAt(k: Kind, items: seq<string>, y: int, i: nat)
    requires i < |items|
    ensures |Blocks(k, items, y)| == |items|
    ensures Blocks(k, items, y)[i] == Block(k, items[i], Cursor(k, y, i))
    decreases i
  {
    BlocksLength(k, items, y);
    if i > 0 {
      BlockAt(k, items[1..], y + Advance(k), i - 1);
      CursorShift(k, y, i - 1);
      assert items[1..][i - 1] == items[i];
    }
  }

  lemma FunctionSectionLength(funcNames: seq<string>)
    ensures |FunctionSection(funcNames)| == Max(|funcNames|, 1)
  {
    BlocksLength(Function, funcNames, 150);
  }

  /** The document holds Start, one template per function (or the placeholder), one per
      condition, one per loop, and End. */
  lemma DocumentLength(funcNames: seq<string>, conditions: seq<string>, loops: seq<string>)
    ensures |NormalFlowchart(funcNames, conditions, loops).content|
         == 2 + Max(|funcNames|, 1) + |conditions| + |loops|
  {
    var f, c := |funcNames|, |conditions|;
    FunctionSectionLength(funcNames);
    BlocksLength(Condition, conditions, ConditionsTop(f));
    BlocksLength(Loop, loops, LoopsTop(f, c));
  }

  /** The i-th function name is drawn as a process box labelled `name()`, second in the
      document after Start, with the cursor at `150 + 100 * i`. */
  lemma FunctionPlacement(funcNames: seq<string>, conditions: seq<string>, loops: seq<string>, i: nat)
    requires i < |funcNames|
    ensures var content := NormalFlowchart(funcNames, conditions, loops).content;
      1 + i < |content| && content[1 + i] == FunctionTemplate(funcNames[i], 150 + 100 * i)
  {
    var f, c, l := |funcNames|, |conditions|, |loops|;
    var head := [StartTemplate] + Blocks(Function, funcNames, 150);
    var content := NormalFlowchart(funcNames, conditions, loops).content;
    assert content == head + Blocks(Condition, conditions, ConditionsTop(f))
      + Blocks(Loop, loops, LoopsTop(f, c)) + [EndTemplate(EndCursor(f, c, l))];
    BlockAt(Function, funcNames, 150, i);
    assert content[1 + i] == head[1 + i];
    CursorIsLinear(Function, 150, i);
  }

  /** The i-th condition is drawn as a decision diamond after the function section, with the
      cursor at `ConditionsTop(F) + 120 * i`. */
  lemma ConditionPlacement(funcNames: seq<string>, conditions: seq<string>, loops: seq<string>, i: nat)
    requires i < |conditions|
    ensures var content := NormalFlowchart(funcNames, conditions, loops).content;
      var o := 1 + Max(|funcNames|, 1) + i;
      o < |content| && content[o] == ConditionTemplate(conditions[i], ConditionsTop(|funcNames|) + 120 * i)
  {
    var f, c, l := |funcNames|, |conditions|, |loops|;
    var head := [StartTemplate] + FunctionSection(funcNames);
    var section := Blocks(Condition, conditions, ConditionsTop(f));
    var content := NormalFlowchart(funcNames, conditions, loops).content;
    assert content == head + section + Blocks(Loop, loops, LoopsTop(f, c)) + [EndTemplate(EndCursor(f, c, l))];
    FunctionSectionLength(funcNames);
    BlockAt(Condition, conditions, ConditionsTop(f), i);
    assert content[|head| + i] == section[i];
    CursorIsLinear(Condition, ConditionsTop(f), i);
  }

  /** The i-th loop is drawn as a loop box after the diamonds, with the cursor at
      `LoopsTop(F, C) + 100 * i`. */
  lemma LoopPlacement(funcNames: seq<string>, conditions: seq<string>, loops: seq<string>, i: nat)
    requires i < |loops|
    ensures var content := NormalFlowchart(funcNames, conditions, loops).content;
      var o := 1 + Max(|funcNames|, 1) + |conditions| + i;
      o < |content| && content[o] == LoopTemplate(loops[i], LoopsTop(|funcNames|, |conditions|) + 100 * i)
  {
    var f, c, l := |funcNames|, |conditions|, |loops|;
    var head := [StartTemplate] + FunctionSection(funcNames) + Blocks(Condition, conditions, ConditionsTop(f));
    var section := Blocks(Loop, loops, LoopsTop(f, c));
    var content := NormalFlowchart(funcNames, conditions, loops).content;
    assert content == head + section + [EndTemplate(EndCursor(f, c, l))];
    FunctionSectionLength(funcNames);
    BlocksLength(Condition, conditions, ConditionsTop(f));
    BlockAt(Loop, loops, LoopsTop(f, c), i);
    assert content[|head| + i] == section[i];
    CursorIsLinear(Loop, LoopsTop(f, c), i);
  }

  /** The End terminal closes the document, drawn at the final cursor. */
  lemma EndPlacement(funcNames: seq<string>, conditions: seq<string>, loops: seq<string>)
    ensures var content := NormalFlowchart(funcNames, conditions, loops).content;
      |content| > 0 && content[|content| - 1] == EndTemplate(EndCursor(|funcNames|, |conditions|, |loops|))
  {
  }

  // ---------------------------------------------------------------------------
  // Connectors and the canvas
  // ---------------------------------------------------------------------------

  /** The lowest y coordinate an element reaches. */
  function Bottom(e: Element): int {
    match e
    case Rect(_, _, y, _, height) => y + height
    case Diamond(_, _, bottom, _) => bottom.y
    case Label(_, _, y, _) => y
    case Arrow(_, y1, _, y2) => Max(y1, y2)
  }

  /** Every construct is entered by a vertical arrow on the column that starts 40 above its
      cursor, and its shape ends 40 above the next cursor: within a section and from one
      section to the next, each arrow starts exactly where the previous shape ends. */
  lemma TemplatesJoin(k: Kind, text: string, y: int)
    ensures |Render(Block(k, text, y))| >= 3
    ensures Render(Block(k, text, y))[2] == Arrow(450, y - 40, 450, y)
    ensures Bottom(Render(Block(k, text, y))[0]) == y + Advance(k) - 40
    ensures Render(EndTemplate(y))[2] == Arrow(450, y - 40, 450, y)
  {
  }

  /** The Start terminal ends at y = 100. The placeholder's arrow starts there, but the first
      function box's arrow starts at y = 110, leaving a 10-unit gap below the terminal. */
  lemma StartConnector(funcNames: seq<string>, conditions: seq<string>, loops: seq<string>)
    ensures var content := NormalFlowchart(funcNames, conditions, loops).content;
      |content| > 1 && |Render(content[1])| > 2 && Bottom(Render(content[0])[0]) == 100 &&
      Render(content[1])[2] == (if |funcNames| > 0 then Arrow(450, 110, 450, 150) else Arrow(450, 100, 450, 150))
  {
    if |funcNames| > 0 {
      FunctionPlacement(funcNames, conditions, loops, 0);
    }
  }

  /** Two arrows drawn one after the other form a continuous path. */
  predicate Chained(a: Element, b: Element) {
    a.Arrow? && b.Arrow? && a.x2 == b.x1 && a.y2 == b.y1
  }

  /** Both detours of a decision leave from the diamond's side vertices and come back to the
      column at the same point, 30 below the diamond's bottom vertex; "No" is written on the
      left detour and "Yes" on the right one. */
  lemma DecisionBranches(condition: string, y: int)
    ensures var b := Render(ConditionTemplate(condition, y)); var d := b[0];
      && d.Diamond? && b[3].Arrow? && b[3].x1 == d.left.x && b[3].y1 == d.left.y
      && Chained(b[3], b[4]) && Chained(b[4], b[5])
      && b[7].Arrow? && b[7].x1 == d.right.x && b[7].y1 == d.right.y
      && Chained(b[7], b[8]) && Chained(b[8], b[9])
      && b[5].x2 == b[9].x2 == d.bottom.x && b[5].y2 == b[9].y2 == d.bottom.y + 30
      && b[6] == Label(ArrowText, 300, y + 30, "No") && b[6].x < d.bottom.x
      && b[10] == Label(ArrowText, 600, y + 30, "Yes") && b[10].x > d.bottom.x
  {
  }

  /** A loop's back-edge leaves the box at the middle of its right side and re-enters the
      column on the loop's own incoming arrow, between the previous shape and the box. */
  lemma LoopBackEdge(loop: string, y: int)
    ensures var b := Render(LoopTemplate(loop, y)); var box := b[0];
      && box.Rect? && b[3].Arrow? && b[3].x1 == box.x + box.width && 2 * (b[3].y1 - box.y) == box.height
      && Chained(b[3], b[4]) && Chained(b[4], b[5])
      && b[2].Arrow? && b[5].x2 == b[2].x1 && b[2].y1 < b[5].y2 < b[2].y2
      && b[6] == Label(ArrowText, 600, y + 50, "Loop")
  {
  }

  /** From five constructs on, the declared height is 150 + 100 per construct, which is where
      the End terminal would start if every construct advanced the cursor by 100; End is 50
      high, a condition advances the cursor by 120 and an absent function list still draws
      the 100-unit placeholder. So End reaches below the canvas by exactly 50 + 20 per
      condition, plus 100 when no function was found. */
  lemma EndTerminalOverflow(functions: nat, conditions: nat, loops: nat)
    requires functions + conditions + loops >= 5
    ensures EndCursor(functions, conditions, loops) + 50 - DeclaredHeight(functions, conditions, loops)
         == 50 + 20 * conditions + (if functions == 0 then 100 else 0)
  {
  }

  /** Below five constructs the canvas is 600 high, and the End terminal reaches below it
      exactly when the sections take more than 400 units: three conditions do, and so do
      four constructs with a condition or without a function. */
  lemma SmallDocumentOverflow(functions: nat, conditions: nat, loops: nat)
    requires functions + conditions + loops < 5
    ensures DeclaredHeight(functions, conditions, loops) == 600
    ensures EndCursor(functions, conditions, loops) + 50 > 600 <==>
      100 * (if functions == 0 then 1 else functions) + 120 * conditions + 100 * loops > 400
  {
  }

  /** With no construct at all the document is Start, the placeholder and End on a
      600-high canvas. */
  lemma EmptyProgramDocument()
    ensures NormalFlowchart([], [], []) == Svg(900, 600, [StartTemplate, PlaceholderTemplate(150), EndTemplate(250)])
  {
  }
}
