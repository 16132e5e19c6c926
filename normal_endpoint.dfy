/** The `/api/generate-normal` handler (server/server.js:263-627): reject a request without
    code, answer a Sudoku validator with a fixed hand-drawn document, and otherwise draw the
    flowchart of the extracted functions, conditions and loops. The three regex scans over
    the code are inputs: `funcMatches`, `conditionMatches` and `loopMatches` are the lists
    `code.match(/.../g) || []` returns. */
module NormalEndpoint {
  import opened Optional
  import opened Text
  import opened ConstructNames
  import opened SvgLayout

  /** A drawn document: the width and height declared on the root element and the drawn
      elements in document order. */
  datatype Drawing = Drawing(width: int, height: int, elements: seq<Element>)

  datatype Body =
    | ErrorBody(error: string)         // { error: ... }
    | FlowchartBody(svgContent: Drawing) // { flowchart: { svgContent } }

  datatype Response = Response(status: int, body: Body)

  /** The drawing an SVG document describes. */
  function Draw(svg: Svg): Drawing {
    Drawing(svg.width, svg.height, Elements(svg.content))
  }

  /** `!code`: the field is missing or the empty string. */
  predicate NoCode(code: Option<string>) {
    code.None? || code.value == ""
  }

  /** server/server.js:273. */
  predicate IsSudokuValidator(code: string) {
    Contains(code, "isValidSudoku") || Contains(code, "valid_sudoku")
  }

  // ---------------------------------------------------------------------------
  // The fixed Sudoku document (server/server.js:300-463)
  // ---------------------------------------------------------------------------

  /** The height declared on the Sudoku document's root element (server/server.js:303). */
  const SudokuHeight: int := 1200

  /** Everything the Sudoku document draws above its Return True terminal: the Start
      terminal, the set initialisation, the grid loop, the cell read, the empty-cell, row,
      column and sub-grid decisions, the index computation, the Return False box with the
      three failure arrows into it, the insertion box and the back-edge to the loop. */
  function SudokuChecks(): seq<Element> {
    [Rect(StartEnd, 350, 50, 200, 50), Label(NodeText, 450, 75, "Start"),
     Rect(ProcessBox, 350, 150, 200, 60),
     Label(NodeText, 450, 170, "Initialize rows, columns,"), Label(NodeText, 450, 190, "and subset sets"),
     Arrow(450, 100, 450, 150),
     Rect(LoopBox, 350, 260, 200, 60),
     Label(NodeText, 450, 280, "Loop through 9x9 grid"),
     Label(NodeText, 450, 300, "(i in range(9), j in range(9))"),
     Arrow(450, 210, 450, 260),
     Rect(ProcessBox, 350, 370, 200, 60), Label(NodeText, 450, 400, "Get num = board[i][j]"),
     Arrow(450, 320, 450, 370),
     Diamond(Vertex(450, 470), Vertex(550, 520), Vertex(450, 570), Vertex(350, 520)),
     Label(NodeText, 450, 520, "num == \".\"?"),
     Arrow(450, 430, 450, 470),
     Arrow(550, 520, 650, 520), Arrow(650, 520, 650, 290), Arrow(650, 290, 550, 290),
     Label(ArrowText, 585, 500, "Yes (continue)"),
     Arrow(450, 570, 450, 610), Label(ArrowText, 430, 590, "No"),
     Diamond(Vertex(450, 610), Vertex(550, 660), Vertex(450, 710), Vertex(350, 660)),
     Label(NodeText, 450, 660, "num in rows[i]?"),
     Arrow(550, 660, 700, 660), Label(ArrowText, 625, 640, "Yes"),
     Arrow(450, 710, 450, 750), Label(ArrowText, 430, 730, "No"),
     Diamond(Vertex(450, 750), Vertex(550, 800), Vertex(450, 850), Vertex(350, 800)),
     Label(NodeText, 450, 800, "num in columns[j]?"),
     Arrow(550, 800, 700, 800), Label(ArrowText, 625, 780, "Yes"),
     Arrow(450, 850, 450, 890), Label(ArrowText, 430, 870, "No"),
     Rect(ProcessBox, 350, 890, 200, 60),
     Label(NodeText, 450, 910, "Calculate index ="), Label(NodeText, 450, 930, "(i // 3) * 3 + (j // 3)"),
     Diamond(Vertex(450, 990), Vertex(550, 1040), Vertex(450, 1090), Vertex(350, 1040)),
     Label(NodeText, 450, 1040, "num in subsets[index]?"),
     Arrow(450, 950, 450, 990),
     Arrow(550, 1040, 700, 1040), Label(ArrowText, 625, 1020, "Yes"),
     Rect(ProcessBox, 700, 940, 150, 60), Label(NodeText, 775, 970, "Return False"),
     Arrow(700, 660, 775, 660), Arrow(775, 660, 775, 940),
     Arrow(700, 800, 775, 800), Arrow(775, 800, 775, 940),
     Arrow(700, 1040, 775, 1040), Arrow(775, 1040, 775, 1000),
     Rect(ProcessBox, 350, 1140, 200, 60),
     Label(NodeText, 450, 1160, "Add num to rows[i],"), Label(NodeText, 450, 1180, "columns[j], subsets[index]"),
     Arrow(450, 1090, 450, 1140), Label(ArrowText, 430, 1115, "No"),
     Arrow(350, 1170, 250, 1170), Arrow(250, 1170, 250, 290), Arrow(250, 290, 350, 290)]
  }

  /** The Return True terminal closing the Sudoku document (server/server.js:459-462). */
  function SudokuReturnTrue(): seq<Element> {
    [Rect(StartEnd, 350, 1250, 200, 50),
     Label(NodeText, 450, 1275, "Return True"),
     Arrow(450, 1200, 450, 1250)]
  }

  const SudokuDrawing: Drawing := Drawing(900, SudokuHeight, SudokuChecks() + SudokuReturnTrue())

  /** The Sudoku document declares a height of 1200 but draws its Return True terminal from
      y = 1250 down to y = 1300, entirely below the declared canvas. */
  lemma SudokuReturnTrueBelowCanvas()
    ensures var es := SudokuDrawing.elements;
      |es| >= 3 && es[|es| - 3] == Rect(StartEnd, 350, 1250, 200, 50)
      && es[|es| - 3].y > SudokuDrawing.height
  {
    var es := SudokuDrawing.elements;
    assert es[|es| - 3] == SudokuReturnTrue()[0];
  }

  // ---------------------------------------------------------------------------
  // The handler
  // ---------------------------------------------------------------------------

  /** The response to a request: 400 without code, the fixed document for a Sudoku
      validator, otherwise the drawn flowchart of the labelled and cleaned constructs. */
  function NormalResponse(code: Option<string>, funcMatches: seq<string>, conditionMatches: seq<string>,
                          loopMatches: seq<string>): (r: Response)
    ensures r.status == 400 <==> NoCode(code)
    ensures r.status == 400 ==> r.body == ErrorBody("No code provided")
    ensures r.status != 400 ==> r.status == 200 && r.body.FlowchartBody? && r.body.svgContent.width == 900
    ensures !NoCode(code) && IsSudokuValidator(code.value) ==> r.body == FlowchartBody(SudokuDrawing)
  {
    if NoCode(code) then Response(400, ErrorBody("No code provided"))
    else if IsSudokuValidator(code.value) then Response(200, FlowchartBody(SudokuDrawing))
    else
      Response(200, FlowchartBody(Draw(NormalFlowchart(FunctionLabels(funcMatches),
        CleanConditions(conditionMatches), CleanLoops(loopMatches)))))
  }

  /** The handler (server/server.js:263-627): the early 400, the three per-match maps, the
      Sudoku short-cut, then the emitter. */
  method GenerateNormal(code: Option<string>, funcMatches: seq<string>, conditionMatches: seq<string>,
                        loopMatches: seq<string>) returns (res: Response)
    ensures res == NormalResponse(code, funcMatches, conditionMatches, loopMatches)
  {
    if NoCode(code) {
      return Response(400, ErrorBody("No code provided"));
    }
    var isSudokuValidator := IsSudokuValidator(code.value);
    var funcNames := FunctionLabels(funcMatches);
    var conditions := CleanConditions(conditionMatches);
    var loops := CleanLoops(loopMatches);
    if isSudokuValidator {
      return Response(200, FlowchartBody(SudokuDrawing));
    }
    var svg, yPos := EmitFlowchart(funcNames, conditions, loops);
    res := Response(200, FlowchartBody(Draw(svg)));
  }

  /** For a Sudoku validator the extracted constructs play no part in the answer. */
  lemma SudokuIgnoresConstructs(code: string, f1: seq<string>, c1: seq<string>, l1: seq<string>,
                                f2: seq<string>, c2: seq<string>, l2: seq<string>)
    requires code != "" && IsSudokuValidator(code)
    ensures NormalResponse(Some(code), f1, c1, l1) == NormalResponse(Some(code), f2, c2, l2)
  {
  }

  /** Any other code is answered with a document 900 wide whose height charges 100 per
      extracted construct, with a floor of 600. */
  lemma NormalDocumentSize(code: string, funcMatches: seq<string>, conditionMatches: seq<string>,
                           loopMatches: seq<string>)
    requires code != "" && !IsSudokuValidator(code)
    ensures var d := NormalResponse(Some(code), funcMatches, conditionMatches, loopMatches).body.svgContent;
      d.width == 900 &&
      d.height == Max(600, 150 + (|funcMatches| + |conditionMatches| + |loopMatches|) * 100)
  {
  }
}
