/** The `/api/generate-json` handler (server/server.js:100-236): ask the language model for
    a node/edge description, pull the JSON out of a Markdown fence when there is one, fall
    back to a fixed six-node graph when it does not parse, and route model-call errors to
    status codes. The model call and `JSON.parse` are outside the model: the call's outcome
    is a `ModelCall` value and the parser is a function parameter. */
module JsonEndpoint {
  import opened Optional
  import opened Text
  import opened FlowGraph
  import NormalEndpoint

  // ---------------------------------------------------------------------------
  // The fallback graph (server/server.js:78-97)
  // ---------------------------------------------------------------------------

  /** `generateFallbackFlowchart(code)`: Start, Process Code, the decision
      "Execute Successfully?" with a Yes and a No branch, and End. */
  function FallbackFlowchart(code: string): (g: Flowchart)
    ensures |g.nodes| == 6 && |g.edges| == 6
    ensures g.nodes[0].nodeType == "start" && g.nodes[5].nodeType == "end"
  {
    Flowchart(FallbackNodes(), FallbackEdges())
  }

  function FallbackNodes(): seq<Node> {
    [Node("1", "start", "Start Algorithm", None),
     Node("2", "process", "Process Code", None),
     Node("3", "decision", "Execute Successfully?", None),
     Node("4", "process", "Handle Result", None),
     Node("5", "process", "Handle Error", None),
     Node("6", "end", "End Algorithm", None)]
  }

  function FallbackEdges(): seq<Edge> {
    [Edge("e1-2", "1", "2", None),
     Edge("e2-3", "2", "3", None),
     Edge("e3-4", "3", "4", Some("Yes")),
     Edge("e3-5", "3", "5", Some("No")),
     Edge("e4-6", "4", "6", None),
     Edge("e5-6", "5", "6", None)]
  }

  lemma FallbackNodeIds()
    ensures NodeIds(FallbackNodes()) == {"1", "2", "3", "4", "5", "6"}
  {
    var ns := FallbackNodes();
    var ids := NodeIds(ns);
    forall id | id in ids ensures id in {"1", "2", "3", "4", "5", "6"} {
      var i :| 0 <= i < |ns| && ns[i].id == id;
    }
    assert ns[0].id in ids && ns[1].id in ids && ns[2].id in ids;
    assert ns[3].id in ids && ns[4].id in ids && ns[5].id in ids;
  }

  lemma FallbackDistinctIds()
    ensures DistinctNodeIds(FallbackNodes()) && DistinctEdgeIds(FallbackEdges())
  {
  }

  lemma FallbackEdgesClosed()
    ensures EdgesClosed(Flowchart(FallbackNodes(), FallbackEdges()))
  {
    FallbackNodeIds();
  }

  /** The fallback graph has distinct node ids, distinct edge ids and no dangling edge. */
  lemma FallbackWellFormed(code: string)
    ensures WellFormed(FallbackFlowchart(code))
  {
    FallbackDistinctIds();
    FallbackEdgesClosed();
  }

  /** One step of `OutEdges` down a list. */
  lemma OutEdgesStep(es: seq<Edge>, k: nat, id: string)
    requires k < |es|
    ensures OutEdges(es[k..], id) == (if es[k].source == id then [es[k]] else []) + OutEdges(es[k + 1..], id)
  {
    assert es[k..][1..] == es[k + 1..];
  }

  /** Past the two edges leaving "3" no further edge leaves it. */
  lemma FallbackLaterEdges()
    ensures OutEdges(FallbackEdges()[4..], "3") == []
  {
    var es := FallbackEdges();
    OutEdgesStep(es, 5, "3");
    OutEdgesStep(es, 4, "3");
  }

  lemma FallbackDecisionEdges()
    ensures OutEdges(FallbackEdges()[2..], "3") == FallbackEdges()[2..4]
  {
    var es := FallbackEdges();
    FallbackLaterEdges();
    OutEdgesStep(es, 3, "3");
    OutEdgesStep(es, 2, "3");
  }

  /** The decision node "3" has exactly two out-edges: "Yes" to node 4, "No" to node 5. */
  lemma FallbackDecision(code: string)
    ensures var g := FallbackFlowchart(code);
      g.nodes[2].id == "3" && g.nodes[2].nodeType == "decision"
      && OutEdges(g.edges, "3") == [Edge("e3-4", "3", "4", Some("Yes")), Edge("e3-5", "3", "5", Some("No"))]
  {
    var es := FallbackEdges();
    FallbackDecisionEdges();
    OutEdgesStep(es, 1, "3");
    OutEdgesStep(es, 0, "3");
    assert es[0..] == es;
  }

  /** The fallback ignores the code it is given. */
  lemma FallbackIgnoresCode(code1: string, code2: string)
    ensures FallbackFlowchart(code1) == FallbackFlowchart(code2)
  {
  }

  // ---------------------------------------------------------------------------
  // Fence extraction (server/server.js:182-185)
  // ---------------------------------------------------------------------------

  const Fence: string := "```"
  const JsonFence: string := "```json"

  /** The first index at or after `from` where `sub` occurs. */
  function FindFrom(s: string, sub: string, from: nat): (r: Option<nat>)
    requires from <= |s|
    ensures r.Some? ==> from <= r.value && OccursAt(s, sub, r.value)
    ensures r.Some? ==> forall j | from <= j < r.value :: !OccursAt(s, sub, j)
    ensures r.None? ==> forall j | from <= j :: !OccursAt(s, sub, j)
    decreases |s| - from
  {
    if OccursAt(s, sub, from) then Some(from)
    else if from == |s| then None
    else FindFrom(s, sub, from + 1)
  }

  /** The captured text `s[c..e]` lies before the first fence at or after `c`, so it holds
      no fence. */
  lemma CaptureFenceFree(s: string, c: nat, e: nat, q: nat)
    requires c <= e <= q <= |s|
    requires forall j | c <= j < q :: !OccursAt(s, Fence, j)
    ensures forall j :: !OccursAt(s[c..e], Fence, j)
  {
    forall j | OccursAt(s[c..e], Fence, j) ensures OccursAt(s, Fence, c + j) {
      var u, v := s[c + j..c + j + 3], s[c..e][j..j + 3];
      forall m | 0 <= m < 3 ensures u[m] == v[m] {
        assert v[m] == s[c..e][j + m];
      }
      assert u == v;
    }
  }

  /** The lazy group `([\s\S]*?)\s*` ending at the fence at `q`: the text from `c` to `q`
      less its trailing whitespace. */
  function Capture(s: string, c: nat, q: nat): (r: string)
    requires c <= q <= |s|
    requires forall j | c <= j < q :: !OccursAt(s, Fence, j)
    requires c < |s| ==> !IsSpace(s[c])
    ensures c + |r| <= q && r == s[c..c + |r|] && AllSpace(s[c + |r|..q])
    ensures forall j :: !OccursAt(r, Fence, j)
    ensures r != [] ==> !IsSpace(r[0]) && !IsSpace(r[|r| - 1])
  {
    var e := q - TrailingSpaces(s[c..q]);
    CaptureFenceFree(s, c, e, q);
    assert s[e..q] == s[c..q][e - c..];
    assert e > c ==> s[c..e][0] == s[c] && s[c..e][e - c - 1] == s[c..q][e - c - 1];
    s[c..e]
  }

  /** The group captured by the first match of `/open\s*([\s\S]*?)\s*```/`: the match
      starts at the first occurrence of `open`, the capture starts after the whitespace
      that follows it and ends at the first fence after that, less the whitespace before
      the fence. No match when no fence follows the opening. */
  function FencedBody(s: string, open: string): (r: Option<string>)
    ensures r.Some? ==> |r.value| <= |s|
    ensures r.Some? ==> forall j :: !OccursAt(r.value, Fence, j)
    ensures r.Some? && r.value != [] ==> !IsSpace(r.value[0]) && !IsSpace(r.value[|r.value| - 1])
  {
    var opening := FindFrom(s, open, 0);
    if opening.None? then None
    else
      var c := CaptureStart(s, open, opening.value);
      var closing := FindFrom(s, Fence, c);
      if closing.None? then None
      else Some(Capture(s, c, closing.value))
  }

  /** Where the capture starts: after the opening and the whitespace that follows it. */
  function CaptureStart(s: string, open: string, i: nat): (c: nat)
    requires OccursAt(s, open, i)
    ensures i + |open| <= c <= |s| && AllSpace(s[i + |open|..c])
    ensures c < |s| ==> !IsSpace(s[c])
  {
    i + |open| + SpaceRun(s, i + |open|)
  }

  /** The text handed to the parser: the body of a ```json fence, else of a plain fence,
      else the whole reply. */
  function CleanJson(text: string): (r: string)
    ensures |r| <= |text|
  {
    match FencedBody(text, JsonFence)
    case Some(body) => body
    case None =>
      match FencedBody(text, Fence)
      case Some(body) => body
      case None => text
  }

  /** With no fence anywhere in the reply, the whole reply is parsed. */
  lemma NoFenceWholeText(text: string)
    requires !Contains(text, Fence)
    ensures CleanJson(text) == text
  {
    forall j | 0 <= j ensures !OccursAt(text, JsonFence, j) {
      if j + |JsonFence| <= |text| {
        SliceOccurs(text, Fence, j, j + |JsonFence|, j);
      }
    }
  }

  /** An occurrence with none before it is the one `FindFrom` finds. */
  lemma {:induction false} FindFromFirst(s: string, sub: string, from: nat, i: nat)
    requires from <= i && OccursAt(s, sub, i)
    requires forall j | from <= j < i :: !OccursAt(s, sub, j)
    ensures from <= |s| && FindFrom(s, sub, from) == Some(i)
    decreases i - from
  {
    if from < i {
      FindFromFirst(s, sub, from + 1, i);
    }
  }

  /** `FencedBody` once its three searches are known. */
  lemma FencedBodyFrom(s: string, open: string, i: nat, c: nat, q: nat)
    requires FindFrom(s, open, 0) == Some(i)
    requires OccursAt(s, open, i) && c == CaptureStart(s, open, i)
    requires FindFrom(s, Fence, c) == Some(q)
    ensures c <= q <= |s| && FencedBody(s, open) == Some(Capture(s, c, q))
  {
  }

  /** The capture starts at `e`, after the whitespace that follows the opening. */
  lemma SpaceAfterOpening(s: string, open: string, i: nat, e: nat)
    requires OccursAt(s, open, i)
    requires i + |open| <= e < |s|
    requires forall k | i + |open| <= k < e :: IsSpace(s[k])
    requires !IsSpace(s[e])
    ensures CaptureStart(s, open, i) == e
  {
    RunExact(s, i + |open|, IsSpace, e - i - |open|);
  }

  /** The capture of a body followed by whitespace up to the fence is the body. */
  lemma CaptureOf(s: string, c: nat, m: nat, body: string, ws2: string)
    requires c + |body| + |ws2| == m <= |s|
    requires forall j | c <= j < m :: !OccursAt(s, Fence, j)
    requires c < |s| ==> !IsSpace(s[c])
    requires forall k | 0 <= k < |body| :: s[c + k] == body[k]
    requires forall k | 0 <= k < |ws2| :: s[c + |body| + k] == ws2[k]
    requires AllSpace(ws2) && (body == [] || !IsSpace(body[|body| - 1]))
    ensures Capture(s, c, m) == body
  {
    var u := s[c..m];
    forall k | 0 <= k < |u| ensures u[k] == (body + ws2)[k] {
      if k < |body| {
        assert u[k] == s[c + k];
      } else {
        assert u[k] == s[c + |body| + (k - |body|)];
      }
    }
    assert u == body + ws2;
    TrailingSpacesExact(body, ws2);
    var v := s[c..m - |ws2|];
    forall k | 0 <= k < |body| ensures v[k] == body[k] {
      assert v[k] == s[c + k];
    }
  }

  /** The match found in a reply described index by index: the first `open` at `i`,
      whitespace up to `b`, the body from `b`, the whitespace `ws2` and, at `m`, the first
      fence at or after `b`. */
  lemma FencedIn(s: string, open: string, i: nat, b: nat, body: string, ws2: string, m: nat)
    requires OccursAt(s, open, i)
    requires forall j | 0 <= j < i :: !OccursAt(s, open, j)
    requires i + |open| <= b && m == b + |body| + |ws2| && OccursAt(s, Fence, m)
    requires forall j | b <= j < m :: !OccursAt(s, Fence, j)
    requires forall k | i + |open| <= k < b :: IsSpace(s[k])
    requires forall k | 0 <= k < |body| :: s[b + k] == body[k]
    requires forall k | 0 <= k < |ws2| :: s[b + |body| + k] == ws2[k]
    requires AllSpace(ws2)
    requires body != [] ==> !IsSpace(body[0]) && !IsSpace(body[|body| - 1])
    ensures FencedBody(s, open) == Some(body)
  {
    FindFromFirst(s, open, 0, i);
    assert s[m] == s[m..m + 3][0];
    if body == [] {
      forall k | i + |open| <= k < m ensures IsSpace(s[k]) {
        if b <= k {
          var k' := k - b;
          assert s[b + |body| + k'] == ws2[k'];
        }
      }
      SpaceAfterOpening(s, open, i, m);
      FindFromFirst(s, Fence, m, m);
      FencedBodyFrom(s, open, i, m, m);
    } else {
      assert s[b + 0] == body[0];
      SpaceAfterOpening(s, open, i, b);
      FindFromFirst(s, Fence, b, m);
      FencedBodyFrom(s, open, i, b, m);
      CaptureOf(s, b, m, body, ws2);
    }
  }

  /** A reply made of text `p` in which no `open` starts, the opening `open`, whitespace,
      a body with no whitespace at either end, whitespace, the first fence from the body's
      start on, and anything after: the match captures exactly the body. Backquotes, and
      even fences, may appear in `p`, in the body and in the rest. */
  lemma FencedAt(p: string, open: string, ws: string, body: string, ws2: string, rest: string)
    requires forall j | 0 <= j < |p| :: !OccursAt(p + open, open, j)
    requires AllSpace(ws) && AllSpace(ws2)
    requires forall j | 0 <= j < |body| + |ws2| :: !OccursAt(body + ws2 + Fence, Fence, j)
    requires body != [] ==> !IsSpace(body[0]) && !IsSpace(body[|body| - 1])
    ensures FencedBody(p + open + ws + body + ws2 + Fence + rest, open) == Some(body)
  {
    var s := p + open + ws + body + ws2 + Fence + rest;
    var i := |p|;
    var b := i + |open| + |ws|;
    var m := b + |body| + |ws2|;
    assert s[..i + |open|] == p + open;
    assert s[b..m + 3] == body + ws2 + Fence;
    assert s[i..i + |open|] == open;
    assert s[m..m + 3] == Fence;
    forall j | 0 <= j < i ensures !OccursAt(s, open, j) {
      SliceOccurs(s, open, 0, i + |open|, j);
    }
    forall j | b <= j < m ensures !OccursAt(s, Fence, j) {
      SliceOccurs(s, Fence, b, m + 3, j);
    }
    forall k | i + |open| <= k < b ensures IsSpace(s[k]) {
      assert s[k] == ws[k - i - |open|];
    }
    forall k | 0 <= k < |body| ensures s[b + k] == body[k] {
    }
    forall k | 0 <= k < |ws2| ensures s[b + |body| + k] == ws2[k] {
    }
    FencedIn(s, open, i, b, body, ws2, m);
  }

  /** A ```json block is found whatever follows it, plain fences included. */
  lemma JsonFenceBody(p: string, ws: string, body: string, ws2: string, rest: string)
    requires forall j | 0 <= j < |p| :: !OccursAt(p + JsonFence, JsonFence, j)
    requires AllSpace(ws) && AllSpace(ws2)
    requires forall j | 0 <= j < |body| + |ws2| :: !OccursAt(body + ws2 + Fence, Fence, j)
    requires body != [] ==> !IsSpace(body[0]) && !IsSpace(body[|body| - 1])
    ensures CleanJson(p + JsonFence + ws + body + ws2 + Fence + rest) == body
  {
    FencedAt(p, JsonFence, ws, body, ws2, rest);
  }

  /** In a reply without ```json, the first plain block's body is parsed. */
  lemma PlainFenceBody(p: string, ws: string, body: string, ws2: string, rest: string)
    requires forall j | 0 <= j < |p| :: !OccursAt(p + Fence, Fence, j)
    requires AllSpace(ws) && AllSpace(ws2)
    requires forall j | 0 <= j < |body| + |ws2| :: !OccursAt(body + ws2 + Fence, Fence, j)
    requires body != [] ==> !IsSpace(body[0]) && !IsSpace(body[|body| - 1])
    requires !Contains(p + Fence + ws + body + ws2 + Fence + rest, JsonFence)
    ensures CleanJson(p + Fence + ws + body + ws2 + Fence + rest) == body
  {
    var s := p + Fence + ws + body + ws2 + Fence + rest;
    forall j | 0 <= j ensures !OccursAt(s, JsonFence, j) {
    }
    assert FencedBody(s, JsonFence) == None;
    FencedAt(p, Fence, ws, body, ws2, rest);
  }

  // ---------------------------------------------------------------------------
  // Routing (server/server.js:100-236)
  // ---------------------------------------------------------------------------

  /** What the model call came back with: the reply text, or an error whose `message`
      may be absent. */
  datatype ModelCall = Answered(reply: string) | Failed(message: Option<string>)

  datatype JsonBody =
    | ErrorBody(error: string, details: Option<string>)     // { error, details }
    | GraphBody(flowchart: Flowchart)                        // { flowchart }
    | FallbackBody(flowchart: Flowchart, failure: Option<string>) // { flowchart, fallback: true, error }

  datatype JsonResponse = JsonResponse(status: int, body: JsonBody)

  /** `message && message.includes(word)`. */
  predicate Mentions(message: Option<string>, word: string) {
    message.Some? && Contains(message.value, word)
  }

  /** The handler's answer, given the model call's outcome and the parser. */
  function GenerateJson(code: Option<string>, call: ModelCall, parse: string -> Option<Flowchart>): (r: JsonResponse)
    ensures r.status == 400 <==> NormalEndpoint.NoCode(code)
    ensures r.status == 401 <==> !NormalEndpoint.NoCode(code) && call.Failed? && Mentions(call.message, "API key")
    ensures r.status == 429 <==>
      !NormalEndpoint.NoCode(code) && call.Failed? && !Mentions(call.message, "API key") && Mentions(call.message, "quota")
    ensures r.status != 200 <==> r.body.ErrorBody?
    ensures r.body.FallbackBody? <==> r.status == 200 && call.Failed?
  {
    if NormalEndpoint.NoCode(code) then JsonResponse(400, ErrorBody("No code provided", None))
    else
      match call
      case Answered(reply) =>
        var parsed := match parse(CleanJson(reply)) case Some(g) => g case None => FallbackFlowchart(code.value);
        JsonResponse(200, GraphBody(parsed))
      case Failed(message) =>
        if Mentions(message, "API key") then
          JsonResponse(401, ErrorBody("Invalid API key or authentication issue", message))
        else if Mentions(message, "quota") then
          JsonResponse(429, ErrorBody("API quota exceeded", message))
        else
          JsonResponse(200, FallbackBody(FallbackFlowchart(code.value), message))
  }

  /** A reply that parses is returned as it is; one that does not is replaced by the
      fallback graph, still with status 200 and no error. */
  lemma AnsweredReply(code: string, reply: string, parse: string -> Option<Flowchart>)
    requires code != ""
    ensures var r := GenerateJson(Some(code), Answered(reply), parse);
      r.status == 200 &&
      r.body == GraphBody(if parse(CleanJson(reply)).Some? then parse(CleanJson(reply)).value else FallbackFlowchart(code))
  {
  }

  /** A failure that is neither an authentication nor a quota problem is answered with the
      well-formed fallback graph, the fallback flag and the failure's message. */
  lemma OtherFailureFallsBack(code: string, message: Option<string>, parse: string -> Option<Flowchart>)
    requires code != ""
    requires !Mentions(message, "API key") && !Mentions(message, "quota")
    ensures var r := GenerateJson(Some(code), Failed(message), parse);
      r == JsonResponse(200, FallbackBody(FallbackFlowchart(code), message)) && WellFormed(r.body.flowchart)
  {
    FallbackWellFormed(code);
  }
}
