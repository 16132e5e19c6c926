/** The per-match naming and clean-up maps of the normal-mode endpoint
    (server/server.js, `/api/generate-normal`). The three `code.match(/.../g)` scans that
    produce the raw match lists are not modelled; the lists are inputs. What is modelled is
    what happens to each match: the name capture for function headers and the global
    `replace` plus `trim` for condition and loop headers. */
module ConstructNames {
  import opened Optional
  import opened Text

  // ---------------------------------------------------------------------------
  // Function labels: `match.match(/function\s+(\w+)/)`, then `/def\s+(\w+)/`.
  // ---------------------------------------------------------------------------

  /** The pattern `kw\s+(\w+)` matches at index `i`: the keyword, at least one whitespace
      character, then a word character. Greedy `\s+` cannot backtrack usefully because no
      character is both whitespace and a word character. */
  predicate KeywordNameAt(s: string, kw: string, i: nat) {
    OccursAt(s, kw, i) &&
    var j := i + |kw|;
    var n := SpaceRun(s, j);
    n > 0 && j + n < |s| && IsWordChar(s[j + n])
  }

  /** The capture group `(\w+)` of a match at `i`: the whole run of word characters. */
  function CapturedName(s: string, kw: string, i: nat): (name: string)
    requires KeywordNameAt(s, kw, i)
    ensures |name| > 0 && AllWord(name)
    ensures OccursAt(s, name, i + |kw| + SpaceRun(s, i + |kw|))
  {
    var j := i + |kw| + SpaceRun(s, i + |kw|);
    s[j..j + WordRun(s, j)]
  }

  /** The leftmost index at or after `from` where the pattern matches, as a
      non-global `String.prototype.match` finds it. */
  function FirstKeywordName(s: string, kw: string, from: nat): (r: Option<nat>)
    requires from <= |s|
    ensures r.Some? ==> from <= r.value <= |s| && KeywordNameAt(s, kw, r.value)
    ensures r.Some? ==> forall j | from <= j < r.value :: !KeywordNameAt(s, kw, j)
    ensures r.None? ==> forall j | from <= j <= |s| :: !KeywordNameAt(s, kw, j)
    decreases |s| - from
  {
    if KeywordNameAt(s, kw, from) then Some(from)
    else if from == |s| then None
    else FirstKeywordName(s, kw, from + 1)
  }

  /** The name captured by `kw\s+(\w+)` in `s`, if the pattern matches anywhere. */
  function KeywordName(s: string, kw: string): (r: Option<string>)
    ensures r.Some? ==> |r.value| > 0 && AllWord(r.value) && Contains(s, r.value)
  {
    match FirstKeywordName(s, kw, 0)
    case Some(i) =>
      var name := CapturedName(s, kw, i);
      assert OccursAt(s, name, i + |kw| + SpaceRun(s, i + |kw|));
      Some(name)
    case None => None
  }

  /** The label of one function match (server/server.js:278-283): the JavaScript name when
      `function\s+(\w+)` matches, otherwise the Python name when `def\s+(\w+)` matches,
      otherwise "anonymous". A label is always a non-empty identifier, taken from the match
      unless it is the "anonymous" default. */
  function FunctionLabel(m: string): (name: string)
    ensures |name| > 0 && AllWord(name)
    ensures name == "anonymous" || Contains(m, name)
  {
    match KeywordName(m, "function")
    case Some(n) => n
    case None =>
      match KeywordName(m, "def")
      case Some(n) => n
      case None => "anonymous"
  }

  function FunctionLabels(matches: seq<string>): (labels: seq<string>)
    ensures |labels| == |matches|
    ensures forall i | 0 <= i < |matches| :: labels[i] == FunctionLabel(matches[i])
  {
    seq(|matches|, i requires 0 <= i < |matches| => FunctionLabel(matches[i]))
  }

  /** After the keyword, a whitespace run and a word run ended by a non-word character,
      the pattern `kw\s+(\w+)` matches at the start and captures that word run. */
  lemma NameAfterKeyword(s: string, kw: string, ws: string, name: string, rest: string)
    requires s == kw + ws + name + rest
    requires |ws| > 0 && AllSpace(ws)
    requires |name| > 0 && AllWord(name)
    requires rest == [] || !IsWordChar(rest[0])
    ensures KeywordNameAt(s, kw, 0) && CapturedName(s, kw, 0) == name
  {
    var j := |kw| + |ws|;
    assert s[..|kw|] == kw;
    assert forall k | |kw| <= k < j :: s[k] == ws[k - |kw|];
    assert forall k | j <= k < j + |name| :: s[k] == name[k - j];
    assert s[j] == name[0];
    RunExact(s, |kw|, IsSpace, |ws|);
    assert j + |name| < |s| ==> s[j + |name|] == rest[0];
    RunExact(s, j, IsWordChar, |name|);
    assert s[j..j + |name|] == name;
  }

  /** A JavaScript header `function <name>(<params>)` is labelled with its name. */
  lemma JavaScriptHeaderLabel(ws: string, name: string, params: string)
    requires |ws| > 0 && AllSpace(ws)
    requires |name| > 0 && AllWord(name)
    ensures FunctionLabel("function" + ws + name + "(" + params + ")") == name
  {
    var s := "function" + ws + name + "(" + params + ")";
    var rest := "(" + params + ")";
    assert s == "function" + ws + name + rest;
    NameAfterKeyword(s, "function", ws, name, rest);
    assert FirstKeywordName(s, "function", 0) == Some(0);
  }

  /** Where the keyword does not occur, its pattern captures nothing. */
  lemma AbsentKeywordNoName(s: string, kw: string)
    requires !Contains(s, kw)
    ensures KeywordName(s, kw).None?
  {
    forall j | 0 <= j <= |s| ensures !KeywordNameAt(s, kw, j) {
      assert !OccursAt(s, kw, j);
    }
  }

  /** A Python header `def <name>...` in which the text `function` does not appear is
      labelled with its def name. */
  lemma PythonHeaderLabel(ws: string, name: string, rest: string)
    requires |ws| > 0 && AllSpace(ws)
    requires |name| > 0 && AllWord(name)
    requires rest == [] || !IsWordChar(rest[0])
    requires !Contains("def" + ws + name + rest, "function")
    ensures FunctionLabel("def" + ws + name + rest) == name
  {
    var s := "def" + ws + name + rest;
    AbsentKeywordNoName(s, "function");
    NameAfterKeyword(s, "def", ws, name, rest);
    assert FirstKeywordName(s, "def", 0) == Some(0);
  }

  /** An anonymous JavaScript function header gets the default label. */
  lemma AnonymousHeaderLabel()
    ensures FunctionLabel("function ()") == "anonymous"
  {
    var s := "function ()";
    assert !Contains(s, "def") by {
      forall j | 0 <= j <= |s| - 3 ensures !OccursAt(s, "def", j) {
        assert s[j..j + 3][0] == s[j];
      }
    }
    AbsentKeywordNoName(s, "def");
    forall j | 0 <= j <= |s| ensures !KeywordNameAt(s, "function", j) {
      if j == 0 {
        RunExact(s, 8, IsSpace, 1);
      } else if OccursAt(s, "function", j) {
        assert s[j..j + 8][0] == s[j] == 'f';
      }
    }
  }

  // ---------------------------------------------------------------------------
  // Condition and loop clean-up: `match.replace(/alt1|alt2|.../g, '').trim()`.
  // ---------------------------------------------------------------------------

  /** One alternative of the clean-up pattern. */
  datatype Alternative =
    | KeywordParen(keyword: string)  // keyword\s+\(
    | KeywordWord(keyword: string)   // \bkeyword\b\s+
    | Literal(c: char)               // a single character such as \) or :

  /** JavaScript's `\b` at index `p`: exactly one side of `p` is a word character. */
  predicate WordBoundary(s: string, p: nat)
    requires p <= |s|
  {
    (p > 0 && IsWordChar(s[p - 1])) != (p < |s| && IsWordChar(s[p]))
  }

  /** Length of the match of one alternative at index `i`, 0 when it does not match. */
  function AlternativeLength(s: string, i: nat, a: Alternative): (n: nat)
    requires i <= |s|
    ensures i + n <= |s|
    ensures a.Literal? ==> (n > 0 <==> i < |s| && s[i] == a.c)
  {
    match a
    case KeywordParen(k) =>
      if OccursAt(s, k, i) then
        var j := i + |k|;
        var w := SpaceRun(s, j);
        if w > 0 && j + w < |s| && s[j + w] == '(' then |k| + w + 1 else 0
      else 0
    case KeywordWord(k) =>
      if OccursAt(s, k, i) && WordBoundary(s, i) && WordBoundary(s, i + |k|) && SpaceRun(s, i + |k|) > 0
      then |k| + SpaceRun(s, i + |k|)
      else 0
    case Literal(c) => if i < |s| && s[i] == c then 1 else 0
  }

  /** Ordered alternation: the length of the first alternative that matches at `i`. */
  function MatchLength(s: string, i: nat, alts: seq<Alternative>): (n: nat)
    requires i <= |s|
    ensures i + n <= |s|
  {
    if alts == [] then 0
    else
      var n := AlternativeLength(s, i, alts[0]);
      if n > 0 then n else MatchLength(s, i, alts[1..])
  }

  /** The alternation fails only where every alternative fails: a character that is a
      literal of the pattern always matches. */
  lemma {:induction false} NoMatchNoLiteral(s: string, i: nat, alts: seq<Alternative>)
    requires i < |s| && MatchLength(s, i, alts) == 0
    ensures Literal(s[i]) !in alts
    decreases |alts|
  {
    if alts != [] {
      assert AlternativeLength(s, i, alts[0]) == 0;
      NoMatchNoLiteral(s, i, alts[1..]);
      assert alts == [alts[0]] + alts[1..];
    }
  }

  /** `s.replace(pattern, '')` with the global flag, scanning from index `i`: every match
      is dropped and every character where no alternative matches is kept. No character
      that is itself one of the pattern's literal alternatives survives. */
  function RemoveMatches(s: string, alts: seq<Alternative>, i: nat): (r: string)
    requires i <= |s|
    ensures |r| <= |s| - i
    ensures forall k | 0 <= k < |r| :: Literal(r[k]) !in alts
    decreases |s| - i
  {
    if i == |s| then ""
    else
      var n := MatchLength(s, i, alts);
      if n > 0 then RemoveMatches(s, alts, i + n)
      else
        NoMatchNoLiteral(s, i, alts);
        [s[i]] + RemoveMatches(s, alts, i + 1)
  }

  /** `/if\s+\(|\)|\bif\b\s+|:/g` (server/server.js:289). */
  const ConditionPattern: seq<Alternative> :=
    [KeywordParen("if"), Literal(')'), KeywordWord("if"), Literal(':')]

  /** `/for\s+\(|\)|\bfor\b\s+|while\s+\(|\bwhile\b\s+|:/g` (server/server.js:296). */
  const LoopPattern: seq<Alternative> :=
    [KeywordParen("for"), Literal(')'), KeywordWord("for"),
     KeywordParen("while"), KeywordWord("while"), Literal(':')]

  /** The text left once keyword, parentheses and colons are removed and the result is
      trimmed: no `)` and no `:`, no surrounding whitespace, never longer than the match. */
  predicate IsCleaned(m: string, r: string) {
    && |r| <= |m|
    && (forall k | 0 <= k < |r| :: r[k] != ')' && r[k] != ':')
    && (r != [] ==> !IsSpace(r[0]) && !IsSpace(r[|r| - 1]))
  }

  /** Clean-up of one condition match (server/server.js:287-290). */
  function CleanCondition(m: string): (r: string)
    ensures IsCleaned(m, r)
  {
    var removed := RemoveMatches(m, ConditionPattern, 0);
    var r := Trim(removed);
    assert forall k | 0 <= k < |r| :: r[k] == removed[SpaceRun(removed, 0) + k];
    r
  }

  /** Clean-up of one loop match (server/server.js:294-297). */
  function CleanLoop(m: string): (r: string)
    ensures IsCleaned(m, r)
  {
    var removed := RemoveMatches(m, LoopPattern, 0);
    var r := Trim(removed);
    assert forall k | 0 <= k < |r| :: r[k] == removed[SpaceRun(removed, 0) + k];
    r
  }

  function CleanConditions(matches: seq<string>): (r: seq<string>)
    ensures |r| == |matches|
    ensures forall i | 0 <= i < |matches| :: r[i] == CleanCondition(matches[i])
  {
    seq(|matches|, i requires 0 <= i < |matches| => CleanCondition(matches[i]))
  }

  function CleanLoops(matches: seq<string>): (r: seq<string>)
    ensures |r| == |matches|
    ensures forall i | 0 <= i < |matches| :: r[i] == CleanLoop(matches[i])
  {
    seq(|matches|, i requires 0 <= i < |matches| => CleanLoop(matches[i]))
  }

  /** What the replace leaves of a character at which no keyword occurs. */
  function Keep(c: char, alts: seq<Alternative>): string {
    if Literal(c) in alts then [] else [c]
  }

  /** `t` without the characters that are literal alternatives of the pattern. */
  function Strip(t: string, alts: seq<Alternative>): (r: string)
    ensures |r| <= |t|
    ensures forall k | 0 <= k < |r| :: Literal(r[k]) !in alts
  {
    if t == [] then [] else Keep(t[0], alts) + Strip(t[1..], alts)
  }

  /** Text without any literal of the pattern is left as it is. */
  lemma {:induction false} StripNothing(t: string, alts: seq<Alternative>)
    requires forall k | 0 <= k < |t| :: Literal(t[k]) !in alts
    ensures Strip(t, alts) == t
  {
    if t != [] {
      StripNothing(t[1..], alts);
    }
  }

  /** No keyword alternative of the pattern occurs at index `k`. */
  predicate KeywordFree(s: string, alts: seq<Alternative>, k: nat) {
    forall a | a in alts && !a.Literal? :: !OccursAt(s, a.keyword, k)
  }

  /** Where no keyword occurs, the pattern matches exactly the literal characters. */
  lemma {:induction false} InertMatch(s: string, i: nat, alts: seq<Alternative>)
    requires i < |s| && KeywordFree(s, alts, i)
    ensures MatchLength(s, i, alts) == (if Literal(s[i]) in alts then 1 else 0)
    decreases |alts|
  {
    if alts != [] {
      InertMatch(s, i, alts[1..]);
      assert alts == [alts[0]] + alts[1..];
    }
  }

  lemma RemoveStep(s: string, alts: seq<Alternative>, i: nat)
    requires i < |s| && KeywordFree(s, alts, i)
    ensures RemoveMatches(s, alts, i) == Keep(s[i], alts) + RemoveMatches(s, alts, i + 1)
  {
    InertMatch(s, i, alts);
  }

  /** Over a stretch where no keyword occurs, the global replace only strips the literal
      characters. */
  lemma {:induction false} RemoveMatchesInert(s: string, alts: seq<Alternative>, i: nat, j: nat)
    requires i <= j <= |s|
    requires forall k | i <= k < j :: KeywordFree(s, alts, k)
    ensures RemoveMatches(s, alts, i) == Strip(s[i..j], alts) + RemoveMatches(s, alts, j)
    decreases j - i
  {
    var t := s[i..j];
    if i == j {
      assert t == [];
    } else {
      RemoveStep(s, alts, i);
      RemoveMatchesInert(s, alts, i + 1, j);
      assert t[0] == s[i] && t[1..] == s[i + 1..j];
      assert Strip(t, alts) == Keep(s[i], alts) + Strip(s[i + 1..j], alts);
      Associate(Keep(s[i], alts), Strip(s[i + 1..j], alts), RemoveMatches(s, alts, j));
    }
  }

  /** A keyword made of word characters that does not occur in `s[lo..hi]` cannot occur at
      any index of that stretch when a non-word character follows it. */
  lemma KeywordsAbsent(s: string, alts: seq<Alternative>, lo: nat, hi: nat)
    requires lo <= hi < |s| && !IsWordChar(s[hi])
    requires forall a | a in alts && !a.Literal? ::
      |a.keyword| > 0 && AllWord(a.keyword) && !Contains(s[lo..hi], a.keyword)
    ensures forall k | lo <= k < hi :: KeywordFree(s, alts, k)
  {
    forall k, a | lo <= k < hi && a in alts && !a.Literal? ensures !OccursAt(s, a.keyword, k) {
      var kw := a.keyword;
      if k + |kw| <= hi {
        assert !OccursAt(s[lo..hi], kw, k - lo);
        SliceOccurs(s, kw, lo, hi, k);
      } else {
        assert IsWordChar(kw[hi - k]);
        AcrossAbsent(s, kw, k, hi);
      }
    }
  }

  /** The closing literal of a header is removed and nothing follows it. */
  lemma LastLiteral(s: string, alts: seq<Alternative>)
    requires |s| > 0 && Literal(s[|s| - 1]) in alts
    requires forall a | a in alts && !a.Literal? :: |a.keyword| >= 2
    ensures RemoveMatches(s, alts, |s| - 1) == []
  {
    assert KeywordFree(s, alts, |s| - 1);
    InertMatch(s, |s| - 1, alts);
  }

  /** A header whose head the pattern removes in one match, followed by keyword-free text
      and a closing literal, is cleaned to that text with its literals stripped. */
  lemma HeaderBody(s: string, alts: seq<Alternative>, lo: nat)
    requires 0 < lo < |s| && MatchLength(s, 0, alts) == lo
    requires !IsWordChar(s[|s| - 1]) && Literal(s[|s| - 1]) in alts
    requires forall a | a in alts && !a.Literal? ::
      |a.keyword| >= 2 && AllWord(a.keyword) && !Contains(s[lo..|s| - 1], a.keyword)
    ensures RemoveMatches(s, alts, 0) == Strip(s[lo..|s| - 1], alts)
  {
    var hi := |s| - 1;
    assert RemoveMatches(s, alts, 0) == RemoveMatches(s, alts, lo);
    KeywordsAbsent(s, alts, lo, hi);
    RemoveMatchesInert(s, alts, lo, hi);
    LastLiteral(s, alts);
  }

  /** Ordered alternation: when the alternatives before `m` fail and alternative `m` matches,
      the match is alternative `m`'s. */
  lemma {:induction false} FirstAlternative(s: string, i: nat, alts: seq<Alternative>, m: nat)
    requires i <= |s| && m < |alts|
    requires forall p | 0 <= p < m :: AlternativeLength(s, i, alts[p]) == 0
    requires AlternativeLength(s, i, alts[m]) > 0
    ensures MatchLength(s, i, alts) == AlternativeLength(s, i, alts[m])
    decreases m
  {
    if m > 0 {
      FirstAlternative(s, i, alts[1..], m - 1);
    }
  }

  /** `kw\s+\(` matches at the start of `kw + ws + "(" + ...`. */
  lemma ParenHead(s: string, kw: string, ws: string, rest: string)
    requires s == kw + ws + "(" + rest
    requires |ws| > 0 && AllSpace(ws)
    ensures AlternativeLength(s, 0, KeywordParen(kw)) == |kw| + |ws| + 1
  {
    assert s[..|kw|] == kw;
    assert forall k | |kw| <= k < |kw| + |ws| :: s[k] == ws[k - |kw|];
    assert s[|kw| + |ws|] == '(';
    RunExact(s, |kw|, IsSpace, |ws|);
  }

  /** `\bkw\b\s+` matches at the start of `kw + ws + rest` when `rest` does not start with
      whitespace, and `kw\s+\(` does not when it does not start with `(` either. */
  lemma WordHead(s: string, kw: string, ws: string, rest: string)
    requires s == kw + ws + rest
    requires |kw| > 0 && AllWord(kw)
    requires |ws| > 0 && AllSpace(ws)
    requires rest == [] || (!IsSpace(rest[0]) && rest[0] != '(')
    ensures AlternativeLength(s, 0, KeywordParen(kw)) == 0
    ensures AlternativeLength(s, 0, KeywordWord(kw)) == |kw| + |ws|
  {
    assert s[..|kw|] == kw;
    assert forall k | |kw| <= k < |kw| + |ws| :: s[k] == ws[k - |kw|];
    assert |kw| + |ws| < |s| ==> s[|kw| + |ws|] == rest[0];
    RunExact(s, |kw|, IsSpace, |ws|);
    assert s[0] == kw[0] && s[|kw| - 1] == kw[|kw| - 1] && s[|kw|] == ws[0];
  }

  /** A keyword cannot occur where the text starts with a different letter. */
  lemma OtherInitial(s: string, kw: string)
    requires |s| > 0 && |kw| > 0 && s[0] != kw[0]
    ensures !OccursAt(s, kw, 0)
  {
    if |kw| <= |s| {
      assert s[..|kw|][0] == s[0];
    }
  }

  /** The condition pattern's only keyword is "if": text without it is keyword-free. */
  lemma ConditionKeywords(body: string)
    requires !Contains(body, "if")
    ensures forall a | a in ConditionPattern && !a.Literal? ::
      |a.keyword| >= 2 && AllWord(a.keyword) && !Contains(body, a.keyword)
    ensures Literal(')') in ConditionPattern && Literal(':') in ConditionPattern
  {
    assert AllWord("if");
  }

  /** The loop pattern's only keywords are "for" and "while": text without them is
      keyword-free. */
  lemma LoopKeywords(body: string)
    requires !Contains(body, "for") && !Contains(body, "while")
    ensures forall a | a in LoopPattern && !a.Literal? ::
      |a.keyword| >= 2 && AllWord(a.keyword) && !Contains(body, a.keyword)
    ensures Literal(')') in LoopPattern && Literal(':') in LoopPattern
  {
    assert AllWord("for") && AllWord("while");
  }

  /** Cleaning a header reduces to stripping its body. */
  lemma CleanedBody(s: string, alts: seq<Alternative>, lo: nat, body: string)
    requires 0 < lo < |s| && MatchLength(s, 0, alts) == lo
    requires s[lo..|s| - 1] == body
    requires s[|s| - 1] == ')' || s[|s| - 1] == ':'
    requires Literal(s[|s| - 1]) in alts
    requires forall a | a in alts && !a.Literal? ::
      |a.keyword| >= 2 && AllWord(a.keyword) && !Contains(body, a.keyword)
    ensures RemoveMatches(s, alts, 0) == Strip(body, alts)
  {
    HeaderBody(s, alts, lo);
  }

  /** The ordered alternation at the start of a condition header. */
  lemma ConditionHead(s: string, paren: nat, word: nat)
    requires |s| > 0 && s[0] == 'i'
    requires AlternativeLength(s, 0, KeywordParen("if")) == paren
    requires AlternativeLength(s, 0, KeywordWord("if")) == word
    requires paren > 0 || word > 0
    ensures MatchLength(s, 0, ConditionPattern) == if paren > 0 then paren else word
  {
    var alts := ConditionPattern;
    assert alts[0] == KeywordParen("if") && alts[1] == Literal(')') && alts[2] == KeywordWord("if");
    assert AlternativeLength(s, 0, Literal(')')) == 0;
    if paren > 0 {
      FirstAlternative(s, 0, alts, 0);
    } else {
      FirstAlternative(s, 0, alts, 2);
    }
  }

  /** The ordered alternation at the start of a `for` header. */
  lemma ForHead(s: string, paren: nat, word: nat)
    requires AlternativeLength(s, 0, KeywordParen("for")) == paren
    requires AlternativeLength(s, 0, KeywordWord("for")) == word
    requires paren > 0 || word > 0
    ensures MatchLength(s, 0, LoopPattern) == if paren > 0 then paren else word
  {
    var alts := LoopPattern;
    assert alts[0] == KeywordParen("for") && alts[1] == Literal(')') && alts[2] == KeywordWord("for");
    assert s[0] == 'f';
    assert AlternativeLength(s, 0, Literal(')')) == 0;
    if paren > 0 {
      FirstAlternative(s, 0, alts, 0);
    } else {
      FirstAlternative(s, 0, alts, 2);
    }
  }

  /** Neither `for` alternative matches where the text starts with `w`. */
  lemma NoForAt(s: string)
    requires |s| > 0 && s[0] == 'w'
    ensures AlternativeLength(s, 0, KeywordParen("for")) == 0
    ensures AlternativeLength(s, 0, KeywordWord("for")) == 0
  {
    OtherInitial(s, "for");
  }

  /** Alternatives that all fail at `i` can be skipped. */
  lemma {:induction false} SkipAlternatives(s: string, i: nat, skipped: seq<Alternative>, rest: seq<Alternative>)
    requires i <= |s|
    requires forall p | 0 <= p < |skipped| :: AlternativeLength(s, i, skipped[p]) == 0
    ensures MatchLength(s, i, skipped + rest) == MatchLength(s, i, rest)
    decreases |skipped|
  {
    if skipped != [] {
      var alts := skipped + rest;
      assert alts[0] == skipped[0] && alts[1..] == skipped[1..] + rest;
      assert MatchLength(s, i, alts) == MatchLength(s, i, alts[1..]);
      SkipAlternatives(s, i, skipped[1..], rest);
    } else {
      assert skipped + rest == rest;
    }
  }

  /** The ordered alternation at the start of a `while` header: the `for` alternatives
      cannot match there. */
  lemma WhileHead(s: string, paren: nat, word: nat)
    requires |s| > 0 && s[0] == 'w'
    requires AlternativeLength(s, 0, KeywordParen("while")) == paren
    requires AlternativeLength(s, 0, KeywordWord("while")) == word
    requires paren > 0 || word > 0
    ensures MatchLength(s, 0, LoopPattern) == if paren > 0 then paren else word
  {
    var forAlternatives := [KeywordParen("for"), Literal(')'), KeywordWord("for")];
    var whileAlternatives := [KeywordParen("while"), KeywordWord("while"), Literal(':')];
    assert LoopPattern == forAlternatives + whileAlternatives;
    NoForAt(s);
    assert AlternativeLength(s, 0, Literal(')')) == 0;
    SkipAlternatives(s, 0, forAlternatives, whileAlternatives);
    assert whileAlternatives[1..] == [KeywordWord("while"), Literal(':')];
  }

  /** A JavaScript condition `if (<body>)` is shown as its trimmed body with any colon
      removed. */
  lemma ParenthesisedCondition(ws: string, body: string)
    requires |ws| > 0 && AllSpace(ws)
    requires !Contains(body, "if")
    ensures CleanCondition("if" + ws + "(" + body + ")") == Trim(Strip(body, ConditionPattern))
  {
    var s := "if" + ws + "(" + body + ")";
    var lo := 3 + |ws|;
    ParenHead(s, "if", ws, body + ")");
    assert s[0] == 'i';
    ConditionHead(s, lo, AlternativeLength(s, 0, KeywordWord("if")));
    assert s[lo..|s| - 1] == body && s[|s| - 1] == ')';
    ConditionKeywords(body);
    CleanedBody(s, ConditionPattern, lo, body);
  }

  /** A Python condition `if <body>:` is shown as its trimmed body with every `)` removed,
      including those of calls inside it. */
  lemma PythonCondition(ws: string, body: string)
    requires |ws| > 0 && AllSpace(ws)
    requires body == [] || (!IsSpace(body[0]) && body[0] != '(')
    requires !Contains(body, "if")
    ensures CleanCondition("if" + ws + body + ":") == Trim(Strip(body, ConditionPattern))
  {
    var s := "if" + ws + body + ":";
    var lo := 2 + |ws|;
    WordHead(s, "if", ws, body + ":");
    assert s[0] == 'i';
    ConditionHead(s, 0, lo);
    assert s[lo..|s| - 1] == body && s[|s| - 1] == ':';
    ConditionKeywords(body);
    CleanedBody(s, ConditionPattern, lo, body);
  }

  /** A parenthesised loop header `for (<body>)` or `while (<body>)` is shown as its trimmed
      body with any colon removed. */
  lemma ParenthesisedLoop(kw: string, ws: string, body: string)
    requires kw == "for" || kw == "while"
    requires |ws| > 0 && AllSpace(ws)
    requires !Contains(body, "for") && !Contains(body, "while")
    ensures CleanLoop(kw + ws + "(" + body + ")") == Trim(Strip(body, LoopPattern))
  {
    var s := kw + ws + "(" + body + ")";
    var lo := |kw| + |ws| + 1;
    ParenHead(s, kw, ws, body + ")");
    if kw == "for" {
      ForHead(s, lo, AlternativeLength(s, 0, KeywordWord(kw)));
    } else {
      assert s[0] == 'w';
      WhileHead(s, lo, AlternativeLength(s, 0, KeywordWord(kw)));
    }
    assert s[lo..|s| - 1] == body && s[|s| - 1] == ')';
    LoopKeywords(body);
    CleanedBody(s, LoopPattern, lo, body);
  }

  /** In a Python header `kw + ws + body + ":"`, `\bkw\b\s+` matches the head and
      `kw\s+\(` does not. */
  lemma PythonWordHead(kw: string, ws: string, body: string)
    requires |kw| > 0 && AllWord(kw)
    requires |ws| > 0 && AllSpace(ws)
    requires body == [] || (!IsSpace(body[0]) && body[0] != '(')
    ensures var s := kw + ws + body + ":";
      AlternativeLength(s, 0, KeywordParen(kw)) == 0 &&
      AlternativeLength(s, 0, KeywordWord(kw)) == |kw| + |ws|
  {
    var s := kw + ws + body + ":";
    var rest := body + ":";
    assert s == kw + ws + rest;
    assert rest[0] == if body == [] then ':' else body[0];
    WordHead(s, kw, ws, rest);
  }

  /** `\bfor\b\s+` or `\bwhile\b\s+` removes the head of a Python loop header. */
  lemma PythonLoopHead(kw: string, ws: string, body: string)
    requires kw == "for" || kw == "while"
    requires |ws| > 0 && AllSpace(ws)
    requires body == [] || (!IsSpace(body[0]) && body[0] != '(')
    ensures MatchLength(kw + ws + body + ":", 0, LoopPattern) == |kw| + |ws|
  {
    var s := kw + ws + body + ":";
    if kw == "for" {
      assert AllWord("for");
      PythonWordHead("for", ws, body);
      ForHead(s, 0, 3 + |ws|);
    } else {
      assert AllWord("while");
      PythonWordHead("while", ws, body);
      assert s[0] == 'w';
      WhileHead(s, 0, 5 + |ws|);
    }
  }

  /** A Python loop header `for <body>:` or `while <body>:` is shown as its trimmed body with
      every `)` removed: `for i in range(n):` becomes `i in range(n`. */
  lemma PythonLoop(kw: string, ws: string, body: string)
    requires kw == "for" || kw == "while"
    requires |ws| > 0 && AllSpace(ws)
    requires body == [] || (!IsSpace(body[0]) && body[0] != '(')
    requires !Contains(body, "for") && !Contains(body, "while")
    ensures CleanLoop(kw + ws + body + ":") == Trim(Strip(body, LoopPattern))
  {
    var s := kw + ws + body + ":";
    var lo := |kw| + |ws|;
    PythonLoopHead(kw, ws, body);
    assert s[lo..|s| - 1] == body && s[|s| - 1] == ':';
    LoopKeywords(body);
    CleanedBody(s, LoopPattern, lo, body);
  }
}
