/** The optional value used wherever the source reads a property that may be absent. */
module Optional {
  datatype Option<+T> = None | Some(value: T)
}

/** Character classes and string helpers with the meaning JavaScript gives them. */
module Text {

  /** JavaScript's `\s` class: ECMAScript WhiteSpace and LineTerminator code points.
      `String.prototype.trim` strips exactly this set too. */
  predicate IsSpace(c: char) {
    || c == ' ' || c == '\t' || c == '\n' || c == '\U{B}' || c == '\U{C}' || c == '\r'
    || c == '\U{A0}' || c == '\U{1680}' || ('\U{2000}' <= c <= '\U{200A}')
    || c == '\U{2028}' || c == '\U{2029}' || c == '\U{202F}' || c == '\U{205F}'
    || c == '\U{3000}' || c == '\U{FEFF}'
  }

  /** JavaScript's `\w` class without the `u` flag: ASCII letters, digits and underscore. */
  predicate IsWordChar(c: char) {
    ('a' <= c <= 'z') || ('A' <= c <= 'Z') || ('0' <= c <= '9') || c == '_'
  }

  predicate AllSpace(s: string) {
    forall k | 0 <= k < |s| :: IsSpace(s[k])
  }

  predicate AllWord(s: string) {
    forall k | 0 <= k < |s| :: IsWordChar(s[k])
  }

  /** `sub` occurs in `s` starting at index `i`. */
  predicate OccursAt(s: string, sub: string, i: int) {
    0 <= i && i + |sub| <= |s| && s[i..i + |sub|] == sub
  }

  /** `s.includes(sub)`. */
  predicate Contains(s: string, sub: string) {
    exists i | 0 <= i <= |s| - |sub| :: OccursAt(s, sub, i)
  }

  /** `sub` occurs in the stretch `s[lo..hi]` at `k - lo` exactly when it occurs in `s` at
      `k`. */
  lemma SliceOccurs(s: string, sub: string, lo: nat, hi: nat, k: nat)
    requires lo <= k && k + |sub| <= hi <= |s|
    ensures OccursAt(s[lo..hi], sub, k - lo) == OccursAt(s, sub, k)
  {
    var u, v := s[lo..hi][k - lo..k - lo + |sub|], s[k..k + |sub|];
    forall m | 0 <= m < |sub| ensures u[m] == v[m] {
      assert u[m] == s[lo..hi][k - lo + m];
    }
    assert u == v;
  }

  lemma Associate<T>(a: seq<T>, b: seq<T>, c: seq<T>)
    ensures (a + b) + c == a + (b + c)
  {
  }

  /** An occurrence of `kw` at `k` that reached index `hi` would put one of its characters
      there. */
  lemma AcrossAbsent(s: string, kw: string, k: nat, hi: nat)
    requires k <= hi < |s| && hi < k + |kw|
    requires s[hi] != kw[hi - k]
    ensures !OccursAt(s, kw, k)
  {
    if k + |kw| <= |s| {
      assert s[k..k + |kw|][hi - k] == s[hi];
    }
  }

  /** Length of the longest run of characters satisfying `p` that starts at index `i`
      (what a greedy `\s*` or `\w+` consumes there). */
  function Run(s: string, i: nat, p: char -> bool): (n: nat)
    requires i <= |s|
    ensures i + n <= |s|
    ensures forall k | i <= k < i + n :: p(s[k])
    ensures i + n < |s| ==> !p(s[i + n])
    decreases |s| - i
  {
    if i < |s| && p(s[i]) then 1 + Run(s, i + 1, p) else 0
  }

  /** A run is determined by its characters and the one that stops it. */
  lemma {:induction false} RunExact(s: string, i: nat, p: char -> bool, n: nat)
    requires i + n <= |s|
    requires forall k | i <= k < i + n :: p(s[k])
    requires i + n == |s| || !p(s[i + n])
    ensures Run(s, i, p) == n
    decreases n
  {
    if n > 0 {
      RunExact(s, i + 1, p, n - 1);
    }
  }

  function SpaceRun(s: string, i: nat): (n: nat)
    requires i <= |s|
    ensures i + n <= |s| && AllSpace(s[i..i + n])
    ensures i + n < |s| ==> !IsSpace(s[i + n])
  {
    Run(s, i, IsSpace)
  }

  function WordRun(s: string, i: nat): (n: nat)
    requires i <= |s|
    ensures i + n <= |s| && AllWord(s[i..i + n])
    ensures i + n < |s| ==> !IsWordChar(s[i + n])
  {
    Run(s, i, IsWordChar)
  }

  /** `s.trim()`: the slice of `s` left once leading and trailing whitespace is removed.
      It starts at `SpaceRun(s, 0)`, the first non-whitespace character. */
  function Trim(s: string): (r: string)
    ensures |r| <= |s|
    ensures r != [] ==> !IsSpace(r[0]) && !IsSpace(r[|r| - 1])
    ensures SpaceRun(s, 0) + |r| <= |s| && r == s[SpaceRun(s, 0)..SpaceRun(s, 0) + |r|]
    ensures AllSpace(s[..SpaceRun(s, 0)]) && AllSpace(s[SpaceRun(s, 0) + |r|..])
  {
    var a := SpaceRun(s, 0);
    var t := s[a..];
    var b := TrailingSpaces(t);
    assert s[..a] == s[0..a];
    assert s[a + (|t| - b)..] == t[|t| - b..];
    t[..|t| - b]
  }

  /** Number of whitespace characters at the end of `s`. */
  function TrailingSpaces(s: string): (n: nat)
    ensures n <= |s| && AllSpace(s[|s| - n..])
    ensures n < |s| ==> !IsSpace(s[|s| - n - 1])
  {
    if s != [] && IsSpace(s[|s| - 1]) then
      var n := 1 + TrailingSpaces(s[..|s| - 1]);
      assert s[|s| - n..] == s[..|s| - 1][|s| - n..] + [s[|s| - 1]];
      n
    else 0
  }

  /** The trailing whitespace of `b + w` is exactly `w` when `b` does not end in whitespace. */
  lemma {:induction false} TrailingSpacesExact(b: string, w: string)
    requires AllSpace(w)
    requires b == [] || !IsSpace(b[|b| - 1])
    ensures TrailingSpaces(b + w) == |w|
    decreases |w|
  {
    if w == [] {
      assert b + w == b;
    } else {
      var s := b + w;
      assert IsSpace(s[|s| - 1]);
      assert s[..|s| - 1] == b + w[..|w| - 1];
      TrailingSpacesExact(b, w[..|w| - 1]);
    }
  }
}
