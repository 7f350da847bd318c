/** The formatter-boundary scanner: comments are cut, string literals kept, and every
    token in the surviving code is reported at its position. */
module Scanner {
  import opened Seqs

  // ---------------------------------------------------------------- comments

  /** Python's `str.isspace` for one character. */
  predicate IsSpace(c: char) {
    var n := c as int;
    || 9 <= n <= 13 || 28 <= n <= 32 || n == 0x85 || n == 0xa0 || n == 0x1680
    || 0x2000 <= n <= 0x200a || n == 0x2028 || n == 0x2029 || n == 0x202f || n == 0x205f || n == 0x3000
  }

  function StripLeft(s: string): string {
    if s == "" || !IsSpace(s[0]) then s else StripLeft(s[1..])
  }

  function StripRight(s: string): string {
    if s == "" || !IsSpace(s[|s| - 1]) then s else StripRight(s[..|s| - 1])
  }

  /** `str.strip` */
  function Strip(s: string): string { StripRight(StripLeft(s)) }

  /** The blanks, one by one. */
  lemma {:induction false} SpacesMean(c: char)
    ensures IsSpace(c) <==> c in {
      '\t', '\n', '\U{0b}', '\U{0c}', '\r', '\U{1c}', '\U{1d}', '\U{1e}', '\U{1f}', ' ', '\U{85}', '\U{a0}', '\U{1680}',
      '\U{2000}', '\U{2001}', '\U{2002}', '\U{2003}', '\U{2004}', '\U{2005}', '\U{2006}', '\U{2007}', '\U{2008}',
      '\U{2009}', '\U{200a}', '\U{2028}', '\U{2029}', '\U{202f}', '\U{205f}', '\U{3000}'}
  {
    assert c == (c as int) as char;
  }

  lemma {:induction false} LeftMeans(s: string) returns (i: nat)
    ensures i <= |s| && StripLeft(s) == s[i..] && forall k :: 0 <= k < i ==> IsSpace(s[k])
    ensures i < |s| ==> !IsSpace(s[i])
  {
    i := 0;
    if s != "" && IsSpace(s[0]) {
      var rest := LeftMeans(s[1..]);
      i := rest + 1;
      assert s[1..][rest..] == s[i..] && forall k :: 0 < k < i ==> s[k] == s[1..][k - 1];
    }
  }

  lemma {:induction false} RightMeans(s: string) returns (j: nat)
    ensures j <= |s| && StripRight(s) == s[..j] && forall k :: j <= k < |s| ==> IsSpace(s[k])
    ensures j > 0 ==> !IsSpace(s[j - 1])
  {
    j := |s|;
    if s != "" && IsSpace(s[|s| - 1]) {
      var init := s[..|s| - 1];
      j := RightMeans(init);
      assert init[..j] == s[..j] && forall k :: 0 <= k < |init| ==> s[k] == init[k];
    }
  }

  /** Stripping removes the blanks at both ends, and no other character. */
  lemma {:induction false} StripMeans(s: string) returns (i: nat, j: nat)
    ensures i <= j <= |s| && Strip(s) == s[i..j]
    ensures forall k :: 0 <= k < i || j <= k < |s| ==> IsSpace(s[k])
    ensures i < j ==> !IsSpace(s[i]) && !IsSpace(s[j - 1])
  {
    i := LeftMeans(s);
    var rest := s[i..];
    var length := RightMeans(rest);
    j := i + length;
    assert forall k :: i <= k < |s| ==> s[k] == rest[k - i];
    assert rest[..length] == s[i..j];
  }

  /** What a character means to its successor: code, the inside of a string, or just after a backslash in one. */
  datatype Mode = Code | Quoted | Escaped

  function Next(m: Mode, c: char): Mode {
    match m
    case Code => if c == '"' then Quoted else Code
    case Quoted => if c == '\\' then Escaped else if c == '"' then Code else Quoted
    case Escaped => Quoted
  }

  function ModeAt(line: string, i: nat): Mode
    requires i <= |line|
  {
    if i == 0 then Code else Next(ModeAt(line, i - 1), line[i - 1])
  }

  /** A slash outside a string, at line start or after a blank. */
  predicate CommentStarts(line: string, i: nat)
    requires i < |line|
  {
    line[i] == '/' && ModeAt(line, i) == Code && (i == 0 || line[i - 1] == ' ' || line[i - 1] == '\t')
  }

  /** Where the code of a line ends. */
  ghost predicate EndsAt(line: string, end: nat) {
    && end <= |line|
    && (forall i :: 0 <= i < end ==> !CommentStarts(line, i))
    && (end < |line| ==> CommentStarts(line, end))
  }

  /** Inside a block comment before line `n`. */
  function InBlock(lines: seq<string>, n: nat): bool
    requires n <= |lines|
  {
    if n == 0 then false
    else if InBlock(lines, n - 1) then Strip(lines[n - 1]) != "\\"
    else Strip(lines[n - 1]) == "/"
  }

  /** A line of a block comment, its delimiters included. */
  predicate Commented(lines: seq<string>, n: nat)
    requires n < |lines|
  {
    InBlock(lines, n) || Strip(lines[n]) == "/"
  }

  /** The end of the code of one line, character by character. */
  method CodeEnd(raw: string) returns (end: nat)
    ensures EndsAt(raw, end)
  {
    var quoted, escaped := false, false;
    end := |raw|;
    var index := 0;
    while index < |raw|
      invariant 0 <= index <= |raw|
      invariant ModeAt(raw, index) == if escaped then Escaped else if quoted then Quoted else Code
      invariant escaped ==> quoted
      invariant forall i :: 0 <= i < index ==> !CommentStarts(raw, i)
    {
      var c := raw[index];
      assert ModeAt(raw, index + 1) == Next(ModeAt(raw, index), raw[index]);
      if escaped {
        escaped := false;
      } else if quoted && c == '\\' {
        escaped := true;
      } else if c == '"' {
        quoted := !quoted;
      } else if c == '/' && !quoted {
        if index == 0 || raw[index - 1] == ' ' || raw[index - 1] == '\t' {
          end := index;
          return;
        }
      }
      index := index + 1;
    }
  }

  /** What is left of line `n`: nothing in a block comment, otherwise the text before its first comment. */
  ghost predicate CodeOf(lines: seq<string>, n: nat, code: string)
    requires n < |lines|
  {
    && code <= lines[n]
    && (Commented(lines, n) ==> code == "")
    && (!Commented(lines, n) ==> EndsAt(lines[n], |code|))
  }

  /** `code_lines`: one line per line, so that positions are kept. */
  method CodeLines(lines: seq<string>) returns (output: seq<string>)
    ensures |output| == |lines| && forall n :: 0 <= n < |lines| ==> CodeOf(lines, n, output[n])
  {
    output := [];
    var blockComment := false;
    for n := 0 to |lines|
      invariant |output| == n && blockComment == InBlock(lines, n)
      invariant forall k :: 0 <= k < n ==> CodeOf(lines, k, output[k])
    {
      var raw := lines[n];
      var stripped := Strip(raw);
      var line := "";
      if blockComment {
        if stripped == "\\" { blockComment := false; }
      } else if stripped == "/" {
        blockComment := true;
      } else {
        var end := CodeEnd(raw);
        line := raw[..end];
      }
      assert CodeOf(lines, n, line);
      output := output + [line];
    }
  }

  /** The text of a string literal up to its closing quote: plain characters and escape pairs. */
  predicate LiteralBody(s: string) {
    s == ""
    || (s[0] != '"' && s[0] != '\\' && LiteralBody(s[1..]))
    || (|s| >= 2 && s[0] == '\\' && LiteralBody(s[2..]))
  }

  /** A literal is kept whole: nothing in it starts a comment, and after it the line is code again. */
  lemma {:induction false} LiteralKept(line: string, i: nat, body: string)
    requires i + |body| < |line| && ModeAt(line, i) == Quoted && LiteralBody(body)
    requires line[i..i + |body|] == body && line[i + |body|] == '"'
    ensures ModeAt(line, i + |body| + 1) == Code
    ensures forall k :: i <= k <= i + |body| ==> !CommentStarts(line, k)
    decreases |body|
  {
    if body != "" {
      assert line[i] == body[0];
      if body[0] != '\\' {
        assert line[i + 1..i + |body|] == body[1..];
        LiteralKept(line, i + 1, body[1..]);
      } else {
        assert line[i + 1] == body[1];
        assert ModeAt(line, i + 1) == Escaped && ModeAt(line, i + 2) == Quoted;
        assert line[i + 2..i + |body|] == body[2..];
        LiteralKept(line, i + 2, body[2..]);
      }
    }
  }

  // ---------------------------------------------------------------- tokens

  predicate Occurs(line: string, token: string, i: nat) {
    i + |token| <= |line| && line[i..i + |token|] == token
  }

  /** A token occurs where the line splits into a part before it, the token, and a part after it. */
  lemma {:induction false} OccursMeans(line: string, token: string, i: nat)
    ensures Occurs(line, token, i) <==> exists a: string, b: string :: |a| == i && line == a + token + b
  {
    if Occurs(line, token, i) {
      var a, b := line[..i], line[i + |token|..];
      assert |a| == i && line == a + token + b;
    }
    if a: string, b: string :| |a| == i && line == a + token + b {
      assert line[i..i + |token|] == token;
    }
  }

  /** `line.find(token, start)` */
  function Find(line: string, token: string, start: nat): (r: Option<nat>)
    ensures r.Some? ==> start <= r.value && Occurs(line, token, r.value)
    ensures r.Some? ==> forall i :: start <= i < r.value ==> !Occurs(line, token, i)
    ensures r.None? ==> forall i :: start <= i ==> !Occurs(line, token, i)
    decreases |line| - start
  {
    if start + |token| > |line| then None
    else if Occurs(line, token, start) then Some(start)
    else Find(line, token, start + 1)
  }

  /** Two occurrences cannot overlap. */
  ghost predicate NoSelfOverlap(token: string) {
    token != "" && forall d :: 0 < d < |token| ==> token[d..] != token[..|token| - d]
  }

  const TOKENS: seq<string> := [".Q.s1", "-3!"]

  predicate IsToken(t: string) { t == ".Q.s1" || t == "-3!" }

  lemma {:induction false} TokensMean(t: string)
    ensures t in TOKENS <==> IsToken(t)
  {
    assert TOKENS[0] == ".Q.s1" && TOKENS[1] == "-3!";
  }

  lemma {:induction false} TokensDoNotOverlap()
    ensures forall t :: t in TOKENS ==> NoSelfOverlap(t)
  {
    var a, b := ".Q.s1", "-3!";
    forall d | 0 < d < |a|
      ensures a[d..] != a[..|a| - d]
    {
      assert a[d..][|a| - d - 1] == '1' && a[..|a| - d][|a| - d - 1] == a[|a| - d - 1];
    }
    forall d | 0 < d < |b|
      ensures b[d..] != b[..|b| - d]
    {
      assert b[d..][|b| - d - 1] == '!' && b[..|b| - d][|b| - d - 1] == b[|b| - d - 1];
    }
  }

  lemma {:induction false} OverlapShift(line: string, token: string, i: nat, d: nat)
    requires Occurs(line, token, i) && Occurs(line, token, i + d) && 0 < d < |token|
    ensures token[d..] == token[..|token| - d]
  {
    assert token[d..] == line[i + d..i + |token|];
    assert token[..|token| - d] == line[i + d..i + |token|];
  }

  /** After an occurrence the next one starts at its end or later. */
  lemma {:induction false} NextOccurrence(line: string, token: string, i: nat, j: nat)
    requires NoSelfOverlap(token) && Occurs(line, token, i) && Occurs(line, token, j) && i < j
    ensures i + |token| <= j
  {
    if j - i < |token| { OverlapShift(line, token, i, j - i); }
  }

  method FindAll(line: string, token: string) returns (columns: seq<nat>)
    requires NoSelfOverlap(token)
    ensures forall i: nat :: i in columns <==> Occurs(line, token, i)
    ensures forall a, b :: 0 <= a < b < |columns| ==> columns[a] < columns[b]
  {
    columns := [];
    var start := 0;
    while true
      invariant forall i: nat :: i in columns <==> i < start && Occurs(line, token, i)
      invariant forall a, b :: 0 <= a < b < |columns| ==> columns[a] < columns[b]
      decreases |line| - start
    {
      var column := Find(line, token, start);
      if column.None? { return; }
      var at := column.value;
      forall i: nat | at < i < at + |token|
        ensures !Occurs(line, token, i)
      {
        if Occurs(line, token, i) { NextOccurrence(line, token, at, i); }
      }
      forall a | 0 <= a < |columns|
        ensures columns[a] < at
      {
        assert columns[a] in columns;
      }
      forall i: nat
        ensures i in columns + [at] <==> i < at + |token| && Occurs(line, token, i)
      {
      }
      columns := columns + [at];
      start := at + |token|;
    }
  }

  datatype Violation = Violation(line: nat, column: nat, token: string)

  function Report(line: nat, token: string, columns: seq<nat>): seq<Violation> {
    seq(|columns|, (i: nat) requires i < |columns| => Violation(line, columns[i] + 1, token))
  }

  /** Violation `v` is an occurrence in the code of its line. */
  ghost predicate Found(code: seq<string>, v: Violation) {
    && 1 <= v.line <= |code| && v.column >= 1 && IsToken(v.token)
    && Occurs(code[v.line - 1], v.token, v.column - 1)
  }

  method ScanLine(line: nat, code: string) returns (violations: seq<Violation>)
    ensures forall v :: v in violations <==>
              v.line == line && v.column >= 1 && IsToken(v.token) && Occurs(code, v.token, v.column - 1)
    ensures forall i, j :: 0 <= i < j < |violations| ==> violations[i] != violations[j]
  {
    violations := [];
    TokensDoNotOverlap();
    for k := 0 to |TOKENS|
      invariant forall v :: v in violations <==>
                  v.line == line && v.column >= 1 && v.token in TOKENS[..k] && Occurs(code, v.token, v.column - 1)
      invariant forall i, j :: 0 <= i < j < |violations| ==> violations[i] != violations[j]
    {
      assert TOKENS[k] in TOKENS && TOKENS[..k + 1] == TOKENS[..k] + [TOKENS[k]];
      var columns := FindAll(code, TOKENS[k]);
      var more := Report(line, TOKENS[k], columns);
      ReportIs(line, TOKENS[k], columns, code);
      FreshToken(k);
      AppendFresh(violations, more);
      violations := violations + more;
    }
    assert TOKENS[..|TOKENS|] == TOKENS;
    forall t: string
      ensures t in TOKENS <==> IsToken(t)
    {
      TokensMean(t);
    }
  }

  lemma {:induction false} ReportIs(line: nat, token: string, columns: seq<nat>, code: string)
    requires forall i: nat :: i in columns <==> Occurs(code, token, i)
    requires forall a, b :: 0 <= a < b < |columns| ==> columns[a] < columns[b]
    ensures forall v :: v in Report(line, token, columns) <==>
              v.line == line && v.column >= 1 && v.token == token && Occurs(code, token, v.column - 1)
    ensures forall i, j :: 0 <= i < j < |columns| ==> Report(line, token, columns)[i] != Report(line, token, columns)[j]
  {
    var report := Report(line, token, columns);
    forall v: Violation
      ensures v in report <==> v.line == line && v.column >= 1 && v.token == token && Occurs(code, token, v.column - 1)
    {
      if v in report {
        var i :| 0 <= i < |report| && report[i] == v;
        assert columns[i] in columns;
      }
      if v.line == line && v.column >= 1 && v.token == token && Occurs(code, token, v.column - 1) {
        assert (v.column - 1) as nat in columns;
        var i :| 0 <= i < |columns| && columns[i] == v.column - 1;
        assert report[i] == v;
      }
    }
  }

  lemma {:induction false} FreshToken(k: nat)
    requires k < |TOKENS|
    ensures TOKENS[k] !in TOKENS[..k]
  {}

  lemma {:induction false} AppendFresh(a: seq<Violation>, b: seq<Violation>)
    requires forall i, j :: 0 <= i < j < |a| ==> a[i] != a[j]
    requires forall i, j :: 0 <= i < j < |b| ==> b[i] != b[j]
    requires forall v :: v in a ==> v !in b
    ensures forall i, j :: 0 <= i < j < |a + b| ==> (a + b)[i] != (a + b)[j]
  {
    forall i, j | 0 <= i < j < |a + b|
      ensures (a + b)[i] != (a + b)[j]
    {
      if i < |a| <= j { assert a[i] in a && b[j - |a|] in b; }
    }
  }

  /** `scan_text`: every token occurrence in the surviving code is reported once, and nothing else. */
  method ScanText(lines: seq<string>) returns (violations: seq<Violation>, code: seq<string>)
    ensures |code| == |lines| && forall n :: 0 <= n < |lines| ==> CodeOf(lines, n, code[n])
    ensures forall v :: v in violations <==> Found(code, v)
    ensures forall i, j :: 0 <= i < j < |violations| ==> violations[i] != violations[j]
  {
    code := CodeLines(lines);
    violations := [];
    for n := 0 to |code|
      invariant forall v :: v in violations <==> Found(code, v) && v.line <= n
      invariant forall i, j :: 0 <= i < j < |violations| ==> violations[i] != violations[j]
    {
      var more := ScanLine(n + 1, code[n]);
      AppendFresh(violations, more);
      violations := violations + more;
    }
  }
}
