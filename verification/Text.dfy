/** Strings as the tools use them: code-point order, decimal rendering of
    counters, and the canonical JSON text of a string. */
module Text {
  import opened Orders

  /** Python's `<=` on strings: lexicographic by code point. */
  predicate StrLe(a: string, b: string) {
    a == "" || (b != "" && (a[0] < b[0] || (a[0] == b[0] && StrLe(a[1..], b[1..]))))
  }

  lemma {:induction false} StrLeTotal(a: string, b: string)
    ensures StrLe(a, b) || StrLe(b, a)
  {
    if a != "" && b != "" && a[0] == b[0] { StrLeTotal(a[1..], b[1..]); }
  }

  lemma {:induction false} StrLeAntisymmetric(a: string, b: string)
    requires StrLe(a, b) && StrLe(b, a)
    ensures a == b
  {
    if a != "" && b != "" {
      StrLeAntisymmetric(a[1..], b[1..]);
      assert a == [a[0]] + a[1..] && b == [b[0]] + b[1..];
    }
  }

  lemma {:induction false} StrLeTransitive(a: string, b: string, c: string)
    requires StrLe(a, b) && StrLe(b, c)
    ensures StrLe(a, c)
  {
    if a != "" && a[0] == b[0] == c[0] { StrLeTransitive(a[1..], b[1..], c[1..]); }
  }

  lemma {:induction false} StrLeIsTotalOrder()
    ensures TotalOrder(StrLe)
  {
    forall a: string, b: string
      ensures StrLe(a, b) || StrLe(b, a)
      ensures StrLe(a, b) && StrLe(b, a) ==> a == b
    {
      StrLeTotal(a, b);
      if StrLe(a, b) && StrLe(b, a) { StrLeAntisymmetric(a, b); }
    }
    forall a: string, b: string, c: string | StrLe(a, b) && StrLe(b, c)
      ensures StrLe(a, c)
    {
      StrLeTransitive(a, b, c);
    }
  }

  /** Strings are compared by their first different character; a prefix comes first. */
  lemma {:induction false} FirstDifferenceDecides(a: string, b: string)
    ensures StrLe(a, b) <==> exists i: nat :: IsFirstDifference(a, b, i)
  {
    if StrLe(a, b) {
      var i := 0;
      while i < |a| && a[i] == b[i]
        invariant i <= |a| && i <= |b| && a[..i] == b[..i] && StrLe(a[i..], b[i..])
      {
        assert a[i..][0] == a[i] && b[i..][0] == b[i] && a[i..][1..] == a[i + 1..] && b[i..][1..] == b[i + 1..];
        i := i + 1;
      }
      assert IsFirstDifference(a, b, i);
    }
    if i: nat :| IsFirstDifference(a, b, i) { DifferenceOrders(a, b, i); }
  }

  predicate IsFirstDifference(a: string, b: string, i: nat) {
    i <= |a| && i <= |b| && a[..i] == b[..i] && (i == |a| || (i < |b| && a[i] < b[i]))
  }

  lemma {:induction false} DifferenceOrders(a: string, b: string, i: nat)
    requires IsFirstDifference(a, b, i)
    ensures StrLe(a, b)
  {
    if i > 0 {
      assert a[0] == a[..i][0] == b[0];
      assert a[1..][..i - 1] == a[..i][1..] && b[1..][..i - 1] == b[..i][1..];
      DifferenceOrders(a[1..], b[1..], i - 1);
    }
  }

  /** `sorted(names)` for a set of strings. */
  function SortedNames(names: set<string>): (r: seq<string>)
    ensures forall x :: x in r <==> x in names
  {
    StrLeIsTotalOrder();
    SortedSetLists(names, StrLe);
    SortedSet(names, StrLe)
  }

  lemma {:induction false} SortedNamesSorted(names: set<string>)
    ensures SortedBy(SortedNames(names), StrLe) && Distinct(SortedNames(names))
    ensures |SortedNames(names)| == |names|
  {
    StrLeIsTotalOrder();
    SortedSetLists(names, StrLe);
  }

  function Digit(d: nat): (c: char)
    requires d < 10
    ensures '0' <= c <= '9'
  {
    '0' + d as char
  }

  /** `str(n)` for a non-negative integer. */
  function Decimal(n: nat): (r: string)
    ensures r != "" && forall c :: c in r ==> '0' <= c <= '9'
  {
    if n < 10 then [Digit(n)] else Decimal(n / 10) + [Digit(n % 10)]
  }

  lemma {:induction false} DecimalInjective(m: nat, n: nat)
    requires Decimal(m) == Decimal(n)
    ensures m == n
  {
    var a, b := Decimal(m), Decimal(n);
    if m < 10 && n < 10 {
    } else if m >= 10 && n >= 10 {
      assert a[..|a| - 1] == Decimal(m / 10) && b[..|b| - 1] == Decimal(n / 10);
      assert a[|a| - 1] == Digit(m % 10) && b[|b| - 1] == Digit(n % 10);
      DecimalInjective(m / 10, n / 10);
    }
  }

  /** The number a string of digits stands for. */
  function Value(s: string): int {
    if s == "" then 0 else 10 * Value(s[..|s| - 1]) + (s[|s| - 1] as int - '0' as int)
  }

  /** The decimal numeral of a number stands for it, and has no leading zero. */
  lemma {:induction false} DecimalMeans(n: nat)
    ensures Value(Decimal(n)) == n
    ensures n > 0 ==> Decimal(n)[0] != '0'
  {
    if n >= 10 {
      DecimalMeans(n / 10);
      assert Decimal(n)[..|Decimal(n)| - 1] == Decimal(n / 10);
    } else {
      assert [Digit(n)][..0] == "";
    }
  }

  // ---------------------------------------------------------------- keys joined with slashes

  lemma {:induction false} NoSlash(n: nat)
    ensures '/' !in Decimal(n)
  {}

  lemma {:induction false} NoSlashAfter(s: string, a: string, x: string)
    requires s == a + "/" + x && '/' !in x
    ensures forall i :: |a| < i < |s| ==> s[i] != '/'
  {
    forall i | |a| < i < |s|
      ensures s[i] != '/'
    {
      assert s[i] == x[i - |a| - 1];
    }
  }

  /** The text after the last slash. */
  lemma {:induction false} TailAfterSlash(s: string, a: string, x: string, b: string, y: string)
    requires s == a + "/" + x == b + "/" + y && '/' !in x && '/' !in y
    ensures x == y && a == b
  {
    NoSlashAfter(s, a, x);
    NoSlashAfter(s, b, y);
    assert s[|a|] == '/' && s[|b|] == '/';
    assert s[|a| + 1..] == x && s[|b| + 1..] == y && s[..|a|] == a && s[..|b|] == b;
  }

  /** The text before the first slash. */
  function Head(s: string): string {
    if s == "" || s[0] == '/' then "" else [s[0]] + Head(s[1..])
  }

  lemma {:induction false} HeadAlone(a: string)
    requires '/' !in a
    ensures Head(a) == a
  {
    if a != "" {
      assert a == [a[0]] + a[1..];
      HeadAlone(a[1..]);
    }
  }

  lemma {:induction false} HeadBeforeSlash(a: string, x: string)
    requires '/' !in a
    ensures Head(a + "/" + x) == a
  {
    if a != "" {
      assert a == [a[0]] + a[1..];
      HeadBeforeSlash(a[1..], x);
      assert (a + "/" + x)[1..] == a[1..] + "/" + x;
    }
  }

  // ---------------------------------------------------------------- canonical JSON strings

  function HexDigit(d: nat): (c: char)
    requires d < 16
  {
    "0123456789abcdef"[d]
  }

  lemma {:induction false} HexDigitInjective(d: nat, e: nat)
    requires d < 16 && e < 16 && HexDigit(d) == HexDigit(e)
    ensures d == e
  {}

  /** One character of a JSON string literal, as `json.dumps(..., ensure_ascii=False)` writes it. */
  function Escape(c: char): (r: string)
    ensures r != "" && r[0] != '"'
  {
    if c == '"' then "\\\""
    else if c == '\\' then "\\\\"
    else if c == '\n' then "\\n"
    else if c == '\r' then "\\r"
    else if c == '\t' then "\\t"
    else if c as int == 8 then "\\b"
    else if c as int == 12 then "\\f"
    else if c as int < 32 then "\\u00" + [HexDigit(c as int / 16), HexDigit(c as int % 16)]
    else [c]
  }

  function HexValue(c: char): int {
    if '0' <= c <= '9' then c as int - '0' as int else c as int - 'a' as int + 10
  }

  /** The code point that a JSON escape, or a plain character, stands for. */
  function Meaning(e: string): int
    requires e != ""
  {
    if |e| == 6 && e[..2] == "\\u" then
      4096 * HexValue(e[2]) + 256 * HexValue(e[3]) + 16 * HexValue(e[4]) + HexValue(e[5])
    else if |e| == 2 && e[0] == '\\' then
      match e[1]
      case 'b' => 8
      case 't' => 9
      case 'n' => 10
      case 'f' => 12
      case 'r' => 13
      case _ => e[1] as int
    else e[0] as int
  }

  /** Reading an escaped character gives the character back; printable characters are not escaped. */
  lemma {:induction false} EscapeMeans(c: char)
    ensures Meaning(Escape(c)) == c as int
    ensures c as int >= 32 && c != '"' && c != '\\' ==> Escape(c) == [c]
  {
    if |Escape(c)| == 6 { assert Escape(c)[..2] == "\\u"; }
  }

  lemma {:induction false} EscapePrefixFree(c: char, d: char, x: string, y: string)
    requires Escape(c) + x == Escape(d) + y
    ensures c == d && x == y
  {
    var e, f := Escape(c), Escape(d);
    assert (e + x)[0] == e[0] && (f + y)[0] == f[0];
    EscapeSize(c);
    EscapeSize(d);
    if |e| >= 2 && |f| >= 2 {
      assert (e + x)[1] == e[1] && (f + y)[1] == f[1];
      SecondDecidesSize(c, d);
    }
    assert |e| == |f|;
    assert (e + x)[..|e|] == e && (f + y)[..|f|] == f && (e + x)[|e|..] == x && (f + y)[|f|..] == y;
    EscapeInjective(c, d);
  }

  /** Escapes start with a backslash, other characters do not. */
  lemma {:induction false} EscapeSize(c: char)
    ensures |Escape(c)| == 1 || |Escape(c)| == 2 || |Escape(c)| == 6
    ensures |Escape(c)| == 1 <==> Escape(c)[0] != '\\'
  {}

  lemma {:induction false} SecondDecidesSize(c: char, d: char)
    requires |Escape(c)| >= 2 && |Escape(d)| >= 2 && Escape(c)[1] == Escape(d)[1]
    ensures |Escape(c)| == |Escape(d)|
  {}

  lemma {:induction false} EscapeInjective(c: char, d: char)
    requires Escape(c) == Escape(d)
    ensures c == d
  {
    var e, f := Escape(c), Escape(d);
    if |e| == 6 {
      assert e[4] == f[4] && e[5] == f[5];
      HexDigitInjective(c as int / 16, d as int / 16);
      HexDigitInjective(c as int % 16, d as int % 16);
    } else if |e| == 2 {
      assert e[1] == f[1];
    } else {
      assert e[0] == f[0];
    }
  }

  function QuoteBody(s: string): string {
    if s == "" then "\"" else Escape(s[0]) + QuoteBody(s[1..])
  }

  /** The JSON text of a string. */
  function Quote(s: string): string { "\"" + QuoteBody(s) }

  /** A quoted string ends where it ends: what follows it cannot be mistaken for part of it. */
  lemma {:induction false} QuoteBodyPrefixFree(s: string, t: string, x: string, y: string)
    requires QuoteBody(s) + x == QuoteBody(t) + y
    ensures s == t && x == y
  {
    QuoteBodyEnds(s);
    QuoteBodyEnds(t);
    assert (QuoteBody(s) + x)[0] == QuoteBody(s)[0] && (QuoteBody(t) + y)[0] == QuoteBody(t)[0];
    assert s == "" <==> t == "";
    if s == "" {
      assert (QuoteBody(s) + x)[1..] == x && (QuoteBody(t) + y)[1..] == y;
    } else {
      QuoteBodyStep(s, x);
      QuoteBodyStep(t, y);
      EscapePrefixFree(s[0], t[0], QuoteBody(s[1..]) + x, QuoteBody(t[1..]) + y);
      QuoteBodyPrefixFree(s[1..], t[1..], x, y);
      assert s == [s[0]] + s[1..] && t == [t[0]] + t[1..];
    }
  }

  lemma {:induction false} QuoteBodyStep(s: string, x: string)
    requires s != ""
    ensures QuoteBody(s) + x == Escape(s[0]) + (QuoteBody(s[1..]) + x)
  {}

  /** Only the closing quote is an unescaped quote. */
  lemma {:induction false} QuoteBodyEnds(s: string)
    ensures QuoteBody(s) != "" && (QuoteBody(s)[0] == '"' <==> s == "")
  {
    if s != "" { assert QuoteBody(s)[0] == Escape(s[0])[0]; }
  }

  lemma {:induction false} QuotePrefixFree(s: string, t: string, x: string, y: string)
    requires Quote(s) + x == Quote(t) + y
    ensures s == t && x == y
  {
    OpeningQuote(s, x);
    OpeningQuote(t, y);
    QuoteBodyPrefixFree(s, t, x, y);
  }

  lemma {:induction false} OpeningQuote(s: string, x: string)
    ensures (Quote(s) + x)[1..] == QuoteBody(s) + x
  {}

  // ---------------------------------------------------------------- stable identities

  /** A stable identity: a kind and 32 hexadecimal digits, here all alike. */
  function HexId(kind: string, digit: char): (id: string)
    requires '0' <= digit <= '9' || 'a' <= digit <= 'f'
    ensures |id| == |kind| + 33 && id[..|kind| + 1] == kind + "_"
    ensures forall i :: |kind| < i < |id| ==> id[i] == digit
  {
    kind + "_" + seq(32, (i: nat) => digit)
  }
}
