/** The string helpers of Go's standard library the modelled code relies on:
    `%q` quoting, decimal formatting of positive integers (`%d`,
    `strconv.Itoa`) and `strings.Join`, each with its inverse. */
module Text {

  /** `%q` of a string. Go escapes control characters, quotes and
      backslashes inside the quotes; this model wraps the text as it is. */
  function Quote(s: string): (q: string)
    ensures |q| == |s| + 2 && q[0] == '"' && q[|q| - 1] == '"'
    ensures Unquote(q) == s
  {
    "\"" + s + "\""
  }

  /** The text between the quotes of a quoted string. */
  function Unquote(q: string): string
    requires |q| >= 2
  {
    q[1..|q| - 1]
  }

  predicate IsDigit(c: char) {
    '0' <= c <= '9'
  }

  predicate AllDigits(s: string) {
    forall i :: 0 <= i < |s| ==> IsDigit(s[i])
  }

  function DigitChar(d: nat): (c: char)
    requires d < 10
    ensures IsDigit(c)
  {
    ('0' as int + d) as char
  }

  function DigitValue(c: char): (d: nat)
    requires IsDigit(c)
    ensures d < 10
  {
    c as int - '0' as int
  }

  /** The decimal numeral of `n`, as `strconv.Itoa` and `%d` write it. */
  function Decimal(n: nat): (s: string)
    ensures |s| >= 1 && AllDigits(s)
    ensures n > 0 ==> s[0] != '0'
    decreases n
  {
    if n < 10 then [DigitChar(n)] else Decimal(n / 10) + [DigitChar(n % 10)]
  }

  /** The value of a numeral, read from its last digit backwards. */
  function ParseDecimal(s: string): nat
    requires AllDigits(s)
    decreases |s|
  {
    if s == [] then 0 else 10 * ParseDecimal(s[..|s| - 1]) + DigitValue(s[|s| - 1])
  }

  /** Reading a formatted number gives the number back. */
  lemma {:induction false} DecimalRoundTrip(n: nat)
    ensures ParseDecimal(Decimal(n)) == n
    decreases n
  {
    var s := Decimal(n);
    if n < 10 {
      assert s[..|s| - 1] == [];
    } else {
      DecimalRoundTrip(n / 10);
      assert s[..|s| - 1] == Decimal(n / 10);
    }
  }

  /** `strings.Join`: the parts with `sep` between neighbours. */
  function Join(parts: seq<string>, sep: string): string
    decreases |parts|
  {
    if |parts| == 0 then ""
    else if |parts| == 1 then parts[0]
    else parts[0] + sep + Join(parts[1..], sep)
  }

  /** `strings.Split` on one separator character: the pieces between
      separators, empty ones included, so the result is never empty. */
  function Split(s: string, sep: char): (parts: seq<string>)
    ensures |parts| >= 1
    decreases |s|
  {
    if |s| == 0 then [""]
    else if s[0] == sep then [""] + Split(s[1..], sep)
    else
      var rest := Split(s[1..], sep);
      [[s[0]] + rest[0]] + rest[1..]
  }

  /** Joining gives the empty string exactly when there is nothing to join
      or a single empty part. */
  lemma {:induction false} JoinEmpty(parts: seq<string>, sep: string)
    requires sep != ""
    ensures Join(parts, sep) == "" <==> |parts| == 0 || (|parts| == 1 && parts[0] == "")
  {
    if |parts| >= 2 {
      assert |Join(parts, sep)| >= |sep|;
    }
  }

  /** A word without the separator splits to itself, and a word followed by
      the separator splits to that word and the split of the rest. */
  lemma {:induction false} SplitWord(w: string, rest: string, sep: char)
    requires sep !in w
    ensures Split(w, sep) == [w]
    ensures Split(w + [sep] + rest, sep) == [w] + Split(rest, sep)
    decreases |w|
  {
    if |w| == 0 {
      assert w + [sep] + rest == [sep] + rest;
      assert ([sep] + rest)[1..] == rest;
    } else {
      SplitWord(w[1..], rest, sep);
      assert (w + [sep] + rest)[1..] == w[1..] + [sep] + rest;
      assert [w[0]] + w[1..] == w;
    }
  }

  /** Splitting a command line joined with single spaces gives back its
      words, when no word holds a space and there is at least one word. */
  lemma {:induction false} SplitJoin(parts: seq<string>)
    requires |parts| >= 1
    requires forall i :: 0 <= i < |parts| ==> ' ' !in parts[i]
    ensures Split(Join(parts, " "), ' ') == parts
    decreases |parts|
  {
    if |parts| == 1 {
      SplitWord(parts[0], "", ' ');
    } else {
      SplitJoin(parts[1..]);
      SplitWord(parts[0], Join(parts[1..], " "), ' ');
      assert [parts[0]] + parts[1..] == parts;
    }
  }

  /** A format flag: `#`, `0`, `+`, `-` or space. */
  predicate IsFlag(c: char) {
    c == '#' || c == '0' || c == '+' || c == '-' || c == ' '
  }

  /** The index just past the flags that start at `i`. */
  function SkipFlags(f: string, i: nat): (j: nat)
    requires i <= |f|
    ensures i <= j <= |f|
    decreases |f| - i
  {
    if i < |f| && IsFlag(f[i]) then SkipFlags(f, i + 1) else i
  }

  /** The index just past a width or precision numeral starting at `i`, as
      `fmt` reads it: a numeral whose value passes a million before its last
      digit makes the reader give up and jump to the end of the format. */
  function SkipNumber(f: string, i: nat, num: nat): (j: nat)
    requires i <= |f|
    ensures i <= j <= |f|
    decreases |f| - i
  {
    if i < |f| && IsDigit(f[i]) then
      if num > 1000000 then |f| else SkipNumber(f, i + 1, 10 * num + DigitValue(f[i]))
    else i
  }

  /** The text `fmt.Errorf(f)` and `fmt.Sprintf(f)` produce when given no
      arguments: the format is read as a format, so `%%` becomes `%`, a
      directive with no argument left becomes `%!v(MISSING)` for its verb `v`,
      a `%` with no verb after it becomes `%!(NOVERB)`, and a `*` width or
      precision with no argument adds `%!(BADWIDTH)` or `%!(BADPREC)`. A `.`
      that ends the format is not a precision but the verb itself. */
  function FormatNoArgs(f: string): (out: string)
    requires '[' !in f
    decreases |f|
  {
    if f == [] then []
    else if f[0] != '%' then [f[0]] + FormatNoArgs(f[1..])
    else
      var a := SkipFlags(f, 1);
      var b := if a < |f| && f[a] == '*' then a + 1 else SkipNumber(f, a, 0);
      var badWidth := if a < |f| && f[a] == '*' then "%!(BADWIDTH)" else "";
      var c := if b + 1 < |f| && f[b] == '.' then
                 if b + 1 < |f| && f[b + 1] == '*' then b + 2 else SkipNumber(f, b + 1, 0)
               else b;
      var badPrec := if b + 1 < |f| && f[b] == '.' && f[b + 1] == '*' then "%!(BADPREC)" else "";
      if c >= |f| then badWidth + badPrec + "%!(NOVERB)"
      else
        var verb := if f[c] == '%' then "%" else "%!" + [f[c]] + "(MISSING)";
        badWidth + badPrec + verb + FormatNoArgs(f[c + 1..])
  }

  /** A `.` at the end of a format is the verb, not a precision, with or
      without a width before it. */
  lemma FormatNoArgsFinalDot()
    ensures FormatNoArgs("%.") == "%!.(MISSING)"
    ensures FormatNoArgs("%5.") == "%!.(MISSING)"
  {
    var f, g := "%.", "%5.";
    assert SkipFlags(f, 1) == 1 && SkipNumber(f, 1, 0) == 1 && f[2..] == [];
    assert SkipFlags(g, 1) == 1 && SkipNumber(g, 2, 5) == 2 && SkipNumber(g, 1, 0) == 2 && g[3..] == [];
  }

  /** A format without `%` is printed as it is. */
  lemma {:induction false} FormatNoArgsPlain(f: string)
    requires '%' !in f && '[' !in f
    ensures FormatNoArgs(f) == f
    decreases |f|
  {
    if f != [] {
      FormatNoArgsPlain(f[1..]);
      assert [f[0]] + f[1..] == f;
    }
  }

  /** Text without `%` passes through unchanged in front of whatever the rest
      of the format becomes. */
  lemma {:induction false} FormatNoArgsPrefix(p: string, rest: string)
    requires '%' !in p && '[' !in p && '[' !in rest
    ensures FormatNoArgs(p + rest) == p + FormatNoArgs(rest)
    decreases |p|
  {
    if p != [] {
      var f := p + rest;
      assert f[0] == p[0] && f[1..] == p[1..] + rest;
      assert '[' !in f by {
        assert forall i :: 0 <= i < |f| ==> f[i] == if i < |p| then p[i] else rest[i - |p|];
      }
      FormatNoArgsPrefix(p[1..], rest);
      assert FormatNoArgs(f) == [p[0]] + FormatNoArgs(p[1..] + rest);
      assert p + FormatNoArgs(rest) == [p[0]] + (p[1..] + FormatNoArgs(rest));
    } else {
      assert p + rest == rest;
    }
  }

  /** A character is in a concatenation exactly when it is in one of the parts. */
  lemma InConcat(c: char, a: string, b: string)
    ensures c in a + b <==> c in a || c in b
  {
    if c in a + b {
      var i :| 0 <= i < |a + b| && (a + b)[i] == c;
      if i >= |a| {
        assert b[i - |a|] == c;
      }
    }
    if c in a {
      var i :| 0 <= i < |a| && a[i] == c;
      assert (a + b)[i] == c;
    }
    if c in b {
      var i :| 0 <= i < |b| && b[i] == c;
      assert (a + b)[|a| + i] == c;
    }
  }

  /** A directive whose verb follows the `%` directly has no argument to
      print: it becomes `%!v(MISSING)` and the rest is read on. */
  lemma FormatNoArgsMissing(v: char, tail: string)
    requires !IsFlag(v) && !IsDigit(v) && v != '*' && v != '.' && v != '%' && v != '['
    requires '[' !in tail
    ensures FormatNoArgs(['%', v] + tail) == "%!" + [v] + "(MISSING)" + FormatNoArgs(tail)
  {
    var f := ['%', v] + tail;
    assert f[0] == '%' && f[1] == v && f[2..] == tail;
    assert '[' !in f by {
      InConcat('[', ['%', v], tail);
    }
    assert SkipFlags(f, 1) == 1;
    assert SkipNumber(f, 1, 0) == 1;
  }
}
