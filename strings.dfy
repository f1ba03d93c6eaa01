/**
 The parts of Go's `strings`, `strconv` and `fmt` packages that the client
 relies on, stated over `string` (a sequence of Unicode scalar values):
 `strings.Split` with a one-character separator, `strings.TrimSpace`,
 `strconv.Atoi` / `strconv.Itoa` on 64-bit `int`, and `fmt.Sprintf` for
 format strings whose only verb is `%s`.
 */
module Strings {

  import opened Errors

  // ---------------------------------------------------------------------------
  // strings.Split and its inverse strings.Join
  // ---------------------------------------------------------------------------

  /** Number of occurrences of `c` in `s`. */
  function Count(s: string, c: char): nat
    decreases |s|
  {
    if |s| == 0 then 0
    else (if s[0] == c then 1 else 0) + Count(s[1..], c)
  }

  /** `strings.Join(parts, sep)`. */
  function Join(parts: seq<string>, sep: string): (r: string)
    ensures |parts| >= 1 ==> parts[0] <= r
    decreases |parts|
  {
    if |parts| == 0 then ""
    else if |parts| == 1 then parts[0]
    else parts[0] + sep + Join(parts[1..], sep)
  }

  /** `strings.Split(s, string(sep))`: the pieces between the separators.
      The three first postconditions determine the result completely: it is
      the only non-empty list of separator-free pieces whose join is `s`. */
  function Split(s: string, sep: char): (parts: seq<string>)
    ensures |parts| >= 1
    ensures forall i :: 0 <= i < |parts| ==> sep !in parts[i]
    ensures Join(parts, [sep]) == s
    ensures |parts| == Count(s, sep) + 1
    decreases |s|
  {
    if |s| == 0 then [""]
    else
      var rest := Split(s[1..], sep);
      if s[0] == sep then
        assert ([""] + rest)[1..] == rest;
        [""] + rest
      else
        var parts := [[s[0]] + rest[0]] + rest[1..];
        assert parts[1..] == rest[1..];
        assert Join(parts, [sep]) == [s[0]] + Join(rest, [sep]) by {
          if |rest| > 1 {
            assert Join(rest, [sep]) == rest[0] + [sep] + Join(rest[1..], [sep]);
          }
        }
        assert s == [s[0]] + s[1..];
        parts
  }

  /** A string without the separator is a single piece. */
  lemma {:induction false} SplitNoSeparator(p: string, sep: char)
    requires sep !in p
    ensures Split(p, sep) == [p]
    decreases |p|
  {
    if |p| > 0 {
      SplitNoSeparator(p[1..], sep);
      assert p == [p[0]] + p[1..];
    }
  }

  /** A separator-free piece followed by the separator splits off as the
      first part. */
  lemma {:induction false} SplitPiece(p: string, sep: char, rest: string)
    requires sep !in p
    ensures Split(p + [sep] + rest, sep) == [p] + Split(rest, sep)
    decreases |p|
  {
    var s := p + [sep] + rest;
    if |p| == 0 {
      assert s[1..] == rest;
    } else {
      assert s[1..] == p[1..] + [sep] + rest;
      SplitPiece(p[1..], sep, rest);
      assert p == [p[0]] + p[1..];
    }
  }

  /** Split undoes Join when no part holds the separator. */
  lemma {:induction false} SplitJoin(parts: seq<string>, sep: char)
    requires |parts| >= 1
    requires forall i :: 0 <= i < |parts| ==> sep !in parts[i]
    ensures Split(Join(parts, [sep]), sep) == parts
    decreases |parts|
  {
    if |parts| == 1 {
      SplitNoSeparator(parts[0], sep);
    } else {
      SplitJoin(parts[1..], sep);
      SplitPiece(parts[0], sep, Join(parts[1..], [sep]));
      assert parts == [parts[0]] + parts[1..];
    }
  }

  lemma {:induction false} CountNotIn(s: string, c: char)
    ensures Count(s, c) == 0 <==> c !in s
    decreases |s|
  {
    if |s| > 0 {
      CountNotIn(s[1..], c);
      assert s == [s[0]] + s[1..];
    }
  }

  // ---------------------------------------------------------------------------
  // strings.TrimSpace
  // ---------------------------------------------------------------------------

  /** Go's `unicode.IsSpace`: the Unicode White_Space property. */
  predicate IsSpace(c: char)
  {
    c == '\t' || c == '\n' || c == '\U{000B}' || c == '\U{000C}' || c == '\r' || c == ' '
    || c == '\U{0085}' || c == '\U{00A0}' || c == '\U{1680}'
    || ('\U{2000}' <= c <= '\U{200A}')
    || c == '\U{2028}' || c == '\U{2029}' || c == '\U{202F}' || c == '\U{205F}' || c == '\U{3000}'
  }

  /** `s` with its leading white space removed. */
  function TrimLeftSpace(s: string): (r: string)
    ensures |r| <= |s| && r == s[|s| - |r|..]
    ensures forall i :: 0 <= i < |s| - |r| ==> IsSpace(s[i])
    ensures r != "" ==> !IsSpace(r[0])
    decreases |s|
  {
    if |s| > 0 && IsSpace(s[0]) then TrimLeftSpace(s[1..]) else s
  }

  /** `s` with its trailing white space removed. */
  function TrimRightSpace(s: string): (r: string)
    ensures |r| <= |s| && r == s[..|r|]
    ensures forall i :: |r| <= i < |s| ==> IsSpace(s[i])
    ensures r != "" ==> !IsSpace(r[|r| - 1])
    decreases |s|
  {
    if |s| > 0 && IsSpace(s[|s| - 1]) then TrimRightSpace(s[..|s| - 1]) else s
  }

  /** `strings.TrimSpace(s)`: the result neither starts nor ends with white
      space, and it is empty exactly when `s` is blank. */
  function TrimSpace(s: string): (r: string)
    ensures r == "" <==> forall i :: 0 <= i < |s| ==> IsSpace(s[i])
    ensures r != "" ==> !IsSpace(r[0]) && !IsSpace(r[|r| - 1])
    ensures |r| <= |s|
  {
    TrimRightSpace(TrimLeftSpace(s))
  }

  /** `strings.TrimSpace(s)` is `s` with only white space removed, and only
      at its two ends. */
  lemma TrimSpaceIsInfix(s: string)
    ensures exists i, j :: 0 <= i <= j <= |s| && TrimSpace(s) == s[i..j]
                           && (forall k :: 0 <= k < i ==> IsSpace(s[k]))
                           && (forall k :: j <= k < |s| ==> IsSpace(s[k]))
  {
    var left := TrimLeftSpace(s);
    var i := |s| - |left|;
    var j := i + |TrimSpace(s)|;
    assert TrimSpace(s) == left[..|TrimSpace(s)|];
    assert left[..|TrimSpace(s)|] == s[i..j];
    assert forall k :: j <= k < |s| ==> s[k] == left[k - i];
  }

  // ---------------------------------------------------------------------------
  // strconv.Atoi and strconv.Itoa (Go's int is 64 bits wide)
  // ---------------------------------------------------------------------------

  const MinInt64: int := -0x8000_0000_0000_0000
  const MaxInt64: int := 0x7FFF_FFFF_FFFF_FFFF

  predicate IsDigit(c: char) { '0' <= c <= '9' }

  predicate AllDigits(s: string) { forall i :: 0 <= i < |s| ==> IsDigit(s[i]) }

  /** The value of a string of decimal digits, most significant first. */
  function DigitsValue(s: string): nat
    requires AllDigits(s)
    decreases |s|
  {
    if |s| == 0 then 0
    else DigitsValue(s[..|s| - 1]) * 10 + (s[|s| - 1] as int - '0' as int)
  }

  /** `strconv.Atoi(s)`: an optional sign followed by at least one decimal
      digit, whose value fits a 64-bit int; anything else is an error. */
  function Atoi(s: string): (r: Option<int>)
    ensures r.Some? ==> MinInt64 <= r.value <= MaxInt64
    ensures r.Some? ==> |s| >= 1 && (IsDigit(s[0]) || s[0] == '-' || s[0] == '+')
  {
    if |s| == 0 then None
    else
      var negative := s[0] == '-';
      var digits := if s[0] == '-' || s[0] == '+' then s[1..] else s;
      if |digits| == 0 || !AllDigits(digits) then None
      else
        var n: int := if negative then 0 - DigitsValue(digits) else DigitsValue(digits);
        if MinInt64 <= n <= MaxInt64 then Some(n) else None
  }

  /** A sign, or none, followed by decimal digits is read as their value
      with that sign, unless the value does not fit a 64-bit int. */
  lemma AtoiAccepts(sign: string, digits: string)
    requires sign == "" || sign == "+" || sign == "-"
    requires |digits| >= 1 && AllDigits(digits)
    ensures var v := if sign == "-" then 0 - DigitsValue(digits) else DigitsValue(digits);
            Atoi(sign + digits) == if MinInt64 <= v <= MaxInt64 then Some(v) else None
  {
    var s := sign + digits;
    if sign == "" {
      assert s == digits;
      assert IsDigit(s[0]);
    } else {
      assert s[0] == sign[0] && s[1..] == digits;
    }
    assert (if s[0] == '-' || s[0] == '+' then s[1..] else s) == digits;
  }

  /** Anything after the sign that is not a non-empty run of digits is
      refused: a bare sign, a second sign, a trailing letter. */
  lemma AtoiRefuses(sign: string, rest: string)
    requires sign == "" || sign == "+" || sign == "-"
    requires sign == "" ==> rest == "" || (rest[0] != '+' && rest[0] != '-')
    requires rest == "" || !AllDigits(rest)
    ensures Atoi(sign + rest) == None
  {
    var s := sign + rest;
    if sign == "" {
      assert s == rest;
    } else {
      assert s[0] == sign[0] && s[1..] == rest;
    }
  }

  /** A plus sign and leading zeros are accepted. */
  lemma AtoiAcceptsExamples()
    ensures Atoi("+120") == Some(120) && Atoi("0120") == Some(120)
  {
    assert DigitsValue("120") == 120 by {
      assert "120"[..2] == "12" && "12"[..1] == "1" && "1"[..0] == "";
    }
    assert DigitsValue("0120") == 120 by {
      assert "0120"[..3] == "012" && "012"[..2] == "01" && "01"[..1] == "0" && "0"[..0] == "";
    }
    AtoiAccepts("+", "120");
    assert "+" + "120" == "+120";
    AtoiAccepts("", "0120");
    assert "" + "0120" == "0120";
  }

  /** A trailing letter or a bare sign is refused. */
  lemma AtoiRefusesExamples()
    ensures Atoi("12a") == None && Atoi("-") == None
  {
    assert !IsDigit("12a"[2]);
    AtoiRefuses("", "12a");
    assert "" + "12a" == "12a";
    AtoiRefuses("-", "");
    assert "-" + "" == "-";
  }

  /** The shortest decimal digits of `n`. */
  function NatDigits(n: nat): (s: string)
    ensures |s| >= 1 && AllDigits(s) && DigitsValue(s) == n
    decreases n
  {
    if n < 10 then ['0' + n as char]
    else
      var d := NatDigits(n / 10);
      var s := d + ['0' + (n % 10) as char];
      assert s[..|s| - 1] == d;
      s
  }

  /** `strconv.Itoa(n)`. */
  function Itoa(n: int): string
  {
    if n < 0 then "-" + NatDigits(-n) else NatDigits(n)
  }

  /** Atoi reads back every 64-bit integer that Itoa writes. */
  lemma AtoiItoa(n: int)
    requires MinInt64 <= n <= MaxInt64
    ensures Atoi(Itoa(n)) == Some(n)
  {
    if n < 0 {
      assert ("-" + NatDigits(-n))[1..] == NatDigits(-n);
    }
  }

  // ---------------------------------------------------------------------------
  // fmt.Sprintf, %s verbs only
  // ---------------------------------------------------------------------------

  /** `fmt.Sprintf(format, args...)` where every argument is a string and the
      only verb used is `%s`: each `%s` is replaced by the next argument,
      and a `%s` with no argument left becomes `%!s(MISSING)`. */
  function Sprintf(format: string, args: seq<string>): string
    decreases |format|
  {
    if |format| == 0 then ""
    else if |format| >= 2 && format[0] == '%' && format[1] == 's' then
      if |args| == 0 then "%!s(MISSING)" + Sprintf(format[2..], args)
      else args[0] + Sprintf(format[2..], args[1..])
    else [format[0]] + Sprintf(format[1..], args)
  }

  /** A literal piece of a format string: no verb can start inside it. */
  predicate NoVerb(p: string) { '%' !in p }

  /** A format string made of literal pieces with one `%s` between each two. */
  function Template(pieces: seq<string>): string
    requires |pieces| >= 1
    decreases |pieces|
  {
    if |pieces| == 1 then pieces[0] else pieces[0] + "%s" + Template(pieces[1..])
  }

  /** The pieces with the arguments put between them. */
  function Interleave(pieces: seq<string>, args: seq<string>): string
    requires |pieces| == |args| + 1
    decreases |args|
  {
    if |args| == 0 then pieces[0] else pieces[0] + args[0] + Interleave(pieces[1..], args[1..])
  }

  lemma {:induction false} SprintfLiteral(p: string, rest: string, args: seq<string>)
    requires NoVerb(p)
    ensures Sprintf(p + rest, args) == p + Sprintf(rest, args)
    decreases |p|
  {
    if |p| == 0 {
      assert p + rest == rest;
    } else {
      assert (p + rest)[0] == p[0] != '%';
      assert (p + rest)[1..] == p[1..] + rest;
      assert Sprintf(p + rest, args) == [p[0]] + Sprintf(p[1..] + rest, args);
      SprintfLiteral(p[1..], rest, args);
      assert p == [p[0]] + p[1..];
    }
  }

  /** A format without verbs and without arguments is printed as it is. */
  lemma SprintfNoVerb(p: string)
    requires NoVerb(p)
    ensures Sprintf(p, []) == p
  {
    SprintfLiteral(p, "", []);
    assert p + "" == p;
  }

  lemma SprintfVerb(p: string, rest: string, a: string, args: seq<string>)
    requires NoVerb(p)
    ensures Sprintf(p + "%s" + rest, [a] + args) == p + a + Sprintf(rest, args)
  {
    assert p + "%s" + rest == p + ("%s" + rest);
    SprintfLiteral(p, "%s" + rest, [a] + args);
    assert ("%s" + rest)[2..] == rest;
    assert ([a] + args)[1..] == args;
  }

  /** Filling a template with exactly one argument per `%s` puts the
      arguments between the literal pieces. */
  lemma {:induction false} SprintfTemplate(pieces: seq<string>, args: seq<string>)
    requires |pieces| == |args| + 1
    requires forall i :: 0 <= i < |pieces| ==> NoVerb(pieces[i])
    ensures Sprintf(Template(pieces), args) == Interleave(pieces, args)
    decreases |args|
  {
    if |args| == 0 {
      SprintfLiteral(pieces[0], "", args);
      assert pieces[0] + "" == pieces[0];
    } else {
      SprintfTemplate(pieces[1..], args[1..]);
      assert args == [args[0]] + args[1..];
      SprintfVerb(pieces[0], Template(pieces[1..]), args[0], args[1..]);
    }
  }
}
