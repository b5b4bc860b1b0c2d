/**
  The JavaScript string built-ins the application relies on, over strings as
  sequences of characters: `trim`, ASCII case mapping, `split("\n")`,
  case-insensitive prefix tests (the `/^...:/i` patterns), `parseInt`,
  `String(n)`, `padStart(2, "0")` and `replace` with a string pattern.
*/
module Text {
  import opened Wrappers

  /** ECMAScript WhiteSpace and LineTerminator code points, which `trim` removes. */
  predicate IsWhitespace(c: char) {
    || c == '\t' || c == '\n' || c == '\U{000B}' || c == '\U{000C}' || c == '\r'
    || c == ' ' || c == '\U{00A0}' || c == '\U{1680}'
    || ('\U{2000}' <= c <= '\U{200A}')
    || c == '\U{2028}' || c == '\U{2029}' || c == '\U{202F}' || c == '\U{205F}'
    || c == '\U{3000}' || c == '\U{FEFF}'
  }

  predicate AllWhitespace(s: string) {
    forall i :: 0 <= i < |s| ==> IsWhitespace(s[i])
  }

  /** Drops the leading whitespace. */
  function TrimStart(s: string): string {
    if s != [] && IsWhitespace(s[0]) then TrimStart(s[1..]) else s
  }

  /** Drops the trailing whitespace. */
  function TrimEnd(s: string): string {
    if s != [] && IsWhitespace(s[|s| - 1]) then TrimEnd(s[..|s| - 1]) else s
  }

  /** `String.prototype.trim`: whitespace removed at both ends. */
  function Trim(s: string): string {
    TrimEnd(TrimStart(s))
  }

  /** `TrimStart` keeps a suffix whose first character is not whitespace, and drops only whitespace. */
  lemma {:induction false} TrimStartSpec(s: string)
    ensures var r := TrimStart(s);
            && |r| <= |s| && r == s[|s| - |r|..]
            && AllWhitespace(s[..|s| - |r|])
            && (r != [] ==> !IsWhitespace(r[0]))
  {
    if s != [] && IsWhitespace(s[0]) {
      TrimStartSpec(s[1..]);
      var r := TrimStart(s);
      assert s[1..][|s| - 1 - |r|..] == s[|s| - |r|..];
      assert s[..|s| - |r|] == [s[0]] + s[1..][..|s| - 1 - |r|];
    } else {
      assert s[..0] == [];
    }
  }

  /** `TrimEnd` keeps a prefix whose last character is not whitespace, and drops only whitespace. */
  lemma {:induction false} TrimEndSpec(s: string)
    ensures var r := TrimEnd(s);
            && |r| <= |s| && r == s[..|r|]
            && AllWhitespace(s[|r|..])
            && (r != [] ==> !IsWhitespace(r[|r| - 1]))
  {
    if s != [] && IsWhitespace(s[|s| - 1]) {
      var p := s[..|s| - 1];
      TrimEndSpec(p);
      var r := TrimEnd(s);
      assert p[..|r|] == s[..|r|];
      assert s[|r|..] == p[|r|..] + [s[|s| - 1]];
    } else {
      assert s[|s|..] == [];
    }
  }

  /** What `trim` keeps is a slice of its input with only whitespace on either side, and starts and ends with non-whitespace. */
  lemma TrimIsSlice(s: string)
    ensures exists i, j :: 0 <= i <= j <= |s| && Trim(s) == s[i..j] && AllWhitespace(s[..i]) && AllWhitespace(s[j..])
    ensures var r := Trim(s); r != [] ==> !IsWhitespace(r[0]) && !IsWhitespace(r[|r| - 1])
  {
    var t := TrimStart(s);
    TrimStartSpec(s);
    TrimEndSpec(t);
    var r := TrimEnd(t);
    var i := |s| - |t|;
    assert r == s[i..i + |r|];
    assert s[i + |r|..] == t[|r|..];
  }

  /** A string is blank when trimming leaves nothing (JavaScript treats "" as false). */
  lemma {:induction false} TrimEmptyIffAllWhitespace(s: string)
    ensures Trim(s) == [] <==> AllWhitespace(s)
  {
    var t := TrimStart(s);
    TrimStartSpec(s);
    TrimEndSpec(t);
    if t == [] {
      assert s[..|s|] == s;
    } else {
      assert !IsWhitespace(t[0]);
      assert s[|s| - |t|] == t[0];
    }
  }

  function LowerChar(c: char): char {
    if 'A' <= c <= 'Z' then (c as int + 32) as char else c
  }

  function UpperChar(c: char): char {
    if 'a' <= c <= 'z' then (c as int - 32) as char else c
  }

  function CaseChar(c: char, upper: bool): char {
    if upper then UpperChar(c) else LowerChar(c)
  }

  /** ASCII case mapping of every character: upper case when `upper`, else lower case. */
  function CaseMap(s: string, upper: bool): (r: string)
    ensures |r| == |s|
    ensures forall i :: 0 <= i < |s| ==> r[i] == CaseChar(s[i], upper)
  {
    seq(|s|, i requires 0 <= i < |s| => CaseChar(s[i], upper))
  }

  /** `toLowerCase`, restricted to the ASCII letters. */
  function ToLower(s: string): string {
    CaseMap(s, false)
  }

  /** `toUpperCase`, restricted to the ASCII letters. */
  function ToUpper(s: string): string {
    CaseMap(s, true)
  }

  // Whitespace padding and letter case do not interact with trimming.

  /** Lower-casing forgets any earlier ASCII case mapping. */
  lemma LowerAfterCaseMap(s: string, upper: bool)
    ensures ToLower(CaseMap(s, upper)) == ToLower(s)
  {
    var m := CaseMap(s, upper);
    forall i | 0 <= i < |s|
      ensures ToLower(m)[i] == ToLower(s)[i]
    {
      assert LowerChar(CaseChar(s[i], upper)) == LowerChar(s[i]);
    }
  }

  lemma {:induction false} TrimStartDropsPadding(w: string, x: string)
    requires AllWhitespace(w)
    ensures TrimStart(w + x) == TrimStart(x)
  {
    if w != [] {
      assert (w + x)[0] == w[0] && IsWhitespace(w[0]);
      assert (w + x)[1..] == w[1..] + x;
      assert TrimStart(w + x) == TrimStart(w[1..] + x);
      TrimStartDropsPadding(w[1..], x);
    } else {
      assert w + x == x;
    }
  }

  lemma {:induction false} TrimEndDropsPadding(x: string, w: string)
    requires AllWhitespace(w)
    ensures TrimEnd(x + w) == TrimEnd(x)
  {
    if w != [] {
      assert (x + w)[..|x + w| - 1] == x + w[..|w| - 1];
      TrimEndDropsPadding(x, w[..|w| - 1]);
    } else {
      assert x + w == x;
    }
  }

  lemma {:induction false} TrimStartKeepsTail(x: string, w: string)
    requires AllWhitespace(w)
    ensures TrimEnd(TrimStart(x + w)) == TrimEnd(TrimStart(x))
  {
    if x == [] {
      assert x + w == w;
      TrimStartDropsPadding(w, []);
      assert w + [] == w;
    } else if IsWhitespace(x[0]) {
      assert (x + w)[1..] == x[1..] + w;
      TrimStartKeepsTail(x[1..], w);
    } else {
      TrimEndDropsPadding(x, w);
    }
  }

  /** Whitespace added around a string is removed again by `trim`. */
  lemma TrimPadded(s: string, before: string, after: string)
    requires AllWhitespace(before) && AllWhitespace(after)
    ensures Trim(before + s + after) == Trim(s)
  {
    assert before + s + after == before + (s + after);
    TrimStartDropsPadding(before, s + after);
    TrimStartKeepsTail(s, after);
  }

  lemma {:induction false} TrimStartCaseMap(s: string, upper: bool)
    ensures TrimStart(CaseMap(s, upper)) == CaseMap(TrimStart(s), upper)
  {
    if s != [] {
      var m := CaseMap(s, upper);
      assert m[1..] == CaseMap(s[1..], upper);
      assert IsWhitespace(m[0]) <==> IsWhitespace(s[0]);
      TrimStartCaseMap(s[1..], upper);
    }
  }

  lemma {:induction false} TrimEndCaseMap(s: string, upper: bool)
    ensures TrimEnd(CaseMap(s, upper)) == CaseMap(TrimEnd(s), upper)
  {
    if s != [] {
      var m := CaseMap(s, upper);
      assert m[..|s| - 1] == CaseMap(s[..|s| - 1], upper);
      assert IsWhitespace(m[|s| - 1]) <==> IsWhitespace(s[|s| - 1]);
      TrimEndCaseMap(s[..|s| - 1], upper);
    }
  }

  /** Changing the case of ASCII letters commutes with `trim`. */
  lemma TrimCaseMap(s: string, upper: bool)
    ensures Trim(CaseMap(s, upper)) == CaseMap(Trim(s), upper)
  {
    TrimStartCaseMap(s, upper);
    TrimEndCaseMap(TrimStart(s), upper);
  }

  /**
    A regular expression `/^p/i` with `p` written in lower case: ASCII letters
    match in either case and nothing else is folded.
  */
  predicate StartsWithIgnoringCase(s: string, p: string) {
    |s| >= |p| && ToLower(s[..|p|]) == p
  }

  /** A string whose first character, lower-cased, is not `p`'s first does not start with `p`. */
  lemma FirstCharMismatch(s: string, p: string)
    requires s != [] && p != [] && LowerChar(s[0]) != p[0]
    ensures !StartsWithIgnoringCase(s, p)
  {
    if |s| >= |p| {
      assert ToLower(s[..|p|])[0] == LowerChar(s[0]);
    }
  }

  /** The length of the first line of `s`: the index of its first line feed, or `|s|` if it has none. */
  function LineEnd(s: string): (k: nat)
    ensures k <= |s|
    ensures k < |s| ==> s[k] == '\n'
  {
    if s == [] || s[0] == '\n' then 0 else 1 + LineEnd(s[1..])
  }

  /** The first line holds no line feed. */
  lemma {:induction false} LineEndFirst(s: string)
    ensures forall i :: 0 <= i < LineEnd(s) ==> s[i] != '\n'
  {
    if s != [] && s[0] != '\n' {
      LineEndFirst(s[1..]);
    }
  }

  /** `s.split("\n")`: the first line, then the split of what follows its line feed. */
  function Split(s: string): (r: seq<string>)
    ensures |r| >= 1
    decreases |s|
  {
    var k := LineEnd(s);
    if k == |s| then [s] else [s[..k]] + Split(s[k + 1..])
  }

  /** A line with no line feed, a line feed, then the rest: the line comes out first. */
  lemma SplitLine(x: string, y: string)
    requires '\n' !in x
    ensures Split(x + "\n" + y) == [x] + Split(y)
  {
    var s := x + "\n" + y;
    var k := LineEnd(s);
    LineEndFirst(s);
    assert s[|x|] == '\n';
    assert s[..k] == x;
    assert s[k + 1..] == y;
  }

  /** A string with no line feed is one piece. */
  lemma SplitNoLineFeed(s: string)
    requires '\n' !in s
    ensures Split(s) == [s]
  {
    LineEndFirst(s);
  }

  /** No piece of a split holds a line feed. */
  lemma {:induction false} SplitPiecesHaveNoLineFeed(s: string)
    ensures forall i :: 0 <= i < |Split(s)| ==> '\n' !in Split(s)[i]
    decreases |s|
  {
    var k := LineEnd(s);
    LineEndFirst(s);
    if k < |s| {
      SplitPiecesHaveNoLineFeed(s[k + 1..]);
    }
  }

  /** `pieces.join("\n")`, the inverse of Split. */
  function Join(pieces: seq<string>): string {
    if pieces == [] then ""
    else if |pieces| == 1 then pieces[0]
    else pieces[0] + "\n" + Join(pieces[1..])
  }

  lemma {:induction false} JoinSplit(s: string)
    ensures Join(Split(s)) == s
    decreases |s|
  {
    var k := LineEnd(s);
    if k < |s| {
      var rest := Split(s[k + 1..]);
      JoinSplit(s[k + 1..]);
      assert Split(s) == [s[..k]] + rest;
      assert Join([s[..k]] + rest) == s[..k] + "\n" + Join(rest);
      assert s == s[..k] + "\n" + s[k + 1..];
    }
  }

  /** A text with a line feed splits into its first line and the split of the rest, also with more text after it. */
  lemma SplitFirstLine(x: string, y: string)
    requires LineEnd(x) < |x|
    ensures var k := LineEnd(x);
            && Split(x) == [x[..k]] + Split(x[k + 1..])
            && Split(x + "\n" + y) == [x[..k]] + Split(x[k + 1..] + "\n" + y)
  {
    var k := LineEnd(x);
    var x0, x1 := x[..k], x[k + 1..];
    LineEndFirst(x);
    assert x + "\n" + y == x0 + "\n" + (x1 + "\n" + y);
    SplitLine(x0, x1 + "\n" + y);
  }

  /** Splitting around a line feed splits each side separately. */
  lemma {:induction false} SplitConcat(x: string, y: string)
    ensures Split(x + "\n" + y) == Split(x) + Split(y)
    decreases |x|
  {
    var k := LineEnd(x);
    if k == |x| {
      LineEndFirst(x);
      SplitLine(x, y);
    } else {
      var x0, x1 := x[..k], x[k + 1..];
      calc {
        Split(x + "\n" + y);
        { SplitFirstLine(x, y); }
        [x0] + Split(x1 + "\n" + y);
        { SplitConcat(x1, y); }
        [x0] + (Split(x1) + Split(y));
        ([x0] + Split(x1)) + Split(y);
        { SplitFirstLine(x, y); }
        Split(x) + Split(y);
      }
    }
  }

  /** Joining lines that hold no line feed and splitting again gives the lines back. */
  lemma {:induction false} SplitJoin(pieces: seq<string>)
    requires pieces != []
    requires forall i :: 0 <= i < |pieces| ==> '\n' !in pieces[i]
    ensures Split(Join(pieces)) == pieces
  {
    if |pieces| == 1 {
      SplitNoLineFeed(pieces[0]);
    } else {
      SplitJoin(pieces[1..]);
      SplitLine(pieces[0], Join(pieces[1..]));
    }
  }

  /** Every line of a blank text is blank. */
  lemma {:induction false} SplitBlank(s: string)
    requires AllWhitespace(s)
    ensures forall i :: 0 <= i < |Split(s)| ==> AllWhitespace(Split(s)[i])
    decreases |s|
  {
    var k := LineEnd(s);
    if k < |s| {
      assert AllWhitespace(s[k + 1..]);
      SplitBlank(s[k + 1..]);
    }
  }

  /** A string that starts and ends with non-whitespace is its own trim. */
  lemma TrimUnpadded(s: string)
    requires s != [] && !IsWhitespace(s[0]) && !IsWhitespace(s[|s| - 1])
    ensures Trim(s) == s
  {
  }

  // ---------------------------------------------------------------------------
  // Numbers and their decimal text

  predicate IsDecimalDigit(c: char) { '0' <= c <= '9' }

  /** The value of `c` as a digit in base `radix` (10 or 16), if it is one. */
  function DigitValue(c: char, radix: nat): Option<nat> {
    if '0' <= c <= '9' then Some(c as nat - '0' as nat)
    else if radix == 16 && 'a' <= c <= 'f' then Some(c as nat - 'a' as nat + 10)
    else if radix == 16 && 'A' <= c <= 'F' then Some(c as nat - 'A' as nat + 10)
    else None
  }

  /** Length of the longest prefix of `s` made of digits in base `radix`. */
  function DigitRun(s: string, radix: nat): (n: nat)
    ensures n <= |s|
    ensures forall i :: 0 <= i < n ==> DigitValue(s[i], radix).Some?
    ensures n < |s| ==> DigitValue(s[n], radix).None?
  {
    if s == [] || DigitValue(s[0], radix).None? then 0 else 1 + DigitRun(s[1..], radix)
  }

  /** The value of a string of digits, most significant first. */
  function DigitsValue(s: string, radix: nat): nat
    requires forall i :: 0 <= i < |s| ==> DigitValue(s[i], radix).Some?
  {
    if s == [] then 0
    else DigitsValue(s[..|s| - 1], radix) * radix + DigitValue(s[|s| - 1], radix).value
  }

  /**
    The digits part of `parseInt`: an optional `0x`/`0X` prefix selecting base
    16, then the longest run of digits; `None` when there is no digit at all.
  */
  function ParseUnsigned(u: string): Option<nat> {
    var hex := |u| >= 2 && u[0] == '0' && (u[1] == 'x' || u[1] == 'X');
    var radix := if hex then 16 else 10;
    var digits := if hex then u[2..] else u;
    var n := DigitRun(digits, radix);
    if n == 0 then None else Some(DigitsValue(digits[..n], radix))
  }

  /**
    The global `parseInt(s)` with no radix argument: leading whitespace is
    skipped, then an optional sign, then the digits; `None` stands for `NaN`.
  */
  function ParseInt(s: string): Option<int> {
    var t := TrimStart(s);
    if t != [] && t[0] == '-' then
      match ParseUnsigned(t[1..])
      case None => None
      case Some(n) => var v: int := -(n as int); Some(v)
    else if t != [] && t[0] == '+' then
      match ParseUnsigned(t[1..])
      case None => None
      case Some(n) => Some(n)
    else
      match ParseUnsigned(t)
      case None => None
      case Some(n) => Some(n)
  }

  /** `String(n)` for a natural number: its decimal digits without leading zeros. */
  function NatToString(n: nat): (r: string)
    ensures |r| >= 1
    ensures forall i :: 0 <= i < |r| ==> IsDecimalDigit(r[i])
    ensures |r| > 1 ==> r[0] != '0'
  {
    if n < 10 then [('0' as int + n) as char]
    else NatToString(n / 10) + [('0' as int + n % 10) as char]
  }

  lemma {:induction false} NatToStringValue(n: nat)
    ensures forall i :: 0 <= i < |NatToString(n)| ==> DigitValue(NatToString(n)[i], 10).Some?
    ensures DigitsValue(NatToString(n), 10) == n
  {
    var r := NatToString(n);
    if n >= 10 {
      NatToStringValue(n / 10);
      assert r[..|r| - 1] == NatToString(n / 10);
    }
  }

  lemma ParseUnsignedDecimal(s: string)
    requires s != [] && forall i :: 0 <= i < |s| ==> IsDecimalDigit(s[i])
    ensures forall i :: 0 <= i < |s| ==> DigitValue(s[i], 10).Some?
    ensures ParseUnsigned(s) == Some(DigitsValue(s, 10))
  {
    assert !(|s| >= 2 && s[0] == '0' && (s[1] == 'x' || s[1] == 'X')) by {
      if |s| >= 2 { assert IsDecimalDigit(s[1]); }
    }
    var k := DigitRun(s, 10);
    assert k == |s|;
    assert s[..k] == s;
  }

  /** `parseInt(String(n))` gives `n` back. */
  lemma {:induction false} ParseIntNatToString(n: nat)
    ensures ParseInt(NatToString(n)) == Some(n)
  {
    var s := NatToString(n);
    NatToStringValue(n);
    assert IsDecimalDigit(s[0]);
    assert TrimStart(s) == s;
    ParseUnsignedDecimal(s);
  }

  /** `String(n).padStart(2, "0")`. */
  function Pad2(n: nat): (r: string)
    ensures |r| >= 2
    ensures forall i :: 0 <= i < |r| ==> IsDecimalDigit(r[i])
  {
    var s := NatToString(n);
    if |s| < 2 then "0" + s else s
  }

  lemma LeadingZeroValue(s: string)
    requires forall i :: 0 <= i < |s| ==> DigitValue(s[i], 10).Some?
    ensures forall i :: 0 <= i < |"0" + s| ==> DigitValue(("0" + s)[i], 10).Some?
    ensures DigitsValue("0" + s, 10) == DigitsValue(s, 10)
  {
    if s != [] {
      LeadingZeroValue(s[..|s| - 1]);
      assert ("0" + s)[..|s|] == "0" + s[..|s| - 1];
    }
  }

  /** `String(n)` has one digit below 10 and two from 10 to 99. */
  lemma NatToStringLength(n: nat)
    ensures |NatToString(n)| == 1 <==> n < 10
    ensures |NatToString(n)| == 2 <==> 10 <= n < 100
  {
    if n >= 10 {
      assert |NatToString(n)| == |NatToString(n / 10)| + 1;
      if n >= 100 {
        assert |NatToString(n / 10)| == |NatToString(n / 100)| + 1;
      }
    }
  }

  /** The padded field reads back as the number it displays, with exactly two digits below 100. */
  lemma Pad2Value(n: nat)
    ensures forall i :: 0 <= i < |Pad2(n)| ==> DigitValue(Pad2(n)[i], 10).Some?
    ensures DigitsValue(Pad2(n), 10) == n
    ensures n < 100 <==> |Pad2(n)| == 2
  {
    var s := NatToString(n);
    NatToStringValue(n);
    NatToStringLength(n);
    if |s| < 2 {
      LeadingZeroValue(s);
    }
  }

  // ---------------------------------------------------------------------------
  // String search

  predicate OccursAt(s: string, pat: string, i: nat) {
    i + |pat| <= |s| && s[i..i + |pat|] == pat
  }

  /** Index of the first occurrence of `pat` in `s`, if any. */
  function IndexOf(s: string, pat: string, from: nat := 0): (r: Option<nat>)
    requires from <= |s|
    ensures r.Some? ==> from <= r.value && OccursAt(s, pat, r.value)
    ensures forall k :: from <= k && (r.None? || k < r.value) ==> !OccursAt(s, pat, k)
    decreases |s| - from
  {
    if OccursAt(s, pat, from) then Some(from)
    else if from + |pat| >= |s| then
      assert forall k :: from < k ==> !OccursAt(s, pat, k);
      None
    else IndexOf(s, pat, from + 1)
  }

  /** `s.replace(pat, rep)` with a string pattern: only the first occurrence is replaced. */
  function ReplaceFirst(s: string, pat: string, rep: string): (r: string)
    ensures (forall k: nat :: !OccursAt(s, pat, k)) ==> r == s
    ensures forall i: nat :: OccursAt(s, pat, i) && (forall k: nat :: k < i ==> !OccursAt(s, pat, k)) ==>
      r == s[..i] + rep + s[i + |pat|..]
  {
    match IndexOf(s, pat)
    case None => s
    case Some(i) => s[..i] + rep + s[i + |pat|..]
  }
}
