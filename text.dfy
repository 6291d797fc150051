/**
 * Character classes, decimal numerals, substring search and joining: the few pieces of the C++ standard
 * library (`isspace`, `std::to_string`, `std::string::find`, `std::stoi`) that the bridge relies on.
 * Strings are sequences of `char`, one `char` per byte of the source's `std::string`.
 */
module Text {
  import opened Wrappers

  /** The characters `isspace` accepts in the C locale; `operator>>` and the regex class `\s` skip these. */
  predicate IsSpace(c: char) {
    c == ' ' || c == '\t' || c == '\n' || c == '\U{000B}' || c == '\U{000C}' || c == '\r'
  }

  predicate IsDigit(c: char) {
    '0' <= c <= '9'
  }

  /** A line terminator character: carriage return or line feed. */
  predicate IsBreak(c: char) {
    c == '\r' || c == '\n'
  }

  predicate AllDigits(s: string) {
    forall i :: 0 <= i < |s| ==> IsDigit(s[i])
  }

  function DigitChar(d: nat): (c: char)
    requires d < 10
    ensures IsDigit(c)
  {
    ('0' as int + d) as char
  }

  /** The decimal numeral of `n`, as `std::to_string` writes a non-negative value: digits only, no leading zero. */
  function NatToDecimal(n: nat): (s: string)
    ensures |s| > 0 && AllDigits(s)
    ensures n > 0 ==> s[0] != '0'
    decreases n
  {
    if n < 10 then [DigitChar(n)] else NatToDecimal(n / 10) + [DigitChar(n % 10)]
  }

  /** The number a string of decimal digits denotes (leading zeros allowed). */
  function DecimalValue(s: string): nat
    requires AllDigits(s)
    decreases |s|
  {
    if s == [] then 0 else DecimalValue(s[..|s| - 1]) * 10 + (s[|s| - 1] as int - '0' as int)
  }

  lemma {:induction false} DecimalRoundTrip(n: nat)
    ensures DecimalValue(NatToDecimal(n)) == n
    decreases n
  {
    if n >= 10 {
      var s := NatToDecimal(n);
      assert s[..|s| - 1] == NatToDecimal(n / 10);
      DecimalRoundTrip(n / 10);
    }
  }

  // ---------------------------------------------------------------------------------------------
  // Substring search, as std::string::find

  predicate OccursAt(s: string, pat: string, i: nat) {
    i + |pat| <= |s| && s[i..i + |pat|] == pat
  }

  /** The first index at or after `i` where `pat` occurs in `s`. */
  function FindFrom(s: string, pat: string, i: nat): (r: Option<nat>)
    ensures r.Some? ==> i <= r.value && OccursAt(s, pat, r.value)
    ensures r.Some? ==> forall j :: i <= j < r.value ==> !OccursAt(s, pat, j)
    ensures r.None? ==> forall j :: i <= j ==> !OccursAt(s, pat, j)
    decreases |s| - i
  {
    if i + |pat| > |s| then None
    else if s[i..i + |pat|] == pat then Some(i)
    else FindFrom(s, pat, i + 1)
  }

  /** `s.find(pat)`: the least index where `pat` occurs, or `None` for `npos`. */
  function Find(s: string, pat: string): (r: Option<nat>)
    ensures r.Some? ==> OccursAt(s, pat, r.value) && forall j :: 0 <= j < r.value ==> !OccursAt(s, pat, j)
    ensures r.None? <==> forall j :: 0 <= j ==> !OccursAt(s, pat, j)
  {
    FindFrom(s, pat, 0)
  }

  /** A search finds exactly the first occurrence. */
  lemma FindFirst(s: string, pat: string, k: nat)
    requires OccursAt(s, pat, k)
    requires forall j :: 0 <= j < k ==> !OccursAt(s, pat, j)
    ensures Find(s, pat) == Some(k)
  {
  }

  predicate Contains(s: string, pat: string) {
    Find(s, pat).Some?
  }

  // ---------------------------------------------------------------------------------------------
  // Joining, as the bridge's `join(vec, delimiter)`

  /** The elements of `xs` in order with `d` between neighbours; the empty sequence joins to "". */
  function Joined(xs: seq<string>, d: string): (r: string)
    ensures |xs| == 0 ==> r == ""
    ensures |xs| == 1 ==> r == xs[0]
    decreases |xs|
  {
    if |xs| == 0 then ""
    else if |xs| == 1 then xs[0]
    else Joined(xs[..|xs| - 1], d) + d + xs[|xs| - 1]
  }

  /** Joining distributes over concatenation: one delimiter at the seam. */
  lemma {:induction false} JoinedAppend(xs: seq<string>, ys: seq<string>, d: string)
    requires |xs| > 0 && |ys| > 0
    ensures Joined(xs + ys, d) == Joined(xs, d) + d + Joined(ys, d)
    decreases |ys|
  {
    var zs := xs + ys;
    if |ys| == 1 {
      assert zs[..|zs| - 1] == xs;
    } else {
      var ys' := ys[..|ys| - 1];
      assert zs[..|zs| - 1] == xs + ys';
      JoinedAppend(xs, ys', d);
    }
  }

  /** No leading delimiter: a joined sequence starts with its first element, then one delimiter. */
  lemma JoinedCons(x: string, ys: seq<string>, d: string)
    requires |ys| > 0
    ensures Joined([x] + ys, d) == x + d + Joined(ys, d)
  {
    JoinedAppend([x], ys, d);
  }

  /** No trailing delimiter: a joined sequence ends with its last element. */
  lemma JoinedSnoc(xs: seq<string>, y: string, d: string)
    requires |xs| > 0
    ensures Joined(xs + [y], d) == Joined(xs, d) + d + y
  {
    JoinedAppend(xs, [y], d);
  }

  /** Each element preceded by the delimiter: what `result += delimiter + vec[i]` appends for the later elements. */
  function Delimited(ys: seq<string>, d: string): string
    decreases |ys|
  {
    if |ys| == 0 then "" else d + ys[0] + Delimited(ys[1..], d)
  }

  lemma {:induction false} DelimitedSnoc(ys: seq<string>, y: string, d: string)
    ensures Delimited(ys + [y], d) == Delimited(ys, d) + d + y
    decreases |ys|
  {
    if |ys| == 0 {
      assert ([y])[1..] == [];
    } else {
      assert (ys + [y])[1..] == ys[1..] + [y];
      DelimitedSnoc(ys[1..], y, d);
    }
  }

  /**
   * Joining read from the front: the first element, then every later one after a delimiter; so a non-empty
   * join neither starts nor ends with a delimiter that has no element beside it.
   */
  lemma {:induction false} JoinedIsHeadThenDelimited(xs: seq<string>, d: string)
    requires |xs| > 0
    ensures Joined(xs, d) == xs[0] + Delimited(xs[1..], d)
    decreases |xs|
  {
    if |xs| == 1 {
      assert xs[1..] == [];
    } else {
      var init, y := xs[..|xs| - 1], xs[|xs| - 1];
      JoinedIsHeadThenDelimited(init, d);
      assert xs[1..] == init[1..] + [y];
      DelimitedSnoc(init[1..], y, d);
    }
  }

  function TotalLength(xs: seq<string>): nat
    decreases |xs|
  {
    if xs == [] then 0 else TotalLength(xs[..|xs| - 1]) + |xs[|xs| - 1]|
  }

  /** Exactly |xs| - 1 delimiters: the length is the elements' lengths plus that many delimiters. */
  lemma {:induction false} JoinedLength(xs: seq<string>, d: string)
    requires |xs| > 0
    ensures |Joined(xs, d)| == TotalLength(xs) + (|xs| - 1) * |d|
    decreases |xs|
  {
    if |xs| > 1 {
      JoinedLength(xs[..|xs| - 1], d);
      assert (|xs| - 1) * |d| == (|xs| - 2) * |d| + |d|;
    } else {
      assert xs[..0] == [];
    }
  }

  // ---------------------------------------------------------------------------------------------
  // Lines and the blank line that ends an HTTP header block

  const Crlf: string := "\r\n"
  const BlankLine: string := "\r\n\r\n"

  /** A non-empty line without line terminators. */
  predicate LineText(s: string) {
    |s| > 0 && '\r' !in s && '\n' !in s
  }

  predicate AllLines(lines: seq<string>) {
    forall k :: 0 <= k < |lines| ==> LineText(lines[k])
  }

  lemma BlankLineIsBreaks(k: nat)
    requires k < 4
    ensures IsBreak(BlankLine[k])
  {
  }

  /** Every character an occurrence of the blank line covers is a line terminator. */
  lemma BreakAt(t: string, i: nat, p: nat)
    requires OccursAt(t, BlankLine, i) && i <= p < i + 4
    ensures IsBreak(t[p])
  {
    assert t[p] == t[i..i + 4][p - i];
    BlankLineIsBreaks(p - i);
  }

  /** Lines joined with CRLF contain no blank line and do not end in a line terminator. */
  lemma {:induction false} LinesHaveNoBlankLine(lines: seq<string>)
    requires |lines| > 0 && AllLines(lines)
    ensures var t := Joined(lines, Crlf); |t| > 0 && !IsBreak(t[|t| - 1])
    ensures forall i :: !OccursAt(Joined(lines, Crlf), BlankLine, i)
    decreases |lines|
  {
    var t := Joined(lines, Crlf);
    if |lines| == 1 {
      assert t == lines[0];
      assert t[|t| - 1] in t;
      forall i: nat ensures !OccursAt(t, BlankLine, i) {
        if OccursAt(t, BlankLine, i) {
          BreakAt(t, i, i);
        }
      }
    } else {
      var init, x := lines[..|lines| - 1], lines[|lines| - 1];
      assert AllLines(init) by {
        forall k | 0 <= k < |init| ensures LineText(init[k]) { assert init[k] == lines[k]; }
      }
      assert LineText(x);
      LinesHaveNoBlankLine(init);
      var a := Joined(init, Crlf);
      assert t == a + Crlf + x;
      assert t[|t| - 1] == x[|x| - 1] && x[|x| - 1] in x;
      assert !IsBreak(t[|a| - 1]);
      assert t[|a| + 2] == x[0] && x[0] in x;
      forall i: nat ensures !OccursAt(t, BlankLine, i) {
        if OccursAt(t, BlankLine, i) {
          if i + 4 <= |a| {
            assert t[i..i + 4] == a[i..i + 4];
            assert OccursAt(a, BlankLine, i);
          } else if i < |a| {
            BreakAt(t, i, |a| - 1);
          } else if i <= |a| + 2 {
            BreakAt(t, i, |a| + 2);
          } else {
            BreakAt(t, i, i);
          }
        }
      }
    }
  }

  /**
   * In a message made of header lines, a blank line and a body, the first blank line is the one that ends
   * the headers, whatever the body holds.
   */
  lemma FirstBlankLineEndsHeaders(lines: seq<string>, body: string)
    requires |lines| > 0 && AllLines(lines)
    ensures Find(Joined(lines, Crlf) + BlankLine + body, BlankLine) == Some(|Joined(lines, Crlf)|)
  {
    var a := Joined(lines, Crlf);
    var s := a + BlankLine + body;
    LinesHaveNoBlankLine(lines);
    assert s[|a|..|a| + 4] == BlankLine;
    forall j | 0 <= j < |a| ensures !OccursAt(s, BlankLine, j) {
      if OccursAt(s, BlankLine, j) {
        if j + 4 <= |a| {
          assert s[j..j + 4] == a[j..j + 4];
          assert OccursAt(a, BlankLine, j);
        } else {
          assert s[|a| - 1] == a[|a| - 1];
          assert s[|a| - 1] == BlankLine[|a| - 1 - j];
          BlankLineIsBreaks(|a| - 1 - j);
        }
      }
    }
    FindFirst(s, BlankLine, |a|);
  }

  // ---------------------------------------------------------------------------------------------
  // Whitespace-delimited words

  /** `s` without its leading whitespace. */
  function DropSpaces(s: string): (r: string)
    ensures |r| <= |s| && r == s[|s| - |r|..]
    ensures r == [] || !IsSpace(r[0])
    ensures forall i :: 0 <= i < |s| - |r| ==> IsSpace(s[i])
  {
    if |s| > 0 && IsSpace(s[0]) then DropSpaces(s[1..]) else s
  }

  /** The length of the run of non-whitespace characters `s` starts with. */
  function WordLength(s: string): (n: nat)
    ensures n <= |s|
    ensures forall i :: 0 <= i < n ==> !IsSpace(s[i])
    ensures n == |s| || IsSpace(s[n])
  {
    if |s| > 0 && !IsSpace(s[0]) then 1 + WordLength(s[1..]) else 0
  }

  /** The length of the run of decimal digits `s` starts with. */
  function DigitLength(s: string): (n: nat)
    ensures n <= |s| && AllDigits(s[..n])
    ensures n == |s| || !IsDigit(s[n])
  {
    if |s| > 0 && IsDigit(s[0]) then
      assert AllDigits(s[1..][..DigitLength(s[1..])]);
      assert s[..1 + DigitLength(s[1..])] == [s[0]] + s[1..][..DigitLength(s[1..])];
      1 + DigitLength(s[1..])
    else 0
  }

  lemma {:induction false} DigitLengthOfNumeral(d: string, rest: string)
    requires AllDigits(d)
    requires rest == [] || !IsDigit(rest[0])
    ensures DigitLength(d + rest) == |d|
    decreases |d|
  {
    if d != [] {
      assert (d + rest)[1..] == d[1..] + rest;
      DigitLengthOfNumeral(d[1..], rest);
    }
  }

  // ---------------------------------------------------------------------------------------------
  // std::stoi

  const IntMin: int := -0x8000_0000
  const IntMax: int := 0x7FFF_FFFF

  /** The exceptions `std::stoi` throws: no conversion possible, or the value does not fit an `int`. */
  datatype StdException = InvalidArgument | OutOfRange

  /** The optional-sign-stripped rest of `std::stoi`'s input: the longest run of digits, then the range check. */
  function SignedValue(negative: bool, u: string): (r: Result<int, StdException>)
    ensures r.Success? ==> IntMin <= r.value <= IntMax
  {
    var n := DigitLength(u);
    if n == 0 then Failure(InvalidArgument)
    else
      var magnitude: int := DecimalValue(u[..n]);
      var v: int := if negative then -magnitude else magnitude;
      if IntMin <= v <= IntMax then Success(v) else Failure(OutOfRange)
  }

  /**
   * `std::stoi(s)`: skip leading whitespace, read an optional sign and the longest run of decimal digits,
   * ignore whatever follows; no digits throws `invalid_argument`, a value outside the 32-bit `int` range
   * throws `out_of_range`.
   */
  function Stoi(s: string): (r: Result<int, StdException>)
    ensures r.Success? ==> IntMin <= r.value <= IntMax
  {
    var t := DropSpaces(s);
    if |t| > 0 && t[0] == '-' then SignedValue(true, t[1..])
    else if |t| > 0 && t[0] == '+' then SignedValue(false, t[1..])
    else SignedValue(false, t)
  }

  lemma SignedValueOfNumeral(negative: bool, n: nat, rest: string)
    requires rest == [] || !IsDigit(rest[0])
    ensures var v: int := if negative then -(n as int) else n;
      SignedValue(negative, NatToDecimal(n) + rest) == if IntMin <= v <= IntMax then Success(v) else Failure(OutOfRange)
  {
    var d := NatToDecimal(n);
    DigitLengthOfNumeral(d, rest);
    assert (d + rest)[..|d|] == d;
    DecimalRoundTrip(n);
  }

  /** Text that starts with neither whitespace nor a sign is read as an unsigned numeral. */
  lemma StoiUnsigned(s: string)
    requires s == [] || (!IsSpace(s[0]) && s[0] != '-' && s[0] != '+')
    ensures Stoi(s) == SignedValue(false, s)
  {
    assert DropSpaces(s) == s;
  }

  /** Text that starts with a minus sign is read as a negated numeral. */
  lemma StoiNegative(s: string)
    requires |s| > 0 && s[0] == '-'
    ensures Stoi(s) == SignedValue(true, s[1..])
  {
    assert DropSpaces(s) == s;
  }

  /** A numeral followed by anything that is not a digit parses to its value: "12abc" gives 12. */
  lemma StoiReadsNumeralPrefix(n: nat, rest: string)
    requires n <= IntMax
    requires rest == [] || !IsDigit(rest[0])
    ensures Stoi(NatToDecimal(n) + rest) == Success(n)
  {
    var d := NatToDecimal(n);
    assert (d + rest)[0] == d[0];
    StoiUnsigned(d + rest);
    SignedValueOfNumeral(false, n, rest);
  }

  /** With a minus sign the value is negated, down to the smallest `int`. */
  lemma StoiReadsNegativeNumeral(n: nat, rest: string)
    requires n <= -IntMin
    requires rest == [] || !IsDigit(rest[0])
    ensures Stoi("-" + NatToDecimal(n) + rest) == Success(-(n as int))
  {
    var d := NatToDecimal(n);
    var s := "-" + d + rest;
    assert s == "-" + (d + rest);
    StoiNegative(s);
    assert s[1..] == d + rest;
    SignedValueOfNumeral(true, n, rest);
    assert SignedValue(true, d + rest) == Success(-(n as int));
  }

  /** Text whose first non-blank character is neither a sign nor a digit throws `invalid_argument`. */
  lemma StoiRejectsNonNumeric(s: string)
    requires var t := DropSpaces(s); t == [] || (!IsDigit(t[0]) && t[0] != '-' && t[0] != '+')
    ensures Stoi(s) == Failure(InvalidArgument)
  {
  }

  /** A numeral too large for an `int` throws `out_of_range` instead of wrapping around. */
  lemma StoiRejectsOverflow(n: nat)
    requires n > IntMax
    ensures Stoi(NatToDecimal(n)) == Failure(OutOfRange)
  {
    var d := NatToDecimal(n);
    StoiUnsigned(d);
    assert d + [] == d;
    SignedValueOfNumeral(false, n, []);
  }
}
