/**
 The parts of Go's `strings`, `strconv` and `bufio` packages that the operator leans on,
 over ASCII text, together with the round trips the other modules need.
 */
module Text {
  import opened Wrappers

  const MAX_INT32 := 0x7FFF_FFFF
  const MIN_INT32 := -0x8000_0000
  const MAX_INT64 := 0x7FFF_FFFF_FFFF_FFFF
  const MIN_INT64 := -0x8000_0000_0000_0000

  // ----- decimal numbers

  function Digit(d: nat): (c: char)
    requires d < 10
    ensures '0' <= c <= '9'
  {
    '0' + d as char
  }

  /** `strconv.Itoa` for the non-negative numbers the operator prints. */
  function Itoa(n: nat): (s: string)
    ensures |s| > 0 && forall i :: 0 <= i < |s| ==> '0' <= s[i] <= '9'
  {
    if n < 10 then [Digit(n)] else Itoa(n / 10) + [Digit(n % 10)]
  }

  function ParseDigits(s: string): Option<nat> {
    if s == "" || !('0' <= s[|s| - 1] <= '9') then None
    else
      var last := (s[|s| - 1] - '0') as nat;
      if |s| == 1 then Some(last)
      else
        match ParseDigits(s[..|s| - 1])
        case None => None
        case Some(high) => Some(10 * high + last)
  }

  /** The syntax half of `strconv.ParseInt(s, 10, _)`: an optional sign, then digits only. */
  function ParseDecimal(s: string): Option<int> {
    if s == "" then None
    else if s[0] == '+' || s[0] == '-' then
      match ParseDigits(s[1..])
      case None => None
      case Some(n) => if s[0] == '-' then Some(0 - n as int) else Some(n)
    else
      match ParseDigits(s)
      case None => None
      case Some(n) => Some(n)
  }

  /** `strconv.Atoi`: also fails when the number does not fit a Go int. */
  function Atoi(s: string): Option<int> {
    match ParseDecimal(s)
    case None => None
    case Some(n) => if MIN_INT64 <= n <= MAX_INT64 then Some(n) else None
  }

  /** The value half of `strconv.ParseInt(s, 10, 32)`: 0 on a syntax error, the nearest bound on a range error. */
  function ParseInt32(s: string): int {
    match ParseDecimal(s)
    case None => 0
    case Some(n) => if n < MIN_INT32 then MIN_INT32 else if n > MAX_INT32 then MAX_INT32 else n
  }

  lemma {:induction false} ParseDigitsItoa(n: nat)
    ensures ParseDigits(Itoa(n)) == Some(n)
  {
    if n >= 10 {
      ParseDigitsItoa(n / 10);
      assert Itoa(n)[..|Itoa(n)| - 1] == Itoa(n / 10);
    }
  }

  lemma ParseItoa(n: nat)
    ensures ParseDecimal(Itoa(n)) == Some(n)
    ensures n <= MAX_INT32 ==> ParseInt32(Itoa(n)) == n
    ensures n <= MAX_INT64 ==> Atoi(Itoa(n)) == Some(n)
  {
    ParseDigitsItoa(n);
    assert '0' <= Itoa(n)[0] <= '9';
  }

  lemma ItoaInjective(m: nat, n: nat)
    requires Itoa(m) == Itoa(n)
    ensures m == n
  {
    ParseItoa(m);
    ParseItoa(n);
  }

  // ----- booleans

  /** `strconv.ParseBool`. */
  function ParseBool(s: string): Option<bool> {
    if s in {"1", "t", "T", "TRUE", "true", "True"} then Some(true)
    else if s in {"0", "f", "F", "FALSE", "false", "False"} then Some(false)
    else None
  }

  /** `fmt.Sprintf("%v", b)`. */
  function FormatBool(b: bool): string {
    if b then "true" else "false"
  }

  // ----- case and white space

  function LowerChar(c: char): char {
    if 'A' <= c <= 'Z' then c + 32 as char else c
  }

  function ToLower(s: string): (r: string)
    ensures |r| == |s| && forall i :: 0 <= i < |s| ==> r[i] == LowerChar(s[i])
  {
    if s == "" then "" else [LowerChar(s[0])] + ToLower(s[1..])
  }

  /** Text without upper-case letters is its own lower case. */
  lemma LowerIdentity(s: string)
    requires forall i :: 0 <= i < |s| ==> !('A' <= s[i] <= 'Z')
    ensures ToLower(s) == s
  {
  }

  /** Lower case, letter by letter. */
  lemma LowerIs(s: string, t: string)
    requires |s| == |t| && forall i :: 0 <= i < |s| ==> LowerChar(s[i]) == t[i]
    ensures ToLower(s) == t
  {
  }

  predicate IsSpace(c: char) {
    c == ' ' || ('\t' <= c <= '\r')
  }

  function TrimLeftSpace(s: string): string {
    if s != "" && IsSpace(s[0]) then TrimLeftSpace(s[1..]) else s
  }

  function TrimRightSpace(s: string): string {
    if s != "" && IsSpace(s[|s| - 1]) then TrimRightSpace(s[..|s| - 1]) else s
  }

  /** `strings.TrimSpace`. */
  function TrimSpace(s: string): string {
    TrimRightSpace(TrimLeftSpace(s))
  }

  /** `strings.TrimLeft(s, ";#")`. */
  function TrimCommentMarks(s: string): string {
    if s != "" && (s[0] == ';' || s[0] == '#') then TrimCommentMarks(s[1..]) else s
  }

  // ----- splitting

  /** The first position of `c` in `s`, or `|s|`. */
  function IndexOf(s: string, c: char): (i: nat)
    ensures i <= |s|
    ensures i < |s| ==> s[i] == c
    ensures forall j :: 0 <= j < i ==> s[j] != c
  {
    if s == "" || s[0] == c then 0 else 1 + IndexOf(s[1..], c)
  }

  lemma IndexOfConcat(a: string, c: char, b: string)
    requires c !in a
    ensures IndexOf(a + [c] + b, c) == |a|
  {
    var s := a + [c] + b;
    assert s[|a|] == c;
    assert forall j :: 0 <= j < |a| ==> s[j] == a[j] && a[j] in a;
  }

  /** `strings.Split` with a one-character separator. */
  function Split(s: string, c: char): (parts: seq<string>)
    ensures |parts| > 0
    decreases |s|
  {
    var i := IndexOf(s, c);
    if i == |s| then [s] else [s[..i]] + Split(s[i + 1..], c)
  }

  lemma SplitCons(a: string, c: char, b: string)
    requires c !in a
    ensures Split(a + [c] + b, c) == [a] + Split(b, c)
  {
    IndexOfConcat(a, c, b);
    var s := a + [c] + b;
    assert s[..|a|] == a && s[|a| + 1..] == b;
  }

  lemma SplitOne(a: string, c: char)
    requires c !in a
    ensures Split(a, c) == [a]
  {
    assert forall j :: 0 <= j < |a| ==> a[j] in a;
    assert IndexOf(a, c) == |a|;
  }

  function DropCR(s: string): string {
    if s != "" && s[|s| - 1] == '\r' then s[..|s| - 1] else s
  }

  /** The raw tokens of `bufio.ScanLines`, the carriage return still attached. */
  function RawLines(text: string): seq<string>
    decreases |text|
  {
    if text == "" then []
    else
      var i := IndexOf(text, '\n');
      if i == |text| then [text] else [text[..i]] + RawLines(text[i + 1..])
  }

  function Unlines(lines: seq<string>): string {
    if lines == [] then "" else lines[0] + "\n" + Unlines(lines[1..])
  }

  lemma RawLinesCons(a: string, b: string)
    requires '\n' !in a
    ensures RawLines(a + ['\n'] + b) == [a] + RawLines(b)
  {
    IndexOfConcat(a, '\n', b);
    var s := a + ['\n'] + b;
    assert s[..|a|] == a && s[|a| + 1..] == b;
  }

  lemma ConcatAssociates(a: string, b: string, c: string, d: string)
    ensures (a + b + c) + d == a + b + (c + d)
  {
  }

  /** Complete lines followed by any text scan to the same lines followed by the lines of that text. */
  lemma {:induction false} RawLinesAppend(lines: seq<string>, text: string)
    requires forall i :: 0 <= i < |lines| ==> '\n' !in lines[i]
    ensures RawLines(Unlines(lines) + text) == lines + RawLines(text)
  {
    if lines == [] {
      assert Unlines(lines) + text == text;
    } else {
      var a, b := lines[0], Unlines(lines[1..]) + text;
      calc {
        RawLines(Unlines(lines) + text);
        { ConcatAssociates(a, "\n", Unlines(lines[1..]), text); }
        RawLines(a + "\n" + b);
        { RawLinesCons(a, b); }
        [a] + RawLines(b);
        { RawLinesAppend(lines[1..], text); }
        [a] + (lines[1..] + RawLines(text));
        lines + RawLines(text);
      }
    }
  }

  lemma RawLinesUnlines(lines: seq<string>)
    requires forall i :: 0 <= i < |lines| ==> '\n' !in lines[i]
    ensures RawLines(Unlines(lines)) == lines
  {
    RawLinesAppend(lines, "");
    assert Unlines(lines) + "" == Unlines(lines);
    assert lines + [] == lines;
  }

  lemma {:induction false} UnlinesConcat(a: seq<string>, b: seq<string>)
    ensures Unlines(a + b) == Unlines(a) + Unlines(b)
  {
    if a == [] {
      assert a + b == b;
    } else {
      assert (a + b)[0] == a[0] && (a + b)[1..] == a[1..] + b;
      UnlinesConcat(a[1..], b);
    }
  }
}
