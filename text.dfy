/**
 * The few pieces of Python's text handling the core relies on: `str.split()`
 * with no argument, `int()` on one token, `str()` of an integer, and
 * `file.readlines()`. Each comes with the inverse it is meant to undo.
 */
module Text {
  import opened Errors

  /** The characters for which Python's `str.isspace()` holds: what `split()` cuts on. */
  predicate IsSpace(c: char) {
    || c == ' '
    || '\t' <= c <= '\r'
    || '\U{1c}' <= c <= '\U{1f}'
    || c == '\U{85}' || c == '\U{a0}' || c == '\U{1680}'
    || '\U{2000}' <= c <= '\U{200a}'
    || c == '\U{2028}' || c == '\U{2029}' || c == '\U{202f}' || c == '\U{205f}' || c == '\U{3000}'
  }

  predicate AllSpace(s: string) {
    forall i :: 0 <= i < |s| ==> IsSpace(s[i])
  }

  /** A token `split()` can produce: non-empty and free of whitespace. */
  predicate IsWord(w: string) {
    |w| > 0 && forall i :: 0 <= i < |w| ==> !IsSpace(w[i])
  }

  /** Length of the whitespace-free prefix of `s`. */
  function WordLength(s: string): (n: nat)
    ensures n <= |s|
    ensures forall i :: 0 <= i < n ==> !IsSpace(s[i])
    ensures n < |s| ==> IsSpace(s[n])
  {
    if s == [] || IsSpace(s[0]) then 0 else 1 + WordLength(s[1..])
  }

  /** `s.split()`: the maximal runs of non-whitespace characters, in order. */
  function Split(s: string): (words: seq<string>)
    ensures forall k :: 0 <= k < |words| ==> IsWord(words[k])
    ensures |words| == 0 <==> AllSpace(s)
    decreases |s|
  {
    if s == [] then []
    else if IsSpace(s[0]) then Split(s[1..])
    else
      var n := WordLength(s);
      [s[..n]] + Split(s[n..])
  }

  /** `" ".join(words)` */
  function Join(words: seq<string>): string {
    if words == [] then ""
    else if |words| == 1 then words[0]
    else words[0] + " " + Join(words[1..])
  }

  lemma WordLengthOfWord(w: string, rest: string)
    requires IsWord(w)
    requires rest == [] || IsSpace(rest[0])
    ensures WordLength(w + rest) == |w|
  {
    var s := w + rest;
    assert forall i :: 0 <= i < |w| ==> s[i] == w[i];
    assert |w| < |s| ==> s[|w|] == rest[0];
  }

  /** A word followed by whitespace or the end splits off as the first token. */
  lemma SplitWord(w: string, rest: string)
    requires IsWord(w)
    requires rest == [] || IsSpace(rest[0])
    ensures Split(w + rest) == [w] + Split(rest)
  {
    var s := w + rest;
    WordLengthOfWord(w, rest);
    assert s[..|w|] == w;
    assert s[|w|..] == rest;
  }

  /** Splitting words joined by single spaces, followed by any whitespace, gives the words back. */
  lemma {:induction false} SplitJoin(words: seq<string>, tail: string)
    requires forall k :: 0 <= k < |words| ==> IsWord(words[k])
    requires AllSpace(tail)
    ensures Split(Join(words) + tail) == words
  {
    if words == [] {
      assert Join(words) + tail == tail;
    } else if |words| == 1 {
      SplitWord(words[0], tail);
    } else {
      var more := Join(words[1..]) + tail;
      var rest := " " + more;
      assert Join(words) + tail == words[0] + rest;
      SplitWord(words[0], rest);
      assert rest[1..] == more;
      SplitJoin(words[1..], tail);
    }
  }

  predicate IsDigit(c: char) {
    '0' <= c <= '9'
  }

  predicate AllDigits(s: string) {
    forall i :: 0 <= i < |s| ==> IsDigit(s[i])
  }

  /** The value of a string of decimal digits (0 for the empty string). */
  function DigitsValue(s: string): nat
    requires AllDigits(s)
  {
    if s == [] then 0 else 10 * DigitsValue(s[..|s| - 1]) + (s[|s| - 1] as int - '0' as int)
  }

  /** `int(token)` for a token `split()` produced: an optional sign, then at least one decimal digit. */
  function ParseInt(token: string): Option<int> {
    if |token| > 1 && (token[0] == '-' || token[0] == '+') && AllDigits(token[1..]) then
      var magnitude: int := DigitsValue(token[1..]);
      Some(if token[0] == '-' then -magnitude else magnitude)
    else if |token| > 0 && AllDigits(token) then
      Some(DigitsValue(token))
    else
      None
  }

  /**
   * `int` reads a number only from a token that ends in a digit, reads a negative number
   * only after a minus sign, and reads a plain string of digits as their decimal value.
   */
  lemma ParseIntReads(token: string)
    ensures ParseInt(token).Some? ==> |token| > 0 && IsDigit(token[|token| - 1])
    ensures ParseInt(token).Some? && ParseInt(token).value < 0 ==> token[0] == '-'
    ensures |token| > 0 && AllDigits(token) ==> ParseInt(token) == Some(DigitsValue(token))
  {
  }

  function DigitChar(d: nat): (c: char)
    requires d < 10
    ensures IsDigit(c) && c as int - '0' as int == d
  {
    ('0' as int + d) as char
  }

  /** `str(n)` for a natural number: its decimal digits, most significant first. */
  function NatToString(n: nat): (s: string)
    ensures |s| > 0 && AllDigits(s)
    ensures DigitsValue(s) == n
  {
    if n < 10 then
      [DigitChar(n)]
    else
      var t := NatToString(n / 10);
      var s := t + [DigitChar(n % 10)];
      assert s[..|s| - 1] == t;
      s
  }

  /** `str(i)`: a minus sign for a negative number, then the digits of its magnitude. */
  function IntToString(i: int): (s: string)
    ensures IsWord(s)
    ensures forall k :: 0 <= k < |s| ==> s[k] == '-' || IsDigit(s[k])
    ensures ParseInt(s) == Some(i)
  {
    if i < 0 then
      var s := "-" + NatToString(-i);
      assert s[1..] == NatToString(-i);
      s
    else
      NatToString(i)
  }

  /** Length of the first line of `text`, its newline included when there is one. */
  function LineLength(text: string): (n: nat)
    requires |text| > 0
    ensures 0 < n <= |text|
    ensures forall i :: 0 <= i < n - 1 ==> text[i] != '\n'
    ensures n < |text| ==> text[n - 1] == '\n'
  {
    if text[0] == '\n' || |text| == 1 then 1 else 1 + LineLength(text[1..])
  }

  /** `f.readlines()`: the text cut after every newline; only the last line may lack one. */
  function ReadLines(text: string): (lines: seq<string>)
    ensures |lines| == 0 <==> |text| == 0
    decreases |text|
  {
    if text == [] then []
    else
      var n := LineLength(text);
      [text[..n]] + ReadLines(text[n..])
  }

  /** One newline-terminated line. */
  predicate IsLine(line: string) {
    && |line| > 0
    && line[|line| - 1] == '\n'
    && forall i :: 0 <= i < |line| - 1 ==> line[i] != '\n'
  }

  function Concat(lines: seq<string>): string {
    if lines == [] then "" else lines[0] + Concat(lines[1..])
  }

  lemma LineLengthOfLine(line: string, rest: string)
    requires IsLine(line)
    ensures LineLength(line + rest) == |line|
  {
    var s := line + rest;
    assert forall i :: 0 <= i < |line| ==> s[i] == line[i];
  }

  /** Writing newline-terminated lines one after another and reading them back gives the same lines. */
  lemma {:induction false} ReadLinesConcat(lines: seq<string>)
    requires forall k :: 0 <= k < |lines| ==> IsLine(lines[k])
    ensures ReadLines(Concat(lines)) == lines
  {
    if lines != [] {
      var s := Concat(lines);
      var rest := Concat(lines[1..]);
      assert s == lines[0] + rest;
      LineLengthOfLine(lines[0], rest);
      assert s[..|lines[0]|] == lines[0];
      assert s[|lines[0]|..] == rest;
      ReadLinesConcat(lines[1..]);
    }
  }
}
