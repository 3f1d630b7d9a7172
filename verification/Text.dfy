/** The small text tools shared by the SIP and SDP parsers. A string is a string of bytes, one `char` each. */
module Text {
  import opened Prelude

  predicate Blank(c: char) { c == ' ' || c == '\t' }

  predicate BlankOrCr(c: char) { Blank(c) || c == '\r' }

  function SkipLeft(s: string): string {
    if s != "" && Blank(s[0]) then SkipLeft(s[1..]) else s
  }

  function SkipRight(s: string): string {
    if s != "" && BlankOrCr(s[|s| - 1]) then SkipRight(s[..|s| - 1]) else s
  }

  /** The text without blanks in front, and without blanks and carriage returns behind. */
  function Trimmed(s: string): string { SkipRight(SkipLeft(s)) }

  /** Nothing to trim. */
  predicate Neat(s: string) {
    s == "" || (!Blank(s[0]) && !BlankOrCr(s[|s| - 1]))
  }

  lemma {:induction false} SkipLeftSplits(s: string) returns (k: nat)
    ensures k <= |s| && s[k..] == SkipLeft(s) && (forall i :: 0 <= i < k ==> Blank(s[i]))
    ensures SkipLeft(s) == "" || !Blank(SkipLeft(s)[0])
    decreases |s|
  {
    if s != "" && Blank(s[0]) {
      var j := SkipLeftSplits(s[1..]);
      k := j + 1;
      assert s[k..] == s[1..][j..];
      assert forall i :: 1 <= i < k ==> s[i] == s[1..][i - 1];
    } else {
      k := 0;
    }
  }

  lemma {:induction false} SkipRightSplits(s: string)
    ensures SkipRight(s) <= s && (forall i :: |SkipRight(s)| <= i < |s| ==> BlankOrCr(s[i]))
    ensures SkipRight(s) == "" || !BlankOrCr(SkipRight(s)[|SkipRight(s)| - 1])
    decreases |s|
  {
    if s != "" && BlankOrCr(s[|s| - 1]) {
      SkipRightSplits(s[..|s| - 1]);
    }
  }

  /** Trimming takes away blanks at both ends and nothing else, and leaves nothing to trim. */
  lemma TrimmedMeaning(s: string) returns (left: nat, right: nat)
    ensures left <= right <= |s| && Trimmed(s) == s[left..right] && Neat(Trimmed(s))
    ensures (forall i :: 0 <= i < left ==> Blank(s[i])) && (forall i :: right <= i < |s| ==> BlankOrCr(s[i]))
  {
    left := SkipLeftSplits(s);
    var t := SkipLeft(s);
    SkipRightSplits(t);
    right := left + |Trimmed(s)|;
    assert Trimmed(s) == t[..|Trimmed(s)|] == s[left..right];
    forall i | right <= i < |s| ensures BlankOrCr(s[i]) {
      assert s[i] == t[i - left];
    }
  }

  lemma NeatStays(s: string)
    requires Neat(s)
    ensures Trimmed(s) == s
  {
  }

  /** A blank in front makes no difference. */
  lemma TrimmedAfterBlank(s: string)
    ensures Trimmed(" " + s) == Trimmed(s)
  {
    assert (" " + s)[1..] == s;
  }

  method Trim(s: string) returns (r: string)
    ensures r == Trimmed(s)
  {
    r := s;
    while r != "" && Blank(r[0])
      invariant SkipLeft(r) == SkipLeft(s)
      decreases |r|
    {
      r := r[1..];
    }
    while r != "" && BlankOrCr(r[|r| - 1])
      invariant SkipRight(r) == Trimmed(s)
      decreases |r|
    {
      r := r[..|r| - 1];
    }
  }

  // ---- Case ----

  function Lower(c: char): char {
    if 'A' <= c <= 'Z' then c - 'A' + 'a' else c
  }

  function Lowercased(s: string): string {
    seq(|s|, i requires 0 <= i < |s| => Lower(s[i]))
  }

  method Lowercase(s: string) returns (r: string)
    ensures r == Lowercased(s)
  {
    r := "";
    var i := 0;
    while i < |s|
      invariant 0 <= i <= |s| && r == Lowercased(s)[..i]
    {
      r := r + [Lower(s[i])];
      i := i + 1;
    }
  }

  // ---- Searching ----

  /** Where the character first occurs; the length of the text if it does not. */
  function Find(s: string, c: char): (i: nat)
    ensures i <= |s| && (i < |s| ==> s[i] == c) && (forall j :: 0 <= j < i ==> s[j] != c)
  {
    if s == "" || s[0] == c then 0 else 1 + Find(s[1..], c)
  }

  lemma FindIs(s: string, c: char, i: nat)
    requires i <= |s| && (i < |s| ==> s[i] == c) && (forall j :: 0 <= j < i ==> s[j] != c)
    ensures Find(s, c) == i
  {
  }

  /** A word is found again in front of a space. */
  lemma FirstWord(word: string, rest: string)
    requires ' ' !in word
    ensures var s := word + " " + rest;
            |word| < |s| && Find(s, ' ') == |word| && s[..|word|] == word && s[|word| + 1..] == rest
  {
    var s := word + " " + rest;
    FindIs(s, ' ', |word|);
  }

  /** `mark` stands at `i`. */
  predicate At(s: string, mark: string, i: nat) {
    i + |mark| <= |s| && s[i..i + |mark|] == mark
  }

  /** Where `mark` first occurs at or after `from`, if it does. */
  function FindFrom(s: string, mark: string, from: nat): (r: Option<nat>)
    requires from <= |s|
    ensures r.Some? ==> from <= r.value && At(s, mark, r.value) && (forall j :: from <= j < r.value ==> !At(s, mark, j))
    ensures r.None? ==> forall j :: from <= j ==> !At(s, mark, j)
    decreases |s| - from
  {
    if At(s, mark, from) then Some(from)
    else if from == |s| then None
    else FindFrom(s, mark, from + 1)
  }

  /** Where `mark` first occurs, if it does. */
  function FindText(s: string, mark: string): (r: Option<nat>)
    ensures r.Some? ==> At(s, mark, r.value) && (forall j :: 0 <= j < r.value ==> !At(s, mark, j))
    ensures r.None? ==> forall j: nat :: !At(s, mark, j)
  {
    FindFrom(s, mark, 0)
  }

  predicate Without(s: string, chars: set<char>) {
    forall i :: 0 <= i < |s| ==> s[i] !in chars
  }

  // ---- Lines ----

  predicate NoBreak(s: string) {
    forall i :: 0 <= i < |s| ==> s[i] != '\r' && s[i] != '\n'
  }

  function StripCr(s: string): string {
    if s != "" && s[|s| - 1] == '\r' then s[..|s| - 1] else s
  }

  /** The lines of a text; each ends with LF or CRLF, the last one also at the end of the text. */
  function Lines(s: string): seq<string>
    decreases |s|
  {
    if s == "" then []
    else
      var end := Find(s, '\n');
      if end == |s| then [StripCr(s)] else [StripCr(s[..end])] + Lines(s[end + 1..])
  }

  /** Takes the first line off a text. */
  method CutLine(text: string) returns (line: string, rest: string)
    requires text != ""
    ensures Lines(text) == [line] + Lines(rest) && |rest| < |text|
  {
    var end := Find(text, '\n');
    line := text[..end];
    if line != "" && line[|line| - 1] == '\r' {
      line := line[..|line| - 1];
    }
    if end == |text| {
      assert text[..end] == text;
      return line, "";
    }
    rest := text[end + 1..];
  }

  method SplitLines(s: string) returns (lines: seq<string>)
    ensures lines == Lines(s)
  {
    lines := [];
    var text := s;
    while text != ""
      invariant lines + Lines(text) == Lines(s)
      decreases |text|
    {
      var line, rest := CutLine(text);
      Associative(lines, [line], Lines(rest));
      lines := lines + [line];
      text := rest;
    }
  }

  /** Lines with CRLF between them. */
  function Join(lines: seq<string>): string {
    if lines == [] then ""
    else if |lines| == 1 then lines[0]
    else lines[0] + "\r\n" + Join(lines[1..])
  }

  predicate AllNoBreak(lines: seq<string>) {
    forall i :: 0 <= i < |lines| ==> NoBreak(lines[i])
  }

  lemma FirstLine(line: string, rest: string)
    requires NoBreak(line)
    ensures Lines(line + "\r\n" + rest) == [line] + Lines(rest)
  {
    var s := line + "\r\n" + rest;
    FindIs(s, '\n', |line| + 1);
    assert s[..|line| + 1] == line + "\r";
    assert StripCr(line + "\r") == line;
    assert s[|line| + 2..] == rest;
  }

  lemma OnlyLine(line: string)
    requires NoBreak(line) && line != ""
    ensures Lines(line) == [line]
  {
    FindIs(line, '\n', |line|);
    assert line[..|line|] == line;
  }

  /** Splitting undoes joining. */
  lemma {:induction false} LinesOfJoin(lines: seq<string>)
    requires AllNoBreak(lines) && (lines != [] ==> lines[|lines| - 1] != "")
    ensures Lines(Join(lines)) == lines
    decreases |lines|
  {
    if |lines| == 1 {
      OnlyLine(lines[0]);
    } else if lines != [] {
      assert forall i :: 0 <= i < |lines[1..]| ==> lines[1..][i] == lines[i + 1];
      LinesOfJoin(lines[1..]);
      FirstLine(lines[0], Join(lines[1..]));
      assert [lines[0]] + lines[1..] == lines;
    }
  }

  // ---- Numbers ----

  predicate IsDigit(c: char) { '0' <= c <= '9' }

  predicate AllDigits(s: string) {
    forall i :: 0 <= i < |s| ==> IsDigit(s[i])
  }

  function DigitOf(c: char): nat
    requires IsDigit(c)
  {
    c as int - '0' as int
  }

  function CharOf(d: nat): (c: char)
    requires d < 10
    ensures IsDigit(c) && DigitOf(c) == d
  {
    (d + '0' as int) as char
  }

  function Decimal(s: string): nat
    requires AllDigits(s)
  {
    if s == "" then 0 else Decimal(s[..|s| - 1]) * 10 + DigitOf(s[|s| - 1])
  }

  /** The number a text spells, unless it is malformed or over the limit. */
  function Integer(s: string, limit: nat): Option<nat> {
    var t := Trimmed(s);
    if t == "" || !AllDigits(t) then None
    else if Decimal(t) > limit then None
    else Some(Decimal(t))
  }

  lemma DecimalOneMore(front: string, c: char)
    requires AllDigits(front) && IsDigit(c)
    ensures AllDigits(front + [c]) && Decimal(front + [c]) == Decimal(front) * 10 + DigitOf(c)
  {
    assert (front + [c])[..|front|] == front;
  }

  lemma DecimalOfOne(c: char)
    requires IsDigit(c)
    ensures AllDigits([c]) && Decimal([c]) == DigitOf(c)
  {
    DecimalOneMore("", c);
    assert "" + [c] == [c];
  }

  function Numeral(n: nat): (s: string)
    ensures s != "" && AllDigits(s) && Decimal(s) == n
  {
    if n < 10 then
      DecimalOfOne(CharOf(n));
      [CharOf(n)]
    else
      var front, last := Numeral(n / 10), CharOf(n % 10);
      DecimalOneMore(front, last);
      front + [last]
  }

  /** Reading back a printed number. */
  lemma IntegerOfNumeral(n: nat, limit: nat)
    ensures Integer(Numeral(n), limit) == if n <= limit then Some(n) else None
  {
    NeatStays(Numeral(n));
  }

  lemma NumeralPlain(n: nat)
    ensures NoBreak(Numeral(n)) && Neat(Numeral(n)) && ' ' !in Numeral(n)
  {
    var s := Numeral(n);
    assert IsDigit(s[0]) && IsDigit(s[|s| - 1]);
    assert forall i :: 0 <= i < |s| ==> IsDigit(s[i]);
  }
}
