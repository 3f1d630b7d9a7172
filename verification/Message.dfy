/** SIP messages as text: parsing, building, and that parsing undoes building. */
module Messages {
  import opened Prelude
  import opened Text
  import opened Framing

  const VERSION: string := "SIP/2.0"
  const INT_MAX: nat := 0x7FFF_FFFF

  datatype StartLine = RequestLine(verb: string, uri: string) | StatusLine(status: nat, reason: string)

  datatype Header = Header(name: string, value: string)

  /** A parsed message; header names are in lower case with compact forms written out, in their order. */
  datatype Message = Message(start: StartLine, headers: seq<Header>, body: string)

  // ---- Parsing ----

  function Expand(name: string): string {
    if name == "v" then "via"
    else if name == "f" then "from"
    else if name == "t" then "to"
    else if name == "i" then "call-id"
    else if name == "m" then "contact"
    else if name == "l" then "content-length"
    else if name == "c" then "content-type"
    else if name == "k" then "supported"
    else if name == "s" then "subject"
    else if name == "e" then "content-encoding"
    else name
  }

  function FullName(raw: string): string { Expand(Lowercased(Trimmed(raw))) }

  predicate TokenChar(c: char) {
    'a' <= c <= 'z' || 'A' <= c <= 'Z' || IsDigit(c) || c in "-.!%*_+`'~"
  }

  predicate IsToken(s: string) {
    s != "" && forall i :: 0 <= i < |s| ==> TokenChar(s[i])
  }

  /** Where the character last occurs; the length of the text if it does not. */
  function FindLast(s: string, c: char): (i: nat)
    ensures i <= |s| && (i < |s| ==> s[i] == c && forall j :: i < j < |s| ==> s[j] != c)
    ensures i == |s| ==> c !in s
  {
    if s == "" then 0
    else if s[|s| - 1] == c then |s| - 1
    else
      var i := FindLast(s[..|s| - 1], c);
      if i == |s| - 1 then |s| else i
  }

  // A minus sign would give a status below 100, refused like any text that is not a number.
  function ParseStatus(line: string): Option<StartLine>
    requires |line| >= 8
  {
    if |line| < 11 then None
    else
      var status := Integer(line[8..11], INT_MAX);
      if status.None? || status.value < 100 || status.value > 699 then None
      else Some(StatusLine(status.value, Trimmed(line[11..])))
  }

  function ParseRequest(line: string): Option<StartLine> {
    var first, last := Find(line, ' '), FindLast(line, ' ');
    if first == |line| || last == first || line[last + 1..] != VERSION then None
    else
      var verb, uri := line[..first], Trimmed(line[first + 1..last]);
      if !IsToken(verb) || uri == "" then None else Some(RequestLine(verb, uri))
  }

  function ParseStart(line: string): Option<StartLine> {
    if VERSION + " " <= line then ParseStatus(line) else ParseRequest(line)
  }

  function Continue(headers: seq<Header>, line: string): seq<Header>
    requires headers != []
  {
    var last := headers[|headers| - 1];
    headers[|headers| - 1 := last.(value := last.value + " " + Trimmed(line))]
  }

  predicate Continues(headers: seq<Header>, line: string) {
    line != "" && Blank(line[0]) && headers != []
  }

  predicate Malformed(line: string) { Find(line, ':') == |line| || Find(line, ':') == 0 }

  function HeaderIn(line: string): Header
    requires !Malformed(line)
  {
    var colon := Find(line, ':');
    Header(FullName(line[..colon]), Trimmed(line[colon + 1..]))
  }

  /** The headers of the lines, after those already read. */
  function ParseHeaders(lines: seq<string>, headers: seq<Header>): Option<seq<Header>>
    decreases |lines|
  {
    if lines == [] then Some(headers)
    else
      var line := lines[0];
      if line == "" then ParseHeaders(lines[1..], headers)
      else if Continues(headers, line) then ParseHeaders(lines[1..], Continue(headers, line))
      else if Malformed(line) then None
      else ParseHeaders(lines[1..], headers + [HeaderIn(line)])
  }

  /** The value of the first header with the given name. */
  function HeaderOf(headers: seq<Header>, name: string): Option<string> {
    if headers == [] then None
    else if headers[0].name == name then Some(headers[0].value)
    else HeaderOf(headers[1..], name)
  }

  /** A datagram's head and what follows it. */
  function Split(datagram: string): (string, string) {
    var crlf, lf := FindText(datagram, HEAD_END), FindText(datagram, "\n\n");
    if crlf.Some? then (datagram[..crlf.value], datagram[crlf.value + 4..])
    else if lf.Some? then (datagram[..lf.value], datagram[lf.value + 2..])
    else (datagram, "")
  }

  /** The body the headers allow. */
  function BodyOf(headers: seq<Header>, rest: string): Option<string> {
    var length := HeaderOf(headers, "content-length");
    if length.None? then Some(rest)
    else
      var size := Integer(length.value, SIZE_MAX);
      if size.None? || size.value > |rest| then None else Some(rest[..size.value])
  }

  function Parsed(datagram: string): Option<Message> {
    var (head, rest) := Split(datagram);
    var lines := Lines(head);
    if lines == [] then None
    else
      var start, headers := ParseStart(lines[0]), ParseHeaders(lines[1..], []);
      if start.None? || headers.None? then None
      else
        var body := BodyOf(headers.value, rest);
        if body.None? then None else Some(Message(start.value, headers.value, body.value))
  }

  method FindHeader(headers: seq<Header>, name: string) returns (value: Option<string>)
    ensures value == HeaderOf(headers, name)
  {
    var i := 0;
    while i < |headers|
      invariant 0 <= i <= |headers| && HeaderOf(headers[i..], name) == HeaderOf(headers, name)
    {
      if headers[i].name == name {
        return Some(headers[i].value);
      }
      assert headers[i..][1..] == headers[i + 1..];
      i := i + 1;
    }
    return None;
  }

  method ReadHeaders(lines: seq<string>) returns (headers: Option<seq<Header>>)
    requires lines != []
    ensures headers == ParseHeaders(lines[1..], [])
  {
    var read: seq<Header> := [];
    var i := 1;
    while i < |lines|
      invariant 1 <= i <= |lines| && ParseHeaders(lines[i..], read) == ParseHeaders(lines[1..], [])
    {
      var line := lines[i];
      assert lines[i..][0] == line && lines[i..][1..] == lines[i + 1..];
      if line == "" {
      } else if (line[0] == ' ' || line[0] == '\t') && read != [] {
        var last := read[|read| - 1];
        var more := Trim(line);
        read := read[|read| - 1 := last.(value := last.value + " " + more)];
      } else {
        var colon := Find(line, ':');
        if colon == |line| || colon == 0 {
          return None;
        }
        var value := Trim(line[colon + 1..]);
        read := read + [Header(FullName(line[..colon]), value)];
      }
      i := i + 1;
    }
    return Some(read);
  }

  method ParseMessage(datagram: string) returns (message: Option<Message>)
    ensures message == Parsed(datagram)
  {
    var (head, rest) := Split(datagram);
    var lines := SplitLines(head);
    if lines == [] {
      return None;
    }
    var start := ParseStart(lines[0]);
    if start.None? {
      return None;
    }
    var headers := ReadHeaders(lines);
    if headers.None? {
      return None;
    }
    var length := FindHeader(headers.value, "content-length");
    var body := rest;
    if length.Some? {
      var size := Integer(length.value, SIZE_MAX);
      if size.None? || size.value > |rest| {
        return None;
      }
      body := rest[..size.value];
    }
    return Some(Message(start.value, headers.value, body));
  }

  // ---- Building ----

  datatype Draft = Draft(start: string, headers: seq<Header>, contentType: string, body: string)

  function LineOf(h: Header): string { h.name + ": " + h.value }

  function HeaderText(headers: seq<Header>): string {
    if headers == [] then "" else HeaderText(headers[..|headers| - 1]) + LineOf(headers[|headers| - 1]) + "\r\n"
  }

  function TypeText(d: Draft): string {
    if d.body == "" then "" else "Content-Type: " + d.contentType + "\r\n"
  }

  function LengthText(n: nat): string { "Content-Length: " + Numeral(n) + "\r\n\r\n" }

  function Built(d: Draft): string {
    d.start + "\r\n" + HeaderText(d.headers) + TypeText(d) + LengthText(|d.body|) + d.body
  }

  class MessageBuilder {
    var draft: Draft

    constructor (start: string)
      ensures draft == Draft(start, [], "", "")
    {
      draft := Draft(start, [], "", "");
    }

    method Add(name: string, value: string)
      modifies this
      ensures draft == old(draft).(headers := old(draft).headers + [Header(name, value)])
    {
      draft := draft.(headers := draft.headers + [Header(name, value)]);
    }

    method SetBody(contentType: string, body: string)
      modifies this
      ensures draft == old(draft).(contentType := contentType, body := body)
    {
      draft := draft.(contentType := contentType, body := body);
    }

    method Build() returns (out: string)
      ensures out == Built(draft)
    {
      var headers := draft.headers;
      ghost var first := draft.start + "\r\n";
      out := draft.start + "\r\n";
      var i := 0;
      while i < |headers|
        invariant 0 <= i <= |headers| && out == first + HeaderText(headers[..i])
      {
        assert headers[..i + 1] == headers[..i] + [headers[i]];
        HeaderTextAppend(headers[..i], headers[i]);
        Group(first, HeaderText(headers[..i]), LineOf(headers[i]));
        out := out + LineOf(headers[i]) + "\r\n";
        i := i + 1;
      }
      assert headers[..i] == headers;
      if draft.body != "" {
        out := out + ("Content-Type: " + draft.contentType + "\r\n");
      }
      out := out + LengthText(|draft.body|) + draft.body;
    }
  }

  lemma Group(a: string, b: string, c: string)
    ensures a + b + c + "\r\n" == a + (b + c + "\r\n")
  {
  }

  // ---- What a draft must be ----

  predicate GoodName(name: string) {
    name != "" && NoBreak(name) && ':' !in name && !Blank(name[0])
  }

  predicate GoodHeader(h: Header) {
    GoodName(h.name) && NoBreak(h.value) && FullName(h.name) != "content-length"
  }

  /** The start line parses, nothing contains a line break, and no header gives a second Content-Length. */
  predicate WellFormed(d: Draft) {
    && NoBreak(d.start) && ParseStart(d.start).Some?
    && (forall i :: 0 <= i < |d.headers| ==> GoodHeader(d.headers[i]))
    && NoBreak(d.contentType) && |d.body| <= SIZE_MAX
  }

  /** Every header the built message has. */
  function AllHeaders(d: Draft): seq<Header> {
    d.headers + (if d.body == "" then [] else [Header("Content-Type", d.contentType)])
    + [Header("Content-Length", Numeral(|d.body|))]
  }

  function LinesOf(headers: seq<Header>): seq<string> {
    if headers == [] then [] else [LineOf(headers[0])] + LinesOf(headers[1..])
  }

  /** A header as the parser returns it. */
  function Normal(h: Header): Header { Header(FullName(h.name), Trimmed(h.value)) }

  function NormalAll(headers: seq<Header>): seq<Header> {
    if headers == [] then [] else [Normal(headers[0])] + NormalAll(headers[1..])
  }

  // ---- The head ----

  lemma {:induction false} JoinAppend(lines: seq<string>, line: string)
    requires lines != []
    ensures Join(lines + [line]) == Join(lines) + "\r\n" + line
    decreases |lines|
  {
    var all := lines + [line];
    assert all[1..] == lines[1..] + [line] && all[0] == lines[0];
    if |lines| == 1 {
      assert Join(all[1..]) == line;
    } else {
      JoinAppend(lines[1..], line);
      assert lines[0] + "\r\n" + (Join(lines[1..]) + "\r\n" + line)
             == (lines[0] + "\r\n" + Join(lines[1..])) + "\r\n" + line;
    }
  }

  lemma {:induction false} LinesOfAppend(headers: seq<Header>, h: Header)
    ensures LinesOf(headers + [h]) == LinesOf(headers) + [LineOf(h)]
    decreases |headers|
  {
    if headers == [] {
      assert [h][1..] == [];
    } else {
      assert (headers + [h])[1..] == headers[1..] + [h];
      LinesOfAppend(headers[1..], h);
    }
  }

  /** The lines of the head, start line first. */
  function HeadLines(start: string, headers: seq<Header>): seq<string> { [start] + LinesOf(headers) }

  lemma {:induction false} HeadText(start: string, headers: seq<Header>)
    ensures Join(HeadLines(start, headers)) + "\r\n" == start + "\r\n" + HeaderText(headers)
    decreases |headers|
  {
    if headers != [] {
      var front, last := headers[..|headers| - 1], headers[|headers| - 1];
      assert headers == front + [last];
      LinesOfAppend(front, last);
      HeadText(start, front);
      assert HeadLines(start, headers) == HeadLines(start, front) + [LineOf(last)];
      JoinAppend(HeadLines(start, front), LineOf(last));
    }
  }

  lemma HeaderTextAppend(headers: seq<Header>, h: Header)
    ensures HeaderText(headers + [h]) == HeaderText(headers) + LineOf(h) + "\r\n"
  {
    assert (headers + [h])[..|headers|] == headers;
  }

  lemma AllHeaderText(d: Draft)
    ensures HeaderText(AllHeaders(d)) + "\r\n" == HeaderText(d.headers) + TypeText(d) + LengthText(|d.body|)
  {
    var front := d.headers + if d.body == "" then [] else [Header("Content-Type", d.contentType)];
    var length := Header("Content-Length", Numeral(|d.body|));
    HeaderTextAppend(front, length);
    assert LineOf(length) + "\r\n" + "\r\n" == LengthText(|d.body|);
    if d.body == "" {
      assert front == d.headers;
    } else {
      HeaderTextAppend(d.headers, Header("Content-Type", d.contentType));
      assert LineOf(Header("Content-Type", d.contentType)) + "\r\n" == TypeText(d);
    }
    assert HeaderText(front) == HeaderText(d.headers) + TypeText(d);
    assert HeaderText(front) + LineOf(length) + "\r\n" + "\r\n"
           == HeaderText(front) + (LineOf(length) + "\r\n" + "\r\n");
  }

  lemma BuiltIsHeadAndBody(d: Draft)
    ensures Built(d) == Join(HeadLines(d.start, AllHeaders(d))) + HEAD_END + d.body
  {
    var all := AllHeaders(d);
    var head := Join(HeadLines(d.start, all));
    AllHeaderText(d);
    HeadText(d.start, all);
    Regroup(d.start + "\r\n", HeaderText(d.headers), TypeText(d), LengthText(|d.body|), HeaderText(all));
    assert head + "\r\n" + "\r\n" == head + HEAD_END;
  }

  lemma Regroup(a: string, b: string, c: string, d: string, e: string)
    requires e + "\r\n" == b + c + d
    ensures a + b + c + d == a + e + "\r\n"
  {
    assert a + b + c + d == a + (b + c + d);
    assert a + e + "\r\n" == a + (e + "\r\n");
  }

  lemma NoMarkInLine(line: string, rest: string, i: nat)
    requires NoBreak(line) && i < |line|
    ensures !At(line + rest, HEAD_END, i)
  {
    assert (line + rest)[i] == line[i];
  }

  lemma NoMarkAtBreak(line: string, next: string, i: nat)
    requires NoBreak(line) && next != "" && next[0] != '\r' && |line| <= i < |line| + 2
    ensures !At(line + "\r\n" + next, HEAD_END, i)
  {
    var s := line + "\r\n" + next;
    assert s[|line|] == '\r' && s[|line| + 1] == '\n' && s[|line| + 2] == next[0];
    assert HEAD_END[2] == '\r' && HEAD_END[0] == '\r';
  }

  lemma NoMarkBefore(first: string, tail: string, k: nat, i: nat)
    requires NoBreak(first) && tail != "" && tail[0] != '\r'
    requires forall j :: 0 <= j < k ==> !At(tail, HEAD_END, j)
    requires i < |first| + 2 + k
    ensures !At(first + "\r\n" + tail, HEAD_END, i)
  {
    if i < |first| {
      assert first + "\r\n" + tail == first + ("\r\n" + tail);
      NoMarkInLine(first, "\r\n" + tail, i);
    } else if i < |first| + 2 {
      NoMarkAtBreak(first, tail, i);
    } else {
      AtShift(first + "\r\n", tail, i - |first| - 2);
    }
  }

  lemma MarkAfter(head: string, rest: string)
    requires forall i :: 0 <= i < |head| ==> !At(head + HEAD_END + rest, HEAD_END, i)
    ensures FindText(head + HEAD_END + rest, HEAD_END) == Some(|head|)
  {
    var s := head + HEAD_END + rest;
    assert s[|head|..|head| + 4] == HEAD_END;
    FindTextIs(s, HEAD_END, |head|);
  }

  /** The head ends at the first empty line. */
  lemma {:induction false} HeadEnds(lines: seq<string>, rest: string)
    requires lines != [] && AllNoBreak(lines) && (forall i :: 0 <= i < |lines| ==> lines[i] != "")
    ensures FindText(Join(lines) + HEAD_END + rest, HEAD_END) == Some(|Join(lines)|)
    decreases |lines|
  {
    var first := lines[0];
    if |lines| == 1 {
      forall i | 0 <= i < |first| ensures !At(first + HEAD_END + rest, HEAD_END, i) {
        assert first + HEAD_END + rest == first + (HEAD_END + rest);
        NoMarkInLine(first, HEAD_END + rest, i);
      }
    } else {
      var head := Join(lines[1..]);
      var tail := head + HEAD_END + rest;
      HeadEnds(lines[1..], rest);
      assert tail[0] == lines[1][0];
      assert Join(lines) + HEAD_END + rest == first + "\r\n" + tail;
      forall i | 0 <= i < |Join(lines)| ensures !At(first + "\r\n" + tail, HEAD_END, i) {
        NoMarkBefore(first, tail, |head|, i);
      }
    }
    MarkAfter(Join(lines), rest);
  }

  lemma AtShift(front: string, tail: string, i: nat)
    ensures At(front + tail, HEAD_END, |front| + i) == At(tail, HEAD_END, i)
  {
    if i + 4 <= |tail| {
      assert (front + tail)[|front| + i..|front| + i + 4] == tail[i..i + 4];
    }
  }

  // ---- Header lines ----

  lemma LineParses(h: Header)
    requires GoodName(h.name) && NoBreak(h.value)
    ensures var line := LineOf(h);
            line != "" && NoBreak(line) && !Blank(line[0]) && Find(line, ':') == |h.name| && !Malformed(line)
            && line[..|h.name|] == h.name && HeaderIn(line) == Normal(h)
            && Trimmed(line[|h.name| + 1..]) == Trimmed(h.value)
  {
    var line := LineOf(h);
    assert line == h.name + ":" + (" " + h.value);
    FindIs(line, ':', |h.name|);
    assert line[..|h.name|] == h.name && line[|h.name| + 1..] == " " + h.value;
    TrimmedAfterBlank(h.value);
  }

  ghost predicate Readable(headers: seq<Header>) {
    forall i :: 0 <= i < |headers| ==> GoodName(headers[i].name) && NoBreak(headers[i].value)
  }

  lemma {:induction false} HeadersParse(headers: seq<Header>, read: seq<Header>)
    requires Readable(headers)
    ensures ParseHeaders(LinesOf(headers), read) == Some(read + NormalAll(headers))
    decreases |headers|
  {
    if headers == [] {
      assert read + [] == read;
    } else {
      LineParses(headers[0]);
      var lines := LinesOf(headers);
      assert lines[0] == LineOf(headers[0]) && lines[1..] == LinesOf(headers[1..]);
      HeadersParse(headers[1..], read + [Normal(headers[0])]);
      assert read + [Normal(headers[0])] + NormalAll(headers[1..]) == read + NormalAll(headers);
    }
  }

  lemma {:induction false} LinesGood(headers: seq<Header>)
    requires Readable(headers)
    ensures |LinesOf(headers)| == |headers| && AllNoBreak(LinesOf(headers))
    ensures forall i :: 0 <= i < |headers| ==> LinesOf(headers)[i] != ""
    decreases |headers|
  {
    if headers != [] {
      LineParses(headers[0]);
      LinesGood(headers[1..]);
    }
  }

  lemma Literals()
    ensures GoodName("Content-Type") && FullName("Content-Type") == "content-type"
    ensures GoodName("Content-Length") && FullName("Content-Length") == "content-length"
  {
    NeatStays("Content-Type");
    NeatStays("Content-Length");
    assert Lowercased("Content-Type") == "content-type";
    assert Lowercased("Content-Length") == "content-length";
  }

  lemma AllReadable(d: Draft)
    requires WellFormed(d)
    ensures Readable(AllHeaders(d))
    ensures var lines := HeadLines(d.start, AllHeaders(d));
            AllNoBreak(lines) && (forall i :: 0 <= i < |lines| ==> lines[i] != "")
  {
    Literals();
    NumeralPlain(|d.body|);
    var all := AllHeaders(d);
    forall i | 0 <= i < |all| ensures GoodName(all[i].name) && NoBreak(all[i].value) {
      if i < |d.headers| {
        assert GoodHeader(d.headers[i]) && all[i] == d.headers[i];
      }
    }
    LinesGood(all);
    assert d.start != "" by {
      assert ParseStart("").None?;
    }
  }

  /** The head of a built message, found again. */
  lemma HeadFound(d: Draft)
    requires WellFormed(d)
    ensures var lines, s := HeadLines(d.start, AllHeaders(d)), Built(d);
            && FindText(s, HEAD_END) == Some(|Join(lines)|)
            && s[..|Join(lines)|] == Join(lines) && Lines(Join(lines)) == lines
            && s[|Join(lines)| + 4..] == d.body && |s| == |Join(lines)| + 4 + |d.body|
  {
    var lines := HeadLines(d.start, AllHeaders(d));
    AllReadable(d);
    BuiltIsHeadAndBody(d);
    HeadEnds(lines, d.body);
    LinesOfJoin(lines);
  }

  // ---- Content-Length ----

  lemma {:induction false} LastHeaderWins(headers: seq<Header>, h: Header)
    requires forall i :: 0 <= i < |headers| ==> FullName(headers[i].name) != FullName(h.name)
    ensures HeaderOf(NormalAll(headers + [h]), FullName(h.name)) == Some(Trimmed(h.value))
    decreases |headers|
  {
    var all := headers + [h];
    if headers == [] {
      assert all[0] == h;
    } else {
      assert all[0] == headers[0] && all[1..] == headers[1..] + [h];
      LastHeaderWins(headers[1..], h);
    }
  }

  lemma LengthNameIs(name: string)
    ensures (FullName(name) == "content-length") == (Lowercased(Trimmed(name)) == "content-length"
                                                     || Lowercased(Trimmed(name)) == "l")
  {
    var n := Lowercased(Trimmed(name));
    assert |"content-length"| == 14 && |"content-type"| == 12 && |"content-encoding"| == 16;
  }

  lemma {:induction false} LastLengthWins(headers: seq<Header>, h: Header)
    requires Readable(headers) && GoodName(h.name) && NoBreak(h.value) && FullName(h.name) == "content-length"
    requires forall i :: 0 <= i < |headers| ==> FullName(headers[i].name) != "content-length"
    ensures LengthIn(LinesOf(headers + [h])) == Integer(h.value, SIZE_MAX)
    decreases |headers|
  {
    var all := headers + [h];
    LineParses(all[0]);
    LengthNameIs(all[0].name);
    assert LinesOf(all) == [LineOf(all[0])] + LinesOf(all[1..]);
    assert LineOf(all[0])[|all[0].name|] == ':';
    if headers == [] {
      TrimTwice(LineOf(h)[|h.name| + 1..], h.value);
    } else {
      assert all[1..] == headers[1..] + [h];
      LastLengthWins(headers[1..], h);
    }
  }

  lemma TrimTwice(s: string, t: string)
    requires Trimmed(s) == Trimmed(t)
    ensures Integer(s, SIZE_MAX) == Integer(t, SIZE_MAX)
  {
  }

  lemma OthersAreNotLength(d: Draft)
    requires WellFormed(d)
    ensures var front := AllHeaders(d)[..|AllHeaders(d)| - 1];
            Readable(front) && forall i :: 0 <= i < |front| ==> FullName(front[i].name) != "content-length"
  {
    Literals();
    AllReadable(d);
    var front := AllHeaders(d)[..|AllHeaders(d)| - 1];
    forall i | 0 <= i < |front| ensures FullName(front[i].name) != "content-length" {
      if i < |d.headers| {
        assert GoodHeader(d.headers[i]) && front[i] == d.headers[i];
      } else {
        assert |"content-type"| != |"content-length"|;
      }
    }
  }

  lemma BodyReadBack(d: Draft)
    requires WellFormed(d)
    ensures BodyOf(NormalAll(AllHeaders(d)), d.body) == Some(d.body)
    ensures LengthIn(LinesOf(AllHeaders(d))) == Some(|d.body|)
  {
    var all, h := AllHeaders(d), Header("Content-Length", Numeral(|d.body|));
    var front := all[..|all| - 1];
    assert all == front + [h];
    Literals();
    OthersAreNotLength(d);
    NumeralPlain(|d.body|);
    NeatStays(Numeral(|d.body|));
    IntegerOfNumeral(|d.body|, SIZE_MAX);
    LastHeaderWins(front, h);
    LastLengthWins(front, h);
    assert d.body[..|d.body|] == d.body;
  }

  // ---- The round trips ----

  /** Parsing a built message gives its start line, its headers in order under their full names, and its exact body. */
  lemma ParseOfBuilt(d: Draft)
    requires WellFormed(d)
    ensures Parsed(Built(d)) == Some(Message(ParseStart(d.start).value, NormalAll(AllHeaders(d)), d.body))
  {
    HeadFound(d);
    AllReadable(d);
    BodyReadBack(d);
    HeadersParse(AllHeaders(d), []);
    var lines := HeadLines(d.start, AllHeaders(d));
    assert Split(Built(d)) == (Join(lines), d.body);
    assert lines[0] == d.start && lines[1..] == LinesOf(AllHeaders(d));
    assert [] + NormalAll(AllHeaders(d)) == NormalAll(AllHeaders(d));
  }

  /** A built message within the size limit is one the framer passes on whole. */
  lemma BuiltIsMessage(d: Draft)
    requires WellFormed(d) && |Built(d)| <= MAX_MESSAGE
    ensures IsMessage(Built(d))
  {
    HeadFound(d);
    BodyReadBack(d);
    AllReadable(d);
    var lines := HeadLines(d.start, AllHeaders(d));
    assert lines[1..] == LinesOf(AllHeaders(d)) && lines[0] == d.start;
    assert ContentLength(Join(lines)) == Some(|d.body|);
    BuiltIsHeadAndBody(d);
    assert Built(d)[0] == d.start[0];
  }

  function BuiltAll(drafts: seq<Draft>): seq<string> {
    seq(|drafts|, i requires 0 <= i < |drafts| => Built(drafts[i]))
  }

  /** The text parses to the draft's start line, its headers in order under their full names, and its exact body. */
  ghost predicate ReadsBack(text: string, d: Draft) {
    && ParseStart(d.start).Some?
    && Parsed(text) == Some(Message(ParseStart(d.start).value, NormalAll(AllHeaders(d)), d.body))
  }

  /**
   * Built messages sent over a stream with any keep-alive line breaks between them arrive as they were built, one by
   * one, and parse back to what they were built from.
   */
  lemma StreamOfBuilt(gaps: seq<string>, drafts: seq<Draft>)
    requires |gaps| == |drafts| + 1 && (forall i :: 0 <= i < |gaps| ==> AllBreaks(gaps[i]))
    requires forall i :: 0 <= i < |drafts| ==> WellFormed(drafts[i]) && |Built(drafts[i])| <= MAX_MESSAGE
    ensures Frames(Interleave(gaps, BuiltAll(drafts))) == Stream(BuiltAll(drafts), false, "")
    ensures forall i :: 0 <= i < |drafts| ==> ReadsBack(BuiltAll(drafts)[i], drafts[i])
  {
    forall i | 0 <= i < |drafts| ensures IsMessage(BuiltAll(drafts)[i]) && ReadsBack(BuiltAll(drafts)[i], drafts[i]) {
      BuiltIsMessage(drafts[i]);
      ParseOfBuilt(drafts[i]);
    }
    FramesOfMessages(gaps, BuiltAll(drafts));
  }

  // ---- Start lines ----

  lemma FindLastIs(s: string, c: char, i: nat)
    requires i < |s| && s[i] == c && (forall j :: i < j < |s| ==> s[j] != c)
    ensures FindLast(s, c) == i
  {
  }

  /** Three words with spaces between them, of which only the middle one may hold spaces. */
  lemma PartsOf(first: string, middle: string, last: string)
    requires ' ' !in first && ' ' !in last
    ensures var line, end := first + " " + middle + " " + last, |first| + 1 + |middle|;
            && Find(line, ' ') == |first| && FindLast(line, ' ') == end && end < |line|
            && line[..|first|] == first && line[|first| + 1..end] == middle && line[end + 1..] == last
  {
    var line, end := first + " " + middle + " " + last, |first| + 1 + |middle|;
    FindIs(line, ' ', |first|);
    forall j | end < j < |line| ensures line[j] != ' ' {
      assert line[j] == last[j - end - 1];
    }
    FindLastIs(line, ' ', end);
  }

  lemma TokenPlain(verb: string)
    requires IsToken(verb)
    ensures ' ' !in verb && '/' !in verb
  {
    forall i | 0 <= i < |verb| ensures verb[i] != ' ' && verb[i] != '/' {
      assert TokenChar(verb[i]);
    }
  }

  /** Every request line built from a token and a URI is read back. */
  lemma RequestLineParses(verb: string, uri: string)
    requires IsToken(verb) && uri != "" && Neat(uri)
    ensures ParseStart(verb + " " + uri + " " + VERSION) == Some(RequestLine(verb, uri))
  {
    var line := verb + " " + uri + " " + VERSION;
    TokenPlain(verb);
    PartsOf(verb, uri, VERSION);
    NeatStays(uri);
    NotStatus(verb, line);
  }

  lemma NotStatus(verb: string, line: string)
    requires verb <= line && |verb| < |line| && line[|verb|] == ' '
    requires forall i :: 0 <= i < |verb| ==> line[i] != '/' && line[i] != ' '
    ensures !(VERSION + " " <= line)
  {
    var start := VERSION + " ";
    assert start[3] == '/' && start[0] != ' ' && start[1] != ' ' && start[2] != ' ';
  }

  /** Every status line built from a status and a phrase is read back. */
  lemma StatusLineParses(status: nat, reason: string)
    requires 100 <= status <= 699
    ensures ParseStart(VERSION + " " + Numeral(status) + " " + reason) == Some(StatusLine(status, Trimmed(reason)))
  {
    var line := VERSION + " " + Numeral(status) + " " + reason;
    assert |Numeral(status)| == 3 by {
      assert |Numeral(status / 10 / 10)| == 1;
    }
    assert line == (VERSION + " ") + (Numeral(status) + " " + reason);
    assert line[8..11] == Numeral(status) && line[11..] == " " + reason;
    IntegerOfNumeral(status, INT_MAX);
    TrimmedAfterBlank(reason);
  }
}
