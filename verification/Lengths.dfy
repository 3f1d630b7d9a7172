/** When the framer and the parser read the same body length from a head. */
module Lengths {
  import opened Prelude
  import opened Text
  import opened Framing
  import opened Messages

  const LENGTH: string := "content-length"

  /** The body length the parsed headers announce. */
  function ParsedLength(headers: seq<Header>): Option<nat> {
    var value := HeaderOf(headers, LENGTH);
    if value.None? then None else Integer(value.value, SIZE_MAX)
  }

  // ---- What the lines of a head hold ----

  function ValueOf(line: string): string
    requires ':' in line
  {
    line[Find(line, ':') + 1..]
  }

  /** Whether the parser takes the line for the rest of the header before it; `started` says that there is one. */
  predicate Continuation(line: string, started: bool) { line != "" && Blank(line[0]) && started }

  /** The text that continuation lines add to the header before them. */
  function TailText(lines: seq<string>): string {
    if lines == [] then ""
    else if lines[0] == "" then TailText(lines[1..])
    else if Blank(lines[0][0]) then " " + Trimmed(lines[0]) + TailText(lines[1..])
    else ""
  }

  datatype Announcement = Announcement(value: string, tail: string)

  /** The first header that names a length: its own line's value, and what continuation lines add. */
  function LengthHeader(lines: seq<string>, started: bool): Option<Announcement> {
    if lines == [] then None
    else if lines[0] == "" || Continuation(lines[0], started) then LengthHeader(lines[1..], started)
    else if NamesLength(lines[0]) then Some(Announcement(Trimmed(ValueOf(lines[0])), TailText(lines[1..])))
    else LengthHeader(lines[1..], true)
  }

  /** The value on the first continuation line that names a length, if it comes before any header that does. */
  function Stray(lines: seq<string>, started: bool): Option<string> {
    if lines == [] then None
    else if lines[0] == "" then Stray(lines[1..], started)
    else if NamesLength(lines[0]) then if Continuation(lines[0], started) then Some(ValueOf(lines[0])) else None
    else Stray(lines[1..], true)
  }

  /** Added text changes the number: one was there, or the first line had none and the added text is one. */
  predicate Disturbs(value: string, tail: string) {
    Trimmed(tail) != "" && (Integer(value, SIZE_MAX).Some? || (value == "" && Integer(tail, SIZE_MAX).Some?))
  }

  predicate IsNumber(text: string) { Integer(text, SIZE_MAX).Some? }

  /** The same number, or both no number. */
  predicate SameNumber(a: string, b: string) {
    if IsNumber(a) && IsNumber(b) then Integer(a, SIZE_MAX) == Integer(b, SIZE_MAX) else !IsNumber(a) && !IsNumber(b)
  }

  /** The value is the same number as the header's line and what is added to it: only one of the two has text. */
  predicate SameAsHeader(value: string, header: Announcement) {
    if Trimmed(header.tail) == "" then SameNumber(value, header.value)
    else if header.value == "" then SameNumber(value, header.tail)
    else !IsNumber(value)
  }

  /**
   * No continuation line names a length before the length header, or what it names is the header's number, or no number
   * if there is no such header; and no continuation line adds text to the length header that changes its number.
   */
  predicate LengthsAgree(lines: seq<string>) {
    var stray, header := Stray(lines, false), LengthHeader(lines, false);
    if stray.None? then header.None? || !Disturbs(header.value.value, header.value.tail)
    else if header.None? then !IsNumber(stray.value)
    else SameAsHeader(stray.value, header.value)
  }

  // ---- The parser ----

  lemma {:induction false} HeaderOfAppend(a: seq<Header>, b: seq<Header>, name: string)
    ensures HeaderOf(a + b, name) == if HeaderOf(a, name).Some? then HeaderOf(a, name) else HeaderOf(b, name)
    decreases |a|
  {
    if a == [] {
      assert a + b == b;
    } else {
      assert (a + b)[1..] == a[1..] + b;
      HeaderOfAppend(a[1..], b, name);
    }
  }

  lemma HeaderOfOne(h: Header, name: string)
    ensures HeaderOf([h], name) == if h.name == name then Some(h.value) else None
  {
    assert [h][1..] == [];
  }

  lemma LastHeader(read: seq<Header>)
    requires read != []
    ensures read == read[..|read| - 1] + [read[|read| - 1]]
  {
  }

  lemma ContinueLast(front: seq<Header>, h: Header, line: string)
    ensures Continue(front + [h], line) == front + [h.(value := h.value + " " + Trimmed(line))]
  {
  }

  /** A header found before the last one is found whatever follows. */
  lemma {:induction false} FoundStays(lines: seq<string>, front: seq<Header>, last: Header)
    requires HeaderOf(front, LENGTH).Some? && ParseHeaders(lines, front + [last]).Some?
    ensures HeaderOf(ParseHeaders(lines, front + [last]).value, LENGTH) == HeaderOf(front, LENGTH)
    decreases |lines|
  {
    var read := front + [last];
    HeaderOfAppend(front, [last], LENGTH);
    if lines != [] {
      var line := lines[0];
      if line == "" {
        FoundStays(lines[1..], front, last);
      } else if Continues(read, line) {
        ContinueLast(front, last, line);
        FoundStays(lines[1..], front, last.(value := last.value + " " + Trimmed(line)));
      } else {
        FoundStays(lines[1..], read, HeaderIn(line));
      }
    }
  }

  /** The length header grows by the continuation lines behind it. */
  lemma {:induction false} LengthGrows(lines: seq<string>, front: seq<Header>, h: Header)
    requires HeaderOf(front, LENGTH).None? && h.name == LENGTH && ParseHeaders(lines, front + [h]).Some?
    ensures HeaderOf(ParseHeaders(lines, front + [h]).value, LENGTH) == Some(h.value + TailText(lines))
    decreases |lines|
  {
    var read := front + [h];
    HeaderOfAppend(front, [h], LENGTH);
    HeaderOfOne(h, LENGTH);
    if lines == [] {
      assert h.value + "" == h.value;
    } else {
      var line := lines[0];
      if line == "" {
        LengthGrows(lines[1..], front, h);
      } else if Continues(read, line) {
        ContinueLast(front, h, line);
        LengthGrows(lines[1..], front, h.(value := h.value + " " + Trimmed(line)));
        Regrouped(h.value, Trimmed(line), TailText(lines[1..]));
      } else {
        FoundStays(lines[1..], read, HeaderIn(line));
        assert h.value + "" == h.value;
      }
    }
  }

  lemma Regrouped(a: string, b: string, c: string)
    ensures (a + " " + b) + c == a + (" " + b + c)
  {
  }

  lemma HeaderLineNames(line: string)
    requires !Malformed(line)
    ensures ':' in line && (HeaderIn(line).name == LENGTH <==> NamesLength(line))
    ensures HeaderIn(line).value == Trimmed(ValueOf(line))
  {
    assert line[Find(line, ':')] == ':';
    LengthNameIs(line[..Find(line, ':')]);
  }

  /** What the parser finds under content-length. */
  lemma {:induction false} ParserFinds(lines: seq<string>, read: seq<Header>)
    requires HeaderOf(read, LENGTH).None? && ParseHeaders(lines, read).Some?
    ensures var a := LengthHeader(lines, read != []);
            HeaderOf(ParseHeaders(lines, read).value, LENGTH) ==
            if a.None? then None else Some(a.value.value + a.value.tail)
    decreases |lines|
  {
    if lines != [] {
      var line := lines[0];
      if line == "" {
        ParserFinds(lines[1..], read);
      } else if Continues(read, line) {
        LastHeader(read);
        var front, last := read[..|read| - 1], read[|read| - 1];
        HeaderOfAppend(front, [last], LENGTH);
        HeaderOfOne(last, LENGTH);
        ContinueLast(front, last, line);
        var longer := last.(value := last.value + " " + Trimmed(line));
        HeaderOfAppend(front, [longer], LENGTH);
        HeaderOfOne(longer, LENGTH);
        ParserFinds(lines[1..], front + [longer]);
      } else {
        var h := HeaderIn(line);
        HeaderLineNames(line);
        HeaderOfAppend(read, [h], LENGTH);
        HeaderOfOne(h, LENGTH);
        if NamesLength(line) {
          LengthGrows(lines[1..], read, h);
        } else {
          ParserFinds(lines[1..], read + [h]);
        }
      }
    }
  }

  // ---- The framer ----

  lemma IntegerOfTrimmed(s: string)
    ensures Integer(Trimmed(s), SIZE_MAX) == Integer(s, SIZE_MAX)
  {
    var left, right := TrimmedMeaning(s);
    NeatStays(Trimmed(s));
  }

  /** What the framer takes for the length. */
  lemma {:induction false} FramerFinds(lines: seq<string>, started: bool)
    ensures var stray, a := Stray(lines, started), LengthHeader(lines, started);
            LengthIn(lines) ==
            if stray.Some? then Integer(stray.value, SIZE_MAX)
            else if a.Some? then Integer(a.value.value, SIZE_MAX) else None
    decreases |lines|
  {
    if lines != [] {
      var line := lines[0];
      if line == "" {
        FramerFinds(lines[1..], started);
      } else if NamesLength(line) {
        IntegerOfTrimmed(ValueOf(line));
      } else if Continuation(line, started) {
        FramerFinds(lines[1..], started);
      } else {
        FramerFinds(lines[1..], true);
      }
    }
  }

  // ---- Added text ----

  lemma BlankTail(v: string, t: string)
    requires Neat(v) && Trimmed(t) == ""
    ensures Trimmed(v + t) == v
  {
    var left, right := TrimmedMeaning(t);
    assert left == right;
    assert forall i :: 0 <= i < |t| ==> BlankOrCr(t[i]);
    var s := v + t;
    if v == "" {
      assert s == t;
    } else {
      assert s[0] == v[0];
      assert SkipLeft(s) == s;
      SkipRightTail(v, t);
    }
  }

  lemma {:induction false} SkipRightTail(v: string, t: string)
    requires v != "" && !BlankOrCr(v[|v| - 1]) && forall i :: 0 <= i < |t| ==> BlankOrCr(t[i])
    ensures SkipRight(v + t) == v
    decreases |t|
  {
    if t == "" {
      assert v + t == v;
    } else {
      var s := v + t;
      assert s[|s| - 1] == t[|t| - 1] && s[..|s| - 1] == v + t[..|t| - 1];
      SkipRightTail(v, t[..|t| - 1]);
    }
  }

  /** A blank inside the text leaves no number. */
  lemma BlankInside(v: string, t: string)
    requires v != "" && Neat(v) && t != "" && t[0] == ' ' && Trimmed(t) != ""
    ensures Integer(v + t, SIZE_MAX).None?
  {
    var s := v + t;
    var left, right := TrimmedMeaning(s);
    var l, r := TrimmedMeaning(t);
    assert t[r - 1] == Trimmed(t)[|Trimmed(t)| - 1];
    assert s[|v| + r - 1] == t[r - 1] && s[0] == v[0] && s[|v|] == ' ';
    assert left == 0 && right > |v|;
    assert Trimmed(s)[|v|] == ' ';
  }

  lemma {:induction false} TailStarts(lines: seq<string>)
    ensures TailText(lines) == "" || TailText(lines)[0] == ' '
    decreases |lines|
  {
    if lines != [] && lines[0] == "" {
      TailStarts(lines[1..]);
    }
  }

  lemma DisturbsExactly(v: string, t: string)
    requires Neat(v) && (t == "" || t[0] == ' ')
    ensures Integer(v, SIZE_MAX) == Integer(v + t, SIZE_MAX) <==> !Disturbs(v, t)
  {
    if Trimmed(t) == "" {
      BlankTail(v, t);
      NeatStays(v);
    } else if v == "" {
      assert v + t == t;
    } else {
      BlankInside(v, t);
    }
  }

  lemma SameAsHeaderExactly(value: string, header: Announcement)
    requires Neat(header.value) && (header.tail == "" || header.tail[0] == ' ')
    ensures Integer(value, SIZE_MAX) == Integer(header.value + header.tail, SIZE_MAX) <==> SameAsHeader(value, header)
  {
    if Trimmed(header.tail) == "" {
      BlankTail(header.value, header.tail);
      NeatStays(header.value);
    } else if header.value == "" {
      assert header.value + header.tail == header.tail;
    } else {
      BlankInside(header.value, header.tail);
    }
  }

  lemma {:induction false} AnnouncementNeat(lines: seq<string>, started: bool)
    requires LengthHeader(lines, started).Some?
    ensures var a := LengthHeader(lines, started).value; Neat(a.value) && (a.tail == "" || a.tail[0] == ' ')
    decreases |lines|
  {
    var line := lines[0];
    if line == "" || Continuation(line, started) {
      AnnouncementNeat(lines[1..], started);
    } else if NamesLength(line) {
      var left, right := TrimmedMeaning(ValueOf(line));
      TailStarts(lines[1..]);
    } else {
      AnnouncementNeat(lines[1..], true);
    }
  }

  /**
   * For every head whose header lines the parser accepts, the framer and the parser announce the same length exactly
   * when continuation lines neither name a length of their own nor change the length header's number.
   */
  lemma SameLengthExactly(head: string)
    requires Lines(head) != [] && ParseHeaders(Lines(head)[1..], []).Some?
    ensures ContentLength(head) == ParsedLength(ParseHeaders(Lines(head)[1..], []).value) <==>
            LengthsAgree(Lines(head)[1..])
  {
    var lines := Lines(head)[1..];
    ParserFinds(lines, []);
    FramerFinds(lines, false);
    var header := LengthHeader(lines, false);
    if header.Some? {
      AnnouncementNeat(lines, false);
      DisturbsExactly(header.value.value, header.value.tail);
      if Stray(lines, false).Some? {
        SameAsHeaderExactly(Stray(lines, false).value, header.value);
      }
    }
  }

  /** The head of a message, and what follows it. */
  function HeadOf(m: string): string
    requires FindText(m, HEAD_END).Some?
  {
    m[..FindText(m, HEAD_END).value]
  }

  function BehindHead(m: string): string
    requires FindText(m, HEAD_END).Some?
  {
    m[FindText(m, HEAD_END).value + 4..]
  }

  /** A message from the framer whose start line and header lines the parser accepts. */
  ghost predicate Acceptable(m: string) {
    && IsMessage(m) && Lines(HeadOf(m)) != []
    && ParseStart(Lines(HeadOf(m))[0]).Some? && ParseHeaders(Lines(HeadOf(m))[1..], []).Some?
  }

  /** What the parser makes of a message cut out by the framer, in full. */
  lemma ParsedMessage(m: string)
    requires Acceptable(m)
    ensures var lines, body := Lines(HeadOf(m)), BehindHead(m);
            var headers := ParseHeaders(lines[1..], []).value;
            && ContentLength(HeadOf(m)) == Some(|body|)
            && Parsed(m) ==
                 if HeaderOf(headers, LENGTH).None? then Some(Message(ParseStart(lines[0]).value, headers, body))
                 else if ParsedLength(headers).None? || ParsedLength(headers).value > |body| then None
                 else Some(Message(ParseStart(lines[0]).value, headers, body[..ParsedLength(headers).value]))
  {
    SplitIs(m);
  }

  lemma SplitIs(m: string)
    requires FindText(m, HEAD_END).Some?
    ensures Split(m) == (HeadOf(m), BehindHead(m))
  {
  }

  /**
   * A message cut out by the framer is parsed with exactly the bytes behind its head as its body if and only if no
   * header names a length, or continuation lines leave its number the framer's.
   */
  lemma BodyKeptExactly(m: string)
    requires Acceptable(m)
    ensures var lines := Lines(HeadOf(m));
            var headers := ParseHeaders(lines[1..], []).value;
            && (Parsed(m) == Some(Message(ParseStart(lines[0]).value, headers, BehindHead(m))) <==>
                HeaderOf(headers, LENGTH).None? || ParsedLength(headers) == ContentLength(HeadOf(m)))
            && (Parsed(m) == Some(Message(ParseStart(lines[0]).value, headers, BehindHead(m))) <==>
                LengthHeader(lines[1..], false).None? || LengthsAgree(lines[1..]))
  {
    var lines, body := Lines(HeadOf(m)), BehindHead(m);
    ParsedMessage(m);
    ParserFinds(lines[1..], []);
    SameLengthExactly(HeadOf(m));
    assert body[..|body|] == body;
  }

  /** In particular they agree on every head without continuation lines. */
  lemma {:induction false} NoFoldingAgrees(lines: seq<string>, started: bool)
    requires forall i :: 0 <= i < |lines| && lines[i] != "" ==> !Blank(lines[i][0])
    ensures Stray(lines, started).None? && TailText(lines) == ""
    ensures LengthHeader(lines, started).Some? ==> LengthHeader(lines, started).value.tail == ""
    ensures !started ==> LengthsAgree(lines)
    decreases |lines|
  {
    if lines != [] {
      NoFoldingAgrees(lines[1..], started);
      NoFoldingAgrees(lines[1..], true);
    }
  }

  /** A head of three lines: the last one is folded into a header and is the only one that names a length. */
  predicate OnlyFoldedNames(start: string, plain: string, folded: string) {
    && NoBreak(start) && NoBreak(plain) && NoBreak(folded)
    && plain != "" && !Blank(plain[0]) && !Malformed(plain) && !NamesLength(plain)
    && folded != "" && Blank(folded[0]) && NamesLength(folded)
  }

  lemma FoldedParses(plain: string, folded: string)
    requires OnlyFoldedNames("", plain, folded)
    ensures ParseHeaders([plain, folded], []).Some? && LengthHeader([plain, folded], false).None?
    ensures LengthIn([plain, folded]) == Integer(ValueOf(folded), SIZE_MAX)
  {
    var lines := [plain, folded];
    var h := HeaderIn(plain);
    assert lines[1..] == [folded] && [folded][1..] == [];
    assert ParseHeaders(lines, []) == ParseHeaders([folded], [] + [h]);
    assert [] + [h] == [h];
    assert ParseHeaders([folded], [h]) == ParseHeaders([], Continue([h], folded));
    assert LengthHeader(lines, false) == LengthHeader([folded], true) == LengthHeader([], true);
    assert LengthIn(lines) == LengthIn([folded]);
  }

  /** The claim that both always agree is false: here the framer reads a length and the parser sees none. */
  lemma FoldedDiffers(start: string, plain: string, folded: string)
    requires OnlyFoldedNames(start, plain, folded)
    ensures var head := Join([start, plain, folded]);
            && Lines(head) == [start, plain, folded]
            && ContentLength(head) == Integer(ValueOf(folded), SIZE_MAX)
            && ParseHeaders(Lines(head)[1..], []).Some?
            && ParsedLength(ParseHeaders(Lines(head)[1..], []).value) == None
  {
    var lines := [start, plain, folded];
    assert lines[1..] == [plain, folded];
    LinesOfJoin(lines);
    FoldedParses(plain, folded);
    ParserFinds([plain, folded], []);
  }

  lemma PlainLine()
    ensures var s := "A: b"; NoBreak(s) && !Blank(s[0]) && !Malformed(s) && !NamesLength(s)
  {
    var s := "A: b";
    FindIs(s, ':', 1);
    assert s[..1] == "A";
    NeatStays("A");
    assert Lowercased("A") == "a";
  }

  lemma FoldedLine()
    ensures var s := " l: 5"; NoBreak(s) && Blank(s[0]) && NamesLength(s) && ValueOf(s) == " 5"
  {
    var s := " l: 5";
    FindIs(s, ':', 2);
    assert s[..2] == " " + "l" && s[3..] == " 5";
    TrimmedAfterBlank("l");
    NeatStays("l");
    assert Lowercased("l") == "l";
  }

  lemma FiveReads()
    ensures Integer(" 5", SIZE_MAX) == Some(5)
  {
    TrimmedAfterBlank("5");
    assert " " + "5" == " 5";
    NeatStays("5");
    assert "5"[..0] == "" && Decimal("5") == 5;
  }

  /** The line `BYE sip:x SIP/2.0`. */
  const START: string := "BYE" + " " + "sip:x" + " " + VERSION

  lemma StartLine()
    ensures NoBreak(START) && ParseStart(START) == Some(RequestLine("BYE", "sip:x"))
  {
    assert NoBreak("BYE" + " " + "sip:x" + " ") && NoBreak(VERSION);
    RequestLineParses("BYE", "sip:x");
  }

  /** For instance a request with `l: 5` folded into the header `A: b`: the framer reads 5, the parser no length. */
  lemma FoldedFive()
    ensures var head := Join([START, "A: b", " l: 5"]);
            && Lines(head) == [START, "A: b", " l: 5"] && ParseStart(START).Some? && ContentLength(head) == Some(5)
            && ParseHeaders(Lines(head)[1..], []).Some?
            && ParsedLength(ParseHeaders(Lines(head)[1..], []).value) == None
  {
    StartLine();
    PlainLine();
    FoldedLine();
    FiveReads();
    FoldedDiffers(START, "A: b", " l: 5");
  }

  lemma ZeroLine()
    ensures var s := "l: 0"; NoBreak(s) && !Blank(s[0]) && !Malformed(s) && NamesLength(s) && ValueOf(s) == " 0"
  {
    var s := "l: 0";
    FindIs(s, ':', 1);
    assert s[..1] == "l" && s[2..] == " 0";
    NeatStays("l");
    assert Lowercased("l") == "l";
  }

  lemma ZeroReads()
    ensures Integer(" 0", SIZE_MAX) == Some(0) && Trimmed(" 0") == "0" && Integer("0", SIZE_MAX) == Some(0)
  {
    TrimmedAfterBlank("0");
    assert " " + "0" == " 0";
    NeatStays("0");
    assert "0"[..0] == "" && Decimal("0") == 0;
  }

  /** The header lines `l: 0` and its continuation ` x`. */
  lemma TailAdded()
    ensures var lines := ["l: 0", " x"];
            && LengthIn(lines) == Some(0) && ParseHeaders(lines, []).Some?
            && LengthHeader(lines, false) == Some(Announcement("0", " x"))
  {
    var lines := ["l: 0", " x"];
    assert lines[1..] == [" x"] && [" x"][1..] == [];
    ZeroLine();
    ZeroReads();
    var h := HeaderIn("l: 0");
    assert ParseHeaders(lines, []) == ParseHeaders([" x"], [] + [h]);
    assert [] + [h] == [h];
    assert ParseHeaders([" x"], [h]) == ParseHeaders([], Continue([h], " x"));
    TrimmedAfterBlank("x");
    NeatStays("x");
    assert " " + "x" == " x" && TailText([]) == "" && " x" + "" == " x";
    assert TailText([" x"]) == " " + Trimmed(" x") + TailText([]);
  }

  lemma ShortHead(start: string)
    requires start != ""
    ensures |Join([start, "l: 0", " x"])| == |start| + 10 && Join([start, "l: 0", " x"])[0] == start[0]
  {
    var lines := [start, "l: 0", " x"];
    assert lines[1..] == ["l: 0", " x"] && lines[1..][1..] == [" x"];
    assert Join(lines) == start + "\r\n" + Join(lines[1..]);
    assert Join(lines[1..]) == "l: 0" + "\r\n" + Join(lines[1..][1..]);
  }

  /** Text added to a length that has some leaves no number, and the message is refused. */
  lemma AddedTextRefused(m: string)
    requires Acceptable(m)
    requires var header := LengthHeader(Lines(HeadOf(m))[1..], false);
             header.Some? && header.value.value != "" && Trimmed(header.value.tail) != ""
    ensures Parsed(m) == None
  {
    var lines := Lines(HeadOf(m))[1..];
    var header := LengthHeader(lines, false).value;
    ParserFinds(lines, []);
    AnnouncementNeat(lines, false);
    BlankInside(header.value, header.tail);
    ParsedMessage(m);
  }

  /** Lines without a body, behind the end of the head. */
  lemma EmptyMessage(lines: seq<string>)
    requires |lines| > 1 && AllNoBreak(lines) && (forall i :: 0 <= i < |lines| ==> lines[i] != "")
    requires Join(lines) != "" && !LineBreak(Join(lines)[0]) && |Join(lines)| + 4 <= MAX_MESSAGE
    requires LengthIn(lines[1..]) == Some(0) && ParseStart(lines[0]).Some? && ParseHeaders(lines[1..], []).Some?
    ensures var m := Join(lines) + HEAD_END;
            FindText(m, HEAD_END).Some? && HeadOf(m) == Join(lines) && Lines(HeadOf(m)) == lines && Acceptable(m)
  {
    var head := Join(lines);
    var m := head + HEAD_END;
    LinesOfJoin(lines);
    HeadEnds(lines, "");
    assert head + HEAD_END + "" == m;
    assert m[..|head|] == head && m[0] == head[0];
  }

  /** A message whose header lines are `l: 0` and its continuation ` x`. */
  lemma TailAcceptable(start: string)
    requires start != "" && NoBreak(start) && ParseStart(start).Some? && |start| + 14 <= MAX_MESSAGE
    ensures var m := Join([start, "l: 0", " x"]) + HEAD_END;
            FindText(m, HEAD_END).Some? && Lines(HeadOf(m)) == [start, "l: 0", " x"] && Acceptable(m)
  {
    var lines := [start, "l: 0", " x"];
    assert lines[1..] == ["l: 0", " x"];
    ZeroLine();
    TailAdded();
    ShortHead(start);
    EmptyMessage(lines);
  }

  /** Behind any start line, the framer cuts this message out and the parser refuses it. */
  lemma TailRefused(start: string, m: string)
    requires start != "" && NoBreak(start) && ParseStart(start).Some? && |start| + 14 <= MAX_MESSAGE
    requires m == Join([start, "l: 0", " x"]) + HEAD_END
    ensures Acceptable(m) && Parsed(m) == None
  {
    TailAcceptable(start);
    assert [start, "l: 0", " x"][1..] == ["l: 0", " x"];
    TailAdded();
    TrimmedAfterBlank("x");
    NeatStays("x");
    assert " " + "x" == " x";
    AddedTextRefused(m);
  }

  /** The claim that the body is always kept is false. */
  lemma FoldedRefused()
    ensures var m := Join([START, "l: 0", " x"]) + HEAD_END; Acceptable(m) && Parsed(m) == None
  {
    StartLine();
    TailRefused(START, Join([START, "l: 0", " x"]) + HEAD_END);
  }
}
