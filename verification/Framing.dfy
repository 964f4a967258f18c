/** How the receiver of a forwarded request reads it: an independent reader of request
    heads, after section 2.2 and section 5 of RFC 9112, and the length rule of section
    6.3 of RFC 9112. The head that is printed reads back as the headers that were kept,
    and frames exactly the body bytes that are forwarded.
 */
module Framing {
  import opened Basics
  import opened RequestHead
  import opened Responses

  datatype Cut = NoCut | Cut(before: string, after: string)

  /** Splits at the first CRLF. */
  function FirstLine(s: string): (c: Cut)
    ensures c.Cut? ==> |c.after| < |s|
  {
    if |s| < 2 then NoCut
    else if s[0] == '\r' && s[1] == '\n' then Cut("", s[2..])
    else
      match FirstLine(s[1..])
      case NoCut => NoCut
      case Cut(line, rest) => Cut([s[0]] + line, rest)
  }

  /** Splits at the first `c`. */
  function SplitAt(c: char, s: string): Cut {
    if s == "" then NoCut
    else if s[0] == c then Cut("", s[1..])
    else
      match SplitAt(c, s[1..])
      case NoCut => NoCut
      case Cut(before, after) => Cut([s[0]] + before, after)
  }

  predicate Space(c: char) {
    c == ' ' || c == '\t'
  }

  /** Optional whitespace around a value is not part of it. */
  function Trim(s: string): string {
    if s != "" && Space(s[0]) then Trim(s[1..])
    else if s != "" && Space(s[|s| - 1]) then Trim(s[..|s| - 1])
    else s
  }

  datatype Fields = BadFields | Fields(headers: seq<Header>, rest: string)

  function ReadFields(s: string): Fields
    decreases |s|
  {
    match FirstLine(s)
    case NoCut => BadFields
    case Cut(line, rest) =>
      if line == "" then Fields([], rest)
      else
        match SplitAt(':', line)
        case NoCut => BadFields
        case Cut(name, value) =>
          match ReadFields(rest)
          case BadFields => BadFields
          case Fields(headers, body) => Fields([Header(name, Trim(value))] + headers, body)
  }

  datatype Seen = Unreadable | Seen(verb: string, target: string, version: string, headers: seq<Header>, rest: string)

  function ReadRequest(s: string): Seen {
    match FirstLine(s)
    case NoCut => Unreadable
    case Cut(line, rest) =>
      match SplitAt(' ', line)
      case NoCut => Unreadable
      case Cut(verb, more) =>
        match SplitAt(' ', more)
        case NoCut => Unreadable
        case Cut(target, version) =>
          match ReadFields(rest)
          case BadFields => Unreadable
          case Fields(headers, body) => Seen(verb, target, version, headers, body)
  }

  /** The fields with this name, in order; a reader compares names in capitals. */
  function Ones(headers: seq<Header>, capitals: string): seq<Header> {
    if headers == [] then []
    else (if Called(headers[0], capitals) then [headers[0]] else []) + Ones(headers[1..], capitals)
  }

  /** The length of the body that the headers announce, when they announce one unambiguously. */
  function BodyLength(headers: seq<Header>): Option<nat> {
    var lengths := Ones(headers, LENGTH);
    if Ones(headers, CODING) != [] then None
    else if lengths == [] then Some(0)
    else if |lengths| == 1 && ValidLength(lengths[0].value) then Some(Decimal(lengths[0].value))
    else None
  }

  // ---- what a parsed request looks like ----

  predicate Lacks(s: string, c: char) {
    forall i :: 0 <= i < |s| ==> s[i] != c
  }

  predicate WellFormedHeader(h: Header) {
    && (h.Header? ==> h.name != "" && Lacks(h.name, ':') && Lacks(h.name, '\r'))
    && Lacks(h.value, '\r') && Trim(h.value) == h.value
  }

  predicate WellFormed(verb: string, path: string, headers: seq<Header>) {
    && Lacks(verb, ' ') && Lacks(verb, '\r') && Lacks(path, ' ') && Lacks(path, '\r')
    && forall i :: 0 <= i < |headers| ==> WellFormedHeader(headers[i])
  }

  // ---- reading back ----

  lemma {:induction false} FirstLineOf(line: string, rest: string)
    requires Lacks(line, '\r')
    ensures FirstLine(line + "\r\n" + rest) == Cut(line, rest)
  {
    var s := line + "\r\n" + rest;
    if line == "" {
      assert s[2..] == rest;
    } else {
      FirstLineOf(line[1..], rest);
      assert s[1..] == line[1..] + "\r\n" + rest;
      assert [line[0]] + line[1..] == line;
    }
  }

  lemma {:induction false} SplitOf(c: char, before: string, after: string)
    requires Lacks(before, c)
    ensures SplitAt(c, before + [c] + after) == Cut(before, after)
  {
    var s := before + [c] + after;
    if before == "" {
      assert s[1..] == after;
    } else {
      SplitOf(c, before[1..], after);
      assert s[1..] == before[1..] + [c] + after;
      assert [before[0]] + before[1..] == before;
    }
  }

  lemma LineReadsBack(h: Header, tail: string)
    requires h.Header? && WellFormedHeader(h) && ReadFields(tail).Fields?
    ensures ReadFields(Line(h) + tail) == Fields([h] + ReadFields(tail).headers, ReadFields(tail).rest)
  {
    var line := h.name + ": " + h.value;
    assert line == h.name + [':'] + (" " + h.value);
    SplitOf(':', h.name, " " + h.value);
    assert (" " + h.value)[1..] == h.value;
    FirstLineOf(line, tail);
    assert Line(h) + tail == line + "\r\n" + tail;
  }

  lemma {:induction false} LinesReadBack(hs: seq<Header>, n: nat, tail: string)
    requires n <= |hs| && ReadFields(tail).Fields?
    requires forall i :: 0 <= i < |hs| ==> WellFormedHeader(hs[i])
    ensures ReadFields(Lines(hs, n) + tail) == Fields(Kept(hs, n) + ReadFields(tail).headers, ReadFields(tail).rest)
  {
    hide ReadFields, FirstLine, Trim;
    if n == 0 {
      assert Lines(hs, n) + tail == tail;
    } else if Forwarded(hs[n - 1]) {
      var h := hs[n - 1];
      LineReadsBack(h, tail);
      LinesReadBack(hs, n - 1, Line(h) + tail);
      assert Lines(hs, n) + tail == Lines(hs, n - 1) + (Line(h) + tail);
    } else {
      LinesReadBack(hs, n - 1, tail);
    }
  }

  lemma EndReadsBack(rest: string)
    ensures ReadFields(Line(CLOSE) + ("\r\n" + rest)) == Fields([CLOSE], rest)
  {
    FirstLineOf("", rest);
    assert "" + "\r\n" + rest == "\r\n" + rest;
    assert Trim("close") == "close";
    LineReadsBack(CLOSE, "\r\n" + rest);
  }

  lemma RequestReadsBack(line: string, verb: string, more: string, target: string, version: string, fields: string)
    requires Lacks(line, '\r') && SplitAt(' ', line) == Cut(verb, more) && SplitAt(' ', more) == Cut(target, version)
    requires ReadFields(fields).Fields?
    ensures ReadRequest(line + "\r\n" + fields)
            == Seen(verb, target, version, ReadFields(fields).headers, ReadFields(fields).rest)
  {
    FirstLineOf(line, fields);
  }

  lemma StartLineSplits(verb: string, path: string)
    requires Lacks(verb, ' ') && Lacks(path, ' ') && Lacks(verb, '\r') && Lacks(path, '\r')
    ensures var line := verb + " " + path + " HTTP/1.1";
            && Lacks(line, '\r')
            && SplitAt(' ', line) == Cut(verb, path + " HTTP/1.1")
            && SplitAt(' ', path + " HTTP/1.1") == Cut(path, "HTTP/1.1")
  {
    var version := "HTTP/1.1";
    assert verb + " " + path + " HTTP/1.1" == verb + [' '] + (path + " HTTP/1.1");
    assert path + " HTTP/1.1" == path + [' '] + version;
    SplitOf(' ', verb, path + " HTTP/1.1");
    SplitOf(' ', path, version);
  }

  lemma Regroup(line: string, crlf: string, lines: string, last: string, rest: string)
    ensures line + crlf + lines + (last + crlf) + rest == line + crlf + (lines + (last + (crlf + rest)))
  {
    var start := line + crlf;
    assert last + crlf + rest == last + (crlf + rest);
    assert start + lines + (last + crlf) + rest == start + lines + (last + crlf + rest);
    assert start + lines + (last + crlf + rest) == start + (lines + (last + crlf + rest));
  }

  lemma PrintParts(verb: string, path: string, headers: seq<Header>, rest: string)
    ensures Print(verb, path, headers) + rest
            == (verb + " " + path + " HTTP/1.1") + "\r\n" + (Lines(headers, |headers|) + (Line(CLOSE) + ("\r\n" + rest)))
  {
    var line, lines := verb + " " + path + " HTTP/1.1", Lines(headers, |headers|);
    StartLineParts(verb + " " + path);
    LastLineParts();
    Regroup(line, "\r\n", lines, Line(CLOSE), rest);
  }

  lemma StartLineParts(start: string)
    ensures start + " HTTP/1.1\r\n" == start + " HTTP/1.1" + "\r\n"
  {
    assert " HTTP/1.1\r\n" == " HTTP/1.1" + "\r\n";
  }

  lemma LastLineParts()
    ensures "Connection: close\r\n\r\n" == Line(CLOSE) + "\r\n"
  {
  }

  /** Whatever follows it, the forwarded head reads back as the verb, the target, the kept headers
      in order and one Connection header. */
  lemma ForwardedHeadReadsBack(verb: string, path: string, headers: seq<Header>, rest: string)
    requires WellFormed(verb, path, headers)
    ensures ReadRequest(Print(verb, path, headers) + rest)
            == Seen(verb, path, "HTTP/1.1", Kept(headers, |headers|) + [CLOSE], rest)
  {
    EndReadsBack(rest);
    var tail := Line(CLOSE) + ("\r\n" + rest);
    LinesReadBack(headers, |headers|, tail);
    StartLineSplits(verb, path);
    RequestReadsBack(verb + " " + path + " HTTP/1.1", verb, path + " HTTP/1.1", path, "HTTP/1.1",
                     Lines(headers, |headers|) + tail);
    PrintParts(verb, path, headers, rest);
  }

  // ---- framing ----

  lemma {:induction false} OnesOfMore(hs: seq<Header>, h: Header, capitals: string)
    ensures Ones(hs + [h], capitals) == Ones(hs, capitals) + if Called(h, capitals) then [h] else []
  {
    hide Called;
    if hs == [] {
      assert hs + [h] == [h];
    } else {
      OnesOfMore(hs[1..], h, capitals);
      assert (hs + [h])[1..] == hs[1..] + [h];
    }
  }

  /** What is dropped is called otherwise. */
  lemma {:induction false} OnesAreKept(hs: seq<Header>, n: nat, capitals: string)
    requires n <= |hs| && !Hop(capitals)
    ensures Ones(Kept(hs, n), capitals) == Ones(hs[..n], capitals)
  {
    hide Hop, HopByHop, Ones;
    if n != 0 {
      OnesAreKept(hs, n - 1, capitals);
      var h := hs[n - 1];
      assert hs[..n] == hs[..n - 1] + [h];
      OnesOfMore(hs[..n - 1], h, capitals);
      OnesOfMore(Kept(hs, n - 1), h, capitals);
      if h.Header? {
        HopIs(h.name);
      }
    }
  }

  lemma {:induction false} NoOnes(hs: seq<Header>, capitals: string)
    requires NoneCalled(hs, |hs|, capitals)
    ensures Ones(hs, capitals) == []
  {
    hide Called;
    if hs != [] {
      assert forall i :: 0 <= i < |hs| - 1 ==> hs[1..][i] == hs[i + 1];
      NoOnes(hs[1..], capitals);
    }
  }

  lemma {:induction false} OneOfThem(hs: seq<Header>, k: nat, capitals: string)
    requires k < |hs| && Alone(hs, 0, k, |hs|, capitals)
    ensures Ones(hs, capitals) == [hs[k]]
  {
    hide Called;
    assert forall i :: 0 <= i < |hs| - 1 ==> hs[1..][i] == hs[i + 1];
    if k == 0 {
      NoOnes(hs[1..], capitals);
    } else {
      OneOfThem(hs[1..], k - 1, capitals);
    }
  }

  lemma KeptAreNoHops(kept: seq<Header>)
    requires forall i :: 0 <= i < |kept| ==> Forwarded(kept[i])
    ensures forall i :: 0 <= i < |kept| ==> kept[i].Header? && !Hop(Capitals(kept[i].name))
    ensures NoneCalled(kept, |kept|, "CONNECTION") && NoneCalled(kept, |kept|, CODING)
  {
    hide HopByHop, Capitals;
    forall i | 0 <= i < |kept| ensures kept[i].Header? && !Hop(Capitals(kept[i].name)) {
      HopIs(kept[i].name);
    }
  }

  lemma LengthIsNoHop()
    ensures !Hop(LENGTH) && !Called(CLOSE, LENGTH) && !Called(CLOSE, CODING) && Called(CLOSE, "CONNECTION")
  {
    var close := Capitals(CLOSE.name);
    assert |close| == 10 && |LENGTH| == 14 && |CODING| == 17;
    assert close == "CONNECTION";
  }

  /** For every request that is let through, what the receiver reads from the forwarded head frames
      exactly the announced body, with no transfer coding and a single Connection header. */
  lemma FramingAgrees(headers: seq<Header>, length: nat)
    requires NoneCalled(headers, |headers|, CODING) && OnlyLength(headers, length)
    ensures var seen := Kept(headers, |headers|) + [CLOSE];
            && BodyLength(seen) == Some(length)
            && Ones(seen, "CONNECTION") == [CLOSE] && Ones(seen, CODING) == []
            && forall i :: 0 <= i < |seen| - 1 ==> seen[i].Header? && !Hop(Capitals(seen[i].name))
  {
    hide Ones, Capitals, Hop;
    var kept := Kept(headers, |headers|);
    LengthIsNoHop();
    KeptAreNoHops(kept);
    NoOnes(kept, "CONNECTION");
    NoOnes(kept, CODING);
    OnesAreKept(headers, |headers|, LENGTH);
    assert headers[..|headers|] == headers;
    if NoneCalled(headers, |headers|, LENGTH) {
      NoOnes(headers, LENGTH);
    } else {
      var k: nat :| k < |headers| && Alone(headers, 0, k, |headers|, LENGTH) && ValidLength(headers[k].value)
                    && Decimal(headers[k].value) == length;
      OneOfThem(headers, k, LENGTH);
    }
    OnesOfMore(kept, CLOSE, LENGTH);
    OnesOfMore(kept, CLOSE, CODING);
    OnesOfMore(kept, CLOSE, "CONNECTION");
  }

  // ---- the responses that are made up ----

  function StatusLine(a: Answer): string {
    "HTTP/1.1 " + DecimalText(Code(a)) + " " + Reason(Code(a))
  }

  const PLAIN := Header("Content-Type", "text/plain")
  const UNSTORED := Header("Cache-Control", "no-store")

  function LengthHeader(length: nat): Header {
    Header("Content-Length", DecimalText(length))
  }

  lemma HeadParts(start: string, digits: string, rest: string)
    ensures start + "\r\n" + BEFORE_LENGTH + digits + AFTER_LENGTH + rest
            == start + "\r\n" + (Line(PLAIN) + (Line(Header("Content-Length", digits)) + (Line(UNSTORED) + (Line(CLOSE) + ("\r\n" + rest)))))
  {
    var length := Line(Header("Content-Length", digits));
    BeforeLength();
    AfterLength();
    assert length == "Content-Length: " + digits + "\r\n";
    Join5(start + "\r\n", Line(PLAIN), "Content-Length: ", digits, "\r\n", Line(UNSTORED) + (Line(CLOSE) + "\r\n"), rest);
    Join3(Line(UNSTORED), Line(CLOSE), "\r\n", rest);
  }

  lemma BeforeLength()
    ensures BEFORE_LENGTH == Line(PLAIN) + "Content-Length: "
  {
  }

  lemma AfterLength()
    ensures AFTER_LENGTH == "\r\n" + (Line(UNSTORED) + (Line(CLOSE) + "\r\n"))
  {
    UnstoredLine();
    LastLineParts();
    assert AFTER_LENGTH == "\r\n" + (Line(UNSTORED) + (Line(CLOSE) + "\r\n"));
  }

  lemma UnstoredLine()
    ensures Line(UNSTORED) == "Cache-Control: no-store\r\n"
  {
  }

  lemma Join5(a: string, b: string, c: string, d: string, e: string, f: string, g: string)
    ensures a + (b + c) + d + (e + f) + g == a + (b + ((c + d + e) + (f + g)))
  {
    assert a + (b + c) + d + (e + f) + g == a + ((b + c) + d + (e + f) + g);
    assert (b + c) + d + (e + f) + g == b + (c + d + (e + f) + g);
    assert c + d + (e + f) + g == (c + d + e) + (f + g);
  }

  lemma Join3(a: string, b: string, c: string, d: string)
    ensures a + (b + c) + d == a + (b + (c + d))
  {
    assert a + (b + c) + d == a + ((b + c) + d);
    assert (b + c) + d == b + (c + d);
  }

  lemma DigitsAreWellFormed(digits: string)
    requires Digits(digits) && digits != ""
    ensures WellFormedHeader(Header("Content-Length", digits))
  {
  }

  lemma ReasonIsOneLine(a: Answer)
    ensures Lacks(StatusLine(a), '\r')
  {
    hide Reason, DecimalText, Code, Digits;
    ReasonLacks(Code(a));
    DigitsLack(DecimalText(Code(a)));
  }

  lemma DigitsLack(digits: string)
    requires Digits(digits)
    ensures Lacks(digits, '\r')
  {
  }

  lemma ReasonLacks(code: nat)
    ensures Lacks(Reason(code), '\r')
  {
    hide Reason, Lacks;
    if code <= 405 {
      EarlyReasonLacks(code);
    } else if code <= 431 {
      MiddleReasonLacks(code);
    } else {
      LateReasonLacks(code);
    }
  }

  lemma EarlyReasonLacks(code: nat)
    requires code <= 405
    ensures Lacks(Reason(code), '\r')
  {
  }

  lemma MiddleReasonLacks(code: nat)
    requires 405 < code <= 431
    ensures Lacks(Reason(code), '\r')
  {
  }

  lemma LateReasonLacks(code: nat)
    requires code > 431
    ensures Lacks(Reason(code), '\r')
  {
  }

  /** A made-up response reads back as its status line, its four headers and its body: it announces the length of its text
      in the only Content-Length, and the text follows unless only the head is wanted. */
  lemma AnswerFramesItsBody(a: Answer)
    ensures var first := FirstLine(Render(a));
            && first.Cut? && first.before == StatusLine(a)
            && ReadFields(first.after) == Fields([PLAIN, LengthHeader(|Text(a)|), UNSTORED, CLOSE], if HeadOnly(a) then "" else Text(a))
    ensures Digits(LengthHeader(|Text(a)|).value) && Decimal(LengthHeader(|Text(a)|).value) == |Text(a)|
  {
    hide FirstLine, ReadFields, Trim, Line, Lacks, DecimalText;
    var length, body := LengthHeader(|Text(a)|), if HeadOnly(a) then "" else Text(a);
    DecimalTextReadsBack(|Text(a)|);
    DigitsAreWellFormed(length.value);
    ConstantsAreWellFormed();
    EndReadsBack(body);
    var end := Line(CLOSE) + ("\r\n" + body);
    LineReadsBack(UNSTORED, end);
    LineReadsBack(length, Line(UNSTORED) + end);
    LineReadsBack(PLAIN, Line(length) + (Line(UNSTORED) + end));
    HeadParts(StatusLine(a), length.value, body);
    ReasonIsOneLine(a);
    FirstLineOf(StatusLine(a), Line(PLAIN) + (Line(length) + (Line(UNSTORED) + end)));
    RenderParts(a, body);
  }

  lemma RenderParts(a: Answer, body: string)
    requires body == if HeadOnly(a) then "" else Text(a)
    ensures Render(a) == StatusLine(a) + "\r\n" + BEFORE_LENGTH + DecimalText(|Text(a)|) + AFTER_LENGTH + body
  {
    hide DecimalText, Reason, Text;
    var head := Head(Code(a), Reason(Code(a)), |Text(a)|);
    assert head + "" == head;
  }

  lemma ConstantsAreWellFormed()
    ensures WellFormedHeader(PLAIN) && WellFormedHeader(UNSTORED)
  {
  }
}
