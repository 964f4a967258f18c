/** The request head: what the proxy keeps of a parsed request, how it prints the head
    it forwards, and how a reader of that head frames the body that follows.
 */
module RequestHead {
  import opened Basics

  /** One parsed header; a continuation line carries no name. */
  datatype Header = Header(name: string, value: string) | Continuation(value: string)

  /** The parser's verdict on the bytes received so far. */
  datatype Parse =
    | Incomplete
    | Malformed
    | Parsed(verb: string, path: string, headers: seq<Header>, headLen: nat)

  const DROPPED := ["connection", "keep-alive", "proxy-connection", "transfer-encoding", "te", "trailer", "upgrade"]

  function Lower(c: char): char {
    if 'A' <= c <= 'Z' then c + 32 as char else c
  }

  predicate SameName(a: string, b: string) {
    if a == "" || b == "" then a == b else Lower(a[0]) == Lower(b[0]) && SameName(a[1..], b[1..])
  }

  lemma {:induction false} SameNameLetterwise(a: string, b: string)
    ensures SameName(a, b) <==> |a| == |b| && forall i :: 0 <= i < |a| ==> Lower(a[i]) == Lower(b[i])
  {
    if a != "" && b != "" {
      SameNameLetterwise(a[1..], b[1..]);
      assert forall i :: 0 < i < |a| ==> a[i] == a[1..][i - 1];
      assert forall i :: 0 < i < |b| ==> b[i] == b[1..][i - 1];
    }
  }

  // ---- case folding, said the other way round ----

  function Upper(c: char): char {
    if 'a' <= c <= 'z' then c - 32 as char else c
  }

  /** A name in capitals. */
  function Capitals(name: string): (capitals: string)
    ensures |capitals| == |name| && forall i :: 0 <= i < |name| ==> capitals[i] == Upper(name[i])
  {
    seq(|name|, i requires 0 <= i < |name| => Upper(name[i]))
  }

  lemma FoldsAlike(c: char, d: char)
    ensures Lower(c) == Lower(d) <==> Upper(c) == Upper(d)
  {
  }

  /** Names are the same exactly if they are in capitals; and every letter has its capital. */
  lemma FoldsCase(a: string, b: string)
    ensures SameName(a, b) <==> |a| == |b| && forall i :: 0 <= i < |a| ==> Upper(a[i]) == Upper(b[i])
    ensures SameName(a, b) <==> Capitals(a) == Capitals(b)
    ensures Capitals("abcdefghijklmnopqrstuvwxyz") == "ABCDEFGHIJKLMNOPQRSTUVWXYZ"
  {
    SameNameLetterwise(a, b);
    if |a| == |b| {
      forall i | 0 <= i < |a| ensures Lower(a[i]) == Lower(b[i]) <==> Upper(a[i]) == Upper(b[i]) {
        FoldsAlike(a[i], b[i]);
      }
      if Capitals(a) == Capitals(b) {
        assert forall i :: 0 <= i < |a| ==> Upper(a[i]) == Capitals(a)[i] == Capitals(b)[i] == Upper(b[i]);
      }
    }
  }

  /** The header has this name, whatever its case. */
  predicate Called(h: Header, capitals: string) {
    h.Header? && Capitals(h.name) == capitals
  }

  /** The names that are not forwarded. */
  predicate Hop(capitals: string) {
    || capitals == "CONNECTION" || capitals == "KEEP-ALIVE" || capitals == "PROXY-CONNECTION" || capitals == "TRANSFER-ENCODING"
    || capitals == "TE" || capitals == "TRAILER" || capitals == "UPGRADE"
  }

  lemma KnownNames()
    ensures Capitals("host") == "HOST" && Capitals("content-length") == "CONTENT-LENGTH"
    ensures Capitals("transfer-encoding") == "TRANSFER-ENCODING" && Capitals("connection") == "CONNECTION"
    ensures Capitals("keep-alive") == "KEEP-ALIVE" && Capitals("proxy-connection") == "PROXY-CONNECTION"
    ensures Capitals("te") == "TE" && Capitals("trailer") == "TRAILER" && Capitals("upgrade") == "UPGRADE"
  {
  }

  method EqualIgnoringCase(a: string, b: string) returns (same: bool)
    ensures same == SameName(a, b)
    ensures same <==> |a| == |b| && forall i :: 0 <= i < |a| ==> Upper(a[i]) == Upper(b[i])
  {
    FoldsCase(a, b);
    SameNameLetterwise(a, b);
    if |a| != |b| {
      return false;
    }
    for i := 0 to |a|
      invariant forall k :: 0 <= k < i ==> Lower(a[k]) == Lower(b[k])
    {
      if Lower(a[i]) != Lower(b[i]) {
        return false;
      }
    }
    return true;
  }

  /** `name` is one of the first `n` of the names that are dropped. */
  predicate DroppedAmong(name: string, n: nat)
    requires n <= |DROPPED|
  {
    n != 0 && (SameName(name, DROPPED[n - 1]) || DroppedAmong(name, n - 1))
  }

  predicate HopByHop(name: string) {
    DroppedAmong(name, |DROPPED|)
  }

  lemma HopIs(name: string)
    ensures HopByHop(name) <==> Hop(Capitals(name))
  {
    hide Capitals, SameName;
    KnownNames();
    AmongDropped(name, |DROPPED|);
    forall k | 0 <= k < |DROPPED| ensures SameName(name, DROPPED[k]) <==> Capitals(name) == Capitals(DROPPED[k]) {
      FoldsCase(name, DROPPED[k]);
    }
    assert forall k :: 0 <= k < |DROPPED| ==> Hop(Capitals(DROPPED[k]));
    assert |DROPPED| == 7 && DROPPED[0] == "connection" && DROPPED[1] == "keep-alive" && DROPPED[2] == "proxy-connection"
        && DROPPED[3] == "transfer-encoding" && DROPPED[4] == "te" && DROPPED[5] == "trailer" && DROPPED[6] == "upgrade";
  }

  lemma {:induction false} AmongDropped(name: string, n: nat)
    requires n <= |DROPPED|
    ensures DroppedAmong(name, n) <==> exists k :: 0 <= k < n && SameName(name, DROPPED[k])
  {
    if n != 0 {
      AmongDropped(name, n - 1);
    }
  }

  method IsHopByHop(name: string) returns (hop: bool)
    ensures hop == HopByHop(name)
    ensures hop <==> Hop(Capitals(name))
  {
    HopIs(name);
    for i := 0 to |DROPPED|
      invariant !DroppedAmong(name, i)
    {
      var same := EqualIgnoringCase(name, DROPPED[i]);
      if same {
        DroppedAmongMore(name, i + 1, |DROPPED|);
        return true;
      }
    }
    return false;
  }

  lemma {:induction false} DroppedAmongMore(name: string, i: nat, n: nat)
    requires i <= n <= |DROPPED| && DroppedAmong(name, i)
    ensures DroppedAmong(name, n)
  {
    if i < n {
      DroppedAmongMore(name, i, n - 1);
    }
  }

  // ---- decimal numbers ----

  predicate Digits(s: string) {
    forall i :: 0 <= i < |s| ==> '0' <= s[i] <= '9'
  }

  /** The number that a string of decimal digits denotes. */
  function Decimal(s: string): nat
    requires Digits(s)
  {
    if s == "" then 0 else Decimal(s[..|s| - 1]) * 10 + (s[|s| - 1] - '0') as nat
  }

  function Pow10(k: nat): nat {
    if k == 0 then 1 else 10 * Pow10(k - 1)
  }

  lemma {:induction false} DecimalBelowPow10(s: string)
    requires Digits(s)
    ensures Decimal(s) < Pow10(|s|)
  {
    if s != "" {
      DecimalBelowPow10(s[..|s| - 1]);
    }
  }

  lemma {:induction false} Pow10Grows(j: nat, k: nat)
    requires j <= k
    ensures Pow10(j) <= Pow10(k)
  {
    if j < k {
      Pow10Grows(j, k - 1);
    }
  }

  lemma Pow10Of18()
    ensures Pow10(18) == 1_000_000_000_000_000_000
  {
    assert Pow10(2) == 100;
    assert Pow10(4) == 10_000;
    assert Pow10(6) == 1_000_000;
    assert Pow10(8) == 100_000_000;
    assert Pow10(10) == 10_000_000_000;
    assert Pow10(12) == 1_000_000_000_000;
    assert Pow10(14) == 100_000_000_000_000;
    assert Pow10(16) == 10_000_000_000_000_000;
  }

  predicate ValidLength(v: string) {
    0 < |v| <= 18 && Digits(v)
  }

  /** A long holds every value that this accumulates. */
  method ParseContentLength(v: string) returns (r: Option<nat>)
    ensures r.Some? <==> ValidLength(v)
    ensures r.Some? ==> r.value == Decimal(v) && r.value < 1_000_000_000_000_000_000
  {
    if |v| == 0 || |v| > 18 {
      return None;
    }
    var n: nat := 0;
    for i := 0 to |v|
      invariant Digits(v[..i]) && n == Decimal(v[..i])
      invariant n < 1_000_000_000_000_000_000
    {
      if v[i] < '0' || v[i] > '9' {
        return None;
      }
      assert v[..i + 1][..i] == v[..i];
      n := n * 10 + (v[i] - '0') as nat;
      DecimalBelowPow10(v[..i + 1]);
      Pow10Grows(i + 1, 18);
      Pow10Of18();
    }
    assert v[..|v|] == v;
    return Some(n);
  }

  /** The shortest decimal text of a number, as %zu prints it. */
  function DecimalText(n: nat): (s: string)
    ensures Digits(s) && s != ""
  {
    if n < 10 then ['0' + n as char] else DecimalText(n / 10) + ['0' + (n % 10) as char]
  }

  lemma {:induction false} DecimalTextReadsBack(n: nat)
    ensures Decimal(DecimalText(n)) == n
  {
    if n >= 10 {
      DecimalTextReadsBack(n / 10);
      var s := DecimalText(n);
      assert s[..|s| - 1] == DecimalText(n / 10);
    }
  }

  /** The first digit counts for as many tens as digits follow. */
  lemma {:induction false} DecimalFromFront(s: string)
    requires Digits(s) && s != ""
    ensures Decimal(s) == (s[0] - '0') as nat * Pow10(|s| - 1) + Decimal(s[1..])
  {
    if |s| > 1 {
      var t := s[..|s| - 1];
      DecimalFromFront(t);
      assert s[1..][..|s| - 2] == t[1..];
      TenTimes((s[0] - '0') as nat, Pow10(|s| - 2));
    }
  }

  lemma TenTimes(d: nat, p: nat)
    ensures d * p * 10 == d * (10 * p)
  {
  }

  lemma {:induction false} DecimalTextIsShort(n: nat, k: nat)
    requires n < Pow10(k) && k > 0
    ensures |DecimalText(n)| <= k
  {
    if n >= 10 {
      DecimalTextIsShort(n / 10, k - 1);
    }
  }

  /** Every length below 10^18 can be announced. */
  lemma LengthsAreAccepted(n: nat)
    requires n < 1_000_000_000_000_000_000
    ensures ValidLength(DecimalText(n)) && Decimal(DecimalText(n)) == n
  {
    Pow10Of18();
    DecimalTextIsShort(n, 18);
    DecimalTextReadsBack(n);
  }

  // ---- the head that is forwarded ----

  predicate Named(h: Header, name: string) {
    h.Header? && SameName(h.name, name)
  }

  /** The headers with a given name among the first `n`, in order. */
  function Select(hs: seq<Header>, n: nat, name: string): (r: seq<Header>)
    requires n <= |hs|
    ensures forall i :: 0 <= i < |r| ==> Named(r[i], name)
  {
    if n == 0 then []
    else if Named(hs[n - 1], name) then Select(hs, n - 1, name) + [hs[n - 1]]
    else Select(hs, n - 1, name)
  }

  predicate Forwarded(h: Header) {
    h.Header? && !HopByHop(h.name)
  }

  /** The headers among the first `n` that are forwarded, in order. */
  function Kept(hs: seq<Header>, n: nat): (r: seq<Header>)
    requires n <= |hs|
    ensures forall i :: 0 <= i < |r| ==> Forwarded(r[i]) && r[i] in hs
  {
    if n == 0 then []
    else if Forwarded(hs[n - 1]) then Kept(hs, n - 1) + [hs[n - 1]]
    else Kept(hs, n - 1)
  }

  /** The headers that are kept are those with a name that is not dropped, in order: `at` are their places. */
  lemma {:induction false} KeptPlaces(hs: seq<Header>, n: nat) returns (at: seq<nat>)
    requires n <= |hs|
    ensures |at| == |Kept(hs, n)| && forall i :: 0 <= i < |at| ==> at[i] < n && Kept(hs, n)[i] == hs[at[i]]
    ensures forall i, j :: 0 <= i < j < |at| ==> at[i] < at[j]
    ensures forall k: nat :: k < n ==> (k in at <==> hs[k].Header? && !Hop(Capitals(hs[k].name)))
  {
    hide Capitals, Hop, HopByHop;
    if n == 0 {
      at := [];
    } else {
      at := KeptPlaces(hs, n - 1);
      if hs[n - 1].Header? {
        HopIs(hs[n - 1].name);
      }
      if Forwarded(hs[n - 1]) {
        at := at + [n - 1];
      }
    }
  }

  function Line(h: Header): string
    requires h.Header?
  {
    h.name + ": " + h.value + "\r\n"
  }

  /** The printed lines of the forwarded headers among the first `n`. */
  function Lines(hs: seq<Header>, n: nat): string
    requires n <= |hs|
  {
    if n == 0 then "" else if Forwarded(hs[n - 1]) then Lines(hs, n - 1) + Line(hs[n - 1]) else Lines(hs, n - 1)
  }

  const CLOSE := Header("Connection", "close")

  function StartLine(verb: string, path: string): string {
    verb + " " + path + " HTTP/1.1\r\n"
  }

  /** The head that is forwarded for a verb, a target and the client's headers. */
  function Print(verb: string, path: string, headers: seq<Header>): string {
    StartLine(verb, path) + Lines(headers, |headers|) + "Connection: close\r\n\r\n"
  }

  /** The value of the last header with this name among the first `n`, or nothing. */
  function LastValue(hs: seq<Header>, n: nat, name: string): string
    requires n <= |hs|
  {
    var r := Select(hs, n, name);
    if r == [] then "" else r[|r| - 1].value
  }

  // ---- what the headers say, by their places ----

  /** The header at `k` is the only one with this name from `i` on, up to but not including `n`. */
  predicate Alone(hs: seq<Header>, i: nat, k: nat, n: nat, capitals: string)
    requires i <= k < n <= |hs|
  {
    Called(hs[k], capitals) && forall j :: i <= j < n && j != k ==> !Called(hs[j], capitals)
  }

  /** None of the first `n` headers has this name. */
  predicate NoneCalled(hs: seq<Header>, n: nat, capitals: string)
    requires n <= |hs|
  {
    forall i :: 0 <= i < n ==> !Called(hs[i], capitals)
  }

  /** The value of the last header with this name, or nothing. */
  ghost predicate LastCalled(hs: seq<Header>, capitals: string, value: string) {
    || (NoneCalled(hs, |hs|, capitals) && value == "")
    || exists k: nat :: k < |hs| && Alone(hs, k, k, |hs|, capitals) && hs[k].value == value
  }

  /** The first header with this name stands at `k`. */
  predicate FirstCalled(hs: seq<Header>, capitals: string, k: nat) {
    k < |hs| && Alone(hs, 0, k, k + 1, capitals)
  }

  /** The only length that the headers announce, or 0 when they announce none. */
  ghost predicate OnlyLength(hs: seq<Header>, length: nat) {
    || (NoneCalled(hs, |hs|, LENGTH) && length == 0)
    || exists k: nat :: k < |hs| && Alone(hs, 0, k, |hs|, LENGTH) && ValidLength(hs[k].value) && Decimal(hs[k].value) == length
  }

  const LENGTH := "CONTENT-LENGTH"
  const CODING := "TRANSFER-ENCODING"

  lemma NamedIsCalled(h: Header, name: string, capitals: string)
    requires capitals == Capitals(name)
    ensures Named(h, name) <==> Called(h, capitals)
  {
    hide Capitals, SameName;
    if h.Header? {
      FoldsCase(h.name, name);
    }
  }

  lemma {:induction false} NoneSelected(hs: seq<Header>, n: nat, name: string, capitals: string)
    requires n <= |hs| && capitals == Capitals(name)
    ensures Select(hs, n, name) == [] <==> NoneCalled(hs, n, capitals)
  {
    hide Capitals, Named, Called;
    if n != 0 {
      NoneSelected(hs, n - 1, name, capitals);
      NamedIsCalled(hs[n - 1], name, capitals);
    }
  }

  /** The place of the first header that is selected. */
  lemma {:induction false} FirstSelected(hs: seq<Header>, n: nat, name: string, capitals: string) returns (k: nat)
    requires n <= |hs| && capitals == Capitals(name) && Select(hs, n, name) != []
    ensures k < n && Alone(hs, 0, k, k + 1, capitals) && hs[k] == Select(hs, n, name)[0]
  {
    hide Capitals, Named, Called;
    NamedIsCalled(hs[n - 1], name, capitals);
    if Select(hs, n - 1, name) != [] {
      k := FirstSelected(hs, n - 1, name, capitals);
    } else {
      NoneSelected(hs, n - 1, name, capitals);
      k := n - 1;
    }
  }

  /** The place of the last. */
  lemma {:induction false} LastSelected(hs: seq<Header>, n: nat, name: string, capitals: string) returns (k: nat)
    requires n <= |hs| && capitals == Capitals(name) && Select(hs, n, name) != []
    ensures k < n && Alone(hs, k, k, n, capitals) && hs[k] == Select(hs, n, name)[|Select(hs, n, name)| - 1]
  {
    hide Capitals, Named, Called;
    NamedIsCalled(hs[n - 1], name, capitals);
    if Named(hs[n - 1], name) {
      k := n - 1;
    } else {
      k := LastSelected(hs, n - 1, name, capitals);
    }
  }

  /** More than one is selected exactly if another follows the first. */
  lemma {:induction false} MoreSelected(hs: seq<Header>, n: nat, name: string, capitals: string, k: nat)
    requires n <= |hs| && capitals == Capitals(name) && k < n && Alone(hs, 0, k, k + 1, capitals)
    ensures Select(hs, n, name) != [] && (|Select(hs, n, name)| == 1 <==> Alone(hs, 0, k, n, capitals))
  {
    hide Capitals, Named, Called;
    NamedIsCalled(hs[n - 1], name, capitals);
    if k == n - 1 {
      NoneSelected(hs, k, name, capitals);
    } else {
      MoreSelected(hs, n - 1, name, capitals, k);
    }
  }

  /** The header at `k` is the first with this name, and another follows. */
  predicate Repeats(hs: seq<Header>, capitals: string, k: nat) {
    FirstCalled(hs, capitals, k) && !Alone(hs, 0, k, |hs|, capitals)
  }

  lemma LengthsSay(hs: seq<Header>)
    ensures var lengths := Select(hs, |hs|, "content-length");
            && (lengths != [] && !ValidLength(lengths[0].value) <==>
                exists k: nat :: FirstCalled(hs, LENGTH, k) && !ValidLength(hs[k].value))
            && (|lengths| > 1 && ValidLength(lengths[0].value) <==>
                exists k: nat :: Repeats(hs, LENGTH, k) && ValidLength(hs[k].value))
            && (|lengths| <= 1 && (|lengths| == 1 ==> ValidLength(lengths[0].value)) ==> OnlyLength(hs, Announced(hs)))
  {
    hide Capitals, Called, Select, ValidLength, Decimal;
    KnownNames();
    NoneSelected(hs, |hs|, "content-length", LENGTH);
    if Select(hs, |hs|, "content-length") == [] {
      assert forall k: nat :: !FirstCalled(hs, LENGTH, k);
    } else {
      var k := FirstSelected(hs, |hs|, "content-length", LENGTH);
      MoreSelected(hs, |hs|, "content-length", LENGTH, k);
      assert FirstCalled(hs, LENGTH, k) && forall j: nat :: FirstCalled(hs, LENGTH, j) ==> j == k;
    }
  }

  lemma HeadersSay(hs: seq<Header>)
    ensures Select(hs, |hs|, "transfer-encoding") == [] <==> NoneCalled(hs, |hs|, CODING)
    ensures LastCalled(hs, "HOST", LastValue(hs, |hs|, "host"))
  {
    hide Capitals, Called, Select;
    KnownNames();
    NoneSelected(hs, |hs|, "transfer-encoding", CODING);
    NoneSelected(hs, |hs|, "host", "HOST");
    if Select(hs, |hs|, "host") != [] {
      var k := LastSelected(hs, |hs|, "host", "HOST");
    }
  }

  datatype Rewritten =
    | DuplicateLength
    | InvalidLength
    | Rewritten(head: string, host: string, contentLength: nat, chunked: bool)

  /** The header loop of process_head. */
  method Rewrite(verb: string, path: string, headers: seq<Header>) returns (r: Rewritten)
    ensures var lengths := Select(headers, |headers|, "content-length");
            && (r.InvalidLength? <==> lengths != [] && !ValidLength(lengths[0].value))
            && (r.DuplicateLength? <==> |lengths| > 1 && ValidLength(lengths[0].value))
            && (r.Rewritten? ==> r.contentLength == Announced(headers))
    ensures r.Rewritten? ==> r.head == Print(verb, path, headers)
    ensures r.Rewritten? ==> r.host == LastValue(headers, |headers|, "host")
    ensures r.Rewritten? ==> (r.chunked <==> |Select(headers, |headers|, "transfer-encoding")| > 0)
    // The same by the places of the headers, and by names in capitals.
    ensures r.InvalidLength? <==> exists k: nat :: FirstCalled(headers, LENGTH, k) && !ValidLength(headers[k].value)
    ensures r.DuplicateLength? <==> exists k: nat :: Repeats(headers, LENGTH, k) && ValidLength(headers[k].value)
    ensures r.Rewritten? ==> (r.chunked <==> !NoneCalled(headers, |headers|, CODING))
    ensures r.Rewritten? ==> LastCalled(headers, "HOST", r.host) && OnlyLength(headers, r.contentLength)
  {
    hide SameName, Capitals, Hop, NoneCalled, FirstCalled, Repeats, LastCalled, OnlyLength, ValidLength, HopByHop;
    HeadersSay(headers);
    LengthsSay(headers);
    var host, contentLength, sawLength, chunked := "", 0, false, false;
    var head := StartLine(verb, path);
    for i := 0 to |headers|
      invariant head == StartLine(verb, path) + Lines(headers, i)
      invariant host == LastValue(headers, i, "host")
      invariant chunked <==> |Select(headers, i, "transfer-encoding")| > 0
      invariant LengthSoFar(Select(headers, i, "content-length"), sawLength, contentLength)
    {
      var h := headers[i];
      if h.Continuation? {
        continue;
      }
      var isHost := EqualIgnoringCase(h.name, "host");
      if isHost {
        host := h.value;
      }
      var isLength := EqualIgnoringCase(h.name, "content-length");
      if isLength {
        SelectExtends(headers, i + 1, |headers|, "content-length");
        if sawLength {
          return DuplicateLength;
        }
        sawLength := true;
        var parsed := ParseContentLength(h.value);
        if parsed.None? {
          return InvalidLength;
        }
        contentLength := parsed.value;
      }
      var isEncoding := EqualIgnoringCase(h.name, "transfer-encoding");
      if isEncoding {
        chunked := true;
      }
      var hop := IsHopByHop(h.name);
      if hop {
        continue;
      }
      LineAppended(StartLine(verb, path), headers, i);
      head := head + h.name + ": " + h.value + "\r\n";
    }
    head := head + "Connection: close\r\n\r\n";
    return Rewritten(head, host, contentLength, chunked);
  }

  lemma LineAppended(start: string, hs: seq<Header>, i: nat)
    requires i < |hs| && Forwarded(hs[i])
    ensures start + Lines(hs, i) + hs[i].name + ": " + hs[i].value + "\r\n" == start + Lines(hs, i + 1)
  {
    assert Lines(hs, i + 1) == Lines(hs, i) + Line(hs[i]);
    assert start + Lines(hs, i) + hs[i].name + ": " + hs[i].value + "\r\n" == start + Lines(hs, i) + Line(hs[i]);
  }

  /** The body length that headers announce, 0 when they announce none. */
  function Announced(headers: seq<Header>): nat {
    var lengths := Select(headers, |headers|, "content-length");
    if lengths != [] && ValidLength(lengths[0].value) then Decimal(lengths[0].value) else 0
  }

  /** These headers are let through and announce `length` body bytes. */
  predicate Admitted(headers: seq<Header>, length: nat) {
    var lengths := Select(headers, |headers|, "content-length");
    && |Select(headers, |headers|, "transfer-encoding")| == 0
    && |lengths| <= 1 && (|lengths| == 1 ==> ValidLength(lengths[0].value))
    && length == Announced(headers)
  }

  /** A request that is forwarded: what was parsed, the head printed for it, the body length, the bytes
      that it was parsed from, and how many of them are its head. */
  datatype Request =
    Request(verb: string, path: string, headers: seq<Header>, text: string, length: nat, source: string, size: nat)

  predicate Forwardable(r: Request) {
    r.text == Print(r.verb, r.path, r.headers) && Admitted(r.headers, r.length)
  }

  predicate LengthSoFar(lengths: seq<Header>, saw: bool, contentLength: nat) {
    && |lengths| == (if saw then 1 else 0)
    && (saw ==> ValidLength(lengths[0].value) && contentLength == Decimal(lengths[0].value))
    && (!saw ==> contentLength == 0)
  }

  lemma {:induction false} SelectExtends(hs: seq<Header>, i: nat, n: nat, name: string)
    requires i <= n <= |hs|
    ensures Select(hs, i, name) <= Select(hs, n, name)
  {
    if i < n {
      SelectExtends(hs, i, n - 1, name);
    }
  }

  // ---- sizes ----

  /** Bytes of names and values among the first `n` headers. */
  function Total(hs: seq<Header>, n: nat): nat
    requires n <= |hs|
  {
    if n == 0 then 0
    else Total(hs, n - 1) + |hs[n - 1].value| + (if hs[n - 1].Header? then |hs[n - 1].name| else 0)
  }

  /** A parsed head is made of pieces of the bytes it was parsed from. */
  predicate Fits(p: Parse, available: nat) {
    p.Parsed? ==>
      && p.headLen <= available && |p.headers| <= 100
      && |p.verb| + |p.path| + Total(p.headers, |p.headers|) <= p.headLen
  }

  lemma {:induction false} LinesSize(hs: seq<Header>, n: nat)
    requires n <= |hs|
    ensures |Lines(hs, n)| <= Total(hs, n) + 4 * n
  {
    if n != 0 {
      LinesSize(hs, n - 1);
    }
  }

  lemma PrintSize(p: Parse, available: nat)
    requires p.Parsed? && Fits(p, available)
    ensures |Print(p.verb, p.path, p.headers)| <= p.headLen + 500
  {
    LinesSize(p.headers, |p.headers|);
  }
}
