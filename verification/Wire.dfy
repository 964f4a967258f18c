/** What the kernel and the transport may answer, and small reference functions that say
    what a pump does with a given series of answers.

    A callback runs against an `Io`: for each direction of each socket, the finite
    series of outcomes its system calls will see, in order. Once a series is used up,
    that direction would block. Every finite behaviour of the two sockets during one
    callback is some `Io`.
 */
module Wire {
  import opened Basics

  const HIGH: nat := 262144     // kBackpressureHigh
  const LOW: nat := 65536       // kBackpressureLow
  const CHUNK: nat := 16384     // one read
  const MAX_HEAD: nat := 32768  // kMaxHead

  datatype IoStatus = Ok | WouldBlockRead | WouldBlockWrite | Closed | Error

  predicate Blocked(s: IoStatus) {
    s.WouldBlockRead? || s.WouldBlockWrite?
  }

  type Stop = s: IoStatus | s != Ok witness Closed
  type Chunk = s: string | 0 < |s| <= CHUNK witness "x"
  type Positive = n: nat | 0 < n witness 1

  // transport_->recv and transport_->send
  datatype Recv = Got(data: Chunk) | NotGot(stop: Stop)
  datatype Send = Took(count: Positive) | NotTook(stop: Stop)
  // ::read and ::write on the backend socket
  datatype Read = Data(data: Chunk) | Eof | ReadAgain | ReadInterrupted | ReadFailed
  datatype Write = Wrote(count: Positive) | WriteAgain | WriteInterrupted | WriteFailed

  datatype Io = Io(hands: seq<IoStatus>, recvs: seq<Recv>, sends: seq<Send>, replies: seq<Read>, writes: seq<Write>)

  /** The epoll interest of one fd; EPOLLET is always set. */
  datatype Mask = Mask(input: bool, output: bool)

  /** The mask reports the direction that `s` is waiting for. */
  predicate Watches(m: Mask, s: IoStatus) {
    (s.WouldBlockRead? ==> m.input) && (s.WouldBlockWrite? ==> m.output)
  }

  // ---- what a series of outcomes carries ----

  /** All bytes that a series of recvs brings. */
  function AllGot(recvs: seq<Recv>): string {
    if recvs == [] then ""
    else
      var last := recvs[|recvs| - 1];
      AllGot(recvs[..|recvs| - 1]) + if last.Got? then last.data else ""
  }

  /** All bytes that a series of reads brings. */
  function AllRead(replies: seq<Read>): string {
    if replies == [] then ""
    else
      var last := replies[|replies| - 1];
      AllRead(replies[..|replies| - 1]) + if last.Data? then last.data else ""
  }

  /** Of a series, `rest` is still to come. */
  predicate Pending<T(==)>(whole: seq<T>, rest: seq<T>) {
    |rest| <= |whole| && whole[|whole| - |rest|..] == rest
  }

  /** The part of a series that is used up. */
  function Used<T>(whole: seq<T>, rest: seq<T>): seq<T>
    requires Pending(whole, rest)
  {
    whole[..|whole| - |rest|]
  }

  lemma NextGot(whole: seq<Recv>, rest: seq<Recv>)
    requires Pending(whole, rest) && rest != []
    ensures Pending(whole, rest[1..])
    ensures AllGot(Used(whole, rest[1..])) == AllGot(Used(whole, rest)) + if rest[0].Got? then rest[0].data else ""
  {
    var k := |whole| - |rest|;
    assert whole[k] == rest[0];
    assert whole[..k + 1][..k] == whole[..k];
  }

  lemma NextRead(whole: seq<Read>, rest: seq<Read>)
    requires Pending(whole, rest) && rest != []
    ensures Pending(whole, rest[1..])
    ensures AllRead(Used(whole, rest[1..])) == AllRead(Used(whole, rest)) + if rest[0].Data? then rest[0].data else ""
  {
    var k := |whole| - |rest|;
    assert whole[k] == rest[0];
    assert whole[..k + 1][..k] == whole[..k];
  }

  // ---- pushing at the client ----

  /** What becomes of `n` bytes pushed at the client until it blocks or goes away; a push that
      is stuck asks for a direction. */
  datatype Pushed = Drained(rest: seq<Send>) | Stuck(rest: seq<Send>, left: nat, asks: IoStatus) | Gone(rest: seq<Send>)

  function Push(sends: seq<Send>, n: nat): (p: Pushed)
    ensures |p.rest| <= |sends|
    ensures p.Stuck? ==> 0 < p.left <= n && Blocked(p.asks)
  {
    if n == 0 then Drained(sends)
    else if sends == [] then Stuck([], n, WouldBlockWrite)
    else match sends[0]
         case Took(k) => Push(sends[1..], n - Min(k, n))
         case NotTook(s) => if Blocked(s) then Stuck(sends[1..], n, s) else Gone(sends[1..])
  }

  // ---- a push, told by its outcomes ----

  /** The bytes that these sends would take of an endless queue. */
  function Taken(sends: seq<Send>): nat {
    if sends == [] then 0 else (if sends[0].Took? then sends[0].count else 0) + Taken(sends[1..])
  }

  predicate AllTook(sends: seq<Send>) {
    forall k :: 0 <= k < |sends| ==> sends[k].Took?
  }

  /** Some sends that took, and then one that stopped. */
  predicate TookUntil(sends: seq<Send>, stop: Stop) {
    sends != [] && AllTook(sends[..|sends| - 1]) && sends[|sends| - 1] == NotTook(stop)
  }

  /** All is pushed by the first sends that take it all. What is left otherwise is what the sends that took did not take: they
      have run out, or the next would block in the direction that is asked for. The client is gone if a send says so first. */
  predicate EndsAs(sends: seq<Send>, n: nat, p: Pushed) {
    && Pending(sends, p.rest)
    && var used := Used(sends, p.rest);
       match p
       case Drained(_) => AllTook(used) && Taken(used) >= n && (used != [] ==> Taken(used[..|used| - 1]) < n)
       case Stuck(rest, left, asks) =>
         && left > 0 && Blocked(asks) && Taken(used) == n - left
         && (TookUntil(used, asks) || (AllTook(used) && rest == [] && asks == WouldBlockWrite))
       case Gone(_) => Taken(used) < n && (TookUntil(used, Closed) || TookUntil(used, Error))
  }

  lemma {:induction false} PushExactly(sends: seq<Send>, n: nat)
    ensures EndsAs(sends, n, Push(sends, n))
  {
    if n != 0 && sends != [] {
      hide EndsAs;
      var first, later := sends[0], sends[1..];
      if first.Took? {
        PushExactly(later, n - Min(first.count, n));
        OneTaken(sends, first.count, later, n, Push(sends, n));
      } else {
        OneStopped(sends, later, n);
      }
    }
  }

  lemma OneTaken(sends: seq<Send>, count: Positive, later: seq<Send>, n: nat, p: Pushed)
    requires sends == [Took(count)] + later && n > 0 && EndsAs(later, n - Min(count, n), p)
    ensures EndsAs(sends, n, p)
  {
    TakenFirst(sends, later, count, p.rest);
    hide Taken, AllTook, TookUntil;
    var used := Used(later, p.rest);
    if used == [] {
      assert Used(sends, p.rest)[..0] == [];
    }
    TakenNone();
  }

  lemma TakenNone()
    ensures Taken([]) == 0 && AllTook([])
  {
  }

  lemma OneStopped(sends: seq<Send>, later: seq<Send>, n: nat)
    requires n > 0 && sends != [] && sends[0].NotTook? && later == sends[1..]
    ensures EndsAs(sends, n, if Blocked(sends[0].stop) then Stuck(later, n, sends[0].stop) else Gone(later))
  {
    StoppedAtOnce(sends, later);
  }

  lemma TakenFirst(sends: seq<Send>, later: seq<Send>, count: Positive, rest: seq<Send>)
    requires sends == [Took(count)] + later && Pending(later, rest)
    ensures Pending(sends, rest) && Used(sends, rest) == [Took(count)] + Used(later, rest)
    ensures Taken(Used(sends, rest)) == count + Taken(Used(later, rest))
    ensures AllTook(Used(later, rest)) ==> AllTook(Used(sends, rest))
    ensures forall stop: Stop :: TookUntil(Used(later, rest), stop) ==> TookUntil(Used(sends, rest), stop)
    ensures Used(later, rest) != [] ==>
              var used := Used(later, rest); Taken(Used(sends, rest)[..|used|]) == count + Taken(used[..|used| - 1])
  {
    var used := Used(later, rest);
    assert Used(sends, rest) == [Took(count)] + used;
    assert ([Took(count)] + used)[1..] == used;
    if used != [] {
      var init := used[..|used| - 1];
      assert Used(sends, rest)[..|used|] == [Took(count)] + init;
      assert ([Took(count)] + init)[1..] == init;
    }
  }

  lemma StoppedAtOnce(sends: seq<Send>, later: seq<Send>)
    requires sends != [] && sends[0].NotTook? && later == sends[1..]
    ensures Pending(sends, later) && Used(sends, later) == [sends[0]] && Taken([sends[0]]) == 0
    ensures TookUntil([sends[0]], sends[0].stop)
  {
    assert [sends[0]][..0] == [];
  }

  // ---- relaying a response ----

  /** How a stretch of relaying ends: the backend would block, the client's queue is
      over the mark, the backend finished with `left` bytes still queued for the
      client, or one of the two failed. What is queued waits for what was asked last,
      and `rest` and `room` are the outcomes that are not used up. */
  datatype Relayed =
    | Waiting(queued: nat, asks: IoStatus, rest: seq<Read>, room: seq<Send>)
    | Full(queued: nat, asks: IoStatus, rest: seq<Read>, room: seq<Send>)
    | Finished(left: nat, rest: seq<Read>, room: seq<Send>)
    | Lost

  function Relay(replies: seq<Read>, sends: seq<Send>, queued: nat, asks: IoStatus): (r: Relayed)
    ensures r.Full? ==> HIGH < r.queued
  {
    if replies == [] then Waiting(queued, asks, [], sends)
    else match replies[0]
         case ReadAgain => Waiting(queued, asks, replies[1..], sends)
         case ReadInterrupted => Relay(replies[1..], sends, queued, asks)
         case ReadFailed => Lost
         case Eof =>
           (match Push(sends, queued)
            case Drained(room) => Finished(0, replies[1..], room)
            case Stuck(room, left, _) => Finished(left, replies[1..], room)
            case Gone(_) => Lost)
         case Data(d) =>
           (match Push(sends, queued + |d|)
            case Drained(room) => Relay(replies[1..], room, 0, Ok)
            case Stuck(room, left, now) =>
              if left > HIGH then Full(left, now, replies[1..], room) else Relay(replies[1..], room, left, now)
            case Gone(_) => Lost)
  }

  /** Reading yields nothing but interruptions before it would block. */
  predicate Silent(replies: seq<Read>) {
    replies == [] || replies[0].ReadAgain? || (replies[0].ReadInterrupted? && Silent(replies[1..]))
  }

  // ---- a stretch of relaying, told by its outcomes ----

  /** How many bytes these reads bring. */
  function Brought(replies: seq<Read>): nat {
    if replies == [] then 0 else (if replies[0].Data? then |replies[0].data| else 0) + Brought(replies[1..])
  }

  /** None of these reads ends a stretch. */
  predicate ReadsGoOn(replies: seq<Read>) {
    forall k :: 0 <= k < |replies| ==> replies[k].Data? || replies[k].ReadInterrupted?
  }

  /** Reads that go on, up to this last one. */
  predicate GoOnUntil(replies: seq<Read>, last: Read) {
    replies != [] && ReadsGoOn(replies[..|replies| - 1]) && replies[|replies| - 1] == last
  }

  predicate SendsGone(sends: seq<Send>) {
    exists k :: 0 <= k < |sends| && (sends[k] == NotTook(Closed) || sends[k] == NotTook(Error))
  }

  predicate BackendFails(replies: seq<Read>) {
    exists k :: 0 <= k < |replies| && replies[k].ReadFailed? && ReadsGoOn(replies[..k])
  }

  /** What was queued and brought is queued still or has been taken: counts say more than was taken if a queue was emptied. */
  predicate Balanced(brought: nat, before: nat, taken: nat, after: nat) {
    after <= before + brought <= after + taken
  }

  /** A stretch waits when a read would block or the reads have run out, is full when data have filled the queue over the mark,
      and has finished at the end of file; it is lost only to a failing read or a client that is gone. */
  predicate StretchIs(replies: seq<Read>, sends: seq<Send>, queued: nat, r: Relayed) {
    match r
    case Lost => BackendFails(replies) || SendsGone(sends)
    case Waiting(q, _, rest, room) =>
      && Pending(replies, rest) && Pending(sends, room)
      && (GoOnUntil(Used(replies, rest), ReadAgain) || (ReadsGoOn(Used(replies, rest)) && rest == []))
      && Balanced(Brought(Used(replies, rest)), queued, Taken(Used(sends, room)), q)
    case Full(q, _, rest, room) =>
      && Pending(replies, rest) && Pending(sends, room) && q > 262144
      && ReadsGoOn(Used(replies, rest)) && Used(replies, rest) != []
      && Balanced(Brought(Used(replies, rest)), queued, Taken(Used(sends, room)), q)
    case Finished(left, rest, room) =>
      && Pending(replies, rest) && Pending(sends, room) && GoOnUntil(Used(replies, rest), Eof)
      && Balanced(Brought(Used(replies, rest)), queued, Taken(Used(sends, room)), left)
  }

  lemma {:induction false} TakenOfBoth(a: seq<Send>, b: seq<Send>)
    ensures Taken(a + b) == Taken(a) + Taken(b)
  {
    if a == [] {
      assert a + b == b;
    } else {
      TakenOfBoth(a[1..], b);
      assert (a + b)[1..] == a[1..] + b;
    }
  }

  lemma UsedInTurn<T>(whole: seq<T>, mid: seq<T>, rest: seq<T>)
    requires Pending(whole, mid) && Pending(mid, rest)
    ensures Pending(whole, rest) && Used(whole, rest) == Used(whole, mid) + Used(mid, rest)
  {
  }

  /** One read that goes on, at the start of a stretch. */
  lemma UsedFirst(replies: seq<Read>, later: seq<Read>, rest: seq<Read>)
    requires replies != [] && later == replies[1..] && Pending(later, rest) && (replies[0].Data? || replies[0].ReadInterrupted?)
    ensures Pending(replies, rest)
    ensures var used, more := Used(replies, rest), Used(later, rest);
            && used != [] && Brought(used) == (if replies[0].Data? then |replies[0].data| else 0) + Brought(more)
            && (ReadsGoOn(more) ==> ReadsGoOn(used))
            && forall last: Read :: GoOnUntil(more, last) ==> GoOnUntil(used, last)
  {
    var used, more := Used(replies, rest), Used(later, rest);
    assert used == [replies[0]] + more && used[1..] == more;
    if more != [] {
      assert used[..|used| - 1] == [replies[0]] + more[..|more| - 1];
    }
  }

  lemma ReadLast(replies: seq<Read>, later: seq<Read>)
    requires replies != [] && later == replies[1..]
    ensures Pending(replies, later) && Used(replies, later) == [replies[0]] && GoOnUntil([replies[0]], replies[0])
    ensures Brought([replies[0]]) == if replies[0].Data? then |replies[0].data| else 0
    ensures replies[0].Data? ==> ReadsGoOn([replies[0]])
    ensures replies[0].ReadFailed? ==> BackendFails(replies)
  {
    assert [replies[0]][..0] == [] && [replies[0]][1..] == [];
    assert replies[..0] == [];
  }

  lemma NoSendUsed(sends: seq<Send>)
    ensures Pending(sends, sends) && Used(sends, sends) == [] && Taken([]) == 0
  {
  }

  lemma NoReadUsed()
    ensures Pending<Read>([], []) && Used<Read>([], []) == [] && Brought([]) == 0 && ReadsGoOn([])
  {
  }

  /** A later part of a stretch, seen from its start: a read that goes on and a push come first. */
  lemma StretchGoesOn(replies: seq<Read>, sends: seq<Send>, queued: nat, later: seq<Read>, room: seq<Send>, left: nat, r: Relayed)
    requires replies != [] && later == replies[1..] && (replies[0].Data? || replies[0].ReadInterrupted?) && Pending(sends, room)
    requires Balanced(if replies[0].Data? then |replies[0].data| else 0, queued, Taken(Used(sends, room)), left)
    requires StretchIs(later, room, left, r)
    ensures StretchIs(replies, sends, queued, r)
  {
    if r.Lost? {
      if SendsGone(room) {
        var k :| 0 <= k < |room| && (room[k] == NotTook(Closed) || room[k] == NotTook(Error));
        assert sends[|sends| - |room| + k] == room[k];
      } else {
        var k :| 0 <= k < |later| && later[k].ReadFailed? && ReadsGoOn(later[..k]);
        assert replies[..k + 1] == [replies[0]] + later[..k] && replies[k + 1] == later[k];
      }
    } else {
      UsedFirst(replies, later, r.rest);
      UsedInTurn(sends, room, r.room);
      TakenOfBoth(Used(sends, room), Used(room, r.room));
      hide Used, Taken, Brought, ReadsGoOn, GoOnUntil, Pending;
    }
  }

  lemma PushIsBalanced(sends: seq<Send>, before: nat, brought: nat)
    ensures var p := Push(sends, before + brought);
            && Pending(sends, p.rest)
            && (p.Drained? ==> Balanced(brought, before, Taken(Used(sends, p.rest)), 0))
            && (p.Stuck? ==> Balanced(brought, before, Taken(Used(sends, p.rest)), p.left))
            && (p.Gone? ==> SendsGone(sends))
  {
    PushExactly(sends, before + brought);
    var p := Push(sends, before + brought);
    if p.Gone? {
      var used := Used(sends, p.rest);
      assert sends[|used| - 1] == used[|used| - 1];
    }
  }

  /** The first read is the last of the stretch. */
  predicate EndsStretch(answer: Read, p: Pushed) {
    answer.ReadAgain? || answer.ReadFailed? || answer.Eof? || (answer.Data? && (p.Gone? || (p.Stuck? && p.left > HIGH)))
  }

  lemma StretchEnds(replies: seq<Read>, sends: seq<Send>, queued: nat, asks: IoStatus)
    requires replies != []
    requires EndsStretch(replies[0], Push(sends, queued + if replies[0].Data? then |replies[0].data| else 0))
    ensures StretchIs(replies, sends, queued, Relay(replies, sends, queued, asks))
  {
    hide Push;
    NoSendUsed(sends);
    ReadLast(replies, replies[1..]);
    PushIsBalanced(sends, queued, if replies[0].Data? then |replies[0].data| else 0);
    hide Used, Taken, Brought, ReadsGoOn, GoOnUntil, Pending, BackendFails, SendsGone;
  }

  lemma {:induction false} RelayExactly(replies: seq<Read>, sends: seq<Send>, queued: nat, asks: IoStatus)
    ensures StretchIs(replies, sends, queued, Relay(replies, sends, queued, asks))
    decreases |replies|
  {
    hide Push;
    NoSendUsed(sends);
    if replies == [] {
      NoReadUsed();
      return;
    }
    hide StretchIs, Used, Taken, Brought, Pending;
    var later := replies[1..];
    var brought := if replies[0].Data? then |replies[0].data| else 0;
    var p := Push(sends, queued + brought);
    if EndsStretch(replies[0], p) {
      StretchEnds(replies, sends, queued, asks);
    } else if replies[0].ReadInterrupted? {
      RelayExactly(later, sends, queued, asks);
      StretchGoesOn(replies, sends, queued, later, sends, queued, Relay(later, sends, queued, asks));
    } else {
      PushIsBalanced(sends, queued, brought);
      var left, now := if p.Drained? then 0 else p.left, if p.Drained? then Ok else p.asks;
      RelayExactly(later, p.rest, left, now);
      StretchGoesOn(replies, sends, queued, later, p.rest, left, Relay(later, p.rest, left, now));
    }
  }

  // ---- writing to the backend ----

  /** Writing `n` bytes to the backend meets a hard error before it blocks or ends. */
  predicate WriteFails(writes: seq<Write>, n: nat) {
    if n == 0 || writes == [] then false
    else match writes[0]
         case Wrote(k) => WriteFails(writes[1..], n - Min(k, n))
         case WriteInterrupted => WriteFails(writes[1..], n)
         case WriteAgain => false
         case WriteFailed => true
  }

  /** How many of `n` bytes are left when writing blocks, ends or fails, and which outcomes. */
  function WriteLeft(writes: seq<Write>, n: nat): (left: nat)
    ensures left <= n
  {
    if n == 0 || writes == [] then n
    else match writes[0]
         case Wrote(k) => WriteLeft(writes[1..], n - Min(k, n))
         case WriteInterrupted => WriteLeft(writes[1..], n)
         case WriteAgain => n
         case WriteFailed => n
  }

  function WriteRest(writes: seq<Write>, n: nat): (rest: seq<Write>)
    ensures |rest| <= |writes|
  {
    if n == 0 || writes == [] then writes
    else match writes[0]
         case Wrote(k) => WriteRest(writes[1..], n - Min(k, n))
         case WriteInterrupted => WriteRest(writes[1..], n)
         case WriteAgain => writes[1..]
         case WriteFailed => writes[1..]
  }

  /** Writing `m` bytes ends as writing `n` does. */
  predicate SameEnd(a: seq<Write>, m: nat, b: seq<Write>, n: nat) {
    WriteFails(a, m) == WriteFails(b, n) && WriteLeft(a, m) == WriteLeft(b, n) && WriteRest(a, m) == WriteRest(b, n)
  }

  /** Writing has ended: `left` bytes and these outcomes are what is left. */
  predicate EndsWith(writes: seq<Write>, n: nat, left: nat, rest: seq<Write>) {
    !WriteFails(writes, n) && WriteLeft(writes, n) == left && WriteRest(writes, n) == rest
  }

  lemma WriteNone(writes: seq<Write>, n: nat, all: seq<Write>, total: nat)
    requires (n == 0 || writes == []) && SameEnd(writes, n, all, total)
    ensures EndsWith(all, total, n, writes)
  {
  }

  /** One write of a series of `total` bytes, of which `n` are left. */
  lemma WriteOne(writes: seq<Write>, n: nat, all: seq<Write>, total: nat)
    requires n > 0 && writes != [] && SameEnd(writes, n, all, total)
    ensures match writes[0]
            case Wrote(k) => SameEnd(writes[1..], n - Min(k, n), all, total)
            case WriteInterrupted => SameEnd(writes[1..], n, all, total)
            case WriteAgain => EndsWith(all, total, n, writes[1..])
            case WriteFailed => WriteFails(all, total)
  {
  }

  /** No write in a series fails. */
  predicate NeverFails(writes: seq<Write>) {
    forall k :: 0 <= k < |writes| ==> !writes[k].WriteFailed?
  }

  lemma {:induction false} NothingFails(writes: seq<Write>, n: nat)
    requires NeverFails(writes)
    ensures !WriteFails(writes, n) && NeverFails(WriteRest(writes, n))
  {
    if n != 0 && writes != [] && !writes[0].WriteAgain? {
      NothingFails(writes[1..], if writes[0].Wrote? then n - Min(writes[0].count, n) else n);
    }
  }

  // ---- writing, told by its outcomes ----

  /** The bytes that these writes would take of an endless queue. */
  function Written(writes: seq<Write>): nat {
    if writes == [] then 0 else (if writes[0].Wrote? then writes[0].count else 0) + Written(writes[1..])
  }

  /** None of these writes ends the loop. */
  predicate WritesGoOn(writes: seq<Write>) {
    forall k :: 0 <= k < |writes| ==> writes[k].Wrote? || writes[k].WriteInterrupted?
  }

  /** The first write that ends the loop is a failing one, and it comes before the queue is empty. */
  predicate FailsFirst(writes: seq<Write>, n: nat) {
    exists k: nat :: k < |writes| && writes[k].WriteFailed? && WritesGoOn(writes[..k]) && Written(writes[..k]) < n
  }

  /** These writes leave so much of the queue: nothing, and no more of them than it takes to empty it; or what they did not
      take, because they have run out or the last would block. */
  predicate LeftBy(used: seq<Write>, n: nat, left: nat, over: bool) {
    if left == 0 then WritesGoOn(used) && Written(used) >= n && (used != [] ==> Written(used[..|used| - 1]) < n)
    else
      && Written(used) == n - left
      && ((WritesGoOn(used) && over) || (used != [] && WritesGoOn(used[..|used| - 1]) && used[|used| - 1].WriteAgain?))
  }

  predicate WritesAs(writes: seq<Write>, n: nat, left: nat, rest: seq<Write>) {
    Pending(writes, rest) && left <= n && LeftBy(Used(writes, rest), n, left, rest == [])
  }

  lemma {:induction false} WritesExactly(writes: seq<Write>, n: nat)
    ensures WriteFails(writes, n) <==> FailsFirst(writes, n)
    ensures !WriteFails(writes, n) ==> WritesAs(writes, n, WriteLeft(writes, n), WriteRest(writes, n))
  {
    if n == 0 || writes == [] {
      WritesNone(writes, n);
    } else {
      hide WritesAs, FailsFirst;
      var first, later := writes[0], writes[1..];
      match first
      case Wrote(count) =>
        WritesExactly(later, n - Min(count, n));
        WriteFirst(writes, later, n);
      case WriteInterrupted =>
        WritesExactly(later, n);
        WriteFirst(writes, later, n);
      case WriteAgain => WriteEnds(writes, later, n);
      case WriteFailed => WriteEnds(writes, later, n);
    }
  }

  lemma WritesNone(writes: seq<Write>, n: nat)
    requires n == 0 || writes == []
    ensures !FailsFirst(writes, n) && WritesAs(writes, n, n, writes)
  {
    assert Used(writes, writes) == [];
  }

  lemma WriteEnds(writes: seq<Write>, later: seq<Write>, n: nat)
    requires n > 0 && writes != [] && later == writes[1..]
    ensures writes[0].WriteAgain? ==> !FailsFirst(writes, n) && WritesAs(writes, n, n, later)
    ensures writes[0].WriteFailed? ==> FailsFirst(writes, n)
  {
    assert Used(writes, later) == [writes[0]] && [writes[0]][..0] == [] && [writes[0]][1..] == [] && writes[..0] == [];
    if writes[0].WriteAgain? {
      forall k: nat | 0 < k < |writes| ensures !WritesGoOn(writes[..k]) {
        assert writes[..k][0] == writes[0];
      }
    } else if writes[0].WriteFailed? {
      assert writes[0].WriteFailed? && WritesGoOn(writes[..0]) && Written(writes[..0]) < n;
    }
  }

  /** A write that goes on comes first. */
  lemma WriteFirst(writes: seq<Write>, later: seq<Write>, n: nat)
    requires n > 0 && writes != [] && later == writes[1..] && (writes[0].Wrote? || writes[0].WriteInterrupted?)
    ensures var m := if writes[0].Wrote? then n - Min(writes[0].count, n) else n;
            && (FailsFirst(later, m) <==> FailsFirst(writes, n))
            && forall left: nat, rest: seq<Write> :: WritesAs(later, m, left, rest) ==> WritesAs(writes, n, left, rest)
  {
    var m := if writes[0].Wrote? then n - Min(writes[0].count, n) else n;
    FailsLater(writes, later, n, m);
    forall left: nat, rest: seq<Write> | WritesAs(later, m, left, rest) ensures WritesAs(writes, n, left, rest) {
      WritesLater(writes, later, n, m, left, rest);
    }
  }

  lemma WrittenFirst(w: Write, later: seq<Write>)
    ensures Written([w] + later) == (if w.Wrote? then w.count else 0) + Written(later)
    ensures w.Wrote? || w.WriteInterrupted? ==> (WritesGoOn([w] + later) <==> WritesGoOn(later))
  {
    assert ([w] + later)[1..] == later;
    assert forall k :: 0 <= k < |later| ==> ([w] + later)[k + 1] == later[k];
  }

  lemma FailsLater(writes: seq<Write>, later: seq<Write>, n: nat, m: nat)
    requires n > 0 && writes != [] && later == writes[1..] && (writes[0].Wrote? || writes[0].WriteInterrupted?)
    requires m == if writes[0].Wrote? then n - Min(writes[0].count, n) else n
    ensures FailsFirst(later, m) <==> FailsFirst(writes, n)
  {
    if FailsFirst(later, m) {
      var k: nat :| k < |later| && later[k].WriteFailed? && WritesGoOn(later[..k]) && Written(later[..k]) < m;
      assert writes[..k + 1] == [writes[0]] + later[..k] && writes[k + 1] == later[k];
      WrittenFirst(writes[0], later[..k]);
    }
    if FailsFirst(writes, n) {
      var k: nat :| k < |writes| && writes[k].WriteFailed? && WritesGoOn(writes[..k]) && Written(writes[..k]) < n;
      assert writes[..k] == [writes[0]] + later[..k - 1] && writes[k] == later[k - 1];
      WrittenFirst(writes[0], later[..k - 1]);
    }
  }

  lemma WritesLater(writes: seq<Write>, later: seq<Write>, n: nat, m: nat, left: nat, rest: seq<Write>)
    requires n > 0 && writes != [] && later == writes[1..] && (writes[0].Wrote? || writes[0].WriteInterrupted?)
    requires m == if writes[0].Wrote? then n - Min(writes[0].count, n) else n
    requires WritesAs(later, m, left, rest)
    ensures WritesAs(writes, n, left, rest)
  {
    assert Used(writes, rest) == [writes[0]] + Used(later, rest);
    LeftLater(writes[0], Used(later, rest), n, m, left, rest == []);
    hide LeftBy;
  }

  lemma LeftLater(w: Write, used: seq<Write>, n: nat, m: nat, left: nat, over: bool)
    requires n > 0 && (w.Wrote? || w.WriteInterrupted?) && m == (if w.Wrote? then n - Min(w.count, n) else n) && left <= m
    requires LeftBy(used, m, left, over)
    ensures LeftBy([w] + used, n, left, over)
  {
    WrittenFirst(w, used);
    var all := [w] + used;
    assert all[0] == w && all[|all| - 1] == if used == [] then w else used[|used| - 1];
    if used == [] {
      assert all[..|all| - 1] == [] && WritesGoOn([]) && Written([]) == 0;
    } else {
      assert all[..|all| - 1] == [w] + used[..|used| - 1];
      WrittenFirst(w, used[..|used| - 1]);
    }
    hide Written, WritesGoOn;
  }

  // ---- reading from the client, told by its outcomes ----

  /** How many bytes these recvs bring. */
  function Arrived(recvs: seq<Recv>): nat {
    if recvs == [] then 0 else (if recvs[0].Got? then |recvs[0].data| else 0) + Arrived(recvs[1..])
  }

  /** Nothing but bytes. */
  predicate Bytes(recvs: seq<Recv>) {
    forall k :: 0 <= k < |recvs| ==> recvs[k].Got?
  }

  predicate BytesUntil(recvs: seq<Recv>, stop: Stop) {
    recvs != [] && Bytes(recvs[..|recvs| - 1]) && recvs[|recvs| - 1] == NotGot(stop)
  }

  /** Reading has gone on until it would have blocked. */
  predicate ReadOut(recvs: seq<Recv>, rest: seq<Recv>) {
    && Pending(recvs, rest)
    && var used := Used(recvs, rest);
       (Bytes(used) && rest == []) || BytesUntil(used, WouldBlockRead) || BytesUntil(used, WouldBlockWrite)
  }

  predicate BytesOnly(recvs: seq<Recv>, rest: seq<Recv>) {
    Pending(recvs, rest) && Bytes(Used(recvs, rest))
  }

  predicate ReadToEnd(recvs: seq<Recv>, rest: seq<Recv>) {
    Pending(recvs, rest) && BytesUntil(Used(recvs, rest), Closed)
  }

  /** After nothing but bytes, this recv says that there are no more. */
  predicate StopsAt(recvs: seq<Recv>, k: nat, stop: Stop) {
    k < |recvs| && Bytes(recvs[..k]) && recvs[k] == NotGot(stop)
  }

  lemma StopsLater(recvs: seq<Recv>, k: nat, stop: Stop)
    requires recvs != [] && recvs[0].Got? && StopsAt(recvs[1..], k, stop)
    ensures StopsAt(recvs, k + 1, stop) && Arrived(recvs[..k + 1]) == |recvs[0].data| + Arrived(recvs[1..][..k])
  {
    assert recvs[..k + 1] == [recvs[0]] + recvs[1..][..k] && recvs[..k + 1][1..] == recvs[1..][..k];
  }

  /** Bytes that come first do not change how reading ends. */
  lemma BytesFirst(recvs: seq<Recv>, mid: seq<Recv>, rest: seq<Recv>)
    requires BytesOnly(recvs, mid) && Pending(mid, rest)
    ensures ReadOut(mid, rest) ==> ReadOut(recvs, rest)
    ensures BytesOnly(mid, rest) ==> BytesOnly(recvs, rest)
    ensures ReadToEnd(mid, rest) ==> ReadToEnd(recvs, rest)
    ensures Pending(recvs, rest) && Arrived(Used(recvs, rest)) == Arrived(Used(recvs, mid)) + Arrived(Used(mid, rest))
  {
    var first, more := Used(recvs, mid), Used(mid, rest);
    UsedInTurn(recvs, mid, rest);
    ArrivedInTurn(first, more);
    if more != [] {
      var all := first + more;
      assert all[..|all| - 1] == first + more[..|more| - 1];
    } else {
      assert first + more == first;
    }
  }

  lemma {:induction false} ArrivedInTurn(a: seq<Recv>, b: seq<Recv>)
    ensures Arrived(a + b) == Arrived(a) + Arrived(b)
  {
    if a == [] {
      assert a + b == b;
    } else {
      ArrivedInTurn(a[1..], b);
      assert (a + b)[1..] == a[1..] + b;
    }
  }

  /** One recv. */
  lemma OneRecv(recvs: seq<Recv>)
    requires recvs != []
    ensures Pending(recvs, recvs[1..]) && Arrived(Used(recvs, recvs[1..])) == if recvs[0].Got? then |recvs[0].data| else 0
    ensures recvs[0].Got? ==> BytesOnly(recvs, recvs[1..])
    ensures recvs[0].NotGot? ==>
              && (Blocked(recvs[0].stop) ==> ReadOut(recvs, recvs[1..]))
              && (recvs[0].stop == Closed ==> ReadToEnd(recvs, recvs[1..]))
              && StopsAt(recvs, 0, recvs[0].stop) && Arrived(recvs[..0]) == 0
  {
    assert Used(recvs, recvs[1..]) == [recvs[0]] && [recvs[0]][1..] == [] && [recvs[0]][..0] == [];
  }

  lemma NoRecv(recvs: seq<Recv>)
    ensures Pending(recvs, recvs) && Used(recvs, recvs) == [] && Arrived([]) == 0 && BytesOnly(recvs, recvs)
    ensures recvs == [] ==> ReadOut(recvs, [])
  {
  }
}
