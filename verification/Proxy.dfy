/** A proxied request: the client connection and its backend connection, which point at
    each other, call each other re-entrantly and share one event loop.

    The fields are those of the two connections and of the loop's deferred-close set; the
    ghost fields record what crossed the two sockets. `backend` is "the client's pointer to
    its backend is set" and `peer` is "the backend's pointer to its client is set".
 */
module Proxy {
  import opened Basics
  import opened Wire
  import opened RequestHead
  import opened Responses

  datatype State = ReadingHead | StreamingUp | Streaming | Closing
  datatype Fd = ClientFd | BackendFd

  const INTERNAL := "/_castle/"

  function BeforeQuery(path: string): string {
    if path == "" || path[0] == '?' then "" else [path[0]] + BeforeQuery(path[1..])
  }

  /** The path is this target, perhaps with a query behind it. */
  predicate Aims(path: string, target: string) {
    target <= path && (|path| == |target| || path[|target|] == '?')
  }

  lemma {:induction false} BeforeQueryIs(path: string, target: string)
    requires forall i :: 0 <= i < |target| ==> target[i] != '?'
    ensures BeforeQuery(path) == target <==> Aims(path, target)
  {
    if path != "" && path[0] != '?' {
      if target != "" {
        BeforeQueryIs(path[1..], target[1..]);
        assert target == [target[0]] + target[1..];
      }
    }
  }

  /** What opening the upstream connection may run into. */
  datatype Opening = Opened | OpenFailed(why: string) | NotRegistered

  /** How deep the calls that could nest are nested. */
  datatype Nest = Nest(drives: nat, pumps: nat)

  /** The interest that a client connection wants. */
  function ClientMask(readPaused: bool, clientEof: bool, readBlock: IoStatus, queued: bool, writeBlock: IoStatus): Mask {
    var reading := !readPaused && !clientEof;
    var input := (reading && !readBlock.WouldBlockWrite?) || (queued && writeBlock.WouldBlockRead?);
    var output := (reading && readBlock.WouldBlockWrite?) || (queued && !writeBlock.WouldBlockRead?);
    Mask(input, output)
  }

  /** The interest that a backend connection wants. */
  function BackendMask(connected: bool, readPaused: bool, queued: bool): Mask {
    if connected then Mask(!readPaused, queued) else Mask(false, true)
  }

  // ---- what crossed the sockets ----

  /** How reading on without a backend ends: the client's bytes are discarded until there are none for now, or they end;
      or the client is closed. */
  datatype Spent = Stopped(rest: seq<Recv>, eof: bool) | Shut

  /** Once a request is through, the end of the client's bytes is no reason to close. */
  function Discard(recvs: seq<Recv>, through: bool): Spent {
    if recvs == [] then Stopped([], false)
    else match recvs[0]
         case Got(_) => Discard(recvs[1..], through)
         case NotGot(stop) =>
           if Blocked(stop) then Stopped(recvs[1..], false)
           else if stop == IoStatus.Closed && through then Stopped(recvs[1..], true)
           else Shut
  }

  lemma DiscardOne(recvs: seq<Recv>, through: bool)
    requires recvs != [] && recvs[0].Got?
    ensures Discard(recvs, through) == Discard(recvs[1..], through)
  {
  }

  /** What becomes of a pair that reads from its client until that would block, is paused or ends;
      `rest` are the outcomes that are still to come. */
  datatype Reading =
    | Deaf                                             // the client is closed, or its handshake is not done
    | Unfinished(rest: seq<Recv>)                      // the request head is not complete yet
    | Made(answer: Answer, rest: seq<Recv>)            // castle answers itself
    | Unregistered(state: State, rest: seq<Recv>)      // the request goes to nobody: the backend could not be registered
    | Cut(rest: seq<Recv>)                             // sending body bytes fails, and the body goes on after them
    | LastLost(rest: seq<Recv>)                        // sending the last body bytes fails
    | Gone                                             // the client is closed
    | Loose(spent: Spent, state: State)                // there is no backend any more
    | Linked(rest: seq<Recv>, writes: seq<Write>, queued: nat, remaining: nat, paused: bool, eof: bool, block: IoStatus)

  /** The same for a pair that is linked to its backend and has `remaining` body bytes to come. */
  function Pull(recvs: seq<Recv>, writes: seq<Write>, connected: bool, queued: nat, remaining: nat): (r: Reading)
    ensures r.Linked? || r.Cut? || r.LastLost? || r.Gone?
    decreases |recvs|
  {
    if recvs == [] then Linked([], writes, queued, remaining, false, false, WouldBlockRead)
    else match recvs[0]
         case NotGot(stop) =>
           if Blocked(stop) then Linked(recvs[1..], writes, queued, remaining, false, false, stop)
           else if stop == IoStatus.Closed && remaining == 0 then Linked(recvs[1..], writes, queued, 0, false, true, WouldBlockRead)
           else Reading.Gone
         case Got(data) =>
           if remaining == 0 then Pull(recvs[1..], writes, connected, queued, 0)
           else
             var n := Min(|data|, remaining);
             if connected && WriteFails(writes, queued + n) then (if n < remaining then Cut(recvs[1..]) else LastLost(recvs[1..]))
             else
               var left := if connected then WriteLeft(writes, queued + n) else queued + n;
               var rest := if connected then WriteRest(writes, queued + n) else writes;
               if n < remaining && HIGH < left then Linked(recvs[1..], rest, left, remaining - n, true, false, WouldBlockRead)
               else Pull(recvs[1..], rest, connected, left, remaining - n)
  }

  /** One piece of body, seen from the start of the reading. */
  lemma PullData(recvs: seq<Recv>, writes: seq<Write>, connected: bool, queued: nat, remaining: nat)
    requires recvs != [] && recvs[0].Got? && remaining > 0
    ensures var n := Min(|recvs[0].data|, remaining);
            var left := if connected then WriteLeft(writes, queued + n) else queued + n;
            var rest := if connected then WriteRest(writes, queued + n) else writes;
            Pull(recvs, writes, connected, queued, remaining) ==
              if connected && WriteFails(writes, queued + n) then (if n < remaining then Cut(recvs[1..]) else LastLost(recvs[1..]))
              else if n < remaining && HIGH < left then Linked(recvs[1..], rest, left, remaining - n, true, false, WouldBlockRead)
              else Pull(recvs[1..], rest, connected, left, remaining - n)
  {
  }

  lemma PullSurplus(recvs: seq<Recv>, writes: seq<Write>, connected: bool, queued: nat)
    requires recvs != [] && recvs[0].Got?
    ensures Pull(recvs, writes, connected, queued, 0) == Pull(recvs[1..], writes, connected, queued, 0)
  {
  }

  /** What reading and pump_write start from on the client's side. */
  datatype Mouth = Mouth(holding: bool, sends: seq<Send>, replies: seq<Read>, queued: nat, cutShort: bool, answered: bool)

  /** An open client without a backend. */
  datatype Adrift = Adrift(state: State, rest: seq<Recv>, sends: seq<Send>, left: nat)

  /** A made-up response of `n` bytes keeps the client open exactly if its push gets stuck. */
  function Answering(sends: seq<Send>, n: nat, state: State, rest: seq<Recv>): Option<Adrift> {
    match Push(sends, n)
    case Stuck(room, left, _) => Some(Adrift(state, rest, room, left))
    case _ => None
  }

  const WRITE_FAILED := "backend write failed"
  const CONNECT_FAILED := "connect failed"

  /** A failing send is answered if nothing has been yet, and closes the client otherwise. */
  function Broken(m: Mouth, state: State, rest: seq<Recv>): Option<Adrift> {
    if m.answered then None else Answering(m.sends, |Render(Upstream(WRITE_FAILED))|, state, rest)
  }

  /** How reading has just lost its backend, if the client stays open. */
  function AdriftOf(r: Reading, m: Mouth): Option<Adrift> {
    match r
    case Made(answer, rest) => Answering(m.sends, |Render(answer)|, Closing, rest)
    case Unregistered(state, rest) => Some(Adrift(state, rest, m.sends, m.queued))
    case Cut(rest) => Broken(m, Closing, rest)
    case LastLost(rest) => Broken(m, Streaming, rest)
    case _ => None
  }

  /** What reading has the client told. */
  function Told(r: Reading, m: Mouth): Option<Answer> {
    if r.Made? then Some(r.answer)
    else if (r.Cut? || r.LastLost?) && !m.answered then Some(Upstream(WRITE_FAILED))
    else None
  }

  /** Reading ends without a backend. */
  predicate Ends(r: Reading) {
    r.Made? || r.Unregistered? || r.Cut? || r.LastLost? || r.Gone?
  }

  /** A forward without a backend fails one of two ways; only an open client goes on without one. */
  function Mark(f: Faults, r: Reading, m: Mouth): Faults {
    Faults(f.undefinedRead || r.Cut?, f.orphaned || r.Unregistered? || (r.LastLost? && AdriftOf(r, m).Some?))
  }

  /** With a paused backend: where its response gets when it is resumed, if it is. */
  function Woken(m: Mouth): Option<Relayed> {
    var p := Push(m.sends, m.queued);
    if m.holding && p.Drained? then Some(Relay(m.replies, p.rest, 0, Ok)) else None
  }

  /** The resumed response ends while the client would block: the rest of it is dropped. */
  predicate CutsShort(m: Mouth) {
    Woken(m).Some? && Woken(m).value.Finished? && Woken(m).value.left > 0
  }

  /** The resumed response is queued again, waiting for the client's transport to read, and
      pump_write reports that all is well. */
  predicate Forgets(m: Mouth) {
    var w := Woken(m);
    w.Some? && (w.value.Waiting? || w.value.Full?) && w.value.queued > 0 && w.value.asks.WouldBlockRead?
  }

  /** How the last handshake step and the last recv ended; Ok for one that brought something. */
  datatype Heard = Heard(lastHand: IoStatus, lastRecv: IoStatus)

  /** What forward_body may go wrong on: it looked through a null pointer, or an open client goes on
      streaming without a backend. */
  datatype Faults = Faults(undefinedRead: bool, orphaned: bool)

  /** The fields of the two sides, for saying that one stays as it is. */
  datatype UploadView = UploadView(
    inBuf: string, upstream: string, bodyRemaining: nat, handshakeDone: bool, clientEof: bool, readPaused: bool, readBlock: IoStatus,
    backendAlive: bool, received: string, head: string, body: string, request: Request, heard: Heard, faults: Faults,
    recvs: seq<Recv>, hands: seq<IoStatus>)

  datatype DownView = DownView(
    sends: seq<Send>, replies: seq<Read>, state: State, out: string, responded: bool, closed: bool, interest: Mask, rearmed: bool,
    writeBlock: IoStatus,
    backend: bool, backendPaused: bool, peer: bool, bReadPaused: bool, closing: set<Fd>, fetched: string, read: string, taken: string,
    made: Option<Answer>, lastSend: IoStatus, readWaits: bool, cutShort: bool)

  datatype FixedView = FixedView(connected: bool, clientAlive: bool, script: Io, start: Logs)

  /** Where the client stands, apart from what it waits to hear. */
  datatype Stance = Stance(
    state: State, bodyRemaining: nat, readPaused: bool, clientEof: bool, closed: bool, out: string, sends: seq<Send>, writeBlock: IoStatus,
    readBlock: IoStatus, lastSend: IoStatus, backendPaused: bool, bReadPaused: bool, responded: bool, made: Option<Answer>,
    cutShort: bool, rearmed: bool, faults: Faults)

  /** The bytes that have crossed each stage. */
  datatype Logs = Logs(received: string, fetched: string, read: string, taken: string, handed: string, written: string)

  class Pair {
    const parse: string -> Parse                // the request parser
    const routed: (string, string) -> bool      // the router knows this host and path
    const opening: Opening                      // what socket, connect and registration yield
    const maxBody: nat                          // 0 is unlimited
    const allUp: bool                           // what castle's own status pages would say
    const healthText: string
    const uptimeText: string

    // The kernel's answers still to come in the current callback.
    var hands: seq<IoStatus>
    var recvs: seq<Recv>
    var sends: seq<Send>
    var replies: seq<Read>
    var writes: seq<Write>

    // ---- HttpConnection ----
    var state: State
    var inBuf: string
    var out: string
    var upstream: string
    var bodyRemaining: nat
    var responded: bool
    var handshakeDone: bool
    var closed: bool
    var clientEof: bool
    var readPaused: bool
    var backendPaused: bool
    var interest: Mask
    var readBlock: IoStatus
    var writeBlock: IoStatus
    var backend: bool

    // ---- BackendConnection ----
    var backendAlive: bool
    var peer: bool
    var bOut: string
    var bInterest: Mask
    var connected: bool
    var bReadPaused: bool
    var highWaterHit: bool

    // ---- EventLoop ----
    var clientAlive: bool
    var closing: set<Fd>

    // ---- what crossed the sockets, and how ----
    ghost var script: Io              // all answers of the current callback
    ghost var start: Logs             // the logs when it began
    ghost var received: string        // read from the client
    ghost var head: string            // of that, the request head
    ghost var body: string            // and the body seen so far
    ghost var request: Request        // the request as it is forwarded
    ghost var handed: string          // given to the backend connection to send
    ghost var written: string         // written to the backend socket
    ghost var fetched: string         // read from the backend
    ghost var read: string            // of that, what was read while a client was there
    ghost var taken: string           // taken by the client's transport
    ghost var made: Option<Answer>    // the response made up here, if one was
    ghost var heard: Heard
    ghost var writeWaits: bool        // the last write to the backend would block
    ghost var rearmed: bool           // the client's mask has changed since the client was last reported ready
    ghost var lastSend: IoStatus      // how the last send ended; Ok for one that took something
    ghost var readWaits: bool         // the backend was not read yet, or would block
    ghost var cutShort: bool          // closed with part of a finished response unsent
    ghost var faults: Faults

    ghost function Left(): nat
      reads `hands, `recvs, `sends, `replies, `writes
    {
      |hands| + |recvs| + |sends| + |replies| + |writes|
    }

    ghost function LogsNow(): Logs
      reads `received, `fetched, `read, `taken, `handed, `written
    {
      Logs(received, fetched, read, taken, handed, written)
    }

    // ---- the logs are what the sockets brought ----

    /** What was received is what the outcomes used up so far brought. */
    ghost predicate ReceivedAll()
      reads `script, `start, `recvs, `received
    {
      Pending(script.recvs, recvs) && received == start.received + AllGot(Used(script.recvs, recvs))
    }

    ghost predicate FetchedAll()
      reads `script, `start, `replies, `fetched, `read, `taken
    {
      && Pending(script.replies, replies) && fetched == start.fetched + AllRead(Used(script.replies, replies))
      && start.read <= read <= fetched && start.taken <= taken
    }

    ghost predicate OnwardGrows()
      reads `start, `handed, `written
    {
      start.handed <= handed && start.written <= written
    }

    // ---- invariants of the download side ----

    ghost predicate Lifetimes()
      reads `backend, `backendAlive, `handshakeDone, `closed, `closing, `state, `made, `clientAlive, `responded, `bReadPaused
    {
      && (backend ==> backendAlive && handshakeDone && !closed && BackendFd !in closing && state != Closing && made.None?)
      && (closed <==> ClientFd in closing || !clientAlive)
      && (backend && bReadPaused ==> responded)
    }

    /** What the client has been or will be sent. */
    ghost predicate Contents()
      reads `read, `taken, `made, `out, `responded, `inBuf
    {
      && (made.None? ==> taken + out == read && |out| <= HIGH + CHUNK)
      && (made.Some? ==> taken + out == Render(made.value) && |read| == 0 && responded)
      && (responded <==> |read| > 0 || made.Some?) && (!responded ==> |taken| == 0 && |out| == 0)
      && Excused()
    }

    /** No refusal without a reason. */
    ghost predicate Excused() reads `made, `inBuf {
      made.Some? ==> Deserved(made.value, inBuf)
    }

    /** The request asks for castle's own endpoints. */
    predicate Inside(p: Parse) {
      p.Parsed? && "/_castle/" <= p.path
    }

    /** What every request that is not castle's own has to meet, test by test. */
    ghost predicate Uncoded(p: Parse) {
      p.Parsed? && !("/_castle/" <= p.path) && NoneCalled(p.headers, |p.headers|, CODING) && exists length: nat :: OnlyLength(p.headers, length)
    }

    ghost predicate Welcome(path: string, headers: seq<Header>, length: nat) {
      && !("/_castle/" <= path) && NoneCalled(headers, |headers|, CODING) && OnlyLength(headers, length)
      && (maxBody == 0 || length <= maxBody)
      && exists host: string :: LastCalled(headers, "HOST", host) && routed(host, path)
    }

    /** The bytes of a request head that have led to a refusal are those of a request that deserves it. */
    ghost predicate Deserved(a: Answer, text: string) {
      var p := parse(text);
      match a
      case HeaderTooLarge => p.Incomplete? && |text| > MAX_HEAD
      case MalformedRequest => p.Malformed?
      case BadLength =>
        && p.Parsed? && !("/_castle/" <= p.path)
        && exists k: nat :: FirstCalled(p.headers, LENGTH, k) && !ValidLength(p.headers[k].value)
      case RepeatedLength =>
        && p.Parsed? && !("/_castle/" <= p.path)
        && exists k: nat :: Repeats(p.headers, LENGTH, k) && ValidLength(p.headers[k].value)
      case ChunkedBody =>
        && p.Parsed? && !("/_castle/" <= p.path) && !NoneCalled(p.headers, |p.headers|, CODING)
        && exists length: nat :: OnlyLength(p.headers, length)
      case BodyTooLarge => Uncoded(p) && maxBody != 0 && exists length: nat :: OnlyLength(p.headers, length) && length > maxBody
      case NoRoute =>
        && Uncoded(p) && (exists length: nat :: OnlyLength(p.headers, length) && (maxBody == 0 || length <= maxBody))
        && exists host: string :: LastCalled(p.headers, "HOST", host) && !routed(host, p.path)
      case Upstream(_) => true
      case MethodNotAllowed => Inside(p) && p.verb != "GET" && p.verb != "HEAD"
      case Health(up, said, headOnly) =>
        && Inside(p) && Aims(p.path, "/_castle/health") && p.verb == (if headOnly then "HEAD" else "GET")
        && up == allUp && said == healthText
      case Uptime(said, headOnly) =>
        Inside(p) && Aims(p.path, "/_castle/uptime") && p.verb == (if headOnly then "HEAD" else "GET") && said == uptimeText
      case UnknownEndpoint(headOnly) =>
        && Inside(p) && !Aims(p.path, "/_castle/health") && !Aims(p.path, "/_castle/uptime")
        && p.verb == (if headOnly then "HEAD" else "GET")
    }

    ghost predicate Pipe()
      reads `backend, `backendAlive, `handshakeDone, `closed, `closing, `state, `made, `clientAlive, `responded, `bReadPaused,
            `out, `script, `start, `replies, `fetched, `read, `taken, `inBuf
    {
      Lifetimes() && Contents() && FetchedAll()
    }

    ghost predicate Down()
      reads `backend, `backendAlive, `handshakeDone, `closed, `closing, `state, `made, `clientAlive, `responded, `bReadPaused,
            `out, `script, `start, `replies, `fetched, `read, `taken, `peer, `inBuf
    {
      (backend <==> peer) && Pipe()
    }

    ghost predicate Paced() reads `backend, `backendPaused, `bReadPaused { backend ==> backendPaused == bReadPaused }
    ghost predicate Room() reads `backend, `bReadPaused, `out { backend && !bReadPaused ==> |out| <= HIGH }
    ghost predicate Stalled() reads `backend, `backendPaused, `out { backend && backendPaused ==> |out| > 0 }
    ghost predicate Draining() reads `closed, `state, `out { !closed && state == Closing ==> |out| > 0 }
    ghost predicate Reaped() reads `backendAlive, `backend, `closing { backendAlive ==> backend || BackendFd in closing }
    ghost predicate Even() reads `backend, `read, `fetched { backend ==> read == fetched }

    // ---- invariants of the interest masks ----

    ghost predicate Recomputed()
      reads `closed, `handshakeDone, `interest, `readPaused, `clientEof, `readBlock, `out, `writeBlock
    {
      !closed && handshakeDone ==> interest == ClientMask(readPaused, clientEof, readBlock, |out| > 0, writeBlock)
    }
    ghost predicate ReadFresh()
      reads `closed, `handshakeDone, `readPaused, `clientEof, `heard, `readBlock
    {
      !closed && handshakeDone && !readPaused && !clientEof ==> Blocked(heard.lastRecv) && readBlock == heard.lastRecv
    }
    ghost predicate WriteFresh()
      reads `closed, `out, `lastSend, `writeBlock
    {
      !closed && |out| > 0 ==> Blocked(lastSend) && (writeBlock == lastSend || writeBlock == Ok)
    }
    ghost predicate BackendArmed()
      reads `backend, `bInterest, `connected, `bReadPaused, `bOut
    {
      backend ==> bInterest == BackendMask(connected, bReadPaused, |bOut| > 0)
    }
    ghost predicate ReadsWait() reads `backend, `bReadPaused, `readWaits { backend && !bReadPaused ==> readWaits }
    ghost predicate WritesWait() reads `backend, `connected, `bOut, `writeWaits { backend && connected && |bOut| > 0 ==> writeWaits }

    /** The write side remembers what its last send waits for. */
    ghost predicate Remembered()
      reads `closed, `out, `lastSend, `writeBlock
    {
      !closed && |out| > 0 ==> writeBlock == lastSend
    }

    // ---- small steps ----

    method Close()  // close_both
      modifies `closed, `backend, `peer, `closing
      ensures old(closed) ==> closed == old(closed) && backend == old(backend) && peer == old(peer) && closing == old(closing)
      ensures !old(closed) ==> closed && !backend && peer == (old(peer) && !old(backend))
      ensures !old(closed) ==> closing == old(closing) + {ClientFd} + (if old(backend) then {BackendFd} else {})
    {
      if closed {
        return;
      }
      closed := true;
      if backend {
        peer := false;
        closing := closing + {BackendFd};
        backend := false;
      }
      closing := closing + {ClientFd};
    }

    /** A changed mask is given to the kernel, which then looks at the socket anew. */
    method SetInterest(mask: Mask)
      modifies `interest, `rearmed
      ensures interest == mask && rearmed == (old(rearmed) || mask != old(interest))
    {
      if mask == interest {
        return;
      }
      interest := mask;
      rearmed := true;
    }

    method RecomputeInterest()
      modifies `interest, `rearmed
      ensures interest == ClientMask(readPaused, clientEof, readBlock, |out| > 0, writeBlock)
      ensures rearmed == (old(rearmed) || interest != old(interest))
    {
      var wantIn, wantOut := false, false;
      if !readPaused && !clientEof {
        if readBlock == WouldBlockWrite {
          wantOut := true;
        } else {
          wantIn := true;
        }
      }
      if |out| > 0 {
        if writeBlock == WouldBlockRead {
          wantIn := true;
        } else {
          wantOut := true;
        }
      }
      if !wantIn && !wantOut && !readPaused && !clientEof {
        wantIn := true;
      }
      SetInterest(Mask(wantIn, wantOut));
    }

    method ApplyInterest()
      modifies `bInterest
      ensures bInterest == BackendMask(connected, bReadPaused, |bOut| > 0)
    {
      var input, output := false, false;
      if !connected {
        output := true;
      } else {
        if !bReadPaused {
          input := true;
        }
        if |bOut| > 0 {
          output := true;
        }
      }
      bInterest := Mask(input, output);
    }

    /** The loop of pump_write: push `out` at the client until it is gone or blocks. */
    method Drain() returns (st: IoStatus)
      requires Contents() && FetchedAll()
      modifies `sends, `out, `taken, `lastSend
      ensures Contents() && FetchedAll() && |sends| <= |old(sends)| && |out| <= |old(out)|
      ensures match Push(old(sends), |old(out)|)
              case Drained(rest) => st == Ok && |out| == 0 && sends == rest
              case Stuck(rest, left, asks) => st == asks == lastSend && |out| == left && sends == rest
              case Gone(rest) => (st == Closed || st == Error) && sends == rest
    {
      hide Contents, FetchedAll;
      while |out| > 0
        invariant Contents() && FetchedAll() && |sends| <= |old(sends)| && |out| <= |old(out)|
        invariant Push(sends, |out|) == Push(old(sends), |old(out)|)
        decreases |sends|
      {
        if sends == [] {
          lastSend := WouldBlockWrite;
          return WouldBlockWrite;
        }
        var answer := sends[0];
        sends := sends[1..];
        match answer
        case Took(count) =>
          TakeSome(count);
        case NotTook(stop) =>
          lastSend := stop;
          return stop;
      }
      return Ok;
    }

    /** A send that took some of the queue. */
    method TakeSome(count: Positive)
      requires Contents() && FetchedAll() && |out| > 0
      modifies `out, `taken, `lastSend
      ensures Contents() && FetchedAll() && |out| == |old(out)| - Min(count, |old(out)|)
      ensures lastSend == Ok
    {
      hide AllRead, Used, Pending, Render;
      var sent := Min(count, |out|);
      Moves(start.taken, taken, out, sent);
      taken := taken + out[..sent];
      lastSend := Ok;
      out := out[sent..];
    }

    lemma Moves(was: string, done: string, queue: string, n: nat)
      requires n <= |queue| && was <= done
      ensures done + queue[..n] + queue[n..] == done + queue && was <= done + queue[..n]
    {
      assert queue == queue[..n] + queue[n..];
      assert done + queue[..n] + queue[n..] == done + (queue[..n] + queue[n..]);
    }

    // ---- relaying the response: the two sides call each other ----

    /** What every step on the download side keeps. */
    twostate predicate Step()
      reads `hands, `recvs, `sends, `replies, `writes, `closing, `closed, `responded, `backend, `state
    {
      && Left() <= old(Left())
      && (BackendFd in old(closing) ==> BackendFd in closing) && (old(closed) ==> closed) && (old(responded) ==> responded)
      && (if backend then old(backend) && state == old(state) else state == old(state) || state == Closing)
      && (old(backend) && !backend ==> closed || state == Closing)
    }

    /** No backend was there to be touched. */
    twostate predicate BackendKept()
      reads `responded, `backendPaused, `bReadPaused, `bInterest, `readWaits, `closing, `fetched
    {
      && responded == old(responded) && backendPaused == old(backendPaused) && bReadPaused == old(bReadPaused)
      && bInterest == old(bInterest) && readWaits == old(readWaits) && fetched == old(fetched)
      && (BackendFd in closing <==> BackendFd in old(closing))
    }

    /** Nothing happened but a push. */
    twostate predicate OnlyPushed()
      reads `responded, `backendPaused, `bReadPaused, `bInterest, `state, `replies, `fetched, `read, `made, `readWaits, `cutShort,
            `backend, `closed
    {
      && responded == old(responded) && backendPaused == old(backendPaused) && bReadPaused == old(bReadPaused)
      && bInterest == old(bInterest) && state == old(state) && replies == old(replies)
      && fetched == old(fetched) && read == old(read) && made == old(made)
      && readWaits == old(readWaits) && cutShort == old(cutShort)
      && (backend <==> old(backend) && !closed)
    }

    ghost predicate Flowing()
      reads `backend, `backendAlive, `handshakeDone, `closed, `closing, `state, `made, `clientAlive, `responded, `bReadPaused,
            `out, `script, `start, `replies, `fetched, `read, `taken, `peer, `backendPaused, `lastSend, `writeBlock, `inBuf
    {
      Down() && Paced() && Room() && Stalled() && Draining() && Reaped() && WriteFresh()
    }

    ghost predicate Relaying()
      reads `backend, `backendAlive, `handshakeDone, `closed, `closing, `state, `made, `clientAlive, `responded, `bReadPaused,
            `out, `script, `start, `replies, `fetched, `read, `taken, `peer, `backendPaused, `lastSend, `writeBlock, `bInterest,
            `connected, `bOut, `inBuf
    {
      Flowing() && BackendArmed() && Even()
    }

    /** What the bytes queued for the client wait for. */
    ghost function Asks(): IoStatus reads `out, `lastSend {
      if |out| > 0 then lastSend else Ok
    }

    /** A push is over. */
    ghost predicate PushedTo(p: Pushed) reads `out, `sends, `closed, `state, `lastSend {
      match p
      case Drained(rest) => |out| == 0 && sends == rest && (closed <==> state == Closing)
      case Stuck(rest, left, asks) => |out| == left && sends == rest && !closed && lastSend == asks
      case Gone(rest) => closed && sends == rest
    }

    /** The pair is where this end of a stretch of relaying leaves it. */
    ghost predicate RelayedTo(end: Relayed, answered: bool)
      reads `backend, `bReadPaused, `out, `lastSend, `state, `closed, `replies, `sends
    {
      match end
      case Waiting(queued, asks, rest, room) =>
        backend && !bReadPaused && |out| == queued && Asks() == asks && replies == rest && sends == room
      case Full(queued, asks, rest, room) =>
        backend && bReadPaused && |out| == queued && Asks() == asks && replies == rest && sends == room
      case Finished(left, rest, room) =>
        !backend && state == Closing && |out| == left && (closed <==> left == 0) && replies == rest && sends == room
      case Lost => !backend && (answered ==> closed)
    }

    /** What is queued for the client and waits for reads is listened for. */
    ghost predicate Listens() reads `closed, `out, `lastSend, `interest {
      !closed && |out| > 0 && lastSend.WouldBlockRead? ==> interest.input
    }

    /** pump_write is about to resume the backend when the queue is empty. */
    ghost predicate Holding() reads `backend, `backendPaused { backend && backendPaused }

    method PumpWrite(ghost nest: Nest) returns (st: IoStatus)
      requires Down() && Paced() && Even() && !closed
      requires nest.pumps == 0 || (nest.pumps == 1 && !Holding())
      modifies `sends, `replies, `state, `out, `responded, `closed, `interest, `rearmed, `writeBlock, `backend, `backendPaused, `peer,
               `bInterest, `bReadPaused, `closing, `fetched, `read, `taken, `made,
               `lastSend, `readWaits, `cutShort
      decreases Left(), 5
      ensures Down() && Paced() && Even() && Step() && Stalled() && Draining()
      ensures (old(Reaped()) ==> Reaped()) && (old(Room()) ==> Room())
      ensures (old(BackendArmed()) ==> BackendArmed()) && (old(ReadsWait()) ==> ReadsWait())
      ensures !closed && |out| > 0 ==> Blocked(lastSend)
      ensures !old(backend) ==> BackendKept()
      // Without a paused backend to wake up, exactly one push happens.
      ensures !old(Holding()) ==> OnlyPushed() && PushedTo(Push(old(sends), |old(out)|)) && (!closed ==> st == Asks())
      // With one, relaying goes on from an empty queue.
      ensures old(Holding()) ==>
                match Push(old(sends), |old(out)|)
                case Drained(rest) => WokenTo(Relay(old(replies), rest, 0, Ok), old(cutShort)) && Listens() && st == Ok
                case Stuck(_, _, _) => OnlyPushed() && PushedTo(Push(old(sends), |old(out)|)) && st == Asks()
                case Gone(_) => OnlyPushed() && PushedTo(Push(old(sends), |old(out)|))
    {
      hide Down, Paced, Even, Reaped, Room, BackendArmed, ReadsWait, Push, Relay, Left, WokenTo;
      st := PushOut();
      if st == Ok {
        AfterPush(nest);
      }
    }

    /** The second half of pump_write, with an empty queue: resume a paused backend, close when done. */
    method AfterPush(ghost nest: Nest)
      requires Down() && Paced() && Even() && !closed && |out| == 0
      requires nest.pumps == 0 || (nest.pumps == 1 && !Holding())
      modifies `sends, `replies, `state, `out, `responded, `closed, `interest, `rearmed, `writeBlock, `backend, `backendPaused, `peer,
               `bInterest, `bReadPaused, `closing, `fetched, `read, `taken, `made,
               `lastSend, `readWaits, `cutShort
      decreases Left(), 4
      ensures Down() && Paced() && Even() && Step() && Stalled() && Draining()
      ensures (old(Reaped()) ==> Reaped()) && (old(Room()) ==> Room())
      ensures (old(BackendArmed()) ==> BackendArmed()) && (old(ReadsWait()) ==> ReadsWait())
      ensures !closed && |out| > 0 ==> Blocked(lastSend)
      ensures !old(Holding()) ==>
                OnlyPushed() && sends == old(sends) && |out| == 0 && (closed <==> state == Closing)
                && (BackendFd in closing <==> BackendFd in old(closing))
      ensures old(Holding()) ==> WokenTo(Relay(old(replies), old(sends), 0, Ok), old(cutShort)) && Listens()
    {
      hide Contents, FetchedAll, Relay, Left;
      if backendPaused && backend {
        WakeBackend(nest);
      }
      if state == Closing {
        FinishClosing();
      }
    }

    /** The first half of pump_write: push the queue, and close if the client is gone. */
    method PushOut() returns (st: IoStatus)
      requires Down() && !closed
      modifies `sends, `out, `closed, `backend, `peer, `closing, `taken, `lastSend
      ensures Down() && Left() <= old(Left()) && |out| <= |old(out)|
      ensures !closed ==> backend == old(backend) && peer == old(peer) && closing == old(closing)
      ensures (old(Paced()) ==> Paced()) && (old(Even()) ==> Even()) && (old(Reaped()) ==> Reaped()) && (old(Room()) ==> Room())
      ensures (old(BackendArmed()) ==> BackendArmed()) && (old(ReadsWait()) ==> ReadsWait())
      ensures closed ==> !backend && closing == old(closing) + {ClientFd} + (if old(backend) then {BackendFd} else {})
      ensures match Push(old(sends), |old(out)|)
              case Drained(rest) => st == Ok && |out| == 0 && sends == rest && !closed
              case Stuck(rest, left, asks) => st == asks == lastSend && |out| == left && sends == rest && !closed
              case Gone(rest) => st != Ok && closed && sends == rest
    {
      hide Contents, FetchedAll;
      st := Drain();
      if st == Closed || st == Error {
        Close();
      }
    }

    /** With an empty queue: resume the backend that was paused for it. */
    method WakeBackend(ghost nest: Nest)
      requires Down() && Even() && Holding() && bReadPaused && !closed && |out| == 0 && nest.pumps == 0
      modifies `sends, `replies, `state, `out, `responded, `closed, `interest, `rearmed, `writeBlock, `backend, `backendPaused, `peer,
               `bInterest, `bReadPaused, `closing, `fetched, `read, `taken, `made,
               `lastSend, `readWaits, `cutShort
      decreases Left(), 3
      ensures Relaying() && Step() && ReadsWait() && Listens() && cutShort == old(cutShort) && (old(Reaped()) ==> Reaped())
      ensures RelayedTo(Relay(old(replies), old(sends), 0, Ok), true)
    {
      hide Contents, FetchedAll, Relay;
      backendPaused := false;
      ResumeReads(nest.(pumps := 1));
    }

    /** The end of pump_write in state Closing. */
    method FinishClosing()
      requires Down() && !backend
      modifies `closed, `backend, `peer, `closing, `cutShort
      ensures Down() && closed && !backend && (old(closed) ==> closing == old(closing))
      ensures old(closing) <= closing <= old(closing) + {ClientFd} && (old(Reaped()) ==> Reaped())
      ensures cutShort == (old(cutShort) || (!old(closed) && |out| > 0))
    {
      hide Contents, FetchedAll;
      if !closed && |out| > 0 {
        cutShort := true;
      }
      Close();
    }

    /** pump_write is over after it has resumed a paused backend. */
    ghost predicate WokenTo(end: Relayed, cutBefore: bool)
      reads `backend, `bReadPaused, `out, `lastSend, `state, `closed, `cutShort, `replies, `sends
    {
      && (if end.Finished? then closed && !backend && |out| == end.left && replies == end.rest && sends == end.room
          else RelayedTo(end, true))
      && cutShort == (cutBefore || (end.Finished? && end.left > 0))
    }

    method ResumeReads(ghost nest: Nest)
      requires Down() && Even() && backend && !backendPaused && bReadPaused && |out| == 0 && nest.pumps == 1
      modifies `sends, `replies, `state, `out, `responded, `closed, `interest, `rearmed, `writeBlock, `backend, `backendPaused, `peer,
               `bInterest, `bReadPaused, `closing, `fetched, `read, `taken, `made,
               `lastSend, `readWaits, `cutShort
      decreases Left(), 2
      ensures Relaying() && Step() && ReadsWait() && Listens() && cutShort == old(cutShort)
      ensures RelayedTo(Relay(old(replies), old(sends), 0, Ok), true)
    {
      hide Even, RelayedTo, Left, Contents, FetchedAll, Push, Relay, Silent;
      if !bReadPaused {
        return;
      }
      bReadPaused := false;
      ApplyInterest();
      OnReadable(nest);
    }

    /** The client is as it was. */
    twostate predicate ClientKept()
      reads `out, `closed, `state, `responded, `writeBlock, `interest, `rearmed, `lastSend, `made
    {
      && out == old(out) && closed == old(closed) && state == old(state) && responded == old(responded)
      && writeBlock == old(writeBlock) && interest == old(interest) && rearmed == old(rearmed)
      && lastSend == old(lastSend) && made == old(made)
    }

    method OnReadable(ghost nest: Nest)
      requires Relaying() && nest.pumps <= 1
      modifies `sends, `replies, `state, `out, `responded, `closed, `interest, `rearmed, `writeBlock, `backend, `backendPaused, `peer,
               `bInterest, `bReadPaused, `closing, `fetched, `read, `taken, `made,
               `lastSend, `readWaits, `cutShort
      decreases Left(), 1
      ensures Relaying() && Step() && ReadsWait() && (old(Recomputed()) ==> Recomputed())
      ensures old(backend && !bReadPaused) ==> RelayedTo(Relay(old(replies), old(sends), |old(out)|, old(Asks())), old(responded))
      ensures old(backend) && !closed ==> read == fetched
      ensures if old(backend && !bReadPaused && !Silent(replies)) then Remembered() && Recomputed() else ClientKept()
      ensures cutShort == old(cutShort)
    {
      hide Flowing, BackendArmed, Recomputed, Relay, Silent;
      while !bReadPaused
        invariant Relaying() && Step() && (old(Recomputed()) ==> Recomputed())
        invariant old(backend && !bReadPaused) ==>
                    TurnedTo(true, Relay(old(replies), old(sends), |old(out)|, old(Asks())), old(responded))
        invariant old(backend) && !closed ==> backend && read == fetched
        invariant (old(bReadPaused) ==> bReadPaused) && (!old(backend) || old(bReadPaused) ==> ClientKept())
        invariant !old(backend && !bReadPaused)
                  || (ClientKept() && backend == old(backend) && bReadPaused == old(bReadPaused) && Silent(replies) == old(Silent(replies)))
                  || (Remembered() && Recomputed() && old(backend && !bReadPaused && !Silent(replies)))
        invariant cutShort == old(cutShort)
        decreases Left()
      {
        var more := ReadOnce(nest);
        if !more {
          return;
        }
      }
    }

    /** One turn of the read loop: one ::read and what follows from its outcome. */
    method ReadOnce(ghost nest: Nest) returns (more: bool)
      requires Relaying() && !bReadPaused && nest.pumps <= 1
      modifies `sends, `replies, `state, `out, `responded, `closed, `interest, `rearmed, `writeBlock, `backend, `backendPaused, `peer,
               `bInterest, `bReadPaused, `closing, `fetched, `read, `taken, `made,
               `lastSend, `readWaits, `cutShort
      decreases Left(), 0
      ensures Relaying() && Step() && (old(Recomputed()) ==> Recomputed()) && cutShort == old(cutShort)
      ensures if more then Left() < old(Left()) && (old(backend) && !closed ==> backend) else ReadsWait()
      ensures old(backend) ==>
                TurnedTo(more, Relay(old(replies), old(sends), |old(out)|, old(Asks())), old(responded))
      ensures old(backend) && !closed ==> read == fetched
      ensures !old(backend) ==> !backend && ClientKept()
      ensures old(backend) ==>
                if old(replies) == [] || old(replies)[0].ReadAgain? || old(replies)[0].ReadInterrupted?
                then backend && !bReadPaused && ClientKept() && (if more then Silent(replies) == old(Silent(replies)) else old(Silent(replies)))
                else Remembered() && Recomputed() && !old(Silent(replies))
    {
      hide Lifetimes, Flowing, Recomputed, Remembered, Relay, Push, Silent, Left, Next;
      LinkedFacts();
      if replies == [] {
        RelayNothing(sends, |out|, Asks());
        readWaits := true;
        return false;
      }
      ghost var end := Relay(replies, sends, |out|, Asks());
      RelayOne(replies, sends, |out|, Asks());
      var answer := replies[0];
      NoteReply();
      more := TakeReply(answer, end, nest);
    }

    /** The end of a stretch, seen from its next read. */
    predicate Next(answer: Read, rest: seq<Read>, sends: seq<Send>, queued: nat, asks: IoStatus, end: Relayed) {
      match answer
      case ReadAgain => end == Waiting(queued, asks, rest, sends)
      case ReadInterrupted => end == Relay(rest, sends, queued, asks)
      case ReadFailed => end == Lost
      case Eof => end == (match Push(sends, queued)
                          case Drained(room) => Finished(0, rest, room)
                          case Stuck(room, left, _) => Finished(left, rest, room)
                          case Gone(_) => Lost)
      case Data(d) => end == (match Push(sends, queued + |d|)
                              case Drained(room) => Relay(rest, room, 0, Ok)
                              case Stuck(room, left, now) =>
                                if left > HIGH then Full(left, now, rest, room) else Relay(rest, room, left, now)
                              case Gone(_) => Lost)
    }

    /** What follows from the outcome of one ::read. */
    method TakeReply(answer: Read, ghost end: Relayed, ghost nest: Nest) returns (more: bool)
      requires Flowing() && BackendArmed() && !bReadPaused && nest.pumps <= 1 && (answer.ReadAgain? ==> readWaits)
      requires backend ==> fetched == read + (if answer.Data? then answer.data else "") && Next(answer, replies, sends, |out|, Asks(), end)
      modifies `sends, `replies, `state, `out, `responded, `closed, `interest, `rearmed, `writeBlock, `backend, `backendPaused, `peer,
               `bInterest, `bReadPaused, `closing, `fetched, `read, `taken, `made,
               `lastSend, `readWaits, `cutShort
      decreases Left(), 10
      ensures Relaying() && Step() && (old(Recomputed()) ==> Recomputed()) && cutShort == old(cutShort)
      ensures if more then old(backend) && !closed ==> backend else ReadsWait()
      ensures more == (answer.Data? || answer.ReadInterrupted?)
      ensures old(backend) ==> TurnedTo(more, end, old(responded))
      ensures old(backend) && !closed ==> read == fetched
      ensures !old(backend) ==> !backend && ClientKept()
      ensures old(backend) ==>
                if answer.ReadAgain? || answer.ReadInterrupted? then backend && !bReadPaused && ClientKept() && replies == old(replies)
                else Remembered() && Recomputed()
    {
      hide Lifetimes, Contents, Flowing, Recomputed, Remembered, Relay, Push, Left;
      LinkedFacts();
      match answer
      case Data(data) =>
        if peer {
          DeliverToClient(data, nest);
        }
        return true;
      case Eof =>
        FinishReading(nest);
        return false;
      case ReadAgain =>
        return false;
      case ReadInterrupted =>
        return true;
      case ReadFailed =>
        Fail("backend read failed", nest);
        return false;
    }

    /** What a linked client is not. */
    lemma LinkedFacts()
      requires Flowing()
      ensures backend <==> peer
      ensures backend ==> !closed && made.None? && handshakeDone && state != Closing && backendPaused == bReadPaused && |out| <= HIGH + CHUNK
      ensures backend && !bReadPaused ==> |out| <= HIGH
    {
    }

    /** A turn of the read loop leaves this end ahead, or has reached it. */
    ghost predicate TurnedTo(more: bool, end: Relayed, answered: bool)
      reads `backend, `bReadPaused, `out, `lastSend, `state, `closed, `replies, `sends
    {
      if more && backend && !bReadPaused then Relay(replies, sends, |out|, Asks()) == end
      else RelayedTo(end, answered) && (more && !backend ==> end.Lost?)
    }

    lemma RelayNothing(sends: seq<Send>, queued: nat, asks: IoStatus)
      ensures Relay([], sends, queued, asks) == Waiting(queued, asks, [], sends) && Silent([])
    {
    }

    lemma RelayOne(replies: seq<Read>, sends: seq<Send>, queued: nat, asks: IoStatus)
      requires replies != []
      ensures Next(replies[0], replies[1..], sends, queued, asks, Relay(replies, sends, queued, asks))
      ensures Silent(replies) == (replies[0].ReadAgain? || (replies[0].ReadInterrupted? && Silent(replies[1..])))
    {
    }

    /** The backend connection asks to be closed. */
    method CloseBackend()
      requires Pipe() && !backend
      modifies `closing
      ensures Pipe() && closing == old(closing) + {BackendFd}
    {
      hide Contents, FetchedAll;
      closing := closing + {BackendFd};
    }

    /** End of file from the backend: the response is complete. */
    method FinishReading(ghost nest: Nest)
      requires Flowing() && nest.pumps <= 1
      modifies `sends, `replies, `state, `out, `responded, `closed, `interest, `rearmed, `writeBlock, `backend, `backendPaused, `peer,
               `bInterest, `bReadPaused, `closing, `fetched, `read, `taken, `made,
               `lastSend, `readWaits, `cutShort
      decreases Left(), 8
      ensures Flowing() && !backend && Step() && (old(Recomputed()) ==> Recomputed()) && cutShort == old(cutShort)
      ensures fetched == old(fetched) && read == old(read) && BackendFd in closing
      ensures if old(backend) then Remembered() && Recomputed() && state == Closing else ClientKept()
      ensures old(backend) ==>
                match Push(old(sends), |old(out)|)
                case Drained(rest) => closed && |out| == 0 && sends == rest && replies == old(replies)
                case Stuck(rest, left, _) => !closed && |out| == left && sends == rest && replies == old(replies)
                case Gone(rest) => closed
    {
      hide Pipe, Push, Recomputed, WriteFresh, Remembered, Left;
      if peer {
        peer := false;
        OnBackendClosed(nest);
      }
      CloseBackend();
    }

    lemma Appended(a: string, b: string, c: string)
      ensures a + (b + c) == a + b + c
    {
    }

    lemma StillPrefix(a: string, b: string, c: string)
      requires a <= b
      ensures a <= b + c
    {
    }

    /** One outcome of ::read is used up. */
    method NoteReply()
      requires Flowing() && replies != []
      modifies `replies, `fetched, `readWaits
      ensures Flowing() && replies == old(replies)[1..] && Left() < old(Left())
      ensures fetched == old(fetched) + if old(replies)[0].Data? then old(replies)[0].data else ""
      ensures readWaits == (old(replies)[0] == ReadAgain)
    {
      hide AllRead, Used, Pending, Lifetimes, Contents, Paced, Room, Stalled, Draining, Reaped, WriteFresh;
      NextRead(script.replies, replies);
      ghost var more := if replies[0].Data? then replies[0].data else "";
      Appended(start.fetched, AllRead(Used(script.replies, replies)), more);
      StillPrefix(read, fetched, more);
      readWaits := replies[0] == ReadAgain;
      fetched := fetched + more;
      replies := replies[1..];
    }

    method DeliverToClient(data: Chunk, ghost nest: Nest)
      requires Flowing() && BackendArmed() && backend && !closed && state != Closing && !bReadPaused
      requires !backendPaused && nest.pumps <= 1
      requires fetched == read + data
      modifies `sends, `replies, `state, `out, `responded, `closed, `interest, `rearmed, `writeBlock, `backend, `backendPaused, `peer,
               `bInterest, `bReadPaused, `closing, `fetched, `read, `taken, `made,
               `lastSend, `readWaits, `cutShort
      decreases Left(), 7
      ensures Relaying() && Step() && Recomputed() && Remembered() && cutShort == old(cutShort)
      ensures read == old(read) + data && fetched == old(fetched)
      ensures replies == old(replies) && readWaits == old(readWaits)
      ensures Fed(Push(old(sends), |old(out)| + |data|))
    {
      hide Down, Even, Paced, Reaped, Draining, BackendArmed, Recomputed, WriteFresh, Remembered, Push, Left, Room, Stalled, Fed;
      LinkedFacts();
      if closed {
        return;
      }
      Append(data);
      PushAndRegulate(nest);
    }

    /** A push is over after which too much in the queue pauses the backend. */
    ghost predicate Fed(p: Pushed) reads `backend, `bReadPaused, `out, `sends, `lastSend, `closed {
      match p
      case Drained(rest) => backend && !bReadPaused && |out| == 0 && sends == rest
      case Stuck(rest, left, asks) => backend && |out| == left && (bReadPaused <==> left > HIGH) && sends == rest && lastSend == asks
      case Gone(rest) => closed && !backend
    }

    /** The rest of deliver_to_client once the data have joined the queue. */
    method PushAndRegulate(ghost nest: Nest)
      requires Down() && Paced() && Even() && Reaped() && BackendArmed() && backend && responded
      requires !closed && state != Closing && !bReadPaused && !backendPaused && nest.pumps <= 1
      modifies `sends, `replies, `state, `out, `responded, `closed, `interest, `rearmed, `writeBlock, `backend, `backendPaused, `peer,
               `bInterest, `bReadPaused, `closing, `fetched, `read, `taken, `made,
               `lastSend, `readWaits, `cutShort
      decreases Left(), 7, 0
      ensures Relaying() && Step() && Recomputed() && Remembered() && cutShort == old(cutShort)
      ensures read == old(read) && fetched == old(fetched) && replies == old(replies) && readWaits == old(readWaits)
      ensures Fed(Push(old(sends), |old(out)|))
    {
      hide Down, Even, Paced, Reaped, Draining, BackendArmed, Recomputed, WriteFresh, Remembered, Push, Left, BackendKept;
      PushAndRearm(nest);
      if closed {
        return;
      }
      Regulate();
    }

    /** The second half of deliver_to_client: pause the backend when too much is queued. */
    method Regulate()
      requires backend && !bReadPaused && responded && Down() && Paced() && BackendArmed() && Recomputed()
      modifies `bReadPaused, `bInterest, `backendPaused, `interest, `rearmed
      ensures Down() && Paced() && Room() && Stalled() && BackendArmed() && Recomputed()
      ensures bReadPaused == (|out| > HIGH)
    {
      hide Contents, FetchedAll;
      if backend && !backendPaused && |out| > HIGH {
        PauseReads();
        backendPaused := true;
      }
      RecomputeInterest();
    }

    /** The data join the queue. */
    method Append(data: Chunk)
      requires Down() && backend && |out| <= HIGH && fetched == read + data
      modifies `out, `read, `responded
      ensures Down() && Even() && responded && |out| == |old(out)| + |data| && read == old(read) + data
    {
      hide AllRead, Used, Pending;
      responded := true;
      assert taken + (out + data) == taken + out + data;
      out := out + data;
      read := read + data;
    }

    method PauseReads()
      modifies `bReadPaused, `bInterest
      ensures bReadPaused
      ensures bInterest == if old(bReadPaused) then old(bInterest) else BackendMask(connected, true, |bOut| > 0)
    {
      if bReadPaused {
        return;
      }
      bReadPaused := true;
      ApplyInterest();
    }

    /** Push what is queued, close or wait: the tail of three callbacks. */
    method PushAndRearm(ghost nest: Nest)
      requires Down() && Paced() && Even() && !closed && !Holding() && nest.pumps <= 1
      modifies `sends, `replies, `state, `out, `responded, `closed, `interest, `rearmed, `writeBlock, `backend, `backendPaused, `peer,
               `bInterest, `bReadPaused, `closing, `fetched, `read, `taken, `made,
               `lastSend, `readWaits, `cutShort
      decreases Left(), 6
      ensures Down() && Paced() && Even() && Step() && Draining() && OnlyPushed()
      ensures Recomputed() && WriteFresh() && Remembered()
      ensures PushedTo(Push(old(sends), |old(out)|))
      ensures !old(backend) ==> BackendKept()
      ensures (old(Reaped()) ==> Reaped()) && (old(Room()) ==> Room()) && (old(BackendArmed()) ==> BackendArmed())
    {
      hide Down, Paced, Even, Draining, OnlyPushed, Step, BackendKept, Room, Reaped, BackendArmed, PushedTo, Push;
      writeBlock := PumpWrite(nest);
      if closed {
        return;
      }
      RecomputeInterest();
    }

    method OnBackendClosed(ghost nest: Nest)
      requires Pipe() && backend && !peer && nest.pumps <= 1
      modifies `sends, `replies, `state, `out, `responded, `closed, `interest, `rearmed, `writeBlock, `backend, `backendPaused, `peer,
               `bInterest, `bReadPaused, `closing, `fetched, `read, `taken, `made,
               `lastSend, `readWaits, `cutShort
      decreases Left(), 7
      ensures Down() && !backend && Step() && state == Closing
      ensures Draining() && Recomputed() && WriteFresh() && Remembered() && cutShort == old(cutShort)
      ensures fetched == old(fetched) && read == old(read) && made == old(made)
      ensures match Push(old(sends), |old(out)|)
              case Drained(rest) => closed && |out| == 0 && sends == rest && replies == old(replies)
              case Stuck(rest, left, _) => !closed && |out| == left && sends == rest && replies == old(replies)
              case Gone(rest) => closed
    {
      hide Contents, FetchedAll, Push, Relay, Silent;
      backend, state := false, Closing;
      PushAndRearm(nest);
    }

    ghost function DownNow(): DownView
      reads `sends, `replies, `state, `out, `responded, `closed, `interest, `rearmed, `writeBlock, `backend, `backendPaused, `peer,
            `bReadPaused, `closing,
            `fetched, `read, `taken, `made, `lastSend, `readWaits, `cutShort
    {
      DownView(sends, replies, state, out, responded, closed, interest, rearmed, writeBlock, backend, backendPaused, peer, bReadPaused,
               closing,
               fetched, read, taken, made, lastSend, readWaits, cutShort)
    }

    ghost function Stand(): Stance
      reads `state, `bodyRemaining, `readPaused, `clientEof, `closed, `out, `sends, `writeBlock, `readBlock, `lastSend, `backendPaused,
            `bReadPaused, `responded, `made, `cutShort, `rearmed, `faults
    {
      Stance(state, bodyRemaining, readPaused, clientEof, closed, out, sends, writeBlock, readBlock, lastSend, backendPaused, bReadPaused,
             responded, made, cutShort, rearmed, faults)
    }

    /** Where the client stands in a callback with this script. */
    ghost function StandOf(s: Io): Stance
      reads `state, `bodyRemaining, `readPaused, `clientEof, `closed, `out, `writeBlock, `readBlock, `lastSend, `backendPaused,
            `bReadPaused, `responded, `made, `cutShort, `rearmed, `faults
    {
      Stance(state, bodyRemaining, readPaused, clientEof, closed, out, s.sends, writeBlock, readBlock, lastSend, backendPaused, bReadPaused,
             responded, made, cutShort, rearmed, faults)
    }

    /** The backend has failed: a 502 before the first byte of a response, a plain close after it. */
    ghost predicate LinkLost(why: string, was: Stance)
      reads `backend, `closed, `made, `out, `lastSend, `writeBlock, `cutShort, `state, `responded, `sends
    {
      && !backend && Remembered() && responded && cutShort == was.cutShort
      && (state == was.state || state == Closing) && (closed || state == Closing)
      && if was.responded then closed && made == was.made
         else made == Some(Upstream(why)) && Answered(Answering(was.sends, |Render(Upstream(why))|, Closing, []))
    }

    /** A made-up response has been pushed. */
    ghost predicate Answered(a: Option<Adrift>) reads `closed, `state, `sends, `out {
      match a
      case None => closed
      case Some(open) => !closed && state == open.state && sends == open.sends && |out| == open.left
    }

    method Fail(why: string, ghost nest: Nest)
      requires Flowing() && nest.pumps <= 1
      modifies `sends, `replies, `state, `out, `responded, `closed, `interest, `rearmed, `writeBlock, `backend, `backendPaused, `peer,
               `bInterest, `bReadPaused, `closing, `fetched, `read, `taken, `made,
               `lastSend, `readWaits, `cutShort
      decreases Left(), 9
      ensures Flowing() && !backend && Step() && BackendFd in closing && (old(Recomputed()) ==> Recomputed())
      ensures if old(backend) then LinkLost(why, old(Stand())) && Recomputed() else ClientKept()
      ensures cutShort == old(cutShort) && read == old(read) && fetched == old(fetched)
    {
      hide Pipe, Push, Recomputed, WriteFresh, Remembered, Left;
      if peer {
        peer := false;
        OnBackendError(why, nest);
      }
      CloseBackend();
    }

    method OnBackendError(why: string, ghost nest: Nest)
      requires Pipe() && backend && !peer && nest.pumps <= 1
      modifies `sends, `replies, `state, `out, `responded, `closed, `interest, `rearmed, `writeBlock, `backend, `backendPaused, `peer,
               `bInterest, `bReadPaused, `closing, `fetched, `read, `taken, `made,
               `lastSend, `readWaits, `cutShort
      decreases Left(), 8
      ensures Down() && Step() && LinkLost(why, old(Stand())) && fetched == old(fetched) && read == old(read)
      ensures Draining() && Recomputed() && WriteFresh()
    {
      hide Contents, FetchedAll, Push, Relay, Silent;
      backend := false;
      if !responded {
        SendResponse(Upstream(why), nest);
      } else {
        Close();
      }
    }

    method SendResponse(answer: Answer, ghost nest: Nest)
      requires Pipe() && !backend && !peer && !responded && !closed && nest.pumps <= 1 && Deserved(answer, inBuf)
      modifies `sends, `replies, `state, `out, `responded, `closed, `interest, `rearmed, `writeBlock, `backend, `backendPaused, `peer,
               `bInterest, `bReadPaused, `closing, `fetched, `read, `taken, `made,
               `lastSend, `readWaits, `cutShort
      decreases Left(), 7
      ensures Down() && !backend && Step() && responded && state == Closing
      ensures made == Some(answer) && fetched == old(fetched) && read == old(read) && cutShort == old(cutShort)
      ensures Draining() && Recomputed() && WriteFresh() && Remembered()
      ensures Answered(Answering(old(sends), |Render(answer)|, Closing, []))
      ensures bReadPaused == old(bReadPaused) && bInterest == old(bInterest) && readWaits == old(readWaits)
      ensures backendPaused == old(backendPaused) && (BackendFd in closing <==> BackendFd in old(closing))
    {
      hide Contents, FetchedAll, Push, Relay, Silent, Render;
      MakeUp(answer);
      PushAndRearm(nest);
    }

    /** A made-up response replaces an empty queue. */
    method MakeUp(answer: Answer)
      requires Contents() && FetchedAll() && !responded && Deserved(answer, inBuf)
      modifies `out, `made, `responded, `state
      ensures Contents() && FetchedAll() && responded && state == Closing && out == Render(answer)
      ensures made == Some(answer)
    {
      assert |out| == 0;
      out := Render(answer);
      made := Some(answer);
      responded := true;
      state := Closing;
    }

    // ---- invariants of the upload side ----

    /** Nothing handed to the backend connection is lost, and its queue is bounded. */
    ghost predicate Queued() reads `backend, `written, `bOut, `handed {
      backend ==> written + bOut == handed && |bOut| <= HIGH + CHUNK
    }

    /** A request is what the parser made of its bytes, and nothing speaks against it. */
    ghost predicate Understood(r: Request) {
      r.size <= |r.source| && parse(r.source) == Parsed(r.verb, r.path, r.headers, r.size) && Welcome(r.path, r.headers, r.length)
    }

    /** What was handed over is the rewritten head and then the announced part of the body seen so far. */
    ghost predicate Counted(seen: string)
      reads `backend, `head, `body, `upstream, `request, `bodyRemaining, `handed
    {
      backend ==>
        && seen == head + body && upstream == request.text && Forwardable(request) && Understood(request)
        && head == request.source[..request.size]
        && bodyRemaining <= request.length && request.length - bodyRemaining == Min(request.length, |body|)
        && handed == upstream + body[..request.length - bodyRemaining]
    }

    ghost predicate Phased() reads `backend, `state, `bodyRemaining, `clientEof {
      backend ==> (state == StreamingUp && bodyRemaining > 0 && !clientEof) || (state == Streaming && bodyRemaining == 0)
    }

    ghost predicate Throttled() reads `backend, `readPaused, `highWaterHit, `connected, `bOut, `state {
      backend ==>
        && (readPaused ==> highWaterHit && state == StreamingUp && if connected then LOW <= |bOut| else HIGH < |bOut|)
        && (!readPaused && state == StreamingUp ==> |bOut| <= HIGH)
    }

    /** The fields of the backend connection are those of a new one. */
    ghost predicate Unopened()
      reads `backendAlive, `bOut, `bInterest, `connected, `bReadPaused, `highWaterHit, `handed, `written, `fetched, `readWaits
    {
      && !backendAlive && |bOut| == 0 && bInterest == Mask(false, true) && !connected && !bReadPaused && !highWaterHit
      && |handed| == 0 && |written| == 0 && |fetched| == 0 && readWaits
    }

    /** Before the request head is complete there is no backend. */
    ghost predicate HeadKept(seen: string)
      reads `state, `responded, `backend, `inBuf, `handshakeDone, `closed, `closing, `backendPaused, `readPaused, `clientEof,
            `backendAlive, `bOut, `bInterest, `connected, `bReadPaused, `highWaterHit, `handed, `written, `fetched, `readWaits
    {
      && (state == ReadingHead ==> !responded && !backend && inBuf == seen && |inBuf| <= MAX_HEAD)
      && (state == ReadingHead ==> inBuf == "" || parse(inBuf).Incomplete?)
      && |inBuf| <= MAX_HEAD + CHUNK && inBuf <= seen
      && (!handshakeDone ==> closed || state == ReadingHead)
      && (state == ReadingHead ==> Unopened() && BackendFd !in closing && !backendPaused && !readPaused && !clientEof)
    }

    /** An open client has no backend in the middle of a request exactly if it is an orphan. */
    ghost predicate Owned() reads `closed, `state, `backend, `faults {
      !closed ==> (faults.orphaned <==> (state == StreamingUp || state == Streaming) && !backend)
    }

    /** What is fixed for a pair: the parser hands out pieces of what it was given. */
    ghost predicate Sound() {
      forall s {:trigger parse(s)} :: Fits(parse(s), |s|)
    }

    /** The upload side, but for what a write to the backend changes, when `seen` of the client's bytes are accounted for. */
    ghost predicate UpTo(seen: string)
      reads `backend, `bOut, `handed, `head, `body, `upstream, `request, `bodyRemaining, `state, `readPaused,
            `highWaterHit, `connected, `responded, `inBuf, `handshakeDone, `closed, `closing, `backendPaused, `clientEof,
            `backendAlive, `bInterest, `bReadPaused, `readWaits, `faults, `written, `fetched
    {
      Counted(seen) && Phased() && Throttled() && HeadKept(seen) && Owned()
    }

    ghost predicate UpRest()
      reads `backend, `bOut, `handed, `received, `head, `body, `upstream, `request, `bodyRemaining, `state, `readPaused,
            `highWaterHit, `connected, `responded, `inBuf, `handshakeDone, `closed, `closing, `backendPaused, `clientEof,
            `backendAlive, `bInterest, `bReadPaused, `readWaits, `faults, `written, `fetched, `script, `start, `recvs
    {
      UpTo(received) && ReceivedAll()
    }

    /** The download side, and what was handed over so far. */
    ghost predicate Carrying()
      reads `backend, `backendAlive, `handshakeDone, `closed, `closing, `state, `made, `clientAlive, `responded, `bReadPaused,
            `out, `script, `start, `replies, `fetched, `read, `taken, `peer, `backendPaused, `lastSend, `writeBlock, `readWaits, `handed,
            `written, `inBuf
    {
      Flowing() && Even() && ReadsWait() && OnwardGrows()
    }

    lemma CarryingFacts()
      requires Carrying()
      ensures (backend <==> peer) && (closed ==> !backend)
      ensures backend ==> !closed && made.None? && handshakeDone && state != Closing && |out| <= HIGH + CHUNK
    {
      hide Contents, FetchedAll, Even, ReadsWait, OnwardGrows;
      LinkedFacts();
    }

    ghost predicate Steady()
      reads `backend, `written, `bOut, `handed, `received, `head, `body, `upstream, `request, `bodyRemaining, `state, `readPaused,
            `highWaterHit, `connected, `responded, `inBuf, `handshakeDone, `closed, `closing, `backendPaused, `clientEof,
            `backendAlive, `bInterest, `bReadPaused, `readWaits, `faults, `writeWaits, `script, `start, `recvs,
            `made, `clientAlive, `out, `replies, `fetched, `read, `taken, `peer, `lastSend, `writeBlock
    {
      Carrying() && Queued() && WritesWait() && UpRest()
    }

    // ---- what a callback leads to, seen from its start ----

    ghost function HandshakeAnswer(): IoStatus reads `hands {
      if hands == [] then WouldBlockRead else hands[0]
    }

    /** The answer of castle's own endpoints. */
    function InternalAnswer(verb: string, target: string): Answer {
      var headOnly := verb == "HEAD";
      if verb != "GET" && !headOnly then MethodNotAllowed
      else if target == "/_castle/health" then Health(allUp, healthText, headOnly)
      else if target == "/_castle/uptime" then Uptime(uptimeText, headOnly)
      else UnknownEndpoint(headOnly)
    }

    /** Why a request is not forwarded, if it is not. */
    function Refusal(path: string, headers: seq<Header>): Option<Answer> {
      var lengths := Select(headers, |headers|, "content-length");
      if lengths != [] && !ValidLength(lengths[0].value) then Some(BadLength)
      else if |lengths| > 1 then Some(RepeatedLength)
      else if Select(headers, |headers|, "transfer-encoding") != [] then Some(ChunkedBody)
      else if maxBody != 0 && Announced(headers) > maxBody then Some(BodyTooLarge)
      else if !routed(LastValue(headers, |headers|, "host"), path) then Some(NoRoute)
      else if opening.OpenFailed? then Some(Upstream(opening.why))
      else None
    }

    /** What castle itself answers to the bytes of a request head, if anything. */
    function Reply(p: Parse, size: nat): Option<Answer> {
      match p
      case Incomplete => if size > MAX_HEAD then Some(HeaderTooLarge) else None
      case Malformed => Some(MalformedRequest)
      case Parsed(verb, path, headers, _) =>
        if INTERNAL <= path then Some(InternalAnswer(verb, BeforeQuery(path))) else Refusal(path, headers)
    }

    /** How many bytes are queued for a new backend, and how many body bytes are still to come. */
    function FirstQueued(p: Parse, size: nat): nat
      requires p.Parsed? && p.headLen <= size
    {
      |Print(p.verb, p.path, p.headers)| + Min(size - p.headLen, Announced(p.headers))
    }

    function FirstRemaining(p: Parse, size: nat): nat
      requires p.Parsed? && p.headLen <= size
    {
      Announced(p.headers) - Min(size - p.headLen, Announced(p.headers))
    }

    /** A new backend connection has the head, and what there is of the body. */
    function Joined(p: Parse, size: nat, recvs: seq<Recv>, writes: seq<Write>): (r: Reading)
      ensures !r.Deaf? && !r.Unfinished? && !r.Made? && !r.Loose?
    {
      if opening.NotRegistered? || !p.Parsed? || p.headLen > size then
        Unregistered(if p.Parsed? && Announced(p.headers) > 0 then StreamingUp else Streaming, recvs)
      else Pull(recvs, writes, false, FirstQueued(p, size), FirstRemaining(p, size))
    }

    /** What reading on leads to when these bytes of a request head are in. */
    function AfterText(text: string, recvs: seq<Recv>, writes: seq<Write>): (r: Reading)
      ensures !r.Deaf? && !r.Loose?
      decreases |recvs|, 1
    {
      var p := parse(text);
      if Reply(p, |text|).Some? then Made(Reply(p, |text|).value, recvs)
      else if p.Incomplete? then FromHead(recvs, text, writes)
      else Joined(p, |text|, recvs, writes)
    }

    function FromHead(recvs: seq<Recv>, text: string, writes: seq<Write>): (r: Reading)
      ensures !r.Deaf? && !r.Loose?
      decreases |recvs|, 0
    {
      if recvs == [] then Unfinished([])
      else match recvs[0]
           case NotGot(stop) => if Blocked(stop) then Unfinished(recvs[1..]) else Reading.Gone
           case Got(data) => AfterText(text + data, recvs[1..], writes)
    }

    /** What reading these outcomes leads to. */
    ghost function ReadsGiven(rs: seq<Recv>): Reading
      reads `closed, `handshakeDone, `hands, `backend, `readPaused, `clientEof, `writes, `connected, `bOut, `bodyRemaining, `state, `inBuf
    {
      if closed || (!handshakeDone && HandshakeAnswer() != Ok) then Deaf
      else if backend then
        if readPaused || clientEof then Linked(rs, writes, |bOut|, bodyRemaining, readPaused, clientEof, WouldBlockRead)
        else Pull(rs, writes, connected, |bOut|, bodyRemaining)
      else if state == ReadingHead then FromHead(rs, inBuf, writes)
      else Loose(if readPaused || clientEof then Stopped(rs, clientEof) else Discard(rs, state != StreamingUp), state)
    }

    ghost function Reads(): Reading
      reads `closed, `handshakeDone, `hands, `backend, `readPaused, `clientEof, `writes, `connected, `bOut, `bodyRemaining, `state, `inBuf,
            `recvs
    {
      ReadsGiven(recvs)
    }

    ghost function Here(): Mouth
      reads `backend, `backendPaused, `sends, `replies, `out, `cutShort, `responded
    {
      Mouth(Holding(), sends, replies, |out|, cutShort, responded)
    }

    /** Reading `rs` is on its way to `r`, or it has lost its backend on the way and goes on without. */
    ghost predicate Underway(rs: seq<Recv>, r: Reading, m: Mouth, f: Faults)
      reads `closed, `handshakeDone, `hands, `backend, `readPaused, `clientEof, `writes, `connected, `bOut, `bodyRemaining, `state, `inBuf,
            `backendPaused, `sends, `replies, `out, `cutShort, `faults, `made, `responded
    {
      || (ReadsGiven(rs) == r && Here() == m && faults == f)
      || (Ends(r) && Unlinked(rs, r, m, f))
    }

    /** Reading has lost its backend; an open client discards the rest. */
    ghost predicate Unlinked(rs: seq<Recv>, r: Reading, m: Mouth, f: Faults)
      reads `closed, `handshakeDone, `hands, `backend, `readPaused, `clientEof, `writes, `connected, `bOut, `bodyRemaining, `state, `inBuf,
            `sends, `out, `cutShort, `faults, `made
    {
      && !backend && faults == Mark(f, r, m) && cutShort == m.cutShort && (Told(r, m).Some? ==> made == Told(r, m))
      && match AdriftOf(r, m)
         case None => closed
         case Some(a) =>
           var spent := Discard(a.rest, a.state != StreamingUp);
           if closed then spent.Shut? else sends == a.sends && |out| == a.left && ReadsGiven(rs) == Loose(spent, a.state)
    }

    /** Reading has closed the client. */
    ghost predicate Ended(r: Reading, m: Mouth, f: Faults)
      reads `closed, `handshakeDone, `hands, `backend, `readPaused, `clientEof, `writes, `connected, `bOut, `bodyRemaining, `state, `inBuf,
            `sends, `out, `cutShort, `faults, `made
    {
      if r.Loose? then r.spent.Shut? && faults == f && cutShort == m.cutShort && !backend
      else Ends(r) && Unlinked([], r, m, f)
    }

    /** An open client without a backend, with nothing more to read for now. */
    ghost predicate Settled(spent: Spent, at: State, room: seq<Send>, left: nat)
      reads `backend, `clientEof, `state, `sends, `out, `recvs
    {
      && !backend && spent.Stopped? && recvs == spent.rest && clientEof == spent.eof
      && state == at && state != ReadingHead && sends == room && |out| == left
    }

    /** Reading is over, and reports `st`. */
    ghost predicate Through(r: Reading, st: IoStatus, m: Mouth, f: Faults)
      reads `backend, `readPaused, `clientEof, `writes, `bOut, `bodyRemaining, `state,
            `backendPaused, `sends, `replies, `out, `cutShort, `faults, `made, `recvs, `responded
    {
      if r.Unfinished? then !backend && Here() == m && faults == f && state == ReadingHead && recvs == r.rest
      else if r.Linked? then
        && backend && Here() == m && faults == f && recvs == r.rest && writes == r.writes && |bOut| == r.queued
        && bodyRemaining == r.remaining && readPaused == r.paused && clientEof == r.eof && st == r.block
      else if r.Loose? then Settled(r.spent, r.state, m.sends, m.queued) && faults == f && cutShort == m.cutShort
      else
        && Ends(r) && AdriftOf(r, m).Some? && faults == Mark(f, r, m) && cutShort == m.cutShort && (Told(r, m).Some? ==> made == Told(r, m))
        && var a := AdriftOf(r, m).value;
           Settled(Discard(a.rest, a.state != StreamingUp), a.state, a.sends, a.left)
    }

    /** The write side of the client is left waiting for a direction that nothing watches. */
    ghost predicate Forgotten()
      reads `out, `lastSend, `writeBlock, `readPaused, `clientEof, `readBlock
    {
      && |out| > 0 && lastSend.WouldBlockRead? && writeBlock == Ok
      && (readPaused || clientEof || readBlock.WouldBlockWrite?)
    }

    /** Then the mask has been changed: the kernel looks at the socket anew, and the next push remembers. */
    ghost predicate Reminded()
      reads `closed, `out, `lastSend, `writeBlock, `readPaused, `clientEof, `readBlock, `rearmed
    {
      !closed && Forgotten() ==> rearmed
    }

    /** Before the mask is computed again, what is about to be forgotten is in it. */
    ghost predicate Heeds()
      reads `closed, `out, `lastSend, `writeBlock, `readPaused, `clientEof, `readBlock, `interest
    {
      !closed && Forgotten() ==> interest.input
    }

    /** A client without a backend has had its queue pushed after it read all there was. */
    ghost predicate Drifted(spent: Spent, at: State, room: seq<Send>, left: nat)
      reads `clientEof, `state, `sends, `out, `recvs, `closed, `lastSend
    {
      match spent
      case Shut => closed
      case Stopped(rest, eof) =>
        var p := Push(room, left);
        && PushedTo(p) && (closed <==> p.Gone? || (p.Drained? && at == Closing))
        && (!closed ==> recvs == rest && clientEof == eof && state == at && state != ReadingHead)
    }

    /** A drive is over that was to read as far as `r` and then to push from `m`. */
    ghost predicate Driven(r: Reading, m: Mouth, f: Faults)
      reads `backend, `readPaused, `clientEof, `writes, `bOut, `bodyRemaining, `sends, `out, `cutShort, `faults, `made, `closed,
            `handshakeDone,
            `state, `lastSend, `bReadPaused, `writeBlock, `readBlock, `recvs, `replies, `rearmed, `responded
    {
      && faults == Mark(f, r, m) && Reminded()
      && cutShort == (m.cutShort || (r.Linked? && CutsShort(m)))
      && (!closed ==> (Forgotten() <==> r.Linked? && Forgets(m) && (r.paused || r.eof || r.block.WouldBlockWrite?)))
      && (Told(r, m).Some? ==> made == Told(r, m)) && (!r.Linked? && !r.Deaf? ==> !backend)
      && (r.Linked? ==>
            && (if Woken(m).Some? then WokenTo(Woken(m).value, m.cutShort)
                else
                  && PushedTo(Push(m.sends, m.queued)) && (backend <==> !closed) && (closed <==> Push(m.sends, m.queued).Gone?)
                  && responded == m.answered)
            && recvs == r.rest && writes == r.writes && |bOut| == r.queued && bodyRemaining == r.remaining
            && readPaused == r.paused && clientEof == r.eof)
      && (r.Unfinished? ==> recvs == r.rest && state == ReadingHead)
      && (r.Loose? ==> Drifted(r.spent, r.state, m.sends, m.queued))
      && (Ends(r) ==>
            match AdriftOf(r, m)
            case None => closed
            case Some(a) => Drifted(Discard(a.rest, a.state != StreamingUp), a.state, a.sends, a.left))
    }

    // ---- forwarding the request ----

    /** What only connecting, destroying and starting a callback change. */
    ghost function Fixed(): FixedView
      reads `connected, `clientAlive, `script, `start
    {
      FixedView(connected, clientAlive, script, start)
    }

    twostate predicate Same() reads `connected, `clientAlive, `script, `start, `state {
      Fixed() == old(Fixed()) && (old(state) != ReadingHead ==> state != ReadingHead)
    }

    ghost function UploadNow(): UploadView
      reads `inBuf, `upstream, `bodyRemaining, `handshakeDone, `clientEof, `readPaused, `readBlock, `backendAlive, `received, `head, `body,
            `request, `heard, `faults, `recvs, `hands
    {
      UploadView(inBuf, upstream, bodyRemaining, handshakeDone, clientEof, readPaused, readBlock, backendAlive, received, head, body,
                 request, heard, faults, recvs, hands)
    }

    /** Sending `n` more bytes to the backend fails; what is left of the queue otherwise, and of the writes. */
    ghost predicate SendFails(n: nat) reads `connected, `writes, `bOut {
      connected && WriteFails(writes, |bOut| + n)
    }

    ghost function SendLeft(n: nat): nat reads `connected, `writes, `bOut {
      if connected then WriteLeft(writes, |bOut| + n) else |bOut| + n
    }

    ghost function SendRest(n: nat): seq<Write> reads `connected, `writes, `bOut {
      if connected then WriteRest(writes, |bOut| + n) else writes
    }

    /** Of the queue, what comes after `off` has not been written yet. */
    ghost predicate Unwritten(off: nat) reads `bOut, `written, `handed {
      off <= |bOut| && written + bOut[off..] == handed
    }

    /** Bytes of the queue have been written. */
    ghost method NoteWritten(off: nat, n: nat)
      requires Carrying() && off + n <= |bOut| && Unwritten(off)
      modifies `written
      ensures Carrying() && Unwritten(off + n)
    {
      hide Flowing, Even, ReadsWait;
      assert bOut[off..] == bOut[off..off + n] + bOut[off + n..];
      written := written + bOut[off..off + n];
    }

    lemma NoneWritten()
      requires backend && Queued()
      ensures Unwritten(0) && |bOut| <= HIGH + CHUNK
    {
      assert bOut[0..] == bOut;
    }

    /** What has been written leaves the queue. */
    method DropWritten(off: nat)
      requires Carrying() && Unwritten(off) && |bOut| <= HIGH + CHUNK
      modifies `bOut
      ensures Carrying() && Queued() && |bOut| == |old(bOut)| - off
    {
      hide Carrying;
      bOut := bOut[off..];
    }

    /** A paused upload is resumed by what these writes leave. */
    ghost predicate Resumes() reads `readPaused, `connected, `writes, `bOut {
      readPaused && SendLeft(0) < LOW
    }

    /** What reading leads to once the queue for the backend has been written. */
    ghost function ReadsResumed(): Reading reads `recvs, `connected, `writes, `bOut, `bodyRemaining {
      Pull(recvs, SendRest(0), true, SendLeft(0), bodyRemaining)
    }

    /** The same when there is nothing to write. */
    ghost function ReadsOn(): Reading reads `recvs, `connected, `writes, `bOut, `bodyRemaining {
      Pull(recvs, writes, connected, |bOut|, bodyRemaining)
    }

    /** What it means that the views of the two sides are as they were. */
    twostate lemma SameUpload()
      requires UploadNow() == old(UploadNow())
      ensures inBuf == old(inBuf) && upstream == old(upstream) && bodyRemaining == old(bodyRemaining)
      ensures handshakeDone == old(handshakeDone)
      ensures clientEof == old(clientEof) && readPaused == old(readPaused) && received == old(received) && head == old(head)
      ensures body == old(body) && request == old(request) && faults == old(faults) && recvs == old(recvs)
      ensures backendAlive == old(backendAlive)
    {
    }

    twostate lemma SameDown()
      requires DownNow() == old(DownNow())
      ensures Here() == old(Here()) && backend == old(backend) && state == old(state) && responded == old(responded)
      ensures closed == old(closed) && made == old(made) && backendPaused == old(backendPaused) && bReadPaused == old(bReadPaused)
      ensures readWaits == old(readWaits) && closing == old(closing) && out == old(out)
    {
    }

    /** The write loop of flush. */
    method WriteOut() returns (ok: bool)
      requires Carrying() && Queued() && backend && connected
      modifies `writes, `bOut, `written, `writeWaits
      ensures Carrying() && Left() <= old(Left()) && (ok ==> Queued() && WritesWait())
      ensures ok <==> !old(SendFails(0))
      ensures ok ==> |bOut| == old(SendLeft(0)) && writes == old(SendRest(0))
      ensures |bOut| <= |old(bOut)| && (!ok ==> bOut == old(bOut))
    {
      hide Carrying, WriteFails, WriteLeft, WriteRest, SameEnd, Unwritten, Queued;
      var off := 0;
      writeWaits := false;
      SameStart();
      NoneWritten();
      while off < |bOut|
        invariant 0 <= off <= |bOut| && bOut == old(bOut) && Carrying() && Unwritten(off) && |writes| <= |old(writes)|
        invariant SameEnd(writes, |bOut| - off, old(writes), |bOut|)
        decreases |writes|
      {
        if writes == [] {
          WriteNone(writes, |bOut| - off, old(writes), |bOut|);
          writeWaits := true;
          break;
        }
        WriteOne(writes, |bOut| - off, old(writes), |bOut|);
        var answer := writes[0];
        writes := writes[1..];
        match answer
        case Wrote(count) =>
          var n := Min(count, |bOut| - off);
          NoteWritten(off, n);
          off := off + n;
        case WriteAgain =>
          writeWaits := true;
          break;
        case WriteInterrupted =>
          continue;
        case WriteFailed =>
          return false;
      }
      if off == |bOut| {
        WriteNone(writes, 0, old(writes), |bOut|);
      }
      DropWritten(off);
      return true;
    }

    lemma SameStart()
      ensures SameEnd(writes, |bOut|, writes, |bOut|)
    {
    }

    method Flush(ghost nest: Nest)
      requires Carrying() && Queued() && backend && connected && nest.pumps == 0
      requires state != ReadingHead && (readPaused ==> Sound() && nest.drives == 0 && UpRest() && Recomputed())
      modifies this
      decreases Left(), 17
      ensures Same() && Left() <= old(Left()) && BackendArmed()
      ensures Carrying() && WritesWait() && Queued()
      ensures (old(UpRest()) ==> UpRest()) && (old(Recomputed()) ==> Recomputed()) && (old(ReadFresh()) ==> ReadFresh())
      ensures old(SendFails(0)) ==>
                UploadNow() == old(UploadNow()) && LinkLost(WRITE_FAILED, old(Stand())) && handed == old(handed)
      ensures !old(SendFails(0)) && !old(Resumes()) ==>
                && UploadNow() == old(UploadNow()) && DownNow() == old(DownNow()) && handed == old(handed)
                && |bOut| == old(SendLeft(0)) && writes == old(SendRest(0))
                && highWaterHit == (old(highWaterHit) && LOW <= |bOut|)
      ensures !old(SendFails(0)) && old(Resumes()) ==> Driven(old(ReadsResumed()), old(Here()), old(faults))
    {
      hide Carrying, Driven, SendFails, SendRest, Pull, Left, Recomputed, ReadFresh, UploadNow, DownNow, LinkLost, Stand, UpRest,
        WritesWait, Queued,
        BackendArmed, Pausing, Sound, Here, SendLeft, ReadsOn, ReadsResumed, Resumes, Fixed;
      var ok := WriteUp();
      if !ok {
        FailWrite(nest);
        return;
      }
      AfterWrite(nest);
    }

    /** The write loop leaves the rest of the upload side sound. */
    method WriteUp() returns (ok: bool)
      requires Carrying() && Queued() && backend && connected && state != ReadingHead && (readPaused ==> UpRest())
      modifies `writes, `bOut, `written, `writeWaits
      ensures Carrying() && Left() <= old(Left()) && (ok ==> Queued() && WritesWait())
      ensures ok <==> !old(SendFails(0))
      ensures ok ==> |bOut| == old(SendLeft(0)) && writes == old(SendRest(0))
      ensures ok ==> (readPaused && |bOut| < LOW <==> old(Resumes())) && ReadsOn() == old(ReadsResumed())
      ensures readPaused ==> Pausing() && highWaterHit
      ensures old(UpRest()) && (ok && readPaused ==> LOW <= |bOut|) ==> UpRest()
    {
      hide Carrying, SendFails, SendLeft, SendRest, Left, UploadNow, DownNow, UpRest, WritesWait, Queued, Pausing;
      PausedFacts();
      ok := WriteOut();
      if readPaused {
        PausingStays();
      }
      if old(UpRest()) && (ok && readPaused ==> LOW <= |bOut|) {
        UpRestStays();
      }
    }

    /** The second half of flush: the low-water test and the interest. */
    method AfterWrite(ghost nest: Nest)
      requires Carrying() && WritesWait() && Queued() && backend && connected && nest.pumps == 0
      requires state != ReadingHead && (readPaused ==> Sound() && nest.drives == 0 && Pausing() && highWaterHit && Recomputed())
      modifies this
      decreases Left(), 16
      ensures Same() && Left() <= old(Left()) && BackendArmed()
      ensures Carrying() && WritesWait() && Queued()
      ensures (old(UpRest()) ==> UpRest()) && (old(Recomputed()) ==> Recomputed()) && (old(ReadFresh()) ==> ReadFresh())
      ensures !old(readPaused && |bOut| < LOW) ==>
                && UploadNow() == old(UploadNow()) && DownNow() == old(DownNow()) && handed == old(handed)
                && bOut == old(bOut) && writes == old(writes) && highWaterHit == (old(highWaterHit) && LOW <= |bOut|)
      ensures old(readPaused && |bOut| < LOW) ==>
                && UpRest() && Driven(old(ReadsOn()), old(Here()), old(faults))
    {
      hide Carrying, Driven, Pull, Left, Recomputed, ReadFresh, UploadNow, DownNow, UpRest, WritesWait, Queued,
        BackendArmed, Sound, Pausing, Here;
      ghost var resumed := readPaused && |bOut| < LOW;
      NotifyDrained(nest);
      if !resumed && old(UpRest()) {
        UpRestStays();
      }
      Rearm();
    }

    /** The end of flush. */
    method Rearm()
      requires state != ReadingHead
      modifies `bInterest
      ensures BackendArmed() && (old(UpRest()) ==> UpRest())
    {
      hide Counted, Phased, Throttled, Owned, ReceivedAll;
      ApplyInterest();
    }

    /** Writing to the backend leaves the upload side sound. */
    twostate lemma UpRestStays()
      requires old(UpRest()) && old(backend) && backend && UploadNow() == old(UploadNow()) && DownNow() == old(DownNow())
      requires handed == old(handed) && Same() && |bOut| <= |old(bOut)|
      requires readPaused ==> highWaterHit == old(highWaterHit) && ((connected && LOW <= |bOut|) || bOut == old(bOut))
      ensures UpRest()
    {
      hide Forwardable, Understood, AllGot, Pending;
    }

    /** An upload is paused: all of it holds but, after a write, the low-water mark. */
    ghost predicate Pausing()
      reads `backend, `bOut, `handed, `head, `body, `upstream, `request, `bodyRemaining, `state,
            `highWaterHit, `connected, `responded, `inBuf, `handshakeDone, `closed, `closing, `backendPaused, `readPaused, `clientEof,
            `backendAlive, `bInterest, `bReadPaused, `readWaits, `faults, `written, `fetched, `received, `script, `start, `recvs
    {
      state == StreamingUp && Counted(received) && Phased() && HeadKept(received) && Owned() && ReceivedAll()
    }

    twostate lemma PausingStays()
      requires old(Pausing()) && UploadNow() == old(UploadNow()) && DownNow() == old(DownNow()) && handed == old(handed) && Same()
      ensures Pausing()
    {
      hide Forwardable, Understood, AllGot, Pending;
    }

    lemma PausedFacts()
      requires readPaused ==> UpRest()
      ensures readPaused && backend ==> Pausing() && highWaterHit && (connected ==> LOW <= |bOut|)
    {
      hide Counted, HeadKept, Owned, ReceivedAll;
    }

    /** A write to the backend has met a hard error. */
    method FailWrite(ghost nest: Nest)
      requires Carrying() && backend && state != ReadingHead && nest.pumps == 0
      modifies `sends, `replies, `state, `out, `responded, `closed, `interest, `rearmed, `writeBlock, `backend, `backendPaused, `peer,
               `bInterest, `bReadPaused, `closing, `fetched, `read, `taken, `made,
               `lastSend, `readWaits, `cutShort
      decreases Left(), 10
      ensures Carrying() && WritesWait() && Queued() && BackendArmed() && state != ReadingHead
      ensures !backend && Left() <= old(Left()) && LinkLost(WRITE_FAILED, old(Stand()))
      ensures (old(UpRest()) ==> UpRest()) && (old(Recomputed()) ==> Recomputed()) && (old(ReadFresh()) ==> ReadFresh())
    {
      hide Unlinked, LinkLost, Flowing, OnwardGrows, Recomputed, Left, UpRest, Stand, Remembered, UploadNow, BackendKept;
      Fail(WRITE_FAILED, nest);
      if old(UpRest()) {
        UpRestAfter();
      }
    }

    /** The low-water test of flush. */
    method NotifyDrained(ghost nest: Nest)
      requires Carrying() && WritesWait() && Queued() && backend && connected && nest.pumps == 0
      requires readPaused ==>
                 Sound() && nest.drives == 0 && Pausing() && highWaterHit && Recomputed()
      modifies this
      decreases Left(), 15
      ensures Same() && Left() <= old(Left()) && (old(ReadFresh()) ==> ReadFresh())
      ensures Carrying() && WritesWait() && Queued()
      ensures !old(readPaused && |bOut| < LOW) ==>
                && backend && readPaused == old(readPaused) && UploadNow() == old(UploadNow()) && DownNow() == old(DownNow())
                && handed == old(handed) && bOut == old(bOut) && writes == old(writes)
                && written == old(written) && highWaterHit == (old(highWaterHit) && LOW <= |bOut|)
                && (old(Recomputed()) ==> Recomputed())
      ensures old(readPaused && |bOut| < LOW) ==>
                && UpRest() && Recomputed() && ReadFresh()
                && Driven(old(ReadsOn()), old(Here()), old(faults))
    {
      hide Carrying, WritesWait, Queued, Driven, Pull, Left, Recomputed, ReadFresh, UploadNow, DownNow, ReceivedAll, Owned, Counted, Here;
      CarryingFacts();
      if highWaterHit && |bOut| < LOW {
        highWaterHit := false;
        if peer {
          OnBackendDrained(nest);
        }
      }
    }

    method OnBackendDrained(ghost nest: Nest)
      requires Carrying() && WritesWait() && Queued() && backend && nest.pumps == 0
      requires readPaused ==>
                 Sound() && nest.drives == 0 && |bOut| <= LOW && Pausing()
      modifies this
      decreases Left(), 14
      ensures !old(readPaused) ==> unchanged(this)
      ensures old(readPaused) ==>
                && Same() && Steady() && Recomputed() && ReadFresh() && Left() <= old(Left())
                && Driven(old(ReadsOn()), old(Here()), old(faults))
    {
      hide Carrying, WritesWait, Queued, Driven, Pull, Left, Recomputed, ReadFresh, ReceivedAll, Owned, Counted;
      CarryingFacts();
      if closed || !readPaused {
        return;
      }
      readPaused := false;
      Drive(nest);
    }

    /** The event pump: handshake, then reads, then writes, then interest. */
    method Drive(ghost nest: Nest)
      requires Sound() && Steady() && nest.drives == 0 && nest.pumps == 0
      modifies this
      decreases Left(), 13
      ensures Same() && Steady() && Left() <= old(Left()) && (old(BackendArmed()) ==> BackendArmed())
      ensures Recomputed() && ReadFresh() && (!closed && !handshakeDone ==> Greeting())
      ensures Driven(old(Reads()), old(Here()), old(faults))
      ensures old(closed) ==> closed
      ensures handshakeDone <==> old(handshakeDone) || (!old(closed) && old(HandshakeAnswer()) == Ok)
      ensures !old(closed) && !handshakeDone ==> (closed <==> old(HandshakeAnswer()) == IoStatus.Closed || old(HandshakeAnswer()) == Error)
    {
      hide Steady, BackendArmed, Sound, Pull, FromHead, Through, Driven, Ended, Left, Recomputed, Greeting;
      ghost var r, m, f := Reads(), Here(), faults;
      if closed {
        ShutFacts();
        DeafDriven(r, m, f);
        return;
      }
      if !handshakeDone {
        Greet();
        if !handshakeDone {
          if closed {
            ShutFacts();
          }
          DeafDriven(r, m, f);
          return;
        }
      }
      ReadAndWrite(r, m, f, nest.(drives := 1));
    }

    /** drive, once the handshake is done. */
    method ReadAndWrite(ghost r: Reading, ghost m: Mouth, ghost f: Faults, ghost nest: Nest)
      requires Sound() && Steady() && !closed && handshakeDone && nest.drives == 1 && nest.pumps == 0
      requires r == Reads() && m == Here() && f == faults
      modifies this
      decreases Left(), 12
      ensures Same() && Steady() && Left() <= old(Left()) && (old(BackendArmed()) ==> BackendArmed())
      ensures Recomputed() && ReadFresh() && handshakeDone && Driven(r, m, f)
    {
      hide Steady, BackendArmed, Sound, Reads, Here, Through, Driven, Ended, Left, Recomputed;
      readBlock := PumpRead(nest);
      if closed {
        ShutFacts();
        EndedDriven(r, m, f);
        return;
      }
      WriteAndRearm(r, m, f, nest);
    }

    /** Nothing is expected of a closed client. */
    lemma ShutFacts()
      requires closed
      ensures Recomputed() && ReadFresh() && Reminded()
    {
    }

    /** A drive that does not get to read. */
    lemma DeafDriven(r: Reading, m: Mouth, f: Faults)
      requires Steady() && r.Deaf? && faults == f && cutShort == m.cutShort && (closed || !handshakeDone)
      ensures Driven(r, m, f)
    {
      hide Pipe, Queued, WritesWait, OnwardGrows, Counted, Phased, Throttled, Owned, ReceivedAll, Push, Relay;
      if !closed {
        EmptyHead();
      }
    }

    /** Before the head is complete there is nothing to send. */
    lemma EmptyHead()
      requires Steady() && (!handshakeDone || state == ReadingHead) && !closed
      ensures !backend && !responded && |out| == 0 && state == ReadingHead
    {
      hide Lifetimes, FetchedAll, Queued, WritesWait, OnwardGrows, Counted, Phased, Throttled, Owned, ReceivedAll;
    }

    lemma EndedDriven(r: Reading, m: Mouth, f: Faults)
      requires closed && Ended(r, m, f)
      ensures Driven(r, m, f)
    {
      hide Push, Relay;
    }

    method Greet()
      requires Steady() && !closed && !handshakeDone
      modifies `hands, `heard, `handshakeDone, `interest, `rearmed, `closed, `closing, `backend, `peer
      ensures Steady() && Left() <= old(Left()) && BackendArmed()
      ensures handshakeDone <==> old(HandshakeAnswer()) == Ok
      ensures closed <==> old(HandshakeAnswer()) == IoStatus.Closed || old(HandshakeAnswer()) == Error
      ensures if handshakeDone then Reads() == old(Reads()) && Here() == old(Here())
              else old(Reads()).Deaf? && Recomputed() && ReadFresh() && (closed || Greeting())
    {
      hide Steady, FromHead, Pull;
      EmptyHead();
      var st := Handshake();
      if st == Ok {
        Greeted();
      } else if st == WouldBlockRead {
        SetInterest(Mask(true, false));
      } else if st == WouldBlockWrite {
        SetInterest(Mask(false, true));
      } else {
        Shut();
      }
    }

    method Greeted()
      requires Steady() && !backend && state == ReadingHead
      modifies `handshakeDone
      ensures Steady() && handshakeDone
    {
      hide Contents, FetchedAll, Queued, WritesWait, OnwardGrows, Counted, Phased, Throttled, Owned, ReceivedAll;
      handshakeDone := true;
    }

    /** close_both in the middle of a drive. */
    method Shut()
      requires Steady() && !closed
      modifies `closed, `backend, `peer, `closing
      ensures Steady() && closed && !backend && BackendArmed() && Recomputed() && ReadFresh()
    {
      hide Contents, FetchedAll, OnwardGrows, ReceivedAll;
      Close();
    }

    method Handshake() returns (st: IoStatus)
      modifies `hands, `heard
      ensures st == old(HandshakeAnswer()) == heard.lastHand && heard.lastRecv == old(heard.lastRecv) && Left() <= old(Left())
    {
      if hands == [] {
        st := WouldBlockRead;
      } else {
        st := hands[0];
        hands := hands[1..];
      }
      heard := heard.(lastHand := st);
    }

    /** Waiting for the handshake in the direction it asked for. */
    ghost predicate Greeting() reads `heard, `interest {
      Blocked(heard.lastHand) && interest == Mask(heard.lastHand.WouldBlockRead?, heard.lastHand.WouldBlockWrite?)
    }

    /** The second half of drive. */
    method WriteAndRearm(ghost r: Reading, ghost m: Mouth, ghost f: Faults, ghost nest: Nest)
      requires Steady() && !closed && handshakeDone && ReadFresh() && nest.pumps == 0
      requires Through(r, readBlock, m, f)
      modifies `sends, `replies, `state, `out, `responded, `closed, `interest, `rearmed, `writeBlock, `backend, `backendPaused, `peer,
               `bInterest, `bReadPaused, `closing, `fetched, `read, `taken, `made,
               `lastSend, `readWaits, `cutShort
      decreases Left(), 8
      ensures Steady() && Left() <= old(Left()) && (old(BackendArmed()) ==> BackendArmed())
      ensures (old(state) != ReadingHead ==> state != ReadingHead)
      ensures Recomputed() && ReadFresh() && Driven(r, m, f)
    {
      hide Steady, BackendArmed, Left, PumpedFrom, Driven, Push, Relay, Discard, AdriftOf, Aimed, Through, Recomputed, ReadFresh, Heeds,
        Reminded,
        Here;
      ghost var was, at, reply := Here(), state, made;
      Aim(r, m, f);
      PumpInDrive(nest);
      if closed {
        ShutFacts();
      } else {
        Rewatch();
      }
      DrivenBy(r, m, f, was, at, reply);
    }

    /** recompute_interest at the end of drive. */
    method Rewatch()
      requires Heeds()
      modifies `interest, `rearmed
      ensures Recomputed() && Reminded()
    {
      RecomputeInterest();
    }

    /** `write_block_ = pump_write()` has run from `was`. */
    ghost predicate PumpedFrom(was: Mouth, linked: bool)
      reads `sends, `out, `cutShort, `closed, `state, `lastSend, `writeBlock, `backend, `bReadPaused, `replies, `responded
    {
      if Woken(was).Some? then
        WokenTo(Woken(was).value, was.cutShort) && (!closed ==> writeBlock == Ok)
      else
        && PushedTo(Push(was.sends, was.queued)) && cutShort == was.cutShort && (backend <==> linked && !closed) && responded == was.answered
        && (linked ==> (closed <==> Push(was.sends, was.queued).Gone?))
        && (!closed ==> writeBlock == Asks())
    }

    /** What reading has left for pump_write to run from `was`. */
    ghost predicate Aimed(r: Reading, m: Mouth, f: Faults, was: Mouth, at: State, reply: Option<Answer>)
      reads `recvs, `writes, `bOut, `bodyRemaining, `readPaused, `clientEof, `readBlock, `faults
    {
      if r.Deaf? then false
      else if r.Linked? then
        && was == m && faults == f && recvs == r.rest && writes == r.writes && |bOut| == r.queued && bodyRemaining == r.remaining
        && readPaused == r.paused && clientEof == r.eof && readBlock == r.block
      else if r.Unfinished? then was == m && faults == f && !was.holding && was.queued == 0 && recvs == r.rest && at == ReadingHead
      else if r.Loose? then faults == f && was.cutShort == m.cutShort && Afloat(was, at, r.spent, r.state, m.sends, m.queued)
      else
        && Ends(r) && faults == Mark(f, r, m) && was.cutShort == m.cutShort && (Told(r, m).Some? ==> reply == Told(r, m)) && AdriftOf(r, m).Some?
        && var a := AdriftOf(r, m).value; Afloat(was, at, Discard(a.rest, a.state != StreamingUp), a.state, a.sends, a.left)
    }

    /** An open client without a backend, seen from `was` and its state. */
    ghost predicate Afloat(was: Mouth, now: State, spent: Spent, at: State, room: seq<Send>, left: nat)
      reads `clientEof, `recvs
    {
      && !was.holding && was.sends == room && was.queued == left && spent.Stopped? && recvs == spent.rest && clientEof == spent.eof
      && now == at && now != ReadingHead
    }

    lemma Aim(r: Reading, m: Mouth, f: Faults)
      requires Steady() && !closed && Through(r, readBlock, m, f)
      ensures Aimed(r, m, f, Here(), state, made) && (backend <==> r.Linked?)
    {
      hide Carrying, Queued, WritesWait, UpRest, Discard, AdriftOf;
      if r.Unfinished? {
        EmptyHead();
      }
    }

    lemma DrivenBy(r: Reading, m: Mouth, f: Faults, was: Mouth, at: State, reply: Option<Answer>)
      requires PumpedFrom(was, r.Linked?) && Reminded() && Aimed(r, m, f, was, at, reply)
      requires !r.Linked? ==> state == at && made == reply
      ensures Driven(r, m, f)
    {
      hide Push, Relay, Discard, AdriftOf;
    }

    /** `write_block_ = pump_write()`, which leaves the upload side as it is. */
    method PumpInDrive(ghost nest: Nest)
      requires Steady() && !closed && nest.pumps == 0
      modifies `sends, `replies, `state, `out, `responded, `closed, `interest, `rearmed, `writeBlock, `backend, `backendPaused, `peer,
               `bInterest, `bReadPaused, `closing, `fetched, `read, `taken, `made,
               `lastSend, `readWaits, `cutShort
      decreases Left(), 7
      ensures Steady() && Left() <= old(Left()) && (old(BackendArmed()) ==> BackendArmed())
      ensures (state == old(state) || state == Closing) && (!old(backend) ==> made == old(made) && state == old(state))
      ensures PumpedFrom(old(Here()), old(backend)) && Heeds()
    {
      hide Flowing, Even, ReadsWait, OnwardGrows, Queued, WritesWait, UpRest, Left, PumpedFrom, BackendArmed, UploadNow, BackendKept, Here;
      PumpAlone(nest);
      UpSideStays();
    }

    /** What pump_write does to the download side, and to the fields that both sides share. */
    method PumpAlone(ghost nest: Nest)
      requires Flowing() && Even() && ReadsWait() && !closed && nest.pumps == 0
      modifies `sends, `replies, `state, `out, `responded, `closed, `interest, `rearmed, `writeBlock, `backend, `backendPaused, `peer,
               `bInterest, `bReadPaused, `closing, `fetched, `read, `taken, `made,
               `lastSend, `readWaits, `cutShort
      decreases Left(), 6
      ensures Flowing() && Even() && ReadsWait() && Left() <= old(Left()) && (old(BackendArmed()) ==> BackendArmed())
      ensures (if backend then old(backend) && state == old(state) else state == old(state) || state == Closing)
      ensures (old(backend) && !backend ==> closed) && (!old(backend) ==> made == old(made) && state == old(state) && BackendKept())
      ensures PumpedFrom(old(Here()), old(backend)) && Heeds()
    {
      hide Down, Even, Left, Push, Relay, BackendArmed;
      LinkedFacts();
      writeBlock := PumpWrite(nest);
    }

    /** What happens to the download side leaves the upload side sound. */
    twostate lemma UpSideStays()
      requires old(Queued() && WritesWait() && UpRest()) && bOut == old(bOut) && handed == old(handed) && written == old(written)
      requires UploadNow() == old(UploadNow()) && highWaterHit == old(highWaterHit) && writeWaits == old(writeWaits)
      requires connected == old(connected) && script == old(script) && start == old(start)
      requires (if backend then old(backend) && state == old(state) else state == old(state) || state == Closing)
      requires (old(backend) && !backend ==> closed || state == Closing) && (old(closed) ==> closed)
      requires !old(backend) ==> state == old(state) && (state != ReadingHead || BackendKept())
      ensures Queued() && WritesWait() && UpRest()
    {
      hide UpRest, Counted, Phased, Throttled, HeadKept, Owned, ReceivedAll, UploadNow, BackendKept;
      UpRestAfter();
    }

    twostate lemma UpRestAfter()
      requires old(UpRest()) && bOut == old(bOut) && handed == old(handed) && (written == old(written) || old(backend))
      requires UploadNow() == old(UploadNow()) && highWaterHit == old(highWaterHit)
      requires connected == old(connected) && script == old(script) && start == old(start)
      requires (if backend then old(backend) && state == old(state) else state == old(state) || state == Closing)
      requires (old(backend) && !backend ==> closed || state == Closing) && (old(closed) ==> closed)
      requires !old(backend) ==> state == old(state) && (state != ReadingHead || BackendKept())
      ensures UpRest()
    {
      hide Forwardable, Understood, AllGot, Pending;
    }

    method PumpRead(ghost nest: Nest) returns (st: IoStatus)
      requires Sound() && Steady() && !closed && handshakeDone && nest.drives == 1 && nest.pumps == 0
      modifies this
      decreases Left(), 11
      ensures Same() && Steady() && handshakeDone && Left() <= old(Left()) && (old(BackendArmed()) ==> BackendArmed())
      ensures !closed && !readPaused && !clientEof ==> Blocked(heard.lastRecv) && st == heard.lastRecv
      ensures if closed then Ended(old(Reads()), old(Here()), old(faults)) else Through(old(Reads()), st, old(Here()), old(faults))
    {
      hide Steady, BackendArmed, Sound, Underway, Through, Ended, Reads, Here, Left;
      ghost var r, m, f := Reads(), Here(), faults;
      Departs();
      while true
        invariant Same() && Steady() && !closed && handshakeDone && Left() <= old(Left()) && (old(BackendArmed()) ==> BackendArmed())
        invariant Underway(recvs, r, m, f)
        decreases Left()
      {
        if readPaused || clientEof {
          Halts(r, m, f);
          return WouldBlockRead;
        }
        st := RecvOnce(r, m, f, nest);
        if st != Ok || closed {
          return;
        }
      }
    }

    lemma Departs()
      ensures Underway(recvs, Reads(), Here(), faults)
    {
    }

    /** Reading stops for a pause or the end of the client's bytes. */
    lemma Halts(r: Reading, m: Mouth, f: Faults)
      requires Steady() && Underway(recvs, r, m, f) && (readPaused || clientEof) && !closed && handshakeDone
      ensures Through(r, WouldBlockRead, m, f)
    {
      hide Flowing, Queued, WritesWait, OnwardGrows, Counted, Phased, Throttled, Owned, ReceivedAll, Pull, FromHead;
    }

    /** One recv and what follows from its outcome; Ok asks for another. */
    method RecvOnce(ghost r: Reading, ghost m: Mouth, ghost f: Faults, ghost nest: Nest) returns (st: IoStatus)
      requires Sound() && Steady() && !closed && handshakeDone && !readPaused && !clientEof && nest.drives == 1 && nest.pumps == 0
      requires Underway(recvs, r, m, f)
      modifies this
      decreases Left(), 10
      ensures Same() && Steady() && handshakeDone && Left() <= old(Left()) && (old(BackendArmed()) ==> BackendArmed())
      ensures st == Ok ==> Left() < old(Left())
      ensures st != Ok && !closed && !clientEof ==> Blocked(heard.lastRecv) && st == heard.lastRecv
      ensures if closed then Ended(r, m, f) else if st == Ok then Underway(recvs, r, m, f) else Through(r, st, m, f)
    {
      hide Carrying, Queued, WritesWait, ReceivedAll, UpTo, BackendArmed, Sound, Underway, Through, Ended, Left;
      if recvs == [] {
        heard := heard.(lastRecv := WouldBlockRead);
        Blocks([], WouldBlockRead, r, m, f);
        return WouldBlockRead;
      }
      var answer := recvs[0];
      ghost var rs, seen := recvs, received;
      NoteRecv();
      match answer
      case Got(data) =>
        RecvGot(data, seen, rs, r, m, f, nest);
        return Ok;
      case NotGot(stop) =>
        AllSeen(seen);
        st := RecvEnds(stop, rs, r, m, f);
    }

    lemma AllSeen(seen: string)
      requires received == seen + ""
      ensures received == seen
    {
    }

    /** Nothing more comes from the client for now. */
    lemma Blocks(rs: seq<Recv>, stop: IoStatus, r: Reading, m: Mouth, f: Faults)
      requires Steady() && Underway(rs, r, m, f) && !closed && handshakeDone && !readPaused && !clientEof && Blocked(stop)
      requires if rs == [] then stop == WouldBlockRead && recvs == [] else rs[0] == NotGot(stop) && recvs == rs[1..]
      ensures Through(r, stop, m, f)
    {
      hide Flowing, Even, ReadsWait, Queued, WritesWait, OnwardGrows, Counted, Throttled, ReceivedAll;
    }

    /** The client's bytes have ended or failed, or nothing comes for now. */
    method RecvEnds(stop: Stop, ghost rs: seq<Recv>, ghost r: Reading, ghost m: Mouth, ghost f: Faults) returns (st: IoStatus)
      requires Steady() && !closed && handshakeDone && !readPaused && !clientEof && heard.lastRecv == stop
      requires Underway(rs, r, m, f) && rs != [] && rs[0] == NotGot(stop) && recvs == rs[1..]
      modifies `clientEof, `closed, `backend, `peer, `closing
      ensures Steady() && (old(BackendArmed()) ==> BackendArmed())
      ensures st != Ok && (!closed && !clientEof ==> Blocked(stop) && st == stop)
      ensures if closed then Ended(r, m, f) else Through(r, st, m, f)
      ensures clientEof <==> stop == IoStatus.Closed && (state == Streaming || state == Closing)
      ensures closed <==> !clientEof && !Blocked(stop)
    {
      hide Steady, BackendArmed, Underway, Through, Ended;
      if stop == IoStatus.Closed && (state == Streaming || state == Closing) {
        HalfClose(rs, r, m, f);
        return WouldBlockRead;
      }
      if stop == IoStatus.Closed || stop == Error {
        CloseReading(stop, rs, r, m, f);
        return stop;
      }
      Blocks(rs, stop, r, m, f);
      return stop;
    }

    method HalfClose(ghost rs: seq<Recv>, ghost r: Reading, ghost m: Mouth, ghost f: Faults)
      requires Steady() && !closed && handshakeDone && !readPaused && !clientEof && (state == Streaming || state == Closing)
      requires Underway(rs, r, m, f) && rs != [] && rs[0] == NotGot(IoStatus.Closed) && recvs == rs[1..]
      modifies `clientEof
      ensures Steady() && clientEof && Through(r, WouldBlockRead, m, f)
    {
      hide FromHead, Broken, Flowing, Even, ReadsWait, Queued, WritesWait, OnwardGrows, Counted, Throttled, ReceivedAll;
      clientEof := true;
    }

    method CloseReading(stop: Stop, ghost rs: seq<Recv>, ghost r: Reading, ghost m: Mouth, ghost f: Faults)
      requires Steady() && !closed && handshakeDone && !readPaused && !clientEof && !Blocked(stop)
      requires stop == Error || (state != Streaming && state != Closing)
      requires Underway(rs, r, m, f) && rs != [] && rs[0] == NotGot(stop) && recvs == rs[1..]
      modifies `closed, `backend, `peer, `closing
      ensures Steady() && closed && BackendArmed() && Ended(r, m, f)
    {
      hide Flowing, Even, ReadsWait, Queued, WritesWait, OnwardGrows, Counted, Throttled, HeadKept, ReceivedAll;
      Shut();
    }

    method RecvGot(data: Chunk, ghost seen: string, ghost rs: seq<Recv>, ghost r: Reading, ghost m: Mouth, ghost f: Faults, ghost nest: Nest)
      requires Sound() && Carrying() && WritesWait() && Queued() && UpTo(seen) && ReceivedAll()
      requires received == seen + data && rs != [] && rs[0] == Got(data) && rs[1..] == recvs
      requires !closed && handshakeDone && !readPaused && !clientEof && nest.drives == 1 && nest.pumps == 0
      requires Underway(rs, r, m, f)
      modifies this
      decreases Left(), 29
      ensures Same() && Steady() && handshakeDone && Left() <= old(Left()) && (old(BackendArmed()) ==> BackendArmed())
      ensures if closed then Ended(r, m, f) else Underway(recvs, r, m, f)
    {
      hide Carrying, Queued, WritesWait, ReceivedAll, BackendArmed, Sound, Left, Pull, FromHead, UpTo, Steady;
      HandleClientBytes(data, seen, rs, nest);
    }

    /** One outcome of recv is used up. */
    method NoteRecv()
      requires ReceivedAll() && recvs != []
      modifies `recvs, `received, `heard
      ensures ReceivedAll() && recvs == old(recvs)[1..] && Left() < old(Left())
      ensures received == old(received) + if old(recvs)[0].Got? then old(recvs)[0].data else ""
      ensures heard == old(heard).(lastRecv := if old(recvs)[0].Got? then Ok else old(recvs)[0].stop)
    {
      hide AllGot, Used, Pending;
      NextGot(script.recvs, recvs);
      heard := heard.(lastRecv := if recvs[0].Got? then Ok else recvs[0].stop);
      if recvs[0].Got? {
        received := received + recvs[0].data;
      }
      recvs := recvs[1..];
    }

    /** Bytes that come without a backend change nothing. */
    ghost predicate StillLoose(rs: seq<Recv>, r: Reading, m: Mouth, f: Faults, answer: Option<Answer>)
      reads `closed, `handshakeDone, `hands, `backend, `readPaused, `clientEof, `writes, `connected, `bOut, `bodyRemaining, `state, `inBuf,
            `backendPaused, `sends, `replies, `out, `cutShort, `faults, `made, `responded
    {
      !closed && !backend && ReadsGiven(rs) == r && Here() == m && faults == f && made == answer
    }

    method HandleClientBytes(data: Chunk, ghost seen: string, ghost rs: seq<Recv>, ghost nest: Nest)
      requires Sound() && Carrying() && WritesWait() && Queued() && UpTo(seen) && ReceivedAll()
      requires received == seen + data && rs != [] && rs[0] == Got(data) && rs[1..] == recvs
      requires !closed && handshakeDone && !readPaused && !clientEof && nest.drives == 1 && nest.pumps == 0
      modifies this
      decreases Left(), 28
      ensures Same() && Steady() && handshakeDone && Left() <= old(Left()) && (old(BackendArmed()) ==> BackendArmed())
      ensures received == old(received) && recvs == old(recvs)
      ensures Underway(recvs, old(ReadsGiven(rs)), old(Here()), old(faults))
      ensures old(ReadsGiven(rs)).Loose? ==> StillLoose(recvs, old(ReadsGiven(rs)), old(Here()), old(faults), old(made))
    {
      hide Carrying, Queued, WritesWait, ReceivedAll, BackendArmed, Sound, Left, Pull, Here, AfterText, Forwardable, Understood;
      match state
      case ReadingHead =>
        MoreOfHead(data);
        ProcessHead(nest);
      case StreamingUp =>
        BodyBytes(data, seen, rs, nest);
      case Streaming =>
        PullSurplus(rs, writes, connected, |bOut|);
        DiscardOne(rs, true);
        NoteSurplus(seen, data);
      case Closing =>
        DiscardOne(rs, true);
    }

    /** More bytes of a request head; nothing has been answered yet. */
    method MoreOfHead(data: Chunk)
      requires Carrying() && !responded
      modifies `inBuf
      ensures Carrying() && inBuf == old(inBuf) + data
    {
      hide FetchedAll, Even, ReadsWait, OnwardGrows, Deserved;
      inBuf := inBuf + data;
    }

    lemma NothingMade()
      requires Carrying() && !responded
      ensures made.None?
    {
      hide FetchedAll, Even, ReadsWait, OnwardGrows, Deserved;
    }

    /** Bytes in the middle of a body. */
    method BodyBytes(data: Chunk, ghost seen: string, ghost rs: seq<Recv>, ghost nest: Nest)
      requires Carrying() && WritesWait() && Queued() && UpTo(seen) && ReceivedAll()
      requires received == seen + data && rs != [] && rs[0] == Got(data) && rs[1..] == recvs && state == StreamingUp
      requires !closed && handshakeDone && !readPaused && !clientEof && nest.drives == 1 && nest.pumps == 0
      modifies this
      decreases Left(), 21
      ensures Same() && Steady() && handshakeDone && Left() <= old(Left()) && (old(BackendArmed()) ==> BackendArmed())
      ensures received == old(received) && recvs == old(recvs)
      ensures Underway(recvs, old(ReadsGiven(rs)), old(Here()), old(faults))
      ensures old(ReadsGiven(rs)).Loose? ==> StillLoose(recvs, old(ReadsGiven(rs)), old(Here()), old(faults), old(made))
    {
      hide Carrying, Queued, WritesWait, ReceivedAll, BackendArmed, Left, Pull, Here, Counted, HeadKept, Expected;
      if backend {
        PullData(rs, writes, connected, |bOut|, bodyRemaining);
      } else {
        DiscardOne(rs, false);
      }
      NextOfBody(seen, data);
      ForwardBody(data, nest);
      CarryingFacts();
    }

    /** In the middle of a body, new bytes are the next of it. */
    lemma NextOfBody(seen: string, data: string)
      requires received == seen + data && UpTo(seen) && state == StreamingUp && handshakeDone
      ensures |inBuf| <= MAX_HEAD + CHUNK && inBuf <= received && (backend ==> bodyRemaining > 0 && Expected(data))
    {
      hide Forwardable, Understood;
      assert backend ==> body[..|body|] == body;
    }

    /** Bytes after the body are seen and ignored. */
    ghost method NoteSurplus(seen: string, data: string)
      requires state == Streaming && received == seen + data && UpTo(seen)
      modifies `body
      ensures UpTo(received)
    {
      assert backend ==> head + (body + data) == head + body + data;
      assert backend ==> (body + data)[..request.length] == body[..request.length];
      body := body + data;
    }

    method ForwardBody(data: string, ghost nest: Nest)
      requires Carrying() && WritesWait() && Queued() && Throttled()
      requires state == StreamingUp && handshakeDone && !readPaused && !clientEof && |data| > 0
      requires nest.drives == 1 && nest.pumps == 0
      requires |inBuf| <= MAX_HEAD + CHUNK && inBuf <= received && Owned()
      requires backend ==> !closed && |bOut| + |data| <= HIGH + CHUNK && bodyRemaining > 0 && Expected(data)
      modifies this
      decreases Left(), 20
      ensures Same() && Left() <= old(Left()) && (old(BackendArmed()) ==> BackendArmed())
      ensures Carrying() && WritesWait() && Queued() && UpTo(received)
      ensures handshakeDone && !clientEof && received == old(received) && recvs == old(recvs)
      ensures request == old(request) && state != ReadingHead && (!backend ==> !readPaused)
      ensures old(!backend) ==>
                && !backend && Here() == old(Here()) && faults == old(faults) && made == old(made) && state == old(state)
                && closed == old(closed)
      ensures old(backend) ==> Forwarded(old(Forward(|data|)), old(Here()), old(faults)) && (backend ==> responded == old(responded))
    {
      hide Mark, Here, Forwardable, Render, Fixed, Carrying, WritesWait, Queued, BackendArmed, SendFails, SendLeft, SendRest, Counted,
        Expected, Left;
      if !backend {
        NothingCounted();
        return;
      }
      ghost var r, m, f := Forward(|data|), Here(), faults;
      SendPart(data, Min(|data|, bodyRemaining), nest);
      SettleBody(r, m, f);
    }

    /** Without a backend there is nothing to account for. */
    lemma NothingCounted()
      requires !backend
      ensures Counted(received) && Queued() && Phased() && Throttled()
    {
    }

    /** The body bytes are sent, and forward_body is about to look at what that left. */
    ghost predicate Sent(r: Reading, m: Mouth, f: Faults)
      reads `made, `backend, `backendPaused, `sends, `replies, `out, `cutShort, `faults, `writes, `bOut, `bodyRemaining, `responded,
            `closed, `state,
            `recvs
    {
      && faults == f
      && if r.Linked? then
           && backend && Here() == m && writes == r.writes && |bOut| == r.queued && bodyRemaining == r.remaining
           && (r.paused <==> bodyRemaining > 0 && HIGH < |bOut|)
         else
           && !backend && cutShort == m.cutShort && Answered(Broken(m, Closing, []))
           && (!m.answered ==> made == Some(Upstream(WRITE_FAILED)))
           && r == if bodyRemaining > 0 then Cut(recvs) else LastLost(recvs)
    }

    /** The first half of forward_body: `take` of the data are sent. */
    method SendPart(data: string, take: nat, ghost nest: Nest)
      requires Carrying() && WritesWait() && Queued() && backend
      requires state == StreamingUp && !readPaused && !clientEof && 0 < take == Min(|data|, bodyRemaining) && nest.pumps == 0
      requires |bOut| + |data| <= HIGH + CHUNK && Expected(data)
      modifies this
      decreases Left(), 19
      ensures Same() && Left() <= old(Left()) && (old(BackendArmed()) ==> BackendArmed())
      ensures Carrying() && WritesWait() && Queued() && Counted(received)
      ensures received == old(received) && recvs == old(recvs) && request == old(request)
      ensures bodyRemaining == old(bodyRemaining) - take
      ensures inBuf == old(inBuf) && handshakeDone == old(handshakeDone) && !readPaused && !clientEof && faults == old(faults)
      ensures state == old(state) || (state == Closing && !backend)
      ensures backend ==> responded == old(responded) && (HIGH < |bOut| ==> highWaterHit)
      ensures Sent(old(Forward(|data|)), old(Here()), old(faults))
    {
      hide Sent, Answered, Broken, Render, Push, Fixed, Carrying, WritesWait, Queued, BackendArmed, SendFails, SendLeft,
        SendRest, Forwardable, Understood, Left, UploadNow, Here, Counted;
      ghost var m, r, f := Here(), Forward(|data|), faults;
      ghost var fails, left, rest := SendFails(take), SendLeft(take), SendRest(take);
      SendPiece(data, take, nest);
      SameUpload();
      Account(data, take);
      SentAs(r, m, f, fails, left, rest);
    }

    /** A piece of the body is sent. */
    method SendPiece(data: string, take: nat, ghost nest: Nest)
      requires Carrying() && WritesWait() && Queued() && backend && take <= |data|
      requires state == StreamingUp && !readPaused && nest.pumps == 0
      requires |bOut| + |data| <= HIGH + CHUNK && Expected(data)
      modifies this
      decreases Left(), 19, 0
      ensures Same() && Left() <= old(Left()) && (old(BackendArmed()) ==> BackendArmed())
      ensures Carrying() && WritesWait() && Queued() && UploadNow() == old(UploadNow()) && HandedOver(data, take)
      ensures state == old(state) || (state == Closing && !backend)
      ensures backend ==> responded == old(responded) && (HIGH < |bOut| ==> highWaterHit)
      ensures old(SendFails(take)) ==>
                && !backend && cutShort == old(Here()).cutShort && Answered(Broken(old(Here()), Closing, []))
                && (!old(Here()).answered ==> made == Some(Upstream(WRITE_FAILED)))
      ensures !old(SendFails(take)) ==>
                backend && Here() == old(Here()) && |bOut| == old(SendLeft(take)) && writes == old(SendRest(take))
    {
      hide Answered, Broken, Render, Push, Stand, Fixed, Carrying, WritesWait, Queued, BackendArmed, SendFails, SendLeft,
        SendRest, Forwardable, Understood, Left, LinkLost, UploadNow, DownNow, Here;
      ghost var fails, was, m := SendFails(take), Stand(), Here();
      StandHere();
      Send(data[..take], nest);
      SameUpload();
      if fails {
        CastOff(was, m);
      } else {
        SameDown();
      }
    }

    /** What has been handed over is body that is not to come any more. */
    method Account(data: string, take: nat)
      requires 0 < take == Min(|data|, bodyRemaining) && HandedOver(data, take)
      modifies `bodyRemaining, `body
      ensures bodyRemaining == old(bodyRemaining) - take && Counted(received)
    {
      hide Forwardable, Understood;
      bodyRemaining := bodyRemaining - take;
      NoteBody(data, take);
    }

    /** Of the data, which are the next of the body, `take` bytes have been handed over. */
    ghost predicate HandedOver(data: string, take: nat)
      requires take <= |data|
      reads `received, `head, `body, `upstream, `request, `bodyRemaining, `handed
    {
      && received == head + body + data && upstream == request.text && Forwardable(request) && Understood(request)
      && head == request.source[..request.size]
      && bodyRemaining <= request.length && request.length - bodyRemaining == |body| && handed == upstream + body + data[..take]
    }

    /** What sending a piece of body leaves is what `Forward` says of it. */
    lemma SentAs(r: Reading, m: Mouth, f: Faults, fails: bool, left: nat, rest: seq<Write>)
      requires r == if fails then (if bodyRemaining > 0 then Cut(recvs) else LastLost(recvs))
                    else Linked(recvs, rest, left, bodyRemaining, bodyRemaining > 0 && HIGH < left, false, WouldBlockRead)
      requires if fails then
                 && !backend && cutShort == m.cutShort && Answered(Broken(m, Closing, []))
                 && (!m.answered ==> made == Some(Upstream(WRITE_FAILED)))
               else backend && Here() == m && |bOut| == left && writes == rest
      requires faults == f
      ensures Sent(r, m, f)
    {
      hide Push, Render;
    }

    lemma StandHere()
      ensures Stand().responded == Here().answered && Stand().sends == Here().sends && Stand().cutShort == Here().cutShort
    {
    }

    /** A failing send has been answered, or has closed the client. */
    lemma CastOff(was: Stance, m: Mouth)
      requires LinkLost(WRITE_FAILED, was) && was.responded == m.answered && was.sends == m.sends && was.cutShort == m.cutShort
      ensures !backend && cutShort == m.cutShort && Answered(Broken(m, Closing, []))
      ensures !m.answered ==> made == Some(Upstream(WRITE_FAILED))
    {
      hide Push, Render;
    }

    /** These data are the next of the body. */
    ghost predicate Expected(data: string)
      reads `received, `head, `body, `upstream, `request, `bodyRemaining, `handed
    {
      && received == head + body + data && upstream == request.text && Forwardable(request) && Understood(request)
      && head == request.source[..request.size]
      && bodyRemaining <= request.length && request.length - bodyRemaining == |body| && handed == upstream + body
    }

    /** What one more piece of body leads to; a linked pair does not say what it waits for. */
    ghost function Forward(count: nat): Reading
      reads `connected, `writes, `bOut, `bodyRemaining, `recvs
    {
      var n := Min(count, bodyRemaining);
      if SendFails(n) then (if n < bodyRemaining then Cut(recvs) else LastLost(recvs))
      else
        Linked(recvs, SendRest(n), SendLeft(n), bodyRemaining - n, n < bodyRemaining && HIGH < SendLeft(n), false, WouldBlockRead)
    }

    ghost predicate Forwarded(r: Reading, m: Mouth, f: Faults)
      reads `made, `backend, `backendPaused, `sends, `replies, `out, `cutShort, `faults, `writes, `bOut, `bodyRemaining, `readPaused,
            `responded,
            `closed, `state
    {
      if r.Linked? then
        && backend && Here() == m && faults == f && writes == r.writes && |bOut| == r.queued && bodyRemaining == r.remaining
        && readPaused == r.paused
      else !backend && faults == Mark(f, r, m) && cutShort == m.cutShort && Answered(AdriftOf(r, m)) && (Told(r, m).Some? ==> made == Told(r, m))
    }

    /** The data are body, and their first `take` bytes have been handed over. */
    ghost method NoteBody(data: string, take: nat)
      requires take <= |data|
      modifies `body
      ensures body == old(body) + data
      ensures old(received == head + body + data) ==> received == head + body
      ensures old(handed == upstream + body + data[..take]) ==> handed == upstream + body[..|old(body)| + take]
    {
      TakeFromBody(upstream, body, data, take);
      assert head + body + data == head + (body + data);
      body := body + data;
    }

    lemma TakeFromBody(start: string, seen: string, data: string, take: nat)
      requires take <= |data|
      ensures start + (seen + data)[..|seen| + take] == start + seen + data[..take]
    {
      assert (seen + data)[..|seen| + take] == seen + data[..take];
    }

    /** The end of forward_body. */
    method SettleBody(ghost r: Reading, ghost m: Mouth, ghost f: Faults)
      requires Carrying() && Sent(r, m, f) && !readPaused
      modifies `state, `faults, `readPaused
      ensures Carrying() && Forwarded(r, m, f)
      ensures state == if bodyRemaining == 0 then Streaming else old(state)
      ensures readPaused <==> bodyRemaining > 0 && backend && |bOut| > HIGH
      ensures !closed && !backend ==> (faults.orphaned <==> old(faults).orphaned || bodyRemaining == 0)
      ensures !closed && backend ==> faults == old(faults)
    {
      hide Here, Contents, FetchedAll, Even, ReadsWait, OnwardGrows, Push, Render;
      if bodyRemaining == 0 {
        state := Streaming;
        faults := faults.(orphaned := faults.orphaned || (!backend && !closed));
      } else if !backend {
        // The test below is made through a pointer that the failed send set to null:
        // what happens from here on is undefined.
        faults := faults.(undefinedRead := true);
      } else if |bOut| > HIGH {
        readPaused := true;
      }
    }

    method Send(data: string, ghost nest: Nest)
      requires Carrying() && WritesWait() && Queued() && backend && !readPaused && nest.pumps == 0
      requires |bOut| + |data| <= HIGH + CHUNK && (connected ==> state != ReadingHead)
      modifies this
      decreases Left(), 18
      ensures Same() && Left() <= old(Left()) && (old(BackendArmed()) ==> BackendArmed())
      ensures Carrying() && WritesWait() && Queued() && UploadNow() == old(UploadNow())
      ensures handed == old(handed) + data
      ensures old(SendFails(|data|)) ==>
                && LinkLost(WRITE_FAILED, old(Stand())) && !backend && (state == old(state) || state == Closing)
      ensures !old(SendFails(|data|)) ==>
                && DownNow() == old(DownNow())
                && |bOut| == old(SendLeft(|data|)) && writes == old(SendRest(|data|))
                && (HIGH < |bOut| ==> highWaterHit)
    {
      hide Fixed, Remembered, Render, Push, Carrying, Queued, UploadNow, WriteLeft, WriteRest, WriteFails, UpRest, Left, Recomputed,
        ReadFresh, Driven, DownNow;
      Enqueue(data);
      if connected {
        Flush(nest);
      }
    }

    /** The data join the queue for the backend. */
    method Enqueue(data: string)
      requires Queued() && Carrying() && backend && |bOut| + |data| <= HIGH + CHUNK
      modifies `bOut, `handed, `highWaterHit
      ensures Queued() && Carrying() && handed == old(handed) + data && |bOut| == |old(bOut)| + |data|
      ensures highWaterHit <==> old(highWaterHit) || HIGH < |bOut|
    {
      hide Flowing, Even, ReadsWait;
      assert written + (bOut + data) == written + bOut + data;
      bOut := bOut + data;
      handed := handed + data;
      if |bOut| > HIGH {
        highWaterHit := true;
      }
    }

    // ---- the request head ----

    /** More bytes of a request head are in. */
    ghost predicate HeadArrived(nest: Nest)
      reads this
    {
      && Sound() && Carrying() && ReceivedAll() && nest.drives == 1 && nest.pumps == 0
      && state == ReadingHead && handshakeDone && !closed && !readPaused && !clientEof && !backendPaused && !responded && !faults.orphaned
      && !backend && Unopened() && BackendFd !in closing
      && inBuf == received && |inBuf| <= MAX_HEAD + CHUNK
    }

    method ProcessHead(ghost nest: Nest)
      requires HeadArrived(nest)
      modifies this
      decreases Left(), 27
      ensures Same() && Steady() && handshakeDone && Left() <= old(Left()) && BackendArmed()
      ensures received == old(received) && recvs == old(recvs)
      ensures Underway(recvs, AfterText(old(inBuf), old(recvs), old(writes)), old(Here()), old(faults))
    {
      hide Steady, HeadArrived, BackendArmed, Left, Here, Unlinked, FromHead, Joined, Refusal, InternalAnswer, BeforeQuery;
      match parse(inBuf)
      case Incomplete =>
        if |inBuf| > MAX_HEAD {
          RespondTo(HeaderTooLarge, nest);
        } else {
          HeadWaits(nest);
        }
      case Malformed =>
        RespondTo(MalformedRequest, nest);
      case Parsed(verb, path, headers, headLen) =>
        if INTERNAL <= path {
          HandleInternal(verb, BeforeQuery(path), nest);
        } else {
          AdmitRequest(verb, path, headers, headLen, nest);
        }
    }

    /** A head that is not complete waits for more. */
    lemma HeadWaits(nest: Nest)
      requires HeadArrived(nest) && |inBuf| <= MAX_HEAD && parse(inBuf).Incomplete?
      ensures Steady() && handshakeDone && BackendArmed()
      ensures Underway(recvs, FromHead(recvs, inBuf, writes), Here(), faults)
    {
      hide Sound, Carrying, ReceivedAll, FromHead, Here;
    }

    /** send_response in answer to a request head. */
    method RespondTo(answer: Answer, ghost nest: Nest)
      requires HeadArrived(nest) && Deserved(answer, inBuf)
      modifies `sends, `replies, `state, `out, `responded, `closed, `interest, `rearmed, `writeBlock, `backend, `backendPaused, `peer,
               `bInterest, `bReadPaused, `closing, `fetched, `read, `taken, `made,
               `lastSend, `readWaits, `cutShort
      decreases Left(), 9
      ensures Same() && Steady() && handshakeDone && Left() <= old(Left()) && BackendArmed()
      ensures Unlinked(recvs, Made(answer, recvs), old(Here()), old(faults))
    {
      hide Fixed, Sound, Carrying, ReceivedAll, WritesWait, Queued, Left, Steady, Unlinked, Here, Answered, Answering, Render;
      ghost var m, f := Here(), faults;
      HereFacts();
      Refuse(answer, nest);
      SteadyWithout();
      AnsweredHead(answer, m, f);
    }

    lemma HereFacts()
      ensures Here().sends == sends && Here().cutShort == cutShort
    {
    }

    /** A made-up answer to a request head leaves its client in state Closing, or closed. */
    lemma AnsweredHead(answer: Answer, m: Mouth, f: Faults)
      requires !backend && state == Closing && made == Some(answer) && handshakeDone && !readPaused && !clientEof && faults == f
      requires cutShort == m.cutShort && Answered(Answering(m.sends, |Render(answer)|, Closing, []))
      ensures Unlinked(recvs, Made(answer, recvs), m, f)
    {
      hide Push, Render, Discard;
    }

    method Refuse(answer: Answer, ghost nest: Nest)
      requires HeadArrived(nest) && Deserved(answer, inBuf)
      modifies `sends, `replies, `state, `out, `responded, `closed, `interest, `rearmed, `writeBlock, `backend, `backendPaused, `peer,
               `bInterest, `bReadPaused, `closing, `fetched, `read, `taken, `made,
               `lastSend, `readWaits, `cutShort
      decreases Left(), 8
      ensures Carrying() && BackendArmed() && Left() <= old(Left())
      ensures !backend && state == Closing && made == Some(answer) && cutShort == old(cutShort) && Unopened()
      ensures BackendFd !in closing && Answered(Answering(old(sends), |Render(answer)|, Closing, []))
    {
      hide Sound, Contents, FetchedAll, ReceivedAll, OnwardGrows, Push, Left, Render, Answering, Answered;
      SendResponse(answer, nest);
    }

    method HandleInternal(verb: string, path: string, ghost nest: Nest)
      requires HeadArrived(nest)
      requires var p := parse(inBuf); Inside(p) && verb == p.verb && path == BeforeQuery(p.path)
      modifies this
      decreases Left(), 10
      ensures Same() && Steady() && handshakeDone && Left() <= old(Left()) && BackendArmed()
      ensures received == old(received) && recvs == old(recvs)
      ensures Unlinked(recvs, Made(InternalAnswer(verb, path), recvs), old(Here()), old(faults))
    {
      hide BeforeQuery, Aims, HeadArrived, Steady, BackendArmed, Left, Here, Unlinked;
      BeforeQueryIs(parse(inBuf).path, "/_castle/health");
      BeforeQueryIs(parse(inBuf).path, "/_castle/uptime");
      var headOnly := verb == "HEAD";
      if verb != "GET" && !headOnly {
        RespondTo(MethodNotAllowed, nest);
      } else if path == "/_castle/health" {
        RespondTo(Health(allUp, healthText, headOnly), nest);
      } else if path == "/_castle/uptime" {
        RespondTo(Uptime(uptimeText, headOnly), nest);
      } else {
        RespondTo(UnknownEndpoint(headOnly), nest);
      }
    }

    /** The rest of process_head, from the header loop on. */
    method AdmitRequest(verb: string, path: string, headers: seq<Header>, headLen: nat, ghost nest: Nest)
      requires HeadArrived(nest) && parse(inBuf) == Parsed(verb, path, headers, headLen) && !(INTERNAL <= path)
      modifies this
      decreases Left(), 26
      ensures Same() && Steady() && handshakeDone && Left() <= old(Left()) && BackendArmed()
      ensures received == old(received) && recvs == old(recvs)
      ensures if Refusal(path, headers).Some? then Unlinked(recvs, Made(Refusal(path, headers).value, recvs), old(Here()), old(faults))
              else Underway(recvs, Joined(old(parse(inBuf)), |old(inBuf)|, old(recvs), old(writes)), old(Here()), old(faults))
                   && request == Request(verb, path, headers, Print(verb, path, headers), Announced(headers), old(inBuf), headLen)
    {
      hide NoneCalled, OnlyLength, LastCalled, FirstCalled, Repeats, ValidLength, Capitals,
        HeadArrived, Steady, BackendArmed, Left, Here, Unlinked, Underway, Joined, Print, Decimal;
      var rewritten := Rewrite(verb, path, headers);
      match rewritten
      case DuplicateLength =>
        RespondTo(RepeatedLength, nest);
      case InvalidLength =>
        RespondTo(BadLength, nest);
      case Rewritten(text, host, length, chunked) =>
        if chunked {
          RespondTo(ChunkedBody, nest);
        } else if maxBody != 0 && length > maxBody {
          RespondTo(BodyTooLarge, nest);
        } else if !routed(host, path) {
          RespondTo(NoRoute, nest);
        } else {
          ForwardRequest(verb, path, headers, headLen, text, length, nest);
        }
    }

    /** The head is rewritten and the request may go. */
    method ForwardRequest(verb: string, path: string, headers: seq<Header>, headLen: nat, text: string, length: nat, ghost nest: Nest)
      requires HeadArrived(nest) && parse(inBuf) == Parsed(verb, path, headers, headLen)
      requires text == Print(verb, path, headers) && length == Announced(headers) && Admitted(headers, length)
      requires Welcome(path, headers, length)
      modifies this
      decreases Left(), 25
      ensures Same() && Steady() && handshakeDone && Left() <= old(Left()) && BackendArmed()
      ensures received == old(received) && recvs == old(recvs)
      ensures if opening.OpenFailed? then Unlinked(recvs, Made(Upstream(opening.why), recvs), old(Here()), old(faults))
              else Underway(recvs, Joined(old(parse(inBuf)), |old(inBuf)|, old(recvs), old(writes)), old(Here()), old(faults))
      ensures request == Request(verb, path, headers, text, length, old(inBuf), headLen)
    {
      hide Welcome, HeadArrived, Carrying, ReceivedAll, Steady, BackendArmed, Left, Pull, Print, Admitted, Unlinked, Ready, Fixed;
      Adopt(verb, path, headers, headLen, text, length, nest);
      StartStreaming(headLen, nest);
    }

    /** The request is taken over from the parser. */
    method Adopt(verb: string, path: string, headers: seq<Header>, headLen: nat, text: string, length: nat, ghost nest: Nest)
      requires HeadArrived(nest) && parse(inBuf) == Parsed(verb, path, headers, headLen)
      requires text == Print(verb, path, headers) && length == Announced(headers) && Admitted(headers, length)
      requires Welcome(path, headers, length)
      modifies `upstream, `bodyRemaining, `request
      ensures HeadArrived(nest) && Ready(headLen) && headLen <= |inBuf| && bodyRemaining == length
      ensures request == Request(verb, path, headers, text, length, inBuf, headLen)
    {
      hide Welcome, Carrying, ReceivedAll, Print, Admitted;
      PrintSize(parse(inBuf), |inBuf|);
      upstream := text;
      bodyRemaining := length;
      request := Request(verb, path, headers, text, length, inBuf, headLen);
    }

    /** The request is ready to go to a backend. */
    ghost predicate Ready(headLen: nat)
      reads `inBuf, `upstream, `bodyRemaining, `request
    {
      && headLen <= |inBuf| && |upstream| <= headLen + 500
      && bodyRemaining == request.length && upstream == request.text && Forwardable(request) && Understood(request)
      && headLen == request.size && inBuf == request.source
    }

    /** From start_backend to the end of process_head. */
    method StartStreaming(headLen: nat, ghost nest: Nest)
      requires HeadArrived(nest) && Ready(headLen)
      modifies this
      decreases Left(), 24
      ensures Same() && Steady() && handshakeDone && Left() <= old(Left()) && BackendArmed()
      ensures received == old(received) && recvs == old(recvs) && request == old(request)
      ensures match opening
              case OpenFailed(why) => Unlinked(recvs, Made(Upstream(why), recvs), old(Here()), old(faults))
              case NotRegistered =>
                Unlinked(recvs, Unregistered(if old(bodyRemaining) == 0 then Streaming else StreamingUp, recvs), old(Here()), old(faults))
              case Opened => Started(headLen, |old(inBuf)|, old(Here()), old(faults)) && writes == old(writes)
    {
      hide Answering, Render, Carrying, WritesWait, Queued, ReceivedAll, Sound, BackendArmed, Left, Started, Steady, Discard, Unopened;
      StartBackend(nest);
      if state == Closing || closed {
        SteadyWithout();
        return;
      }
      LeaveHeadPhase(headLen, nest);
    }

    /** A client that is being answered has nothing to account for. */
    lemma SteadyWithout()
      requires Carrying() && ReceivedAll() && !backend && state == Closing && handshakeDone
      requires |inBuf| <= MAX_HEAD + CHUNK && inBuf <= received && !faults.orphaned
      ensures Steady()
    {
      hide Flowing, Even, ReadsWait, OnwardGrows, ReceivedAll;
      NothingCounted();
    }

    /** The end of process_head: from the head phase to the body, or to the response. */
    method LeaveHeadPhase(headLen: nat, ghost nest: Nest)
      requires Carrying() && WritesWait() && Queued() && ReceivedAll() && nest.drives == 1 && nest.pumps == 0
      requires state == ReadingHead && handshakeDone && !closed && !responded && !readPaused && !clientEof
      requires faults.orphaned <==> !backend
      requires Ready(headLen) && |inBuf| <= MAX_HEAD + CHUNK && inBuf == received
      requires backend ==> !connected && handed == upstream && |bOut| == |upstream|
      modifies this
      decreases Left(), 23
      ensures Same() && Left() <= old(Left()) && (old(BackendArmed()) ==> BackendArmed())
      ensures Steady() && handshakeDone && received == old(received) && recvs == old(recvs) && request == old(request)
      ensures !closed && Here() == old(Here()) && made == old(made) && faults == old(faults) && backend == old(backend)
      ensures backend ==> Started(headLen, |old(inBuf)|, old(Here()), old(faults)) && writes == old(writes)
      ensures !backend ==> !readPaused && !clientEof && state == if old(bodyRemaining) == 0 then Streaming else StreamingUp
    {
      hide Carrying, WritesWait, Queued, ReceivedAll, BackendArmed, Left, UpTo, Started, Ready;
      NothingMade();
      BeginBody(headLen, nest);
      DropHead();
    }

    /** The head is not needed any more. */
    method DropHead()
      requires Carrying() && UpTo(received) && state != ReadingHead && made.None?
      modifies `inBuf
      ensures Carrying() && UpTo(received)
    {
      hide Counted, Phased, Throttled, Owned, FetchedAll, Even, ReadsWait, OnwardGrows, Deserved;
      inBuf := "";
    }

    /** A new backend has the head and the first of the body. */
    ghost predicate Started(headLen: nat, size: nat, m: Mouth, f: Faults)
      reads `backend, `backendPaused, `sends, `replies, `out, `cutShort, `faults, `connected, `bOut, `bodyRemaining, `request, `readPaused,
            `clientEof, `state, `closed, `responded
    {
      && backend && !closed && !connected && !readPaused && !clientEof && state != ReadingHead && Here() == m && faults == f && headLen <= size
      && |bOut| == |request.text| + Min(size - headLen, request.length)
      && bodyRemaining == request.length - Min(size - headLen, request.length)
    }

    /** The request leaves its head phase; what came after the head is body. */
    method BeginBody(headLen: nat, ghost nest: Nest)
      requires Carrying() && WritesWait() && Queued() && nest.drives == 1 && nest.pumps == 0
      requires state == ReadingHead && handshakeDone && !closed && !responded && !readPaused && !clientEof
      requires faults.orphaned <==> !backend
      requires Ready(headLen) && |inBuf| <= MAX_HEAD + CHUNK && inBuf == received
      requires backend ==> !connected && handed == upstream && |bOut| == |upstream|
      modifies this
      decreases Left(), 22
      ensures Same() && Left() <= old(Left()) && (old(BackendArmed()) ==> BackendArmed())
      ensures Carrying() && WritesWait() && Queued() && UpTo(received)
      ensures handshakeDone && received == old(received) && recvs == old(recvs) && request == old(request) && state != ReadingHead
      ensures !closed && Here() == old(Here()) && made == old(made) && faults == old(faults) && backend == old(backend)
      ensures backend ==> Started(headLen, |old(inBuf)|, old(Here()), old(faults)) && writes == old(writes)
      ensures !backend ==> !readPaused && !clientEof && state == if old(bodyRemaining) == 0 then Streaming else StreamingUp
    {
      hide Carrying, WritesWait, Queued, BackendArmed, Left, Forwardable, Understood;
      if bodyRemaining > 0 && headLen < |inBuf| {
        CarryingFacts();
        BodyFollows(headLen, nest);
      } else {
        NoteHeadAndBody(headLen);
        LeaveHead(if bodyRemaining == 0 then Streaming else StreamingUp);
      }
    }

    /** The first of the body came with the head. */
    method BodyFollows(headLen: nat, ghost nest: Nest)
      requires Carrying() && WritesWait() && Queued() && nest.drives == 1 && nest.pumps == 0
      requires state == ReadingHead && handshakeDone && !closed && !responded && !readPaused && !clientEof
      requires faults.orphaned <==> !backend
      requires Ready(headLen) && |inBuf| <= MAX_HEAD + CHUNK && inBuf == received && bodyRemaining > 0 && headLen < |inBuf|
      requires backend ==> !connected && handed == upstream && |bOut| == |upstream| && made.None?
      modifies this
      decreases Left(), 21
      ensures Same() && Left() <= old(Left()) && (old(BackendArmed()) ==> BackendArmed())
      ensures Carrying() && WritesWait() && Queued() && UpTo(received)
      ensures handshakeDone && received == old(received) && recvs == old(recvs) && request == old(request) && state != ReadingHead
      ensures !closed && Here() == old(Here()) && made == old(made) && faults == old(faults) && backend == old(backend)
      ensures backend ==> Started(headLen, |old(inBuf)|, old(Here()), old(faults)) && writes == old(writes)
      ensures !backend ==> !readPaused && !clientEof && state == StreamingUp
    {
      hide Carrying, WritesWait, Queued, BackendArmed, Left, Forwardable, Understood, UpTo, Expected, Throttled;
      EnterBody(headLen);
      ForwardBody(inBuf[headLen..], nest);
      CarryingFacts();
    }

    /** The head is over, and what follows it is body. */
    method EnterBody(headLen: nat)
      requires Carrying() && state == ReadingHead && !readPaused && Ready(headLen) && inBuf == received
      requires |inBuf| <= MAX_HEAD + CHUNK
      requires backend ==> handed == upstream && |bOut| == |upstream|
      modifies `head, `body, `state
      ensures Carrying() && state == StreamingUp && Throttled() && (backend ==> Expected(inBuf[headLen..]))
    {
      hide Carrying, Forwardable, Understood;
      NoteHead(headLen);
      LeaveHead(StreamingUp);
    }

    method LeaveHead(next: State)
      requires Carrying() && state == ReadingHead && (next == Streaming || next == StreamingUp)
      modifies `state
      ensures Carrying() && state == next
    {
      hide Contents, FetchedAll, Even, ReadsWait, OnwardGrows;
      state := next;
    }

    /** What was received is the head, no body yet, and the bytes after the head. */
    ghost method NoteHead(headLen: nat)
      requires headLen <= |inBuf| && inBuf == received
      modifies `head, `body
      ensures |body| == 0 && received == head + body + inBuf[headLen..] && upstream == upstream + body && head == inBuf[..headLen]
    {
      head, body := inBuf[..headLen], "";
    }

    /** What was received is the head and the body so far, of which nothing is to be forwarded. */
    ghost method NoteHeadAndBody(headLen: nat)
      requires headLen <= |inBuf| && inBuf == received
      modifies `head, `body
      ensures |body| == |inBuf| - headLen && received == head + body && upstream == upstream + body[..0] && head == inBuf[..headLen]
    {
      head, body := inBuf[..headLen], inBuf[headLen..];
    }

    method StartBackend(ghost nest: Nest)
      requires HeadArrived(nest) && |upstream| <= HIGH
      modifies this
      decreases Left(), 21
      ensures Fixed() == old(Fixed()) && Left() <= old(Left()) && BackendArmed() && handshakeDone
      ensures Carrying() && WritesWait() && Queued() && ReceivedAll() && HeadStays()
      ensures match opening
              case OpenFailed(why) =>
                !backend && state == Closing && Unlinked(recvs, Made(Upstream(why), recvs), old(Here()), old(faults)) && Unopened()
              case NotRegistered =>
                !backend && state == ReadingHead && !closed && !responded && Here() == old(Here()) && made == old(made)
                && faults == old(faults).(orphaned := true) && writes == old(writes)
              case Opened =>
                backend && state == ReadingHead && !closed && !responded && !connected && handed == upstream && |bOut| == |upstream|
                && Here() == old(Here()) && faults == old(faults) && writes == old(writes)
    {
      hide Fixed, Discard, Render, Carrying, ReceivedAll, Sound, Left;
      if opening.OpenFailed? {
        Refuse(Upstream(opening.why), nest);
      } else {
        OpenBackend(nest);
        if opening == NotRegistered {
          Unregister();
        }
      }
    }

    /** What opening a backend leaves alone. */
    twostate predicate HeadStays()
      reads `inBuf, `upstream, `bodyRemaining, `handshakeDone, `readPaused, `clientEof, `received, `recvs, `request, `head, `body
    {
      && inBuf == old(inBuf) && upstream == old(upstream) && bodyRemaining == old(bodyRemaining) && handshakeDone == old(handshakeDone)
      && readPaused == old(readPaused) && clientEof == old(clientEof) && received == old(received) && recvs == old(recvs)
      && request == old(request)
    }

    /** The backend connection is destroyed at once and unhooks itself. */
    method Unregister()
      requires Carrying() && backend && state == ReadingHead && bReadPaused == false && !backendPaused
      modifies `backend, `peer, `backendAlive, `faults
      ensures Carrying() && !backend && !backendAlive && faults == old(faults).(orphaned := true)
    {
      hide Contents, FetchedAll, OnwardGrows;
      if peer {
        backend := false;
      }
      peer := false;
      backendAlive := false;
      faults := faults.(orphaned := true);
    }

    /** A new backend connection with the head queued on it. */
    method OpenBackend(ghost nest: Nest)
      requires HeadArrived(nest) && |upstream| <= HIGH
      modifies this
      decreases Left(), 20
      ensures Fixed() == old(Fixed()) && Left() <= old(Left()) && BackendArmed()
      ensures Carrying() && WritesWait() && Queued() && ReceivedAll() && HeadStays()
      ensures backend && !connected && handed == upstream && |bOut| == |upstream| && !bReadPaused && !backendPaused
      ensures state == ReadingHead && !closed && !responded && made == old(made) && writes == old(writes)
      ensures Here() == old(Here()) && faults == old(faults) && BackendFd !in closing
    {
      hide Sound, Carrying, WritesWait, Queued, BackendArmed, ReceivedAll, Left, Here;
      CreateBackend(nest);
      SendHead(nest);
    }

    method CreateBackend(ghost nest: Nest)
      requires HeadArrived(nest)
      modifies `backendAlive, `peer, `backend
      ensures Carrying() && WritesWait() && Queued() && BackendArmed()
      ensures backend && backendAlive && peer && made.None? && Here() == old(Here())
    {
      hide Sound, FetchedAll, ReceivedAll, OnwardGrows;
      backendAlive := true;
      peer := true;
      backend := true;
    }

    method SendHead(ghost nest: Nest)
      requires Carrying() && WritesWait() && Queued() && BackendArmed() && ReceivedAll()
      requires backend && !connected && !readPaused && |bOut| == 0 && |handed| == 0 && |upstream| <= HIGH && nest.pumps == 0
      modifies this
      decreases Left(), 19
      ensures Fixed() == old(Fixed()) && Left() <= old(Left()) && BackendArmed() && state == old(state)
      ensures Carrying() && WritesWait() && Queued() && ReceivedAll() && HeadStays()
      ensures backend && handed == upstream && |bOut| == |upstream| && writes == old(writes)
      ensures Here() == old(Here()) && faults == old(faults)
      ensures bReadPaused == old(bReadPaused) && backendPaused == old(backendPaused)
      ensures responded == old(responded) && closed == old(closed)
      ensures made == old(made) && closing == old(closing) && backendAlive == old(backendAlive)
    {
      hide Carrying, Queued, WritesWait, ReceivedAll, BackendArmed, Left, UploadNow, DownNow, LinkLost, Here;
      Send(upstream, nest);
      SameUpload();
      SameDown();
    }

    // ---- what the event loop calls ----

    /** What holds whenever the event loop is not inside a callback of the pair. */
    ghost predicate Inv() reads this {
      && Steady() && BackendArmed() && Recomputed() && ReadFresh()
      && (!closed && !handshakeDone ==> Greeting()) && Reminded()
    }

    constructor (parse: string -> Parse, routed: (string, string) -> bool, opening: Opening,
                 maxBody: nat, allUp: bool, healthText: string, uptimeText: string)
      requires forall s {:trigger parse(s)} :: Fits(parse(s), |s|)
      ensures Sound() && Inv() && state == ReadingHead && LogsNow() == Logs("", "", "", "", "", "") && !closed
      ensures clientAlive && closing == {}
      ensures faults == Faults(false, false) && !cutShort && !backend && !handshakeDone && !connected
      ensures inBuf == "" && out == "" && made.None? && !responded
      ensures this.parse == parse && this.routed == routed && this.opening == opening && this.maxBody == maxBody
    {
      this.parse, this.routed, this.opening, this.maxBody := parse, routed, opening, maxBody;
      this.allUp, this.healthText, this.uptimeText := allUp, healthText, uptimeText;
      hands, recvs, sends, replies, writes := [], [], [], [], [];
      state, inBuf, out, upstream, bodyRemaining := ReadingHead, "", "", "", 0;
      responded, handshakeDone, closed, clientEof, readPaused, backendPaused := false, false, false, false, false, false;
      interest, readBlock, writeBlock, backend := Mask(true, false), WouldBlockRead, Ok, false;
      backendAlive, peer, bOut, bInterest := false, false, "", Mask(false, true);
      connected, bReadPaused, highWaterHit := false, false, false;
      clientAlive, closing := true, {};
      script, start := Io([], [], [], [], []), Logs("", "", "", "", "", "");
      received, head, body, request := "", "", "", Request("", "", [], "", 0, "", 0);
      handed, written, fetched, read, taken, made := "", "", "", "", "", None;
      heard, writeWaits := Heard(WouldBlockRead, WouldBlockRead), false;
      rearmed, lastSend, readWaits, cutShort, faults := false, Ok, true, false, Faults(false, false);
    }

    /** A callback begins: these are the answers that its system calls will get. */
    method Begin(s: Io)
      requires Steady()
      modifies `hands, `recvs, `sends, `replies, `writes, `script, `start
      ensures Steady() && hands == s.hands && recvs == s.recvs && sends == s.sends && replies == s.replies && writes == s.writes
      ensures script == s && start == LogsNow()
    {
      hide Lifetimes, Contents, Paced, Room, Stalled, Draining, Reaped, WriteFresh, Even, ReadsWait, Queued, WritesWait, UpTo;
      Load(s);
    }

    method Load(s: Io)
      modifies `hands, `recvs, `sends, `replies, `writes, `script, `start
      ensures hands == s.hands && recvs == s.recvs && sends == s.sends && replies == s.replies && writes == s.writes
      ensures script == s && start == LogsNow()
    {
      hands, recvs, sends, replies, writes := s.hands, s.recvs, s.sends, s.replies, s.writes;
      script, start := s, LogsNow();
    }

    /** The logs have grown by what the used part of the script brought. */
    ghost predicate LoggedSince(s: Io, was: Logs)
      reads `recvs, `replies, `received, `fetched, `read, `taken, `handed, `written
    {
      && Pending(s.recvs, recvs) && received == was.received + AllGot(Used(s.recvs, recvs))
      && Pending(s.replies, replies) && fetched == was.fetched + AllRead(Used(s.replies, replies))
      && was.read <= read && was.taken <= taken && was.handed <= handed && was.written <= written
    }

    lemma LogsAreIn(s: Io, was: Logs)
      requires Steady() && script == s && start == was
      ensures LoggedSince(s, was)
    {
      hide Lifetimes, Contents, Paced, Room, Stalled, Draining, Reaped, WriteFresh, Even, ReadsWait, Queued, WritesWait, UpTo, AllGot,
        AllRead;
    }

    /** What reading leads to in a callback with this script. */
    ghost function ReadsOf(s: Io): Reading
      reads `closed, `handshakeDone, `backend, `readPaused, `clientEof, `connected, `bOut, `bodyRemaining, `state, `inBuf
    {
      if closed || (!handshakeDone && (s.hands == [] || s.hands[0] != Ok)) then Deaf
      else if backend then
        if readPaused || clientEof then Linked(s.recvs, s.writes, |bOut|, bodyRemaining, readPaused, clientEof, WouldBlockRead)
        else Pull(s.recvs, s.writes, connected, |bOut|, bodyRemaining)
      else if state == ReadingHead then FromHead(s.recvs, inBuf, s.writes)
      else Loose(if readPaused || clientEof then Stopped(s.recvs, clientEof) else Discard(s.recvs, state != StreamingUp), state)
    }

    ghost function MouthOf(s: Io): Mouth reads `backend, `backendPaused, `out, `cutShort, `responded {
      Mouth(Holding(), s.sends, s.replies, |out|, cutShort, responded)
    }

    lemma LoadedMeans(s: Io)
      requires hands == s.hands && recvs == s.recvs && sends == s.sends && replies == s.replies && writes == s.writes
      ensures Reads() == ReadsOf(s) && Here() == MouthOf(s)
    {
    }

    /** on_readable and on_writable of the client connection; its read side need not be fresh. */
    method OnClientReady(s: Io)
      requires Sound() && Steady() && BackendArmed()
      modifies this
      ensures Inv() && LoggedSince(s, old(LogsNow())) && connected == old(connected) && clientAlive == old(clientAlive)
      ensures Driven(old(ReadsOf(s)), old(MouthOf(s)), old(faults))
      ensures old(closed) ==> closed
      ensures handshakeDone <==> old(handshakeDone) || (!old(closed) && s.hands != [] && s.hands[0].Ok?)
      ensures !old(closed) && !handshakeDone ==> (closed <==> s.hands != [] && (s.hands[0].Closed? || s.hands[0].Error?))
    {
      hide Mark, Left, Discard, Reminded, Steady, BackendArmed, Sound, Recomputed, ReadFresh, Greeting, Driven, LoggedSince, Pull, FromHead,
        LogsNow, Reads, ReadsOf, Here, MouthOf;
      ghost var was, m, r, f := LogsNow(), MouthOf(s), ReadsOf(s), faults;
      Begin(s);
      rearmed := false;
      LoadedMeans(s);
      Drive(Nest(0, 0));
      DrivenReminds(r, m, f);
      LogsAreIn(s, was);
    }

    lemma DrivenReminds(r: Reading, m: Mouth, f: Faults)
      requires Driven(r, m, f)
      ensures Reminded()
    {
    }

    twostate lemma KeptReminds()
      requires ClientKept() && readPaused == old(readPaused) && clientEof == old(clientEof) && readBlock == old(readBlock)
      ensures old(Reminded()) ==> Reminded()
    {
    }

    lemma LostReminds(why: string, was: Stance)
      requires LinkLost(why, was)
      ensures Reminded()
    {
    }

    /** on_error of the client connection, and its idle timeout. */
    method OnClientGone()
      requires Inv()
      modifies `closed, `backend, `peer, `closing
      ensures Inv() && closed
    {
      hide Steady, BackendArmed, Recomputed, ReadFresh, Greeting;
      if !closed {
        Shut();
      }
    }

    /** A backend connection lives only after a request head. */
    lemma BackendFacts()
      requires UpRest() && backendAlive
      ensures state != ReadingHead && (closed || handshakeDone)
    {
      hide Counted, Phased, Throttled, Owned, ReceivedAll;
    }

    /** A read side that is fresh stays so. */
    twostate lemma StaysFresh()
      requires old(ReadFresh()) && UploadNow() == old(UploadNow()) && (old(closed) ==> closed)
      ensures ReadFresh()
    {
    }

    /** What on_readable leaves of the upload side. */
    twostate lemma ReadableStays()
      requires old(Steady() && ReadFresh() && state != ReadingHead && (closed || handshakeDone))
      requires Flowing() && Even() && ReadsWait() && Step() && (old(backend) || ClientKept())
      requires bOut == old(bOut) && handed == old(handed) && written == old(written)
      requires UploadNow() == old(UploadNow()) && highWaterHit == old(highWaterHit) && writeWaits == old(writeWaits)
      requires connected == old(connected) && script == old(script) && start == old(start) && handshakeDone == old(handshakeDone)
      ensures Steady() && ReadFresh() && (closed || handshakeDone)
    {
      hide Flowing, Even, ReadsWait, OnwardGrows, Queued, WritesWait, UpRest, ReadFresh, UploadNow, BackendKept;
      UpSideStays();
      StaysFresh();
    }

    /** on_readable leaves the upload side as it is. */
    method ReadableUp()
      requires Steady() && BackendArmed() && Recomputed() && ReadFresh() && backendAlive
      modifies `sends, `replies, `state, `out, `responded, `closed, `interest, `rearmed, `writeBlock, `backend, `backendPaused, `peer,
               `bInterest, `bReadPaused, `closing, `fetched, `read, `taken, `made,
               `lastSend, `readWaits, `cutShort
      ensures Steady() && BackendArmed() && Recomputed() && ReadFresh()
      ensures (closed || handshakeDone) && cutShort == old(cutShort)
      ensures old(backend && !bReadPaused) ==> RelayedTo(Relay(old(replies), old(sends), |old(out)|, old(Asks())), old(responded))
      ensures old(backend) && !closed ==> read == fetched
      ensures if old(backend && !bReadPaused && !Silent(replies)) then Remembered() else ClientKept()
    {
      hide Flowing, OnwardGrows, Queued, WritesWait, UpRest, BackendArmed, Recomputed, RelayedTo, Relay, Silent, Asks, Remembered,
        UploadNow, Left,
        ReadFresh, ReadsWait, Even, Step, ClientKept;
      BackendFacts();
      OnReadable(Nest(0, 0));
      ReadableStays();
    }

    /** A failure of the backend connection leaves the upload side sound. */
    method FailUp(why: string)
      requires Steady() && BackendArmed() && Recomputed() && ReadFresh() && backendAlive
      modifies `sends, `replies, `state, `out, `responded, `closed, `interest, `rearmed, `writeBlock, `backend, `backendPaused, `peer,
               `bInterest, `bReadPaused, `closing, `fetched, `read, `taken, `made,
               `lastSend, `readWaits, `cutShort
      ensures Steady() && BackendArmed() && Recomputed() && ReadFresh()
      ensures (closed || handshakeDone) && cutShort == old(cutShort) && !backend
      ensures if old(backend) then LinkLost(why, old(Stand())) else ClientKept()
    {
      hide Flowing, OnwardGrows, Queued, WritesWait, UpRest, Recomputed, UploadNow, Left, Stand, Remembered, BackendKept, LinkLost;
      BackendFacts();
      Fail(why, Nest(0, 0));
      UpSideStays();
    }

    /** Neither an answered failure nor a client left alone forgets anything. */
    method FailAndRemind(why: string)
      requires Steady() && BackendArmed() && Recomputed() && ReadFresh() && Reminded() && backendAlive
      modifies `sends, `replies, `state, `out, `responded, `closed, `interest, `rearmed, `writeBlock, `backend, `backendPaused, `peer,
               `bInterest, `bReadPaused, `closing, `fetched, `read, `taken, `made,
               `lastSend, `readWaits, `cutShort
      ensures Steady() && BackendArmed() && Recomputed() && ReadFresh() && Reminded()
      ensures (closed || handshakeDone) && cutShort == old(cutShort) && !backend
      ensures if old(backend) then LinkLost(why, old(Stand())) else ClientKept()
    {
      hide Steady, BackendArmed, Recomputed, ReadFresh, Reminded, LinkLost, Stand, ClientKept;
      ghost var stand, linked := Stand(), backend;
      FailUp(why);
      if linked {
        LostReminds(why, stand);
      } else {
        KeptReminds();
      }
    }

    method OnBackendReadable(s: Io)
      requires Inv() && backendAlive
      modifies `hands, `recvs, `writes, `script, `start, `sends, `replies, `state, `out, `responded, `closed, `interest, `rearmed, `writeBlock,
               `backend, `backendPaused, `peer, `bInterest, `bReadPaused, `closing, `fetched, `read, `taken, `made,
               `lastSend, `readWaits, `cutShort
      ensures Inv() && LoggedSince(s, old(LogsNow())) && cutShort == old(cutShort)
      ensures old(backend && !bReadPaused) ==> RelayedTo(Relay(s.replies, s.sends, |old(out)|, old(Asks())), old(responded))
      ensures old(backend) && !closed ==> read == fetched
      ensures if old(backend && !bReadPaused) && !Silent(s.replies) then Remembered() else ClientKept()
      ensures !closed ==> (Forgotten() <==> old(Forgotten()) && old(!backend || bReadPaused || Silent(s.replies)))
    {
      hide Steady, BackendArmed, Recomputed, RelayedTo, Relay, Silent, LoggedSince, LogsNow, Greeting;
      ghost var was := LogsNow();
      Begin(s);
      ReadableUp();
      LogsAreIn(s, was);
    }

    lemma StandLoaded(s: Io)
      requires sends == s.sends
      ensures Stand() == StandOf(s)
    {
    }

    /** on_writable of the backend connection; the loop skips it once a close is pending. */
    method OnBackendWritable(s: Io, connects: bool)
      requires Sound() && Inv() && backendAlive && BackendFd !in closing
      modifies this
      ensures Inv() && LoggedSince(s, old(LogsNow())) && clientAlive == old(clientAlive)
      ensures connected == (old(connected) || connects)
      ensures !connected ==> LinkLost(CONNECT_FAILED, old(StandOf(s))) && faults == old(faults)
      ensures connected && WriteFails(s.writes, |old(bOut)|) ==> LinkLost(WRITE_FAILED, old(StandOf(s))) && faults == old(faults)
      ensures connected && !WriteFails(s.writes, |old(bOut)|) && !old(ResumesOn(s)) ==>
                backend && |bOut| == WriteLeft(s.writes, |old(bOut)|) && Stand() == old(StandOf(s))
      ensures connected && !WriteFails(s.writes, |old(bOut)|) && old(ResumesOn(s)) ==>
                Driven(old(ResumedOn(s)), old(MouthOf(s)), old(faults))
    {
      hide Reminded, Carrying, Queued, WritesWait, UpRest, BackendArmed, Recomputed, ReadFresh, LoggedSince, LogsNow, LinkLost,
        Driven, Greeting, Stand, StandOf, WriteFails, WriteLeft, WriteRest, Pull, Sound, ResumesOn, ResumedOn, MouthOf;
      ghost var was, r, m := LogsNow(), ResumedOn(s), MouthOf(s);
      Begin(s);
      StandLoaded(s);
      StillLinked();
      if !connected {
        if !connects {
          FailAndRemind(CONNECT_FAILED);
          LogsAreIn(s, was);
          return;
        }
        Connect();
      }
      WriteOn(s, was);
    }

    /** The rest of on_writable, once the backend is connected. */
    method WriteOn(s: Io, ghost was: Logs)
      requires Carrying() && Queued() && UpRest() && backend && connected && Recomputed() && ReadFresh() && Reminded() && Sound()
      requires script == s && start == was && recvs == s.recvs && writes == s.writes && sends == s.sends && replies == s.replies
      modifies this
      ensures Inv() && LoggedSince(s, was) && connected && clientAlive == old(clientAlive)
      ensures WriteFails(s.writes, |old(bOut)|) ==> LinkLost(WRITE_FAILED, old(Stand())) && faults == old(faults)
      ensures !WriteFails(s.writes, |old(bOut)|) && !old(ResumesOn(s)) ==>
                backend && |bOut| == WriteLeft(s.writes, |old(bOut)|) && Stand() == old(Stand())
      ensures !WriteFails(s.writes, |old(bOut)|) && old(ResumesOn(s)) ==>
                Driven(old(ResumedOn(s)), old(MouthOf(s)), old(faults))
    {
      hide Reminded, Carrying, Queued, WritesWait, UpRest, BackendArmed, Recomputed, ReadFresh, LoggedSince, LinkLost,
        Driven, Greeting, Stand, WriteFails, WriteLeft, WriteRest, Pull, Sound;
      FlushUp();
      LogsAreIn(s, was);
    }

    /** The connect has completed. */
    method Connect()
      requires Carrying() && Queued() && UpRest() && backend
      modifies `connected
      ensures Carrying() && Queued() && UpRest() && connected
    {
      hide Carrying, Queued, Counted, Owned, ReceivedAll;
      connected := true;
    }

    /** flush from the event loop. */
    method FlushUp()
      requires Carrying() && Queued() && UpRest() && backend && connected
      requires Recomputed() && ReadFresh() && Reminded() && Sound()
      modifies this
      ensures Steady() && BackendArmed() && Recomputed() && ReadFresh() && Reminded() && (closed || handshakeDone)
      ensures connected && clientAlive == old(clientAlive) && script == old(script) && start == old(start)
      ensures old(SendFails(0)) ==> LinkLost(WRITE_FAILED, old(Stand())) && faults == old(faults)
      ensures !old(SendFails(0)) && !old(Resumes()) ==> backend && |bOut| == old(SendLeft(0)) && Stand() == old(Stand())
      ensures !old(SendFails(0)) && old(Resumes()) ==> Driven(old(ReadsResumed()), old(Here()), old(faults))
    {
      hide Reminded, Carrying, Queued, WritesWait, UpRest, Recomputed, ReadFresh, BackendArmed, Sound, LinkLost, Driven,
        UploadNow, DownNow, Stand, SendFails, Resumes, SendLeft, SendRest, ReadsResumed, Here, Left;
      ghost var was, r, m, f := Stand(), ReadsResumed(), Here(), faults;
      LinkedState();
      label L:
      Flush(Nest(0, 0));
      if old(SendFails(0)) {
        SameUpload@L();
        LostReminds(WRITE_FAILED, was);
      } else if old(Resumes()) {
        DrivenReminds(r, m, f);
      } else {
        SameStand@L();
      }
      LinkedState();
    }

    /** Which states a pair with a backend connection is in. */
    lemma LinkedState()
      requires UpRest()
      ensures (backend ==> state != ReadingHead) && (state != ReadingHead ==> closed || handshakeDone)
    {
      hide Counted, Owned, ReceivedAll;
    }

    twostate lemma SameStand()
      requires UploadNow() == old(UploadNow()) && DownNow() == old(DownNow())
      ensures Stand() == old(Stand()) && backend == old(backend) && (old(Reminded()) ==> Reminded())
    {
    }

    lemma StillLinked()
      requires Steady() && backendAlive && BackendFd !in closing
      ensures backend
    {
      hide Pipe, Even, ReadsWait, OnwardGrows, Queued, WritesWait, UpRest;
    }

    /** The writes of a script leave so little that a paused upload is resumed; what that leads to. */
    ghost predicate ResumesOn(s: Io) reads `readPaused, `bOut {
      readPaused && WriteLeft(s.writes, |bOut|) < LOW
    }

    ghost function ResumedOn(s: Io): Reading reads `bOut, `bodyRemaining {
      Pull(s.recvs, WriteRest(s.writes, |bOut|), true, WriteLeft(s.writes, |bOut|), bodyRemaining)
    }

    /** on_error of the backend connection, and its timeout. */
    method OnBackendBroken(s: Io, why: string)
      requires Inv() && backendAlive
      modifies `hands, `recvs, `writes, `script, `start, `sends, `replies, `state, `out, `responded, `closed, `interest, `rearmed, `writeBlock,
               `backend, `backendPaused, `peer, `bInterest, `bReadPaused, `closing, `fetched, `read, `taken, `made,
               `lastSend, `readWaits, `cutShort
      ensures Inv() && !backend && LoggedSince(s, old(LogsNow())) && cutShort == old(cutShort)
      ensures if old(backend) then LinkLost(why, old(StandOf(s))) else ClientKept()
    {
      hide Render, Push, Answered, Reminded, Steady, BackendArmed, Recomputed, ReadFresh, LoggedSince, LogsNow, LinkLost, Stand,
        StandOf, Greeting;
      ghost var was := LogsNow();
      Begin(s);
      StandLoaded(s);
      FailAndRemind(why);
      LogsAreIn(s, was);
    }

    /** The destructors: each connection unhooks itself from a peer it still has. */
    method DestroyClient()
      modifies `clientAlive, `peer
      ensures !clientAlive && (peer <==> old(peer) && !backend)
    {
      if backend {
        peer := false;
      }
      clientAlive := false;
    }

    method DestroyBackend()
      modifies `backendAlive, `backend
      ensures !backendAlive && (backend <==> old(backend) && !peer)
    {
      if peer {
        backend := false;
      }
      backendAlive := false;
    }

    /** The end of an epoll batch: whatever asked to be closed is destroyed, in any order. */
    method ProcessPendingClose()
      requires Inv()
      modifies `closing, `clientAlive, `backendAlive, `backend, `peer
      ensures Inv() && closing == {}
      ensures backend == old(backend)
      ensures clientAlive <==> !closed
      ensures backendAlive <==> backend
    {
      hide Contents, FetchedAll, Paced, Room, Stalled, Draining, WriteFresh, Even, ReadsWait, Queued, WritesWait, OnwardGrows, Counted,
        Phased,
        Throttled, ReceivedAll, Recomputed, ReadFresh, BackendArmed, Greeting;
      while closing != {}
        invariant closing <= old(closing) && backend == old(backend) && peer == old(peer)
        invariant clientAlive <==> old(clientAlive) && !(ClientFd in old(closing) && ClientFd !in closing)
        invariant backendAlive <==> old(backendAlive) && !(BackendFd in old(closing) && BackendFd !in closing)
        decreases closing
      {
        var fd :| fd in closing;
        closing := closing - {fd};
        match fd
        case ClientFd =>
          DestroyClient();
        case BackendFd =>
          DestroyBackend();
      }
    }
  }
}
