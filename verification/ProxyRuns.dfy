/** Whole runs of a proxied pair, and what its invariant says in the program's own terms. */
module ProxyRuns {
  import opened Basics
  import opened Wire
  import opened RequestHead
  import opened Proxy
  import Framing
  import Responses

  /** What the event loop can bring to a pair. */
  datatype Event =
    | ClientReady(script: Io)
    | ClientGone
    | BackendReadable(script: Io)
    | BackendWritable(script: Io, connects: bool)
    | BackendBroken(script: Io, why: string)
    | BatchEnd

  /** The part of an event's answers that brought bytes from the two sockets. */
  datatype Share = Share(recvs: seq<Recv>, replies: seq<Read>)

  const NOTHING := Share([], [])

  function ScriptOf(e: Event): Io {
    if e.ClientGone? || e.BatchEnd? then Io([], [], [], [], []) else e.script
  }

  /** The share is what a first part of the event's answers is. */
  predicate ShareOf(share: Share, e: Event) {
    share.recvs <= ScriptOf(e).recvs && share.replies <= ScriptOf(e).replies
  }

  /** All bytes that the client's socket brought. */
  function FromClient(shares: seq<Share>): string {
    if shares == [] then "" else FromClient(shares[..|shares| - 1]) + AllGot(shares[|shares| - 1].recvs)
  }

  function FromBackend(shares: seq<Share>): string {
    if shares == [] then "" else FromBackend(shares[..|shares| - 1]) + AllRead(shares[|shares| - 1].replies)
  }

  /** No write to the backend meets a hard error. */
  predicate WritesWork(e: Event) {
    NeverFails(ScriptOf(e).writes)
  }

  /** The client's transport is plain: only TLS lets a send wait for reads. */
  predicate PlainSends(sends: seq<Send>) {
    forall k :: 0 <= k < |sends| ==> sends[k] != NotTook(WouldBlockRead)
  }

  predicate Plain(e: Event) {
    PlainSends(ScriptOf(e).sends)
  }

  /** The backend does not end its response. */
  predicate GoesOn(replies: seq<Read>) {
    forall k :: 0 <= k < |replies| ==> !replies[k].Eof?
  }

  predicate NoEnd(e: Event) {
    GoesOn(ScriptOf(e).replies)
  }

  // ---- what a script without some outcome cannot lead to ----

  lemma {:induction false} PullSurvives(recvs: seq<Recv>, writes: seq<Write>, connected: bool, queued: nat, remaining: nat)
    requires NeverFails(writes)
    ensures var r := Pull(recvs, writes, connected, queued, remaining); !r.Cut? && !r.LastLost?
    decreases |recvs|
  {
    if recvs != [] && recvs[0].Got? {
      var n := Min(|recvs[0].data|, remaining);
      NothingFails(writes, queued + n);
      if remaining == 0 {
        PullSurvives(recvs[1..], writes, connected, queued, 0);
      } else {
        var left := if connected then WriteLeft(writes, queued + n) else queued + n;
        var rest := if connected then WriteRest(writes, queued + n) else writes;
        PullSurvives(recvs[1..], rest, connected, left, remaining - n);
      }
    }
  }

  lemma {:induction false} HeadSurvives(p: Pair, recvs: seq<Recv>, text: string, writes: seq<Write>)
    requires p.Sound() && NeverFails(writes) && !p.opening.NotRegistered?
    ensures var r := p.FromHead(recvs, text, writes); !r.Cut? && !r.LastLost? && !r.Unregistered?
    decreases |recvs|
  {
    if recvs != [] && recvs[0].Got? {
      var more := text + recvs[0].data;
      var v := p.parse(more);
      assert Fits(v, |more|);
      if p.Reply(v, |more|).None? {
        if v.Incomplete? {
          HeadSurvives(p, recvs[1..], more, writes);
        } else {
          PullSurvives(recvs[1..], writes, false, p.FirstQueued(v, |more|), p.FirstRemaining(v, |more|));
        }
      }
    }
  }

  lemma {:induction false} PushStaysPlain(sends: seq<Send>, n: nat)
    requires PlainSends(sends)
    ensures var p := Push(sends, n); PlainSends(p.rest) && (p.Stuck? ==> !p.asks.WouldBlockRead?)
  {
    if n != 0 && sends != [] && sends[0].Took? {
      PushStaysPlain(sends[1..], n - Min(sends[0].count, n));
    }
  }

  lemma {:induction false} RelayStaysPlain(replies: seq<Read>, sends: seq<Send>, queued: nat, asks: IoStatus)
    requires PlainSends(sends) && !asks.WouldBlockRead?
    ensures var r := Relay(replies, sends, queued, asks); r.Waiting? || r.Full? ==> !r.asks.WouldBlockRead?
    decreases |replies|
  {
    if replies != [] {
      if replies[0].ReadInterrupted? {
        RelayStaysPlain(replies[1..], sends, queued, asks);
      } else if replies[0].Data? {
        PushStaysPlain(sends, queued + |replies[0].data|);
        match Push(sends, queued + |replies[0].data|)
        case Drained(rest) => RelayStaysPlain(replies[1..], rest, 0, Ok);
        case Stuck(rest, left, now) => RelayStaysPlain(replies[1..], rest, left, now);
        case Gone(_) =>
      }
    }
  }

  /** On a plain transport pump_write forgets nothing. */
  lemma PlainForgetsNothing(m: Mouth)
    requires PlainSends(m.sends)
    ensures !Forgets(m)
  {
    PushStaysPlain(m.sends, m.queued);
    RelayStaysPlain(m.replies, Push(m.sends, m.queued).rest, 0, Ok);
  }

  lemma {:induction false} RelayGoesOn(replies: seq<Read>, sends: seq<Send>, queued: nat, asks: IoStatus)
    requires GoesOn(replies)
    ensures !Relay(replies, sends, queued, asks).Finished?
    decreases |replies|
  {
    if replies != [] {
      if replies[0].ReadInterrupted? {
        RelayGoesOn(replies[1..], sends, queued, asks);
      } else if replies[0].Data? {
        match Push(sends, queued + |replies[0].data|)
        case Drained(rest) => RelayGoesOn(replies[1..], rest, 0, Ok);
        case Stuck(rest, left, now) => RelayGoesOn(replies[1..], rest, left, now);
        case Gone(_) =>
      }
    }
  }

  lemma UnendedIsNotCutShort(m: Mouth)
    requires GoesOn(m.replies)
    ensures !CutsShort(m)
  {
    RelayGoesOn(m.replies, Push(m.sends, m.queued).rest, 0, Ok);
  }

  // ---- how reading ends, told by its outcomes ----

  /** A linked pair reads until it would block, but for a pause, which more than 256 KiB queued cause in the middle of the
      body, and the end of the client's bytes after it. What has arrived counts as body as far as body is missing. */
  predicate LinkedReads(recvs: seq<Recv>, remaining: nat, r: Reading)
    requires r.Linked?
  {
    && Pending(recvs, r.rest)
    && r.remaining == (if Arrived(Used(recvs, r.rest)) < remaining then remaining - Arrived(Used(recvs, r.rest)) else 0)
    && if r.paused then BytesOnly(recvs, r.rest) && r.queued > 262144 && r.remaining > 0
       else if r.eof then ReadToEnd(recvs, r.rest) && r.remaining == 0
       else ReadOut(recvs, r.rest)
  }

  /** The client breaks off: its transport fails, or its bytes end before so many have arrived. */
  predicate BreaksOff(recvs: seq<Recv>, missing: nat) {
    exists k: nat :: k < |recvs| && (StopsAt(recvs, k, Error) || (StopsAt(recvs, k, Closed) && Arrived(recvs[..k]) < missing))
  }

  lemma BreaksOffLater(recvs: seq<Recv>, missing: nat)
    requires recvs != [] && recvs[0].Got?
    requires var n := |recvs[0].data|; BreaksOff(recvs[1..], if n < missing then missing - n else 0)
    ensures BreaksOff(recvs, missing)
  {
    var n := |recvs[0].data|;
    var later, less := recvs[1..], if n < missing then missing - n else 0;
    var k: nat :| StopsAt(later, k, Error) || (StopsAt(later, k, Closed) && Arrived(later[..k]) < less);
    hide StopsAt, Arrived;
    if StopsAt(later, k, Error) {
      StopsLater(recvs, k, Error);
    } else {
      StopsLater(recvs, k, Closed);
    }
  }

  predicate PullIs(recvs: seq<Recv>, remaining: nat, r: Reading) {
    && (r.Gone? ==> BreaksOff(recvs, remaining))
    && (r.Linked? ==> LinkedReads(recvs, remaining, r))
    && (r.Cut? ==> BytesOnly(recvs, r.rest) && Arrived(Used(recvs, r.rest)) < remaining)
    && (r.LastLost? ==> BytesOnly(recvs, r.rest) && Arrived(Used(recvs, r.rest)) >= remaining > 0)
  }

  lemma PullIsLater(recvs: seq<Recv>, remaining: nat, r: Reading)
    requires recvs != [] && recvs[0].Got?
    requires var n := |recvs[0].data|; PullIs(recvs[1..], if n < remaining then remaining - n else 0, r)
    requires r.LastLost? ==> remaining > 0
    ensures PullIs(recvs, remaining, r)
  {
    OneRecv(recvs);
    if r.Linked? || r.Cut? || r.LastLost? {
      BytesFirst(recvs, recvs[1..], r.rest);
    }
    if r.Gone? {
      BreaksOffLater(recvs, remaining);
    }
    hide Arrived, Used, Pending, ReadOut, BytesOnly, ReadToEnd, BreaksOff;
  }

  lemma {:induction false} PullReads(recvs: seq<Recv>, writes: seq<Write>, connected: bool, queued: nat, remaining: nat)
    ensures PullIs(recvs, remaining, Pull(recvs, writes, connected, queued, remaining))
    decreases |recvs|
  {
    hide WriteLeft, WriteRest, WriteFails, ReadOut, BytesOnly, ReadToEnd, StopsAt, Used, Pending;
    var r := Pull(recvs, writes, connected, queued, remaining);
    if recvs == [] {
      NoRecv(recvs);
    } else if recvs[0].NotGot? {
      OneRecv(recvs);
    } else {
      OneRecv(recvs);
      var later, n := recvs[1..], Min(|recvs[0].data|, remaining);
      NoRecv(later);
      if remaining == 0 {
        PullSurplus(recvs, writes, connected, queued);
        PullReads(later, writes, connected, queued, 0);
        PullIsLater(recvs, remaining, r);
      } else {
        PullData(recvs, writes, connected, queued, remaining);
        var left := if connected then WriteLeft(writes, queued + n) else queued + n;
        var rest := if connected then WriteRest(writes, queued + n) else writes;
        hide Pull, Arrived, BreaksOff;
        if r == Pull(later, rest, connected, left, remaining - n) {
          PullReads(later, rest, connected, left, remaining - n);
          PullIsLater(recvs, remaining, r);
        }
      }
    }
  }

  /** A client without a backend is read until that would block, or its bytes end once its request is through; it is closed
      if its transport fails, or its bytes end before. */
  predicate DiscardIs(recvs: seq<Recv>, through: bool, spent: Spent) {
    match spent
    case Stopped(rest, eof) => if eof then through && ReadToEnd(recvs, rest) else ReadOut(recvs, rest)
    case Shut => exists k: nat :: k < |recvs| && (StopsAt(recvs, k, Error) || (StopsAt(recvs, k, Closed) && !through))
  }

  lemma {:induction false} DiscardReads(recvs: seq<Recv>, through: bool)
    ensures DiscardIs(recvs, through, Discard(recvs, through))
  {
    if recvs == [] {
      NoRecv(recvs);
    } else {
      OneRecv(recvs);
      if recvs[0].Got? {
        DiscardReads(recvs[1..], through);
        var spent := Discard(recvs, through);
        if spent.Stopped? {
          BytesFirst(recvs, recvs[1..], spent.rest);
        } else {
          var k: nat :| StopsAt(recvs[1..], k, Error) || (StopsAt(recvs[1..], k, Closed) && !through);
          StopsLater(recvs, k, if StopsAt(recvs[1..], k, Error) then Error else Closed);
        }
      }
    }
  }

  /** How reading ends, whatever it starts from. */
  predicate ReadsAs(recvs: seq<Recv>, r: Reading) {
    match r
    case Linked(rest, _, queued, remaining, paused, eof, _) =>
      if paused then BytesOnly(recvs, rest) && queued > 262144 && remaining > 0
      else if eof then ReadToEnd(recvs, rest) && remaining == 0
      else ReadOut(recvs, rest)
    case Unfinished(rest) => ReadOut(recvs, rest)
    case Made(_, rest) => BytesOnly(recvs, rest)
    case Unregistered(_, rest) => BytesOnly(recvs, rest)
    case Cut(rest) => BytesOnly(recvs, rest)
    case LastLost(rest) => BytesOnly(recvs, rest)
    case Loose(spent, state) => spent.Stopped? ==> if spent.eof then ReadToEnd(recvs, spent.rest) else ReadOut(recvs, spent.rest)
    case Gone => exists k: nat :: k < |recvs| && (StopsAt(recvs, k, Error) || StopsAt(recvs, k, Closed))
    case Deaf => true
  }

  lemma ReadsLater(recvs: seq<Recv>, r: Reading)
    requires recvs != [] && recvs[0].Got? && ReadsAs(recvs[1..], r)
    ensures ReadsAs(recvs, r)
  {
    OneRecv(recvs);
    match r
    case Gone =>
      var k: nat :| StopsAt(recvs[1..], k, Error) || StopsAt(recvs[1..], k, Closed);
      StopsLater(recvs, k, if StopsAt(recvs[1..], k, Error) then Error else Closed);
    case Deaf =>
    case Loose(spent, _) => if spent.Stopped? { BytesFirst(recvs, recvs[1..], spent.rest); }
    case Linked(rest, _, _, _, _, _, _) => BytesFirst(recvs, recvs[1..], rest);
    case Unfinished(rest) => BytesFirst(recvs, recvs[1..], rest);
    case Made(_, rest) => BytesFirst(recvs, recvs[1..], rest);
    case Unregistered(_, rest) => BytesFirst(recvs, recvs[1..], rest);
    case Cut(rest) => BytesFirst(recvs, recvs[1..], rest);
    case LastLost(rest) => BytesFirst(recvs, recvs[1..], rest);
  }

  lemma {:induction false} HeadReads(p: Pair, recvs: seq<Recv>, text: string, writes: seq<Write>)
    ensures ReadsAs(recvs, p.FromHead(recvs, text, writes))
    decreases |recvs|
  {
    if recvs == [] {
      NoRecv(recvs);
    } else {
      OneRecv(recvs);
      if recvs[0].Got? {
        var later, more := recvs[1..], text + recvs[0].data;
        var v := p.parse(more);
        NoRecv(later);
        if p.Reply(v, |more|).None? {
          if v.Incomplete? {
            HeadReads(p, later, more, writes);
          } else if !p.opening.NotRegistered? && v.Parsed? && v.headLen <= |more| {
            PullReads(later, writes, false, p.FirstQueued(v, |more|), p.FirstRemaining(v, |more|));
          }
        }
        ReadsLater(recvs, p.AfterText(more, later, writes));
      }
    }
  }

  /** After a callback an open client that is neither paused nor at the end of its bytes has been read until that would have
      blocked; a client that is found to be at the end has been read up to there. */
  ghost predicate ReadEnough(p: Pair, s: Io, wasPaused: bool, wasEof: bool)
    reads p
  {
    !p.closed && p.handshakeDone ==>
      && (!p.readPaused && !p.clientEof && !wasPaused ==> ReadOut(s.recvs, p.recvs))
      && (p.clientEof && !wasPaused && !wasEof && !p.readPaused ==> ReadToEnd(s.recvs, p.recvs))
      && (p.readPaused && p.backend && !wasPaused && !wasEof ==> BytesOnly(s.recvs, p.recvs) && |p.bOut| > 262144)
  }

  /** Where reading starts is where the last callback left it: paused or at the end, or at the next recv. */
  predicate ReadsFrom(recvs: seq<Recv>, r: Reading, paused: bool, eof: bool) {
    if paused || eof then
      && (r.Linked? ==> r.rest == recvs && r.paused == paused && r.eof == eof)
      && (r.Loose? ==> r.spent == Stopped(recvs, eof)) && (r.Linked? || r.Loose? || r.Deaf?)
    else ReadsAs(recvs, r)
  }

  /** A client that is in its head phase is read. */
  lemma HeadIsRead(p: Pair)
    requires p.Inv()
    ensures p.state == ReadingHead ==> !p.readPaused && !p.clientEof
  {
    hide Pair.Counted, Pair.Phased, Pair.Throttled, Pair.Owned, Pair.ReceivedAll, Pair.Carrying, Pair.Queued, Pair.WritesWait;
  }

  lemma ReadsOfAre(p: Pair, s: Io)
    requires p.state == ReadingHead ==> !p.readPaused && !p.clientEof
    ensures ReadsFrom(s.recvs, p.ReadsOf(s), p.readPaused, p.clientEof)
  {
    hide Discard, Pull, Pair.FromHead;
    PullReads(s.recvs, s.writes, p.connected, |p.bOut|, p.bodyRemaining);
    HeadReads(p, s.recvs, p.inBuf, s.writes);
    DiscardReads(s.recvs, p.state != StreamingUp);
  }

  lemma AdriftReads(p: Pair, s: Io, r: Reading, m: Mouth)
    requires ReadsAs(s.recvs, r) && Ends(r) && AdriftOf(r, m).Some? && !p.closed
    requires var a := AdriftOf(r, m).value; p.Drifted(Discard(a.rest, a.state != StreamingUp), a.state, a.sends, a.left)
    ensures !p.clientEof ==> ReadOut(s.recvs, p.recvs)
    ensures p.clientEof ==> ReadToEnd(s.recvs, p.recvs)
  {
    hide Discard, Push, ReadOut, ReadToEnd;
    var a := AdriftOf(r, m).value;
    DiscardReads(a.rest, a.state != StreamingUp);
    var spent := Discard(a.rest, a.state != StreamingUp);
    if spent.Stopped? {
      StillPending(a.rest, spent.rest, spent.eof);
      BytesFirst(s.recvs, a.rest, spent.rest);
    }
  }

  lemma StillPending(recvs: seq<Recv>, rest: seq<Recv>, eof: bool)
    requires if eof then ReadToEnd(recvs, rest) else ReadOut(recvs, rest)
    ensures Pending(recvs, rest)
  {
  }

  lemma DriveReadsEnough(p: Pair, s: Io, r: Reading, m: Mouth, f: Faults, wasPaused: bool, wasEof: bool)
    requires p.Driven(r, m, f) && ReadsFrom(s.recvs, r, wasPaused, wasEof)
    requires r.Deaf? ==> p.closed || !p.handshakeDone
    requires p.state == ReadingHead ==> !p.readPaused && !p.clientEof
    ensures ReadEnough(p, s, wasPaused, wasEof)
  {
    hide Discard, Push, Relay, ReadOut, ReadToEnd, BytesOnly, AdriftOf;
    if Ends(r) && AdriftOf(r, m).Some? && !p.closed && !wasPaused && !wasEof {
      AdriftReads(p, s, r, m);
    }
  }

  /** A backend that is still linked and not paused has been read until that would have blocked; one that is paused, until more
      than 256 KiB were queued; one that is gone has ended its response, or a read has failed, or the client is gone. */
  ghost predicate RelayedEnough(p: Pair, replies: seq<Read>, sends: seq<Send>)
    reads p
  {
    if p.backend then
      && Pending(replies, p.replies)
      && var used := Used(replies, p.replies);
         if p.bReadPaused then ReadsGoOn(used) && |p.out| > 262144
         else GoOnUntil(used, ReadAgain) || (ReadsGoOn(used) && p.replies == [])
    else
      || BackendFails(replies) || SendsGone(sends)
      || (Pending(replies, p.replies) && GoOnUntil(Used(replies, p.replies), Eof))
  }

  lemma RelayTells(p: Pair, replies: seq<Read>, sends: seq<Send>, queued: nat, asks: IoStatus, answered: bool)
    requires p.RelayedTo(Relay(replies, sends, queued, asks), answered)
    ensures RelayedEnough(p, replies, sends)
  {
    RelayExactly(replies, sends, queued, asks);
    hide Relay, Used, Pending, ReadsGoOn, GoOnUntil, BackendFails, SendsGone, Taken, Brought;
  }

  // ---- runs ----

  /** What has gone wrong so far. */
  datatype Health = Health(faults: Faults, cutShort: bool, forgotten: bool)

  ghost function HealthOf(p: Pair): Health
    reads p
  {
    Health(p.faults, p.cutShort, !p.closed && p.Forgotten())
  }

  /** What had not gone wrong before has not gone wrong now, unless the script holds something that leads to it. */
  ghost predicate StillWell(p: Pair, s: Io, was: Health)
    reads p
  {
    && (NeverFails(s.writes) && !p.opening.NotRegistered? ==> p.faults == was.faults)
    && (GoesOn(s.replies) ==> p.cutShort == was.cutShort)
    && (PlainSends(s.sends) && HealthOf(p).forgotten ==> was.forgotten)
  }

  /** The logs have grown by what the share brought. */
  ghost predicate LogsGrown(p: Pair, was: Logs, share: Share)
    reads p
  {
    && p.received == was.received + AllGot(share.recvs)
    && p.fetched == was.fetched + AllRead(share.replies)
    && was.read <= p.read && was.taken <= p.taken && was.handed <= p.handed && was.written <= p.written
  }

  /** The used parts of a script. */
  ghost function SharedBy(p: Pair, s: Io, was: Logs): (share: Share)
    requires p.LoggedSince(s, was)
    reads p
  {
    Share(Used(s.recvs, p.recvs), Used(s.replies, p.replies))
  }

  lemma ShareIsIn(p: Pair, s: Io, was: Logs, e: Event)
    requires p.LoggedSince(s, was) && ScriptOf(e) == s
    ensures ShareOf(SharedBy(p, s, was), e) && LogsGrown(p, was, SharedBy(p, s, was))
  {
    hide AllGot, AllRead;
  }

  /** A drive keeps the pair well unless its script holds something that does not. */
  lemma DriveStaysWell(p: Pair, s: Io, r: Reading, m: Mouth, was: Health)
    requires p.Driven(r, m, was.faults) && m.sends == s.sends && m.replies == s.replies && m.cutShort == was.cutShort
    requires NeverFails(s.writes) && !p.opening.NotRegistered? ==> !r.Cut? && !r.LastLost? && !r.Unregistered?
    ensures StillWell(p, s, was)
  {
    if GoesOn(s.replies) {
      UnendedIsNotCutShort(m);
    }
    if PlainSends(s.sends) {
      PlainForgetsNothing(m);
    }
  }

  lemma ReadsSurvive(p: Pair, s: Io)
    requires p.Sound() && NeverFails(s.writes) && !p.opening.NotRegistered?
    ensures var r := p.ReadsOf(s); !r.Cut? && !r.LastLost? && !r.Unregistered?
  {
    PullSurvives(s.recvs, s.writes, p.connected, |p.bOut|, p.bodyRemaining);
    HeadSurvives(p, s.recvs, p.inBuf, s.writes);
  }

  method ServeClient(p: Pair, s: Io) returns (ghost share: Share)
    requires p.Sound() && p.Inv()
    modifies p
    ensures p.Inv() && ShareOf(share, ClientReady(s)) && LogsGrown(p, old(p.LogsNow()), share) && StillWell(p, s, old(HealthOf(p)))
    ensures p.connected == old(p.connected) && p.Driven(old(p.ReadsOf(s)), old(p.MouthOf(s)), old(p.faults))
    ensures ReadEnough(p, s, old(p.readPaused), old(p.clientEof))
  {
    hide Pair.Steady, Pair.Driven, Pair.LoggedSince, Pair.Recomputed, Pair.ReadFresh, Pair.Greeting, Pair.Sound, StillWell, LogsGrown, ShareOf,
      NeverFails, ReadsFrom, ReadEnough;
    ghost var paused, eof, faults := p.readPaused, p.clientEof, p.faults;
    HeadIsRead(p);
    ReadsOfAre(p, s);
    ghost var was, well, r, m := p.LogsNow(), HealthOf(p), p.ReadsOf(s), p.MouthOf(s);
    if NeverFails(s.writes) && !p.opening.NotRegistered? {
      ReadsSurvive(p, s);
    }
    p.OnClientReady(s);
    ShareIsIn(p, s, was, ClientReady(s));
    DriveStaysWell(p, s, r, m, well);
    HeadIsRead(p);
    DriveReadsEnough(p, s, r, m, faults, paused, eof);
    share := SharedBy(p, s, was);
  }

  method ServeClientGone(p: Pair)
    requires p.Inv()
    modifies p
    ensures p.Inv() && ShareOf(NOTHING, ClientGone) && LogsGrown(p, old(p.LogsNow()), NOTHING)
    ensures p.closed && StillWell(p, ScriptOf(ClientGone), old(HealthOf(p)))
  {
    hide Pair.Steady, Pair.Recomputed, Pair.ReadFresh, Pair.Greeting, Pair.BackendArmed;
    p.OnClientGone();
  }

  method ServeBatchEnd(p: Pair)
    requires p.Inv()
    modifies p
    ensures p.Inv() && ShareOf(NOTHING, BatchEnd) && LogsGrown(p, old(p.LogsNow()), NOTHING)
    ensures StillWell(p, ScriptOf(BatchEnd), old(HealthOf(p)))
    ensures p.closing == {} && (p.clientAlive <==> !p.closed) && (p.backendAlive <==> p.backend)
  {
    hide Pair.Inv;
    p.ProcessPendingClose();
  }

  method ServeBackend(p: Pair, s: Io) returns (ghost share: Share)
    requires p.Inv() && p.backendAlive
    modifies p
    ensures p.Inv() && ShareOf(share, BackendReadable(s)) && LogsGrown(p, old(p.LogsNow()), share)
    ensures StillWell(p, s, old(HealthOf(p)))
    ensures ReadableHandled(p, s)
  {
    hide Pair.Inv, Pair.LoggedSince, LogsGrown, ShareOf, NeverFails, GoesOn, PlainSends, Silent, Pair.RelayedTo, Relay, RelayedEnough;
    ghost var was := p.LogsNow();
    ghost var flows, queued, asks, answered := p.backend && !p.bReadPaused, |p.out|, p.Asks(), p.responded;
    p.OnBackendReadable(s);
    if flows {
      RelayTells(p, s.replies, s.sends, queued, asks, answered);
    }
    ShareIsIn(p, s, was, BackendReadable(s));
    share := SharedBy(p, s, was);
  }

  /** A pair that has lost its backend remembers what its last send waits for. */
  lemma LostStaysWell(p: Pair, s: Io, why: string, stand: Stance, was: Health)
    requires p.LinkLost(why, stand) && p.faults == was.faults && stand.cutShort == was.cutShort
    ensures StillWell(p, s, was)
  {
  }

  /** A client that has lost its backend is closed if a byte of the response had come, and is told why if not. */
  ghost predicate LossTold(p: Pair, why: string, begun: bool)
    reads p
  {
    !p.backend && if begun then p.closed && p.made.None? else p.made == Some(Responses.Upstream(why))
  }

  lemma LossIsTold(p: Pair, why: string, stand: Stance, begun: bool)
    requires p.LinkLost(why, stand) && stand.made.None? && (stand.responded <==> begun)
    ensures LossTold(p, why, begun)
  {
  }

  lemma BytesRespond(p: Pair)
    requires p.Inv()
    ensures p.backend ==> p.made.None? && (p.responded <==> |p.read| > 0)
    ensures p.backendAlive && BackendFd !in p.closing ==> p.backend
  {
    hide Pair.Counted, Pair.Phased, Pair.Throttled, Pair.ReceivedAll, Pair.FetchedAll, Pair.Excused;
  }

  lemma ResumedSurvive(p: Pair, s: Io)
    requires NeverFails(s.writes)
    ensures var r := p.ResumedOn(s); !r.Cut? && !r.LastLost? && !r.Unregistered?
  {
    NothingFails(s.writes, |p.bOut|);
    PullSurvives(s.recvs, WriteRest(s.writes, |p.bOut|), true, WriteLeft(s.writes, |p.bOut|), p.bodyRemaining);
  }

  method ServeWrites(p: Pair, s: Io, connects: bool) returns (ghost share: Share)
    requires p.Sound() && p.Inv() && p.backendAlive && BackendFd !in p.closing
    modifies p
    ensures p.Inv() && ShareOf(share, BackendWritable(s, connects)) && LogsGrown(p, old(p.LogsNow()), share)
    ensures StillWell(p, s, old(HealthOf(p))) && WritableHandled(p, s, connects)
  {
    hide Pair.Inv, Pair.LoggedSince, Pair.Sound, Pair.Driven, Pair.LinkLost, LogsGrown, ShareOf, StillWell, NeverFails, WriteFails, WriteLeft,
      LossTold;
    ghost var was, well, r, m, stand := p.LogsNow(), HealthOf(p), p.ResumedOn(s), p.MouthOf(s), p.StandOf(s);
    ghost var lost, resumes := WriteFails(s.writes, |p.bOut|), p.ResumesOn(s);
    if NeverFails(s.writes) {
      ResumedSurvive(p, s);
    }
    BytesRespond(p);
    ghost var begun := |p.read| > 0;
    p.OnBackendWritable(s, connects);
    ShareIsIn(p, s, was, BackendWritable(s, connects));
    share := SharedBy(p, s, was);
    if !p.connected {
      LossIsTold(p, CONNECT_FAILED, stand, begun);
      LostStaysWell(p, s, CONNECT_FAILED, stand, well);
    } else if lost {
      LossIsTold(p, WRITE_FAILED, stand, begun);
      LostStaysWell(p, s, WRITE_FAILED, stand, well);
    } else if resumes {
      DriveStaysWell(p, s, r, m, well);
    } else {
      StandStaysWell(p, s, stand, well);
    }
  }

  lemma StandStaysWell(p: Pair, s: Io, stand: Stance, was: Health)
    requires p.Stand() == stand && was == StandHealth(stand)
    ensures StillWell(p, s, was)
  {
  }

  function StandHealth(s: Stance): Health {
    Health(s.faults, s.cutShort,
           !s.closed && |s.out| > 0 && s.lastSend.WouldBlockRead? && s.writeBlock == Ok
           && (s.readPaused || s.clientEof || s.readBlock.WouldBlockWrite?))
  }

  method ServeBroken(p: Pair, s: Io, why: string) returns (ghost share: Share)
    requires p.Inv() && p.backendAlive
    modifies p
    ensures p.Inv() && ShareOf(share, BackendBroken(s, why)) && LogsGrown(p, old(p.LogsNow()), share)
    ensures StillWell(p, s, old(HealthOf(p)))
    ensures old(p.backend) ==> p.LinkLost(why, old(p.StandOf(s))) && LossTold(p, why, |old(p.read)| > 0)
  {
    hide Pair.Inv, Pair.LoggedSince, LogsGrown, ShareOf, NeverFails, GoesOn, PlainSends, Pair.LinkLost, LossTold;
    ghost var was, well, stand, linked := p.LogsNow(), HealthOf(p), p.StandOf(s), p.backend;
    BytesRespond(p);
    ghost var begun := |p.read| > 0;
    p.OnBackendBroken(s, why);
    ShareIsIn(p, s, was, BackendBroken(s, why));
    share := SharedBy(p, s, was);
    if linked {
      LossIsTold(p, why, stand, begun);
      LostStaysWell(p, s, why, stand, well);
    }
  }

  /** What on_writable of the backend connection leads to. */
  twostate predicate WritableHandled(p: Pair, s: Io, connects: bool)
    reads p
  {
    && p.connected == (old(p.connected) || connects)
    && (!p.connected ==> p.LinkLost(CONNECT_FAILED, old(p.StandOf(s))) && LossTold(p, "connect failed", |old(p.read)| > 0))
    && (p.connected && WriteFails(s.writes, |old(p.bOut)|) ==>
          p.LinkLost(WRITE_FAILED, old(p.StandOf(s))) && LossTold(p, "backend write failed", |old(p.read)| > 0))
    && (p.connected && !WriteFails(s.writes, |old(p.bOut)|) ==>
          if old(p.ResumesOn(s)) then p.Driven(old(p.ResumedOn(s)), old(p.MouthOf(s)), old(p.faults))
          else p.backend && |p.bOut| == WriteLeft(s.writes, |old(p.bOut)|) && p.Stand() == old(p.StandOf(s)))
  }

  /** Every event leads to what its callback does. */
  twostate predicate Handled(p: Pair, e: Event)
    reads p
  {
    match e
    case ClientReady(s) =>
      old(p.clientAlive) ==>
        && p.Driven(old(p.ReadsOf(s)), old(p.MouthOf(s)), old(p.faults))
        && ReadEnough(p, s, old(p.readPaused), old(p.clientEof))
    case ClientGone => old(p.clientAlive) ==> p.closed
    case BackendReadable(s) => old(p.backendAlive) ==> ReadableHandled(p, s)
    case BackendWritable(s, connects) => old(p.backendAlive && BackendFd !in p.closing) ==> WritableHandled(p, s, connects)
    case BackendBroken(s, why) => old(p.backendAlive && p.backend) ==> p.LinkLost(why, old(p.StandOf(s))) && LossTold(p, why, |old(p.read)| > 0)
    case BatchEnd => p.closing == {} && (p.clientAlive <==> !p.closed) && (p.backendAlive <==> p.backend)
  }

  /** What on_readable of the backend connection leads to. */
  twostate predicate ReadableHandled(p: Pair, s: Io)
    reads p
  {
    && (old(p.backend && !p.bReadPaused) ==>
          && p.RelayedTo(Relay(s.replies, s.sends, |old(p.out)|, old(p.Asks())), old(p.responded))
          && RelayedEnough(p, s.replies, s.sends))
    && (old(p.backend) && !p.closed ==> p.read == p.fetched)
  }

  lemma NothingHappens(p: Pair, e: Event)
    ensures ShareOf(NOTHING, e) && LogsGrown(p, p.LogsNow(), NOTHING) && StillWell(p, ScriptOf(e), HealthOf(p))
  {
  }

  /** One event of the loop. */
  method OneEvent(p: Pair, e: Event) returns (ghost share: Share)
    requires p.Sound() && p.Inv()
    modifies p
    ensures p.Inv() && ShareOf(share, e) && LogsGrown(p, old(p.LogsNow()), share) && StillWell(p, ScriptOf(e), old(HealthOf(p)))
    ensures Handled(p, e)
  {
    hide Pair.Inv, Pair.Sound, NeverFails, GoesOn, PlainSends, Pair.Driven, Pair.LinkLost, LossTold, ReadableHandled, WritableHandled, ReadEnough,
      LogsGrown, StillWell, ShareOf;
    NothingHappens(p, e);
    share := NOTHING;
    match e
    case ClientReady(script) =>
      if p.clientAlive {
        share := ServeClient(p, script);
      }
    case ClientGone =>
      if p.clientAlive {
        ServeClientGone(p);
      }
    case BackendReadable(script) =>
      if p.backendAlive {
        share := ServeBackend(p, script);
      }
    case BackendWritable(script, connects) =>
      if p.backendAlive && BackendFd !in p.closing {
        share := ServeWrites(p, script, connects);
      }
    case BackendBroken(script, why) =>
      if p.backendAlive {
        share := ServeBroken(p, script, why);
      }
    case BatchEnd =>
      ServeBatchEnd(p);
  }

  lemma LogsGrowOn(p: Pair, was: Logs, now: Logs, shares: seq<Share>, share: Share)
    requires LogsGrown(p, now, share)
    requires now.received == was.received + FromClient(shares) && now.fetched == was.fetched + FromBackend(shares)
    requires was.read <= now.read && was.taken <= now.taken && was.handed <= now.handed && was.written <= now.written
    ensures p.received == was.received + FromClient(shares + [share]) && p.fetched == was.fetched + FromBackend(shares + [share])
    ensures was.read <= p.read && was.taken <= p.taken && was.handed <= p.handed && was.written <= p.written
  {
    var all := shares + [share];
    assert all[..|all| - 1] == shares && all[|all| - 1] == share;
  }

  /** Any run of events, each with any finite series of outcomes, keeps the invariant. What was logged as received
      and fetched is what a first part of each series brought, in order, and no log ever loses a byte. Without a
      failing write or registration no forward goes wrong, without the end of a response none is cut short, and on a
      plain transport no wanted direction goes unwatched. */
  method Serve(p: Pair, events: seq<Event>) returns (ghost shares: seq<Share>)
    requires p.Sound() && p.Inv()
    modifies p
    ensures p.Inv()
    ensures |shares| == |events| && forall k :: 0 <= k < |events| ==> ShareOf(shares[k], events[k])
    ensures p.received == old(p.received) + FromClient(shares)
    ensures p.fetched == old(p.fetched) + FromBackend(shares)
    ensures old(p.read) <= p.read && old(p.taken) <= p.taken && old(p.handed) <= p.handed && old(p.written) <= p.written
    ensures !p.opening.NotRegistered? && (forall k :: 0 <= k < |events| ==> WritesWork(events[k])) ==> p.faults == old(p.faults)
    ensures (forall k :: 0 <= k < |events| ==> NoEnd(events[k])) ==> p.cutShort == old(p.cutShort)
    ensures (forall k :: 0 <= k < |events| ==> Plain(events[k])) && HealthOf(p).forgotten ==> old(HealthOf(p)).forgotten
  {
    hide Pair.Inv, Pair.Sound, NeverFails, GoesOn, PlainSends, ShareOf, Handled, LogsGrown;
    shares := [];
    ghost var was := p.LogsNow();
    for i := 0 to |events|
      invariant p.Inv()
      invariant |shares| == i && forall k :: 0 <= k < i ==> ShareOf(shares[k], events[k])
      invariant p.received == was.received + FromClient(shares) && p.fetched == was.fetched + FromBackend(shares)
      invariant was.read <= p.read && was.taken <= p.taken && was.handed <= p.handed && was.written <= p.written
      invariant !p.opening.NotRegistered? && (forall k :: 0 <= k < i ==> WritesWork(events[k])) ==> p.faults == old(p.faults)
      invariant (forall k :: 0 <= k < i ==> NoEnd(events[k])) ==> p.cutShort == old(p.cutShort)
      invariant (forall k :: 0 <= k < i ==> Plain(events[k])) && HealthOf(p).forgotten ==> old(HealthOf(p)).forgotten
    {
      ghost var now := p.LogsNow();
      ghost var share := OneEvent(p, events[i]);
      LogsGrowOn(p, was, now, shares, share);
      shares := shares + [share];
    }
  }

  // ---- what the invariant says ----

  /** Between callbacks, every direction that is not paused and has work left would block at its last
      call, and what it waits for is watched. The one exception are the states in `Forgotten`: there the
      mask has changed since the client was last called, and it watches writes, so that the kernel
      reports the socket as soon as it can be written; `AskAgain` says what that call does. `Driven` says
      of a callback, from its start, whether it leads to such a state. */
  lemma NoLostWakeup(p: Pair)
    requires p.Inv() && !p.closed && p.handshakeDone
    ensures !p.readPaused && !p.clientEof ==> Blocked(p.heard.lastRecv) && Watches(p.interest, p.heard.lastRecv)
    ensures |p.out| > 0 ==> Blocked(p.lastSend) && (Watches(p.interest, p.lastSend) <==> !p.Forgotten())
    ensures p.Forgotten() ==> p.rearmed && p.interest == Mask(false, true)
    ensures p.backend && p.connected && !p.bReadPaused ==> p.readWaits && p.bInterest.input
    ensures p.backend && p.connected && |p.bOut| > 0 ==> p.writeWaits && p.bInterest.output
    ensures p.backend && !p.connected ==> p.bInterest == Mask(false, true)
  {
    hide Pair.Contents, Pair.FetchedAll, Pair.UpRest, Pair.OnwardGrows;
  }

  /** And nothing else is watched: a client that is not to be read is watched for input only if a send has asked for it, one
      with nothing queued for output only if a recv has; a paused backend is not watched for input, one with nothing queued
      not for output. */
  lemma NothingElseIsWatched(p: Pair)
    requires p.Inv() && !p.closed && p.handshakeDone
    ensures p.interest.input && (p.readPaused || p.clientEof) ==> |p.out| > 0 && p.lastSend == WouldBlockRead
    ensures p.interest.output && |p.out| == 0 ==> !p.readPaused && !p.clientEof && p.heard.lastRecv == WouldBlockWrite
    ensures p.backend && p.connected ==> (p.bInterest.input <==> !p.bReadPaused) && (p.bInterest.output <==> |p.bOut| > 0)
  {
    hide Pair.Contents, Pair.FetchedAll, Pair.UpRest, Pair.OnwardGrows;
  }

  /** A paused side always has an armed event that leads to its resumption, so the two pauses cannot block each other. */
  lemma PausesAreArmed(p: Pair)
    requires p.Inv() && p.backend
    ensures p.backendPaused == p.bReadPaused
    ensures p.readPaused ==>
              p.highWaterHit && p.bInterest.output && (if p.connected then LOW <= |p.bOut| && p.writeWaits else HIGH < |p.bOut|)
    ensures p.backendPaused ==>
              && |p.out| > 0 && Blocked(p.lastSend)
              && (Watches(p.interest, p.lastSend) || (p.Forgotten() && p.rearmed && p.interest.output))
  {
    hide Pair.Contents, Pair.FetchedAll, Pair.Counted, Pair.HeadKept, Pair.ReceivedAll, Pair.OnwardGrows;
  }

  lemma PastTheHead(p: Pair)
    requires p.Inv() && !p.closed && (p.state != ReadingHead || |p.out| > 0)
    ensures p.handshakeDone
  {
  }

  /** When a client that is forgotten is called again, the direction it waits for is watched after that, unless all
      that was queued has been taken and a resumed backend has filled the queue anew. */
  method AskAgain(p: Pair, s: Io) returns (ghost share: Share)
    requires p.Sound() && p.Inv() && !p.closed && p.Forgotten()
    modifies p
    ensures p.Inv() && ShareOf(share, ClientReady(s)) && LogsGrown(p, old(p.LogsNow()), share)
    ensures !p.closed && |p.out| > 0 && !Watches(p.interest, p.lastSend) ==>
              p.backend && old(p.backend && p.backendPaused) && Push(s.sends, |old(p.out)|).Drained?
  {
    hide Pair.Inv, Pair.Sound, Push, Relay, ShareOf, LogsGrown;
    share := ServeClient(p, s);
    if !p.closed && |p.out| > 0 {
      PastTheHead(p);
      NoLostWakeup(p);
    }
  }

  /** While the pair is linked, the bytes written to the backend and those queued for it are the
      rewritten head and the announced part of the body received so far. */
  lemma UploadConserved(p: Pair)
    requires p.Inv() && p.backend
    ensures p.received == p.head + p.body && p.head == p.request.source[..p.request.size]
    ensures p.written + p.bOut == p.upstream + p.body[..Min(p.request.length, |p.body|)]
    ensures p.bodyRemaining == p.request.length - Min(p.request.length, |p.body|)
  {
  }

  lemma RequestFacts(p: Pair)
    requires p.Inv() && p.backend
    ensures Forwardable(p.request) && p.Understood(p.request) && p.upstream == p.request.text
  {
    hide Pair.Flowing, Pair.Phased, Pair.Throttled, Pair.HeadKept, Pair.ReceivedAll, Forwardable;
  }

  /** A request goes to a backend only if it is not one of castle's own, announces its length at most once, with a valid
      number within the limit, names no transfer coding, and the router knows its last host and its path. */
  lemma OnlyTheWelcomeGo(p: Pair)
    requires p.Inv() && p.backend
    ensures var r := p.request;
            && p.parse(r.source) == Parsed(r.verb, r.path, r.headers, r.size)
            && !("/_castle/" <= r.path) && NoneCalled(r.headers, |r.headers|, CODING) && OnlyLength(r.headers, r.length)
            && (p.maxBody == 0 || r.length <= p.maxBody)
            && exists host: string :: LastCalled(r.headers, "HOST", host) && p.routed(host, r.path)
  {
    hide Pair.Inv, NoneCalled, OnlyLength, LastCalled, Forwardable;
    RequestFacts(p);
  }

  /** Castle answers itself only what deserves it, by the first of the tests that fails; and bytes of a head that no
      test has decided are those of an incomplete one. */
  lemma RefusalsAreDeserved(p: Pair)
    requires p.Inv()
    ensures p.inBuf <= p.received
    ensures p.made.Some? ==> p.Deserved(p.made.value, p.inBuf)
    ensures p.state == ReadingHead && !p.closed ==> p.inBuf == p.received && (p.inBuf == "" || p.parse(p.inBuf).Incomplete?)
  {
    hide Pair.Counted, Pair.Phased, Pair.Throttled, Pair.Owned, Pair.ReceivedAll, Pair.FetchedAll, Pair.Deserved;
  }

  /** A receiver that reads what has been written and queued sees the forwarded request, with the
      announced length as its only framing, and after it the body bytes that it frames. */
  lemma ForwardedRequestReadsBack(p: Pair)
    requires p.Inv() && p.backend
    requires Framing.WellFormed(p.request.verb, p.request.path, p.request.headers)
    ensures var r := p.request;
            var seen := Framing.ReadRequest(p.written + p.bOut);
            && p.parse(r.source) == Parsed(r.verb, r.path, r.headers, r.size) && p.received == r.source[..r.size] + p.body
            && seen == Framing.Seen(r.verb, r.path, "HTTP/1.1", Kept(r.headers, |r.headers|) + [CLOSE],
                                    p.body[..Min(r.length, |p.body|)])
            && Framing.BodyLength(seen.headers) == Some(r.length)
            && Framing.Ones(seen.headers, "CONNECTION") == [CLOSE]
  {
    hide Pair.Inv, Framing.ReadRequest, Framing.BodyLength, Framing.WellFormed;
    var r := p.request;
    UploadConserved(p);
    RequestFacts(p);
    Framing.ForwardedHeadReadsBack(r.verb, r.path, r.headers, p.body[..Min(r.length, |p.body|)]);
    Framing.FramingAgrees(r.headers, r.length);
  }

  /** The client gets a prefix of what was read from the backend, or of one made-up response, and never a blend. */
  lemma DownloadInOrder(p: Pair)
    requires p.Inv()
    ensures p.made.None? ==> p.taken + p.out == p.read && p.taken <= p.read <= p.fetched
    ensures p.made.Some? ==> p.read == "" && p.taken + p.out == Responses.Render(p.made.value)
    ensures p.backend ==> p.made.None? && p.read == p.fetched
  {
    hide Pair.UpRest;
  }

  /** Buffers stay bounded whatever the sizes of the bodies. */
  lemma BoundedMemory(p: Pair)
    requires p.Inv()
    ensures |p.inBuf| <= MAX_HEAD + CHUNK
    ensures p.backend ==> |p.bOut| <= HIGH + CHUNK
    ensures p.made.None? ==> |p.out| <= HIGH + CHUNK
  {
  }

  /** An open connection is reading its head, has its backend, or is draining a last response, exactly if it is
      not one of the orphans that forward_body or a failed registration leaves. */
  lemma OpenMeansProgress(p: Pair)
    requires p.Inv() && !p.closed
    ensures p.state == ReadingHead || p.backend || (p.state == Closing && |p.out| > 0) <==> !p.faults.orphaned
  {
  }

  /** The two pointers are set together, only between living connections, and nothing that is
      still wanted is about to be destroyed. */
  lemma LinksAreSound(p: Pair)
    requires p.Inv()
    ensures p.backend <==> p.peer
    ensures p.backend ==> p.backendAlive && p.clientAlive && ClientFd !in p.closing && BackendFd !in p.closing
    ensures p.backendAlive && !p.backend ==> BackendFd in p.closing
    ensures p.closed && p.clientAlive ==> ClientFd in p.closing
  {
  }

  // ---- runs that go wrong ----

  /** A parser for the runs below: forty bytes are a request with these headers. */
  function Forty(headers: seq<Header>): string -> Parse {
    (s: string) => if |s| < 40 then Incomplete else Parsed("POST", "/", headers, 40)
  }

  const HEAD: Chunk := "POST / HTTP/1.1\r\nAccept-Language: en\r\n\r\n"

  predicate Anywhere(host: string, path: string) {
    true
  }

  /** No body is announced, or one or two bytes. */
  predicate Small(headers: seq<Header>, length: nat) {
    if length == 0 then headers == [] else length <= 2 && headers == [Header("content-length", if length == 1 then "1" else "2")]
  }

  lemma NoBody()
    ensures Small([], 0)
  {
  }

  lemma NameFacts(a: string, b: string)
    requires |a| != |b|
    ensures SameName(a, a) && !SameName(a, b)
  {
    SameNameLetterwise(a, a);
    SameNameLetterwise(a, b);
  }

  lemma OneDigit(v: string)
    requires |v| == 1 && '0' <= v[0] <= '9'
    ensures ValidLength(v) && Decimal(v) == (v[0] - '0') as nat
  {
    assert v[..0] == "";
  }

  lemma SelectFromOne(h: Header, name: string)
    ensures Select([h], 1, name) == if Named(h, name) then [h] else []
  {
    assert Select([h], 0, name) == [];
  }

  lemma SmallIsAdmitted(headers: seq<Header>, length: nat)
    requires Small(headers, length)
    ensures Total(headers, |headers|) <= 20 && |headers| <= 1 && Announced(headers) == length
    ensures Select(headers, |headers|, "transfer-encoding") == []
    ensures var lengths := Select(headers, |headers|, "content-length");
            |lengths| <= 1 && (lengths != [] ==> ValidLength(lengths[0].value))
  {
    hide SameName, Decimal, ValidLength, Select;
    if length != 0 {
      var h := headers[0];
      NameFacts("content-length", "transfer-encoding");
      SelectFromOne(h, "content-length");
      SelectFromOne(h, "transfer-encoding");
      OneDigit(h.value);
    } else {
      NoHeaders("content-length");
      NoHeaders("transfer-encoding");
    }
  }

  lemma NoHeaders(name: string)
    ensures Select([], 0, name) == []
  {
  }

  /** What the first bytes lead to: the head is in, no body yet, and the client may have closed its side. */
  lemma FirstReading(p: Pair, headers: seq<Header>, length: nat, eof: bool)
    requires Small(headers, length) && (eof ==> length == 0)
    requires p.parse == Forty(headers) && p.maxBody == 0 && p.routed == Anywhere && !p.opening.OpenFailed?
    ensures var r := p.FromHead(Greeted(eof).recvs, "", []);
            if p.opening.NotRegistered? then r == Unregistered(if length > 0 then StreamingUp else Streaming, Greeted(eof).recvs[1..])
            else exists queued: nat :: r == Linked([], [], queued, length, false, eof, WouldBlockRead)
  {
    hide Print, Select;
    SmallIsAdmitted(headers, length);
    var recvs, v := Greeted(eof).recvs, Parsed("POST", "/", headers, 40);
    assert "" + HEAD == HEAD;
    assert recvs[1..] == if eof then [NotGot(IoStatus.Closed)] else [];
    assert p.parse(HEAD) == v;
    assert p.Reply(v, |HEAD|) == None;
    assert p.AfterText(HEAD, recvs[1..], []) == p.Joined(v, |HEAD|, recvs[1..], []);
    if !p.opening.NotRegistered? {
      assert p.FirstRemaining(v, |HEAD|) == length;
      var queued := p.FirstQueued(v, |HEAD|);
      assert p.Joined(v, |HEAD|, recvs[1..], []) == Pull(recvs[1..], [], false, queued, length);
      assert Pull(recvs[1..], [], false, queued, length) == Linked([], [], queued, length, false, eof, WouldBlockRead);
    }
  }

  /** The handshake is done at once, the head comes in one piece. */
  function Greeted(eof: bool): Io {
    Io([Ok], if eof then [Got(HEAD), NotGot(IoStatus.Closed)] else [Got(HEAD)], [], [], [])
  }

  /** A pair whose client has sent its request head. */
  method Accept(headers: seq<Header>, length: nat, opening: Opening, eof: bool) returns (p: Pair)
    requires Small(headers, length) && (eof ==> length == 0) && !opening.OpenFailed?
    ensures fresh(p) && p.Sound() && p.Inv() && p.opening == opening && !p.connected && !p.cutShort && !p.faults.undefinedRead
    ensures p.faults.orphaned <==> opening.NotRegistered?
    ensures opening.Opened? ==> p.backend && p.bodyRemaining == length && !p.readPaused && p.clientEof == eof && |p.out| == 0 && !p.responded
    ensures opening.NotRegistered? ==> !p.closed && p.state == (if length > 0 then StreamingUp else Streaming) && |p.out| == 0
  {
    hide Pair.Inv, Small, Print, Pair.FromHead, Select, Announced;
    SmallIsAdmitted(headers, length);
    p := new Pair(Forty(headers), Anywhere, opening, 0, true, "", "");
    FirstReading(p, headers, length, eof);
    ghost var share := ServeClient(p, Greeted(eof));
  }

  const QUIET := Io([], [], [], [], [])

  /** The backend has taken the connection, and nothing else has happened. */
  method Establish(headers: seq<Header>, length: nat, eof: bool) returns (p: Pair)
    requires Small(headers, length) && (eof ==> length == 0)
    ensures fresh(p) && p.Sound() && p.Inv() && p.backend && p.connected && !p.cutShort && p.faults == Faults(false, false)
    ensures p.bodyRemaining == length && !p.readPaused && p.clientEof == eof && |p.out| == 0 && !p.bReadPaused && !p.responded
  {
    hide Pair.Inv, Pair.Sound, Small;
    p := Accept(headers, length, Opened, eof);
    LinksAreSound(p);
    p.OnBackendWritable(QUIET, true);
    PausesAreArmed(p);
  }

  lemma ResetReads(queued: nat, remaining: nat)
    requires remaining > 0
    ensures Pull([Got("x")], [WriteFailed], true, queued, remaining) == if remaining == 1 then LastLost([]) else Cut([])
  {
    PullData([Got("x")], [WriteFailed], true, queued, remaining);
  }

  /** A reset in the middle of an upload sends forward_body through the null pointer; one at its last
      byte leaves a request that goes on without a backend. */
  method ResetInUpload(last: bool) returns (p: Pair)
    ensures p.Inv() && !p.closed && !p.backend && p.faults == Faults(!last, last)
    ensures p.state == if last then Streaming else Closing
    ensures p.made == Some(Responses.Upstream(WRITE_FAILED)) && |p.out| > 0 && fresh(p) && p.Sound()
  {
    hide Pair.Inv, Pair.Sound, Pull;
    var length := if last then 1 else 2;
    p := Establish([Header("content-length", if last then "1" else "2")], length, false);
    ResetReads(|p.bOut|, length);
    LinkedAndOpen(p);
    ghost var share := ServeClient(p, Io([], [Got("x")], [], [], [WriteFailed]));
  }

  lemma LinkedAndOpen(p: Pair)
    requires p.Inv() && p.backend
    ensures !p.closed && p.handshakeDone && p.state != Closing && p.backendPaused == p.bReadPaused
  {
  }

  /** The orphan's client takes all that is queued for it, and its connection stays open all the same. */
  method AnsweredYetOpen() returns (p: Pair)
    ensures p.Inv() && !p.closed && !p.backend && p.state == Streaming && |p.out| == 0
  {
    hide Pair.Inv, Pair.Sound;
    p := ResetInUpload(true);
    PastTheHead(p);
    var all: Positive := |p.out|;
    assert [Took(all)][1..] == [];
    assert Push([Took(all)], all) == Drained([]);
    ghost var share := ServeClient(p, Io([], [], [Took(all)], [], []));
  }

  /** A backend that cannot be registered leaves its client without one. */
  method NobodyToForwardTo() returns (p: Pair)
    ensures p.Inv() && !p.closed && !p.backend && p.state == Streaming && p.faults.orphaned && |p.out| == 0
  {
    p := Accept([], 0, NotRegistered, false);
  }

  function Filler(n: nat): (s: string)
    ensures |s| == n
  {
    if n == 0 then "" else Filler(n - 1) + "x"
  }

  function Copies(data: Chunk, k: nat): seq<Read> {
    if k == 0 then [] else [Data(data)] + Copies(data, k - 1)
  }

  /** A client that takes nothing has the backend paused by enough chunks. */
  lemma {:induction false} FillsUp(data: Chunk, k: nat, queued: nat, asks: IoStatus)
    requires |data| == CHUNK && queued <= HIGH < queued + k * CHUNK
    ensures var r := Relay(Copies(data, k), [], queued, asks); r.Full? && r.queued <= HIGH + CHUNK
  {
    var now := queued + CHUNK;
    assert Push([], now) == Stuck([], now, WouldBlockWrite);
    assert Copies(data, k)[1..] == Copies(data, k - 1);
    if now <= HIGH {
      FillsUp(data, k - 1, now, WouldBlockWrite);
    }
  }

  /** Seventeen chunks for a client that takes nothing. */
  function Flood(): (s: Io)
    ensures Relay(s.replies, s.sends, 0, Ok).Full? && Relay(s.replies, s.sends, 0, Ok).queued <= HIGH + CHUNK
  {
    var data: Chunk := Filler(CHUNK);
    FillsUp(data, 17, 0, Ok);
    Io([], [], [], Copies(data, 17), [])
  }

  /** A pair whose backend is paused for a slow client. */
  method PauseBackend(eof: bool) returns (p: Pair)
    ensures fresh(p) && p.Sound() && p.Inv() && p.backend && !p.cutShort && p.backendPaused
    ensures !p.readPaused && p.clientEof == eof && HIGH < |p.out| <= HIGH + CHUNK
  {
    hide Pair.Inv, Pair.Sound, Relay, Small, Flood, Filler, Copies, Pair.LoggedSince, Pair.StandOf;
    NoBody();
    p := Establish([], 0, eof);
    LinksAreSound(p);
    p.OnBackendReadable(Flood());
    LinkedAndOpen(p);
  }

  /** All that is queued is taken, then a send is told to wait. */
  function TakesAllThen(stop: Stop): seq<Send> {
    [Took(300000), NotTook(stop)]
  }

  lemma OneByteLeft(queued: nat, stop: Stop)
    requires 0 < queued <= 300000 && Blocked(stop)
    ensures Push(TakesAllThen(stop), queued) == Drained([NotTook(stop)])
    ensures Relay([Data("x")], [NotTook(stop)], 0, Ok) == Waiting(1, stop, [], [])
    ensures Relay([Data("x"), Eof], [NotTook(stop)], 0, Ok) == Finished(1, [], [])
  {
    assert TakesAllThen(stop)[1..] == [NotTook(stop)];
    assert Push([NotTook(stop)], 1) == Stuck([], 1, stop);
    assert [Data("x"), Eof][1..] == [Eof];
    assert Push([], 1) == Stuck([], 1, WouldBlockWrite);
  }

  /** Waking a paused backend finds the end of its response, and the last byte of it is dropped
      though the client would take it a moment later. */
  method FinishedResponseCutShort() returns (p: Pair)
    ensures p.Inv() && p.cutShort && p.closed && |p.out| == 1
  {
    hide Pair.Inv, Pair.Sound, Relay, Push;
    p := PauseBackend(false);
    LinkedAndOpen(p);
    OneByteLeft(|p.out|, WouldBlockWrite);
    ghost var share := ServeClient(p, Io([], [], TakesAllThen(WouldBlockWrite), [Data("x"), Eof], []));
  }

  /** A half-closed client has a byte queued that waits for reads, and its mask watches writes only. */
  method ReadsUnwatched() returns (p: Pair)
    ensures p.Inv() && p.backend && p.Forgotten() && !Watches(p.interest, p.lastSend)
  {
    hide Pair.Inv, Pair.Sound, Relay, Push;
    p := PauseBackend(true);
    LinkedAndOpen(p);
    OneByteLeft(|p.out|, WouldBlockRead);
    ghost var share := ServeClient(p, Io([], [], TakesAllThen(WouldBlockRead), [Data("x")], []));
    LinkedAndOpen(p);
    NoLostWakeup(p);
  }
}
