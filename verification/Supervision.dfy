/** The supervisor's own state and callbacks, proved to produce lawful traces only.

    The system is part of the object: `ticks` says by how much each reading of the clock
    advances it, `forks` which process ids the next forks would return. A fork fails when the
    script is empty or names a process id that is not positive or still has to be reaped.
 */
module Supervision {
  import opened Basics
  import opened SupervisorTrace

  datatype State = Stopped | Running | Backoff | Failed | Quarantined

  datatype Service = Service(
    pid: int,
    state: State,
    backoff: int,            // current_backoff_sec
    wantsRestart: bool,
    failureCount: nat,
    recent: seq<int>,        // recent_failures
    isDown: bool,
    downSince: int,
    nextRestart: int,
    lastStart: int
  )

  datatype Uptime = Uptime(running: bool, since: int)

  // ---- how a service's fields mirror the trace ----

  /** What the fields record. */
  ghost predicate Accounts(c: Config, s: Service, u: Uptime, log: Trace, i: nat) {
    && u == Uptime(s.pid > 0, s.lastStart)
    && (s.pid > 0 ==> Owner(log, s.pid) == i)
    && s.lastStart == StartedAt(log, i)
    && s.recent == Counted(log, i)
    && s.failureCount == AllFailures(log, i)
    && (!ShuttingDown(log) ==> s.wantsRestart == Wanted(log, i))
    && (Sane(c) ==> s.backoff == Delay(c, Rung(log, i)))
  }

  /** What the service's state means. */
  ghost predicate Standing(c: Config, s: Service, log: Trace, i: nat) {
    && (s.state == Running <==> s.pid > 0)
    && (s.pid > 0 ==> !Out(c, log, i))
    && s.isDown == Down(c, log, i)
    && (s.wantsRestart && !ShuttingDown(log) ==> s.pid > 0)
    && (s.state == Quarantined <==> (!ShuttingDown(log) && Tripped(c, log, i)))
    && (s.state == Failed <==> (!ShuttingDown(log) && GivenUp(c, log, i)))
    && (s.state == Stopped ==> ShuttingDown(log) || Attempts(log, i) == 0)
    && (!ShuttingDown(log) && Attempts(log, i) == 0 ==> s.state == Stopped)
    && (s.state == Backoff ==> !Up(log, i) && (Sane(c) ==> s.nextRestart == Due(c, log, i)))
  }

  ghost predicate Tracks(c: Config, s: Service, u: Uptime, log: Trace, i: nat) {
    Accounts(c, s, u, log, i) && Standing(c, s, log, i)
  }

  ghost predicate AllTrack(cs: seq<Config>, ss: seq<Service>, us: seq<Uptime>, log: Trace, hole: int)
    requires |cs| == |ss| == |us|
  {
    forall j :: 0 <= j < |ss| && j != hole ==> Tracks(cs[j], ss[j], us[j], log, j)
  }

  /** Every unreaped child is the child of one service, and that service knows it. */
  ghost predicate Owned(ss: seq<Service>, log: Trace) {
    forall pid :: Owner(log, pid) >= 0 ==> pid > 0 && Owner(log, pid) < |ss| && ss[Owner(log, pid)].pid == pid
  }

  /** The entry says nothing about this service. */
  predicate Foreign(log: Trace, entry: Entry, j: nat) {
    && ((entry.Forked? || entry.ForkFailed? || entry.Noted? || entry.Scheduled? || entry.Restarted?) ==> entry.service != j)
    && (entry.Forked? ==> Owner(log, entry.pid) != j)
    && (entry.Reaped? ==> Owner(log, entry.pid) != j)
    && !entry.ShutDown?
  }

  lemma StillTracks(c: Config, s: Service, u: Uptime, log: Trace, entry: Entry, j: nat)
    requires Tracks(c, s, u, log, j) && Foreign(log, entry, j)
    ensures Tracks(c, s, u, Then(log, entry), j)
  {
  }

  lemma KnowsItsChild(cs: seq<Config>, ss: seq<Service>, us: seq<Uptime>, log: Trace, i: nat)
    requires |cs| == |ss| == |us| && AllTrack(cs, ss, us, log, -1) && i < |ss| && ss[i].pid > 0
    ensures Owner(log, ss[i].pid) == i
  {
    assert Tracks(cs[i], ss[i], us[i], log, i);
  }

  lemma AllStillTrack(cs: seq<Config>, ss: seq<Service>, us: seq<Uptime>, log: Trace, entry: Entry, hole: int)
    requires |cs| == |ss| == |us| && AllTrack(cs, ss, us, log, hole)
    requires forall j: nat :: j < |ss| && j != hole ==> Foreign(log, entry, j)
    ensures AllTrack(cs, ss, us, Then(log, entry), hole)
  {
    forall j: nat | j < |ss| && j != hole ensures Tracks(cs[j], ss[j], us[j], Then(log, entry), j) {
      StillTracks(cs[j], ss[j], us[j], log, entry, j);
    }
  }

  lemma SignalsKeepTrack(cs: seq<Config>, ss: seq<Service>, us: seq<Uptime>, log: Trace, entry: Entry, hole: int)
    requires |cs| == |ss| == |us| && AllTrack(cs, ss, us, log, hole) && entry.Signalled?
    ensures AllTrack(cs, ss, us, Then(log, entry), hole)
  {
    AllStillTrack(cs, ss, us, log, entry, hole);
  }

  /** With a service that tracks put in its place, all track. */
  lemma AllTrackAgain(cs: seq<Config>, ss: seq<Service>, us: seq<Uptime>, log: Trace, i: nat, s: Service)
    requires |cs| == |ss| == |us| && i < |ss| && AllTrack(cs, ss, us, log, i) && Tracks(cs[i], s, us[i], log, i)
    requires Owned(ss, log) && ss[i].pid == s.pid
    ensures AllTrack(cs, ss[i := s], us, log, -1) && Owned(ss[i := s], log)
  {
  }

  /** Changing the service in the hole concerns no other. */
  lemma AllStillTrackAround(cs: seq<Config>, ss: seq<Service>, us: seq<Uptime>, log: Trace, i: nat, s: Service)
    requires |cs| == |ss| == |us| && i < |ss| && AllTrack(cs, ss, us, log, i)
    requires Owned(ss, log) && ss[i].pid == s.pid
    ensures AllTrack(cs, ss[i := s], us, log, i) && Owned(ss[i := s], log)
  {
  }

  /** A child that is reaped concerns its own service only. */
  lemma ReapingKeepsTrack(cs: seq<Config>, ss: seq<Service>, us: seq<Uptime>, log: Trace, pid: int)
    requires |cs| == |ss| == |us| && AllTrack(cs, ss, us, log, -1)
    ensures AllTrack(cs, ss, us, Then(log, Reaped(pid)), Owner(log, pid))
  {
    var i := Owner(log, pid);
    assert AllTrack(cs, ss, us, log, i);
    AllStillTrack(cs, ss, us, log, Reaped(pid), i);
  }

  /** An entry that names one service concerns that service only. */
  lemma NamedKeepsTrack(cs: seq<Config>, ss: seq<Service>, us: seq<Uptime>, log: Trace, entry: Entry, i: nat)
    requires |cs| == |ss| == |us| && AllTrack(cs, ss, us, log, i)
    requires entry.Restarted? || entry.ForkFailed? || entry.Scheduled? || entry.Noted?
    requires entry.service == i
    ensures AllTrack(cs, ss, us, Then(log, entry), i)
  {
    AllStillTrack(cs, ss, us, log, entry, i);
  }

  /** What the next fork returns: a process id that is in use or not positive counts as a failure. */
  function NextPid(forks: seq<int>, log: Trace): int {
    if forks != [] && forks[0] > 0 && Owner(log, forks[0]) < 0 then forks[0] else -1
  }

  /** The next fork works: it brings a process id that no child on record has. */
  predicate Usable(forks: seq<int>, ss: seq<Service>) {
    forks != [] && forks[0] > 0 && forall j :: 0 <= j < |ss| ==> ss[j].pid != forks[0]
  }

  /** What a fork leaves of the script. */
  function Rest(forks: seq<int>): seq<int> {
    if forks == [] then [] else forks[1..]
  }

  /** The trace at some moment, the clock, and what the system is still to answer. */
  datatype Moment = Moment(log: Trace, forks: seq<int>, clock: int, ticks: seq<nat>)

  /** The clock has been read: it has advanced by the next step of the script. */
  function Look(m: Moment): Moment {
    if m.ticks == [] then m else m.(clock := m.clock + m.ticks[0], ticks := m.ticks[1..])
  }

  /** A launch of the service has been attempted with the next fork: it worked, or the next one is scheduled. */
  function Launch(m: Moment, i: nat): Moment {
    var pid, n := NextPid(m.forks, m.log), Look(m).(forks := Rest(m.forks));
    n.(log := if pid > 0 then Then(m.log, Forked(i, pid, n.clock)) else Then(Then(m.log, ForkFailed(i)), Scheduled(i, n.clock)))
  }

  /** One exit has been dealt with. That of an unknown child, and any during a shutdown, is only reaped; one that an
      operator had asked for is followed by a launch; any other is noted, and a relaunch is put off unless the service
      is out. */
  function Deal(cs: seq<Config>, pid: int, m: Moment): Moment {
    var i, reaped := Owner(m.log, pid), m.(log := Then(m.log, Reaped(pid)));
    if i < 0 || i >= |cs| || ShuttingDown(m.log) then reaped
    else if Wanted(m.log, i) then Launch(reaped, i)
    else Unasked(cs[i], reaped, i)
  }

  /** An exit that nobody had asked for. */
  function Unasked(c: Config, m: Moment, i: nat): Moment {
    var n := Look(m);
    var noted := Then(m.log, Noted(i, n.clock));
    var last := Look(n);
    last.(log := if Out(c, noted, i) then noted else Then(noted, Scheduled(i, last.clock)))
  }

  /** The exits that one signal brings: waitpid ends the series with a process id that is not positive. */
  function Zombies(exits: seq<int>): seq<int> {
    if exits == [] || exits[0] <= 0 then [] else [exits[0]] + Zombies(exits[1..])
  }

  lemma NextZombie(exits: seq<int>, k: nat)
    requires k < |exits| && exits[k] > 0 && Zombies(exits) == exits[..k] + Zombies(exits[k..])
    ensures Zombies(exits) == exits[..k + 1] + Zombies(exits[k + 1..])
  {
    var e, z := exits[k], Zombies(exits[k + 1..]);
    assert exits[k..][1..] == exits[k + 1..];
    assert Zombies(exits[k..]) == [e] + z;
    ConsNext(exits[..k], e, z);
    assert exits[..k] + [e] == exits[..k + 1];
  }

  lemma ConsNext(s: seq<int>, e: int, z: seq<int>)
    ensures s + ([e] + z) == s + [e] + z
  {
  }

  /** All exits have been dealt with, in order. */
  function DealWithAll(cs: seq<Config>, exits: seq<int>, m: Moment): Moment {
    if exits == [] then m else Deal(cs, exits[|exits| - 1], DealWithAll(cs, exits[..|exits| - 1], m))
  }

  // ---- what these steps do, told by the deeds in the trace ----

  /** The series of exits ends after `n`: the first that is not positive, or none is left. */
  predicate EndsAfter(exits: seq<int>, n: nat) {
    n <= |exits| && (n == |exits| || exits[n] <= 0) && forall k :: 0 <= k < n ==> exits[k] > 0
  }

  lemma {:induction false} ZombiesEnd(exits: seq<int>, n: nat)
    requires EndsAfter(exits, n)
    ensures Zombies(exits) == exits[..n]
  {
    if n != 0 {
      ZombiesEnd(exits[1..], n - 1);
      assert exits[..n] == [exits[0]] + exits[1..][..n - 1];
    }
  }

  lemma LaunchTries(m: Moment, i: nat)
    ensures var n := Launch(m, i);
            && Follows(m.log, n.log) && Tried(n.log) == Tried(m.log) + [i]
            && ReapedPids(n.log) == ReapedPids(m.log) && SignalsSent(n.log) == SignalsSent(m.log)
  {
    assert Follows(m.log, Then(m.log, ForkFailed(i)));
  }

  lemma DealReaps(cs: seq<Config>, pid: int, m: Moment)
    ensures var n := Deal(cs, pid, m);
            Follows(m.log, n.log) && ReapedPids(n.log) == ReapedPids(m.log) + [pid] && SignalsSent(n.log) == SignalsSent(m.log)
  {
    hide Launch, Owner, Out;
    var i, reaped := Owner(m.log, pid), m.(log := Then(m.log, Reaped(pid)));
    assert Follows(m.log, reaped.log);
    if 0 <= i < |cs| {
      LaunchTries(reaped, i);
      FollowsOn(m.log, reaped.log, Launch(reaped, i).log);
      var noted := Then(reaped.log, Noted(i, Look(reaped).clock));
      assert Follows(m.log, noted);
    }
  }

  lemma {:induction false} DealingReaps(cs: seq<Config>, exits: seq<int>, m: Moment)
    ensures var n := DealWithAll(cs, exits, m);
            Follows(m.log, n.log) && ReapedPids(n.log) == ReapedPids(m.log) + exits && SignalsSent(n.log) == SignalsSent(m.log)
  {
    hide Deal;
    if exits != [] {
      var k := |exits| - 1;
      var n := DealWithAll(cs, exits[..k], m);
      DealingReaps(cs, exits[..k], m);
      DealReaps(cs, exits[k], n);
      FollowsOn(m.log, n.log, Deal(cs, exits[k], n).log);
      assert exits == exits[..k] + [exits[k]];
    }
  }

  /** Places in rising order. */
  predicate Rising(at: seq<nat>) {
    forall i, j :: 0 <= i < j < |at| ==> at[i] < at[j]
  }

  /** Exactly the services at these places, in their order. */
  predicate Exactly(at: seq<nat>, due: seq<bool>) {
    Rising(at) && (forall i :: 0 <= i < |at| ==> at[i] < |due|) && forall k: nat :: k < |due| ==> (k in at <==> due[k])
  }

  lemma ExactlyNext(at: seq<nat>, due: seq<bool>)
    requires due != [] && Exactly(at, due[..|due| - 1])
    ensures Exactly(if due[|due| - 1] then at + [|due| - 1] else at, due)
  {
    var k := |due| - 1;
    assert forall j: nat :: j < k ==> due[..k][j] == due[j];
    assert k !in at;
  }

  lemma {:induction false} AllLaunched(due: seq<bool>, m: Moment) returns (at: seq<nat>)
    ensures var n := LaunchAll(due, m);
            && Follows(m.log, n.log) && Tried(n.log) == Tried(m.log) + at && Exactly(at, due)
            && ReapedPids(n.log) == ReapedPids(m.log) && SignalsSent(n.log) == SignalsSent(m.log)
  {
    hide Launch, Tried, ReapedPids, SignalsSent, Follows;
    if due == [] {
      at := [];
      DeedsStayPut(m.log);
    } else {
      var k := |due| - 1;
      var n := LaunchAll(due[..k], m);
      at := AllLaunched(due[..k], m);
      ExactlyNext(at, due);
      hide Exactly;
      if due[k] {
        LaunchTries(n, k);
        FollowsOn(m.log, n.log, Launch(n, k).log);
        OneMoreTried(Tried(m.log), at, k);
        at := at + [k];
      }
    }
  }

  lemma DeedsStayPut(log: Trace)
    ensures Follows(log, log) && Tried(log) == Tried(log) + []
  {
  }

  lemma OneMoreTried(tried: seq<nat>, at: seq<nat>, k: nat)
    ensures tried + at + [k] == tried + (at + [k])
  {
  }

  /** The signal went to exactly the living children, in the order of the services: `at` are their places. */
  ghost predicate SentToAll(ss: seq<Service>, sent: seq<Sent>, signal: Signal, at: seq<nat>) {
    && |at| == |sent| && Rising(at)
    && (forall i :: 0 <= i < |at| ==> at[i] < |ss| && sent[i] == Sent(ss[at[i]].pid, signal))
    && forall k: nat :: k < |ss| ==> (k in at <==> ss[k].pid > 0)
  }

  lemma SentNext(ss: seq<Service>, sent: seq<Sent>, signal: Signal, at: seq<nat>)
    requires ss != [] && SentToAll(ss[..|ss| - 1], sent, signal, at)
    ensures var k := |ss| - 1;
            if ss[k].pid > 0 then SentToAll(ss, sent + [Sent(ss[k].pid, signal)], signal, at + [k]) else SentToAll(ss, sent, signal, at)
  {
    var k := |ss| - 1;
    assert forall j: nat :: j < k ==> ss[..k][j] == ss[j];
    assert k !in at;
  }

  lemma {:induction false} AllSignalled(ss: seq<Service>, log: Trace, signal: Signal) returns (at: seq<nat>, sent: seq<Sent>)
    ensures var l := Signals(ss, log, signal);
            && Follows(log, l) && SignalsSent(l) == SignalsSent(log) + sent && SentToAll(ss, sent, signal, at)
            && Tried(l) == Tried(log) && ReapedPids(l) == ReapedPids(log)
  {
    if ss == [] {
      at, sent := [], [];
    } else {
      var k := |ss| - 1;
      at, sent := AllSignalled(ss[..k], log, signal);
      SentNext(ss, sent, signal, at);
      hide SentToAll;
      if ss[k].pid > 0 {
        at, sent := at + [k], sent + [Sent(ss[k].pid, signal)];
      }
    }
  }

  /** Of the services in order, exactly those that are due have been launched. */
  function LaunchAll(due: seq<bool>, m: Moment): Moment {
    if due == [] then m
    else
      var k := |due| - 1;
      var n := LaunchAll(due[..k], m);
      if due[k] then Launch(n, k) else n
  }

  predicate Childless(ss: seq<Service>) {
    forall j :: 0 <= j < |ss| ==> ss[j].pid <= 0
  }

  lemma ChildlessBefore(ss: seq<Service>, tt: seq<Service>, i: nat)
    requires i < |ss| == |tt| && ss[i].pid <= 0 && forall j :: 0 <= j < |ss| && j != i ==> tt[j] == ss[j]
    ensures Childless(tt) ==> Childless(ss)
  {
    if Childless(tt) {
      forall j | 0 <= j < |ss| ensures ss[j].pid <= 0 {
        assert j != i ==> tt[j] == ss[j];
      }
    }
  }

  /** The end of a callback during a shutdown: the loop is told to stop exactly when no child is left. */
  predicate Drained(m: Moment, n: Moment, ss: seq<Service>, stopping: bool) {
    n == if stopping && Childless(ss) then m.(log := Then(m.log, LoopStopped)) else m
  }

  /** The trace after every living child has been signalled, in the order of the services. */
  ghost function Signals(ss: seq<Service>, log: Trace, signal: Signal): Trace {
    if ss == [] then log
    else
      var before, pid := Signals(ss[..|ss| - 1], log, signal), ss[|ss| - 1].pid;
      if pid > 0 then Then(before, Signalled(pid, signal)) else before
  }

  lemma SignalsNext(ss: seq<Service>, log: Trace, signal: Signal, k: nat)
    requires k < |ss|
    ensures var before := Signals(ss[..k], log, signal);
            Signals(ss[..k + 1], log, signal) == if ss[k].pid > 0 then Then(before, Signalled(ss[k].pid, signal)) else before
  {
    assert ss[..k + 1][..k] == ss[..k];
  }

  lemma LaunchedTicksNothing(m: Moment, i: nat)
    ensures LastTick(Launch(m, i).log) == LastTick(m.log) && ShuttingDown(Launch(m, i).log) == ShuttingDown(m.log)
  {
  }

  lemma {:induction false} SignalsTickNothing(ss: seq<Service>, log: Trace, signal: Signal)
    ensures LastTick(Signals(ss, log, signal)) == LastTick(log)
  {
    if ss != [] {
      SignalsTickNothing(ss[..|ss| - 1], log, signal);
    }
  }

  lemma TickKeeps(cs: seq<Config>, ss: seq<Service>, us: seq<Uptime>, log: Trace, now: int)
    requires |cs| == |ss| == |us| && AllTrack(cs, ss, us, log, -1) && Owned(ss, log) && Lawful(cs, log)
    requires Owes(log) < 0 && Latest(log) <= now
    ensures var l := Then(log, Ticked(now)); AllTrack(cs, ss, us, l, -1) && Owned(ss, l) && Lawful(cs, l) && Owes(l) < 0
  {
    AllStillTrack(cs, ss, us, log, Ticked(now), -1);
  }

  /** The services whose backoff has run out. */
  function DueNow(ss: seq<Service>, now: int): seq<bool> {
    seq(|ss|, k requires 0 <= k < |ss| => ss[k].state == Backoff && now >= ss[k].nextRestart)
  }

  /** The index of the first service with this name, or -1. */
  function IndexOf(cs: seq<Config>, name: string): (i: int)
    ensures -1 <= i < |cs|
    ensures i >= 0 ==> cs[i].name == name && forall j :: 0 <= j < i ==> cs[j].name != name
    ensures i < 0 ==> forall j :: 0 <= j < |cs| ==> cs[j].name != name
  {
    if cs == [] then -1
    else
      var early := IndexOf(cs[..|cs| - 1], name);
      if early >= 0 then early else if cs[|cs| - 1].name == name then |cs| - 1 else -1
  }

  // ---- what each callback has to do, told by the deeds in the trace ----

  /** These children are gone; a process id of theirs that is in use has been given to a child born since. */
  ghost predicate Gone(early: Trace, late: Trace, pids: seq<int>) {
    && Births(early) <= Births(late)
    && forall k :: 0 <= k < |pids| ==> Owner(late, pids[k]) < 0 || pids[k] in Births(late)[|Births(early)|..]
  }

  /** Every child up to the end of the series has been reaped, in order, and is gone. */
  ghost predicate SigchldDoes(exits: seq<int>, early: Trace, late: Trace) {
    && Follows(early, late) && SignalsSent(late) == SignalsSent(early)
    && forall n: nat :: EndsAfter(exits, n) ==> ReapedPids(late) == ReapedPids(early) + exits[..n] && Gone(early, late, exits[..n])
  }

  /** A launch has been attempted of exactly the services whose time had come; in a shutdown past its deadline every
      living child has been killed instead. */
  ghost predicate TickDoes(ss: seq<Service>, early: Trace, late: Trace) {
    var now := LastTick(late);
    && Follows(early, late) && ReapedPids(late) == ReapedPids(early)
    && if ShuttingDown(early) then
         && Tried(late) == Tried(early)
         && if now >= ShutDownAt(early) + 5 * SECOND then
              exists at, sent :: SignalsSent(late) == SignalsSent(early) + sent && SentToAll(ss, sent, Kill, at)
            else SignalsSent(late) == SignalsSent(early)
       else
         && SignalsSent(late) == SignalsSent(early)
         && exists at :: Tried(late) == Tried(early) + at && TimeHasCome(ss, now, at)
  }

  predicate TimeHasCome(ss: seq<Service>, now: int, at: seq<nat>) {
    && Rising(at) && (forall i :: 0 <= i < |at| ==> at[i] < |ss|)
    && forall k: nat :: k < |ss| ==> (k in at <==> ss[k].state == Backoff && ss[k].nextRestart <= now)
  }

  /** Every living child has been asked to end, and nothing has been launched. */
  ghost predicate StopDoes(ss: seq<Service>, early: Trace, late: Trace) {
    && Follows(early, late) && ReapedPids(late) == ReapedPids(early) && Tried(late) == Tried(early)
    && exists at, sent :: SignalsSent(late) == SignalsSent(early) + sent && SentToAll(ss, sent, Terminate, at)
  }

  /** The first service with this name, and no other, has been asked to end or been tried. */
  ghost predicate RestartDoes(cs: seq<Config>, ss: seq<Service>, name: string, early: Trace, late: Trace)
    requires |cs| == |ss|
  {
    && Follows(early, late) && ReapedPids(late) == ReapedPids(early)
    && ((forall j :: 0 <= j < |cs| ==> cs[j].name != name) ==> late == early)
    && forall i: nat :: i < |cs| && cs[i].name == name && (forall j :: 0 <= j < i ==> cs[j].name != name) ==>
         if ss[i].pid > 0 then
           SignalsSent(late) == SignalsSent(early) + [Sent(ss[i].pid, Terminate)] && Tried(late) == Tried(early) && Wanted(late, i)
         else SignalsSent(late) == SignalsSent(early) && Tried(late) == Tried(early) + [i]
  }

  /** The end of a callback adds no deed but that the loop is told to stop. */
  lemma SigchldDone(cs: seq<Config>, exits: seq<int>, m: Moment, late: Trace)
    requires var d := DealWithAll(cs, Zombies(exits), m).log; late == d || late == Then(d, LoopStopped)
    ensures SigchldDoes(exits, m.log, late)
  {
    hide DealWithAll, Zombies;
    var d := DealWithAll(cs, Zombies(exits), m).log;
    DealingReaps(cs, Zombies(exits), m);
    assert Follows(d, late);
    FollowsOn(m.log, d, late);
    DeedsStay(m.log, late);
    forall n: nat | EndsAfter(exits, n)
      ensures ReapedPids(late) == ReapedPids(m.log) + exits[..n] && Gone(m.log, late, exits[..n])
    {
      ZombiesEnd(exits, n);
      forall k | 0 <= k < n ensures Owner(late, exits[k]) < 0 || exits[k] in Births(late)[|Births(m.log)|..] {
        assert ReapedPids(late)[|ReapedPids(m.log)|..] == exits[..n] && exits[..n][k] == exits[k];
        ReapedAreGone(m.log, late, exits[k]);
      }
    }
  }

  lemma TickLaunched(ss: seq<Service>, t: Moment, early: Trace, now: int)
    requires t.log == Then(early, Ticked(now)) && !ShuttingDown(early)
    ensures TickDoes(ss, early, LaunchAll(DueNow(ss, now), t).log)
  {
    hide LaunchAll;
    var due := DueNow(ss, now);
    var n := LaunchAll(due, t);
    var at := AllLaunched(due, t);
    LaunchingTicksNothing(due, t);
    assert Follows(early, t.log);
    FollowsOn(early, t.log, n.log);
    assert TimeHasCome(ss, now, at);
  }

  lemma {:induction false} LaunchingTicksNothing(due: seq<bool>, m: Moment)
    ensures LastTick(LaunchAll(due, m).log) == LastTick(m.log)
  {
    hide Launch;
    if due != [] {
      LaunchingTicksNothing(due[..|due| - 1], m);
      LaunchedTicksNothing(LaunchAll(due[..|due| - 1], m), |due| - 1);
    }
  }

  /** A tick during a shutdown. */
  lemma TickKilled(ss: seq<Service>, early: Trace, now: int, late: Trace)
    requires ShuttingDown(early)
    requires var ticked := Then(early, Ticked(now));
             var signalled := if now >= ShutDownAt(early) + GRACE then Signals(ss, ticked, Kill) else ticked;
             late == signalled || late == Then(signalled, LoopStopped)
    ensures TickDoes(ss, early, late)
  {
    var ticked := Then(early, Ticked(now));
    var at, sent := AllSignalled(ss, ticked, Kill);
    SignalsTickNothing(ss, ticked, Kill);
    hide Signals, SentToAll;
    assert Follows(early, ticked);
    if now >= ShutDownAt(early) + GRACE {
      FollowsOn(early, ticked, Signals(ss, ticked, Kill));
      FollowsOn(early, Signals(ss, ticked, Kill), late);
    } else {
      FollowsOn(early, ticked, late);
      assert ReapedPids(late) == ReapedPids(early) && Tried(late) == Tried(early) && LastTick(late) == now;
    }
  }

  lemma StopDone(ss: seq<Service>, early: Trace, at: int, late: Trace)
    requires var signalled := Signals(ss, Then(early, ShutDown(at)), Terminate);
             late == signalled || late == Then(signalled, LoopStopped)
    ensures StopDoes(ss, early, late)
  {
    var begun := Then(early, ShutDown(at));
    var places, sent := AllSignalled(ss, begun, Terminate);
    hide Signals, SentToAll;
    assert Follows(early, begun);
    FollowsOn(early, begun, Signals(ss, begun, Terminate));
    FollowsOn(early, Signals(ss, begun, Terminate), late);
  }

  lemma RestartDone(cs: seq<Config>, ss: seq<Service>, name: string, m: Moment, i: nat)
    requires |cs| == |ss| && i == IndexOf(cs, name)
    ensures RestartDoes(cs, ss, name, m.log, RestartOf(m, i, ss[i].pid).log)
  {
    hide Launch, IndexOf;
    var restarted := m.(log := Then(m.log, Restarted(i)));
    NoDeed(m.log, Restarted(i));
    assert Wanted(restarted.log, i);
    assert cs[i].name == name;
    LaunchTries(restarted, i);
    FollowsOn(m.log, restarted.log, Launch(restarted, i).log);
    FollowsOn(m.log, restarted.log, Then(restarted.log, Signalled(ss[i].pid, Terminate)));
    assert forall j: nat :: j < |cs| && cs[j].name == name && (forall l :: 0 <= l < j ==> cs[l].name != name) ==> j == i;
  }

  /** A restart clears the breaker first; it then asks a living child to end or attempts a launch. */
  function RestartOf(m: Moment, i: nat, pid: int): Moment {
    var restarted := m.(log := Then(m.log, Restarted(i)));
    if pid > 0 then m.(log := Then(restarted.log, Signalled(pid, Terminate))) else Launch(restarted, i)
  }

  /** While a shutdown works through the services: the first `k` have been dealt with. */
  ghost predicate HalfTrack(cs: seq<Config>, ss: seq<Service>, us: seq<Uptime>, log: Trace, k: nat)
    requires |cs| == |ss| == |us|
  {
    forall j :: 0 <= j < |ss| ==> Half(cs[j], ss[j], us[j], log, j, j < k)
  }

  ghost predicate Half(c: Config, s: Service, u: Uptime, log: Trace, j: nat, dealtWith: bool) {
    && Accounts(c, s, u, log, j) && s.isDown == Down(c, log, j)
    && (dealtWith || s.pid > 0 ==> Standing(c, s, log, j))
  }

  lemma HalfStillTrack(cs: seq<Config>, ss: seq<Service>, us: seq<Uptime>, log: Trace, entry: Entry, k: nat)
    requires |cs| == |ss| == |us| && HalfTrack(cs, ss, us, log, k) && entry.Signalled?
    ensures HalfTrack(cs, ss, us, Then(log, entry), k)
  {
    forall j: nat | j < |ss| ensures Half(cs[j], ss[j], us[j], Then(log, entry), j, j < k) {
      StillHalf(cs[j], ss[j], us[j], log, entry, j, j < k);
    }
  }

  lemma HalfTrackStarts(cs: seq<Config>, ss: seq<Service>, us: seq<Uptime>, log: Trace, entry: Entry)
    requires |cs| == |ss| == |us| && AllTrack(cs, ss, us, log, -1) && entry.ShutDown?
    ensures HalfTrack(cs, ss, us, Then(log, entry), 0)
  {
    forall j: nat | j < |ss|
      ensures Accounts(cs[j], ss[j], us[j], Then(log, entry), j) && ss[j].isDown == Down(cs[j], Then(log, entry), j)
      ensures ss[j].pid > 0 ==> Standing(cs[j], ss[j], Then(log, entry), j)
    {
      assert Tracks(cs[j], ss[j], us[j], log, j);
    }
  }

  lemma HalfTrackNext(cs: seq<Config>, ss: seq<Service>, us: seq<Uptime>, log: Trace, k: nat)
    requires |cs| == |ss| == |us| && k < |ss| && HalfTrack(cs, ss, us, log, k) && ShuttingDown(log)
    ensures HalfTrack(cs, ss[k := Halted(ss[k])], us, log, k + 1)
    ensures ss[k].pid > 0 ==> ss[k := Halted(ss[k])] == ss && Owner(log, ss[k].pid) == k
  {
    assert Half(cs[k], ss[k], us[k], log, k, false);
    assert Half(cs[k], Halted(ss[k]), us[k], log, k, true);
  }

  /** What a shutdown makes of a service before its children are reaped. */
  function Halted(s: Service): Service {
    if s.pid > 0 then s else s.(state := Stopped)
  }

  lemma StillHalf(c: Config, s: Service, u: Uptime, log: Trace, entry: Entry, j: nat, dealtWith: bool)
    requires Half(c, s, u, log, j, dealtWith) && entry.Signalled?
    ensures Half(c, s, u, Then(log, entry), j, dealtWith)
  {
  }

  /** A restart of a running service keeps the books. */
  lemma RestartTracks(c: Config, s: Service, u: Uptime, log: Trace, i: nat)
    requires Tracks(c, s, u, log, i) && s.pid > 0
    ensures Tracks(c, s.(recent := [], wantsRestart := true), u, Then(log, Restarted(i)), i)
  {
  }

  lemma AttemptedOnce(m: Moment, i: nat, j: nat)
    ensures Attempts(Launch(m, i).log, j) == Attempts(m.log, j) + if j == i then 1 else 0
  {
  }

  /** A service whose backoff has run out may be launched. */
  lemma MayRelaunch(cs: seq<Config>, ss: seq<Service>, us: seq<Uptime>, log: Trace, i: nat)
    requires |cs| == |ss| == |us| && i < |ss| && AllTrack(cs, ss, us, log, -1) && Owned(ss, log)
    requires !ShuttingDown(log) && ss[i].state == Backoff && LastTick(log) >= ss[i].nextRestart
    ensures AllTrack(cs, ss, us, log, i) && Launchable(cs, ss[i], us[i], log, i)
  {
    assert Tracks(cs[i], ss[i], us[i], log, i);
    NoChild(ss, log, i);
  }

  /** A service that has never been launched may be. */
  lemma MayLaunch(cs: seq<Config>, ss: seq<Service>, us: seq<Uptime>, log: Trace, i: nat)
    requires |cs| == |ss| == |us| && i < |ss| && AllTrack(cs, ss, us, log, -1) && Owned(ss, log)
    requires !ShuttingDown(log) && Attempts(log, i) == 0
    ensures AllTrack(cs, ss, us, log, i) && Launchable(cs, ss[i], us[i], log, i)
  {
    assert Tracks(cs[i], ss[i], us[i], log, i);
    NoChild(ss, log, i);
  }

  /** The process ids on record are those of the unreaped children, each on record once. */
  lemma ChildrenAreOnRecord(cs: seq<Config>, ss: seq<Service>, us: seq<Uptime>, log: Trace, pid: int)
    requires |cs| == |ss| == |us| && AllTrack(cs, ss, us, log, -1) && Owned(ss, log)
    ensures Owner(log, pid) >= 0 <==> (pid > 0 && exists j :: 0 <= j < |ss| && ss[j].pid == pid)
    ensures forall j, k :: 0 <= j < |ss| && 0 <= k < |ss| && ss[j].pid == ss[k].pid == pid > 0 ==> j == k
  {
    forall j | 0 <= j < |ss| && ss[j].pid == pid > 0 ensures Owner(log, pid) == j {
      KnowsItsChild(cs, ss, us, log, j);
    }
  }

  /** The queue of failures holds six entries when a service is quarantined, and never more. */
  lemma QueueIsShort(cs: seq<Config>, s: Service, u: Uptime, log: Trace, i: nat)
    requires Lawful(cs, log) && i < |cs| && Tracks(cs[i], s, u, log, i)
    ensures |s.recent| <= MAX_FAILURES + 1
    ensures s.state == Quarantined ==> |s.recent| == MAX_FAILURES + 1 && s.isDown
    ensures s.state == Failed ==> s.isDown
    ensures s.isDown ==> s.pid <= 0 && (s.state == Backoff ==> RestartedInVain(cs[i], log, i) || ShuttingDown(log))
  {
    CountIsBounded(cs, log, i);
    DownExactly(cs, log, i);
    if s.isDown {
      DownHasNoChild(cs, log, i, s.pid);
    }
  }

  lemma NoChild(ss: seq<Service>, log: Trace, i: nat)
    requires Owned(ss, log) && i < |ss| && ss[i].pid <= 0
    ensures forall pid :: Owner(log, pid) != i
  {
  }

  lemma {:induction false} RecentIsOrdered(times: seq<int>, now: int, bound: int)
    requires Ordered(times) && (times != [] ==> Last(times) <= bound)
    ensures Ordered(Recent(times, now))
    ensures Recent(times, now) != [] ==> Last(Recent(times, now)) <= bound
  {
    if times != [] {
      var rest, last := times[..|times| - 1], Last(times);
      RecentIsOrdered(rest, now, last);
      if now - last <= WINDOW {
        OrderedAppend(Recent(rest, now), last);
      }
    }
  }

  /** Of an ordered queue, what is out of the window stands in front. */
  lemma {:induction false} RecentDropsFront(times: seq<int>, now: int)
    requires Ordered(times) && times != []
    ensures Ordered(times[1..]) && times[0] <= Last(times)
    ensures now - times[0] > WINDOW ==> Recent(times, now) == Recent(times[1..], now)
    ensures now - times[0] <= WINDOW ==> Recent(times, now) == times
  {
    var rest := times[..|times| - 1];
    if |times| > 1 {
      RecentDropsFront(rest, now);
      assert times[1..][..|times| - 2] == rest[1..];
      assert rest + [Last(times)] == times;
    }
  }

  /** A relaunch that is put off keeps the books. */
  lemma SchedulingTracks(c: Config, s: Service, u: Uptime, log: Trace, i: nat, now: int)
    requires Accounts(c, s, u, log, i) && s.pid <= 0
    requires !Out(c, log, i) && Attempts(log, i) > 0 && !Wanted(log, i)
    requires s.isDown == Down(c, log, i)
    ensures Tracks(c, Rescheduled(c, s, now), u, Then(log, Scheduled(i, now)), i)
  {
    var rung := Rung(log, i);
    if Sane(c) {
      NextDelay(c, if rung >= 0 then rung else 0);
    }
  }

  function Rescheduled(c: Config, s: Service, now: int): Service {
    var backoff :=
      if (now - s.lastStart) / SECOND >= STABLE / SECOND || s.backoff == 0 then c.backoffMin
      else Min(s.backoff * 2, c.backoffMax);
    s.(backoff := backoff, state := Backoff, nextRestart := now + backoff * SECOND)
  }

  lemma CountedIsOrdered(cs: seq<Config>, log: Trace, i: nat, now: int)
    requires Lawful(cs, log) && Latest(log) <= now
    ensures Ordered(Counted(log, i) + [now])
    ensures Failures(log, i) != [] ==> Last(Failures(log, i)) <= now
  {
    FailuresAreOrdered(cs, log, i);
    var f := Failures(log, i);
    if f != [] {
      RecentIsOrdered(f, Last(f), now);
    }
    OrderedAppend(Counted(log, i), now);
  }

  lemma NotingIsLawful(cs: seq<Config>, log: Trace, i: nat, now: int)
    requires Lawful(cs, log) && i < |cs| && Owes(log) == i && !Out(cs[i], log, i) && Latest(log) <= now
    ensures Lawful(cs, Then(log, Noted(i, now)))
  {
  }

  /** An exit that is booked keeps the books. */
  lemma BookingAccounts(c: Config, s: Service, u: Uptime, log: Trace, i: nat, now: int)
    requires Accounts(c, s, u, log, i) && s.pid <= 0
    requires Failures(log, i) != [] ==> Last(Failures(log, i)) <= now
    ensures Accounts(c, Booked(s, now), u, Then(log, Noted(i, now)), i)
  {
    CountedNext(log, i, now);
    assert Booked(s, now).recent == Counted(Then(log, Noted(i, now)), i);
  }

  function Booked(s: Service, now: int): Service {
    s.(failureCount := s.failureCount + 1, recent := Recent(s.recent + [now], now))
  }

  /** Everything about a service is in place for a launch. */
  ghost predicate Launchable(cs: seq<Config>, s: Service, u: Uptime, log: Trace, i: nat)
    requires i < |cs|
  {
    && s.pid <= 0 && !s.wantsRestart
    && u == Uptime(false, s.lastStart)
    && s.lastStart == StartedAt(log, i)
    && s.recent == SupervisorTrace.Counted(log, i)
    && s.failureCount == AllFailures(log, i)
    && (Sane(cs[i]) ==> s.backoff == if Wanted(log, i) then 0 else Delay(cs[i], Rung(log, i)))
    && s.isDown == Down(cs[i], log, i)
    && MayAttempt(cs, log, i)
  }

  /** The process ids of the unreaped children are those on record. */
  lemma InUse(cs: seq<Config>, ss: seq<Service>, us: seq<Uptime>, log: Trace, i: nat, pid: int)
    requires |cs| == |ss| == |us| && i < |ss| && AllTrack(cs, ss, us, log, i) && Owned(ss, log) && ss[i].pid <= 0 && pid > 0
    ensures Owner(log, pid) >= 0 <==> exists j :: 0 <= j < |ss| && ss[j].pid == pid
  {
    forall j | 0 <= j < |ss| && ss[j].pid == pid ensures Owner(log, pid) >= 0 {
      assert Tracks(cs[j], ss[j], us[j], log, j);
    }
  }

  /** What a launch makes of a service: it runs with the new process id, or waits for its next launch. */
  predicate Attempted(was: Service, now: Service, works: bool, forks: seq<int>, at: int)
    requires works ==> forks != []
  {
    && now.wantsRestart == was.wantsRestart && now.failureCount == was.failureCount && now.recent == was.recent
    && if works then now.pid == forks[0] && now.state == Running && !now.isDown && now.lastStart == at
       else now.pid == was.pid && now.state == Backoff && now.nextRestart == at + now.backoff * SECOND && now.lastStart == was.lastStart
  }

  /** What the end of its child makes of a service. */
  ghost predicate Fate(c: Config, was: Service, now: Service, stopping: bool, early: Trace, late: Trace, i: nat) {
    if stopping then now == was.(pid := -1, state := Stopped)
    else if was.wantsRestart then
      && Tried(late) == Tried(early) + [i] && !now.wantsRestart
      && now.failureCount == was.failureCount && now.recent == was.recent && (now.state == Running || now.state == Backoff)
    else
      && Tried(late) == Tried(early) && now.pid == -1 && now.failureCount == was.failureCount + 1
      && now.state == (if !c.autorestart then Failed else if |now.recent| >= 6 then Quarantined else Backoff)
  }

  /** A service that has just been launched. */
  function Started(s: Service, pid: int, at: int): Service {
    s.(pid := pid, state := Running, isDown := false, lastStart := at)
  }

  /** A launch that works keeps the books. */
  lemma LaunchKeeps(cs: seq<Config>, ss: seq<Service>, us: seq<Uptime>, log: Trace, i: nat, pid: int, at: int)
    requires |cs| == |ss| == |us| && i < |ss| && AllTrack(cs, ss, us, log, i) && Owned(ss, log) && Lawful(cs, log) && Owes(log) < 0
    requires Launchable(cs, ss[i], us[i], log, i) && pid > 0 && Owner(log, pid) < 0 && Latest(log) <= at
    ensures var l, ss', us' := Then(log, Forked(i, pid, at)), ss[i := Started(ss[i], pid, at)], us[i := Uptime(true, at)];
            AllTrack(cs, ss', us', l, -1) && Owned(ss', l) && Lawful(cs, l) && Owes(l) < 0
  {
    var l := Then(log, Forked(i, pid, at));
    AllStillTrack(cs, ss, us, log, Forked(i, pid, at), i);
    LaunchedTracks(cs, ss[i], us[i], log, i, pid, at);
    LaunchOwned(ss, log, i, pid, at);
  }

  lemma LaunchedTracks(cs: seq<Config>, s: Service, u: Uptime, log: Trace, i: nat, pid: int, at: int)
    requires i < |cs| && Launchable(cs, s, u, log, i) && pid > 0
    ensures Tracks(cs[i], Started(s, pid, at), Uptime(true, at), Then(log, Forked(i, pid, at)), i)
  {
  }

  lemma LaunchOwned(ss: seq<Service>, log: Trace, i: nat, pid: int, at: int)
    requires Owned(ss, log) && i < |ss| && ss[i].pid <= 0 && pid > 0
    ensures Owned(ss[i := Started(ss[i], pid, at)], Then(log, Forked(i, pid, at)))
  {
  }

  /** A launch that fails keeps the books of the others. */
  lemma FailedForkKeeps(cs: seq<Config>, ss: seq<Service>, us: seq<Uptime>, log: Trace, i: nat)
    requires |cs| == |ss| == |us| && i < |ss| && AllTrack(cs, ss, us, log, i) && Owned(ss, log) && Lawful(cs, log) && Owes(log) < 0
    requires Launchable(cs, ss[i], us[i], log, i)
    ensures var l := Then(log, ForkFailed(i));
            && AllTrack(cs, ss, us, l, i) && Owned(ss, l) && Lawful(cs, l) && Owes(l) < 0
            && PutOff(cs[i], ss[i], us[i], l, i)
  {
    NamedKeepsTrack(cs, ss, us, log, ForkFailed(i), i);
  }

  /** A relaunch of the service may be put off. */
  ghost predicate PutOff(c: Config, s: Service, u: Uptime, log: Trace, i: nat) {
    && Accounts(c, s, u, log, i) && s.pid <= 0 && s.isDown == Down(c, log, i)
    && !Out(c, log, i) && Attempts(log, i) > 0 && !Wanted(log, i)
    && PutsOff(log, i)
  }

  lemma SchedulingKeeps(cs: seq<Config>, ss: seq<Service>, us: seq<Uptime>, log: Trace, i: nat, now: int)
    requires |cs| == |ss| == |us| && i < |ss| && AllTrack(cs, ss, us, log, i) && Owned(ss, log) && Lawful(cs, log) && Owes(log) < 0
    requires PutOff(cs[i], ss[i], us[i], log, i) && Latest(log) <= now
    ensures var l, ss' := Then(log, Scheduled(i, now)), ss[i := Rescheduled(cs[i], ss[i], now)];
            AllTrack(cs, ss', us, l, -1) && Owned(ss', l) && Lawful(cs, l) && Owes(l) < 0
  {
    SchedulingTracks(cs[i], ss[i], us[i], log, i, now);
    NamedKeepsTrack(cs, ss, us, log, Scheduled(i, now), i);
    AllTrackAgain(cs, ss, us, Then(log, Scheduled(i, now)), i, Rescheduled(cs[i], ss[i], now));
  }

  /** A service whose child has just been reaped. */
  ghost predicate Buried(c: Config, s: Service, u: Uptime, log: Trace, i: nat) {
    && Accounts(c, s, u, log, i) && s.pid <= 0 && !s.isDown && !Down(c, log, i)
    && !Out(c, log, i) && Attempts(log, i) > 0
    && (!ShuttingDown(log) && !s.wantsRestart ==> Owes(log) == i)
    && (ShuttingDown(log) || s.wantsRestart ==> Owes(log) < 0)
  }

  function Bury(s: Service): Service {
    s.(pid := -1)
  }

  lemma ReapingKeeps(cs: seq<Config>, ss: seq<Service>, us: seq<Uptime>, log: Trace, pid: int)
    requires |cs| == |ss| == |us| && AllTrack(cs, ss, us, log, -1) && Owned(ss, log) && Lawful(cs, log) && Owes(log) < 0 && pid > 0
    ensures var l, i := Then(log, Reaped(pid)), Owner(log, pid);
            && i < |ss| && Lawful(cs, l) && (i >= 0 ==> ss[i].pid == pid)
            && (i < 0 ==> AllTrack(cs, ss, us, l, -1) && Owned(ss, l) && Owes(l) < 0)
            && (i >= 0 ==>
                  var s, u := Bury(ss[i]), Uptime(false, ss[i].lastStart);
                  AllTrack(cs, ss[i := s], us[i := u], l, i) && Owned(ss[i := s], l) && Buried(cs[i], s, u, l, i)
                  && s.wantsRestart == ss[i].wantsRestart && (!ShuttingDown(log) ==> s.wantsRestart == Wanted(log, i)))
  {
    ReapingKeepsTrack(cs, ss, us, log, pid);
    var i := Owner(log, pid);
    if i >= 0 {
      assert Tracks(cs[i], ss[i], us[i], log, i);
      if Down(cs[i], log, i) {
        DownHasNoChild(cs, log, i, pid);
      }
      BuriedAccounts(cs[i], ss[i], us[i], log, i, pid);
      BuryOwned(ss, log, i, pid);
    } else {
      assert AllTrack(cs, ss, us, Then(log, Reaped(pid)), -1);
      OwesNothing(log, pid);
    }
  }

  lemma OwesNothing(log: Trace, pid: int)
    requires Owner(log, pid) < 0
    ensures Owes(Then(log, Reaped(pid))) < 0
  {
  }

  /** Whoever has a child is running. */
  lemma ParentRuns(cs: seq<Config>, ss: seq<Service>, us: seq<Uptime>, log: Trace, pid: int)
    requires |cs| == |ss| == |us| && AllTrack(cs, ss, us, log, -1) && Owned(ss, log)
    ensures Owner(log, pid) >= 0 ==> Owner(log, pid) < |ss| && ss[Owner(log, pid)].state == Running
  {
    var i := Owner(log, pid);
    if i >= 0 {
      assert Tracks(cs[i], ss[i], us[i], log, i);
    }
  }

  lemma BuriedAccounts(c: Config, s: Service, u: Uptime, log: Trace, i: nat, pid: int)
    requires Tracks(c, s, u, log, i) && s.pid == pid > 0 && Owner(log, pid) == i && !Down(c, log, i)
    ensures Buried(c, Bury(s), Uptime(false, s.lastStart), Then(log, Reaped(pid)), i)
    ensures !ShuttingDown(log) ==> s.wantsRestart == Wanted(log, i)
  {
    EverAttempted(log, i, pid);
  }

  /** A service with a child has been launched. */
  lemma {:induction false} EverAttempted(log: Trace, i: nat, pid: int)
    requires Owner(log, pid) == i
    ensures Attempts(log, i) > 0
  {
    if !(log.entry.Forked? && log.entry.pid == pid) {
      EverAttempted(log.before, i, pid);
    }
  }

  lemma BuryOwned(ss: seq<Service>, log: Trace, i: nat, pid: int)
    requires Owned(ss, log) && i < |ss| && ss[i].pid == pid > 0 && Owner(log, pid) == i
    ensures Owned(ss[i := Bury(ss[i])], Then(log, Reaped(pid)))
  {
  }

  /** What is reaped during a shutdown has stopped. */
  lemma StoppingKeeps(cs: seq<Config>, ss: seq<Service>, us: seq<Uptime>, log: Trace, i: nat)
    requires |cs| == |ss| == |us| && i < |ss| && AllTrack(cs, ss, us, log, i) && Owned(ss, log)
    requires ShuttingDown(log) && Buried(cs[i], ss[i], us[i], log, i)
    ensures var ss' := ss[i := ss[i].(state := Stopped)]; AllTrack(cs, ss', us, log, -1) && Owned(ss', log)
  {
    AllTrackAgain(cs, ss, us, log, i, ss[i].(state := Stopped));
  }

  /** An operator's restart launches what was reaped. */
  lemma RelaunchReady(cs: seq<Config>, ss: seq<Service>, us: seq<Uptime>, log: Trace, i: nat)
    requires |cs| == |ss| == |us| && i < |ss| && AllTrack(cs, ss, us, log, i) && Owned(ss, log)
    requires Buried(cs[i], ss[i], us[i], log, i) && Wanted(log, i)
    ensures var ss' := ss[i := ss[i].(wantsRestart := false, backoff := 0)];
            && AllTrack(cs, ss', us, log, i) && Owned(ss', log) && Launchable(cs, ss'[i], us[i], log, i)
  {
    AllStillTrackAround(cs, ss, us, log, i, ss[i].(wantsRestart := false, backoff := 0));
    NoChild(ss, log, i);
  }

  /** An exit has just been booked. */
  ghost predicate Noting(c: Config, s: Service, u: Uptime, log: Trace, i: nat) {
    && log.Then? && log.entry.Noted? && log.entry.service == i
    && Accounts(c, s, u, log, i) && s.pid <= 0 && !Wanted(log, i) && Attempts(log, i) > 0 && !ShuttingDown(log)
    && !s.isDown && !Down(c, log.before, i)
  }

  /** The service is to be taken out. */
  ghost predicate Condemned(c: Config, s: Service, u: Uptime, log: Trace, i: nat) {
    && Accounts(c, s, u, log, i) && s.pid <= 0 && !Wanted(log, i) && Attempts(log, i) > 0 && !ShuttingDown(log)
    && Down(c, log, i) && Out(c, log, i) && !s.isDown
  }

  lemma NotingMeans(c: Config, s: Service, u: Uptime, log: Trace, i: nat)
    requires Noting(c, s, u, log, i)
    ensures Out(c, log, i) <==> (!c.autorestart || |s.recent| > MAX_FAILURES)
    ensures if Out(c, log, i) then Condemned(c, s, u, log, i) else PutOff(c, s, u, log, i)
  {
  }

  lemma BookingKeeps(cs: seq<Config>, ss: seq<Service>, us: seq<Uptime>, log: Trace, i: nat, now: int)
    requires |cs| == |ss| == |us| && i < |ss| && AllTrack(cs, ss, us, log, i) && Owned(ss, log) && Lawful(cs, log)
    requires Buried(cs[i], ss[i], us[i], log, i) && !ShuttingDown(log) && !ss[i].wantsRestart && Latest(log) <= now
    ensures var l, s := Then(log, Noted(i, now)), Booked(ss[i], now);
            && AllTrack(cs, ss[i := s], us, l, i) && Owned(ss[i := s], l) && Lawful(cs, l) && Owes(l) < 0
            && Noting(cs[i], s, us[i], l, i) && Ordered(ss[i].recent + [now])
  {
    CountedIsOrdered(cs, log, i, now);
    NotingIsLawful(cs, log, i, now);
    BookingAccounts(cs[i], ss[i], us[i], log, i, now);
    NamedKeepsTrack(cs, ss, us, log, Noted(i, now), i);
    AllStillTrackAround(cs, ss, us, Then(log, Noted(i, now)), i, Booked(ss[i], now));
  }

  /** The service as it is taken out. */
  function TakenDown(c: Config, s: Service, at: int): Service {
    s.(state := if c.autorestart then Quarantined else Failed, isDown := true, downSince := at)
  }

  lemma TakingDownKeeps(cs: seq<Config>, ss: seq<Service>, us: seq<Uptime>, log: Trace, i: nat, at: int)
    requires |cs| == |ss| == |us| && i < |ss| && AllTrack(cs, ss, us, log, i) && Owned(ss, log)
    requires Condemned(cs[i], ss[i], us[i], log, i)
    ensures var s := TakenDown(cs[i], ss[i], at); AllTrack(cs, ss[i := s], us, log, -1) && Owned(ss[i := s], log)
  {
    AllTrackAgain(cs, ss, us, log, i, TakenDown(cs[i], ss[i], at));
  }

  /** A service whose restart has been entered, and whose breaker has been cleared. */
  ghost predicate Restartable(cs: seq<Config>, s: Service, u: Uptime, log: Trace, i: nat)
    requires i < |cs|
  {
    && Wanted(log, i) && (s.pid <= 0 ==> forall pid :: Owner(log, pid) != i)
    && (if s.pid > 0 then Tracks(cs[i], s.(wantsRestart := true), u, log, i)
        else Launchable(cs, s.(backoff := 0, wantsRestart := false), u, log, i))
  }

  lemma RestartKeeps(cs: seq<Config>, ss: seq<Service>, us: seq<Uptime>, log: Trace, i: nat)
    requires |cs| == |ss| == |us| && i < |ss| && AllTrack(cs, ss, us, log, -1) && Owned(ss, log) && Lawful(cs, log) && Owes(log) < 0
    ensures var l, s := Then(log, Restarted(i)), ss[i].(recent := []);
            && AllTrack(cs, ss[i := s], us, l, i) && Owned(ss[i := s], l) && Lawful(cs, l) && Owes(l) < 0
            && Restartable(cs, s, us[i], l, i)
  {
    var l := Then(log, Restarted(i));
    assert Tracks(cs[i], ss[i], us[i], log, i);
    assert AllTrack(cs, ss, us, log, i);
    NamedKeepsTrack(cs, ss, us, log, Restarted(i), i);
    AllStillTrackAround(cs, ss, us, l, i, ss[i].(recent := []));
    RestartedIsReady(cs, ss[i], us[i], log, i);
  }

  lemma RestartedIsReady(cs: seq<Config>, s: Service, u: Uptime, log: Trace, i: nat)
    requires i < |cs| && Tracks(cs[i], s, u, log, i) && (s.pid <= 0 ==> forall pid :: Owner(log, pid) != i)
    ensures Restartable(cs, s.(recent := []), u, Then(log, Restarted(i)), i)
  {
    var l := Then(log, Restarted(i));
    assert forall pid :: Owner(l, pid) == Owner(log, pid);
    if s.pid > 0 {
      RestartTracks(cs[i], s, u, log, i);
    }
  }

  lemma AskingKeeps(cs: seq<Config>, ss: seq<Service>, us: seq<Uptime>, log: Trace, i: nat)
    requires |cs| == |ss| == |us| && i < |ss| && AllTrack(cs, ss, us, log, i) && Owned(ss, log)
    requires ss[i].pid > 0 && Restartable(cs, ss[i], us[i], log, i)
    ensures var s := ss[i].(wantsRestart := true);
            AllTrack(cs, ss[i := s], us, log, -1) && Owned(ss[i := s], log) && Wanted(log, i) && Owner(log, s.pid) == i
  {
    AllTrackAgain(cs, ss, us, log, i, ss[i].(wantsRestart := true));
  }

  lemma LaunchingAgain(cs: seq<Config>, ss: seq<Service>, us: seq<Uptime>, log: Trace, i: nat)
    requires |cs| == |ss| == |us| && i < |ss| && AllTrack(cs, ss, us, log, i) && Owned(ss, log)
    requires ss[i].pid <= 0 && Restartable(cs, ss[i], us[i], log, i)
    ensures var s := ss[i].(backoff := 0, wantsRestart := false);
            AllTrack(cs, ss[i := s], us, log, i) && Owned(ss[i := s], log) && Launchable(cs, s, us[i], log, i)
  {
    AllStillTrackAround(cs, ss, us, log, i, ss[i].(backoff := 0, wantsRestart := false));
  }

  lemma NobodyLeft(ss: seq<Service>, log: Trace)
    requires Owned(ss, log) && forall j :: 0 <= j < |ss| ==> ss[j].pid <= 0
    ensures forall pid :: Owner(log, pid) < 0
  {
  }

  class Supervisor {
    const configs: seq<Config>
    var services: seq<Service>
    var uptime: seq<Uptime>
    var shuttingDown: bool
    var killDeadline: int
    var loopRunning: bool

    var clock: int
    var ticks: seq<nat>
    var forks: seq<int>
    ghost var log: Trace
    ghost var late: bool     // an operator's restart was carried out after the shutdown had begun

    ghost function Here(): Moment reads `log, `forks, `clock, `ticks {
      Moment(log, forks, clock, ticks)
    }

    ghost function Shown(): Scene reads `log, `forks, `clock, `ticks, `services, `uptime {
      Scene(Here(), services, uptime)
    }

    /** What holds between any two steps. */
    ghost predicate Frame()
      reads `services, `uptime, `shuttingDown, `killDeadline, `loopRunning, `clock, `log, `late
    {
      && |services| == |uptime| == |configs|
      && shuttingDown == ShuttingDown(log)
      && (shuttingDown ==> killDeadline == ShutDownAt(log) + GRACE)
      && loopRunning == !HasStopped(log)
      && late == !RestartsFirst(log)
      && 0 <= Latest(log) <= clock
      && Lawful(configs, log)
      && Owned(services, log)
    }

    /** What holds between callbacks. */
    ghost predicate Inv() reads this {
      && Frame() && Owes(log) < 0
      && AllTrack(configs, services, uptime, log, -1)
      && (shuttingDown && Childless(services) ==> !loopRunning)
    }

    constructor (configs: seq<Config>, ticks: seq<nat>, forks: seq<int>)
      ensures Inv() && log == Nothing && this.configs == configs && this.forks == forks && this.ticks == ticks && clock == 0
      ensures !shuttingDown && !late
    {
      this.configs := configs;
      services := seq(|configs|, i => Service(-1, Stopped, 0, false, 0, [], false, 0, 0, 0));
      uptime := seq(|configs|, i => Uptime(false, 0));
      shuttingDown := false;
      killDeadline := 0;
      loopRunning := true;
      clock := 0;
      this.ticks := ticks;
      this.forks := forks;
      log := Nothing;
      late := false;
    }

    /** Launches everything once, in order. */
    method Start()
      requires Inv() && log == Nothing
      modifies `services, `uptime, `clock, `ticks, `forks, `log
      ensures Inv() && (forall j: nat :: j < |services| ==> Attempts(log, j) == 1)
      ensures Here() == LaunchAll(seq(|configs|, _ => true), old(Here()))
      ensures |Tried(log)| == |services| && forall j: nat :: j < |services| ==> Tried(log)[j] == j
    {
      hide AllTrack, Owned, Lawful, Launchable, Owes, Launch;
      for i := 0 to |services|
        invariant Frame() && Owes(log) < 0 && AllTrack(configs, services, uptime, log, -1)
        invariant !shuttingDown && |services| == |old(services)|
        invariant forall j: nat :: j < |services| ==> Attempts(log, j) == if j < i then 1 else 0
        invariant Here() == LaunchAll(seq(i, _ => true), old(Here()))
        invariant |Tried(log)| == i && forall j: nat :: j < i ==> Tried(log)[j] == j
      {
        MayLaunch(configs, services, uptime, log, i);
        ghost var m := Here();
        Spawn(i);
        LaunchTries(m, i);
        forall j: nat ensures Attempts(log, j) == Attempts(m.log, j) + if j == i then 1 else 0 {
          AttemptedOnce(m, i, j);
        }
        assert seq(i + 1, _ => true)[..i] == seq(i, _ => true);
      }
    }

    method Now() returns (now: int)
      modifies `clock, `ticks
      ensures now == clock >= old(clock) && Here() == Look(old(Here()))
    {
      if ticks != [] {
        clock := clock + ticks[0];
        ticks := ticks[1..];
      }
      return clock;
    }

    method Fork(ghost i: nat) returns (pid: int)
      requires |services| == |uptime| == |configs| && i < |services| && AllTrack(configs, services, uptime, log, i)
      requires Owned(services, log) && services[i].pid <= 0
      modifies `forks
      ensures pid == NextPid(old(forks), log) && forks == Rest(old(forks))
      ensures pid == (if Usable(old(forks), services) then old(forks)[0] else -1) && (pid > 0 || pid == -1)
      ensures Usable(old(forks), services) <==> pid > 0
    {
      hide AllTrack, Owned;
      if forks == [] {
        return -1;
      }
      pid := forks[0];
      forks := forks[1..];
      if pid <= 0 {
        return -1;
      }
      InUse(configs, services, uptime, log, i, pid);
      if exists j :: 0 <= j < |services| && services[j].pid == pid {
        return -1;
      }
    }

    method PublishUptime(i: nat)
      requires i < |services| == |uptime|
      modifies `uptime
      ensures uptime == old(uptime)[i := Uptime(services[i].pid > 0, services[i].lastStart)]
    {
      uptime := uptime[i := Uptime(services[i].pid > 0, services[i].lastStart)];
    }

    method Spawn(i: nat)
      requires Frame() && Owes(log) < 0 && i < |services|
      requires AllTrack(configs, services, uptime, log, i) && Launchable(configs, services[i], uptime[i], log, i)
      modifies `services, `uptime, `clock, `ticks, `forks, `log
      ensures Frame() && Owes(log) < 0 && AllTrack(configs, services, uptime, log, -1)
      ensures Here() == Launch(old(Here()), i)
      ensures forall j :: 0 <= j < |services| && j != i ==> services[j] == old(services)[j]
      ensures Attempted(old(services)[i], services[i], Usable(old(forks), old(services)), old(forks), clock)
    {
      hide Tracks, Allowed, AllTrack, Owned, Lawful, Launchable, Owner, Owes, PutOff, Usable;
      LaunchableIsIdle(configs, services[i], uptime[i], log, i);
      var pid := Fork(i);
      if pid < 0 {
        FailedForkKeeps(configs, services, uptime, log, i);
        log := Then(log, ForkFailed(i));
        ScheduleRestart(i);
        return;
      }
      var now := Now();
      LaunchKeeps(configs, services, uptime, log, i, pid, now);
      log := Then(log, Forked(i, pid, now));
      services := services[i := services[i].(pid := pid, state := Running, isDown := false, lastStart := now)];
      PublishUptime(i);
    }

    lemma LaunchableIsIdle(cs: seq<Config>, s: Service, u: Uptime, log: Trace, i: nat)
      requires i < |cs| && Launchable(cs, s, u, log, i)
      ensures s.pid <= 0
    {
    }

    method ScheduleRestart(i: nat)
      requires Frame() && Owes(log) < 0 && i < |services|
      requires AllTrack(configs, services, uptime, log, i) && PutOff(configs[i], services[i], uptime[i], log, i)
      modifies `services, `clock, `ticks, `log
      ensures Frame() && Owes(log) < 0 && AllTrack(configs, services, uptime, log, -1)
      ensures log.Then? && log.entry.Scheduled? && log.entry.service == i && log.before == old(log)
      ensures var m := Look(old(Here())); Here() == m.(log := Then(old(log), Scheduled(i, m.clock)))
      ensures services == old(services)[i := Rescheduled(configs[i], old(services)[i], log.entry.at)]
    {
      hide AllTrack, Owned, Lawful, PutOff, Owes;
      var now := Now();
      var s := services[i];
      var ran := (now - s.lastStart) / SECOND;
      if ran >= STABLE / SECOND || s.backoff == 0 {
        s := s.(backoff := configs[i].backoffMin);
      } else {
        s := s.(backoff := Min(s.backoff * 2, configs[i].backoffMax));
      }
      s := s.(state := Backoff, nextRestart := now + s.backoff * SECOND);
      SchedulingKeeps(configs, services, uptime, log, i, now);
      log := Then(log, Scheduled(i, now));
      services := services[i := s];
    }

    method PruneFailures(i: nat, now: int)
      requires i < |services| && Ordered(services[i].recent)
      modifies `services
      ensures services == old(services)[i := old(services)[i].(recent := Recent(old(services)[i].recent, now))]
    {
      while services[i].recent != [] && now - services[i].recent[0] > WINDOW
        invariant i < |services| && Ordered(services[i].recent)
        invariant services == old(services)[i := old(services)[i].(recent := services[i].recent)]
        invariant Recent(services[i].recent, now) == Recent(old(services)[i].recent, now)
        decreases |services[i].recent|
      {
        RecentDropsFront(services[i].recent, now);
        services := services[i := services[i].(recent := services[i].recent[1..])];
      }
      if services[i].recent != [] {
        RecentDropsFront(services[i].recent, now);
      }
    }

    method MarkDown(i: nat)
      requires i < |services|
      modifies `services, `clock, `ticks
      ensures clock >= old(clock)
      ensures if old(services)[i].isDown then services == old(services) && Here() == old(Here())
              else services == old(services)[i := old(services)[i].(isDown := true, downSince := clock)] && Here() == Look(old(Here()))
    {
      if services[i].isDown {
        return;
      }
      var now := Now();
      services := services[i := services[i].(isDown := true, downSince := now)];
    }

    /** Books an unexpected exit. */
    method RecordFailure(i: nat)
      requires Frame() && i < |services| && !shuttingDown && !services[i].wantsRestart
      requires AllTrack(configs, services, uptime, log, i) && Buried(configs[i], services[i], uptime[i], log, i)
      modifies `services, `clock, `ticks, `log
      ensures Frame() && Owes(log) < 0 && AllTrack(configs, services, uptime, log, i)
      ensures Noting(configs[i], services[i], uptime[i], log, i)
      ensures log.Then? && log.entry.Noted? && log.entry.service == i && log.before == old(log)
      ensures var m := Look(old(Here())); Here() == m.(log := Then(old(log), Noted(i, m.clock)))
      ensures services == old(services)[i := Booked(old(services)[i], log.entry.at)]
    {
      hide AllTrack, Owned, Lawful, Buried, Noting, Owes, Ordered, Recent;
      var now := Now();
      BookingKeeps(configs, services, uptime, log, i, now);
      services := services[i := services[i].(failureCount := services[i].failureCount + 1,
                                             recent := services[i].recent + [now])];
      PruneFailures(i, now);
      log := Then(log, Noted(i, now));
      assert services == old(services)[i := Booked(old(services)[i], now)];
    }

    method FindByPid(pid: int) returns (i: int)
      requires Frame() && pid > 0 && AllTrack(configs, services, uptime, log, -1)
      ensures i == Owner(log, pid) || (i < 0 && Owner(log, pid) < 0)
      ensures i < |services| && (i >= 0 ==> services[i].pid == pid)
      ensures forall j :: 0 <= j < |services| && services[j].pid == pid ==> j == i
    {
      for k := 0 to |services|
        invariant forall j :: 0 <= j < k ==> services[j].pid != pid
      {
        if services[k].pid == pid {
          return k;
        }
      }
      return -1;
    }

    method FindByName(name: string) returns (i: int)
      requires |services| == |configs|
      ensures i == IndexOf(configs, name)
    {
      for k := 0 to |services|
        invariant forall j :: 0 <= j < k ==> configs[j].name != name
      {
        if configs[k].name == name {
          return k;
        }
      }
      return -1;
    }

    /** One child that waitpid returned. */
    method Reap(pid: int)
      requires Frame() && Owes(log) < 0 && AllTrack(configs, services, uptime, log, -1) && pid > 0
      modifies `services, `uptime, `clock, `ticks, `forks, `log
      ensures Frame() && Owes(log) < 0 && AllTrack(configs, services, uptime, log, -1)
      ensures Here() == Deal(configs, pid, old(Here()))
      ensures forall j :: 0 <= j < |services| && j != Owner(old(log), pid) ==> services[j] == old(services)[j]
      ensures forall j :: 0 <= j < |services| && old(services)[j].pid == pid ==>
                Fate(configs[j], old(services)[j], services[j], shuttingDown, old(log), log, j)
    {
      hide AllTrack, Owned, Lawful, Owner, Owes, Wanted, Buried, Out, Launch, Unasked;
      var i := FindByPid(pid);
      ReapingKeeps(configs, services, uptime, log, pid);
      log := Then(log, Reaped(pid));
      if i < 0 {
        return;
      }
      services := services[i := services[i].(pid := -1)];
      PublishUptime(i);
      if shuttingDown {
        StoppingKeeps(configs, services, uptime, log, i);
        services := services[i := services[i].(state := Stopped)];
      } else if services[i].wantsRestart {
        StillWanted(old(log), pid, i);
        Relaunch(i);
      } else {
        Unexpected(i);
      }
    }

    lemma StillWanted(before: Trace, pid: int, i: nat)
      ensures Wanted(Then(before, Reaped(pid)), i) == Wanted(before, i)
    {
    }

    /** The end of a child that an operator's restart had asked to end. */
    method Relaunch(i: nat)
      requires Frame() && i < |services| && Owes(log) < 0 && !shuttingDown
      requires AllTrack(configs, services, uptime, log, i)
      requires Buried(configs[i], services[i], uptime[i], log, i) && Wanted(log, i)
      modifies `services, `uptime, `clock, `ticks, `forks, `log
      ensures Frame() && Owes(log) < 0 && AllTrack(configs, services, uptime, log, -1)
      ensures Here() == Launch(old(Here()), i)
      ensures Tried(log) == Tried(old(log)) + [i] && !services[i].wantsRestart
      ensures services[i].failureCount == old(services)[i].failureCount && services[i].recent == old(services)[i].recent
      ensures services[i].state == Running || services[i].state == Backoff
      ensures forall j :: 0 <= j < |services| && j != i ==> services[j] == old(services)[j]
    {
      hide AllTrack, Owned, Lawful, Owner, Owes, Wanted, Buried, Launch, Launchable;
      RelaunchReady(configs, services, uptime, log, i);
      services := services[i := services[i].(wantsRestart := false, backoff := 0)];
      LaunchTries(Here(), i);
      Spawn(i);
    }

    /** An exit that nobody asked for. */
    method Unexpected(i: nat)
      requires Frame() && i < |services| && !shuttingDown
      requires AllTrack(configs, services, uptime, log, i) && Buried(configs[i], services[i], uptime[i], log, i)
      requires !services[i].wantsRestart
      modifies `services, `clock, `ticks, `log
      ensures Frame() && Owes(log) < 0 && AllTrack(configs, services, uptime, log, -1)
      ensures Here() == Unasked(configs[i], old(Here()), i)
      ensures Tried(log) == Tried(old(log)) && services[i].pid == old(services)[i].pid
      ensures services[i].failureCount == old(services)[i].failureCount + 1
      ensures services[i].state == (if !configs[i].autorestart then Failed else if |services[i].recent| >= 6 then Quarantined else Backoff)
      ensures forall j :: 0 <= j < |services| && j != i ==> services[j] == old(services)[j]
    {
      hide AllTrack, Owned, Lawful, Owner, Buried, Accounts, Noting, PutOff, Owes;
      RecordFailure(i);
      NotingMeans(configs[i], services[i], uptime[i], log, i);
      if !configs[i].autorestart {
        TakeDown(i, Failed);
      } else if |services[i].recent| > MAX_FAILURES {
        TakeDown(i, Quarantined);
      } else {
        ScheduleRestart(i);
      }
    }

    method TakeDown(i: nat, state: State)
      requires Frame() && i < |services| && Owes(log) < 0
      requires AllTrack(configs, services, uptime, log, i) && Condemned(configs[i], services[i], uptime[i], log, i)
      requires state == if configs[i].autorestart then Quarantined else Failed
      modifies `services, `clock, `ticks
      ensures Frame() && Owes(log) < 0 && AllTrack(configs, services, uptime, log, -1)
      ensures services == old(services)[i := TakenDown(configs[i], old(services)[i], clock)] && Here() == Look(old(Here()))
    {
      hide AllTrack, Owned, Lawful, Condemned, Owes;
      NotYetDown(configs[i], services[i], uptime[i], log, i);
      services := services[i := services[i].(state := state)];
      MarkDown(i);
      TakingDownKeeps(configs, old(services), uptime, log, i, clock);
      assert services == old(services)[i := TakenDown(configs[i], old(services)[i], clock)];
    }

    lemma NotYetDown(c: Config, s: Service, u: Uptime, log: Trace, i: nat)
      requires Condemned(c, s, u, log, i)
      ensures !s.isDown
    {
    }

    /** SIGCHLD: `exits` are what waitpid returns, one by one. */
    method OnSigchld(exits: seq<int>)
      requires Inv()
      modifies `services, `uptime, `clock, `ticks, `forks, `log, `loopRunning
      ensures Inv()
      ensures Drained(DealWithAll(configs, Zombies(exits), old(Here())), Here(), services, shuttingDown)
      ensures SigchldDoes(exits, old(log), log)
      ensures forall j :: 0 <= j < |services| && old(services)[j].state in {Failed, Quarantined} ==> services[j] == old(services)[j]
    {
      hide AllTrack, Owned, Lawful, Deal, Owes;
      var k := 0;
      while k < |exits| && exits[k] > 0
        invariant k <= |exits| && Frame() && Owes(log) < 0 && AllTrack(configs, services, uptime, log, -1)
        invariant loopRunning == old(loopRunning)
        invariant Zombies(exits) == exits[..k] + Zombies(exits[k..])
        invariant Here() == DealWithAll(configs, exits[..k], old(Here()))
        invariant forall j :: 0 <= j < |services| && old(services)[j].state in {Failed, Quarantined} ==> services[j] == old(services)[j]
      {
        NextZombie(exits, k);
        ParentRuns(configs, services, uptime, log, exits[k]);
        Reap(exits[k]);
        assert exits[..k + 1][..k] == exits[..k];
        k := k + 1;
      }
      assert Zombies(exits[k..]) == [] && Zombies(exits) == exits[..k];
      ghost var dealt := log;
      if shuttingDown {
        FinishIfDrained();
      }
      SigchldDone(configs, exits, old(Here()), log);
    }

    method Signal(k: nat, signal: Signal)
      requires Frame() && Owes(log) < 0 && k < |services| && Owner(log, services[k].pid) == k
      requires if signal.Kill? then shuttingDown && LastTick(log) >= killDeadline else shuttingDown || Wanted(log, k)
      modifies `log
      ensures Frame() && Owes(log) < 0 && log == Then(old(log), Signalled(services[k].pid, signal))
    {
      log := Then(log, Signalled(services[k].pid, signal));
    }

    method FinishIfDrained()
      requires Frame() && Owes(log) < 0 && AllTrack(configs, services, uptime, log, -1) && shuttingDown
      modifies `loopRunning, `log
      ensures Inv()
      ensures log == if Childless(services) then Then(old(log), LoopStopped) else old(log)
    {
      for k := 0 to |services|
        invariant forall j :: 0 <= j < k ==> services[j].pid <= 0
      {
        if services[k].pid > 0 {
          assert Owes(log) < 0;
          assert Frame();
          return;
        }
      }
      NobodyLeft(services, log);
      AllStillTrack(configs, services, uptime, log, LoopStopped, -1);
      assert Allowed(configs, log, LoopStopped);
      log := Then(log, LoopStopped);
      loopRunning := false;
      assert Frame();
      assert Owes(log) < 0;
    }

    /** The once-a-second timer. */
    method OnTick() returns (now: int)
      requires Inv()
      modifies `services, `uptime, `clock, `ticks, `forks, `log, `loopRunning
      ensures Inv() && now == Look(old(Here())).clock
      ensures var t := Look(old(Here())).(log := Then(old(log), Ticked(now)));
              if shuttingDown then
                var signalled := if now >= killDeadline then t.(log := Signals(services, t.log, Kill)) else t;
                services == old(services) && Drained(signalled, Here(), services, true)
              else
                && Here() == LaunchAll(DueNow(old(services), now), t)
                && forall j :: 0 <= j < |services| && !DueNow(old(services), now)[j] ==> services[j] == old(services)[j]
      ensures TickDoes(old(services), old(log), log)
    {
      hide AllTrack, Owned, Lawful, Owes, DueNow, LaunchAll, TickDoes, Signals;
      now := Now();
      TickKeeps(configs, services, uptime, log, now);
      log := Then(log, Ticked(now));
      if shuttingDown {
        if now >= killDeadline {
          SignalAll(Kill, now);
        }
        FinishIfDrained();
        TickKilled(services, old(log), now, log);
        return;
      }
      ghost var t := Here();
      RelaunchDue(now);
      TickLaunched(old(services), t, old(log), now);
    }

    /** Launches what has waited long enough, in order. */
    method RelaunchDue(now: int)
      requires Frame() && Owes(log) < 0 && AllTrack(configs, services, uptime, log, -1)
      requires !shuttingDown && LastTick(log) == now
      modifies `services, `uptime, `clock, `ticks, `forks, `log
      ensures Frame() && Owes(log) < 0 && AllTrack(configs, services, uptime, log, -1)
      ensures Here() == LaunchAll(DueNow(old(services), now), old(Here()))
      ensures forall j :: 0 <= j < |services| && !DueNow(old(services), now)[j] ==> services[j] == old(services)[j]
    {
      hide AllTrack, Owned, Lawful, Owes, Launchable, Launch;
      ghost var due := DueNow(services, now);
      for i := 0 to |services|
        invariant Frame() && Owes(log) < 0 && AllTrack(configs, services, uptime, log, -1)
        invariant LastTick(log) == now && |services| == |old(services)|
        invariant Here() == LaunchAll(due[..i], old(Here()))
        invariant forall j :: 0 <= j < |services| && (j >= i || !due[j]) ==> services[j] == old(services)[j]
      {
        ghost var m := Here();
        if services[i].state == Backoff && now >= services[i].nextRestart {
          MayRelaunch(configs, services, uptime, log, i);
          Spawn(i);
          LaunchedTicksNothing(m, i);
        }
        assert due[..i + 1][..i] == due[..i];
      }
      assert due[..|services|] == due;
    }

    /** Every living child is signalled, in the order of the services. */
    method SignalAll(signal: Signal, ghost now: int)
      requires Frame() && Owes(log) < 0 && AllTrack(configs, services, uptime, log, -1)
      requires shuttingDown && LastTick(log) == now && (signal.Kill? ==> now >= killDeadline)
      modifies `log
      ensures Frame() && Owes(log) < 0 && AllTrack(configs, services, uptime, log, -1)
      ensures log == Signals(services, old(log), signal)
    {
      for k := 0 to |services|
        invariant Frame() && Owes(log) < 0 && AllTrack(configs, services, uptime, log, -1)
        invariant LastTick(log) == now && log == Signals(services[..k], old(log), signal)
      {
        SignalsNext(services, old(log), signal, k);
        if services[k].pid > 0 {
          KnowsItsChild(configs, services, uptime, log, k);
          SignalsKeepTrack(configs, services, uptime, log, Signalled(services[k].pid, signal), -1);
          Signal(k, signal);
        }
      }
      assert services[..|services|] == services;
    }

    method BeginShutdown()
      requires Inv()
      modifies `services, `clock, `ticks, `log, `loopRunning, `shuttingDown, `killDeadline
      ensures Inv() && shuttingDown
      ensures forall j :: 0 <= j < |services| ==>
                services[j] == Halted(old(services)[j])
      ensures killDeadline == Look(old(Here())).clock + GRACE
      ensures var m := Look(old(Here()));
              Drained(m.(log := Signals(old(services), Then(old(log), ShutDown(m.clock)), Terminate)), Here(), services, true)
      ensures StopDoes(old(services), old(log), log)
    {
      hide AllTrack, HalfTrack, Owned, Lawful, Owes, Signals, Childless, StopDoes;
      SetDeadline();
      TerminateAll();
      FinishIfDrained();
      StopDone(old(services), old(log), Look(old(Here())).clock, log);
    }

    method SetDeadline()
      requires Inv()
      modifies `clock, `ticks, `log, `shuttingDown, `killDeadline
      ensures Frame() && Owes(log) < 0 && shuttingDown && HalfTrack(configs, services, uptime, log, 0)
      ensures var m := Look(old(Here())); killDeadline == m.clock + GRACE && Here() == m.(log := Then(old(log), ShutDown(m.clock)))
    {
      shuttingDown := true;
      var now := Now();
      killDeadline := now + GRACE;
      HalfTrackStarts(configs, services, uptime, log, ShutDown(now));
      log := Then(log, ShutDown(now));
      assert Owes(log) < 0;
    }

    /** Every living child is asked to end; every other service counts as stopped. */
    method TerminateAll()
      requires Frame() && Owes(log) < 0 && shuttingDown && HalfTrack(configs, services, uptime, log, 0)
      modifies `services, `log
      ensures Frame() && Owes(log) < 0 && AllTrack(configs, services, uptime, log, -1)
      ensures forall j :: 0 <= j < |services| ==>
                services[j] == Halted(old(services)[j])
      ensures log == Signals(old(services), old(log), Terminate)
    {
      for k := 0 to |services|
        invariant Frame() && Owes(log) < 0
        invariant |services| == |old(services)| && HalfTrack(configs, services, uptime, log, k)
        invariant forall j :: 0 <= j < k ==>
                    services[j] == Halted(old(services)[j])
        invariant forall j :: k <= j < |services| ==> services[j] == old(services)[j]
        invariant log == Signals(old(services)[..k], old(log), Terminate)
      {
        SignalsNext(old(services), old(log), Terminate, k);
        Halt(k);
      }
      assert old(services)[..|services|] == old(services);
    }

    method Halt(k: nat)
      requires Frame() && Owes(log) < 0 && shuttingDown && k < |services| && HalfTrack(configs, services, uptime, log, k)
      modifies `services, `log
      ensures Frame() && Owes(log) < 0 && HalfTrack(configs, services, uptime, log, k + 1)
      ensures services == old(services)[k := Halted(old(services)[k])]
      ensures log == if services[k].pid > 0 then Then(old(log), Signalled(services[k].pid, Terminate)) else old(log)
    {
      HalfTrackNext(configs, services, uptime, log, k);
      if services[k].pid > 0 {
        HalfStillTrack(configs, services, uptime, log, Signalled(services[k].pid, Terminate), k + 1);
        Signal(k, Terminate);
      } else {
        services := services[k := Halted(services[k])];
      }
    }

    method DoRestart(name: string) returns (found: bool)
      requires Inv()
      modifies `services, `uptime, `clock, `ticks, `forks, `log, `late
      ensures Inv()
      ensures late == (old(late) || (found && shuttingDown))
      ensures found <==> IndexOf(configs, name) >= 0
      ensures !found ==> Here() == old(Here()) && services == old(services)
      ensures found ==> var i := IndexOf(configs, name); Here() == RestartOf(old(Here()), i, old(services)[i].pid)
      ensures RestartDoes(configs, old(services), name, old(log), log)
    {
      hide AllTrack, Owned, Lawful, Owes, Launch, Restartable, IndexOf;
      var i := FindByName(name);
      if i < 0 {
        return false;
      }
      RestartKeeps(configs, services, uptime, log, i);
      late := late || shuttingDown;
      log := Then(log, Restarted(i));
      services := services[i := services[i].(recent := [])];
      if services[i].pid > 0 {
        AskToEnd(i);
        assert services[i].pid > 0;
        assert Inv();
      } else {
        LaunchAgain(i);
        ChildlessBefore(old(services), services, i);
        assert Childless(services) ==> old(Childless(services));
        assert Inv();
      }
      RestartDone(configs, old(services), name, old(Here()), i);
      return true;
    }

    /** A restart of a service with a child: it is asked to end, and launched when it has. */
    method AskToEnd(i: nat)
      requires Frame() && Owes(log) < 0 && i < |services| && services[i].pid > 0
      requires AllTrack(configs, services, uptime, log, i) && Restartable(configs, services[i], uptime[i], log, i)
      modifies `services, `log
      ensures Frame() && Owes(log) < 0 && AllTrack(configs, services, uptime, log, -1)
      ensures log == Then(old(log), Signalled(old(services)[i].pid, Terminate))
      ensures services == old(services)[i := old(services)[i].(wantsRestart := true)]
    {
      hide AllTrack, Owned, Lawful, Owes, Restartable;
      AskingKeeps(configs, services, uptime, log, i);
      services := services[i := services[i].(wantsRestart := true)];
      SignalsKeepTrack(configs, services, uptime, log, Signalled(services[i].pid, Terminate), -1);
      Signal(i, Terminate);
    }

    /** A restart of a service without a child. */
    method LaunchAgain(i: nat)
      requires Frame() && Owes(log) < 0 && i < |services| && services[i].pid <= 0
      requires AllTrack(configs, services, uptime, log, i) && Restartable(configs, services[i], uptime[i], log, i)
      modifies `services, `uptime, `clock, `ticks, `forks, `log
      ensures Frame() && Owes(log) < 0 && AllTrack(configs, services, uptime, log, -1)
      ensures Here() == Launch(old(Here()), i)
      ensures forall j :: 0 <= j < |services| && j != i ==> services[j] == old(services)[j]
    {
      hide AllTrack, Owned, Lawful, Owes, Restartable, Launchable, Launch;
      LaunchingAgain(configs, services, uptime, log, i);
      services := services[i := services[i].(backoff := 0, wantsRestart := false)];
      Spawn(i);
    }
  }

  // ---- whole runs ----

  datatype Event = Sigchld(exits: seq<int>) | Tick | Restart(name: string) | Stop

  /** The order in which main stops things: whoever posts restarts goes first. */
  predicate StopOrder(events: seq<Event>) {
    forall a, b :: 0 <= a < b < |events| && events[a].Stop? ==> !events[b].Restart?
  }

  /** The callbacks of a run that are posted tasks. */
  function Tasks(events: seq<Event>): seq<Event> {
    if events == [] then []
    else
      var older, last := Tasks(events[..|events| - 1]), events[|events| - 1];
      if last.Restart? || last.Stop? then older + [last] else older
  }

  lemma {:induction false} TaskAt(events: seq<Event>, k: nat)
    requires k < |events| && (events[k].Restart? || events[k].Stop?)
    ensures |Tasks(events[..k])| < |Tasks(events)| && Tasks(events)[|Tasks(events[..k])|] == events[k]
  {
    var rest := events[..|events| - 1];
    if k < |rest| {
      TaskAt(rest, k);
      assert rest[..k] == events[..k];
    }
  }

  /** The loop runs posted tasks in the order of posting and each once, so what it has run is a
      prefix of what was posted; the order in which main stops things carries over. */
  lemma PostingOrderCarriesOver(posted: seq<Event>, events: seq<Event>)
    requires Tasks(events) <= posted && StopOrder(posted)
    ensures StopOrder(events)
  {
    forall a, b | 0 <= a < b < |events| && events[a].Stop? ensures !events[b].Restart? {
      if events[b].Restart? {
        assert events[..b][..a] == events[..a];
        TaskAt(events, a);
        TaskAt(events[..b], a);
        TaskAt(events, b);
      }
    }
  }

  /** A supervisor between two callbacks. */
  datatype Scene = Scene(at: Moment, services: seq<Service>, uptime: seq<Uptime>)

  /** The trace is lawful and the fields mirror it. */
  ghost predicate Mirrors(cs: seq<Config>, s: Scene) {
    && |cs| == |s.services| == |s.uptime|
    && Lawful(cs, s.at.log) && Owned(s.services, s.at.log) && AllTrack(cs, s.services, s.uptime, s.at.log, -1)
  }

  /** The deeds of an event. */
  ghost predicate Does(cs: seq<Config>, e: Event, a: Scene, b: Scene)
    requires |cs| == |a.services|
  {
    match e
    case Sigchld(exits) => SigchldDoes(exits, a.at.log, b.at.log)
    case Tick => TickDoes(a.services, a.at.log, b.at.log)
    case Restart(name) => RestartDoes(cs, a.services, name, a.at.log, b.at.log)
    case Stop => StopDoes(a.services, a.at.log, b.at.log)
  }

  /** What an event leads to. */
  ghost predicate Leads(cs: seq<Config>, e: Event, a: Scene, b: Scene) {
    match e
    case Sigchld(exits) => Drained(DealWithAll(cs, Zombies(exits), a.at), b.at, b.services, ShuttingDown(a.at.log))
    case Tick => TickLeads(a, b)
    case Restart(name) =>
      var i := IndexOf(cs, name);
      if i < 0 || i >= |a.services| then b.at == a.at && b.services == a.services
      else b.at == RestartOf(a.at, i, a.services[i].pid)
    case Stop =>
      var m := Look(a.at);
      Drained(m.(log := Signals(a.services, Then(a.at.log, ShutDown(m.clock)), Terminate)), b.at, b.services, true)
  }

  ghost predicate TickLeads(a: Scene, b: Scene) {
    var now := Look(a.at).clock;
    var t := Look(a.at).(log := Then(a.at.log, Ticked(now)));
    if ShuttingDown(a.at.log) then
      var signalled := if now >= ShutDownAt(a.at.log) + GRACE then t.(log := Signals(a.services, t.log, Kill)) else t;
      b.services == a.services && Drained(signalled, b.at, b.services, true)
    else b.at == LaunchAll(DueNow(a.services, now), t)
  }

  ghost predicate AllLead(cs: seq<Config>, events: seq<Event>, scenes: seq<Scene>) {
    && |scenes| == |events| + 1 && Mirrors(cs, scenes[0])
    && forall k :: 0 <= k < |events| ==> LeadsOn(cs, events[k], scenes[k], scenes[k + 1])
  }

  ghost predicate LeadsOn(cs: seq<Config>, e: Event, a: Scene, b: Scene) {
    |cs| == |a.services| && Leads(cs, e, a, b) && Does(cs, e, a, b) && Mirrors(cs, b)
  }

  method Handle(s: Supervisor, e: Event)
    requires s.Inv()
    modifies s
    ensures s.Inv() && |s.configs| == |old(s.services)|
    ensures Leads(s.configs, e, old(s.Shown()), s.Shown()) && Does(s.configs, e, old(s.Shown()), s.Shown())
    ensures s.shuttingDown == (old(s.shuttingDown) || e.Stop?)
    ensures s.late == (old(s.late) || (e.Restart? && IndexOf(s.configs, e.name) >= 0 && s.shuttingDown))
  {
    hide AllTrack, Owned, Lawful, Owes, DealWithAll, LaunchAll, DueNow, Zombies, IndexOf, Signals, Drained, RestartOf, Look, SigchldDoes,
      TickDoes, RestartDoes, StopDoes;
    match e
    case Sigchld(exits) => s.OnSigchld(exits);
    case Tick => var _ := s.OnTick();
    case Restart(name) => var _ := s.DoRestart(name);
    case Stop => s.BeginShutdown();
  }

  lemma Mirrored(s: Supervisor)
    requires s.Inv()
    ensures Mirrors(s.configs, s.Shown()) && s.late == !RestartsFirst(s.log)
  {
    hide Lawful, Owned, AllTrack;
  }

  /** Any run: the launches at the start, then callbacks in any order, whatever the system does. Every event leads to
      what its callback does, and in between the fields mirror a lawful trace. */
  method Supervise(configs: seq<Config>, ticks: seq<nat>, forks: seq<int>, events: seq<Event>)
    returns (s: Supervisor, ghost scenes: seq<Scene>)
    ensures s.Inv() && s.configs == configs
    ensures AllLead(configs, events, scenes) && scenes[|events|] == s.Shown()
    ensures scenes[0].at == LaunchAll(seq(|configs|, _ => true), Moment(Nothing, forks, 0, ticks))
    ensures StopOrder(events) ==> RestartsFirst(s.log)
  {
    hide AllTrack, Owned, Lawful, Owes, LaunchAll, Leads, Does, Mirrors, Supervisor.Inv;
    s := new Supervisor(configs, ticks, forks);
    s.Start();
    Mirrored(s);
    scenes := [s.Shown()];
    for k := 0 to |events|
      invariant s.Inv() && s.configs == configs
      invariant s.shuttingDown ==> exists a :: 0 <= a < k && events[a].Stop?
      invariant StopOrder(events) ==> !s.late
      invariant AllLead(configs, events[..k], scenes) && scenes[k] == s.Shown()
      invariant scenes[0].at == LaunchAll(seq(|configs|, _ => true), Moment(Nothing, forks, 0, ticks))
    {
      Handle(s, events[k]);
      Mirrored(s);
      scenes := scenes + [s.Shown()];
    }
    Mirrored(s);
  }
}
