/** Runs of the supervisor that end where one would not expect. */
module SupervisorRuns {
  import opened Basics
  import opened SupervisorTrace
  import opened SupervisorPace
  import opened Supervision

  // ---- one service ----

  lemma OneExit(cs: seq<Config>, m: Moment)
    ensures Zombies([7]) == [7] && DealWithAll(cs, [7], m) == Deal(cs, 7, m)
  {
    assert [7][1..] == [];
    assert [7][..0] == [];
  }

  lemma OneLaunch(due: seq<bool>, m: Moment)
    requires |due| == 1 && due[0]
    ensures LaunchAll(due, m) == Launch(m, 0)
  {
    assert due[..0] == [];
  }

  lemma TracksFirst(s: Supervisor)
    requires s.Inv() && |s.configs| == 1
    ensures |s.services| == |s.uptime| == 1 && Tracks(s.configs[0], s.services[0], s.uptime[0], s.log, 0)
    ensures Lawful(s.configs, s.log) && Latest(s.log) <= s.clock && s.shuttingDown == ShuttingDown(s.log)
  {
  }

  // ---- a restart in vain ----

  /** What a trace says after a launch, */
  lemma AfterLaunch(log: Trace, at: int)
    requires log == Then(Nothing, Forked(0, 7, at))
    ensures Owner(log, 7) == 0 && (forall pid :: pid != 7 ==> Owner(log, pid) < 0)
    ensures !Wanted(log, 0) && !ShuttingDown(log) && Failures(log, 0) == [] && Attempts(log, 0) == 1
  {
    assert Owner(Nothing, 7) == -1 && Failures(Nothing, 0) == [] && Attempts(Nothing, 0) == 0;
  }

  /** after an exit of a service that is not restarted on its own, */
  lemma AfterExit(c: Config, log: Trace, at: int, noted: int)
    requires !c.autorestart && log == Then(Then(Then(Nothing, Forked(0, 7, at)), Reaped(7)), Noted(0, noted))
    ensures Down(c, log, 0) && Out(c, log, 0) && Attempts(log, 0) == 1 && !ShuttingDown(log) && forall pid :: Owner(log, pid) < 0
  {
    var launched, reaped := log.before.before, log.before;
    AfterLaunch(launched, at);
    assert Failures(reaped, 0) == [] && Attempts(reaped, 0) == 1 && !ShuttingDown(reaped);
    assert forall pid :: Owner(reaped, pid) < 0;
    assert Failures(log, 0) == [noted];
  }

  /** and after a restart whose fork fails: the service is down, though it is not out any more. */
  lemma AfterRestart(c: Config, noted: Trace, log: Trace, at: int)
    requires Down(c, noted, 0) && Attempts(noted, 0) == 1 && !ShuttingDown(noted) && forall pid :: Owner(noted, pid) < 0
    requires !c.autorestart && log == Then(Then(Then(noted, Restarted(0)), ForkFailed(0)), Scheduled(0, at))
    ensures Down(c, log, 0) && !Out(c, log, 0) && Attempts(log, 0) == 2 && !ShuttingDown(log) && forall pid :: Owner(log, pid) < 0
  {
    var restarted := Then(noted, Restarted(0));
    var failed := Then(restarted, ForkFailed(0));
    assert Failures(restarted, 0) == [] && Down(c, restarted, 0) && !ShuttingDown(restarted) && Attempts(restarted, 0) == 1;
    assert Failures(failed, 0) == [] && Down(c, failed, 0) && !ShuttingDown(failed) && Attempts(failed, 0) == 2;
    assert forall pid :: Owner(restarted, pid) < 0;
    assert forall pid :: Owner(failed, pid) < 0;
  }

  /** The mark and the state are those that the trace demands. */
  lemma MarkedDown(c: Config, s: Service, u: Uptime, log: Trace)
    requires Tracks(c, s, u, log, 0) && Down(c, log, 0) && !Out(c, log, 0)
    requires Attempts(log, 0) > 0 && !ShuttingDown(log) && forall pid :: Owner(log, pid) < 0
    ensures s.isDown && s.state == Backoff
  {
  }

  lemma ChildFree(s: Supervisor)
    requires s.Inv() && |s.configs| == 1 && forall pid :: Owner(s.log, pid) < 0
    ensures |s.services| == 1 && s.services[0].pid <= 0
  {
    TracksFirst(s);
  }

  /** The only launch, exit and restart of the run below. */
  lemma VainMoments(c: Config)
    requires !c.autorestart
    ensures var start := Moment(Nothing, [7], 0, []);
            var launched := Then(Nothing, Forked(0, 7, 0));
            var noted := Then(Then(launched, Reaped(7)), Noted(0, 0));
            && Launch(start, 0) == Moment(launched, [], 0, [])
            && Deal([c], 7, Moment(launched, [], 0, [])) == Moment(noted, [], 0, [])
            && RestartOf(Moment(noted, [], 0, []), 0, -1)
               == Moment(Then(Then(Then(noted, Restarted(0)), ForkFailed(0)), Scheduled(0, 0)), [], 0, [])
  {
    var launched := Then(Nothing, Forked(0, 7, 0));
    AfterLaunch(launched, 0);
    AfterExit(c, Then(Then(launched, Reaped(7)), Noted(0, 0)), 0, 0);
    assert Owner(Nothing, 7) == -1;
  }

  /** Being down does not tell that a service is out: it exits, is given up, and is restarted when no fork works. */
  method RestartInVain(name: string) returns (s: Supervisor)
    ensures s.Inv() && |s.services| == 1 && s.services[0].isDown && s.services[0].state == Backoff
    ensures |s.configs| == 1 && !Out(s.configs[0], s.log, 0)
  {
    hide Lawful, Down, Out, Owner, Attempts, Failures, Zombies, Tracks, Wanted, Launch, Deal, LaunchAll, DealWithAll,
      Supervisor.Inv;
    var c := Config(name, false, 1, 1);
    VainMoments(c);
    s := new Supervisor([c], [], [7]);
    s.Start();
    OneLaunch(seq(1, _ => true), Moment(Nothing, [7], 0, []));
    TracksFirst(s);
    AfterLaunch(s.log, 0);
    OneExit([c], s.Here());
    s.OnSigchld([7]);
    AfterExit(c, s.log, 0, 0);
    ChildFree(s);
    ghost var noted, pid := s.log, s.services[0].pid;
    var found := s.DoRestart(name);
    AfterRestart(c, noted, s.log, 0);
    TracksFirst(s);
    MarkedDown(c, s.services[0], s.uptime[0], s.log);
  }

  // ---- a climb with launches as late as `slack` allows ----

  /** When rung `k` is reached: every launch comes `slack` after it was due and is followed by a run that is just short. */
  function ReachedAt(c: Config, slack: int, k: nat): int {
    if k == 0 then 0 else ReachedAt(c, slack, k - 1) + Delay(c, k - 1) * SECOND + slack + STABLE - 1
  }

  /** Of the exit that leads to rung `k`, by how much of the run it comes late: the first five are noted at once. */
  function Lag(k: nat): int {
    if k <= 5 then 0 else STABLE - 1
  }

  function ExitAt(c: Config, slack: int, k: nat): int
    requires k > 0
  {
    ReachedAt(c, slack, k) - (STABLE - 1) + Lag(k)
  }

  function Exits(c: Config, slack: int, k: nat): seq<int> {
    if k == 0 then [] else Exits(c, slack, k - 1) + [ExitAt(c, slack, k)]
  }

  lemma {:induction false} ReachedLater(c: Config, slack: int, k: nat)
    requires Sane(c) && slack >= 0
    ensures 0 <= ReachedAt(c, slack, k)
    ensures k > 0 ==> ReachedAt(c, slack, k - 1) + STABLE <= ReachedAt(c, slack, k)
  {
    if k > 0 {
      ReachedLater(c, slack, k - 1);
      DelayGrows(c, k - 1, k - 1);
    }
  }

  lemma {:induction false} ExitsAre(c: Config, slack: int, k: nat)
    ensures |Exits(c, slack, k)| == k && forall j :: 0 <= j < k ==> Exits(c, slack, k)[j] == ExitAt(c, slack, j + 1)
  {
    hide ExitAt;
    if k > 0 {
      ExitsAre(c, slack, k - 1);
    }
  }

  lemma {:induction false} ExitsInOrder(c: Config, slack: int, k: nat)
    requires Sane(c) && slack >= 0
    ensures Ordered(Exits(c, slack, k)) && (k > 0 ==> Exits(c, slack, k) != [] && Last(Exits(c, slack, k)) == ExitAt(c, slack, k))
  {
    hide ExitAt, Ordered;
    if k == 0 {
      NothingIsOrdered();
    } else {
      ExitsInOrder(c, slack, k - 1);
      NextExit(c, slack, k);
      OrderedAppend(Exits(c, slack, k - 1), ExitAt(c, slack, k));
    }
  }

  lemma NothingIsOrdered()
    ensures Ordered([])
  {
  }

  lemma NextExit(c: Config, slack: int, k: nat)
    requires Sane(c) && slack >= 0 && k > 0
    ensures k > 1 ==> ExitAt(c, slack, k - 1) <= ExitAt(c, slack, k)
    ensures ExitAt(c, slack, k) <= ReachedAt(c, slack, k)
  {
    ReachedLater(c, slack, k);
  }

  /** Five delays in a row from rung `k` on. */
  function Five(c: Config, k: nat): int {
    Delay(c, k) + Delay(c, k + 1) + Delay(c, k + 2) + Delay(c, k + 3) + Delay(c, k + 4)
  }

  lemma FiveRungsLater(c: Config, slack: int, k: nat)
    ensures ReachedAt(c, slack, k + 5) == ReachedAt(c, slack, k) + Five(c, k) * SECOND + 5 * (slack + STABLE - 1)
  {
    assert ReachedAt(c, slack, k + 1) == ReachedAt(c, slack, k) + Delay(c, k) * SECOND + slack + STABLE - 1;
    assert ReachedAt(c, slack, k + 2) == ReachedAt(c, slack, k + 1) + Delay(c, k + 1) * SECOND + slack + STABLE - 1;
    assert ReachedAt(c, slack, k + 3) == ReachedAt(c, slack, k + 2) + Delay(c, k + 2) * SECOND + slack + STABLE - 1;
    assert ReachedAt(c, slack, k + 4) == ReachedAt(c, slack, k + 3) + Delay(c, k + 3) * SECOND + slack + STABLE - 1;
  }

  /** Five delays from rung one on, with all that may be added to them, come to more than a day; five later ones to at least
      as much, and to ten seconds more from rung six on. */
  lemma FiveGrow(c: Config, slack: int, k: nat)
    requires Sane(c) && slack >= 0 && k >= 1 && c.backoffMax >= 0x4000_0000 && OutlastsADay(c, slack)
    ensures Five(c, k) * SECOND + 5 * (slack + STABLE - 1) + STABLE - 1 > WINDOW
    ensures k >= 6 ==> Five(c, k) * SECOND + 5 * (slack + STABLE - 1) > WINDOW
  {
    SmallPowers();
    DelayGrows(c, 1, k);
    DelayGrows(c, 2, k + 1);
    DelayGrows(c, 3, k + 2);
    DelayGrows(c, 4, k + 3);
    DelayGrows(c, 5, k + 4);
    DelayGrows(c, if k >= 6 then 10 else 5, k + 4);
    DelayGrows(c, 6, 10);
  }

  /** So of six exits in a row the last comes more than a day after the first. */
  lemma SixExitsOutlastADay(c: Config, slack: int, k: nat)
    requires Sane(c) && slack >= 0 && k >= 1 && c.backoffMax >= 0x4000_0000 && OutlastsADay(c, slack)
    ensures ExitAt(c, slack, k + 5) - ExitAt(c, slack, k) > WINDOW
  {
    FiveRungsLater(c, slack, k);
    FiveGrow(c, slack, k);
  }

  predicate InThePast(times: seq<int>, now: int) {
    forall k :: 0 <= k < |times| ==> times[k] <= now
  }

  lemma {:induction false} NoneIsRecent(times: seq<int>, was: int, now: int)
    requires InThePast(times, was) && now > was + WINDOW
    ensures Recent(times, now) == []
  {
    if times != [] {
      NoneIsRecent(times[..|times| - 1], was, now);
    }
  }

  lemma {:induction false} AtMostSoMany(times: seq<int>, now: int, k: nat)
    requires k <= |times|
    ensures |Recent(times, now)| <= |Recent(times[..|times| - k], now)| + k
  {
    if k == 0 {
      assert times[..|times|] == times;
    } else {
      AtMostSoMany(times[..|times| - 1], now, k - 1);
      assert times[..|times| - 1][..|times| - k] == times[..|times| - k];
    }
  }

  /** The exits of the climb never trip the breaker. */
  lemma NeverTripped(c: Config, slack: int, k: nat)
    requires Sane(c) && slack >= 0 && k >= 1 && c.backoffMax >= 0x4000_0000 && OutlastsADay(c, slack)
    ensures |Latterly(Exits(c, slack, k))| <= MAX_FAILURES
  {
    var times := Exits(c, slack, k);
    ExitsAre(c, slack, k);
    ExitsInOrder(c, slack, k);
    if k <= 5 {
      AtMostSoMany(times, Last(times), k);
      assert times[..0] == [];
    } else {
      var early := times[..k - 5];
      SixExitsOutlastADay(c, slack, k - 5);
      forall j | 0 <= j < |early| ensures early[j] <= ExitAt(c, slack, k - 5) {
        ExitsOrdered(c, slack, j + 1, k - 5);
      }
      NoneIsRecent(early, ExitAt(c, slack, k - 5), Last(times));
      AtMostSoMany(times, Last(times), 5);
    }
  }

  lemma {:induction false} ExitsOrdered(c: Config, slack: int, j: nat, k: nat)
    requires Sane(c) && slack >= 0 && 1 <= j <= k
    ensures ExitAt(c, slack, j) <= ExitAt(c, slack, k)
  {
    if j < k {
      ExitsOrdered(c, slack, j, k - 1);
      NextExit(c, slack, k);
    }
  }

  /** The service waits on rung `k` for its next launch. */
  ghost predicate Waiting(c: Config, slack: int, log: Trace, k: nat) {
    && log.Then? && log.entry == Scheduled(0, ReachedAt(c, slack, k)) && Latest(log) == ReachedAt(c, slack, k)
    && Rung(log, 0) == k && Due(c, log, 0) == ReachedAt(c, slack, k) + Delay(c, k) * SECOND
    && Failures(log, 0) == Exits(c, slack, k) && Attempts(log, 0) > 0 && !Wanted(log, 0) && !ShuttingDown(log)
    && (forall pid :: Owner(log, pid) < 0) && Prompt(c, log, 0, slack)
  }

  /** What a climb needs. */
  predicate Climber(c: Config, slack: int) {
    Sane(c) && c.autorestart && slack >= 0 && c.backoffMax >= 0x4000_0000 && OutlastsADay(c, slack)
  }

  function LaunchedAt(c: Config, slack: int, k: nat): int {
    ReachedAt(c, slack, k) + Delay(c, k) * SECOND + slack
  }

  function Relaunched(c: Config, slack: int, log: Trace, k: nat): Trace {
    Then(Then(log, Ticked(LaunchedAt(c, slack, k))), Forked(0, 7, LaunchedAt(c, slack, k)))
  }

  /** The launch from rung `k`, with nothing else changed. */
  lemma RelaunchedMeans(c: Config, slack: int, log: Trace, k: nat)
    requires Climber(c, slack) && Waiting(c, slack, log, k)
    ensures var l := Relaunched(c, slack, log, k);
            && Owner(l, 7) == 0 && (forall pid :: pid != 7 ==> Owner(l, pid) < 0) && StartedAt(l, 0) == LaunchedAt(c, slack, k)
            && Rung(l, 0) == k && Failures(l, 0) == Exits(c, slack, k) && Attempts(l, 0) > 0 && !Wanted(l, 0) && !ShuttingDown(l)
            && Latest(l) == LaunchedAt(c, slack, k) && Prompt(c, l, 0, slack) && NextPid([7], l.before) == 7
  {
    var ticked := Then(log, Ticked(LaunchedAt(c, slack, k)));
    assert Rung(ticked, 0) == k && Wanted(ticked, 0) == Wanted(log, 0) && ShuttingDown(ticked) == ShuttingDown(log)
        && Failures(ticked, 0) == Failures(log, 0) && Attempts(ticked, 0) == Attempts(log, 0)
        && Due(c, ticked, 0) == Due(c, log, 0) && Prompt(c, ticked, 0, slack);
    assert forall pid :: Owner(ticked, pid) == Owner(log, pid);
  }

  function Exited(c: Config, slack: int, launched: Trace, k: nat): Trace {
    Then(Then(launched, Reaped(7)), Noted(0, ExitAt(c, slack, k + 1)))
  }

  /** The exit that leads to the next rung. */
  lemma ExitedMeans(c: Config, slack: int, log: Trace, k: nat)
    requires Climber(c, slack) && Waiting(c, slack, log, k)
    ensures var l := Exited(c, slack, Relaunched(c, slack, log, k), k);
            && !Out(c, l, 0) && Rung(l, 0) == k && StartedAt(l, 0) == LaunchedAt(c, slack, k) && Failures(l, 0) == Exits(c, slack, k + 1)
            && Attempts(l, 0) > 0 && !Wanted(l, 0) && !ShuttingDown(l) && (forall pid :: Owner(l, pid) < 0) && Prompt(c, l, 0, slack)
  {
    hide Climber, Waiting, Relaunched;
    RelaunchedMeans(c, slack, log, k);
    var launched := Relaunched(c, slack, log, k);
    var reaped := Then(launched, Reaped(7));
    assert Rung(reaped, 0) == k && StartedAt(reaped, 0) == StartedAt(launched, 0) && Failures(reaped, 0) == Failures(launched, 0)
        && Attempts(reaped, 0) == Attempts(launched, 0) && !Wanted(reaped, 0) && !ShuttingDown(reaped) && Prompt(c, reaped, 0, slack);
    assert forall pid :: Owner(reaped, pid) < 0;
    var noted := Exited(c, slack, launched, k);
    assert Failures(noted, 0) == Exits(c, slack, k + 1);
    ClimbersStayIn(c, slack, noted, k + 1);
  }

  lemma ClimbersStayIn(c: Config, slack: int, log: Trace, k: nat)
    requires Climber(c, slack) && Failures(log, 0) == Exits(c, slack, k) && k > 0
    ensures !Out(c, log, 0)
  {
    NeverTripped(c, slack, k);
  }

  /** The relaunch that is put off after it. */
  lemma NextRung(c: Config, slack: int, log: Trace, k: nat)
    requires Climber(c, slack) && Waiting(c, slack, log, k)
    ensures var l := Exited(c, slack, Relaunched(c, slack, log, k), k);
            Waiting(c, slack, Then(l, Scheduled(0, ReachedAt(c, slack, k + 1))), k + 1)
  {
    hide Exited, Failures, Owner, Attempts, Prompt, Exits;
    ExitedMeans(c, slack, log, k);
    var noted := Exited(c, slack, Relaunched(c, slack, log, k), k);
    WaitsAgain(c, slack, noted, k);
  }

  lemma WaitsAgain(c: Config, slack: int, noted: Trace, k: nat)
    requires Rung(noted, 0) == k && StartedAt(noted, 0) == LaunchedAt(c, slack, k) && Failures(noted, 0) == Exits(c, slack, k + 1)
    requires Attempts(noted, 0) > 0 && !Wanted(noted, 0) && !ShuttingDown(noted) && (forall pid :: Owner(noted, pid) < 0)
    requires Prompt(c, noted, 0, slack)
    ensures Waiting(c, slack, Then(noted, Scheduled(0, ReachedAt(c, slack, k + 1))), k + 1)
  {
    var l := Then(noted, Scheduled(0, ReachedAt(c, slack, k + 1)));
    assert ReachedAt(c, slack, k + 1) - StartedAt(noted, 0) == STABLE - 1;
    assert Rung(l, 0) == k + 1;
    assert Due(c, l, 0) == ReachedAt(c, slack, k + 1) + Delay(c, k + 1) * SECOND;
    assert Failures(l, 0) == Failures(noted, 0) && Attempts(l, 0) == Attempts(noted, 0);
    assert !Wanted(l, 0) && !ShuttingDown(l) && Prompt(c, l, 0, slack);
    assert forall pid :: Owner(l, pid) == Owner(noted, pid);
  }

  /** By how much the clock advances before and after the exit that leads to rung `k` is noted. */
  function Steps(k: nat): (steps: seq<nat>)
    ensures |steps| == 2 && steps[0] == Lag(k) && steps[0] + steps[1] == STABLE - 1
  {
    [Lag(k), STABLE - 1 - Lag(k)]
  }

  /** The launch and the exit of one round. */
  lemma RoundMoments(c: Config, slack: int, log: Trace, k: nat)
    requires Climber(c, slack) && Waiting(c, slack, log, k)
    ensures var at := LaunchedAt(c, slack, k);
            var launched := Relaunched(c, slack, log, k);
            var next := Then(Exited(c, slack, launched, k), Scheduled(0, ReachedAt(c, slack, k + 1)));
            && Launch(Moment(launched.before, [7], at, [0] + Steps(k + 1)), 0) == Moment(launched, [], at, Steps(k + 1))
            && Deal([c], 7, Moment(launched, [], at, Steps(k + 1))) == Moment(next, [], ReachedAt(c, slack, k + 1), [])
  {
    hide Waiting, Out;
    RelaunchedMeans(c, slack, log, k);
    ExitedMeans(c, slack, log, k);
    var steps := Steps(k + 1);
    assert ([0] + steps)[1..] == steps && steps[1..][0] == steps[1] && steps[1..][1..] == [];
  }

  /** The fields of a service that waits. */
  lemma WaitingMeans(c: Config, slack: int, s: Service, u: Uptime, log: Trace, k: nat)
    requires Climber(c, slack) && Tracks(c, s, u, log, 0) && Waiting(c, slack, log, k)
    ensures s.state == Backoff && s.nextRestart == ReachedAt(c, slack, k) + Delay(c, k) * SECOND && s.backoff == Delay(c, k)
    ensures !ShuttingDown(log) && Rung(log, 0) == k && Prompt(c, log, 0, slack)
  {
    if k > 0 {
      ClimbersStayIn(c, slack, log, k);
    }
  }

  /** One round: a launch `slack` after it was due, and a run that is just short. */
  method ClimbOne(s: Supervisor, c: Config, slack: nat, k: nat)
    requires Climber(c, slack) && s.Inv() && s.configs == [c] && s.clock == ReachedAt(c, slack, k) && Waiting(c, slack, s.log, k)
    modifies s
    ensures s.Inv() && s.clock == ReachedAt(c, slack, k + 1) && Waiting(c, slack, s.log, k + 1)
  {
    hide Waiting, Climber, Supervisor.Inv, Tracks, Lawful, Relaunched, Exited, Launch, Deal, LaunchAll, DealWithAll, ReachedAt, Zombies, Delay;
    TracksFirst(s);
    ghost var log := s.log;
    WaitingMeans(c, slack, s.services[0], s.uptime[0], log, k);
    RoundMoments(c, slack, log, k);
    NextRung(c, slack, log, k);
    DelayIsPositive(c, slack, k);
    var gap, late := s.services[0].backoff * SECOND + slack, Lag(k + 1);
    Answer(s, [gap, 0, late, STABLE - 1 - late], [7]);
    assert s.ticks[1..] == [0] + Steps(k + 1);
    RelaunchedIs(c, slack, log, k);
    var now := s.OnTick();
    OneLaunch(DueNow(old(s.services), now), Moment(Then(log, Ticked(now)), [7], now, [0] + Steps(k + 1)));
    assert s.Here() == Moment(Relaunched(c, slack, log, k), [], now, Steps(k + 1));
    OneExit([c], s.Here());
    s.OnSigchld([7]);
  }

  lemma RelaunchedIs(c: Config, slack: int, log: Trace, k: nat)
    ensures Relaunched(c, slack, log, k).Then? && Relaunched(c, slack, log, k).before == Then(log, Ticked(LaunchedAt(c, slack, k)))
    ensures ShuttingDown(Relaunched(c, slack, log, k)) == ShuttingDown(log)
  {
    var ticked := Then(log, Ticked(LaunchedAt(c, slack, k)));
    assert ShuttingDown(ticked) == ShuttingDown(log);
  }

  lemma DelayIsPositive(c: Config, slack: int, k: nat)
    requires Climber(c, slack)
    ensures Delay(c, k) >= 1
  {
    DelayGrows(c, k, k);
  }

  /** What the system will answer from here on. */
  method Answer(s: Supervisor, ticks: seq<nat>, forks: seq<int>)
    requires s.Inv()
    modifies s`ticks, s`forks
    ensures s.Inv() && s.ticks == ticks && s.forks == forks
  {
    s.ticks, s.forks := ticks, forks;
  }

  /** The first launch, for which no process id is left. */
  method FailToStart(c: Config, slack: nat) returns (s: Supervisor)
    requires Climber(c, slack)
    ensures fresh(s) && s.Inv() && s.configs == [c] && s.clock == 0 && Waiting(c, slack, s.log, 0)
  {
    hide Supervisor.Inv, LaunchAll, Waiting;
    s := new Supervisor([c], [], []);
    s.Start();
    OneLaunch(seq(1, _ => true), Moment(Nothing, [], 0, []));
    FirstRung(c, slack);
  }

  lemma FirstRung(c: Config, slack: int)
    requires Sane(c)
    ensures Waiting(c, slack, Then(Then(Nothing, ForkFailed(0)), Scheduled(0, 0)), 0)
  {
    var failed := Then(Nothing, ForkFailed(0));
    var log := Then(failed, Scheduled(0, 0));
    assert Rung(Nothing, 0) == -1 && StartedAt(Nothing, 0) == 0 && Failures(Nothing, 0) == [] && Prompt(c, Nothing, 0, slack);
    assert Rung(failed, 0) == -1 && StartedAt(failed, 0) == 0 && Failures(failed, 0) == [] && Attempts(failed, 0) == 1
        && Prompt(c, failed, 0, slack) && !Wanted(failed, 0) && !ShuttingDown(failed);
    assert Rung(log, 0) == 0;
    assert forall pid :: Owner(failed, pid) < 0;
  }

  /** However high the rung, if the delays spread six exits over more than a day, a run climbs to it whose launches are
      at most `slack` late. */
  method ClimbTo(c: Config, slack: nat, rung: nat) returns (s: Supervisor)
    requires Climber(c, slack)
    ensures s.Inv() && s.configs == [c] && Prompt(c, s.log, 0, slack) && Rung(s.log, 0) == rung
    ensures |s.services| == 1 && s.services[0].state == Backoff && s.services[0].backoff == Delay(c, rung)
  {
    hide Supervisor.Inv, Waiting, Climber, Tracks, Lawful;
    s := FailToStart(c, slack);
    assert ReachedAt(c, slack, 0) == 0;
    for k := 0 to rung
      invariant fresh(s) && s.Inv() && s.configs == [c] && s.clock == ReachedAt(c, slack, k) && Waiting(c, slack, s.log, k)
    {
      ClimbOne(s, c, slack, k);
    }
    TracksFirst(s);
    WaitingMeans(c, slack, s.services[0], s.uptime[0], s.log, rung);
  }

  /** So with a longest delay of 2^30 seconds or more, and delays that spread six exits over more than a day, a run whose
      launches are at most `slack` late doubles a delay beyond 32 bits: the relaunch that this one puts off next. */
  method DoublingOverflows(c: Config, slack: nat) returns (s: Supervisor)
    requires Climber(c, slack)
    ensures s.Inv() && s.configs == [c] && Prompt(c, s.log, 0, slack)
    ensures |s.services| == 1 && s.services[0].state == Backoff && s.services[0].backoff * 2 > INT_MAX
  {
    TallestRung(c);
    s := ClimbTo(c, slack, 30);
  }

  /** Otherwise, with launches at most an hour late, no run does; and with a shorter longest delay, or without automatic
      restarts and with a shorter first delay, none does however late launches come. */
  lemma DoublingStaysInRange(s: Supervisor, i: nat, slack: int)
    requires s.Inv() && i < |s.services| && Sane(s.configs[i])
    requires s.configs[i].backoffMax < 0x4000_0000
             || (s.configs[i].autorestart && 0 <= slack <= HOUR && Prompt(s.configs[i], s.log, i, slack)
                 && !OutlastsADay(s.configs[i], slack))
             || (!s.configs[i].autorestart && s.configs[i].backoffMin < 0x4000_0000)
    ensures 0 <= s.services[i].backoff * 2 <= INT_MAX
  {
    var c := s.configs[i];
    assert Tracks(c, s.services[i], s.uptime[i], s.log, i);
    if c.backoffMax < 0x4000_0000 {
      if Rung(s.log, i) >= 0 {
        DelayGrows(c, Rung(s.log, i), Rung(s.log, i));
      }
    } else if !c.autorestart {
      ForksAloneStayLow(s.configs, s.log, i);
      if Rung(s.log, i) >= 0 {
        FirstLongDelay(c);
        DelayGrows(c, Rung(s.log, i), Low(c));
      }
    } else {
      PromptDoublingFits(s.configs, s.log, i, slack);
    }
  }
}
