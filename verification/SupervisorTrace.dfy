/** What a supervisor does to its services, told as the trace of what it asks of the system
    and what it hears from it. Every notion here is read off the trace alone; the supervisor's
    own fields appear in module Supervision.

    Instants and durations are nanoseconds of the steady clock, which starts at zero.
 */
module SupervisorTrace {
  import opened Basics

  const SECOND: int := 1_000_000_000
  const STABLE: int := 10 * SECOND          // kStableSec
  const GRACE: int := 5 * SECOND            // kGraceSec
  const WINDOW: int := 24 * 3600 * SECOND   // kFailureWindow
  const MAX_FAILURES: nat := 5              // kMaxFailures
  const INT_MAX: int := 0x7fff_ffff

  datatype Config = Config(name: string, autorestart: bool, backoffMin: int, backoffMax: int)
  datatype Signal = Terminate | Kill

  datatype Entry =
    | Forked(service: nat, pid: int, at: int)      // a child runs the service's program
    | ForkFailed(service: nat)
    | Reaped(pid: int)                             // waitpid returned this child
    | Noted(service: nat, at: int)                 // an exit was recorded against the service
    | Scheduled(service: nat, at: int)             // a relaunch was put off
    | Restarted(service: nat)                      // an operator asked for a restart
    | Ticked(at: int)
    | ShutDown(at: int)
    | Signalled(pid: int, signal: Signal)
    | LoopStopped

  /** The newest entry is the outermost. */
  datatype Trace = Nothing | Then(before: Trace, entry: Entry)

  // ---- what a trace says ----

  /** The service whose unreaped child has this process id, or -1. */
  function Owner(log: Trace, pid: int): int {
    match log
    case Nothing => -1
    case Then(before, entry) =>
      if entry.Forked? && entry.pid == pid then entry.service
      else if entry.Reaped? && entry.pid == pid then -1
      else Owner(before, pid)
  }

  predicate Attempt(entry: Entry, i: nat) {
    (entry.Forked? || entry.ForkFailed?) && entry.service == i
  }

  /** How often the service was launched, or a launch of it failed. */
  function Attempts(log: Trace, i: nat): nat {
    match log
    case Nothing => 0
    case Then(before, entry) => Attempts(before, i) + if Attempt(entry, i) then 1 else 0
  }

  // ---- what was done, in the order in which it was done ----

  /** The children that were reaped. */
  function ReapedPids(log: Trace): seq<int> {
    match log
    case Nothing => []
    case Then(before, entry) => ReapedPids(before) + if entry.Reaped? then [entry.pid] else []
  }

  /** The children that were born. */
  function Births(log: Trace): seq<int> {
    match log
    case Nothing => []
    case Then(before, entry) => Births(before) + if entry.Forked? then [entry.pid] else []
  }

  /** The services of which a launch was attempted. */
  function Tried(log: Trace): seq<nat> {
    match log
    case Nothing => []
    case Then(before, entry) => Tried(before) + if entry.Forked? || entry.ForkFailed? then [entry.service] else []
  }

  datatype Sent = Sent(pid: int, signal: Signal)

  function SignalsSent(log: Trace): seq<Sent> {
    match log
    case Nothing => []
    case Then(before, entry) => SignalsSent(before) + if entry.Signalled? then [Sent(entry.pid, entry.signal)] else []
  }

  /** The second trace goes on from the first. */
  predicate Follows(early: Trace, late: Trace) {
    late == early || (late.Then? && Follows(early, late.before))
  }

  lemma {:induction false} FollowsOn(a: Trace, b: Trace, c: Trace)
    requires Follows(a, b) && Follows(b, c)
    ensures Follows(a, c)
  {
    if c != b {
      FollowsOn(a, b, c.before);
    }
  }

  /** Other entries are no deeds. */
  lemma NoDeed(log: Trace, entry: Entry)
    requires !entry.Reaped? && !entry.Signalled? && !entry.Forked? && !entry.ForkFailed?
    ensures var l := Then(log, entry);
            && Follows(log, l) && ReapedPids(l) == ReapedPids(log) && Births(l) == Births(log) && Tried(l) == Tried(log)
            && SignalsSent(l) == SignalsSent(log)
  {
    assert Follows(log, log);
  }

  lemma {:induction false} DeedsStay(early: Trace, late: Trace)
    requires Follows(early, late)
    ensures ReapedPids(early) <= ReapedPids(late) && Births(early) <= Births(late)
    ensures Tried(early) <= Tried(late) && SignalsSent(early) <= SignalsSent(late)
  {
    if late != early {
      DeedsStay(early, late.before);
    }
  }

  /** A child that has been reaped since then is gone; if its process id is in use, a child has been born with it since. */
  lemma {:induction false} ReapedAreGone(early: Trace, late: Trace, pid: int)
    requires Follows(early, late) && ReapedPids(early) <= ReapedPids(late) && Births(early) <= Births(late)
    requires pid in ReapedPids(late)[|ReapedPids(early)|..]
    ensures Owner(late, pid) < 0 || pid in Births(late)[|Births(early)|..]
  {
    if late != early {
      var before, entry := late.before, late.entry;
      DeedsStay(early, before);
      if !(entry.Reaped? && entry.pid == pid) && !(entry.Forked? && entry.pid == pid) {
        var older, newer := ReapedPids(before)[|ReapedPids(early)|..], ReapedPids(late)[|ReapedPids(early)|..];
        assert newer == older + if entry.Reaped? then [entry.pid] else [];
        ReapedAreGone(early, before, pid);
        assert Births(late)[|Births(early)|..] == Births(before)[|Births(early)|..] + if entry.Forked? then [entry.pid] else [];
      } else if entry.Forked? {
        assert Births(late)[|Births(early)|..] == Births(before)[|Births(early)|..] + [pid];
      }
    }
  }

  function StartedAt(log: Trace, i: nat): int {
    match log
    case Nothing => 0
    case Then(before, entry) => if entry.Forked? && entry.service == i then entry.at else StartedAt(before, i)
  }

  /** The service was launched, and no relaunch has been put off since. */
  predicate Up(log: Trace, i: nat) {
    match log
    case Nothing => false
    case Then(before, entry) =>
      if entry.Forked? && entry.service == i then true
      else if entry.Scheduled? && entry.service == i then false
      else Up(before, i)
  }

  /** An operator's restart is still to be acted on. */
  predicate Wanted(log: Trace, i: nat) {
    match log
    case Nothing => false
    case Then(before, entry) =>
      if entry.Restarted? && entry.service == i then true
      else if entry.ShutDown? || Attempt(entry, i) then false
      else Wanted(before, i)
  }

  predicate ShuttingDown(log: Trace) {
    log.Then? && (log.entry.ShutDown? || ShuttingDown(log.before))
  }

  /** When the shutdown began, last if it was begun more than once. */
  function ShutDownAt(log: Trace): int {
    match log
    case Nothing => 0
    case Then(before, entry) => if entry.ShutDown? then entry.at else ShutDownAt(before)
  }

  function LastTick(log: Trace): int {
    match log
    case Nothing => 0
    case Then(before, entry) => if entry.Ticked? then entry.at else LastTick(before)
  }

  /** The latest instant that the trace mentions. */
  function Latest(log: Trace): int {
    match log
    case Nothing => 0
    case Then(before, entry) =>
      match entry
      case Forked(_, _, at) => at
      case Noted(_, at) => at
      case Scheduled(_, at) => at
      case Ticked(at) => at
      case ShutDown(at) => at
      case ForkFailed(_) => Latest(before)
      case Reaped(_) => Latest(before)
      case Restarted(_) => Latest(before)
      case Signalled(_, _) => Latest(before)
      case LoopStopped => Latest(before)
  }

  /** The service that has just lost a child which nobody had asked to stop, or -1. */
  function Owes(log: Trace): (i: int)
    ensures i >= 0 ==> log.Then? && log.entry.Reaped?
  {
    if log.Then? && log.entry.Reaped? && !ShuttingDown(log.before) then
      var i := Owner(log.before, log.entry.pid);
      if i >= 0 && !Wanted(log.before, i) then i else -1
    else -1
  }

  /** The unexpected exits of a service since an operator last restarted it, oldest first. */
  function Failures(log: Trace, i: nat): seq<int> {
    match log
    case Nothing => []
    case Then(before, entry) =>
      if entry.Restarted? && entry.service == i then []
      else if entry.Noted? && entry.service == i then Failures(before, i) + [entry.at]
      else Failures(before, i)
  }

  function AllFailures(log: Trace, i: nat): nat {
    match log
    case Nothing => 0
    case Then(before, entry) => AllFailures(before, i) + if entry.Noted? && entry.service == i then 1 else 0
  }

  /** The instants no older than the window. */
  function Recent(times: seq<int>, now: int): seq<int> {
    if times == [] then []
    else
      var older := Recent(times[..|times| - 1], now);
      if now - times[|times| - 1] <= WINDOW then older + [times[|times| - 1]] else older
  }

  /** The instants in the window that ends with the last one. */
  function Latterly(times: seq<int>): seq<int> {
    if times == [] then [] else Recent(times, Last(times))
  }

  /** The exits that the breaker counts. */
  function Counted(log: Trace, i: nat): seq<int> {
    Latterly(Failures(log, i))
  }

  predicate Tripped(c: Config, log: Trace, i: nat) {
    c.autorestart && |Counted(log, i)| > MAX_FAILURES
  }

  predicate GivenUp(c: Config, log: Trace, i: nat) {
    !c.autorestart && Failures(log, i) != []
  }

  predicate Out(c: Config, log: Trace, i: nat) {
    Tripped(c, log, i) || GivenUp(c, log, i)
  }

  /** The service has gone out and no launch has worked since. */
  predicate Down(c: Config, log: Trace, i: nat) {
    match log
    case Nothing => false
    case Then(before, entry) =>
      if entry.Forked? && entry.service == i then false
      else Down(c, before, i) || (entry.Noted? && entry.service == i && Out(c, log, i))
  }

  /** An operator has restarted the service while it was out, and no launch has worked since. */
  predicate RestartedInVain(c: Config, log: Trace, i: nat) {
    match log
    case Nothing => false
    case Then(before, entry) =>
      if entry.Forked? && entry.service == i then false
      else RestartedInVain(c, before, i) || (entry.Restarted? && entry.service == i && Out(c, before, i))
  }

  // ---- backoff ----

  /** How many short runs in a row have been scheduled since the backoff was last reset, not
      counting the first; -1 when nothing has been scheduled since. */
  function Rung(log: Trace, i: nat): (rung: int)
    ensures rung >= -1
  {
    match log
    case Nothing => -1
    case Then(before, entry) =>
      if entry.Scheduled? && entry.service == i then
        if entry.at - StartedAt(before, i) >= STABLE then 0 else Rung(before, i) + 1
      else if Attempt(entry, i) && Wanted(before, i) then -1
      else Rung(before, i)
  }

  function Pow2(k: nat): nat {
    if k == 0 then 1 else 2 * Pow2(k - 1)
  }

  predicate Sane(c: Config) {
    1 <= c.backoffMin <= c.backoffMax
  }

  /** The delay in seconds on a rung. */
  function Delay(c: Config, rung: int): int {
    if rung < 0 then 0 else Min(c.backoffMax, c.backoffMin * Pow2(rung))
  }

  /** Before when a service may not be launched on its own. */
  function Due(c: Config, log: Trace, i: nat): int {
    match log
    case Nothing => 0
    case Then(before, entry) =>
      if entry.Scheduled? && entry.service == i then entry.at + Delay(c, Rung(log, i)) * SECOND
      else Due(c, before, i)
  }

  // ---- what a trace must obey ----

  /** A launch of the service may be attempted. */
  ghost predicate MayAttempt(cs: seq<Config>, log: Trace, i: nat)
    requires i < |cs|
  {
    && !Out(cs[i], log, i)
    && (forall pid :: Owner(log, pid) != i)
    && (Wanted(log, i)
        || (!ShuttingDown(log)
            && (Attempts(log, i) > 0 ==> !Up(log, i) && (Sane(cs[i]) ==> LastTick(log) >= Due(cs[i], log, i)))))
  }

  predicate ServiceOf(cs: seq<Config>, entry: Entry) {
    (entry.Forked? || entry.ForkFailed? || entry.Noted? || entry.Scheduled? || entry.Restarted?)
    ==> entry.service < |cs|
  }

  /** The service has just exited, or a launch of it has just failed. */
  predicate PutsOff(log: Trace, i: nat) {
    log.Then? && (log.entry.ForkFailed? || log.entry.Noted?) && log.entry.service == i
  }

  /** What may come next. */
  ghost predicate Allowed(cs: seq<Config>, log: Trace, entry: Entry) {
    && ServiceOf(cs, entry)
    && Latest(log) <= Latest(Then(log, entry))
    && (Owes(log) >= 0 <==> (entry.Noted? && entry.service == Owes(log)))
    && (entry.Noted? ==> entry.service == Owes(log) && !Out(cs[entry.service], log, entry.service))
    && (entry.Forked? ==> MayAttempt(cs, log, entry.service) && entry.pid > 0 && Owner(log, entry.pid) < 0)
    && (entry.ForkFailed? ==> MayAttempt(cs, log, entry.service))
    && (entry.Scheduled? ==> !Out(cs[entry.service], log, entry.service) && PutsOff(log, entry.service))
    && (entry.Signalled? ==>
          && Owner(log, entry.pid) >= 0
          && (if entry.signal.Kill? then ShuttingDown(log) && LastTick(log) >= ShutDownAt(log) + GRACE
              else ShuttingDown(log) || Wanted(log, Owner(log, entry.pid))))
    && (entry.LoopStopped? ==> ShuttingDown(log) && forall pid :: Owner(log, pid) < 0)
  }

  ghost predicate Lawful(cs: seq<Config>, log: Trace) {
    log.Then? ==> Lawful(cs, log.before) && Allowed(cs, log.before, log.entry)
  }

  // ---- the breaker over whole runs ----

  function Last(times: seq<int>): int
    requires times != []
  {
    times[|times| - 1]
  }

  predicate Ordered(times: seq<int>) {
    |times| <= 1 || (Ordered(times[..|times| - 1]) && Last(times[..|times| - 1]) <= Last(times))
  }

  lemma OrderedAppend(times: seq<int>, at: int)
    requires Ordered(times) && (times != [] ==> Last(times) <= at)
    ensures Ordered(times + [at])
  {
    assert (times + [at])[..|times|] == times;
  }

  lemma {:induction false} FailuresAreOrdered(cs: seq<Config>, log: Trace, i: nat)
    requires Lawful(cs, log)
    ensures Ordered(Failures(log, i))
    ensures Failures(log, i) != [] ==> Last(Failures(log, i)) <= Latest(log)
  {
    if log.Then? {
      FailuresAreOrdered(cs, log.before, i);
      if log.entry.Noted? && log.entry.service == i {
        OrderedAppend(Failures(log.before, i), log.entry.at);
      }
    }
  }

  /** The instants of a sequence that lie in a closed interval. */
  function Between(times: seq<int>, from: int, to: int): seq<int> {
    if times == [] then []
    else
      var older := Between(times[..|times| - 1], from, to);
      var last := times[|times| - 1];
      if from <= last <= to then older + [last] else older
  }

  lemma {:induction false} BetweenIsRecent(times: seq<int>, from: int, to: int, now: int)
    requires to - from <= WINDOW && from <= now <= to
    ensures |Between(times, from, to)| <= |Recent(times, now)|
  {
    if times != [] {
      BetweenIsRecent(times[..|times| - 1], from, to, now);
    }
  }

  lemma {:induction false} RecentIsBetween(times: seq<int>, from: int, to: int)
    requires forall k :: 0 <= k < |times| ==> times[k] <= to
    requires to - from == WINDOW
    ensures Recent(times, to) == Between(times, from, to)
  {
    if times != [] {
      RecentIsBetween(times[..|times| - 1], from, to);
    }
  }

  lemma {:induction false} RecentShrinks(times: seq<int>, early: int, late: int)
    requires early <= late
    ensures |Recent(times, late)| <= |Recent(times, early)|
    ensures Recent(Recent(times, early), late) == Recent(times, late)
  {
    if times != [] {
      var rest := times[..|times| - 1];
      RecentShrinks(rest, early, late);
      var kept := Recent(rest, early);
      assert (kept + [times[|rest|]])[..|kept|] == kept;
    }
  }

  lemma RecentOfAppended(times: seq<int>, at: int, now: int)
    ensures Recent(times + [at], now) == Recent(times, now) + if now - at <= WINDOW then [at] else []
  {
    assert (times + [at])[..|times|] == times;
  }

  lemma LatterlyNext(times: seq<int>, at: int)
    requires times != [] ==> Last(times) <= at
    ensures Latterly(times + [at]) == Recent(Latterly(times) + [at], at)
    ensures |Latterly(times + [at])| <= |Latterly(times)| + 1
  {
    RecentOfAppended(times, at, at);
    RecentOfAppended(Latterly(times), at, at);
    if times != [] {
      RecentShrinks(times, Last(times), at);
    }
  }

  /** Recording an exit brings the count to what the window that ends with it holds. */
  lemma CountedNext(log: Trace, i: nat, at: int)
    requires Failures(log, i) != [] ==> Last(Failures(log, i)) <= at
    ensures Counted(Then(log, Noted(i, at)), i) == Recent(Counted(log, i) + [at], at)
    ensures |Counted(Then(log, Noted(i, at)), i)| <= |Counted(log, i)| + 1
  {
    LatterlyNext(Failures(log, i), at);
  }

  /** In a lawful trace the breaker never counts more than one exit beyond its limit. */
  lemma {:induction false} CountIsBounded(cs: seq<Config>, log: Trace, i: nat)
    requires Lawful(cs, log) && i < |cs|
    ensures |Counted(log, i)| <= MAX_FAILURES + 1
    ensures !cs[i].autorestart ==> |Failures(log, i)| <= 1
  {
    if log.Then? {
      CountIsBounded(cs, log.before, i);
      FailuresAreOrdered(cs, log.before, i);
      if log.entry.Noted? && log.entry.service == i {
        CountedNext(log.before, i, log.entry.at);
      }
    }
  }

  lemma {:induction false} OrderedUpToLast(times: seq<int>)
    requires Ordered(times) && times != []
    ensures forall k :: 0 <= k < |times| ==> times[k] <= Last(times)
  {
    if |times| > 1 {
      OrderedUpToLast(times[..|times| - 1]);
    }
  }

  /** A service is out exactly if its last unexpected exit is the sixth or a later one within a day, or, when it is not
      restarted automatically, if there has been one. */
  lemma OutExactly(cs: seq<Config>, log: Trace, i: nat)
    requires Lawful(cs, log) && i < |cs|
    ensures var exits := Failures(log, i);
            Out(cs[i], log, i) <==>
            exits != [] && (cs[i].autorestart ==> |Between(exits, Last(exits) - 86_400 * SECOND, Last(exits))| >= 6)
  {
    var exits := Failures(log, i);
    FailuresAreOrdered(cs, log, i);
    if exits != [] {
      OrderedUpToLast(exits);
      RecentIsBetween(exits, Last(exits) - WINDOW, Last(exits));
    }
  }

  /** However a run goes: in a day without an operator's restart, an automatically restarted
      service exits unexpectedly at most six times. */
  lemma {:induction false} SixExitsADay(cs: seq<Config>, log: Trace, i: nat, from: int, to: int)
    requires Lawful(cs, log) && i < |cs| && cs[i].autorestart && to - from <= WINDOW
    ensures |Between(Failures(log, i), from, to)| <= MAX_FAILURES + 1
  {
    if log.Then? {
      var f := Failures(log.before, i);
      if log.entry.Noted? && log.entry.service == i && from <= log.entry.at <= to {
        var at := log.entry.at;
        assert (f + [at])[..|f|] == f;
        CountIsBounded(cs, log, i);
        BetweenIsRecent(f + [at], from, to, at);
      } else {
        SixExitsADay(cs, log.before, i, from, to);
        if log.entry.Noted? && log.entry.service == i {
          assert (f + [log.entry.at])[..|f|] == f;
        }
      }
    }
  }

  /** Once tripped or given up, a service stays so until an operator restarts it. */
  lemma OnlyAnOperatorRecovers(cs: seq<Config>, log: Trace, entry: Entry, i: nat)
    requires Lawful(cs, Then(log, entry)) && i < |cs| && entry != Restarted(i)
    ensures Out(cs[i], log, i) ==> Out(cs[i], Then(log, entry), i) && !Attempt(entry, i)
  {
  }

  /** No service has two children. */
  lemma {:induction false} OneChild(cs: seq<Config>, log: Trace, p: int, q: int)
    requires Lawful(cs, log) && Owner(log, p) == Owner(log, q) >= 0
    ensures p == q
  {
    var before, entry := log.before, log.entry;
    if !(entry.Forked? && (entry.pid == p || entry.pid == q)) {
      OneChild(cs, before, p, q);
    }
  }

  lemma {:induction false} DownHasNoChild(cs: seq<Config>, log: Trace, i: nat, pid: int)
    requires Lawful(cs, log) && i < |cs| && Down(cs[i], log, i)
    ensures Owner(log, pid) != i
  {
    if Down(cs[i], log.before, i) {
      DownHasNoChild(cs, log.before, i, pid);
    } else if Owner(log, pid) == i {
      var reaped := log.before;
      assert Owner(reaped, pid) == i;
      assert Owner(reaped.before, pid) == i;
      OneChild(cs, reaped.before, pid, reaped.entry.pid);
    }
  }

  /** When a service counts as down: it is out, or it was and only failed launches have followed
      an operator's restart. */
  lemma {:induction false} DownExactly(cs: seq<Config>, log: Trace, i: nat)
    requires Lawful(cs, log) && i < |cs|
    ensures Down(cs[i], log, i) <==> (Out(cs[i], log, i) || RestartedInVain(cs[i], log, i))
  {
    if log.Then? {
      var before, entry := log.before, log.entry;
      DownExactly(cs, before, i);
      if entry.Noted? && entry.service == i && Down(cs[i], before, i) {
        DownHasNoChild(cs, before.before, i, before.entry.pid);
      }
    }
  }

  // ---- shutdown ----

  /** No operator's restart is carried out once the shutdown has begun. */
  predicate RestartsFirst(log: Trace) {
    log.Then? ==> RestartsFirst(log.before) && !(log.entry.Restarted? && ShuttingDown(log.before))
  }

  predicate LaunchedWhileShuttingDown(log: Trace) {
    log.Then? && (LaunchedWhileShuttingDown(log.before) || (log.entry.Forked? && ShuttingDown(log.before)))
  }

  lemma {:induction false} NothingIsWanted(log: Trace, i: nat)
    requires RestartsFirst(log) && ShuttingDown(log)
    ensures !Wanted(log, i)
  {
    if !log.entry.ShutDown? {
      NothingIsWanted(log.before, i);
    }
  }

  /** If no restart comes after the shutdown has begun, neither does a launch. */
  lemma {:induction false} NoLaunchAfterShutdown(cs: seq<Config>, log: Trace)
    requires Lawful(cs, log) && RestartsFirst(log)
    ensures !LaunchedWhileShuttingDown(log)
  {
    if log.Then? {
      NoLaunchAfterShutdown(cs, log.before);
      if log.entry.Forked? && ShuttingDown(log.before) {
        NothingIsWanted(log.before, log.entry.service);
      }
    }
  }

  predicate HasStopped(log: Trace) {
    log.Then? && (log.entry.LoopStopped? || HasStopped(log.before))
  }

  /** Once the loop has been told to stop, there is no child left, then or later. */
  lemma {:induction false} StoppedMeansDrained(cs: seq<Config>, log: Trace, pid: int)
    requires Lawful(cs, log) && RestartsFirst(log) && HasStopped(log)
    ensures ShuttingDown(log) && Owner(log, pid) < 0
  {
    if !log.entry.LoopStopped? {
      StoppedMeansDrained(cs, log.before, pid);
      NoLaunchAfterShutdown(cs, log);
    }
  }

  // ---- backoff in closed form ----

  lemma {:induction false} Pow2AtLeast(k: nat)
    ensures Pow2(k) >= k + 1
  {
    if k > 0 {
      Pow2AtLeast(k - 1);
    }
  }

  /** The code's step from one delay to the next climbs one rung. */
  lemma NextDelay(c: Config, rung: nat)
    requires Sane(c)
    ensures Delay(c, 0) == c.backoffMin
    ensures Delay(c, rung + 1) == Min(Delay(c, rung) * 2, c.backoffMax)
    ensures c.backoffMin <= Delay(c, rung) <= c.backoffMax
  {
    Pow2AtLeast(rung);
    Scaled(c.backoffMin, Pow2(rung));
  }

  lemma {:induction false} TicksAreInThePast(cs: seq<Config>, log: Trace)
    requires Lawful(cs, log)
    ensures 0 <= Latest(log) && LastTick(log) <= Latest(log)
  {
    if log.Then? {
      TicksAreInThePast(cs, log.before);
    }
  }

  /** A launch that no operator asked for comes no sooner than the delay of its rung after the
      last time that a relaunch was put off. */
  lemma RelaunchWaits(cs: seq<Config>, log: Trace, i: nat, pid: int, at: int)
    requires Lawful(cs, Then(log, Forked(i, pid, at)))
    requires Sane(cs[i]) && Attempts(log, i) > 0 && !Wanted(log, i)
    ensures at >= Due(cs[i], log, i)
  {
    TicksAreInThePast(cs, log);
  }

  /** The runs that ended with a relaunch put off since an operator's launch, oldest first: was each short? */
  function Stints(log: Trace, i: nat): seq<bool> {
    match log
    case Nothing => []
    case Then(before, entry) =>
      if entry.Scheduled? && entry.service == i then Stints(before, i) + [entry.at - StartedAt(before, i) < STABLE]
      else if Attempt(entry, i) && Wanted(before, i) then []
      else Stints(before, i)
  }

  /** How many of them were short in a row up to the newest, the very first not counted. */
  function InARow(stints: seq<bool>): nat {
    if |stints| <= 1 || !stints[|stints| - 1] then 0 else 1 + InARow(stints[..|stints| - 1])
  }

  lemma {:induction false} RungCounts(log: Trace, i: nat)
    ensures Rung(log, i) == if Stints(log, i) == [] then -1 else InARow(Stints(log, i))
  {
    if log.Then? {
      RungCounts(log.before, i);
      if log.entry.Scheduled? && log.entry.service == i {
        var short := log.entry.at - StartedAt(log.before, i) < STABLE;
        assert (Stints(log.before, i) + [short])[..|Stints(log.before, i)|] == Stints(log.before, i);
      }
    }
  }

  /** Of these stints the newest `k` were short, and they follow a long one or the first. */
  predicate ShortSince(stints: seq<bool>, k: nat) {
    && k < |stints| && (forall j :: |stints| - k <= j < |stints| ==> stints[j])
    && (k == |stints| - 1 || !stints[|stints| - 1 - k])
  }

  lemma {:induction false} ShortSinceCounts(stints: seq<bool>, k: nat)
    requires ShortSince(stints, k)
    ensures InARow(stints) == k
  {
    if k > 0 {
      var rest := stints[..|stints| - 1];
      assert ShortSince(rest, k - 1);
      ShortSinceCounts(rest, k - 1);
    }
  }

  /** The delay after `k` short runs in a row that follow a long one or the first: the shortest delay,
      doubled `k` times, up to the longest. */
  lemma DelayAfterRuns(c: Config, log: Trace, i: nat, at: int, k: nat)
    requires Sane(c) && ShortSince(Stints(Then(log, Scheduled(i, at)), i), k)
    ensures Due(c, Then(log, Scheduled(i, at)), i) - at == Min(c.backoffMax, c.backoffMin * Pow2(k)) * SECOND
  {
    RungCounts(Then(log, Scheduled(i, at)), i);
    ShortSinceCounts(Stints(Then(log, Scheduled(i, at)), i), k);
  }

  lemma Scaled(a: int, b: nat)
    requires a >= 1 && b >= 1
    ensures a * b >= a && a * (2 * b) == a * b * 2
  {
  }

  lemma AtLeastFactor(a: int, b: nat)
    requires a >= 1
    ensures a * b >= b
  {
  }

  /** Doubling a delay stays within the source's 32-bit integer on every rung exactly when the
      upper bound is below 2^30. */
  lemma DoublingFits(c: Config)
    requires Sane(c)
    ensures (forall rung: nat :: Delay(c, rung) * 2 <= INT_MAX) <==> c.backoffMax < 0x4000_0000
  {
    forall rung: nat ensures Delay(c, rung) <= c.backoffMax {
      NextDelay(c, rung);
    }
    if c.backoffMax >= 0x4000_0000 {
      TallestRung(c);
    }
  }

  lemma TallestRung(c: Config)
    requires Sane(c) && c.backoffMax >= 0x4000_0000
    ensures Delay(c, 30) * 2 > INT_MAX
  {
    Pow2Is30();
    AtLeastFactor(c.backoffMin, Pow2(30));
  }

  lemma Pow2Is30()
    ensures Pow2(30) == 0x4000_0000
  {
    assert Pow2(10) == 1024;
    Pow2Adds(10, 10);
    Pow2Adds(20, 10);
  }

  lemma {:induction false} Pow2Adds(j: nat, k: nat)
    ensures Pow2(j + k) == Pow2(j) * Pow2(k)
  {
    if k > 0 {
      Pow2Adds(j, k - 1);
    }
  }
}
