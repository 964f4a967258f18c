/** How far the backoff of a service climbs when its launches are not late.

    Six exits within a day end in quarantine, so short runs climb past the breaker only if the delays
    between them spread six exits over more than a day.
 */
module SupervisorPace {
  import opened Basics
  import opened SupervisorTrace

  const HOUR: int := 3600 * SECOND

  /** Every launch that no operator asked for comes at most `slack` after it was due. */
  predicate Prompt(c: Config, log: Trace, i: nat, slack: int) {
    log.Then? ==>
      && Prompt(c, log.before, i, slack)
      && (log.entry.Forked? && log.entry.service == i && Attempts(log.before, i) > 0 && !Wanted(log.before, i) ==>
            log.entry.at <= Due(c, log.before, i) + slack)
  }

  /** When a relaunch was last put off. */
  function ScheduledAt(log: Trace, i: nat): int {
    match log
    case Nothing => 0
    case Then(before, entry) => if entry.Scheduled? && entry.service == i then entry.at else ScheduledAt(before, i)
  }

  /** The longest time from the exit that `m` short runs before led to a rung, to the moment when that rung is reached. */
  function Span(c: Config, slack: int, rung: int, m: nat): int
    decreases m
  {
    if m == 0 then STABLE - 1 else Span(c, slack, rung - 1, m - 1) + Delay(c, rung - 1) * SECOND + slack + STABLE - 1
  }

  // ---- delays ----

  lemma {:induction false} Pow2Grows(j: nat, k: nat)
    requires j <= k
    ensures 1 <= Pow2(j) <= Pow2(k)
  {
    Pow2AtLeast(j);
    if j < k {
      Pow2Grows(j, k - 1);
    }
  }

  lemma DelayGrows(c: Config, j: nat, k: nat)
    requires Sane(c) && j <= k
    ensures 1 <= Delay(c, j) <= Delay(c, k)
  {
    Pow2Grows(j, k);
    Multiplied(c.backoffMin, Pow2(j), Pow2(k));
  }

  lemma Multiplied(a: int, b: nat, d: nat)
    requires a >= 1 && 1 <= b <= d
    ensures a <= a * b <= a * d
  {
  }

  lemma {:induction false} SpanGrows(c: Config, slack: int, rung: nat, m: nat)
    requires Sane(c) && slack >= 0 && m < rung
    ensures Span(c, slack, rung, m) <= Span(c, slack, rung, m + 1)
  {
    if m == 0 {
      DelayGrows(c, rung - 1, rung - 1);
    } else {
      SpanGrows(c, slack, rung - 1, m - 1);
    }
  }

  // ---- times and rungs of a lawful trace ----

  lemma {:induction false} TimesAreInThePast(cs: seq<Config>, log: Trace, i: nat)
    requires Lawful(cs, log)
    ensures 0 <= Latest(log) && StartedAt(log, i) <= Latest(log) && ScheduledAt(log, i) <= Latest(log)
    ensures !Up(log, i) ==> StartedAt(log, i) <= ScheduledAt(log, i)
  {
    if log.Then? {
      TimesAreInThePast(cs, log.before, i);
    }
  }

  /** A service that has never been launched is on no rung, and on a rung the due time is that of the last put-off. */
  lemma {:induction false} RungMeans(cs: seq<Config>, c: Config, log: Trace, i: nat)
    requires Lawful(cs, log)
    ensures Attempts(log, i) == 0 ==> Rung(log, i) < 0 && forall pid :: Owner(log, pid) != i
    ensures Rung(log, i) >= 0 ==> Due(c, log, i) == ScheduledAt(log, i) + Delay(c, Rung(log, i)) * SECOND
  {
    if log.Then? {
      RungMeans(cs, c, log.before, i);
      if log.entry.Scheduled? && log.entry.service == i && log.before.entry.Noted? {
        RungMeans(cs, c, log.before.before, i);
        RungMeans(cs, c, log.before.before.before, i);
      }
    }
  }

  /** The exit that was just noted left the service without a child. */
  lemma NotedHasNoChild(cs: seq<Config>, log: Trace, i: nat, pid: int)
    requires Lawful(cs, log) && log.Then? && log.entry.Noted? && log.entry.service == i
    ensures Owner(log, pid) != i
  {
    var reaped := log.before;
    if Owner(log, pid) == i {
      assert Owner(reaped, pid) == i && Owner(reaped.before, pid) == i;
      OneChild(cs, reaped.before, pid, reaped.entry.pid);
    }
  }

  /** Whoever has a child was launched after the last put-off. */
  lemma {:induction false} ChildIsUp(cs: seq<Config>, log: Trace, i: nat, pid: int)
    requires Lawful(cs, log) && Owner(log, pid) == i
    ensures Up(log, i)
  {
    var before, entry := log.before, log.entry;
    if !(entry.Forked? && entry.pid == pid) {
      ChildIsUp(cs, before, i, pid);
      if entry.Scheduled? && entry.service == i && before.entry.Noted? {
        NotedHasNoChild(cs, before, i, pid);
      }
    }
  }

  // ---- the invariant of a climb ----

  /** Of these instants, the one `m` before the last is not older than `bound`. */
  predicate BackTo(times: seq<int>, m: nat, bound: int) {
    m < |times| && times[|times| - 1 - m] >= bound
  }

  /** The exits that led from rung `low` to this one are not older than the delays allow. */
  ghost predicate Aligned(c: Config, times: seq<int>, at: int, rung: int, low: nat, slack: int) {
    forall m: nat :: m < rung - low ==> BackTo(times, m, at - Span(c, slack, rung, m))
  }

  ghost predicate Climbing(c: Config, log: Trace, i: nat, low: nat, slack: int) {
    var r := Rung(log, i);
    && r <= low + 5
    && (!Wanted(log, i) && !ShuttingDown(log) && r > low ==>
          && Aligned(c, Failures(log, i), ScheduledAt(log, i), r, low, slack)
          && (Up(log, i) ==> StartedAt(log, i) <= ScheduledAt(log, i) + Delay(c, r) * SECOND + slack))
  }

  /** One more exit leaves the others one place further back. */
  lemma AlignedWithMore(c: Config, times: seq<int>, at: int, rung: int, low: nat, slack: int, now: int)
    requires Sane(c) && slack >= 0 && rung > low && Aligned(c, times, at, rung, low, slack) && now >= at
    ensures Aligned(c, times + [now], at, rung, low, slack)
  {
    var more := times + [now];
    forall m: nat | m < rung - low ensures BackTo(more, m, at - Span(c, slack, rung, m)) {
      if m == 0 {
        assert more[|more| - 1] == now;
      } else {
        assert BackTo(times, m - 1, at - Span(c, slack, rung, m - 1));
        assert more[|more| - 1 - m] == times[|times| - 1 - (m - 1)];
        SpanGrows(c, slack, rung, m - 1);
      }
    }
  }

  /** A short run takes the exits along to the next rung. */
  lemma AlignedNext(c: Config, times: seq<int>, at: int, rung: nat, low: nat, slack: int, noted: int, next: int)
    requires rung >= low && Aligned(c, times, at, rung, low, slack)
    requires next - (STABLE - 1) <= noted && (rung > low ==> next <= at + Delay(c, rung) * SECOND + slack + STABLE - 1)
    ensures Aligned(c, times + [noted], next, rung + 1, low, slack)
  {
    var more, higher := times + [noted], rung + 1;
    forall m: nat | m < higher - low ensures BackTo(more, m, next - Span(c, slack, higher, m)) {
      if m == 0 {
        assert more[|more| - 1] == noted;
      } else {
        assert BackTo(times, m - 1, at - Span(c, slack, rung, m - 1));
        assert more[|more| - 1 - m] == times[|times| - 1 - (m - 1)];
      }
    }
  }

  /** Six exits within a day trip the breaker. */
  lemma SixInADay(times: seq<int>)
    requires times != [] && Ordered(times) && BackTo(times, 5, Last(times) - WINDOW)
    ensures |Latterly(times)| >= 6
  {
    LastAreRecent(times, Last(times), 6);
  }

  lemma {:induction false} LastAreRecent(times: seq<int>, now: int, k: nat)
    requires Ordered(times) && 1 <= k <= |times| && times[|times| - k] >= now - WINDOW
    ensures |Recent(times, now)| >= k
  {
    var rest := times[..|times| - 1];
    OrderedUpTo(times, |times| - k);
    if k > 1 {
      assert rest[|rest| - (k - 1)] == times[|times| - k];
      LastAreRecent(rest, now, k - 1);
    }
  }

  lemma {:induction false} OrderedUpTo(times: seq<int>, j: nat)
    requires Ordered(times) && j < |times|
    ensures times[j] <= Last(times)
  {
    if j < |times| - 1 {
      OrderedUpTo(times[..|times| - 1], j);
    }
  }

  // ---- a climb, entry by entry ----

  /** What is fixed for a climb: from rung `low` on a delay is not shorter than what counts as a short run, and six exits
      on the rungs above lie within a day. */
  predicate Steep(c: Config, low: nat, slack: int) {
    && Sane(c) && c.autorestart && slack >= 0 && Delay(c, low) * SECOND >= STABLE
    && Span(c, slack, low + 6, 5) <= WINDOW
  }

  /** A launch that fails before it was due again comes after too long a time to count as a short run. */
  lemma FailedForkIsLate(cs: seq<Config>, log: Trace, i: nat, low: nat, at: int)
    requires i < |cs| && Sane(cs[i]) && Delay(cs[i], low) * SECOND >= STABLE && Lawful(cs, log) && Rung(log, i) >= low && !Wanted(log, i)
    requires MayAttempt(cs, log, i) && Latest(log) <= at
    ensures at - StartedAt(log, i) >= STABLE
  {
    TimesAreInThePast(cs, log, i);
    TicksAreInThePast(cs, log);
    RungMeans(cs, cs[i], log, i);
    DelayGrows(cs[i], low, Rung(log, i));
  }

  /** A relaunch that is put off after a failed launch does not climb above rung `low`. */
  lemma ClimbsAfterFork(cs: seq<Config>, log: Trace, i: nat, low: nat, slack: int)
    requires i < |cs| && Steep(cs[i], low, slack) && Lawful(cs, log)
    requires log.Then? && log.entry.Scheduled? && log.entry.service == i && log.before.entry.ForkFailed?
    requires Climbing(cs[i], log.before.before, i, low, slack)
    ensures Climbing(cs[i], log, i, low, slack)
  {
    var failed := log.before;
    var free := failed.before;
    assert failed.entry == ForkFailed(i) && Latest(failed) == Latest(free) && StartedAt(failed, i) == StartedAt(free, i);
    if !Wanted(free, i) && Rung(free, i) >= low {
      FailedForkIsLate(cs, free, i, low, log.entry.at);
    }
    assert Rung(log, i) <= low;
  }

  /** One that is put off after an exit climbs with the exit noted. */
  lemma ClimbsAfterExit(cs: seq<Config>, log: Trace, i: nat, low: nat, slack: int)
    requires i < |cs| && Steep(cs[i], low, slack) && Lawful(cs, log)
    requires log.Then? && log.entry.Scheduled? && log.entry.service == i && log.before.entry.Noted?
    requires Climbing(cs[i], log.before.before, i, low, slack)
    ensures Climbing(cs[i], log, i, low, slack)
  {
    var c, noted, at := cs[i], log.before, log.entry.at;
    var free := noted.before;
    var r, f, start := Rung(free, i), Failures(free, i), StartedAt(free, i);
    assert noted.entry.service == i && Owes(free) == i;
    assert Rung(noted, i) == r && StartedAt(noted, i) == start && Failures(noted, i) == f + [noted.entry.at];
    ExitFacts(cs, free, i);
    TimesAreInThePast(cs, free, i);
    if at - start < STABLE && r >= low {
      AlignedNext(c, f, ScheduledAt(free, i), r, low, slack, noted.entry.at, at);
      if r == low + 5 {
        TooManyExits(cs, noted, i, low, slack, at);
      }
    }
  }

  /** Before an exit is noted the service was up, and nobody had asked for its end. */
  lemma ExitFacts(cs: seq<Config>, free: Trace, i: nat)
    requires Lawful(cs, free) && Owes(free) == i
    ensures Up(free, i) && !Wanted(free, i) && !ShuttingDown(free)
  {
    ChildIsUp(cs, free.before, i, free.entry.pid);
  }

  /** Six exits on six rungs would have put the service out. */
  lemma TooManyExits(cs: seq<Config>, noted: Trace, i: nat, low: nat, slack: int, at: int)
    requires i < |cs| && Steep(cs[i], low, slack) && Lawful(cs, noted) && noted.Then? && noted.entry.Noted? && noted.entry.service == i
    requires Aligned(cs[i], Failures(noted, i), at, low + 6, low, slack) && noted.entry.at <= at
    ensures Out(cs[i], noted, i)
  {
    var f := Failures(noted, i);
    FailuresAreOrdered(cs, noted, i);
    assert BackTo(f, 5, at - Span(cs[i], slack, low + 6, 5));
    assert Last(f) == noted.entry.at;
    SixInADay(f);
  }

  /** Every other entry leaves a climb where it is. */
  lemma ClimbingStays(cs: seq<Config>, log: Trace, i: nat, low: nat, slack: int)
    requires i < |cs| && Steep(cs[i], low, slack) && Lawful(cs, log) && Prompt(cs[i], log, i, slack)
    requires log.Then? && !(log.entry.Scheduled? && log.entry.service == i) && Climbing(cs[i], log.before, i, low, slack)
    ensures Climbing(cs[i], log, i, low, slack)
  {
    var c, before := cs[i], log.before;
    RungMeans(cs, c, before, i);
    TimesAreInThePast(cs, before, i);
    if log.entry.Noted? && log.entry.service == i && Rung(before, i) > low {
      ExitFacts(cs, before, i);
      AlignedWithMore(c, Failures(before, i), ScheduledAt(before, i), Rung(before, i), low, slack, log.entry.at);
    }
  }

  lemma {:induction false} AlwaysClimbing(cs: seq<Config>, log: Trace, i: nat, low: nat, slack: int)
    requires i < |cs| && Steep(cs[i], low, slack) && Lawful(cs, log) && Prompt(cs[i], log, i, slack)
    ensures Climbing(cs[i], log, i, low, slack)
  {
    if log.Then? {
      if log.entry.Scheduled? && log.entry.service == i {
        AlwaysClimbing(cs, log.before.before, i, low, slack);
        if log.before.entry.Noted? {
          ClimbsAfterExit(cs, log, i, low, slack);
        } else {
          ClimbsAfterFork(cs, log, i, low, slack);
        }
      } else {
        AlwaysClimbing(cs, log.before, i, low, slack);
        ClimbingStays(cs, log, i, low, slack);
      }
    }
  }

  // ---- when doubling leaves 32 bits ----

  /** Five doubled delays, five launches as late as they may be, and six short runs come to more than a day. */
  predicate OutlastsADay(c: Config, slack: int) {
    62 * c.backoffMin * SECOND + 5 * slack + 6 * (STABLE - 1) > WINDOW
  }

  /** With a timer that fires every second and is never late. */
  lemma OutlastsOnTime(c: Config)
    ensures OutlastsADay(c, SECOND) <==> c.backoffMin >= 1393
  {
  }

  lemma SpanOfSix(c: Config, slack: int, low: nat)
    ensures Span(c, slack, low + 6, 5)
            == (Delay(c, low + 1) + Delay(c, low + 2) + Delay(c, low + 3) + Delay(c, low + 4) + Delay(c, low + 5)) * SECOND
               + 5 * slack + 6 * (STABLE - 1)
  {
    assert Span(c, slack, low + 1, 0) == STABLE - 1;
    assert Span(c, slack, low + 2, 1) == Delay(c, low + 1) * SECOND + slack + 2 * (STABLE - 1);
    assert Span(c, slack, low + 3, 2) == (Delay(c, low + 1) + Delay(c, low + 2)) * SECOND + 2 * slack + 3 * (STABLE - 1);
    assert Span(c, slack, low + 4, 3) == (Delay(c, low + 1) + Delay(c, low + 2) + Delay(c, low + 3)) * SECOND + 3 * slack + 4 * (STABLE - 1);
  }

  lemma SmallPowers()
    ensures Pow2(0) == 1 && Pow2(1) == 2 && Pow2(2) == 4 && Pow2(3) == 8 && Pow2(4) == 16 && Pow2(5) == 32
    ensures Pow2(6) == 64 && Pow2(7) == 128 && Pow2(8) == 256 && Pow2(9) == 512
  {
    assert Pow2(3) == 8;
    assert Pow2(6) == 64;
  }

  /** The rung from which a delay is as long as a short run. */
  function Low(c: Config): nat {
    if c.backoffMin >= 10 then 0 else if c.backoffMin >= 5 then 1 else if c.backoffMin >= 3 then 2
    else if c.backoffMin == 2 then 3 else 4
  }

  lemma SteepFromLow(c: Config, slack: int)
    requires Sane(c) && c.autorestart && 0 <= slack <= HOUR && c.backoffMax >= 0x4000_0000 && !OutlastsADay(c, slack)
    ensures Steep(c, Low(c), slack) && Delay(c, Low(c) + 5) <= 50_000
  {
    var low := Low(c);
    FirstLongDelay(c);
    var first := c.backoffMin * Pow2(low);
    SpanOfSix(c, slack, low);
    hide Span, Delay, Low, OutlastsADay;
    SmallPowers();
    hide Pow2;
    DelayAbove(c, low, 0);
    DelayAbove(c, low, 1);
    DelayAbove(c, low, 2);
    DelayAbove(c, low, 3);
    DelayAbove(c, low, 4);
    DelayAbove(c, low, 5);
  }

  /** The first delay that is as long as a short run is the shortest of all, or below twenty seconds. */
  lemma FirstLongDelay(c: Config)
    requires c.backoffMin >= 1
    ensures 10 <= c.backoffMin * Pow2(Low(c)) && (c.backoffMin * Pow2(Low(c)) < 20 || c.backoffMin * Pow2(Low(c)) == c.backoffMin)
  {
    SmallPowers();
  }

  lemma DelayAbove(c: Config, low: nat, j: nat)
    requires c.backoffMin * Pow2(low) * Pow2(j) <= c.backoffMax
    ensures Delay(c, low + j) == c.backoffMin * Pow2(low) * Pow2(j)
  {
    Pow2Adds(low, j);
    Associates(c.backoffMin, Pow2(low), Pow2(j));
  }

  lemma Associates(a: int, b: int, d: int)
    ensures a * (b * d) == a * b * d
  {
  }

  /** With launches at most an hour late, doubling a backoff stays within 32 bits unless the longest delay is 2^30 seconds
      or more and the delays spread six exits over more than a day. */
  lemma PromptDoublingFits(cs: seq<Config>, log: Trace, i: nat, slack: int)
    requires i < |cs| && Sane(cs[i]) && cs[i].autorestart && 0 <= slack <= HOUR
    requires Lawful(cs, log) && Prompt(cs[i], log, i, slack)
    requires cs[i].backoffMax < 0x4000_0000 || !OutlastsADay(cs[i], slack)
    ensures 0 <= Delay(cs[i], Rung(log, i)) * 2 <= INT_MAX
  {
    var c, r := cs[i], Rung(log, i);
    if r >= 0 {
      DelayGrows(c, r, r);
      if c.backoffMax >= 0x4000_0000 {
        SteepFromLow(c, slack);
        AlwaysClimbing(cs, log, i, Low(c), slack);
        DelayGrows(c, r, Low(c) + 5);
      }
    }
  }

  /** A service that is not restarted automatically is put off after failed launches only, which do not climb above the
      first rung whose delay is as long as a short run. */
  lemma {:induction false} ForksAloneStayLow(cs: seq<Config>, log: Trace, i: nat)
    requires i < |cs| && Sane(cs[i]) && !cs[i].autorestart && cs[i].backoffMax >= 20 && Lawful(cs, log)
    ensures Rung(log, i) <= Low(cs[i])
  {
    if log.Then? {
      ForksAloneStayLow(cs, log.before, i);
      if log.entry.Scheduled? && log.entry.service == i {
        var free := log.before.before;
        ForksAloneStayLow(cs, free, i);
        FirstLongDelay(cs[i]);
        if log.before.entry.ForkFailed? && Rung(free, i) == Low(cs[i]) && !Wanted(free, i) {
          FailedForkIsLate(cs, free, i, Low(cs[i]), log.entry.at);
        }
      }
    }
  }
}
