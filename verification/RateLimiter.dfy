/** The per-address token buckets that are checked at accept time.

    Tokens and instants are real numbers. A call carries the instant it read from the
    clock before it took the lock, so calls can reach a bucket out of order.
 */
module RateLimiter {
  import opened Basics

  const CAPACITY: nat := 100_000  // kMaxBuckets

  datatype Ip = Ip(address: nat)

  datatype Config = Config(rate: real, burst: real)
  datatype Bucket = Bucket(tokens: real, last: real)

  function Lesser(a: real, b: real): real {
    if a < b then a else b
  }

  /** The tokens that time adds. */
  function Refill(late: real, early: real, rate: real): real {
    (late - early) * rate
  }

  lemma RefillAdds(late: real, mid: real, early: real, rate: real)
    ensures Refill(late, early, rate) == Refill(late, mid, rate) + Refill(mid, early, rate)
    ensures Refill(mid, mid, rate) == 0.0
  {
  }

  lemma RefillIsNotNegative(late: real, early: real, rate: real)
    requires early <= late && rate >= 0.0
    ensures Refill(late, early, rate) >= 0.0
  {
    ProductIsNotNegative(late - early, rate);
  }

  lemma ProductIsNotNegative(a: real, b: real)
    requires a >= 0.0 && b >= 0.0
    ensures a * b >= 0.0
  {
  }

  /** The tokens a bucket holds at `now`. */
  function Level(c: Config, b: Bucket, now: real): real {
    Lesser(c.burst, b.tokens + Refill(now, b.last, c.rate))
  }

  predicate Grants(c: Config, b: Bucket, now: real) {
    Level(c, b, now) >= 1.0
  }

  function Charged(c: Config, b: Bucket, now: real): Bucket {
    Bucket(if Grants(c, b, now) then Level(c, b, now) - 1.0 else Level(c, b, now), now)
  }

  predicate Full(c: Config, b: Bucket, now: real) {
    b.tokens + Refill(now, b.last, c.rate) >= c.burst
  }

  function Pruned(c: Config, buckets: map<Ip, Bucket>, now: real): map<Ip, Bucket> {
    map ip | ip in buckets && !Full(c, buckets[ip], now) :: buckets[ip]
  }

  /** Which bucket answered a call. */
  datatype Charge = Fresh | Own | Shared

  datatype Table = Table(buckets: map<Ip, Bucket>, overflow: Bucket)
  datatype Verdict = Verdict(table: Table, charge: Charge, admitted: bool)

  /** What one call does. */
  function Decide(c: Config, t: Table, ip: Ip, now: real): Verdict {
    if ip in t.buckets then
      var b := t.buckets[ip];
      Verdict(t.(buckets := t.buckets[ip := Charged(c, b, now)]), Own, Grants(c, b, now))
    else
      var kept := if |t.buckets| >= CAPACITY then Pruned(c, t.buckets, now) else t.buckets;
      if |kept| >= CAPACITY then
        Verdict(Table(kept, Charged(c, t.overflow, now)), Shared, Grants(c, t.overflow, now))
      else
        Verdict(Table(kept[ip := Bucket(c.burst - 1.0, now)], t.overflow), Fresh, true)
  }

  class Limiter {
    const config: Config
    var buckets: map<Ip, Bucket>
    var overflow: Bucket

    ghost predicate Valid() reads this {
      |buckets| <= CAPACITY
    }

    ghost function View(): Table reads this {
      Table(buckets, overflow)
    }

    constructor (rate: real, burst: real, now: real)
      ensures Valid() && config == Config(rate, burst) && View() == Table(map[], Bucket(burst, now))
    {
      config := Config(rate, burst);
      buckets := map[];
      overflow := Bucket(burst, now);
    }

    method Allow(ip: Ip, now: real) returns (admitted: bool)
      requires Valid()
      modifies this
      ensures Valid()
      ensures var v := Decide(config, old(View()), ip, now); View() == v.table && admitted == v.admitted
    {
      if ip !in buckets {
        if |buckets| >= CAPACITY {
          PrunedIsSmaller(config, buckets, now);
          Prune(now);
        }
        if |buckets| >= CAPACITY {
          overflow, admitted := Spend(overflow, now);
          return;
        }
        buckets := buckets[ip := Bucket(config.burst - 1.0, now)];
        return true;
      }
      var b;
      b, admitted := Spend(buckets[ip], now);
      buckets := buckets[ip := b];
    }

    method Spend(b: Bucket, now: real) returns (charged: Bucket, granted: bool)
      ensures charged == Charged(config, b, now) && granted == Grants(config, b, now)
    {
      var elapsed := now - b.last;
      assert b.tokens + elapsed * config.rate == b.tokens + Refill(now, b.last, config.rate);
      charged := Bucket(Lesser(config.burst, b.tokens + elapsed * config.rate), now);
      if charged.tokens >= 1.0 {
        charged := charged.(tokens := charged.tokens - 1.0);
        return charged, true;
      }
      return charged, false;
    }

    method Prune(now: real)
      modifies `buckets
      ensures buckets == Pruned(config, old(buckets), now)
    {
      var todo := buckets.Keys;
      while todo != {}
        invariant todo <= buckets.Keys <= old(buckets).Keys
        invariant forall ip :: ip in buckets ==> buckets[ip] == old(buckets)[ip]
        invariant forall ip :: ip in old(buckets) && ip !in todo ==>
                    (ip in buckets <==> !Full(config, old(buckets)[ip], now))
        decreases todo
      {
        var ip :| ip in todo;
        todo := todo - {ip};
        if Full(config, buckets[ip], now) {
          buckets := buckets - {ip};
        }
      }
    }
  }

  // ---- the table stays bounded ----

  lemma PrunedIsSmaller(c: Config, buckets: map<Ip, Bucket>, now: real)
    ensures |Pruned(c, buckets, now)| <= |buckets|
  {
    SubsetSize(Pruned(c, buckets, now).Keys, buckets.Keys);
  }

  lemma {:induction false} SubsetSize<T>(a: set<T>, b: set<T>)
    requires a <= b
    ensures |a| <= |b|
  {
    if a != {} {
      var x :| x in a;
      SubsetSize(a - {x}, b - {x});
    }
  }

  lemma TableStaysBounded(c: Config, t: Table, ip: Ip, now: real)
    requires |t.buckets| <= CAPACITY
    ensures |Decide(c, t, ip, now).table.buckets| <= CAPACITY
  {
    PrunedIsSmaller(c, t.buckets, now);
  }

  // ---- runs ----

  datatype Call = Call(ip: Ip, now: real)

  predicate InOrder(calls: seq<Call>, from: real) {
    calls != [] ==> from <= calls[0].now && InOrder(calls[1..], calls[0].now)
  }

  function After(c: Config, t: Table, call: Call): Table {
    Decide(c, t, call.ip, call.now).table
  }

  /** The decisions of a run. */
  function Decisions(c: Config, t: Table, calls: seq<Call>): seq<bool>
    decreases |calls|
  {
    if calls == [] then [] else [Decide(c, t, calls[0].ip, calls[0].now).admitted] + Decisions(c, After(c, t, calls[0]), calls[1..])
  }

  /** No call of a run is charged to the shared bucket. */
  predicate AlwaysRoom(c: Config, t: Table, calls: seq<Call>)
    decreases |calls|
  {
    calls != [] ==>
      !Decide(c, t, calls[0].ip, calls[0].now).charge.Shared? && AlwaysRoom(c, After(c, t, calls[0]), calls[1..])
  }

  // ---- pruning is invisible ----

  /** The limiter that never prunes. */
  function DecideUnbounded(c: Config, all: map<Ip, Bucket>, ip: Ip, now: real): (map<Ip, Bucket>, bool) {
    if ip in all then (all[ip := Charged(c, all[ip], now)], Grants(c, all[ip], now))
    else (all[ip := Bucket(c.burst - 1.0, now)], true)
  }

  function DecisionsUnbounded(c: Config, all: map<Ip, Bucket>, calls: seq<Call>): seq<bool>
    decreases |calls|
  {
    if calls == [] then []
    else
      var (next, admitted) := DecideUnbounded(c, all, calls[0].ip, calls[0].now);
      [admitted] + DecisionsUnbounded(c, next, calls[1..])
  }

  /** The table holds every bucket of `all` that is not full. */
  ghost predicate Represents(c: Config, t: Table, all: map<Ip, Bucket>, now: real) {
    && t.buckets.Keys <= all.Keys
    && (forall ip :: ip in t.buckets ==> t.buckets[ip] == all[ip])
    && (forall ip :: ip in all ==> all[ip].last <= now)
    && (forall ip :: ip in all && ip !in t.buckets ==> Full(c, all[ip], now))
  }

  /** A full bucket answers like one that does not exist yet, exactly when a burst is at least one. */
  lemma FullIsFresh(c: Config, b: Bucket, now: real)
    requires Full(c, b, now)
    ensures (Charged(c, b, now) == Bucket(c.burst - 1.0, now) && Grants(c, b, now)) <==> c.burst >= 1.0
  {
  }

  lemma FullStaysFull(c: Config, b: Bucket, now: real, later: real)
    requires Full(c, b, now) && now <= later && c.rate >= 0.0
    ensures Full(c, b, later)
  {
    RefillIsNotNegative(later, now, c.rate);
    RefillAdds(later, now, b.last, c.rate);
  }

  lemma StepRepresents(c: Config, t: Table, all: map<Ip, Bucket>, from: real, call: Call)
    requires c.rate >= 0.0 && c.burst >= 1.0 && from <= call.now && Represents(c, t, all, from)
    requires !Decide(c, t, call.ip, call.now).charge.Shared?
    ensures Decide(c, t, call.ip, call.now).admitted == DecideUnbounded(c, all, call.ip, call.now).1
    ensures Represents(c, After(c, t, call), DecideUnbounded(c, all, call.ip, call.now).0, call.now)
  {
    forall ip | ip in all && ip !in t.buckets ensures Full(c, all[ip], call.now) {
      FullStaysFull(c, all[ip], from, call.now);
    }
    if call.ip in all && call.ip !in t.buckets {
      FullIsFresh(c, all[call.ip], call.now);
    }
  }

  /** While pruning makes room, a run is decided as if nothing had ever been pruned. */
  lemma {:induction false} PruningIsInvisible(c: Config, t: Table, all: map<Ip, Bucket>, from: real, calls: seq<Call>)
    requires c.rate >= 0.0 && c.burst >= 1.0 && InOrder(calls, from) && Represents(c, t, all, from)
    requires AlwaysRoom(c, t, calls)
    ensures Decisions(c, t, calls) == DecisionsUnbounded(c, all, calls)
    decreases |calls|
  {
    if calls != [] {
      StepRepresents(c, t, all, from, calls[0]);
      PruningIsInvisible(c, After(c, t, calls[0]), DecideUnbounded(c, all, calls[0].ip, calls[0].now).0, calls[0].now, calls[1..]);
    }
  }

  // ---- exactly when it is ----

  const EMPTY: map<Ip, Bucket> := map[]

  /** From an empty table, this run is decided as without pruning. */
  predicate Invisible(c: Config, calls: seq<Call>) {
    var t := Table(EMPTY, Bucket(c.burst, 0.0));
    InOrder(calls, 0.0) && AlwaysRoom(c, t, calls) ==> Decisions(c, t, calls) == DecisionsUnbounded(c, EMPTY, calls)
  }

  /** Buckets of the first `k` addresses, as the first call of each leaves them at instant zero. */
  function Rows(c: Config, k: nat): (rows: map<Ip, Bucket>)
    ensures |rows| == k && forall ip: Ip :: ip in rows <==> ip.address < k
    ensures forall ip :: ip in rows ==> rows[ip] == Bucket(c.burst - 1.0, 0.0)
  {
    if k == 0 then map[]
    else
      assert Ip(k - 1) !in Rows(c, k - 1);
      Rows(c, k - 1)[Ip(k - 1) := Bucket(c.burst - 1.0, 0.0)]
  }

  /** A first call of each address from the `k`th to the last that the table has room for, and then two calls at `when`:
      one of a new address and one of the first. */
  function Visit(k: nat, when: real): seq<Call>
    requires k <= CAPACITY
    decreases CAPACITY - k
  {
    if k == CAPACITY then [Call(Ip(CAPACITY), when), Call(Ip(0), when)] else [Call(Ip(k), 0.0)] + Visit(k + 1, when)
  }

  lemma {:induction false} VisitInOrder(k: nat, when: real)
    requires k <= CAPACITY && when >= 0.0
    ensures InOrder(Visit(k, when), 0.0)
    decreases CAPACITY - k
  {
    var calls := Visit(k, when);
    if k < CAPACITY {
      VisitInOrder(k + 1, when);
      assert calls[1..] == Visit(k + 1, when);
    } else {
      assert calls[1..] == [Call(Ip(0), when)] && calls[1..][1..] == [];
    }
  }

  /** With a burst below one the two calls tell the limiters apart: the new address empties the table, and the first
      address gets through as if it had never called. */
  lemma Revisit(c: Config, overflow: Bucket)
    requires c.rate > 0.0 && c.burst < 1.0
    ensures var t, when := Table(Rows(c, CAPACITY), overflow), 1.0 / c.rate;
            && AlwaysRoom(c, t, Visit(CAPACITY, when))
            && Decisions(c, t, Visit(CAPACITY, when)) != DecisionsUnbounded(c, Rows(c, CAPACITY), Visit(CAPACITY, when))
  {
    hide Rows;
    var rows, when, calls := Rows(c, CAPACITY), 1.0 / c.rate, Visit(CAPACITY, 1.0 / c.rate);
    var t := Table(rows, overflow);
    OneToken(c.rate);
    assert Pruned(c, rows, when) == map[];
    var next := After(c, t, calls[0]);
    assert next.buckets == map[Ip(CAPACITY) := Bucket(c.burst - 1.0, when)];
    var last := calls[1..];
    assert last == [Call(Ip(0), when)] && last[1..] == [];
    assert Decide(c, next, Ip(0), when).admitted && Decide(c, next, Ip(0), when).charge.Fresh?;
    assert AlwaysRoom(c, After(c, next, last[0]), []) && AlwaysRoom(c, next, last);
    assert !Decide(c, t, Ip(CAPACITY), when).charge.Shared?;
    var all := DecideUnbounded(c, rows, Ip(CAPACITY), when).0;
    assert !Grants(c, all[Ip(0)], when);
    assert Decisions(c, next, last)[0] && !DecisionsUnbounded(c, all, last)[0];
    assert Decisions(c, t, calls)[1] == Decisions(c, next, last)[0];
    assert DecisionsUnbounded(c, rows, calls)[1] == DecisionsUnbounded(c, all, last)[0];
  }

  lemma OneToken(rate: real)
    requires rate > 0.0
    ensures Refill(1.0 / rate, 0.0, rate) == 1.0 && 1.0 / rate >= 0.0
  {
  }

  lemma {:induction false} VisitTellsApart(c: Config, k: nat, overflow: Bucket)
    requires c.rate > 0.0 && c.burst < 1.0 && k <= CAPACITY
    ensures var t, calls := Table(Rows(c, k), overflow), Visit(k, 1.0 / c.rate);
            AlwaysRoom(c, t, calls) && Decisions(c, t, calls) != DecisionsUnbounded(c, Rows(c, k), calls)
    decreases CAPACITY - k
  {
    if k == CAPACITY {
      Revisit(c, overflow);
    } else {
      VisitTellsApart(c, k + 1, overflow);
      var t, calls := Table(Rows(c, k), overflow), Visit(k, 1.0 / c.rate);
      assert calls[1..] == Visit(k + 1, 1.0 / c.rate);
      assert Ip(k) !in Rows(c, k);
      var rows := Rows(c, k + 1);
      assert After(c, t, calls[0]) == Table(rows, overflow);
      assert DecideUnbounded(c, Rows(c, k), Ip(k), 0.0) == (rows, true);
      assert Decisions(c, t, calls)[1..] == Decisions(c, Table(rows, overflow), calls[1..]);
      assert DecisionsUnbounded(c, Rows(c, k), calls)[1..] == DecisionsUnbounded(c, rows, calls[1..]);
    }
  }

  /** No bucket is full, and without a refill none will be. */
  ghost predicate Stale(c: Config, buckets: map<Ip, Bucket>) {
    forall ip :: ip in buckets ==> buckets[ip].tokens < c.burst && buckets[ip].tokens < 1.0
  }

  lemma {:induction false} NothingRefills(c: Config, t: Table, calls: seq<Call>)
    requires c.rate == 0.0 && c.burst < 1.0 && Stale(c, t.buckets) && AlwaysRoom(c, t, calls)
    ensures Decisions(c, t, calls) == DecisionsUnbounded(c, t.buckets, calls)
    decreases |calls|
  {
    if calls != [] {
      var call := calls[0];
      assert Pruned(c, t.buckets, call.now) == t.buckets;
      NothingRefills(c, After(c, t, call), calls[1..]);
    }
  }

  /** Pruning is invisible to every run from an empty table exactly when a burst is at least one or nothing refills. */
  lemma PruningIsInvisibleExactly(c: Config)
    requires c.rate >= 0.0
    ensures (forall calls :: Invisible(c, calls)) <==> (c.burst >= 1.0 || c.rate == 0.0)
  {
    var t := Table(EMPTY, Bucket(c.burst, 0.0));
    if c.burst >= 1.0 || c.rate == 0.0 {
      forall calls ensures Invisible(c, calls) {
        if InOrder(calls, 0.0) && AlwaysRoom(c, t, calls) {
          if c.burst >= 1.0 {
            PruningIsInvisible(c, t, EMPTY, 0.0, calls);
          } else {
            NothingRefills(c, t, calls);
          }
        }
      }
    } else {
      OneToken(c.rate);
      VisitInOrder(0, 1.0 / c.rate);
      VisitTellsApart(c, 0, t.overflow);
      assert Rows(c, 0) == EMPTY;
      assert !Invisible(c, Visit(0, 1.0 / c.rate));
    }
  }

  // ---- how many calls get through ----

  /** Buckets hold no debt and were last used in the past. */
  ghost predicate Settled(c: Config, t: Table, now: real) {
    && (forall ip :: ip in t.buckets ==> t.buckets[ip].tokens >= 0.0 && t.buckets[ip].last <= now)
    && t.overflow.tokens >= 0.0 && t.overflow.last <= now
  }

  /** What an address can still draw from its own bucket, present or not. */
  function Credit(c: Config, t: Table, ip: Ip, now: real): real {
    if ip in t.buckets then Level(c, t.buckets[ip], now) else c.burst
  }

  /** Admits of a run that are charged to the address's own bucket. */
  function OwnAdmits(c: Config, t: Table, calls: seq<Call>, ip: Ip): nat
    decreases |calls|
  {
    if calls == [] then 0
    else
      var v := Decide(c, t, calls[0].ip, calls[0].now);
      (if calls[0].ip == ip && v.admitted && !v.charge.Shared? then 1 else 0) + OwnAdmits(c, v.table, calls[1..], ip)
  }

  /** Admits of a run that are charged to the shared bucket. */
  function SharedAdmits(c: Config, t: Table, calls: seq<Call>): nat
    decreases |calls|
  {
    if calls == [] then 0
    else
      var v := Decide(c, t, calls[0].ip, calls[0].now);
      (if v.admitted && v.charge.Shared? then 1 else 0) + SharedAdmits(c, v.table, calls[1..])
  }

  /** All admits of one address. */
  function Admits(c: Config, t: Table, calls: seq<Call>, ip: Ip): nat
    decreases |calls|
  {
    if calls == [] then 0
    else
      var v := Decide(c, t, calls[0].ip, calls[0].now);
      (if calls[0].ip == ip && v.admitted then 1 else 0) + Admits(c, v.table, calls[1..], ip)
  }

  function LastTime(calls: seq<Call>, from: real): real {
    if calls == [] then from else calls[|calls| - 1].now
  }

  lemma LevelGrows(c: Config, b: Bucket, now: real, later: real)
    requires now <= later && c.rate >= 0.0
    ensures Level(c, b, now) <= Level(c, b, later) <= Level(c, b, now) + Refill(later, now, c.rate)
  {
    RefillIsNotNegative(later, now, c.rate);
    RefillAdds(later, now, b.last, c.rate);
  }

  lemma LevelIsNotNegative(c: Config, b: Bucket, now: real)
    requires c.rate >= 0.0 && c.burst >= 1.0 && b.tokens >= 0.0 && b.last <= now
    ensures Level(c, b, now) >= 0.0 && Charged(c, b, now).tokens >= 0.0
  {
    RefillIsNotNegative(now, b.last, c.rate);
  }

  lemma ChargedLevel(c: Config, b: Bucket, now: real)
    ensures Level(c, Charged(c, b, now), now) == Level(c, b, now) - (if Grants(c, b, now) then 1.0 else 0.0)
  {
    RefillAdds(now, now, now, c.rate);
  }

  lemma StepSettled(c: Config, t: Table, from: real, call: Call)
    requires c.rate >= 0.0 && c.burst >= 1.0 && from <= call.now && Settled(c, t, from)
    ensures Settled(c, After(c, t, call), call.now)
  {
    LevelIsNotNegative(c, t.overflow, call.now);
    if call.ip in t.buckets {
      LevelIsNotNegative(c, t.buckets[call.ip], call.now);
    }
  }

  /** A call raises an address's credit by no more than the refill, less one if it is admitted on it. */
  lemma StepCredit(c: Config, t: Table, from: real, call: Call, ip: Ip)
    requires c.rate >= 0.0 && c.burst >= 1.0 && from <= call.now && Settled(c, t, from)
    ensures var v := Decide(c, t, call.ip, call.now);
            Credit(c, v.table, ip, call.now) + (if call.ip == ip && v.admitted && !v.charge.Shared? then 1.0 else 0.0)
            <= Credit(c, t, ip, from) + Refill(call.now, from, c.rate)
  {
    RefillIsNotNegative(call.now, from, c.rate);
    RefillAdds(call.now, call.now, from, c.rate);
    if ip in t.buckets {
      LevelGrows(c, t.buckets[ip], from, call.now);
      ChargedLevel(c, t.buckets[ip], call.now);
    }
  }

  lemma StepShared(c: Config, t: Table, from: real, call: Call)
    requires c.rate >= 0.0 && from <= call.now
    ensures var v := Decide(c, t, call.ip, call.now);
            Level(c, v.table.overflow, call.now) + (if v.admitted && v.charge.Shared? then 1.0 else 0.0)
            <= Level(c, t.overflow, from) + Refill(call.now, from, c.rate)
  {
    LevelGrows(c, t.overflow, from, call.now);
    ChargedLevel(c, t.overflow, call.now);
  }

  lemma {:induction false} OwnAdmitsBounded(c: Config, t: Table, from: real, calls: seq<Call>, ip: Ip)
    requires c.rate >= 0.0 && c.burst >= 1.0 && InOrder(calls, from) && Settled(c, t, from)
    ensures OwnAdmits(c, t, calls, ip) as real <= Credit(c, t, ip, from) + Refill(LastTime(calls, from), from, c.rate)
    decreases |calls|
  {
    if calls == [] {
      RefillAdds(from, from, from, c.rate);
      if ip in t.buckets {
        LevelIsNotNegative(c, t.buckets[ip], from);
      }
    } else {
      var now := calls[0].now;
      StepSettled(c, t, from, calls[0]);
      StepCredit(c, t, from, calls[0], ip);
      OwnAdmitsBounded(c, After(c, t, calls[0]), now, calls[1..], ip);
      RefillAdds(LastTime(calls, from), now, from, c.rate);
    }
  }

  lemma {:induction false} SharedAdmitsBounded(c: Config, t: Table, from: real, calls: seq<Call>)
    requires c.rate >= 0.0 && c.burst >= 1.0 && InOrder(calls, from) && Settled(c, t, from)
    ensures SharedAdmits(c, t, calls) as real <= Level(c, t.overflow, from) + Refill(LastTime(calls, from), from, c.rate)
    decreases |calls|
  {
    if calls == [] {
      RefillAdds(from, from, from, c.rate);
      LevelIsNotNegative(c, t.overflow, from);
    } else {
      var now := calls[0].now;
      StepSettled(c, t, from, calls[0]);
      StepShared(c, t, from, calls[0]);
      SharedAdmitsBounded(c, After(c, t, calls[0]), now, calls[1..]);
      RefillAdds(LastTime(calls, from), now, from, c.rate);
    }
  }

  lemma {:induction false} AdmitsSplit(c: Config, t: Table, calls: seq<Call>, ip: Ip)
    ensures Admits(c, t, calls, ip) <= OwnAdmits(c, t, calls, ip) + SharedAdmits(c, t, calls)
    decreases |calls|
  {
    if calls != [] {
      AdmitsSplit(c, After(c, t, calls[0]), calls[1..], ip);
    }
  }

  /** In any stretch of time, from any settled table, whether an address is tracked, pruned, created
      again or charged to the shared bucket: at most twice a burst and the refill get through, and
      the shared bucket lets no more than one burst and the refill through for all addresses together. */
  lemma AdmitsAreBounded(c: Config, t: Table, from: real, calls: seq<Call>, ip: Ip)
    requires c.rate >= 0.0 && c.burst >= 1.0 && InOrder(calls, from) && Settled(c, t, from)
    ensures var allowance := c.burst + Refill(LastTime(calls, from), from, c.rate);
            && SharedAdmits(c, t, calls) as real <= allowance
            && OwnAdmits(c, t, calls, ip) as real <= allowance
            && Admits(c, t, calls, ip) as real <= 2.0 * allowance
  {
    OwnAdmitsBounded(c, t, from, calls, ip);
    SharedAdmitsBounded(c, t, from, calls);
    AdmitsSplit(c, t, calls, ip);
  }

  /** A fresh address is let in without a look at the burst: with less than one token, once too often. */
  lemma SmallBurstOvershoots(c: Config, now: real, ip: Ip)
    ensures OwnAdmits(c, Table(map[], Bucket(c.burst, now)), [Call(ip, now)], ip) as real <= c.burst <==> c.burst >= 1.0
  {
    var t := Table(map[], Bucket(c.burst, now));
    assert [Call(ip, now)][1..] == [];
    assert OwnAdmits(c, After(c, t, Call(ip, now)), [], ip) == 0;
  }

  // ---- how many calls have to get through ----

  /** What a bucket would hold at `now` if there were no burst. */
  function Saved(c: Config, b: Bucket, now: real): real {
    b.tokens + (now - b.last) * c.rate
  }

  /** A bucket has a token to give. */
  predicate HasToken(c: Config, b: Bucket, now: real) {
    c.burst >= 1.0 && Saved(c, b, now) >= 1.0
  }

  /** Neither is the address tracked nor is there room for it, even without the buckets that are full by now. */
  predicate Crowded(c: Config, t: Table, call: Call) {
    && call.ip !in t.buckets && |t.buckets| >= CAPACITY
    && |map ip | ip in t.buckets && Saved(c, t.buckets[ip], call.now) < c.burst :: t.buckets[ip]| >= CAPACITY
  }

  lemma GrantsExactly(c: Config, b: Bucket, now: real)
    ensures Grants(c, b, now) <==> HasToken(c, b, now)
  {
    hide Refill, Saved;
    SavedIs(c, b, now);
  }

  lemma SavedIs(c: Config, b: Bucket, now: real)
    ensures Saved(c, b, now) == b.tokens + Refill(now, b.last, c.rate)
  {
  }

  lemma PrunedAre(c: Config, buckets: map<Ip, Bucket>, now: real)
    ensures Pruned(c, buckets, now) == map ip | ip in buckets && Saved(c, buckets[ip], now) < c.burst :: buckets[ip]
  {
    hide Refill, Saved;
    forall ip | ip in buckets ensures Full(c, buckets[ip], now) <==> Saved(c, buckets[ip], now) >= c.burst {
      SavedIs(c, buckets[ip], now);
    }
  }

  /** A call is refused exactly if the bucket that has to answer it has no token: the address's own when it is tracked, the
      shared one when there is no room. A new address for which there is room is let in. */
  lemma RefusedExactly(c: Config, t: Table, call: Call)
    ensures var v := Decide(c, t, call.ip, call.now);
            v.admitted <==>
            if call.ip in t.buckets then HasToken(c, t.buckets[call.ip], call.now)
            else Crowded(c, t, call) ==> HasToken(c, t.overflow, call.now)
    ensures Decide(c, t, call.ip, call.now).charge.Shared? <==> Crowded(c, t, call)
  {
    PrunedAre(c, t.buckets, call.now);
    GrantsExactly(c, t.overflow, call.now);
    if call.ip in t.buckets {
      GrantsExactly(c, t.buckets[call.ip], call.now);
    }
    hide Pruned, Grants, HasToken, Charged, Saved;
  }

  /** The calls of a run that find no room. */
  function CrowdedCalls(c: Config, t: Table, calls: seq<Call>): nat
    decreases |calls|
  {
    if calls == [] then 0
    else (if Crowded(c, t, calls[0]) then 1 else 0) + CrowdedCalls(c, After(c, t, calls[0]), calls[1..])
  }

  /** The calls of an address that its own bucket answers, tracked already or new. */
  function OwnCalls(c: Config, t: Table, calls: seq<Call>, ip: Ip): nat
    decreases |calls|
  {
    if calls == [] then 0
    else (if calls[0].ip == ip && !Crowded(c, t, calls[0]) then 1 else 0) + OwnCalls(c, After(c, t, calls[0]), calls[1..], ip)
  }

  lemma StepServes(c: Config, t: Table, from: real, call: Call, n: nat)
    requires c.rate >= 0.0 && from <= call.now && n as real <= Level(c, t.overflow, from)
    ensures var v := Decide(c, t, call.ip, call.now);
            && (Crowded(c, t, call) && n > 0 ==> v.admitted && v.charge.Shared?)
            && Level(c, v.table.overflow, call.now) >= (if Crowded(c, t, call) && n > 0 then n - 1 else n) as real
  {
    RefusedExactly(c, t, call);
    LevelGrows(c, t.overflow, from, call.now);
    ChargedLevel(c, t.overflow, call.now);
  }

  /** However many calls find no room: the shared bucket lets as many of them through as it held whole tokens at the start,
      if so many come. */
  lemma {:induction false} NobodyIsLockedOut(c: Config, t: Table, from: real, calls: seq<Call>, n: nat)
    requires c.rate >= 0.0 && InOrder(calls, from) && n as real <= Level(c, t.overflow, from)
    ensures SharedAdmits(c, t, calls) >= Min(CrowdedCalls(c, t, calls), n)
    decreases |calls|
  {
    if calls != [] {
      StepServes(c, t, from, calls[0], n);
      NobodyIsLockedOut(c, After(c, t, calls[0]), calls[0].now, calls[1..], if Crowded(c, t, calls[0]) && n > 0 then n - 1 else n);
    }
  }

  lemma StepServesOwn(c: Config, t: Table, from: real, call: Call, ip: Ip, n: nat)
    requires c.rate >= 0.0 && from <= call.now && n as real <= Credit(c, t, ip, from) && c.burst >= 1.0
    ensures var v := Decide(c, t, call.ip, call.now);
            var served := call.ip == ip && !Crowded(c, t, call);
            && (served && n > 0 ==> v.admitted && !v.charge.Shared?)
            && Credit(c, v.table, ip, call.now) >= (if served && n > 0 then n - 1 else n) as real
  {
    RefusedExactly(c, t, call);
    RefillAdds(call.now, call.now, from, c.rate);
    if ip in t.buckets {
      LevelGrows(c, t.buckets[ip], from, call.now);
      ChargedLevel(c, t.buckets[ip], call.now);
    }
  }

  /** The same for the calls that an address's own bucket answers: whoever else calls, as many get through as the address had
      whole tokens to its credit, a burst when it was not tracked. */
  lemma {:induction false} NobodyStarves(c: Config, t: Table, from: real, calls: seq<Call>, ip: Ip, n: nat)
    requires c.rate >= 0.0 && InOrder(calls, from) && n as real <= Credit(c, t, ip, from)
    ensures OwnAdmits(c, t, calls, ip) >= Min(OwnCalls(c, t, calls, ip), n)
    decreases |calls|
  {
    if calls != [] && n > 0 {
      StepServesOwn(c, t, from, calls[0], ip, n);
      var served := calls[0].ip == ip && !Crowded(c, t, calls[0]);
      NobodyStarves(c, After(c, t, calls[0]), calls[0].now, calls[1..], ip, if served && n > 0 then n - 1 else n);
    }
  }

  // ---- one bucket, instants in any order ----

  function BucketAfter(c: Config, b: Bucket, times: seq<real>, k: nat): Bucket
    requires k <= |times|
  {
    if k == 0 then b else Charged(c, BucketAfter(c, b, times, k - 1), times[k - 1])
  }

  /** Call `k` of a series is granted. */
  predicate Granted(c: Config, b: Bucket, times: seq<real>, k: nat)
    requires k < |times|
  {
    Grants(c, BucketAfter(c, b, times, k), times[k])
  }

  /** How many of the calls from `i` up to but not including `j` are granted. */
  function GrantedBetween(c: Config, b: Bucket, times: seq<real>, i: nat, j: nat): nat
    requires i <= j <= |times|
  {
    if i == j then 0 else GrantedBetween(c, b, times, i, j - 1) + (if Granted(c, b, times, j - 1) then 1 else 0)
  }

  function Potential(c: Config, b: Bucket): real {
    b.tokens - Refill(b.last, 0.0, c.rate)
  }

  lemma PotentialFalls(c: Config, b: Bucket, now: real)
    ensures Potential(c, Charged(c, b, now)) + (if Grants(c, b, now) then 1.0 else 0.0) <= Potential(c, b)
  {
    RefillAdds(now, b.last, 0.0, c.rate);
  }

  lemma {:induction false} PotentialPaysForGrants(c: Config, b: Bucket, times: seq<real>, i: nat, j: nat)
    requires i <= j <= |times|
    ensures Potential(c, BucketAfter(c, b, times, j)) + GrantedBetween(c, b, times, i, j) as real
            <= Potential(c, BucketAfter(c, b, times, i))
  {
    if i < j {
      PotentialPaysForGrants(c, b, times, i, j - 1);
      PotentialFalls(c, BucketAfter(c, b, times, j - 1), times[j - 1]);
    }
  }

  lemma {:induction false} GrantedFromFirst(c: Config, b: Bucket, times: seq<real>, i: nat, j: nat)
    requires i < j <= |times|
    ensures GrantedBetween(c, b, times, i, j)
            == (if Granted(c, b, times, i) then 1 else 0) + GrantedBetween(c, b, times, i + 1, j)
  {
    if i + 1 < j {
      GrantedFromFirst(c, b, times, i, j - 1);
    }
  }

  /** Whatever order the instants come in: between a granted call and a later granted call, both
      included, no more are granted than one burst and the refill between their instants. */
  lemma Conformance(c: Config, b: Bucket, times: seq<real>, i: nat, j: nat)
    requires i <= j < |times| && Granted(c, b, times, i) && Granted(c, b, times, j)
    ensures GrantedBetween(c, b, times, i, j + 1) as real <= c.burst + Refill(times[j], times[i], c.rate)
  {
    GrantedFromFirst(c, b, times, i, j + 1);
    PotentialPaysForGrants(c, b, times, i + 1, j + 1);
    var first, last := BucketAfter(c, b, times, i + 1), BucketAfter(c, b, times, j + 1);
    assert first.tokens <= c.burst - 1.0 && first.last == times[i];
    assert last.tokens >= 0.0 && last.last == times[j];
    RefillAdds(times[j], times[i], 0.0, c.rate);
  }
}
