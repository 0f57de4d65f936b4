/** Fixed-minute rate accounting over four categories that share one guarded clock.
    The counters are proved to be a recount of the log of allowed requests. */
module RateLedger {
  import opened Base

  const MINUTE := 60_000

  datatype Category = Login | Query | Recognition | Management

  datatype Limits = Limits(perKey: nat, global: nat, maxKeys: Option<nat>)

  function DefaultLimits(c: Category): Limits {
    match c
    case Login => Limits(5, 20, Some(256))
    case Query => Limits(60, 120, None)
    case Recognition => Limits(30, 60, None)
    case Management => Limits(10, 20, None)
  }

  datatype RateError = InvalidKey | ClockFailure | Frozen

  datatype Decision = Allowed | RateLimited

  /** What the trusted clock does when called: it may itself ask for allowances,
      and then throws or returns a number (None if no non-negative safe integer). */
  datatype Reading = Reading(nested: seq<Category>, outcome: ClockOutcome)
  datatype ClockOutcome = Threw | Returned(ms: Option<nat>)

  // --------------------------------------------------------------- the reference log

  datatype Allowance = Allowance(category: Category, key: string, ms: nat)

  function MinuteOf(ms: nat): nat {
    ms / MINUTE
  }

  predicate Concerns(a: Allowance, c: Category, key: Option<string>) {
    a.category == c && (key.Some? ==> a.key == key.value)
  }

  /** How many logged allowances of a category (of one key, if given) fall in the
      minutes from..until. */
  function Tally(log: seq<Allowance>, c: Category, key: Option<string>, from: int, until: int): nat {
    if log == [] then 0
    else
      var a := log[|log| - 1];
      Tally(log[..|log| - 1], c, key, from, until)
      + (if Concerns(a, c, key) && from <= MinuteOf(a.ms) < until then 1 else 0)
  }

  function KeysIn(log: seq<Allowance>, c: Category, minute: nat): set<string> {
    set a | a in log && a.category == c && MinuteOf(a.ms) == minute :: a.key
  }

  function TallyAt(log: seq<Allowance>, c: Category, key: Option<string>, minute: nat): nat {
    Tally(log, c, key, minute, minute + 1)
  }

  /** The decision by recounting the log of the current minute. */
  function Recount(log: seq<Allowance>, limits: Limits, c: Category, key: string, ms: nat): Decision {
    var m := MinuteOf(ms);
    if key !in KeysIn(log, c, m) && limits.maxKeys.Some? && |KeysIn(log, c, m)| >= limits.maxKeys.value then RateLimited
    else if TallyAt(log, c, None, m) >= limits.global then RateLimited
    else if TallyAt(log, c, Some(key), m) >= limits.perKey then RateLimited
    else Allowed
  }

  /** The logged allowances of a category, or of one of its keys, in one minute. */
  function Logged(log: seq<Allowance>, c: Category, key: Option<string>, minute: nat): set<nat> {
    set k: nat | k < |log| && Concerns(log[k], c, key) && MinuteOf(log[k].ms) == minute
  }

  /** Fewer allowances than the category and the key may have this minute, and the key
      is known this minute or another one may still come. */
  predicate BelowLimits(log: seq<Allowance>, limits: Limits, c: Category, key: string, ms: nat) {
    var m := MinuteOf(ms);
    && |Logged(log, c, None, m)| < limits.global
    && |Logged(log, c, Some(key), m)| < limits.perKey
    && (limits.maxKeys.Some? && Logged(log, c, Some(key), m) == {} ==> |KeysIn(log, c, m)| < limits.maxKeys.value)
  }

  lemma {:induction false} TallyIsLogged(log: seq<Allowance>, c: Category, key: Option<string>, minute: nat)
    ensures TallyAt(log, c, key, minute) == |Logged(log, c, key, minute)|
  {
    if log != [] {
      var n := |log| - 1;
      TallyIsLogged(log[..n], c, key, minute);
      LoggedLast(log, c, key, minute);
    }
  }

  lemma LoggedLast(log: seq<Allowance>, c: Category, key: Option<string>, minute: nat)
    requires log != []
    ensures var n := |log| - 1;
            && n !in Logged(log[..n], c, key, minute)
            && Logged(log, c, key, minute) ==
                 Logged(log[..n], c, key, minute)
                 + (if Concerns(log[n], c, key) && MinuteOf(log[n].ms) == minute then {n} else {})
  {
  }

  /** The recount allows a request exactly if it is below every limit. */
  lemma AllowedIffBelow(log: seq<Allowance>, limits: Limits, c: Category, key: string, ms: nat)
    ensures Recount(log, limits, c, key, ms) == Allowed <==> BelowLimits(log, limits, c, key, ms)
  {
    var m := MinuteOf(ms);
    TallyIsLogged(log, c, None, m);
    TallyIsLogged(log, c, Some(key), m);
    KeyKnownIff(log, c, key, m);
  }

  lemma KeyKnownIff(log: seq<Allowance>, c: Category, key: string, minute: nat)
    ensures key in KeysIn(log, c, minute) <==> Logged(log, c, Some(key), minute) != {}
  {
    if key in KeysIn(log, c, minute) {
      var a :| a in log && a.category == c && MinuteOf(a.ms) == minute && a.key == key;
      var k: nat :| k < |log| && log[k] == a;
      assert k in Logged(log, c, Some(key), minute);
    }
    if Logged(log, c, Some(key), minute) != {} {
      var k :| k in Logged(log, c, Some(key), minute);
      assert log[k] in log;
    }
  }

  /** A log in which every entry was allowed by the recount of those before it. */
  ghost predicate Admissible(log: seq<Allowance>, limits: Category -> Limits) {
    forall k :: 0 <= k < |log| ==>
      Recount(log[..k], limits(log[k].category), log[k].category, log[k].key, log[k].ms) == Allowed
  }

  // ------------------------------------------------------------------ the ledger

  datatype Counter = Counter(minute: Option<nat>, globalCount: nat, counts: map<string, nat>)

  /** The counter is the recount of its minute, and nothing later is logged. */
  ghost predicate Counts(counter: Counter, log: seq<Allowance>, c: Category) {
    match counter.minute
    case None => forall a :: a in log ==> a.category != c
    case Some(m) =>
      && (forall a :: a in log && a.category == c ==> MinuteOf(a.ms) <= m)
      && counter.globalCount == TallyAt(log, c, None, m)
      && counter.counts.Keys == KeysIn(log, c, m)
      && (forall key :: key in counter.counts ==> counter.counts[key] == TallyAt(log, c, Some(key), m))
  }

  function CountOf(counter: Counter, key: string): nat {
    if key in counter.counts then counter.counts[key] else 0
  }

  function Increment(counter: Counter, key: string): Counter {
    Counter(counter.minute, counter.globalCount + 1, counter.counts[key := CountOf(counter, key) + 1])
  }

  ghost predicate LoggedBy(log: seq<Allowance>, last: Option<nat>) {
    forall a :: a in log ==> last.Some? && a.ms <= last.value
  }

  /** ... and its minute does not lie ahead of the clock. */
  ghost predicate CounterFits(counters: map<Category, Counter>, c: Category, log: seq<Allowance>, last: Option<nat>) {
    && c in counters
    && Counts(counters[c], log, c)
    && (counters[c].minute.Some? ==> last.Some? && counters[c].minute.value * MINUTE <= last.value)
  }

  ghost predicate CountersFit(counters: map<Category, Counter>, log: seq<Allowance>, last: Option<nat>) {
    forall c: Category :: CounterFits(counters, c, log, last)
  }

  class Ledger {
    const limits: Category -> Limits
    var lastNowMs: Option<nat>
    var invoking: bool
    var frozen: bool
    var counters: map<Category, Counter>
    ghost var log: seq<Allowance>

    ghost predicate Valid()
      reads this
    {
      && !invoking
      && Admissible(log, limits)
      && LoggedBy(log, lastNowMs)
      && CountersFit(counters, log, lastNowMs)
    }

    constructor (limits: Category -> Limits)
      ensures Valid() && this.limits == limits && log == [] && !frozen && lastNowMs.None?
    {
      this.limits := limits;
      lastNowMs := None;
      invoking, frozen := false, false;
      var unused := Counter(None, 0, map[]);
      counters := map[Login := unused, Query := unused, Recognition := unused, Management := unused];
      log := [];
      new;
      forall c: Category ensures CounterFits(counters, c, log, lastNowMs) {
        match c case Login => case Query => case Recognition => case Management =>
      }
    }

    /** The two checks every allowance request starts with; a request made while
        the clock is being read freezes the ledger for good. */
    method Enter() returns (refused: Option<RateError>)
      modifies `frozen
      ensures refused == if old(frozen) then Some(Frozen) else if invoking then Some(ClockFailure) else None
      ensures frozen == (old(frozen) || invoking)
    {
      if frozen { return Some(Frozen); }
      if invoking {
        frozen := true;
        return Some(ClockFailure);
      }
      return None;
    }

    method ReadGuardedClock(reading: Reading) returns (r: Result<nat, RateError>)
      requires !invoking && !frozen
      modifies `invoking, `frozen, `lastNowMs
      ensures !invoking
      ensures r == if Trusted(old(lastNowMs), reading) then Ok(reading.outcome.ms.value) else Err(ClockFailure)
      ensures frozen == r.Err?
      ensures lastNowMs == if r.Ok? then reading.outcome.ms else old(lastNowMs)
    {
      invoking := true;
      var i := 0;
      while i < |reading.nested|
        invariant 0 <= i <= |reading.nested|
        invariant invoking && frozen == (i > 0) && lastNowMs == old(lastNowMs)
      {
        var refused := Enter();
        i := i + 1;
      }
      invoking := false;
      if reading.outcome.Threw? || frozen || reading.outcome.ms.None? {
        frozen := true;
        return Err(ClockFailure);
      }
      var now := reading.outcome.ms.value;
      if lastNowMs.Some? && now < lastNowMs.value {
        frozen := true;
        return Err(ClockFailure);
      }
      lastNowMs := Some(now);
      return Ok(now);
    }

    /** One request: refused for good once frozen; otherwise decided exactly as a
        recount of the log decides it, and logged iff allowed. */
    method Allow(c: Category, key: string, reading: Reading) returns (r: Result<Decision, RateError>)
      requires Valid()
      modifies this
      ensures Valid()
      ensures r == Answer(old(frozen), old(lastNowMs), old(log), limits(c), c, key, reading)
      ensures !old(frozen) && key != "" && Trusted(old(lastNowMs), reading) ==>
                r.Ok? && (r.value.Allowed? <==> BelowLimits(old(log), limits(c), c, key, reading.outcome.ms.value))
      ensures frozen == (old(frozen) || r == Err(ClockFailure))
      ensures lastNowMs == if r.Ok? then reading.outcome.ms else old(lastNowMs)
      ensures log == if r == Ok(Allowed) then old(log) + [Allowance(c, key, reading.outcome.ms.value)] else old(log)
    {
      var refused := Enter();
      if refused.Some? { return Err(refused.value); }
      if key == "" { return Err(InvalidKey); }
      var now :- ReadGuardedClock(reading);
      LaterClock(counters, log, old(lastNowMs), now);
      StartMinute(c, MinuteOf(now));
      AllowedIffBelow(log, limits(c), c, key, now);
      var decision := Count(c, key, now);
      return Ok(decision);
    }

    /** Clears the category's counter when its minute has passed. It never lies
        ahead of the clock: the code's minute rollback cannot happen. */
    method StartMinute(c: Category, minute: nat)
      requires Valid() && lastNowMs.Some? && minute == MinuteOf(lastNowMs.value)
      modifies `counters
      ensures Valid() && c in counters && counters[c].minute == Some(minute)
    {
      assert CounterFits(counters, c, log, lastNowMs);
      if counters[c].minute.None? || minute > counters[c].minute.value {
        NewMinute(log, c, minute);
        ghost var before := counters;
        counters := counters[c := Counter(Some(minute), 0, map[])];
        forall d: Category ensures CounterFits(counters, d, log, lastNowMs) {
          assert CounterFits(before, d, log, lastNowMs);
        }
      } else if minute < counters[c].minute.value {
        assert false;
      }
    }

    method Count(c: Category, key: string, now: nat) returns (decision: Decision)
      requires Valid() && lastNowMs == Some(now) && c in counters && counters[c].minute == Some(MinuteOf(now))
      modifies `counters, `log
      ensures Valid()
      ensures decision == Recount(old(log), limits(c), c, key, now)
      ensures log == if decision.Allowed? then old(log) + [Allowance(c, key, now)] else old(log)
    {
      var counter := counters[c];
      assert CounterFits(counters, c, log, lastNowMs);
      RecountIs(counter, log, limits(c), c, key, now);
      var existing := CountOf(counter, key);
      if key !in counter.counts && limits(c).maxKeys.Some? && |counter.counts| >= limits(c).maxKeys.value {
        return RateLimited;
      }
      if counter.globalCount >= limits(c).global { return RateLimited; }
      if existing >= limits(c).perKey { return RateLimited; }
      CountOne(counters, log, c, key, now);
      AllowOne(log, limits, Allowance(c, key, now));
      counters := counters[c := Increment(counter, key)];
      log := log + [Allowance(c, key, now)];
      return Allowed;
    }
  }

  /** A clock reading the guard accepts: no re-entrance, a number, not backwards. */
  predicate Trusted(last: Option<nat>, reading: Reading) {
    && reading.nested == []
    && reading.outcome.Returned? && reading.outcome.ms.Some?
    && (last.Some? ==> last.value <= reading.outcome.ms.value)
  }

  /** The answer in terms of the log alone. */
  function Answer(frozen: bool, last: Option<nat>, log: seq<Allowance>, limits: Limits, c: Category, key: string,
                  reading: Reading)
    : Result<Decision, RateError>
  {
    if frozen then Err(Frozen)
    else if key == "" then Err(InvalidKey)
    else if !Trusted(last, reading) then Err(ClockFailure)
    else Ok(Recount(log, limits, c, key, reading.outcome.ms.value))
  }

  // -------------------------------------------------------------------- recounting

  lemma {:induction false} NoneTallied(log: seq<Allowance>, c: Category, key: Option<string>, minute: nat)
    requires forall a :: a in log && Concerns(a, c, key) ==> MinuteOf(a.ms) != minute
    ensures TallyAt(log, c, key, minute) == 0
  {
    if log != [] {
      assert log[|log| - 1] in log;
      NoneTallied(log[..|log| - 1], c, key, minute);
    }
  }

  lemma TallyAppend(log: seq<Allowance>, a: Allowance, c: Category, key: Option<string>, minute: nat)
    ensures TallyAt(log + [a], c, key, minute) ==
              TallyAt(log, c, key, minute) + (if Concerns(a, c, key) && MinuteOf(a.ms) == minute then 1 else 0)
  {
  }

  lemma KeysAppend(log: seq<Allowance>, a: Allowance, c: Category, minute: nat)
    ensures KeysIn(log + [a], c, minute) ==
              KeysIn(log, c, minute) + (if a.category == c && MinuteOf(a.ms) == minute then {a.key} else {})
  {
  }

  /** A fresh counter is right for a minute nothing has been logged in. */
  lemma NewMinute(log: seq<Allowance>, c: Category, minute: nat)
    requires forall a :: a in log && a.category == c ==> MinuteOf(a.ms) < minute
    ensures Counts(Counter(Some(minute), 0, map[]), log, c)
  {
    NoneTallied(log, c, None, minute);
  }

  /** Deciding on the counter is deciding on the log. */
  lemma RecountIs(counter: Counter, log: seq<Allowance>, limits: Limits, c: Category, key: string, now: nat)
    requires counter.minute == Some(MinuteOf(now)) && Counts(counter, log, c)
    ensures var existing := CountOf(counter, key);
            Recount(log, limits, c, key, now) ==
              if key !in counter.counts && limits.maxKeys.Some?
                && |counter.counts| >= limits.maxKeys.value then RateLimited
              else if counter.globalCount >= limits.global || existing >= limits.perKey then RateLimited
              else Allowed
  {
    var m := MinuteOf(now);
    assert |counter.counts| == |counter.counts.Keys|;
    if key !in counter.counts {
      forall a | a in log && Concerns(a, c, Some(key)) ensures MinuteOf(a.ms) != m {
        assert MinuteOf(a.ms) == m ==> a.key in KeysIn(log, c, m);
      }
      NoneTallied(log, c, Some(key), m);
    }
  }

  lemma LaterClock(counters: map<Category, Counter>, log: seq<Allowance>, last: Option<nat>, now: nat)
    requires CountersFit(counters, log, last) && (last.Some? ==> last.value <= now)
    ensures CountersFit(counters, log, Some(now))
  {
    forall d: Category ensures CounterFits(counters, d, log, Some(now)) {
      assert CounterFits(counters, d, log, last);
    }
  }

  /** Counting one allowance keeps every category's counter right. */
  lemma CountOne(counters: map<Category, Counter>, log: seq<Allowance>, c: Category, key: string, now: nat)
    requires CountersFit(counters, log, Some(now))
    requires c in counters && counters[c].minute == Some(MinuteOf(now))
    ensures CountersFit(counters[c := Increment(counters[c], key)], log + [Allowance(c, key, now)], Some(now))
  {
    var counter := counters[c];
    var after := counters[c := Increment(counter, key)];
    var a := Allowance(c, key, now);
    forall d: Category ensures CounterFits(after, d, log + [a], Some(now)) {
      assert CounterFits(counters, d, log, Some(now));
      if d != c {
        OtherCounter(counters[d], log, d, a);
      } else {
        OwnCounter(counter, log, c, key, now);
      }
    }
  }

  lemma OtherCounter(counter: Counter, log: seq<Allowance>, c: Category, a: Allowance)
    requires Counts(counter, log, c) && a.category != c
    ensures Counts(counter, log + [a], c)
  {
  }

  lemma OwnCounter(counter: Counter, log: seq<Allowance>, c: Category, key: string, now: nat)
    requires Counts(counter, log, c) && counter.minute == Some(MinuteOf(now))
    ensures Counts(Increment(counter, key), log + [Allowance(c, key, now)], c)
  {
    var a := Allowance(c, key, now);
    var m := MinuteOf(now);
    TallyAppend(log, a, c, None, m);
    KeysAppend(log, a, c, m);
    forall k ensures TallyAt(log + [a], c, Some(k), m) == TallyAt(log, c, Some(k), m) + (if k == key then 1 else 0) {
      TallyAppend(log, a, c, Some(k), m);
    }
    if key !in counter.counts {
      forall b | b in log && Concerns(b, c, Some(key)) ensures MinuteOf(b.ms) != m {
        assert MinuteOf(b.ms) == m ==> b.key in KeysIn(log, c, m);
      }
      NoneTallied(log, c, Some(key), m);
    }
  }

  lemma AllowOne(log: seq<Allowance>, limits: Category -> Limits, a: Allowance)
    requires Admissible(log, limits) && Recount(log, limits(a.category), a.category, a.key, a.ms) == Allowed
    ensures Admissible(log + [a], limits)
  {
    var after := log + [a];
    forall k | 0 <= k < |after|
      ensures Recount(after[..k], limits(after[k].category), after[k].category, after[k].key, after[k].ms) == Allowed
    {
      assert after[..k] == log[..k];
      if k == |log| { assert log[..k] == log; }
    }
  }

  // ------------------------------------------------------------------ window bounds

  /** No minute ever holds more than its global and per-key limits. */
  lemma {:induction false} MinuteBound(log: seq<Allowance>, limits: Category -> Limits, c: Category, minute: nat,
                                       key: string)
    requires Admissible(log, limits)
    ensures TallyAt(log, c, None, minute) <= limits(c).global
    ensures TallyAt(log, c, Some(key), minute) <= limits(c).perKey
  {
    if log != [] {
      var n := |log| - 1;
      var front := log[..n];
      forall k | 0 <= k < n
        ensures Recount(front[..k], limits(front[k].category), front[k].category, front[k].key, front[k].ms) == Allowed
      {
        assert front[..k] == log[..k];
      }
      MinuteBound(front, limits, c, minute, key);
      assert log == front + [log[n]];
      TallyAppend(front, log[n], c, None, minute);
      TallyAppend(front, log[n], c, Some(key), minute);
      assert Recount(log[..n], limits(log[n].category), log[n].category, log[n].key, log[n].ms) == Allowed;
    }
  }

  lemma {:induction false} TallySplits(log: seq<Allowance>, c: Category, key: Option<string>, from: int, mid: int,
                                       until: int)
    requires from <= mid <= until
    ensures Tally(log, c, key, from, until) == Tally(log, c, key, from, mid) + Tally(log, c, key, mid, until)
  {
    if log != [] {
      TallySplits(log[..|log| - 1], c, key, from, mid, until);
    }
  }

  lemma {:induction false} MinutesBound(log: seq<Allowance>, c: Category, key: Option<string>, from: nat, n: nat,
                                        bound: nat)
    requires forall m: nat :: TallyAt(log, c, key, m) <= bound
    ensures Tally(log, c, key, from, from + n) <= n * bound
    decreases n
  {
    if n == 0 {
      EmptySpan(log, c, key, from);
    } else {
      MinutesBound(log, c, key, from, n - 1, bound);
      assert TallyAt(log, c, key, from + n - 1) <= bound;
      TallySplits(log, c, key, from, from + n - 1, from + n);
      assert n * bound == (n - 1) * bound + bound;
    }
  }

  lemma {:induction false} EmptySpan(log: seq<Allowance>, c: Category, key: Option<string>, from: int)
    ensures Tally(log, c, key, from, from) == 0
  {
    if log != [] {
      EmptySpan(log[..|log| - 1], c, key, from);
    }
  }

  /** Allowances between two instants, the second excluded. */
  function Between(log: seq<Allowance>, c: Category, key: Option<string>, start: nat, end: nat): nat {
    if log == [] then 0
    else
      var a := log[|log| - 1];
      Between(log[..|log| - 1], c, key, start, end) + (if Concerns(a, c, key) && start <= a.ms < end then 1 else 0)
  }

  lemma {:induction false} BetweenTally(log: seq<Allowance>, c: Category, key: Option<string>, start: nat, end: nat,
                                        from: nat, until: nat)
    requires from * MINUTE <= start && end <= until * MINUTE
    ensures Between(log, c, key, start, end) <= Tally(log, c, key, from, until)
  {
    if log != [] {
      BetweenTally(log[..|log| - 1], c, key, start, end, from, until);
    }
  }

  lemma SpanBound(log: seq<Allowance>, c: Category, key: Option<string>, start: nat, n: nat, bound: nat)
    requires forall m: nat :: TallyAt(log, c, key, m) <= bound
    ensures Between(log, c, key, start, start + n * MINUTE) <= (n + 1) * bound
  {
    var from := MinuteOf(start);
    assert start < (from + 1) * MINUTE;
    assert start + n * MINUTE <= (from + n + 1) * MINUTE;
    BetweenTally(log, c, key, start, start + n * MINUTE, from, from + n + 1);
    MinutesBound(log, c, key, from, n + 1, bound);
  }

  /** Any window of n minutes, wherever it begins, holds at most n + 1 times the
      global limit of a category, and n + 1 times the per-key limit of a key. */
  lemma WindowBound(log: seq<Allowance>, limits: Category -> Limits, c: Category, key: string, start: nat, n: nat)
    requires Admissible(log, limits)
    ensures Between(log, c, None, start, start + n * MINUTE) <= (n + 1) * limits(c).global
    ensures Between(log, c, Some(key), start, start + n * MINUTE) <= (n + 1) * limits(c).perKey
  {
    forall m: nat ensures TallyAt(log, c, None, m) <= limits(c).global
      && TallyAt(log, c, Some(key), m) <= limits(c).perKey {
      MinuteBound(log, limits, c, m, key);
    }
    SpanBound(log, c, None, start, n, limits(c).global);
    SpanBound(log, c, Some(key), start, n, limits(c).perKey);
  }

  /** What that allows in any 60 seconds, aligned to a minute or not, under the limits
      the program is built with. */
  lemma AnyMinute(log: seq<Allowance>, c: Category, key: string, start: nat)
    requires Admissible(log, DefaultLimits)
    ensures Between(log, c, None, start, start + MINUTE) <=
              match c { case Login => 40 case Query => 240 case Recognition => 120 case Management => 40 }
    ensures Between(log, c, Some(key), start, start + MINUTE) <=
              match c { case Login => 10 case Query => 120 case Recognition => 60 case Management => 20 }
  {
    WindowBound(log, DefaultLimits, c, key, start, 1);
  }
}
