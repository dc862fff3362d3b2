/**
 The rolling-day quota counters of `src/services/quota_service.ts` over Redis keys that expire.
 Time is in seconds since the epoch; a day is the second at which a UTC day begins.
 */
module Quota {
  import opened Json
  import opened QuotaKeys

  const DAY := 86400
  const ROLLING_TTL_SECONDS := 172800

  datatype Entry = Entry(value: int, expires: Option<nat>)

  /** Redis drops a key when its time has come. */
  function Present(e: Option<Entry>, now: nat): Option<Entry> {
    if e.Some? && e.value.expires.Some? && e.value.expires.value <= now then None else e
  }

  function Value(e: Option<Entry>, now: nat): int {
    var p := Present(e, now);
    if p.Some? then p.value.value else 0
  }

  /** INCRBY keeps the expiry of a key that is there and makes a key without one otherwise. */
  function IncrBy(e: Option<Entry>, now: nat, amount: int): Option<Entry> {
    var p := Present(e, now);
    Some(Entry(Value(e, now) + amount, if p.Some? then p.value.expires else None))
  }

  function ExpireKey(e: Option<Entry>, now: nat, ttl: nat): Option<Entry> {
    var p := Present(e, now);
    if p.Some? then Some(p.value.(expires := Some(now + ttl))) else p
  }

  predicate Fits(e: Option<Entry>, now: nat, limit: int, amount: int) {
    Value(e, now) + amount <= limit
  }

  /** The Lua script, one atomic step. */
  function Consumed(e: Option<Entry>, now: nat, limit: int, amount: int, ttl: nat): Option<Entry> {
    if Fits(e, now, limit, amount) then ExpireKey(IncrBy(e, now, amount), now, ttl) else e
  }

  /** One key of Redis, and beside it a ledger that never forgets: what was granted and what was tracked under it. */
  datatype Counter = Counter(now: nat, entry: Option<Entry>, granted: int, tracked: int)

  /** `track` is two round trips, and a crash may lose the second. */
  datatype Step =
    | Tick(seconds: nat)
    | Consume(limit: int, amount: int)
    | Incr(amount: int)
    | Touch
    | Reset

  function Next(c: Counter, step: Step, ttl: nat): Counter {
    match step
    case Tick(seconds) => c.(now := c.now + seconds)
    case Consume(limit, amount) =>
      c.(entry := Consumed(c.entry, c.now, limit, amount, ttl),
         granted := if Fits(c.entry, c.now, limit, amount) then c.granted + amount else c.granted)
    case Incr(amount) => c.(entry := IncrBy(c.entry, c.now, amount), tracked := c.tracked + amount)
    case Touch => c.(entry := ExpireKey(c.entry, c.now, ttl))
    case Reset => c.(entry := None, granted := 0, tracked := 0)
  }

  /** Calls take their key from the clock, and reach Redis before it is `late` past the end of that day. */
  predicate InTime(c: Counter, day: nat, late: nat) {
    day <= c.now < day + DAY + late
  }

  /** Amounts are not negative, limits stay under the cap, and calls are in time. */
  predicate Fair(c: Counter, step: Step, day: nat, late: nat, cap: int) {
    match step
    case Tick(_) => true
    case Consume(limit, amount) => InTime(c, day, late) && amount >= 0 && limit <= cap
    case Incr(amount) => InTime(c, day, late) && amount >= 0
    case Touch => day <= c.now
    case Reset => true
  }

  predicate Inv(c: Counter, day: nat, late: nat, cap: int) {
    && (c.entry.Some? && c.entry.value.expires.Some? ==> day + DAY + late <= c.entry.value.expires.value)
    && (c.now < day + DAY + late ==> Value(c.entry, c.now) == c.granted + c.tracked)
    && c.tracked >= 0 && c.granted >= 0 && (c.granted > 0 ==> c.granted <= cap)
  }

  lemma NextKeepsInv(c: Counter, step: Step, ttl: nat, day: nat, late: nat, cap: int)
    requires Inv(c, day, late, cap) && Fair(c, step, day, late, cap) && ttl >= DAY + late
    ensures Inv(Next(c, step, ttl), day, late, cap)
  {
  }

  predicate AllFair(c: Counter, steps: seq<Step>, ttl: nat, day: nat, late: nat, cap: int)
    decreases |steps|
  {
    steps == []
      || (Fair(c, steps[0], day, late, cap) && AllFair(Next(c, steps[0], ttl), steps[1..], ttl, day, late, cap))
  }

  function Run(c: Counter, steps: seq<Step>, ttl: nat): Counter
    decreases |steps|
  {
    if steps == [] then c else Run(Next(c, steps[0], ttl), steps[1..], ttl)
  }

  lemma {:induction false} RunKeepsInv(c: Counter, steps: seq<Step>, ttl: nat, day: nat, late: nat, cap: int)
    requires Inv(c, day, late, cap) && AllFair(c, steps, ttl, day, late, cap) && ttl >= DAY + late
    ensures Inv(Run(c, steps, ttl), day, late, cap)
    decreases |steps|
  {
    if steps != [] {
      NextKeepsInv(c, steps[0], ttl, day, late, cap);
      RunKeepsInv(Next(c, steps[0], ttl), steps[1..], ttl, day, late, cap);
    }
  }

  const UNUSED := Counter(0, None, 0, 0)

  /** While calls come, the counter is what was granted plus what was tracked; and no more is granted than the limit. */
  predicate Safe(c: Counter, day: nat, late: nat, cap: int) {
    && (c.now < day + DAY + late ==> Value(c.entry, c.now) == c.granted + c.tracked)
    && (c.granted == 0 || 0 < c.granted <= cap)
  }

  /**
   Daily quota safety, for one key and calls up to a day late. Over every interleaving of consume, track (whole or cut
   in two), resets and the passing of time: the counter is what was granted plus what was tracked, so the script decides
   as the ledger would; and what was granted never exceeds the limit.
   */
  lemma DailyQuotaIsSafe(steps: seq<Step>, day: nat, late: nat, cap: int, limit: int, amount: int)
    requires AllFair(UNUSED, steps, ROLLING_TTL_SECONDS, day, late, cap) && late <= DAY
    ensures var c := Run(UNUSED, steps, ROLLING_TTL_SECONDS);
            && Safe(c, day, late, cap)
            && (c.now < day + DAY + late ==>
                  (Fits(c.entry, c.now, limit, amount) <==> c.granted + c.tracked + amount <= limit))
  {
    RunKeepsInv(UNUSED, steps, ROLLING_TTL_SECONDS, day, late, cap);
  }

  lemma RunCons(c: Counter, step: Step, rest: seq<Step>, ttl: nat, day: nat, late: nat, cap: int)
    ensures Run(c, [step] + rest, ttl) == Run(Next(c, step, ttl), rest, ttl)
    ensures AllFair(c, [step] + rest, ttl, day, late, cap) <==>
            Fair(c, step, day, late, cap) && AllFair(Next(c, step, ttl), rest, ttl, day, late, cap)
  {
    assert ([step] + rest)[1..] == rest;
  }

  /** Two calls for one unit, the first as the day begins and the second in the last second in which it may come. */
  function LateSecondCall(day: nat, late: nat): seq<Step> {
    [Tick(day)] + ([Consume(1, 1)] + ([Tick(DAY + late - 1)] + ([Consume(1, 1)] + [])))
  }

  lemma LateSecondCallGrants(ttl: nat, day: nat, late: nat)
    ensures AllFair(UNUSED, LateSecondCall(day, late), ttl, day, late, 1)
    ensures Run(UNUSED, LateSecondCall(day, late), ttl).granted <= 1 <==> ttl >= DAY + late
  {
    var c0 := Next(UNUSED, Tick(day), ttl);
    var c1 := Next(c0, Consume(1, 1), ttl);
    var c2 := Next(c1, Tick(DAY + late - 1), ttl);
    var last := [Consume(1, 1)] + [];
    var more := [Tick(DAY + late - 1)] + last;
    RunCons(UNUSED, Tick(day), [Consume(1, 1)] + more, ttl, day, late, 1);
    RunCons(c0, Consume(1, 1), more, ttl, day, late, 1);
    RunCons(c1, Tick(DAY + late - 1), last, ttl, day, late, 1);
    RunCons(c2, Consume(1, 1), [], ttl, day, late, 1);
  }

  /**
   How long a counter must live. Every run whose calls come at most `late` after their day is safe if and only if the
   time to live is a day and `late`: the code's 48 hours serve calls up to a day late, and no others.
   */
  lemma LifetimeExactly(ttl: nat, day: nat, late: nat)
    ensures ROLLING_TTL_SECONDS >= DAY + late <==> late <= 86400
    ensures (forall steps, cap :: AllFair(UNUSED, steps, ttl, day, late, cap) ==>
                                    Safe(Run(UNUSED, steps, ttl), day, late, cap)) <==>
            ttl >= DAY + late
  {
    if ttl >= DAY + late {
      forall steps, cap | AllFair(UNUSED, steps, ttl, day, late, cap)
        ensures Safe(Run(UNUSED, steps, ttl), day, late, cap) {
        RunKeepsInv(UNUSED, steps, ttl, day, late, cap);
      }
    } else {
      LateSecondCallGrants(ttl, day, late);
      assert !Safe(Run(UNUSED, LateSecondCall(day, late), ttl), day, late, 1);
    }
  }

  /** All counters under one clock, by the text of their keys. */
  datatype System = System(now: nat, counters: map<string, Counter>)

  const EMPTY := System(0, map[])

  function CounterOf(s: System, name: string): Counter {
    (if name in s.counters then s.counters[name] else UNUSED).(now := s.now)
  }

  datatype Event = Pass(seconds: nat) | On(key: DayKey, step: Step)

  function After(text: DayText, s: System, e: Event, ttl: nat): System {
    match e
    case Pass(seconds) => s.(now := s.now + seconds)
    case On(key, step) =>
      var name := KeyText(text, key);
      if step.Tick? then s else s.(counters := s.counters[name := Next(CounterOf(s, name), step, ttl)])
  }

  function Events(text: DayText, s: System, events: seq<Event>, ttl: nat): System
    decreases |events|
  {
    if events == [] then s else Events(text, After(text, s, events[0], ttl), events[1..], ttl)
  }

  /** What a run means for one key as Redis knows it. */
  function StepsOf(text: DayText, events: seq<Event>, name: string): seq<Step>
    decreases |events|
  {
    if events == [] then []
    else StepOf(text, events[0], name) + StepsOf(text, events[1..], name)
  }

  function StepOf(text: DayText, e: Event, name: string): seq<Step> {
    match e
    case Pass(seconds) => [Tick(seconds)]
    case On(k, step) => if KeyText(text, k) == name && !step.Tick? then [step] else []
  }

  lemma AfterOnKey(text: DayText, s: System, e: Event, ttl: nat, name: string)
    ensures CounterOf(After(text, s, e, ttl), name) == Run(CounterOf(s, name), StepOf(text, e, name), ttl)
  {
    var steps := StepOf(text, e, name);
    if steps != [] {
      assert steps[1..] == [];
    }
  }

  lemma {:induction false} RunConcat(c: Counter, a: seq<Step>, b: seq<Step>, ttl: nat)
    ensures Run(c, a + b, ttl) == Run(Run(c, a, ttl), b, ttl)
    decreases |a|
  {
    if a == [] {
      assert a + b == b;
    } else {
      RunConcat(Next(c, a[0], ttl), a[1..], b, ttl);
      assert (a + b)[1..] == a[1..] + b;
    }
  }

  /** Keys do not interfere: each counter is as if the others were not there. */
  lemma {:induction false} KeysAreIndependent(text: DayText, s: System, events: seq<Event>, ttl: nat, name: string)
    ensures CounterOf(Events(text, s, events, ttl), name) == Run(CounterOf(s, name), StepsOf(text, events, name), ttl)
    decreases |events|
  {
    if events != [] {
      AfterOnKey(text, s, events[0], ttl, name);
      KeysAreIndependent(text, After(text, s, events[0], ttl), events[1..], ttl, name);
      RunConcat(CounterOf(s, name), StepOf(text, events[0], name), StepsOf(text, events[1..], name), ttl);
    }
  }

  /** The steps of one tenant's calls for one quota and day, and the passing of time. */
  function OwnSteps(events: seq<Event>, key: DayKey): seq<Step>
    decreases |events|
  {
    if events == [] then [] else OwnStep(events[0], key) + OwnSteps(events[1..], key)
  }

  function OwnStep(e: Event, key: DayKey): seq<Step> {
    match e
    case Pass(seconds) => [Tick(seconds)]
    case On(k, step) => if k == key && !step.Tick? then [step] else []
  }

  predicate AllPlain(events: seq<Event>) {
    forall k :: 0 <= k < |events| && events[k].On? ==> Plain(events[k].key)
  }

  lemma OwnStepIsAll(text: DayText, e: Event, key: DayKey)
    requires Dated(text) && Plain(key) && (e.On? ==> Plain(e.key))
    ensures StepOf(text, e, KeyText(text, key)) == OwnStep(e, key)
  {
    if e.On? && KeyText(text, e.key) == KeyText(text, key) {
      PlainKeysAreApart(text, e.key, key);
    }
  }

  lemma {:induction false} OwnStepsAreAll(text: DayText, events: seq<Event>, key: DayKey)
    requires Dated(text) && Plain(key) && AllPlain(events)
    ensures StepsOf(text, events, KeyText(text, key)) == OwnSteps(events, key)
    decreases |events|
  {
    if events != [] {
      OwnStepIsAll(text, events[0], key);
      OwnStepsAreAll(text, events[1..], key);
    }
  }

  /**
   Daily quota safety for every tenant, quota and day of a system run, when no tenant id has a colon: a tenant's counter
   depends on its own calls alone, and these are safe.
   */
  lemma EveryDailyQuotaIsSafe(text: DayText, events: seq<Event>, key: DayKey, late: nat, cap: int)
    requires Dated(text) && Plain(key) && AllPlain(events) && late <= DAY
    requires AllFair(UNUSED, OwnSteps(events, key), ROLLING_TTL_SECONDS, key.day, late, cap)
    ensures var c := CounterOf(Events(text, EMPTY, events, ROLLING_TTL_SECONDS), KeyText(text, key));
            c == Run(UNUSED, OwnSteps(events, key), ROLLING_TTL_SECONDS) && Safe(c, key.day, late, cap)
  {
    KeysAreIndependent(text, EMPTY, events, ROLLING_TTL_SECONDS, KeyText(text, key));
    OwnStepsAreAll(text, events, key);
    DailyQuotaIsSafe(OwnSteps(events, key), key.day, late, cap, 0, 0);
  }

  /** Tenants that share a key use up each other's quota: here the second is refused its first unit. */
  lemma SharedKeyRefuses(text: DayText, t: string, q: string, day: nat, limit: int)
    requires limit > 0
    ensures var d := text(day);
            var used := [Pass(day)] + [On(DayKey(t + (":" + d), q, day), Consume(limit, limit))];
            var c := CounterOf(Events(text, EMPTY, used, ROLLING_TTL_SECONDS),
                               KeyText(text, DayKey(t, d + (":" + q), day)));
            !Fits(c.entry, c.now, limit, 1)
  {
    var first := DayKey(t + (":" + text(day)), q, day);
    var name := KeyText(text, first);
    DatedIdShares(text, t, q, day);
    var s1 := After(text, EMPTY, Pass(day), ROLLING_TTL_SECONDS);
    var use := On(first, Consume(limit, limit));
    assert ([Pass(day)] + [use])[1..] == [use] && [use][1..] == [];
    assert Events(text, s1, [use], ROLLING_TTL_SECONDS) == After(text, s1, use, ROLLING_TTL_SECONDS);
    assert CounterOf(s1, name) == UNUSED.(now := day);
  }

  /** How Redis serves a call: it answers, or it is out before or after doing the work. */
  datatype Service = Up | Down | Unheard

  /** The outcome for the caller; when Redis is not heard, fail-open lets the call through and fail-closed throws. */
  datatype Verdict = Granted(total: int) | Exceeded(current: int) | Waved | Unavailable

  /** The counter of a call as the ledger sees it: this entry, and nothing granted or tracked yet. */
  function Seen(e: Option<Entry>, now: nat): Counter {
    Counter(now, e, 0, 0)
  }

  /** The two round trips of `track`; `expires` is false when it is cut before EXPIRE. */
  lemma TrackRuns(e: Option<Entry>, now: nat, amount: int, expires: bool)
    ensures var c := Run(Seen(e, now), [Incr(amount)] + (if expires then [Touch] else []), ROLLING_TTL_SECONDS);
            var entry := c.entry;
            && c.tracked == amount && c.granted == 0
            && entry == (if expires then ExpireKey(IncrBy(e, now, amount), now, ROLLING_TTL_SECONDS)
                         else IncrBy(e, now, amount))
            && Value(entry, now) == Value(e, now) + amount
            && entry.Some? && (expires ==> entry.value.expires == Some(now + ROLLING_TTL_SECONDS))
  {
    var c := Seen(e, now);
    RunCons(c, Incr(amount), if expires then [Touch] else [], ROLLING_TTL_SECONDS, 0, 0, 0);
    if expires {
      RunCons(Next(c, Incr(amount), ROLLING_TTL_SECONDS), Touch, [], ROLLING_TTL_SECONDS, 0, 0, 0);
      assert [Touch] + [] == [Touch];
    }
  }

  /** And the one of `consume`. */
  lemma ConsumeRuns(e: Option<Entry>, now: nat, limit: int, amount: int)
    ensures var c := Run(Seen(e, now), [Consume(limit, amount)], ROLLING_TTL_SECONDS);
            && c.entry == Consumed(e, now, limit, amount, ROLLING_TTL_SECONDS)
            && (if Value(e, now) + amount <= limit
                then c.granted == amount && c.entry.Some? && Value(c.entry, now) == Value(e, now) + amount
                     && c.entry.value.expires == Some(now + ROLLING_TTL_SECONDS)
                else c.granted == 0 && c.entry == e)
  {
    RunCons(Seen(e, now), Consume(limit, amount), [], ROLLING_TTL_SECONDS, 0, 0, 0);
    assert [Consume(limit, amount)] + [] == [Consume(limit, amount)];
  }

  class QuotaService {
    const text: DayText
    var now: nat
    var store: map<string, Entry>

    function EntryOf(name: string): Option<Entry>
      reads this
    {
      if name in store then Some(store[name]) else None
    }

    /** The key of a call made now, as text. */
    function NameNow(tenant: string, quota: string): string
      reads this
    {
      KeyText(text, RollingKey(tenant, quota, now))
    }

    /** GET: nothing when the key has lapsed. */
    method Get(name: string) returns (e: Option<Entry>)
      ensures e == Present(EntryOf(name), now)
    {
      if name !in store {
        return None;
      }
      var entry := store[name];
      if entry.expires.Some? && entry.expires.value <= now {
        return None;
      }
      return Some(entry);
    }

    method Incrby(name: string, amount: int) returns (next: int)
      modifies this`store
      ensures EntryOf(name) == IncrBy(old(EntryOf(name)), now, amount)
      ensures next == old(Value(EntryOf(name), now)) + amount
      ensures forall k :: k != name ==> EntryOf(k) == old(EntryOf(k))
    {
      var e := Get(name);
      next := amount;
      var expires := None;
      if e.Some? {
        next, expires := e.value.value + amount, e.value.expires;
      }
      store := store[name := Entry(next, expires)];
    }

    method Expire(name: string, ttl: nat)
      modifies this`store
      ensures EntryOf(name) == ExpireKey(old(EntryOf(name)), now, ttl)
      ensures forall k :: k != name ==> EntryOf(k) == old(EntryOf(k))
    {
      var e := Get(name);
      if e.Some? {
        store := store[name := e.value.(expires := Some(now + ttl))];
      } else {
        store := store - {name};
      }
    }

    /** One EVAL of the script. */
    method Eval(name: string, limit: int, amount: int, ttl: nat) returns (allowed: bool, value: int)
      modifies this`store
      ensures EntryOf(name) == Consumed(old(EntryOf(name)), now, limit, amount, ttl)
      ensures allowed <==> Fits(old(EntryOf(name)), now, limit, amount)
      ensures value == old(Value(EntryOf(name), now)) + if allowed then amount else 0
      ensures forall k :: k != name ==> EntryOf(k) == old(EntryOf(k))
    {
      var e := Get(name);
      var current := if e.Some? then e.value.value else 0;
      if current + amount > limit {
        return false, current;
      }
      value := Incrby(name, amount);
      Expire(name, ttl);
      allowed := true;
    }

    /**
     `track`; `expires` is false when EXPIRE fails or the process dies before it. Unless Redis is down the amount is
     added, and the two round trips are those of the ledger; the caller hears the new total or, by policy, is let
     through or refused.
     */
    method Track(tenant: string, quota: string, amount: int, service: Service, failOpen: bool, expires: bool)
      returns (v: Verdict)
      modifies this`store
      ensures var name := NameNow(tenant, quota);
              var before := old(EntryOf(NameNow(tenant, quota)));
              && (service.Down? ==> EntryOf(name) == before)
              && (!service.Down? ==>
                    && Value(EntryOf(name), now) == Value(before, now) + amount
                    && (expires ==> EntryOf(name).Some? && EntryOf(name).value.expires == Some(now + 172800))
                    && EntryOf(name) == Run(Seen(before, now), [Incr(amount)] + (if expires then [Touch] else []),
                                            ROLLING_TTL_SECONDS).entry)
              && (service.Up? && expires ==> v == Granted(Value(before, now) + amount))
              && (!(service.Up? && expires) ==> v == if failOpen then Waved else Unavailable)
              && (forall k :: k != name ==> EntryOf(k) == old(EntryOf(k)))
    {
      var name := NameNow(tenant, quota);
      v := if failOpen then Waved else Unavailable;
      if service.Down? {
        return;
      }
      TrackRuns(EntryOf(name), now, amount, expires);
      var next := Incrby(name, amount);
      if expires {
        Expire(name, ROLLING_TTL_SECONDS);
        if service.Up? {
          v := Granted(next);
        }
      }
    }

    /**
     `consume`; `limit` is None when the plan declares none, and the call is then a `track`. Else, unless Redis is down,
     it is one step of the ledger.
     */
    method Consume(tenant: string, quota: string, amount: int, limit: Option<int>, service: Service, failOpen: bool,
                   expires: bool) returns (v: Verdict)
      modifies this`store
      ensures var name := NameNow(tenant, quota);
              var before := old(EntryOf(NameNow(tenant, quota)));
              && (service.Down? ==> EntryOf(name) == before)
              && (!service.Down? ==>
                    EntryOf(name) == Run(Seen(before, now),
                                         if limit.Some? then [Step.Consume(limit.value, amount)]
                                         else [Incr(amount)] + (if expires then [Touch] else []),
                                         ROLLING_TTL_SECONDS).entry)
              && (!service.Down? && (limit.None? || Value(before, now) + amount <= limit.value) ==>
                    Value(EntryOf(name), now) == Value(before, now) + amount)
              && (limit.Some? && Value(before, now) + amount > limit.value ==> EntryOf(name) == before)
              && (limit.Some? && service.Up? ==>
                    v == if Value(before, now) + amount <= limit.value then Granted(Value(before, now) + amount)
                         else Exceeded(Value(before, now)))
              && (limit.None? && service.Up? && expires ==> v == Granted(Value(before, now) + amount))
              && (!service.Up? || (limit.None? && !expires) ==> v == if failOpen then Waved else Unavailable)
              && (forall k :: k != name ==> EntryOf(k) == old(EntryOf(k)))
    {
      if limit.None? {
        v := Track(tenant, quota, amount, service, failOpen, expires);
        return;
      }
      if service.Down? {
        return if failOpen then Waved else Unavailable;
      }
      ConsumeRuns(EntryOf(NameNow(tenant, quota)), now, limit.value, amount);
      var allowed, value := Eval(NameNow(tenant, quota), limit.value, amount, ROLLING_TTL_SECONDS);
      if service.Unheard? {
        return if failOpen then Waved else Unavailable;
      }
      return if allowed then Granted(value) else Exceeded(value);
    }
  }
}
