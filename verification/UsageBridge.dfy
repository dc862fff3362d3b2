/** The in-memory usage aggregator of `src/listeners/usage_auto_bridge_listener.ts`. */
module UsageBridge {
  import opened Json

  datatype Account = Account(tenant: string, meter: string)

  /** An amount for an account: a track event, a bucket, or the payload of a batch job. */
  datatype Amount = Amount(account: Account, quantity: int)

  function BucketKey(a: Account): string {
    a.tenant + "::" + a.meter
  }

  /** Two tenants whose bucket keys can be told apart whatever the meters are called. */
  predicate Apart(t: string, u: string) {
    t == u || !(t + "::" <= u + "::" || u + "::" <= t + "::")
  }

  lemma PrefixesOfOne(a: string, b: string, x: string, y: string)
    requires a + x == b + y && |a| <= |b|
    ensures a <= b
  {
    assert (a + x)[..|a|] == a && (b + y)[..|a|] == b[..|a|];
  }

  lemma Regroup(t: string, m: string)
    ensures BucketKey(Account(t, m)) == (t + "::") + m
  {
  }

  /** Bucket keys collide for some meters exactly when one tenant's marked id begins the other's. */
  lemma KeysCollide(t: string, u: string)
    requires t != u
    ensures (exists m, n :: BucketKey(Account(t, m)) == BucketKey(Account(u, n))) <==> !Apart(t, u)
  {
    if m, n :| BucketKey(Account(t, m)) == BucketKey(Account(u, n)) {
      Regroup(t, m);
      Regroup(u, n);
      if |t| <= |u| {
        PrefixesOfOne(t + "::", u + "::", m, n);
      } else {
        PrefixesOfOne(u + "::", t + "::", n, m);
      }
    }
    if !Apart(t, u) {
      if t + "::" <= u + "::" {
        Collision(t, u);
      } else {
        Collision(u, t);
      }
    }
  }

  lemma Collision(t: string, u: string)
    requires t + "::" <= u + "::"
    ensures BucketKey(Account(t, (u + "::")[|t| + 2..])) == BucketKey(Account(u, ""))
  {
    Regroup(t, (u + "::")[|t| + 2..]);
    Regroup(u, "");
    assert u + "::" == (u + "::")[..|t| + 2] + (u + "::")[|t| + 2..];
  }

  /** Ids without a colon, as every UUID is, are always apart. */
  lemma ColonFreeIdsAreApart(t: string, u: string)
    requires ':' !in t && ':' !in u
    ensures Apart(t, u)
  {
    if t + "::" <= u + "::" {
      ColonFreeIsNoPrefix(t, u);
    } else if u + "::" <= t + "::" {
      ColonFreeIsNoPrefix(u, t);
    }
  }

  lemma ColonFreeIsNoPrefix(t: string, u: string)
    requires t + "::" <= u + "::"
    ensures t == u || ':' in u
  {
    assert (t + "::")[|t|] == ':';
    if |t| < |u| {
      assert u[|t|] == (u + "::")[|t|];
    } else {
      assert t == (t + "::")[..|t|] && u == (u + "::")[..|t|];
    }
  }

  lemma BucketKeyInjective(a: Account, b: Account)
    requires Apart(a.tenant, b.tenant) && BucketKey(a) == BucketKey(b)
    ensures a == b
  {
    if a.tenant != b.tenant {
      assert Account(a.tenant, a.meter) == a && Account(b.tenant, b.meter) == b;
      KeysCollide(a.tenant, b.tenant);
    } else {
      assert a.meter == BucketKey(a)[|a.tenant| + 2..] && b.meter == BucketKey(b)[|b.tenant| + 2..];
    }
  }

  /** The aggregator, and what has become of every amount. */
  datatype State = State(
    pending: map<string, Amount>, timers: set<string>,
    tracked: seq<Amount>, inFlight: seq<Amount>, dispatched: seq<Amount>, dropped: seq<Amount>, discarded: seq<Amount>)

  const EMPTY := State(map[], {}, [], [], [], [], [])

  /** A bucket that is flushed goes to the queue, unless there is nothing in it to report. */
  datatype Step =
    | Track(amount: Amount)
    | Flush(key: string)
    | Settle(index: nat, accepted: bool)

  function Tracked(s: State, a: Amount): State {
    var key := BucketKey(a.account);
    var s := s.(tracked := s.tracked + [a]);
    if key in s.pending
    then s.(pending := s.pending[key := s.pending[key].(quantity := s.pending[key].quantity + a.quantity)])
    else s.(pending := s.pending[key := a], timers := s.timers + {key})
  }

  function Flushed(s: State, key: string): State {
    if key !in s.pending then s else
      var b := s.pending[key];
      var s := s.(pending := s.pending - {key}, timers := s.timers - {key});
      if b.quantity <= 0 then s.(discarded := s.discarded + [b]) else s.(inFlight := s.inFlight + [b])
  }

  function Settled(s: State, index: nat, accepted: bool): State
    requires index < |s.inFlight|
  {
    var a := s.inFlight[index];
    var s := s.(inFlight := s.inFlight[..index] + s.inFlight[index + 1..]);
    if accepted then s.(dispatched := s.dispatched + [a]) else s.(dropped := s.dropped + [a])
  }

  function Next(s: State, step: Step): State {
    match step
    case Track(a) => Tracked(s, a)
    case Flush(key) => Flushed(s, key)
    case Settle(index, accepted) => if index < |s.inFlight| then Settled(s, index, accepted) else s
  }

  function Run(s: State, steps: seq<Step>): State
    decreases |steps|
  {
    if steps == [] then s else Run(Next(s, steps[0]), steps[1..])
  }

  /** How much of a list belongs to an account. */
  function Sum(xs: seq<Amount>, a: Account): int
    decreases |xs|
  {
    if xs == [] then 0 else (if xs[0].account == a then xs[0].quantity else 0) + Sum(xs[1..], a)
  }

  lemma {:induction false} SumConcat(xs: seq<Amount>, ys: seq<Amount>, a: Account)
    ensures Sum(xs + ys, a) == Sum(xs, a) + Sum(ys, a)
    decreases |xs|
  {
    if xs == [] {
      assert xs + ys == ys;
    } else {
      SumConcat(xs[1..], ys, a);
      assert (xs + ys)[1..] == xs[1..] + ys;
    }
  }

  function Part(x: Amount, a: Account): int {
    if x.account == a then x.quantity else 0
  }

  lemma SumPush(xs: seq<Amount>, x: Amount, a: Account)
    ensures Sum(xs + [x], a) == Sum(xs, a) + Part(x, a)
  {
    SumConcat(xs, [x], a);
    assert [x][1..] == [];
  }

  lemma SumTake(xs: seq<Amount>, k: nat, a: Account)
    requires k < |xs|
    ensures Sum(xs[..k] + xs[k + 1..], a) == Sum(xs, a) - Part(xs[k], a)
  {
    assert xs == (xs[..k] + [xs[k]]) + xs[k + 1..];
    SumConcat(xs[..k] + [xs[k]], xs[k + 1..], a);
    SumPush(xs[..k], xs[k], a);
    SumConcat(xs[..k], xs[k + 1..], a);
  }

  /** What waits in the account's bucket. */
  function Waiting(s: State, a: Account): int {
    if BucketKey(a) in s.pending then Part(s.pending[BucketKey(a)], a) else 0
  }

  /** Every amount tracked is in exactly one place. */
  predicate Conserved(s: State, a: Account) {
    Sum(s.tracked, a) ==
    Waiting(s, a) + Sum(s.inFlight, a) + Sum(s.dispatched, a) + Sum(s.dropped, a) + Sum(s.discarded, a)
  }

  /** Buckets stand under their own keys, each with its timer. */
  predicate Keyed(s: State) {
    s.timers == s.pending.Keys && forall key :: key in s.pending ==> key == BucketKey(s.pending[key].account)
  }

  /** No bucket belongs to a tenant that could be mistaken for this account's. */
  predicate Unmistaken(s: State, a: Account) {
    forall key :: key in s.pending ==> Apart(s.pending[key].account.tenant, a.tenant)
  }

  lemma TrackMoves(s: State, x: Amount, a: Account)
    requires Keyed(s) && Unmistaken(s, a) && Apart(x.account.tenant, a.tenant)
    ensures Keyed(Tracked(s, x)) && Unmistaken(Tracked(s, x), a)
    ensures Waiting(Tracked(s, x), a) == Waiting(s, a) + Part(x, a)
  {
    var key := BucketKey(x.account);
    if key == BucketKey(a) {
      BucketKeyInjective(x.account, a);
      if key in s.pending {
        BucketKeyInjective(s.pending[key].account, a);
      }
    }
  }

  lemma FlushMoves(s: State, key: string, a: Account)
    requires Keyed(s) && Unmistaken(s, a) && key in s.pending
    ensures Keyed(Flushed(s, key)) && Unmistaken(Flushed(s, key), a)
    ensures Waiting(Flushed(s, key), a) == Waiting(s, a) - Part(s.pending[key], a)
  {
    var b := s.pending[key];
    if b.account == a {
      assert key == BucketKey(a);
    }
  }

  lemma TrackConserves(s: State, x: Amount, a: Account)
    requires Conserved(s, a) && Waiting(Tracked(s, x), a) == Waiting(s, a) + Part(x, a)
    ensures Conserved(Tracked(s, x), a)
  {
    SumPush(s.tracked, x, a);
  }

  lemma FlushConserves(s: State, key: string, a: Account)
    requires key in s.pending && Conserved(s, a)
    requires Waiting(Flushed(s, key), a) == Waiting(s, a) - Part(s.pending[key], a)
    ensures Conserved(Flushed(s, key), a)
  {
    SumPush(s.discarded, s.pending[key], a);
    SumPush(s.inFlight, s.pending[key], a);
  }

  lemma SettleConserves(s: State, index: nat, accepted: bool, a: Account)
    requires index < |s.inFlight| && Conserved(s, a)
    ensures Conserved(Settled(s, index, accepted), a)
  {
    SumTake(s.inFlight, index, a);
    SumPush(s.dispatched, s.inFlight[index], a);
    SumPush(s.dropped, s.inFlight[index], a);
  }

  /** Every amount of the run is for the account's own tenant or for one whose bucket keys cannot collide with it. */
  predicate RunApart(steps: seq<Step>, a: Account) {
    forall k :: 0 <= k < |steps| && steps[k].Track? ==> Apart(steps[k].amount.account.tenant, a.tenant)
  }

  lemma {:induction false} RunConserves(s: State, steps: seq<Step>, a: Account)
    requires Keyed(s) && Unmistaken(s, a) && Conserved(s, a) && RunApart(steps, a)
    ensures var r := Run(s, steps); Keyed(r) && Unmistaken(r, a) && Conserved(r, a)
    decreases |steps|
  {
    if steps != [] {
      var r := Next(s, steps[0]);
      match steps[0] {
        case Track(x) =>
          TrackMoves(s, x, a);
          TrackConserves(s, x, a);
        case Flush(key) =>
          if key in s.pending {
            FlushMoves(s, key, a);
            FlushConserves(s, key, a);
          }
        case Settle(index, accepted) =>
          if index < |s.inFlight| {
            SettleConserves(s, index, accepted, a);
          }
      }
      RunConserves(r, steps[1..], a);
    }
  }

  /** A job leaves the queue as dispatched when it is accepted, and is dropped when it is not. */
  lemma SettleSorts(before: seq<Amount>, x: Amount, after: seq<Amount>, s: State)
    requires s.inFlight == before + [x] + after
    ensures var sent, lost := Settled(s, |before|, true), Settled(s, |before|, false);
            && sent == s.(inFlight := before + after, dispatched := s.dispatched + [x])
            && lost == s.(inFlight := before + after, dropped := s.dropped + [x])
  {
    assert s.inFlight[..|before|] == before && s.inFlight[|before| + 1..] == after;
  }

  predicate NonNegative(s: State) {
    && (forall key :: key in s.pending ==> s.pending[key].quantity >= 0)
    && (forall k :: 0 <= k < |s.discarded| ==> s.discarded[k].quantity == 0)
  }

  lemma {:induction false} RunNonNegative(s: State, steps: seq<Step>)
    requires NonNegative(s) && forall k :: 0 <= k < |steps| && steps[k].Track? ==> steps[k].amount.quantity >= 0
    ensures NonNegative(Run(s, steps))
    decreases |steps|
  {
    if steps != [] {
      RunNonNegative(Next(s, steps[0]), steps[1..]);
    }
  }

  lemma {:induction false} SumOfZeros(xs: seq<Amount>, a: Account)
    requires forall k :: 0 <= k < |xs| ==> xs[k].quantity == 0
    ensures Sum(xs, a) == 0
    decreases |xs|
  {
    if xs != [] {
      SumOfZeros(xs[1..], a);
    }
  }

  /**
   Usage conservation. Over every interleaving of tracks, timers, flushes and dispatches, as long as no other tenant's
   bucket keys can be taken for the account's and amounts are not negative, what was tracked for the account is what is
   pending, on its way, dispatched or dropped by a refused dispatch; and pending buckets and timers have the same keys.
   */
  lemma UsageIsConserved(steps: seq<Step>, a: Account)
    requires RunApart(steps, a)
    requires forall k :: 0 <= k < |steps| && steps[k].Track? ==> steps[k].amount.quantity >= 0
    ensures var s := Run(EMPTY, steps);
            && Sum(s.tracked, a) == Waiting(s, a) + Sum(s.inFlight, a) + Sum(s.dispatched, a) + Sum(s.dropped, a)
            && s.timers == s.pending.Keys
  {
    RunConserves(EMPTY, steps, a);
    RunNonNegative(EMPTY, steps);
    SumOfZeros(Run(EMPTY, steps).discarded, a);
  }

  /** Where keys collide, one tenant's usage is put to another's account. */
  lemma CollisionMisattributes(a: Account, b: Account, m: int, n: int)
    requires a != b && BucketKey(a) == BucketKey(b) && n != 0
    ensures !Conserved(Tracked(Tracked(EMPTY, Amount(a, m)), Amount(b, n)), b)
  {
    var s := Tracked(Tracked(EMPTY, Amount(a, m)), Amount(b, n));
    assert s.tracked == [Amount(a, m), Amount(b, n)];
    SumPush([Amount(a, m)], Amount(b, n), b);
    SumPush([], Amount(a, m), b);
    assert [Amount(a, m)] + [Amount(b, n)] == s.tracked && [] + [Amount(a, m)] == [Amount(a, m)];
  }

  /** `drainAll`: every key that is pending when it is called. */
  function FlushAll(s: State, keys: seq<string>): State
    decreases |keys|
  {
    if keys == [] then s else FlushAll(Flushed(s, keys[0]), keys[1..])
  }

  /** Draining leaves nothing pending and no timer. */
  lemma {:induction false} DrainLeavesNothing(s: State, keys: seq<string>)
    requires Keyed(s) && forall key :: key in s.pending ==> key in keys
    ensures FlushAll(s, keys).pending == map[] && FlushAll(s, keys).timers == {}
    decreases |keys|
  {
    if keys != [] {
      assert forall key :: key in keys ==> key == keys[0] || key in keys[1..];
      DrainLeavesNothing(Flushed(s, keys[0]), keys[1..]);
    }
  }

  datatype Mapping = Mapping(meterEventName: string, batchFlushMs: Option<int>)

  const DEFAULT_FLUSH_MS := 10000

  class UsageAutoBridgeListener {
    /** `billing.usageMapping`; None without billing or without a mapping. */
    const usageMapping: Option<map<string, Mapping>>
    var pending: map<string, Amount>
    /** A timer for each key, with the delay it was given. */
    var timers: map<string, int>

    predicate Shows(s: State)
      reads this
    {
      pending == s.pending && timers.Keys == s.timers
    }

    /** `handle`: mapped quotas are tracked, others are ignored. */
    method Handle(tenant: string, quota: string, amount: int, ghost s: State)
      requires Shows(s) && Keyed(s)
      modifies this`pending, this`timers
      ensures if usageMapping.Some? && quota in usageMapping.value
              then Shows(Tracked(s, Amount(Account(tenant, usageMapping.value[quota].meterEventName), amount)))
              else Shows(s)
      ensures usageMapping.None? || quota !in usageMapping.value ==> pending == old(pending) && timers == old(timers)
      ensures usageMapping.Some? && quota in usageMapping.value ==>
                var mapping := usageMapping.value[quota];
                var key := tenant + "::" + mapping.meterEventName;
                var delay := if mapping.batchFlushMs.Some? then mapping.batchFlushMs.value else 10000;
                if key in old(pending) then
                  var bucket := old(pending)[key];
                  && pending == old(pending)[key := bucket.(quantity := bucket.quantity + amount)]
                  && timers == old(timers)
                else
                  && pending == old(pending)[key := Amount(Account(tenant, mapping.meterEventName), amount)]
                  && timers == old(timers)[key := delay]
    {
      if usageMapping.None? || quota !in usageMapping.value {
        return;
      }
      var mapping := usageMapping.value[quota];
      var key := tenant + "::" + mapping.meterEventName;
      if key in pending {
        var existing := pending[key];
        existing := existing.(quantity := existing.quantity + amount);
        pending := pending[key := existing];
      } else {
        pending := pending[key := Amount(Account(tenant, mapping.meterEventName), amount)];
        timers := timers[key := GetOr(mapping.batchFlushMs, DEFAULT_FLUSH_MS)];
      }
    }

    /** The part of `flush` before its dispatch; the result is the job to dispatch. */
    method Flush(key: string, ghost s: State) returns (job: Option<Amount>)
      requires Shows(s) && Keyed(s)
      modifies this`pending, this`timers
      ensures Shows(Flushed(s, key))
      ensures Flushed(s, key).inFlight == if job.Some? then s.inFlight + [job.value] else s.inFlight
      ensures job == if key in old(pending) && old(pending)[key].quantity > 0 then Some(old(pending)[key]) else None
      ensures pending == old(pending) - {key} && timers == old(timers) - {key}
    {
      if key !in pending {
        return None;
      }
      var bucket := pending[key];
      pending := pending - {key};
      if key in timers {
        timers := timers - {key};
      }
      return if bucket.quantity <= 0 then None else Some(bucket);
    }

    /** `drainAll`: every flush runs up to its dispatch before any dispatch is awaited. */
    method DrainAll(keys: seq<string>, ghost s: State) returns (jobs: seq<Amount>)
      requires Shows(s) && Keyed(s) && forall key :: key in s.pending ==> key in keys
      modifies this`pending, this`timers
      ensures Shows(FlushAll(s, keys)) && pending == map[] && timers == map[]
      ensures FlushAll(s, keys).inFlight == s.inFlight + jobs
    {
      jobs := [];
      ghost var now := s;
      assert keys[0..] == keys;
      for k := 0 to |keys|
        invariant Shows(now) && Keyed(now) && FlushAll(now, keys[k..]) == FlushAll(s, keys)
        invariant now.inFlight == s.inFlight + jobs
      {
        assert keys[k..][0] == keys[k] && keys[k..][1..] == keys[k + 1..];
        var job := Flush(keys[k], now);
        FlushKeepsKeyed(now, keys[k]);
        now := Flushed(now, keys[k]);
        if job.Some? {
          jobs := jobs + [job.value];
        }
      }
      assert keys[|keys|..] == [];
      DrainLeavesNothing(s, keys);
    }
  }

  lemma FlushKeepsKeyed(s: State, key: string)
    requires Keyed(s)
    ensures Keyed(Flushed(s, key))
  {
  }
}
