/**
 The stored plan of one tenant behind its 60-second cache: `assignPlan`, `clearAssignedPlan` and `getAssignedPlan`
 as database and cache round trips that interleave and may be cut short. Times are in milliseconds.
 */
module PlanCache {
  import opened Json
  import Billing

  type Row = Billing.PlanRow

  const PLAN_CACHE_TTL_MS := 60000

  /** What the table says the plan is: an expired row counts as missing. */
  function Answer(row: Option<Row>, now: int): Option<string> {
    if row.None? || (row.value.expiresAt.Some? && row.value.expiresAt.value < now) then None else Some(row.value.plan)
  }

  /** A row as it was written; the table's history is a list of these. */
  datatype Version = Version(row: Option<Row>, since: int)

  /** A table read on its way to the cache: which version was read, and when. */
  datatype Fill = Fill(version: nat, asOf: int, plan: Option<string>)

  datatype Entry = Entry(fill: Fill, until: int)

  /** `owed` deletes will come; `lost` ones never will, their process having died after its write. */
  datatype State = State(now: int, log: seq<Version>, cache: Option<Entry>, fills: seq<Fill>, owed: nat, lost: nat)

  datatype Step =
    | Tick(ms: nat)
    | Write(row: Option<Row>)
    | Delete
    | Die
    | Read
    | Store(index: nat)
    | Abandon(index: nat)

  function Last(s: State): nat
    requires s.log != []
  {
    |s.log| - 1
  }

  function Current(s: State): Option<Row>
    requires s.log != []
  {
    s.log[Last(s)].row
  }

  function FillNow(s: State): Fill
    requires s.log != []
  {
    Fill(Last(s), s.now, Answer(Current(s), s.now))
  }

  function Drop<T>(xs: seq<T>, k: nat): seq<T>
    requires k < |xs|
  {
    xs[..k] + xs[k + 1..]
  }

  predicate Enabled(s: State, step: Step, latency: nat) {
    match step
    case Delete => s.owed > 0
    case Die => s.owed > 0
    case Store(k) => k < |s.fills| && s.now - s.fills[k].asOf <= latency
    case Abandon(k) => k < |s.fills|
    case _ => true
  }

  function Next(s: State, step: Step, latency: nat): State
    requires s.log != [] && Enabled(s, step, latency)
  {
    match step
    case Tick(ms) => s.(now := s.now + ms)
    case Write(row) => s.(log := s.log + [Version(row, s.now)], owed := s.owed + 1)
    case Delete => s.(cache := None, owed := s.owed - 1)
    case Die => s.(owed := s.owed - 1, lost := s.lost + 1)
    case Read => s.(fills := s.fills + [FillNow(s)])
    case Store(k) => s.(cache := Some(Entry(s.fills[k], s.now + PLAN_CACHE_TTL_MS)), fills := Drop(s.fills, k))
    case Abandon(k) => s.(fills := Drop(s.fills, k))
  }

  /** The fill holds what the table said at `asOf`. */
  predicate True(s: State, f: Fill)
    requires s.log != []
  {
    && f.version < |s.log| && f.asOf <= s.now
    && s.log[f.version].since <= f.asOf && (f.version < Last(s) ==> f.asOf <= s.log[f.version + 1].since)
    && f.plan == Answer(s.log[f.version].row, f.asOf)
  }

  predicate InOrder(s: State) {
    && (forall k :: 0 <= k < |s.log| ==> s.log[k].since <= s.now)
    && (forall j, k :: 0 <= j < k < |s.log| ==> s.log[j].since <= s.log[k].since)
  }

  predicate Inv(s: State, latency: nat) {
    && s.log != [] && InOrder(s)
    && (forall k :: 0 <= k < |s.fills| ==> True(s, s.fills[k]))
    && (s.cache.Some? ==> True(s, s.cache.value.fill) &&
                          s.cache.value.until <= s.cache.value.fill.asOf + latency + PLAN_CACHE_TTL_MS)
  }

  /** What was true stays on record. */
  lemma TrueStays(s: State, step: Step, latency: nat, f: Fill)
    requires s.log != [] && Enabled(s, step, latency) && True(s, f)
    ensures True(Next(s, step, latency), f)
  {
  }

  lemma NextKeepsInv(s: State, step: Step, latency: nat)
    requires Inv(s, latency) && Enabled(s, step, latency)
    ensures Inv(Next(s, step, latency), latency)
  {
    var s' := Next(s, step, latency);
    forall k | 0 <= k < |s.fills| ensures True(s', s.fills[k]) {
      TrueStays(s, step, latency, s.fills[k]);
    }
    if s.cache.Some? {
      TrueStays(s, step, latency, s.cache.value.fill);
    }
  }

  /** Steps that are not enabled do not happen. */
  function Run(s: State, steps: seq<Step>, latency: nat): State
    requires Inv(s, latency)
    decreases |steps|
  {
    if steps == [] then s
    else if Enabled(s, steps[0], latency) then
      NextKeepsInv(s, steps[0], latency);
      Run(Next(s, steps[0], latency), steps[1..], latency)
    else Run(s, steps[1..], latency)
  }

  /** A cache hit. */
  predicate Hit(s: State) {
    s.cache.Some? && s.now < s.cache.value.until
  }

  /** The table says `plan` at some moment of the log, while version `k` is current. */
  predicate SaidAt(s: State, k: nat, at: int, plan: Option<string>) {
    && s.log != [] && k < |s.log| && s.log[k].since <= at <= s.now && (k + 1 < |s.log| ==> at <= s.log[k + 1].since)
    && plan == Answer(s.log[k].row, at)
  }

  lemma {:induction false} RunKeepsInv(s: State, steps: seq<Step>, latency: nat)
    requires Inv(s, latency)
    ensures Inv(Run(s, steps, latency), latency)
    decreases |steps|
  {
    if steps != [] {
      if Enabled(s, steps[0], latency) {
        NextKeepsInv(s, steps[0], latency);
        RunKeepsInv(Next(s, steps[0], latency), steps[1..], latency);
      } else {
        RunKeepsInv(s, steps[1..], latency);
      }
    }
  }

  /** The writes, deletes and deaths of a run, as far as they happen. */
  function Happened(s: State, steps: seq<Step>, latency: nat, kind: Step -> bool): nat
    requires Inv(s, latency)
    decreases |steps|
  {
    if steps == [] then 0
    else if Enabled(s, steps[0], latency) then
      NextKeepsInv(s, steps[0], latency);
      (if kind(steps[0]) then 1 else 0) + Happened(Next(s, steps[0], latency), steps[1..], latency, kind)
    else Happened(s, steps[1..], latency, kind)
  }

  /** Every write is followed by its delete, still owes it, or has lost it to a crash; nothing else is owed or lost. */
  lemma {:induction false} WritesAreAnswered(s: State, steps: seq<Step>, latency: nat)
    requires Inv(s, latency)
    ensures var (r, writes, deletes, deaths) :=
              (Run(s, steps, latency), Happened(s, steps, latency, (x: Step) => x.Write?),
               Happened(s, steps, latency, (x: Step) => x.Delete?), Happened(s, steps, latency, (x: Step) => x.Die?));
            && s.owed + writes == deletes + deaths + r.owed
            && r.lost == s.lost + deaths
    decreases |steps|
  {
    if steps != [] {
      if Enabled(s, steps[0], latency) {
        NextKeepsInv(s, steps[0], latency);
        WritesAreAnswered(Next(s, steps[0], latency), steps[1..], latency);
      } else {
        WritesAreAnswered(s, steps[1..], latency);
      }
    }
  }

  lemma HitIsRecent(r: State, latency: nat)
    requires Inv(r, latency) && Hit(r)
    ensures var f := r.cache.value.fill;
            && r.now - f.asOf < PLAN_CACHE_TTL_MS + latency
            && (f.version == Last(r) || r.now - r.log[Last(r)].since < PLAN_CACHE_TTL_MS + latency)
  {
    var f := r.cache.value.fill;
    if f.version < Last(r) {
      assert f.asOf <= r.log[f.version + 1].since;
    }
  }

  /**
   Bounded staleness, whatever crashes, lost deletes, or fills overtaken by writes: a plan served from the cache is
   what the table said less than 60 s and one fill's latency ago, and comes from the current row unless that row is
   younger than this.
   */
  lemma StalenessIsBounded(s: State, steps: seq<Step>, latency: nat)
    requires Inv(s, latency) && Hit(Run(s, steps, latency))
    ensures var r := Run(s, steps, latency);
            var f := r.cache.value.fill;
            && SaidAt(r, f.version, f.asOf, f.plan) && r.now - f.asOf < PLAN_CACHE_TTL_MS + latency
            && (f.version == |r.log| - 1 || r.now - r.log[|r.log| - 1].since < PLAN_CACHE_TTL_MS + latency)
  {
    var r := Run(s, steps, latency);
    RunKeepsInv(s, steps, latency);
    HitIsRecent(r, latency);
    assert True(r, r.cache.value.fill);
  }

  /** A cached entry of an older row is waiting for a delete, or has lost it. */
  predicate Accounted(s: State)
    requires s.log != []
  {
    s.cache.Some? && s.cache.value.fill.version < Last(s) ==> s.owed + s.lost > 0
  }

  /**
   What a fill needs when it is stored: nothing has been written since its read, or some delete is still owed or lost.
   */
  predicate Timely(s: State, step: Step, latency: nat)
    requires s.log != []
  {
    step.Store? && Enabled(s, step, latency) ==> s.fills[step.index].version == Last(s) || s.owed + s.lost > 0
  }

  /** A step leaves no entry unaccounted for exactly when it is no store of an untimely fill. */
  lemma StepAccounts(s: State, step: Step, latency: nat)
    requires Inv(s, latency) && Enabled(s, step, latency) && Accounted(s)
    ensures Inv(Next(s, step, latency), latency)
    ensures Accounted(Next(s, step, latency)) <==> Timely(s, step, latency)
  {
    NextKeepsInv(s, step, latency);
    if step.Store? {
      assert True(s, s.fills[step.index]);
    }
  }

  /** Every store of the run is of a timely fill. */
  predicate AllTimely(s: State, steps: seq<Step>, latency: nat)
    requires Inv(s, latency)
    decreases |steps|
  {
    steps == [] ||
    (Timely(s, steps[0], latency) &&
     (if Enabled(s, steps[0], latency)
      then NextKeepsInv(s, steps[0], latency); AllTimely(Next(s, steps[0], latency), steps[1..], latency)
      else AllTimely(s, steps[1..], latency)))
  }

  /** At every point of the run the cached entry is accounted for. */
  predicate AllAccounted(s: State, steps: seq<Step>, latency: nat)
    requires Inv(s, latency)
    decreases |steps|
  {
    Accounted(s) &&
    (steps == [] ||
     (if Enabled(s, steps[0], latency)
      then NextKeepsInv(s, steps[0], latency); AllAccounted(Next(s, steps[0], latency), steps[1..], latency)
      else AllAccounted(s, steps[1..], latency)))
  }

  /** A run keeps the cache accounted for at every point if and only if all its stores are timely. */
  lemma {:induction false} AccountedExactly(s: State, steps: seq<Step>, latency: nat)
    requires Inv(s, latency) && Accounted(s)
    ensures AllAccounted(s, steps, latency) <==> AllTimely(s, steps, latency)
    decreases |steps|
  {
    if steps != [] {
      if Enabled(s, steps[0], latency) {
        StepAccounts(s, steps[0], latency);
        if Timely(s, steps[0], latency) {
          AccountedExactly(Next(s, steps[0], latency), steps[1..], latency);
        } else {
          assert !AllAccounted(Next(s, steps[0], latency), steps[1..], latency);
        }
      } else {
        AccountedExactly(s, steps[1..], latency);
      }
    }
  }

  lemma {:induction false} RunAccounted(s: State, steps: seq<Step>, latency: nat)
    requires Inv(s, latency) && AllAccounted(s, steps, latency)
    ensures Inv(Run(s, steps, latency), latency) && Accounted(Run(s, steps, latency))
    decreases |steps|
  {
    if steps != [] {
      if Enabled(s, steps[0], latency) {
        NextKeepsInv(s, steps[0], latency);
        RunAccounted(Next(s, steps[0], latency), steps[1..], latency);
      } else {
        RunAccounted(s, steps[1..], latency);
      }
    }
  }

  const FRESH := State(0, [Version(None, 0)], None, [], 0, 0)

  /**
   Agreement. When every fill was timely as it was stored, and no write still owes its delete or has lost it, a plan
   served from the cache differs from the table's exactly when the row expired after the fill read it.
   */
  lemma CacheAgrees(steps: seq<Step>, latency: nat)
    requires Inv(FRESH, latency) && AllTimely(FRESH, steps, latency)
    requires var s := Run(FRESH, steps, latency); Hit(s) && s.owed + s.lost == 0
    ensures var s := Run(FRESH, steps, latency);
            var f := s.cache.value.fill;
            && Inv(s, latency)
            && (f.plan != Answer(Current(s), s.now) <==>
                Current(s).Some? && Current(s).value.expiresAt.Some?
                  && f.asOf <= Current(s).value.expiresAt.value < s.now)
            && s.now - f.asOf < PLAN_CACHE_TTL_MS + latency
  {
    RunKeepsInv(FRESH, steps, latency);
    AccountedExactly(FRESH, steps, latency);
    RunAccounted(FRESH, steps, latency);
  }

  lemma RunCons(s: State, step: Step, rest: seq<Step>, latency: nat)
    requires Inv(s, latency) && Enabled(s, step, latency)
    ensures Inv(Next(s, step, latency), latency)
    ensures Run(s, [step] + rest, latency) == Run(Next(s, step, latency), rest, latency)
  {
    NextKeepsInv(s, step, latency);
    assert ([step] + rest)[1..] == rest;
  }

  /** A fill that a whole assignment of `row` overtakes. */
  function Overtaken(row: Row): State {
    State(0, [Version(None, 0), Version(Some(row), 0)], None, [Fill(0, 0, None)], 0, 0)
  }

  lemma Overtakes(row: Row, latency: nat)
    ensures Inv(FRESH, latency) && Inv(Overtaken(row), latency)
    ensures Run(FRESH, [Read] + ([Write(Some(row))] + ([Delete] + [Store(0)])), latency) ==
            Run(Overtaken(row), [Store(0)], latency)
  {
    var reading := FRESH.(fills := [Fill(0, 0, None)]);
    var written := reading.(log := [Version(None, 0), Version(Some(row), 0)], owed := 1);
    assert FRESH.fills + [Fill(0, 0, None)] == [Fill(0, 0, None)];
    assert Next(FRESH, Read, latency) == reading;
    assert reading.log + [Version(Some(row), 0)] == written.log;
    assert Next(reading, Write(Some(row)), latency) == written;
    assert Next(written, Delete, latency) == Overtaken(row);
    RunCons(FRESH, Read, [Write(Some(row))] + ([Delete] + [Store(0)]), latency);
    RunCons(reading, Write(Some(row)), [Delete] + [Store(0)], latency);
    RunCons(written, Delete, [Store(0)], latency);
  }

  /** An untimely store: nobody crashes, no delete is owed, and the cache holds the replaced plan. */
  lemma OvertakenFillIsStale(row: Row, latency: nat)
    requires row.expiresAt == None
    ensures Inv(FRESH, latency)
    ensures var s := Run(FRESH, [Read] + ([Write(Some(row))] + ([Delete] + [Store(0)])), latency);
            && Hit(s) && s.owed + s.lost == 0
            && s.cache.value.fill.plan == None && s.log != [] && Answer(Current(s), s.now) == Some(row.plan)
  {
    Overtakes(row, latency);
    RunCons(Overtaken(row), Store(0), [], latency);
    assert [Store(0)] + [] == [Store(0)];
  }

  /** `assignPlan`, undisturbed: nothing when the row is already so, else the write and then the delete or a crash. */
  function Assigned(s: State, row: Row, dies: bool, latency: nat): State
    requires s.log != []
  {
    if Current(s) == Some(row) then s
    else Next(Next(s, Write(Some(row)), latency), if dies then Die else Delete, latency)
  }

  /** A finished assignment leaves the table with the row and nothing stale behind; so does a repeated one. */
  lemma AssignmentTakes(s: State, row: Row, latency: nat)
    requires Inv(s, latency)
    ensures var s' := Assigned(s, row, false, latency);
            && s'.log != [] && Current(s') == Some(row) && Assigned(s', row, false, latency) == s'
            && (Current(s) != Some(row) ==> s'.cache == None)
  {
  }

  /**
   An assignment that dies between its write and its delete, and is retried: the retry finds the row as it wants it
   and does nothing, so the table is as after one clean assignment and the cache is as before the crash. A plan cached
   then goes on being served until it lapses.
   */
  lemma RetryLeavesTheCache(s: State, row: Row, latency: nat)
    requires Inv(s, latency) && Current(s) != Some(row)
    ensures var died := Assigned(s, row, true, latency);
            && died.log != []
            && var retried := Assigned(died, row, false, latency);
            && retried.log == Assigned(s, row, false, latency).log
            && retried.cache == s.cache
            && (Hit(s) ==> Hit(retried))
  {
  }

  /** A cache entry as the cache has it. */
  datatype Cached = Cached(plan: Option<string>, until: int)

  function Erased(e: Option<Entry>): Option<Cached> {
    if e.None? then None else Some(Cached(e.value.fill.plan, e.value.until))
  }

  /** One tenant's plan row and cache slot. */
  class PlanStore {
    var now: int
    var row: Option<Row>
    var cache: Option<Cached>

    /** The store is what the state says. */
    predicate Shows(s: State)
      reads this
    {
      s.log != [] && now == s.now && row == Current(s) && cache == Erased(s.cache)
    }

    /** `assignPlan` for a plan that is declared; `dies` ends the process before the cache delete. */
    method AssignPlan(plan: string, source: string, expiresAt: Option<int>, dies: bool, ghost s: State,
                      ghost latency: nat)
      requires Shows(s)
      modifies this`row, this`cache
      ensures Shows(Assigned(s, Billing.PlanRow(plan, source, expiresAt), dies, latency))
      ensures row == Some(Billing.PlanRow(plan, source, expiresAt))
      ensures cache == if dies || old(row) == row then old(cache) else None
    {
      if row.Some? {
        var existing := row.value;
        if existing.plan == plan && existing.source == source && existing.expiresAt == expiresAt {
          return;
        }
        existing := existing.(plan := plan);
        existing := existing.(source := source);
        existing := existing.(expiresAt := expiresAt);
        row := Some(existing);
      } else {
        row := Some(Billing.PlanRow(plan, source, expiresAt));
      }
      if !dies {
        cache := None;
      }
    }

    /** `clearAssignedPlan`. */
    method ClearAssignedPlan(dies: bool, ghost s: State, ghost latency: nat)
      requires Shows(s)
      modifies this`row, this`cache
      ensures Shows(Next(Next(s, Write(None), latency), if dies then Die else Delete, latency))
      ensures row == None && cache == if dies then old(cache) else None
    {
      row := None;
      if !dies {
        cache := None;
      }
    }

    /** `getAssignedPlan` with plan storage on: the cache's answer, or the table's, which is then cached. */
    method GetAssignedPlan(ghost s: State, ghost latency: nat) returns (plan: Option<string>)
      requires Shows(s) && s.fills == []
      modifies this`cache
      ensures Hit(s) ==> Shows(s) && plan == s.cache.value.fill.plan
      ensures !Hit(s) ==> Shows(Next(Next(s, Read, latency), Store(0), latency)) && plan == Answer(Current(s), s.now)
      ensures if old(cache).Some? && now < old(cache).value.until
              then plan == old(cache).value.plan && cache == old(cache)
              else
                && (plan.Some? <==> row.Some? && (row.value.expiresAt.Some? ==> now <= row.value.expiresAt.value))
                && (plan.Some? ==> plan.value == row.value.plan)
                && cache == Some(Cached(plan, now + 60000))
    {
      if cache.Some? && now < cache.value.until {
        return cache.value.plan;
      }
      plan := None;
      if row.Some? {
        var expired := row.value.expiresAt.Some? && row.value.expiresAt.value < now;
        if !expired {
          plan := Some(row.value.plan);
        }
      }
      cache := Some(Cached(plan, now + PLAN_CACHE_TTL_MS));
    }
  }
}
