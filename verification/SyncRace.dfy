/**
 Overlapping runs of `syncSubscription` for one subscription. A run loads the mirror row and passes the guard, finds the
 plan row, writes it, and saves the mirror row; other runs may move between any two of these. Saves write the fields
 that differ from what the run had loaded, and nothing else.
 */
module SyncRace {
  import opened Json

  /** Where a run is: `snapshot` is the mirror row as it loaded it, `seen` the plan row as it found it. */
  datatype Phase<R, P> =
    | Idle
    | Loaded(snapshot: Option<R>)
    | Found(snapshot: Option<R>, seen: Option<P>)
    | Assigned(snapshot: Option<R>)
    | Over(planned: bool, saved: bool)

  /** `Stop` is a throw or a crash. */
  datatype Kind = Load | Find | Assign | Save | Stop

  datatype Move = Move(run: nat, kind: Kind)

  /** The subscription's mirror row, its tenant's plan row, and the runs. */
  datatype Race<R, P> = Race(row: Option<R>, plan: Option<P>, runs: map<nat, Phase<R, P>>)

  /** What a run wants to write. */
  datatype Target<R, P> = Target(row: R, plan: P)

  /** The time of a row, and what a save of `next` leaves of `current` when the run had loaded `loaded`. */
  datatype Rules<!R, !P> = Rules(at: R -> int, mergeRow: (R, R, R) -> R, mergePlan: (P, P, P) -> P)

  function PhaseOf<R, P>(race: Race<R, P>, run: nat): Phase<R, P> {
    if run in race.runs then race.runs[run] else Idle
  }

  function Enter<R, P>(race: Race<R, P>, run: nat, phase: Phase<R, P>): Race<R, P> {
    race.(runs := race.runs[run := phase])
  }

  /** The five-second guard. */
  predicate Passes<R, P>(rules: Rules<R, P>, row: Option<R>, at: int) {
    row.Some? ==> at >= rules.at(row.value) - 5
  }

  /** An insert of a row that has come to exist violates its key. */
  predicate Clashes<T>(current: Option<T>, loaded: Option<T>) {
    loaded.None? && current.Some?
  }

  function Put<T>(merge: (T, T, T) -> T, current: Option<T>, loaded: Option<T>, next: T): Option<T> {
    if loaded.None? then Some(next)
    else if current.Some? then Some(merge(current.value, loaded.value, next)) else None
  }

  /** This move writes the plan row; that one writes the mirror row. */
  predicate Assigns<R, P>(race: Race<R, P>, m: Move) {
    m.kind.Assign? && PhaseOf(race, m.run).Found? && !Clashes(race.plan, PhaseOf(race, m.run).seen)
  }

  predicate Saves<R, P>(race: Race<R, P>, m: Move) {
    m.kind.Save? && PhaseOf(race, m.run).Assigned? && !Clashes(race.row, PhaseOf(race, m.run).snapshot)
  }

  /** A move that does not fit the run's phase does not happen. */
  function Step<R, P>(rules: Rules<R, P>, targets: nat -> Target<R, P>, race: Race<R, P>, m: Move): Race<R, P> {
    var phase := PhaseOf(race, m.run);
    var want := targets(m.run);
    if m.kind.Load? && phase.Idle? then
      Enter(race, m.run, if Passes(rules, race.row, rules.at(want.row)) then Loaded(race.row) else Over(false, false))
    else if m.kind.Find? && phase.Loaded? then Enter(race, m.run, Found(phase.snapshot, race.plan))
    else if Assigns(race, m) then
      Enter(race.(plan := Put(rules.mergePlan, race.plan, phase.seen, want.plan)), m.run, Assigned(phase.snapshot))
    else if m.kind.Assign? && phase.Found? then Enter(race, m.run, Over(false, false))
    else if Saves(race, m) then
      Enter(race.(row := Put(rules.mergeRow, race.row, phase.snapshot, want.row)), m.run, Over(true, true))
    else if m.kind.Save? && phase.Assigned? then Enter(race, m.run, Over(true, false))
    else if m.kind.Stop? && !phase.Idle? && !phase.Over? then Enter(race, m.run, Over(phase.Assigned?, false))
    else race
  }

  function Run<R, P>(rules: Rules<R, P>, targets: nat -> Target<R, P>, race: Race<R, P>, ms: seq<Move>): Race<R, P>
    decreases |ms|
  {
    if ms == [] then race else Run(rules, targets, Step(rules, targets, race, ms[0]), ms[1..])
  }

  /** From here on only the newest event's runs save the mirror row. */
  predicate QuietRow<R, P>(rules: Rules<R, P>, targets: nat -> Target<R, P>, newest: nat -> bool,
                           race: Race<R, P>, ms: seq<Move>)
    decreases |ms|
  {
    ms == [] ||
    ((Saves(race, ms[0]) ==> newest(ms[0].run))
     && QuietRow(rules, targets, newest, Step(rules, targets, race, ms[0]), ms[1..]))
  }

  predicate QuietPlan<R, P>(rules: Rules<R, P>, targets: nat -> Target<R, P>, newest: nat -> bool,
                            race: Race<R, P>, ms: seq<Move>)
    decreases |ms|
  {
    ms == [] ||
    ((Assigns(race, ms[0]) ==> newest(ms[0].run))
     && QuietPlan(rules, targets, newest, Step(rules, targets, race, ms[0]), ms[1..]))
  }

  predicate HasSaved<R, P>(phase: Phase<R, P>) {
    phase.Over? && phase.saved
  }

  predicate HasAssigned<R, P>(phase: Phase<R, P>) {
    phase.Assigned? || (phase.Over? && phase.planned)
  }

  /** Some run of the newest event saves the mirror row, and from its load on no other event's run does. */
  predicate RowClear<R, P>(rules: Rules<R, P>, targets: nat -> Target<R, P>, newest: nat -> bool,
                           race: Race<R, P>, ms: seq<Move>)
    decreases |ms|
  {
    ms != [] &&
    (RowClear(rules, targets, newest, Step(rules, targets, race, ms[0]), ms[1..]) ||
     (ms[0].kind.Load? && newest(ms[0].run) && PhaseOf(race, ms[0].run).Idle?
      && QuietRow(rules, targets, newest, Step(rules, targets, race, ms[0]), ms[1..])
      && HasSaved(PhaseOf(Run(rules, targets, race, ms), ms[0].run))))
  }

  /**
   Some run of the newest event writes the plan row, and from the time it found that row on no other event's run does.
   */
  predicate PlanClear<R, P>(rules: Rules<R, P>, targets: nat -> Target<R, P>, newest: nat -> bool,
                            race: Race<R, P>, ms: seq<Move>)
    decreases |ms|
  {
    ms != [] &&
    (PlanClear(rules, targets, newest, Step(rules, targets, race, ms[0]), ms[1..]) ||
     (ms[0].kind.Find? && newest(ms[0].run) && PhaseOf(race, ms[0].run).Loaded?
      && QuietPlan(rules, targets, newest, Step(rules, targets, race, ms[0]), ms[1..])
      && HasAssigned(PhaseOf(Run(rules, targets, race, ms), ms[0].run))))
  }

  /** Changed-field saves: what is not changed is left, and writing `n` over a part of `n` gives `n`. */
  ghost predicate LawfulMerge<T(!new)>(merge: (T, T, T) -> T) {
    && (forall l, n :: merge(l, l, n) == n)
    && (forall l, n :: merge(n, l, n) == n)
    && (forall c, k, l, n :: merge(c, l, n) == n ==> merge(merge(c, k, n), l, n) == n)
  }

  ghost predicate Lawful<R(!new), P(!new)>(rules: Rules<R, P>) {
    LawfulMerge(rules.mergeRow) && LawfulMerge(rules.mergePlan)
  }

  /** The pending save of a newest run would leave exactly what it wants. */
  predicate Pending<T(==)>(merge: (T, T, T) -> T, current: Option<T>, loaded: Option<T>, next: T) {
    !Clashes(current, loaded) && Put(merge, current, loaded, next) == Some(next)
  }

  /** Another newest run's save keeps this so, or gets there first. */
  lemma PendingStays<T(!new)>(merge: (T, T, T) -> T, current: Option<T>, loaded: Option<T>, other: Option<T>, next: T)
    requires LawfulMerge(merge) && !Clashes(current, other) && (other.Some? ==> current.Some?)
    requires current == Some(next) || Pending(merge, current, loaded, next)
    ensures var put := Put(merge, current, other, next); put == Some(next) || Pending(merge, put, loaded, next)
  {
  }

  predicate Snapshot<R, P>(phase: Phase<R, P>) {
    phase.Loaded? || phase.Found? || phase.Assigned?
  }

  /** Rows that a run has read do not vanish. */
  predicate Anchored<R, P>(race: Race<R, P>) {
    forall r :: r in race.runs ==>
      && (Snapshot(race.runs[r]) && race.runs[r].snapshot.Some? ==> race.row.Some?)
      && (race.runs[r].Found? && race.runs[r].seen.Some? ==> race.plan.Some?)
  }

  lemma StepAnchored<R, P>(rules: Rules<R, P>, targets: nat -> Target<R, P>, race: Race<R, P>, m: Move)
    requires Anchored(race)
    ensures Anchored(Step(rules, targets, race, m))
  {
  }

  /** The row is as the newest event wants it, or will be when this run of it saves, or this run is over without. */
  predicate RowSettling<R(==), P>(rules: Rules<R, P>, race: Race<R, P>, run: nat, next: R) {
    var phase := PhaseOf(race, run);
    || race.row == Some(next)
    || (phase.Over? && !phase.saved)
    || (Snapshot(phase) && Pending(rules.mergeRow, race.row, phase.snapshot, next))
  }

  predicate PlanSettling<R, P(==)>(rules: Rules<R, P>, race: Race<R, P>, run: nat, next: P) {
    var phase := PhaseOf(race, run);
    || race.plan == Some(next)
    || (phase.Over? && !phase.planned)
    || (phase.Found? && Pending(rules.mergePlan, race.plan, phase.seen, next))
  }

  lemma StepRowSettling<R(!new), P(!new)>(rules: Rules<R, P>, targets: nat -> Target<R, P>, newest: nat -> bool,
                                          race: Race<R, P>, m: Move, run: nat, next: R)
    requires Lawful(rules) && Anchored(race) && RowSettling(rules, race, run, next)
    requires Saves(race, m) ==> targets(m.run).row == next
    requires newest(run) && targets(run).row == next
    ensures RowSettling(rules, Step(rules, targets, race, m), run, next)
  {
    if Saves(race, m) && (race.row == Some(next) || Snapshot(PhaseOf(race, run))) {
      var loaded := if Snapshot(PhaseOf(race, run)) then PhaseOf(race, run).snapshot else race.row;
      PendingStays(rules.mergeRow, race.row, loaded, PhaseOf(race, m.run).snapshot, next);
    }
  }

  lemma StepPlanSettling<R(!new), P(!new)>(rules: Rules<R, P>, targets: nat -> Target<R, P>, newest: nat -> bool,
                                           race: Race<R, P>, m: Move, run: nat, next: P)
    requires Lawful(rules) && Anchored(race) && PlanSettling(rules, race, run, next)
    requires Assigns(race, m) ==> targets(m.run).plan == next
    requires newest(run) && targets(run).plan == next
    ensures PlanSettling(rules, Step(rules, targets, race, m), run, next)
  {
    if Assigns(race, m) && (race.plan == Some(next) || PhaseOf(race, run).Found?) {
      var loaded := if PhaseOf(race, run).Found? then PhaseOf(race, run).seen else race.plan;
      PendingStays(rules.mergePlan, race.plan, loaded, PhaseOf(race, m.run).seen, next);
    }
  }

  lemma {:induction false} RunRowSettling<R(!new), P(!new)>(rules: Rules<R, P>, targets: nat -> Target<R, P>,
      newest: nat -> bool, race: Race<R, P>, ms: seq<Move>, run: nat, next: R)
    requires Lawful(rules) && Anchored(race) && RowSettling(rules, race, run, next)
    requires newest(run) && forall r: nat :: newest(r) ==> targets(r).row == next
    requires QuietRow(rules, targets, newest, race, ms)
    ensures RowSettling(rules, Run(rules, targets, race, ms), run, next)
    decreases |ms|
  {
    if ms != [] {
      StepAnchored(rules, targets, race, ms[0]);
      StepRowSettling(rules, targets, newest, race, ms[0], run, next);
      RunRowSettling(rules, targets, newest, Step(rules, targets, race, ms[0]), ms[1..], run, next);
    }
  }

  lemma {:induction false} RunPlanSettling<R(!new), P(!new)>(rules: Rules<R, P>, targets: nat -> Target<R, P>,
      newest: nat -> bool, race: Race<R, P>, ms: seq<Move>, run: nat, next: P)
    requires Lawful(rules) && Anchored(race) && PlanSettling(rules, race, run, next)
    requires newest(run) && forall r: nat :: newest(r) ==> targets(r).plan == next
    requires QuietPlan(rules, targets, newest, race, ms)
    ensures PlanSettling(rules, Run(rules, targets, race, ms), run, next)
    decreases |ms|
  {
    if ms != [] {
      StepAnchored(rules, targets, race, ms[0]);
      StepPlanSettling(rules, targets, newest, race, ms[0], run, next);
      RunPlanSettling(rules, targets, newest, Step(rules, targets, race, ms[0]), ms[1..], run, next);
    }
  }

  /** A clear run leaves the mirror row as the newest event wants it. */
  lemma {:induction false} RowClearShows<R(!new), P(!new)>(rules: Rules<R, P>, targets: nat -> Target<R, P>,
      newest: nat -> bool, race: Race<R, P>, ms: seq<Move>, next: R)
    requires Lawful(rules) && Anchored(race) && forall r: nat :: newest(r) ==> targets(r).row == next
    requires RowClear(rules, targets, newest, race, ms)
    ensures Run(rules, targets, race, ms).row == Some(next)
    decreases |ms|
  {
    var race1 := Step(rules, targets, race, ms[0]);
    StepAnchored(rules, targets, race, ms[0]);
    if RowClear(rules, targets, newest, race1, ms[1..]) {
      RowClearShows(rules, targets, newest, race1, ms[1..], next);
    } else {
      RunRowSettling(rules, targets, newest, race1, ms[1..], ms[0].run, next);
    }
  }

  /** And the plan row likewise. */
  lemma {:induction false} PlanClearShows<R(!new), P(!new)>(rules: Rules<R, P>, targets: nat -> Target<R, P>,
      newest: nat -> bool, race: Race<R, P>, ms: seq<Move>, next: P)
    requires Lawful(rules) && Anchored(race) && forall r: nat :: newest(r) ==> targets(r).plan == next
    requires PlanClear(rules, targets, newest, race, ms)
    ensures Run(rules, targets, race, ms).plan == Some(next)
    decreases |ms|
  {
    var race1 := Step(rules, targets, race, ms[0]);
    StepAnchored(rules, targets, race, ms[0]);
    if PlanClear(rules, targets, newest, race1, ms[1..]) {
      PlanClearShows(rules, targets, newest, race1, ms[1..], next);
    } else {
      RunPlanSettling(rules, targets, newest, race1, ms[1..], ms[0].run, next);
    }
  }

  function Through<T, U>(f: T -> U, x: Option<T>): Option<U> {
    if x.Some? then Some(f(x.value)) else None
  }

  function PhaseThrough<R, P, R2, P2>(f: R -> R2, g: P -> P2, phase: Phase<R, P>): Phase<R2, P2> {
    if phase.Idle? then Idle
    else if phase.Loaded? then Loaded(Through(f, phase.snapshot))
    else if phase.Found? then Found(Through(f, phase.snapshot), Through(g, phase.seen))
    else if phase.Assigned? then Assigned(Through(f, phase.snapshot))
    else Over(phase.planned, phase.saved)
  }

  /** The race as it looks through a view of its rows. */
  function Image<R, P, R2, P2>(f: R -> R2, g: P -> P2, race: Race<R, P>): Race<R2, P2> {
    Race(Through(f, race.row), Through(g, race.plan), map r | r in race.runs :: PhaseThrough(f, g, race.runs[r]))
  }

  /** The views respect times and saves. */
  ghost predicate Respects<R(!new), P(!new), R2, P2>(rules: Rules<R, P>, rules2: Rules<R2, P2>,
                                                        f: R -> R2, g: P -> P2) {
    && (forall r :: rules2.at(f(r)) == rules.at(r))
    && (forall c, l, n :: f(rules.mergeRow(c, l, n)) == rules2.mergeRow(f(c), f(l), f(n)))
    && (forall c, l, n :: g(rules.mergePlan(c, l, n)) == rules2.mergePlan(g(c), g(l), g(n)))
  }

  ghost predicate Viewed<R, P, R2, P2>(targets: nat -> Target<R, P>, targets2: nat -> Target<R2, P2>,
                                       f: R -> R2, g: P -> P2) {
    forall r: nat :: targets2(r) == Target(f(targets(r).row), g(targets(r).plan))
  }

  lemma PutThrough<T(!new), U>(merge: (T, T, T) -> T, merge2: (U, U, U) -> U, f: T -> U,
                               current: Option<T>, loaded: Option<T>, next: T)
    requires forall c, l, n :: f(merge(c, l, n)) == merge2(f(c), f(l), f(n))
    ensures Through(f, Put(merge, current, loaded, next)) ==
            Put(merge2, Through(f, current), Through(f, loaded), f(next))
  {
  }

  lemma ImagePhase<R, P, R2, P2>(f: R -> R2, g: P -> P2, race: Race<R, P>, run: nat)
    ensures PhaseOf(Image(f, g, race), run) == PhaseThrough(f, g, PhaseOf(race, run))
  {
  }

  lemma ImageEnter<R, P, R2, P2>(f: R -> R2, g: P -> P2, race: Race<R, P>, run: nat, phase: Phase<R, P>)
    ensures Image(f, g, Enter(race, run, phase)) == Enter(Image(f, g, race), run, PhaseThrough(f, g, phase))
  {
  }

  lemma ImageStep<R(!new), P(!new), R2, P2>(rules: Rules<R, P>, rules2: Rules<R2, P2>, f: R -> R2, g: P -> P2,
      targets: nat -> Target<R, P>, targets2: nat -> Target<R2, P2>, race: Race<R, P>, m: Move)
    requires Respects(rules, rules2, f, g) && Viewed(targets, targets2, f, g)
    ensures Image(f, g, Step(rules, targets, race, m)) == Step(rules2, targets2, Image(f, g, race), m)
    ensures Saves(Image(f, g, race), m) == Saves(race, m) && Assigns(Image(f, g, race), m) == Assigns(race, m)
  {
    var phase, want := PhaseOf(race, m.run), targets(m.run);
    ImagePhase(f, g, race, m.run);
    assert targets2(m.run) == Target(f(want.row), g(want.plan));
    if Saves(race, m) {
      var put := Put(rules.mergeRow, race.row, phase.snapshot, want.row);
      PutThrough(rules.mergeRow, rules2.mergeRow, f, race.row, phase.snapshot, want.row);
      ImageEnter(f, g, race.(row := put), m.run, Over(true, true));
    } else if Assigns(race, m) {
      var put := Put(rules.mergePlan, race.plan, phase.seen, want.plan);
      PutThrough(rules.mergePlan, rules2.mergePlan, g, race.plan, phase.seen, want.plan);
      ImageEnter(f, g, race.(plan := put), m.run, Assigned(phase.snapshot));
    } else {
      ImageEnter(f, g, race, m.run, PhaseOf(Step(rules, targets, race, m), m.run));
    }
  }

  /** Seen through views, a race runs the same and is quiet and clear at the same points. */
  lemma {:induction false} ImageRun<R(!new), P(!new), R2, P2>(rules: Rules<R, P>, rules2: Rules<R2, P2>,
      f: R -> R2, g: P -> P2, targets: nat -> Target<R, P>, targets2: nat -> Target<R2, P2>, newest: nat -> bool,
      race: Race<R, P>, ms: seq<Move>)
    requires Respects(rules, rules2, f, g) && Viewed(targets, targets2, f, g)
    ensures Image(f, g, Run(rules, targets, race, ms)) == Run(rules2, targets2, Image(f, g, race), ms)
    ensures QuietRow(rules2, targets2, newest, Image(f, g, race), ms) == QuietRow(rules, targets, newest, race, ms)
    ensures QuietPlan(rules2, targets2, newest, Image(f, g, race), ms) == QuietPlan(rules, targets, newest, race, ms)
    decreases |ms|
  {
    if ms != [] {
      ImageStep(rules, rules2, f, g, targets, targets2, race, ms[0]);
      ImageRun(rules, rules2, f, g, targets, targets2, newest, Step(rules, targets, race, ms[0]), ms[1..]);
    }
  }

  lemma {:induction false} ImageClear<R(!new), P(!new), R2, P2>(rules: Rules<R, P>, rules2: Rules<R2, P2>,
      f: R -> R2, g: P -> P2, targets: nat -> Target<R, P>, targets2: nat -> Target<R2, P2>, newest: nat -> bool,
      race: Race<R, P>, ms: seq<Move>)
    requires Respects(rules, rules2, f, g) && Viewed(targets, targets2, f, g)
    ensures RowClear(rules2, targets2, newest, Image(f, g, race), ms) == RowClear(rules, targets, newest, race, ms)
    ensures PlanClear(rules2, targets2, newest, Image(f, g, race), ms) == PlanClear(rules, targets, newest, race, ms)
    decreases |ms|
  {
    if ms != [] {
      var race1 := Step(rules, targets, race, ms[0]);
      ImageStep(rules, rules2, f, g, targets, targets2, race, ms[0]);
      ImageRun(rules, rules2, f, g, targets, targets2, newest, race, ms);
      ImageRun(rules, rules2, f, g, targets, targets2, newest, race1, ms[1..]);
      ImagePhase(f, g, race, ms[0].run);
      ImagePhase(f, g, Run(rules, targets, race, ms), ms[0].run);
      ImageClear(rules, rules2, f, g, targets, targets2, newest, race1, ms[1..]);
    }
  }
}
