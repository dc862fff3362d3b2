/** Races in which the newest event's runs meet no other run's writes, and why one run at a time is such a race. */
module Overlap {
  import opened Json
  import opened SyncRace
  import opened RaceExact

  /** From the load of each newest run that saves, only newest runs save the mirror row. */
  predicate RowUnhindered<R, P>(rules: Rules<R, P>, targets: nat -> Target<R, P>, newest: nat -> bool,
                                race: Race<R, P>, ms: seq<Move>)
    decreases |ms|
  {
    ms == [] ||
    ((ms[0].kind.Load? && newest(ms[0].run) && PhaseOf(race, ms[0].run).Idle?
      && HasSaved(PhaseOf(Run(rules, targets, race, ms), ms[0].run)) ==>
        QuietRow(rules, targets, newest, Step(rules, targets, race, ms[0]), ms[1..]))
     && RowUnhindered(rules, targets, newest, Step(rules, targets, race, ms[0]), ms[1..]))
  }

  /** From the time that each newest run that saves found the plan row, only newest runs write that. */
  predicate PlanUnhindered<R, P>(rules: Rules<R, P>, targets: nat -> Target<R, P>, newest: nat -> bool,
                                 race: Race<R, P>, ms: seq<Move>)
    decreases |ms|
  {
    ms == [] ||
    ((ms[0].kind.Find? && newest(ms[0].run) && PhaseOf(race, ms[0].run).Loaded?
      && HasSaved(PhaseOf(Run(rules, targets, race, ms), ms[0].run)) ==>
        QuietPlan(rules, targets, newest, Step(rules, targets, race, ms[0]), ms[1..]))
     && PlanUnhindered(rules, targets, newest, Step(rules, targets, race, ms[0]), ms[1..]))
  }

  lemma {:induction false} UnhinderedRowClears<R, P>(rules: Rules<R, P>, targets: nat -> Target<R, P>,
      newest: nat -> bool, race: Race<R, P>, ms: seq<Move>, run: nat)
    requires newest(run) && PhaseOf(race, run).Idle? && HasSaved(PhaseOf(Run(rules, targets, race, ms), run))
    requires RowUnhindered(rules, targets, newest, race, ms)
    ensures RowClear(rules, targets, newest, race, ms)
    decreases |ms|
  {
    if !(ms[0].kind.Load? && ms[0].run == run) {
      UnhinderedRowClears(rules, targets, newest, Step(rules, targets, race, ms[0]), ms[1..], run);
    }
  }

  /** A run that saves has written its plan before. */
  lemma {:induction false} SaverAssigned<R, P>(rules: Rules<R, P>, targets: nat -> Target<R, P>, race: Race<R, P>,
                                               ms: seq<Move>, run: nat)
    requires !PhaseOf(race, run).Over? && HasSaved(PhaseOf(Run(rules, targets, race, ms), run))
    ensures HasAssigned(PhaseOf(Run(rules, targets, race, ms), run))
    decreases |ms|
  {
    var race1 := Step(rules, targets, race, ms[0]);
    if PhaseOf(race1, run).Over? {
      OverStays(rules, targets, race1, ms[1..], run);
    } else {
      SaverAssigned(rules, targets, race1, ms[1..], run);
    }
  }

  lemma {:induction false} UnhinderedPlanClears<R, P>(rules: Rules<R, P>, targets: nat -> Target<R, P>,
      newest: nat -> bool, race: Race<R, P>, ms: seq<Move>, run: nat)
    requires newest(run) && Unread(PhaseOf(race, run)) && HasSaved(PhaseOf(Run(rules, targets, race, ms), run))
    requires PlanUnhindered(rules, targets, newest, race, ms)
    ensures PlanClear(rules, targets, newest, race, ms)
    decreases |ms|
  {
    var race1 := Step(rules, targets, race, ms[0]);
    if ms[0].kind.Find? && ms[0].run == run && PhaseOf(race, run).Loaded? {
      SaverAssigned(rules, targets, race, ms, run);
    } else if PhaseOf(race1, run).Over? {
      OverStays(rules, targets, race1, ms[1..], run);
    } else {
      UnhinderedPlanClears(rules, targets, newest, race1, ms[1..], run);
    }
  }

  /** Whenever a run moves, no other run is under way. */
  predicate OneAtATime<R, P>(rules: Rules<R, P>, targets: nat -> Target<R, P>, race: Race<R, P>, ms: seq<Move>)
    decreases |ms|
  {
    ms == [] ||
    ((forall q :: q in race.runs && q != ms[0].run ==> !Snapshot(race.runs[q]))
     && OneAtATime(rules, targets, Step(rules, targets, race, ms[0]), ms[1..]))
  }

  predicate SameTime<R, P>(rules: Rules<R, P>, a: Option<R>, b: Option<R>) {
    (a.Some? <==> b.Some?) && (a.Some? ==> rules.at(a.value) == rules.at(b.value))
  }

  ghost predicate Timed<R(!new), P>(rules: Rules<R, P>) {
    forall c, l, n :: rules.at(rules.mergeRow(c, l, n)) == Changed(rules.at(c), rules.at(l), rules.at(n))
  }

  /** The newest runs share a time; all others are more than five seconds older. */
  ghost predicate Apart<R, P>(rules: Rules<R, P>, targets: nat -> Target<R, P>, newest: nat -> bool, time: int) {
    forall r: nat :: if newest(r) then rules.at(targets(r).row) == time else rules.at(targets(r).row) < time - 5
  }

  /** The row has the newest time and no other event's run is under way. */
  predicate Past<R, P>(rules: Rules<R, P>, newest: nat -> bool, race: Race<R, P>, time: int) {
    && race.row.Some? && rules.at(race.row.value) == time
    && forall q :: q in race.runs && Snapshot(race.runs[q]) ==> newest(q)
  }

  /** Then it stays so: whoever loads later is dropped by the guard. */
  lemma {:induction false} PastIsQuiet<R(!new), P>(rules: Rules<R, P>, targets: nat -> Target<R, P>,
      newest: nat -> bool, race: Race<R, P>, ms: seq<Move>, time: int)
    requires Timed(rules) && Apart(rules, targets, newest, time) && Anchored(race) && Past(rules, newest, race, time)
    ensures QuietRow(rules, targets, newest, race, ms) && QuietPlan(rules, targets, newest, race, ms)
    decreases |ms|
  {
    if ms != [] {
      StepAnchored(rules, targets, race, ms[0]);
      PastStays(rules, targets, newest, race, ms[0], time);
      PastIsQuiet(rules, targets, newest, Step(rules, targets, race, ms[0]), ms[1..], time);
    }
  }

  lemma PastStays<R(!new), P>(rules: Rules<R, P>, targets: nat -> Target<R, P>, newest: nat -> bool, race: Race<R, P>,
                              m: Move, time: int)
    requires Timed(rules) && Apart(rules, targets, newest, time) && Anchored(race) && Past(rules, newest, race, time)
    ensures Past(rules, newest, Step(rules, targets, race, m), time)
  {
    assert if newest(m.run) then rules.at(targets(m.run).row) == time else rules.at(targets(m.run).row) < time - 5;
  }

  /** This run is under way alone, on the row as it loaded it. */
  predicate Alone<R, P>(rules: Rules<R, P>, race: Race<R, P>, run: nat) {
    && Snapshot(PhaseOf(race, run)) && SameTime(rules, race.row, PhaseOf(race, run).snapshot)
    && forall q :: q in race.runs && q != run ==> !Snapshot(race.runs[q])
  }

  /** A move that saves nothing leaves the row, and every snapshot that is still held. */
  lemma RowStands<R, P>(rules: Rules<R, P>, targets: nat -> Target<R, P>, race: Race<R, P>, m: Move, q: nat)
    requires !Saves(race, m) && Snapshot(PhaseOf(race, q))
    ensures Step(rules, targets, race, m).row == race.row
    ensures var phase := PhaseOf(Step(rules, targets, race, m), q);
            if Snapshot(phase) then phase.snapshot == PhaseOf(race, q).snapshot else phase.Over? && !phase.saved
  {
  }

  lemma OthersStand<R, P>(rules: Rules<R, P>, targets: nat -> Target<R, P>, race: Race<R, P>, m: Move)
    requires forall q :: q in race.runs && q != m.run ==> !Snapshot(race.runs[q])
    ensures var runs := Step(rules, targets, race, m).runs; forall q :: q in runs && q != m.run ==> !Snapshot(runs[q])
  {
  }

  /** A save on the row as it was loaded gives it the run's own time. */
  lemma SaveTimes<R(!new), P>(rules: Rules<R, P>, targets: nat -> Target<R, P>, race: Race<R, P>, m: Move)
    requires Timed(rules) && Saves(race, m) && SameTime(rules, race.row, PhaseOf(race, m.run).snapshot)
    ensures var race1 := Step(rules, targets, race, m);
            race1.row.Some? && rules.at(race1.row.value) == rules.at(targets(m.run).row)
              && HasSaved(PhaseOf(race1, m.run))
  {
  }

  lemma {:induction false} AloneIsQuiet<R(!new), P>(rules: Rules<R, P>, targets: nat -> Target<R, P>,
      newest: nat -> bool, race: Race<R, P>, ms: seq<Move>, time: int, run: nat)
    requires Timed(rules) && Apart(rules, targets, newest, time) && Anchored(race)
    requires newest(run) && Alone(rules, race, run) && OneAtATime(rules, targets, race, ms)
    requires HasSaved(PhaseOf(Run(rules, targets, race, ms), run))
    ensures QuietRow(rules, targets, newest, race, ms) && QuietPlan(rules, targets, newest, race, ms)
    decreases |ms|
  {
    if ms != [] {
      var race1 := Step(rules, targets, race, ms[0]);
      assert ms[0].run == run by {
        assert run in race.runs && Snapshot(race.runs[run]);
      }
      StepAnchored(rules, targets, race, ms[0]);
      OthersStand(rules, targets, race, ms[0]);
      if Saves(race, ms[0]) {
        SaveTimes(rules, targets, race, ms[0]);
        assert rules.at(targets(run).row) == time;
        PastIsQuiet(rules, targets, newest, race1, ms[1..], time);
      } else {
        RowStands(rules, targets, race, ms[0], run);
        if PhaseOf(race1, run).Over? {
          OverStays(rules, targets, race1, ms[1..], run);
        }
        AloneIsQuiet(rules, targets, newest, race1, ms[1..], time, run);
      }
    }
  }

  /** Runs under way see the row as they loaded it. */
  predicate Current<R, P>(rules: Rules<R, P>, race: Race<R, P>) {
    forall q :: q in race.runs && Snapshot(race.runs[q]) ==> SameTime(rules, race.row, race.runs[q].snapshot)
  }

  /** One run at a time: nothing hinders the newest event. */
  lemma {:induction false} OneAtATimeIsUnhindered<R(!new), P>(rules: Rules<R, P>, targets: nat -> Target<R, P>,
      newest: nat -> bool, race: Race<R, P>, ms: seq<Move>, time: int)
    requires Timed(rules) && Apart(rules, targets, newest, time) && Anchored(race) && Current(rules, race)
    requires OneAtATime(rules, targets, race, ms)
    ensures RowUnhindered(rules, targets, newest, race, ms) && PlanUnhindered(rules, targets, newest, race, ms)
    decreases |ms|
  {
    if ms != [] {
      var race1, m := Step(rules, targets, race, ms[0]), ms[0];
      StepAnchored(rules, targets, race, m);
      OneAtATimeIsUnhindered(rules, targets, newest, race1, ms[1..], time);
      if newest(m.run) && (m.kind.Load? || m.kind.Find?) && HasSaved(PhaseOf(Run(rules, targets, race, ms), m.run))
         && !PhaseOf(race, m.run).Over? {
        if PhaseOf(race1, m.run).Over? {
          OverStays(rules, targets, race1, ms[1..], m.run);
        } else if Snapshot(PhaseOf(race1, m.run)) {
          AloneIsQuiet(rules, targets, newest, race1, ms[1..], time, m.run);
        }
      }
    }
  }
}
