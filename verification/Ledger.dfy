/**
 The webhook ledger: what a delivery, a job, the exhausted-retries hook and an operator's replay do to one event,
 as steps that interleave in any order. Jobs of one event do not overlap; its hooks and replays overlap with anything.
 */
module Ledger {
  import opened Json
  import opened BillingErrors

  datatype Status = Pending | Completed | Failed

  /** A row of stripe_processed_events. */
  datatype Row = Row(status: Status, attempts: nat, lastError: Option<Failure>)

  const INSERTED := Row(Pending, 0, None)

  /** A model's save: only the fields changed since the record was loaded are written. */
  function Write(current: Row, loaded: Row, next: Row): Row {
    Row(if next.status != loaded.status then next.status else current.status,
        if next.attempts != loaded.attempts then next.attempts else current.attempts,
        if next.lastError != loaded.lastError then next.lastError else current.lastError)
  }

  /** A job being executed: its record as last saved, and the attempts that the queue has counted before this one. */
  datatype Run = Run(loaded: Row, made: nat)

  /**
   One event. `deliveries` have decided to dispatch and not done so yet; `queued` holds the attempts counted for each
   waiting job; `dying` jobs have exhausted their retries and wait for the hook; `hooks` are the rows that hooks have
   found and not saved yet; `acked` says that some delivery was answered 200, and `handled` that its handler has run to
   the end.
   */
  datatype Slot = Slot(row: Option<Row>, deliveries: nat, queued: seq<nat>, running: Option<Run>, dying: nat,
                       hooks: seq<Row>, acked: bool, handled: bool)

  const UNSEEN := Slot(None, 0, [], None, 0, [], false, false)

  /** How an attempt ends: the handler runs and one of two saves, or none, reaches the row; or something is thrown. */
  datatype Ending = Handled(save: Save) | Errored(failure: Failure, saved: bool)

  /** Which save of a handled event is stored: the one that completes it, the one after that one threw, or none. */
  datatype Save = First | Second | Neither

  datatype Step =
    | Receive
    | Enqueue
    | Drop
    | HandDispatch
    | Start(index: nat, saved: bool)
    | Finish(ending: Ending)
    | Crash
    | HookFind
    | HookSave(index: nat, failure: Failure, stored: bool)
    | Replay(seen: Row, dispatched: bool)

  /** A duplicate delivery dispatches again when no worker has touched the row. */
  predicate Untouched(row: Row) {
    row.status == Pending && row.attempts == 0
  }

  function Received(s: Slot): Slot {
    if s.row.None? then s.(row := Some(INSERTED), deliveries := s.deliveries + 1)
    else if Untouched(s.row.value) then s.(deliveries := s.deliveries + 1)
    else s.(acked := true)
  }

  /** A failed attempt goes back to the queue until the retry budget is spent. */
  function Retried(s: Slot, made: nat, budget: nat): Slot {
    if made + 1 < budget then s.(queued := s.queued + [made + 1]) else s.(dying := s.dying + 1)
  }

  function Begun(row: Row): Row {
    row.(attempts := row.attempts + 1)
  }

  function Started(s: Slot, index: nat, saved: bool, budget: nat): Slot
    requires index < |s.queued|
  {
    var made := s.queued[index];
    var taken := s.(queued := s.queued[..index] + s.queued[index + 1..]);
    if s.row.None? || s.row.value.status == Completed then taken
    else if !saved then Retried(taken, made, budget)
    else taken.(row := Some(Begun(s.row.value)), running := Some(Run(Begun(s.row.value), made)))
  }

  /** The row an ending leaves, given the row as it is now and the record as the job loaded it. */
  function Ended(current: Row, loaded: Row, e: Ending): Row {
    match e
    case Handled(First) => Write(current, loaded, Row(Completed, loaded.attempts, None))
    case Handled(Second) => Write(current, loaded, Row(Completed, loaded.attempts, Some(Unhandled)))
    case Handled(Neither) => current
    case Errored(f, saved) =>
      if !saved then current
      else if IsFatal(f) then Write(current, loaded, Row(Failed, loaded.attempts, Some(f)))
      else Write(current, loaded, loaded.(lastError := Some(f)))
  }

  /** Only a first save that succeeds, or a fatal error that is stored, ends the job without another attempt. */
  predicate Settles(e: Ending) {
    match e
    case Handled(save) => save.First?
    case Errored(f, saved) => saved && IsFatal(f)
  }

  function Finished(s: Slot, e: Ending, budget: nat): Slot
    requires s.row.Some? && s.running.Some?
  {
    var run := s.running.value;
    var done := s.(row := Some(Ended(s.row.value, run.loaded, e)), running := None,
                   handled := s.handled || e.Handled?);
    if Settles(e) then done else Retried(done, run.made, budget)
  }

  /** The find of `failed()`: it goes on unless there is no row, or a completed one. */
  function HookFound(s: Slot): Slot
    requires s.dying > 0
  {
    var fired := s.(dying := s.dying - 1);
    if s.row.None? || s.row.value.status == Completed then fired else fired.(hooks := s.hooks + [s.row.value])
  }

  /** Its save, given the row it had found. */
  function Buried(row: Row, seen: Row, f: Failure): Row {
    Write(row, seen, Row(Failed, seen.attempts, Some(f)))
  }

  function HookSaved(s: Slot, index: nat, f: Failure, stored: bool): Slot
    requires index < |s.hooks|
  {
    var over := s.(hooks := s.hooks[..index] + s.hooks[index + 1..]);
    if s.row.Some? && stored then over.(row := Some(Buried(s.row.value, s.hooks[index], f))) else over
  }

  /** The replay's save, given the row it had read. */
  function Reset(row: Row, seen: Row): Row {
    Write(row, seen, Row(Pending, seen.attempts, None))
  }

  function Replayed(s: Slot, seen: Row, dispatched: bool): Slot
    requires s.row.Some?
  {
    var reset := s.(row := Some(Reset(s.row.value, seen)));
    if dispatched then reset.(queued := reset.queued + [0]) else reset
  }

  predicate Enabled(s: Slot, step: Step) {
    match step
    case Receive => true
    case Enqueue => s.deliveries > 0
    case Drop => s.deliveries > 0
    case HandDispatch => true
    case Start(index, _) => index < |s.queued| && s.running.None?
    case Finish(_) => s.running.Some? && s.row.Some?
    case Crash => s.running.Some?
    case HookFind => s.dying > 0
    case HookSave(index, _, _) => index < |s.hooks|
    case Replay(_, _) => s.row.Some?
  }

  function Next(s: Slot, step: Step, budget: nat): Slot
    requires Enabled(s, step)
  {
    match step
    case Receive => Received(s)
    case Enqueue => s.(deliveries := s.deliveries - 1, queued := s.queued + [0], acked := true)
    case Drop => s.(deliveries := s.deliveries - 1)
    case HandDispatch => s.(queued := s.queued + [0])
    case Start(index, saved) => Started(s, index, saved, budget)
    case Finish(e) => Finished(s, e, budget)
    case Crash => s.(running := None, queued := s.queued + [s.running.value.made])
    case HookFind => HookFound(s)
    case HookSave(index, f, stored) => HookSaved(s, index, f, stored)
    case Replay(seen, dispatched) => Replayed(s, seen, dispatched)
  }

  /** A hook is about to write `failed`, over whatever the row says by then. */
  predicate Burying(s: Slot) {
    exists k :: 0 <= k < |s.hooks| && s.hooks[k].status != Failed
  }

  predicate Live(s: Slot) {
    |s.queued| > 0 || s.running.Some? || s.dying > 0 || Burying(s)
  }

  predicate RowIs(s: Slot, status: Status) {
    s.row.Some? && s.row.value.status == status
  }

  predicate Touched(s: Slot) {
    s.row.Some? && s.row.value.attempts > 0
  }

  /** The event's work is done, given up on record, or still with the queue. */
  predicate Accounted(s: Slot) {
    RowIs(s, Completed) || RowIs(s, Failed) || (RowIs(s, Pending) && Live(s))
  }

  /** The safety property: nothing that was acknowledged, and nothing that a worker has touched, is forgotten. */
  predicate Safe(s: Slot) {
    && ((s.acked || Touched(s)) ==> Accounted(s))
    && (RowIs(s, Completed) ==> s.handled)
  }

  /** What else every step needs: facts about the job in progress. */
  predicate Sound(s: Slot) {
    && (s.deliveries > 0 ==> s.row.Some?)
    && (s.running.Some? ==>
          && Touched(s) && !RowIs(s, Completed) && s.running.value.loaded.status != Completed
          && (s.running.value.loaded.status == Failed && RowIs(s, Pending) ==> |s.queued| > 0))
  }

  /** The operating assumption: the hook's write is stored and a replay's dispatch is accepted. */
  predicate Assured(step: Step) {
    && (step.HookSave? ==> step.stored)
    && (step.Replay? ==> step.dispatched)
  }

  lemma StepKeepsSafe(s: Slot, step: Step, budget: nat)
    requires Enabled(s, step) && Assured(step) && Safe(s) && Sound(s)
    ensures Safe(Next(s, step, budget)) && Sound(Next(s, step, budget))
  {
    match step
    case Start(index, saved) => StartKeepsSafe(s, index, saved, budget);
    case Finish(e) => FinishKeepsSafe(s, e, budget);
    case HookFind => HookFindKeepsSafe(s);
    case HookSave(index, f, stored) => HookSaveKeepsSafe(s, index, f);
    case _ =>
  }

  lemma HookFindKeepsSafe(s: Slot)
    requires s.dying > 0 && Safe(s) && Sound(s)
    ensures Safe(HookFound(s)) && Sound(HookFound(s))
  {
    if RowIs(s, Pending) {
      assert HookFound(s).hooks[|s.hooks|] == s.row.value;
    }
  }

  /** Which other hooks are left. */
  lemma BuryingWithout(s: Slot, index: nat)
    requires index < |s.hooks|
    ensures Burying(s) <==>
            s.hooks[index].status != Failed || Burying(s.(hooks := s.hooks[..index] + s.hooks[index + 1..]))
  {
    var rest := s.hooks[..index] + s.hooks[index + 1..];
    if k :| 0 <= k < |s.hooks| && s.hooks[k].status != Failed {
      assert k < index ==> rest[k] == s.hooks[k];
      assert k > index ==> rest[k - 1] == s.hooks[k];
    }
  }

  lemma HookSaveKeepsSafe(s: Slot, index: nat, f: Failure)
    requires index < |s.hooks| && Safe(s) && Sound(s)
    ensures Safe(HookSaved(s, index, f, true)) && Sound(HookSaved(s, index, f, true))
  {
    BuryingWithout(s, index);
  }

  lemma StartKeepsSafe(s: Slot, index: nat, saved: bool, budget: nat)
    requires Enabled(s, Start(index, saved)) && Safe(s) && Sound(s)
    ensures Safe(Started(s, index, saved, budget)) && Sound(Started(s, index, saved, budget))
  {
  }

  lemma FinishKeepsSafe(s: Slot, e: Ending, budget: nat)
    requires Enabled(s, Finish(e)) && Safe(s) && Sound(s)
    ensures Safe(Finished(s, e, budget)) && Sound(Finished(s, e, budget))
  {
    if Settles(e) && e.Errored? {
      assert RowIs(Finished(s, e, budget), Failed) || |s.queued| > 0;
    }
  }

  /** A step happens to one event; a step that is not enabled does not happen. */
  function Step1(s: Slot, step: Step, budget: nat): Slot {
    if Enabled(s, step) then Next(s, step, budget) else s
  }

  function Steps(s: Slot, steps: seq<Step>, budget: nat): Slot
    decreases |steps|
  {
    if steps == [] then s else Steps(Step1(s, steps[0], budget), steps[1..], budget)
  }

  /** All events of the system. */
  type System = map<string, Slot>

  function SlotOf(system: System, id: string): Slot {
    if id in system then system[id] else UNSEEN
  }

  datatype Happening = Happening(id: string, step: Step)

  function Happens(system: System, run: seq<Happening>, budget: nat): System
    decreases |run|
  {
    if run == [] then system
    else Happens(system[run[0].id := Step1(SlotOf(system, run[0].id), run[0].step, budget)], run[1..], budget)
  }

  /** The steps of a run that concern one event. */
  function Of(run: seq<Happening>, id: string): seq<Step>
    decreases |run|
  {
    if run == [] then []
    else (if run[0].id == id then [run[0].step] else []) + Of(run[1..], id)
  }

  /** Events do not interfere: what becomes of one depends on its own steps alone. */
  lemma {:induction false} EventsAreIndependent(system: System, run: seq<Happening>, budget: nat, id: string)
    ensures SlotOf(Happens(system, run, budget), id) == Steps(SlotOf(system, id), Of(run, id), budget)
    decreases |run|
  {
    if run != [] {
      var after := system[run[0].id := Step1(SlotOf(system, run[0].id), run[0].step, budget)];
      EventsAreIndependent(after, run[1..], budget, id);
      if run[0].id == id {
        assert Of(run, id)[1..] == Of(run[1..], id);
      } else {
        assert Of(run, id) == Of(run[1..], id);
      }
    }
  }

  lemma {:induction false} StepsKeepSafe(s: Slot, steps: seq<Step>, budget: nat)
    requires Safe(s) && Sound(s) && forall k :: 0 <= k < |steps| ==> Assured(steps[k])
    ensures Safe(Steps(s, steps, budget)) && Sound(Steps(s, steps, budget))
    decreases |steps|
  {
    if steps != [] {
      if Enabled(s, steps[0]) {
        StepKeepsSafe(s, steps[0], budget);
      }
      StepsKeepSafe(Step1(s, steps[0], budget), steps[1..], budget);
    }
  }

  lemma {:induction false} OfAssured(run: seq<Happening>, id: string)
    requires forall k :: 0 <= k < |run| ==> Assured(run[k].step)
    ensures forall k :: 0 <= k < |Of(run, id)| ==> Assured(Of(run, id)[k])
    decreases |run|
  {
    if run != [] {
      OfAssured(run[1..], id);
    }
  }

  /**
   No acknowledged event is lost. In every run, over any events and in any interleaving, each event answered 200 has
   a row that is completed, failed, or pending with a live job; so has each event that a worker has touched; and a
   completed row means that its handler ran to the end.
   */
  lemma NoAcknowledgedEventIsLost(run: seq<Happening>, budget: nat, id: string)
    requires forall k :: 0 <= k < |run| ==> Assured(run[k].step)
    ensures Safe(SlotOf(Happens(map[], run, budget), id))
  {
    EventsAreIndependent(map[], run, budget, id);
    OfAssured(run, id);
    StepsKeepSafe(UNSEEN, Of(run, id), budget);
  }

  /** The steps by which workers get through the queue. */
  predicate Work(step: Step) {
    step.Start? || step.Finish? || step.HookFind? || step.HookSave?
  }

  /** What a waiting job may still cost. */
  function Weight(made: nat, budget: nat): nat {
    4 * if made < budget then budget - made else 1
  }

  function Waiting(queued: seq<nat>, budget: nat): nat
    decreases |queued|
  {
    if queued == [] then 0 else Weight(queued[0], budget) + Waiting(queued[1..], budget)
  }

  function Ahead(s: Slot, budget: nat): nat {
    Waiting(s.queued, budget) + 2 * s.dying + |s.hooks|
    + if s.running.Some? then Weight(s.running.value.made, budget) - 1 else 0
  }

  lemma {:induction false} WaitingAdds(a: seq<nat>, b: seq<nat>, budget: nat)
    ensures Waiting(a + b, budget) == Waiting(a, budget) + Waiting(b, budget)
    decreases |a|
  {
    if a == [] {
      assert a + b == b;
    } else {
      WaitingAdds(a[1..], b, budget);
      assert (a + b)[1..] == a[1..] + b;
    }
  }

  lemma RetryCosts(s: Slot, made: nat, budget: nat)
    ensures Ahead(Retried(s, made, budget), budget) <= Ahead(s, budget) + Weight(made, budget) - 2
  {
    WaitingAdds(s.queued, [made + 1], budget);
    assert Waiting([made + 1], budget) == Weight(made + 1, budget) + Waiting([], budget);
  }

  lemma TakeCosts(queued: seq<nat>, index: nat, budget: nat)
    requires index < |queued|
    ensures Waiting(queued[..index] + queued[index + 1..], budget) ==
            Waiting(queued, budget) - Weight(queued[index], budget)
  {
    assert queued == queued[..index] + ([queued[index]] + queued[index + 1..]);
    WaitingAdds(queued[..index], [queued[index]] + queued[index + 1..], budget);
    WaitingAdds([queued[index]], queued[index + 1..], budget);
    assert Waiting([queued[index]], budget) == Weight(queued[index], budget) + Waiting([], budget);
    WaitingAdds(queued[..index], queued[index + 1..], budget);
  }

  lemma WorkGetsAhead(s: Slot, step: Step, budget: nat)
    requires Enabled(s, step) && Work(step)
    ensures Ahead(Next(s, step, budget), budget) < Ahead(s, budget)
  {
    match step
    case Start(index, _) =>
      TakeCosts(s.queued, index, budget);
      RetryCosts(s.(queued := s.queued[..index] + s.queued[index + 1..]), s.queued[index], budget);
    case Finish(e) =>
      var done := s.(row := Some(Ended(s.row.value, s.running.value.loaded, e)), running := None,
                     handled := s.handled || e.Handled?);
      RetryCosts(done, s.running.value.made, budget);
    case _ =>
  }

  /** While a job is live, some worker step is possible. */
  lemma WorkIsPossible(s: Slot) returns (step: Step)
    requires Sound(s) && Live(s)
    ensures Work(step) && Assured(step) && Enabled(s, step)
  {
    if s.running.Some? {
      step := Finish(Handled(First));
    } else if |s.queued| > 0 {
      step := Start(0, true);
    } else if s.dying > 0 {
      step := HookFind;
    } else {
      step := HookSave(0, Unhandled, true);
    }
  }

  /** Every step in turn is possible. */
  predicate Possible(s: Slot, steps: seq<Step>, budget: nat)
    decreases |steps|
  {
    steps == [] || (Enabled(s, steps[0]) && Possible(Next(s, steps[0], budget), steps[1..], budget))
  }

  lemma {:induction false} WorkRunsOut(s: Slot, steps: seq<Step>, budget: nat)
    requires Possible(s, steps, budget) && forall k :: 0 <= k < |steps| ==> Work(steps[k])
    ensures |steps| + Ahead(Steps(s, steps, budget), budget) <= Ahead(s, budget)
    ensures Steps(s, steps, budget).acked == s.acked
    decreases |steps|
  {
    if steps != [] {
      WorkGetsAhead(s, steps[0], budget);
      WorkRunsOut(Next(s, steps[0], budget), steps[1..], budget);
    }
  }

  /**
   Left alone, the workers finish: from any safe state they can take only a bounded number of steps, and when they
   can take no more, every acknowledged event has been handled to the end and completed, or has failed.
   */
  lemma WorkersSettle(s: Slot, steps: seq<Step>, budget: nat)
    requires Safe(s) && Sound(s) && Possible(s, steps, budget)
    requires forall k :: 0 <= k < |steps| ==> Work(steps[k]) && Assured(steps[k])
    ensures |steps| <= Ahead(s, budget)
    ensures var end := Steps(s, steps, budget);
            s.acked && (forall step :: Work(step) && Assured(step) ==> !Enabled(end, step)) ==>
            (RowIs(end, Completed) && end.handled) || RowIs(end, Failed)
  {
    var end := Steps(s, steps, budget);
    WorkRunsOut(s, steps, budget);
    StepsKeepSafe(s, steps, budget);
    if Live(end) {
      var step := WorkIsPossible(end);
    }
  }

  /** A completed row stays so except under a replay's save and under that of a hook that had not found it failed. */
  lemma CompletedStays(s: Slot, step: Step, budget: nat)
    requires Enabled(s, step) && Safe(s) && Sound(s) && RowIs(s, Completed)
    ensures RowIs(Next(s, step, budget), Completed) <==>
            && (step.Replay? ==> step.seen.status == Pending)
            && (step.HookSave? ==> !step.stored || s.hooks[step.index].status == Failed)
  {
  }

  predicate Unreplayed(steps: seq<Step>) {
    forall k :: 0 <= k < |steps| ==> Assured(steps[k]) && (steps[k].Replay? ==> steps[k].seen.status == Pending)
  }

  /** Hooks find nothing to bury in a completed row. */
  lemma NoNewBurying(s: Slot, step: Step, budget: nat)
    requires Enabled(s, step) && Safe(s) && Sound(s) && RowIs(s, Completed) && !Burying(s)
    ensures !Burying(Next(s, step, budget))
  {
    if step.HookSave? {
      BuryingWithout(s, step.index);
    }
  }

  lemma {:induction false} CompletedRemains(s: Slot, steps: seq<Step>, budget: nat)
    requires Safe(s) && Sound(s) && RowIs(s, Completed) && !Burying(s) && Unreplayed(steps)
    ensures RowIs(Steps(s, steps, budget), Completed) && Steps(s, steps, budget).running.None?
    decreases |steps|
  {
    if steps != [] {
      if Enabled(s, steps[0]) {
        StepKeepsSafe(s, steps[0], budget);
        NoNewBurying(s, steps[0], budget);
        CompletedStays(s, steps[0], budget);
      }
      CompletedRemains(Step1(s, steps[0], budget), steps[1..], budget);
    }
  }

  /**
   Once completed, and unless replayed, an event is never processed again, whatever is delivered or still queued: so it
   is exactly when no hook is about to save a row that it had found pending.
   */
  lemma CompletedIsFinal(s: Slot, budget: nat)
    requires Safe(s) && Sound(s) && RowIs(s, Completed)
    ensures (forall steps :: Unreplayed(steps) ==>
               RowIs(Steps(s, steps, budget), Completed) && Steps(s, steps, budget).running.None?) <==> !Burying(s)
  {
    if Burying(s) {
      var k :| 0 <= k < |s.hooks| && s.hooks[k].status != Failed;
      var bury := HookSave(k, Unhandled, true);
      assert [bury][1..] == [];
      assert Steps(s, [bury], budget) == Steps(Next(s, bury, budget), [], budget) == Next(s, bury, budget);
      assert Unreplayed([bury]);
    } else {
      forall steps | Unreplayed(steps)
        ensures RowIs(Steps(s, steps, budget), Completed) && Steps(s, steps, budget).running.None? {
        CompletedRemains(s, steps, budget);
      }
    }
  }

  /** Such a hook comes about: a first job's hook finds the row pending, a second job completes it, the hook saves. */
  lemma HookOverwritesCompleted(f: Failure)
    ensures var pending := Row(Pending, 1, Some(f));
            var s := Slot(Some(pending), 0, [0], None, 1, [], true, false);
            && Safe(s) && Sound(s)
            && RowIs(Next(Next(Next(s, HookFind, 1), Start(0, true), 1), Finish(Handled(First)), 1), Completed)
            && RowIs(Steps(s, [HookFind] + ([Start(0, true)] + ([Finish(Handled(First))] +
                              ([HookSave(0, f, true)] + []))), 1), Failed)
  {
    var s := Slot(Some(Row(Pending, 1, Some(f))), 0, [0], None, 1, [], true, false);
    var last := [HookSave(0, f, true)] + [];
    var end := [Finish(Handled(First))] + last;
    var s1 := Next(s, HookFind, 1);
    var s2 := Next(s1, Start(0, true), 1);
    var s3 := Next(s2, Finish(Handled(First)), 1);
    StepsCons(s, HookFind, [Start(0, true)] + end, 1);
    StepsCons(s1, Start(0, true), end, 1);
    StepsCons(s2, Finish(Handled(First)), last, 1);
    StepsCons(s3, HookSave(0, f, true), [], 1);
  }

  /** A duplicate delivery can dispatch a second job: two deliveries before a worker is there queue the event twice. */
  lemma DuplicateMayDispatchAgain(budget: nat)
    ensures Steps(UNSEEN, [Receive] + ([Enqueue] + ([Receive] + ([Enqueue] + []))), budget).queued == [0, 0]
  {
    var inserted := UNSEEN.(row := Some(INSERTED), deliveries := 1);
    var queued := inserted.(deliveries := 0, queued := [0], acked := true);
    var again := queued.(deliveries := 1);
    StepsCons(UNSEEN, Receive, [Enqueue] + ([Receive] + ([Enqueue] + [])), budget);
    StepsCons(inserted, Enqueue, [Receive] + ([Enqueue] + []), budget);
    StepsCons(queued, Receive, [Enqueue] + [], budget);
    StepsCons(again, Enqueue, [], budget);
    assert Step1(UNSEEN, Receive, budget) == inserted;
    assert Step1(inserted, Enqueue, budget) == queued;
    assert Step1(queued, Receive, budget) == again;
  }

  /** A replay keeps the safety property exactly when its dispatch is accepted or nobody counts on the reset row. */
  lemma ReplayIsSafe(s: Slot, seen: Row, dispatched: bool, budget: nat)
    requires Enabled(s, Replay(seen, dispatched)) && Safe(s) && Sound(s)
    ensures Safe(Next(s, Replay(seen, dispatched), budget)) <==>
            dispatched || Live(s) || (seen.status == Pending && !RowIs(s, Pending)) || (!s.acked && !Touched(s))
  {
  }

  /** A hook's save keeps it exactly when it is stored, other work is left, or the row was not waiting for it. */
  lemma HookIsSafe(s: Slot, index: nat, f: Failure, stored: bool, budget: nat)
    requires Enabled(s, HookSave(index, f, stored)) && Safe(s) && Sound(s)
    ensures Safe(Next(s, HookSave(index, f, stored), budget)) <==>
            (stored || !RowIs(s, Pending) || Live(s.(hooks := s.hooks[..index] + s.hooks[index + 1..]))
             || (!s.acked && !Touched(s)))
  {
    BuryingWithout(s, index);
  }

  /** Forgotten: touched, pending, and no job left. */
  predicate Stranded(s: Slot) {
    RowIs(s, Pending) && Touched(s) && !Live(s) && s.deliveries == 0
  }

  /**
   A stranded event stays stranded through every redelivery and every `--all-failed` replay, which does not see it;
   each redelivery is answered 200.
   */
  lemma {:induction false} StrandedStays(s: Slot, steps: seq<Step>, budget: nat)
    requires Stranded(s)
    requires forall k :: 0 <= k < |steps| ==> !steps[k].HandDispatch? && !steps[k].Replay?
    ensures Stranded(Steps(s, steps, budget))
    ensures Receive in steps ==> Steps(s, steps, budget).acked
    ensures s.acked ==> Steps(s, steps, budget).acked
    decreases |steps|
  {
    if steps != [] {
      if steps[0].HookSave? && Enabled(s, steps[0]) {
        BuryingWithout(s, steps[0].index);
      }
      StrandedStays(Step1(s, steps[0], budget), steps[1..], budget);
    }
  }

  lemma StepsCons(s: Slot, step: Step, rest: seq<Step>, budget: nat)
    ensures Steps(s, [step] + rest, budget) == Steps(Step1(s, step, budget), rest, budget)
  {
    assert ([step] + rest)[1..] == rest;
  }

  /** A run that ends so: the event fails for good, an operator replays it, and the queue refuses. */
  lemma RefusedReplayStrands(f: Failure, budget: nat)
    requires IsFatal(f)
    ensures var replay := [Replay(Row(Failed, 1, Some(f)), false)] + [];
            var run := [Receive] + ([Enqueue] + ([Start(0, true)] + ([Finish(Errored(f, true))] + replay)));
            Stranded(Steps(UNSEEN, run, budget)) && Steps(UNSEEN, run, budget).acked
  {
    var inserted := UNSEEN.(row := Some(INSERTED), deliveries := 1);
    var queued := inserted.(deliveries := 0, queued := [0], acked := true);
    var begun := queued.(row := Some(Begun(INSERTED)), queued := [], running := Some(Run(Begun(INSERTED), 0)));
    var failed := begun.(row := Some(Row(Failed, 1, Some(f))), running := None);
    var replay := [Replay(Row(Failed, 1, Some(f)), false)] + [];
    var finish := [Finish(Errored(f, true))] + replay;
    var start := [Start(0, true)] + finish;
    StepsCons(UNSEEN, Receive, [Enqueue] + start, budget);
    StepsCons(inserted, Enqueue, start, budget);
    StepsCons(queued, Start(0, true), finish, budget);
    StepsCons(begun, Finish(Errored(f, true)), replay, budget);
    StepsCons(failed, Replay(Row(Failed, 1, Some(f)), false), [], budget);
  }
}
