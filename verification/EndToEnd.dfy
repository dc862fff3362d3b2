/** The billing handlers in the webhook protocol: what an acknowledged subscription event comes to. */
module EndToEnd {
  import opened Json
  import opened StripeEvent
  import opened BillingErrors
  import opened Billing
  import opened Replay
  import opened SyncRace
  import opened SubscriptionRace
  import opened HandlerSteps
  import opened InFlight
  import opened Overlap
  import AgedHandlers
  import DeliveryOrder
  import Ledger
  import Pipeline

  function FreshRun(sc: Scene, w: World, hs: seq<Happening>, budget: nat): Pipe {
    Pipeline.Run(FreshHandler(sc.cfg, sc.events), Pipeline.Start(w), hs, budget)
  }

  /**
   The protocol run as a race of the subject's handlers: its start, its moves, and which runs are the newest event's.
   */
  function StartRace(sc: Scene, w: World): SubRace {
    Race(Row(w.mirror, sc.subject.id), Row(w.plans, sc.tenant), map[])
  }

  function Moves(sc: Scene, w: World, hs: seq<Happening>, budget: nat): seq<SyncRace.Move> {
    Trace(sc, Pipeline.Start(w), hs, budget)
  }

  function NewestRuns(sc: Scene, owner: map<nat, string>): nat -> bool {
    (r: nat) => Newest(sc, OwnerOf(sc, owner, r))
  }

  /**
   From the load of each newest run that saves, no other event's run saves the mirror row; from its find of the plan
   row, none writes that.
   */
  predicate Unhindered(sc: Scene, w: World, hs: seq<Happening>, budget: nat) {
    var owner := FreshRun(sc, w, hs, budget).owner;
    var targets, newest := Targets(sc, owner), NewestRuns(sc, owner);
    && RowUnhindered(SyncRules(), targets, newest, StartRace(sc, w), Moves(sc, w, hs, budget))
    && PlanUnhindered(SyncRules(), targets, newest, StartRace(sc, w), Moves(sc, w, hs, budget))
  }

  /** The scene is set: the newest event passes the guard, and all other events are older by more than five seconds. */
  ghost predicate Set(sc: Scene, w: World, hs: seq<Happening>, ids: set<string>) {
    && (forall k :: 0 <= k < |hs| ==> Pipeline.Assured(hs[k]) && hs[k].id in ids)
    && Proper(sc, ids) && Sole(sc, w) && InOrder(w.mirror, sc.subject.id, sc.events(sc.newest).created)
  }

  /** Answered 200, done with by the workers, and not failed. */
  predicate Through(system: Ledger.System, id: string) {
    var slot := Ledger.SlotOf(system, id);
    slot.acked && Pipeline.Idle(slot) && !Ledger.RowIs(slot, Ledger.Failed)
  }

  lemma StartRel(sc: Scene, w: World, ids: set<string>)
    requires Proper(sc, ids) && Sole(sc, w) && InOrder(w.mirror, sc.subject.id, sc.events(sc.newest).created)
    ensures Rel(sc, ids, Pipeline.Start(w), StartRace(sc, w))
  {
  }

  /** The protocol run and its race end alike. */
  lemma EndRel(sc: Scene, w: World, hs: seq<Happening>, budget: nat, ids: set<string>)
    requires Set(sc, w, hs, ids)
    ensures var p := FreshRun(sc, w, hs, budget);
            Rel(sc, ids, p,
                SyncRace.Run(SyncRules(), Targets(sc, p.owner), StartRace(sc, w), Moves(sc, w, hs, budget)))
  {
    StartRel(sc, w, ids);
    RunRel(sc, ids, Pipeline.Start(w), StartRace(sc, w), hs, budget, FreshRun(sc, w, hs, budget).owner);
  }

  /** When the newest event is through, one of its runs has saved. */
  lemma NewestSaved(sc: Scene, w: World, hs: seq<Happening>, budget: nat, ids: set<string>) returns (run: nat)
    requires Set(sc, w, hs, ids) && Through(FreshRun(sc, w, hs, budget).system, sc.newest)
    ensures var p := FreshRun(sc, w, hs, budget);
            && NewestRuns(sc, p.owner)(run)
            && HasSaved(PhaseOf(SyncRace.Run(SyncRules(), Targets(sc, p.owner), StartRace(sc, w),
                                             Moves(sc, w, hs, budget)), run))
  {
    var p := FreshRun(sc, w, hs, budget);
    var race := SyncRace.Run(SyncRules(), Targets(sc, p.owner), StartRace(sc, w), Moves(sc, w, hs, budget));
    Pipeline.AcknowledgedIsApplied(FreshHandler(sc.cfg, sc.events), w, hs, budget, sc.newest);
    run :| run in p.fine && run in p.owner && p.owner[run] == sc.newest;
    EndRel(sc, w, hs, budget, ids);
    assert FineHasSaved(sc, p, race, run);
  }

  lemma NewestTargets(sc: Scene, owner: map<nat, string>)
    ensures forall r: nat :: NewestRuns(sc, owner)(r) ==>
                               Targets(sc, owner)(r) == TargetOf(sc.cfg, sc.tenant, sc.events(sc.newest))
  {
  }

  /** Some newest run saves the mirror row, and from its load on only newest runs do. */
  predicate ClearRow(sc: Scene, w: World, hs: seq<Happening>, budget: nat) {
    var owner := FreshRun(sc, w, hs, budget).owner;
    RowClear(SyncRules(), Targets(sc, owner), NewestRuns(sc, owner), StartRace(sc, w), Moves(sc, w, hs, budget))
  }

  /** Some newest run writes the plan row, and from its find of that row on only newest runs do. */
  predicate ClearPlan(sc: Scene, w: World, hs: seq<Happening>, budget: nat) {
    var owner := FreshRun(sc, w, hs, budget).owner;
    PlanClear(SyncRules(), Targets(sc, owner), NewestRuns(sc, owner), StartRace(sc, w), Moves(sc, w, hs, budget))
  }

  /**
   The conditions of `SubscriptionRace.ShownExactly`, in the protocol: a clear row is shown, and so is a clear plan.
   */
  lemma ClearIsShown(sc: Scene, w: World, hs: seq<Happening>, budget: nat, ids: set<string>)
    requires Set(sc, w, hs, ids)
    ensures var p, want := FreshRun(sc, w, hs, budget), TargetOf(sc.cfg, sc.tenant, sc.events(sc.newest));
            && (ClearRow(sc, w, hs, budget) ==> Row(p.world.mirror, sc.subject.id) == Some(want.row))
            && (ClearPlan(sc, w, hs, budget) ==> Row(p.world.plans, sc.tenant) == Some(want.plan))
  {
    var owner, want := FreshRun(sc, w, hs, budget).owner, TargetOf(sc.cfg, sc.tenant, sc.events(sc.newest));
    var targets, newest, ms := Targets(sc, owner), NewestRuns(sc, owner), Moves(sc, w, hs, budget);
    SyncRulesLawful();
    NewestTargets(sc, owner);
    EndRel(sc, w, hs, budget, ids);
    if ClearRow(sc, w, hs, budget) {
      RowClearShows(SyncRules(), targets, newest, StartRace(sc, w), ms, want.row);
    }
    if ClearPlan(sc, w, hs, budget) {
      PlanClearShows(SyncRules(), targets, newest, StartRace(sc, w), ms, want.plan);
    }
  }

  lemma UnhinderedIsClear(sc: Scene, w: World, hs: seq<Happening>, budget: nat, ids: set<string>)
    requires Set(sc, w, hs, ids) && Unhindered(sc, w, hs, budget)
    requires Through(FreshRun(sc, w, hs, budget).system, sc.newest)
    ensures ClearRow(sc, w, hs, budget) && ClearPlan(sc, w, hs, budget)
  {
    var owner, ms := FreshRun(sc, w, hs, budget).owner, Moves(sc, w, hs, budget);
    var run := NewestSaved(sc, w, hs, budget, ids);
    UnhinderedRowClears(SyncRules(), Targets(sc, owner), NewestRuns(sc, owner), StartRace(sc, w), ms, run);
    UnhinderedPlanClears(SyncRules(), Targets(sc, owner), NewestRuns(sc, owner), StartRace(sc, w), ms, run);
  }

  lemma FreshNewestIsShown(sc: Scene, w: World, hs: seq<Happening>, budget: nat, ids: set<string>)
    requires Set(sc, w, hs, ids) && Unhindered(sc, w, hs, budget)
    requires Through(FreshRun(sc, w, hs, budget).system, sc.newest)
    ensures var p := FreshRun(sc, w, hs, budget);
            Sole(sc, p.world) && DeliveryOrder.Shows(sc.cfg, sc.subject, p.world, sc.events(sc.newest))
  {
    UnhinderedIsClear(sc, w, hs, budget, ids);
    ClearIsShown(sc, w, hs, budget, ids);
    EndRel(sc, w, hs, budget, ids);
  }

  /** The mirror row, but for the stored object, and the plan row are what the event says. */
  ghost predicate ShowsButRaw(cfg: Config, s: DeliveryOrder.Subject, w: World, e: Event)
    requires DeliveryOrder.Applies(cfg, s, e) && s.customer in w.customers
  {
    var row := DeliveryOrder.MirrorFor(cfg, e, w.customers[s.customer].tenant);
    && s.id in w.mirror && w.mirror[s.id] == row.(raw := w.mirror[s.id].raw)
    && row.tenant in w.plans && w.plans[row.tenant] == DeliveryOrder.PlanRowFor(cfg, e)
  }

  lemma ShownButRaw(cfg: Config, s: DeliveryOrder.Subject, a: World, b: World, e: Event)
    requires DeliveryOrder.Applies(cfg, s, e) && s.customer in a.customers && SameButRaw(a, b)
    requires DeliveryOrder.Shows(cfg, s, a, e)
    ensures s.customer in b.customers && ShowsButRaw(cfg, s, b, e)
  {
  }

  /**
   The protocol as a whole. Over every run of deliveries (duplicated, reordered), refused dispatches, crashes between
   any two awaits, failed saves, retries, hooks and replays, with handlers of any events overlapping and any of the
   events rebuilt from their stored copies: once the newest event of a subscription has been answered 200 and the
   workers are done with it, either its row says failed, or the mirror and the tenant's plan are what that event says,
   provided that no handler of an older event of the subscription writes them after a newest run that saves has read
   them.
   */
  lemma AcknowledgedNewestIsShown(sc: Scene, w: World, hs: seq<Happening>, budget: nat, ids: set<string>)
    requires Set(sc, w, hs, ids) && Unhindered(sc, w, hs, budget)
    requires forall id :: id in ids ==> ReadsAlike(sc.events(id))
    ensures var q := Pipeline.Run(AgedHandlers.Handler(sc.cfg, sc.events), Pipeline.Start(w), hs, budget);
            Through(q.system, sc.newest) ==>
            sc.subject.customer in q.world.customers &&
            ShowsButRaw(sc.cfg, sc.subject, q.world, sc.events(sc.newest))
  {
    var p := FreshRun(sc, w, hs, budget);
    var q := Pipeline.Run(AgedHandlers.Handler(sc.cfg, sc.events), Pipeline.Start(w), hs, budget);
    AgedHandlers.AgingChangesNothing(sc.cfg, sc.events, w, hs, budget, ids);
    if Through(p.system, sc.newest) {
      FreshNewestIsShown(sc, w, hs, budget, ids);
      ShownButRaw(sc.cfg, sc.subject, p.world, q.world, sc.events(sc.newest));
    }
  }

  /** Every move of the subject's handlers finds no other one between its load and its save. */
  predicate Serial(sc: Scene, w: World, hs: seq<Happening>, budget: nat) {
    OneAtATime(SyncRules(), Targets(sc, FreshRun(sc, w, hs, budget).owner), StartRace(sc, w), Moves(sc, w, hs, budget))
  }

  lemma SyncRulesTimed()
    ensures Timed(SyncRules())
  {
    forall c: Mirror, l: Mirror, n: Mirror
      ensures SyncRules().at(SyncRules().mergeRow(c, l, n)) ==
              RaceExact.Changed(SyncRules().at(c), SyncRules().at(l), SyncRules().at(n)) {
      MergedTime(c, l, n);
    }
  }

  lemma NewestApart(sc: Scene, owner: map<nat, string>, ids: set<string>)
    requires Proper(sc, ids) && Among(owner, ids)
    ensures Overlap.Apart(SyncRules(), Targets(sc, owner), NewestRuns(sc, owner), sc.events(sc.newest).created)
  {
    forall r: nat
      ensures Ours(sc, OwnerOf(sc, owner, r))
      ensures SyncRules().at(Targets(sc, owner)(r).row) == sc.events(OwnerOf(sc, owner, r)).created {
      AppliesReads(sc, sc.events(OwnerOf(sc, owner, r)));
    }
  }

  /** With one handler of the subscription at a time, in whatever order, nothing hinders the newest event. */
  lemma SerialIsUnhindered(sc: Scene, w: World, hs: seq<Happening>, budget: nat, ids: set<string>)
    requires Set(sc, w, hs, ids) && Serial(sc, w, hs, budget)
    ensures Unhindered(sc, w, hs, budget)
  {
    var owner := FreshRun(sc, w, hs, budget).owner;
    SyncRulesTimed();
    OwnersAreIds(sc, ids, Pipeline.Start(w), hs, budget);
    NewestApart(sc, owner, ids);
    OneAtATimeIsUnhindered(SyncRules(), Targets(sc, owner), NewestRuns(sc, owner), StartRace(sc, w),
                           Moves(sc, w, hs, budget), sc.events(sc.newest).created);
  }

  /** Stripe's answer to `events.retrieve`: the event, a 404, or any other failure. */
  datatype Answer = Present(event: Json) | Gone(failure: Failure) | Refused(failure: Failure)

  datatype Fetched = Fetched(event: Json) | Failed(failure: Failure)

  /** `retrieveEvent`: the stored copy stands in only for an event that is gone, and only if it can be rebuilt. */
  method RetrieveEvent(answer: Answer, payload: Option<Json>) returns (r: Fetched)
    ensures answer.Present? ==> r == Fetched.Fetched(answer.event)
    ensures answer.Refused? ==> r == Fetched.Failed(answer.failure)
    ensures answer.Gone? && RebuildStripeEvent(payload).Some? ==> r == Fetched.Fetched(payload.value)
    ensures answer.Gone? && RebuildStripeEvent(payload).None? ==> r == Fetched.Failed(answer.failure)
  {
    match answer
    case Present(event) => return Fetched.Fetched(event);
    case Refused(failure) => return Fetched.Failed(failure);
    case Gone(failure) =>
      if Truthy(payload) {
        var local := RebuildStripeEvent(payload);
        if local.Some? {
          return Fetched.Fetched(local.value);
        }
      }
      return Fetched.Failed(failure);
  }

  /** What an aged-out event is fetched as, when its row holds the copy that the webhook stored. */
  lemma AgedOutIsReplayed(e: Event, name: EventType -> string, typeOf: string -> EventType)
    requires typeOf(name(e.etype)) == e.etype
    ensures RebuildStripeEvent(Some(ToReplayablePayload(e, name))).Some?
    ensures EventOf(RebuildStripeEvent(Some(ToReplayablePayload(e, name))).value, typeOf) == Replayed(e)
  {
    RebuildGivesReplayed(e, name, typeOf);
  }
}
