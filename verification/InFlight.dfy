/**
 The webhook protocol on the billing tables: what it does to one subscription is a race of that subscription's runs.
 */
module InFlight {
  import opened Json
  import opened StripeEvent
  import opened Billing
  import opened SyncRace
  import opened SubscriptionRace
  import opened HandlerSteps
  import DeliveryOrder
  import Ledger
  import Pipeline
  import RaceExact

  /** What a round trip meets; `aged` when Stripe no longer has the event and its stored copy is rebuilt. */
  datatype Circumstance = Circumstance(now: int, fault: Fault, aged: bool)

  function VerdictOf(p: Progress): Option<Pipeline.Verdict> {
    if !p.Ended? then None
    else Some(if p.outcome.Threw? then Pipeline.Failing(p.outcome.failure) else Pipeline.Fine)
  }

  /** The handler of each event, on the event as Stripe holds it. */
  function FreshHandler(cfg: Config, events: string -> Event): Pipeline.Handler<World, Progress, Circumstance> {
    Pipeline.Handler(
      Waiting,
      (w: World, id: string, p: Progress, c: Circumstance) => Advance(cfg, w, p, events(id), c.now, c.fault),
      (p: Progress) => VerdictOf(p))
  }

  type Pipe = Pipeline.Pipe<World, Progress>
  type Happening = Pipeline.Happening<Circumstance>

  /** One subscription of one tenant, its newest event, and the events around it. */
  datatype Scene = Scene(cfg: Config, subject: DeliveryOrder.Subject, tenant: string, events: string -> Event,
                         newest: string)

  predicate Ours(sc: Scene, id: string) {
    DeliveryOrder.Applies(sc.cfg, sc.subject, sc.events(id))
  }

  /** An event that neither writes the subject's mirror row nor assigns its tenant's plan. */
  predicate Elsewhere(sc: Scene, e: Event) {
    var c := Read(e);
    && (c.SyncSub? ==> c.sub.id != Some(sc.subject.id) && c.sub.customer != Some(sc.subject.customer))
    && (c.NotePaid? ==> c.invoice.subscription != Some(sc.subject.id))
    && (c.NoteNotPaid? ==>
          && c.invoice.subscription != Some(sc.subject.id)
          && (c.invoice.customer == Some(sc.subject.customer) ==>
              !sc.cfg.downgradeOnDunning || sc.cfg.defaultPlan == ""))
  }

  predicate Newest(sc: Scene, id: string) {
    sc.events(id) == sc.events(sc.newest)
  }

  /** The subject's events stand apart from the newest by more than five seconds; all other events are elsewhere. */
  ghost predicate Proper(sc: Scene, ids: set<string>) {
    && Ours(sc, sc.newest)
    && forall id :: id in ids ==>
         || (Ours(sc, id) && (Newest(sc, id) || sc.events(id).created < sc.events(sc.newest).created - TOLERANCE))
         || (!Ours(sc, id) && Elsewhere(sc, sc.events(id)))
  }

  /** The tenant has this one Stripe customer. */
  predicate Sole(sc: Scene, w: World) {
    && sc.subject.customer in w.customers && w.customers[sc.subject.customer].tenant == sc.tenant
    && forall c :: c in w.customers && c != sc.subject.customer ==> w.customers[c].tenant != sc.tenant
  }

  /** The round trip of a subject's run, as moves of the race. */
  function WorkMoves(sc: Scene, w: World, p: Progress, fault: Fault, run: nat): seq<SyncRace.Move> {
    if p.Waiting? then [SyncRace.Move(run, Load)]
    else if p.Guarded? then [SyncRace.Move(run, if fault.PlanWriteFails? then Stop else Find)]
    else if p.PlanRead? then
      if p.seen == Some(TargetOf(sc.cfg, sc.tenant, p.event).plan) then [SyncRace.Move(run, Assign)]
      else if fault.PlanWriteFails? then [SyncRace.Move(run, Stop)]
      else if fault.CacheDeleteFails? then [SyncRace.Move(run, Assign), SyncRace.Move(run, Stop)]
      else [SyncRace.Move(run, Assign)]
    else if p.PlanKept? then [SyncRace.Move(run, if fault.RowSaveFails? then Stop else Save)]
    else []
  }

  function RaceMoves(sc: Scene, p: Pipe, h: Happening): seq<SyncRace.Move> {
    if !Pipeline.Possible(FreshHandler(sc.cfg, sc.events), p, h) || h.id !in p.attempts || !Ours(sc, h.id) then []
    else if h.move.Work? then WorkMoves(sc, p.world, p.attempts[h.id].state, h.move.how.fault, p.attempts[h.id].run)
    else if h.move.Take? && h.move.step.Crash? then [SyncRace.Move(p.attempts[h.id].run, Stop)]
    else []
  }

  /** The race that a run of the protocol is for the subject. */
  function Trace(sc: Scene, p: Pipe, hs: seq<Happening>, budget: nat): seq<SyncRace.Move>
    decreases |hs|
  {
    if hs == [] then []
    else
      RaceMoves(sc, p, hs[0])
      + Trace(sc, Pipeline.After(FreshHandler(sc.cfg, sc.events), p, hs[0], budget), hs[1..], budget)
  }

  /** Whose a run is. Runs of other subjects' events, and numbers not given out yet, never move in the race. */
  function OwnerOf(sc: Scene, owner: map<nat, string>, run: nat): string {
    if run in owner && Ours(sc, owner[run]) then owner[run] else sc.newest
  }

  function Targets(sc: Scene, owner: map<nat, string>): nat -> Target<Mirror, PlanRow> {
    (r: nat) => TargetOf(sc.cfg, sc.tenant, sc.events(OwnerOf(sc, owner, r)))
  }

  type SubRace = Race<Mirror, PlanRow>

  /** A run's place in the race is its handler's progress. */
  predicate Tracks(sc: Scene, id: string, phase: Phase<Mirror, PlanRow>, p: Progress) {
    && (p.Waiting? ==> phase == Phase.Idle)
    && (p.Guarded? ==> phase == Loaded(p.snapshot))
    && (p.PlanRead? ==> phase == Found(p.snapshot, p.seen))
    && (p.PlanKept? ==> phase == Assigned(p.snapshot))
    && (p.Guarded? || p.PlanRead? || p.PlanKept? ==> p.event == sc.events(id) && p.tenant == sc.tenant)
    && (p.Ended? ==> phase.Over? && (Newest(sc, id) && !p.outcome.Threw? ==> HasSaved(phase)))
  }

  /** A run of another event has nothing of the subject's in hand. */
  predicate Apart(sc: Scene, id: string, p: Progress) {
    p.Guarded? || p.PlanRead? || p.PlanKept? ==> p.event == sc.events(id) && p.tenant != sc.tenant
  }

  /** The newest event's time bounds the row's, up to the guard's tolerance. */
  predicate Low(sc: Scene, row: Option<Mirror>) {
    row.Some? ==> row.value.lastEventAt <= sc.events(sc.newest).created + TOLERANCE
  }

  lemma OneMove(targets: nat -> Target<Mirror, PlanRow>, race: SubRace, m: SyncRace.Move)
    ensures SyncRace.Run(SyncRules(), targets, race, [m]) == Step(SyncRules(), targets, race, m)
  {
    assert [m][1..] == [];
    assert SyncRace.Run(SyncRules(), targets, Step(SyncRules(), targets, race, m), []) ==
           Step(SyncRules(), targets, race, m);
  }

  lemma TwoMoves(targets: nat -> Target<Mirror, PlanRow>, race: SubRace, m: SyncRace.Move, n: SyncRace.Move)
    ensures SyncRace.Run(SyncRules(), targets, race, [m, n]) ==
            Step(SyncRules(), targets, Step(SyncRules(), targets, race, m), n)
  {
    assert [m, n][1..] == [n];
    OneMove(targets, Step(SyncRules(), targets, race, m), n);
  }

  /** Only this run has moved. */
  ghost predicate MovedAlone(race: SubRace, race': SubRace, run: nat) {
    && race'.runs.Keys <= race.runs.Keys + {run}
    && forall q: nat :: q != run ==> PhaseOf(race', q) == PhaseOf(race, q)
  }

  lemma StepMovesAlone(targets: nat -> Target<Mirror, PlanRow>, race: SubRace, m: SyncRace.Move)
    ensures MovedAlone(race, Step(SyncRules(), targets, race, m), m.run)
  {
  }

  /** The tables agree with the race about the subject. */
  predicate Agrees(sc: Scene, w: World, race: SubRace) {
    && Sole(sc, w) && Low(sc, race.row)
    && race.row == Row(w.mirror, sc.subject.id) && race.plan == Row(w.plans, sc.tenant)
  }

  /** What an applicable event asks for. */
  lemma AppliesReads(sc: Scene, e: Event)
    requires DeliveryOrder.Applies(sc.cfg, sc.subject, e)
    ensures var c := Read(e);
            && c.SyncSub? && c.at == e.created
            && TargetOf(sc.cfg, sc.tenant, e).row.lastEventAt == e.created
            && TargetOf(sc.cfg, sc.tenant, e).plan == PlanRow(PlanFor(sc.cfg, c.sub, c.downgrade), "stripe", None)
  {
  }

  lemma LoadTracks(sc: Scene, id: string, w: World, now: int, fault: Fault, run: nat, race: SubRace,
                   targets: nat -> Target<Mirror, PlanRow>)
    requires Ours(sc, id) && Agrees(sc, w, race) && Tracks(sc, id, PhaseOf(race, run), Waiting)
    requires targets(run) == TargetOf(sc.cfg, sc.tenant, sc.events(id))
    ensures var r := Advance(sc.cfg, w, Waiting, sc.events(id), now, fault);
            var race' := Step(SyncRules(), targets, race, SyncRace.Move(run, Load));
            Agrees(sc, r.0, race') && Tracks(sc, id, PhaseOf(race', run), r.1)
  {
    AppliesReads(sc, sc.events(id));
  }

  lemma FindTracks(sc: Scene, id: string, w: World, p: Progress, fault: Fault, run: nat, race: SubRace,
                   targets: nat -> Target<Mirror, PlanRow>)
    requires Ours(sc, id) && Agrees(sc, w, race) && p.Guarded? && Tracks(sc, id, PhaseOf(race, run), p)
    ensures var race' := Step(SyncRules(), targets, race,
                              SyncRace.Move(run, if fault.PlanWriteFails? then Stop else Find));
            Agrees(sc, w, race') && Tracks(sc, id, PhaseOf(race', run), FindPlan(sc.cfg, w, p, fault))
  {
    AppliesReads(sc, sc.events(id));
  }

  lemma AssignTracks(sc: Scene, id: string, w: World, p: Progress, fault: Fault, run: nat, race: SubRace,
                     targets: nat -> Target<Mirror, PlanRow>)
    requires Ours(sc, id) && Agrees(sc, w, race) && p.PlanRead? && Tracks(sc, id, PhaseOf(race, run), p)
    requires targets(run) == TargetOf(sc.cfg, sc.tenant, sc.events(id))
    requires p.seen == Some(targets(run).plan) || fault.NoFault? || fault.RowSaveFails?
    ensures var r := WritePlan(sc.cfg, w, p, fault);
            var race' := Step(SyncRules(), targets, race, SyncRace.Move(run, Assign));
            Agrees(sc, r.0, race') && Tracks(sc, id, PhaseOf(race', run), r.1)
  {
  }

  lemma CutAssignTracks(sc: Scene, id: string, w: World, p: Progress, run: nat, race: SubRace,
                        targets: nat -> Target<Mirror, PlanRow>)
    requires Ours(sc, id) && Agrees(sc, w, race) && p.PlanRead? && Tracks(sc, id, PhaseOf(race, run), p)
    requires targets(run) == TargetOf(sc.cfg, sc.tenant, sc.events(id)) && p.seen != Some(targets(run).plan)
    ensures var r := WritePlan(sc.cfg, w, p, CacheDeleteFails);
            var race1 := Step(SyncRules(), targets, race, SyncRace.Move(run, Assign));
            var race' := Step(SyncRules(), targets, race1, SyncRace.Move(run, Stop));
            Agrees(sc, r.0, race') && Tracks(sc, id, PhaseOf(race', run), r.1)
  {
  }

  /** The save in the table is the save in the race. */
  lemma SavedAlike(sc: Scene, w: World, p: Progress, fault: Fault, run: nat, race: SubRace,
                   targets: nat -> Target<Mirror, PlanRow>)
    requires p.PlanKept? && PhaseOf(race, run) == Assigned(p.snapshot) && race.row == Row(w.mirror, sc.subject.id)
    ensures var r := SaveAs(w, p, sc.subject.id, targets(run).row, fault);
            var race' := Step(SyncRules(), targets, race,
                              SyncRace.Move(run, if fault.RowSaveFails? then Stop else Save));
            && r.0 == w.(mirror := r.0.mirror) && Row(r.0.mirror, sc.subject.id) == race'.row && race'.plan == race.plan
            && (race'.row == race.row
                || race'.row == SyncRace.Put(SyncRules().mergeRow, race.row, p.snapshot, targets(run).row))
            && r.1.Ended? && PhaseOf(race', run).Over? && (!r.1.outcome.Threw? ==> HasSaved(PhaseOf(race', run)))
  {
  }

  lemma SaveTracks(sc: Scene, id: string, w: World, p: Progress, fault: Fault, run: nat, race: SubRace,
                   targets: nat -> Target<Mirror, PlanRow>)
    requires Ours(sc, id) && Agrees(sc, w, race) && p.PlanKept? && Tracks(sc, id, PhaseOf(race, run), p)
    requires targets(run) == TargetOf(sc.cfg, sc.tenant, sc.events(id))
    requires sc.events(id).created <= sc.events(sc.newest).created
    ensures var r := SaveRow(sc.cfg, w, p, fault);
            var race' := Step(SyncRules(), targets, race,
                              SyncRace.Move(run, if fault.RowSaveFails? then Stop else Save));
            Agrees(sc, r.0, race') && Tracks(sc, id, PhaseOf(race', run), r.1)
  {
    AppliesReads(sc, sc.events(id));
    SavedAlike(sc, w, p, fault, run, race, targets);
    if race.row.Some? && p.snapshot.Some? {
      MergedTime(race.row.value, p.snapshot.value, targets(run).row);
    }
  }

  /** What the race sees of the tables. */
  predicate SameForSubject(sc: Scene, w: World, w': World) {
    && Row(w'.mirror, sc.subject.id) == Row(w.mirror, sc.subject.id)
    && Row(w'.plans, sc.tenant) == Row(w.plans, sc.tenant)
    && (Sole(sc, w) ==> Sole(sc, w'))
  }

  lemma CheckoutElsewhere(sc: Scene, w: World, v: CheckoutView, fault: Fault)
    requires Sole(sc, w)
    ensures SameForSubject(sc, w, HandleCheckout(w, v, fault).0)
  {
    if v.tenant == Some(sc.tenant) {
      assert TenantKnown(w.customers, sc.tenant);
    }
  }

  lemma PerformElsewhere(sc: Scene, w: World, e: Event, now: int, fault: Fault)
    requires Sole(sc, w) && Elsewhere(sc, e) && !Read(e).SyncSub?
    ensures SameForSubject(sc, w, Perform(sc.cfg, w, Read(e), now, fault).0)
  {
    var c := Read(e);
    if c.LinkCustomer? {
      CheckoutElsewhere(sc, w, c.checkout, fault);
    }
  }

  lemma ElsewhereTracks(sc: Scene, id: string, w: World, p: Progress, now: int, fault: Fault)
    requires Sole(sc, w) && !Ours(sc, id) && Elsewhere(sc, sc.events(id)) && Apart(sc, id, p)
    ensures var r := Advance(sc.cfg, w, p, sc.events(id), now, fault); SameForSubject(sc, w, r.0) && Apart(sc, id, r.1)
  {
    if p.Waiting? && !Read(sc.events(id)).SyncSub? {
      PerformElsewhere(sc, w, sc.events(id), now, fault);
    }
  }

  /** One round trip of one of the subject's runs. */
  lemma WorkTracks(sc: Scene, id: string, w: World, p: Progress, now: int, fault: Fault, run: nat, race: SubRace,
                   targets: nat -> Target<Mirror, PlanRow>)
    requires Ours(sc, id) && Agrees(sc, w, race) && VerdictOf(p).None? && Tracks(sc, id, PhaseOf(race, run), p)
    requires targets(run) == TargetOf(sc.cfg, sc.tenant, sc.events(id))
    requires sc.events(id).created <= sc.events(sc.newest).created
    ensures var r := Advance(sc.cfg, w, p, sc.events(id), now, fault);
            var race' := SyncRace.Run(SyncRules(), targets, race, WorkMoves(sc, w, p, fault, run));
            Agrees(sc, r.0, race') && Tracks(sc, id, PhaseOf(race', run), r.1) && MovedAlone(race, race', run)
  {
    var ms := WorkMoves(sc, w, p, fault, run);
    OneMove(targets, race, ms[0]);
    StepMovesAlone(targets, race, ms[0]);
    if p.Waiting? {
      LoadTracks(sc, id, w, now, fault, run, race, targets);
    } else if p.Guarded? {
      FindTracks(sc, id, w, p, fault, run, race, targets);
    } else if p.PlanRead? {
      PlanWorkTracks(sc, id, w, p, fault, run, race, targets);
    } else {
      SaveTracks(sc, id, w, p, fault, run, race, targets);
    }
  }

  lemma PlanWorkTracks(sc: Scene, id: string, w: World, p: Progress, fault: Fault, run: nat, race: SubRace,
                       targets: nat -> Target<Mirror, PlanRow>)
    requires Ours(sc, id) && Agrees(sc, w, race) && p.PlanRead? && Tracks(sc, id, PhaseOf(race, run), p)
    requires targets(run) == TargetOf(sc.cfg, sc.tenant, sc.events(id))
    ensures var r := WritePlan(sc.cfg, w, p, fault);
            var race' := SyncRace.Run(SyncRules(), targets, race, WorkMoves(sc, w, p, fault, run));
            Agrees(sc, r.0, race') && Tracks(sc, id, PhaseOf(race', run), r.1) && MovedAlone(race, race', run)
  {
    var ms := WorkMoves(sc, w, p, fault, run);
    StepMovesAlone(targets, race, ms[0]);
    if |ms| == 2 {
      TwoMoves(targets, race, ms[0], ms[1]);
      StepMovesAlone(targets, Step(SyncRules(), targets, race, ms[0]), ms[1]);
      CutAssignTracks(sc, id, w, p, run, race, targets);
    } else {
      OneMove(targets, race, ms[0]);
      if p.seen == Some(targets(run).plan) || !fault.PlanWriteFails? {
        AssignTracks(sc, id, w, p, fault, run, race, targets);
      }
    }
  }

  /** Each attempt in progress is where the race has it. */
  predicate AttemptTracks(sc: Scene, p: Pipe, race: SubRace, id: string)
    requires id in p.attempts
  {
    if Ours(sc, id) then Tracks(sc, id, PhaseOf(race, p.attempts[id].run), p.attempts[id].state)
    else Apart(sc, id, p.attempts[id].state)
  }

  /** A newest run whose handler ended well has saved. */
  predicate FineHasSaved(sc: Scene, p: Pipe, race: SubRace, r: nat) {
    r in p.fine && r in p.owner && Newest(sc, p.owner[r]) ==> HasSaved(PhaseOf(race, r))
  }

  ghost predicate Rel(sc: Scene, ids: set<string>, p: Pipe, race: SubRace) {
    && Pipeline.Inv(p) && Agrees(sc, p.world, race)
    && (forall id :: id in p.attempts ==> id in ids && AttemptTracks(sc, p, race, id))
    && (forall r :: r in race.runs ==> r in p.owner)
    && (forall r :: r in p.fine ==> FineHasSaved(sc, p, race, r))
  }

  /** Attempts that do not move in the race keep their place. */
  lemma OthersTrack(sc: Scene, p: Pipe, race: SubRace, race': SubRace, run: nat, id: string)
    requires Pipeline.Inv(p) && id in p.attempts && AttemptTracks(sc, p, race, id)
    requires MovedAlone(race, race', run) && p.attempts[id].run != run
    ensures AttemptTracks(sc, p, race', id)
  {
  }

  /** A run of the subject has moved, in the tables and in the race alike. */
  lemma RelMoved(sc: Scene, ids: set<string>, p: Pipe, q: Pipe, race: SubRace, race': SubRace, id: string)
    requires Rel(sc, ids, p, race) && Pipeline.Inv(q) && q.owner == p.owner && q.fine == p.fine
    requires id in p.attempts && Ours(sc, id) && q.attempts.Keys == p.attempts.Keys
             && VerdictOf(p.attempts[id].state).None?
    requires forall o :: o in p.attempts && o != id ==> q.attempts[o] == p.attempts[o]
    requires q.attempts[id].run == p.attempts[id].run && AttemptTracks(sc, q, race', id)
    requires Agrees(sc, q.world, race') && MovedAlone(race, race', p.attempts[id].run)
    ensures Rel(sc, ids, q, race')
  {
    var run := p.attempts[id].run;
    assert AttemptTracks(sc, p, race, id);
    forall o | o in q.attempts ensures o in ids && AttemptTracks(sc, q, race', o) {
      if o != id {
        assert p.owner[p.attempts[o].run] == o && p.owner[run] == id;
        OthersTrack(sc, p, race, race', run, o);
      }
    }
    forall r | r in q.fine ensures FineHasSaved(sc, q, race', r) {
      assert FineHasSaved(sc, p, race, r);
    }
  }

  lemma OwnWorkRel(sc: Scene, ids: set<string>, p: Pipe, race: SubRace, id: string, c: Circumstance,
                   targets: nat -> Target<Mirror, PlanRow>)
    requires Proper(sc, ids) && Rel(sc, ids, p, race) && id in p.attempts && Ours(sc, id)
    requires VerdictOf(p.attempts[id].state).None?
    requires targets(p.attempts[id].run) == TargetOf(sc.cfg, sc.tenant, sc.events(id))
    ensures var a := p.attempts[id];
            Rel(sc, ids, Pipeline.Advanced(FreshHandler(sc.cfg, sc.events), p, id, c),
                SyncRace.Run(SyncRules(), targets, race, WorkMoves(sc, p.world, a.state, c.fault, a.run)))
  {
    var a := p.attempts[id];
    var q := Pipeline.Advanced(FreshHandler(sc.cfg, sc.events), p, id, c);
    Pipeline.AdvancedKeepsInv(FreshHandler(sc.cfg, sc.events), p, id, c);
    assert id in ids && AttemptTracks(sc, p, race, id);
    WorkTracks(sc, id, p.world, a.state, c.now, c.fault, a.run, race, targets);
    RelMoved(sc, ids, p, q, race,
             SyncRace.Run(SyncRules(), targets, race, WorkMoves(sc, p.world, a.state, c.fault, a.run)), id);
  }

  lemma OtherWorkRel(sc: Scene, ids: set<string>, p: Pipe, race: SubRace, id: string, c: Circumstance)
    requires Proper(sc, ids) && Rel(sc, ids, p, race) && id in p.attempts && !Ours(sc, id)
    ensures Rel(sc, ids, Pipeline.Advanced(FreshHandler(sc.cfg, sc.events), p, id, c), race)
  {
    var a := p.attempts[id];
    var q := Pipeline.Advanced(FreshHandler(sc.cfg, sc.events), p, id, c);
    Pipeline.AdvancedKeepsInv(FreshHandler(sc.cfg, sc.events), p, id, c);
    assert id in ids && AttemptTracks(sc, p, race, id);
    ElsewhereTracks(sc, id, p.world, a.state, c.now, c.fault);
    forall o | o in q.attempts ensures o in ids && AttemptTracks(sc, q, race, o) {
      assert AttemptTracks(sc, p, race, o);
    }
    forall r | r in q.fine ensures FineHasSaved(sc, q, race, r) {
      assert FineHasSaved(sc, p, race, r);
    }
  }

  /** What keeps the relation while the tables stand still: attempts go on, end, or start under a new number. */
  lemma RelKept(sc: Scene, ids: set<string>, p: Pipe, q: Pipe, race: SubRace)
    requires Rel(sc, ids, p, race) && Pipeline.Inv(q) && q.world == p.world && q.fine == p.fine
    requires forall r :: r in p.owner ==> r in q.owner && q.owner[r] == p.owner[r]
    requires forall o :: o in q.attempts ==>
               || (o in p.attempts && q.attempts[o] == p.attempts[o])
               || (o in ids && q.attempts[o].state == Waiting && q.attempts[o].run !in p.owner)
    ensures Rel(sc, ids, q, race)
  {
    forall o | o in q.attempts ensures o in ids && AttemptTracks(sc, q, race, o) {
      if o in p.attempts && q.attempts[o] == p.attempts[o] {
        assert AttemptTracks(sc, p, race, o);
      }
    }
    forall r | r in q.fine ensures FineHasSaved(sc, q, race, r) {
      assert FineHasSaved(sc, p, race, r) && r in p.owner;
    }
  }

  /** The start of an attempt; a run that nobody owned yet is idle. */
  lemma TakeRel(sc: Scene, ids: set<string>, p: Pipe, race: SubRace, id: string, step: Ledger.Step, budget: nat)
    requires Rel(sc, ids, p, race) && id in ids && Ledger.Enabled(Ledger.SlotOf(p.system, id), step)
    requires !step.Finish? && Ledger.Assured(step)
    ensures Rel(sc, ids, Pipeline.Taken(FreshHandler(sc.cfg, sc.events), p, id, step, budget), race)
  {
    Pipeline.TakenKeepsInv(FreshHandler(sc.cfg, sc.events), p, id, step, budget);
    Pipeline.TakenShape(FreshHandler(sc.cfg, sc.events), p, id, step, budget);
    RelKept(sc, ids, p, Pipeline.Taken(FreshHandler(sc.cfg, sc.events), p, id, step, budget), race);
  }

  /** A stopped run that is nobody's attempt any more. */
  lemma StopRel(sc: Scene, ids: set<string>, p: Pipe, race: SubRace, run: nat, targets: nat -> Target<Mirror, PlanRow>)
    requires Rel(sc, ids, p, race) && run in p.owner
    requires forall o :: o in p.attempts ==> p.attempts[o].run != run
    ensures Rel(sc, ids, p, Step(SyncRules(), targets, race, SyncRace.Move(run, Stop)))
  {
    var race' := Step(SyncRules(), targets, race, SyncRace.Move(run, Stop));
    StepMovesAlone(targets, race, SyncRace.Move(run, Stop));
    forall o | o in p.attempts ensures o in ids && AttemptTracks(sc, p, race', o) {
      OthersTrack(sc, p, race, race', run, o);
    }
    forall r | r in p.fine ensures FineHasSaved(sc, p, race', r) {
      assert FineHasSaved(sc, p, race, r);
    }
  }

  /** A crash stops a run of the subject wherever it is. */
  lemma CrashRel(sc: Scene, ids: set<string>, p: Pipe, race: SubRace, id: string, budget: nat,
                 targets: nat -> Target<Mirror, PlanRow>)
    requires Rel(sc, ids, p, race) && id in p.attempts && Ledger.Enabled(Ledger.SlotOf(p.system, id), Ledger.Crash)
    ensures var q := Pipeline.Taken(FreshHandler(sc.cfg, sc.events), p, id, Ledger.Crash, budget);
            && Rel(sc, ids, q, race)
            && Rel(sc, ids, q, Step(SyncRules(), targets, race, SyncRace.Move(p.attempts[id].run, Stop)))
  {
    var q := Pipeline.Taken(FreshHandler(sc.cfg, sc.events), p, id, Ledger.Crash, budget);
    assert id in ids;
    TakeRel(sc, ids, p, race, id, Ledger.Crash, budget);
    Pipeline.TakenShape(FreshHandler(sc.cfg, sc.events), p, id, Ledger.Crash, budget);
    var run := p.attempts[id].run;
    assert p.owner[run] == id;
    forall o | o in q.attempts ensures q.attempts[o].run != run {
      if o in p.attempts && q.attempts[o] == p.attempts[o] {
        assert p.owner[p.attempts[o].run] == o;
      }
    }
    StopRel(sc, ids, q, race, run, targets);
  }

  /** The end of an attempt leaves the race as it is. */
  lemma ConcludeRel(sc: Scene, ids: set<string>, p: Pipe, q: Pipe, race: SubRace, id: string, e: Ledger.Ending,
                    budget: nat)
    requires Rel(sc, ids, p, race) && id in p.attempts
    requires Ledger.Enabled(Ledger.SlotOf(p.system, id), Ledger.Finish(e))
    requires q == Pipeline.Stepped(p, id, Ledger.Finish(e), budget)
                  .(attempts := p.attempts - {id}, fine := if e.Handled? then p.fine + {p.attempts[id].run} else p.fine)
    requires e.Handled? ==> VerdictOf(p.attempts[id].state) == Some(Pipeline.Fine)
    requires Proper(sc, ids)
    ensures Rel(sc, ids, q, race)
  {
    Pipeline.ConcludedKeepsInv(p, q, id, e, budget);
    forall o | o in q.attempts ensures o in ids && AttemptTracks(sc, q, race, o) {
      assert AttemptTracks(sc, p, race, o);
    }
    forall r | r in q.fine ensures FineHasSaved(sc, q, race, r) {
      if r in p.fine {
        assert FineHasSaved(sc, p, race, r);
      } else {
        assert AttemptTracks(sc, p, race, id);
      }
    }
  }

  /** The final numbering agrees with this one as far as it goes. */
  predicate Extends(owner: map<nat, string>, own: map<nat, string>) {
    forall r :: r in owner ==> r in own && own[r] == owner[r]
  }

  /** One happening, in the protocol and in the race. */
  lemma AfterRel(sc: Scene, ids: set<string>, p: Pipe, race: SubRace, h: Happening, budget: nat, own: map<nat, string>)
    requires Proper(sc, ids) && Rel(sc, ids, p, race) && h.id in ids && Pipeline.Assured(h) && Extends(p.owner, own)
    ensures Rel(sc, ids, Pipeline.After(FreshHandler(sc.cfg, sc.events), p, h, budget),
                SyncRace.Run(SyncRules(), Targets(sc, own), race, RaceMoves(sc, p, h)))
  {
    var handler, targets := FreshHandler(sc.cfg, sc.events), Targets(sc, own);
    if !Pipeline.Possible(handler, p, h) {
    } else if h.move.Take? {
      if h.move.step.Crash? {
        CrashRel(sc, ids, p, race, h.id, budget, targets);
        OneMove(targets, race, SyncRace.Move(p.attempts[h.id].run, Stop));
      } else {
        TakeRel(sc, ids, p, race, h.id, h.move.step, budget);
      }
    } else if h.move.Work? {
      assert p.owner[p.attempts[h.id].run] == h.id;
      if Ours(sc, h.id) {
        OwnWorkRel(sc, ids, p, race, h.id, h.move.how, targets);
      } else {
        OtherWorkRel(sc, ids, p, race, h.id, h.move.how);
      }
    } else {
      EndRel(sc, ids, p, race, h, budget);
    }
  }

  lemma EndRel(sc: Scene, ids: set<string>, p: Pipe, race: SubRace, h: Happening, budget: nat)
    requires Proper(sc, ids) && Rel(sc, ids, p, race) && h.id in ids && (h.move.Unfetched? || h.move.Conclude?)
    requires Pipeline.Possible(FreshHandler(sc.cfg, sc.events), p, h)
    ensures Rel(sc, ids, Pipeline.After(FreshHandler(sc.cfg, sc.events), p, h, budget), race)
  {
    var q := Pipeline.After(FreshHandler(sc.cfg, sc.events), p, h, budget);
    if h.move.Unfetched? {
      ConcludeRel(sc, ids, p, q, race, h.id, Ledger.Errored(h.move.failure, h.move.saved), budget);
    } else {
      var v := VerdictOf(p.attempts[h.id].state).value;
      ConcludeRel(sc, ids, p, q, race, h.id, Pipeline.EndStep(v, h.move.save, h.move.stored).ending, budget);
    }
  }

  lemma {:induction false} OwnersGrow(sc: Scene, p: Pipe, hs: seq<Happening>, budget: nat)
    requires Pipeline.Inv(p) && forall k :: 0 <= k < |hs| ==> Pipeline.Assured(hs[k])
    ensures Extends(p.owner, Pipeline.Run(FreshHandler(sc.cfg, sc.events), p, hs, budget).owner)
    decreases |hs|
  {
    if hs != [] {
      Pipeline.AfterKeepsInv(FreshHandler(sc.cfg, sc.events), p, hs[0], budget);
      OwnersGrow(sc, Pipeline.After(FreshHandler(sc.cfg, sc.events), p, hs[0], budget), hs[1..], budget);
    }
  }

  predicate Among(owner: map<nat, string>, ids: set<string>) {
    forall r :: r in owner ==> owner[r] in ids
  }

  /** Attempts are of events of the run. */
  lemma {:induction false} OwnersAreIds(sc: Scene, ids: set<string>, p: Pipe, hs: seq<Happening>, budget: nat)
    requires Among(p.owner, ids) && forall k :: 0 <= k < |hs| ==> hs[k].id in ids
    ensures Among(Pipeline.Run(FreshHandler(sc.cfg, sc.events), p, hs, budget).owner, ids)
    decreases |hs|
  {
    if hs != [] {
      OwnersAreIds(sc, ids, Pipeline.After(FreshHandler(sc.cfg, sc.events), p, hs[0], budget), hs[1..], budget);
    }
  }

  lemma {:induction false} RunRel(sc: Scene, ids: set<string>, p: Pipe, race: SubRace, hs: seq<Happening>, budget: nat,
                                  own: map<nat, string>)
    requires Proper(sc, ids) && Rel(sc, ids, p, race)
    requires forall k :: 0 <= k < |hs| ==> hs[k].id in ids && Pipeline.Assured(hs[k])
    requires own == Pipeline.Run(FreshHandler(sc.cfg, sc.events), p, hs, budget).owner
    ensures Rel(sc, ids, Pipeline.Run(FreshHandler(sc.cfg, sc.events), p, hs, budget),
                SyncRace.Run(SyncRules(), Targets(sc, own), race, Trace(sc, p, hs, budget)))
    decreases |hs|
  {
    if hs != [] {
      var p1 := Pipeline.After(FreshHandler(sc.cfg, sc.events), p, hs[0], budget);
      var moves := RaceMoves(sc, p, hs[0]);
      OwnersGrow(sc, p, hs, budget);
      AfterRel(sc, ids, p, race, hs[0], budget, own);
      RunRel(sc, ids, p1, SyncRace.Run(SyncRules(), Targets(sc, own), race, moves), hs[1..], budget, own);
      RaceExact.RunSplit(SyncRules(), Targets(sc, own), race, moves, Trace(sc, p1, hs[1..], budget));
    }
  }
}
