/**
 The webhook protocol end to end: the ledger's steps, with each job attempt running the event's handler on the shared
 tables, one round trip at a time, and ending as the handler does. Attempts of different events interleave freely.
 */
module Pipeline {
  import opened Json
  import opened BillingErrors
  import Ledger

  datatype Verdict = Fine | Failing(failure: Failure)

  /**
   A handler from one await to the next: where it starts, what one round trip does, and how it has ended, if it has.
   */
  datatype Handler<!W, !H, !X> = Handler(idle: H, advance: (W, string, H, X) -> (W, H), verdict: H -> Option<Verdict>)

  /** A job attempt in progress. Attempts are numbered as they start. */
  datatype Attempt<H> = Attempt(run: nat, state: H)

  /**
   A ledger step other than the end of an attempt; a fetch of the event that fails, before the handler has begun; one
   round trip of the handler; or the end of an attempt whose handler has ended, with the row saved as well as the
   database allows.
   */
  datatype Move<X> =
    | Take(step: Ledger.Step)
    | Unfetched(failure: Failure, saved: bool)
    | Work(how: X)
    | Conclude(save: Ledger.Save, stored: bool)

  datatype Happening<X> = Happening(id: string, move: Move<X>)

  /** Ledger and queue, tables, attempts in progress; whose each attempt is, and which handlers have ended well. */
  datatype Pipe<W, H> = Pipe(
    system: Ledger.System, world: W, attempts: map<string, Attempt<H>>, owner: map<nat, string>, next: nat,
    fine: set<nat>)

  function Start<W, H>(w: W): Pipe<W, H> {
    Pipe(map[], w, map[], map[], 0, {})
  }

  function EndStep(v: Verdict, save: Ledger.Save, stored: bool): Ledger.Step {
    Ledger.Finish(if v.Fine? then Ledger.Handled(save) else Ledger.Errored(v.failure, stored))
  }

  predicate Possible<W, H(==), X>(handler: Handler<W, H, X>, p: Pipe<W, H>, h: Happening<X>) {
    var slot := Ledger.SlotOf(p.system, h.id);
    if h.move.Take? then !h.move.step.Finish? && Ledger.Enabled(slot, h.move.step)
    else
      && h.id in p.attempts && slot.running.Some? && slot.row.Some?
      && (h.move.Unfetched? ==> p.attempts[h.id].state == handler.idle)
      && (h.move.Work? ==> handler.verdict(p.attempts[h.id].state).None?)
      && (h.move.Conclude? ==> handler.verdict(p.attempts[h.id].state).Some?)
  }

  function Advanced<W, H, X>(handler: Handler<W, H, X>, p: Pipe<W, H>, id: string, how: X): Pipe<W, H>
    requires id in p.attempts
  {
    var a := p.attempts[id];
    var r := handler.advance(p.world, id, a.state, how);
    p.(world := r.0, attempts := p.attempts[id := a.(state := r.1)])
  }

  function Stepped<W, H>(p: Pipe<W, H>, id: string, step: Ledger.Step, budget: nat): Pipe<W, H>
    requires Ledger.Enabled(Ledger.SlotOf(p.system, id), step)
  {
    p.(system := p.system[id := Ledger.Next(Ledger.SlotOf(p.system, id), step, budget)])
  }

  /** Whether this step begins an attempt. */
  predicate Begins<W, H>(p: Pipe<W, H>, id: string, step: Ledger.Step, budget: nat)
    requires Ledger.Enabled(Ledger.SlotOf(p.system, id), step)
  {
    step.Start? && Ledger.Next(Ledger.SlotOf(p.system, id), step, budget).running.Some?
  }

  function Taken<W, H, X>(handler: Handler<W, H, X>, p: Pipe<W, H>, id: string, step: Ledger.Step, budget: nat)
    : Pipe<W, H>
    requires Ledger.Enabled(Ledger.SlotOf(p.system, id), step)
  {
    var q := Stepped(p, id, step, budget);
    if Begins(p, id, step, budget) then
      q.(attempts := p.attempts[id := Attempt(p.next, handler.idle)], owner := p.owner[p.next := id],
         next := p.next + 1)
    else if step.Crash? then q.(attempts := p.attempts - {id})
    else q
  }

  /** What is not possible does not happen. A crash leaves in the tables what the handler had written. */
  function After<W, H(==), X>(handler: Handler<W, H, X>, p: Pipe<W, H>, h: Happening<X>, budget: nat): Pipe<W, H> {
    if !Possible(handler, p, h) then p
    else if h.move.Take? then Taken(handler, p, h.id, h.move.step, budget)
    else if h.move.Work? then Advanced(handler, p, h.id, h.move.how)
    else if h.move.Unfetched? then
      Stepped(p, h.id, Ledger.Finish(Ledger.Errored(h.move.failure, h.move.saved)), budget)
      .(attempts := p.attempts - {h.id})
    else
      var a := p.attempts[h.id];
      var v := handler.verdict(a.state).value;
      Stepped(p, h.id, EndStep(v, h.move.save, h.move.stored), budget)
      .(attempts := p.attempts - {h.id}, fine := if v.Fine? then p.fine + {a.run} else p.fine)
  }

  function Run<W, H(==), X>(handler: Handler<W, H, X>, p: Pipe<W, H>, hs: seq<Happening<X>>, budget: nat): Pipe<W, H>
    decreases |hs|
  {
    if hs == [] then p else Run(handler, After(handler, p, hs[0], budget), hs[1..], budget)
  }

  lemma {:induction false} RunSplit<W, H, X>(handler: Handler<W, H, X>, p: Pipe<W, H>, hs: seq<Happening<X>>,
                                             rest: seq<Happening<X>>, budget: nat)
    ensures Run(handler, p, hs + rest, budget) == Run(handler, Run(handler, p, hs, budget), rest, budget)
    decreases |hs|
  {
    if hs == [] {
      assert hs + rest == rest;
    } else {
      assert (hs + rest)[1..] == hs[1..] + rest;
      RunSplit(handler, After(handler, p, hs[0], budget), hs[1..], rest, budget);
    }
  }

  /** A handler run of this event has ended well. */
  ghost predicate Landed<W, H>(p: Pipe<W, H>, id: string) {
    exists r :: r in p.fine && r in p.owner && p.owner[r] == id
  }

  ghost predicate Inv<W, H>(p: Pipe<W, H>) {
    && (forall id :: Ledger.Safe(Ledger.SlotOf(p.system, id)) && Ledger.Sound(Ledger.SlotOf(p.system, id)))
    && (forall id :: id in p.attempts <==> Ledger.SlotOf(p.system, id).running.Some?)
    && (forall id :: id in p.attempts ==> p.attempts[id].run in p.owner && p.owner[p.attempts[id].run] == id)
    && (forall r :: r in p.owner ==> r < p.next) && p.fine <= p.owner.Keys
    && (forall id :: Ledger.SlotOf(p.system, id).handled ==> Landed(p, id))
  }

  predicate Assured<X>(h: Happening<X>) {
    h.move.Take? ==> Ledger.Assured(h.move.step)
  }

  lemma OnlyAnEndHandles(s: Ledger.Slot, step: Ledger.Step, budget: nat)
    requires Ledger.Enabled(s, step)
    ensures Ledger.Next(s, step, budget).handled ==> s.handled || (step.Finish? && step.ending.Handled?)
  {
  }

  /** Only a start begins an attempt, and only an end or a crash ends one. */
  lemma OnlyStartsRun(s: Ledger.Slot, step: Ledger.Step, budget: nat)
    requires Ledger.Enabled(s, step)
    ensures !step.Start? && !step.Crash? && !step.Finish? ==>
              Ledger.Next(s, step, budget).running.Some? == s.running.Some?
    ensures step.Start? ==> s.running.None?
    ensures step.Crash? || step.Finish? ==> s.running.Some? && Ledger.Next(s, step, budget).running.None?
  {
  }

  lemma SteppedSlots<W, H>(p: Pipe<W, H>, id: string, step: Ledger.Step, budget: nat, other: string)
    requires Ledger.Enabled(Ledger.SlotOf(p.system, id), step)
    ensures Ledger.SlotOf(Stepped(p, id, step, budget).system, other) ==
            if other == id then Ledger.Next(Ledger.SlotOf(p.system, id), step, budget)
            else Ledger.SlotOf(p.system, other)
  {
  }

  /** What every ledger step keeps in the whole system. */
  lemma SteppedKeeps<W, H>(p: Pipe<W, H>, id: string, step: Ledger.Step, budget: nat)
    requires Inv(p) && Ledger.Enabled(Ledger.SlotOf(p.system, id), step) && Ledger.Assured(step)
    ensures var q := Stepped(p, id, step, budget);
            forall o :: Ledger.Safe(Ledger.SlotOf(q.system, o)) && Ledger.Sound(Ledger.SlotOf(q.system, o))
  {
    Ledger.StepKeepsSafe(Ledger.SlotOf(p.system, id), step, budget);
    forall o {
      SteppedSlots(p, id, step, budget, o);
    }
  }

  lemma LandedStays<W, H>(p: Pipe<W, H>, q: Pipe<W, H>, id: string)
    requires Landed(p, id) && p.fine <= q.fine
    requires forall r :: r in p.owner ==> r in q.owner && q.owner[r] == p.owner[r]
    ensures Landed(q, id)
  {
    var r :| r in p.fine && r in p.owner && p.owner[r] == id;
    assert r in q.fine && r in q.owner && q.owner[r] == id;
  }

  /** Attempts after a step go with the running slots. */
  lemma TakenRuns<W, H, X>(handler: Handler<W, H, X>, p: Pipe<W, H>, id: string, step: Ledger.Step, budget: nat,
                           o: string)
    requires Inv(p) && Ledger.Enabled(Ledger.SlotOf(p.system, id), step) && !step.Finish?
    ensures var q := Taken(handler, p, id, step, budget);
            && (o in q.attempts <==> Ledger.SlotOf(q.system, o).running.Some?)
            && (o in q.attempts ==> q.attempts[o].run in q.owner && q.owner[q.attempts[o].run] == o)
  {
    OnlyStartsRun(Ledger.SlotOf(p.system, id), step, budget);
    SteppedSlots(p, id, step, budget, o);
  }

  lemma TakenKeepsInv<W, H, X>(handler: Handler<W, H, X>, p: Pipe<W, H>, id: string, step: Ledger.Step, budget: nat)
    requires Inv(p) && Ledger.Enabled(Ledger.SlotOf(p.system, id), step) && Ledger.Assured(step) && !step.Finish?
    ensures Inv(Taken(handler, p, id, step, budget))
  {
    var q := Taken(handler, p, id, step, budget);
    SteppedKeeps(p, id, step, budget);
    forall o
      ensures o in q.attempts <==> Ledger.SlotOf(q.system, o).running.Some?
      ensures o in q.attempts ==> q.attempts[o].run in q.owner && q.owner[q.attempts[o].run] == o {
      TakenRuns(handler, p, id, step, budget, o);
    }
    forall o | Ledger.SlotOf(q.system, o).handled ensures Landed(q, o) {
      OnlyAnEndHandles(Ledger.SlotOf(p.system, id), step, budget);
      SteppedSlots(p, id, step, budget, o);
      LandedStays(p, q, o);
    }
  }

  /** What a ledger step leaves of the rest: tables and results as they were, and at most one new attempt. */
  lemma TakenShape<W, H, X>(handler: Handler<W, H, X>, p: Pipe<W, H>, id: string, step: Ledger.Step, budget: nat)
    requires Inv(p) && Ledger.Enabled(Ledger.SlotOf(p.system, id), step)
    ensures var q := Taken(handler, p, id, step, budget);
            && q.world == p.world && q.fine == p.fine && (step.Crash? ==> id !in q.attempts)
            && (forall r :: r in p.owner ==> r in q.owner && q.owner[r] == p.owner[r])
            && (forall o :: o in q.attempts ==>
                  || (o in p.attempts && q.attempts[o] == p.attempts[o])
                  || (o == id && q.attempts[o].state == handler.idle && q.attempts[o].run !in p.owner))
  {
  }

  lemma ConcludedKeepsInv<W, H>(p: Pipe<W, H>, q: Pipe<W, H>, id: string, e: Ledger.Ending, budget: nat)
    requires Inv(p) && id in p.attempts && Ledger.Enabled(Ledger.SlotOf(p.system, id), Ledger.Finish(e))
    requires q == Stepped(p, id, Ledger.Finish(e), budget)
                  .(attempts := p.attempts - {id}, fine := if e.Handled? then p.fine + {p.attempts[id].run} else p.fine)
    ensures Inv(q)
  {
    OnlyAnEndHandles(Ledger.SlotOf(p.system, id), Ledger.Finish(e), budget);
    OnlyStartsRun(Ledger.SlotOf(p.system, id), Ledger.Finish(e), budget);
    SteppedKeeps(p, id, Ledger.Finish(e), budget);
    forall o {
      SteppedSlots(p, id, Ledger.Finish(e), budget, o);
    }
    forall o | Ledger.SlotOf(q.system, o).handled ensures Landed(q, o) {
      if o == id && e.Handled? {
        assert p.attempts[id].run in q.fine;
      } else {
        LandedStays(p, q, o);
      }
    }
  }

  lemma AdvancedKeepsInv<W, H, X>(handler: Handler<W, H, X>, p: Pipe<W, H>, id: string, how: X)
    requires Inv(p) && id in p.attempts
    ensures Inv(Advanced(handler, p, id, how))
  {
    var q := Advanced(handler, p, id, how);
    forall o | Ledger.SlotOf(q.system, o).handled ensures Landed(q, o) {
      LandedStays(p, q, o);
    }
  }

  lemma AfterKeepsInv<W, H, X>(handler: Handler<W, H, X>, p: Pipe<W, H>, h: Happening<X>, budget: nat)
    requires Inv(p) && Assured(h)
    ensures Inv(After(handler, p, h, budget))
  {
    if Possible(handler, p, h) {
      if h.move.Take? {
        TakenKeepsInv(handler, p, h.id, h.move.step, budget);
      } else if h.move.Work? {
        AdvancedKeepsInv(handler, p, h.id, h.move.how);
      } else if h.move.Unfetched? {
        ConcludedKeepsInv(p, After(handler, p, h, budget), h.id, Ledger.Errored(h.move.failure, h.move.saved), budget);
      } else {
        var v := handler.verdict(p.attempts[h.id].state).value;
        ConcludedKeepsInv(p, After(handler, p, h, budget), h.id, EndStep(v, h.move.save, h.move.stored).ending, budget);
      }
    }
  }

  lemma {:induction false} RunKeepsInv<W, H, X>(handler: Handler<W, H, X>, p: Pipe<W, H>, hs: seq<Happening<X>>,
                                                budget: nat)
    requires Inv(p) && forall k :: 0 <= k < |hs| ==> Assured(hs[k])
    ensures Inv(Run(handler, p, hs, budget))
    decreases |hs|
  {
    if hs != [] {
      AfterKeepsInv(handler, p, hs[0], budget);
      RunKeepsInv(handler, After(handler, p, hs[0], budget), hs[1..], budget);
    }
  }

  /** The workers can do nothing more for this event. */
  predicate Idle(s: Ledger.Slot) {
    !Ledger.Live(s)
  }

  /**
   Acknowledged means handled. Over every run of the whole protocol, with attempts of different events interleaving at
   every await and crashing anywhere: once the workers are done with an event that was answered 200, its row says
   failed, or it says completed and one of the event's own handler runs has ended well.
   */
  lemma AcknowledgedIsApplied<W, H, X>(handler: Handler<W, H, X>, w: W, hs: seq<Happening<X>>, budget: nat, id: string)
    requires forall k :: 0 <= k < |hs| ==> Assured(hs[k])
    ensures var p := Run(handler, Start(w), hs, budget);
            var s := Ledger.SlotOf(p.system, id);
            s.acked && Idle(s) && !Ledger.RowIs(s, Ledger.Failed) ==> Ledger.RowIs(s, Ledger.Completed) && Landed(p, id)
  {
    RunKeepsInv(handler, Start(w), hs, budget);
  }

  /** The same ledger and attempts, over related tables and handler states. */
  ghost predicate Related<W(!new), H(!new)>(rel: (W, W) -> bool, like: (H, H) -> bool, p: Pipe<W, H>, q: Pipe<W, H>) {
    && p.system == q.system && p.owner == q.owner && p.next == q.next && p.fine == q.fine && rel(p.world, q.world)
    && p.attempts.Keys == q.attempts.Keys
    && forall id :: id in p.attempts ==>
         p.attempts[id].run == q.attempts[id].run && like(p.attempts[id].state, q.attempts[id].state)
  }

  /** Two handlers that keep a relation between tables and states, and end alike, for the events in `ids`. */
  ghost predicate Similar<W(!new), H(!new), X(!new)>(d: Handler<W, H, X>, e: Handler<W, H, X>,
      rel: (W, W) -> bool, like: (H, H) -> bool, ids: set<string>)
  {
    && like(d.idle, e.idle)
    && (forall a: H, b: H :: like(a, b) ==> d.verdict(a) == e.verdict(b) && (a == d.idle <==> b == e.idle))
    && (forall v: W, w: W, id: string, a: H, b: H, how: X :: id in ids && rel(v, w) && like(a, b) ==>
          rel(d.advance(v, id, a, how).0, e.advance(w, id, b, how).0) &&
          like(d.advance(v, id, a, how).1, e.advance(w, id, b, how).1))
  }

  lemma TakenAgrees<W(!new), H(!new), X(!new)>(d: Handler<W, H, X>, e: Handler<W, H, X>,
      rel: (W, W) -> bool, like: (H, H) -> bool, p: Pipe<W, H>, q: Pipe<W, H>, id: string, step: Ledger.Step,
      budget: nat)
    requires like(d.idle, e.idle) && Related(rel, like, p, q) && Ledger.Enabled(Ledger.SlotOf(p.system, id), step)
    ensures Related(rel, like, Taken(d, p, id, step, budget), Taken(e, q, id, step, budget))
  {
  }

  lemma AfterAgrees<W(!new), H(!new), X(!new)>(d: Handler<W, H, X>, e: Handler<W, H, X>,
      rel: (W, W) -> bool, like: (H, H) -> bool, p: Pipe<W, H>, q: Pipe<W, H>, h: Happening<X>, budget: nat,
      ids: set<string>)
    requires Similar(d, e, rel, like, ids) && h.id in ids && Related(rel, like, p, q)
    ensures Related(rel, like, After(d, p, h, budget), After(e, q, h, budget))
  {
    if h.id in p.attempts {
      var a, b := p.attempts[h.id].state, q.attempts[h.id].state;
      assert like(a, b);
    }
    if h.move.Take? && Possible(d, p, h) {
      TakenAgrees(d, e, rel, like, p, q, h.id, h.move.step, budget);
    }
  }

  /** Under both the protocol takes the same course. */
  lemma {:induction false} RunsAgree<W(!new), H(!new), X(!new)>(d: Handler<W, H, X>, e: Handler<W, H, X>,
      rel: (W, W) -> bool, like: (H, H) -> bool, p: Pipe<W, H>, q: Pipe<W, H>, hs: seq<Happening<X>>, budget: nat,
      ids: set<string>)
    requires Similar(d, e, rel, like, ids) && Related(rel, like, p, q) && forall k :: 0 <= k < |hs| ==> hs[k].id in ids
    ensures Related(rel, like, Run(d, p, hs, budget), Run(e, q, hs, budget))
    decreases |hs|
  {
    if hs != [] {
      AfterAgrees(d, e, rel, like, p, q, hs[0], budget, ids);
      RunsAgree(d, e, rel, like, After(d, p, hs[0], budget), After(e, q, hs[0], budget), hs[1..], budget, ids);
    }
  }
}
