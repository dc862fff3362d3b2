/**
 `reportUsage`: many callers, any interleaving, faults and crashes anywhere, against Stripe's idempotency cache.
 A caller's turn is one database or Stripe round trip.
 */
module Metering {
  import opened Json

  datatype Status = Pending | Sent | Failed

  /** A row of stripe_meter_events; the table is in insertion order and rows are never deleted. */
  datatype Audit = Audit(key: string, quantity: int, status: Status, attempts: nat, failing: bool)

  /** What the meter event says: Stripe refuses to reuse an idempotency key for another request body. */
  datatype Body = Body(meter: string, customer: string, quantity: int, timestamp: int)

  datatype Charge = Charge(key: string, body: Body)

  /** The audit table, Stripe's idempotency cache, and every meter event that Stripe has counted. */
  datatype Meter = Meter(rows: seq<Audit>, cache: map<string, Body>, accepted: seq<Charge>)

  /** A save: stored, not stored and throwing, or stored and throwing. */
  datatype Save = Stored | Unstored | StoredUnseen

  /** What becomes of a request: never executed, executed with the answer lost, or answered. */
  datatype Reply = Unreached | Unheard | Answered

  /** Where a caller is. `loaded` is the audit row as it was read, `attempts` the count in memory. */
  datatype Point =
    | Entering
    | Looking
    | Inserting
    | Rereading
    | Calling(index: nat, loaded: Audit)
    | Recording(index: nat, loaded: Audit, attempts: nat, ok: bool)
    | Returned
    | Threw

  datatype Caller = Caller(key: string, body: Body, point: Point)

  /** The faults that a call meets, one per round trip. */
  datatype Faults = Faults(known: bool, insert: Save, reply: Reply, save: Save, lastSave: Save)

  function Find(rows: seq<Audit>, key: string): (r: Option<nat>)
    ensures r.Some? ==> r.value < |rows| && rows[r.value].key == key
    ensures r.None? ==> forall k :: 0 <= k < |rows| ==> rows[k].key != key
    decreases |rows|
  {
    if rows == [] then None
    else if rows[0].key == key then Some(0)
    else match Find(rows[1..], key) case None => None case Some(k) => Some(k + 1)
  }

  /** Go on with the row that was found, unless it says sent. */
  function Use(m: Meter, index: nat): Point
    requires index < |m.rows|
  {
    if m.rows[index].status == Sent then Returned else Calling(index, m.rows[index])
  }

  function Fresh(key: string, body: Body): Audit {
    Audit(key, body.quantity, Pending, 0, false)
  }

  /** The insert; a row with the same key violates the unique constraint. */
  function Insert(m: Meter, key: string, body: Body, s: Save): (Meter, Point) {
    if Find(m.rows, key).Some? || s.Unstored? then (m, Rereading)
    else (m.(rows := m.rows + [Fresh(key, body)]),
          if s.Stored? then Calling(|m.rows|, Fresh(key, body)) else Rereading)
  }

  /** `meterEvents.create` under an idempotency key; the result says whether the caller sees success. */
  function Create(m: Meter, key: string, body: Body, reply: Reply): (Meter, bool) {
    if reply.Unreached? then (m, false)
    else if key in m.cache then (m, reply.Answered? && m.cache[key] == body)
    else (m.(cache := m.cache[key := body], accepted := m.accepted + [Charge(key, body)]), reply.Answered?)
  }

  /** The row after a save: only the fields changed since it was loaded are written. */
  function Written(row: Audit, loaded: Audit, status: Status, attempts: nat): Audit {
    var failing := status == Failed;
    row.(status := if status != loaded.status then status else row.status,
         attempts := attempts,
         failing := if failing || loaded.failing then failing else row.failing)
  }

  function Record(m: Meter, index: nat, loaded: Audit, status: Status, attempts: nat, s: Save): Meter
    requires index < |m.rows|
  {
    if s.Unstored? then m else m.(rows := m.rows[index := Written(m.rows[index], loaded, status, attempts)])
  }

  /** A point that names a row names one that exists, under the caller's key. */
  predicate InPlace(m: Meter, c: Caller) {
    match c.point
    case Calling(index, _) => index < |m.rows| && m.rows[index].key == c.key
    case Recording(index, _, _, _) => index < |m.rows| && m.rows[index].key == c.key
    case _ => true
  }

  predicate Running(c: Caller) {
    !c.point.Returned? && !c.point.Threw?
  }

  /** One round trip of a caller. */
  function Advance(m: Meter, c: Caller, f: Faults): (r: (Meter, Caller))
    requires InPlace(m, c) && Running(c)
    ensures InPlace(r.0, r.1) && r.1.key == c.key && r.1.body == c.body
  {
    match c.point
    case Entering => (m, c.(point := if c.body.quantity < 0 || !f.known then Threw else Looking))
    case Looking =>
      (m, c.(point := match Find(m.rows, c.key) case None => Inserting case Some(k) => Use(m, k)))
    case Inserting => var (m1, p) := Insert(m, c.key, c.body, f.insert); (m1, c.(point := p))
    case Rereading => (m, c.(point := match Find(m.rows, c.key) case None => Threw case Some(k) => Use(m, k)))
    case Calling(index, loaded) =>
      var (m1, ok) := Create(m, c.key, c.body, f.reply);
      (m1, c.(point := Recording(index, loaded, loaded.attempts + 1, ok)))
    case Recording(index, loaded, attempts, ok) =>
      if ok then
        (Record(m, index, loaded, Sent, attempts, f.save),
         c.(point := if f.save.Stored? then Returned else Recording(index, loaded, attempts + 1, false)))
      else
        (Record(m, index, loaded, Failed, attempts, f.lastSave), c.(point := Threw))
  }

  /** The system: the meter and the callers in progress or done. */
  datatype World = World(meter: Meter, callers: map<nat, Caller>)

  datatype Step =
    | Enter(who: nat, key: string, body: Body)
    | Turn(who: nat, faults: Faults)
    | Crash(who: nat)
    | GiveUp(index: nat)

  /** The batch job's `failed()` marks a row failed, possibly one that has moved on since it was read. */
  function GivenUp(row: Audit): Audit {
    row.(status := Failed, failing := true)
  }

  predicate AllInPlace(w: World) {
    forall id :: id in w.callers ==> InPlace(w.meter, w.callers[id])
  }

  function Next(w: World, s: Step): World
    requires AllInPlace(w)
  {
    match s
    case Enter(who, key, body) =>
      if who in w.callers then w else w.(callers := w.callers[who := Caller(key, body, Entering)])
    case Turn(who, f) =>
      if who in w.callers && Running(w.callers[who]) then
        var (m, c) := Advance(w.meter, w.callers[who], f);
        World(m, w.callers[who := c])
      else w
    case Crash(who) => w.(callers := w.callers - {who})
    case GiveUp(index) =>
      if index < |w.meter.rows|
      then w.(meter := w.meter.(rows := w.meter.rows[index := GivenUp(w.meter.rows[index])])) else w
  }

  predicate DistinctRows(m: Meter) {
    forall j, k :: 0 <= j < k < |m.rows| ==> m.rows[j].key != m.rows[k].key
  }

  predicate AcceptedOnce(m: Meter) {
    && (forall j, k :: 0 <= j < k < |m.accepted| ==> m.accepted[j].key != m.accepted[k].key)
    && (forall k :: 0 <= k < |m.accepted| ==>
          m.accepted[k].key in m.cache && m.cache[m.accepted[k].key] == m.accepted[k].body)
    && (forall key :: key in m.cache ==> Charge(key, m.cache[key]) in m.accepted)
  }

  predicate SentIsAccepted(m: Meter) {
    forall k :: 0 <= k < |m.rows| && m.rows[k].status == Sent ==> m.rows[k].key in m.cache
  }

  predicate Good(m: Meter) {
    DistinctRows(m) && AcceptedOnce(m) && SentIsAccepted(m)
  }

  /** A caller that has seen success, in Stripe's answer or in the row, has been counted. */
  predicate Honest(m: Meter, c: Caller) {
    (c.point.Returned? || (c.point.Recording? && c.point.ok)) ==> c.key in m.cache
  }

  predicate Inv(w: World) {
    && AllInPlace(w) && Good(w.meter)
    && (forall id :: id in w.callers ==> Honest(w.meter, w.callers[id]))
  }

  /** Rows keep their place and key, and what Stripe has cached stays. */
  predicate Grows(m: Meter, m': Meter) {
    && |m.rows| <= |m'.rows| && (forall k :: 0 <= k < |m.rows| ==> m'.rows[k].key == m.rows[k].key)
    && (forall key :: key in m.cache ==> key in m'.cache && m'.cache[key] == m.cache[key])
    && m.accepted <= m'.accepted
  }

  lemma CreateKeepsGood(m: Meter, key: string, body: Body, reply: Reply)
    requires Good(m)
    ensures var (m', ok) := Create(m, key, body, reply); Good(m') && Grows(m, m') && (ok ==> key in m'.cache)
  {
    var m' := Create(m, key, body, reply).0;
    if m' != m {
      forall k | k in m'.cache ensures Charge(k, m'.cache[k]) in m'.accepted {
        if k == key {
          assert m'.accepted[|m.accepted|] == Charge(k, body);
        } else {
          assert Charge(k, m.cache[k]) in m.accepted;
        }
      }
    }
  }

  lemma InsertKeepsGood(m: Meter, key: string, body: Body, s: Save)
    requires Good(m)
    ensures Good(Insert(m, key, body, s).0) && Grows(m, Insert(m, key, body, s).0)
  {
  }

  lemma RecordKeepsGood(m: Meter, index: nat, loaded: Audit, status: Status, attempts: nat, s: Save)
    requires Good(m) && index < |m.rows| && (status == Sent ==> m.rows[index].key in m.cache)
    ensures Good(Record(m, index, loaded, status, attempts, s))
            && Grows(m, Record(m, index, loaded, status, attempts, s))
  {
    var m' := Record(m, index, loaded, status, attempts, s);
    assert forall k :: 0 <= k < |m.rows| ==> m'.rows[k].key == m.rows[k].key;
  }

  lemma AdvanceKeepsGood(m: Meter, c: Caller, f: Faults)
    requires Good(m) && InPlace(m, c) && Running(c) && Honest(m, c)
    ensures var (m', c') := Advance(m, c, f); Good(m') && Grows(m, m') && Honest(m', c')
  {
    match c.point
    case Inserting => InsertKeepsGood(m, c.key, c.body, f.insert);
    case Calling(index, loaded) => CreateKeepsGood(m, c.key, c.body, f.reply);
    case Recording(index, loaded, attempts, ok) =>
      if ok {
        RecordKeepsGood(m, index, loaded, Sent, attempts, f.save);
      } else {
        RecordKeepsGood(m, index, loaded, Failed, attempts, f.lastSave);
      }
    case _ =>
  }

  lemma NextKeepsInv(w: World, s: Step)
    requires Inv(w)
    ensures Inv(Next(w, s)) && Grows(w.meter, Next(w, s).meter)
  {
    if s.Turn? && s.who in w.callers && Running(w.callers[s.who]) {
      AdvanceKeepsGood(w.meter, w.callers[s.who], s.faults);
    }
  }

  function Run(w: World, steps: seq<Step>): World
    requires Inv(w)
    decreases |steps|
  {
    if steps == [] then w else
      NextKeepsInv(w, steps[0]);
      Run(Next(w, steps[0]), steps[1..])
  }

  const EMPTY := World(Meter([], map[], []), map[])

  /** How many times Stripe has counted the key. */
  function Times(accepted: seq<Charge>, key: string): nat
    decreases |accepted|
  {
    if accepted == [] then 0 else (if accepted[0].key == key then 1 else 0) + Times(accepted[1..], key)
  }

  lemma {:induction false} TimesIs(accepted: seq<Charge>, key: string)
    requires forall j, k :: 0 <= j < k < |accepted| ==> accepted[j].key != accepted[k].key
    ensures Times(accepted, key) == if exists k :: 0 <= k < |accepted| && accepted[k].key == key then 1 else 0
    decreases |accepted|
  {
    if accepted != [] {
      TimesIs(accepted[1..], key);
      if accepted[0].key != key && exists k :: 0 <= k < |accepted| && accepted[k].key == key {
        var k :| 0 <= k < |accepted| && accepted[k].key == key;
        assert accepted[1..][k - 1].key == key;
      }
    }
  }

  lemma GoodCounts(m: Meter, key: string)
    requires Good(m)
    ensures Times(m.accepted, key) == if key in m.cache then 1 else 0
  {
    TimesIs(m.accepted, key);
    if key in m.cache {
      var k :| 0 <= k < |m.accepted| && m.accepted[k] == Charge(key, m.cache[key]);
      assert m.accepted[k].key == key;
    }
  }

  lemma {:induction false} RunKeepsInv(w: World, steps: seq<Step>)
    requires Inv(w)
    ensures Inv(Run(w, steps)) && Grows(w.meter, Run(w, steps).meter)
    decreases |steps|
  {
    if steps != [] {
      NextKeepsInv(w, steps[0]);
      RunKeepsInv(Next(w, steps[0]), steps[1..]);
    }
  }

  /**
   At most once. After any run, each key has been counted at most once and has at most one audit row; a row that says
   sent, and a call that returned without an error, mean that the key has been counted exactly once.
   */
  lemma MeteredAtMostOnce(steps: seq<Step>, key: string)
    ensures var w := Run(EMPTY, steps);
            && Times(w.meter.accepted, key) <= 1
            && (forall j, k :: 0 <= j < k < |w.meter.rows| && w.meter.rows[j].key == key ==> w.meter.rows[k].key != key)
            && (forall k :: 0 <= k < |w.meter.rows| && w.meter.rows[k].key == key && w.meter.rows[k].status == Sent ==>
                              Times(w.meter.accepted, key) == 1)
            && (forall id :: id in w.callers && w.callers[id].key == key && w.callers[id].point.Returned? ==>
                              Times(w.meter.accepted, key) == 1)
  {
    RunKeepsInv(EMPTY, steps);
    GoodCounts(Run(EMPTY, steps).meter, key);
  }

  /** Round trips that a caller may still make. */
  function Rank(p: Point): nat {
    match p
    case Entering => 7
    case Looking => 6
    case Inserting => 5
    case Rereading => 4
    case Calling(_, _) => 3
    case Recording(_, _, _, ok) => if ok then 2 else 1
    case _ => 0
  }

  /** A call that nobody interrupts. */
  function Complete(m: Meter, c: Caller, f: Faults): (r: (Meter, Caller))
    requires InPlace(m, c)
    ensures !Running(r.1)
    decreases Rank(c.point)
  {
    if !Running(c) then (m, c) else
      var (m1, c1) := Advance(m, c, f);
      Complete(m1, c1, f)
  }

  function Report(m: Meter, key: string, body: Body, f: Faults): (Meter, Caller) {
    Complete(m, Caller(key, body, Entering), f)
  }

  const HEALTHY := Faults(true, Stored, Answered, Stored, Stored)

  /** A retry of this key can succeed: already recorded, never counted, or counted with the very same body. */
  predicate Retryable(m: Meter, key: string, body: Body) {
    || (Find(m.rows, key).Some? && m.rows[Find(m.rows, key).value].status == Sent)
    || key !in m.cache
    || m.cache[key] == body
  }

  lemma FoundAt(m: Meter, index: nat)
    requires DistinctRows(m) && index < |m.rows|
    ensures Find(m.rows, m.rows[index].key) == Some(index)
  {
  }

  predicate SaysSent(m: Meter, key: string) {
    Find(m.rows, key).Some? && m.rows[Find(m.rows, key).value].status == Sent
  }

  /** One round trip of an undisturbed call. */
  lemma Onward(m: Meter, c: Caller, f: Faults)
    requires InPlace(m, c) && Running(c)
    ensures Complete(m, c, f) == Complete(Advance(m, c, f).0, Advance(m, c, f).1, f)
  {
  }

  lemma RecordingSettles(m: Meter, c: Caller)
    requires Good(m) && InPlace(m, c) && c.point.Recording? && c.point.loaded.status != Sent
    ensures var (m', c') := Complete(m, c, HEALTHY);
            && (c'.point.Returned? <==> c.point.ok)
            && (c'.point.Returned? ==> SaysSent(m', c.key))
  {
    Onward(m, c, HEALTHY);
    var index, loaded, attempts := c.point.index, c.point.loaded, c.point.attempts;
    if c.point.ok {
      var m' := Record(m, index, loaded, Sent, attempts, Stored);
      assert m'.rows[index] == Written(m.rows[index], loaded, Sent, attempts);
      FoundAt(m', index);
    }
  }

  lemma CallingSettles(m: Meter, c: Caller)
    requires Good(m) && InPlace(m, c) && c.point.Calling? && c.point.loaded.status != Sent
    ensures var (m', c') := Complete(m, c, HEALTHY);
            && (c'.point.Returned? <==> c.key !in m.cache || m.cache[c.key] == c.body)
            && (c'.point.Returned? ==> SaysSent(m', c.key))
  {
    Onward(m, c, HEALTHY);
    CreateKeepsGood(m, c.key, c.body, Answered);
    RecordingSettles(Advance(m, c, HEALTHY).0, Advance(m, c, HEALTHY).1);
  }

  /**
   What an undisturbed call comes to, whatever earlier attempts left behind: it returns exactly when the quantity is
   valid and the key is retryable, and then the row says sent. A key that was counted but not recorded can be settled
   only by a retry with the same meter, customer, quantity and timestamp.
   */
  lemma LoneCallReturns(m: Meter, key: string, body: Body)
    requires Good(m)
    ensures var (m', c) := Report(m, key, body, HEALTHY);
            && (c.point.Returned? <==> body.quantity >= 0 && Retryable(m, key, body))
            && (c.point.Returned? ==> SaysSent(m', key))
  {
    var entering, looking := Caller(key, body, Entering), Caller(key, body, Looking);
    Onward(m, entering, HEALTHY);
    if body.quantity >= 0 {
      Onward(m, looking, HEALTHY);
      match Find(m.rows, key)
      case None =>
        var inserting := looking.(point := Inserting);
        Onward(m, inserting, HEALTHY);
        InsertKeepsGood(m, key, body, Stored);
        CallingSettles(Advance(m, inserting, HEALTHY).0, Advance(m, inserting, HEALTHY).1);
      case Some(index) =>
        if m.rows[index].status != Sent {
          CallingSettles(m, looking.(point := Calling(index, m.rows[index])));
        }
    }
  }

  /** `reportUsage` on the tables themselves. */
  class Reporter {
    var rows: seq<Audit>
    var cache: map<string, Body>
    var accepted: seq<Charge>

    function State(): Meter
      reads this
    {
      Meter(rows, cache, accepted)
    }

    /** `stripe.billing.meterEvents.create`. */
    method MeterEventsCreate(key: string, body: Body, reply: Reply) returns (ok: bool)
      modifies this`cache, this`accepted
      ensures (State(), ok) == Create(old(State()), key, body, reply)
    {
      if reply.Unreached? {
        return false;
      }
      if key in cache {
        return reply.Answered? && cache[key] == body;
      }
      cache := cache[key := body];
      accepted := accepted + [Charge(key, body)];
      return reply.Answered?;
    }

    method SaveAudit(index: nat, loaded: Audit, status: Status, attempts: nat, s: Save) returns (ok: bool)
      requires index < |rows|
      modifies this`rows
      ensures State() == Record(old(State()), index, loaded, status, attempts, s)
      ensures ok == s.Stored?
    {
      if !s.Unstored? {
        rows := rows[index := Written(rows[index], loaded, status, attempts)];
      }
      return s.Stored?;
    }

    /** The insert, and the second look when it throws. */
    method InsertAudit(key: string, body: Body, s: Save) returns (found: Option<nat>)
      requires Find(rows, key).None?
      modifies this`rows
      ensures State() == Insert(old(State()), key, body, s).0
      ensures found == if s.Stored? then Some(|old(rows)|) else Find(rows, key)
    {
      if !s.Unstored? {
        rows := rows + [Audit(key, body.quantity, Pending, 0, false)];
      }
      if s.Stored? {
        return Some(|rows| - 1);
      }
      return Find(rows, key);
    }

    /** The Stripe call and the saves that follow it; `ok` when nothing is thrown. */
    method Send(key: string, body: Body, index: nat, f: Faults) returns (ok: bool)
      requires index < |rows| && rows[index].key == key
      modifies this
      ensures var (m, c) := Complete(old(State()), Caller(key, body, Calling(index, old(rows[index]))), f);
              State() == m && ok == c.point.Returned?
    {
      var loaded := rows[index];
      var attempts := loaded.attempts;
      ghost var calling := Caller(key, body, Calling(index, loaded));
      Onward(State(), calling, f);
      ok := MeterEventsCreate(key, body, f.reply);
      ghost var recording := calling.(point := Recording(index, loaded, attempts + 1, ok));
      Onward(State(), recording, f);
      attempts := attempts + 1;
      if ok {
        ok := SaveAudit(index, loaded, Sent, attempts, f.save);
        if ok {
          return true;
        }
        attempts := attempts + 1;
        Onward(State(), calling.(point := Recording(index, loaded, attempts, false)), f);
      }
      var _ := SaveAudit(index, loaded, Failed, attempts, f.lastSave);
      return false;
    }

    /** `reportUsage`; `ok` when it does not throw. */
    method ReportUsage(key: string, body: Body, f: Faults) returns (ok: bool)
      modifies this
      ensures var (m, c) := Report(old(State()), key, body, f); State() == m && ok == c.point.Returned?
    {
      ghost var looking := Caller(key, body, Looking);
      Onward(State(), looking.(point := Entering), f);
      if body.quantity < 0 || !f.known {
        return false;
      }
      Onward(State(), looking, f);
      var audit := Find(rows, key);
      if audit.None? {
        Onward(State(), looking.(point := Inserting), f);
        audit := InsertAudit(key, body, f.insert);
        if !f.insert.Stored? {
          Onward(State(), looking.(point := Rereading), f);
          if audit.None? {
            return false;
          }
        }
      }
      if rows[audit.value].status == Sent {
        return true;
      }
      ok := Send(key, body, audit.value, f);
    }
  }
}
