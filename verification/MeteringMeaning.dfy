/** What one undisturbed call of `reportUsage` comes to, for every table it finds and every fault it meets. */
module MeteringMeaning {
  import opened Metering

  /** The row after a request and the saves that follow it. */
  predicate RowFollows(row: Audit, row': Audit, told: bool, f: Faults) {
    var once := row.(attempts := row.attempts + 1);
    var twice := row.(attempts := row.attempts + 2);
    row' ==
    if !told then if f.lastSave == Unstored then row else once.(status := Failed, failing := true)
    else if f.save == Stored || (f.save == StoredUnseen && f.lastSave == Unstored)
    then once.(status := Sent, failing := false)
    else if f.lastSave == Unstored then row
    else if f.save == StoredUnseen && row.status == Failed then twice.(status := Sent, failing := true)
    else twice.(status := Failed, failing := true)
  }

  /**
   The request for row `index`: Stripe counts a new key once, with this body, unless the request never got there; the
   caller is told so unless the answer is lost or the key was used with another body; and it returns when it is told
   and the row is saved.
   */
  predicate Requests(m: Meter, m': Meter, index: nat, body: Body, f: Faults, returned: bool) {
    && index < |m.rows| == |m'.rows|
    && var key := m.rows[index].key;
    var counted := f.reply != Unreached && key !in m.cache;
    var told := f.reply == Answered && (key !in m.cache || m.cache[key] == body);
    && m'.accepted == m.accepted + (if counted then [Charge(key, body)] else [])
    && m'.cache == (if counted then m.cache[key := body] else m.cache)
    && m'.rows == m.rows[index := m'.rows[index]]
    && RowFollows(m.rows[index], m'.rows[index], told, f)
    && (returned <==> told && f.save == Stored)
  }

  lemma RecordMeans(m: Meter, index: nat, loaded: Audit, status: Status, attempts: nat, s: Save)
    requires index < |m.rows|
    ensures var (m', row) := (Record(m, index, loaded, status, attempts, s), m.rows[index]);
            && m' == m.(rows := m.rows[index := m'.rows[index]])
            && m'.rows[index] ==
               if s == Unstored then row
               else row.(status := if status == loaded.status then row.status else status,
                         attempts := attempts,
                         failing := if status == Failed then true else if loaded.failing then false else row.failing)
  {
  }

  lemma Answering(m: Meter, key: string, body: Body, index: nat, ok: bool, f: Faults)
    requires index < |m.rows| && m.rows[index].key == key && m.rows[index].status != Sent
    ensures var row := m.rows[index];
            var (m', c) := Complete(m, Caller(key, body, Recording(index, row, row.attempts + 1, ok)), f);
            && (c.point.Returned? <==> ok && f.save == Stored)
            && index < |m'.rows| && m' == m.(rows := m.rows[index := m'.rows[index]])
            && RowFollows(row, m'.rows[index], ok, f)
  {
    var row := m.rows[index];
    var c := Caller(key, body, Recording(index, row, row.attempts + 1, ok));
    Onward(m, c, f);
    if ok {
      RecordMeans(m, index, row, Sent, row.attempts + 1, f.save);
      if f.save != Stored {
        var (m1, c1) := Advance(m, c, f);
        Onward(m1, c1, f);
        RecordMeans(m1, index, row, Failed, row.attempts + 2, f.lastSave);
      }
    } else {
      RecordMeans(m, index, row, Failed, row.attempts + 1, f.lastSave);
    }
  }

  lemma Calling(m: Meter, key: string, body: Body, index: nat, f: Faults)
    requires index < |m.rows| && m.rows[index].key == key && m.rows[index].status != Sent
    ensures var (m', c) := Complete(m, Caller(key, body, Point.Calling(index, m.rows[index])), f);
            Requests(m, m', index, body, f, c.point.Returned?)
  {
    Onward(m, Caller(key, body, Point.Calling(index, m.rows[index])), f);
    var (m1, ok) := Create(m, key, body, f.reply);
    Answering(m1, key, body, index, ok, f);
  }

  /** A call with a negative quantity or without a customer throws, and a call whose row says sent returns; no more. */
  lemma CallsThatAskNothing(m: Meter, key: string, body: Body, f: Faults)
    requires DistinctRows(m)
    ensures body.quantity < 0 || !f.known ==> Report(m, key, body, f) == (m, Caller(key, body, Threw))
    ensures body.quantity >= 0 && f.known
            && (exists k :: 0 <= k < |m.rows| && m.rows[k].key == key && m.rows[k].status == Sent) ==>
              Report(m, key, body, f) == (m, Caller(key, body, Returned))
  {
    Onward(m, Caller(key, body, Entering), f);
    if body.quantity >= 0 && f.known {
      Onward(m, Caller(key, body, Looking), f);
      if k :| 0 <= k < |m.rows| && m.rows[k].key == key && m.rows[k].status == Sent {
        FoundAt(m, k);
      }
    }
  }

  /** A call that finds a row that does not say sent goes on with that row. */
  lemma RetryAsksAgain(m: Meter, key: string, body: Body, f: Faults, index: nat)
    requires DistinctRows(m) && body.quantity >= 0 && f.known
    requires index < |m.rows| && m.rows[index].key == key && m.rows[index].status != Sent
    ensures var (m', c) := Report(m, key, body, f);
            Requests(m, m', index, body, f, c.point.Returned?)
  {
    Onward(m, Caller(key, body, Entering), f);
    Onward(m, Caller(key, body, Looking), f);
    FoundAt(m, index);
    Calling(m, key, body, index, f);
  }

  /** A call that finds no row adds one, and goes on with it unless it could not be stored. */
  lemma FirstCallAsks(m: Meter, key: string, body: Body, f: Faults)
    requires DistinctRows(m) && body.quantity >= 0 && f.known
    requires forall k :: 0 <= k < |m.rows| ==> m.rows[k].key != key
    ensures var (m', c) := Report(m, key, body, f);
            if f.insert == Unstored then m' == m && c.point == Threw
            else
              var m1 := m.(rows := m.rows + [Audit(key, body.quantity, Pending, 0, false)]);
              Requests(m1, m', |m.rows|, body, f, c.point.Returned?)
  {
    var looking := Caller(key, body, Looking);
    Onward(m, Caller(key, body, Entering), f);
    Onward(m, looking, f);
    Onward(m, looking.(point := Inserting), f);
    var m1 := m.(rows := m.rows + [Audit(key, body.quantity, Pending, 0, false)]);
    if f.insert == Unstored {
      Onward(m, looking.(point := Rereading), f);
    } else {
      FoundAt(m1, |m.rows|);
      if f.insert == StoredUnseen {
        Onward(m1, looking.(point := Rereading), f);
      }
      Calling(m1, key, body, |m.rows|, f);
    }
  }

  /** A first call without faults counts exactly its own body and leaves the row sent, at its first attempt. */
  lemma FirstCallCounts(m: Meter, key: string, body: Body)
    requires DistinctRows(m) && body.quantity >= 0 && key !in m.cache
    requires forall k :: 0 <= k < |m.rows| ==> m.rows[k].key != key
    ensures var (m', c) := Report(m, key, body, Faults(true, Stored, Answered, Stored, Stored));
            && c.point == Returned
            && m'.accepted == m.accepted + [Charge(key, body)]
            && m'.rows == m.rows + [Audit(key, body.quantity, Sent, 1, false)]
  {
    FirstCallAsks(m, key, body, Faults(true, Stored, Answered, Stored, Stored));
  }

  /** A caller's round trips, one after the other. */
  function Turns(who: nat, f: Faults, n: nat): seq<Step>
    decreases n
  {
    if n == 0 then [] else [Turn(who, f)] + Turns(who, f, n - 1)
  }

  lemma RunFirst(w: World, step: Step, rest: seq<Step>)
    requires Inv(w)
    ensures Inv(Next(w, step)) && Run(w, [step] + rest) == Run(Next(w, step), rest)
  {
    NextKeepsInv(w, step);
    assert ([step] + rest)[1..] == rest;
  }

  /** In the protocol, a caller that nobody interrupts comes to the end of its call. */
  lemma {:induction false} TurnsComplete(w: World, who: nat, f: Faults, n: nat)
    requires Inv(w) && who in w.callers && n >= Rank(w.callers[who].point)
    ensures var (m, c) := Complete(w.meter, w.callers[who], f);
            Run(w, Turns(who, f, n)) == World(m, w.callers[who := c])
    decreases n
  {
    if n == 0 {
      assert w.callers[who := w.callers[who]] == w.callers;
    } else {
      var w1 := Next(w, Turn(who, f));
      RunFirst(w, Turn(who, f), Turns(who, f, n - 1));
      if Running(w.callers[who]) {
        Onward(w.meter, w.callers[who], f);
        AdvanceRanks(w.meter, w.callers[who], f);
      } else {
        assert w1 == w;
      }
      TurnsComplete(w1, who, f, n - 1);
      assert w1.callers[who := Complete(w1.meter, w1.callers[who], f).1] ==
             w.callers[who := Complete(w1.meter, w1.callers[who], f).1];
    }
  }

  lemma AdvanceRanks(m: Meter, c: Caller, f: Faults)
    requires InPlace(m, c) && Running(c)
    ensures Rank(Advance(m, c, f).1.point) < Rank(c.point)
  {
  }

  /** So a call that enters and is not interrupted does to the meter what `Report` says, whoever else is under way. */
  lemma CallIsReport(w: World, who: nat, key: string, body: Body, f: Faults, n: nat)
    requires Inv(w) && who !in w.callers && n >= 7
    ensures var (m, c) := Report(w.meter, key, body, f);
            Run(w, [Enter(who, key, body)] + Turns(who, f, n)) == World(m, w.callers[who := c])
  {
    RunFirst(w, Enter(who, key, body), Turns(who, f, n));
    var w1 := Next(w, Enter(who, key, body));
    TurnsComplete(w1, who, f, n);
    assert w1.callers[who := Report(w.meter, key, body, f).1] == w.callers[who := Report(w.meter, key, body, f).1];
  }

  /** A caller that has crashed takes no more turns, and what it has done stays. */
  lemma {:induction false} CrashEnds(w: World, who: nat, f: Faults, n: nat)
    requires Inv(w)
    ensures Run(w, [Crash(who)] + Turns(who, f, n)) == World(w.meter, w.callers - {who})
  {
    RunFirst(w, Crash(who), Turns(who, f, n));
    IdleTurns(Next(w, Crash(who)), who, f, n);
  }

  lemma {:induction false} IdleTurns(w: World, who: nat, f: Faults, n: nat)
    requires Inv(w) && who !in w.callers
    ensures Run(w, Turns(who, f, n)) == w
    decreases n
  {
    if n > 0 {
      RunFirst(w, Turn(who, f), Turns(who, f, n - 1));
      IdleTurns(w, who, f, n - 1);
    }
  }

  /** Giving up marks the row failed, whatever it says by then; a later call asks Stripe again. */
  lemma GiveUpReopens(w: World, index: nat)
    requires Inv(w) && index < |w.meter.rows|
    ensures var w' := Next(w, GiveUp(index));
            && w'.callers == w.callers && w'.meter.cache == w.meter.cache && w'.meter.accepted == w.meter.accepted
            && w'.meter.rows == w.meter.rows[index := w.meter.rows[index].(status := Failed, failing := true)]
  {
  }
}
