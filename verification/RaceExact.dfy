/**
 When overlapping runs show the newest event, exactly: the condition speaks of order and times only, and where it fails,
 some events make the race end otherwise.
 */
module RaceExact {
  import opened Json
  import opened SyncRace

  /** One field under changed-field saves. */
  function Changed<T(==)>(c: T, l: T, n: T): T {
    if n != l then n else c
  }

  /** What is left of a race without the contents of its rows: times, presence and phases. */
  type Outline = Race<int, ()>

  function OutlineRules(): Rules<int, ()> {
    Rules((at: int) => at, (c: int, l: int, n: int) => Changed(c, l, n), (c: (), l: (), n: ()) => ())
  }

  function OutlineTargets(times: nat -> int): nat -> Target<int, ()> {
    (r: nat) => Target(times(r), ())
  }

  /** A race whose mirror rows carry one word beside their time, and whose plan rows are one word. */
  datatype Stamp = Stamp(at: int, word: string)

  type Worded = Race<Stamp, string>

  function WordRules(): Rules<Stamp, string> {
    Rules((s: Stamp) => s.at,
          (c: Stamp, l: Stamp, n: Stamp) => Stamp(Changed(c.at, l.at, n.at), Changed(c.word, l.word, n.word)),
          (c: string, l: string, n: string) => Changed(c, l, n))
  }

  function WordTargets(times: nat -> int, words: nat -> string): nat -> Target<Stamp, string> {
    (r: nat) => Target(Stamp(times(r), words(r)), words(r))
  }

  lemma OverStays<R, P>(rules: Rules<R, P>, targets: nat -> Target<R, P>, race: Race<R, P>, ms: seq<Move>, run: nat)
    requires PhaseOf(race, run).Over?
    ensures PhaseOf(Run(rules, targets, race, ms), run) == PhaseOf(race, run)
    decreases |ms|
  {
    if ms != [] {
      OverStays(rules, targets, Step(rules, targets, race, ms[0]), ms[1..], run);
    }
  }

  /** A run that saves has saved at the end. */
  lemma SaverHasSaved<R, P>(rules: Rules<R, P>, targets: nat -> Target<R, P>, race: Race<R, P>, ms: seq<Move>)
    requires ms != [] && Saves(race, ms[0])
    ensures HasSaved(PhaseOf(Run(rules, targets, race, ms), ms[0].run))
  {
    OverStays(rules, targets, Step(rules, targets, race, ms[0]), ms[1..], ms[0].run);
  }

  /** In a quiet stretch, a newest run that starts and saves makes the stretch clear. */
  lemma {:induction false} IdleSaverClears<R, P>(rules: Rules<R, P>, targets: nat -> Target<R, P>, newest: nat -> bool,
      race: Race<R, P>, ms: seq<Move>, run: nat)
    requires newest(run) && PhaseOf(race, run).Idle? && QuietRow(rules, targets, newest, race, ms)
    requires HasSaved(PhaseOf(Run(rules, targets, race, ms), run))
    ensures RowClear(rules, targets, newest, race, ms)
    decreases |ms|
  {
    if !(ms[0].kind.Load? && ms[0].run == run) {
      IdleSaverClears(rules, targets, newest, Step(rules, targets, race, ms[0]), ms[1..], run);
    }
  }

  lemma {:induction false} RunSplit<R, P>(rules: Rules<R, P>, targets: nat -> Target<R, P>, race: Race<R, P>,
      a: seq<Move>, b: seq<Move>)
    ensures Run(rules, targets, race, a + b) == Run(rules, targets, Run(rules, targets, race, a), b)
    decreases |a|
  {
    if a == [] {
      assert a + b == b;
    } else {
      RunSplit(rules, targets, Step(rules, targets, race, a[0]), a[1..], b);
      assert (a + b)[1..] == a[1..] + b;
    }
  }

  lemma {:induction false} ClearLater<R, P>(rules: Rules<R, P>, targets: nat -> Target<R, P>, newest: nat -> bool,
      race: Race<R, P>, a: seq<Move>, b: seq<Move>)
    ensures RowClear(rules, targets, newest, Run(rules, targets, race, a), b) ==>
            RowClear(rules, targets, newest, race, a + b)
    ensures PlanClear(rules, targets, newest, Run(rules, targets, race, a), b) ==>
            PlanClear(rules, targets, newest, race, a + b)
    decreases |a|
  {
    if a == [] {
      assert a + b == b;
    } else {
      ClearLater(rules, targets, newest, Step(rules, targets, race, a[0]), a[1..], b);
      assert (a + b)[1..] == a[1..] + b;
    }
  }

  lemma RunCons<R, P>(rules: Rules<R, P>, targets: nat -> Target<R, P>, race: Race<R, P>, m: Move, ms: seq<Move>)
    ensures Run(rules, targets, race, [m] + ms) == Run(rules, targets, Step(rules, targets, race, m), ms)
  {
    assert ([m] + ms)[1..] == ms;
  }

  lemma Refront<T>(ms: seq<T>, before: seq<T>, m: T, after: seq<T>)
    requires ms != [] && ms[1..] == before + ([m] + after)
    ensures ms == ([ms[0]] + before) + ([m] + after)
  {
  }

  /** The last save of another event. */
  lemma {:induction false} LastOtherSave<R, P>(rules: Rules<R, P>, targets: nat -> Target<R, P>, newest: nat -> bool,
      race: Race<R, P>, ms: seq<Move>) returns (before: seq<Move>, m: Move, after: seq<Move>)
    requires !QuietRow(rules, targets, newest, race, ms)
    ensures ms == before + ([m] + after)
    ensures var now := Run(rules, targets, race, before);
            && Saves(now, m) && !newest(m.run)
            && QuietRow(rules, targets, newest, Step(rules, targets, now, m), after)
    decreases |ms|
  {
    var race1 := Step(rules, targets, race, ms[0]);
    if QuietRow(rules, targets, newest, race1, ms[1..]) {
      before, m, after := [], ms[0], ms[1..];
    } else {
      before, m, after := LastOtherSave(rules, targets, newest, race1, ms[1..]);
      RunCons(rules, targets, race, ms[0], before);
      Refront(ms, before, m, after);
      before := [ms[0]] + before;
    }
  }

  predicate RowSays(race: Worded, word: string) {
    race.row.Some? ==> race.row.value.word == word
  }

  /** Every mirror row in the race, stored or loaded, carries this word. */
  predicate AllRowsSay(race: Worded, word: string) {
    RowSays(race, word) &&
    forall r :: r in race.runs && Snapshot(race.runs[r]) && race.runs[r].snapshot.Some? ==>
      race.runs[r].snapshot.value.word == word
  }

  /** A save of the same word brings no other. */
  lemma SameWordStep(times: nat -> int, words: nat -> string, race: Worded, m: Move, word: string)
    requires AllRowsSay(race, word) && (Saves(race, m) ==> words(m.run) == word)
    ensures AllRowsSay(Step(WordRules(), WordTargets(times, words), race, m), word)
  {
  }

  /** As long as no run with another word saves, no other word appears. */
  lemma {:induction false} SameWordStays(times: nat -> int, words: nat -> string, race: Worded, ms: seq<Move>,
                                         word: string, odd: nat)
    requires AllRowsSay(race, word) && Anchored(race) && forall r: nat :: r != odd ==> words(r) == word
    requires !PhaseOf(Run(WordRules(), WordTargets(times, words), race, ms), odd).Over?
    ensures AllRowsSay(Run(WordRules(), WordTargets(times, words), race, ms), word)
    ensures Anchored(Run(WordRules(), WordTargets(times, words), race, ms))
    decreases |ms|
  {
    if ms != [] {
      var targets := WordTargets(times, words);
      var race1 := Step(WordRules(), targets, race, ms[0]);
      StepAnchored(WordRules(), targets, race, ms[0]);
      if Saves(race, ms[0]) && ms[0].run == odd {
        OverStays(WordRules(), targets, race1, ms[1..], odd);
      } else {
        SameWordStep(times, words, race, ms[0], word);
        SameWordStays(times, words, race1, ms[1..], word, odd);
      }
    }
  }

  /**
   A run that would write the word `a` only over rows that say something else, if it has not loaded such a row yet.
   */
  predicate Late(phase: Phase<Stamp, string>, a: string) {
    phase.Idle? || (Snapshot(phase) && phase.snapshot.Some? && phase.snapshot.value.word != a)
  }

  /** Runs that loaded the word `a` and want it do not bring it back over `b`. */
  lemma {:induction false} OtherWordStays(times: nat -> int, words: nat -> string, newest: nat -> bool, race: Worded,
                                          ms: seq<Move>, a: string, b: string)
    requires a != b && race.row.Some? && race.row.value.word == b && Anchored(race)
    requires forall r: nat :: newest(r) ==> words(r) == a
    requires QuietRow(WordRules(), WordTargets(times, words), newest, race, ms)
    requires var end := Run(WordRules(), WordTargets(times, words), race, ms);
             forall r: nat :: newest(r) && Late(PhaseOf(race, r), a) ==> !HasSaved(PhaseOf(end, r))
    ensures var end := Run(WordRules(), WordTargets(times, words), race, ms);
            end.row.Some? && end.row.value.word == b
    decreases |ms|
  {
    if ms != [] {
      var targets := WordTargets(times, words);
      var race1 := Step(WordRules(), targets, race, ms[0]);
      StepAnchored(WordRules(), targets, race, ms[0]);
      if Saves(race, ms[0]) {
        SaverHasSaved(WordRules(), targets, race, ms);
      }
      OtherWordStays(times, words, newest, race1, ms[1..], a, b);
    }
  }

  /** Where no newest run saves, its word does not appear. */
  lemma {:induction false} UnsavedWordAbsent(times: nat -> int, words: nat -> string, newest: nat -> bool, race: Worded,
                                             ms: seq<Move>, b: string)
    requires AllRowsSay(race, b) && Anchored(race) && forall r: nat :: !newest(r) ==> words(r) == b
    requires var end := Run(WordRules(), WordTargets(times, words), race, ms);
             forall r: nat :: newest(r) ==> !HasSaved(PhaseOf(end, r))
    ensures RowSays(Run(WordRules(), WordTargets(times, words), race, ms), b)
    decreases |ms|
  {
    if ms != [] {
      var targets := WordTargets(times, words);
      StepAnchored(WordRules(), targets, race, ms[0]);
      if Saves(race, ms[0]) {
        SaverHasSaved(WordRules(), targets, race, ms);
      }
      SameWordStep(times, words, race, ms[0], b);
      UnsavedWordAbsent(times, words, newest, Step(WordRules(), targets, race, ms[0]), ms[1..], b);
    }
  }

  function Outlined(at: Option<int>, hasPlan: bool): Outline {
    Race(at, if hasPlan then Some(()) else None, map[])
  }

  function Told(at: Option<int>, hasPlan: bool, word: string): Worded {
    Race(if at.Some? then Some(Stamp(at.value, word)) else None, if hasPlan then Some(word) else None, map[])
  }

  function TimeView(): Stamp -> int {
    (s: Stamp) => s.at
  }

  function PlanView(): string -> () {
    (p: string) => ()
  }

  lemma WordsRespect(times: nat -> int, words: nat -> string, at: Option<int>, hasPlan: bool, word: string)
    ensures Respects(WordRules(), OutlineRules(), TimeView(), PlanView())
    ensures Viewed(WordTargets(times, words), OutlineTargets(times), TimeView(), PlanView())
    ensures Image(TimeView(), PlanView(), Told(at, hasPlan, word)) == Outlined(at, hasPlan)
  {
  }

  /** Whether a race is clear is decided by its outline: by times and order, and by nothing that the events say. */
  lemma WordsDoNotMatter(times: nat -> int, words: nat -> string, newest: nat -> bool, at: Option<int>, hasPlan: bool,
                         word: string, ms: seq<Move>)
    ensures RowClear(WordRules(), WordTargets(times, words), newest, Told(at, hasPlan, word), ms) ==
            RowClear(OutlineRules(), OutlineTargets(times), newest, Outlined(at, hasPlan), ms)
    ensures PlanClear(WordRules(), WordTargets(times, words), newest, Told(at, hasPlan, word), ms) ==
            PlanClear(OutlineRules(), OutlineTargets(times), newest, Outlined(at, hasPlan), ms)
  {
    WordsRespect(times, words, at, hasPlan, word);
    ImageClear(WordRules(), OutlineRules(), TimeView(), PlanView(), WordTargets(times, words), OutlineTargets(times),
               newest, Told(at, hasPlan, word), ms);
  }

  /** And so is who has saved and who has written the plan. */
  lemma WordsDoNotDecide(times: nat -> int, words: nat -> string, at: Option<int>, hasPlan: bool, word: string,
                         ms: seq<Move>, run: nat)
    ensures HasSaved(PhaseOf(Run(WordRules(), WordTargets(times, words), Told(at, hasPlan, word), ms), run)) ==
            HasSaved(PhaseOf(Run(OutlineRules(), OutlineTargets(times), Outlined(at, hasPlan), ms), run))
    ensures HasAssigned(PhaseOf(Run(WordRules(), WordTargets(times, words), Told(at, hasPlan, word), ms), run)) ==
            HasAssigned(PhaseOf(Run(OutlineRules(), OutlineTargets(times), Outlined(at, hasPlan), ms), run))
  {
    WordsRespect(times, words, at, hasPlan, word);
    EndThrough(WordRules(), OutlineRules(), TimeView(), PlanView(), WordTargets(times, words), OutlineTargets(times),
               Told(at, hasPlan, word), ms, run);
  }

  lemma EndThrough<R(!new), P(!new), R2, P2>(rules: Rules<R, P>, rules2: Rules<R2, P2>,
      f: R -> R2, g: P -> P2, targets: nat -> Target<R, P>, targets2: nat -> Target<R2, P2>,
      race: Race<R, P>, ms: seq<Move>, run: nat)
    requires Respects(rules, rules2, f, g) && Viewed(targets, targets2, f, g)
    ensures PhaseOf(Run(rules2, targets2, Image(f, g, race), ms), run) ==
            PhaseThrough(f, g, PhaseOf(Run(rules, targets, race, ms), run))
    ensures HasSaved(PhaseOf(Run(rules2, targets2, Image(f, g, race), ms), run)) ==
            HasSaved(PhaseOf(Run(rules, targets, race, ms), run))
    ensures HasAssigned(PhaseOf(Run(rules2, targets2, Image(f, g, race), ms), run)) ==
            HasAssigned(PhaseOf(Run(rules, targets, race, ms), run))
  {
    ImageRun(rules, rules2, f, g, targets, targets2, (r: nat) => true, race, ms);
    ImagePhase(f, g, Run(rules, targets, race, ms), run);
  }

  /** And whether a later move saves or writes the plan, and whether the rest is quiet. */
  lemma WordsDoNotInterfere(times: nat -> int, words: nat -> string, newest: nat -> bool, at: Option<int>,
                            hasPlan: bool,
                            word: string, before: seq<Move>, m: Move, after: seq<Move>)
    ensures var rules, targets := WordRules(), WordTargets(times, words);
            var dull := OutlineTargets(times);
            var now := Run(rules, targets, Told(at, hasPlan, word), before);
            var outline := Run(OutlineRules(), dull, Outlined(at, hasPlan), before);
            && Saves(now, m) == Saves(outline, m) && Assigns(now, m) == Assigns(outline, m)
            && QuietRow(rules, targets, newest, Step(rules, targets, now, m), after) ==
               QuietRow(OutlineRules(), dull, newest, Step(OutlineRules(), dull, outline, m), after)
            && QuietPlan(rules, targets, newest, Step(rules, targets, now, m), after) ==
               QuietPlan(OutlineRules(), dull, newest, Step(OutlineRules(), dull, outline, m), after)
  {
    WordsRespect(times, words, at, hasPlan, word);
    Interference(WordRules(), OutlineRules(), TimeView(), PlanView(), WordTargets(times, words), OutlineTargets(times),
                 newest, Told(at, hasPlan, word), before, m, after);
  }

  lemma Interference<R(!new), P(!new), R2, P2>(rules: Rules<R, P>, rules2: Rules<R2, P2>,
      f: R -> R2, g: P -> P2, targets: nat -> Target<R, P>, targets2: nat -> Target<R2, P2>, newest: nat -> bool,
      race: Race<R, P>, before: seq<Move>, m: Move, after: seq<Move>)
    requires Respects(rules, rules2, f, g) && Viewed(targets, targets2, f, g)
    ensures var now, now2 := Run(rules, targets, race, before), Run(rules2, targets2, Image(f, g, race), before);
            && Saves(now, m) == Saves(now2, m) && Assigns(now, m) == Assigns(now2, m)
            && QuietRow(rules, targets, newest, Step(rules, targets, now, m), after) ==
               QuietRow(rules2, targets2, newest, Step(rules2, targets2, now2, m), after)
            && QuietPlan(rules, targets, newest, Step(rules, targets, now, m), after) ==
               QuietPlan(rules2, targets2, newest, Step(rules2, targets2, now2, m), after)
  {
    var now := Run(rules, targets, race, before);
    ImageRun(rules, rules2, f, g, targets, targets2, newest, race, before);
    ImageStep(rules, rules2, f, g, targets, targets2, now, m);
    ImageRun(rules, rules2, f, g, targets, targets2, newest, Step(rules, targets, now, m), after);
  }

  /** Where no newest run saves. */
  lemma NobodySaves(times: nat -> int, newest: nat -> bool, at: Option<int>, hasPlan: bool, ms: seq<Move>,
                    a: string, b: string) returns (words: nat -> string)
    requires var end := Run(OutlineRules(), OutlineTargets(times), Outlined(at, hasPlan), ms);
             forall r: nat :: newest(r) ==> !HasSaved(PhaseOf(end, r))
    ensures forall r: nat :: words(r) == if newest(r) then a else b
    ensures RowSays(Run(WordRules(), WordTargets(times, words), Told(at, hasPlan, b), ms), b)
  {
    words := (r: nat) => if newest(r) then a else b;
    forall r: nat | newest(r)
      ensures !HasSaved(PhaseOf(Run(WordRules(), WordTargets(times, words), Told(at, hasPlan, b), ms), r)) {
      WordsDoNotDecide(times, words, at, hasPlan, b, ms, r);
    }
    UnsavedWordAbsent(times, words, newest, Told(at, hasPlan, b), ms, b);
  }

  /** Where some newest run saves but none does so clearly: the last save of another event shows through. */
  lemma LastOtherSaveShows(times: nat -> int, newest: nat -> bool, at: Option<int>, hasPlan: bool, ms: seq<Move>,
                           run: nat, a: string, b: string) returns (words: nat -> string)
    requires a != b && newest(run)
    requires !RowClear(OutlineRules(), OutlineTargets(times), newest, Outlined(at, hasPlan), ms)
    requires HasSaved(PhaseOf(Run(OutlineRules(), OutlineTargets(times), Outlined(at, hasPlan), ms), run))
    ensures forall r: nat :: words(r) == a || (words(r) == b && !newest(r))
    ensures var end := Run(WordRules(), WordTargets(times, words), Told(at, hasPlan, a), ms);
            end.row.Some? && end.row.value.word == b
  {
    var outline, dull := Outlined(at, hasPlan), OutlineTargets(times);
    if QuietRow(OutlineRules(), dull, newest, outline, ms) {
      IdleSaverClears(OutlineRules(), dull, newest, outline, ms, run);
    }
    var before, m, after := LastOtherSave(OutlineRules(), dull, newest, outline, ms);
    words := (r: nat) => if r == m.run then b else a;
    OtherWordShows(times, words, newest, at, hasPlan, before, m, after, a, b);
  }

  lemma OtherWordShows(times: nat -> int, words: nat -> string, newest: nat -> bool, at: Option<int>, hasPlan: bool,
                       before: seq<Move>, m: Move, after: seq<Move>, a: string, b: string)
    requires a != b && !newest(m.run) && forall r: nat :: words(r) == if r == m.run then b else a
    requires var now := Run(OutlineRules(), OutlineTargets(times), Outlined(at, hasPlan), before);
             Saves(now, m) && QuietRow(OutlineRules(), OutlineTargets(times), newest,
                                        Step(OutlineRules(), OutlineTargets(times), now, m), after)
    requires !RowClear(OutlineRules(), OutlineTargets(times), newest, Outlined(at, hasPlan), before + ([m] + after))
    ensures var end := Run(WordRules(), WordTargets(times, words), Told(at, hasPlan, a), before + ([m] + after));
            end.row.Some? && end.row.value.word == b
  {
    var rules, targets, start := WordRules(), WordTargets(times, words), Told(at, hasPlan, a);
    var now := Run(rules, targets, start, before);
    var next := Step(rules, targets, now, m);
    BeforeAndAt(times, words, newest, at, hasPlan, before, m, after, a, b);
    RunSplit(rules, targets, start, before, [m] + after);
    RunCons(rules, targets, now, m, after);
    var end := Run(rules, targets, next, after);
    forall r: nat | newest(r) && Late(PhaseOf(next, r), a) ensures !HasSaved(PhaseOf(end, r)) {
      if HasSaved(PhaseOf(end, r)) && PhaseOf(next, r).Idle? {
        IdleSaverClears(rules, targets, newest, next, after, r);
        ClearLater(rules, targets, newest, now, [m], after);
        assert [m][1..] == [];
        ClearLater(rules, targets, newest, start, before, [m] + after);
        WordsDoNotMatter(times, words, newest, at, hasPlan, a, before + ([m] + after));
      }
    }
    OtherWordStays(times, words, newest, next, after, a, b);
  }

  lemma BeforeAndAt(times: nat -> int, words: nat -> string, newest: nat -> bool, at: Option<int>, hasPlan: bool,
                    before: seq<Move>, m: Move, after: seq<Move>, a: string, b: string)
    requires a != b && !newest(m.run) && forall r: nat :: words(r) == if r == m.run then b else a
    requires var now := Run(OutlineRules(), OutlineTargets(times), Outlined(at, hasPlan), before);
             Saves(now, m) && QuietRow(OutlineRules(), OutlineTargets(times), newest,
                                        Step(OutlineRules(), OutlineTargets(times), now, m), after)
    ensures var rules, targets := WordRules(), WordTargets(times, words);
            var now := Run(rules, targets, Told(at, hasPlan, a), before);
            var next := Step(rules, targets, now, m);
            && Saves(now, m) && AllRowsSay(now, a) && Anchored(next)
            && next.row.Some? && next.row.value.word == b
            && (forall r: nat :: Late(PhaseOf(next, r), a) ==> PhaseOf(next, r).Idle?)
            && QuietRow(rules, targets, newest, next, after)
  {
    var rules, targets, start := WordRules(), WordTargets(times, words), Told(at, hasPlan, a);
    WordsDoNotInterfere(times, words, newest, at, hasPlan, a, before, m, after);
    SameWordStays(times, words, start, before, a, m.run);
    OddSave(times, words, Run(rules, targets, start, before), m, a, b);
  }

  lemma OddSave(times: nat -> int, words: nat -> string, race: Worded, m: Move, a: string, b: string)
    requires a != b && words(m.run) == b && AllRowsSay(race, a) && Anchored(race) && Saves(race, m)
    ensures var next := Step(WordRules(), WordTargets(times, words), race, m);
            && Anchored(next) && next.row.Some? && next.row.value.word == b
            && (forall r: nat :: Late(PhaseOf(next, r), a) ==> PhaseOf(next, r).Idle?)
  {
    StepAnchored(WordRules(), WordTargets(times, words), race, m);
  }

  lemma AssignedStays<R, P>(rules: Rules<R, P>, targets: nat -> Target<R, P>, race: Race<R, P>, ms: seq<Move>, run: nat)
    requires HasAssigned(PhaseOf(race, run))
    ensures HasAssigned(PhaseOf(Run(rules, targets, race, ms), run))
    decreases |ms|
  {
    if ms != [] {
      AssignedStays(rules, targets, Step(rules, targets, race, ms[0]), ms[1..], run);
    }
  }

  lemma AssignerHasAssigned<R, P>(rules: Rules<R, P>, targets: nat -> Target<R, P>, race: Race<R, P>, ms: seq<Move>)
    requires ms != [] && Assigns(race, ms[0])
    ensures HasAssigned(PhaseOf(Run(rules, targets, race, ms), ms[0].run))
  {
    AssignedStays(rules, targets, Step(rules, targets, race, ms[0]), ms[1..], ms[0].run);
  }

  predicate Unread<R, P>(phase: Phase<R, P>) {
    phase.Idle? || phase.Loaded?
  }

  /** In a quiet stretch, a newest run that has yet to find the plan row and writes it makes the stretch clear. */
  lemma {:induction false} FinderClears<R, P>(rules: Rules<R, P>, targets: nat -> Target<R, P>, newest: nat -> bool,
      race: Race<R, P>, ms: seq<Move>, run: nat)
    requires newest(run) && Unread(PhaseOf(race, run)) && QuietPlan(rules, targets, newest, race, ms)
    requires HasAssigned(PhaseOf(Run(rules, targets, race, ms), run))
    ensures PlanClear(rules, targets, newest, race, ms)
    decreases |ms|
  {
    if ms[0].kind.Stop? && ms[0].run == run && PhaseOf(race, run).Loaded? {
      OverStays(rules, targets, Step(rules, targets, race, ms[0]), ms[1..], run);
    } else if ms[0].kind.Load? && ms[0].run == run && PhaseOf(race, run).Idle? {
      var race1 := Step(rules, targets, race, ms[0]);
      if PhaseOf(race1, run).Over? {
        OverStays(rules, targets, race1, ms[1..], run);
      } else {
        FinderClears(rules, targets, newest, race1, ms[1..], run);
      }
    } else if !(ms[0].kind.Find? && ms[0].run == run && PhaseOf(race, run).Loaded?) {
      FinderClears(rules, targets, newest, Step(rules, targets, race, ms[0]), ms[1..], run);
    }
  }

  /** The last plan write of another event. */
  lemma {:induction false} LastOtherAssign<R, P>(rules: Rules<R, P>, targets: nat -> Target<R, P>, newest: nat -> bool,
      race: Race<R, P>, ms: seq<Move>) returns (before: seq<Move>, m: Move, after: seq<Move>)
    requires !QuietPlan(rules, targets, newest, race, ms)
    ensures ms == before + ([m] + after)
    ensures var now := Run(rules, targets, race, before);
            && Assigns(now, m) && !newest(m.run)
            && QuietPlan(rules, targets, newest, Step(rules, targets, now, m), after)
    decreases |ms|
  {
    var race1 := Step(rules, targets, race, ms[0]);
    if QuietPlan(rules, targets, newest, race1, ms[1..]) {
      before, m, after := [], ms[0], ms[1..];
    } else {
      before, m, after := LastOtherAssign(rules, targets, newest, race1, ms[1..]);
      RunCons(rules, targets, race, ms[0], before);
      Refront(ms, before, m, after);
      before := [ms[0]] + before;
    }
  }

  predicate PlanSays(race: Worded, word: string) {
    race.plan.Some? ==> race.plan.value == word
  }

  predicate AllPlansSay(race: Worded, word: string) {
    PlanSays(race, word) &&
    forall r :: r in race.runs && race.runs[r].Found? && race.runs[r].seen.Some? ==> race.runs[r].seen.value == word
  }

  lemma SamePlanStep(times: nat -> int, words: nat -> string, race: Worded, m: Move, word: string)
    requires AllPlansSay(race, word) && (Assigns(race, m) ==> words(m.run) == word)
    ensures AllPlansSay(Step(WordRules(), WordTargets(times, words), race, m), word)
  {
  }

  lemma {:induction false} SamePlanStays(times: nat -> int, words: nat -> string, race: Worded, ms: seq<Move>,
                                         word: string, odd: nat)
    requires AllPlansSay(race, word) && Anchored(race) && forall r: nat :: r != odd ==> words(r) == word
    requires !HasAssigned(PhaseOf(Run(WordRules(), WordTargets(times, words), race, ms), odd))
    ensures AllPlansSay(Run(WordRules(), WordTargets(times, words), race, ms), word)
    ensures Anchored(Run(WordRules(), WordTargets(times, words), race, ms))
    decreases |ms|
  {
    if ms != [] {
      var targets := WordTargets(times, words);
      StepAnchored(WordRules(), targets, race, ms[0]);
      if Assigns(race, ms[0]) {
        AssignerHasAssigned(WordRules(), targets, race, ms);
      }
      SamePlanStep(times, words, race, ms[0], word);
      SamePlanStays(times, words, Step(WordRules(), targets, race, ms[0]), ms[1..], word, odd);
    }
  }

  predicate LateForPlan(phase: Phase<Stamp, string>, a: string) {
    Unread(phase) || (phase.Found? && phase.seen.Some? && phase.seen.value != a)
  }

  lemma {:induction false} OtherPlanStays(times: nat -> int, words: nat -> string, newest: nat -> bool, race: Worded,
                                          ms: seq<Move>, a: string, b: string)
    requires a != b && race.plan == Some(b) && Anchored(race)
    requires forall r: nat :: newest(r) ==> words(r) == a
    requires QuietPlan(WordRules(), WordTargets(times, words), newest, race, ms)
    requires var end := Run(WordRules(), WordTargets(times, words), race, ms);
             forall r: nat :: newest(r) && LateForPlan(PhaseOf(race, r), a) ==> !HasAssigned(PhaseOf(end, r))
    ensures Run(WordRules(), WordTargets(times, words), race, ms).plan == Some(b)
    decreases |ms|
  {
    if ms != [] {
      var targets := WordTargets(times, words);
      StepAnchored(WordRules(), targets, race, ms[0]);
      if Assigns(race, ms[0]) {
        AssignerHasAssigned(WordRules(), targets, race, ms);
      }
      OtherPlanStays(times, words, newest, Step(WordRules(), targets, race, ms[0]), ms[1..], a, b);
    }
  }

  lemma {:induction false} UnassignedWordAbsent(times: nat -> int, words: nat -> string, newest: nat -> bool,
                                                race: Worded,
                                                ms: seq<Move>, b: string)
    requires AllPlansSay(race, b) && Anchored(race) && forall r: nat :: !newest(r) ==> words(r) == b
    requires var end := Run(WordRules(), WordTargets(times, words), race, ms);
             forall r: nat :: newest(r) ==> !HasAssigned(PhaseOf(end, r))
    ensures PlanSays(Run(WordRules(), WordTargets(times, words), race, ms), b)
    decreases |ms|
  {
    if ms != [] {
      var targets := WordTargets(times, words);
      StepAnchored(WordRules(), targets, race, ms[0]);
      if Assigns(race, ms[0]) {
        AssignerHasAssigned(WordRules(), targets, race, ms);
      }
      SamePlanStep(times, words, race, ms[0], b);
      UnassignedWordAbsent(times, words, newest, Step(WordRules(), targets, race, ms[0]), ms[1..], b);
    }
  }

  lemma NobodyAssigns(times: nat -> int, newest: nat -> bool, at: Option<int>, hasPlan: bool, ms: seq<Move>,
                      a: string, b: string) returns (words: nat -> string)
    requires var end := Run(OutlineRules(), OutlineTargets(times), Outlined(at, hasPlan), ms);
             forall r: nat :: newest(r) ==> !HasAssigned(PhaseOf(end, r))
    ensures forall r: nat :: words(r) == if newest(r) then a else b
    ensures PlanSays(Run(WordRules(), WordTargets(times, words), Told(at, hasPlan, b), ms), b)
  {
    words := (r: nat) => if newest(r) then a else b;
    forall r: nat | newest(r)
      ensures !HasAssigned(PhaseOf(Run(WordRules(), WordTargets(times, words), Told(at, hasPlan, b), ms), r)) {
      WordsDoNotDecide(times, words, at, hasPlan, b, ms, r);
    }
    UnassignedWordAbsent(times, words, newest, Told(at, hasPlan, b), ms, b);
  }

  lemma LastOtherAssignShows(times: nat -> int, newest: nat -> bool, at: Option<int>, hasPlan: bool, ms: seq<Move>,
                             run: nat, a: string, b: string) returns (words: nat -> string)
    requires a != b && newest(run)
    requires !PlanClear(OutlineRules(), OutlineTargets(times), newest, Outlined(at, hasPlan), ms)
    requires HasAssigned(PhaseOf(Run(OutlineRules(), OutlineTargets(times), Outlined(at, hasPlan), ms), run))
    ensures forall r: nat :: words(r) == a || (words(r) == b && !newest(r))
    ensures Run(WordRules(), WordTargets(times, words), Told(at, hasPlan, a), ms).plan == Some(b)
  {
    var outline, dull := Outlined(at, hasPlan), OutlineTargets(times);
    if QuietPlan(OutlineRules(), dull, newest, outline, ms) {
      FinderClears(OutlineRules(), dull, newest, outline, ms, run);
    }
    var before, m, after := LastOtherAssign(OutlineRules(), dull, newest, outline, ms);
    words := (r: nat) => if r == m.run then b else a;
    OtherPlanShows(times, words, newest, at, hasPlan, before, m, after, a, b);
  }

  lemma OtherPlanShows(times: nat -> int, words: nat -> string, newest: nat -> bool, at: Option<int>, hasPlan: bool,
                       before: seq<Move>, m: Move, after: seq<Move>, a: string, b: string)
    requires a != b && !newest(m.run) && forall r: nat :: words(r) == if r == m.run then b else a
    requires var now := Run(OutlineRules(), OutlineTargets(times), Outlined(at, hasPlan), before);
             Assigns(now, m) && QuietPlan(OutlineRules(), OutlineTargets(times), newest,
                                          Step(OutlineRules(), OutlineTargets(times), now, m), after)
    requires !PlanClear(OutlineRules(), OutlineTargets(times), newest, Outlined(at, hasPlan), before + ([m] + after))
    ensures Run(WordRules(), WordTargets(times, words), Told(at, hasPlan, a), before + ([m] + after)).plan == Some(b)
  {
    var rules, targets, start := WordRules(), WordTargets(times, words), Told(at, hasPlan, a);
    var now := Run(rules, targets, start, before);
    var next := Step(rules, targets, now, m);
    PlanBeforeAndAt(times, words, newest, at, hasPlan, before, m, after, a, b);
    RunSplit(rules, targets, start, before, [m] + after);
    RunCons(rules, targets, now, m, after);
    var end := Run(rules, targets, next, after);
    forall r: nat | newest(r) && LateForPlan(PhaseOf(next, r), a) ensures !HasAssigned(PhaseOf(end, r)) {
      if HasAssigned(PhaseOf(end, r)) {
        FinderClears(rules, targets, newest, next, after, r);
        ClearLater(rules, targets, newest, now, [m], after);
        assert [m][1..] == [];
        ClearLater(rules, targets, newest, start, before, [m] + after);
        WordsDoNotMatter(times, words, newest, at, hasPlan, a, before + ([m] + after));
      }
    }
    OtherPlanStays(times, words, newest, next, after, a, b);
  }

  lemma PlanBeforeAndAt(times: nat -> int, words: nat -> string, newest: nat -> bool, at: Option<int>, hasPlan: bool,
                        before: seq<Move>, m: Move, after: seq<Move>, a: string, b: string)
    requires a != b && !newest(m.run) && forall r: nat :: words(r) == if r == m.run then b else a
    requires var now := Run(OutlineRules(), OutlineTargets(times), Outlined(at, hasPlan), before);
             Assigns(now, m) && QuietPlan(OutlineRules(), OutlineTargets(times), newest,
                                          Step(OutlineRules(), OutlineTargets(times), now, m), after)
    ensures var rules, targets := WordRules(), WordTargets(times, words);
            var next := Step(rules, targets, Run(rules, targets, Told(at, hasPlan, a), before), m);
            && Anchored(next) && next.plan == Some(b)
            && (forall r: nat :: LateForPlan(PhaseOf(next, r), a) ==> Unread(PhaseOf(next, r)))
            && QuietPlan(rules, targets, newest, next, after)
  {
    var rules, targets, start := WordRules(), WordTargets(times, words), Told(at, hasPlan, a);
    WordsDoNotInterfere(times, words, newest, at, hasPlan, a, before, m, after);
    SamePlanStays(times, words, start, before, a, m.run);
    OddAssign(times, words, Run(rules, targets, start, before), m, a, b);
  }

  lemma OddAssign(times: nat -> int, words: nat -> string, race: Worded, m: Move, a: string, b: string)
    requires a != b && words(m.run) == b && AllPlansSay(race, a) && Anchored(race) && Assigns(race, m)
    ensures var next := Step(WordRules(), WordTargets(times, words), race, m);
            && Anchored(next) && next.plan == Some(b)
            && (forall r: nat :: LateForPlan(PhaseOf(next, r), a) ==> Unread(PhaseOf(next, r)))
  {
    StepAnchored(WordRules(), WordTargets(times, words), race, m);
  }
}
