/** Overlapping runs of `syncSubscription` on the mirror and plan rows themselves. */
module SubscriptionRace {
  import opened Json
  import opened StripeEvent
  import opened Billing
  import opened SyncRace
  import opened RaceExact
  import DeliveryOrder

  /** A model save of a mirror row: the fields that differ from the loaded ones. */
  function MergeMirror(c: Mirror, l: Mirror, n: Mirror): Mirror {
    Mirror(
      Changed(c.tenant, l.tenant, n.tenant), Changed(c.status, l.status, n.status),
      Changed(c.periodStart, l.periodStart, n.periodStart), Changed(c.periodEnd, l.periodEnd, n.periodEnd),
      Changed(c.cancelAtPeriodEnd, l.cancelAtPeriodEnd, n.cancelAtPeriodEnd),
      Changed(c.cancelAt, l.cancelAt, n.cancelAt),
      Changed(c.canceledAt, l.canceledAt, n.canceledAt), Changed(c.trialEnd, l.trialEnd, n.trialEnd),
      Changed(c.plan, l.plan, n.plan), Changed(c.lastEventAt, l.lastEventAt, n.lastEventAt),
      Changed(c.raw, l.raw, n.raw))
  }

  function MergePlan(c: PlanRow, l: PlanRow, n: PlanRow): PlanRow {
    PlanRow(Changed(c.plan, l.plan, n.plan), Changed(c.source, l.source, n.source),
            Changed(c.expiresAt, l.expiresAt, n.expiresAt))
  }

  function SyncRules(): Rules<Mirror, PlanRow> {
    Rules((m: Mirror) => m.lastEventAt, (c: Mirror, l: Mirror, n: Mirror) => MergeMirror(c, l, n),
          (c: PlanRow, l: PlanRow, n: PlanRow) => MergePlan(c, l, n))
  }

  lemma SyncRulesLawful()
    ensures Lawful(SyncRules())
  {
  }

  const NO_ROW := Mirror("", "", 0, 0, false, None, None, None, "", 0, map[])

  /** What the run for an event writes. */
  function TargetOf(cfg: Config, tenant: string, e: Event): Target<Mirror, PlanRow> {
    Target(
      if Read(e).SyncSub? && Read(e).sub.status.Some? then DeliveryOrder.MirrorFor(cfg, e, tenant) else NO_ROW,
      if Read(e).SyncSub? then DeliveryOrder.PlanRowFor(cfg, e) else PlanRow("", "", None))
  }

  /**
   Who plays in a race: the events of the runs, the event that the mirror row shows at first, and the first plan row.
   */
  datatype Cast = Cast(cfg: Config, subject: DeliveryOrder.Subject, tenant: string, events: nat -> Event,
                       first: Option<Event>, plan: Option<PlanRow>)

  /** The cast fits an outline: the events apply to the subject, have the given times, and the newest runs share one. */
  ghost predicate Plays(cast: Cast, times: nat -> int, newest: nat -> bool, at: Option<int>, hasPlan: bool) {
    && (forall r: nat ::
          DeliveryOrder.Applies(cast.cfg, cast.subject, cast.events(r)) && cast.events(r).created == times(r))
    && (forall r: nat, q: nat :: newest(r) && newest(q) ==> cast.events(r) == cast.events(q))
    && (cast.first.Some? <==> at.Some?) && (cast.plan.Some? <==> hasPlan)
    && (cast.first.Some? ==>
          DeliveryOrder.Applies(cast.cfg, cast.subject, cast.first.value) && cast.first.value.created == at.value)
  }

  function TargetsOf(cast: Cast): nat -> Target<Mirror, PlanRow> {
    (r: nat) => TargetOf(cast.cfg, cast.tenant, cast.events(r))
  }

  function StartOf(cast: Cast): Race<Mirror, PlanRow> {
    Race(if cast.first.Some? then Some(TargetOf(cast.cfg, cast.tenant, cast.first.value).row) else None,
         cast.plan, map[])
  }

  function End(cast: Cast, ms: seq<Move>): Race<Mirror, PlanRow> {
    SyncRace.Run(SyncRules(), TargetsOf(cast), StartOf(cast), ms)
  }

  ghost predicate RowShown(cast: Cast, newest: nat -> bool, ms: seq<Move>) {
    forall r: nat :: newest(r) ==> End(cast, ms).row == Some(TargetsOf(cast)(r).row)
  }

  ghost predicate PlanShown(cast: Cast, newest: nat -> bool, ms: seq<Move>) {
    forall r: nat :: newest(r) ==> End(cast, ms).plan == Some(TargetsOf(cast)(r).plan)
  }

  function MirrorTime(): Mirror -> int {
    (m: Mirror) => m.lastEventAt
  }

  function PlanPresent(): PlanRow -> () {
    (p: PlanRow) => ()
  }

  lemma TargetTime(cfg: Config, s: DeliveryOrder.Subject, tenant: string, e: Event)
    requires DeliveryOrder.Applies(cfg, s, e)
    ensures TargetOf(cfg, tenant, e).row.lastEventAt == e.created
  {
  }

  lemma OutlineRespects()
    ensures Respects(SyncRules(), OutlineRules(), MirrorTime(), PlanPresent())
  {
    forall c: Mirror, l: Mirror, n: Mirror
      ensures MirrorTime()(SyncRules().mergeRow(c, l, n)) ==
              OutlineRules().mergeRow(MirrorTime()(c), MirrorTime()(l), MirrorTime()(n)) {
      MergedTime(c, l, n);
    }
    forall c: PlanRow, l: PlanRow, n: PlanRow
      ensures PlanPresent()(SyncRules().mergePlan(c, l, n)) ==
              OutlineRules().mergePlan(PlanPresent()(c), PlanPresent()(l), PlanPresent()(n)) {
    }
  }

  lemma MergedTime(c: Mirror, l: Mirror, n: Mirror)
    ensures MergeMirror(c, l, n).lastEventAt == Changed(c.lastEventAt, l.lastEventAt, n.lastEventAt)
    ensures MergeMirror(c, l, n).status == Changed(c.status, l.status, n.status)
  {
  }

  lemma CastOutline(cast: Cast, times: nat -> int, newest: nat -> bool, at: Option<int>, hasPlan: bool)
    requires Plays(cast, times, newest, at, hasPlan)
    ensures Viewed(TargetsOf(cast), OutlineTargets(times), MirrorTime(), PlanPresent())
    ensures Image(MirrorTime(), PlanPresent(), StartOf(cast)) == Outlined(at, hasPlan)
  {
    forall r: nat ensures TargetsOf(cast)(r).row.lastEventAt == times(r) {
      TargetTime(cast.cfg, cast.subject, cast.tenant, cast.events(r));
    }
    if cast.first.Some? {
      TargetTime(cast.cfg, cast.subject, cast.tenant, cast.first.value);
    }
  }

  lemma ClearShows(cast: Cast, times: nat -> int, newest: nat -> bool, at: Option<int>, hasPlan: bool, ms: seq<Move>)
    requires Plays(cast, times, newest, at, hasPlan)
    ensures RowClear(OutlineRules(), OutlineTargets(times), newest, Outlined(at, hasPlan), ms) ==>
            RowShown(cast, newest, ms)
    ensures PlanClear(OutlineRules(), OutlineTargets(times), newest, Outlined(at, hasPlan), ms) ==>
            PlanShown(cast, newest, ms)
  {
    OutlineRespects();
    CastOutline(cast, times, newest, at, hasPlan);
    ImageClear(SyncRules(), OutlineRules(), MirrorTime(), PlanPresent(), TargetsOf(cast), OutlineTargets(times), newest,
               StartOf(cast), ms);
    ClearRowsShow(cast, newest, ms);
    ClearPlansShow(cast, newest, ms);
  }

  lemma ClearRowsShow(cast: Cast, newest: nat -> bool, ms: seq<Move>)
    requires forall r: nat, q: nat :: newest(r) && newest(q) ==> cast.events(r) == cast.events(q)
    ensures RowClear(SyncRules(), TargetsOf(cast), newest, StartOf(cast), ms) ==> RowShown(cast, newest, ms)
  {
    SyncRulesLawful();
    if RowClear(SyncRules(), TargetsOf(cast), newest, StartOf(cast), ms) {
      forall r: nat | newest(r)
        ensures End(cast, ms).row == Some(TargetsOf(cast)(r).row) {
        RowClearShows(SyncRules(), TargetsOf(cast), newest, StartOf(cast), ms, TargetsOf(cast)(r).row);
      }
    }
  }

  lemma ClearPlansShow(cast: Cast, newest: nat -> bool, ms: seq<Move>)
    requires forall r: nat, q: nat :: newest(r) && newest(q) ==> cast.events(r) == cast.events(q)
    ensures PlanClear(SyncRules(), TargetsOf(cast), newest, StartOf(cast), ms) ==> PlanShown(cast, newest, ms)
  {
    SyncRulesLawful();
    if PlanClear(SyncRules(), TargetsOf(cast), newest, StartOf(cast), ms) {
      forall r: nat | newest(r)
        ensures End(cast, ms).plan == Some(TargetsOf(cast)(r).plan) {
        PlanClearShows(SyncRules(), TargetsOf(cast), newest, StartOf(cast), ms, TargetsOf(cast)(r).plan);
      }
    }
  }

  const UP := "active"
  const DUE := "past_due"

  /** An event whose status and plan are the same word. */
  function WordBody(word: string): Fields {
    map[Id := Str("sub"), Customer := Str("cus"), Status := Str(word),
        Items := Obj(map[Data := Arr([Obj(map[Price := Obj(map[Product := Str(word)])])])])]
  }

  function WordEvent(word: string, at: int): Event {
    Event("evt", SubscriptionType(WasUpdated), at, None, WordBody(word))
  }

  const WORDED := Config("default", map[UP := UP, DUE := DUE], None, 3, false)

  const WORD_SUBJECT := DeliveryOrder.Subject("sub", "cus")

  lemma WordView(word: string)
    ensures ViewSub(WordBody(word)) ==
            SubView(Some("sub"), Some("cus"), Some(word), Some(word), None, None, None, false, None, None, None)
  {
    var o := WordBody(word);
    var price: Fields := map[Product := Str(word)];
    var item: Fields := map[Price := Obj(price)];
    assert ItemsOf(o) == Some([Obj(item)]);
    assert FirstItem(o) == Some(Obj(item));
    assert Get(Some(Obj(item)), Price) == Some(Obj(price));
    assert Get(Some(Obj(price)), Product) == Some(Str(word));
  }

  lemma WordTarget(word: string, at: int)
    requires word == UP || word == DUE
    ensures DeliveryOrder.Applies(WORDED, WORD_SUBJECT, WordEvent(word, at))
    ensures var target := TargetOf(WORDED, "tenant", WordEvent(word, at));
            target.row.status == word && target.row.lastEventAt == at && target.plan == PlanRow(word, "stripe", None)
  {
    WordView(word);
  }

  function WordCast(times: nat -> int, words: nat -> string, at: Option<int>, hasPlan: bool, word: string): Cast {
    Cast(WORDED, WORD_SUBJECT, "tenant", (r: nat) => WordEvent(words(r), times(r)),
         if at.Some? then Some(WordEvent(word, at.value)) else None,
         if hasPlan then Some(PlanRow(word, "stripe", None)) else None)
  }

  function StampView(): Mirror -> Stamp {
    (m: Mirror) => Stamp(m.lastEventAt, m.status)
  }

  function NameView(): PlanRow -> string {
    (p: PlanRow) => p.plan
  }

  ghost predicate Wordy(words: nat -> string) {
    forall r: nat :: words(r) == UP || words(r) == DUE
  }

  lemma WordsAreRespected()
    ensures Respects(SyncRules(), WordRules(), StampView(), NameView())
  {
    forall c: Mirror, l: Mirror, n: Mirror
      ensures StampView()(SyncRules().mergeRow(c, l, n)) ==
              WordRules().mergeRow(StampView()(c), StampView()(l), StampView()(n)) {
      MergedTime(c, l, n);
    }
    forall c: PlanRow, l: PlanRow, n: PlanRow
      ensures NameView()(SyncRules().mergePlan(c, l, n)) ==
              WordRules().mergePlan(NameView()(c), NameView()(l), NameView()(n)) {
      assert MergePlan(c, l, n).plan == Changed(c.plan, l.plan, n.plan);
    }
  }

  /** Every race of words is played by events. */
  lemma WordsArePlayed(times: nat -> int, words: nat -> string, newest: nat -> bool, at: Option<int>, hasPlan: bool,
                       word: string)
    requires Wordy(words) && (word == UP || word == DUE)
    requires forall r: nat, q: nat :: newest(r) && newest(q) ==> times(r) == times(q) && words(r) == words(q)
    ensures var cast := WordCast(times, words, at, hasPlan, word);
            Plays(cast, times, newest, at, hasPlan)
              && Viewed(TargetsOf(cast), WordTargets(times, words), StampView(), NameView())
  {
    var cast := WordCast(times, words, at, hasPlan, word);
    forall r: nat
      ensures DeliveryOrder.Applies(WORDED, WORD_SUBJECT, cast.events(r)) && cast.events(r).created == times(r)
      ensures TargetsOf(cast)(r).row.status == words(r) && TargetsOf(cast)(r).row.lastEventAt == times(r)
      ensures TargetsOf(cast)(r).plan.plan == words(r) {
      WordTarget(words(r), times(r));
    }
    if at.Some? {
      WordTarget(word, at.value);
    }
  }

  lemma WordStart(times: nat -> int, words: nat -> string, at: Option<int>, hasPlan: bool, word: string)
    requires word == UP || word == DUE
    ensures Image(StampView(), NameView(), StartOf(WordCast(times, words, at, hasPlan, word))) ==
            Told(at, hasPlan, word)
  {
    if at.Some? {
      WordTarget(word, at.value);
    }
  }

  /** What the words show, the events show. */
  lemma WordsShow(times: nat -> int, words: nat -> string, at: Option<int>, hasPlan: bool, word: string, ms: seq<Move>,
                  run: nat)
    requires Wordy(words) && (word == UP || word == DUE)
    requires Viewed(TargetsOf(WordCast(times, words, at, hasPlan, word)), WordTargets(times, words), StampView(),
                    NameView())
    ensures var cast := WordCast(times, words, at, hasPlan, word);
            var told := SyncRace.Run(WordRules(), WordTargets(times, words), Told(at, hasPlan, word), ms);
            && (End(cast, ms).row == Some(TargetsOf(cast)(run).row) ==>
                  told.row.Some? && told.row.value.word == words(run))
            && (End(cast, ms).plan == Some(TargetsOf(cast)(run).plan) ==> told.plan == Some(words(run)))
  {
    var cast := WordCast(times, words, at, hasPlan, word);
    WordTarget(words(run), times(run));
    WordsAreRespected();
    WordStart(times, words, at, hasPlan, word);
    ImageRun(SyncRules(), WordRules(), StampView(), NameView(), TargetsOf(cast), WordTargets(times, words),
             (r: nat) => true, StartOf(cast), ms);
    ImageRows(StampView(), NameView(), End(cast, ms));
  }

  lemma ImageRows<R, P, R2, P2>(f: R -> R2, g: P -> P2, race: Race<R, P>)
    ensures Image(f, g, race).row == Through(f, race.row) && Image(f, g, race).plan == Through(g, race.plan)
  {
  }

  /** An unclear row can be lost, and so can an unclear plan. */
  lemma UnclearRowIsLost(times: nat -> int, newest: nat -> bool, at: Option<int>, hasPlan: bool, ms: seq<Move>,
                         run: nat)
    returns (cast: Cast)
    requires newest(run) && forall r: nat, q: nat :: newest(r) && newest(q) ==> times(r) == times(q)
    requires !RowClear(OutlineRules(), OutlineTargets(times), newest, Outlined(at, hasPlan), ms)
    ensures Plays(cast, times, newest, at, hasPlan) && !RowShown(cast, newest, ms)
  {
    var words, word := RowLosers(times, newest, at, hasPlan, ms, run);
    WordsArePlayed(times, words, newest, at, hasPlan, word);
    WordsShow(times, words, at, hasPlan, word, ms, run);
    cast := WordCast(times, words, at, hasPlan, word);
  }

  lemma RowLosers(times: nat -> int, newest: nat -> bool, at: Option<int>, hasPlan: bool, ms: seq<Move>, run: nat)
    returns (words: nat -> string, word: string)
    requires newest(run) && !RowClear(OutlineRules(), OutlineTargets(times), newest, Outlined(at, hasPlan), ms)
    ensures Wordy(words) && (word == UP || word == DUE) && forall r: nat :: newest(r) ==> words(r) == UP
    ensures var told := SyncRace.Run(WordRules(), WordTargets(times, words), Told(at, hasPlan, word), ms);
            told.row.Some? ==> told.row.value.word != UP
  {
    var end := SyncRace.Run(OutlineRules(), OutlineTargets(times), Outlined(at, hasPlan), ms);
    if saver: nat :| newest(saver) && HasSaved(PhaseOf(end, saver)) {
      word := UP;
      words := LastOtherSaveShows(times, newest, at, hasPlan, ms, saver, UP, DUE);
    } else {
      word := DUE;
      words := NobodySaves(times, newest, at, hasPlan, ms, UP, DUE);
    }
  }

  lemma UnclearPlanIsLost(times: nat -> int, newest: nat -> bool, at: Option<int>, hasPlan: bool, ms: seq<Move>,
                          run: nat)
    returns (cast: Cast)
    requires newest(run) && forall r: nat, q: nat :: newest(r) && newest(q) ==> times(r) == times(q)
    requires !PlanClear(OutlineRules(), OutlineTargets(times), newest, Outlined(at, hasPlan), ms)
    ensures Plays(cast, times, newest, at, hasPlan) && !PlanShown(cast, newest, ms)
  {
    var words, word := PlanLosers(times, newest, at, hasPlan, ms, run);
    WordsArePlayed(times, words, newest, at, hasPlan, word);
    WordsShow(times, words, at, hasPlan, word, ms, run);
    cast := WordCast(times, words, at, hasPlan, word);
  }

  lemma PlanLosers(times: nat -> int, newest: nat -> bool, at: Option<int>, hasPlan: bool, ms: seq<Move>, run: nat)
    returns (words: nat -> string, word: string)
    requires newest(run) && !PlanClear(OutlineRules(), OutlineTargets(times), newest, Outlined(at, hasPlan), ms)
    ensures Wordy(words) && (word == UP || word == DUE) && forall r: nat :: newest(r) ==> words(r) == UP
    ensures SyncRace.Run(WordRules(), WordTargets(times, words), Told(at, hasPlan, word), ms).plan != Some(UP)
  {
    var end := SyncRace.Run(OutlineRules(), OutlineTargets(times), Outlined(at, hasPlan), ms);
    if writer: nat :| newest(writer) && HasAssigned(PhaseOf(end, writer)) {
      word := UP;
      words := LastOtherAssignShows(times, newest, at, hasPlan, ms, writer, UP, DUE);
    } else {
      word := DUE;
      words := NobodyAssigns(times, newest, at, hasPlan, ms, UP, DUE);
    }
  }

  /**
   When overlapping runs show the newest event. Fix when each run loads, finds, writes, saves or dies, and the events'
   times. The mirror row ends as the newest event says, whatever the events say, if and only if some run of the newest
   event saves it and no other event's run saves it from that run's load on; the plan row likewise, from the time that
   some newest run that writes it had found it.
   */
  lemma ShownExactly(times: nat -> int, newest: nat -> bool, at: Option<int>, hasPlan: bool, ms: seq<Move>, run: nat)
    requires newest(run) && forall r: nat, q: nat :: newest(r) && newest(q) ==> times(r) == times(q)
    ensures (forall cast :: Plays(cast, times, newest, at, hasPlan) ==> RowShown(cast, newest, ms)) <==>
            RowClear(OutlineRules(), OutlineTargets(times), newest, Outlined(at, hasPlan), ms)
    ensures (forall cast :: Plays(cast, times, newest, at, hasPlan) ==> PlanShown(cast, newest, ms)) <==>
            PlanClear(OutlineRules(), OutlineTargets(times), newest, Outlined(at, hasPlan), ms)
  {
    forall cast | Plays(cast, times, newest, at, hasPlan)
      ensures RowClear(OutlineRules(), OutlineTargets(times), newest, Outlined(at, hasPlan), ms) ==>
              RowShown(cast, newest, ms)
      ensures PlanClear(OutlineRules(), OutlineTargets(times), newest, Outlined(at, hasPlan), ms) ==>
              PlanShown(cast, newest, ms) {
      ClearShows(cast, times, newest, at, hasPlan, ms);
    }
    if !RowClear(OutlineRules(), OutlineTargets(times), newest, Outlined(at, hasPlan), ms) {
      var lost := UnclearRowIsLost(times, newest, at, hasPlan, ms, run);
    }
    if !PlanClear(OutlineRules(), OutlineTargets(times), newest, Outlined(at, hasPlan), ms) {
      var lost := UnclearPlanIsLost(times, newest, at, hasPlan, ms, run);
    }
  }
}
