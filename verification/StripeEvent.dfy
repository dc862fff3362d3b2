/** Stripe events and the stripped copy the webhook keeps of them (`src/services/billing/redact.ts`). */
module StripeEvent {
  import opened Json

  /** The action behind `customer.subscription.`. */
  datatype Action =
    | WasCreated | WasUpdated | WasPaused | WasResumed | WasDeleted | TrialWillEnd | OtherAction(name: string)

  /** Event types, told apart as far as the code tells them apart. */
  datatype EventType =
    | SubscriptionType(action: Action)                 // customer.subscription.*
    | PaymentSucceeded | PaymentFailed                 // invoice.payment_succeeded, invoice.payment_failed
    | OtherInvoiceType(name: string)                   // any other invoice.*
    | CheckoutCompleted                                // checkout.session.completed
    | CustomerDeleted                                  // customer.deleted
    | UnmappedType(name: string)
  {
    predicate IsInvoice() {
      PaymentSucceeded? || PaymentFailed? || OtherInvoiceType?
    }
  }

  datatype Event = Event(id: string, etype: EventType, created: int, apiVersion: Option<string>, body: Fields)

  function OptStr(s: Option<string>): Option<Json> {
    if s.Some? then Some(Str(s.value)) else None
  }

  function OptNum(n: Option<int>): Option<Json> {
    if n.Some? then Some(Num(n.value)) else None
  }

  function OptBool(b: Option<bool>): Option<Json> {
    if b.Some? then Some(Bool(b.value)) else None
  }

  /** The entries of an object that are present, out of the keys it may have. */
  function Present(keys: set<Key>, entry: Key -> Option<Json>): Fields {
    map k | k in keys && entry(k).Some? :: entry(k).value
  }

  /** What is kept of a price. */
  function KeptPrice(price: Option<Json>, key: Key): Option<Json> {
    match key
    case Id => OptStr(StrOf(Get(price, Id)))
    case Product => OptStr(Nonempty(IdOf(Get(price, Product))))
    case _ => None
  }

  /** What is kept of a subscription item. */
  function KeptInItem(item: Option<Json>, key: Key): Option<Json> {
    match key
    case Price =>
      if Truthy(Get(item, Price))
      then Some(Obj(Present({Id, Product}, k => KeptPrice(Get(item, Price), k))))
      else None
    case CurrentPeriodStart => OptNum(NumOf(Get(item, key)))
    case CurrentPeriodEnd => OptNum(NumOf(Get(item, key)))
    case _ => None
  }

  function KeptItem(raw: Json): Json {
    Obj(Present({Price, CurrentPeriodStart, CurrentPeriodEnd}, k => KeptInItem(Some(raw), k)))
  }

  function KeptItems(items: seq<Json>): (r: seq<Json>)
    ensures |r| == |items| && forall k :: 0 <= k < |r| ==> r[k] == KeptItem(items[k])
  {
    if items == [] then [] else [KeptItem(items[0])] + KeptItems(items[1..])
  }

  /** `obj.items?.data` when it is an array. */
  function ItemsOf(o: Fields): Option<seq<Json>> {
    ArrOf(Get(At(o, Items), Data))
  }

  /** The subscription an invoice belongs to, in either of the two shapes Stripe has used. */
  function InvoiceRef(o: Fields): Option<string> {
    Either(IdOf(At(o, Subscription)), IdOf(Get(Get(At(o, Parent), SubscriptionDetails), Subscription)))
  }

  /** What the stripped copy of a subscription holds under `key`. */
  function KeptInSubscription(o: Fields, key: Key): Option<Json> {
    match key
    case Id => OptStr(StrOf(At(o, Id)))
    case Customer => OptStr(Nonempty(IdOf(At(o, Customer))))
    case Status => OptStr(StrOf(At(o, key)))
    case CancelAtPeriodEnd => OptBool(BoolOf(At(o, key)))
    case CancelAt => OptNum(NumOf(At(o, key)))
    case CanceledAt => OptNum(NumOf(At(o, key)))
    case TrialEnd => OptNum(NumOf(At(o, key)))
    case CurrentPeriodStart => OptNum(NumOf(At(o, key)))
    case CurrentPeriodEnd => OptNum(NumOf(At(o, key)))
    case Items =>
      if ItemsOf(o).Some? then Some(Obj(map[Data := Arr(KeptItems(ItemsOf(o).value))])) else None
    case _ => None
  }

  function KeptInInvoice(o: Fields, key: Key): Option<Json> {
    match key
    case Id => OptStr(StrOf(At(o, Id)))
    case Customer => OptStr(Nonempty(IdOf(At(o, Customer))))
    case Status => OptStr(StrOf(At(o, key)))
    case Currency => OptStr(StrOf(At(o, key)))
    case AttemptCount => OptNum(NumOf(At(o, key)))
    case AmountPaid => OptNum(NumOf(At(o, key)))
    case AmountDue => OptNum(NumOf(At(o, key)))
    case NextPaymentAttempt => OptNum(NumOf(At(o, key)))
    case Subscription => OptStr(Nonempty(InvoiceRef(o)))
    case _ => None
  }

  function KeptInCheckout(o: Fields, key: Key): Option<Json> {
    match key
    case Id => OptStr(StrOf(At(o, Id)))
    case Customer => OptStr(Nonempty(IdOf(At(o, Customer))))
    case Mode => OptStr(StrOf(At(o, key)))
    case ClientReferenceId => OptStr(StrOf(At(o, key)))
    case _ => None
  }

  /** What the stripped copy of an event's object holds under `key`. */
  function Kept(t: EventType, o: Fields, key: Key): Option<Json> {
    if t.SubscriptionType? then KeptInSubscription(o, key)
    else if t.IsInvoice() then KeptInInvoice(o, key)
    else if t.CheckoutCompleted? then KeptInCheckout(o, key)
    else if key == Id then OptStr(StrOf(At(o, Id)))
    else None
  }

  const KEYS: set<Key> := {
    Id, Customer, Status, Currency, Mode, ClientReferenceId,
    CancelAtPeriodEnd, CancelAt, CanceledAt, TrialEnd, CurrentPeriodStart, CurrentPeriodEnd, Items,
    AttemptCount, AmountPaid, AmountDue, NextPaymentAttempt, Subscription}

  /** `replayableObject`: the kept keys and nothing else. */
  function Project(t: EventType, o: Fields): Fields {
    Present(KEYS, k => Kept(t, o, k))
  }

  lemma ProjectAt(t: EventType, o: Fields, key: Key)
    ensures At(Project(t, o), key) == Kept(t, o, key)
  {
  }

  lemma KeptItemAt(raw: Json, key: Key)
    ensures Get(Some(KeptItem(raw)), key) == KeptInItem(Some(raw), key)
  {
  }

  lemma KeptPriceAt(raw: Json, key: Key)
    ensures Truthy(Get(Some(raw), Price)) ==>
              Get(Get(Some(KeptItem(raw)), Price), key) == KeptPrice(Get(Some(raw), Price), key)
    ensures !Truthy(Get(Some(raw), Price)) ==> Get(Some(KeptItem(raw)), Price) == None
  {
    KeptItemAt(raw, Price);
  }

  /** The stripped copy as it is stored: a JSON object of the event's shape. */
  function ToReplayablePayload(e: Event, name: EventType -> string): Json {
    Obj(map[
      Id := Str(e.id),
      Type := Str(name(e.etype)),
      Created := Num(e.created),
      ApiVersion := (if e.apiVersion.Some? then Str(e.apiVersion.value) else Null),
      Data := Obj(map[Object := Obj(Project(e.etype, e.body))])
    ])
  }

  /** `rebuildStripeEvent`: the payload itself when it has the shape of an event, otherwise null. */
  function RebuildStripeEvent(payload: Option<Json>): Option<Json> {
    if !Truthy(payload) || !(payload.value.Obj? || payload.value.Arr?) then None
    else if StrOf(Get(payload, Id)).None? || StrOf(Get(payload, Type)).None? then None
    else
      var body := Get(Get(payload, Data), Object);
      if !Truthy(body) || !(body.value.Obj? || body.value.Arr?) then None else payload
  }

  /** The event a handler sees when it is given the JSON value `j`, its type name read by `typeOf`. */
  function EventOf(j: Json, typeOf: string -> EventType): Event {
    Event(
      GetOr(StrOf(Get(Some(j), Id)), ""),
      typeOf(GetOr(StrOf(Get(Some(j), Type)), "")),
      GetOr(NumOf(Get(Some(j), Created)), 0),
      StrOf(Get(Some(j), ApiVersion)),
      var body := Get(Get(Some(j), Data), Object);
      if body.Some? && body.value.Obj? then body.value.fields else map[])
  }

  /** The event rebuilt from the stored copy of `e`. */
  function Replayed(e: Event): Event {
    e.(body := Project(e.etype, e.body))
  }

  /** Storing the copy and rebuilding it gives the event with its object projected. */
  lemma RebuildGivesReplayed(e: Event, name: EventType -> string, typeOf: string -> EventType)
    requires typeOf(name(e.etype)) == e.etype
    ensures RebuildStripeEvent(Some(ToReplayablePayload(e, name))) == Some(ToReplayablePayload(e, name))
    ensures EventOf(ToReplayablePayload(e, name), typeOf) == Replayed(e)
  {
  }

  lemma PresentAlike(keys: set<Key>, f: Key -> Option<Json>, g: Key -> Option<Json>)
    requires forall k :: k in keys ==> f(k) == g(k)
    ensures Present(keys, f) == Present(keys, g)
  {
  }

  /** The price and what is kept of it are read alike. */
  lemma KeptInItemFixpoint(raw: Json, key: Key)
    ensures KeptInItem(Some(KeptItem(raw)), key) == KeptInItem(Some(raw), key)
  {
    KeptItemAt(raw, key);
    if key == Price && Truthy(Get(Some(raw), Price)) {
      KeptPriceAt(raw, Id);
      KeptPriceAt(raw, Product);
      PresentAlike({Id, Product}, k => KeptPrice(Get(Some(KeptItem(raw)), Price), k),
                   k => KeptPrice(Get(Some(raw), Price), k));
    }
  }

  lemma KeptItemFixpoint(raw: Json)
    ensures KeptItem(KeptItem(raw)) == KeptItem(raw)
  {
    forall k ensures KeptInItem(Some(KeptItem(raw)), k) == KeptInItem(Some(raw), k) {
      KeptInItemFixpoint(raw, k);
    }
    PresentAlike({Price, CurrentPeriodStart, CurrentPeriodEnd},
                 k => KeptInItem(Some(KeptItem(raw)), k), k => KeptInItem(Some(raw), k));
  }

  lemma {:induction false} KeptItemsFixpoint(items: seq<Json>)
    ensures KeptItems(KeptItems(items)) == KeptItems(items)
  {
    if items != [] {
      KeptItemFixpoint(items[0]);
      KeptItemsFixpoint(items[1..]);
      assert KeptItems(items)[1..] == KeptItems(items[1..]);
    }
  }

  lemma ItemsKept(o: Fields, o': Fields)
    requires At(o', Items) == KeptInSubscription(o, Items)
    ensures ItemsOf(o') == if ItemsOf(o).Some? then Some(KeptItems(ItemsOf(o).value)) else None
  {
  }

  lemma KeptFixpoint(t: EventType, o: Fields, key: Key)
    ensures Kept(t, Project(t, o), key) == Kept(t, o, key)
  {
    ProjectAt(t, o, key);
    if t.SubscriptionType? {
      SubscriptionFixpoint(o, Project(t, o), key);
    } else if t.IsInvoice() {
      ProjectAt(t, o, Parent);
      InvoiceFixpoint(o, Project(t, o), key);
    }
  }

  lemma SubscriptionFixpoint(o: Fields, once: Fields, key: Key)
    requires At(once, key) == KeptInSubscription(o, key)
    ensures KeptInSubscription(once, key) == KeptInSubscription(o, key)
  {
    if key == Items {
      ItemsKept(o, once);
      if ItemsOf(o).Some? {
        KeptItemsFixpoint(ItemsOf(o).value);
      }
    }
  }

  lemma InvoiceFixpoint(o: Fields, once: Fields, key: Key)
    requires At(once, key) == KeptInInvoice(o, key) && At(once, Parent) == None
    ensures KeptInInvoice(once, key) == KeptInInvoice(o, key)
  {
  }

  /** Stripping is done once and for all: stripping the copy again changes nothing, for every event. */
  lemma ProjectionFixpoint(e: Event)
    ensures Replayed(Replayed(e)) == Replayed(e)
  {
    forall k ensures Kept(e.etype, Project(e.etype, e.body), k) == Kept(e.etype, e.body, k) {
      KeptFixpoint(e.etype, e.body, k);
    }
    PresentAlike(KEYS, k => Kept(e.etype, Project(e.etype, e.body), k), k => Kept(e.etype, e.body, k));
  }

  /** `out.key = value` under the `typeof` test that `v` has passed. */
  function Put(out: Fields, key: Key, v: Option<Json>): Fields {
    if v.Some? then out[key := v.value] else out
  }

  function PutString(out: Fields, o: Fields, key: Key): Fields {
    Put(out, key, OptStr(StrOf(At(o, key))))
  }

  function PutNumber(out: Fields, o: Fields, key: Key): Fields {
    Put(out, key, OptNum(NumOf(At(o, key))))
  }

  function PutCustomer(out: Fields, o: Fields): Fields {
    Put(out, Customer, OptStr(Nonempty(IdOf(At(o, Customer)))))
  }

  lemma SameFields(a: Fields, b: Fields)
    requires forall k :: At(a, k) == At(b, k)
    ensures a == b
  {
    assert forall k :: k in a <==> At(a, k).Some?;
    assert forall k :: k in b <==> At(b, k).Some?;
    assert forall k :: k in a ==> At(a, k).value == a[k];
    assert forall k :: k in b ==> At(b, k).value == b[k];
  }

  lemma PutAt(out: Fields, key: Key, v: Option<Json>, k: Key)
    ensures At(Put(out, key, v), k) == if k == key && v.Some? then v else At(out, k)
  {
  }

  /** What five number assignments in a row leave under `k`. */
  lemma FiveNumbers(out: Fields, o: Fields, k1: Key, k2: Key, k3: Key, k4: Key, k5: Key, k: Key)
    requires k in {k1, k2, k3, k4, k5} ==> At(out, k) == None
    ensures At(PutNumber(PutNumber(PutNumber(PutNumber(PutNumber(out, o, k1), o, k2), o, k3), o, k4), o, k5), k) ==
            if k in {k1, k2, k3, k4, k5} then OptNum(NumOf(At(o, k))) else At(out, k)
  {
    var o1 := PutNumber(out, o, k1);
    var o2 := PutNumber(o1, o, k2);
    var o3 := PutNumber(o2, o, k3);
    var o4 := PutNumber(o3, o, k4);
    PutAt(out, k1, OptNum(NumOf(At(o, k1))), k);
    PutAt(o1, k2, OptNum(NumOf(At(o, k2))), k);
    PutAt(o2, k3, OptNum(NumOf(At(o, k3))), k);
    PutAt(o3, k4, OptNum(NumOf(At(o, k4))), k);
    PutAt(o4, k5, OptNum(NumOf(At(o, k5))), k);
  }

  lemma FourNumbers(out: Fields, o: Fields, k1: Key, k2: Key, k3: Key, k4: Key, k: Key)
    requires k in {k1, k2, k3, k4} ==> At(out, k) == None
    ensures At(PutNumber(PutNumber(PutNumber(PutNumber(out, o, k1), o, k2), o, k3), o, k4), k) ==
            if k in {k1, k2, k3, k4} then OptNum(NumOf(At(o, k))) else At(out, k)
  {
    FiveNumbers(out, o, k1, k2, k3, k4, k4, k);
    PutAt(PutNumber(PutNumber(PutNumber(PutNumber(out, o, k1), o, k2), o, k3), o, k4), k4, OptNum(NumOf(At(o, k4))), k);
  }

  /** What the first assignments of the subscription branch leave under `k`. */
  lemma SubscriptionHead(o: Fields, k: Key)
    ensures At(Put(PutString(PutCustomer(PutString(map[], o, Id), o), o, Status),
                   CancelAtPeriodEnd, OptBool(BoolOf(At(o, CancelAtPeriodEnd)))), k) ==
            if k in {Id, Customer, Status, CancelAtPeriodEnd} then KeptInSubscription(o, k) else None
  {
  }

  lemma InvoiceHead(o: Fields, k: Key)
    ensures At(PutString(PutString(PutCustomer(PutString(map[], o, Id), o), o, Status), o, Currency), k) ==
            if k in {Id, Customer, Status, Currency} then KeptInInvoice(o, k) else None
  {
  }

  lemma SubscriptionFilled(o: Fields, head: Fields, timed: Fields, out: Fields, k: Key)
    requires head == Put(PutString(PutCustomer(PutString(map[], o, Id), o), o, Status),
                         CancelAtPeriodEnd, OptBool(BoolOf(At(o, CancelAtPeriodEnd))))
    requires timed ==
             PutNumber(PutNumber(PutNumber(PutNumber(PutNumber(head, o, CancelAt), o, CanceledAt), o, TrialEnd),
                                          o, CurrentPeriodStart), o, CurrentPeriodEnd)
    requires out == Put(timed, Items, KeptInSubscription(o, Items))
    ensures At(out, k) == KeptInSubscription(o, k)
  {
    SubscriptionHead(o, k);
    FiveNumbers(head, o, CancelAt, CanceledAt, TrialEnd, CurrentPeriodStart, CurrentPeriodEnd, k);
    PutAt(timed, Items, KeptInSubscription(o, Items), k);
  }

  lemma InvoiceFilled(o: Fields, head: Fields, counted: Fields, out: Fields, k: Key)
    requires head == PutString(PutString(PutCustomer(PutString(map[], o, Id), o), o, Status), o, Currency)
    requires counted == PutNumber(PutNumber(PutNumber(PutNumber(head, o, AttemptCount), o, AmountPaid), o, AmountDue),
                                  o, NextPaymentAttempt)
    requires out == Put(counted, Subscription, KeptInInvoice(o, Subscription))
    ensures At(out, k) == KeptInInvoice(o, k)
  {
    InvoiceHead(o, k);
    FourNumbers(head, o, AttemptCount, AmountPaid, AmountDue, NextPaymentAttempt, k);
    PutAt(counted, Subscription, KeptInInvoice(o, Subscription), k);
  }

  lemma CheckoutFilled(o: Fields, key: Key)
    ensures At(PutString(PutString(PutCustomer(PutString(map[], o, Id), o), o, Mode), o, ClientReferenceId), key)
            == KeptInCheckout(o, key)
  {
  }

  /** A map that agrees with `Kept` on every key is the stripped copy. */
  lemma FilledIsProject(t: EventType, o: Fields, out: Fields)
    requires forall k :: At(out, k) == Kept(t, o, k)
    ensures out == Project(t, o)
  {
    forall k ensures At(out, k) == At(Project(t, o), k) {
      ProjectAt(t, o, k);
    }
    SameFields(out, Project(t, o));
  }

  /** What `replayableObject` keeps of a price. */
  method CopyPrice(price: Option<Json>) returns (p: Fields)
    ensures p == Present({Id, Product}, k => KeptPrice(price, k))
  {
    p := map[];
    p := Put(p, Id, OptStr(StrOf(Get(price, Id))));
    p := Put(p, Product, OptStr(Nonempty(IdOf(Get(price, Product)))));
  }

  /** What `replayableObject` keeps of a subscription item. */
  method CopyItem(raw: Json) returns (red: Json)
    ensures red == KeptItem(raw)
  {
    var item := Some(raw);
    var out: Fields := map[];
    if Truthy(Get(item, Price)) {
      var p := CopyPrice(Get(item, Price));
      out := out[Price := Obj(p)];
    }
    ghost var priced := out;
    out := Put(out, CurrentPeriodStart, OptNum(NumOf(Get(item, CurrentPeriodStart))));
    out := Put(out, CurrentPeriodEnd, OptNum(NumOf(Get(item, CurrentPeriodEnd))));
    forall k ensures At(out, k) == Get(Some(KeptItem(raw)), k) {
      KeptItemAt(raw, k);
    }
    SameFields(out, KeptItem(raw).fields);
    red := Obj(out);
  }

  /** The items of a subscription, copied one by one. */
  method CopyItems(items: seq<Json>) returns (data: seq<Json>)
    ensures data == KeptItems(items)
  {
    data := [];
    for i := 0 to |items|
      invariant |data| == i
      invariant forall k :: 0 <= k < i ==> data[k] == KeptItem(items[k])
    {
      var red := CopyItem(items[i]);
      data := data + [red];
    }
  }

  /** The strip-list of `src/services/billing/redact.ts`, filled field by field. */
  method ReplayableObject(t: EventType, obj: Fields) returns (out: Fields)
    ensures out == Project(t, obj)
  {
    if t.SubscriptionType? {
      out := ReplayableSubscription(obj);
    } else if t.IsInvoice() {
      out := ReplayableInvoice(obj);
    } else if t.CheckoutCompleted? {
      out := ReplayableCheckout(obj);
    } else {
      out := PutString(map[], obj, Id);
    }
    FilledIsProject(t, obj, out);
  }

  method ReplayableSubscription(obj: Fields) returns (out: Fields)
    ensures forall k :: At(out, k) == KeptInSubscription(obj, k)
  {
    out := PutString(map[], obj, Id);
    out := PutCustomer(out, obj);
    out := PutString(out, obj, Status);
    out := Put(out, CancelAtPeriodEnd, OptBool(BoolOf(At(obj, CancelAtPeriodEnd))));
    ghost var head := out;
    out := PutNumber(out, obj, CancelAt);
    out := PutNumber(out, obj, CanceledAt);
    out := PutNumber(out, obj, TrialEnd);
    out := PutNumber(out, obj, CurrentPeriodStart);
    out := PutNumber(out, obj, CurrentPeriodEnd);
    ghost var timed := out;
    var items := ItemsOf(obj);
    if items.Some? {
      var data := CopyItems(items.value);
      out := out[Items := Obj(map[Data := Arr(data)])];
    }
    forall k ensures At(out, k) == KeptInSubscription(obj, k) {
      SubscriptionFilled(obj, head, timed, out, k);
    }
  }

  method ReplayableInvoice(obj: Fields) returns (out: Fields)
    ensures forall k :: At(out, k) == KeptInInvoice(obj, k)
  {
    out := PutString(map[], obj, Id);
    out := PutCustomer(out, obj);
    out := PutString(out, obj, Status);
    out := PutString(out, obj, Currency);
    ghost var head := out;
    out := PutNumber(out, obj, AttemptCount);
    out := PutNumber(out, obj, AmountPaid);
    out := PutNumber(out, obj, AmountDue);
    out := PutNumber(out, obj, NextPaymentAttempt);
    ghost var counted := out;
    out := Put(out, Subscription, OptStr(Nonempty(InvoiceRef(obj))));
    forall k ensures At(out, k) == KeptInInvoice(obj, k) {
      InvoiceFilled(obj, head, counted, out, k);
    }
  }

  method ReplayableCheckout(obj: Fields) returns (out: Fields)
    ensures forall k :: At(out, k) == KeptInCheckout(obj, k)
  {
    out := PutString(map[], obj, Id);
    out := PutCustomer(out, obj);
    out := PutString(out, obj, Mode);
    out := PutString(out, obj, ClientReferenceId);
    forall k ensures At(out, k) == KeptInCheckout(obj, k) {
      CheckoutFilled(obj, k);
    }
  }
}
