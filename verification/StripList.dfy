/** What the stored copy of an event holds, and that it holds nothing else: the promise of the strip-list. */
module StripList {
  import opened Json
  import opened StripeEvent
  import opened EventMeaning

  /** The copy has this text, number or flag exactly when the object has it. */
  ghost predicate SameText(o: Fields, copy: Fields, key: Key) {
    && (key in copy ==> copy[key].Str?)
    && forall s :: Says(copy, key, Str(s)) <==> Says(o, key, Str(s))
  }

  ghost predicate SameNumber(o: Fields, copy: Fields, key: Key) {
    && (key in copy ==> copy[key].Num?)
    && forall n :: Says(copy, key, Num(n)) <==> Says(o, key, Num(n))
  }

  ghost predicate SameFlag(o: Fields, copy: Fields, key: Key) {
    && (key in copy ==> copy[key].Bool?)
    && forall b :: Says(copy, key, Bool(b)) <==> Says(o, key, Bool(b))
  }

  /** Of a related object the copy has the id, if it has one. */
  ghost predicate JustTheId(o: Fields, copy: Fields, key: Key) {
    && (key in copy ==> copy[key].Str?)
    && forall id :: Says(copy, key, Str(id)) <==> id != "" && key in o && Names(o[key], id)
  }

  /** The values that count as nothing. */
  predicate Nothing(v: Json) {
    v in {Null, Bool(false), Num(0), Str("")}
  }

  /** A price keeps its id and that of its product. */
  ghost predicate PriceStripped(price: Fields, copy: Fields) {
    copy.Keys <= {Id, Product} && SameText(price, copy, Id) && JustTheId(price, copy, Product)
  }

  /** What an expression of JSON holds as an object; other values hold nothing. */
  function Inside(v: Json): Fields {
    if v.Obj? then v.fields else map[]
  }

  /** A subscription item keeps its price and its period. */
  ghost predicate ItemStripped(raw: Json, copy: Json) {
    && copy.Obj? && copy.fields.Keys <= {Price, CurrentPeriodStart, CurrentPeriodEnd}
    && SameNumber(Inside(raw), copy.fields, CurrentPeriodStart)
    && SameNumber(Inside(raw), copy.fields, CurrentPeriodEnd)
    && (Price in copy.fields <==> Price in Inside(raw) && !Nothing(Inside(raw)[Price]))
    && (Price in copy.fields ==>
          copy.fields[Price].Obj? && PriceStripped(Inside(Inside(raw)[Price]), copy.fields[Price].fields))
  }

  lemma PriceKept(raw: Json)
    requires Truthy(Get(Some(raw), Price))
    ensures PriceStripped(Inside(Inside(raw)[Price]),
                          Present({Id, Product}, k => KeptPrice(Get(Some(raw), Price), k)))
  {
  }

  lemma ItemKept(raw: Json)
    ensures ItemStripped(raw, KeptItem(raw))
  {
    KeptItemAt(raw, Price);
    KeptItemAt(raw, CurrentPeriodStart);
    KeptItemAt(raw, CurrentPeriodEnd);
    if Truthy(Get(Some(raw), Price)) {
      PriceKept(raw);
    }
  }

  /** What is under a key, as an object. */
  function Under(o: Fields, key: Key): Fields {
    if key in o then Inside(o[key]) else map[]
  }

  /** The copy of a subscription's items: a list as long, item by item stripped, and only when there is a list. */
  ghost predicate ItemsStripped(o: Fields, copy: Fields) {
    && (Items in copy <==> Data in Under(o, Items) && Under(o, Items)[Data].Arr?)
    && (Items in copy ==>
          exists kept: seq<Json> ::
            && copy[Items] == Obj(map[Data := Arr(kept)])
            && |kept| == |Under(o, Items)[Data].items|
            && forall k :: 0 <= k < |kept| ==> ItemStripped(Under(o, Items)[Data].items[k], kept[k]))
  }

  lemma ItemsKept(o: Fields, copy: Fields)
    requires At(copy, Items) == KeptInSubscription(o, Items)
    ensures ItemsStripped(o, copy)
  {
    if Items in copy {
      var list := Under(o, Items)[Data].items;
      forall k | 0 <= k < |list| ensures ItemStripped(list[k], KeptItems(list)[k]) {
        ItemKept(list[k]);
      }
      assert copy[Items] == Obj(map[Data := Arr(KeptItems(list))]);
    }
  }

  /** The fields of a copy: no keys but these, with texts, ids and numbers as the object has them. */
  ghost predicate Holds(o: Fields, copy: Fields, texts: set<Key>, ids: set<Key>, numbers: set<Key>, more: set<Key>) {
    && copy.Keys <= texts + ids + numbers + more
    && (forall k :: k in texts ==> SameText(o, copy, k))
    && (forall k :: k in ids ==> JustTheId(o, copy, k))
    && (forall k :: k in numbers ==> SameNumber(o, copy, k))
  }

  predicate KeptSo(t: EventType, o: Fields, k: Key, texts: set<Key>, ids: set<Key>, numbers: set<Key>,
                   more: set<Key>)
  {
    && (k in texts ==> Kept(t, o, k) == OptStr(StrOf(At(o, k))))
    && (k in ids ==> Kept(t, o, k) == OptStr(Nonempty(IdOf(At(o, k)))))
    && (k in numbers ==> Kept(t, o, k) == OptNum(NumOf(At(o, k))))
    && (k !in texts + ids + numbers + more ==> Kept(t, o, k) == None)
  }

  lemma CopyHolds(t: EventType, o: Fields, texts: set<Key>, ids: set<Key>, numbers: set<Key>, more: set<Key>)
    requires forall k :: KeptSo(t, o, k, texts, ids, numbers, more)
    ensures Holds(o, Project(t, o), texts, ids, numbers, more)
  {
    forall k | k in texts ensures SameText(o, Project(t, o), k) {
      assert KeptSo(t, o, k, texts, ids, numbers, more);
      ProjectAt(t, o, k);
    }
    forall k | k in ids ensures JustTheId(o, Project(t, o), k) {
      assert KeptSo(t, o, k, texts, ids, numbers, more);
      ProjectAt(t, o, k);
    }
    forall k | k in numbers ensures SameNumber(o, Project(t, o), k) {
      assert KeptSo(t, o, k, texts, ids, numbers, more);
      ProjectAt(t, o, k);
    }
    forall k | k in Project(t, o) ensures k in texts + ids + numbers + more {
      assert KeptSo(t, o, k, texts, ids, numbers, more);
      ProjectAt(t, o, k);
    }
  }

  /** The numbers kept of a subscription, and of an invoice. */
  const SUBSCRIPTION_NUMBERS := {CancelAt, CanceledAt, TrialEnd, CurrentPeriodStart, CurrentPeriodEnd}
  const INVOICE_NUMBERS := {AttemptCount, AmountPaid, AmountDue, NextPaymentAttempt}

  lemma SubscriptionKeeps(t: EventType, o: Fields, k: Key)
    requires t.SubscriptionType?
    ensures KeptSo(t, o, k, {Id, Status}, {Customer}, SUBSCRIPTION_NUMBERS, {CancelAtPeriodEnd, Items})
  {
    assert Kept(t, o, k) == KeptInSubscription(o, k);
  }

  lemma InvoiceKeeps(t: EventType, o: Fields, k: Key)
    requires t.PaymentSucceeded? || t.PaymentFailed? || t.OtherInvoiceType?
    ensures KeptSo(t, o, k, {Id, Status, Currency}, {Customer}, INVOICE_NUMBERS, {Subscription})
  {
    assert Kept(t, o, k) == KeptInInvoice(o, k);
  }

  lemma CheckoutKeeps(t: EventType, o: Fields, k: Key)
    requires t.CheckoutCompleted?
    ensures KeptSo(t, o, k, {Id, Mode, ClientReferenceId}, {Customer}, {}, {})
  {
    assert Kept(t, o, k) == KeptInCheckout(o, k);
  }

  lemma SubscriptionHolds(t: EventType, o: Fields)
    requires t.SubscriptionType?
    ensures Holds(o, Project(t, o), {Id, Status}, {Customer}, SUBSCRIPTION_NUMBERS, {CancelAtPeriodEnd, Items})
  {
    forall k {
      SubscriptionKeeps(t, o, k);
    }
    CopyHolds(t, o, {Id, Status}, {Customer}, SUBSCRIPTION_NUMBERS, {CancelAtPeriodEnd, Items});
  }

  lemma InvoiceHolds(t: EventType, o: Fields)
    requires t.PaymentSucceeded? || t.PaymentFailed? || t.OtherInvoiceType?
    ensures Holds(o, Project(t, o), {Id, Status, Currency}, {Customer}, INVOICE_NUMBERS, {Subscription})
  {
    forall k {
      InvoiceKeeps(t, o, k);
    }
    CopyHolds(t, o, {Id, Status, Currency}, {Customer}, INVOICE_NUMBERS, {Subscription});
  }

  /** The copy of a subscription. */
  lemma SubscriptionStripped(t: EventType, o: Fields)
    requires t.SubscriptionType?
    ensures Holds(o, Project(t, o), {Id, Status}, {Customer}, SUBSCRIPTION_NUMBERS, {CancelAtPeriodEnd, Items})
    ensures SameFlag(o, Project(t, o), CancelAtPeriodEnd)
    ensures ItemsStripped(o, Project(t, o))
  {
    SubscriptionHolds(t, o);
    ProjectAt(t, o, CancelAtPeriodEnd);
    ProjectAt(t, o, Items);
    ItemsKept(o, Project(t, o));
  }

  /** The subscription an invoice is kept with: that of its own field if it names one, else of its parent's details. */
  ghost predicate BelongsTo(o: Fields, id: string) {
    if exists other :: Subscription in o && Names(o[Subscription], other) then Names(o[Subscription], id)
    else
      var details := Under(Under(o, Parent), SubscriptionDetails);
      Subscription in details && Names(details[Subscription], id)
  }

  lemma ReferenceReads(o: Fields, id: string)
    ensures InvoiceRef(o) == Some(id) <==> BelongsTo(o, id)
  {
    if IdOf(At(o, Subscription)).Some? {
      assert Names(o[Subscription], IdOf(At(o, Subscription)).value);
    }
  }

  lemma InvoiceReferenceKept(o: Fields, copy: Fields)
    requires At(copy, Subscription) == OptStr(Nonempty(InvoiceRef(o)))
    ensures Subscription in copy ==> copy[Subscription].Str?
    ensures forall id :: Says(copy, Subscription, Str(id)) <==> id != "" && BelongsTo(o, id)
  {
    forall id ensures Says(copy, Subscription, Str(id)) <==> id != "" && BelongsTo(o, id) {
      ReferenceReads(o, id);
    }
  }

  lemma InvoiceReferenceStripped(t: EventType, o: Fields)
    requires t.PaymentSucceeded? || t.PaymentFailed? || t.OtherInvoiceType?
    ensures Subscription in Project(t, o) ==> Project(t, o)[Subscription].Str?
    ensures forall id :: Says(Project(t, o), Subscription, Str(id)) <==> id != "" && BelongsTo(o, id)
  {
    ProjectAt(t, o, Subscription);
    assert Kept(t, o, Subscription) == KeptInInvoice(o, Subscription);
    InvoiceReferenceKept(o, Project(t, o));
  }

  /** The copy of an invoice. */
  lemma InvoiceStripped(t: EventType, o: Fields)
    requires t.PaymentSucceeded? || t.PaymentFailed? || t.OtherInvoiceType?
    ensures var copy := Project(t, o);
            && Holds(o, copy, {Id, Status, Currency}, {Customer}, INVOICE_NUMBERS, {Subscription})
            && (Subscription in copy ==> copy[Subscription].Str?)
            && forall id :: Says(copy, Subscription, Str(id)) <==> id != "" && BelongsTo(o, id)
  {
    InvoiceHolds(t, o);
    InvoiceReferenceStripped(t, o);
  }

  /** The copy of a checkout session, and of anything else: only its id. */
  lemma OthersStripped(t: EventType, o: Fields)
    ensures t.CheckoutCompleted? ==>
              Holds(o, Project(t, o), {Id, Mode, ClientReferenceId}, {Customer}, {}, {})
    ensures t.CustomerDeleted? || t.UnmappedType? ==> Holds(o, Project(t, o), {Id}, {}, {}, {})
  {
    if t.CheckoutCompleted? {
      forall k {
        CheckoutKeeps(t, o, k);
      }
      CopyHolds(t, o, {Id, Mode, ClientReferenceId}, {Customer}, {}, {});
    } else if t.CustomerDeleted? || t.UnmappedType? {
      CopyHolds(t, o, {Id}, {}, {}, {});
    }
  }

  /** A stored payload is used when it has a text for id and type and an object or a list for the event's object. */
  lemma RebuiltMeans(payload: Option<Json>)
    ensures var r := RebuildStripeEvent(payload);
            && (r.Some? ==> r == payload)
            && (r.Some? <==>
                  && payload.Some? && payload.value.Obj?
                  && var o := payload.value.fields;
                  && (exists id, name :: Says(o, Id, Str(id)) && Says(o, Type, Str(name)))
                  && Object in Under(o, Data)
                  && (Under(o, Data)[Object].Obj? || Under(o, Data)[Object].Arr?))
  {
    var id, name := StrOf(Get(payload, Id)), StrOf(Get(payload, Type));
    if id.Some? && name.Some? {
      assert Says(payload.value.fields, Id, Str(id.value)) && Says(payload.value.fields, Type, Str(name.value));
    }
  }
}
