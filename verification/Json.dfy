/** JSON values and the ways the billing code reads them. */
module Json {
  datatype Option<+T> = None | Some(value: T)

  /** Property names: one constructor for each name the billing code mentions, `Other` for every other name. */
  datatype Key =
    | Id | Type | Created | ApiVersion | Object | Data
    | Customer | Status | Currency | Mode | ClientReferenceId
    | CancelAtPeriodEnd | CancelAt | CanceledAt | TrialEnd | CurrentPeriodStart | CurrentPeriodEnd
    | Items | Price | Product
    | AttemptCount | AmountPaid | AmountDue | NextPaymentAttempt
    | Subscription | Parent | SubscriptionDetails
    | Other(name: string)

  /** Numbers are integers: every number the billing code reads is a count, an amount or a Unix time. */
  datatype Json =
    | Null
    | Bool(b: bool)
    | Num(n: int)
    | Str(s: string)
    | Arr(items: seq<Json>)
    | Obj(fields: map<Key, Json>)

  type Fields = map<Key, Json>

  /** `o.key`, with None for `undefined`. */
  function At(o: Fields, key: Key): Option<Json> {
    if key in o then Some(o[key]) else None
  }

  /** `v?.key`: undefined unless `v` is an object that has the key. */
  function Get(v: Option<Json>, key: Key): Option<Json> {
    if v.Some? && v.value.Obj? then At(v.value.fields, key) else None
  }

  /** The value when it is a string. */
  function StrOf(v: Option<Json>): Option<string> {
    if v.Some? && v.value.Str? then Some(v.value.s) else None
  }

  function NumOf(v: Option<Json>): Option<int> {
    if v.Some? && v.value.Num? then Some(v.value.n) else None
  }

  function BoolOf(v: Option<Json>): Option<bool> {
    if v.Some? && v.value.Bool? then Some(v.value.b) else None
  }

  function ArrOf(v: Option<Json>): Option<seq<Json>> {
    if v.Some? && v.value.Arr? then Some(v.value.items) else None
  }

  /** A related object given as a bare id or expanded: `typeof v === 'string' ? v : v?.id`. */
  function IdOf(v: Option<Json>): Option<string> {
    if StrOf(v).Some? then StrOf(v) else StrOf(Get(v, Id))
  }

  predicate Truthy(v: Option<Json>) {
    match v
    case None => false
    case Some(Null) => false
    case Some(Bool(b)) => b
    case Some(Num(n)) => n != 0
    case Some(Str(s)) => s != ""
    case Some(Arr(_)) => true
    case Some(Obj(_)) => true
  }

  /** The value when it is a string that holds something. */
  function Nonempty(s: Option<string>): Option<string> {
    if s.Some? && s.value != "" then s else None
  }

  /** `a ?? b` */
  function Either<T>(a: Option<T>, b: Option<T>): Option<T> {
    if a.Some? then a else b
  }

  function GetOr<T>(a: Option<T>, default: T): T {
    if a.Some? then a.value else default
  }

  /** Absent or null, as the Stripe API leaves an optional field. */
  predicate Missing(v: Option<Json>) {
    v.None? || v.value.Null?
  }
}
