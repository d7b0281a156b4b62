/** The Payment collection's schema: one document per payment or
    subscription attempt, with the `type` and `status` enumerations, the
    `created` default and the `createdAt` timestamp. */
module PaymentSchema {
  import opened Common

  /** The `type` enumeration: a one-time order or a recurring subscription. */
  datatype PaymentType = Order | Subscription

  /** The `status` enumeration. */
  datatype PaymentStatus = Created | Paid | Active | Cancelled | Failed

  function TypeName(t: PaymentType): string
  {
    match t
    case Order => "order"
    case Subscription => "subscription"
  }

  function StatusName(st: PaymentStatus): string
  {
    match st
    case Created => "created"
    case Paid => "paid"
    case Active => "active"
    case Cancelled => "cancelled"
    case Failed => "failed"
  }

  /** The enum validator of `type`: only the two listed names are accepted. */
  function ParseType(s: string): (r: Option<PaymentType>)
    ensures r.Some? ==> TypeName(r.value) == s
    ensures r.None? ==> forall t: PaymentType :: TypeName(t) != s
  {
    if s == "order" then Some(Order)
    else if s == "subscription" then Some(Subscription)
    else None
  }

  /** The enum validator of `status`: only the five listed names are accepted. */
  function ParseStatus(s: string): (r: Option<PaymentStatus>)
    ensures r.Some? ==> StatusName(r.value) == s
    ensures r.None? ==> forall st: PaymentStatus :: StatusName(st) != s
  {
    if s == "created" then Some(Created)
    else if s == "paid" then Some(Paid)
    else if s == "active" then Some(Active)
    else if s == "cancelled" then Some(Cancelled)
    else if s == "failed" then Some(Failed)
    else None
  }

  /** A stored Payment document. `shortUrl` is the provider's payment link;
      the schema as written has no such path (see CastPaymentAsWritten). */
  datatype Payment = Payment(
    id: ObjectId,
    userId: Option<UserId>,
    subscriptionId: Option<string>,
    planId: Option<string>,
    shortUrl: Option<string>,
    kind: PaymentType,
    status: PaymentStatus,
    amount: Option<int>,
    currency: Option<string>,
    createdAt: int)

  /** The plain object a route hands to `Payment.create`, before casting. */
  datatype PaymentDoc = PaymentDoc(
    userId: Option<UserId>,
    subscriptionId: Option<string>,
    planId: Option<string>,
    shortUrl: Option<string>,
    kind: Option<string>,
    status: Option<string>,
    amount: Option<int>,
    currency: Option<string>)

  /** Casting and validating a document on create: `type` is required and must
      be in its enumeration, `status` defaults to `created` and otherwise must be
      in its enumeration, and the timestamps option stamps `createdAt`. `None` is
      a validation error. This cast keeps `shortUrl`, i.e. it is the schema with
      that path declared. */
  function CastPayment(doc: PaymentDoc, id: ObjectId, now: int): (r: Option<Payment>)
    ensures r.Some? <==>
      && Truthy(doc.kind) && ParseType(doc.kind.value).Some?
      && (doc.status.None? || ParseStatus(doc.status.value).Some?)
    ensures r.Some? ==> TypeName(r.value.kind) == doc.kind.value
    ensures r.Some? ==> StatusName(r.value.status) == if doc.status.None? then "created" else doc.status.value
    ensures r.Some? ==>
      && r.value.id == id && r.value.createdAt == now
      && r.value.userId == doc.userId && r.value.subscriptionId == doc.subscriptionId
      && r.value.planId == doc.planId && r.value.shortUrl == doc.shortUrl
      && r.value.amount == doc.amount && r.value.currency == doc.currency
  {
    if !Truthy(doc.kind) then None
    else
      match ParseType(doc.kind.value)
      case None => None
      case Some(kind) =>
        var status := if doc.status.None? then Some(Created) else ParseStatus(doc.status.value);
        if status.None? then None
        else Some(Payment(id, doc.userId, doc.subscriptionId, doc.planId, doc.shortUrl,
                          kind, status.value, doc.amount, doc.currency, now))
  }

  /** The cast as the schema is written: `shortUrl` is not a declared path, so
      strict mode drops it and the stored document never has one. */
  function CastPaymentAsWritten(doc: PaymentDoc, id: ObjectId, now: int): (r: Option<Payment>)
    ensures r.Some? <==> CastPayment(doc, id, now).Some?
    ensures r.Some? ==> r.value.shortUrl.None?
    ensures r.Some? ==> r.value == CastPayment(doc, id, now).value.(shortUrl := None)
  {
    match CastPayment(doc, id, now)
    case None => None
    case Some(p) => Some(p.(shortUrl := None))
  }
}
