/** The user-facing subscription routes: `POST /create-subscription` (reuse a
    pending attempt younger than five minutes, otherwise expire it and ask the
    provider for a new subscription) and `GET /subscription-status` (the status
    of the user's newest subscription record). The Payment collection is an
    in-memory table; the clock is the parameter `now`, in milliseconds. */
module SubscriptionRoutes {
  import opened Common
  import opened PaymentSchema
  import opened Razorpay

  /** The reuse window, five minutes in milliseconds. */
  const ReuseWindowMs: int := 5 * 60 * 1000
  /** Amount (in paise) and currency written on every new subscription record. */
  const SubscriptionAmount: int := 200
  const SubscriptionCurrency: string := "INR"

  /** A pending attempt of `user`: the filter of the create route's lookup. */
  predicate IsPending(p: Payment, user: UserId)
  {
    p.userId == Some(user) && p.kind == Subscription && p.status == Created
  }

  /** Any subscription record of `user`: the filter of the status query. */
  predicate IsUserSubscription(p: Payment, user: UserId)
  {
    p.userId == Some(user) && p.kind == Subscription
  }

  ghost predicate NoPending(records: seq<Payment>, user: UserId)
  {
    forall i :: 0 <= i < |records| ==> !IsPending(records[i], user)
  }

  /** No user has two pending attempts. */
  ghost predicate SinglePendingPerUser(records: seq<Payment>)
  {
    forall i, j :: 0 <= i < |records| && 0 <= j < |records| && i != j &&
      records[i].kind == Subscription && records[i].status == Created &&
      records[j].kind == Subscription && records[j].status == Created
      ==> records[i].userId != records[j].userId
  }

  ghost predicate DistinctIds(records: seq<Payment>)
  {
    forall i, j :: 0 <= i < j < |records| ==> records[i].id != records[j].id
  }

  /** `updateOne({ _id: id }, { status })`: the record with that `_id` gets the
      new status and every record keeps all its other fields. */
  function SetStatusById(records: seq<Payment>, id: ObjectId, status: PaymentStatus): (r: seq<Payment>)
    ensures |r| == |records|
    ensures forall i :: 0 <= i < |records| ==>
      r[i] == if records[i].id == id then records[i].(status := status) else records[i]
  {
    if records == [] then []
    else
      var head := if records[0].id == id then records[0].(status := status) else records[0];
      [head] + SetStatusById(records[1..], id, status)
  }

  /** The Payment collection. */
  class PaymentCollection {
    var records: seq<Payment>
    var nextId: ObjectId

    ghost predicate Valid()
      reads this
    {
      DistinctIds(records) && forall i :: 0 <= i < |records| ==> records[i].id < nextId
    }

    constructor ()
      ensures Valid() && records == []
    {
      records, nextId := [], 0;
    }

    /** `findOne({ userId, type: "subscription", status: "created" })` with no
        sort: some pending attempt of the user, if there is one. */
    method FindPending(user: UserId) returns (found: Option<Payment>)
      ensures found.Some? ==> found.value in records && IsPending(found.value, user)
      ensures found.None? ==> NoPending(records, user)
    {
      if exists i :: 0 <= i < |records| && IsPending(records[i], user) {
        var i :| 0 <= i < |records| && IsPending(records[i], user);
        found := Some(records[i]);
      } else {
        found := None;
      }
    }

    /** `updateOne({ _id: id }, { status })`. */
    method UpdateStatus(id: ObjectId, status: PaymentStatus)
      requires Valid()
      modifies this
      ensures Valid() && nextId == old(nextId)
      ensures records == SetStatusById(old(records), id, status)
    {
      records := SetStatusById(records, id, status);
    }

    /** `Payment.create(doc)`: the cast document gets a new `_id` and is
        appended; a validation error stores nothing. */
    method Create(doc: PaymentDoc, now: int) returns (r: Option<Payment>)
      requires Valid()
      modifies this
      ensures Valid()
      ensures r == CastPayment(doc, old(nextId), now)
      ensures r.Some? ==> records == old(records) + [r.value] && nextId == old(nextId) + 1
      ensures r.None? ==> records == old(records) && nextId == old(nextId)
    {
      r := CastPayment(doc, nextId, now);
      if r.Some? {
        records := records + [r.value];
        nextId := nextId + 1;
      }
    }
  }

  /** What the create route decides once the lookup has answered. */
  datatype Decision =
    | Reuse(link: Option<string>)   // answer with the pending attempt's link
    | Expire(stale: Payment)        // expire the stale attempt, then create anew
    | CreateFresh                   // no pending attempt: create

  /** The five-minute rule: a pending attempt strictly younger than the window is
      reused, one aged exactly the window or more is expired. */
  function Decide(existing: Option<Payment>, now: int): (d: Decision)
    ensures d.Reuse? <==> existing.Some? && now - existing.value.createdAt < ReuseWindowMs
    ensures d.Reuse? ==> d.link == existing.value.shortUrl
    ensures d.Expire? <==> existing.Some? && now - existing.value.createdAt >= ReuseWindowMs
    ensures d.Expire? ==> d.stale == existing.value
    ensures existing.Some? && now - existing.value.createdAt == ReuseWindowMs ==> d.Expire?
    ensures d.CreateFresh? <==> existing.None?
  {
    match existing
    case None => CreateFresh
    case Some(p) => if now - p.createdAt < ReuseWindowMs then Reuse(p.shortUrl) else Expire(p)
  }

  /** The document the create route passes to `Payment.create`. */
  function NewSubscriptionDoc(user: UserId, sub: ProviderSubscription, planId: Option<string>): PaymentDoc
  {
    PaymentDoc(Some(user), Some(sub.id), planId, Some(sub.shortUrl),
               Some("subscription"), Some("created"), Some(SubscriptionAmount), Some(SubscriptionCurrency))
  }

  /** The record a successful create route appends: the caller's user id, the
      provider's id and link, the configured plan, type `subscription`, status
      `created`, 200 INR, stamped `now`. */
  function NewSubscriptionRecord(id: ObjectId, user: UserId, sub: ProviderSubscription,
                                 planId: Option<string>, now: int): (p: Payment)
    ensures CastPayment(NewSubscriptionDoc(user, sub, planId), id, now) == Some(p)
    ensures IsPending(p, user)
  {
    Payment(id, Some(user), Some(sub.id), planId, Some(sub.shortUrl), Subscription, Created,
            Some(SubscriptionAmount), Some(SubscriptionCurrency), now)
  }

  /** The JSON reply of `POST /create-subscription`. */
  datatype CreateReply =
    | Pending(shortUrl: Option<string>)          // { subscription: { short_url, status: "pending" } }
    | Subscribed(subscription: ProviderSubscription)
    | ServerError                                // status 500

  /** Reply, new table and provider calls of one request. */
  datatype Effect = Effect(reply: CreateReply, records: seq<Payment>, calls: seq<ProviderCall>)

  /** The create step: one create call to the provider, then on success one
      appended record. */
  function AfterCreate(records: seq<Payment>, nextId: ObjectId, user: UserId, planId: Option<string>,
                       now: int, created: Option<ProviderSubscription>, prior: seq<ProviderCall>): (e: Effect)
    ensures e.calls == prior + [CreateCall(planId, created)]
    ensures e.reply.Subscribed? <==> created.Some?
    ensures e.reply.Subscribed? ==>
      (e.reply.subscription == created.value &&
       e.records == records + [NewSubscriptionRecord(nextId, user, created.value, planId, now)])
    ensures !e.reply.Subscribed? ==> e.reply == ServerError && e.records == records
  {
    var calls := prior + [CreateCall(planId, created)];
    match created
    case None => Effect(ServerError, records, calls)
    case Some(sub) => Effect(Subscribed(sub), records + [NewSubscriptionRecord(nextId, user, sub, planId, now)], calls)
  }

  /** The whole create route, given the pending record the lookup chose
      (`existing`), the provider's answer to a cancel (`cancelOk`, unused when no
      cancel is issued) and its answer to a create (`created`). */
  function CreateEffect(records: seq<Payment>, nextId: ObjectId, user: UserId, planId: Option<string>,
                        now: int, existing: Option<Payment>, cancelOk: bool,
                        created: Option<ProviderSubscription>): (e: Effect)
    // reuse: the pending attempt's link, nothing written, no provider call
    ensures e.reply.Pending? <==> Decide(existing, now).Reuse?
    ensures e.reply.Pending? ==> e.reply.shortUrl == existing.value.shortUrl && e.records == records && e.calls == []
    // a cancel is issued exactly for a stale attempt that has a subscription id;
    // a create is issued unless the attempt is reused or that cancel failed
    ensures var cancels :=
        if Decide(existing, now).Expire? && Truthy(existing.value.subscriptionId)
        then [CancelCall(existing.value.subscriptionId.value, cancelOk)] else [];
      var creates :=
        if Decide(existing, now).Reuse? || (cancels != [] && !cancelOk) then []
        else [CreateCall(planId, created)];
      e.calls == cancels + creates
    ensures |records| <= |e.records|
    // a failed cancel answers 500 and leaves the table alone
    ensures Decide(existing, now).Expire? && Truthy(existing.value.subscriptionId) && !cancelOk ==>
      e.reply == ServerError && e.records == records
    // otherwise the stale attempt is marked failed, whatever the create call answers
    ensures Decide(existing, now).Expire? && (cancelOk || !Truthy(existing.value.subscriptionId)) ==>
      e.records[..|records|] == SetStatusById(records, existing.value.id, Failed)
    // with no pending attempt, no existing record is touched
    ensures existing.None? ==> e.records[..|records|] == records
    // once the create call is issued, its answer decides the reply: the new
    // subscription on success, 500 on failure
    ensures !Decide(existing, now).Reuse? &&
            !(Decide(existing, now).Expire? && Truthy(existing.value.subscriptionId) && !cancelOk) ==>
      (e.reply.Subscribed? <==> created.Some?) &&
      (created.Some? ==> e.reply.subscription == created.value) &&
      (created.None? ==> e.reply == ServerError)
    // at most one record is appended, and only on success
    ensures e.reply.Subscribed? ==>
      (|e.records| == |records| + 1 &&
       e.records[|records|] == NewSubscriptionRecord(nextId, user, e.reply.subscription, planId, now))
    ensures !e.reply.Subscribed? ==> |e.records| == |records|
  {
    match Decide(existing, now)
    case Reuse(link) => Effect(Pending(link), records, [])
    case Expire(stale) =>
      if Truthy(stale.subscriptionId) then
        var cancel := [CancelCall(stale.subscriptionId.value, cancelOk)];
        if !cancelOk then Effect(ServerError, records, cancel)
        else AfterCreate(SetStatusById(records, stale.id, Failed), nextId, user, planId, now, created, cancel)
      else
        AfterCreate(SetStatusById(records, stale.id, Failed), nextId, user, planId, now, created, [])
    case CreateFresh => AfterCreate(records, nextId, user, planId, now, created, [])
  }

  /** The create step of the route: ask the provider for a subscription and,
      when it answers, store the new pending record. */
  method CreateAndStore(payments: PaymentCollection, razorpay: RazorpayClient,
                        user: UserId, planId: Option<string>, now: int)
    returns (reply: CreateReply, ghost created: Option<ProviderSubscription>)
    requires payments.Valid() && razorpay.Valid()
    modifies payments, razorpay
    ensures payments.Valid() && razorpay.Valid()
    ensures var e := AfterCreate(old(payments.records), old(payments.nextId), user, planId, now, created, []);
      && reply == e.reply
      && payments.records == e.records
      && razorpay.log == old(razorpay.log) + e.calls
    ensures payments.nextId == old(payments.nextId) + (if reply.Subscribed? then 1 else 0)
  {
    var sub := razorpay.CreateSubscription(planId);
    created := sub;
    if sub.None? {
      reply := ServerError;
      return;
    }
    var stored := payments.Create(NewSubscriptionDoc(user, sub.value, planId), now);
    assert stored == Some(NewSubscriptionRecord(old(payments.nextId), user, sub.value, planId, now));
    reply := Subscribed(sub.value);
  }

  /** `POST /create-subscription` for the authenticated `user`. `planId` is the
      configured plan. The ghost results name the record the lookup chose and
      the provider's answers. */
  method CreateSubscription(payments: PaymentCollection, razorpay: RazorpayClient,
                            user: UserId, planId: Option<string>, now: int)
    returns (reply: CreateReply, ghost existing: Option<Payment>, ghost cancelOk: bool,
             ghost created: Option<ProviderSubscription>)
    requires payments.Valid() && razorpay.Valid()
    modifies payments, razorpay
    ensures payments.Valid() && razorpay.Valid()
    ensures existing.Some? ==> existing.value in old(payments.records) && IsPending(existing.value, user)
    ensures existing.None? ==> NoPending(old(payments.records), user)
    ensures var e := CreateEffect(old(payments.records), old(payments.nextId), user, planId, now,
                                  existing, cancelOk, created);
      && reply == e.reply
      && payments.records == e.records
      && razorpay.log == old(razorpay.log) + e.calls
    // a new `_id` is used up exactly when a record is appended
    ensures payments.nextId == old(payments.nextId) + (if reply.Subscribed? then 1 else 0)
  {
    var found := payments.FindPending(user);
    existing, cancelOk, created := found, true, None;
    var decision := Decide(found, now);
    if decision.Reuse? {
      reply := Pending(decision.link);
      return;
    }
    ghost var cancels: seq<ProviderCall> := [];
    if decision.Expire? {
      var stale := decision.stale;
      if Truthy(stale.subscriptionId) {
        var ok := razorpay.CancelSubscription(stale.subscriptionId.value);
        cancelOk := ok;
        cancels := [CancelCall(stale.subscriptionId.value, ok)];
        if !ok {
          reply := ServerError;
          return;
        }
      }
      payments.UpdateStatus(stale.id, Failed);
    }
    ghost var logBefore := razorpay.log;
    assert logBefore == old(razorpay.log) + cancels;
    reply, created := CreateAndStore(payments, razorpay, user, planId, now);
    assert razorpay.log == old(razorpay.log) + (cancels + [CreateCall(planId, created)]);
  }

  /** Expiring a stale attempt changes exactly that record, and only its status. */
  lemma ExpireTouchesOnlyStale(records: seq<Payment>, stale: Payment)
    requires DistinctIds(records) && stale in records
    ensures var r := SetStatusById(records, stale.id, Failed);
      exists k :: 0 <= k < |records| && records[k] == stale && r[k] == stale.(status := Failed) &&
        forall i :: 0 <= i < |records| && i != k ==> r[i] == records[i]
  {
    var k :| 0 <= k < |records| && records[k] == stale;
    var r := SetStatusById(records, stale.id, Failed);
    forall i | 0 <= i < |records| && i != k
      ensures r[i] == records[i]
    {
      if i < k {
        assert records[i].id != records[k].id;
      } else {
        assert records[k].id != records[i].id;
      }
    }
  }

  /** Sequential requests never give a user a second pending attempt. */
  lemma CreatePreservesSinglePending(records: seq<Payment>, nextId: ObjectId, user: UserId,
                                     planId: Option<string>, now: int, existing: Option<Payment>,
                                     cancelOk: bool, created: Option<ProviderSubscription>)
    requires SinglePendingPerUser(records)
    requires existing.Some? ==> existing.value in records && IsPending(existing.value, user)
    requires existing.None? ==> NoPending(records, user)
    ensures SinglePendingPerUser(CreateEffect(records, nextId, user, planId, now, existing, cancelOk, created).records)
  {
    var e := CreateEffect(records, nextId, user, planId, now, existing, cancelOk, created);
    var d := Decide(existing, now);
    if e.records == records {
      return;
    }
    // the table before the append: unchanged, or with the stale attempt failed
    var marked := e.records[..|records|];
    assert |marked| == |records|;
    assert NoPending(marked, user) && SinglePendingPerUser(marked) by {
      if d.Expire? {
        var k :| 0 <= k < |records| && records[k] == existing.value;
        forall i | 0 <= i < |marked|
          ensures !IsPending(marked[i], user)
          ensures marked[i].kind == Subscription && marked[i].status == Created ==> marked[i] == records[i]
        {
          if IsPending(records[i], user) {
            assert i == k;
          }
        }
      }
    }
    if e.reply.Subscribed? {
      assert e.records == marked + [e.records[|records|]];
      assert IsPending(e.records[|records|], user);
    } else {
      assert e.records == marked;
    }
  }

  /** Scenario of two clicks: once a request has created a subscription, a
      second request by the same user within the window gets the same payment
      link back and changes nothing, whichever pending record its lookup finds. */
  lemma RepeatWithinWindowReuses(records: seq<Payment>, nextId: ObjectId, user: UserId,
                                 planId: Option<string>, now: int, existing: Option<Payment>,
                                 cancelOk: bool, created: Option<ProviderSubscription>,
                                 later: int, existing2: Option<Payment>, cancelOk2: bool,
                                 created2: Option<ProviderSubscription>)
    requires SinglePendingPerUser(records)
    requires existing.Some? ==> existing.value in records && IsPending(existing.value, user)
    requires existing.None? ==> NoPending(records, user)
    requires var e := CreateEffect(records, nextId, user, planId, now, existing, cancelOk, created);
      && e.reply.Subscribed?
      && (existing2.Some? ==> existing2.value in e.records && IsPending(existing2.value, user))
      && (existing2.None? ==> NoPending(e.records, user))
    requires later - now < ReuseWindowMs
    ensures var e := CreateEffect(records, nextId, user, planId, now, existing, cancelOk, created);
      CreateEffect(e.records, nextId + 1, user, planId, later, existing2, cancelOk2, created2)
        == Effect(Pending(Some(e.reply.subscription.shortUrl)), e.records, [])
  {
    var e := CreateEffect(records, nextId, user, planId, now, existing, cancelOk, created);
    var n := |records|;
    var newest := e.records[n];
    assert IsPending(newest, user);
    CreatePreservesSinglePending(records, nextId, user, planId, now, existing, cancelOk, created);
    assert existing2.Some? by {
      assert !NoPending(e.records, user) by { assert IsPending(e.records[n], user); }
    }
    var j :| 0 <= j < |e.records| && e.records[j] == existing2.value;
    assert j == n;
  }

  /** `GET /subscription-status` picks the user's subscription record with the
      latest `createdAt`; among equally new records, the earliest stored. */
  function NewestSubscription(records: seq<Payment>, user: UserId): (r: Option<Payment>)
    ensures r.None? <==> forall i :: 0 <= i < |records| ==> !IsUserSubscription(records[i], user)
    ensures r.Some? ==> r.value in records && IsUserSubscription(r.value, user)
    ensures r.Some? ==> forall i :: 0 <= i < |records| && IsUserSubscription(records[i], user) ==>
      records[i].createdAt <= r.value.createdAt
    decreases |records|
  {
    if records == [] then None
    else
      var rest := NewestSubscription(records[..|records| - 1], user);
      var last := records[|records| - 1];
      if IsUserSubscription(last, user) && (rest.None? || last.createdAt > rest.value.createdAt)
      then Some(last)
      else rest
  }

  /** The JSON reply of `GET /subscription-status`. */
  datatype StatusReply = StatusReply(status: string, planId: Option<string>)

  /** The newest subscription record's status and plan (`"none"` and `null`
      when the user has none; an empty plan id also reads as `null`). */
  function SubscriptionStatus(records: seq<Payment>, user: UserId): (r: StatusReply)
    ensures r.status == "none" <==> forall i :: 0 <= i < |records| ==> !IsUserSubscription(records[i], user)
    ensures r.status == "none" ==> r.planId.None?
    ensures r.status != "none" ==>
      exists p :: (p in records && IsUserSubscription(p, user) &&
        (forall i :: 0 <= i < |records| && IsUserSubscription(records[i], user) ==> records[i].createdAt <= p.createdAt) &&
        r.status == StatusName(p.status) &&
        r.planId == (if Truthy(p.planId) then p.planId else None))
  {
    match NewestSubscription(records, user)
    case None => StatusReply("none", None)
    case Some(p) => StatusReply(StatusName(p.status), if Truthy(p.planId) then p.planId else None)
  }

  /** As written, the record the create route stores has no link, so a request
      inside the window answers `short_url: undefined` instead of the link the
      first request returned. */
  lemma AsWrittenReuseLosesLink(user: UserId, sub: ProviderSubscription, planId: Option<string>,
                                id: ObjectId, createdAt: int, now: int)
    requires now - createdAt < ReuseWindowMs
    ensures var p := CastPaymentAsWritten(NewSubscriptionDoc(user, sub, planId), id, createdAt);
      p.Some? && IsPending(p.value, user) && Decide(p, now) == Reuse(None)
  {
    var p := NewSubscriptionRecord(id, user, sub, planId, createdAt);
  }

  /** With `shortUrl` declared, the reused link is the one the provider issued. */
  lemma ReuseReturnsStoredLink(user: UserId, sub: ProviderSubscription, planId: Option<string>,
                               id: ObjectId, createdAt: int, now: int)
    requires now - createdAt < ReuseWindowMs
    ensures var p := CastPayment(NewSubscriptionDoc(user, sub, planId), id, createdAt);
      p.Some? && IsPending(p.value, user) && Decide(p, now) == Reuse(Some(sub.shortUrl))
  {
    var p := NewSubscriptionRecord(id, user, sub, planId, createdAt);
  }
}
