/** The Stripe webhook (`app/api/webhooks/stripe/route.ts`): a verified event
    is turned into a merge-write of billing fields on one tenant document.
    Stripe's signature check is abstracted to an already-parsed event (None
    when the signature is invalid), the subscription Stripe returns for a
    completed checkout is a parameter, and the tenants collection is a class
    holding a map from document id to fields. */
module StripeWebhook {
  import opened Prelude

  // ---------------------------------------------------------------------------
  // Subscription status
  // ---------------------------------------------------------------------------

  /** `TenantStatus`. */
  datatype TenantStatus = Trialing | Active | PastDue | Canceled | Paused

  /** The string stored in the tenant's `status` field. */
  function StatusName(t: TenantStatus): string {
    match t
    case Trialing => "trialing"
    case Active => "active"
    case PastDue => "past_due"
    case Canceled => "canceled"
    case Paused => "paused"
  }

  /** `mapStripeSubStatus`: Stripe's subscription status as a tenant status. */
  function MapStripeSubStatus(status: string): TenantStatus {
    if status == "active" then Active
    else if status == "trialing" then Trialing
    else if status == "past_due" || status == "unpaid" then PastDue
    else if status == "canceled" then Canceled
    else if status == "paused" then Paused
    else Paused
  }

  /** Each tenant status is reached from exactly the Stripe statuses listed in
      the mapping; 'unpaid' joins 'past_due', and every unknown status, like
      'incomplete', is read as 'paused'. */
  lemma MapStripeSubStatusCases(status: string)
    ensures MapStripeSubStatus(status) == Active <==> status == "active"
    ensures MapStripeSubStatus(status) == Trialing <==> status == "trialing"
    ensures MapStripeSubStatus(status) == PastDue <==> status == "past_due" || status == "unpaid"
    ensures MapStripeSubStatus(status) == Canceled <==> status == "canceled"
    ensures MapStripeSubStatus(status) == Paused <==>
      status !in {"active", "trialing", "past_due", "unpaid", "canceled"}
  {
  }

  /** Every tenant status, written as a string, maps back to itself: applying
      the mapping to a stored status changes nothing. */
  lemma MapStripeSubStatusIdempotent(t: TenantStatus)
    ensures MapStripeSubStatus(StatusName(t)) == t
  {
  }

  // ---------------------------------------------------------------------------
  // Events and the fields they write
  // ---------------------------------------------------------------------------

  /** A Firestore field value as this route writes it. `Instant` is a Date, in
      milliseconds since the epoch. */
  datatype FieldValue = Text(text: string) | Null | Instant(ms: int)

  type Fields = map<string, FieldValue>

  /** The checkout session of a `checkout.session.completed` event. */
  datatype CheckoutSession = CheckoutSession(
    mode: string,
    subscription: Option<string>,
    customer: Option<string>,
    metadataTenantId: Option<string>,
    metadataPlanId: Option<string>,
    clientReferenceId: Option<string>)

  /** A Stripe subscription; `currentPeriodEnd` is in seconds. */
  datatype Subscription = Subscription(
    id: string,
    status: string,
    currentPeriodEnd: int,
    metadataPlanId: Option<string>)

  /** The events the route tells apart; any other type is `OtherEvent`.
      The invoice events carry the invoice's subscription id. */
  datatype Event =
    | CheckoutSessionCompleted(session: CheckoutSession)
    | SubscriptionUpdated(updated: Subscription)
    | SubscriptionDeleted(deleted: Subscription)
    | InvoicePaymentFailed(failedFor: Option<string>)
    | InvoicePaid(paidFor: Option<string>)
    | OtherEvent(eventType: string)

  /** JavaScript truthiness of a `string | null | undefined`. */
  predicate Truthy(v: Option<string>) {
    v.Some? && v.value != []
  }

  /** `a ?? b`: only null and undefined fall through, an empty string does not. */
  function Coalesce(a: Option<string>, b: Option<string>): (r: Option<string>)
    ensures a.Some? ==> r == a
    ensures a.None? ==> r == b
  {
    if a.Some? then a else b
  }

  /** `if (planId) update.planId = planId`. */
  function WithPlanId(update: Fields, planId: Option<string>): Fields {
    if Truthy(planId) then update["planId" := Text(planId.value)] else update
  }

  /** The update of a completed subscription checkout. */
  function CheckoutFields(session: CheckoutSession, sub: Subscription, now: int): Fields {
    WithPlanId(
      map[
        "status" := Text(StatusName(MapStripeSubStatus(sub.status))),
        "gatewayCustomerId" := (if session.customer.Some? then Text(session.customer.value) else Null),
        "gatewaySubId" := Text(sub.id),
        "currentPeriodEnd" := Instant(sub.currentPeriodEnd * 1000),
        "updatedAt" := Instant(now)],
      Coalesce(sub.metadataPlanId, session.metadataPlanId))
  }

  /** The update of a subscription that changed or ended. */
  function SubscriptionFields(sub: Subscription, now: int): Fields {
    WithPlanId(
      map[
        "status" := Text(StatusName(MapStripeSubStatus(sub.status))),
        "currentPeriodEnd" := Instant(sub.currentPeriodEnd * 1000),
        "updatedAt" := Instant(now)],
      sub.metadataPlanId)
  }

  /** The update of an invoice event: only the status and the time. */
  function InvoiceFields(status: TenantStatus, now: int): (update: Fields)
    ensures update.Keys == {"status", "updatedAt"}
  {
    map["status" := Text(StatusName(status)), "updatedAt" := Instant(now)]
  }

  /** `planId` is written only when the event carries a non-empty one, and
      then it is that one. */
  lemma PlanIdWrittenOnlyWhenPresent(update: Fields, planId: Option<string>)
    requires "planId" !in update
    ensures "planId" in WithPlanId(update, planId) <==> Truthy(planId)
    ensures Truthy(planId) ==> WithPlanId(update, planId)["planId"] == Text(planId.value)
    ensures forall k :: k in update ==> k in WithPlanId(update, planId) && WithPlanId(update, planId)[k] == update[k]
  {
  }

  /** The checkout's plan id is the subscription's own when it has one, even an
      empty one, and the session's otherwise. */
  lemma CheckoutPlanIdSource(session: CheckoutSession, sub: Subscription, now: int)
    ensures "planId" in CheckoutFields(session, sub, now) <==>
      (if sub.metadataPlanId.Some? then Truthy(sub.metadataPlanId) else Truthy(session.metadataPlanId))
    ensures sub.metadataPlanId.Some? && sub.metadataPlanId.value != [] ==>
      CheckoutFields(session, sub, now)["planId"] == Text(sub.metadataPlanId.value)
  {
  }

  /** A payment failure marks the tenant 'past_due'; a paid invoice marks it
      'active'. */
  lemma InvoiceStatuses(now: int)
    ensures InvoiceFields(PastDue, now)["status"] == Text("past_due")
    ensures InvoiceFields(Active, now)["status"] == Text("active")
  {
  }

  // ---------------------------------------------------------------------------
  // Merge writes
  // ---------------------------------------------------------------------------

  /** `doc(id).set(fields, { merge: true })` on the whole collection: the
      document is created when missing, and the written fields replace their
      old values while the others stay. */
  function MergeInto(docs: map<string, Fields>, tenantId: string, update: Fields): (r: map<string, Fields>)
    ensures r.Keys == docs.Keys + {tenantId}
  {
    docs[tenantId := (if tenantId in docs then docs[tenantId] else map[]) + update]
  }

  /** A merge-write changes only the written fields of the written document. */
  lemma MergeKeepsOtherFields(docs: map<string, Fields>, tenantId: string, update: Fields)
    ensures forall id :: id in docs && id != tenantId ==> MergeInto(docs, tenantId, update)[id] == docs[id]
    ensures forall k :: k in update ==> MergeInto(docs, tenantId, update)[tenantId][k] == update[k]
    ensures tenantId in docs ==>
      forall k :: k in docs[tenantId] && k !in update ==> MergeInto(docs, tenantId, update)[tenantId][k] == docs[tenantId][k]
  {
  }

  /** An update without a plan id leaves the tenant's plan as it was. */
  lemma MissingPlanIdKeepsPlan(docs: map<string, Fields>, tenantId: string, update: Fields, planId: Option<string>)
    requires "planId" !in update && !Truthy(planId)
    requires tenantId in docs && "planId" in docs[tenantId]
    ensures MergeInto(docs, tenantId, WithPlanId(update, planId))[tenantId]["planId"] == docs[tenantId]["planId"]
  {
  }

  /** Merging one update twice leaves what merging it once leaves. A
      redelivered event carries a fresh `updatedAt`, so this is about one
      update, not about two deliveries. */
  lemma RedeliveryIsHarmless(docs: map<string, Fields>, tenantId: string, update: Fields)
    ensures MergeInto(MergeInto(docs, tenantId, update), tenantId, update) == MergeInto(docs, tenantId, update)
  {
    var once := MergeInto(docs, tenantId, update);
    var before := if tenantId in docs then docs[tenantId] else map[];
    assert once[tenantId] + update == once[tenantId] by {
      assert (before + update) + update == before + update;
    }
  }

  // ---------------------------------------------------------------------------
  // The handler
  // ---------------------------------------------------------------------------

  /** A write of `fields` on the tenant document `tenantId`. */
  datatype Write = Write(tenantId: string, fields: Fields)

  /** The tenant document `id` belongs to subscription `subId`. */
  predicate HoldsSubscription(docs: map<string, Fields>, id: string, subId: string) {
    id in docs && "gatewaySubId" in docs[id] && docs[id]["gatewaySubId"] == Text(subId)
  }

  /** The write of a completed checkout: none unless it is a subscription
      checkout with a subscription and a tenant id, taken from the metadata,
      else from `client_reference_id`. */
  function CheckoutWrite(session: CheckoutSession, sub: Subscription, now: int): Option<Write> {
    var tenantId := Coalesce(session.metadataTenantId, session.clientReferenceId);
    if session.mode != "subscription" || !Truthy(session.subscription) then None
    else if !Truthy(tenantId) then None
    else Some(Write(tenantId.value, CheckoutFields(session, sub, now)))
  }

  /** The metadata's tenant id wins over `client_reference_id`; an empty one
      still wins, and then nothing is written. */
  lemma CheckoutTarget(session: CheckoutSession, sub: Subscription, now: int)
    ensures CheckoutWrite(session, sub, now).Some? ==>
      && session.mode == "subscription" && Truthy(session.subscription)
      && CheckoutWrite(session, sub, now).value.tenantId ==
           (if session.metadataTenantId.Some? then session.metadataTenantId.value else session.clientReferenceId.value)
    ensures session.metadataTenantId == Some("") ==> CheckoutWrite(session, sub, now).None?
    ensures session.mode != "subscription" ==> CheckoutWrite(session, sub, now).None?
  {
  }

  /** A write found through the subscription id: on a document that holds
      that subscription, or none when no document does. */
  predicate LookupWrite(docs: map<string, Fields>, subId: string, fields: Fields, write: Option<Write>) {
    && (write.Some? ==> HoldsSubscription(docs, write.value.tenantId, subId) && write.value.fields == fields)
    && (write.None? ==> forall id :: id in docs ==> !HoldsSubscription(docs, id, subId))
  }

  /** The writes the route may make for a verified event. */
  predicate AllowedWrite(docs: map<string, Fields>, event: Event, retrieved: Subscription, now: int, write: Option<Write>) {
    match event
    case CheckoutSessionCompleted(session) => write == CheckoutWrite(session, retrieved, now)
    case SubscriptionUpdated(sub) => LookupWrite(docs, sub.id, SubscriptionFields(sub, now), write)
    case SubscriptionDeleted(sub) => LookupWrite(docs, sub.id, SubscriptionFields(sub, now), write)
    case InvoicePaymentFailed(subId) =>
      if Truthy(subId) then LookupWrite(docs, subId.value, InvoiceFields(PastDue, now), write) else write.None?
    case InvoicePaid(subId) =>
      if Truthy(subId) then LookupWrite(docs, subId.value, InvoiceFields(Active, now), write) else write.None?
    case OtherEvent(_) => write.None?
  }

  /** The `tenants` collection, as far as the route reads and writes it. */
  class TenantStore {
    var docs: map<string, Fields>

    constructor(docs: map<string, Fields>)
      ensures this.docs == docs
    {
      this.docs := docs;
    }

    /** `findTenantIdBySubscriptionId`: a document whose `gatewaySubId` is
        `subId`, or None when there is none. Which one Firestore's `limit(1)`
        returns when several match is not modelled. */
    method FindTenantIdBySubscriptionId(subId: string) returns (r: Option<string>)
      ensures r.Some? ==> HoldsSubscription(docs, r.value, subId)
      ensures r.None? ==> forall id :: id in docs ==> !HoldsSubscription(docs, id, subId)
    {
      var unseen := docs.Keys;
      while unseen != {}
        invariant unseen <= docs.Keys
        invariant forall id :: id in docs && id !in unseen ==> !HoldsSubscription(docs, id, subId)
        decreases |unseen|
      {
        var id :| id in unseen;
        if HoldsSubscription(docs, id, subId) {
          return Some(id);
        }
        unseen := unseen - {id};
      }
      return None;
    }

    /** `db.collection('tenants').doc(tenantId).set(update, { merge: true })`. */
    method SetMerge(tenantId: string, update: Fields)
      modifies this
      ensures docs == MergeInto(old(docs), tenantId, update)
    {
      var current := if tenantId in docs then docs[tenantId] else map[];
      docs := docs[tenantId := current + update];
    }
  }

  /** `POST`: 500 without a configured secret, 400 when the signature does not
      verify, 200 otherwise; a verified event makes at most one merge-write,
      the one `AllowedWrite` describes, and returns it. */
  method HandleWebhook(store: TenantStore, secret: string, event: Option<Event>, retrieved: Subscription, now: int)
    returns (status: int, write: Option<Write>)
    modifies store
    ensures status == (if secret == [] then 500 else if event.None? then 400 else 200)
    ensures secret == [] || event.None? ==> write.None?
    ensures secret != [] && event.Some? ==> AllowedWrite(old(store.docs), event.value, retrieved, now, write)
    ensures store.docs == (if write.Some? then MergeInto(old(store.docs), write.value.tenantId, write.value.fields) else old(store.docs))
  {
    if secret == [] {
      return 500, None;
    }
    if event.None? {
      return 400, None;
    }
    status := 200;
    write := None;
    match event.value {
      case CheckoutSessionCompleted(session) =>
        if session.mode != "subscription" || !Truthy(session.subscription) {
          return;
        }
        var tenantId := Coalesce(session.metadataTenantId, session.clientReferenceId);
        if !Truthy(tenantId) {
          return;
        }
        var planId := Coalesce(retrieved.metadataPlanId, session.metadataPlanId);
        var update: Fields := map[
          "status" := Text(StatusName(MapStripeSubStatus(retrieved.status))),
          "gatewayCustomerId" := (if session.customer.Some? then Text(session.customer.value) else Null),
          "gatewaySubId" := Text(retrieved.id),
          "currentPeriodEnd" := Instant(retrieved.currentPeriodEnd * 1000),
          "updatedAt" := Instant(now)];
        if Truthy(planId) {
          update := update["planId" := Text(planId.value)];
        }
        store.SetMerge(tenantId.value, update);
        write := Some(Write(tenantId.value, update));
      case SubscriptionUpdated(sub) =>
        write := UpdateSubscription(store, sub, now);
      case SubscriptionDeleted(sub) =>
        write := UpdateSubscription(store, sub, now);
      case InvoicePaymentFailed(subId) =>
        if !Truthy(subId) {
          return;
        }
        write := MarkInvoice(store, subId.value, PastDue, now);
      case InvoicePaid(subId) =>
        if !Truthy(subId) {
          return;
        }
        write := MarkInvoice(store, subId.value, Active, now);
      case OtherEvent(_) =>
    }
  }

  /** The `customer.subscription.updated` and `.deleted` branch. */
  method UpdateSubscription(store: TenantStore, sub: Subscription, now: int) returns (write: Option<Write>)
    modifies store
    ensures LookupWrite(old(store.docs), sub.id, SubscriptionFields(sub, now), write)
    ensures store.docs == (if write.Some? then MergeInto(old(store.docs), write.value.tenantId, write.value.fields) else old(store.docs))
  {
    var tenantId := store.FindTenantIdBySubscriptionId(sub.id);
    if tenantId.None? {
      return None;
    }
    var update: Fields := map[
      "status" := Text(StatusName(MapStripeSubStatus(sub.status))),
      "currentPeriodEnd" := Instant(sub.currentPeriodEnd * 1000),
      "updatedAt" := Instant(now)];
    if Truthy(sub.metadataPlanId) {
      update := update["planId" := Text(sub.metadataPlanId.value)];
    }
    store.SetMerge(tenantId.value, update);
    write := Some(Write(tenantId.value, update));
  }

  /** The two invoice branches: the status is set on the subscription's tenant. */
  method MarkInvoice(store: TenantStore, subId: string, status: TenantStatus, now: int) returns (write: Option<Write>)
    modifies store
    ensures LookupWrite(old(store.docs), subId, InvoiceFields(status, now), write)
    ensures store.docs == (if write.Some? then MergeInto(old(store.docs), write.value.tenantId, write.value.fields) else old(store.docs))
  {
    var tenantId := store.FindTenantIdBySubscriptionId(subId);
    if tenantId.None? {
      return None;
    }
    var update := map["status" := Text(StatusName(status)), "updatedAt" := Instant(now)];
    store.SetMerge(tenantId.value, update);
    write := Some(Write(tenantId.value, update));
  }
}
