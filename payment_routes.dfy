/**
  The Stripe webhook of routes/payment_routes.py and its three handlers,
  over the customer and subscription tables of the Store. Verifying the
  signature and decoding the payload are Stripe's: the webhook receives
  their outcome. The event's `data.object` is a dict of strings, read with
  `.get(key)`.

  Each handler catches its own exceptions and rolls back, so a failing
  handler leaves the tables as they were and the webhook still reports
  success. The only failure the tables can produce is a second row with an
  existing `stripe_subscription_id`, which the unique constraint refuses at
  commit.
*/
module PaymentRoutes {
  import opened Wrappers
  import opened Strings
  import opened Models
  import opened Database

  type StripeObject = map<string, string>

  /** `obj.get(key)` */
  function Field(obj: StripeObject, key: string): Option<string> {
    if key in obj then Some(obj[key]) else None
  }

  /** A decoded event: its type and its `data.object`, None when the payload lacks them. */
  datatype Event = Event(eventType: Option<string>, dataObject: Option<StripeObject>)

  /** The webhook's answer: `{'status': 'success'}`, or a 400 with the error. */
  datatype WebhookReply = Accepted | Rejected

  /** The position of the first customer with that Stripe id (`filter_by(...).first()`). */
  function CustomerWithStripeId(cs: seq<Customer>, stripeId: string): (r: Option<nat>)
    ensures r.None? <==> forall i :: 0 <= i < |cs| ==> cs[i].stripeCustomerId != Some(stripeId)
    ensures r.Some? ==> r.value < |cs| && cs[r.value].stripeCustomerId == Some(stripeId)
                        && forall j :: 0 <= j < r.value ==> cs[j].stripeCustomerId != Some(stripeId)
  {
    FirstWhere(cs, (c: Customer) => c.stripeCustomerId == Some(stripeId))
  }

  /** The position of the first subscription with that Stripe id. */
  function SubscriptionWithStripeId(subs: seq<Subscription>, stripeId: string): (r: Option<nat>)
    ensures r.None? <==> forall i :: 0 <= i < |subs| ==> subs[i].stripeSubscriptionId != Some(stripeId)
    ensures r.Some? ==> r.value < |subs| && subs[r.value].stripeSubscriptionId == Some(stripeId)
                        && forall j :: 0 <= j < r.value ==> subs[j].stripeSubscriptionId != Some(stripeId)
  {
    FirstWhere(subs, (s: Subscription) => s.stripeSubscriptionId == Some(stripeId))
  }

  /** The subscription table after setting `active` on the first row with that Stripe id;
      unchanged when no row has it. */
  function SetActive(subs: seq<Subscription>, stripeId: string, active: bool): seq<Subscription> {
    match SubscriptionWithStripeId(subs, stripeId)
    case None => subs
    case Some(i) => subs[i := subs[i].(active := active)]
  }

  /** The statuses the update handler counts as active. */
  predicate ActiveStatus(status: Option<string>) {
    status == Some("active") || status == Some("trialing")
  }

  /** The subscription table after a completed checkout described by `obj`: with a truthy
      customer and subscription id and a known Stripe customer, one subscription row for that
      customer is added, unless the subscription id is already in use; otherwise unchanged. */
  function AfterCheckout(subs: seq<Subscription>, customers: seq<Customer>, obj: StripeObject, now: int): seq<Subscription> {
    var customerId, subscriptionId := Field(obj, "customer"), Field(obj, "subscription");
    if Truthy(customerId) && Truthy(subscriptionId)
       && CustomerWithStripeId(customers, customerId.value).Some?
       && SubscriptionWithStripeId(subs, subscriptionId.value).None?
    then subs + [Subscription(subscriptionId, Professional, true, now, None, true,
                              CustomerWithStripeId(customers, customerId.value).value + 1)]
    else subs
  }

  /** `handle_checkout_completed`: one active PROFESSIONAL subscription starting now, renewing
      automatically and with no end date, for the customer the checkout names; a subscription id
      already in use is refused by the unique constraint at commit and rolled back. */
  method HandleCheckoutCompleted(db: Store, obj: StripeObject)
    requires db.Valid()
    modifies db`subscriptions
    ensures db.Valid()
    ensures db.subscriptions == AfterCheckout(old(db.subscriptions), db.customers, obj, db.clock)
  {
    var customerId := Field(obj, "customer");
    var subscriptionId := Field(obj, "subscription");
    if !Truthy(customerId) || !Truthy(subscriptionId) {
      return;
    }
    var customer := CustomerWithStripeId(db.customers, customerId.value);
    if customer.None? {
      return;
    }
    var row := Subscription(subscriptionId, Professional, true, db.clock, None, true, customer.value + 1);
    if SubscriptionWithStripeId(db.subscriptions, subscriptionId.value).Some? {
      // The commit violates the unique constraint and is rolled back.
      return;
    }
    db.subscriptions := db.subscriptions + [row];
    assert db.subscriptions[|db.subscriptions| - 1] == row;
  }

  /** `handle_subscription_updated`: for a truthy id, the matching subscription becomes active
      exactly when the status is "active" or "trialing". */
  method HandleSubscriptionUpdated(db: Store, obj: StripeObject)
    requires db.Valid()
    modifies db`subscriptions
    ensures db.Valid()
    ensures var id := Field(obj, "id");
      db.subscriptions == if Truthy(id) then SetActive(old(db.subscriptions), id.value, ActiveStatus(Field(obj, "status")))
                          else old(db.subscriptions)
  {
    var subscriptionId := Field(obj, "id");
    var status := Field(obj, "status");
    if !Truthy(subscriptionId) {
      return;
    }
    var found := SubscriptionWithStripeId(db.subscriptions, subscriptionId.value);
    if found.None? {
      return;
    }
    db.subscriptions := db.subscriptions[found.value := db.subscriptions[found.value].(active := ActiveStatus(status))];
  }

  /** `handle_subscription_deleted`: for a truthy id, the matching subscription is deactivated. */
  method HandleSubscriptionDeleted(db: Store, obj: StripeObject)
    requires db.Valid()
    modifies db`subscriptions
    ensures db.Valid()
    ensures var id := Field(obj, "id");
      db.subscriptions == if Truthy(id) then SetActive(old(db.subscriptions), id.value, false) else old(db.subscriptions)
  {
    var subscriptionId := Field(obj, "id");
    if !Truthy(subscriptionId) {
      return;
    }
    var found := SubscriptionWithStripeId(db.subscriptions, subscriptionId.value);
    if found.None? {
      return;
    }
    db.subscriptions := db.subscriptions[found.value := db.subscriptions[found.value].(active := false)];
  }

  /** `webhook` once the signature check and decoding have produced `event` (None when they
      raised): a payload without a data object is refused; the three known event types go to
      their handlers; every other type changes nothing and is still accepted. */
  method Webhook(db: Store, event: Option<Event>) returns (reply: WebhookReply)
    requires db.Valid()
    modifies db`subscriptions
    ensures db.Valid()
    ensures reply == Rejected <==> event.None? || event.value.dataObject.None?
    ensures reply == Rejected ==> db.subscriptions == old(db.subscriptions)
    ensures reply == Accepted && event.value.eventType !in
              {Some("checkout.session.completed"), Some("customer.subscription.updated"), Some("customer.subscription.deleted")}
            ==> db.subscriptions == old(db.subscriptions)
    ensures reply == Accepted && event.value.eventType == Some("checkout.session.completed") ==>
      db.subscriptions == AfterCheckout(old(db.subscriptions), db.customers, event.value.dataObject.value, db.clock)
    ensures reply == Accepted && event.value.eventType == Some("customer.subscription.deleted") ==>
      var id := Field(event.value.dataObject.value, "id");
      db.subscriptions == if Truthy(id) then SetActive(old(db.subscriptions), id.value, false) else old(db.subscriptions)
    ensures reply == Accepted && event.value.eventType == Some("customer.subscription.updated") ==>
      var id := Field(event.value.dataObject.value, "id");
      db.subscriptions == if Truthy(id) then SetActive(old(db.subscriptions), id.value,
                                                       ActiveStatus(Field(event.value.dataObject.value, "status")))
                          else old(db.subscriptions)
  {
    if event.None? || event.value.dataObject.None? {
      return Rejected;
    }
    var eventType := event.value.eventType;
    var data := event.value.dataObject.value;
    if eventType == Some("checkout.session.completed") {
      HandleCheckoutCompleted(db, data);
    } else if eventType == Some("customer.subscription.updated") {
      HandleSubscriptionUpdated(db, data);
    } else if eventType == Some("customer.subscription.deleted") {
      HandleSubscriptionDeleted(db, data);
    }
    reply := Accepted;
  }

  // ---------------------------------------------------------------------------
  // Properties

  /** Setting the flag touches at most the matching row and only its flag; the row keeps its
      Stripe id, so it is still the one found afterwards. */
  lemma SetActiveTouchesOneRow(subs: seq<Subscription>, stripeId: string, active: bool)
    ensures |SetActive(subs, stripeId, active)| == |subs|
    ensures forall i :: 0 <= i < |subs| && subs[i].stripeSubscriptionId != Some(stripeId) ==>
      SetActive(subs, stripeId, active)[i] == subs[i]
    ensures forall i :: 0 <= i < |subs| ==>
      SetActive(subs, stripeId, active)[i] == subs[i].(active := SetActive(subs, stripeId, active)[i].active)
    ensures SubscriptionWithStripeId(SetActive(subs, stripeId, active), stripeId) == SubscriptionWithStripeId(subs, stripeId)
    ensures SubscriptionWithStripeId(subs, stripeId).Some? ==>
      SetActive(subs, stripeId, active)[SubscriptionWithStripeId(subs, stripeId).value].active == active
  {
    var found := SubscriptionWithStripeId(subs, stripeId);
    if found.Some? {
      var s := SetActive(subs, stripeId, active);
      assert forall j :: 0 <= j < |subs| ==> s[j].stripeSubscriptionId == subs[j].stripeSubscriptionId;
      FirstSubscriptionAt(s, stripeId, found.value);
    }
  }

  lemma FirstSubscriptionAt(subs: seq<Subscription>, stripeId: string, i: nat)
    requires i < |subs| && subs[i].stripeSubscriptionId == Some(stripeId)
    requires forall j :: 0 <= j < i ==> subs[j].stripeSubscriptionId != Some(stripeId)
    ensures SubscriptionWithStripeId(subs, stripeId) == Some(i)
  {
    var r := SubscriptionWithStripeId(subs, stripeId);
    assert r.Some?;
  }

  /** Deleting the same subscription twice is the same as deleting it once; so is replaying an
      update with the same status. */
  lemma SetActiveIdempotent(subs: seq<Subscription>, stripeId: string, active: bool)
    ensures SetActive(SetActive(subs, stripeId, active), stripeId, active) == SetActive(subs, stripeId, active)
  {
    SetActiveTouchesOneRow(subs, stripeId, active);
  }

  /** A subscription the handlers flag inactive is not active at any instant, whatever its end date. */
  lemma DeactivatedIsInactive(subs: seq<Subscription>, stripeId: string, now: int)
    requires SubscriptionWithStripeId(subs, stripeId).Some?
    ensures !IsActive(SetActive(subs, stripeId, false)[SubscriptionWithStripeId(subs, stripeId).value], now)
  {
    SetActiveTouchesOneRow(subs, stripeId, false);
  }

  /** A checkout adds at most one row; the row it adds carries the checkout's subscription id,
      belongs to the customer with the checkout's Stripe id, and is an active PROFESSIONAL
      subscription; the ids stay unique. */
  lemma CheckoutAddsOne(subs: seq<Subscription>, customers: seq<Customer>, obj: StripeObject, now: int)
    requires SubscriptionIdsUnique(subs)
    ensures var after := AfterCheckout(subs, customers, obj, now);
      && SubscriptionIdsUnique(after)
      && after[..|subs|] == subs
      && (|after| == |subs| || |after| == |subs| + 1)
      && (|after| == |subs| + 1 ==>
            && Truthy(Field(obj, "customer")) && Truthy(Field(obj, "subscription"))
            && after[|subs|].stripeSubscriptionId == Field(obj, "subscription")
            && 1 <= after[|subs|].customerId <= |customers|
            && customers[after[|subs|].customerId - 1].stripeCustomerId == Field(obj, "customer")
            && after[|subs|].tier == Professional && after[|subs|].active)
  {
    var after := AfterCheckout(subs, customers, obj, now);
    if |after| != |subs| {
      var id := Field(obj, "subscription");
      assert SubscriptionWithStripeId(subs, id.value).None?;
      forall i, j | 0 <= i < j < |after| && after[i].stripeSubscriptionId.Some?
        ensures after[i].stripeSubscriptionId != after[j].stripeSubscriptionId
      {
        if j < |subs| {
          assert after[i] == subs[i] && after[j] == subs[j];
        } else {
          assert after[i] == subs[i];
        }
      }
    }
  }

  /** A freshly added checkout subscription has no end date, so it is active at every instant. */
  lemma CheckoutSubscriptionActive(subscriptionId: string, start: int, customerId: int, now: int)
    ensures IsActive(Subscription(Some(subscriptionId), Professional, true, start, None, true, customerId), now)
  {
  }
}
