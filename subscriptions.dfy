/** The subscription handlers: reading and creating the caller's
    subscription, changing it, starting a Stripe checkout, opening the Stripe
    billing portal, and acknowledging Stripe's webhook events. What Stripe
    itself answers (a new customer id, the portal address) enters as a
    parameter. */
module SubscriptionsController {
  import opened Base
  import opened Schema
  import opened Tables
  import opened Storage

  /** The caller's subscription: the first, in insertion order, they own. */
  ghost function OwnSubscription(st: MemStorage, callerId: int): (r: Option<Subscription>)
    requires st.Valid()
    reads st
    ensures r.Some? ==> r.value.id in st.subscriptions && st.subscriptions[r.value.id] == r.value && r.value.userId == callerId
    ensures r.None? <==> forall k :: k in st.subscriptions ==> st.subscriptions[k].userId != callerId
  {
    st.Keyed();
    FindSpec(st.subscriptions, SubscriptionKey, st.subscriptionId, SubscriptionOwner, callerId);
    Find(Rows(st.subscriptions, st.subscriptionId), SubscriptionOwner, callerId)
  }

  /** The subscription as the client is shown it: a status of
      "active-canceling" is reported as cancelling at the period end. */
  function ClientView(s: Subscription): (v: Subscription)
    ensures v.cancelAtPeriodEnd <==> s.status == "active-canceling"
    ensures v.(cancelAtPeriodEnd := s.cancelAtPeriodEnd) == s
  {
    s.(cancelAtPeriodEnd := s.status == "active-canceling")
  }

  /** Answers with the caller's subscription, or 404. */
  method GetCurrentSubscription(st: MemStorage, callerId: int) returns (reply: Reply<Subscription>)
    requires st.Valid()
    ensures OwnSubscription(st, callerId).None? <==> reply == Fail(NotFound, "No subscription found")
    ensures OwnSubscription(st, callerId).Some? ==>
              reply == Reply(Ok, Body(ClientView(OwnSubscription(st, callerId).value)))
  {
    var s := st.GetSubscriptionByUserId(callerId);
    if s.None? {
      return Fail(NotFound, "No subscription found");
    }
    reply := Reply(Ok, Body(ClientView(s.value)));
  }

  /** A subscription body that has the expected shape; `None`: the key is
      absent, `Some(None)`: it is null. */
  datatype SubscriptionForm = SubscriptionForm(
    userId: Option<int>, plan: Option<string>,
    stripeCustomerId: Option<Option<string>>, stripeSubscriptionId: Option<Option<string>>,
    status: Option<string>, cancelAtPeriodEnd: Option<Option<bool>>,
    currentPeriodStart: Option<Option<Timestamp>>, currentPeriodEnd: Option<Option<Timestamp>>)

  /** The body names an owner, and a plan, when given, is one of the four. */
  predicate FormValid(f: SubscriptionForm) {
    f.userId.Some? && (f.plan.Some? ==> ParsePlan(f.plan.value).Some?)
  }

  /** The insert a valid body makes, owned by the caller whatever it names. */
  function SubscriptionInsert(callerId: int, f: SubscriptionForm): (n: NewSubscription)
    requires FormValid(f)
    ensures n.userId == callerId
    ensures f.plan.None? <==> n.plan.None?
    ensures n.plan.Some? ==> PlanName(n.plan.value) == f.plan.value
  {
    NewSubscription(callerId, if f.plan.Some? then ParsePlan(f.plan.value) else None,
                    Flatten(f.stripeCustomerId), Flatten(f.stripeSubscriptionId), f.status,
                    Flatten(f.cancelAtPeriodEnd), Flatten(f.currentPeriodStart), Flatten(f.currentPeriodEnd))
  }

  /** Creates the caller's first subscription; a user holds at most one. */
  method CreateSubscription(st: MemStorage, callerId: int, body: Option<SubscriptionForm>, now: Timestamp)
    returns (reply: Reply<Subscription>)
    requires st.Consistent() && callerId in st.users
    modifies st`subscriptions, st`subscriptionId
    ensures st.Consistent()
    ensures body.None? || !FormValid(body.value) ==> reply == Fail(BadRequest, "Invalid request body")
    ensures body.Some? && FormValid(body.value) && old(OwnSubscription(st, callerId)).Some? ==>
              reply == Fail(BadRequest, "User already has a subscription")
    ensures body.Some? && FormValid(body.value) && old(OwnSubscription(st, callerId)).None? ==>
              var s := SubscriptionRow(SubscriptionInsert(callerId, body.value), old(st.subscriptionId), now);
              reply == Reply(Created, Body(s)) && st.subscriptions == old(st.subscriptions)[s.id := s]
    ensures reply.status != Created ==> st.subscriptions == old(st.subscriptions) && st.subscriptionId == old(st.subscriptionId)
  {
    if body.None? || !FormValid(body.value) {
      return Fail(BadRequest, "Invalid request body");
    }
    var existing := st.GetSubscriptionByUserId(callerId);
    if existing.Some? {
      return Fail(BadRequest, "User already has a subscription");
    }
    var s := st.CreateSubscription(SubscriptionInsert(callerId, body.value), now);
    reply := Reply(Created, Body(s));
  }

  // ------------------------------------------------------------------ update

  /** The update handler as written, on the subscription table alone: it
      checks that the caller has a subscription and that this subscription
      is the caller's own, then writes the raw body over the subscription
      the path id names, which need not be that one. A missing target
      throws (500). */
  function UpdateAsWritten(subs: map<int, Subscription>, next: int, callerId: int, pathId: Option<int>,
                           body: SubscriptionPatch, now: Timestamp): (r: (Status, map<int, Subscription>))
    requires WellKeyed(subs, SubscriptionKey, next)
    ensures r.0 != Forbidden
    ensures r.0 == Ok ==> pathId.Some? && pathId.value in subs
                          && r.1 == subs[pathId.value := MergeSubscription(subs[pathId.value], body, now)]
    ensures r.0 != Ok ==> r.1 == subs
  {
    if pathId.None? then (BadRequest, subs)
    else
      var own := Find(Rows(subs, next), SubscriptionOwner, callerId);
      FindSpec(subs, SubscriptionKey, next, SubscriptionOwner, callerId);
      if own.None? then (NotFound, subs)
      else if own.value.userId != callerId then (Forbidden, subs)
      else if pathId.value !in subs then (ServerError, subs)
      else (Ok, subs[pathId.value := MergeSubscription(subs[pathId.value], body, now)])
  }

  /** As written, a user with a subscription can rewrite another user's
      subscription, and can take it over, so that user 1 then holds two. */
  lemma UpdateAsWrittenReachesOtherUsers()
    ensures var a := Subscription(1, 1, Free, None, None, "active", false, None, None, 0, 0);
            var b := Subscription(2, 2, Basic, None, None, "active", false, None, None, 0, 0);
            var subs := map[1 := a, 2 := b];
            var body := SubscriptionPatch(Some(1), Some(Enterprise), None, None, None, None, None, None);
            var r := UpdateAsWritten(subs, 3, 1, Some(2), body, 5);
            && r.0 == Ok && subs[2].userId == 2
            && r.1[2].plan == Enterprise && r.1[2].userId == 1 && r.1[1].userId == 1
  {
    var a := Subscription(1, 1, Free, None, None, "active", false, None, None, 0, 0);
    var b := Subscription(2, 2, Basic, None, None, "active", false, None, None, 0, 0);
    var subs := map[1 := a, 2 := b];
    assert Rows(subs, 1) == [];
    assert Rows(subs, 2) == [a];
    assert Rows(subs, 3) == [a, b];
    assert Find([a, b], SubscriptionOwner, 1) == Some(a);
  }

  /** Changes the caller's own subscription, and only that one: a path id
      naming any other subscription is refused with 403, and the body
      cannot move the subscription to another user. */
  method UpdateSubscription(st: MemStorage, callerId: int, pathId: Option<int>, body: SubscriptionPatch, now: Timestamp)
    returns (reply: Reply<Subscription>)
    requires st.Consistent()
    modifies st`subscriptions
    ensures st.Consistent()
    ensures pathId.None? ==> reply == Fail(BadRequest, "Invalid subscription ID")
    ensures pathId.Some? && old(OwnSubscription(st, callerId)).None? ==> reply == Fail(NotFound, "Subscription not found")
    ensures pathId.Some? && old(OwnSubscription(st, callerId)).Some? && pathId.value != old(OwnSubscription(st, callerId)).value.id ==>
              reply == Fail(Forbidden, "Forbidden")
    ensures reply.status == Ok <==> (pathId.Some? && old(OwnSubscription(st, callerId)).Some?
                                    && pathId.value == old(OwnSubscription(st, callerId)).value.id)
    ensures reply.status == Ok ==>
              var own := old(OwnSubscription(st, callerId)).value;
              var s := MergeSubscription(own, body.(userId := None), now);
              reply == Reply(Ok, Body(s)) && s.userId == callerId && st.subscriptions == old(st.subscriptions)[own.id := s]
    ensures reply.status != Ok ==> st.subscriptions == old(st.subscriptions)
  {
    if pathId.None? {
      return Fail(BadRequest, "Invalid subscription ID");
    }
    var own := st.GetSubscriptionByUserId(callerId);
    if own.None? {
      return Fail(NotFound, "Subscription not found");
    }
    if pathId.value != own.value.id {
      return Fail(Forbidden, "Forbidden");
    }
    var updated := st.UpdateSubscription(own.value.id, body.(userId := None), now);
    reply := Reply(Ok, Body(updated.value));
  }

  /** The corrected update touches no subscription but the caller's. */
  lemma UpdateLeavesOthersAlone(subs: map<int, Subscription>, own: Subscription, body: SubscriptionPatch,
                                now: Timestamp, k: int)
    requires own.id in subs && subs[own.id] == own && k in subs && subs[k].userId != own.userId
    ensures var after := subs[own.id := MergeSubscription(own, body.(userId := None), now)];
            k in after && after[k] == subs[k]
  {
  }

  // ---------------------------------------------------------------- checkout

  const PLANS_FOR_SALE: seq<string> := ["basic", "premium", "enterprise"]
  const BILLING_CYCLES: seq<string> := ["monthly", "annually"]

  /** The environment variable that holds the Stripe price of a plan and
      billing cycle. */
  function PriceVariable(plan: string, cycle: string): (name: string)
    requires plan in PLANS_FOR_SALE && cycle in BILLING_CYCLES
  {
    var p := if plan == "basic" then "BASIC" else if plan == "premium" then "PREMIUM" else "ENTERPRISE";
    var c := if cycle == "monthly" then "MONTHLY" else "ANNUAL";
    "STRIPE_" + p + "_" + c + "_PRICE_ID"
  }

  /** Each plan and cycle reads a variable of its own. */
  lemma PriceVariablesDistinct(p1: string, c1: string, p2: string, c2: string)
    requires p1 in PLANS_FOR_SALE && c1 in BILLING_CYCLES && p2 in PLANS_FOR_SALE && c2 in BILLING_CYCLES
    requires p1 != p2 || c1 != c2
    ensures PriceVariable(p1, c1) != PriceVariable(p2, c2)
  {
    assert |PriceVariable(p1, c1)| != |PriceVariable(p2, c2)|;
  }

  const TEST_PRICE := "price_1234567890"

  /** The configured price, or the test price when the variable is unset or
      empty. */
  function FinalPrice(env: map<string, string>, plan: string, cycle: string): (price: string)
    requires plan in PLANS_FOR_SALE && cycle in BILLING_CYCLES
    ensures price != ""
    ensures PriceVariable(plan, cycle) in env && env[PriceVariable(plan, cycle)] != "" ==> price == env[PriceVariable(plan, cycle)]
    ensures !(PriceVariable(plan, cycle) in env && env[PriceVariable(plan, cycle)] != "") ==> price == TEST_PRICE
  {
    var name := PriceVariable(plan, cycle);
    if name in env && env[name] != "" then env[name] else TEST_PRICE
  }

  /** `${req.headers.origin}`: an absent origin renders as "undefined". */
  function OriginText(origin: Option<string>): string {
    if origin.Some? then origin.value else "undefined"
  }

  /** What the handler asks Stripe's checkout for. */
  datatype CheckoutRequest = CheckoutRequest(priceId: string, successUrl: string, cancelUrl: string)

  /** A field given and not empty. */
  predicate Given(s: Option<string>) {
    s.Some? && s.value != ""
  }

  /** The caller's subscription has no Stripe customer id yet. */
  predicate LacksCustomer(s: Option<Subscription>) {
    s.None? || !Given(s.value.stripeCustomerId)
  }

  /** Starts a checkout for a paid plan. A subscription without a Stripe
      customer gets the customer id Stripe hands out (`newCustomerId`); no
      other stored data changes. */
  method CreateCheckoutSession(st: MemStorage, callerId: int, plan: Option<string>, cycle: Option<string>,
                               origin: Option<string>, env: map<string, string>, newCustomerId: string, now: Timestamp)
    returns (reply: Reply<CheckoutRequest>)
    requires st.Consistent()
    modifies st`subscriptions
    ensures st.Consistent()
    ensures !Given(plan) || !Given(cycle) ==> reply == Fail(BadRequest, "Missing required fields: plan, billingCycle")
    ensures Given(plan) && Given(cycle) && plan.value !in PLANS_FOR_SALE ==>
              reply == Fail(BadRequest, "Invalid plan. Must be one of: basic, premium, enterprise")
    ensures Given(plan) && Given(cycle) && plan.value in PLANS_FOR_SALE && cycle.value !in BILLING_CYCLES ==>
              reply == Fail(BadRequest, "Invalid billing cycle. Must be one of: monthly, annually")
    ensures Given(plan) && Given(cycle) && plan.value in PLANS_FOR_SALE && cycle.value in BILLING_CYCLES ==>
              && (callerId !in st.users ==> reply == Fail(NotFound, "User not found"))
              && (callerId in st.users ==>
                    reply == Reply(Ok, Body(CheckoutRequest(
                      FinalPrice(env, plan.value, cycle.value),
                      OriginText(origin) + "/subscription?success=true&plan=" + plan.value + "&billing=" + cycle.value,
                      OriginText(origin) + "/subscription?canceled=true"))))
    ensures reply.status == Ok && old(OwnSubscription(st, callerId)).Some? && LacksCustomer(old(OwnSubscription(st, callerId))) ==>
              var own := old(OwnSubscription(st, callerId)).value;
              st.subscriptions == old(st.subscriptions)[own.id := MergeSubscription(own, CustomerPatch(newCustomerId), now)]
    ensures reply.status != Ok || !LacksCustomer(old(OwnSubscription(st, callerId))) || old(OwnSubscription(st, callerId)).None? ==>
              st.subscriptions == old(st.subscriptions)
  {
    if !Given(plan) || !Given(cycle) {
      return Fail(BadRequest, "Missing required fields: plan, billingCycle");
    }
    if plan.value !in PLANS_FOR_SALE {
      return Fail(BadRequest, "Invalid plan. Must be one of: basic, premium, enterprise");
    }
    if cycle.value !in BILLING_CYCLES {
      return Fail(BadRequest, "Invalid billing cycle. Must be one of: monthly, annually");
    }
    var price := FinalPrice(env, plan.value, cycle.value);
    var successUrl := OriginText(origin) + "/subscription?success=true&plan=" + plan.value + "&billing=" + cycle.value;
    var cancelUrl := OriginText(origin) + "/subscription?canceled=true";
    var user := st.GetUser(callerId);
    if user.None? {
      return Fail(NotFound, "User not found");
    }
    RecordCustomer(st, callerId, newCustomerId, now);
    reply := Reply(Ok, Body(CheckoutRequest(price, successUrl, cancelUrl)));
  }

  /** Gives the caller's subscription, if it lacks one, the Stripe customer
      id Stripe handed out. */
  method RecordCustomer(st: MemStorage, callerId: int, newCustomerId: string, now: Timestamp)
    requires st.Consistent()
    modifies st`subscriptions
    ensures st.Consistent()
    ensures old(OwnSubscription(st, callerId)).Some? && LacksCustomer(old(OwnSubscription(st, callerId))) ==>
              var own := old(OwnSubscription(st, callerId)).value;
              st.subscriptions == old(st.subscriptions)[own.id := MergeSubscription(own, CustomerPatch(newCustomerId), now)]
    ensures old(OwnSubscription(st, callerId)).None? || !LacksCustomer(old(OwnSubscription(st, callerId))) ==>
              st.subscriptions == old(st.subscriptions)
  {
    var own := st.GetSubscriptionByUserId(callerId);
    if LacksCustomer(own) && own.Some? {
      var _ := st.UpdateSubscription(own.value.id, CustomerPatch(newCustomerId), now);
    }
  }

  /** The partial row that records a Stripe customer id. */
  function CustomerPatch(customerId: string): (p: SubscriptionPatch)
    ensures p.userId.None? && p.stripeCustomerId == Some(Some(customerId))
    ensures p.(stripeCustomerId := None) == NO_SUBSCRIPTION_CHANGE
  {
    NO_SUBSCRIPTION_CHANGE.(stripeCustomerId := Some(Some(customerId)))
  }

  // ---------------------------------------------------------- billing portal

  /** What the portal handler answers: where to send the user, and a note
      when Stripe's portal could not be opened. */
  datatype PortalReply = PortalReply(url: string, message: Option<string>)

  const PORTAL_FALLBACK_NOTE := "Stripe Billing Portal is not configured. In a production environment, you would need to set this up in your Stripe dashboard."

  /** Opens Stripe's billing portal for the caller's Stripe customer.
      `portalUrl` is the address Stripe answers with, or `None` when the
      Stripe call fails, in which case the user is sent back to the
      subscription page with a note. The return address always renders, so
      the "no return URL" branch of the handler cannot be taken. */
  method CreateBillingPortalSession(st: MemStorage, callerId: int, origin: Option<string>, portalUrl: Option<string>)
    returns (reply: Reply<PortalReply>)
    requires st.Valid()
    ensures old(OwnSubscription(st, callerId)).None? || !Given(old(OwnSubscription(st, callerId)).value.stripeCustomerId) ==>
              reply == Fail(NotFound, "No subscription or Stripe customer found")
    ensures reply.status == Ok <==> !LacksCustomer(OwnSubscription(st, callerId))
    ensures reply.status == Ok && portalUrl.Some? ==> reply == Reply(Ok, Body(PortalReply(portalUrl.value, None)))
    ensures reply.status == Ok && portalUrl.None? ==>
              reply == Reply(Ok, Body(PortalReply(OriginText(origin) + "/subscription", Some(PORTAL_FALLBACK_NOTE))))
  {
    var returnUrl := OriginText(origin) + "/subscription";
    var own := st.GetSubscriptionByUserId(callerId);
    if own.None? || !Given(own.value.stripeCustomerId) {
      return Fail(NotFound, "No subscription or Stripe customer found");
    }
    if portalUrl.Some? {
      reply := Reply(Ok, Body(PortalReply(portalUrl.value, None)));
    } else {
      reply := Reply(Ok, Body(PortalReply(returnUrl, Some(PORTAL_FALLBACK_NOTE))));
    }
  }

  // ----------------------------------------------------------------- webhook

  /** A Stripe event as the webhook reads it: its type, and whether it
      carries a `data` object. */
  datatype StripeEvent = StripeEvent(eventType: string, hasData: bool)

  const HANDLED_EVENTS: seq<string> := ["checkout.session.completed", "customer.subscription.updated", "customer.subscription.deleted"]

  /** The webhook acknowledges every event with a non-empty signature and writes nothing: the
      handlers of the three event types only log. An event of one of those
      types without a `data` object fails on the property read (400). */
  function HandleWebhook(signature: Option<string>, event: StripeEvent): (r: Reply<bool>)
    ensures !Given(signature) <==> r == Fail(BadRequest, "Missing Stripe signature")
    ensures r.status == Ok <==> Given(signature) && (event.eventType !in HANDLED_EVENTS || event.hasData)
    ensures r.status == Ok ==> r == Reply(Ok, Body(true))
    ensures r.status != Ok ==> r.status == BadRequest
  {
    if !Given(signature) then Fail(BadRequest, "Missing Stripe signature")
    else if event.eventType in HANDLED_EVENTS && !event.hasData then Fail(BadRequest, "Webhook error")
    else Reply(Ok, Body(true))
  }
}
