/**
 * Billing through Stripe: which customer a checkout or portal session is opened for,
 * and what the webhook does to the users table. The Stripe SDK calls, the signature
 * check, the JSON decoding and the SQL connection are inputs given as their outcomes;
 * each `UPDATE ... WHERE` is a function on the table that changes every matching row
 * and nothing else.
 */
module Billing {
  import opened Wrappers

  const StatusOK := 200
  const StatusFound := 302
  const StatusSeeOther := 303
  const StatusBadRequest := 400
  const StatusNotFound := 404
  const StatusMethodNotAllowed := 405
  const StatusInternalServerError := 500

  /** The base URL used when the DOMAIN setting is empty. */
  const DefaultDomain := "http://localhost:8080"

  /** What a handler writes back. */
  datatype Reply = Failure(status: int, message: string) | Redirect(status: int, location: string) | Done(status: int)

  // ---------------------------------------------------------------------------
  // The users table
  // ---------------------------------------------------------------------------

  type UserId = string

  /** The columns of a users row that billing reads or writes; a NULL customer id is None. */
  datatype User = User(email: string, isPremium: bool, customerId: Option<string>)

  type Users = map<UserId, User>

  /**
   * UPDATE users SET is_premium = TRUE, stripe_customer_id = customer WHERE email = email:
   * every row with that e-mail becomes premium and records the customer; no other row changes.
   */
  function CheckoutCompleted(users: Users, customer: string, email: string): (r: Users)
    ensures r.Keys == users.Keys
    ensures forall id :: id in users && users[id].email == email ==>
              r[id].isPremium && r[id].customerId == Some(customer) && r[id].email == email
    ensures forall id :: id in users && users[id].email != email ==> r[id] == users[id]
  {
    map id | id in users ::
      if users[id].email == email then users[id].(isPremium := true, customerId := Some(customer)) else users[id]
  }

  /** A subscription in one of these states gives premium access. */
  predicate GrantsPremium(status: string) {
    status == "active" || status == "trialing"
  }

  /**
   * UPDATE users SET is_premium = granted WHERE stripe_customer_id = customer. A NULL
   * customer id equals nothing, so rows without one never change.
   */
  function SetPremiumByCustomer(users: Users, customer: string, granted: bool): (r: Users)
    ensures r.Keys == users.Keys
    ensures forall id :: id in users && users[id].customerId == Some(customer) ==>
              r[id] == users[id].(isPremium := granted)
    ensures forall id :: id in users && users[id].customerId != Some(customer) ==> r[id] == users[id]
  {
    map id | id in users ::
      if users[id].customerId == Some(customer) then users[id].(isPremium := granted) else users[id]
  }

  // ---------------------------------------------------------------------------
  // Event payloads and handlers
  // ---------------------------------------------------------------------------

  /**
   * The fields of a decoded checkout session the handler reads: the customer's id when a
   * customer is attached, the customer details' e-mail when details are attached.
   */
  datatype CheckoutSession = CheckoutSession(customer: Option<string>, customerEmail: Option<string>)

  /** The fields of a decoded subscription the handlers read. */
  datatype Subscription = Subscription(customer: Option<string>, status: string)

  /**
   * A verified event: its type, and the outcome of decoding its raw data as a checkout
   * session and as a subscription (only the one the type calls for is consulted).
   */
  datatype Event = Event(eventType: string, checkout: Result<CheckoutSession>, subscription: Result<Subscription>)

  /**
   * handleCheckoutCompleted. `exec` is the UPDATE's error, if it failed; on any error
   * the table is left as it was.
   */
  function HandleCheckoutCompleted(users: Users, session: Result<CheckoutSession>, exec: Option<string>): (r: Result<Users>)
    ensures session.Err? ==> r == Err(session.error)
    ensures session.Ok? && (session.value.customer.None? || session.value.customerEmail.None?) ==>
              r == Err("checkout session missing customer data")
    ensures r.Ok? <==> session.Ok? && session.value.customer.Some? && session.value.customerEmail.Some? && exec.None?
    ensures r.Ok? ==> r.value == CheckoutCompleted(users, session.value.customer.value, session.value.customerEmail.value)
  {
    if session.Err? then Err(session.error)
    else if session.value.customer.None? || session.value.customerEmail.None? then
      Err("checkout session missing customer data")
    else if exec.Some? then Err(exec.value)
    else Ok(CheckoutCompleted(users, session.value.customer.value, session.value.customerEmail.value))
  }

  /** handleSubscriptionUpdated: the customer's rows are premium exactly when the status grants it. */
  function HandleSubscriptionUpdated(users: Users, sub: Result<Subscription>, exec: Option<string>): (r: Result<Users>)
    ensures sub.Err? ==> r == Err(sub.error)
    ensures sub.Ok? && sub.value.customer.None? ==> r == Err("subscription event missing customer data")
    ensures r.Ok? <==> sub.Ok? && sub.value.customer.Some? && exec.None?
    ensures r.Ok? ==> r.value.Keys == users.Keys
    ensures r.Ok? ==> forall id :: id in users && users[id].customerId == sub.value.customer ==>
              r.value[id] == users[id].(isPremium := (sub.value.status == "active" || sub.value.status == "trialing"))
    ensures r.Ok? ==> forall id :: id in users && users[id].customerId != sub.value.customer ==> r.value[id] == users[id]
  {
    if sub.Err? then Err(sub.error)
    else if sub.value.customer.None? then Err("subscription event missing customer data")
    else if exec.Some? then Err(exec.value)
    else Ok(SetPremiumByCustomer(users, sub.value.customer.value, GrantsPremium(sub.value.status)))
  }

  /** handleSubscriptionDeleted: the customer's rows lose premium. */
  function HandleSubscriptionDeleted(users: Users, sub: Result<Subscription>, exec: Option<string>): (r: Result<Users>)
    ensures sub.Err? ==> r == Err(sub.error)
    ensures sub.Ok? && sub.value.customer.None? ==> r == Err("subscription deleted event missing customer data")
    ensures r.Ok? <==> sub.Ok? && sub.value.customer.Some? && exec.None?
    ensures r.Ok? ==> r.value.Keys == users.Keys
    ensures r.Ok? ==> forall id :: id in users && users[id].customerId == sub.value.customer ==>
              r.value[id] == users[id].(isPremium := false)
    ensures r.Ok? ==> forall id :: id in users && users[id].customerId != sub.value.customer ==> r.value[id] == users[id]
  {
    if sub.Err? then Err(sub.error)
    else if sub.value.customer.None? then Err("subscription deleted event missing customer data")
    else if exec.Some? then Err(exec.value)
    else Ok(SetPremiumByCustomer(users, sub.value.customer.value, false))
  }

  /** The event types the webhook acts on. */
  predicate IsSubscriptionUpdate(eventType: string) {
    eventType == "customer.subscription.updated" || eventType == "customer.subscription.created"
    || eventType == "customer.subscription.resumed"
  }

  /** The switch on the event type: the handler's outcome, or the table unchanged for any other type. */
  function HandleEvent(users: Users, event: Event, exec: Option<string>): (r: Result<Users>)
    ensures event.eventType == "checkout.session.completed" ==> r == HandleCheckoutCompleted(users, event.checkout, exec)
    ensures IsSubscriptionUpdate(event.eventType) ==> r == HandleSubscriptionUpdated(users, event.subscription, exec)
    ensures event.eventType == "customer.subscription.deleted" ==> r == HandleSubscriptionDeleted(users, event.subscription, exec)
    ensures (event.eventType != "checkout.session.completed" && !IsSubscriptionUpdate(event.eventType)
             && event.eventType != "customer.subscription.deleted") ==> r == Ok(users)
  {
    if event.eventType == "checkout.session.completed" then HandleCheckoutCompleted(users, event.checkout, exec)
    else if IsSubscriptionUpdate(event.eventType) then HandleSubscriptionUpdated(users, event.subscription, exec)
    else if event.eventType == "customer.subscription.deleted" then HandleSubscriptionDeleted(users, event.subscription, exec)
    else Ok(users)
  }

  // ---------------------------------------------------------------------------
  // The webhook endpoint
  // ---------------------------------------------------------------------------

  /** What a webhook delivery answers and the table after it. */
  datatype Delivery = Delivery(reply: Reply, users: Users)

  /**
   * StripeWebhookHandler. `bodyError` is the error reading the body, `secret` the
   * configured signing secret, `event` the outcome of checking the signature and
   * decoding the event, `connection` the database connection's error and `exec` the
   * UPDATE's error.
   */
  function StripeWebhook(verb: string, bodyError: Option<string>, secret: string, event: Result<Event>,
                         connection: Option<string>, exec: Option<string>, users: Users): (r: Delivery)
    ensures r.reply.status != StatusOK ==> r.users == users
    ensures verb != "POST" ==> r.reply == Failure(StatusMethodNotAllowed, "Method not allowed")
    ensures verb == "POST" && bodyError.Some? ==> r.reply == Failure(StatusBadRequest, "Error reading request body")
    ensures verb == "POST" && bodyError.None? && secret == "" ==>
              r.reply == Failure(StatusInternalServerError, "Webhook not configured")
    ensures verb == "POST" && bodyError.None? && secret != "" && event.Err? ==>
              r.reply == Failure(StatusBadRequest, "Invalid signature")
    ensures r.reply.status == StatusOK <==>
              && verb == "POST" && bodyError.None? && secret != "" && event.Ok? && connection.None?
              && HandleEvent(users, event.value, exec).Ok?
    ensures r.reply.status == StatusOK ==> r.reply == Done(StatusOK) && r.users == HandleEvent(users, event.value, exec).value
  {
    if verb != "POST" then Delivery(Failure(StatusMethodNotAllowed, "Method not allowed"), users)
    else if bodyError.Some? then Delivery(Failure(StatusBadRequest, "Error reading request body"), users)
    else if secret == "" then Delivery(Failure(StatusInternalServerError, "Webhook not configured"), users)
    else if event.Err? then Delivery(Failure(StatusBadRequest, "Invalid signature"), users)
    else if connection.Some? then Delivery(Failure(StatusInternalServerError, "Internal server error"), users)
    else
      match HandleEvent(users, event.value, exec)
      case Err(_) => Delivery(Failure(StatusInternalServerError, "Processing failed"), users)
      case Ok(updated) => Delivery(Done(StatusOK), updated)
  }

  // ---------------------------------------------------------------------------
  // Properties of the webhook
  // ---------------------------------------------------------------------------

  /** An event of a type the switch does not name is acknowledged and changes nothing. */
  lemma UnhandledEventIsAcknowledged(event: Event, exec: Option<string>, users: Users)
    requires event.eventType != "checkout.session.completed" && !IsSubscriptionUpdate(event.eventType)
    requires event.eventType != "customer.subscription.deleted"
    ensures StripeWebhook("POST", None, "whsec", Ok(event), None, exec, users) == Delivery(Done(StatusOK), users)
  {
  }

  /** Applying the same checkout twice leaves the table as applying it once. */
  lemma CheckoutIsIdempotent(users: Users, customer: string, email: string)
    ensures CheckoutCompleted(CheckoutCompleted(users, customer, email), customer, email)
            == CheckoutCompleted(users, customer, email)
  {
  }

  /** Setting the flag twice for one customer: the later write wins. */
  lemma LastSubscriptionWriteWins(users: Users, customer: string, first: bool, second: bool)
    ensures SetPremiumByCustomer(SetPremiumByCustomer(users, customer, first), customer, second)
            == SetPremiumByCustomer(users, customer, second)
  {
  }

  /** Updates for two different customers touch disjoint rows, so their order does not matter. */
  lemma DistinctCustomersCommute(users: Users, c1: string, g1: bool, c2: string, g2: bool)
    requires c1 != c2
    ensures SetPremiumByCustomer(SetPremiumByCustomer(users, c1, g1), c2, g2)
            == SetPremiumByCustomer(SetPremiumByCustomer(users, c2, g2), c1, g1)
  {
  }

  /**
   * Stripe may deliver an event more than once: a second successful delivery of the
   * same event leaves the table as the first one did.
   */
  lemma RedeliveryIsHarmless(event: Event, users: Users)
    requires HandleEvent(users, event, None).Ok?
    ensures HandleEvent(HandleEvent(users, event, None).value, event, None) == HandleEvent(users, event, None)
  {
    if event.eventType == "checkout.session.completed" {
      CheckoutIsIdempotent(users, event.checkout.value.customer.value, event.checkout.value.customerEmail.value);
    } else if IsSubscriptionUpdate(event.eventType) {
      var s := event.subscription.value;
      LastSubscriptionWriteWins(users, s.customer.value, GrantsPremium(s.status), GrantsPremium(s.status));
    } else if event.eventType == "customer.subscription.deleted" {
      LastSubscriptionWriteWins(users, event.subscription.value.customer.value, false, false);
    }
  }

  /** A deletion is the same table change as an update to a status that grants nothing. */
  lemma DeletionIsUpdateToCanceled(users: Users, customer: string, status: string, exec: Option<string>)
    requires !GrantsPremium(status)
    ensures HandleSubscriptionDeleted(users, Ok(Subscription(Some(customer), status)), exec).Ok?
            <==> HandleSubscriptionUpdated(users, Ok(Subscription(Some(customer), status)), exec).Ok?
    ensures exec.None? ==>
              HandleSubscriptionDeleted(users, Ok(Subscription(Some(customer), status)), exec)
              == HandleSubscriptionUpdated(users, Ok(Subscription(Some(customer), status)), exec)
  {
  }

  /**
   * After a checkout for a customer, deleting that customer's subscription revokes premium
   * from every row the checkout upgraded.
   */
  lemma CancellationRevokesCheckout(users: Users, customer: string, email: string)
    ensures var after := SetPremiumByCustomer(CheckoutCompleted(users, customer, email), customer, false);
            forall id :: id in users && users[id].email == email ==> id in after && !after[id].isPremium
  {
  }

  /** Only the states "active" and "trialing" grant premium; the other Stripe states do not. */
  lemma SubscriptionStatuses()
    ensures GrantsPremium("active") && GrantsPremium("trialing")
    ensures !GrantsPremium("past_due") && !GrantsPremium("canceled") && !GrantsPremium("unpaid")
    ensures !GrantsPremium("incomplete") && !GrantsPremium("incomplete_expired") && !GrantsPremium("paused")
  {
  }

  // ---------------------------------------------------------------------------
  // Checkout and portal sessions
  // ---------------------------------------------------------------------------

  /** The base URL: the DOMAIN setting, or the local default when it is empty. */
  function Domain(setting: string): (d: string)
    ensures d != ""
    ensures setting != "" ==> d == setting
    ensures setting == "" ==> d == DefaultDomain
  {
    if setting == "" then DefaultDomain else setting
  }

  /** Whom a checkout session is opened for. */
  datatype CustomerRef = ExistingCustomer(id: string) | NewCustomerEmail(email: string)

  /** A stored customer id is reused when present and non-empty; otherwise Stripe is given the e-mail. */
  function CheckoutCustomer(email: string, storedId: Option<string>): (c: CustomerRef)
    ensures c.ExistingCustomer? <==> storedId.Some? && storedId.value != ""
    ensures c.ExistingCustomer? ==> c.id == storedId.value
    ensures c.NewCustomerEmail? ==> c.email == email
  {
    if storedId.Some? && storedId.value != "" then ExistingCustomer(storedId.value) else NewCustomerEmail(email)
  }

  /** The billing columns of the signed-in user's row. */
  datatype BillingRow = BillingRow(email: string, customerId: Option<string>)

  /** The parameters of a subscription checkout session (one item of the configured price). */
  datatype CheckoutParams = CheckoutParams(customer: CustomerRef, price: string, successUrl: string, cancelUrl: string)

  /** A handler's reply and, when it asked Stripe for a session, what it asked for. */
  datatype Outcome<P> = Outcome(reply: Reply, requested: Option<P>)

  /**
   * CreateCheckoutSessionHandler. `userId` is the signed-in user, `row` the outcome of
   * reading their row, `session` the outcome of creating the session (its URL).
   */
  function CreateCheckoutSession(verb: string, userId: Option<UserId>, connection: Option<string>,
                                 row: Result<BillingRow>, domainSetting: string, price: string,
                                 session: Result<string>): (r: Outcome<CheckoutParams>)
    ensures r.requested.Some? <==>
              verb == "POST" && userId.Some? && connection.None? && row.Ok? && price != ""
    ensures r.requested.Some? ==>
              && r.requested.value.customer == CheckoutCustomer(row.value.email, row.value.customerId)
              && r.requested.value.price == price
              && r.requested.value.successUrl == Domain(domainSetting) + "/dashboard?payment=success"
              && r.requested.value.cancelUrl == Domain(domainSetting) + "/dashboard?payment=cancelled"
    ensures r.reply.Redirect? && r.reply.status == StatusSeeOther <==> r.requested.Some? && session.Ok?
    ensures verb == "POST" && userId.None? ==> r.reply == Redirect(StatusFound, "/login")
    ensures verb == "POST" && userId.Some? && connection.None? && row.Err? ==> r.reply == Failure(StatusNotFound, "User not found")
  {
    if verb != "POST" then Outcome(Failure(StatusMethodNotAllowed, "Method not allowed"), None)
    else if userId.None? then Outcome(Redirect(StatusFound, "/login"), None)
    else if connection.Some? then Outcome(Failure(StatusInternalServerError, "Internal server error"), None)
    else if row.Err? then Outcome(Failure(StatusNotFound, "User not found"), None)
    else if price == "" then Outcome(Failure(StatusInternalServerError, "Payment not configured"), None)
    else
      var base := Domain(domainSetting);
      var params := CheckoutParams(CheckoutCustomer(row.value.email, row.value.customerId), price,
                                   base + "/dashboard?payment=success", base + "/dashboard?payment=cancelled");
      match session
      case Err(_) => Outcome(Failure(StatusInternalServerError, "Failed to create checkout session"), Some(params))
      case Ok(url) => Outcome(Redirect(StatusSeeOther, url), Some(params))
  }

  /** The parameters of a billing-portal session. */
  datatype PortalParams = PortalParams(customer: string, returnUrl: string)

  /**
   * CustomerPortalHandler. `row` is the outcome of reading the user's stored customer id.
   * A user with no customer id, or an empty one, is refused before Stripe is asked.
   */
  function CustomerPortal(verb: string, userId: Option<UserId>, connection: Option<string>,
                          row: Result<Option<string>>, domainSetting: string,
                          session: Result<string>): (r: Outcome<PortalParams>)
    ensures r.requested.Some? <==>
              verb == "POST" && userId.Some? && connection.None? && row.Ok? && row.value.Some? && row.value.value != ""
    ensures r.requested.Some? ==> r.requested.value == PortalParams(row.value.value, Domain(domainSetting) + "/dashboard")
    ensures verb == "POST" && userId.Some? && connection.None? && row.Ok? && (row.value.None? || row.value.value == "") ==>
              r.reply == Failure(StatusBadRequest, "No billing information available")
    ensures r.reply.Redirect? && r.reply.status == StatusSeeOther <==> r.requested.Some? && session.Ok?
  {
    if verb != "POST" then Outcome(Failure(StatusMethodNotAllowed, "Method not allowed"), None)
    else if userId.None? then Outcome(Redirect(StatusFound, "/login"), None)
    else if connection.Some? then Outcome(Failure(StatusInternalServerError, "Internal server error"), None)
    else if row.Err? then Outcome(Failure(StatusNotFound, "User not found"), None)
    else if row.value.None? || row.value.value == "" then
      Outcome(Failure(StatusBadRequest, "No billing information available"), None)
    else
      var params := PortalParams(row.value.value, Domain(domainSetting) + "/dashboard");
      match session
      case Err(_) => Outcome(Failure(StatusInternalServerError, "Failed to create portal session"), Some(params))
      case Ok(url) => Outcome(Redirect(StatusSeeOther, url), Some(params))
  }

  /**
   * A user whom checkout would address by e-mail is refused by the portal: both decide
   * by the same test on the stored customer id.
   */
  lemma PortalNeedsCheckoutCustomer(email: string, storedId: Option<string>, domainSetting: string, session: Result<string>)
    ensures CheckoutCustomer(email, storedId).NewCustomerEmail? <==>
            CustomerPortal("POST", Some("u"), None, Ok(storedId), domainSetting, session).reply
            == Failure(StatusBadRequest, "No billing information available")
  {
  }
}
