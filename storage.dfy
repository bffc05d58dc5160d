/** The in-memory store: eight tables, each a map from id to row, and eight
    counters that hand out the ids. Every operation the request handlers use
    is a method here; a storage call that throws (an update or delete of an
    id that is not stored) returns `None` or `false` instead. */
module Storage {
  import opened Base
  import opened Schema
  import opened Tables

  // The accessors the table queries compare on.
  function UserKey(u: User): int { u.id }
  function UserName(u: User): string { u.username }
  function UserEmail(u: User): string { u.email }
  function BusinessKey(b: Business): int { b.id }
  function BusinessOwner(b: Business): int { b.userId }
  function HoursKey(h: Hours): int { h.id }
  function HoursOwner(h: Hours): int { h.businessId }
  function FaqKey(f: Faq): int { f.id }
  function FaqOwner(f: Faq): int { f.businessId }
  function CallKey(c: Call): int { c.id }
  function CallOwner(c: Call): int { c.businessId }
  function BookingKey(b: Booking): int { b.id }
  function BookingOwner(b: Booking): int { b.businessId }
  function IntegrationKey(i: Integration): int { i.id }
  function IntegrationOwner(i: Integration): int { i.businessId }
  function IntegrationTypeOf(i: Integration): string { i.integrationType }
  function SubscriptionKey(s: Subscription): int { s.id }
  function SubscriptionOwner(s: Subscription): int { s.userId }
  function SubscriptionStripeId(s: Subscription): Option<string> { s.stripeSubscriptionId }

  /** No two integrations of one business share a type. */
  ghost predicate TypesUnique(m: map<int, Integration>) {
    forall a, b ::
      (a in m && b in m && m[a].businessId == m[b].businessId
       && m[a].integrationType == m[b].integrationType) ==> a == b
  }

  class MemStorage {
    var users: map<int, User>
    var businesses: map<int, Business>
    var hoursOfOperation: map<int, Hours>
    var faqs: map<int, Faq>
    var calls: map<int, Call>
    var bookings: map<int, Booking>
    var integrations: map<int, Integration>
    var subscriptions: map<int, Subscription>

    var userId: int
    var businessId: int
    var hoursId: int
    var faqId: int
    var callId: int
    var bookingId: int
    var integrationId: int
    var subscriptionId: int

    /** Every stored row sits under its own id, and every id is below the
        counter that handed it out. */
    ghost predicate Valid()
      reads this
    {
      && userId >= 1 && businessId >= 1 && hoursId >= 1 && faqId >= 1
      && callId >= 1 && bookingId >= 1 && integrationId >= 1 && subscriptionId >= 1
      && (forall k :: k in users ==> 1 <= k < userId && users[k].id == k)
      && (forall k :: k in businesses ==> 1 <= k < businessId && businesses[k].id == k)
      && (forall k :: k in hoursOfOperation ==> 1 <= k < hoursId && hoursOfOperation[k].id == k)
      && (forall k :: k in faqs ==> 1 <= k < faqId && faqs[k].id == k)
      && (forall k :: k in calls ==> 1 <= k < callId && calls[k].id == k)
      && (forall k :: k in bookings ==> 1 <= k < bookingId && bookings[k].id == k)
      && (forall k :: k in integrations ==> 1 <= k < integrationId && integrations[k].id == k)
      && (forall k :: k in subscriptions ==> 1 <= k < subscriptionId && subscriptions[k].id == k)
    }

    /** Every table is keyed by the ids of its rows, in the form the table
        queries take. */
    lemma Keyed()
      requires Valid()
      ensures WellKeyed(users, UserKey, userId) && WellKeyed(businesses, BusinessKey, businessId)
      ensures WellKeyed(hoursOfOperation, HoursKey, hoursId) && WellKeyed(faqs, FaqKey, faqId)
      ensures WellKeyed(calls, CallKey, callId) && WellKeyed(bookings, BookingKey, bookingId)
      ensures WellKeyed(integrations, IntegrationKey, integrationId)
      ensures WellKeyed(subscriptions, SubscriptionKey, subscriptionId)
    {
    }

    /** No two users share a username: registration refuses a taken one. */
    ghost predicate UniqueUsernames()
      reads this`users
    {
      forall a, b :: a in users && b in users && users[a].username == users[b].username ==> a == b
    }

    /** A user owns at most one business: the handlers create one only when
        the user has none. */
    ghost predicate OneBusinessPerUser()
      reads this`businesses
    {
      forall a, b :: a in businesses && b in businesses && businesses[a].userId == businesses[b].userId ==> a == b
    }

    /** A user holds at most one subscription. */
    ghost predicate OneSubscriptionPerUser()
      reads this`subscriptions
    {
      forall a, b :: a in subscriptions && b in subscriptions && subscriptions[a].userId == subscriptions[b].userId ==> a == b
    }

    /** A business has at most one integration of each type. */
    ghost predicate OneIntegrationPerType()
      reads this`integrations
    {
      TypesUnique(integrations)
    }

    /** Every business and every subscription belongs to a stored user. */
    ghost predicate OwnersExist()
      reads this`businesses, this`subscriptions, this`users
    {
      && (forall k :: k in businesses ==> businesses[k].userId in users)
      && (forall k :: k in subscriptions ==> subscriptions[k].userId in users)
    }

    /** The properties of the stored data that the request handlers keep. */
    ghost predicate Consistent()
      reads this
    {
      Valid() && UniqueUsernames() && OneBusinessPerUser() && OneSubscriptionPerUser()
      && OneIntegrationPerType() && OwnersExist()
    }

    constructor ()
      ensures Consistent()
      ensures users == map[] && businesses == map[] && hoursOfOperation == map[] && faqs == map[]
      ensures calls == map[] && bookings == map[] && integrations == map[] && subscriptions == map[]
      ensures userId == 1 && businessId == 1 && hoursId == 1 && faqId == 1
      ensures callId == 1 && bookingId == 1 && integrationId == 1 && subscriptionId == 1
    {
      users, businesses, hoursOfOperation, faqs := map[], map[], map[], map[];
      calls, bookings, integrations, subscriptions := map[], map[], map[], map[];
      userId, businessId, hoursId, faqId := 1, 1, 1, 1;
      callId, bookingId, integrationId, subscriptionId := 1, 1, 1, 1;
    }

    // ------------------------------------------------------------- users

    method GetUser(id: int) returns (r: Option<User>)
      requires Valid()
      ensures r.Some? <==> id in users
      ensures r.Some? ==> r.value == users[id] && r.value.id == id
    {
      r := if id in users then Some(users[id]) else None;
    }

    /** The first user, in insertion order, with the given username. */
    method GetUserByUsername(username: string) returns (r: Option<User>)
      requires Valid()
      ensures r == Find(Rows(users, userId), UserName, username)
      ensures r.Some? ==> r.value.id in users && users[r.value.id] == r.value && r.value.username == username
      ensures r.Some? ==> forall k :: k in users && users[k].username == username ==> r.value.id <= k
      ensures r.None? <==> forall k :: k in users ==> users[k].username != username
    {
      var rows := CollectRows(users, userId);
      r := FindRow(rows, UserName, username);
      Keyed();
      FindSpec(users, UserKey, userId, UserName, username);
    }

    /** The first user, in insertion order, with the given email. */
    method GetUserByEmail(email: string) returns (r: Option<User>)
      requires Valid()
      ensures r == Find(Rows(users, userId), UserEmail, email)
      ensures r.Some? ==> r.value.id in users && users[r.value.id] == r.value && r.value.email == email
      ensures r.Some? ==> forall k :: k in users && users[k].email == email ==> r.value.id <= k
      ensures r.None? <==> forall k :: k in users ==> users[k].email != email
    {
      var rows := CollectRows(users, userId);
      r := FindRow(rows, UserEmail, email);
      Keyed();
      FindSpec(users, UserKey, userId, UserEmail, email);
    }

    /** A new user gets the next id and no reset token. */
    method CreateUser(n: NewUser, now: Timestamp) returns (u: User)
      requires Valid()
      modifies this`users, this`userId
      ensures Valid()
      ensures u == UserRow(n, old(userId), now) && old(userId) !in old(users)
      ensures users == old(users)[u.id := u] && userId == old(userId) + 1
      ensures Rows(users, userId) == old(Rows(users, userId)) + [u]
      ensures old(Consistent()) && (forall k :: k in old(users) ==> old(users)[k].username != n.username)
              ==> Consistent()
    {
      u := UserRow(n, userId, now);
      RowsAppendNew(users, u, userId);
      users := users[userId := u];
      userId := userId + 1;
    }

    method UpdateUserResetToken(id: int, resetToken: string, resetTokenExpiry: Timestamp) returns (r: Option<User>)
      requires Valid()
      modifies this`users
      ensures Valid()
      ensures id !in old(users) ==> r.None? && users == old(users)
      ensures id in old(users) ==>
                r == Some(old(users)[id].(resetToken := Some(resetToken), resetTokenExpiry := Some(resetTokenExpiry)))
                && users == old(users)[id := r.value]
      ensures old(Consistent()) ==> Consistent()
    {
      if id !in users {
        return None;
      }
      var u := users[id].(resetToken := Some(resetToken), resetTokenExpiry := Some(resetTokenExpiry));
      users := users[id := u];
      r := Some(u);
    }

    /** Setting a password also clears any reset token. */
    method UpdateUserPassword(id: int, password: string) returns (r: Option<User>)
      requires Valid()
      modifies this`users
      ensures Valid()
      ensures id !in old(users) ==> r.None? && users == old(users)
      ensures id in old(users) ==>
                r == Some(old(users)[id].(password := password, resetToken := None, resetTokenExpiry := None))
                && users == old(users)[id := r.value]
      ensures old(Consistent()) ==> Consistent()
    {
      if id !in users {
        return None;
      }
      var u := users[id].(password := password, resetToken := None, resetTokenExpiry := None);
      users := users[id := u];
      r := Some(u);
    }

    method UpdateUser(id: int, patch: UserPatch) returns (r: Option<User>)
      requires Valid()
      modifies this`users
      ensures Valid()
      ensures id !in old(users) ==> r.None? && users == old(users)
      ensures id in old(users) ==> r == Some(MergeUser(old(users)[id], patch)) && users == old(users)[id := r.value]
      ensures old(Consistent()) ==> Consistent()
    {
      if id !in users {
        return None;
      }
      var u := MergeUser(users[id], patch);
      users := users[id := u];
      r := Some(u);
    }

    /** Every user, in insertion order, one entry per stored user. */
    method GetAllUsers() returns (rs: seq<User>)
      requires Valid()
      ensures rs == Rows(users, userId)
      ensures |rs| == |users|
      ensures forall u :: u in rs <==> u.id in users && users[u.id] == u
      ensures Ascending(rs, UserKey)
    {
      rs := CollectRows(users, userId);
      Keyed();
      RowsCount(users, UserKey, userId);
      RowsAscending(users, UserKey, userId);
      forall u ensures u in rs <==> u.id in users && users[u.id] == u {
        RowsOfWellKeyed(users, UserKey, userId, u);
      }
    }

    // -------------------------------------------------------- businesses

    /** The first business, in insertion order, that the user owns. */
    method GetBusinessByUserId(owner: int) returns (r: Option<Business>)
      requires Valid()
      ensures r == Find(Rows(businesses, businessId), BusinessOwner, owner)
      ensures r.Some? ==> r.value.id in businesses && businesses[r.value.id] == r.value && r.value.userId == owner
      ensures r.Some? ==> forall k :: k in businesses && businesses[k].userId == owner ==> r.value.id <= k
      ensures r.None? <==> forall k :: k in businesses ==> businesses[k].userId != owner
    {
      var rows := CollectRows(businesses, businessId);
      r := FindRow(rows, BusinessOwner, owner);
      Keyed();
      FindSpec(businesses, BusinessKey, businessId, BusinessOwner, owner);
    }

    /** A new business gets the next id; a missing type becomes `other`. */
    method CreateBusiness(n: NewBusiness, now: Timestamp) returns (b: Business)
      requires Valid()
      modifies this`businesses, this`businessId
      ensures Valid()
      ensures b == BusinessRow(n, old(businessId), now) && old(businessId) !in old(businesses)
      ensures businesses == old(businesses)[b.id := b] && businessId == old(businessId) + 1
      ensures old(Consistent()) && n.userId in users && (forall k :: k in old(businesses) ==> old(businesses)[k].userId != n.userId)
              ==> Consistent()
    {
      b := BusinessRow(n, businessId, now);
      businesses := businesses[businessId := b];
      businessId := businessId + 1;
    }

    method UpdateBusiness(id: int, patch: BusinessPatch, now: Timestamp) returns (r: Option<Business>)
      requires Valid()
      modifies this`businesses
      ensures Valid()
      ensures id !in old(businesses) ==> r.None? && businesses == old(businesses)
      ensures id in old(businesses) ==>
                r == Some(MergeBusiness(old(businesses)[id], patch, now)) && businesses == old(businesses)[id := r.value]
      ensures old(Consistent()) ==> Consistent()
    {
      if id !in businesses {
        return None;
      }
      var b := MergeBusiness(businesses[id], patch, now);
      businesses := businesses[id := b];
      r := Some(b);
    }

    // -------------------------------------------------------------- hours

    /** The business's opening-hours rows, in insertion order. */
    method GetHoursByBusinessId(owner: int) returns (rs: seq<Hours>)
      requires Valid()
      ensures rs == Filter(Rows(hoursOfOperation, hoursId), HoursOwner, owner)
      ensures forall h :: h in rs <==> h.id in hoursOfOperation && hoursOfOperation[h.id] == h && h.businessId == owner
      ensures Ascending(rs, HoursKey)
    {
      var rows := CollectRows(hoursOfOperation, hoursId);
      rs := FilterRows(rows, HoursOwner, owner);
      Keyed();
      SelectSpec(hoursOfOperation, HoursKey, hoursId, HoursOwner, owner);
    }

    method CreateHours(n: NewHours) returns (h: Hours)
      requires Valid()
      modifies this`hoursOfOperation, this`hoursId
      ensures Valid()
      ensures h == HoursRow(n, old(hoursId)) && old(hoursId) !in old(hoursOfOperation)
      ensures hoursOfOperation == old(hoursOfOperation)[h.id := h] && hoursId == old(hoursId) + 1
      ensures Rows(hoursOfOperation, hoursId) == old(Rows(hoursOfOperation, hoursId)) + [h]
    {
      h := HoursRow(n, hoursId);
      RowsAppendNew(hoursOfOperation, h, hoursId);
      hoursOfOperation := hoursOfOperation[hoursId := h];
      hoursId := hoursId + 1;
    }

    method UpdateHours(id: int, patch: HoursPatch) returns (r: Option<Hours>)
      requires Valid()
      modifies this`hoursOfOperation
      ensures Valid()
      ensures id !in old(hoursOfOperation) ==> r.None? && hoursOfOperation == old(hoursOfOperation)
      ensures id in old(hoursOfOperation) ==>
                r == Some(MergeHours(old(hoursOfOperation)[id], patch))
                && hoursOfOperation == old(hoursOfOperation)[id := r.value]
    {
      if id !in hoursOfOperation {
        return None;
      }
      var h := MergeHours(hoursOfOperation[id], patch);
      hoursOfOperation := hoursOfOperation[id := h];
      r := Some(h);
    }

    /** Deletes every opening-hours row of the business and no other row. */
    method DeleteHoursByBusinessId(owner: int)
      requires Valid()
      modifies this`hoursOfOperation
      ensures Valid()
      ensures hoursOfOperation == Without(old(hoursOfOperation), HoursOwner, owner)
      ensures Filter(Rows(hoursOfOperation, hoursId), HoursOwner, owner) == []
    {
      hoursOfOperation := DeleteMatching(hoursOfOperation, HoursOwner, owner, hoursId);
      WithoutLeavesNoMatch(old(hoursOfOperation), HoursOwner, owner, hoursId);
    }

    // --------------------------------------------------------------- faqs

    /** The business's FAQs, in insertion order. */
    method GetFaqsByBusinessId(owner: int) returns (rs: seq<Faq>)
      requires Valid()
      ensures rs == Filter(Rows(faqs, faqId), FaqOwner, owner)
      ensures forall f :: f in rs <==> f.id in faqs && faqs[f.id] == f && f.businessId == owner
      ensures Ascending(rs, FaqKey)
    {
      var rows := CollectRows(faqs, faqId);
      rs := FilterRows(rows, FaqOwner, owner);
      Keyed();
      SelectSpec(faqs, FaqKey, faqId, FaqOwner, owner);
    }

    method CreateFaq(n: NewFaq) returns (f: Faq)
      requires Valid()
      modifies this`faqs, this`faqId
      ensures Valid()
      ensures f == FaqRow(n, old(faqId)) && old(faqId) !in old(faqs)
      ensures faqs == old(faqs)[f.id := f] && faqId == old(faqId) + 1
      ensures Rows(faqs, faqId) == old(Rows(faqs, faqId)) + [f]
    {
      f := FaqRow(n, faqId);
      RowsAppendNew(faqs, f, faqId);
      faqs := faqs[faqId := f];
      faqId := faqId + 1;
    }

    method UpdateFaq(id: int, patch: FaqPatch) returns (r: Option<Faq>)
      requires Valid()
      modifies this`faqs
      ensures Valid()
      ensures id !in old(faqs) ==> r.None? && faqs == old(faqs)
      ensures id in old(faqs) ==> r == Some(MergeFaq(old(faqs)[id], patch)) && faqs == old(faqs)[id := r.value]
    {
      if id !in faqs {
        return None;
      }
      var f := MergeFaq(faqs[id], patch);
      faqs := faqs[id := f];
      r := Some(f);
    }

    /** Deletes every FAQ of the business and no other row. */
    method DeleteFaqsByBusinessId(owner: int)
      requires Valid()
      modifies this`faqs
      ensures Valid()
      ensures faqs == Without(old(faqs), FaqOwner, owner)
      ensures Filter(Rows(faqs, faqId), FaqOwner, owner) == []
    {
      faqs := DeleteMatching(faqs, FaqOwner, owner, faqId);
      WithoutLeavesNoMatch(old(faqs), FaqOwner, owner, faqId);
    }

    // -------------------------------------------------------------- calls

    /** The business's calls, in insertion order. */
    method GetCallsByBusinessId(owner: int) returns (rs: seq<Call>)
      requires Valid()
      ensures rs == Filter(Rows(calls, callId), CallOwner, owner)
      ensures forall c :: c in rs <==> c.id in calls && calls[c.id] == c && c.businessId == owner
      ensures Ascending(rs, CallKey)
    {
      var rows := CollectRows(calls, callId);
      rs := FilterRows(rows, CallOwner, owner);
      Keyed();
      SelectSpec(calls, CallKey, callId, CallOwner, owner);
    }

    method GetCallById(id: int) returns (r: Option<Call>)
      requires Valid()
      ensures r.Some? <==> id in calls
      ensures r.Some? ==> r.value == calls[id] && r.value.id == id
    {
      r := if id in calls then Some(calls[id]) else None;
    }

    /** A new call has no end time and a duration of `0:00`. */
    method CreateCall(n: NewCall, now: Timestamp) returns (c: Call)
      requires Valid()
      modifies this`calls, this`callId
      ensures Valid()
      ensures c == CallRow(n, old(callId), now) && old(callId) !in old(calls)
      ensures calls == old(calls)[c.id := c] && callId == old(callId) + 1
    {
      c := CallRow(n, callId, now);
      calls := calls[callId := c];
      callId := callId + 1;
    }

    method UpdateCall(id: int, patch: CallPatch) returns (r: Option<Call>)
      requires Valid()
      modifies this`calls
      ensures Valid()
      ensures id !in old(calls) ==> r.None? && calls == old(calls)
      ensures id in old(calls) ==> r == Some(MergeCall(old(calls)[id], patch)) && calls == old(calls)[id := r.value]
    {
      if id !in calls {
        return None;
      }
      var c := MergeCall(calls[id], patch);
      calls := calls[id := c];
      r := Some(c);
    }

    // ----------------------------------------------------------- bookings

    /** The business's bookings, in insertion order. */
    method GetBookingsByBusinessId(owner: int) returns (rs: seq<Booking>)
      requires Valid()
      ensures rs == Filter(Rows(bookings, bookingId), BookingOwner, owner)
      ensures forall b :: b in rs <==> b.id in bookings && bookings[b.id] == b && b.businessId == owner
      ensures Ascending(rs, BookingKey)
    {
      var rows := CollectRows(bookings, bookingId);
      rs := FilterRows(rows, BookingOwner, owner);
      Keyed();
      SelectSpec(bookings, BookingKey, bookingId, BookingOwner, owner);
    }

    method GetBookingById(id: int) returns (r: Option<Booking>)
      requires Valid()
      ensures r.Some? <==> id in bookings
      ensures r.Some? ==> r.value == bookings[id] && r.value.id == id
    {
      r := if id in bookings then Some(bookings[id]) else None;
    }

    method CreateBooking(n: NewBooking, now: Timestamp) returns (b: Booking)
      requires Valid()
      modifies this`bookings, this`bookingId
      ensures Valid()
      ensures b == BookingRow(n, old(bookingId), now) && old(bookingId) !in old(bookings)
      ensures bookings == old(bookings)[b.id := b] && bookingId == old(bookingId) + 1
    {
      b := BookingRow(n, bookingId, now);
      bookings := bookings[bookingId := b];
      bookingId := bookingId + 1;
    }

    method UpdateBooking(id: int, patch: BookingPatch) returns (r: Option<Booking>)
      requires Valid()
      modifies this`bookings
      ensures Valid()
      ensures id !in old(bookings) ==> r.None? && bookings == old(bookings)
      ensures id in old(bookings) ==>
                r == Some(MergeBooking(old(bookings)[id], patch)) && bookings == old(bookings)[id := r.value]
    {
      if id !in bookings {
        return None;
      }
      var b := MergeBooking(bookings[id], patch);
      bookings := bookings[id := b];
      r := Some(b);
    }

    /** Removes one booking; `false` where the store throws because the id is
        not stored. */
    method DeleteBooking(id: int) returns (found: bool)
      requires Valid()
      modifies this`bookings
      ensures Valid()
      ensures found <==> id in old(bookings)
      ensures bookings == old(bookings) - {id}
    {
      found := id in bookings;
      if found {
        bookings := bookings - {id};
      }
    }

    // ------------------------------------------------------- integrations

    /** The business's integrations, in insertion order. */
    method GetIntegrationsByBusinessId(owner: int) returns (rs: seq<Integration>)
      requires Valid()
      ensures rs == Filter(Rows(integrations, integrationId), IntegrationOwner, owner)
      ensures forall i :: i in rs <==> i.id in integrations && integrations[i.id] == i && i.businessId == owner
      ensures Ascending(rs, IntegrationKey)
    {
      var rows := CollectRows(integrations, integrationId);
      rs := FilterRows(rows, IntegrationOwner, owner);
      Keyed();
      SelectSpec(integrations, IntegrationKey, integrationId, IntegrationOwner, owner);
    }

    method GetIntegrationById(id: int) returns (r: Option<Integration>)
      requires Valid()
      ensures r.Some? <==> id in integrations
      ensures r.Some? ==> r.value == integrations[id] && r.value.id == id
    {
      r := if id in integrations then Some(integrations[id]) else None;
    }

    method CreateIntegration(n: NewIntegration, now: Timestamp) returns (i: Integration)
      requires Valid()
      modifies this`integrations, this`integrationId
      ensures Valid()
      ensures i == IntegrationRow(n, old(integrationId), now) && old(integrationId) !in old(integrations)
      ensures integrations == old(integrations)[i.id := i] && integrationId == old(integrationId) + 1
    {
      i := IntegrationRow(n, integrationId, now);
      integrations := integrations[integrationId := i];
      integrationId := integrationId + 1;
    }

    method UpdateIntegration(id: int, patch: IntegrationPatch, now: Timestamp) returns (r: Option<Integration>)
      requires Valid()
      modifies this`integrations
      ensures Valid()
      ensures id !in old(integrations) ==> r.None? && integrations == old(integrations)
      ensures id in old(integrations) ==>
                r == Some(MergeIntegration(old(integrations)[id], patch, now))
                && integrations == old(integrations)[id := r.value]
    {
      if id !in integrations {
        return None;
      }
      var i := MergeIntegration(integrations[id], patch, now);
      integrations := integrations[id := i];
      r := Some(i);
    }

    method DeleteIntegration(id: int) returns (found: bool)
      requires Valid()
      modifies this`integrations
      ensures Valid()
      ensures found <==> id in old(integrations)
      ensures integrations == old(integrations) - {id}
    {
      found := id in integrations;
      if found {
        integrations := integrations - {id};
      }
    }

    // ------------------------------------------------------ subscriptions

    /** The first subscription, in insertion order, that the user owns. */
    method GetSubscriptionByUserId(owner: int) returns (r: Option<Subscription>)
      requires Valid()
      ensures r == Find(Rows(subscriptions, subscriptionId), SubscriptionOwner, owner)
      ensures r.Some? ==> r.value.id in subscriptions && subscriptions[r.value.id] == r.value && r.value.userId == owner
      ensures r.Some? ==> forall k :: k in subscriptions && subscriptions[k].userId == owner ==> r.value.id <= k
      ensures r.None? <==> forall k :: k in subscriptions ==> subscriptions[k].userId != owner
    {
      var rows := CollectRows(subscriptions, subscriptionId);
      r := FindRow(rows, SubscriptionOwner, owner);
      Keyed();
      FindSpec(subscriptions, SubscriptionKey, subscriptionId, SubscriptionOwner, owner);
    }

    /** The first subscription, in insertion order, with the given Stripe
        subscription id. */
    method GetSubscriptionByStripeId(stripeId: string) returns (r: Option<Subscription>)
      requires Valid()
      ensures r == Find(Rows(subscriptions, subscriptionId), SubscriptionStripeId, Some(stripeId))
      ensures r.Some? ==> r.value.id in subscriptions && subscriptions[r.value.id] == r.value
                          && r.value.stripeSubscriptionId == Some(stripeId)
      ensures r.None? <==> forall k :: k in subscriptions ==> subscriptions[k].stripeSubscriptionId != Some(stripeId)
    {
      var rows := CollectRows(subscriptions, subscriptionId);
      r := FindRow(rows, SubscriptionStripeId, Some(stripeId));
      Keyed();
      FindSpec(subscriptions, SubscriptionKey, subscriptionId, SubscriptionStripeId, Some(stripeId));
    }

    method CreateSubscription(n: NewSubscription, now: Timestamp) returns (s: Subscription)
      requires Valid()
      modifies this`subscriptions, this`subscriptionId
      ensures Valid()
      ensures s == SubscriptionRow(n, old(subscriptionId), now) && old(subscriptionId) !in old(subscriptions)
      ensures subscriptions == old(subscriptions)[s.id := s] && subscriptionId == old(subscriptionId) + 1
      ensures old(Consistent()) && n.userId in users
              && (forall k :: k in old(subscriptions) ==> old(subscriptions)[k].userId != n.userId)
              ==> Consistent()
    {
      s := SubscriptionRow(n, subscriptionId, now);
      subscriptions := subscriptions[subscriptionId := s];
      subscriptionId := subscriptionId + 1;
    }

    method UpdateSubscription(id: int, patch: SubscriptionPatch, now: Timestamp) returns (r: Option<Subscription>)
      requires Valid()
      modifies this`subscriptions
      ensures Valid()
      ensures id !in old(subscriptions) ==> r.None? && subscriptions == old(subscriptions)
      ensures id in old(subscriptions) ==>
                r == Some(MergeSubscription(old(subscriptions)[id], patch, now))
                && subscriptions == old(subscriptions)[id := r.value]
      ensures old(Consistent()) && patch.userId.None? ==> Consistent()
    {
      if id !in subscriptions {
        return None;
      }
      var s := MergeSubscription(subscriptions[id], patch, now);
      subscriptions := subscriptions[id := s];
      r := Some(s);
    }
  }
}
