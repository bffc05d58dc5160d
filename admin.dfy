/** The administrator handlers: the user listing, one user's details, the
    role change and the dashboard statistics. Only administrators reach
    them; the role check in front of them is not part of this module. */
module AdminController {
  import opened Base
  import opened Schema
  import opened Tables
  import opened Storage
  import opened UserViews

  const INVALID_USER_ID := "Invalid user ID"
  const USER_NOT_FOUND := "User not found"

  /** The user's business, as `getBusinessByUserId` finds it. */
  function BusinessLookup(m: map<int, Business>, next: int): int -> Option<Business> {
    uid => Find(Rows(m, next), BusinessOwner, uid)
  }

  /** The user's subscription, as `getSubscriptionByUserId` finds it. */
  function SubscriptionLookup(m: map<int, Subscription>, next: int): int -> Option<Subscription> {
    uid => Find(Rows(m, next), SubscriptionOwner, uid)
  }

  // ------------------------------------------------------------- listing

  /** One entry of the listing: the user without the password, with their
      business and subscription attached. */
  datatype UserEntry = UserEntry(user: UserView, business: Option<Business>, subscription: Option<Subscription>)

  ghost function Entry(st: MemStorage, u: User): (e: UserEntry)
    reads st`businesses, st`businessId, st`subscriptions, st`subscriptionId
    ensures e.user == Strip(u, false, false)
    ensures e.business.Some? ==> e.business.value.userId == u.id
    ensures e.subscription.Some? ==> e.subscription.value.userId == u.id
  {
    UserEntry(Strip(u, false, false), BusinessLookup(st.businesses, st.businessId)(u.id),
              SubscriptionLookup(st.subscriptions, st.subscriptionId)(u.id))
  }

  /** Lists every user, in insertion order, one entry per stored user. */
  method GetAllUsers(st: MemStorage) returns (reply: Reply<seq<UserEntry>>)
    requires st.Valid()
    ensures reply.status == Ok && reply.payload.Body?
    ensures |reply.payload.value| == |Rows(st.users, st.userId)| == |st.users|
    ensures forall i :: 0 <= i < |reply.payload.value| ==>
              reply.payload.value[i] == Entry(st, Rows(st.users, st.userId)[i])
    ensures forall e :: e in reply.payload.value ==>
              e.user.id in st.users && e.user == Strip(st.users[e.user.id], false, false)
    ensures forall k :: k in st.users ==> Entry(st, st.users[k]) in reply.payload.value
  {
    var users := st.GetAllUsers();
    var entries := ListEntries(st, users);
    forall e | e in entries ensures e.user.id in st.users && e.user == Strip(st.users[e.user.id], false, false) {
      var j :| 0 <= j < |entries| && entries[j] == e;
      assert users[j] in users;
    }
    forall k | k in st.users ensures Entry(st, st.users[k]) in entries {
      assert st.users[k] in users;
      var j :| 0 <= j < |users| && users[j] == st.users[k];
      assert entries[j] == Entry(st, st.users[k]);
    }
    reply := Reply(Ok, Body(entries));
  }

  /** The fan-out over the users, one entry per user, in order. */
  method ListEntries(st: MemStorage, users: seq<User>) returns (entries: seq<UserEntry>)
    requires st.Valid()
    ensures |entries| == |users|
    ensures forall j :: 0 <= j < |users| ==> entries[j] == Entry(st, users[j])
  {
    entries := [];
    var i := 0;
    while i < |users|
      invariant 0 <= i <= |users|
      invariant |entries| == i
      invariant forall j :: 0 <= j < i ==> entries[j] == Entry(st, users[j])
    {
      var business := st.GetBusinessByUserId(users[i].id);
      var subscription := st.GetSubscriptionByUserId(users[i].id);
      entries := entries + [UserEntry(Strip(users[i], false, false), business, subscription)];
      i := i + 1;
    }
  }

  // ------------------------------------------------------------- details

  /** The rows of the user's business. */
  datatype BusinessData = BusinessData(hours: seq<Hours>, faqs: seq<Faq>, calls: seq<Call>, bookings: seq<Booking>)

  /** A user's details: the user without the password and the reset token
      (the token's expiry stays), the business and subscription, and the
      business's rows when there is a business. */
  datatype UserDetails = UserDetails(
    user: UserView, business: Option<Business>, subscription: Option<Subscription>, data: Option<BusinessData>)

  /** Every row listed belongs to the business. */
  predicate DataOf(d: BusinessData, businessId: int) {
    && (forall h :: h in d.hours ==> h.businessId == businessId)
    && (forall f :: f in d.faqs ==> f.businessId == businessId)
    && (forall c :: c in d.calls ==> c.businessId == businessId)
    && (forall b :: b in d.bookings ==> b.businessId == businessId)
  }

  /** Answers with one user's details; a path id that is not a number is
      400 and an unknown one 404. */
  method GetUserDetails(st: MemStorage, pathId: Option<int>) returns (reply: Reply<UserDetails>)
    requires st.Valid()
    ensures pathId.None? ==> reply == Fail(BadRequest, INVALID_USER_ID)
    ensures pathId.Some? && pathId.value !in st.users ==> reply == Fail(NotFound, USER_NOT_FOUND)
    ensures reply.status == Ok <==> pathId.Some? && pathId.value in st.users
    ensures reply.status == Ok ==> reply.payload.Body?
    ensures reply.status == Ok ==>
              var id := pathId.value;
              var d := reply.payload.value;
              && d.user == Strip(st.users[id], true, false)
              && d.business == BusinessLookup(st.businesses, st.businessId)(id)
              && d.subscription == SubscriptionLookup(st.subscriptions, st.subscriptionId)(id)
              && (d.data.Some? <==> d.business.Some?)
    ensures reply.status == Ok && reply.payload.value.data.Some? ==>
              var d := reply.payload.value;
              var bid := d.business.value.id;
              && d.business.value.userId == pathId.value
              && d.data.value.hours == Filter(Rows(st.hoursOfOperation, st.hoursId), HoursOwner, bid)
              && d.data.value.faqs == Filter(Rows(st.faqs, st.faqId), FaqOwner, bid)
              && d.data.value.calls == Filter(Rows(st.calls, st.callId), CallOwner, bid)
              && d.data.value.bookings == Filter(Rows(st.bookings, st.bookingId), BookingOwner, bid)
              && DataOf(d.data.value, bid)
  {
    if pathId.None? {
      return Fail(BadRequest, INVALID_USER_ID);
    }
    var user := st.GetUser(pathId.value);
    if user.None? {
      return Fail(NotFound, USER_NOT_FOUND);
    }
    var business := st.GetBusinessByUserId(pathId.value);
    var subscription := st.GetSubscriptionByUserId(pathId.value);
    var data: Option<BusinessData> := None;
    if business.Some? {
      var hours := st.GetHoursByBusinessId(business.value.id);
      var faqs := st.GetFaqsByBusinessId(business.value.id);
      var calls := st.GetCallsByBusinessId(business.value.id);
      var bookings := st.GetBookingsByBusinessId(business.value.id);
      data := Some(BusinessData(hours, faqs, calls, bookings));
    }
    reply := Reply(Ok, Body(UserDetails(Strip(user.value, true, false), business, subscription, data)));
  }

  // --------------------------------------------------------- role change

  /** Sets a user's role to `admin` or `user`. The update of an unknown id
      throws inside the store, which the handler answers with 500. */
  method UpdateUserRole(st: MemStorage, pathId: Option<int>, body: Option<string>) returns (reply: Reply<UserView>)
    requires st.Consistent()
    modifies st`users
    ensures st.Consistent()
    ensures pathId.None? ==> reply == Fail(BadRequest, INVALID_USER_ID)
    ensures pathId.Some? && (body.None? || ParseRole(body.value).None?) ==> reply == Fail(BadRequest, VALIDATION_ERROR)
    ensures pathId.Some? && body.Some? && ParseRole(body.value).Some? && pathId.value !in old(st.users) ==>
              reply == Fail(ServerError, INTERNAL_ERROR)
    ensures reply.status == Ok <==>
              pathId.Some? && body.Some? && ParseRole(body.value).Some? && pathId.value in old(st.users)
    ensures reply.status != Ok ==> st.users == old(st.users)
    ensures reply.status == Ok ==>
              var u := old(st.users)[pathId.value].(role := ParseRole(body.value).value);
              && RoleName(u.role) == body.value
              && st.users == old(st.users)[pathId.value := u]
              && reply == Reply(Ok, Body(Strip(u, false, false)))
  {
    if pathId.None? {
      return Fail(BadRequest, INVALID_USER_ID);
    }
    if body.None? || ParseRole(body.value).None? {
      return Fail(BadRequest, VALIDATION_ERROR);
    }
    var role := ParseRole(body.value).value;
    var updated := st.UpdateUser(pathId.value, UserPatch(None, Some(role), None, None, None));
    if updated.None? {
      return Fail(ServerError, INTERNAL_ERROR);
    }
    reply := Reply(Ok, Body(Strip(updated.value, false, false)));
  }

  // ---------------------------------------------------------- statistics

  /** The values the lookups found, in the order of the users. */
  function Collect<T>(us: seq<User>, look: int -> Option<T>): (r: seq<T>)
    ensures |r| <= |us|
    decreases |us|
  {
    if us == [] then []
    else
      var found := look(us[|us| - 1].id);
      Collect(us[..|us| - 1], look) + (if found.Some? then [found.value] else [])
  }

  function PlanOf(s: Subscription): Plan { s.plan }
  function TypeOf(b: Business): Option<BusinessType> { b.businessType }

  /** Subscriptions per plan. */
  datatype PlanCounts = PlanCounts(free: nat, basic: nat, premium: nat, enterprise: nat)

  function PlanTally(ss: seq<Subscription>): PlanCounts {
    PlanCounts(|Filter(ss, PlanOf, Free)|, |Filter(ss, PlanOf, Basic)|,
               |Filter(ss, PlanOf, Premium)|, |Filter(ss, PlanOf, Enterprise)|)
  }

  /** Every subscription has one of the four plans, so the per-plan counts
      add up to the number of subscriptions. */
  lemma {:induction false} PlanTallySum(ss: seq<Subscription>)
    ensures var c := PlanTally(ss); c.free + c.basic + c.premium + c.enterprise == |ss|
    decreases |ss|
  {
    if ss != [] {
      var init := ss[..|ss| - 1];
      var last := [ss[|ss| - 1]];
      PlanTallySum(init);
      assert Filter(ss, PlanOf, Free) == Filter(init, PlanOf, Free) + (if PlanOf(last[0]) == Free then last else []);
      assert Filter(ss, PlanOf, Basic) == Filter(init, PlanOf, Basic) + (if PlanOf(last[0]) == Basic then last else []);
      assert Filter(ss, PlanOf, Premium) == Filter(init, PlanOf, Premium) + (if PlanOf(last[0]) == Premium then last else []);
      assert Filter(ss, PlanOf, Enterprise) == Filter(init, PlanOf, Enterprise)
                                               + (if PlanOf(last[0]) == Enterprise then last else []);
    }
  }

  /** The businesses of type `t`. */
  function TypeCount(bs: seq<Business>, t: BusinessType): nat {
    |Filter(bs, TypeOf, Some(t))|
  }

  /** `m` holds, under each type's name, the number of businesses of that
      type, and holds nothing for a type no business has. */
  ghost predicate CountsByType(bs: seq<Business>, m: map<string, nat>) {
    && (forall k :: k in m ==> ParseBusinessType(k).Some?)
    && (forall t: BusinessType :: BusinessTypeName(t) in m <==> TypeCount(bs, t) > 0)
    && (forall t: BusinessType :: BusinessTypeName(t) in m ==> m[BusinessTypeName(t)] == TypeCount(bs, t))
  }

  /** The counts of a list of types, read from the map. */
  function SumByName(ts: seq<BusinessType>, m: map<string, nat>): nat
    decreases |ts|
  {
    if ts == [] then 0
    else SumByName(ts[..|ts| - 1], m) + (var k := BusinessTypeName(ts[|ts| - 1]); if k in m then m[k] else 0)
  }

  function SumCounts(ts: seq<BusinessType>, bs: seq<Business>): nat
    decreases |ts|
  {
    if ts == [] then 0 else SumCounts(ts[..|ts| - 1], bs) + TypeCount(bs, ts[|ts| - 1])
  }

  lemma {:induction false} SumByNameIsSumCounts(ts: seq<BusinessType>, bs: seq<Business>, m: map<string, nat>)
    requires CountsByType(bs, m)
    ensures SumByName(ts, m) == SumCounts(ts, bs)
    decreases |ts|
  {
    if ts != [] {
      SumByNameIsSumCounts(ts[..|ts| - 1], bs, m);
    }
  }

  /** Adding one business adds one to the sum over distinct types exactly
      when its type is among them. */
  lemma {:induction false} SumCountsStep(ts: seq<BusinessType>, bs: seq<Business>, b: Business)
    requires forall i, j :: 0 <= i < j < |ts| ==> ts[i] != ts[j]
    ensures SumCounts(ts, bs + [b]) == SumCounts(ts, bs) + (if b.businessType.Some? && b.businessType.value in ts then 1 else 0)
    decreases |ts|
  {
    assert (bs + [b])[..|bs|] == bs;
    if ts != [] {
      var init := ts[..|ts| - 1];
      SumCountsStep(init, bs, b);
      assert b.businessType.Some? && b.businessType.value in ts <==>
             (b.businessType.Some? && b.businessType.value in init) || b.businessType == Some(ts[|ts| - 1]);
    }
  }

  /** Every business with a type is counted once under it: the counts over
      all types add up to the number of businesses that have a type. */
  lemma {:induction false} TypeCountsSum(bs: seq<Business>)
    ensures SumCounts(BUSINESS_TYPES, bs) + |Filter(bs, TypeOf, None)| == |bs|
    decreases |bs|
  {
    if bs == [] {
      assert SumCounts(BUSINESS_TYPES[..0], bs) == 0;
      var k := 1;
      while k <= |BUSINESS_TYPES|
        invariant 1 <= k <= |BUSINESS_TYPES| + 1
        invariant SumCounts(BUSINESS_TYPES[..k - 1], bs) == 0
      {
        assert BUSINESS_TYPES[..k][..k - 1] == BUSINESS_TYPES[..k - 1];
        k := k + 1;
      }
      assert BUSINESS_TYPES[..|BUSINESS_TYPES|] == BUSINESS_TYPES;
    } else {
      var init := bs[..|bs| - 1];
      var b := bs[|bs| - 1];
      assert bs == init + [b];
      TypeCountsSum(init);
      BusinessTypesListed(OtherBusiness);
      SumCountsStep(BUSINESS_TYPES, init, b);
      if b.businessType.Some? {
        BusinessTypesListed(b.businessType.value);
      }
    }
  }

  /** Users whose account was created at or after `since`. */
  function CreatedSince(since: Timestamp): User -> bool {
    (u: User) => u.createdAt >= since
  }

  datatype AdminStats = AdminStats(
    totalUsers: nat, totalBusinesses: nat, totalSubscriptions: nat,
    subscriptionsByPlan: PlanCounts, businessesByType: map<string, nat>, recentSignups: nat)

  /** The dashboard figures. A business and a subscription are looked up per
      user, so neither total exceeds the number of users; the plan counts add
      up to the subscriptions and the type counts to the businesses that have
      a type. `since` is the moment 30 days before the request. */
  method GetAdminDashboardStats(st: MemStorage, since: Timestamp) returns (reply: Reply<AdminStats>)
    requires st.Valid()
    ensures reply.status == Ok && reply.payload.Body?
    ensures var s := reply.payload.value;
            var us := Rows(st.users, st.userId);
            var bs := Collect(us, BusinessLookup(st.businesses, st.businessId));
            var ss := Collect(us, SubscriptionLookup(st.subscriptions, st.subscriptionId));
            && s.totalUsers == |st.users| && s.totalBusinesses == |bs| && s.totalSubscriptions == |ss|
            && s.subscriptionsByPlan == PlanTally(ss)
            && CountsByType(bs, s.businessesByType)
            && s.recentSignups == |Filter(us, CreatedSince(since), true)|
    ensures var s := reply.payload.value;
            && s.totalBusinesses <= s.totalUsers && s.totalSubscriptions <= s.totalUsers
            && s.subscriptionsByPlan.free + s.subscriptionsByPlan.basic + s.subscriptionsByPlan.premium
               + s.subscriptionsByPlan.enterprise == s.totalSubscriptions
            && SumByName(BUSINESS_TYPES, s.businessesByType) <= s.totalBusinesses
            && s.recentSignups <= s.totalUsers
  {
    var users := st.GetAllUsers();
    var businesses := CollectBusinesses(st, users);
    var subscriptions := CollectSubscriptions(st, users);
    var byPlan := CountPlans(subscriptions);
    var byType := CountTypes(businesses);
    var recent := FilterRows(users, CreatedSince(since), true);
    FilterAllMatch(users, CreatedSince(since), true);
    PlanTallySum(subscriptions);
    SumByNameIsSumCounts(BUSINESS_TYPES, businesses, byType);
    TypeCountsSum(businesses);
    reply := Reply(Ok, Body(AdminStats(|users|, |businesses|, |subscriptions|, byPlan, byType, |recent|)));
  }

  /** The loop over the users that pushes each user's business, if any. */
  method CollectBusinesses(st: MemStorage, users: seq<User>) returns (bs: seq<Business>)
    requires st.Valid()
    ensures bs == Collect(users, BusinessLookup(st.businesses, st.businessId))
    ensures forall b :: b in bs ==> b.id in st.businesses && st.businesses[b.id] == b
  {
    bs := [];
    var i := 0;
    while i < |users|
      invariant 0 <= i <= |users|
      invariant bs == Collect(users[..i], BusinessLookup(st.businesses, st.businessId))
      invariant forall b :: b in bs ==> b.id in st.businesses && st.businesses[b.id] == b
    {
      var business := st.GetBusinessByUserId(users[i].id);
      if business.Some? {
        bs := bs + [business.value];
      }
      assert users[..i + 1][..i] == users[..i];
      i := i + 1;
    }
    assert users[..|users|] == users;
  }

  /** The loop over the users that pushes each user's subscription, if any. */
  method CollectSubscriptions(st: MemStorage, users: seq<User>) returns (ss: seq<Subscription>)
    requires st.Valid()
    ensures ss == Collect(users, SubscriptionLookup(st.subscriptions, st.subscriptionId))
    ensures forall s :: s in ss ==> s.id in st.subscriptions && st.subscriptions[s.id] == s
  {
    ss := [];
    var i := 0;
    while i < |users|
      invariant 0 <= i <= |users|
      invariant ss == Collect(users[..i], SubscriptionLookup(st.subscriptions, st.subscriptionId))
      invariant forall s :: s in ss ==> s.id in st.subscriptions && st.subscriptions[s.id] == s
    {
      var subscription := st.GetSubscriptionByUserId(users[i].id);
      if subscription.Some? {
        ss := ss + [subscription.value];
      }
      assert users[..i + 1][..i] == users[..i];
      i := i + 1;
    }
    assert users[..|users|] == users;
  }

  /** The loop that counts subscriptions per plan, starting from zero for
      each of the four plans. */
  method CountPlans(ss: seq<Subscription>) returns (c: PlanCounts)
    ensures c == PlanTally(ss)
  {
    c := PlanCounts(0, 0, 0, 0);
    var i := 0;
    while i < |ss|
      invariant 0 <= i <= |ss|
      invariant c == PlanTally(ss[..i])
    {
      assert ss[..i + 1][..i] == ss[..i];
      match ss[i].plan {
        case Free => c := c.(free := c.free + 1);
        case Basic => c := c.(basic := c.basic + 1);
        case Premium => c := c.(premium := c.premium + 1);
        case Enterprise => c := c.(enterprise := c.enterprise + 1);
      }
      i := i + 1;
    }
    assert ss[..|ss|] == ss;
  }

  /** Distinct types have distinct names. */
  lemma TypeNamesDistinct(t: BusinessType, u: BusinessType)
    requires BusinessTypeName(t) == BusinessTypeName(u)
    ensures t == u
  {
    assert ParseBusinessType(BusinessTypeName(t)) == Some(t);
    assert ParseBusinessType(BusinessTypeName(u)) == Some(u);
  }

  /** One more business adds one under its type's name, or nothing when it
      has no type. */
  lemma CountsByTypeStep(bs: seq<Business>, i: int, m: map<string, nat>, m': map<string, nat>)
    requires 0 <= i < |bs| && CountsByType(bs[..i], m)
    requires bs[i].businessType.None? ==> m' == m
    requires bs[i].businessType.Some? ==>
               var k := BusinessTypeName(bs[i].businessType.value);
               m' == m[k := (if k in m then m[k] else 0) + 1]
    ensures CountsByType(bs[..i + 1], m')
  {
    var b := bs[i];
    assert bs[..i + 1][..i] == bs[..i] && bs[..i + 1][i] == b;
    if b.businessType.Some? {
      forall t: BusinessType | BusinessTypeName(t) == BusinessTypeName(b.businessType.value)
        ensures t == b.businessType.value {
        TypeNamesDistinct(t, b.businessType.value);
      }
    }
  }

  /** One count up under `k`, starting from zero when the key is missing
      or holds zero. */
  method CountOne(m: map<string, nat>, k: string) returns (m': map<string, nat>)
    ensures m' == m[k := (if k in m then m[k] else 0) + 1]
  {
    m' := m;
    if k !in m' || m'[k] == 0 {
      m' := m'[k := 0];
    }
    m' := m'[k := m'[k] + 1];
  }

  /** The loop that counts businesses per type name, skipping businesses
      without a type. */
  method CountTypes(bs: seq<Business>) returns (m: map<string, nat>)
    ensures CountsByType(bs, m)
  {
    m := map[];
    var i := 0;
    while i < |bs|
      invariant 0 <= i <= |bs|
      invariant CountsByType(bs[..i], m)
    {
      ghost var m0 := m;
      if bs[i].businessType.Some? {
        m := CountOne(m, BusinessTypeName(bs[i].businessType.value));
      }
      CountsByTypeStep(bs, i, m0, m);
      i := i + 1;
    }
    assert bs[..|bs|] == bs;
  }
}
