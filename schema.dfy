/** The eight tables of the data model, their enumerations and column
    defaults, the shapes a caller hands to a create operation (no id, no
    creation or update time: the store assigns those), and the partial rows
    an update merges into a stored row. */
module Schema {
  import opened Base

  /** A point in time, in milliseconds since the epoch. */
  type Timestamp = int

  // ---------------------------------------------------------------- enums

  datatype Role = UserRole | AdminRole

  function RoleName(r: Role): string {
    match r
    case UserRole => "user"
    case AdminRole => "admin"
  }

  /** The role column accepts exactly the two enum labels. */
  function ParseRole(s: string): (r: Option<Role>)
    ensures r.Some? ==> RoleName(r.value) == s
    ensures r.None? ==> forall x: Role :: RoleName(x) != s
  {
    if s == "user" then Some(UserRole)
    else if s == "admin" then Some(AdminRole)
    else None
  }

  const DEFAULT_ROLE := UserRole

  datatype BusinessType =
    | Restaurant | LawyerOffice | DentalClinic | HairSalon | RetailStore | MedicalClinic
    | FitnessCenter | Spa | AutoRepair | RealEstate | OtherBusiness

  function BusinessTypeName(t: BusinessType): string {
    match t
    case Restaurant => "restaurant"
    case LawyerOffice => "lawyer_office"
    case DentalClinic => "dental_clinic"
    case HairSalon => "hair_salon"
    case RetailStore => "retail_store"
    case MedicalClinic => "medical_clinic"
    case FitnessCenter => "fitness_center"
    case Spa => "spa"
    case AutoRepair => "auto_repair"
    case RealEstate => "real_estate"
    case OtherBusiness => "other"
  }

  /** The eleven business types, in the order the enum declares them. */
  const BUSINESS_TYPES: seq<BusinessType> := [
    Restaurant, LawyerOffice, DentalClinic, HairSalon, RetailStore, MedicalClinic,
    FitnessCenter, Spa, AutoRepair, RealEstate, OtherBusiness
  ]

  /** The enum list names every business type exactly once. */
  lemma BusinessTypesListed(t: BusinessType)
    ensures t in BUSINESS_TYPES
    ensures |BUSINESS_TYPES| == 11
    ensures forall i, j :: 0 <= i < j < |BUSINESS_TYPES| ==> BUSINESS_TYPES[i] != BUSINESS_TYPES[j]
  {
  }

  function ParseBusinessType(s: string): (r: Option<BusinessType>)
    ensures r.Some? ==> BusinessTypeName(r.value) == s
    ensures r.None? ==> forall t: BusinessType :: BusinessTypeName(t) != s
  {
    if s == "restaurant" then Some(Restaurant)
    else if s == "lawyer_office" then Some(LawyerOffice)
    else if s == "dental_clinic" then Some(DentalClinic)
    else if s == "hair_salon" then Some(HairSalon)
    else if s == "retail_store" then Some(RetailStore)
    else if s == "medical_clinic" then Some(MedicalClinic)
    else if s == "fitness_center" then Some(FitnessCenter)
    else if s == "spa" then Some(Spa)
    else if s == "auto_repair" then Some(AutoRepair)
    else if s == "real_estate" then Some(RealEstate)
    else if s == "other" then Some(OtherBusiness)
    else None
  }

  const DEFAULT_BUSINESS_TYPE := OtherBusiness

  datatype CallStatus = CallCompleted | CallInProgress | CallMissed | CallTransferred

  function CallStatusName(c: CallStatus): string {
    match c
    case CallCompleted => "completed"
    case CallInProgress => "in-progress"
    case CallMissed => "missed"
    case CallTransferred => "transferred"
  }

  /** A call status is exactly one of the four labels. */
  function ParseCallStatus(s: string): (r: Option<CallStatus>)
    ensures r.Some? ==> CallStatusName(r.value) == s
    ensures r.None? ==> forall c: CallStatus :: CallStatusName(c) != s
  {
    if s == "completed" then Some(CallCompleted)
    else if s == "in-progress" then Some(CallInProgress)
    else if s == "missed" then Some(CallMissed)
    else if s == "transferred" then Some(CallTransferred)
    else None
  }

  datatype BookingStatus = BookingUpcoming | BookingCompleted | BookingCanceled

  function BookingStatusName(b: BookingStatus): string {
    match b
    case BookingUpcoming => "upcoming"
    case BookingCompleted => "completed"
    case BookingCanceled => "canceled"
  }

  function ParseBookingStatus(s: string): (r: Option<BookingStatus>)
    ensures r.Some? ==> BookingStatusName(r.value) == s
    ensures r.None? ==> forall b: BookingStatus :: BookingStatusName(b) != s
  {
    if s == "upcoming" then Some(BookingUpcoming)
    else if s == "completed" then Some(BookingCompleted)
    else if s == "canceled" then Some(BookingCanceled)
    else None
  }

  const DEFAULT_BOOKING_STATUS := BookingUpcoming

  datatype Plan = Free | Basic | Premium | Enterprise

  function PlanName(p: Plan): string {
    match p
    case Free => "free"
    case Basic => "basic"
    case Premium => "premium"
    case Enterprise => "enterprise"
  }

  function ParsePlan(s: string): (r: Option<Plan>)
    ensures r.Some? ==> PlanName(r.value) == s
    ensures r.None? ==> forall p: Plan :: PlanName(p) != s
  {
    if s == "free" then Some(Free)
    else if s == "basic" then Some(Basic)
    else if s == "premium" then Some(Premium)
    else if s == "enterprise" then Some(Enterprise)
    else None
  }

  const DEFAULT_PLAN := Free
  /** Subscription and integration status are free text with these defaults. */
  const DEFAULT_SUBSCRIPTION_STATUS := "active"
  const DEFAULT_INTEGRATION_STATUS := "inactive"

  /** A JSON document, as stored in the integration `config` column
      (numbers are kept to integers). */
  datatype Json =
    | JNull
    | JBool(b: bool)
    | JNum(n: int)
    | JStr(s: string)
    | JArr(items: seq<Json>)
    | JObj(fields: map<string, Json>)

  // ----------------------------------------------------------------- rows

  /** A stored user. `fullName`, `phone` and `bio` are not columns: they are
      the properties a profile update spreads into the in-memory object. */
  datatype User = User(
    id: int, username: string, password: string, email: string,
    businessName: Option<string>,
    resetToken: Option<string>, resetTokenExpiry: Option<Timestamp>,
    role: Role, createdAt: Timestamp,
    fullName: Option<string>, phone: Option<string>, bio: Option<string>)

  datatype Business = Business(
    id: int, userId: int, businessName: string, businessType: Option<BusinessType>,
    description: Option<string>, address: Option<string>, city: Option<string>,
    state: Option<string>, zip: Option<string>, country: Option<string>,
    phone: Option<string>, email: Option<string>, website: Option<string>,
    createdAt: Timestamp, updatedAt: Timestamp)

  datatype Hours = Hours(
    id: int, businessId: int, dayOfWeek: string,
    openTime: Option<string>, closeTime: Option<string>, isOpen: Option<bool>)

  datatype Faq = Faq(id: int, businessId: int, question: string, answer: string)

  datatype Call = Call(
    id: int, businessId: int, caller: Option<string>, phone: Option<string>,
    callType: Option<string>, startTime: Timestamp, endTime: Option<Timestamp>,
    status: CallStatus, duration: Option<string>,
    recording: Option<string>, transcript: Option<string>)

  datatype Booking = Booking(
    id: int, businessId: int, customer: string, phone: Option<string>,
    email: Option<string>, service: string, date: Option<Timestamp>,
    status: BookingStatus, notes: Option<string>, createdAt: Timestamp)

  datatype Integration = Integration(
    id: int, businessId: int, integrationType: string, config: Json, status: string,
    createdAt: Timestamp, updatedAt: Timestamp)

  datatype Subscription = Subscription(
    id: int, userId: int, plan: Plan,
    stripeCustomerId: Option<string>, stripeSubscriptionId: Option<string>,
    status: string, cancelAtPeriodEnd: bool,
    currentPeriodStart: Option<Timestamp>, currentPeriodEnd: Option<Timestamp>,
    createdAt: Timestamp, updatedAt: Timestamp)

  // ------------------------------------------------------- insert shapes
  // None in a defaulted field means the caller left it out.

  datatype NewUser = NewUser(
    username: string, password: string, email: string,
    businessName: Option<string>, role: Option<Role>)

  datatype NewBusiness = NewBusiness(
    userId: int, businessName: string, businessType: Option<BusinessType>,
    description: Option<string>, address: Option<string>, city: Option<string>,
    state: Option<string>, zip: Option<string>, country: Option<string>,
    phone: Option<string>, email: Option<string>, website: Option<string>)

  datatype NewHours = NewHours(
    businessId: int, dayOfWeek: string,
    openTime: Option<string>, closeTime: Option<string>, isOpen: Option<bool>)

  datatype NewFaq = NewFaq(businessId: int, question: string, answer: string)

  datatype NewCall = NewCall(
    businessId: int, caller: Option<string>, phone: Option<string>,
    callType: Option<string>, startTime: Option<Timestamp>, status: CallStatus,
    recording: Option<string>, transcript: Option<string>)

  datatype NewBooking = NewBooking(
    businessId: int, customer: string, phone: Option<string>, email: Option<string>,
    service: string, date: Timestamp, status: Option<BookingStatus>, notes: Option<string>)

  datatype NewIntegration = NewIntegration(
    businessId: int, integrationType: string, config: Json, status: Option<string>)

  datatype NewSubscription = NewSubscription(
    userId: int, plan: Option<Plan>,
    stripeCustomerId: Option<string>, stripeSubscriptionId: Option<string>,
    status: Option<string>, cancelAtPeriodEnd: Option<bool>,
    currentPeriodStart: Option<Timestamp>, currentPeriodEnd: Option<Timestamp>)

  // ------------------------------------------------------ partial rows
  // None: the key is absent and the stored value stays. For a nullable
  // column, Some(None): the key is present with null or undefined, which
  // the object spread writes over the stored value.

  datatype UserPatch = UserPatch(
    email: Option<string>, role: Option<Role>,
    fullName: Option<string>, phone: Option<string>, bio: Option<string>)

  datatype BusinessPatch = BusinessPatch(
    businessName: Option<string>, businessType: Option<Option<BusinessType>>,
    description: Option<Option<string>>, address: Option<Option<string>>,
    city: Option<Option<string>>, state: Option<Option<string>>,
    zip: Option<Option<string>>, country: Option<Option<string>>,
    phone: Option<Option<string>>, email: Option<Option<string>>,
    website: Option<Option<string>>)

  datatype HoursPatch = HoursPatch(
    dayOfWeek: Option<string>, openTime: Option<Option<string>>,
    closeTime: Option<Option<string>>, isOpen: Option<Option<bool>>)

  datatype FaqPatch = FaqPatch(question: Option<string>, answer: Option<string>)

  datatype CallPatch = CallPatch(
    callType: Option<Option<string>>, endTime: Option<Option<Timestamp>>,
    duration: Option<Option<string>>, status: Option<CallStatus>,
    recording: Option<Option<string>>, transcript: Option<Option<string>>)

  datatype BookingPatch = BookingPatch(
    businessId: Option<int>, customer: Option<string>,
    phone: Option<Option<string>>, email: Option<Option<string>>,
    service: Option<string>, date: Option<Option<Timestamp>>,
    status: Option<BookingStatus>, notes: Option<Option<string>>)

  datatype IntegrationPatch = IntegrationPatch(
    businessId: Option<int>, integrationType: Option<string>,
    config: Option<Json>, status: Option<string>)

  datatype SubscriptionPatch = SubscriptionPatch(
    userId: Option<int>, plan: Option<Plan>,
    stripeCustomerId: Option<Option<string>>, stripeSubscriptionId: Option<Option<string>>,
    status: Option<string>, cancelAtPeriodEnd: Option<bool>,
    currentPeriodStart: Option<Option<Timestamp>>, currentPeriodEnd: Option<Option<Timestamp>>)

  const NO_BUSINESS_CHANGE := BusinessPatch(None, None, None, None, None, None, None, None, None, None, None)
  const NO_INTEGRATION_CHANGE := IntegrationPatch(None, None, None, None)
  const NO_SUBSCRIPTION_CHANGE := SubscriptionPatch(None, None, None, None, None, None, None, None)

  // --------------------------------------------- creating and merging rows

  /** The stored form of a new user: the reset fields start empty. */
  function UserRow(n: NewUser, id: int, now: Timestamp): (u: User)
    ensures u.id == id && u.createdAt == now
    ensures u.resetToken.None? && u.resetTokenExpiry.None?
    ensures u.username == n.username && u.password == n.password && u.email == n.email
  {
    User(id, n.username, n.password, n.email, n.businessName, None, None,
         n.role.GetOr(DEFAULT_ROLE), now, None, None, None)
  }

  /** The stored form of a new business: a missing type becomes `other`. */
  function BusinessRow(n: NewBusiness, id: int, now: Timestamp): (b: Business)
    ensures b.id == id && b.userId == n.userId && b.businessName == n.businessName
    ensures b.createdAt == now && b.updatedAt == now
    ensures b.businessType == Some(if n.businessType.Some? then n.businessType.value else OtherBusiness)
  {
    Business(id, n.userId, n.businessName, Some(n.businessType.GetOr(DEFAULT_BUSINESS_TYPE)),
             n.description, n.address, n.city, n.state, n.zip, n.country,
             n.phone, n.email, n.website, now, now)
  }

  function HoursRow(n: NewHours, id: int): (h: Hours)
    ensures h.id == id && h.businessId == n.businessId && h.dayOfWeek == n.dayOfWeek
    ensures h.openTime == n.openTime && h.closeTime == n.closeTime && h.isOpen == n.isOpen
  {
    Hours(id, n.businessId, n.dayOfWeek, n.openTime, n.closeTime, n.isOpen)
  }

  function FaqRow(n: NewFaq, id: int): (f: Faq)
    ensures f.id == id && f.businessId == n.businessId
    ensures f.question == n.question && f.answer == n.answer
  {
    Faq(id, n.businessId, n.question, n.answer)
  }

  /** The stored form of a new call: no end time yet and a zero duration. */
  function CallRow(n: NewCall, id: int, now: Timestamp): (c: Call)
    ensures c.id == id && c.businessId == n.businessId && c.status == n.status
    ensures c.endTime.None? && c.duration == Some("0:00")
  {
    Call(id, n.businessId, n.caller, n.phone, n.callType, n.startTime.GetOr(now), None,
         n.status, Some("0:00"), n.recording, n.transcript)
  }

  function BookingRow(n: NewBooking, id: int, now: Timestamp): (b: Booking)
    ensures b.id == id && b.businessId == n.businessId && b.createdAt == now
    ensures b.date == Some(n.date)
    ensures n.status.None? ==> b.status == BookingUpcoming
  {
    Booking(id, n.businessId, n.customer, n.phone, n.email, n.service, Some(n.date),
            n.status.GetOr(DEFAULT_BOOKING_STATUS), n.notes, now)
  }

  function IntegrationRow(n: NewIntegration, id: int, now: Timestamp): (i: Integration)
    ensures i.id == id && i.businessId == n.businessId && i.integrationType == n.integrationType
    ensures i.createdAt == now && i.updatedAt == now
    ensures n.status.None? ==> i.status == "inactive"
  {
    Integration(id, n.businessId, n.integrationType, n.config,
                n.status.GetOr(DEFAULT_INTEGRATION_STATUS), now, now)
  }

  function SubscriptionRow(n: NewSubscription, id: int, now: Timestamp): (s: Subscription)
    ensures s.id == id && s.userId == n.userId && s.createdAt == now && s.updatedAt == now
    ensures n.plan.None? ==> s.plan == Free
    ensures n.status.None? ==> s.status == "active"
  {
    Subscription(id, n.userId, n.plan.GetOr(DEFAULT_PLAN), n.stripeCustomerId,
                 n.stripeSubscriptionId, n.status.GetOr(DEFAULT_SUBSCRIPTION_STATUS),
                 n.cancelAtPeriodEnd.GetOr(false), n.currentPeriodStart, n.currentPeriodEnd,
                 now, now)
  }

  /** `{ ...user, ...patch }`: the patch never touches identity, credentials
      or the reset fields. */
  function MergeUser(u: User, p: UserPatch): (r: User)
    ensures r.id == u.id && r.username == u.username && r.password == u.password
    ensures r.resetToken == u.resetToken && r.resetTokenExpiry == u.resetTokenExpiry
    ensures r.createdAt == u.createdAt
    ensures p == UserPatch(None, None, None, None, None) ==> r == u
  {
    u.(email := p.email.GetOr(u.email), role := p.role.GetOr(u.role),
       fullName := if p.fullName.Some? then p.fullName else u.fullName,
       phone := if p.phone.Some? then p.phone else u.phone,
       bio := if p.bio.Some? then p.bio else u.bio)
  }

  /** `{ ...business, ...patch, updatedAt: now }`. */
  function MergeBusiness(b: Business, p: BusinessPatch, now: Timestamp): (r: Business)
    ensures r.id == b.id && r.userId == b.userId && r.createdAt == b.createdAt
    ensures r.updatedAt == now
    ensures p == NO_BUSINESS_CHANGE ==> r == b.(updatedAt := now)
  {
    b.(businessName := p.businessName.GetOr(b.businessName),
       businessType := p.businessType.GetOr(b.businessType),
       description := p.description.GetOr(b.description),
       address := p.address.GetOr(b.address),
       city := p.city.GetOr(b.city),
       state := p.state.GetOr(b.state),
       zip := p.zip.GetOr(b.zip),
       country := p.country.GetOr(b.country),
       phone := p.phone.GetOr(b.phone),
       email := p.email.GetOr(b.email),
       website := p.website.GetOr(b.website),
       updatedAt := now)
  }

  function MergeHours(h: Hours, p: HoursPatch): (r: Hours)
    ensures r.id == h.id && r.businessId == h.businessId
    ensures p == HoursPatch(None, None, None, None) ==> r == h
  {
    h.(dayOfWeek := p.dayOfWeek.GetOr(h.dayOfWeek), openTime := p.openTime.GetOr(h.openTime),
       closeTime := p.closeTime.GetOr(h.closeTime), isOpen := p.isOpen.GetOr(h.isOpen))
  }

  function MergeFaq(f: Faq, p: FaqPatch): (r: Faq)
    ensures r.id == f.id && r.businessId == f.businessId
    ensures p == FaqPatch(None, None) ==> r == f
  {
    f.(question := p.question.GetOr(f.question), answer := p.answer.GetOr(f.answer))
  }

  function MergeCall(c: Call, p: CallPatch): (r: Call)
    ensures r.id == c.id && r.businessId == c.businessId && r.startTime == c.startTime
    ensures r.caller == c.caller && r.phone == c.phone
    ensures p == CallPatch(None, None, None, None, None, None) ==> r == c
  {
    c.(callType := p.callType.GetOr(c.callType), endTime := p.endTime.GetOr(c.endTime),
       duration := p.duration.GetOr(c.duration), status := p.status.GetOr(c.status),
       recording := p.recording.GetOr(c.recording), transcript := p.transcript.GetOr(c.transcript))
  }

  /** `{ ...booking, ...patch }`: a patch may name a new owner. */
  function MergeBooking(b: Booking, p: BookingPatch): (r: Booking)
    ensures r.id == b.id && r.createdAt == b.createdAt
    ensures r.businessId == (if p.businessId.Some? then p.businessId.value else b.businessId)
    ensures p == BookingPatch(None, None, None, None, None, None, None, None) ==> r == b
  {
    b.(businessId := p.businessId.GetOr(b.businessId), customer := p.customer.GetOr(b.customer),
       phone := p.phone.GetOr(b.phone), email := p.email.GetOr(b.email),
       service := p.service.GetOr(b.service), date := p.date.GetOr(b.date),
       status := p.status.GetOr(b.status), notes := p.notes.GetOr(b.notes))
  }

  /** `{ ...integration, ...patch, updatedAt: now }`: a patch may name a new
      owner and a new type. */
  function MergeIntegration(i: Integration, p: IntegrationPatch, now: Timestamp): (r: Integration)
    ensures r.id == i.id && r.createdAt == i.createdAt && r.updatedAt == now
    ensures r.businessId == (if p.businessId.Some? then p.businessId.value else i.businessId)
    ensures r.integrationType == (if p.integrationType.Some? then p.integrationType.value else i.integrationType)
    ensures p == NO_INTEGRATION_CHANGE ==> r == i.(updatedAt := now)
  {
    i.(businessId := p.businessId.GetOr(i.businessId),
       integrationType := p.integrationType.GetOr(i.integrationType),
       config := p.config.GetOr(i.config), status := p.status.GetOr(i.status),
       updatedAt := now)
  }

  /** `{ ...subscription, ...patch, updatedAt: now }`: a patch may name a new
      owner. */
  function MergeSubscription(s: Subscription, p: SubscriptionPatch, now: Timestamp): (r: Subscription)
    ensures r.id == s.id && r.createdAt == s.createdAt && r.updatedAt == now
    ensures r.userId == (if p.userId.Some? then p.userId.value else s.userId)
    ensures p == NO_SUBSCRIPTION_CHANGE ==> r == s.(updatedAt := now)
  {
    s.(userId := p.userId.GetOr(s.userId), plan := p.plan.GetOr(s.plan),
       stripeCustomerId := p.stripeCustomerId.GetOr(s.stripeCustomerId),
       stripeSubscriptionId := p.stripeSubscriptionId.GetOr(s.stripeSubscriptionId),
       status := p.status.GetOr(s.status),
       cancelAtPeriodEnd := p.cancelAtPeriodEnd.GetOr(s.cancelAtPeriodEnd),
       currentPeriodStart := p.currentPeriodStart.GetOr(s.currentPeriodStart),
       currentPeriodEnd := p.currentPeriodEnd.GetOr(s.currentPeriodEnd),
       updatedAt := now)
  }

  /** Merging is idempotent: applying the same partial row twice (at the same
      time) gives what applying it once gives. */
  lemma MergeBusinessIdempotent(b: Business, p: BusinessPatch, now: Timestamp)
    ensures MergeBusiness(MergeBusiness(b, p, now), p, now) == MergeBusiness(b, p, now)
  {
  }
}
