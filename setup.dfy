/** The guided setup handlers: the first business profile, the first opening
    hours and the "is setup complete" query. These handlers read the user id
    from the session themselves and answer 401 when it is missing or 0. */
module BusinessSetupController {
  import opened Base
  import opened Schema
  import opened Text
  import opened Tables
  import opened Storage
  import opened WeeklyHours
  import opened BusinessController

  /** A setup body that has the expected shape; the type is still the raw
      string the client sent. */
  datatype SetupInput = SetupInput(
    businessName: string, businessType: string, description: string,
    address: Option<string>, city: Option<string>, state: Option<string>,
    zip: Option<string>, country: Option<string>, phone: Option<string>,
    email: Option<string>, website: Option<string>)

  /** The setup rules: a name of at least 2 characters, a known business
      type, a description of at least 10 characters, and an email address
      and a URL that are well formed when present. */
  predicate SetupValid(v: SetupInput, isEmail: string -> bool, isUrl: string -> bool) {
    && |v.businessName| >= 2
    && ParseBusinessType(v.businessType).Some?
    && |v.description| >= 10
    && (v.email.Some? ==> isEmail(v.email.value))
    && (v.website.Some? ==> isUrl(v.website.value))
  }

  /** The partial row a valid setup writes over an existing business. Every
      column is named, so a column the body leaves out is cleared. */
  function SetupPatch(v: SetupInput): (p: BusinessPatch)
    requires ParseBusinessType(v.businessType).Some?
    ensures p.businessName == Some(v.businessName)
    ensures p.businessType == Some(ParseBusinessType(v.businessType))
    ensures p.description == Some(Some(v.description))
    ensures p.address == Some(v.address) && p.email == Some(v.email) && p.website == Some(v.website)
  {
    BusinessPatch(Some(v.businessName), Some(ParseBusinessType(v.businessType)), Some(Some(v.description)),
                  Some(v.address), Some(v.city), Some(v.state), Some(v.zip), Some(v.country),
                  Some(v.phone), Some(v.email), Some(v.website))
  }

  /** The insert a valid setup makes for a user who has no business yet. */
  function SetupBusiness(owner: int, v: SetupInput): (n: NewBusiness)
    requires ParseBusinessType(v.businessType).Some?
    ensures n.userId == owner && n.businessName == v.businessName
    ensures n.businessType == ParseBusinessType(v.businessType) && n.description == Some(v.description)
  {
    NewBusiness(owner, v.businessName, ParseBusinessType(v.businessType), Some(v.description),
                v.address, v.city, v.state, v.zip, v.country, v.phone, v.email, v.website)
  }

  /** The profile half of "setup complete": a non-empty name, a type and a
      non-empty description. */
  predicate ProfileComplete(b: Business) {
    b.businessName != "" && b.businessType.Some? && b.description.Some? && b.description.value != ""
  }

  /** Setup is complete when the profile is and at least seven hours rows
      are stored. */
  predicate SetupComplete(b: Business, hours: seq<Hours>) {
    ProfileComplete(b) && |hours| >= 7
  }

  /** A valid setup leaves a complete profile, whether it creates the
      business or overwrites an existing one. */
  lemma ValidSetupCompletesProfile(v: SetupInput, isEmail: string -> bool, isUrl: string -> bool,
                                   owner: int, b: Business, id: int, now: Timestamp)
    requires SetupValid(v, isEmail, isUrl)
    ensures ProfileComplete(BusinessRow(SetupBusiness(owner, v), id, now))
    ensures ProfileComplete(MergeBusiness(b, SetupPatch(v), now))
  {
  }

  /** Creates the session user's business from a valid setup (201) or
      overwrites every setup column of the one they have (200). */
  method SetupBusinessProfile(st: MemStorage, session: Option<int>, body: Option<SetupInput>,
                              isEmail: string -> bool, isUrl: string -> bool, now: Timestamp)
    returns (reply: Reply<Business>)
    requires st.Consistent()
    requires SessionUser(session).Some? ==> SessionUser(session).value in st.users
    modifies st`businesses, st`businessId
    ensures st.Consistent()
    ensures SessionUser(session).None? ==> reply == Fail(Unauthorized, UNAUTHORIZED) && st.businesses == old(st.businesses)
    ensures SessionUser(session).Some? && (body.None? || !SetupValid(body.value, isEmail, isUrl)) ==>
              reply == Fail(BadRequest, "Invalid business data") && st.businesses == old(st.businesses)
    ensures reply.status == Created || reply.status == Ok ==>
              && SessionUser(session).Some? && body.Some? && SetupValid(body.value, isEmail, isUrl)
              && reply.payload.Body? && reply.payload.value.userId == SessionUser(session).value
              && ProfileComplete(reply.payload.value)
    ensures SessionUser(session).Some? && body.Some? && SetupValid(body.value, isEmail, isUrl) ==>
              var owner := SessionUser(session).value;
              && (old(OwnBusiness(st, owner)).None? ==>
                    var b := BusinessRow(SetupBusiness(owner, body.value), old(st.businessId), now);
                    reply == Reply(Created, Body(b)) && st.businesses == old(st.businesses)[b.id := b])
              && (old(OwnBusiness(st, owner)).Some? ==>
                    var b := MergeBusiness(old(OwnBusiness(st, owner)).value, SetupPatch(body.value), now);
                    reply == Reply(Ok, Body(b)) && st.businesses == old(st.businesses)[b.id := b])
  {
    var owner := SessionUser(session);
    if owner.None? {
      return Fail(Unauthorized, UNAUTHORIZED);
    }
    if body.None? || !SetupValid(body.value, isEmail, isUrl) {
      return Fail(BadRequest, "Invalid business data");
    }
    ValidSetupCompletesProfile(body.value, isEmail, isUrl, owner.value,
                               if old(OwnBusiness(st, owner.value)).Some? then old(OwnBusiness(st, owner.value)).value
                               else BusinessRow(SetupBusiness(owner.value, body.value), st.businessId, now),
                               st.businessId, now);
    var b, created := SaveBusiness(st, owner.value, SetupBusiness(owner.value, body.value), SetupPatch(body.value), now);
    reply := Reply(if created then Created else Ok, Body(b));
  }

  /** The row the setup flow stores for the i-th day: a closed day keeps no
      times. */
  function SetupDayInsert(businessId: int, week: seq<DayInput>, i: int): (n: NewHours)
    requires 0 <= i < |week| && i < 7
    ensures n.businessId == businessId && n.isOpen == Some(week[i].isOpen)
    ensures week[i].isOpen ==> n.openTime == Some(week[i].open) && n.closeTime == Some(week[i].close)
    ensures !week[i].isOpen ==> n.openTime.None? && n.closeTime.None?
  {
    NewHours(businessId, ToLower(WEEKDAYS[i]),
             if week[i].isOpen then Some(week[i].open) else None,
             if week[i].isOpen then Some(week[i].close) else None,
             Some(week[i].isOpen))
  }

  function SetupWeekInserts(businessId: int, week: seq<DayInput>): (n: seq<NewHours>)
    requires |week| == 7
    ensures |n| == 7
    ensures forall i :: 0 <= i < 7 ==> n[i] == SetupDayInsert(businessId, week, i)
  {
    seq(7, i requires 0 <= i < 7 => SetupDayInsert(businessId, week, i))
  }

  /** The seven rows the setup flow creates, given the first id handed out. */
  function SetupWeekRows(businessId: int, week: seq<DayInput>, firstId: int): (rows: seq<Hours>)
    requires |week| == 7
    ensures |rows| == 7
    ensures forall i :: 0 <= i < 7 ==> rows[i] == HoursRow(SetupDayInsert(businessId, week, i), firstId + i)
  {
    seq(7, i requires 0 <= i < 7 => HoursRow(SetupDayInsert(businessId, week, i), firstId + i))
  }

  lemma CreatedSetupWeek(businessId: int, week: seq<DayInput>, firstId: int, created: seq<Hours>)
    requires |week| == 7 && |created| == 7
    requires forall i :: 0 <= i < 7 ==> created[i] == HoursRow(SetupWeekInserts(businessId, week)[i], firstId + i)
    ensures created == SetupWeekRows(businessId, week, firstId)
  {
  }

  /** Replaces the session user's business hours with one row per day,
      Monday first, and answers with the seven created rows, which are then
      exactly the business's hours. */
  method UpdateSetupHours(st: MemStorage, session: Option<int>, body: Option<seq<DayInput>>)
    returns (reply: Reply<seq<Hours>>)
    requires st.Valid()
    modifies st`hoursOfOperation, st`hoursId
    ensures st.Valid()
    ensures SessionUser(session).None? ==> reply == Fail(Unauthorized, UNAUTHORIZED)
    ensures SessionUser(session).Some? && (body.None? || |body.value| != 7) ==>
              reply == Fail(BadRequest, "Invalid hours data")
    ensures reply.status != Ok ==> st.hoursOfOperation == old(st.hoursOfOperation) && st.hoursId == old(st.hoursId)
    ensures SessionUser(session).Some? && body.Some? && |body.value| == 7 ==>
              var own := old(OwnBusiness(st, SessionUser(session).value));
              && (own.None? ==> reply == Fail(NotFound, "Business not found. Please set up your business information first."))
              && (own.Some? ==>
                    && reply == Reply(Ok, Body(SetupWeekRows(own.value.id, body.value, old(st.hoursId))))
                    && Filter(Rows(st.hoursOfOperation, st.hoursId), HoursOwner, own.value.id) == reply.payload.value
                    && (forall k :: k in old(st.hoursOfOperation) && old(st.hoursOfOperation)[k].businessId != own.value.id ==>
                          k in st.hoursOfOperation && st.hoursOfOperation[k] == old(st.hoursOfOperation)[k])
                    && (forall b :: b != own.value.id ==>
                          Filter(Rows(st.hoursOfOperation, st.hoursId), HoursOwner, b)
                          == Filter(Rows(old(st.hoursOfOperation), old(st.hoursId)), HoursOwner, b)))
  {
    var owner := SessionUser(session);
    if owner.None? {
      return Fail(Unauthorized, UNAUTHORIZED);
    }
    if body.None? || |body.value| != 7 {
      return Fail(BadRequest, "Invalid hours data");
    }
    var business := st.GetBusinessByUserId(owner.value);
    if business.None? {
      return Fail(NotFound, "Business not found. Please set up your business information first.");
    }
    var created := ReplaceHours(st, business.value.id, SetupWeekInserts(business.value.id, body.value));
    CreatedSetupWeek(business.value.id, body.value, old(st.hoursId), created);
    reply := Reply(Ok, Body(created));
  }

  /** What the setup-status query answers: the verdict with the business and
      its hours, or, for a user without a business, the verdict with a
      message. */
  datatype SetupStatus =
    | SetupStatus(isSetupComplete: bool, business: Option<Business>, hours: seq<Hours>)
    | NotStarted(isSetupComplete: bool, message: string)

  const SETUP_NOT_STARTED := "Business setup not started"

  /** Reports whether the session user's setup is complete, with the business
      and its hours; a user without a business gets `false` and a message. */
  method CheckBusinessSetupStatus(st: MemStorage, session: Option<int>) returns (reply: Reply<SetupStatus>)
    requires st.Valid()
    ensures SessionUser(session).None? ==> reply == Fail(Unauthorized, UNAUTHORIZED)
    ensures SessionUser(session).Some? && OwnBusiness(st, SessionUser(session).value).None? ==>
              && reply == Reply(Ok, Body(NotStarted(false, SETUP_NOT_STARTED)))
              && !reply.payload.value.isSetupComplete
    ensures SessionUser(session).Some? && OwnBusiness(st, SessionUser(session).value).Some? ==>
              var b := OwnBusiness(st, SessionUser(session).value).value;
              var hours := Filter(Rows(st.hoursOfOperation, st.hoursId), HoursOwner, b.id);
              reply == Reply(Ok, Body(SetupStatus(SetupComplete(b, hours), Some(b), hours)))
  {
    var owner := SessionUser(session);
    if owner.None? {
      return Fail(Unauthorized, UNAUTHORIZED);
    }
    var business := st.GetBusinessByUserId(owner.value);
    if business.None? {
      return Reply(Ok, Body(NotStarted(false, SETUP_NOT_STARTED)));
    }
    var hours := st.GetHoursByBusinessId(business.value.id);
    var complete := SetupComplete(business.value, hours);
    reply := Reply(Ok, Body(SetupStatus(complete, business, hours)));
  }

  /** Completing both setup steps completes the setup: once a valid setup
      has been stored as the user's business and the hours step has stored
      its seven rows, the status query reports the setup complete. */
  lemma SetupStepsComplete(v: SetupInput, isEmail: string -> bool, isUrl: string -> bool,
                           b: Business, hours: seq<Hours>)
    requires SetupValid(v, isEmail, isUrl)
    requires b.businessName == v.businessName && b.businessType == ParseBusinessType(v.businessType)
    requires b.description == Some(v.description)
    requires |hours| == 7
    ensures SetupComplete(b, hours)
  {
  }
}
