/** The business-profile handlers: the caller's business, its opening hours
    and its FAQs. Every route here sits behind the session check, so the
    caller is a stored user whose id is `callerId`. A request body that is
    not an object of the expected shape is `None` and is answered with 400. */
module BusinessController {
  import opened Base
  import opened Schema
  import opened Text
  import opened Tables
  import opened Storage
  import opened WeeklyHours

  /** The business the caller owns, as the store's lookup by owner finds it. */
  ghost function OwnBusiness(st: MemStorage, callerId: int): (r: Option<Business>)
    requires st.Valid()
    reads st
    ensures r.Some? ==> r.value.id in st.businesses && st.businesses[r.value.id] == r.value && r.value.userId == callerId
    ensures r.None? <==> forall k :: k in st.businesses ==> st.businesses[k].userId != callerId
  {
    st.Keyed();
    FindSpec(st.businesses, BusinessKey, st.businessId, BusinessOwner, callerId);
    Find(Rows(st.businesses, st.businessId), BusinessOwner, callerId)
  }

  /** Answers with the caller's business, or 404 when the caller has none. */
  method GetBusinessInfo(st: MemStorage, callerId: int) returns (reply: Reply<Business>)
    requires st.Valid()
    ensures reply.status == NotFound <==> forall k :: k in st.businesses ==> st.businesses[k].userId != callerId
    ensures reply.status == NotFound ==> reply == Fail(NotFound, BUSINESS_NOT_FOUND)
    ensures reply.status != NotFound ==>
              reply.status == Ok && reply.payload.Body? && reply.payload.value.userId == callerId
              && reply.payload.value.id in st.businesses && st.businesses[reply.payload.value.id] == reply.payload.value
  {
    var business := st.GetBusinessByUserId(callerId);
    if business.None? {
      return Fail(NotFound, BUSINESS_NOT_FOUND);
    }
    reply := Reply(Ok, Body(business.value));
  }

  /** The insert a business-info body makes for a caller who has no business
      yet: the body's columns, owned by the caller. */
  function NewBusinessFrom(owner: int, p: BusinessPatch): (n: NewBusiness)
    requires p.businessName.Some?
    ensures n.userId == owner && n.businessName == p.businessName.value
    ensures n.businessType == Flatten(p.businessType) && n.website == Flatten(p.website)
  {
    NewBusiness(owner, p.businessName.value, Flatten(p.businessType), Flatten(p.description),
                Flatten(p.address), Flatten(p.city), Flatten(p.state), Flatten(p.zip),
                Flatten(p.country), Flatten(p.phone), Flatten(p.email), Flatten(p.website))
  }

  /** The step both profile handlers share: create the owner's business from
      `n` when there is none, otherwise merge `p` into it. Either way the
      owner ends up with exactly one business, the returned row. */
  method SaveBusiness(st: MemStorage, owner: int, n: NewBusiness, p: BusinessPatch, now: Timestamp)
    returns (b: Business, created: bool)
    requires st.Consistent() && owner in st.users && n.userId == owner
    modifies st`businesses, st`businessId
    ensures st.Consistent()
    ensures created <==> old(OwnBusiness(st, owner)).None?
    ensures created ==> b == BusinessRow(n, old(st.businessId), now)
    ensures !created ==> b == MergeBusiness(old(OwnBusiness(st, owner)).value, p, now)
    ensures st.businesses == old(st.businesses)[b.id := b] && b.userId == owner
  {
    var existing := st.GetBusinessByUserId(owner);
    if existing.None? {
      b := st.CreateBusiness(n, now);
      created := true;
    } else {
      var updated := st.UpdateBusiness(existing.value.id, p, now);
      b, created := updated.value, false;
    }
  }

  /** Validates the body first (the business name is the one required
      column), then creates the caller's business when there is none (201)
      or merges the body into it (200). The owner is always the caller, and
      no second business is ever created for the same user. */
  method UpdateBusinessInfo(st: MemStorage, callerId: int, body: Option<BusinessPatch>, now: Timestamp)
    returns (reply: Reply<Business>)
    requires st.Consistent() && callerId in st.users
    modifies st`businesses, st`businessId
    ensures st.Consistent()
    ensures body.None? || body.value.businessName.None? ==>
              reply.status == BadRequest && st.businesses == old(st.businesses) && st.businessId == old(st.businessId)
    ensures body.Some? && body.value.businessName.Some? && old(OwnBusiness(st, callerId)).None? ==>
              var b := BusinessRow(NewBusinessFrom(callerId, body.value), old(st.businessId), now);
              reply == Reply(Created, Body(b)) && st.businesses == old(st.businesses)[b.id := b]
    ensures body.Some? && body.value.businessName.Some? && old(OwnBusiness(st, callerId)).Some? ==>
              var own := old(OwnBusiness(st, callerId)).value;
              var b := MergeBusiness(own, body.value, now);
              reply == Reply(Ok, Body(b)) && b.userId == callerId && st.businesses == old(st.businesses)[own.id := b]
  {
    if body.None? || body.value.businessName.None? {
      return Fail(BadRequest, VALIDATION_ERROR);
    }
    var b, created := SaveBusiness(st, callerId, NewBusinessFrom(callerId, body.value), body.value, now);
    reply := Reply(if created then Created else Ok, Body(b));
  }

  /** Answers with the default week overlaid with the business's stored
      rows, or 404 when the caller has no business. */
  method GetHoursOfOperation(st: MemStorage, callerId: int) returns (reply: Reply<map<string, DayHours>>)
    requires st.Valid()
    ensures OwnBusiness(st, callerId).None? <==> reply == Fail(NotFound, BUSINESS_NOT_FOUND)
    ensures OwnBusiness(st, callerId).Some? ==>
              reply == Reply(Ok, Body(FormatHours(Filter(Rows(st.hoursOfOperation, st.hoursId), HoursOwner,
                                                         OwnBusiness(st, callerId).value.id))))
    ensures reply.status == Ok ==> forall i :: 0 <= i < 7 ==> WEEKDAYS[i] in reply.payload.value
  {
    var business := st.GetBusinessByUserId(callerId);
    if business.None? {
      return Fail(NotFound, BUSINESS_NOT_FOUND);
    }
    var hours := st.GetHoursByBusinessId(business.value.id);
    var week := FormatWeek(hours);
    reply := Reply(Ok, Body(week));
  }

  /** The row created for the i-th day of a submitted week: the day's name
      lower-cased and the three values as sent. */
  function DayInsert(businessId: int, week: seq<DayInput>, i: int): (n: NewHours)
    requires 0 <= i < |week| && i < 7
    ensures n.businessId == businessId && n.isOpen == Some(week[i].isOpen)
  {
    NewHours(businessId, ToLower(WEEKDAYS[i]), Some(week[i].open), Some(week[i].close), Some(week[i].isOpen))
  }

  /** How a submitted day reads back: as sent, except that an empty time
      shows the default for an open or a closed day. */
  function Shown(d: DayInput): (h: DayHours)
    ensures h.isOpen == d.isOpen
    ensures d.open != "" ==> h.open == d.open
    ensures d.close != "" ==> h.close == d.close
  {
    DayHours(if d.open != "" then d.open else if d.isOpen then "09:00" else "10:00",
             if d.close != "" then d.close else if d.isOpen then "17:00" else "15:00",
             d.isOpen)
  }

  /** The rows a submitted week creates, given the business and the first
      id handed out. */
  function WeekRows(businessId: int, week: seq<DayInput>, firstId: int): (rows: seq<Hours>)
    requires |week| == 7
    ensures |rows| == 7
    ensures forall i :: 0 <= i < 7 ==> rows[i] == HoursRow(DayInsert(businessId, week, i), firstId + i)
  {
    seq(7, i requires 0 <= i < 7 => HoursRow(DayInsert(businessId, week, i), firstId + i))
  }

  /** The inserts a submitted week makes, Monday first. */
  function WeekInserts(businessId: int, week: seq<DayInput>): (n: seq<NewHours>)
    requires |week| == 7
    ensures |n| == 7
    ensures forall i :: 0 <= i < 7 ==> n[i] == DayInsert(businessId, week, i)
  {
    seq(7, i requires 0 <= i < 7 => DayInsert(businessId, week, i))
  }

  /** Rows created one per insert, with consecutive ids, are the week's rows. */
  lemma CreatedWeek(businessId: int, week: seq<DayInput>, firstId: int, created: seq<Hours>)
    requires |week| == 7 && |created| == 7
    requires forall i :: 0 <= i < 7 ==> created[i] == HoursRow(WeekInserts(businessId, week)[i], firstId + i)
    ensures created == WeekRows(businessId, week, firstId)
  {
  }

  /** Storing a submitted week and formatting the stored rows gives the
      week back: every day shows what was sent for it, and nothing else is
      listed. */
  lemma FormatStoredWeek(businessId: int, week: seq<DayInput>, firstId: int)
    requires |week| == 7
    ensures FormatHours(WeekRows(businessId, week, firstId)).Keys == DefaultWeek().Keys
    ensures forall i :: 0 <= i < 7 ==> FormatHours(WeekRows(businessId, week, firstId))[WEEKDAYS[i]] == Shown(week[i])
  {
    var rows := WeekRows(businessId, week, firstId);
    WeekdaysLowercase();
    FormatFullWeek(rows);
  }

  /** Validates the seven days first, then replaces all of the business's
      hours with one row per day, Monday first, and answers with the
      formatted week. The reply echoes the submitted week: every day shows
      what was sent for it. */
  method UpdateHoursOfOperation(st: MemStorage, callerId: int, body: Option<seq<DayInput>>)
    returns (reply: Reply<map<string, DayHours>>)
    requires st.Valid()
    modifies st`hoursOfOperation, st`hoursId
    ensures st.Valid()
    ensures body.None? || |body.value| != 7 ==>
              reply.status == BadRequest && st.hoursOfOperation == old(st.hoursOfOperation) && st.hoursId == old(st.hoursId)
    ensures body.Some? && |body.value| == 7 && old(OwnBusiness(st, callerId)).None? ==>
              && reply == Fail(NotFound, BUSINESS_NOT_FOUND)
              && st.hoursOfOperation == old(st.hoursOfOperation) && st.hoursId == old(st.hoursId)
    ensures body.Some? && |body.value| == 7 && old(OwnBusiness(st, callerId)).Some? ==>
              var id := old(OwnBusiness(st, callerId)).value.id;
              && reply == Reply(Ok, Body(FormatHours(WeekRows(id, body.value, old(st.hoursId)))))
              && Filter(Rows(st.hoursOfOperation, st.hoursId), HoursOwner, id) == WeekRows(id, body.value, old(st.hoursId))
              && (forall k :: k in old(st.hoursOfOperation) && old(st.hoursOfOperation)[k].businessId != id ==>
                    k in st.hoursOfOperation && st.hoursOfOperation[k] == old(st.hoursOfOperation)[k])
              && (forall b :: b != id ==>
                    Filter(Rows(st.hoursOfOperation, st.hoursId), HoursOwner, b)
                    == Filter(Rows(old(st.hoursOfOperation), old(st.hoursId)), HoursOwner, b))
  {
    if body.None? || |body.value| != 7 {
      return Fail(BadRequest, VALIDATION_ERROR);
    }
    var business := st.GetBusinessByUserId(callerId);
    if business.None? {
      return Fail(NotFound, BUSINESS_NOT_FOUND);
    }
    var id := business.value.id;
    var created := ReplaceHours(st, id, WeekInserts(id, body.value));
    CreatedWeek(id, body.value, old(st.hoursId), created);
    var hours := st.GetHoursByBusinessId(id);
    var week := FormatWeek(hours);
    reply := Reply(Ok, Body(week));
  }

  /** Answers with the business's FAQs in the order they were created, or
      404 when the caller has no business. */
  method GetFaqs(st: MemStorage, callerId: int) returns (reply: Reply<seq<Faq>>)
    requires st.Valid()
    ensures OwnBusiness(st, callerId).None? <==> reply == Fail(NotFound, BUSINESS_NOT_FOUND)
    ensures OwnBusiness(st, callerId).Some? ==>
              reply == Reply(Ok, Body(Filter(Rows(st.faqs, st.faqId), FaqOwner, OwnBusiness(st, callerId).value.id)))
    ensures reply.status == Ok ==> forall f :: f in reply.payload.value ==>
              f.id in st.faqs && st.faqs[f.id] == f && f.businessId == OwnBusiness(st, callerId).value.id
  {
    var business := st.GetBusinessByUserId(callerId);
    if business.None? {
      return Fail(NotFound, BUSINESS_NOT_FOUND);
    }
    var faqs := st.GetFaqsByBusinessId(business.value.id);
    reply := Reply(Ok, Body(faqs));
  }

  /** One submitted question and answer. */
  datatype FaqInput = FaqInput(question: string, answer: string)

  /** Both texts must be at least five characters long. */
  predicate FaqValid(f: FaqInput) {
    |f.question| >= 5 && |f.answer| >= 5
  }

  /** Creates one row of the business: the business's rows, read in order,
      gain the new row at the end, and every row stored before `baseId` was
      handed out stays as it was. */
  method AppendFaq(st: MemStorage, businessId: int, n: NewFaq, ghost before: seq<Faq>,
                    ghost base: map<int, Faq>, ghost baseId: int) returns (f: Faq)
    requires st.Valid() && n.businessId == businessId
    requires Filter(Rows(st.faqs, st.faqId), FaqOwner, businessId) == before
    requires baseId <= st.faqId
    requires forall k :: k in base ==> k in st.faqs && st.faqs[k] == base[k]
    requires forall k :: k in st.faqs ==> k in base || (k >= baseId && st.faqs[k].businessId == businessId)
    modifies st`faqs, st`faqId
    ensures st.Valid()
    ensures f == FaqRow(n, old(st.faqId)) && st.faqId == old(st.faqId) + 1
    ensures Filter(Rows(st.faqs, st.faqId), FaqOwner, businessId) == before + [f]
    ensures forall k :: k in base ==> k in st.faqs && st.faqs[k] == base[k]
    ensures forall k :: k in st.faqs ==> k in base || (k >= baseId && st.faqs[k].businessId == businessId)
  {
    ghost var rows := Rows(st.faqs, st.faqId);
    f := st.CreateFaq(n);
    FilterAppendMatch(rows, f, FaqOwner, businessId);
  }

  /** Creates the given FAQs in order. The business's FAQs, read in order,
      gain exactly the new rows; every row stored before stays as it was. */
  method AppendFaqs(st: MemStorage, businessId: int, items: seq<NewFaq>, ghost before: seq<Faq>)
    returns (created: seq<Faq>)
    requires st.Valid()
    requires forall i :: 0 <= i < |items| ==> items[i].businessId == businessId
    requires Filter(Rows(st.faqs, st.faqId), FaqOwner, businessId) == before
    modifies st`faqs, st`faqId
    ensures st.Valid()
    ensures |created| == |items| && st.faqId == old(st.faqId) + |items|
    ensures forall i :: 0 <= i < |items| ==> created[i] == FaqRow(items[i], old(st.faqId) + i)
    ensures Filter(Rows(st.faqs, st.faqId), FaqOwner, businessId) == before + created
    ensures forall k :: k in old(st.faqs) ==> k in st.faqs && st.faqs[k] == old(st.faqs)[k]
    ensures forall k :: k in st.faqs ==>
              k in old(st.faqs) || (k >= old(st.faqId) && st.faqs[k].businessId == businessId)
  {
    created := [];
    var i := 0;
    while i < |items|
      invariant 0 <= i <= |items|
      invariant st.Valid()
      invariant st.faqId == old(st.faqId) + i
      invariant |created| == i
      invariant forall j :: 0 <= j < i ==> created[j] == FaqRow(items[j], old(st.faqId) + j)
      invariant Filter(Rows(st.faqs, st.faqId), FaqOwner, businessId) == before + created
      invariant forall k :: k in old(st.faqs) ==> k in st.faqs && st.faqs[k] == old(st.faqs)[k]
      invariant forall k :: k in st.faqs ==>
                  k in old(st.faqs) || (k >= old(st.faqId) && st.faqs[k].businessId == businessId)
    {
      var f := AppendFaq(st, businessId, items[i], before + created, old(st.faqs), old(st.faqId));
      created := created + [f];
      i := i + 1;
    }
  }

  /** Deletes every FAQ of the business, then creates the given ones in order.
      Afterwards the business's FAQs are exactly the new ones, and the FAQs of
      every other business are as they were. */
  method ReplaceFaqs(st: MemStorage, businessId: int, items: seq<NewFaq>) returns (created: seq<Faq>)
    requires st.Valid()
    requires forall i :: 0 <= i < |items| ==> items[i].businessId == businessId
    modifies st`faqs, st`faqId
    ensures st.Valid()
    ensures |created| == |items|
    ensures forall i :: 0 <= i < |items| ==> created[i] == FaqRow(items[i], old(st.faqId) + i)
    ensures Filter(Rows(st.faqs, st.faqId), FaqOwner, businessId) == created
    ensures forall k :: k in old(st.faqs) && old(st.faqs)[k].businessId != businessId ==>
                        k in st.faqs && st.faqs[k] == old(st.faqs)[k]
    ensures forall k :: k in st.faqs ==>
                        (k >= old(st.faqId) && st.faqs[k].businessId == businessId)
                        || (k in old(st.faqs) && old(st.faqs)[k].businessId != businessId)
    ensures st.faqId == old(st.faqId) + |items|
    ensures forall b :: b != businessId ==>
              Filter(Rows(st.faqs, st.faqId), FaqOwner, b) == Filter(Rows(old(st.faqs), old(st.faqId)), FaqOwner, b)
  {
    ghost var m0, n0 := st.faqs, st.faqId;
    st.Keyed();
    st.DeleteFaqsByBusinessId(businessId);
    created := AppendFaqs(st, businessId, items, []);
    assert [] + created == created;
    forall b | b != businessId
      ensures Filter(Rows(st.faqs, st.faqId), FaqOwner, b) == Filter(Rows(m0, n0), FaqOwner, b)
    {
      FilterUnchanged(m0, st.faqs, FaqKey, n0, st.faqId, FaqOwner, b);
    }
  }

  /** The FAQ rows a submitted list creates for the business. */
  function FaqInserts(businessId: int, items: seq<FaqInput>): (n: seq<NewFaq>)
    ensures |n| == |items|
    ensures forall i :: 0 <= i < |items| ==> n[i] == NewFaq(businessId, items[i].question, items[i].answer)
  {
    seq(|items|, i requires 0 <= i < |items| => NewFaq(businessId, items[i].question, items[i].answer))
  }

  /** Validates every FAQ first, then replaces the business's FAQs with the
      submitted list and answers with the new rows, which are then exactly
      what a following read returns. */
  method UpdateFaqs(st: MemStorage, callerId: int, body: Option<seq<FaqInput>>) returns (reply: Reply<seq<Faq>>)
    requires st.Valid()
    modifies st`faqs, st`faqId
    ensures st.Valid()
    ensures reply.status == BadRequest <==> body.None? || exists i :: 0 <= i < |body.value| && !FaqValid(body.value[i])
    ensures reply.status == BadRequest || reply.status == NotFound ==>
              st.faqs == old(st.faqs) && st.faqId == old(st.faqId)
    ensures reply.status == NotFound <==> reply.status != BadRequest && old(OwnBusiness(st, callerId)).None?
    ensures reply.status == Ok ==>
              && reply.payload.Body?
              && |reply.payload.value| == |body.value|
              && (forall i :: 0 <= i < |body.value| ==>
                    reply.payload.value[i].question == body.value[i].question
                    && reply.payload.value[i].answer == body.value[i].answer
                    && reply.payload.value[i].businessId == old(OwnBusiness(st, callerId)).value.id)
              && Filter(Rows(st.faqs, st.faqId), FaqOwner, old(OwnBusiness(st, callerId)).value.id) == reply.payload.value
              && (forall k :: k in old(st.faqs) && old(st.faqs)[k].businessId != old(OwnBusiness(st, callerId)).value.id ==>
                    k in st.faqs && st.faqs[k] == old(st.faqs)[k])
              && (forall b :: b != old(OwnBusiness(st, callerId)).value.id ==>
                    Filter(Rows(st.faqs, st.faqId), FaqOwner, b) == Filter(Rows(old(st.faqs), old(st.faqId)), FaqOwner, b))
    ensures reply.status in {Ok, BadRequest, NotFound}
  {
    if body.None? {
      return Fail(BadRequest, VALIDATION_ERROR);
    }
    var i := 0;
    while i < |body.value|
      invariant 0 <= i <= |body.value|
      invariant forall j :: 0 <= j < i ==> FaqValid(body.value[j])
    {
      if !FaqValid(body.value[i]) {
        return Fail(BadRequest, VALIDATION_ERROR);
      }
      i := i + 1;
    }
    var business := st.GetBusinessByUserId(callerId);
    if business.None? {
      return Fail(NotFound, BUSINESS_NOT_FOUND);
    }
    var created := ReplaceFaqs(st, business.value.id, FaqInserts(business.value.id, body.value));
    reply := Reply(Ok, Body(created));
  }
}
