/** The booking handlers. A caller sees and changes only the bookings of the
    business they own: every lookup by id is checked against that business,
    and a foreign or unknown id is answered exactly like a missing one. */
module BookingsController {
  import opened Base
  import opened Schema
  import opened Tables
  import opened Storage
  import opened BusinessController

  const BOOKING_NOT_FOUND := "Booking not found"

  /** A booking body that has the expected shape. `None` in a field: the key
      is absent. `date`: `Some(None)` when a date was sent but does not read
      as one; a falsy date reads as absent. */
  datatype BookingForm = BookingForm(
    customer: Option<string>, service: Option<string>, date: Option<Option<Timestamp>>,
    status: Option<string>, phone: Option<Option<string>>, email: Option<Option<string>>,
    notes: Option<Option<string>>)

  /** The checks every booking body passes: a date that was sent reads as a
      date, and a status that was sent is a known one. */
  predicate FieldsValid(f: BookingForm) {
    && (f.date.Some? ==> f.date.value.Some?)
    && (f.status.Some? ==> ParseBookingStatus(f.status.value).Some?)
  }

  /** A new booking also needs a customer, a service and a date. */
  predicate CreateValid(f: BookingForm) {
    FieldsValid(f) && f.customer.Some? && f.service.Some? && f.date.Some?
  }

  function ParsedStatus(f: BookingForm): (r: Option<BookingStatus>)
    requires FieldsValid(f)
    ensures f.status.None? <==> r.None?
    ensures r.Some? ==> BookingStatusName(r.value) == f.status.value
  {
    if f.status.Some? then ParseBookingStatus(f.status.value) else None
  }

  /** The insert a valid body makes, owned by the caller's business whatever
      the body says. */
  function BookingInsert(businessId: int, f: BookingForm): (n: NewBooking)
    requires CreateValid(f)
    ensures n.businessId == businessId && n.customer == f.customer.value && n.service == f.service.value
    ensures n.date == f.date.value.value && n.status == ParsedStatus(f)
  {
    NewBooking(businessId, f.customer.value, Flatten(f.phone), Flatten(f.email), f.service.value,
               f.date.value.value, ParsedStatus(f), Flatten(f.notes))
  }

  /** The partial row the update handler builds, as written: the date key is
      always present, so a body without a date carries `date: undefined`. */
  function UpdatePatchAsWritten(businessId: int, f: BookingForm): (p: BookingPatch)
    requires FieldsValid(f)
    ensures p.businessId == Some(businessId) && p.date == Some(if f.date.Some? then f.date.value else None)
  {
    BookingPatch(Some(businessId), f.customer, f.phone, f.email, f.service,
                 Some(if f.date.Some? then f.date.value else None), ParsedStatus(f), f.notes)
  }

  /** The partial row an update evidently means: the caller's business as
      owner, and only the keys the body sent. */
  function UpdatePatch(businessId: int, f: BookingForm): (p: BookingPatch)
    requires FieldsValid(f)
    ensures p.businessId == Some(businessId) && p.date == f.date
    ensures p.customer == f.customer && p.service == f.service && p.status == ParsedStatus(f)
  {
    BookingPatch(Some(businessId), f.customer, f.phone, f.email, f.service, f.date, ParsedStatus(f), f.notes)
  }

  /** As written, an update that does not mention the date erases the
      stored date of the booking. */
  lemma UpdateWithoutDateErasesDate(b: Booking, f: BookingForm)
    requires FieldsValid(f) && f.date.None? && b.date.Some?
    ensures MergeBooking(b, UpdatePatchAsWritten(b.businessId, f)).date.None?
    ensures MergeBooking(b, UpdatePatchAsWritten(b.businessId, f)).date != b.date
  {
  }

  /** With the intended partial row, an update changes exactly the fields
      the body sent, and the booking stays with the business. */
  lemma UpdateChangesOnlySentFields(b: Booking, f: BookingForm)
    requires FieldsValid(f)
    ensures var r := MergeBooking(b, UpdatePatch(b.businessId, f));
            && r.id == b.id && r.businessId == b.businessId && r.createdAt == b.createdAt
            && r.date == (if f.date.Some? then f.date.value else b.date)
            && r.customer == (if f.customer.Some? then f.customer.value else b.customer)
            && r.service == (if f.service.Some? then f.service.value else b.service)
            && r.notes == (if f.notes.Some? then f.notes.value else b.notes)
            && (f.status.Some? ==> BookingStatusName(r.status) == f.status.value)
            && (f.status.None? ==> r.status == b.status)
  {
  }

  /** The caller's business owns the booking the path id names. */
  ghost predicate OwnsBooking(st: MemStorage, callerId: int, pathId: Option<int>)
    requires st.Valid()
    reads st
  {
    && OwnBusiness(st, callerId).Some?
    && pathId.Some? && pathId.value in st.bookings
    && st.bookings[pathId.value].businessId == OwnBusiness(st, callerId).value.id
  }

  /** Answers with the bookings of the caller's business, oldest first. */
  method GetBookings(st: MemStorage, callerId: int) returns (reply: Reply<seq<Booking>>)
    requires st.Valid()
    ensures OwnBusiness(st, callerId).None? <==> reply == Fail(NotFound, BUSINESS_NOT_FOUND)
    ensures OwnBusiness(st, callerId).Some? ==>
              reply == Reply(Ok, Body(Filter(Rows(st.bookings, st.bookingId), BookingOwner, OwnBusiness(st, callerId).value.id)))
    ensures reply.status == Ok ==> forall b :: b in reply.payload.value ==>
              b.id in st.bookings && st.bookings[b.id] == b && b.businessId == OwnBusiness(st, callerId).value.id
  {
    var business := st.GetBusinessByUserId(callerId);
    if business.None? {
      return Fail(NotFound, BUSINESS_NOT_FOUND);
    }
    var bookings := st.GetBookingsByBusinessId(business.value.id);
    reply := Reply(Ok, Body(bookings));
  }

  /** Answers with one booking of the caller's business; any other id is 404. */
  method GetBookingById(st: MemStorage, callerId: int, pathId: Option<int>) returns (reply: Reply<Booking>)
    requires st.Valid()
    ensures OwnBusiness(st, callerId).None? ==> reply == Fail(NotFound, BUSINESS_NOT_FOUND)
    ensures OwnBusiness(st, callerId).Some? && !OwnsBooking(st, callerId, pathId) ==> reply == Fail(NotFound, BOOKING_NOT_FOUND)
    ensures OwnsBooking(st, callerId, pathId) <==> reply.status == Ok
    ensures reply.status == Ok ==> reply.payload == Body(st.bookings[pathId.value])
  {
    var business := st.GetBusinessByUserId(callerId);
    if business.None? {
      return Fail(NotFound, BUSINESS_NOT_FOUND);
    }
    if pathId.None? {
      return Fail(NotFound, BOOKING_NOT_FOUND);
    }
    var booking := st.GetBookingById(pathId.value);
    if booking.None? || booking.value.businessId != business.value.id {
      return Fail(NotFound, BOOKING_NOT_FOUND);
    }
    reply := Reply(Ok, Body(booking.value));
  }

  /** Creates a booking for the caller's business. The business is looked up
      before the body is checked, so a caller without a business gets 404
      even for a bad body. */
  method CreateBooking(st: MemStorage, callerId: int, body: Option<BookingForm>, now: Timestamp)
    returns (reply: Reply<Booking>)
    requires st.Valid()
    modifies st`bookings, st`bookingId
    ensures st.Valid()
    ensures old(OwnBusiness(st, callerId)).None? ==> reply == Fail(NotFound, BUSINESS_NOT_FOUND)
    ensures old(OwnBusiness(st, callerId)).Some? && (body.None? || !CreateValid(body.value)) ==>
              reply == Fail(BadRequest, VALIDATION_ERROR)
    ensures reply.status != Created ==> st.bookings == old(st.bookings) && st.bookingId == old(st.bookingId)
    ensures old(OwnBusiness(st, callerId)).Some? && body.Some? && CreateValid(body.value) ==>
              var b := BookingRow(BookingInsert(old(OwnBusiness(st, callerId)).value.id, body.value), old(st.bookingId), now);
              reply == Reply(Created, Body(b)) && st.bookings == old(st.bookings)[b.id := b]
  {
    var business := st.GetBusinessByUserId(callerId);
    if business.None? {
      return Fail(NotFound, BUSINESS_NOT_FOUND);
    }
    if body.None? || !CreateValid(body.value) {
      return Fail(BadRequest, VALIDATION_ERROR);
    }
    var b := st.CreateBooking(BookingInsert(business.value.id, body.value), now);
    reply := Reply(Created, Body(b));
  }

  /** Updates one booking of the caller's business with the fields the body
      sends; the booking stays with that business. */
  method UpdateBooking(st: MemStorage, callerId: int, pathId: Option<int>, body: Option<BookingForm>)
    returns (reply: Reply<Booking>)
    requires st.Valid()
    modifies st`bookings
    ensures st.Valid()
    ensures old(OwnBusiness(st, callerId)).None? ==> reply == Fail(NotFound, BUSINESS_NOT_FOUND)
    ensures old(OwnBusiness(st, callerId)).Some? && !old(OwnsBooking(st, callerId, pathId)) ==>
              reply == Fail(NotFound, BOOKING_NOT_FOUND)
    ensures old(OwnsBooking(st, callerId, pathId)) && (body.None? || !FieldsValid(body.value)) ==>
              reply == Fail(BadRequest, VALIDATION_ERROR)
    ensures reply.status != Ok ==> st.bookings == old(st.bookings)
    ensures reply.status == Ok <==> old(OwnsBooking(st, callerId, pathId)) && body.Some? && FieldsValid(body.value)
    ensures reply.status == Ok ==>
              var old_ := old(st.bookings)[pathId.value];
              var b := MergeBooking(old_, UpdatePatch(old_.businessId, body.value));
              reply == Reply(Ok, Body(b)) && st.bookings == old(st.bookings)[pathId.value := b]
              && b.businessId == old_.businessId
  {
    var business := st.GetBusinessByUserId(callerId);
    if business.None? {
      return Fail(NotFound, BUSINESS_NOT_FOUND);
    }
    if pathId.None? {
      return Fail(NotFound, BOOKING_NOT_FOUND);
    }
    var booking := st.GetBookingById(pathId.value);
    if booking.None? || booking.value.businessId != business.value.id {
      return Fail(NotFound, BOOKING_NOT_FOUND);
    }
    if body.None? || !FieldsValid(body.value) {
      return Fail(BadRequest, VALIDATION_ERROR);
    }
    var updated := st.UpdateBooking(pathId.value, UpdatePatch(business.value.id, body.value));
    reply := Reply(Ok, Body(updated.value));
  }

  /** Deletes one booking of the caller's business and nothing else. */
  method DeleteBooking(st: MemStorage, callerId: int, pathId: Option<int>) returns (reply: Reply<()>)
    requires st.Valid()
    modifies st`bookings
    ensures st.Valid()
    ensures old(OwnBusiness(st, callerId)).None? ==> reply == Fail(NotFound, BUSINESS_NOT_FOUND)
    ensures old(OwnBusiness(st, callerId)).Some? && !old(OwnsBooking(st, callerId, pathId)) ==>
              reply == Fail(NotFound, BOOKING_NOT_FOUND)
    ensures reply.status == Ok <==> old(OwnsBooking(st, callerId, pathId))
    ensures reply.status == Ok ==>
              reply == Notice(Ok, "Booking deleted successfully") && st.bookings == old(st.bookings) - {pathId.value}
    ensures reply.status != Ok ==> st.bookings == old(st.bookings)
  {
    var business := st.GetBusinessByUserId(callerId);
    if business.None? {
      return Fail(NotFound, BUSINESS_NOT_FOUND);
    }
    if pathId.None? {
      return Fail(NotFound, BOOKING_NOT_FOUND);
    }
    var booking := st.GetBookingById(pathId.value);
    if booking.None? || booking.value.businessId != business.value.id {
      return Fail(NotFound, BOOKING_NOT_FOUND);
    }
    var _ := st.DeleteBooking(pathId.value);
    reply := Notice(Ok, "Booking deleted successfully");
  }
}
