/** The call-log handlers: listing and reading the calls of the caller's
    business, logging a call, the workflow webhook that classifies or ends a
    call, and the dashboard figures. */
module CallsController {
  import opened Base
  import opened Schema
  import opened Text
  import opened Tables
  import opened Storage
  import opened BusinessController

  const CALL_NOT_FOUND := "Call not found"

  /** The caller's business owns the call the path id names. */
  ghost predicate OwnsCall(st: MemStorage, callerId: int, pathId: Option<int>)
    requires st.Valid()
    reads st
  {
    && OwnBusiness(st, callerId).Some?
    && pathId.Some? && pathId.value in st.calls
    && st.calls[pathId.value].businessId == OwnBusiness(st, callerId).value.id
  }

  /** Answers with the calls of the caller's business, oldest first. */
  method GetCalls(st: MemStorage, callerId: int) returns (reply: Reply<seq<Call>>)
    requires st.Valid()
    ensures OwnBusiness(st, callerId).None? <==> reply == Fail(NotFound, BUSINESS_NOT_FOUND)
    ensures OwnBusiness(st, callerId).Some? ==>
              reply == Reply(Ok, Body(Filter(Rows(st.calls, st.callId), CallOwner, OwnBusiness(st, callerId).value.id)))
    ensures reply.status == Ok ==> forall c :: c in reply.payload.value ==>
              c.id in st.calls && st.calls[c.id] == c && c.businessId == OwnBusiness(st, callerId).value.id
  {
    var business := st.GetBusinessByUserId(callerId);
    if business.None? {
      return Fail(NotFound, BUSINESS_NOT_FOUND);
    }
    var calls := st.GetCallsByBusinessId(business.value.id);
    reply := Reply(Ok, Body(calls));
  }

  /** Answers with one call of the caller's business; any other id is 404. */
  method GetCallById(st: MemStorage, callerId: int, pathId: Option<int>) returns (reply: Reply<Call>)
    requires st.Valid()
    ensures OwnBusiness(st, callerId).None? ==> reply == Fail(NotFound, BUSINESS_NOT_FOUND)
    ensures OwnBusiness(st, callerId).Some? && !OwnsCall(st, callerId, pathId) ==> reply == Fail(NotFound, CALL_NOT_FOUND)
    ensures OwnsCall(st, callerId, pathId) <==> reply.status == Ok
    ensures reply.status == Ok ==> reply.payload == Body(st.calls[pathId.value])
  {
    var business := st.GetBusinessByUserId(callerId);
    if business.None? {
      return Fail(NotFound, BUSINESS_NOT_FOUND);
    }
    if pathId.None? {
      return Fail(NotFound, CALL_NOT_FOUND);
    }
    var call := st.GetCallById(pathId.value);
    if call.None? || call.value.businessId != business.value.id {
      return Fail(NotFound, CALL_NOT_FOUND);
    }
    reply := Reply(Ok, Body(call.value));
  }

  /** A call body that has the expected shape; `None`: the key is absent,
      `Some(None)`: it is null. */
  datatype CallForm = CallForm(
    businessId: Option<int>, status: Option<string>,
    caller: Option<Option<string>>, phone: Option<Option<string>>, callType: Option<Option<string>>,
    startTime: Option<Timestamp>, recording: Option<Option<string>>, transcript: Option<Option<string>>)

  /** A call must name a business and one of the four call statuses. */
  predicate CallValid(f: CallForm) {
    f.businessId.Some? && f.status.Some? && ParseCallStatus(f.status.value).Some?
  }

  /** The insert a valid body makes, owned by the caller's business whatever
      the body names. */
  function CallInsert(businessId: int, f: CallForm): (n: NewCall)
    requires CallValid(f)
    ensures n.businessId == businessId && CallStatusName(n.status) == f.status.value
    ensures n.startTime == f.startTime
  {
    NewCall(businessId, Flatten(f.caller), Flatten(f.phone), Flatten(f.callType), f.startTime,
            ParseCallStatus(f.status.value).value, Flatten(f.recording), Flatten(f.transcript))
  }

  /** Logs a call for the caller's business. The body is checked before the
      business is looked up. */
  method CreateCall(st: MemStorage, callerId: int, body: Option<CallForm>, now: Timestamp)
    returns (reply: Reply<Call>)
    requires st.Valid()
    modifies st`calls, st`callId
    ensures st.Valid()
    ensures body.None? || !CallValid(body.value) ==> reply == Fail(BadRequest, VALIDATION_ERROR)
    ensures body.Some? && CallValid(body.value) && old(OwnBusiness(st, callerId)).None? ==>
              reply == Fail(NotFound, BUSINESS_NOT_FOUND)
    ensures body.Some? && CallValid(body.value) && old(OwnBusiness(st, callerId)).Some? ==>
              var c := CallRow(CallInsert(old(OwnBusiness(st, callerId)).value.id, body.value), old(st.callId), now);
              && reply == Reply(Created, Body(c)) && st.calls == old(st.calls)[c.id := c]
              && c.endTime.None? && c.duration == Some("0:00")
    ensures reply.status != Created ==> st.calls == old(st.calls) && st.callId == old(st.callId)
  {
    if body.None? || !CallValid(body.value) {
      return Fail(BadRequest, VALIDATION_ERROR);
    }
    var business := st.GetBusinessByUserId(callerId);
    if business.None? {
      return Fail(NotFound, BUSINESS_NOT_FOUND);
    }
    var c := st.CreateCall(CallInsert(business.value.id, body.value), now);
    reply := Reply(Created, Body(c));
  }

  // --------------------------------------------------------------- duration

  /** JavaScript's `%`: the remainder takes the sign of the dividend. */
  function JsRem(a: int, m: int): (r: int)
    requires m > 0
    ensures a >= 0 ==> 0 <= r < m && r == a % m
    ensures a < 0 ==> -m < r <= 0
  {
    if a >= 0 then a % m else -((-a) % m)
  }

  /** Minutes and seconds of a duration in milliseconds, each rounded down
      with `Math.floor`, which Dafny's `/` by a positive divisor is. */
  function Minutes(ms: int): int { ms / 60000 }
  function Seconds(ms: int): int { JsRem(ms, 60000) / 1000 }

  /** `${minutes}:${seconds.toString().padStart(2, '0')}`. */
  function DurationText(ms: int): (s: string)
    ensures ':' in s
  {
    IntToString(Minutes(ms)) + ":" + PadStart(IntToString(Seconds(ms)), 2, '0')
  }

  /** For a non-negative duration the text is the whole minutes, a colon
      and the seconds left over, in two digits. */
  lemma DurationTextOfNat(ms: int)
    requires ms >= 0
    ensures DurationText(ms) == NatToString(ms / 60000) + ":" + PadStart(NatToString((ms % 60000) / 1000), 2, '0')
  {
  }

  /** Both numbers of the text of a non-negative duration read back, the
      seconds as two digits below 60, and together they give the duration
      in whole seconds. */
  lemma DurationReadsBack(ms: int)
    requires ms >= 0
    ensures var m: nat := ms / 60000;
            var sec: nat := (ms % 60000) / 1000;
            && sec < 60
            && |PadStart(NatToString(sec), 2, '0')| == 2
            && ParseNat(NatToString(m)) == Some(m)
            && ParseNat(PadStart(NatToString(sec), 2, '0')) == Some(sec)
            && m * 60 + sec == ms / 1000
  {
    var m: nat := ms / 60000;
    var sec: nat := (ms % 60000) / 1000;
    ParseNatToString(m);
    PadTwoDigits(sec);
    assert ms == m * 60000 + ms % 60000;
    assert ms % 60000 == sec * 1000 + (ms % 60000) % 1000;
  }

  // ---------------------------------------------------------------- webhook

  /** The `data` object of a webhook request; `None` in a field: absent. */
  datatype WebhookData = WebhookData(callType: Option<string>, transcript: Option<string>, recording: Option<string>)

  /** The partial row `update_call_type` writes: the type key is always
      present, so an absent type clears the stored one. */
  function TypePatch(d: WebhookData): (p: CallPatch)
    ensures p.callType == Some(d.callType)
    ensures p.endTime.None? && p.duration.None? && p.status.None? && p.recording.None? && p.transcript.None?
  {
    CallPatch(Some(d.callType), None, None, None, None, None)
  }

  /** The partial row `end_call` writes: the end time, the duration since
      the start, status completed, and the transcript and recording sent. */
  function EndPatch(c: Call, d: WebhookData, now: Timestamp): (p: CallPatch)
    ensures p.endTime == Some(Some(now)) && p.status == Some(CallCompleted)
    ensures p.duration == Some(Some(DurationText(now - c.startTime)))
    ensures p.transcript == Some(d.transcript) && p.recording == Some(d.recording)
    ensures p.callType.None?
  {
    CallPatch(None, Some(Some(now)), Some(Some(DurationText(now - c.startTime))), Some(CallCompleted),
              Some(d.recording), Some(d.transcript))
  }

  /** The workflow webhook. It needs no session: any request naming a call
      may classify or end it. A missing `data` object fails as a property
      read on undefined (500) before anything is written. */
  method N8nWebhook(st: MemStorage, callId: Option<int>, action: string, data: Option<WebhookData>, now: Timestamp)
    returns (reply: Reply<()>)
    requires st.Valid()
    modifies st`calls
    ensures st.Valid()
    ensures callId.None? || callId.value !in old(st.calls) ==> reply == Fail(NotFound, CALL_NOT_FOUND)
    ensures callId.Some? && callId.value in old(st.calls) ==>
              var c := old(st.calls)[callId.value];
              && (action != "update_call_type" && action != "end_call" ==> reply == Fail(BadRequest, "Invalid action"))
              && (action in {"update_call_type", "end_call"} && data.None? ==> reply == Fail(ServerError, INTERNAL_ERROR))
              && (action == "update_call_type" && data.Some? ==>
                    reply == Notice(Ok, "Webhook processed successfully")
                    && st.calls == old(st.calls)[c.id := MergeCall(c, TypePatch(data.value))])
              && (action == "end_call" && data.Some? ==>
                    reply == Notice(Ok, "Webhook processed successfully")
                    && st.calls == old(st.calls)[c.id := MergeCall(c, EndPatch(c, data.value, now))])
    ensures reply.status != Ok ==> st.calls == old(st.calls)
  {
    if callId.None? {
      return Fail(NotFound, CALL_NOT_FOUND);
    }
    var call := st.GetCallById(callId.value);
    if call.None? {
      return Fail(NotFound, CALL_NOT_FOUND);
    }
    if action == "update_call_type" {
      if data.None? {
        return Fail(ServerError, INTERNAL_ERROR);
      }
      var _ := st.UpdateCall(call.value.id, TypePatch(data.value));
    } else if action == "end_call" {
      if data.None? {
        return Fail(ServerError, INTERNAL_ERROR);
      }
      var _ := st.UpdateCall(call.value.id, EndPatch(call.value, data.value, now));
    } else {
      return Fail(BadRequest, "Invalid action");
    }
    reply := Notice(Ok, "Webhook processed successfully");
  }

  /** Ending a call keeps who called, when and why, marks it completed at
      the end time and records the duration since the start. */
  lemma EndedCallRecordsDuration(c: Call, d: WebhookData, now: Timestamp)
    ensures var r := MergeCall(c, EndPatch(c, d, now));
            && r.id == c.id && r.businessId == c.businessId && r.startTime == c.startTime
            && r.caller == c.caller && r.phone == c.phone && r.callType == c.callType
            && r.status == CallCompleted && r.endTime == Some(now)
            && r.duration == Some(DurationText(now - c.startTime))
            && r.transcript == d.transcript && r.recording == d.recording
  {
  }

  // -------------------------------------------------------------- dashboard

  /** The dashboard figures. */
  datatype DashboardStats = DashboardStats(totalCalls: nat, monthlyBookings: nat, monthlyRevenue: string)

  /** A booking counts for the month when its date is on or after the first
      day of the month; a booking without a date reads as an invalid date,
      which compares false. */
  predicate InMonth(b: Booking, monthStart: Timestamp) {
    b.date.Some? && b.date.value >= monthStart
  }

  /** `"$" + (n * 150).toString()`: 150 per booking. */
  function Revenue(n: nat): (s: string)
    ensures |s| >= 2 && s[0] == '$'
  {
    "$" + NatToString(n * 150)
  }

  /** The revenue text reads back as 150 per booking. */
  lemma RevenueReadsBack(n: nat)
    ensures ParseNat(Revenue(n)[1..]) == Some(n * 150)
  {
    assert Revenue(n)[1..] == NatToString(n * 150);
    ParseNatToString(n * 150);
  }

  /** Counts the calls of the caller's business and the bookings dated in
      the current month, whose first day is a parameter. */
  method GetDashboardStats(st: MemStorage, callerId: int, monthStart: Timestamp)
    returns (reply: Reply<DashboardStats>)
    requires st.Valid()
    ensures OwnBusiness(st, callerId).None? <==> reply == Fail(NotFound, BUSINESS_NOT_FOUND)
    ensures OwnBusiness(st, callerId).Some? ==>
              var id := OwnBusiness(st, callerId).value.id;
              var bookings := Filter(Rows(st.bookings, st.bookingId), BookingOwner, id);
              var monthly := Filter(bookings, b => InMonth(b, monthStart), true);
              && reply.status == Ok && reply.payload.Body?
              && reply.payload.value.totalCalls == |Filter(Rows(st.calls, st.callId), CallOwner, id)|
              && reply.payload.value.monthlyBookings == |monthly| <= |bookings|
              && reply.payload.value.monthlyRevenue == Revenue(|monthly|)
  {
    var business := st.GetBusinessByUserId(callerId);
    if business.None? {
      return Fail(NotFound, BUSINESS_NOT_FOUND);
    }
    var calls := st.GetCallsByBusinessId(business.value.id);
    var bookings := st.GetBookingsByBusinessId(business.value.id);
    var monthly := FilterRows(bookings, b => InMonth(b, monthStart), true);
    FilterAllMatch(bookings, b => InMonth(b, monthStart), true);
    reply := Reply(Ok, Body(DashboardStats(|calls|, |monthly|, Revenue(|monthly|))));
  }
}
