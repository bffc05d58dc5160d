/** Opening hours as the handlers present and replace them: the default
    week, the formatter that lays stored rows over it, and the
    delete-then-recreate step both hours handlers perform. */
module WeeklyHours {
  import opened Base
  import opened Schema
  import opened Text
  import opened Tables
  import opened Storage

  /** The seven day keys, in the order the handlers list and create them. */
  const WEEKDAYS: seq<string> := ["monday", "tuesday", "wednesday", "thursday", "friday", "saturday", "sunday"]

  /** One day as the hours endpoints show it. */
  datatype DayHours = DayHours(open: string, close: string, isOpen: bool)

  /** One day as a client submits it. */
  datatype DayInput = DayInput(open: string, close: string, isOpen: bool)

  const OPEN_DAY := DayHours("09:00", "17:00", true)
  const CLOSED_DAY := DayHours("10:00", "15:00", false)

  /** The week shown before any stored row is applied: weekdays open
      09:00-17:00, the weekend closed with 10:00-15:00. */
  function DefaultWeek(): (w: map<string, DayHours>)
    ensures forall d :: d in w <==> d in WEEKDAYS
    ensures forall i :: 0 <= i < 5 ==> w[WEEKDAYS[i]] == OPEN_DAY
    ensures forall i :: 5 <= i < 7 ==> w[WEEKDAYS[i]] == CLOSED_DAY
  {
    map["monday" := OPEN_DAY, "tuesday" := OPEN_DAY, "wednesday" := OPEN_DAY,
        "thursday" := OPEN_DAY, "friday" := OPEN_DAY,
        "saturday" := CLOSED_DAY, "sunday" := CLOSED_DAY]
  }

  /** How one stored row is shown. A stored time is shown as it is; a
      missing or empty one falls back to the default time of an open or a
      closed day; a missing open flag shows as closed. */
  function DayEntry(h: Hours): (d: DayHours)
    ensures d.isOpen <==> h.isOpen == Some(true)
    ensures h.openTime.Some? && h.openTime.value != "" ==> d.open == h.openTime.value
    ensures h.closeTime.Some? && h.closeTime.value != "" ==> d.close == h.closeTime.value
    ensures (h.openTime.None? || h.openTime.value == "") ==> d.open == (if d.isOpen then OPEN_DAY else CLOSED_DAY).open
    ensures (h.closeTime.None? || h.closeTime.value == "") ==> d.close == (if d.isOpen then OPEN_DAY else CLOSED_DAY).close
  {
    var open := h.isOpen == Some(true);
    DayHours(
      if h.openTime.Some? && h.openTime.value != "" then h.openTime.value else if open then "09:00" else "10:00",
      if h.closeTime.Some? && h.closeTime.value != "" then h.closeTime.value else if open then "17:00" else "15:00",
      h.isOpen.Some? && h.isOpen.value)
  }

  /** The default week with each stored row, in order, written over the
      entry of its lower-cased day. */
  function FormatHours(rows: seq<Hours>): (w: map<string, DayHours>)
    ensures DefaultWeek().Keys <= w.Keys
    decreases |rows|
  {
    if rows == [] then DefaultWeek()
    else
      var last := rows[|rows| - 1];
      FormatHours(rows[..|rows| - 1])[ToLower(last.dayOfWeek) := DayEntry(last)]
  }

  /** The last row whose lower-cased day is `d`. */
  function LastRowFor(rows: seq<Hours>, d: string): (r: Option<Hours>)
    ensures r.Some? ==> exists i :: 0 <= i < |rows| && rows[i] == r.value && ToLower(rows[i].dayOfWeek) == d
                          && forall j :: i < j < |rows| ==> ToLower(rows[j].dayOfWeek) != d
    ensures r.None? <==> forall i :: 0 <= i < |rows| ==> ToLower(rows[i].dayOfWeek) != d
    decreases |rows|
  {
    if rows == [] then None
    else if ToLower(rows[|rows| - 1].dayOfWeek) == d then Some(rows[|rows| - 1])
    else LastRowFor(rows[..|rows| - 1], d)
  }

  /** A day is listed when it is one of the seven or some row names it; its
      entry comes from the last row naming it, else from the default week. */
  lemma {:induction false} FormatHoursAt(rows: seq<Hours>, d: string)
    ensures d in FormatHours(rows) <==> d in DefaultWeek() || LastRowFor(rows, d).Some?
    ensures d in FormatHours(rows) ==>
              FormatHours(rows)[d] == (if LastRowFor(rows, d).Some? then DayEntry(LastRowFor(rows, d).value) else DefaultWeek()[d])
    decreases |rows|
  {
    if rows != [] {
      FormatHoursAt(rows[..|rows| - 1], d);
    }
  }

  /** The seven day keys are already lower case. */
  lemma WeekdaysLowercase()
    ensures forall i :: 0 <= i < 7 ==> ToLower(WEEKDAYS[i]) == WEEKDAYS[i]
  {
    forall i | 0 <= i < 7 ensures ToLower(WEEKDAYS[i]) == WEEKDAYS[i] {
      ToLowerOfLower(WEEKDAYS[i]);
    }
  }

  lemma WeekdaysDistinct()
    ensures forall i, j :: 0 <= i < j < 7 ==> WEEKDAYS[i] != WEEKDAYS[j]
  {
    forall i, j | 0 <= i < j < 7 ensures WEEKDAYS[i] != WEEKDAYS[j] {
      if i == 0 { assert WEEKDAYS[i][..2] == "mo"; }
      else if i == 1 { assert WEEKDAYS[i][..2] == "tu"; }
      else if i == 2 { assert WEEKDAYS[i][..2] == "we"; }
      else if i == 3 { assert WEEKDAYS[i][..2] == "th"; }
      else if i == 4 { assert WEEKDAYS[i][..2] == "fr"; }
      else if i == 5 { assert WEEKDAYS[i][..2] == "sa"; }
      if j == 1 { assert WEEKDAYS[j][..2] == "tu"; }
      else if j == 2 { assert WEEKDAYS[j][..2] == "we"; }
      else if j == 3 { assert WEEKDAYS[j][..2] == "th"; }
      else if j == 4 { assert WEEKDAYS[j][..2] == "fr"; }
      else if j == 5 { assert WEEKDAYS[j][..2] == "sa"; }
      else if j == 6 { assert WEEKDAYS[j][..2] == "su"; }
    }
  }

  /** In a week of rows, one per day from Monday, the last row naming a day
      is that day's own row. */
  lemma LastRowOfWeek(rows: seq<Hours>, i: int)
    requires |rows| == 7 && 0 <= i < 7
    requires forall j :: 0 <= j < 7 ==> ToLower(rows[j].dayOfWeek) == WEEKDAYS[j]
    ensures LastRowFor(rows, WEEKDAYS[i]) == Some(rows[i])
  {
    WeekdaysDistinct();
    var r := LastRowFor(rows, WEEKDAYS[i]);
    assert r.Some?;
    var k :| 0 <= k < |rows| && rows[k] == r.value && ToLower(rows[k].dayOfWeek) == WEEKDAYS[i]
             && forall j :: k < j < |rows| ==> ToLower(rows[j].dayOfWeek) != WEEKDAYS[i];
    assert WEEKDAYS[k] == WEEKDAYS[i];
    assert k == i;
  }

  /** When the rows are exactly one per day, Monday to Sunday, each day shows
      its own row and nothing else is listed. */
  lemma FormatFullWeek(rows: seq<Hours>)
    requires |rows| == 7
    requires forall i :: 0 <= i < 7 ==> ToLower(rows[i].dayOfWeek) == WEEKDAYS[i]
    ensures FormatHours(rows).Keys == DefaultWeek().Keys
    ensures forall i :: 0 <= i < 7 ==> FormatHours(rows)[WEEKDAYS[i]] == DayEntry(rows[i])
  {
    forall d | d in FormatHours(rows) ensures d in DefaultWeek() {
      FormatHoursAt(rows, d);
      if LastRowFor(rows, d).Some? {
        var i :| 0 <= i < |rows| && ToLower(rows[i].dayOfWeek) == d;
        assert d == WEEKDAYS[i];
      }
    }
    forall i | 0 <= i < 7 ensures FormatHours(rows)[WEEKDAYS[i]] == DayEntry(rows[i]) {
      FormatHoursAt(rows, WEEKDAYS[i]);
      LastRowOfWeek(rows, i);
    }
  }

  /** The formatting loop: start from the default week and write each row
      over its day. */
  method FormatWeek(rows: seq<Hours>) returns (w: map<string, DayHours>)
    ensures w == FormatHours(rows)
  {
    w := DefaultWeek();
    var i := 0;
    while i < |rows|
      invariant 0 <= i <= |rows|
      invariant w == FormatHours(rows[..i])
    {
      assert rows[..i + 1][..i] == rows[..i];
      w := w[ToLower(rows[i].dayOfWeek) := DayEntry(rows[i])];
      i := i + 1;
    }
    assert rows[..|rows|] == rows;
  }

  /** Creates one row of the business: the business's rows, read in order,
      gain the new row at the end, and every row stored before `baseId` was
      handed out stays as it was. */
  method AppendHours(st: MemStorage, businessId: int, n: NewHours, ghost before: seq<Hours>,
                    ghost base: map<int, Hours>, ghost baseId: int) returns (h: Hours)
    requires st.Valid() && n.businessId == businessId
    requires Filter(Rows(st.hoursOfOperation, st.hoursId), HoursOwner, businessId) == before
    requires baseId <= st.hoursId
    requires forall k :: k in base ==> k in st.hoursOfOperation && st.hoursOfOperation[k] == base[k]
    requires forall k :: k in st.hoursOfOperation ==>
               k in base || (k >= baseId && st.hoursOfOperation[k].businessId == businessId)
    modifies st`hoursOfOperation, st`hoursId
    ensures st.Valid()
    ensures h == HoursRow(n, old(st.hoursId)) && st.hoursId == old(st.hoursId) + 1
    ensures Filter(Rows(st.hoursOfOperation, st.hoursId), HoursOwner, businessId) == before + [h]
    ensures forall k :: k in base ==> k in st.hoursOfOperation && st.hoursOfOperation[k] == base[k]
    ensures forall k :: k in st.hoursOfOperation ==>
              k in base || (k >= baseId && st.hoursOfOperation[k].businessId == businessId)
  {
    ghost var rows := Rows(st.hoursOfOperation, st.hoursId);
    h := st.CreateHours(n);
    FilterAppendMatch(rows, h, HoursOwner, businessId);
  }

  /** Creates the given rows in order. The business's rows, read in order,
      gain exactly the new rows; every row stored before stays as it was. */
  method AppendAllHours(st: MemStorage, businessId: int, week: seq<NewHours>, ghost before: seq<Hours>)
    returns (created: seq<Hours>)
    requires st.Valid()
    requires forall i :: 0 <= i < |week| ==> week[i].businessId == businessId
    requires Filter(Rows(st.hoursOfOperation, st.hoursId), HoursOwner, businessId) == before
    modifies st`hoursOfOperation, st`hoursId
    ensures st.Valid()
    ensures |created| == |week| && st.hoursId == old(st.hoursId) + |week|
    ensures forall i :: 0 <= i < |week| ==> created[i] == HoursRow(week[i], old(st.hoursId) + i)
    ensures Filter(Rows(st.hoursOfOperation, st.hoursId), HoursOwner, businessId) == before + created
    ensures forall k :: k in old(st.hoursOfOperation) ==>
                        k in st.hoursOfOperation && st.hoursOfOperation[k] == old(st.hoursOfOperation)[k]
    ensures forall k :: k in st.hoursOfOperation ==>
              k in old(st.hoursOfOperation) || (k >= old(st.hoursId) && st.hoursOfOperation[k].businessId == businessId)
  {
    created := [];
    var i := 0;
    while i < |week|
      invariant 0 <= i <= |week|
      invariant st.Valid()
      invariant st.hoursId == old(st.hoursId) + i
      invariant |created| == i
      invariant forall j :: 0 <= j < i ==> created[j] == HoursRow(week[j], old(st.hoursId) + j)
      invariant Filter(Rows(st.hoursOfOperation, st.hoursId), HoursOwner, businessId) == before + created
      invariant forall k :: k in old(st.hoursOfOperation) ==>
                           k in st.hoursOfOperation && st.hoursOfOperation[k] == old(st.hoursOfOperation)[k]
      invariant forall k :: k in st.hoursOfOperation ==>
                  k in old(st.hoursOfOperation) || (k >= old(st.hoursId) && st.hoursOfOperation[k].businessId == businessId)
    {
      var h := AppendHours(st, businessId, week[i], before + created, old(st.hoursOfOperation), old(st.hoursId));
      created := created + [h];
      i := i + 1;
    }
  }

  /** Deletes every hours row of the business, then creates the given rows in
      order. Afterwards the business's rows are exactly the new ones, and the
      rows of every other business are as they were. */
  method ReplaceHours(st: MemStorage, businessId: int, week: seq<NewHours>) returns (created: seq<Hours>)
    requires st.Valid()
    requires forall i :: 0 <= i < |week| ==> week[i].businessId == businessId
    modifies st`hoursOfOperation, st`hoursId
    ensures st.Valid()
    ensures |created| == |week|
    ensures forall i :: 0 <= i < |week| ==> created[i] == HoursRow(week[i], old(st.hoursId) + i)
    ensures Filter(Rows(st.hoursOfOperation, st.hoursId), HoursOwner, businessId) == created
    ensures forall k :: k in old(st.hoursOfOperation) && old(st.hoursOfOperation)[k].businessId != businessId ==>
                        k in st.hoursOfOperation && st.hoursOfOperation[k] == old(st.hoursOfOperation)[k]
    ensures forall k :: k in st.hoursOfOperation ==>
                        (k >= old(st.hoursId) && st.hoursOfOperation[k].businessId == businessId)
                        || (k in old(st.hoursOfOperation) && old(st.hoursOfOperation)[k].businessId != businessId)
    ensures st.hoursId == old(st.hoursId) + |week|
    ensures forall b :: b != businessId ==>
              Filter(Rows(st.hoursOfOperation, st.hoursId), HoursOwner, b)
              == Filter(Rows(old(st.hoursOfOperation), old(st.hoursId)), HoursOwner, b)
  {
    ghost var m0, n0 := st.hoursOfOperation, st.hoursId;
    st.Keyed();
    st.DeleteHoursByBusinessId(businessId);
    created := AppendAllHours(st, businessId, week, []);
    assert [] + created == created;
    forall b | b != businessId
      ensures Filter(Rows(st.hoursOfOperation, st.hoursId), HoursOwner, b) == Filter(Rows(m0, n0), HoursOwner, b)
    {
      FilterUnchanged(m0, st.hoursOfOperation, HoursKey, n0, st.hoursId, HoursOwner, b);
    }
  }
}
