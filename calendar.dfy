/** The availability calendar: the list of booked days handed to the date
    picker as excluded dates, and the picker's own start/end selection.
    Days are day numbers (one integer per calendar day). */
module Calendar {
  import opened Common

  /** A booking as the calendar reads it; `dateFrom` and `dateTo` may be missing. */
  datatype Booking = Booking(dateFrom: Option<int>, dateTo: Option<int>)

  /** The `{ start, end }` object passed to `onDateChange`. */
  datatype DateRange = DateRange(start: Option<int>, end: Option<int>)

  /** A booking has both dates and `d` lies in its inclusive range. */
  predicate Covers(b: Booking, d: int)
  {
    b.dateFrom.Some? && b.dateTo.Some? && b.dateFrom.value <= d <= b.dateTo.value
  }

  /** Every day from `first` to `last`, both included, in ascending order. */
  function DaysFrom(first: int, last: int): (days: seq<int>)
    ensures |days| == (if first <= last then last - first + 1 else 0)
    ensures forall i :: 0 <= i < |days| ==> days[i] == first + i
    decreases last - first
  {
    if first > last then [] else [first] + DaysFrom(first + 1, last)
  }

  /** The days one booking contributes: its whole range, or nothing when a date is missing. */
  function BookedDays(b: Booking): seq<int>
  {
    if b.dateFrom.Some? && b.dateTo.Some? then DaysFrom(b.dateFrom.value, b.dateTo.value) else []
  }

  /** How many days a booking contributes. */
  function DayCount(b: Booking): nat
  {
    if b.dateFrom.Some? && b.dateTo.Some? && b.dateFrom.value <= b.dateTo.value
    then b.dateTo.value - b.dateFrom.value + 1
    else 0
  }

  /** The excluded-day list: each booking's days, bookings in input order, no deduplication. */
  function ExcludedDays(bookings: seq<Booking>): seq<int>
  {
    if bookings == [] then []
    else ExcludedDays(bookings[..|bookings| - 1]) + BookedDays(bookings[|bookings| - 1])
  }

  function TotalDays(bookings: seq<Booking>): nat
  {
    if bookings == [] then 0
    else TotalDays(bookings[..|bookings| - 1]) + DayCount(bookings[|bookings| - 1])
  }

  /** The effect that turns the bookings into the excluded dates: for each
      booking with both dates, push every day of its range. */
  method ExpandBookings(bookings: seq<Booking>) returns (allBooked: seq<int>)
    ensures allBooked == ExcludedDays(bookings)
  {
    allBooked := [];
    for i := 0 to |bookings|
      invariant allBooked == ExcludedDays(bookings[..i])
    {
      var booking := bookings[i];
      if booking.dateFrom.Some? && booking.dateTo.Some? {
        allBooked := PushRange(allBooked, booking.dateFrom.value, booking.dateTo.value);
      }
      assert bookings[..i + 1][..i] == bookings[..i];
      assert ExcludedDays(bookings[..i + 1]) == ExcludedDays(bookings[..i]) + BookedDays(booking);
    }
    assert bookings[..|bookings|] == bookings;
  }

  /** The inner loop of the effect: step a day counter from `start` while it
      is not after `end`, pushing each day. */
  method PushRange(acc: seq<int>, start: int, end: int) returns (allBooked: seq<int>)
    ensures allBooked == acc + DaysFrom(start, end)
  {
    allBooked := acc;
    var current := start;
    while current <= end
      invariant start <= current <= (if start <= end then end + 1 else start)
      invariant allBooked == acc + DaysFrom(start, current - 1)
      decreases end - current
    {
      allBooked := allBooked + [current];
      current := current + 1;
    }
  }

  /** A booking missing either date, or whose first day is after its last,
      contributes no days; a valid booking contributes `dateTo - dateFrom + 1`
      ascending days starting at `dateFrom`. */
  lemma BookedDaysShape(b: Booking)
    ensures b.dateFrom.None? || b.dateTo.None? ==> BookedDays(b) == []
    ensures b.dateFrom.Some? && b.dateTo.Some? && b.dateFrom.value > b.dateTo.value ==> BookedDays(b) == []
    ensures |BookedDays(b)| == DayCount(b)
    ensures forall i, j :: 0 <= i < j < |BookedDays(b)| ==> BookedDays(b)[i] < BookedDays(b)[j]
    ensures forall i :: 0 <= i < |BookedDays(b)| ==> BookedDays(b)[i] == b.dateFrom.value + i
  {
  }

  /** A day is excluded exactly when some booking with both dates covers it:
      every booked day appears and nothing outside the union of ranges does. */
  lemma {:induction false} ExcludedDaysExact(bookings: seq<Booking>, d: int)
    ensures d in ExcludedDays(bookings) <==> exists k :: 0 <= k < |bookings| && Covers(bookings[k], d)
  {
    if bookings != [] {
      var n := |bookings| - 1;
      var init, b := bookings[..n], bookings[n];
      assert ExcludedDays(bookings) == ExcludedDays(init) + BookedDays(b);
      ExcludedDaysExact(init, d);
      InBookedDays(b, d);
      assert forall k :: 0 <= k < n ==> init[k] == bookings[k];
    }
  }

  lemma InBookedDays(b: Booking, d: int)
    ensures d in BookedDays(b) <==> Covers(b, d)
  {
    if Covers(b, d) {
      assert BookedDays(b)[d - b.dateFrom.value] == d;
    }
  }

  /** Excluded days of consecutive groups of bookings are consecutive: bookings keep their order. */
  lemma {:induction false} ExcludedDaysAppend(first: seq<Booking>, second: seq<Booking>)
    ensures ExcludedDays(first + second) == ExcludedDays(first) + ExcludedDays(second)
    decreases |second|
  {
    if second != [] {
      var n := |second| - 1;
      assert (first + second)[..|first + second| - 1] == first + second[..n];
      assert (first + second)[|first + second| - 1] == second[n];
      ExcludedDaysAppend(first, second[..n]);
      assert ExcludedDays(first + second) == ExcludedDays(first + second[..n]) + BookedDays(second[n]);
      assert ExcludedDays(second) == ExcludedDays(second[..n]) + BookedDays(second[n]);
    } else {
      assert first + second == first;
    }
  }

  /** The list holds exactly the sum of the bookings' day counts: overlapping
      bookings are not deduplicated. */
  lemma {:induction false} ExcludedDaysLength(bookings: seq<Booking>)
    ensures |ExcludedDays(bookings)| == TotalDays(bookings)
  {
    if bookings != [] {
      ExcludedDaysLength(bookings[..|bookings| - 1]);
      BookedDaysShape(bookings[|bookings| - 1]);
    }
  }

  /** The same booking listed twice puts each of its days in the list twice. */
  lemma NoDeduplication(b: Booking)
    ensures ExcludedDays([b, b]) == BookedDays(b) + BookedDays(b)
  {
    ExcludedDaysAppend([b], [b]);
    assert ExcludedDays([b]) == ExcludedDays([]) + BookedDays(b);
  }

  /** The calendar component's state. */
  class Picker {
    var startDate: Option<int>
    var endDate: Option<int>
    var bookedDates: seq<int>

    constructor ()
      ensures startDate == None && endDate == None && bookedDates == []
    {
      startDate, endDate, bookedDates := None, None, [];
    }

    /** The summary line "You selected: …" is shown only when both dates are set. */
    predicate ShowsSummary()
      reads this
    {
      startDate.Some? && endDate.Some?
    }

    /** The effect run whenever the `bookings` prop changes. */
    method SyncBookedDates(bookings: seq<Booking>)
      modifies this
      ensures bookedDates == ExcludedDays(bookings)
      ensures startDate == old(startDate) && endDate == old(endDate)
    {
      bookedDates := ExpandBookings(bookings);
    }

    /** `handleChange([start, end])`: store both ends, and hand them to
        `onDateChange` when a callback was given; `notified` is that call. */
    method HandleChange(start: Option<int>, end: Option<int>, hasCallback: bool)
      returns (notified: Option<DateRange>)
      modifies this
      ensures startDate == start && endDate == end && bookedDates == old(bookedDates)
      ensures notified == if hasCallback then Some(DateRange(start, end)) else None
      ensures ShowsSummary() <==> start.Some? && end.Some?
    {
      startDate := start;
      endDate := end;
      notified := None;
      if hasCallback {
        notified := Some(DateRange(start, end));
      }
    }
  }
}
