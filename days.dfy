/**
 * Expanding bookings into calendar days. The booking form and the
 * availability calendar carry identical copies of `getDatesBetween` and of
 * the loop that collects the days of every booking that is not cancelled;
 * both are defined once here. A calendar day is an integer day number.
 */
module Days {
  import opened Api

  /** The inclusive ascending run of days start, start+1, ..., end (empty if start > end). */
  function DaysFrom(start: int, end: int): seq<int>
    decreases end - start
  {
    if start > end then [] else [start] + DaysFrom(start + 1, end)
  }

  /** `getDatesBetween`: the loop pushes the current day and advances by one while it is <= end. */
  method GetDatesBetween(start: int, end: int) returns (dates: seq<int>)
    ensures dates == DaysFrom(start, end)
  {
    dates := [];
    var current := start;
    while current <= end
      invariant dates + DaysFrom(current, end) == DaysFrom(start, end)
      decreases end - current
    {
      assert DaysFrom(current, end) == [current] + DaysFrom(current + 1, end);
      assert dates + DaysFrom(current, end) == (dates + [current]) + DaysFrom(current + 1, end);
      dates := dates + [current];
      current := current + 1;
    }
  }

  lemma {:induction false} DaysFromLength(start: int, end: int)
    ensures |DaysFrom(start, end)| == if start <= end then end - start + 1 else 0
    decreases end - start
  {
    if start <= end {
      DaysFromLength(start + 1, end);
    }
  }

  /** The k-th day of the run is start + k. */
  lemma {:induction false} DaysFromAt(start: int, end: int, k: int)
    requires 0 <= k && start + k <= end
    ensures |DaysFrom(start, end)| == end - start + 1 && DaysFrom(start, end)[k] == start + k
    decreases end - start
  {
    DaysFromLength(start, end);
    if k > 0 {
      DaysFromAt(start + 1, end, k - 1);
    }
  }

  /** A day is in the run exactly when it lies in the inclusive range. */
  lemma {:induction false} DaysFromMembers(start: int, end: int, d: int)
    ensures d in DaysFrom(start, end) <==> start <= d <= end
    decreases end - start
  {
    if start <= end {
      DaysFromMembers(start + 1, end, d);
    }
  }

  /** Consecutive entries differ by exactly one day, so the run is strictly ascending. */
  lemma DaysFromConsecutive(start: int, end: int, k: int)
    requires 0 < k < |DaysFrom(start, end)|
    ensures DaysFrom(start, end)[k] == DaysFrom(start, end)[k - 1] + 1
  {
    DaysFromLength(start, end);
    DaysFromAt(start, end, k);
    DaysFromAt(start, end, k - 1);
  }

  /** The days one booking blocks: none when it is cancelled, else its inclusive range. */
  function BookingDays(b: Booking): seq<int> {
    if b.status == BookingCancelled then [] else DaysFrom(b.startDate, b.endDate)
  }

  /** The unavailable days of a booking list: their BookingDays, concatenated in list order. */
  function UnavailableDates(bookings: seq<Booking>): seq<int> {
    if bookings == [] then []
    else BookingDays(bookings[0]) + UnavailableDates(bookings[1..])
  }

  /** The `forEach` loop that pushes the days of every non-cancelled booking. */
  method CollectUnavailableDates(bookings: seq<Booking>) returns (dates: seq<int>)
    ensures dates == UnavailableDates(bookings)
  {
    dates := [];
    for i := 0 to |bookings|
      invariant dates == UnavailableDates(bookings[..i])
    {
      assert bookings[..i + 1] == bookings[..i] + [bookings[i]];
      UnavailableDatesAppend(bookings[..i], [bookings[i]]);
      assert UnavailableDates([bookings[i]]) == BookingDays(bookings[i]) + UnavailableDates([]);
      if bookings[i].status != BookingCancelled {
        var between := GetDatesBetween(bookings[i].startDate, bookings[i].endDate);
        dates := dates + between;
      }
    }
    assert bookings[..|bookings|] == bookings;
  }

  /** The unavailable days of two lists back to back are the two results back to back. */
  lemma {:induction false} UnavailableDatesAppend(a: seq<Booking>, b: seq<Booking>)
    ensures UnavailableDates(a + b) == UnavailableDates(a) + UnavailableDates(b)
  {
    if a == [] {
      assert a + b == b;
    } else {
      assert (a + b)[1..] == a[1..] + b;
      UnavailableDatesAppend(a[1..], b);
    }
  }

  /** A day is unavailable exactly when some non-cancelled booking's inclusive range holds it. */
  lemma {:induction false} UnavailableDatesMembers(bookings: seq<Booking>, d: int)
    ensures d in UnavailableDates(bookings) <==>
      exists j :: 0 <= j < |bookings| && bookings[j].status != BookingCancelled
                  && bookings[j].startDate <= d <= bookings[j].endDate
  {
    if bookings != [] {
      var rest := bookings[1..];
      UnavailableDatesMembers(rest, d);
      var first := bookings[0];
      if first.status != BookingCancelled {
        DaysFromMembers(first.startDate, first.endDate, d);
      }
      if exists j :: 0 <= j < |rest| && rest[j].status != BookingCancelled
                     && rest[j].startDate <= d <= rest[j].endDate {
        var j :| 0 <= j < |rest| && rest[j].status != BookingCancelled
                 && rest[j].startDate <= d <= rest[j].endDate;
        assert bookings[j + 1] == rest[j];
      }
      if exists j :: 0 <= j < |bookings| && bookings[j].status != BookingCancelled
                     && bookings[j].startDate <= d <= bookings[j].endDate {
        var j :| 0 <= j < |bookings| && bookings[j].status != BookingCancelled
                 && bookings[j].startDate <= d <= bookings[j].endDate;
        if j > 0 {
          assert rest[j - 1] == bookings[j];
        }
      }
    }
  }

  /** A cancelled booking, wherever it stands in the list, adds no day. */
  lemma CancelledBookingAddsNothing(before: seq<Booking>, c: Booking, after: seq<Booking>)
    requires c.status == BookingCancelled
    ensures UnavailableDates(before + [c] + after) == UnavailableDates(before + after)
  {
    assert UnavailableDates([c]) == BookingDays(c) + UnavailableDates([]);
    UnavailableDatesAppend(before + [c], after);
    UnavailableDatesAppend(before, [c]);
    UnavailableDatesAppend(before, after);
  }

  /** Every day of a non-cancelled booking is unavailable. */
  lemma ActiveBookingBlocksItsDays(bookings: seq<Booking>, j: int, d: int)
    requires 0 <= j < |bookings| && bookings[j].status != BookingCancelled
    requires bookings[j].startDate <= d <= bookings[j].endDate
    ensures d in UnavailableDates(bookings)
  {
    UnavailableDatesMembers(bookings, d);
  }
}
