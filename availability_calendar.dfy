/**
 * The read-only availability calendar of one tool: it fetches the tool's
 * bookings once, keeps the days they block, and paints a day red when it is
 * one of them.
 */
module AvailabilityCalendar {
  import opened Optional
  import opened Api
  import opened Days

  /** The class name `calendarStyles` gives a booked day. */
  const BookedClass := "bg-red-100 text-red-800 opacity-70"

  class CalendarState {
    var bookings: seq<Booking>
    var isLoading: bool
    var bookedDates: seq<int>

    /** The booked days are always those of the stored bookings. */
    ghost predicate Valid()
      reads this
    {
      bookedDates == UnavailableDates(bookings)
    }

    constructor ()
      ensures Valid() && bookings == [] && isLoading && bookedDates == []
    {
      bookings, isLoading, bookedDates := [], true, [];
    }

    /**
     * `fetchBookings`; `response` is None when `bookingsApi.getByToolId`
     * throws, in which case bookings and booked days keep their values.
     */
    method FetchBookings(response: Option<seq<Booking>>)
      requires Valid()
      modifies this
      ensures Valid() && !isLoading
      ensures response.Some? ==> bookings == response.value && bookedDates == UnavailableDates(response.value)
      ensures response.None? ==> bookings == old(bookings) && bookedDates == old(bookedDates)
    {
      isLoading := true;
      if response.Some? {
        bookings := response.value;
        var unavailable := CollectUnavailableDates(response.value);
        bookedDates := unavailable;
      }
      isLoading := false;
    }

    /** `calendarStyles`: the red class exactly for a day equal to some booked day. */
    function CalendarStyle(date: int): (className: string)
      reads this
      requires Valid()
      ensures className == BookedClass <==>
        exists j :: 0 <= j < |bookings| && bookings[j].status != BookingCancelled
                    && bookings[j].startDate <= date <= bookings[j].endDate
      ensures className != BookedClass ==> className == ""
    {
      UnavailableDatesMembers(bookings, date);
      if date in bookedDates then BookedClass else ""
    }
  }

  /** A calendar whose fetch failed before any success shows no booked day at all. */
  method FailedFetchShowsNothing(date: int) returns (className: string)
    ensures className == ""
  {
    var c := new CalendarState();
    c.FetchBookings(None);
    className := c.CalendarStyle(date);
  }
}
