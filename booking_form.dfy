/**
 * The customer booking form of one tool: it loads the tool and its
 * bookings, blocks the booked days in its two date pickers, recomputes the
 * day count and price whenever the dates or the tool change, asks the server
 * whether the range is free, and submits a pending booking.
 */
module BookingForm {
  import opened Optional
  import opened Api
  import opened Days

  function Min(a: int, b: int): int { if a <= b then a else b }
  function Max(a: int, b: int): int { if a <= b then b else a }

  /**
   * `calculateDaysDifference`: the number of whole days from one date to the
   * other, both ends included and in either order.
   */
  function DaysDifference(start: int, end: int): (r: int)
    ensures r >= 1
    ensures r == 1 <==> start == end
    ensures r == |DaysFrom(Min(start, end), Max(start, end))|
  {
    DaysFromLength(Min(start, end), Max(start, end));
    (if start <= end then end - start else start - end) + 1
  }

  lemma DaysDifferenceSymmetric(start: int, end: int)
    ensures DaysDifference(start, end) == DaysDifference(end, start)
  {
  }

  /** The day count and price the form shows. */
  datatype Totals = Totals(days: int, price: int)

  /**
   * The second effect's arithmetic: with both dates set the day count is
   * recomputed, and the price too when the tool is loaded (otherwise the
   * previous price stays); with a date missing both are reset to 0.
   */
  function Recalculate(start: Option<int>, end: Option<int>, tool: Option<Tool>, previousPrice: int): (r: Totals)
    ensures start.None? || end.None? ==> r == Totals(0, 0)
    ensures start.Some? && end.Some? ==> r.days == DaysDifference(start.value, end.value)
    ensures start.Some? && end.Some? && tool.Some? ==> r.price == r.days * tool.value.pricePerDay
    ensures start.Some? && end.Some? && tool.None? ==> r.price == previousPrice
  {
    if start.Some? && end.Some? then
      var days := DaysDifference(start.value, end.value);
      Totals(days, if tool.Some? then days * tool.value.pricePerDay else previousPrice)
    else Totals(0, 0)
  }

  /** The quoted price charges the tool's daily rate once for every day of the inclusive range. */
  lemma PriceChargesEachDay(s: int, e: int, tool: Tool, previousPrice: int)
    ensures Recalculate(Some(s), Some(e), Some(tool), previousPrice).price
            == |DaysFrom(Min(s, e), Max(s, e))| * tool.pricePerDay
  {
  }

  /** A one-day rental of a 500-a-day tool costs 500; four days (the 5th to the 8th) cost 2000. */
  lemma RentalExamples(tool: Tool, previousPrice: int)
    requires tool.pricePerDay == 500
    ensures Recalculate(Some(5), Some(5), Some(tool), previousPrice) == Totals(1, 500)
    ensures Recalculate(Some(5), Some(8), Some(tool), previousPrice) == Totals(4, 2000)
  {
  }

  /** A day the start picker offers: not booked and not before today. */
  predicate StartSelectable(disabledDates: seq<int>, today: int, d: int) {
    d !in disabledDates && !(d < today)
  }

  /** A day the end picker offers: not booked and not before the start date (today when unset). */
  predicate EndSelectable(disabledDates: seq<int>, today: int, start: Option<int>, d: int) {
    d !in disabledDates && !(d < start.GetOr(today))
  }

  /** Both pickers refuse every day of every booking that is not cancelled. */
  lemma PickersRefuseBookedDays(bookings: seq<Booking>, today: int, start: Option<int>, j: int, d: int)
    requires 0 <= j < |bookings| && bookings[j].status != BookingCancelled
    requires bookings[j].startDate <= d <= bookings[j].endDate
    ensures !StartSelectable(UnavailableDates(bookings), today, d)
    ensures !EndSelectable(UnavailableDates(bookings), today, start, d)
  {
    ActiveBookingBlocksItsDays(bookings, j, d);
  }

  /** The placeholder customer id the form sends. */
  const PlaceholderCustomerId := 1

  /** The payload sent to `bookingsApi.create`. */
  datatype BookingRequest = BookingRequest(
    toolId: int, customerId: int, startDate: int, endDate: int,
    status: BookingStatus, totalPrice: int)

  /**
   * The `handleSubmit` guard: a request is produced exactly when both dates
   * and the tool are present and the availability check returned true; the
   * request is pending and carries the quoted price.
   */
  function SubmitRequest(toolId: int, tool: Option<Tool>, start: Option<int>, end: Option<int>,
                         isAvailable: Option<bool>, totalPrice: int): (r: Option<BookingRequest>)
    ensures r.Some? <==> start.Some? && end.Some? && tool.Some? && isAvailable == Some(true)
    ensures r.Some? ==> r.value.status == BookingPending && r.value.totalPrice == totalPrice
    ensures r.Some? ==> r.value.startDate == start.value && r.value.endDate == end.value
    ensures r.Some? ==> r.value.toolId == toolId && r.value.customerId == PlaceholderCustomerId
  {
    if start.None? || end.None? || tool.None? || isAvailable != Some(true) then None
    else Some(BookingRequest(toolId, PlaceholderCustomerId, start.value, end.value, BookingPending, totalPrice))
  }

  /** An availability check that has not answered yes blocks submission. */
  lemma NoBookingWithoutAvailability(toolId: int, tool: Option<Tool>, start: Option<int>, end: Option<int>,
                                     isAvailable: Option<bool>, totalPrice: int)
    requires isAvailable == None || isAvailable == Some(false)
    ensures SubmitRequest(toolId, tool, start, end, isAvailable, totalPrice) == None
  {
  }

  /** The component's state. */
  class BookingFormState {
    const toolId: int
    var tool: Option<Tool>
    var startDate: Option<int>
    var endDate: Option<int>
    var disabledDates: seq<int>
    var isLoadingTool: bool
    var isCheckingAvailability: bool
    var isAvailable: Option<bool>
    var totalDays: int
    var totalPrice: int
    var customerName: string
    var customerEmail: string
    var customerPhone: string

    constructor (toolId: int)
      ensures this.toolId == toolId && tool == None && startDate == None && endDate == None
      ensures disabledDates == [] && isLoadingTool && !isCheckingAvailability && isAvailable == None
      ensures totalDays == 0 && totalPrice == 0
      ensures customerName == "" && customerEmail == "" && customerPhone == ""
    {
      this.toolId := toolId;
      tool, startDate, endDate := None, None, None;
      disabledDates := [];
      isLoadingTool, isCheckingAvailability, isAvailable := true, false, None;
      totalDays, totalPrice := 0, 0;
      customerName, customerEmail, customerPhone := "", "", "";
    }

    /**
     * The first effect. `toolResponse` is None when `toolsApi.getById`
     * throws, `bookingsResponse` None when `bookingsApi.getByToolId` throws;
     * the bookings are only fetched after the tool arrived.
     */
    method LoadToolData(toolResponse: Option<Tool>, bookingsResponse: Option<seq<Booking>>)
      modifies this
      ensures !isLoadingTool
      ensures tool == if toolResponse.Some? then toolResponse else old(tool)
      ensures disabledDates == if toolResponse.Some? && bookingsResponse.Some?
                               then UnavailableDates(bookingsResponse.value) else old(disabledDates)
      ensures startDate == old(startDate) && endDate == old(endDate) && isAvailable == old(isAvailable)
      ensures isCheckingAvailability == old(isCheckingAvailability)
      ensures totalDays == old(totalDays) && totalPrice == old(totalPrice)
      ensures customerName == old(customerName) && customerEmail == old(customerEmail)
      ensures customerPhone == old(customerPhone)
    {
      isLoadingTool := true;
      if toolResponse.Some? {
        tool := toolResponse;
        if bookingsResponse.Some? {
          var unavailable := CollectUnavailableDates(bookingsResponse.value);
          disabledDates := unavailable;
        }
      }
      isLoadingTool := false;
    }

    /** The start picker's `onSelect`; the picker only offers StartSelectable days. */
    method SelectStartDate(d: Option<int>, today: int)
      requires d.None? || StartSelectable(disabledDates, today, d.value)
      modifies this`startDate
      ensures startDate == d
    {
      startDate := d;
    }

    /** The end picker's `onSelect`; the picker only offers EndSelectable days. */
    method SelectEndDate(d: Option<int>, today: int)
      requires d.None? || EndSelectable(disabledDates, today, startDate, d.value)
      modifies this`endDate
      ensures endDate == d
    {
      endDate := d;
    }

    /**
     * `checkAvailability`: nothing happens unless both dates and the tool are
     * present; otherwise the server's answer is stored, and a failed request
     * (None) stores false.
     */
    method CheckAvailability(response: Option<bool>)
      modifies this`isAvailable, this`isCheckingAvailability
      ensures startDate.None? || endDate.None? || tool.None? ==>
                isAvailable == old(isAvailable) && isCheckingAvailability == old(isCheckingAvailability)
      ensures startDate.Some? && endDate.Some? && tool.Some? ==>
                isAvailable == Some(response.GetOr(false)) && !isCheckingAvailability
    {
      if startDate.None? || endDate.None? || tool.None? {
        return;
      }
      isCheckingAvailability := true;
      if response.Some? {
        isAvailable := Some(response.value);
      } else {
        isAvailable := Some(false);
      }
      isCheckingAvailability := false;
    }

    /**
     * The second effect, run after the dates or the tool changed: recompute
     * the day count and price, then check availability; with a date missing,
     * clear the totals and the availability.
     */
    method OnSelectionChanged(response: Option<bool>)
      modifies this`totalDays, this`totalPrice, this`isAvailable, this`isCheckingAvailability
      ensures Totals(totalDays, totalPrice) == Recalculate(startDate, endDate, tool, old(totalPrice))
      ensures startDate.None? || endDate.None? ==> isAvailable == None
      ensures startDate.Some? && endDate.Some? && tool.Some? ==> isAvailable == Some(response.GetOr(false))
      ensures startDate.Some? && endDate.Some? && tool.None? ==> isAvailable == old(isAvailable)
      ensures startDate.Some? && endDate.Some? && tool.Some? ==> !isCheckingAvailability
      ensures startDate.None? || endDate.None? || tool.None? ==>
                isCheckingAvailability == old(isCheckingAvailability)
    {
      if startDate.Some? && endDate.Some? {
        var days := DaysDifference(startDate.value, endDate.value);
        totalDays := days;
        if tool.Some? {
          totalPrice := days * tool.value.pricePerDay;
        }
        CheckAvailability(response);
      } else {
        totalDays := 0;
        totalPrice := 0;
        isAvailable := None;
      }
    }

    /**
     * `handleSubmit`: returns the request sent to the server (None when the
     * guard refuses). `created` says whether the server accepted it; only
     * then are the dates and the customer fields cleared.
     */
    method HandleSubmit(created: bool) returns (request: Option<BookingRequest>)
      modifies this`startDate, this`endDate, this`customerName, this`customerEmail, this`customerPhone
      ensures request == SubmitRequest(toolId, tool, old(startDate), old(endDate), isAvailable, totalPrice)
      ensures request.Some? && created ==> startDate == None && endDate == None
      ensures request.Some? && created ==> customerName == "" && customerEmail == "" && customerPhone == ""
      ensures request.None? || !created ==> startDate == old(startDate) && endDate == old(endDate)
      ensures request.None? || !created ==> customerName == old(customerName)
      ensures request.None? || !created ==> customerEmail == old(customerEmail) && customerPhone == old(customerPhone)
    {
      request := SubmitRequest(toolId, tool, startDate, endDate, isAvailable, totalPrice);
      if request.Some? && created {
        startDate, endDate := None, None;
        customerName, customerEmail, customerPhone := "", "", "";
      }
    }
  }
}
