/**
 * The record types the REST client exchanges with the server (the `Tool`,
 * `Order` and `Booking` interfaces). String-literal unions become
 * enumerations; booking dates become integer day numbers.
 */
module Api {

  datatype Tool = Tool(
    id: int,
    name: string,
    description: string,
    pricePerDay: int,
    image: string,
    category: string,
    available: bool)

  datatype Customer = Customer(id: int, name: string, email: string, phone: string)

  datatype OrderItem = OrderItem(toolId: int, name: string, quantity: int, pricePerDay: int)

  datatype OrderStatus = Pending | Processing | Completed | Cancelled

  datatype PaymentStatus = Paid | Unpaid | Refunded

  datatype Order = Order(
    id: string,
    customer: Customer,
    date: string,
    startDate: string,
    endDate: string,
    totalDays: int,
    items: seq<OrderItem>,
    amount: int,
    status: OrderStatus,
    paymentStatus: PaymentStatus)

  datatype BookingStatus = BookingPending | BookingConfirmed | BookingCancelled

  /** A reservation of a tool for the inclusive day range [startDate, endDate]. */
  datatype Booking = Booking(
    id: int,
    toolId: int,
    customerId: int,
    startDate: int,
    endDate: int,
    status: BookingStatus,
    totalPrice: int)

  /** The string the server uses for an order status (the value a status filter holds). */
  function OrderStatusName(s: OrderStatus): string {
    match s
    case Pending => "pending"
    case Processing => "processing"
    case Completed => "completed"
    case Cancelled => "cancelled"
  }

  /** The string the server uses for a payment status. */
  function PaymentStatusName(s: PaymentStatus): string {
    match s
    case Paid => "paid"
    case Unpaid => "unpaid"
    case Refunded => "refunded"
  }

  /** Distinct statuses have distinct server names, so comparing names compares statuses. */
  lemma StatusNamesDistinct(s: OrderStatus, t: OrderStatus, p: PaymentStatus, q: PaymentStatus)
    ensures OrderStatusName(s) == OrderStatusName(t) <==> s == t
    ensures PaymentStatusName(p) == PaymentStatusName(q) <==> p == q
  {
  }
}
