/**
 * The label and colour switches of the admin order lists. The dashboard's
 * recent-orders card and the mock orders table carry identical copies of
 * them; they are defined once here, beside the badge tables of the
 * server-backed orders page, which differ from them in three places.
 */
module OrderLabels {
  import opened Api

  const Green := "bg-green-100 text-green-800"
  const Blue := "bg-blue-100 text-blue-800"
  const Yellow := "bg-yellow-100 text-yellow-800"
  const Red := "bg-red-100 text-red-800"
  const Gray := "bg-gray-100 text-gray-800"

  /** `getStatusColor`. */
  function StatusColor(s: OrderStatus): string {
    match s
    case Completed => Green
    case Processing => Blue
    case Pending => Yellow
    case Cancelled => Red
  }

  /** `getPaymentStatusColor`. */
  function PaymentStatusColor(s: PaymentStatus): string {
    match s
    case Paid => Green
    case Unpaid => Red
    case Refunded => Gray
  }

  /** `getStatusLabel`. */
  function StatusLabel(s: OrderStatus): string {
    match s
    case Completed => "Завершен"
    case Processing => "В обработке"
    case Pending => "Ожидает"
    case Cancelled => "Отменен"
  }

  /** `getPaymentStatusLabel`. */
  function PaymentStatusLabel(s: PaymentStatus): string {
    match s
    case Paid => "Оплачен"
    case Unpaid => "Не оплачен"
    case Refunded => "Возвращен"
  }

  /** The four order statuses get four different labels. */
  lemma StatusLabelInjective(s: OrderStatus, t: OrderStatus)
    ensures StatusLabel(s) == StatusLabel(t) <==> s == t
  {
  }

  /** The three payment statuses get three different labels. */
  lemma PaymentStatusLabelInjective(s: PaymentStatus, t: PaymentStatus)
    ensures PaymentStatusLabel(s) == PaymentStatusLabel(t) <==> s == t
  {
  }

  /** Each order status has its own colour, and none of them is the gray fallback. */
  lemma StatusColorInjective(s: OrderStatus, t: OrderStatus)
    ensures StatusColor(s) == StatusColor(t) <==> s == t
    ensures StatusColor(s) != Gray
  {
  }

  /**
   * The two columns share one palette: an order is shown green exactly when
   * completed, like a paid payment, and red exactly when cancelled, like an
   * unpaid one.
   */
  lemma PaletteAgrees(s: OrderStatus)
    ensures StatusColor(s) == PaymentStatusColor(Paid) <==> s == Completed
    ensures StatusColor(s) == PaymentStatusColor(Unpaid) <==> s == Cancelled
    ensures StatusColor(s) != PaymentStatusColor(Refunded)
  {
  }

  /** One entry of the server-backed orders page's `statusColors` / `paymentStatusColors` tables. */
  datatype BadgeStyle = BadgeStyle(bg: string, text: string, variant: string)

  function StatusStyle(s: OrderStatus): BadgeStyle {
    match s
    case Pending => BadgeStyle("bg-yellow-100", "text-yellow-800", "default")
    case Processing => BadgeStyle("bg-blue-100", "text-blue-800", "secondary")
    case Completed => BadgeStyle("bg-green-100", "text-green-800", "default")
    case Cancelled => BadgeStyle("bg-red-100", "text-red-800", "destructive")
  }

  function PaymentStyle(p: PaymentStatus): BadgeStyle {
    match p
    case Paid => BadgeStyle("bg-green-100", "text-green-800", "default")
    case Unpaid => BadgeStyle("bg-yellow-100", "text-yellow-800", "secondary")
    case Refunded => BadgeStyle("bg-gray-100", "text-gray-800", "outline")
  }

  /** The class name of a badge: background, a space, text colour. */
  function BadgeClass(style: BadgeStyle): string {
    style.bg + " " + style.text
  }

  /** The text of `getStatusBadge`. */
  function StatusBadgeLabel(s: OrderStatus): string {
    match s
    case Pending => "Ожидает"
    case Processing => "В обработке"
    case Completed => "Выполнен"
    case Cancelled => "Отменен"
  }

  /** The text of `getPaymentStatusBadge`. */
  function PaymentBadgeLabel(p: PaymentStatus): string {
    match p
    case Paid => "Оплачен"
    case Unpaid => "Не оплачен"
    case Refunded => "Возврат"
  }

  /** The status badges are painted like the other order lists. */
  lemma StatusBadgeColourAgrees(s: OrderStatus)
    ensures BadgeClass(StatusStyle(s)) == StatusColor(s)
  {
    var bg, text := StatusStyle(s).bg, StatusStyle(s).text;
    assert BadgeClass(StatusStyle(s)) == bg + " " + text;
    match s {
      case Pending => assert bg + " " + text == Yellow;
      case Processing => assert bg + " " + text == Blue;
      case Completed => assert bg + " " + text == Green;
      case Cancelled => assert bg + " " + text == Red;
    }
  }

  /** The payment badges too, except that an unpaid order is yellow here and red there. */
  lemma PaymentBadgeColourAgrees(p: PaymentStatus)
    ensures BadgeClass(PaymentStyle(p)) == PaymentStatusColor(p) <==> p != Unpaid
  {
    var bg, text := PaymentStyle(p).bg, PaymentStyle(p).text;
    assert BadgeClass(PaymentStyle(p)) == bg + " " + text;
    match p {
      case Paid => assert bg + " " + text == Green;
      case Unpaid => assert (bg + " " + text)[3] == 'y' != Red[3];
      case Refunded => assert bg + " " + text == Gray;
    }
  }

  /**
   * The badge texts are distinct for distinct statuses; they differ from the
   * other lists' labels only for a completed order and a refunded payment.
   */
  lemma BadgeLabelsAgreeWithLists(s: OrderStatus, t: OrderStatus, p: PaymentStatus, q: PaymentStatus)
    ensures StatusBadgeLabel(s) == StatusBadgeLabel(t) <==> s == t
    ensures PaymentBadgeLabel(p) == PaymentBadgeLabel(q) <==> p == q
    ensures StatusBadgeLabel(s) == StatusLabel(s) <==> s != Completed
    ensures PaymentBadgeLabel(p) == PaymentStatusLabel(p) <==> p != Refunded
  {
  }
}
