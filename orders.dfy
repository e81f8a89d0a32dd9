/**
 * The order document of backend/models/Order.js: its enumerations and field
 * rules, the `itemCount` virtual, the pre-save pass (order number, item
 * subtotals, totals, delivery estimate, timeline) and the instance methods
 * `updateStatus`, `markAsPaid` and `addTrackingNumber`.
 *
 * The pure layer (`OrderState`, `Saved`, `StatusUpdated`, ...) states what a
 * save computes; `class Order` performs the same work field by field, as the
 * schema's hook and methods do, and each method is proved equal to the pure
 * layer. The clock, today's calendar date, the number of orders already
 * created today, and the document's `isNew` / "status modified" flags are
 * parameters (`SaveContext`).
 */
module Orders {
  import opened Wrappers
  import opened Numeric
  import opened Text

  // ---------------------------------------------------------------------
  // Enumerations and their names in the schema

  datatype Status = Pending | Confirmed | Preparing | Shipped | Delivered | Cancelled | Refunded
  datatype PaymentMethod = Card | Paypal | BankTransfer | ThreeInstalments | Cash
  datatype PaymentStatus = PaymentPending | Processing | Paid | Failed | PaymentCancelled | PaymentRefunded
  datatype DeliveryMethod = Standard | Express | Pickup | Appointment

  function StatusName(s: Status): string
  {
    match s
    case Pending => "pending"
    case Confirmed => "confirmed"
    case Preparing => "preparing"
    case Shipped => "shipped"
    case Delivered => "delivered"
    case Cancelled => "cancelled"
    case Refunded => "refunded"
  }

  /** The `status` enum validator: a name is accepted iff it is one of the seven. */
  function ParseStatus(name: string): (r: Option<Status>)
    ensures r.Some? ==> StatusName(r.value) == name
    ensures forall s: Status :: StatusName(s) == name ==> r == Some(s)
  {
    if name == "pending" then Some(Pending)
    else if name == "confirmed" then Some(Confirmed)
    else if name == "preparing" then Some(Preparing)
    else if name == "shipped" then Some(Shipped)
    else if name == "delivered" then Some(Delivered)
    else if name == "cancelled" then Some(Cancelled)
    else if name == "refunded" then Some(Refunded)
    else None
  }

  function PaymentMethodName(m: PaymentMethod): string
  {
    match m
    case Card => "card"
    case Paypal => "paypal"
    case BankTransfer => "bank_transfer"
    case ThreeInstalments => "3x_payment"
    case Cash => "cash"
  }

  /** The `payment.method` enum validator. */
  function ParsePaymentMethod(name: string): (r: Option<PaymentMethod>)
    ensures r.Some? ==> PaymentMethodName(r.value) == name
    ensures forall m: PaymentMethod :: PaymentMethodName(m) == name ==> r == Some(m)
  {
    if name == "card" then Some(Card)
    else if name == "paypal" then Some(Paypal)
    else if name == "bank_transfer" then Some(BankTransfer)
    else if name == "3x_payment" then Some(ThreeInstalments)
    else if name == "cash" then Some(Cash)
    else None
  }

  function PaymentStatusName(s: PaymentStatus): string
  {
    match s
    case PaymentPending => "pending"
    case Processing => "processing"
    case Paid => "paid"
    case Failed => "failed"
    case PaymentCancelled => "cancelled"
    case PaymentRefunded => "refunded"
  }

  /** The `payment.status` enum validator. */
  function ParsePaymentStatus(name: string): (r: Option<PaymentStatus>)
    ensures r.Some? ==> PaymentStatusName(r.value) == name
    ensures forall s: PaymentStatus :: PaymentStatusName(s) == name ==> r == Some(s)
  {
    if name == "pending" then Some(PaymentPending)
    else if name == "processing" then Some(Processing)
    else if name == "paid" then Some(Paid)
    else if name == "failed" then Some(Failed)
    else if name == "cancelled" then Some(PaymentCancelled)
    else if name == "refunded" then Some(PaymentRefunded)
    else None
  }

  function DeliveryMethodName(m: DeliveryMethod): string
  {
    match m
    case Standard => "standard"
    case Express => "express"
    case Pickup => "pickup"
    case Appointment => "appointment"
  }

  /** The `delivery.method` enum validator. */
  function ParseDeliveryMethod(name: string): (r: Option<DeliveryMethod>)
    ensures r.Some? ==> DeliveryMethodName(r.value) == name
    ensures forall m: DeliveryMethod :: DeliveryMethodName(m) == name ==> r == Some(m)
  {
    if name == "standard" then Some(Standard)
    else if name == "express" then Some(Express)
    else if name == "pickup" then Some(Pickup)
    else if name == "appointment" then Some(Appointment)
    else None
  }

  // ---------------------------------------------------------------------
  // The document

  datatype Address = Address(street: string, city: string, postalCode: string, country: string)
  datatype Customer = Customer(firstName: string, lastName: string, email: string, phone: string, address: Address)
  datatype Item = Item(name: string, price: real, quantity: int, subtotal: real)
  datatype Totals = Totals(subtotal: real, shipping: real, tax: real, discount: real, total: real)
  /** `kind` is the schema's `method` field, here and in `Delivery`. */
  datatype Payment = Payment(kind: PaymentMethod, status: PaymentStatus, transactionId: string,
                             paidAt: Option<int>, amount: Option<real>)
  datatype Delivery = Delivery(kind: DeliveryMethod, estimatedDate: Option<int>,
                               trackingNumber: string, carrier: string)
  datatype TimelineEntry = TimelineEntry(status: Status, date: int, note: string)

  /** Every field the pre-save pass and the instance methods read or write.
      An empty `orderNumber` is the unset one (the hook tests it for falsiness). */
  datatype OrderState = OrderState(
    orderNumber: string,
    customer: Customer,
    items: seq<Item>,
    totals: Totals,
    status: Status,
    payment: Payment,
    delivery: Delivery,
    timeline: seq<TimelineEntry>)

  datatype CalendarDate = CalendarDate(year: nat, month: nat, day: nat)

  /** What a save depends on besides the document: the current time in
      milliseconds, today's local date, the number of orders created today,
      and the document's change-tracking flags. */
  datatype SaveContext = SaveContext(now: int, today: CalendarDate, sameDayCount: nat,
                                     isNew: bool, statusModified: bool)

  const DayMillis: int := 24 * 60 * 60 * 1000

  // ---------------------------------------------------------------------
  // Field rules

  predicate IsPhoneChar(c: char)
  {
    IsAsciiDigit(c) || IsJsSpace(c) || c == '-' || c == '+' || c == '(' || c == ')'
  }

  /** /^[\d\s\-\+\(\)]{10,}$/ */
  predicate IsPhone(s: string)
  {
    |s| >= 10 && forall k :: 0 <= k < |s| ==> IsPhoneChar(s[k])
  }

  /** /^\d{5}$/ */
  predicate IsPostalCode(s: string)
  {
    |s| == 5 && AllDigits(s)
  }

  predicate IsQuantity(q: int)
  {
    1 <= q <= 100
  }

  /** The rules the schema puts on one line item. */
  predicate ItemValid(it: Item)
  {
    it.name != [] && |it.name| <= 200 && it.price >= 0.0 && IsQuantity(it.quantity) && it.subtotal >= 0.0
  }

  /** The rules the schema puts on the customer block (values as stored, after `trim`). */
  predicate CustomerValid(c: Customer)
  {
    && c.firstName != [] && |c.firstName| <= 50
    && c.lastName != [] && |c.lastName| <= 50
    && IsEmail(c.email)
    && IsPhone(c.phone)
    && c.address.street != [] && |c.address.street| <= 200
    && c.address.city != [] && |c.address.city| <= 100
    && IsPostalCode(c.address.postalCode)
    && |c.address.country| <= 50
  }

  /** The estimated-date rule: when set, it must lie after the time of the save. */
  predicate EstimatedDateValid(d: Delivery, now: int)
  {
    d.estimatedDate.None? || d.estimatedDate.value > now
  }

  /** Sample values for the field rules. */
  lemma FieldRuleExamples()
    ensures IsPostalCode("78000") && !IsPostalCode("7800") && !IsPostalCode("78 00")
    ensures IsPhone("0123456789") && IsPhone("+33 (1) 23-45-67") && !IsPhone("012345678")
    ensures !IsPhone("01234567ab")
    ensures IsQuantity(1) && IsQuantity(100) && !IsQuantity(0) && !IsQuantity(101)
  {
    assert !IsPhoneChar("01234567ab"[8]);
    assert !IsAsciiDigit("78 00"[2]);
  }

  // ---------------------------------------------------------------------
  // The `itemCount` virtual

  function ItemQuantities(items: seq<Item>): (qs: seq<int>)
    ensures |qs| == |items| && forall k :: 0 <= k < |items| ==> qs[k] == items[k].quantity
  {
    seq(|items|, k requires 0 <= k < |items| => items[k].quantity)
  }

  /** The sum of the item quantities; with every quantity within the schema's
      bounds it lies between one and a hundred per line. */
  function ItemCount(items: seq<Item>): (n: int)
    ensures (forall k :: 0 <= k < |items| ==> IsQuantity(items[k].quantity)) ==> |items| <= n <= 100 * |items|
    ensures items == [] ==> n == 0
  {
    var qs := ItemQuantities(items);
    assert (forall k :: 0 <= k < |qs| ==> 1 <= qs[k] <= 100) ==> |qs| * 1 <= Total(qs) <= |qs| * 100 by {
      if forall k :: 0 <= k < |qs| ==> 1 <= qs[k] <= 100 {
        TotalBounds(qs, 1, 100);
      }
    }
    Total(qs)
  }

  // ---------------------------------------------------------------------
  // Step 1 of the pre-save pass: the order number

  /** "BA78-" + YY + MM + DD + "-" + the day's sequence number, zero-padded to three digits. */
  function OrderNumber(today: CalendarDate, sameDayCount: nat): string
  {
    "BA78-"
      + LastChars(DecimalString(today.year), 2)
      + PadStart(DecimalString(today.month), 2, '0')
      + PadStart(DecimalString(today.day), 2, '0')
      + "-"
      + PadStart(DecimalString(sameDayCount + 1), 3, '0')
  }

  /** `r` reads as an order number of the given two-digit year, month, day
      and sequence number: "BA78-", six digits, "-", then at least three digits. */
  predicate ReadsAsOrderNumber(r: string, yy: nat, month: nat, day: nat, seqNo: nat)
  {
    && |r| >= 15 && r[..5] == "BA78-" && r[11] == '-'
    && AllDigits(r[5..7]) && AllDigits(r[7..9]) && AllDigits(r[9..11]) && AllDigits(r[12..])
    && DecimalValue(r[5..7]) == yy
    && DecimalValue(r[7..9]) == month
    && DecimalValue(r[9..11]) == day
    && DecimalValue(r[12..]) == seqNo
  }

  /** The shape of a generated order number, read back field by field; the
      sequence part has exactly three digits until the 999th order of a day. */
  lemma OrderNumberFormat(today: CalendarDate, sameDayCount: nat)
    requires 10 <= today.year && 1 <= today.month <= 12 && 1 <= today.day <= 31
    ensures ReadsAsOrderNumber(OrderNumber(today, sameDayCount),
      today.year % 100, today.month, today.day, sameDayCount + 1)
    ensures |OrderNumber(today, sameDayCount)| == 15 <==> sameDayCount < 999
  {
    OrderNumberParts(today, sameDayCount);
    var y := LastChars(DecimalString(today.year), 2);
    var m := PadStart(DecimalString(today.month), 2, '0');
    var d := PadStart(DecimalString(today.day), 2, '0');
    var n := PadStart(DecimalString(sameDayCount + 1), 3, '0');
    assert OrderNumber(today, sameDayCount) == "BA78-" + y + m + d + "-" + n;
    OrderNumberLayout(y, m, d, n);
  }

  /** The four numeric fields of an order number, each read back. */
  lemma OrderNumberParts(today: CalendarDate, sameDayCount: nat)
    requires 10 <= today.year && 1 <= today.month <= 12 && 1 <= today.day <= 31
    ensures var y := LastChars(DecimalString(today.year), 2);
      |y| == 2 && AllDigits(y) && DecimalValue(y) == today.year % 100
    ensures var m := PadStart(DecimalString(today.month), 2, '0');
      |m| == 2 && AllDigits(m) && DecimalValue(m) == today.month
    ensures var d := PadStart(DecimalString(today.day), 2, '0');
      |d| == 2 && AllDigits(d) && DecimalValue(d) == today.day
    ensures var n := PadStart(DecimalString(sameDayCount + 1), 3, '0');
      |n| >= 3 && AllDigits(n) && DecimalValue(n) == sameDayCount + 1 && (|n| == 3 <==> sameDayCount < 999)
  {
    TwoDigitYear(today.year);
    PaddedDecimal(today.month, 2);
    PaddedDecimal(today.day, 2);
    PaddedDecimal(sameDayCount + 1, 3);
    PaddedWidth(sameDayCount + 1, 3);
  }

  /** Where each part of an order number sits, and that its fields are digits. */
  lemma OrderNumberLayout(y: string, m: string, d: string, n: string)
    requires |y| == 2 && |m| == 2 && |d| == 2
    requires AllDigits(y) && AllDigits(m) && AllDigits(d) && AllDigits(n)
    ensures var r := "BA78-" + y + m + d + "-" + n;
      && |r| == 12 + |n| && r[..5] == "BA78-" && r[5..7] == y && r[7..9] == m
      && r[9..11] == d && r[11] == '-' && r[12..] == n
  {
  }

  /** The hook's numbering step: an existing number is kept, an unset one assigned. */
  function AssignedNumber(current: string, today: CalendarDate, sameDayCount: nat): (r: string)
    ensures r != []
    ensures current != [] ==> r == current
    ensures current == [] ==> r == OrderNumber(today, sameDayCount)
  {
    if current == [] then OrderNumber(today, sameDayCount) else current
  }

  // ---------------------------------------------------------------------
  // Steps 2 and 3: item subtotals and totals, with a 0.01 tolerance

  function LineAmount(it: Item): real
  {
    it.price * it.quantity as real
  }

  predicate SubtotalConsistent(it: Item)
  {
    Abs(it.subtotal - LineAmount(it)) <= 0.01
  }

  /** One item of the subtotal pass: a subtotal off by more than a cent is
      replaced by the rounded line amount; any other item is left alone. */
  function ReconcileItem(it: Item): (r: Item)
    ensures r.name == it.name && r.price == it.price && r.quantity == it.quantity
    ensures SubtotalConsistent(r)
    ensures r == it <==> SubtotalConsistent(it)
    ensures r != it ==> r.subtotal == Round2(LineAmount(it))
    ensures ItemValid(it) ==> ItemValid(r)
  {
    if Abs(it.subtotal - LineAmount(it)) > 0.01 then
      LineAmountNonNegative(it);
      it.(subtotal := Round2(LineAmount(it)))
    else
      it
  }

  lemma LineAmountNonNegative(it: Item)
    ensures it.price >= 0.0 && it.quantity >= 0 ==> LineAmount(it) >= 0.0
  {
  }

  /** The whole subtotal pass, item by item and in order. */
  function ReconciledItems(items: seq<Item>): (r: seq<Item>)
    ensures |r| == |items|
    ensures forall k :: 0 <= k < |items| ==> r[k] == ReconcileItem(items[k])
  {
    if items == [] then [] else [ReconcileItem(items[0])] + ReconciledItems(items[1..])
  }

  function Subtotals(items: seq<Item>): (r: seq<real>)
    ensures |r| == |items| && forall k :: 0 <= k < |items| ==> r[k] == items[k].subtotal
  {
    if items == [] then [] else [items[0].subtotal] + Subtotals(items[1..])
  }

  /** The sum of the item subtotals, as the hook's `reduce` computes it. */
  function ItemsSubtotal(items: seq<Item>): real
  {
    Sum(Subtotals(items))
  }

  /** `subtotal + shipping + tax - discount`. */
  function ComputedTotal(t: Totals): real
  {
    t.subtotal + t.shipping + t.tax - t.discount
  }

  /** The subtotal step: replaced by the rounded item sum only when off by more than a cent. */
  function ReconcileSubtotal(t: Totals, itemsSum: real): (r: Totals)
    ensures r == t.(subtotal := r.subtotal)
    ensures Abs(r.subtotal - itemsSum) <= 0.01
    ensures r == t <==> Abs(t.subtotal - itemsSum) <= 0.01
    ensures r != t ==> r.subtotal == Round2(itemsSum)
  {
    if Abs(t.subtotal - itemsSum) > 0.01 then t.(subtotal := Round2(itemsSum)) else t
  }

  /** The total step, against the subtotal as it stands after the subtotal step. */
  function ReconcileTotal(t: Totals): (r: Totals)
    ensures r == t.(total := r.total)
    ensures ComputedTotal(r) == ComputedTotal(t)
    ensures Abs(r.total - ComputedTotal(r)) <= 0.01
    ensures r == t <==> Abs(t.total - ComputedTotal(t)) <= 0.01
    ensures r != t ==> r.total == Round2(ComputedTotal(t))
  {
    if Abs(t.total - ComputedTotal(t)) > 0.01 then t.(total := Round2(ComputedTotal(t))) else t
  }

  /** Items and totals agree with each other to within a cent everywhere. */
  predicate Reconciled(items: seq<Item>, t: Totals)
  {
    && (forall k :: 0 <= k < |items| ==> SubtotalConsistent(items[k]))
    && Abs(t.subtotal - ItemsSubtotal(items)) <= 0.01
    && Abs(t.total - ComputedTotal(t)) <= 0.01
  }

  // ---------------------------------------------------------------------
  // Steps 4 and 5: delivery estimate and timeline

  /** Days added to the current time: one for express, three for standard, none otherwise. */
  function DeliveryDays(m: DeliveryMethod): nat
  {
    if m == Express then 1 else if m == Standard then 3 else 0
  }

  /** The estimate is filled in only when unset, and only for express and standard delivery. */
  function EstimateDelivery(d: Delivery, now: int): (r: Delivery)
    ensures r == d.(estimatedDate := r.estimatedDate)
    ensures d.estimatedDate.Some? ==> r == d
    ensures d.estimatedDate.None? && d.kind == Express ==> r.estimatedDate == Some(now + DayMillis)
    ensures d.estimatedDate.None? && d.kind == Standard ==> r.estimatedDate == Some(now + 3 * DayMillis)
    ensures d.estimatedDate.None? && (d.kind == Pickup || d.kind == Appointment) ==> r.estimatedDate.None?
    ensures d.estimatedDate.None? ==> EstimatedDateValid(r, now)
  {
    if d.estimatedDate.None? && DeliveryDays(d.kind) > 0
    then d.(estimatedDate := Some(now + DeliveryDays(d.kind) * DayMillis))
    else d
  }

  function StatusChangedNote(s: Status): string
  {
    "Statut changé en " + StatusName(s)
  }

  /** What the hook appends to the timeline: one entry exactly when the status
      was modified on a document that is not new. */
  function StatusChangeEntries(s: Status, now: int, isNew: bool, statusModified: bool): (r: seq<TimelineEntry>)
    ensures |r| == if statusModified && !isNew then 1 else 0
    ensures forall k :: 0 <= k < |r| ==> r[k] == TimelineEntry(s, now, StatusChangedNote(s))
  {
    if statusModified && !isNew then [TimelineEntry(s, now, StatusChangedNote(s))] else []
  }

  // ---------------------------------------------------------------------
  // The whole pre-save pass

  // The hook's five steps, each on the fields it writes.

  function NumberStep(s: OrderState, today: CalendarDate, sameDayCount: nat): OrderState
  {
    s.(orderNumber := AssignedNumber(s.orderNumber, today, sameDayCount))
  }

  function ItemsStep(s: OrderState): (r: OrderState)
    ensures r == s.(items := r.items) && |r.items| == |s.items|
    ensures forall k :: 0 <= k < |r.items| ==> SubtotalConsistent(r.items[k])
    ensures (forall k :: 0 <= k < |s.items| ==> SubtotalConsistent(s.items[k])) ==> r == s
  {
    var items := ReconciledItems(s.items);
    assert (forall k :: 0 <= k < |s.items| ==> SubtotalConsistent(s.items[k])) ==> items == s.items;
    s.(items := items)
  }

  function TotalsStep(s: OrderState): (r: OrderState)
    ensures r == s.(totals := r.totals)
    ensures Abs(r.totals.subtotal - ItemsSubtotal(s.items)) <= 0.01
    ensures Abs(r.totals.total - ComputedTotal(r.totals)) <= 0.01
    ensures (forall k :: 0 <= k < |s.items| ==> SubtotalConsistent(s.items[k])) ==> Reconciled(r.items, r.totals)
    ensures r.totals.shipping == s.totals.shipping && r.totals.tax == s.totals.tax
    ensures r.totals.discount == s.totals.discount
    ensures Reconciled(s.items, s.totals) ==> r == s
  {
    s.(totals := ReconcileTotal(ReconcileSubtotal(s.totals, ItemsSubtotal(s.items))))
  }

  function DeliveryStep(s: OrderState, now: int): OrderState
  {
    s.(delivery := EstimateDelivery(s.delivery, now))
  }

  function TimelineStep(s: OrderState, now: int, isNew: bool, statusModified: bool): OrderState
  {
    s.(timeline := s.timeline + StatusChangeEntries(s.status, now, isNew, statusModified))
  }

  /** The document as the pre-save hook leaves it. */
  function Saved(s: OrderState, ctx: SaveContext): (r: OrderState)
    ensures r.customer == s.customer && r.status == s.status && r.payment == s.payment
    ensures r.orderNumber == AssignedNumber(s.orderNumber, ctx.today, ctx.sameDayCount)
    ensures r.items == ReconciledItems(s.items)
    ensures Reconciled(r.items, r.totals)
    ensures Reconciled(s.items, s.totals) ==> r.items == s.items && r.totals == s.totals
    ensures r.totals.shipping == s.totals.shipping && r.totals.tax == s.totals.tax
    ensures r.totals.discount == s.totals.discount
    ensures r.delivery == EstimateDelivery(s.delivery, ctx.now)
    ensures r.timeline == s.timeline + StatusChangeEntries(s.status, ctx.now, ctx.isNew, ctx.statusModified)
  {
    var items := ItemsStep(NumberStep(s, ctx.today, ctx.sameDayCount));
    assert Reconciled(s.items, s.totals) ==> items.items == s.items;
    var totals := TotalsStep(items);
    assert Reconciled(totals.items, totals.totals);
    var r := TimelineStep(DeliveryStep(totals, ctx.now), ctx.now, ctx.isNew, ctx.statusModified);
    assert r.items == items.items && r.totals == totals.totals;
    r
  }

  /** A second save of a saved document changes neither its items nor its totals. */
  lemma SavedIsStable(s: OrderState, ctx: SaveContext, ctx': SaveContext)
    ensures var r := Saved(s, ctx);
      Saved(r, ctx').items == r.items && Saved(r, ctx').totals == r.totals
      && Saved(r, ctx').orderNumber == r.orderNumber
  {
  }

  /** Saving keeps every item that satisfied the schema's item rules within them,
      and keeps a non-negative subtotal when the items' subtotals are non-negative. */
  lemma SavedKeepsItemRules(s: OrderState, ctx: SaveContext)
    requires forall k :: 0 <= k < |s.items| ==> ItemValid(s.items[k])
    requires s.totals.subtotal >= 0.0
    ensures var r := Saved(s, ctx);
      (forall k :: 0 <= k < |r.items| ==> ItemValid(r.items[k])) && r.totals.subtotal >= 0.0
  {
    var r := Saved(s, ctx);
    SumNonNegative(Subtotals(r.items));
  }

  // ---------------------------------------------------------------------
  // Instance methods, as functions of the document

  function StatusUpdatedNote(newStatus: Status, note: string): string
  {
    if note == [] then "Statut mis à jour: " + StatusName(newStatus) else note
  }

  /** `updateStatus(newStatus, note)`: set the status, push its own entry, then save.
      Mongoose reports the status as modified when it was already, or when the new
      value differs from the old one. */
  function StatusUpdated(s: OrderState, newStatus: Status, note: string, ctx: SaveContext): (r: OrderState)
    ensures r.status == newStatus
    ensures var own := TimelineEntry(newStatus, ctx.now, StatusUpdatedNote(newStatus, note));
      r.timeline == s.timeline + [own]
        + StatusChangeEntries(newStatus, ctx.now, ctx.isNew, ctx.statusModified || newStatus != s.status)
    ensures |r.timeline| == |s.timeline| + 1 + (if !ctx.isNew && (ctx.statusModified || newStatus != s.status) then 1 else 0)
    ensures r.payment == s.payment && r.customer == s.customer
    ensures r.delivery == EstimateDelivery(s.delivery, ctx.now)
  {
    var own := TimelineEntry(newStatus, ctx.now, StatusUpdatedNote(newStatus, note));
    Saved(s.(status := newStatus, timeline := s.timeline + [own]),
          ctx.(statusModified := ctx.statusModified || newStatus != s.status))
  }

  /** On a stored order, a real status change leaves two entries for one change:
      the method's own, then the hook's. */
  lemma StatusUpdateLogsTwice(s: OrderState, newStatus: Status, note: string, ctx: SaveContext)
    requires !ctx.isNew && newStatus != s.status
    ensures var r := StatusUpdated(s, newStatus, note, ctx);
      && |r.timeline| == |s.timeline| + 2
      && r.timeline[..|s.timeline|] == s.timeline
      && r.timeline[|s.timeline|] == TimelineEntry(newStatus, ctx.now, StatusUpdatedNote(newStatus, note))
      && r.timeline[|s.timeline| + 1] == TimelineEntry(newStatus, ctx.now, StatusChangedNote(newStatus))
  {
    var own := TimelineEntry(newStatus, ctx.now, StatusUpdatedNote(newStatus, note));
    var changed := TimelineEntry(newStatus, ctx.now, StatusChangedNote(newStatus));
    assert StatusChangeEntries(newStatus, ctx.now, ctx.isNew, true) == [changed];
    assert StatusUpdated(s, newStatus, note, ctx).timeline == s.timeline + [own] + [changed];
    TwoAppended(s.timeline, own, changed);
  }

  lemma TwoAppended<T>(t: seq<T>, a: T, b: T)
    ensures |t + [a] + [b]| == |t| + 2 && (t + [a] + [b])[..|t|] == t
    ensures (t + [a] + [b])[|t|] == a && (t + [a] + [b])[|t| + 1] == b
  {
    assert (t + [a] + [b])[..|t|] == t;
  }

  /** `markAsPaid(transactionId)`: payment fields set, the amount copied from the
      total as it stood before the save, then save. */
  function MarkedAsPaid(s: OrderState, transactionId: string, ctx: SaveContext): (r: OrderState)
    ensures r.payment == Payment(s.payment.kind, Paid, transactionId, Some(ctx.now), Some(s.totals.total))
    ensures r.status == s.status
    ensures r.timeline == s.timeline + StatusChangeEntries(s.status, ctx.now, ctx.isNew, ctx.statusModified)
    ensures Reconciled(s.items, s.totals) ==> r.payment.amount == Some(r.totals.total)
  {
    Saved(s.(payment := s.payment.(status := Paid, paidAt := Some(ctx.now),
                                    transactionId := transactionId, amount := Some(s.totals.total))),
          ctx)
  }

  function ShippedNote(trackingNumber: string): string
  {
    "Expédié avec le numéro de suivi: " + trackingNumber
  }

  /** `addTrackingNumber(trackingNumber, carrier)`: the tracking fields are set,
      then `updateStatus('shipped', ...)` runs. */
  function TrackingAdded(s: OrderState, trackingNumber: string, carrier: string, ctx: SaveContext): (r: OrderState)
    ensures r.status == Shipped
    ensures r.delivery.trackingNumber == trackingNumber && r.delivery.carrier == carrier
    ensures r.delivery.kind == s.delivery.kind
    ensures |r.timeline| > |s.timeline| && r.timeline[..|s.timeline|] == s.timeline
    ensures r.timeline[|s.timeline|] == TimelineEntry(Shipped, ctx.now, ShippedNote(trackingNumber))
    ensures r.timeline == s.timeline + [TimelineEntry(Shipped, ctx.now, ShippedNote(trackingNumber))]
      + StatusChangeEntries(Shipped, ctx.now, ctx.isNew, ctx.statusModified || s.status != Shipped)
    ensures r.payment == s.payment && r.customer == s.customer
  {
    StatusUpdated(s.(delivery := s.delivery.(trackingNumber := trackingNumber, carrier := carrier)),
                  Shipped, ShippedNote(trackingNumber), ctx)
  }

  // ---------------------------------------------------------------------
  // The document as an object

  class Order {
    var orderNumber: string
    var customer: Customer
    var items: seq<Item>
    var totals: Totals
    var status: Status
    var payment: Payment
    var delivery: Delivery
    var timeline: seq<TimelineEntry>

    function State(): OrderState
      reads this
    {
      OrderState(orderNumber, customer, items, totals, status, payment, delivery, timeline)
    }

    /** A new document with the schema's defaults: no number yet, status
        pending, payment pending, no delivery estimate, empty timeline. */
    constructor (customer: Customer, items: seq<Item>, totals: Totals,
                 paymentMethod: PaymentMethod, deliveryMethod: DeliveryMethod)
      ensures State() == OrderState([], customer, items, totals, Pending,
                                    Payment(paymentMethod, PaymentPending, [], None, None),
                                    Delivery(deliveryMethod, None, [], []), [])
    {
      this.orderNumber := [];
      this.customer := customer;
      this.items := items;
      this.totals := totals;
      this.status := Pending;
      this.payment := Payment(paymentMethod, PaymentPending, [], None, None);
      this.delivery := Delivery(deliveryMethod, None, [], []);
      this.timeline := [];
    }

    predicate IsPaid()
      reads this
    {
      payment.status == Paid
    }

    predicate IsDelivered()
      reads this
    {
      status == Delivered
    }

    /** The hook's `forEach` over the items. */
    method ReconcileItemSubtotals()
      modifies this`items
      ensures items == ReconciledItems(old(items))
      ensures State() == ItemsStep(old(State()))
    {
      var k := 0;
      while k < |items|
        invariant k <= |items| == |old(items)|
        invariant forall j :: 0 <= j < k ==> items[j] == ReconcileItem(old(items)[j])
        invariant forall j :: k <= j < |items| ==> items[j] == old(items)[j]
      {
        var it := items[k];
        if Abs(it.subtotal - LineAmount(it)) > 0.01 {
          items := items[k := it.(subtotal := Round2(LineAmount(it)))];
        }
        k := k + 1;
      }
      assert items == ReconciledItems(old(items));
    }

    /** Step 1 of the hook: number an order that has none. */
    method AssignOrderNumber(today: CalendarDate, sameDayCount: nat)
      modifies this`orderNumber
      ensures orderNumber == AssignedNumber(old(orderNumber), today, sameDayCount)
      ensures State() == NumberStep(old(State()), today, sameDayCount)
    {
      if orderNumber == [] {
        orderNumber := OrderNumber(today, sameDayCount);
      }
    }

    /** Step 3 of the hook: the subtotal, then the total against the updated subtotal. */
    method ReconcileTotals()
      modifies this`totals
      ensures totals == ReconcileTotal(ReconcileSubtotal(old(totals), ItemsSubtotal(items)))
      ensures State() == TotalsStep(old(State()))
    {
      var calculatedSubtotal := ItemsSubtotal(items);
      if Abs(totals.subtotal - calculatedSubtotal) > 0.01 {
        totals := totals.(subtotal := Round2(calculatedSubtotal));
      }

      var calculatedTotal := ComputedTotal(totals);
      if Abs(totals.total - calculatedTotal) > 0.01 {
        totals := totals.(total := Round2(calculatedTotal));
      }
    }

    /** Step 4 of the hook. */
    method EstimateDeliveryDate(now: int)
      modifies this`delivery
      ensures delivery == EstimateDelivery(old(delivery), now)
      ensures State() == DeliveryStep(old(State()), now)
    {
      if delivery.estimatedDate.None? {
        var deliveryDays := DeliveryDays(delivery.kind);
        if deliveryDays > 0 {
          delivery := delivery.(estimatedDate := Some(now + deliveryDays * DayMillis));
        }
      }
    }

    /** Step 5 of the hook. */
    method RecordStatusChange(now: int, isNew: bool, statusModified: bool)
      modifies this`timeline
      ensures timeline == old(timeline) + StatusChangeEntries(status, now, isNew, statusModified)
      ensures State() == TimelineStep(old(State()), now, isNew, statusModified)
    {
      if statusModified && !isNew {
        timeline := timeline + [TimelineEntry(status, now, StatusChangedNote(status))];
      }
    }

    /** The pre-save hook: its five steps in order. */
    method PreSave(ctx: SaveContext)
      modifies this`orderNumber, this`items, this`totals, this`delivery, this`timeline
      ensures State() == Saved(old(State()), ctx)
    {
      AssignOrderNumber(ctx.today, ctx.sameDayCount);
      ReconcileItemSubtotals();
      ReconcileTotals();
      EstimateDeliveryDate(ctx.now);
      RecordStatusChange(ctx.now, ctx.isNew, ctx.statusModified);
    }

    method UpdateStatus(newStatus: Status, note: string, ctx: SaveContext)
      modifies this`status, this`orderNumber, this`items, this`totals, this`delivery, this`timeline
      ensures State() == StatusUpdated(old(State()), newStatus, note, ctx)
    {
      var modified := ctx.statusModified || newStatus != status;
      status := newStatus;
      timeline := timeline + [TimelineEntry(newStatus, ctx.now, StatusUpdatedNote(newStatus, note))];
      PreSave(ctx.(statusModified := modified));
    }

    method MarkAsPaid(transactionId: string, ctx: SaveContext)
      modifies this`payment, this`orderNumber, this`items, this`totals, this`delivery, this`timeline
      ensures State() == MarkedAsPaid(old(State()), transactionId, ctx)
      ensures IsPaid()
    {
      payment := payment.(status := Paid);
      payment := payment.(paidAt := Some(ctx.now));
      payment := payment.(transactionId := transactionId);
      payment := payment.(amount := Some(totals.total));
      PreSave(ctx);
    }

    method AddTrackingNumber(trackingNumber: string, carrier: string, ctx: SaveContext)
      modifies this`status, this`orderNumber, this`items, this`totals, this`delivery, this`timeline
      ensures State() == TrackingAdded(old(State()), trackingNumber, carrier, ctx)
      ensures !IsDelivered()
    {
      delivery := delivery.(trackingNumber := trackingNumber);
      delivery := delivery.(carrier := carrier);
      UpdateStatus(Shipped, ShippedNote(trackingNumber), ctx);
    }
  }
}
