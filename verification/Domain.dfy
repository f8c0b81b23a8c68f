/** The order aggregate: its status graph, its factory and the saga trigger built from it. */
module Domain {
  import opened Options

  /** Opaque identifiers; `NIL` is the zero UUID. */
  type Uuid = nat
  const NIL: Uuid := 0

  datatype Status =
    | Pending | Charging | Confirmed | Failed
    | AwaitingPayment | Paid | Expired | PaymentFailed
    | Compensated

  /** The sentinels callers branch on; `Infra` is any other failure. */
  datatype Error =
    | Ok
    | NotFound
    | InvalidTransition
    | ReservationExpired
    | SoldOut
    | AlreadyBought
    | MetadataMissing
    | InvalidOrderID | InvalidUserID | InvalidEventID | InvalidTicketTypeID
    | InvalidQuantity | InvalidReservedUntil | InvalidAmountCents | InvalidCurrency
    | Infra

  /** `intent` is `None` while the column is NULL. */
  datatype Order = Order(
    id: Uuid, user: int, event: Uuid, tt: Uuid, quantity: int,
    status: Status, reservedUntil: int,
    intent: Option<string>, amountCents: int, currency: string)
  {
    /** What the accessor reports: NULL and the empty string look alike. */
    function IntentID(): string {
      if intent.Some? then intent.value else ""
    }

    predicate HasPriceSnapshot() {
      amountCents > 0 && currency != ""
    }
  }

  datatype OrderResult = Accepted(order: Order) | Rejected(error: Error)

  predicate IsLetter(c: char) { 'a' <= c <= 'z' || 'A' <= c <= 'Z' }

  predicate IsCurrencyCode(s: string) {
    |s| == 3 && forall i :: 0 <= i < |s| ==> IsLetter(s[i])
  }

  function LowerChar(c: char): char {
    if 'A' <= c <= 'Z' then c - 'A' + 'a' else c
  }

  function NormalizeCurrency(s: string): string {
    seq(|s|, i requires 0 <= i < |s| => LowerChar(s[i]))
  }

  /** The Pattern A factory; `now` is the caller's clock, read once. */
  function NewReservation(id: Uuid, user: int, event: Uuid, tt: Uuid, quantity: int,
                          reservedUntil: int, amountCents: int, currency: string, now: int): OrderResult
  {
    if id == NIL then Rejected(InvalidOrderID)
    else if user <= 0 then Rejected(InvalidUserID)
    else if event == NIL then Rejected(InvalidEventID)
    else if tt == NIL then Rejected(InvalidTicketTypeID)
    else if quantity <= 0 then Rejected(InvalidQuantity)
    else if reservedUntil <= now then Rejected(InvalidReservedUntil)
    else if amountCents <= 0 then Rejected(InvalidAmountCents)
    else if !IsCurrencyCode(NormalizeCurrency(currency)) then Rejected(InvalidCurrency)
    else Accepted(Order(id, user, event, tt, quantity, AwaitingPayment, reservedUntil, None,
                        amountCents, NormalizeCurrency(currency)))
  }

  /** The direct edges of the status graph: which source each transition accepts. */
  predicate CanMark(from: Status, to: Status) {
    match to
    case Charging => from.Pending?
    case Confirmed => from.Pending? || from.Charging?
    case Failed => from.Pending? || from.Charging?
    case AwaitingPayment => from.Pending?
    case Paid => from.AwaitingPayment?
    case Expired => from.AwaitingPayment?
    case PaymentFailed => from.AwaitingPayment?
    case Compensated => from.Failed? || from.Expired? || from.PaymentFailed?
    case Pending => false
  }

  /** `Order.Mark*`: a new value in the target status, or ErrInvalidTransition. */
  function Mark(o: Order, to: Status): OrderResult {
    if CanMark(o.status, to) then Accepted(o.(status := to)) else Rejected(InvalidTransition)
  }

  /** A sequence of `Mark*` calls; a refused one leaves the value alone. */
  function ApplyMarks(o: Order, ms: seq<Status>): Order
    decreases |ms|
  {
    if ms == [] then o
    else
      var r := Mark(o, ms[0]);
      ApplyMarks(if r.Accepted? then r.order else o, ms[1..])
  }

  /** Statuses in which the compensator still owes the inventory back. */
  predicate IsFailure(s: Status) { s == Failed || s == Expired || s == PaymentFailed }

  /** Statuses that come with exactly one `order.failed` trigger. */
  predicate IsTriggered(s: Status) { IsFailure(s) || s == Compensated }

  /** Statuses a payment webhook answers without a transaction of its own. */
  predicate IsTerminalForWebhook(st: Status) {
    st == Paid || st == PaymentFailed || st == Compensated || st == Expired
  }

  predicate IsFailureTerminalAfterPay(st: Status) {
    st == Expired || st == PaymentFailed || st == Compensated
  }

  /** Whether an order in status `a` may be in status `b` now or later. */
  predicate Reaches(a: Status, b: Status) {
    a == b ||
    match a
    case Pending => true
    case Charging => b.Confirmed? || b.Failed? || b.Compensated?
    case AwaitingPayment => b.Paid? || b.Expired? || b.PaymentFailed? || b.Compensated?
    case Failed => b.Compensated?
    case Expired => b.Compensated?
    case PaymentFailed => b.Compensated?
    case Confirmed => false
    case Paid => false
    case Compensated => false
  }

  /** Reachability is transitive, so facts about later statuses compose over runs. */
  lemma ReachesTransitive(a: Status, b: Status, c: Status)
    requires Reaches(a, b) && Reaches(b, c)
    ensures Reaches(a, c)
  {}

  /** Reachability is antisymmetric: no run returns to a status it has left. */
  lemma ReachesAntisymmetric(a: Status, b: Status)
    requires Reaches(a, b) && Reaches(b, a)
    ensures a == b
  {}

  /** A chain of `Mark*` targets from one status to a later one. */
  function Via(a: Status, b: Status): seq<Status>
    requires Reaches(a, b)
  {
    if a == b then []
    else if CanMark(a, b) then [b]
    else if b.Compensated? then (if a.AwaitingPayment? then [Expired, b] else [Failed, b])
    else [AwaitingPayment, b]
  }

  /** No chain of `Mark*` calls leaves `Reaches`, and none touches another field. */
  lemma {:induction false} MarksStayReachable(o: Order, ms: seq<Status>)
    ensures Reaches(o.status, ApplyMarks(o, ms).status)
    ensures ApplyMarks(o, ms) == o.(status := ApplyMarks(o, ms).status)
    decreases |ms|
  {
    if ms != [] {
      var r := Mark(o, ms[0]);
      var o' := if r.Accepted? then r.order else o;
      MarksStayReachable(o', ms[1..]);
      ReachesTransitive(o.status, o'.status, ApplyMarks(o', ms[1..]).status);
    }
  }

  lemma ViaArrives(o: Order, s: Status)
    requires Reaches(o.status, s)
    ensures ApplyMarks(o, Via(o.status, s)).status == s
  {
    var ms := Via(o.status, s);
    if |ms| == 1 {
      assert ms[1..] == [];
      assert ApplyMarks(o, ms) == ApplyMarks(Mark(o, ms[0]).order, []);
    } else if |ms| == 2 {
      var o1 := Mark(o, ms[0]).order;
      assert ms[1..] == [ms[1]] && ms[1..][1..] == [];
      assert ApplyMarks(o, ms) == ApplyMarks(o1, [ms[1]]);
      assert ApplyMarks(o1, [ms[1]]) == ApplyMarks(Mark(o1, ms[1]).order, []);
    }
  }

  /** `Reaches` is exact: it holds if and only if some chain of `Mark*` calls gets there. */
  lemma ReachesIsExact(o: Order, s: Status)
    ensures Reaches(o.status, s) <==> exists ms :: ApplyMarks(o, ms).status == s
  {
    if Reaches(o.status, s) {
      ViaArrives(o, s);
    }
    if ms :| ApplyMarks(o, ms).status == s {
      MarksStayReachable(o, ms);
    }
  }

  /** The `order.failed` wire payload; timestamps and the reason text are left out. */
  datatype OrderFailedEvent = OrderFailedEvent(order: Uuid, event: Uuid, user: int, tt: Uuid, quantity: int)

  function EventOf(o: Order): OrderFailedEvent {
    OrderFailedEvent(o.id, o.event, o.user, o.tt, o.quantity)
  }

  /** The columns no statement ever rewrites. */
  predicate SameIdentity(a: Order, b: Order) {
    && a.id == b.id && a.user == b.user && a.event == b.event && a.tt == b.tt
    && a.quantity == b.quantity && a.reservedUntil == b.reservedUntil
    && a.amountCents == b.amountCents && a.currency == b.currency
  }
}
