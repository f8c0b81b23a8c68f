/** What a booking message becomes: the row the worker inserts, and the order a caller is answered with. */
module Messages {
  import opened Domain
  import opened Options
  import opened Store
  import opened Protocol

  /** The row of a message: its own columns, a fresh reservation without an intent, the currency in lower case. */
  predicate RowOf(m: Msg, o: Order) {
    && o.id == m.id && o.user == m.user && o.event == m.event && o.tt == m.tt && o.quantity == m.quantity
    && o.reservedUntil == m.reservedUntil && o.amountCents == m.amountCents && o.status == AwaitingPayment && o.intent == None
    && |o.currency| == |m.currency| == 3 && forall k :: 0 <= k < 3 ==> IsLetter(m.currency[k]) && o.currency[k] == LowerChar(m.currency[k])
  }

  /** A message that becomes an order at all. */
  predicate WellFormed(m: Msg, clock: int) {
    && m.id != NIL && m.user > 0 && m.event != NIL && m.tt != NIL && m.quantity > 0 && m.reservedUntil > clock && m.amountCents > 0
    && |m.currency| == 3 && forall k :: 0 <= k < 3 ==> IsLetter(m.currency[k])
  }

  /** An error names a field that is wrong. */
  predicate Blames(m: Msg, clock: int, e: Error) {
    match e
    case InvalidOrderID => m.id == NIL
    case InvalidUserID => m.user <= 0
    case InvalidEventID => m.event == NIL
    case InvalidTicketTypeID => m.tt == NIL
    case InvalidQuantity => m.quantity <= 0
    case InvalidReservedUntil => m.reservedUntil <= clock
    case InvalidAmountCents => m.amountCents <= 0
    case InvalidCurrency => |m.currency| != 3 || exists k :: 0 <= k < 3 && !IsLetter(m.currency[k])
    case _ => false
  }

  /** NewReservation accepts exactly the well-formed messages, with the message's own data, and blames a wrong field of any other. */
  lemma ReserveIsExact(m: Msg, clock: int)
    ensures Reserve(m, clock).Accepted? <==> WellFormed(m, clock)
    ensures Reserve(m, clock).Accepted? ==> RowOf(m, Reserve(m, clock).order)
    ensures Reserve(m, clock).Rejected? ==> Blames(m, clock, Reserve(m, clock).error)
  {
    var c := NormalizeCurrency(m.currency);
    assert |c| == |m.currency| && forall k :: 0 <= k < |c| ==> c[k] == LowerChar(m.currency[k]);
    if |c| == 3 {
      forall k | 0 <= k < 3 ensures IsLetter(c[k]) <==> IsLetter(m.currency[k]) {}
      if !IsCurrencyCode(c) {
        var k :| 0 <= k < 3 && !IsLetter(c[k]);
        assert !IsLetter(m.currency[k]);
      }
    }
  }
}
