/**
 * What Postgres keeps in every run, whatever Redis, the queue and the faults do: tickets are
 * conserved, triggers match statuses one to one, and nothing a handler relies on is taken back.
 */
module DbSafety {
  import opened Sums
  import opened Domain
  import opened Options
  import opened Store

  type Orders = map<Uuid, Order>

  /** Units of `tt` that order `i` still keeps out of `avail`. */
  ghost function PgHeld(orders: Orders, tt: Uuid): nat -> int {
    (i: nat) => if i in orders && orders[i].tt == tt && orders[i].status != Compensated then orders[i].quantity else 0
  }

  ghost predicate Conserved(orders: Orders, avail: int, total: int, n: nat, tt: Uuid) {
    avail >= 0 && avail + Sum(n, PgHeld(orders, tt)) == total
  }

  ghost predicate OrderOk(o: Order, total: map<Uuid, int>, n: nat, i: Uuid) {
    o.id == i && i < n && o.tt != NIL && o.tt in total && o.quantity > 0
  }

  ghost predicate OrdersOk(orders: Orders, total: map<Uuid, int>, n: nat) {
    forall i :: i in orders ==> OrderOk(orders[i], total, n, i)
  }

  ghost predicate AllConserved(orders: Orders, avail: map<Uuid, int>, total: map<Uuid, int>, n: nat) {
    avail.Keys == total.Keys && forall tt :: tt in total ==> Conserved(orders, avail[tt], total[tt], n, tt)
  }

  /** An outbox row is the trigger of a failed or compensated order, with that order's own data. */
  ghost predicate RowOk(e: OrderFailedEvent, orders: Orders) {
    e.order in orders && e == EventOf(orders[e.order]) && IsTriggered(orders[e.order].status)
  }

  ghost predicate Triggered(outbox: seq<OutboxRow>, i: Uuid) {
    exists k :: 0 <= k < |outbox| && outbox[k].payload.order == i
  }

  /** Rows and triggered orders correspond one to one. */
  ghost predicate OutboxOk(outbox: seq<OutboxRow>, orders: Orders) {
    && (forall k :: 0 <= k < |outbox| ==> RowOk(outbox[k].payload, orders))
    && (forall k, l :: 0 <= k < l < |outbox| ==> outbox[k].payload.order != outbox[l].payload.order)
    && (forall i :: i in orders && IsTriggered(orders[i].status) ==> Triggered(outbox, i))
  }

  ghost predicate CompsOk(comps: map<Uuid, bool>, orders: Orders) {
    forall i :: i in comps <==> i in orders && orders[i].status == Compensated
  }

  ghost predicate IntentsDiffer(orders: Orders) {
    forall i, j :: i in orders && j in orders && i != j && orders[i].intent.Some? ==> orders[i].intent != orders[j].intent
  }

  predicate SameBuyer(a: Order, b: Order) { a.user == b.user && a.event == b.event }

  /** One order per user and event that is not Failed; one beside a Failed one was booked after it. */
  ghost predicate BuyersOk(orders: Orders) {
    forall i, j :: i in orders && j in orders && i != j && SameBuyer(orders[i], orders[j]) && orders[j].status != Failed ==>
      orders[i].status == Failed && Reaches(AwaitingPayment, orders[j].status)
  }

  ghost predicate DbInv(db: Db, n: nat) {
    && OrdersOk(db.orders, db.total, n)
    && AllConserved(db.orders, db.avail, db.total, n)
    && OutboxOk(db.outbox, db.orders)
    && CompsOk(db.comps, db.orders)
    && IntentsDiffer(db.orders)
    && BuyersOk(db.orders)
  }

  /** How rows may develop: identities and written intents stay, statuses only move forward, and no intent comes after payment is over. */
  ghost predicate RowExtends(a: Order, b: Order) {
    && SameIdentity(a, b) && Reaches(a.status, b.status)
    && (a.intent.Some? || IsTerminalForWebhook(a.status) ==> b.intent == a.intent)
  }

  ghost predicate OrdersExtend(a: Orders, b: Orders) {
    forall i :: i in a ==> i in b && RowExtends(a[i], b[i])
  }

  ghost predicate OutboxExtends(a: seq<OutboxRow>, b: seq<OutboxRow>) {
    |a| <= |b| && forall k :: 0 <= k < |a| ==> b[k].payload == a[k].payload && (a[k].processed ==> b[k].processed)
  }

  ghost predicate CompsExtend(a: map<Uuid, bool>, b: map<Uuid, bool>) {
    forall i :: i in a ==> i in b && (a[i] ==> b[i])
  }

  /** Everything a handler may rely on between two of its own steps. */
  ghost predicate Extends(a: Db, b: Db) {
    && OrdersExtend(a.orders, b.orders) && OutboxExtends(a.outbox, b.outbox) && CompsExtend(a.comps, b.comps)
    && a.total == b.total && a.types == b.types
  }

  lemma OrdersExtendTransitive(a: Orders, b: Orders, c: Orders)
    requires OrdersExtend(a, b) && OrdersExtend(b, c)
    ensures OrdersExtend(a, c)
  {
    forall i | i in a ensures i in c && RowExtends(a[i], c[i]) {
      ReachesTransitive(a[i].status, b[i].status, c[i].status);
    }
  }

  lemma ExtendsTransitive(a: Db, b: Db, c: Db)
    requires Extends(a, b) && Extends(b, c)
    ensures Extends(a, c)
  {
    OrdersExtendTransitive(a.orders, b.orders, c.orders);
  }

  lemma OutboxAppend(a: seq<OutboxRow>, r: OutboxRow)
    ensures OutboxExtends(a, a) && OutboxExtends(a, a + [r])
  {}

  lemma ExtendsReflexive(a: Db)
    ensures Extends(a, a)
  {}

  lemma Unpack(db: Db, n: nat)
    requires DbInv(db, n)
    ensures OrdersOk(db.orders, db.total, n) && AllConserved(db.orders, db.avail, db.total, n)
    ensures OutboxOk(db.outbox, db.orders) && CompsOk(db.comps, db.orders) && IntentsDiffer(db.orders) && BuyersOk(db.orders)
  {}

  lemma Pack(a: Db, b: Db, n: nat)
    requires OrdersOk(b.orders, b.total, n) && AllConserved(b.orders, b.avail, b.total, n)
    requires OutboxOk(b.outbox, b.orders) && CompsOk(b.comps, b.orders) && IntentsDiffer(b.orders) && BuyersOk(b.orders)
    requires OrdersExtend(a.orders, b.orders) && OutboxExtends(a.outbox, b.outbox) && CompsExtend(a.comps, b.comps)
    requires a.total == b.total && a.types == b.types
    ensures DbInv(b, n) && Extends(a, b)
  {}

  lemma PartsReflexive(a: Db)
    ensures OrdersExtend(a.orders, a.orders) && OutboxExtends(a.outbox, a.outbox) && CompsExtend(a.comps, a.comps)
  {}

  // ---- One row changes ----

  lemma SumHeldUpdate(orders: Orders, k: Uuid, o: Order, n: nat, tt: Uuid)
    requires k < n
    ensures var b := orders[k := o];
      Sum(n, PgHeld(b, tt)) == Sum(n, PgHeld(orders, tt)) - PgHeld(orders, tt)(k) + PgHeld(b, tt)(k)
  {
    SumUpdate(n, PgHeld(orders, tt), PgHeld(orders[k := o], tt), k);
  }

  /** Units that order `k` keeps, as a row or as no row at all. */
  ghost function Kept(orders: Orders, k: Uuid): int {
    if k in orders && orders[k].status != Compensated then orders[k].quantity else 0
  }

  /** Conservation survives a row change whose difference `avail` absorbs. */
  lemma ConservedUpdate(orders: Orders, avail: map<Uuid, int>, total: map<Uuid, int>, n: nat, k: Uuid, o: Order, left: int)
    requires AllConserved(orders, avail, total, n) && k < n && o.tt in avail
    requires k in orders ==> orders[k].tt == o.tt
    requires left >= 0 && left == avail[o.tt] + Kept(orders, k) - Kept(orders[k := o], k)
    ensures AllConserved(orders[k := o], avail[o.tt := left], total, n)
  {
    var b, av := orders[k := o], avail[o.tt := left];
    forall tt | tt in total ensures Conserved(b, av[tt], total[tt], n, tt) {
      assert Conserved(orders, avail[tt], total[tt], n, tt);
      SumHeldUpdate(orders, k, o, n, tt);
    }
  }

  lemma ConservedSame(orders: Orders, avail: map<Uuid, int>, total: map<Uuid, int>, n: nat, k: Uuid, o: Order)
    requires AllConserved(orders, avail, total, n) && k < n && k in orders && o.tt in avail
    requires SameIdentity(orders[k], o) && (orders[k].status == Compensated) == (o.status == Compensated)
    ensures AllConserved(orders[k := o], avail, total, n)
  {
    assert Conserved(orders, avail[o.tt], total[o.tt], n, o.tt);
    ConservedUpdate(orders, avail, total, n, k, o, avail[o.tt]);
    assert avail[o.tt := avail[o.tt]] == avail;
  }

  lemma TicketsTaken(orders: Orders, avail: map<Uuid, int>, total: map<Uuid, int>, n: nat, o: Order)
    requires AllConserved(orders, avail, total, n) && o.id < n && o.id !in orders && o.status != Compensated
    requires o.tt in avail && avail[o.tt] >= o.quantity
    ensures AllConserved(orders[o.id := o], avail[o.tt := avail[o.tt] - o.quantity], total, n)
  {
    ConservedUpdate(orders, avail, total, n, o.id, o, avail[o.tt] - o.quantity);
  }

  lemma TicketsReturned(orders: Orders, avail: map<Uuid, int>, total: map<Uuid, int>, n: nat, k: Uuid)
    requires AllConserved(orders, avail, total, n) && k < n && k in orders && orders[k].status != Compensated
    requires orders[k].tt in avail && orders[k].quantity >= 0
    ensures var o := orders[k];
      AllConserved(orders[k := o.(status := Compensated)], avail[o.tt := avail[o.tt] + o.quantity], total, n)
  {
    var o := orders[k];
    assert Conserved(orders, avail[o.tt], total[o.tt], n, o.tt);
    ConservedUpdate(orders, avail, total, n, k, o.(status := Compensated), avail[o.tt] + o.quantity);
  }

  lemma OutboxQuiet(outbox: seq<OutboxRow>, orders: Orders, k: Uuid, o: Order)
    requires OutboxOk(outbox, orders)
    requires k in orders ==> SameIdentity(orders[k], o) && IsTriggered(orders[k].status) == IsTriggered(o.status)
    requires k !in orders ==> !IsTriggered(o.status)
    ensures OutboxOk(outbox, orders[k := o])
  {
    forall r | 0 <= r < |outbox| ensures RowOk(outbox[r].payload, orders[k := o]) {
      assert RowOk(outbox[r].payload, orders);
    }
  }

  lemma OutboxTrigger(outbox: seq<OutboxRow>, orders: Orders, k: Uuid, o: Order)
    requires OutboxOk(outbox, orders) && k in orders && SameIdentity(orders[k], o) && o.id == k
    requires !IsTriggered(orders[k].status) && IsTriggered(o.status)
    ensures OutboxOk(outbox + [OutboxRow(EventOf(o), false)], orders[k := o])
  {
    var b := orders[k := o];
    var ob := outbox + [OutboxRow(EventOf(o), false)];
    forall r | 0 <= r < |ob| ensures RowOk(ob[r].payload, b) {
      if r < |outbox| { assert RowOk(outbox[r].payload, orders); }
    }
    forall q, l | 0 <= q < l < |ob| ensures ob[q].payload.order != ob[l].payload.order {
      assert RowOk(outbox[q].payload, orders);
    }
    forall i | i in b && IsTriggered(b[i].status) ensures Triggered(ob, i) {
      if i == k {
        assert ob[|outbox|].payload.order == k;
      } else {
        var q :| 0 <= q < |outbox| && outbox[q].payload.order == i;
        assert ob[q].payload.order == i;
      }
    }
  }

  /** No other row holds `o`'s intent. */
  ghost predicate IntentFree(orders: Orders, k: Uuid, o: Order) {
    o.intent.Some? ==> forall j :: j in orders && j != k ==> orders[j].intent != o.intent
  }

  lemma IntentsUpdate(orders: Orders, k: Uuid, o: Order)
    requires IntentsDiffer(orders)
    requires IntentFree(orders, k, o)
    ensures IntentsDiffer(orders[k := o])
  {}

  lemma IntentsSame(orders: Orders, k: Uuid, o: Order)
    requires IntentsDiffer(orders) && k in orders && o.intent == orders[k].intent
    ensures IntentsDiffer(orders[k := o])
  {}

  lemma BuyersSame(orders: Orders, k: Uuid, o: Order)
    requires BuyersOk(orders) && k in orders && SameIdentity(orders[k], o) && Reaches(orders[k].status, o.status)
    requires orders[k].status == Failed && o.status != Failed ==> forall j :: j in orders && SameBuyer(o, orders[j]) ==> orders[j].status == Failed
    ensures BuyersOk(orders[k := o])
  {
    var b := orders[k := o];
    forall i, j | i in b && j in b && i != j && SameBuyer(b[i], b[j]) && b[j].status != Failed
      ensures b[i].status == Failed && Reaches(AwaitingPayment, b[j].status)
    {
      assert SameBuyer(orders[i], orders[j]);
      if j == k && orders[k].status != Failed { ReachesTransitive(AwaitingPayment, orders[k].status, o.status); }
    }
  }

  lemma BuyersFresh(orders: Orders, o: Order)
    requires BuyersOk(orders) && o.id !in orders && o.status == AwaitingPayment
    requires forall j :: j in orders && SameBuyer(o, orders[j]) ==> orders[j].status == Failed
    ensures BuyersOk(orders[o.id := o])
  {
    var b := orders[o.id := o];
    forall i, j | i in b && j in b && i != j && SameBuyer(b[i], b[j]) && b[j].status != Failed
      ensures b[i].status == Failed && Reaches(AwaitingPayment, b[j].status)
    {
      if i != o.id && j != o.id { assert SameBuyer(orders[i], orders[j]); }
    }
  }

  /** The unique index refuses exactly a row whose user has another one in it. */
  lemma HoldsMeans(db: Db, o: Order)
    ensures UserHolds(db, o.user, o.event) <==> !(forall j :: j in db.orders && SameBuyer(o, db.orders[j]) ==> db.orders[j].status == Failed)
  {
    if UserHolds(db, o.user, o.event) {
      var j :| j in db.orders && db.orders[j].user == o.user && db.orders[j].event == o.event && db.orders[j].status != Failed;
      assert SameBuyer(o, db.orders[j]);
    }
  }

  lemma OrdersUpdate(orders: Orders, total: map<Uuid, int>, n: nat, k: Uuid, o: Order)
    requires OrdersOk(orders, total, n) && OrderOk(o, total, n, k)
    ensures OrdersOk(orders[k := o], total, n)
  {
    var b := orders[k := o];
    forall i | i in b ensures OrderOk(b[i], total, n, i) {
      if i != k { assert OrderOk(orders[i], total, n, i); }
    }
  }

  lemma CompsQuiet(comps: map<Uuid, bool>, orders: Orders, k: Uuid, o: Order)
    requires CompsOk(comps, orders)
    requires (o.status == Compensated) == (k in orders && orders[k].status == Compensated)
    ensures CompsOk(comps, orders[k := o])
  {}

  lemma ExtendUpdate(orders: Orders, k: Uuid, o: Order)
    requires k in orders ==> RowExtends(orders[k], o)
    ensures OrdersExtend(orders, orders[k := o])
  {}

  lemma RowFacts(db: Db, n: nat, k: Uuid)
    requires DbInv(db, n) && k in db.orders
    ensures k < n && db.orders[k].id == k && db.orders[k].quantity > 0
    ensures db.orders[k].tt in db.avail && db.orders[k].tt in db.total && db.orders[k].tt != NIL
    ensures OrderOk(db.orders[k], db.total, n, k)
    ensures k in db.comps <==> db.orders[k].status == Compensated
  {
    assert OrderOk(db.orders[k], db.total, n, k);
  }

  lemma RowExtendsFacts(a: Order, b: Order, total: map<Uuid, int>, n: nat, k: Uuid)
    requires OrderOk(a, total, n, k) && RowExtends(a, b)
    ensures OrderOk(b, total, n, k) && SameIdentity(a, b) && Reaches(a.status, b.status) && b.tt == a.tt
  {}

  /** Any change of one row that starts no trigger and keeps its units. */
  lemma QuietUpdate(a: Db, n: nat, k: Uuid, o: Order)
    requires DbInv(a, n) && k in a.orders && RowExtends(a.orders[k], o) && a.orders[k].status != Failed
    requires IsTriggered(a.orders[k].status) == IsTriggered(o.status)
    requires (a.orders[k].status == Compensated) == (o.status == Compensated)
    requires IntentFree(a.orders, k, o)
    ensures DbInv(a.(orders := a.orders[k := o]), n) && Extends(a, a.(orders := a.orders[k := o]))
  {
    hide DbInv, Extends, OrdersOk, AllConserved, OutboxOk, CompsOk, IntentsDiffer, BuyersOk, OrdersExtend, OutboxExtends, CompsExtend,
         SameIdentity, RowExtends, OrderOk, CanMark, Reaches, IntentFree;
    RowFacts(a, n, k);
    RowExtendsFacts(a.orders[k], o, a.total, n, k);
    Unpack(a, n);
    PartsReflexive(a);
    ConservedSame(a.orders, a.avail, a.total, n, k, o);
    OutboxQuiet(a.outbox, a.orders, k, o);
    IntentsUpdate(a.orders, k, o);
    BuyersSame(a.orders, k, o);
    OrdersUpdate(a.orders, a.total, n, k, o);
    CompsQuiet(a.comps, a.orders, k, o);
    ExtendUpdate(a.orders, k, o);
    Pack(a, a.(orders := a.orders[k := o]), n);
  }

  // ---- The statements and transactions ----

  lemma IntentKept(db: Db, n: nat, k: Uuid, o: Order)
    requires DbInv(db, n) && k in db.orders && o.intent == db.orders[k].intent
    ensures IntentFree(db.orders, k, o)
  {}

  lemma ConfirmKeeps(db: Db, n: nat, id: Uuid)
    requires DbInv(db, n)
    ensures var r := Transition(db, id, Confirmed); DbInv(r.db, n) && Extends(db, r.db)
  {
    hide DbInv, Extends, IntentFree;
    ExtendsReflexive(db);
    if Transition(db, id, Confirmed).error == Ok {
      IntentKept(db, n, id, db.orders[id].(status := Confirmed));
      QuietUpdate(db, n, id, db.orders[id].(status := Confirmed));
    }
  }

  lemma SetIntentKeeps(db: Db, n: nat, id: Uuid, intent: string, now: int, clock: int)
    requires DbInv(db, n)
    ensures var r := SetIntent(db, id, intent, now, clock); DbInv(r.db, n) && Extends(db, r.db)
  {
    hide DbInv, Extends;
    ExtendsReflexive(db);
    if SetIntent(db, id, intent, now, clock).error == Ok {
      QuietUpdate(db, n, id, db.orders[id].(intent := Some(intent)));
    }
  }

  lemma MarkPaidKeeps(db: Db, n: nat, id: Uuid, now: int, clock: int)
    requires DbInv(db, n)
    ensures var r := MarkPaidRow(db, id, now, clock); DbInv(r.db, n) && Extends(db, r.db)
  {
    hide DbInv, Extends, IntentFree;
    ExtendsReflexive(db);
    if MarkPaidRow(db, id, now, clock).error == Ok {
      IntentKept(db, n, id, db.orders[id].(status := Paid));
      QuietUpdate(db, n, id, db.orders[id].(status := Paid));
    }
  }

  lemma PayTxKeeps(db: Db, n: nat, o: Order, intent: string, now: int, clock: int)
    requires DbInv(db, n)
    ensures var r := PayTx(db, o, intent, now, clock); DbInv(r.db, n) && Extends(db, r.db)
  {
    hide DbInv, Extends, SetIntent, MarkPaidRow;
    ExtendsReflexive(db);
    var r := if o.IntentID() == "" then SetIntent(db, o.id, intent, now, clock) else DbResult(db, Ok);
    SetIntentKeeps(db, n, o.id, intent, now, clock);
    MarkPaidKeeps(r.db, n, o.id, now, clock);
    ExtendsTransitive(db, r.db, MarkPaidRow(r.db, o.id, now, clock).db);
  }

  lemma StatusChange(a: Order, b: Order, total: map<Uuid, int>, n: nat)
    requires b == a.(status := b.status) && CanMark(a.status, b.status) && OrderOk(a, total, n, a.id)
    ensures SameIdentity(a, b) && RowExtends(a, b) && OrderOk(b, total, n, a.id)
    ensures !IsTriggered(a.status) || b.status == Compensated
    ensures a.status != Compensated
  {}

  function Failing(db: Db, k: Uuid, to: Status): Db
    requires k in db.orders
  {
    AddOutbox(db.(orders := db.orders[k := db.orders[k].(status := to)]), EventOf(db.orders[k]))
  }

  lemma FailingKeeps(db: Db, n: nat, k: Uuid, to: Status)
    requires DbInv(db, n) && k in db.orders && IsFailure(to) && CanMark(db.orders[k].status, to)
    ensures DbInv(Failing(db, k, to), n) && Extends(db, Failing(db, k, to))
  {
    hide DbInv, Extends, OrdersOk, AllConserved, OutboxOk, CompsOk, IntentsDiffer, BuyersOk, OrdersExtend, OutboxExtends, CompsExtend,
         SameIdentity, RowExtends, OrderOk, CanMark, Reaches, IntentFree;
    RowFacts(db, n, k);
    Unpack(db, n);
    PartsReflexive(db);
    var o := db.orders[k].(status := to);
    StatusChange(db.orders[k], o, db.total, n);
    ConservedSame(db.orders, db.avail, db.total, n, k, o);
    OutboxTrigger(db.outbox, db.orders, k, o);
    OutboxAppend(db.outbox, OutboxRow(EventOf(o), false));
    IntentsSame(db.orders, k, o);
    BuyersSame(db.orders, k, o);
    OrdersUpdate(db.orders, db.total, n, k, o);
    CompsQuiet(db.comps, db.orders, k, o);
    ExtendUpdate(db.orders, k, o);
    Pack(db, Failing(db, k, to), n);
  }

  /** Status change and trigger together: the stale payload is still the row's own data. */
  lemma FailTxKeeps(db: Db, n: nat, o: Order, to: Status)
    requires DbInv(db, n) && o.id in db.orders && SameIdentity(o, db.orders[o.id]) && IsFailure(to)
    ensures var r := FailTx(db, o, to); DbInv(r.db, n) && Extends(db, r.db)
    ensures var r := FailTx(db, o, to);
      if CanMark(db.orders[o.id].status, to) then r == DbResult(Failing(db, o.id, to), Ok)
      else r == DbResult(db, InvalidTransition)
  {
    hide DbInv, Extends;
    ExtendsReflexive(db);
    if CanMark(db.orders[o.id].status, to) { FailingKeeps(db, n, o.id, to); }
  }

  function Booking(db: Db, o: Order): Db
    requires o.tt in db.avail
  {
    db.(orders := db.orders[o.id := o], avail := db.avail[o.tt := db.avail[o.tt] - o.quantity])
  }

  lemma FreshFacts(db: Db, n: nat, o: Order)
    requires DbInv(db, n) && o.id < n && o.tt != NIL && o.quantity > 0 && o.intent.None? && o.tt in db.avail
    ensures OrderOk(o, db.total, n, o.id) && IntentFree(db.orders, o.id, o)
  {
    assert db.avail.Keys == db.total.Keys;
  }

  lemma BookingKeeps(db: Db, n: nat, o: Order)
    requires DbInv(db, n) && o.id < n && o.status == AwaitingPayment && o.tt != NIL && o.quantity > 0 && o.intent.None?
    requires o.id !in db.orders && o.tt in db.avail && db.avail[o.tt] >= o.quantity && !UserHolds(db, o.user, o.event)
    ensures DbInv(Booking(db, o), n) && Extends(db, Booking(db, o))
  {
    hide DbInv, Extends, OrdersOk, AllConserved, OutboxOk, CompsOk, IntentsDiffer, BuyersOk, OrdersExtend, OutboxExtends, CompsExtend,
         SameIdentity, RowExtends, OrderOk, CanMark, Reaches, IntentFree;
    Unpack(db, n);
    PartsReflexive(db);
    FreshFacts(db, n, o);
    TicketsTaken(db.orders, db.avail, db.total, n, o);
    OutboxQuiet(db.outbox, db.orders, o.id, o);
    IntentsUpdate(db.orders, o.id, o);
    HoldsMeans(db, o);
    BuyersFresh(db.orders, o);
    OrdersUpdate(db.orders, db.total, n, o.id, o);
    CompsQuiet(db.comps, db.orders, o.id, o);
    ExtendUpdate(db.orders, o.id, o);
    Pack(db, Booking(db, o), n);
  }

  /** The worker's commit: what the new row keeps is what `avail` loses. */
  lemma BookTxKeeps(db: Db, n: nat, o: Order)
    requires DbInv(db, n) && o.id < n && o.status == AwaitingPayment && o.tt != NIL && o.quantity > 0 && o.intent.None?
    ensures var r := BookTx(db, o); DbInv(r.db, n) && Extends(db, r.db)
    ensures var r := BookTx(db, o);
      if r.error == Ok then o.id !in db.orders && o.tt in db.avail && r.db == Booking(db, o) else r.db == db
  {
    hide DbInv, Extends;
    ExtendsReflexive(db);
    if BookTx(db, o).error == Ok { HoldsMeans(db, o); BookingKeeps(db, n, o); }
  }

  lemma HeldNonNegative(orders: Orders, total: map<Uuid, int>, n: nat, tt: Uuid)
    requires OrdersOk(orders, total, n)
    ensures forall i: nat :: i < n ==> PgHeld(orders, tt)(i) >= 0
  {
    forall i: nat | i < n ensures PgHeld(orders, tt)(i) >= 0 {
      if i in orders { assert OrderOk(orders[i], total, n, i); }
    }
  }

  lemma UnitsCounted(orders: Orders, avail: map<Uuid, int>, total: map<Uuid, int>, n: nat, k: Uuid)
    requires OrdersOk(orders, total, n) && AllConserved(orders, avail, total, n)
    requires k in orders && k < n && orders[k].status != Compensated && orders[k].tt in total
    ensures orders[k].tt in avail && avail[orders[k].tt] + orders[k].quantity <= total[orders[k].tt]
  {
    var tt := orders[k].tt;
    assert Conserved(orders, avail[tt], total[tt], n, tt);
    HeldNonNegative(orders, total, n, tt);
    SumAtLeast(n, PgHeld(orders, tt), k);
  }

  /** An order's own units always fit back: the `total` guard of IncrementTicket cannot refuse them. */
  lemma UnitsFit(db: Db, n: nat, k: Uuid)
    requires DbInv(db, n) && k in db.orders && db.orders[k].status != Compensated
    ensures var o := db.orders[k];
      o.tt in db.avail
      && IncrementTicket(db, o.tt, o.quantity) == DbResult(db.(avail := db.avail[o.tt := db.avail[o.tt] + o.quantity]), Ok)
  {
    hide DbInv, OrdersOk, AllConserved;
    RowFacts(db, n, k);
    Unpack(db, n);
    UnitsCounted(db.orders, db.avail, db.total, n, k);
  }

  lemma CompsAdd(comps: map<Uuid, bool>, orders: Orders, k: Uuid)
    requires CompsOk(comps, orders) && k in orders && k !in comps
    ensures CompsOk(comps[k := false], orders[k := orders[k].(status := Compensated)])
    ensures CompsExtend(comps, comps[k := false])
  {}

  lemma OutboxCompensated(outbox: seq<OutboxRow>, orders: Orders, k: Uuid)
    requires OutboxOk(outbox, orders) && k in orders && IsTriggered(orders[k].status)
    ensures OutboxOk(outbox, orders[k := orders[k].(status := Compensated)])
  {
    OutboxQuiet(outbox, orders, k, orders[k].(status := Compensated));
  }

  lemma CompensableFacts(a: Order, total: map<Uuid, int>, n: nat)
    requires IsFailure(a.status) && OrderOk(a, total, n, a.id)
    ensures OrderOk(a.(status := Compensated), total, n, a.id) && RowExtends(a, a.(status := Compensated))
  {}

  function Compensating(db: Db, k: Uuid): Db
    requires k in db.orders && db.orders[k].tt in db.avail
  {
    var o := db.orders[k];
    db.(orders := db.orders[k := o.(status := Compensated)], avail := db.avail[o.tt := db.avail[o.tt] + o.quantity],
        comps := db.comps[k := false])
  }

  /** Failed in one way or another, and not superseded. */
  predicate Compensable(db: Db, k: Uuid) { k in db.orders && IsFailure(db.orders[k].status) && !Superseded(db, k) }

  lemma CompensatingKeeps(db: Db, n: nat, k: Uuid)
    requires DbInv(db, n) && Compensable(db, k)
    ensures db.orders[k].tt in db.avail && DbInv(Compensating(db, k), n) && Extends(db, Compensating(db, k))
  {
    hide DbInv, Extends, OrdersOk, AllConserved, OutboxOk, CompsOk, IntentsDiffer, BuyersOk, OrdersExtend, OutboxExtends, CompsExtend,
         SameIdentity, RowExtends, OrderOk, CanMark, Reaches;
    RowFacts(db, n, k);
    Unpack(db, n);
    PartsReflexive(db);
    var o := db.orders[k].(status := Compensated);
    CompensableFacts(db.orders[k], db.total, n);
    TicketsReturned(db.orders, db.avail, db.total, n, k);
    OutboxCompensated(db.outbox, db.orders, k);
    CompsAdd(db.comps, db.orders, k);
    IntentsSame(db.orders, k, o);
    HoldsMeans(db, o);
    BuyersSame(db.orders, k, o);
    OrdersUpdate(db.orders, db.total, n, k, o);
    ExtendUpdate(db.orders, k, o);
    Pack(db, Compensating(db, k), n);
  }

  /**
   * The compensator's writes: they succeed exactly on a failed order that is not superseded, then return
   * exactly its own units; on any other order the increment is rolled back with everything else.
   */
  lemma CompensateTxKeeps(db: Db, n: nat, e: OrderFailedEvent)
    requires DbInv(db, n) && e.order in db.orders && e == EventOf(db.orders[e.order])
    ensures var r := CompensateTx(db, e, e.tt); DbInv(r.db, n) && Extends(db, r.db)
    ensures var r := CompensateTx(db, e, e.tt);
      if Compensable(db, e.order)
      then db.orders[e.order].tt in db.avail && r == DbResult(Compensating(db, e.order), Ok)
      else r.error != Ok && r.db == db
  {
    hide DbInv, Extends;
    var k := e.order;
    ExtendsReflexive(db);
    RowFacts(db, n, k);
    if Compensable(db, k) {
      UnitsFit(db, n, k);
      CompensatingKeeps(db, n, k);
    }
  }

  lemma MarkProcessedKeeps(db: Db, n: nat, k: nat)
    requires DbInv(db, n)
    ensures DbInv(MarkProcessed(db, k), n) && Extends(db, MarkProcessed(db, k))
  {
    OutboxProcessed(db.outbox, db.orders, k);
    ExtendsReflexive(db);
  }

  lemma OutboxProcessed(outbox: seq<OutboxRow>, orders: Orders, k: nat)
    requires OutboxOk(outbox, orders)
    ensures k < |outbox| ==> var b := outbox[k := outbox[k].(processed := true)]; OutboxOk(b, orders) && OutboxExtends(outbox, b)
  {
    if k < |outbox| {
      var b := outbox[k := outbox[k].(processed := true)];
      forall i | i in orders && IsTriggered(orders[i].status) ensures Triggered(b, i) {
        var q :| 0 <= q < |outbox| && outbox[q].payload.order == i;
        assert b[q].payload.order == i;
      }
      forall q | 0 <= q < |b| ensures RowOk(b[q].payload, orders) {
        assert RowOk(outbox[q].payload, orders);
      }
    }
  }

  lemma MarkRedisRevertedKeeps(db: Db, n: nat, id: Uuid)
    requires DbInv(db, n)
    ensures var r := MarkRedisReverted(db, id); DbInv(r.db, n) && Extends(db, r.db)
  {
    hide DbInv, Extends, OrdersOk, AllConserved, OutboxOk, CompsOk, IntentsDiffer, BuyersOk, OrdersExtend, OutboxExtends, CompsExtend;
    ExtendsReflexive(db);
    PartsReflexive(db);
    Unpack(db, n);
    if id in db.comps {
      CompsMarked(db.comps, db.orders, id);
      Pack(db, MarkRedisReverted(db, id).db, n);
    }
  }

  lemma CompsMarked(comps: map<Uuid, bool>, orders: Orders, id: Uuid)
    requires CompsOk(comps, orders) && id in comps
    ensures CompsOk(comps[id := true], orders) && CompsExtend(comps, comps[id := true])
  {}

  lemma BoundGrows(db: Db, n: nat, m: nat)
    requires DbInv(db, n) && n <= m
    ensures DbInv(db, m)
  {
    forall tt | tt in db.total ensures Conserved(db.orders, db.avail[tt], db.total[tt], m, tt) {
      assert Conserved(db.orders, db.avail[tt], db.total[tt], n, tt);
      forall i: nat | n <= i < m ensures PgHeld(db.orders, tt)(i) == 0 {
        assert i in db.orders ==> OrderOk(db.orders[i], db.total, n, i);
      }
      SumShrink(n, m, PgHeld(db.orders, tt));
    }
    forall i | i in db.orders ensures OrderOk(db.orders[i], db.total, m, i) {
      assert OrderOk(db.orders[i], db.total, n, i);
    }
  }
}
