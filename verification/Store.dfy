/** The two stores: the Postgres statements and the Redis scripts, as functions on values. */
module Store {
  import opened Domain
  import opened Options

  datatype OutboxRow = OutboxRow(payload: OrderFailedEvent, processed: bool)

  datatype TypeRow = TypeRow(id: Uuid, event: Uuid)

  /** `types` lists the ticket types in creation order, `avail`/`total` are the ticket_type columns; `comps` maps an order to "redis_reverted_at is set". */
  datatype Db = Db(
    orders: map<Uuid, Order>,
    avail: map<Uuid, int>,
    total: map<Uuid, int>,
    types: seq<TypeRow>,
    outbox: seq<OutboxRow>,
    comps: map<Uuid, bool>)

  datatype DbResult = DbResult(db: Db, error: Error)

  predicate UserHolds(db: Db, user: int, event: Uuid) {
    exists i :: i in db.orders && db.orders[i].user == user && db.orders[i].event == event
                && db.orders[i].status != Failed
  }

  /** INSERT of a fresh order: primary key, and one live order per user and event. */
  function CreateOrder(db: Db, o: Order): DbResult {
    if o.id in db.orders || UserHolds(db, o.user, o.event) then DbResult(db, AlreadyBought)
    else DbResult(db.(orders := db.orders[o.id := o]), Ok)
  }

  /** A failed row whose user has bought again: outside the unique index, and it cannot come back in. */
  predicate Superseded(db: Db, id: Uuid) {
    id in db.orders && db.orders[id].status == Failed && UserHolds(db, db.orders[id].user, db.orders[id].event)
  }

  /** One guarded UPDATE; leaving Failed brings the row back under the unique index. */
  function Transition(db: Db, id: Uuid, to: Status): DbResult {
    if id !in db.orders then DbResult(db, NotFound)
    else if !CanMark(db.orders[id].status, to) then DbResult(db, InvalidTransition)
    else if Superseded(db, id) then DbResult(db, Infra)
    else DbResult(db.(orders := db.orders[id := db.orders[id].(status := to)]), Ok)
  }

  /** Names the reason why a guarded update touched no row; `appNow` is the process's own clock. */
  function ClassifyPaidGuard(db: Db, id: Uuid, expected: string, appNow: int): Error {
    if id !in db.orders then NotFound
    else
      var o := db.orders[id];
      if o.status != AwaitingPayment then InvalidTransition
      else if o.reservedUntil <= appNow then ReservationExpired
      else if expected != "" && o.IntentID() != "" && o.IntentID() != expected then InvalidTransition
      else Infra
  }

  function MarkPaidRow(db: Db, id: Uuid, now: int, appNow: int): DbResult {
    if id in db.orders && db.orders[id].status == AwaitingPayment && db.orders[id].reservedUntil > now then
      DbResult(db.(orders := db.orders[id := db.orders[id].(status := Paid)]), Ok)
    else DbResult(db, ClassifyPaidGuard(db, id, "", appNow))
  }

  predicate IntentTaken(db: Db, id: Uuid, intent: string) {
    exists j :: j in db.orders && j != id && db.orders[j].intent == Some(intent)
  }

  function SetIntent(db: Db, id: Uuid, intent: string, now: int, appNow: int): DbResult {
    if id in db.orders && db.orders[id].status == AwaitingPayment && db.orders[id].reservedUntil > now
       && (db.orders[id].intent == None || db.orders[id].intent == Some(intent)) then
      if IntentTaken(db, id, intent) then DbResult(db, Infra)
      else DbResult(db.(orders := db.orders[id := db.orders[id].(intent := Some(intent))]), Ok)
    else DbResult(db, ClassifyPaidGuard(db, id, intent, appNow))
  }

  function DecrementTicket(db: Db, tt: Uuid, n: int): DbResult {
    if tt in db.avail && db.avail[tt] >= n then DbResult(db.(avail := db.avail[tt := db.avail[tt] - n]), Ok)
    else DbResult(db, SoldOut)
  }

  /** The statement refuses to restore past `total`. */
  function IncrementTicket(db: Db, tt: Uuid, n: int): DbResult {
    if tt in db.avail && tt in db.total && db.avail[tt] + n <= db.total[tt] then
      DbResult(db.(avail := db.avail[tt := db.avail[tt] + n]), Ok)
    else DbResult(db, Infra)
  }

  function AddOutbox(db: Db, e: OrderFailedEvent): Db {
    db.(outbox := db.outbox + [OutboxRow(e, false)])
  }

  function MarkProcessed(db: Db, k: nat): Db {
    if k < |db.outbox| then db.(outbox := db.outbox[k := db.outbox[k].(processed := true)]) else db
  }

  /** ON CONFLICT DO NOTHING. */
  function RecordCompletion(db: Db, id: Uuid): Db {
    if id in db.comps then db else db.(comps := db.comps[id := false])
  }

  predicate WasRedisReverted(db: Db, id: Uuid) { id in db.comps && db.comps[id] }

  function MarkRedisReverted(db: Db, id: Uuid): DbResult {
    if id in db.comps then DbResult(db.(comps := db.comps[id := true]), Ok) else DbResult(db, Infra)
  }

  function ListByEvent(types: seq<TypeRow>, event: Uuid): seq<Uuid> {
    if types == [] then []
    else (if types[0].event == event then [types[0].id] else []) + ListByEvent(types[1..], event)
  }

  /** Status change plus saga trigger in one transaction; the payload comes from `o`, read earlier. */
  function FailTx(db: Db, o: Order, to: Status): DbResult {
    var r := Transition(db, o.id, to);
    if r.error == Ok then DbResult(AddOutbox(r.db, EventOf(o)), Ok) else DbResult(db, r.error)
  }

  /** The worker's transaction. */
  function BookTx(db: Db, o: Order): DbResult {
    var d := DecrementTicket(db, o.tt, o.quantity);
    if d.error != Ok then DbResult(db, d.error)
    else
      var c := CreateOrder(d.db, o);
      if c.error == Ok then c else DbResult(db, c.error)
  }

  /** The webhook's transaction: orphan repair when the read row had no intent, then MarkPaid. */
  function PayTx(db: Db, o: Order, intent: string, now: int, appNow: int): DbResult {
    var r := if o.IntentID() == "" then SetIntent(db, o.id, intent, now, appNow) else DbResult(db, Ok);
    if r.error != Ok then DbResult(db, r.error)
    else
      var m := MarkPaidRow(r.db, o.id, now, appNow);
      if m.error == Ok then m else DbResult(db, m.error)
  }

  /** The compensator's writes, once it has read the order as not yet compensated. */
  function CompensateTx(db: Db, e: OrderFailedEvent, tt: Uuid): DbResult {
    var i := if tt == NIL then DbResult(db, Ok) else IncrementTicket(db, tt, e.quantity);
    if i.error != Ok then DbResult(db, i.error)
    else
      var m := Transition(i.db, e.order, Compensated);
      if m.error != Ok then DbResult(db, m.error)
      else DbResult(RecordCompletion(m.db, e.order), Ok)
  }

  // ---- Redis ----

  /** `saga:reverted:` keys: the saga's "order:<id>", the intake's bare id, the worker's stream entry. */
  datatype GuardKey = OrderKey(id: Uuid) | IntakeKey(id: Uuid) | EntryKey(id: Uuid)

  datatype Meta = Meta(event: Uuid, priceCents: int, currency: string)

  datatype Redis = Redis(qty: map<Uuid, int>, meta: map<Uuid, Meta>, guards: set<GuardKey>)

  datatype Deduction = Deduction(redis: Redis, error: Error)

  /** deduct.lua: take the units, give them back if that went negative or the metadata is missing. */
  function Deduct(r: Redis, tt: Uuid, n: int): Deduction {
    var have := if tt in r.qty then r.qty[tt] else 0;
    if have - n < 0 then Deduction(r.(qty := r.qty[tt := have]), SoldOut)
    else if tt !in r.meta then Deduction(r.(qty := r.qty[tt := have]), MetadataMissing)
    else Deduction(r.(qty := r.qty[tt := have - n]), Ok)
  }

  /** revert.lua: a no-op under the guard key; otherwise restore if the counter exists and set the key. */
  function Revert(r: Redis, tt: Uuid, n: int, key: GuardKey): Redis {
    if key in r.guards then r
    else r.(qty := if tt in r.qty then r.qty[tt := r.qty[tt] + n] else r.qty, guards := r.guards + {key})
  }
}
