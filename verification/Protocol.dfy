/**
 * Reservation, payment, expiry and compensation as one transition system.
 *
 * A transaction is one atomic step; every other store call is a step of its own, and a handler
 * may fail or vanish between any two. `procs` holds the program counter of each running handler.
 * `Next` is total: an action that is not enabled changes nothing.
 */
module Protocol {
  import opened Domain
  import opened Options
  import opened Store

  /** How one call to a store ends: cleanly, with an error and no effect, or applied with the reply lost. */
  datatype Fault = Clean | Fails | Lost

  datatype Msg = Msg(id: Uuid, user: int, event: Uuid, tt: Uuid, quantity: int,
                     reservedUntil: int, amountCents: int, currency: string)

  function Reserve(m: Msg, clock: int): OrderResult {
    NewReservation(m.id, m.user, m.event, m.tt, m.quantity, m.reservedUntil, m.amountCents, m.currency, clock)
  }

  datatype EventKind = Succeeded | PaymentDeclined | Unsupported

  /** `order` is metadata.order_id, `None` when it is absent, unparseable or the zero UUID. */
  datatype Envelope = Envelope(kind: EventKind, live: bool, intent: string, order: Option<Uuid>)

  datatype HookResult = Acked | UnknownIntent | IntentMismatch | UnexpectedStatus | HookError

  datatype Source = FromLog(offset: nat) | FromWatchdog

  datatype CompPc =
    | CRead                          // inside the transaction, before GetByID
    | CWrite(tt: Uuid)               // inside the transaction, the order was read as not compensated
    | CCheck(tt: Uuid)               // committed as already compensated, before WasRedisReverted
    | CRevert(tt: Uuid, first: bool) // before RevertInventory
    | CMark(first: bool)             // before MarkRedisReverted
    | CDone(ok: bool)

  datatype HookPc =
    | HResolve
    | HRead(id: Uuid, metadata: bool)
    | HReady(order: Order)            // before the paying transaction begins
    | HPay(order: Order, began: int)  // inside it; NOW() is the time it began
    | HLate(order: Order)
    | HFail(order: Order)
    | HRecheck(id: Uuid)
    | HDone(result: HookResult)

  /** What a sweeper or reconciler job does to the row it has read. */
  datatype JobKind = Expire | ForceFail

  datatype Proc =
    | Intake(msg: Msg, reverting: bool)
    | Comp(ev: OrderFailedEvent, src: Source, cpc: CompPc)
    | Hook(env: Envelope, hpc: HookPc, late: bool)
    | Job(kind: JobKind, order: Order)
    | Pay(order: Order, intent: Option<string>)

  /** Where a reservation's units went before any order row existed. */
  datatype Stage = Deducted | Published | TakenBack | Leaked

  /** History of one reservation: `early` counts intake and worker reverts, `saga` the compensator's;
      `recorded` is the argument of RecordPublishFailure, if it was called. */
  datatype Entry = Entry(tt: Uuid, quantity: int, stage: Stage, early: nat, saga: nat, recorded: Option<bool>)

  /** `at` is the paying transaction's own NOW(). */
  datatype Payment = Payment(intent: string, at: int)

  /** `log` lists the outbox rows in publication order; `handled` holds the offsets committed after a nil
      return; `gateway` is the provider's own intent table. The last three fields are history only. */
  datatype State = State(
    db: Db, redis: Redis, now: int, next: nat,
    msgs: map<Uuid, Msg>, log: seq<nat>, handled: set<nat>,
    procs: map<nat, Proc>, gateway: map<Uuid, string>,
    ledger: map<Uuid, Entry>, found: set<Uuid>, paidBy: map<Uuid, Payment>)

  datatype Action =
    | Tick(d: nat)
    | BookStream(tt: Uuid, quantity: int, user: int, until: int)
    | KafkaDeduct(p: nat, tt: Uuid, quantity: int, user: int, until: int, f: Fault)
    | KafkaPublish(p: nat, f: Fault)
    | KafkaRevert(p: nat, f: Fault)
    | RepairMeta(tt: Uuid, meta: Meta)
    | WorkerTx(id: Uuid, clock: int, f: Fault)
    | WorkerGiveUp(id: Uuid, f: Fault)
    | WorkerAck(id: Uuid)
    | RelayPublish(row: nat)
    | RelayMark(row: nat)
    | Deliver(p: nat, offset: nat)
    | Watch(p: nat, id: Uuid)
    | CompRead(p: nat, f: Fault)
    | CompWrite(p: nat, f: Fault)
    | CompCheck(p: nat, f: Fault)
    | CompRevert(p: nat, f: Fault)
    | CompMark(p: nat, f: Fault)
    | CompFinish(p: nat)
    | HookStart(p: nat, env: Envelope, expectLive: bool)
    | HookResolve(p: nat, hit: Option<Uuid>, f: Fault)
    | HookRead(p: nat, clock: int, f: Fault)
    | HookBegin(p: nat, f: Fault)
    | HookTx(p: nat, clock: int, f: Fault)
    | HookRecheck(p: nat, f: Fault)
    | HookFinish(p: nat)
    | Find(ids: set<Uuid>, grace: nat)
    | JobRead(p: nat, id: Uuid, kind: JobKind)
    | JobTx(p: nat, f: Fault)
    | Confirm(id: Uuid)
    | PayRead(p: nat, id: Uuid, clock: int)
    | PayGateway(p: nat, offer: string)
    | PaySet(p: nat, clock: int, f: Fault)
    | Crash(p: nat)
    | GuardLost(key: GuardKey)
    | Chaos(redis: Redis, msgs: map<Uuid, Msg>, next: nat)

  function Put(s: State, p: nat, proc: Proc): State { s.(procs := s.procs[p := proc]) }

  function Drop(s: State, p: nat): State { s.(procs := s.procs - {p}) }

  // ---- Intake ----

  function MsgOf(s: State, tt: Uuid, quantity: int, user: int, until: int): (m: Msg)
    requires tt in s.redis.meta
    ensures m.id == s.next && m.tt == tt && m.quantity == quantity
  {
    var m := s.redis.meta[tt];
    Msg(s.next, user, m.event, tt, quantity, until, m.priceCents * quantity, m.currency)
  }

  predicate BookingAccepted(user: int, tt: Uuid, quantity: int) { user > 0 && tt != NIL && quantity > 0 }

  /** Stages 2-4: deduction and queue entry are one script. A refused one leaves the counter as it was. */
  function DoBookStream(s: State, tt: Uuid, quantity: int, user: int, until: int): State {
    if !BookingAccepted(user, tt, quantity) then s
    else
      var d := Deduct(s.redis, tt, quantity);
      if d.error != Ok then s.(redis := d.redis)
      else
        var m := MsgOf(s, tt, quantity, user, until);
        s.(redis := d.redis, next := s.next + 1, msgs := s.msgs[m.id := m],
           ledger := s.ledger[m.id := Entry(tt, quantity, Published, 0, 0, None)])
  }

  /** Stage 5: the deduction alone; with its reply lost nobody knows about the units. */
  function DoKafkaDeduct(s: State, p: nat, tt: Uuid, quantity: int, user: int, until: int, f: Fault): State {
    if p in s.procs || !BookingAccepted(user, tt, quantity) || f.Fails? then s
    else
      var d := Deduct(s.redis, tt, quantity);
      if d.error != Ok then s.(redis := d.redis)
      else
        var m := MsgOf(s, tt, quantity, user, until);
        var stage := if f.Clean? then Deducted else Leaked;
        var s1 := s.(redis := d.redis, next := s.next + 1,
                     ledger := s.ledger[m.id := Entry(tt, quantity, stage, 0, 0, None)]);
        if f.Clean? then Put(s1, p, Intake(m, false)) else s1
  }

  function DoKafkaPublish(s: State, p: nat, f: Fault): State {
    if !(p in s.procs && s.procs[p].Intake? && !s.procs[p].reverting && s.procs[p].msg.id in s.ledger) then s
    else
      var m := s.procs[p].msg;
      var published := s.(msgs := s.msgs[m.id := m],
                          ledger := s.ledger[m.id := s.ledger[m.id].(stage := Published)]);
      match f
      case Clean => Drop(published, p)
      case Fails => Put(s, p, Intake(m, true))
      case Lost => Put(published, p, Intake(m, true))
  }

  function DoKafkaRevert(s: State, p: nat, f: Fault): State {
    if !(p in s.procs && s.procs[p].Intake? && s.procs[p].reverting && s.procs[p].msg.id in s.ledger) then s
    else
      var m := s.procs[p].msg;
      var e := s.ledger[m.id];
      if f.Fails? then
        Drop(s.(ledger := s.ledger[m.id := e.(stage := if e.stage.Deducted? then Leaked else e.stage,
                                              recorded := Some(false))]), p)
      else
        var again := IntakeKey(m.id) in s.redis.guards;
        Drop(s.(redis := Revert(s.redis, m.tt, m.quantity, IntakeKey(m.id)),
                ledger := s.ledger[m.id := e.(stage := if e.stage.Deducted? && !again then TakenBack else e.stage,
                                              early := if again then e.early else e.early + 1,
                                              recorded := Some(f.Clean?))]), p)
  }

  function DoRepairMeta(s: State, tt: Uuid, meta: Meta): State {
    s.(redis := s.redis.(meta := s.redis.meta[tt := meta]))
  }

  // ---- Worker ----

  function DoWorkerTx(s: State, id: Uuid, clock: int, f: Fault): State {
    if id !in s.msgs || s.msgs[id].id != id || f.Fails? then s
    else
      var o := Reserve(s.msgs[id], clock);
      if o.Rejected? then s
      else s.(db := BookTx(s.db, o.order).db)
  }

  function DoWorkerGiveUp(s: State, id: Uuid, f: Fault): State {
    if id !in s.msgs || f.Fails? || EntryKey(id) in s.redis.guards then s
    else
      var m := s.msgs[id];
      s.(redis := Revert(s.redis, m.tt, m.quantity, EntryKey(id)),
         ledger := if id in s.ledger then s.ledger[id := s.ledger[id].(early := s.ledger[id].early + 1)] else s.ledger)
  }

  /** Acknowledged after a commit, or after the give-up path has reverted. */
  function DoWorkerAck(s: State, id: Uuid): State {
    if id in s.db.orders || EntryKey(id) in s.redis.guards then s.(msgs := s.msgs - {id}) else s
  }

  // ---- Relay ----

  /** A listed row is published even if somebody has marked it since. */
  function DoRelayPublish(s: State, row: nat): State {
    if row < |s.db.outbox| then s.(log := s.log + [row]) else s
  }

  function DoRelayMark(s: State, row: nat): State {
    if row in s.log then s.(db := MarkProcessed(s.db, row)) else s
  }

  // ---- Compensator ----

  /** The three-path resolution; `NIL` means the ticket type cannot be told. */
  function ResolveTicketType(db: Db, e: OrderFailedEvent): Uuid {
    if e.tt != NIL then e.tt
    else
      var hits := ListByEvent(db.types, e.event);
      if |hits| == 1 then hits[0] else NIL
  }

  function DoDeliver(s: State, p: nat, offset: nat): State {
    if p in s.procs || offset >= |s.log| || s.log[offset] >= |s.db.outbox| then s
    else Put(s, p, Comp(s.db.outbox[s.log[offset]].payload, FromLog(offset), CRead))
  }

  /** The watchdog's synthesized trigger, from the row as it reads now. */
  function DoWatch(s: State, p: nat, id: Uuid): State {
    if p in s.procs || id !in s.db.orders || s.db.orders[id].status == Compensated then s
    else Put(s, p, Comp(EventOf(s.db.orders[id]), FromWatchdog, CRead))
  }

  predicate AtComp(s: State, p: nat) { p in s.procs && s.procs[p].Comp? }

  function GotoComp(s: State, p: nat, pc: CompPc): State
    requires AtComp(s, p)
  {
    Put(s, p, s.procs[p].(cpc := pc))
  }

  function DoCompRead(s: State, p: nat, f: Fault): State {
    if !(AtComp(s, p) && s.procs[p].cpc.CRead?) then s
    else
      var e := s.procs[p].ev;
      if !f.Clean? || e.order !in s.db.orders then GotoComp(s, p, CDone(false))
      else
        var tt := ResolveTicketType(s.db, e);
        if s.db.orders[e.order].status != Compensated then GotoComp(s, p, CWrite(tt))
        else GotoComp(s, p, if tt == NIL then CDone(true) else CCheck(tt))
  }

  function DoCompWrite(s: State, p: nat, f: Fault): State {
    if !(AtComp(s, p) && s.procs[p].cpc.CWrite?) then s
    else
      var tt := s.procs[p].cpc.tt;
      var r := CompensateTx(s.db, s.procs[p].ev, tt);
      if f.Fails? || r.error != Ok then GotoComp(s, p, CDone(false))
      else GotoComp(s.(db := r.db), p,
                    if f.Lost? then CDone(false) else if tt == NIL then CDone(true) else CRevert(tt, true))
  }

  /** A failed read falls through to the revert: the Redis guard is the fallback. */
  function DoCompCheck(s: State, p: nat, f: Fault): State {
    if !(AtComp(s, p) && s.procs[p].cpc.CCheck?) then s
    else if f.Clean? && WasRedisReverted(s.db, s.procs[p].ev.order) then GotoComp(s, p, CDone(true))
    else GotoComp(s, p, CRevert(s.procs[p].cpc.tt, false))
  }

  function DoCompRevert(s: State, p: nat, f: Fault): State {
    if !(AtComp(s, p) && s.procs[p].cpc.CRevert?) then s
    else if f.Fails? then GotoComp(s, p, CDone(false))
    else
      var e := s.procs[p].ev;
      var key := OrderKey(e.order);
      var counted := if key in s.redis.guards || e.order !in s.ledger then s.ledger
                     else s.ledger[e.order := s.ledger[e.order].(saga := s.ledger[e.order].saga + 1)];
      GotoComp(s.(redis := Revert(s.redis, s.procs[p].cpc.tt, e.quantity, key), ledger := counted), p,
               if f.Lost? then CDone(false) else CMark(s.procs[p].cpc.first))
  }

  function DoCompMark(s: State, p: nat, f: Fault): State {
    if !(AtComp(s, p) && s.procs[p].cpc.CMark?) then s
    else
      var r := MarkRedisReverted(s.db, s.procs[p].ev.order);
      if f.Fails? || r.error != Ok then GotoComp(s, p, CDone(false))
      else GotoComp(s.(db := r.db), p, CDone(f.Clean?))
  }

  /** A nil return lets the consumer commit its offset; an error leaves it to be delivered again. */
  function DoCompFinish(s: State, p: nat): State {
    if !(AtComp(s, p) && s.procs[p].cpc.CDone?) then s
    else
      var ok := s.procs[p].cpc.ok && s.procs[p].src.FromLog?;
      Drop(if ok then s.(handled := s.handled + {s.procs[p].src.offset}) else s, p)
  }

  // ---- Payment webhook ----

  predicate AtHook(s: State, p: nat) { p in s.procs && s.procs[p].Hook? }

  function GotoHook(s: State, p: nat, pc: HookPc): State
    requires AtHook(s, p)
  {
    Put(s, p, s.procs[p].(hpc := pc))
  }

  /** Entering the late-success path: the metric fires here. */
  function GotoLate(s: State, p: nat, o: Order): State
    requires AtHook(s, p)
  {
    Put(s, p, s.procs[p].(hpc := HLate(o), late := true))
  }

  function DoHookStart(s: State, p: nat, env: Envelope, expectLive: bool): State {
    if p in s.procs then s
    else if env.live != expectLive then Put(s, p, Hook(env, HDone(Acked), false))
    else Put(s, p, Hook(env, HResolve, false))
  }

  predicate FindsIntent(db: Db, intent: string, hit: Option<Uuid>) {
    match hit
    case Some(id) => id in db.orders && db.orders[id].intent == Some(intent)
    case None => forall j :: j in db.orders ==> db.orders[j].intent != Some(intent)
  }

  predicate ByMetadata(env: Envelope) { env.order.Some? && env.order.value != NIL }

  /** Metadata first; otherwise the lookup by intent, whose answer is `hit`. */
  function DoHookResolve(s: State, p: nat, hit: Option<Uuid>, f: Fault): State {
    if !(AtHook(s, p) && s.procs[p].hpc.HResolve?) then s
    else
      var env := s.procs[p].env;
      if ByMetadata(env) then GotoHook(s, p, HRead(env.order.value, true))
      else if !f.Clean? || env.intent == "" then GotoHook(s, p, HDone(HookError))
      else if !FindsIntent(s.db, env.intent, hit) then s
      else if hit.None? then GotoHook(s, p, HDone(UnknownIntent))
      else GotoHook(s, p, HRead(hit.value, false))
  }

  datatype Verdict = Finish(result: HookResult) | GoPay | GoLate | GoFail

  /** Steps 3 to 5 of HandleWebhook on the row just read; `clock` is the process's own. */
  function Dispatch(env: Envelope, o: Order, metadata: bool, clock: int): Verdict {
    if metadata && o.IntentID() != "" && o.IntentID() != env.intent then Finish(IntentMismatch)
    else if IsTerminalForWebhook(o.status) then
      if env.kind.Succeeded? && IsFailureTerminalAfterPay(o.status) then GoLate else Finish(Acked)
    else if o.status != AwaitingPayment then Finish(UnexpectedStatus)
    else match env.kind
      case Succeeded => if o.reservedUntil <= clock then GoLate else GoPay
      case PaymentDeclined => GoFail
      case Unsupported => Finish(Acked)
  }

  function DoHookRead(s: State, p: nat, clock: int, f: Fault): State {
    if !(AtHook(s, p) && s.procs[p].hpc.HRead?) then s
    else
      var id := s.procs[p].hpc.id;
      if !f.Clean? || id !in s.db.orders then GotoHook(s, p, HDone(HookError))
      else
        var o := s.db.orders[id];
        match Dispatch(s.procs[p].env, o, s.procs[p].hpc.metadata, clock)
        case Finish(r) => GotoHook(s, p, HDone(r))
        case GoPay => GotoHook(s, p, HReady(o))
        case GoLate => GotoLate(s, p, o)
        case GoFail => GotoHook(s, p, HFail(o))
  }

  /** What the three transactions share: commit, lost commit, or an error. */
  function HookOutcome(s: State, p: nat, r: DbResult, id: Uuid, f: Fault): State
    requires AtHook(s, p)
  {
    if f.Fails? then GotoHook(s, p, HDone(HookError))
    else if r.error == Ok then GotoHook(s.(db := r.db), p, HDone(if f.Clean? then Acked else HookError))
    else if r.error == InvalidTransition then GotoHook(s, p, HRecheck(id))
    else GotoHook(s, p, HDone(HookError))
  }

  /** BEGIN of the paying transaction: the database fixes what NOW() answers in it. */
  function DoHookBegin(s: State, p: nat, f: Fault): State {
    if !(AtHook(s, p) && s.procs[p].hpc.HReady?) then s
    else GotoHook(s, p, if f.Clean? then HPay(s.procs[p].hpc.order, s.now) else HDone(HookError))
  }

  function DoHookTx(s: State, p: nat, clock: int, f: Fault): State {
    if !AtHook(s, p) then s
    else match s.procs[p].hpc
      case HPay(o, began) =>
        var r := PayTx(s.db, o, s.procs[p].env.intent, began, clock);
        if !f.Fails? && r.error == ReservationExpired then GotoLate(s, p, o)
        else
          var s1 := HookOutcome(s, p, r, o.id, f);
          if !f.Fails? && r.error == Ok
          then s1.(paidBy := s1.paidBy[o.id := Payment(s.procs[p].env.intent, began)])
          else s1
      case HLate(o) => HookOutcome(s, p, FailTx(s.db, o, Expired), o.id, f)
      case HFail(o) => HookOutcome(s, p, FailTx(s.db, o, PaymentFailed), o.id, f)
      case _ => s
  }

  function DoHookRecheck(s: State, p: nat, f: Fault): State {
    if !(AtHook(s, p) && s.procs[p].hpc.HRecheck?) then s
    else
      var id := s.procs[p].hpc.id;
      if f.Clean? && id in s.db.orders && IsTerminalForWebhook(s.db.orders[id].status)
      then GotoHook(s, p, HDone(Acked))
      else GotoHook(s, p, HDone(HookError))
  }

  function DoHookFinish(s: State, p: nat): State {
    if AtHook(s, p) && s.procs[p].hpc.HDone? then Drop(s, p) else s
  }

  // ---- Expiry sweeper and reconciler ----

  predicate Overdue(s: State, id: Uuid, grace: nat) {
    id in s.db.orders && s.db.orders[id].status == AwaitingPayment && s.db.orders[id].reservedUntil <= s.now - grace
  }

  function DoFind(s: State, ids: set<Uuid>, grace: nat): State {
    if forall id :: id in ids ==> Overdue(s, id, grace) then s.(found := s.found + ids) else s
  }

  /** The sweeper reads rows it found earlier, the reconciler any row; both keep the read value. */
  function DoJobRead(s: State, p: nat, id: Uuid, kind: JobKind): State {
    if p in s.procs || id !in s.db.orders then s
    else if kind.Expire? && (id !in s.found || s.db.orders[id].status != AwaitingPayment) then s
    else Put(s, p, Job(kind, s.db.orders[id]))
  }

  function JobResult(db: Db, kind: JobKind, o: Order): DbResult {
    match kind
    case Expire => FailTx(db, o, Expired)
    case ForceFail => FailTx(db, o, Failed)
  }

  function DoJobTx(s: State, p: nat, f: Fault): State {
    if !(p in s.procs && s.procs[p].Job?) then s
    else
      var r := JobResult(s.db, s.procs[p].kind, s.procs[p].order);
      Drop(if f.Fails? then s else s.(db := r.db), p)
  }

  function DoConfirm(s: State, id: Uuid): State {
    s.(db := Transition(s.db, id, Confirmed).db)
  }

  // ---- /pay ----

  predicate Payable(o: Order, clock: int) {
    o.status == AwaitingPayment && o.reservedUntil > clock && o.HasPriceSnapshot()
  }

  function DoPayRead(s: State, p: nat, id: Uuid, clock: int): State {
    if p in s.procs || id !in s.db.orders || !Payable(s.db.orders[id], clock) then s
    else Put(s, p, Pay(s.db.orders[id], None))
  }

  /** The gateway's idempotency contract: one non-empty intent per order, never shared. */
  function DoPayGateway(s: State, p: nat, offer: string): State {
    if !(p in s.procs && s.procs[p].Pay? && s.procs[p].intent.None?) then s
    else
      var id := s.procs[p].order.id;
      if id in s.gateway then Put(s, p, s.procs[p].(intent := Some(s.gateway[id])))
      else if offer == "" || offer in s.gateway.Values then s
      else Put(s.(gateway := s.gateway[id := offer]), p, s.procs[p].(intent := Some(offer)))
  }

  function DoPaySet(s: State, p: nat, clock: int, f: Fault): State {
    if !(p in s.procs && s.procs[p].Pay? && s.procs[p].intent.Some?) then s
    else
      var r := SetIntent(s.db, s.procs[p].order.id, s.procs[p].intent.value, s.now, clock);
      Drop(if f.Fails? then s else s.(db := r.db), p)
  }

  // ---- Faults ----

  /** A handler vanishes; units it held between deduction and publication are nobody's. */
  function DoCrash(s: State, p: nat): State {
    if p !in s.procs then s
    else
      var s1 := Drop(s, p);
      if s.procs[p].Intake? && s.procs[p].msg.id in s.ledger && s.ledger[s.procs[p].msg.id].stage.Deducted?
      then s1.(ledger := s.ledger[s.procs[p].msg.id := s.ledger[s.procs[p].msg.id].(stage := Leaked)])
      else s1
  }

  function DoGuardLost(s: State, key: GuardKey): State {
    s.(redis := s.redis.(guards := s.redis.guards - {key}))
  }

  /** Anything at all may be in Redis and in the queue. */
  function DoChaos(s: State, redis: Redis, msgs: map<Uuid, Msg>, next: nat): State {
    if next >= s.next && forall id :: id in msgs ==> id < next
    then s.(redis := redis, msgs := msgs, next := next)
    else s
  }

  function Next(s: State, a: Action): State {
    match a
    case Tick(d) => s.(now := s.now + d)
    case BookStream(tt, q, user, until) => DoBookStream(s, tt, q, user, until)
    case KafkaDeduct(p, tt, q, user, until, f) => DoKafkaDeduct(s, p, tt, q, user, until, f)
    case KafkaPublish(p, f) => DoKafkaPublish(s, p, f)
    case KafkaRevert(p, f) => DoKafkaRevert(s, p, f)
    case RepairMeta(tt, m) => DoRepairMeta(s, tt, m)
    case WorkerTx(id, clock, f) => DoWorkerTx(s, id, clock, f)
    case WorkerGiveUp(id, f) => DoWorkerGiveUp(s, id, f)
    case WorkerAck(id) => DoWorkerAck(s, id)
    case RelayPublish(row) => DoRelayPublish(s, row)
    case RelayMark(row) => DoRelayMark(s, row)
    case Deliver(p, n) => DoDeliver(s, p, n)
    case Watch(p, id) => DoWatch(s, p, id)
    case CompRead(p, f) => DoCompRead(s, p, f)
    case CompWrite(p, f) => DoCompWrite(s, p, f)
    case CompCheck(p, f) => DoCompCheck(s, p, f)
    case CompRevert(p, f) => DoCompRevert(s, p, f)
    case CompMark(p, f) => DoCompMark(s, p, f)
    case CompFinish(p) => DoCompFinish(s, p)
    case HookStart(p, env, live) => DoHookStart(s, p, env, live)
    case HookResolve(p, hit, f) => DoHookResolve(s, p, hit, f)
    case HookRead(p, clock, f) => DoHookRead(s, p, clock, f)
    case HookBegin(p, f) => DoHookBegin(s, p, f)
    case HookTx(p, clock, f) => DoHookTx(s, p, clock, f)
    case HookRecheck(p, f) => DoHookRecheck(s, p, f)
    case HookFinish(p) => DoHookFinish(s, p)
    case Find(ids, grace) => DoFind(s, ids, grace)
    case JobRead(p, id, kind) => DoJobRead(s, p, id, kind)
    case JobTx(p, f) => DoJobTx(s, p, f)
    case Confirm(id) => DoConfirm(s, id)
    case PayRead(p, id, clock) => DoPayRead(s, p, id, clock)
    case PayGateway(p, offer) => DoPayGateway(s, p, offer)
    case PaySet(p, clock, f) => DoPaySet(s, p, clock, f)
    case Crash(p) => DoCrash(s, p)
    case GuardLost(key) => DoGuardLost(s, key)
    case Chaos(r, m, n) => DoChaos(s, r, m, n)
  }

  function Run(s: State, acts: seq<Action>): State
    decreases |acts|
  {
    if acts == [] then s else Run(Next(s, acts[0]), acts[1..])
  }

  lemma {:induction false} RunConcat(s: State, a: seq<Action>, b: seq<Action>)
    ensures Run(s, a + b) == Run(Run(s, a), b)
    decreases |a|
  {
    if a == [] {
      assert a + b == b;
    } else {
      assert (a + b)[1..] == a[1..] + b;
      RunConcat(Next(s, a[0]), a[1..], b);
    }
  }

  lemma RunEmpty(s: State)
    ensures Run(s, []) == s
  {}

  lemma RunOne(s: State, a: Action)
    ensures Run(s, [a]) == Next(s, a)
  {
    assert Run(s, [a]) == Run(Next(s, a), [a][1..]);
  }
}
