/** Every action keeps the Postgres invariants, and so does every run. */
module PgSteps {
  import opened Domain
  import opened Options
  import opened Store
  import opened Protocol
  import opened DbSafety
  import opened PgSafety

  ghost predicate Kept(s: State, t: State) { PgInv(t) && Advances(s, t) }

  lemma Unchanged(s: State)
    requires PgInv(s)
    ensures Kept(s, s)
  {
    hide PgInv;
    AdvancesReflexive(s);
  }

  /** What one running handler may rely on. */
  lemma ProcFact(s: State, p: nat)
    requires PgInv(s) && p in s.procs
    ensures ProcOk(s.db, s.log, s.gateway, s.next, s.procs[p]) && DbInv(s.db, s.next)
  {}

  lemma QueueFact(s: State)
    requires PgInv(s)
    ensures MsgsOk(s.msgs, s.next) && GatewayOk(s.gateway) && DbInv(s.db, s.next) && LogOk(s.db, s.log, s.handled)
  {}

  /** A row is stored under its own id. */
  lemma RowId(s: State, id: Uuid)
    requires PgInv(s) && id in s.db.orders
    ensures s.db.orders[id].id == id
  {
    hide DbInv, LogOk, ProcsOk;
    QueueFact(s);
    RowFacts(s.db, s.next, id);
  }

  /** Only Redis, the queue or history moved. */
  lemma IdleStep(s: State, t: State)
    requires PgInv(s) && t.db == s.db && t.now == s.now && t.found == s.found && t.paidBy == s.paidBy
    requires t.handled == s.handled && t.log == s.log && s.next <= t.next && MsgsOk(t.msgs, t.next)
    requires t.gateway == s.gateway && t.procs == s.procs
    ensures Kept(s, t)
  {
    var p: nat := 0;
    if p in s.procs {
      ProcFact(s, p);
      AdvancesReflexive(s);
      assert Advances(s, t);
      ProcOkStable(s, t, s.procs[p]);
    }
    QuietStep(s, t, p);
  }

  /** Handler `p` moved to a state whose assertion holds, or left. */
  lemma MoveStep(s: State, t: State, p: nat)
    requires PgInv(s) && t.db == s.db && t.now == s.now && t.found == s.found && t.paidBy == s.paidBy
    requires t.handled == s.handled && t.log == s.log && s.next <= t.next && MsgsOk(t.msgs, t.next)
    requires t.gateway == s.gateway && t.procs - {p} == s.procs - {p}
    requires p in t.procs ==> ProcOk(t.db, t.log, t.gateway, t.next, t.procs[p])
    ensures Kept(s, t)
  {
    forall q | q in t.procs && q != p ensures q in s.procs && t.procs[q] == s.procs[q] {
      assert q in t.procs - {p};
      assert (t.procs - {p})[q] == (s.procs - {p})[q];
    }
    QueueFact(s);
    QuietStep(s, t, p);
  }

  /** Handler `p` moved; Redis and history may have moved with it. */
  lemma PutStep(s: State, t: State, p: nat)
    requires PgInv(s) && p in t.procs
    requires t == s.(procs := s.procs[p := t.procs[p]], redis := t.redis, ledger := t.ledger)
    requires ProcOk(s.db, s.log, s.gateway, s.next, t.procs[p])
    ensures Kept(s, t)
  {
    QueueFact(s);
    QuietStep(s, t, p);
  }

  lemma DropStep(s: State, t: State, p: nat)
    requires PgInv(s) && t == s.(procs := s.procs - {p}, redis := t.redis, ledger := t.ledger)
    ensures Kept(s, t)
  {
    QueueFact(s);
    QuietStep(s, t, p);
  }

  lemma BookStreamKeeps(s: State, tt: Uuid, quantity: int, user: int, until: int)
    requires PgInv(s)
    ensures Kept(s, DoBookStream(s, tt, quantity, user, until))
  {
    hide PgInv, DbInv, LogOk, ProcsOk, Extends, GatewayOk, PaidOk, FoundOk, Advances, OrdersExtend,
         Deduct, MsgOf, Reserve;
    Unchanged(s);
    QueueFact(s);
    var t := DoBookStream(s, tt, quantity, user, until);
    IdleStep(s, t);
  }

  lemma KafkaDeductKeeps(s: State, p: nat, tt: Uuid, quantity: int, user: int, until: int, f: Fault)
    requires PgInv(s)
    ensures Kept(s, DoKafkaDeduct(s, p, tt, quantity, user, until, f))
  {
    hide PgInv, Advances, Deduct, MsgOf, DbInv, Kept, LogOk, ProcOk, ProcsOk, GatewayOk;
    Unchanged(s);
    QueueFact(s);
    var t := DoKafkaDeduct(s, p, tt, quantity, user, until, f);
    if p !in s.procs {
      NewIntake(s, t, p);
    }
  }

  lemma NewIntake(s: State, t: State, p: nat)
    requires PgInv(s) && p !in s.procs && s.next <= t.next
    requires t == s.(redis := t.redis, next := t.next, ledger := t.ledger, procs := t.procs)
    requires t.procs == s.procs
             || (p in t.procs && t.procs == s.procs[p := t.procs[p]] && t.procs[p].Intake? && t.procs[p].msg.id < t.next)
    ensures Kept(s, t)
  {
    hide PgInv;
    QueueFact(s);
    QuietStep(s, t, p);
  }

  lemma KafkaPublishKeeps(s: State, p: nat, f: Fault)
    requires PgInv(s)
    ensures Kept(s, DoKafkaPublish(s, p, f))
  {
    hide PgInv, DbInv, LogOk, ProcsOk, Extends, GatewayOk, PaidOk, FoundOk, Advances, OrdersExtend;
    Unchanged(s);
    QueueFact(s);
    var t := DoKafkaPublish(s, p, f);
    if p in s.procs {
      ProcFact(s, p);
      MoveStep(s, t, p);
    }
  }

  lemma KafkaRevertKeeps(s: State, p: nat, f: Fault)
    requires PgInv(s)
    ensures Kept(s, DoKafkaRevert(s, p, f))
  {
    hide PgInv, DbInv, LogOk, ProcsOk, Extends, GatewayOk, PaidOk, FoundOk, Advances, OrdersExtend;
    Unchanged(s);
    QueueFact(s);
    var t := DoKafkaRevert(s, p, f);
    if p in s.procs {
      ProcFact(s, p);
      MoveStep(s, t, p);
    }
  }

  lemma WorkerGiveUpKeeps(s: State, id: Uuid, f: Fault)
    requires PgInv(s)
    ensures Kept(s, DoWorkerGiveUp(s, id, f))
  {
    hide PgInv, DbInv, LogOk, ProcsOk, Extends, GatewayOk, PaidOk, FoundOk, Advances, OrdersExtend;
    Unchanged(s);
    QueueFact(s);
    var t := DoWorkerGiveUp(s, id, f);
    IdleStep(s, t);
  }

  lemma WorkerAckKeeps(s: State, id: Uuid)
    requires PgInv(s)
    ensures Kept(s, DoWorkerAck(s, id))
  {
    hide PgInv, DbInv, LogOk, ProcsOk, Extends, GatewayOk, PaidOk, FoundOk, Advances, OrdersExtend;
    Unchanged(s);
    QueueFact(s);
    var t := DoWorkerAck(s, id);
    IdleStep(s, t);
  }

  lemma TickKeeps(s: State, d: nat)
    requires PgInv(s)
    ensures Kept(s, s.(now := s.now + d))
  {
    hide DbInv, LogOk, GatewayOk, PaidOk, Extends;
    ExtendsReflexive(s.db);
    assert ProcsOk(s.(now := s.now + d));
  }

  /** A commit, with at most handler `p` moving. */
  lemma CommitMove(s: State, t: State, p: nat)
    requires PgInv(s) && DbInv(t.db, s.next) && Extends(s.db, t.db) && NoNewPaid(s.db.orders, t.db.orders)
    requires ProcessedAsBefore(s.db, t.db)
    requires t.now == s.now && t.found == s.found && t.paidBy == s.paidBy && t.next == s.next && t.msgs == s.msgs
    requires t.handled == s.handled && t.log == s.log && t.gateway == s.gateway && t.procs - {p} == s.procs - {p}
    requires p in t.procs ==> ProcOk(t.db, t.log, t.gateway, t.next, t.procs[p])
    ensures Kept(s, t)
  {
    hide DbInv, LogOk, ProcsOk, ProcOk, FoundOk, PaidOk, NoNewPaid, MsgsOk, GatewayOk, Extends, PgInv, Advances;
    forall q | q in t.procs && q != p ensures q in s.procs && t.procs[q] == s.procs[q] {
      assert q in t.procs - {p};
      assert (t.procs - {p})[q] == (s.procs - {p})[q];
    }
    CommitStep(s, t, p);
  }

  /** A commit that moves no handler. */
  lemma CommitOnly(s: State, t: State)
    requires PgInv(s) && DbInv(t.db, s.next) && Extends(s.db, t.db) && NoNewPaid(s.db.orders, t.db.orders)
    requires ProcessedAsBefore(s.db, t.db)
    requires t == s.(db := t.db, redis := t.redis, ledger := t.ledger)
    ensures Kept(s, t)
  {
    hide DbInv, LogOk, ProcsOk, ProcOk, FoundOk, PaidOk, NoNewPaid, MsgsOk, GatewayOk, Extends, PgInv;
    var p: nat := 0;
    if p in s.procs {
      ProcFact(s, p);
      AdvancesReflexive(s);
      ProcOkStable(s, t, s.procs[p]);
    }
    CommitMove(s, t, p);
  }

  /** No outbox row became processed. */
  ghost predicate ProcessedAsBefore(a: Db, b: Db) {
    forall k :: 0 <= k < |b.outbox| && b.outbox[k].processed ==> k < |a.outbox| && a.outbox[k].processed
  }

  // None of these transactions pays or publishes anything.

  lemma BookTxQuiet(db: Db, o: Order)
    requires o.status == AwaitingPayment
    ensures NoNewPaid(db.orders, BookTx(db, o).db.orders) && ProcessedAsBefore(db, BookTx(db, o).db)
  {}

  lemma FailTxQuiet(db: Db, o: Order, to: Status)
    requires to != Paid
    ensures NoNewPaid(db.orders, FailTx(db, o, to).db.orders) && ProcessedAsBefore(db, FailTx(db, o, to).db)
  {}

  lemma CompensateTxQuiet(db: Db, e: OrderFailedEvent, tt: Uuid)
    ensures NoNewPaid(db.orders, CompensateTx(db, e, tt).db.orders) && ProcessedAsBefore(db, CompensateTx(db, e, tt).db)
  {}

  lemma MarkRedisRevertedQuiet(db: Db, id: Uuid)
    ensures NoNewPaid(db.orders, MarkRedisReverted(db, id).db.orders) && ProcessedAsBefore(db, MarkRedisReverted(db, id).db)
  {}

  lemma SetIntentQuiet(db: Db, id: Uuid, intent: string, now: int, clock: int)
    ensures NoNewPaid(db.orders, SetIntent(db, id, intent, now, clock).db.orders)
    ensures ProcessedAsBefore(db, SetIntent(db, id, intent, now, clock).db)
  {}

  lemma ConfirmQuiet(db: Db, id: Uuid)
    ensures NoNewPaid(db.orders, Transition(db, id, Confirmed).db.orders)
    ensures ProcessedAsBefore(db, Transition(db, id, Confirmed).db)
  {}

  lemma WorkerTxKeeps(s: State, id: Uuid, clock: int, f: Fault)
    requires PgInv(s)
    ensures Kept(s, DoWorkerTx(s, id, clock, f))
  {
    hide PgInv, DbInv, LogOk, ProcsOk, Extends, GatewayOk, PaidOk, FoundOk, Advances, OrdersExtend,
         BookTx, NoNewPaid, ProcessedAsBefore, ProcOk;
    Unchanged(s);
    QueueFact(s);
    var t := DoWorkerTx(s, id, clock, f);
    if id in s.msgs && s.msgs[id].id == id && !f.Fails? && Reserve(s.msgs[id], clock).Accepted? {
      var o := Reserve(s.msgs[id], clock).order;
      BookTxKeeps(s.db, s.next, o);
      BookTxQuiet(s.db, o);
      CommitOnly(s, t);
    }
  }

  lemma RelayPublishKeeps(s: State, row: nat)
    requires PgInv(s)
    ensures Kept(s, DoRelayPublish(s, row))
  {
    hide PgInv, DbInv, LogOk, ProcsOk, Extends, GatewayOk, PaidOk, FoundOk, Advances, OrdersExtend;
    Unchanged(s);
    QueueFact(s);
    var t := DoRelayPublish(s, row);
    if t != s {
      LogGrows(s, t);
    }
  }

  lemma LogGrows(s: State, t: State)
    requires PgInv(s) && t == s.(log := t.log) && LogExtends(s.log, t.log)
    requires forall n :: 0 <= n < |t.log| ==> t.log[n] < |s.db.outbox|
    requires forall k :: k in s.log ==> k in t.log
    ensures Kept(s, t)
  {
    hide DbInv, Extends, GatewayOk, FoundOk, PaidOk, MsgsOk, ProcOk;
    ExtendsReflexive(s.db);
    assert GatewayExtends(s.gateway, s.gateway);
    assert LogOk(t.db, t.log, t.handled);
    forall q | q in t.procs ensures ProcOk(t.db, t.log, t.gateway, t.next, t.procs[q]) {
      ProcOkStable(s, t, s.procs[q]);
    }
  }

  lemma RelayMarkKeeps(s: State, row: nat)
    requires PgInv(s)
    ensures Kept(s, DoRelayMark(s, row))
  {
    hide PgInv, DbInv, LogOk, ProcsOk, Extends, GatewayOk, PaidOk, FoundOk, Advances, OrdersExtend,
         MarkProcessed, ProcOk;
    Unchanged(s);
    QueueFact(s);
    var t := DoRelayMark(s, row);
    if row in s.log {
      MarkProcessedKeeps(s.db, s.next, row);
      MarkProcessedStep(s, t, row);
    }
  }

  lemma MarkProcessedStep(s: State, t: State, row: nat)
    requires PgInv(s) && row in s.log && t == s.(db := MarkProcessed(s.db, row))
    requires DbInv(t.db, s.next) && Extends(s.db, t.db)
    ensures Kept(s, t)
  {
    hide DbInv, LogOk, ProcOk, FoundOk, PaidOk, MsgsOk, GatewayOk, Extends;
    AdvancesReflexive(s);
    var p: nat := 0;
    if p in s.procs { ProcOkStable(s, t, s.procs[p]); }
    CommitStep(s, t, p);
  }

  lemma DeliverKeeps(s: State, p: nat, offset: nat)
    requires PgInv(s)
    ensures Kept(s, DoDeliver(s, p, offset))
  {
    hide PgInv, DbInv, LogOk, ProcsOk, Extends, GatewayOk, PaidOk, FoundOk, Advances, OrdersExtend;
    Unchanged(s);
    QueueFact(s);
    var t := DoDeliver(s, p, offset);
    if p !in s.procs && offset < |s.log| && s.log[offset] < |s.db.outbox| {
      TriggerFact(s.db, s.next, s.log[offset]);
      PutStep(s, t, p);
    }
  }

  lemma TriggerFact(db: Db, n: nat, k: nat)
    requires DbInv(db, n) && k < |db.outbox|
    ensures var e := db.outbox[k].payload;
      e.order in db.orders && e == EventOf(db.orders[e.order]) && IsTriggered(db.orders[e.order].status)
  {
    assert RowOk(db.outbox[k].payload, db.orders);
  }

  lemma WatchKeeps(s: State, p: nat, id: Uuid)
    requires PgInv(s)
    ensures Kept(s, DoWatch(s, p, id))
  {
    hide PgInv, DbInv, LogOk, ProcsOk, Extends, GatewayOk, PaidOk, FoundOk, Advances, OrdersExtend;
    Unchanged(s);
    QueueFact(s);
    var t := DoWatch(s, p, id);
    if p !in s.procs && id in s.db.orders {
      RowFacts(s.db, s.next, id);
      if t != s { PutStep(s, t, p); }
    }
  }

  /** With the ticket type on the payload, neither fallback path is ever taken. */
  lemma ResolvesToItself(s: State, p: nat)
    requires PgInv(s) && AtComp(s, p)
    ensures s.procs[p].ev.tt != NIL
    ensures forall db :: ResolveTicketType(db, s.procs[p].ev) == s.procs[p].ev.tt
  {
    ProcFact(s, p);
    RowFacts(s.db, s.next, s.procs[p].ev.order);
  }

  lemma CompReadKeeps(s: State, p: nat, f: Fault)
    requires PgInv(s)
    ensures Kept(s, DoCompRead(s, p, f))
  {
    hide PgInv, DbInv, LogOk, ProcsOk, Extends, GatewayOk, PaidOk, FoundOk, Advances, OrdersExtend,
         ResolveTicketType;
    Unchanged(s);
    QueueFact(s);
    var t := DoCompRead(s, p, f);
    if AtComp(s, p) {
      ProcFact(s, p);
      ResolvesToItself(s, p);
      if s.procs[p].cpc.CRead? { CompGoes(s, t, p, t.procs[p].cpc); }
    }
  }

  /** A compensator call moves on to a counter whose own assertion holds. */
  lemma CompGoes(s: State, t: State, p: nat, pc: CompPc)
    requires PgInv(s) && AtComp(s, p) && CompOk(s.db, s.log, s.procs[p].ev, s.procs[p].src, pc)
    requires t == GotoComp(s, p, pc).(redis := t.redis, ledger := t.ledger)
    ensures Kept(s, t)
  {
    hide PgInv, CompOk;
    PutStep(s, t, p);
  }

  lemma CompWriteKeeps(s: State, p: nat, f: Fault)
    requires PgInv(s)
    ensures Kept(s, DoCompWrite(s, p, f))
  {
    hide PgInv, DbInv, LogOk, ProcsOk, Extends, GatewayOk, PaidOk, FoundOk, Advances, OrdersExtend,
         CompensateTx, NoNewPaid, ProcessedAsBefore, ResolveTicketType;
    Unchanged(s);
    QueueFact(s);
    var t := DoCompWrite(s, p, f);
    if AtComp(s, p) && s.procs[p].cpc.CWrite? {
      ProcFact(s, p);
      ResolvesToItself(s, p);
      var e := s.procs[p].ev;
      CompensateTxKeeps(s.db, s.next, e);
      CompensateTxQuiet(s.db, e, e.tt);
      if Compensable(s.db, e.order) && !f.Fails? {
        CompOkCommitted(s, t, p, e);
        CommitMove(s, t, p);
      } else {
        MoveStep(s, t, p);
      }
    }
  }

  lemma CompOkCommitted(s: State, t: State, p: nat, e: OrderFailedEvent)
    requires PgInv(s) && AtComp(s, p) && s.procs[p].ev == e && CompOk(s.db, s.log, e, s.procs[p].src, s.procs[p].cpc)
    requires e.order in s.db.orders && s.db.orders[e.order].tt in s.db.avail
    requires t.db == Compensating(s.db, e.order) && t.log == s.log && AtComp(t, p)
    requires t.procs[p] == s.procs[p].(cpc := CDone(false)) || t.procs[p] == s.procs[p].(cpc := CRevert(e.tt, true))
    ensures CompOk(t.db, t.log, e, t.procs[p].src, t.procs[p].cpc)
  {}

  lemma CompCheckKeeps(s: State, p: nat, f: Fault)
    requires PgInv(s)
    ensures Kept(s, DoCompCheck(s, p, f))
  {
    hide PgInv, DbInv, LogOk, ProcsOk, Extends, GatewayOk, PaidOk, FoundOk, Advances, OrdersExtend;
    Unchanged(s);
    QueueFact(s);
    var t := DoCompCheck(s, p, f);
    if AtComp(s, p) && s.procs[p].cpc.CCheck? {
      ProcFact(s, p);
      PutStep(s, t, p);
    }
  }

  lemma CompRevertKeeps(s: State, p: nat, f: Fault)
    requires PgInv(s)
    ensures Kept(s, DoCompRevert(s, p, f))
  {
    hide PgInv, DbInv, LogOk, ProcsOk, Extends, GatewayOk, PaidOk, FoundOk, Advances, OrdersExtend;
    Unchanged(s);
    QueueFact(s);
    var t := DoCompRevert(s, p, f);
    if AtComp(s, p) && s.procs[p].cpc.CRevert? {
      ProcFact(s, p);
      PutStep(s, t, p);
    }
  }

  lemma CompMarkKeeps(s: State, p: nat, f: Fault)
    requires PgInv(s)
    ensures Kept(s, DoCompMark(s, p, f))
  {
    hide PgInv, DbInv, LogOk, ProcsOk, Extends, GatewayOk, PaidOk, FoundOk, Advances, OrdersExtend,
         NoNewPaid, ProcessedAsBefore, CompOk;
    Unchanged(s);
    QueueFact(s);
    if AtComp(s, p) && s.procs[p].cpc.CMark? {
      ProcFact(s, p);
      CompMarkedOk(s, p);
      var e := s.procs[p].ev;
      MarkRedisRevertedKeeps(s.db, s.next, e.order);
      MarkRedisRevertedQuiet(s.db, e.order);
      if f.Fails? {
        CompGoes(s, DoCompMark(s, p, f), p, CDone(false));
      } else {
        CommitMove(s, DoCompMark(s, p, f), p);
      }
    }
  }

  /** The flag row exists, so setting the flag succeeds and settles the order. */
  /** A call that is about to return nil has settled its order. */
  lemma DoneSettles(s: State, p: nat)
    requires PgInv(s) && AtComp(s, p) && s.procs[p].cpc == CDone(true)
    ensures Settled(s.db, s.procs[p].ev.order)
  {
    hide PgInv, ResolveTicketType, EventOf;
    ProcFact(s, p);
  }

  lemma CompMarkedOk(s: State, p: nat)
    requires PgInv(s) && AtComp(s, p) && s.procs[p].cpc.CMark?
    ensures var e, src, r := s.procs[p].ev, s.procs[p].src, MarkRedisReverted(s.db, s.procs[p].ev.order);
      && CompOk(s.db, s.log, e, src, CDone(false))
      && r.error == Ok && CompOk(r.db, s.log, e, src, CDone(true)) && CompOk(r.db, s.log, e, src, CDone(false))
  {
    hide PgInv, DbInv;
    ProcFact(s, p);
    RowFacts(s.db, s.next, s.procs[p].ev.order);
  }

  lemma CompFinishKeeps(s: State, p: nat)
    requires PgInv(s)
    ensures Kept(s, DoCompFinish(s, p))
  {
    hide PgInv, DbInv, LogOk, ProcsOk, Extends, GatewayOk, PaidOk, FoundOk, Advances, OrdersExtend;
    Unchanged(s);
    QueueFact(s);
    var t := DoCompFinish(s, p);
    if AtComp(s, p) && s.procs[p].cpc.CDone? {
      ProcFact(s, p);
      var u := Drop(s, p);
      MoveStep(s, u, p);
      if t != u { HandledGrows(s, u, t, s.procs[p].src.offset); }
    }
  }

  lemma HandledGrows(s: State, u: State, t: State, n: nat)
    requires Kept(s, u) && t == u.(handled := u.handled + {n})
    requires n < |u.log| && u.log[n] < |u.db.outbox| && Settled(u.db, u.db.outbox[u.log[n]].payload.order)
    ensures Kept(s, t)
  {
    hide DbInv, Extends, GatewayOk, FoundOk, PaidOk, MsgsOk, ProcOk;
    assert LogOk(t.db, t.log, t.handled);
    assert ProcsOk(t);
  }

  lemma HookStartKeeps(s: State, p: nat, env: Envelope, expectLive: bool)
    requires PgInv(s)
    ensures Kept(s, DoHookStart(s, p, env, expectLive))
  {
    hide PgInv, DbInv, LogOk, ProcsOk, Extends, GatewayOk, PaidOk, FoundOk, Advances, OrdersExtend;
    Unchanged(s);
    QueueFact(s);
    var t := DoHookStart(s, p, env, expectLive);
    if p !in s.procs { PutStep(s, t, p); }
  }

  /** A webhook call moves on to a counter whose own assertion holds. */
  lemma HookGoes(s: State, p: nat, pc: HookPc, late: bool)
    requires PgInv(s) && AtHook(s, p) && HookOk(s.db, s.procs[p].env, pc, late)
    ensures Kept(s, Put(s, p, s.procs[p].(hpc := pc, late := late)))
  {
    hide PgInv, HookOk;
    PutStep(s, Put(s, p, s.procs[p].(hpc := pc, late := late)), p);
  }

  lemma HookResolveKeeps(s: State, p: nat, hit: Option<Uuid>, f: Fault)
    requires PgInv(s)
    ensures Kept(s, DoHookResolve(s, p, hit, f))
  {
    hide PgInv, Kept, HookOk, GotoHook;
    Unchanged(s);
    if AtHook(s, p) && s.procs[p].hpc.HResolve? {
      HookEnds(s, p);
      var env := s.procs[p].env;
      if ByMetadata(env) {
        NamedReads(s.db, env, env.order.value, s.procs[p].late);
        HookGoesTo(s, p, HRead(env.order.value, true));
      } else if env.intent != "" && hit.Some? && FindsIntent(s.db, env.intent, hit) {
        NamedReads(s.db, env, hit.value, s.procs[p].late);
        HookGoesTo(s, p, HRead(hit.value, false));
      }
    }
  }

  lemma NamedReads(db: Db, env: Envelope, id: Uuid, late: bool)
    requires Names(db, env, id)
    ensures HookOk(db, env, HRead(id, ByMetadata(env)), late)
  {}

  lemma HookGoesTo(s: State, p: nat, pc: HookPc)
    requires PgInv(s) && AtHook(s, p) && HookOk(s.db, s.procs[p].env, pc, s.procs[p].late)
    ensures Kept(s, GotoHook(s, p, pc))
  {
    hide PgInv, HookOk, Kept;
    HookGoes(s, p, pc, s.procs[p].late);
  }

  /** Whatever the dispatch decides on, the row read is a row of the table. */
  lemma DispatchOk(s: State, env: Envelope, id: Uuid, metadata: bool, late: bool, clock: int)
    requires PgInv(s) && id in s.db.orders && HookOk(s.db, env, HRead(id, metadata), late)
    ensures var o, v := s.db.orders[id], Dispatch(env, s.db.orders[id], metadata, clock);
      && (v.GoLate? ==> HookOk(s.db, env, HLate(o), true))
      && (v.GoFail? ==> HookOk(s.db, env, HFail(o), late))
      && (v.GoPay? ==> HookOk(s.db, env, HReady(o), late))
  {
    hide PgInv, ReadOf, DbInv;
    QueueFact(s);
    RowFacts(s.db, s.next, id);
    RowReads(s.db, s.db.orders[id]);
  }

  lemma RowReads(db: Db, o: Order)
    requires o.id in db.orders && db.orders[o.id] == o
    ensures ReadOf(db, o)
  {}

  lemma HookReadKeeps(s: State, p: nat, clock: int, f: Fault)
    requires PgInv(s)
    ensures Kept(s, DoHookRead(s, p, clock, f))
  {
    hide PgInv, Kept, HookOk, Dispatch;
    Unchanged(s);
    if AtHook(s, p) && s.procs[p].hpc.HRead? {
      var id, env := s.procs[p].hpc.id, s.procs[p].env;
      HookEnds(s, p);
      if f.Clean? && id in s.db.orders {
        var o := s.db.orders[id];
        ProcFact(s, p);
        DispatchOk(s, env, id, s.procs[p].hpc.metadata, s.procs[p].late, clock);
        match Dispatch(env, o, s.procs[p].hpc.metadata, clock) {
          case Finish(_) =>
          case GoPay => HookGoes(s, p, HReady(o), s.procs[p].late);
          case GoLate => HookGoes(s, p, HLate(o), true);
          case GoFail => HookGoes(s, p, HFail(o), s.procs[p].late);
        }
      }
    }
  }

  lemma HookEnds(s: State, p: nat)
    requires PgInv(s) && AtHook(s, p)
    ensures forall r :: Kept(s, GotoHook(s, p, HDone(r)))
  {
    hide PgInv, Kept;
    forall r ensures Kept(s, GotoHook(s, p, HDone(r))) {
      HookGoes(s, p, HDone(r), s.procs[p].late);
    }
  }

  lemma HookRecheckKeeps(s: State, p: nat, f: Fault)
    requires PgInv(s)
    ensures Kept(s, DoHookRecheck(s, p, f))
  {
    hide PgInv, Kept, GotoHook;
    Unchanged(s);
    if AtHook(s, p) { HookEnds(s, p); }
  }

  lemma HookFinishKeeps(s: State, p: nat)
    requires PgInv(s)
    ensures Kept(s, DoHookFinish(s, p))
  {
    hide PgInv, DbInv, LogOk, ProcsOk, Extends, GatewayOk, PaidOk, FoundOk, Advances, OrdersExtend;
    Unchanged(s);
    QueueFact(s);
    var t := DoHookFinish(s, p);
    if t != s { DropStep(s, t, p); }
  }

  lemma ReadOfFacts(s: State, o: Order)
    requires PgInv(s) && ReadOf(s.db, o)
    ensures SameIdentity(o, s.db.orders[o.id]) && o.id in s.db.orders && OrdersExtend(s.db.orders, s.db.orders)
  {}

  lemma HookBeginKeeps(s: State, p: nat, f: Fault)
    requires PgInv(s)
    ensures Kept(s, DoHookBegin(s, p, f))
  {
    hide PgInv, Kept, GotoHook, PayableRead;
    Unchanged(s);
    if AtHook(s, p) && s.procs[p].hpc.HReady? {
      HookEnds(s, p);
      ProcFact(s, p);
      HookGoesTo(s, p, HPay(s.procs[p].hpc.order, s.now));
    }
  }

  /** The failing transactions of the webhook. */
  lemma HookFailKeeps(s: State, p: nat, o: Order, to: Status, f: Fault)
    requires PgInv(s) && AtHook(s, p) && ReadOf(s.db, o) && Names(s.db, s.procs[p].env, o.id) && IsFailure(to)
    ensures Kept(s, HookOutcome(s, p, FailTx(s.db, o, to), o.id, f))
  {
    hide PgInv, DbInv, LogOk, ProcsOk, Extends, GatewayOk, PaidOk, FoundOk, Advances, OrdersExtend,
         NoNewPaid, ProcessedAsBefore, FailTx, ReadOf, Kept;
    QueueFact(s);
    ReadOfFacts(s, o);
    FailTxKeeps(s.db, s.next, o, to);
    FailTxQuiet(s.db, o, to);
    HookEnds(s, p);
    if !f.Fails? {
      if CanMark(s.db.orders[o.id].status, to) {
        CommitMove(s, HookOutcome(s, p, FailTx(s.db, o, to), o.id, f), p);
      } else {
        HookGoes(s, p, HRecheck(o.id), s.procs[p].late);
      }
    }
  }

  /** The paying transaction: the row gets this webhook's intent, strictly before its deadline. */
  lemma HookPayKeeps(s: State, p: nat, o: Order, began: int, clock: int, f: Fault)
    requires PgInv(s) && AtHook(s, p) && s.procs[p].hpc == HPay(o, began)
    ensures Kept(s, DoHookTx(s, p, clock, f))
  {
    hide PgInv, DbInv, LogOk, ProcsOk, Extends, GatewayOk, PaidOk, FoundOk, Advances, OrdersExtend,
         PayTx, ReadOf, Kept;
    ProcFact(s, p);
    HPayFact(s.db, s.procs[p].env, o, began, s.procs[p].late);
    ReadOfFacts(s, o);
    HookEnds(s, p);
    var env := s.procs[p].env;
    var r := PayTx(s.db, o, env.intent, began, clock);
    if f.Fails? || r.error != Ok {
      HookGoes(s, p, HLate(o), true);
      HookGoes(s, p, HRecheck(o.id), s.procs[p].late);
    } else {
      PayTxKeeps(s.db, s.next, o, env.intent, began, clock);
      PaidStep(s, DoHookTx(s, p, clock, f), p, o, env.intent, began, clock);
    }
  }

  lemma HPayFact(db: Db, env: Envelope, o: Order, began: int, late: bool)
    requires HookOk(db, env, HPay(o, began), late)
    ensures ReadOf(db, o) && (o.IntentID() == "" || o.intent == Some(env.intent))
    ensures HookOk(db, env, HLate(o), true) && HookOk(db, env, HRecheck(o.id), late)
  {}

  /** What a successful paying transaction did to the row. */
  lemma PayTxPays(db: Db, o: Order, intent: string, now: int, clock: int)
    requires ReadOf(db, o) && (o.IntentID() == "" || o.intent == Some(intent)) && PayTx(db, o, intent, now, clock).error == Ok
    ensures o.id in db.orders && db.orders[o.id].reservedUntil > now && db.orders[o.id].status == AwaitingPayment
    ensures PayTx(db, o, intent, now, clock).db
            == db.(orders := db.orders[o.id := db.orders[o.id].(intent := Some(intent), status := Paid)])
  {
    if o.IntentID() != "" {
      assert db.orders[o.id].intent == Some(intent);
      assert db.orders[o.id].(intent := Some(intent)) == db.orders[o.id];
    }
  }

  lemma PaidHistory(orders: Orders, found: set<Uuid>, paidBy: map<Uuid, Payment>, now: int, i: Uuid, intent: string, began: int)
    requires FoundOk(orders, found, now) && PaidOk(orders, paidBy)
    requires i in orders && orders[i].status == AwaitingPayment && orders[i].reservedUntil > began
    ensures var after := orders[i := orders[i].(intent := Some(intent), status := Paid)];
      FoundOk(after, found, now) && PaidOk(after, paidBy[i := Payment(intent, began)])
  {}

  lemma PaidStep(s: State, t: State, p: nat, o: Order, intent: string, began: int, clock: int)
    requires PgInv(s) && p in t.procs && ReadOf(s.db, o) && (o.IntentID() == "" || o.intent == Some(intent))
    requires PayTx(s.db, o, intent, began, clock).error == Ok && t.db == PayTx(s.db, o, intent, began, clock).db
    requires DbInv(t.db, s.next) && Extends(s.db, t.db)
    requires t == s.(db := t.db, procs := s.procs[p := t.procs[p]], paidBy := s.paidBy[o.id := Payment(intent, began)])
    requires t.procs[p].Hook? && t.procs[p].hpc.HDone?
    ensures Kept(s, t)
  {
    hide DbInv, LogOk, ProcsOk, Extends, GatewayOk, MsgsOk, PayTx, FoundOk, PaidOk, ReadOf;
    PayTxPays(s.db, o, intent, began, clock);
    PaidHistory(s.db.orders, s.found, s.paidBy, s.now, o.id, intent, began);
    assert Advances(s, t) by { AdvancesReflexive(s); }
    ProcsStable(s, t, p);
    LogStable(s.db, t.db, s.log, s.handled);
  }

  lemma HookTxKeeps(s: State, p: nat, clock: int, f: Fault)
    requires PgInv(s)
    ensures Kept(s, DoHookTx(s, p, clock, f))
  {
    hide PgInv, DbInv, Advances, HookOutcome, PayTx, FailTx;
    Unchanged(s);
    if AtHook(s, p) {
      ProcFact(s, p);
      match s.procs[p].hpc {
        case HPay(o, began) => HookPayKeeps(s, p, o, began, clock, f);
        case HLate(o) => HookFailKeeps(s, p, o, Expired, f);
        case HFail(o) => HookFailKeeps(s, p, o, PaymentFailed, f);
        case _ =>
      }
    }
  }

  /** A row found overdue is already past its deadline. */
  lemma FindKeeps(s: State, ids: set<Uuid>, grace: nat)
    requires PgInv(s)
    ensures Kept(s, DoFind(s, ids, grace))
  {
    hide DbInv, LogOk, Extends, GatewayOk, PaidOk, MsgsOk, ProcOk;
    var t := DoFind(s, ids, grace);
    ExtendsReflexive(s.db);
    assert FoundOk(t.db.orders, t.found, t.now);
    assert ProcsOk(t);
  }

  lemma JobReadKeeps(s: State, p: nat, id: Uuid, kind: JobKind)
    requires PgInv(s)
    ensures Kept(s, DoJobRead(s, p, id, kind))
  {
    hide PgInv, DbInv, LogOk, ProcsOk, Extends, GatewayOk, PaidOk, FoundOk, Advances, OrdersExtend;
    Unchanged(s);
    QueueFact(s);
    var t := DoJobRead(s, p, id, kind);
    if p !in s.procs && id in s.db.orders {
      RowFacts(s.db, s.next, id);
      if t != s { PutStep(s, t, p); }
    }
  }

  lemma JobTxKeeps(s: State, p: nat, f: Fault)
    requires PgInv(s)
    ensures Kept(s, DoJobTx(s, p, f))
  {
    hide PgInv, DbInv, LogOk, ProcsOk, Extends, GatewayOk, PaidOk, FoundOk, Advances, OrdersExtend,
         NoNewPaid, ProcessedAsBefore, FailTx;
    Unchanged(s);
    QueueFact(s);
    var t := DoJobTx(s, p, f);
    if p in s.procs && s.procs[p].Job? {
      ProcFact(s, p);
      var o := s.procs[p].order;
      ReadOfFacts(s, o);
      var to := if s.procs[p].kind.Expire? then Expired else Failed;
      FailTxKeeps(s.db, s.next, o, to);
      FailTxQuiet(s.db, o, to);
      if f.Fails? { MoveStep(s, t, p); } else { CommitMove(s, t, p); }
    }
  }

  lemma ConfirmActionKeeps(s: State, id: Uuid)
    requires PgInv(s)
    ensures Kept(s, DoConfirm(s, id))
  {
    hide PgInv, DbInv, LogOk, ProcsOk, Extends, GatewayOk, PaidOk, FoundOk, Advances, OrdersExtend,
         NoNewPaid, ProcessedAsBefore, Transition;
    Unchanged(s);
    QueueFact(s);
    var t := DoConfirm(s, id);
    ConfirmKeeps(s.db, s.next, id);
    ConfirmQuiet(s.db, id);
    CommitOnly(s, t);
  }

  lemma PayReadKeeps(s: State, p: nat, id: Uuid, clock: int)
    requires PgInv(s)
    ensures Kept(s, DoPayRead(s, p, id, clock))
  {
    hide PgInv, DbInv, LogOk, ProcsOk, Extends, GatewayOk, PaidOk, FoundOk, Advances, OrdersExtend;
    Unchanged(s);
    QueueFact(s);
    var t := DoPayRead(s, p, id, clock);
    if p !in s.procs && id in s.db.orders {
      RowFacts(s.db, s.next, id);
      if t != s { PutStep(s, t, p); }
    }
  }

  lemma PayGatewayKeeps(s: State, p: nat, offer: string)
    requires PgInv(s)
    ensures Kept(s, DoPayGateway(s, p, offer))
  {
    hide PgInv, GatewayOk, ReadOf, Kept;
    Unchanged(s);
    var t := DoPayGateway(s, p, offer);
    if t != s {
      QueueFact(s);
      ProcFact(s, p);
      OfferKept(s.gateway, s.procs[p].order.id, offer);
      assert GatewayExtends(s.gateway, t.gateway);
      GatewayStep(s, t, p);
    }
  }

  lemma GatewayStep(s: State, t: State, p: nat)
    requires PgInv(s) && p in t.procs && t == s.(procs := s.procs[p := t.procs[p]], gateway := t.gateway)
    requires GatewayOk(t.gateway) && GatewayExtends(s.gateway, t.gateway)
    requires ProcOk(s.db, s.log, t.gateway, s.next, t.procs[p])
    ensures Kept(s, t)
  {
    QueueFact(s);
    QuietStep(s, t, p);
  }

  lemma OfferKept(g: map<Uuid, string>, id: Uuid, offer: string)
    requires GatewayOk(g)
    ensures offer != "" && offer !in g.Values ==> GatewayOk(g[id := offer])
  {
    forall i | i in g ensures g[i] in g.Values {}
  }

  lemma PaySetKeeps(s: State, p: nat, clock: int, f: Fault)
    requires PgInv(s)
    ensures Kept(s, DoPaySet(s, p, clock, f))
  {
    hide PgInv, DbInv, LogOk, ProcsOk, Extends, GatewayOk, PaidOk, FoundOk, Advances, OrdersExtend,
         NoNewPaid, ProcessedAsBefore, SetIntent;
    Unchanged(s);
    QueueFact(s);
    var t := DoPaySet(s, p, clock, f);
    if p in s.procs && s.procs[p].Pay? && s.procs[p].intent.Some? {
      var id, x := s.procs[p].order.id, s.procs[p].intent.value;
      SetIntentKeeps(s.db, s.next, id, x, s.now, clock);
      SetIntentQuiet(s.db, id, x, s.now, clock);
      if f.Fails? { MoveStep(s, t, p); } else { CommitMove(s, t, p); }
    }
  }

  lemma CrashKeeps(s: State, p: nat)
    requires PgInv(s)
    ensures Kept(s, DoCrash(s, p))
  {
    hide PgInv, DbInv, LogOk, ProcsOk, Extends, GatewayOk, PaidOk, FoundOk, Advances, OrdersExtend;
    Unchanged(s);
    QueueFact(s);
    var t := DoCrash(s, p);
    if p in s.procs { DropStep(s, t, p); }
  }

  lemma ChaosKeeps(s: State, redis: Redis, msgs: map<Uuid, Msg>, next: nat)
    requires PgInv(s)
    ensures Kept(s, DoChaos(s, redis, msgs, next))
  {
    hide PgInv, DbInv, LogOk, ProcsOk, Extends, GatewayOk, PaidOk, FoundOk, Advances, OrdersExtend;
    Unchanged(s);
    QueueFact(s);
    var t := DoChaos(s, redis, msgs, next);
    IdleStep(s, t);
  }

  predicate IsIntakeAction(a: Action) {
    a.BookStream? || a.KafkaDeduct? || a.KafkaPublish?
    || a.KafkaRevert? || a.RepairMeta? || a.WorkerTx? || a.WorkerGiveUp? || a.WorkerAck?
  }

  predicate IsSagaAction(a: Action) {
    a.RelayPublish? || a.RelayMark? || a.Deliver? || a.Watch? || a.CompRead? || a.CompWrite?
    || a.CompCheck? || a.CompRevert? || a.CompMark? || a.CompFinish?
  }

  predicate IsHookAction(a: Action) {
    a.HookStart? || a.HookResolve? || a.HookRead? || a.HookBegin? || a.HookTx? || a.HookRecheck? || a.HookFinish?
  }

  lemma IntakeNextKeeps(s: State, a: Action)
    requires PgInv(s) && IsIntakeAction(a)
    ensures Kept(s, Next(s, a))
  {
    hide PgInv, Kept, DoBookStream, DoKafkaDeduct, DoKafkaPublish, DoKafkaRevert, DoWorkerTx,
         DoWorkerGiveUp, DoWorkerAck;
    match a {
      case BookStream(tt, q, user, until) => BookStreamKeeps(s, tt, q, user, until);
      case KafkaDeduct(p, tt, q, user, until, f) => KafkaDeductKeeps(s, p, tt, q, user, until, f);
      case KafkaPublish(p, f) => KafkaPublishKeeps(s, p, f);
      case KafkaRevert(p, f) => KafkaRevertKeeps(s, p, f);
      case RepairMeta(tt, m) => RedisOnly(s, DoRepairMeta(s, tt, m).redis);
      case WorkerTx(id, clock, f) => WorkerTxKeeps(s, id, clock, f);
      case WorkerGiveUp(id, f) => WorkerGiveUpKeeps(s, id, f);
      case WorkerAck(id) => WorkerAckKeeps(s, id);
      case _ =>
    }
  }

  lemma FeedNextKeeps(s: State, a: Action)
    requires PgInv(s) && (a.RelayPublish? || a.RelayMark? || a.Deliver? || a.Watch?)
    ensures Kept(s, Next(s, a))
  {
    hide PgInv, Kept, DoRelayPublish, DoRelayMark, DoDeliver, DoWatch;
    match a {
      case RelayPublish(row) => RelayPublishKeeps(s, row);
      case RelayMark(row) => RelayMarkKeeps(s, row);
      case Deliver(p, n) => DeliverKeeps(s, p, n);
      case Watch(p, id) => WatchKeeps(s, p, id);
      case _ =>
    }
  }

  lemma CompNextKeeps(s: State, a: Action)
    requires PgInv(s) && IsSagaAction(a) && !(a.RelayPublish? || a.RelayMark? || a.Deliver? || a.Watch?)
    ensures Kept(s, Next(s, a))
  {
    hide PgInv, Kept, DoCompRead, DoCompWrite, DoCompCheck, DoCompRevert, DoCompMark, DoCompFinish;
    match a {
      case CompRead(p, f) => CompReadKeeps(s, p, f);
      case CompWrite(p, f) => CompWriteKeeps(s, p, f);
      case CompCheck(p, f) => CompCheckKeeps(s, p, f);
      case CompRevert(p, f) => CompRevertKeeps(s, p, f);
      case CompMark(p, f) => CompMarkKeeps(s, p, f);
      case CompFinish(p) => CompFinishKeeps(s, p);
      case _ =>
    }
  }

  lemma HookNextKeeps(s: State, a: Action)
    requires PgInv(s) && IsHookAction(a)
    ensures Kept(s, Next(s, a))
  {
    hide PgInv, Kept, DoHookStart, DoHookResolve, DoHookRead, DoHookBegin, DoHookTx, DoHookRecheck, DoHookFinish;
    match a {
      case HookStart(p, env, live) => HookStartKeeps(s, p, env, live);
      case HookResolve(p, hit, f) => HookResolveKeeps(s, p, hit, f);
      case HookRead(p, clock, f) => HookReadKeeps(s, p, clock, f);
      case HookBegin(p, f) => HookBeginKeeps(s, p, f);
      case HookTx(p, clock, f) => HookTxKeeps(s, p, clock, f);
      case HookRecheck(p, f) => HookRecheckKeeps(s, p, f);
      case HookFinish(p) => HookFinishKeeps(s, p);
      case _ =>
    }
  }

  lemma OtherNextKeeps(s: State, a: Action)
    requires PgInv(s) && !IsIntakeAction(a) && !IsSagaAction(a) && !IsHookAction(a)
    ensures Kept(s, Next(s, a))
  {
    hide PgInv, Kept, DoFind, DoJobRead, DoJobTx, DoConfirm, DoPayRead, DoPayGateway, DoPaySet, DoCrash,
         DoChaos;
    match a {
      case Tick(d) => TickKeeps(s, d);
      case Find(ids, grace) => FindKeeps(s, ids, grace);
      case JobRead(p, id, kind) => JobReadKeeps(s, p, id, kind);
      case JobTx(p, f) => JobTxKeeps(s, p, f);
      case Confirm(id) => ConfirmActionKeeps(s, id);
      case PayRead(p, id, clock) => PayReadKeeps(s, p, id, clock);
      case PayGateway(p, offer) => PayGatewayKeeps(s, p, offer);
      case PaySet(p, clock, f) => PaySetKeeps(s, p, clock, f);
      case Crash(p) => CrashKeeps(s, p);
      case GuardLost(key) => RedisOnly(s, DoGuardLost(s, key).redis);
      case Chaos(r, m, n) => ChaosKeeps(s, r, m, n);
      case _ =>
    }
  }

  /** One step of any handler, or of the environment. */
  lemma NextKeeps(s: State, a: Action)
    requires PgInv(s)
    ensures PgInv(Next(s, a)) && Advances(s, Next(s, a))
  {
    hide PgInv, Advances, Next;
    if IsIntakeAction(a) { IntakeNextKeeps(s, a); }
    else if a.RelayPublish? || a.RelayMark? || a.Deliver? || a.Watch? { FeedNextKeeps(s, a); }
    else if IsSagaAction(a) { CompNextKeeps(s, a); }
    else if IsHookAction(a) { HookNextKeeps(s, a); }
    else { OtherNextKeeps(s, a); }
  }

  lemma RedisOnly(s: State, redis: Redis)
    requires PgInv(s)
    ensures Kept(s, s.(redis := redis))
  {
    hide PgInv, Advances;
    QueueFact(s);
    IdleStep(s, s.(redis := redis));
  }

  /** Any run of any length. */
  lemma {:induction false} RunKeeps(s: State, acts: seq<Action>)
    requires PgInv(s)
    ensures PgInv(Run(s, acts)) && Advances(s, Run(s, acts))
    decreases |acts|
  {
    hide PgInv, Advances, Next;
    if acts == [] {
      AdvancesReflexive(s);
    } else {
      NextKeeps(s, acts[0]);
      RunKeeps(Next(s, acts[0]), acts[1..]);
      AdvancesTransitive(s, Next(s, acts[0]), Run(s, acts));
    }
  }
}
