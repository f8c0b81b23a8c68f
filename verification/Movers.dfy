/** Who may write an order: for each column that changes, the one step it changes in. */
module Movers {
  import opened Domain
  import opened Options
  import opened Store
  import opened Protocol
  import opened Steps
  import opened DbSafety
  import opened PgSafety
  import opened PgSteps
  import opened Guarantees
  import opened Messages

  // ---- Steps that leave the orders alone ----

  lemma IntakeLeaves(s: State, p: nat, tt: Uuid, quantity: int, user: int, until: int, f: Fault)
    ensures DoKafkaDeduct(s, p, tt, quantity, user, until, f).db == s.db
    ensures DoKafkaPublish(s, p, f).db == s.db && DoKafkaRevert(s, p, f).db == s.db && DoBookStream(s, tt, quantity, user, until).db == s.db
  {
    hide Deduct, MsgOf, Revert;
  }

  lemma CallLeaves(s: State, p: nat, n: nat)
    ensures DoDeliver(s, p, n).db == s.db && DoWatch(s, p, n).db == s.db && DoCrash(s, p).db == s.db
  {}

  lemma ReadLeaves(s: State, p: nat, f: Fault)
    ensures DoCompRead(s, p, f).db == s.db && DoCompCheck(s, p, f).db == s.db
  {
    hide WasRedisReverted, ResolveTicketType;
  }

  lemma RevertLeaves(s: State, p: nat, f: Fault)
    ensures DoCompRevert(s, p, f).db == s.db && DoCompMark(s, p, f).db.orders == s.db.orders && DoCompFinish(s, p).db == s.db
  {
    hide Revert;
  }

  lemma HookReadLeaves(s: State, p: nat, env: Envelope, expectLive: bool, hit: Option<Uuid>, clock: int, f: Fault)
    ensures DoHookStart(s, p, env, expectLive).db == s.db && DoHookResolve(s, p, hit, f).db == s.db && DoHookRead(s, p, clock, f).db == s.db
  {
    hide Dispatch, FindsIntent;
  }

  lemma HookEndLeaves(s: State, p: nat, f: Fault)
    ensures DoHookBegin(s, p, f).db == s.db && DoHookRecheck(s, p, f).db == s.db && DoHookFinish(s, p).db == s.db
  {
    hide IsTerminalForWebhook;
  }

  lemma JobLeaves(s: State, p: nat, id: Uuid, kind: JobKind, clock: int, offer: string, ids: set<Uuid>, grace: nat)
    ensures DoJobRead(s, p, id, kind).db == s.db && DoPayRead(s, p, id, clock).db == s.db && DoPayGateway(s, p, offer).db == s.db
    ensures DoFind(s, ids, grace).db == s.db
  {
    hide Payable, Overdue;
  }

  predicate Writes(a: Action) { a.WorkerTx? || a.CompWrite? || a.HookTx? || a.JobTx? || a.Confirm? || a.PaySet? }

  lemma QueueOrders(s: State, a: Action)
    requires a.BookStream? || a.RepairMeta? || a.WorkerGiveUp? || a.WorkerAck?
    ensures Next(s, a).db.orders == s.db.orders
  {
    hide DoBookStream, Revert;
    if a.BookStream? { IntakeLeaves(s, 0, a.tt, a.quantity, a.user, a.until, Clean); }
  }

  lemma KafkaOrders(s: State, a: Action)
    requires a.KafkaDeduct? || a.KafkaPublish? || a.KafkaRevert?
    ensures Next(s, a).db.orders == s.db.orders
  {
    hide DoKafkaDeduct, DoKafkaPublish, DoKafkaRevert;
    match a {
      case KafkaDeduct(p, tt, q, user, until, f) => IntakeLeaves(s, p, tt, q, user, until, f);
      case KafkaPublish(p, f) => IntakeLeaves(s, p, 0, 0, 0, 0, f);
      case KafkaRevert(p, f) => IntakeLeaves(s, p, 0, 0, 0, 0, f);
      case _ =>
    }
  }

  lemma FeedOrders(s: State, a: Action)
    requires a.RelayPublish? || a.RelayMark? || a.Deliver? || a.Watch?
    ensures Next(s, a).db.orders == s.db.orders
  {
    hide DoDeliver, DoWatch;
    match a {
      case Deliver(p, n) => CallLeaves(s, p, n);
      case Watch(p, n) => CallLeaves(s, p, n);
      case _ =>
    }
  }

  lemma CallOrders(s: State, a: Action)
    requires a.CompRead? || a.CompCheck? || a.CompRevert? || a.CompMark? || a.CompFinish?
    ensures Next(s, a).db.orders == s.db.orders
  {
    hide DoCompRead, DoCompCheck, DoCompRevert, DoCompMark, DoCompFinish, Next;
    match a {
      case CompRead(p, f) => ReadLeaves(s, p, f); FirstActions(s, p, f, 0);
      case CompCheck(p, f) => ReadLeaves(s, p, f); CheckActions(s, p, f);
      case CompRevert(p, f) => RevertLeaves(s, p, f); CheckActions(s, p, f);
      case CompMark(p, f) => RevertLeaves(s, p, f); MarkActions(s, p, f);
      case CompFinish(p) => RevertLeaves(s, p, Clean); MarkActions(s, p, Clean);
      case _ =>
    }
  }

  lemma HookOrders(s: State, a: Action)
    requires IsHookAction(a) && !a.HookTx?
    ensures Next(s, a).db.orders == s.db.orders
  {
    hide DoHookStart, DoHookResolve, DoHookRead, DoHookBegin, DoHookRecheck, DoHookFinish, Next;
    match a {
      case HookStart(p, env, live) => HookReadLeaves(s, p, env, live, None, 0, Clean); HookStartStep(s, p, env, live);
      case HookResolve(p, hit, f) => HookReadLeaves(s, p, Envelope(Unsupported, false, "", None), false, hit, 0, f); HookReadSteps(s, p, hit, 0, f);
      case HookRead(p, clock, f) => HookReadLeaves(s, p, Envelope(Unsupported, false, "", None), false, None, clock, f); HookReadSteps(s, p, None, clock, f);
      case HookBegin(p, f) => HookEndLeaves(s, p, f); HookEndSteps(s, p, 0, f);
      case HookRecheck(p, f) => HookEndLeaves(s, p, f); HookEndSteps(s, p, 0, f);
      case HookFinish(p) => HookEndLeaves(s, p, Clean); HookFinishStep(s, p);
      case _ =>
    }
  }

  lemma RestOrders(s: State, a: Action)
    requires !IsIntakeAction(a) && !IsSagaAction(a) && !IsHookAction(a) && !Writes(a)
    ensures Next(s, a).db.orders == s.db.orders
  {
    hide DoJobRead, DoPayRead, DoPayGateway, DoFind, DoCrash;
    match a {
      case JobRead(p, id, kind) => JobLeaves(s, p, id, kind, 0, "", {}, 0);
      case PayRead(p, id, clock) => JobLeaves(s, p, id, Expire, clock, "", {}, 0);
      case PayGateway(p, offer) => JobLeaves(s, p, 0, Expire, 0, offer, {}, 0);
      case Find(ids, grace) => JobLeaves(s, 0, 0, Expire, 0, "", ids, grace);
      case Crash(p) => CallLeaves(s, p, 0);
      case _ =>
    }
  }

  lemma OnlyWritersWrite(s: State, a: Action)
    requires !Writes(a)
    ensures Next(s, a).db.orders == s.db.orders
  {
    hide Next;
    if a.KafkaDeduct? || a.KafkaPublish? || a.KafkaRevert? { KafkaOrders(s, a); }
    else if IsIntakeAction(a) { QueueOrders(s, a); }
    else if a.RelayPublish? || a.RelayMark? || a.Deliver? || a.Watch? { FeedOrders(s, a); }
    else if IsSagaAction(a) { CallOrders(s, a); }
    else if IsHookAction(a) { HookOrders(s, a); }
    else { RestOrders(s, a); }
  }

  // ---- The steps that write ----

  predicate InTx(s: State, a: Action, i: Uuid) {
    a.HookTx? && AtHook(s, a.p) && match s.procs[a.p].hpc
      case HPay(o, _) => o.id == i
      case HLate(o) => o.id == i
      case HFail(o) => o.id == i
      case _ => false
  }

  predicate InJob(s: State, a: Action, kind: JobKind, i: Uuid) {
    a.JobTx? && a.p in s.procs && s.procs[a.p].Job? && s.procs[a.p].kind == kind && s.procs[a.p].order.id == i
  }

  /** The row went from `o` to `n` in the step that this change belongs to, and in no other way. */
  predicate MovedBy(s: State, a: Action, o: Order, n: Order) {
    match n.status
    case Paid =>
      && InTx(s, a, o.id) && o.status == AwaitingPayment && n == o.(status := Paid, intent := Some(s.procs[a.p].env.intent))
      && s.procs[a.p].hpc.HPay? && s.procs[a.p].env.kind.Succeeded? && s.procs[a.p].hpc.began < o.reservedUntil
      && Agrees(s.procs[a.p].env, s.procs[a.p].hpc.order)
    case PaymentFailed =>
      && InTx(s, a, o.id) && o.status == AwaitingPayment && n == o.(status := PaymentFailed)
      && s.procs[a.p].hpc.HFail? && s.procs[a.p].env.kind.PaymentDeclined? && Agrees(s.procs[a.p].env, s.procs[a.p].hpc.order)
    case Expired =>
      && o.status == AwaitingPayment && n == o.(status := Expired)
      && (InJob(s, a, Expire, o.id)
          || (InTx(s, a, o.id) && s.procs[a.p].hpc.HLate? && s.procs[a.p].env.kind.Succeeded? && Agrees(s.procs[a.p].env, s.procs[a.p].hpc.order)))
    case Failed => o.status in {Pending, Charging} && n == o.(status := Failed) && InJob(s, a, ForceFail, o.id)
    case Confirmed => o.status in {Pending, Charging} && n == o.(status := Confirmed) && a == Confirm(o.id)
    case Compensated =>
      && IsFailure(o.status) && n == o.(status := Compensated)
      && a.CompWrite? && AtComp(s, a.p) && s.procs[a.p].cpc.CWrite? && s.procs[a.p].ev == EventOf(o)
    case _ =>
      && a.PaySet? && a.p in s.procs && s.procs[a.p].Pay? && s.procs[a.p].order.id == o.id && s.now < o.reservedUntil
      && o.status == AwaitingPayment && o.intent == None && n == o.(intent := s.procs[a.p].intent)
  }

  /** One row at most changes, in the step that its change belongs to. */
  ghost predicate MovesOne(s: State, a: Action, b: Orders) {
    b == s.db.orders || exists i :: Moves(s, a, b, i)
  }

  ghost predicate Moves(s: State, a: Action, b: Orders, i: Uuid) {
    i in s.db.orders && i in b && b == s.db.orders[i := b[i]] && MovedBy(s, a, s.db.orders[i], b[i])
  }

  /** One row is new: the worker's own message, of a buyer who has no other row that is not Failed. */
  ghost predicate Inserts(s: State, a: Action, b: Orders) {
    && a.WorkerTx? && a.id in s.msgs && a.id !in s.db.orders && a.id in b && b == s.db.orders[a.id := b[a.id]] && RowOf(s.msgs[a.id], b[a.id])
    && forall j :: j in s.db.orders && s.db.orders[j].status != Failed ==> !SameBuyer(s.db.orders[j], b[a.id])
  }

  lemma WorkerInserts(s: State, id: Uuid, clock: int, f: Fault)
    ensures var b := DoWorkerTx(s, id, clock, f).db.orders; b == s.db.orders || Inserts(s, WorkerTx(id, clock, f), b)
  {
    hide Reserve, RowOf;
    if id in s.msgs && s.msgs[id].id == id && Reserve(s.msgs[id], clock).Accepted? {
      var o := Reserve(s.msgs[id], clock).order;
      ReserveIsExact(s.msgs[id], clock);
      IdOf(s.msgs[id], o);
      if BookTx(s.db, o).error == Ok { HoldsMeans(DecrementTicket(s.db, o.tt, o.quantity).db, o); }
    }
  }

  lemma IdOf(m: Msg, o: Order)
    requires RowOf(m, o)
    ensures o.id == m.id
  {}

  lemma WriteMoves(s: State, p: nat, f: Fault)
    requires PgInv(s)
    ensures MovesOne(s, CompWrite(p, f), DoCompWrite(s, p, f).db.orders)
  {
    hide PgInv, DbInv, CompensateTx;
    if AtComp(s, p) && s.procs[p].cpc.CWrite? {
      ProcFact(s, p);
      var i := s.procs[p].ev.order;
      CompensateTxKeeps(s.db, s.next, s.procs[p].ev);
      QueueFact(s);
      RowFacts(s.db, s.next, i);
      if DoCompWrite(s, p, f).db.orders != s.db.orders { assert Moves(s, CompWrite(p, f), DoCompWrite(s, p, f).db.orders, i); }
    }
  }

  lemma ConfirmMoves(s: State, id: Uuid)
    requires PgInv(s)
    ensures MovesOne(s, Confirm(id), DoConfirm(s, id).db.orders)
  {
    hide PgInv, DbInv;
    QueueFact(s);
    if id in s.db.orders { RowFacts(s.db, s.next, id); }
    if DoConfirm(s, id).db.orders != s.db.orders { assert Moves(s, Confirm(id), DoConfirm(s, id).db.orders, id); }
  }

  lemma JobMoves(s: State, p: nat, f: Fault)
    requires PgInv(s)
    ensures MovesOne(s, JobTx(p, f), DoJobTx(s, p, f).db.orders)
  {
    hide PgInv, DbInv, FailTx, Extends;
    if p in s.procs && s.procs[p].Job? {
      ProcFact(s, p);
      var i := s.procs[p].order.id;
      RowFacts(s.db, s.next, i);
      FailTxKeeps(s.db, s.next, s.procs[p].order, if s.procs[p].kind.Expire? then Expired else Failed);
      if DoJobTx(s, p, f).db.orders != s.db.orders { assert Moves(s, JobTx(p, f), DoJobTx(s, p, f).db.orders, i); }
    }
  }

  lemma PaySetMoves(s: State, p: nat, clock: int, f: Fault)
    requires PgInv(s)
    ensures MovesOne(s, PaySet(p, clock, f), DoPaySet(s, p, clock, f).db.orders)
  {
    hide PgInv, DbInv, IntentTaken;
    if p in s.procs && s.procs[p].Pay? {
      ProcFact(s, p);
      var i := s.procs[p].order.id;
      RowFacts(s.db, s.next, i);
      var b := DoPaySet(s, p, clock, f).db.orders;
      if b != s.db.orders {
        assert Moves(s, PaySet(p, clock, f), b, i);
      }
    }
  }

  lemma PayMoves(s: State, p: nat, clock: int, f: Fault)
    requires PgInv(s) && AtHook(s, p) && s.procs[p].hpc.HPay?
    ensures MovesOne(s, HookTx(p, clock, f), DoHookTx(s, p, clock, f).db.orders)
  {
    hide PgInv, DbInv, PayTx;
    ProcFact(s, p);
    var o, env, began := s.procs[p].hpc.order, s.procs[p].env, s.procs[p].hpc.began;
    RowFacts(s.db, s.next, o.id);
    var b := DoHookTx(s, p, clock, f).db.orders;
    if b != s.db.orders {
      PayTxPays(s.db, o, env.intent, began, clock);
      assert Moves(s, HookTx(p, clock, f), b, o.id);
    }
  }

  lemma FailWrites(s: State, p: nat, clock: int, f: Fault)
    requires PgInv(s) && AtHook(s, p) && (s.procs[p].hpc.HLate? || s.procs[p].hpc.HFail?)
    ensures var o, to, b := s.procs[p].hpc.order, if s.procs[p].hpc.HLate? then Expired else PaymentFailed, DoHookTx(s, p, clock, f).db.orders;
      o.id in s.db.orders
      && (b == s.db.orders || (s.db.orders[o.id].status == AwaitingPayment && b == s.db.orders[o.id := s.db.orders[o.id].(status := to)]))
  {
    hide PgInv, DbInv, FailTx, Extends, Names, Agrees;
    ProcFact(s, p);
    FailTxKeeps(s.db, s.next, s.procs[p].hpc.order, if s.procs[p].hpc.HLate? then Expired else PaymentFailed);
  }

  lemma FailMoves(s: State, p: nat, clock: int, f: Fault)
    requires PgInv(s) && AtHook(s, p) && (s.procs[p].hpc.HLate? || s.procs[p].hpc.HFail?)
    ensures MovesOne(s, HookTx(p, clock, f), DoHookTx(s, p, clock, f).db.orders)
  {
    hide PgInv, DbInv, DoHookTx, Names, Agrees, ReadOf;
    ProcFact(s, p);
    var o := s.procs[p].hpc.order;
    FailWrites(s, p, clock, f);
    RowFacts(s.db, s.next, o.id);
    var b := DoHookTx(s, p, clock, f).db.orders;
    if b != s.db.orders { assert Moves(s, HookTx(p, clock, f), b, o.id); }
  }

  lemma HookTxMoves(s: State, p: nat, clock: int, f: Fault)
    requires PgInv(s)
    ensures MovesOne(s, HookTx(p, clock, f), DoHookTx(s, p, clock, f).db.orders)
  {
    hide PgInv, MovesOne;
    if AtHook(s, p) && s.procs[p].hpc.HPay? { PayMoves(s, p, clock, f); }
    else if AtHook(s, p) && (s.procs[p].hpc.HLate? || s.procs[p].hpc.HFail?) { FailMoves(s, p, clock, f); }
    else { NoMove(s, HookTx(p, clock, f)); }
  }

  lemma NoMove(s: State, a: Action)
    ensures MovesOne(s, a, s.db.orders)
  {}

  lemma WriterMoves(s: State, a: Action)
    requires PgInv(s) && Writes(a)
    ensures MovesOne(s, a, Next(s, a).db.orders) || Inserts(s, a, Next(s, a).db.orders)
  {
    hide PgInv, Next, MovesOne, Inserts, DoWorkerTx, DoCompWrite, DoHookTx, DoJobTx, DoConfirm, DoPaySet;
    match a {
      case WorkerTx(id, clock, f) => WorkerInserts(s, id, clock, f); WorkerSteps(s, id, clock, f); NoMove(s, a);
      case CompWrite(p, f) => WriteMoves(s, p, f); FirstActions(s, p, f, 0);
      case HookTx(p, clock, f) => HookTxMoves(s, p, clock, f); HookEndSteps(s, p, clock, f);
      case JobTx(p, f) => JobMoves(s, p, f); JobSteps(s, p, 0, Expire, f);
      case Confirm(id) => ConfirmMoves(s, id); ConfirmStep(s, id);
      case PaySet(p, clock, f) => PaySetMoves(s, p, clock, f); PaySetStep(s, p, clock, f);
    }
  }

  /**
   * Every write has its own step. From every reachable state, whatever the step and its faults: either no
   * order changes; or one does, in the step that this change belongs to and out of the status it may leave;
   * or one is new, the row of the worker's own message.
   */
  lemma EveryWriteHasItsStep(s: State, acts: seq<Action>, a: Action)
    requires Start(s)
    ensures var u, b := Run(s, acts), Next(Run(s, acts), a).db.orders; MovesOne(u, a, b) || Inserts(u, a, b)
  {
    hide Start, PgInv, Next, MovesOne, Inserts;
    ReachedOne(s, acts);
    if Writes(a) {
      WriterMoves(Run(s, acts), a);
    } else {
      OnlyWritersWrite(Run(s, acts), a);
      NoMove(Run(s, acts), a);
    }
  }
}
