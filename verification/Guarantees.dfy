/**
 * What every run promises about Postgres, the trigger log and the clock. The runs are arbitrary:
 * crashes, lost replies, lost guard keys, and any contents of Redis and of the intake queue.
 */
module Guarantees {
  import opened Domain
  import opened Options
  import opened Store
  import opened Protocol
  import opened DbSafety
  import opened PgSafety
  import opened PgSteps

  /** A deployment before any handler has run: consistent tables, possibly with legacy rows. */
  ghost predicate Start(s: State) {
    && OrdersOk(s.db.orders, s.db.total, s.next) && AllConserved(s.db.orders, s.db.avail, s.db.total, s.next)
    && (forall i :: i in s.db.orders ==> s.db.orders[i].status in {Pending, Charging} && s.db.orders[i].intent == None)
    && (forall i, j :: i in s.db.orders && j in s.db.orders && i != j ==> !SameBuyer(s.db.orders[i], s.db.orders[j]))
    && s.db.outbox == [] && s.db.comps == map[] && s.log == [] && s.handled == {} && s.procs == map[]
    && s.msgs == map[] && s.gateway == map[] && s.found == {} && s.paidBy == map[]
    && s.redis.qty == s.db.avail && s.redis.guards == {}
    && (forall i :: i in s.ledger <==> i in s.db.orders)
    && (forall i :: i in s.ledger ==>
          s.ledger[i] == Entry(s.db.orders[i].tt, s.db.orders[i].quantity, Published, 0, 0, None))
  }

  lemma StartHolds(s: State)
    requires Start(s)
    ensures PgInv(s)
  {
    hide OrdersOk, AllConserved, CanMark, Reaches, SameIdentity;
    assert CompsOk(s.db.comps, s.db.orders);
    assert OutboxOk(s.db.outbox, s.db.orders);
    assert IntentsDiffer(s.db.orders) && BuyersOk(s.db.orders);
  }

  /** An empty deployment with any totals. */
  function FreshDeployment(total: map<Uuid, int>, types: seq<TypeRow>, meta: map<Uuid, Meta>, now: int): State {
    State(Db(map[], total, total, types, [], map[]), Redis(total, meta, {}), now, 1, map[], [], {}, map[], map[], map[], {}, map[])
  }

  /** Such a deployment may start, whatever its totals. */
  lemma FreshStarts(total: map<Uuid, int>, types: seq<TypeRow>, meta: map<Uuid, Meta>, now: int)
    requires forall tt :: tt in total ==> total[tt] >= 0
    ensures Start(FreshDeployment(total, types, meta, now))
  {
    var s := FreshDeployment(total, types, meta, now);
    forall tt | tt in total ensures Conserved(s.db.orders, s.db.avail[tt], s.db.total[tt], s.next, tt) {
      Sums.SumShrink(0, 1, PgHeld(s.db.orders, tt));
    }
  }

  /** The invariants hold in every reachable state, and what was reached is never taken back. */
  lemma Reached(s: State, a: seq<Action>, b: seq<Action>)
    requires Start(s)
    ensures PgInv(Run(s, a)) && PgInv(Run(s, a + b)) && Advances(Run(s, a), Run(s, a + b))
  {
    hide Start, PgInv, Advances;
    StartHolds(s);
    RunKeeps(s, a);
    RunKeeps(Run(s, a), b);
    RunConcat(s, a, b);
  }

  lemma ReachedOne(s: State, a: seq<Action>)
    requires Start(s)
    ensures PgInv(Run(s, a)) && DbInv(Run(s, a).db, Run(s, a).next)
  {
    hide Start;
    StartHolds(s);
    RunKeeps(s, a);
  }

  // ---- Inventory ----

  /** No oversell: tickets left plus tickets held by live orders are always exactly the total. */
  lemma NoOversell(s: State, acts: seq<Action>, tt: Uuid)
    requires Start(s) && tt in s.db.total
    ensures var t := Run(s, acts);
      && tt in t.db.avail && tt in t.db.total && t.db.total[tt] == s.db.total[tt]
      && 0 <= t.db.avail[tt] <= t.db.total[tt]
      && Conserved(t.db.orders, t.db.avail[tt], t.db.total[tt], t.next, tt)
  {
    hide Start, PgInv, DbInv, Conserved;
    StartHolds(s);
    RunKeeps(s, acts);
    QueueFact(Run(s, acts));
    TicketsConserved(Run(s, acts).db, Run(s, acts).next, tt);
  }

  lemma TicketsConserved(db: Db, n: nat, tt: Uuid)
    requires DbInv(db, n) && tt in db.total
    ensures tt in db.avail && Conserved(db.orders, db.avail[tt], db.total[tt], n, tt) && 0 <= db.avail[tt] <= db.total[tt]
  {
    hide OutboxOk, CompsOk, IntentsDiffer, BuyersOk;
    assert Conserved(db.orders, db.avail[tt], db.total[tt], n, tt);
    HeldNonNegative(db.orders, db.total, n, tt);
    Sums.SumNonNegative(n, PgHeld(db.orders, tt));
  }

  /** The upper bound of the increment never refuses a live order's own units, and a trigger always names its ticket type. */
  lemma IncrementAlwaysFits(s: State, acts: seq<Action>, i: Uuid)
    requires Start(s) && i in Run(s, acts).db.orders && Run(s, acts).db.orders[i].status != Compensated
    ensures var db := Run(s, acts).db;
      IncrementTicket(db, db.orders[i].tt, db.orders[i].quantity).error == Ok
      && ResolveTicketType(db, EventOf(db.orders[i])) == db.orders[i].tt != NIL
  {
    hide Start, PgInv;
    ReachedOne(s, acts);
    UnitsFit(Run(s, acts).db, Run(s, acts).next, i);
    RowFacts(Run(s, acts).db, Run(s, acts).next, i);
  }

  /** One live order per buyer: in every reachable state no two orders of one user for one event are both not Failed. */
  lemma OneOrderPerBuyer(s: State, acts: seq<Action>, i: Uuid, j: Uuid)
    requires Start(s) && i in Run(s, acts).db.orders && j in Run(s, acts).db.orders && i != j
    ensures var orders := Run(s, acts).db.orders;
      orders[i].user == orders[j].user && orders[i].event == orders[j].event ==> orders[i].status == Failed || orders[j].status == Failed
  {
    hide Start, PgInv, OrdersOk, AllConserved, OutboxOk, CompsOk, IntentsDiffer;
    ReachedOne(s, acts);
  }

  // ---- Triggers ----

  function TriggerCount(outbox: seq<OutboxRow>, i: Uuid): nat {
    if outbox == [] then 0
    else TriggerCount(outbox[..|outbox| - 1], i) + (if outbox[|outbox| - 1].payload.order == i then 1 else 0)
  }

  lemma {:induction false} CountsOne(outbox: seq<OutboxRow>, i: Uuid)
    requires forall k, l :: 0 <= k < l < |outbox| ==> outbox[k].payload.order != outbox[l].payload.order
    ensures TriggerCount(outbox, i) == if Triggered(outbox, i) then 1 else 0
  {
    if outbox != [] {
      var n := |outbox| - 1;
      CountsOne(outbox[..n], i);
      if outbox[n].payload.order == i {
        assert Triggered(outbox, i);
        assert !Triggered(outbox[..n], i);
      } else if Triggered(outbox, i) {
        var k :| 0 <= k < |outbox| && outbox[k].payload.order == i;
        assert outbox[..n][k].payload.order == i;
      } else {
        assert forall k :: 0 <= k < n ==> outbox[..n][k] == outbox[k];
      }
    }
  }

  /** One saga trigger per failed order and none for any other, with the row's own data on it. */
  lemma OneTriggerPerFailure(s: State, acts: seq<Action>, i: Uuid)
    requires Start(s) && i in Run(s, acts).db.orders
    ensures var db := Run(s, acts).db;
      && TriggerCount(db.outbox, i) == (if IsTriggered(db.orders[i].status) then 1 else 0)
      && forall k :: 0 <= k < |db.outbox| && db.outbox[k].payload.order == i ==> db.outbox[k].payload == EventOf(db.orders[i])
  {
    hide Start, PgInv;
    ReachedOne(s, acts);
    Unpack(Run(s, acts).db, Run(s, acts).next);
    TriggersOf(Run(s, acts).db.outbox, Run(s, acts).db.orders, i);
  }

  lemma TriggersOf(outbox: seq<OutboxRow>, orders: Orders, i: Uuid)
    requires OutboxOk(outbox, orders) && i in orders
    ensures TriggerCount(outbox, i) == (if IsTriggered(orders[i].status) then 1 else 0)
    ensures forall k :: 0 <= k < |outbox| && outbox[k].payload.order == i ==> outbox[k].payload == EventOf(orders[i])
  {
    CountsOne(outbox, i);
    forall k | 0 <= k < |outbox| && outbox[k].payload.order == i
      ensures outbox[k].payload == EventOf(orders[i]) && IsTriggered(orders[i].status)
    {
      assert RowOk(outbox[k].payload, orders);
    }
  }

  /** The trigger `k` still has a delivery ahead: it is unpublished, or published and no offset of it is handled. */
  ghost predicate Owed(s: State, k: nat) {
    && k < |s.db.outbox|
    && (!s.db.outbox[k].processed || exists n :: 0 <= n < |s.log| && s.log[n] == k)
    && forall n :: 0 <= n < |s.log| && s.log[n] == k ==> n !in s.handled
  }

  /** No lost compensation: every order in a failure status has its trigger still ahead of it. */
  lemma NoLostCompensation(s: State, acts: seq<Action>, i: Uuid)
    requires Start(s) && i in Run(s, acts).db.orders && IsFailure(Run(s, acts).db.orders[i].status)
    ensures exists k: nat :: Owed(Run(s, acts), k) && Run(s, acts).db.outbox[k].payload == EventOf(Run(s, acts).db.orders[i])
  {
    hide Start, PgInv, DbInv, Owed;
    ReachedOne(s, acts);
    var k := OwedTrigger(Run(s, acts), i);
  }

  lemma OwedTrigger(t: State, i: Uuid) returns (k: nat)
    requires PgInv(t) && i in t.db.orders && IsFailure(t.db.orders[i].status)
    ensures Owed(t, k) && t.db.outbox[k].payload == EventOf(t.db.orders[i])
  {
    hide DbInv, ProcsOk, GatewayOk, FoundOk, PaidOk, Extends, OutboxOk;
    Unpack(t.db, t.next);
    TriggersOf(t.db.outbox, t.db.orders, i);
    assert Triggered(t.db.outbox, i);
    k :| 0 <= k < |t.db.outbox| && t.db.outbox[k].payload.order == i;
  }

  /** At least once: no outbox row is ever marked processed without having been published. */
  lemma ProcessedWasPublished(s: State, acts: seq<Action>, k: nat)
    requires Start(s) && k < |Run(s, acts).db.outbox| && Run(s, acts).db.outbox[k].processed
    ensures k in Run(s, acts).log
  {
    hide Start, PgInv, DbInv;
    ReachedOne(s, acts);
    QueueFact(Run(s, acts));
  }

  /** A nil return of the compensator means the order is settled, and it stays settled for good. */
  lemma NilReturnSettles(s: State, a: seq<Action>, b: seq<Action>, p: nat)
    requires Start(s) && AtComp(Run(s, a), p) && Run(s, a).procs[p].cpc == CDone(true)
    ensures Settled(Run(s, a + b).db, Run(s, a).procs[p].ev.order)
  {
    hide Start, PgInv, Settled, Extends, ResolveTicketType, GatewayExtends, LogExtends;
    Reached(s, a, b);
    DoneSettles(Run(s, a), p);
    SettledStable(Run(s, a).db, Run(s, a + b).db, Run(s, a).procs[p].ev.order);
  }

  /** A committed offset means the same. */
  lemma HandledSettles(s: State, a: seq<Action>, b: seq<Action>, n: nat)
    requires Start(s) && n in Run(s, a).handled
    ensures var t := Run(s, a);
      n < |t.log| && t.log[n] < |t.db.outbox| && Settled(Run(s, a + b).db, t.db.outbox[t.log[n]].payload.order)
  {
    hide Start, PgInv, Settled, Extends;
    Reached(s, a, b);
    var t := Run(s, a);
    QueueFact(t);
    SettledStable(t.db, Run(s, a + b).db, t.db.outbox[t.log[n]].payload.order);
  }

  // ---- History ----

  /** What one step may do to the two history fields. */
  ghost predicate HistoryStep(s: State, a: Action, t: State) {
    && s.found <= t.found
    && (t.paidBy == s.paidBy
        || (a.HookTx? && AtHook(s, a.p) && s.procs[a.p].hpc.HPay?
            && t.paidBy == s.paidBy[s.procs[a.p].hpc.order.id := Payment(s.procs[a.p].env.intent, s.procs[a.p].hpc.began)]))
  }

  ghost predicate Untold(s: State, t: State) { t.found == s.found && t.paidBy == s.paidBy }

  lemma KafkaUntold(s: State, p: nat, tt: Uuid, quantity: int, user: int, until: int, f: Fault)
    ensures Untold(s, DoKafkaDeduct(s, p, tt, quantity, user, until, f))
    ensures Untold(s, DoKafkaPublish(s, p, f)) && Untold(s, DoKafkaRevert(s, p, f))
  {
    hide Deduct, MsgOf, Revert;
  }

  lemma KafkaHistory(s: State, a: Action)
    requires a.KafkaDeduct? || a.KafkaPublish? || a.KafkaRevert?
    ensures HistoryStep(s, a, Next(s, a))
  {
    hide DoKafkaDeduct, DoKafkaPublish, DoKafkaRevert;
    match a {
      case KafkaDeduct(p, tt, q, user, until, f) => KafkaUntold(s, p, tt, q, user, until, f);
      case KafkaPublish(p, f) => KafkaUntold(s, p, 0, 0, 0, 0, f);
      case KafkaRevert(p, f) => KafkaUntold(s, p, 0, 0, 0, 0, f);
      case _ =>
    }
  }

  lemma QueueHistory(s: State, a: Action)
    requires a.BookStream? || a.RepairMeta? || a.WorkerTx? || a.WorkerGiveUp? || a.WorkerAck?
    ensures HistoryStep(s, a, Next(s, a))
  {
    hide Deduct, MsgOf, Revert, Reserve, BookTx, DoKafkaDeduct, DoKafkaPublish, DoKafkaRevert, DoCompRead, DoCompWrite, DoCompCheck,
         DoCompRevert, DoCompMark, DoHookResolve, DoHookRead, DoHookTx, DoHookRecheck, DoCrash, DoJobTx, DoPaySet;
  }

  lemma FeedHistory(s: State, a: Action)
    requires a.RelayPublish? || a.RelayMark? || a.Deliver? || a.Watch?
    ensures HistoryStep(s, a, Next(s, a))
  {
    hide Deduct, Revert, BookTx, CompensateTx, FailTx, PayTx, SetIntent, MarkRedisReverted, Transition, MarkProcessed,
         MsgOf, Reserve, Dispatch, ResolveTicketType, FindsIntent, IsTerminalForWebhook, JobResult, WasRedisReverted;
  }

  lemma CompUntold(s: State, p: nat, f: Fault)
    ensures Untold(s, DoCompRead(s, p, f)) && Untold(s, DoCompWrite(s, p, f)) && Untold(s, DoCompCheck(s, p, f))
  {
    hide CompensateTx, ResolveTicketType, WasRedisReverted;
  }

  lemma CompEndUntold(s: State, p: nat, f: Fault)
    ensures Untold(s, DoCompRevert(s, p, f)) && Untold(s, DoCompMark(s, p, f)) && Untold(s, DoCompFinish(s, p))
  {
    hide Revert, MarkRedisReverted;
  }

  lemma CompHistory(s: State, a: Action)
    requires a.CompRead? || a.CompWrite? || a.CompCheck? || a.CompRevert? || a.CompMark? || a.CompFinish?
    ensures HistoryStep(s, a, Next(s, a))
  {
    hide HistoryStep, Untold, DoCompRead, DoCompWrite, DoCompCheck, DoCompRevert, DoCompMark, DoCompFinish;
    match a {
      case CompRead(p, f) => CompUntold(s, p, f); UntoldHistory(s, a, DoCompRead(s, p, f));
      case CompWrite(p, f) => CompUntold(s, p, f); UntoldHistory(s, a, DoCompWrite(s, p, f));
      case CompCheck(p, f) => CompUntold(s, p, f); UntoldHistory(s, a, DoCompCheck(s, p, f));
      case CompRevert(p, f) => CompEndUntold(s, p, f); UntoldHistory(s, a, DoCompRevert(s, p, f));
      case CompMark(p, f) => CompEndUntold(s, p, f); UntoldHistory(s, a, DoCompMark(s, p, f));
      case CompFinish(p) => CompEndUntold(s, p, Clean); UntoldHistory(s, a, DoCompFinish(s, p));
      case _ =>
    }
  }

  lemma HookTxHistory(s: State, a: Action)
    requires a.HookTx?
    ensures HistoryStep(s, a, Next(s, a))
  {
    hide Deduct, Revert, BookTx, CompensateTx, FailTx, PayTx, SetIntent, MarkRedisReverted, Transition, MarkProcessed,
         MsgOf, Reserve, Dispatch, ResolveTicketType, FindsIntent, IsTerminalForWebhook, JobResult, WasRedisReverted;
  }

  lemma HookUntold(s: State, p: nat, env: Envelope, expectLive: bool, hit: Option<Uuid>, clock: int, f: Fault)
    ensures Untold(s, DoHookStart(s, p, env, expectLive)) && Untold(s, DoHookResolve(s, p, hit, f)) && Untold(s, DoHookRead(s, p, clock, f))
  {
    hide Dispatch, FindsIntent, IsTerminalForWebhook;
  }

  lemma HookEndUntold(s: State, p: nat, f: Fault)
    ensures Untold(s, DoHookBegin(s, p, f)) && Untold(s, DoHookRecheck(s, p, f)) && Untold(s, DoHookFinish(s, p))
  {
    hide IsTerminalForWebhook;
  }

  lemma UntoldHistory(s: State, a: Action, t: State)
    requires Untold(s, t)
    ensures HistoryStep(s, a, t)
  {}

  lemma HookReadHistory(s: State, a: Action)
    requires a.HookStart? || a.HookResolve? || a.HookRead?
    ensures HistoryStep(s, a, Next(s, a))
  {
    hide HistoryStep, Untold, DoHookStart, DoHookResolve, DoHookRead;
    var none := Envelope(Unsupported, false, "", None);
    match a {
      case HookStart(p, env, live) => HookUntold(s, p, env, live, None, 0, Clean); UntoldHistory(s, a, DoHookStart(s, p, env, live));
      case HookResolve(p, hit, f) => HookUntold(s, p, none, false, hit, 0, f); UntoldHistory(s, a, DoHookResolve(s, p, hit, f));
      case HookRead(p, clock, f) => HookUntold(s, p, none, false, None, clock, f); UntoldHistory(s, a, DoHookRead(s, p, clock, f));
      case _ =>
    }
  }

  lemma HookHistory(s: State, a: Action)
    requires IsHookAction(a) && !a.HookTx?
    ensures HistoryStep(s, a, Next(s, a))
  {
    hide HistoryStep, Untold, DoHookBegin, DoHookRecheck, DoHookFinish;
    match a {
      case HookBegin(p, f) => HookEndUntold(s, p, f); UntoldHistory(s, a, DoHookBegin(s, p, f));
      case HookRecheck(p, f) => HookEndUntold(s, p, f); UntoldHistory(s, a, DoHookRecheck(s, p, f));
      case HookFinish(p) => HookEndUntold(s, p, Clean); UntoldHistory(s, a, DoHookFinish(s, p));
      case _ => HookReadHistory(s, a);
    }
  }

  lemma OtherHistory(s: State, a: Action)
    requires !IsIntakeAction(a) && !IsSagaAction(a) && !IsHookAction(a)
    ensures HistoryStep(s, a, Next(s, a))
  {
    hide Deduct, Revert, BookTx, CompensateTx, FailTx, PayTx, SetIntent, MarkRedisReverted, Transition, MarkProcessed,
         MsgOf, Reserve, Dispatch, ResolveTicketType, FindsIntent, IsTerminalForWebhook, JobResult, WasRedisReverted;
  }

  lemma History(s: State, a: Action)
    ensures HistoryStep(s, a, Next(s, a))
  {
    hide Next, HistoryStep;
    if a.KafkaDeduct? || a.KafkaPublish? || a.KafkaRevert? { KafkaHistory(s, a); }
    else if IsIntakeAction(a) { QueueHistory(s, a); }
    else if a.RelayPublish? || a.RelayMark? || a.Deliver? || a.Watch? { FeedHistory(s, a); }
    else if IsSagaAction(a) { CompHistory(s, a); }
    else if a.HookTx? { HookTxHistory(s, a); }
    else if IsHookAction(a) { HookHistory(s, a); }
    else { OtherHistory(s, a); }
  }

  // ---- Payment ----

  lemma PaidFact(s: State, i: Uuid)
    requires PgInv(s) && i in s.db.orders && s.db.orders[i].status == Paid
    ensures i in s.paidBy && s.db.orders[i].intent == Some(s.paidBy[i].intent) && s.paidBy[i].at < s.db.orders[i].reservedUntil
  {}

  /** An order is paid exactly when a webhook's transaction paid it, with that webhook's intent and before the deadline. */
  lemma PaidMeansPaidInTime(s: State, acts: seq<Action>, i: Uuid)
    requires Start(s)
    ensures var t := Run(s, acts);
      && (i in t.paidBy <==> i in t.db.orders && t.db.orders[i].status == Paid)
      && (i in t.paidBy ==> t.db.orders[i].intent == Some(t.paidBy[i].intent) && t.paidBy[i].at < t.db.orders[i].reservedUntil)
  {
    hide Start, DbInv, LogOk, ProcsOk, MsgsOk, GatewayOk, FoundOk;
    ReachedOne(s, acts);
  }

  /** The only step that ever pays an order is a `succeeded` webhook's transaction, and it pays with its own intent. */
  lemma PaidByItsOwnWebhook(s: State, acts: seq<Action>, a: Action, i: Uuid)
    requires Start(s)
    requires var t := Next(Run(s, acts), a); i in t.db.orders && t.db.orders[i].status == Paid
    requires var t := Run(s, acts); !(i in t.db.orders && t.db.orders[i].status == Paid)
    ensures a.HookTx? && AtHook(Run(s, acts), a.p)
    ensures var u, t, env := Run(s, acts), Next(Run(s, acts), a), Run(s, acts).procs[a.p].env;
      && env.kind == Succeeded && t.db.orders[i].intent == Some(env.intent)
      && u.procs[a.p].hpc.HPay? && u.procs[a.p].hpc.began < t.db.orders[i].reservedUntil
      && (t.db.orders[i].IntentID() != "" <==> env.intent != "")
  {
    hide Start, PgInv, Advances, Next, DbInv;
    ReachedOne(s, acts);
    var u := Run(s, acts);
    NextKeeps(u, a);
    PaidFact(Next(u, a), i);
    NotPaidFact(u, i);
    History(u, a);
    ProcFact(u, a.p);
  }

  lemma NotPaidFact(s: State, i: Uuid)
    requires PgInv(s) && !(i in s.db.orders && s.db.orders[i].status == Paid)
    ensures i !in s.paidBy
  {}

  /** A written intent id is never overwritten, and no two orders ever carry the same one. */
  lemma IntentWriteOnce(s: State, a: seq<Action>, b: seq<Action>, i: Uuid, j: Uuid)
    requires Start(s) && i in Run(s, a).db.orders && Run(s, a).db.orders[i].intent.Some?
    ensures var t := Run(s, a + b);
      && i in t.db.orders && t.db.orders[i].intent == Run(s, a).db.orders[i].intent
      && (j in t.db.orders && j != i ==> t.db.orders[j].intent != t.db.orders[i].intent)
  {
    hide Start, PgInv, DbInv, OrdersOk, AllConserved, OutboxOk, CompsOk;
    Reached(s, a, b);
    var t := Run(s, a + b);
    assert RowExtends(Run(s, a).db.orders[i], t.db.orders[i]);
    QueueFact(t);
    Unpack(t.db, t.next);
  }

  /** No status is ever left and come back to, and no row loses its identity. */
  lemma StatusNeverReturns(s: State, a: seq<Action>, b: seq<Action>, c: seq<Action>, i: Uuid)
    requires Start(s) && i in Run(s, a).db.orders
    ensures var x, y, z := Run(s, a).db.orders, Run(s, a + b).db.orders, Run(s, (a + b) + c).db.orders;
      && i in y && i in z && SameIdentity(x[i], z[i]) && Reaches(x[i].status, y[i].status)
      && (x[i].status == z[i].status ==> y[i].status == x[i].status)
  {
    hide Start, PgInv, DbInv;
    Reached(s, a, b);
    Reached(s, a + b, c);
    var x, y, z := Run(s, a).db.orders, Run(s, a + b).db.orders, Run(s, (a + b) + c).db.orders;
    assert RowExtends(x[i], y[i]) && RowExtends(y[i], z[i]);
    if x[i].status == z[i].status { ReachesAntisymmetric(x[i].status, y[i].status); }
  }
}
