/**
 * Expiry against payment. NOW() of a transaction is the time it began, so a row that is past its deadline
 * can still be paid by a transaction that began before it; and by nothing else.
 */
module Deadlines {
  import opened Domain
  import opened Options
  import opened Store
  import opened Protocol
  import opened Steps
  import opened DbSafety
  import opened PgSafety
  import opened PgSteps
  import opened Guarantees
  import opened Fence
  import opened Frames
  import opened Webhook
  import opened WebhookAck

  predicate IsPaid(db: Db, i: Uuid) { i in db.orders && db.orders[i].status == Paid }

  predicate PastDeadline(s: State, i: Uuid) { i in s.db.orders && s.db.orders[i].reservedUntil <= s.now }

  /** Call `p` is inside a transaction that would pay order `i` if it went on now. */
  predicate MayPay(s: State, p: nat, i: Uuid) {
    && AtHook(s, p) && s.procs[p].hpc.HPay? && s.procs[p].hpc.order.id == i && i in s.db.orders
    && PayGuard(s.db, s.procs[p].hpc.order, s.procs[p].env.intent, s.procs[p].hpc.began)
  }

  predicate OpenPayment(s: State, i: Uuid) { exists p :: p in s.procs && MayPay(s, p, i) }

  /** A guard that refuses a payment will always refuse it. */
  lemma RefusedForGood(a: Db, b: Db, o: Order, intent: string, began: int)
    requires ReadOf(a, o) && o.status == AwaitingPayment && OrdersExtend(a.orders, b.orders) && !PayGuard(a, o, intent, began)
    ensures o.id in b.orders && !PayGuard(b, o, intent, began)
  {
    hide OrdersExtend, IntentTaken;
    assert o.id in b.orders && RowExtends(a.orders[o.id], b.orders[o.id]) by { RowsExtend(a, b, o.id); }
    TakenForGood(a, b, o.id, intent);
  }

  lemma RowsExtend(a: Db, b: Db, i: Uuid)
    requires OrdersExtend(a.orders, b.orders) && i in a.orders
    ensures i in b.orders && RowExtends(a.orders[i], b.orders[i])
  {}

  lemma TakenForGood(a: Db, b: Db, i: Uuid, intent: string)
    requires OrdersExtend(a.orders, b.orders)
    ensures IntentTaken(a, i, intent) ==> IntentTaken(b, i, intent)
  {
    if IntentTaken(a, i, intent) {
      var j :| j in a.orders && j != i && a.orders[j].intent == Some(intent);
      RowsExtend(a, b, j);
    }
  }

  /** What a paying transaction relies on. */
  lemma InsidePayment(s: State, p: nat)
    requires PgInv(s) && AtHook(s, p) && s.procs[p].hpc.HPay?
    ensures ReadOf(s.db, s.procs[p].hpc.order) && s.procs[p].hpc.order.status == AwaitingPayment
    ensures var o := s.procs[p].hpc.order; o.id in s.db.orders && (o.IntentID() == "" || o.intent == Some(s.procs[p].env.intent))
  {
    hide PgInv, Names;
    ProcFact(s, p);
  }

  /** The step itself: a refused payment pays nobody. */
  lemma RefusedPays(s: State, p: nat, clock: int, f: Fault, i: Uuid)
    requires PgInv(s) && AtHook(s, p) && s.procs[p].hpc.HPay? && s.procs[p].hpc.order.id == i && !MayPay(s, p, i)
    ensures DoHookTx(s, p, clock, f).paidBy == s.paidBy
  {
    hide PgInv, PayTx, PayGuard, PayRefused, ReadOf;
    InsidePayment(s, p);
    PayErrors(s.db, s.procs[p].hpc.order, s.procs[p].env.intent, s.procs[p].hpc.began, clock);
  }

  lemma PaidIffRecorded(s: State, i: Uuid)
    requires PgInv(s)
    ensures IsPaid(s.db, i) <==> i in s.paidBy
  {
    hide DbInv, LogOk, ProcsOk, MsgsOk, GatewayOk, FoundOk;
  }

  /** A step pays order `i` only if it is the step of a transaction that may. */
  lemma OnlyOpenPaymentsPay(s: State, a: Action, i: Uuid)
    requires PgInv(s) && !IsPaid(s.db, i)
    ensures IsPaid(Next(s, a).db, i) ==> a.HookTx? && MayPay(s, a.p, i)
  {
    hide PgInv, Next, MayPay, DoHookTx, Advances;
    NextKeeps(s, a);
    PaidIffRecorded(s, i);
    PaidIffRecorded(Next(s, a), i);
    History(s, a);
    if IsPaid(Next(s, a).db, i) {
      var p := a.p;
      assert AtHook(s, p) && s.procs[p].hpc.HPay? && s.procs[p].hpc.order.id == i;
      HookEndSteps(s, p, a.clock, a.f);
      if !MayPay(s, p, i) { RefusedPays(s, p, a.clock, a.f, i); }
    }
  }

  lemma StillRefused(s: State, t: State, p: nat, i: Uuid)
    requires PgInv(s) && AtHook(s, p) && s.procs[p].hpc.HPay? && AtHook(t, p) && t.procs[p] == s.procs[p] && OrdersExtend(s.db.orders, t.db.orders)
    requires !MayPay(s, p, i)
    ensures !MayPay(t, p, i)
  {
    hide PgInv, PayGuard, OrdersExtend, ReadOf;
    InsidePayment(s, p);
    if s.procs[p].hpc.order.id == i {
      RefusedForGood(s.db, t.db, s.procs[p].hpc.order, s.procs[p].env.intent, s.procs[p].hpc.began);
    }
  }

  // ---- The ways into a paying transaction ----

  /** If `p` is a webhook call now, it is where it was. */
  predicate HookAsBefore(s: State, t: State, p: nat) {
    AtHook(t, p) ==> AtHook(s, p) && t.procs[p] == s.procs[p]
  }

  lemma IntakeHooks(s: State, p: nat, tt: Uuid, quantity: int, user: int, until: int, f: Fault)
    ensures HookAsBefore(s, DoKafkaDeduct(s, p, tt, quantity, user, until, f), p)
    ensures HookAsBefore(s, DoKafkaPublish(s, p, f), p) && HookAsBefore(s, DoKafkaRevert(s, p, f), p)
  {
    hide Deduct, MsgOf, Revert;
  }

  lemma FeedHooks(s: State, p: nat, n: nat)
    ensures HookAsBefore(s, DoDeliver(s, p, n), p) && HookAsBefore(s, DoWatch(s, p, n), p) && HookAsBefore(s, DoCrash(s, p), p)
  {}

  lemma CallHooks(s: State, p: nat, f: Fault)
    ensures HookAsBefore(s, DoCompRead(s, p, f), p) && HookAsBefore(s, DoCompWrite(s, p, f), p) && HookAsBefore(s, DoCompCheck(s, p, f), p)
  {
    hide ResolveTicketType, CompensateTx, WasRedisReverted;
  }

  lemma CallEndHooks(s: State, p: nat, f: Fault)
    ensures HookAsBefore(s, DoCompRevert(s, p, f), p) && HookAsBefore(s, DoCompMark(s, p, f), p) && HookAsBefore(s, DoCompFinish(s, p), p)
  {
    hide Revert, MarkRedisReverted;
  }

  lemma JobHooks(s: State, p: nat, id: Uuid, kind: JobKind, clock: int, offer: string, f: Fault)
    ensures HookAsBefore(s, DoJobRead(s, p, id, kind), p) && HookAsBefore(s, DoJobTx(s, p, f), p)
    ensures HookAsBefore(s, DoPayRead(s, p, id, clock), p) && HookAsBefore(s, DoPayGateway(s, p, offer), p) && HookAsBefore(s, DoPaySet(s, p, clock, f), p)
  {
    hide JobResult, SetIntent, Payable;
  }

  /** `p` is not inside a paying transaction, or as before, or has just begun it. */
  predicate Begun(s: State, t: State, p: nat) {
    AtHook(t, p) && t.procs[p].hpc.HPay? ==> (AtHook(s, p) && t.procs[p] == s.procs[p]) || t.procs[p].hpc.began == s.now
  }

  lemma HookBegun(s: State, p: nat, env: Envelope, expectLive: bool, hit: Option<Uuid>, clock: int, f: Fault)
    ensures Begun(s, DoHookStart(s, p, env, expectLive), p) && Begun(s, DoHookResolve(s, p, hit, f), p) && Begun(s, DoHookRead(s, p, clock, f), p)
    ensures Begun(s, DoHookBegin(s, p, f), p) && Begun(s, DoHookRecheck(s, p, f), p) && Begun(s, DoHookFinish(s, p), p)
  {
    hide Dispatch, FindsIntent, IsTerminalForWebhook;
  }

  lemma TxBegun(s: State, p: nat, clock: int, f: Fault)
    ensures Begun(s, DoHookTx(s, p, clock, f), p)
  {
    hide PayTx, FailTx, HookOutcome;
    if AtHook(s, p) {
      match s.procs[p].hpc {
        case HPay(o, began) => OutcomeBegun(s, p, PayTx(s.db, o, s.procs[p].env.intent, began, clock), o.id, f);
        case HLate(o) => OutcomeBegun(s, p, FailTx(s.db, o, Expired), o.id, f);
        case HFail(o) => OutcomeBegun(s, p, FailTx(s.db, o, PaymentFailed), o.id, f);
        case _ =>
      }
    }
  }

  lemma OutcomeBegun(s: State, p: nat, r: DbResult, id: Uuid, f: Fault)
    requires AtHook(s, p)
    ensures var t := HookOutcome(s, p, r, id, f); AtHook(t, p) && !t.procs[p].hpc.HPay?
  {}

  lemma AsBeforeIsBegun(s: State, t: State, p: nat)
    requires HookAsBefore(s, t, p)
    ensures Begun(s, t, p)
  {}

  lemma HookActionBegun(s: State, a: Action, p: nat)
    requires OwnerOf(a) == Some(p) && IsHookAction(a)
    ensures Begun(s, Next(s, a), p)
  {
    hide Begun, DoHookStart, DoHookResolve, DoHookRead, DoHookBegin, DoHookTx, DoHookRecheck, DoHookFinish;
    var none := Envelope(Unsupported, false, "", None);
    match a {
      case HookStart(_, env, live) => HookBegun(s, p, env, live, None, 0, Clean);
      case HookResolve(_, hit, f) => HookBegun(s, p, none, false, hit, 0, f);
      case HookRead(_, clock, f) => HookBegun(s, p, none, false, None, clock, f);
      case HookBegin(_, f) => HookBegun(s, p, none, false, None, 0, f);
      case HookTx(_, clock, f) => TxBegun(s, p, clock, f);
      case HookRecheck(_, f) => HookBegun(s, p, none, false, None, 0, f);
      case HookFinish(_) => HookBegun(s, p, none, false, None, 0, Clean);
      case _ =>
    }
  }

  lemma CallActionHooks(s: State, a: Action, p: nat)
    requires OwnerOf(a) == Some(p) && (IsSagaAction(a) || a.Crash?)
    ensures HookAsBefore(s, Next(s, a), p)
  {
    hide HookAsBefore, DoDeliver, DoWatch, DoCrash, DoCompRead, DoCompWrite, DoCompCheck, DoCompRevert, DoCompMark, DoCompFinish;
    match a {
      case Deliver(_, n) => FeedHooks(s, p, n);
      case Watch(_, n) => FeedHooks(s, p, n);
      case Crash(_) => FeedHooks(s, p, 0);
      case CompRead(_, f) => CallHooks(s, p, f);
      case CompWrite(_, f) => CallHooks(s, p, f);
      case CompCheck(_, f) => CallHooks(s, p, f);
      case CompRevert(_, f) => CallEndHooks(s, p, f);
      case CompMark(_, f) => CallEndHooks(s, p, f);
      case CompFinish(_) => CallEndHooks(s, p, Clean);
      case _ =>
    }
  }

  lemma RestActionHooks(s: State, a: Action, p: nat)
    requires OwnerOf(a) == Some(p) && !IsSagaAction(a) && !IsHookAction(a) && !a.Crash?
    ensures HookAsBefore(s, Next(s, a), p)
  {
    hide HookAsBefore, DoKafkaDeduct, DoKafkaPublish, DoKafkaRevert, DoJobRead, DoJobTx, DoPayRead, DoPayGateway, DoPaySet;
    match a {
      case KafkaDeduct(_, tt, q, user, until, f) => IntakeHooks(s, p, tt, q, user, until, f);
      case KafkaPublish(_, f) => IntakeHooks(s, p, 0, 0, 0, 0, f);
      case KafkaRevert(_, f) => IntakeHooks(s, p, 0, 0, 0, 0, f);
      case JobRead(_, id, kind) => JobHooks(s, p, id, kind, 0, "", Clean);
      case JobTx(_, f) => JobHooks(s, p, 0, Expire, 0, "", f);
      case PayRead(_, id, clock) => JobHooks(s, p, id, Expire, clock, "", Clean);
      case PayGateway(_, offer) => JobHooks(s, p, 0, Expire, 0, offer, Clean);
      case PaySet(_, clock, f) => JobHooks(s, p, 0, Expire, clock, "", f);
      case _ =>
    }
  }

  /** Whatever the step, a call inside a paying transaction was there before or has just begun it. */
  lemma NextBegun(s: State, a: Action, p: nat)
    ensures Begun(s, Next(s, a), p)
  {
    hide Begun, HookAsBefore, Next, Spares;
    if OwnerOf(a) != Some(p) {
      ForeignSpares(s, a, p);
      SparedIsBegun(s, Next(s, a), p);
    } else if IsHookAction(a) {
      HookActionBegun(s, a, p);
    } else {
      if IsSagaAction(a) || a.Crash? { CallActionHooks(s, a, p); } else { RestActionHooks(s, a, p); }
      AsBeforeIsBegun(s, Next(s, a), p);
    }
  }

  lemma SparedIsBegun(s: State, t: State, p: nat)
    requires Spares(s, t, p)
    ensures Begun(s, t, p)
  {}

  // ---- No payment past the deadline, unless it began before ----

  /** Past the deadline, not paid, and no open transaction may pay. */
  ghost predicate OutOfReach(s: State, i: Uuid) {
    PgInv(s) && PastDeadline(s, i) && !IsPaid(s.db, i) && !OpenPayment(s, i)
  }

  lemma DeadlineStays(s: State, t: State, i: Uuid)
    requires PastDeadline(s, i) && Advances(s, t)
    ensures PastDeadline(t, i) && t.db.orders[i].reservedUntil == s.db.orders[i].reservedUntil
  {
    RowsExtend(s.db, t.db, i);
  }

  /** A transaction begun past the deadline may not pay. */
  lemma BegunTooLate(t: State, p: nat, i: Uuid, now: int)
    requires i in t.db.orders && t.db.orders[i].reservedUntil <= now && AtHook(t, p) && t.procs[p].hpc.HPay? && t.procs[p].hpc.began == now
    ensures !MayPay(t, p, i)
  {
    hide IntentTaken;
  }

  lemma NextOutOfReach(s: State, a: Action, i: Uuid)
    requires OutOfReach(s, i)
    ensures OutOfReach(Next(s, a), i)
  {
    hide PgInv, Next, MayPay, Advances, Begun, PastDeadline, IsPaid;
    var t := Next(s, a);
    NextKeeps(s, a);
    DeadlineStays(s, t, i);
    OnlyOpenPaymentsPay(s, a, i);
    NotOpen(s, a, i);
    forall p | p in t.procs ensures !MayPay(t, p, i) {
      NextBegun(s, a, p);
      StaysOut(s, t, p, i);
    }
  }

  lemma NotOpen(s: State, a: Action, i: Uuid)
    requires !OpenPayment(s, i)
    ensures a.HookTx? ==> !MayPay(s, a.p, i)
  {}

  lemma StaysOut(s: State, t: State, p: nat, i: Uuid)
    requires PgInv(s) && Advances(s, t) && PastDeadline(s, i) && Begun(s, t, p)
    requires p in s.procs ==> !MayPay(s, p, i)
    ensures !MayPay(t, p, i)
  {
    hide PgInv, Advances, PayGuard;
    DeadlineStays(s, t, i);
    OrdersPart(s, t);
    if AtHook(t, p) && t.procs[p].hpc.HPay? {
      if t.procs[p].hpc.began == s.now { BegunTooLate(t, p, i, s.now); } else { StillRefused(s, t, p, i); }
    }
  }

  lemma {:induction false} StaysOutOfReach(s: State, acts: seq<Action>, i: Uuid)
    requires OutOfReach(s, i)
    ensures OutOfReach(Run(s, acts), i)
    decreases |acts|
  {
    hide OutOfReach, Next;
    if acts != [] {
      NextOutOfReach(s, acts[0], i);
      StaysOutOfReach(Next(s, acts[0]), acts[1..], i);
    }
  }

  lemma PaysNow(s: State, p: nat, i: Uuid)
    requires PgInv(s) && MayPay(s, p, i)
    ensures IsPaid(Next(s, HookTx(p, 0, Clean)).db, i)
  {
    hide PgInv, DoHookTx, PayGuard, PayRefused;
    PayingStepIsExact(s, p, s.procs[p].hpc.order, s.procs[p].hpc.began, 0);
    HookEndSteps(s, p, 0, Clean);
  }

  /** A row that a sweeper has found is past its deadline. */
  lemma FoundIsPastDeadline(s: State, acts: seq<Action>, i: Uuid)
    requires Start(s) && i in Run(s, acts).found
    ensures PastDeadline(Run(s, acts), i) && Reaches(AwaitingPayment, Run(s, acts).db.orders[i].status)
  {
    hide Start, PgInv, DbInv;
    ReachedOne(s, acts);
    FoundFact(Run(s, acts), i);
  }

  lemma FoundFact(s: State, i: Uuid)
    requires PgInv(s) && i in s.found
    ensures PastDeadline(s, i) && Reaches(AwaitingPayment, s.db.orders[i].status)
  {}

  /**
   * Expiry against payment, exactly. A row past its deadline, found by a sweeper or not, is not paid in
   * this or any later state if and only if it is not paid already and no transaction is open on it that
   * began before the deadline and whose guards the row still meets.
   */
  lemma ExpiryNeverRacesPayment(s: State, a: seq<Action>, i: Uuid)
    requires Start(s) && PastDeadline(Run(s, a), i)
    ensures (forall b :: !IsPaid(Run(s, a + b).db, i)) <==> !IsPaid(Run(s, a).db, i) && !OpenPayment(Run(s, a), i)
  {
    hide Start, PgInv, Run, Next, MayPay, IsPaid, PastDeadline, OutOfReach;
    var t := Run(s, a);
    ReachedOne(s, a);
    if !IsPaid(t.db, i) && !OpenPayment(t, i) {
      Reachable(t, i);
      forall b ensures !IsPaid(Run(s, a + b).db, i) {
        StaysOutOfReach(t, b, i);
        OutIsNotPaid(Run(t, b), i);
        RunConcat(s, a, b);
      }
    } else if IsPaid(t.db, i) {
      assert a + [] == a;
    } else {
      var p :| p in t.procs && MayPay(t, p, i);
      PaysNow(t, p, i);
      RunConcat(s, a, [HookTx(p, 0, Clean)]);
      RunOne(t, HookTx(p, 0, Clean));
      assert IsPaid(Run(s, a + [HookTx(p, 0, Clean)]).db, i);
    }
  }

  lemma Reachable(t: State, i: Uuid)
    requires PgInv(t) && PastDeadline(t, i) && !IsPaid(t.db, i) && !OpenPayment(t, i)
    ensures OutOfReach(t, i)
  {}

  lemma OutIsNotPaid(t: State, i: Uuid)
    requires OutOfReach(t, i)
    ensures !IsPaid(t.db, i)
  {}

  // ---- Transactions shorter than the grace period ----

  /** No paying transaction goes on for longer than `grace`. */
  ghost predicate Prompt(s: State, acts: seq<Action>, grace: nat)
    decreases |acts|
  {
    acts == [] || (PromptStep(s, acts[0], grace) && Prompt(Next(s, acts[0]), acts[1..], grace))
  }

  ghost predicate PromptStep(s: State, a: Action, grace: nat) {
    a.HookTx? && AtHook(s, a.p) && s.procs[a.p].hpc.HPay? ==> s.now - s.procs[a.p].hpc.began <= grace
  }

  /** Past the deadline and the grace period, and not paid. */
  ghost predicate Given(s: State, i: Uuid, grace: nat) {
    i in s.db.orders && s.db.orders[i].reservedUntil <= s.now - grace && !IsPaid(s.db, i)
  }

  lemma NextGiven(s: State, a: Action, i: Uuid, grace: nat)
    requires PgInv(s) && Given(s, i, grace) && PromptStep(s, a, grace)
    ensures PgInv(Next(s, a)) && Given(Next(s, a), i, grace)
  {
    hide PgInv, Next, Advances, IsPaid, PayGuard;
    NextKeeps(s, a);
    AdvancesForward(s, Next(s, a));
    DeadlineStays(s, Next(s, a), i);
    OnlyOpenPaymentsPay(s, a, i);
    if a.HookTx? && MayPay(s, a.p, i) { GuardInTime(s, a.p, i); }
  }

  lemma GuardInTime(s: State, p: nat, i: Uuid)
    requires MayPay(s, p, i)
    ensures s.db.orders[i].reservedUntil > s.procs[p].hpc.began
  {
    hide IntentTaken;
  }

  lemma {:induction false} StaysGiven(s: State, acts: seq<Action>, i: Uuid, grace: nat)
    requires PgInv(s) && Given(s, i, grace) && Prompt(s, acts, grace)
    ensures Given(Run(s, acts), i, grace)
    decreases |acts|
  {
    hide PgInv, Given, Next, PromptStep;
    if acts != [] {
      NextGiven(s, acts[0], i, grace);
      StaysGiven(Next(s, acts[0]), acts[1..], i, grace);
    }
  }

  /** As long as paying transactions are shorter than the grace period a row was found with, it is never paid afterwards. */
  lemma PromptPaymentsNeverRace(s: State, a: seq<Action>, ids: set<Uuid>, grace: nat, b: seq<Action>, i: Uuid)
    requires Start(s) && i in ids && (forall j :: j in ids ==> Overdue(Run(s, a), j, grace))
    requires Prompt(Run(s, a + [Find(ids, grace)]), b, grace)
    ensures !IsPaid(Run(s, (a + [Find(ids, grace)]) + b).db, i)
  {
    hide Start, PgInv, Run, Next, Given, Prompt, IsPaid;
    var t, find := Run(s, a), a + [Find(ids, grace)];
    RunConcat(s, a, [Find(ids, grace)]);
    RunOne(t, Find(ids, grace));
    FindsGiven(t, ids, grace, i);
    ReachedOne(s, find);
    StaysGiven(Run(s, find), b, i, grace);
    RunConcat(s, find, b);
    GivenIsNotPaid(Run(s, find + b), i, grace);
  }

  lemma FindsGiven(t: State, ids: set<Uuid>, grace: nat, i: Uuid)
    requires i in ids && Overdue(t, i, grace)
    ensures Given(Next(t, Find(ids, grace)), i, grace)
  {
    hide DoBookStream;
  }

  lemma GivenIsNotPaid(t: State, i: Uuid, grace: nat)
    requires Given(t, i, grace)
    ensures !IsPaid(t.db, i)
  {}

  /**
   * What beats the sweeper to a row it found: MarkExpired succeeds exactly while the row awaits payment.
   * Otherwise it is refused, and the row failed or was compensated, or a transaction begun before the
   * deadline has paid it.
   */
  lemma OnlyFailuresBeatTheSweeper(s: State, acts: seq<Action>, i: Uuid)
    requires Start(s) && i in Run(s, acts).found
    ensures i in Run(s, acts).db.orders
    ensures var t, db := Run(s, acts), Run(s, acts).db;
      if db.orders[i].status == AwaitingPayment then Transition(db, i, Expired).error == Ok
      else && Transition(db, i, Expired) == DbResult(db, InvalidTransition)
           && (db.orders[i].status in {Expired, PaymentFailed, Compensated} || (IsPaid(db, i) && i in t.paidBy && t.paidBy[i].at < db.orders[i].reservedUntil <= t.now))
  {
    hide Start, PgInv, DbInv;
    ReachedOne(s, acts);
    FoundFact(Run(s, acts), i);
    if IsPaid(Run(s, acts).db, i) { PaidFact(Run(s, acts), i); }
  }
}
