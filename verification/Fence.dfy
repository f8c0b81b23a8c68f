/**
 * Redelivery. A fault-free delivery always finishes the compensation; a second Redis revert of a
 * compensated order can be reached exactly when neither fence, the guard key or the flag, stands.
 */
module Fence {
  import opened Domain
  import opened Options
  import opened Store
  import opened Protocol
  import opened Steps
  import opened DbSafety
  import opened PgSafety
  import opened PgSteps
  import opened Guarantees
  import opened Ledger
  import opened LedgerSteps
  import opened Once
  import opened OnceSteps

  // ---- One delivery, run to its end ----

  /** The steps of one delivery; those the call does not need change nothing. */
  function Delivery(p: nat, offset: nat): seq<Action> {
    [Deliver(p, offset), CompRead(p, Clean), CompWrite(p, Clean), CompCheck(p, Clean), CompRevert(p, Clean), CompMark(p, Clean),
     CompFinish(p)]
  }

  ghost predicate Serving(s: State, p: nat, offset: nat, i: Uuid) {
    PgInv(s) && AtComp(s, p) && s.procs[p].src == FromLog(offset) && s.procs[p].ev.order == i
  }

  lemma ServingFacts(s: State, p: nat, offset: nat, i: Uuid)
    requires Serving(s, p, offset, i)
    ensures PgInv(s) && DbInv(s.db, s.next) && CompOk(s.db, s.log, s.procs[p].ev, s.procs[p].src, s.procs[p].cpc)
    ensures s.procs[p].ev.tt != NIL && ResolveTicketType(s.db, s.procs[p].ev) == s.procs[p].ev.tt
  {
    hide PgInv;
    ProcFact(s, p);
    ResolvesToItself(s, p);
  }

  lemma DeliverServes(s: State, p: nat, offset: nat)
    requires PgInv(s) && p !in s.procs && offset < |s.log| && s.log[offset] < |s.db.outbox|
    ensures var t, i := Next(s, Deliver(p, offset)), s.db.outbox[s.log[offset]].payload.order;
      Serving(t, p, offset, i) && t.procs[p].cpc == CRead && i in t.db.orders && IsTriggered(t.db.orders[i].status)
  {
    hide PgInv, Advances, DbInv;
    NextKeeps(s, Deliver(p, offset));
    QueueFact(s);
    TriggerFact(s.db, s.next, s.log[offset]);
  }

  lemma ReadServes(s: State, p: nat, offset: nat, i: Uuid)
    requires Serving(s, p, offset, i) && s.procs[p].cpc == CRead && i in s.db.orders && IsTriggered(s.db.orders[i].status)
    ensures var t := DoCompRead(s, p, Clean);
      Serving(t, p, offset, i) && t.db == s.db
      && (t.procs[p].cpc.CCheck? || (t.procs[p].cpc.CWrite? && IsFailure(t.db.orders[i].status)))
  {
    hide PgInv, Advances, DbInv;
    ServingFacts(s, p, offset, i);
    CompReadKeeps(s, p, Clean);
  }

  lemma WriteServes(s: State, p: nat, offset: nat, i: Uuid)
    requires Serving(s, p, offset, i) && i in s.db.orders
    requires s.procs[p].cpc.CCheck? || (s.procs[p].cpc.CWrite? && Compensable(s.db, i))
    ensures var t := DoCompWrite(s, p, Clean); Serving(t, p, offset, i) && (t.procs[p].cpc.CRevert? || t.procs[p].cpc.CCheck?)
  {
    hide PgInv, Advances, DbInv, CompensateTx;
    ServingFacts(s, p, offset, i);
    CompensateTxKeeps(s.db, s.next, s.procs[p].ev);
    CompWriteKeeps(s, p, Clean);
  }

  lemma CheckServes(s: State, p: nat, offset: nat, i: Uuid)
    requires Serving(s, p, offset, i) && (s.procs[p].cpc.CRevert? || s.procs[p].cpc.CCheck?)
    ensures var t := DoCompCheck(s, p, Clean); Serving(t, p, offset, i) && (t.procs[p].cpc.CRevert? || t.procs[p].cpc == CDone(true))
  {
    hide PgInv, Advances;
    CompCheckKeeps(s, p, Clean);
  }

  lemma RevertServes(s: State, p: nat, offset: nat, i: Uuid)
    requires Serving(s, p, offset, i) && (s.procs[p].cpc.CRevert? || s.procs[p].cpc == CDone(true))
    ensures var t := DoCompRevert(s, p, Clean); Serving(t, p, offset, i) && (t.procs[p].cpc.CMark? || t.procs[p].cpc == CDone(true))
  {
    hide PgInv, Advances, Revert;
    CompRevertKeeps(s, p, Clean);
  }

  lemma MarkServes(s: State, p: nat, offset: nat, i: Uuid)
    requires Serving(s, p, offset, i) && (s.procs[p].cpc.CMark? || s.procs[p].cpc == CDone(true))
    ensures var t := DoCompMark(s, p, Clean); Serving(t, p, offset, i) && t.procs[p].cpc == CDone(true)
  {
    hide PgInv, Advances, MarkRedisReverted;
    CompMarkKeeps(s, p, Clean);
    if s.procs[p].cpc.CMark? { CompMarkedOk(s, p); }
  }

  lemma FinishServes(s: State, p: nat, offset: nat, i: Uuid)
    requires Serving(s, p, offset, i) && s.procs[p].cpc == CDone(true)
    ensures var t := DoCompFinish(s, p); Settled(t.db, i) && offset in t.handled && t.procs == s.procs - {p}
  {
    hide PgInv, DbInv, Settled;
    ServingFacts(s, p, offset, i);
  }

  lemma RunSteps(s: State, a: Action, rest: seq<Action>)
    ensures Run(s, [a] + rest) == Run(Next(s, a), rest)
  {
    assert ([a] + rest)[0] == a && ([a] + rest)[1..] == rest;
  }

  /** Unless the order is superseded, one undisturbed delivery of its trigger settles it and commits the offset. */
  lemma Completes(s: State, p: nat, offset: nat)
    requires PgInv(s) && p !in s.procs && offset < |s.log| && s.log[offset] < |s.db.outbox|
    requires !Superseded(s.db, s.db.outbox[s.log[offset]].payload.order)
    ensures var t := Run(s, Delivery(p, offset)); Settled(t.db, s.db.outbox[s.log[offset]].payload.order) && offset in t.handled
  {
    hide PgInv, Serving, Settled, DoDeliver, DoCompRead, DoCompWrite, DoCompCheck, DoCompRevert, DoCompMark, DoCompFinish, Run;
    var i := s.db.outbox[s.log[offset]].payload.order;
    var s1 := DoDeliver(s, p, offset);
    var s2 := DoCompRead(s1, p, Clean);
    var s3 := DoCompWrite(s2, p, Clean);
    var s4 := DoCompCheck(s3, p, Clean);
    var s5 := DoCompRevert(s4, p, Clean);
    var s6 := DoCompMark(s5, p, Clean);
    DeliverServes(s, p, offset);
    DeliverKeepsDb(s, p, offset);
    ServingAt(s1, p, offset, i);
    ReadServes(s1, p, offset, i);
    WriteServes(s2, p, offset, i);
    CheckServes(s3, p, offset, i);
    RevertServes(s4, p, offset, i);
    MarkServes(s5, p, offset, i);
    FinishServes(s6, p, offset, i);
    DeliveryRun(s, p, offset);
  }

  lemma DeliverKeepsDb(s: State, p: nat, offset: nat)
    ensures DoDeliver(s, p, offset).db == s.db
  {}

  // ---- Superseded orders ----

  lemma StaysSuperseded(a: Db, b: Db, m: nat, n: nat, i: Uuid)
    requires DbInv(a, m) && DbInv(b, n) && OrdersExtend(a.orders, b.orders) && Superseded(a, i)
    ensures Superseded(b, i)
  {
    var o := a.orders[i];
    var j :| j in a.orders && a.orders[j].user == o.user && a.orders[j].event == o.event && a.orders[j].status != Failed;
    assert SameBuyer(o, a.orders[j]) && SameBuyer(b.orders[i], b.orders[j]);
    ReachesTransitive(AwaitingPayment, a.orders[j].status, b.orders[j].status);
  }

  /** A superseded order stays so in every later state, and so it is never compensated. */
  lemma SupersededForGood(s: State, acts: seq<Action>, i: Uuid)
    requires PgInv(s) && Superseded(s.db, i)
    ensures Superseded(Run(s, acts).db, i)
  {
    hide PgInv, Superseded, DbInv, OrdersExtend;
    RunKeeps(s, acts);
    QueueFact(s);
    QueueFact(Run(s, acts));
    OrdersPart(s, Run(s, acts));
    StaysSuperseded(s.db, Run(s, acts).db, s.next, Run(s, acts).next, i);
  }

  /** From any reachable state, one undisturbed delivery of a trigger settles its order and commits the offset, if and only if the order is not superseded. */
  lemma DeliveryCompletes(s: State, p: nat, offset: nat)
    requires PgInv(s) && p !in s.procs && offset < |s.log| && s.log[offset] < |s.db.outbox|
    ensures var t, i := Run(s, Delivery(p, offset)), s.db.outbox[s.log[offset]].payload.order;
      (Settled(t.db, i) && offset in t.handled) <==> !Superseded(s.db, i)
  {
    hide PgInv, Superseded, Run;
    var i := s.db.outbox[s.log[offset]].payload.order;
    if Superseded(s.db, i) {
      SupersededForGood(s, Delivery(p, offset), i);
      NotSettled(Run(s, Delivery(p, offset)).db, i);
    } else {
      Completes(s, p, offset);
    }
  }

  lemma NotSettled(db: Db, i: Uuid)
    requires Superseded(db, i)
    ensures !Settled(db, i)
  {}

  /** No dead end: from every reachable state, an order in a failure status that is not superseded can still be settled, by publishing its trigger and delivering it. */
  lemma WayOut(s: State, acts: seq<Action>, i: Uuid, p: nat) returns (more: seq<Action>)
    requires Start(s) && Compensable(Run(s, acts).db, i) && p !in Run(s, acts).procs
    ensures Settled(Run(s, acts + more).db, i)
  {
    hide Start, PgInv, Settled, Run, Owed, Next, Advances;
    var t := Run(s, acts);
    ReachedOne(s, acts);
    var k := OwedTrigger(t, i);
    OwedRow(t, k);
    var u := Next(t, RelayPublish(k));
    NextKeeps(t, RelayPublish(k));
    PublishedLast(t, k);
    Completes(u, p, |t.log|);
    more := [RelayPublish(k)] + Delivery(p, |t.log|);
    RunSteps(t, RelayPublish(k), Delivery(p, |t.log|));
    RunConcat(s, acts, more);
  }

  /** Exactly the superseded orders are stuck: any other order in a failure status can be settled from every reachable state, those never. */
  lemma NoDeadEnd(s: State, acts: seq<Action>, i: Uuid, p: nat)
    requires Start(s) && i in Run(s, acts).db.orders && IsFailure(Run(s, acts).db.orders[i].status) && p !in Run(s, acts).procs
    ensures (exists more :: Settled(Run(s, acts + more).db, i)) <==> !Superseded(Run(s, acts).db, i)
  {
    hide Start, PgInv, Superseded, Settled, Run;
    if Superseded(Run(s, acts).db, i) {
      ReachedOne(s, acts);
      forall more ensures !Settled(Run(s, acts + more).db, i) {
        SupersededForGood(Run(s, acts), more, i);
        RunConcat(s, acts, more);
        NotSettled(Run(s, acts + more).db, i);
      }
    } else {
      var more := WayOut(s, acts, i, p);
      assert Settled(Run(s, acts + more).db, i);
    }
  }

  lemma OwedRow(t: State, k: nat)
    requires Owed(t, k)
    ensures k < |t.db.outbox|
  {}

  lemma PublishedLast(t: State, k: nat)
    requires k < |t.db.outbox|
    ensures var u := Next(t, RelayPublish(k));
      u.procs == t.procs && u.db == t.db && |u.log| == |t.log| + 1 && u.log[|t.log|] == k
  {
    hide DoBookStream;
  }

  lemma ServingAt(s: State, p: nat, offset: nat, i: Uuid)
    requires Serving(s, p, offset, i)
    ensures AtComp(s, p)
  {}

  lemma RunTwo(s: State, a: Action, b: Action)
    ensures Run(s, [a, b]) == Next(Next(s, a), b)
  {
    hide Next, Run;
    assert [a, b] == [a] + [b];
    RunSteps(s, a, [b]);
    RunOne(Next(s, a), b);
  }

  lemma RunFour(s: State, a: Action, b: Action, c: Action, d: Action)
    ensures Run(s, [a, b, c, d]) == Next(Next(Next(Next(s, a), b), c), d)
  {
    hide Next, Run;
    assert [a, b, c, d] == [a, b] + [c, d];
    RunConcat(s, [a, b], [c, d]);
    RunTwo(s, a, b);
    RunTwo(Next(Next(s, a), b), c, d);
  }

  lemma RunSeven(s: State, d: seq<Action>)
    requires |d| == 7
    ensures Run(s, d) == Next(Next(Next(Next(Next(Next(Next(s, d[0]), d[1]), d[2]), d[3]), d[4]), d[5]), d[6])
  {
    hide Next, Run;
    var s4 := Next(Next(Next(Next(s, d[0]), d[1]), d[2]), d[3]);
    assert d == ([d[0], d[1], d[2], d[3]] + [d[4], d[5]]) + [d[6]];
    RunConcat(s, [d[0], d[1], d[2], d[3]] + [d[4], d[5]], [d[6]]);
    RunConcat(s, [d[0], d[1], d[2], d[3]], [d[4], d[5]]);
    RunFour(s, d[0], d[1], d[2], d[3]);
    RunTwo(s4, d[4], d[5]);
    RunOne(Next(Next(s4, d[4]), d[5]), d[6]);
  }

  lemma DeliveryRun(s: State, p: nat, offset: nat)
    ensures Run(s, Delivery(p, offset))
      == DoCompFinish(DoCompMark(DoCompRevert(DoCompCheck(DoCompWrite(DoCompRead(DoDeliver(s, p, offset), p, Clean), p, Clean),
                                                         p, Clean), p, Clean), p, Clean), p)
  {
    hide DoDeliver, DoCompRead, DoCompWrite, DoCompCheck, DoCompRevert, DoCompMark, DoCompFinish, Run, Next;
    RunSeven(s, Delivery(p, offset));
    var s1 := DoDeliver(s, p, offset);
    var s2 := DoCompRead(s1, p, Clean);
    var s3 := DoCompWrite(s2, p, Clean);
    var s4 := DoCompCheck(s3, p, Clean);
    var s5 := DoCompRevert(s4, p, Clean);
    FirstActions(s, p, Clean, offset);
    FirstActions(s1, p, Clean, offset);
    FirstActions(s2, p, Clean, offset);
    LastActions(s3, p, Clean);
    LastActions(s4, p, Clean);
    LastActions(s5, p, Clean);
    LastActions(DoCompMark(s5, p, Clean), p, Clean);
  }

  // ---- The two fences against a second revert ----

  function Reverts(s: State, i: Uuid): nat { if i in s.ledger then s.ledger[i].saga else 0 }

  /** The guard key still stands; or the flag does, and nobody is past it. */
  predicate Fenced(s: State, i: Uuid) {
    OrderKey(i) in s.redis.guards || (WasRedisReverted(s.db, i) && !Reverting(s, i))
  }

  /** The guard key of `i` goes only once the flag is committed and no call is at its revert; without it the flag can be read. */
  ghost predicate Respects(s: State, a: Action, i: Uuid) {
    match a
    case Chaos(_, _, _) => false
    case GuardLost(key) => key == OrderKey(i) ==> WasRedisReverted(s.db, i) && !Reverting(s, i)
    case CompCheck(p, f) => f.Clean? || !AtComp(s, p) || s.procs[p].ev.order != i || OrderKey(i) in s.redis.guards
    case _ => true
  }

  ghost predicate RespectsRun(s: State, acts: seq<Action>, i: Uuid)
    decreases |acts|
  {
    acts == [] || (Respects(s, acts[0], i) && RespectsRun(Next(s, acts[0]), acts[1..], i))
  }

  ghost predicate FenceStep(s: State, t: State, i: Uuid) {
    && Reverts(t, i) == Reverts(s, i)
    && (OrderKey(i) in s.redis.guards ==> OrderKey(i) in t.redis.guards)
    && (Reverting(t, i) ==> Reverting(s, i))
  }

  lemma CalmFence(s: State, t: State, i: Uuid)
    requires CalmStep(s, t)
    ensures FenceStep(s, t, i)
  {
    hide Steady, KeepsIntakes;
    if Reverting(t, i) {
      var p :| p in t.procs && t.procs[p].Comp? && t.procs[p].cpc.CRevert? && t.procs[p].ev.order == i;
      assert Claims(t.procs[p]);
      assert p in s.procs && s.procs[p] == t.procs[p];
    }
  }

  /** No intake step touches an existing order's history or its guard. */
  lemma IntakeFence(s: State, a: Action, i: Uuid)
    requires i < s.next && (a.BookStream? || a.WorkerTx? || a.WorkerGiveUp? || a.WorkerAck?)
    ensures FenceStep(s, Next(s, a), i)
  {
    hide Reverting, BookTx, MsgOf, Reserve, DoKafkaDeduct, DoKafkaPublish, DoKafkaRevert, DoCompRead, DoCompWrite, DoCompCheck,
         DoCompRevert, DoCompMark, DoHookRead, DoHookTx, DoCrash, DoJobTx, DoPaySet;
    assert Next(s, a).procs == s.procs;
    SameReverting(s, Next(s, a), i);
  }

  lemma SameReverting(s: State, t: State, i: Uuid)
    requires forall p :: p in t.procs && t.procs[p].Comp? && t.procs[p].cpc.CRevert? && t.procs[p].ev.order == i ==> p in s.procs && s.procs[p] == t.procs[p]
    ensures Reverting(t, i) ==> Reverting(s, i)
  {}

  lemma KafkaDeductFence(s: State, p: nat, tt: Uuid, quantity: int, user: int, until: int, f: Fault, i: Uuid)
    requires i < s.next
    ensures FenceStep(s, DoKafkaDeduct(s, p, tt, quantity, user, until, f), i)
  {
    hide Reverting, MsgOf;
    SameReverting(s, DoKafkaDeduct(s, p, tt, quantity, user, until, f), i);
  }

  lemma KafkaPublishFence(s: State, p: nat, f: Fault, i: Uuid)
    ensures FenceStep(s, DoKafkaPublish(s, p, f), i)
  {
    hide Reverting;
    SameReverting(s, DoKafkaPublish(s, p, f), i);
  }

  lemma KafkaRevertFence(s: State, p: nat, f: Fault, i: Uuid)
    ensures FenceStep(s, DoKafkaRevert(s, p, f), i)
  {
    hide Reverting;
    SameReverting(s, DoKafkaRevert(s, p, f), i);
  }

  lemma CrashFence(s: State, p: nat, i: Uuid)
    ensures FenceStep(s, DoCrash(s, p), i)
  {
    hide Reverting;
    SameReverting(s, DoCrash(s, p), i);
  }

  /** On a compensated order the write step rolls back. */
  lemma WriteRollsBack(s: State, p: nat, f: Fault)
    requires PgInv(s) && AtComp(s, p) && s.procs[p].cpc.CWrite?
    requires Compensates(s.db.orders, s.procs[p].ev.order)
    ensures DoCompWrite(s, p, f) == GotoComp(s, p, CDone(false))
  {
    hide PgInv, DbInv, CompensateTx;
    ProcFact(s, p);
    CompensateTxKeeps(s.db, s.next, s.procs[p].ev);
  }

  lemma WriteFence(s: State, p: nat, f: Fault, i: Uuid)
    requires PgInv(s) && i in s.db.orders && s.db.orders[i].status == Compensated
    ensures FenceStep(s, DoCompWrite(s, p, f), i)
  {
    hide PgInv, Reverting, CompensateTx;
    if AtComp(s, p) && s.procs[p].cpc.CWrite? && s.procs[p].ev.order == i { WriteRollsBack(s, p, f); }
    SameReverting(s, DoCompWrite(s, p, f), i);
  }

  lemma CheckFence(s: State, p: nat, f: Fault, i: Uuid)
    requires Fenced(s, i) && Respects(s, CompCheck(p, f), i)
    ensures Fenced(DoCompCheck(s, p, f), i) && Reverts(DoCompCheck(s, p, f), i) == Reverts(s, i)
  {
    hide Reverting;
    if OrderKey(i) !in s.redis.guards { SameReverting(s, DoCompCheck(s, p, f), i); }
  }

  lemma RevertFence(s: State, p: nat, f: Fault, i: Uuid)
    requires Fenced(s, i)
    ensures FenceStep(s, DoCompRevert(s, p, f), i)
  {
    hide Reverting;
    var t := DoCompRevert(s, p, f);
    if AtComp(s, p) && s.procs[p].cpc.CRevert? && s.procs[p].ev.order == i { IsReverting(s, p, i); }
    SameReverting(s, t, i);
  }

  lemma IsReverting(s: State, p: nat, i: Uuid)
    requires AtComp(s, p) && s.procs[p].cpc.CRevert? && s.procs[p].ev.order == i
    ensures Reverting(s, i)
  {}

  lemma MarkFence(s: State, p: nat, f: Fault, i: Uuid)
    ensures FenceStep(s, DoCompMark(s, p, f), i)
  {
    hide Reverting, MarkRedisReverted;
    SameReverting(s, DoCompMark(s, p, f), i);
  }

  lemma FenceFrame(s: State, t: State, i: Uuid)
    requires Fenced(s, i) && FenceStep(s, t, i) && Extends(s.db, t.db)
    ensures Fenced(t, i)
  {
    hide Reverting, OrdersExtend, OutboxExtends;
  }

  lemma NextFenced(s: State, a: Action, i: Uuid)
    requires PgInv(s) && i in s.db.orders && s.db.orders[i].status == Compensated && Fenced(s, i) && Respects(s, a, i)
    ensures Fenced(Next(s, a), i) && Reverts(Next(s, a), i) == Reverts(s, i)
  {
    hide PgInv, Fenced, Reverting, Respects, Extends, DbInv, Steady, CalmStep, DoKafkaDeduct, DoKafkaPublish, DoKafkaRevert, DoCompWrite, DoCompCheck,
         DoCompRevert, DoCompMark, DoCrash, DoGuardLost, DoBookStream, DoWorkerTx, DoWorkerGiveUp, DoWorkerAck, Reverts;
    NextKeeps(s, a);
    QueueFact(s);
    RowFacts(s.db, s.next, i);
    NoChaosHere(s, a, i);
    if a.CompCheck? {
      CheckFence(s, a.p, a.f, i);
    } else if a.GuardLost? {
      GuardFence(s, a.key, i);
    } else {
      RestFence(s, a, i);
      FenceFrame(s, Next(s, a), i);
      RevertsSame(s, Next(s, a), i);
    }
  }

  lemma NoChaosHere(s: State, a: Action, i: Uuid)
    requires Respects(s, a, i)
    ensures !a.Chaos?
  {}

  lemma RevertsSame(s: State, t: State, i: Uuid)
    requires FenceStep(s, t, i)
    ensures Reverts(t, i) == Reverts(s, i)
  {}

  lemma GuardFence(s: State, key: GuardKey, i: Uuid)
    requires Fenced(s, i) && Respects(s, GuardLost(key), i)
    ensures Fenced(DoGuardLost(s, key), i) && Reverts(DoGuardLost(s, key), i) == Reverts(s, i)
  {}

  lemma IntakeRestFence(s: State, a: Action, i: Uuid)
    requires i < s.next && IsIntakeAction(a) && !a.RepairMeta?
    ensures FenceStep(s, Next(s, a), i)
  {
    hide FenceStep, DoKafkaDeduct, DoKafkaPublish, DoKafkaRevert, DoBookStream, DoWorkerTx, DoWorkerGiveUp, DoWorkerAck;
    match a {
      case KafkaDeduct(p, tt, q, user, until, f) => KafkaDeductFence(s, p, tt, q, user, until, f, i);
      case KafkaPublish(p, f) => KafkaPublishFence(s, p, f, i);
      case KafkaRevert(p, f) => KafkaRevertFence(s, p, f, i);
      case _ => IntakeFence(s, a, i);
    }
  }

  lemma RestFence(s: State, a: Action, i: Uuid)
    requires PgInv(s) && i in s.db.orders && s.db.orders[i].status == Compensated && Fenced(s, i) && i < s.next
    requires !a.CompCheck? && !a.GuardLost? && !a.Chaos?
    ensures FenceStep(s, Next(s, a), i)
  {
    hide PgInv, Fenced, FenceStep, CalmStep, DoKafkaDeduct, DoKafkaPublish, DoKafkaRevert, DoCompWrite, DoCompCheck,
         DoCompRevert, DoCompMark, DoCrash, DoGuardLost, DoBookStream, DoWorkerTx, DoWorkerGiveUp, DoWorkerAck;
    if Calm(a) {
      CalmSteps(s, a);
      CalmFence(s, Next(s, a), i);
    } else {
      match a {
        case Crash(p) => CrashFence(s, p, i);
        case CompWrite(p, f) => WriteFence(s, p, f, i);
        case CompRevert(p, f) => RevertFence(s, p, f, i);
        case CompMark(p, f) => MarkFence(s, p, f, i);
        case _ => IntakeRestFence(s, a, i);
      }
    }
  }

  lemma {:induction false} FenceHolds(s: State, acts: seq<Action>, i: Uuid)
    requires PgInv(s) && i in s.db.orders && s.db.orders[i].status == Compensated && Fenced(s, i) && RespectsRun(s, acts, i)
    ensures Fenced(Run(s, acts), i) && Reverts(Run(s, acts), i) == Reverts(s, i)
    decreases |acts|
  {
    hide PgInv, Fenced, Next, Respects, Reverts;
    if acts != [] {
      NextKeeps(s, acts[0]);
      NextFenced(s, acts[0], i);
      assert RowExtends(s.db.orders[i], Next(s, acts[0]).db.orders[i]);
      FenceHolds(Next(s, acts[0]), acts[1..], i);
    }
  }

  /** The redelivery that reverts again: from the log, or by a call that is already past the flag. */
  lemma FenceBreaks(s: State, p: nat, offset: nat, i: Uuid) returns (acts: seq<Action>)
    requires PgInv(s) && i in s.db.orders && s.db.orders[i].status == Compensated && i in s.ledger && !Fenced(s, i)
    requires p !in s.procs && offset < |s.log| && s.log[offset] < |s.db.outbox| && s.db.outbox[s.log[offset]].payload.order == i
    ensures RespectsRun(s, acts, i) && Reverts(Run(s, acts), i) == Reverts(s, i) + 1
  {
    hide PgInv, Reverting, Run, RespectsRun;
    if Reverting(s, i) {
      var q := RevertingCall(s, i);
      acts := [CompRevert(q, Clean)];
      RevertsOnce(s, q, i);
      RunOne(s, acts[0]);
      RespectsOne(s, acts[0], i);
    } else {
      acts := [Deliver(p, offset), CompRead(p, Clean), CompCheck(p, Clean), CompRevert(p, Clean)];
      RunFour(s, acts[0], acts[1], acts[2], acts[3]);
      RedeliveryReverts(s, p, offset, i);
      AlwaysRespectsRun(s, acts, i);
    }
  }

  lemma RevertingCall(s: State, i: Uuid) returns (q: nat)
    requires Reverting(s, i)
    ensures AtComp(s, q) && s.procs[q].cpc.CRevert? && s.procs[q].ev.order == i
  {
    q :| q in s.procs && s.procs[q].Comp? && s.procs[q].cpc.CRevert? && s.procs[q].ev.order == i;
  }

  lemma RespectsOne(s: State, a: Action, i: Uuid)
    requires Respects(s, a, i)
    ensures RespectsRun(s, [a], i)
  {
    hide Respects, Next;
    assert [a][1..] == [];
  }

  lemma {:induction false} AlwaysRespectsRun(s: State, acts: seq<Action>, i: Uuid)
    requires forall k :: 0 <= k < |acts| ==> Always(acts[k])
    ensures RespectsRun(s, acts, i)
    decreases |acts|
  {
    hide Respects, Next;
    if acts != [] {
      AlwaysRespects(s, acts[0], i);
      AlwaysRespectsRun(Next(s, acts[0]), acts[1..], i);
    }
  }

  predicate Always(a: Action) { a.Deliver? || a.CompRead? || a.CompRevert? || (a.CompCheck? && a.f.Clean?) }

  lemma AlwaysRespects(s: State, a: Action, i: Uuid)
    requires Always(a)
    ensures Respects(s, a, i)
  {}

  lemma RevertsOnce(s: State, q: nat, i: Uuid)
    requires AtComp(s, q) && s.procs[q].cpc.CRevert? && s.procs[q].ev.order == i && OrderKey(i) !in s.redis.guards && i in s.ledger
    ensures Reverts(DoCompRevert(s, q, Clean), i) == Reverts(s, i) + 1
    ensures Next(s, CompRevert(q, Clean)) == DoCompRevert(s, q, Clean)
  {}

  lemma RedeliveryReverts(s: State, p: nat, offset: nat, i: Uuid)
    requires PgInv(s) && i in s.db.orders && s.db.orders[i].status == Compensated && i in s.ledger
    requires OrderKey(i) !in s.redis.guards && !WasRedisReverted(s.db, i)
    requires p !in s.procs && offset < |s.log| && s.log[offset] < |s.db.outbox| && s.db.outbox[s.log[offset]].payload.order == i
    ensures Reverts(Next(Next(Next(Next(s, Deliver(p, offset)), CompRead(p, Clean)), CompCheck(p, Clean)), CompRevert(p, Clean)), i)
            == Reverts(s, i) + 1
  {
    hide PgInv, Next, DoDeliver, DoCompRead, DoCompCheck, DoCompRevert, DbInv, Serving, WasRedisReverted;
    var s1 := DoDeliver(s, p, offset);
    var s2 := DoCompRead(s1, p, Clean);
    FirstActions(s, p, Clean, offset);
    FirstActions(s1, p, Clean, offset);
    DeliverServes(s, p, offset);
    OnlyTheCall(s, p, offset, i);
    LastActions(s2, p, Clean);
    var s3 := DoCompCheck(s2, p, Clean);
    LastActions(s3, p, Clean);
    RevertsOnce(s3, p, i);
  }

  lemma ReadAgain(s: State, p: nat, offset: nat, i: Uuid)
    requires Serving(s, p, offset, i) && s.procs[p].cpc == CRead && Compensates(s.db.orders, i)
    ensures DoCompRead(s, p, Clean) == GotoComp(s, p, CCheck(s.procs[p].ev.tt))
  {
    hide PgInv, ResolveTicketType;
    ServingFacts(s, p, offset, i);
  }

  lemma OnlyTheCall(s: State, p: nat, offset: nat, i: Uuid)
    requires Serving(DoDeliver(s, p, offset), p, offset, i) && DoDeliver(s, p, offset).procs[p].cpc == CRead
    requires Compensates(s.db.orders, i) && !WasRedisReverted(s.db, i) && p !in s.procs
    ensures var t := DoCompCheck(DoCompRead(DoDeliver(s, p, offset), p, Clean), p, Clean);
      && AtComp(t, p) && t.procs[p].cpc.CRevert? && t.procs[p].ev.order == i
      && t.redis == s.redis && t.ledger == s.ledger
  {
    hide PgInv, WasRedisReverted, DoCompRead;
    ReadAgain(DoDeliver(s, p, offset), p, offset, i);
  }

  /**
   * The fence is exact. With a published trigger at hand, some run that never drops the guard early
   * reverts a compensated order again if and only if the order is not fenced.
   */
  lemma FenceIsExact(s: State, p: nat, offset: nat, i: Uuid)
    requires PgInv(s) && i in s.db.orders && s.db.orders[i].status == Compensated && i in s.ledger
    requires p !in s.procs && offset < |s.log| && s.log[offset] < |s.db.outbox| && s.db.outbox[s.log[offset]].payload.order == i
    ensures Fenced(s, i) <==> forall acts :: RespectsRun(s, acts, i) ==> Reverts(Run(s, acts), i) == Reverts(s, i)
  {
    hide PgInv, Fenced, RespectsRun, Run, Reverts;
    if Fenced(s, i) {
      forall acts | RespectsRun(s, acts, i) ensures Reverts(Run(s, acts), i) == Reverts(s, i) { FenceHolds(s, acts, i); }
    } else {
      var acts := FenceBreaks(s, p, offset, i);
      assert RespectsRun(s, acts, i) && Reverts(Run(s, acts), i) == Reverts(s, i) + 1;
    }
  }
}
