/**
 * Invariants of whole states: the database, the published log, every handler's program counter
 * and the clock. They hold after any sequence of actions, including arbitrary Redis and queue
 * contents, lost replies, crashes and lost guard keys.
 */
module PgSafety {
  import opened Domain
  import opened Options
  import opened Store
  import opened Protocol
  import opened DbSafety

  /** Compensated in Postgres, reverted in Redis, and recorded as such. */
  predicate Settled(db: Db, i: Uuid) {
    i in db.orders && db.orders[i].status == Compensated && WasRedisReverted(db, i)
  }

  predicate Compensates(orders: Orders, i: Uuid) { i in orders && orders[i].status == Compensated }

  ghost predicate LogOk(db: Db, log: seq<nat>, handled: set<nat>) {
    && (forall n :: 0 <= n < |log| ==> log[n] < |db.outbox|)
    && (forall k :: 0 <= k < |db.outbox| && db.outbox[k].processed ==> k in log)
    && (forall n :: n in handled ==> n < |log| && log[n] < |db.outbox| && Settled(db, db.outbox[log[n]].payload.order))
  }

  /** A row read earlier: it may have moved on since, but it is the same order. */
  ghost predicate ReadOf(db: Db, o: Order) {
    o.id in db.orders && RowExtends(o, db.orders[o.id])
  }

  ghost predicate CompOk(db: Db, log: seq<nat>, e: OrderFailedEvent, src: Source, pc: CompPc) {
    && e.order in db.orders && e == EventOf(db.orders[e.order])
    && (src.FromLog? ==> src.offset < |log| && log[src.offset] < |db.outbox| && db.outbox[log[src.offset]].payload == e)
    && match pc
       case CRead => true
       case CWrite(tt) => tt == e.tt
       case CCheck(tt) => tt == e.tt && db.orders[e.order].status == Compensated
       case CRevert(tt, _) => tt == e.tt && db.orders[e.order].status == Compensated
       case CMark(_) => db.orders[e.order].status == Compensated
       case CDone(ok) => ok ==> Settled(db, e.order)
  }

  /** The order an envelope is about; an intent once written keeps naming the same one. */
  ghost predicate Names(db: Db, env: Envelope, id: Uuid) {
    if ByMetadata(env) then id == env.order.value
    else env.intent != "" && id in db.orders && db.orders[id].intent == Some(env.intent)
  }

  /** The mismatch branch does not apply: metadata is trusted unless the row carries another intent. */
  predicate Agrees(env: Envelope, o: Order) {
    !ByMetadata(env) || o.IntentID() == "" || o.IntentID() == env.intent
  }

  /** The row that a paying transaction goes by. */
  ghost predicate PayableRead(db: Db, env: Envelope, o: Order) {
    env.kind.Succeeded? && ReadOf(db, o) && Names(db, env, o.id) && o.status == AwaitingPayment
    && (o.IntentID() == "" || o.intent == Some(env.intent))
  }

  ghost predicate HookOk(db: Db, env: Envelope, pc: HookPc, late: bool) {
    match pc
    case HRead(id, metadata) => Names(db, env, id) && metadata == ByMetadata(env)
    case HReady(o) => PayableRead(db, env, o)
    case HPay(o, _) => PayableRead(db, env, o)
    case HLate(o) => env.kind.Succeeded? && late && ReadOf(db, o) && Names(db, env, o.id) && Agrees(env, o)
    case HFail(o) => env.kind.PaymentDeclined? && ReadOf(db, o) && Names(db, env, o.id) && Agrees(env, o)
    case HRecheck(id) => id in db.orders && Names(db, env, id)
    case _ => true
  }

  ghost predicate PayOk(db: Db, gateway: map<Uuid, string>, o: Order, intent: Option<string>) {
    ReadOf(db, o) && (intent.Some? ==> o.id in gateway && gateway[o.id] == intent.value)
  }

  ghost predicate ProcOk(db: Db, log: seq<nat>, gateway: map<Uuid, string>, next: nat, proc: Proc) {
    match proc
    case Intake(m, _) => m.id < next
    case Comp(e, src, pc) => CompOk(db, log, e, src, pc)
    case Hook(env, pc, late) => HookOk(db, env, pc, late)
    case Job(_, o) => ReadOf(db, o)
    case Pay(o, intent) => PayOk(db, gateway, o, intent)
  }

  ghost predicate ProcsOk(s: State) {
    forall p :: p in s.procs ==> ProcOk(s.db, s.log, s.gateway, s.next, s.procs[p])
  }

  ghost predicate MsgsOk(msgs: map<Uuid, Msg>, next: nat) {
    forall id :: id in msgs ==> id < next
  }

  ghost predicate GatewayOk(gateway: map<Uuid, string>) {
    && (forall i :: i in gateway ==> gateway[i] != "")
    && (forall i, j :: i in gateway && j in gateway && i != j ==> gateway[i] != gateway[j])
  }

  /** Rows a sweeper has seen overdue are past their deadline. */
  ghost predicate FoundOk(orders: Orders, found: set<Uuid>, now: int) {
    forall i :: i in found ==> i in orders && orders[i].reservedUntil <= now && Reaches(AwaitingPayment, orders[i].status)
  }

  /** Paid rows are exactly those a webhook paid, with its own intent, in a transaction begun before the deadline. */
  ghost predicate PaidOk(orders: Orders, paidBy: map<Uuid, Payment>) {
    && (forall i :: i in orders && orders[i].status == Paid ==> i in paidBy)
    && (forall i :: i in paidBy ==> i in orders && orders[i].status == Paid
                                    && orders[i].intent == Some(paidBy[i].intent) && paidBy[i].at < orders[i].reservedUntil)
  }

  ghost predicate PgInv(s: State) {
    && DbInv(s.db, s.next)
    && LogOk(s.db, s.log, s.handled)
    && ProcsOk(s)
    && MsgsOk(s.msgs, s.next)
    && GatewayOk(s.gateway)
    && FoundOk(s.db.orders, s.found, s.now)
    && PaidOk(s.db.orders, s.paidBy)
  }

  ghost predicate LogExtends(a: seq<nat>, b: seq<nat>) {
    |a| <= |b| && forall n :: 0 <= n < |a| ==> a[n] == b[n]
  }

  ghost predicate GatewayExtends(a: map<Uuid, string>, b: map<Uuid, string>) {
    forall i :: i in a ==> i in b && b[i] == a[i]
  }

  ghost predicate NoNewPaid(a: Orders, b: Orders) {
    forall i :: i in b && b[i].status == Paid ==> i in a && a[i].status == Paid
  }

  /** What every step lets every handler keep relying on. */
  ghost predicate Advances(s: State, t: State) {
    Extends(s.db, t.db) && LogExtends(s.log, t.log) && GatewayExtends(s.gateway, t.gateway)
    && s.next <= t.next && s.now <= t.now
  }

  lemma OrdersPart(s: State, t: State)
    requires Advances(s, t)
    ensures OrdersExtend(s.db.orders, t.db.orders)
  {}

  lemma AdvancesTransitive(s: State, t: State, u: State)
    requires Advances(s, t) && Advances(t, u)
    ensures Advances(s, u)
  {
    hide Extends;
    ExtendsTransitive(s.db, t.db, u.db);
  }

  lemma AdvancesForward(s: State, t: State)
    requires Advances(s, t)
    ensures s.next <= t.next && s.now <= t.now
  {}

  lemma AdvancesReflexive(s: State)
    ensures Advances(s, s)
  {}

  // ---- Stability ----

  lemma ReadOfStable(a: Db, b: Db, o: Order)
    requires ReadOf(a, o) && OrdersExtend(a.orders, b.orders)
    ensures ReadOf(b, o)
  {
    ReachesTransitive(o.status, a.orders[o.id].status, b.orders[o.id].status);
  }

  lemma SettledStable(a: Db, b: Db, i: Uuid)
    requires Settled(a, i) && Extends(a, b)
    ensures Settled(b, i)
  {
    assert RowExtends(a.orders[i], b.orders[i]);
  }

  lemma CompOkStable(s: State, t: State, e: OrderFailedEvent, src: Source, pc: CompPc)
    requires CompOk(s.db, s.log, e, src, pc) && Advances(s, t)
    ensures CompOk(t.db, t.log, e, src, pc)
  {
    assert RowExtends(s.db.orders[e.order], t.db.orders[e.order]);
  }

  lemma NamesStable(a: Db, b: Db, env: Envelope, id: Uuid)
    requires Names(a, env, id) && OrdersExtend(a.orders, b.orders)
    ensures Names(b, env, id)
  {
    if !ByMetadata(env) { assert RowExtends(a.orders[id], b.orders[id]); }
  }

  lemma HookOkStable(s: State, t: State, env: Envelope, pc: HookPc, late: bool)
    requires HookOk(s.db, env, pc, late) && Advances(s, t)
    ensures HookOk(t.db, env, pc, late)
  {
    hide Names, ReadOf;
    match pc {
      case HRead(id, _) => NamesStable(s.db, t.db, env, id);
      case HReady(o) => ReadOfStable(s.db, t.db, o); NamesStable(s.db, t.db, env, o.id);
      case HPay(o, _) => ReadOfStable(s.db, t.db, o); NamesStable(s.db, t.db, env, o.id);
      case HLate(o) => ReadOfStable(s.db, t.db, o); NamesStable(s.db, t.db, env, o.id);
      case HFail(o) => ReadOfStable(s.db, t.db, o); NamesStable(s.db, t.db, env, o.id);
      case HRecheck(id) => NamesStable(s.db, t.db, env, id);
      case _ =>
    }
  }

  lemma ProcOkStable(s: State, t: State, proc: Proc)
    requires ProcOk(s.db, s.log, s.gateway, s.next, proc) && Advances(s, t)
    ensures ProcOk(t.db, t.log, t.gateway, t.next, proc)
  {
    match proc
    case Intake(m, _) =>
    case Comp(e, src, pc) => CompOkStable(s, t, e, src, pc);
    case Hook(env, pc, late) => HookOkStable(s, t, env, pc, late);
    case Job(_, o) => ReadOfStable(s.db, t.db, o);
    case Pay(o, _) => ReadOfStable(s.db, t.db, o);
  }

  /** Everyone but `p` keeps their assertion; `p` must bring its own. */
  lemma ProcsStable(s: State, t: State, p: nat)
    requires ProcsOk(s) && Advances(s, t)
    requires forall q :: q in t.procs && q != p ==> q in s.procs && t.procs[q] == s.procs[q]
    requires p in t.procs ==> ProcOk(t.db, t.log, t.gateway, t.next, t.procs[p])
    ensures ProcsOk(t)
  {
    hide Advances, ProcOk;
    forall q | q in t.procs ensures ProcOk(t.db, t.log, t.gateway, t.next, t.procs[q]) {
      if q != p { ProcOkStable(s, t, s.procs[q]); }
    }
  }

  lemma LogStable(a: Db, b: Db, log: seq<nat>, handled: set<nat>)
    requires LogOk(a, log, handled) && Extends(a, b)
    requires forall k :: 0 <= k < |b.outbox| && b.outbox[k].processed ==> (k < |a.outbox| && a.outbox[k].processed) || k in log
    ensures LogOk(b, log, handled)
  {
    forall n | n in handled ensures Settled(b, b.outbox[log[n]].payload.order) {
      SettledStable(a, b, a.outbox[log[n]].payload.order);
    }
  }

  lemma TimeStable(a: Orders, b: Orders, found: set<Uuid>, paidBy: map<Uuid, Payment>, now: int)
    requires FoundOk(a, found, now) && PaidOk(a, paidBy) && OrdersExtend(a, b) && NoNewPaid(a, b)
    ensures FoundOk(b, found, now) && PaidOk(b, paidBy)
  {
    forall i | i in found ensures i in b && b[i].reservedUntil <= now && Reaches(AwaitingPayment, b[i].status) {
      ReachesTransitive(AwaitingPayment, a[i].status, b[i].status);
    }
    forall i | i in paidBy ensures i in b && b[i].status == Paid && b[i].intent == a[i].intent && b[i].reservedUntil == a[i].reservedUntil {
      assert RowExtends(a[i], b[i]);
    }
  }

  /** The frame of a step that leaves the database alone. */
  lemma QuietStep(s: State, t: State, p: nat)
    requires PgInv(s) && t.db == s.db && t.now == s.now && t.found == s.found && t.paidBy == s.paidBy
    requires t.handled == s.handled && t.log == s.log && s.next <= t.next && MsgsOk(t.msgs, t.next)
    requires GatewayOk(t.gateway) && GatewayExtends(s.gateway, t.gateway)
    requires forall q :: q in t.procs && q != p ==> q in s.procs && t.procs[q] == s.procs[q]
    requires p in t.procs ==> ProcOk(t.db, t.log, t.gateway, t.next, t.procs[p])
    ensures PgInv(t) && Advances(s, t)
  {
    hide DbInv, LogOk, ProcsOk, ProcOk, FoundOk, PaidOk, Extends;
    ExtendsReflexive(s.db);
    BoundGrows(s.db, s.next, t.next);
    ProcsStable(s, t, p);
  }

  /** The frame of a step that commits to the database without paying anything. */
  lemma CommitStep(s: State, t: State, p: nat)
    requires PgInv(s) && DbInv(t.db, s.next) && Extends(s.db, t.db) && NoNewPaid(s.db.orders, t.db.orders)
    requires forall k :: 0 <= k < |t.db.outbox| && t.db.outbox[k].processed
                         ==> (k < |s.db.outbox| && s.db.outbox[k].processed) || k in s.log
    requires t.now == s.now && t.found == s.found && t.paidBy == s.paidBy && t.next == s.next && t.msgs == s.msgs
    requires t.handled == s.handled && t.log == s.log && t.gateway == s.gateway
    requires forall q :: q in t.procs && q != p ==> q in s.procs && t.procs[q] == s.procs[q]
    requires p in t.procs ==> ProcOk(t.db, t.log, t.gateway, t.next, t.procs[p])
    ensures PgInv(t) && Advances(s, t)
  {
    hide DbInv, LogOk, ProcsOk, ProcOk, FoundOk, PaidOk, NoNewPaid, MsgsOk, GatewayOk, RowExtends;
    assert Advances(s, t);
    ProcsStable(s, t, p);
    LogStable(s.db, t.db, s.log, s.handled);
    TimeStable(s.db.orders, t.db.orders, s.found, s.paidBy, s.now);
  }
}
