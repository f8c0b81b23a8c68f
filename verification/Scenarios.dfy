/** Stretches of runs from a first deployment: a booking up to its row, a webhook up to its transaction. */
module Scenarios {
  import opened Domain
  import opened Options
  import opened Store
  import opened Protocol
  import opened Steps
  import opened DbSafety
  import opened PgSafety
  import opened PgSteps
  import opened Guarantees
  import opened Ledger
  import opened Once
  import opened Fence

  /** A first deployment state in which this booking succeeds end to end. */
  ghost predicate Bookable(s: State, tt: Uuid, quantity: int, user: int, until: int, clock: int) {
    && Start(s) && tt in s.db.total && tt in s.db.avail && tt in s.redis.qty && tt in s.redis.meta
    && s.redis.qty[tt] == s.db.avail[tt] && s.db.avail[tt] >= quantity
    && BookingAccepted(user, tt, quantity) && s.next != NIL && s.next !in s.db.orders
    && Reserve(MsgOf(s, tt, quantity, user, until), clock).Accepted?
    && !UserHolds(s.db, user, s.redis.meta[tt].event)
  }

  lemma CommitsFresh(db: Db, o: Order)
    requires o.id !in db.orders && !UserHolds(db, o.user, o.event) && o.tt in db.avail && db.avail[o.tt] >= o.quantity
    ensures BookTx(db, o) == DbResult(Booking(db, o), Ok)
  {}

  lemma RunThree(s: State, a: Action, b: Action, c: Action)
    ensures Run(s, [a, b, c]) == Next(Next(Next(s, a), b), c)
  {
    hide Next, Run;
    assert [a, b, c] == [a, b] + [c];
    RunConcat(s, [a, b], [c]);
    RunTwo(s, a, b);
    RunOne(Next(Next(s, a), b), c);
  }

  /** After one booking and its commit: the order awaits payment, nobody is at work and the stores agree. */
  ghost predicate Awaiting(t: State, o: Order, now: int) {
    && o.id in t.db.orders && t.db.orders[o.id] == o && o.status == AwaitingPayment && o.intent == None && o.HasPriceSnapshot()
    && o.id != NIL && t.now == now && t.procs == map[] && t.gateway == map[] && t.db.outbox == [] && t.db.comps == map[] && t.log == []
    && (forall i :: i in t.db.orders ==> t.db.orders[i].intent == None)
    && o.tt in t.db.avail && o.tt in t.redis.qty && t.redis.qty[o.tt] == t.db.avail[o.tt] && t.redis.guards == {}
  }

  // ---- Steps outside the hypotheses ----

  /** How many steps of a run violate `Once.Legal`. */
  ghost function Breaches(s: State, acts: seq<Action>): nat
    decreases |acts|
  {
    if acts == [] then 0 else BreachOf(s, acts[0]) + Breaches(Next(s, acts[0]), acts[1..])
  }

  ghost function BreachOf(s: State, a: Action): nat { if Legal(s, a) then 0 else 1 }

  lemma {:induction false} BreachesAdd(s: State, a: seq<Action>, b: seq<Action>)
    ensures Breaches(s, a + b) == Breaches(s, a) + Breaches(Run(s, a), b)
    decreases |a|
  {
    hide Next, BreachOf;
    if a == [] {
      assert a + b == b;
    } else {
      assert (a + b)[1..] == a[1..] + b;
      BreachesAdd(Next(s, a[0]), a[1..], b);
    }
  }

  lemma NoBreaches(s: State)
    ensures Breaches(s, []) == 0
  {}

  lemma BreachesSnoc(s: State, acts: seq<Action>, a: Action)
    ensures Breaches(s, acts + [a]) == Breaches(s, acts) + BreachOf(Run(s, acts), a)
  {
    hide Next, BreachOf, Run;
    BreachesAdd(s, acts, [a]);
    assert [a][1..] == [];
  }

  /** A legal run is one without such a step. */
  lemma {:induction false} LegalIsNoBreach(s: State, acts: seq<Action>)
    ensures LegalRun(s, acts) <==> Breaches(s, acts) == 0
    decreases |acts|
  {
    hide Next, Legal;
    if acts != [] { LegalIsNoBreach(Next(s, acts[0]), acts[1..]); }
  }

  /** Legal in whatever state. */
  predicate Harmless(a: Action) {
    && !a.Chaos? && !a.WorkerTx? && !a.WorkerGiveUp? && !a.GuardLost?
    && (a.KafkaPublish? ==> !a.f.Lost?) && (a.CompCheck? ==> a.f.Clean?)
  }

  lemma HarmlessIsLegal(s: State, a: Action)
    requires Harmless(a)
    ensures BreachOf(s, a) == 0
  {}

  lemma {:induction false} HarmlessRun(s: State, acts: seq<Action>)
    requires forall k :: 0 <= k < |acts| ==> Harmless(acts[k])
    ensures Breaches(s, acts) == 0
    decreases |acts|
  {
    hide Next, BreachOf, Harmless;
    if acts != [] {
      HarmlessIsLegal(s, acts[0]);
      HarmlessRun(Next(s, acts[0]), acts[1..]);
    }
  }

  // ---- A booking up to its row ----

  function Placed(tt: Uuid, quantity: int, user: int, until: int, id: Uuid, clock: int): seq<Action> {
    [BookStream(tt, quantity, user, until), WorkerTx(id, clock, Clean)]
  }

  function OrderOf(s: State, tt: Uuid, quantity: int, user: int, until: int, clock: int): Order
    requires tt in s.redis.meta && Reserve(MsgOf(s, tt, quantity, user, until), clock).Accepted?
  {
    Reserve(MsgOf(s, tt, quantity, user, until), clock).order
  }

  lemma OrderAwaits(s: State, tt: Uuid, quantity: int, user: int, until: int, clock: int)
    requires tt in s.redis.meta && Reserve(MsgOf(s, tt, quantity, user, until), clock).Accepted?
    ensures var o := OrderOf(s, tt, quantity, user, until, clock);
      && o.status == AwaitingPayment && o.intent == None && o.HasPriceSnapshot() && o.reservedUntil == until > clock
      && o.event == s.redis.meta[tt].event && o.user == user && o.id == s.next != NIL && o.tt == tt && o.quantity == quantity
  {}

  lemma Places(s: State, tt: Uuid, quantity: int, user: int, until: int, clock: int) returns (o: Order)
    requires Bookable(s, tt, quantity, user, until, clock)
    ensures var t := Run(s, Placed(tt, quantity, user, until, s.next, clock)); PgInv(t) && Awaiting(t, o, s.now)
    ensures o.id == s.next != NIL && o.reservedUntil == until > clock && o.tt == tt && o.quantity == quantity
  {
    hide Bookable, DoBookStream, DoWorkerTx, Run, PgInv, Start, Awaiting;
    var s1 := DoBookStream(s, tt, quantity, user, until);
    RunTwo(s, BookStream(tt, quantity, user, until), WorkerTx(s.next, clock, Clean));
    StreamStep(s, tt, quantity, user, until);
    WorkerSteps(s1, s.next, clock, Clean);
    BookableParts(s, tt, quantity, user, until, clock);
    OrderAwaits(s, tt, quantity, user, until, clock);
    ReachedOne(s, Placed(tt, quantity, user, until, s.next, clock));
    PlacesRow(s, tt, quantity, user, until, clock);
    o := OrderOf(s, tt, quantity, user, until, clock);
  }

  lemma BookableParts(s: State, tt: Uuid, quantity: int, user: int, until: int, clock: int)
    requires Bookable(s, tt, quantity, user, until, clock)
    ensures Start(s) && tt in s.redis.meta && Reserve(MsgOf(s, tt, quantity, user, until), clock).Accepted?
  {
    hide Start, Reserve;
  }

  /** What the queue entry's booking does to a state with no handlers yet. */
  lemma StreamBooks(s: State, tt: Uuid, quantity: int, user: int, until: int, clock: int)
    requires Bookable(s, tt, quantity, user, until, clock)
    ensures tt in s.redis.qty && tt in s.db.avail && s.redis.qty[tt] == s.db.avail[tt] && s.redis.guards == {} && s.next !in s.db.orders
    ensures tt in s.redis.meta && DoBookStream(s, tt, quantity, user, until)
      == s.(redis := s.redis.(qty := s.redis.qty[tt := s.redis.qty[tt] - quantity]), next := s.next + 1,
            msgs := s.msgs[s.next := MsgOf(s, tt, quantity, user, until)],
            ledger := s.ledger[s.next := Entry(tt, quantity, Published, 0, 0, None)])
  {
    hide OrdersOk, AllConserved, Reserve;
  }

  /** Deducted, with a request holding the units. */
  lemma KafkaHolds(s: State, p: nat, tt: Uuid, quantity: int, user: int, until: int, clock: int)
    requires Bookable(s, tt, quantity, user, until, clock)
    ensures tt in s.redis.meta && tt in s.redis.qty && tt in s.db.avail && s.redis.qty[tt] == s.db.avail[tt] && s.redis.guards == {} && s.procs == map[]
    ensures var t := DoKafkaDeduct(s, p, tt, quantity, user, until, Clean);
      && t.db == s.db && t.redis == s.redis.(qty := s.redis.qty[tt := s.redis.qty[tt] - quantity])
      && t.procs == map[p := Intake(MsgOf(s, tt, quantity, user, until), false)] && t.msgs == s.msgs
      && t.ledger == s.ledger[s.next := Entry(tt, quantity, Deducted, 0, 0, None)] && t.next == s.next + 1
  {
    hide OrdersOk, AllConserved, Reserve;
  }

  lemma MsgUnits(s: State, tt: Uuid, quantity: int, user: int, until: int)
    requires tt in s.redis.meta
    ensures var m := MsgOf(s, tt, quantity, user, until); m.tt == tt && m.quantity == quantity && m.id == s.next
  {}

  lemma PlacesLegally(s: State, tt: Uuid, quantity: int, user: int, until: int, clock: int)
    requires Bookable(s, tt, quantity, user, until, clock)
    ensures Breaches(s, Placed(tt, quantity, user, until, s.next, clock)) == 0
  {
    hide Bookable, Next, Run, Reserve, MsgOf, DoBookStream;
    StreamBooks(s, tt, quantity, user, until, clock);
    StreamStep(s, tt, quantity, user, until);
    var a, b := BookStream(tt, quantity, user, until), WorkerTx(s.next, clock, Clean);
    assert Placed(tt, quantity, user, until, s.next, clock) == [a] + [b];
    BreachesSnoc(s, [a], b);
    RunOne(s, a);
    HarmlessRun(s, [a]);
  }

  lemma PlacesRow(s: State, tt: Uuid, quantity: int, user: int, until: int, clock: int)
    requires Bookable(s, tt, quantity, user, until, clock)
    ensures Awaiting(DoWorkerTx(DoBookStream(s, tt, quantity, user, until), s.next, clock, Clean), OrderOf(s, tt, quantity, user, until, clock), s.now)
  {
    hide OrdersOk, AllConserved, Reaches, Reserve, MsgOf, UserHolds, BookTx;
    var s1 := DoBookStream(s, tt, quantity, user, until);
    var o := OrderOf(s, tt, quantity, user, until, clock);
    OrderAwaits(s, tt, quantity, user, until, clock);
    assert s1.msgs[s.next] == MsgOf(s, tt, quantity, user, until) && s1.db == s.db;
    CommitsFresh(s.db, o);
  }

  // ---- A webhook up to its transaction ----

  function Opening(p: nat, env: Envelope, clock: int): seq<Action> {
    [HookStart(p, env, env.live), HookResolve(p, None, Clean), HookRead(p, clock, Clean)]
  }

  /** The envelope names the order by metadata. */
  predicate About(env: Envelope, o: Order) { env.order == Some(o.id) && o.id != NIL }

  lemma Opens(t: State, o: Order, p: nat, env: Envelope, clock: int)
    requires o.id in t.db.orders && t.db.orders[o.id] == o && o.status == AwaitingPayment && o.intent == None && o.reservedUntil > clock
    requires p !in t.procs && About(env, o) && !env.kind.Unsupported?
    ensures Run(t, Opening(p, env, clock)) == Put(t, p, Hook(env, if env.kind.Succeeded? then HReady(o) else HFail(o), false))
  {
    hide Run, DoHookStart, DoHookResolve, DoHookRead, Next;
    var d := Opening(p, env, clock);
    RunThree(t, d[0], d[1], d[2]);
    var t1 := DoHookStart(t, p, env, env.live);
    var t2 := DoHookResolve(t1, p, None, Clean);
    HookStartStep(t, p, env, env.live);
    HookReadSteps(t, p, None, clock, Clean);
    HookStartStep(t1, p, env, env.live);
    HookReadSteps(t1, p, None, clock, Clean);
    HookStartStep(t2, p, env, env.live);
    HookReadSteps(t2, p, None, clock, Clean);
    OpenSteps(t, o, p, env, clock);
  }

  lemma OpenSteps(t: State, o: Order, p: nat, env: Envelope, clock: int)
    requires o.id in t.db.orders && t.db.orders[o.id] == o && o.status == AwaitingPayment && o.intent == None && o.reservedUntil > clock
    requires p !in t.procs && About(env, o) && !env.kind.Unsupported?
    ensures DoHookRead(DoHookResolve(DoHookStart(t, p, env, env.live), p, None, Clean), p, clock, Clean)
            == Put(t, p, Hook(env, if env.kind.Succeeded? then HReady(o) else HFail(o), false))
  {
    hide DoHookRead;
    var t1 := DoHookStart(t, p, env, env.live);
    assert t1 == Put(t, p, Hook(env, HResolve, false));
    assert DoHookResolve(t1, p, None, Clean) == Put(t, p, Hook(env, HRead(o.id, true), false));
    OpenReads(t, o, p, env, clock);
  }

  lemma OpenReads(t: State, o: Order, p: nat, env: Envelope, clock: int)
    requires o.id in t.db.orders && t.db.orders[o.id] == o && o.status == AwaitingPayment && o.intent == None && o.reservedUntil > clock
    requires !env.kind.Unsupported?
    ensures DoHookRead(Put(t, p, Hook(env, HRead(o.id, true), false)), p, clock, Clean)
            == Put(t, p, Hook(env, if env.kind.Succeeded? then HReady(o) else HFail(o), false))
  {
    assert Dispatch(env, o, true, clock) == if env.kind.Succeeded? then GoPay else GoFail;
  }

  lemma AwaitingRow(t: State, o: Order, now: int)
    requires Awaiting(t, o, now)
    ensures o.id in t.db.orders && t.db.orders[o.id] == o && o.status == AwaitingPayment && o.intent == None && o.HasPriceSnapshot()
    ensures t.db.outbox == [] && t.procs == map[] && t.now == now && o.id != NIL && t.gateway == map[]
    ensures forall intent :: !IntentTaken(t.db, o.id, intent)
  {}

  // ---- A declined payment, with its trigger published ----

  function Declined(tt: Uuid, quantity: int, user: int, until: int, id: Uuid, clock: int, p: nat, env: Envelope): seq<Action> {
    Placed(tt, quantity, user, until, id, clock) + Opening(p, env, clock) + [HookTx(p, clock, Clean), RelayPublish(0)]
  }

  /** The order failed, its trigger is published, and neither store has its units back. */
  ghost predicate Owing(t: State, o: Order, p: nat) {
    && o.id in t.db.orders && t.db.orders[o.id] == o.(status := PaymentFailed) && t.db.outbox == [OutboxRow(EventOf(o), false)]
    && t.log == [0] && t.db.comps == map[] && t.procs.Keys == {p} && t.procs[p].Hook?
    && o.tt in t.db.avail && o.tt in t.redis.qty && t.redis.qty[o.tt] == t.db.avail[o.tt] && t.redis.guards == {}
  }

  lemma Declines(s: State, tt: Uuid, quantity: int, user: int, until: int, clock: int, p: nat, env: Envelope) returns (o: Order)
    requires Bookable(s, tt, quantity, user, until, clock) && env.kind.PaymentDeclined? && env.order == Some(s.next)
    ensures var acts := Declined(tt, quantity, user, until, s.next, clock, p, env);
      PgInv(Run(s, acts)) && Owing(Run(s, acts), o, p) && Breaches(s, acts) == 0
    ensures o.id == s.next && o.tt == tt && o.quantity == quantity
  {
    hide Bookable, Run, PgInv, Awaiting, Next, Owing, DoHookTx, DoRelayPublish, Start, Breaches;
    var placed, rest := Placed(tt, quantity, user, until, s.next, clock), [HookTx(p, clock, Clean), RelayPublish(0)];
    var t := Run(s, placed);
    o := Places(s, tt, quantity, user, until, clock);
    AwaitingRow(t, o, s.now);
    Opens(t, o, p, env, clock);
    var t1 := Put(t, p, Hook(env, HFail(o), false));
    RunConcat(s, placed, Opening(p, env, clock));
    RunConcat(s, placed + Opening(p, env, clock), rest);
    RunTwo(t1, rest[0], rest[1]);
    HookEndSteps(t1, p, clock, Clean);
    PublishRowStep(t1, 0);
    HookEndSteps(DoHookTx(t1, p, clock, Clean), p, clock, Clean);
    PublishRowStep(DoHookTx(t1, p, clock, Clean), 0);
    FailsRow(t, o, s.now, p, env, clock);
    BookableParts(s, tt, quantity, user, until, clock);
    ReachedOne(s, Declined(tt, quantity, user, until, s.next, clock, p, env));
    DeclinesLegally(s, tt, quantity, user, until, clock, p, env);
  }

  lemma DeclinesLegally(s: State, tt: Uuid, quantity: int, user: int, until: int, clock: int, p: nat, env: Envelope)
    requires Bookable(s, tt, quantity, user, until, clock)
    ensures Breaches(s, Declined(tt, quantity, user, until, s.next, clock, p, env)) == 0
  {
    hide Bookable, Run, Breaches;
    var placed, rest := Placed(tt, quantity, user, until, s.next, clock), [HookTx(p, clock, Clean), RelayPublish(0)];
    PlacesLegally(s, tt, quantity, user, until, clock);
    HarmlessRun(Run(s, placed), Opening(p, env, clock) + rest);
    BreachesAdd(s, placed, Opening(p, env, clock) + rest);
    assert placed + (Opening(p, env, clock) + rest) == placed + Opening(p, env, clock) + rest;
  }

  lemma FailsRow(t: State, o: Order, now: int, p: nat, env: Envelope, clock: int)
    requires Awaiting(t, o, now) && env.kind.PaymentDeclined?
    ensures Owing(DoRelayPublish(DoHookTx(Put(t, p, Hook(env, HFail(o), false)), p, clock, Clean), 0), o, p)
  {
    var db := FailTx(t.db, o, PaymentFailed).db;
    assert FailTx(t.db, o, PaymentFailed).error == Ok && db.outbox == [OutboxRow(EventOf(o), false)];
    assert DoHookTx(Put(t, p, Hook(env, HFail(o), false)), p, clock, Clean)
        == Put(t.(db := db), p, Hook(env, HDone(Acked), false));
  }

  // ---- Compensation, step by step ----

  /** The order is compensated in Postgres; Postgres shows `d` tickets more than Redis. */
  ghost predicate Back(t: State, o: Order, d: int) {
    && PgInv(t) && Compensates(t.db.orders, o.id) && t.db.orders[o.id].tt == o.tt
    && t.log == [0] && |t.db.outbox| == 1 && t.db.outbox[0].payload == EventOf(o)
    && o.tt in t.db.avail && o.tt in t.redis.qty && t.db.avail[o.tt] - t.redis.qty[o.tt] == d
  }

  /** Call `q` is about to revert the order's units. */
  predicate AtRevert(t: State, o: Order, q: nat) {
    AtComp(t, q) && t.procs[q].ev == EventOf(o) && t.procs[q].cpc.CRevert? && t.procs[q].cpc.tt == o.tt
  }

  function Half(q: nat): seq<Action> { [Deliver(q, 0), CompRead(q, Clean), CompWrite(q, Clean)] }

  lemma HalfCompensates(t: State, o: Order, p: nat, q: nat)
    requires PgInv(t) && Owing(t, o, p) && q != p
    ensures var u := Run(t, Half(q));
      && Back(u, o, o.quantity) && AtRevert(u, o, q) && u.procs.Keys == {p, q} && u.procs[p].Hook? && u.redis == t.redis && !WasRedisReverted(u.db, o.id)
      && u.db.avail[o.tt] == t.db.avail[o.tt] + o.quantity
  {
    hide Run, PgInv, DoDeliver, DoCompRead, DoCompWrite, Next, Serving;
    var s1 := DoDeliver(t, q, 0);
    RunThree(t, Deliver(q, 0), CompRead(q, Clean), CompWrite(q, Clean));
    FirstActions(t, q, Clean, 0);
    FirstActions(s1, q, Clean, 0);
    FirstActions(DoCompRead(s1, q, Clean), q, Clean, 0);
    DeliverServes(t, q, 0);
    QuietDelivery(t, q);
    WritesBack(s1, o, q);
  }

  lemma WritesBack(s: State, o: Order, q: nat)
    requires Serving(s, q, 0, o.id) && s.procs[q].cpc == CRead && o.id in s.db.orders && s.db.orders[o.id] == o.(status := PaymentFailed)
    ensures o.tt in s.db.avail
    ensures var u := DoCompWrite(DoCompRead(s, q, Clean), q, Clean);
      && PgInv(u) && AtRevert(u, o, q) && u.redis == s.redis && u.log == s.log && u.db == Compensating(s.db, o.id)
      && u.procs == s.procs[q := u.procs[q]]
  {
    hide PgInv, DoCompRead, DoCompWrite, Serving;
    ReadsFailure(s, q, 0, o.id);
    WritesFailure(DoCompRead(s, q, Clean), q, 0, o.id);
    ServingNow(s, q, 0, o.id);
  }

  lemma QuietDelivery(s: State, q: nat)
    requires q !in s.procs
    ensures var t := DoDeliver(s, q, 0); t.redis == s.redis && t.db == s.db && t.log == s.log && t.procs.Keys <= s.procs.Keys + {q}
    ensures forall x :: x in s.procs ==> x in DoDeliver(s, q, 0).procs && DoDeliver(s, q, 0).procs[x] == s.procs[x]
  {}

  lemma ReadsFailure(s: State, p: nat, offset: nat, i: Uuid)
    requires Serving(s, p, offset, i) && s.procs[p].cpc == CRead && i in s.db.orders && IsFailure(s.db.orders[i].status)
    ensures var t := DoCompRead(s, p, Clean);
      && Serving(t, p, offset, i) && t.procs[p].cpc.CWrite? && t.redis == s.redis && t.db == s.db && t.log == s.log
      && t.procs == s.procs[p := t.procs[p]]
  {
    hide PgInv, DbInv, Advances;
    ServingFacts(s, p, offset, i);
    CompReadKeeps(s, p, Clean);
  }

  lemma WritesFailure(s: State, p: nat, offset: nat, i: Uuid)
    requires Serving(s, p, offset, i) && s.procs[p].cpc.CWrite? && Compensable(s.db, i)
    ensures s.db.orders[i].tt in s.db.avail
    ensures var t := DoCompWrite(s, p, Clean);
      && PgInv(t) && AtComp(t, p) && t.procs[p].ev == EventOf(s.db.orders[i]) && t.procs[p].cpc == CRevert(s.db.orders[i].tt, true)
      && t.redis == s.redis && t.db == Compensating(s.db, i) && t.log == s.log && t.procs == s.procs[p := t.procs[p]]
  {
    hide PgInv, DbInv, Advances, CompensateTx;
    ServingFacts(s, p, offset, i);
    CompWriteKeeps(s, p, Clean);
    CompensateTxKeeps(s.db, s.next, s.procs[p].ev);
  }

  /** A revert without its guard key puts the units into the counter, whatever happened before. */
  lemma RevertsFreely(t: State, o: Order, q: nat, d: int)
    requires Back(t, o, d) && AtRevert(t, o, q) && OrderKey(o.id) !in t.redis.guards
    ensures var u := Next(t, CompRevert(q, Clean));
      && Back(u, o, d - o.quantity) && u.procs == t.procs[q := t.procs[q].(cpc := CMark(t.procs[q].cpc.first))] && u.db == t.db
      && u.redis.qty[o.tt] == t.redis.qty[o.tt] + o.quantity && u.redis.guards == t.redis.guards + {OrderKey(o.id)}
  {
    hide PgInv, Next, Advances, DoCompRevert;
    NextKeeps(t, CompRevert(q, Clean));
    CheckActions(t, q, Clean);
    RevertsInto(t, o, q);
  }

  lemma RevertsInto(t: State, o: Order, q: nat)
    requires AtRevert(t, o, q) && OrderKey(o.id) !in t.redis.guards && o.tt in t.redis.qty
    ensures var u := DoCompRevert(t, q, Clean);
      && u.db == t.db && u.log == t.log && u.procs == t.procs[q := t.procs[q].(cpc := CMark(t.procs[q].cpc.first))]
      && u.redis.qty == t.redis.qty[o.tt := t.redis.qty[o.tt] + o.quantity] && u.redis.guards == t.redis.guards + {OrderKey(o.id)}
  {}

  /** The flag is committed; nothing else that matters changes. */
  lemma Marks(t: State, o: Order, q: nat, d: int)
    requires Back(t, o, d) && AtComp(t, q) && t.procs[q].ev == EventOf(o) && t.procs[q].cpc.CMark?
    ensures var u := Next(t, CompMark(q, Clean));
      && Back(u, o, d) && u.redis == t.redis && WasRedisReverted(u.db, o.id) && u.procs == t.procs[q := t.procs[q].(cpc := CDone(true))]
  {
    hide PgInv, Next, Advances, DoCompMark;
    NextKeeps(t, CompMark(q, Clean));
    MarkActions(t, q, Clean);
    MarksFlag(t, o, q);
  }

  lemma MarksFlag(t: State, o: Order, q: nat)
    requires PgInv(t) && AtComp(t, q) && t.procs[q].ev == EventOf(o) && t.procs[q].cpc.CMark?
    ensures var u := DoCompMark(t, q, Clean);
      && WasRedisReverted(u.db, o.id) && u.procs == t.procs[q := t.procs[q].(cpc := CDone(true))] && u.redis == t.redis && u.log == t.log
      && u.db.orders == t.db.orders && u.db.avail == t.db.avail && u.db.outbox == t.db.outbox
  {
    hide PgInv;
    CompMarkedOk(t, q);
  }

  lemma LosesKey(t: State, o: Order, d: int)
    requires Back(t, o, d)
    ensures var u := Next(t, GuardLost(OrderKey(o.id)));
      && Back(u, o, d) && u.db == t.db && u.procs == t.procs && u.redis.guards == t.redis.guards - {OrderKey(o.id)}
  {
    hide PgInv, Advances;
    NextKeeps(t, GuardLost(OrderKey(o.id)));
  }

  function Again(r: nat, f: Fault): seq<Action> { [Deliver(r, 0), CompRead(r, Clean), CompCheck(r, f)] }

  /** A redelivery reaches the revert if it finds no flag, or cannot read it. */
  lemma Redelivers(t: State, o: Order, r: nat, f: Fault, d: int)
    requires Back(t, o, d) && r !in t.procs && (f.Fails? || (f.Clean? && !WasRedisReverted(t.db, o.id)))
    ensures var u := Run(t, Again(r, f)); Back(u, o, d) && AtRevert(u, o, r) && u.db == t.db && u.redis == t.redis
    ensures forall x :: x in t.procs ==> x in Run(t, Again(r, f)).procs && Run(t, Again(r, f)).procs[x] == t.procs[x]
  {
    hide Run, PgInv, DoDeliver, DoCompRead, DoCompCheck, Next, Serving, WasRedisReverted, Advances;
    var s1 := DoDeliver(t, r, 0);
    var s2 := DoCompRead(s1, r, Clean);
    RunThree(t, Deliver(r, 0), CompRead(r, Clean), CompCheck(r, f));
    RunKeeps(t, Again(r, f));
    FirstActions(t, r, Clean, 0);
    FirstActions(s1, r, Clean, 0);
    CheckActions(s2, r, f);
    DeliverServes(t, r, 0);
    QuietDelivery(t, r);
    ServingNow(s1, r, 0, o.id);
    ReadAgain(s1, r, 0, o.id);
    NotFlagged(s2, o, r, f);
  }

  lemma ServingNow(s: State, p: nat, offset: nat, i: Uuid)
    requires Serving(s, p, offset, i)
    ensures AtComp(s, p) && s.procs[p].src == FromLog(offset) && s.procs[p].ev.order == i
    ensures offset < |s.log| && s.log[offset] < |s.db.outbox| && s.procs[p].ev == s.db.outbox[s.log[offset]].payload
  {
    hide PgInv, DbInv;
    ServingFacts(s, p, offset, i);
  }

  lemma NotFlagged(t: State, o: Order, r: nat, f: Fault)
    requires AtComp(t, r) && t.procs[r].ev == EventOf(o) && t.procs[r].cpc == CCheck(o.tt)
    requires f.Fails? || (f.Clean? && !WasRedisReverted(t.db, o.id))
    ensures var u := DoCompCheck(t, r, f); AtRevert(u, o, r) && u == Put(t, r, t.procs[r].(cpc := CRevert(o.tt, false)))
  {
    hide WasRedisReverted;
  }
}
