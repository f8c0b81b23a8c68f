/**
 * Whole runs from a first deployment, one for each property the code does not have. Nothing such a
 * counterexample starts from is assumed: a booking and its commit come first.
 */
module Counterexamples {
  import opened Domain
  import opened Options
  import opened Store
  import opened Protocol
  import opened Steps
  import opened DbSafety
  import opened PgSafety
  import opened PgSteps
  import opened Guarantees
  import opened Ledger
  import opened LedgerSteps
  import opened Once
  import opened OnceSteps
  import opened Drift
  import opened Fence
  import opened Webhook
  import opened WebhookAck
  import opened Deadlines
  import opened DriftDetector
  import opened Expiry
  import opened Runtime
  import opened Scenarios

  // ---- Paid with no intent, and the payment that is dropped because of it ----

  function PaidEmpty(tt: Uuid, quantity: int, user: int, until: int, id: Uuid, clock: int, p: nat, env: Envelope): seq<Action> {
    Placed(tt, quantity, user, until, id, clock) + Opening(p, env, clock) + [HookBegin(p, Clean), HookTx(p, clock, Clean)]
  }

  /** A `succeeded` webhook with an empty intent, resolved by metadata, pays the order with it. */
  lemma PaidWithNoIntent(s: State, tt: Uuid, quantity: int, user: int, until: int, clock: int, p: nat, env: Envelope)
    requires Bookable(s, tt, quantity, user, until, clock) && until > s.now
    requires env.kind.Succeeded? && env.intent == "" && env.order == Some(s.next)
    ensures var t := Run(s, PaidEmpty(tt, quantity, user, until, s.next, clock, p, env));
      PaidWith(t.db, s.next, "") && t.procs == map[p := Hook(env, HDone(Acked), false)]
  {
    hide Bookable, Run, PgInv, Awaiting, Next, DoHookBegin, DoHookTx, PaidWith;
    var placed := Placed(tt, quantity, user, until, s.next, clock);
    var t := Run(s, placed);
    var o := Places(s, tt, quantity, user, until, clock);
    AwaitingRow(t, o, s.now);
    Opens(t, o, p, env, clock);
    RunConcat(s, placed, Opening(p, env, clock));
    RunConcat(s, placed + Opening(p, env, clock), [HookBegin(p, Clean), HookTx(p, clock, Clean)]);
    var t1 := Put(t, p, Hook(env, HReady(o), false));
    RunTwo(t1, HookBegin(p, Clean), HookTx(p, clock, Clean));
    HookEndSteps(t1, p, clock, Clean);
    Begins(t, o, p, env);
    HookEndSteps(Put(t, p, Hook(env, HPay(o, t.now), false)), p, clock, Clean);
    Pays(t, o, p, env, clock);
  }

  lemma Begins(t: State, o: Order, p: nat, env: Envelope)
    ensures DoHookBegin(Put(t, p, Hook(env, HReady(o), false)), p, Clean) == Put(t, p, Hook(env, HPay(o, t.now), false))
  {
    assert t.procs[p := Hook(env, HReady(o), false)][p := Hook(env, HPay(o, t.now), false)] == t.procs[p := Hook(env, HPay(o, t.now), false)];
  }

  lemma Pays(t: State, o: Order, p: nat, env: Envelope, clock: int)
    requires o.id in t.db.orders && t.db.orders[o.id] == o && o.status == AwaitingPayment && o.intent == None
    requires o.reservedUntil > t.now && t.procs == map[] && !IntentTaken(t.db, o.id, env.intent)
    ensures var u := DoHookTx(Put(t, p, Hook(env, HPay(o, t.now), false)), p, clock, Clean);
      PaidWith(u.db, o.id, env.intent) && u.procs == map[p := Hook(env, HDone(Acked), false)]
  {
    hide IntentTaken;
  }

  /**
   * And the next payment of that order is dropped, without any race: its `succeeded` envelope finds the
   * row Paid with an empty intent and is acknowledged, not paid, not late, with nothing in between.
   */
  lemma EmptyIntentDropsASuccess(s: State, tt: Uuid, quantity: int, user: int, until: int, clock: int, p: nat, env: Envelope, q: nat, paid: Envelope)
    requires Bookable(s, tt, quantity, user, until, clock) && until > s.now && q != p
    requires env.kind.Succeeded? && env.intent == "" && env.order == Some(s.next)
    requires paid.kind.Succeeded? && paid.intent != "" && paid.order == Some(s.next)
    ensures var first := PaidEmpty(tt, quantity, user, until, s.next, clock, p, env);
      var t, u := Run(s, first), Run(s, first + Redelivery(q, paid, s.next, clock));
      && q in u.procs && u.procs[q] == Hook(paid, HDone(Acked), false)
      && u.db == t.db && !PaidWith(u.db, s.next, paid.intent)
  {
    hide Bookable, Run, PgInv, Redelivery, DbInv, Start;
    var first := PaidEmpty(tt, quantity, user, until, s.next, clock, p, env);
    PaidWithNoIntent(s, tt, quantity, user, until, clock, p, env);
    BookableParts(s, tt, quantity, user, until, clock);
    ReachedOne(s, first);
    assert Answered(Run(s, first).db, paid, s.next);
    RedeliveryIsExact(Run(s, first), q, paid, s.next, clock);
    RunConcat(s, first, Redelivery(q, paid, s.next, clock));
  }

  // ---- A failed order whose buyer buys again ----

  /** A deployment with a legacy order in charging, and tickets for its buyer to book once more. */
  ghost predicate Rebuyable(s: State, i: Uuid, tt: Uuid, quantity: int, until: int, clock: int) {
    && Start(s) && i in s.db.orders && s.db.orders[i].status == Charging && tt in s.redis.meta && tt in s.redis.qty && tt in s.db.avail
    && s.redis.meta[tt].event == s.db.orders[i].event && s.redis.qty[tt] >= quantity && s.db.avail[tt] >= quantity
    && BookingAccepted(s.db.orders[i].user, tt, quantity)
    && Reserve(MsgOf(s, tt, quantity, s.db.orders[i].user, until), clock).Accepted?
  }

  function FailsFirst(p: nat, i: Uuid): seq<Action> { [JobRead(p, i, ForceFail), JobTx(p, Clean)] }

  lemma FirstFails(s: State, p: nat, i: Uuid)
    requires Start(s) && i in s.db.orders && s.db.orders[i].status == Charging
    ensures Run(s, FailsFirst(p, i)) == s.(db := Failing(s.db, i, Failed))
  {
    hide Run, Next, PgInv, FailTx, OrdersOk, AllConserved;
    ReachedOne(s, []);
    RunEmpty(s);
    RunTwo(s, JobRead(p, i, ForceFail), JobTx(p, Clean));
    JobSteps(s, p, i, ForceFail, Clean);
    JobSteps(Put(s, p, Job(ForceFail, s.db.orders[i])), p, i, ForceFail, Clean);
    RowFacts(s.db, s.next, i);
    FailTxKeeps(s.db, s.next, s.db.orders[i], Failed);
    assert DoJobRead(s, p, i, ForceFail) == Put(s, p, Job(ForceFail, s.db.orders[i]));
    assert s.procs[p := Job(ForceFail, s.db.orders[i])] - {p} == s.procs;
  }

  /** Of a buyer whose only order has failed the second booking is accepted. */
  lemma SecondBooks(s: State, i: Uuid, tt: Uuid, quantity: int, until: int, clock: int)
    requires Rebuyable(s, i, tt, quantity, until, clock)
    ensures var u := s.(db := Failing(s.db, i, Failed));
      Superseded(DoWorkerTx(DoBookStream(u, tt, quantity, s.db.orders[i].user, until), s.next, clock, Clean).db, i)
  {
    hide OrdersOk, AllConserved, Reaches, Reserve, BookTx;
    var first := s.db.orders[i];
    var u := s.(db := Failing(s.db, i, Failed));
    assert MsgOf(u, tt, quantity, first.user, until) == MsgOf(s, tt, quantity, first.user, until);
    OrderAwaits(s, tt, quantity, first.user, until, clock);
    var o := OrderOf(s, tt, quantity, first.user, until, clock);
    assert !UserHolds(u.db, first.user, first.event) by { OnlyBuyer(s, i); }
    FreshId(s);
    CommitsFresh(u.db, o);
    assert DoBookStream(u, tt, quantity, first.user, until).msgs[s.next] == MsgOf(s, tt, quantity, first.user, until);
    var t := Booking(u.db, o);
    assert t.orders[o.id].user == first.user && t.orders[o.id].event == first.event && t.orders[o.id].status != Failed;
  }

  lemma OnlyBuyer(s: State, i: Uuid)
    requires Start(s) && i in s.db.orders
    ensures !UserHolds(Failing(s.db, i, Failed), s.db.orders[i].user, s.db.orders[i].event)
  {
    hide OrdersOk, AllConserved;
    var b := Failing(s.db, i, Failed);
    forall j | j in b.orders && b.orders[j].user == s.db.orders[i].user && b.orders[j].event == s.db.orders[i].event
      ensures b.orders[j].status == Failed
    {}
  }

  lemma FreshId(s: State)
    requires Start(s)
    ensures s.next !in s.db.orders
  {
    hide AllConserved;
  }

  /**
   * The reconciler fails an order, its buyer books again, and the first order can never be settled: whatever
   * happens afterwards it stays Failed, its units out of Postgres, and no legal run returns them in Redis.
   */
  lemma RebuyStrandsTheFirst(s: State, i: Uuid, tt: Uuid, quantity: int, until: int, clock: int, p: nat, more: seq<Action>)
    requires Rebuyable(s, i, tt, quantity, until, clock)
    ensures var acts := FailsFirst(p, i) + Placed(tt, quantity, s.db.orders[i].user, until, s.next, clock);
      var t := Run(s, acts + more);
      && Superseded(Run(s, acts).db, i)
      && i in t.db.orders && t.db.orders[i].status == Failed && !Settled(t.db, i)
      && (LegalRun(s, acts + more) ==> i in t.ledger && t.ledger[i].early == t.ledger[i].saga == 0)
  {
    hide Run, Next, PgInv, LegalRun, Rebuyable, DoBookStream, DoWorkerTx, Superseded;
    RebuyParts(s, i, tt, quantity, until, clock);
    var user := s.db.orders[i].user;
    var acts := FailsFirst(p, i) + Placed(tt, quantity, user, until, s.next, clock);
    var u := s.(db := Failing(s.db, i, Failed));
    FirstFails(s, p, i);
    RunConcat(s, FailsFirst(p, i), Placed(tt, quantity, user, until, s.next, clock));
    RunTwo(u, BookStream(tt, quantity, user, until), WorkerTx(s.next, clock, Clean));
    StreamStep(u, tt, quantity, user, until);
    WorkerSteps(DoBookStream(u, tt, quantity, user, until), s.next, clock, Clean);
    SecondBooks(s, i, tt, quantity, until, clock);
    ReachedOne(s, acts);
    SupersededForGood(Run(s, acts), more, i);
    RunConcat(s, acts, more);
    SupersededIs(Run(s, acts + more).db, i);
    if LegalRun(s, acts + more) { ExactlyOnce(s, acts + more, i); }
  }

  lemma RebuyParts(s: State, i: Uuid, tt: Uuid, quantity: int, until: int, clock: int)
    requires Rebuyable(s, i, tt, quantity, until, clock)
    ensures Start(s) && i in s.db.orders && s.db.orders[i].status == Charging
  {}

  lemma SupersededIs(db: Db, i: Uuid)
    requires Superseded(db, i)
    ensures i in db.orders && db.orders[i].status == Failed && !Settled(db, i)
  {}

  // ---- A payment dropped by a race ----

  function Overtaken(q: nat, id: Uuid, d: nat): seq<Action> {
    [Tick(d), Find({id}, 0), JobRead(q, id, Expire)]
  }

  /** The sweeper expires the order between the webhook's read and its transaction. */
  lemma ExpiryDropsASuccess(s: State, tt: Uuid, quantity: int, user: int, until: int, clock: int, p: nat, env: Envelope, q: nat, d: nat)
    requires Bookable(s, tt, quantity, user, until, clock) && q != p && s.now + d >= until
    requires env.kind.Succeeded? && env.order == Some(s.next)
    ensures var acts := (Placed(tt, quantity, user, until, s.next, clock) + Opening(p, env, clock) + [HookBegin(p, Clean)]) + Overtaken(q, s.next, d);
      var t := Run(s, acts + [JobTx(q, Clean), HookTx(p, clock, Clean), HookRecheck(p, Clean)]);
      && p in t.procs && t.procs[p] == Hook(env, HDone(Acked), false)
      && s.next in t.db.orders && t.db.orders[s.next].status == Expired
  {
    hide Bookable, Run, PgInv, Awaiting, Next, DbInv, Start, DoFind, DoJobRead;
    var placed := Placed(tt, quantity, user, until, s.next, clock);
    var read := placed + Opening(p, env, clock) + [HookBegin(p, Clean)];
    var acts := read + Overtaken(q, s.next, d);
    var t := Run(s, placed);
    var o := Places(s, tt, quantity, user, until, clock);
    AwaitingRow(t, o, s.now);
    Opens(t, o, p, env, clock);
    RunConcat(s, placed, Opening(p, env, clock));
    RunSnoc(s, placed + Opening(p, env, clock), HookBegin(p, Clean));
    HookEndSteps(Put(t, p, Hook(env, HReady(o), false)), p, clock, Clean);
    Begins(t, o, p, env);
    RunConcat(s, read, Overtaken(q, s.next, d));
    Overtakes(Put(t, p, Hook(env, HPay(o, t.now), false)), o, q, d);
    BookableParts(s, tt, quantity, user, until, clock);
    ReachedOne(s, acts);
    ARaceDropsASuccess(Run(s, acts), p, q, o, s.now, clock);
    RunConcat(s, acts, [JobTx(q, Clean), HookTx(p, clock, Clean), HookRecheck(p, Clean)]);
  }

  lemma Overtakes(t: State, o: Order, q: nat, d: nat)
    requires o.id in t.db.orders && t.db.orders[o.id] == o && o.status == AwaitingPayment && t.now + d >= o.reservedUntil && q !in t.procs
    ensures var u := Run(t, Overtaken(q, o.id, d)); u.db == t.db && u.procs == t.procs[q := Job(Expire, o)]
  {
    hide Run, DoFind, DoJobRead, Next;
    RunThree(t, Tick(d), Find({o.id}, 0), JobRead(q, o.id, Expire));
    SweepSteps(t, d, {o.id}, 0);
    JobSteps(t, q, o.id, Expire, Clean);
    var t1 := t.(now := t.now + d);
    SweepSteps(t1, d, {o.id}, 0);
    JobSteps(t1, q, o.id, Expire, Clean);
    FindsOne(t1, o, 0);
    SweepSteps(t1.(found := t1.found + {o.id}), d, {o.id}, 0);
    JobSteps(t1.(found := t1.found + {o.id}), q, o.id, Expire, Clean);
    ReadsFound(t1.(found := t1.found + {o.id}), o, q);
  }

  lemma FindsOne(t: State, o: Order, grace: nat)
    requires o.id in t.db.orders && t.db.orders[o.id] == o && o.status == AwaitingPayment && t.now - grace >= o.reservedUntil
    ensures DoFind(t, {o.id}, grace) == t.(found := t.found + {o.id})
  {}

  lemma ReadsFound(t: State, o: Order, q: nat)
    requires o.id in t.db.orders && t.db.orders[o.id] == o && o.status == AwaitingPayment && o.id in t.found && q !in t.procs
    ensures DoJobRead(t, q, o.id, Expire) == Put(t, q, Job(Expire, o))
  {}

  // ---- A payment past the deadline ----

  function Outlasts(p: nat, id: Uuid, d: nat, grace: nat, clock: int): seq<Action> {
    [Tick(d), Find({id}, grace), HookTx(p, clock, Clean)]
  }

  /**
   * A paying transaction that began before the deadline and is still open when a sweeper finds the row,
   * whatever the grace period, pays it all the same.
   */
  lemma AnOldTransactionPays(s: State, tt: Uuid, quantity: int, user: int, until: int, clock: int, p: nat, env: Envelope, d: nat, grace: nat)
    requires Bookable(s, tt, quantity, user, until, clock) && until > s.now && s.now + d - grace >= until
    requires env.kind.Succeeded? && env.order == Some(s.next)
    ensures var begun := Placed(tt, quantity, user, until, s.next, clock) + Opening(p, env, clock) + [HookBegin(p, Clean)];
      var t := Run(s, begun + Outlasts(p, s.next, d, grace, clock));
      s.next in t.found && PastDeadline(t, s.next) && IsPaid(t.db, s.next)
  {
    hide Bookable, Run, PgInv, Awaiting, Next, DoHookBegin, DoHookTx, DoFind, PaidWith;
    var placed := Placed(tt, quantity, user, until, s.next, clock);
    var begun := placed + Opening(p, env, clock) + [HookBegin(p, Clean)];
    var t := Run(s, placed);
    var o := Places(s, tt, quantity, user, until, clock);
    AwaitingRow(t, o, s.now);
    Opens(t, o, p, env, clock);
    RunConcat(s, placed, Opening(p, env, clock));
    RunSnoc(s, placed + Opening(p, env, clock), HookBegin(p, Clean));
    HookEndSteps(Put(t, p, Hook(env, HReady(o), false)), p, clock, Clean);
    Begins(t, o, p, env);
    var u := Put(t, p, Hook(env, HPay(o, t.now), false));
    RunConcat(s, begun, Outlasts(p, s.next, d, grace, clock));
    RunThree(u, Tick(d), Find({o.id}, grace), HookTx(p, clock, Clean));
    SweepSteps(u, d, {o.id}, grace);
    SweepSteps(u.(now := u.now + d), d, {o.id}, grace);
    FindsOne(u.(now := u.now + d), o, grace);
    var v := u.(now := u.now + d, found := u.found + {o.id});
    HookEndSteps(v, p, clock, Clean);
    PaysOld(v, o, p, env, clock);
  }

  lemma PaysOld(t: State, o: Order, p: nat, env: Envelope, clock: int)
    requires o.id in t.db.orders && t.db.orders[o.id] == o && o.status == AwaitingPayment && o.intent == None && o.reservedUntil <= t.now
    requires AtHook(t, p) && t.procs[p].env == env && t.procs[p].hpc.HPay? && t.procs[p].hpc.order == o && o.reservedUntil > t.procs[p].hpc.began
    requires !IntentTaken(t.db, o.id, env.intent)
    ensures var u := DoHookTx(t, p, clock, Clean); u.found == t.found && PastDeadline(u, o.id) && IsPaid(u.db, o.id)
  {
    hide IntentTaken;
  }

  // ---- A commit under the wrong label ----

  /**
   * The sweeper's transaction commits and its reply is lost: the order is Expired with its trigger in the
   * outbox, and the label of such a row is a transition error, whatever its age.
   */
  lemma LostReplyIsMislabelled(s: State, tt: Uuid, quantity: int, user: int, until: int, clock: int, q: nat, d: nat, overAged: bool, c: RowScript)
    requires Bookable(s, tt, quantity, user, until, clock) && s.now + d >= until && c.tx.Lost?
    ensures var read := Placed(tt, quantity, user, until, s.next, clock) + Overtaken(q, s.next, d);
      var t := Run(s, read + [JobTx(q, Lost)]);
      && s.next in t.db.orders && t.db.orders[s.next].status == Expired && t.db.outbox == [OutboxRow(EventOf(t.db.orders[s.next]), false)]
      && LostCommits(Run(s, read), [JobTx(q, Lost)], q) == 1
      && forall l :: TxTells(StillAwaits(Run(s, read), q), overAged, c, l) <==> l == TransitionError
  {
    hide Bookable, Run, PgInv, Next, Awaiting, StillAwaits, IsCommit, LostCommits;
    var placed := Placed(tt, quantity, user, until, s.next, clock);
    var read := placed + Overtaken(q, s.next, d);
    var o := Places(s, tt, quantity, user, until, clock);
    AwaitingRow(Run(s, placed), o, s.now);
    RunConcat(s, placed, Overtaken(q, s.next, d));
    Overtakes(Run(s, placed), o, q, d);
    RunSnoc(s, read, JobTx(q, Lost));
    CommitMovesOneRow(Run(s, read), q, o, Lost);
    CommitsOne(Run(s, read), JobTx(q, Lost), q);
    JobAwaits(Run(s, read), q, o);
  }

  lemma JobAwaits(t: State, q: nat, o: Order)
    requires q in t.procs && t.procs[q] == Job(Expire, o) && o.id in t.db.orders && t.db.orders[o.id].status == AwaitingPayment
    ensures StillAwaits(t, q)
  {}

  // ---- Acknowledged, and refused ever after ----

  function Offered(q: nat, id: Uuid, clock: int, intent: string): seq<Action> { [PayRead(q, id, clock), PayGateway(q, intent)] }

  /** `/pay` writes its intent between a declined webhook's read and its transaction; the acknowledged envelope is refused from then on. */
  lemma PayTurnsAnAckIntoAMismatch(s: State, tt: Uuid, quantity: int, user: int, until: int, clock: int,
                                   p: nat, env: Envelope, q: nat, intent: string, r: nat)
    requires Bookable(s, tt, quantity, user, until, clock) && until > s.now && p != q && q != r && p != r
    requires env.kind.PaymentDeclined? && env.order == Some(s.next) && intent != "" && intent != env.intent
    ensures var acts := Placed(tt, quantity, user, until, s.next, clock) + Offered(q, s.next, clock, intent) + Opening(p, env, clock)
                        + [PaySet(q, clock, Clean), HookTx(p, clock, Clean)];
      var t, u := Run(s, acts), Run(s, acts + Redelivery(r, env, s.next, clock));
      && AtHook(t, p) && t.procs[p].hpc == HDone(Acked)
      && AtHook(u, r) && u.procs[r].hpc == HDone(IntentMismatch)
  {
    hide Bookable, Run, PgInv, Awaiting, Next, DbInv, Start, Redelivery, IntentTaken;
    var placed := Placed(tt, quantity, user, until, s.next, clock);
    var offered := placed + Offered(q, s.next, clock, intent);
    var read := offered + Opening(p, env, clock);
    var last := [PaySet(q, clock, Clean), HookTx(p, clock, Clean)];
    var t := Run(s, placed);
    var o := Places(s, tt, quantity, user, until, clock);
    AwaitingRow(t, o, s.now);
    RunConcat(s, placed, Offered(q, s.next, clock, intent));
    Offers(t, o, q, clock, intent);
    RunConcat(s, offered, Opening(p, env, clock));
    Opens(Run(s, offered), o, p, env, clock);
    BookableParts(s, tt, quantity, user, until, clock);
    ReachedOne(s, read);
    AckThenMismatch(Run(s, read), p, q, o, intent, clock, r);
    RunConcat(s, read, last);
    RunConcat(s, read + last, Redelivery(r, env, s.next, clock));
  }

  lemma Offers(t: State, o: Order, q: nat, clock: int, intent: string)
    requires o.id in t.db.orders && t.db.orders[o.id] == o && o.status == AwaitingPayment && o.reservedUntil > clock && o.HasPriceSnapshot()
    requires t.procs == map[] && t.gateway == map[] && intent != ""
    ensures Run(t, Offered(q, o.id, clock, intent)) == t.(gateway := map[o.id := intent], procs := map[q := Pay(o, Some(intent))])
  {
    hide Run, Next, DoPayRead, DoPayGateway;
    RunTwo(t, PayRead(q, o.id, clock), PayGateway(q, intent));
    PayOpenSteps(t, q, o.id, clock, intent);
    OfferSteps(t, o, q, clock, intent);
    PayOpenSteps(DoPayRead(t, q, o.id, clock), q, o.id, clock, intent);
  }

  lemma OfferSteps(t: State, o: Order, q: nat, clock: int, intent: string)
    requires o.id in t.db.orders && t.db.orders[o.id] == o && o.status == AwaitingPayment && o.reservedUntil > clock && o.HasPriceSnapshot()
    requires t.procs == map[] && t.gateway == map[] && intent != ""
    ensures DoPayGateway(DoPayRead(t, q, o.id, clock), q, intent) == t.(gateway := map[o.id := intent], procs := map[q := Pay(o, Some(intent))])
  {
    assert DoPayRead(t, q, o.id, clock) == Put(t, q, Pay(o, None));
  }

  // ---- A detector that reads the stores at different times ----

  /**
   * One compensation between the detector's two reads of a state without any drift, in a legal run, and
   * it reports `cache_high` whatever its tolerance.
   */
  lemma StaleReadLooksHigh(s: State, tt: Uuid, quantity: int, user: int, until: int, clock: int, p: nat, env: Envelope, q: nat, tolerance: int)
    requires Bookable(s, tt, quantity, user, until, clock) && env.kind.PaymentDeclined? && env.order == Some(s.next) && p != q
    ensures var first := Declined(tt, quantity, user, until, s.next, clock, p, env);
      var acts := first + Half(q) + [CompRevert(q, Clean)];
      var before, t := Run(s, first), Run(s, acts);
      && LegalRun(s, acts) && tt in before.db.avail && tt in before.redis.qty && before.db.avail[tt] == before.redis.qty[tt]
      && tt in t.redis.qty && Classify(before.db.avail[tt], Some(t.redis.qty[tt]), tolerance) == Some(CacheHigh)
  {
    hide Run, Next, PgInv, Bookable, Owing, Back, AtRevert, Breaches, LegalRun, WasRedisReverted, Declined;
    var first := Declined(tt, quantity, user, until, s.next, clock, p, env);
    var rest := Half(q) + [CompRevert(q, Clean)];
    var o := Declines(s, tt, quantity, user, until, clock, p, env);
    var before := Run(s, first);
    OwingStores(before, o, p);
    HalfCompensates(before, o, p, q);
    RevertsFreely(Run(before, Half(q)), o, q, quantity);
    RunSnoc(before, Half(q), CompRevert(q, Clean));
    BackStores(Run(before, rest), o, 0);
    RunConcat(s, first, rest);
    HarmlessRun(before, rest);
    BreachesAdd(s, first, rest);
    LegalIsNoBreach(s, first + rest);
    assert first + rest == first + Half(q) + [CompRevert(q, Clean)];
    UnitsPositive(s, tt, quantity, user, until, clock);
  }

  lemma OwingStores(t: State, o: Order, p: nat)
    requires Owing(t, o, p)
    ensures o.tt in t.db.avail && o.tt in t.redis.qty && t.redis.qty[o.tt] == t.db.avail[o.tt] && t.redis.guards == {}
  {}

  lemma BackStores(t: State, o: Order, d: int)
    requires Back(t, o, d)
    ensures o.tt in t.db.avail && o.tt in t.redis.qty && t.db.avail[o.tt] - t.redis.qty[o.tt] == d
  {
    hide PgInv;
  }

  lemma UnitsPositive(s: State, tt: Uuid, quantity: int, user: int, until: int, clock: int)
    requires Bookable(s, tt, quantity, user, until, clock)
    ensures quantity > 0
  {
    hide Start, Reserve;
  }
}
