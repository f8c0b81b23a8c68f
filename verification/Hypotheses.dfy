/**
 * Each hypothesis of the exactly-once theorem is needed. For every clause of `Once.Legal` there is a run
 * from a first deployment that violates that clause in one single step and leaves Redis above Postgres.
 */
module Hypotheses {
  import opened Domain
  import opened Options
  import opened Store
  import opened Protocol
  import opened Steps
  import opened DbSafety
  import opened PgSafety
  import opened PgSteps
  import opened Guarantees
  import opened Ledger
  import opened Once
  import opened Drift
  import opened Fence
  import opened Scenarios

  ghost predicate DriftIs(t: State, tt: Uuid, d: int) { tt in t.db.avail && tt in t.redis.qty && DriftOf(t, tt) == d }

  /** One step of the run is illegal, and Redis ends above Postgres by the units of one booking. */
  ghost predicate Oversells(s: State, acts: seq<Action>, tt: Uuid, quantity: int) {
    Breaches(s, acts) == 1 && DriftIs(Run(s, acts), tt, -quantity)
  }

  lemma BreachFacts(s: State, id: Uuid, clock: int)
    ensures BreachOf(s, WorkerTx(id, clock, Clean)) == if EntryKey(id) in s.redis.guards then 1 else 0
    ensures BreachOf(s, WorkerGiveUp(id, Clean)) == if id in s.db.orders then 1 else 0
    ensures BreachOf(s, GuardLost(EntryKey(id))) == if id in s.msgs then 1 else 0
  {}

  lemma BreachesThree(s: State, a: Action, b: Action, c: Action)
    ensures Breaches(s, [a, b, c]) == BreachOf(s, a) + BreachOf(Next(s, a), b) + BreachOf(Next(Next(s, a), b), c)
  {
    hide Next, BreachOf, Run;
    assert [a, b, c] == ([a] + [b]) + [c] && [] + [a] == [a];
    BreachesSnoc(s, [], a);
    BreachesSnoc(s, [a], b);
    BreachesSnoc(s, [a] + [b], c);
    RunOne(s, a);
    RunTwo(s, a, b);
    assert [a] + [b] == [a, b];
    RunEmpty(s);
    NoBreaches(s);
  }

  lemma BreachesFour(s: State, a: Action, b: Action, c: Action, d: Action)
    ensures Breaches(s, [a, b, c, d]) == Breaches(s, [a, b, c]) + BreachOf(Next(Next(Next(s, a), b), c), d)
  {
    hide Next, BreachOf, Run;
    assert [a, b, c, d] == [a, b, c] + [d];
    BreachesSnoc(s, [a, b, c], d);
    RunThree(s, a, b, c);
  }

  // ---- The worker ----

  /** The worker's commit of a message that is still queued. */
  lemma WorkerCommits(s: State, t: State, tt: Uuid, quantity: int, user: int, until: int, clock: int)
    requires Bookable(s, tt, quantity, user, until, clock) && t.db == s.db
    requires s.next in t.msgs && t.msgs[s.next] == MsgOf(s, tt, quantity, user, until)
    ensures tt in s.db.avail && DoWorkerTx(t, s.next, clock, Clean)
      == t.(db := Booking(s.db, OrderOf(s, tt, quantity, user, until, clock)))
    ensures var o := OrderOf(s, tt, quantity, user, until, clock); o.id == s.next && o.tt == tt && o.quantity == quantity
  {
    hide OrdersOk, AllConserved, Reaches, Reserve, MsgOf, UserHolds, BookTx;
    OrderAwaits(s, tt, quantity, user, until, clock);
    CommitsFresh(s.db, OrderOf(s, tt, quantity, user, until, clock));
  }

  /** The worker gives up on a queued message: its units go back and the entry's key is set. */
  lemma WorkerGivesUp(t: State, id: Uuid)
    requires id in t.msgs && id in t.ledger && EntryKey(id) !in t.redis.guards && t.msgs[id].tt in t.redis.qty
    ensures var u, tt := DoWorkerGiveUp(t, id, Clean), t.msgs[id].tt;
      && u.db == t.db && u.msgs == t.msgs && u.redis.guards == t.redis.guards + {EntryKey(id)}
      && u.redis.qty == t.redis.qty[tt := t.redis.qty[tt] + t.msgs[id].quantity]
      && id in u.ledger
  {}

  /** Acknowledgement not atomic with the commit: the entry is given up after its order was stored. */
  lemma AckMustBeAtomic(s: State, tt: Uuid, quantity: int, user: int, until: int, clock: int)
    requires Bookable(s, tt, quantity, user, until, clock)
    ensures Oversells(s, [BookStream(tt, quantity, user, until), WorkerTx(s.next, clock, Clean), WorkerGiveUp(s.next, Clean)], tt, quantity)
  {
    hide Bookable, DoBookStream, DoWorkerTx, DoWorkerGiveUp, Run, MsgOf, Reserve, Breaches, BreachOf, Next, Start;
    var a, b, c := BookStream(tt, quantity, user, until), WorkerTx(s.next, clock, Clean), WorkerGiveUp(s.next, Clean);
    var s1 := DoBookStream(s, tt, quantity, user, until);
    var s2 := DoWorkerTx(s1, s.next, clock, Clean);
    StreamBooks(s, tt, quantity, user, until, clock);
    BookableParts(s, tt, quantity, user, until, clock);
    WorkerCommits(s, s1, tt, quantity, user, until, clock);
    WorkerGivesUp(s2, s.next);
    RunThree(s, a, b, c);
    BreachesThree(s, a, b, c);
    StreamStep(s, tt, quantity, user, until);
    WorkerSteps(s1, s.next, clock, Clean);
    WorkerSteps(s2, s.next, clock, Clean);
    HarmlessIsLegal(s, a);
    BreachFacts(s1, s.next, clock);
    BreachFacts(s2, s.next, clock);
  }

  /** Giving up not atomic with the acknowledgement: the entry is committed after its units were given back. */
  lemma GiveUpMustBeAtomic(s: State, tt: Uuid, quantity: int, user: int, until: int, clock: int)
    requires Bookable(s, tt, quantity, user, until, clock)
    ensures Oversells(s, [BookStream(tt, quantity, user, until), WorkerGiveUp(s.next, Clean), WorkerTx(s.next, clock, Clean)], tt, quantity)
  {
    hide Bookable, DoBookStream, DoWorkerTx, DoWorkerGiveUp, Run, MsgOf, Reserve, Breaches, BreachOf, Next, Start;
    var a, b, c := BookStream(tt, quantity, user, until), WorkerGiveUp(s.next, Clean), WorkerTx(s.next, clock, Clean);
    var s1 := DoBookStream(s, tt, quantity, user, until);
    var s2 := DoWorkerGiveUp(s1, s.next, Clean);
    StreamBooks(s, tt, quantity, user, until, clock);
    BookableParts(s, tt, quantity, user, until, clock);
    WorkerGivesUp(s1, s.next);
    WorkerCommits(s, s2, tt, quantity, user, until, clock);
    RunThree(s, a, b, c);
    BreachesThree(s, a, b, c);
    StreamStep(s, tt, quantity, user, until);
    WorkerSteps(s1, s.next, clock, Clean);
    WorkerSteps(s2, s.next, clock, Clean);
    HarmlessIsLegal(s, a);
    BreachFacts(s1, s.next, clock);
    BreachFacts(s2, s.next, clock);
  }

  /** The entry's key lost while the entry is queued: it is given up, and its units go back, twice. */
  lemma EntryKeyMustLast(s: State, tt: Uuid, quantity: int, user: int, until: int, clock: int)
    requires Bookable(s, tt, quantity, user, until, clock)
    ensures Oversells(s, [BookStream(tt, quantity, user, until), WorkerGiveUp(s.next, Clean), GuardLost(EntryKey(s.next)), WorkerGiveUp(s.next, Clean)],
                      tt, quantity)
  {
    hide Bookable, DoBookStream, DoWorkerTx, DoWorkerGiveUp, Run, MsgOf, Reserve, Breaches, BreachOf, Next, Start;
    var a, b, c := BookStream(tt, quantity, user, until), WorkerGiveUp(s.next, Clean), GuardLost(EntryKey(s.next));
    var s1 := DoBookStream(s, tt, quantity, user, until);
    var s2 := DoWorkerGiveUp(s1, s.next, Clean);
    var s3 := DoGuardLost(s2, EntryKey(s.next));
    StreamBooks(s, tt, quantity, user, until, clock);
    BookableParts(s, tt, quantity, user, until, clock);
    MsgUnits(s, tt, quantity, user, until);
    WorkerGivesUp(s1, s.next);
    WorkerGivesUp(s3, s.next);
    RunFour(s, a, b, c, b);
    BreachesThree(s, a, b, c);
    BreachesFour(s, a, b, c, b);
    StreamStep(s, tt, quantity, user, until);
    WorkerSteps(s1, s.next, clock, Clean);
    GuardStep(s2, EntryKey(s.next));
    WorkerSteps(s3, s.next, clock, Clean);
    HarmlessIsLegal(s, a);
    BreachFacts(s1, s.next, clock);
    BreachFacts(s2, s.next, clock);
    BreachFacts(s3, s.next, clock);
  }

  // ---- The Stage 5 intake ----

  /** A publish that fails although the message was stored: the units are given back and then sold. */
  lemma PublishMustBeDefinite(s: State, p: nat, tt: Uuid, quantity: int, user: int, until: int, clock: int)
    requires Bookable(s, tt, quantity, user, until, clock)
    ensures Oversells(s, [KafkaDeduct(p, tt, quantity, user, until, Clean), KafkaPublish(p, Lost), KafkaRevert(p, Clean),
                          WorkerTx(s.next, clock, Clean)], tt, quantity)
  {
    hide Bookable, DoKafkaDeduct, DoKafkaPublish, DoKafkaRevert, DoWorkerTx, Run, MsgOf, Reserve, Breaches, BreachOf, Next, Start;
    var a, b, c, d := KafkaDeduct(p, tt, quantity, user, until, Clean), KafkaPublish(p, Lost), KafkaRevert(p, Clean), WorkerTx(s.next, clock, Clean);
    var s1 := DoKafkaDeduct(s, p, tt, quantity, user, until, Clean);
    var s2 := DoKafkaPublish(s1, p, Lost);
    var s3 := DoKafkaRevert(s2, p, Clean);
    KafkaHolds(s, p, tt, quantity, user, until, clock);
    BookableParts(s, tt, quantity, user, until, clock);
    MsgUnits(s, tt, quantity, user, until);
    PublishedAndTakenBack(s1, p, MsgOf(s, tt, quantity, user, until));
    WorkerCommits(s, s3, tt, quantity, user, until, clock);
    RunFour(s, a, b, c, d);
    BreachesThree(s, a, b, c);
    BreachesFour(s, a, b, c, d);
    DeductStep(s, p, tt, quantity, user, until, Clean);
    PublishSteps(s, p, Lost);
    PublishSteps(s, p, Clean);
    DeductStep(s1, p, tt, quantity, user, until, Clean);
    PublishSteps(s1, p, Lost);
    PublishSteps(s1, p, Clean);
    DeductStep(s2, p, tt, quantity, user, until, Clean);
    PublishSteps(s2, p, Lost);
    PublishSteps(s2, p, Clean);
    WorkerSteps(s3, s.next, clock, Clean);
    HarmlessIsLegal(s, a);
    LostPublishBreaches(s1, p);
    HarmlessIsLegal(s2, c);
    BreachFacts(s3, s.next, clock);
  }

  lemma LostPublishBreaches(s: State, p: nat)
    ensures BreachOf(s, KafkaPublish(p, Lost)) == 1
  {}

  lemma PublishedAndTakenBack(s: State, p: nat, m: Msg)
    requires p in s.procs && s.procs[p] == Intake(m, false) && m.id in s.ledger && m.tt in s.redis.qty && s.redis.guards == {}
    ensures var t := DoKafkaRevert(DoKafkaPublish(s, p, Lost), p, Clean);
      && t.db == s.db && m.id in t.msgs && t.msgs[m.id] == m && t.redis.guards == {IntakeKey(m.id)}
      && t.redis.qty == s.redis.qty[m.tt := s.redis.qty[m.tt] + m.quantity]
  {
    var s1 := DoKafkaPublish(s, p, Lost);
    assert s1.procs[p] == Intake(m, true) && s1.msgs[m.id] == m && s1.redis == s.redis && s1.db == s.db;
  }

  /** Outside writes to Redis: a counter raised by one is a drift of minus one. */
  lemma NobodyElseMayWrite(s: State, tt: Uuid, quantity: int, user: int, until: int, clock: int)
    requires Bookable(s, tt, quantity, user, until, clock)
    ensures tt in s.redis.qty &&
      Oversells(s, [Chaos(s.redis.(qty := s.redis.qty[tt := s.redis.qty[tt] + 1]), s.msgs, s.next)], tt, 1)
  {
    hide Bookable, Run, MsgOf, Reserve, Breaches, BreachOf, Start;
    StreamBooks(s, tt, quantity, user, until, clock);
    BookableParts(s, tt, quantity, user, until, clock);
    var a := Chaos(s.redis.(qty := s.redis.qty[tt := s.redis.qty[tt] + 1]), s.msgs, s.next);
    NoMessages(s);
    RunOne(s, a);
    BreachesSnoc(s, [], a);
    assert [] + [a] == [a];
    RunEmpty(s);
    NoBreaches(s);
    ChaosBreaches(s, a);
  }

  lemma NoMessages(s: State)
    requires Start(s)
    ensures s.msgs == map[]
  {
    hide OrdersOk, AllConserved;
  }

  lemma ChaosBreaches(s: State, a: Action)
    requires a.Chaos?
    ensures BreachOf(s, a) == 1
  {}

  // ---- The compensator's two fences ----

  lemma Join(s: State, a: seq<Action>, b: seq<Action>)
    ensures Run(s, a + b) == Run(Run(s, a), b) && Breaches(s, a + b) == Breaches(s, a) + Breaches(Run(s, a), b)
  {
    RunConcat(s, a, b);
    BreachesAdd(s, a, b);
  }

  lemma OneStep(s: State, a: Action)
    ensures Run(s, [a]) == Next(s, a) && Breaches(s, [a]) == BreachOf(s, a)
  {
    hide Run, BreachOf, Next;
    RunOne(s, a);
    assert [] + [a] == [a];
    BreachesSnoc(s, [], a);
    RunEmpty(s);
    NoBreaches(s);
  }

  lemma KeyBreach(t: State, i: Uuid)
    ensures BreachOf(t, GuardLost(OrderKey(i))) == if WasRedisReverted(t.db, i) && !Reverting(t, i) then 0 else 1
  {
    hide Reverting, WasRedisReverted;
  }

  lemma CheckBreach(t: State, r: nat)
    requires AtComp(t, r) && OrderKey(t.procs[r].ev.order) !in t.redis.guards && WasRedisReverted(t.db, t.procs[r].ev.order)
    ensures BreachOf(t, CompCheck(r, Fails)) == 1
  {
    hide WasRedisReverted;
  }

  /** The rest of call `q`, and then the guard key expires. */
  function Rest(q: nat, i: Uuid): seq<Action> { [CompRevert(q, Clean), CompMark(q, Clean), GuardLost(OrderKey(i))] }

  /** Call `q` has reverted and recorded it, and the key is gone again. */
  ghost predicate Rested(t: State, u: State, o: Order, q: nat, d: int) {
    && Back(u, o, d) && OrderKey(o.id) !in u.redis.guards && WasRedisReverted(u.db, o.id)
    && q in u.procs && u.procs == t.procs[q := u.procs[q]] && u.procs[q].Comp? && !u.procs[q].cpc.CRevert?
  }

  lemma RestRuns(t: State, o: Order, q: nat, d: int)
    requires Back(t, o, d) && AtRevert(t, o, q) && OrderKey(o.id) !in t.redis.guards
    ensures Rested(t, Run(t, Rest(q, o.id)), o, q, d - o.quantity)
    ensures Breaches(t, Rest(q, o.id)) == if Reverting(Drop(t, q), o.id) then 1 else 0
  {
    hide Run, Next, Back, BreachOf, WasRedisReverted, Breaches, Reverting, PgInv;
    var a, b, c := CompRevert(q, Clean), CompMark(q, Clean), GuardLost(OrderKey(o.id));
    var t1 := Next(t, a);
    var t2 := Next(t1, b);
    RevertsFreely(t, o, q, d);
    Marks(t1, o, q, d - o.quantity);
    LosesKey(t2, o, d - o.quantity);
    RunThree(t, a, b, c);
    BreachesThree(t, a, b, c);
    HarmlessIsLegal(t, a);
    HarmlessIsLegal(t1, b);
    KeyBreach(t2, o.id);
    DoneIsNotReverting(t, t2, q, o.id);
  }

  lemma DoneIsNotReverting(t: State, u: State, q: nat, i: Uuid)
    requires q in u.procs && u.procs == t.procs[q := u.procs[q]] && u.procs[q].Comp? && !u.procs[q].cpc.CRevert?
    ensures Reverting(u, i) <==> Reverting(Drop(t, q), i)
  {
    if Reverting(u, i) {
      var p :| p in u.procs && u.procs[p].Comp? && u.procs[p].cpc.CRevert? && u.procs[p].ev.order == i;
      assert p in Drop(t, q).procs && Drop(t, q).procs[p] == u.procs[p];
    }
    if Reverting(Drop(t, q), i) {
      var p :| p in Drop(t, q).procs && Drop(t, q).procs[p].Comp? && Drop(t, q).procs[p].cpc.CRevert? && Drop(t, q).procs[p].ev.order == i;
      assert p in u.procs && u.procs[p] == Drop(t, q).procs[p];
    }
  }

  lemma DriftOfBack(t: State, o: Order, d: int)
    requires Back(t, o, d)
    ensures DriftIs(t, o.tt, d)
  {
    hide PgInv;
  }

  /** The guard key has rightly expired, and then the committed flag cannot be read. */
  lemma FlagMustBeReadable(s: State, tt: Uuid, quantity: int, user: int, until: int, clock: int, p: nat, env: Envelope, q: nat, r: nat)
    requires Bookable(s, tt, quantity, user, until, clock) && env.kind.PaymentDeclined? && env.order == Some(s.next) && p != q && q != r && p != r
    ensures Oversells(s, Declined(tt, quantity, user, until, s.next, clock, p, env) + Half(q) + Rest(q, s.next) + Again(r, Fails) + [CompRevert(r, Clean)],
                      tt, quantity)
  {
    hide Run, Next, PgInv, Bookable, Owing, Back, AtRevert, BreachOf, Breaches, WasRedisReverted, Rest, Again, Half, Declined, Reverting, DriftIs, Harmless;
    var a := Declined(tt, quantity, user, until, s.next, clock, p, env);
    var o := Declines(s, tt, quantity, user, until, clock, p, env);
    Join(s, a, Half(q));
    HalfRuns(Run(s, a), o, p, q);
    var t := Run(s, a + Half(q));
    Join(s, a + Half(q), Rest(q, s.next));
    RestRuns(t, o, q, quantity);
    OnlyHook(t, p, q, s.next);
    var u := Run(t, Rest(q, s.next));
    Join(s, a + Half(q) + Rest(q, s.next), Again(r, Fails));
    Redelivers(u, o, r, Fails, 0);
    UnreadableBreaches(u, o, r);
    RevertsLast(s, a + Half(q) + Rest(q, s.next) + Again(r, Fails), o, r, 0);
  }

  lemma HalfRuns(t: State, o: Order, p: nat, q: nat)
    requires PgInv(t) && Owing(t, o, p) && q != p
    ensures var u := Run(t, Half(q));
      && Back(u, o, o.quantity) && AtRevert(u, o, q) && u.procs.Keys == {p, q} && u.procs[p].Hook? && OrderKey(o.id) !in u.redis.guards
      && !WasRedisReverted(u.db, o.id) && Breaches(t, Half(q)) == 0
  {
    hide Run, PgInv, Back, AtRevert, WasRedisReverted, Breaches;
    HalfCompensates(t, o, p, q);
    HarmlessRun(t, Half(q));
  }

  lemma OnlyHook(t: State, p: nat, q: nat, i: Uuid)
    requires p in t.procs && t.procs.Keys == {p, q} && t.procs[p].Hook?
    ensures !Reverting(Drop(t, q), i)
  {}

  lemma UnreadableBreaches(u: State, o: Order, r: nat)
    requires Back(u, o, 0) && r !in u.procs && OrderKey(o.id) !in u.redis.guards && WasRedisReverted(u.db, o.id)
    ensures Breaches(u, Again(r, Fails)) == 1
  {
    hide Run, Next, PgInv, BreachOf, WasRedisReverted, Breaches, Harmless, DoDeliver, DoCompRead, Serving;
    var a, b, c := Deliver(r, 0), CompRead(r, Clean), CompCheck(r, Fails);
    BreachesThree(u, a, b, c);
    HarmlessAgain(r);
    HarmlessIsLegal(u, a);
    HarmlessIsLegal(Next(u, a), b);
    FirstActions(u, r, Clean, 0);
    FirstActions(DoDeliver(u, r, 0), r, Clean, 0);
    DeliverServes(u, r, 0);
    QuietDelivery(u, r);
    ServingNow(DoDeliver(u, r, 0), r, 0, o.id);
    ReadAgain(DoDeliver(u, r, 0), r, 0, o.id);
    CheckBreach(DoCompRead(DoDeliver(u, r, 0), r, Clean), r);
  }

  lemma HarmlessAgain(r: nat)
    ensures Harmless(Deliver(r, 0)) && Harmless(CompRead(r, Clean)) && Harmless(CompRevert(r, Clean)) && Harmless(CompCheck(r, Clean))
  {}

  lemma RevertsLast(s: State, acts: seq<Action>, o: Order, r: nat, d: int)
    requires Back(Run(s, acts), o, d) && AtRevert(Run(s, acts), o, r) && OrderKey(o.id) !in Run(s, acts).redis.guards
    requires Breaches(s, acts) == 1 && d == 0
    ensures Oversells(s, acts + [CompRevert(r, Clean)], o.tt, o.quantity)
  {
    hide Run, Next, PgInv, Back, AtRevert, BreachOf, Breaches, DriftIs, Harmless;
    Join(s, acts, [CompRevert(r, Clean)]);
    OneStep(Run(s, acts), CompRevert(r, Clean));
    HarmlessAgain(r);
    HarmlessIsLegal(Run(s, acts), CompRevert(r, Clean));
    RevertsFreely(Run(s, acts), o, r, d);
    DriftOfBack(Next(Run(s, acts), CompRevert(r, Clean)), o, d - o.quantity);
  }

  /** The guard key expires before the flag is committed: the crashed call is delivered again. */
  lemma OrderKeyMustLast(s: State, tt: Uuid, quantity: int, user: int, until: int, clock: int, p: nat, env: Envelope, q: nat, r: nat)
    requires Bookable(s, tt, quantity, user, until, clock) && env.kind.PaymentDeclined? && env.order == Some(s.next) && p != q && q != r && p != r
    ensures Oversells(s, Declined(tt, quantity, user, until, s.next, clock, p, env) + Half(q) + [CompRevert(q, Clean), GuardLost(OrderKey(s.next))]
                         + Again(r, Clean) + [CompRevert(r, Clean)], tt, quantity)
  {
    hide Run, Next, PgInv, Bookable, Owing, Back, AtRevert, BreachOf, Breaches, WasRedisReverted, Again, Half, Declined, Reverting, DriftIs, Harmless;
    var a := Declined(tt, quantity, user, until, s.next, clock, p, env);
    var early := [CompRevert(q, Clean), GuardLost(OrderKey(s.next))];
    var o := Declines(s, tt, quantity, user, until, clock, p, env);
    Join(s, a, Half(q));
    HalfRuns(Run(s, a), o, p, q);
    var t := Run(s, a + Half(q));
    Join(s, a + Half(q), early);
    LosesEarly(t, o, q, quantity);
    Join(s, a + Half(q) + early, Again(r, Clean));
    Redelivers(Run(t, early), o, r, Clean, 0);
    AgainIsLegal(Run(t, early), r);
    RevertsLast(s, a + Half(q) + early + Again(r, Clean), o, r, 0);
  }

  lemma AgainIsLegal(t: State, r: nat)
    ensures Breaches(t, Again(r, Clean)) == 0
  {
    HarmlessRun(t, Again(r, Clean));
  }

  lemma LosesEarly(t: State, o: Order, q: nat, d: int)
    requires Back(t, o, d) && AtRevert(t, o, q) && OrderKey(o.id) !in t.redis.guards && !WasRedisReverted(t.db, o.id)
    ensures var early := [CompRevert(q, Clean), GuardLost(OrderKey(o.id))]; var u := Run(t, early);
      && Back(u, o, d - o.quantity) && OrderKey(o.id) !in u.redis.guards && !WasRedisReverted(u.db, o.id) && u.procs.Keys == t.procs.Keys
      && Breaches(t, early) == 1
  {
    hide Run, Next, Back, BreachOf, WasRedisReverted, Breaches, Reverting, PgInv, Harmless;
    var a, b := CompRevert(q, Clean), GuardLost(OrderKey(o.id));
    assert [a, b] == [a] + [b];
    Join(t, [a], [b]);
    OneStep(t, a);
    OneStep(Next(t, a), b);
    HarmlessAgain(q);
    HarmlessIsLegal(t, a);
    RevertsFreely(t, o, q, d);
    LosesKey(Next(t, a), o, d - o.quantity);
    KeyBreach(Next(t, a), o.id);
  }

  /** The guard key expires with the flag committed, but while a second call is already past it. */
  lemma NoCallMayBePastTheFlag(s: State, tt: Uuid, quantity: int, user: int, until: int, clock: int, p: nat, env: Envelope, q: nat, r: nat)
    requires Bookable(s, tt, quantity, user, until, clock) && env.kind.PaymentDeclined? && env.order == Some(s.next) && p != q && q != r && p != r
    ensures Oversells(s, Declined(tt, quantity, user, until, s.next, clock, p, env) + Half(q) + Again(r, Clean) + Rest(q, s.next) + [CompRevert(r, Clean)],
                      tt, quantity)
  {
    hide Run, Next, PgInv, Bookable, Owing, Back, AtRevert, BreachOf, Breaches, WasRedisReverted, Rest, Again, Half, Declined, Reverting, DriftIs, Harmless;
    var a := Declined(tt, quantity, user, until, s.next, clock, p, env);
    var o := Declines(s, tt, quantity, user, until, clock, p, env);
    Join(s, a, Half(q));
    HalfRuns(Run(s, a), o, p, q);
    var t := Run(s, a + Half(q));
    Join(s, a + Half(q), Again(r, Clean));
    Redelivers(t, o, r, Clean, quantity);
    AgainIsLegal(t, r);
    var u := Run(t, Again(r, Clean));
    StaysAtRevert(t, u, o, q);
    Join(s, a + Half(q) + Again(r, Clean), Rest(q, s.next));
    RestRuns(u, o, q, quantity);
    PastTheFlag(u, o, q, r);
    assert r in u.procs by { StillThere(u, o, r); }
    StaysAtRevert(u, Run(u, Rest(q, s.next)), o, r);
    RevertsLast(s, a + Half(q) + Again(r, Clean) + Rest(q, s.next), o, r, 0);
  }

  lemma StaysAtRevert(t: State, u: State, o: Order, q: nat)
    requires AtRevert(t, o, q) && q in u.procs && u.procs[q] == t.procs[q]
    ensures AtRevert(u, o, q)
  {}

  lemma StillThere(t: State, o: Order, r: nat)
    requires AtRevert(t, o, r)
    ensures r in t.procs
  {}

  lemma PastTheFlag(t: State, o: Order, q: nat, r: nat)
    requires AtRevert(t, o, r) && r != q
    ensures Reverting(Drop(t, q), o.id)
  {
    assert r in Drop(t, q).procs && Drop(t, q).procs[r] == t.procs[r];
  }
}
