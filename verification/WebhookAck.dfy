/** What an acknowledgement means, and exactly when a redelivery is answered the same way. */
module WebhookAck {
  import opened Domain
  import opened Options
  import opened Store
  import opened Protocol
  import opened Steps
  import opened DbSafety
  import opened PgSafety
  import opened PgSteps
  import opened Guarantees
  import opened Fence
  import opened Webhook

  /** Step `a` is the one with which call `p` returns nil, in the matching live mode. */
  ghost predicate Acknowledges(s: State, a: Action, p: nat) {
    && PgInv(s) && AtHook(s, p) && OwnStep(a, p) && !s.procs[p].hpc.HDone?
    && AtHook(Next(s, a), p) && Next(s, a).procs[p].hpc == HDone(Acked)
  }

  ghost predicate AckedBy(s: State, t: State, p: nat) {
    AtHook(s, p) && AtHook(t, p) && !s.procs[p].hpc.HDone? && t.procs[p].hpc == HDone(Acked)
  }

  /** The order the call is working on. */
  function Target(pc: HookPc): Uuid {
    match pc
    case HRead(id, _) => id
    case HReady(o) => o.id
    case HPay(o, _) => o.id
    case HLate(o) => o.id
    case HFail(o) => o.id
    case HRecheck(id) => id
    case _ => NIL
  }

  lemma AckVerdict(env: Envelope, o: Order, clock: int)
    requires Dispatch(env, o, ByMetadata(env), clock) == Finish(Acked) && !env.kind.Unsupported?
    ensures IsTerminalForWebhook(o.status) && Agrees(env, o) && (env.kind.Succeeded? ==> o.status == Paid)
  {}

  lemma ReadOutcome(s: State, clock: int, f: Fault, p: nat)
    requires AckedBy(s, DoHookRead(s, p, clock, f), p)
    ensures s.procs[p].hpc.HRead? && s.procs[p].hpc.id in s.db.orders && DoHookRead(s, p, clock, f).db == s.db
    ensures Dispatch(s.procs[p].env, s.db.orders[s.procs[p].hpc.id], s.procs[p].hpc.metadata, clock) == Finish(Acked)
  {
    hide Dispatch;
  }

  lemma ReadAcks(s: State, clock: int, f: Fault, p: nat)
    requires PgInv(s) && AckedBy(s, DoHookRead(s, p, clock, f), p) && !s.procs[p].env.kind.Unsupported?
    ensures Answered(s.db, s.procs[p].env, Target(s.procs[p].hpc)) && s.procs[p].hpc.HRead?
    ensures s.procs[p].env.kind.Succeeded? ==> s.db.orders[Target(s.procs[p].hpc)].status == Paid
    ensures Agrees(s.procs[p].env, s.db.orders[Target(s.procs[p].hpc)]) && DoHookRead(s, p, clock, f).db == s.db
  {
    hide PgInv, Dispatch, Names, Agrees, DoHookRead;
    ProcFact(s, p);
    ReadOutcome(s, clock, f, p);
    AckVerdict(s.procs[p].env, s.db.orders[s.procs[p].hpc.id], clock);
  }

  lemma RecheckAcks(s: State, f: Fault, p: nat)
    requires PgInv(s) && AckedBy(s, DoHookRecheck(s, p, f), p)
    ensures Answered(s.db, s.procs[p].env, Target(s.procs[p].hpc)) && s.procs[p].hpc.HRecheck?
    ensures DoHookRecheck(s, p, f).db == s.db
  {
    hide PgInv;
    ProcFact(s, p);
  }

  lemma FailAcks(s: State, p: nat, o: Order, to: Status, f: Fault)
    requires AtHook(s, p) && IsFailure(to) && AckedBy(s, HookOutcome(s, p, FailTx(s.db, o, to), o.id, f), p)
    ensures var db := HookOutcome(s, p, FailTx(s.db, o, to), o.id, f).db; o.id in db.orders && db.orders[o.id].status == to
  {
    hide FailTx;
    FailTxMarks(s.db, o, to);
  }

  lemma FailTxMarks(db: Db, o: Order, to: Status)
    requires FailTx(db, o, to).error == Ok
    ensures var r := FailTx(db, o, to); o.id in r.db.orders && r.db.orders[o.id].status == to
  {}

  lemma PayOutcome(s: State, p: nat, o: Order, began: int, clock: int, f: Fault)
    requires AtHook(s, p) && s.procs[p].hpc == HPay(o, began) && AckedBy(s, DoHookTx(s, p, clock, f), p)
    ensures var r := PayTx(s.db, o, s.procs[p].env.intent, began, clock); r.error == Ok && DoHookTx(s, p, clock, f).db == r.db
  {
    hide PayTx;
  }

  lemma PayAcks(s: State, p: nat, o: Order, began: int, clock: int, f: Fault)
    requires PgInv(s) && AtHook(s, p) && s.procs[p].hpc == HPay(o, began) && AckedBy(s, DoHookTx(s, p, clock, f), p)
    ensures var db := DoHookTx(s, p, clock, f).db;
      && o.id in db.orders && db.orders[o.id].status == Paid && db.orders[o.id].intent == Some(s.procs[p].env.intent)
  {
    hide PgInv, PayTx, DoHookTx;
    ProcFact(s, p);
    PayOutcome(s, p, o, began, clock, f);
    PayTxPays(s.db, o, s.procs[p].env.intent, began, clock);
  }

  lemma TxAcks(s: State, clock: int, f: Fault, p: nat)
    requires PgInv(s) && AckedBy(s, DoHookTx(s, p, clock, f), p)
    ensures Answered(DoHookTx(s, p, clock, f).db, s.procs[p].env, Target(s.procs[p].hpc))
    ensures s.procs[p].hpc.HPay? ==>
      var o := DoHookTx(s, p, clock, f).db.orders[Target(s.procs[p].hpc)]; o.status == Paid && o.intent == Some(s.procs[p].env.intent)
    ensures s.procs[p].hpc.HPay? || s.procs[p].hpc.HLate? || s.procs[p].hpc.HFail?
  {
    hide PgInv, DbInv, PayTx, FailTx, Names, HookOutcome, DoHookTx;
    var t := DoHookTx(s, p, clock, f);
    HookTxKeeps(s, p, clock, f);
    ProcFact(s, p);
    TxTarget(s, clock, f, p);
    NamesStable(s.db, t.db, s.procs[p].env, Target(s.procs[p].hpc));
    match s.procs[p].hpc {
      case HPay(o, began) => PayAcks(s, p, o, began, clock, f);
      case HLate(o) => LateFact(s, p, o, clock, f); FailAcks(s, p, o, Expired, f);
      case HFail(o) => LateFact(s, p, o, clock, f); FailAcks(s, p, o, PaymentFailed, f);
      case _ =>
    }
  }

  lemma LateFact(s: State, p: nat, o: Order, clock: int, f: Fault)
    requires AtHook(s, p)
    ensures s.procs[p].hpc == HLate(o) ==> DoHookTx(s, p, clock, f) == HookOutcome(s, p, FailTx(s.db, o, Expired), o.id, f)
    ensures s.procs[p].hpc == HFail(o) ==> DoHookTx(s, p, clock, f) == HookOutcome(s, p, FailTx(s.db, o, PaymentFailed), o.id, f)
  {}

  lemma TxTarget(s: State, clock: int, f: Fault, p: nat)
    requires PgInv(s) && AckedBy(s, DoHookTx(s, p, clock, f), p)
    ensures s.procs[p].hpc.HPay? || s.procs[p].hpc.HLate? || s.procs[p].hpc.HFail?
    ensures Names(s.db, s.procs[p].env, Target(s.procs[p].hpc))
  {
    hide PgInv, PayTx, FailTx, Names, HookOutcome, GotoLate;
    ProcFact(s, p);
  }

  lemma ResolveNeverAcks(s: State, hit: Option<Uuid>, f: Fault, p: nat)
    ensures !AckedBy(s, DoHookResolve(s, p, hit, f), p)
  {
    hide FindsIntent;
  }

  lemma BeginNeverAcks(s: State, f: Fault, p: nat)
    ensures !AckedBy(s, DoHookBegin(s, p, f), p)
  {}

  /** A nil return for a `succeeded` or `payment_failed` envelope means payment of its order is over. */
  lemma AckMeansAnswered(s: State, a: Action, p: nat)
    requires Acknowledges(s, a, p) && !s.procs[p].env.kind.Unsupported?
    ensures Answered(Next(s, a).db, s.procs[p].env, Target(s.procs[p].hpc))
  {
    hide PgInv, Answered, Names, Target, DoHookRead, DoHookBegin, DoHookTx, DoHookResolve, DoHookRecheck;
    match a {
      case HookResolve(_, hit, f) => ResolveNeverAcks(s, hit, f, p);
      case HookRead(_, clock, f) => ReadAcks(s, clock, f, p);
      case HookBegin(_, f) => BeginNeverAcks(s, f, p);
      case HookTx(_, clock, f) => TxAcks(s, clock, f, p);
      case HookRecheck(_, f) => RecheckAcks(s, f, p);
      case _ =>
    }
  }

  /**
   * Acknowledged once, answered for good: any later redelivery `q`, started after any further run
   * `b`, stays quiet, provided the row does not carry somebody else's intent by then.
   */
  lemma AckIsForGood(s: State, a: Action, p: nat, b: seq<Action>, q: nat)
    requires Acknowledges(s, a, p) && !s.procs[p].env.kind.Unsupported?
    requires var t := Run(Next(s, a), b);
      q !in t.procs && Target(s.procs[p].hpc) in t.db.orders && Agrees(s.procs[p].env, t.db.orders[Target(s.procs[p].hpc)])
    ensures var env := s.procs[p].env; Quiet(Next(Run(Next(s, a), b), HookStart(q, env, env.live)), q, env, Target(s.procs[p].hpc))
  {
    hide PgInv, Answered, Agrees, Next, Advances, Target, Run;
    AckPart(s, a, p);
    AckMeansAnswered(s, a, p);
    NextKeeps(s, a);
    RunKeeps(Next(s, a), b);
    OrdersPart(Next(s, a), Run(Next(s, a), b));
    AnsweredStays(Next(s, a).db, Run(Next(s, a), b).db, s.procs[p].env, Target(s.procs[p].hpc));
    StartsQuiet(Run(Next(s, a), b), q, s.procs[p].env, Target(s.procs[p].hpc));
  }

  lemma AckPart(s: State, a: Action, p: nat)
    requires Acknowledges(s, a, p)
    ensures PgInv(s)
  {}

  lemma StartsQuiet(s: State, q: nat, env: Envelope, id: Uuid)
    requires PgInv(s) && Answered(s.db, env, id) && Agrees(env, s.db.orders[id]) && q !in s.procs
    ensures Quiet(Next(s, HookStart(q, env, env.live)), q, env, id)
  {
    hide PgInv, Advances, Agrees, Names;
    NextKeeps(s, HookStart(q, env, env.live));
  }

  // ---- The exact condition ----

  /** One delivery from start to end, undisturbed. */
  function Redelivery(q: nat, env: Envelope, id: Uuid, clock: int): seq<Action> {
    [HookStart(q, env, env.live), HookResolve(q, Some(id), Clean), HookRead(q, clock, Clean), HookBegin(q, Clean),
     HookTx(q, clock, Clean), HookRecheck(q, Clean)]
  }

  function Redelivered(s: State, q: nat, env: Envelope, id: Uuid, clock: int): State {
    DoHookRecheck(DoHookTx(DoHookBegin(DoHookRead(DoHookResolve(DoHookStart(s, q, env, env.live), q, Some(id), Clean), q, clock, Clean),
                                       q, Clean), q, clock, Clean), q, Clean)
  }

  lemma RedeliveryRun(s: State, q: nat, env: Envelope, id: Uuid, clock: int)
    ensures Run(s, Redelivery(q, env, id, clock)) == Redelivered(s, q, env, id, clock)
  {
    hide DoHookStart, DoHookResolve, DoHookRead, DoHookBegin, DoHookTx, DoHookRecheck, Next, Run;
    var d := Redelivery(q, env, id, clock);
    assert d == [d[0], d[1], d[2], d[3]] + [d[4], d[5]];
    RunConcat(s, [d[0], d[1], d[2], d[3]], [d[4], d[5]]);
    RunFour(s, d[0], d[1], d[2], d[3]);
    var s1 := DoHookStart(s, q, env, env.live);
    var s2 := DoHookResolve(s1, q, Some(id), Clean);
    var s3 := DoHookRead(s2, q, clock, Clean);
    var s4 := DoHookBegin(s3, q, Clean);
    var s5 := DoHookTx(s4, q, clock, Clean);
    HookStartStep(s, q, env, env.live);
    HookReadSteps(s, q, Some(id), clock, Clean);
    HookStartStep(s1, q, env, env.live);
    HookReadSteps(s1, q, Some(id), clock, Clean);
    HookStartStep(s2, q, env, env.live);
    HookReadSteps(s2, q, Some(id), clock, Clean);
    HookEndSteps(s3, q, clock, Clean);
    HookEndSteps(s4, q, clock, Clean);
    HookEndSteps(s5, q, clock, Clean);
    RunTwo(s4, d[4], d[5]);
  }

  /** A `succeeded` envelope for an order that failed instead. */
  predicate ReportsLate(env: Envelope, o: Order) {
    Agrees(env, o) && env.kind.Succeeded? && IsFailureTerminalAfterPay(o.status)
  }

  lemma AnsweredVerdict(env: Envelope, o: Order, clock: int)
    requires IsTerminalForWebhook(o.status)
    ensures Dispatch(env, o, ByMetadata(env), clock)
      == if !Agrees(env, o) then Finish(IntentMismatch)
         else if env.kind.Succeeded? && IsFailureTerminalAfterPay(o.status) then GoLate
         else Finish(Acked)
  {}

  lemma LateEnds(s: State, q: nat, o: Order, clock: int)
    requires AtHook(s, q) && s.procs[q].hpc == HLate(o) && o.id in s.db.orders && IsTerminalForWebhook(s.db.orders[o.id].status)
    ensures var t := DoHookRecheck(DoHookTx(s, q, clock, Clean), q, Clean);
      AtHook(t, q) && t.procs[q] == s.procs[q].(hpc := HDone(Acked)) && t.db == s.db
  {
    assert FailTx(s.db, o, Expired) == DbResult(s.db, InvalidTransition);
    assert DoHookTx(s, q, clock, Clean) == GotoHook(s, q, HRecheck(o.id));
  }

  lemma NothingBegins(s: State, q: nat)
    requires AtHook(s, q) && !s.procs[q].hpc.HReady?
    ensures DoHookBegin(s, q, Clean) == s
  {}

  lemma DoneEnds(s: State, q: nat, clock: int)
    requires AtHook(s, q) && s.procs[q].hpc.HDone?
    ensures DoHookRecheck(DoHookTx(s, q, clock, Clean), q, Clean) == s
  {}

  lemma AnsweredEnds(s: State, q: nat, id: Uuid, clock: int)
    requires AtHook(s, q) && s.procs[q].hpc == HRead(id, ByMetadata(s.procs[q].env)) && Answered(s.db, s.procs[q].env, id)
    requires s.db.orders[id].id == id
    ensures var t := DoHookRecheck(DoHookTx(DoHookBegin(DoHookRead(s, q, clock, Clean), q, Clean), q, clock, Clean), q, Clean);
      && AtHook(t, q) && t.procs[q].hpc == HDone(if Agrees(s.procs[q].env, s.db.orders[id]) then Acked else IntentMismatch)
      && t.db == s.db && t.procs[q].env == s.procs[q].env
      && (t.procs[q].late <==> s.procs[q].late || ReportsLate(s.procs[q].env, s.db.orders[id]))
  {
    hide Dispatch, DoHookBegin, DoHookTx, DoHookRecheck, Names;
    AnsweredVerdict(s.procs[q].env, s.db.orders[id], clock);
    var t := DoHookRead(s, q, clock, Clean);
    NothingBegins(t, q);
    if t.procs[q].hpc.HDone? { DoneEnds(t, q, clock); } else { LateEnds(t, q, s.db.orders[id], clock); }
  }

  /** What an undisturbed redelivery of an answered envelope returns: nil exactly when the row does not carry another intent; and a late success is reported exactly for an order that failed. */
  lemma RedeliveryIsExact(s: State, q: nat, env: Envelope, id: Uuid, clock: int)
    requires PgInv(s) && Answered(s.db, env, id) && q !in s.procs
    ensures var t := Run(s, Redelivery(q, env, id, clock));
      && AtHook(t, q) && t.procs[q].hpc == HDone(if Agrees(env, s.db.orders[id]) then Acked else IntentMismatch)
      && t.db == s.db && t.procs[q].env == env && (t.procs[q].late <==> ReportsLate(env, s.db.orders[id]))
  {
    hide Run, DoHookBegin, DoHookTx, DoHookRecheck, DoHookRead, PgInv, Agrees;
    RedeliveryRun(s, q, env, id, clock);
    ResolvesAgain(s, q, env, id);
    QueueFact(s);
    RowFacts(s.db, s.next, id);
    AnsweredEnds(DoHookResolve(DoHookStart(s, q, env, env.live), q, Some(id), Clean), q, id, clock);
  }

  lemma ResolvesAgain(s: State, q: nat, env: Envelope, id: Uuid)
    requires Answered(s.db, env, id) && q !in s.procs
    ensures var t := DoHookResolve(DoHookStart(s, q, env, env.live), q, Some(id), Clean);
      AtHook(t, q) && t.procs[q] == Hook(env, HRead(id, ByMetadata(env)), false) && t.db == s.db
  {}

  /**
   * The condition can fail: a declined payment is acknowledged while /pay writes its own intent
   * between the webhook's read and its transaction, and from then on the envelope is refused.
   */
  lemma AckThenMismatch(s: State, p: nat, q: nat, o: Order, intent: string, clock: int, r: nat)
    requires PgInv(s) && AtHook(s, p) && s.procs[p].hpc == HFail(o) && ByMetadata(s.procs[p].env)
    requires o.id in s.db.orders && s.db.orders[o.id] == o && o.status == AwaitingPayment && o.intent == None
    requires q in s.procs && s.procs[q] == Pay(o, Some(intent)) && o.reservedUntil > s.now && !IntentTaken(s.db, o.id, intent)
    requires intent != "" && intent != s.procs[p].env.intent && r !in s.procs
    ensures var t := Run(s, [PaySet(q, clock, Clean), HookTx(p, clock, Clean)]);
      && AtHook(t, p) && t.procs[p].hpc == HDone(Acked)
      && var u := Run(t, Redelivery(r, s.procs[p].env, o.id, clock)); AtHook(u, r) && u.procs[r].hpc == HDone(IntentMismatch)
  {
    hide Run, PgInv, Next, Redelivery, DoPaySet, DoHookTx, Advances, DbInv;
    var acts := [PaySet(q, clock, Clean), HookTx(p, clock, Clean)];
    RunTwo(s, acts[0], acts[1]);
    PaySetStep(s, q, clock, Clean);
    HookEndSteps(DoPaySet(s, q, clock, Clean), p, clock, Clean);
    ProcFact(s, p);
    RaceSteps(s, p, q, o, intent, clock);
    RunKeeps(s, acts);
    RedeliveryIsExact(Run(s, acts), r, s.procs[p].env, o.id, clock);
  }

  lemma RaceSteps(s: State, p: nat, q: nat, o: Order, intent: string, clock: int)
    requires AtHook(s, p) && s.procs[p].hpc == HFail(o) && ByMetadata(s.procs[p].env) && Names(s.db, s.procs[p].env, o.id)
    requires o.id in s.db.orders && s.db.orders[o.id] == o && o.status == AwaitingPayment && o.intent == None
    requires q in s.procs && s.procs[q] == Pay(o, Some(intent)) && o.reservedUntil > s.now && !IntentTaken(s.db, o.id, intent)
    requires intent != "" && intent != s.procs[p].env.intent
    ensures var t := DoHookTx(DoPaySet(s, q, clock, Clean), p, clock, Clean);
      && AtHook(t, p) && t.procs[p] == s.procs[p].(hpc := HDone(Acked)) && t.procs.Keys <= s.procs.Keys
      && Answered(t.db, s.procs[p].env, o.id) && !Agrees(s.procs[p].env, t.db.orders[o.id])
  {
    hide IntentTaken;
    var s1 := DoPaySet(s, q, clock, Clean);
    assert AtHook(s1, p) && s1.procs[p] == s.procs[p] && s1.procs == s.procs - {q};
    assert s1.db == s.db.(orders := s.db.orders[o.id := o.(intent := Some(intent))]);
    var db := FailTx(s1.db, o, PaymentFailed).db;
    assert FailTx(s1.db, o, PaymentFailed).error == Ok && db.orders[o.id].intent == Some(intent);
  }

  // ---- No dropped success ----

  predicate PaidWith(db: Db, id: Uuid, intent: string) {
    id in db.orders && db.orders[id].status == Paid && db.orders[id].intent == Some(intent)
  }

  /**
   * What a nil return of a `succeeded` call says, by the step it returns in. From the paying step the
   * order is paid with the envelope's intent; from the late path the late success was reported. On the
   * read the order is already paid, with that intent unless the row's is empty and the envelope's is
   * not. The recheck only finds it terminal; `RefusalIsExact` says when it is paid with that intent.
   */
  predicate Accounted(db: Db, env: Envelope, pc: HookPc, late: bool) {
    var id := Target(pc);
    && id in db.orders
    && match pc
       case HRead(_, _) => db.orders[id].status == Paid && (!PaidWith(db, id, env.intent) <==> db.orders[id].IntentID() == "" && env.intent != "")
       case HPay(_, _) => PaidWith(db, id, env.intent)
       case HLate(_) => late && db.orders[id].status == Expired
       case HRecheck(_) => IsTerminalForWebhook(db.orders[id].status)
       case _ => false
  }

  lemma SuccessIsAccountedFor(s: State, a: Action, p: nat)
    requires Acknowledges(s, a, p) && s.procs[p].env.kind.Succeeded?
    ensures Accounted(Next(s, a).db, s.procs[p].env, s.procs[p].hpc, s.procs[p].late)
  {
    hide PgInv, DoHookRead, DoHookBegin, DoHookTx, DoHookResolve, DoHookRecheck, Accounted;
    match a {
      case HookResolve(_, hit, f) => ResolveNeverAcks(s, hit, f, p);
      case HookRead(_, clock, f) => ReadAccounts(s, clock, f, p);
      case HookBegin(_, f) => BeginNeverAcks(s, f, p);
      case HookTx(_, clock, f) => TxAccounts(s, clock, f, p);
      case HookRecheck(_, f) => RecheckAccounts(s, f, p);
      case _ =>
    }
  }

  lemma ReadAccounts(s: State, clock: int, f: Fault, p: nat)
    requires PgInv(s) && AckedBy(s, DoHookRead(s, p, clock, f), p) && s.procs[p].env.kind.Succeeded?
    ensures Accounted(DoHookRead(s, p, clock, f).db, s.procs[p].env, s.procs[p].hpc, s.procs[p].late)
  {
    hide PgInv, DoHookRead, Answered;
    ReadAcks(s, clock, f, p);
    AnsweredRow(s.db, s.procs[p].env, Target(s.procs[p].hpc));
    PaidIntent(s, s.procs[p].env, Target(s.procs[p].hpc));
  }

  lemma TxAccounts(s: State, clock: int, f: Fault, p: nat)
    requires PgInv(s) && AckedBy(s, DoHookTx(s, p, clock, f), p) && s.procs[p].env.kind.Succeeded?
    ensures Accounted(DoHookTx(s, p, clock, f).db, s.procs[p].env, s.procs[p].hpc, s.procs[p].late)
  {
    hide PgInv, DoHookTx, Answered, FailTx, HookOutcome, Names;
    TxAcks(s, clock, f, p);
    AnsweredRow(DoHookTx(s, p, clock, f).db, s.procs[p].env, Target(s.procs[p].hpc));
    ProcFact(s, p);
    if s.procs[p].hpc.HLate? {
      LateFact(s, p, s.procs[p].hpc.order, clock, f);
      FailAcks(s, p, s.procs[p].hpc.order, Expired, f);
    }
  }

  lemma RecheckAccounts(s: State, f: Fault, p: nat)
    requires PgInv(s) && AckedBy(s, DoHookRecheck(s, p, f), p)
    ensures Accounted(DoHookRecheck(s, p, f).db, s.procs[p].env, s.procs[p].hpc, s.procs[p].late)
  {
    hide PgInv, DoHookRecheck, Answered;
    RecheckAcks(s, f, p);
    AnsweredRow(s.db, s.procs[p].env, Target(s.procs[p].hpc));
  }

  lemma PaidIntent(s: State, env: Envelope, id: Uuid)
    requires PgInv(s) && Answered(s.db, env, id) && Agrees(env, s.db.orders[id]) && s.db.orders[id].status == Paid
    ensures !PaidWith(s.db, id, env.intent) <==> s.db.orders[id].IntentID() == "" && env.intent != ""
  {
    hide PgInv;
    PaidFact(s, id);
  }

  /** Where a fault-free paying transaction leads, by the error it ended with. */
  lemma PayLeads(s: State, p: nat, o: Order, began: int, clock: int)
    requires AtHook(s, p) && s.procs[p].hpc == HPay(o, began)
    ensures var t, r := DoHookTx(s, p, clock, Clean), PayTx(s.db, o, s.procs[p].env.intent, began, clock);
      && AtHook(t, p) && t.db == (if r.error == Ok then r.db else s.db) && (r.error == ReservationExpired ==> t.procs[p].late)
      && t.procs[p].hpc == match r.error
                           case Ok => HDone(Acked)
                           case ReservationExpired => HLate(o)
                           case InvalidTransition => HRecheck(o.id)
                           case _ => HDone(HookError)
  {
    hide PayTx;
  }

  /** The guards of the two statements on the row as it is now; `o` is the row as it was read. */
  predicate PayGuard(db: Db, o: Order, intent: string, now: int)
    requires o.id in db.orders
  {
    var row := db.orders[o.id];
    && row.status == AwaitingPayment && row.reservedUntil > now
    && (o.IntentID() == "" ==> (row.intent == None || row.intent == Some(intent)) && !IntentTaken(db, o.id, intent))
  }

  /** Somebody moved the row on since the read, or gave it another intent. */
  predicate PayRefused(db: Db, o: Order, intent: string, clock: int)
    requires o.id in db.orders
  {
    var row := db.orders[o.id];
    || row.status != AwaitingPayment
    || (o.IntentID() == "" && intent != "" && row.IntentID() != "" && row.IntentID() != intent && row.reservedUntil > clock)
  }

  /**
   * The fault-free paying step exactly: it pays if and only if both guards accept the row as it is now,
   * and falls back on the recheck if and only if the row was moved on or carries another intent by now.
   * On an unchanged row it pays, reports a late success, or errs so that the provider retries.
   */
  lemma PayingStepIsExact(s: State, p: nat, o: Order, began: int, clock: int)
    requires PgInv(s) && AtHook(s, p) && s.procs[p].hpc == HPay(o, began)
    ensures AtHook(DoHookTx(s, p, clock, Clean), p) && o.id in s.db.orders && o.id in DoHookTx(s, p, clock, Clean).db.orders
    ensures var t, env := DoHookTx(s, p, clock, Clean), s.procs[p].env;
      && (t.procs[p].hpc == HDone(Acked) <==> PayGuard(s.db, o, env.intent, began))
      && (t.procs[p].hpc == HRecheck(o.id) <==> PayRefused(s.db, o, env.intent, clock))
      && (if t.procs[p].hpc == HDone(Acked) then PaidWith(t.db, o.id, env.intent) else t.db == s.db)
    ensures var t, pc := DoHookTx(s, p, clock, Clean), DoHookTx(s, p, clock, Clean).procs[p].hpc;
      && (pc == HDone(Acked) || pc == HRecheck(o.id) || (pc == HLate(o) && t.procs[p].late) || pc == HDone(HookError))
      && (pc == HRecheck(o.id) ==> s.db.orders[o.id].status != o.status || s.db.orders[o.id].intent != o.intent)
  {
    hide PgInv, PayTx, Names, DoHookTx, IntentTaken, PayGuard, PayRefused;
    ProcFact(s, p);
    PayLeads(s, p, o, began, clock);
    PayErrors(s.db, o, s.procs[p].env.intent, began, clock);
    if PayTx(s.db, o, s.procs[p].env.intent, began, clock).error == Ok { PayTxPays(s.db, o, s.procs[p].env.intent, began, clock); }
  }

  lemma PayErrors(db: Db, o: Order, intent: string, now: int, clock: int)
    requires ReadOf(db, o) && o.status == AwaitingPayment && (o.IntentID() == "" || o.intent == Some(intent))
    ensures var e := PayTx(db, o, intent, now, clock).error;
      && (e == Ok <==> PayGuard(db, o, intent, now)) && (e == InvalidTransition <==> PayRefused(db, o, intent, clock))
      && (e == InvalidTransition ==> db.orders[o.id].status != AwaitingPayment || db.orders[o.id].intent != o.intent)
  {
    hide IntentTaken;
  }

  /**
   * When a payment is dropped at the paying step. Say the step ends acknowledged or in the recheck, and
   * let anything happen afterwards: the order is paid with the envelope's intent if and only if the
   * guards accepted it or it already was. Nothing later makes up for a refusal.
   */
  lemma RefusalIsExact(s: State, p: nat, o: Order, began: int, clock: int, acts: seq<Action>)
    requires o.id in s.db.orders && AtHook(s, p) && s.procs[p].hpc == HPay(o, began) && PgInv(s)
    requires PayGuard(s.db, o, s.procs[p].env.intent, began) || PayRefused(s.db, o, s.procs[p].env.intent, clock)
    ensures var intent := s.procs[p].env.intent;
      PaidWith(Run(s, [HookTx(p, clock, Clean)] + acts).db, o.id, intent)
      <==> PayGuard(s.db, o, intent, began) || PaidWith(s.db, o.id, intent)
  {
    hide PgInv, DoHookTx, Run, Next, PayGuard, PayRefused, PaidWith, Advances, RowExtends, ReadOf;
    var t := DoHookTx(s, p, clock, Clean);
    PaysFrom(s, p, o, began);
    PayingStepIsExact(s, p, o, began, clock);
    HookEndSteps(s, p, clock, Clean);
    RunSteps(s, HookTx(p, clock, Clean), acts);
    NextKeeps(s, HookTx(p, clock, Clean));
    RunKeeps(t, acts);
    OrdersPart(t, Run(t, acts));
    assert RowExtends(t.db.orders[o.id], Run(t, acts).db.orders[o.id]);
    PaidWithStays(t.db, Run(t, acts).db, o.id, s.procs[p].env.intent);
    if !PayGuard(s.db, o, s.procs[p].env.intent, began) { RefusedRow(s.db, o, s.procs[p].env.intent, clock); }
  }

  lemma PaysFrom(s: State, p: nat, o: Order, began: int)
    requires PgInv(s) && AtHook(s, p) && s.procs[p].hpc == HPay(o, began)
    ensures ReadOf(s.db, o) && o.status == AwaitingPayment
  {
    hide PgInv, ReadOf, Names;
    ProcFact(s, p);
  }

  /** A payment decided stays decided, whichever way it went. */
  lemma PaidWithStays(a: Db, b: Db, id: Uuid, intent: string)
    requires id in a.orders && id in b.orders && RowExtends(a.orders[id], b.orders[id])
    ensures PaidWith(a, id, intent) ==> PaidWith(b, id, intent)
    ensures IsTerminalForWebhook(a.orders[id].status) || (a.orders[id].intent.Some? && a.orders[id].intent != Some(intent)) ==>
              PaidWith(a, id, intent) == PaidWith(b, id, intent)
  {}

  lemma RefusedRow(db: Db, o: Order, intent: string, clock: int)
    requires ReadOf(db, o) && o.status == AwaitingPayment && PayRefused(db, o, intent, clock)
    ensures var row := db.orders[o.id]; IsTerminalForWebhook(row.status) || (row.intent.Some? && row.intent != Some(intent))
  {}

  /** And the race does drop it: an expiry between read and transaction, and the success is acknowledged unpaid and unreported. */
  lemma ARaceDropsASuccess(s: State, p: nat, q: nat, o: Order, began: int, clock: int)
    requires PgInv(s) && AtHook(s, p) && s.procs[p].hpc == HPay(o, began)
    requires q in s.procs && s.procs[q] == Job(Expire, o) && o.id in s.db.orders && s.db.orders[o.id] == o
    ensures var t := Run(s, [JobTx(q, Clean), HookTx(p, clock, Clean), HookRecheck(p, Clean)]);
      && AtHook(t, p) && t.procs[p] == s.procs[p].(hpc := HDone(Acked))
      && o.id in t.db.orders && t.db.orders[o.id].status == Expired
  {
    hide Run, PgInv, DoJobTx, DoHookTx, DoHookRecheck, Next, Names, ReadOf;
    RaceRun(s, p, q, clock);
    ProcFact(s, p);
    ExpiredUnderIt(s, p, q, o, began, clock);
  }

  lemma RaceRun(s: State, p: nat, q: nat, clock: int)
    ensures Run(s, [JobTx(q, Clean), HookTx(p, clock, Clean), HookRecheck(p, Clean)])
            == DoHookRecheck(DoHookTx(DoJobTx(s, q, Clean), p, clock, Clean), p, Clean)
  {
    hide Run, DoJobTx, DoHookTx, DoHookRecheck, Next;
    var s1 := DoJobTx(s, q, Clean);
    assert [JobTx(q, Clean), HookTx(p, clock, Clean), HookRecheck(p, Clean)] == [JobTx(q, Clean), HookTx(p, clock, Clean)] + [HookRecheck(p, Clean)];
    RunConcat(s, [JobTx(q, Clean), HookTx(p, clock, Clean)], [HookRecheck(p, Clean)]);
    RunTwo(s, JobTx(q, Clean), HookTx(p, clock, Clean));
    JobSteps(s, q, 0, Expire, Clean);
    HookEndSteps(s1, p, clock, Clean);
    HookEndSteps(DoHookTx(s1, p, clock, Clean), p, clock, Clean);
    RunOne(DoHookTx(s1, p, clock, Clean), HookRecheck(p, Clean));
  }

  lemma ExpiredUnderIt(s: State, p: nat, q: nat, o: Order, began: int, clock: int)
    requires AtHook(s, p) && s.procs[p].hpc == HPay(o, began) && o.status == AwaitingPayment
    requires q in s.procs && s.procs[q] == Job(Expire, o) && o.id in s.db.orders && s.db.orders[o.id] == o
    requires o.IntentID() == "" || o.intent == Some(s.procs[p].env.intent)
    ensures var t := DoHookRecheck(DoHookTx(DoJobTx(s, q, Clean), p, clock, Clean), p, Clean);
      && AtHook(t, p) && t.procs[p] == s.procs[p].(hpc := HDone(Acked))
      && o.id in t.db.orders && t.db.orders[o.id].status == Expired
  {
    hide IntentTaken;
    var s1 := DoJobTx(s, q, Clean);
    assert s1.procs == s.procs - {q} && AtHook(s1, p) && s1.procs[p] == s.procs[p];
    assert o.id in s1.db.orders && s1.db.orders[o.id] == o.(status := Expired);
    var r := PayTx(s1.db, o, s.procs[p].env.intent, began, clock);
    assert r.error == InvalidTransition;
    assert DoHookTx(s1, p, clock, Clean) == GotoHook(s1, p, HRecheck(o.id));
  }
}
