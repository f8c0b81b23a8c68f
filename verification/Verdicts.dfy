/** What the payment webhook answers: from the row, the envelope and the two clocks. */
module Verdicts {
  import opened Domain
  import opened Options
  import opened Store
  import opened Protocol
  import opened Steps
  import opened DbSafety
  import opened PgSafety
  import opened PgSteps
  import opened Frames
  import opened Webhook
  import opened WebhookAck

  /**
   * What happens around one call: `gaps[k]` runs before its k-th store call and `faults[k]` is how
   * that call ends; `clock` is the process's own clock.
   */
  datatype Script = Script(gaps: seq<seq<Action>>, faults: seq<Fault>, clock: int)

  ghost predicate ValidScript(c: Script, p: nat) {
    |c.gaps| == 6 && |c.faults| == 6 && forall k :: 0 <= k < 6 ==> ForeignTo(c.gaps[k], p)
  }

  /** Nobody else runs meanwhile. */
  ghost predicate Alone(c: Script) { forall k :: 0 <= k < |c.gaps| ==> c.gaps[k] == [] }

  /** From a read row on: the failing transaction if the call is at one, then the recheck if it came to that. */
  function Ending(s: State, p: nat, c: Script): State
    requires |c.faults| == 6
  {
    var t := if AtHook(s, p) && (s.procs[p].hpc.HLate? || s.procs[p].hpc.HFail?) then DoHookTx(s, p, c.clock, c.faults[4]) else s;
    DoHookRecheck(t, p, c.faults[5])
  }

  /** From a read row that may be paid on: begin, pay, and what comes of it. */
  function Paying(s: State, p: nat, c: Script): State
    requires |c.faults| == 6
  {
    var t := DoHookBegin(s, p, c.faults[2]);
    Ending(if AtHook(t, p) && t.procs[p].hpc.HPay? then DoHookTx(t, p, c.clock, c.faults[3]) else t, p, c)
  }

  /** The whole call, undisturbed: each step of the model in program order; those not called for change nothing. */
  function WholeCall(s: State, p: nat, env: Envelope, expectLive: bool, hit: Option<Uuid>, c: Script): State
    requires |c.faults| == 6
  {
    var t := DoHookRead(DoHookResolve(DoHookStart(s, p, env, expectLive), p, hit, c.faults[0]), p, c.clock, c.faults[1]);
    Paying(t, p, c)
  }

  // ---- The read ----

  /** Metadata is not to be trusted: it names an order that carries another intent. */
  predicate Mismatch(env: Envelope, o: Order) {
    env.order.Some? && env.order != Some(NIL) && o.intent !in {None, Some(""), Some(env.intent)}
  }

  /** Verdict `v` on row `o`, told by the row's columns, the envelope and the process's clock. */
  predicate Fits(env: Envelope, o: Order, clock: int, v: Verdict) {
    && (v == Finish(IntentMismatch) <==> Mismatch(env, o))
    && (v == Finish(UnexpectedStatus) <==> !Mismatch(env, o) && o.status in {Pending, Charging, Confirmed, Failed})
    && (v == Finish(Acked) <==>
          && !Mismatch(env, o)
          && (o.status == Paid || (o.status in {Expired, PaymentFailed, Compensated} && env.kind != Succeeded)
              || (o.status == AwaitingPayment && env.kind == Unsupported)))
    && (v == GoPay <==> !Mismatch(env, o) && o.status == AwaitingPayment && env.kind == Succeeded && o.reservedUntil > clock)
    && (v == GoLate <==>
          && !Mismatch(env, o) && env.kind == Succeeded
          && (o.status in {Expired, PaymentFailed, Compensated} || (o.status == AwaitingPayment && o.reservedUntil <= clock)))
    && (v == GoFail <==> !Mismatch(env, o) && o.status == AwaitingPayment && env.kind == PaymentDeclined)
    && (v.Finish? ==> v.result in {IntentMismatch, UnexpectedStatus, Acked})
  }

  lemma DispatchFits(env: Envelope, o: Order, clock: int)
    ensures Fits(env, o, clock, Dispatch(env, o, ByMetadata(env), clock))
  {}

  /** Where a verdict takes the call. */
  function Goes(o: Order, v: Verdict): HookPc {
    match v
    case Finish(r) => HDone(r)
    case GoPay => HReady(o)
    case GoLate => HLate(o)
    case GoFail => HFail(o)
  }

  /** The read step exactly: the one verdict that fits. It writes nothing, and reports a late success exactly if it goes that way. */
  lemma ReadIsExact(s: State, p: nat, clock: int, v: Verdict)
    requires PgInv(s) && AtHook(s, p) && s.procs[p].hpc.HRead? && s.procs[p].hpc.id in s.db.orders
    ensures var o, env, t := s.db.orders[s.procs[p].hpc.id], s.procs[p].env, DoHookRead(s, p, clock, Clean);
      && AtHook(t, p) && t == s.(procs := t.procs) && t.procs[p].env == env
      && (Fits(env, o, clock, v) <==> t.procs[p].hpc == Goes(o, v))
      && (t.procs[p].late <==> s.procs[p].late || t.procs[p].hpc == HLate(o))
  {
    hide PgInv, Dispatch, Fits;
    ReadsMetadata(s, p);
    var o, env := s.db.orders[s.procs[p].hpc.id], s.procs[p].env;
    DispatchFits(env, o, clock);
    if Fits(env, o, clock, v) { OneFits(env, o, clock, v, Dispatch(env, o, ByMetadata(env), clock)); }
  }

  lemma ReadsMetadata(s: State, p: nat)
    requires PgInv(s) && AtHook(s, p) && s.procs[p].hpc.HRead?
    ensures s.procs[p].hpc.metadata == ByMetadata(s.procs[p].env)
  {
    hide PgInv, Names, DbInv, CompOk, PayOk;
    ProcFact(s, p);
  }

  lemma OneFits(env: Envelope, o: Order, clock: int, v: Verdict, w: Verdict)
    requires Fits(env, o, clock, v) && Fits(env, o, clock, w)
    ensures v == w
  {}

  // ---- The whole call ----

  /** The database after a payment. */
  function Settling(db: Db, o: Order, intent: string): Db {
    db.(orders := db.orders[o.id := o.(status := Paid, intent := Some(intent))])
  }

  /** An undisturbed call about row `o`: what it returns and what it writes. */
  ghost predicate Answers(s: State, t: State, p: nat, env: Envelope, o: Order, clock: int) {
    AtHook(t, p) &&
    var pc := t.procs[p].hpc;
    if Mismatch(env, o) then pc == HDone(IntentMismatch) && t.db == s.db
    else if o.status in {Pending, Charging, Confirmed, Failed} then pc == HDone(UnexpectedStatus) && t.db == s.db
    else if o.status != AwaitingPayment || env.kind == Unsupported then pc == HDone(Acked) && t.db == s.db
    else if env.kind == PaymentDeclined then o.id in s.db.orders && pc == HDone(Acked) && t.db == Failing(s.db, o.id, PaymentFailed)
    else if o.reservedUntil <= clock then o.id in s.db.orders && pc == HDone(Acked) && t.procs[p].late && t.db == Failing(s.db, o.id, Expired)
    else if o.reservedUntil > s.now && o.intent in {None, Some(env.intent)} && !IntentTaken(s.db, o.id, env.intent)
      then pc == HDone(Acked) && t.db == Settling(s.db, o, env.intent)
    else pc == HDone(HookError) && t.db == s.db
  }

  lemma FinishAnswers(s: State, p: nat, o: Order, v: Verdict, c: Script)
    requires AtHook(s, p) && s.procs[p].hpc == Goes(o, v) && v.Finish? && Fits(s.procs[p].env, o, c.clock, v) && |c.faults| == 6
    ensures Paying(s, p, c) == s && Answers(s, s, p, s.procs[p].env, o, c.clock)
  {}

  ghost predicate AllClean(c: Script) { |c.faults| == 6 && forall k :: 0 <= k < 6 ==> c.faults[k] == Clean }

  lemma FailEnds(s: State, p: nat, o: Order, to: Status, c: Script)
    requires PgInv(s) && AtHook(s, p) && o.id in s.db.orders && s.db.orders[o.id] == o && AllClean(c)
    requires s.procs[p].hpc == (if to == Expired then HLate(o) else HFail(o)) && to in {Expired, PaymentFailed}
    requires o.status == AwaitingPayment || (to == Expired && IsTerminalForWebhook(o.status))
    ensures var t := Ending(s, p, c);
      && AtHook(t, p) && t.procs[p] == s.procs[p].(hpc := HDone(Acked))
      && t.db == if o.status == AwaitingPayment then Failing(s.db, o.id, to) else s.db
  {
    hide PgInv, DbInv, FailTx, Extends;
    QueueFact(s);
    FailTxKeeps(s.db, s.next, o, to);
  }

  lemma FailAnswers(s: State, p: nat, o: Order, v: Verdict, c: Script)
    requires PgInv(s) && AtHook(s, p) && o.id in s.db.orders && s.db.orders[o.id] == o && s.procs[p].hpc == Goes(o, v) && AllClean(c)
    requires (v.GoLate? || v.GoFail?) && Fits(s.procs[p].env, o, c.clock, v) && (v.GoLate? ==> s.procs[p].late)
    ensures Answers(s, Paying(s, p, c), p, s.procs[p].env, o, c.clock)
  {
    hide PgInv, Ending;
    FailEnds(s, p, o, if v.GoLate? then Expired else PaymentFailed, c);
  }

  /** On an unchanged row that may still be paid by the process's clock: the payment, or an error. */
  lemma PayEnds(s: State, p: nat, o: Order, c: Script)
    requires PgInv(s) && AtHook(s, p) && o.id in s.db.orders && s.db.orders[o.id] == o && s.procs[p].hpc == HPay(o, s.now) && AllClean(c)
    requires o.reservedUntil > c.clock
    ensures var t, env := Ending(DoHookTx(s, p, c.clock, Clean), p, c), s.procs[p].env;
      && AtHook(t, p)
      && if o.reservedUntil > s.now && o.intent in {None, Some(env.intent)} && !IntentTaken(s.db, o.id, env.intent)
         then t.procs[p].hpc == HDone(Acked) && t.db == Settling(s.db, o, env.intent)
         else t.procs[p].hpc == HDone(HookError) && t.db == s.db
  {
    hide PgInv, PayTx, IntentTaken, DoHookTx, Names, DbInv;
    ProcFact(s, p);
    var env := s.procs[p].env;
    OwnIntent(s, o);
    PayLeads(s, p, o, s.now, c.clock);
    PayErrors(s.db, o, env.intent, s.now, c.clock);
    NeverLate(s.db, o, env.intent, s.now, c.clock);
    if PayTx(s.db, o, env.intent, s.now, c.clock).error == Ok { PayTxPays(s.db, o, env.intent, s.now, c.clock); }
  }

  /** An intent that the row carries is no other row's. */
  lemma OwnIntent(s: State, o: Order)
    requires PgInv(s) && o.id in s.db.orders && s.db.orders[o.id] == o
    ensures o.intent.Some? ==> !IntentTaken(s.db, o.id, o.intent.value)
  {
    hide LogOk, ProcsOk, MsgsOk, GatewayOk, FoundOk, PaidOk, OrdersOk, AllConserved, OutboxOk, CompsOk, BuyersOk;
  }

  lemma NeverLate(db: Db, o: Order, intent: string, now: int, clock: int)
    requires o.id in db.orders && db.orders[o.id] == o && o.reservedUntil > clock && o.status == AwaitingPayment
    ensures PayTx(db, o, intent, now, clock).error != ReservationExpired
  {}

  lemma PayAnswers(s: State, p: nat, o: Order, c: Script)
    requires PgInv(s) && AtHook(s, p) && o.id in s.db.orders && s.db.orders[o.id] == o && s.procs[p].hpc == HReady(o) && AllClean(c)
    requires Fits(s.procs[p].env, o, c.clock, GoPay)
    ensures Answers(s, Paying(s, p, c), p, s.procs[p].env, o, c.clock)
  {
    hide PgInv, Ending, DoHookTx, IntentTaken;
    var t := DoHookBegin(s, p, Clean);
    HookBeginKeeps(s, p, Clean);
    PayEnds(t, p, o, c);
  }

  lemma AfterRead(s: State, p: nat, o: Order, v: Verdict, c: Script)
    requires PgInv(s) && AtHook(s, p) && o.id in s.db.orders && s.db.orders[o.id] == o && s.procs[p].hpc == Goes(o, v) && AllClean(c)
    requires Fits(s.procs[p].env, o, c.clock, v) && (v.GoLate? ==> s.procs[p].late)
    ensures Answers(s, Paying(s, p, c), p, s.procs[p].env, o, c.clock)
  {
    hide PgInv, Answers, Paying, Fits;
    match v {
      case Finish(_) => FinishAnswers(s, p, o, v, c);
      case GoPay => PayAnswers(s, p, o, c);
      case _ => FailAnswers(s, p, o, v, c);
    }
  }

  /** Which row an undisturbed call is about: the one the metadata names, or the one that carries the intent. */
  ghost predicate Finds(db: Db, env: Envelope, id: Uuid) {
    id in db.orders && if ByMetadata(env) then id == env.order.value else env.intent != "" && db.orders[id].intent == Some(env.intent)
  }

  /** Start and resolution of a call that finds row `id`. */
  lemma Resolves(s: State, p: nat, env: Envelope, expectLive: bool, hit: Option<Uuid>, id: Uuid)
    requires PgInv(s) && p !in s.procs && env.live == expectLive && Finds(s.db, env, id)
    requires !ByMetadata(env) && env.intent != "" ==> FindsIntent(s.db, env.intent, hit)
    ensures var t := DoHookResolve(DoHookStart(s, p, env, expectLive), p, hit, Clean);
      && PgInv(t) && t == s.(procs := t.procs) && AtHook(t, p) && t.procs[p] == Hook(env, HRead(id, ByMetadata(env)), false)
      && t.db.orders[id].id == id
  {
    hide PgInv, PgSteps.Kept, DbInv;
    HookStartKeeps(s, p, env, expectLive);
    KeptInv(s, DoHookStart(s, p, env, expectLive));
    HookResolveKeeps(DoHookStart(s, p, env, expectLive), p, hit, Clean);
    KeptInv(DoHookStart(s, p, env, expectLive), DoHookResolve(DoHookStart(s, p, env, expectLive), p, hit, Clean));
    QueueFact(s);
    RowFacts(s.db, s.next, id);
    if hit.Some? { RowsDiffer(s.db, s.next, id, hit.value); }
  }

  lemma KeptInv(s: State, t: State)
    requires PgSteps.Kept(s, t)
    ensures PgInv(t)
  {
    hide PgInv, Advances;
  }

  lemma RowsDiffer(db: Db, n: nat, i: Uuid, j: Uuid)
    requires DbInv(db, n)
    ensures i in db.orders && j in db.orders && db.orders[i].intent.Some? && db.orders[i].intent == db.orders[j].intent ==> i == j
  {
    hide OrdersOk, AllConserved, OutboxOk, CompsOk, BuyersOk;
  }

  lemma CallAnswers(s: State, p: nat, env: Envelope, expectLive: bool, hit: Option<Uuid>, c: Script, id: Uuid)
    requires PgInv(s) && p !in s.procs && AllClean(c) && env.live == expectLive && Finds(s.db, env, id)
    requires !ByMetadata(env) && env.intent != "" ==> FindsIntent(s.db, env.intent, hit)
    ensures Answers(s, WholeCall(s, p, env, expectLive, hit, c), p, env, s.db.orders[id], c.clock)
  {
    hide PgInv, Paying, DoHookRead, DoHookResolve, DoHookStart, Fits, Dispatch, IntentTaken;
    Resolves(s, p, env, expectLive, hit, id);
    var s2 := DoHookResolve(DoHookStart(s, p, env, expectLive), p, hit, Clean);
    var o := s.db.orders[id];
    var v := Dispatch(env, o, ByMetadata(env), c.clock);
    DispatchFits(env, o, c.clock);
    ReadIsExact(s2, p, c.clock, v);
    ReadKeeps(s2, p, c.clock);
    AfterRead(DoHookRead(s2, p, c.clock, Clean), p, o, v, c);
  }

  lemma ReadKeeps(s: State, p: nat, clock: int)
    requires PgInv(s)
    ensures PgInv(DoHookRead(s, p, clock, Clean))
  {
    hide PgInv, DoHookRead, PgSteps.Kept;
    HookReadKeeps(s, p, clock, Clean);
    KeptInv(s, DoHookRead(s, p, clock, Clean));
  }

  /** An undisturbed, fault-free call about this environment's event answers as the row, the envelope and the clocks say; without a row it writes nothing. */
  lemma CallIsExact(s: State, p: nat, env: Envelope, expectLive: bool, hit: Option<Uuid>, c: Script)
    requires PgInv(s) && p !in s.procs && AllClean(c) && env.live == expectLive
    requires !ByMetadata(env) && env.intent != "" ==> FindsIntent(s.db, env.intent, hit)
    ensures forall id :: Finds(s.db, env, id) ==> Answers(s, WholeCall(s, p, env, expectLive, hit, c), p, env, s.db.orders[id], c.clock)
    ensures (forall id :: !Finds(s.db, env, id)) ==>
              var t := WholeCall(s, p, env, expectLive, hit, c);
              AtHook(t, p) && t.db == s.db && t.procs[p].hpc == HDone(if !ByMetadata(env) && env.intent != "" then UnknownIntent else HookError)
  {
    hide PgInv, Answers, WholeCall;
    forall id | Finds(s.db, env, id) ensures Answers(s, WholeCall(s, p, env, expectLive, hit, c), p, env, s.db.orders[id], c.clock) {
      CallAnswers(s, p, env, expectLive, hit, c, id);
    }
    if forall id :: !Finds(s.db, env, id) { NoRow(s, p, env, expectLive, hit, c); }
  }

  lemma NoRow(s: State, p: nat, env: Envelope, expectLive: bool, hit: Option<Uuid>, c: Script)
    requires p !in s.procs && AllClean(c) && env.live == expectLive
    requires !ByMetadata(env) && env.intent != "" ==> FindsIntent(s.db, env.intent, hit)
    requires forall id :: !Finds(s.db, env, id)
    ensures var t := WholeCall(s, p, env, expectLive, hit, c);
      AtHook(t, p) && t.db == s.db && t.procs[p].hpc == HDone(if !ByMetadata(env) && env.intent != "" then UnknownIntent else HookError)
  {
    hide Paying, DoHookRead;
    if ByMetadata(env) { assert !Finds(s.db, env, env.order.value); }
    else if hit.Some? { assert !Finds(s.db, env, hit.value); }
    var t := DoHookResolve(DoHookStart(s, p, env, expectLive), p, hit, Clean);
    assert AtHook(t, p) && t.procs[p].env == env && t.db == s.db && (t.procs[p].hpc.HDone? || t.procs[p].hpc.HRead?);
    Unread(t, p, c);
  }

  lemma Unread(s: State, p: nat, c: Script)
    requires AtHook(s, p) && AllClean(c) && (s.procs[p].hpc.HDone? || (s.procs[p].hpc.HRead? && s.procs[p].hpc.id !in s.db.orders))
    ensures var t := Paying(DoHookRead(s, p, c.clock, Clean), p, c);
      AtHook(t, p) && t.db == s.db && t.procs[p].hpc == if s.procs[p].hpc.HDone? then s.procs[p].hpc else HDone(HookError)
  {
    hide Dispatch;
  }
}
