/** The payment webhook, step by step. */
module Payments {
  import opened Domain
  import opened Options
  import opened Store
  import opened Protocol
  import opened Steps
  import opened DbSafety
  import opened PgSafety
  import opened PgSteps
  import opened Frames
  import opened Runtime
  import opened Webhook
  import opened WebhookAck
  import opened Verdicts

  lemma Skips(s: State, p: nat, hit: Option<Uuid>, clock: int, f: Fault)
    requires AtHook(s, p)
    ensures s.procs[p].hpc.HDone? ==> DoHookResolve(s, p, hit, f) == s && DoHookRead(s, p, clock, f) == s
    ensures !s.procs[p].hpc.HRecheck? ==> DoHookRecheck(s, p, f) == s
  {}

  ghost predicate Here(s: State, p: nat, env: Envelope, pc: HookPc) {
    AtHook(s, p) && s.procs[p].env == env && s.procs[p].hpc == pc
  }

  method FindByPaymentIntentID(db: Db, intent: string) returns (hit: Option<Uuid>)
    ensures FindsIntent(db, intent, hit)
  {
    if j :| j in db.orders && db.orders[j].intent == Some(intent) { return Some(j); }
    return None;
  }

  /** resolveOrderID: metadata first, the lookup by intent as the fallback. */
  method ResolveOrderID(w: World, p: nat, env: Envelope, f: Fault) returns (id: Option<Uuid>, metadata: bool, hit: Option<Uuid>)
    requires Here(w.st, p, env, HResolve)
    modifies w
    ensures w.st == DoHookResolve(old(w.st), p, hit, f)
    ensures AtHook(w.st, p) && w.st.procs[p].env == env
    ensures metadata == ByMetadata(env) && (f.Clean? && !metadata && env.intent != "" ==> FindsIntent(old(w.st.db), env.intent, hit))
    ensures if id.Some? then w.st.procs[p].hpc == HRead(id.value, metadata) else w.st.procs[p].hpc.HDone? && w.st.procs[p].hpc != HDone(Acked)
  {
    metadata, hit := false, None;
    if env.order.Some? && env.order.value != NIL {
      id, metadata := env.order, true;
      w.st := GotoHook(w.st, p, HRead(env.order.value, true));
    } else if !f.Clean? || env.intent == "" {
      id := None;
      w.st := GotoHook(w.st, p, HDone(HookError));
    } else {
      hit := FindByPaymentIntentID(w.st.db, env.intent);
      id := hit;
      w.st := GotoHook(w.st, p, if hit.None? then HDone(UnknownIntent) else HRead(hit.value, false));
    }
  }

  /** GetByID and the dispatch on what it returned. */
  method ReadAndDispatch(w: World, p: nat, env: Envelope, id: Uuid, metadata: bool, clock: int, f: Fault)
    requires Here(w.st, p, env, HRead(id, metadata))
    modifies w
    ensures w.st == DoHookRead(old(w.st), p, clock, f)
    ensures AtHook(w.st, p) && w.st.procs[p].env == env
    ensures var pc := w.st.procs[p].hpc; pc.HReady? || pc.HLate? || pc.HFail? || pc.HDone?
  {
    if !f.Clean? || id !in w.st.db.orders {
      w.st := GotoHook(w.st, p, HDone(HookError));
      return;
    }
    var o := w.st.db.orders[id];
    if metadata && o.IntentID() != "" && o.IntentID() != env.intent {
      w.st := GotoHook(w.st, p, HDone(IntentMismatch));
    } else if IsTerminalForWebhook(o.status) {
      if env.kind.Succeeded? && IsFailureTerminalAfterPay(o.status) {
        w.st := GotoLate(w.st, p, o);
      } else {
        w.st := GotoHook(w.st, p, HDone(Acked));
      }
    } else if o.status != AwaitingPayment {
      w.st := GotoHook(w.st, p, HDone(UnexpectedStatus));
    } else {
      match env.kind {
        case Succeeded =>
          if o.reservedUntil <= clock { w.st := GotoLate(w.st, p, o); } else { w.st := GotoHook(w.st, p, HReady(o)); }
        case PaymentDeclined => w.st := GotoHook(w.st, p, HFail(o));
        case Unsupported => w.st := GotoHook(w.st, p, HDone(Acked));
      }
    }
  }

  /** Orphan repair and MarkPaid on a working copy; the first error rolls the copy back. */
  method PayStatements(db: Db, o: Order, intent: string, now: int, clock: int) returns (tx: Db, error: Error)
    ensures DbResult(tx, error) == PayTx(db, o, intent, now, clock)
  {
    hide SetIntent, MarkPaidRow;
    tx := db;
    if o.IntentID() == "" {
      var r := SetIntent(tx, o.id, intent, now, clock);
      if r.error != Ok { return db, r.error; }
      tx := r.db;
    }
    var m := MarkPaidRow(tx, o.id, now, clock);
    if m.error != Ok { return db, m.error; }
    return m.db, Ok;
  }

  /** A status change and its trigger on a working copy. */
  method FailStatements(db: Db, o: Order, to: Status) returns (tx: Db, error: Error)
    ensures DbResult(tx, error) == FailTx(db, o, to)
  {
    hide Transition;
    var r := Transition(db, o.id, to);
    if r.error != Ok { return db, r.error; }
    tx, error := AddOutbox(r.db, EventOf(o)), Ok;
  }

  /** What all three transactions do with their result. */
  method Conclude(w: World, p: nat, tx: Db, error: Error, id: Uuid, f: Fault)
    requires AtHook(w.st, p)
    modifies w
    ensures w.st == HookOutcome(old(w.st), p, DbResult(tx, error), id, f)
    ensures AtHook(w.st, p) && w.st.procs[p] == old(w.st.procs[p]).(hpc := w.st.procs[p].hpc)
    ensures w.st.procs[p].hpc == HRecheck(id) || w.st.procs[p].hpc.HDone?
  {
    if f.Fails? {
      w.st := GotoHook(w.st, p, HDone(HookError));
    } else if error == Ok {
      w.st := w.st.(db := tx);
      w.st := GotoHook(w.st, p, HDone(if f.Clean? then Acked else HookError));
    } else if error == InvalidTransition {
      w.st := GotoHook(w.st, p, HRecheck(id));
    } else {
      w.st := GotoHook(w.st, p, HDone(HookError));
    }
  }

  method PayOrder(w: World, p: nat, env: Envelope, o: Order, began: int, clock: int, f: Fault)
    requires Here(w.st, p, env, HPay(o, began))
    modifies w
    ensures w.st == DoHookTx(old(w.st), p, clock, f)
    ensures AtHook(w.st, p) && w.st.procs[p].env == env
    ensures var pc := w.st.procs[p].hpc; pc == HLate(o) || pc == HRecheck(o.id) || pc.HDone?
  {
    hide PayTx;
    var tx, error := PayStatements(w.st.db, o, env.intent, began, clock);
    if !f.Fails? && error == ReservationExpired {
      w.st := GotoLate(w.st, p, o);
    } else {
      Conclude(w, p, tx, error, o.id, f);
      if !f.Fails? && error == Ok { w.st := w.st.(paidBy := w.st.paidBy[o.id := Payment(env.intent, began)]); }
    }
  }

  method FailOrder(w: World, p: nat, env: Envelope, o: Order, to: Status, clock: int, f: Fault)
    requires Here(w.st, p, env, if to == Expired then HLate(o) else HFail(o)) && (to == Expired || to == PaymentFailed)
    modifies w
    ensures w.st == DoHookTx(old(w.st), p, clock, f)
    ensures AtHook(w.st, p) && w.st.procs[p].env == env && w.st.procs[p].late == old(w.st.procs[p].late)
    ensures var pc := w.st.procs[p].hpc; pc == HRecheck(o.id) || pc.HDone?
  {
    hide FailTx, HookOutcome;
    var tx, error := FailStatements(w.st.db, o, to);
    Conclude(w, p, tx, error, o.id, f);
  }

  /** After a refused transition: a row that is terminal by now is a duplicate, anything else an error. */
  method Recheck(w: World, p: nat, env: Envelope, id: Uuid, f: Fault)
    requires Here(w.st, p, env, HRecheck(id))
    modifies w
    ensures w.st == DoHookRecheck(old(w.st), p, f)
    ensures AtHook(w.st, p) && w.st.procs[p].env == env && w.st.procs[p].hpc.HDone?
  {
    if f.Clean? && id in w.st.db.orders && IsTerminalForWebhook(w.st.db.orders[id].status) {
      w.st := GotoHook(w.st, p, HDone(Acked));
    } else {
      w.st := GotoHook(w.st, p, HDone(HookError));
    }
  }

  /** The step that returns nil, as the theorems about acknowledgements see it. */
  lemma Concludes(s: State, a: Action, p: nat, env: Envelope)
    requires PgInv(s) && AtHook(s, p) && s.procs[p].env == env && OwnStep(a, p) && !s.procs[p].hpc.HDone? && AtHook(Next(s, a), p)
    ensures Next(s, a).procs[p].hpc == HDone(Acked) && !env.kind.Unsupported? ==> exists id :: Answered(Next(s, a).db, env, id)
  {
    hide PgInv, Next, Answered;
    if Next(s, a).procs[p].hpc == HDone(Acked) && !env.kind.Unsupported? { AckMeansAnswered(s, a, p); }
  }

  ghost predicate Returned(s: State, p: nat, env: Envelope) {
    && AtHook(s, p) && s.procs[p].env == env && s.procs[p].hpc.HDone?
    && (s.procs[p].hpc == HDone(Acked) && !env.kind.Unsupported? ==> exists id :: Answered(s.db, env, id))
  }

  /** A transaction, then if need be the recheck. */
  method Transact(w: World, p: nat, env: Envelope, c: Script) returns (ghost trace: seq<Action>)
    requires PgInv(w.st) && AtHook(w.st, p) && w.st.procs[p].env == env && ValidScript(c, p)
    requires w.st.procs[p].hpc.HLate? || w.st.procs[p].hpc.HFail?
    modifies w
    ensures w.st == Run(old(w.st), trace) && PgInv(w.st) && Advances(old(w.st), w.st) && Returned(w.st, p, env)
    ensures Alone(c) ==> w.st == Ending(old(w.st), p, c)
  {
    hide PgInv, Advances, Run, Next, Answered, DoHookTx, DoHookRecheck, OwnerOf;
    ghost var s0 := w.st;
    AdvancesReflexive(s0);
    RunEmpty(s0);
    w.Others(c.gaps[4]);
    Waited(s0, s0, [], c.gaps[4], p);
    trace := [] + c.gaps[4];
    ghost var s1 := w.st;
    var o := w.st.procs[p].hpc.order;
    ghost var a := HookTx(p, c.clock, c.faults[4]);
    FailOrder(w, p, env, o, if w.st.procs[p].hpc.HLate? then Expired else PaymentFailed, c.clock, c.faults[4]);
    HookEndSteps(s1, p, c.clock, c.faults[4]);
    Stepped(s0, s1, trace, a);
    trace := trace + [a];
    Concludes(s1, a, p, env);
    Skips(w.st, p, None, c.clock, c.faults[5]);
    if w.st.procs[p].hpc.HRecheck? {
      ghost var s2 := w.st;
      ghost var rest;
      rest := LastCheck(w, p, env, c);
      RunConcat(s0, trace, rest);
      AdvancesTransitive(s0, s2, w.st);
      trace := trace + rest;
    }
  }

  method LastCheck(w: World, p: nat, env: Envelope, c: Script) returns (ghost trace: seq<Action>)
    requires PgInv(w.st) && AtHook(w.st, p) && w.st.procs[p].env == env && ValidScript(c, p) && w.st.procs[p].hpc.HRecheck?
    modifies w
    ensures w.st == Run(old(w.st), trace) && PgInv(w.st) && Advances(old(w.st), w.st) && Returned(w.st, p, env)
    ensures Alone(c) ==> w.st == DoHookRecheck(old(w.st), p, c.faults[5])
  {
    hide PgInv, Advances, Run, Next, Answered, DoHookRecheck, OwnerOf;
    ghost var s0 := w.st;
    AdvancesReflexive(s0);
    RunEmpty(s0);
    w.Others(c.gaps[5]);
    Waited(s0, s0, [], c.gaps[5], p);
    trace := [] + c.gaps[5];
    ghost var s1 := w.st;
    ghost var a := HookRecheck(p, c.faults[5]);
    Recheck(w, p, env, w.st.procs[p].hpc.id, c.faults[5]);
    HookEndSteps(s1, p, c.clock, c.faults[5]);
    Stepped(s0, s1, trace, a);
    trace := trace + [a];
    Concludes(s1, a, p, env);
  }

  /** BEGIN: the transaction is open, or the call ends with the error. */
  method BeginTx(w: World, p: nat, env: Envelope, c: Script) returns (ghost trace: seq<Action>)
    requires PgInv(w.st) && AtHook(w.st, p) && w.st.procs[p].env == env && ValidScript(c, p) && w.st.procs[p].hpc.HReady?
    modifies w
    ensures w.st == Run(old(w.st), trace) && PgInv(w.st) && Advances(old(w.st), w.st)
    ensures AtHook(w.st, p) && w.st.procs[p].env == env && (w.st.procs[p].hpc.HPay? || w.st.procs[p].hpc == HDone(HookError))
    ensures Alone(c) ==> w.st == DoHookBegin(old(w.st), p, c.faults[2])
  {
    hide PgInv, Advances, Run, Next, OwnerOf;
    ghost var s0 := w.st;
    AdvancesReflexive(s0);
    RunEmpty(s0);
    w.Others(c.gaps[2]);
    Waited(s0, s0, [], c.gaps[2], p);
    trace := [] + c.gaps[2];
    ghost var s1 := w.st;
    var now := w.st.now;
    w.st := GotoHook(w.st, p, if c.faults[2].Clean? then HPay(w.st.procs[p].hpc.order, now) else HDone(HookError));
    HookEndSteps(s1, p, 0, c.faults[2]);
    Stepped(s0, s1, trace, HookBegin(p, c.faults[2]));
    trace := trace + [HookBegin(p, c.faults[2])];
  }

  /** The paying transaction, once it is open; a deadline found passed goes the late way, a refused transition is rechecked. */
  method PayAndConclude(w: World, p: nat, env: Envelope, c: Script) returns (ghost trace: seq<Action>)
    requires PgInv(w.st) && AtHook(w.st, p) && w.st.procs[p].env == env && ValidScript(c, p) && w.st.procs[p].hpc.HPay?
    modifies w
    ensures w.st == Run(old(w.st), trace) && PgInv(w.st) && Advances(old(w.st), w.st) && Returned(w.st, p, env)
    ensures Alone(c) ==> w.st == Ending(DoHookTx(old(w.st), p, c.clock, c.faults[3]), p, c)
  {
    hide PgInv, Advances, Run, Next, Answered, DoHookTx, OwnerOf;
    ghost var s0 := w.st;
    AdvancesReflexive(s0);
    RunEmpty(s0);
    w.Others(c.gaps[3]);
    Waited(s0, s0, [], c.gaps[3], p);
    trace := [] + c.gaps[3];
    ghost var s1 := w.st;
    ghost var a := HookTx(p, c.clock, c.faults[3]);
    PayOrder(w, p, env, w.st.procs[p].hpc.order, w.st.procs[p].hpc.began, c.clock, c.faults[3]);
    HookEndSteps(s1, p, c.clock, c.faults[3]);
    Stepped(s0, s1, trace, a);
    trace := trace + [a];
    Concludes(s1, a, p, env);
    ghost var s2 := w.st;
    ghost var rest := [];
    Skips(w.st, p, None, c.clock, c.faults[5]);
    if w.st.procs[p].hpc.HLate? {
      rest := Transact(w, p, env, c);
    } else if w.st.procs[p].hpc.HRecheck? {
      rest := LastCheck(w, p, env, c);
    } else {
      RunEmpty(s2);
      AdvancesReflexive(s2);
    }
    RunConcat(s0, trace, rest);
    AdvancesTransitive(s0, s2, w.st);
    trace := trace + rest;
  }

  /** handleSuccess: begin the transaction and pay in it. */
  method HandleSuccess(w: World, p: nat, env: Envelope, c: Script) returns (ghost trace: seq<Action>)
    requires PgInv(w.st) && AtHook(w.st, p) && w.st.procs[p].env == env && ValidScript(c, p) && w.st.procs[p].hpc.HReady?
    modifies w
    ensures w.st == Run(old(w.st), trace) && PgInv(w.st) && Advances(old(w.st), w.st) && Returned(w.st, p, env)
    ensures Alone(c) ==> w.st == Paying(old(w.st), p, c)
  {
    hide PgInv, Advances, Run, Next, Answered, DoHookTx, DoHookBegin, Ending, OwnerOf;
    ghost var s0 := w.st;
    trace := BeginTx(w, p, env, c);
    DoneEnding(w.st, p, c);
    if w.st.procs[p].hpc.HPay? {
      ghost var s1 := w.st;
      ghost var rest;
      rest := PayAndConclude(w, p, env, c);
      RunConcat(s0, trace, rest);
      AdvancesTransitive(s0, s1, w.st);
      trace := trace + rest;
    }
  }

  /** Resolution, read and dispatch. */
  method ReadRow(w: World, p: nat, env: Envelope, c: Script) returns (ghost trace: seq<Action>, ghost hit: Option<Uuid>)
    requires PgInv(w.st) && Here(w.st, p, env, HResolve) && ValidScript(c, p)
    modifies w
    ensures w.st == Run(old(w.st), trace) && PgInv(w.st) && Advances(old(w.st), w.st)
    ensures Returned(w.st, p, env)
            || (AtHook(w.st, p) && w.st.procs[p].env == env && (w.st.procs[p].hpc.HReady? || w.st.procs[p].hpc.HLate? || w.st.procs[p].hpc.HFail?))
    ensures Alone(c) ==> w.st == DoHookRead(DoHookResolve(old(w.st), p, hit, c.faults[0]), p, c.clock, c.faults[1])
    ensures Alone(c) && c.faults[0].Clean? && !ByMetadata(env) && env.intent != "" ==> FindsIntent(old(w.st.db), env.intent, hit)
  {
    hide PgInv, Advances, Run, Next, Answered, DoHookResolve, DoHookRead, OwnerOf;
    ghost var s0 := w.st;
    AdvancesReflexive(s0);
    RunEmpty(s0);
    w.Others(c.gaps[0]);
    Waited(s0, s0, [], c.gaps[0], p);
    trace := [] + c.gaps[0];
    ghost var s1 := w.st;
    var id, metadata;
    var found;
    id, metadata, found := ResolveOrderID(w, p, env, c.faults[0]);
    hit := found;
    Skips(w.st, p, hit, c.clock, c.faults[1]);
    HookReadSteps(s1, p, hit, c.clock, c.faults[0]);
    Stepped(s0, s1, trace, HookResolve(p, hit, c.faults[0]));
    trace := trace + [HookResolve(p, hit, c.faults[0])];
    if id.None? { return; }
    ghost var s2 := w.st;
    RunEmpty(s2);
    w.Others(c.gaps[1]);
    Waited(s0, s2, trace, c.gaps[1], p);
    trace := trace + c.gaps[1];
    ghost var s3 := w.st;
    ghost var a := HookRead(p, c.clock, c.faults[1]);
    ReadAndDispatch(w, p, env, id.value, metadata, c.clock, c.faults[1]);
    HookReadSteps(s3, p, hit, c.clock, c.faults[1]);
    Stepped(s0, s3, trace, a);
    trace := trace + [a];
    Concludes(s3, a, p, env);
  }

  /** An event of this environment: read the row and do what its verdict says. */
  method HandleEvent(w: World, p: nat, env: Envelope, c: Script) returns (ghost trace: seq<Action>, ghost hit: Option<Uuid>)
    requires PgInv(w.st) && Here(w.st, p, env, HResolve) && ValidScript(c, p)
    modifies w
    ensures w.st == Run(old(w.st), trace) && PgInv(w.st) && Returned(w.st, p, env)
    ensures Alone(c) ==> w.st == Paying(DoHookRead(DoHookResolve(old(w.st), p, hit, c.faults[0]), p, c.clock, c.faults[1]), p, c)
    ensures Alone(c) && c.faults[0].Clean? && !ByMetadata(env) && env.intent != "" ==> FindsIntent(old(w.st.db), env.intent, hit)
  {
    hide PgInv, Advances, Run, Next, Answered, FindsIntent, DoHookResolve, DoHookRead, DoHookTx, Ending, Paying, OwnerOf;
    ghost var s0 := w.st;
    ghost var rest;
    trace, hit := ReadRow(w, p, env, c);
    DoneEnding(w.st, p, c);
    if w.st.procs[p].hpc.HReady? {
      rest := HandleSuccess(w, p, env, c);
      RunConcat(s0, trace, rest);
      trace := trace + rest;
    } else if w.st.procs[p].hpc.HLate? || w.st.procs[p].hpc.HFail? {
      rest := Transact(w, p, env, c);
      RunConcat(s0, trace, rest);
      trace := trace + rest;
    }
  }

  /**
   * HandleWebhook. Whatever happens around it, the call is a run of the model; another environment's
   * event is acknowledged and ignored; and any other nil return means that payment of the order
   * the envelope is about is over. Undisturbed and fault-free, result and database are those of `Answers`.
   */
  method HandleWebhook(w: World, p: nat, env: Envelope, expectLive: bool, c: Script) returns (result: HookResult, ghost trace: seq<Action>, ghost hit: Option<Uuid>)
    requires PgInv(w.st) && p !in w.st.procs && ValidScript(c, p)
    modifies w
    ensures w.st == Run(old(w.st), trace) && PgInv(w.st)
    ensures AtHook(w.st, p) && w.st.procs[p].env == env && w.st.procs[p].hpc == HDone(result)
    ensures env.live != expectLive ==> result == Acked && w.st.db == old(w.st.db)
    ensures env.live == expectLive && result == Acked && !env.kind.Unsupported? ==> exists id :: Answered(w.st.db, env, id)
    ensures Alone(c) ==> w.st == WholeCall(old(w.st), p, env, expectLive, hit, c)
    ensures Alone(c) && AllClean(c) && env.live == expectLive ==>
              forall id :: Finds(old(w.st.db), env, id) ==> Answers(old(w.st), w.st, p, env, old(w.st.db).orders[id], c.clock)
    ensures Alone(c) && AllClean(c) && env.live == expectLive && (forall id :: !Finds(old(w.st.db), env, id)) ==>
              w.st.db == old(w.st.db) && result == if !ByMetadata(env) && env.intent != "" then UnknownIntent else HookError
  {
    hide PgInv, Advances, Run, Next, Answered, Answers, Finds, FindsIntent, DoHookResolve, DoHookRead, DoHookTx, DoHookRecheck, Ending, Paying, OwnerOf, ForeignTo;
    hit := None;
    ghost var s0 := w.st;
    AdvancesReflexive(s0);
    RunEmpty(s0);
    Stepped(s0, s0, [], HookStart(p, env, expectLive));
    trace := [] + [HookStart(p, env, expectLive)];
    HookStartStep(s0, p, env, expectLive);
    if env.live != expectLive {
      w.st := Put(w.st, p, Hook(env, HDone(Acked), false));
      Skips(w.st, p, hit, c.clock, c.faults[0]);
      Skips(w.st, p, hit, c.clock, c.faults[1]);
      DoneEnding(w.st, p, c);
      return Acked, trace, hit;
    }
    w.st := Put(w.st, p, Hook(env, HResolve, false));
    ghost var rest;
    rest, hit := HandleEvent(w, p, env, c);
    RunConcat(s0, trace, rest);
    trace := trace + rest;
    result := w.st.procs[p].hpc.result;
    if Alone(c) && AllClean(c) { CallIsExact(s0, p, env, expectLive, hit, c); }
  }

  lemma DoneEnding(s: State, p: nat, c: Script)
    requires AtHook(s, p) && |c.faults| == 6
    ensures s.procs[p].hpc.HDone? ==> Ending(s, p, c) == s
    ensures !s.procs[p].hpc.HReady? && !s.procs[p].hpc.HPay? ==> Paying(s, p, c) == Ending(s, p, c)
  {}
}
