/**
 * What the provider may rely on: a webhook acknowledged once is answered for good, and a
 * successful payment is either recorded, reported late, or lost a race that is visible in the row.
 */
module Webhook {
  import opened Domain
  import opened Options
  import opened Store
  import opened Protocol
  import opened DbSafety
  import opened PgSafety
  import opened PgSteps
  import opened Guarantees
  import opened Fence
  import opened Frames

  /** The steps of the webhook call `p` itself. */
  predicate OwnStep(a: Action, p: nat) {
    match a
    case HookResolve(q, _, _) => q == p
    case HookRead(q, _, _) => q == p
    case HookBegin(q, _) => q == p
    case HookTx(q, _, _) => q == p
    case HookRecheck(q, _) => q == p
    case _ => false
  }

  /** Nobody kills the call or injects a fault into it; it stays visible after it has returned. */
  predicate Undisturbed(a: Action, p: nat) {
    match a
    case HookResolve(q, _, f) => q != p || f.Clean?
    case HookRead(q, _, f) => q != p || f.Clean?
    case HookBegin(q, f) => q != p || f.Clean?
    case HookTx(q, _, f) => q != p || f.Clean?
    case HookRecheck(q, f) => q != p || f.Clean?
    case _ => OwnerOf(a) != Some(p)
  }

  // ---- Redelivery ----

  /** Payment of order `id` is over, and the envelope is about that order. */
  ghost predicate Answered(db: Db, env: Envelope, id: Uuid) {
    Names(db, env, id) && id in db.orders && IsTerminalForWebhook(db.orders[id].status)
  }

  ghost predicate Quiet(s: State, p: nat, env: Envelope, id: Uuid) {
    && PgInv(s) && Answered(s.db, env, id) && Agrees(env, s.db.orders[id])
    && AtHook(s, p) && s.procs[p].env == env
    && match s.procs[p].hpc
       case HResolve => true
       case HRead(i, metadata) => i == id && metadata == ByMetadata(env)
       case HLate(o) => o.id == id
       case HRecheck(i) => i == id
       case HDone(result) => result == Acked
       case _ => false
  }

  /** Once answered, always answered: the status stays terminal and the intent stays what it is. */
  lemma AnsweredStays(a: Db, b: Db, env: Envelope, id: Uuid)
    requires Answered(a, env, id) && OrdersExtend(a.orders, b.orders)
    ensures Answered(b, env, id) && b.orders[id].intent == a.orders[id].intent
    ensures Agrees(env, a.orders[id]) == Agrees(env, b.orders[id])
  {
    NamesStable(a, b, env, id);
    assert RowExtends(a.orders[id], b.orders[id]);
  }

  lemma QuietFrame(s: State, t: State, p: nat, env: Envelope, id: Uuid)
    requires Quiet(s, p, env, id) && PgInv(t) && Advances(s, t) && Spares(s, t, p)
    ensures Quiet(t, p, env, id)
  {
    hide PgInv, Answered, Agrees, Names;
    AnsweredStays(s.db, t.db, env, id);
    AnsweredRow(s.db, env, id);
  }

  lemma AnsweredRow(db: Db, env: Envelope, id: Uuid)
    requires Answered(db, env, id)
    ensures Names(db, env, id) && id in db.orders && IsTerminalForWebhook(db.orders[id].status)
  {}

  /** The call's own steps: each leaves the database alone and none leads to an error. */
  lemma OwnQuiet(s: State, a: Action, p: nat, env: Envelope, id: Uuid)
    requires Quiet(s, p, env, id) && OwnStep(a, p) && Undisturbed(a, p)
    ensures Quiet(Next(s, a), p, env, id) && Next(s, a).db == s.db
  {
    hide Quiet, DoHookResolve, DoHookRead, DoHookBegin, DoHookTx, DoHookRecheck;
    match a {
      case HookResolve(_, hit, f) => ResolveQuiet(s, hit, p, env, id);
      case HookRead(_, clock, f) => ReadQuiet(s, clock, p, env, id);
      case HookBegin(_, f) => BeginQuiet(s, f, p, env, id);
      case HookTx(_, clock, f) => TxQuiet(s, clock, f, p, env, id);
      case HookRecheck(_, f) => RecheckQuiet(s, p, env, id);
      case _ =>
    }
  }

  lemma OneIntent(db: Db, n: nat, intent: string, i: Uuid, j: Uuid)
    requires DbInv(db, n) && i in db.orders && j in db.orders && db.orders[i].intent == Some(intent) == db.orders[j].intent
    ensures i == j
  {
    hide OrdersOk, AllConserved, OutboxOk, CompsOk;
  }

  lemma ResolveQuiet(s: State, hit: Option<Uuid>, p: nat, env: Envelope, id: Uuid)
    requires Quiet(s, p, env, id)
    ensures Quiet(DoHookResolve(s, p, hit, Clean), p, env, id) && DoHookResolve(s, p, hit, Clean).db == s.db
  {
    hide PgInv, Advances, DbInv, Agrees;
    HookResolveKeeps(s, p, hit, Clean);
    QueueFact(s);
    if !ByMetadata(env) && hit.Some? && FindsIntent(s.db, env.intent, hit) { OneIntent(s.db, s.next, env.intent, id, hit.value); }
  }

  lemma ReadQuiet(s: State, clock: int, p: nat, env: Envelope, id: Uuid)
    requires Quiet(s, p, env, id)
    ensures Quiet(DoHookRead(s, p, clock, Clean), p, env, id) && DoHookRead(s, p, clock, Clean).db == s.db
  {
    hide PgInv, Advances, DbInv, Names;
    HookReadKeeps(s, p, clock, Clean);
    QueueFact(s);
    RowFacts(s.db, s.next, id);
  }

  /** No paying transaction begins. */
  lemma BeginQuiet(s: State, f: Fault, p: nat, env: Envelope, id: Uuid)
    requires Quiet(s, p, env, id)
    ensures DoHookBegin(s, p, f) == s
  {
    hide PgInv, Answered, Agrees;
  }

  /** A second expiry of an answered order is refused, so the late path ends in the recheck. */
  lemma TxQuiet(s: State, clock: int, f: Fault, p: nat, env: Envelope, id: Uuid)
    requires Quiet(s, p, env, id) && f.Clean?
    ensures Quiet(DoHookTx(s, p, clock, f), p, env, id) && DoHookTx(s, p, clock, f).db == s.db
  {
    hide PgInv, Advances, DbInv, Names, PayTx, Agrees;
    HookTxKeeps(s, p, clock, f);
  }

  lemma RecheckQuiet(s: State, p: nat, env: Envelope, id: Uuid)
    requires Quiet(s, p, env, id)
    ensures Quiet(DoHookRecheck(s, p, Clean), p, env, id) && DoHookRecheck(s, p, Clean).db == s.db
  {
    hide PgInv, Advances, DbInv, Names, Agrees;
    HookRecheckKeeps(s, p, Clean);
  }

  lemma NextQuiet(s: State, a: Action, p: nat, env: Envelope, id: Uuid)
    requires Quiet(s, p, env, id) && Undisturbed(a, p)
    ensures Quiet(Next(s, a), p, env, id) && (OwnStep(a, p) ==> Next(s, a).db == s.db)
  {
    hide Quiet, PgInv, Next, Advances;
    if OwnStep(a, p) {
      OwnQuiet(s, a, p, env, id);
    } else {
      QuietCall(s, p, env, id);
      NextKeeps(s, a);
      ForeignSpares(s, a, p);
      QuietFrame(s, Next(s, a), p, env, id);
    }
  }

  lemma QuietCall(s: State, p: nat, env: Envelope, id: Uuid)
    requires Quiet(s, p, env, id)
    ensures PgInv(s) && AtHook(s, p)
  {
    hide PgInv;
  }

  /**
   * Redelivery, interleaved with anything: as long as nobody injects a fault into the call itself,
   * it writes nothing and can only return nil.
   */
  lemma {:induction false} RedeliveryIsQuiet(s: State, acts: seq<Action>, p: nat, env: Envelope, id: Uuid)
    requires Quiet(s, p, env, id) && forall k :: 0 <= k < |acts| ==> Undisturbed(acts[k], p)
    ensures Quiet(Run(s, acts), p, env, id)
    ensures forall k :: 0 <= k < |acts| && OwnStep(acts[k], p) ==> Run(s, acts[..k + 1]).db == Run(s, acts[..k]).db
    decreases |acts|
  {
    hide Quiet, Next, OwnStep, Undisturbed;
    if acts != [] {
      NextQuiet(s, acts[0], p, env, id);
      RedeliveryIsQuiet(Next(s, acts[0]), acts[1..], p, env, id);
      forall k | 0 <= k < |acts| && OwnStep(acts[k], p) ensures Run(s, acts[..k + 1]).db == Run(s, acts[..k]).db {
        assert acts[..k + 1][1..] == acts[1..][..k];
        if k > 0 {
          assert acts[1..][k - 1] == acts[k];
          assert acts[..k][1..] == acts[1..][..k - 1];
        } else {
          assert acts[..1][1..] == [];
        }
      }
    }
  }
}
