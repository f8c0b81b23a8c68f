/**
 * Exactly-once compensation. Every reservation is seen through one small record, `View`; under the
 * stated hypotheses on the environment each one is reverted in Redis at most once, and only when
 * Postgres has given it up.
 */
module Once {
  import opened Domain
  import opened Options
  import opened Store
  import opened Protocol
  import opened DbSafety
  import opened PgSafety
  import opened PgSteps
  import opened Ledger
  import opened LedgerSteps

  /** One reservation: its history, its row, its queue entry, its guard keys and its completion flag. */
  datatype View = View(entry: Entry, row: bool, done: bool, queued: bool,
                       entryKey: bool, intakeKey: bool, orderKey: bool, flag: bool)

  function ViewOf(s: State, i: Uuid): View
    requires i in s.ledger
  {
    View(s.ledger[i], i in s.db.orders, i in s.db.orders && s.db.orders[i].status == Compensated, i in s.msgs,
         EntryKey(i) in s.redis.guards, IntakeKey(i) in s.redis.guards, OrderKey(i) in s.redis.guards,
         WasRedisReverted(s.db, i))
  }

  predicate ViewOk(v: View) {
    && v.entry.early + v.entry.saga <= 1
    && (v.entry.early == 1 ==> !v.row && (v.queued ==> v.entryKey))
    && (v.row || v.queued ==> v.entry.stage == Published)
    && (v.entry.stage == Deducted ==> v.entry.early == 0 && !v.intakeKey)
    && (v.entry.stage == Leaked ==> v.entry.early == 0)
    && (v.entry.stage == TakenBack ==> v.entry.early == 1)
    && (v.entry.stage == Published && v.entry.early == 0 && !v.row ==> v.queued)
    && (v.entryKey ==> v.entry.early == 1)
    && (v.done ==> v.row)
    && (v.entry.saga == 1 <==> v.done && (v.orderKey || v.flag))
    && (v.orderKey || v.flag ==> v.entry.saga == 1)
  }

  ghost predicate ViewsOk(s: State) {
    forall i :: i in s.ledger ==> ViewOk(ViewOf(s, i))
  }

  /** Guard keys name reservations that exist. */
  ghost predicate KeysKnown(guards: set<GuardKey>, ledger: Entries) {
    forall key :: key in guards ==> key.id in ledger
  }

  /** What a handler that holds units, or is about to revert or record a revert, relies on. */
  ghost predicate ClaimOk(ledger: Entries, guards: set<GuardKey>, proc: Proc) {
    match proc
    case Intake(m, _) => m.id in ledger && ledger[m.id].stage == Deducted
    case Comp(e, _, pc) =>
      && (pc.CRevert? ==> e.order in ledger && (ledger[e.order].saga == 1 ==> OrderKey(e.order) in guards))
      && (pc.CMark? ==> e.order in ledger && ledger[e.order].saga == 1)
    case _ => true
  }

  ghost predicate ClaimsOk(s: State) {
    forall p :: p in s.procs ==> ClaimOk(s.ledger, s.redis.guards, s.procs[p])
  }

  ghost predicate IntakesDiffer(procs: map<nat, Proc>) {
    forall p, q :: p in procs && q in procs && p != q && procs[p].Intake? && procs[q].Intake? ==> procs[p].msg.id != procs[q].msg.id
  }

  ghost predicate OnceInv(s: State) {
    ViewsOk(s) && KeysKnown(s.redis.guards, s.ledger) && ClaimsOk(s) && IntakesDiffer(s.procs)
  }

  predicate Reverting(s: State, i: Uuid) {
    exists p :: p in s.procs && s.procs[p].Comp? && s.procs[p].cpc.CRevert? && s.procs[p].ev.order == i
  }

  /**
   * The hypotheses. A failed publish did not store the message; acknowledging is atomic with the
   * worker's commit or give-up; a guard key outlives what it guards: the queue entry, or the
   * compensator calls up to the recorded flag; and that flag can be read whenever it is the only
   * fence left.
   */
  ghost predicate Legal(s: State, a: Action) {
    match a
    case Chaos(_, _, _) => false
    case KafkaPublish(_, f) => !f.Lost?
    case WorkerTx(id, _, _) => EntryKey(id) !in s.redis.guards
    case WorkerGiveUp(id, _) => id !in s.db.orders
    case GuardLost(EntryKey(i)) => i !in s.msgs
    case GuardLost(OrderKey(i)) => WasRedisReverted(s.db, i) && !Reverting(s, i)
    case CompCheck(p, f) =>
      f.Clean? || !AtComp(s, p) || OrderKey(s.procs[p].ev.order) in s.redis.guards || !WasRedisReverted(s.db, s.procs[p].ev.order)
    case _ => true
  }

  ghost predicate LegalRun(s: State, acts: seq<Action>)
    decreases |acts|
  {
    acts == [] || (Legal(s, acts[0]) && LegalRun(Next(s, acts[0]), acts[1..]))
  }

  lemma Parts(s: State)
    requires OnceInv(s)
    ensures ViewsOk(s) && KeysKnown(s.redis.guards, s.ledger) && ClaimsOk(s) && IntakesDiffer(s.procs)
  {}

  lemma ViewFact(s: State, i: Uuid)
    requires OnceInv(s) && i in s.ledger
    ensures ViewOk(ViewOf(s, i))
  {}

  lemma ClaimFact(s: State, p: nat)
    requires OnceInv(s) && p in s.procs
    ensures ClaimOk(s.ledger, s.redis.guards, s.procs[p])
  {}

  /** Everything but reservation `i` looks as before. */
  ghost predicate OthersSame(s: State, t: State, i: Uuid) {
    forall j :: j in t.ledger && j != i ==> j in s.ledger && ViewOf(t, j) == ViewOf(s, j)
  }

  /** The frame of a step that concerns reservation `i` and at most handler `p`. */
  lemma OneView(s: State, t: State, i: Uuid, p: nat)
    requires OnceInv(s) && OthersSame(s, t, i) && (i in t.ledger ==> ViewOk(ViewOf(t, i)))
    requires KeysKnown(t.redis.guards, t.ledger)
    requires t.procs == s.procs || t.procs == s.procs - {p} || (p in t.procs && t.procs == s.procs[p := t.procs[p]])
    requires p in t.procs ==> ClaimOk(t.ledger, t.redis.guards, t.procs[p])
    requires forall q :: q in s.procs && q != p ==> ClaimOk(t.ledger, t.redis.guards, s.procs[q])
    requires p in t.procs && t.procs[p].Intake? ==>
               forall q :: q in s.procs && q != p && s.procs[q].Intake? ==> s.procs[q].msg.id != t.procs[p].msg.id
    ensures OnceInv(t)
  {
    hide ViewOk, ViewOf, ClaimOk, KeysKnown;
    Parts(s);
    forall j | j in t.ledger ensures ViewOk(ViewOf(t, j)) {
      if j != i { assert ViewOf(t, j) == ViewOf(s, j); }
    }
  }
}
