/** The reconciler: what the gateway says decides a stuck charge. */
module Recon {
  import opened Domain
  import opened Options
  import opened Store
  import opened Protocol
  import opened Steps
  import opened DbSafety
  import opened PgSafety
  import opened PgSteps
  import opened Frames
  import opened Queries
  import opened Runtime

  datatype Verdict = Charged | Declined | NoCharge | Unknown

  datatype Label = MaxAgeExceeded | FoundCharged | FoundDeclined | NoRecord | LeftUnknown | TransitionLost

  /** What `Resolve` bumps: a resolved label, or one of the three error counters. */
  datatype Bump = Resolved(outcome: Label) | NullIntent | GatewayError | MarkError

  /** White space as Unicode has it. */
  predicate IsSpace(c: char) {
    c in {' ', '\t', '\n', '\r', '\U{000B}', '\U{000C}', '\U{0085}', '\U{00A0}', '\U{1680}', '\U{2028}', '\U{2029}', '\U{202F}', '\U{205F}', '\U{3000}'}
    || '\U{2000}' <= c <= '\U{200A}'
  }

  /** What is left of an intent id after TrimSpace is nothing. */
  predicate Blank(s: string) { forall i :: 0 <= i < |s| ==> IsSpace(s[i]) }

  /** What happens around one row: how its read, its transaction and the gateway answer. */
  datatype RowScript = RowScript(before: seq<Action>, between: seq<Action>, get: Fault, tx: Fault, gateway: Option<Verdict>)

  ghost predicate ValidRow(c: RowScript, p: nat) { ForeignTo(c.before, p) && ForeignTo(c.between, p) }

  /** A Failed order with the trigger that belongs to it. */
  ghost predicate FailedWithTrigger(db: Db, id: Uuid) {
    id in db.orders && db.orders[id].status == Failed && Triggered(db.outbox, id)
  }

  /** Nobody else runs meanwhile, and no call fails. */
  ghost predicate Quiet(c: RowScript) { c.before == [] && c.between == [] && c.get.Clean? && c.tx.Clean? }

  /** The steps of a forced failure: none of its own if the row is not read, else the read and the transaction. */
  ghost predicate FailSteps(id: Uuid, p: nat, c: RowScript, trace: seq<Action>) {
    trace == c.before || trace == c.before + [JobRead(p, id, ForceFail)] + c.between + [JobTx(p, c.tx)]
  }

  /** What a verdict does to the row of a stuck order, and which counter says so. */
  predicate Settles(a: Db, b: Db, id: Uuid, charged: bool, outcome: Label, bump: Bump) {
    if id !in a.orders then b == a && bump == MarkError
    else if a.orders[id].status !in {Pending, Charging} then b == a && bump == Resolved(TransitionLost)
    else && bump == Resolved(outcome)
         && b == if charged then a.(orders := a.orders[id := a.orders[id].(status := Confirmed)]) else Failing(a, id, Failed)
  }

  /** The counter told from the age and the intent the row was listed with, and from the gateway's answer. */
  predicate Tells(maxAge: int, age: int, intent: string, gateway: Option<Verdict>, b: Bump) {
    var asked := age <= maxAge && !Blank(intent);
    && (b == NullIntent <==> age <= maxAge && Blank(intent))
    && (b == Resolved(LeftUnknown) <==> asked && gateway == Some(Unknown))
    && (b == GatewayError <==> asked && gateway == None)
    && (b == Resolved(MaxAgeExceeded) ==> age > maxAge)
    && (b == Resolved(FoundCharged) ==> asked && gateway == Some(Charged))
    && (b == Resolved(FoundDeclined) ==> asked && gateway == Some(Declined))
    && (b == Resolved(NoRecord) ==> asked && gateway == Some(NoCharge))
  }

  /** What a counter says of its row, then and ever after. */
  predicate Stands(orders: Orders, id: Uuid, b: Bump) {
    && (b in {Resolved(MaxAgeExceeded), Resolved(FoundDeclined), Resolved(NoRecord)} ==> id in orders && orders[id].status in {Failed, Compensated})
    && (b == Resolved(FoundCharged) ==> id in orders && orders[id].status == Confirmed)
    && (b == Resolved(TransitionLost) ==> id in orders && orders[id].status !in {Pending, Charging})
  }

  lemma StillStands(a: Orders, b: Orders, id: Uuid, x: Bump)
    requires Stands(a, id, x) && OrdersExtend(a, b)
    ensures Stands(b, id, x)
  {
    if id in a { assert RowExtends(a[id], b[id]); }
  }

  lemma NothingStands(orders: Orders, id: Uuid)
    ensures forall b :: b in {NullIntent, GatewayError, Resolved(LeftUnknown)} ==> Stands(orders, id, b)
  {}

  class Reconciler {
    const w: World
    const p: nat
    const minAge: int
    const batchSize: nat
    const maxChargingAge: int
    var bumps: seq<Bump>
    var findErrors: nat
    var stuckGauge: nat

    constructor (w: World, p: nat, minAge: int, batchSize: nat, maxChargingAge: int)
      ensures this.w == w && this.p == p && this.minAge == minAge && this.batchSize == batchSize && this.maxChargingAge == maxChargingAge
      ensures bumps == [] && findErrors == 0 && stuckGauge == 0
    {
      this.w, this.p, this.minAge, this.batchSize, this.maxChargingAge := w, p, minAge, batchSize, maxChargingAge;
      bumps, findErrors, stuckGauge := [], 0, 0;
    }

    /** failOrder: read the row, then MarkFailed and the trigger in one transaction. */
    method FailOrder(id: Uuid, c: RowScript) returns (error: Error, ghost trace: seq<Action>)
      requires PgInv(w.st) && p !in w.st.procs && ValidRow(c, p)
      modifies w
      ensures w.st == Run(old(w.st), trace) && PgInv(w.st) && p !in w.st.procs
      ensures error == Ok ==> FailedWithTrigger(w.st.db, id) && id in w.st.db.orders && w.st.db.orders[id].status == Failed
      ensures error == InvalidTransition ==> id in w.st.db.orders && !CanMark(w.st.db.orders[id].status, Failed)
      ensures error == Infra ==> !c.get.Clean? || !c.tx.Clean?
      ensures error == NotFound ==> c.get.Clean? && trace == c.before && id !in w.st.db.orders
      ensures error in {Ok, InvalidTransition, NotFound, Infra} && FailSteps(id, p, c, trace)
      ensures c.before == [] && c.between == [] ==>
                w.st == if c.get.Clean? then DoJobTx(DoJobRead(old(w.st), p, id, ForceFail), p, c.tx) else old(w.st)
      ensures Quiet(c) ==> forall outcome :: Settles(old(w.st.db), w.st.db, id, false, outcome, BumpOf(error, outcome))
    {
      hide PgInv, Advances, Run, Next, OwnerOf, FailTx, DoJobTx, DbInv;
      ghost var s0 := w.st;
      RunEmpty(s0);
      w.Others(c.before);
      RunKeeps(s0, c.before);
      ForeignRun(s0, c.before, p);
      trace := c.before;
      NoJob(w.st, p, id, c.tx);
      if !c.get.Clean? { return Infra, trace; }
      if id !in w.st.db.orders { return NotFound, trace; }
      ghost var s1 := w.st;
      var order := w.st.db.orders[id];
      FailsQuietly(s1, p, id);
      w.st := Put(w.st, p, Job(ForceFail, order));
      JobSteps(s1, p, id, ForceFail, c.tx);
      NextKeeps(s1, JobRead(p, id, ForceFail));
      RunSnoc(s0, trace, JobRead(p, id, ForceFail));
      trace := trace + [JobRead(p, id, ForceFail)];
      ghost var s2 := w.st;
      RunEmpty(s2);
      w.Others(c.between);
      Interfered(s2, c.between, p);
      RunConcat(s0, trace, c.between);
      trace := trace + c.between;
      ghost var s3 := w.st;
      ForceFails(s3, p, order, id, c.tx);
      RowId(s1, id);
      var r := FailTx(w.st.db, order, Failed);
      w.st := Drop(if c.tx.Fails? then w.st else w.st.(db := r.db), p);
      error := if c.tx.Fails? then Infra else if r.error == Ok && c.tx.Lost? then Infra else r.error;
      JobSteps(s3, p, id, ForceFail, c.tx);
      NextKeeps(s3, JobTx(p, c.tx));
      RunSnoc(s0, trace, JobTx(p, c.tx));
      trace := trace + [JobTx(p, c.tx)];
    }

    /** MarkConfirmed, one statement. */
    method MarkConfirmed(id: Uuid, c: RowScript) returns (error: Error, ghost trace: seq<Action>)
      requires PgInv(w.st) && p !in w.st.procs && ValidRow(c, p)
      modifies w
      ensures w.st == Run(old(w.st), trace) && PgInv(w.st) && p !in w.st.procs
      ensures error == Ok ==> id in w.st.db.orders && w.st.db.orders[id].status == Confirmed
      ensures error == InvalidTransition ==> id in w.st.db.orders && !CanMark(w.st.db.orders[id].status, Confirmed)
      ensures error !in {Ok, InvalidTransition} ==> !c.tx.Clean? || id !in w.st.db.orders
      ensures trace == c.before || trace == c.before + [Confirm(id)]
      ensures Quiet(c) ==> Settles(old(w.st.db), w.st.db, id, true, FoundCharged, BumpOf(error, FoundCharged))
    {
      hide PgInv, Advances, Run, Next, OwnerOf;
      ghost var s0 := w.st;
      RunEmpty(s0);
      w.Others(c.before);
      RunKeeps(s0, c.before);
      ForeignRun(s0, c.before, p);
      trace := c.before;
      ghost var s1 := w.st;
      if c.tx.Fails? { return Infra, trace; }
      var r := Transition(w.st.db, id, Confirmed);
      w.st := w.st.(db := r.db);
      ConfirmIs(s1, id);
      NextKeeps(s1, Confirm(id));
      RunSnoc(s0, trace, Confirm(id));
      trace := trace + [Confirm(id)];
      error := if r.error == Ok && c.tx.Lost? then Infra else r.error;
    }

    /** handleMarkErr: a lost race is a benign label, anything else an error counter. */
    method Classify(error: Error, outcome: Label)
      modifies `bumps
      ensures bumps == old(bumps) + [BumpOf(error, outcome)]
    {
      if error == Ok {
        bumps := bumps + [Resolved(outcome)];
      } else if error == InvalidTransition {
        bumps := bumps + [Resolved(TransitionLost)];
      } else {
        bumps := bumps + [MarkError];
      }
    }

    /** failOrder, counted. */
    method FailAs(id: Uuid, c: RowScript, outcome: Label) returns (ghost trace: seq<Action>)
      requires PgInv(w.st) && p !in w.st.procs && ValidRow(c, p) && outcome in {MaxAgeExceeded, FoundDeclined, NoRecord}
      modifies w, `bumps
      ensures w.st == Run(old(w.st), trace) && PgInv(w.st) && p !in w.st.procs && FailSteps(id, p, c, trace)
      ensures |bumps| == |old(bumps)| + 1 && bumps[..|old(bumps)|] == old(bumps)
      ensures var b := bumps[|old(bumps)|];
        && b in {Resolved(outcome), Resolved(TransitionLost), MarkError} && Stands(w.st.db.orders, id, b)
        && (b == Resolved(outcome) ==> FailedWithTrigger(w.st.db, id))
        && (b == MarkError ==> !c.get.Clean? || !c.tx.Clean? || id !in w.st.db.orders)
        && (Quiet(c) ==> Settles(old(w.st.db), w.st.db, id, false, outcome, b))
    {
      hide PgInv, Run, FailSteps, FailedWithTrigger, Failing;
      var error;
      error, trace := FailOrder(id, c);
      Classify(error, outcome);
    }

    /** MarkConfirmed, counted. */
    method ConfirmAs(id: Uuid, c: RowScript) returns (ghost trace: seq<Action>)
      requires PgInv(w.st) && p !in w.st.procs && ValidRow(c, p)
      modifies w, `bumps
      ensures w.st == Run(old(w.st), trace) && PgInv(w.st) && p !in w.st.procs && (trace == c.before || trace == c.before + [Confirm(id)])
      ensures |bumps| == |old(bumps)| + 1 && bumps[..|old(bumps)|] == old(bumps)
      ensures var b := bumps[|old(bumps)|];
        && b in {Resolved(FoundCharged), Resolved(TransitionLost), MarkError} && Stands(w.st.db.orders, id, b)
        && (b == MarkError ==> !c.tx.Clean? || id !in w.st.db.orders)
        && (Quiet(c) ==> Settles(old(w.st.db), w.st.db, id, true, FoundCharged, b))
    {
      hide PgInv, Run;
      var error;
      error, trace := MarkConfirmed(id, c);
      Classify(error, FoundCharged);
    }

    /**
     * One stuck order: exactly one counter moves, and it says what the gateway answered. The gateway is asked
     * only about a row young enough whose intent is not blank; only its Charged confirms the row, and the
     * failing labels come only with a Failed order and its trigger. Undisturbed, the row ends as `Settles` says.
     */
    method Resolve(id: Uuid, age: int, intent: string, c: RowScript) returns (ghost trace: seq<Action>)
      requires PgInv(w.st) && p !in w.st.procs && ValidRow(c, p)
      modifies w, `bumps
      ensures w.st == Run(old(w.st), trace) && PgInv(w.st) && p !in w.st.procs
      ensures |bumps| == |old(bumps)| + 1 && bumps[..|old(bumps)|] == old(bumps)
      ensures var b := bumps[|old(bumps)|];
        && (b in {Resolved(MaxAgeExceeded), Resolved(FoundDeclined), Resolved(NoRecord)} ==> FailedWithTrigger(w.st.db, id))
        && Stands(w.st.db.orders, id, b)
        && Tells(maxChargingAge, age, intent, c.gateway, b)
        && (b in {NullIntent, GatewayError, Resolved(LeftUnknown)} ==> w.st == old(w.st) && trace == [])
        && (b == MarkError ==> !c.get.Clean? || !c.tx.Clean? || id !in w.st.db.orders)
      ensures var asked := age <= maxChargingAge && !Blank(intent);
        && (asked && c.gateway == Some(Charged) ==> trace == c.before || trace == c.before + [Confirm(id)])
        && (age > maxChargingAge || (asked && c.gateway in {Some(Declined), Some(NoCharge)}) ==> FailSteps(id, p, c, trace))
      ensures Quiet(c) && age > maxChargingAge ==> Settles(old(w.st.db), w.st.db, id, false, MaxAgeExceeded, bumps[|old(bumps)|])
      ensures Quiet(c) && age <= maxChargingAge && !Blank(intent) && c.gateway in {Some(Charged), Some(Declined), Some(NoCharge)} ==>
                Settles(old(w.st.db), w.st.db, id, c.gateway == Some(Charged),
                        match c.gateway.value case Charged => FoundCharged case Declined => FoundDeclined case _ => NoRecord, bumps[|old(bumps)|])
    {
      hide PgInv, Run, OwnerOf, Blank, FailSteps, FailedWithTrigger, Settles, Stands;
      trace := [];
      RunEmpty(w.st);
      if age > maxChargingAge {
        trace := FailAs(id, c, MaxAgeExceeded);
        return;
      }
      NothingStands(w.st.db.orders, id);
      if Blank(intent) {
        bumps := bumps + [NullIntent];
        return;
      }
      if c.gateway.None? {
        bumps := bumps + [GatewayError];
        return;
      }
      match c.gateway.value {
        case Charged =>
          trace := ConfirmAs(id, c);
        case Declined =>
          trace := FailAs(id, c, FoundDeclined);
        case NoCharge =>
          trace := FailAs(id, c, NoRecord);
        case Unknown =>
          bumps := bumps + [Resolved(LeftUnknown)];
      }
    }

    /** FindStuckCharging, on the database clock; a NULL intent reads as empty. */
    method FindStuckCharging(updatedAt: Uuid -> int) returns (rows: seq<Uuid>, ages: seq<int>, intents: seq<string>)
      ensures OldestOf(Stuck(w.st.db.orders, {Charging}, updatedAt, w.st.now - minAge), updatedAt, batchSize, rows)
      ensures |ages| == |intents| == |rows|
      ensures forall k :: 0 <= k < |rows| ==> rows[k] in w.st.db.orders && ages[k] == w.st.now - updatedAt(rows[k]) > minAge
                                              && intents[k] == w.st.db.orders[rows[k]].IntentID()
    {
      var orders, now := w.st.db.orders, w.st.now;
      var stuck := Stuck(orders, {Charging}, updatedAt, now - minAge);
      rows := FindOldest(stuck, updatedAt, batchSize);
      assert forall k :: 0 <= k < |rows| ==> rows[k] in stuck;
      ages := seq(|rows|, k requires 0 <= k < |rows| => now - updatedAt(rows[k]));
      intents := seq(|rows|, k requires 0 <= k < |rows| && rows[k] in orders => orders[rows[k]].IntentID());
    }

    /**
     * One tick over the charges that are stuck, oldest first: every one that is reached moves exactly one
     * counter, the one its age, its intent and the gateway call for, whatever became of the others, and the row
     * is as that counter says. `updatedAt` is the column the query goes by.
     */
    method Sweep(updatedAt: Uuid -> int, scripts: seq<RowScript>, findFails: bool, cancelAt: Option<nat>)
      returns (ok: bool, ghost listed: seq<Uuid>, ghost trace: seq<Action>)
      requires PgInv(w.st) && p !in w.st.procs && |scripts| == batchSize && forall k :: 0 <= k < |scripts| ==> ValidRow(scripts[k], p)
      modifies w, this
      ensures w.st == Run(old(w.st), trace) && PgInv(w.st) && p !in w.st.procs && old(bumps) <= bumps
      ensures if findFails then listed == []
              else OldestOf(Stuck(old(w.st.db.orders), {Charging}, updatedAt, old(w.st.now) - minAge), updatedAt, batchSize, listed)
      ensures ok <==> !findFails && (cancelAt.None? || cancelAt.value >= |listed|)
      ensures |bumps| - |old(bumps)| == if findFails || ok then |listed| else cancelAt.value
      ensures |bumps| - |old(bumps)| <= |listed| <= |scripts|
      ensures forall j :: 0 <= j < |bumps| - |old(bumps)| ==>
                listed[j] in old(w.st.db.orders)
                && Tells(maxChargingAge, old(w.st.now) - updatedAt(listed[j]), old(w.st.db.orders)[listed[j]].IntentID(), scripts[j].gateway,
                         bumps[|old(bumps)| + j])
                && Stands(w.st.db.orders, listed[j], bumps[|old(bumps)| + j])
      ensures findErrors == old(findErrors) + (if findFails then 1 else 0) && stuckGauge == if findFails then old(stuckGauge) else |listed|
    {
      hide PgInv, Advances, Run, Next, OwnerOf, ValidRow, FailedWithTrigger, FailSteps, Settles, Tells, Stands, Blank, OldestOf, Stuck, OrdersExtend;
      ghost var s0 := w.st;
      listed, trace := [], [];
      RunEmpty(s0);
      if findFails {
        findErrors := findErrors + 1;
        return false, [], [];
      }
      var rows, ages, intents := FindStuckCharging(updatedAt);
      AtMost(rows, Stuck(s0.db.orders, {Charging}, updatedAt, s0.now - minAge), updatedAt, batchSize);
      listed := rows;
      stuckGauge := |rows|;
      var k := 0;
      while k < |rows|
        invariant 0 <= k <= |rows| && (cancelAt.Some? && cancelAt.value < |rows| ==> k <= cancelAt.value)
        invariant PgInv(w.st) && w.st == Run(s0, trace) && p !in w.st.procs
        invariant old(bumps) <= bumps && |bumps| == |old(bumps)| + k
        invariant forall j :: 0 <= j < k ==>
                    Tells(maxChargingAge, ages[j], intents[j], scripts[j].gateway, bumps[|old(bumps)| + j])
                    && Stands(w.st.db.orders, rows[j], bumps[|old(bumps)| + j])
        invariant findErrors == old(findErrors) && stuckGauge == |rows|
      {
        if cancelAt == Some(k) { return false, listed, trace; }
        ghost var more;
        ghost var s1 := w.st;
        more := Resolve(rows[k], ages[k], intents[k], scripts[k]);
        RunKeeps(s1, more);
        OrdersPart(s1, w.st);
        forall j | 0 <= j < k ensures Stands(w.st.db.orders, rows[j], bumps[|old(bumps)| + j]) {
          StillStands(s1.db.orders, w.st.db.orders, rows[j], bumps[|old(bumps)| + j]);
        }
        RunConcat(s0, trace, more);
        trace := trace + more;
        k := k + 1;
      }
      ok := true;
    }
  }

  /** How the end of a Mark call is counted. */
  function BumpOf(error: Error, outcome: Label): Bump {
    if error == Ok then Resolved(outcome) else if error == InvalidTransition then Resolved(TransitionLost) else MarkError
  }

  /** An undisturbed forced failure. */
  lemma FailsQuietly(s: State, p: nat, id: Uuid)
    requires PgInv(s) && p !in s.procs && id in s.db.orders
    ensures var r := FailTx(s.db, s.db.orders[id], Failed); forall outcome :: Settles(s.db, r.db, id, false, outcome, BumpOf(r.error, outcome))
  {
    hide PgInv, DbInv, FailTx;
    QueueFact(s);
    RowFacts(s.db, s.next, id);
    FailTxKeeps(s.db, s.next, s.db.orders[id], Failed);
  }

  lemma NoJob(s: State, p: nat, id: Uuid, f: Fault)
    requires p !in s.procs
    ensures id !in s.db.orders ==> DoJobTx(DoJobRead(s, p, id, ForceFail), p, f) == s
    ensures id in s.db.orders ==> DoJobRead(s, p, id, ForceFail) == Put(s, p, Job(ForceFail, s.db.orders[id]))
  {}

  lemma ConfirmIs(s: State, id: Uuid)
    ensures Next(s, Confirm(id)) == s.(db := Transition(s.db, id, Confirmed).db)
    ensures Transition(s.db, id, Confirmed).error in {Ok, InvalidTransition} || id !in s.db.orders
    ensures Transition(s.db, id, Confirmed).error == InvalidTransition ==>
              id in s.db.orders && Transition(s.db, id, Confirmed).db == s.db && !CanMark(s.db.orders[id].status, Confirmed)
    ensures Transition(s.db, id, Confirmed).error == Ok ==>
              id in s.db.orders && Transition(s.db, id, Confirmed).db.orders[id].status == Confirmed
  {}

  lemma ForceFails(s: State, p: nat, o: Order, id: Uuid, f: Fault)
    requires PgInv(s) && p in s.procs && s.procs[p] == Job(ForceFail, o)
    ensures DoJobTx(s, p, f) == Drop(if f.Fails? then s else s.(db := FailTx(s.db, o, Failed).db), p)
    ensures FailTx(s.db, o, Failed).error in {Ok, InvalidTransition}
    ensures FailTx(s.db, o, Failed).error == Ok ==> FailedWithTrigger(FailTx(s.db, o, Failed).db, o.id)
    ensures FailTx(s.db, o, Failed).error == InvalidTransition ==>
              o.id in s.db.orders && FailTx(s.db, o, Failed).db == s.db && !CanMark(s.db.orders[o.id].status, Failed)
  {
    hide PgInv, DbInv;
    ProcFact(s, p);
    var r := FailTx(s.db, o, Failed);
    if r.error == Ok { assert r.db.outbox[|s.db.outbox|].payload.order == o.id; }
  }
}
