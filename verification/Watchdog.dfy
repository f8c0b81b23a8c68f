/** The saga watchdog: a second driver of the compensator, for orders that are stuck. */
module Watchdog {
  import opened Domain
  import opened Options
  import opened Store
  import opened Protocol
  import opened Steps
  import opened DbSafety
  import opened PgSafety
  import opened PgSteps
  import opened Frames
  import opened Queries
  import opened Fence
  import opened Runtime
  import Saga

  datatype Label = MaxAgeExceeded | GetByIdError | AlreadyCompensated | MarshalError | CompensatorError | Redriven

  datatype RowScript = RowScript(before: seq<Action>, get: Fault, marshals: bool, call: Saga.Script)

  ghost predicate ValidRow(c: RowScript, p: nat) { ForeignTo(c.before, p) && Saga.ValidScript(c.call, p) }

  /** The synthesized trigger names the order it was read from, and is never committed as an offset. */
  lemma Watched(s: State, p: nat, id: Uuid)
    requires PgInv(s) && p !in s.procs && id in s.db.orders && s.db.orders[id].status != Compensated
    ensures DoWatch(s, p, id) == Put(s, p, Comp(EventOf(s.db.orders[id]), FromWatchdog, CRead))
    ensures var t := DoWatch(s, p, id); Saga.At(t, p, CRead) && t.procs[p].ev.order == id && t.procs[p].src == FromWatchdog
  {
    hide PgInv, DbInv;
    QueueFact(s);
    RowFacts(s.db, s.next, id);
  }

  /** What a tick may say of a row from its age and its own read and marshalling. */
  predicate Tells(maxAge: int, age: int, c: RowScript, l: Label) {
    && (l == MaxAgeExceeded <==> age > maxAge)
    && (!c.get.Clean? && age <= maxAge ==> l == GetByIdError)
    && (l == MarshalError ==> !c.marshals && c.get.Clean?)
    && (l in {Redriven, CompensatorError} ==> c.marshals && c.get.Clean?)
  }

  /** What a label says of its row, then and ever after. */
  predicate Stands(db: Db, id: Uuid, l: Label) {
    (l == Redriven ==> Settled(db, id)) && (l == AlreadyCompensated ==> Compensates(db.orders, id))
  }

  lemma StillStands(a: Db, b: Db, id: Uuid, l: Label)
    requires Stands(a, id, l) && Extends(a, b)
    ensures Stands(b, id, l)
  {
    if id in a.orders { assert RowExtends(a.orders[id], b.orders[id]); }
  }

  class Watchdog {
    const w: World
    const compensator: Saga.Compensator
    const p: nat
    const minAge: int
    const batchSize: nat
    const maxAge: int
    var resolved: seq<Label>
    var findErrors: nat
    var stuckGauge: nat

    constructor (compensator: Saga.Compensator, p: nat, minAge: int, batchSize: nat, maxAge: int)
      ensures this.w == compensator.w && this.compensator == compensator && this.p == p
      ensures this.minAge == minAge && this.batchSize == batchSize && this.maxAge == maxAge
      ensures resolved == [] && findErrors == 0 && stuckGauge == 0
    {
      this.w, this.compensator, this.p := compensator.w, compensator, p;
      this.minAge, this.batchSize, this.maxAge := minAge, batchSize, maxAge;
      resolved, findErrors, stuckGauge := [], 0, 0;
    }

    /** The compensator on a trigger synthesized from the row. */
    method Redrive(id: Uuid, c: RowScript) returns (ok: bool, ghost trace: seq<Action>)
      requires PgInv(w.st) && p !in w.st.procs && ValidRow(c, p) && compensator.w == w
      requires id in w.st.db.orders && w.st.db.orders[id].status != Compensated
      modifies w, compensator
      ensures w.st == Run(old(w.st), trace) && PgInv(w.st) && p !in w.st.procs
      ensures |compensator.recorded| == |old(compensator.recorded)| + 1
      ensures ok ==> Settled(w.st.db, id)
      ensures Saga.Smooth(c.call) ==> (ok <==> Compensable(old(w.st.db), id))
    {
      hide PgInv, Advances, Run, Next, Settled, DoWatch, DoCompFinish, OwnerOf, Superseded;
      ghost var s := w.st;
      w.st := Put(w.st, p, Comp(EventOf(w.st.db.orders[id]), FromWatchdog, CRead));
      Watched(s, p, id);
      WatchStep(s, p, id);
      NextKeeps(s, Watch(p, id));
      RunOne(s, Watch(p, id));
      trace := [Watch(p, id)];
      ghost var more;
      ok, more := compensator.HandleOrderFailed(p, c.call);
      RunConcat(s, trace, more);
      trace := trace + more;
      ghost var t := w.st;
      w.st := Drop(w.st, p);
      Finished(t, p, ok);
      MarkActions(t, p, Clean);
      NextKeeps(t, CompFinish(p));
      RunSnoc(s, trace, CompFinish(p));
      trace := trace + [CompFinish(p)];
    }

    /**
     * One stuck order: exactly one label, each for its own reason; the compensator is called exactly for a row
     * read as not compensated whose trigger marshals, and `Redriven` means the order is settled. Undisturbed and
     * with a compensator that does not fail, an order in a failure status is settled unless it is superseded.
     */
    method Resolve(id: Uuid, age: int, c: RowScript) returns (ghost trace: seq<Action>)
      requires PgInv(w.st) && p !in w.st.procs && ValidRow(c, p) && compensator.w == w
      modifies w, compensator, `resolved
      ensures w.st == Run(old(w.st), trace) && PgInv(w.st) && p !in w.st.procs
      ensures |resolved| == |old(resolved)| + 1 && resolved[..|old(resolved)|] == old(resolved)
      ensures Tells(maxAge, age, c, resolved[|old(resolved)|])
      ensures var l := resolved[|old(resolved)|];
        && (l == MaxAgeExceeded ==> w.st == old(w.st))
        && (l == GetByIdError ==> !c.get.Clean? || id !in w.st.db.orders)
        && Stands(w.st.db, id, l)
        && (l == MarshalError ==> id in w.st.db.orders && !Compensates(w.st.db.orders, id))
        && |compensator.recorded| == |old(compensator.recorded)| + (if l in {Redriven, CompensatorError} then 1 else 0)
      ensures c.before == [] && c.get.Clean? && c.marshals && age <= maxAge && id in old(w.st.db.orders) && Saga.Smooth(c.call) ==>
                var o, l := old(w.st.db.orders[id]), resolved[|old(resolved)|];
                && (l == AlreadyCompensated <==> o.status == Compensated)
                && (l == Redriven <==> Compensable(old(w.st.db), id))
                && (l == CompensatorError <==> o.status != Compensated && !Compensable(old(w.st.db), id))
    {
      hide PgInv, Advances, Run, Next, Settled, DoWatch, DoCompFinish, OwnerOf, Superseded;
      ghost var s0 := w.st;
      trace := [];
      RunEmpty(s0);
      if age > maxAge {
        resolved := resolved + [MaxAgeExceeded];
        return;
      }
      w.Others(c.before);
      RunKeeps(s0, c.before);
      ForeignRun(s0, c.before, p);
      trace := c.before;
      if !c.get.Clean? || id !in w.st.db.orders {
        resolved := resolved + [GetByIdError];
        return;
      }
      if w.st.db.orders[id].status == Compensated {
        resolved := resolved + [AlreadyCompensated];
        return;
      }
      if !c.marshals {
        resolved := resolved + [MarshalError];
        return;
      }
      ghost var more;
      var ok;
      ok, more := Redrive(id, c);
      RunConcat(s0, trace, more);
      trace := trace + more;
      resolved := resolved + [if ok then Redriven else CompensatorError];
    }

    /** FindStuckFailed, on the database clock. */
    method FindStuckFailed(updatedAt: Uuid -> int) returns (rows: seq<Uuid>, ages: seq<int>)
      ensures OldestOf(Stuck(w.st.db.orders, {Failed, Expired, PaymentFailed}, updatedAt, w.st.now - minAge), updatedAt, batchSize, rows)
      ensures |ages| == |rows| && forall k :: 0 <= k < |rows| ==> ages[k] == w.st.now - updatedAt(rows[k]) > minAge
    {
      var now := w.st.now;
      var stuck := Stuck(w.st.db.orders, {Failed, Expired, PaymentFailed}, updatedAt, now - minAge);
      rows := FindOldest(stuck, updatedAt, batchSize);
      assert forall k :: 0 <= k < |rows| ==> rows[k] in stuck;
      ages := seq(|rows|, k requires 0 <= k < |rows| => now - updatedAt(rows[k]));
    }

    /**
     * One tick over the failed orders that are stuck, oldest first: every one that is reached gets one
     * label, one its own age and calls allow, whatever became of the others, and its row is as the label says.
     * `updatedAt` is the column the query goes by.
     */
    method Sweep(updatedAt: Uuid -> int, scripts: seq<RowScript>, findFails: bool, cancelAt: Option<nat>)
      returns (ok: bool, ghost listed: seq<Uuid>, ghost trace: seq<Action>)
      requires compensator.w == w && PgInv(w.st) && p !in w.st.procs && |scripts| == batchSize && forall k :: 0 <= k < |scripts| ==> ValidRow(scripts[k], p)
      modifies w, compensator, this
      ensures w.st == Run(old(w.st), trace) && PgInv(w.st) && p !in w.st.procs
      ensures old(resolved) <= resolved
      ensures if findFails then listed == []
              else OldestOf(Stuck(old(w.st.db.orders), {Failed, Expired, PaymentFailed}, updatedAt, old(w.st.now) - minAge), updatedAt, batchSize, listed)
      ensures ok <==> !findFails && (cancelAt.None? || cancelAt.value >= |listed|)
      ensures |resolved| - |old(resolved)| == if findFails || ok then |listed| else cancelAt.value
      ensures |resolved| - |old(resolved)| <= |listed| <= |scripts|
      ensures forall j :: 0 <= j < |resolved| - |old(resolved)| ==>
                Tells(maxAge, old(w.st.now) - updatedAt(listed[j]), scripts[j], resolved[|old(resolved)| + j])
                && Stands(w.st.db, listed[j], resolved[|old(resolved)| + j])
      ensures findErrors == old(findErrors) + (if findFails then 1 else 0) && stuckGauge == if findFails then old(stuckGauge) else |listed|
    {
      hide PgInv, Advances, Run, Next, Settled, OwnerOf, ValidRow, Tells, Stands, OldestOf, Stuck, Extends;
      ghost var s0 := w.st;
      listed, trace := [], [];
      RunEmpty(s0);
      if findFails {
        findErrors := findErrors + 1;
        return false, [], [];
      }
      var rows, ages := FindStuckFailed(updatedAt);
      AtMost(rows, Stuck(s0.db.orders, {Failed, Expired, PaymentFailed}, updatedAt, s0.now - minAge), updatedAt, batchSize);
      listed := rows;
      stuckGauge := |rows|;
      var k := 0;
      while k < |rows|
        invariant 0 <= k <= |rows| && (cancelAt.Some? && cancelAt.value < |rows| ==> k <= cancelAt.value)
        invariant PgInv(w.st) && w.st == Run(s0, trace) && p !in w.st.procs
        invariant old(resolved) <= resolved && |resolved| == |old(resolved)| + k
        invariant forall j :: 0 <= j < k ==>
                    Tells(maxAge, ages[j], scripts[j], resolved[|old(resolved)| + j]) && Stands(w.st.db, rows[j], resolved[|old(resolved)| + j])
        invariant findErrors == old(findErrors) && stuckGauge == |rows|
      {
        if cancelAt == Some(k) { return false, listed, trace; }
        ghost var more;
        ghost var s1 := w.st;
        more := Resolve(rows[k], ages[k], scripts[k]);
        RunKeeps(s1, more);
        DbPart(s1, w.st);
        forall j | 0 <= j < k ensures Stands(w.st.db, rows[j], resolved[|old(resolved)| + j]) {
          StillStands(s1.db, w.st.db, rows[j], resolved[|old(resolved)| + j]);
        }
        RunConcat(s0, trace, more);
        trace := trace + more;
        k := k + 1;
      }
      ok := true;
    }
  }

  lemma DbPart(s: State, t: State)
    requires Advances(s, t)
    ensures Extends(s.db, t.db)
  {}

  lemma Finished(s: State, p: nat, ok: bool)
    requires Saga.At(s, p, CDone(ok)) && s.procs[p].src == FromWatchdog
    ensures DoCompFinish(s, p) == Drop(s, p)
  {}
}
