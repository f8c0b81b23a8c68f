/** The outbox relay: leader election and one batch after another, at least once. */
module Outbox {
  import opened Domain
  import opened Options
  import opened Store
  import opened Protocol
  import opened DbSafety
  import opened PgSafety
  import opened PgSteps
  import opened Guarantees
  import opened Frames
  import opened Runtime

  /** What happens around one row: others run first, then the publish and the mark end as told. */
  datatype RowScript = RowScript(before: seq<Action>, publish: Fault, mark: Fault)

  predicate IsPending(db: Db, row: nat) { row < |db.outbox| && !db.outbox[row].processed }

  /** `rows` are the oldest unprocessed rows, in order, at most `limit`, and none left out below it. */
  ghost predicate Oldest(db: Db, limit: nat, rows: seq<nat>) {
    && |rows| <= limit && (forall k :: 0 <= k < |rows| ==> IsPending(db, rows[k]))
    && (forall k, l :: 0 <= k < l < |rows| ==> rows[k] < rows[l])
    && (forall r: nat :: IsPending(db, r) && r !in rows ==> |rows| == limit && forall k :: 0 <= k < |rows| ==> rows[k] < r)
  }

  /** ListPending: the oldest unprocessed rows, in order, at most `limit`. */
  method ListPending(db: Db, limit: nat) returns (rows: seq<nat>)
    ensures Oldest(db, limit, rows)
  {
    rows := [];
    var r := 0;
    while r < |db.outbox| && |rows| < limit
      invariant 0 <= r <= |db.outbox| && |rows| <= limit
      invariant forall k :: 0 <= k < |rows| ==> IsPending(db, rows[k]) && rows[k] < r
      invariant forall k, l :: 0 <= k < l < |rows| ==> rows[k] < rows[l]
      invariant forall q: nat :: q < r && IsPending(db, q) ==> q in rows
    {
      if !db.outbox[r].processed { rows := rows + [r]; }
      r := r + 1;
    }
  }

  /** Published at least once; and marked processed too when nothing failed. */
  ghost predicate Relayed(s: State, row: nat, c: RowScript) {
    (!c.publish.Fails? ==> row in s.log) && (c.publish.Clean? && !c.mark.Fails? && row < |s.db.outbox| ==> s.db.outbox[row].processed)
  }

  lemma RelayedStays(s: State, t: State, row: nat, c: RowScript)
    requires Relayed(s, row, c) && Advances(s, t) && row < |s.db.outbox|
    ensures Relayed(t, row, c) && row < |t.db.outbox|
  {
    hide OrdersExtend, CompsExtend, GatewayExtends;
    if !c.publish.Fails? {
      var n :| 0 <= n < |s.log| && s.log[n] == row;
      assert t.log[n] == row;
    }
  }

  class Relay {
    const w: World
    const batchSize: nat
    /** Every publish attempt, in order. */
    var attempts: seq<nat>
    var unlocked: nat

    constructor (w: World, batchSize: nat)
      ensures this.w == w && this.batchSize == batchSize && attempts == [] && unlocked == 0
    {
      this.w, this.batchSize, attempts, unlocked := w, batchSize, [], 0;
    }

    /** One row: publish, then mark; a failed publish leaves it pending, a failed mark has it published again. */
    method RelayRow(row: nat, c: RowScript) returns (ghost trace: seq<Action>)
      requires PgInv(w.st) && row < |w.st.db.outbox|
      modifies w, `attempts
      ensures w.st == Run(old(w.st), trace) && PgInv(w.st) && Advances(old(w.st), w.st)
      ensures attempts == old(attempts) + [row] && row < |w.st.db.outbox| && Relayed(w.st, row, c)
    {
      hide PgInv, Advances, Run, Next;
      ghost var s0 := w.st;
      w.Others(c.before);
      RunKeeps(s0, c.before);
      trace := c.before;
      OutboxGrows(s0, w.st);
      attempts := attempts + [row];
      if c.publish.Fails? { return; }
      ghost var s1 := w.st;
      w.st := w.st.(log := w.st.log + [row]);
      PublishStep(s1, row);
      Stepped(s0, s1, trace, RelayPublish(row));
      trace := trace + [RelayPublish(row)];
      if c.publish.Lost? || c.mark.Fails? { return; }
      ghost var s2 := w.st;
      w.st := w.st.(db := MarkProcessed(w.st.db, row));
      MarkStep(s2, row);
      Stepped(s0, s2, trace, RelayMark(row));
      trace := trace + [RelayMark(row)];
    }

    /**
     * processBatch. It attempts each of the oldest pending rows exactly once, oldest first, up to the one before which
     * it is cancelled, and the failure of one row keeps no other row from being relayed.
     */
    method ProcessBatch(scripts: seq<RowScript>, listFails: bool, cancelAt: Option<nat>)
      returns (ok: bool, ghost listed: seq<nat>, ghost trace: seq<Action>)
      requires PgInv(w.st) && |scripts| == batchSize
      modifies w, `attempts
      ensures w.st == Run(old(w.st), trace) && PgInv(w.st) && Advances(old(w.st), w.st)
      ensures if listFails then listed == [] && w.st == old(w.st) else Oldest(old(w.st.db), batchSize, listed)
      ensures |listed| <= batchSize
      ensures ok <==> !listFails && (cancelAt.None? || cancelAt.value >= |listed|)
      ensures var m := if listFails || ok then |listed| else cancelAt.value;
        && attempts == old(attempts) + listed[..m]
        && forall k :: 0 <= k < m ==> listed[k] < |w.st.db.outbox| && Relayed(w.st, listed[k], scripts[k])
    {
      hide PgInv, Advances, Run, Next, Relayed;
      ghost var s0 := w.st;
      listed, trace := [], [];
      AdvancesReflexive(s0);
      RunEmpty(s0);
      if listFails {
        assert listed[..0] == [];
        return false, [], [];
      }
      var rows := ListPending(w.st.db, batchSize);
      listed := rows;
      var k := 0;
      while k < |rows|
        invariant 0 <= k <= |rows| && (cancelAt.Some? && cancelAt.value < |rows| ==> k <= cancelAt.value)
        invariant PgInv(w.st) && w.st == Run(s0, trace) && Advances(s0, w.st)
        invariant attempts == old(attempts) + rows[..k]
        invariant forall j :: 0 <= j < |rows| ==> rows[j] < |w.st.db.outbox|
        invariant forall j :: 0 <= j < k ==> Relayed(w.st, rows[j], scripts[j])
      {
        if cancelAt == Some(k) { return false, listed, trace; }
        ghost var s1 := w.st;
        ghost var more;
        more := RelayRow(rows[k], scripts[k]);
        RunConcat(s0, trace, more);
        AdvancesTransitive(s0, s1, w.st);
        trace := trace + more;
        OutboxGrows(s1, w.st);
        forall j | 0 <= j < k ensures Relayed(w.st, rows[j], scripts[j]) { RelayedStays(s1, w.st, rows[j], scripts[j]); }
        assert rows[..k + 1] == rows[..k] + [rows[k]];
        k := k + 1;
      }
      assert rows[..k] == rows;
      ok := true;
    }

    /**
     * runWithBatchHook until it is stopped: on the ticks that hold the lock, and on no others, the oldest
     * rows pending then are attempted up to where the batch is cancelled, and the lock is released once at
     * the end if it was ever held.
     */
    method RunUntilStopped(ticks: seq<Tick>) returns (ghost trace: seq<Action>, ghost lists: seq<seq<nat>>)
      requires PgInv(w.st) && forall k :: 0 <= k < |ticks| ==> |ticks[k].scripts| == batchSize
      modifies w, this
      ensures w.st == Run(old(w.st), trace) && PgInv(w.st) && Advances(old(w.st), w.st)
      ensures |lists| == |ticks| && attempts == old(attempts) + Flat(lists)
      ensures forall k :: 0 <= k < |ticks| ==>
                if IsLeader(ticks[k]) then BatchIn(old(w.st), trace, batchSize, ticks[k], lists[k]) && AllRelayed(w.st, lists[k], ticks[k].scripts)
                else lists[k] == []
      ensures unlocked == old(unlocked) + (if exists k :: 0 <= k < |ticks| && IsLeader(ticks[k]) then 1 else 0)
    {
      hide PgInv, Advances, Run, Next, Relayed, BatchIn, AllRelayed, Oldest, Flat;
      ghost var s0 := w.st;
      AdvancesReflexive(s0);
      RunEmpty(s0);
      FlatMore([], []);
      trace, lists := [], [];
      var wasLeader := false;
      var k := 0;
      while k < |ticks|
        invariant 0 <= k <= |ticks| && |lists| == k
        invariant PgInv(w.st) && w.st == Run(s0, trace) && Advances(s0, w.st)
        invariant attempts == old(attempts) + Flat(lists) && unlocked == old(unlocked)
        invariant wasLeader == exists j :: 0 <= j < k && IsLeader(ticks[j])
        invariant forall j :: 0 <= j < k ==>
                    if IsLeader(ticks[j]) then BatchIn(s0, trace, batchSize, ticks[j], lists[j]) && AllRelayed(w.st, lists[j], ticks[j].scripts)
                    else lists[j] == []
      {
        ghost var s1, before := w.st, trace;
        w.Others(ticks[k].before);
        RunKeeps(s1, ticks[k].before);
        RunConcat(s0, trace, ticks[k].before);
        trace := trace + ticks[k].before;
        ghost var list := [];
        if !ticks[k].lockFails && ticks[k].acquired {
          wasLeader := true;
          ghost var s2 := w.st;
          var ok; ghost var listed, more;
          ok, listed, more := ProcessBatch(ticks[k].scripts, ticks[k].listFails, ticks[k].cancelAt);
          list := Cut(ticks[k], listed);
          BatchHere(s0, trace, more, batchSize, ticks[k], listed);
          assert AllRelayed(w.st, list, ticks[k].scripts) by { RelayedAll(w.st, list, ticks[k].scripts); }
          RunConcat(s0, trace, more);
          AdvancesTransitive(s1, s2, w.st);
          trace := trace + more;
        }
        AdvancesTransitive(s0, s1, w.st);
        forall j | 0 <= j < k && IsLeader(ticks[j])
          ensures BatchIn(s0, trace, batchSize, ticks[j], lists[j]) && AllRelayed(w.st, lists[j], ticks[j].scripts)
        {
          BatchLater(s0, before, trace[|before|..], batchSize, ticks[j], lists[j]);
          assert trace == before + trace[|before|..];
          RelayedLater(s1, w.st, lists[j], ticks[j].scripts);
        }
        FlatMore(lists, list);
        lists := lists + [list];
        k := k + 1;
      }
      if wasLeader { unlocked := unlocked + 1; }
    }
  }

  /** One tick of the loop: what others do before it, how the lock answers, and the batch. */
  datatype Tick = Tick(before: seq<Action>, lockFails: bool, acquired: bool, scripts: seq<RowScript>, listFails: bool, cancelAt: Option<nat>)

  predicate IsLeader(t: Tick) { !t.lockFails && t.acquired }

  /** The rows of a listing that a batch reaches. */
  function Cut(t: Tick, listed: seq<nat>): seq<nat> {
    if t.listFails then [] else if t.cancelAt.Some? && t.cancelAt.value < |listed| then listed[..t.cancelAt.value] else listed
  }

  /** `list` are the rows that a batch reaches which lists after `l` steps of the run. */
  ghost predicate BatchAt(s: State, trace: seq<Action>, limit: nat, t: Tick, list: seq<nat>, l: nat) {
    l <= |trace| && if t.listFails then list == [] else exists listed :: Oldest(Run(s, trace[..l]).db, limit, listed) && list == Cut(t, listed)
  }

  ghost predicate BatchIn(s: State, trace: seq<Action>, limit: nat, t: Tick, list: seq<nat>) { exists l: nat :: BatchAt(s, trace, limit, t, list, l) }

  lemma BatchHere(s: State, trace: seq<Action>, more: seq<Action>, limit: nat, t: Tick, listed: seq<nat>)
    requires if t.listFails then listed == [] else Oldest(Run(s, trace).db, limit, listed)
    ensures BatchIn(s, trace + more, limit, t, Cut(t, listed))
  {
    hide Run, Oldest;
    assert (trace + more)[..|trace|] == trace;
    assert BatchAt(s, trace + more, limit, t, Cut(t, listed), |trace|);
  }

  lemma BatchLater(s: State, trace: seq<Action>, more: seq<Action>, limit: nat, t: Tick, list: seq<nat>)
    requires BatchIn(s, trace, limit, t, list)
    ensures BatchIn(s, trace + more, limit, t, list)
  {
    hide Run, Oldest;
    var l: nat :| BatchAt(s, trace, limit, t, list, l);
    assert (trace + more)[..l] == trace[..l];
    assert BatchAt(s, trace + more, limit, t, list, l);
  }

  /** Every row of a list is relayed as its calls allow. */
  ghost predicate AllRelayed(s: State, list: seq<nat>, scripts: seq<RowScript>) {
    |list| <= |scripts| && forall j :: 0 <= j < |list| ==> list[j] < |s.db.outbox| && Relayed(s, list[j], scripts[j])
  }

  lemma RelayedAll(s: State, list: seq<nat>, scripts: seq<RowScript>)
    requires |list| <= |scripts| && forall j :: 0 <= j < |list| ==> list[j] < |s.db.outbox| && Relayed(s, list[j], scripts[j])
    ensures AllRelayed(s, list, scripts)
  {}

  lemma RelayedLater(s: State, t: State, list: seq<nat>, scripts: seq<RowScript>)
    requires AllRelayed(s, list, scripts) && Advances(s, t)
    ensures AllRelayed(t, list, scripts)
  {
    hide Relayed, Advances;
    forall j | 0 <= j < |list| ensures list[j] < |t.db.outbox| && Relayed(t, list[j], scripts[j]) { RelayedStays(s, t, list[j], scripts[j]); }
  }

  function Flat(lists: seq<seq<nat>>): seq<nat> {
    if lists == [] then [] else Flat(lists[..|lists| - 1]) + lists[|lists| - 1]
  }

  lemma FlatMore(lists: seq<seq<nat>>, list: seq<nat>)
    ensures Flat([]) == [] && Flat(lists + [list]) == Flat(lists) + list
  {
    assert (lists + [list])[..|lists|] == lists;
  }

  lemma OutboxGrows(s: State, t: State)
    requires Advances(s, t)
    ensures |s.db.outbox| <= |t.db.outbox|
  {}

  lemma PublishStep(s: State, row: nat)
    requires row < |s.db.outbox|
    ensures s.(log := s.log + [row]) == Next(s, RelayPublish(row))
  {
    hide DoBookStream;
  }

  lemma MarkStep(s: State, row: nat)
    requires row in s.log && row < |s.db.outbox|
    ensures s.(db := MarkProcessed(s.db, row)) == Next(s, RelayMark(row))
    ensures row < |MarkProcessed(s.db, row).outbox| && MarkProcessed(s.db, row).outbox[row].processed
  {
    hide DoBookStream;
  }
}
