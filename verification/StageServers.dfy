/** The two abandon compensators and their sweepers, step by step. */
module StageServers {
  import opened Domain
  import opened Options
  import opened Stages

  // ---- The candidates of a tick ----

  const LIMIT := 100

  predicate Overdue(pg: Pg, id: Uuid, cutoff: int) {
    id in pg.orders && pg.orders[id].status == AwaitingPayment && pg.orders[id].until <= cutoff
  }

  /** What the query may return: overdue orders in any order, none twice, and all of them below the limit. */
  predicate IsListing(pg: Pg, cutoff: int, rows: seq<Uuid>) {
    && |rows| <= LIMIT && (forall k :: 0 <= k < |rows| ==> Overdue(pg, rows[k], cutoff))
    && (forall k, l :: 0 <= k < l < |rows| ==> rows[k] != rows[l])
    && (|rows| < LIMIT ==> forall id :: id in pg.orders && Overdue(pg, id, cutoff) ==> id in rows)
  }

  method FindCandidates(pg: Pg, cutoff: int) returns (rows: seq<Uuid>)
    ensures IsListing(pg, cutoff, rows)
  {
    rows := [];
    var left := set id | id in pg.orders && Overdue(pg, id, cutoff);
    while |rows| < LIMIT && left != {}
      invariant |rows| <= LIMIT && forall k :: 0 <= k < |rows| ==> Overdue(pg, rows[k], cutoff) && rows[k] !in left
      invariant forall k, l :: 0 <= k < l < |rows| ==> rows[k] != rows[l]
      invariant forall id :: id in pg.orders && Overdue(pg, id, cutoff) ==> id in rows || id in left
      invariant forall id :: id in left ==> Overdue(pg, id, cutoff)
      decreases |left|
    {
      var id :| id in left;
      rows, left := rows + [id], left - {id};
    }
  }

  // ---- What others may do ----

  /** While an attempt holds the row lock of `id`, others may do anything else; on that row they wait. */
  predicate Foreign(a: Action, id: Uuid) { a.id != id || a.Begin? || a.Pay? }

  ghost predicate Elsewhere(acts: seq<Action>, id: Uuid) {
    forall k :: 0 <= k < |acts| ==> Foreign(acts[k], id)
  }

  /** Everything the holder of the lock relies on: its lock, its row, its key, and that its tickets' row is there or not. */
  ghost predicate SameFor(s: State, t: State, id: Uuid) {
    && id in s.held && id in t.held && t.held[id] == s.held[id]
    && (id in s.pg.orders <==> id in t.pg.orders) && (id in s.pg.orders ==> t.pg.orders[id] == s.pg.orders[id])
    && (id in s.guards <==> id in t.guards) && s.pg.avail.Keys == t.pg.avail.Keys
  }

  lemma ForeignStep(s: State, a: Action, id: Uuid)
    requires id in s.held && Foreign(a, id)
    ensures SameFor(s, Next(s, a), id)
  {}

  lemma {:induction false} ForeignRun(s: State, acts: seq<Action>, id: Uuid)
    requires id in s.held && Elsewhere(acts, id)
    ensures SameFor(s, Run(s, acts), id)
    decreases |acts|
  {
    hide Next, Foreign;
    if acts != [] {
      ForeignStep(s, acts[0], id);
      ForeignRun(Next(s, acts[0]), acts[1..], id);
    }
  }

  /** An order that is no longer eligible never is again, and a compensated one stays compensated. */
  lemma {:induction false} NeverEligibleAgain(s: State, acts: seq<Action>, id: Uuid)
    ensures !Eligible(s.pg, id) ==> !Eligible(Run(s, acts).pg, id)
    ensures IsCompensated(s.pg, id) ==> IsCompensated(Run(s, acts).pg, id)
    decreases |acts|
  {
    hide Next, Eligible, IsCompensated;
    if acts != [] {
      EligibleStep(s, acts[0], id);
      NeverEligibleAgain(Next(s, acts[0]), acts[1..], id);
    }
  }

  predicate IsCompensated(pg: Pg, id: Uuid) { id in pg.orders && pg.orders[id].status == Compensated }

  lemma EligibleStep(s: State, a: Action, id: Uuid)
    ensures !Eligible(s.pg, id) ==> !Eligible(Next(s, a).pg, id)
    ensures IsCompensated(s.pg, id) ==> IsCompensated(Next(s, a).pg, id)
  {}

  lemma Extended(s0: State, trace: seq<Action>, a: Action)
    ensures Run(s0, trace + [a]) == Next(Run(s0, trace), a)
  {
    hide Next;
    RunConcat(s0, trace, [a]);
    assert [a][1..] == [];
    assert Run(Run(s0, trace), [a]) == Run(Next(Run(s0, trace), a), []);
  }

  /**
   * How one attempt goes. Before it has the lock anything may happen, to its own order too; the lock may
   * not be granted; and between its later steps others run.
   */
  datatype Script = Script(gaps: seq<seq<Action>>, lockFails: bool, redis: Fault, commit: Fault)

  ghost predicate ValidScript(c: Script, id: Uuid) {
    |c.gaps| == 3 && Elsewhere(c.gaps[1], id) && Elsewhere(c.gaps[2], id)
  }

  ghost predicate Quiet(c: Script) { forall k :: 0 <= k < |c.gaps| ==> c.gaps[k] == [] }

  ghost predicate Faultless(c: Script) { Quiet(c) && !c.lockFails && c.redis.Clean? && c.commit.Clean? }

  class Stage3Server {
    var st: State
    /** Errors the sweeper logged, by order. */
    var logged: seq<Uuid>
    var findErrors: nat

    constructor (s: State)
      ensures st == s && logged == [] && findErrors == 0
    {
      st, logged, findErrors := s, [], 0;
    }

    method Others(acts: seq<Action>)
      modifies `st
      ensures st == Run(old(st), acts)
    {
      st := Run(st, acts);
    }

    /** RevertInventory under the lock. */
    method RevertUnits(id: Uuid, f: Fault) returns (ok: bool)
      requires id in st.held && !st.held[id] && Eligible(st.pg, id)
      modifies `st
      ensures st == DoRevert(old(st), id, f)
      ensures ok == f.Clean?
    {
      var o := st.pg.orders[id];
      if f.Fails? {
        st := Release(st, id);
        return false;
      }
      if id !in st.guards {
        if o.tt.value in st.qty { st := st.(qty := st.qty[o.tt.value := st.qty[o.tt.value] + o.quantity]); }
        st := st.(guards := st.guards + {id});
      }
      if f.Lost? {
        st := Release(st, id);
        return false;
      }
      st := st.(held := st.held[id := true]);
      ok := true;
    }

    /** The two updates on a working copy, and the commit. */
    method UpdateAndCommit(id: Uuid, f: Fault) returns (ok: bool)
      requires id in st.held && st.held[id] && Eligible(st.pg, id)
      modifies `st
      ensures st == DoCommit(old(st), id, f)
      ensures ok <==> f.Clean? && old(st.pg.orders[id].tt.value) in old(st.pg.avail)
    {
      var o := st.pg.orders[id];
      var tx := st.pg;
      if o.tt.value !in tx.avail {
        st := Release(st, id);
        return false;
      }
      tx := tx.(avail := tx.avail[o.tt.value := tx.avail[o.tt.value] + o.quantity]);
      if tx.orders[id].status == AwaitingPayment { tx := tx.(orders := tx.orders[id := o.(status := Compensated)]); }
      if !f.Fails? { st := st.(pg := tx); }
      st := Release(st, id);
      ok := f.Clean?;
    }

    /**
     * Compensate: lock the row, revert Redis, return the tickets, mark the order, commit. Done means
     * that the commit did exactly Stage 1's step; every other answer leaves Postgres to the others,
     * save for a commit whose reply was lost.
     */
    method Compensate(id: Uuid, c: Script) returns (r: Result, ghost trace: seq<Action>, ghost before: Pg)
      requires ValidScript(c, id)
      modifies `st
      ensures st == Run(old(st), trace)
      ensures r == Done ==> Stage1(before, id) == (st.pg, Done) && id in st.guards && id !in st.held
                            && trace != [] && before == Run(old(st), trace[..|trace| - 1]).pg
      ensures r == NotEligible ==> st.pg == before && !Eligible(before, id)
      ensures r == Failure ==> st.pg == before || (c.commit.Lost? && Stage1(before, id) == (st.pg, Done) && id in st.guards)
      ensures Quiet(c) ==> before == old(st.pg) && (id !in old(st.held) ==> st.held == old(st.held))
      ensures Faultless(c) && id !in old(st.held) ==> r == Answer(old(st), id)
      ensures Quiet(c) ==> st.guards <= old(st.guards) + {id} && old(st.guards) <= st.guards
      ensures Quiet(c) ==> st.qty == (if id in st.guards && id !in old(st.guards) && Eligible(old(st.pg), id)
                                      then Reverted(old(st), id).qty else old(st.qty))
      ensures Quiet(c) && id in st.guards && id !in old(st.guards) ==> Eligible(old(st.pg), id)
    {
      hide Run, Next, Stage1;
      ghost var s0 := st;
      Others(c.gaps[0]);
      trace := c.gaps[0];
      before := st.pg;
      RunEmpty(s0);
      if c.lockFails || id in st.held { return Failure, trace, before; }
      if id !in st.pg.orders || st.pg.orders[id].status != AwaitingPayment || st.pg.orders[id].tt.None? {
        return NotEligible, trace, before;
      }
      ghost var s1 := st;
      st := st.(held := st.held[id := false]);
      StepActions(s1, id, Clean);
      Extended(s0, trace, Begin(id));
      trace := trace + [Begin(id)];
      ghost var s2 := st;
      Others(c.gaps[1]);
      RunEmpty(s2);
      ForeignRun(s2, c.gaps[1], id);
      RunConcat(s0, trace, c.gaps[1]);
      trace := trace + c.gaps[1];
      ghost var s3 := st;
      before := st.pg;
      var ok := RevertUnits(id, c.redis);
      StepActions(s3, id, c.redis);
      Extended(s0, trace, RevertRedis(id, c.redis));
      trace := trace + [RevertRedis(id, c.redis)];
      if !ok { return Failure, trace, before; }
      ghost var s4 := st;
      Others(c.gaps[2]);
      RunEmpty(s4);
      ForeignRun(s4, c.gaps[2], id);
      RunConcat(s0, trace, c.gaps[2]);
      trace := trace + c.gaps[2];
      ghost var s5 := st;
      before := st.pg;
      ok := UpdateAndCommit(id, c.commit);
      StepActions(s5, id, c.commit);
      Extended(s0, trace, Commit(id, c.commit));
      assert (trace + [Commit(id, c.commit)])[..|trace|] == trace;
      trace := trace + [Commit(id, c.commit)];
      CommitIsStage1(s5.pg, id);
      r := if ok then Done else Failure;
    }

    /**
     * Retried until it is done or reports not-eligible, failing anywhere, among others: done means
     * compensated, and whatever happened, Redis has each reverted order's units back exactly once.
     */
    method Retry(id: Uuid, attempts: seq<Script>, ghost s0: Stages.State, ghost n: nat) returns (r: Result, ghost trace: seq<Action>)
      requires forall k :: 0 <= k < |attempts| ==> ValidScript(attempts[k], id)
      requires Inv(s0, st, n) && Counted(s0, st, n)
      modifies `st
      ensures st == Run(old(st), trace)
      ensures r == Done ==> IsCompensated(st.pg, id) && id in st.guards && id !in st.held
      ensures r == NotEligible ==> !Eligible(st.pg, id)
      ensures LegalRun(old(st), trace) ==> Inv(s0, st, n) && Counted(s0, st, n)
    {
      hide Run, Next, Inv, Counted, LegalRun, Stage1, Eligible, IsCompensated;
      ghost var s := st;
      r, trace := Failure, [];
      RunEmpty(s);
      var k := 0;
      while k < |attempts| && r == Failure
        invariant 0 <= k <= |attempts| && st == Run(s, trace)
        invariant r == Done ==> IsCompensated(st.pg, id) && id in st.guards && id !in st.held
        invariant r == NotEligible ==> !Eligible(st.pg, id)
      {
        ghost var more, before;
        r, more, before := Compensate(id, attempts[k]);
        RunConcat(s, trace, more);
        trace := trace + more;
        Stage1Compensates(before, id);
        k := k + 1;
      }
      if LegalRun(s, trace) { RunCounts(s0, s, n, trace); }
    }

    /**
     * The same undisturbed, but failing anywhere: Postgres ends exactly where Stage 1 leaves it, and
     * Redis has the units back exactly once.
     */
    method RetryAlone(id: Uuid, attempts: seq<Script>) returns (r: Result)
      requires id !in st.held && id !in st.guards && Eligible(st.pg, id) && st.pg.orders[id].tt.value in st.pg.avail
      requires forall k :: 0 <= k < |attempts| ==> ValidScript(attempts[k], id) && Quiet(attempts[k])
      modifies `st
      ensures r != Failure ==> Stage1(old(st.pg), id) == (st.pg, Done)
      ensures r != Failure ==> st.guards == old(st.guards) + {id} && st.qty == Reverted(old(st), id).qty
      ensures st.pg == old(st.pg) || Stage1(old(st.pg), id) == (st.pg, Done)
      ensures st.qty == old(st.qty) || st.qty == Reverted(old(st), id).qty
    {
      hide Run, Next;
      ghost var s0 := st;
      r := Failure;
      var k := 0;
      while k < |attempts| && r == Failure
        invariant 0 <= k <= |attempts| && id !in st.held
        invariant st.pg == s0.pg || (Stage1(s0.pg, id) == (st.pg, Done) && id in st.guards)
        invariant r != Failure ==> Stage1(s0.pg, id) == (st.pg, Done) && id in st.guards
        invariant s0.guards <= st.guards <= s0.guards + {id}
        invariant st.qty == if id in st.guards then Reverted(s0, id).qty else s0.qty
      {
        ghost var s := st;
        ghost var trace, before;
        r, trace, before := Compensate(id, attempts[k]);
        SameReverted(s0, s, id);
        k := k + 1;
      }
    }

    /**
     * One tick: each candidate is attempted once, in order, among others; what is not eligible is passed
     * over silently, and exactly the errors are logged. A candidate reported done is compensated at the
     * end of the tick, one reported not eligible is not eligible then either.
     */
    method SweepOnce(cutoff: int, findFails: bool, scripts: Uuid -> Script, cancelAt: Option<nat>)
      returns (listed: seq<Uuid>, results: seq<Result>, ghost trace: seq<Action>)
      requires forall id :: ValidScript(scripts(id), id)
      modifies this
      ensures st == Run(old(st), trace)
      ensures findErrors == old(findErrors) + (if findFails then 1 else 0)
      ensures if findFails then listed == [] else IsListing(old(st.pg), cutoff, listed)
      ensures |results| == if cancelAt.Some? && cancelAt.value < |listed| then cancelAt.value else |listed|
      ensures logged == old(logged) + Errors(listed[..|results|], results)
      ensures forall k :: 0 <= k < |results| ==> Told(st.pg, listed[k], results[k])
      ensures (forall id :: Faultless(scripts(id))) && old(st.held) == map[] && (forall id :: id in listed ==> HasType(old(st.pg), id)) ==>
                st.pg == Stage1All(old(st.pg), listed[..|results|])
    {
      hide Run, Next, Stage1, Reverted, Errors, IsListing, Told, Stage1All, HasType, Faultless, ValidScript;
      ghost var s0 := st;
      listed, results, trace := [], [], [];
      RunEmpty(st);
      NoErrors();
      Stage1None(st.pg);
      if findFails {
        findErrors := findErrors + 1;
        return;
      }
      listed := FindCandidates(st.pg, cutoff);
      ghost var smooth := (forall id :: Faultless(scripts(id))) && st.held == map[] && forall id :: id in listed ==> HasType(st.pg, id);
      var k := 0;
      while k < |listed|
        invariant 0 <= k <= |listed| && |results| == k && (cancelAt.Some? && cancelAt.value < |listed| ==> k <= cancelAt.value)
        invariant st == Run(s0, trace) && findErrors == old(findErrors)
        invariant logged == old(logged) + Errors(listed[..k], results)
        invariant forall j :: 0 <= j < k ==> Told(st.pg, listed[j], results[j])
        invariant smooth ==> st.pg == Stage1All(s0.pg, listed[..k]) && st.held == map[]
      {
        if cancelAt == Some(k) { return; }
        var id := listed[k];
        ghost var s := st;
        ghost var more, before;
        var r;
        r, more, before := Compensate(id, scripts(id));
        RunConcat(s0, trace, more);
        trace := trace + more;
        StaysTold(s, more, listed, results);
        NowTold(before, st.pg, id, r);
        MoreErrors(listed, results, k, r);
        if smooth {
          Stage1More(s0.pg, listed, k);
          KeepsType(s0.pg, listed[..k], id);
          FaultlessIsQuiet(scripts(id));
          OneOfMany(s, st.pg, id, r);
        }
        if r == Failure { logged := logged + [id]; }
        results := results + [r];
        k := k + 1;
      }
      assert listed[..k] == listed;
    }
  }

  class Stage1Server {
    var pg: Pg
    var logged: seq<Uuid>
    var findErrors: nat

    constructor (pg: Pg)
      ensures this.pg == pg && logged == [] && findErrors == 0
    {
      this.pg, logged, findErrors := pg, [], 0;
    }

    /** Compensate in one transaction; how many rows the increment touched is not looked at. */
    method Compensate(id: Uuid, lockFails: bool, commit: Fault) returns (r: Result)
      modifies `pg
      ensures r == if lockFails then Failure
                   else if Stage1(old(pg), id).1 == Done && !commit.Clean? then Failure
                   else Stage1(old(pg), id).1
      ensures pg == if lockFails || commit.Fails? then old(pg) else Stage1(old(pg), id).0
    {
      if lockFails || id !in pg.orders || pg.orders[id].tt.None? { return Failure; }
      var o := pg.orders[id];
      if o.status != AwaitingPayment { return NotEligible; }
      var tx := pg;
      if o.tt.value in tx.avail { tx := tx.(avail := tx.avail[o.tt.value := tx.avail[o.tt.value] + o.quantity]); }
      if tx.orders[id].status == AwaitingPayment { tx := tx.(orders := tx.orders[id := o.(status := Compensated)]); }
      if commit.Fails? { return Failure; }
      pg := tx;
      r := if commit.Lost? then Failure else Done;
    }

    /** One tick: each candidate is attempted once, in order, and exactly the errors are logged. */
    method SweepOnce(cutoff: int, findFails: bool, faults: Uuid -> (bool, Fault), cancelAt: Option<nat>)
      returns (listed: seq<Uuid>, results: seq<Result>)
      modifies this
      ensures findErrors == old(findErrors) + (if findFails then 1 else 0)
      ensures if findFails then listed == [] else IsListing(old(pg), cutoff, listed)
      ensures |results| == if cancelAt.Some? && cancelAt.value < |listed| then cancelAt.value else |listed|
      ensures logged == old(logged) + Errors(listed[..|results|], results)
      ensures (forall id :: id in listed ==> faults(id) == (false, Clean)) ==> pg == Stage1All(old(pg), listed[..|results|])
    {
      hide Errors, Stage1All, Stage1, IsListing;
      listed, results := [], [];
      NoErrors();
      Stage1None(pg);
      if findFails {
        findErrors := findErrors + 1;
        return;
      }
      listed := FindCandidates(pg, cutoff);
      var k := 0;
      while k < |listed|
        invariant 0 <= k <= |listed| && |results| == k && (cancelAt.Some? && cancelAt.value < |listed| ==> k <= cancelAt.value)
        invariant logged == old(logged) + Errors(listed[..k], results) && findErrors == old(findErrors)
        invariant (forall id :: id in listed ==> faults(id) == (false, Clean)) ==> pg == Stage1All(old(pg), listed[..k])
      {
        if cancelAt == Some(k) { return; }
        Stage1More(old(pg), listed, k);
        var r := Compensate(listed[k], faults(listed[k]).0, faults(listed[k]).1);
        MoreErrors(listed, results, k, r);
        if r == Failure { logged := logged + [listed[k]]; }
        results := results + [r];
        k := k + 1;
      }
      assert listed[..k] == listed;
    }
  }

  /** What an answer still means at the end of the tick. */
  predicate Told(pg: Pg, id: Uuid, r: Result) {
    (r == Done ==> IsCompensated(pg, id)) && (r == NotEligible ==> !Eligible(pg, id))
  }

  lemma StaysTold(s: State, more: seq<Action>, listed: seq<Uuid>, results: seq<Result>)
    requires |results| <= |listed| && forall j :: 0 <= j < |results| ==> Told(s.pg, listed[j], results[j])
    ensures forall j :: 0 <= j < |results| ==> Told(Run(s, more).pg, listed[j], results[j])
  {
    hide Run, Eligible, IsCompensated;
    forall j | 0 <= j < |results| ensures Told(Run(s, more).pg, listed[j], results[j]) { NeverEligibleAgain(s, more, listed[j]); }
  }

  lemma Stage1Compensates(pg: Pg, id: Uuid)
    ensures Stage1(pg, id).1 == Done ==> IsCompensated(Stage1(pg, id).0, id)
    ensures !Eligible(pg, id) ==> Stage1(pg, id).0 == pg
  {}

  lemma NowTold(before: Pg, after: Pg, id: Uuid, r: Result)
    requires r == Done ==> Stage1(before, id) == (after, Done)
    requires r == NotEligible ==> after == before && !Eligible(before, id)
    ensures Told(after, id, r)
  {
    hide Stage1, Eligible, IsCompensated;
    Stage1Compensates(before, id);
  }

  /** The order names a ticket type, and that type exists. */
  predicate HasType(pg: Pg, id: Uuid) { id in pg.orders && pg.orders[id].tt.Some? && pg.orders[id].tt.value in pg.avail }

  lemma {:induction false} KeepsType(pg: Pg, ids: seq<Uuid>, id: Uuid)
    ensures HasType(pg, id) ==> HasType(Stage1All(pg, ids), id)
    decreases |ids|
  {
    hide Stage1, HasType;
    if ids != [] {
      KeepsType(pg, ids[..|ids| - 1], id);
      KeepsTypeOnce(Stage1All(pg, ids[..|ids| - 1]), ids[|ids| - 1], id);
    }
  }

  lemma KeepsTypeOnce(pg: Pg, other: Uuid, id: Uuid)
    ensures HasType(pg, id) ==> HasType(Stage1(pg, other).0, id)
  {}

  lemma FaultlessIsQuiet(c: Script)
    requires Faultless(c)
    ensures Quiet(c)
  {}

  /** One faultless attempt of a tick has Stage 1's effect. */
  lemma OneOfMany(s: State, after: Pg, id: Uuid, r: Result)
    requires HasType(s.pg, id) && r == Answer(s, id)
    requires r == Done ==> Stage1(s.pg, id) == (after, Done)
    requires r == NotEligible ==> after == s.pg && !Eligible(s.pg, id)
    ensures after == Stage1(s.pg, id).0
  {
    hide Stage1;
    Stage1Compensates(s.pg, id);
  }

  /** Stage 1's effect for one order after another. */
  function Stage1All(pg: Pg, ids: seq<Uuid>): Pg {
    if ids == [] then pg else Stage1(Stage1All(pg, ids[..|ids| - 1]), ids[|ids| - 1]).0
  }

  lemma Stage1None(pg: Pg)
    ensures Stage1All(pg, []) == pg
  {}

  lemma Stage1More(pg: Pg, ids: seq<Uuid>, k: nat)
    requires k < |ids|
    ensures Stage1All(pg, ids[..k + 1]) == Stage1(Stage1All(pg, ids[..k]), ids[k]).0
  {
    assert ids[..k + 1][..k] == ids[..k];
  }

  /** Handling an order twice is handling it once. */
  lemma Stage1Twice(pg: Pg, id: Uuid, other: Uuid)
    ensures Stage1(Stage1(pg, id).0, id).0 == Stage1(pg, id).0
    ensures Stage1(pg, id).0 == pg ==> Stage1(Stage1(pg, other).0, id).0 == Stage1(pg, other).0
  {}

  lemma {:induction false} HandledOnce(pg: Pg, ids: seq<Uuid>, id: Uuid)
    requires id in ids
    ensures Stage1(Stage1All(pg, ids), id).0 == Stage1All(pg, ids)
    decreases |ids|
  {
    hide Stage1;
    var n := |ids| - 1;
    if ids[n] == id {
      Stage1Twice(Stage1All(pg, ids[..n]), id, id);
    } else {
      assert id in ids[..n];
      HandledOnce(pg, ids[..n], id);
      Stage1Twice(Stage1All(pg, ids[..n]), id, ids[n]);
    }
  }

  /** A later tick that lists orders an earlier one has handled changes nothing, in whatever order and however often. */
  lemma {:induction false} RepeatedCandidates(pg: Pg, ids: seq<Uuid>, again: seq<Uuid>)
    requires forall id :: id in again ==> id in ids
    ensures Stage1All(Stage1All(pg, ids), again) == Stage1All(pg, ids)
    decreases |again|
  {
    hide Stage1;
    if again != [] {
      var n := |again| - 1;
      RepeatedCandidates(pg, ids, again[..n]);
      HandledOnce(pg, ids, again[n]);
    }
  }

  function Errors(ids: seq<Uuid>, results: seq<Result>): seq<Uuid>
    requires |ids| == |results|
  {
    if ids == [] then []
    else
      var n := |ids| - 1;
      Errors(ids[..n], results[..n]) + (if results[n] == Failure then [ids[n]] else [])
  }

  lemma NoErrors()
    ensures Errors([], []) == []
  {}

  lemma MoreErrors(ids: seq<Uuid>, results: seq<Result>, k: nat, r: Result)
    requires k < |ids| && |results| == k
    ensures Errors(ids[..k + 1], results + [r]) == Errors(ids[..k], results) + (if r == Failure then [ids[k]] else [])
  {
    assert ids[..k + 1][..k] == ids[..k] && (results + [r])[..k] == results;
  }

  lemma StepActions(s: State, id: Uuid, f: Fault)
    ensures Next(s, Begin(id)) == DoBegin(s, id) && Next(s, RevertRedis(id, f)) == DoRevert(s, id, f) && Next(s, Commit(id, f)) == DoCommit(s, id, f)
  {}

  lemma CommitIsStage1(pg: Pg, id: Uuid)
    requires Eligible(pg, id)
    ensures Stage1(pg, id) == (Returned(pg, id), Done)
  {}

  /** Later attempts revert the same units, or nothing at all. */
  lemma SameReverted(s0: State, s: State, id: Uuid)
    requires id !in s0.guards && Eligible(s0.pg, id)
    ensures s.pg == s0.pg && s.qty == s0.qty && id !in s.guards ==> Reverted(s, id).qty == Reverted(s0, id).qty
    ensures Stage1(s0.pg, id) == (s.pg, Done) ==> !Eligible(s.pg, id)
  {}
}
