/** The expiry sweeper: one tick over the overdue reservations, with the labels it records. */
module Expiry {
  import opened Domain
  import opened Options
  import opened Store
  import opened Protocol
  import opened Steps
  import opened DbSafety
  import opened PgSafety
  import opened PgSteps
  import opened Guarantees
  import opened Frames
  import opened Queries
  import opened Runtime

  datatype Label =
    | ExpiredInTime | ExpiredOveraged | AlreadyTerminal | GetByIdError | MarshalError | OutboxError | TransitionError

  predicate IsExpiry(l: Label) { l.ExpiredInTime? || l.ExpiredOveraged? }

  function CountOf(labels: seq<Label>, which: set<Label>): nat {
    if labels == [] then 0 else CountOf(labels[..|labels| - 1], which) + (if labels[|labels| - 1] in which then 1 else 0)
  }

  lemma CountSnoc(labels: seq<Label>, l: Label, which: set<Label>)
    ensures CountOf(labels + [l], which) == CountOf(labels, which) + (if l in which then 1 else 0)
  {
    assert (labels + [l])[..|labels|] == labels;
  }

  // ---- The query ----

  predicate IsOverdue(orders: Orders, id: Uuid, cutoff: int) {
    id in orders && orders[id].status == AwaitingPayment && orders[id].reservedUntil <= cutoff
  }

  predicate IsAwaiting(orders: Orders, id: Uuid) { id in orders && orders[id].status == AwaitingPayment }

  function OverdueSet(orders: Orders, cutoff: int): set<Uuid> {
    set id | id in orders && IsOverdue(orders, id, cutoff)
  }

  function Deadline(orders: Orders, id: Uuid): int { if id in orders then orders[id].reservedUntil else 0 }

  function DeadlineOf(orders: Orders): Uuid -> int { (id: Uuid) => Deadline(orders, id) }

  /** FindExpiredReservations: the oldest overdue rows, oldest first, at most `limit` of them. */
  method FindExpired(orders: Orders, cutoff: int, limit: nat) returns (rows: seq<Uuid>)
    ensures |rows| <= limit && forall k :: 0 <= k < |rows| ==> IsOverdue(orders, rows[k], cutoff)
    ensures forall k, l :: 0 <= k < l < |rows| ==>
              rows[k] != rows[l] && Deadline(orders, rows[k]) <= Deadline(orders, rows[l])
    ensures forall j :: IsOverdue(orders, j, cutoff) && j !in rows ==>
              |rows| == limit && forall k :: 0 <= k < |rows| ==> Deadline(orders, rows[k]) <= Deadline(orders, j)
    ensures OldestOf(OverdueSet(orders, cutoff), DeadlineOf(orders), limit, rows)
  {
    var overdue := OverdueSet(orders, cutoff);
    rows := FindOldest(overdue, DeadlineOf(orders), limit);
    assert forall j :: IsOverdue(orders, j, cutoff) ==> j in overdue;
    assert forall j :: DeadlineOf(orders)(j) == Deadline(orders, j);
  }

  // ---- Which of the sweeper's transactions committed ----

  /** This step commits a transaction of `p`: it adds a trigger. */
  ghost predicate IsCommit(s: State, a: Action, p: nat) {
    a.JobTx? && a.p == p && |Next(s, a).db.outbox| > |s.db.outbox|
  }

  ghost function Commits(s: State, acts: seq<Action>, p: nat): nat
    decreases |acts|
  {
    if acts == [] then 0 else (if IsCommit(s, acts[0], p) then 1 else 0) + Commits(Next(s, acts[0]), acts[1..], p)
  }

  /** The commits among them whose reply was lost. */
  ghost function LostCommits(s: State, acts: seq<Action>, p: nat): nat
    decreases |acts|
  {
    if acts == [] then 0
    else (if IsCommit(s, acts[0], p) && acts[0].f.Lost? then 1 else 0) + LostCommits(Next(s, acts[0]), acts[1..], p)
  }

  lemma {:induction false} CommitsConcat(s: State, a: seq<Action>, b: seq<Action>, p: nat)
    ensures Commits(s, a + b, p) == Commits(s, a, p) + Commits(Run(s, a), b, p)
    ensures LostCommits(s, a + b, p) == LostCommits(s, a, p) + LostCommits(Run(s, a), b, p)
    decreases |a|
  {
    hide Next, IsCommit;
    if a == [] {
      assert a + b == b;
    } else {
      assert (a + b)[1..] == a[1..] + b;
      CommitsConcat(Next(s, a[0]), a[1..], b, p);
    }
  }

  lemma {:induction false} NoForeignCommits(s: State, a: seq<Action>, p: nat)
    requires ForeignTo(a, p)
    ensures Commits(s, a, p) == 0 && LostCommits(s, a, p) == 0
    decreases |a|
  {
    hide Next;
    if a != [] { NoForeignCommits(Next(s, a[0]), a[1..], p); }
  }

  lemma CommitsOne(s: State, a: Action, p: nat)
    ensures Commits(s, [a], p) == (if IsCommit(s, a, p) then 1 else 0)
    ensures LostCommits(s, [a], p) == (if IsCommit(s, a, p) && a.f.Lost? then 1 else 0)
  {
    hide Next;
    assert [a][1..] == [];
  }

  /** The row of the transaction `p` is about to run still awaits payment. */
  predicate StillAwaits(s: State, p: nat) {
    p in s.procs && s.procs[p].Job? && s.procs[p].kind.Expire?
    && s.procs[p].order.id in s.db.orders && s.db.orders[s.procs[p].order.id].status == AwaitingPayment
  }

  /**
   * A sweep transaction commits if and only if its row still awaits payment and the database does not
   * fail. It then moves exactly that row to Expired and adds exactly one trigger for it.
   */
  lemma CommitMovesOneRow(s: State, p: nat, o: Order, f: Fault)
    requires p in s.procs && s.procs[p] == Job(Expire, o)
    ensures IsCommit(s, JobTx(p, f), p) <==> !f.Fails? && StillAwaits(s, p)
    ensures Next(s, JobTx(p, f)).db == if IsCommit(s, JobTx(p, f), p)
      then s.db.(orders := s.db.orders[o.id := s.db.orders[o.id].(status := Expired)], outbox := s.db.outbox + [OutboxRow(EventOf(o), false)])
      else s.db
  {
    JobSteps(s, p, 0, Expire, f);
  }

  // ---- One row ----

  /** How the calls of one row end; `outboxFails` tells which statement a failed transaction stopped at. */
  datatype RowScript = RowScript(before: seq<Action>, between: seq<Action>, get: Fault, marshals: bool, tx: Fault, outboxFails: bool)

  ghost predicate ForeignScript(c: RowScript, p: nat) { ForeignTo(c.before, p) && ForeignTo(c.between, p) }

  /** Nobody else touches the row meanwhile. */
  ghost predicate Alone(c: RowScript) { c.before == [] && c.between == [] }

  /** And no call fails. */
  ghost predicate Calm(c: RowScript) { Alone(c) && c.get.Clean? && c.marshals && c.tx.Clean? }

  /** What a label tells of the age its row was listed with and of how its own calls ended. */
  predicate Tells(maxAge: int, age: int, c: RowScript, l: Label) {
    && (l == GetByIdError <==> !c.get.Clean?)
    && (l == MarshalError ==> !c.marshals)
    && (l in {ExpiredInTime, ExpiredOveraged, OutboxError, TransitionError} ==> c.marshals)
    && (l == OutboxError ==> c.tx.Fails? && c.outboxFails)
    && (l == TransitionError ==> c.tx.Lost? || (c.tx.Fails? && !c.outboxFails))
    && (IsExpiry(l) ==> c.tx.Clean? && (l == ExpiredOveraged <==> age > maxAge))
  }

  /** The label of a transaction, from how it ended and whether its row still awaited payment then. */
  predicate TxTells(awaits: bool, overAged: bool, c: RowScript, l: Label) {
    && (l == AlreadyTerminal <==> !awaits && (c.tx.Fails? ==> c.outboxFails))
    && (l == OutboxError <==> awaits && c.tx.Fails? && c.outboxFails)
    && (l == TransitionError <==> (c.tx.Fails? && !c.outboxFails) || (c.tx.Lost? && awaits))
    && (l == ExpiredOveraged <==> awaits && c.tx.Clean? && overAged)
    && (l == ExpiredInTime <==> awaits && c.tx.Clean? && !overAged)
  }

  /** What a label says of its row, then and ever after. */
  predicate Stands(orders: Orders, id: Uuid, l: Label) {
    && (IsExpiry(l) ==> id in orders && orders[id].status in {Expired, Compensated})
    && (l == AlreadyTerminal ==> id in orders && orders[id].status in {Paid, Expired, PaymentFailed, Compensated})
  }

  lemma StillStands(a: Orders, b: Orders, id: Uuid, l: Label)
    requires Stands(a, id, l) && OrdersExtend(a, b)
    ensures Stands(b, id, l)
  {
    if id in a { assert RowExtends(a[id], b[id]); }
  }

  /** These rows expired, and no other one touched. */
  function Swept(orders: Orders, ids: seq<Uuid>): Orders {
    map i | i in orders :: if i in ids then orders[i].(status := Expired) else orders[i]
  }

  lemma SweptMore(orders: Orders, rows: seq<Uuid>, k: nat)
    requires k < |rows| && rows[k] in orders && forall j :: 0 <= j < k ==> rows[j] != rows[k]
    ensures rows[k] in Swept(orders, rows[..k]) && Swept(orders, rows[..k])[rows[k]] == orders[rows[k]]
    ensures Swept(orders, rows[..k + 1]) == Swept(orders, rows[..k])[rows[k] := orders[rows[k]].(status := Expired)]
  {
    assert rows[..k + 1] == rows[..k] + [rows[k]];
  }

  lemma SweptNone(orders: Orders)
    ensures Swept(orders, []) == orders
  {}

  /** The rows of the query are overdue, and none comes twice. */
  lemma ListedRows(orders: Orders, cutoff: int, limit: nat, rows: seq<Uuid>)
    requires OldestOf(OverdueSet(orders, cutoff), DeadlineOf(orders), limit, rows)
    ensures |rows| <= limit && forall k :: 0 <= k < |rows| ==> IsAwaiting(orders, rows[k])
    ensures forall k, l :: 0 <= k < l < |rows| ==> rows[k] != rows[l]
  {}

  /** An expiry label and a commit, or neither: they disagree exactly when the reply of a commit was lost. */
  ghost predicate LabelFits(l: Label, overAged: bool, commits: nat, lost: nat) {
    && commits == (if IsExpiry(l) then 1 else 0) + lost && lost <= 1
    && (lost == 1 ==> l == TransitionError)
    && (IsExpiry(l) ==> (l == ExpiredOveraged <==> overAged))
  }

  /** The commits of a run and the labels of its rows add up. */
  ghost predicate Counted(s: State, acts: seq<Action>, p: nat, labels: seq<Label>, overAged: int) {
    && Commits(s, acts, p) == CountOf(labels, {ExpiredInTime, ExpiredOveraged}) + LostCommits(s, acts, p)
    && LostCommits(s, acts, p) <= CountOf(labels, {TransitionError})
    && overAged == CountOf(labels, {ExpiredOveraged})
  }

  lemma CountedMore(s: State, acts: seq<Action>, trace: seq<Action>, p: nat, labels: seq<Label>, l: Label, overAged: int, late: bool)
    requires Counted(s, acts, p, labels, overAged)
    requires LabelFits(l, late, Commits(Run(s, acts), trace, p), LostCommits(Run(s, acts), trace, p))
    ensures Counted(s, acts + trace, p, labels + [l], overAged + (if l == ExpiredOveraged then 1 else 0))
  {
    hide Commits, LostCommits, CountOf, Run;
    CommitsConcat(s, acts, trace, p);
    CountSnoc(labels, l, {ExpiredInTime, ExpiredOveraged});
    CountSnoc(labels, l, {ExpiredOveraged});
    CountSnoc(labels, l, {TransitionError});
  }

  lemma CountedNone(s: State, acts: seq<Action>, p: nat)
    requires Commits(s, acts, p) == 0 && LostCommits(s, acts, p) == 0
    ensures Counted(s, acts, p, [], 0)
  {}

  /** Each label fits the age its row was listed with. */
  predicate AllTell(maxAge: int, ages: seq<int>, scripts: seq<RowScript>, labels: seq<Label>) {
    && |labels| <= |ages| && |labels| <= |scripts|
    && forall j :: 0 <= j < |labels| ==> Tells(maxAge, ages[j], scripts[j], labels[j])
  }

  /** Each label fits its row as it is now. */
  predicate AllStand(orders: Orders, rows: seq<Uuid>, labels: seq<Label>) {
    |labels| <= |rows| && forall j :: 0 <= j < |labels| ==> Stands(orders, rows[j], labels[j])
  }

  lemma FitMore(maxAge: int, ages: seq<int>, scripts: seq<RowScript>, a: Orders, b: Orders, rows: seq<Uuid>, labels: seq<Label>, l: Label)
    requires AllTell(maxAge, ages, scripts, labels) && AllStand(a, rows, labels) && OrdersExtend(a, b)
    requires var k := |labels|; k < |rows| && k < |ages| && k < |scripts| && Tells(maxAge, ages[k], scripts[k], l) && Stands(b, rows[k], l)
    ensures AllTell(maxAge, ages, scripts, labels + [l]) && AllStand(b, rows, labels + [l])
  {
    hide Tells, Stands, OrdersExtend;
    forall j | 0 <= j < |labels| ensures Stands(b, rows[j], labels[j]) { StillStands(a, b, rows[j], labels[j]); }
  }

  lemma FitNone(maxAge: int, ages: seq<int>, scripts: seq<RowScript>, orders: Orders, rows: seq<Uuid>)
    ensures AllTell(maxAge, ages, scripts, []) && AllStand(orders, rows, [])
  {}

  /** How many rows are overdue, and for how long the oldest of them. */
  ghost predicate Backlog(orders: Orders, now: int, grace: nat, count: nat, oldest: int) {
    var overdue := OverdueSet(orders, now - grace);
    && count == |overdue|
    && (overdue == {} ==> oldest == 0)
    && (forall j :: j in overdue ==> now - Deadline(orders, j) <= oldest)
    && (overdue != {} ==> exists j :: j in overdue && oldest == now - Deadline(orders, j))
  }

  datatype SweepEnd = SweepOk | FindError | Cancelled | CountError

  class Sweeper {
    const w: World
    const p: nat
    const grace: nat
    const batchSize: nat
    const maxAge: int
    var resolved: seq<Label>
    var maxAgeExceeded: nat
    var findErrors: nat
    var backlog: nat
    var oldestAge: int

    constructor (w: World, p: nat, grace: nat, batchSize: nat, maxAge: int)
      ensures this.w == w && this.p == p && this.grace == grace && this.batchSize == batchSize && this.maxAge == maxAge
      ensures resolved == [] && maxAgeExceeded == 0 && findErrors == 0 && backlog == 0 && oldestAge == 0
    {
      this.w, this.p, this.grace, this.batchSize, this.maxAge := w, p, grace, batchSize, maxAge;
      resolved, maxAgeExceeded, findErrors, backlog, oldestAge := [], 0, 0, 0, 0;
    }

    method Record(l: Label)
      modifies `resolved
      ensures resolved == old(resolved) + [l]
    {
      resolved := resolved + [l];
    }

    /** GetByID and the status check; `Some` is a row to be expired. */
    method ReadRow(id: Uuid, c: RowScript) returns (order: Option<Order>, ghost trace: seq<Action>)
      requires PgInv(w.st) && id in w.st.found && p !in w.st.procs && ForeignScript(c, p)
      modifies w, `resolved
      ensures w.st == Run(old(w.st), trace) && PgInv(w.st) && old(w.st.found) <= w.st.found
      ensures Commits(old(w.st), trace, p) == 0 && LostCommits(old(w.st), trace, p) == 0
      ensures if order.Some? then resolved == old(resolved) && p in w.st.procs && w.st.procs[p] == Job(Expire, order.value)
              else p !in w.st.procs && |resolved| == |old(resolved)| + 1 && resolved[..|old(resolved)|] == old(resolved)
      ensures order.None? ==>
                var l := resolved[|old(resolved)|];
                && l in {GetByIdError, AlreadyTerminal, MarshalError} && (l == GetByIdError <==> !c.get.Clean?) && (l == MarshalError ==> !c.marshals)
                && Stands(w.st.db.orders, id, l) && (l == MarshalError ==> IsAwaiting(w.st.db.orders, id))
      ensures c.before == [] ==> w.st == if c.get.Clean? && c.marshals then DoJobRead(old(w.st), p, id, Expire) else old(w.st)
      ensures c.before == [] && order.Some? ==> id in old(w.st.db.orders) && order.value == old(w.st.db.orders)[id]
      ensures order.Some? ==> c.get.Clean? && c.marshals && order.value.status == AwaitingPayment && order.value.id == id
      ensures c.before == [] ==> w.st.db == old(w.st.db)
    {
      hide PgInv, Advances, Run, Next, Commits, LostCommits, OwnerOf;
      ghost var s0 := w.st;
      RunEmpty(s0);
      w.Others(c.before);
      RunKeeps(s0, c.before);
      ForeignRun(s0, c.before, p);
      FoundGrowsRun(s0, c.before);
      NoForeignCommits(s0, c.before, p);
      trace := c.before;
      order := None;
      ghost var s1 := w.st;
      FoundRow(s1, id);
      if !c.get.Clean? || id !in w.st.db.orders {
        Record(GetByIdError);
        return;
      }
      var o := w.st.db.orders[id];
      if o.status != AwaitingPayment {
        Record(AlreadyTerminal);
        return;
      }
      if !c.marshals {
        Record(MarshalError);
        return;
      }
      w.st := Put(w.st, p, Job(Expire, o));
      order := Some(o);
      RowId(s1, id);
      ReadJob(s1, p, id);
      NextKeeps(s1, JobRead(p, id, Expire));
      RunSnoc(s0, trace, JobRead(p, id, Expire));
      CommitsConcat(s0, trace, [JobRead(p, id, Expire)], p);
      CommitsOne(s1, JobRead(p, id, Expire), p);
      trace := trace + [JobRead(p, id, Expire)];
    }

    /**
     * MarkExpired and the trigger in one transaction, and the label for how it ended. Label and commit
     * disagree if and only if the reply is lost and the row still awaits payment as the transaction runs.
     */
    method CommitExpiry(order: Order, overAged: bool, c: RowScript)
      requires PgInv(w.st) && p in w.st.procs && w.st.procs[p] == Job(Expire, order)
      modifies w, `resolved, `maxAgeExceeded
      ensures w.st == DoJobTx(old(w.st), p, c.tx) && w.st.found == old(w.st.found) && p !in w.st.procs
      ensures |resolved| == |old(resolved)| + 1 && resolved[..|old(resolved)|] == old(resolved)
      ensures var l, committed := resolved[|old(resolved)|], |w.st.db.outbox| > |old(w.st.db.outbox)|;
        && (IsExpiry(l) ==> committed && (l == ExpiredOveraged <==> overAged))
        && (IsExpiry(l) != committed <==> c.tx.Lost? && old(StillAwaits(w.st, p)))
        && (IsExpiry(l) != committed ==> l == TransitionError)
        && maxAgeExceeded == old(maxAgeExceeded) + (if l == ExpiredOveraged then 1 else 0)
        && TxTells(old(StillAwaits(w.st, p)), overAged, c, l)
        && order.id in w.st.db.orders
        && (IsExpiry(l) ==> w.st.db.orders[order.id].status == Expired)
        && (l == AlreadyTerminal ==> w.st.db.orders[order.id].status != AwaitingPayment)
    {
      hide PgInv, DbInv, EventOf, DoJobTx;
      JobRow(w.st, p);
      TxJob(w.st, p, order, c.tx);
      var r := Transition(w.st.db, order.id, Expired);
      var tx := if r.error == Ok then AddOutbox(r.db, EventOf(order)) else w.st.db;
      w.st := Drop(if r.error == Ok && !c.tx.Fails? then w.st.(db := tx) else w.st, p);
      var marked := if c.tx.Fails? && !c.outboxFails then Infra else r.error;
      if marked == Ok && c.tx.Clean? {
        if overAged {
          Record(ExpiredOveraged);
          maxAgeExceeded := maxAgeExceeded + 1;
        } else {
          Record(ExpiredInTime);
        }
      } else if marked == InvalidTransition {
        Record(AlreadyTerminal);
      } else if marked == Ok && c.tx.Fails? {
        Record(OutboxError);
      } else {
        Record(TransitionError);
      }
    }

    /** A row read as awaiting payment: whatever happens before its transaction, label and commits fit each other. */
    method ExpireRow(order: Order, overAged: bool, c: RowScript) returns (ghost trace: seq<Action>)
      requires PgInv(w.st) && order.id in w.st.found && p in w.st.procs && w.st.procs[p] == Job(Expire, order) && ForeignTo(c.between, p)
      modifies w, `resolved, `maxAgeExceeded
      ensures w.st == Run(old(w.st), trace) && PgInv(w.st) && old(w.st.found) <= w.st.found && p !in w.st.procs
      ensures |resolved| == |old(resolved)| + 1 && resolved[..|old(resolved)|] == old(resolved)
      ensures var l := resolved[|old(resolved)|];
        && LabelFits(l, overAged, Commits(old(w.st), trace, p), LostCommits(old(w.st), trace, p))
        && maxAgeExceeded == old(maxAgeExceeded) + (if l == ExpiredOveraged then 1 else 0)
        && Stands(w.st.db.orders, order.id, l) && exists awaits :: TxTells(awaits, overAged, c, l)
      ensures c.between == [] ==>
                TxTells(IsAwaiting(old(w.st.db.orders), order.id), overAged, c, resolved[|old(resolved)|]) && w.st == DoJobTx(old(w.st), p, c.tx)
      ensures c.between == [] && c.tx.Clean? && IsAwaiting(old(w.st.db.orders), order.id) && old(w.st.db.orders)[order.id] == order ==>
                w.st.db == Failing(old(w.st.db), order.id, Expired)
    {
      hide PgInv, Advances, Run, Next, Commits, LostCommits, IsCommit, OwnerOf, DoJobTx, DoJobRead, TxTells;
      ghost var s0 := w.st;
      RunEmpty(s0);
      w.Others(c.between);
      Interfered(s0, c.between, p);
      FoundGrowsRun(s0, c.between);
      NoForeignCommits(s0, c.between, p);
      ghost var s := w.st;
      CommitExpiry(order, overAged, c);
      JobSteps(s, p, 0, Expire, c.tx);
      CommitLabel(s, p, order, c.tx);
      NextKeeps(s, JobTx(p, c.tx));
      FoundRow(w.st, order.id);
      History(s, JobTx(p, c.tx));
      CommitsConcat(s0, c.between, [JobTx(p, c.tx)], p);
      CommitsOne(s, JobTx(p, c.tx), p);
      RunSnoc(s0, c.between, JobTx(p, c.tx));
      trace := c.between + [JobTx(p, c.tx)];
      assert TxTells(StillAwaits(s, p), overAged, c, resolved[|old(resolved)|]);
    }

    /** One overdue reservation: exactly one label, and it is an expiry label exactly for a commit whose reply arrived. */
    method Resolve(id: Uuid, age: int, c: RowScript) returns (ghost trace: seq<Action>)
      requires PgInv(w.st) && id in w.st.found && p !in w.st.procs && ForeignScript(c, p)
      modifies w, `resolved, `maxAgeExceeded
      ensures w.st == Run(old(w.st), trace) && PgInv(w.st) && old(w.st.found) <= w.st.found && p !in w.st.procs
      ensures |resolved| == |old(resolved)| + 1 && resolved[..|old(resolved)|] == old(resolved)
      ensures var l := resolved[|old(resolved)|];
        && LabelFits(l, age > maxAge, Commits(old(w.st), trace, p), LostCommits(old(w.st), trace, p))
        && maxAgeExceeded == old(maxAgeExceeded) + (if l == ExpiredOveraged then 1 else 0)
      ensures var l := resolved[|old(resolved)|]; Tells(maxAge, age, c, l) && Stands(w.st.db.orders, id, l)
      ensures Alone(c) ==>
                && id in old(w.st.db.orders)
                && (resolved[|old(resolved)|] == AlreadyTerminal <==>
                      c.get.Clean? && old(w.st.db.orders)[id].status != AwaitingPayment)
                && w.st == (if c.get.Clean? && c.marshals then DoJobTx(DoJobRead(old(w.st), p, id, Expire), p, c.tx) else old(w.st))
      ensures Calm(c) && IsAwaiting(old(w.st.db.orders), id) ==>
                w.st.db == Failing(old(w.st.db), id, Expired)
    {
      hide PgInv, Advances, Run, Next, Commits, LostCommits, IsCommit, OwnerOf, DoJobTx, DoJobRead;
      ghost var s0 := w.st;
      var order;
      order, trace := ReadRow(id, c);
      NoJob(w.st, p, c.tx);
      FoundRow(s0, id);
      if order.None? { return; }
      ghost var s1 := w.st;
      ghost var more := ExpireRow(order.value, age > maxAge, c);
      RunConcat(s0, trace, more);
      CommitsConcat(s0, trace, more, p);
      trace := trace + more;
    }

    /** FindExpiredReservations, on the database clock. */
    method ListExpired() returns (rows: seq<Uuid>, ages: seq<int>)
      requires PgInv(w.st)
      modifies w
      ensures |rows| <= batchSize && |ages| == |rows| && forall k :: 0 <= k < |rows| ==> rows[k] in w.st.found
      ensures forall k :: 0 <= k < |rows| ==> ages[k] == w.st.now - Deadline(w.st.db.orders, rows[k]) && ages[k] >= grace
      ensures OldestOf(OverdueSet(old(w.st.db.orders), old(w.st.now) - grace), DeadlineOf(old(w.st.db.orders)), batchSize, rows)
      ensures exists ids :: w.st == Next(old(w.st), Find(ids, grace))
      ensures PgInv(w.st) && w.st.db == old(w.st.db) && w.st.procs == old(w.st.procs) && w.st.now == old(w.st.now)
    {
      hide PgInv, Advances;
      ghost var s := w.st;
      rows := FindExpired(w.st.db.orders, w.st.now - grace, batchSize);
      var now, orders := w.st.now, w.st.db.orders;
      ages := seq(|rows|, k requires 0 <= k < |rows| => now - Deadline(orders, rows[k]));
      var ids := set k | 0 <= k < |rows| :: rows[k];
      w.st := w.st.(found := w.st.found + ids);
      FindIs(s, ids, grace);
      NextKeeps(s, Find(ids, grace));
    }

    /** CountOverdueAfterCutoff: what is still overdue, and since when. */
    method CountOverdue()
      modifies `backlog, `oldestAge
      ensures Backlog(w.st.db.orders, w.st.now, grace, backlog, oldestAge)
    {
      var overdue := OverdueSet(w.st.db.orders, w.st.now - grace);
      backlog, oldestAge := |overdue|, 0;
      if overdue != {} {
        OldestExists(overdue, DeadlineOf(w.st.db.orders));
        assert forall j :: DeadlineOf(w.st.db.orders)(j) == Deadline(w.st.db.orders, j);
        var id :| id in overdue && forall j :: j in overdue ==> Deadline(w.st.db.orders, id) <= Deadline(w.st.db.orders, j);
        oldestAge := w.st.now - Deadline(w.st.db.orders, id);
      }
    }

    /**
     * One tick: one script a row, the row before which it is cancelled, if any, and whether its two
     * queries fail. Every listed row that is reached gets exactly one label; the expiry labels are the
     * commits less those whose reply was lost, each of which is labelled a transition error; and the
     * max-age counter counts the overaged ones. Each label fits the age its row was listed with and the row as
     * it ends. A tick that nothing disturbs expires exactly the rows it reaches, each with its trigger.
     */
    method Sweep(rowScripts: seq<RowScript>, findFails: bool, cancelAt: Option<nat>, countFails: bool)
      returns (end: SweepEnd, ghost listed: seq<Uuid>, ghost acts: seq<Action>)
      requires PgInv(w.st) && p !in w.st.procs && |rowScripts| == batchSize
      requires forall k :: 0 <= k < |rowScripts| ==> ForeignScript(rowScripts[k], p)
      modifies w, this
      ensures PgInv(w.st) && w.st == Run(old(w.st), acts)
      ensures if findFails then listed == []
              else OldestOf(OverdueSet(old(w.st.db.orders), old(w.st.now) - grace), DeadlineOf(old(w.st.db.orders)), batchSize, listed)
      ensures end == Cancelled <==> !findFails && cancelAt.Some? && cancelAt.value < |listed|
      ensures |resolved| >= |old(resolved)| && resolved[..|old(resolved)|] == old(resolved)
      ensures var labels := resolved[|old(resolved)|..];
        && |labels| == (match end case FindError => 0 case Cancelled => cancelAt.value case _ => |listed|) <= |listed|
        && Counted(old(w.st), acts, p, labels, maxAgeExceeded - old(maxAgeExceeded))
      ensures |listed| <= batchSize
      ensures AllTell(maxAge, AgesOf(old(w.st.db.orders), old(w.st.now), listed), rowScripts, resolved[|old(resolved)|..])
      ensures AllStand(w.st.db.orders, listed, resolved[|old(resolved)|..])
      ensures (forall j :: 0 <= j < |rowScripts| ==> Calm(rowScripts[j])) ==>
                var m := |resolved| - |old(resolved)|;
                && w.st.db.orders == Swept(old(w.st.db.orders), listed[..m]) && |w.st.db.outbox| == |old(w.st.db.outbox)| + m
      ensures findErrors == old(findErrors) + (if end == FindError || end == CountError then 1 else 0)
      ensures end == FindError <==> findFails
      ensures end == SweepOk <==> !findFails && !countFails && (cancelAt.None? || cancelAt.value >= |listed|)
      ensures end == SweepOk ==> Backlog(w.st.db.orders, w.st.now, grace, backlog, oldestAge)
      ensures end != SweepOk ==> backlog == old(backlog) && oldestAge == old(oldestAge)
    {
      hide PgInv, Advances, Run, Next, Commits, LostCommits, OwnerOf, CountOf, Counted, OverdueSet, Deadline, OldestOf, Swept, AllTell, AllStand,
           Calm, Alone, Backlog;
      ghost var s0 := w.st;
      listed, acts := [], [];
      RunEmpty(s0);
      CommitsNone(s0, p);
      CountedNone(s0, [], p);
      SweptNone(s0.db.orders);
      FitNone(maxAge, [], rowScripts, s0.db.orders, []);
      assert resolved[|resolved|..] == [] && AgesOf(s0.db.orders, s0.now, []) == [];
      if findFails {
        findErrors := findErrors + 1;
        return FindError, [], [];
      }
      var rows, ages := ListExpired();
      listed := rows;
      acts := FindCommits(s0, w.st, grace, p);
      ListedRows(s0.db.orders, s0.now - grace, batchSize, rows);
      assert ages == AgesOf(s0.db.orders, s0.now, rows);
      var cancelled; ghost var more;
      cancelled, more := SweepRows(rows, ages, rowScripts, cancelAt);
      RunConcat(s0, acts, more);
      CountedLater(s0, acts, more, p, resolved[|old(resolved)|..], maxAgeExceeded - old(maxAgeExceeded));
      acts := acts + more;
      if cancelled { return Cancelled, listed, acts; }
      if countFails {
        findErrors := findErrors + 1;
        return CountError, listed, acts;
      }
      CountOverdue();
      end := SweepOk;
    }

    /** The rows of one tick, one after another until it is cancelled. */
    method SweepRows(rows: seq<Uuid>, ages: seq<int>, rowScripts: seq<RowScript>, cancelAt: Option<nat>) returns (cancelled: bool, ghost acts: seq<Action>)
      requires PgInv(w.st) && p !in w.st.procs && |ages| == |rows| <= |rowScripts| && forall k :: 0 <= k < |rowScripts| ==> ForeignScript(rowScripts[k], p)
      requires forall k :: 0 <= k < |rows| ==> rows[k] in w.st.found && IsAwaiting(w.st.db.orders, rows[k])
      requires forall k, l :: 0 <= k < l < |rows| ==> rows[k] != rows[l]
      modifies w, `resolved, `maxAgeExceeded
      ensures PgInv(w.st) && w.st == Run(old(w.st), acts)
      ensures cancelled <==> cancelAt.Some? && cancelAt.value < |rows|
      ensures |resolved| == |old(resolved)| + (if cancelled then cancelAt.value else |rows|) && resolved[..|old(resolved)|] == old(resolved)
      ensures Counted(old(w.st), acts, p, resolved[|old(resolved)|..], maxAgeExceeded - old(maxAgeExceeded))
      ensures AllTell(maxAge, ages, rowScripts, resolved[|old(resolved)|..]) && AllStand(w.st.db.orders, rows, resolved[|old(resolved)|..])
      ensures (forall j :: 0 <= j < |rowScripts| ==> Calm(rowScripts[j])) ==>
                var m := |resolved| - |old(resolved)|;
                w.st.db.orders == Swept(old(w.st.db.orders), rows[..m]) && |w.st.db.outbox| == |old(w.st.db.outbox)| + m
    {
      hide PgInv, Advances, Run, Next, Commits, LostCommits, OwnerOf, CountOf, Counted, Swept, Tells, Stands, AllTell, AllStand, LabelFits, Calm, Alone,
           OrdersExtend, IsAwaiting;
      ghost var s0 := w.st;
      acts := [];
      RunEmpty(s0);
      CommitsNone(s0, p);
      CountedNone(s0, acts, p);
      SweptNone(s0.db.orders);
      FitNone(maxAge, ages, rowScripts, s0.db.orders, rows);
      assert rows[..0] == [] && resolved[|resolved|..] == [];
      cancelled := false;
      var k := 0;
      while k < |rows|
        invariant 0 <= k <= |rows| && (cancelAt.Some? && cancelAt.value < |rows| ==> k <= cancelAt.value)
        invariant PgInv(w.st) && w.st == Run(s0, acts) && p !in w.st.procs
        invariant forall j :: 0 <= j < |rows| ==> rows[j] in w.st.found
        invariant |resolved| == |old(resolved)| + k && resolved[..|old(resolved)|] == old(resolved)
        invariant Counted(s0, acts, p, resolved[|old(resolved)|..], maxAgeExceeded - old(maxAgeExceeded))
        invariant AllTell(maxAge, ages, rowScripts, resolved[|old(resolved)|..]) && AllStand(w.st.db.orders, rows, resolved[|old(resolved)|..])
        invariant (forall j :: 0 <= j < |rowScripts| ==> Calm(rowScripts[j])) ==>
                    w.st.db.orders == Swept(s0.db.orders, rows[..k]) && |w.st.db.outbox| == |s0.db.outbox| + k
      {
        if cancelAt == Some(k) { return true, acts; }
        ghost var labels, exceeded := resolved[|old(resolved)|..], maxAgeExceeded - old(maxAgeExceeded);
        ghost var s1 := w.st;
        SweptNext(s0.db.orders, rows, k);
        ghost var trace := Resolve(rows[k], ages[k], rowScripts[k]);
        ghost var l := resolved[|old(resolved)| + k];
        RunKeeps(s1, trace);
        OrdersPart(s1, w.st);
        FitMore(maxAge, ages, rowScripts, s1.db.orders, w.st.db.orders, rows, labels, l);
        CountedMore(s0, acts, trace, p, labels, l, exceeded, ages[k] > maxAge);
        RunConcat(s0, acts, trace);
        assert resolved[|old(resolved)|..] == labels + [l];
        acts := acts + trace;
        k := k + 1;
      }
    }
  }

  /** The ages that the query reports. */
  function AgesOf(orders: Orders, now: int, rows: seq<Uuid>): seq<int> {
    seq(|rows|, k requires 0 <= k < |rows| => now - Deadline(orders, rows[k]))
  }

  /** Row `k` is still as it was listed, and is the next to be expired. */
  lemma SweptNext(orders: Orders, rows: seq<Uuid>, k: nat)
    requires k < |rows| && IsAwaiting(orders, rows[k]) && forall i, l :: 0 <= i < l < |rows| ==> rows[i] != rows[l]
    ensures IsAwaiting(Swept(orders, rows[..k]), rows[k])
    ensures Swept(orders, rows[..k + 1]) == Swept(orders, rows[..k])[rows[k] := Swept(orders, rows[..k])[rows[k]].(status := Expired)]
  {
    hide Swept;
    SweptMore(orders, rows, k);
  }

  lemma CountedLater(s: State, acts: seq<Action>, more: seq<Action>, p: nat, labels: seq<Label>, overAged: int)
    requires Commits(s, acts, p) == 0 && LostCommits(s, acts, p) == 0 && Counted(Run(s, acts), more, p, labels, overAged)
    ensures Counted(s, acts + more, p, labels, overAged)
  {
    hide Commits, LostCommits, CountOf, Run;
    CommitsConcat(s, acts, more, p);
  }

  lemma CommitsNone(s: State, p: nat)
    ensures Commits(s, [], p) == 0 && LostCommits(s, [], p) == 0
  {}

  lemma FindIs(s: State, ids: set<Uuid>, grace: nat)
    requires forall id :: id in ids ==> Overdue(s, id, grace)
    ensures Next(s, Find(ids, grace)) == s.(found := s.found + ids)
  {
    hide Overdue;
  }

  lemma FindCommits(s: State, t: State, grace: nat, p: nat) returns (acts: seq<Action>)
    requires exists ids :: t == Next(s, Find(ids, grace))
    ensures t == Run(s, acts) && Commits(s, acts, p) == 0 && LostCommits(s, acts, p) == 0
  {
    hide Next;
    var ids :| t == Next(s, Find(ids, grace));
    acts := [Find(ids, grace)];
    RunOne(s, acts[0]);
    CommitsOne(s, acts[0], p);
  }

  lemma ReadJob(s: State, p: nat, id: Uuid)
    requires p !in s.procs && id in s.found && id in s.db.orders && s.db.orders[id].status == AwaitingPayment
    ensures Next(s, JobRead(p, id, Expire)) == Put(s, p, Job(Expire, s.db.orders[id]))
  {
    hide DoBookStream;
  }

  /** What a sweeper has found is a row whose reservation is not undone. */
  lemma FoundRow(s: State, id: Uuid)
    ensures PgInv(s) && id in s.found ==> id in s.db.orders && Reaches(AwaitingPayment, s.db.orders[id].status)
  {}

  lemma CommitLabel(s: State, p: nat, o: Order, f: Fault)
    requires p in s.procs && s.procs[p] == Job(Expire, o)
    ensures IsCommit(s, JobTx(p, f), p) <==> |DoJobTx(s, p, f).db.outbox| > |s.db.outbox|
    ensures IsCommit(s, JobTx(p, f), p) <==> !f.Fails? && StillAwaits(s, p)
    ensures IsCommit(s, JobTx(p, f), p) && s.db.orders[o.id] == o ==> DoJobTx(s, p, f).db == Failing(s.db, o.id, Expired)
  {
    hide DoJobTx, Next;
    CommitMovesOneRow(s, p, o, f);
    JobSteps(s, p, 0, Expire, f);
  }

  lemma NoJob(s: State, p: nat, f: Fault)
    ensures p !in s.procs ==> DoJobTx(s, p, f) == s
  {}

  lemma JobRow(s: State, p: nat)
    requires PgInv(s) && p in s.procs && s.procs[p].Job?
    ensures s.procs[p].order.id in s.db.orders
  {
    hide PgInv, DbInv;
    ProcFact(s, p);
  }

  lemma TxJob(s: State, p: nat, o: Order, f: Fault)
    requires p in s.procs && s.procs[p] == Job(Expire, o)
    ensures var r, t := Transition(s.db, o.id, Expired), DoJobTx(s, p, f);
      && t == Drop(if f.Fails? || r.error != Ok then s else s.(db := AddOutbox(r.db, EventOf(o))), p)
      && (|t.db.outbox| > |s.db.outbox| <==> r.error == Ok && !f.Fails?) && (r.error == Ok <==> StillAwaits(s, p))
  {
    hide Transition;
    TransitionOutbox(s.db, o.id);
  }

  lemma TransitionOutbox(db: Db, id: Uuid)
    ensures Transition(db, id, Expired).db.outbox == db.outbox && (Transition(db, id, Expired).error != Ok ==> Transition(db, id, Expired).db == db)
    ensures Transition(db, id, Expired).error == Ok <==> id in db.orders && db.orders[id].status == AwaitingPayment
  {}

  lemma {:induction false} FoundGrowsRun(s: State, acts: seq<Action>)
    ensures s.found <= Run(s, acts).found
    decreases |acts|
  {
    hide Next;
    if acts != [] {
      History(s, acts[0]);
      FoundGrowsRun(Next(s, acts[0]), acts[1..]);
    }
  }
}
