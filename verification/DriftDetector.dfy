/** The drift detector: one comparison of the two stores, with what it counts and shows. */
module DriftDetector {
  import opened Sums
  import opened Domain
  import opened Options
  import opened Store
  import opened Protocol
  import opened DbSafety
  import opened PgSafety
  import opened PgSteps
  import opened Guarantees
  import opened Ledger
  import opened LedgerSteps
  import opened Once
  import opened OnceSteps
  import opened Drift
  import opened Fence
  import opened Runtime

  datatype Direction = CacheMissing | CacheHigh | CacheLowExcess

  /** Ordered as in the source: skipped outranks drifted, drifted outranks clean. */
  datatype Outcome = InStep | Drifted | Skipped

  function Rank(o: Outcome): nat { if o.InStep? then 0 else if o.Drifted? then 1 else 2 }

  function Worse(a: Outcome, b: Outcome): Outcome { if Rank(b) > Rank(a) then b else a }

  /** What one ticket type's numbers say; a missing key reads as zero. */
  function Classify(dbQty: int, cache: Option<int>, tolerance: int): Option<Direction> {
    var cacheQty := if cache.Some? then cache.value else 0;
    if cache.None? && dbQty > 0 then Some(CacheMissing)
    else if dbQty - cacheQty < 0 then Some(CacheHigh)
    else if dbQty - cacheQty > tolerance then Some(CacheLowExcess)
    else None
  }

  function CacheOf(qty: map<Uuid, int>, id: Uuid): Option<int> { if id in qty then Some(qty[id]) else None }

  function AvailOf(db: Db, id: Uuid): int { if id in db.avail then db.avail[id] else 0 }

  /** Tickets that are out of both counters: in flight, leaked, or compensated and not reverted. */
  ghost function OpenUnitsOf(t: State, tt: Uuid): int {
    Sum(t.next, Queued(t, tt)) + Sum(t.next, InHand(t, tt)) + Sum(t.next, LeakedUnits(t, tt)) + Sum(t.next, Unreverted(t, tt))
  }

  /** What the detector can report on one state of a run that meets the hypotheses: never a missing or a high counter, and a low one exactly if more is open than tolerated. */
  lemma NeverCacheHigh(s: State, acts: seq<Action>, tt: Uuid, tolerance: nat)
    requires Start(s) && LegalRun(s, acts) && tt in s.db.total
    ensures var t := Run(s, acts);
      Classify(AvailOf(t.db, tt), CacheOf(t.redis.qty, tt), tolerance) == if OpenUnitsOf(t, tt) > tolerance then Some(CacheLowExcess) else None
  {
    hide Start, LegalRun, Queued, InHand, LeakedUnits, Unreverted, Sum;
    CacheNeverHigh(s, acts, tt);
  }

  /**
   * The detector reads Postgres first and Redis later. What counts is what is open at the second read, that is in
   * flight, leaked or still to be reverted, less the tickets that came back in Postgres in between: it reports
   * `cache_high` if and only if more came back, `cache_low_excess` if and only if more than the tolerance is left.
   */
  lemma HighMeansTicketsCameBack(s: State, a: seq<Action>, b: seq<Action>, tt: Uuid, tolerance: nat)
    requires Start(s) && LegalRun(s, a + b) && tt in s.db.total
    ensures tt in Run(s, a).db.avail && tt in Run(s, a + b).redis.qty && tt in Run(s, a + b).db.avail
    ensures var before, t := Run(s, a), Run(s, a + b);
      var left := OpenUnitsOf(t, tt) - (t.db.avail[tt] - before.db.avail[tt]);
      Classify(before.db.avail[tt], CacheOf(t.redis.qty, tt), tolerance)
      == if left < 0 then Some(CacheHigh) else if left > tolerance then Some(CacheLowExcess) else None
  {
    hide Start, LegalRun, Conserved, Queued, InHand, LeakedUnits, Unreverted, Sum;
    NoOversell(s, a, tt);
    CacheNeverHigh(s, a + b, tt);
  }

  /** How one cache read ends. */
  datatype Read = Value | ReadFails | ReadCancelled

  /** What the detector read of one ticket type: the row first, the counter later. */
  datatype Seen = Seen(id: Uuid, available: int, cache: Option<int>, read: Read)

  /** The outcome of one ticket type. */
  function OutcomeOf(x: Seen, tolerance: int): Outcome {
    match x.read
    case ReadFails => Skipped
    case ReadCancelled => InStep
    case Value => if Classify(x.available, x.cache, tolerance).Some? then Drifted else InStep
  }

  /** What is counted of one ticket type: nothing, or the one direction its numbers say. */
  function Counts(x: Seen, tolerance: int): seq<(Uuid, Direction)> {
    if OutcomeOf(x, tolerance) == Drifted then [(x.id, Classify(x.available, x.cache, tolerance).value)] else []
  }

  function DriftsOf(seen: seq<Seen>, tolerance: int): seq<(Uuid, Direction)> {
    if seen == [] then [] else DriftsOf(seen[..|seen| - 1], tolerance) + Counts(seen[|seen| - 1], tolerance)
  }

  function FailedReads(seen: seq<Seen>): nat {
    if seen == [] then 0 else FailedReads(seen[..|seen| - 1]) + (if seen[|seen| - 1].read.ReadFails? then 1 else 0)
  }

  lemma CountedMore(seen: seq<Seen>, x: Seen, tolerance: int)
    ensures DriftsOf(seen + [x], tolerance) == DriftsOf(seen, tolerance) + Counts(x, tolerance)
    ensures FailedReads(seen + [x]) == FailedReads(seen) + (if x.read.ReadFails? then 1 else 0)
  {
    assert (seen + [x])[..|seen|] == seen;
  }

  /** A drifted ticket type is among what is counted, and nothing else is. */
  lemma {:induction false} DriftsAreExact(seen: seq<Seen>, tolerance: int, id: Uuid, d: Direction)
    ensures (id, d) in DriftsOf(seen, tolerance) <==>
              exists k :: 0 <= k < |seen| && seen[k].id == id && seen[k].read.Value? && Classify(seen[k].available, seen[k].cache, tolerance) == Some(d)
  {
    hide Classify;
    if seen != [] {
      var n := |seen| - 1;
      DriftsAreExact(seen[..n], tolerance, id, d);
      assert forall k :: 0 <= k < n ==> seen[..n][k] == seen[k];
      assert (id, d) in Counts(seen[n], tolerance)
        <==> seen[n].id == id && seen[n].read.Value? && Classify(seen[n].available, seen[n].cache, tolerance) == Some(d);
    }
  }

  function Worst(seen: seq<Seen>, tolerance: int): Outcome {
    if seen == [] then InStep
    else Worse(Worst(seen[..|seen| - 1], tolerance), OutcomeOf(seen[|seen| - 1], tolerance))
  }

  /** An event counts as drifted exactly if some ticket type drifted and the cache read of none failed. */
  lemma {:induction false} WorstIsExact(seen: seq<Seen>, tolerance: int)
    ensures Worst(seen, tolerance) == Skipped <==> exists k :: 0 <= k < |seen| && OutcomeOf(seen[k], tolerance) == Skipped
    ensures Worst(seen, tolerance) == InStep <==> forall k :: 0 <= k < |seen| ==> OutcomeOf(seen[k], tolerance) == InStep
  {
    hide OutcomeOf;
    if seen != [] {
      var n := |seen| - 1;
      WorstIsExact(seen[..n], tolerance);
      assert forall k :: 0 <= k < n ==> seen[..n][k] == seen[k];
      assert OutcomeOf(seen[n], tolerance) == Skipped ==> Worst(seen, tolerance) == Skipped;
    }
  }

  // ---- When a number was read ----

  /** The row was read after `l` steps of the run and the counter after `m`. */
  ghost predicate ReadAt(s: State, trace: seq<Action>, x: Seen, l: nat, m: nat) {
    l <= m <= |trace| && x.available == AvailOf(Run(s, trace[..l]).db, x.id) && x.cache == CacheOf(Run(s, trace[..m]).redis.qty, x.id)
  }

  /** Both numbers of `x` are from this run, the row's first. */
  ghost predicate ReadIn(s: State, trace: seq<Action>, x: Seen) {
    exists l: nat, m: nat :: ReadAt(s, trace, x, l, m)
  }

  lemma StillReadIn(s: State, trace: seq<Action>, more: seq<Action>, x: Seen)
    requires ReadIn(s, trace, x)
    ensures ReadIn(s, trace + more, x)
  {
    hide Run;
    var l: nat, m: nat :| ReadAt(s, trace, x, l, m);
    assert (trace + more)[..l] == trace[..l] && (trace + more)[..m] == trace[..m];
    assert ReadAt(s, trace + more, x, l, m);
  }

  /** The same reads, seen from an earlier state. */
  lemma ReadLater(s: State, before: seq<Action>, trace: seq<Action>, x: Seen)
    requires ReadIn(Run(s, before), trace, x)
    ensures ReadIn(s, before + trace, x)
  {
    hide Run;
    var l: nat, m: nat :| ReadAt(Run(s, before), trace, x, l, m);
    RunConcat(s, before, trace[..l]);
    RunConcat(s, before, trace[..m]);
    assert (before + trace)[..|before| + l] == before + trace[..l] && (before + trace)[..|before| + m] == before + trace[..m];
    assert ReadAt(s, before + trace, x, |before| + l, |before| + m);
  }

  /** The same of any two numbers that the detector reads in a legal run. */
  lemma HighReadsAreStale(s: State, trace: seq<Action>, x: Seen, tolerance: nat) returns (l: nat, m: nat)
    requires Start(s) && LegalRun(s, trace) && x.id in s.db.total && ReadIn(s, trace, x)
    ensures ReadAt(s, trace, x, l, m)
    ensures var t := Run(s, trace[..m]);
      var left := OpenUnitsOf(t, x.id) - (AvailOf(t.db, x.id) - x.available);
      Classify(x.available, x.cache, tolerance) == if left < 0 then Some(CacheHigh) else if left > tolerance then Some(CacheLowExcess) else None
  {
    hide Start, LegalRun, Run, Queued, InHand, LeakedUnits, Unreverted;
    l, m :| ReadAt(s, trace, x, l, m);
    assert trace[..m] == trace[..l] + trace[l..m];
    assert trace == trace[..m] + trace[m..];
    LegalPrefix(s, trace[..m], trace[m..]);
    HighMeansTicketsCameBack(s, trace[..l], trace[l..m], x.id, tolerance);
  }

  lemma {:induction false} LegalPrefix(s: State, a: seq<Action>, b: seq<Action>)
    requires LegalRun(s, a + b)
    ensures LegalRun(s, a)
    decreases |a|
  {
    hide Legal, Next;
    if a != [] {
      assert (a + b)[1..] == a[1..] + b;
      LegalPrefix(Next(s, a[0]), a[1..], b);
    }
  }

  /** The ticket types are those of the event, as they were after `l` steps of the run. */
  ghost predicate ListedAt(s: State, trace: seq<Action>, event: Uuid, seen: seq<Seen>, l: nat) {
    l <= |trace| && Ids(seen) == ListByEvent(Run(s, trace[..l]).db.types, event)
  }

  ghost predicate ListedIn(s: State, trace: seq<Action>, event: Uuid, seen: seq<Seen>) { exists l: nat :: ListedAt(s, trace, event, seen, l) }

  function Ids(seen: seq<Seen>): seq<Uuid> { seq(|seen|, k requires 0 <= k < |seen| => seen[k].id) }

  lemma StillListedIn(s: State, trace: seq<Action>, more: seq<Action>, event: Uuid, seen: seq<Seen>)
    requires ListedIn(s, trace, event, seen)
    ensures ListedIn(s, trace + more, event, seen)
  {
    hide Run, ListByEvent;
    var l: nat :| ListedAt(s, trace, event, seen, l);
    assert (trace + more)[..l] == trace[..l];
    assert ListedAt(s, trace + more, event, seen, l);
  }

  lemma ListedLater(s: State, before: seq<Action>, trace: seq<Action>, event: Uuid, seen: seq<Seen>)
    requires ListedIn(Run(s, before), trace, event, seen)
    ensures ListedIn(s, before + trace, event, seen)
  {
    hide Run, ListByEvent;
    var l: nat :| ListedAt(Run(s, before), trace, event, seen, l);
    RunConcat(s, before, trace[..l]);
    assert (before + trace)[..|before| + l] == before + trace[..l];
    assert ListedAt(s, before + trace, event, seen, |before| + l);
  }

  lemma ListedFirst(s: State, before: seq<Action>, trace: seq<Action>, event: Uuid, seen: seq<Seen>)
    requires before <= trace && Ids(seen) == ListByEvent(Run(s, before).db.types, event)
    ensures ListedIn(s, trace, event, seen)
  {
    hide Run, ListByEvent;
    assert trace[..|before|] == before;
    assert ListedAt(s, trace, event, seen, |before|);
  }

  /** All that a tick counts, event by event. */
  function AllDrifts(seen: seq<seq<Seen>>, tolerance: int): seq<(Uuid, Direction)> {
    if seen == [] then [] else AllDrifts(seen[..|seen| - 1], tolerance) + DriftsOf(seen[|seen| - 1], tolerance)
  }

  lemma AllDriftsMore(seen: seq<seq<Seen>>, these: seq<Seen>, tolerance: int)
    ensures AllDrifts([], tolerance) == []
    ensures AllDrifts(seen + [these], tolerance) == AllDrifts(seen, tolerance) + DriftsOf(these, tolerance)
  {
    assert (seen + [these])[..|seen|] == seen;
  }

  // ---- The detector ----

  /** What happens around one ticket type's cache read: others run before it. */
  datatype Check = Check(gap: seq<Action>, read: Read, meta: Meta, rehydrateFails: bool)

  /** What happens around one event: others run before its ticket types are listed, and the listing may fail. */
  datatype EventScript = EventScript(before: seq<Action>, listFails: bool, checks: Uuid -> Check)

  function CountDrifted(outcomes: seq<Outcome>): nat {
    if outcomes == [] then 0
    else CountDrifted(outcomes[..|outcomes| - 1]) + (if outcomes[|outcomes| - 1] == Drifted then 1 else 0)
  }

  lemma CountMore(outcomes: seq<Outcome>, o: Outcome)
    ensures CountDrifted(outcomes + [o]) == CountDrifted(outcomes) + (if o == Drifted then 1 else 0)
  {
    assert (outcomes + [o])[..|outcomes|] == outcomes;
  }

  lemma WorstMore(seen: seq<Seen>, x: Seen, tolerance: int)
    ensures Worst(seen + [x], tolerance) == Worse(Worst(seen, tolerance), OutcomeOf(x, tolerance))
  {
    assert (seen + [x])[..|seen|] == seen;
  }

  class Detector {
    const w: World
    const tolerance: int
    const autoRehydrate: bool
    var drifts: seq<(Uuid, Direction)>
    var readErrors: nat
    var listErrors: nat
    var gauge: nat
    var rehydrated: nat
    var rehydrateErrors: nat

    constructor (w: World, tolerance: int, autoRehydrate: bool)
      ensures this.w == w && this.tolerance == tolerance && this.autoRehydrate == autoRehydrate
      ensures drifts == [] && readErrors == 0 && listErrors == 0 && gauge == 0 && rehydrated == 0 && rehydrateErrors == 0
    {
      this.w, this.tolerance, this.autoRehydrate := w, tolerance, autoRehydrate;
      drifts, readErrors, listErrors, gauge, rehydrated, rehydrateErrors := [], 0, 0, 0, 0, 0;
    }

    /** Metadata only: the counter is never written by the detector. */
    method AutoRehydrate(id: Uuid, meta: Meta, fails: bool) returns (ghost trace: seq<Action>)
      modifies w, `rehydrated, `rehydrateErrors
      ensures w.st == Run(old(w.st), trace) && w.st.redis.qty == old(w.st.redis.qty) && w.st.db == old(w.st.db)
      ensures rehydrated == old(rehydrated) + (if fails then 0 else 1) && rehydrateErrors == old(rehydrateErrors) + (if fails then 1 else 0)
      ensures w.st.redis.meta == if fails then old(w.st.redis.meta) else old(w.st.redis.meta)[id := meta]
    {
      if fails {
        rehydrateErrors := rehydrateErrors + 1;
        trace := [];
      } else {
        trace := [RepairMeta(id, meta)];
        RunOne(w.st, trace[0]);
        w.st := DoRepairMeta(w.st, id, meta);
        rehydrated := rehydrated + 1;
      }
    }

    /**
     * One ticket type, whose row was read before. At most one direction is counted, and it is the one
     * the row and the counter, read now, say; the detector itself writes neither. A missing counter of a
     * ticket type with tickets left, and nothing else, has its metadata reseeded if that is configured.
     */
    method CheckTicketType(id: Uuid, available: int, c: Check) returns (o: Outcome, ghost x: Seen, ghost trace: seq<Action>)
      modifies w, this
      ensures w.st == Run(old(w.st), trace) && c.gap <= trace
      ensures x == Seen(id, available, CacheOf(Run(old(w.st), c.gap).redis.qty, id), c.read) && o == OutcomeOf(x, tolerance)
      ensures drifts == old(drifts) + Counts(x, tolerance)
      ensures c.read.Value? && x.cache.None? && available > 0 ==> drifts == old(drifts) + [(id, CacheMissing)]
      ensures w.st.redis.qty == Run(old(w.st), c.gap).redis.qty && w.st.db == Run(old(w.st), c.gap).db
      ensures readErrors == old(readErrors) + (if c.read.ReadFails? then 1 else 0) && listErrors == old(listErrors) && gauge == old(gauge)
      ensures var missing := autoRehydrate && c.read.Value? && x.cache.None? && available > 0;
        && rehydrated == old(rehydrated) + (if missing && !c.rehydrateFails then 1 else 0)
        && rehydrateErrors == old(rehydrateErrors) + (if missing && c.rehydrateFails then 1 else 0)
        && w.st.redis.meta == (var meta := Run(old(w.st), c.gap).redis.meta; if missing && !c.rehydrateFails then meta[id := c.meta] else meta)
    {
      hide Run;
      ghost var s0 := w.st;
      w.Others(c.gap);
      trace := c.gap;
      x := Seen(id, available, CacheOf(w.st.redis.qty, id), c.read);
      if c.read.ReadCancelled? { return InStep, x, trace; }
      if c.read.ReadFails? {
        readErrors := readErrors + 1;
        return Skipped, x, trace;
      }
      var found := id in w.st.redis.qty;
      var cacheQty := if found then w.st.redis.qty[id] else 0;
      var drift := available - cacheQty;
      if !found && available > 0 {
        drifts := drifts + [(id, CacheMissing)];
        if autoRehydrate {
          ghost var more := AutoRehydrate(id, c.meta, c.rehydrateFails);
          RunConcat(s0, trace, more);
          trace := trace + more;
        }
        return Drifted, x, trace;
      }
      if drift < 0 {
        drifts := drifts + [(id, CacheHigh)];
        return Drifted, x, trace;
      }
      if drift > tolerance {
        drifts := drifts + [(id, CacheLowExcess)];
        return Drifted, x, trace;
      }
      o := InStep;
    }

    /**
     * All ticket types of one event: none is passed over because an earlier one was conspicuous. Each
     * row is as it was when the event was listed, each counter as it was when it was read.
     */
    method CheckOne(event: Uuid, e: EventScript) returns (worst: Outcome, ghost seen: seq<Seen>, ghost trace: seq<Action>)
      modifies w, this
      ensures w.st == Run(old(w.st), trace)
      ensures if e.listFails then worst == Skipped && seen == [] else worst == Worst(seen, tolerance)
      ensures !e.listFails ==> Ids(seen) == ListByEvent(Run(old(w.st), e.before).db.types, event) && ListedIn(old(w.st), trace, event, seen)
      ensures forall k :: 0 <= k < |seen| ==> ReadIn(old(w.st), trace, seen[k])
      ensures forall k :: 0 <= k < |seen| ==> seen[k].read == e.checks(seen[k].id).read
      ensures drifts == old(drifts) + DriftsOf(seen, tolerance) && listErrors == old(listErrors) && gauge == old(gauge)
      ensures readErrors == old(readErrors) + (if e.listFails then 1 else FailedReads(seen))
    {
      hide Classify, Run, Worst, OutcomeOf, ReadIn, ListedIn, ListByEvent, Counts, DriftsOf, FailedReads;
      ghost var s0 := w.st;
      seen := [];
      NothingWorse(tolerance);
      w.Others(e.before);
      trace := e.before;
      if e.listFails {
        readErrors := readErrors + 1;
        return Skipped, seen, trace;
      }
      ghost var listing := w.st;
      var types, db := ListByEvent(w.st.db.types, event), w.st.db;
      worst := InStep;
      var k := 0;
      while k < |types|
        invariant 0 <= k <= |types| == |types| && |seen| == k && worst == Worst(seen, tolerance)
        invariant w.st == Run(s0, trace) && e.before <= trace && Run(s0, e.before) == listing
        invariant forall j :: 0 <= j < k ==> seen[j].id == types[j] && ReadIn(s0, trace, seen[j])
        invariant forall j :: 0 <= j < k ==> seen[j].read == e.checks(seen[j].id).read
        invariant drifts == old(drifts) + DriftsOf(seen, tolerance) && readErrors == old(readErrors) + FailedReads(seen)
        invariant listErrors == old(listErrors) && gauge == old(gauge)
      {
        var outcome; ghost var x, more;
        var c := e.checks(types[k]);
        outcome, x, more := CheckTicketType(types[k], AvailOf(db, types[k]), c);
        FreshRead(s0, e.before, trace, more, x, c.gap);
        forall j | 0 <= j < k ensures ReadIn(s0, trace + more, seen[j]) { StillReadIn(s0, trace, more, seen[j]); }
        RunConcat(s0, trace, more);
        WorstMore(seen, x, tolerance);
        CountedMore(seen, x, tolerance);
        if Rank(outcome) > Rank(worst) { worst := outcome; }
        seen, trace := seen + [x], trace + more;
        k := k + 1;
      }
      assert Ids(seen) == types;
      ListedFirst(s0, e.before, trace, event, seen);
    }

    /**
     * One tick: the gauge is the number of drifted events, or zero while the detector is blind, and it
     * stays as it is if the tick is cancelled. Every event that is reached has all its ticket types read
     * within the tick, and what is counted is exactly what was read of them.
     */
    method Sweep(events: Option<seq<Uuid>>, scripts: Uuid -> EventScript, cancelAt: Option<nat>)
      returns (ok: bool, ghost outcomes: seq<Outcome>, ghost seen: seq<seq<Seen>>, ghost trace: seq<Action>)
      modifies w, this
      ensures w.st == Run(old(w.st), trace)
      ensures ok <==> events.Some? && (cancelAt.None? || cancelAt.value >= |events.value|)
      ensures events.None? ==> gauge == 0 && listErrors == old(listErrors) + 1
      ensures ok ==> gauge == CountDrifted(outcomes) && listErrors == old(listErrors) && |outcomes| == |seen| == |events.value|
      ensures ok ==> forall k :: 0 <= k < |outcomes| ==>
                outcomes[k] == if scripts(events.value[k]).listFails then Skipped else Worst(seen[k], tolerance)
      ensures forall k, j :: 0 <= k < |seen| && 0 <= j < |seen[k]| ==> ReadIn(old(w.st), trace, seen[k][j])
      ensures events.Some? && !ok ==> gauge == old(gauge)
      ensures |seen| == if events.None? then 0 else if ok then |events.value| else cancelAt.value
      ensures forall k :: 0 <= k < |seen| ==>
                if scripts(events.value[k]).listFails then seen[k] == [] else ListedIn(old(w.st), trace, events.value[k], seen[k])
      ensures drifts == old(drifts) + AllDrifts(seen, tolerance)
    {
      hide Run, Worst, ReadIn, ListedIn, CountDrifted, AllDrifts, DriftsOf;
      AllDriftsMore([], [], tolerance);
      ghost var s0 := w.st;
      outcomes, seen, trace := [], [], [];
      RunEmpty(s0);
      NoneDrifted();
      if events.None? {
        gauge, listErrors := 0, listErrors + 1;
        return false, [], [], [];
      }
      var drifted, skipped, k := 0, 0, 0;
      while k < |events.value|
        invariant 0 <= k <= |events.value| && (cancelAt.Some? && cancelAt.value < |events.value| ==> k <= cancelAt.value)
        invariant w.st == Run(s0, trace) && |outcomes| == |seen| == k && drifted == CountDrifted(outcomes)
        invariant forall i :: 0 <= i < k ==> outcomes[i] == if scripts(events.value[i]).listFails then Skipped else Worst(seen[i], tolerance)
        invariant forall i, j :: 0 <= i < k && 0 <= j < |seen[i]| ==> ReadIn(s0, trace, seen[i][j])
        invariant gauge == old(gauge) && listErrors == old(listErrors) && drifts == old(drifts) + AllDrifts(seen, tolerance)
        invariant forall i :: 0 <= i < k ==>
                    if scripts(events.value[i]).listFails then seen[i] == [] else ListedIn(s0, trace, events.value[i], seen[i])
      {
        if cancelAt == Some(k) { return false, outcomes, seen, trace; }
        var outcome; ghost var more, these;
        outcome, these, more := CheckOne(events.value[k], scripts(events.value[k]));
        forall i, j | 0 <= i < k && 0 <= j < |seen[i]| ensures ReadIn(s0, trace + more, seen[i][j]) { StillReadIn(s0, trace, more, seen[i][j]); }
        forall j | 0 <= j < |these| ensures ReadIn(s0, trace + more, these[j]) { ReadLater(s0, trace, more, these[j]); }
        forall i | 0 <= i < k && !scripts(events.value[i]).listFails ensures ListedIn(s0, trace + more, events.value[i], seen[i]) {
          StillListedIn(s0, trace, more, events.value[i], seen[i]);
        }
        if !scripts(events.value[k]).listFails { ListedLater(s0, trace, more, events.value[k], these); }
        AllDriftsMore(seen, these, tolerance);
        if outcome == Drifted { drifted := drifted + 1; } else if outcome == Skipped { skipped := skipped + 1; }
        CountMore(outcomes, outcome);
        RunConcat(s0, trace, more);
        outcomes, seen, trace := outcomes + [outcome], seen + [these], trace + more;
        k := k + 1;
      }
      gauge := drifted;
      ok := true;
    }
  }

  lemma NothingWorse(tolerance: int)
    ensures Worst([], tolerance) == InStep && DriftsOf([], tolerance) == [] && FailedReads([]) == 0
  {}

  lemma NoneDrifted()
    ensures CountDrifted([]) == 0
  {}

  /** A counter read now, of a ticket type whose row was listed before. */
  lemma FreshRead(s: State, before: seq<Action>, trace: seq<Action>, more: seq<Action>, x: Seen, gap: seq<Action>)
    requires before <= trace && gap <= more && x.available == AvailOf(Run(s, before).db, x.id)
    requires x.cache == CacheOf(Run(Run(s, trace), gap).redis.qty, x.id)
    ensures ReadIn(s, trace + more, x)
  {
    hide Run;
    RunConcat(s, trace, gap);
    assert (trace + more)[..|before|] == before && (trace + more)[..|trace| + |gap|] == trace + gap;
    assert ReadAt(s, trace + more, x, |before|, |trace| + |gap|);
  }
}
