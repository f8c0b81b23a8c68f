/** The shared stores as one mutable object, for the handlers that are written step by step. */
module Runtime {
  import opened Domain
  import opened Options
  import opened Store
  import opened Protocol
  import opened DbSafety
  import opened PgSafety
  import opened PgSteps
  import opened Frames

  /** `st` is everything the processes share, and where each running handler stands. */
  class World {
    var st: State

    constructor (s: State)
      ensures st == s
    {
      st := s;
    }

    /** Between two store calls of one handler anything may happen elsewhere. */
    method Others(acts: seq<Action>)
      modifies this
      ensures st == Run(old(st), acts)
    {
      st := Run(st, acts);
    }
  }

  lemma RunSnoc(s: State, acts: seq<Action>, a: Action)
    ensures Run(s, acts + [a]) == Next(Run(s, acts), a)
  {
    hide Next, Run;
    RunConcat(s, acts, [a]);
    RunOne(Run(s, acts), a);
  }

  /** What a handler may rely on after others have run. */
  lemma Interfered(s: State, acts: seq<Action>, p: nat)
    requires PgInv(s) && p in s.procs && ForeignTo(acts, p)
    ensures var t := Run(s, acts); PgInv(t) && Advances(s, t) && p in t.procs && t.procs[p] == s.procs[p]
  {
    hide PgInv, Advances, Run;
    RunKeeps(s, acts);
    ForeignRun(s, acts, p);
  }

  /** One step of the call: what the model's step keeps, the call may rely on. */
  lemma Stepped(s0: State, s: State, trace: seq<Action>, a: Action)
    requires PgInv(s) && s == Run(s0, trace) && Advances(s0, s)
    ensures PgInv(Next(s, a)) && Next(s, a) == Run(s0, trace + [a]) && Advances(s0, Next(s, a))
  {
    hide PgInv, Advances, Next, Run;
    NextKeeps(s, a);
    RunSnoc(s0, trace, a);
    AdvancesTransitive(s0, s, Next(s, a));
  }

  lemma Waited(s0: State, s: State, trace: seq<Action>, gap: seq<Action>, p: nat)
    requires PgInv(s) && s == Run(s0, trace) && Advances(s0, s) && p in s.procs && ForeignTo(gap, p)
    ensures var t := Run(s, gap); PgInv(t) && t == Run(s0, trace + gap) && Advances(s0, t) && p in t.procs && t.procs[p] == s.procs[p]
  {
    hide PgInv, Advances, Next, Run;
    Interfered(s, gap, p);
    RunConcat(s0, trace, gap);
    AdvancesTransitive(s0, s, Run(s, gap));
  }
}
