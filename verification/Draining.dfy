/**
 The notification backlog is worked off: no schedule of the goroutines deadlocks or runs
 for ever, and it can stop only with every undamaged cache entry up to date.
 */
module Draining {
  import opened Protocol
  import opened Obligations
  import opened GoroutineSteps
  import opened Coherence

  /** The steps by which goroutines finish what is under way; nothing new comes in. */
  predicate WorkStep(step: Step) {
    step.Take? || step.Advance?
  }

  /** Work, and work that is lost or given up. */
  predicate WorkOrLoss(step: Step) {
    WorkStep(step) || step.Lose? || step.Fail? || step.CutShort?
  }

  function Total(procs: seq<Proc>, rank: Proc -> nat): nat {
    if procs == [] then 0 else rank(procs[0]) + Total(procs[1..], rank)
  }

  lemma {:induction false} TotalUpdate(procs: seq<Proc>, rank: Proc -> nat, i: nat, q: Proc)
    requires i < |procs|
    ensures Total(procs[i := q], rank) == Total(procs, rank) - rank(procs[i]) + rank(q)
  {
    if i == 0 {
      assert procs[0 := q][1..] == procs[1..];
    } else {
      TotalUpdate(procs[1..], rank, i - 1, q);
      assert procs[i := q][1..] == procs[1..][i - 1 := q];
    }
  }

  /** Notifications to take, then lookups to finish, then feeds to load. */
  ghost predicate Closer(t: State, s: State) {
    || |t.pending| < |s.pending|
    || (|t.pending| == |s.pending| && Total(t.procs, LookupRank) < Total(s.procs, LookupRank))
    || (|t.pending| == |s.pending| && Total(t.procs, LookupRank) == Total(s.procs, LookupRank)
        && Total(t.procs, FeedRank) < Total(s.procs, FeedRank))
  }

  lemma GoroutineComesCloser(s: State, t: State, i: nat)
    requires IsStep(s, t, i)
    ensures Closer(t, s) && t.db == s.db
  {
    TotalUpdate(s.procs, LookupRank, i, t.procs[i]);
    TotalUpdate(s.procs, FeedRank, i, t.procs[i]);
  }

  /** Every step of work, of whichever goroutine, and every loss lowers the same measure. */
  lemma WorkTerminates(s: State, step: Step)
    requires Enabled(s, step) && WorkOrLoss(step)
    ensures Closer(Apply(s, step), s)
    ensures Apply(s, step).db == s.db
  {
    if step.Advance? {
      AdvanceIsGoroutineStep(s, step.i);
      GoroutineComesCloser(s, Apply(s, step), step.i);
    } else if step.Fail? {
      FailureIsGoroutineStep(s, step.i);
      GoroutineComesCloser(s, Apply(s, step), step.i);
    } else if step.CutShort? {
      CutIsGoroutineStep(s, step.i, step.rows);
      GoroutineComesCloser(s, Apply(s, step), step.i);
    }
  }

  /** The first `n` steps of the schedule can be taken from `s`, one after the other. */
  ghost predicate CanRun(s: State, schedule: nat -> Step, n: nat)
    decreases n
  {
    n > 0 ==> Enabled(s, schedule(0)) && CanRun(Apply(s, schedule(0)), (k: nat) => schedule(k + 1), n - 1)
  }

  /** No schedule of work and losses, however unfair, goes on for ever. */
  lemma {:induction false} NoScheduleRunsForEver(s: State, schedule: nat -> Step) returns (n: nat)
    requires forall k :: WorkOrLoss(schedule(k))
    ensures !CanRun(s, schedule, n)
    decreases |s.pending|, Total(s.procs, LookupRank), Total(s.procs, FeedRank)
  {
    if !Enabled(s, schedule(0)) {
      return 1;
    }
    WorkTerminates(s, schedule(0));
    n := NoScheduleRunsForEver(Apply(s, schedule(0)), (k: nat) => schedule(k + 1));
    n := n + 1;
  }

  /**
   As long as anything is under way and there is a worker, some goroutine can move, and
   without doing damage: whoever owns a lock can go on, and once nobody does, anybody can.
   */
  lemma NoDeadlock(s: State) returns (step: Step)
    requires Inv(s) && 0 < s.workers <= |s.procs| && !AtRest(s)
    ensures WorkStep(step) && Enabled(s, step) && !Fault(s, step)
  {
    if k :| k in s.subLocks {
      step := Advance(s.subLocks[k]);
    } else if k :| k in s.feedLocks {
      step := Advance(s.feedLocks[k]);
    } else if i :| 0 <= i < |s.procs| && !s.procs[i].Idle? {
      assert s.subLocks == map[] && s.feedLocks == map[];
      step := Advance(i);
    } else {
      var task :| task in s.pending;
      step := Take(0, task);
    }
  }

  /**
   Whatever order the goroutines work in, they can stop only in a state in which everything
   cached and not damaged is what the database says.
   */
  lemma StuckOnlyWhenCoherent(start: State, steps: seq<Step>, s: State)
    requires Initial(start) && Leads(start, steps, s)
    requires 0 < s.workers <= |s.procs|
    requires forall step :: WorkStep(step) ==> !Enabled(s, step)
    ensures AtRest(s) && SubsCurrent(s) && FeedsCurrent(s)
  {
    InitialInv(start);
    RunKeepsInv(start, steps, s);
    if !AtRest(s) {
      var step := NoDeadlock(s);
      assert false;
    }
    DrainedIsCoherent(s);
  }

  lemma NextWorkStep(s: State) returns (step: Step, t: State)
    requires Inv(s) && 0 < s.workers <= |s.procs| && !AtRest(s)
    ensures WorkStep(step) && Enabled(s, step) && !Fault(s, step) && t == Apply(s, step)
    ensures Inv(t) && Closer(t, s)
    ensures t.db == s.db && t.workers == s.workers && |t.procs| == |s.procs|
  {
    step := NoDeadlock(s);
    t := Apply(s, step);
    WorkTerminates(s, step);
    StepKeepsInv(s, step);
    if step.Advance? {
      AdvanceIsGoroutineStep(s, step.i);
    }
  }

  /**
   From every reachable state the backlog can be worked off, on the database as it is and
   without a fault, so from a state without damage to one in which every entry is right.
   */
  lemma {:induction false} BacklogDrains(s: State) returns (steps: seq<Step>, t: State)
    requires Inv(s) && 0 < s.workers <= |s.procs|
    ensures forall step :: step in steps ==> WorkStep(step)
    ensures Leads(s, steps, t) && FaultFree(s, steps) && t.db == s.db
    ensures AtRest(t) && SubsCurrent(t) && FeedsCurrent(t)
    ensures Sound(s) ==> t.damage == NONE
    decreases |s.pending|, Total(s.procs, LookupRank), Total(s.procs, FeedRank)
  {
    if AtRest(s) {
      DrainedIsCoherent(s);
      steps, t := [], s;
    } else {
      var step, next := NextWorkStep(s);
      if Sound(s) { StepKeepsSound(s, step); }
      var rest;
      rest, t := BacklogDrains(next);
      steps := [step] + rest;
      assert steps[1..] == rest;
    }
  }
}
