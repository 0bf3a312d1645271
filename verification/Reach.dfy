/** The states runs from empty tables lead to, and that the invariant holds in all of them. */
module Reach {
  import opened Pipeline
  import opened Invariant
  import opened ProcessSteps
  import opened ApiSteps

  // ---------- the invariant holds along every run ----------

  lemma StepKeepsInv(s: State, step: Step)
    requires Inv(s) && Enabled(s, step)
    ensures Inv(Next(s, step))
  {
    if step.Pop? || step.Requeue? || step.Fault? || step.Crash? {
      HandlingKeepsInv(s, step);
    } else if step.WriteRow? || step.MarkRow? || step.Count? || step.Commit? {
      SettlementKeepsInv(s, step);
    } else if OfWorker(step) {
      AttemptKeepsInv(s, step);
    } else if OfScheduler(step) {
      SchedulerStepKeepsInv(s, step);
    } else {
      ApiStepKeepsInv(s, step);
    }
  }

  lemma {:induction false} RunKeepsInv(s: State, steps: seq<Step>)
    requires Inv(s) && Runs(s, steps)
    ensures Inv(After(s, steps))
    decreases |steps|
  {
    if steps != [] {
      StepKeepsInv(s, steps[0]);
      RunKeepsInv(Next(s, steps[0]), steps[1..]);
    }
  }

  lemma {:induction false} NothingHeld(workers: seq<Phase>)
    requires forall w :: 0 <= w < |workers| ==> workers[w].Idle?
    ensures HeldBy(workers) == multiset{}
  {
    if workers != [] {
      NothingHeld(workers[1..]);
    }
  }

  lemma {:induction false} NothingToPush(schedulers: seq<Scheduler>)
    requires forall c :: 0 <= c < |schedulers| ==> schedulers[c].Resting?
    ensures ToPushBy(schedulers) == multiset{}
  {
    if schedulers != [] {
      NothingToPush(schedulers[1..]);
    }
  }

  lemma InitialInv(s: State)
    requires Initial(s)
    ensures Inv(s)
  {
    NothingHeld(s.workers);
    NothingToPush(s.schedulers);
    assert Live(s) == multiset{};
  }

  /** The states some run from empty tables leads to. */
  ghost predicate Reachable(s: State) {
    exists start, steps :: Initial(start) && Runs(start, steps) && After(start, steps) == s
  }

  lemma ReachableInv(s: State)
    requires Reachable(s)
    ensures Inv(s)
  {
    var start, steps :| Initial(start) && Runs(start, steps) && After(start, steps) == s;
    InitialInv(start);
    RunKeepsInv(start, steps);
  }

  // ---------- one step further ----------

  lemma RunsFrom(s: State, step: Step, rest: seq<Step>)
    requires Enabled(s, step) && Runs(Next(s, step), rest)
    ensures Runs(s, [step] + rest) && After(s, [step] + rest) == After(Next(s, step), rest)
  {
    var steps := [step] + rest;
    assert steps[0] == step && steps[1..] == rest;
  }

  lemma {:induction false} RunsOn(start: State, steps: seq<Step>, step: Step)
    requires Runs(start, steps) && Enabled(After(start, steps), step)
    ensures Runs(start, steps + [step]) && After(start, steps + [step]) == Next(After(start, steps), step)
    decreases |steps|
  {
    var more := steps + [step];
    if steps == [] {
      assert more[0] == step && more[1..] == [];
    } else {
      assert more[0] == steps[0] && more[1..] == steps[1..] + [step];
      RunsOn(Next(start, steps[0]), steps[1..], step);
    }
  }

  lemma {:induction false} RunsThrough(s: State, first: seq<Step>, rest: seq<Step>)
    requires Runs(s, first) && Runs(After(s, first), rest)
    ensures Runs(s, first + rest) && After(s, first + rest) == After(After(s, first), rest)
    decreases |first|
  {
    if first == [] {
      assert first + rest == rest;
    } else {
      RunsThrough(Next(s, first[0]), first[1..], rest);
      RunsFrom(s, first[0], first[1..] + rest);
      assert [first[0]] + (first[1..] + rest) == first + rest;
    }
  }

  lemma ReachableStep(s: State, step: Step)
    requires Reachable(s) && Enabled(s, step)
    ensures Reachable(Next(s, step))
  {
    var start, steps :| Initial(start) && Runs(start, steps) && After(start, steps) == s;
    RunsOn(start, steps, step);
  }

  lemma PopReaches(s: State, w: nat)
    requires Reachable(s) && w < |s.workers| && s.workers[w].Idle? && s.queue != []
    ensures Reachable(PopStep(s, w))
  {
    ReachableStep(s, Pop(w));
  }

  lemma CountReaches(s: State, w: nat, at: int)
    requires Reachable(s) && Busy(s, w) && s.workers[w].Wrote? && at <= s.now
    ensures Reachable(CountStep(s, w, at))
  {
    ReachableStep(s, Count(w, at));
  }

  lemma RemovalReaches(s: State, a: int)
    requires Reachable(s) && a in s.db.catalog.accounts
    ensures Reachable(RemoveAccountStep(s, a))
  {
    ReachableStep(s, RemoveAccount(a));
  }

  lemma CommitReaches(s: State, w: nat)
    requires Reachable(s) && Busy(s, w) && s.workers[w].Counted?
    ensures Reachable(CommitStep(s, w))
  {
    ReachableStep(s, Commit(w));
  }
}
