/** What becomes of a job whose processing returned an error, over every run. */
module Refusals {
  import opened Base
  import opened Providers
  import opened Tables
  import opened Pipeline
  import opened Shapes
  import opened Outcomes

  // ---------- errors that are recorded ----------

  /** The worker is on its way to record this error. */
  predicate Doomed(phase: Phase, job: Job, error: Error) {
    || phase == Failing(job, error)
    || phase == Wrote(job, Errored(error))
    || (phase.Counted? && phase.job == job && phase.change == Errored(error))
  }

  predicate OwnFault(step: Step, w: nat) {
    (step.Fault? || step.Crash?) && step.w == w
  }

  ghost predicate Unfailing(steps: seq<Step>, w: nat) {
    forall i :: 0 <= i < |steps| ==> !OwnFault(steps[i], w)
  }

  lemma UnfailingLater(steps: seq<Step>, w: nat)
    requires steps != [] && Unfailing(steps, w)
    ensures !OwnFault(steps[0], w) && Unfailing(steps[1..], w)
  {}

  /** The row of the job, if it is still there, holds this error. */
  ghost predicate Recorded(rows: map<int, Row>, k: Key, error: Error) {
    forall i :: i in rows && rows[i].At() == k ==> rows[i].errors == Some(error)
  }

  /** A worker on its way to record the error can do nothing else, short of a fault: it is
      not retried and does not call. */
  lemma DoomedGoesOn(s: State, step: Step, w: nat, job: Job, error: Error)
    requires Final(error) || job.attempt >= 3
    requires Enabled(s, step) && OfWorker(step) && step.w == w && !OwnFault(step, w) && Doomed(s.workers[w], job, error)
    ensures step.MarkRow? || step.Count? || step.Commit?
    ensures Next(s, step).past.Of(job.At()) == s.past.Of(job.At())
    ensures if step.Commit? then Next(s, step).workers[w].Idle? && Recorded(Next(s, step).db.rows, job.At(), error)
            else Doomed(Next(s, step).workers[w], job, error)
  {
    assert GivesUp(job, error);
    if step.Commit? {
      DoomedCommits(s, w, job, error);
    }
  }

  lemma DoomedCommits(s: State, w: nat, job: Job, error: Error)
    requires Busy(s, w) && s.workers[w].Counted? && Doomed(s.workers[w], job, error)
    ensures var s' := CommitStep(s, w);
            s'.workers[w].Idle? && Recorded(s'.db.rows, job.At(), error) && s'.past.Of(job.At()) == s.past.Of(job.At())
  {}

  lemma FaultDrops(s: State, step: Step, w: nat, job: Job, error: Error)
    requires Enabled(s, step) && OwnFault(step, w) && Doomed(s.workers[w], job, error)
    ensures Next(s, step).workers[w].Idle? && Next(s, step).queue == s.queue
  {}

  /** Along the run worker w either stays on its way, or commits, or drops the job by a fault
      of its own; none of its steps up to then is a call or a retry, and the commit leaves
      the error in the row. */
  ghost predicate SettlesError(s: State, steps: seq<Step>, w: nat, job: Job, error: Error)
    requires Runs(s, steps)
    decreases |steps|
  {
    && w < |s.workers| && Doomed(s.workers[w], job, error)
    && (steps != [] ==>
          if steps[0] == Commit(w) then
            Next(s, steps[0]).workers[w].Idle? && Recorded(Next(s, steps[0]).db.rows, job.At(), error)
          else if OwnFault(steps[0], w) then
            Next(s, steps[0]).workers[w].Idle? && Next(s, steps[0]).queue == s.queue
          else
            !(steps[0].Call? && steps[0].w == w) && !(steps[0].Requeue? && steps[0].w == w)
            && SettlesError(Next(s, steps[0]), steps[1..], w, job, error))
  }

  /** Whatever everyone else does in between, a worker whose job failed with one of the five
      final errors, or failed for the third time, is not retried and goes straight to
      committing that error, short of a fault of its own. */
  lemma {:induction false} FinalErrorSettles(s: State, steps: seq<Step>, w: nat, job: Job, error: Error)
    requires Final(error) || job.attempt >= 3
    requires Runs(s, steps) && w < |s.workers| && Doomed(s.workers[w], job, error)
    ensures SettlesError(s, steps, w, job, error)
    decreases |steps|
  {
    if steps != [] {
      var step := steps[0];
      if OwnFault(step, w) {
        FaultDrops(s, step, w, job, error);
      } else if OfWorker(step) && step.w == w {
        DoomedGoesOn(s, step, w, job, error);
      } else {
        OthersKeepWorker(s, step, w);
      }
      if step != Commit(w) && !OwnFault(step, w) {
        FinalErrorSettles(Next(s, step), steps[1..], w, job, error);
      }
    }
  }

  /** Its third step at the latest is that commit. */
  function StepsLeft(phase: Phase): nat {
    if phase.Failing? then 3 else if phase.Wrote? then 2 else if phase.Counted? then 1 else 0
  }

  function StepsOf(steps: seq<Step>, w: nat): nat {
    if steps == [] then 0 else (if OfWorker(steps[0]) && steps[0].w == w then 1 else 0) + StepsOf(steps[1..], w)
  }

  lemma {:induction false} FinalErrorSettlesSoon(s: State, steps: seq<Step>, w: nat, job: Job, error: Error)
    requires Final(error) || job.attempt >= 3
    requires Runs(s, steps) && w < |s.workers| && Doomed(s.workers[w], job, error)
    requires Unfailing(steps, w)
    requires StepsOf(steps, w) >= StepsLeft(s.workers[w])
    ensures Commit(w) in steps
    decreases |steps|
  {
    var step := steps[0];
    UnfailingLater(steps, w);
    if OfWorker(step) && step.w == w {
      DoomedGoesOn(s, step, w, job, error);
      assert !step.Commit? ==> StepsLeft(Next(s, step).workers[w]) == StepsLeft(s.workers[w]) - 1;
    } else {
      OthersKeepWorker(s, step, w);
    }
    if step != Commit(w) {
      FinalErrorSettlesSoon(Next(s, step), steps[1..], w, job, error);
    }
  }

  // ---------- errors that are retried ----------

  /** Worker w does nothing until it pushes the next attempt back, in front of whatever is
      queued by then, or loses it. */
  ghost predicate RetriesNext(s: State, steps: seq<Step>, w: nat, job: Job)
    requires Runs(s, steps)
    decreases |steps|
  {
    && w < |s.workers| && s.workers[w] == Failing(job, Transient)
    && (steps != [] ==>
          if OfWorker(steps[0]) && steps[0].w == w then
            && steps[0].Requeue? && Next(s, steps[0]).workers[w].Idle? && Next(s, steps[0]).db == s.db
            && (steps[0].delivered ==> Next(s, steps[0]).queue == [Job(job.post, job.account, job.attempt + 1)] + s.queue)
          else
            RetriesNext(Next(s, steps[0]), steps[1..], w, job))
  }

  lemma TransientRequeues(s: State, step: Step, w: nat, job: Job)
    requires Enabled(s, step) && OfWorker(step) && step.w == w && !OwnFault(step, w)
    requires s.workers[w] == Failing(job, Transient) && job.attempt < 3
    ensures step.Requeue? && Next(s, step).workers[w].Idle? && Next(s, step).db == s.db
    ensures step.delivered ==> Next(s, step).queue == [Job(job.post, job.account, job.attempt + 1)] + s.queue
  {}

  /** A transient error below the third attempt is never recorded: whatever everyone else
      does in between, the next step of the worker is to push the next attempt back. */
  lemma {:induction false} TransientErrorIsRetried(s: State, steps: seq<Step>, w: nat, job: Job)
    requires Runs(s, steps) && w < |s.workers| && s.workers[w] == Failing(job, Transient) && job.attempt < 3
    requires Unfailing(steps, w)
    ensures RetriesNext(s, steps, w, job)
    decreases |steps|
  {
    if steps != [] {
      UnfailingLater(steps, w);
      if OfWorker(steps[0]) && steps[0].w == w {
        TransientRequeues(s, steps[0], w, job);
      } else {
        OthersKeepWorker(s, steps[0], w);
        TransientErrorIsRetried(Next(s, steps[0]), steps[1..], w, job);
      }
    }
  }
}
