/** Workers and schedulers run out of work: every step of theirs uses up a credit that
    only scans and claims hand out, and a claim of k accounts pays for at most 3k pops. */
module Termination {
  import opened Providers
  import opened Tables
  import opened Pipeline
  import opened Shapes
  import opened Reach

  // ---------- sums over sequences ----------

  function Sum<T>(xs: seq<T>, weight: T -> nat): nat {
    if xs == [] then 0 else weight(xs[0]) + Sum(xs[1..], weight)
  }

  lemma {:induction false} SumUpdate<T>(xs: seq<T>, i: nat, x: T, weight: T -> nat)
    requires i < |xs|
    ensures Sum(xs[i := x], weight) + weight(xs[i]) == Sum(xs, weight) + weight(x)
  {
    if i == 0 {
      assert xs[i := x][1..] == xs[1..];
    } else {
      SumUpdate(xs[1..], i - 1, x, weight);
      assert xs[i := x][1..] == xs[1..][i - 1 := x];
    }
  }

  lemma {:induction false} SumLast<T>(xs: seq<T>, weight: T -> nat)
    requires xs != []
    ensures Sum(xs, weight) == Sum(xs[..|xs| - 1], weight) + weight(xs[|xs| - 1])
  {
    if |xs| > 1 {
      SumLast(xs[1..], weight);
      assert xs[..|xs| - 1][1..] == xs[1..][..|xs| - 2];
    }
  }

  lemma SumFirst<T>(x: T, xs: seq<T>, weight: T -> nat)
    ensures Sum([x] + xs, weight) == weight(x) + Sum(xs, weight)
  {
    assert ([x] + xs)[1..] == xs;
  }

  // ---------- work left ----------

  /** Attempts a job has left after its current one. */
  function Left(job: Job): nat {
    if job.attempt < MAX_ATTEMPTS then MAX_ATTEMPTS - job.attempt else 0
  }

  function JobWork(job: Job): nat {
    11 * (Left(job) + 1)
  }

  function PhaseWork(phase: Phase): nat {
    match phase
    case Idle => 0
    case Popped(job) => 11 * Left(job) + 10
    case AccountRead(job, _) => 11 * Left(job) + 9
    case ServiceRead(job, _, _) => 11 * Left(job) + 8
    case TextRead(job, _, _, _) => 11 * Left(job) + 7
    case Sent(job, _) => 11 * Left(job) + 6
    case Wrote(job, change) => 11 * Left(job) + if change.Succeeded? then 5 else 2
    case Counted(job, change, _, _, _, _) => 11 * Left(job) + if change.Succeeded? then 4 else 1
    case Failing(job, _) => 11 * Left(job) + 3
  }

  function SchedulerWork(scheduler: Scheduler): nat {
    match scheduler
    case Resting => 0
    case Scanning(todo) => |todo| + 1
    case Pushing(_, accounts, todo) => 34 * |accounts| + |todo| + 1
  }

  ghost function Work(s: State): nat {
    Sum(s.queue, JobWork) + Sum(s.workers, PhaseWork) + Sum(s.schedulers, SchedulerWork)
  }

  /** What a scan and a claim add: one unit per post found, thirty-four per account claimed. */
  ghost function Credit(s: State, step: Step): nat
    requires Enabled(s, step)
  {
    if step.Scan? then |step.found| + 2
    else if StartsRunning(s, step) then 34 * |AccountsOf(s.db.rows, s.db.nextRow, s.schedulers[step.c].todo[0])|
    else 0
  }

  // ---------- one step ----------

  lemma ReadAccountUsesWork(s: State, w: nat)
    requires Busy(s, w) && s.workers[w].Popped?
    ensures PhaseWork(ReadAccountStep(s, w).workers[w]) < PhaseWork(s.workers[w])
  {}

  lemma ReadServiceUsesWork(s: State, w: nat)
    requires Busy(s, w) && s.workers[w].AccountRead?
    ensures PhaseWork(ReadServiceStep(s, w).workers[w]) < PhaseWork(s.workers[w])
  {}

  lemma ReadTextUsesWork(s: State, w: nat)
    requires Busy(s, w) && s.workers[w].ServiceRead?
    ensures PhaseWork(ReadTextStep(s, w).workers[w]) < PhaseWork(s.workers[w])
  {}

  lemma CallUsesWork(phase: Phase, outcome: Outcome)
    requires phase.TextRead?
    ensures PhaseWork(Answered(phase, outcome)) < PhaseWork(phase)
  {}

  lemma FaultUsesWork(s: State, w: nat)
    requires Busy(s, w) && !s.workers[w].Failing?
    ensures PhaseWork(FaultStep(s, w).workers[w]) < PhaseWork(s.workers[w])
  {}

  lemma WriteUsesWork(s: State, step: Step)
    requires Enabled(s, step) && (step.WriteRow? || step.MarkRow? || step.Count?)
    ensures PhaseWork(Next(s, step).workers[step.w]) < PhaseWork(s.workers[step.w])
  {
    match step
    case WriteRow(w) =>
    case MarkRow(w) =>
    case Count(w, at) =>
  }

  lemma HandUsesWork(s: State, step: Step)
    requires Enabled(s, step) && InHand(step)
    ensures PhaseWork(Next(s, step).workers[step.w]) < PhaseWork(s.workers[step.w])
  {
    if step.ReadAccount? {
      ReadAccountUsesWork(s, step.w);
    } else if step.ReadService? {
      ReadServiceUsesWork(s, step.w);
    } else if step.ReadText? {
      ReadTextUsesWork(s, step.w);
    } else if step.Call? {
      CallUsesWork(s.workers[step.w], step.outcome);
    } else if step.Fault? {
      FaultUsesWork(s, step.w);
    } else if step.WriteRow? || step.MarkRow? || step.Count? {
      WriteUsesWork(s, step);
    }
  }

  lemma WorkerUsesWork(s: State, step: Step)
    requires Enabled(s, step) && OfWorker(step)
    ensures Work(Next(s, step)) < Work(s)
  {
    var w, s' := step.w, Next(s, step);
    if InHand(step) {
      HandSteps(s, step);
      HandUsesWork(s, step);
      SumUpdate(s.workers, w, s'.workers[w], PhaseWork);
    } else if step.Pop? {
      PopUsesWork(s, w);
    } else if step.Commit? {
      SumUpdate(s.workers, w, Idle, PhaseWork);
    } else {
      RequeueUsesWork(s, w);
    }
  }

  lemma PopUsesWork(s: State, w: nat)
    requires w < |s.workers| && s.workers[w].Idle? && s.queue != []
    ensures Work(PopStep(s, w)) < Work(s)
  {
    SumLast(s.queue, JobWork);
    SumUpdate(s.workers, w, Popped(s.queue[|s.queue| - 1]), PhaseWork);
  }

  lemma RequeueUsesWork(s: State, w: nat)
    requires Busy(s, w) && s.workers[w].Failing? && s.workers[w].job.attempt < MAX_ATTEMPTS
    ensures Work(RequeueStep(s, w, true)) < Work(s)
  {
    var job := s.workers[w].job;
    SumFirst(job.(attempt := job.attempt + 1), s.queue, JobWork);
    SumUpdate(s.workers, w, Idle, PhaseWork);
  }

  lemma PushUsesWork(s: State, c: nat)
    requires c < |s.schedulers| && s.schedulers[c].Pushing? && s.schedulers[c].accounts != []
    ensures Work(PushStep(s, c)) < Work(s)
  {
    var scheduler := s.schedulers[c];
    SumFirst(Job(scheduler.post, scheduler.accounts[0], 1), s.queue, JobWork);
    SumUpdate(s.schedulers, c, Advanced(scheduler), SchedulerWork);
  }

  lemma StopUsesWork(s: State, c: nat)
    requires c < |s.schedulers| && !s.schedulers[c].Resting?
    ensures Work(StopStep(s, c)) < Work(s)
  {
    SumUpdate(s.schedulers, c, Resting, SchedulerWork);
  }

  lemma ClaimUsesWork(s: State, c: nat)
    requires Enabled(s, ClaimNext(c))
    ensures Work(ClaimStep(s, c)) < Work(s) + Credit(s, ClaimNext(c))
  {
    SumUpdate(s.schedulers, c, ClaimStep(s, c).schedulers[c], SchedulerWork);
  }

  lemma SchedulerUsesWork(s: State, step: Step)
    requires Enabled(s, step) && OfScheduler(step)
    ensures Work(Next(s, step)) < Work(s) + Credit(s, step)
  {
    match step
    case Scan(c, found) => SumUpdate(s.schedulers, c, Scanning(found), SchedulerWork);
    case EndScan(c) => SumUpdate(s.schedulers, c, Resting, SchedulerWork);
    case ClaimNext(c) => ClaimUsesWork(s, c);
    case Push(c) => PushUsesWork(s, c);
    case Stop(c) => StopUsesWork(s, c);
    case PushFails(c, delivered) =>
      if delivered {
        PushUsesWork(s, c);
        if !PushStep(s, c).schedulers[c].Resting? { StopUsesWork(PushStep(s, c), c); }
      } else {
        StopUsesWork(s, c);
      }
  }

  /** Every step of a worker or scheduler costs at least one unit of work; the API and the
      clock neither add nor remove any. */
  lemma StepUsesWork(s: State, step: Step)
    requires Enabled(s, step)
    ensures Work(Next(s, step)) + (if OfApi(step) then 0 else 1) <= Work(s) + Credit(s, step)
  {
    if OfWorker(step) {
      WorkerUsesWork(s, step);
    } else if OfScheduler(step) {
      SchedulerUsesWork(s, step);
    } else {
      WritesOfApi(s, step);
    }
  }

  // ---------- whole runs ----------

  function ProcessSteps(steps: seq<Step>): nat {
    if steps == [] then 0 else (if OfApi(steps[0]) then 0 else 1) + ProcessSteps(steps[1..])
  }

  ghost function Credits(s: State, steps: seq<Step>): nat
    requires Runs(s, steps)
    decreases |steps|
  {
    if steps == [] then 0 else Credit(s, steps[0]) + Credits(Next(s, steps[0]), steps[1..])
  }

  /** The steps workers and schedulers take on any run are paid for by the work there was
      and by what scans and claims added; without those, everything comes to rest. */
  lemma {:induction false} WorkIsBounded(s: State, steps: seq<Step>)
    requires Runs(s, steps)
    ensures ProcessSteps(steps) + Work(After(s, steps)) <= Work(s) + Credits(s, steps)
    decreases |steps|
  {
    if steps != [] {
      StepUsesWork(s, steps[0]);
      WorkIsBounded(Next(s, steps[0]), steps[1..]);
    }
  }

  // ---------- pops ----------

  function JobPops(job: Job): nat { Left(job) + 1 }

  function PhasePops(phase: Phase): nat { if phase.Idle? then 0 else Left(phase.job) }

  function SchedulerPops(scheduler: Scheduler): nat {
    if scheduler.Pushing? then MAX_ATTEMPTS * |scheduler.accounts| else 0
  }

  /** How often jobs can still be popped. */
  ghost function PopsLeft(s: State): nat {
    Sum(s.queue, JobPops) + Sum(s.workers, PhasePops) + Sum(s.schedulers, SchedulerPops)
  }

  /** A claim of k accounts allows 3k pops. */
  ghost function PopCredit(s: State, step: Step): nat
    requires Enabled(s, step)
  {
    if StartsRunning(s, step) then MAX_ATTEMPTS * |AccountsOf(s.db.rows, s.db.nextRow, s.schedulers[step.c].todo[0])| else 0
  }

  lemma WorkerUsesPops(s: State, step: Step)
    requires Enabled(s, step) && OfWorker(step)
    ensures PopsLeft(Next(s, step)) + (if step.Pop? then 1 else 0) <= PopsLeft(s)
  {
    var w, s' := step.w, Next(s, step);
    if InHand(step) {
      HandSteps(s, step);
      SumUpdate(s.workers, w, s'.workers[w], PhasePops);
    } else if step.Pop? {
      PopUsesPops(s, w);
    } else if step.Commit? {
      SumUpdate(s.workers, w, Idle, PhasePops);
    } else {
      RequeueUsesPops(s, w);
    }
  }

  lemma PopUsesPops(s: State, w: nat)
    requires w < |s.workers| && s.workers[w].Idle? && s.queue != []
    ensures PopsLeft(PopStep(s, w)) + 1 <= PopsLeft(s)
  {
    SumLast(s.queue, JobPops);
    SumUpdate(s.workers, w, Popped(s.queue[|s.queue| - 1]), PhasePops);
  }

  lemma RequeueUsesPops(s: State, w: nat)
    requires Busy(s, w) && s.workers[w].Failing? && s.workers[w].job.attempt < MAX_ATTEMPTS
    ensures PopsLeft(RequeueStep(s, w, true)) <= PopsLeft(s)
  {
    var job := s.workers[w].job;
    SumFirst(job.(attempt := job.attempt + 1), s.queue, JobPops);
    SumUpdate(s.workers, w, Idle, PhasePops);
  }

  lemma PushUsesPops(s: State, c: nat)
    requires c < |s.schedulers| && s.schedulers[c].Pushing? && s.schedulers[c].accounts != []
    ensures PopsLeft(PushStep(s, c)) <= PopsLeft(s)
  {
    var scheduler := s.schedulers[c];
    SumFirst(Job(scheduler.post, scheduler.accounts[0], 1), s.queue, JobPops);
    SumUpdate(s.schedulers, c, Advanced(scheduler), SchedulerPops);
  }

  lemma StopUsesPops(s: State, c: nat)
    requires c < |s.schedulers|
    ensures PopsLeft(StopStep(s, c)) <= PopsLeft(s)
  {
    SumUpdate(s.schedulers, c, Resting, SchedulerPops);
  }

  lemma ClaimUsesPops(s: State, c: nat)
    requires Enabled(s, ClaimNext(c))
    ensures PopsLeft(ClaimStep(s, c)) <= PopsLeft(s) + PopCredit(s, ClaimNext(c))
  {
    SumUpdate(s.schedulers, c, ClaimStep(s, c).schedulers[c], SchedulerPops);
  }

  lemma SchedulerUsesPops(s: State, step: Step)
    requires Enabled(s, step) && OfScheduler(step)
    ensures PopsLeft(Next(s, step)) <= PopsLeft(s) + PopCredit(s, step)
  {
    match step
    case Scan(c, found) => SumUpdate(s.schedulers, c, Scanning(found), SchedulerPops);
    case EndScan(c) => SumUpdate(s.schedulers, c, Resting, SchedulerPops);
    case ClaimNext(c) => ClaimUsesPops(s, c);
    case Push(c) => PushUsesPops(s, c);
    case Stop(c) => StopUsesPops(s, c);
    case PushFails(c, delivered) =>
      if delivered {
        PushUsesPops(s, c);
        StopUsesPops(PushStep(s, c), c);
      } else {
        StopUsesPops(s, c);
      }
  }

  function Pops(steps: seq<Step>): nat {
    if steps == [] then 0 else (if steps[0].Pop? then 1 else 0) + Pops(steps[1..])
  }

  ghost function PopCredits(s: State, steps: seq<Step>): nat
    requires Runs(s, steps)
    decreases |steps|
  {
    if steps == [] then 0 else PopCredit(s, steps[0]) + PopCredits(Next(s, steps[0]), steps[1..])
  }

  /** On any run the pops are at most those still due at its start and three for each
      account of each post claimed on the way, retries included. */
  lemma {:induction false} PopsAreBounded(s: State, steps: seq<Step>)
    requires Runs(s, steps)
    ensures Pops(steps) + PopsLeft(After(s, steps)) <= PopsLeft(s) + PopCredits(s, steps)
    decreases |steps|
  {
    if steps != [] {
      if OfWorker(steps[0]) {
        WorkerUsesPops(s, steps[0]);
      } else if OfScheduler(steps[0]) {
        SchedulerUsesPops(s, steps[0]);
      } else {
        WritesOfApi(s, steps[0]);
      }
      PopsAreBounded(Next(s, steps[0]), steps[1..]);
    }
  }

  // ---------- no deadlock ----------

  /** A busy worker can always take a step that is not a fault. */
  lemma BusyWorkerCanStep(s: State, w: nat)
    requires Busy(s, w)
    ensures exists step :: OfWorker(step) && step.w == w && !step.Fault? && !step.Crash? && Enabled(s, step)
  {
    var phase := s.workers[w];
    match phase
    case Popped(_) => assert Enabled(s, ReadAccount(w));
    case AccountRead(_, _) => assert Enabled(s, ReadService(w));
    case ServiceRead(_, _, _) => assert Enabled(s, ReadText(w));
    case TextRead(_, _, _, _) =>
      var outcome := match Prepared(phase)
        case Err(error) => Rejected(error)
        case Ok(request) => if request.GraphPost? then Rejected(Transient) else Accepted("");
      assert Enabled(s, Call(w, outcome));
    case Sent(_, _) => assert Enabled(s, WriteRow(w));
    case Wrote(_, _) => assert Enabled(s, Count(w, s.now));
    case Counted(_, _, _, _, _, _) => assert Enabled(s, Commit(w));
    case Failing(job, error) =>
      if GivesUp(job, error) { assert Enabled(s, MarkRow(w)); } else { assert Enabled(s, Requeue(w, true)); }
  }

  /** The steps that stand for something going wrong. */
  predicate IsFault(step: Step) {
    step.Fault? || step.Crash? || step.PushFails? || step.Stop?
  }

  ghost predicate PushersHaveWork(schedulers: seq<Scheduler>) {
    forall c :: 0 <= c < |schedulers| && schedulers[c].Pushing? ==> schedulers[c].accounts != []
  }

  lemma StepKeepsPushers(s: State, step: Step)
    requires Enabled(s, step) && PushersHaveWork(s.schedulers)
    ensures PushersHaveWork(Next(s, step).schedulers)
  {
    if OfApi(step) {
      WritesOfApi(s, step);
    } else if InHand(step) {
      HandSteps(s, step);
    }
  }

  lemma {:induction false} RunKeepsPushers(s: State, steps: seq<Step>)
    requires Runs(s, steps) && PushersHaveWork(s.schedulers)
    ensures PushersHaveWork(After(s, steps).schedulers)
    decreases |steps|
  {
    if steps != [] {
      StepKeepsPushers(s, steps[0]);
      RunKeepsPushers(Next(s, steps[0]), steps[1..]);
    }
  }

  /** Nothing but API writes, scans and faults can happen. */
  ghost predicate AtStandstill(s: State) {
    forall step :: Enabled(s, step) ==> OfApi(step) || step.Scan? || IsFault(step)
  }

  lemma StandstillIdlesWorkers(s: State, w: nat)
    requires AtStandstill(s) && w < |s.workers|
    ensures s.workers[w].Idle? && s.queue == []
  {
    if Busy(s, w) {
      BusyWorkerCanStep(s, w);
    }
    assert !Enabled(s, Pop(w));
  }

  lemma StandstillRestsSchedulers(s: State, c: nat)
    requires AtStandstill(s) && c < |s.schedulers| && PushersHaveWork(s.schedulers)
    ensures s.schedulers[c].Resting?
  {
    assert !Enabled(s, EndScan(c)) && !Enabled(s, ClaimNext(c)) && !Enabled(s, Push(c));
  }

  /** When no worker and no scheduler can go on without a fault, except to scan again, no
      job of any post is left. */
  lemma StandstillMeansDrained(s: State, p: int)
    requires Reachable(s) && |s.workers| > 0 && AtStandstill(s)
    ensures Quiet(s, p)
  {
    var start, steps :| Initial(start) && Runs(start, steps) && After(start, steps) == s;
    RunKeepsPushers(start, steps);
    StandstillIdlesWorkers(s, 0);
    forall w | 0 <= w < |s.workers| ensures s.workers[w].Idle? {
      StandstillIdlesWorkers(s, w);
    }
    forall c | 0 <= c < |s.schedulers| ensures s.schedulers[c].Resting? {
      StandstillRestsSchedulers(s, c);
    }
    NothingHeld(s.workers);
    NothingToPush(s.schedulers);
  }
}
