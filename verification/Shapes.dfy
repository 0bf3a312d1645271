/** What single steps leave untouched, one lemma per kind of step. */
module Shapes {
  import opened Providers
  import opened Tables
  import opened Pipeline

  /** Worker w works on in its own hands: it goes to another phase of its job or gives it
      up; tables, queue, schedulers and claims stay. */
  ghost predicate Hand(s: State, s': State, w: nat) {
    && Busy(s, w)
    && s'.db == s.db && s'.queue == s.queue && s'.schedulers == s.schedulers && s'.now == s.now
    && s'.past.claims == s.past.claims && |s'.workers| == |s.workers|
    && s'.workers == s.workers[w := s'.workers[w]]
    && (s'.workers[w].Idle? || s'.workers[w].job == s.workers[w].job)
    && (s'.workers[w].Counted? && s.workers[w].job.post in s.past.claims ==>
          s'.workers[w].seen == s.past.claims[s.workers[w].job.post].changes)
  }

  lemma ReadAccountHand(s: State, w: nat)
    requires Busy(s, w) && s.workers[w].Popped?
    ensures Hand(s, ReadAccountStep(s, w), w)
  {}

  lemma ReadServiceHand(s: State, w: nat)
    requires Busy(s, w) && s.workers[w].AccountRead?
    ensures Hand(s, ReadServiceStep(s, w), w)
  {}

  lemma ReadTextHand(s: State, w: nat)
    requires Busy(s, w) && s.workers[w].ServiceRead?
    ensures Hand(s, ReadTextStep(s, w), w)
  {}

  lemma CallHand(s: State, w: nat, outcome: Outcome)
    requires Busy(s, w) && s.workers[w].TextRead?
    ensures Hand(s, CallStep(s, w, outcome), w)
  {}

  lemma WriteRowHand(s: State, w: nat)
    requires Busy(s, w) && s.workers[w].Sent?
    ensures Hand(s, WriteRowStep(s, w), w)
  {}

  lemma MarkRowHand(s: State, w: nat)
    requires Busy(s, w) && s.workers[w].Failing?
    ensures Hand(s, MarkRowStep(s, w), w)
  {}

  lemma CountHand(s: State, w: nat, at: int)
    requires Busy(s, w) && s.workers[w].Wrote?
    ensures Hand(s, CountStep(s, w, at), w)
  {}

  lemma FaultHand(s: State, w: nat)
    requires Busy(s, w)
    ensures Hand(s, FaultStep(s, w), w)
  {}

  lemma DropHand(s: State, w: nat, lost: bool, t: Tally)
    requires Busy(s, w)
    ensures Hand(s, Dropped(s, w, lost, t), w)
  {}

  predicate InHand(step: Step) {
    OfWorker(step) && !step.Pop? && !step.Commit? && !(step.Requeue? && step.delivered)
  }

  lemma HandSteps(s: State, step: Step)
    requires Enabled(s, step) && InHand(step)
    ensures Hand(s, Next(s, step), step.w)
  {
    match step
    case ReadAccount(w) => ReadAccountHand(s, w);
    case ReadService(w) => ReadServiceHand(s, w);
    case ReadText(w) => ReadTextHand(s, w);
    case Call(w, outcome) => CallHand(s, w, outcome);
    case WriteRow(w) => WriteRowHand(s, w);
    case MarkRow(w) => MarkRowHand(s, w);
    case Count(w, at) => CountHand(s, w, at);
    case Requeue(w, _) => DropHand(s, w, true, Tallied(s, w));
    case Fault(w) => FaultHand(s, w);
    case Crash(w) => DropHand(s, w, true, Tallied(s, w));
  }

  /** A scheduler's step that claims nothing: only its list, the queue and losses change. */
  ghost predicate Listing(s: State, s': State, c: nat) {
    && c < |s.schedulers|
    && s'.db == s.db && s'.workers == s.workers && s'.now == s.now
    && s'.past.claims == s.past.claims && s'.past.tally == s.past.tally
    && |s'.schedulers| == |s.schedulers| && s'.schedulers == s.schedulers[c := s'.schedulers[c]]
  }

  /** Whether this claim attempt starts the post running. */
  ghost predicate StartsRunning(s: State, step: Step)
    requires Enabled(s, step)
  {
    step.ClaimNext? &&
    var p := s.schedulers[step.c].todo[0];
    p in s.db.posts && s.db.posts[p].Claimable() && AccountsOf(s.db.rows, s.db.nextRow, p) != []
  }

  ghost predicate FailsEmpty(s: State, step: Step)
    requires Enabled(s, step)
  {
    step.ClaimNext? &&
    var p := s.schedulers[step.c].todo[0];
    p in s.db.posts && s.db.posts[p].Claimable() && AccountsOf(s.db.rows, s.db.nextRow, p) == []
  }

  lemma ListingSteps(s: State, step: Step)
    requires Enabled(s, step) && OfScheduler(step) && !StartsRunning(s, step) && !FailsEmpty(s, step)
    ensures Listing(s, Next(s, step), step.c)
  {
    match step
    case Scan(c, found) =>
    case ClaimNext(c) =>
    case EndScan(c) =>
    case Push(c) =>
    case PushFails(c, delivered) =>
    case Stop(c) =>
  }

  predicate OfApi(step: Step) {
    !OfWorker(step) && !OfScheduler(step)
  }

  lemma WritesOfApi(s: State, step: Step)
    requires Enabled(s, step) && OfApi(step)
    ensures var s' := Next(s, step);
            s'.queue == s.queue && s'.workers == s.workers && s'.schedulers == s.schedulers
  {
    match step
    case AddPost(form) =>
    case EditPost(q, form) =>
    case RemovePost(q) =>
    case EditCatalog(op) =>
    case RemoveAccount(a) =>
    case Tick =>
  }

  /** Pop and a delivered retry move a job between the queue and a worker. */
  ghost predicate Exchange(s: State, s': State, w: nat) {
    && w < |s.workers| && s'.db == s.db && s'.schedulers == s.schedulers && s'.now == s.now
    && s'.past.claims == s.past.claims && s'.past.lost == s.past.lost
    && |s'.workers| == |s.workers| && s'.workers == s.workers[w := s'.workers[w]]
    && (s'.workers[w].Idle? || s'.workers[w].Popped?)
  }

  lemma ExchangeSteps(s: State, step: Step)
    requires Enabled(s, step) && (step.Pop? || (step.Requeue? && step.delivered))
    ensures Exchange(s, Next(s, step), step.w)
  {}

  /** Workers and schedulers change tables and claims only by a commit or a claim. */
  predicate Writes(step: Step) {
    step.Commit? || step.ClaimNext? || OfApi(step)
  }

  lemma OthersOnlyMove(s: State, step: Step)
    requires Enabled(s, step) && !Writes(step)
    ensures Next(s, step).db == s.db && Next(s, step).past.claims == s.past.claims && Next(s, step).now == s.now
  {
    if InHand(step) {
      HandSteps(s, step);
    } else if OfWorker(step) {
      ExchangeSteps(s, step);
    } else {
      ListingSteps(s, step);
    }
  }

  lemma OthersKeepWorker(s: State, step: Step, w: nat)
    requires Enabled(s, step) && w < |s.workers| && !(OfWorker(step) && step.w == w)
    ensures |Next(s, step).workers| == |s.workers| && Next(s, step).workers[w] == s.workers[w]
  {
    if OfApi(step) {
      WritesOfApi(s, step);
    } else if InHand(step) {
      HandSteps(s, step);
    } else if OfWorker(step) {
      if !step.Commit? { ExchangeSteps(s, step); }
    } else if !step.ClaimNext? {
      ListingSteps(s, step);
    }
  }
}
