/** How a post's status moves along runs. */
module Lifecycle {
  import opened Tables
  import opened Posts
  import opened Pipeline
  import opened Tokens
  import opened Invariant
  import opened SchedulerSteps
  import opened Shapes
  import opened Reach
  import opened PostStates
  import opened Safety

  // ---------- edges ----------

  /** Scheduled-pending to scheduled-running to published or failed; or, for a post
      without accounts, from scheduled-pending straight to failed. */
  ghost predicate AllowedMove(before: Post, after: Post) {
    || after == before
    || (before.Claimable() && after == before.(scheduleStatus := RUNNING))
    || (before.Claimable() && after == before.(status := FAILED, scheduleStatus := COMPLETE))
    || (before.status == SCHEDULED && before.scheduleStatus == RUNNING
        && after == before.(status := FAILED, scheduleStatus := COMPLETE))
    || (before.status == SCHEDULED && before.scheduleStatus == RUNNING && after.publishedAt.Some?
        && after == before.(status := PUBLISHED, scheduleStatus := COMPLETE, publishedAt := after.publishedAt))
  }

  lemma CommitMoves(s: State, w: nat, p: int)
    requires Inv(s) && Busy(s, w) && s.workers[w].Counted? && p in s.db.posts
    requires s.workers[w].job.post == p ==> HasRow(s.db.rows, s.workers[w].job.At())
    ensures p in CommitStep(s, w).db.posts && AllowedMove(s.db.posts[p], CommitStep(s, w).db.posts[p])
  {
    if s.workers[w].job.post == p {
      HeldIsLive(s, w);
      OpenRowMeansRunning(s, s.workers[w].job.At());
    }
  }

  lemma ClaimMoves(s: State, c: nat, p: int)
    requires c < |s.schedulers| && s.schedulers[c].Scanning? && s.schedulers[c].todo != [] && p in s.db.posts
    ensures p in ClaimStep(s, c).db.posts && AllowedMove(s.db.posts[p], ClaimStep(s, c).db.posts[p])
  {}

  /** Schedulers and workers move a post only along the allowed edges, as long as a worker
      that commits still finds the row of its job. */
  lemma StatusMovesForward(s: State, step: Step, p: int)
    requires Reachable(s) && Enabled(s, step) && (OfWorker(step) || OfScheduler(step)) && p in s.db.posts
    requires step.Commit? && s.workers[step.w].job.post == p ==> HasRow(s.db.rows, s.workers[step.w].job.At())
    ensures p in Next(s, step).db.posts && AllowedMove(s.db.posts[p], Next(s, step).db.posts[p])
  {
    ReachableInv(s);
    if step.Commit? {
      CommitMoves(s, step.w, p);
    } else if step.ClaimNext? {
      ClaimMoves(s, step.c, p);
    } else {
      OthersOnlyMove(s, step);
    }
  }

  // ---------- posts without jobs stay as they are ----------

  /** The same record, except that the post may have been soft-deleted. */
  predicate SameButDeleted(before: Post, after: Post) {
    after == before.(deleted := after.deleted) && (before.deleted ==> after.deleted)
  }

  ghost predicate AtRest(s: State, p: int) {
    Quiet(s, p) && p in s.db.posts && !s.db.posts[p].Claimable()
  }

  lemma LiveShrinks(s: State, s': State, p: int)
    requires forall k :: Live(s')[k] <= Live(s)[k]
    requires Quiet(s, p)
    ensures Quiet(s', p)
  {
    forall k | k in Live(s') ensures k.post != p {
      assert k in Live(s);
    }
  }

  lemma HandLive(s: State, s': State, w: nat)
    requires Hand(s, s', w)
    ensures forall k :: Live(s')[k] <= Live(s)[k]
  {
    forall k ensures Live(s')[k] <= Live(s)[k] {
      HeldByUpdate(s.workers, w, s'.workers[w], k);
    }
  }

  lemma CommitLive(s: State, w: nat)
    requires Busy(s, w) && s.workers[w].Counted?
    ensures forall k :: Live(CommitStep(s, w))[k] <= Live(s)[k]
  {
    forall k ensures Live(CommitStep(s, w))[k] <= Live(s)[k] {
      HeldByUpdate(s.workers, w, Idle, k);
    }
  }

  lemma WorkerLive(s: State, step: Step)
    requires Enabled(s, step) && OfWorker(step)
    ensures forall k :: Live(Next(s, step))[k] <= Live(s)[k]
  {
    if step.Pop? {
      PoppedLive(s, step.w);
    } else if step.Commit? {
      CommitLive(s, step.w);
    } else if InHand(step) {
      HandSteps(s, step);
      HandLive(s, Next(s, step), step.w);
    } else {
      RequeuedLive(s, step.w);
    }
  }

  lemma ListLive(s: State, c: nat, scheduler: Scheduler)
    requires c < |s.schedulers| && !s.schedulers[c].Pushing? && !scheduler.Pushing?
    ensures ToPushBy(s.schedulers[c := scheduler]) == ToPushBy(s.schedulers)
  {
    SameToPush(s.schedulers, c, scheduler);
  }

  lemma PushFailsLive(s: State, c: nat, delivered: bool)
    requires c < |s.schedulers| && s.schedulers[c].Pushing? && s.schedulers[c].accounts != []
    ensures forall k :: Live(PushFailsStep(s, c, delivered))[k] <= Live(s)[k]
  {
    if delivered {
      PushedLive(s, c);
      StoppedLive(PushStep(s, c), c);
    } else {
      StoppedLive(s, c);
    }
  }

  lemma ClaimLive(s: State, c: nat)
    requires Inv(s) && c < |s.schedulers| && s.schedulers[c].Scanning? && s.schedulers[c].todo != []
    ensures forall k :: k in Live(ClaimStep(s, c)) ==>
              k in Live(s) || (k.post == s.schedulers[c].todo[0] && k.post in s.db.posts && s.db.posts[k.post].Claimable())
  {
    var q, rest := s.schedulers[c].todo[0], s.schedulers[c].todo[1..];
    var accounts := AccountsOf(s.db.rows, s.db.nextRow, q);
    if q in s.db.posts && s.db.posts[q].Claimable() && accounts != [] {
      RunningLive(s, c, q, accounts, rest);
      forall k | k in Live(ClaimStep(s, c)) ensures k in Live(s) || k.post == q {
        KeysAre(q, accounts, k);
      }
    } else {
      ListLive(s, c, Scanning(rest));
    }
  }

  lemma ListingLive(s: State, step: Step)
    requires Enabled(s, step) && OfScheduler(step) && !step.ClaimNext?
    ensures forall k :: Live(Next(s, step))[k] <= Live(s)[k]
  {
    match step
    case Scan(c, found) => ListLive(s, c, Scanning(found));
    case EndScan(c) => ListLive(s, c, Resting);
    case Push(c) => PushedLive(s, c);
    case Stop(c) => StoppedLive(s, c);
    case PushFails(c, delivered) => PushFailsLive(s, c, delivered);
  }

  lemma ClaimKeepsQuiet(s: State, c: nat, p: int)
    requires Inv(s) && c < |s.schedulers| && s.schedulers[c].Scanning? && s.schedulers[c].todo != [] && AtRest(s, p)
    ensures Quiet(ClaimStep(s, c), p)
  {
    ClaimLive(s, c);
  }

  lemma ListingKeepsQuiet(s: State, step: Step, p: int)
    requires Enabled(s, step) && OfScheduler(step) && !step.ClaimNext? && Quiet(s, p)
    ensures Quiet(Next(s, step), p)
  {
    ListingLive(s, step);
    LiveShrinks(s, Next(s, step), p);
  }

  /** Saving one post leaves the record of every other post alone. */
  lemma SaveKeepsOthers(db: Db, q: int, form: PostForm, p: int)
    requires SavePost(db, q, form).Ok? && p in db.posts && p != q
    ensures p in SavePost(db, q, form).value.posts && SavePost(db, q, form).value.posts[p] == db.posts[p]
  {
    SaveUnfolds(db, q, form);
  }

  lemma ApiKeepsPost(s: State, step: Step, p: int)
    requires RowsOk(s.db) && Enabled(s, step) && OfApi(step) && p in s.db.posts
    requires step.EditPost? ==> step.p != p
    ensures p in Next(s, step).db.posts && SameButDeleted(s.db.posts[p], Next(s, step).db.posts[p])
  {
    match step
    case AddPost(form) =>
      assert p < s.db.nextPost;
      SaveKeepsOthers(s.db.(nextPost := s.db.nextPost + 1), s.db.nextPost, form, p);
    case EditPost(q, form) => SaveKeepsOthers(s.db, q, form, p);
    case RemovePost(q) =>
    case EditCatalog(op) =>
    case RemoveAccount(a) =>
    case Tick =>
  }

  lemma CommitKeepsRest(s: State, w: nat, p: int)
    requires Busy(s, w) && s.workers[w].Counted? && AtRest(s, p)
    ensures CommitStep(s, w).db.posts[p] == s.db.posts[p]
  {
    HeldIsLive(s, w);
  }

  lemma WorkerKeepsPost(s: State, step: Step, p: int)
    requires Enabled(s, step) && OfWorker(step) && AtRest(s, p)
    ensures p in Next(s, step).db.posts && Next(s, step).db.posts[p] == s.db.posts[p]
  {
    if step.Commit? {
      CommitKeepsRest(s, step.w, p);
    } else if InHand(step) {
      HandSteps(s, step);
    } else {
      ExchangeSteps(s, step);
    }
  }

  lemma SchedulerKeepsPost(s: State, step: Step, p: int)
    requires Enabled(s, step) && OfScheduler(step) && AtRest(s, p)
    ensures p in Next(s, step).db.posts && Next(s, step).db.posts[p] == s.db.posts[p]
  {
    if step.ClaimNext? {
      ClaimKeepsRest(s, step.c, p);
    } else {
      ListingSteps(s, step);
    }
  }

  lemma ClaimKeepsRest(s: State, c: nat, p: int)
    requires c < |s.schedulers| && s.schedulers[c].Scanning? && s.schedulers[c].todo != [] && AtRest(s, p)
    ensures p in ClaimStep(s, c).db.posts && ClaimStep(s, c).db.posts[p] == s.db.posts[p]
  {}

  lemma RestIsKept(s: State, step: Step, p: int)
    requires Inv(s) && Enabled(s, step) && AtRest(s, p)
    requires step.EditPost? ==> step.p != p
    ensures Inv(Next(s, step)) && AtRest(Next(s, step), p)
    ensures SameButDeleted(s.db.posts[p], Next(s, step).db.posts[p])
  {
    StepKeepsInv(s, step);
    StepKeepsRest(s, step, p);
  }

  lemma StepKeepsRest(s: State, step: Step, p: int)
    requires Inv(s) && Enabled(s, step) && AtRest(s, p)
    requires step.EditPost? ==> step.p != p
    ensures Quiet(Next(s, step), p) && p in Next(s, step).db.posts
    ensures SameButDeleted(s.db.posts[p], Next(s, step).db.posts[p])
  {
    if OfWorker(step) {
      WorkerLive(s, step);
      LiveShrinks(s, Next(s, step), p);
      WorkerKeepsPost(s, step, p);
    } else if OfScheduler(step) {
      if step.ClaimNext? {
        ClaimKeepsQuiet(s, step.c, p);
      } else {
        ListingKeepsQuiet(s, step, p);
      }
      SchedulerKeepsPost(s, step, p);
    } else {
      WritesOfApi(s, step);
      assert Live(Next(s, step)) == Live(s);
      ApiKeepsPost(s, step, p);
    }
  }

  ghost predicate NoEditOf(steps: seq<Step>, p: int) {
    forall i :: 0 <= i < |steps| && steps[i].EditPost? ==> steps[i].p != p
  }

  /** A post that no job is left for, and that is not waiting to be claimed, keeps its
      status, schedule status and published_at over every run in which nobody edits it:
      complete states are absorbing, and so is being stranded in the running state. */
  lemma {:induction false} RestIsForever(s: State, steps: seq<Step>, p: int)
    requires Inv(s) && Runs(s, steps) && AtRest(s, p) && NoEditOf(steps, p)
    ensures AtRest(After(s, steps), p) && SameButDeleted(s.db.posts[p], After(s, steps).db.posts[p])
    decreases |steps|
  {
    if steps != [] {
      NoEditLater(steps, p);
      RestIsKept(s, steps[0], p);
      RestIsForever(Next(s, steps[0]), steps[1..], p);
    }
  }

  lemma NoEditLater(steps: seq<Step>, p: int)
    requires steps != [] && NoEditOf(steps, p)
    ensures (steps[0].EditPost? ==> steps[0].p != p) && NoEditOf(steps[1..], p)
  {}

  /** A job of a claimed post that is published or failed has lost its row; an intact
      complete post has no job left anywhere. */
  lemma CompleteMeansAtRest(s: State, p: int)
    requires Reachable(s) && p in s.past.claims && (IsPublished(s, p) || IsFailed(s, p))
    ensures forall k :: k in Live(s) && k.post == p ==> !HasRow(s.db.rows, k)
    ensures Intact(s, p) ==> AtRest(s, p)
  {
    ReachableInv(s);
    forall k | k in Live(s) && k.post == p ensures !HasRow(s.db.rows, k) && !Intact(s, p) {
      if HasRow(s.db.rows, k) {
        OpenRowMeansRunning(s, k);
      }
    }
  }

  // ---------- one verdict per claim ----------

  /** Along the run every settlement that commits still finds the row of its job. */
  ghost predicate CommitsFindRows(s: State, steps: seq<Step>)
    requires Runs(s, steps)
    decreases |steps|
  {
    steps == [] ||
    ((steps[0].Commit? ==> HasRow(s.db.rows, s.workers[steps[0].w].job.At()))
     && CommitsFindRows(Next(s, steps[0]), steps[1..]))
  }

  ghost predicate AtMostOneVerdict(claims: Claims) {
    forall p :: p in claims ==> claims[p].finals <= 1
  }

  lemma CommitKeepsOneVerdict(s: State, w: nat)
    requires Inv(s) && Busy(s, w) && s.workers[w].Counted? && HasRow(s.db.rows, s.workers[w].job.At())
    requires AtMostOneVerdict(s.past.claims)
    ensures AtMostOneVerdict(CommitStep(s, w).past.claims)
  {
    HeldIsLive(s, w);
    OpenRowMeansRunning(s, s.workers[w].job.At());
    ClaimedPostOk(s, s.workers[w].job.post);
  }

  lemma ClaimKeepsOneVerdict(s: State, c: nat)
    requires c < |s.schedulers| && s.schedulers[c].Scanning? && s.schedulers[c].todo != [] && AtMostOneVerdict(s.past.claims)
    ensures AtMostOneVerdict(ClaimStep(s, c).past.claims)
  {}

  lemma ApiKeepsOneVerdict(s: State, step: Step)
    requires Enabled(s, step) && OfApi(step) && AtMostOneVerdict(s.past.claims)
    ensures AtMostOneVerdict(Next(s, step).past.claims)
  {
    match step
    case AddPost(form) =>
    case EditPost(q, form) =>
    case RemovePost(q) =>
    case EditCatalog(op) =>
    case RemoveAccount(a) =>
    case Tick =>
  }

  lemma StepKeepsOneVerdict(s: State, step: Step)
    requires Inv(s) && Enabled(s, step) && AtMostOneVerdict(s.past.claims)
    requires step.Commit? ==> HasRow(s.db.rows, s.workers[step.w].job.At())
    ensures AtMostOneVerdict(Next(s, step).past.claims)
  {
    if step.Commit? {
      CommitKeepsOneVerdict(s, step.w);
    } else if step.ClaimNext? {
      ClaimKeepsOneVerdict(s, step.c);
    } else if OfApi(step) {
      ApiKeepsOneVerdict(s, step);
    } else {
      OthersOnlyMove(s, step);
    }
  }

  /** Deletions elsewhere do no harm: a claim is finalized twice only if some settlement
      committed after its own row was deleted. */
  lemma {:induction false} FinalizedOnceWhileRowsStay(s: State, steps: seq<Step>)
    requires Inv(s) && Runs(s, steps) && CommitsFindRows(s, steps) && AtMostOneVerdict(s.past.claims)
    ensures AtMostOneVerdict(After(s, steps).past.claims)
    decreases |steps|
  {
    if steps != [] {
      StepKeepsInv(s, steps[0]);
      StepKeepsOneVerdict(s, steps[0]);
      FinalizedOnceWhileRowsStay(Next(s, steps[0]), steps[1..]);
    }
  }

  // ---------- deleted posts ----------

  /** A soft-deleted post can neither be edited nor claimed: once no job is left for it, its
      record stays exactly as it is over every run. */
  lemma {:induction false} DeletedStaysAtRest(s: State, steps: seq<Step>, p: int)
    requires Inv(s) && Runs(s, steps) && p in s.db.posts && s.db.posts[p].deleted && Quiet(s, p)
    ensures p in After(s, steps).db.posts && After(s, steps).db.posts[p] == s.db.posts[p] && Quiet(After(s, steps), p)
    decreases |steps|
  {
    if steps != [] {
      RestIsKept(s, steps[0], p);
      DeletedStaysAtRest(Next(s, steps[0]), steps[1..], p);
    }
  }

  // ---------- settlements that do not overlap ----------

  ghost predicate OneDecision(s: State, p: int) {
    forall v: nat, w: nat :: v != w && Deciding(s, v, p) && Deciding(s, w, p) ==> false
  }

  /** Along the run no two transactions on this post are between their count and their commit. */
  ghost predicate Serialized(s: State, steps: seq<Step>, p: int)
    requires Runs(s, steps)
    decreases |steps|
  {
    OneDecision(s, p) && (steps != [] ==> Serialized(Next(s, steps[0]), steps[1..], p))
  }

  ghost predicate Fresh(phase: Phase, claim: Claim, p: int) {
    phase.Counted? && phase.job.post == p ==> phase.seen == claim.changes
  }

  /** Unless one of its rows was deleted, no settlement of the post has been overtaken. */
  ghost predicate Timely(workers: seq<Phase>, claims: Claims, p: int) {
    p in claims && claims[p].gone == {} ==>
      !claims[p].late && forall w :: 0 <= w < |workers| ==> Fresh(workers[w], claims[p], p)
  }

  lemma CommitKeepsTimely(s: State, w: nat, p: int)
    requires Busy(s, w) && s.workers[w].Counted? && OneDecision(s, p) && Timely(s.workers, s.past.claims, p)
    ensures Timely(CommitStep(s, w).workers, CommitStep(s, w).past.claims, p)
  {
    var s' := CommitStep(s, w);
    if p in s.past.claims && s.past.claims[p].gone == {} {
      assert Fresh(s.workers[w], s.past.claims[p], p);
      forall v | 0 <= v < |s'.workers| ensures Fresh(s'.workers[v], s'.past.claims[p], p) {
        assert Fresh(s.workers[v], s.past.claims[p], p);
        assert Deciding(s, w, p) && v != w ==> !Deciding(s, v, p);
      }
    }
  }

  lemma ClaimKeepsTimely(s: State, c: nat, p: int)
    requires Inv(s) && c < |s.schedulers| && s.schedulers[c].Scanning? && s.schedulers[c].todo != []
    requires Timely(s.workers, s.past.claims, p)
    ensures Timely(ClaimStep(s, c).workers, ClaimStep(s, c).past.claims, p)
  {
    var q := s.schedulers[c].todo[0];
    if q == p && q in s.db.posts && s.db.posts[q].Claimable() {
      ClaimableIsUnclaimed(s, p);
      NoJobOf(s, p);
    }
  }

  lemma ApiKeepsTimely(s: State, step: Step, p: int)
    requires Enabled(s, step) && !OfWorker(step) && !OfScheduler(step) && Timely(s.workers, s.past.claims, p)
    ensures Timely(Next(s, step).workers, Next(s, step).past.claims, p)
  {
    match step
    case AddPost(form) =>
    case EditPost(q, form) =>
    case RemovePost(q) =>
    case EditCatalog(op) =>
    case RemoveAccount(a) => CutKeepsTimely(s.workers, s.past.claims, CutClaims(s, a), s.db.rows, p, a);
    case Tick =>
  }

  lemma CutKeepsTimely(workers: seq<Phase>, claims: Claims, claims': Claims, rows: map<int, Row>, p: int, a: int)
    requires Timely(workers, claims, p)
    requires p in claims' ==> p in claims && claims'[p] == CutClaim(claims[p], rows, p, a)
    ensures Timely(workers, claims', p)
  {}

  lemma SameClaimsKeepTimely(s: State, s': State, w: nat, claims: Claims, p: int)
    requires Timely(s.workers, claims, p) && w < |s.workers|
    requires |s'.workers| == |s.workers| && s'.workers == s.workers[w := s'.workers[w]]
    requires p in claims ==> Fresh(s'.workers[w], claims[p], p)
    ensures Timely(s'.workers, claims, p)
  {}

  lemma MoveKeepsTimely(s: State, step: Step, p: int)
    requires Enabled(s, step) && OfWorker(step) && !step.Commit? && Timely(s.workers, s.past.claims, p)
    ensures Timely(Next(s, step).workers, Next(s, step).past.claims, p)
  {
    if InHand(step) {
      HandSteps(s, step);
    } else {
      ExchangeSteps(s, step);
    }
    SameClaimsKeepTimely(s, Next(s, step), step.w, s.past.claims, p);
  }

  lemma StepKeepsTimely(s: State, step: Step, p: int)
    requires Inv(s) && Enabled(s, step) && OneDecision(s, p) && Timely(s.workers, s.past.claims, p)
    ensures Timely(Next(s, step).workers, Next(s, step).past.claims, p)
  {
    if step.Commit? {
      CommitKeepsTimely(s, step.w, p);
    } else if step.ClaimNext? {
      ClaimKeepsTimely(s, step.c, p);
    } else if OfWorker(step) {
      MoveKeepsTimely(s, step, p);
    } else if OfScheduler(step) {
      ListingSteps(s, step);
    } else {
      ApiKeepsTimely(s, step, p);
    }
  }

  lemma {:induction false} RunKeepsTimely(s: State, steps: seq<Step>, p: int)
    requires Inv(s) && Runs(s, steps) && Serialized(s, steps, p) && Timely(s.workers, s.past.claims, p)
    ensures Timely(After(s, steps).workers, After(s, steps).past.claims, p)
    decreases |steps|
  {
    if steps != [] {
      StepKeepsInv(s, steps[0]);
      StepKeepsTimely(s, steps[0], p);
      RunKeepsTimely(Next(s, steps[0]), steps[1..], p);
    }
  }

  /** If settlements of a post never overlap, whatever those of other posts do, and none of
      its jobs is lost and none of its rows deleted, it is finished once its jobs are all
      gone: failed if some row has an error, published otherwise. */
  lemma SerializedRunsFinish(start: State, steps: seq<Step>, s: State, p: int)
    requires Initial(start) && Runs(start, steps) && Serialized(start, steps, p) && s == After(start, steps)
    requires Intact(s, p) && Quiet(s, p) && NothingLost(s, p)
    ensures if SomeError(s, p) then IsFailed(s, p) else IsPublished(s, p)
  {
    InitialInv(start);
    RunKeepsTimely(start, steps, p);
    DrainedOutcome(s, p);
  }
}
