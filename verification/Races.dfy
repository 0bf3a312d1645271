/** Where the pipeline does less than one would hope: runs that leave a post stranded,
    publish it in spite of a failure, claim it too early, or post twice. Each is shown
    from every state of its kind; the first also from empty tables on. */
module Races {
  import opened Base
  import opened Providers
  import opened Tables
  import opened Content
  import opened Posts
  import opened Pipeline
  import opened Tokens
  import opened Invariant
  import opened WorkerSteps
  import opened CommitSteps
  import opened SchedulerSteps
  import opened PostStates
  import opened Safety
  import opened Reach
  import opened Lifecycle
  import opened WorkerLoop

  // ---------- posts nobody will finish ----------

  /** The only jobs of the post still around are those of the given keys. */
  ghost predicate OnlyLeft(s: State, p: int, keys: set<Key>) {
    forall k :: k in Live(s) && k.post == p ==> k in keys
  }

  ghost predicate AllSettled(rows: map<int, Row>, p: int) {
    forall i :: i in rows && rows[i].post == p ==> !rows[i].Pending()
  }

  /** At rest in the running state with every row settled and no job lost: nothing will
      ever finish this post. */
  ghost predicate Stranded(s: State, p: int) {
    IsRunning(s, p) && AtRest(s, p) && NothingLost(s, p) && AllSettled(s.db.rows, p)
  }

  /** Without an edit it stays running over every continuation. */
  lemma StrandedForever(s: State, steps: seq<Step>, p: int)
    requires Reachable(s) && Stranded(s, p) && Runs(s, steps) && NoEditOf(steps, p)
    ensures IsRunning(After(s, steps), p)
  {
    ReachableInv(s);
    RestIsForever(s, steps, p);
  }

  /** A row with a live job refers to a stored account and belongs to a running post. */
  lemma LiveAccountIsStored(s: State, k: Key)
    requires Reachable(s) && HasRow(s.db.rows, k) && k in Live(s)
    ensures k.account in s.db.catalog.accounts && IsRunning(s, k.post) && k.post in s.past.claims
  {
    ReachableInv(s);
    OpenRowMeansRunning(s, k);
    var i :| i in s.db.rows && s.db.rows[i].At() == k;
    assert s.db.rows[i].account in s.db.catalog.accounts;
  }

  // ---------- two settlements at once ----------

  ghost predicate Writing(s: State, w: nat, p: int) {
    Busy(s, w) && s.workers[w].Wrote? && s.workers[w].job.post == p
  }

  ghost predicate WritingInPlace(s: State, w: nat, p: int) {
    Writing(s, w, p) && HasRow(s.db.rows, s.workers[w].job.At())
  }

  /** A worker whose count cannot see another worker's uncommitted row reaches no verdict. */
  lemma CountSeesPendingRow(s: State, w: nat, k: Key)
    requires Inv(s) && HasRow(s.db.rows, k) && Writing(s, w, k.post) && k in Live(s) && k != s.workers[w].job.At()
    ensures CountedPhase(s, s.workers[w], s.now).verdict == Unfinished
  {
    OpenRowMeansRunning(s, k);
    var i :| i in s.db.rows && s.db.rows[i].At() == k && s.db.rows[i].Pending();
    var view := Changed(s.db.rows, s.workers[w].job.At(), s.workers[w].change);
    assert view[i] == s.db.rows[i];
    JudgeMeaning(view, k.post);
  }

  /** Committing a count without a verdict settles the row and leaves the post. */
  lemma CommitWithoutVerdict(s: State, w: nat)
    requires Inv(s) && Busy(s, w) && s.workers[w].Counted? && s.workers[w].verdict == Unfinished
    ensures var s' := CommitStep(s, w);
            && s'.db.posts == s.db.posts && s'.db.rows == Changed(s.db.rows, s.workers[w].job.At(), s.workers[w].change)
            && (forall j :: Live(s')[j] == if j == s.workers[w].job.At() then 0 else Live(s)[j])
  {
    WorkersAreAlone(s, w);
    CommittedLive(s, w);
  }

  /** Both count before either commits. */
  function BothCount(s: State, v: nat, w: nat): State
    requires v != w && Busy(s, v) && Busy(s, w) && s.workers[v].Wrote? && s.workers[w].Wrote?
  {
    CountStep(CountStep(s, v, s.now), w, s.now)
  }

  lemma BothCountBlindly(s: State, v: nat, w: nat, p: int)
    requires Reachable(s) && v != w && WritingInPlace(s, v, p) && WritingInPlace(s, w, p)
    ensures var s' := BothCount(s, v, w);
            && Reachable(s') && s'.db == s.db && Live(s') == Live(s) && s'.past.lost == s.past.lost
            && s'.past.claims == s.past.claims && |s'.workers| == |s.workers|
            && s'.workers[v] == CountedPhase(s, s.workers[v], s.now) && s'.workers[v].verdict == Unfinished
            && s'.workers[w] == CountedPhase(s, s.workers[w], s.now) && s'.workers[w].verdict == Unfinished
  {
    ReachableInv(s);
    WorkersAreAlone(s, v);
    HeldIsLive(s, v);
    HeldIsLive(s, w);
    CountSeesPendingRow(s, v, s.workers[w].job.At());
    CountSeesPendingRow(s, w, s.workers[v].job.At());
    var s1 := CountStep(s, v, s.now);
    CountReaches(s, v, s.now);
    CountReaches(s1, w, s.now);
    MovedLive(s, v, CountedPhase(s, s.workers[v], s.now), Tallied(s, v));
    MovedLive(s1, w, CountedPhase(s1, s.workers[w], s.now), Tallied(s1, w));
  }

  lemma BlindCommit(s: State, w: nat, p: int, keys: set<Key>)
    requires Reachable(s) && Deciding(s, w, p) && s.workers[w].verdict == Unfinished && p in s.past.claims
    requires IsRunning(s, p) && NothingLost(s, p) && OnlyLeft(s, p, keys)
    ensures var s' := CommitStep(s, w);
            && Reachable(s') && s'.workers == s.workers[w := Idle] && p in s'.past.claims
            && IsRunning(s', p) && NothingLost(s', p) && OnlyLeft(s', p, keys - {s.workers[w].job.At()})
  {
    ReachableInv(s);
    BlindCommitLeaves(s, w, p, keys);
    CommitReaches(s, w);
  }

  lemma BlindCommitLeaves(s: State, w: nat, p: int, keys: set<Key>)
    requires Inv(s) && Deciding(s, w, p) && s.workers[w].verdict == Unfinished && OnlyLeft(s, p, keys)
    ensures CommitStep(s, w).db.posts == s.db.posts && OnlyLeft(CommitStep(s, w), p, keys - {s.workers[w].job.At()})
  {
    CommitWithoutVerdict(s, w);
    forall k | k in Live(CommitStep(s, w)) && k.post == p ensures k in keys - {s.workers[w].job.At()} {
      assert k in Live(s);
    }
  }

  /** Two counts without a verdict, whichever is committed first. */
  lemma BlindCommits(s: State, v: nat, w: nat, p: int)
    requires Reachable(s) && v != w && Deciding(s, v, p) && Deciding(s, w, p) && p in s.past.claims
    requires s.workers[v].verdict == Unfinished && s.workers[w].verdict == Unfinished
    requires IsRunning(s, p) && NothingLost(s, p)
    requires OnlyLeft(s, p, {s.workers[v].job.At(), s.workers[w].job.At()})
    ensures var s' := CommitStep(CommitStep(s, v), w); Reachable(s') && Stranded(s', p)
  {
    var j, k := s.workers[v].job.At(), s.workers[w].job.At();
    BlindCommit(s, v, p, {j, k});
    var s1 := CommitStep(s, v);
    BlindCommit(s1, w, p, {j, k} - {j});
    var s' := CommitStep(s1, w);
    assert {j, k} - {j} - {k} == {};
    DrainedMeansSettled(s', p);
  }

  /** Two workers settle the last two rows of a post. Each counts before the other has
      committed, so neither finalizes, and the post is stranded with every row settled. */
  lemma SimultaneousSettlementsStrand(s: State, v: nat, w: nat, p: int)
    requires Reachable(s) && NothingLost(s, p) && v != w && WritingInPlace(s, v, p) && WritingInPlace(s, w, p)
    requires OnlyLeft(s, p, {s.workers[v].job.At(), s.workers[w].job.At()})
    ensures var s' := CommitStep(CommitStep(BothCount(s, v, w), v), w); Reachable(s') && Stranded(s', p)
  {
    HeldIsLive(s, v);
    LiveAccountIsStored(s, s.workers[v].job.At());
    BothCountBlindly(s, v, w, p);
    BlindCommits(BothCount(s, v, w), v, w, p);
  }

  /** In a reachable state a claimed post without live or lost jobs has no pending row. */
  lemma DrainedMeansSettled(s: State, p: int)
    requires Reachable(s) && p in s.past.claims && Quiet(s, p) && NothingLost(s, p)
    ensures AllSettled(s.db.rows, p)
  {
    ReachableInv(s);
    forall i | i in s.db.rows && s.db.rows[i].post == p ensures !s.db.rows[i].Pending() {
      assert RowOk(s.db.rows[i], s.past.claims, s.past.lost, Live(s));
    }
  }

  // ---------- rows deleted under a job ----------

  /** Deleting an account changes neither posts nor jobs. */
  lemma RemovalKeepsJobs(s: State, a: int)
    requires Reachable(s) && a in s.db.catalog.accounts
    ensures var s1 := RemoveAccountStep(s, a);
            && Reachable(s1) && Live(s1) == Live(s) && s1.db.posts == s.db.posts && s1.past.lost == s.past.lost
            && s1.workers == s.workers && s1.now == s.now
            && s1.past.claims.Keys == s.past.claims.Keys
            && (forall p :: p in s.past.claims ==> s1.past.claims[p].finals == s.past.claims[p].finals)
            && (forall p :: p in s.past.claims ==> s1.past.claims[p].failed == s.past.claims[p].failed)
            && (forall i :: i in s1.db.rows <==> i in s.db.rows && s.db.rows[i].account != a)
            && (forall i :: i in s1.db.rows ==> s1.db.rows[i] == s.db.rows[i])
            && (forall p :: !HasRow(s1.db.rows, Key(p, a)))
  {
    RemovalReaches(s, a);
    assert Live(RemoveAccountStep(s, a)) == Live(s);
  }

  /** The account of a post's last job is deleted before the worker reads it: the worker
      drops the job without finalizing, and the post is stranded. */
  lemma DeletedAccountStrandsPost(s: State, w: nat)
    requires Reachable(s) && Busy(s, w) && s.workers[w].Popped?
    requires var k := s.workers[w].job.At(); HasRow(s.db.rows, k) && NothingLost(s, k.post) && OnlyLeft(s, k.post, {k})
    ensures var k := s.workers[w].job.At();
            var s' := ReadAccountStep(RemoveAccountStep(s, k.account), w);
            Reachable(s') && Stranded(s', k.post)
  {
    var k := s.workers[w].job.At();
    HeldIsLive(s, w);
    LiveAccountIsStored(s, k);
    RemovalKeepsJobs(s, k.account);
    DroppedJobStrandsPost(RemoveAccountStep(s, k.account), w);
  }

  lemma DroppedJobIsLast(s: State, w: nat)
    requires Reachable(s) && Busy(s, w) && s.workers[w].Popped? && FetchAccount(s.db, s.workers[w].job.At()).None?
    requires OnlyLeft(s, s.workers[w].job.post, {s.workers[w].job.At()})
    ensures Quiet(ReadAccountStep(s, w), s.workers[w].job.post)
  {
    ReachableInv(s);
    WorkersAreAlone(s, w);
    DroppedLive(s, w, false, Tallied(s, w));
  }

  lemma DroppedJobStrandsPost(s: State, w: nat)
    requires Reachable(s) && Busy(s, w) && s.workers[w].Popped? && FetchAccount(s.db, s.workers[w].job.At()).None?
    requires var k := s.workers[w].job.At();
             k.post in s.past.claims && IsRunning(s, k.post) && NothingLost(s, k.post) && OnlyLeft(s, k.post, {k})
    ensures Reachable(ReadAccountStep(s, w)) && Stranded(ReadAccountStep(s, w), s.workers[w].job.post)
  {
    DroppedJobIsLast(s, w);
    ReachableStep(s, ReadAccount(w));
    DrainedMeansSettled(ReadAccountStep(s, w), s.workers[w].job.post);
  }

  /** Every row of the post that is not one of these is posted. */
  ghost predicate OnlyOpen(s: State, p: int, keys: set<Key>) {
    forall i :: i in s.db.rows && s.db.rows[i].post == p && s.db.rows[i].At() !in keys ==> s.db.rows[i].Posted()
  }

  /** The account of a failed job is deleted before the failure is recorded: the mark
      updates no row, and if every other row was posted the post is published, even when
      it has no row left at all. */
  lemma DeletionHidesFailure(s: State, w: nat)
    requires Reachable(s) && Busy(s, w) && s.workers[w].Failing? && GivesUp(s.workers[w].job, s.workers[w].error)
    requires var k := s.workers[w].job.At();
             HasRow(s.db.rows, k) && OnlyOpen(s, k.post, {k})
    ensures var k := s.workers[w].job.At();
            var s' := CommitStep(CountStep(MarkRowStep(RemoveAccountStep(s, k.account), w), w, s.now), w);
            Reachable(s') && IsPublished(s', k.post) && !HasRow(s'.db.rows, k) && !SomeError(s', k.post)
  {
    var k := s.workers[w].job.At();
    HeldIsLive(s, w);
    LiveAccountIsStored(s, k);
    RemovalKeepsJobs(s, k.account);
    var s1 := RemoveAccountStep(s, k.account);
    assert AllPosted(s1.db.rows, k.post) && k.post in s1.past.claims;
    MarkWithoutRow(s1, w);
  }

  /** A mark that finds no row and every remaining row posted publishes the post. */
  lemma MarkWithoutRow(s: State, w: nat)
    requires Reachable(s) && Busy(s, w) && s.workers[w].Failing? && GivesUp(s.workers[w].job, s.workers[w].error)
    requires var k := s.workers[w].job.At();
             !HasRow(s.db.rows, k) && AllPosted(s.db.rows, k.post) && k.post in s.db.posts && k.post in s.past.claims
    ensures var s' := CommitStep(CountStep(MarkRowStep(s, w), w, s.now), w);
            var p := s.workers[w].job.post;
            && Reachable(s') && IsPublished(s', p) && s'.db.posts[p].publishedAt == Some(s.now)
            && s'.db.rows == s.db.rows && !SomeError(s', p)
            && p in s'.past.claims && s'.past.claims[p].finals == s.past.claims[p].finals + 1
  {
    var k, change := s.workers[w].job.At(), Errored(s.workers[w].error);
    UnknownRowUnchanged(s.db.rows, k, change);
    JudgeMeaning(s.db.rows, k.post);
    var s1 := MarkRowStep(s, w);
    ReachableStep(s, MarkRow(w));
    assert s1.workers[w] == Wrote(s.workers[w].job, change) && s1.db == s.db;
    var s2 := CountStep(s1, w, s.now);
    CountReaches(s1, w, s.now);
    assert s2.workers[w].verdict == AllPublished && s2.workers[w].change == change && s2.db == s.db;
    CommitReaches(s2, w);
  }

  /** Recording an error never publishes a post, unless its own row is gone and every row
      left is posted; and then it always does. */
  lemma MarkPublishesExactly(s: State, w: nat, at: int)
    requires Busy(s, w) && s.workers[w].Wrote? && s.workers[w].change.Errored?
    ensures var k := s.workers[w].job.At();
            CountedPhase(s, s.workers[w], at).verdict == AllPublished
            <==> !HasRow(s.db.rows, k) && AllPosted(s.db.rows, k.post)
  {
    var k, change := s.workers[w].job.At(), s.workers[w].change;
    var view := Changed(s.db.rows, k, change);
    JudgeMeaning(view, k.post);
    if HasRow(s.db.rows, k) {
      ErrorIsSeen(s.db.rows, k, change, k.account);
    } else {
      UnknownRowUnchanged(s.db.rows, k, change);
    }
  }

  ghost predicate HoldsError(rows: map<int, Row>, k: Key) {
    exists i :: i in rows && rows[i].At() == k && rows[i].errors.Some?
  }

  /** The error is recorded in its row, then the account is deleted, then the last open row
      is posted: the post is published although the failure of an account was committed. */
  lemma DeletionErasesFailure(s: State, a: int, w: nat, p: int)
    requires Reachable(s) && WritingInPlace(s, w, p) && s.workers[w].change.Succeeded?
    requires HoldsError(s.db.rows, Key(p, a)) && a != s.workers[w].job.account
    requires OnlyOpen(s, p, {Key(p, a), s.workers[w].job.At()})
    ensures var s' := CommitStep(CountStep(RemoveAccountStep(s, a), w, s.now), w);
            Reachable(s') && IsPublished(s', p) && p in s'.past.claims && a in s'.past.claims[p].failed
  {
    HeldIsLive(s, w);
    LiveAccountIsStored(s, s.workers[w].job.At());
    ErrorIsInHistory(s, Key(p, a));
    RemovalKeepsJobs(s, a);
    LastSuccessPublishes(RemoveAccountStep(s, a), w, p);
  }

  /** A row with an error stands for a failed account that is stored. */
  lemma ErrorIsInHistory(s: State, k: Key)
    requires Reachable(s) && k.post in s.past.claims && HoldsError(s.db.rows, k)
    ensures k.account in s.db.catalog.accounts && k.account in s.past.claims[k.post].failed
  {
    ReachableInv(s);
    ClaimedPostOk(s, k.post);
    var i :| i in s.db.rows && s.db.rows[i].At() == k && s.db.rows[i].errors.Some?;
    assert s.db.rows[i].account in s.db.catalog.accounts;
  }

  /** Recording an error while the row of another job is open decides nothing. */
  lemma EarlyMarkDecidesNothing(s: State, w: nat, j: Key)
    requires Reachable(s) && Busy(s, w) && s.workers[w].Failing? && GivesUp(s.workers[w].job, s.workers[w].error)
    requires j in Live(s) && HasRow(s.db.rows, j) && j.post == s.workers[w].job.post && j != s.workers[w].job.At()
    ensures var s' := CommitStep(CountStep(MarkRowStep(s, w), w, s.now), w);
            && Reachable(s') && s'.workers == s.workers[w := Idle] && s'.now == s.now
            && s'.db.rows == Changed(s.db.rows, s.workers[w].job.At(), Errored(s.workers[w].error))
  {
    MarkReaches(s, w);
    EarlyCountDecidesNothing(MarkRowStep(s, w), w, j);
  }

  lemma MarkReaches(s: State, w: nat)
    requires Reachable(s) && Busy(s, w) && s.workers[w].Failing? && GivesUp(s.workers[w].job, s.workers[w].error)
    ensures var s' := MarkRowStep(s, w);
            && Reachable(s') && Live(s') == Live(s) && s'.db == s.db && s'.now == s.now
            && s'.workers == s.workers[w := Wrote(s.workers[w].job, Errored(s.workers[w].error))]
  {
    ReachableStep(s, MarkRow(w));
    MovedLive(s, w, Wrote(s.workers[w].job, Errored(s.workers[w].error)), Tallied(s, w));
  }

  lemma EarlyCountDecidesNothing(s: State, w: nat, j: Key)
    requires Reachable(s) && Writing(s, w, j.post) && j in Live(s) && HasRow(s.db.rows, j) && j != s.workers[w].job.At()
    ensures var s' := CommitStep(CountStep(s, w, s.now), w);
            && Reachable(s') && s'.workers == s.workers[w := Idle] && s'.now == s.now
            && s'.db.rows == Changed(s.db.rows, s.workers[w].job.At(), s.workers[w].change)
  {
    ReachableInv(s);
    CountSeesPendingRow(s, w, j);
    CountReaches(s, w, s.now);
    CommitReaches(CountStep(s, w, s.now), w);
  }

  /** So a post that was published once is published again, with a new time, when the mark
      of a job whose row was deleted comes late: finalizing once needs the rows in place. */
  lemma DeletedRowFinalizesAgain(s: State, w: nat)
    requires Reachable(s) && Busy(s, w) && s.workers[w].Failing? && GivesUp(s.workers[w].job, s.workers[w].error)
    requires var k := s.workers[w].job.At();
             !HasRow(s.db.rows, k) && k.post in s.past.claims && IsPublished(s, k.post)
    ensures var s' := CommitStep(CountStep(MarkRowStep(s, w), w, s.now), w);
            var p := s.workers[w].job.post;
            && Reachable(s') && s'.db.posts[p].publishedAt == Some(s.now)
            && s'.past.claims[p].finals == s.past.claims[p].finals + 1
  {
    PublishedIsNeverPremature(s, s.workers[w].job.post);
    MarkWithoutRow(s, w);
  }

  /** A commit that leaves every row posted publishes the post. */
  lemma LastSuccessPublishes(s: State, w: nat, p: int)
    requires Reachable(s) && Writing(s, w, p) && s.workers[w].change.Succeeded? && p in s.past.claims && p in s.db.posts
    requires OnlyOpen(s, p, {s.workers[w].job.At()})
    ensures var s' := CommitStep(CountStep(s, w, s.now), w);
            && Reachable(s') && IsPublished(s', p)
            && s'.workers == s.workers[w := Idle] && s'.now == s.now
            && (forall k :: HasRow(s'.db.rows, k) ==> HasRow(s.db.rows, k))
            && p in s'.past.claims && s'.past.claims[p].finals == s.past.claims[p].finals + 1
            && s'.past.claims[p].failed == s.past.claims[p].failed
  {
    var k, change := s.workers[w].job.At(), s.workers[w].change;
    JudgeMeaning(Changed(s.db.rows, k, change), p);
    var s1 := CountStep(s, w, s.now);
    CountReaches(s, w, s.now);
    assert s1.workers[w].verdict == AllPublished && s1.workers[w].change == change && s1.db == s.db;
    CommitReaches(s1, w);
    forall j | HasRow(Changed(s.db.rows, k, change), j) ensures HasRow(s.db.rows, j) {
      SameKeys(s.db.rows, k, change, j);
    }
  }

  /** Worker v is about to publish the post, worker w to record its only failure, and the
      account of w's job is deleted: both finalize the same claim. */
  lemma DeletionFinalizesTwice(s: State, v: nat, w: nat, p: int) returns (s': State)
    requires Reachable(s) && v != w && WritingInPlace(s, v, p) && s.workers[v].change.Succeeded?
    requires Busy(s, w) && s.workers[w].Failing? && GivesUp(s.workers[w].job, s.workers[w].error)
    requires s.workers[w].job.post == p && HasRow(s.db.rows, s.workers[w].job.At())
    requires OnlyOpen(s, p, {s.workers[v].job.At(), s.workers[w].job.At()})
    ensures Reachable(s') && p in s'.past.claims && s'.past.claims[p].finals == 2
  {
    var k := s.workers[w].job.At();
    HeldIsLive(s, v);
    LiveAccountIsStored(s, s.workers[v].job.At());
    FinalizedAtMostOnce(s, p);
    HeldIsLive(s, w);
    LiveAccountIsStored(s, k);
    RemovalKeepsJobs(s, k.account);
    s' := LateMarkFinalizesAgain(RemoveAccountStep(s, k.account), v, w, p);
  }

  lemma LateMarkFinalizesAgain(s: State, v: nat, w: nat, p: int) returns (s': State)
    requires Reachable(s) && v != w && Writing(s, v, p) && s.workers[v].change.Succeeded?
    requires p in s.past.claims && p in s.db.posts && OnlyOpen(s, p, {s.workers[v].job.At()})
    requires Busy(s, w) && s.workers[w].Failing? && GivesUp(s.workers[w].job, s.workers[w].error)
    requires s.workers[w].job.post == p && !HasRow(s.db.rows, s.workers[w].job.At())
    ensures Reachable(s') && p in s'.past.claims && s'.past.claims[p].finals == s.past.claims[p].finals + 2
  {
    LastSuccessPublishes(s, v, p);
    var s2 := CommitStep(CountStep(s, v, s.now), v);
    DeletedRowFinalizesAgain(s2, w);
    s' := CommitStep(CountStep(MarkRowStep(s2, w), w, s2.now), w);
  }

  // ---------- claims and edits ----------

  ghost predicate Rescheduled(form: PostForm) {
    form.status == SCHEDULED && form.scheduleStatus == PENDING && form.accountIds != []
  }

  predicate CanEdit(db: Db, p: int, form: PostForm) {
    p in db.posts && !db.posts[p].deleted && Acceptable(db.catalog, form.accountIds) && Numbered(form.versions)
  }

  /** What an update of the post leaves, whether or not jobs of it are still alive. */
  function Edited(s: State, p: int, form: PostForm): State {
    var d := UpdatePost(s.db, p, form);
    if d.Ok? then s.(db := d.value, past := s.past.Forget(p)) else s
  }

  /** A rescheduled post is claimed with the accounts of the update. */
  lemma EditedIsClaimed(s: State, c: nat, p: int, form: PostForm)
    requires RowsOk(s.db) && CanEdit(s.db, p, form) && Rescheduled(form)
    requires c < |s.schedulers| && s.schedulers[c].Scanning? && s.schedulers[c].todo != [] && s.schedulers[c].todo[0] == p
    ensures UpdatePost(s.db, p, form).Ok?
    ensures var s1 := Edited(s, p, form);
            && p in s1.db.posts
            && s1.db.posts[p] == Post(SCHEDULED, PENDING, form.scheduledAt, form.publishedAt, false)
            && s1.schedulers == s.schedulers && Live(s1) == Live(s) && s1.now == s.now
            && ClaimStep(s1, c) == Running(s1, c, p, Dedup(form.accountIds), s.schedulers[c].todo[1..])
  {
    SaveSucceeds(s.db, p, form);
    ReadBack(s.db, p, form);
    SaveUnfolds(s.db, p, form);
    assert form.accountIds[0] in Dedup(form.accountIds);
  }

  /** A scheduler with a stale list claims a post that was moved to a later time after
      the scan: the claim does not look at the time again. */
  lemma StaleScanClaimsEarly(s: State, c: nat, p: int, form: PostForm)
    requires Reachable(s)
    requires c < |s.schedulers| && s.schedulers[c].Scanning? && s.schedulers[c].todo != [] && s.schedulers[c].todo[0] == p
    requires CanEdit(s.db, p, form) && s.db.posts[p].Claimable()
    requires Rescheduled(form) && form.scheduledAt.Some? && form.scheduledAt.value > s.now
    ensures c < |Edited(s, p, form).schedulers| && Edited(s, p, form).schedulers[c] == s.schedulers[c]
    ensures var s' := ClaimStep(Edited(s, p, form), c);
            && Reachable(s') && IsRunning(s', p) && s'.now == s.now && s'.db.posts[p].scheduledAt == form.scheduledAt
            && s'.schedulers[c] == Pushing(p, Dedup(form.accountIds), s.schedulers[c].todo[1..])
  {
    ReachableInv(s);
    ClaimableIsUnclaimed(s, p);
    EditedIsClaimed(s, c, p, form);
    ReachableStep(s, EditPost(p, form));
    ReachableStep(Edited(s, p, form), ClaimNext(c));
  }

  /** A claim of a post with a live job makes one more job for the same row. */
  lemma ClaimOverLiveJob(s: State, c: nat, k: Key)
    requires RowsOk(s.db) && k.post in s.db.posts && s.db.posts[k.post].Claimable() && HasRow(s.db.rows, k)
    requires c < |s.schedulers| && s.schedulers[c].Scanning?
    requires s.schedulers[c].todo != [] && s.schedulers[c].todo[0] == k.post
    ensures Live(ClaimStep(s, c))[k] == Live(s)[k] + 1
  {
    var accounts := AccountsOf(s.db.rows, s.db.nextRow, k.post);
    AccountsOfIsTheListing(s.db, k.post);
    KeysAre(k.post, accounts, k);
    RunningLive(s, c, k.post, accounts, s.schedulers[c].todo[1..]);
  }

  /** An update that puts a post back to pending, and due, while one of its jobs is still
      alive: the next scan finds the post and its claim makes a second job for the row. */
  lemma EditUnderLiveJobDuplicatesIt(s: State, c: nat, k: Key, form: PostForm, found: seq<int>)
    requires Reachable(s) && k in Live(s) && k.account in form.accountIds
    requires CanEdit(s.db, k.post, form) && Rescheduled(form)
    requires c < |s.schedulers| && s.schedulers[c].Resting? && found != [] && found[0] == k.post
    requires IsScan(Edited(s, k.post, form).db.posts, s.now, found)
    ensures Edited(s, k.post, form) == s.(db := Edited(s, k.post, form).db, past := s.past.Forget(k.post))
    ensures Enabled(Edited(s, k.post, form), Scan(c, found))
    ensures Live(ClaimStep(Next(Edited(s, k.post, form), Scan(c, found)), c))[k] == 2
  {
    var s1 := Edited(s, k.post, form);
    LiveOnce(s, k);
    EditedRows(s, k.post, form);
    var s2 := Next(s1, Scan(c, found));
    assert s2 == s1.(schedulers := s1.schedulers[c := Scanning(found)]);
    SameToPush(s1.schedulers, c, Scanning(found));
    assert Live(s2) == Live(s1) == Live(s);
    ClaimOverLiveJob(s2, c, k);
  }

  lemma EditedRows(s: State, p: int, form: PostForm)
    requires RowsOk(s.db) && CanEdit(s.db, p, form) && Rescheduled(form)
    ensures var s1 := Edited(s, p, form);
            && s1 == s.(db := s1.db, past := s.past.Forget(p)) && RowsOk(s1.db)
            && p in s1.db.posts && s1.db.posts[p].Claimable()
            && forall a :: a in form.accountIds ==> HasRow(s1.db.rows, Key(p, a))
  {
    SaveSucceeds(s.db, p, form);
    SavePostRows(s.db, p, form);
    SavePostKeepsRowsOk(s.db, p, form);
  }

  lemma LiveOnce(s: State, k: Key)
    requires Reachable(s) && k in Live(s)
    ensures Live(s)[k] == 1 && RowsOk(s.db)
  {
    ReachableInv(s);
  }

  // ---------- commits whose answer is lost ----------

  /** The commit took effect, but the worker is told that it failed. */
  function UnheardCommit(s: State, w: nat): State
    requires Busy(s, w) && s.workers[w].Counted?
  {
    CommitStep(s, w).(workers := s.workers[w := Failing(s.workers[w].job, Transient)])
  }

  ghost predicate PostedAndFailed(rows: map<int, Row>, k: Key) {
    exists i :: i in rows && rows[i].At() == k && rows[i].providerPostId.Some? && rows[i].errors.Some?
  }

  /** If a commit that took effect could be reported as failed, then on the last attempt a
      published post would be failed again and its row would hold an id and an error: what
      is proved of the step system depends on failed commits not having been applied. */
  lemma UnheardCommitUndoesPublishing(s: State, w: nat, p: int)
    requires Reachable(s) && DecidingInPlace(s, w, p) && s.workers[w].job.attempt == MAX_ATTEMPTS
    requires s.workers[w].change.Succeeded? && s.workers[w].verdict == AllPublished
    ensures var s1 := UnheardCommit(s, w);
            && IsPublished(s1, p) && GivesUp(s1.workers[w].job, s1.workers[w].error)
            && var s' := CommitStep(CountStep(MarkRowStep(s1, w), w, s1.now), w);
               IsFailed(s', p) && s'.db.posts[p].publishedAt.Some? && PostedAndFailed(s'.db.rows, s.workers[w].job.At())
  {
    ReachableInv(s);
    HeldIsLive(s, w);
    OpenRowMeansRunning(s, s.workers[w].job.At());
    PublishedIsNeverPremature(s, p);
    UnheardCommitPublishes(s, w, p);
    MarkOfPostedRow(UnheardCommit(s, w), w, p);
  }

  lemma UnheardCommitPublishes(s: State, w: nat, p: int)
    requires DecidingInPlace(s, w, p) && p in s.db.posts && s.workers[w].verdict == AllPublished
    requires AllPosted(Changed(s.db.rows, s.workers[w].job.At(), s.workers[w].change), p)
    ensures var s1 := UnheardCommit(s, w);
            && |s1.workers| == |s.workers| && s1.workers[w] == Failing(s.workers[w].job, Transient)
            && IsPublished(s1, p) && s1.db.posts[p].publishedAt.Some?
            && AllPosted(s1.db.rows, p) && HasRow(s1.db.rows, s.workers[w].job.At())
  {
    SameKeys(s.db.rows, s.workers[w].job.At(), s.workers[w].change, s.workers[w].job.At());
  }

  lemma MarkOfPostedRow(s: State, w: nat, p: int)
    requires Busy(s, w) && s.workers[w].Failing? && s.workers[w].job.post == p
    requires IsPublished(s, p) && s.db.posts[p].publishedAt.Some? && AllPosted(s.db.rows, p)
    requires HasRow(s.db.rows, s.workers[w].job.At())
    ensures var s' := CommitStep(CountStep(MarkRowStep(s, w), w, s.now), w);
            IsFailed(s', p) && s'.db.posts[p].publishedAt.Some? && PostedAndFailed(s'.db.rows, s.workers[w].job.At())
  {
    var k, change := s.workers[w].job.At(), Errored(s.workers[w].error);
    var view := Changed(s.db.rows, k, change);
    var i :| i in s.db.rows && s.db.rows[i].At() == k;
    assert view[i].providerPostId.Some? && view[i].errors.Some? && view[i].At() == k;
    JudgeMeaning(view, p);
    var s1 := MarkRowStep(s, w);
    assert s1.workers[w] == Wrote(s.workers[w].job, change) && s1.db == s.db;
    var s2 := CountStep(s1, w, s.now);
    assert s2.workers[w].verdict == SomeFailed && s2.workers[w].change == change && s2.db == s.db;
  }

  // ---------- an attempt from pop to acceptance ----------

  /** Nothing but worker w's phase and the history of its job differ. */
  ghost predicate OnlyMoved(s: State, s': State, w: nat, phase: Phase) {
    && w < |s.workers| && s'.workers == s.workers[w := phase]
    && s'.db == s.db && s'.queue == s.queue && s'.schedulers == s.schedulers && s'.now == s.now
    && s'.past.claims == s.past.claims && s'.past.lost == s.past.lost
  }

  /** The checks pass for this job, and the provider may answer its request with this id. */
  ghost predicate Publishable(db: Db, job: Job, id: string) {
    var account := FetchAccount(db, job.At());
    account.Some? && PrepareJob(db, job, account.value).Ok? && Possible(PrepareJob(db, job, account.value).value, Accepted(id))
  }

  /** A popped job whose checks pass can be accepted by the provider. */
  lemma AttemptIsAccepted(s: State, w: nat, id: string) returns (s': State)
    requires Reachable(s) && Busy(s, w) && s.workers[w].Popped? && Publishable(s.db, s.workers[w].job, id)
    ensures Reachable(s') && OnlyMoved(s, s', w, Sent(s.workers[w].job, id))
    ensures var k := s.workers[w].job.At();
            s'.past.Of(k).accepted == s.past.Of(k).accepted + 1 && s'.past.Of(k).calls == s.past.Of(k).calls + 1
  {
    var job := s.workers[w].job;
    var account := FetchAccount(s.db, job.At()).value;
    var s1 := ReadAccountStep(s, w);
    ReachableStep(s, ReadAccount(w));
    assert s1.workers[w] == AccountRead(job, account) && s1.db == s.db;
    s' := ReadAccountIsAccepted(s1, w, id);
  }

  lemma ReadAccountIsAccepted(s: State, w: nat, id: string) returns (s': State)
    requires Reachable(s) && Busy(s, w) && s.workers[w].AccountRead? && s.workers[w].account.authorized
    requires var request := PrepareJob(s.db, s.workers[w].job, s.workers[w].account);
             request.Ok? && Possible(request.value, Accepted(id))
    ensures Reachable(s') && OnlyMoved(s, s', w, Sent(s.workers[w].job, id))
    ensures var k := s.workers[w].job.At();
            s'.past.Of(k).accepted == s.past.Of(k).accepted + 1 && s'.past.Of(k).calls == s.past.Of(k).calls + 1
  {
    var s1 := ReadServiceStep(s, w);
    ReachableStep(s, ReadService(w));
    s' := ServiceReadIsAccepted(s1, w, id);
  }

  lemma ServiceReadIsAccepted(s: State, w: nat, id: string) returns (s': State)
    requires Reachable(s) && Busy(s, w) && s.workers[w].ServiceRead?
    requires var phase := s.workers[w];
             var text := PublishText(s.db.versions, s.db.nextVersion, phase.job.post, phase.job.account);
             text.Ok? && var request := Dispatch(Index(DEFAULT_CONNECTORS), phase.account, phase.config, text.value);
             request.Ok? && Possible(request.value, Accepted(id))
    ensures Reachable(s') && OnlyMoved(s, s', w, Sent(s.workers[w].job, id))
    ensures var k := s.workers[w].job.At();
            s'.past.Of(k).accepted == s.past.Of(k).accepted + 1 && s'.past.Of(k).calls == s.past.Of(k).calls + 1
  {
    ReachableStep(s, ReadText(w));
    s' := RequestIsAccepted(ReadTextStep(s, w), w, id);
  }

  lemma RequestIsAccepted(s: State, w: nat, id: string) returns (s': State)
    requires Reachable(s) && Busy(s, w) && s.workers[w].TextRead?
    requires Prepared(s.workers[w]).Ok? && Possible(Prepared(s.workers[w]).value, Accepted(id))
    ensures Reachable(s') && OnlyMoved(s, s', w, Sent(s.workers[w].job, id))
    ensures var k := s.workers[w].job.At();
            s'.past.Of(k).accepted == s.past.Of(k).accepted + 1 && s'.past.Of(k).calls == s.past.Of(k).calls + 1
  {
    s' := CallStep(s, w, Accepted(id));
    ReachableStep(s, Call(w, Accepted(id)));
  }

  /** A worker can get at the job that was pushed last, if only by losing all others. */
  lemma {:induction false} LastJobIsPopped(s: State, w: nat, job: Job) returns (s': State)
    requires Reachable(s) && w < |s.workers| && s.workers[w].Idle? && s.queue != [] && s.queue[0] == job
    ensures Reachable(s') && s'.workers == s.workers[w := Popped(job)] && s'.queue == [] && s'.db == s.db
    ensures forall k :: s'.past.Of(k).accepted == s.past.Of(k).accepted
    decreases |s.queue|
  {
    var s1 := PopStep(s, w);
    PopReaches(s, w);
    if |s.queue| == 1 {
      s' := s1;
    } else {
      var s2 := Dropped(s1, w, true, Tallied(s1, w));
      ReachableStep(s1, Crash(w));
      assert s2.workers == s.workers && s2.queue == s.queue[..|s.queue| - 1];
      s' := LastJobIsPopped(s2, w, job);
    }
  }

  lemma FailedCommitIsRequeued(s: State, w: nat) returns (s': State)
    requires Reachable(s) && Busy(s, w) && s.workers[w].Sent? && s.workers[w].job.attempt < MAX_ATTEMPTS
    ensures var job := s.workers[w].job; s'.queue == [job.(attempt := job.attempt + 1)] + s.queue
    ensures Reachable(s') && s'.workers == s.workers[w := Idle] && s'.db == s.db
    ensures s'.past.Of(s.workers[w].job.At()).accepted == s.past.Of(s.workers[w].job.At()).accepted
  {
    SentFaultReaches(s, w);
    s' := RequeueStep(FaultStep(s, w), w, true);
    RequeueReaches(FaultStep(s, w), w);
  }

  lemma SentFaultReaches(s: State, w: nat)
    requires Reachable(s) && Busy(s, w) && s.workers[w].Sent?
    ensures var s' := FaultStep(s, w);
            && Reachable(s') && s'.workers == s.workers[w := Failing(s.workers[w].job, Transient)]
            && s'.db == s.db && s'.queue == s.queue
            && s'.past.Of(s.workers[w].job.At()).accepted == s.past.Of(s.workers[w].job.At()).accepted
  {
    ReachableStep(s, Fault(w));
  }

  lemma RequeueReaches(s: State, w: nat)
    requires Reachable(s) && Busy(s, w) && s.workers[w].Failing? && !GivesUp(s.workers[w].job, s.workers[w].error)
    ensures Reachable(RequeueStep(s, w, true))
  {
    ReachableStep(s, Requeue(w, true));
  }

  /** After a failed transaction the job can be back in the same worker's hands. */
  lemma FailedCommitIsRetried(s: State, w: nat) returns (s': State)
    requires Reachable(s) && Busy(s, w) && s.workers[w].Sent? && s.workers[w].job.attempt < MAX_ATTEMPTS
    ensures var job := s.workers[w].job; s'.workers == s.workers[w := Popped(job.(attempt := job.attempt + 1))]
    ensures Reachable(s') && s'.db == s.db && s'.queue == []
    ensures s'.past.Of(s.workers[w].job.At()).accepted == s.past.Of(s.workers[w].job.At()).accepted
  {
    var s1 := FailedCommitIsRequeued(s, w);
    s' := LastJobIsPopped(s1, w, s.workers[w].job.(attempt := s.workers[w].job.attempt + 1));
  }

  /** An accepted post whose transaction then fails is retried and accepted again: the
      bound on acceptances is met by a real run, and retries do post twice. */
  lemma FailedCommitPostsTwice(s: State, w: nat, id: string) returns (s': State)
    requires Reachable(s) && Busy(s, w) && s.workers[w].Sent? && s.workers[w].job.attempt < MAX_ATTEMPTS
    requires Publishable(s.db, s.workers[w].job, id)
    ensures Reachable(s') && Busy(s', w) && s'.workers[w].Sent? && s'.db == s.db
    ensures var k := s.workers[w].job.At();
            s'.workers[w].job.At() == k && s'.past.Of(k).accepted == s.past.Of(k).accepted + 1
  {
    var s1 := FailedCommitIsRetried(s, w);
    s' := AttemptIsAccepted(s1, w, id);
  }
}
