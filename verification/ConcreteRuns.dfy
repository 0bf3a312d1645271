/** Runs from empty tables for the other ways in which the pipeline falls short. They go
    on from the claim of one post with two accounts, at the time it was due. */
module ConcreteRuns {
  import opened Base
  import opened Providers
  import opened ServiceRules
  import opened Tables
  import opened Accounts
  import opened Registry
  import opened Posts
  import opened Pipeline
  import opened Tokens
  import opened Invariant
  import opened CommitSteps
  import opened PostStates
  import opened Safety
  import opened Punctuality
  import opened Reach
  import opened Races
  import opened StrandedRun

  // ---------- a claim before its time ----------

  /** The post is rescheduled between scan and claim, and claimed all the same. */
  lemma EarlyClaimIsReachable() returns (s: State)
    ensures Reachable(s) && IsRunning(s, 1) && !OnTime(s, 1)
  {
    var s0 := Scanned();
    s := EarlyClaim(s0, FORM.(scheduledAt := Some(1)));
  }

  lemma EarlyClaim(s: State, form: PostForm) returns (s': State)
    requires Reachable(s) && s.schedulers == [Scanning([1])] && CanEdit(s.db, 1, form) && s.db.posts[1].Claimable()
    requires Rescheduled(form) && form.scheduledAt.Some? && form.scheduledAt.value > s.now
    ensures Reachable(s') && IsRunning(s', 1) && !OnTime(s', 1)
  {
    StaleScanClaimsEarly(s, 0, 1, form);
    s' := ClaimStep(Edited(s, 1, form), 0);
  }

  // ---------- one of two rows settled ----------

  /** The first row is posted; worker 1 holds the only job left, for the second one. */
  ghost predicate HalfSettled(s: State) {
    && s.queue == [] && |s.workers| == 2 && s.workers[1] == Popped(Job(1, 2, 1))
    && 1 in s.past.claims && IsRunning(s, 1) && NothingLost(s, 1)
    && OnlyLeft(s, 1, {Key(1, 2)}) && OnlyOpen(s, 1, {Key(1, 2)})
  }

  lemma FirstWritten() returns (s: State)
    ensures Reachable(s) && OnePostIn(s.db) && s.past.claims == map[1 := CLAIM] && s.past.lost == {} && s.queue == []
    ensures s.workers == [Wrote(Job(1, 1, 1), Succeeded("id")), Popped(Job(1, 2, 1))]
    ensures OnlyLeft(s, 1, {Key(1, 1), Key(1, 2)})
  {
    var s0 := BothPopped();
    s := Written(s0, 0, 1);
    NoOtherJobs(s);
  }

  lemma FirstCounted() returns (s: State)
    ensures Reachable(s) && OnePostIn(s.db) && 1 in s.past.claims && s.past.lost == {} && s.queue == []
    ensures |s.workers| == 2 && s.workers[1] == Popped(Job(1, 2, 1))
    ensures Deciding(s, 0, 1) && s.workers[0].job == Job(1, 1, 1) && s.workers[0].change == Succeeded("id")
    ensures s.workers[0].verdict == Unfinished && IsRunning(s, 1) && OnlyLeft(s, 1, {Key(1, 1), Key(1, 2)})
  {
    var s0 := FirstWritten();
    ReachableInv(s0);
    HeldIsLive(s0, 1);
    CountSeesPendingRow(s0, 0, Key(1, 2));
    HeldIsLive(s0, 0);
    LiveAccountIsStored(s0, Key(1, 1));
    CountReaches(s0, 0, s0.now);
    s := CountStep(s0, 0, s0.now);
    MovedLive(s0, 0, CountedPhase(s0, s0.workers[0], s0.now), Tallied(s0, 0));
  }

  /** Committing the first row leaves the second one as the only open row. */
  lemma SecondIsOpen(s: State)
    requires OnePostIn(s.db) && Deciding(s, 0, 1)
    requires s.workers[0].job == Job(1, 1, 1) && s.workers[0].change == Succeeded("id")
    ensures OnlyOpen(CommitStep(s, 0), 1, {Key(1, 2)}) && HasRow(CommitStep(s, 0).db.rows, Key(1, 2))
  {
    SameKeys(s.db.rows, Key(1, 1), Succeeded("id"), Key(1, 2));
  }

  lemma FirstCommitted(s: State)
    requires Deciding(s, 0, 1) && s.queue == [] && |s.workers| == 2 && s.workers[1] == Popped(Job(1, 2, 1))
    requires s.workers[0].change == Succeeded("id")
    ensures var s' := CommitStep(s, 0);
            && s'.queue == [] && |s'.workers| == 2 && s'.workers[1] == Popped(Job(1, 2, 1))
            && s'.db.catalog == s.db.catalog && s'.db.versions == s.db.versions && s'.db.nextVersion == s.db.nextVersion
  {}

  lemma SettleFirst(s: State) returns (s': State)
    requires Reachable(s) && OnePostIn(s.db) && 1 in s.past.claims && NothingLost(s, 1) && s.queue == []
    requires |s.workers| == 2 && s.workers[1] == Popped(Job(1, 2, 1))
    requires Deciding(s, 0, 1) && s.workers[0].job == Job(1, 1, 1)
    requires s.workers[0].change == Succeeded("id") && s.workers[0].verdict == Unfinished
    requires IsRunning(s, 1) && OnlyLeft(s, 1, {Key(1, 1), Key(1, 2)})
    ensures Reachable(s') && HalfSettled(s') && ReadyFor(s'.db, 2)
  {
    FirstLeaves(s);
    SecondIsReady(s);
    s' := CommitStep(s, 0);
  }

  lemma FirstLeaves(s: State)
    requires Reachable(s) && 1 in s.past.claims && NothingLost(s, 1) && |s.workers| == 2 && Deciding(s, 0, 1)
    requires s.workers[0].job == Job(1, 1, 1) && s.workers[0].verdict == Unfinished
    requires IsRunning(s, 1) && OnlyLeft(s, 1, {Key(1, 1), Key(1, 2)})
    ensures var s' := CommitStep(s, 0);
            Reachable(s') && 1 in s'.past.claims && IsRunning(s', 1) && NothingLost(s', 1) && OnlyLeft(s', 1, {Key(1, 2)})
  {
    BlindCommit(s, 0, 1, {Key(1, 1), Key(1, 2)});
    assert {Key(1, 1), Key(1, 2)} - {Key(1, 1)} == {Key(1, 2)};
  }

  lemma SecondIsReady(s: State)
    requires OnePostIn(s.db) && s.queue == [] && |s.workers| == 2 && s.workers[1] == Popped(Job(1, 2, 1))
    requires Deciding(s, 0, 1) && s.workers[0].job == Job(1, 1, 1) && s.workers[0].change == Succeeded("id")
    ensures var s' := CommitStep(s, 0);
            && s'.queue == [] && |s'.workers| == 2 && s'.workers[1] == Popped(Job(1, 2, 1))
            && OnlyOpen(s', 1, {Key(1, 2)}) && ReadyFor(s'.db, 2)
  {
    SecondIsOpen(s);
    FirstCommitted(s);
  }

  lemma FirstSettled() returns (s: State)
    ensures Reachable(s) && HalfSettled(s) && ReadyFor(s.db, 2)
  {
    var s0 := FirstCounted();
    s := SettleFirst(s0);
  }

  // ---------- the account of the last job is deleted ----------

  lemma DeletionStrandsReachably() returns (s: State)
    ensures Reachable(s) && Stranded(s, 1)
  {
    var s0 := FirstSettled();
    DeletedAccountStrandsPost(s0, 1);
    s := ReadAccountStep(RemoveAccountStep(s0, 2), 1);
  }

  const REVOKED := StoredAccount("b").(authorized := false)

  /** Someone takes the authorization of the second account away. */
  lemma SecondIsRevoked(c: Catalog)
    requires c == CATALOG
    ensures Perform(c, ChangeAccount(2, NewAccount("b").(authorized := false))) == c.(accounts := c.accounts[2 := REVOKED])
  {
    LowerIsId("mastodon");
    assert StoredAccount("a").providerId != "b";
    assert !IdentityTaken(c.accounts, "mastodon", "b", 2);
    assert UpdateAccount(c, 2, NewAccount("b").(authorized := false)).Ok?;
  }

  /** So the second job fails for good. */
  lemma SecondFails(s: State) returns (s': State)
    requires Reachable(s) && s.db.catalog == CATALOG && |s.workers| == 2 && s.workers[1] == Popped(Job(1, 2, 1))
    requires HasRow(s.db.rows, Key(1, 2))
    ensures Reachable(s') && s'.db == s.db.(catalog := s'.db.catalog) && s'.past.claims == s.past.claims
    ensures s'.workers == s.workers[1 := Failing(Job(1, 2, 1), Error.Unauthorized)]
  {
    var op := ChangeAccount(2, NewAccount("b").(authorized := false));
    SecondIsRevoked(s.db.catalog);
    var s1 := Next(s, EditCatalog(op));
    ReachableStep(s, EditCatalog(op));
    assert FetchAccount(s1.db, Key(1, 2)) == Some(REVOKED);
    ReachableStep(s1, ReadAccount(1));
    s' := ReadAccountStep(s1, 1);
  }

  /** The second account fails, is deleted, and the post reads as published. */
  lemma HiddenFailureIsReachable() returns (s: State)
    ensures Reachable(s) && IsPublished(s, 1) && !HasRow(s.db.rows, Key(1, 2)) && !SomeError(s, 1)
  {
    var s0 := FirstSettled();
    var s1 := SecondFails(s0);
    DeletionHidesFailure(s1, 1);
    s := CommitStep(CountStep(MarkRowStep(RemoveAccountStep(s1, 2), 1), 1, s1.now), 1);
  }

  /** The second account's error is recorded while the first one is still being written. */
  lemma SecondRecorded() returns (s: State)
    ensures Reachable(s) && WritingInPlace(s, 0, 1) && s.workers[0].job == Job(1, 1, 1) && s.workers[0].change.Succeeded?
    ensures HoldsError(s.db.rows, Key(1, 2)) && OnlyOpen(s, 1, {Key(1, 2), Key(1, 1)})
  {
    var s0 := SecondFailed();
    s := RecordSecond(s0);
    RecordedRows(s0.db.rows, s.db.rows);
  }

  /** The first row is written, uncommitted, and the second job has failed for good. */
  lemma SecondFailed() returns (s: State)
    ensures Reachable(s) && Key(1, 1) in Live(s) && OnlyRows(s.db.rows)
    ensures s.workers == [Wrote(Job(1, 1, 1), Succeeded("id")), Failing(Job(1, 2, 1), Error.Unauthorized)]
  {
    var s0 := FirstWritten();
    s := SecondFails(s0);
    HeldIsLive(s, 0);
  }

  ghost predicate OnlyRows(rows: map<int, Row>) {
    && HasRow(rows, Key(1, 1)) && HasRow(rows, Key(1, 2))
    && forall i :: i in rows && rows[i].post == 1 ==> rows[i].At() == Key(1, 1) || rows[i].At() == Key(1, 2)
  }

  lemma RecordSecond(s: State) returns (s': State)
    requires Reachable(s) && |s.workers| == 2 && s.workers[1] == Failing(Job(1, 2, 1), Error.Unauthorized)
    requires Key(1, 1) in Live(s) && HasRow(s.db.rows, Key(1, 1))
    ensures Reachable(s') && s'.workers == s.workers[1 := Idle]
    ensures s'.db.rows == Changed(s.db.rows, Key(1, 2), Errored(Error.Unauthorized))
  {
    EarlyMarkDecidesNothing(s, 1, Key(1, 1));
    s' := CommitStep(CountStep(MarkRowStep(s, 1), 1, s.now), 1);
  }

  lemma RecordedRows(before: map<int, Row>, rows: map<int, Row>)
    requires OnlyRows(before) && rows == Changed(before, Key(1, 2), Errored(Error.Unauthorized))
    ensures OnlyRows(rows) && HoldsError(rows, Key(1, 2))
  {
    SameKeys(before, Key(1, 2), Errored(Error.Unauthorized), Key(1, 1));
    var i :| i in before && before[i].At() == Key(1, 2);
    assert rows[i].errors.Some? && rows[i].At() == Key(1, 2);
  }

  /** The second account fails and this is recorded; it is deleted before the first one is
      settled, and the post reads as published. */
  lemma ErasedFailureIsReachable() returns (s: State)
    ensures Reachable(s) && IsPublished(s, 1) && 1 in s.past.claims && 2 in s.past.claims[1].failed
  {
    var s0 := SecondRecorded();
    DeletionErasesFailure(s0, 2, 0, 1);
    s := CommitStep(CountStep(RemoveAccountStep(s0, 2), 0, s0.now), 0);
  }

  /** The state in which a mark that will find no row is about to publish the post. */
  lemma MarkWithoutRowIsReachable() returns (s: State)
    ensures Reachable(s) && Busy(s, 1) && s.workers[1] == Failing(Job(1, 2, 1), Error.Unauthorized)
    ensures !HasRow(s.db.rows, Key(1, 2)) && AllPosted(s.db.rows, 1) && IsRunning(s, 1) && 1 in s.past.claims
  {
    var s0 := FirstSettled();
    var s1 := SecondFails(s0);
    ReachableInv(s1);
    HeldIsLive(s1, 1);
    LiveAccountIsStored(s1, Key(1, 2));
    RemovalKeepsJobs(s1, 2);
    s := RemoveAccountStep(s1, 2);
  }

  /** One claim with two verdicts. */
  lemma TwoVerdictsAreReachable() returns (s: State)
    ensures Reachable(s) && 1 in s.past.claims && s.past.claims[1].finals == 2
  {
    var s0 := SecondFailed();
    s := DeletionFinalizesTwice(s0, 0, 1, 1);
  }

  // ---------- an edit under live jobs ----------

  lemma PushedAndResting() returns (s: State)
    ensures Reachable(s) && OnePostIn(s.db) && IsRunning(s, 1) && s.now == 0 && !s.db.posts[1].deleted
    ensures s.schedulers == [Resting] && Key(1, 1) in Live(s)
  {
    var s0 := BothQueued();
    ReachableStep(s0, EndScan(0));
    s := Next(s0, EndScan(0));
    assert s.queue[1].At() == Key(1, 1);
    QueuedHas(s.queue, 1);
  }

  /** One scheduler: it has claimed and pushed, the post is rescheduled, and its next scan
      and claim give the first account a second job. */
  lemma DuplicateJobFromReachable() returns (s: State, form: PostForm, s': State)
    ensures Reachable(s) && s.schedulers == [Resting] && Live(s)[Key(1, 1)] == 1
    ensures Enabled(Edited(s, 1, form), Scan(0, [1])) && s' == ClaimStep(Next(Edited(s, 1, form), Scan(0, [1])), 0)
    ensures Live(s')[Key(1, 1)] == 2
  {
    s := PushedAndResting();
    LiveOnce(s, Key(1, 1));
    form := FORM;
    DueAgain(s, form);
    EditUnderLiveJobDuplicatesIt(s, 0, Key(1, 1), form, [1]);
    s' := ClaimStep(Next(Edited(s, 1, form), Scan(0, [1])), 0);
  }

  lemma DueAgain(s: State, form: PostForm)
    requires RowsOk(s.db) && (forall p :: p in s.db.posts ==> p == 1) && CanEdit(s.db, 1, form) && Rescheduled(form)
    requires form.scheduledAt.Some? && form.scheduledAt.value <= s.now
    ensures IsScan(Edited(s, 1, form).db.posts, s.now, [1])
  {
    SaveSucceeds(s.db, 1, form);
    SavePostRows(s.db, 1, form);
  }

  // ---------- a commit whose answer is lost ----------

  lemma LastAttemptWritten() returns (s: State)
    ensures Reachable(s) && |s.workers| == 2 && s.workers[1] == Wrote(Job(1, 2, 3), Succeeded("id"))
    ensures HasRow(s.db.rows, Key(1, 2)) && OnlyOpen(s, 1, {Key(1, 2)})
  {
    var s0 := FirstSettled();
    var s1 := ThirdAttempt(s0);
    ChecksPass(s1.db, 2, 3);
    var s2 := AttemptIsAccepted(s1, 1, "id");
    ReachableStep(s2, WriteRow(1));
    s := WriteRowStep(s2, 1);
  }

  /** The third attempt of the last job is about to commit that the post is published. */
  lemma LastAttemptDecides() returns (s: State)
    ensures Reachable(s) && DecidingInPlace(s, 1, 1) && s.workers[1].job.attempt == MAX_ATTEMPTS
    ensures s.workers[1].change.Succeeded? && s.workers[1].verdict == AllPublished
  {
    var s0 := LastAttemptWritten();
    JudgeMeaning(Changed(s0.db.rows, Key(1, 2), Succeeded("id")), 1);
    CountReaches(s0, 1, s0.now);
    s := CountStep(s0, 1, s0.now);
  }

  lemma ThirdAttempt(s: State) returns (s': State)
    requires Reachable(s) && |s.workers| == 2 && s.workers[1] == Popped(Job(1, 2, 1)) && ReadyFor(s.db, 2)
    ensures Reachable(s') && s'.db == s.db && |s'.workers| == 2 && s'.workers[1] == Popped(Job(1, 2, 3))
  {
    ChecksPass(s.db, 2, 1);
    ChecksPass(s.db, 2, 2);
    var s1 := AttemptIsAccepted(s, 1, "id");
    var s2 := FailedCommitIsRetried(s1, 1);
    var s3 := AttemptIsAccepted(s2, 1, "id");
    s' := FailedCommitIsRetried(s3, 1);
  }

  /** From there an unheard commit would fail a published post. */
  lemma UnheardCommitAtRealState() returns (s: State)
    ensures Reachable(s) && DecidingInPlace(s, 1, 1)
    ensures var s1 := UnheardCommit(s, 1);
            && IsPublished(s1, 1) && s1.workers[1].Failing?
            && IsFailed(CommitStep(CountStep(MarkRowStep(s1, 1), 1, s1.now), 1), 1)
  {
    s := LastAttemptDecides();
    UnheardCommitUndoesPublishing(s, 1, 1);
  }
}
