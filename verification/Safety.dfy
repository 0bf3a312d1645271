/** What every run of the pipeline guarantees, whatever the interleaving of schedulers,
    workers, API writes, failed statements, lost pushes and crashes. A commit that fails is
    taken as not applied; Races.UnheardCommitUndoesPublishing shows what depends on that. */
module Safety {
  import opened Base
  import opened Providers
  import opened Tables
  import opened Pipeline
  import opened Tokens
  import opened Invariant
  import opened WorkerSteps
  import opened SchedulerSteps
  import opened Reach
  import opened PostStates

  // ---------- jobs are conserved ----------

  /** Every row of a claimed post is in exactly one situation: one job for it is live, its
      job was lost, or it is settled; and it never holds both a provider id and an error. */
  lemma JobsAreConserved(s: State, i: int)
    requires Reachable(s) && i in s.db.rows && s.db.rows[i].post in s.past.claims
    ensures var row := s.db.rows[i];
            && Live(s)[row.At()] + (if row.At() in s.past.lost then 1 else 0) + (if row.Pending() then 0 else 1) == 1
            && (row.providerPostId.None? || row.errors.None?)
  {
    ReachableInv(s);
    assert RowOk(s.db.rows[i], s.past.claims, s.past.lost, Live(s));
    assert Live(s)[s.db.rows[i].At()] <= 1;
  }

  // ---------- publishing is never premature ----------

  /** Whenever a claimed post reads as published, every one of its rows carries a provider
      id and no error; and no settlement about to commit would say so too early. */
  lemma PublishedIsNeverPremature(s: State, p: int)
    requires Reachable(s) && p in s.past.claims
    ensures IsPublished(s, p) ==> AllPosted(s.db.rows, p)
    ensures forall w: nat :: Deciding(s, w, p) && s.workers[w].verdict == AllPublished ==>
              AllPosted(Changed(s.db.rows, s.workers[w].job.At(), s.workers[w].change), p)
  {
    ReachableInv(s);
    ClaimedPostOk(s, p);
    forall w: nat | Deciding(s, w, p) && s.workers[w].verdict == AllPublished
      ensures AllPosted(Changed(s.db.rows, s.workers[w].job.At(), s.workers[w].change), p)
    {
      assert CountOk(s.workers[w], s.db.rows, s.past.claims[p]);
    }
  }

  // ---------- what a drained post looks like ----------

  /** A lost job of the post whose row is still there. */
  ghost predicate RowLost(s: State, p: int) {
    exists k :: k in s.past.lost && k.post == p && HasRow(s.db.rows, k)
  }

  /** The exact outcome of every claim, whatever was lost, overtaken or deleted. A post whose
      jobs are all gone is left running exactly when a lost job left a row behind, or when
      the last change to its rows did not look at what it left: a settlement that was
      overtaken between its count and its commit, or the deletion of an open row. */
  lemma DrainedRunsOnExactly(s: State, p: int)
    requires Reachable(s) && p in s.past.claims && Quiet(s, p)
    ensures IsRunning(s, p) <==> RowLost(s, p) || s.past.claims[p].late
  {
    ReachableInv(s);
    ClaimedPostOk(s, p);
    if IsRunning(s, p) && !s.past.claims[p].late {
      RunningHasLostRow(s, p);
    }
    if RowLost(s, p) {
      var k :| k in s.past.lost && k.post == p && HasRow(s.db.rows, k);
      OpenRowMeansRunning(s, k);
    }
  }

  lemma RunningHasLostRow(s: State, p: int)
    requires Inv(s) && p in s.past.claims && Quiet(s, p) && Judge(s.db.rows, p) == Unfinished
    ensures RowLost(s, p)
  {
    JudgeMeaning(s.db.rows, p);
    var i :| i in s.db.rows && s.db.rows[i].post == p && s.db.rows[i].Pending();
    assert RowOk(s.db.rows[i], s.past.claims, s.past.lost, Live(s));
    assert HasRow(s.db.rows, s.db.rows[i].At());
  }

  /** Once complete, a post is failed exactly when the error of some account was committed
      whose row was still there at the count that decided: an error goes unnoticed exactly
      when the row was deleted before that count. */
  lemma UnnoticedExactlyWhenDeleted(s: State, p: int)
    requires Reachable(s) && p in s.past.claims && !IsRunning(s, p)
    ensures IsFailed(s, p) <==> exists a :: a in s.past.claims[p].failed && a !in s.past.claims[p].goneThen
    ensures IsPublished(s, p) <==> forall a :: a in s.past.claims[p].failed ==> a in s.past.claims[p].goneThen
  {
    ReachableInv(s);
    ClaimedPostOk(s, p);
    SubsetMeaning(s.past.claims[p].failed, s.past.claims[p].goneThen);
  }

  lemma SubsetMeaning(xs: set<int>, ys: set<int>)
    ensures xs <= ys <==> !exists x :: x in xs && x !in ys
  {
    if |xs - ys| > 0 {
      var x := Pick(xs - ys);
      assert x in xs;
    } else {
      forall x | x in xs ensures x in ys {
        assert x !in xs - ys;
      }
    }
  }

  /** While no row of the post was deleted, the accounts whose error was committed are those
      whose row shows one, and none of them goes unnoticed. */
  lemma IntactErrors(s: State, p: int)
    requires Reachable(s) && Intact(s, p)
    ensures forall a :: a !in s.past.claims[p].goneThen
    ensures SomeError(s, p) <==> exists a :: a in s.past.claims[p].failed
  {
    ReachableInv(s);
    ClaimedPostOk(s, p);
    HistoryShowsErrors(s.db.rows, p, s.past.claims[p]);
  }

  lemma HistoryShowsErrors(rows: map<int, Row>, p: int, claim: Claim)
    requires HistoryOk(rows, p, claim) && claim.gone == {}
    ensures (exists i :: i in rows && rows[i].post == p && rows[i].errors.Some?) <==> exists a :: a in claim.failed
  {
    if a :| a in claim.failed {
      assert HasRow(rows, Key(p, a));
      var i :| i in rows && rows[i].At() == Key(p, a);
      assert rows[i].errors.Some?;
    }
  }

  lemma IntactLosses(s: State, p: int)
    requires Reachable(s) && Intact(s, p)
    ensures RowLost(s, p) <==> !NothingLost(s, p)
  {
    ReachableInv(s);
    if k :| k in s.past.lost && k.post == p {
      OpenJobMeansRunning(s, k);
    }
  }

  /** With its rows all in place, a drained post is failed, published or still running as its
      rows, its lost jobs and its last settlement say. */
  lemma DrainedOutcome(s: State, p: int)
    requires Reachable(s) && Intact(s, p) && Quiet(s, p)
    ensures IsFailed(s, p) <==> NothingLost(s, p) && !s.past.claims[p].late && SomeError(s, p)
    ensures IsPublished(s, p) <==> NothingLost(s, p) && !s.past.claims[p].late && !SomeError(s, p)
    ensures IsRunning(s, p) <==> !NothingLost(s, p) || s.past.claims[p].late
  {
    DrainedRunsOnExactly(s, p);
    IntactLosses(s, p);
    IntactErrors(s, p);
    if !IsRunning(s, p) {
      UnnoticedExactlyWhenDeleted(s, p);
    }
  }

  /** A lost job whose row is still there keeps its post running, whether or not others are
      still at work and whatever happened to other rows. */
  lemma LostJobStrandsPost(s: State, k: Key)
    requires Reachable(s) && k in s.past.lost && HasRow(s.db.rows, k)
    ensures IsRunning(s, k.post)
  {
    ReachableInv(s);
    OpenRowMeansRunning(s, k);
  }

  // ---------- finalized once ----------

  /** Worker w has counted a settlement of the post and its own row is still there. */
  ghost predicate DecidingInPlace(s: State, w: nat, p: int) {
    Deciding(s, w, p) && HasRow(s.db.rows, s.workers[w].job.At())
  }

  /** A claimed post runs exactly until a worker commits a verdict. A settlement whose own
      row is still there always meets a running post, so with the rows in place there is
      one verdict per claim, and published_at is set exactly by a published one. */
  lemma FinalizedAtMostOnce(s: State, p: int)
    requires Reachable(s) && p in s.past.claims
    ensures s.past.claims[p].finals == 0 <==> IsRunning(s, p)
    ensures forall w: nat :: DecidingInPlace(s, w, p) ==> IsRunning(s, p)
    ensures p in s.db.posts
    ensures Intact(s, p) ==> s.past.claims[p].finals <= 1
    ensures Intact(s, p) && s.past.claims[p].publishedBefore.None? ==>
              (s.db.posts[p].publishedAt.Some? <==> IsPublished(s, p))
  {
    ReachableInv(s);
    ClaimedPostOk(s, p);
    forall w: nat | DecidingInPlace(s, w, p) ensures IsRunning(s, p) {
      HeldIsLive(s, w);
      OpenRowMeansRunning(s, s.workers[w].job.At());
    }
  }

  /** The exact condition for finalizing again: a verdict is the second of its claim, or a
      later one, exactly when it meets a post that is already complete; and it can do so
      only if its own row has been deleted. */
  lemma SecondVerdictNeedsDeletedRow(s: State, w: nat, p: int)
    requires Reachable(s) && Deciding(s, w, p) && s.workers[w].verdict != Unfinished
    ensures p in s.past.claims && p in CommitStep(s, w).past.claims
    ensures CommitStep(s, w).past.claims[p].finals >= 2 <==> !IsRunning(s, p)
    ensures !IsRunning(s, p) ==> !HasRow(s.db.rows, s.workers[w].job.At())
  {
    ReachableInv(s);
    HeldIsLive(s, w);
    FinalizedAtMostOnce(s, p);
    if HasRow(s.db.rows, s.workers[w].job.At()) {
      assert DecidingInPlace(s, w, p);
    }
  }

  /** Of two uncommitted settlements of one post, one holds no verdict as long as the row of
      the other is still there: it saw that row pending. */
  lemma TwoVerdictsCannotMeet(s: State, v: nat, w: nat, p: int)
    requires Reachable(s) && v != w && Deciding(s, v, p) && Deciding(s, w, p)
    ensures HasRow(s.db.rows, s.workers[w].job.At()) ==> s.workers[v].verdict == Unfinished
    ensures HasRow(s.db.rows, s.workers[v].job.At()) ==> s.workers[w].verdict == Unfinished
  {
    ReachableInv(s);
    if HasRow(s.db.rows, s.workers[w].job.At()) {
      OtherRowIsPending(s, v, w, p);
    }
    if HasRow(s.db.rows, s.workers[v].job.At()) {
      OtherRowIsPending(s, w, v, p);
    }
  }

  lemma OtherRowIsPending(s: State, v: nat, w: nat, p: int)
    requires Inv(s) && v != w && Deciding(s, v, p) && DecidingInPlace(s, w, p)
    ensures s.workers[v].verdict == Unfinished
  {
    var phase, k := s.workers[v], s.workers[w].job.At();
    WorkersAreAlone(s, w);
    HeldIsLive(s, w);
    OpenRowMeansRunning(s, k);
    var i :| i in s.db.rows && s.db.rows[i].At() == k && s.db.rows[i].Pending();
    var view := Changed(s.db.rows, phase.job.At(), phase.change);
    assert view[i] == s.db.rows[i];
    JudgeMeaning(view, p);
    assert CountOk(phase, s.db.rows, s.past.claims[p]);
  }

  // ---------- attempts and provider calls ----------

  /** Jobs carry attempts 1 to 3, each popped attempt calls the provider at most once, and a
      claim makes at most three calls for an account. */
  lemma AttemptsAreBounded(s: State)
    requires Reachable(s)
    ensures forall k :: s.past.Of(k).calls <= s.past.Of(k).pops <= 3
    ensures forall i :: 0 <= i < |s.queue| ==>
              1 <= s.queue[i].attempt <= 3 && s.past.Of(s.queue[i].At()).pops == s.queue[i].attempt - 1
    ensures forall w: nat :: Busy(s, w) ==>
              1 <= s.workers[w].job.attempt <= 3 && s.past.Of(s.workers[w].job.At()).pops == s.workers[w].job.attempt
  {
    ReachableInv(s);
    assert forall k :: Bounded(s.past.Of(k));
    assert forall i :: 0 <= i < |s.queue| ==> QueuedOk(s.queue[i], s.past.Of(s.queue[i].At()));
    forall w: nat | Busy(s, w)
      ensures 1 <= s.workers[w].job.attempt <= 3 && s.past.Of(s.workers[w].job.At()).pops == s.workers[w].job.attempt
    {
      assert HeldOk(s.workers[w], s.past.Of(s.workers[w].job.At()));
    }
  }

  /** In one claim the provider accepts an account's post at most once more often than
      attempts ended without recording an acceptance; and a settled row is exact about it:
      with a provider id, every acceptance but one went unrecorded, with an error, all did. */
  lemma AcceptancesAreAccountedFor(s: State, i: int)
    requires Reachable(s)
    ensures forall k :: s.past.Of(k).accepted <= s.past.Of(k).unrecorded + 1
    ensures i in s.db.rows && s.db.rows[i].post in s.past.claims && !s.db.rows[i].Pending() ==>
              s.past.Of(s.db.rows[i].At()).accepted ==
                s.past.Of(s.db.rows[i].At()).unrecorded + (if s.db.rows[i].providerPostId.Some? then 1 else 0)
  {
    ReachableInv(s);
    assert forall k :: Bounded(s.past.Of(k));
    assert RowTallies(s.db.rows, s.past);
  }

  // ---------- claiming ----------

  /** A claim that succeeds takes the post from pending to running for one scheduler alone
      and hands it exactly the post's accounts, each once, in row order; nobody else holds
      a job of the post. A post without accounts becomes failed and complete in one step. */
  lemma ClaimsAreExclusive(s: State, c: nat)
    requires Reachable(s) && Enabled(s, ClaimNext(c))
    requires var p := s.schedulers[c].todo[0]; p in s.db.posts && s.db.posts[p].Claimable()
    ensures var p, s' := s.schedulers[c].todo[0], Next(s, ClaimNext(c));
            var accounts := AccountsOf(s.db.rows, s.db.nextRow, p);
            && Quiet(s, p)
            && Distinct(accounts) && (forall a :: a in accounts <==> HasRow(s.db.rows, Key(p, a)))
            && (accounts != [] ==>
                  s'.schedulers[c] == Pushing(p, accounts, s.schedulers[c].todo[1..])
                  && s'.db.posts[p] == s.db.posts[p].(scheduleStatus := RUNNING))
            && (accounts == [] ==>
                  s'.db.posts[p].status == FAILED && s'.db.posts[p].scheduleStatus == COMPLETE && Live(s') == Live(s))
            && !s'.db.posts[p].Claimable()
  {
    ReachableInv(s);
    var p := s.schedulers[c].todo[0];
    ClaimableIsUnclaimed(s, p);
    AccountsOfIsTheListing(s.db, p);
    SameToPush(s.schedulers, c, Scanning(s.schedulers[c].todo[1..]));
  }

  /** While a scheduler still has jobs of a post to push, no other scheduler has any. */
  lemma OnePusherPerPost(s: State, c: nat, d: nat)
    requires Reachable(s) && c < |s.schedulers| && d < |s.schedulers| && c != d
    requires s.schedulers[c].Pushing? && s.schedulers[d].Pushing? && s.schedulers[c].post == s.schedulers[d].post
    ensures forall a :: !(a in s.schedulers[c].accounts && a in s.schedulers[d].accounts)
  {
    ReachableInv(s);
    forall a ensures !(a in s.schedulers[c].accounts && a in s.schedulers[d].accounts) {
      var k := Key(s.schedulers[c].post, a);
      KeysAre(s.schedulers[c].post, s.schedulers[c].accounts, k);
      KeysAre(s.schedulers[d].post, s.schedulers[d].accounts, k);
      ToPushByUpdate(s.schedulers, c, Resting, k);
      ToPushByHas(s.schedulers[c := Resting], d, k);
    }
  }

  // ---------- unreachable branches ----------

  /** A worker that reaches the call holds trimmed non-empty text and an authorized account
      of a known provider, so the connectors' content checks and the missing-connector error
      never fire: only a token can still be refused. No row ever records "unsupported provider". */
  lemma ContentRefusalsAreUnreachable(s: State, w: nat)
    requires Reachable(s) && Busy(s, w)
    ensures s.workers[w].TextRead? ==>
              && s.workers[w].text != "" && Trimmed(s.workers[w].text)
              && s.workers[w].account.authorized && s.workers[w].account.provider in Index(DEFAULT_CONNECTORS)
              && (Prepared(s.workers[w]).Ok? || Prepared(s.workers[w]).error == Unauthorized)
    ensures s.workers[w].Failing? ==> s.workers[w].error != UnsupportedProvider
    ensures forall i :: i in s.db.rows ==> s.db.rows[i].errors != Some(UnsupportedProvider)
  {
    ReachableInv(s);
    assert PhaseOk(s.workers[w]);
    if s.workers[w].TextRead? {
      OnlyTokenCanBeRefused(s.workers[w]);
      DefaultManagerCoversKnownProviders(s.workers[w].account.provider);
    }
    assert forall i :: i in s.db.rows ==> RowOk(s.db.rows[i], s.past.claims, s.past.lost, Live(s));
  }
}
