/** An account marked unauthorized is not published to again until someone
    re-authorizes it, in any post. */
module Silence {
  import opened Providers
  import opened Tables
  import opened Accounts
  import opened FacebookImport
  import opened Registry
  import opened Pipeline
  import opened Shapes
  import opened Refusals
  import opened Reach
  import opened Invariant
  import opened Termination

  /** The account exists unauthorized, or existed and is gone for good (ids are not reused). */
  ghost predicate Revoked(c: Catalog, a: int) {
    a < c.nextAccount && (a in c.accounts ==> !c.accounts[a].authorized)
  }

  /** The worker has read the account for its job and not called the provider yet. */
  predicate HasRead(phase: Phase, a: int) {
    (phase.AccountRead? || phase.ServiceRead? || phase.TextRead?) && phase.job.account == a
  }

  function ReadWeight(a: int): Phase -> nat {
    phase => if HasRead(phase, a) then 1 else 0
  }

  /** How many workers are between reading the account and calling its provider. */
  function PendingReads(workers: seq<Phase>, a: int): nat {
    Sum(workers, ReadWeight(a))
  }

  predicate CallsFor(s: State, step: Step, a: int) {
    step.Call? && step.w < |s.workers| && s.workers[step.w].TextRead? && s.workers[step.w].job.account == a
  }

  /** No step of the run makes the account authorized again. */
  ghost predicate StaysRevoked(s: State, steps: seq<Step>, a: int)
    requires Runs(s, steps)
    decreases |steps|
  {
    steps == [] ||
    ((steps[0].EditCatalog? ==> Revoked(Next(s, steps[0]).db.catalog, a)) && StaysRevoked(Next(s, steps[0]), steps[1..], a))
  }

  ghost function CallsOf(s: State, steps: seq<Step>, a: int): nat
    requires Runs(s, steps)
    decreases |steps|
  {
    if steps == [] then 0 else (if CallsFor(s, steps[0], a) then 1 else 0) + CallsOf(Next(s, steps[0]), steps[1..], a)
  }

  /** Only an update of that account or an import can re-authorize it. */
  lemma OnlyUpdateOrImportReauthorizes(c: Catalog, op: CatalogOp, a: int)
    requires Revoked(c, a) && !op.ImportAccounts? && !(op.ChangeAccount? && op.accountId == a)
    ensures Revoked(Perform(c, op), a)
  {
    if op.AddAccount? {
      CreationKeepsRevoked(c, op.accountForm, a);
    } else if op.ChangeAccount? {
      UpdateKeepsRevoked(c, op.accountId, op.accountForm, a);
    }
  }

  lemma CreationKeepsRevoked(c: Catalog, form: AccountForm, a: int)
    requires Revoked(c, a)
    ensures Revoked(OrUnchanged(c, CreateAccount(c, form)), a)
  {}

  lemma UpdateKeepsRevoked(c: Catalog, id: int, form: AccountForm, a: int)
    requires Revoked(c, a) && id != a
    ensures Revoked(OrUnchanged(c, UpdateAccount(c, id, form)), a)
  {}

  /** And an import does: the account it leaves for a page with an id and a token is no longer
      revoked, and a worker that reads it for a job goes on to the next read. */
  lemma ImportReauthorizes(s: State, pages: seq<Page>, apiVersion: string, i: nat) returns (a: int)
    requires CatalogOk(s.db.catalog) && LastWithToken(pages, i)
    ensures var s' := Next(s, EditCatalog(ImportAccounts(pages, apiVersion)));
            && a in s'.db.catalog.accounts && s'.db.catalog.accounts[a].provider == "facebook_page"
            && s'.db.catalog.accounts[a].providerId == pages[i].id && !Revoked(s'.db.catalog, a)
            && forall w: nat :: Busy(s', w) && s'.workers[w].Popped? && s'.workers[w].job.account == a
                                && HasRow(s'.db.rows, s'.workers[w].job.At()) ==>
                 ReadAccountStep(s', w).workers[w] == AccountRead(s'.workers[w].job, s'.db.catalog.accounts[a])
  {
    a := ImportedAccountHoldsPage(s.db.catalog, pages, apiVersion, i);
    ImportLeaves(s, pages, apiVersion);
    var s' := Next(s, EditCatalog(ImportAccounts(pages, apiVersion)));
    ImportOverrides(s.db.catalog, pages, apiVersion);
    forall w: nat | Busy(s', w) && s'.workers[w].Popped? && s'.workers[w].job.account == a
                    && HasRow(s'.db.rows, s'.workers[w].job.At())
      ensures ReadAccountStep(s', w).workers[w] == AccountRead(s'.workers[w].job, s'.db.catalog.accounts[a])
    {
      AuthorizedIsRead(s', w);
    }
  }

  lemma ImportLeaves(s: State, pages: seq<Page>, apiVersion: string)
    ensures Next(s, EditCatalog(ImportAccounts(pages, apiVersion))).db.catalog
         == ImportPages(s.db.catalog, pages, apiVersion).catalog
  {
    EditCatalogPerforms(s, ImportAccounts(pages, apiVersion));
  }

  lemma EditCatalogPerforms(s: State, op: CatalogOp)
    requires !op.DropAccount? && !op.Deauthorize?
    ensures Enabled(s, EditCatalog(op)) && Next(s, EditCatalog(op)).db.catalog == Perform(s.db.catalog, op)
  {}

  lemma AuthorizedIsRead(s: State, w: nat)
    requires Busy(s, w) && s.workers[w].Popped? && HasRow(s.db.rows, s.workers[w].job.At())
    requires var a := s.workers[w].job.account; a in s.db.catalog.accounts && s.db.catalog.accounts[a].authorized
    ensures ReadAccountStep(s, w).workers[w]
         == AccountRead(s.workers[w].job, s.db.catalog.accounts[s.workers[w].job.account])
  {}

  lemma CommitKeepsRevoked(s: State, w: nat, a: int)
    requires Busy(s, w) && s.workers[w].Counted? && Revoked(s.db.catalog, a)
    ensures Revoked(CommitStep(s, w).db.catalog, a)
  {}

  lemma StepKeepsRevoked(s: State, step: Step, a: int)
    requires Enabled(s, step) && Revoked(s.db.catalog, a)
    requires step.EditCatalog? ==> Revoked(Next(s, step).db.catalog, a)
    ensures Revoked(Next(s, step).db.catalog, a)
  {
    if step.Commit? {
      CommitKeepsRevoked(s, step.w, a);
    } else if InHand(step) {
      HandSteps(s, step);
    } else if step.AddPost? {
      Posts.SaveUnfolds(s.db.(nextPost := s.db.nextPost + 1), s.db.nextPost, step.form);
    } else if step.EditPost? {
      Posts.SaveUnfolds(s.db, step.p, step.form);
    }
  }

  lemma HandReads(s: State, step: Step, a: int)
    requires Enabled(s, step) && InHand(step) && Revoked(s.db.catalog, a)
    ensures var phase, phase' := s.workers[step.w], Next(s, step).workers[step.w];
            (if HasRead(phase', a) then 1 else 0) + (if CallsFor(s, step, a) then 1 else 0)
            <= (if HasRead(phase, a) then 1 else 0)
  {
    if step.ReadAccount? || step.ReadService? || step.ReadText? {
      ReadReads(s, step, a);
    } else if step.Fault? {
      FaultReads(s, step.w, a);
    }
  }

  lemma ReadReads(s: State, step: Step, a: int)
    requires Enabled(s, step) && (step.ReadAccount? || step.ReadService? || step.ReadText?) && Revoked(s.db.catalog, a)
    ensures HasRead(Next(s, step).workers[step.w], a) ==> HasRead(s.workers[step.w], a)
  {}

  lemma FaultReads(s: State, w: nat, a: int)
    requires Busy(s, w)
    ensures !HasRead(FaultStep(s, w).workers[w], a)
  {}

  lemma StepUsesReads(s: State, step: Step, a: int)
    requires Enabled(s, step) && Revoked(s.db.catalog, a)
    ensures PendingReads(Next(s, step).workers, a) + (if CallsFor(s, step, a) then 1 else 0) <= PendingReads(s.workers, a)
  {
    var s' := Next(s, step);
    if InHand(step) {
      HandSteps(s, step);
      HandReads(s, step, a);
      SumUpdate(s.workers, step.w, s'.workers[step.w], ReadWeight(a));
    } else if step.Commit? {
      SumUpdate(s.workers, step.w, Idle, ReadWeight(a));
    } else if OfWorker(step) {
      ExchangeSteps(s, step);
      SumUpdate(s.workers, step.w, s'.workers[step.w], ReadWeight(a));
    } else if OfApi(step) {
      WritesOfApi(s, step);
    } else if step.ClaimNext? {
      assert s'.workers == s.workers;
    } else {
      ListingSteps(s, step);
    }
  }

  /** From a state in which the account is unauthorized, and as long as nobody re-authorizes
      it, a run calls its provider at most once for each read of the account that had
      already happened: a job whose read comes later never gets that far, in any post. */
  lemma {:induction false} RevokedAccountFallsSilent(s: State, steps: seq<Step>, a: int)
    requires Runs(s, steps) && Revoked(s.db.catalog, a) && StaysRevoked(s, steps, a)
    ensures CallsOf(s, steps, a) + PendingReads(After(s, steps).workers, a) <= PendingReads(s.workers, a)
    decreases |steps|
  {
    if steps != [] {
      StepUsesReads(s, steps[0], a);
      StepKeepsRevoked(s, steps[0], a);
      RevokedAccountFallsSilent(Next(s, steps[0]), steps[1..], a);
    }
  }

  /** From the commit that records an unauthorized error, and until someone re-authorizes the
      account, its provider is called at most once for each worker that had read it before. */
  lemma CommittedRevocationSilences(s: State, w: nat, steps: seq<Step>)
    requires Reachable(s) && Busy(s, w) && s.workers[w].Counted? && s.workers[w].change == Errored(Error.Unauthorized)
    requires s.workers[w].job.account in s.db.catalog.accounts
    requires Runs(CommitStep(s, w), steps) && StaysRevoked(CommitStep(s, w), steps, s.workers[w].job.account)
    ensures Revoked(CommitStep(s, w).db.catalog, s.workers[w].job.account)
    ensures CallsOf(CommitStep(s, w), steps, s.workers[w].job.account) <= PendingReads(s.workers, s.workers[w].job.account)
  {
    var a := s.workers[w].job.account;
    ReachableInv(s);
    RevokedAccountFallsSilent(CommitStep(s, w), steps, a);
    SumUpdate(s.workers, w, Idle, ReadWeight(a));
  }

  // ---------- from the pop to the recorded error ----------

  /** A popped job whose account is unauthorized fails at the read, without a call. */
  lemma RevokedJobIsDoomed(s: State, w: nat)
    requires RowsOk(s.db) && Busy(s, w) && s.workers[w].Popped? && HasRow(s.db.rows, s.workers[w].job.At())
    requires Revoked(s.db.catalog, s.workers[w].job.account)
    ensures ReadAccountStep(s, w).workers[w] == Failing(s.workers[w].job, Error.Unauthorized)
    ensures ReadAccountStep(s, w).past.Of(s.workers[w].job.At()) == s.past.Of(s.workers[w].job.At())
  {
    var i :| i in s.db.rows && s.db.rows[i].At() == s.workers[w].job.At();
    assert s.db.rows[i].account in s.db.catalog.accounts;
  }

  /** Up to its commit, worker w finds the row of its job whenever it reads the account. */
  ghost predicate FindsRow(s: State, steps: seq<Step>, w: nat, job: Job)
    requires Runs(s, steps)
    decreases |steps|
  {
    steps == [] ||
    ((steps[0] == ReadAccount(w) ==> HasRow(s.db.rows, job.At()))
     && (steps[0] != Commit(w) ==> FindsRow(Next(s, steps[0]), steps[1..], w, job)))
  }

  /** Worker w does nothing but read the account, and from there on settles the refusal, or
      drops the job if its row is gone. */
  ghost predicate ReadsAndSettles(s: State, steps: seq<Step>, w: nat, job: Job)
    requires Runs(s, steps)
    decreases |steps|
  {
    && w < |s.workers| && s.workers[w] == Popped(job)
    && (steps != [] ==>
          if steps[0] == ReadAccount(w) then
            if HasRow(s.db.rows, job.At()) then SettlesError(Next(s, steps[0]), steps[1..], w, job, Error.Unauthorized)
            else Next(s, steps[0]).workers[w].Idle?
          else
            !(OfWorker(steps[0]) && steps[0].w == w) && ReadsAndSettles(Next(s, steps[0]), steps[1..], w, job))
  }

  lemma PoppedReadsNext(s: State, step: Step, w: nat, job: Job)
    requires RowsOk(s.db) && Enabled(s, step) && OfWorker(step) && step.w == w && !OwnFault(step, w)
    requires Busy(s, w) && s.workers[w] == Popped(job)
    requires Revoked(s.db.catalog, job.account)
    ensures step == ReadAccount(w) && |Next(s, step).workers| == |s.workers|
    ensures if HasRow(s.db.rows, job.At()) then Doomed(Next(s, step).workers[w], job, Error.Unauthorized)
            else Next(s, step).workers[w].Idle?
  {
    assert step == ReadAccount(w);
    if HasRow(s.db.rows, job.At()) {
      RevokedJobIsDoomed(s, w);
    }
  }

  lemma OthersKeepPopped(s: State, step: Step, w: nat, job: Job)
    requires Inv(s) && Enabled(s, step) && !(OfWorker(step) && step.w == w) && w < |s.workers| && s.workers[w] == Popped(job)
    requires Revoked(s.db.catalog, job.account)
    requires step.EditCatalog? ==> Revoked(Next(s, step).db.catalog, job.account)
    ensures var s' := Next(s, step);
            Inv(s') && w < |s'.workers| && s'.workers[w] == Popped(job) && Revoked(s'.db.catalog, job.account)
  {
    OthersKeepWorker(s, step, w);
    StepKeepsRevoked(s, step, job.account);
    StepKeepsInv(s, step);
  }

  lemma ReadThenSettles(s: State, steps: seq<Step>, w: nat, job: Job)
    requires Inv(s) && Runs(s, steps) && steps != [] && steps[0] == ReadAccount(w)
    requires Busy(s, w) && s.workers[w] == Popped(job)
    requires Revoked(s.db.catalog, job.account)
    requires Unfailing(steps, w)
    ensures ReadsAndSettles(s, steps, w, job)
  {
    UnfailingLater(steps, w);
    PoppedReadsNext(s, steps[0], w, job);
    if HasRow(s.db.rows, job.At()) {
      FinalErrorSettles(Next(s, steps[0]), steps[1..], w, job, Error.Unauthorized);
    }
  }

  lemma ReadThenCommits(s: State, steps: seq<Step>, w: nat, job: Job)
    requires Inv(s) && Runs(s, steps) && steps != [] && steps[0] == ReadAccount(w)
    requires Busy(s, w) && s.workers[w] == Popped(job)
    requires Revoked(s.db.catalog, job.account) && HasRow(s.db.rows, job.At())
    requires Unfailing(steps, w) && StepsOf(steps, w) >= 4
    ensures Commit(w) in steps
  {
    UnfailingLater(steps, w);
    PoppedReadsNext(s, steps[0], w, job);
    FinalErrorSettlesSoon(Next(s, steps[0]), steps[1..], w, job, Error.Unauthorized);
  }

  /** A job that is popped while its account is revoked, and whose account stays revoked, is
      never sent and never retried, whatever everyone else does in between. Short of a fault
      of its own, the worker reads the account, refuses, and commits the error into the row;
      four of its steps are enough. If the row is gone at the read, it drops the job. */
  lemma {:induction false} RevokedJobNeverCalls(s: State, steps: seq<Step>, w: nat, job: Job)
    requires Inv(s) && Runs(s, steps) && w < |s.workers| && s.workers[w] == Popped(job)
    requires Revoked(s.db.catalog, job.account) && StaysRevoked(s, steps, job.account)
    requires Unfailing(steps, w)
    ensures ReadsAndSettles(s, steps, w, job)
    ensures FindsRow(s, steps, w, job) && StepsOf(steps, w) >= 4 ==> Commit(w) in steps
    decreases |steps|
  {
    if steps != [] {
      var step, rest := steps[0], steps[1..];
      var s' := Next(s, step);
      UnfailingLater(steps, w);
      if OfWorker(step) && step.w == w {
        ReadThenSettles(s, steps, w, job);
        if FindsRow(s, steps, w, job) && StepsOf(steps, w) >= 4 {
          ReadThenCommits(s, steps, w, job);
        }
      } else {
        OthersKeepPopped(s, step, w, job);
        RevokedJobNeverCalls(s', rest, w, job);
      }
    }
  }
}
