/** What the worker's code does to rows, posts, accounts and queue, said of those alone:
    the functions that specify the code in WorkerLoop keep what they are for. */
module Outcomes {
  import opened Base
  import opened Providers
  import opened ServiceRules
  import opened Content
  import opened Tables
  import opened Services
  import opened Accounts
  import opened Pipeline
  import opened Invariant
  import opened WorkerLoop

  // ---------- what a settlement leaves ----------

  ghost predicate SomePending(rows: map<int, Row>, p: int) {
    exists i :: i in rows && rows[i].post == p && rows[i].providerPostId.None? && rows[i].errors.None?
  }

  ghost predicate SomeFailure(rows: map<int, Row>, p: int) {
    exists i :: i in rows && rows[i].post == p && rows[i].errors.Some?
  }

  /** Post p is decided by these rows: left alone while one is pending, then failed (3) and
      complete (2) if one has an error, else published (2) and complete at that time. */
  ghost predicate DecidedBy(posts: map<int, Post>, posts': map<int, Post>, rows: map<int, Row>, p: int, at: int) {
    && (forall q :: q in posts' <==> q in posts)
    && (forall q :: q in posts && q != p ==> posts'[q] == posts[q])
    && (p in posts ==>
          posts'[p] == if SomePending(rows, p) then posts[p]
                       else if SomeFailure(rows, p) then posts[p].(status := 3, scheduleStatus := 2)
                       else posts[p].(status := 2, scheduleStatus := 2, publishedAt := Some(at)))
  }

  lemma SettlementDecides(db: Db, k: Key, change: Change, at: int)
    ensures var d := SettleTables(db, k, change, at); DecidedBy(db.posts, d.posts, d.rows, k.post, at)
  {
    JudgeMeaning(Changed(db.rows, k, change), k.post);
  }

  ghost predicate RowThere(db: Db, job: Job) {
    exists i :: i in db.rows && db.rows[i].post == job.post && db.rows[i].account == job.account
  }

  /** The job's row is there, its account is stored, and no failure is in store. */
  ghost predicate Undisturbed(db: Db, job: Job, luck: Luck) {
    && RowThere(db, job) && job.account in db.catalog.accounts
    && luck.failsAt.None? && !luck.vanishes && !luck.publishFails && !luck.pushFails && !luck.markFails
  }

  lemma RowIsFound(db: Db, job: Job)
    ensures RowThere(db, job) <==> HasRow(db.rows, job.At())
    ensures RowThere(db, job) && job.account in db.catalog.accounts <==> FetchAccount(db, job.At()).Some?
    ensures RowThere(db, job) && job.account in db.catalog.accounts ==>
              FetchAccount(db, job.At()) == Some(db.catalog.accounts[job.account])
  {
    if RowThere(db, job) {
      var i :| i in db.rows && db.rows[i].post == job.post && db.rows[i].account == job.account;
      assert db.rows[i].At() == job.At();
    }
  }

  // ---------- an attempt ----------

  /** An attempt that finds no row or no account does nothing and reports no error. */
  lemma NothingToDo(db: Db, job: Job, luck: Luck, at: int)
    requires luck.failsAt != Some(AccountReading) && !(RowThere(db, job) && job.account in db.catalog.accounts)
    ensures Process(db, job, luck, at) == (db, None)
  {
    RowIsFound(db, job);
  }

  /** What refuses an attempt before anything is sent, in order: the account, the service,
      the text, the connector. */
  lemma RefusedInOrder(db: Db, job: Job, luck: Luck, at: int)
    requires Undisturbed(db, job, luck)
    ensures var account := db.catalog.accounts[job.account];
            var (d, error) := Process(db, job, luck, at);
            var config := FetchServiceConfiguration(db.catalog, account.provider);
            var text := PublishText(db.versions, db.nextVersion, job.post, job.account);
            && (!account.authorized ==> d == db && error == Some(Unauthorized))
            && (account.authorized && config.Err? ==> d == db && error == Some(config.error))
            && (account.authorized && config.Ok? && text.Err? ==> d == db && error == Some(InvalidContent))
            && (account.authorized && config.Ok? && text.Ok? ==>
                  var request := Dispatch(Index(DEFAULT_CONNECTORS), account, config.value, text.value);
                  request.Err? ==> d == db && error == Some(request.error))
  {
    RowIsFound(db, job);
  }

  /** The account is authorized, its service is configured, there is text, and the connector
      has no objection. */
  ghost predicate Sends(db: Db, job: Job) {
    job.account in db.catalog.accounts &&
    var account := db.catalog.accounts[job.account];
    var config := FetchServiceConfiguration(db.catalog, account.provider);
    var text := PublishText(db.versions, db.nextVersion, job.post, job.account);
    && account.authorized && config.Ok? && text.Ok?
    && Dispatch(Index(DEFAULT_CONNECTORS), account, config.value, text.value).Ok?
  }

  /** Exactly the rows of the job's post and account hold the id now, and no error. */
  ghost predicate Posted(db: Db, d: Db, job: Job, id: string) {
    && (forall i :: i in d.rows <==> i in db.rows)
    && (forall i :: i in db.rows ==>
          d.rows[i] == if db.rows[i].post == job.post && db.rows[i].account == job.account
                       then Row(job.post, job.account, Some(id), None)
                       else db.rows[i])
  }

  /** What the provider accepted is committed: the row holds the id the provider gave and no
      error, no other row changes, and the post is complete if no row is pending any more. */
  lemma AcceptedIsRecorded(db: Db, job: Job, luck: Luck, id: string, at: int)
    requires RowThere(db, job) && Sends(db, job)
    requires luck.outcome == Accepted(id) && luck.failsAt.None? && !luck.vanishes && !luck.publishFails
    ensures var (d, error) := Process(db, job, luck, at);
            && error == None && Posted(db, d, job, id) && DecidedBy(db.posts, d.posts, d.rows, job.post, at)
            && d == db.(rows := d.rows, posts := d.posts)
  {
    RowIsFound(db, job);
    SettlementDecides(db, job.At(), Succeeded(id), at);
  }

  /** Any other answer changes nothing and is the error of the attempt; so is, as a transient
      one, a failing transaction after an acceptance. */
  lemma OtherAnswersAreErrors(db: Db, job: Job, luck: Luck, at: int)
    requires RowThere(db, job) && Sends(db, job) && luck.failsAt.None? && !luck.vanishes
    ensures luck.outcome.Rejected? ==> Process(db, job, luck, at) == (db, Some(luck.outcome.error))
    ensures luck.outcome.Unheard? ==> Process(db, job, luck, at) == (db, Some(Transient))
    ensures luck.outcome.Accepted? && luck.publishFails ==> Process(db, job, luck, at) == (db, Some(Transient))
  {
    RowIsFound(db, job);
  }

  /** When the account is deleted during the call, all that is left to do is to report the
      error, if there is one; an acceptance goes unrecorded. */
  lemma DeletedMeanwhile(db: Db, job: Job, luck: Luck, at: int)
    requires RowThere(db, job) && Sends(db, job) && luck.failsAt.None? && luck.vanishes
    ensures var (d, error) := Process(db, job, luck, at);
            && d == DeleteAccount(db, job.account)
            && (luck.outcome.Accepted? && !luck.publishFails ==> error == None)
            && (luck.outcome.Rejected? ==> error == Some(luck.outcome.error))
            && (luck.outcome.Unheard? || (luck.outcome.Accepted? && luck.publishFails) ==> error == Some(Transient))
  {
    RowIsFound(db, job);
    RemovedRows(db.rows, job.account, job.At());
  }

  /** A read that fails ends the attempt with a transient error: the account's always, the
      others if they are come to. */
  lemma FailedReadIsTransient(db: Db, job: Job, luck: Luck, at: int)
    ensures luck.failsAt == Some(AccountReading) ==> Process(db, job, luck, at) == (db, Some(Transient))
    ensures RowThere(db, job) && Sends(db, job) && luck.failsAt == Some(TextReading) ==>
              Process(db, job, luck, at) == (db, Some(Transient))
  {
    RowIsFound(db, job);
  }

  /** A service is read only for a provider that has one. */
  lemma FailedServiceReadIsTransient(db: Db, job: Job, luck: Luck, at: int)
    requires RowThere(db, job) && Sends(db, job) && luck.failsAt == Some(ServiceReading)
    ensures var provider := Normalize(db.catalog.accounts[job.account].provider);
            Process(db, job, luck, at) ==
              if provider == "facebook_page" || provider == "twitter" || provider == "bluesky" then (db, Some(Transient))
              else Process(db, job, luck.(failsAt := None), at)
  {
    RowIsFound(db, job);
    ProvidersWithService(db.catalog.accounts[job.account].provider);
    if ServiceBindingForProvider(db.catalog.accounts[job.account].provider).None? {
      SameButRead(db, job, luck, at);
    }
  }

  lemma ProvidersWithService(provider: string)
    ensures ServiceBindingForProvider(provider).Some? <==>
              var name := Normalize(provider); name == "facebook_page" || name == "twitter" || name == "bluesky"
  {}

  /** Which read fails matters only if it does. */
  lemma SameButRead(db: Db, job: Job, luck: Luck, at: int)
    requires FetchAccount(db, job.At()).Some? && luck.failsAt == Some(ServiceReading)
    requires ServiceBindingForProvider(FetchAccount(db, job.At()).value.provider).None?
    ensures Process(db, job, luck, at) == Process(db, job, luck.(failsAt := None), at)
  {
    assert forall d :: AfterCall(d, job, luck, at) == AfterCall(d, job, luck.(failsAt := None), at);
  }

  // ---------- an error ----------

  /** The errors no retry can mend. */
  predicate Final(error: Error) {
    || error == Unauthorized || error == UnsupportedProvider || error == InvalidContent
    || error == ServiceDisabled || error == ServiceNotConfigured
  }

  /** Exactly the rows of the job's post and account hold the error now; their id stays. */
  ghost predicate Failed(db: Db, d: Db, job: Job, error: Error) {
    && (forall i :: i in d.rows <==> i in db.rows)
    && (forall i :: i in db.rows ==>
          d.rows[i] == if db.rows[i].post == job.post && db.rows[i].account == job.account
                       then Row(job.post, job.account, db.rows[i].providerPostId, Some(error))
                       else db.rows[i])
  }

  /** The account of the job loses its authorization for an unauthorized error and for no
      other; nothing else about any account changes. */
  ghost predicate RevokedFor(c: Catalog, c': Catalog, a: int, error: Error) {
    && c' == c.(accounts := c'.accounts)
    && (forall b :: b in c'.accounts <==> b in c.accounts)
    && (forall b :: b in c.accounts ==>
          c'.accounts[b] == if b == a && error == Unauthorized then c.accounts[b].(authorized := false) else c.accounts[b])
  }

  /** One of the five final errors at any attempt, and any error at the third, is recorded
      and not retried, in one transaction that decides the post as well. */
  lemma FinalErrorIsRecorded(db: Db, queue: seq<Job>, job: Job, error: Error, luck: Luck, at: int)
    requires Final(error) || job.attempt >= 3
    ensures luck.markFails ==> Recover(db, queue, job, error, luck, at) == (db, queue)
    ensures !luck.markFails ==>
              var (d, q) := Recover(db, queue, job, error, luck, at);
              && q == queue && Failed(db, d, job, error) && RevokedFor(db.catalog, d.catalog, job.account, error)
              && DecidedBy(db.posts, d.posts, d.rows, job.post, at)
              && d == db.(rows := d.rows, posts := d.posts, catalog := d.catalog)
  {
    SettlementDecides(db, job.At(), Errored(error), at);
  }

  /** A transient error below the third attempt changes no table and puts the next attempt in
      front of the queue, unless the push fails. */
  lemma TransientIsRetried(db: Db, queue: seq<Job>, job: Job, luck: Luck, at: int)
    requires job.attempt < 3
    ensures Recover(db, queue, job, Transient, luck, at) ==
              (db, if luck.pushFails then queue else [Job(job.post, job.account, job.attempt + 1)] + queue)
  {}

  // ---------- a round ----------

  ghost predicate RowSettled(d: Db, job: Job) {
    RowThere(d, job) &&
    forall i :: i in d.rows && d.rows[i].post == job.post && d.rows[i].account == job.account ==>
      d.rows[i].providerPostId.Some? || d.rows[i].errors.Some?
  }

  /** No round is wasted: if nothing fails, it ends with the row settled and the queue as it
      was, or with all tables as they were and the next attempt in the queue. */
  lemma NoRoundIsWasted(db: Db, queue: seq<Job>, job: Job, luck: Luck, at: int)
    requires Undisturbed(db, job, luck)
    ensures var (d, q) := Round(db, queue, job, luck, at);
            || (RowSettled(d, job) && q == queue)
            || (d == db && q == [Job(job.post, job.account, job.attempt + 1)] + queue && job.attempt < 3)
  {
    RowIsFound(db, job);
    var (d, error) := Process(db, job, luck, at);
    if error.None? {
      var id := luck.outcome.id;
      AcceptedIsRecorded(db, job, luck, id, at);
    } else if error.value == Transient && job.attempt < 3 {
      TransientIsRetried(d, queue, job, luck, at);
    } else {
      FinalErrorIsRecorded(d, queue, job, error.value, luck, at);
    }
  }
}
