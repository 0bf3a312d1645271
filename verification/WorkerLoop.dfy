/** The worker's code (cmd/worker/main.go:66-265): one round of the loop from BRPOP to a
    settled, requeued or dropped job. Proved against functions on the tables and the
    queue, and those against a run of one worker in the step system. */
module WorkerLoop {
  import opened Base
  import opened Providers
  import opened ServiceRules
  import opened Content
  import opened Tables
  import opened Services
  import opened Accounts
  import opened Pipeline
  import opened Reach
  import opened SchedulerLoop

  /** The reads of an attempt; the first stands for BEGIN as well. */
  datatype Reading = AccountReading | ServiceReading | TextReading

  /** What the environment does to one round: whether a read before the call fails, the
      provider's outcome, whether someone deletes the account during the call, and whether
      the publish transaction, the retry push and the error-mark transaction fail. */
  datatype Luck = Luck(
    failsAt: Option<Reading>, outcome: Outcome, vanishes: bool,
    publishFails: bool, pushFails: bool, markFails: bool
  )

  // ---------- transactions as functions ----------

  /** Row change, count over the own view, verdict: what one transaction commits. */
  function SettleTables(db: Db, k: Key, change: Change, at: int): Db {
    Settled(db, k, change, Judge(Changed(db.rows, k, change), k.post), at)
  }

  /** The error processing ends with before anything is sent, or the request to send. */
  function PrepareJob(db: Db, job: Job, account: Account): Result<Request, Error> {
    if !account.authorized then Err(Unauthorized)
    else match FetchServiceConfiguration(db.catalog, account.provider)
         case Err(error) => Err(error)
         case Ok(config) =>
           match PublishText(db.versions, db.nextVersion, job.post, job.account)
           case Err(error) => Err(error)
           case Ok(text) => Dispatch(Index(DEFAULT_CONNECTORS), account, config, text)
  }

  /** Whether the failing read is come to; without a binding no service is read. */
  predicate ServiceReadFails(account: Account, luck: Luck) {
    luck.failsAt == Some(ServiceReading) && account.authorized && ServiceBindingForProvider(account.provider).Some?
  }

  predicate TextReadFails(db: Db, account: Account, luck: Luck) {
    luck.failsAt == Some(TextReading) && account.authorized && FetchServiceConfiguration(db.catalog, account.provider).Ok?
  }

  /** processPublishJob: the tables it leaves and the error it returns. */
  function Process(db: Db, job: Job, luck: Luck, at: int): (Db, Option<Error>) {
    var account := FetchAccount(db, job.At());
    if luck.failsAt == Some(AccountReading) then (db, Some(Transient))
    else if account.None? then (db, None)
    else if ServiceReadFails(account.value, luck) || TextReadFails(db, account.value, luck) then (db, Some(Transient))
    else match PrepareJob(db, job, account.value)
         case Err(error) => (db, Some(error))
         case Ok(_) => AfterCall(if luck.vanishes then DeleteAccount(db, job.account) else db, job, luck, at)
  }

  /** The rest of processPublishJob, on the tables found after the call. */
  function AfterCall(db: Db, job: Job, luck: Luck, at: int): (Db, Option<Error>) {
    match luck.outcome
    case Rejected(error) => (db, Some(error))
    case Unheard => (db, Some(Transient))
    case Accepted(id) => Recorded(db, job, id, luck.publishFails, at)
  }

  /** The acceptance in the tables, unless the transaction fails or the row is gone. */
  function Recorded(db: Db, job: Job, id: string, fails: bool, at: int): (Db, Option<Error>) {
    if fails then (db, Some(Transient))
    else if !HasRow(db.rows, job.At()) then (db, None)
    else (SettleTables(db, job.At(), Succeeded(id), at), None)
  }

  /** The whole round for a popped job: tables and queue afterwards. */
  function Round(db: Db, queue: seq<Job>, job: Job, luck: Luck, at: int): (Db, seq<Job>) {
    var (d, error) := Process(db, job, luck, at);
    if error.None? then (d, queue) else Recover(d, queue, job, error.value, luck, at)
  }

  function Recover(db: Db, queue: seq<Job>, job: Job, error: Error, luck: Luck, at: int): (Db, seq<Job>) {
    if !GivesUp(job, error) then (db, if luck.pushFails then queue else [job.(attempt := job.attempt + 1)] + queue)
    else (if luck.markFails then db else SettleTables(db, job.At(), Errored(error), at), queue)
  }

  // ---------- the code ----------

  method FinalizePostIfDone(db: Database, p: int, now: int)
    modifies db
    ensures db.Snapshot() == old(db.Snapshot()).(posts := Finalized(old(db.posts), p, Judge(old(db.rows), p), now))
  {
    var pending := PendingCount(db.rows, p);
    var failed := FailedCount(db.rows, p);
    if pending > 0 || p !in db.posts {
      assert p in db.posts ==> db.posts[p := db.posts[p]] == db.posts;
      return;
    }
    if failed > 0 {
      db.posts := db.posts[p := db.posts[p].(status := FAILED, scheduleStatus := COMPLETE)];
      return;
    }
    db.posts := db.posts[p := db.posts[p].(status := PUBLISHED, scheduleStatus := COMPLETE, publishedAt := Some(now))];
  }

  /** UPDATE post_accounts: the number of rows it changed is zero exactly when none matches. */
  method UpdateRow(db: Database, k: Key, change: Change) returns (found: bool)
    modifies db
    ensures found <==> HasRow(old(db.rows), k)
    ensures db.Snapshot() == old(db.Snapshot()).(rows := Changed(old(db.rows), k, change))
  {
    found := HasRow(db.rows, k);
    db.rows := Changed(db.rows, k, change);
  }

  /** The two tables differ in row i only, which keeps its post. */
  ghost predicate DifferAt(rows: map<int, Row>, rows': map<int, Row>, i: int) {
    && i in rows && (forall j :: j in rows' <==> j in rows) && rows'[i].post == rows[i].post
    && forall j :: j in rows && j != i ==> rows'[j] == rows[j]
  }

  lemma PendingTakesOne(rows: map<int, Row>, rows': map<int, Row>, i: int, p: int)
    requires DifferAt(rows, rows', i) && rows[i].Pending() && !rows'[i].Pending()
    ensures PendingCount(rows', p) == PendingCount(rows, p) - (if rows[i].post == p then 1 else 0)
  {
    var before := set j | j in rows && rows[j].post == p && rows[j].Pending();
    var after := set j | j in rows' && rows'[j].post == p && rows'[j].Pending();
    forall j | j != i ensures j in after <==> j in before {
      assert j in rows ==> rows'[j] == rows[j];
    }
    if rows[i].post == p {
      assert after == before - {i};
    } else {
      assert after == before;
    }
  }

  lemma FailedTakesOne(rows: map<int, Row>, rows': map<int, Row>, i: int, p: int)
    requires DifferAt(rows, rows', i) && rows[i].errors.None?
    ensures FailedCount(rows', p) == FailedCount(rows, p) + (if rows[i].post == p && rows'[i].errors.Some? then 1 else 0)
  {
    var before := set j | j in rows && rows[j].post == p && rows[j].errors.Some?;
    var after := set j | j in rows' && rows'[j].post == p && rows'[j].errors.Some?;
    forall j | j != i ensures j in after <==> j in before {
      assert j in rows ==> rows'[j] == rows[j];
    }
    if rows[i].post == p && rows'[i].errors.Some? {
      assert after == before + {i};
    } else {
      assert after == before;
    }
  }

  /** A settlement takes its row, and no other, out of the pending count of its post; the
      failed count grows by it exactly for an error. */
  lemma SettlingTakesOneRow(db: Db, i: int, change: Change, p: int)
    requires RowsOk(db) && i in db.rows && db.rows[i].Pending()
    ensures var rows := Changed(db.rows, db.rows[i].At(), change);
            && PendingCount(rows, p) == PendingCount(db.rows, p) - (if db.rows[i].post == p then 1 else 0)
            && FailedCount(rows, p) == FailedCount(db.rows, p) + (if db.rows[i].post == p && change.Errored? then 1 else 0)
  {
    var rows := Changed(db.rows, db.rows[i].At(), change);
    assert DifferAt(db.rows, rows, i) && rows[i] == change.On(db.rows[i]);
    PendingTakesOne(db.rows, rows, i, p);
    FailedTakesOne(db.rows, rows, i, p);
  }

  method ProcessPublishJob(db: Database, manager: Manager, job: Job, luck: Luck, now: int) returns (error: Option<Error>)
    requires manager.connectors == Index(DEFAULT_CONNECTORS)
    modifies db
    ensures (db.Snapshot(), error) == Process(old(db.Snapshot()), job, luck, now)
  {
    if luck.failsAt == Some(AccountReading) {
      return Some(Transient);
    }
    var account := FetchAccount(db.Snapshot(), job.At());
    if account.None? {
      return None;
    }
    if !account.value.authorized {
      return Some(Unauthorized);
    }
    if luck.failsAt == Some(ServiceReading) && ServiceBindingForProvider(account.value.provider).Some? {
      return Some(Transient);
    }
    var config := FetchServiceConfiguration(db.Registry(), account.value.provider);
    if config.Err? {
      return Some(config.error);
    }
    if luck.failsAt == Some(TextReading) {
      return Some(Transient);
    }
    var text := PublishText(db.versions, db.nextVersion, job.post, job.account);
    if text.Err? {
      return Some(text.error);
    }
    var request := manager.Publish(account.value, config.value, text.value);
    if request.Err? {
      return Some(request.error);
    }
    if luck.vanishes {
      DeleteElsewhere(db, job.account);
    }
    error := TakeAnswer(db, job, luck, now);
  }

  /** processPublishJob from the answer of the provider on. */
  method TakeAnswer(db: Database, job: Job, luck: Luck, now: int) returns (error: Option<Error>)
    modifies db
    ensures (db.Snapshot(), error) == AfterCall(old(db.Snapshot()), job, luck, now)
  {
    match luck.outcome {
      case Rejected(e) => return Some(e);
      case Unheard => return Some(Transient);
      case Accepted(id) =>
        error := RecordSuccess(db, job, id, luck.publishFails, now);
    }
  }

  /** The end of processPublishJob: its first write, the count and the commit. */
  method RecordSuccess(db: Database, job: Job, id: string, fails: bool, now: int) returns (error: Option<Error>)
    modifies db
    ensures (db.Snapshot(), error) == Recorded(old(db.Snapshot()), job, id, fails, now)
  {
    var begun := db.Snapshot();
    var found := UpdateRow(db, job.At(), Succeeded(id));
    if found {
      FinalizePostIfDone(db, job.post, now);
    } else {
      UnknownRowUnchanged(begun.rows, job.At(), Succeeded(id));
    }
    if fails {
      db.Rollback(begun);
      return Some(Transient);
    }
    return None;
  }

  lemma UnknownRowUnchanged(rows: map<int, Row>, k: Key, change: Change)
    requires !HasRow(rows, k)
    ensures Changed(rows, k, change) == rows
  {
    assert forall i :: i in rows ==> rows[i].At() != k;
  }

  /** The deletion of an account by an API request meanwhile. */
  method DeleteElsewhere(db: Database, a: int)
    modifies db
    ensures db.Snapshot() == DeleteAccount(old(db.Snapshot()), a)
  {
    db.accounts := db.accounts - {a};
    db.rows := RowsWithout(db.rows, a);
  }

  method MarkAccountJobError(db: Database, job: Job, error: Error, fails: bool, now: int)
    modifies db
    ensures db.Snapshot() == if fails then old(db.Snapshot())
                             else SettleTables(old(db.Snapshot()), job.At(), Errored(error), now)
  {
    var begun := db.Snapshot();
    if error == Unauthorized {
      if job.account in db.accounts {
        db.accounts := db.accounts[job.account := db.accounts[job.account].(authorized := false)];
      }
    }
    var _ := UpdateRow(db, job.At(), Errored(error));
    FinalizePostIfDone(db, job.post, now);
    if fails {
      db.Rollback(begun);
    }
  }

  /** What workerLoop does with an error: the retry push or the mark. */
  method RecoverJob(db: Database, queue: JobQueue, job: Job, error: Error, luck: Luck, now: int)
    modifies db, queue
    ensures (db.Snapshot(), queue.jobs) == Recover(old(db.Snapshot()), old(queue.jobs), job, error, luck, now)
  {
    if !Permanent(error) && job.attempt < MAX_ATTEMPTS {
      if !luck.pushFails {
        queue.LPush(job.(attempt := job.attempt + 1));
      }
      return;
    }
    MarkAccountJobError(db, job, error, luck.markFails, now);
  }

  /** The body of workerLoop after the pop. */
  method HandleJob(db: Database, queue: JobQueue, manager: Manager, job: Job, luck: Luck, now: int)
    requires manager.connectors == Index(DEFAULT_CONNECTORS)
    modifies db, queue
    ensures (db.Snapshot(), queue.jobs) == Round(old(db.Snapshot()), old(queue.jobs), job, luck, now)
  {
    var error := ProcessPublishJob(db, manager, job, luck, now);
    if error.Some? {
      RecoverJob(db, queue, job, error.value, luck, now);
    }
  }

  /** One round of workerLoop; an empty queue is a round without effect. */
  method WorkOnce(db: Database, queue: JobQueue, manager: Manager, luck: Luck, now: int)
    requires manager.connectors == Index(DEFAULT_CONNECTORS)
    modifies db, queue
    ensures old(queue.jobs) == [] ==> db.Snapshot() == old(db.Snapshot()) && queue.jobs == []
    ensures old(queue.jobs) != [] ==>
              var n := |old(queue.jobs)| - 1;
              (db.Snapshot(), queue.jobs) == Round(old(db.Snapshot()), old(queue.jobs)[..n], old(queue.jobs)[n], luck, now)
  {
    var popped := queue.BRPop();
    if popped.Some? {
      HandleJob(db, queue, manager, popped.value, luck, now);
    }
  }

  // ---------- the run behind the code ----------

  /** What goes wrong meanwhile: accounts that are deleted, whether a statement or a commit
      of the worker fails, and whether a retry it pushes is lost. */
  datatype Trouble = Trouble(gone: set<int>, fails: bool, loses: bool)

  const NO_TROUBLE := Trouble({}, false, false)

  /** Some steps of worker w, with no other trouble than the given, lead from one state to
      the other. The worker never dies. */
  ghost predicate Leads(s: State, s': State, w: nat, trouble: Trouble) {
    exists steps :: Runs(s, steps) && After(s, steps) == s' && OnlyBy(steps, w, trouble)
  }

  predicate IsOf(step: Step, w: nat, trouble: Trouble) {
    || (step.RemoveAccount? && step.a in trouble.gone)
    || (&& OfWorker(step) && step.w == w && !step.Crash?
        && (step.Fault? ==> trouble.fails) && (step.Requeue? && !step.delivered ==> trouble.loses))
  }

  ghost predicate OnlyBy(steps: seq<Step>, w: nat, trouble: Trouble) {
    forall i :: 0 <= i < |steps| ==> IsOf(steps[i], w, trouble)
  }

  lemma LeadsNowhere(s: State, w: nat, trouble: Trouble)
    ensures Leads(s, s, w, trouble)
  {
    assert Runs(s, []) && After(s, []) == s && OnlyBy([], w, trouble);
  }

  lemma LeadsOn(s: State, step: Step, s': State, w: nat, trouble: Trouble)
    requires Enabled(s, step) && IsOf(step, w, trouble) && Leads(Next(s, step), s', w, trouble)
    ensures Leads(s, s', w, trouble)
  {
    var rest :| Runs(Next(s, step), rest) && After(Next(s, step), rest) == s' && OnlyBy(rest, w, trouble);
    var steps := [step] + rest;
    assert steps[0] == step && steps[1..] == rest;
    assert Runs(s, steps) && After(s, steps) == s' && OnlyBy(steps, w, trouble);
  }

  /** The trouble of a round. */
  function TroubleIn(job: Job, luck: Luck): Trouble {
    Trouble(if luck.vanishes then {job.account} else {},
            luck.failsAt.Some? || luck.publishFails || luck.markFails,
            luck.pushFails)
  }

  /** The end of a round: worker w idle again, tables and queue as given. */
  ghost predicate Done(s': State, s: State, w: nat, db: Db, queue: seq<Job>) {
    && s'.db == db && s'.queue == queue && w < |s'.workers| && s'.workers[w].Idle?
    && s'.schedulers == s.schedulers && s'.now == s.now
    && |s'.workers| == |s.workers| && forall v :: 0 <= v < |s.workers| && v != w ==> s'.workers[v] == s.workers[v]
  }

  lemma MarkRun(s: State, w: nat, fails: bool, trouble: Trouble) returns (s': State)
    requires fails ==> trouble.fails
    requires Busy(s, w) && s.workers[w].Failing? && GivesUp(s.workers[w].job, s.workers[w].error)
    ensures Leads(s, s', w, trouble)
    ensures var job := s.workers[w].job;
            Done(s', s, w, if fails then s.db else SettleTables(s.db, job.At(), Errored(s.workers[w].error), s.now), s.queue)
  {
    var s1 := MarkRowStep(s, w);
    var s2 := CountStep(s1, w, s.now);
    if fails {
      s' := FaultStep(s2, w);
      LeadsNowhere(s', w, trouble);
      LeadsOn(s2, Fault(w), s', w, trouble);
    } else {
      s' := CommitStep(s2, w);
      LeadsNowhere(s', w, trouble);
      LeadsOn(s2, Commit(w), s', w, trouble);
    }
    LeadsOn(s1, Count(w, s.now), s', w, trouble);
    LeadsOn(s, MarkRow(w), s', w, trouble);
  }

  /** The trouble may be more than that of the round. */
  predicate Covers(trouble: Trouble, luck: Luck) {
    && (luck.failsAt.Some? || luck.publishFails || luck.markFails ==> trouble.fails)
    && (luck.pushFails ==> trouble.loses)
  }

  lemma RecoverRun(s: State, w: nat, luck: Luck, trouble: Trouble) returns (s': State)
    requires Covers(trouble, luck)
    requires Busy(s, w) && s.workers[w].Failing?
    ensures Leads(s, s', w, trouble)
    ensures var (db, queue) := Recover(s.db, s.queue, s.workers[w].job, s.workers[w].error, luck, s.now);
            Done(s', s, w, db, queue)
  {
    if GivesUp(s.workers[w].job, s.workers[w].error) {
      s' := MarkRun(s, w, luck.markFails, trouble);
    } else {
      s' := RequeueRun(s, w, !luck.pushFails, trouble);
    }
  }

  lemma RequeueRun(s: State, w: nat, delivered: bool, trouble: Trouble) returns (s': State)
    requires !delivered ==> trouble.loses
    requires Busy(s, w) && s.workers[w].Failing? && !GivesUp(s.workers[w].job, s.workers[w].error)
    ensures Leads(s, s', w, trouble)
    ensures var job := s.workers[w].job;
            Done(s', s, w, s.db, if delivered then [job.(attempt := job.attempt + 1)] + s.queue else s.queue)
  {
    s' := RequeueStep(s, w, delivered);
    LeadsNowhere(s', w, trouble);
    LeadsOn(s, Requeue(w, delivered), s', w, trouble);
  }

  lemma DoneTrans(s: State, s1: State, s': State, w: nat, db: Db, queue: seq<Job>)
    requires Done(s', s1, w, db, queue)
    requires s1.schedulers == s.schedulers && s1.now == s.now && |s1.workers| == |s.workers|
    requires forall v :: 0 <= v < |s.workers| && v != w ==> s1.workers[v] == s.workers[v]
    ensures Done(s', s, w, db, queue)
  {}

  /** A statement that fails ends the attempt with a transient error. */
  lemma FailingRun(s: State, w: nat, luck: Luck, trouble: Trouble) returns (s': State)
    requires Covers(trouble, luck) && trouble.fails
    requires Busy(s, w) && (BeforeCall(s.workers[w]) || s.workers[w].Sent?)
    ensures Leads(s, s', w, trouble)
    ensures var (db, queue) := Recover(s.db, s.queue, s.workers[w].job, Transient, luck, s.now); Done(s', s, w, db, queue)
  {
    var s1 := FaultStep(s, w);
    var (db, queue) := Recover(s.db, s.queue, s.workers[w].job, Transient, luck, s.now);
    s' := RecoverRun(s1, w, luck, trouble);
    DoneTrans(s, s1, s', w, db, queue);
    LeadsOn(s, Fault(w), s', w, trouble);
  }

  /** From an accepted post on. */
  lemma SentRun(s: State, w: nat, luck: Luck, trouble: Trouble) returns (s': State)
    requires Covers(trouble, luck)
    requires Busy(s, w) && s.workers[w].Sent?
    ensures Leads(s, s', w, trouble)
    ensures var phase := s.workers[w];
            if luck.publishFails then
              var (db, queue) := Recover(s.db, s.queue, phase.job, Transient, luck, s.now);
              Done(s', s, w, db, queue)
            else if !HasRow(s.db.rows, phase.job.At()) then Done(s', s, w, s.db, s.queue)
            else Done(s', s, w, SettleTables(s.db, phase.job.At(), Succeeded(phase.id), s.now), s.queue)
  {
    if luck.publishFails {
      s' := FailingRun(s, w, luck, trouble);
    } else {
      var s1 := WriteRowStep(s, w);
      if HasRow(s.db.rows, s.workers[w].job.At()) {
        s' := CommitStep(CountStep(s1, w, s.now), w);
        LeadsNowhere(s', w, trouble);
        LeadsOn(CountStep(s1, w, s.now), Commit(w), s', w, trouble);
        LeadsOn(s1, Count(w, s.now), s', w, trouble);
      } else {
        s' := s1;
        LeadsNowhere(s', w, trouble);
      }
      LeadsOn(s, WriteRow(w), s', w, trouble);
    }
  }

  /** A phase of an attempt whose reads so far agree with the tables. */
  ghost predicate Tracks(s: State, w: nat) {
    && Busy(s, w)
    && var phase := s.workers[w];
       FetchAccount(s.db, phase.job.At()).Some?
       && (phase.AccountRead? || phase.ServiceRead? || phase.TextRead? ==>
             phase.account == FetchAccount(s.db, phase.job.At()).value && phase.account.authorized)
       && (phase.ServiceRead? || phase.TextRead? ==>
             FetchServiceConfiguration(s.db.catalog, phase.account.provider) == Ok(phase.config))
       && (phase.TextRead? ==>
             PublishText(s.db.versions, s.db.nextVersion, phase.job.post, phase.job.account) == Ok(phase.text))
  }

  /** The provider behaves as its connector allows for the request this job sends. */
  ghost predicate Plausible(db: Db, job: Job, outcome: Outcome) {
    var account := FetchAccount(db, job.At());
    account.Some? && PrepareJob(db, job, account.value).Ok? ==> Possible(PrepareJob(db, job, account.value).value, outcome)
  }

  /** From the answer on. */
  lemma AnswerRun(s: State, w: nat, luck: Luck, trouble: Trouble) returns (s': State)
    requires Covers(trouble, luck)
    requires Busy(s, w)
    requires match luck.outcome
             case Accepted(id) => s.workers[w] == Sent(s.workers[w].job, id)
             case Rejected(error) => s.workers[w] == Failing(s.workers[w].job, error)
             case Unheard => s.workers[w] == Failing(s.workers[w].job, Transient)
    ensures Leads(s, s', w, trouble)
    ensures var job := s.workers[w].job;
            var (db, error) := AfterCall(s.db, job, luck, s.now);
            if error.None? then Done(s', s, w, db, s.queue)
            else var (d, queue) := Recover(db, s.queue, job, error.value, luck, s.now); Done(s', s, w, d, queue)
  {
    if luck.outcome.Accepted? {
      s' := SentRun(s, w, luck, trouble);
    } else {
      s' := RecoverRun(s, w, luck, trouble);
    }
  }

  lemma VanishLeads(s: State, s': State, w: nat, a: int, trouble: Trouble)
    requires a in s.db.catalog.accounts && a in trouble.gone && Leads(RemoveAccountStep(s, a), s', w, trouble)
    ensures Leads(s, s', w, trouble)
  {
    assert Next(s, RemoveAccount(a)) == RemoveAccountStep(s, a);
    LeadsOn(s, RemoveAccount(a), s', w, trouble);
  }

  /** The call is made; the account may be deleted meanwhile. */
  lemma SendRun(s: State, w: nat, luck: Luck) returns (s': State)
    requires Tracks(s, w) && s.workers[w].TextRead? && Prepared(s.workers[w]).Ok?
    requires Possible(Prepared(s.workers[w]).value, luck.outcome)
    ensures Leads(s, s', w, TroubleIn(s.workers[w].job, luck))
    ensures var job := s.workers[w].job;
            var (db, error) := AfterCall(if luck.vanishes then DeleteAccount(s.db, job.account) else s.db, job, luck, s.now);
            if error.None? then Done(s', s, w, db, s.queue)
            else var (d, queue) := Recover(db, s.queue, job, error.value, luck, s.now); Done(s', s, w, d, queue)
  {
    var job := s.workers[w].job;
    var trouble, s1 := TroubleIn(job, luck), CallStep(s, w, luck.outcome);
    if luck.vanishes {
      s' := AnswerRun(RemoveAccountStep(s1, job.account), w, luck, trouble);
      VanishLeads(s1, s', w, job.account, trouble);
    } else {
      s' := AnswerRun(s1, w, luck, trouble);
    }
    LeadsOn(s, Call(w, luck.outcome), s', w, trouble);
  }

  lemma CallRun(s: State, w: nat, luck: Luck) returns (s': State)
    requires Tracks(s, w) && s.workers[w].TextRead? && Plausible(s.db, s.workers[w].job, luck.outcome)
    requires luck.failsAt != Some(AccountReading)
    requires !ServiceReadFails(s.workers[w].account, luck) && !TextReadFails(s.db, s.workers[w].account, luck)
    ensures Leads(s, s', w, TroubleIn(s.workers[w].job, luck))
    ensures var (db, queue) := Round(s.db, s.queue, s.workers[w].job, luck, s.now); Done(s', s, w, db, queue)
  {
    var phase := s.workers[w];
    assert Prepared(phase) == PrepareJob(s.db, phase.job, phase.account);
    if Prepared(phase).Ok? {
      s' := SendRun(s, w, luck);
    } else {
      var outcome := Rejected(Prepared(phase).error);
      s' := RecoverRun(CallStep(s, w, outcome), w, luck, TroubleIn(phase.job, luck));
      LeadsOn(s, Call(w, outcome), s', w, TroubleIn(phase.job, luck));
    }
  }

  lemma TextRun(s: State, w: nat, luck: Luck) returns (s': State)
    requires Tracks(s, w) && s.workers[w].ServiceRead? && Plausible(s.db, s.workers[w].job, luck.outcome)
    requires luck.failsAt != Some(AccountReading) && !ServiceReadFails(s.workers[w].account, luck)
    ensures Leads(s, s', w, TroubleIn(s.workers[w].job, luck))
    ensures var (db, queue) := Round(s.db, s.queue, s.workers[w].job, luck, s.now); Done(s', s, w, db, queue)
  {
    var trouble := TroubleIn(s.workers[w].job, luck);
    if luck.failsAt == Some(TextReading) {
      s' := FailingRun(s, w, luck, trouble);
    } else {
      var s1 := ReadTextStep(s, w);
      var (db, queue) := Round(s.db, s.queue, s.workers[w].job, luck, s.now);
      if s1.workers[w].TextRead? {
        s' := CallRun(s1, w, luck);
      } else {
        s' := RecoverRun(s1, w, luck, trouble);
      }
      DoneTrans(s, s1, s', w, db, queue);
      LeadsOn(s, ReadText(w), s', w, trouble);
    }
  }

  lemma ServiceRun(s: State, w: nat, luck: Luck) returns (s': State)
    requires Tracks(s, w) && s.workers[w].AccountRead? && Plausible(s.db, s.workers[w].job, luck.outcome)
    requires luck.failsAt != Some(AccountReading)
    ensures Leads(s, s', w, TroubleIn(s.workers[w].job, luck))
    ensures var (db, queue) := Round(s.db, s.queue, s.workers[w].job, luck, s.now); Done(s', s, w, db, queue)
  {
    var trouble := TroubleIn(s.workers[w].job, luck);
    if ServiceReadFails(s.workers[w].account, luck) {
      s' := FailingRun(s, w, luck, trouble);
    } else {
      var s1 := ReadServiceStep(s, w);
      var (db, queue) := Round(s.db, s.queue, s.workers[w].job, luck, s.now);
      if s1.workers[w].ServiceRead? {
        s' := TextRun(s1, w, luck);
      } else {
        s' := RecoverRun(s1, w, luck, trouble);
      }
      DoneTrans(s, s1, s', w, db, queue);
      LeadsOn(s, ReadService(w), s', w, trouble);
    }
  }

  lemma PoppedRun(s: State, w: nat, luck: Luck) returns (s': State)
    requires Busy(s, w) && s.workers[w].Popped? && Plausible(s.db, s.workers[w].job, luck.outcome)
    ensures Leads(s, s', w, TroubleIn(s.workers[w].job, luck))
    ensures var (db, queue) := Round(s.db, s.queue, s.workers[w].job, luck, s.now); Done(s', s, w, db, queue)
  {
    var trouble := TroubleIn(s.workers[w].job, luck);
    if luck.failsAt == Some(AccountReading) {
      s' := FailingRun(s, w, luck, trouble);
    } else {
      var s1 := ReadAccountStep(s, w);
      var (db, queue) := Round(s.db, s.queue, s.workers[w].job, luck, s.now);
      if s1.workers[w].Idle? {
        s' := s1;
        LeadsNowhere(s', w, trouble);
      } else if s1.workers[w].AccountRead? {
        s' := ServiceRun(s1, w, luck);
      } else {
        s' := RecoverRun(s1, w, luck, trouble);
      }
      DoneTrans(s, s1, s', w, db, queue);
      LeadsOn(s, ReadAccount(w), s', w, trouble);
    }
  }

  /** What one round of the code does to tables and queue is what some run of that worker
      does, with every other process standing still and nothing else going wrong: without a
      fault in the round no statement, commit or retry push of the run fails. */
  lemma RoundIsRun(s: State, w: nat, luck: Luck) returns (s': State)
    requires Enabled(s, Pop(w)) && Plausible(s.db, s.queue[|s.queue| - 1], luck.outcome)
    ensures Leads(s, s', w, TroubleIn(s.queue[|s.queue| - 1], luck))
    ensures var n := |s.queue| - 1;
            var (db, queue) := Round(s.db, s.queue[..n], s.queue[n], luck, s.now);
            Done(s', s, w, db, queue)
  {
    var n := |s.queue| - 1;
    var s1 := PopStep(s, w);
    s' := PoppedRun(s1, w, luck);
    var (db, queue) := Round(s.db, s.queue[..n], s.queue[n], luck, s.now);
    DoneTrans(s, s1, s', w, db, queue);
    LeadsOn(s, Pop(w), s', w, TroubleIn(s.queue[n], luck));
  }

  // ---------- the loop ----------

  /** What happens around one BRPOP: the luck of the round and the time of its transaction. */
  datatype Turn = Turn(luck: Luck, at: int)

  function TurnTaken(db: Db, queue: seq<Job>, turn: Turn): (Db, seq<Job>) {
    if queue == [] then (db, queue)
    else Round(db, queue[..|queue| - 1], queue[|queue| - 1], turn.luck, turn.at)
  }

  function TurnsTaken(db: Db, queue: seq<Job>, turns: seq<Turn>): (Db, seq<Job>) {
    if turns == [] then (db, queue)
    else
      var (d, q) := TurnsTaken(db, queue, turns[..|turns| - 1]);
      TurnTaken(d, q, turns[|turns| - 1])
  }

  /** workerLoop with the manager the worker starts with, until it is cancelled. */
  method RunWorker(db: Database, queue: JobQueue, turns: seq<Turn>)
    modifies db, queue
    ensures (db.Snapshot(), queue.jobs) == TurnsTaken(old(db.Snapshot()), old(queue.jobs), turns)
  {
    var manager := NewDefaultManager();
    for i := 0 to |turns|
      invariant (db.Snapshot(), queue.jobs) == TurnsTaken(old(db.Snapshot()), old(queue.jobs), turns[..i])
      invariant manager.connectors == Index(DEFAULT_CONNECTORS)
    {
      assert turns[..i + 1][..i] == turns[..i];
      WorkOnce(db, queue, manager, turns[i].luck, turns[i].at);
    }
    assert turns[..|turns|] == turns;
  }

  ghost predicate PlausibleTurn(db: Db, queue: seq<Job>, turn: Turn) {
    queue != [] ==> Plausible(db, queue[|queue| - 1], turn.luck.outcome)
  }

  /** Every round in turn meets a provider that behaves as its connector allows. */
  ghost predicate PlausibleTurns(db: Db, queue: seq<Job>, turns: seq<Turn>) {
    turns == [] ||
    (var (d, q) := TurnsTaken(db, queue, turns[..|turns| - 1]);
     PlausibleTurns(db, queue, turns[..|turns| - 1]) && PlausibleTurn(d, q, turns[|turns| - 1]))
  }

  function Both(t: Trouble, u: Trouble): Trouble {
    Trouble(t.gone + u.gone, t.fails || u.fails, t.loses || u.loses)
  }

  lemma LeadsThrough(s: State, s1: State, s': State, w: nat, trouble: Trouble, others: Trouble)
    requires Leads(s, s1, w, trouble) && Leads(s1, s', w, others)
    ensures Leads(s, s', w, Both(trouble, others))
  {
    var first :| Runs(s, first) && After(s, first) == s1 && OnlyBy(first, w, trouble);
    var rest :| Runs(s1, rest) && After(s1, rest) == s' && OnlyBy(rest, w, others);
    RunsThrough(s, first, rest);
    assert OnlyBy(first + rest, w, Both(trouble, others));
  }

  /** The trouble of all rounds together. */
  function TurnsTrouble(db: Db, queue: seq<Job>, turns: seq<Turn>): Trouble {
    if turns == [] then NO_TROUBLE
    else
      var (d, q) := TurnsTaken(db, queue, turns[..|turns| - 1]);
      var before := TurnsTrouble(db, queue, turns[..|turns| - 1]);
      if q == [] then before else Both(before, TroubleIn(q[|q| - 1], turns[|turns| - 1].luck))
  }

  /** Any number of rounds is a run of that one worker, with their trouble and no other; the
      times of the transactions are those of the clock, which stands still meanwhile. */
  lemma {:induction false} TurnsAreRun(s: State, w: nat, turns: seq<Turn>) returns (s': State)
    requires w < |s.workers| && s.workers[w].Idle?
    requires PlausibleTurns(s.db, s.queue, turns) && forall i :: 0 <= i < |turns| ==> turns[i].at == s.now
    ensures Leads(s, s', w, TurnsTrouble(s.db, s.queue, turns))
    ensures var (db, queue) := TurnsTaken(s.db, s.queue, turns); Done(s', s, w, db, queue)
  {
    if turns == [] {
      s' := s;
      LeadsNowhere(s, w, NO_TROUBLE);
    } else {
      var n := |turns| - 1;
      var s1 := TurnsAreRun(s, w, turns[..n]);
      var (db, queue) := TurnsTaken(s.db, s.queue, turns);
      if s1.queue == [] {
        s' := s1;
      } else {
        s' := RoundIsRun(s1, w, turns[n].luck);
        DoneTrans(s, s1, s', w, db, queue);
        LeadsThrough(s, s1, s', w, TurnsTrouble(s.db, s.queue, turns[..n]),
                     TroubleIn(s1.queue[|s1.queue| - 1], turns[n].luck));
      }
    }
  }
}
