/** A worker that is left alone works off its queue: enough undisturbed rounds settle the row of
    every job, whatever the providers answer (cmd/worker/main.go:66-117). */
module Draining {
  import Providers
  import opened Tables
  import opened Pipeline
  import opened WorkerLoop
  import opened Outcomes

  predicate Calm(luck: Luck) {
    luck.failsAt.None? && !luck.vanishes && !luck.publishFails && !luck.pushFails && !luck.markFails
  }

  /** Every job still has its row and account, and an attempt of 1 to 3. */
  ghost predicate Workable(db: Db, queue: seq<Job>) {
    forall i :: 0 <= i < |queue| ==> WorkableJob(db, queue[i])
  }

  ghost predicate WorkableJob(db: Db, job: Job) {
    RowThere(db, job) && job.account in db.catalog.accounts && 1 <= job.attempt <= 3
  }

  /** The attempts the jobs have left, including the next ones. */
  function AttemptsLeft(queue: seq<Job>): int {
    if queue == [] then 0 else 4 - queue[0].attempt + AttemptsLeft(queue[1..])
  }

  lemma {:induction false} LeftAtTheBack(queue: seq<Job>, job: Job)
    ensures AttemptsLeft(queue + [job]) == AttemptsLeft(queue) + 4 - job.attempt
  {
    if queue == [] {
      assert queue + [job] == [job];
    } else {
      LeftAtTheBack(queue[1..], job);
      assert (queue + [job])[1..] == queue[1..] + [job];
    }
  }

  lemma {:induction false} WorkableHasAttempts(db: Db, queue: seq<Job>)
    requires Workable(db, queue)
    ensures AttemptsLeft(queue) >= |queue|
  {
    if queue != [] {
      assert WorkableJob(db, queue[0]);
      assert forall i :: 0 <= i < |queue[1..]| ==> queue[1..][i] == queue[i + 1];
      WorkableHasAttempts(db, queue[1..]);
    }
  }

  /** The job's row is settled, or a job for it is queued. */
  ghost predicate InHand(db: Db, queue: seq<Job>, job: Job) {
    RowSettled(db, job) || exists i :: 0 <= i < |queue| && queue[i].At() == job.At()
  }

  /** Rows and accounts that are there stay, and settled rows stay settled. */
  ghost predicate Keeps(db: Db, d: Db) {
    && (forall job :: RowThere(db, job) ==> RowThere(d, job))
    && (forall a :: a in db.catalog.accounts ==> a in d.catalog.accounts)
    && (forall job :: RowSettled(db, job) ==> RowSettled(d, job))
  }

  lemma PostedKeeps(db: Db, d: Db, job: Job, id: string)
    requires Posted(db, d, job, id) && d.catalog == db.catalog
    ensures Keeps(db, d)
  {
    forall other | RowThere(db, other) ensures RowThere(d, other) {
      var i :| i in db.rows && db.rows[i].post == other.post && db.rows[i].account == other.account;
      assert d.rows[i].post == other.post && d.rows[i].account == other.account;
    }
  }

  lemma FailedKeeps(db: Db, d: Db, job: Job, error: Providers.Error)
    requires Failed(db, d, job, error) && RevokedFor(db.catalog, d.catalog, job.account, error)
    ensures Keeps(db, d)
  {
    forall other | RowThere(db, other) ensures RowThere(d, other) {
      var i :| i in db.rows && db.rows[i].post == other.post && db.rows[i].account == other.account;
      assert d.rows[i].post == other.post && d.rows[i].account == other.account;
    }
  }

  /** What one calm round does to tables. */
  lemma RoundKeeps(db: Db, queue: seq<Job>, job: Job, luck: Luck, at: int)
    requires WorkableJob(db, job) && Calm(luck)
    ensures Keeps(db, Round(db, queue, job, luck, at).0)
  {
    var (d, error) := Process(db, job, luck, at);
    CalmProcess(db, job, luck, at);
    if error.None? {
      PostedKeeps(db, d, job, luck.outcome.id);
    } else if error.value == Providers.Transient && job.attempt < 3 {
      TransientIsRetried(d, queue, job, luck, at);
    } else {
      FinalErrorIsRecorded(d, queue, job, error.value, luck, at);
      FailedKeeps(d, Round(db, queue, job, luck, at).0, job, error.value);
    }
  }

  lemma CalmProcess(db: Db, job: Job, luck: Luck, at: int)
    requires WorkableJob(db, job) && Calm(luck)
    ensures var (d, error) := Process(db, job, luck, at);
            && (error.Some? ==> d == db)
            && (error.None? ==> luck.outcome.Accepted? && Posted(db, d, job, luck.outcome.id) && d.catalog == db.catalog)
  {
    RowIsFound(db, job);
    if Sends(db, job) {
      if luck.outcome.Accepted? {
        AcceptedIsRecorded(db, job, luck, luck.outcome.id, at);
      } else {
        OtherAnswersAreErrors(db, job, luck, at);
      }
    } else {
      RefusedInOrder(db, job, luck, at);
    }
  }

  /** A calm round uses up an attempt and loses sight of no job. */
  lemma RoundWorks(db: Db, queue: seq<Job>, job: Job, luck: Luck, at: int, other: Job)
    requires Workable(db, queue + [job]) && Calm(luck)
    ensures var (d, q) := Round(db, queue, job, luck, at);
            && Workable(d, q) && AttemptsLeft(q) < AttemptsLeft(queue + [job])
            && (InHand(db, queue + [job], other) ==> InHand(d, q, other))
  {
    var (d, q) := Round(db, queue, job, luck, at);
    assert (queue + [job])[|queue|] == job && WorkableJob(db, job);
    NoRoundIsWasted(db, queue, job, luck, at);
    RoundKeeps(db, queue, job, luck, at);
    LeftAtTheBack(queue, job);
    StaysWorkable(db, d, queue, job);
    if q == queue {
      if InHand(db, queue + [job], other) {
        SettledIsInHand(db, d, queue, job, other);
      }
    } else {
      RetryIsWorkable(db, queue, job);
      if InHand(db, queue + [job], other) {
        RetriedIsInHand(db, queue, job, other);
      }
    }
  }

  lemma StaysWorkable(db: Db, d: Db, queue: seq<Job>, job: Job)
    requires Workable(db, queue + [job]) && Keeps(db, d)
    ensures Workable(d, queue)
  {
    forall i | 0 <= i < |queue| ensures WorkableJob(d, queue[i]) {
      assert WorkableJob(db, (queue + [job])[i]);
    }
  }

  lemma RetryIsWorkable(db: Db, queue: seq<Job>, job: Job)
    requires Workable(db, queue + [job]) && job.attempt < 3
    ensures Workable(db, [Job(job.post, job.account, job.attempt + 1)] + queue)
    ensures AttemptsLeft([Job(job.post, job.account, job.attempt + 1)] + queue) == AttemptsLeft(queue) + 3 - job.attempt
  {
    var retry := Job(job.post, job.account, job.attempt + 1);
    assert WorkableJob(db, (queue + [job])[|queue|]);
    forall i | 0 <= i < |[retry] + queue| ensures WorkableJob(db, ([retry] + queue)[i]) {
      if i > 0 {
        assert WorkableJob(db, (queue + [job])[i - 1]);
      }
    }
    assert ([retry] + queue)[1..] == queue;
  }

  lemma SettledIsInHand(db: Db, d: Db, queue: seq<Job>, job: Job, other: Job)
    requires Keeps(db, d) && RowSettled(d, job) && InHand(db, queue + [job], other)
    ensures InHand(d, queue, other)
  {
    if !RowSettled(db, other) {
      var i :| 0 <= i < |queue + [job]| && (queue + [job])[i].At() == other.At();
      if i < |queue| {
        assert queue[i].At() == other.At();
      }
    }
  }

  lemma RetriedIsInHand(db: Db, queue: seq<Job>, job: Job, other: Job)
    requires InHand(db, queue + [job], other)
    ensures InHand(db, [Job(job.post, job.account, job.attempt + 1)] + queue, other)
  {
    var q := [Job(job.post, job.account, job.attempt + 1)] + queue;
    if !RowSettled(db, other) {
      var i :| 0 <= i < |queue + [job]| && (queue + [job])[i].At() == other.At();
      assert i < |queue| ==> q[i + 1] == queue[i];
      assert i == |queue| ==> q[0].At() == other.At();
    }
  }

  lemma {:induction false} FirstTurnFirst(db: Db, queue: seq<Job>, turn: Turn, rest: seq<Turn>)
    ensures var (d, q) := TurnTaken(db, queue, turn);
            TurnsTaken(db, queue, [turn] + rest) == TurnsTaken(d, q, rest)
    decreases |rest|
  {
    var turns := [turn] + rest;
    if rest == [] {
      assert turns[..|turns| - 1] == [];
    } else {
      var n := |rest| - 1;
      assert turns[..|turns| - 1] == [turn] + rest[..n];
      FirstTurnFirst(db, queue, turn, rest[..n]);
    }
  }

  lemma TurnWorks(db: Db, queue: seq<Job>, turn: Turn, other: Job)
    requires queue != [] && Workable(db, queue) && Calm(turn.luck) && InHand(db, queue, other)
    ensures var (d, q) := TurnTaken(db, queue, turn);
            Workable(d, q) && AttemptsLeft(q) < AttemptsLeft(queue) && InHand(d, q, other)
  {
    var n := |queue| - 1;
    assert queue == queue[..n] + [queue[n]];
    RoundWorks(db, queue[..n], queue[n], turn.luck, turn.at, other);
  }

  /** With as many calm rounds as the queued jobs have attempts left, the queue is empty and
      the row of every job is settled. */
  lemma {:induction false} QuietWorkerDrains(db: Db, queue: seq<Job>, turns: seq<Turn>, other: Job)
    requires Workable(db, queue) && InHand(db, queue, other)
    requires |turns| >= AttemptsLeft(queue) && forall i :: 0 <= i < |turns| ==> Calm(turns[i].luck)
    ensures var (d, q) := TurnsTaken(db, queue, turns); q == [] && RowSettled(d, other)
    decreases |turns|
  {
    WorkableHasAttempts(db, queue);
    if turns == [] {
      assert queue == [];
    } else {
      var rest := turns[1..];
      assert turns == [turns[0]] + rest && forall i :: 0 <= i < |rest| ==> rest[i] == turns[i + 1];
      FirstTurnFirst(db, queue, turns[0], rest);
      if queue == [] {
        QuietWorkerDrains(db, queue, rest, other);
      } else {
        TurnWorks(db, queue, turns[0], other);
        var (d, q) := TurnTaken(db, queue, turns[0]);
        QuietWorkerDrains(d, q, rest, other);
      }
    }
  }
}
