/** What holds in every reachable state of the pipeline. */
module Invariant {
  import opened Base
  import opened Providers
  import opened Tables
  import opened Accounts
  import opened Pipeline
  import opened Tokens

  type Claims = map<int, Claim>

  // ---------- jobs ----------

  /** No job exists twice; jobs exist only for claimed posts; a lost job is nowhere. */
  ghost predicate TokensOk(live: multiset<Key>, claims: Claims, lost: set<Key>) {
    && (forall k :: live[k] <= 1)
    && (forall k :: k in live ==> k.post in claims)
    && (forall k :: k in lost ==> k.post in claims && k !in live)
  }

  // ---------- rows ----------

  ghost predicate RowOk(row: Row, claims: Claims, lost: set<Key>, live: multiset<Key>) {
    && (row.providerPostId.Some? ==> row.errors.None?)
    && (if row.post in claims then row.Pending() <==> row.At() in live || row.At() in lost else row.Pending())
    && row.errors != Some(UnsupportedProvider)
  }

  /** Conservation: a row of a claimed post is unsettled exactly while its job is live or
      lost, and every such job is for an account the claim has read. */
  ghost predicate RowsMatch(db: Db, claims: Claims, lost: set<Key>, live: multiset<Key>) {
    && RowsOk(db)
    && (forall i :: i in db.rows ==> RowOk(db.rows[i], claims, lost, live))
    && (forall k :: (k in live || k in lost) && k.post in claims ==> k.account in claims[k.post].accounts)
  }

  // ---------- tallies ----------

  predicate Bounded(t: Tally) {
    t.unrecorded <= t.accepted <= t.unrecorded + 1 && t.accepted <= t.calls <= t.pops <= MAX_ATTEMPTS
  }

  predicate QueuedOk(job: Job, t: Tally) {
    1 <= job.attempt <= MAX_ATTEMPTS && t.pops == job.attempt - 1 && t.accepted == t.unrecorded
  }

  predicate HeldOk(phase: Phase, t: Tally)
    requires !phase.Idle?
  {
    && 1 <= phase.job.attempt <= MAX_ATTEMPTS && t.pops == phase.job.attempt
    && t.accepted == t.unrecorded + (if Unsettled(phase) then 1 else 0)
    && (BeforeCall(phase) ==> t.calls < t.pops)
  }

  predicate SettledOk(row: Row, t: Tally) {
    t.accepted == t.unrecorded + (if row.providerPostId.Some? then 1 else 0)
  }

  ghost predicate AllBounded(past: History) {
    forall k :: Bounded(past.Of(k))
  }

  ghost predicate QueueTallies(queue: seq<Job>, past: History) {
    forall i :: 0 <= i < |queue| ==> QueuedOk(queue[i], past.Of(queue[i].At()))
  }

  ghost predicate WorkerTallies(workers: seq<Phase>, past: History) {
    forall w :: 0 <= w < |workers| && !workers[w].Idle? ==> HeldOk(workers[w], past.Of(workers[w].job.At()))
  }

  ghost predicate PushTallies(toPush: multiset<Key>, past: History) {
    forall k :: k in toPush ==> past.Of(k) == ZERO
  }

  ghost predicate RowTallies(rows: map<int, Row>, past: History) {
    forall i :: i in rows && rows[i].post in past.claims && !rows[i].Pending() ==> SettledOk(rows[i], past.Of(rows[i].At()))
  }

  ghost predicate TalliesOk(s: State) {
    && AllBounded(s.past)
    && QueueTallies(s.queue, s.past)
    && WorkerTallies(s.workers, s.past)
    && PushTallies(ToPushBy(s.schedulers), s.past)
    && RowTallies(s.db.rows, s.past)
  }

  // ---------- posts ----------

  /** Every row has a provider id and no error. */
  ghost predicate AllPosted(rows: map<int, Row>, p: int) {
    forall i :: i in rows && rows[i].post == p ==> rows[i].Posted()
  }

  ghost predicate PostOk(post: Post, rows: map<int, Row>, p: int, claim: Claim) {
    && (|| (post.status == SCHEDULED && post.scheduleStatus == RUNNING)
        || (post.status == PUBLISHED && post.scheduleStatus == COMPLETE)
        || (post.status == FAILED && post.scheduleStatus == COMPLETE))
    && (post.status == PUBLISHED ==> AllPosted(rows, p) && post.publishedAt.Some?)
    && (post.status == SCHEDULED ==> post.publishedAt == claim.publishedBefore)
    && (post.status == FAILED ==> Judge(rows, p) != Unfinished)
    && (claim.finals == 0 <==> post.status == SCHEDULED)
    && (claim.late ==> post.status == SCHEDULED)
    && (post.status == SCHEDULED ==> Judge(rows, p) == Unfinished || claim.late)
    && (post.status != SCHEDULED ==> (post.status == PUBLISHED <==> claim.failed <= claim.goneThen))
    && (claim.gone == {} ==> claim.finals <= 1 && (post.status == FAILED ==> post.publishedAt == claim.publishedBefore))
    && HistoryOk(rows, p, claim)
  }

  /** The history knows which rows are left and which of them hold an error. */
  ghost predicate HistoryOk(rows: map<int, Row>, p: int, claim: Claim) {
    && (forall a :: HasRow(rows, Key(p, a)) <==> a in claim.accounts && a !in claim.gone)
    && (forall i :: i in rows && rows[i].post == p ==> (rows[i].errors.Some? <==> rows[i].account in claim.failed))
    && (forall a :: a in claim.failed ==> a in claim.accounts)
    && claim.goneThen <= claim.gone
  }

  ghost predicate PostsOk(posts: map<int, Post>, rows: map<int, Row>, claims: Claims) {
    forall p :: p in claims ==> p in posts && PostOk(posts[p], rows, p, claims[p])
  }

  // ---------- counts taken but not committed ----------

  /** A verdict stays true of the rows the transaction will commit: it says nothing
      premature, unless it was overtaken it misses nothing, and it is about the errors
      committed by then, except those of rows deleted before the count. */
  ghost predicate CountOk(phase: Phase, rows: map<int, Row>, claim: Claim)
    requires phase.Counted?
  {
    var k := phase.job.At();
    var view := Changed(rows, k, phase.change);
    && phase.seen <= claim.changes && phase.gone <= claim.gone
    && (phase.verdict == AllPublished ==> AllPosted(view, k.post))
    && (phase.verdict == SomeFailed ==> Judge(view, k.post) != Unfinished)
    && (phase.seen == claim.changes ==> (phase.verdict == Unfinished <==> Judge(view, k.post) == Unfinished))
    && (phase.verdict != Unfinished ==> (phase.verdict == AllPublished <==> FailedBy(phase, claim) <= phase.gone))
  }

  /** The accounts with an error, once this transaction is committed too. */
  function FailedBy(phase: Phase, claim: Claim): set<int>
    requires phase.Counted?
  {
    if phase.change.Errored? then claim.failed + {phase.job.account} else claim.failed
  }

  ghost predicate CountsOk(workers: seq<Phase>, rows: map<int, Row>, claims: Claims) {
    forall w :: 0 <= w < |workers| && workers[w].Counted? ==>
      workers[w].job.post in claims && CountOk(workers[w], rows, claims[workers[w].job.post])
  }

  /** A verdict leaves no other job of the post with a row: those rows were gone already. */
  ghost predicate Encloses(phase: Phase, live: multiset<Key>)
    requires phase.Counted?
  {
    phase.verdict != Unfinished ==>
      forall k :: k in live && k.post == phase.job.post && k != phase.job.At() ==> k.account in phase.gone
  }

  ghost predicate ClosedOk(workers: seq<Phase>, live: multiset<Key>, claims: Claims) {
    && (forall k :: k in live && k.post in claims && claims[k.post].finals > 0 ==> k.account in claims[k.post].goneThen)
    && (forall w :: 0 <= w < |workers| && workers[w].Counted? ==> Encloses(workers[w], live))
  }

  // ---------- what workers carry ----------

  ghost predicate PhaseOk(phase: Phase) {
    && (phase.AccountRead? || phase.ServiceRead? || phase.TextRead? ==> AccountOk(phase.account) && phase.account.authorized)
    && (phase.TextRead? ==> Trimmed(phase.text) && phase.text != "")
    && (phase.Failing? ==> phase.error != UnsupportedProvider)
    && (phase.Wrote? || phase.Counted? ==> phase.change != Errored(UnsupportedProvider))
  }

  ghost predicate CarryOk(s: State) {
    && CatalogOk(s.db.catalog)
    && (forall w :: 0 <= w < |s.workers| ==> PhaseOk(s.workers[w]))
  }

  ghost predicate Inv(s: State) {
    && TokensOk(Live(s), s.past.claims, s.past.lost)
    && RowsMatch(s.db, s.past.claims, s.past.lost, Live(s))
    && TalliesOk(s)
    && PostsOk(s.db.posts, s.db.rows, s.past.claims)
    && CountsOk(s.workers, s.db.rows, s.past.claims)
    && ClosedOk(s.workers, Live(s), s.past.claims)
    && CarryOk(s)
  }

  // ---------- judging rows ----------

  lemma JudgeMeaning(rows: map<int, Row>, p: int)
    ensures Judge(rows, p) == Unfinished <==> exists i :: i in rows && rows[i].post == p && rows[i].Pending()
    ensures Judge(rows, p) == AllPublished <==> AllPosted(rows, p)
    ensures Judge(rows, p) == SomeFailed <==>
              (forall i :: i in rows && rows[i].post == p ==> !rows[i].Pending())
              && exists i :: i in rows && rows[i].post == p && rows[i].errors.Some?
  {
    CountsMeaning(rows, p);
  }

  /** The rows of a post decide its judgement. */
  lemma JudgeFrame(rows: map<int, Row>, rows': map<int, Row>, p: int)
    requires forall i :: i in rows && rows[i].post == p ==> i in rows' && rows'[i] == rows[i]
    requires forall i :: i in rows' && rows'[i].post == p ==> i in rows && rows'[i] == rows[i]
    ensures Judge(rows', p) == Judge(rows, p)
    ensures AllPosted(rows', p) <==> AllPosted(rows, p)
  {
    JudgeMeaning(rows, p);
    JudgeMeaning(rows', p);
  }

  /** A transaction sees the open row of another job as open. */
  lemma OpenRowIsSeen(rows: map<int, Row>, k: Key, change: Change, j: Key)
    requires j != k && HasOpenRow(rows, j)
    ensures Judge(Changed(rows, k, change), j.post) == Unfinished
  {
    var view := Changed(rows, k, change);
    var i :| i in rows && rows[i].At() == j && rows[i].Pending();
    assert view[i] == rows[i];
    JudgeMeaning(view, j.post);
  }

  // ---------- worker steps ----------

  /** What the steps of worker w may rely on about the others. */
  ghost predicate Alone(s: State, w: nat) {
    Busy(s, w) &&
    var k := s.workers[w].job.At();
    && Live(s)[k] == 1
    && k !in ToPushBy(s.schedulers)
    && (forall i :: 0 <= i < |s.queue| ==> s.queue[i].At() != k)
    && (forall v :: 0 <= v < |s.workers| && v != w && !s.workers[v].Idle? ==> s.workers[v].job.At() != k)
  }

  lemma WorkersAreAlone(s: State, w: nat)
    requires TokensOk(Live(s), s.past.claims, s.past.lost) && Busy(s, w)
    ensures Alone(s, w)
  {
    SoleHolder(s, w);
  }

  /** No settled row belongs to a job that is still in a worker's hands. */
  lemma RecordKeepsRowTallies(rows: map<int, Row>, past: History, live: multiset<Key>, k: Key, t: Tally)
    requires RowTallies(rows, past)
    requires forall i :: i in rows ==> RowOk(rows[i], past.claims, past.lost, live)
    requires k in live
    ensures RowTallies(rows, past.Record(k, t))
  {
    forall i | i in rows && rows[i].post in past.claims && !rows[i].Pending()
      ensures SettledOk(rows[i], past.Record(k, t).Of(rows[i].At()))
    {
      assert RowOk(rows[i], past.claims, past.lost, live);
    }
  }

  lemma RecordKeepsWorkerTallies(workers: seq<Phase>, w: nat, phase: Phase, past: History, k: Key, t: Tally)
    requires w < |workers| && WorkerTallies(workers, past)
    requires forall v :: 0 <= v < |workers| && v != w && !workers[v].Idle? ==> workers[v].job.At() != k
    requires phase.Idle? || (phase.job.At() == k && HeldOk(phase, t))
    ensures WorkerTallies(workers[w := phase], past.Record(k, t))
  {}

  lemma RecordKeepsQueueTallies(queue: seq<Job>, past: History, k: Key, t: Tally)
    requires QueueTallies(queue, past) && forall i :: 0 <= i < |queue| ==> queue[i].At() != k
    ensures QueueTallies(queue, past.Record(k, t))
  {}

  lemma MovedLive(s: State, w: nat, phase: Phase, t: Tally)
    requires Busy(s, w) && !phase.Idle? && phase.job.At() == s.workers[w].job.At()
    ensures Live(Moved(s, w, phase, t)) == Live(s)
  {
    forall k ensures Live(Moved(s, w, phase, t))[k] == Live(s)[k] {
      HeldByUpdate(s.workers, w, phase, k);
    }
  }

  lemma MoveKeepsTallies(s: State, w: nat, phase: Phase, t: Tally)
    requires Alone(s, w) && TalliesOk(s) && RowsMatch(s.db, s.past.claims, s.past.lost, Live(s))
    requires !phase.Idle? && phase.job.At() == s.workers[w].job.At()
    requires HeldOk(phase, t) && Bounded(t)
    ensures TalliesOk(Moved(s, w, phase, t))
  {
    RecordKeepsRowTallies(s.db.rows, s.past, Live(s), s.workers[w].job.At(), t);
  }

  lemma PhaseKeepsCounts(workers: seq<Phase>, w: nat, phase: Phase, rows: map<int, Row>, claims: Claims, live: multiset<Key>)
    requires w < |workers| && CountsOk(workers, rows, claims) && ClosedOk(workers, live, claims)
    requires phase.Counted? ==> phase.job.post in claims && CountOk(phase, rows, claims[phase.job.post])
    requires phase.Counted? ==> Encloses(phase, live)
    ensures CountsOk(workers[w := phase], rows, claims) && ClosedOk(workers[w := phase], live, claims)
  {}

  lemma PhaseKeepsCarry(s: State, s': State, w: nat, phase: Phase)
    requires CarryOk(s) && w < |s.workers| && s'.workers == s.workers[w := phase] && PhaseOk(phase) && s'.db == s.db
    ensures CarryOk(s')
  {}

  /** A step that changes one worker's phase and no table, claim or lost job. */
  lemma SameTablesKeepInv(s: State, s': State, w: nat, phase: Phase)
    requires Inv(s)
    requires w < |s.workers| && s'.workers == s.workers[w := phase] && PhaseOk(phase)
    requires s'.db == s.db && s'.past.claims == s.past.claims && s'.past.lost == s.past.lost
    requires Live(s') == Live(s) && TalliesOk(s')
    requires phase.Counted? ==> phase.job.post in s.past.claims && CountOk(phase, s.db.rows, s.past.claims[phase.job.post])
    requires phase.Counted? ==> Encloses(phase, Live(s))
    ensures Inv(s')
  {
    PhaseKeepsCounts(s.workers, w, phase, s.db.rows, s.past.claims, Live(s));
    PhaseKeepsCarry(s, s', w, phase);
  }

  lemma MoveKeepsInv(s: State, w: nat, phase: Phase, t: Tally)
    requires Inv(s)
    requires Busy(s, w) && !phase.Idle? && phase.job.At() == s.workers[w].job.At()
    requires HeldOk(phase, t) && Bounded(t) && PhaseOk(phase)
    requires phase.Counted? ==> phase.job.post in s.past.claims && CountOk(phase, s.db.rows, s.past.claims[phase.job.post])
    requires phase.Counted? ==> Encloses(phase, Live(s))
    ensures Inv(Moved(s, w, phase, t))
  {
    WorkersAreAlone(s, w);
    MovedLive(s, w, phase, t);
    MoveKeepsTallies(s, w, phase, t);
    SameTablesKeepInv(s, Moved(s, w, phase, t), w, phase);
  }

  /** A job disappears: it becomes lost, or its row is gone. */
  lemma TakenKeepsTokens(db: Db, claims: Claims, lost: set<Key>, live: multiset<Key>, k: Key, lost': set<Key>,
                         live': multiset<Key>)
    requires TokensOk(live, claims, lost) && RowsMatch(db, claims, lost, live)
    requires k in live && forall j :: live'[j] == if j == k then 0 else live[j]
    requires lost' == lost + {k} || (lost' == lost && !HasRow(db.rows, k))
    ensures TokensOk(live', claims, lost') && RowsMatch(db, claims, lost', live')
  {
    forall i | i in db.rows ensures RowOk(db.rows[i], claims, lost', live') {
      assert RowOk(db.rows[i], claims, lost, live);
      assert db.rows[i].At() == k ==> HasRow(db.rows, k);
    }
  }

  lemma DroppedLive(s: State, w: nat, lost: bool, t: Tally)
    requires Alone(s, w)
    ensures var k := s.workers[w].job.At();
            forall j :: Live(Dropped(s, w, lost, t))[j] == if j == k then 0 else Live(s)[j]
  {
    forall j ensures Live(Dropped(s, w, lost, t))[j] == if j == s.workers[w].job.At() then 0 else Live(s)[j] {
      HeldByUpdate(s.workers, w, Idle, j);
    }
  }

  lemma DropKeepsTallies(s: State, w: nat, lost: bool, t: Tally)
    requires Alone(s, w) && TalliesOk(s) && RowsMatch(s.db, s.past.claims, s.past.lost, Live(s))
    requires Bounded(t)
    ensures TalliesOk(Dropped(s, w, lost, t))
  {
    var k := s.workers[w].job.At();
    RecordKeepsRowTallies(s.db.rows, s.past, Live(s), k, t);
    RecordKeepsWorkerTallies(s.workers, w, Idle, s.past, k, t);
    RecordKeepsQueueTallies(s.queue, s.past, k, t);
    var s' := Dropped(s, w, lost, t);
    assert forall j :: s'.past.Of(j) == s.past.Record(k, t).Of(j);
    assert RowTallies(s'.db.rows, s'.past) && WorkerTallies(s'.workers, s'.past) && QueueTallies(s'.queue, s'.past);
  }

  /** A worker that lets go of its job takes no count and no reading with it. */
  lemma IdlingKeepsCounts(s: State, s': State, w: nat)
    requires w < |s.workers| && s'.workers == s.workers[w := Idle] && s'.db == s.db
    requires CountsOk(s.workers, s.db.rows, s.past.claims) && CarryOk(s)
    ensures CountsOk(s'.workers, s.db.rows, s.past.claims) && CarryOk(s')
  {}

  lemma FewerJobsKeepClosed(workers: seq<Phase>, live: multiset<Key>, claims: Claims, live': multiset<Key>)
    requires ClosedOk(workers, live, claims) && forall k :: live'[k] <= live[k]
    ensures ClosedOk(workers, live', claims)
  {
    assert forall k :: k in live' ==> k in live;
    forall v | 0 <= v < |workers| && workers[v].Counted? ensures Encloses(workers[v], live') {
      assert Encloses(workers[v], live);
    }
  }

  lemma DropKeepsTokens(s: State, w: nat, lost: bool, t: Tally)
    requires Alone(s, w) && (lost || !HasRow(s.db.rows, s.workers[w].job.At()))
    requires TokensOk(Live(s), s.past.claims, s.past.lost) && RowsMatch(s.db, s.past.claims, s.past.lost, Live(s))
    ensures var s' := Dropped(s, w, lost, t);
            && TokensOk(Live(s'), s.past.claims, s'.past.lost) && RowsMatch(s.db, s.past.claims, s'.past.lost, Live(s'))
            && forall k :: Live(s')[k] <= Live(s)[k]
  {
    var k, s' := s.workers[w].job.At(), Dropped(s, w, lost, t);
    DroppedLive(s, w, lost, t);
    TakenKeepsTokens(s.db, s.past.claims, s.past.lost, Live(s), k, s'.past.lost, Live(s'));
  }

  lemma DropKeepsInv(s: State, w: nat, lost: bool, t: Tally)
    requires Inv(s)
    requires Busy(s, w)
    requires lost || !HasRow(s.db.rows, s.workers[w].job.At())
    requires Bounded(t)
    ensures Inv(Dropped(s, w, lost, t))
  {
    var s' := Dropped(s, w, lost, t);
    WorkersAreAlone(s, w);
    DropKeepsTokens(s, w, lost, t);
    DropKeepsTallies(s, w, lost, t);
    IdlingKeepsCounts(s, s', w);
    FewerJobsKeepClosed(s.workers, Live(s), s.past.claims, Live(s'));
  }

  // ---------- between queue and worker ----------

  lemma PoppedLive(s: State, w: nat)
    requires w < |s.workers| && s.workers[w].Idle? && s.queue != []
    ensures Live(PopStep(s, w)) == Live(s)
  {
    QueuedLast(s.queue);
    forall k ensures Live(PopStep(s, w))[k] == Live(s)[k] {
      HeldByUpdate(s.workers, w, Popped(s.queue[|s.queue| - 1]), k);
    }
  }

  lemma PopKeepsTallies(s: State, w: nat, job: Job, rest: seq<Job>)
    requires w < |s.workers| && s.workers[w].Idle? && s.queue == rest + [job]
    requires job.At() !in ToPushBy(s.schedulers)
    requires forall i :: 0 <= i < |rest| ==> rest[i].At() != job.At()
    requires forall v :: 0 <= v < |s.workers| && !s.workers[v].Idle? ==> s.workers[v].job.At() != job.At()
    requires TalliesOk(s)
    requires RowTallies(s.db.rows, PopStep(s, w).past)
    ensures TalliesOk(PopStep(s, w))
  {
    var t := s.past.Of(job.At());
    var t' := t.(pops := t.pops + 1);
    assert s.queue[|rest|] == job && s.queue[..|rest|] == rest;
    assert QueuedOk(job, t);
    forall i | 0 <= i < |rest| ensures QueuedOk(rest[i], s.past.Of(rest[i].At())) {
      assert rest[i] == s.queue[i];
    }
    RecordKeepsWorkerTallies(s.workers, w, Popped(job), s.past, job.At(), t');
    RecordKeepsQueueTallies(rest, s.past, job.At(), t');
  }

  /** The popped job is in no other place. */
  lemma PoppedIsAlone(s: State, w: nat, job: Job, rest: seq<Job>)
    requires w < |s.workers| && s.workers[w].Idle? && s.queue == rest + [job]
    requires TokensOk(Live(s), s.past.claims, s.past.lost)
    ensures job.At() in Live(s) && job.At() !in ToPushBy(s.schedulers)
    ensures forall i :: 0 <= i < |rest| ==> rest[i].At() != job.At()
    ensures forall v :: 0 <= v < |s.workers| && !s.workers[v].Idle? ==> s.workers[v].job.At() != job.At()
  {
    var k := job.At();
    QueuedLast(s.queue);
    assert s.queue[|rest|] == job && s.queue[..|rest|] == rest;
    forall i | 0 <= i < |rest| ensures rest[i].At() != k {
      QueuedHas(rest, i);
    }
    forall v | 0 <= v < |s.workers| && !s.workers[v].Idle? ensures s.workers[v].job.At() != k {
      HeldByHas(s.workers, v, k);
    }
  }

  lemma PopTallies(s: State, w: nat)
    requires w < |s.workers| && s.workers[w].Idle? && s.queue != []
    requires TokensOk(Live(s), s.past.claims, s.past.lost) && RowsMatch(s.db, s.past.claims, s.past.lost, Live(s))
    requires TalliesOk(s)
    ensures TalliesOk(PopStep(s, w))
  {
    var n := |s.queue| - 1;
    var job, rest := s.queue[n], s.queue[..n];
    var t := s.past.Of(job.At());
    assert s.queue == rest + [job];
    PoppedIsAlone(s, w, job, rest);
    RecordKeepsRowTallies(s.db.rows, s.past, Live(s), job.At(), t.(pops := t.pops + 1));
    PopKeepsTallies(s, w, job, rest);
  }

  lemma PopKeepsInv(s: State, w: nat)
    requires Inv(s)
    requires w < |s.workers| && s.workers[w].Idle? && s.queue != []
    ensures Inv(PopStep(s, w))
  {
    PoppedLive(s, w);
    PopTallies(s, w);
    SameTablesKeepInv(s, PopStep(s, w), w, Popped(s.queue[|s.queue| - 1]));
  }

  lemma RequeuedLive(s: State, w: nat)
    requires Busy(s, w)
    ensures Live(RequeueStep(s, w, true)) == Live(s)
  {
    var job := s.workers[w].job;
    QueuedFirst(job.(attempt := job.attempt + 1), s.queue);
    forall k ensures Live(RequeueStep(s, w, true))[k] == Live(s)[k] {
      HeldByUpdate(s.workers, w, Idle, k);
    }
  }

  lemma RequeueKeepsTallies(s: State, w: nat)
    requires Busy(s, w) && s.workers[w].Failing? && !GivesUp(s.workers[w].job, s.workers[w].error)
    requires TalliesOk(s)
    ensures TalliesOk(RequeueStep(s, w, true))
  {
    var s' := RequeueStep(s, w, true);
    forall i | 0 <= i < |s'.queue| ensures QueuedOk(s'.queue[i], s'.past.Of(s'.queue[i].At())) {
      if i > 0 {
        assert s'.queue[i] == s.queue[i - 1];
      }
    }
  }

  lemma RequeueKeepsInv(s: State, w: nat)
    requires Inv(s)
    requires Busy(s, w) && s.workers[w].Failing? && !GivesUp(s.workers[w].job, s.workers[w].error)
    ensures Inv(RequeueStep(s, w, true))
  {
    RequeuedLive(s, w);
    RequeueKeepsTallies(s, w);
    SameTablesKeepInv(s, RequeueStep(s, w, true), w, Idle);
  }
}
