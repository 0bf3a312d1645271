/** What one enqueue and one tick of the scheduler leave, said of posts, rows and queue alone
    (cmd/scheduler/main.go:90-230). */
module TickMeaning {
  import opened Base
  import opened Tables
  import opened Pipeline
  import opened SchedulerLoop

  // ---------- one post ----------

  /** Scheduled (1), pending (0) and not deleted. */
  predicate Open(db: Db, p: int) {
    p in db.posts && db.posts[p].status == 1 && db.posts[p].scheduleStatus == 0 && !db.posts[p].deleted
  }

  ghost predicate HasRows(db: Db, p: int) {
    exists i :: i in db.rows && db.rows[i].post == p
  }

  lemma ListedExactlyWithRows(db: Db, p: int)
    requires RowsOk(db)
    ensures AccountsOf(db.rows, db.nextRow, p) != [] <==> HasRows(db, p)
  {
    AccountsOfIsTheListing(db, p);
    var accounts := AccountsOf(db.rows, db.nextRow, p);
    if accounts != [] {
      assert HasRow(db.rows, Key(p, accounts[0]));
    }
    if i :| i in db.rows && db.rows[i].post == p {
      assert HasRow(db.rows, Key(p, db.rows[i].account)) && db.rows[i].account in accounts;
    }
  }

  /** The first m of the accounts have a first attempt each in front of the old queue, so that
      those already queued are popped first and then these in order. */
  ghost predicate Gained(queue: seq<Job>, queue': seq<Job>, p: int, accounts: seq<int>, m: nat) {
    && m <= |accounts| && |queue'| == m + |queue| && queue'[m..] == queue
    && forall i :: 0 <= i < m ==> queue'[m - 1 - i] == Job(p, accounts[i], 1)
  }

  lemma PushedGains(queue: seq<Job>, p: int, accounts: seq<int>, m: nat)
    requires m <= |accounts|
    ensures Gained(queue, Pushed(queue, p, accounts[..m]), p, accounts, m)
  {
    PushedIsFifo(queue, p, accounts[..m]);
  }

  /** How many jobs arrive, and how many the code knows of. */
  predicate Arrivals(fault: EnqueueFault, n: nat, arrived: nat, known: nat) {
    match fault
    case ClaimAborts => arrived == 0 && known == 0
    case ClaimUnheard => arrived == 0 && known == 0
    case Smooth => arrived == n && known == n
    case PushAborts(k, last) =>
      if k < n then arrived == (if last then k + 1 else k) && known == k else arrived == n && known == n
  }

  /** Whether something fails on the way: a claim always can, a push if it is come to. */
  predicate GoesWrong(fault: EnqueueFault, n: nat) {
    fault.ClaimAborts? || fault.ClaimUnheard? || (fault.PushAborts? && fault.n < n)
  }

  /** A post that is not open is left alone without an error; nothing at all happens if the
      claim is rolled back. */
  lemma NothingEnqueued(db: Db, queue: seq<Job>, p: int, fault: EnqueueFault)
    ensures fault.ClaimAborts? ==> Enqueue(db, queue, p, fault) == (db, queue, Enqueued(0, false, true))
    ensures !Open(db, p) && !fault.ClaimAborts? ==> Enqueue(db, queue, p, fault) == (db, queue, Enqueued(0, false, false))
  {}

  /** An open post without rows becomes failed (3) and complete (2) and gets no job. */
  lemma EmptyPostFails(db: Db, queue: seq<Job>, p: int, fault: EnqueueFault)
    requires RowsOk(db) && Open(db, p) && !HasRows(db, p) && !fault.ClaimAborts?
    ensures var (d, q, r) := Enqueue(db, queue, p, fault);
            && d == db.(posts := db.posts[p := db.posts[p].(status := 3, scheduleStatus := 2)]) && q == queue
            && r == Enqueued(0, !fault.ClaimUnheard?, fault.ClaimUnheard?)
  {
    ListedExactlyWithRows(db, p);
  }

  /** An open post with rows starts running (1), and its accounts get their jobs in row order,
      up to what fails; the number reported is that of the pushes that went well. */
  lemma OpenPostIsEnqueued(db: Db, queue: seq<Job>, p: int, fault: EnqueueFault)
    requires RowsOk(db) && Open(db, p) && HasRows(db, p) && !fault.ClaimAborts?
    ensures var (d, q, r) := Enqueue(db, queue, p, fault);
            var accounts := AccountsOf(db.rows, db.nextRow, p);
            && d == db.(posts := db.posts[p := db.posts[p].(scheduleStatus := 1)])
            && !r.failed && r.error == GoesWrong(fault, |accounts|)
            && forall m: nat, known: nat :: Arrivals(fault, |accounts|, m, known) ==>
                 r.jobs == known && Gained(queue, q, p, accounts, m)
  {
    ListedExactlyWithRows(db, p);
    var accounts := AccountsOf(db.rows, db.nextRow, p);
    var (d, q, r) := Enqueue(db, queue, p, fault);
    forall m: nat, known: nat | Arrivals(fault, |accounts|, m, known)
      ensures r.jobs == known && Gained(queue, q, p, accounts, m)
    {
      PushedGains(queue, p, accounts, m);
      assert accounts[..|accounts|] == accounts;
    }
  }

  // ---------- one tick ----------

  /** The jobs for the scanned posts from the i-th on, in the order they will be popped. */
  function JobsFor(db: Db, found: seq<int>, i: nat): seq<Job>
    decreases |found| - i
  {
    if i >= |found| then []
    else JobsOf(db, found[i]) + JobsFor(db, found, i + 1)
  }

  function JobsOf(db: Db, p: int): seq<Job> {
    var accounts := AccountsOf(db.rows, db.nextRow, p);
    if Open(db, p) then seq(|accounts|, u requires 0 <= u < |accounts| => Job(p, accounts[u], 1)) else []
  }

  /** How many of them can be claimed and have no rows. */
  ghost function EmptyOnes(db: Db, found: seq<int>, i: nat): nat
    decreases |found| - i
  {
    if i >= |found| then 0
    else (if Open(db, found[i]) && !HasRows(db, found[i]) then 1 else 0) + EmptyOnes(db, found, i + 1)
  }

  ghost predicate InFront(queue: seq<Job>, jobs: seq<Job>, queue': seq<Job>) {
    && |queue'| == |jobs| + |queue| && queue'[|jobs|..] == queue
    && forall k :: 0 <= k < |jobs| ==> queue'[|jobs| - 1 - k] == jobs[k]
  }

  lemma InFrontThrough(queue: seq<Job>, jobs: seq<Job>, queue1: seq<Job>, more: seq<Job>, queue2: seq<Job>)
    requires InFront(queue, jobs, queue1) && InFront(queue1, more, queue2)
    ensures InFront(queue, jobs + more, queue2)
  {
    var n := |jobs + more|;
    assert queue2[n..] == queue2[|more|..][|jobs|..];
    forall k | 0 <= k < n ensures queue2[n - 1 - k] == (jobs + more)[k] {
      if k < |jobs| {
        assert queue2[n - 1 - k] == queue2[|more|..][|jobs| - 1 - k];
      }
    }
  }

  /** Posts still to come are as they were. */
  ghost predicate SameAhead(db: Db, d: Db, found: seq<int>, i: nat) {
    && d == db.(posts := d.posts)
    && (forall j :: i <= j < |found| ==> (found[j] in d.posts <==> found[j] in db.posts))
    && (forall j :: i <= j < |found| && found[j] in db.posts ==> d.posts[found[j]] == db.posts[found[j]])
  }

  lemma {:induction false} SameCounts(db: Db, d: Db, found: seq<int>, i: nat)
    requires SameAhead(db, d, found, i)
    ensures JobsFor(d, found, i) == JobsFor(db, found, i) && EmptyOnes(d, found, i) == EmptyOnes(db, found, i)
    decreases |found| - i
  {
    if i < |found| {
      SameCounts(db, d, found, i + 1);
    }
  }

  lemma OnePostJobs(db: Db, queue: seq<Job>, p: int)
    requires RowsOk(db)
    ensures var (d, q, r) := Enqueue(db, queue, p, Smooth);
            && InFront(queue, JobsOf(db, p), q) && !r.error && r.jobs == |JobsOf(db, p)|
            && r.failed == (Open(db, p) && !HasRows(db, p))
  {
    var accounts := AccountsOf(db.rows, db.nextRow, p);
    ListedExactlyWithRows(db, p);
    if !Open(db, p) {
      NothingEnqueued(db, queue, p, Smooth);
    } else if !HasRows(db, p) {
      EmptyPostFails(db, queue, p, Smooth);
    } else {
      OpenPostIsEnqueued(db, queue, p, Smooth);
      assert Arrivals(Smooth, |accounts|, |accounts|, |accounts|);
    }
  }

  lemma OnePostKeeps(db: Db, queue: seq<Job>, found: seq<int>, i: nat)
    requires RowsOk(db) && Distinct(found) && i < |found|
    ensures var (d, q, r) := Enqueue(db, queue, found[i], Smooth); RowsOk(d) && SameAhead(db, d, found, i + 1)
  {}

  /** A tick in which nothing fails pushes exactly these jobs, in scan order and row order, and
      reports their number and that of the posts it failed for want of accounts. */
  lemma {:induction false} TickReports(db: Db, queue: seq<Job>, found: seq<int>, i: nat)
    requires RowsOk(db) && Distinct(found) && i <= |found|
    ensures var tick, jobs := TickFrom(db, queue, found, i, None), JobsFor(db, found, i);
            && InFront(queue, jobs, tick.queue) && tick.jobs == |jobs| && tick.failed == EmptyOnes(db, found, i)
            && !tick.error
    decreases |found| - i
  {
    if i < |found| {
      var (d, q, r) := Enqueue(db, queue, found[i], Smooth);
      OnePostJobs(db, queue, found[i]);
      OnePostKeeps(db, queue, found, i);
      SameCounts(db, d, found, i + 1);
      TickReports(d, q, found, i + 1);
      InFrontThrough(queue, JobsOf(db, found[i]), q, JobsFor(d, found, i + 1), TickFrom(db, queue, found, i, None).queue);
    }
  }

  // ---------- a tick that fails ----------

  /** A failure at the n-th post leaves what the posts before it and that post leave, and ends
      the tick: no later post is looked at. If it is not come to, the tick is as any other. */
  lemma {:induction false} ErrorEndsTick(db: Db, queue: seq<Job>, found: seq<int>, i: nat, n: nat, f: EnqueueFault)
    requires i <= n < |found|
    ensures var before := TickFrom(db, queue, found[..n], i, None);
            var (d, q, r) := Enqueue(before.db, before.queue, found[n], f);
            TickFrom(db, queue, found, i, Some((n, f))) ==
              if r.error then Scanned(d, q, before.jobs, before.failed, true) else TickFrom(db, queue, found, i, None)
    decreases n - i
  {
    if i < n {
      var (d, q, r) := Enqueue(db, queue, found[i], Smooth);
      ErrorEndsTick(d, q, found, i + 1, n, f);
    } else {
      var (d, q, r) := Enqueue(db, queue, found[n], f);
      if !r.error {
        NoErrorIsSmooth(db, queue, found[n], f);
        PassedFault(d, q, found, n + 1, n, f);
      }
    }
  }

  lemma NoErrorIsSmooth(db: Db, queue: seq<Job>, p: int, f: EnqueueFault)
    requires !Enqueue(db, queue, p, f).2.error
    ensures Enqueue(db, queue, p, f) == Enqueue(db, queue, p, Smooth)
  {}

  lemma {:induction false} PassedFault(db: Db, queue: seq<Job>, found: seq<int>, i: nat, n: nat, f: EnqueueFault)
    requires n < i
    ensures TickFrom(db, queue, found, i, Some((n, f))) == TickFrom(db, queue, found, i, None)
    decreases |found| - i
  {
    if i < |found| {
      var (d, q, r) := Enqueue(db, queue, found[i], Smooth);
      PassedFault(d, q, found, i + 1, n, f);
    }
  }

  // ---------- what a scan lists ----------

  /** Scheduled, pending, not deleted, and its time has come. */
  predicate IsDue(posts: map<int, Post>, p: int, now: int) {
    && p in posts && posts[p].status == 1 && posts[p].scheduleStatus == 0 && !posts[p].deleted
    && posts[p].scheduledAt.Some? && posts[p].scheduledAt.value <= now
  }

  ghost predicate NoLater(posts: map<int, Post>, p: int, q: int) {
    && p in posts && q in posts && posts[p].scheduledAt.Some? && posts[q].scheduledAt.Some?
    && posts[p].scheduledAt.value <= posts[q].scheduledAt.value
  }

  ghost predicate ListsDue(posts: map<int, Post>, now: int, found: seq<int>) {
    && Distinct(found) && |found| <= 200
    && (forall p :: p in found ==> IsDue(posts, p, now))
    && (forall i, j :: 0 <= i < j < |found| ==> NoLater(posts, found[i], found[j]))
    && (forall p :: IsDue(posts, p, now) && p !in found ==> |found| == 200 && forall q :: q in found ==> NoLater(posts, q, p))
  }

  /** A scan lists due posts only, each once, earliest first; below 200 it lists them all, and
      at 200 none that is left out was scheduled before one that is listed. */
  lemma ScanListsDuePosts(posts: map<int, Post>, now: int, found: seq<int>)
    ensures IsScan(posts, now, found) <==> ListsDue(posts, now, found)
  {
    assert forall p :: p in posts ==> (posts[p].Due(now) <==> IsDue(posts, p, now));
    if IsScan(posts, now, found) {
      forall p, q | IsDue(posts, p, now) && p !in found && q in found ensures |found| == 200 && NoLater(posts, q, p) {
        var i :| 0 <= i < |found| && found[i] == q;
      }
      forall p | IsDue(posts, p, now) && p !in found ensures |found| == 200 {}
      forall p | p in found ensures IsDue(posts, p, now) {
        var i :| 0 <= i < |found| && found[i] == p;
      }
    }
    if ListsDue(posts, now, found) {
      forall i | 0 <= i < |found| ensures found[i] in posts && posts[found[i]].Due(now) {
        assert found[i] in found;
      }
      forall i, j | 0 <= i < j < |found| ensures posts[found[i]].scheduledAt.value <= posts[found[j]].scheduledAt.value {
        assert NoLater(posts, found[i], found[j]);
      }
      forall p, i | p in posts && posts[p].Due(now) && p !in found && 0 <= i < |found|
        ensures posts[found[i]].scheduledAt.value <= posts[p].scheduledAt.value
      {
        assert found[i] in found && NoLater(posts, found[i], p);
      }
    }
  }
}
