/** The scheduler's code (cmd/scheduler/main.go:90-230): claiming one post and pushing its
    jobs, and one tick over the scanned posts. Each is proved against a function on the
    tables and the queue, and the function against a run of the step system. */
module SchedulerLoop {
  import opened Base
  import opened Tables
  import opened Pipeline
  import opened Reach

  /** The Redis list: LPUSH at the front, BRPOP at the back. */
  class JobQueue {
    var jobs: seq<Job>

    constructor ()
      ensures jobs == []
    {
      jobs := [];
    }

    method LPush(job: Job)
      modifies this
      ensures jobs == [job] + old(jobs)
    {
      jobs := [job] + jobs;
    }

    method BRPop() returns (job: Option<Job>)
      modifies this
      ensures old(jobs) == [] ==> job == None && jobs == []
      ensures old(jobs) != [] ==> job.Some? && old(jobs) == jobs + [job.value]
    {
      if jobs == [] {
        return None;
      }
      job := Some(jobs[|jobs| - 1]);
      jobs := jobs[..|jobs| - 1];
    }
  }

  /** Where enqueuePost can fail: before or at its commit, which may have taken effect all
      the same, or at the n-th LPUSH, whose job may have arrived all the same. */
  datatype EnqueueFault = Smooth | ClaimAborts | ClaimUnheard | PushAborts(n: nat, arrived: bool)

  datatype Enqueued = Enqueued(jobs: nat, failed: bool, error: bool)

  /** The queue after pushing a job for each account in turn. */
  function Pushed(queue: seq<Job>, p: int, accounts: seq<int>): seq<Job>
    decreases |accounts|
  {
    if accounts == [] then queue else Pushed([Job(p, accounts[0], 1)] + queue, p, accounts[1..])
  }

  predicate CanClaim(db: Db, p: int) {
    p in db.posts && db.posts[p].Claimable()
  }

  /** The accounts read by the claim; none if the claim finds nothing to update. */
  function Targets(db: Db, p: int): seq<int> {
    if CanClaim(db, p) then AccountsOf(db.rows, db.nextRow, p) else []
  }

  /** The tables after the claim's transaction. */
  function ClaimTables(db: Db, p: int): Db {
    if !CanClaim(db, p) then db
    else if Targets(db, p) == [] then
      db.(posts := db.posts[p := db.posts[p].(status := FAILED, scheduleStatus := COMPLETE)])
    else
      db.(posts := db.posts[p := db.posts[p].(scheduleStatus := RUNNING)])
  }

  predicate PushFaultMet(targets: seq<int>, fault: EnqueueFault) {
    fault.PushAborts? && fault.n < |targets|
  }

  /** The accounts whose jobs arrive. */
  function Delivered(targets: seq<int>, fault: EnqueueFault): seq<int> {
    if !PushFaultMet(targets, fault) then targets
    else if fault.arrived then targets[..fault.n + 1]
    else targets[..fault.n]
  }

  /** The jobs enqueuePost knows to have arrived. */
  function Reported(targets: seq<int>, fault: EnqueueFault): nat {
    if PushFaultMet(targets, fault) then fault.n else |targets|
  }

  function Enqueue(db: Db, queue: seq<Job>, p: int, fault: EnqueueFault): (Db, seq<Job>, Enqueued) {
    if fault.ClaimAborts? then (db, queue, Enqueued(0, false, true))
    else if fault.ClaimUnheard? && CanClaim(db, p) then (ClaimTables(db, p), queue, Enqueued(0, false, true))
    else
      var targets := Targets(db, p);
      (ClaimTables(db, p), Pushed(queue, p, Delivered(targets, fault)),
       Enqueued(Reported(targets, fault), CanClaim(db, p) && targets == [], PushFaultMet(targets, fault)))
  }

  method EnqueuePost(db: Database, queue: JobQueue, p: int, fault: EnqueueFault) returns (r: Enqueued)
    modifies db, queue
    ensures (db.Snapshot(), queue.jobs, r) == Enqueue(old(db.Snapshot()), old(queue.jobs), p, fault)
  {
    ghost var begun := db.Snapshot();
    if fault.ClaimAborts? {
      return Enqueued(0, false, true);
    }
    if p !in db.posts || !db.posts[p].Claimable() {
      return Enqueued(0, false, false);
    }
    var post := db.posts[p];
    db.posts := db.posts[p := post.(scheduleStatus := RUNNING)];
    var accounts := AccountsOf(db.rows, db.nextRow, p);
    if |accounts| == 0 {
      db.posts := db.posts[p := post.(status := FAILED, scheduleStatus := COMPLETE)];
      assert db.posts == begun.posts[p := post.(status := FAILED, scheduleStatus := COMPLETE)];
      return Enqueued(0, !fault.ClaimUnheard?, fault.ClaimUnheard?);
    }
    if fault.ClaimUnheard? {
      return Enqueued(0, false, true);
    }
    for i := 0 to |accounts|
      invariant db.Snapshot() == ClaimTables(begun, p)
      invariant queue.jobs == Pushed(old(queue.jobs), p, accounts[..i])
      invariant fault.PushAborts? ==> i <= fault.n
    {
      PushedOne(old(queue.jobs), p, accounts[..i], accounts[i]);
      assert accounts[..i] + [accounts[i]] == accounts[..i + 1];
      if fault.PushAborts? && fault.n == i {
        if fault.arrived {
          queue.LPush(Job(p, accounts[i], 1));
        }
        return Enqueued(i, false, true);
      }
      queue.LPush(Job(p, accounts[i], 1));
    }
    assert accounts[..|accounts|] == accounts;
    r := Enqueued(|accounts|, false, false);
  }

  lemma {:induction false} PushedOne(queue: seq<Job>, p: int, accounts: seq<int>, a: int)
    ensures Pushed(queue, p, accounts + [a]) == [Job(p, a, 1)] + Pushed(queue, p, accounts)
    decreases |accounts|
  {
    if accounts == [] {
      assert ([a])[1..] == [];
    } else {
      PushedOne([Job(p, accounts[0], 1)] + queue, p, accounts[1..], a);
      assert (accounts + [a])[1..] == accounts[1..] + [a];
    }
  }

  /** The first attempts for the accounts, the last account's in front. */
  function Backwards(p: int, accounts: seq<int>): (jobs: seq<Job>)
    ensures |jobs| == |accounts|
    ensures forall i :: 0 <= i < |jobs| ==> jobs[i] == Job(p, accounts[|accounts| - 1 - i], 1)
  {
    if accounts == [] then [] else Backwards(p, accounts[1..]) + [Job(p, accounts[0], 1)]
  }

  /** The new jobs stand in front of the old ones and the first account's job is the
      first of them to be popped. */
  lemma {:induction false} PushedIsFifo(queue: seq<Job>, p: int, accounts: seq<int>)
    ensures Pushed(queue, p, accounts) == Backwards(p, accounts) + queue
    decreases |accounts|
  {
    if accounts != [] {
      PushedIsFifo([Job(p, accounts[0], 1)] + queue, p, accounts[1..]);
    }
  }

  // ---------- one tick ----------

  datatype Scanned = Scanned(db: Db, queue: seq<Job>, jobs: nat, failed: nat, error: bool)

  /** A fault, if any, meets the post at one place of the scan. */
  function FaultAt(fault: Option<(nat, EnqueueFault)>, i: nat): EnqueueFault {
    if fault.Some? && fault.value.0 == i then fault.value.1 else Smooth
  }

  /** The rest of a tick from the i-th scanned post on; an error ends it. */
  function TickFrom(db: Db, queue: seq<Job>, found: seq<int>, i: nat, fault: Option<(nat, EnqueueFault)>): Scanned
    decreases |found| - i
  {
    if i >= |found| then Scanned(db, queue, 0, 0, false)
    else
      var (d, q, r) := Enqueue(db, queue, found[i], FaultAt(fault, i));
      if r.error then Scanned(d, q, 0, 0, true)
      else
        var rest := TickFrom(d, q, found, i + 1, fault);
        rest.(jobs := r.jobs + rest.jobs, failed := (if r.failed then 1 else 0) + rest.failed)
  }

  /** `stampFails` tells whether writing the time of the run to Redis fails at the end. */
  method ScanAndEnqueueDuePosts(db: Database, queue: JobQueue, now: int, found: seq<int>,
                                fault: Option<(nat, EnqueueFault)>, stampFails: bool)
    returns (enqueuedJobs: nat, failedPosts: nat, error: bool)
    requires IsScan(db.posts, now, found)
    modifies db, queue
    ensures var tick := TickFrom(old(db.Snapshot()), old(queue.jobs), found, 0, fault);
            && db.Snapshot() == tick.db && queue.jobs == tick.queue && error == (tick.error || stampFails)
            && enqueuedJobs == tick.jobs && failedPosts == tick.failed
  {
    enqueuedJobs, failedPosts, error := 0, 0, true;
    ghost var tick := TickFrom(db.Snapshot(), queue.jobs, found, 0, fault);
    for i := 0 to |found|
      invariant var rest := TickFrom(db.Snapshot(), queue.jobs, found, i, fault);
                && rest.db == tick.db && rest.queue == tick.queue && rest.error == tick.error
                && enqueuedJobs + rest.jobs == tick.jobs && failedPosts + rest.failed == tick.failed
      invariant error
    {
      var r := EnqueuePost(db, queue, found[i], FaultAt(fault, i));
      if r.error {
        return;
      }
      enqueuedJobs := enqueuedJobs + r.jobs;
      if r.failed {
        failedPosts := failedPosts + 1;
      }
    }
    error := stampFails;
  }

  /** After an error-free tick none of the scanned posts can be claimed again, every other
      post is as it was, and the queue has grown by the reported number of jobs. */
  lemma {:induction false} TickClaimsWhatItFound(db: Db, queue: seq<Job>, found: seq<int>, i: nat)
    requires i <= |found|
    ensures var tick := TickFrom(db, queue, found, i, None);
            && !tick.error && |tick.queue| == |queue| + tick.jobs
            && tick.db == db.(posts := tick.db.posts) && tick.db.posts.Keys == db.posts.Keys
            && (forall p :: p in found[i..] ==> !CanClaim(tick.db, p))
            && (forall p :: !CanClaim(db, p) ==> !CanClaim(tick.db, p))
            && (forall p :: p in db.posts && p !in found[i..] ==> tick.db.posts[p] == db.posts[p])
    decreases |found| - i
  {
    if i < |found| {
      var (d, q, r) := Enqueue(db, queue, found[i], Smooth);
      assert !CanClaim(d, found[i]);
      TickClaimsWhatItFound(d, q, found, i + 1);
      PushedIsFifo(queue, found[i], Targets(db, found[i]));
      assert found[i..] == [found[i]] + found[i + 1..];
    }
  }

  // ---------- the run behind the code ----------

  function PushSteps(c: nat, n: nat): seq<Step> {
    if n == 0 then [] else [Push(c)] + PushSteps(c, n - 1)
  }

  /** After the first n pushes of a claimed post. */
  function AfterPushes(s: State, c: nat, n: nat): State
    requires c < |s.schedulers| && s.schedulers[c].Pushing? && n <= |s.schedulers[c].accounts|
  {
    var scheduler := s.schedulers[c];
    var accounts := scheduler.accounts;
    var rest := if n == |accounts| then Scanning(scheduler.todo) else scheduler.(accounts := accounts[n..]);
    s.(queue := Pushed(s.queue, scheduler.post, accounts[..n]), schedulers := s.schedulers[c := rest])
  }

  lemma OneMorePush(s: State, c: nat, n: nat)
    requires c < |s.schedulers| && s.schedulers[c].Pushing? && 0 < n <= |s.schedulers[c].accounts|
    ensures AfterPushes(s, c, n) ==
              if |s.schedulers[c].accounts| == 1 then PushStep(s, c) else AfterPushes(PushStep(s, c), c, n - 1)
  {
    var accounts := s.schedulers[c].accounts;
    assert accounts[..n][0] == accounts[0] && accounts[..n][1..] == accounts[1..][..n - 1];
    assert accounts[1..][n - 1..] == accounts[n..];
    if |accounts| == 1 {
      assert n == 1 && accounts[..n][1..] == [];
      assert Pushed(s.queue, s.schedulers[c].post, accounts[..n]) == [Job(s.schedulers[c].post, accounts[0], 1)] + s.queue;
    } else {
      var s1, s2 := PushStep(s, c), AfterPushes(PushStep(s, c), c, n - 1);
      assert s2.schedulers == s.schedulers[c := s2.schedulers[c]];
    }
  }

  lemma {:induction false} PushRun(s: State, c: nat, n: nat)
    requires c < |s.schedulers| && s.schedulers[c].Pushing? && s.schedulers[c].accounts != []
    requires n <= |s.schedulers[c].accounts|
    ensures Runs(s, PushSteps(c, n)) && After(s, PushSteps(c, n)) == AfterPushes(s, c, n)
    decreases n
  {
    var scheduler, s1 := s.schedulers[c], PushStep(s, c);
    if n == 0 {
      assert scheduler.accounts[..0] == [] && scheduler.accounts[0..] == scheduler.accounts;
      assert s.schedulers[c := scheduler] == s.schedulers;
    } else {
      OneMorePush(s, c, n);
      assert PushSteps(c, n)[1..] == PushSteps(c, n - 1) && PushSteps(c, n)[0] == Push(c);
      assert Next(s, Push(c)) == s1;
      if |scheduler.accounts| > 1 {
        PushRun(s1, c, n - 1);
      } else {
        assert PushSteps(c, 0) == [];
      }
    }
  }

  /** The steps behind one enqueuePost. A failed claim is a scan that ends; a claim that took
      effect unheard, or a push that fails, ends the scan with the rest of the jobs lost. */
  function EnqueueSteps(c: nat, claims: bool, targets: seq<int>, fault: EnqueueFault): seq<Step> {
    if fault.ClaimAborts? then [Stop(c)]
    else if fault.ClaimUnheard? && claims then [ClaimNext(c), Stop(c)]
    else if PushFaultMet(targets, fault) then [ClaimNext(c)] + (PushSteps(c, fault.n) + [PushFails(c, fault.arrived)])
    else [ClaimNext(c)] + PushSteps(c, |targets|)
  }

  /** What an enqueue does to scheduler c, next to tables and queue. */
  ghost predicate Enqueues(s: State, s': State, c: nat, fault: EnqueueFault)
    requires Enabled(s, ClaimNext(c))
  {
    var (db, queue, r) := Enqueue(s.db, s.queue, s.schedulers[c].todo[0], fault);
    && s'.db == db && s'.queue == queue && s'.workers == s.workers
    && s'.schedulers == s.schedulers[c := if r.error then Resting else Scanning(s.schedulers[c].todo[1..])]
  }

  lemma ClaimThen(s: State, c: nat, rest: seq<Step>)
    requires Enabled(s, ClaimNext(c)) && Runs(ClaimStep(s, c), rest)
    ensures Runs(s, [ClaimNext(c)] + rest) && After(s, [ClaimNext(c)] + rest) == After(ClaimStep(s, c), rest)
  {
    assert Next(s, ClaimNext(c)) == ClaimStep(s, c);
    RunsFrom(s, ClaimNext(c), rest);
  }

  lemma StopRun(s: State, c: nat)
    requires c < |s.schedulers| && !s.schedulers[c].Resting?
    ensures Runs(s, [Stop(c)]) && After(s, [Stop(c)]) == StopStep(s, c)
  {
    assert [Stop(c)][1..] == [];
    assert Next(s, Stop(c)) == StopStep(s, c);
  }

  /** A push that fails after n others. */
  lemma FailedPushRun(s: State, c: nat, n: nat, arrived: bool)
    requires c < |s.schedulers| && s.schedulers[c].Pushing? && n < |s.schedulers[c].accounts|
    ensures var steps, accounts := PushSteps(c, n) + [PushFails(c, arrived)], s.schedulers[c].accounts;
            && Runs(s, steps)
            && After(s, steps).db == s.db && After(s, steps).workers == s.workers
            && After(s, steps).queue
               == Pushed(s.queue, s.schedulers[c].post, if arrived then accounts[..n + 1] else accounts[..n])
            && After(s, steps).schedulers == s.schedulers[c := Resting]
  {
    var p, accounts := s.schedulers[c].post, s.schedulers[c].accounts;
    PushRun(s, c, n);
    var s1 := After(s, PushSteps(c, n));
    RunsOn(s, PushSteps(c, n), PushFails(c, arrived));
    PushedOne(s.queue, p, accounts[..n], accounts[n]);
    assert accounts[..n] + [accounts[n]] == accounts[..n + 1] && accounts[n..][0] == accounts[n];
    assert s.schedulers[c := s1.schedulers[c]][c := Resting] == s.schedulers[c := Resting];
  }

  lemma SmoothRun(s: State, c: nat, fault: EnqueueFault)
    requires Enabled(s, ClaimNext(c)) && !fault.ClaimAborts?
    requires var p := s.schedulers[c].todo[0];
             (fault.ClaimUnheard? ==> !CanClaim(s.db, p)) && !PushFaultMet(Targets(s.db, p), fault)
    ensures var steps := [ClaimNext(c)] + PushSteps(c, |Targets(s.db, s.schedulers[c].todo[0])|);
            Runs(s, steps) && Enqueues(s, After(s, steps), c, fault)
  {
    var p, rest := s.schedulers[c].todo[0], s.schedulers[c].todo[1..];
    var accounts, s1 := Targets(s.db, p), ClaimStep(s, c);
    if accounts == [] {
      assert Runs(s1, []) && After(s1, []) == s1;
    } else {
      PushRun(s1, c, |accounts|);
      assert accounts[..|accounts|] == accounts;
      assert s1.schedulers[c := Scanning(rest)] == s.schedulers[c := Scanning(rest)];
    }
    ClaimThen(s, c, PushSteps(c, |accounts|));
  }

  lemma FailedPushIsRun(s: State, c: nat, n: nat, arrived: bool)
    requires Enabled(s, ClaimNext(c)) && n < |Targets(s.db, s.schedulers[c].todo[0])|
    ensures var steps := [ClaimNext(c)] + (PushSteps(c, n) + [PushFails(c, arrived)]);
            Runs(s, steps) && Enqueues(s, After(s, steps), c, PushAborts(n, arrived))
  {
    var s1 := ClaimStep(s, c);
    FailedPushRun(s1, c, n, arrived);
    assert s1.schedulers[c := Resting] == s.schedulers[c := Resting];
    ClaimThen(s, c, PushSteps(c, n) + [PushFails(c, arrived)]);
  }

  /** enqueuePost, whatever fails in it, is a run of its scheduler: it ends with the tables
      and the queue the code leaves, and goes on with the scan exactly if it saw no error. */
  lemma EnqueueIsRun(s: State, c: nat, fault: EnqueueFault)
    requires Enabled(s, ClaimNext(c))
    ensures var p := s.schedulers[c].todo[0];
            var steps := EnqueueSteps(c, CanClaim(s.db, p), Targets(s.db, p), fault);
            Runs(s, steps) && Enqueues(s, After(s, steps), c, fault)
  {
    var p, s1 := s.schedulers[c].todo[0], ClaimStep(s, c);
    if fault.ClaimAborts? {
      StopRun(s, c);
    } else if fault.ClaimUnheard? && CanClaim(s.db, p) {
      StopRun(s1, c);
      ClaimThen(s, c, [Stop(c)]);
      assert [ClaimNext(c)] + [Stop(c)] == [ClaimNext(c), Stop(c)];
      assert s1.schedulers[c := Resting] == s.schedulers[c := Resting];
    } else if PushFaultMet(Targets(s.db, p), fault) {
      FailedPushIsRun(s, c, fault.n, fault.arrived);
    } else {
      SmoothRun(s, c, fault);
    }
  }

  /** What a tick leaves, and that the scheduler rests again. */
  ghost predicate Ticks(s: State, s': State, c: nat, tick: Scanned) {
    && c < |s.schedulers| && s'.schedulers == s.schedulers[c := Resting]
    && s'.db == tick.db && s'.queue == tick.queue && s'.workers == s.workers
  }

  /** The rest of a tick, from the i-th scanned post on, is a run of its scheduler. */
  lemma {:induction false} RestOfTickIsRun(s: State, c: nat, found: seq<int>, i: nat,
                                           fault: Option<(nat, EnqueueFault)>)
    returns (steps: seq<Step>)
    requires c < |s.schedulers| && i <= |found| && s.schedulers[c] == Scanning(found[i..])
    ensures Runs(s, steps) && Ticks(s, After(s, steps), c, TickFrom(s.db, s.queue, found, i, fault))
    decreases |found| - i
  {
    if i == |found| {
      steps := [EndScan(c)];
      assert steps[1..] == [] && found[i..] == [];
    } else {
      var p, f := found[i], FaultAt(fault, i);
      assert found[i..][0] == p && found[i..][1..] == found[i + 1..];
      steps := EnqueueSteps(c, CanClaim(s.db, p), Targets(s.db, p), f);
      EnqueueIsRun(s, c, f);
      var s1 := After(s, steps);
      if !Enqueue(s.db, s.queue, p, f).2.error {
        var rest := RestOfTickIsRun(s1, c, found, i + 1, fault);
        RunsThrough(s, steps, rest);
        steps := steps + rest;
        assert s1.schedulers[c := Resting] == s.schedulers[c := Resting];
      }
    }
  }

  /** scanAndEnqueueDuePosts, whatever fails in it, is a run of its scheduler from rest to
      rest: the scan, and what it does for each scanned post in turn. */
  lemma TickIsRun(s: State, c: nat, found: seq<int>, fault: Option<(nat, EnqueueFault)>) returns (steps: seq<Step>)
    requires c < |s.schedulers| && s.schedulers[c].Resting? && IsScan(s.db.posts, s.now, found)
    ensures Runs(s, steps) && Ticks(s, After(s, steps), c, TickFrom(s.db, s.queue, found, 0, fault))
  {
    var s1 := s.(schedulers := s.schedulers[c := Scanning(found)]);
    assert found[0..] == found;
    var rest := RestOfTickIsRun(s1, c, found, 0, fault);
    steps := [Scan(c, found)] + rest;
    assert steps[0] == Scan(c, found) && steps[1..] == rest && Next(s, Scan(c, found)) == s1;
    assert s1.schedulers[c := Resting] == s.schedulers[c := Resting];
  }
}
