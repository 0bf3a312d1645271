/** How the places a job can be in change: queue, workers' hands, push lists. */
module Tokens {
  import opened Tables
  import opened Pipeline

  lemma {:induction false} HeldByUpdate(workers: seq<Phase>, w: nat, phase: Phase, k: Key)
    requires w < |workers|
    ensures HeldBy(workers[w := phase])[k] + Held(workers[w])[k] == HeldBy(workers)[k] + Held(phase)[k]
  {
    if w == 0 {
      assert workers[w := phase][1..] == workers[1..];
    } else {
      HeldByUpdate(workers[1..], w - 1, phase, k);
      assert workers[w := phase][1..] == workers[1..][w - 1 := phase];
    }
  }

  lemma {:induction false} ToPushByUpdate(schedulers: seq<Scheduler>, c: nat, scheduler: Scheduler, k: Key)
    requires c < |schedulers|
    ensures ToPushBy(schedulers[c := scheduler])[k] + ToPush(schedulers[c])[k] == ToPushBy(schedulers)[k] + ToPush(scheduler)[k]
  {
    if c == 0 {
      assert schedulers[c := scheduler][1..] == schedulers[1..];
    } else {
      ToPushByUpdate(schedulers[1..], c - 1, scheduler, k);
      assert schedulers[c := scheduler][1..] == schedulers[1..][c - 1 := scheduler];
    }
  }

  lemma {:induction false} QueuedLast(queue: seq<Job>)
    requires queue != []
    ensures Queued(queue) == Queued(queue[..|queue| - 1]) + multiset{queue[|queue| - 1].At()}
  {
    if |queue| > 1 {
      QueuedLast(queue[1..]);
      assert queue[..|queue| - 1][1..] == queue[1..][..|queue| - 2];
    }
  }

  lemma QueuedFirst(job: Job, queue: seq<Job>)
    ensures Queued([job] + queue) == multiset{job.At()} + Queued(queue)
  {
    assert ([job] + queue)[1..] == queue;
  }

  lemma {:induction false} QueuedHas(queue: seq<Job>, i: nat)
    requires i < |queue|
    ensures queue[i].At() in Queued(queue)
  {
    if i > 0 {
      QueuedHas(queue[1..], i - 1);
    }
  }

  lemma {:induction false} QueuedFrom(queue: seq<Job>, k: Key)
    requires k in Queued(queue)
    ensures exists i :: 0 <= i < |queue| && queue[i].At() == k
  {
    if queue[0].At() != k {
      QueuedFrom(queue[1..], k);
      var i :| 0 <= i < |queue[1..]| && queue[1..][i].At() == k;
      assert queue[i + 1].At() == k;
    }
  }

  lemma {:induction false} HeldByHas(workers: seq<Phase>, w: nat, k: Key)
    requires w < |workers|
    ensures HeldBy(workers)[k] >= Held(workers[w])[k]
  {
    if w > 0 {
      HeldByHas(workers[1..], w - 1, k);
    }
  }

  lemma HeldByTwo(workers: seq<Phase>, v: nat, w: nat, k: Key)
    requires v < |workers| && w < |workers| && v != w
    ensures HeldBy(workers)[k] >= Held(workers[v])[k] + Held(workers[w])[k]
  {
    HeldByUpdate(workers, v, Idle, k);
    HeldByHas(workers[v := Idle], w, k);
  }

  lemma {:induction false} HeldByFrom(workers: seq<Phase>, k: Key)
    requires k in HeldBy(workers)
    ensures exists w :: 0 <= w < |workers| && !workers[w].Idle? && workers[w].job.At() == k
  {
    if k !in Held(workers[0]) {
      HeldByFrom(workers[1..], k);
      var w :| 0 <= w < |workers[1..]| && !workers[1..][w].Idle? && workers[1..][w].job.At() == k;
      assert workers[w + 1].job.At() == k;
    } else {
      assert workers[0].job.At() == k;
    }
  }

  lemma {:induction false} ToPushByHas(schedulers: seq<Scheduler>, c: nat, k: Key)
    requires c < |schedulers|
    ensures ToPushBy(schedulers)[k] >= ToPush(schedulers[c])[k]
  {
    if c > 0 {
      ToPushByHas(schedulers[1..], c - 1, k);
    }
  }

  lemma {:induction false} KeysAre(p: int, accounts: seq<int>, k: Key)
    ensures k in Keys(p, accounts) <==> k.post == p && k.account in accounts
    ensures Distinct(accounts) ==> Keys(p, accounts)[k] <= 1
    ensures k in Keys(p, accounts) <==> k in LostKeys(p, accounts)
  {
    if accounts != [] {
      KeysAre(p, accounts[1..], k);
      assert accounts == [accounts[0]] + accounts[1..];
      assert Distinct(accounts) ==> Distinct(accounts[1..]);
      if Distinct(accounts) && accounts[0] in accounts[1..] {
        var i :| 0 <= i < |accounts[1..]| && accounts[1..][i] == accounts[0];
        assert accounts[i + 1] == accounts[0];
      }
    }
  }

  /** When no job exists twice, the one in worker w's hands is nowhere else. */
  lemma SoleHolder(s: State, w: nat)
    requires w < |s.workers| && !s.workers[w].Idle?
    requires Live(s)[s.workers[w].job.At()] <= 1
    ensures var k := s.workers[w].job.At();
            && Live(s)[k] == 1
            && k !in Queued(s.queue) && k !in ToPushBy(s.schedulers)
            && (forall i :: 0 <= i < |s.queue| ==> s.queue[i].At() != k)
            && (forall v :: 0 <= v < |s.workers| && v != w && !s.workers[v].Idle? ==> s.workers[v].job.At() != k)
  {
    var k := s.workers[w].job.At();
    HeldByHas(s.workers, w, k);
    forall i | 0 <= i < |s.queue| ensures s.queue[i].At() != k {
      QueuedHas(s.queue, i);
    }
    forall v | 0 <= v < |s.workers| && v != w && !s.workers[v].Idle? ensures s.workers[v].job.At() != k {
      HeldByTwo(s.workers, v, w, k);
    }
  }
}
