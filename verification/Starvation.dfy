/** A due post is not passed over for ever: each error-free tick of one scheduler takes
    200 of the posts ahead of it out of the way (cmd/scheduler/main.go:94-129). */
module Starvation {
  import opened Base
  import opened Tables
  import opened Pipeline
  import opened Shapes

  /** The claimable posts other than p that are scheduled no later than t. */
  function Rivals(posts: map<int, Post>, p: int, t: int): set<int> {
    set q | q in posts && q != p && posts[q].Claimable() && posts[q].scheduledAt.Some? && posts[q].scheduledAt.value <= t
  }

  /** Post p is due and scheduled at t. */
  ghost predicate Waiting(s: State, p: int, t: int) {
    p in s.db.posts && s.db.posts[p].Due(s.now) && s.db.posts[p].scheduledAt == Some(t)
  }

  /** Along the run p stays due, and no other post scheduled no later becomes claimable. */
  ghost predicate Calm(s: State, steps: seq<Step>, p: int, t: int)
    requires Runs(s, steps)
    decreases |steps|
  {
    Waiting(s, p, t) &&
    (steps != [] ==>
       Rivals(Next(s, steps[0]).db.posts, p, t) <= Rivals(s.db.posts, p, t) && Calm(Next(s, steps[0]), steps[1..], p, t))
  }

  /** Scheduler c starts no further scan and meets no error. */
  predicate Clean(steps: seq<Step>, c: nat) {
    forall i | 0 <= i < |steps| ::
      !((steps[i].Scan? || steps[i].PushFails? || steps[i].Stop?) && steps[i].c == c)
  }

  function Todo(scheduler: Scheduler): seq<int> {
    if scheduler.Resting? then [] else scheduler.todo
  }

  /** Of the listed posts, those no longer on the scheduler's list are rivals no more. */
  ghost predicate InTick(s: State, c: nat, found: seq<int>, p: int, t: int) {
    c < |s.schedulers| && forall q :: q in found ==> q in Todo(s.schedulers[c]) || q !in Rivals(s.db.posts, p, t)
  }

  lemma ClaimKeepsTick(s: State, c: nat, found: seq<int>, p: int, t: int)
    requires Enabled(s, ClaimNext(c)) && InTick(s, c, found, p, t)
    requires Rivals(ClaimStep(s, c).db.posts, p, t) <= Rivals(s.db.posts, p, t)
    ensures InTick(ClaimStep(s, c), c, found, p, t)
  {
    var todo, s' := s.schedulers[c].todo, ClaimStep(s, c);
    assert todo == [todo[0]] + todo[1..];
    assert todo[0] in s'.db.posts ==> !s'.db.posts[todo[0]].Claimable();
    assert Todo(s'.schedulers[c]) == todo[1..];
  }

  lemma StepKeepsTick(s: State, step: Step, c: nat, found: seq<int>, p: int, t: int)
    requires Enabled(s, step) && InTick(s, c, found, p, t)
    requires !((step.Scan? || step.PushFails? || step.Stop?) && step.c == c)
    requires Rivals(Next(s, step).db.posts, p, t) <= Rivals(s.db.posts, p, t)
    ensures InTick(Next(s, step), c, found, p, t)
  {
    if step == ClaimNext(c) {
      ClaimKeepsTick(s, c, found, p, t);
    } else {
      OthersKeepTodo(s, step, c);
    }
  }

  lemma OthersKeepTodo(s: State, step: Step, c: nat)
    requires Enabled(s, step) && c < |s.schedulers| && step != ClaimNext(c)
    requires !((step.Scan? || step.PushFails? || step.Stop?) && step.c == c)
    ensures |Next(s, step).schedulers| == |s.schedulers| && Todo(Next(s, step).schedulers[c]) == Todo(s.schedulers[c])
  {
    if OfApi(step) {
      WritesOfApi(s, step);
    } else if InHand(step) {
      HandSteps(s, step);
    } else if OfWorker(step) {
      if !step.Commit? { ExchangeSteps(s, step); }
    } else if step == Push(c) {
      assert Todo(Advanced(s.schedulers[c])) == Todo(s.schedulers[c]);
    } else if !step.ClaimNext? {
      ListingSteps(s, step);
    }
  }

  lemma {:induction false} RunKeepsTick(s: State, steps: seq<Step>, c: nat, found: seq<int>, p: int, t: int)
    requires Runs(s, steps) && Clean(steps, c) && Calm(s, steps, p, t) && InTick(s, c, found, p, t)
    ensures InTick(After(s, steps), c, found, p, t)
    ensures Waiting(After(s, steps), p, t)
    ensures Rivals(After(s, steps).db.posts, p, t) <= Rivals(s.db.posts, p, t)
    decreases |steps|
  {
    if steps != [] {
      StepKeepsTick(s, steps[0], c, found, p, t);
      assert forall i :: 0 <= i < |steps[1..]| ==> steps[1..][i] == steps[i + 1];
      RunKeepsTick(Next(s, steps[0]), steps[1..], c, found, p, t);
    }
  }

  /** While p waits it stays on the list it was found on. */
  lemma {:induction false} WaitingStaysListed(s: State, steps: seq<Step>, c: nat, p: int, t: int)
    requires Runs(s, steps) && Clean(steps, c) && Calm(s, steps, p, t)
    requires c < |s.schedulers| && p in Todo(s.schedulers[c])
    ensures c < |After(s, steps).schedulers| && p in Todo(After(s, steps).schedulers[c])
    decreases |steps|
  {
    if steps != [] {
      if steps[0] == ClaimNext(c) {
        var todo := s.schedulers[c].todo;
        assert todo == [todo[0]] + todo[1..];
        assert Waiting(Next(s, steps[0]), p, t);
      } else {
        OthersKeepTodo(s, steps[0], c);
      }
      assert forall i :: 0 <= i < |steps[1..]| ==> steps[1..][i] == steps[i + 1];
      WaitingStaysListed(Next(s, steps[0]), steps[1..], c, p, t);
    }
  }

  /** One error-free tick of scheduler c: it starts with a scan and leaves c at rest. */
  ghost predicate IsTick(s: State, steps: seq<Step>, c: nat) {
    && Runs(s, steps) && steps != [] && steps[0].Scan? && steps[0].c == c
    && Clean(steps[1..], c)
    && c < |After(s, steps).schedulers| && After(s, steps).schedulers[c].Resting?
  }

  lemma SetOfDistinct(xs: seq<int>)
    requires Distinct(xs)
    ensures |set x | x in xs| == |xs|
  {
    if xs != [] {
      var init, last := xs[..|xs| - 1], xs[|xs| - 1];
      SetOfDistinct(init);
      assert last !in init;
      assert (set x | x in xs) == (set x | x in init) + {last};
    }
  }

  /** A tick that leaves p waiting has removed 200 of its rivals. */
  lemma TickRemovesRivals(s: State, steps: seq<Step>, c: nat, p: int, t: int)
    requires IsTick(s, steps, c) && Calm(s, steps, p, t)
    ensures Waiting(After(s, steps), p, t)
    ensures |Rivals(After(s, steps).db.posts, p, t)| + 200 <= |Rivals(s.db.posts, p, t)|
  {
    var found, s1 := steps[0].found, Next(s, steps[0]);
    assert s1.db == s.db && s1.now == s.now && s1.schedulers[c] == Scanning(found);
    if p in found {
      WaitingStaysListed(s1, steps[1..], c, p, t);
      assert false;
    }
    var listed := set q | q in found;
    SetOfDistinct(found);
    assert |listed| == SCAN_LIMIT;
    var before, after := Rivals(s.db.posts, p, t), Rivals(After(s, steps).db.posts, p, t);
    forall q | q in listed ensures q in before {
      var i :| 0 <= i < |found| && found[i] == q;
    }
    RunKeepsTick(s1, steps[1..], c, found, p, t);
    assert listed !! after && listed + after <= before;
    SubsetSize(listed + after, before);
  }

  lemma SubsetSize(a: set<int>, b: set<int>)
    requires a <= b
    ensures |a| <= |b|
  {
    assert a + (b - a) == b;
  }

  // ---------- several ticks ----------

  /** Consecutive error-free ticks of scheduler c, with anything else going on in between
      and around as long as the run stays calm for p. */
  ghost predicate CalmTicks(s: State, ticks: seq<seq<Step>>, c: nat, p: int, t: int)
    decreases |ticks|
  {
    ticks != [] ==>
      IsTick(s, ticks[0], c) && Calm(s, ticks[0], p, t) && CalmTicks(After(s, ticks[0]), ticks[1..], c, p, t)
  }

  /** A post with r other claimable posts scheduled no later is still waiting after n
      error-free ticks only if 200 n <= r; so it is claimed within r / 200 + 1 ticks,
      whatever order the scan gives posts scheduled at the same time. */
  lemma {:induction false} NoStarvation(s: State, ticks: seq<seq<Step>>, c: nat, p: int, t: int)
    requires CalmTicks(s, ticks, c, p, t)
    ensures 200 * |ticks| <= |Rivals(s.db.posts, p, t)|
    decreases |ticks|
  {
    if ticks != [] {
      TickRemovesRivals(s, ticks[0], c, p, t);
      NoStarvation(After(s, ticks[0]), ticks[1..], c, p, t);
    }
  }
}
