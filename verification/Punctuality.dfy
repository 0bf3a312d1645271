/** When a claim is on time. The claim does not look at `scheduled_at` again
    (cmd/scheduler/main.go:150-159), so it depends on what was written since the scan. */
module Punctuality {
  import opened Base
  import opened Posts
  import opened Pipeline
  import opened Invariant
  import opened Shapes
  import opened Reach
  import opened Lifecycle
  import opened Starvation

  ghost predicate OnTime(s: State, p: int) {
    p in s.db.posts && s.db.posts[p].scheduledAt.Some? && s.db.posts[p].scheduledAt.value <= s.now
  }

  /** The form of the last update of p along the run. */
  function LastEdit(steps: seq<Step>, p: int): Option<PostForm> {
    if steps == [] then None
    else
      var later := LastEdit(steps[1..], p);
      if later.Some? then later
      else if steps[0].EditPost? && steps[0].p == p then Some(steps[0].form)
      else None
  }

  lemma CommitKeepsSchedule(s: State, w: nat, p: int)
    requires Busy(s, w) && s.workers[w].Counted? && p in s.db.posts
    ensures p in CommitStep(s, w).db.posts && CommitStep(s, w).db.posts[p].scheduledAt == s.db.posts[p].scheduledAt
    ensures CommitStep(s, w).now == s.now
  {}

  lemma ClaimKeepsSchedule(s: State, c: nat, p: int)
    requires c < |s.schedulers| && s.schedulers[c].Scanning? && s.schedulers[c].todo != [] && p in s.db.posts
    ensures p in ClaimStep(s, c).db.posts && ClaimStep(s, c).db.posts[p].scheduledAt == s.db.posts[p].scheduledAt
    ensures ClaimStep(s, c).now == s.now
  {}

  lemma StepKeepsSchedule(s: State, step: Step, p: int)
    requires Inv(s) && Enabled(s, step) && p in s.db.posts && !(step.EditPost? && step.p == p)
    ensures p in Next(s, step).db.posts && Next(s, step).db.posts[p].scheduledAt == s.db.posts[p].scheduledAt
    ensures s.now <= Next(s, step).now
  {
    if step.Commit? {
      CommitKeepsSchedule(s, step.w, p);
    } else if step.ClaimNext? {
      ClaimKeepsSchedule(s, step.c, p);
    } else if OfApi(step) {
      ApiKeepsPost(s, step, p);
    } else {
      OthersOnlyMove(s, step);
    }
  }

  lemma EditSetsSchedule(s: State, p: int, form: PostForm)
    requires UpdatePost(s.db, p, form).Ok?
    ensures var d := UpdatePost(s.db, p, form).value; p in d.posts && d.posts[p].scheduledAt == form.scheduledAt
  {
    SaveUnfolds(s.db, p, form);
  }

  /** A post is scheduled for what its last update said, else for what it was before; and
      the clock never goes back. */
  lemma {:induction false} ScheduleFollowsEdits(s: State, steps: seq<Step>, p: int)
    requires Inv(s) && Runs(s, steps) && p in s.db.posts
    ensures p in After(s, steps).db.posts && s.now <= After(s, steps).now
    ensures var last := LastEdit(steps, p);
            After(s, steps).db.posts[p].scheduledAt == if last.Some? then last.value.scheduledAt else s.db.posts[p].scheduledAt
    decreases |steps|
  {
    if steps != [] {
      StepKeepsInv(s, steps[0]);
      if steps[0].EditPost? && steps[0].p == p {
        EditSetsSchedule(s, p, steps[0].form);
      } else {
        StepKeepsSchedule(s, steps[0], p);
      }
      ScheduleFollowsEdits(Next(s, steps[0]), steps[1..], p);
    }
  }

  lemma StepShrinksTodo(s: State, step: Step, c: nat, p: int)
    requires Enabled(s, step) && c < |s.schedulers| && !((step.Scan? || step.PushFails? || step.Stop?) && step.c == c)
    ensures c < |Next(s, step).schedulers|
    ensures p in Todo(Next(s, step).schedulers[c]) ==> p in Todo(s.schedulers[c])
  {
    if step == ClaimNext(c) {
      var todo := s.schedulers[c].todo;
      assert todo == [todo[0]] + todo[1..];
    } else {
      OthersKeepTodo(s, step, c);
    }
  }

  /** Without a further scan a list only loses posts. */
  lemma {:induction false} ListedWasFound(s: State, steps: seq<Step>, c: nat, p: int)
    requires Runs(s, steps) && Clean(steps, c) && c < |s.schedulers|
    ensures c < |After(s, steps).schedulers|
    ensures p in Todo(After(s, steps).schedulers[c]) ==> p in Todo(s.schedulers[c])
    decreases |steps|
  {
    if steps != [] {
      StepShrinksTodo(s, steps[0], c, p);
      assert forall i :: 0 <= i < |steps[1..]| ==> steps[1..][i] == steps[i + 1];
      ListedWasFound(Next(s, steps[0]), steps[1..], c, p);
    }
  }

  lemma FoundIsDue(s: State, c: nat, found: seq<int>, p: int)
    requires Enabled(s, Scan(c, found)) && p in found
    ensures p in s.db.posts && s.db.posts[p].Due(s.now)
  {}

  /** Whenever a scheduler comes to a post of its list, the post is on time if nobody updated
      it since the scan, and then it is still scheduled for the time it was found with; if it
      was updated, claiming it is early exactly when the last update stored no time or a
      time still to come. */
  lemma EarlyExactlyWhenRescheduled(s: State, c: nat, found: seq<int>, steps: seq<Step>, s': State, p: int)
    requires Reachable(s) && Enabled(s, Scan(c, found))
    requires Runs(Next(s, Scan(c, found)), steps) && Clean(steps, c) && s' == After(Next(s, Scan(c, found)), steps)
    requires c < |s'.schedulers| && p in Todo(s'.schedulers[c])
    ensures LastEdit(steps, p).None? ==>
              OnTime(s', p) && p in s.db.posts && s'.db.posts[p].scheduledAt == s.db.posts[p].scheduledAt
    ensures LastEdit(steps, p).Some? ==>
              var at := LastEdit(steps, p).value.scheduledAt;
              !OnTime(s', p) <==> at.None? || at.value > s'.now
  {
    ReachableInv(s);
    var s1 := Next(s, Scan(c, found));
    StepKeepsInv(s, Scan(c, found));
    assert s1.schedulers[c] == Scanning(found) && s1.db == s.db && s1.now == s.now;
    ListedWasFound(s1, steps, c, p);
    FoundIsDue(s, c, found, p);
    ScheduleFollowsEdits(s1, steps, p);
  }
}
