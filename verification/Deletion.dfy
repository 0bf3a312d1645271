/** A deleted post is gone for the pipeline: no scan lists it, no claim starts it, no request
    finds it, over every run after the deletion. */
module Deletion {
  import opened Base
  import opened Tables
  import opened Posts
  import opened Pipeline
  import opened Invariant
  import opened Shapes
  import opened Reach
  import opened Lifecycle

  ghost predicate Gone(db: Db, p: int) {
    p in db.posts && db.posts[p].deleted
  }

  lemma CommitKeepsGone(s: State, w: nat, p: int)
    requires Busy(s, w) && s.workers[w].Counted? && Gone(s.db, p)
    ensures Gone(CommitStep(s, w).db, p)
  {}

  lemma ClaimKeepsGone(s: State, c: nat, p: int)
    requires c < |s.schedulers| && s.schedulers[c].Scanning? && s.schedulers[c].todo != [] && Gone(s.db, p)
    ensures Gone(ClaimStep(s, c).db, p)
  {}

  lemma StepKeepsGone(s: State, step: Step, p: int)
    requires Inv(s) && Enabled(s, step) && Gone(s.db, p)
    ensures Gone(Next(s, step).db, p)
  {
    if step.Commit? {
      CommitKeepsGone(s, step.w, p);
    } else if step.ClaimNext? {
      ClaimKeepsGone(s, step.c, p);
    } else if OfApi(step) {
      ApiKeepsPost(s, step, p);
    } else {
      OthersOnlyMove(s, step);
    }
  }

  lemma {:induction false} RunKeepsGone(s: State, steps: seq<Step>, p: int)
    requires Inv(s) && Runs(s, steps) && Gone(s.db, p)
    ensures Inv(After(s, steps)) && Gone(After(s, steps).db, p)
    decreases |steps|
  {
    if steps != [] {
      StepKeepsInv(s, steps[0]);
      StepKeepsGone(s, steps[0], p);
      RunKeepsGone(Next(s, steps[0]), steps[1..], p);
    }
  }

  /** Nothing finds a post that is gone: it is on no scan list, a scheduler that has it on an
      older list passes over it, and updating or deleting it is answered with "not found". */
  ghost predicate Unseen(s: State, p: int) {
    && (forall found :: IsScan(s.db.posts, s.now, found) ==> p !in found)
    && (forall c: nat :: Enabled(s, ClaimNext(c)) && s.schedulers[c].todo[0] == p ==> PassesOver(s, c))
    && (forall form :: UpdatePost(s.db, p, form) == Err(NotFound))
    && DeletePost(s.db, p) == Err(NotFound)
  }

  /** The claim changes nothing but the scheduler's list. */
  ghost predicate PassesOver(s: State, c: nat)
    requires Enabled(s, ClaimNext(c))
  {
    Next(s, ClaimNext(c)) == s.(schedulers := s.schedulers[c := Scanning(s.schedulers[c].todo[1..])])
  }

  lemma GoneIsUnseen(s: State, p: int)
    requires Gone(s.db, p)
    ensures Unseen(s, p)
  {
    forall c: nat | Enabled(s, ClaimNext(c)) && s.schedulers[c].todo[0] == p ensures PassesOver(s, c) {
      assert Next(s, ClaimNext(c)) == ClaimStep(s, c);
    }
  }

  /** From its deletion on, at every point of every run, nothing finds the post. */
  lemma DeletedForGood(s: State, p: int, steps: seq<Step>)
    requires Reachable(s) && Enabled(s, RemovePost(p)) && Runs(Next(s, RemovePost(p)), steps)
    ensures p in s.db.posts && !s.db.posts[p].deleted
    ensures Unseen(After(Next(s, RemovePost(p)), steps), p)
  {
    ReachableInv(s);
    DeletionMarks(s.db, p);
    StepKeepsInv(s, RemovePost(p));
    RunKeepsGone(Next(s, RemovePost(p)), steps, p);
    GoneIsUnseen(After(Next(s, RemovePost(p)), steps), p);
  }
}
