/** What a claimed post looks like while its jobs are open and afterwards. */
module PostStates {
  import opened Tables
  import opened Pipeline
  import opened Tokens
  import opened Invariant

  ghost predicate IsRunning(s: State, p: int) {
    p in s.db.posts && s.db.posts[p].status == SCHEDULED && s.db.posts[p].scheduleStatus == RUNNING
  }

  ghost predicate IsPublished(s: State, p: int) {
    p in s.db.posts && s.db.posts[p].status == PUBLISHED && s.db.posts[p].scheduleStatus == COMPLETE
  }

  ghost predicate IsFailed(s: State, p: int) {
    p in s.db.posts && s.db.posts[p].status == FAILED && s.db.posts[p].scheduleStatus == COMPLETE
  }

  /** Claimed, and no account deletion has taken a row of it away since. */
  ghost predicate Intact(s: State, p: int) {
    p in s.past.claims && s.past.claims[p].gone == {}
  }

  ghost predicate SomeError(s: State, p: int) {
    exists i :: i in s.db.rows && s.db.rows[i].post == p && s.db.rows[i].errors.Some?
  }

  ghost predicate NothingLost(s: State, p: int) {
    forall k :: k in s.past.lost ==> k.post != p
  }

  /** Worker w has counted a settlement of the post and not committed it yet. */
  ghost predicate Deciding(s: State, w: nat, p: int) {
    Busy(s, w) && s.workers[w].Counted? && s.workers[w].job.post == p
  }

  lemma ClaimedPostOk(s: State, p: int)
    requires Inv(s) && p in s.past.claims
    ensures p in s.db.posts && PostOk(s.db.posts[p], s.db.rows, p, s.past.claims[p])
    ensures IsRunning(s, p) || IsPublished(s, p) || IsFailed(s, p)
  {}

  /** While the row of a live or lost job is still there it is pending, and the post runs. */
  lemma OpenRowMeansRunning(s: State, k: Key)
    requires Inv(s) && (k in Live(s) || k in s.past.lost) && HasRow(s.db.rows, k)
    ensures exists i :: i in s.db.rows && s.db.rows[i].At() == k && s.db.rows[i].Pending()
    ensures k.post in s.past.claims && IsRunning(s, k.post)
  {
    var i :| i in s.db.rows && s.db.rows[i].At() == k;
    assert RowOk(s.db.rows[i], s.past.claims, s.past.lost, Live(s));
    JudgeMeaning(s.db.rows, k.post);
    ClaimedPostOk(s, k.post);
  }

  /** In an intact post no job has lost its row. */
  lemma OpenJobMeansRunning(s: State, k: Key)
    requires Inv(s) && Intact(s, k.post) && (k in Live(s) || k in s.past.lost)
    ensures HasRow(s.db.rows, k)
    ensures exists i :: i in s.db.rows && s.db.rows[i].At() == k && s.db.rows[i].Pending()
    ensures IsRunning(s, k.post)
  {
    OpenRowMeansRunning(s, k);
  }

  lemma HeldIsLive(s: State, w: nat)
    requires Busy(s, w)
    ensures s.workers[w].job.At() in Live(s)
  {
    HeldByHas(s.workers, w, s.workers[w].job.At());
  }
}
