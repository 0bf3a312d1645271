/** The commit of a settlement keeps the pipeline's invariant: the verdict is right for
    the rows it is committed with, and every count still open learns it was overtaken. */
module CommitSteps {
  import opened Providers
  import opened Tables
  import opened Pipeline
  import opened Tokens
  import opened Invariant
  import opened WorkerSteps

  /** The post that is settled. */
  lemma SettledPostOk(post: Post, rows: map<int, Row>, claim: Claim, phase: Phase)
    requires phase.Counted?
    requires var k := phase.job.At();
             && PostOk(post, rows, k.post, claim) && CountOk(phase, rows, claim)
             && (if HasRow(rows, k) then Judge(rows, k.post) == Unfinished && !AllPosted(rows, k.post)
                 else Changed(rows, k, phase.change) == rows)
             && k.account in claim.accounts
             && (claim.finals > 0 ==> k.account in claim.goneThen)
             && (forall i :: i in rows && rows[i].At() == k ==> rows[i].Pending())
    ensures PostOk(FinalPost(post, phase.verdict, phase.at), Changed(rows, phase.job.At(), phase.change),
                   phase.job.post, AfterCommit(claim, phase))
  {
    var k := phase.job.At();
    var view := Changed(rows, k, phase.change);
    ViewOfChange(rows, k, phase.change);
    JudgeMeaning(view, k.post);
    SettledHistoryOk(rows, claim, phase);
  }

  lemma SettledHistoryOk(rows: map<int, Row>, claim: Claim, phase: Phase)
    requires phase.Counted? && phase.job.account in claim.accounts && HistoryOk(rows, phase.job.post, claim)
    requires phase.gone <= claim.gone
    requires forall i :: i in rows && rows[i].At() == phase.job.At() ==> rows[i].Pending()
    ensures HistoryOk(Changed(rows, phase.job.At(), phase.change), phase.job.post, AfterCommit(claim, phase))
  {
    var k, claim' := phase.job.At(), AfterCommit(claim, phase);
    var view := Changed(rows, k, phase.change);
    ViewOfChange(rows, k, phase.change);
    forall a ensures HasRow(view, Key(k.post, a)) <==> HasRow(rows, Key(k.post, a)) {
      SameKeys(rows, k, phase.change, Key(k.post, a));
    }
    forall i | i in view && view[i].post == k.post ensures view[i].errors.Some? <==> view[i].account in claim'.failed {
      assert rows[i].errors.Some? <==> rows[i].account in claim.failed;
    }
  }

  lemma SameKeys(rows: map<int, Row>, k: Key, change: Change, j: Key)
    ensures HasRow(Changed(rows, k, change), j) <==> HasRow(rows, j)
  {
    var view := Changed(rows, k, change);
    if HasRow(rows, j) {
      var i :| i in rows && rows[i].At() == j;
      assert view[i].At() == j;
    }
    if HasRow(view, j) {
      var i :| i in view && view[i].At() == j;
      assert rows[i].At() == j;
    }
  }

  /** Another count of the same post, still open when the settlement commits. */
  lemma OvertakenCountOk(rows: map<int, Row>, claim: Claim, phase: Phase, other: Phase)
    requires phase.Counted? && other.Counted?
    requires var k := phase.job.At();
             && other.job.At() != k && other.job.post == k.post
             && CountOk(other, rows, claim)
             && (forall i :: i in rows && rows[i].At() == k ==> rows[i].Pending())
             && (!HasRow(rows, k) ==> Changed(rows, k, phase.change) == rows)
             && (other.verdict != Unfinished ==> k.account in other.gone)
    ensures CountOk(other, Changed(rows, phase.job.At(), phase.change), AfterCommit(claim, phase))
  {
    var k, j := phase.job.At(), other.job.At();
    if HasRow(rows, k) {
      assert HasOpenRow(rows, k);
      OpenRowIsSeen(rows, j, other.change, k);
      JudgeMeaning(Changed(rows, j, other.change), j.post);
      assert other.verdict == Unfinished;
    }
  }

  /** A count of another post. */
  lemma ForeignCountOk(rows: map<int, Row>, claim: Claim, phase: Phase, other: Phase)
    requires phase.Counted? && other.Counted? && other.job.post != phase.job.post
    requires CountOk(other, rows, claim)
    ensures CountOk(other, Changed(rows, phase.job.At(), phase.change), claim)
  {
    var k, j := phase.job.At(), other.job.At();
    var rows' := Changed(rows, k, phase.change);
    JudgeFrame(Changed(rows, j, other.change), Changed(rows', j, other.change), j.post);
  }

  lemma CommitKeepsCounts(s: State, w: nat)
    requires Inv(s) && Busy(s, w) && s.workers[w].Counted?
    ensures var s' := CommitStep(s, w); CountsOk(s'.workers, s'.db.rows, s'.past.claims)
  {
    var phase, s' := s.workers[w], CommitStep(s, w);
    var k := phase.job.At();
    WorkersAreAlone(s, w);
    LiveRowIsPending(s.db.rows, s.past.claims, s.past.lost, Live(s), k);
    forall v | 0 <= v < |s'.workers| && s'.workers[v].Counted?
      ensures s'.workers[v].job.post in s'.past.claims
              && CountOk(s'.workers[v], s'.db.rows, s'.past.claims[s'.workers[v].job.post])
    {
      var other := s.workers[v];
      if other.job.post == k.post {
        assert Encloses(other, Live(s));
        OvertakenCountOk(s.db.rows, s.past.claims[k.post], phase, other);
      } else {
        ForeignCountOk(s.db.rows, s.past.claims[other.job.post], phase, other);
      }
    }
  }

  lemma CommitKeepsPosts(s: State, w: nat)
    requires Inv(s) && Busy(s, w) && s.workers[w].Counted?
    ensures var s' := CommitStep(s, w); PostsOk(s'.db.posts, s'.db.rows, s'.past.claims)
  {
    var phase, s' := s.workers[w], CommitStep(s, w);
    var k := phase.job.At();
    WorkersAreAlone(s, w);
    LiveRowIsPending(s.db.rows, s.past.claims, s.past.lost, Live(s), k);
    assert k in Live(s);
    SettledPostOk(s.db.posts[k.post], s.db.rows, s.past.claims[k.post], phase);
    forall p | p in s'.past.claims ensures p in s'.db.posts && PostOk(s'.db.posts[p], s'.db.rows, p, s'.past.claims[p]) {
      if p != k.post {
        ForeignPostOk(s.db.posts[p], s.db.rows, p, s.past.claims[p], k, phase.change);
      }
    }
  }

  lemma ForeignPostOk(post: Post, rows: map<int, Row>, p: int, claim: Claim, k: Key, change: Change)
    requires PostOk(post, rows, p, claim) && k.post != p
    ensures PostOk(post, Changed(rows, k, change), p, claim)
  {
    JudgeFrame(rows, Changed(rows, k, change), p);
    forall a ensures HasRow(Changed(rows, k, change), Key(p, a)) <==> HasRow(rows, Key(p, a)) {
      SameKeys(rows, k, change, Key(p, a));
    }
  }

  lemma CommittedLive(s: State, w: nat)
    requires Alone(s, w) && s.workers[w].Counted?
    ensures forall j :: Live(CommitStep(s, w))[j] == if j == s.workers[w].job.At() then 0 else Live(s)[j]
  {
    forall j ensures Live(CommitStep(s, w))[j] == if j == s.workers[w].job.At() then 0 else Live(s)[j] {
      HeldByUpdate(s.workers, w, Idle, j);
    }
  }

  lemma SettledRowsOk(db: Db, k: Key, phase: Phase)
    requires RowsOk(db) && phase.Counted?
    ensures RowsOk(Settled(db, k, phase.change, phase.verdict, phase.at))
  {
    ViewOfChange(db.rows, k, phase.change);
  }

  lemma SettledTokens(claims: Claims, lost: set<Key>, live: multiset<Key>, k: Key, claims': Claims, live': multiset<Key>)
    requires TokensOk(live, claims, lost) && claims'.Keys == claims.Keys
    requires forall j :: live'[j] == if j == k then 0 else live[j]
    ensures TokensOk(live', claims', lost)
  {}

  /** Rows and jobs after a commit: the job is gone and its row is settled. */
  lemma SettledRowsMatch(db: Db, claims: Claims, lost: set<Key>, live: multiset<Key>, phase: Phase,
                         claims': Claims, live': multiset<Key>)
    requires TokensOk(live, claims, lost) && RowsMatch(db, claims, lost, live)
    requires phase.Counted? && phase.change != Errored(UnsupportedProvider)
    requires phase.job.At() in live && forall j :: live'[j] == if j == phase.job.At() then 0 else live[j]
    requires claims'.Keys == claims.Keys && forall p :: p in claims ==> claims'[p].accounts == claims[p].accounts
    ensures RowsMatch(Settled(db, phase.job.At(), phase.change, phase.verdict, phase.at), claims', lost, live')
  {
    var k := phase.job.At();
    var db' := Settled(db, k, phase.change, phase.verdict, phase.at);
    SettledRowsOk(db, k, phase);
    ViewOfChange(db.rows, k, phase.change);
    forall i | i in db'.rows ensures RowOk(db'.rows[i], claims', lost, live') {
      assert RowOk(db.rows[i], claims, lost, live);
    }
  }

  lemma CommitKeepsTallies(s: State, w: nat)
    requires Alone(s, w) && s.workers[w].Counted? && TalliesOk(s)
    requires forall i :: i in s.db.rows && s.db.rows[i].At() == s.workers[w].job.At() ==> s.db.rows[i].Pending()
    requires s.workers[w].job.post in s.past.claims
    ensures TalliesOk(CommitStep(s, w))
  {
    var phase, s' := s.workers[w], CommitStep(s, w);
    assert forall j :: s'.past.Of(j) == s.past.Of(j);
    assert HeldOk(phase, s.past.Of(phase.job.At()));
    ViewOfChange(s.db.rows, phase.job.At(), phase.change);
    assert WorkerTallies(s'.workers, s'.past);
    assert RowTallies(s'.db.rows, s'.past);
  }

  lemma CommitKeepsInv(s: State, w: nat)
    requires Inv(s) && Busy(s, w) && s.workers[w].Counted?
    ensures Inv(CommitStep(s, w))
  {
    var phase, s' := s.workers[w], CommitStep(s, w);
    WorkersAreAlone(s, w);
    CommittedLive(s, w);
    LiveRowIsPending(s.db.rows, s.past.claims, s.past.lost, Live(s), phase.job.At());
    SettledTokens(s.past.claims, s.past.lost, Live(s), phase.job.At(), s'.past.claims, Live(s'));
    SettledRowsMatch(s.db, s.past.claims, s.past.lost, Live(s), phase, s'.past.claims, Live(s'));
    CommitKeepsTallies(s, w);
    CommitKeepsPosts(s, w);
    CommitKeepsCounts(s, w);
    CommitKeepsCarry(s, w);
    CommitKeepsClosed(s.workers, Live(s), s.past.claims, w, Live(s'));
  }

  /** Once a verdict is committed, every job left of the post had lost its row by the count. */
  lemma CommitKeepsClosed(workers: seq<Phase>, live: multiset<Key>, claims: Claims, w: nat, live': multiset<Key>)
    requires ClosedOk(workers, live, claims) && w < |workers| && workers[w].Counted? && workers[w].job.post in claims
    requires forall j :: live'[j] == if j == workers[w].job.At() then 0 else live[j]
    ensures var p := workers[w].job.post;
            ClosedOk(workers[w := Idle], live', claims[p := AfterCommit(claims[p], workers[w])])
  {
    FewerJobsKeepClosed(workers, live, claims, live');
    assert Encloses(workers[w], live);
    assert forall k :: k in live' ==> k in live && k != workers[w].job.At();
  }

  lemma CommitKeepsCarry(s: State, w: nat)
    requires CarryOk(s) && Busy(s, w) && s.workers[w].Counted?
    ensures CarryOk(CommitStep(s, w))
  {}
}
