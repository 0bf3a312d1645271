/** Every write of the API keeps the pipeline's invariant. */
module ApiSteps {
  import opened Tables
  import opened Accounts
  import opened Registry
  import opened Posts
  import opened Pipeline
  import opened Invariant
  import opened SchedulerSteps

  // ---------- creating and editing posts ----------

  /** A post without jobs is given fresh rows and a fresh history. */
  ghost predicate Saved(s: State, s': State, p: int) {
    && s'.queue == s.queue && s'.workers == s.workers && s'.schedulers == s.schedulers
    && s'.past == s.past.Forget(p)
    && s'.db.catalog == s.db.catalog
    && RowsOk(s'.db)
    && SameElsewhere(s.db.rows, s'.db.rows, p)
    && (forall i :: i in s'.db.rows && s'.db.rows[i].post == p ==> s'.db.rows[i].Pending())
    && (forall q :: q in s.db.posts && q != p ==> q in s'.db.posts && s'.db.posts[q] == s.db.posts[q])
  }

  lemma SameRowsOf(rows: map<int, Row>, rows': map<int, Row>, p: int, k: Key)
    requires SameElsewhere(rows, rows', p) && k.post != p
    ensures HasRow(rows', k) <==> HasRow(rows, k)
  {
    if HasRow(rows, k) {
      var i :| i in rows && rows[i].At() == k;
      assert rows'[i].At() == k;
    }
    if HasRow(rows', k) {
      var i :| i in rows' && rows'[i].At() == k;
      assert rows[i].At() == k;
    }
  }

  lemma SavedTokens(s: State, s': State, p: int)
    requires Saved(s, s', p) && Quiet(s, p)
    requires TokensOk(Live(s), s.past.claims, s.past.lost) && RowsMatch(s.db, s.past.claims, s.past.lost, Live(s))
    ensures TokensOk(Live(s'), s'.past.claims, s'.past.lost)
    ensures RowsMatch(s'.db, s'.past.claims, s'.past.lost, Live(s'))
  {
    forall i | i in s'.db.rows ensures RowOk(s'.db.rows[i], s'.past.claims, s'.past.lost, Live(s')) {
      if s'.db.rows[i].post != p {
        assert RowOk(s.db.rows[i], s.past.claims, s.past.lost, Live(s));
      }
    }
  }

  lemma SavedTallies(s: State, s': State, p: int)
    requires Saved(s, s', p) && Quiet(s, p) && TalliesOk(s)
    ensures TalliesOk(s')
  {
    NoJobOf(s, p);
    ForgottenTallies(s, p);
    SavedRowTallies(s.db.rows, s'.db.rows, s.past, p);
  }

  lemma ForgottenTallies(s: State, p: int)
    requires TalliesOk(s)
    requires forall i :: 0 <= i < |s.queue| ==> s.queue[i].post != p
    requires forall w :: 0 <= w < |s.workers| && !s.workers[w].Idle? ==> s.workers[w].job.post != p
    ensures AllBounded(s.past.Forget(p)) && PushTallies(ToPushBy(s.schedulers), s.past.Forget(p))
    ensures QueueTallies(s.queue, s.past.Forget(p)) && WorkerTallies(s.workers, s.past.Forget(p))
  {}

  lemma SavedRowTallies(rows: map<int, Row>, rows': map<int, Row>, past: History, p: int)
    requires RowTallies(rows, past) && SameElsewhere(rows, rows', p)
    ensures RowTallies(rows', past.Forget(p))
  {}

  /** A claimed post whose rows and claim stay as they are. */
  lemma SamePostOk(post: Post, rows: map<int, Row>, rows': map<int, Row>, p: int, claim: Claim)
    requires PostOk(post, rows, p, claim)
    requires forall i :: i in rows && rows[i].post == p ==> i in rows' && rows'[i] == rows[i]
    requires forall i :: i in rows' && rows'[i].post == p ==> i in rows && rows'[i] == rows[i]
    ensures PostOk(post, rows', p, claim)
  {
    JudgeFrame(rows, rows', p);
    forall a ensures HasRow(rows', Key(p, a)) <==> HasRow(rows, Key(p, a)) {
      if HasRow(rows, Key(p, a)) {
        var i :| i in rows && rows[i].At() == Key(p, a);
        assert rows'[i].At() == Key(p, a);
      }
      if HasRow(rows', Key(p, a)) {
        var i :| i in rows' && rows'[i].At() == Key(p, a);
        assert rows[i].At() == Key(p, a);
      }
    }
  }

  lemma SameCountOk(phase: Phase, rows: map<int, Row>, rows': map<int, Row>, claim: Claim)
    requires phase.Counted? && CountOk(phase, rows, claim)
    requires forall i :: i in rows && rows[i].post == phase.job.post ==> i in rows' && rows'[i] == rows[i]
    requires forall i :: i in rows' && rows'[i].post == phase.job.post ==> i in rows && rows'[i] == rows[i]
    ensures CountOk(phase, rows', claim)
  {
    var k := phase.job.At();
    JudgeFrame(Changed(rows, k, phase.change), Changed(rows', k, phase.change), k.post);
  }

  lemma SavedPosts(s: State, s': State, p: int)
    requires Saved(s, s', p) && PostsOk(s.db.posts, s.db.rows, s.past.claims)
    ensures PostsOk(s'.db.posts, s'.db.rows, s'.past.claims)
  {
    forall q | q in s'.past.claims ensures q in s'.db.posts && PostOk(s'.db.posts[q], s'.db.rows, q, s'.past.claims[q]) {
      SamePostOk(s.db.posts[q], s.db.rows, s'.db.rows, q, s.past.claims[q]);
    }
  }

  lemma SavedCounts(s: State, s': State, p: int)
    requires Saved(s, s', p) && Quiet(s, p) && CountsOk(s.workers, s.db.rows, s.past.claims)
    ensures CountsOk(s'.workers, s'.db.rows, s'.past.claims)
  {
    NoJobOf(s, p);
    forall w | 0 <= w < |s.workers| && s.workers[w].Counted?
      ensures s.workers[w].job.post in s'.past.claims
              && CountOk(s.workers[w], s'.db.rows, s'.past.claims[s.workers[w].job.post])
    {
      SameCountOk(s.workers[w], s.db.rows, s'.db.rows, s.past.claims[s.workers[w].job.post]);
    }
  }

  lemma SavedKeepsInv(s: State, s': State, p: int)
    requires Inv(s) && Saved(s, s', p) && Quiet(s, p)
    ensures Inv(s')
  {
    SavedTokens(s, s', p);
    SavedTallies(s, s', p);
    SavedPosts(s, s', p);
    SavedCounts(s, s', p);
    assert ClosedOk(s'.workers, Live(s'), s'.past.claims);
  }

  lemma AddPostKeepsInv(s: State, form: PostForm)
    requires Inv(s) && CreatePost(s.db, form).Ok?
    ensures Inv(s.(db := CreatePost(s.db, form).value, past := s.past.Forget(s.db.nextPost)))
  {
    var p := s.db.nextPost;
    NewPostIsSaved(s, form);
    assert Quiet(s, p) by {
      assert p !in s.past.claims;
    }
    SavedKeepsInv(s, s.(db := CreatePost(s.db, form).value, past := s.past.Forget(p)), p);
  }

  lemma NewPostIsSaved(s: State, form: PostForm)
    requires RowsOk(s.db) && CreatePost(s.db, form).Ok?
    ensures Saved(s, s.(db := CreatePost(s.db, form).value, past := s.past.Forget(s.db.nextPost)), s.db.nextPost)
  {
    var base := s.db.(nextPost := s.db.nextPost + 1);
    SavePostRows(base, s.db.nextPost, form);
    SavePostKeepsRowsOk(base, s.db.nextPost, form);
  }

  lemma EditPostKeepsInv(s: State, p: int, form: PostForm)
    requires Inv(s) && UpdatePost(s.db, p, form).Ok? && Quiet(s, p)
    ensures Inv(s.(db := UpdatePost(s.db, p, form).value, past := s.past.Forget(p)))
  {
    SavePostRows(s.db, p, form);
    SavePostKeepsRowsOk(s.db, p, form);
    SavedKeepsInv(s, s.(db := UpdatePost(s.db, p, form).value, past := s.past.Forget(p)), p);
  }

  lemma RemovePostKeepsInv(s: State, p: int)
    requires Inv(s) && DeletePost(s.db, p).Ok?
    ensures Inv(s.(db := DeletePost(s.db, p).value))
  {
    var s' := s.(db := DeletePost(s.db, p).value);
    assert Live(s') == Live(s);
    SamePostRows(s.db, p, s'.db.posts[p], s.past.claims, s.past.lost, Live(s));
    DeletedKeepsPosts(s.db.posts, s.db.rows, s.past.claims, p);
    NewPostsKeepInv(s, s');
  }

  lemma DeletedKeepsPosts(posts: map<int, Post>, rows: map<int, Row>, claims: Claims, p: int)
    requires PostsOk(posts, rows, claims) && p in posts
    ensures PostsOk(posts[p := posts[p].(deleted := true)], rows, claims)
  {
    forall q | q in claims
      ensures q in posts && PostOk(posts[p := posts[p].(deleted := true)][q], rows, q, claims[q])
    {
      assert PostOk(posts[q], rows, q, claims[q]);
    }
  }

  // ---------- accounts and services ----------

  lemma EditCatalogKeepsInv(s: State, op: CatalogOp)
    requires Inv(s) && !op.DropAccount?
    ensures Inv(s.(db := s.db.(catalog := Perform(s.db.catalog, op))))
  {
    PerformKeepsOk(s.db.catalog, op);
    CatalogFrame(s, Perform(s.db.catalog, op));
  }

  lemma CatalogFrame(s: State, c: Catalog)
    requires Inv(s) && CatalogOk(c)
    requires forall id :: id in s.db.catalog.accounts ==> id in c.accounts
    ensures Inv(s.(db := s.db.(catalog := c)))
  {}

  /** The rows of a post without that account are all kept. */
  lemma UntouchedRows(rows: map<int, Row>, a: int, p: int)
    requires !HasRow(rows, Key(p, a))
    ensures forall i :: i in rows && rows[i].post == p ==> rows[i].account != a
  {
    forall i | i in rows && rows[i].post == p ensures rows[i].account != a {
      assert HasRow(rows, rows[i].At());
    }
  }

  /** rows' is what the deletion of account a leaves. */
  ghost predicate Without(rows: map<int, Row>, rows': map<int, Row>, a: int) {
    && (forall i :: i in rows' <==> i in rows && rows[i].account != a)
    && (forall i :: i in rows' ==> rows'[i] == rows[i])
  }

  lemma WithoutHasRow(rows: map<int, Row>, rows': map<int, Row>, a: int, k: Key)
    requires Without(rows, rows', a)
    ensures HasRow(rows', k) <==> HasRow(rows, k) && k.account != a
  {
    if HasRow(rows, k) && k.account != a {
      var i :| i in rows && rows[i].At() == k;
      assert i in rows';
    }
    if HasRow(rows', k) {
      var i :| i in rows' && rows'[i].At() == k;
      assert rows[i].At() == k;
    }
  }

  lemma CutHistoryOk(rows: map<int, Row>, rows': map<int, Row>, a: int, p: int, claim: Claim)
    requires HistoryOk(rows, p, claim) && Without(rows, rows', a) && HasRow(rows, Key(p, a))
    ensures HistoryOk(rows', p, CutClaim(claim, rows, p, a))
  {
    forall b ensures HasRow(rows', Key(p, b)) <==> HasRow(rows, Key(p, b)) && b != a {
      WithoutHasRow(rows, rows', a, Key(p, b));
    }
  }

  /** Without the row of an account, a post is judged as before unless that row was open. */
  lemma CutJudge(rows: map<int, Row>, rows': map<int, Row>, a: int, p: int)
    requires Without(rows, rows', a)
    ensures Judge(rows', p) == Unfinished ==> Judge(rows, p) == Unfinished
    ensures !HasOpenRow(rows, Key(p, a)) ==> (Judge(rows', p) == Unfinished <==> Judge(rows, p) == Unfinished)
    ensures AllPosted(rows, p) ==> AllPosted(rows', p)
  {
    JudgeMeaning(rows, p);
    JudgeMeaning(rows', p);
    if !HasOpenRow(rows, Key(p, a)) {
      forall i | i in rows && rows[i].post == p && rows[i].Pending() ensures i in rows' {
        assert rows[i].At() == Key(p, rows[i].account);
      }
    }
  }

  lemma CutPostOk(post: Post, rows: map<int, Row>, rows': map<int, Row>, a: int, p: int, claim: Claim)
    requires PostOk(post, rows, p, claim) && Without(rows, rows', a) && HasRow(rows, Key(p, a))
    ensures PostOk(post, rows', p, CutClaim(claim, rows, p, a))
  {
    JudgeMeaning(rows, p);
    CutJudge(rows, rows', a, p);
    CutHistoryOk(rows, rows', a, p, claim);
    if HasOpenRow(rows, Key(p, a)) {
      var i :| i in rows && rows[i].At() == Key(p, a) && rows[i].Pending();
      assert Judge(rows, p) == Unfinished;
    }
  }

  lemma CutCountOk(phase: Phase, rows: map<int, Row>, rows': map<int, Row>, a: int, claim: Claim)
    requires phase.Counted? && CountOk(phase, rows, claim)
    requires Without(rows, rows', a) && HasRow(rows, Key(phase.job.post, a))
    ensures CountOk(phase, rows', CutClaim(claim, rows, phase.job.post, a))
  {
    var k := phase.job.At();
    var view, view' := Changed(rows, k, phase.change), Changed(rows', k, phase.change);
    assert Without(view, view', a);
    assert !HasOpenRow(rows, Key(k.post, a)) ==> !HasOpenRow(view, Key(k.post, a)) by {
      if HasOpenRow(view, Key(k.post, a)) {
        var i :| i in view && view[i].At() == Key(k.post, a) && view[i].Pending();
        assert rows[i].At() == Key(k.post, a) && rows[i].Pending();
      }
    }
    CutJudge(view, view', a, k.post);
  }

  lemma RemovedAccountRowsMatch(s: State, a: int)
    requires TokensOk(Live(s), s.past.claims, s.past.lost) && RowsMatch(s.db, s.past.claims, s.past.lost, Live(s))
    ensures var s' := RemoveAccountStep(s, a);
            TokensOk(Live(s'), s'.past.claims, s'.past.lost) && RowsMatch(s'.db, s'.past.claims, s'.past.lost, Live(s'))
  {
    var s' := RemoveAccountStep(s, a);
    assert Live(s') == Live(s);
    forall i | i in s'.db.rows ensures RowOk(s'.db.rows[i], s'.past.claims, s'.past.lost, Live(s')) {
      assert RowOk(s.db.rows[i], s.past.claims, s.past.lost, Live(s));
    }
  }

  lemma RemovedAccountPosts(s: State, a: int)
    requires PostsOk(s.db.posts, s.db.rows, s.past.claims)
    ensures var s' := RemoveAccountStep(s, a); PostsOk(s'.db.posts, s'.db.rows, s'.past.claims)
  {
    var s' := RemoveAccountStep(s, a);
    forall p | p in s'.past.claims ensures p in s'.db.posts && PostOk(s'.db.posts[p], s'.db.rows, p, s'.past.claims[p]) {
      var claim := s.past.claims[p];
      if HasRow(s.db.rows, Key(p, a)) {
        CutPostOk(s.db.posts[p], s.db.rows, s'.db.rows, a, p, claim);
      } else {
        UntouchedRows(s.db.rows, a, p);
        SamePostOk(s.db.posts[p], s.db.rows, s'.db.rows, p, claim);
      }
    }
  }

  lemma RemovedAccountCounts(s: State, a: int)
    requires CountsOk(s.workers, s.db.rows, s.past.claims)
    ensures var s' := RemoveAccountStep(s, a); CountsOk(s'.workers, s'.db.rows, s'.past.claims)
  {
    var s' := RemoveAccountStep(s, a);
    forall w | 0 <= w < |s.workers| && s.workers[w].Counted?
      ensures s.workers[w].job.post in s'.past.claims
              && CountOk(s.workers[w], s'.db.rows, s'.past.claims[s.workers[w].job.post])
    {
      var p := s.workers[w].job.post;
      var claim := s.past.claims[p];
      if HasRow(s.db.rows, Key(p, a)) {
        CutCountOk(s.workers[w], s.db.rows, s'.db.rows, a, claim);
      } else {
        UntouchedRows(s.db.rows, a, p);
        SameCountOk(s.workers[w], s.db.rows, s'.db.rows, claim);
      }
    }
  }

  lemma RemovedAccountTallies(s: State, a: int)
    requires TalliesOk(s)
    ensures TalliesOk(RemoveAccountStep(s, a))
  {
    var s' := RemoveAccountStep(s, a);
    assert forall k :: s'.past.Of(k) == s.past.Of(k);
    assert RowTallies(s'.db.rows, s'.past);
  }

  lemma RemoveAccountKeepsInv(s: State, a: int)
    requires Inv(s)
    ensures Inv(RemoveAccountStep(s, a))
  {
    RemovedAccountRowsMatch(s, a);
    RemovedAccountTallies(s, a);
    RemovedAccountPosts(s, a);
    RemovedAccountCounts(s, a);
    RemovedAccountCarry(s, a);
    RemovedAccountClosed(s, a);
  }

  lemma RemovedAccountClosed(s: State, a: int)
    requires ClosedOk(s.workers, Live(s), s.past.claims)
    ensures ClosedOk(RemoveAccountStep(s, a).workers, Live(RemoveAccountStep(s, a)), RemoveAccountStep(s, a).past.claims)
  {
    assert Live(RemoveAccountStep(s, a)) == Live(s);
  }

  lemma RemovedAccountCarry(s: State, a: int)
    requires CarryOk(s)
    ensures CarryOk(RemoveAccountStep(s, a))
  {}

  lemma TickKeepsInv(s: State)
    requires Inv(s)
    ensures Inv(s.(now := s.now + 1))
  {}

  lemma ApiStepKeepsInv(s: State, step: Step)
    requires Inv(s) && Enabled(s, step) && !OfWorker(step) && !OfScheduler(step)
    ensures Inv(Next(s, step))
  {
    match step
    case AddPost(form) => AddPostKeepsInv(s, form);
    case EditPost(p, form) => EditPostKeepsInv(s, p, form);
    case RemovePost(p) => RemovePostKeepsInv(s, p);
    case EditCatalog(op) => EditCatalogKeepsInv(s, op);
    case RemoveAccount(a) => RemoveAccountKeepsInv(s, a);
    case Tick => TickKeepsInv(s);
  }
}
