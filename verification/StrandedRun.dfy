/** One run from empty tables that strands a post: two accounts, two workers, no fault. */
module StrandedRun {
  import opened Base
  import opened Providers
  import opened ServiceRules
  import opened Content
  import opened Tables
  import opened Services
  import opened Accounts
  import opened Registry
  import opened Posts
  import opened Pipeline
  import opened Tokens
  import opened PostStates
  import opened Reach
  import opened Races

  const START := State(Db(map[], 1, map[], 1, map[], 1, EMPTY), [], [Idle, Idle], [Resting], 0, History(map[], map[], {}))

  function NewAccount(name: string): AccountForm {
    AccountForm(name, None, "mastodon", name, map[], true, map["access_token" := JString("t")])
  }

  function StoredAccount(name: string): Account {
    Account(name, None, "mastodon", name, map[], true, map["access_token" := JString("t")])
  }

  const FORM := PostForm(SCHEDULED, PENDING, Some(0), None, [1, 2], [VersionInput(0, true, Some(JString("text")))])

  /** An account of a provider that needs no service is stored as submitted. */
  lemma MastodonIsStored(c: Catalog, name: string)
    requires name != "" && Trimmed(name) && !IdentityTaken(c.accounts, "mastodon", name, -1)
    ensures Perform(c, AddAccount(NewAccount(name)))
         == c.(accounts := c.accounts[c.nextAccount := StoredAccount(name)], nextAccount := c.nextAccount + 1)
  {
    LowerIsId("mastodon");
    assert "access_token" in NewAccount(name).token;
    assert CreateAccount(c, NewAccount(name)).Ok?;
  }

  lemma OneMore(s: State, name: string) returns (s': State)
    requires Reachable(s) && name != "" && Trimmed(name) && !IdentityTaken(s.db.catalog.accounts, "mastodon", name, -1)
    ensures Reachable(s') && s' == s.(db := s'.db) && s'.db == s.db.(catalog := s'.db.catalog)
    ensures var c := s.db.catalog;
            s'.db.catalog == c.(accounts := c.accounts[c.nextAccount := StoredAccount(name)], nextAccount := c.nextAccount + 1)
  {
    MastodonIsStored(s.db.catalog, name);
    s' := Next(s, EditCatalog(AddAccount(NewAccount(name))));
    ReachableStep(s, EditCatalog(AddAccount(NewAccount(name))));
  }

  lemma TwoAccounts() returns (s: State)
    ensures Reachable(s) && s == START.(db := s.db)
    ensures s.db == START.db.(catalog := CATALOG)
  {
    assert Reachable(START) by {
      assert Initial(START) && Runs(START, []) && After(START, []) == START;
    }
    var s1 := OneMore(START, "a");
    assert StoredAccount("a").providerId != "b";
    s := OneMore(s1, "b");
  }

  const CATALOG := Catalog(map[1 := StoredAccount("a"), 2 := StoredAccount("b")], 3, map[], 1)
  const POST := Post(SCHEDULED, PENDING, Some(0), None, false)

  /** Tables with one post for both accounts, with text for each. */
  ghost predicate OnePostIn(db: Db) {
    && db.catalog == CATALOG && RowsOk(db)
    && 1 in db.posts && (forall p :: p in db.posts ==> p == 1)
    && AccountsOf(db.rows, db.nextRow, 1) == [1, 2]
    && HasRow(db.rows, Key(1, 1)) && HasRow(db.rows, Key(1, 2))
    && (forall i :: i in db.rows && db.rows[i].post == 1 ==> db.rows[i].account == 1 || db.rows[i].account == 2)
    && PublishText(db.versions, db.nextVersion, 1, 1).Ok? && PublishText(db.versions, db.nextVersion, 1, 2).Ok?
  }

  lemma TextOfForm(db: Db, a: int)
    requires SavePost(db, 1, FORM).Ok? && a != 0
    ensures var d := SavePost(db, 1, FORM).value; PublishText(d.versions, d.nextVersion, 1, a).Ok?
  {
    PublishTextRefinesSubmission(db, 1, FORM, a);
    assert !IsSpace("text"[0]) && !IsSpace("text"[3]);
    assert Carries(JString("text"), "text") && Trim("text") == "text";
    ExtractBodyMeaning(JString("text"), "text");
    assert FORM.versions[1..] == [];
    assert SubmittedFor(FORM.versions, a) == Some(FORM.versions[0]);
  }

  /** What a new post with distinct accounts looks like. */
  lemma SavedOnce(db: Db, form: PostForm)
    requires RowsOk(db) && 1 < db.nextPost && SavePost(db, 1, form).Ok? && Distinct(form.accountIds)
    ensures var d := SavePost(db, 1, form).value;
            && RowsOk(d) && d.catalog == db.catalog
            && d.posts == db.posts[1 := Post(form.status, form.scheduleStatus, form.scheduledAt, form.publishedAt, false)]
            && AccountsOf(d.rows, d.nextRow, 1) == form.accountIds
            && (forall a :: HasRow(d.rows, Key(1, a)) <==> a in form.accountIds)
            && forall i :: i in d.rows && d.rows[i].post == 1 ==> d.rows[i].account in form.accountIds
  {
    SavePostKeepsRowsOk(db, 1, form);
    SavePostRows(db, 1, form);
    ReadBack(db, 1, form);
    DedupOfDistinct(form.accountIds);
    var d := SavePost(db, 1, form).value;
    forall i | i in d.rows && d.rows[i].post == 1 ensures d.rows[i].account in form.accountIds {
      assert HasRow(d.rows, Key(1, d.rows[i].account));
    }
  }

  lemma SavedForm(db: Db)
    requires db.catalog == CATALOG && RowsOk(db) && db.posts == map[] && db.nextPost == 2
    ensures SavePost(db, 1, FORM).Ok?
    ensures var d := SavePost(db, 1, FORM).value; OnePostIn(d) && d.posts[1] == POST
  {
    var form := FORM;
    SaveSucceeds(db, 1, form);
    SavedOnce(db, form);
    TextOfForm(db, 1);
    TextOfForm(db, 2);
  }

  lemma OnePost() returns (s: State)
    ensures Reachable(s) && s == START.(db := s.db) && OnePostIn(s.db) && s.db.posts[1] == POST
  {
    var s0 := TwoAccounts();
    SavedForm(s0.db.(nextPost := 2));
    s := Next(s0, AddPost(FORM));
    ReachableStep(s0, AddPost(FORM));
    assert s.past == START.past;
  }

  const CLAIM := NewClaim([1, 2], None)

  lemma Scanned() returns (s: State)
    ensures Reachable(s) && OnePostIn(s.db) && s.db.posts[1] == POST
    ensures s.queue == [] && s.workers == [Idle, Idle] && s.schedulers == [Scanning([1])] && s.past == START.past
    ensures s.now == 0
  {
    var s0 := OnePost();
    assert IsScan(s0.db.posts, s0.now, [1]);
    ReachableStep(s0, Scan(0, [1]));
    s := Next(s0, Scan(0, [1]));
  }

  lemma ClaimOfPost(s: State)
    requires s.schedulers == [Scanning([1])] && 1 in s.db.posts && s.db.posts[1] == POST && s.past == START.past
    requires AccountsOf(s.db.rows, s.db.nextRow, 1) == [1, 2]
    ensures var s' := ClaimStep(s, 0);
            && s' == s.(db := s.db.(posts := s.db.posts[1 := POST.(scheduleStatus := RUNNING)]),
                        schedulers := s'.schedulers, past := s'.past)
            && s'.schedulers == [Pushing(1, [1, 2], [])]
            && s'.past.claims == map[1 := CLAIM] && s'.past.lost == {}
  {
    assert s.schedulers[0].todo[1..] == [];
  }

  lemma StillOnePost(db: Db, post: Post)
    requires OnePostIn(db)
    ensures OnePostIn(db.(posts := db.posts[1 := post]))
  {}

  lemma Claimed() returns (s: State)
    ensures Reachable(s) && OnePostIn(s.db) && s.db.posts[1] == POST.(scheduleStatus := RUNNING)
    ensures s.queue == [] && s.workers == [Idle, Idle] && s.schedulers == [Pushing(1, [1, 2], [])]
    ensures s.past.claims == map[1 := CLAIM] && s.past.lost == {} && s.now == 0
  {
    var s0 := Scanned();
    ClaimOfPost(s0);
    StillOnePost(s0.db, POST.(scheduleStatus := RUNNING));
    ReachableStep(s0, ClaimNext(0));
    s := ClaimStep(s0, 0);
  }

  /** Both jobs are queued. */
  lemma BothQueued() returns (s: State)
    ensures Reachable(s) && OnePostIn(s.db) && s.db.posts[1] == POST.(scheduleStatus := RUNNING)
    ensures s.queue == [Job(1, 2, 1), Job(1, 1, 1)] && s.workers == [Idle, Idle] && s.schedulers == [Scanning([])]
    ensures s.past.claims == map[1 := CLAIM] && s.past.lost == {} && s.now == 0
  {
    var s0 := Claimed();
    ReachableStep(s0, Push(0));
    var s1 := PushStep(s0, 0);
    assert s1.schedulers == [Pushing(1, [2], [])];
    ReachableStep(s1, Push(0));
    s := PushStep(s1, 0);
  }

  lemma BothPopped() returns (s: State)
    ensures Reachable(s) && OnePostIn(s.db)
    ensures s.queue == [] && s.workers == [Popped(Job(1, 1, 1)), Popped(Job(1, 2, 1))] && s.schedulers == [Scanning([])]
    ensures s.past.claims == map[1 := CLAIM] && s.past.lost == {}
  {
    var s0 := BothQueued();
    PopReaches(s0, 0);
    var s1 := PopStep(s0, 0);
    assert s1.queue == [Job(1, 2, 1)] && s1.workers == [Popped(Job(1, 1, 1)), Idle];
    PopReaches(s1, 1);
    s := PopStep(s1, 1);
  }

  lemma MastodonNeedsNoService(c: Catalog)
    ensures FetchServiceConfiguration(c, "mastodon") == Ok(map[])
  {
    LowerIsId("mastodon");
  }

  lemma StubTakesAnyText(account: Account, text: string)
    requires account.provider == "mastodon" && !FlaggedUnauthorized(account) && Trim(text) != ""
    ensures Dispatch(Index(DEFAULT_CONNECTORS), account, map[], text) == Ok(StubPost("mastodon"))
  {
    IndexFindsLast(DEFAULT_CONNECTORS, "mastodon");
    DefaultManagerCoversKnownProviders("mastodon");
  }

  /** What the checks need for the job of account a. */
  ghost predicate ReadyFor(db: Db, a: int) {
    db.catalog == CATALOG && HasRow(db.rows, Key(1, a)) && PublishText(db.versions, db.nextVersion, 1, a).Ok?
  }

  /** The checks pass for both jobs, and a stub accepts whatever it is sent. */
  lemma ChecksPass(db: Db, a: int, attempt: int)
    requires ReadyFor(db, a) && (a == 1 || a == 2)
    ensures Publishable(db, Job(1, a, attempt), "id")
  {
    var account := if a == 1 then StoredAccount("a") else StoredAccount("b");
    assert FetchAccount(db, Key(1, a)) == Some(account);
    MastodonNeedsNoService(db.catalog);
    StubTakesAnyText(account, PublishText(db.versions, db.nextVersion, 1, a).value);
  }

  /** Worker w's acceptance for account a is written to its row, uncommitted. */
  lemma Written(s: State, w: nat, a: int) returns (s': State)
    requires Reachable(s) && ReadyFor(s.db, a) && (a == 1 || a == 2)
    requires w < |s.workers| && s.workers[w] == Popped(Job(1, a, 1))
    ensures Reachable(s') && OnlyMoved(s, s', w, Wrote(Job(1, a, 1), Succeeded("id")))
  {
    ChecksPass(s.db, a, 1);
    var s1 := AttemptIsAccepted(s, w, "id");
    ReachableStep(s1, WriteRow(w));
    s' := WriteRowStep(s1, w);
  }

  lemma NoOtherJobs(s: State)
    requires s.queue == [] && s.schedulers == [Scanning([])] && |s.workers| == 2
    requires !s.workers[0].Idle? && s.workers[0].job == Job(1, 1, 1) && !s.workers[1].Idle? && s.workers[1].job == Job(1, 2, 1)
    ensures OnlyLeft(s, 1, {Key(1, 1), Key(1, 2)})
  {
    assert ToPushBy(s.schedulers) == multiset{};
    forall k | k in HeldBy(s.workers) ensures k in {Key(1, 1), Key(1, 2)} {
      HeldByFrom(s.workers, k);
    }
  }

  lemma BothWritten() returns (s: State)
    ensures Reachable(s) && OnlyLeft(s, 1, {Key(1, 1), Key(1, 2)}) && s.past.claims == map[1 := CLAIM] && s.past.lost == {}
    ensures s.workers == [Wrote(Job(1, 1, 1), Succeeded("id")), Wrote(Job(1, 2, 1), Succeeded("id"))] && OnePostIn(s.db)
  {
    var s0 := BothPopped();
    var s1 := Written(s0, 0, 1);
    s := Written(s1, 1, 2);
    NoOtherJobs(s);
  }

  lemma CountsKeepIntact(s: State, v: nat, w: nat, p: int)
    requires v != w && Busy(s, v) && Busy(s, w) && s.workers[v].Wrote? && s.workers[w].Wrote? && Intact(s, p)
    ensures Intact(CommitStep(CommitStep(BothCount(s, v, w), v), w), p)
  {}

  lemma CountingTogetherStrands(s: State) returns (s': State)
    requires Reachable(s) && NothingLost(s, 1) && Intact(s, 1) && WritingInPlace(s, 0, 1) && WritingInPlace(s, 1, 1)
    requires OnlyLeft(s, 1, {s.workers[0].job.At(), s.workers[1].job.At()})
    ensures Reachable(s') && Intact(s', 1) && Stranded(s', 1)
  {
    SimultaneousSettlementsStrand(s, 0, 1, 1);
    CountsKeepIntact(s, 0, 1, 1);
    s' := CommitStep(CommitStep(BothCount(s, 0, 1), 0), 1);
  }

  /** No fault, no deletion, every account posted to, and yet the post is left running for
      good: with two workers, drained does not mean finalized. */
  lemma StrandedPostIsReachable() returns (s: State)
    ensures Reachable(s) && Intact(s, 1) && Stranded(s, 1)
  {
    var s0 := BothWritten();
    s := CountingTogetherStrands(s0);
  }

  lemma AcceptedOnce() returns (s: State)
    ensures Reachable(s) && s.past.claims == map[1 := CLAIM] && s.past.Of(Key(1, 1)).accepted >= 1
    ensures s.queue == [] && Busy(s, 0) && s.workers[0] == Sent(Job(1, 1, 1), "id") && Publishable(s.db, Job(1, 1, 1), "id")
  {
    var s0 := BothPopped();
    ChecksPass(s0.db, 1, 1);
    s := AttemptIsAccepted(s0, 0, "id");
  }

  /** One failed commit is enough for the provider to have accepted the same post of the
      same account twice. */
  lemma DoublePostIsReachable() returns (s: State)
    ensures Reachable(s) && s.past.Of(Key(1, 1)).accepted >= 2
  {
    var s0 := AcceptedOnce();
    s := FailedCommitPostsTwice(s0, 0, "id");
  }
}
