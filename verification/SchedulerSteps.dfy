/** Every step of a scheduler keeps the pipeline's invariant. */
module SchedulerSteps {
  import opened Tables
  import opened Pipeline
  import opened Tokens
  import opened Invariant

  /** A step that changes one scheduler's list and nothing else but jobs and losses. */
  lemma SchedulerKeepsInv(s: State, s': State)
    requires Inv(s)
    requires s'.db == s.db && s'.workers == s.workers && s'.past.claims == s.past.claims
    requires TokensOk(Live(s'), s'.past.claims, s'.past.lost)
    requires RowsMatch(s'.db, s'.past.claims, s'.past.lost, Live(s'))
    requires TalliesOk(s') && forall k :: Live(s')[k] <= Live(s)[k]
    ensures Inv(s')
  {
    FewerJobsKeepClosed(s.workers, Live(s), s.past.claims, Live(s'));
  }

  // ---------- lists that hold no jobs ----------

  lemma IdleListKeepsInv(s: State, c: nat, scheduler: Scheduler)
    requires Inv(s) && c < |s.schedulers| && !s.schedulers[c].Pushing? && !scheduler.Pushing?
    ensures Inv(s.(schedulers := s.schedulers[c := scheduler]))
  {
    SameToPush(s.schedulers, c, scheduler);
    SchedulerKeepsInv(s, s.(schedulers := s.schedulers[c := scheduler]));
  }

  lemma SameToPush(schedulers: seq<Scheduler>, c: nat, scheduler: Scheduler)
    requires c < |schedulers| && ToPush(schedulers[c]) == ToPush(scheduler)
    ensures ToPushBy(schedulers[c := scheduler]) == ToPushBy(schedulers)
  {
    forall k ensures ToPushBy(schedulers[c := scheduler])[k] == ToPushBy(schedulers)[k] {
      ToPushByUpdate(schedulers, c, scheduler, k);
    }
  }

  // ---------- pushing ----------

  lemma PushedLive(s: State, c: nat)
    requires c < |s.schedulers| && s.schedulers[c].Pushing? && s.schedulers[c].accounts != []
    ensures Live(PushStep(s, c)) == Live(s)
    ensures var k := Key(s.schedulers[c].post, s.schedulers[c].accounts[0]);
            forall j :: ToPushBy(PushStep(s, c).schedulers)[j] + (if j == k then 1 else 0) == ToPushBy(s.schedulers)[j]
  {
    var scheduler := s.schedulers[c];
    var k := Key(scheduler.post, scheduler.accounts[0]);
    QueuedFirst(Job(k.post, k.account, 1), s.queue);
    forall j: Key
      ensures ToPushBy(PushStep(s, c).schedulers)[j] + (if j == k then 1 else 0) == ToPushBy(s.schedulers)[j]
      ensures Live(PushStep(s, c))[j] == Live(s)[j]
    {
      ToPushByUpdate(s.schedulers, c, Advanced(scheduler), j);
      AdvancedKeys(scheduler, j);
    }
  }

  lemma AdvancedKeys(scheduler: Scheduler, j: Key)
    requires scheduler.Pushing? && scheduler.accounts != []
    ensures var first := Key(scheduler.post, scheduler.accounts[0]);
            ToPush(scheduler)[j] == ToPush(Advanced(scheduler))[j] + (if j == first then 1 else 0)
  {
    var rest := scheduler.accounts[1..];
    assert Keys(scheduler.post, scheduler.accounts)
        == multiset{Key(scheduler.post, scheduler.accounts[0])} + Keys(scheduler.post, rest);
    if |scheduler.accounts| == 1 {
      assert rest == [] && Keys(scheduler.post, rest) == multiset{};
    }
  }

  lemma PushKeepsInv(s: State, c: nat)
    requires Inv(s) && c < |s.schedulers| && s.schedulers[c].Pushing? && s.schedulers[c].accounts != []
    ensures Inv(PushStep(s, c))
  {
    var scheduler, s' := s.schedulers[c], PushStep(s, c);
    var k := Key(scheduler.post, scheduler.accounts[0]);
    PushedLive(s, c);
    assert k in ToPushBy(s.schedulers);
    PushKeepsTallies(s, c, k);
    SchedulerKeepsInv(s, s');
  }

  lemma PushKeepsTallies(s: State, c: nat, k: Key)
    requires TalliesOk(s) && c < |s.schedulers| && s.schedulers[c].Pushing? && s.schedulers[c].accounts != []
    requires k == Key(s.schedulers[c].post, s.schedulers[c].accounts[0]) && k in ToPushBy(s.schedulers)
    requires forall j :: ToPushBy(PushStep(s, c).schedulers)[j] <= ToPushBy(s.schedulers)[j]
    ensures TalliesOk(PushStep(s, c))
  {
    var s' := PushStep(s, c);
    forall i | 0 <= i < |s'.queue| ensures QueuedOk(s'.queue[i], s'.past.Of(s'.queue[i].At())) {
      if i > 0 {
        assert s'.queue[i] == s.queue[i - 1];
      }
    }
  }

  // ---------- losing the rest of a push list ----------

  lemma StoppedLive(s: State, c: nat)
    requires c < |s.schedulers|
    ensures forall j :: Live(StopStep(s, c))[j] + ToPush(s.schedulers[c])[j] == Live(s)[j]
    ensures forall j :: ToPushBy(StopStep(s, c).schedulers)[j] <= ToPushBy(s.schedulers)[j]
  {
    forall j: Key
      ensures Live(StopStep(s, c))[j] + ToPush(s.schedulers[c])[j] == Live(s)[j]
      ensures ToPushBy(StopStep(s, c).schedulers)[j] <= ToPushBy(s.schedulers)[j]
    {
      ToPushByUpdate(s.schedulers, c, Resting, j);
    }
  }

  /** Live jobs become lost ones. */
  lemma LosingKeepsTokens(db: Db, claims: Claims, lost: set<Key>, live: multiset<Key>, lost': set<Key>,
                          live': multiset<Key>)
    requires TokensOk(live, claims, lost) && RowsMatch(db, claims, lost, live)
    requires forall k :: live'[k] <= live[k]
    requires forall k :: k in lost' <==> k in lost || (k in live && k !in live')
    ensures TokensOk(live', claims, lost') && RowsMatch(db, claims, lost', live')
  {
    forall i | i in db.rows ensures RowOk(db.rows[i], claims, lost', live') {
      assert RowOk(db.rows[i], claims, lost, live);
    }
  }

  lemma StoppedLost(s: State, c: nat)
    requires TokensOk(Live(s), s.past.claims, s.past.lost) && c < |s.schedulers|
    ensures var s' := StopStep(s, c);
            forall k :: k in s'.past.lost <==> k in s.past.lost || (k in Live(s) && k !in Live(s'))
  {
    var scheduler, s' := s.schedulers[c], StopStep(s, c);
    StoppedLive(s, c);
    forall k ensures k in s'.past.lost <==> k in s.past.lost || (k in Live(s) && k !in Live(s')) {
      if scheduler.Pushing? {
        KeysAre(scheduler.post, scheduler.accounts, k);
      }
      assert Live(s)[k] <= 1;
    }
  }

  lemma StopKeepsInv(s: State, c: nat)
    requires Inv(s) && c < |s.schedulers|
    ensures Inv(StopStep(s, c))
  {
    var s' := StopStep(s, c);
    StoppedLive(s, c);
    StoppedLost(s, c);
    LosingKeepsTokens(s.db, s.past.claims, s.past.lost, Live(s), s'.past.lost, Live(s'));
    StopKeepsTallies(s, c);
    SchedulerKeepsInv(s, s');
  }

  lemma StopKeepsTallies(s: State, c: nat)
    requires TalliesOk(s) && c < |s.schedulers|
    requires forall j :: ToPushBy(StopStep(s, c).schedulers)[j] <= ToPushBy(s.schedulers)[j]
    ensures TalliesOk(StopStep(s, c))
  {
    var s' := StopStep(s, c);
    assert forall j :: s'.past.Of(j) == s.past.Of(j);
  }

  lemma PushFailsKeepsInv(s: State, c: nat, delivered: bool)
    requires Inv(s) && c < |s.schedulers| && s.schedulers[c].Pushing? && s.schedulers[c].accounts != []
    ensures Inv(PushFailsStep(s, c, delivered))
  {
    if delivered {
      PushKeepsInv(s, c);
      StopKeepsInv(PushStep(s, c), c);
    } else {
      StopKeepsInv(s, c);
    }
  }

  // ---------- claiming ----------

  /** A post that can be claimed has no claim, no job and only fresh rows. */
  lemma ClaimableIsUnclaimed(s: State, p: int)
    requires Inv(s) && p in s.db.posts && s.db.posts[p].Claimable()
    ensures p !in s.past.claims
    ensures forall k :: k in Live(s) || k in s.past.lost ==> k.post != p
    ensures forall i :: i in s.db.rows && s.db.rows[i].post == p ==> s.db.rows[i].Pending()
  {
    assert p in s.past.claims ==> PostOk(s.db.posts[p], s.db.rows, p, s.past.claims[p]);
    forall i | i in s.db.rows && s.db.rows[i].post == p ensures s.db.rows[i].Pending() {
      assert RowOk(s.db.rows[i], s.past.claims, s.past.lost, Live(s));
    }
  }

  lemma RunningLive(s: State, c: nat, p: int, accounts: seq<int>, rest: seq<int>)
    requires c < |s.schedulers| && !s.schedulers[c].Pushing? && p in s.db.posts
    ensures var s' := Running(s, c, p, accounts, rest);
            && (forall j :: Live(s')[j] == Live(s)[j] + Keys(p, accounts)[j])
            && (forall j :: ToPushBy(s'.schedulers)[j] == ToPushBy(s.schedulers)[j] + Keys(p, accounts)[j])
  {
    var s' := Running(s, c, p, accounts, rest);
    forall j: Key
      ensures Live(s')[j] == Live(s)[j] + Keys(p, accounts)[j]
      ensures ToPushBy(s'.schedulers)[j] == ToPushBy(s.schedulers)[j] + Keys(p, accounts)[j]
    {
      ToPushByUpdate(s.schedulers, c, Pushing(p, accounts, rest), j);
    }
  }

  /** The live jobs after a claim: those before and one for each account of the post. */
  ghost predicate GainsJobs(live: multiset<Key>, live': multiset<Key>, p: int, accounts: seq<int>) {
    && (forall j: Key :: j.post != p ==> live'[j] == live[j])
    && (forall j: Key :: j.post == p ==> live'[j] == if j.account in accounts then 1 else 0)
  }

  lemma RunningGainsJobs(live: multiset<Key>, claims: Claims, lost: set<Key>, live': multiset<Key>, p: int,
                         accounts: seq<int>)
    requires TokensOk(live, claims, lost) && p !in claims && Distinct(accounts)
    requires forall j: Key :: live'[j] == live[j] + Keys(p, accounts)[j]
    ensures GainsJobs(live, live', p, accounts)
  {
    forall j: Key
      ensures j.post != p ==> live'[j] == live[j]
      ensures j.post == p ==> live'[j] == if j.account in accounts then 1 else 0
    {
      KeysAre(p, accounts, j);
      assert j in live ==> j.post in claims;
    }
  }

  lemma RunningKeepsTokens(live: multiset<Key>, claims: Claims, lost: set<Key>, live': multiset<Key>, p: int,
                           accounts: seq<int>, claim: Claim)
    requires TokensOk(live, claims, lost) && p !in claims
    requires GainsJobs(live, live', p, accounts)
    ensures TokensOk(live', claims[p := claim], lost)
  {}

  lemma RunningKeepsRows(db: Db, db': Db, claims: Claims, lost: set<Key>, live: multiset<Key>, p: int,
                         accounts: seq<int>, claim: Claim, live': multiset<Key>)
    requires TokensOk(live, claims, lost) && RowsMatch(db, claims, lost, live)
    requires p !in claims && forall a :: a in accounts <==> HasRow(db.rows, Key(p, a))
    requires GainsJobs(live, live', p, accounts) && claim.accounts == accounts
    requires db'.posts.Keys == db.posts.Keys && db' == db.(posts := db'.posts)
    ensures RowsMatch(db', claims[p := claim], lost, live')
  {
    var claims' := claims[p := claim];
    forall k | (k in live' || k in lost) && k.post in claims' ensures k.account in claims'[k.post].accounts {
      assert k.post != p ==> live'[k] == live[k];
    }
    forall i | i in db.rows ensures RowOk(db.rows[i], claims[p := claim], lost, live') {
      assert RowOk(db.rows[i], claims, lost, live);
      assert HasRow(db.rows, db.rows[i].At());
    }
  }

  lemma RunningKeepsClosed(workers: seq<Phase>, live: multiset<Key>, claims: Claims, p: int, accounts: seq<int>,
                           claim: Claim, live': multiset<Key>)
    requires ClosedOk(workers, live, claims) && p !in claims && claim.finals == 0
    requires GainsJobs(live, live', p, accounts)
    requires forall w :: 0 <= w < |workers| && !workers[w].Idle? ==> workers[w].job.post != p
    ensures ClosedOk(workers, live', claims[p := claim])
  {
    forall w | 0 <= w < |workers| && workers[w].Counted? ensures Encloses(workers[w], live') {
      assert Encloses(workers[w], live);
    }
  }

  lemma NewClaimKeepsCounts(workers: seq<Phase>, rows: map<int, Row>, claims: Claims, p: int, claim: Claim)
    requires CountsOk(workers, rows, claims) && p !in claims
    ensures CountsOk(workers, rows, claims[p := claim])
  {}

  lemma RunningKeepsTallies(s: State, c: nat, p: int, accounts: seq<int>, rest: seq<int>)
    requires TalliesOk(s) && c < |s.schedulers| && p in s.db.posts
    requires var s' := Running(s, c, p, accounts, rest);
             forall j :: ToPushBy(s'.schedulers)[j] == ToPushBy(s.schedulers)[j] + Keys(p, accounts)[j]
    requires forall i :: 0 <= i < |s.queue| ==> s.queue[i].post != p
    requires forall w :: 0 <= w < |s.workers| && !s.workers[w].Idle? ==> s.workers[w].job.post != p
    requires forall i :: i in s.db.rows && s.db.rows[i].post == p ==> s.db.rows[i].Pending()
    ensures TalliesOk(Running(s, c, p, accounts, rest))
  {
    var s' := Running(s, c, p, accounts, rest);
    assert forall j :: s'.past.Of(j) == s.past.Forget(p).Of(j);
    assert QueueTallies(s'.queue, s'.past) && WorkerTallies(s'.workers, s'.past);
    assert AllBounded(s'.past);
    RunningKeepsPushTallies(ToPushBy(s.schedulers), s.past, p, accounts, ToPushBy(s'.schedulers), s'.past);
    assert RowTallies(s'.db.rows, s'.past);
  }

  lemma RunningKeepsPushTallies(toPush: multiset<Key>, past: History, p: int, accounts: seq<int>,
                                toPush': multiset<Key>, past': History)
    requires PushTallies(toPush, past)
    requires forall j: Key :: past'.Of(j) == if j.post == p then ZERO else past.Of(j)
    requires forall j :: toPush'[j] == toPush[j] + Keys(p, accounts)[j]
    ensures PushTallies(toPush', past')
  {
    forall k | k in toPush' ensures past'.Of(k) == ZERO {
      KeysAre(p, accounts, k);
    }
  }

  lemma RunningKeepsPosts(s: State, p: int, accounts: seq<int>)
    requires PostsOk(s.db.posts, s.db.rows, s.past.claims)
    requires p in s.db.posts && s.db.posts[p].Claimable() && p !in s.past.claims
    requires accounts != [] && forall a :: a in accounts <==> HasRow(s.db.rows, Key(p, a))
    requires forall i :: i in s.db.rows && s.db.rows[i].post == p ==> s.db.rows[i].Pending()
    ensures PostsOk(s.db.posts[p := s.db.posts[p].(scheduleStatus := RUNNING)], s.db.rows,
                    s.past.claims[p := NewClaim(accounts, s.db.posts[p].publishedAt)])
  {
    JudgeMeaning(s.db.rows, p);
    assert HasRow(s.db.rows, Key(p, accounts[0]));
  }

  lemma NoJobOf(s: State, p: int)
    requires forall k :: k in Live(s) ==> k.post != p
    ensures forall i :: 0 <= i < |s.queue| ==> s.queue[i].post != p
    ensures forall w :: 0 <= w < |s.workers| && !s.workers[w].Idle? ==> s.workers[w].job.post != p
  {
    forall i | 0 <= i < |s.queue| ensures s.queue[i].post != p {
      QueuedHas(s.queue, i);
    }
    forall w | 0 <= w < |s.workers| && !s.workers[w].Idle? ensures s.workers[w].job.post != p {
      HeldByHas(s.workers, w, s.workers[w].job.At());
    }
  }

  lemma ForgetUnclaimed(past: History, p: int)
    requires p !in past.claims && forall k :: k in past.lost ==> k.post != p
    ensures past.Forget(p).claims == past.claims && past.Forget(p).lost == past.lost
  {
    assert past.claims - {p} == past.claims;
    assert (set k | k in past.lost && k.post != p) == past.lost;
  }

  /** What a claim needs and produces, gathered for the pieces of its proof. */
  ghost predicate Claiming(s: State, c: nat, p: int, accounts: seq<int>, rest: seq<int>) {
    && c < |s.schedulers| && p in s.db.posts && s.db.posts[p].Claimable() && p !in s.past.claims
    && accounts != [] && (forall a :: a in accounts <==> HasRow(s.db.rows, Key(p, a)))
    && (forall k :: k in Live(s) ==> k.post != p)
    && (forall i :: i in s.db.rows && s.db.rows[i].post == p ==> s.db.rows[i].Pending())
    && Running(s, c, p, accounts, rest).past.claims == s.past.claims[p := NewClaim(accounts, s.db.posts[p].publishedAt)]
    && Running(s, c, p, accounts, rest).past.lost == s.past.lost
  }

  lemma ClaimingTokens(s: State, c: nat, p: int, accounts: seq<int>, rest: seq<int>)
    requires Claiming(s, c, p, accounts, rest) && Distinct(accounts) && !s.schedulers[c].Pushing?
    requires TokensOk(Live(s), s.past.claims, s.past.lost) && RowsMatch(s.db, s.past.claims, s.past.lost, Live(s))
    ensures var s' := Running(s, c, p, accounts, rest);
            TokensOk(Live(s'), s'.past.claims, s'.past.lost) && RowsMatch(s'.db, s'.past.claims, s'.past.lost, Live(s'))
            && GainsJobs(Live(s), Live(s'), p, accounts)
  {
    var s' := Running(s, c, p, accounts, rest);
    var claim := NewClaim(accounts, s.db.posts[p].publishedAt);
    RunningLive(s, c, p, accounts, rest);
    RunningGainsJobs(Live(s), s.past.claims, s.past.lost, Live(s'), p, accounts);
    RunningKeepsTokens(Live(s), s.past.claims, s.past.lost, Live(s'), p, accounts, claim);
    RunningKeepsRows(s.db, s'.db, s.past.claims, s.past.lost, Live(s), p, accounts, claim, Live(s'));
  }

  lemma ClaimingTallies(s: State, c: nat, p: int, accounts: seq<int>, rest: seq<int>)
    requires Claiming(s, c, p, accounts, rest) && !s.schedulers[c].Pushing? && TalliesOk(s)
    ensures TalliesOk(Running(s, c, p, accounts, rest))
  {
    RunningLive(s, c, p, accounts, rest);
    NoJobOf(s, p);
    RunningKeepsTallies(s, c, p, accounts, rest);
  }

  lemma ClaimingClosed(s: State, c: nat, p: int, accounts: seq<int>, rest: seq<int>)
    requires Claiming(s, c, p, accounts, rest) && ClosedOk(s.workers, Live(s), s.past.claims)
    requires GainsJobs(Live(s), Live(Running(s, c, p, accounts, rest)), p, accounts)
    ensures var s' := Running(s, c, p, accounts, rest); ClosedOk(s'.workers, Live(s'), s'.past.claims)
  {
    NoJobOf(s, p);
    RunningKeepsClosed(s.workers, Live(s), s.past.claims, p, accounts, NewClaim(accounts, s.db.posts[p].publishedAt),
                       Live(Running(s, c, p, accounts, rest)));
  }

  lemma ClaimingHolds(s: State, c: nat, p: int, accounts: seq<int>, rest: seq<int>)
    requires Inv(s) && c < |s.schedulers| && p in s.db.posts && s.db.posts[p].Claimable()
    requires accounts == AccountsOf(s.db.rows, s.db.nextRow, p) && accounts != []
    ensures Claiming(s, c, p, accounts, rest) && Distinct(accounts)
  {
    ClaimableIsUnclaimed(s, p);
    AccountsOfIsTheListing(s.db, p);
    RunningPast(s, c, p, accounts, rest);
  }

  lemma RunningPast(s: State, c: nat, p: int, accounts: seq<int>, rest: seq<int>)
    requires c < |s.schedulers| && p in s.db.posts && p !in s.past.claims && forall k :: k in s.past.lost ==> k.post != p
    ensures var past := Running(s, c, p, accounts, rest).past;
            past.claims == s.past.claims[p := NewClaim(accounts, s.db.posts[p].publishedAt)] && past.lost == s.past.lost
  {
    ForgetUnclaimed(s.past, p);
  }

  lemma RunningKeepsInv(s: State, c: nat, p: int, accounts: seq<int>, rest: seq<int>)
    requires Inv(s) && c < |s.schedulers| && !s.schedulers[c].Pushing?
    requires p in s.db.posts && s.db.posts[p].Claimable()
    requires accounts == AccountsOf(s.db.rows, s.db.nextRow, p) && accounts != []
    ensures Inv(Running(s, c, p, accounts, rest))
  {
    ClaimingHolds(s, c, p, accounts, rest);
    ClaimingTokens(s, c, p, accounts, rest);
    ClaimingTallies(s, c, p, accounts, rest);
    RunningKeepsPosts(s, p, accounts);
    ClaimingClosed(s, c, p, accounts, rest);
    NewClaimKeepsInv(s, Running(s, c, p, accounts, rest), p, NewClaim(accounts, s.db.posts[p].publishedAt));
  }

  lemma NewClaimKeepsInv(s: State, s': State, p: int, claim: Claim)
    requires Inv(s) && p !in s.past.claims && s'.past.claims == s.past.claims[p := claim]
    requires s'.workers == s.workers && s'.db.rows == s.db.rows && s'.db.catalog == s.db.catalog
    requires TokensOk(Live(s'), s'.past.claims, s'.past.lost)
    requires RowsMatch(s'.db, s'.past.claims, s'.past.lost, Live(s'))
    requires TalliesOk(s') && PostsOk(s'.db.posts, s'.db.rows, s'.past.claims)
    requires ClosedOk(s'.workers, Live(s'), s'.past.claims)
    ensures Inv(s')
  {
    NewClaimKeepsCounts(s.workers, s.db.rows, s.past.claims, p, claim);
  }

  lemma ClaimKeepsInv(s: State, c: nat)
    requires Inv(s) && c < |s.schedulers| && s.schedulers[c].Scanning? && s.schedulers[c].todo != []
    ensures Inv(ClaimStep(s, c))
  {
    var p, rest := s.schedulers[c].todo[0], s.schedulers[c].todo[1..];
    if p !in s.db.posts || !s.db.posts[p].Claimable() {
      IdleListKeepsInv(s, c, Scanning(rest));
    } else if AccountsOf(s.db.rows, s.db.nextRow, p) == [] {
      ClaimableIsUnclaimed(s, p);
      var failed := s.db.posts[p].(status := FAILED, scheduleStatus := COMPLETE);
      UnclaimedPostKeepsInv(s, p, failed);
      IdleListKeepsInv(s.(db := s.db.(posts := s.db.posts[p := failed])), c, Scanning(rest));
    } else {
      RunningKeepsInv(s, c, p, AccountsOf(s.db.rows, s.db.nextRow, p), rest);
    }
  }

  /** Changing the record of an existing post that is not claimed. */
  lemma UnclaimedPostKeepsInv(s: State, p: int, post: Post)
    requires Inv(s) && p in s.db.posts && p !in s.past.claims
    ensures Inv(s.(db := s.db.(posts := s.db.posts[p := post])))
  {
    var s' := s.(db := s.db.(posts := s.db.posts[p := post]));
    assert Live(s') == Live(s);
    SamePostRows(s.db, p, post, s.past.claims, s.past.lost, Live(s));
    UnclaimedKeepsPosts(s.db.posts, s.db.rows, s.past.claims, p, post);
    NewPostsKeepInv(s, s');
  }

  lemma SamePostRows(db: Db, p: int, post: Post, claims: Claims, lost: set<Key>, live: multiset<Key>)
    requires RowsMatch(db, claims, lost, live) && p in db.posts
    ensures RowsMatch(db.(posts := db.posts[p := post]), claims, lost, live)
  {}

  lemma UnclaimedKeepsPosts(posts: map<int, Post>, rows: map<int, Row>, claims: Claims, p: int, post: Post)
    requires PostsOk(posts, rows, claims) && p !in claims
    ensures PostsOk(posts[p := post], rows, claims)
  {
    forall q | q in claims ensures q in posts[p := post] && PostOk(posts[p := post][q], rows, q, claims[q]) {
      assert q in posts && posts[p := post][q] == posts[q];
    }
  }

  lemma NewPostsKeepInv(s: State, s': State)
    requires Inv(s) && s' == s.(db := s.db.(posts := s'.db.posts))
    requires RowsMatch(s'.db, s.past.claims, s.past.lost, Live(s)) && Live(s') == Live(s)
    requires PostsOk(s'.db.posts, s.db.rows, s.past.claims)
    ensures Inv(s')
  {}
}
