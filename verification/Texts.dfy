/** Which text is published for an account, and that only the post's own updates change it
    (internal/httpserver/posts_handlers.go:388-412, cmd/worker/main.go:387-452). */
module Texts {
  import opened Base
  import opened Providers
  import opened Content
  import opened Tables
  import opened Posts
  import opened Pipeline
  import opened Invariant
  import opened Shapes
  import opened Reach
  import opened Punctuality

  // ---------- the text of a saved post ----------

  /** Version i is the first one submitted for the account, or there is none for it and
      version i is the first original one. */
  ghost predicate Chosen(versions: seq<VersionInput>, account: int, i: nat) {
    && i < |versions|
    && (|| (versions[i].account == account && forall j :: 0 <= j < i ==> versions[j].account != account)
        || ((forall j :: 0 <= j < |versions| ==> versions[j].account != account)
            && versions[i].isOriginal && forall j :: 0 <= j < i ==> !versions[j].isOriginal))
  }

  lemma {:induction false} FirstWhereIs<T>(rows: seq<T>, keep: T -> bool, i: nat)
    requires i < |rows| && keep(rows[i]) && forall j :: 0 <= j < i ==> !keep(rows[j])
    ensures FirstWhere(rows, keep) == Some(rows[i])
  {
    if i > 0 {
      FirstWhereIs(rows[1..], keep, i - 1);
    }
  }

  lemma ChosenIsSubmitted(versions: seq<VersionInput>, account: int, i: nat)
    requires Chosen(versions, account, i)
    ensures SubmittedFor(versions, account) == Some(versions[i])
  {
    var own := (v: VersionInput) => v.account == account;
    var original := (v: VersionInput) => v.isOriginal;
    if versions[i].account == account {
      FirstWhereIs(versions, own, i);
    } else {
      assert FirstWhere(versions, own).None? by {
        assert forall v :: v in versions ==> v.account != account;
      }
      FirstWhereIs(versions, original, i);
    }
    assert FirstWhere(versions, (v: VersionInput) => v.account == account) == FirstWhere(versions, own);
    assert FirstWhere(versions, (v: VersionInput) => v.isOriginal) == FirstWhere(versions, original);
  }

  /** A saved post publishes for an account exactly the trimmed string the chosen version
      carries, and nothing if it carries none. */
  lemma ChosenVersionIsPublished(db: Db, p: int, form: PostForm, account: int, i: nat, t: string)
    requires SavePost(db, p, form).Ok? && Chosen(form.versions, account, i) && form.versions[i].content.Some?
    ensures var d := SavePost(db, p, form).value;
            PublishText(d.versions, d.nextVersion, p, account) == Ok(t)
            <==> t != "" && exists raw :: Carries(form.versions[i].content.value, raw) && Trim(raw) == t
  {
    PublishTextRefinesSubmission(db, p, form, account);
    ChosenIsSubmitted(form.versions, account, i);
    ExtractBodyMeaning(form.versions[i].content.value, t);
  }

  /** Without a version for the account or an original one, or without content in the chosen
      one, there is nothing to publish. */
  lemma NothingToPublish(db: Db, p: int, form: PostForm, account: int)
    requires SavePost(db, p, form).Ok?
    requires forall i: nat :: Chosen(form.versions, account, i) ==> form.versions[i].content.None?
    ensures var d := SavePost(db, p, form).value;
            PublishText(d.versions, d.nextVersion, p, account) == Err(InvalidContent)
  {
    PublishTextRefinesSubmission(db, p, form, account);
    var v := SubmittedFor(form.versions, account);
    if v.Some? {
      var i := SubmittedIsChosen(form.versions, account);
      assert ExtractBody(JNull) == Err(InvalidContent);
    }
  }

  lemma {:induction false} FirstWhereIndex<T>(rows: seq<T>, keep: T -> bool) returns (i: nat)
    requires FirstWhere(rows, keep).Some?
    ensures i < |rows| && rows[i] == FirstWhere(rows, keep).value && keep(rows[i])
    ensures forall j :: 0 <= j < i ==> !keep(rows[j])
  {
    if keep(rows[0]) {
      i := 0;
    } else {
      i := FirstWhereIndex(rows[1..], keep);
      i := i + 1;
    }
  }

  lemma SubmittedIsChosen(versions: seq<VersionInput>, account: int) returns (i: nat)
    requires SubmittedFor(versions, account).Some?
    ensures Chosen(versions, account, i) && SubmittedFor(versions, account) == Some(versions[i])
  {
    var own := (v: VersionInput) => v.account == account;
    var original := (v: VersionInput) => v.isOriginal;
    assert FirstWhere(versions, (v: VersionInput) => v.account == account) == FirstWhere(versions, own);
    assert FirstWhere(versions, (v: VersionInput) => v.isOriginal) == FirstWhere(versions, original);
    if FirstWhere(versions, own).Some? {
      i := FirstWhereIndex(versions, own);
    } else {
      assert forall j :: 0 <= j < |versions| ==> versions[j] in versions && !own(versions[j]);
      i := FirstWhereIndex(versions, original);
    }
  }

  // ---------- the texts of other posts ----------

  /** Taking out the versions of one post leaves every search for another one as it was. */
  lemma {:induction false} SearchSkips(versions: map<int, Version>, p: int, n: nat, keep: Version -> bool)
    requires forall v :: keep(v) ==> v.post != p
    ensures FirstWhere(InIdOrder(VersionsWithout(versions, p), n), keep) == FirstWhere(InIdOrder(versions, n), keep)
  {
    if n > 0 {
      SearchSkips(versions, p, n - 1, keep);
      var without := VersionsWithout(versions, p);
      var last := if n - 1 in versions then [versions[n - 1]] else [];
      var kept := if n - 1 in without then [without[n - 1]] else [];
      FirstWhereConcat(InIdOrder(versions, n - 1), last, keep);
      FirstWhereConcat(InIdOrder(without, n - 1), kept, keep);
    }
  }

  lemma SearchSkipsSaved(db: Db, p: int, form: PostForm, keep: Version -> bool)
    requires SavePost(db, p, form).Ok? && forall v :: keep(v) ==> v.post != p
    ensures var d := SavePost(db, p, form).value;
            FirstWhere(InIdOrder(d.versions, d.nextVersion), keep) == FirstWhere(InIdOrder(db.versions, db.nextVersion), keep)
  {
    var d, base := SavePost(db, p, form).value, SavedBase(db, p, form);
    SavedVersions(db, p, form);
    SearchSkips(db.versions, p, db.nextVersion, keep);
    var stored := StoredAll(p, form.versions);
    FirstWhereConcat(InIdOrder(base.versions, base.nextVersion), stored, keep);
    assert FirstWhere(stored, keep).None? by {
      assert forall v :: v in stored ==> v.post == p;
    }
  }

  /** The tables before the versions are inserted. */
  function SavedBase(db: Db, p: int, form: PostForm): Db {
    AddRows(Cleared(db, p, form), p, Dedup(form.accountIds)).(versions := VersionsWithout(db.versions, p))
  }

  lemma SavedVersions(db: Db, p: int, form: PostForm)
    requires SavePost(db, p, form).Ok?
    ensures SavedBase(db, p, form).nextVersion == db.nextVersion
    ensures var d, base := SavePost(db, p, form).value, SavedBase(db, p, form);
            && d.nextVersion == db.nextVersion + |form.versions|
            && InIdOrder(d.versions, d.nextVersion) == InIdOrder(base.versions, base.nextVersion) + StoredAll(p, form.versions)
  {
    AddRowsShape(Cleared(db, p, form), p, Dedup(form.accountIds));
    AddVersionsShape(SavedBase(db, p, form), p, form.versions);
    VersionsListing(SavedBase(db, p, form), p, form.versions);
    assert SavePost(db, p, form).value == AddVersions(SavedBase(db, p, form), p, form.versions);
  }

  /** Saving one post leaves the text of every other post, for every account, as it was. */
  lemma SaveKeepsOtherTexts(db: Db, p: int, form: PostForm, q: int, account: int)
    requires SavePost(db, p, form).Ok? && q != p
    ensures var d := SavePost(db, p, form).value;
            PublishText(d.versions, d.nextVersion, q, account) == PublishText(db.versions, db.nextVersion, q, account)
  {
    var d := SavePost(db, p, form).value;
    var own := (v: Version) => v.post == q && v.account == account;
    var original := (v: Version) => v.post == q && v.isOriginal;
    SearchSkipsSaved(db, p, form, own);
    SearchSkipsSaved(db, p, form, original);
    var before, after := InIdOrder(db.versions, db.nextVersion), InIdOrder(d.versions, d.nextVersion);
    assert forall rows :: FirstWhere(rows, (v: Version) => v.post == q && v.account == account) == FirstWhere(rows, own);
    assert forall rows :: FirstWhere(rows, (v: Version) => v.post == q && v.isOriginal) == FirstWhere(rows, original);
    assert VersionFor(after, q, account) == VersionFor(before, q, account);
  }

  // ---------- creating and updating ----------

  /** d is what creating a post, or updating post p, leaves. */
  predicate SavedAs(db: Db, p: int, form: PostForm, d: Db) {
    (p == db.nextPost && CreatePost(db, form) == Ok(d)) || UpdatePost(db, p, form) == Ok(d)
  }

  /** A request is accepted exactly if its account ids are positive and stored, its version
      accounts are not negative, and the post to update exists undeleted. */
  lemma SavesAccepted(db: Db, p: int, form: PostForm)
    ensures CreatePost(db, form).Ok? <==>
            && (forall a :: a in form.accountIds ==> a > 0 && a in db.catalog.accounts)
            && (forall v :: v in form.versions ==> v.account >= 0)
    ensures CreatePost(db, form).Err? ==> CreatePost(db, form).error == BadRequest
    ensures UpdatePost(db, p, form).Ok? <==> p in db.posts && !db.posts[p].deleted && CreatePost(db, form).Ok?
    ensures UpdatePost(db, p, form).Err? ==>
              UpdatePost(db, p, form).error == if p in db.posts && !db.posts[p].deleted then BadRequest else NotFound
  {
    SaveSucceeds(db, p, form);
    SaveSucceeds(db.(nextPost := db.nextPost + 1), db.nextPost, form);
    assert forall i :: 0 <= i < |form.accountIds| ==> form.accountIds[i] in form.accountIds;
    assert forall i :: 0 <= i < |form.versions| ==> form.versions[i] in form.versions;
  }

  /** A saved post has the submitted status, times and accounts, each once in order of first
      occurrence and all pending; every other post keeps its record, rows and texts. */
  lemma SavedPost(db: Db, p: int, form: PostForm, d: Db, q: int, account: int)
    requires RowsOk(db) && SavedAs(db, p, form, d)
    ensures RowsOk(d) && d.catalog == db.catalog
    ensures d.nextPost == if p == db.nextPost then p + 1 else db.nextPost
    ensures d.posts == db.posts[p := Post(form.status, form.scheduleStatus, form.scheduledAt, form.publishedAt, false)]
    ensures AccountsOf(d.rows, d.nextRow, p) == Dedup(form.accountIds)
    ensures forall i :: i in d.rows && d.rows[i].post == p ==> d.rows[i].providerPostId.None? && d.rows[i].errors.None?
    ensures forall i :: i in db.rows && db.rows[i].post != p ==> i in d.rows && d.rows[i] == db.rows[i]
    ensures forall i :: i in d.rows && d.rows[i].post != p ==> i in db.rows
    ensures q != p ==> PublishText(d.versions, d.nextVersion, q, account) == PublishText(db.versions, db.nextVersion, q, account)
  {
    var base := if p == db.nextPost then db.(nextPost := db.nextPost + 1) else db;
    SavedIsSave(db, p, form, d);
    SavePostRows(base, p, form);
    SavePostKeepsRowsOk(base, p, form);
    ReadBack(base, p, form);
    if q != p {
      SaveKeepsOtherTexts(base, p, form, q, account);
    }
  }

  lemma SavedIsSave(db: Db, p: int, form: PostForm, d: Db)
    requires RowsOk(db) && SavedAs(db, p, form, d)
    ensures p == db.nextPost ==> SavePost(db.(nextPost := db.nextPost + 1), p, form) == Ok(d)
    ensures p != db.nextPost ==> SavePost(db, p, form) == Ok(d) && 0 <= p < db.nextPost
  {}

  // ---------- over every run ----------

  function TextOf(db: Db, p: int, account: int): Result<string, Error> {
    PublishText(db.versions, db.nextVersion, p, account)
  }

  lemma CommitKeepsTexts(s: State, w: nat)
    requires Busy(s, w) && s.workers[w].Counted?
    ensures CommitStep(s, w).db.versions == s.db.versions && CommitStep(s, w).db.nextVersion == s.db.nextVersion
  {}

  lemma ClaimKeepsTexts(s: State, c: nat)
    requires c < |s.schedulers| && s.schedulers[c].Scanning? && s.schedulers[c].todo != []
    ensures ClaimStep(s, c).db.versions == s.db.versions && ClaimStep(s, c).db.nextVersion == s.db.nextVersion
  {}

  lemma ApiKeepsText(s: State, step: Step, p: int, account: int)
    requires RowsOk(s.db) && Enabled(s, step) && OfApi(step) && p in s.db.posts && !(step.EditPost? && step.p == p)
    ensures TextOf(Next(s, step).db, p, account) == TextOf(s.db, p, account)
  {
    if step.AddPost? {
      CreationKeepsText(s.db, step.form, p, account);
    } else if step.EditPost? {
      SaveKeepsOtherTexts(s.db, step.p, step.form, p, account);
    } else {
      OtherWritesKeepVersions(s, step);
    }
  }

  lemma CreationKeepsText(db: Db, form: PostForm, p: int, account: int)
    requires CreatePost(db, form).Ok? && p != db.nextPost
    ensures TextOf(CreatePost(db, form).value, p, account) == TextOf(db, p, account)
  {
    var base := db.(nextPost := db.nextPost + 1);
    assert CreatePost(db, form) == SavePost(base, db.nextPost, form);
    SaveKeepsText(base, db.nextPost, form, CreatePost(db, form).value, p, account);
  }

  lemma SaveKeepsText(db: Db, q: int, form: PostForm, d: Db, p: int, account: int)
    requires SavePost(db, q, form) == Ok(d) && p != q
    ensures TextOf(d, p, account) == TextOf(db, p, account)
  {
    SaveKeepsOtherTexts(db, q, form, p, account);
  }

  lemma OtherWritesKeepVersions(s: State, step: Step)
    requires Enabled(s, step) && OfApi(step) && !step.AddPost? && !step.EditPost?
    ensures Next(s, step).db.versions == s.db.versions && Next(s, step).db.nextVersion == s.db.nextVersion
  {}

  lemma StepKeepsText(s: State, step: Step, p: int, account: int)
    requires RowsOk(s.db) && Enabled(s, step) && p in s.db.posts && !(step.EditPost? && step.p == p)
    ensures TextOf(Next(s, step).db, p, account) == TextOf(s.db, p, account)
  {
    if step.Commit? {
      CommitKeepsTexts(s, step.w);
    } else if step.ClaimNext? {
      ClaimKeepsTexts(s, step.c);
    } else if OfApi(step) {
      ApiKeepsText(s, step, p, account);
    } else {
      OthersOnlyMove(s, step);
    }
  }

  /** What the last update of a post submitted for an account, or else what it was before. */
  ghost predicate TextFollows(before: Result<string, Error>, last: Option<PostForm>, account: int,
                              after: Result<string, Error>)
  {
    match last
    case None => after == before
    case Some(form) =>
      && (forall i: nat :: Chosen(form.versions, account, i) ==> TextOfVersion(form.versions[i], after))
      && ((forall i: nat :: !Chosen(form.versions, account, i)) ==> after == Err(InvalidContent))
  }

  ghost predicate TextOfVersion(version: VersionInput, text: Result<string, Error>) {
    match version.content
    case None => text == Err(InvalidContent)
    case Some(content) =>
      forall t :: text == Ok(t) <==> t != "" && exists raw :: Carries(content, raw) && Trim(raw) == t
  }

  lemma EditSetsText(s: State, p: int, form: PostForm, account: int)
    requires UpdatePost(s.db, p, form).Ok?
    ensures TextFollows(TextOf(s.db, p, account), Some(form), account, TextOf(UpdatePost(s.db, p, form).value, p, account))
  {
    var text := TextOf(UpdatePost(s.db, p, form).value, p, account);
    if forall i: nat :: !Chosen(form.versions, account, i) {
      NothingToPublish(s.db, p, form, account);
    }
    forall i: nat | Chosen(form.versions, account, i) ensures TextOfVersion(form.versions[i], text) {
      if form.versions[i].content.None? {
        ChosenIsSubmitted(form.versions, account, i);
        PublishTextRefinesSubmission(s.db, p, form, account);
        assert ExtractBody(JNull) == Err(InvalidContent);
      } else {
        forall t ensures text == Ok(t) <==>
            t != "" && exists raw :: Carries(form.versions[i].content.value, raw) && Trim(raw) == t
        {
          ChosenVersionIsPublished(s.db, p, form, account, i, t);
        }
      }
    }
  }

  /** Over every run the text of a post for an account changes only by updates of that post,
      and is then what the last of them submitted, whatever is saved, published, deleted or
      imported besides. */
  lemma {:induction false} TextFollowsEdits(s: State, steps: seq<Step>, p: int, account: int)
    requires Inv(s) && Runs(s, steps) && p in s.db.posts
    ensures TextFollows(TextOf(s.db, p, account), LastEdit(steps, p), account, TextOf(After(s, steps).db, p, account))
    decreases |steps|
  {
    if steps != [] {
      StepKeepsInv(s, steps[0]);
      PostsStay(s, steps[0], p);
      StepSetsText(s, steps[0], p, account);
      TextFollowsEdits(Next(s, steps[0]), steps[1..], p, account);
      FollowsThrough(TextOf(s.db, p, account), steps, p, account, TextOf(Next(s, steps[0]).db, p, account),
                     TextOf(After(s, steps).db, p, account));
    }
  }

  /** The form of the step, if it updates p. */
  function EditBy(step: Step, p: int): Option<PostForm> {
    if step.EditPost? && step.p == p then Some(step.form) else None
  }

  lemma StepSetsText(s: State, step: Step, p: int, account: int)
    requires Inv(s) && Enabled(s, step) && p in s.db.posts
    ensures TextFollows(TextOf(s.db, p, account), EditBy(step, p), account, TextOf(Next(s, step).db, p, account))
  {
    if step.EditPost? && step.p == p {
      EditSetsText(s, p, step.form, account);
    } else {
      StepKeepsText(s, step, p, account);
    }
  }

  lemma FollowsThrough(t0: Result<string, Error>, steps: seq<Step>, p: int, account: int, t1: Result<string, Error>,
                       t2: Result<string, Error>)
    requires steps != []
    requires TextFollows(t0, EditBy(steps[0], p), account, t1) && TextFollows(t1, LastEdit(steps[1..], p), account, t2)
    ensures TextFollows(t0, LastEdit(steps, p), account, t2)
  {}

  lemma PostsStay(s: State, step: Step, p: int)
    requires Inv(s) && Enabled(s, step) && p in s.db.posts
    ensures p in Next(s, step).db.posts
  {
    if step.EditPost? && step.p == p {
      EditSetsSchedule(s, p, step.form);
    } else {
      StepKeepsSchedule(s, step, p);
    }
  }
}
