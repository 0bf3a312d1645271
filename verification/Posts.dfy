/** Writing and reading back posts with their accounts and versions
    (internal/httpserver/posts_handlers.go). */
module Posts {
  import opened Base
  import opened Providers
  import opened Content
  import opened Tables

  datatype VersionInput = VersionInput(account: int, isOriginal: bool, content: Option<Json>)

  datatype PostForm = PostForm(
    status: int,
    scheduleStatus: int,
    scheduledAt: Option<int>,
    publishedAt: Option<int>,
    accountIds: seq<int>,
    versions: seq<VersionInput>
  )

  // ---------- accounts of a post ----------

  /** The first occurrence of each element, in order. */
  function Dedup(xs: seq<int>): (r: seq<int>)
    ensures forall x :: x in r <==> x in xs
    ensures Distinct(r)
  {
    if xs == [] then []
    else
      var init, last := xs[..|xs| - 1], xs[|xs| - 1];
      assert xs == init + [last];
      if last in init then Dedup(init) else Dedup(init) + [last]
  }

  function WithoutPost(rows: map<int, Row>, p: int): map<int, Row> {
    map i | i in rows && rows[i].post != p :: rows[i]
  }

  /** One INSERT per account, in order. */
  function AddRows(db: Db, p: int, accounts: seq<int>): Db {
    if accounts == [] then db
    else
      var d := AddRows(db, p, accounts[..|accounts| - 1]);
      d.(rows := d.rows[d.nextRow := Row(p, accounts[|accounts| - 1], None, None)], nextRow := d.nextRow + 1)
  }

  predicate Acceptable(c: Catalog, accountIds: seq<int>) {
    forall i | 0 <= i < |accountIds| :: accountIds[i] > 0 && accountIds[i] in c.accounts
  }

  function ReplaceAccounts(db: Db, p: int, accountIds: seq<int>): Result<Db, ApiError> {
    if !Acceptable(db.catalog, accountIds) then Err(BadRequest)
    else Ok(AddRows(db.(rows := WithoutPost(db.rows, p)), p, Dedup(accountIds)))
  }

  // ---------- versions of a post ----------

  function Stored(p: int, v: VersionInput): Version {
    Version(p, v.account, v.isOriginal, if v.content.Some? then v.content.value else JNull)
  }

  function AddVersions(db: Db, p: int, versions: seq<VersionInput>): Db {
    if versions == [] then db
    else
      var d := AddVersions(db, p, versions[..|versions| - 1]);
      d.(versions := d.versions[d.nextVersion := Stored(p, versions[|versions| - 1])], nextVersion := d.nextVersion + 1)
  }

  function VersionsWithout(versions: map<int, Version>, p: int): map<int, Version> {
    map i | i in versions && versions[i].post != p :: versions[i]
  }

  predicate Numbered(versions: seq<VersionInput>) {
    forall i | 0 <= i < |versions| :: versions[i].account >= 0
  }

  function ReplaceVersions(db: Db, p: int, versions: seq<VersionInput>): Result<Db, ApiError> {
    if !Numbered(versions) then Err(BadRequest)
    else Ok(AddVersions(db.(versions := VersionsWithout(db.versions, p)), p, versions))
  }

  // ---------- whole requests ----------

  function SavePost(db: Db, p: int, form: PostForm): Result<Db, ApiError> {
    var post := Post(form.status, form.scheduleStatus, form.scheduledAt, form.publishedAt, false);
    var d := ReplaceAccounts(db.(posts := db.posts[p := post]), p, form.accountIds);
    if d.Err? then d else ReplaceVersions(d.value, p, form.versions)
  }

  function CreatePost(db: Db, form: PostForm): Result<Db, ApiError> {
    SavePost(db.(nextPost := db.nextPost + 1), db.nextPost, form)
  }

  function UpdatePost(db: Db, p: int, form: PostForm): Result<Db, ApiError> {
    if p !in db.posts || db.posts[p].deleted then Err(NotFound)
    else SavePost(db, p, form)
  }

  /** The soft delete of a post that is not already deleted. */
  function DeletePost(db: Db, p: int): Result<Db, ApiError> {
    if p !in db.posts || db.posts[p].deleted then Err(NotFound)
    else Ok(db.(posts := db.posts[p := db.posts[p].(deleted := true)]))
  }

  /** A deletion is accepted exactly for a stored post that is not deleted yet; it marks that
      post, keeps everything else of its record, and touches nothing else. */
  lemma DeletionMarks(db: Db, p: int)
    ensures DeletePost(db, p).Ok? <==> p in db.posts && !db.posts[p].deleted
    ensures DeletePost(db, p).Err? ==> DeletePost(db, p).error == NotFound
    ensures DeletePost(db, p).Ok? ==>
              var d := DeletePost(db, p).value;
              && d == db.(posts := d.posts) && (forall q :: q in d.posts <==> q in db.posts)
              && d.posts[p].deleted && d.posts[p].status == db.posts[p].status
              && d.posts[p].scheduleStatus == db.posts[p].scheduleStatus
              && d.posts[p].scheduledAt == db.posts[p].scheduledAt && d.posts[p].publishedAt == db.posts[p].publishedAt
              && forall q :: q in db.posts && q != p ==> d.posts[q] == db.posts[q]
  {}

  // ---------- the loops ----------

  /** INSERT INTO post_accounts: fails on the unique and foreign key constraints. */
  method InsertPostAccount(db: Database, p: int, a: int) returns (ok: bool)
    modifies db
    ensures ok <==> !HasRow(old(db.rows), Key(p, a)) && a in old(db.accounts) && p in old(db.posts)
    ensures db.Snapshot() == if ok then AddRows(old(db.Snapshot()), p, [a]) else old(db.Snapshot())
  {
    ok := !HasRow(db.rows, Key(p, a)) && a in db.accounts && p in db.posts;
    if ok {
      assert [a][..0] == [];
      db.rows := db.rows[db.nextRow := Row(p, a, None, None)];
      db.nextRow := db.nextRow + 1;
    }
  }

  /** One more id of the request: a repeated id adds nothing, a new one a row that the
      constraints let in exactly when the id is positive and stored. */
  lemma OneMoreAccount(db: Db, p: int, ids: seq<int>, i: nat)
    requires i < |ids|
    requires forall r :: r in db.rows ==> r < db.nextRow && db.rows[r].post != p
    ensures var before, after := AddRows(db, p, Dedup(ids[..i])), AddRows(db, p, Dedup(ids[..i + 1]));
            && before.catalog == db.catalog && before.posts == db.posts
            && (HasRow(before.rows, Key(p, ids[i])) <==> ids[i] in ids[..i])
            && after == if ids[i] in ids[..i] then before else AddRows(before, p, [ids[i]])
    ensures Acceptable(db.catalog, ids[..i + 1]) <==>
            Acceptable(db.catalog, ids[..i]) && ids[i] > 0 && ids[i] in db.catalog.accounts
  {
    assert ids[..i + 1] == ids[..i] + [ids[i]];
    AddRowsShape(db, p, Dedup(ids[..i]));
    AddRowsKeys(db, p, Dedup(ids[..i]), Key(p, ids[i]));
    AddRowsOne(db, p, Dedup(ids[..i]), ids[i]);
  }

  method ReplacePostAccounts(db: Database, p: int, accountIds: seq<int>) returns (r: Option<ApiError>)
    requires p in db.posts
    requires RowsOk(db.Snapshot())
    modifies db
    ensures var spec := ReplaceAccounts(old(db.Snapshot()), p, accountIds);
            if spec.Ok? then r == None && db.Snapshot() == spec.value else r == Some(spec.error)
  {
    db.rows := WithoutPost(db.rows, p);
    ghost var cleared := db.Snapshot();
    var seen: set<int> := {};
    for i := 0 to |accountIds|
      invariant forall a :: a in seen <==> a in accountIds[..i]
      invariant db.Snapshot() == AddRows(cleared, p, Dedup(accountIds[..i]))
      invariant Acceptable(cleared.catalog, accountIds[..i])
    {
      var a := accountIds[i];
      OneMoreAccount(cleared, p, accountIds, i);
      assert forall b :: b in accountIds[..i + 1] <==> b in accountIds[..i] || b == a;
      if a <= 0 {
        return Some(BadRequest);
      }
      if a in seen {
        continue;
      }
      seen := seen + {a};
      var ok := InsertPostAccount(db, p, a);
      if !ok {
        return Some(BadRequest);
      }
    }
    assert accountIds[..|accountIds|] == accountIds;
    r := None;
  }

  method ReplacePostVersions(db: Database, p: int, versions: seq<VersionInput>) returns (r: Option<ApiError>)
    modifies db
    ensures var spec := ReplaceVersions(old(db.Snapshot()), p, versions);
            if spec.Ok? then r == None && db.Snapshot() == spec.value else r == Some(spec.error)
  {
    db.versions := VersionsWithout(db.versions, p);
    ghost var cleared := db.Snapshot();
    for i := 0 to |versions|
      invariant db.Snapshot() == AddVersions(cleared, p, versions[..i])
      invariant forall j :: 0 <= j < i ==> versions[j].account >= 0
    {
      var version := versions[i];
      if version.account < 0 {
        return Some(BadRequest);
      }
      var content := if version.content.Some? then version.content.value else JNull;
      assert versions[..i + 1][..i] == versions[..i];
      db.versions := db.versions[db.nextVersion := Version(p, version.account, version.isOriginal, content)];
      db.nextVersion := db.nextVersion + 1;
    }
    assert versions[..|versions|] == versions;
    r := None;
  }

  // ---------- what the row loop leaves ----------

  lemma AddRowsOne(db: Db, p: int, accounts: seq<int>, a: int)
    ensures AddRows(db, p, accounts + [a]) == AddRows(AddRows(db, p, accounts), p, [a])
  {
    assert (accounts + [a])[..|accounts|] == accounts;
    assert [a][..0] == [];
  }

  /** Fresh rows for `accounts` sit at consecutive ids from db.nextRow; nothing else changed. */
  ghost predicate Appended(db: Db, d: Db, p: int, accounts: seq<int>) {
    && d.nextRow == db.nextRow + |accounts|
    && d == db.(rows := d.rows, nextRow := d.nextRow)
    && (forall i :: i < db.nextRow || i >= d.nextRow ==> (i in d.rows <==> i in db.rows))
    && (forall i :: (i < db.nextRow || i >= d.nextRow) && i in d.rows ==> d.rows[i] == db.rows[i])
    && (forall i :: db.nextRow <= i < d.nextRow ==> i in d.rows && d.rows[i] == Row(p, accounts[i - db.nextRow], None, None))
  }

  lemma {:induction false} AddRowsShape(db: Db, p: int, accounts: seq<int>)
    ensures Appended(db, AddRows(db, p, accounts), p, accounts)
  {
    if accounts != [] {
      AddRowsShape(db, p, accounts[..|accounts| - 1]);
    }
  }

  lemma AddRowsKeys(db: Db, p: int, accounts: seq<int>, k: Key)
    requires forall i :: i in db.rows ==> i < db.nextRow
    ensures HasRow(AddRows(db, p, accounts).rows, k) <==> HasRow(db.rows, k) || (k.post == p && k.account in accounts)
  {
    var d := AddRows(db, p, accounts);
    AddRowsShape(db, p, accounts);
    if HasRow(db.rows, k) {
      var i :| i in db.rows && db.rows[i].At() == k;
      assert d.rows[i].At() == k;
    }
    if k.post == p && k.account in accounts {
      var u :| 0 <= u < |accounts| && accounts[u] == k.account;
      assert d.rows[db.nextRow + u].At() == k;
    }
  }

  /** The rows of other posts, and their ids, are the ones there were. */
  ghost predicate SameElsewhere(rows: map<int, Row>, rows': map<int, Row>, p: int) {
    && (forall i :: i in rows && rows[i].post != p ==> i in rows' && rows'[i] == rows[i])
    && (forall i :: i in rows' && rows'[i].post != p ==> i in rows && rows'[i] == rows[i])
  }

  /** The tables just before the first INSERT of a save. */
  function Cleared(db: Db, p: int, form: PostForm): Db {
    db.(posts := db.posts[p := Post(form.status, form.scheduleStatus, form.scheduledAt, form.publishedAt, false)],
        rows := WithoutPost(db.rows, p))
  }

  lemma SaveUnfolds(db: Db, p: int, form: PostForm)
    requires SavePost(db, p, form).Ok?
    ensures var d := SavePost(db, p, form).value;
            && Appended(Cleared(db, p, form), AddRows(Cleared(db, p, form), p, Dedup(form.accountIds)),
                        p, Dedup(form.accountIds))
            && d.rows == AddRows(Cleared(db, p, form), p, Dedup(form.accountIds)).rows
            && d.nextRow == AddRows(Cleared(db, p, form), p, Dedup(form.accountIds)).nextRow
            && d.posts == Cleared(db, p, form).posts && d.nextPost == db.nextPost
            && d.catalog == db.catalog
  {
    var added := AddRows(Cleared(db, p, form), p, Dedup(form.accountIds));
    AddRowsShape(Cleared(db, p, form), p, Dedup(form.accountIds));
    AddVersionsShape(added.(versions := VersionsWithout(added.versions, p)), p, form.versions);
  }

  /** A save fails exactly on an account id that is not positive or not stored, or on a
      negative version account. */
  lemma SaveSucceeds(db: Db, p: int, form: PostForm)
    ensures SavePost(db, p, form).Ok? <==> Acceptable(db.catalog, form.accountIds) && Numbered(form.versions)
  {}

  /** A saved post has one fresh row for each requested account and for no other; rows of
      other posts and the catalog are untouched. */
  lemma SavePostRows(db: Db, p: int, form: PostForm)
    requires RowsOk(db) && 0 <= p < db.nextPost
    requires SavePost(db, p, form).Ok?
    ensures var d := SavePost(db, p, form).value;
            && d.catalog == db.catalog && d.nextPost == db.nextPost
            && d.posts == db.posts[p := Post(form.status, form.scheduleStatus, form.scheduledAt, form.publishedAt, false)]
            && SameElsewhere(db.rows, d.rows, p)
            && (forall i :: i in d.rows && d.rows[i].post == p ==> d.rows[i].Pending())
            && (forall a :: HasRow(d.rows, Key(p, a)) <==> a in form.accountIds)
  {
    SaveUnfolds(db, p, form);
    forall a ensures HasRow(SavePost(db, p, form).value.rows, Key(p, a)) <==> a in form.accountIds {
      AddRowsKeys(Cleared(db, p, form), p, Dedup(form.accountIds), Key(p, a));
    }
  }

  lemma AppendedKeepsRowsOk(db: Db, d: Db, p: int, accounts: seq<int>)
    requires RowsOk(db) && p in db.posts && (forall i :: i in db.rows ==> db.rows[i].post != p)
    requires Appended(db, d, p, accounts) && Distinct(accounts) && forall a :: a in accounts ==> a in db.catalog.accounts
    ensures RowsOk(d)
  {
    forall i, j | i in d.rows && j in d.rows && d.rows[i].At() == d.rows[j].At() ensures i == j {
      if i >= db.nextRow && j >= db.nextRow {
        assert accounts[i - db.nextRow] == accounts[j - db.nextRow];
      }
    }
    forall i | i in d.rows ensures d.rows[i].post in d.posts && d.rows[i].account in d.catalog.accounts {
      if i >= db.nextRow {
        assert accounts[i - db.nextRow] in accounts;
      }
    }
  }

  lemma ClearedIsOk(db: Db, p: int, form: PostForm)
    requires RowsOk(db) && 0 <= p < db.nextPost
    ensures RowsOk(Cleared(db, p, form))
  {}

  /** Saving keeps every constraint: in particular no INSERT can violate uniqueness. */
  lemma SavePostKeepsRowsOk(db: Db, p: int, form: PostForm)
    requires RowsOk(db) && 0 <= p < db.nextPost
    requires SavePost(db, p, form).Ok?
    ensures RowsOk(SavePost(db, p, form).value)
  {
    var cleared, accounts := Cleared(db, p, form), Dedup(form.accountIds);
    ClearedIsOk(db, p, form);
    SaveSucceeds(db, p, form);
    SaveUnfolds(db, p, form);
    AppendedKeepsRowsOk(cleared, AddRows(cleared, p, accounts), p, accounts);
  }

  /** The read-back lists the first occurrences of the requested accounts in request order. */
  lemma ReadBack(db: Db, p: int, form: PostForm)
    requires RowsOk(db) && 0 <= p < db.nextPost
    requires SavePost(db, p, form).Ok?
    ensures var d := SavePost(db, p, form).value;
            AccountsOf(d.rows, d.nextRow, p) == Dedup(form.accountIds)
  {
    SaveUnfolds(db, p, form);
    ListingOfAdded(Cleared(db, p, form), p, Dedup(form.accountIds));
  }

  lemma ListingOfAdded(db: Db, p: int, accounts: seq<int>)
    requires forall i :: i in db.rows ==> i < db.nextRow && db.rows[i].post != p
    ensures var d := AddRows(db, p, accounts);
            AccountsOf(d.rows, d.nextRow, p) == accounts
  {
    AddRowsShape(db, p, accounts);
    ListingOfAppended(db, AddRows(db, p, accounts), p, accounts);
  }

  /** A post whose rows have the ids from lo on lists their accounts. */
  lemma ListingOfRange(rows: map<int, Row>, lo: nat, n: nat, p: int, accounts: seq<int>)
    requires n == lo + |accounts|
    requires forall i :: 0 <= i < n ==> (i in rows && rows[i].post == p <==> lo <= i)
    requires forall i :: lo <= i < n ==> rows[i].account == accounts[i - lo]
    ensures AccountsOf(rows, n, p) == accounts
  {
    IdsOfRange(rows, lo, n, p);
  }

  lemma ListingOfAppended(db: Db, d: Db, p: int, accounts: seq<int>)
    requires forall i :: i in db.rows ==> i < db.nextRow && db.rows[i].post != p
    requires Appended(db, d, p, accounts)
    ensures AccountsOf(d.rows, d.nextRow, p) == accounts
  {
    FreshRows(db, d, p, accounts);
    ListingOfRange(d.rows, db.nextRow, d.nextRow, p, accounts);
  }

  lemma FreshRows(db: Db, d: Db, p: int, accounts: seq<int>)
    requires forall i :: i in db.rows ==> i < db.nextRow && db.rows[i].post != p
    requires Appended(db, d, p, accounts)
    ensures forall i :: 0 <= i < d.nextRow ==> (i in d.rows && d.rows[i].post == p <==> db.nextRow <= i)
    ensures forall i :: db.nextRow <= i < d.nextRow ==> d.rows[i].account == accounts[i - db.nextRow]
  {}

  lemma {:induction false} IdsOfNone(rows: map<int, Row>, n: nat, p: int)
    requires forall i :: 0 <= i < n ==> !(i in rows && rows[i].post == p)
    ensures IdsOf(rows, n, p) == []
  {
    if n > 0 {
      IdsOfNone(rows, n - 1, p);
    }
  }

  /** When the rows of a post are exactly those with an id from lo on, listing them lists that range. */
  lemma {:induction false} IdsOfRange(rows: map<int, Row>, lo: nat, n: nat, p: int)
    requires lo <= n && forall i :: 0 <= i < n ==> (i in rows && rows[i].post == p <==> lo <= i)
    ensures |IdsOf(rows, n, p)| == n - lo && forall u :: 0 <= u < n - lo ==> IdsOf(rows, n, p)[u] == lo + u
  {
    if n > lo {
      IdsOfRange(rows, lo, n - 1, p);
    } else {
      IdsOfNone(rows, lo, p);
    }
  }

  lemma {:induction false} DedupOfDistinct(xs: seq<int>)
    requires Distinct(xs)
    ensures Dedup(xs) == xs
  {
    if xs != [] {
      DedupOfDistinct(xs[..|xs| - 1]);
      assert xs == xs[..|xs| - 1] + [xs[|xs| - 1]];
    }
  }

  /** Dedup keeps the order of first occurrences: x stands before y in the result
      exactly when x is met first in the request. */
  lemma {:induction false} DedupKeepsFirstOrder(xs: seq<int>, i: nat, j: nat)
    requires i < j < |xs| && xs[i] != xs[j]
    requires xs[i] !in xs[..i] && xs[j] !in xs[..j]
    ensures exists u, v :: 0 <= u < v < |Dedup(xs)| && Dedup(xs)[u] == xs[i] && Dedup(xs)[v] == xs[j]
  {
    var n := |xs| - 1;
    var init := xs[..n];
    assert xs == init + [xs[n]];
    if j < n {
      assert init[..i] == xs[..i] && init[..j] == xs[..j];
      DedupKeepsFirstOrder(init, i, j);
      var u, v :| 0 <= u < v < |Dedup(init)| && Dedup(init)[u] == xs[i] && Dedup(init)[v] == xs[j];
      assert Dedup(xs)[u] == xs[i] && Dedup(xs)[v] == xs[j];
    } else {
      assert init[i] == xs[i];
      assert xs[i] in Dedup(init);
      var u :| 0 <= u < |Dedup(init)| && Dedup(init)[u] == xs[i];
      assert Dedup(xs)[u] == xs[i] && Dedup(xs)[|Dedup(init)|] == xs[j];
    }
  }

  /** Saving what was read back changes nothing about the account list. */
  lemma ReadBackIsFixedPoint(db: Db, p: int, form: PostForm, again: PostForm)
    requires RowsOk(db) && 0 <= p < db.nextPost
    requires SavePost(db, p, form).Ok?
    requires var d := SavePost(db, p, form).value; again.accountIds == AccountsOf(d.rows, d.nextRow, p)
    requires forall i :: 0 <= i < |again.versions| ==> again.versions[i].account >= 0
    ensures var d := SavePost(db, p, form).value;
            && SavePost(d, p, again).Ok?
            && var e := SavePost(d, p, again).value;
               AccountsOf(e.rows, e.nextRow, p) == AccountsOf(d.rows, d.nextRow, p)
  {
    var d := SavePost(db, p, form).value;
    ReadBack(db, p, form);
    SaveUnfolds(db, p, form);
    SavePostKeepsRowsOk(db, p, form);
    assert Acceptable(d.catalog, again.accountIds) by {
      forall u | 0 <= u < |again.accountIds| ensures again.accountIds[u] > 0 && again.accountIds[u] in d.catalog.accounts {
        assert again.accountIds[u] in form.accountIds;
      }
    }
    SaveSucceeds(d, p, again);
    ReadBack(d, p, again);
    DedupOfDistinct(again.accountIds);
  }

  // ---------- what the version loop leaves ----------

  lemma {:induction false} AddVersionsShape(db: Db, p: int, versions: seq<VersionInput>)
    ensures var d := AddVersions(db, p, versions);
            && d == db.(versions := d.versions, nextVersion := d.nextVersion)
            && d.nextVersion == db.nextVersion + |versions|
  {
    if versions != [] {
      AddVersionsShape(db, p, versions[..|versions| - 1]);
    }
  }

  /** The submitted list as stored rows. */
  function StoredAll(p: int, versions: seq<VersionInput>): (r: seq<Version>)
    ensures |r| == |versions| && forall i :: 0 <= i < |r| ==> r[i] == Stored(p, versions[i])
  {
    if versions == [] then []
    else StoredAll(p, versions[..|versions| - 1]) + [Stored(p, versions[|versions| - 1])]
  }

  lemma {:induction false} InIdOrderAgree(table: map<int, Version>, table': map<int, Version>, n: nat)
    requires forall i :: 0 <= i < n ==> (i in table <==> i in table') && (i in table ==> table[i] == table'[i])
    ensures InIdOrder(table, n) == InIdOrder(table', n)
  {
    if n > 0 {
      InIdOrderAgree(table, table', n - 1);
    }
  }

  lemma {:induction false} VersionsListing(db: Db, p: int, versions: seq<VersionInput>)
    ensures var d := AddVersions(db, p, versions);
            InIdOrder(d.versions, d.nextVersion) == InIdOrder(db.versions, db.nextVersion) + StoredAll(p, versions)
  {
    AddVersionsShape(db, p, versions);
    if versions != [] {
      var init := versions[..|versions| - 1];
      VersionsListing(db, p, init);
      AddVersionsShape(db, p, init);
      var d, e := AddVersions(db, p, versions), AddVersions(db, p, init);
      InIdOrderAgree(d.versions, e.versions, e.nextVersion);
    }
  }

  lemma {:induction false} FirstWhereConcat<T>(xs: seq<T>, ys: seq<T>, keep: T -> bool)
    ensures FirstWhere(xs + ys, keep) == if FirstWhere(xs, keep).Some? then FirstWhere(xs, keep) else FirstWhere(ys, keep)
  {
    if xs == [] {
      assert xs + ys == ys;
    } else {
      FirstWhereConcat(xs[1..], ys, keep);
      assert (xs + ys)[1..] == xs[1..] + ys;
    }
  }

  /** The list function the lookup refines: the first submitted version for the account,
      else the first original one. */
  function SubmittedFor(versions: seq<VersionInput>, account: int): Option<VersionInput> {
    var own := FirstWhere(versions, (v: VersionInput) => v.account == account);
    if own.Some? then own else FirstWhere(versions, (v: VersionInput) => v.isOriginal)
  }

  lemma {:induction false} FirstWhereStored(p: int, versions: seq<VersionInput>,
                                            keep: Version -> bool, keepInput: VersionInput -> bool)
    requires forall v :: keep(Stored(p, v)) == keepInput(v)
    ensures FirstWhere(StoredAll(p, versions), keep) ==
              match FirstWhere(versions, keepInput) case None => None case Some(v) => Some(Stored(p, v))
  {
    var stored := StoredAll(p, versions);
    if versions != [] {
      FirstWhereStored(p, versions[1..], keep, keepInput);
      assert StoredAll(p, versions[1..]) == stored[1..];
    }
  }

  /** The text published for an account is the text of the version the request put first
      for it, whatever else the table holds; without one there is no valid content. */
  lemma PublishTextRefinesSubmission(db: Db, p: int, form: PostForm, account: int)
    requires SavePost(db, p, form).Ok?
    ensures var d := SavePost(db, p, form).value;
            PublishText(d.versions, d.nextVersion, p, account) ==
              match SubmittedFor(form.versions, account)
              case None => Err(InvalidContent)
              case Some(v) => ExtractBody(Stored(p, v).content)
  {
    var cleared := Cleared(db, p, form);
    AddRowsShape(cleared, p, Dedup(form.accountIds));
    var added := AddRows(cleared, p, Dedup(form.accountIds));
    var base := added.(versions := VersionsWithout(db.versions, p));
    var d := AddVersions(base, p, form.versions);
    assert SavePost(db, p, form).value == d;
    var old', new' := InIdOrder(base.versions, base.nextVersion), StoredAll(p, form.versions);
    VersionsListing(base, p, form.versions);
    var own := (v: Version) => v.post == p && v.account == account;
    var original := (v: Version) => v.post == p && v.isOriginal;
    forall v | v in old' ensures v.post != p {
      InIdOrderMembers(base.versions, base.nextVersion, v);
    }
    FirstWhereConcat(old', new', own);
    FirstWhereConcat(old', new', original);
    FirstWhereStored(p, form.versions, own, (v: VersionInput) => v.account == account);
    FirstWhereStored(p, form.versions, original, (v: VersionInput) => v.isOriginal);
    assert FirstWhere(old' + new', (v: Version) => v.post == p && v.account == account) == FirstWhere(old' + new', own);
    assert FirstWhere(old' + new', (v: Version) => v.post == p && v.isOriginal) == FirstWhere(old' + new', original);
  }
}
