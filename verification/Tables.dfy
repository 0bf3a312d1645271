/** The Postgres tables the pipeline reads and writes
    (migrations/0001_init.up.sql), as a value and as the mutable database. */
module Tables {
  import opened Base
  import opened Providers
  import opened Content

  const SCHEDULED := 1
  const PUBLISHED := 2
  const FAILED := 3

  const PENDING := 0
  const RUNNING := 1
  const COMPLETE := 2

  datatype Post = Post(
    status: int,
    scheduleStatus: int,
    scheduledAt: Option<int>,
    publishedAt: Option<int>,
    deleted: bool
  ) {
    /** What the scheduler's claim requires (cmd/scheduler/main.go:150-159). */
    predicate Claimable() {
      status == SCHEDULED && scheduleStatus == PENDING && !deleted
    }

    /** What the scan selects (cmd/scheduler/main.go:94-104). */
    predicate Due(now: int) {
      Claimable() && scheduledAt.Some? && scheduledAt.value <= now
    }
  }

  datatype Key = Key(post: int, account: int)

  /** A post_accounts row. */
  datatype Row = Row(post: int, account: int, providerPostId: Option<string>, errors: Option<Error>) {
    predicate Pending() { providerPostId.None? && errors.None? }
    predicate Posted() { providerPostId.Some? && errors.None? }
    function At(): Key { Key(post, account) }
  }

  datatype Service = Service(name: string, configuration: Config, active: bool)

  datatype Catalog = Catalog(
    accounts: map<int, Account>, nextAccount: nat,
    services: map<int, Service>, nextService: nat
  )

  datatype Db = Db(
    posts: map<int, Post>, nextPost: nat,
    rows: map<int, Row>, nextRow: nat,
    versions: map<int, Version>, nextVersion: nat,
    catalog: Catalog
  )

  // ---------- post_accounts queries ----------

  predicate HasRow(rows: map<int, Row>, k: Key) {
    exists i | i in rows :: rows[i].At() == k
  }

  predicate HasOpenRow(rows: map<int, Row>, k: Key) {
    exists i | i in rows :: rows[i].At() == k && rows[i].Pending()
  }

  /** The ids of the rows of a post, in id order. */
  function IdsOf(rows: map<int, Row>, n: nat, p: int): (ids: seq<int>)
    ensures forall i :: i in ids <==> 0 <= i < n && i in rows && rows[i].post == p
  {
    if n == 0 then []
    else IdsOf(rows, n - 1, p) + (if n - 1 in rows && rows[n - 1].post == p then [n - 1] else [])
  }

  /** `SELECT account_id FROM post_accounts WHERE post_id = p ORDER BY id`. */
  function AccountsOf(rows: map<int, Row>, n: nat, p: int): seq<int> {
    var ids := IdsOf(rows, n, p);
    seq(|ids|, u requires 0 <= u < |ids| => assert ids[u] in ids; rows[ids[u]].account)
  }

  function PendingCount(rows: map<int, Row>, p: int): nat {
    |set i | i in rows && rows[i].post == p && rows[i].Pending()|
  }

  function FailedCount(rows: map<int, Row>, p: int): nat {
    |set i | i in rows && rows[i].post == p && rows[i].errors.Some?|
  }

  /** UNIQUE (post_id, account_id), primary keys below their sequences, and the foreign
      keys to posts and accounts. */
  ghost predicate RowsOk(db: Db) {
    && (forall p :: p in db.posts ==> 0 <= p < db.nextPost)
    && (forall i :: i in db.rows ==> 0 <= i < db.nextRow)
    && (forall i, j :: i in db.rows && j in db.rows && db.rows[i].At() == db.rows[j].At() ==> i == j)
    && (forall i :: i in db.rows ==> db.rows[i].post in db.posts && db.rows[i].account in db.catalog.accounts)
  }

  predicate Distinct(xs: seq<int>) {
    forall i, j :: 0 <= i < j < |xs| ==> xs[i] != xs[j]
  }

  lemma {:induction false} IdsOfAscends(rows: map<int, Row>, n: nat, p: int)
    ensures forall u, v :: 0 <= u < v < |IdsOf(rows, n, p)| ==> IdsOf(rows, n, p)[u] < IdsOf(rows, n, p)[v]
  {
    if n > 0 {
      IdsOfAscends(rows, n - 1, p);
      var before := IdsOf(rows, n - 1, p);
      assert forall u :: 0 <= u < |before| ==> before[u] in before;
    }
  }

  /** The listing names exactly the accounts of the post's rows, each once. */
  lemma AccountsOfIsTheListing(db: Db, p: int)
    requires RowsOk(db)
    ensures Distinct(AccountsOf(db.rows, db.nextRow, p))
    ensures forall a :: a in AccountsOf(db.rows, db.nextRow, p) <==> HasRow(db.rows, Key(p, a))
  {
    var ids, accounts := IdsOf(db.rows, db.nextRow, p), AccountsOf(db.rows, db.nextRow, p);
    IdsOfAscends(db.rows, db.nextRow, p);
    forall u, v | 0 <= u < v < |ids| ensures accounts[u] != accounts[v] {
      assert ids[u] in ids && ids[v] in ids && ids[u] < ids[v];
      assert db.rows[ids[u]].At() != db.rows[ids[v]].At();
    }
    forall a ensures a in accounts <==> HasRow(db.rows, Key(p, a)) {
      if a in accounts {
        var u :| 0 <= u < |ids| && accounts[u] == a;
        assert ids[u] in ids && db.rows[ids[u]].At() == Key(p, a);
      }
      if HasRow(db.rows, Key(p, a)) {
        var i :| i in db.rows && db.rows[i].At() == Key(p, a);
        assert i in ids;
        var u :| 0 <= u < |ids| && ids[u] == i;
        assert accounts[u] == a;
      }
    }
  }

  lemma Pick<T>(s: set<T>) returns (x: T)
    requires |s| > 0
    ensures x in s
  {
    x :| x in s;
  }

  lemma CountsMeaning(rows: map<int, Row>, p: int)
    ensures PendingCount(rows, p) > 0 <==> exists i :: i in rows && rows[i].post == p && rows[i].Pending()
    ensures FailedCount(rows, p) > 0 <==> exists i :: i in rows && rows[i].post == p && rows[i].errors.Some?
  {
    var pending := set i | i in rows && rows[i].post == p && rows[i].Pending();
    var failed := set i | i in rows && rows[i].post == p && rows[i].errors.Some?;
    if i :| i in rows && rows[i].post == p && rows[i].Pending() { assert i in pending; }
    if i :| i in rows && rows[i].post == p && rows[i].errors.Some? { assert i in failed; }
    if |pending| > 0 { var i := Pick(pending); assert i in rows; }
    if |failed| > 0 { var i := Pick(failed); assert i in rows; }
  }

  // ---------- the mutable database ----------

  class Database {
    var posts: map<int, Post>
    var nextPost: nat
    var rows: map<int, Row>
    var nextRow: nat
    var versions: map<int, Version>
    var nextVersion: nat
    var accounts: map<int, Account>
    var nextAccount: nat
    var services: map<int, Service>
    var nextService: nat

    function Registry(): Catalog
      reads this
    {
      Catalog(accounts, nextAccount, services, nextService)
    }

    function Snapshot(): Db
      reads this
    {
      Db(posts, nextPost, rows, nextRow, versions, nextVersion, Registry())
    }

    /** ROLLBACK: back to the tables seen when the transaction began. */
    method Rollback(begun: Db)
      modifies this
      ensures Snapshot() == begun
    {
      posts, nextPost := begun.posts, begun.nextPost;
      rows, nextRow := begun.rows, begun.nextRow;
      versions, nextVersion := begun.versions, begun.nextVersion;
      accounts, nextAccount := begun.catalog.accounts, begun.catalog.nextAccount;
      services, nextService := begun.catalog.services, begun.catalog.nextService;
    }
  }
}
