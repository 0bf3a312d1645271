/** The API's write requests on posts, services and accounts, and that each of them is the
    step of the pipeline that stands for it
    (internal/httpserver/posts_handlers.go, services_handlers.go, accounts_handlers.go). */
module Handlers {
  import opened Base
  import opened Providers
  import opened ServiceRules
  import opened Tables
  import opened FacebookImport
  import opened Services
  import opened Accounts
  import opened Posts
  import opened Pipeline

  // ---------- requests and steps ----------

  function OnCatalog(db: Db, r: Result<Catalog, ApiError>): Result<Db, ApiError> {
    match r
    case Ok(c) => Ok(db.(catalog := c))
    case Err(error) => Err(error)
  }

  /** A refused request says why and leaves no trace. */
  predicate Answers(db: Db, outcome: Result<Db, ApiError>, r: Option<ApiError>, db': Db) {
    match outcome
    case Ok(d) => r == None && db' == d
    case Err(error) => r == Some(error) && db' == db
  }

  predicate IsRequest(step: Step) {
    || step.AddPost? || step.EditPost? || step.RemovePost? || step.RemoveAccount?
    || (step.EditCatalog? && !step.op.DropAccount? && !step.op.Deauthorize?)
  }

  /** What the request for which a step stands does. */
  function Requested(db: Db, step: Step): Result<Db, ApiError>
    requires IsRequest(step)
  {
    match step
    case AddPost(form) => CreatePost(db, form)
    case EditPost(p, form) => UpdatePost(db, p, form)
    case RemovePost(p) => DeletePost(db, p)
    case RemoveAccount(a) => if a in db.catalog.accounts then Ok(DeleteAccount(db, a)) else Err(NotFound)
    case EditCatalog(op) =>
      OnCatalog(db,
                match op
                case AddService(form) => CreateService(db.catalog, form)
                case ChangeService(id, form) => UpdateService(db.catalog, id, form)
                case DropService(id) => DeleteService(db.catalog, id)
                case AddAccount(form) => CreateAccount(db.catalog, form)
                case ChangeAccount(id, form) => UpdateAccount(db.catalog, id, form)
                case ImportAccounts(pages, apiVersion) => Ok(ImportPages(db.catalog, pages, apiVersion).catalog))
  }

  /** Any request that is not turned down is a step of the pipeline leaving the same tables,
      unless it edits a post with live jobs; one that is turned down changes nothing, and
      neither does its step, if there is one. */
  lemma RequestIsStep(s: State, step: Step, r: Option<ApiError>, db': Db)
    requires IsRequest(step) && Answers(s.db, Requested(s.db, step), r, db') && (step.EditPost? ==> Quiet(s, step.p))
    ensures r.None? ==> Enabled(s, step)
    ensures Enabled(s, step) ==> db' == Next(s, step).db
    ensures r.Some? ==> db' == s.db
  {}

  // ---------- posts ----------

  method HandleCreatePost(db: Database, form: PostForm) returns (r: Option<ApiError>)
    requires RowsOk(db.Snapshot())
    modifies db
    ensures Answers(old(db.Snapshot()), CreatePost(old(db.Snapshot()), form), r, db.Snapshot())
    ensures r == if Acceptable(old(db.Registry()), form.accountIds) && Numbered(form.versions) then None else Some(BadRequest)
  {
    var begun := db.Snapshot();
    var p := db.nextPost;
    db.posts := db.posts[p := Post(form.status, form.scheduleStatus, form.scheduledAt, form.publishedAt, false)];
    db.nextPost := db.nextPost + 1;
    r := ReplacePostAccounts(db, p, form.accountIds);
    if r.None? {
      r := ReplacePostVersions(db, p, form.versions);
    }
    if r.Some? {
      db.Rollback(begun);
    }
  }

  method HandleUpdatePost(db: Database, p: int, form: PostForm) returns (r: Option<ApiError>)
    requires RowsOk(db.Snapshot())
    modifies db
    ensures Answers(old(db.Snapshot()), UpdatePost(old(db.Snapshot()), p, form), r, db.Snapshot())
    ensures r == if p !in old(db.posts) || old(db.posts)[p].deleted then Some(NotFound)
                 else if Acceptable(old(db.Registry()), form.accountIds) && Numbered(form.versions) then None
                 else Some(BadRequest)
  {
    var begun := db.Snapshot();
    if p !in db.posts || db.posts[p].deleted {
      return Some(NotFound);
    }
    db.posts := db.posts[p := Post(form.status, form.scheduleStatus, form.scheduledAt, form.publishedAt, false)];
    r := ReplacePostAccounts(db, p, form.accountIds);
    if r.None? {
      r := ReplacePostVersions(db, p, form.versions);
    }
    if r.Some? {
      db.Rollback(begun);
    }
  }

  method HandleDeletePost(db: Database, p: int) returns (r: Option<ApiError>)
    modifies db
    ensures Answers(old(db.Snapshot()), DeletePost(old(db.Snapshot()), p), r, db.Snapshot())
  {
    if p !in db.posts || db.posts[p].deleted {
      return Some(NotFound);
    }
    db.posts := db.posts[p := db.posts[p].(deleted := true)];
    r := None;
  }

  // ---------- services ----------

  method HandleCreateService(db: Database, form: ServiceForm) returns (r: Option<ApiError>)
    modifies db
    ensures Answers(old(db.Snapshot()), OnCatalog(old(db.Snapshot()), CreateService(old(db.Registry()), form)),
                    r, db.Snapshot())
  {
    var name := Normalize(form.name);
    if name == "" {
      return Some(BadRequest);
    }
    var problem := ValidateServiceConfiguration(name, form.configuration, form.active);
    if problem.Some? {
      return Some(Unprocessable);
    }
    if NameTaken(db.services, name, -1) {
      return Some(Conflict);
    }
    db.services := db.services[db.nextService := Service(name, form.configuration, form.active)];
    db.nextService := db.nextService + 1;
    r := None;
  }

  method HandleUpdateService(db: Database, id: int, form: ServiceForm) returns (r: Option<ApiError>)
    modifies db
    ensures Answers(old(db.Snapshot()), OnCatalog(old(db.Snapshot()), UpdateService(old(db.Registry()), id, form)),
                    r, db.Snapshot())
  {
    var name := Normalize(form.name);
    if name == "" {
      return Some(BadRequest);
    }
    var problem := ValidateServiceConfiguration(name, form.configuration, form.active);
    if problem.Some? {
      return Some(Unprocessable);
    }
    if id !in db.services {
      return Some(NotFound);
    }
    if NameTaken(db.services, name, id) {
      return Some(Conflict);
    }
    db.services := db.services[id := Service(name, form.configuration, form.active)];
    r := None;
  }

  method HandleDeleteService(db: Database, id: int) returns (r: Option<ApiError>)
    modifies db
    ensures Answers(old(db.Snapshot()), OnCatalog(old(db.Snapshot()), DeleteService(old(db.Registry()), id)),
                    r, db.Snapshot())
  {
    if id !in db.services {
      return Some(NotFound);
    }
    db.services := db.services - {id};
    r := None;
  }

  // ---------- accounts ----------

  method HandleCreateAccount(db: Database, form: AccountForm) returns (r: Option<ApiError>)
    modifies db
    ensures Answers(old(db.Snapshot()), OnCatalog(old(db.Snapshot()), CreateAccount(old(db.Registry()), form)),
                    r, db.Snapshot())
  {
    var name, provider, providerId := Trim(form.name), Normalize(form.provider), Trim(form.providerId);
    if name == "" || provider == "" || providerId == "" {
      return Some(BadRequest);
    }
    if !KnownProvider(provider) {
      return Some(BadRequest);
    }
    if form.authorized && form.token == map[] {
      return Some(BadRequest);
    }
    var unready := EnsureProviderServiceReady(db.Registry(), provider);
    if unready.Some? {
      return Some(Unprocessable);
    }
    if IdentityTaken(db.accounts, provider, providerId, -1) {
      return Some(Conflict);
    }
    db.accounts := db.accounts[db.nextAccount :=
                                 Account(name, form.username, provider, providerId, form.data, form.authorized, form.token)];
    db.nextAccount := db.nextAccount + 1;
    r := None;
  }

  method HandleUpdateAccount(db: Database, id: int, form: AccountForm) returns (r: Option<ApiError>)
    modifies db
    ensures Answers(old(db.Snapshot()), OnCatalog(old(db.Snapshot()), UpdateAccount(old(db.Registry()), id, form)),
                    r, db.Snapshot())
  {
    var name, provider, providerId := Trim(form.name), Normalize(form.provider), Trim(form.providerId);
    if name == "" || provider == "" || providerId == "" {
      return Some(BadRequest);
    }
    if !KnownProvider(provider) {
      return Some(BadRequest);
    }
    if form.authorized && form.token == map[] {
      return Some(BadRequest);
    }
    var unready := EnsureProviderServiceReady(db.Registry(), provider);
    if unready.Some? {
      return Some(Unprocessable);
    }
    if id !in db.accounts {
      return Some(NotFound);
    }
    if IdentityTaken(db.accounts, provider, providerId, id) {
      return Some(Conflict);
    }
    db.accounts := db.accounts[id :=
                                 Account(name, form.username, provider, providerId, form.data, form.authorized, form.token)];
    r := None;
  }

  /** `DELETE FROM accounts`, with the cascade into post_accounts. */
  method HandleDeleteAccount(db: Database, id: int) returns (r: Option<ApiError>)
    modifies db
    ensures Answers(old(db.Snapshot()),
                    if id in old(db.accounts) then Ok(DeleteAccount(old(db.Snapshot()), id)) else Err(NotFound),
                    r, db.Snapshot())
  {
    if id !in db.accounts {
      return Some(NotFound);
    }
    db.accounts := db.accounts - {id};
    db.rows := RowsWithout(db.rows, id);
    r := None;
  }
}
