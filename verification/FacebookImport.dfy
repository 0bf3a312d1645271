/** Importing managed Facebook pages as accounts
    (internal/httpserver/facebook_handlers.go:300-376). */
module FacebookImport {
  import opened Base
  import opened Providers
  import opened Tables
  import opened Accounts

  datatype Page = Page(id: string, name: string, category: string, username: string, accessToken: string)

  const PROVIDER := "facebook_page"

  predicate Importable(page: Page) {
    Trim(page.id) != "" && Trim(page.accessToken) != ""
  }

  /** What a page that cannot be imported is reported as. */
  function SkipLabel(page: Page): string {
    if Trim(page.id) == "" then Trim(page.name) else Trim(page.id)
  }

  function Filled(key: string, value: string): Config {
    if Trim(value) == "" then map[] else map[key := JString(Trim(value))]
  }

  function AccountFrom(page: Page, apiVersion: string): Account {
    Account(
      if Trim(page.name) == "" then Trim(page.id) else Trim(page.name),
      if Trim(page.username) == "" then None else Some(Trim(page.username)),
      PROVIDER,
      page.id,
      Filled("category", page.category) + Filled("username", page.username),
      true,
      map["page_access_token" := JString(Trim(page.accessToken)), "api_version" := JString(apiVersion)])
  }

  /** `INSERT ... ON CONFLICT (provider, provider_id) DO UPDATE`. */
  function Upsert(c: Catalog, a: Account): (r: (Catalog, int)) {
    var id := Find(c, c.nextAccount, a.provider, a.providerId);
    if id.Some? then (c.(accounts := c.accounts[id.value := a]), id.value)
    else (c.(accounts := c.accounts[c.nextAccount := a], nextAccount := c.nextAccount + 1), c.nextAccount)
  }

  datatype Import = Import(catalog: Catalog, imported: seq<int>, skipped: seq<string>)

  function ImportPages(c: Catalog, pages: seq<Page>, apiVersion: string): Import {
    if pages == [] then Import(c, [], [])
    else
      var before := ImportPages(c, pages[..|pages| - 1], apiVersion);
      var page := pages[|pages| - 1];
      if !Importable(page) then before.(skipped := before.skipped + [SkipLabel(page)])
      else
        var (catalog, id) := Upsert(before.catalog, AccountFrom(page, apiVersion));
        Import(catalog, before.imported + [id], before.skipped)
  }

  // ---------- the loop ----------

  method UpsertFacebookPageAccount(db: Database, page: Page, apiVersion: string) returns (id: int)
    modifies db
    ensures var spec := Upsert(old(db.Registry()), AccountFrom(page, apiVersion));
            id == spec.1 && db.Snapshot() == old(db.Snapshot()).(catalog := spec.0)
  {
    var name := Trim(page.name);
    if name == "" {
      name := Trim(page.id);
    }
    var data: Config := map[];
    var category := Trim(page.category);
    if category != "" {
      data := data["category" := JString(category)];
    }
    var username := Trim(page.username);
    if username != "" {
      data := data["username" := JString(username)];
    }
    var token: Config := map["page_access_token" := JString(Trim(page.accessToken)), "api_version" := JString(apiVersion)];
    var account := Account(name, if username == "" then None else Some(username), PROVIDER, page.id, data, true, token);
    assert account == AccountFrom(page, apiVersion) by {
      assert data == Filled("category", page.category) + Filled("username", page.username);
    }
    var existing := Find(db.Registry(), db.nextAccount, PROVIDER, page.id);
    if existing.Some? {
      id := existing.value;
    } else {
      id := db.nextAccount;
      db.nextAccount := db.nextAccount + 1;
    }
    db.accounts := db.accounts[id := account];
  }

  method ImportFacebookPages(db: Database, pages: seq<Page>, apiVersion: string)
    returns (imported: seq<int>, skipped: seq<string>)
    modifies db
    ensures var spec := ImportPages(old(db.Registry()), pages, apiVersion);
            imported == spec.imported && skipped == spec.skipped
            && db.Snapshot() == old(db.Snapshot()).(catalog := spec.catalog)
  {
    imported, skipped := [], [];
    for i := 0 to |pages|
      invariant var spec := ImportPages(old(db.Registry()), pages[..i], apiVersion);
                imported == spec.imported && skipped == spec.skipped
                && db.Snapshot() == old(db.Snapshot()).(catalog := spec.catalog)
    {
      assert pages[..i + 1][..i] == pages[..i];
      var page := pages[i];
      if Trim(page.id) == "" {
        skipped := skipped + [Trim(page.name)];
      } else if Trim(page.accessToken) == "" {
        skipped := skipped + [Trim(page.id)];
      } else {
        var id := UpsertFacebookPageAccount(db, page, apiVersion);
        imported := imported + [id];
      }
    }
    assert pages[..|pages|] == pages;
  }

  // ---------- properties ----------

  lemma FilledIsOk(page: Page, apiVersion: string)
    requires Importable(page)
    ensures AccountOk(AccountFrom(page, apiVersion))
  {}

  lemma UpsertKeepsIdentities(c: Catalog, a: Account)
    requires CatalogOk(c)
    ensures KeepsIdentities(c, Upsert(c, a).0)
    ensures Upsert(c, a).1 in Upsert(c, a).0.accounts && Upsert(c, a).0.accounts[Upsert(c, a).1] == a
  {}

  lemma UpsertKeepsOk(c: Catalog, a: Account)
    requires CatalogOk(c) && AccountOk(a)
    ensures CatalogOk(Upsert(c, a).0) && KeepsIdentities(c, Upsert(c, a).0)
    ensures Upsert(c, a).1 in Upsert(c, a).0.accounts && Upsert(c, a).0.accounts[Upsert(c, a).1] == a
  {
    var id := Find(c, c.nextAccount, a.provider, a.providerId);
    UpsertKeepsIdentities(c, a);
    if id.Some? {
      assert SameIdentity(c.accounts[id.value], a);
      StoredKeepsOk(c, id.value, a, c.nextAccount);
    } else {
      StoredKeepsOk(c, c.nextAccount, a, c.nextAccount + 1);
    }
  }

  lemma UpsertLookup(c: Catalog, a: Account, provider: string, pid: string)
    requires CatalogOk(c) && AccountOk(a)
    ensures Lookup(Upsert(c, a).0, provider, pid) ==
              if provider == a.provider && pid == a.providerId then Some(a) else Lookup(c, provider, pid)
  {
    var d := Upsert(c, a).0;
    UpsertKeepsOk(c, a);
    var before, after := Find(c, c.nextAccount, provider, pid), Find(d, d.nextAccount, provider, pid);
    if provider == a.provider && pid == a.providerId {
      LookupFinds(d, Upsert(c, a).1);
    } else if before.Some? {
      assert d.accounts[before.value] == c.accounts[before.value];
      LookupFinds(d, before.value);
    }
  }

  /** Stored accounts keep their id, provider and provider id. */
  ghost predicate KeepsIdentities(c: Catalog, d: Catalog) {
    forall id :: id in c.accounts ==> id in d.accounts && SameIdentity(c.accounts[id], d.accounts[id])
  }

  /** The last importable page with an id, if any. */
  function LastFor(pages: seq<Page>, pid: string): Option<Page> {
    if pages == [] then None
    else if Importable(pages[|pages| - 1]) && pages[|pages| - 1].id == pid then Some(pages[|pages| - 1])
    else LastFor(pages[..|pages| - 1], pid)
  }

  /** Every page is either imported or skipped. */
  lemma {:induction false} ImportCountsEveryPage(c: Catalog, pages: seq<Page>, apiVersion: string)
    ensures var r := ImportPages(c, pages, apiVersion); |r.imported| + |r.skipped| == |pages|
  {
    if pages != [] {
      ImportCountsEveryPage(c, pages[..|pages| - 1], apiVersion);
    }
  }

  /** The accounts table becomes the old one overridden by the last importable page of
      each id; all invariants of the table are kept. */
  lemma {:induction false} ImportOverrides(c: Catalog, pages: seq<Page>, apiVersion: string)
    requires CatalogOk(c)
    ensures CatalogOk(ImportPages(c, pages, apiVersion).catalog)
    ensures KeepsIdentities(c, ImportPages(c, pages, apiVersion).catalog)
    ensures forall provider, pid :: Lookup(ImportPages(c, pages, apiVersion).catalog, provider, pid) ==
              if provider == PROVIDER && LastFor(pages, pid).Some? then Some(AccountFrom(LastFor(pages, pid).value, apiVersion))
              else Lookup(c, provider, pid)
  {
    if pages != [] {
      var init, page := pages[..|pages| - 1], pages[|pages| - 1];
      ImportOverrides(c, init, apiVersion);
      if Importable(page) {
        var d, a := ImportPages(c, init, apiVersion).catalog, AccountFrom(page, apiVersion);
        FilledIsOk(page, apiVersion);
        UpsertKeepsOk(d, a);
        forall provider, pid
          ensures Lookup(Upsert(d, a).0, provider, pid) ==
              if provider == a.provider && pid == a.providerId then Some(a) else Lookup(d, provider, pid)
        {
          UpsertLookup(d, a, provider, pid);
        }
      }
    }
  }

  predicate IsOfPage(a: Account, pageId: string) {
    a.provider == "facebook_page" && a.providerId == pageId
  }

  /** What an imported account holds: the page's own values, trimmed, and its authorization. */
  ghost predicate HoldsPage(a: Account, page: Page, apiVersion: string) {
    && a.authorized && IsOfPage(a, page.id)
    && a.name == (if Trim(page.name) != "" then Trim(page.name) else Trim(page.id))
    && a.username == (if Trim(page.username) != "" then Some(Trim(page.username)) else None)
    && a.token == map["page_access_token" := JString(Trim(page.accessToken)), "api_version" := JString(apiVersion)]
    && (forall key :: key in a.data <==>
          (key == "category" && Trim(page.category) != "") || (key == "username" && Trim(page.username) != ""))
    && ("category" in a.data ==> a.data["category"] == JString(Trim(page.category)))
    && ("username" in a.data ==> a.data["username"] == JString(Trim(page.username)))
  }

  lemma AccountHoldsPage(page: Page, apiVersion: string)
    ensures HoldsPage(AccountFrom(page, apiVersion), page, apiVersion)
  {}

  /** Page i has an id and a token, and no later page with its id has a token. */
  ghost predicate LastWithToken(pages: seq<Page>, i: nat) {
    && i < |pages| && Trim(pages[i].id) != "" && Trim(pages[i].accessToken) != ""
    && forall j :: i < j < |pages| && pages[j].id == pages[i].id ==> Trim(pages[j].accessToken) == ""
  }

  lemma {:induction false} LastWithTokenIsLast(pages: seq<Page>, i: nat)
    requires LastWithToken(pages, i)
    ensures LastFor(pages, pages[i].id) == Some(pages[i])
  {
    var n := |pages| - 1;
    if i < n {
      assert LastWithToken(pages[..n], i);
      LastWithTokenIsLast(pages[..n], i);
    }
  }

  /** After an import exactly one account has the page's identity. It holds what the last
      page of that id with a token says, and is authorized, whatever was stored before. */
  lemma ImportedAccountHoldsPage(c: Catalog, pages: seq<Page>, apiVersion: string, i: nat) returns (id: int)
    requires CatalogOk(c) && LastWithToken(pages, i)
    ensures var d := ImportPages(c, pages, apiVersion).catalog;
            && id in d.accounts && HoldsPage(d.accounts[id], pages[i], apiVersion)
            && forall k :: k in d.accounts && IsOfPage(d.accounts[k], pages[i].id) ==> k == id
  {
    var d := ImportPages(c, pages, apiVersion).catalog;
    ImportOverrides(c, pages, apiVersion);
    LastWithTokenIsLast(pages, i);
    AccountHoldsPage(pages[i], apiVersion);
    assert Lookup(d, PROVIDER, pages[i].id) == Some(AccountFrom(pages[i], apiVersion));
    id := Find(d, d.nextAccount, PROVIDER, pages[i].id).value;
    forall k | k in d.accounts && IsOfPage(d.accounts[k], pages[i].id)
      ensures k == id
    {
      assert SameIdentity(d.accounts[k], d.accounts[id]);
    }
  }

  /** How many of the pages have an id and a token. */
  function WithToken(pages: seq<Page>): nat {
    if pages == [] then 0
    else
      var page := pages[|pages| - 1];
      WithToken(pages[..|pages| - 1]) + if Trim(page.id) != "" && Trim(page.accessToken) != "" then 1 else 0
  }

  /** What is reported about each page in turn: the id of the account it was imported as, or
      its id, or for want of one its name, as skipped. */
  ghost predicate ReportsPage(r: Import, pages: seq<Page>, i: nat)
    requires i < |pages|
  {
    Reports(r, pages[i], i, WithToken(pages[..i]))
  }

  /** Page i, with u importable ones before it. */
  ghost predicate Reports(r: Import, page: Page, i: nat, u: nat) {
    if Trim(page.id) != "" && Trim(page.accessToken) != "" then
      u < |r.imported| && r.imported[u] in r.catalog.accounts
      && IsOfPage(r.catalog.accounts[r.imported[u]], page.id)
    else
      u <= i && i - u < |r.skipped| && r.skipped[i - u] == if Trim(page.id) != "" then Trim(page.id) else Trim(page.name)
  }

  lemma {:induction false} ImportReports(c: Catalog, pages: seq<Page>, apiVersion: string)
    requires CatalogOk(c)
    ensures var r := ImportPages(c, pages, apiVersion);
            && |r.imported| == WithToken(pages) && |r.imported| + |r.skipped| == |pages|
            && forall i :: 0 <= i < |pages| ==> ReportsPage(r, pages, i)
  {
    if pages != [] {
      var n := |pages| - 1;
      ImportReports(c, pages[..n], apiVersion);
      ImportOverrides(c, pages[..n], apiVersion);
      var before, r := ImportPages(c, pages[..n], apiVersion), ImportPages(c, pages, apiVersion);
      OneMorePage(c, pages, apiVersion);
      forall i | 0 <= i < |pages| ensures ReportsPage(r, pages, i) {
        if i < n {
          assert ReportsPage(before, pages[..n], i);
          assert pages[..n][i] == pages[i] && pages[..n][..i] == pages[..i];
          ReportsStay(before, r, pages[i], i, WithToken(pages[..i]));
        } else {
          assert pages[..i] == pages[..n];
        }
      }
    }
  }

  /** The last page adds one report and keeps the accounts reported before. */
  lemma OneMorePage(c: Catalog, pages: seq<Page>, apiVersion: string)
    requires pages != [] && CatalogOk(ImportPages(c, pages[..|pages| - 1], apiVersion).catalog)
    ensures var before, r := ImportPages(c, pages[..|pages| - 1], apiVersion), ImportPages(c, pages, apiVersion);
            var page := pages[|pages| - 1];
            && KeepsIdentities(before.catalog, r.catalog)
            && before.imported <= r.imported && before.skipped <= r.skipped
            && if Importable(page) then
                 && r.skipped == before.skipped && |r.imported| == |before.imported| + 1
                 && var id := r.imported[|before.imported|];
                    id in r.catalog.accounts && HoldsPage(r.catalog.accounts[id], page, apiVersion)
               else
                 r.imported == before.imported && r.skipped == before.skipped + [SkipLabel(page)]
  {
    var before, page := ImportPages(c, pages[..|pages| - 1], apiVersion), pages[|pages| - 1];
    UpsertKeepsIdentities(before.catalog, AccountFrom(page, apiVersion));
    AccountHoldsPage(page, apiVersion);
  }

  lemma ReportsStay(before: Import, r: Import, page: Page, i: nat, u: nat)
    requires Reports(before, page, i, u)
    requires KeepsIdentities(before.catalog, r.catalog) && before.imported <= r.imported && before.skipped <= r.skipped
    ensures Reports(r, page, i, u)
  {
    assert u < |before.imported| ==> r.imported[u] == before.imported[u];
    assert u <= i && i - u < |before.skipped| ==> r.skipped[i - u] == before.skipped[i - u];
  }

  ghost predicate SameExtent(c: Catalog, d: Catalog) {
    && d.accounts.Keys == c.accounts.Keys && d.nextAccount == c.nextAccount
    && d.services == c.services && d.nextService == c.nextService
  }

  lemma UpsertOfStored(c: Catalog, a: Account)
    requires Lookup(c, a.provider, a.providerId).Some?
    ensures SameExtent(c, Upsert(c, a).0)
  {}

  /** When every importable page is already stored, importing adds no row. */
  lemma {:induction false} ImportOfStoredPages(c: Catalog, pages: seq<Page>, apiVersion: string)
    requires CatalogOk(c)
    requires forall i :: 0 <= i < |pages| && Importable(pages[i]) ==> Lookup(c, PROVIDER, pages[i].id).Some?
    ensures SameExtent(c, ImportPages(c, pages, apiVersion).catalog)
  {
    if pages != [] {
      var init, page := pages[..|pages| - 1], pages[|pages| - 1];
      assert forall i :: 0 <= i < |init| ==> init[i] == pages[i];
      ImportOfStoredPages(c, init, apiVersion);
      ImportOverrides(c, init, apiVersion);
      if Importable(page) {
        assert Lookup(c, PROVIDER, pages[|pages| - 1].id).Some?;
        UpsertOfStored(ImportPages(c, init, apiVersion).catalog, AccountFrom(page, apiVersion));
      }
    }
  }

  lemma {:induction false} LastForFinds(pages: seq<Page>, i: nat)
    requires i < |pages| && Importable(pages[i])
    ensures LastFor(pages, pages[i].id).Some?
  {
    if i < |pages| - 1 {
      LastForFinds(pages[..|pages| - 1], i);
    }
  }

  /** Importing the same list a second time changes nothing. */
  lemma ImportTwice(c: Catalog, pages: seq<Page>, apiVersion: string)
    requires CatalogOk(c)
    ensures var once := ImportPages(c, pages, apiVersion).catalog;
            ImportPages(once, pages, apiVersion).catalog == once
  {
    var once := ImportPages(c, pages, apiVersion).catalog;
    ImportOverrides(c, pages, apiVersion);
    forall i | 0 <= i < |pages| && Importable(pages[i]) ensures Lookup(once, PROVIDER, pages[i].id).Some? {
      LastForFinds(pages, i);
    }
    ImportOfStoredPages(once, pages, apiVersion);
    ImportOverrides(once, pages, apiVersion);
    var twice := ImportPages(once, pages, apiVersion).catalog;
    forall id | id in once.accounts ensures twice.accounts[id] == once.accounts[id] {
      var a := once.accounts[id];
      LookupFinds(once, id);
      LookupFinds(twice, id);
      assert Lookup(twice, a.provider, a.providerId) == Some(a);
    }
    assert twice.accounts == once.accounts;
  }

  /** The service's API version, else the one imported with the page, else the default. */
  function VersionUsed(config: Config, imported: string): string {
    if LookupString(config, "api_version") != "" then LookupString(config, "api_version")
    else if Trim(imported) != "" then Trim(imported)
    else DEFAULT_API_VERSION
  }

  /** An imported account is never refused before the call: whatever valid text is
      published goes to its own page, under its own page token. */
  lemma ImportedAccountIsPublishable(page: Page, apiVersion: string, config: Config, text: string)
    requires Importable(page) && text != "" && Trimmed(text)
    ensures Dispatch(Index(DEFAULT_CONNECTORS), AccountFrom(page, apiVersion), config, text)
         == Ok(GraphPost(Trim(page.id), text, Trim(page.accessToken), VersionUsed(config, apiVersion)))
  {
    var account := AccountFrom(page, apiVersion);
    PagesHaveAConnector();
    TokenOfPage(page, apiVersion);
    VersionOfPage(page, apiVersion, config);
    assert Prepare(FacebookPage, account, config, text)
        == Ok(GraphPost(Trim(page.id), text, Trim(page.accessToken), VersionUsed(config, apiVersion)));
  }

  lemma PagesHaveAConnector()
    ensures PROVIDER in Index(DEFAULT_CONNECTORS) && Index(DEFAULT_CONNECTORS)[PROVIDER] == FacebookPage
  {
    IndexFindsLast(DEFAULT_CONNECTORS, PROVIDER);
    DefaultManagerCoversKnownProviders(PROVIDER);
  }

  lemma TokenOfPage(page: Page, apiVersion: string)
    requires Importable(page)
    ensures PageToken(AccountFrom(page, apiVersion)) == Trim(page.accessToken)
  {
    var account := AccountFrom(page, apiVersion);
    var token := Trim(page.accessToken);
    var rest := [LookupString(account.token, "access_token"), LookupString(account.token, "token")];
    assert LookupString(account.token, "page_access_token") == token;
    FirstNonEmptyOf(token, rest);
    assert [token] + rest == [token, rest[0], rest[1]];
  }

  lemma VersionOfPage(page: Page, apiVersion: string, config: Config)
    ensures ApiVersion(AccountFrom(page, apiVersion), config) == VersionUsed(config, apiVersion)
  {
    var account := AccountFrom(page, apiVersion);
    var own, stored := LookupString(config, "api_version"), LookupString(account.token, "api_version");
    assert LookupString(account.data, "api_version") == "" && stored == Trim(apiVersion);
    FirstNonEmptyOfFour(own, LookupString(account.data, "api_version"), stored, DEFAULT_API_VERSION);
  }
}
