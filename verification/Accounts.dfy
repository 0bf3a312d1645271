/** The accounts table (internal/httpserver/accounts_handlers.go). */
module Accounts {
  import opened Base
  import opened Providers
  import opened ServiceRules
  import opened Services
  import opened Tables

  datatype AccountForm = AccountForm(
    name: string,
    username: Option<string>,
    provider: string,
    providerId: string,
    data: Config,
    authorized: bool,
    token: Config
  )

  ghost predicate AccountOk(a: Account) {
    && a.name != "" && Trimmed(a.name)
    && IsProviderName(a.provider)
    && Trim(a.providerId) != ""
  }

  /** Every account is usable and UNIQUE (provider, provider_id) holds. */
  ghost predicate AccountsOk(c: Catalog) {
    && (forall id :: id in c.accounts ==> 0 <= id < c.nextAccount && AccountOk(c.accounts[id]))
    && (forall i, j :: i in c.accounts && j in c.accounts && SameIdentity(c.accounts[i], c.accounts[j]) ==> i == j)
  }

  predicate SameIdentity(a: Account, b: Account) {
    a.provider == b.provider && a.providerId == b.providerId
  }

  ghost predicate CatalogOk(c: Catalog) {
    ServicesOk(c) && AccountsOk(c)
  }

  predicate IdentityTaken(accounts: map<int, Account>, provider: string, providerId: string, except: int) {
    exists id | id in accounts :: id != except && accounts[id].provider == provider && accounts[id].providerId == providerId
  }

  /** The checks shared by create and update, in the handlers' order. */
  function Submitted(c: Catalog, form: AccountForm): Result<Account, ApiError> {
    var name, provider, providerId := Trim(form.name), Normalize(form.provider), Trim(form.providerId);
    if name == "" || provider == "" || providerId == "" then Err(BadRequest)
    else if !KnownProvider(provider) then Err(BadRequest)
    else if form.authorized && form.token == map[] then Err(BadRequest)
    else if EnsureProviderServiceReady(c, provider).Some? then Err(Unprocessable)
    else Ok(Account(name, form.username, provider, providerId, form.data, form.authorized, form.token))
  }

  function CreateAccount(c: Catalog, form: AccountForm): Result<Catalog, ApiError> {
    var a := Submitted(c, form);
    if a.Err? then Err(a.error)
    else if IdentityTaken(c.accounts, a.value.provider, a.value.providerId, -1) then Err(Conflict)
    else Ok(c.(accounts := c.accounts[c.nextAccount := a.value], nextAccount := c.nextAccount + 1))
  }

  function UpdateAccount(c: Catalog, id: int, form: AccountForm): Result<Catalog, ApiError> {
    var a := Submitted(c, form);
    if a.Err? then Err(a.error)
    else if id !in c.accounts then Err(NotFound)
    else if IdentityTaken(c.accounts, a.value.provider, a.value.providerId, id) then Err(Conflict)
    else Ok(c.(accounts := c.accounts[id := a.value]))
  }

  /** The row an account deletion removes; post_accounts rows go with it (ON DELETE CASCADE). */
  function RemoveAccount(c: Catalog, id: int): Catalog {
    c.(accounts := c.accounts - {id})
  }

  /** The worker's `UPDATE accounts SET authorized = FALSE` (cmd/worker/main.go:200-209). */
  function MarkUnauthorized(c: Catalog, id: int): Catalog {
    if id in c.accounts then c.(accounts := c.accounts[id := c.accounts[id].(authorized := false)]) else c
  }

  /** The id of the account with an identity, if one is stored. */
  function Find(c: Catalog, n: nat, provider: string, providerId: string): (r: Option<int>)
    ensures r.Some? ==> r.value in c.accounts && 0 <= r.value < n
                        && c.accounts[r.value].provider == provider && c.accounts[r.value].providerId == providerId
    ensures r.None? ==> forall id :: id in c.accounts && 0 <= id < n ==>
                          !(c.accounts[id].provider == provider && c.accounts[id].providerId == providerId)
  {
    if n == 0 then None
    else if n - 1 in c.accounts && c.accounts[n - 1].provider == provider && c.accounts[n - 1].providerId == providerId
    then Some(n - 1)
    else Find(c, n - 1, provider, providerId)
  }

  function Lookup(c: Catalog, provider: string, providerId: string): Option<Account> {
    var id := Find(c, c.nextAccount, provider, providerId);
    if id.Some? then Some(c.accounts[id.value]) else None
  }

  // ---------- what the writes mean ----------

  /** A lookup by identity finds exactly the account that carries it. */
  lemma LookupFinds(c: Catalog, id: int)
    requires CatalogOk(c) && id in c.accounts
    ensures Lookup(c, c.accounts[id].provider, c.accounts[id].providerId) == Some(c.accounts[id])
  {
    var a := c.accounts[id];
    var found := Find(c, c.nextAccount, a.provider, a.providerId);
    assert SameIdentity(c.accounts[found.value], a);
  }

  lemma LookupMeaning(c: Catalog, provider: string, pid: string)
    requires CatalogOk(c)
    ensures Lookup(c, provider, pid).None? <==> !IdentityTaken(c.accounts, provider, pid, -1)
    ensures Lookup(c, provider, pid).Some? ==>
              exists id :: id in c.accounts && c.accounts[id] == Lookup(c, provider, pid).value
                && c.accounts[id].provider == provider && c.accounts[id].providerId == pid
  {}

  /** What a request must bring, given the services. */
  predicate AccountFormOk(c: Catalog, form: AccountForm) {
    && Trim(form.name) != "" && Trim(form.providerId) != "" && KnownProvider(form.provider)
    && (form.authorized ==> form.token != map[])
    && EnsureProviderServiceReady(c, form.provider).None?
  }

  function FormAccount(form: AccountForm): Account {
    Account(Trim(form.name), form.username, Normalize(form.provider), Trim(form.providerId),
            form.data, form.authorized, form.token)
  }

  /** The checks see a provider only in its normalized form. */
  lemma NormalizedProvider(c: Catalog, provider: string)
    ensures KnownProvider(Normalize(provider)) == KnownProvider(provider)
    ensures EnsureProviderServiceReady(c, Normalize(provider)) == EnsureProviderServiceReady(c, provider)
  {
    NormalizeTwice(provider);
    assert ServiceBindingForProvider(Normalize(provider)) == ServiceBindingForProvider(provider);
  }

  lemma FormAccountIsOk(form: AccountForm)
    requires Trim(form.name) != "" && Trim(form.providerId) != "" && KnownProvider(form.provider)
    ensures AccountOk(FormAccount(form))
  {
    assert Trim(Trim(form.providerId)) == Trim(form.providerId);
  }

  lemma SubmittedIsOk(c: Catalog, form: AccountForm)
    ensures Submitted(c, form).Ok? <==> AccountFormOk(c, form)
    ensures Submitted(c, form).Ok? ==> Submitted(c, form).value == FormAccount(form) && AccountOk(FormAccount(form))
  {
    NormalizedProvider(c, form.provider);
    if AccountFormOk(c, form) {
      FormAccountIsOk(form);
    }
  }

  /** Storing an account under a free identity. */
  lemma StoredKeepsOk(c: Catalog, id: int, a: Account, next: nat)
    requires AccountsOk(c) && AccountOk(a) && c.nextAccount <= next && 0 <= id < next
    requires forall i :: i in c.accounts && SameIdentity(c.accounts[i], a) ==> i == id
    ensures AccountsOk(c.(accounts := c.accounts[id := a], nextAccount := next))
  {}

  lemma StoredIsFound(c: Catalog, id: int, a: Account, next: nat, provider: string, pid: string)
    requires CatalogOk(c) && AccountOk(a) && c.nextAccount <= next && 0 <= id < next
    requires forall i :: i in c.accounts && SameIdentity(c.accounts[i], a) ==> i == id
    ensures Lookup(c.(accounts := c.accounts[id := a], nextAccount := next), provider, pid) ==
              if provider == a.provider && pid == a.providerId then Some(a)
              else if id in c.accounts && provider == c.accounts[id].provider && pid == c.accounts[id].providerId then None
              else Lookup(c, provider, pid)
  {
    var d := c.(accounts := c.accounts[id := a], nextAccount := next);
    StoredKeepsOk(c, id, a, next);
    LookupMeaning(c, provider, pid);
    LookupMeaning(d, provider, pid);
    if provider == a.provider && pid == a.providerId {
      LookupFinds(d, id);
    } else if i :| i in c.accounts && i != id && c.accounts[i].provider == provider && c.accounts[i].providerId == pid {
      LookupFinds(c, i);
      LookupFinds(d, i);
    }
  }

  lemma CreateAccountKeepsOk(c: Catalog, form: AccountForm)
    requires CatalogOk(c) && CreateAccount(c, form).Ok?
    ensures CatalogOk(CreateAccount(c, form).value)
  {
    SubmittedIsOk(c, form);
    StoredKeepsOk(c, c.nextAccount, FormAccount(form), c.nextAccount + 1);
  }

  lemma CreateSucceeds(c: Catalog, form: AccountForm)
    requires CatalogOk(c)
    ensures CreateAccount(c, form).Ok? <==>
            AccountFormOk(c, form) && Lookup(c, Normalize(form.provider), Trim(form.providerId)).None?
    ensures CreateAccount(c, form).Ok? ==>
              CreateAccount(c, form).value
              == c.(accounts := c.accounts[c.nextAccount := FormAccount(form)], nextAccount := c.nextAccount + 1)
  {
    SubmittedIsOk(c, form);
    LookupMeaning(c, Normalize(form.provider), Trim(form.providerId));
  }

  /** A creation succeeds exactly for an acceptable form whose identity no lookup finds yet;
      then lookups find the normalized account under its identity and all others as before. */
  lemma CreatedAccountIsFound(c: Catalog, form: AccountForm, provider: string, pid: string)
    requires CatalogOk(c)
    ensures CreateAccount(c, form).Ok? <==>
            AccountFormOk(c, form) && Lookup(c, Normalize(form.provider), Trim(form.providerId)).None?
    ensures CreateAccount(c, form).Ok? ==>
              Lookup(CreateAccount(c, form).value, provider, pid) ==
                if provider == Normalize(form.provider) && pid == Trim(form.providerId) then Some(FormAccount(form))
                else Lookup(c, provider, pid)
  {
    CreateSucceeds(c, form);
    if CreateAccount(c, form).Ok? {
      SubmittedIsOk(c, form);
      LookupMeaning(c, Normalize(form.provider), Trim(form.providerId));
      StoredIsFound(c, c.nextAccount, FormAccount(form), c.nextAccount + 1, provider, pid);
    }
  }

  lemma UpdateAccountKeepsOk(c: Catalog, id: int, form: AccountForm)
    requires CatalogOk(c) && UpdateAccount(c, id, form).Ok?
    ensures CatalogOk(UpdateAccount(c, id, form).value)
  {
    SubmittedIsOk(c, form);
    StoredKeepsOk(c, id, FormAccount(form), c.nextAccount);
  }

  /** An update succeeds exactly for a stored account and an acceptable form whose identity is
      its own or free; then the account is found under the new identity, no longer under the
      old one, and all others as before. */
  lemma UpdatedAccountIsFound(c: Catalog, id: int, form: AccountForm, provider: string, pid: string)
    requires CatalogOk(c)
    ensures UpdateAccount(c, id, form).Ok? <==>
            && AccountFormOk(c, form) && id in c.accounts
            && (|| Lookup(c, Normalize(form.provider), Trim(form.providerId)).None?
                || SameIdentity(c.accounts[id], FormAccount(form)))
    ensures UpdateAccount(c, id, form).Ok? ==>
              Lookup(UpdateAccount(c, id, form).value, provider, pid) ==
                if provider == Normalize(form.provider) && pid == Trim(form.providerId) then Some(FormAccount(form))
                else if provider == c.accounts[id].provider && pid == c.accounts[id].providerId then None
                else Lookup(c, provider, pid)
  {
    SubmittedIsOk(c, form);
    LookupMeaning(c, Normalize(form.provider), Trim(form.providerId));
    if UpdateAccount(c, id, form).Ok? {
      StoredIsFound(c, id, FormAccount(form), c.nextAccount, provider, pid);
    }
  }

  // ---------- answers ----------

  /** A form is a bad request without name, known provider or provider id, or when it claims an
      authorization without a token; unprocessable while its service is not ready. */
  ghost predicate AccountAnswer(c: Catalog, form: AccountForm, missing: bool, taken: bool, r: Result<Catalog, ApiError>) {
    var known := Normalize(form.provider) == "facebook_page" || Normalize(form.provider) == "twitter"
                 || Normalize(form.provider) == "mastodon" || Normalize(form.provider) == "bluesky";
    var bad := Trim(form.name) == "" || Trim(form.providerId) == "" || !known || (form.authorized && form.token == map[]);
    var unready := EnsureProviderServiceReady(c, form.provider).Some?;
    && (r == Err(BadRequest) <==> bad)
    && (r == Err(Unprocessable) <==> !bad && unready)
    && (r == Err(NotFound) <==> !bad && !unready && missing)
    && (r == Err(Conflict) <==> !bad && !unready && !missing && taken)
  }

  ghost predicate OtherHasIdentity(c: Catalog, form: AccountForm, except: int) {
    exists id :: id in c.accounts && id != except && c.accounts[id].provider == Normalize(form.provider)
                 && c.accounts[id].providerId == Trim(form.providerId)
  }

  /** Which requests are refused, and how; whatever is not is stored. */
  lemma AccountAnswers(c: Catalog, id: int, form: AccountForm)
    requires CatalogOk(c)
    ensures AccountAnswer(c, form, false, OtherHasIdentity(c, form, -1), CreateAccount(c, form))
    ensures AccountAnswer(c, form, id !in c.accounts, OtherHasIdentity(c, form, id), UpdateAccount(c, id, form))
  {
    SubmittedIsOk(c, form);
    NormalizedProvider(c, form.provider);
    NormalizeTwice(form.provider);
  }

  /** The account a form describes, value by value. */
  ghost predicate HoldsForm(a: Account, form: AccountForm) {
    && a.name == Trim(form.name) && a.username == form.username
    && a.provider == Normalize(form.provider) && a.providerId == Trim(form.providerId)
    && a.data == form.data && a.authorized == form.authorized && a.token == form.token
  }

  /** What is stored, and that nothing else in the tables changes. */
  lemma AccountIsStored(c: Catalog, id: int, form: AccountForm)
    ensures CreateAccount(c, form).Ok? ==>
              var d := CreateAccount(c, form).value;
              && c.nextAccount in d.accounts && HoldsForm(d.accounts[c.nextAccount], form)
              && d == c.(accounts := c.accounts[c.nextAccount := d.accounts[c.nextAccount]], nextAccount := c.nextAccount + 1)
    ensures UpdateAccount(c, id, form).Ok? ==>
              var d := UpdateAccount(c, id, form).value;
              id in d.accounts && HoldsForm(d.accounts[id], form) && d == c.(accounts := c.accounts[id := d.accounts[id]])
  {}

  // ---------- the cascade ----------

  /** ON DELETE CASCADE from accounts into post_accounts. */
  function RowsWithout(rows: map<int, Row>, a: int): map<int, Row> {
    map i | i in rows && rows[i].account != a :: rows[i]
  }

  function DeleteAccount(db: Db, a: int): Db {
    db.(catalog := RemoveAccount(db.catalog, a), rows := RowsWithout(db.rows, a))
  }

  /** A deletion takes away that account and the rows that carry it, as they are, and nothing
      else. */
  lemma DeletionTakesAccountAndRows(db: Db, a: int)
    ensures var d := DeleteAccount(db, a);
            && (forall b :: b in d.catalog.accounts <==> b in db.catalog.accounts && b != a)
            && (forall b :: b in d.catalog.accounts ==> d.catalog.accounts[b] == db.catalog.accounts[b])
            && (forall i :: i in d.rows <==> i in db.rows && db.rows[i].account != a)
            && (forall i :: i in d.rows ==> d.rows[i] == db.rows[i])
            && d == db.(rows := d.rows, catalog := db.catalog.(accounts := d.catalog.accounts))
  {}

  /** Deleting an account takes away the rows that carry it. */
  lemma RemovedRows(rows: map<int, Row>, a: int, k: Key)
    ensures HasRow(RowsWithout(rows, a), k) <==> HasRow(rows, k) && k.account != a
  {
    var rows' := RowsWithout(rows, a);
    if HasRow(rows, k) && k.account != a {
      var i :| i in rows && rows[i].At() == k;
      assert rows'[i].At() == k;
    }
    if HasRow(rows', k) {
      var i :| i in rows' && rows'[i].At() == k;
      assert rows[i].At() == k;
    }
  }

  function Without(xs: seq<int>, a: int): (r: seq<int>)
    ensures forall x :: x in r <==> x in xs && x != a
  {
    if xs == [] then []
    else
      assert xs == xs[..|xs| - 1] + [xs[|xs| - 1]];
      Without(xs[..|xs| - 1], a) + (if xs[|xs| - 1] == a then [] else [xs[|xs| - 1]])
  }

  lemma WithoutLast(xs: seq<int>, x: int, a: int)
    ensures Without(xs + [x], a) == Without(xs, a) + (if x == a then [] else [x])
  {
    assert (xs + [x])[..|xs|] == xs;
  }

  /** What row n - 1 adds to the listing of a post. */
  function LastListed(rows: map<int, Row>, n: nat, p: int): seq<int>
    requires n > 0
  {
    if n - 1 in rows && rows[n - 1].post == p then [rows[n - 1].account] else []
  }

  lemma ListingGrows(rows: map<int, Row>, n: nat, p: int)
    requires n > 0
    ensures AccountsOf(rows, n, p) == AccountsOf(rows, n - 1, p) + LastListed(rows, n, p)
  {}

  lemma LastWithout(rows: map<int, Row>, n: nat, p: int, a: int)
    requires n > 0
    ensures LastListed(RowsWithout(rows, a), n, p) == Without(LastListed(rows, n, p), a)
  {
    if n - 1 in rows && rows[n - 1].post == p {
      WithoutLast([], rows[n - 1].account, a);
      assert [] + [rows[n - 1].account] == [rows[n - 1].account];
    }
  }

  lemma WithoutGrows(xs: seq<int>, last: seq<int>, a: int)
    requires |last| <= 1
    ensures Without(xs + last, a) == Without(xs, a) + Without(last, a)
  {
    if last == [] {
      assert xs + last == xs;
    } else {
      WithoutLast(xs, last[0], a);
      WithoutLast([], last[0], a);
      assert [] + [last[0]] == last == [last[0]];
    }
  }

  lemma NothingListed(rows: map<int, Row>, p: int)
    ensures AccountsOf(rows, 0, p) == []
  {}

  lemma {:induction false} CascadeListing(rows: map<int, Row>, n: nat, p: int, a: int)
    ensures AccountsOf(RowsWithout(rows, a), n, p) == Without(AccountsOf(rows, n, p), a)
  {
    if n > 0 {
      CascadeListing(rows, n - 1, p, a);
      CascadeStep(rows, n, p, a);
    } else {
      NothingListed(rows, p);
      NothingListed(RowsWithout(rows, a), p);
    }
  }

  lemma CascadeStep(rows: map<int, Row>, n: nat, p: int, a: int)
    requires n > 0 && AccountsOf(RowsWithout(rows, a), n - 1, p) == Without(AccountsOf(rows, n - 1, p), a)
    ensures AccountsOf(RowsWithout(rows, a), n, p) == Without(AccountsOf(rows, n, p), a)
  {
    ListingGrows(rows, n, p);
    ListingGrows(RowsWithout(rows, a), n, p);
    LastWithout(rows, n, p, a);
    WithoutGrows(AccountsOf(rows, n - 1, p), LastListed(rows, n, p), a);
  }

  lemma DeletedIdentityIsFree(c: Catalog, a: int, provider: string, pid: string)
    requires CatalogOk(c) && a in c.accounts
    ensures CatalogOk(RemoveAccount(c, a))
    ensures Lookup(RemoveAccount(c, a), provider, pid) ==
              if provider == c.accounts[a].provider && pid == c.accounts[a].providerId then None else Lookup(c, provider, pid)
  {
    var d := RemoveAccount(c, a);
    LookupMeaning(c, provider, pid);
    LookupMeaning(d, provider, pid);
    if i :| i in c.accounts && i != a && c.accounts[i].provider == provider && c.accounts[i].providerId == pid {
      LookupFinds(c, i);
      LookupFinds(d, i);
    }
  }

  lemma DeletionKeepsRowsOk(db: Db, a: int)
    requires RowsOk(db)
    ensures RowsOk(DeleteAccount(db, a))
  {}

  /** A deletion takes the account from the listing of every post, in place, and keeps all
      constraints; its identity is free again and other accounts are found as before. */
  lemma DeletedAccountIsGone(db: Db, a: int, p: int, provider: string, pid: string)
    requires RowsOk(db) && CatalogOk(db.catalog) && a in db.catalog.accounts
    ensures var d := DeleteAccount(db, a);
            && RowsOk(d) && CatalogOk(d.catalog)
            && AccountsOf(d.rows, d.nextRow, p) == Without(AccountsOf(db.rows, db.nextRow, p), a)
            && Lookup(d.catalog, provider, pid) ==
                 if provider == db.catalog.accounts[a].provider && pid == db.catalog.accounts[a].providerId then None
                 else Lookup(db.catalog, provider, pid)
  {
    DeletionKeepsRowsOk(db, a);
    CascadeListing(db.rows, db.nextRow, p, a);
    DeletedIdentityIsFree(db.catalog, a, provider, pid);
  }
}
