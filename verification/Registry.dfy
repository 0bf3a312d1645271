/** Every way the accounts and services tables change, as one operation type, and
    what all runs of these operations keep. */
module Registry {
  import opened Base
  import opened Providers
  import opened Tables
  import opened Services
  import opened Accounts
  import opened FacebookImport

  datatype CatalogOp =
    | AddService(serviceForm: ServiceForm)
    | ChangeService(serviceId: int, serviceForm: ServiceForm)
    | DropService(serviceId: int)
    | AddAccount(accountForm: AccountForm)
    | ChangeAccount(accountId: int, accountForm: AccountForm)
    | ImportAccounts(pages: seq<Page>, apiVersion: string)
    | DropAccount(accountId: int)
    | Deauthorize(accountId: int)

  function OrUnchanged(c: Catalog, r: Result<Catalog, ApiError>): Catalog {
    if r.Ok? then r.value else c
  }

  /** A refused request leaves the tables as they were. */
  function Perform(c: Catalog, op: CatalogOp): Catalog {
    match op
    case AddService(form) => OrUnchanged(c, CreateService(c, form))
    case ChangeService(id, form) => OrUnchanged(c, UpdateService(c, id, form))
    case DropService(id) => OrUnchanged(c, DeleteService(c, id))
    case AddAccount(form) => OrUnchanged(c, CreateAccount(c, form))
    case ChangeAccount(id, form) => OrUnchanged(c, UpdateAccount(c, id, form))
    case ImportAccounts(pages, apiVersion) => ImportPages(c, pages, apiVersion).catalog
    case DropAccount(id) => RemoveAccount(c, id)
    case Deauthorize(id) => MarkUnauthorized(c, id)
  }

  predicate OfServices(op: CatalogOp) {
    op.AddService? || op.ChangeService? || op.DropService?
  }

  lemma ServiceOpKeepsOk(c: Catalog, op: CatalogOp)
    requires ServicesOk(c) && OfServices(op)
    ensures ServicesOk(Perform(c, op)) && Perform(c, op).accounts == c.accounts && Perform(c, op).nextAccount == c.nextAccount
  {
    match op
    case AddService(form) => if CreateService(c, form).Ok? { CreateServiceKeepsOk(c, form); }
    case ChangeService(id, form) => if UpdateService(c, id, form).Ok? { UpdateServiceKeepsOk(c, id, form); }
    case DropService(id) =>
  }

  lemma AccountOpKeepsOk(c: Catalog, op: CatalogOp)
    requires CatalogOk(c) && !OfServices(op)
    ensures CatalogOk(Perform(c, op))
    ensures !op.DropAccount? ==> forall id :: id in c.accounts ==> id in Perform(c, op).accounts
  {
    match op
    case AddAccount(form) => if CreateAccount(c, form).Ok? { CreateAccountKeepsOk(c, form); }
    case ChangeAccount(id, form) => if UpdateAccount(c, id, form).Ok? { UpdateAccountKeepsOk(c, id, form); }
    case ImportAccounts(pages, apiVersion) => ImportOverrides(c, pages, apiVersion);
    case DropAccount(id) =>
    case Deauthorize(id) =>
  }

  lemma PerformKeepsOk(c: Catalog, op: CatalogOp)
    requires CatalogOk(c)
    ensures CatalogOk(Perform(c, op))
    ensures !op.DropAccount? ==> forall id :: id in c.accounts ==> id in Perform(c, op).accounts
  {
    if OfServices(op) {
      ServiceOpKeepsOk(c, op);
    } else {
      AccountOpKeepsOk(c, op);
    }
  }

  const EMPTY := Catalog(map[], 1, map[], 1)

  function PerformAll(c: Catalog, ops: seq<CatalogOp>): Catalog {
    if ops == [] then c else Perform(PerformAll(c, ops[..|ops| - 1]), ops[|ops| - 1])
  }

  /** After any sequence of writes to empty tables: names are normalized and unique,
      active facebook and twitter services hold credentials, identities are unique, and
      the default manager has a connector for the provider of every stored account. */
  lemma {:induction false} EveryRunKeepsOk(ops: seq<CatalogOp>)
    ensures var c := PerformAll(EMPTY, ops);
            && CatalogOk(c)
            && forall id :: id in c.accounts ==> c.accounts[id].provider in Index(DEFAULT_CONNECTORS)
  {
    if ops != [] {
      EveryRunKeepsOk(ops[..|ops| - 1]);
      PerformKeepsOk(PerformAll(EMPTY, ops[..|ops| - 1]), ops[|ops| - 1]);
    }
    var c := PerformAll(EMPTY, ops);
    forall id | id in c.accounts ensures c.accounts[id].provider in Index(DEFAULT_CONNECTORS) {
      DefaultManagerCoversKnownProviders(c.accounts[id].provider);
    }
  }
}
