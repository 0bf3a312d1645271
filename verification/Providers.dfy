/** Connectors and the manager that picks one by provider name
    (internal/providers/manager.go, facebook_page.go, stub_connectors.go). */
module Providers {
  import opened Base
  import opened ServiceRules

  /** The named sentinel errors; every other failure is transient. */
  datatype Error =
    | Unauthorized
    | UnsupportedProvider
    | InvalidContent
    | ServiceDisabled
    | ServiceNotConfigured
    | Transient

  predicate Permanent(err: Error) {
    !err.Transient?
  }

  datatype Connector = FacebookPage | Stub(name: string) {
    function Provider(): string {
      if FacebookPage? then "facebook_page" else name
    }
  }

  datatype Account = Account(
    name: string,
    username: Option<string>,
    provider: string,
    providerId: string,
    data: Config,
    authorized: bool,
    token: Config
  )

  /** The request a connector sends once its own checks have passed. */
  datatype Request =
    | GraphPost(pageId: string, message: string, accessToken: string, apiVersion: string)
    | StubPost(provider: string)

  /** What one call to the provider's server can come to. `Unheard` is a post the
      server accepted although the worker saw an error (timeout, unreadable body). */
  datatype Outcome = Accepted(id: string) | Rejected(error: Error) | Unheard

  const DEFAULT_API_VERSION := "v21.0"

  // ---------- firstNonEmptyString ----------

  /** Independent meaning: the trimmed form of the first value that is not blank. */
  function FirstNonEmpty(values: seq<string>): (r: string)
    ensures Trimmed(r)
    ensures r == "" <==> forall i :: 0 <= i < |values| ==> Trim(values[i]) == ""
  {
    if values == [] then ""
    else if Trim(values[0]) != "" then Trim(values[0])
    else assert forall i :: 0 < i < |values| ==> values[i] == values[1..][i - 1]; FirstNonEmpty(values[1..])
  }

  lemma FirstNonEmptyOf(x: string, rest: seq<string>)
    ensures FirstNonEmpty([x] + rest) == if Trim(x) != "" then Trim(x) else FirstNonEmpty(rest)
  {
    assert ([x] + rest)[1..] == rest;
  }

  lemma FirstNonEmptyOfFour(a: string, b: string, c: string, d: string)
    ensures FirstNonEmpty([a, b, c, d]) ==
              if Trim(a) != "" then Trim(a) else if Trim(b) != "" then Trim(b) else if Trim(c) != "" then Trim(c) else Trim(d)
  {
    FirstNonEmptyOf(a, [b, c, d]);
    FirstNonEmptyOf(b, [c, d]);
    FirstNonEmptyOf(c, [d]);
    FirstNonEmptyOf(d, []);
    assert [a] + [b, c, d] == [a, b, c, d] && [b] + [c, d] == [b, c, d] && [c] + [d] == [c, d] && [d] + [] == [d];
  }

  method FirstNonEmptyString(values: seq<string>) returns (r: string)
    ensures r == FirstNonEmpty(values)
    ensures Trimmed(r)
    ensures r == "" ==> forall v :: v in values ==> Trim(v) == ""
    ensures r != "" ==>
              exists i :: 0 <= i < |values| && r == Trim(values[i]) && forall j :: 0 <= j < i ==> Trim(values[j]) == ""
  {
    for i := 0 to |values|
      invariant forall j :: 0 <= j < i ==> Trim(values[j]) == ""
      invariant FirstNonEmpty(values) == FirstNonEmpty(values[i..])
    {
      if Trim(values[i]) != "" {
        return Trim(values[i]);
      }
    }
    return "";
  }

  // ---------- connectors ----------

  function PageToken(account: Account): string {
    FirstNonEmpty([LookupString(account.token, "page_access_token"),
                   LookupString(account.token, "access_token"),
                   LookupString(account.token, "token")])
  }

  function ApiVersion(account: Account, config: Config): string {
    FirstNonEmpty([LookupString(config, "api_version"),
                   LookupString(account.data, "api_version"),
                   LookupString(account.token, "api_version"),
                   DEFAULT_API_VERSION])
  }

  predicate FlaggedUnauthorized(account: Account) {
    "unauthorized" in account.token && account.token["unauthorized"] == JBool(true)
  }

  /** The checks a connector makes before it talks to a server. */
  function Prepare(connector: Connector, account: Account, config: Config, text: string): Result<Request, Error> {
    match connector
    case FacebookPage =>
      if Trim(text) == "" then Err(InvalidContent)
      else if Trim(account.providerId) == "" then Err(InvalidContent)
      else if PageToken(account) == "" then Err(Unauthorized)
      else Ok(GraphPost(Trim(account.providerId), Trim(text), PageToken(account), ApiVersion(account, config)))
    case Stub(name) =>
      if Trim(text) == "" then Err(InvalidContent)
      else if FlaggedUnauthorized(account) then Err(Unauthorized)
      else Ok(StubPost(name))
  }

  /** Outcomes the sent request can have: a stub always accepts; the Graph API may
      accept with a non-blank id, refuse the token, or fail in a transient way. */
  predicate Possible(request: Request, outcome: Outcome) {
    match outcome
    case Accepted(id) => request.GraphPost? ==> Trim(id) != ""
    case Rejected(err) => request.GraphPost? && (err.Unauthorized? || err.Transient?)
    case Unheard => request.GraphPost?
  }

  lemma ApiVersionIsNeverEmpty(account: Account, config: Config)
    ensures ApiVersion(account, config) != "" && Trimmed(ApiVersion(account, config))
  {
    var values := [LookupString(config, "api_version"), LookupString(account.data, "api_version"),
                   LookupString(account.token, "api_version"), DEFAULT_API_VERSION];
    assert values[3] == DEFAULT_API_VERSION && Trim(DEFAULT_API_VERSION) == DEFAULT_API_VERSION;
  }

  // ---------- manager ----------

  /** Later connectors replace earlier ones of the same provider. */
  function Index(connectors: seq<Connector>): map<string, Connector> {
    if connectors == [] then map[]
    else
      var last := connectors[|connectors| - 1];
      Index(connectors[..|connectors| - 1])[last.Provider() := last]
  }

  const DEFAULT_CONNECTORS: seq<Connector> := [FacebookPage, Stub("twitter"), Stub("mastodon"), Stub("bluesky")]

  function Dispatch(connectors: map<string, Connector>, account: Account, config: Config, text: string)
    : Result<Request, Error>
  {
    if account.provider in connectors
    then Prepare(connectors[account.provider], account, config, text)
    else Err(UnsupportedProvider)
  }

  class Manager {
    var connectors: map<string, Connector>

    constructor (list: seq<Connector>)
      ensures connectors == Index(list)
    {
      var index: map<string, Connector> := map[];
      for i := 0 to |list|
        invariant index == Index(list[..i])
      {
        assert list[..i + 1][..i] == list[..i];
        index := index[list[i].Provider() := list[i]];
      }
      assert list[..|list|] == list;
      connectors := index;
    }

    function Publish(account: Account, config: Config, text: string): Result<Request, Error>
      reads this
    {
      Dispatch(connectors, account, config, text)
    }
  }

  method NewDefaultManager() returns (manager: Manager)
    ensures fresh(manager) && manager.connectors == Index(DEFAULT_CONNECTORS)
  {
    manager := new Manager(DEFAULT_CONNECTORS);
  }

  /** A lookup finds the last connector registered under the name, and nothing else. */
  lemma {:induction false} IndexFindsLast(connectors: seq<Connector>, name: string)
    ensures name in Index(connectors) <==> exists i :: 0 <= i < |connectors| && connectors[i].Provider() == name
    ensures name in Index(connectors) ==>
              exists i :: 0 <= i < |connectors| && connectors[i].Provider() == name
                && Index(connectors)[name] == connectors[i]
                && forall j :: i < j < |connectors| ==> connectors[j].Provider() != name
  {
    if connectors != [] {
      var n := |connectors| - 1;
      var init := connectors[..n];
      IndexFindsLast(init, name);
      if connectors[n].Provider() != name && name in Index(connectors) {
        var i :| 0 <= i < |init| && init[i].Provider() == name && Index(init)[name] == init[i]
                 && forall j :: i < j < |init| ==> init[j].Provider() != name;
        assert connectors[i] == init[i];
        forall j | i < j < |connectors| ensures connectors[j].Provider() != name {
          if j < n { assert connectors[j] == init[j]; }
        }
      } else if exists i :: 0 <= i < |init| && init[i].Provider() == name {
        var i :| 0 <= i < |init| && init[i].Provider() == name;
        assert connectors[i] == init[i];
      }
    }
  }

  /** The default manager has a connector for exactly the provider names the API accepts. */
  lemma DefaultManagerCoversKnownProviders(name: string)
    ensures name in Index(DEFAULT_CONNECTORS) <==> IsProviderName(name)
  {
    IndexFindsLast(DEFAULT_CONNECTORS, name);
    if IsProviderName(name) {
      var i := if name == "facebook_page" then 0 else if name == "twitter" then 1 else if name == "mastodon" then 2 else 3;
      assert DEFAULT_CONNECTORS[i].Provider() == name;
    }
  }

  /** For an account and a text that satisfy the write-time rules, publishing can be
      refused before the call only for a missing or revoked token. */
  lemma OnlyTokenRefusalsRemain(account: Account, config: Config, text: string)
    requires IsProviderName(account.provider) && Trim(account.providerId) != ""
    requires Trim(text) != ""
    ensures var r := Dispatch(Index(DEFAULT_CONNECTORS), account, config, text);
            r.Ok? || r.error == Unauthorized
  {
    DefaultManagerCoversKnownProviders(account.provider);
  }

  // ---------- what is sent ----------

  /** The token a page is posted with: under the first of three names that holds one. */
  ghost predicate TokenIs(token: Config, t: string) {
    || Holds(token, "page_access_token", t)
    || (Blank(token, "page_access_token") && Holds(token, "access_token", t))
    || (Blank(token, "page_access_token") && Blank(token, "access_token") && Holds(token, "token", t))
  }

  ghost predicate NoToken(token: Config) {
    Blank(token, "page_access_token") && Blank(token, "access_token") && Blank(token, "token")
  }

  /** The API version of the URL: the service's, else the account's, else the token's, else
      the default. */
  ghost predicate VersionIs(account: Account, config: Config, v: string) {
    || Holds(config, "api_version", v)
    || (Blank(config, "api_version") && Holds(account.data, "api_version", v))
    || (Blank(config, "api_version") && Blank(account.data, "api_version") && Holds(account.token, "api_version", v))
    || (Blank(config, "api_version") && Blank(account.data, "api_version") && Blank(account.token, "api_version")
        && v == "v21.0")
  }

  lemma PageTokenIs(account: Account)
    ensures PageToken(account) == "" <==> NoToken(account.token)
    ensures forall t :: TokenIs(account.token, t) ==> PageToken(account) == t
  {
    var a, b, c := LookupString(account.token, "page_access_token"), LookupString(account.token, "access_token"),
                   LookupString(account.token, "token");
    LookupHolds(account.token, "page_access_token");
    LookupHolds(account.token, "access_token");
    LookupHolds(account.token, "token");
    FirstOfThree(a, b, c);
  }

  lemma FirstOfThree(a: string, b: string, c: string)
    ensures FirstNonEmpty([a, b, c]) == if Trim(a) != "" then Trim(a) else if Trim(b) != "" then Trim(b) else Trim(c)
  {
    FirstNonEmptyOf(a, [b, c]);
    FirstNonEmptyOf(b, [c]);
    FirstNonEmptyOf(c, []);
    assert [a] + [b, c] == [a, b, c] && [b] + [c] == [b, c] && [c] + [] == [c];
  }

  lemma ApiVersionIs(account: Account, config: Config)
    ensures VersionIs(account, config, ApiVersion(account, config))
  {
    LookupHolds(config, "api_version");
    LookupHolds(account.data, "api_version");
    LookupHolds(account.token, "api_version");
    FirstNonEmptyOfFour(LookupString(config, "api_version"), LookupString(account.data, "api_version"),
                        LookupString(account.token, "api_version"), DEFAULT_API_VERSION);
    assert Trim("v21.0") == "v21.0";
  }

  lemma ConnectorOf(name: string)
    ensures name == "facebook_page" ==> name in Index(DEFAULT_CONNECTORS) && Index(DEFAULT_CONNECTORS)[name] == FacebookPage
    ensures name == "twitter" || name == "mastodon" || name == "bluesky" ==>
              name in Index(DEFAULT_CONNECTORS) && Index(DEFAULT_CONNECTORS)[name] == Stub(name)
  {
    DefaultManagerCoversKnownProviders(name);
    IndexFindsLast(DEFAULT_CONNECTORS, name);
  }

  /** What goes out for a Facebook page: nothing without text, page id or token; else the
      text, to that page, with its token, under the API version. */
  lemma PageRequest(account: Account, config: Config, text: string)
    requires account.provider == "facebook_page"
    ensures var r := Dispatch(Index(DEFAULT_CONNECTORS), account, config, text);
            var content := Trim(text) != "" && Trim(account.providerId) != "";
            && (!content ==> r == Err(InvalidContent))
            && (content && NoToken(account.token) ==> r == Err(Unauthorized))
            && (content && !NoToken(account.token) ==>
                  && r.Ok? && r.value.GraphPost?
                  && r.value.pageId == Trim(account.providerId) && r.value.message == Trim(text)
                  && (forall t :: TokenIs(account.token, t) ==> r.value.accessToken == t)
                  && VersionIs(account, config, r.value.apiVersion))
  {
    ConnectorOf(account.provider);
    PageTokenIs(account);
    ApiVersionIs(account, config);
  }

  /** The other known providers are stubs: they need text and a token that is not flagged. */
  lemma StubRequest(account: Account, config: Config, text: string)
    requires account.provider == "twitter" || account.provider == "mastodon" || account.provider == "bluesky"
    ensures var r := Dispatch(Index(DEFAULT_CONNECTORS), account, config, text);
            var flagged := "unauthorized" in account.token && account.token["unauthorized"] == JBool(true);
            r == if Trim(text) == "" then Err(InvalidContent)
                 else if flagged then Err(Unauthorized)
                 else Ok(StubPost(account.provider))
  {
    ConnectorOf(account.provider);
  }

  lemma UnknownProviderRequest(account: Account, config: Config, text: string)
    requires account.provider != "facebook_page" && account.provider != "twitter"
    requires account.provider != "mastodon" && account.provider != "bluesky"
    ensures Dispatch(Index(DEFAULT_CONNECTORS), account, config, text) == Err(UnsupportedProvider)
  {
    DefaultManagerCoversKnownProviders(account.provider);
  }
}
