/** One-shot OAuth state records (internal/httpserver/facebook_handlers.go:437-511):
    which callbacks are let through, over every sequence of requests. */
module OAuthStates {
  import opened Base

  /** Seconds a state is valid for. */
  const TTL := 600
  const DRAWS := 3

  datatype Record = Record(user: int, provider: string, redirect: string, expiresAt: int, consumed: bool)

  /** The oauth_states table; `state` is UNIQUE. */
  type Table = map<string, Record>

  datatype Request =
    | Start(user: int, provider: string, redirect: string, draws: seq<string>, now: int)
    | Callback(provider: string, state: string, now: int)

  datatype Reply = Issued(state: string) | NotIssued | Granted(user: int, redirect: string) | Invalid | Expired

  // ---------- requests as functions ----------

  /** The first of the drawn tokens that the unique index accepts. */
  function FirstFree(table: Table, draws: seq<string>): (r: Option<string>)
    ensures r.Some? ==> r.value !in table && r.value in draws
  {
    if draws == [] then None
    else if draws[0] !in table then Some(draws[0])
    else assert draws == [draws[0]] + draws[1..]; FirstFree(table, draws[1..])
  }

  function NewRecord(request: Request): Record
    requires request.Start?
  {
    Record(request.user, request.provider, request.redirect, request.now + TTL, false)
  }

  function FirstDraws(draws: seq<string>): seq<string> {
    if |draws| <= DRAWS then draws else draws[..DRAWS]
  }

  predicate Pending(table: Table, provider: string, state: string) {
    state in table && table[state].provider == provider && !table[state].consumed
  }

  function Serve(table: Table, request: Request): (Table, Reply) {
    match request
    case Start(_, _, _, draws, _) =>
      var state := FirstFree(table, FirstDraws(draws));
      if state.None? then (table, NotIssued) else (table[state.value := NewRecord(request)], Issued(state.value))
    case Callback(provider, state, now) =>
      if !Pending(table, provider, state) then (table, Invalid)
      else
        var record := table[state];
        (table[state := record.(consumed := true)],
         if record.expiresAt <= now then Expired else Granted(record.user, record.redirect))
  }

  // ---------- the code ----------

  class StateStore {
    var table: Table

    constructor ()
      ensures table == map[]
    {
      table := map[];
    }

    /** INSERT INTO oauth_states: refused by the unique index when the state exists. */
    method Insert(state: string, record: Record) returns (ok: bool)
      modifies this
      ensures ok <==> state !in old(table)
      ensures table == if ok then old(table)[state := record] else old(table)
    {
      ok := state !in table;
      if ok {
        table := table[state := record];
      }
    }

    method CreateOAuthState(request: Request) returns (reply: Reply)
      requires request.Start?
      modifies this
      ensures (table, reply) == Serve(old(table), request)
    {
      var draws := FirstDraws(request.draws);
      for i := 0 to |draws|
        invariant table == old(table)
        invariant FirstFree(old(table), draws) == FirstFree(old(table), draws[i..])
      {
        var ok := Insert(draws[i], NewRecord(request));
        if ok {
          return Issued(draws[i]);
        }
      }
      reply := NotIssued;
    }

    method ConsumeOAuthState(request: Request) returns (reply: Reply)
      requires request.Callback?
      modifies this
      ensures (table, reply) == Serve(old(table), request)
    {
      var state := request.state;
      if state !in table || table[state].provider != request.provider || table[state].consumed {
        return Invalid;
      }
      var record := table[state];
      if record.expiresAt <= request.now {
        table := table[state := record.(consumed := true)];
        return Expired;
      }
      table := table[state := record.(consumed := true)];
      reply := Granted(record.user, record.redirect);
    }
  }

  // ---------- every sequence of requests ----------

  function TableAfter(requests: seq<Request>): Table {
    if requests == [] then map[] else Serve(TableAfter(requests[..|requests| - 1]), requests[|requests| - 1]).0
  }

  /** The reply to the j-th request of a history that begins with an empty table. */
  function ReplyTo(requests: seq<Request>, j: nat): Reply
    requires j < |requests|
  {
    Serve(TableAfter(requests[..j]), requests[j]).1
  }

  predicate AsksFor(request: Request, provider: string, state: string) {
    request.Callback? && request.provider == provider && request.state == state
  }

  predicate Issues(requests: seq<Request>, n: nat, provider: string, state: string)
    requires n < |requests|
  {
    requests[n].Start? && requests[n].provider == provider && ReplyTo(requests, n) == Issued(state)
  }

  /** Request i issued the state, and no callback has asked for it between i and n. */
  ghost predicate Opens(requests: seq<Request>, i: nat, n: nat, provider: string, state: string) {
    && i < n <= |requests| && Issues(requests, i, provider, state)
    && forall m :: i < m < n ==> !AsksFor(requests[m], provider, state)
  }

  /** The pending record of a state is the one its only issuing request stored. */
  ghost predicate Explained(requests: seq<Request>, n: nat, provider: string, state: string)
    requires n <= |requests|
  {
    var table := TableAfter(requests[..n]);
    && (Pending(table, provider, state) ==>
          exists i: nat :: Opens(requests, i, n, provider, state) && table[state] == NewRecord(requests[i]))
    && (forall i: nat :: Opens(requests, i, n, provider, state) ==>
          Pending(table, provider, state) && table[state] == NewRecord(requests[i]))
  }

  /** One request: a state becomes pending by being issued and stops by being asked for. */
  lemma OneRequest(requests: seq<Request>, n: nat, provider: string, state: string)
    requires n < |requests|
    ensures var before, after := TableAfter(requests[..n]), TableAfter(requests[..n + 1]);
            var issued := Issues(requests, n, provider, state);
            && (Pending(after, provider, state) <==>
                  issued || (Pending(before, provider, state) && !AsksFor(requests[n], provider, state)))
            && (issued ==> after[state] == NewRecord(requests[n]) && !Pending(before, provider, state))
            && (Pending(after, provider, state) && !issued ==> after[state] == before[state])
            && (state in before && before[state].consumed ==> state in after && after[state].consumed)
  {
    assert requests[..n + 1][..n] == requests[..n];
  }

  lemma {:induction false} EveryPendingStateIsExplained(requests: seq<Request>, n: nat, provider: string, state: string)
    requires n <= |requests|
    ensures Explained(requests, n, provider, state)
  {
    if n > 0 {
      EveryPendingStateIsExplained(requests, n - 1, provider, state);
      StillExplained(requests, n - 1, provider, state);
    }
  }

  lemma StillExplained(requests: seq<Request>, n: nat, provider: string, state: string)
    requires n < |requests| && Explained(requests, n, provider, state)
    ensures Explained(requests, n + 1, provider, state)
  {
    OneRequest(requests, n, provider, state);
    var before, after := TableAfter(requests[..n]), TableAfter(requests[..n + 1]);
    if Issues(requests, n, provider, state) {
      assert Opens(requests, n, n + 1, provider, state);
    } else if Pending(after, provider, state) {
      var i: nat :| Opens(requests, i, n, provider, state) && before[state] == NewRecord(requests[i]);
      assert Opens(requests, i, n + 1, provider, state);
    }
    forall i: nat | Opens(requests, i, n + 1, provider, state)
      ensures Pending(after, provider, state) && after[state] == NewRecord(requests[i])
    {
      OpenedIsPending(requests, n, provider, state, i);
    }
  }

  lemma OpenedIsPending(requests: seq<Request>, n: nat, provider: string, state: string, i: nat)
    requires n < |requests| && Explained(requests, n, provider, state) && Opens(requests, i, n + 1, provider, state)
    ensures var after := TableAfter(requests[..n + 1]);
            Pending(after, provider, state) && after[state] == NewRecord(requests[i])
  {
    OneRequest(requests, n, provider, state);
    if i < n {
      assert !AsksFor(requests[n], provider, state);
      assert Opens(requests, i, n, provider, state);
    }
  }

  /** A callback is let through exactly when an earlier request for the same provider was
      issued this state, less than the time limit ago, and no callback of that provider has
      asked for the state since, successfully or not. It gets the user and the redirect of
      that request. */
  lemma GrantedExactlyOnce(requests: seq<Request>, j: nat)
    requires j < |requests| && requests[j].Callback?
    ensures var call := requests[j];
            ReplyTo(requests, j).Granted? <==>
            exists i: nat :: Opens(requests, i, j, call.provider, call.state) && call.now < requests[i].now + TTL
    ensures var call := requests[j];
            ReplyTo(requests, j).Granted? ==>
            exists i: nat :: Opens(requests, i, j, call.provider, call.state)
              && ReplyTo(requests, j) == Granted(requests[i].user, requests[i].redirect)
  {
    var call := requests[j];
    EveryPendingStateIsExplained(requests, j, call.provider, call.state);
    if Pending(TableAfter(requests[..j]), call.provider, call.state) {
      var i: nat :| Opens(requests, i, j, call.provider, call.state)
                    && TableAfter(requests[..j])[call.state] == NewRecord(requests[i]);
    }
  }

  lemma {:induction false} ConsumedForGood(requests: seq<Request>, i: nat, j: nat, state: string)
    requires i <= j <= |requests|
    requires state in TableAfter(requests[..i]) && TableAfter(requests[..i])[state].consumed
    ensures state in TableAfter(requests[..j]) && TableAfter(requests[..j])[state].consumed
  {
    if i < j {
      ConsumedForGood(requests, i, j - 1, state);
      OneRequest(requests, j - 1, "", state);
    }
  }

  /** No state lets two callbacks through, whatever their providers. */
  lemma NoReplay(requests: seq<Request>, i: nat, j: nat)
    requires i < j < |requests| && requests[i].Callback? && requests[j].Callback? && requests[i].state == requests[j].state
    requires ReplyTo(requests, i).Granted?
    ensures ReplyTo(requests, j) == Invalid
  {
    assert requests[..i + 1][..i] == requests[..i];
    ConsumedForGood(requests, i + 1, j, requests[i].state);
  }

  // ---------- every reply ----------

  /** Some earlier request was issued this state. */
  ghost predicate Taken(requests: seq<Request>, j: nat, state: string)
    requires j <= |requests|
  {
    exists i :: 0 <= i < j && requests[i].Start? && ReplyTo(requests, i) == Issued(state)
  }

  lemma {:induction false} TableHoldsTaken(requests: seq<Request>, j: nat, state: string)
    requires j <= |requests|
    ensures state in TableAfter(requests[..j]) <==> Taken(requests, j, state)
  {
    if j > 0 {
      TableHoldsTaken(requests, j - 1, state);
      TableGrows(requests, j - 1, state);
      TakenGrows(requests, j - 1, state);
    }
  }

  predicate IssuedAt(requests: seq<Request>, n: nat, state: string)
    requires n < |requests|
  {
    requests[n].Start? && ReplyTo(requests, n) == Issued(state)
  }

  lemma TableGrows(requests: seq<Request>, n: nat, state: string)
    requires n < |requests|
    ensures state in TableAfter(requests[..n + 1]) <==> state in TableAfter(requests[..n]) || IssuedAt(requests, n, state)
  {
    assert requests[..n + 1][..n] == requests[..n];
  }

  lemma TakenGrows(requests: seq<Request>, n: nat, state: string)
    requires n < |requests|
    ensures Taken(requests, n + 1, state) <==> Taken(requests, n, state) || IssuedAt(requests, n, state)
  {
    if IssuedAt(requests, n, state) {
      assert Taken(requests, n + 1, state);
    }
  }

  /** The k-th drawn token is the first one, among three, that nobody was issued before. */
  ghost predicate FirstUntaken(requests: seq<Request>, j: nat, k: nat)
    requires j < |requests| && requests[j].Start?
  {
    var draws := requests[j].draws;
    k < 3 && k < |draws| && !Taken(requests, j, draws[k]) && forall m :: 0 <= m < k ==> Taken(requests, j, draws[m])
  }

  lemma {:induction false} FirstFreeIs(table: Table, draws: seq<string>, k: nat)
    requires k <= |draws| && forall m :: 0 <= m < k ==> draws[m] in table
    ensures k < |draws| && draws[k] !in table ==> FirstFree(table, draws) == Some(draws[k])
    ensures k == |draws| ==> FirstFree(table, draws) == None
  {
    if k > 0 {
      FirstFreeIs(table, draws[1..], k - 1);
    }
  }

  /** A request to start is issued the first of three drawn tokens that is new, and none only
      if all three were issued before. */
  lemma StartIsIssuedFirstUntaken(requests: seq<Request>, j: nat)
    requires j < |requests| && requests[j].Start?
    ensures forall k: nat :: FirstUntaken(requests, j, k) ==> ReplyTo(requests, j) == Issued(requests[j].draws[k])
    ensures (forall k: nat :: !FirstUntaken(requests, j, k)) ==> ReplyTo(requests, j) == NotIssued
  {
    var table, draws := TableAfter(requests[..j]), FirstDraws(requests[j].draws);
    forall state ensures state in table <==> Taken(requests, j, state) {
      TableHoldsTaken(requests, j, state);
    }
    forall k: nat | FirstUntaken(requests, j, k) ensures ReplyTo(requests, j) == Issued(requests[j].draws[k]) {
      FirstFreeIs(table, draws, k);
    }
    if forall k: nat :: !FirstUntaken(requests, j, k) {
      AllTaken(requests, j, |draws|);
      FirstFreeIs(table, draws, |draws|);
    }
  }

  lemma {:induction false} AllTaken(requests: seq<Request>, j: nat, n: nat)
    requires j < |requests| && requests[j].Start? && n <= 3 && n <= |requests[j].draws|
    requires forall k: nat :: !FirstUntaken(requests, j, k)
    ensures forall m :: 0 <= m < n ==> Taken(requests, j, requests[j].draws[m])
  {
    if n > 0 {
      AllTaken(requests, j, n - 1);
      assert !FirstUntaken(requests, j, n - 1);
    }
  }

  /** A callback that is not let through is told that the state has expired exactly when only
      its time, ten minutes, has run out; else that it is invalid. */
  lemma RefusalsAreExact(requests: seq<Request>, j: nat)
    requires j < |requests| && requests[j].Callback?
    ensures var call := requests[j];
            ReplyTo(requests, j) == Expired <==>
            exists i: nat :: Opens(requests, i, j, call.provider, call.state) && call.now >= requests[i].now + 600
    ensures var call := requests[j];
            ReplyTo(requests, j) == Invalid <==> !exists i: nat :: Opens(requests, i, j, call.provider, call.state)
  {
    var call := requests[j];
    EveryPendingStateIsExplained(requests, j, call.provider, call.state);
    if Pending(TableAfter(requests[..j]), call.provider, call.state) {
      var i: nat :| Opens(requests, i, j, call.provider, call.state)
                    && TableAfter(requests[..j])[call.state] == NewRecord(requests[i]);
    }
  }
}
