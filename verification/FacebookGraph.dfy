/** Listing the pages a user manages, response by response
    (internal/providers/facebook_graph.go:166-240). */
module FacebookGraph {
  import opened Base
  import opened Providers
  import opened FacebookImport

  /** What one GET of a listing returns: a failure, or rows and a link to the next response. */
  datatype Response = Failed(error: Error) | Listing(data: seq<Page>, next: string)

  /** The response to the i-th GET, which may differ from an earlier one to the same URL. */
  type Server = (int, string) -> Response

  const MAX_RESPONSES := 20

  function Cleaned(page: Page): Page {
    Page(Trim(page.id), Trim(page.name), Trim(page.category), Trim(page.username), Trim(page.accessToken))
  }

  function CleanedAll(pages: seq<Page>): seq<Page> {
    if pages == [] then [] else CleanedAll(pages[..|pages| - 1]) + [Cleaned(pages[|pages| - 1])]
  }

  type Answer = Result<seq<Page>, Error>

  /** One successful GET. */
  datatype Visit = Visit(url: string, data: seq<Page>, next: string)

  /** A walk along the links from start: each URL is the trimmed link of the response
      before it, and the server gave each response to the URL that was asked. */
  ghost predicate Chain(server: Server, start: string, visits: seq<Visit>) {
    && (forall j :: 0 <= j < |visits| ==> Answered(server, j, visits[j]))
    && (visits != [] ==> visits[0].url == start)
    && (forall j :: 0 <= j < |visits| - 1 ==> Linked(visits[j], visits[j + 1]))
  }

  ghost predicate Answered(server: Server, j: int, visit: Visit) {
    visit.url != "" && server(j, visit.url) == Listing(visit.data, visit.next)
  }

  ghost predicate Linked(visit: Visit, following: Visit) {
    following.url == Trim(visit.next)
  }

  /** The URL asked after a chain; "" when the chain has come to its end. */
  function NextUrl(start: string, visits: seq<Visit>): string {
    if visits == [] then start else Trim(visits[|visits| - 1].next)
  }

  /** The trimmed rows of the visits, in order. */
  function Rows(visits: seq<Visit>): seq<Page> {
    if visits == [] then [] else Rows(visits[..|visits| - 1]) + CleanedAll(visits[|visits| - 1].data)
  }

  lemma ChainExtends(server: Server, start: string, visits: seq<Visit>, visit: Visit)
    requires Chain(server, start, visits) && Answered(server, |visits|, visit) && visit.url == NextUrl(start, visits)
    ensures Chain(server, start, visits + [visit])
  {
    var more := visits + [visit];
    forall j | 0 <= j < |more| ensures Answered(server, j, more[j]) {
      assert j < |visits| ==> Answered(server, j, visits[j]);
    }
    forall j | 0 <= j < |more| - 1 ensures Linked(more[j], more[j + 1]) {
      assert j < |visits| - 1 ==> Linked(visits[j], visits[j + 1]);
    }
  }

  lemma RowsExtend(visits: seq<Visit>, visit: Visit)
    ensures Rows(visits + [visit]) == Rows(visits) + CleanedAll(visit.data)
  {
    assert (visits + [visit])[..|visits|] == visits;
  }

  /** On success the visits are the first min(20, length of the chain) and the pages are
      their rows; an error is the server's, met within the first 20 requests. */
  ghost predicate Lists(server: Server, start: string, visits: seq<Visit>, r: Answer) {
    && Chain(server, start, visits) && |visits| <= 20
    && (r.Ok? ==> r.value == Rows(visits) && (|visits| == 20 || NextUrl(start, visits) == ""))
    && (r.Err? ==> |visits| < 20 && NextUrl(start, visits) != ""
                   && server(|visits|, NextUrl(start, visits)) == Failed(r.error))
  }

  /** Terminates whatever the links say. */
  method ListManagedPages(server: Server, start: string) returns (r: Answer)
    ensures exists visits :: Lists(server, start, visits, r)
  {
    var endpoint := start;
    var pages: seq<Page> := [];
    var i := 0;
    ghost var visits: seq<Visit> := [];
    while endpoint != "" && i < MAX_RESPONSES
      invariant 0 <= i == |visits| <= MAX_RESPONSES
      invariant Chain(server, start, visits)
      invariant endpoint == NextUrl(start, visits)
      invariant pages == Rows(visits)
    {
      var response := server(i, endpoint);
      if response.Failed? {
        r := Err(response.error);
        assert Lists(server, start, visits, r);
        return;
      }
      pages := AppendPages(pages, response.data);
      ghost var visit := Visit(endpoint, response.data, response.next);
      ChainExtends(server, start, visits, visit);
      RowsExtend(visits, visit);
      visits := visits + [visit];
      endpoint := Trim(response.next);
      i := i + 1;
    }
    r := Ok(pages);
    assert Lists(server, start, visits, r);
  }

  /** What is returned is determined: there is one answer for each server and start. */
  lemma ListingIsUnique(server: Server, start: string, visits: seq<Visit>, others: seq<Visit>, r: Answer, q: Answer)
    requires Lists(server, start, visits, r) && Lists(server, start, others, q)
    ensures r == q
  {
    if |visits| <= |others| {
      ListingIsFirst(server, start, visits, others, r, q);
    } else {
      ListingIsFirst(server, start, others, visits, q, r);
    }
  }

  /** Every response but the first was asked for under the link before it. */
  lemma ChainGoesOn(server: Server, start: string, visits: seq<Visit>, n: nat)
    requires Chain(server, start, visits) && n < |visits|
    ensures NextUrl(start, visits[..n]) != "" && server(n, NextUrl(start, visits[..n])).Listing?
  {
    assert Answered(server, n, visits[n]);
    if n > 0 {
      assert Linked(visits[n - 1], visits[n]);
    }
  }

  lemma ListingIsFirst(server: Server, start: string, visits: seq<Visit>, others: seq<Visit>, r: Answer, q: Answer)
    requires Lists(server, start, visits, r) && Lists(server, start, others, q) && |visits| <= |others|
    ensures r == q
  {
    ChainIsUnique(server, start, visits, others);
    if |visits| < |others| {
      ChainGoesOn(server, start, others, |visits|);
    } else {
      assert others[..|visits|] == others;
    }
  }

  /** The inner loop over one response's rows. */
  method AppendPages(before: seq<Page>, data: seq<Page>) returns (pages: seq<Page>)
    ensures pages == before + CleanedAll(data)
  {
    pages := before;
    for k := 0 to |data|
      invariant pages == before + CleanedAll(data[..k])
    {
      assert data[..k + 1][..k] == data[..k];
      var row := data[k];
      pages := pages + [Page(Trim(row.id), Trim(row.name), Trim(row.category), Trim(row.username), Trim(row.accessToken))];
    }
    assert data[..|data|] == data;
  }

  /** There is one chain: a shorter walk is a prefix of a longer one. */
  lemma {:induction false} ChainIsUnique(server: Server, start: string, visits: seq<Visit>, longer: seq<Visit>)
    requires Chain(server, start, visits) && Chain(server, start, longer) && |visits| <= |longer|
    ensures visits == longer[..|visits|]
  {
    if visits != [] {
      var n := |visits| - 1;
      ChainIsUnique(server, start, visits[..n], longer);
      assert Answered(server, n, visits[n]) && Answered(server, n, longer[n]);
      if n > 0 {
        assert visits[n - 1] == visits[..n][n - 1];
        assert Linked(visits[n - 1], visits[n]) && Linked(longer[n - 1], longer[n]);
      }
    }
  }

  ghost predicate HoldsAllRows(server: Server, start: string, visits: seq<Visit>) {
    forall longer: seq<Visit> :: Chain(server, start, longer) && |visits| <= |longer| ==> Rows(longer) == Rows(visits)
  }

  ghost predicate NoRowsFrom(server: Server, start: string, n: nat) {
    forall longer: seq<Visit> :: Chain(server, start, longer) ==> NoDataFrom(longer, n)
  }

  ghost predicate NoDataFrom(visits: seq<Visit>, n: nat) {
    forall j :: n <= j < |visits| ==> visits[j].data == []
  }

  /** A listing that stops after a prefix of the chain is complete exactly when no later
      response carries a row, however long the chain is. */
  lemma CompleteExactlyWhenNoLaterRows(server: Server, start: string, visits: seq<Visit>)
    requires Chain(server, start, visits)
    ensures HoldsAllRows(server, start, visits) <==> NoRowsFrom(server, start, |visits|)
  {
    if HoldsAllRows(server, start, visits) {
      forall longer: seq<Visit> | Chain(server, start, longer) ensures NoDataFrom(longer, |visits|) {
        CompleteMeansNoData(server, start, visits, longer);
      }
    }
    if NoRowsFrom(server, start, |visits|) {
      forall longer: seq<Visit> | Chain(server, start, longer) && |visits| <= |longer| ensures Rows(longer) == Rows(visits) {
        NoDataMeansComplete(server, start, visits, longer);
      }
    }
  }

  lemma CompleteMeansNoData(server: Server, start: string, visits: seq<Visit>, longer: seq<Visit>)
    requires HoldsAllRows(server, start, visits) && Chain(server, start, longer)
    ensures NoDataFrom(longer, |visits|)
  {
    forall j | |visits| <= j < |longer| ensures longer[j].data == [] {
      PrefixHasSameRows(server, start, visits, longer, j);
      PrefixHasSameRows(server, start, visits, longer, j + 1);
      EqualRowsNoData(longer, j);
    }
  }

  lemma NoDataMeansComplete(server: Server, start: string, visits: seq<Visit>, longer: seq<Visit>)
    requires Chain(server, start, visits) && Chain(server, start, longer) && |visits| <= |longer|
    requires NoDataFrom(longer, |visits|)
    ensures Rows(longer) == Rows(visits)
  {
    ChainIsUnique(server, start, visits, longer);
    EmptyTail(longer, |visits|);
  }

  lemma PrefixIsChain(server: Server, start: string, visits: seq<Visit>, n: nat)
    requires Chain(server, start, visits) && n <= |visits|
    ensures Chain(server, start, visits[..n])
  {}

  lemma PrefixHasSameRows(server: Server, start: string, visits: seq<Visit>, longer: seq<Visit>, n: nat)
    requires HoldsAllRows(server, start, visits) && Chain(server, start, longer) && |visits| <= n <= |longer|
    ensures Rows(longer[..n]) == Rows(visits)
  {
    PrefixIsChain(server, start, longer, n);
  }

  lemma EqualRowsNoData(visits: seq<Visit>, j: nat)
    requires j < |visits| && Rows(visits[..j + 1]) == Rows(visits[..j])
    ensures visits[j].data == []
  {
    assert visits[..j + 1][..j] == visits[..j];
    assert |Rows(visits[..j + 1])| == |Rows(visits[..j])| + |CleanedAll(visits[j].data)|;
  }

  lemma {:induction false} EmptyTail(visits: seq<Visit>, n: nat)
    requires n <= |visits|
    requires NoDataFrom(visits, n)
    ensures Rows(visits) == Rows(visits[..n])
  {
    if n < |visits| {
      EmptyTail(visits[..|visits| - 1], n);
      assert visits[..|visits| - 1][..n] == visits[..n];
    } else {
      assert visits[..n] == visits;
    }
  }

  /** Field by field, a listed page is a row with the spaces around each value taken off. */
  ghost predicate IsTrimmedRow(page: Page, row: Page) {
    && page.id == Trim(row.id) && page.name == Trim(row.name) && page.category == Trim(row.category)
    && page.username == Trim(row.username) && page.accessToken == Trim(row.accessToken)
  }

  lemma {:induction false} CleanedAllAt(pages: seq<Page>)
    ensures |CleanedAll(pages)| == |pages|
    ensures forall k :: 0 <= k < |pages| ==> IsTrimmedRow(CleanedAll(pages)[k], pages[k])
  {
    if pages != [] {
      CleanedAllAt(pages[..|pages| - 1]);
    }
  }

  /** Rows before those of visit j. */
  function RowsBefore(visits: seq<Visit>, j: nat): nat
    requires j <= |visits|
  {
    if j == 0 then 0 else RowsBefore(visits, j - 1) + |visits[j - 1].data|
  }

  lemma {:induction false} RowsOfPrefix(visits: seq<Visit>, longer: seq<Visit>, j: nat)
    requires j <= |visits| && visits <= longer
    ensures RowsBefore(longer, j) == RowsBefore(visits, j)
  {
    if j > 0 {
      RowsOfPrefix(visits, longer, j - 1);
    }
  }

  lemma {:induction false} RowsCount(visits: seq<Visit>)
    ensures |Rows(visits)| == RowsBefore(visits, |visits|)
  {
    if visits != [] {
      var init, last := visits[..|visits| - 1], visits[|visits| - 1];
      RowsCount(init);
      RowsOfPrefix(init, visits, |init|);
      CleanedAllAt(last.data);
    }
  }

  lemma {:induction false} RowIsListed(visits: seq<Visit>, j: nat, k: nat)
    requires j < |visits| && k < |visits[j].data|
    ensures ListedAt(visits, j, k)
  {
    var init := visits[..|visits| - 1];
    if j < |init| {
      RowIsListed(init, j, k);
      StaysListed(visits, j, k);
    } else {
      RowsCount(init);
      RowsOfPrefix(init, visits, |init|);
      LastIsListed(visits, k);
    }
  }

  /** The k-th row of visit j is listed after all rows before it, trimmed, and nothing else
      is listed. */
  lemma RowsInOrder(visits: seq<Visit>)
    ensures |Rows(visits)| == RowsBefore(visits, |visits|)
    ensures forall j, k :: 0 <= j < |visits| && 0 <= k < |visits[j].data| ==> ListedAt(visits, j, k)
  {
    RowsCount(visits);
    forall j, k | 0 <= j < |visits| && 0 <= k < |visits[j].data| ensures ListedAt(visits, j, k) {
      RowIsListed(visits, j, k);
    }
  }

  lemma StaysListed(visits: seq<Visit>, j: nat, k: nat)
    requires j < |visits| - 1 && k < |visits[j].data| && ListedAt(visits[..|visits| - 1], j, k)
    ensures ListedAt(visits, j, k)
  {
    RowsOfPrefix(visits[..|visits| - 1], visits, j);
  }

  lemma LastIsListed(visits: seq<Visit>, k: nat)
    requires visits != [] && k < |visits[|visits| - 1].data|
    requires |Rows(visits[..|visits| - 1])| == RowsBefore(visits, |visits| - 1)
    ensures ListedAt(visits, |visits| - 1, k)
  {
    CleanedAllAt(visits[|visits| - 1].data);
  }

  ghost predicate ListedAt(visits: seq<Visit>, j: nat, k: nat)
    requires j < |visits| && k < |visits[j].data|
  {
    var at := RowsBefore(visits, j) + k;
    at < |Rows(visits)| && IsTrimmedRow(Rows(visits)[at], visits[j].data[k])
  }

  lemma {:induction false} CleanedAllAreTrimmed(pages: seq<Page>)
    ensures forall page :: page in CleanedAll(pages) ==> Trim(page.id) == page.id
  {
    if pages != [] {
      CleanedAllAreTrimmed(pages[..|pages| - 1]);
    }
  }

  /** Listed pages are trimmed, so importing them never stores a padded page id. */
  lemma {:induction false} ListedPagesAreTrimmed(visits: seq<Visit>)
    ensures forall page :: page in Rows(visits) ==> Trim(page.id) == page.id
  {
    if visits != [] {
      ListedPagesAreTrimmed(visits[..|visits| - 1]);
      CleanedAllAreTrimmed(visits[|visits| - 1].data);
    }
  }
}
