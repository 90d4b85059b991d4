/** What a host sees when it keeps following next-page tokens against a
    provider that holds a fixed, ordered set of records. The adapter's List
    stops when the provider says the current page is the last; the client
    wrapper's ListRecords stops at the first page that is not full, which
    costs one extra, empty page whenever the record count is a multiple of
    the page size. */
module Paging {
  import opened Wrappers
  import opened Text
  import opened Errors
  import opened Resource
  import opened Plugin
  import Crud
  import Client

  // ---------------------------------------------------------------------------
  // The provider
  // ---------------------------------------------------------------------------

  function Clip(x: int, n: nat): (r: nat)
    ensures r <= n
  {
    if x < 0 then 0 else if x > n then n else x
  }

  /** `a * k` by repeated addition. Page boundaries are written with it so
      that the proofs about walks stay within linear arithmetic; the lemma
      TimesIsProduct relates it to multiplication. */
  function Times(a: nat, k: nat): nat
    decreases a
  {
    if a == 0 then 0 else Times(a - 1, k) + k
  }

  /** Number of pages of `k` records needed for `n` records: a page for every
      `k` records and one for any remainder. */
  function TotalPages(n: nat, k: nat): nat
    requires k > 0
    decreases n
  {
    if n == 0 then 0 else if n <= k then 1 else 1 + TotalPages(n - k, k)
  }

  /** Index of the first record of page `page` (counted from 1) in pages of `k`. */
  function PageStart(n: nat, k: nat, page: int): nat {
    if page < 1 then 0 else Clip(Times(page - 1, k), n)
  }

  /** Index just past the last record of page `page`: where the next page starts. */
  function PageEnd(n: nat, k: nat, page: int): (r: nat)
    ensures r == PageStart(n, k, page + 1)
  {
    if page < 0 then 0 else Clip(Times(page, k), n)
  }

  lemma PageBoundsOrdered(n: nat, k: nat, page: int)
    ensures PageStart(n, k, page) <= PageEnd(n, k, page) <= n
    ensures PageEnd(n, k, page) - PageStart(n, k, page) <= k
  {
  }

  /** The IDs on page `page` of `all` in pages of `k`. */
  function PageIds(all: seq<string>, k: nat, page: int): (r: seq<string>)
    requires k > 0
    ensures |r| <= k
  {
    PageBoundsOrdered(|all|, k, page);
    all[PageStart(|all|, k, page)..PageEnd(|all|, k, page)]
  }

  /** Records carrying the given IDs; their other fields do not matter here. */
  function SdkRecords(ids: seq<string>): (r: seq<SdkRecord>)
    ensures |r| == |ids|
    ensures forall i :: 0 <= i < |ids| ==> r[i].id == ids[i]
  {
    seq(|ids|, i requires 0 <= i < |ids| => SdkRecord(ids[i], "A", "", "", 1, None, None, ""))
  }

  function Responses(ids: seq<string>): (r: seq<Client.RecordResponse>)
    ensures |r| == |ids|
    ensures forall i :: 0 <= i < |ids| ==> r[i].id == ids[i]
  {
    seq(|ids|, i requires 0 <= i < |ids| => Client.RecordResponse(ids[i], "", "A", "", 1, false, "", 0))
  }

  /** The provider's answer to the adapter's list call: the page asked for and
      the page count. */
  function ServeAdapter(all: seq<string>, params: Crud.ListParams): Result<Crud.SdkPage, ProviderError>
    requires params.perPage > 0
  {
    var k := params.perPage;
    Ok(Crud.SdkPage(SdkRecords(PageIds(all, k, params.page)), Some(Crud.ResultInfo(params.page, TotalPages(|all|, k)))))
  }

  /** The provider's answer to the client's list call; a request without a
      page gets page 1. */
  function ServeClient(all: seq<string>, params: Client.ListParams): Result<Client.ListResponse, ProviderError>
    requires params.perPage > 0
  {
    var page := params.page.GetOr(1);
    Ok(Client.ListResponse(Responses(PageIds(all, params.perPage, page)), page))
  }

  // ---------------------------------------------------------------------------
  // Walks
  // ---------------------------------------------------------------------------

  /** The page the adapter's List returns for `req` from the provider; a
      request whose configuration does not parse makes no call and gets an
      empty page. */
  function AdapterPage(req: Crud.ListRequest, all: seq<string>): ListResult {
    if ParseTargetConfig(req.targetConfig).Err? then ListResult([], None)
    else Crud.List(req, true, ServeAdapter(all, Crud.ListCall(req, true).value.params)).result
  }

  /** The adapter's List against a provider holding `all`, as a function of
      the request. */
  function AdapterPages(all: seq<string>): Crud.ListRequest -> ListResult {
    req => AdapterPage(req, all)
  }

  /** The pages a host collects by calling `page` and following the
      next-page tokens it returns, making at most `fuel` further calls. */
  function Walk(page: Crud.ListRequest -> ListResult, req: Crud.ListRequest, fuel: nat): (pages: seq<ListResult>)
    ensures pages != []
    decreases fuel
  {
    var result := page(req);
    if fuel == 0 || result.nextPageToken.None? then [result]
    else [result] + Walk(page, req.(pageToken := result.nextPageToken), fuel - 1)
  }

  /** The pages the adapter's List returns as the host follows its tokens. */
  function AdapterWalk(req: Crud.ListRequest, all: seq<string>, fuel: nat): (pages: seq<ListResult>)
    ensures pages != []
  {
    Walk(AdapterPages(all), req, fuel)
  }

  /** The walk ended on a page without a next-page token. */
  predicate AdapterWalkEnds(pages: seq<ListResult>) {
    pages != [] && pages[|pages| - 1].nextPageToken.None?
  }

  /** Page size of the client's list calls. */
  function ClientPerPage(zoneId: string, pageSize: int): (k: int)
    ensures k > 0
  {
    Client.ListRequestFor(zoneId, None, pageSize).perPage
  }

  /** The page the client's ListRecords returns for a token from the provider. */
  function ClientPage(zoneId: string, token: Option<string>, pageSize: int, all: seq<string>): Client.RecordPage {
    var request := Client.ListRequestFor(zoneId, token, pageSize);
    Client.ListRecords(zoneId, token, pageSize, ServeClient(all, request)).result.value
  }

  /** The pages the client's ListRecords returns as the caller follows its
      tokens, making at most `fuel` further calls. */
  function ClientWalk(zoneId: string, token: Option<string>, pageSize: int, all: seq<string>, fuel: nat)
    : (pages: seq<Client.RecordPage>)
    ensures pages != []
    decreases fuel
  {
    var page := ClientPage(zoneId, token, pageSize, all);
    if fuel == 0 || page.nextToken.None? then [page]
    else [page] + ClientWalk(zoneId, page.nextToken, pageSize, all, fuel - 1)
  }

  /** The walk ended on a page without a next-page token holding `last` records. */
  predicate ClientWalkEnds(pages: seq<Client.RecordPage>, last: nat) {
    pages != [] && pages[|pages| - 1].nextToken.None? && |pages[|pages| - 1].records| == last
  }

  lemma ClientWalkEndsAfter(page: Client.RecordPage, rest: seq<Client.RecordPage>, last: nat)
    requires ClientWalkEnds(rest, last)
    ensures ClientWalkEnds([page] + rest, last)
  {
  }

  function AdapterIds(pages: seq<ListResult>): seq<string> {
    if pages == [] then [] else pages[0].nativeIds + AdapterIds(pages[1..])
  }

  function RecordIds(records: seq<Client.DNSRecord>): (ids: seq<string>)
    ensures |ids| == |records|
    ensures forall i :: 0 <= i < |records| ==> ids[i] == records[i].id
  {
    if records == [] then [] else [records[0].id] + RecordIds(records[1..])
  }

  function ClientIds(pages: seq<Client.RecordPage>): seq<string> {
    if pages == [] then [] else RecordIds(pages[0].records) + ClientIds(pages[1..])
  }

  lemma AdapterIdsCons(result: ListResult, rest: seq<ListResult>)
    ensures AdapterIds([result] + rest) == result.nativeIds + AdapterIds(rest)
  {
    assert ([result] + rest)[1..] == rest;
  }

  lemma AdapterWalkEndsCons(result: ListResult, rest: seq<ListResult>)
    requires AdapterWalkEnds(rest)
    ensures AdapterWalkEnds([result] + rest)
  {
  }

  lemma ClientWalkCons(zoneId: string, token: Option<string>, pageSize: int, all: seq<string>, fuel: nat)
    requires fuel > 0 && ClientPage(zoneId, token, pageSize, all).nextToken.Some?
    ensures ClientWalk(zoneId, token, pageSize, all, fuel)
            == [ClientPage(zoneId, token, pageSize, all)]
               + ClientWalk(zoneId, ClientPage(zoneId, token, pageSize, all).nextToken, pageSize, all, fuel - 1)
  {
  }

  lemma ClientIdsCons(page: Client.RecordPage, rest: seq<Client.RecordPage>)
    ensures ClientIds([page] + rest) == RecordIds(page.records) + ClientIds(rest)
  {
    assert ([page] + rest)[1..] == rest;
  }

  // ---------------------------------------------------------------------------
  // Arithmetic of pages
  // ---------------------------------------------------------------------------

  lemma MulMonotonic(a: int, b: int, k: nat)
    requires a <= b
    ensures a * k <= b * k
  {
    assert b * k - a * k == (b - a) * k;
  }

  lemma {:induction false} TimesIsProduct(a: nat, k: nat)
    ensures Times(a, k) == a * k
    decreases a
  {
    if a > 0 {
      TimesIsProduct(a - 1, k);
      assert (a - 1) * k + k == a * k;
    }
  }

  /** The pages the page count counts cover every record without a page to
      spare. */
  lemma {:induction false} TotalPagesBounds(n: nat, k: nat)
    requires k > 0
    ensures Times(TotalPages(n, k), k) >= n
    ensures TotalPages(n, k) <= n
    ensures TotalPages(n, k) == 0 <==> n == 0
    decreases n
  {
    if n > k {
      TotalPagesBounds(n - k, k);
    }
  }

  lemma PageBelowCount(n: nat, k: nat, p: int)
    requires k > 0 && p < TotalPages(n, k)
    ensures p < n
  {
    TotalPagesBounds(n, k);
  }

  /** The page count is the ceiling of `n / k`. */
  lemma {:induction false} TotalPagesIsCeiling(n: nat, k: nat)
    requires k > 0
    ensures TotalPages(n, k) == (n + k - 1) / k
    decreases n
  {
    if n == 0 {
      DivUnique(k - 1, k, 0, k - 1);
    } else if n <= k {
      DivUnique(n + k - 1, k, 1, n - 1);
    } else {
      TotalPagesIsCeiling(n - k, k);
      DivShift(n + k - 1, k);
    }
  }

  /** Quotients are unique: the quotient of `m = q * k + r` with `0 <= r < k` is `q`. */
  lemma DivUnique(m: int, k: int, q: int, r: int)
    requires k > 0 && 0 <= r < k && m == q * k + r
    ensures m / k == q
  {
    var q2, r2 := m / k, m % k;
    assert (q - q2) * k == r2 - r;
    if q > q2 {
      MulMonotonic(1, q - q2, k);
    } else if q < q2 {
      MulMonotonic(1, q2 - q, k);
    }
  }

  lemma DivShift(m: nat, k: nat)
    requires k > 0 && m >= k
    ensures (m - k) / k + 1 == m / k
  {
    var q, r := (m - k) / k, (m - k) % k;
    assert m == (q + 1) * k + r;
    DivUnique(m, k, q + 1, r);
  }

  lemma FloorPageBounds(n: nat, k: nat, p: int)
    requires k > 0 && 1 <= p <= n / k + 1
    ensures 0 <= (p - 1) * k <= n
    ensures p <= n / k ==> p * k <= n
    ensures p == n / k + 1 ==> p * k > n && n - (p - 1) * k == n % k
  {
    var q := n / k;
    assert n == q * k + n % k;
    MulMonotonic(p - 1, q, k);
    MulMonotonic(0, p - 1, k);
    if p <= q {
      MulMonotonic(p, q, k);
    }
    if p == q + 1 {
      assert p * k == q * k + k;
    }
  }

  // ---------------------------------------------------------------------------
  // Following the tokens
  // ---------------------------------------------------------------------------

  /** Page size of the adapter's list calls for a request. */
  function PerPage(req: Crud.ListRequest): (k: int)
    ensures k > 0
    ensures ParseTargetConfig(req.targetConfig).Ok? ==> k == Crud.ListCall(req, true).value.params.perPage
  {
    if req.pageSize > 0 then req.pageSize else Crud.DefaultListPageSize
  }

  lemma SdkRecordIds(ids: seq<string>)
    ensures Crud.NativeIds(SdkRecords(ids)) == ids
  {
  }

  lemma ResponseIds(ids: seq<string>, zoneId: string)
    ensures RecordIds(Client.ListItems(Responses(ids), zoneId)) == ids
  {
  }

  lemma SplitSlice(all: seq<string>, a: nat, b: nat)
    requires a <= b <= |all|
    ensures all[a..b] + all[b..] == all[a..]
  {
  }

  /** The last page the provider reports ends at the last record. */
  lemma LastPageEndsAtEnd(n: nat, k: nat, p: int)
    requires k > 0 && 1 <= p
    requires TotalPages(n, k) <= p && (p <= TotalPages(n, k) || p == 1)
    ensures PageEnd(n, k, p) == n
  {
    TotalPagesBounds(n, k);
    var total := TotalPages(n, k);
    if total > 0 {
      assert p == total;
    }
  }

  /** One call of the adapter's List against the provider, starting at page `p`. */
  lemma AdapterStep(req: Crud.ListRequest, all: seq<string>, p: int)
    requires ParseTargetConfig(req.targetConfig).Ok?
    requires Crud.StartPage(req.pageToken) == p
    ensures var k := PerPage(req);
            var result := AdapterPage(req, all);
            && result.nativeIds == PageIds(all, k, p)
            && result.nextPageToken == if p < TotalPages(|all|, k) then Some(FormatInt(p + 1)) else None
  {
    var k := PerPage(req);
    SdkRecordIds(PageIds(all, k, p));
  }

  /** The token a caller holds when it asks the adapter for page `p`: none
      for the first page, the rendered page number for the others. */
  function TokenFor(p: int): Option<string> {
    if p <= 1 then None else Some(FormatInt(p))
  }

  /** A page token the adapter hands out leads to the page it names. */
  lemma TokenNamesPage(p: int)
    requires 1 <= p <= Int64Max
    ensures Crud.StartPage(TokenFor(p)) == p
  {
    if p > 1 {
      ScanFormatted(p, []);
      assert FormatInt(p) + [] == FormatInt(p);
    }
  }

  /** `pages` are what a walk from page `p` in pages of `k` should return:
      one page per remaining provider page (one for an empty zone), the
      records from page `p` on, in order, and a last page without a token. */
  predicate AdapterRemainder(pages: seq<ListResult>, all: seq<string>, k: nat, p: int)
    requires k > 0
  {
    && |pages| == (if TotalPages(|all|, k) == 0 then 1 else TotalPages(|all|, k) - p + 1)
    && AdapterIds(pages) == all[PageStart(|all|, k, p)..]
    && AdapterWalkEnds(pages)
  }

  /** `page` answers a request for page `q` of `all`, in pages of `k`, as
      the provider's pages are numbered: the IDs on that page, and a token for
      the next page unless it is the last. */
  predicate ServesPage(page: Crud.ListRequest -> ListResult, base: Crud.ListRequest, all: seq<string>, k: nat, q: int)
    requires k > 0
  {
    var result := page(base.(pageToken := TokenFor(q)));
    && result.nativeIds == PageIds(all, k, q)
    && result.nextPageToken == if q < TotalPages(|all|, k) then TokenFor(q + 1) else None
  }

  /** Following the tokens of a `page` that serves every page from `p` on
      returns the remaining pages one by one and then stops. */
  lemma {:induction false} WalkFrom(page: Crud.ListRequest -> ListResult, base: Crud.ListRequest, all: seq<string>, k: nat, p: int, fuel: nat)
    requires k > 0
    requires 1 <= p && (p <= TotalPages(|all|, k) || p == 1)
    requires fuel + p >= TotalPages(|all|, k)
    requires forall q :: p <= q && (q <= TotalPages(|all|, k) || q == 1) ==> ServesPage(page, base, all, k, q)
    ensures AdapterRemainder(Walk(page, base.(pageToken := TokenFor(p)), fuel), all, k, p)
    decreases fuel
  {
    var req := base.(pageToken := TokenFor(p));
    assert ServesPage(page, base, all, k, p);
    if p < TotalPages(|all|, k) {
      var next := base.(pageToken := TokenFor(p + 1));
      WalkFrom(page, base, all, k, p + 1, fuel - 1);
      assert req.(pageToken := page(req).nextPageToken) == next;
      AdapterCombine(page(req), Walk(page, next, fuel - 1), all, k, p);
    } else {
      AdapterFinish(page(req), all, k, p);
    }
  }

  /** The adapter's List serves every page the provider has. */
  lemma AdapterServes(base: Crud.ListRequest, all: seq<string>, q: int)
    requires ParseTargetConfig(base.targetConfig).Ok?
    requires |all| < Int64Max
    requires 1 <= q && (q <= TotalPages(|all|, PerPage(base)) || q == 1)
    ensures ServesPage(AdapterPages(all), base, all, PerPage(base), q)
  {
    TotalPagesBounds(|all|, PerPage(base));
    TokenNamesPage(q);
    AdapterStep(base.(pageToken := TokenFor(q)), all, q);
  }

  /** Following the adapter's tokens from page `p`, in pages of `k`, returns
      the remaining pages one by one and then stops. */
  lemma AdapterWalkFrom(req: Crud.ListRequest, all: seq<string>, k: nat, p: int, fuel: nat)
    requires ParseTargetConfig(req.targetConfig).Ok? && PerPage(req) == k
    requires req.pageToken == TokenFor(p)
    requires |all| < Int64Max
    requires 1 <= p && (p <= TotalPages(|all|, k) || p == 1)
    requires fuel + p >= TotalPages(|all|, k)
    ensures AdapterRemainder(AdapterWalk(req, all, fuel), all, k, p)
  {
    forall q | p <= q && (q <= TotalPages(|all|, k) || q == 1)
      ensures ServesPage(AdapterPages(all), req, all, k, q)
    {
      AdapterServes(req, all, q);
    }
    WalkFrom(AdapterPages(all), req, all, k, p, fuel);
    assert req.(pageToken := TokenFor(p)) == req;
  }

  /** A page that is not the last, put in front of the pages after it. */
  lemma AdapterCombine(result: ListResult, rest: seq<ListResult>, all: seq<string>, k: nat, p: int)
    requires k > 0 && 1 <= p < TotalPages(|all|, k)
    requires result.nativeIds == PageIds(all, k, p)
    requires AdapterRemainder(rest, all, k, p + 1)
    ensures AdapterRemainder([result] + rest, all, k, p)
  {
    var n := |all|;
    AdapterIdsCons(result, rest);
    AdapterWalkEndsCons(result, rest);
    PageBoundsOrdered(n, k, p);
    SplitSlice(all, PageStart(n, k, p), PageEnd(n, k, p));
  }

  /** The last page alone. */
  lemma AdapterFinish(result: ListResult, all: seq<string>, k: nat, p: int)
    requires k > 0 && 1 <= p && TotalPages(|all|, k) <= p
    requires p <= TotalPages(|all|, k) || p == 1
    requires result.nativeIds == PageIds(all, k, p)
    requires result.nextPageToken.None?
    ensures AdapterRemainder([result], all, k, p)
  {
    LastPageEndsAtEnd(|all|, k, p);
    assert AdapterIds([result]) == result.nativeIds + AdapterIds([]);
  }

  /** Following the adapter's next-page tokens from the first page lists
      every record exactly once and in order, in as many pages as the
      provider reports (one empty page for an empty zone), and ends on a page
      without a token. The page count is the ceiling of the record count over
      the page size (TotalPagesIsCeiling). */
  lemma AdapterListingIsComplete(req: Crud.ListRequest, all: seq<string>)
    requires ParseTargetConfig(req.targetConfig).Ok?
    requires req.pageToken.None?
    requires |all| < Int64Max
    ensures var total := TotalPages(|all|, PerPage(req));
            var pages := AdapterWalk(req, all, total);
            && total == (|all| + PerPage(req) - 1) / PerPage(req)
            && |pages| == (if total == 0 then 1 else total)
            && AdapterIds(pages) == all
            && AdapterWalkEnds(pages)
  {
    TotalPagesIsCeiling(|all|, PerPage(req));
    AdapterWalkFrom(req, all, PerPage(req), 1, TotalPages(|all|, PerPage(req)));
    assert PageStart(|all|, PerPage(req), 1) == 0;
    assert all[0..] == all;
  }

  /** Below the last full page every page is full; the page after it holds
      the remainder. */
  lemma ClientPageSize(n: nat, k: nat, p: int)
    requires k > 0 && 1 <= p <= n / k + 1
    ensures p <= n / k ==> PageEnd(n, k, p) - PageStart(n, k, p) == k
    ensures p == n / k + 1 ==> PageEnd(n, k, p) == n && PageEnd(n, k, p) - PageStart(n, k, p) == n % k
  {
    FloorPageBounds(n, k, p);
    TimesIsProduct(p - 1, k);
    TimesIsProduct(p, k);
  }

  lemma FirstPageStart(n: nat, k: nat)
    ensures PageStart(n, k, 1) == 0
  {
  }

  /** One call of the client's ListRecords against the provider, at page `p`. */
  lemma ClientStep(zoneId: string, token: Option<string>, pageSize: int, all: seq<string>, p: int)
    requires Client.RequestedPage(token).GetOr(1) == p
    ensures var k := ClientPerPage(zoneId, pageSize);
            var page := ClientPage(zoneId, token, pageSize, all);
            && RecordIds(page.records) == PageIds(all, k, p)
            && page.nextToken == if |PageIds(all, k, p)| == k then Some(FormatInt(p + 1)) else None
  {
    var k := ClientPerPage(zoneId, pageSize);
    ResponseIds(PageIds(all, k, p), zoneId);
  }

  /** A page token the client hands out leads to the page it names. */
  lemma ClientTokenNamesPage(p: int)
    requires p >= 1
    ensures Client.RequestedPage(Some(FormatInt(p + 1))) == Some(p + 1)
  {
    ParseFormatted(p + 1);
  }

  /** `pages` are what a walk from page `p` in pages of `k` should return:
      one page per remaining full page and one more, the records from page
      `p` on, in order, and a last page without a token that holds the
      remainder. */
  predicate ClientRemainder(pages: seq<Client.RecordPage>, all: seq<string>, k: nat, p: int)
    requires k > 0
  {
    && |pages| == |all| / k + 2 - p
    && ClientIds(pages) == all[PageStart(|all|, k, p)..]
    && ClientWalkEnds(pages, |all| % k)
  }

  /** Following the client's tokens from page `p`, in pages of `k`, returns
      the remaining pages one by one and stops at the first page that is not
      full. */
  lemma {:induction false} ClientWalkFrom(zoneId: string, token: Option<string>, pageSize: int, all: seq<string>, k: nat, p: int, fuel: nat)
    requires ClientPerPage(zoneId, pageSize) == k
    requires Client.RequestedPage(token).GetOr(1) == p
    requires 1 <= p <= |all| / k + 1
    requires fuel + p >= |all| / k + 1
    ensures ClientRemainder(ClientWalk(zoneId, token, pageSize, all, fuel), all, k, p)
    decreases fuel
  {
    var page := ClientPage(zoneId, token, pageSize, all);
    ClientStep(zoneId, token, pageSize, all, p);
    ClientPageSize(|all|, k, p);
    if p <= |all| / k {
      ClientTokenNamesPage(p);
      ClientNextPage(zoneId, token, pageSize, all, k, p, fuel);
    } else {
      ClientWalkSingle(zoneId, token, pageSize, all, fuel);
      ClientFinish(page, all, k, p);
    }
  }

  /** The inductive step of ClientWalkFrom: a full page followed by the walk
      from the next page. */
  lemma {:induction false} ClientNextPage(zoneId: string, token: Option<string>, pageSize: int, all: seq<string>, k: nat, p: int, fuel: nat)
    requires ClientPerPage(zoneId, pageSize) == k
    requires Client.RequestedPage(token).GetOr(1) == p
    requires 1 <= p <= |all| / k
    requires fuel + p >= |all| / k + 1
    requires RecordIds(ClientPage(zoneId, token, pageSize, all).records) == PageIds(all, k, p)
    requires ClientPage(zoneId, token, pageSize, all).nextToken == Some(FormatInt(p + 1))
    requires Client.RequestedPage(Some(FormatInt(p + 1))) == Some(p + 1)
    ensures ClientRemainder(ClientWalk(zoneId, token, pageSize, all, fuel), all, k, p)
    decreases fuel, 0
  {
    var page := ClientPage(zoneId, token, pageSize, all);
    var next := Some(FormatInt(p + 1));
    ClientWalkFrom(zoneId, next, pageSize, all, k, p + 1, fuel - 1);
    ClientCombine(page, ClientWalk(zoneId, next, pageSize, all, fuel - 1), all, k, p);
    ClientWalkCons(zoneId, token, pageSize, all, fuel);
  }

  /** A full page put in front of the pages after it. */
  lemma ClientCombine(page: Client.RecordPage, rest: seq<Client.RecordPage>, all: seq<string>, k: nat, p: int)
    requires k > 0 && 1 <= p <= |all| / k
    requires RecordIds(page.records) == PageIds(all, k, p)
    requires ClientRemainder(rest, all, k, p + 1)
    ensures ClientRemainder([page] + rest, all, k, p)
  {
    var n := |all|;
    ClientIdsCons(page, rest);
    ClientWalkEndsAfter(page, rest, n % k);
    PageBoundsOrdered(n, k, p);
    SplitSlice(all, PageStart(n, k, p), PageEnd(n, k, p));
  }

  lemma ClientWalkSingle(zoneId: string, token: Option<string>, pageSize: int, all: seq<string>, fuel: nat)
    requires ClientPage(zoneId, token, pageSize, all).nextToken.None?
    ensures ClientWalk(zoneId, token, pageSize, all, fuel) == [ClientPage(zoneId, token, pageSize, all)]
  {
  }

  /** The page after the last full page alone. */
  lemma ClientFinish(page: Client.RecordPage, all: seq<string>, k: nat, p: int)
    requires k > 0 && p == |all| / k + 1
    requires RecordIds(page.records) == PageIds(all, k, p)
    requires page.nextToken.None?
    ensures ClientRemainder([page], all, k, p)
  {
    ClientPageSize(|all|, k, p);
    assert ClientIds([page]) == RecordIds(page.records) + ClientIds([]);
  }

  /** Following the client's next-page tokens from the first page lists every
      record exactly once and in order, in one page more than the number of
      full pages; the last page holds the remainder, so it is empty whenever
      the record count is a multiple of the page size. */
  lemma {:induction false} ClientListingIsComplete(zoneId: string, pageSize: int, all: seq<string>)
    ensures var k := ClientPerPage(zoneId, pageSize);
            var pages := ClientWalk(zoneId, None, pageSize, all, |all| / k);
            && |pages| == |all| / k + 1
            && ClientIds(pages) == all
            && ClientWalkEnds(pages, |all| % k)
  {
    var k := ClientPerPage(zoneId, pageSize);
    ClientWalkFrom(zoneId, None, pageSize, all, k, 1, |all| / k);
    FirstPageStart(|all|, k);
    assert all[0..] == all;
  }
}
