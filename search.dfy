/** `CaseSearcher.search`: request the first page of `/search/` with the
    keyword, then follow each page's `next` link until a page has none, and
    yield every page's `results` in order. */
module Search {
  import opened Types
  import opened Transport

  const SearchPath := "/search/"
  /** The `type` filter selecting case law (opinions). */
  const OpinionType := "o"
  const DefaultPageSize := 100

  /** Python truthiness of the `next` value: present, not null, not empty. */
  predicate Truthy(link: Option<string>) {
    link.Some? && link.value != ""
  }

  /** The `get` the loop issues when `cursor` is the previous page's `next`
      (`None` before the first page). */
  function RequestFor(keyword: string, pageSize: int, cursor: Option<string>): Call {
    if Truthy(cursor) then Call(cursor.value, NoParams)
    else Call(SearchPath, SearchQuery(keyword, OpinionType, pageSize))
  }

  /** The `get` that follows the pages read so far. */
  function NextCall(keyword: string, pageSize: int, pages: seq<Json>): Call {
    RequestFor(keyword, pageSize, if pages == [] then None else pages[|pages| - 1].next)
  }

  /** The `get` calls that fetched `pages`, one per page, in order. */
  function Trail(keyword: string, pageSize: int, pages: seq<Json>): seq<Call> {
    if pages == [] then []
    else Trail(keyword, pageSize, pages[..|pages| - 1]) + [NextCall(keyword, pageSize, pages[..|pages| - 1])]
  }

  /** Everything the pages yield: their `results`, page after page. */
  function Results(pages: seq<Json>): seq<CaseMeta> {
    if pages == [] then [] else Results(pages[..|pages| - 1]) + pages[|pages| - 1].results
  }

  /** Pages the loop has read and went on from: each has a truthy `next`. */
  ghost predicate Continuing(pages: seq<Json>) {
    forall i :: 0 <= i < |pages| ==> Truthy(pages[i].next)
  }

  /** Pages of a finished search: every page but the last has a truthy
      `next`, and the last has none. */
  ghost predicate Complete(pages: seq<Json>) {
    pages != [] && Continuing(pages[..|pages| - 1]) && !Truthy(pages[|pages| - 1].next)
  }

  lemma {:induction false} ResultsAppend(p: seq<Json>, q: seq<Json>)
    ensures Results(p + q) == Results(p) + Results(q)
    decreases |q|
  {
    if q != [] {
      var q' := q[..|q| - 1];
      assert (p + q)[..|p + q| - 1] == p + q';
      ResultsAppend(p, q');
    } else {
      assert p + q == p;
    }
  }

  /** No record is filtered out: every record of every page is yielded, at
      its place behind the records of the pages before it. */
  lemma ResultsKeepEveryRecord(pages: seq<Json>, i: nat, j: nat)
    requires i < |pages| && j < |pages[i].results|
    ensures var before := |Results(pages[..i])|;
      before + j < |Results(pages)| && Results(pages)[before + j] == pages[i].results[j]
  {
    assert pages == pages[..i] + [pages[i]] + pages[i + 1..];
    ResultsAppend(pages[..i] + [pages[i]], pages[i + 1..]);
    ResultsAppend(pages[..i], [pages[i]]);
    assert Results([pages[i]]) == pages[i].results by {
      assert [pages[i]][..0] == [];
    }
  }

  /** The requests of a search: the first to `/search/` with the keyword,
      the opinion type and the page size, each later one to the previous
      page's `next` with no parameters. */
  lemma {:induction false} TrailShape(keyword: string, pageSize: int, pages: seq<Json>)
    ensures |Trail(keyword, pageSize, pages)| == |pages|
    ensures pages != [] ==> Trail(keyword, pageSize, pages)[0] == Call(SearchPath, SearchQuery(keyword, OpinionType, pageSize))
    ensures forall i :: 0 < i < |pages| && Truthy(pages[i - 1].next) ==>
      Trail(keyword, pageSize, pages)[i] == Call(pages[i - 1].next.value, NoParams)
    decreases |pages|
  {
    if pages != [] {
      var init := pages[..|pages| - 1];
      TrailShape(keyword, pageSize, init);
      forall i | 0 < i < |pages| && Truthy(pages[i - 1].next)
        ensures Trail(keyword, pageSize, pages)[i] == Call(pages[i - 1].next.value, NoParams)
      {
        if i < |init| {
          assert init[i - 1] == pages[i - 1];
        } else {
          assert init[|init| - 1] == pages[i - 1];
        }
      }
    }
  }

  /** The loop stops at the first page without a `next`: of the pages the
      server would serve, a finished search read exactly the shortest run
      that ends with such a page. */
  lemma FirstStopEnds(p: seq<Json>, q: seq<Json>)
    requires Complete(p) && Complete(q)
    requires |p| <= |q| && q[..|p|] == p
    ensures p == q
  {
  }

  /** What a search reads from the server: the pages, the failure that ended
      it early (if one did) and the replies left behind. */
  datatype SearchRun = SearchRun(pages: seq<Json>, failure: Option<Failure>, left: seq<Response>)

  /** The pages a search reads from `script`: one `get` per page, each
      answered as `Transact` says, until a page has no `next` or a `get`
      fails. Which URL a page is requested from does not change the reply
      the script gives, so the pages depend on the script alone. */
  function ServedPages(script: seq<Response>): (s: SearchRun)
    ensures |s.left| <= |script|
    decreases |script|
  {
    var e := Transact(script, 0, DefaultMaxRetries);
    var left := script[e.attempts..];
    match e.result
    case Err(f) => SearchRun([], Some(f), left)
    case Ok(resp) =>
      if !Truthy(resp.body.next) then SearchRun([resp.body], None, left)
      else
        var more := ServedPages(left);
        SearchRun([resp.body] + more.pages, more.failure, more.left)
  }

  /** The repository's two-page example: one record per page, the first page
      linking to the second. Served by two successful replies, the search
      reads both pages and nothing else; both records come back in page order
      after exactly two calls. */
  lemma TwoPageExample(a: CaseMeta, b: CaseMeta, keyword: string)
    ensures var pages := [Json([a], Some("/search/?page=2"), 0), Json([b], None, 0)];
      && ServedPages([Response(200, None, pages[0]), Response(200, None, pages[1])]) == SearchRun(pages, None, [])
      && Complete(pages)
      && Results(pages) == [a, b]
      && Trail(keyword, DefaultPageSize, pages)
         == [Call(SearchPath, SearchQuery(keyword, OpinionType, DefaultPageSize)), Call("/search/?page=2", NoParams)]
  {
    var first := Json([a], Some("/search/?page=2"), 0);
    var second := Json([b], None, 0);
    var pages := [first, second];
    var script := [Response(200, None, first), Response(200, None, second)];
    assert script[1..] == [Response(200, None, second)];
    assert script[1..][1..] == [];
    assert ServedPages(script[1..]) == SearchRun([second], None, []);
    assert pages[..1] == [first];
    assert [first][..0] == [];
    assert Results([first]) == [a];
    assert Trail(keyword, DefaultPageSize, [first]) == [Call(SearchPath, SearchQuery(keyword, OpinionType, DefaultPageSize))];
  }

  /** `s` read after `pages`. */
  function Behind(pages: seq<Json>, s: SearchRun): SearchRun {
    SearchRun(pages + s.pages, s.failure, s.left)
  }

  lemma BehindBehind(p: seq<Json>, q: seq<Json>, s: SearchRun)
    ensures Behind(p, Behind(q, s)) == Behind(p + q, s)
  {
    assert p + (q + s.pages) == (p + q) + s.pages;
  }

  /** A page with a `next` in front of pages the loop went on from. */
  lemma ContinuingCons(page: Json, pages: seq<Json>)
    requires Truthy(page.next) && Continuing(pages)
    ensures Continuing([page] + pages)
  {
    forall i | 0 <= i < |[page] + pages| ensures Truthy(([page] + pages)[i].next) {
      if i > 0 {
        assert ([page] + pages)[i] == pages[i - 1];
      }
    }
  }

  /** A search the server lets finish reads a complete run of pages; one that
      fails has only read pages with a `next`. */
  lemma {:induction false} ServedPagesShape(script: seq<Response>)
    ensures var s := ServedPages(script);
      (s.failure.None? ==> Complete(s.pages)) && (s.failure.Some? ==> Continuing(s.pages))
    decreases |script|
  {
    var s := ServedPages(script);
    var e := Transact(script, 0, DefaultMaxRetries);
    var left := script[e.attempts..];
    if e.result.Err? {
      assert s.pages == [];
    } else if !Truthy(e.result.value.body.next) {
      assert s.pages == [e.result.value.body] && s.failure.None?;
      assert s.pages[..0] == [];
    } else {
      var page := e.result.value.body;
      ServedPagesShape(left);
      var more := ServedPages(left);
      assert s == SearchRun([page] + more.pages, more.failure, more.left);
      if more.failure.None? {
        var init := more.pages[..|more.pages| - 1];
        ContinuingCons(page, init);
        assert s.pages[..|s.pages| - 1] == [page] + init;
        assert s.pages[|s.pages| - 1] == more.pages[|more.pages| - 1];
      } else {
        ContinuingCons(page, more.pages);
      }
    }
  }

  /** One more page read: its call follows the earlier ones, its records the
      earlier records, and it either lets the loop go on or ends the run. */
  lemma PageRead(keyword: string, pageSize: int, pages: seq<Json>, page: Json)
    requires Continuing(pages)
    ensures Trail(keyword, pageSize, pages + [page]) == Trail(keyword, pageSize, pages) + [NextCall(keyword, pageSize, pages)]
    ensures Results(pages + [page]) == Results(pages) + page.results
    ensures Truthy(page.next) ==> Continuing(pages + [page])
    ensures !Truthy(page.next) ==> Complete(pages + [page])
  {
    var pages' := pages + [page];
    assert pages'[..|pages|] == pages;
    forall i | 0 <= i < |pages| ensures Truthy(pages'[i].next) {
      assert pages'[i] == pages[i];
    }
  }

  /** The calls made before a search, then those of its pages so far and
      the call of the page read next. */
  lemma TrailBehind(before: seq<Call>, keyword: string, pageSize: int, pages: seq<Json>, page: Json)
    ensures before + Trail(keyword, pageSize, pages) + [NextCall(keyword, pageSize, pages)]
         == before + Trail(keyword, pageSize, pages + [page])
  {
    assert (pages + [page])[..|pages|] == pages;
  }

  /** The page just read, appended to the pages read before it: the rest of
      the run is what the server serves after it. */
  lemma PageServed(whole: SearchRun, pages: seq<Json>, script: seq<Response>, page: Json, left: seq<Response>)
    requires whole == Behind(pages, ServedPages(script))
    requires Truthy(page.next) ==> ServedPages(script) == Behind([page], ServedPages(left))
    requires !Truthy(page.next) ==> ServedPages(script) == SearchRun([page], None, left)
    ensures Truthy(page.next) ==> whole == Behind(pages + [page], ServedPages(left))
    ensures !Truthy(page.next) ==> whole == SearchRun(pages + [page], None, left)
  {
    if Truthy(page.next) {
      BehindBehind(pages, [page], ServedPages(left));
    }
  }

  function BodyOf(r: Result<Response>): (b: Result<Json>)
    ensures b.Ok? <==> r.Ok?
  {
    match r
    case Ok(resp) => Ok(resp.body)
    case Err(f) => Err(f)
  }

  class CaseSearcher {
    const client: ApiClient
    const pageSize: int

    constructor (client: ApiClient, pageSize: int)
      ensures this.client == client && this.pageSize == pageSize
    {
      this.client := client;
      this.pageSize := pageSize;
    }

    /** One turn of the generator's loop: fetch the page `cursor` leads to
        and decode it. */
    method FetchPage(keyword: string, cursor: Option<string>) returns (r: Result<Json>, ghost raw: Result<Response>)
      modifies client
      ensures client.Answered(RequestFor(keyword, pageSize, cursor), DefaultMaxRetries, raw)
      ensures r == BodyOf(raw)
      ensures r.Ok? ==> |client.network| < old(|client.network|)
      ensures var s := ServedPages(old(client.network));
        && (r.Err? ==> s == SearchRun([], Some(r.failure), client.network))
        && (r.Ok? && !Truthy(r.value.next) ==> s == SearchRun([r.value], None, client.network))
        && (r.Ok? && Truthy(r.value.next) ==> s == Behind([r.value], ServedPages(client.network)))
    {
      var call := RequestFor(keyword, pageSize, cursor);
      var resp := client.Get(call.path, call.params, DefaultMaxRetries);
      raw := resp;
      r := BodyOf(resp);
    }

    /** `list(search(keyword))`: the records of every page, read until a page
        has no `next`; a failed request ends the search with its failure.
        `pages` are the pages read. */
    method Search(keyword: string) returns (r: Result<seq<CaseMeta>>, ghost pages: seq<Json>)
      modifies client
      ensures r.Ok? ==> Complete(pages) && r.value == Results(pages)
      ensures r.Ok? ==> client.calls == old(client.calls) + Trail(keyword, pageSize, pages)
      ensures r.Err? ==> Continuing(pages)
      ensures r.Err? ==> client.calls == old(client.calls) + Trail(keyword, pageSize, pages) + [NextCall(keyword, pageSize, pages)]
      ensures var s := ServedPages(old(client.network));
        && pages == s.pages && client.network == s.left
        && (r.Ok? <==> s.failure.None?) && (r.Err? ==> s.failure == Some(r.failure))
    {
      var cursor: Option<string> := None;
      var found: seq<CaseMeta> := [];
      pages := [];
      ghost var whole := ServedPages(client.network);
      while true
        invariant whole == Behind(pages, ServedPages(client.network))
        invariant Continuing(pages)
        invariant cursor == if pages == [] then None else pages[|pages| - 1].next
        invariant found == Results(pages)
        invariant client.calls == old(client.calls) + Trail(keyword, pageSize, pages)
        decreases |client.network|
      {
        ghost var script := client.network;
        var page, raw := FetchPage(keyword, cursor);
        if page.Err? {
          r := Err(page.failure);
          return;
        }
        var js := page.value;
        PageRead(keyword, pageSize, pages, js);
        TrailBehind(old(client.calls), keyword, pageSize, pages, js);
        PageServed(whole, pages, script, js, client.network);
        found := found + js.results;
        pages := pages + [js];
        cursor := js.next;
        if !Truthy(cursor) {
          r := Ok(found);
          return;
        }
      }
    }
  }
}
