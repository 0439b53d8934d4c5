/** The request tracker client: parameter defaulting for one page request and
    the loop that drains every page of requests into one id-unique list.

    The tracker itself is a pure oracle `Server`: the response it gives to a
    query, `None` when the HTTP call failed (the client then sees `null`). */
module Overseerr {
  import opened Wrappers
  import opened Requests

  /** Default maximum number of results per page. */
  const PaginationMaxSize := 100

  /** The `pageInfo` block of a response; every field may be missing. */
  datatype PageInfo = PageInfo(pages: Option<int>, pageSize: Option<int>, results: Option<int>, page: Option<int>)

  /** The body of a `/request` response. */
  datatype Response = Response(pageInfo: Option<PageInfo>, results: Option<seq<MediaRequest>>)

  /** The query parameters actually sent for one page, after defaulting. */
  datatype Query = Query(take: int, skip: int, filter: string, sort: string)

  type Server = Query -> Option<Response>

  /** The query one page request sends for the given (possibly missing) options. */
  function Defaulted(take: Option<int>, skip: Option<int>, filter: Option<string>, sort: Option<string>): Query {
    Query(NumberOr(take, PaginationMaxSize), NumberOr(skip, 0), StringOr(filter, "available"), StringOr(sort, "added"))
  }

  /** The options object a caller passes for one page; it is defaulted in place. */
  class PaginationOptions {
    var take: Option<int>
    var skip: Option<int>
    var filter: Option<string>
    var sort: Option<string>

    constructor (take: Option<int>, skip: Option<int>, filter: Option<string>, sort: Option<string>)
      ensures this.take == take && this.skip == skip && this.filter == filter && this.sort == sort
    {
      this.take, this.skip, this.filter, this.sort := take, skip, filter, sort;
    }
  }

  /** One page of requests: falsy options are replaced by their defaults in the
      caller's object, and the defaulted options are sent. */
  method GetPaginatedRequests(params: PaginationOptions, server: Server) returns (data: Option<Response>)
    modifies params
    ensures params.take == Some(NumberOr(old(params.take), PaginationMaxSize))
    ensures params.skip == Some(NumberOr(old(params.skip), 0))
    ensures params.filter == Some(StringOr(old(params.filter), "available"))
    ensures params.sort == Some(StringOr(old(params.sort), "added"))
    ensures data == server(Defaulted(old(params.take), old(params.skip), old(params.filter), old(params.sort)))
  {
    params.take := Some(NumberOr(params.take, PaginationMaxSize));
    params.skip := Some(NumberOr(params.skip, 0));
    params.filter := Some(StringOr(params.filter, "available"));
    params.sort := Some(StringOr(params.sort, "added"));
    data := server(Query(params.take.value, params.skip.value, params.filter.value, params.sort.value));
  }

  /** The filter `getAllRequests` works with: its parameter defaults to "available"
      only when it is omitted. */
  function FilterArg(filter: Option<string>): string {
    if filter.Some? then filter.value else "available"
  }

  /** The page-info block of a response, all fields missing when the response
      or its block is. */
  function InfoOf(data: Option<Response>): PageInfo {
    if data.Some? && data.value.pageInfo.Some? then data.value.pageInfo.value
    else PageInfo(None, None, None, None)
  }

  /** What the drain reads once from the first response. */
  datatype Header = Header(pageCount: int, pageSize: int, totalCount: int)

  function HeaderOf(data: Option<Response>): Header {
    var info := InfoOf(data);
    Header(NumberOr(info.pages, 0), NumberOr(info.pageSize, 0), NumberOr(info.results, 0))
  }

  /** The page number a response reports; 0 when it reports none. */
  function ReportedPage(data: Option<Response>): int {
    NumberOr(InfoOf(data).page, 0)
  }

  /** The records of a response; none for a failed call or missing results. */
  function ResultsOf(data: Option<Response>): seq<MediaRequest> {
    if data.Some? && data.value.results.Some? then data.value.results.value else []
  }

  /** The first query of the drain. */
  function FirstQuery(filter: Option<string>): Query {
    Defaulted(Some(PaginationMaxSize), Some(0), Some(FilterArg(filter)), None)
  }

  /** The query for a later page: `skip = currentPage * pageSize`, `take = pageSize`. */
  function PageQuery(filter: Option<string>, currentPage: int, pageSize: int): Query {
    Defaulted(Some(pageSize), Some(currentPage * pageSize), Some(FilterArg(filter)), None)
  }

  /** Every record of every response to `sent`, in fetch order. */
  function AllResults(server: Server, sent: seq<Query>): seq<MediaRequest>
    decreases |sent|
  {
    if sent == [] then []
    else AllResults(server, sent[..|sent| - 1]) + ResultsOf(server(sent[|sent| - 1]))
  }

  lemma AllResultsSnoc(server: Server, sent: seq<Query>, q: Query)
    ensures AllResults(server, sent + [q]) == AllResults(server, sent) + ResultsOf(server(q))
  {
    assert (sent + [q])[..|sent|] == sent;
  }

  /** What the drain has collected after issuing `sent`. */
  function Collected(server: Server, sent: seq<Query>): seq<MediaRequest> {
    UniqById(AllResults(server, sent))
  }

  /** The first page alone: its records, deduplicated. */
  lemma CollectedFirst(server: Server, q: Query)
    ensures Collected(server, [q]) == UnionById([], ResultsOf(server(q))) == UniqById(ResultsOf(server(q)))
  {
    AllResultsSnoc(server, [], q);
    assert [] + [q] == [q];
    assert [] + ResultsOf(server(q)) == ResultsOf(server(q));
  }

  /** Merging one more page into what was collected is collecting one more query. */
  lemma CollectedSnoc(server: Server, sent: seq<Query>, q: Query)
    ensures Collected(server, sent + [q]) == UnionById(Collected(server, sent), ResultsOf(server(q)))
  {
    AllResultsSnoc(server, sent, q);
    UnionAbsorbs(AllResults(server, sent), ResultsOf(server(q)));
  }

  /** What was collected holds no two records with the same id, and only
      records some response returned. */
  lemma CollectedIsUnique(server: Server, sent: seq<Query>)
    ensures NoDupIds(Collected(server, sent))
    ensures forall r :: r in Collected(server, sent) ==> r in AllResults(server, sent)
  {
    UniqHasNoDupIds(AllResults(server, sent));
    UniqIsFromInput(AllResults(server, sent));
  }

  /** True when the drain stops right after the queries `sent`: after the first
      page it continues only while fewer requests than `totalCount` were
      collected; after a later page it stops once exactly `totalCount` were;
      and it never asks again once the reported page reaches `pageCount`. */
  ghost predicate Stops(server: Server, h: Header, sent: seq<Query>)
    requires sent != []
  {
    var count := |Collected(server, sent)|;
    var page := ReportedPage(server(sent[|sent| - 1]));
    if |sent| == 1 then !(count < h.totalCount) || !(page < h.pageCount)
    else count == h.totalCount || !(page < h.pageCount)
  }

  /** The header read from the first response. */
  function FirstHeader(server: Server, filter: Option<string>): Header {
    HeaderOf(server(FirstQuery(filter)))
  }

  /** `sent` is how the drain starts: the first query, then each later query
      asks, with the page size of the first response, for the page the
      previous response reported, and the drain does not stop before the
      last query of `sent`. */
  ghost predicate IsDrainPrefix(server: Server, filter: Option<string>, sent: seq<Query>)
    decreases |sent|
  {
    if |sent| == 0 then false
    else if |sent| == 1 then sent[0] == FirstQuery(filter)
    else
      var init := sent[..|sent| - 1];
      && IsDrainPrefix(server, filter, init)
      && !Stops(server, FirstHeader(server, filter), init)
      && sent[|sent| - 1] == PageQuery(filter, ReportedPage(server(init[|init| - 1])), FirstHeader(server, filter).pageSize)
  }

  /** Every non-empty prefix of a drain prefix is one; the drain does not
      stop at a proper prefix; and each later query asks for the page the
      query before it got reported. */
  lemma {:induction false} DrainPrefixOfPrefix(server: Server, filter: Option<string>, sent: seq<Query>, m: nat)
    requires IsDrainPrefix(server, filter, sent) && 1 <= m <= |sent|
    ensures IsDrainPrefix(server, filter, sent[..m])
    ensures m < |sent| ==> !Stops(server, FirstHeader(server, filter), sent[..m])
    ensures m < |sent| ==>
              sent[m] == PageQuery(filter, ReportedPage(server(sent[m - 1])), FirstHeader(server, filter).pageSize)
    decreases |sent|
  {
    if m == |sent| {
      assert sent[..m] == sent;
    } else {
      var init := sent[..|sent| - 1];
      if m == |sent| - 1 {
        assert sent[..m] == init && sent[m - 1] == init[|init| - 1];
      } else {
        DrainPrefixOfPrefix(server, filter, init, m);
        assert init[..m] == sent[..m] && init[m] == sent[m] && init[m - 1] == sent[m - 1];
      }
    }
  }

  /** A drain prefix starts with the first query. */
  lemma {:induction false} DrainPrefixStarts(server: Server, filter: Option<string>, sent: seq<Query>)
    requires IsDrainPrefix(server, filter, sent)
    ensures sent[0] == FirstQuery(filter)
    decreases |sent|
  {
    if |sent| > 1 {
      DrainPrefixStarts(server, filter, sent[..|sent| - 1]);
    }
  }

  /** `sent` is the exact sequence of queries the drain issues: it starts as
      above and stops right after its last query. */
  ghost predicate IsDrain(server: Server, filter: Option<string>, sent: seq<Query>) {
    IsDrainPrefix(server, filter, sent) && Stops(server, FirstHeader(server, filter), sent)
  }

  /** The server reports, for every page the drain may ask for, a page number
      strictly greater than the one asked for. Without this the loop of the
      drain need not end. */
  ghost predicate Advances(server: Server, filter: Option<string>) {
    var h := FirstHeader(server, filter);
    forall p :: p < h.pageCount ==> ReportedPage(server(PageQuery(filter, p, h.pageSize))) > p
  }

  /** The number of later pages the drain may fetch at most. */
  function LaterFetchBound(server: Server, filter: Option<string>): nat {
    var h := FirstHeader(server, filter);
    var page := ReportedPage(server(FirstQuery(filter)));
    if page < h.pageCount then h.pageCount - page else 0
  }

  /** A server whose reported page always advances has a complete run of the
      drain: every prefix at which the drain does not stop extends to one. */
  lemma {:induction false} AdvancingServerDrains(server: Server, filter: Option<string>, sent: seq<Query>)
    requires Advances(server, filter) && IsDrainPrefix(server, filter, sent)
    ensures exists full :: IsDrain(server, filter, full)
    decreases FirstHeader(server, filter).pageCount - ReportedPage(server(sent[|sent| - 1]))
  {
    var h := FirstHeader(server, filter);
    if !Stops(server, h, sent) {
      var page := ReportedPage(server(sent[|sent| - 1]));
      var q := PageQuery(filter, page, h.pageSize);
      DrainPrefixStep(server, filter, sent, q);
      assert ReportedPage(server(q)) > page;
      AdvancingServerDrains(server, filter, sent + [q]);
    } else {
      assert IsDrain(server, filter, sent);
    }
  }

  /** No run of the drain is longer than a complete one, and a run as long
      as a complete one has stopped: so a run that has not stopped is shorter. */
  lemma DrainPrefixWithin(server: Server, filter: Option<string>, full: seq<Query>, sent: seq<Query>)
    requires IsDrain(server, filter, full) && IsDrainPrefix(server, filter, sent)
    ensures |sent| <= |full|
    ensures |sent| == |full| ==> Stops(server, FirstHeader(server, filter), sent)
  {
    var n := if |sent| <= |full| then |sent| else |full|;
    DrainPrefixesAgree(server, filter, full, sent, n);
    if |sent| > |full| {
      DrainPrefixOfPrefix(server, filter, sent, |full|);
      assert false;
    } else if |sent| == |full| {
      assert sent == full by {
        assert full[..n] == full && sent[..n] == sent;
      }
    }
  }

  /** One more step of the drain: after a prefix at which the drain does not
      stop, asking for the page the last response reported extends the prefix. */
  lemma DrainPrefixStep(server: Server, filter: Option<string>, sent: seq<Query>, q: Query)
    requires IsDrainPrefix(server, filter, sent)
    requires !Stops(server, FirstHeader(server, filter), sent)
    requires q == PageQuery(filter, ReportedPage(server(sent[|sent| - 1])), FirstHeader(server, filter).pageSize)
    ensures IsDrainPrefix(server, filter, sent + [q])
  {
    assert (sent + [q])[..|sent|] == sent;
  }

  /** On an advancing server every page a run of the drain gets reported is
      at least one further than the one before it. */
  lemma {:induction false} DrainPagesAdvance(server: Server, filter: Option<string>, sent: seq<Query>)
    requires Advances(server, filter) && IsDrainPrefix(server, filter, sent)
    ensures |sent| - 1 <= ReportedPage(server(sent[|sent| - 1])) - ReportedPage(server(FirstQuery(filter)))
    decreases |sent|
  {
    if |sent| > 1 {
      var init := sent[..|sent| - 1];
      DrainPagesAdvance(server, filter, init);
      var h := FirstHeader(server, filter);
      assert ReportedPage(server(PageQuery(filter, ReportedPage(server(init[|init| - 1])), h.pageSize)))
             > ReportedPage(server(init[|init| - 1]));
    }
  }

  /** On an advancing server a run of the drain fetches at most
      `LaterFetchBound` pages after the first. */
  lemma DrainLengthBound(server: Server, filter: Option<string>, sent: seq<Query>)
    requires Advances(server, filter) && IsDrainPrefix(server, filter, sent)
    ensures |sent| <= 1 + LaterFetchBound(server, filter)
  {
    if |sent| > 1 {
      DrainPagesAdvance(server, filter, sent[..|sent| - 1]);
      DrainPrefixStarts(server, filter, sent);
    }
  }

  /** All requests matching `filter`, fetched page by page and merged by id.
      `sent` are the queries issued, in order. */
  method GetAllRequests(server: Server, filter: Option<string>) returns (requests: seq<MediaRequest>, ghost sent: seq<Query>)
    requires exists full :: IsDrain(server, filter, full)
    ensures IsDrain(server, filter, sent)
    ensures requests == Collected(server, sent)
    ensures NoDupIds(requests)
    ensures forall r :: r in requests ==> r in AllResults(server, sent)
    ensures Advances(server, filter) ==> |sent| <= 1 + LaterFetchBound(server, filter)
    ensures server(FirstQuery(filter)).None? ==> requests == [] && |sent| == 1
    ensures |UniqById(ResultsOf(server(FirstQuery(filter))))| >= FirstHeader(server, filter).totalCount ==> |sent| == 1
  {
    var params := new PaginationOptions(Some(PaginationMaxSize), Some(0), Some(FilterArg(filter)), None);
    var data := GetPaginatedRequests(params, server);
    sent := [FirstQuery(filter)];
    ghost var h := FirstHeader(server, filter);
    var pageCount := NumberOr(InfoOf(data).pages, 0);
    var pageSize := NumberOr(InfoOf(data).pageSize, 0);
    var totalCount := NumberOr(InfoOf(data).results, 0);
    var currentPage := NumberOr(InfoOf(data).page, 0);
    requests := UnionById([], ResultsOf(data));
    CollectedFirst(server, sent[0]);
    // The complete run that exists: the loop walks along it.
    ghost var full :| IsDrain(server, filter, full);
    DrainPrefixWithin(server, filter, full, sent);
    if |requests| < totalCount {
      while currentPage < pageCount
        invariant h == Header(pageCount, pageSize, totalCount)
        invariant IsDrainPrefix(server, filter, sent)
        invariant |sent| <= |full|
        invariant currentPage == ReportedPage(server(sent[|sent| - 1]))
        invariant requests == Collected(server, sent)
        invariant |sent| == 1 ==> |requests| < totalCount
        invariant |sent| > 1 ==> |requests| != totalCount
        decreases |full| - |sent|
      {
        assert !Stops(server, h, sent);
        ghost var q := PageQuery(filter, currentPage, pageSize);
        params := new PaginationOptions(Some(pageSize), Some(currentPage * pageSize), Some(FilterArg(filter)), None);
        data := GetPaginatedRequests(params, server);
        assert data == server(q);
        ghost var before := sent;
        DrainPrefixStep(server, filter, before, q);
        sent := before + [q];
        DrainPrefixWithin(server, filter, full, sent);
        currentPage := NumberOr(InfoOf(data).page, 0);
        CollectedSnoc(server, before, q);
        requests := UnionById(requests, ResultsOf(data));
        if |requests| == totalCount {
          break;
        }
      }
    }
    CollectedIsUnique(server, sent);
    if Advances(server, filter) {
      DrainLengthBound(server, filter, sent);
    }
  }

  /** The drain's queries are determined by the server and the filter: two
      runs against the same server issue the same queries. */
  lemma DrainIsDeterministic(server: Server, filter: Option<string>, s1: seq<Query>, s2: seq<Query>)
    requires IsDrain(server, filter, s1) && IsDrain(server, filter, s2)
    ensures s1 == s2
  {
    var n := if |s1| <= |s2| then |s1| else |s2|;
    DrainPrefixesAgree(server, filter, s1, s2, n);
    // Both runs stop exactly at their end, and they agree on their common prefix.
    StopsExactlyAtEnd(server, filter, s1, n);
    StopsExactlyAtEnd(server, filter, s2, n);
    assert |s1| == |s2|;
    assert s1 == s1[..n] && s2 == s2[..n];
  }

  lemma StopsExactlyAtEnd(server: Server, filter: Option<string>, sent: seq<Query>, m: nat)
    requires IsDrain(server, filter, sent) && 1 <= m <= |sent|
    ensures Stops(server, FirstHeader(server, filter), sent[..m]) <==> m == |sent|
  {
    DrainPrefixOfPrefix(server, filter, sent, m);
    assert m == |sent| ==> sent[..m] == sent;
  }

  lemma {:induction false} DrainPrefixesAgree(server: Server, filter: Option<string>, s1: seq<Query>, s2: seq<Query>, n: nat)
    requires IsDrainPrefix(server, filter, s1) && IsDrainPrefix(server, filter, s2)
    requires n <= |s1| && n <= |s2|
    ensures s1[..n] == s2[..n]
  {
    forall i | 0 <= i < n
      ensures s1[i] == s2[i]
    {
      DrainPrefixesAgreeAt(server, filter, s1, s2, i);
    }
  }

  /** Two drain prefixes ask the same query at every position both reach. */
  lemma {:induction false} DrainPrefixesAgreeAt(server: Server, filter: Option<string>, s1: seq<Query>, s2: seq<Query>, i: nat)
    requires IsDrainPrefix(server, filter, s1) && IsDrainPrefix(server, filter, s2)
    requires i < |s1| && i < |s2|
    ensures s1[i] == s2[i]
  {
    if i == 0 {
      DrainPrefixStarts(server, filter, s1);
      DrainPrefixStarts(server, filter, s2);
    } else {
      DrainPrefixesAgreeAt(server, filter, s1, s2, i - 1);
      DrainPrefixOfPrefix(server, filter, s1, i);
      DrainPrefixOfPrefix(server, filter, s2, i);
    }
  }

  /* ---- A later page that fails sends the drain back to page 0 ----

     When a later response has no page-info block (the call failed, so the
     client saw `null`), `currentPage` becomes 0 and the loop asks again from
     the start. A server that keeps failing on one page makes the loop run
     forever. */

  /** The one record of the example below. */
  const OnlyRequest := MediaRequest(1, "")

  /** Two pages of one record each; the call for the second page (skip 1) fails. */
  function SecondPageFails(): Server {
    (q: Query) => if q.skip == 0 then Some(Response(Some(PageInfo(Some(2), Some(1), Some(2), Some(1))), Some([OnlyRequest])))
         else None
  }

  lemma {:induction false} SecondPageFailsResults(sent: seq<Query>)
    ensures forall r :: r in AllResults(SecondPageFails(), sent) ==> r == OnlyRequest
    decreases |sent|
  {
    if sent != [] {
      SecondPageFailsResults(sent[..|sent| - 1]);
    }
  }

  /** Against that server the drain never stops, whatever it has fetched: it
      never collects the 2 requests announced and every reported page is
      below the page count 2. */
  lemma SecondPageFailsNeverStops(sent: seq<Query>)
    requires sent != []
    ensures !Stops(SecondPageFails(), FirstHeader(SecondPageFails(), None), sent)
    ensures !IsDrain(SecondPageFails(), None, sent)
  {
    var server := SecondPageFails();
    var all := AllResults(server, sent);
    SecondPageFailsResults(sent);
    UniqOfOneId(all, OnlyRequest.id);
    assert FirstHeader(server, None) == Header(2, 1, 2);
  }

  /** The drain as evidently intended: the same loop, which also stops, with
      `stalled` set, when a later response reports a page that does not move
      past the page it was asked for. It needs no assumption on the server. */
  method GetAllRequestsGuarded(server: Server, filter: Option<string>)
    returns (requests: seq<MediaRequest>, stalled: bool, ghost sent: seq<Query>)
    ensures IsDrainPrefix(server, filter, sent)
    ensures !stalled ==> Stops(server, FirstHeader(server, filter), sent)
    ensures stalled ==>
              && |sent| >= 2 && !Stops(server, FirstHeader(server, filter), sent)
              && ReportedPage(server(sent[|sent| - 1])) <= ReportedPage(server(sent[|sent| - 2]))
    ensures Advances(server, filter) ==> !stalled && IsDrain(server, filter, sent)
    ensures requests == Collected(server, sent)
    ensures NoDupIds(requests)
    ensures forall r :: r in requests ==> r in AllResults(server, sent)
    ensures |sent| <= 1 + LaterFetchBound(server, filter)
  {
    var params := new PaginationOptions(Some(PaginationMaxSize), Some(0), Some(FilterArg(filter)), None);
    var data := GetPaginatedRequests(params, server);
    sent := [FirstQuery(filter)];
    stalled := false;
    ghost var h := FirstHeader(server, filter);
    ghost var firstPage := ReportedPage(data);
    var pageCount := NumberOr(InfoOf(data).pages, 0);
    var pageSize := NumberOr(InfoOf(data).pageSize, 0);
    var totalCount := NumberOr(InfoOf(data).results, 0);
    var currentPage := NumberOr(InfoOf(data).page, 0);
    requests := UnionById([], ResultsOf(data));
    CollectedFirst(server, sent[0]);
    if |requests| < totalCount {
      while currentPage < pageCount
        invariant h == Header(pageCount, pageSize, totalCount)
        invariant IsDrainPrefix(server, filter, sent)
        invariant currentPage == ReportedPage(server(sent[|sent| - 1]))
        invariant requests == Collected(server, sent)
        invariant |sent| == 1 ==> |requests| < totalCount
        invariant |sent| > 1 ==> |requests| != totalCount
        invariant |sent| - 1 <= currentPage - firstPage
        invariant |sent| - 1 <= LaterFetchBound(server, filter)
        invariant !stalled
        decreases pageCount - currentPage
      {
        assert !Stops(server, h, sent);
        ghost var q := PageQuery(filter, currentPage, pageSize);
        params := new PaginationOptions(Some(pageSize), Some(currentPage * pageSize), Some(FilterArg(filter)), None);
        data := GetPaginatedRequests(params, server);
        assert data == server(q);
        ghost var before := sent;
        DrainPrefixStep(server, filter, before, q);
        sent := before + [q];
        var previousPage := currentPage;
        currentPage := NumberOr(InfoOf(data).page, 0);
        CollectedSnoc(server, before, q);
        requests := UnionById(requests, ResultsOf(data));
        if |requests| == totalCount {
          break;
        }
        if currentPage <= previousPage {
          assert sent[|sent| - 2] == before[|before| - 1];
          assert !Advances(server, filter) by {
            assert ReportedPage(server(PageQuery(filter, previousPage, h.pageSize))) <= previousPage < h.pageCount;
          }
          stalled := true;
          break;
        }
      }
    }
    CollectedIsUnique(server, sent);
  }
}
