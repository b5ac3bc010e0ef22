/** The search-index client: the request body SearchNews sends, and the batch loop of
    DeleteOlderThan. The HTTP round-trips and JSON encoding are not modelled: the query
    is a datatype tree, and the delete-by-query responses are a given sequence. */
module Elasticsearch {
  import opened Wrappers
  import opened Text
  import opened Platform

  /** SearchParams; Start and End are points in time, None when not given. */
  datatype SearchParams = SearchParams(
    query: string,
    keywords: seq<string>,
    source: string,
    from: int,
    size: int,
    sort: string,
    start: Option<int>,
    end: Option<int>)

  /** One clause of the bool query. */
  datatype Clause =
    | MultiMatch(query: string, fields: seq<string>)
    | Terms(field: string, values: seq<string>)
    | Term(field: string, value: string)
    | Range(field: string, gte: Option<string>, lte: Option<string>)
    | MatchAll

  /** The bool query; a key that is not set is None. */
  datatype BoolQuery = BoolQuery(must: Option<seq<Clause>>, filter: Option<seq<Clause>>)

  datatype SortKey = SortKey(field: string, order: string)

  /** The search request body. */
  datatype SearchBody = SearchBody(from: int, size: int, trackTotalHits: bool, query: BoolQuery, sort: seq<SortKey>)

  const DefaultSize: int := 20
  const MaxSize: int := 200

  /** Page size: 20 when not positive, at most 200. */
  function NormalSize(size: int): (r: int)
    ensures 1 <= r <= MaxSize
    ensures 0 < size <= MaxSize ==> r == size
    ensures size <= 0 ==> r == DefaultSize
    ensures size > MaxSize ==> r == MaxSize
  {
    var s := if size <= 0 then DefaultSize else size;
    if s > MaxSize then MaxSize else s
  }

  /** Offset: negative becomes 0. */
  function NormalFrom(from: int): (r: int)
    ensures r >= 0 && (from >= 0 ==> r == from)
    ensures from < 0 ==> r == 0
  {
    if from < 0 then 0 else from
  }

  /** The must-clauses: one multi_match over title (boosted) and text when there is a
      query. */
  function MustClauses(p: SearchParams): seq<Clause> {
    if p.query != [] then [MultiMatch(p.query, ["title^2", "text"])] else []
  }

  /** The filter clauses, in the order keywords, source, time range. */
  function FilterClauses(h: Host, p: SearchParams): seq<Clause> {
    (if |p.keywords| > 0 then [Terms("keywords", p.keywords)] else []) +
    (if p.source != [] then [Term("source", p.source)] else []) +
    (if p.start.Some? || p.end.Some? then
       [Range("timestamp",
              if p.start.Some? then Some(h.formatRfc3339Utc(p.start.value)) else None,
              if p.end.Some? then Some(h.formatRfc3339Utc(p.end.value)) else None)]
     else [])
  }

  /** The bool query: must and filter set when non-empty, a lone match_all otherwise. */
  function BuildBool(must: seq<Clause>, filters: seq<Clause>): (q: BoolQuery)
    ensures q.must.Some? ==> q.must.value != []
    ensures q.filter.Some? ==> q.filter.value != []
    ensures must != [] ==> q.must == Some(must)
    ensures filters != [] ==> q.filter == Some(filters)
    ensures filters == [] ==> q.filter.None?
    ensures must == [] && filters != [] ==> q.must.None?
    ensures must == [] && filters == [] ==> q.must == Some([MatchAll])
  {
    if must == [] && filters == [] then BoolQuery(Some([MatchAll]), None)
    else BoolQuery(if must != [] then Some(must) else None, if filters != [] then Some(filters) else None)
  }

  /** The sort of a sort parameter: "field:order"; "" is "timestamp:desc", an empty field
      is "timestamp", a missing or empty order is "desc", and parts after the second are
      ignored. */
  function ParseSort(sort: string): (k: SortKey)
    ensures k.field != [] && k.order != []
  {
    var sortField := if sort == [] then "timestamp:desc" else sort;
    var parts := Split(sortField, ':');
    var field := if parts[0] == [] then "timestamp" else parts[0];
    var order := if |parts| > 1 && parts[1] != [] then parts[1] else "desc";
    SortKey(field, order)
  }

  /** SearchNews's request body. */
  function SearchBodyOf(h: Host, p: SearchParams): SearchBody {
    SearchBody(NormalFrom(p.from), NormalSize(p.size), true,
               BuildBool(MustClauses(p), FilterClauses(h, p)), [ParseSort(p.sort)])
  }

  /** SearchNews up to the search call: overwrite the paging fields, append the clauses
      criterion by criterion, then assemble the bool query and the sort. */
  method SearchNews(h: Host, params: SearchParams) returns (body: SearchBody)
    ensures body == SearchBodyOf(h, params)
    ensures 1 <= body.size <= MaxSize && body.from >= 0
  {
    var p := params;
    if p.size <= 0 {
      p := p.(size := DefaultSize);
    }
    if p.size > MaxSize {
      p := p.(size := MaxSize);
    }
    if p.from < 0 {
      p := p.(from := 0);
    }
    var must: seq<Clause> := [];
    if p.query != [] {
      must := must + [MultiMatch(p.query, ["title^2", "text"])];
    }
    var filters := AppendFilters(h, p);
    assert must == MustClauses(params) && filters == FilterClauses(h, params) by {
      assert p.query == params.query && p.keywords == params.keywords && p.source == params.source;
      assert p.start == params.start && p.end == params.end;
    }
    var boolQuery := BoolQuery(None, None);
    if |must| > 0 {
      boolQuery := boolQuery.(must := Some(must));
    }
    if |filters| > 0 {
      boolQuery := boolQuery.(filter := Some(filters));
    }
    if |must| == 0 && |filters| == 0 {
      boolQuery := boolQuery.(must := Some([MatchAll]));
    }
    body := SearchBody(p.from, p.size, true, boolQuery, [ParseSort(p.sort)]);
  }

  /** The filter appends of SearchNews: keywords, then source, then the time range. */
  method AppendFilters(h: Host, p: SearchParams) returns (filters: seq<Clause>)
    ensures filters == FilterClauses(h, p)
  {
    filters := [];
    if |p.keywords| > 0 {
      filters := filters + [Terms("keywords", p.keywords)];
    }
    var kw := filters;
    if p.source != [] {
      filters := filters + [Term("source", p.source)];
    }
    var kwSource := filters;
    if p.start.Some? || p.end.Some? {
      var gte: Option<string> := None;
      var lte: Option<string> := None;
      if p.start.Some? {
        gte := Some(h.formatRfc3339Utc(p.start.value));
      }
      if p.end.Some? {
        lte := Some(h.formatRfc3339Utc(p.end.value));
      }
      filters := filters + [Range("timestamp", gte, lte)];
    }
    assert filters == kwSource + (if p.start.Some? || p.end.Some? then
       [Range("timestamp",
              if p.start.Some? then Some(h.formatRfc3339Utc(p.start.value)) else None,
              if p.end.Some? then Some(h.formatRfc3339Utc(p.end.value)) else None)]
     else []);
  }

  /** Where a filter clause stands in the fixed order keywords, source, range. */
  function Rank(c: Clause): int {
    match c
    case Terms(_, _) => 0
    case Term(_, _) => 1
    case Range(_, _, _) => 2
    case _ => 3
  }

  /** The shape of the request: paging is normalised; there is a multi_match exactly when
      the query is non-empty; the filters come in the fixed order, one per given
      criterion, and the range has gte exactly when Start is set and lte exactly when End
      is set; a lone match_all exactly when there is no criterion at all. */
  lemma {:induction false} SearchBodyShape(h: Host, p: SearchParams)
    ensures var b := SearchBodyOf(h, p);
      && 1 <= b.size <= MaxSize && b.from >= 0 && b.trackTotalHits && |b.sort| == 1
      && (b.query.must.Some? && MultiMatch(p.query, ["title^2", "text"]) in b.query.must.value <==> p.query != [])
      && (b.query == BoolQuery(Some([MatchAll]), None) <==>
            p.query == [] && p.keywords == [] && p.source == [] && p.start.None? && p.end.None?)
      && (FilterClauses(h, p) != [] ==> b.query.filter == Some(FilterClauses(h, p)))
      && (FilterClauses(h, p) == [] ==> b.query.filter.None?)
  {
  }

  /** The filters follow the fixed order, one per criterion given. */
  lemma {:induction false} FilterOrder(h: Host, p: SearchParams)
    ensures var fs := FilterClauses(h, p);
      && |fs| == (if |p.keywords| > 0 then 1 else 0) + (if p.source != [] then 1 else 0)
                 + (if p.start.Some? || p.end.Some? then 1 else 0)
      && (forall i, j :: 0 <= i < j < |fs| ==> Rank(fs[i]) < Rank(fs[j]))
      && (forall i :: 0 <= i < |fs| && fs[i].Range? ==>
            (fs[i].gte.Some? <==> p.start.Some?) && (fs[i].lte.Some? <==> p.end.Some?))
  {
  }

  /** A sort parameter "field:order" with both parts non-empty and free of ':' is read as
      written. */
  lemma {:induction false} ParseSortFieldOrder(field: string, order: string)
    requires field != [] && order != [] && ':' !in field && ':' !in order
    ensures ParseSort(field + ":" + order) == SortKey(field, order)
  {
    SplitAtSeparator(field, order);
    SplitPrefix(order, [], ':');
    assert order + [] == order;
  }

  /** Whatever follows a second ':' is ignored. */
  lemma {:induction false} ParseSortIgnoresRest(field: string, order: string, rest: string)
    requires field != [] && order != [] && ':' !in field && ':' !in order
    ensures ParseSort(field + ":" + order + ":" + rest) == SortKey(field, order)
  {
    assert field + ":" + order + ":" + rest == field + ":" + (order + ":" + rest);
    SplitAtSeparator(field, order + ":" + rest);
    SplitAtSeparator(order, rest);
  }

  /** Splitting "a:b" on ':' gives a, then the pieces of b. */
  lemma {:induction false} SplitAtSeparator(a: string, b: string)
    requires ':' !in a
    ensures Split(a + ":" + b, ':') == [a] + Split(b, ':')
  {
    assert a + ":" + b == a + (":" + b);
    SplitPrefix(a, ":" + b, ':');
    assert (":" + b)[0] == ':' && (":" + b)[1..] == b;
    assert a + [] == a;
  }

  /** A sort parameter without a ':' names the field and sorts it descending. */
  lemma {:induction false} ParseSortFieldOnly(field: string)
    requires field != [] && ':' !in field
    ensures ParseSort(field) == SortKey(field, "desc")
  {
    SplitPrefix(field, [], ':');
    assert field + [] == field;
  }

  // ---------------------------------------------------------------------------------
  // DeleteOlderThan

  /** The response to one delete-by-query request: the number of deleted documents, or
      an error (transport failure, error status, undecodable body). */
  datatype BatchResult = Deleted(count: int) | Failed(reason: string)

  /** How the loop ended: a short batch, an error, or (only in this model) the given
      responses ran out while every batch was full. */
  datatype DeleteOutcome = Done | Error(reason: string) | Unfinished

  /** Batch size: 1000 when not positive. */
  function EffectiveBatch(batchSize: int): (r: int)
    ensures r >= 1 && (batchSize > 0 ==> r == batchSize)
    ensures batchSize <= 0 ==> r == 1000
  {
    if batchSize <= 0 then 1000 else batchSize
  }

  /** The sum of the deleted counts of a run of responses. */
  function SumDeleted(rs: seq<BatchResult>): int
    decreases |rs|
  {
    if rs == [] then 0
    else SumDeleted(rs[..|rs| - 1]) + (if rs[|rs| - 1].Deleted? then rs[|rs| - 1].count else 0)
  }

  /** All responses of a run are full batches. */
  predicate AllFull(rs: seq<BatchResult>, bs: int) {
    forall j :: 0 <= j < |rs| ==> rs[j].Deleted? && rs[j].count >= bs
  }

  /** DeleteOlderThan over the responses the server gives, in order; `rounds` is the
      number of requests made. The total is the sum of the counts of the batches before
      the stop; the loop stops after the first batch with fewer deletions than the batch
      size, or at the first error, returning the total so far with it. */
  method DeleteOlderThan(batchSize: int, responses: seq<BatchResult>)
    returns (total: int, out: DeleteOutcome, rounds: nat)
    ensures rounds <= |responses|
    ensures var bs := EffectiveBatch(batchSize);
      out == Done ==>
        1 <= rounds && AllFull(responses[..rounds - 1], bs) &&
        responses[rounds - 1].Deleted? && responses[rounds - 1].count < bs &&
        total == SumDeleted(responses[..rounds])
    ensures var bs := EffectiveBatch(batchSize);
      out.Error? ==>
        1 <= rounds && AllFull(responses[..rounds - 1], bs) &&
        responses[rounds - 1] == Failed(out.reason) &&
        total == SumDeleted(responses[..rounds - 1])
    ensures var bs := EffectiveBatch(batchSize);
      out == Unfinished ==>
        rounds == |responses| && AllFull(responses, bs) && total == SumDeleted(responses)
  {
    var bs := batchSize;
    if bs <= 0 {
      bs := 1000;
    }
    total := 0;
    rounds := 0;
    while rounds < |responses|
      invariant rounds <= |responses|
      invariant AllFull(responses[..rounds], bs)
      invariant total == SumDeleted(responses[..rounds])
    {
      var res := responses[rounds];
      assert responses[..rounds + 1][..rounds] == responses[..rounds];
      rounds := rounds + 1;
      if res.Failed? {
        assert responses[..rounds - 1] == responses[..rounds][..rounds - 1];
        return total, Error(res.reason), rounds;
      }
      total := total + res.count;
      if res.count < bs {
        return total, Done, rounds;
      }
    }
    assert responses[..rounds] == responses;
    return total, Unfinished, rounds;
  }

  /** Full batches delete at least the batch size each, so the total grows by at least
      that much per round that does not stop the loop. */
  lemma {:induction false} FullBatchesSum(rs: seq<BatchResult>, bs: int)
    requires bs >= 1 && AllFull(rs, bs)
    ensures SumDeleted(rs) >= bs * |rs|
    decreases |rs|
  {
    if rs != [] {
      FullBatchesSum(rs[..|rs| - 1], bs);
    }
  }
}
