/** The HTTP API's request handling: how the search handler turns query-string values
    into search parameters. The server, the router and JSON writing are not modelled; a
    query string is given by the values its Get returns for the parameters the handler
    reads. */
module ApiServer {
  import opened Wrappers
  import opened Text
  import opened Platform
  import Config
  import Elasticsearch

  /** r.URL.Query().Get(name) for each parameter handleSearch reads: the first value, or
      "" when the parameter is absent. */
  datatype Query = Query(q: string, keywords: string, source: string, from: string, size: string, sort: string, start: string, end: string)

  /** The largest offset a request may ask for. */
  const MaxFrom: int := 10_000

  /** clampInt: the fallback for an empty, non-integer or non-positive value, max for a
      value above max, the value itself otherwise. */
  function ClampInt(raw: string, fallback: int, max: int): (r: int)
    ensures raw == [] || Atoi(raw).None? || Atoi(raw).value <= 0 ==> r == fallback
    ensures Atoi(raw).Some? && 0 < Atoi(raw).value <= max ==> r == Atoi(raw).value
    ensures Atoi(raw).Some? && Atoi(raw).value > max && Atoi(raw).value > 0 ==> r == max
  {
    if raw == [] then fallback
    else
      match Atoi(raw)
      case None => fallback
      case Some(value) =>
        if value <= 0 then fallback
        else if value > max then max
        else value
  }

  /** What clampInt returns is the fallback, or a value in [1, max] when max is positive;
      so it never exceeds max when the fallback does not. */
  lemma {:induction false} ClampIntBounds(raw: string, fallback: int, max: int)
    ensures var r := ClampInt(raw, fallback, max);
      && (max >= 1 ==> r == fallback || 1 <= r <= max)
      && (fallback <= max ==> r <= max)
  {
  }

  /** A positive int64 written in decimal and within the cap comes back as itself. */
  lemma {:induction false} ClampIntReadsDecimal(n: int, fallback: int, max: int)
    requires 1 <= n <= max && n <= MaxInt64
    ensures ClampInt(DecimalString(n), fallback, max) == n
  {
    AtoiDecimalString(n);
    DecimalStringNonEmpty(n);
  }

  lemma {:induction false} DecimalStringNonEmpty(n: int)
    requires n >= 0
    ensures DecimalString(n) != []
  {
    DigitsValueOfDigits(n);
  }

  /** parseCSV: nothing for "", otherwise the ','-separated pieces trimmed, empty ones
      dropped, order kept (the same loop as splitAndTrim). */
  method ParseCsv(raw: string) returns (out: seq<string>)
    ensures raw == [] ==> out == []
    ensures out == KeepTrimmed(Split(raw, ','), GoSpace)
  {
    if raw == [] {
      var pieces: seq<string> := [[]];
      assert Split(raw, ',') == pieces;
      assert pieces[..0] == [];
      return [];
    }
    out := Config.TrimPieces(Split(raw, ','));
  }

  /** parseTime: None for a blank value or one that is not RFC 3339 after trimming. */
  function ParseTime(h: Host, raw: string): (r: Option<int>)
    ensures AllWs(raw, GoSpace) ==> r.None?
    ensures !AllWs(raw, GoSpace) ==> r == h.parseTime(Rfc3339, Trim(raw, GoSpace))
  {
    var t := Trim(raw, GoSpace);
    if t == [] then None else h.parseTime(Rfc3339, t)
  }

  /** Surrounding white space does not change what parseTime reads. */
  lemma {:induction false} ParseTimeIgnoresPadding(h: Host, raw: string)
    ensures ParseTime(h, Trim(raw, GoSpace)) == ParseTime(h, raw)
  {
    TrimIdempotent(raw, GoSpace);
  }

  /** The search parameters handleSearch derives from a query string, given the keyword
      list parseCSV read: q, source and sort trimmed, from capped at 10000 with fallback
      0, size capped at the configured maximum with the configured default, start and
      end read as RFC 3339. With a configuration LoadAPI accepts, the page size is in
      [1, MaxPage]; the offset is always in [0, 10000]. */
  function SearchParamsFrom(h: Host, cfg: Config.Api, q: Query, keywords: seq<string>): (p: Elasticsearch.SearchParams)
    ensures p.query == Trim(q.q, GoSpace) && p.source == Trim(q.source, GoSpace) && p.sort == Trim(q.sort, GoSpace)
    ensures p.keywords == keywords
    ensures p.from == ClampInt(q.from, 0, MaxFrom) && p.size == ClampInt(q.size, cfg.defaultPage, cfg.maxPage)
    ensures p.start == ParseTime(h, q.start) && p.end == ParseTime(h, q.end)
    ensures 0 <= p.from <= MaxFrom
    ensures 0 < cfg.defaultPage <= cfg.maxPage ==> 1 <= p.size <= cfg.maxPage
  {
    var from := ClampInt(q.from, 0, MaxFrom);
    var size := ClampInt(q.size, cfg.defaultPage, cfg.maxPage);
    ClampIntBounds(q.from, 0, MaxFrom);
    ClampIntBounds(q.size, cfg.defaultPage, cfg.maxPage);
    Elasticsearch.SearchParams(
      Trim(q.q, GoSpace), keywords, Trim(q.source, GoSpace), from, size,
      Trim(q.sort, GoSpace), ParseTime(h, q.start), ParseTime(h, q.end))
  }

  /** handleSearch, up to the search call: the keyword list is parseCSV of the keywords
      parameter, and the rest is derived as SearchParamsFrom says. */
  method HandleSearchParams(h: Host, cfg: Config.Api, q: Query) returns (p: Elasticsearch.SearchParams)
    ensures p == SearchParamsFrom(h, cfg, q, KeepTrimmed(Split(q.keywords, ','), GoSpace))
    ensures p.query == Trim(q.q, GoSpace) && p.source == Trim(q.source, GoSpace) && p.sort == Trim(q.sort, GoSpace)
    ensures p.keywords == KeepTrimmed(Split(q.keywords, ','), GoSpace) && (q.keywords == [] ==> p.keywords == [])
    ensures p.from == ClampInt(q.from, 0, MaxFrom) && p.size == ClampInt(q.size, cfg.defaultPage, cfg.maxPage)
    ensures p.start == ParseTime(h, q.start) && p.end == ParseTime(h, q.end)
    ensures 0 <= p.from <= MaxFrom
    ensures 0 < cfg.defaultPage <= cfg.maxPage ==> 1 <= p.size <= cfg.maxPage
  {
    var keywords := ParseCsv(q.keywords);
    p := SearchParamsFrom(h, cfg, q, keywords);
  }
}
