/** Service configuration read from environment variables, with fallbacks and the
    validity checks of the worker, API and retention settings. The environment is a map
    from variable name to value; a variable that is not in the map is unset. */
module Config {
  import opened Wrappers
  import opened Text
  import opened Platform

  type Env = map<string, string>

  /** A variable counts as unset when it is missing or empty. */
  predicate Unset(env: Env, key: string) {
    key !in env || env[key] == []
  }

  /** getEnv: the value when the variable is set and non-empty, the fallback otherwise. */
  function GetEnv(env: Env, key: string, fallback: string): (r: string)
    ensures r == fallback || (key in env && r == env[key] && r != [])
    ensures key in env && env[key] != [] ==> r == env[key]
    ensures key !in env || env[key] == [] ==> r == fallback
  {
    if key in env && env[key] != [] then env[key] else fallback
  }

  /** getInt: the value read by strconv.Atoi when set, non-empty and an integer, the
      fallback otherwise. */
  function GetInt(env: Env, key: string, fallback: int): (r: int)
    ensures key in env && Atoi(env[key]).Some? ==> r == Atoi(env[key]).value
    ensures key !in env || Atoi(env[key]).None? ==> r == fallback
  {
    if key in env && env[key] != [] then
      match Atoi(env[key])
      case Some(v) => v
      case None => fallback
    else fallback
  }

  /** Setting a variable to the decimal form of an int64 makes getInt read that number. */
  lemma {:induction false} GetIntReadsDecimal(env: Env, key: string, n: int, fallback: int)
    requires MinInt64 <= n <= MaxInt64
    ensures GetInt(env[key := DecimalString(n)], key, fallback) == n
  {
    AtoiDecimalString(n);
  }

  /** getDuration: the value of the variable (or of the fallback when unset or empty) read
      by time.ParseDuration, and the fallback's value when that fails. Go panics when the
      fallback does not parse either, so the fallback has to be a valid duration. */
  function GetDuration(h: Host, env: Env, key: string, fallback: string): (d: int)
    requires ParseDuration(h, fallback).Some?
    ensures key in env && env[key] != [] && ParseDuration(h, env[key]).Some? ==> d == ParseDuration(h, env[key]).value
    ensures !(key in env && env[key] != [] && ParseDuration(h, env[key]).Some?) ==> d == ParseDuration(h, fallback).value
  {
    var raw := GetEnv(env, key, fallback);
    match ParseDuration(h, raw)
    case Some(d) => d
    case None => ParseDuration(h, fallback).value
  }

  /** A duration variable that is unset, empty or malformed gives the fallback's value. */
  lemma {:induction false} GetDurationFallback(h: Host, env: Env, key: string, fallback: string)
    requires ParseDuration(h, fallback).Some?
    requires key !in env || env[key] == [] || ParseDuration(h, env[key]).None?
    ensures GetDuration(h, env, key, fallback) == ParseDuration(h, fallback).value
  {
  }

  /** splitAndTrim: split on ',', trim each piece, keep the non-empty ones in order. */
  method SplitAndTrim(raw: string) returns (out: seq<string>)
    ensures out == KeepTrimmed(Split(raw, ','), GoSpace)
  {
    out := TrimPieces(Split(raw, ','));
  }

  /** The loop of splitAndTrim over the pieces of the split. */
  method TrimPieces(parts: seq<string>) returns (out: seq<string>)
    ensures out == KeepTrimmed(parts, GoSpace)
  {
    out := [];
    for i := 0 to |parts|
      invariant out == KeepTrimmed(parts[..i], GoSpace)
    {
      var trimmed := Trim(parts[i], GoSpace);
      KeepTrimmedStep(parts, i, GoSpace);
      if trimmed != [] {
        out := out + [trimmed];
      }
    }
    assert parts[..|parts|] == parts;
  }

  lemma {:induction false} KeepTrimmedStep(parts: seq<string>, i: nat, ws: Whitespace)
    requires i < |parts|
    ensures KeepTrimmed(parts[..i + 1], ws) ==
      KeepTrimmed(parts[..i], ws) + (if Trim(parts[i], ws) != [] then [Trim(parts[i], ws)] else [])
  {
    var pre := parts[..i + 1];
    assert pre[..i] == parts[..i] && pre[i] == parts[i];
    assert |pre| - 1 == i;
  }

  /** Every entry splitAndTrim keeps is non-empty, has no white space at its ends and
      contains no ','; there are no more entries than pieces. */
  lemma {:induction false} SplitAndTrimShape(raw: string)
    ensures var out := KeepTrimmed(Split(raw, ','), GoSpace);
      && |out| <= |Split(raw, ',')|
      && forall i :: 0 <= i < |out| ==> IsTrimmed(out[i], GoSpace) && ',' !in out[i]
  {
    KeepTrimmedShape(Split(raw, ','), GoSpace);
    SplitNoSep(raw, ',');
    KeepTrimmedNoSep(Split(raw, ','), GoSpace);
  }

  /** A kept piece has no separator when no piece has one. */
  lemma {:induction false} KeepTrimmedNoSep(parts: seq<string>, ws: Whitespace)
    requires forall i :: 0 <= i < |parts| ==> ',' !in parts[i]
    ensures forall i :: 0 <= i < |KeepTrimmed(parts, ws)| ==> ',' !in KeepTrimmed(parts, ws)[i]
    decreases |parts|
  {
    if parts != [] {
      var init := parts[..|parts| - 1];
      KeepTrimmedNoSep(init, ws);
      TrimSub(parts[|parts| - 1], ws);
    }
  }

  /** The characters of a trim are characters of its input. */
  lemma {:induction false} TrimSub(s: string, ws: Whitespace)
    ensures forall c :: c in Trim(s, ws) ==> c in s
  {
    var r := Trim(s, ws);
    forall c | c in r ensures c in s {
      var i :| 0 <= i < |r| && r[i] == c;
      TrimIndex(s, ws, i);
    }
  }

  /** Broker lists read back: a list of non-empty names without ',' and without white
      space at their ends, written joined by ',', comes back unchanged. */
  lemma {:induction false} BrokersRoundTrip(names: seq<string>)
    requires forall i :: 0 <= i < |names| ==> IsTrimmed(names[i], GoSpace) && ',' !in names[i]
    ensures KeepTrimmed(Split(Join(names, ","), ','), GoSpace) == names
  {
    KeepTrimmedJoin(names, GoSpace);
  }

  /** The broker list used when KAFKA_BROKERS is unset or empty. */
  const DefaultBroker: string := "kafka:9092"

  /** Config.Worker. Durations are in nanoseconds. */
  datatype Worker = Worker(
    elasticsearchAddr: string,
    elasticsearchIndex: string,
    kafkaBrokers: seq<string>,
    kafkaTopic: string,
    kafkaConsumer: string,
    keywordLimit: int,
    keywordMinLength: int,
    dedupeCapacity: int,
    dedupeTtl: int,
    batchSize: int,
    commitInterval: int)

  /** Why a configuration was refused, in the order the checks are made. */
  datatype ConfigError =
    | NoBrokers | BadBatchSize | BadDedupeCapacity | BadKeywordLimit | NegativeKeywordMinLength
    | BadPageSize | BadMaxPageSize | PageSizeAboveMax
    | BadMaxAge | BadInterval | BadRetentionBatchSize

  /** The worker settings before validation, with the broker list already split. */
  function WorkerFrom(h: Host, env: Env, brokers: seq<string>): (c: Worker)
    ensures c.kafkaBrokers == brokers
    ensures Unset(env, "ELASTICSEARCH_ADDR") ==> c.elasticsearchAddr == "http://elasticsearch:9200"
    ensures Unset(env, "ELASTICSEARCH_INDEX") ==> c.elasticsearchIndex == "news"
    ensures Unset(env, "KAFKA_TOPIC") ==> c.kafkaTopic == "news_raw"
    ensures Unset(env, "KAFKA_CONSUMER_GROUP") ==> c.kafkaConsumer == "news-worker"
    ensures Unset(env, "WORKER_KEYWORD_LIMIT") ==> c.keywordLimit == 8
    ensures Unset(env, "WORKER_KEYWORD_MIN_LEN") ==> c.keywordMinLength == 4
    ensures Unset(env, "WORKER_DEDUPE_CAPACITY") ==> c.dedupeCapacity == 20000
    ensures Unset(env, "WORKER_DEDUPE_TTL") ==> c.dedupeTtl == 24 * 3_600_000_000_000
    ensures Unset(env, "WORKER_BATCH_SIZE") ==> c.batchSize == 10
    ensures Unset(env, "WORKER_COMMIT_INTERVAL") ==> c.commitInterval == 2 * 1_000_000_000
  {
    DefaultDurations(h);
    Worker(
      GetEnv(env, "ELASTICSEARCH_ADDR", "http://elasticsearch:9200"),
      GetEnv(env, "ELASTICSEARCH_INDEX", "news"),
      brokers,
      GetEnv(env, "KAFKA_TOPIC", "news_raw"),
      GetEnv(env, "KAFKA_CONSUMER_GROUP", "news-worker"),
      GetInt(env, "WORKER_KEYWORD_LIMIT", 8),
      GetInt(env, "WORKER_KEYWORD_MIN_LEN", 4),
      GetInt(env, "WORKER_DEDUPE_CAPACITY", 20000),
      GetDuration(h, env, "WORKER_DEDUPE_TTL", "24h"),
      GetInt(env, "WORKER_BATCH_SIZE", 10),
      GetDuration(h, env, "WORKER_COMMIT_INTERVAL", "2s"))
  }

  /** The first failing worker check, if any. */
  function WorkerCheck(c: Worker): (e: Option<ConfigError>)
    ensures e.None? <==>
      |c.kafkaBrokers| > 0 && c.batchSize > 0 && c.dedupeCapacity > 0 && c.keywordLimit > 0 && c.keywordMinLength >= 0
  {
    if |c.kafkaBrokers| == 0 then Some(NoBrokers)
    else if c.batchSize <= 0 then Some(BadBatchSize)
    else if c.dedupeCapacity <= 0 then Some(BadDedupeCapacity)
    else if c.keywordLimit <= 0 then Some(BadKeywordLimit)
    else if c.keywordMinLength < 0 then Some(NegativeKeywordMinLength)
    else None
  }

  /** LoadWorker: fails exactly when there is no broker, the batch size, dedupe capacity
      or keyword limit is not positive, or the keyword minimum length is negative. */
  method LoadWorker(h: Host, env: Env) returns (r: Result<Worker, ConfigError>)
    ensures var c := WorkerFrom(h, env, KeepTrimmed(Split(GetEnv(env, "KAFKA_BROKERS", DefaultBroker), ','), GoSpace));
      && (r.Ok? <==> WorkerCheck(c).None?)
      && (r.Ok? ==> r.value == c)
      && (r.Err? ==> Some(r.error) == WorkerCheck(c))
  {
    var brokers := SplitAndTrim(GetEnv(env, "KAFKA_BROKERS", DefaultBroker));
    var c := WorkerFrom(h, env, brokers);
    var e := WorkerCheck(c);
    if e.Some? {
      return Err(e.value);
    }
    return Ok(c);
  }

  /** The default broker list is the one broker "kafka:9092". */
  lemma {:induction false} DefaultBrokers()
    ensures KeepTrimmed(Split(DefaultBroker, ','), GoSpace) == [DefaultBroker]
  {
    var b := DefaultBroker;
    assert IsTrimmed(b, GoSpace) by {
      assert b[0] == 'k' && b[|b| - 1] == '2';
    }
    assert ',' !in b;
    KeepTrimmedJoin([b], GoSpace);
    assert Join([b], ",") == b;
  }

  /** With none of the variables set (or all set to ""), the worker gets its defaults, and
      they pass validation. */
  lemma {:induction false} WorkerDefaults(h: Host, env: Env)
    requires forall k :: k in env ==> env[k] == []
    ensures WorkerFrom(h, env, KeepTrimmed(Split(GetEnv(env, "KAFKA_BROKERS", DefaultBroker), ','), GoSpace)) ==
      Worker("http://elasticsearch:9200", "news", ["kafka:9092"], "news_raw", "news-worker",
             8, 4, 20000, 24 * 3_600_000_000_000, 10, 2 * 1_000_000_000)
    ensures WorkerCheck(WorkerFrom(h, env, [DefaultBroker])).None?
  {
    assert GetEnv(env, "KAFKA_BROKERS", DefaultBroker) == DefaultBroker;
    DefaultBrokers();
    WorkerFromUnset(h, env, [DefaultBroker]);
  }

  /** With nothing set, every field but the broker list takes its default. */
  lemma {:induction false} WorkerFromUnset(h: Host, env: Env, brokers: seq<string>)
    requires forall k :: k in env ==> env[k] == []
    ensures WorkerFrom(h, env, brokers) ==
      Worker("http://elasticsearch:9200", "news", brokers, "news_raw", "news-worker",
             8, 4, 20000, 24 * 3_600_000_000_000, 10, 2 * 1_000_000_000)
  {
    var c := WorkerFrom(h, env, brokers);
    DefaultDurations(h);
    assert c.dedupeTtl == 24 * 3_600_000_000_000 by {
      GetDurationFallback(h, env, "WORKER_DEDUPE_TTL", "24h");
    }
    assert c.commitInterval == 2 * 1_000_000_000 by {
      GetDurationFallback(h, env, "WORKER_COMMIT_INTERVAL", "2s");
    }
  }

  /** Config.API. */
  datatype Api = Api(elasticsearchAddr: string, elasticsearchIndex: string, bindAddr: string, defaultPage: int, maxPage: int)

  /** The API settings before validation. */
  function ApiFrom(env: Env): Api {
    Api(
      GetEnv(env, "ELASTICSEARCH_ADDR", "http://elasticsearch:9200"),
      GetEnv(env, "ELASTICSEARCH_INDEX", "news"),
      GetEnv(env, "API_BIND_ADDR", "0.0.0.0:8080"),
      GetInt(env, "API_PAGE_SIZE", 20),
      GetInt(env, "API_MAX_PAGE_SIZE", 100))
  }

  /** LoadAPI: fails when the default page size or the maximum is not positive or the
      default exceeds the maximum, with the first of those checks that fails; a loaded
      configuration is the settings read, with 0 < default <= maximum. */
  function LoadApi(env: Env): (r: Result<Api, ConfigError>)
    ensures r.Ok? ==> r.value == ApiFrom(env)
    ensures r.Ok? ==> 0 < r.value.defaultPage <= r.value.maxPage
    ensures GetInt(env, "API_PAGE_SIZE", 20) <= 0 ==> r == Err(BadPageSize)
    ensures r.Ok? <==>
      0 < GetInt(env, "API_PAGE_SIZE", 20) && 0 < GetInt(env, "API_MAX_PAGE_SIZE", 100) &&
      GetInt(env, "API_PAGE_SIZE", 20) <= GetInt(env, "API_MAX_PAGE_SIZE", 100)
  {
    var c := ApiFrom(env);
    if c.defaultPage <= 0 then Err(BadPageSize)
    else if c.maxPage <= 0 then Err(BadMaxPageSize)
    else if c.defaultPage > c.maxPage then Err(PageSizeAboveMax)
    else Ok(c)
  }

  /** With nothing set the API configuration loads with pages of 20, at most 100. */
  lemma {:induction false} ApiDefaults(env: Env)
    requires forall k :: k in env ==> env[k] == []
    ensures LoadApi(env) == Ok(Api("http://elasticsearch:9200", "news", "0.0.0.0:8080", 20, 100))
  {
  }

  /** Config.Retention. Durations are in nanoseconds. */
  datatype Retention = Retention(elasticsearchAddr: string, elasticsearchIndex: string, interval: int, maxAge: int, batchSize: int)

  /** The retention settings before validation. */
  function RetentionFrom(h: Host, env: Env): (c: Retention)
    ensures Unset(env, "ELASTICSEARCH_ADDR") ==> c.elasticsearchAddr == "http://elasticsearch:9200"
    ensures Unset(env, "ELASTICSEARCH_INDEX") ==> c.elasticsearchIndex == "news"
    ensures Unset(env, "RETENTION_CRON") ==> c.interval == 24 * 3_600_000_000_000
    ensures Unset(env, "RETENTION_MAX_AGE") ==> c.maxAge == 168 * 3_600_000_000_000
    ensures Unset(env, "RETENTION_BATCH_SIZE") ==> c.batchSize == 500
  {
    DefaultDurations(h);
    Retention(
      GetEnv(env, "ELASTICSEARCH_ADDR", "http://elasticsearch:9200"),
      GetEnv(env, "ELASTICSEARCH_INDEX", "news"),
      GetDuration(h, env, "RETENTION_CRON", "24h"),
      GetDuration(h, env, "RETENTION_MAX_AGE", "168h"),
      GetInt(env, "RETENTION_BATCH_SIZE", 500))
  }

  /** LoadRetention: fails unless the maximum age, the interval and the batch size are all
      positive, and then with the first of those checks that fails. */
  function LoadRetention(h: Host, env: Env): (r: Result<Retention, ConfigError>)
    ensures r.Ok? ==> r.value == RetentionFrom(h, env)
    ensures r.Ok? ==> r.value.maxAge > 0 && r.value.interval > 0 && r.value.batchSize > 0
    ensures r.Ok? <==>
      RetentionFrom(h, env).maxAge > 0 && RetentionFrom(h, env).interval > 0 && RetentionFrom(h, env).batchSize > 0
    ensures RetentionFrom(h, env).maxAge <= 0 ==> r == Err(BadMaxAge)
  {
    var c := RetentionFrom(h, env);
    if c.maxAge <= 0 then Err(BadMaxAge)
    else if c.interval <= 0 then Err(BadInterval)
    else if c.batchSize <= 0 then Err(BadRetentionBatchSize)
    else Ok(c)
  }

  /** With nothing set, retention runs every 24 hours on documents older than 168 hours,
      500 at a time. */
  lemma {:induction false} RetentionDefaults(h: Host, env: Env)
    requires forall k :: k in env ==> env[k] == []
    ensures LoadRetention(h, env) ==
      Ok(Retention("http://elasticsearch:9200", "news", 24 * 3_600_000_000_000, 168 * 3_600_000_000_000, 500))
  {
    DefaultDurations(h);
  }
}
