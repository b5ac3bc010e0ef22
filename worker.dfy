/** The news worker: per-message processing, timestamp parsing and the dead-letter-queue
    rule of the consume loop. The Kafka reader and writer, the index and the clock are
    parameters: `index` says whether indexing a document succeeds, `write` whether a
    dead-letter write attempt succeeds, `canceled` whether the context is canceled during
    the back-off after a failed attempt, `now` is the current time. */
module Worker {
  import opened Wrappers
  import opened Text
  import opened Platform
  import opened Urls
  import opened Processing
  import opened Models
  import Dedupe

  /** The JSON payload of a message (rawNews). */
  datatype RawNews = RawNews(title: string, text: string, timestamp: string, source: string)

  // ---------------------------------------------------------------------------------
  // parseTimestamp

  /** The layouts parseTimestamp tries, in order. */
  const Layouts: seq<Layout> := [Rfc3339Nano, Rfc3339, DateTime]

  /** The instant of the first layout that parses t; 0 (the zero time) when none does. */
  function FirstParse(h: Host, ls: seq<Layout>, t: string): int
    decreases |ls|
  {
    if ls == [] then 0
    else
      match h.parseTime(ls[0], t)
      case Some(v) => v
      case None => FirstParse(h, ls[1..], t)
  }

  /** FirstParse returns the value of the first layout that parses, and the zero time
      when none does. */
  lemma {:induction false} FirstParseSpec(h: Host, ls: seq<Layout>, t: string)
    ensures (forall k :: 0 <= k < |ls| ==> h.parseTime(ls[k], t).None?) ==> FirstParse(h, ls, t) == 0
    ensures forall k :: (0 <= k < |ls| && h.parseTime(ls[k], t).Some? &&
      (forall j :: 0 <= j < k ==> h.parseTime(ls[j], t).None?)) ==>
        FirstParse(h, ls, t) == h.parseTime(ls[k], t).value
    decreases |ls|
  {
    if ls != [] {
      FirstParseSpec(h, ls[1..], t);
      forall k | 0 <= k < |ls| && h.parseTime(ls[k], t).Some? &&
        (forall j :: 0 <= j < k ==> h.parseTime(ls[j], t).None?)
        ensures FirstParse(h, ls, t) == h.parseTime(ls[k], t).value
      {
        if k > 0 {
          assert h.parseTime(ls[0], t).None?;
          assert ls[1..][k - 1] == ls[k];
          forall j | 0 <= j < k - 1 ensures h.parseTime(ls[1..][j], t).None? {
            assert ls[1..][j] == ls[j + 1];
          }
        }
      }
      if forall k :: 0 <= k < |ls| ==> h.parseTime(ls[k], t).None? {
        forall j | 0 <= j < |ls[1..]| ensures h.parseTime(ls[1..][j], t).None? {
          assert ls[1..][j] == ls[j + 1];
        }
      }
    }
  }

  /** What parseTimestamp returns: the zero time for blank input, otherwise the first
      layout's reading of the trimmed input, the zero time when none parses. */
  function TimestampSpec(h: Host, raw: string): int {
    var t := Trim(raw, GoSpace);
    if t == [] then 0 else FirstParse(h, Layouts, t)
  }

  /** parseTimestamp. */
  method ParseTimestamp(h: Host, raw: string) returns (ts: int)
    ensures ts == TimestampSpec(h, raw)
  {
    var t := Trim(raw, GoSpace);
    if t == [] {
      return 0;
    }
    var formats := Layouts;
    for i := 0 to |formats|
      invariant FirstParse(h, formats, t) == FirstParse(h, formats[i..], t)
    {
      var r := h.parseTime(formats[i], t);
      if r.Some? {
        return r.value;
      }
      assert formats[i..][1..] == formats[i + 1..];
    }
    return 0;
  }

  /** The time a document gets: the parsed timestamp, or now when that is the zero time.
      Input that is padded with white space is read like the trimmed input. */
  lemma {:induction false} TimestampOfPadded(h: Host, p: string, raw: string, q: string)
    requires AllWs(p, GoSpace) && AllWs(q, GoSpace)
    ensures TimestampSpec(h, p + raw + q) == TimestampSpec(h, raw)
  {
    TrimPadded(p, raw, q, GoSpace);
  }

  /** A blank timestamp reads as the zero time. */
  lemma {:induction false} BlankTimestamp(h: Host, raw: string)
    requires AllWs(raw, GoSpace)
    ensures TimestampSpec(h, raw) == 0
  {
  }

  /** The layouts are tried in order: a value the RFC 3339 (nano) layout reads wins,
      the plain date-time layout is consulted only when both RFC 3339 layouts fail, and
      the zero time comes back when all three fail. */
  lemma {:induction false} TimestampLayouts(h: Host, raw: string)
    requires Trim(raw, GoSpace) != []
    ensures var t := Trim(raw, GoSpace);
      && (h.parseTime(Rfc3339Nano, t).Some? ==> TimestampSpec(h, raw) == h.parseTime(Rfc3339Nano, t).value)
      && (h.parseTime(Rfc3339Nano, t).None? && h.parseTime(Rfc3339, t).Some? ==>
            TimestampSpec(h, raw) == h.parseTime(Rfc3339, t).value)
      && (h.parseTime(Rfc3339Nano, t).None? && h.parseTime(Rfc3339, t).None? && h.parseTime(DateTime, t).Some? ==>
            TimestampSpec(h, raw) == h.parseTime(DateTime, t).value)
      && (h.parseTime(Rfc3339Nano, t).None? && h.parseTime(Rfc3339, t).None? && h.parseTime(DateTime, t).None? ==>
            TimestampSpec(h, raw) == 0)
  {
    var t := Trim(raw, GoSpace);
    FirstParseSpec(h, Layouts, t);
    assert Layouts[0] == Rfc3339Nano && Layouts[1] == Rfc3339 && Layouts[2] == DateTime;
  }

  /** The document time: the parsed timestamp, or now when it is the zero time. */
  function DocumentTime(h: Host, raw: string, now: int): int {
    var ts := TimestampSpec(h, raw);
    if ts == 0 then now else ts
  }

  // ---------------------------------------------------------------------------------
  // processMessage

  /** The title: the trimmed title, or a title generated from the trimmed text (at most
      10 words) when the title is blank. */
  function TitleOf(p: RawNews): (t: string)
    ensures Trim(p.title, GoSpace) != [] ==> t == Trim(p.title, GoSpace)
    ensures Trim(p.title, GoSpace) == [] && Trim(p.text, GoSpace) != [] ==> t == GenerateTitle(Trim(p.text, GoSpace), 10)
    ensures Trim(p.title, GoSpace) == [] && Trim(p.text, GoSpace) == [] ==> t == []
  {
    var title := Trim(p.title, GoSpace);
    var text := Trim(p.text, GoSpace);
    if title == [] && text != [] then GenerateTitle(text, 10) else title
  }

  /** The source: trimmed, "unknown" when blank. */
  function SourceOf(p: RawNews): (r: string)
    ensures r != []
    ensures Trim(p.source, GoSpace) != [] ==> r == Trim(p.source, GoSpace)
  {
    var s := Trim(p.source, GoSpace);
    if s == [] then "unknown" else s
  }

  /** The source is never blank and has no white space at either end; a non-blank source
      is kept as it is after trimming, so re-trimming changes nothing. */
  lemma {:induction false} SourceOfShape(p: RawNews)
    ensures SourceOf(p) != [] && Trim(SourceOf(p), GoSpace) == SourceOf(p)
    ensures Trim(p.source, GoSpace) != [] ==> SourceOf(p) == Trim(p.source, GoSpace)
    ensures Trim(p.source, GoSpace) == [] ==> SourceOf(p) == "unknown"
  {
    if Trim(p.source, GoSpace) == [] {
      BlankSource(p);
    } else {
      KeptSource(p);
    }
  }

  lemma {:induction false} BlankSource(p: RawNews)
    requires Trim(p.source, GoSpace) == []
    ensures SourceOf(p) == "unknown" && Trim(SourceOf(p), GoSpace) == SourceOf(p)
  {
    var src := SourceOf(p);
    assert src == "unknown";
    UnknownIsTrimmed();
  }

  lemma {:induction false} KeptSource(p: RawNews)
    requires Trim(p.source, GoSpace) != []
    ensures SourceOf(p) == Trim(p.source, GoSpace) && Trim(SourceOf(p), GoSpace) == SourceOf(p)
  {
    TrimIdempotent(p.source, GoSpace);
  }

  lemma {:induction false} UnknownIsTrimmed()
    ensures Trim("unknown", GoSpace) == "unknown"
  {
    var u := "unknown";
    assert u[0] == 'u' && u[|u| - 1] == 'n';
    TrimUnpadded(u, GoSpace);
  }

  /** The ID: the hash of title, cleaned text and time, or a fresh UUID when that is "". */
  function DocumentIdOf(h: Host, p: RawNews, now: int, freshId: string): (id: string)
    requires freshId != []
    ensures id != []
  {
    var id := BuildDocumentId(h, TitleOf(p), CleanText(h, Trim(p.text, GoSpace)), DocumentTime(h, p.timestamp, now));
    if id == [] then freshId else id
  }

  /** The document processMessage builds from a payload, given the keywords and URLs the
      two extraction methods return. */
  predicate DocumentFor(h: Host, p: RawNews, now: int, freshId: string, limit: int, minLen: int, d: NewsDocument)
    requires freshId != []
  {
    var title := TitleOf(p);
    var text := Trim(p.text, GoSpace);
    var cleaned := CleanText(h, text);
    && d.id == DocumentIdOf(h, p, now, freshId)
    && d.title == title
    && d.text == text
    && d.timestamp == DocumentTime(h, p.timestamp, now)
    && d.source == SourceOf(p)
    && d.urls == Dedup(FindUrls(text))
    && TopRanked(Counts(Qualifying(h, Tokens(h, title + " " + cleaned), minLen)), d.keywords, limit)
  }

  /** Why a message was not indexed. */
  datatype Reject = Malformed | EmptyPayload

  /** What processMessage did: indexed the document, found it already seen (the indexer is
      not called), tried to index it and failed, or rejected the message. Indexed and
      Duplicate are its nil-error returns. */
  datatype Outcome =
    | Indexed(doc: NewsDocument)
    | Duplicate(doc: NewsDocument)
    | IndexFailed(doc: NewsDocument)
    | Rejected(reason: Reject)
  {
    predicate Ok() {
      Indexed? || Duplicate?
    }
  }

  /** What processMessage does to a payload, from cache state `s0` to `s1`: malformed JSON
      and a payload whose trimmed title and text are both blank are rejected; otherwise
      the document is built, a seen ID is a duplicate, an unseen one goes to the indexer,
      and the cache is marked only after the indexer succeeds. */
  ghost predicate Processed(h: Host, limit: int, minLen: int, index: NewsDocument -> bool,
                            payload: Option<RawNews>, now: int, freshId: string,
                            s0: Dedupe.CacheState, s1: Dedupe.CacheState, out: Outcome)
  {
    && freshId != []
    && (out == Rejected(Malformed) <==> payload.None?)
    && (payload.Some? ==>
          (out == Rejected(EmptyPayload) <==>
            Trim(payload.value.title, GoSpace) == [] && Trim(payload.value.text, GoSpace) == []))
    && (!out.Rejected? ==>
          payload.Some? && DocumentFor(h, payload.value, now, freshId, limit, minLen, out.doc))
    && (!out.Rejected? ==> (out.Duplicate? <==> Dedupe.Seen(s0, out.doc.id, now)))
    && (out.Indexed? ==> index(out.doc))
    && (out.IndexFailed? ==> !index(out.doc))
    && (out.Indexed? ==> s1 == Dedupe.Marked(s0, out.doc.id, now) && Dedupe.Seen(s1, out.doc.id, now))
    && (!out.Indexed? ==> s1 == s0)
  }

  /** processMessage. `payload` is None when the message is not valid JSON. */
  method ProcessMessage(h: Host, cache: Dedupe.Cache, limit: int, minLen: int,
                        index: NewsDocument -> bool, payload: Option<RawNews>,
                        now: int, freshId: string) returns (out: Outcome)
    requires freshId != []
    requires Dedupe.Valid(cache.State()) && Dedupe.NotAfter(cache.State(), now)
    modifies cache
    ensures Dedupe.Valid(cache.State()) && Dedupe.NotAfter(cache.State(), now)
    ensures Processed(h, limit, minLen, index, payload, now, freshId, old(cache.State()), cache.State(), out)
  {
    if payload.None? {
      return Rejected(Malformed);
    }
    var p := payload.value;
    if Trim(p.title, GoSpace) == [] && Trim(p.text, GoSpace) == [] {
      return Rejected(EmptyPayload);
    }
    var doc := BuildDocument(h, p, limit, minLen, now, freshId);
    var seen := cache.IsSeen(doc.id, now);
    if seen {
      return Duplicate(doc);
    }
    if !index(doc) {
      return IndexFailed(doc);
    }
    cache.MarkSeen(doc.id, now);
    return Indexed(doc);
  }

  /** The document processMessage builds from a payload with a title or a text. */
  method BuildDocument(h: Host, p: RawNews, limit: int, minLen: int, now: int, freshId: string)
    returns (doc: NewsDocument)
    requires freshId != []
    ensures DocumentFor(h, p, now, freshId, limit, minLen, doc)
  {
    var title := Trim(p.title, GoSpace);
    var text := Trim(p.text, GoSpace);
    var urls := ExtractUrls(text);
    if title == [] && text != [] {
      title := GenerateTitle(text, 10);
    }
    var ts := ParseTimestamp(h, p.timestamp);
    if ts == 0 {
      ts := now;
    }
    var cleaned := CleanText(h, text);
    var keywords := ExtractKeywords(h, title + " " + cleaned, limit, minLen);
    var source := Trim(p.source, GoSpace);
    if source == [] {
      source := "unknown";
    }
    doc := NewsDocument(BuildDocumentId(h, title, cleaned, ts), title, text, ts, keywords, source, urls);
    if doc.id == [] {
      doc := doc.(id := freshId);
    }
  }

  /** A message indexed at `now` and delivered again at `later`, within ttl and with
      nothing marked in between, is a duplicate, provided its ID does not depend on the
      clock: the timestamp parses, or both clock readings format to the same RFC 3339
      second. The ID does not depend on the fresh UUID when the hash is not empty. */
  lemma {:induction false} RedeliveryIsDuplicate(h: Host, s: Dedupe.CacheState, p: RawNews, now: int, later: int,
                                                 id1: string, id2: string)
    requires Dedupe.Valid(s) && Dedupe.NotAfter(s, now) && id1 != [] && id2 != []
    requires now <= later && later - now <= s.ttl
    requires TimestampSpec(h, p.timestamp) != 0 || h.formatRfc3339Utc(now) == h.formatRfc3339Utc(later)
    requires BuildDocumentId(h, TitleOf(p), CleanText(h, Trim(p.text, GoSpace)), DocumentTime(h, p.timestamp, now)) != []
    ensures DocumentIdOf(h, p, later, id2) == DocumentIdOf(h, p, now, id1)
    ensures Dedupe.Seen(Dedupe.Marked(s, DocumentIdOf(h, p, now, id1), now), DocumentIdOf(h, p, later, id2), later)
  {
    var title := TitleOf(p);
    var cleaned := CleanText(h, Trim(p.text, GoSpace));
    assert BuildDocumentId(h, title, cleaned, DocumentTime(h, p.timestamp, later)) ==
      BuildDocumentId(h, title, cleaned, DocumentTime(h, p.timestamp, now));
    Dedupe.SeenWithinTtl(s, DocumentIdOf(h, p, now, id1), now, later);
  }

  /** The string whose digest is the ID of a payload whose document time is t. */
  function IdInput(h: Host, p: RawNews, t: int): string {
    HashInput(h, TitleOf(p), CleanText(h, Trim(p.text, GoSpace)), t)
  }

  /** SHA-1 on two particular strings: neither digest is "", and the digests differ when
      the strings do. */
  predicate DigestsDistinct(h: Host, x: string, y: string) {
    && h.sha1Hex(x) != []
    && h.sha1Hex(y) != []
    && (x != y ==> h.sha1Hex(x) != h.sha1Hex(y))
  }

  /** The counterpart: when the timestamp does not parse, the document time is the clock
      reading, so a delivery in another clock second gets another ID and, unless that ID
      was already stored, reads as unseen right after the first delivery was marked. */
  lemma {:induction false} ClockInIdWhenUnparsed(h: Host, s: Dedupe.CacheState, p: RawNews, now: int, later: int,
                                                 id1: string, id2: string)
    requires Dedupe.Valid(s) && Dedupe.NotAfter(s, now) && id1 != [] && id2 != []
    requires DigestsDistinct(h, IdInput(h, p, now), IdInput(h, p, later))
    requires TimestampSpec(h, p.timestamp) == 0
    requires h.formatRfc3339Utc(now) != h.formatRfc3339Utc(later)
    ensures DocumentIdOf(h, p, later, id2) != DocumentIdOf(h, p, now, id1)
    ensures DocumentIdOf(h, p, later, id2) !in s.items ==>
      !Dedupe.Seen(Dedupe.Marked(s, DocumentIdOf(h, p, now, id1), now), DocumentIdOf(h, p, later, id2), later)
  {
    var title := TitleOf(p);
    var cleaned := CleanText(h, Trim(p.text, GoSpace));
    assert DocumentTime(h, p.timestamp, now) == now && DocumentTime(h, p.timestamp, later) == later;
    DistinctTimesDistinctIds(h, title, cleaned, now, later);
    var key := DocumentIdOf(h, p, now, id1);
    var other := DocumentIdOf(h, p, later, id2);
    assert key == BuildDocumentId(h, title, cleaned, now);
    assert other == BuildDocumentId(h, title, cleaned, later);
    if other !in s.items {
      Dedupe.MarkedAddsOnlyKey(s, key, now, other);
    }
  }

  /** Two instants that format differently give two different, non-empty IDs. */
  lemma {:induction false} DistinctTimesDistinctIds(h: Host, title: string, cleaned: string, t1: int, t2: int)
    requires DigestsDistinct(h, HashInput(h, title, cleaned, t1), HashInput(h, title, cleaned, t2))
    requires h.formatRfc3339Utc(t1) != h.formatRfc3339Utc(t2)
    ensures BuildDocumentId(h, title, cleaned, t1) != [] && BuildDocumentId(h, title, cleaned, t2) != []
    ensures BuildDocumentId(h, title, cleaned, t1) != BuildDocumentId(h, title, cleaned, t2)
  {
    HashInputsDiffer(h, title, cleaned, t1, t2);
  }

  /** A blank title is replaced by the generated one, which has at most 10 words (plus the
      "..." mark) taken from the first sentence of the text. */
  lemma {:induction false} GeneratedTitle(p: RawNews)
    requires Trim(p.title, GoSpace) == [] && Trim(p.text, GoSpace) != []
    ensures var text := Trim(p.text, GoSpace);
      var words := Fields(FirstSentence(RemoveUrls(text)));
      && TitleOf(p) == GenerateTitle(text, 10)
      && (|words| > 10 ==> TitleOf(p) == Join(words[..10], " ") + "...")
      && (|words| <= 10 ==> TitleOf(p) == Join(words, " "))
  {
    var text := Trim(p.text, GoSpace);
    TitleWords(text, 10);
  }

  // ---------------------------------------------------------------------------------
  // The dead-letter rule of the consume loop

  const Second: int := 1_000_000_000

  /** The number of dead-letter write attempts. */
  const MaxAttempts: nat := 5

  function Pow2(n: nat): (r: nat)
    ensures r >= 1
  {
    if n == 0 then 1 else 2 * Pow2(n - 1)
  }

  /** The wait after failed attempt number `attempt` (counted from 0): 2^attempt seconds. */
  function Backoff(attempt: nat): int {
    Pow2(attempt) * Second
  }

  /** How delivery to the dead-letter topic ended: written on attempt number `attempts`
      (counted from 1), given up after all attempts failed, or stopped by cancellation
      during a back-off. */
  datatype Delivery = Delivered(attempts: nat) | Exhausted | Canceled

  /** The retry loop from attempt `attempt` on. */
  function DlqRun(write: nat -> bool, canceled: nat -> bool, attempt: nat): Delivery
    decreases MaxAttempts - attempt
  {
    if attempt >= MaxAttempts then Exhausted
    else if write(attempt) then Delivered(attempt + 1)
    else if canceled(attempt) then Canceled
    else DlqRun(write, canceled, attempt + 1)
  }

  /** The outcomes of the retry loop: delivery on attempt n iff the n-th write is the first
      that succeeds and no earlier back-off was canceled, so at most 5 writes are made;
      exhaustion iff all five writes fail and none of their back-offs is canceled. */
  lemma {:induction false} DlqRunSpec(write: nat -> bool, canceled: nat -> bool, attempt: nat)
    requires attempt <= MaxAttempts
    ensures forall n: nat :: DlqRun(write, canceled, attempt) == Delivered(n) <==>
      (attempt < n <= MaxAttempts && write(n - 1) &&
        forall j :: attempt <= j < n - 1 ==> !write(j) && !canceled(j))
    ensures DlqRun(write, canceled, attempt) == Exhausted <==>
      forall j :: attempt <= j < MaxAttempts ==> !write(j) && !canceled(j)
    decreases MaxAttempts - attempt
  {
    if attempt < MaxAttempts && !write(attempt) && !canceled(attempt) {
      DlqRunSpec(write, canceled, attempt + 1);
    }
  }

  /** The back-off waits of the retry loop, one per failed attempt that is followed by a
      wait. */
  function Waits(write: nat -> bool, canceled: nat -> bool, attempt: nat): seq<int>
    decreases MaxAttempts - attempt
  {
    if attempt >= MaxAttempts || write(attempt) then []
    else if canceled(attempt) then [Backoff(attempt)]
    else [Backoff(attempt)] + Waits(write, canceled, attempt + 1)
  }

  /** The dead-letter retry loop of the consume loop. */
  method DeliverToDlq(write: nat -> bool, canceled: nat -> bool) returns (d: Delivery, waits: seq<int>)
    ensures d == DlqRun(write, canceled, 0)
    ensures waits == Waits(write, canceled, 0)
  {
    waits := [];
    for attempt := 0 to MaxAttempts
      invariant DlqRun(write, canceled, 0) == DlqRun(write, canceled, attempt)
      invariant Waits(write, canceled, 0) == waits + Waits(write, canceled, attempt)
    {
      if write(attempt) {
        return Delivered(attempt + 1), waits;
      }
      waits := waits + [Backoff(attempt)];
      if canceled(attempt) {
        return Canceled, waits;
      }
    }
    return Exhausted, waits;
  }

  /** The waits are 1, 2, 4, ... seconds, one per failed write, at most five of them. */
  lemma {:induction false} WaitsSpec(write: nat -> bool, canceled: nat -> bool, attempt: nat)
    requires attempt <= MaxAttempts
    ensures var w := Waits(write, canceled, attempt);
      && attempt + |w| <= MaxAttempts
      && (forall k :: 0 <= k < |w| ==> w[k] == Backoff(attempt + k) && !write(attempt + k))
    decreases MaxAttempts - attempt
  {
    if attempt < MaxAttempts && !write(attempt) && !canceled(attempt) {
      WaitsSpec(write, canceled, attempt + 1);
      var w := Waits(write, canceled, attempt + 1);
      assert Waits(write, canceled, attempt) == [Backoff(attempt)] + w;
    }
  }

  /** In all, the retry loop waits at most 1 + 2 + 4 + 8 + 16 = 31 seconds. */
  lemma {:induction false} WaitsTotal(write: nat -> bool, canceled: nat -> bool, attempt: nat)
    requires attempt <= MaxAttempts
    ensures Sum(Waits(write, canceled, attempt)) <= (Pow2(MaxAttempts) - Pow2(attempt)) * Second
    decreases MaxAttempts - attempt
  {
    var p := Pow2(attempt);
    var q := Pow2(MaxAttempts);
    var w := Waits(write, canceled, attempt);
    PowMonotone(attempt, MaxAttempts);
    if attempt < MaxAttempts && !write(attempt) {
      assert Pow2(attempt + 1) == 2 * p;
      PowMonotone(attempt + 1, MaxAttempts);
      assert w[0] == p * Second && Sum(w) == w[0] + Sum(w[1..]);
      if !canceled(attempt) {
        WaitsTotal(write, canceled, attempt + 1);
        assert w[1..] == Waits(write, canceled, attempt + 1);
        ScaleAdd(q - 2 * p, p);
      } else {
        assert w[1..] == [];
        ScaleMonotone(p, q - p);
      }
    } else {
      assert w == [];
      ScaleMonotone(0, q - p);
    }
  }

  lemma {:induction false} ScaleAdd(x: int, y: int)
    ensures x * Second + y * Second == (x + y) * Second
  {
  }

  lemma {:induction false} ScaleMonotone(x: int, y: int)
    requires x <= y
    ensures x * Second <= y * Second
  {
  }

  lemma {:induction false} PowMonotone(a: nat, b: nat)
    requires a <= b
    ensures Pow2(a) <= Pow2(b)
    decreases b - a
  {
    if a < b {
      PowMonotone(a, b - 1);
    }
  }

  function Sum(w: seq<int>): int {
    if w == [] then 0 else w[0] + Sum(w[1..])
  }

  /** The result of fetching the next message. */
  datatype Fetch = Got(payload: Option<RawNews>) | FetchCanceled | FetchFailed

  /** What the consume loop does after one fetch: commit the offset, go on without
      committing, or return. */
  datatype Step = Commit | Continue | Stop

  /** What the loop does after a message that failed processing, given how delivery to
      the dead-letter topic ended. */
  function AfterFailure(d: Delivery): Step {
    match d
    case Delivered(_) => Commit
    case Exhausted => Continue
    case Canceled => Stop
  }

  /** One turn of the consume loop: a canceled fetch stops the loop and another fetch error
      is skipped; a processed message is committed; a failed one is sent to the dead-letter
      topic and committed only when that succeeded; a cancellation during the retries stops
      the loop. */
  method ConsumeOne(h: Host, cache: Dedupe.Cache, limit: int, minLen: int,
                    index: NewsDocument -> bool, write: nat -> bool, canceled: nat -> bool,
                    fetch: Fetch, now: int, freshId: string) returns (step: Step, processed: Option<Outcome>)
    requires freshId != []
    requires Dedupe.Valid(cache.State()) && Dedupe.NotAfter(cache.State(), now)
    modifies cache
    ensures Dedupe.Valid(cache.State()) && Dedupe.NotAfter(cache.State(), now)
    ensures processed.Some? <==> fetch.Got?
    ensures fetch.Got? ==>
      Processed(h, limit, minLen, index, fetch.payload, now, freshId, old(cache.State()), cache.State(), processed.value)
    ensures !fetch.Got? ==> cache.State() == old(cache.State())
    ensures fetch == FetchCanceled ==> step == Stop
    ensures fetch == FetchFailed ==> step == Continue
    ensures processed.Some? && processed.value.Ok() ==> step == Commit
    ensures processed.Some? && !processed.value.Ok() ==> step == AfterFailure(DlqRun(write, canceled, 0))
  {
    match fetch {
      case FetchCanceled => return Stop, None;
      case FetchFailed => return Continue, None;
      case Got(payload) =>
        var out := ProcessMessage(h, cache, limit, minLen, index, payload, now, freshId);
        if out.Ok() {
          return Commit, Some(out);
        }
        var d, waits := DeliverToDlq(write, canceled);
        if d.Delivered? {
          return Commit, Some(out);
        }
        if d.Canceled? {
          return Stop, Some(out);
        }
        return Continue, Some(out);
    }
  }

  /** The offset of a message that failed processing is committed exactly when one of the
      at most five dead-letter writes succeeded before any cancellation. */
  lemma {:induction false} CommitAfterFailure(write: nat -> bool, canceled: nat -> bool)
    ensures AfterFailure(DlqRun(write, canceled, 0)) == Commit <==>
      exists m: nat :: m < MaxAttempts && write(m) &&
        forall j :: 0 <= j < m ==> !write(j) && !canceled(j)
  {
    DlqRunSpec(write, canceled, 0);
    var d := DlqRun(write, canceled, 0);
    if d.Delivered? {
      assert d == Delivered(d.attempts);
      assert write(d.attempts - 1);
    } else {
      forall m: nat | m < MaxAttempts && write(m) ensures exists j :: 0 <= j < m && (write(j) || canceled(j)) {
        assert d != Delivered(m + 1);
      }
    }
  }
}
