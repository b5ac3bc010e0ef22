/** How the worker reads a record the scraper publishes. json.Unmarshal fills the fields of
    rawNews whose JSON names ("title", "text", "timestamp", "source") match a key of the
    record, and ignores the record's other keys. The record's time travels under "date",
    a name rawNews does not read. */
module Pipeline {
  import opened Text
  import opened Platform
  import Telegram
  import Worker
  import Dedupe

  /** The payload as the worker decodes it as written: of rawNews's four names the record
      carries only "text" and "source", so title and timestamp stay "". */
  function DecodeAsWritten(r: Telegram.Record): (p: Worker.RawNews)
    ensures p.title == [] && p.timestamp == []
    ensures p == Decode(r).(timestamp := [])
  {
    Worker.RawNews("", r.text, "", r.source)
  }

  /** The corrected decoding: the record's "date" is read as the timestamp. */
  function Decode(r: Telegram.Record): (p: Worker.RawNews)
    ensures p.title == [] && p.text == r.text && p.source == r.source
    ensures r.date.Some? ==> p.timestamp == r.date.value
    ensures r.date.None? ==> p.timestamp == []
  {
    Worker.RawNews("", r.text, if r.date.Some? then r.date.value else "", r.source)
  }

  /** As written, a scraped message redelivered in another clock second gets another ID,
      and reads as unseen right after the first delivery was marked (unless that ID was
      already stored): the worker stamps the record with the clock, and the ID hashes the
      stamp's RFC 3339 second. */
  lemma {:induction false} ScrapedRedeliveryIsNew(h: Host, s: Dedupe.CacheState, r: Telegram.Record,
                                                  now: int, later: int, id1: string, id2: string)
    requires Dedupe.Valid(s) && Dedupe.NotAfter(s, now) && id1 != [] && id2 != []
    requires Worker.DigestsDistinct(h, Worker.IdInput(h, DecodeAsWritten(r), now),
                                    Worker.IdInput(h, DecodeAsWritten(r), later))
    requires h.formatRfc3339Utc(now) != h.formatRfc3339Utc(later)
    ensures var p := DecodeAsWritten(r);
      var first := Worker.DocumentIdOf(h, p, now, id1);
      var again := Worker.DocumentIdOf(h, p, later, id2);
      && again != first
      && (again !in s.items ==> !Dedupe.Seen(Dedupe.Marked(s, first, now), again, later))
  {
    Worker.BlankTimestamp(h, DecodeAsWritten(r).timestamp);
    Worker.ClockInIdWhenUnparsed(h, s, DecodeAsWritten(r), now, later, id1, id2);
  }

  /** Corrected, a scraped message whose date parses gets the same ID on every delivery,
      so a redelivery within ttl, with nothing marked in between, is a duplicate whatever
      the clock says. */
  lemma {:induction false} ScrapedRedeliveryIsDuplicate(h: Host, s: Dedupe.CacheState, r: Telegram.Record,
                                                        now: int, later: int, id1: string, id2: string)
    requires Dedupe.Valid(s) && Dedupe.NotAfter(s, now) && id1 != [] && id2 != []
    requires now <= later && later - now <= s.ttl
    requires r.date.Some? && Worker.TimestampSpec(h, r.date.value) != 0
    requires h.sha1Hex(Worker.IdInput(h, Decode(r), Worker.TimestampSpec(h, r.date.value))) != []
    ensures var p := Decode(r);
      var first := Worker.DocumentIdOf(h, p, now, id1);
      var again := Worker.DocumentIdOf(h, p, later, id2);
      && Worker.DocumentTime(h, p.timestamp, now) == Worker.TimestampSpec(h, r.date.value)
      && again == first
      && Dedupe.Seen(Dedupe.Marked(s, first, now), again, later)
  {
    var p := Decode(r);
    assert p.timestamp == r.date.value;
    Worker.RedeliveryIsDuplicate(h, s, p, now, later, id1, id2);
  }
}
