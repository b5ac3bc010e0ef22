/** The scraper's entry point: configuration from the environment, the guard on the
    required settings, and the start of the Telegram parser with its failure caught.
    The environment is given by what os.getenv returns for each variable read (None when
    unset); logging text and the Kafka producer's connection are not modelled. */
module ScraperMain {
  import opened Wrappers
  import opened Text
  import Telegram

  /** os.getenv for TELEGRAM_API_ID, TELEGRAM_API_HASH, KAFKA_BROKERS, KAFKA_TOPIC and
      TELEGRAM_CHANNELS. */
  datatype ScraperEnv = ScraperEnv(
    apiId: Option<string>,
    apiHash: Option<string>,
    brokers: Option<string>,
    topic: Option<string>,
    channels: Option<string>)

  /** The dictionary load_config returns. */
  datatype ScraperConfig = ScraperConfig(
    apiId: Option<string>,
    apiHash: Option<string>,
    brokers: Option<string>,
    topic: string,
    channels: seq<string>)

  const DefaultTopic: string := "news_raw"

  /** load_config: the three required settings as read, the topic with default
      "news_raw" when unset (a variable set to "" stays ""), and the channel list:
      TELEGRAM_CHANNELS split on ',', each piece stripped, empty pieces dropped. */
  function LoadConfig(e: ScraperEnv): (c: ScraperConfig)
    ensures c.apiId == e.apiId && c.apiHash == e.apiHash && c.brokers == e.brokers
    ensures e.topic.None? ==> c.topic == DefaultTopic
    ensures e.topic.Some? ==> c.topic == e.topic.value
  {
    ScraperConfig(e.apiId, e.apiHash, e.brokers, e.topic.GetOr(DefaultTopic),
                  KeepTrimmed(Split(e.channels.GetOr([]), ','), PySpace))
  }

  /** With TELEGRAM_CHANNELS unset or empty there is no channel to monitor. */
  lemma {:induction false} NoChannelsByDefault(e: ScraperEnv)
    requires e.channels.None? || e.channels == Some([])
    ensures LoadConfig(e).channels == []
  {
    var pieces: seq<string> := [[]];
    assert Split([], ',') == pieces;
    assert pieces[..0] == [];
  }

  /** Every channel entry is non-empty, has no white space at its ends and no ','; and a
      list of such names, written joined by ',', is read back unchanged. */
  lemma {:induction false} ChannelsRoundTrip(e: ScraperEnv, names: seq<string>)
    requires forall i :: 0 <= i < |names| ==> IsTrimmed(names[i], PySpace) && ',' !in names[i]
    requires e.channels == Some(Join(names, ","))
    ensures LoadConfig(e).channels == names
  {
    KeepTrimmedJoin(names, PySpace);
  }

  /** The channel entries load_config produces are stripped and non-empty. */
  lemma {:induction false} ChannelsAreStripped(e: ScraperEnv)
    ensures forall i :: 0 <= i < |LoadConfig(e).channels| ==> IsTrimmed(LoadConfig(e).channels[i], PySpace)
  {
    KeepTrimmedShape(Split(e.channels.GetOr([]), ','), PySpace);
  }

  /** Python truthiness of an optional string: set and non-empty. */
  predicate Given(v: Option<string>) {
    v.Some? && v.value != []
  }

  /** The guard in main: API id, API hash and brokers all given. */
  predicate Ready(c: ScraperConfig) {
    Given(c.apiId) && Given(c.apiHash) && Given(c.brokers)
  }

  /** What main does, in order. */
  datatype Event =
    | MissingSettings
    | ProducerFailed
    | ProducerCreated(brokers: string, topic: string)
    | InvalidApiId
    | ParserCreated(channels: seq<string>)
    | ParserRan(trace: seq<Telegram.Action>)
    | StartFailureLogged
    | Stopped

  /** The channel list as the parser receives it: every entry a name. */
  function ChannelRefs(names: seq<string>): (refs: seq<Telegram.ChannelRef>)
    ensures |refs| == |names|
    ensures forall i :: 0 <= i < |names| ==> refs[i] == Telegram.Name(names[i])
  {
    seq(|names|, i requires 0 <= i < |names| => Telegram.Name(names[i]))
  }

  /** One resolution step per channel name, in order. */
  function ResolveAll(names: seq<string>): (steps: seq<Telegram.Action>)
    ensures |steps| == |names|
    ensures forall i :: 0 <= i < |names| ==> steps[i] == Telegram.Resolve(names[i])
  {
    seq(|names|, i requires 0 <= i < |names| => Telegram.Resolve(names[i]))
  }

  /** For a list of names, start resolves every one of them, in order. */
  lemma {:induction false} ResolutionsOfNames(names: seq<string>)
    ensures Telegram.Resolutions(ChannelRefs(names)) == ResolveAll(names)
    decreases |names|
  {
    if names != [] {
      var init := names[..|names| - 1];
      ResolutionsOfNames(init);
      var refs := ChannelRefs(names);
      assert refs[..|refs| - 1] == ChannelRefs(init);
      assert ResolveAll(names) == ResolveAll(init) + [Telegram.Resolve(names[|names| - 1])];
    }
  }

  /** Whether parser.start() raises: the client failed to start, or the run ended with an
      exception other than a keyboard interrupt. */
  predicate StartFails(startEnd: Telegram.StartEnd, runEnd: Telegram.RunEnd) {
    startEnd == Telegram.StartFailed || (startEnd == Telegram.Started && runEnd == Telegram.RunFailed)
  }

  /** The actions of parser.start() for a list of channel names. */
  function ParserTrace(names: seq<string>, startEnd: Telegram.StartEnd): seq<Telegram.Action> {
    if startEnd == Telegram.Started then
      [Telegram.ClientStart] + ResolveAll(names) + [Telegram.RunUntilDisconnected, Telegram.Disconnect, Telegram.CloseProducer]
    else
      [Telegram.ClientStart, Telegram.Disconnect, Telegram.CloseProducer]
  }

  /** The events of main after the guard, given whether the Kafka producer could be
      created and whether the API id is an integer. */
  function StartParserEvents(c: ScraperConfig, producerUp: bool, apiIdOk: bool,
                             startEnd: Telegram.StartEnd, runEnd: Telegram.RunEnd): seq<Event>
    requires c.brokers.Some?
  {
    if !producerUp then [ProducerFailed]
    else if !apiIdOk then [ProducerCreated(c.brokers.value, c.topic), InvalidApiId]
    else
      [ProducerCreated(c.brokers.value, c.topic), ParserCreated(c.channels), ParserRan(ParserTrace(c.channels, startEnd))] +
      (if StartFails(startEnd, runEnd) then [StartFailureLogged] else []) + [Stopped]
  }

  /** The part of main after the guard: create the producer, whose constructor logs and
      re-raises a failure to create the Kafka client (`producerUp` false), which main does
      not catch; then the parser, whose constructor raises ValueError (which main does not
      catch either) when the API id is not an integer; otherwise run start, log a failure
      instead of re-raising it, and always end by logging that the parser stopped.
      `readInt` is Python's int() on a string. */
  method StartParser(c: ScraperConfig, producerUp: bool, readInt: string -> Option<int>, startEnd: Telegram.StartEnd,
                     resolve: string -> Option<Telegram.Entity>, runEnd: Telegram.RunEnd)
    returns (events: seq<Event>)
    requires c.brokers.Some? && c.apiId.Some?
    ensures events == StartParserEvents(c, producerUp, readInt(c.apiId.value).Some?, startEnd, runEnd)
    ensures !producerUp ==> events == [ProducerFailed]
    ensures producerUp && readInt(c.apiId.value).None? ==> events == [ProducerCreated(c.brokers.value, c.topic), InvalidApiId]
    ensures producerUp && readInt(c.apiId.value).Some? ==>
      && |events| >= 4 && events[2].ParserRan?
      && events == [ProducerCreated(c.brokers.value, c.topic), ParserCreated(c.channels), events[2]] +
           (if StartFails(startEnd, runEnd) then [StartFailureLogged] else []) + [Stopped]
      && (startEnd == Telegram.Started ==>
            events[2].trace == [Telegram.ClientStart] + ResolveAll(c.channels) +
              [Telegram.RunUntilDisconnected, Telegram.Disconnect, Telegram.CloseProducer])
      && (startEnd != Telegram.Started ==>
            events[2].trace == [Telegram.ClientStart, Telegram.Disconnect, Telegram.CloseProducer])
  {
    if !producerUp {
      return [ProducerFailed];
    }
    events := [ProducerCreated(c.brokers.value, c.topic)];
    if readInt(c.apiId.value).None? {
      return events + [InvalidApiId];
    }
    var refs := ChannelRefs(c.channels);
    var parser := new Telegram.Parser(Some(refs));
    events := events + [ParserCreated(c.channels)];
    var trace, raised := parser.Start(startEnd, resolve, runEnd);
    ResolutionsOfNames(c.channels);
    events := events + [ParserRan(trace)];
    if raised {
      events := events + [StartFailureLogged];
    }
    events := events + [Stopped];
  }

  /** main: returns at once, creating nothing, unless the three required settings are
      given; otherwise goes on as StartParser says. The exceptions it lets through are the
      producer constructor's re-raised failure and the parser constructor's ValueError for
      an API id that is not an integer. */
  method RunScraper(e: ScraperEnv, producerUp: bool, readInt: string -> Option<int>, startEnd: Telegram.StartEnd,
                    resolve: string -> Option<Telegram.Entity>, runEnd: Telegram.RunEnd)
    returns (events: seq<Event>)
    ensures !Ready(LoadConfig(e)) <==> events == [MissingSettings]
    ensures Ready(LoadConfig(e)) ==>
      events == StartParserEvents(LoadConfig(e), producerUp, readInt(e.apiId.value).Some?, startEnd, runEnd)
    ensures Ready(LoadConfig(e)) && !producerUp ==> events == [ProducerFailed]
    ensures Ready(LoadConfig(e)) && producerUp ==>
      |events| >= 2 && events[0] == ProducerCreated(e.brokers.value, LoadConfig(e).topic)
    ensures Ready(LoadConfig(e)) && producerUp && readInt(e.apiId.value).None? ==> events[|events| - 1] == InvalidApiId
    ensures Ready(LoadConfig(e)) && producerUp && readInt(e.apiId.value).Some? ==>
      |events| >= 4 &&
      events[1] == ParserCreated(LoadConfig(e).channels) &&
      events[|events| - 1] == Stopped
  {
    var c := LoadConfig(e);
    if !Ready(c) {
      return [MissingSettings];
    }
    events := StartParser(c, producerUp, readInt, startEnd, resolve, runEnd);
  }
}
