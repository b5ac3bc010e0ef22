/** The Telegram side of the scraper: which chat messages are taken, the record built for
    each, the set of resolved channel IDs and the order of the start-up and shut-down
    steps. The Telegram client (get_chat, get_entity, start, run_until_disconnected,
    disconnect), uuid4 and datetime.isoformat are parameters. */
module Telegram {
  import opened Wrappers
  import opened Text

  /** An attribute of the message's peer object: missing, or present and holding None or
      an integer. */
  datatype Attr = Absent | Present(value: Option<int>)

  /** The peer of a message, with its channel_id and chat_id attributes. */
  datatype Peer = Peer(channelId: Attr, chatId: Attr)

  /** An entry of the configured channel list: a string, or some other Python value. */
  datatype ChannelRef = Name(name: string) | NonString

  /** A string attribute of a Telethon object: missing, so that reading it raises
      AttributeError, or present and holding None or a string. */
  datatype StrAttr = Missing | Has(value: Option<string>)

  /** Python truth value of an optional string: neither None nor "". */
  predicate NonEmpty(v: Option<string>) {
    v.Some? && v.value != []
  }

  /** The chat get_chat returns, with its username and title attributes. A channel has
      both; a basic group has no username; a user has no title. */
  datatype Chat = Chat(username: StrAttr, title: StrAttr)

  /** The entity get_entity returns: its ID and its username and title attributes. */
  datatype Entity = Entity(id: int, username: StrAttr, title: StrAttr)

  /** The fields of a Telegram message the parser reads; the date is a point in time. */
  datatype Message = Message(peer: Peer, id: int, text: Option<string>, message: Option<string>, date: Option<int>)

  /** The record sent to Kafka (the news_data dict). */
  datatype Record = Record(
    id: string,
    source: string,
    channelId: Option<int>,
    channelName: Option<string>,
    channelTitle: Option<string>,
    messageId: int,
    text: string,
    date: Option<string>)

  /** A record handed to the producer with its key. */
  datatype Send = Send(key: string, record: Record)

  /** getattr(peer, 'channel_id', getattr(peer, 'chat_id', None)). */
  function PeerId(p: Peer): Option<int> {
    match p.channelId
    case Present(v) => v
    case Absent =>
      match p.chatId
      case Present(v) => v
      case Absent => None
  }

  /** Python truth value of an ID: neither None nor 0. */
  predicate Truthy(id: Option<int>) {
    id.Some? && id.value != 0
  }

  /** _should_process_message: the peer has a channel or chat ID attribute, the channel
      list is not empty, and the ID is truthy and among the resolved IDs. */
  predicate Accepts(channels: seq<ChannelRef>, ids: set<int>, p: Peer) {
    if p.channelId.Absent? && p.chatId.Absent? then false
    else if channels == [] then false
    else
      var id := PeerId(p);
      if !Truthy(id) then false else id.value in ids
  }

  /** An accepted message carries a truthy ID that is resolved; a message whose channel_id
      attribute is present is judged by that attribute alone. */
  lemma {:induction false} AcceptedId(channels: seq<ChannelRef>, ids: set<int>, p: Peer)
    ensures Accepts(channels, ids, p) ==>
      channels != [] && Truthy(PeerId(p)) && PeerId(p).value in ids
    ensures p.channelId.Present? ==>
      forall other: Attr :: Accepts(channels, ids, p) == Accepts(channels, ids, Peer(p.channelId, other))
  {
  }

  /** Resolving more channels never rejects a message that was taken. */
  lemma {:induction false} AcceptsMonotone(channels: seq<ChannelRef>, ids: set<int>, more: set<int>, p: Peer)
    requires Accepts(channels, ids, p)
    ensures Accepts(channels, ids + more, p)
  {
  }

  /** message.text or message.message or "" (Python's `or` skips None and ""). */
  function TextOf(m: Message): (t: string)
    ensures t != [] <==> (m.text.Some? && m.text.value != []) || (m.message.Some? && m.message.value != [])
  {
    if m.text.Some? && m.text.value != [] then m.text.value
    else if m.message.Some? && m.message.value != [] then m.message.value
    else ""
  }

  /** The record _parse_message builds once the chat's attributes have been read. */
  function BuildRecord(m: Message, name: Option<string>, title: Option<string>, freshId: string,
                       isoformat: int -> string): (r: Record)
    ensures r.id == freshId && r.source == "telegram"
    ensures r.channelId == PeerId(m.peer) && r.messageId == m.id
    ensures r.channelName == name && r.channelTitle == title
    ensures r.text == TextOf(m)
    ensures r.date.Some? <==> m.date.Some?
  {
    Record(
      freshId,
      "telegram",
      PeerId(m.peer),
      name,
      title,
      m.id,
      TextOf(m),
      if m.date.Some? then Some(isoformat(m.date.value)) else None)
  }

  /** _parse_message: `getChat` is None when message.get_chat() raises. Reading
      chat.username, then chat.title, of a chat that lacks the attribute raises
      AttributeError. Every exception is logged and gives None. */
  function ParseMessage(m: Message, getChat: Option<Option<Chat>>, freshId: string, isoformat: int -> string)
    : (r: Option<Record>)
    ensures r.None? <==>
      getChat.None? ||
      (getChat.value.Some? && (getChat.value.value.username.Missing? || getChat.value.value.title.Missing?))
    ensures r.Some? ==> r.value.source == "telegram" && r.value.id == freshId
    ensures r.Some? ==> r.value.channelId == PeerId(m.peer) && r.value.messageId == m.id
    ensures r.Some? && getChat.value.None? ==> r.value.channelName.None? && r.value.channelTitle.None?
    ensures r.Some? && getChat.value.Some? ==>
      r.value.channelName == getChat.value.value.username.value &&
      r.value.channelTitle == getChat.value.value.title.value
  {
    match getChat
    case None => None
    case Some(chat) =>
      if chat.None? then Some(BuildRecord(m, None, None, freshId, isoformat))
      else if chat.value.username.Missing? then None
      else if chat.value.title.Missing? then None
      else Some(BuildRecord(m, chat.value.username.value, chat.value.title.value, freshId, isoformat))
  }

  /** Python's str() of the channel_id entry. */
  function KeyOf(id: Option<int>): (k: string)
    ensures id.None? ==> k == "None"
    ensures id.Some? && MinInt64 <= id.value <= MaxInt64 ==> Atoi(k) == id
  {
    if id.Some? then
      var k := DecimalString(id.value);
      assert MinInt64 <= id.value <= MaxInt64 ==> Atoi(k) == id by {
        if MinInt64 <= id.value <= MaxInt64 {
          AtoiDecimalString(id.value);
        }
      }
      k
    else "None"
  }

  /** The key of a published record is the decimal form of its channel ID, never the
      'unknown' default: the record always has a channel_id entry, and an accepted message
      has a truthy ID. */
  lemma {:induction false} KeyIsChannelId(m: Message, getChat: Option<Option<Chat>>, freshId: string, isoformat: int -> string,
                       channels: seq<ChannelRef>, ids: set<int>)
    requires Accepts(channels, ids, m.peer) && ParseMessage(m, getChat, freshId, isoformat).Some?
    ensures var r := ParseMessage(m, getChat, freshId, isoformat).value;
      && r.channelId == Some(PeerId(m.peer).value)
      && KeyOf(r.channelId) == DecimalString(PeerId(m.peer).value)
      && KeyOf(r.channelId) != "unknown"
      && KeyOf(r.channelId) != "None"
  {
    var id := PeerId(m.peer).value;
    var k := DecimalString(id);
    assert k[0] == '-' || IsDigit(k[0]);
    assert "unknown"[0] == 'u' && "None"[0] == 'N';
  }

  /** The start-up and shut-down steps, in the order they happen. */
  datatype Action = ClientStart | Resolve(name: string) | RunUntilDisconnected | Disconnect | CloseProducer

  /** How client.start() ends. */
  datatype StartEnd = Started | StartInterrupted | StartFailed

  /** How run_until_disconnected() ends: disconnection, Ctrl-C, or another exception. */
  datatype RunEnd = Disconnected | RunInterrupted | RunFailed

  /** The resolution steps `start` takes for a channel list: string entries only. */
  function Resolutions(channels: seq<ChannelRef>): seq<Action>
    decreases |channels|
  {
    if channels == [] then []
    else
      var last := channels[|channels| - 1];
      Resolutions(channels[..|channels| - 1]) + (if last.Name? then [Resolve(last.name)] else [])
  }

  /** The ID of an entity get_entity returns for a name, None when get_entity raises. */
  function EntityId(resolve: string -> Option<Entity>, name: string): Option<int> {
    if resolve(name).Some? then Some(resolve(name).value.id) else None
  }

  /** The IDs `start` adds for a channel list: those of the string entries that resolve,
      whether or not the log line after the add raises. */
  function ResolvedIds(channels: seq<ChannelRef>, resolve: string -> Option<Entity>): set<int>
    decreases |channels|
  {
    if channels == [] then {}
    else
      var last := channels[|channels| - 1];
      ResolvedIds(channels[..|channels| - 1], resolve) +
        (if last.Name? && resolve(last.name).Some? then {resolve(last.name).value.id} else {})
  }

  /** Exactly the resolvable string entries contribute IDs. */
  lemma {:induction false} ResolvedIdsSpec(channels: seq<ChannelRef>, resolve: string -> Option<Entity>)
    ensures forall id :: id in ResolvedIds(channels, resolve) <==>
      exists i :: 0 <= i < |channels| && channels[i].Name? && EntityId(resolve, channels[i].name) == Some(id)
    decreases |channels|
  {
    if channels != [] {
      var init := channels[..|channels| - 1];
      ResolvedIdsSpec(init, resolve);
      forall id ensures id in ResolvedIds(channels, resolve) <==>
        exists i :: 0 <= i < |channels| && channels[i].Name? && EntityId(resolve, channels[i].name) == Some(id)
      {
        if id in ResolvedIds(init, resolve) {
          var i :| 0 <= i < |init| && init[i].Name? && EntityId(resolve, init[i].name) == Some(id);
          assert channels[i] == init[i];
        }
        if exists i :: 0 <= i < |channels| && channels[i].Name? && EntityId(resolve, channels[i].name) == Some(id) {
          var i :| 0 <= i < |channels| && channels[i].Name? && EntityId(resolve, channels[i].name) == Some(id);
          if i < |init| {
            assert init[i] == channels[i];
          }
        }
      }
    }
  }

  /** TelegramNewsParser. `sent` is what the handler has handed to the producer. */
  class Parser {
    const monitoredChannels: seq<ChannelRef>
    var monitoredChannelIds: set<int>
    var sent: seq<Send>

    /** `monitored_channels or []`: None and the empty list both give no channels. */
    constructor (channels: Option<seq<ChannelRef>>)
      ensures monitoredChannels == (if channels.Some? then channels.value else [])
      ensures monitoredChannelIds == {} && sent == []
    {
      monitoredChannels := if channels.Some? then channels.value else [];
      monitoredChannelIds := {};
      sent := [];
    }

    /** _should_process_message; it changes nothing. */
    method ShouldProcess(m: Message) returns (b: bool)
      ensures b == Accepts(monitoredChannels, monitoredChannelIds, m.peer)
      ensures monitoredChannels == [] ==> !b
      ensures b ==> Truthy(PeerId(m.peer)) && PeerId(m.peer).value in monitoredChannelIds
    {
      if m.peer.channelId.Absent? && m.peer.chatId.Absent? {
        return false;
      }
      if monitoredChannels == [] {
        return false;
      }
      var current := PeerId(m.peer);
      if !Truthy(current) {
        return false;
      }
      if current.value !in monitoredChannelIds {
        return false;
      }
      return true;
    }

    /** The NewMessage handler: a taken message whose record could be built is handed to
      the producer under the key str(channel_id); anything else changes nothing. The
      producer's own failures are caught inside it and do not reach the handler. */
    method HandleMessage(m: Message, getChat: Option<Option<Chat>>, freshId: string, isoformat: int -> string)
      modifies this
      ensures monitoredChannelIds == old(monitoredChannelIds)
      ensures var r := ParseMessage(m, getChat, freshId, isoformat);
        if Accepts(monitoredChannels, monitoredChannelIds, m.peer) && r.Some? then
          sent == old(sent) + [Send(KeyOf(r.value.channelId), r.value)]
        else
          sent == old(sent)
    {
      var take := ShouldProcess(m);
      if take {
        var newsData := ParseMessage(m, getChat, freshId, isoformat);
        if newsData.Some? {
          var key := KeyOf(newsData.value.channelId);
          sent := sent + [Send(key, newsData.value)];
        }
      }
    }

    /** add_channel: `resolve` is client.get_entity's entity for the identifier, None when
      it raises. The ID is added before the log line reads `entity.username or
      entity.title`, which raises when username is missing, or when it is None or "" and
      title is missing; the call then returns false with the ID already added. */
    method AddChannel(identifier: string, resolve: string -> Option<Entity>) returns (ok: bool)
      modifies this
      ensures resolve(identifier).Some? ==>
        monitoredChannelIds == old(monitoredChannelIds) + {resolve(identifier).value.id}
      ensures resolve(identifier).None? ==> monitoredChannelIds == old(monitoredChannelIds)
      ensures ok <==>
        resolve(identifier).Some? &&
        resolve(identifier).value.username.Has? &&
        (NonEmpty(resolve(identifier).value.username.value) || resolve(identifier).value.title.Has?)
      ensures sent == old(sent)
    {
      var entity := resolve(identifier);
      if entity.None? {
        return false;
      }
      monitoredChannelIds := monitoredChannelIds + {entity.value.id};
      if entity.value.username.Missing? {
        return false;
      }
      if !NonEmpty(entity.value.username.value) && entity.value.title.Missing? {
        return false;
      }
      return true;
    }

    /** start: client start, resolution of the string entries of the channel list, the
      run, and on every way out a disconnect followed by closing the producer. `raised`
      says whether the exception propagates (everything except a keyboard interrupt). */
    method Start(startEnd: StartEnd, resolve: string -> Option<Entity>, runEnd: RunEnd)
      returns (trace: seq<Action>, raised: bool)
      modifies this
      ensures |trace| >= 3 && trace[..1] == [ClientStart]
      ensures trace[|trace| - 2..] == [Disconnect, CloseProducer]
      ensures startEnd != Started ==>
        trace == [ClientStart, Disconnect, CloseProducer] &&
        monitoredChannelIds == old(monitoredChannelIds) &&
        raised == (startEnd == StartFailed)
      ensures startEnd == Started ==>
        trace == [ClientStart] + Resolutions(monitoredChannels) + [RunUntilDisconnected, Disconnect, CloseProducer] &&
        monitoredChannelIds == old(monitoredChannelIds) + ResolvedIds(monitoredChannels, resolve) &&
        raised == (runEnd == RunFailed)
      ensures sent == old(sent)
    {
      trace := [ClientStart];
      raised := false;
      if startEnd == Started {
        for i := 0 to |monitoredChannels|
          invariant trace == [ClientStart] + Resolutions(monitoredChannels[..i])
          invariant monitoredChannelIds == old(monitoredChannelIds) + ResolvedIds(monitoredChannels[..i], resolve)
          invariant sent == old(sent)
        {
          var channel := monitoredChannels[i];
          assert monitoredChannels[..i + 1][..i] == monitoredChannels[..i];
          if channel.Name? {
            trace := trace + [Resolve(channel.name)];
            var _ := AddChannel(channel.name, resolve);
          }
        }
        assert monitoredChannels[..|monitoredChannels|] == monitoredChannels;
        trace := trace + [RunUntilDisconnected];
        raised := runEnd == RunFailed;
      } else {
        raised := startEnd == StartFailed;
      }
      trace := trace + [Disconnect, CloseProducer];
    }
  }
}
