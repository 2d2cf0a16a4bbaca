/** The per-connection event handlers of the chat server and the state they share. */
module Server {
  import opened Messages
  import opened History

  /** The identifier the transport gives each live connection. */
  type SocketId = string

  /** The four channels whose histories exist from start-up; no other is ever created. */
  const INITIAL_CHANNELS: set<string> := {"general", "operations", "intel-drops", "proof-of-work"}

  /** The channel whose history a socket receives when its user joins. */
  const DEFAULT_CHANNEL: string := "general"

  /** Who an outbound event goes to: the one socket (`socket.emit`) or every
      socket but one (`socket.broadcast.emit`). */
  datatype Target = ToOnly(socket: SocketId) | ToAllExcept(socket: SocketId)

  /** Whether an event sent to `t` reaches socket `s`. */
  predicate Reaches(t: Target, s: SocketId)
  {
    match t
    case ToOnly(x) => s == x
    case ToAllExcept(x) => s != x
  }

  /** An entry of the typing map: the typist's name (unset until the socket has
      joined) and the channel the client named. */
  datatype TypingEntry = TypingEntry(username: Option<string>, channel: Option<string>)

  /** The fields a handler stores on the socket object. */
  datatype Session = Session(username: Option<string>, rank: Option<string>)

  /** The outbound events: 'channel history', 'chat message' and 'typing broadcast'.
      An unknown channel's history is `None`. */
  datatype Event =
    | ChannelHistory(channel: string, history: Option<seq<Payload>>)
    | Chat(message: Payload)
    | TypingBroadcast(typing: map<SocketId, TypingEntry>)

  datatype Emission = Emission(to: Target, event: Event)

  class ChatServer {
    /** Per-channel chat history, oldest message first. */
    var history: map<string, seq<Payload>>
    /** Who is typing: socket id to entry. */
    var typing: map<SocketId, TypingEntry>
    /** What 'user joined' stored on each socket; a socket absent here has neither field set. */
    var sessions: map<SocketId, Session>
    /** Every event emitted so far, in emission order. */
    var outbox: seq<Emission>

    /** The channels are exactly the initial four and each holds at most MAX_HISTORY messages. */
    ghost predicate Valid()
      reads this
    {
      history.Keys == INITIAL_CHANNELS &&
      forall c :: c in history ==> |history[c]| <= MAX_HISTORY
    }

    constructor ()
      ensures Valid()
      ensures forall c :: c in history ==> history[c] == []
      ensures typing == map[] && sessions == map[] && outbox == []
    {
      history := map["general" := [], "operations" := [], "intel-drops" := [], "proof-of-work" := []];
      typing := map[];
      sessions := map[];
      outbox := [];
    }

    /** `chatHistory[channel]`: the channel's history, or `undefined` for a
        channel that is not one of the initial four. */
    function HistoryOf(channel: string): (r: Option<seq<Payload>>)
      reads this
      ensures r.Some? <==> channel in history
      ensures r.Some? ==> r.value == history[channel]
      ensures Valid() ==> (r.Some? <==> channel in INITIAL_CHANNELS)
    {
      if channel in history then Some(history[channel]) else None
    }

    /** `socket.username`: unset until the socket's user has joined. */
    function UsernameOf(id: SocketId): Option<string>
      reads this
    {
      if id in sessions then sessions[id].username else None
    }

    /** 'user joined': record alias and rank on the socket and send that socket
        alone the default channel's history. */
    method UserJoined(id: SocketId, data: Payload)
      requires Valid()
      modifies this`sessions, this`outbox
      ensures Valid()
      ensures sessions == old(sessions)[id := Session(Field(data, "alias"), Field(data, "rank"))]
      ensures history == old(history) && typing == old(typing)
      ensures outbox == old(outbox) + [Emission(ToOnly(id), ChannelHistory(DEFAULT_CHANNEL, Some(history[DEFAULT_CHANNEL])))]
    {
      sessions := sessions[id := Session(Field(data, "alias"), Field(data, "rank"))];
      outbox := outbox + [Emission(ToOnly(id), ChannelHistory(DEFAULT_CHANNEL, Some(history[DEFAULT_CHANNEL])))];
    }

    /** 'switch channel': send the requesting socket alone the history of the
        named channel (`None` for an unknown one). */
    method SwitchChannel(id: SocketId, channel: string)
      requires Valid()
      modifies this`outbox
      ensures Valid()
      ensures history == old(history) && typing == old(typing) && sessions == old(sessions)
      ensures outbox == old(outbox) + [Emission(ToOnly(id), ChannelHistory(channel, HistoryOf(channel)))]
      ensures HistoryOf(channel).Some? <==> channel in INITIAL_CHANNELS
    {
      outbox := outbox + [Emission(ToOnly(id), ChannelHistory(channel, HistoryOf(channel)))];
    }

    /** 'chat message': stamp the message, append it to its channel's history
        with eviction, and broadcast it to every socket but the sender. A message
        naming no known channel fails before anything is stored or sent. */
    method ChatMessage(id: SocketId, msg: Payload, timestamp: string) returns (stored: bool)
      requires Valid()
      modifies this`history, this`outbox
      ensures Valid()
      ensures stored <==> Field(msg, "channel").Some? && msg["channel"] in INITIAL_CHANNELS
      ensures stored ==>
        history == old(history)[msg["channel"] := AppendBounded(old(history)[msg["channel"]], Stamp(msg, timestamp))]
      ensures stored ==> outbox == old(outbox) + [Emission(ToAllExcept(id), Chat(Stamp(msg, timestamp)))]
      ensures !stored ==> history == old(history) && outbox == old(outbox)
      ensures typing == old(typing) && sessions == old(sessions)
    {
      var completeMsg := Stamp(msg, timestamp);
      match Field(msg, "channel")
      case None =>
        stored := false;
      case Some(channel) =>
        if channel !in history {
          stored := false;
        } else {
          history := history[channel := AppendBounded(history[channel], completeMsg)];
          outbox := outbox + [Emission(ToAllExcept(id), Chat(completeMsg))];
          stored := true;
        }
    }

    /** 'user typing': record who is typing where and broadcast the whole map to
        every socket but the typist. */
    method UserTyping(id: SocketId, data: Payload)
      requires Valid()
      modifies this`typing, this`outbox
      ensures Valid()
      ensures typing == old(typing)[id := TypingEntry(UsernameOf(id), Field(data, "channel"))]
      ensures history == old(history) && sessions == old(sessions)
      ensures outbox == old(outbox) + [Emission(ToAllExcept(id), TypingBroadcast(typing))]
    {
      typing := typing[id := TypingEntry(UsernameOf(id), Field(data, "channel"))];
      outbox := outbox + [Emission(ToAllExcept(id), TypingBroadcast(typing))];
    }

    /** 'user stopped typing': drop the sender's entry, if any, and broadcast the
        map to every other socket. */
    method StoppedTyping(id: SocketId)
      requires Valid()
      modifies this`typing, this`outbox
      ensures Valid()
      ensures typing == old(typing) - {id}
      ensures id !in old(typing) ==> typing == old(typing)
      ensures history == old(history) && sessions == old(sessions)
      ensures outbox == old(outbox) + [Emission(ToAllExcept(id), TypingBroadcast(typing))]
    {
      typing := typing - {id};
      outbox := outbox + [Emission(ToAllExcept(id), TypingBroadcast(typing))];
    }

    /** 'disconnect': drop the socket's typing entry, if any, and broadcast the
        map to every other socket. */
    method Disconnect(id: SocketId)
      requires Valid()
      modifies this`typing, this`outbox
      ensures Valid()
      ensures typing == old(typing) - {id}
      ensures id !in old(typing) ==> typing == old(typing)
      ensures history == old(history) && sessions == old(sessions)
      ensures outbox == old(outbox) + [Emission(ToAllExcept(id), TypingBroadcast(typing))]
    {
      typing := typing - {id};
      outbox := outbox + [Emission(ToAllExcept(id), TypingBroadcast(typing))];
    }
  }

  /** One socket posts "hi" to 'general' on a fresh server: the other socket
      receives the stamped message, the sender receives nothing, and the
      message is stored as the channel's only entry. */
  method GeneralChatScenario(sender: SocketId, other: SocketId, timestamp: string)
    returns (sent: seq<Emission>, general: seq<Payload>)
    requires sender != other
    ensures |sent| == 1 && Reaches(sent[0].to, other) && !Reaches(sent[0].to, sender)
    ensures sent[0].event.Chat?
    ensures var m := sent[0].event.message;
      Field(m, "channel") == Some("general") && Field(m, "body") == Some("hi") &&
      Field(m, TIMESTAMP_KEY) == Some(timestamp)
    ensures general == [sent[0].event.message]
  {
    var server := new ChatServer();
    var stored := server.ChatMessage(sender, map["channel" := "general", "body" := "hi"], timestamp);
    sent := server.outbox;
    general := server.history["general"];
  }

  /** A socket that never joined starts and then stops typing on a fresh
      server: its entry is recorded without a name, both broadcasts skip it,
      and the typing map ends as it began. */
  method TypingScenario(typist: SocketId, channel: string)
    returns (sent: seq<Emission>, typing: map<SocketId, TypingEntry>)
    ensures |sent| == 2
    ensures sent[0] == Emission(ToAllExcept(typist), TypingBroadcast(map[typist := TypingEntry(None, Some(channel))]))
    ensures sent[1] == Emission(ToAllExcept(typist), TypingBroadcast(map[]))
    ensures typing == map[]
  {
    var server := new ChatServer();
    server.UserTyping(typist, map["channel" := channel]);
    server.StoppedTyping(typist);
    sent := server.outbox;
    typing := server.typing;
  }

  /** MAX_HISTORY + 1 messages posted to 'general' on a fresh server: the first
      is evicted and the channel holds the other stamped messages in arrival
      order, the last one newest. */
  method FifoScenario(sender: SocketId, msgs: seq<Payload>, timestamps: seq<string>)
    returns (general: seq<Payload>)
    requires |msgs| == |timestamps| == MAX_HISTORY + 1
    requires forall i :: 0 <= i < |msgs| ==> Field(msgs[i], "channel") == Some(DEFAULT_CHANNEL)
    ensures |general| == MAX_HISTORY
    ensures forall k :: 0 <= k < MAX_HISTORY ==> general[k] == Stamp(msgs[k + 1], timestamps[k + 1])
  {
    var server := new ChatServer();
    ghost var stamped := seq(|msgs|, i requires 0 <= i < |msgs| => Stamp(msgs[i], timestamps[i]));
    var i := 0;
    while i < |msgs|
      invariant 0 <= i <= |msgs|
      invariant server.Valid()
      invariant Feed(server.history[DEFAULT_CHANNEL], stamped[i..]) == Feed([], stamped)
    {
      var stored := server.ChatMessage(sender, msgs[i], timestamps[i]);
      assert stamped[i..][1..] == stamped[i + 1..];
      i := i + 1;
    }
    FifoEviction(stamped);
    general := server.history[DEFAULT_CHANNEL];
  }
}
