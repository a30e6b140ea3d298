/**
  The TeamSpeak side of the bot: the private-chat command handler and the
  presence rules run when clients move or are kicked.

  Every call into the host's function table becomes an `Action` the handler
  emits, in order, and every host query the handler makes becomes an input
  carrying the query's result (None when the query failed). A
  `ChangeStation(k)` action stands for the call change_station(connection, k)
  into the D-Bus module (DBusModule.TrackStore.ChangeStation), and a
  `ReadSongName` action for the call GetSongName(connection)
  (DBusModule.GetSongName), whose answer is the handler's songName input.
*/
module Plugin {
  import opened Options
  import opened Stations

  /** The channel the bot returns to when it is left alone or is kicked. */
  const DEFAULT_CHANNEL_ID: nat := 12304
  /** TextMessageTarget_CLIENT: a private message. */
  const TARGET_CLIENT: nat := 1
  /** STATUS_CONNECTION_ESTABLISHED: the session is fully set up. */
  const STATUS_CONNECTION_ESTABLISHED: int := 4

  datatype Codec = OpusVoice | OpusMusic

  /** The private replies the bot sends, by kind. */
  datatype Reply =
    | HelpText                      // the list of commands
    | NowPlaying(song: string)      // "[b]Currently playing:[/b] [i]<song>[/i]"
    | SongUnavailable               // the song name could not be read
    | Tuning(station: Station)      // "Tuning into <station> station!"
    | UnknownCommand                // "Unknown command. Type !list or !help ..."
    | NotInMyChannel(name: string)  // "Sorry <name>, I can only respond to clients in the same room."

  /** Calls the handlers make into the host or into the D-Bus module. */
  datatype Action =
    | SendPrivateText(to: nat, reply: Reply)
    | ChangeStation(stationIndex: nat)
    | ReadSongName
    | RequestClientMove(client: nat, channel: nat)
    | SetChannelCodec(channel: nat, codec: Codec)

  /** The text-message handler's integer result and the calls it made. */
  datatype Handled = Handled(result: int, actions: seq<Action>)

  /** What a text message asks for, by exact string comparison. */
  datatype Command = Help | Song | Tune(station: Station) | Unknown

  // ---------------------------------------------------------------------------
  // The command table

  /** The chat command of each station, indexed by the station's value. */
  const StationCommands: seq<string> := [
    "!00", "!breaks", "!slap_house", "!house",  // ClubHits, Breaks, SlapHouse, House
    "!deep_organic_house", "!bassline", "!future_garage", "!bnj",  // DeepOrganicHouse, Bassline, FutureGarage, BassAndJackingHouse
    "!fb", "!cnth", "!ew", "!cb",  // FutureBass, ChillAndTropicalHouse, ElectroSwing, ClubDubstep
    "!vl", "!vc", "!ld", "!ldnb",  // VocalLounge, VocalChillout, LiquidDubstep, LiquidDnB
    "!lh", "!jung", "!jh", "!dub",  // LatinHouse, Jungle, JazzHouse, Dubstep
    "!drum", "!chill", "!ab", "!cs",  // Drumstep, Chillout, AtmosphericBreaks, Chillstep
    "!dnb", "!mix", "!lounge", "!ambient",  // DrumAndBass, DJMixes, Lounge, Ambient
    "!funky", "!space", "!cd", "!disco"  // FunkyHouse, SpaceDreams, ChilloutDreams, DiscoHouse
  ]

  function CommandText(s: Station): string
  {
    StationCommands[s]
  }

  /** The commands the handler compares against for the enumerators ClubHits to BassAndJackingHouse. */
  lemma NamedStationCommands1()
    ensures CommandText(ClubHits) == "!00" && CommandText(Breaks) == "!breaks"
    ensures CommandText(SlapHouse) == "!slap_house" && CommandText(House) == "!house"
    ensures CommandText(DeepOrganicHouse) == "!deep_organic_house" && CommandText(Bassline) == "!bassline"
    ensures CommandText(FutureGarage) == "!future_garage" && CommandText(BassAndJackingHouse) == "!bnj"
  {
  }

  /** The commands the handler compares against for the enumerators FutureBass to LiquidDnB. */
  lemma NamedStationCommands2()
    ensures CommandText(FutureBass) == "!fb" && CommandText(ChillAndTropicalHouse) == "!cnth"
    ensures CommandText(ElectroSwing) == "!ew" && CommandText(ClubDubstep) == "!cb"
    ensures CommandText(VocalLounge) == "!vl" && CommandText(VocalChillout) == "!vc"
    ensures CommandText(LiquidDubstep) == "!ld" && CommandText(LiquidDnB) == "!ldnb"
  {
  }

  /** The commands the handler compares against for the enumerators LatinHouse to Chillstep. */
  lemma NamedStationCommands3()
    ensures CommandText(LatinHouse) == "!lh" && CommandText(Jungle) == "!jung"
    ensures CommandText(JazzHouse) == "!jh" && CommandText(Dubstep) == "!dub"
    ensures CommandText(Drumstep) == "!drum" && CommandText(Chillout) == "!chill"
    ensures CommandText(AtmosphericBreaks) == "!ab" && CommandText(Chillstep) == "!cs"
  {
  }

  /** The commands the handler compares against for the enumerators DrumAndBass to DiscoHouse. */
  lemma NamedStationCommands4()
    ensures CommandText(DrumAndBass) == "!dnb" && CommandText(DJMixes) == "!mix"
    ensures CommandText(Lounge) == "!lounge" && CommandText(Ambient) == "!ambient"
    ensures CommandText(FunkyHouse) == "!funky" && CommandText(SpaceDreams) == "!space"
    ensures CommandText(ChilloutDreams) == "!cd" && CommandText(DiscoHouse) == "!disco"
  {
  }

  /**
    The handler's chain of station comparisons from position k on: the first
    station whose command equals the message. The chain tests the stations in
    declaration order, as the handler's if/else chain does.
  */
  function StationFrom(message: string, k: nat): Option<Station>
    decreases StationCount - k
  {
    if k >= StationCount then None
    else if message == StationCommands[k] then Some(k as Station)
    else StationFrom(message, k + 1)
  }

  /** The whole dispatch chain: help, then song, then the stations, else unknown. */
  function CommandOf(message: string): Command
  {
    if message == "!list" || message == "!help" then Help
    else if message == "!song" then Song
    else match StationFrom(message, 0)
      case Some(s) => Tune(s)
      case None => Unknown
  }

  /** A station found from k on is at or after k and its command is the message. */
  lemma {:induction false} StationFromSound(message: string, k: nat)
    ensures StationFrom(message, k).Some? ==>
      k <= StationFrom(message, k).value as int && message == CommandText(StationFrom(message, k).value)
    ensures StationFrom(message, k).None? <==> forall j :: k <= j < StationCount ==> message != StationCommands[j]
    decreases StationCount - k
  {
    if k < StationCount && message != StationCommands[k] {
      StationFromSound(message, k + 1);
    }
  }

  /** The chain reaches a station when no earlier one in it has the same command. */
  lemma {:induction false} StationFromReaches(s: Station, k: nat)
    requires k <= s as int
    requires forall j :: k <= j < s as int ==> StationCommands[j] != StationCommands[s]
    ensures StationFrom(CommandText(s), k) == Some(s)
    decreases s as int - k
  {
    if k < s as int {
      StationFromReaches(s, k + 1);
    }
  }

  /** The first sixteen commands differ from every earlier command and from the fixed commands. */
  lemma CommandsDistinctLow(s: Station)
    requires s as int < 16
    ensures forall j :: 0 <= j < s as int ==> StationCommands[j] != StationCommands[s]
    ensures StationCommands[s] != "!list" && StationCommands[s] != "!help" && StationCommands[s] != "!song"
  {
  }

  /** The last sixteen commands differ from every earlier command and from the fixed commands. */
  lemma CommandsDistinctHigh(s: Station)
    requires 16 <= s as int
    ensures forall j :: 0 <= j < s as int ==> StationCommands[j] != StationCommands[s]
    ensures StationCommands[s] != "!list" && StationCommands[s] != "!help" && StationCommands[s] != "!song"
  {
  }

  /** Each station's command selects that station: every station is reachable by chat. */
  lemma CommandRoundTrip(s: Station)
    ensures CommandOf(CommandText(s)) == Tune(s)
  {
    if s as int < 16 { CommandsDistinctLow(s); } else { CommandsDistinctHigh(s); }
    StationFromReaches(s, 0);
  }

  /** Only a station's own command selects it. */
  lemma TuneOnlyByCommandText(message: string, s: Station)
    requires CommandOf(message) == Tune(s)
    ensures message == CommandText(s)
  {
    StationFromSound(message, 0);
  }

  /** Distinct stations have distinct commands, so the command table is one-to-one. */
  lemma CommandTextInjective(a: Station, b: Station)
    requires CommandText(a) == CommandText(b)
    ensures a == b
  {
    CommandRoundTrip(a);
    CommandRoundTrip(b);
  }

  /** A message is unknown exactly when it is none of the help, song or station commands. */
  lemma UnknownExactly(message: string)
    ensures CommandOf(message) == Unknown <==>
      message != "!list" && message != "!help" && message != "!song" &&
      forall s: Station :: message != CommandText(s)
  {
    StationFromSound(message, 0);
    if CommandOf(message) == Unknown {
      forall s: Station ensures message != CommandText(s) {
        CommandRoundTrip(s);
      }
    } else if message != "!list" && message != "!help" && message != "!song" {
      TuneOnlyByCommandText(message, CommandOf(message).station);
    }
  }

  /** The station changes among a handler's actions, in order. */
  function StationChanges(actions: seq<Action>): (r: seq<nat>)
    ensures |r| <= |actions|
    ensures forall k :: k in r <==> ChangeStation(k) in actions
  {
    if actions == [] then []
    else (if actions[0].ChangeStation? then [actions[0].stationIndex] else []) + StationChanges(actions[1..])
  }

  // ---------------------------------------------------------------------------
  // Presence rules

  /** The number of client IDs before the terminating 0 of a zero-terminated client list. */
  function ClientCount(clients: seq<nat>): nat
  {
    if clients == [] || clients[0] == 0 then 0 else 1 + ClientCount(clients[1..])
  }

  /** ClientCount is the index of the first 0. */
  lemma {:induction false} ClientCountIsTerminator(clients: seq<nat>)
    requires 0 in clients
    ensures ClientCount(clients) < |clients| && clients[ClientCount(clients)] == 0
    ensures forall j :: 0 <= j < ClientCount(clients) ==> clients[j] != 0
  {
    if clients[0] != 0 {
      assert 0 in clients[1..] by {
        var z :| 0 <= z < |clients| && clients[z] == 0;
        assert clients[1..][z - 1] == 0;
      }
      ClientCountIsTerminator(clients[1..]);
    }
  }

  /** The handler's counting loop over the zero-terminated list the host returns. */
  method CountClients(clients: seq<nat>) returns (count: nat)
    requires 0 in clients
    ensures count < |clients| && clients[count] == 0
    ensures forall j :: 0 <= j < count ==> clients[j] != 0
  {
    count := 0;
    while clients[count] != 0
      invariant count < |clients|
      invariant forall j :: 0 <= j < count ==> clients[j] != 0
      invariant exists z :: count <= z < |clients| && clients[z] == 0
      decreases |clients| - count
    {
      count := count + 1;
    }
  }

  /** Any two indices that satisfy ClientCount's characterisation are equal. */
  lemma TerminatorUnique(clients: seq<nat>, n: nat)
    requires 0 in clients && n < |clients| && clients[n] == 0
    requires forall j :: 0 <= j < n ==> clients[j] != 0
    ensures n == ClientCount(clients)
  {
    ClientCountIsTerminator(clients);
  }

  /** The codec switch after the bot itself changed channel: voice for the old one if there was one, music for the new one. */
  function CodecSwitch(oldChannelID: nat, newChannelID: nat): (r: seq<Action>)
    ensures |r| == if oldChannelID != 0 then 2 else 1
    ensures r[|r| - 1] == SetChannelCodec(newChannelID, OpusMusic)
    ensures SetChannelCodec(oldChannelID, OpusVoice) in r <==> oldChannelID != 0
  {
    (if oldChannelID != 0 then [SetChannelCodec(oldChannelID, OpusVoice)] else [])
      + [SetChannelCodec(newChannelID, OpusMusic)]
  }

  // ---------------------------------------------------------------------------
  // The plugin's global state and its event handlers

  class PluginState {
    var currentChannelID: nat
    var myClientID: nat
    var currentConnHandlerID: nat

    /** The globals' static initial values. */
    constructor ()
      ensures currentChannelID == 0 && myClientID == 0 && currentConnHandlerID == 0
    {
      currentChannelID := 0;
      myClientID := 0;
      currentConnHandlerID := 0;
    }

    /** ts3plugin_onConnectStatusChangeEvent: learn the bot's client ID and channel once connected. */
    method OnConnectStatusChangeEvent(serverConnectionHandlerID: nat, newStatus: int,
                                      clientIdQuery: Option<nat>, channelQuery: Option<nat>)
      modifies this
      ensures newStatus != STATUS_CONNECTION_ESTABLISHED ==>
        currentConnHandlerID == old(currentConnHandlerID) && myClientID == old(myClientID) &&
        currentChannelID == old(currentChannelID)
      ensures newStatus == STATUS_CONNECTION_ESTABLISHED ==>
        currentConnHandlerID == serverConnectionHandlerID &&
        myClientID == (if clientIdQuery.Some? then clientIdQuery.value else old(myClientID)) &&
        currentChannelID == (if clientIdQuery.Some? && channelQuery.Some? then channelQuery.value
                             else old(currentChannelID))
    {
      if newStatus == STATUS_CONNECTION_ESTABLISHED {
        currentConnHandlerID := serverConnectionHandlerID;
        if clientIdQuery.None? {
          return;
        }
        myClientID := clientIdQuery.value;
        if channelQuery.Some? {
          currentChannelID := channelQuery.value;
        }
      }
    }

    /** A private message from another client that the handler does not filter out. */
    predicate Accepted(targetMode: nat, fromID: nat, ffIgnored: int, senderChannel: Option<nat>)
      reads this
    {
      fromID != myClientID && ffIgnored == 0 && targetMode == TARGET_CLIENT && senderChannel.Some?
    }

    /**
      ts3plugin_onTextMessageEvent. senderChannel is the host's answer to the
      query for the sender's channel; songName is what the GetSongName call
      (the ReadSongName action) returns, and is consulted only for "!song".
    */
    function OnTextMessageEvent(targetMode: nat, fromID: nat, fromName: string, message: string,
                                ffIgnored: int, senderChannel: Option<nat>, songName: Option<string>): (r: Handled)
      reads this
      ensures r.result == 0 || r.result == 1
      ensures r.result == 1 <==> !Accepted(targetMode, fromID, ffIgnored, senderChannel)
      ensures r.result == 1 ==> r.actions == []
      ensures r.result == 0 ==> 1 <= |r.actions| <= 2
      ensures r.result == 0 ==>
        (r.actions[0].SendPrivateText? && r.actions[0].to == fromID) ||
        (r.actions[0] == ReadSongName && |r.actions| == 2 && r.actions[1].SendPrivateText? && r.actions[1].to == fromID)
      ensures ReadSongName in r.actions <==>
        r.result == 0 && senderChannel.Some? && senderChannel.value == currentChannelID && CommandOf(message) == Song
      ensures |StationChanges(r.actions)| <= 1
    {
      if fromID == myClientID then Handled(1, [])
      else if ffIgnored != 0 then Handled(1, [])
      else if targetMode != TARGET_CLIENT then Handled(1, [])
      else if senderChannel.None? then Handled(1, [])
      else if currentChannelID != senderChannel.value then
        Handled(0, [SendPrivateText(fromID, NotInMyChannel(fromName))])
      else
        var actions := match CommandOf(message)
          case Help => [SendPrivateText(fromID, HelpText)]
          case Song =>
            if songName.Some? then [ReadSongName, SendPrivateText(fromID, NowPlaying(songName.value))]
            else [ReadSongName, SendPrivateText(fromID, SongUnavailable)]
          case Tune(s) => [SendPrivateText(fromID, Tuning(s)), ChangeStation(s as nat)]
          case Unknown => [SendPrivateText(fromID, UnknownCommand)];
        Handled(0, actions)
    }

    /** Messages from the bot itself, ignored messages and non-private messages return 1 and do nothing. */
    lemma FilteredMessagesDoNothing(targetMode: nat, fromID: nat, fromName: string, message: string,
                                    ffIgnored: int, senderChannel: Option<nat>, songName: Option<string>)
      requires fromID == myClientID || ffIgnored != 0 || targetMode != TARGET_CLIENT || senderChannel.None?
      ensures OnTextMessageEvent(targetMode, fromID, fromName, message, ffIgnored, senderChannel, songName)
        == Handled(1, [])
    {
    }

    /** A sender in another channel gets exactly the "sorry" reply and no command runs. */
    lemma OtherChannelGetsSorry(targetMode: nat, fromID: nat, fromName: string, message: string,
                                ffIgnored: int, senderChannel: Option<nat>, songName: Option<string>)
      requires Accepted(targetMode, fromID, ffIgnored, senderChannel)
      requires senderChannel.value != currentChannelID
      ensures OnTextMessageEvent(targetMode, fromID, fromName, message, ffIgnored, senderChannel, songName)
        == Handled(0, [SendPrivateText(fromID, NotInMyChannel(fromName))])
    {
    }

    /** "!list" and "!help" both send the help text and change no station. */
    lemma HelpCommands(targetMode: nat, fromID: nat, fromName: string, message: string,
                       ffIgnored: int, senderChannel: Option<nat>, songName: Option<string>)
      requires Accepted(targetMode, fromID, ffIgnored, senderChannel)
      requires senderChannel.value == currentChannelID
      requires message == "!list" || message == "!help"
      ensures OnTextMessageEvent(targetMode, fromID, fromName, message, ffIgnored, senderChannel, songName)
        == Handled(0, [SendPrivateText(fromID, HelpText)])
    {
    }

    /** "!song" reads the song name over the bus, then relays it, or an apology when there is none. */
    lemma SongCommand(targetMode: nat, fromID: nat, fromName: string,
                      ffIgnored: int, senderChannel: Option<nat>, songName: Option<string>)
      requires Accepted(targetMode, fromID, ffIgnored, senderChannel)
      requires senderChannel.value == currentChannelID
      ensures OnTextMessageEvent(targetMode, fromID, fromName, "!song", ffIgnored, senderChannel, songName)
        == Handled(0, [ReadSongName,
                       SendPrivateText(fromID, if songName.Some? then NowPlaying(songName.value) else SongUnavailable)])
    {
    }

    /** Each station command announces its station and changes to exactly that station's index. */
    lemma StationCommandDispatch(targetMode: nat, fromID: nat, fromName: string, s: Station,
                                 ffIgnored: int, senderChannel: Option<nat>, songName: Option<string>)
      requires Accepted(targetMode, fromID, ffIgnored, senderChannel)
      requires senderChannel.value == currentChannelID
      ensures OnTextMessageEvent(targetMode, fromID, fromName, CommandText(s), ffIgnored, senderChannel, songName)
        == Handled(0, [SendPrivateText(fromID, Tuning(s)), ChangeStation(s as nat)])
    {
      CommandRoundTrip(s);
    }

    /** A station changes only through that station's command. */
    lemma StationChangeOnlyByCommand(targetMode: nat, fromID: nat, fromName: string, message: string,
                                     ffIgnored: int, senderChannel: Option<nat>, songName: Option<string>, k: nat)
      requires ChangeStation(k) in
        OnTextMessageEvent(targetMode, fromID, fromName, message, ffIgnored, senderChannel, songName).actions
      ensures k < StationCount && message == CommandText(k as Station)
    {
      TuneOnlyByCommandText(message, CommandOf(message).station);
    }

    /** Any other message gets only the "Unknown command" reply. */
    lemma UnknownCommandReply(targetMode: nat, fromID: nat, fromName: string, message: string,
                              ffIgnored: int, senderChannel: Option<nat>, songName: Option<string>)
      requires Accepted(targetMode, fromID, ffIgnored, senderChannel)
      requires senderChannel.value == currentChannelID
      requires message != "!list" && message != "!help" && message != "!song"
      requires forall s: Station :: message != CommandText(s)
      ensures OnTextMessageEvent(targetMode, fromID, fromName, message, ffIgnored, senderChannel, songName)
        == Handled(0, [SendPrivateText(fromID, UnknownCommand)])
    {
      UnknownExactly(message);
    }

    /**
      ts3plugin_onClientMoveEvent. When the bot moved, it switches codecs and
      records its new channel. When another client moved, it counts the
      clients of its own channel (channelClients is the host's answer to that
      query) and asks to be moved to the default channel exactly when it is
      alone there and not already in the default channel.
    */
    method OnClientMoveEvent(clientID: nat, oldChannelID: nat, newChannelID: nat,
                             channelClients: Option<seq<nat>>) returns (actions: seq<Action>)
      requires channelClients.Some? ==> 0 in channelClients.value
      modifies this
      ensures myClientID == old(myClientID) && currentConnHandlerID == old(currentConnHandlerID)
      ensures clientID == myClientID ==>
        currentChannelID == newChannelID && actions == CodecSwitch(oldChannelID, newChannelID)
      ensures clientID != myClientID ==> currentChannelID == old(currentChannelID)
      ensures clientID != myClientID ==>
        actions == if channelClients.Some? && ClientCount(channelClients.value) == 1
                      && currentChannelID != DEFAULT_CHANNEL_ID
                   then [RequestClientMove(myClientID, DEFAULT_CHANNEL_ID)] else []
    {
      if clientID == myClientID {
        actions := CodecSwitch(oldChannelID, newChannelID);
        currentChannelID := newChannelID;
      } else {
        if channelClients.None? {
          return [];
        }
        var clientCount := CountClients(channelClients.value);
        TerminatorUnique(channelClients.value, clientCount);
        if clientCount == 1 && currentChannelID != DEFAULT_CHANNEL_ID {
          actions := [RequestClientMove(myClientID, DEFAULT_CHANNEL_ID)];
        } else {
          actions := [];
        }
      }
    }

    /** ts3plugin_onClientMoveMovedEvent: when the bot was moved, it records its new channel and switches codecs. */
    method OnClientMoveMovedEvent(clientID: nat, oldChannelID: nat, newChannelID: nat) returns (actions: seq<Action>)
      modifies this
      ensures myClientID == old(myClientID) && currentConnHandlerID == old(currentConnHandlerID)
      ensures clientID == myClientID ==>
        currentChannelID == newChannelID && actions == CodecSwitch(oldChannelID, newChannelID)
      ensures clientID != myClientID ==> currentChannelID == old(currentChannelID) && actions == []
    {
      if clientID == myClientID {
        currentChannelID := newChannelID;
        actions := CodecSwitch(oldChannelID, newChannelID);
      } else {
        actions := [];
      }
    }

    /**
      ts3plugin_onClientKickFromChannelEvent: whichever client was kicked, the
      old channel goes back to the voice codec if there was one, the bot asks
      to be moved to the default channel, and that channel gets the music
      codec. The recorded channel is not updated here.
    */
    function OnClientKickFromChannelEvent(clientID: nat, oldChannelID: nat, newChannelID: nat): (r: seq<Action>)
      reads this
      ensures |r| == if oldChannelID != 0 then 3 else 2
      ensures SetChannelCodec(oldChannelID, OpusVoice) in r <==> oldChannelID != 0
      ensures r[|r| - 2] == RequestClientMove(myClientID, DEFAULT_CHANNEL_ID)
      ensures r[|r| - 1] == SetChannelCodec(DEFAULT_CHANNEL_ID, OpusMusic)
    {
      (if oldChannelID != 0 then [SetChannelCodec(oldChannelID, OpusVoice)] else [])
        + [RequestClientMove(myClientID, DEFAULT_CHANNEL_ID), SetChannelCodec(DEFAULT_CHANNEL_ID, OpusMusic)]
    }
  }
}
