# Music bot: D-Bus track control and TeamSpeak command handling, modelled in Dafny

The music bot is a TeamSpeak 3 client plugin that drives a VLC media player
over D-Bus. It has two parts, and this project models both:

- **The D-Bus client** (`src/dbus_module.h`). It reads the MPRIS2 TrackList
  "Tracks" property through `org.freedesktop.DBus.Properties.Get`. That call
  fills the process-wide track list (`track_list`/`track_count`). It sends
  `TrackList.GoTo` with a stored track handle to change station. It reads the
  Player "Metadata" property to find the `"vlc:nowplaying"` song name.
  `RADIO_STATION` names 32 track-list positions.
- **The plugin callbacks** (`src/plugin.c`):
  - the private-chat handler filters messages, then maps exact command
    strings to help, song, one of 32 stations, or "unknown";
  - the client-move and moved handlers keep the bot's recorded channel up
    to date and switch channel codecs when the bot itself changes channel;
    the move handler also sends the bot back to the default channel when it
    is left alone there;
  - the kick handler, whichever client was kicked, switches codecs and
    requests a move of the bot to the default channel, without touching the
    recorded channel.

Files:

- `options.dfy`: the `Option` wrapper.
- `dbus_value.dfy`: the D-Bus payload as a recursive `Value` datatype, with
  the type codes a message iterator reports. It follows the "Type System"
  section of the D-Bus Specification.
- `stations.dfy`: `RADIO_STATION` as a newtype `Station` of the integers
  0..31, with one named constant per enumerator in declaration order. "Every
  station value is below 32" therefore holds by type.
- `dbus_module.dfy`: the decoders as spec functions (`TracksOf`, `SongOf`).
  The class `TrackStore` holds the two globals. `GetTrackList` and
  `ChangeStation` are its methods. `GetSongName` is a loop with an early
  `break`, proved equal to `SongOf`.
- `plugin.dfy`: the command table and dispatch chain, the client-counting
  loop, and the class `PluginState` holding `currentChannelID`, `myClientID`
  and `currentConnHandlerID`, with the event handlers.

How the outside world is modelled:

- **Bus calls.** Each bus operation returns the `MethodCall` it sent. It takes
  as a parameter an `Exchange` saying what the bus did with the call. There
  are three cases: the message could not be allocated, the call came back with
  a D-Bus error, or a reply body came back.
- **`handle_dbus_error`.** This function ends the process. In the model,
  `GetTrackList` and `ChangeStation` return `Exited(reason)` instead, with no
  state change after that point.
- **TeamSpeak host calls** become `Action`s that the handler emits in order:
  `SendPrivateText`, `RequestClientMove`, `SetChannelCodec`. The calls into
  the D-Bus module are actions too: `ChangeStation(k)` for `change_station`
  and `ReadSongName` for `GetSongName`. The results of host queries are `Option` inputs, with
  `None` meaning the query failed.

### Behaviour of the code worth noting

- `RADIO_STATION` has 32 enumerators, with the values 0..31.
- `get_track_list` never resets `track_count`, so calling it again **appends**
  to the list instead of replacing it. `GetTrackList` states this:
  `trackList == old(trackList) + decoded`.
- A bus error or a failed message allocation in `get_track_list` or
  `change_station` ends the whole process. It does not just abandon the
  request. `GetSongName` is the exception: there, such failures give `None`.
- A failed enumeration therefore ends the process and leaves anything already
  stored in the list in place.

## Model

| member | source | states |
|---|---|---|
| DBusValue.TypeCode | src/dbus_module.h:87-93 | The iterator's type code identifies the value's kind: string, object path, array, dict entry and variant each have their own code, and no value reports INVALID |
| DBusValue.ArgType | src/dbus_module.h:93-98 | An iterator reports INVALID exactly when it has run past the last sibling, so the object-path loop also stops at the end of the array |
| DBusModule.LeadingPathsIsMaximalPrefix | src/dbus_module.h:93-99 | The decoded handles are the object paths at the front of the array, in order, and the run ends at the array's end or at the first element that is not an object path |
| DBusModule.LeadingPathsStopsAtMismatch | src/dbus_module.h:93-99 | Elements after the first non-object-path element never reach the result, whatever they are |
| DBusModule.TracksTruncateAtFirstMismatch | src/dbus_module.h:86-99 | variant(array(o"a", o"b", s"c", o"d")) yields ["a","b"]; variant(array()) yields []; a top-level value that is not a variant yields [] |
| DBusModule.TrackStore.constructor | src/dbus_module.h:10-11 | The list and the count start empty |
| DBusModule.TrackStore.GetTrackList | src/dbus_module.h:56-105 | Sends Properties.Get(TrackList, "Tracks") unless allocation fails; a failed call exits with the list unchanged; otherwise the decoded handles are appended after the existing ones, which stay unchanged, the count grows by exactly their number, and new entry j sits at old count + j; a reply that is not variant→array appends nothing |
| DBusModule.TrackStore.ChangeStation | src/dbus_module.h:107-142 | An index at or past the count sends nothing and reports InvalidIndex; otherwise exactly one GoTo is sent (unless allocation fails) whose single object-path argument is trackList[index]; it completes exactly when the bus replied and exits otherwise; the list is only read |
| DBusModule.FindSongFirstMatch | src/dbus_module.h:187-203 | If the scan reaches entry k (every earlier element is a dict entry that does not qualify) and entry k is {"vlc:nowplaying": variant(string s)}, the result is s: the first match wins |
| DBusModule.FindSongHasWitness | src/dbus_module.h:187-208 | Any song found comes from a qualifying entry the scan reaches; entries with a non-string key, another key or a non-string value are passed over |
| DBusModule.FindSongNone | src/dbus_module.h:187-219 | No song is found exactly when no entry the scan reaches qualifies |
| DBusModule.GetSongName | src/dbus_module.h:144-221 | Sends Properties.Get(Player, "Metadata") unless allocation fails; returns None on allocation failure, on a bus error, on a body that is not variant→array, and when no entry qualifies; otherwise it returns the first qualifying entry's string, as SongOf defines |
| DBusModule.SongSkipsOtherKeys | src/dbus_module.h:180-208 | Worked cases: a lone "vlc:nowplaying" entry gives its song; a "title" entry and a "vlc:nowplaying" entry holding a non-string are skipped before a later match; a missing key or a non-variant body gives None |
| Plugin.NamedStationCommands1 | src/plugin.c:405-428 | Each named enumerator from ClubHits to BassAndJackingHouse is paired with the command string the handler compares against before calling change_station with that enumerator |
| Plugin.NamedStationCommands2 | src/plugin.c:429-452 | Each named enumerator from FutureBass to LiquidDnB is paired with the command string the handler compares against before calling change_station with that enumerator |
| Plugin.NamedStationCommands3 | src/plugin.c:453-476 | Each named enumerator from LatinHouse to Chillstep is paired with the command string the handler compares against before calling change_station with that enumerator |
| Plugin.NamedStationCommands4 | src/plugin.c:477-501 | Each named enumerator from DrumAndBass to DiscoHouse is paired with the command string the handler compares against before calling change_station with that enumerator |
| Plugin.CommandsDistinctLow | src/plugin.c:354-450 | The first sixteen station commands differ from every earlier one and from "!list", "!help" and "!song" |
| Plugin.CommandsDistinctHigh | src/plugin.c:354-501 | The last sixteen station commands differ from every earlier one and from "!list", "!help" and "!song" |
| Plugin.StationFromSound | src/plugin.c:405-501 | A station the comparison chain selects is one whose command equals the message, and the chain selects none exactly when no station's command equals the message |
| Plugin.CommandRoundTrip | src/plugin.c:405-501 | Every one of the 32 stations is selected by its own command: the command mapping covers all enum values |
| Plugin.TuneOnlyByCommandText | src/plugin.c:405-501 | A message selects a station only if it is exactly that station's command |
| Plugin.CommandTextInjective | src/plugin.c:405-501 | Distinct stations have distinct commands |
| Plugin.UnknownExactly | src/plugin.c:354-505 | A message falls through to "unknown" exactly when it is none of "!list", "!help", "!song" and the 32 station commands |
| Plugin.ClientCountIsTerminator | src/plugin.c:277-280 | On a zero-terminated list the client count is the index of the first 0: every earlier ID is nonzero |
| Plugin.TerminatorUnique | src/plugin.c:277-280 | Any index with that property equals the client count |
| Plugin.CountClients | src/plugin.c:277-280 | The counting loop returns the number of entries before the first zero ID |
| Plugin.CodecSwitch | src/plugin.c:249-266 | After the bot changes channel, the old channel is set to the voice codec exactly when its ID is nonzero, and the new channel is always set to the music codec, last |
| Plugin.PluginState.constructor | src/plugin.c:28-30 | The recorded channel, client ID and connection handler start at 0 |
| Plugin.PluginState.OnConnectStatusChangeEvent | src/plugin.c:225-241 | Only an established connection changes state: it records the handler, then the bot's client ID if that query succeeds, then its channel if both queries succeed |
| Plugin.PluginState.OnTextMessageEvent | src/plugin.c:324-508 | Returns 1 with no action exactly for a message from the bot itself, an ignored message, a non-private message or a failed sender-channel query; otherwise returns 0 with one or two actions, a reply to the sender first or right after the GetSongName call; that call is made exactly for "!song" from a sender in the bot's channel; at most one station change |
| Plugin.PluginState.FilteredMessagesDoNothing | src/plugin.c:329-343 | A message from myClientID, with ffIgnored set, with a target mode other than private, or whose sender's channel cannot be queried returns 1 with no reply and no station change |
| Plugin.PluginState.OtherChannelGetsSorry | src/plugin.c:345-351 | A sender in another channel gets exactly the "sorry" reply and the handler returns 0 without dispatching the command |
| Plugin.PluginState.HelpCommands | src/plugin.c:354-391 | "!list" and "!help" both produce only the help reply and no station change |
| Plugin.PluginState.SongCommand | src/plugin.c:392-404 | "!song" first calls GetSongName, then replies with the song it found, or with the apology when it found none |
| Plugin.PluginState.StationCommandDispatch | src/plugin.c:405-501 | Each station command sends the "tuning" reply and then exactly one change_station with that station's enum value |
| Plugin.PluginState.StationChangeOnlyByCommand | src/plugin.c:405-501 | A station change with index k happens only for the command of station k, and k is below 32 |
| Plugin.PluginState.UnknownCommandReply | src/plugin.c:502-505 | Any other message yields only the "Unknown command" reply and no station change |
| Plugin.PluginState.OnClientMoveEvent | src/plugin.c:243-294 | When the bot itself moved, the codecs switch and currentChannelID becomes the new channel; when another client moved, no move is requested if the client-list query failed, and otherwise a move to DEFAULT_CHANNEL_ID is requested exactly when the count is 1 and the bot's channel is not already the default, with currentChannelID unchanged |
| Plugin.PluginState.OnClientMoveMovedEvent | src/plugin.c:296-321 | When the bot was moved, currentChannelID becomes the new channel and the codecs switch; a move of another client does nothing |
| Plugin.PluginState.OnClientKickFromChannelEvent | src/plugin.c:510-537 | Whichever client was kicked, the old channel is set to voice exactly when its ID is nonzero, then the bot requests a move to DEFAULT_CHANNEL_ID, then that channel is set to music; the recorded channel is not updated |

## Left out

- The libdbus API is not modelled: message construction, argument
  marshalling, `dbus_connection_send_with_reply_and_block`, iterator
  internals, `dbus_bus_get` and reference counting. A call is modelled as the
  `MethodCall` sent plus an `Exchange` input.
- Process termination in `handle_dbus_error` and in the allocation-failure
  branches is modelled as an `Exited` status. Nothing models the process
  actually stopping, for example that no later event is handled.
- `Value` covers strings, object paths, arrays, structs, dict entries and
  variants. Every other basic type is folded into `Int64`: the decoders only
  check that a value is not one of the types they expect.
- `Value` admits payloads D-Bus cannot marshal. Every element of a D-Bus
  array has the one type the signature gives, and a dict entry occurs only
  as an array element. The model still decodes mixed arrays, such as the
  one in `TracksTruncateAtFirstMismatch`. On the wire, the decoding loop's
  early stop only arises as an array of some other element type, which
  decodes to the empty list.
- The TeamSpeak host function table is not modelled. This covers
  `ts3Functions.*`, `logMessage`, `flushChannelUpdates` and `freeMemory`.
  Whether `setChannelVariableAsInt` or `requestClientMove` succeeds only
  decides whether a flush or a log line follows, so it is not modelled.
  `serverConnectionHandlerID` is only passed through to host calls, so it is
  not part of the actions.
- `ts3plugin_init` is not modelled. It sets `currentConnHandlerID` from the
  host's current connection handler (src/plugin.c:134). When that handler is
  nonzero it queries the connection status. It also sets `myClientID` and
  `currentChannelID` from host queries (src/plugin.c:150-160). It returns
  early, skipping `dbus_bus_get` and `get_track_list`, in four cases: the
  status query fails, the connection is not yet established, or either of
  the two ID queries fails (src/plugin.c:136-160). Only otherwise does it
  open the session bus and enumerate the tracks once, which is modelled as
  `GetTrackList`. This holds both when the handler is 0 and when the
  connection is established. The connection-status handler never enumerates.
  A plugin loaded during connection setup therefore keeps an empty track
  list, and every station command then takes `ChangeStation`'s
  invalid-index branch.
- `ts3plugin_shutdown` is not modelled: it only frees memory, and it does
  not reset `track_count`.
- Plugin metadata and lifecycle stubs are not modelled, since they compute
  nothing. The same goes for `ts3plugin_currentServerConnectionChanged`
  (logging only) and the Windows `wcharToUtf8` helper (a platform call).
- `printf`/`fprintf` logging is not modelled, and neither is the exact reply
  text. Replies are tagged values (`Reply`), so the 256-byte `snprintf`
  truncation of the "sorry" and "currently playing" texts is not modelled.
- Memory management (`realloc`, `strdup`, `free`) is not modelled beyond the
  `seq` that stands for `track_list`.
- DBusModule.GetSongName: returns the song the reply carries, as if it were
  copied while the reply is alive. The code copies it with `strdup` only
  after `dbus_message_unref(reply)` (src/dbus_module.h:201, 213, 216), and
  the string points into the reply's memory, so the copy may read freed
  memory. The model gives the result the code intends.
- Integer widths are not modelled: `anyID` is 16 bits, channel IDs are 64
  bits and `track_count` is a `size_t`, but all are `nat`. The code only
  compares these values, and increments the count by one per handle.
- Plugin.PluginState.OnConnectStatusChangeEvent: a failed host query is
  assumed to leave its out-parameter unchanged. The host's behaviour there is
  not visible in the source.
