/**
  The bot's client of the media player's MPRIS2 interfaces over D-Bus:
  reading the TrackList "Tracks" property into the process-wide track list,
  jumping to a stored track with TrackList.GoTo, and reading the
  "vlc:nowplaying" field out of the Player "Metadata" property.

  The bus itself is not modelled. Each operation returns the method call it
  sends, and takes as a parameter what the bus did with that call (an
  `Exchange`): the message could not be allocated, the call failed with a
  D-Bus error, or a reply with the given body came back.
*/
module DBusModule {
  import opened Options
  import opened DBusValue

  const VLC_BUS_NAME: string := "org.mpris.MediaPlayer2.vlc"
  const VLC_OBJECT_PATH: string := "/org/mpris/MediaPlayer2"
  const VLC_TRACKLIST_INTERFACE: string := "org.mpris.MediaPlayer2.TrackList"
  const PROPERTIES_INTERFACE: string := "org.freedesktop.DBus.Properties"
  const PLAYER_INTERFACE: string := "org.mpris.MediaPlayer2.Player"
  const NOW_PLAYING_KEY: string := "vlc:nowplaying"

  /** A method call addressed to a bus name, object path, interface and member. */
  datatype MethodCall = MethodCall(
    destination: string, path: string, iface: string, member: string, args: seq<Value>)

  /** What the bus did with one blocking call. */
  datatype Exchange =
    | AllocFailed              // dbus_message_new_method_call returned NULL
    | Failed(message: string)  // the DBusError was set after the call
    | Replied(body: seq<Value>)

  /** How an operation ended: normally, on a bad index, or by ending the process. */
  datatype Status = Completed | InvalidIndex | Exited(reason: string)

  /** Properties.Get(interface, property) on the player's object. */
  function PropertiesGet(iface: string, property: string): MethodCall
  {
    MethodCall(VLC_BUS_NAME, VLC_OBJECT_PATH, PROPERTIES_INTERFACE, "Get", [Str(iface), Str(property)])
  }

  /** TrackList.GoTo(track) with the track handle as the single object-path argument. */
  function GoTo(track: string): MethodCall
  {
    MethodCall(VLC_BUS_NAME, VLC_OBJECT_PATH, VLC_TRACKLIST_INTERFACE, "GoTo", [ObjectPath(track)])
  }

  const TracksRequest: MethodCall := PropertiesGet(VLC_TRACKLIST_INTERFACE, "Tracks")
  const MetadataRequest: MethodCall := PropertiesGet(PLAYER_INTERFACE, "Metadata")

  /** The call actually sent, given what the bus did: nothing when allocation failed. */
  function Sent(request: MethodCall, ex: Exchange): Option<MethodCall>
  {
    if ex.AllocFailed? then None else Some(request)
  }

  // ---------------------------------------------------------------------------
  // Track-list decoding

  /** The paths of the leading run of object-path values; decoding stops at the first other value. */
  function LeadingPaths(elems: seq<Value>): seq<string>
  {
    if elems == [] || !elems[0].ObjectPath? then []
    else [elems[0].path] + LeadingPaths(elems[1..])
  }

  /** The track handles a "Tracks" reply body carries: variant, then array, then object paths. */
  function TracksOf(body: seq<Value>): seq<string>
  {
    if |body| > 0 && body[0].Variant? && body[0].inner.Array? then LeadingPaths(body[0].inner.elems)
    else []
  }

  /**
    LeadingPaths(elems) is the run of object paths at the front of elems, in
    order, and the run is maximal: it ends with elems or at a value that is
    not an object path.
  */
  lemma {:induction false} LeadingPathsIsMaximalPrefix(elems: seq<Value>)
    ensures |LeadingPaths(elems)| <= |elems|
    ensures forall j :: 0 <= j < |LeadingPaths(elems)| ==> elems[j] == ObjectPath(LeadingPaths(elems)[j])
    ensures |LeadingPaths(elems)| == |elems| || !elems[|LeadingPaths(elems)|].ObjectPath?
  {
    if elems != [] && elems[0].ObjectPath? {
      LeadingPathsIsMaximalPrefix(elems[1..]);
    }
  }

  /** Values after the first non-object-path element never reach the result. */
  lemma {:induction false} LeadingPathsStopsAtMismatch(pre: seq<Value>, x: Value, post: seq<Value>)
    requires forall j :: 0 <= j < |pre| ==> pre[j].ObjectPath?
    requires !x.ObjectPath?
    ensures LeadingPaths(pre + [x] + post) == LeadingPaths(pre)
    ensures |LeadingPaths(pre)| == |pre|
  {
    if pre == [] {
      assert (pre + [x] + post)[0] == x;
    } else {
      assert (pre + [x] + post)[1..] == pre[1..] + [x] + post;
      LeadingPathsStopsAtMismatch(pre[1..], x, post);
    }
  }

  /** One object path more at the iterator's position extends the decoded run by one. */
  lemma LeadingPathsStep(elems: seq<Value>, i: nat)
    requires i < |elems| && elems[i].ObjectPath?
    ensures LeadingPaths(elems[i..]) == [elems[i].path] + LeadingPaths(elems[i + 1..])
  {
    assert elems[i..][1..] == elems[i + 1..];
  }

  // ---------------------------------------------------------------------------
  // Now-playing decoding

  /** The song an entry carries when it is {"vlc:nowplaying": variant(string)}. */
  function EntrySong(e: Value): Option<string>
  {
    match e
    case DictEntry(Str(key), Variant(Str(song))) => if key == NOW_PLAYING_KEY then Some(song) else None
    case _ => None
  }

  /** The song of the first qualifying entry of the leading run of dict entries. */
  function FindSong(entries: seq<Value>): Option<string>
  {
    if entries == [] || !entries[0].DictEntry? then None
    else if EntrySong(entries[0]).Some? then EntrySong(entries[0])
    else FindSong(entries[1..])
  }

  /** The song name a "Metadata" reply body carries: variant, then array, then dict entries. */
  function SongOf(body: seq<Value>): Option<string>
  {
    if |body| > 0 && body[0].Variant? && body[0].inner.Array? then FindSong(body[0].inner.elems)
    else None
  }

  /** The scan reaches entry k: every earlier element is a dict entry that does not qualify. */
  ghost predicate ScanReaches(entries: seq<Value>, k: nat)
  {
    k <= |entries| && forall j :: 0 <= j < k ==> entries[j].DictEntry? && EntrySong(entries[j]).None?
  }

  /** The first qualifying entry the scan reaches decides the result. */
  lemma {:induction false} FindSongFirstMatch(entries: seq<Value>, k: nat)
    requires k < |entries| && ScanReaches(entries, k) && EntrySong(entries[k]).Some?
    ensures FindSong(entries) == EntrySong(entries[k])
  {
    if k > 0 {
      assert ScanReaches(entries[1..], k - 1) by {
        forall j | 0 <= j < k - 1 ensures entries[1..][j] == entries[j + 1] { }
      }
      FindSongFirstMatch(entries[1..], k - 1);
    }
  }

  /** Whatever FindSong returns comes from a qualifying entry that the scan reaches. */
  lemma {:induction false} FindSongHasWitness(entries: seq<Value>)
    ensures FindSong(entries).Some? ==>
      exists k :: 0 <= k < |entries| && ScanReaches(entries, k) && EntrySong(entries[k]) == FindSong(entries)
  {
    if entries != [] && entries[0].DictEntry? {
      if EntrySong(entries[0]).Some? {
        assert ScanReaches(entries, 0);
      } else if FindSong(entries[1..]).Some? {
        FindSongHasWitness(entries[1..]);
        var k :| 0 <= k < |entries[1..]| && ScanReaches(entries[1..], k)
          && EntrySong(entries[1..][k]) == FindSong(entries[1..]);
        assert ScanReaches(entries, k + 1) by {
          forall j | 1 <= j < k + 1 ensures entries[j] == entries[1..][j - 1] { }
        }
        assert entries[k + 1] == entries[1..][k];
      }
    }
  }

  /** FindSong finds nothing exactly when the scan reaches no qualifying entry. */
  lemma FindSongNone(entries: seq<Value>)
    ensures FindSong(entries).None? <==>
      forall k :: 0 <= k < |entries| && ScanReaches(entries, k) ==> EntrySong(entries[k]).None?
  {
    FindSongHasWitness(entries);
    forall k | 0 <= k < |entries| && ScanReaches(entries, k) && EntrySong(entries[k]).Some?
      ensures FindSong(entries).Some?
    {
      FindSongFirstMatch(entries, k);
    }
  }

  /** One step of the scan: an entry that does not qualify passes the search on. */
  lemma FindSongStep(entries: seq<Value>, i: nat)
    requires i < |entries| && entries[i].DictEntry? && EntrySong(entries[i]).None?
    ensures FindSong(entries[i..]) == FindSong(entries[i + 1..])
  {
    assert entries[i..][1..] == entries[i + 1..];
  }

  /**
    GetSongName: issue the Metadata read and decode the reply. Every failure,
    a bus error included, gives None (the C function returns NULL).
  */
  method GetSongName(ex: Exchange) returns (song: Option<string>, sent: Option<MethodCall>)
    ensures sent == Sent(MetadataRequest, ex)
    ensures song == (if ex.Replied? then SongOf(ex.body) else None)
  {
    if ex.AllocFailed? {
      return None, None;
    }
    sent := Some(MetadataRequest);
    if ex.Failed? {
      return None, sent;
    }
    var body := ex.body;
    song := None;
    if ArgType(body, 0) == TYPE_VARIANT {
      var variant := body[0].inner;
      if TypeCode(variant) == TYPE_ARRAY {
        var dict := variant.elems;
        var i := 0;
        while ArgType(dict, i) == TYPE_DICT_ENTRY
          invariant 0 <= i <= |dict|
          invariant song.None?
          invariant FindSong(dict[i..]) == FindSong(dict)
          decreases |dict| - i
        {
          var entry := dict[i];
          if TypeCode(entry.key) == TYPE_STRING {
            var key := entry.key.str;
            if key == NOW_PLAYING_KEY {
              if TypeCode(entry.value) == TYPE_VARIANT {
                var value := entry.value.inner;
                if TypeCode(value) == TYPE_STRING {
                  song := Some(value.str);
                  assert dict[i..][0] == entry;
                  break;
                }
              }
            }
          }
          FindSongStep(dict, i);
          i := i + 1;
        }
      }
    }
  }

  // ---------------------------------------------------------------------------
  // The process-wide track list

  /**
    The globals track_list and track_count: a growable array of track handles
    and the number of handles it holds.
  */
  class TrackStore {
    var trackList: seq<string>
    var trackCount: nat

    ghost predicate Valid()
      reads this
    {
      trackCount == |trackList|
    }

    /** Both globals start empty (a NULL list and a count of 0). */
    constructor ()
      ensures Valid() && trackList == [] && trackCount == 0
    {
      trackList := [];
      trackCount := 0;
    }

    /**
      get_track_list: read "Tracks" and append every decoded handle, in order,
      after the ones already stored. The count is never reset, so a second
      call appends to the first call's entries. A bus failure ends the process
      before anything is stored.
    */
    method GetTrackList(ex: Exchange) returns (sent: Option<MethodCall>, status: Status)
      requires Valid()
      modifies this
      ensures Valid()
      ensures sent == Sent(TracksRequest, ex)
      ensures status.Exited? <==> !ex.Replied?
      ensures status.Exited? || status.Completed?
      ensures trackList == old(trackList) + (if ex.Replied? then TracksOf(ex.body) else [])
      ensures trackCount == old(trackCount) + (if ex.Replied? then |TracksOf(ex.body)| else 0)
      ensures forall j :: 0 <= j < old(trackCount) ==> trackList[j] == old(trackList)[j]
      ensures ex.Replied? ==> forall j :: old(trackCount) <= j < trackCount ==>
        trackList[j] == TracksOf(ex.body)[j - old(trackCount)]
    {
      if ex.AllocFailed? {
        return None, Exited("Failed to create DBus message");
      }
      sent := Some(TracksRequest);
      if ex.Failed? {
        return sent, Exited(ex.message);
      }
      status := Completed;
      var body := ex.body;
      if ArgType(body, 0) == TYPE_VARIANT {
        var arrayValue := body[0].inner;
        if TypeCode(arrayValue) == TYPE_ARRAY {
          var args := arrayValue.elems;
          var i := 0;
          while ArgType(args, i) == TYPE_OBJECT_PATH
            invariant 0 <= i <= |args|
            invariant Valid()
            invariant trackList + LeadingPaths(args[i..]) == old(trackList) + LeadingPaths(args)
            decreases |args| - i
          {
            var path := args[i].path;
            LeadingPathsStep(args, i);
            trackList := trackList + [path];
            trackCount := trackCount + 1;
            i := i + 1;
          }
          assert LeadingPaths(args[i..]) == [];
        }
      }
    }

    /**
      change_station: an index at or past the count is rejected without any
      call; otherwise exactly one GoTo carrying the stored handle is sent. The
      track list is only read. A bus failure ends the process.
    */
    method ChangeStation(stationIndex: nat, ex: Exchange) returns (sent: Option<MethodCall>, status: Status)
      requires Valid()
      ensures stationIndex >= trackCount ==> sent.None? && status == InvalidIndex
      ensures stationIndex < trackCount ==> sent == Sent(GoTo(trackList[stationIndex]), ex)
      ensures stationIndex < trackCount ==> (status == Completed <==> ex.Replied?)
      ensures stationIndex < trackCount ==> (status.Exited? <==> !ex.Replied?)
    {
      if stationIndex >= trackCount {
        return None, InvalidIndex;
      }
      var trackPath := trackList[stationIndex];
      if ex.AllocFailed? {
        return None, Exited("Failed to create DBus message");
      }
      sent := Some(GoTo(trackPath));
      if ex.Failed? {
        return sent, Exited(ex.message);
      }
      status := Completed;
    }
  }

  // ---------------------------------------------------------------------------
  // Worked examples of the decoders

  lemma TracksTruncateAtFirstMismatch()
    ensures TracksOf([Variant(Array([ObjectPath("a"), ObjectPath("b"), Str("c"), ObjectPath("d")]))]) == ["a", "b"]
    ensures TracksOf([Variant(Array([]))]) == []
    ensures TracksOf([Array([ObjectPath("a")])]) == []
  {
  }

  lemma SongSkipsOtherKeys()
    ensures SongOf([Variant(Array([DictEntry(Str(NOW_PLAYING_KEY), Variant(Str("Song X")))]))]) == Some("Song X")
    ensures SongOf([Variant(Array([
      DictEntry(Str("title"), Variant(Str("Ignored"))),
      DictEntry(Str(NOW_PLAYING_KEY), Variant(Int64(7))),
      DictEntry(Str(NOW_PLAYING_KEY), Variant(Str("Song Y")))]))]) == Some("Song Y")
    ensures SongOf([Variant(Array([DictEntry(Str("title"), Variant(Str("T")))]))]) == None
    ensures SongOf([Str(NOW_PLAYING_KEY)]) == None
  {
    var entries := [
      DictEntry(Str("title"), Variant(Str("Ignored"))),
      DictEntry(Str(NOW_PLAYING_KEY), Variant(Int64(7))),
      DictEntry(Str(NOW_PLAYING_KEY), Variant(Str("Song Y")))];
    assert ScanReaches(entries, 2);
    FindSongFirstMatch(entries, 2);
  }
}
