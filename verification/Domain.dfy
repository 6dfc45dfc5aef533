/** The values that travel from the media loop to the browser. */
module Domain {

  datatype Option<+T> = None | Some(value: T)

  type Bytes = seq<bv8>

  /** Art bytes that were really read: never empty (a zero length read is a failure in the loop). */
  type ArtBytes = b: Bytes | |b| > 0 witness [0]

  datatype Song = Song(artist: string, title: string)

  const NO_SONG := Song("", "")

  datatype InfoData = InfoData(
    song: Song, thumbType: string, thumb: Bytes,
    albumTitle: string, albumArtist: string, playbackType: int, sourceApp: string)

  const EMPTY_INFO := InfoData(NO_SONG, "", [], "", "", 0, "")

  datatype ProgressData = ProgressData(
    position: int, duration: int, status: int, rate: real,
    shuffle: Option<bool>, repeat: int, lastUpdated: int)

  const STATUS_CLOSED := 0
  const STATUS_PLAYING := 4
  const STATUS_PAUSED := 5

  const CLOSED_PROGRESS := ProgressData(0, 0, STATUS_CLOSED, 0.0, None, 0, 0)

  datatype SessionInfo = SessionInfo(appID: string, name: string, sourceAppID: string)

  datatype Event =
    | InfoEvent(info: InfoData)
    | ProgressEvent(progress: ProgressData)
    | SessionsChangedEvent(sessions: seq<SessionInfo>)
    | DeviceChangedEvent(appID: string)

  /** The newest InfoEvent of a history of events. */
  function LastInfo(events: seq<Event>): Option<InfoData> {
    if events == [] then None
    else
      var e := events[|events| - 1];
      if e.InfoEvent? then Some(e.info) else LastInfo(events[..|events| - 1])
  }

  lemma {:induction false} LastInfoConcat(xs: seq<Event>, ys: seq<Event>)
    ensures LastInfo(xs + ys) == if LastInfo(ys).Some? then LastInfo(ys) else LastInfo(xs)
    decreases |ys|
  {
    if ys == [] {
      assert xs + ys == xs;
    } else {
      var front := ys[..|ys| - 1];
      assert (xs + ys)[..|xs + ys| - 1] == xs + front;
      LastInfoConcat(xs, front);
    }
  }

  lemma LastInfoAppend(xs: seq<Event>, e: Event)
    ensures LastInfo(xs + [e]) == if e.InfoEvent? then Some(e.info) else LastInfo(xs)
  {
    assert (xs + [e])[..|xs|] == xs;
  }

  /** The newest ProgressEvent of a history of events. */
  function LastProgress(events: seq<Event>): Option<ProgressData> {
    if events == [] then None
    else
      var e := events[|events| - 1];
      if e.ProgressEvent? then Some(e.progress) else LastProgress(events[..|events| - 1])
  }

  lemma LastProgressAppend(xs: seq<Event>, e: Event)
    ensures LastProgress(xs + [e]) == if e.ProgressEvent? then Some(e.progress) else LastProgress(xs)
  {
    assert (xs + [e])[..|xs|] == xs;
  }

  /** The application named by the newest DeviceChangedEvent. */
  function LastDevice(events: seq<Event>): Option<string> {
    if events == [] then None
    else
      var e := events[|events| - 1];
      if e.DeviceChangedEvent? then Some(e.appID) else LastDevice(events[..|events| - 1])
  }

  lemma LastDeviceAppend(xs: seq<Event>, e: Event)
    ensures LastDevice(xs + [e]) == if e.DeviceChangedEvent? then Some(e.appID) else LastDevice(xs)
  {
    assert (xs + [e])[..|xs|] == xs;
  }
}
