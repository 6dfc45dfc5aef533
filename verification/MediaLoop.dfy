/** The media event loop as a state machine: one goroutine that runs queued commands,
    and timers and callbacks that queue them. `World` is what the media session reports
    to one command; every answer is allowed. */
module MediaLoop {
  import opened Domain
  import opened Escaping
  import Names

  const RETRY_MAX_ATTEMPTS := 10
  const COMMAND_CAPACITY := 32
  const TICKS_PER_SECOND := 10_000_000
  const TICKS_PER_MILLISECOND := 10_000
  const WINDOWS_TO_UNIX_TICKS := 116_444_736_000_000_000

  type Handle = nat

  /** The raw media properties of a session. */
  datatype Props = Props(artist: string, title: string, albumTitle: string, albumArtist: string, playbackType: int)

  datatype ArtBody = ArtBody(kind: string, bytes: ArtBytes)

  /** Either no stream could be opened, or a stream with a size and perhaps readable bytes. */
  datatype ArtRead = NoStream | Stream(size: nat, body: Option<ArtBody>)

  datatype Timeline = Timeline(
    position: int, end: int, updated: int, status: int,
    rate: Option<real>, shuffle: Option<bool>, repeat: Option<int>)

  datatype RawSession = Unreadable | Dead | Nameless(handle: Handle) | Named(appID: string, handle: Handle)

  datatype World = World(
    media: Option<Props>, art: ArtRead, timeline: Option<Timeline>,
    list: seq<RawSession>, friendly: string -> string)

  datatype Command =
    | Retry(song: Song, props: Props)
    | MediaChanged
    | PlaybackChanged
    | Enumerate
    | Select(appID: string)
    | Control

  /** A one-shot runtime timer. Once it has fired it can no longer be stopped,
      but its command is sent in a separate step. */
  datatype Timer = Timer(song: Song, props: Props, fired: bool)

  /** `started` says that the first enumeration is over and the loop has begun. */
  datatype State = State(
    started: bool,
    session: Option<Handle>,
    sessions: seq<SessionInfo>, objects: seq<Handle>, selected: string,
    song: Song, props: Option<Props>,
    status: int, position: int, duration: int,
    thumbSize: nat, thumbType: string, thumb: Option<ArtBytes>,
    retryCount: int, retryTimer: Option<nat>,
    timers: map<nat, Timer>, nextTimer: nat,
    queue: seq<Command>, dropped: nat,
    // History only: every event fanned out; failed retry reads since the counter was reset;
    // retries for the current song lost to a full queue; whether the last progress event
    // is the one sent for an empty session list.
    emitted: seq<Event>, fails: nat, lost: nat, cleared: bool)

  function Init(device: string): State {
    State(false, None, [], [], device, NO_SONG, None, 0, 0, 0, 0, "", None, 0, None, map[], 0, [], 0, [], 0, 0, false)
  }

  // Commands

  function Emit(s: State, e: Event): State {
    s.(emitted := s.emitted + [e])
  }

  function SetSong(s: State, song: Song): State {
    s.(song := song, lost := if song == s.song then s.lost else 0)
  }

  datatype Art = Art(kind: string, bytes: Option<ArtBytes>)

  /** readThumbnail: an unchanged stream size answers from the cache. */
  function ReadArt(s: State, read: ArtRead): (State, Art) {
    if s.props.None? || read.NoStream? || read.size == 0 then (s, Art("", None))
    else if read.size == s.thumbSize then (s, Art(s.thumbType, s.thumb))
    else match read.body
      case None => (s, Art("", None))
      case Some(b) => (s.(thumbSize := read.size, thumbType := b.kind, thumb := Some(b.bytes)),
          Art(b.kind, Some(b.bytes)))
  }

  function InfoFor(song: Song, art: Art, props: Props, app: string): InfoData {
    InfoData(song, art.kind, if art.bytes.Some? then art.bytes.value else [],
      EscapeText(props.albumTitle), EscapeText(props.albumArtist), props.playbackType, app)
  }

  function ForgetArt(s: State): State {
    s.(thumbSize := 0, thumbType := "", thumb := None)
  }

  function ClearMedia(s: State): State {
    if s.song == NO_SONG then s
    else Emit(ForgetArt(SetSong(s, NO_SONG)).(props := None), InfoEvent(EMPTY_INFO))
  }

  /** Stop the timer the field knows (a fired one cannot be stopped) and arm a new one. */
  function Schedule(s: State, song: Song, props: Props): State {
    var known := s.retryTimer;
    var running := if known.Some? && known.value in s.timers && !s.timers[known.value].fired
                   then s.timers - {known.value} else s.timers;
    s.(timers := running[s.nextTimer := Timer(song, props, false)],
       retryTimer := Some(s.nextTimer), nextTimer := s.nextTimer + 1)
  }

  function EscapedSong(p: Props): Song {
    Song(EscapeText(p.artist), EscapeText(p.title))
  }

  function OptionalLength(b: Option<ArtBytes>): nat {
    if b.Some? then |b.value| else 0
  }

  /** Store the properties; a new song makes the cached art useless. */
  function AdoptProps(s: State, p: Props): State {
    var s1 := s.(props := Some(p));
    if EscapedSong(p) != s.song then ForgetArt(s1) else s1
  }

  /** Read the art; for an unchanged song a failed read falls back to the cache. */
  function CurrentArt(s: State, changed: bool, read: ArtRead): (State, Art) {
    var (s1, art) := ReadArt(s, read);
    (s1, if !changed && art.bytes.None? && s1.thumb.Some? then Art(s1.thumbType, s1.thumb) else art)
  }

  /** Tell the song now, wait for the art of a new song, or say nothing because nothing changed. */
  function ReportMedia(s: State, song: Song, changed: bool, oldLength: nat, art: Art, p: Props): State {
    if changed && art.bytes.None? then Schedule(SetSong(s, song).(retryCount := 0, fails := 0), song, p)
    else if !changed && OptionalLength(art.bytes) == oldLength then s
    else Emit(SetSong(s, song), InfoEvent(InfoFor(song, art, p, s.selected)))
  }

  /** handleMediaPropertiesChanged */
  function HandleMedia(s: State, w: World): State {
    if s.session.None? then s
    else match w.media
      case None => ClearMedia(s)
      case Some(p) =>
        var changed := EscapedSong(p) != s.song;
        var s1 := AdoptProps(s, p);
        var (s2, art) := CurrentArt(s1, changed, w.art);
        ReportMedia(s2, EscapedSong(p), changed, OptionalLength(s1.thumb), art, p)
  }

  /** The art read of a retry, which has no cache to fall back to. */
  function RetryArt(s: State, read: ArtRead): (State, Art) {
    var (s1, art) := ReadArt(s, read);
    (if art.bytes.None? then s1.(fails := s1.fails + 1) else s1, art)
  }

  /** retryThumbnailAndFireInfo: the field is forgotten even when the retry is stale. */
  function RunRetry(s: State, song: Song, props: Props, w: World): State {
    var s1 := s.(retryTimer := None);
    if s1.song != song then s1
    else
      var (s2, art) := RetryArt(s1, w.art);
      if art.bytes.None? && s2.retryCount < RETRY_MAX_ATTEMPTS - 1 then
        Schedule(s2.(retryCount := s2.retryCount + 1), song, props)
      else Emit(s2, InfoEvent(InfoFor(song, art, props, s.selected)))
  }

  /** The sessions that answered: dead and unreadable ones are skipped. */
  function Usable(list: seq<RawSession>): seq<(string, Handle)> {
    if list == [] then []
    else
      var front := Usable(list[..|list| - 1]);
      match list[|list| - 1]
      case Unreadable => front
      case Dead => front
      case Nameless(h) => front + [("", h)]
      case Named(id, h) => front + [(id, h)]
  }

  function AppIDs(usable: seq<(string, Handle)>): seq<string> {
    seq(|usable|, i requires 0 <= i < |usable| => usable[i].0)
  }

  function Handles(usable: seq<(string, Handle)>): seq<Handle> {
    seq(|usable|, i requires 0 <= i < |usable| => usable[i].1)
  }

  /** The first session of an application. */
  function FirstIndex(sessions: seq<SessionInfo>, appID: string): (r: Option<nat>)
    ensures r.Some? ==> r.value < |sessions| && sessions[r.value].appID == appID
    ensures r.Some? ==> forall k | 0 <= k < r.value :: sessions[k].appID != appID
    ensures r.None? ==> forall k | 0 <= k < |sessions| :: sessions[k].appID != appID
  {
    FirstIndexFrom(sessions, appID, 0)
  }

  function FirstIndexFrom(sessions: seq<SessionInfo>, appID: string, from: nat): (r: Option<nat>)
    requires from <= |sessions|
    ensures r.Some? ==> from <= r.value < |sessions| && sessions[r.value].appID == appID
    ensures r.Some? ==> forall k | from <= k < r.value :: sessions[k].appID != appID
    ensures r.None? ==> forall k | from <= k < |sessions| :: sessions[k].appID != appID
    decreases |sessions| - from
  {
    if from == |sessions| then None
    else if sessions[from].appID == appID then Some(from)
    else FirstIndexFrom(sessions, appID, from + 1)
  }

  function SwitchTo(s: State, index: int, w: World): State {
    if index < 0 || index >= |s.objects| then s
    else
      var s1 := HandleMedia(s.(session := Some(s.objects[index])), w);
      if index < |s1.sessions| then Emit(s1, DeviceChangedEvent(s1.sessions[index].appID)) else s1
  }

  /** The empty list clears the song and the status, but neither the position
      and duration nor the cached art bytes. */
  function ApplyEmptyList(s: State): State {
    Emit(Emit(SetSong(s, NO_SONG).(session := None, status := STATUS_CLOSED, thumbSize := 0, cleared := true),
      InfoEvent(EMPTY_INFO)), ProgressEvent(CLOSED_PROGRESS))
  }

  function Chosen(sessions: seq<SessionInfo>, selected: string): nat {
    var first := FirstIndex(sessions, selected);
    if selected != "" && first.Some? then first.value else 0
  }

  function ApplyList(s: State, sessions: seq<SessionInfo>, objects: seq<Handle>, w: World): State {
    var s1 := Emit(s.(sessions := sessions, objects := objects), SessionsChangedEvent(sessions));
    if sessions == [] then ApplyEmptyList(s1) else SwitchTo(s1, Chosen(sessions, s.selected), w)
  }

  function EnumerateSessions(s: State, w: World): State {
    var usable := Usable(w.list);
    ApplyList(s, Names.Entries(AppIDs(usable), w.friendly), Handles(usable), w)
  }

  function SelectDevice(s: State, appID: string, w: World): State {
    var s1 := s.(selected := appID);
    var first := FirstIndex(s1.sessions, appID);
    if first.Some? then SwitchTo(s1, first.value, w) else s1
  }

  // Progress

  /** Go's integer division: truncation toward zero. */
  function TruncDiv(a: int, b: int): (q: int)
    requires b > 0
    ensures a >= 0 ==> b * q <= a < b * q + b
    ensures a <= 0 ==> b * q - b < a <= b * q
  {
    if a >= 0 then a / b else -((-a) / b)
  }

  /** Two's complement wrap-around of a 64-bit result. */
  function WrapInt64(x: int): int {
    (x + 0x8000_0000_0000_0000) % 0x1_0000_0000_0000_0000 - 0x8000_0000_0000_0000
  }

  function Seconds(t: Timeline, ticks: int): int {
    if t.updated == 0 then 0 else TruncDiv(ticks, TICKS_PER_SECOND)
  }

  function ProgressOf(t: Timeline): ProgressData {
    ProgressData(Seconds(t, t.position), Seconds(t, t.end), t.status,
      if t.rate.Some? then t.rate.value else 1.0, t.shuffle,
      if t.repeat.Some? then t.repeat.value else 0,
      if t.updated == 0 then 0
      else TruncDiv(WrapInt64(t.updated - WINDOWS_TO_UNIX_TICKS), TICKS_PER_MILLISECOND))
  }

  function ReadTimeline(s: State, w: World): State {
    if s.session.None? || w.timeline.None? then s
    else
      var p := ProgressOf(w.timeline.value);
      if p.position == s.position && p.duration == s.duration && p.status == s.status then s
      else Emit(s.(position := p.position, duration := p.duration, status := p.status, cleared := false),
          ProgressEvent(p))
  }

  // Steps

  /** A non-blocking send on the command channel. */
  function Post(s: State, c: Command): State {
    if |s.queue| < COMMAND_CAPACITY then s.(queue := s.queue + [c]) else s.(dropped := s.dropped + 1)
  }

  function Execute(s: State, c: Command, w: World): State {
    match c
    case Retry(song, props) => RunRetry(s, song, props, w)
    case MediaChanged => HandleMedia(s, w)
    case PlaybackChanged => ReadTimeline(s, w)
    case Enumerate => EnumerateSessions(s, w)
    case Select(appID) => SelectDevice(s, appID, w)
    case Control => s
  }

  datatype Step =
    | Start(w: World)                // the first enumeration, once, before the loop
    | Runs(w: World)                 // take the next command and run it
    | Ticks(w: World)                // the progress ticker
    | Fires(id: nat)                 // a retry timer expires ...
    | Sends(id: nat)                 // ... and its closure sends the retry command
    | Notifies(c: Command)           // a media callback: send or count a drop
    | Selects(appID: string)         // SelectDevice waits for room
    | Controls                       // a control call is refused when there is no room

  /** A step that is not enabled changes nothing. */
  function Next(s: State, step: Step): State {
    match step
    case Start(w) => if s.started then s else EnumerateSessions(s.(started := true), w)
    case Runs(w) => if !s.started || s.queue == [] then s else Execute(s.(queue := s.queue[1..]), s.queue[0], w)
    case Ticks(w) => if s.started then ReadTimeline(s, w) else s
    case Fires(id) =>
      if id in s.timers then s.(timers := s.timers[id := s.timers[id].(fired := true)]) else s
    case Sends(id) =>
      if id in s.timers && s.timers[id].fired then SendRetry(s, id) else s
    case Notifies(c) =>
      if c.MediaChanged? || c.PlaybackChanged? || c.Enumerate? then Post(s, c) else s
    case Selects(appID) => if |s.queue| < COMMAND_CAPACITY then Post(s, Select(appID)) else s
    case Controls => if |s.queue| < COMMAND_CAPACITY then Post(s, Control) else s
  }

  function SendRetry(s: State, id: nat): State
    requires id in s.timers
  {
    TryRetry(s.(timers := s.timers - {id}), s.timers[id].song, s.timers[id].props)
  }

  function TryRetry(s: State, song: Song, props: Props): State {
    var t := Post(s, Retry(song, props));
    if t.dropped > s.dropped && song == s.song then t.(lost := t.lost + 1) else t
  }

  function Run(s: State, steps: seq<Step>): State {
    if steps == [] then s else Next(Run(s, steps[..|steps| - 1]), steps[|steps| - 1])
  }
}
