/** The server as interleaved steps of its goroutines: the event processor, the hub, and one
    opening sequence per connection, over an atomic snapshot pointer and the hub's queue. */
module Server {
  import opened Domain
  import opened Wire
  import Hub

  type ConnId = Hub.ConnId

  /** SHA-256 in hexadecimal: any function to 64 characters will do. */
  type Digest = f: Bytes -> string | forall b :: |f(b)| == 64 witness (b: Bytes) => seq(64, _ => '0')

  datatype Snapshot = Snapshot(
    info: Option<InfoData>, progress: Option<ProgressData>,
    infoJSON: Option<Msg>, progressJSON: Option<Msg>,
    artHash: string, artData: Bytes, artType: string)

  const EMPTY_SNAPSHOT := Snapshot(None, None, None, None, "", [], "")

  function HashOf(sha: Digest, art: Bytes): string {
    if art == [] then "" else sha(art)
  }

  function ArtURL(hash: string): string {
    if hash == "" then "" else "/albumArt/" + hash
  }

  function PayloadOf(sha: Digest, d: InfoData): InfoPayload {
    InfoPayload(d.song, d.albumTitle, d.albumArtist, d.playbackType, d.sourceApp, ArtURL(HashOf(sha, d.thumb)))
  }

  /** A snapshot with another info and its art. */
  function WithArt(sha: Digest, prev: Snapshot, d: InfoData): Snapshot {
    prev.(info := Some(d), artData := d.thumb, artType := if d.thumb == [] then "" else d.thumbType,
        artHash := HashOf(sha, d.thumb))
  }

  /** handleInfoEvent up to the comparison: the next snapshot, whose message is stamped ts. */
  function WithInfo(sha: Digest, prev: Snapshot, d: InfoData, ts: int): Snapshot {
    WithArt(sha, prev, d).(infoJSON := Some(Info(ts, PayloadOf(sha, d))))
  }

  function WithProgress(prev: Snapshot, p: ProgressData, ts: int): Snapshot {
    prev.(progress := Some(p), progressJSON := Some(Progress(ts, p)))
  }

  const UNKNOWN_TYPE := "application/octet-stream"

  /** A response of the art route. */
  datatype Response = NotFound | Served(contentType: string, body: Bytes)

  /** GET /albumArt/{hash} against a snapshot. */
  function FetchArt(s: Snapshot, hash: string): Response {
    if s.artHash == "" || hash != s.artHash || s.artData == [] then NotFound
    else Served(if s.artType == "" then UNKNOWN_TYPE else s.artType, s.artData)
  }

  // Connections

  /** How far OnOpen has come. */
  datatype Phase = Accepted | Joined | Greeted | Loaded | SentInfo | SentProgress | Live

  function Rank(p: Phase): nat {
    match p
    case Accepted => 0
    case Joined => 1
    case Greeted => 2
    case Loaded => 3
    case SentInfo => 4
    case SentProgress => 5
    case Live => 6
  }

  /** A written message; `byHub` (history) tells the hub's writes from the others. */
  datatype Frame = Frame(byHub: bool, msg: Msg)

  /** History: where in the hub's log the connection was added, how many updates had been stored
      when OnOpen read the snapshot, and how far the hub and the store were when it wrote it. */
  datatype Marks = Marks(addAt: nat, readAt: nat, wroteAt: nat, wroteSeen: nat)

  datatype Sock = Sock(open: bool, phase: Phase, seen: Snapshot, wire: seq<Frame>, marks: Marks)

  function Msgs(wire: seq<Frame>): seq<Msg> {
    seq(|wire|, i requires 0 <= i < |wire| => wire[i].msg)
  }

  function Write(k: Sock, f: Frame): Sock {
    if k.open then k.(wire := k.wire + [f]) else k
  }

  /** What became of a stored info update. */
  datatype Fate = Pending | Dropped | Queued(at: nat)

  /** `hand` is a message the processor has stored (if it is an info or progress update) but
      not yet handed to the hub. History: events handled, info updates stored, and their fates. */
  datatype State = State(
    snap: Snapshot, hand: Option<Msg>, hub: Hub.State, socks: map<ConnId, Sock>,
    handled: seq<Event>, stored: seq<Msg>, fates: seq<Fate>)

  function Init(): State {
    State(EMPTY_SNAPSHOT, None, Hub.Init(), map[], [], [], [])
  }

  // The event processor

  /** Receive an event and publish it, unless its message is the published one. */
  function Handle(sha: Digest, s: State, e: Event, ts: int): State {
    var s1 := s.(handled := s.handled + [e]);
    match e
    case InfoEvent(d) =>
      var next := WithInfo(sha, s.snap, d, ts);
      if s.snap.infoJSON == next.infoJSON then s1
      else s1.(snap := next, hand := next.infoJSON, stored := s.stored + [next.infoJSON.value],
          fates := s.fates + [Pending])
    case ProgressEvent(p) =>
      var next := WithProgress(s.snap, p, ts);
      if s.snap.progressJSON == next.progressJSON then s1 else s1.(snap := next, hand := next.progressJSON)
    case SessionsChangedEvent(list) => s1.(hand := Some(Sessions(ts, list)))
    case DeviceChangedEvent(_) => s1
  }

  /** Hand the stored message to the hub, or drop it. */
  function HandOver(s: State): State
    requires s.hand.Some?
  {
    var fate := if Hub.HasRoom(s.hub) then Queued(|s.hub.log|) else Dropped;
    s.(hand := None, hub := Hub.Submit(s.hub, s.hand.value),
       fates := if s.hand.value.Info? && s.fates != [] then s.fates[..|s.fates| - 1] + [fate] else s.fates)
  }

  // The opening sequence of a connection

  const NO_MARKS := Marks(0, 0, 0, 0)

  function Opened(): Sock {
    Sock(true, Accepted, EMPTY_SNAPSHOT, [], NO_MARKS)
  }

  function WriteOptional(k: Sock, m: Option<Msg>): Sock {
    if m.Some? then Write(k, Frame(false, m.value)) else k
  }

  /** The next action of OnOpen after joining: greet, read the snapshot, write its two messages
      and the session list. `stored` and `upTo` say how far the store and the hub are. */
  function Opening(k: Sock, snap: Snapshot, stored: nat, upTo: nat, ts: int, list: seq<SessionInfo>): Sock {
    match k.phase
    case Accepted => k
    case Joined => Write(k, Frame(false, Hello(ts))).(phase := Greeted)
    case Greeted => k.(phase := Loaded, seen := snap, marks := k.marks.(readAt := stored))
    case Loaded => WriteOptional(k, k.seen.infoJSON).(phase := SentInfo,
        marks := k.marks.(wroteAt := upTo, wroteSeen := stored))
    case SentInfo => WriteOptional(k, k.seen.progressJSON).(phase := SentProgress)
    case SentProgress => WriteOptional(k, if list == [] then None else Some(Sessions(ts, list))).(phase := Live)
    case Live => k
  }

  /** OnOpen first joins the hub, waiting for room. */
  function Advance(s: State, c: ConnId, ts: int, list: seq<SessionInfo>): State
    requires c in s.socks
  {
    var k := s.socks[c];
    if !k.phase.Accepted? then
      s.(socks := s.socks[c := Opening(k, s.snap, |s.stored|, Hub.Settled(s.hub, c), ts, list)])
    else if Hub.HasRoom(s.hub) then Join(s, c)
    else s
  }

  function Join(s: State, c: ConnId): State
    requires c in s.socks
  {
    var k := s.socks[c];
    s.(hub := Hub.Enqueue(s.hub, Hub.Add(c)),
       socks := s.socks[c := k.(phase := Joined, marks := k.marks.(addAt := |s.hub.log|))])
  }

  // Steps

  datatype Step =
    | Handles(e: Event, ts: int)
    | HandsOver
    | HotReload(ts: int)
    | Accepts(c: ConnId)
    | Advances(c: ConnId, ts: int, list: seq<SessionInfo>)
    | Answers(c: ConnId, ts: int)        // the heartbeat's ping and the like
    | Breaks(c: ConnId)                  // the network fails
    | Closes(c: ConnId)                  // the close callback
    | HubTakes
    | HubWrites(c: ConnId)

  /** A step that is not enabled changes nothing. */
  function Next(sha: Digest, s: State, step: Step): State {
    match step
    case Handles(e, ts) => if s.hand.Some? then s else Handle(sha, s, e, ts)
    case HandsOver => if s.hand.Some? then HandOver(s) else s
    case HotReload(ts) => s.(hub := Hub.Submit(s.hub, Reload(ts)))
    case Accepts(c) => if c in s.socks then s else s.(socks := s.socks[c := Opened()])
    case Advances(c, ts, list) => if c in s.socks then Advance(s, c, ts, list) else s
    case Answers(c, ts) =>
      if c in s.socks && Rank(s.socks[c].phase) >= 1
      then s.(socks := s.socks[c := Write(s.socks[c], Frame(false, Ping(ts)))]) else s
    case Breaks(c) => if c in s.socks then s.(socks := s.socks[c := s.socks[c].(open := false)]) else s
    case Closes(c) =>
      if c in s.socks && Rank(s.socks[c].phase) >= 1
      then s.(hub := Hub.Leave(s.hub, c), socks := s.socks[c := s.socks[c].(open := false)]) else s
    case HubTakes => s.(hub := Hub.Take(s.hub))
    case HubWrites(c) =>
      if c in s.socks && Hub.Owes(s.hub, c)
      then s.(hub := Hub.WriteTo(s.hub, c),
              socks := s.socks[c := Write(s.socks[c], Frame(true, s.hub.busy.value.msg))])
      else s
  }

  function Run(sha: Digest, s: State, steps: seq<Step>): State {
    if steps == [] then s else Next(sha, Run(sha, s, steps[..|steps| - 1]), steps[|steps| - 1])
  }
}
