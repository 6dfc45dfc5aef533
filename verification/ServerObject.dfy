/** The server's handlers as methods over the atomic snapshot pointer, the hub and a socket. */
module ServerObject {
  import opened Domain
  import opened Wire
  import opened Server
  import Hub
  import HubObject

  /** An info event as it arrives: its art is a buffer that belongs to the sender. */
  datatype Arrival = Arrival(
    song: Song, thumbType: string, thumb: array<bv8>,
    albumTitle: string, albumArtist: string, playbackType: int, sourceApp: string)

  ghost function DataOf(a: Arrival): InfoData
    reads a.thumb
  {
    InfoData(a.song, a.thumbType, a.thumb[..], a.albumTitle, a.albumArtist, a.playbackType, a.sourceApp)
  }

  /** A snapshot. Nothing but the handlers' care keeps a published one from being assigned to. */
  class StateSnapshot {
    var info: Option<Arrival>
    var progress: Option<ProgressData>
    var infoJSON: Option<Msg>
    var progressJSON: Option<Msg>
    var artHash: string
    var artData: array<bv8>
    var artType: string

    /** The empty snapshot. */
    constructor ()
      ensures fresh(artData) && info.None? && View() == EMPTY_SNAPSHOT
    {
      info, progress, infoJSON, progressJSON := None, None, None, None;
      artHash, artType := "", "";
      artData := new bv8[0];
    }

    ghost function Buffers(): set<object>
      reads this
    {
      {artData} + if info.Some? then {info.value.thumb} else {}
    }

    ghost function View(): Snapshot
      reads this, Buffers()
    {
      Snapshot(if info.Some? then Some(DataOf(info.value)) else None, progress, infoJSON, progressJSON, artHash,
          artData[..], artType)
    }

    /** The info and art of an event, each in a buffer of its own. */
    method AdoptInfo(sha: Digest, data: Arrival)
      modifies this`info, this`artData, this`artType, this`artHash
      ensures fresh(Buffers())
      ensures View() == WithArt(sha, old(View()), DataOf(data))
    {
      var thumb := Copied(data.thumb);
      info := Some(data.(thumb := thumb));
      artData := Copied(data.thumb);
      if data.thumb.Length > 0 {
        artType := data.thumbType;
        artHash := sha(artData[..]);
      } else {
        artType := "";
        artHash := "";
      }
    }

    /** cloneState: the fields are copied, then the art gets a buffer of its own. */
    method Clone() returns (next: StateSnapshot)
      ensures fresh(next) && fresh(next.artData) && next.info == info && next.View() == View()
    {
      next := new StateSnapshot();
      next.info, next.progress, next.infoJSON, next.progressJSON := info, progress, infoJSON, progressJSON;
      next.artHash, next.artType := artHash, artType;
      next.artData := Copied(artData);
    }
  }

  method Copied(bytes: array<bv8>) returns (copy: array<bv8>)
    ensures fresh(copy) && copy[..] == bytes[..]
  {
    copy := new bv8[bytes.Length];
    for i := 0 to bytes.Length
      invariant copy[..i] == bytes[..i]
    {
      copy[i] := bytes[i];
    }
  }

  // What publishing does to the snapshot and the hub

  /** One whole event: store and broadcast, unless the message is the published one. */
  function Publish(sha: Digest, snap: Snapshot, hub: Hub.State, e: Event, ts: int): (Snapshot, Hub.State) {
    match e
    case InfoEvent(d) =>
      var next := WithInfo(sha, snap, d, ts);
      if snap.infoJSON == next.infoJSON then (snap, hub) else (next, Hub.Submit(hub, next.infoJSON.value))
    case ProgressEvent(p) =>
      var next := WithProgress(snap, p, ts);
      if snap.progressJSON == next.progressJSON then (snap, hub) else (next, Hub.Submit(hub, next.progressJSON.value))
    case SessionsChangedEvent(list) => (snap, Hub.Submit(hub, Sessions(ts, list)))
    case DeviceChangedEvent(_) => (snap, hub)
  }

  /** An event handled without interruption is the processor's two steps, Store before Broadcast. */
  lemma PublishIsStoreThenBroadcast(sha: Digest, s: State, e: Event, ts: int)
    requires s.hand.None?
    ensures var t := Next(sha, Next(sha, s, Handles(e, ts)), HandsOver);
            t.hand.None? && (t.snap, t.hub) == Publish(sha, s.snap, s.hub, e, ts) && t.handled == s.handled + [e]
  {
  }

  /** What OnOpen writes for a snapshot. */
  function Greeting(snap: Snapshot, ts: int, list: seq<SessionInfo>): seq<Msg> {
    [Hello(ts)]
    + (if snap.infoJSON.Some? then [snap.infoJSON.value] else [])
    + (if snap.progressJSON.Some? then [snap.progressJSON.value] else [])
    + (if list != [] then [Sessions(ts, list)] else [])
  }

  /** The five actions of an opening that nothing interrupts write the greeting. */
  lemma OpeningWritesGreeting(k: Sock, snap: Snapshot, stored: nat, upTo: nat, ts: int, list: seq<SessionInfo>)
    requires k.phase.Joined? && k.open
    ensures var act := (k: Sock) => Opening(k, snap, stored, upTo, ts, list);
            var t := act(act(act(act(act(k)))));
            t.phase.Live? && t.wire == k.wire + FramesOf(Greeting(snap, ts, list))
  {
    var k1 := Opening(k, snap, stored, upTo, ts, list);
    var k2 := Opening(k1, snap, stored, upTo, ts, list);
    var k3 := Opening(k2, snap, stored, upTo, ts, list);
    var k4 := Opening(k3, snap, stored, upTo, ts, list);
    assert k1.wire == k.wire + FramesOf([Hello(ts)]) && k2.seen == snap;
    assert k4.wire == k.wire + FramesOf([Hello(ts)] + (if snap.infoJSON.Some? then [snap.infoJSON.value] else [])
                                        + (if snap.progressJSON.Some? then [snap.progressJSON.value] else []));
  }

  function FramesOf(msgs: seq<Msg>): seq<Frame> {
    seq(|msgs|, i requires 0 <= i < |msgs| => Frame(false, msgs[i]))
  }

  // The handlers

  class Publisher {
    const sha: Digest
    const hub: HubObject.HubLoop
    var state: StateSnapshot

    constructor (sha: Digest)
      ensures fresh(hub) && hub.Valid() && hub.View() == Hub.Init()
      ensures fresh(state) && fresh(state.Buffers()) && state.View() == EMPTY_SNAPSHOT
    {
      this.sha := sha;
      hub := new HubObject.HubLoop();
      state := new StateSnapshot();
    }

    /** The new snapshot is a fresh object with fresh buffers: it shares none with the event. As only the
        pointer and the hub may be modified, no snapshot that was ever published is assigned to. */
    method HandleInfoEvent(data: Arrival, ts: int)
      requires hub.Valid()
      modifies this`state, hub
      ensures hub.Valid()
      ensures (state.View(), hub.View()) == Publish(sha, old(state.View()), old(hub.View()), InfoEvent(DataOf(data)),
          ts)
      ensures state == old(state) || (fresh(state) && fresh(state.Buffers()))
      ensures old(state).View() == old(state.View())
    {
      var next := state.Clone();
      next.AdoptInfo(sha, data);
      var url := ArtURL(next.artHash);
      var msg := Info(ts, InfoPayload(data.song, data.albumTitle, data.albumArtist, data.playbackType, data.sourceApp,
          url));
      if state.infoJSON == Some(msg) {
        return;
      }
      next.infoJSON := Some(msg);
      state := next;
      hub.Broadcast(msg);
    }

    /** The clone shares the (unchanging) info with its predecessor, but not the art. */
    method HandleProgressEvent(data: ProgressData, ts: int)
      requires hub.Valid()
      modifies this`state, hub
      ensures hub.Valid()
      ensures (state.View(), hub.View()) == Publish(sha, old(state.View()), old(hub.View()), ProgressEvent(data), ts)
      ensures state == old(state) || (fresh(state) && fresh(state.artData) && state.info == old(state.info))
      ensures old(state).View() == old(state.View())
    {
      var next := state.Clone();
      next.progress := Some(data);
      var msg := Progress(ts, data);
      if state.progressJSON == Some(msg) {
        return;
      }
      next.progressJSON := Some(msg);
      state := next;
      hub.Broadcast(msg);
    }

    /** GET /albumArt/{hash} */
    method HandleAlbumArt(hash: string) returns (response: Response)
      ensures response == FetchArt(state.View(), hash)
    {
      var snap := state;
      if snap.artHash == "" || hash != snap.artHash || snap.artData.Length == 0 {
        return NotFound;
      }
      var contentType := snap.artType;
      if contentType == "" {
        contentType := UNKNOWN_TYPE;
      }
      return Served(contentType, snap.artData[..]);
    }

    /** OnOpen of a connection that the hub does not write to meanwhile. */
    method OnOpen(conn: HubObject.Conn, ts: int, list: seq<SessionInfo>)
      requires hub.Valid() && Hub.HasRoom(hub.View()) && HubObject.Distinct(hub.known + {conn})
      modifies hub, conn`written
      ensures hub.Valid() && hub.View() == Hub.Enqueue(old(hub.View()), Hub.Add(conn.id))
      ensures conn.written == old(conn.written) + if conn.open then Greeting(state.View(), ts, list) else []
    {
      hub.Add(conn);
      var ok := conn.WriteMessage(Hello(ts));
      var snap := state;
      if snap.infoJSON.Some? {
        ok := conn.WriteMessage(snap.infoJSON.value);
      }
      if snap.progressJSON.Some? {
        ok := conn.WriteMessage(snap.progressJSON.value);
      }
      if list != [] {
        ok := conn.WriteMessage(Sessions(ts, list));
      }
    }
  }
}
