/** The guarantees of the server, for every interleaving. */
module ServerTheorems {
  import opened Domain
  import opened Wire
  import opened Server
  import opened ServerInvariants
  import Hub

  ghost predicate Reachable(sha: Digest, s: State) {
    exists steps :: s == Run(sha, Init(), steps)
  }

  lemma ReachableHolds(sha: Digest, s: State)
    requires Reachable(sha, s)
    ensures Inv(sha, s)
  {
    var steps :| s == Run(sha, Init(), steps);
    RunKeeps(sha, steps);
  }

  /** Connection c has joined the hub and nobody asked to remove it. */
  ghost predicate Connected(s: State, c: ConnId) {
    c in s.socks && s.socks[c].open && !s.socks[c].phase.Accepted? && !Removed(s.hub.log, c)
  }

  // No update is missed

  /** Update i is in the hub's queue, with no joining of c left in front of or behind it. */
  ghost predicate QueuedBehindJoin(s: State, c: ConnId, i: nat)
    requires i < |s.stored|
  {
    exists q | 0 <= q < |s.hub.queue| ::
      s.hub.queue[q] == Hub.Broadcast(s.stored[i]) && forall j | q <= j < |s.hub.queue| :: s.hub.queue[j] != Hub.Add(c)
  }

  ghost predicate WrittenByHub(s: State, c: ConnId, m: Msg) {
    c in s.socks && Frame(true, m) in s.socks[c].wire
  }

  /** For every stored update whose broadcast was not dropped and every connection past its snapshot
      read: the snapshot had that update or a newer one, or the update was written to the connection, or
      the hub is writing or holding it behind the joining, or the processor has yet to hand it over. */
  lemma NoUpdateIsMissed(sha: Digest, s: State, c: ConnId, i: nat)
    requires Reachable(sha, s) && Connected(s, c) && Rank(s.socks[c].phase) >= 3
    requires i < |s.stored| && (i < |s.fates| ==> !s.fates[i].Dropped?)
    ensures
      || (i < s.socks[c].marks.readAt <= |s.stored|
          && s.socks[c].seen.infoJSON == Some(s.stored[s.socks[c].marks.readAt - 1]))
      || WrittenByHub(s, c, s.stored[i])
      || (Hub.Owes(s.hub, c) && s.hub.busy.value.msg == s.stored[i])
      || QueuedBehindJoin(s, c, i)
      || s.hand == Some(s.stored[i])
  {
    ReachableHolds(sha, s);
    SnapshotRead(sha, s, c);
    assert FateHolds(s, i);
    if i >= s.socks[c].marks.readAt && s.fates[i].Queued? {
      UpdateIsUnderWay(sha, s, c, i);
    }
  }

  lemma SnapshotRead(sha: Digest, s: State, c: ConnId)
    requires Inv(sha, s) && c in s.socks && Rank(s.socks[c].phase) >= 3
    ensures |s.fates| == |s.stored| && s.socks[c].marks.readAt <= |s.stored|
    ensures s.socks[c].marks.readAt > 0 ==> s.socks[c].seen.infoJSON == Some(s.stored[s.socks[c].marks.readAt - 1])
    ensures s.socks[c].marks.readAt == 0 ==> s.socks[c].seen.infoJSON == None
  {
    assert SockHolds(sha, s.socks[c], c, s.hub.log, Hub.Settled(s.hub, c), s.stored, s.fates);
    ReadMark(sha, s.socks[c], Hub.Settled(s.hub, c), s.stored, s.fates);
  }

  lemma ReadMark(sha: Digest, k: Sock, upTo: nat, stored: seq<Msg>, fates: seq<Fate>)
    requires MarksHold(sha, k, upTo, stored, fates) && Rank(k.phase) >= 3
    ensures k.marks.readAt <= |stored|
    ensures k.seen.infoJSON == if k.marks.readAt > 0 then Some(stored[k.marks.readAt - 1]) else None
    ensures forall i | k.marks.readAt <= i < |fates| && fates[i].Queued? :: fates[i].at > k.marks.addAt
  {
    var readAt := k.marks.readAt;
    if readAt > 0 {
      assert stored[..readAt][readAt - 1] == stored[readAt - 1];
    }
  }

  lemma UpdateIsUnderWay(sha: Digest, s: State, c: ConnId, i: nat)
    requires Inv(sha, s) && Connected(s, c) && Rank(s.socks[c].phase) >= 3
    requires s.socks[c].marks.readAt <= i < |s.stored| && s.fates[i].Queued?
    ensures WrittenByHub(s, c, s.stored[i]) || (Hub.Owes(s.hub, c) && s.hub.busy.value.msg == s.stored[i])
        || QueuedBehindJoin(s, c, i)
  {
    assert FateHolds(s, i);
    assert SockHolds(sha, s.socks[c], c, s.hub.log, Hub.Settled(s.hub, c), s.stored, s.fates);
    ReadMark(sha, s.socks[c], Hub.Settled(s.hub, c), s.stored, s.fates);
    UpdateIsAt(sha, s, c, i);
  }

  lemma UpdateIsAt(sha: Digest, s: State, c: ConnId, i: nat)
    requires Hub.Inv(s.hub) && Connected(s, c) && i < |s.stored| && |s.fates| == |s.stored|
    requires SockHolds(sha, s.socks[c], c, s.hub.log, Hub.Settled(s.hub, c), s.stored, s.fates)
    requires FateHolds(s, i) && s.fates[i].Queued? && s.fates[i].at > s.socks[c].marks.addAt
    ensures WrittenByHub(s, c, s.stored[i]) || (Hub.Owes(s.hub, c) && s.hub.busy.value.msg == s.stored[i])
        || QueuedBehindJoin(s, c, i)
  {
    var at, u := s.fates[i].at, Hub.Settled(s.hub, c);
    if at < u {
      DeliveredReachesWire(sha, s.socks[c], c, s.hub.log, u, s.stored, s.fates, at);
    } else if at >= s.hub.done {
      StillQueued(s, c, i);
    }
  }

  lemma DeliveredReachesWire(sha: Digest, k: Sock, c: ConnId, log: seq<Hub.Cmd>, upTo: nat, stored: seq<Msg>,
      fates: seq<Fate>, at: nat)
    requires SockHolds(sha, k, c, log, upTo, stored, fates) && k.open && !k.phase.Accepted? && !Removed(log, c)
    requires k.marks.addAt < at < upTo && log[at].Broadcast?
    ensures Frame(true, log[at].m) in k.wire
  {
    StaysMember(log, c, k.marks.addAt, upTo);
    SliceLists(log, k.marks.addAt, upTo, at);
    HubPartIsOnWire(k.wire, log[at].m);
  }

  lemma StaysMember(log: seq<Hub.Cmd>, c: ConnId, a: nat, k: nat)
    requires Hub.JoinsAt(log, c, a) && !Removed(log, c) && a < k <= |log|
    ensures Hub.Delivered(log[..k], c) == Hub.Broadcasts(log[a..k])
  {
    Hub.DeliveredIsSegment(log, c, a, k);
    assert Hub.EndOf(log, c, k) == k;
  }

  lemma SliceLists(log: seq<Hub.Cmd>, a: nat, k: nat, at: nat)
    requires a <= at < k <= |log| && log[at].Broadcast?
    ensures log[at].m in Hub.Broadcasts(log[a..k])
  {
    assert log[a..k][at - a] == log[at];
    BroadcastIsListed(log[a..k], at - a);
  }

  lemma StillQueued(s: State, c: ConnId, i: nat)
    requires Hub.Inv(s.hub) && i < |s.stored| && |s.fates| == |s.stored| && FateHolds(s, i) && s.fates[i].Queued?
    requires c in s.socks && Hub.JoinsAt(s.hub.log, c, s.socks[c].marks.addAt)
    requires s.hub.done <= s.fates[i].at && s.socks[c].marks.addAt < s.fates[i].at
    ensures QueuedBehindJoin(s, c, i)
  {
    var q := s.fates[i].at - s.hub.done;
    assert s.hub.queue[q] == s.hub.log[s.fates[i].at];
    forall j | q <= j < |s.hub.queue| ensures s.hub.queue[j] != Hub.Add(c) {
      assert s.hub.queue[j] == s.hub.log[s.hub.done + j];
    }
  }

  lemma {:induction false} BroadcastIsListed(log: seq<Hub.Cmd>, i: nat)
    requires i < |log| && log[i].Broadcast?
    ensures log[i].m in Hub.Broadcasts(log)
  {
    if i < |log| - 1 {
      BroadcastIsListed(log[..|log| - 1], i);
    }
  }

  lemma {:induction false} HubPartIsOnWire(wire: seq<Frame>, m: Msg)
    requires m in HubPart(wire)
    ensures Frame(true, m) in wire
  {
    var f := wire[|wire| - 1];
    if !(f.byHub && f.msg == m) {
      HubPartIsOnWire(wire[..|wire| - 1], m);
    }
  }

  // Delivery order

  /** The broadcasts among the first k commands. */
  function FirstBroadcasts(log: seq<Hub.Cmd>, k: nat): seq<Msg>
    requires k <= |log|
  {
    Hub.Broadcasts(log[..k])
  }

  function WrittenTo(k: Sock): seq<Msg> {
    HubPart(k.wire)
  }

  /** From the joining of c to the end of its membership within the first u commands. */
  ghost predicate IsSegment(k: Sock, c: ConnId, log: seq<Hub.Cmd>, u: nat, from: nat, to: nat)
    requires u <= |log|
  {
    if k.marks.addAt < u then
      && from == |FirstBroadcasts(log, k.marks.addAt)|
      && to <= |FirstBroadcasts(log, Hub.EndOf(log, c, u))|
      && (k.open ==> to == |FirstBroadcasts(log, Hub.EndOf(log, c, u))|)
    else from == to
  }

  /** What the hub wrote to a connection is the segment of the broadcasts it has processed from the
      connection's joining to its removal, complete as long as the connection is open. */
  lemma HubWritesInOrder(sha: Digest, s: State, c: ConnId) returns (from: nat, to: nat)
    requires Reachable(sha, s) && c in s.socks && !s.socks[c].phase.Accepted?
    ensures Hub.Settled(s.hub, c) <= s.hub.done <= |s.hub.log|
    ensures from <= to <= |FirstBroadcasts(s.hub.log, s.hub.done)|
    ensures WrittenTo(s.socks[c]) == FirstBroadcasts(s.hub.log, s.hub.done)[from..to]
    ensures IsSegment(s.socks[c], c, s.hub.log, Hub.Settled(s.hub, c), from, to)
  {
    ReachableHolds(sha, s);
    var k, log, u := s.socks[c], s.hub.log, Hub.Settled(s.hub, c);
    from, to := SegmentOf(sha, k, c, log, u, s.stored, s.fates);
    SegmentGrows(WrittenTo(k), log, u, s.hub.done, from, to);
  }

  lemma FirstGrow(log: seq<Hub.Cmd>, u: nat, k: nat)
    requires u <= k <= |log|
    ensures FirstBroadcasts(log, u) <= FirstBroadcasts(log, k)
  {
    assert log[..k] == log[..u] + log[u..k];
    Hub.BroadcastsConcat(log[..u], log[u..k]);
  }

  lemma SegmentGrows(part: seq<Msg>, log: seq<Hub.Cmd>, u: nat, k: nat, from: nat, to: nat)
    requires u <= k <= |log|
    requires from <= to <= |FirstBroadcasts(log, u)| && part == FirstBroadcasts(log, u)[from..to]
    ensures to <= |FirstBroadcasts(log, k)| && part == FirstBroadcasts(log, k)[from..to]
  {
    FirstGrow(log, u, k);
  }

  lemma SegmentOf(sha: Digest, k: Sock, c: ConnId, log: seq<Hub.Cmd>, u: nat, stored: seq<Msg>, fates: seq<Fate>)
      returns (from: nat, to: nat)
    requires SockHolds(sha, k, c, log, u, stored, fates) && !k.phase.Accepted?
    ensures from <= to <= |FirstBroadcasts(log, u)| && WrittenTo(k) == FirstBroadcasts(log, u)[from..to]
    ensures IsSegment(k, c, log, u, from, to)
  {
    if u <= k.marks.addAt {
      Hub.DeliveredIsSegment(log, c, k.marks.addAt, u);
      from, to := 0, 0;
    } else {
      from, to := Hub.DeliveryIsContiguous(log, c, k.marks.addAt, u);
      to := from + |WrittenTo(k)|;
    }
  }

  /** Any two connections agree on order: what the hub wrote to the one that joined later is, message by
      message, what it wrote to the other from that joining on, as far as both reach. `skip` counts
      the broadcasts between the two joinings. */
  lemma ConnectionsAgreeOnOrder(sha: Digest, s: State, c: ConnId, d: ConnId) returns (skip: nat)
    requires Reachable(sha, s) && c in s.socks && d in s.socks
    requires !s.socks[c].phase.Accepted? && !s.socks[d].phase.Accepted?
    requires s.socks[c].marks.addAt <= s.socks[d].marks.addAt < |s.hub.log|
    ensures var a, b := s.socks[c].marks.addAt, s.socks[d].marks.addAt;
            |FirstBroadcasts(s.hub.log, b)| == |FirstBroadcasts(s.hub.log, a)| + skip
    ensures var first, second := WrittenTo(s.socks[c]), WrittenTo(s.socks[d]);
            forall i: nat | skip + i < |first| && i < |second| :: first[skip + i] == second[i]
  {
    var a, b := s.socks[c].marks.addAt, s.socks[d].marks.addAt;
    FirstGrow(s.hub.log, a, b);
    skip := |FirstBroadcasts(s.hub.log, b)| - |FirstBroadcasts(s.hub.log, a)|;
    var from0, to0 := HubWritesInOrder(sha, s, c);
    var from1, to1 := HubWritesInOrder(sha, s, d);
    var both := a < Hub.Settled(s.hub, c) && b < Hub.Settled(s.hub, d);
    SegmentsAgree(FirstBroadcasts(s.hub.log, s.hub.done), from0, to0, from1, to1, skip, both);
  }

  /** Two segments, one beginning `skip` after the other, or one of them empty. */
  lemma SegmentsAgree(msgs: seq<Msg>, from0: nat, to0: nat, from1: nat, to1: nat, skip: nat, both: bool)
    requires from0 <= to0 <= |msgs| && from1 <= to1 <= |msgs|
    requires if both then from1 == from0 + skip else from0 == to0 || from1 == to1
    ensures var first, second := msgs[from0..to0], msgs[from1..to1];
            forall i: nat | skip + i < |first| && i < |second| :: first[skip + i] == second[i]
  {
  }

  /** Submitted broadcasts are processed, queued or dropped. */
  lemma BroadcastsAreConserved(sha: Digest, s: State)
    requires Reachable(sha, s)
    ensures s.hub.submitted == |Hub.Broadcasts(Hub.Processed(s.hub))| + |Hub.Broadcasts(s.hub.queue)| + s.hub.dropped
  {
    ReachableHolds(sha, s);
    Hub.HubConserves(s.hub);
  }

  // Snapshots

  /** The address of some art: none, or the route with the digest of exactly its bytes. */
  function Address(sha: Digest, art: Bytes): string {
    if art == [] then "" else "/albumArt/" + sha(art)
  }

  /** The info message of an event, field by field. */
  function MessageOf(sha: Digest, d: InfoData, ts: int): Msg {
    Info(ts, InfoPayload(
      song := Song(artist := d.song.artist, title := d.song.title),
      albumTitle := d.albumTitle, albumArtist := d.albumArtist,
      playbackType := d.playbackType, sourceApp := d.sourceApp,
      albumArt := Address(sha, d.thumb)))
  }

  /** Every published snapshot, and every snapshot a connection has read, advertises an address
      exactly when there is art, and fetching that address yields exactly the art of its info, with its
      content type (or the one for unknown data); any other address is not found. */
  lemma SnapshotsAreCoherent(sha: Digest, s: State, snap: Snapshot)
    requires Reachable(sha, s)
    requires snap == s.snap || exists c | c in s.socks && Rank(s.socks[c].phase) >= 3 :: snap == s.socks[c].seen
    ensures Coherent(sha, snap)
    ensures snap.info.Some? ==>
              var url := snap.infoJSON.value.payload.albumArt;
              && snap.infoJSON.value == MessageOf(sha, snap.info.value, snap.infoJSON.value.ts)
              && (url == "" <==> snap.info.value.thumb == [])
              && forall hash :: FetchArt(snap, hash) ==
                   if hash != "" && url == ArtURL(hash) then ArtOf(snap.info.value) else NotFound
  {
    ReachableHolds(sha, s);
    assert Coherent(sha, snap);
    if snap.info.Some? {
      forall hash
        ensures FetchArt(snap, hash) ==
                  if hash != "" && snap.infoJSON.value.payload.albumArt == ArtURL(hash) then ArtOf(snap.info.value)
                      else NotFound
      {
        if hash != "" && snap.infoJSON.value.payload.albumArt == ArtURL(hash) {
          SameURL(hash, snap.artHash);
        }
      }
    }
  }

  /** The response that carries the art of an info. */
  function ArtOf(d: InfoData): Response {
    Served(if d.thumbType == "" then "application/octet-stream" else d.thumbType, d.thumb)
  }

  // Suppressed updates

  /** An info event is suppressed exactly when the newest update says the same with the same time stamp;
      otherwise its message is stored, with its own art and content type, and then handed over. */
  lemma InfoSuppressedIff(sha: Digest, s: State, d: InfoData, ts: int)
    requires Reachable(sha, s) && s.hand.None?
    ensures var t := Next(sha, s, Handles(InfoEvent(d), ts)); var m := MessageOf(sha, d, ts);
            if s.stored != [] && s.stored[|s.stored| - 1] == m
            then t == s.(handled := t.handled)
            else
              && t.stored == s.stored + [m] && t.hand == Some(m)
              && t.snap.infoJSON == Some(m) && t.snap.info == Some(d)
              && t.snap.progress == s.snap.progress && t.snap.progressJSON == s.snap.progressJSON
              && forall hash :: FetchArt(t.snap, hash) ==
                   if d.thumb != [] && hash == sha(d.thumb) then ArtOf(d) else NotFound
  {
    ReachableHolds(sha, s);
  }

  /** The other events: a session list is handed over as it is, a device change is only noted. */
  lemma OtherEvents(sha: Digest, s: State, list: seq<SessionInfo>, app: string, ts: int)
    requires s.hand.None?
    ensures var t := Next(sha, s, Handles(SessionsChangedEvent(list), ts));
            t == s.(handled := t.handled, hand := Some(Sessions(ts, list)))
    ensures var t := Next(sha, s, Handles(DeviceChangedEvent(app), ts)); t == s.(handled := t.handled)
  {
  }

  function Entering(queue: seq<Hub.Cmd>, cmd: Hub.Cmd): seq<Hub.Cmd> {
    if |queue| < 64 then queue + [cmd] else queue
  }

  /** What the processor has in hand, of whatever kind, and a reload enter the hub's queue unless 64 commands
      wait there. */
  lemma BroadcastEntersIff(sha: Digest, s: State, ts: int)
    ensures s.hand.Some? ==>
              Next(sha, s, HandsOver).hand == None &&
              Next(sha, s, HandsOver).hub.queue == Entering(s.hub.queue, Hub.Broadcast(s.hand.value))
    ensures Next(sha, s, HotReload(ts)).hub.queue == Entering(s.hub.queue, Hub.Broadcast(Reload(ts)))
  {
  }

  /** A joining waits while 64 commands are queued. */
  lemma JoiningEntersIff(sha: Digest, s: State, c: ConnId, ts: int, list: seq<SessionInfo>)
    requires c in s.socks && s.socks[c].phase.Accepted?
    ensures var t := Next(sha, s, Advances(c, ts, list));
            t.hub.queue == Entering(s.hub.queue, Hub.Add(c)) && (t.socks[c].phase.Joined? <==> |s.hub.queue| < 64)
  {
  }

  /** A removal is dropped while 64 commands are queued, though the connection is closed all the same. */
  lemma RemovalEntersIff(sha: Digest, s: State, c: ConnId)
    requires c in s.socks && !s.socks[c].phase.Accepted?
    ensures var t := Next(sha, s, Closes(c));
            t.hub.queue == Entering(s.hub.queue, Hub.Remove(c)) && !t.socks[c].open
  {
  }

  /** A progress event is suppressed exactly when the last one handled was the same, and the message
      published for it carries the same time stamp. */
  lemma ProgressSuppressedIff(sha: Digest, s: State, p: ProgressData, ts: int)
    requires Reachable(sha, s) && s.hand.None?
    ensures var t := Next(sha, s, Handles(ProgressEvent(p), ts));
            if LastProgress(s.handled) == Some(p) && s.snap.progressJSON.Some? && s.snap.progressJSON.value.ts == ts
            then t == s.(handled := t.handled) else t.hand == Some(Progress(ts, p))
  {
    ReachableHolds(sha, s);
  }

  lemma SameURL(a: string, b: string)
    requires ArtURL(a) == ArtURL(b)
    ensures a == b
  {
    var prefix := "/albumArt/";
    if a != "" && b != "" {
      assert (prefix + a)[|prefix|..] == a && (prefix + b)[|prefix|..] == b;
    }
  }

  // The last message a connection got

  /** Nothing is under way in the server. */
  ghost predicate Quiet(s: State) {
    s.hand.None? && s.hub.queue == [] && Hub.Idle(s.hub)
  }

  /** OnOpen read the newest update, or nothing, or it wrote what it read before the hub took the
      newest update (or it happened to read an equal message). */
  predicate InTime(k: Sock, at: nat, stored: seq<Msg>) {
    || k.marks.readAt >= |stored|
    || k.marks.readAt == 0
    || k.marks.wroteAt <= at
    || stored[k.marks.readAt - 1] == stored[|stored| - 1]
  }

  /** Exactly when the last info message written to a connection is the newest update: not when
      OnOpen read an older snapshot and wrote it only after the hub had already taken the update. */
  lemma NewestArrivesIff(sha: Digest, s: State, c: ConnId)
    requires Reachable(sha, s) && Quiet(s) && Connected(s, c) && Rank(s.socks[c].phase) >= 4
    requires s.stored != [] && |s.fates| == |s.stored| && s.fates[|s.fates| - 1].Queued?
    ensures LastInfoMsg(Msgs(s.socks[c].wire)) == Newest(s.stored) <==>
              InTime(s.socks[c], s.fates[|s.fates| - 1].at, s.stored)
  {
    ReachableHolds(sha, s);
    NewestArrives(sha, s, c);
  }

  lemma NewestArrives(sha: Digest, s: State, c: ConnId)
    requires Inv(sha, s) && Quiet(s) && Connected(s, c) && Rank(s.socks[c].phase) >= 4
    requires s.stored != [] && |s.fates| == |s.stored| && s.fates[|s.fates| - 1].Queued?
    ensures LastInfoMsg(Msgs(s.socks[c].wire)) == Newest(s.stored) <==>
              InTime(s.socks[c], s.fates[|s.fates| - 1].at, s.stored)
    ensures !InTime(s.socks[c], s.fates[|s.fates| - 1].at, s.stored) ==>
              LastInfoMsg(Msgs(s.socks[c].wire)) == Some(s.stored[s.socks[c].marks.readAt - 1])
    ensures s.socks[c].marks.wroteSeen < |s.stored| ==> InTime(s.socks[c], s.fates[|s.fates| - 1].at, s.stored)
  {
    NewestQueued(sha, s, c);
    QuietWire(sha, s, c);
    NewestFromFacts(s, c);
  }

  /** What the invariant says about the newest update and one connection. */
  ghost predicate NewestFacts(s: State, c: ConnId)
    requires c in s.socks && s.stored != [] && |s.fates| == |s.stored| && s.fates[|s.fates| - 1].Queued?
  {
    var n, k := |s.stored|, s.socks[c]; var at := s.fates[n - 1].at;
    && IsLogged(s, at)
    && MarksBefore(k, at, n)
    && k.marks.readAt <= n
    && k.seen.infoJSON == (if k.marks.readAt == 0 then None else Some(s.stored[k.marks.readAt - 1]))
  }

  lemma NewestFromFacts(s: State, c: ConnId)
    requires c in s.socks && s.stored != [] && |s.fates| == |s.stored| && s.fates[|s.fates| - 1].Queued?
    requires NewestFacts(s, c) && Rank(s.socks[c].phase) >= 4
    ensures Expected(s.socks[c], s.hub.log, |s.hub.log|) == Newest(s.stored) <==>
              InTime(s.socks[c], s.fates[|s.fates| - 1].at, s.stored)
    ensures !InTime(s.socks[c], s.fates[|s.fates| - 1].at, s.stored) ==>
              Expected(s.socks[c], s.hub.log, |s.hub.log|) == Some(s.stored[s.socks[c].marks.readAt - 1])
    ensures s.socks[c].marks.wroteSeen < |s.stored| ==> InTime(s.socks[c], s.fates[|s.fates| - 1].at, s.stored)
  {
    ExpectedIsNewest(s.socks[c], s.hub.log, s.fates[|s.stored| - 1].at, s.stored);
  }

  lemma NewestQueued(sha: Digest, s: State, c: ConnId)
    requires Inv(sha, s) && c in s.socks && Rank(s.socks[c].phase) >= 4
    requires s.stored != [] && |s.fates| == |s.stored| && s.fates[|s.fates| - 1].Queued?
    ensures NewestFacts(s, c)
  {
    NewestLogged(s);
    SnapshotRead(sha, s, c);
    assert SockHolds(sha, s.socks[c], c, s.hub.log, Hub.Settled(s.hub, c), s.stored, s.fates);
    NewestAfterMarks(sha, s.socks[c], c, s.hub.log, Hub.Settled(s.hub, c), s.stored, s.fates);
    assert MarksBefore(s.socks[c], s.fates[|s.fates| - 1].at, |s.stored|);
  }

  /** A mark older than the newest of n updates is older than its place in the log. */
  predicate MarksBefore(k: Sock, at: nat, n: nat) {
    && (k.marks.readAt < n ==> at > k.marks.addAt)
    && (k.marks.wroteSeen < n ==> at >= k.marks.wroteAt)
  }

  /** The newest update is in the log, and no other one behind it. */
  ghost predicate IsLogged(s: State, at: nat) {
    && s.stored != [] && at < |s.hub.log|
    && s.hub.log[at] == Hub.Broadcast(s.stored[|s.stored| - 1]) && s.stored[|s.stored| - 1].Info?
    && forall j | at < j < |s.hub.log| :: !Hub.IsInfo(s.hub.log[j])
  }

  lemma NewestLogged(s: State)
    requires Stores(s) && s.stored != [] && s.fates[|s.fates| - 1].Queued?
    ensures IsLogged(s, s.fates[|s.fates| - 1].at)
  {
    assert FateHolds(s, |s.stored| - 1);
  }

  lemma NewestAfterMarks(sha: Digest, k: Sock, c: ConnId, log: seq<Hub.Cmd>, upTo: nat, stored: seq<Msg>,
      fates: seq<Fate>)
    requires SockHolds(sha, k, c, log, upTo, stored, fates) && Rank(k.phase) >= 4
    requires fates != [] && |fates| == |stored| && fates[|fates| - 1].Queued?
    ensures MarksBefore(k, fates[|fates| - 1].at, |stored|)
  {
  }

  lemma QuietWire(sha: Digest, s: State, c: ConnId)
    requires Inv(sha, s) && Quiet(s) && Connected(s, c)
    ensures LastInfoMsg(Msgs(s.socks[c].wire)) == Expected(s.socks[c], s.hub.log, |s.hub.log|)
  {
    assert Hub.Settled(s.hub, c) == |s.hub.log|;
  }

  /** The same for one connection when the hub has taken everything. */
  lemma ExpectedIsNewest(k: Sock, log: seq<Hub.Cmd>, at: nat, stored: seq<Msg>)
    requires Rank(k.phase) >= 4 && stored != [] && at < |log|
    requires log[at] == Hub.Broadcast(stored[|stored| - 1]) && stored[|stored| - 1].Info?
    requires forall j | at < j < |log| :: !Hub.IsInfo(log[j])
    requires k.marks.readAt <= |stored|
    requires k.seen.infoJSON == if k.marks.readAt == 0 then None else Some(stored[k.marks.readAt - 1])
    requires k.marks.readAt < |stored| ==> at > k.marks.addAt
    ensures Expected(k, log, |log|) == Newest(stored) <==> InTime(k, at, stored)
    ensures !InTime(k, at, stored) ==> Expected(k, log, |log|) == Some(stored[k.marks.readAt - 1])
  {
    Hub.NewestInfoIs(log, Max(k.marks.addAt, k.marks.wroteAt), |log|, at);
    Hub.NewestInfoIs(log, k.marks.addAt, |log|, at);
  }

  /** In particular it arrives at every connection whose OnOpen wrote its snapshot before the
      update was stored. */
  lemma NewestArrivesAfterOpening(sha: Digest, s: State, c: ConnId)
    requires Reachable(sha, s) && Quiet(s) && Connected(s, c) && Rank(s.socks[c].phase) >= 4
    requires s.stored != [] && |s.fates| == |s.stored| && s.fates[|s.fates| - 1].Queued?
    requires s.socks[c].marks.wroteSeen < |s.stored|
    ensures LastInfoMsg(Msgs(s.socks[c].wire)) == Newest(s.stored)
  {
    ReachableHolds(sha, s);
    NewestArrives(sha, s, c);
  }

  lemma ReachableStep(sha: Digest, s: State, step: Step)
    requires Reachable(sha, s)
    ensures Reachable(sha, Next(sha, s, step))
  {
    var steps :| s == Run(sha, Init(), steps);
    assert (steps + [step])[..|steps|] == steps;
    assert Run(sha, Init(), steps + [step]) == Next(sha, s, step);
  }
}
