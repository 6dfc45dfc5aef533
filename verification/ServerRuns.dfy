/** Runs of the server that show where simpler guarantees fail. */
module ServerRuns {
  import opened Domain
  import opened Wire
  import opened Server
  import opened ServerInvariants
  import opened ServerTheorems
  import Hub

  function Message(sha: Digest, d: InfoData): Msg {
    Info(0, PayloadOf(sha, d))
  }

  lemma StepTo(sha: Digest, s: State, step: Step, t: State)
    requires Reachable(sha, s) && Next(sha, s, step) == t
    ensures Reachable(sha, t)
  {
    ReachableStep(sha, s, step);
  }

  /** An update is published and taken by the hub. */
  function Published(sha: Digest, d: InfoData): State {
    var m := Message(sha, d);
    State(WithInfo(sha, EMPTY_SNAPSHOT, d, 0), None,
      Hub.State([], {}, Some(Hub.Delivery(m, {})), [Hub.Broadcast(m)], 1, 1, 0), map[], [InfoEvent(d)], [m],
          [Queued(0)])
  }

  /** A new info update is handled and handed over without interruption. */
  lemma Publishes(sha: Digest, s: State, d: InfoData, ts: int)
    requires Reachable(sha, s) && s.hand.None? && Hub.HasRoom(s.hub)
    requires s.snap.infoJSON != Some(Info(ts, PayloadOf(sha, d)))
    ensures var m := Info(ts, PayloadOf(sha, d));
            Reachable(sha, s.(snap := WithInfo(sha, s.snap, d, ts), hub := Hub.Submit(s.hub, m),
                              handled := s.handled + [InfoEvent(d)], stored := s.stored + [m],
                              fates := s.fates + [Queued(|s.hub.log|)]))
  {
    ReachableStep(sha, s, Handles(InfoEvent(d), ts));
    var s1 := Next(sha, s, Handles(InfoEvent(d), ts));
    ReachableStep(sha, s1, HandsOver);
    assert s1.fates[..|s1.fates| - 1] == s.fates;
  }

  lemma PublishedIsReachable(sha: Digest, d: InfoData)
    ensures Reachable(sha, Published(sha, d))
  {
    var m, p := Message(sha, d), Published(sha, d);
    assert Run(sha, Init(), []) == Init();
    Publishes(sha, Init(), d, 0);
    var s1 := p.(hub := Hub.State([Hub.Broadcast(m)], {}, None, [Hub.Broadcast(m)], 0, 1, 0));
    assert [] + [InfoEvent(d)] == p.handled && [] + [m] == p.stored && [] + [Queued(0)] == p.fates;
    assert [] + [Hub.Broadcast(m)] == s1.hub.log;
    StepTo(sha, s1, HubTakes, p);
  }

  /** The same event is stored twice when it comes again in another millisecond. */
  lemma OneEventStoredTwice(sha: Digest, d: InfoData, ts: int) returns (s: State)
    requires ts != 0
    ensures Reachable(sha, s) && s.handled == [InfoEvent(d), InfoEvent(d)]
    ensures s.stored == [Message(sha, d), Info(ts, PayloadOf(sha, d))]
  {
    PublishedIsReachable(sha, d);
    var p := Published(sha, d);
    ReachableStep(sha, p, Handles(InfoEvent(d), ts));
    s := Next(sha, p, Handles(InfoEvent(d), ts));
  }

  /** Then a connection joins, is greeted and reads the snapshot. */
  function OneLoaded(sha: Digest, d: InfoData): State {
    var p := Published(sha, d);
    p.(hub := Hub.State([], {0}, None, p.hub.log + [Hub.Add(0)], 2, 1, 0),
       socks := map[0 := Sock(true, Loaded, p.snap, [Frame(false, Hello(0))], Marks(1, 1, 0, 0))])
  }

  function JoinedSock(): Sock {
    Opened().(phase := Joined, marks := Marks(1, 0, 0, 0))
  }

  lemma OneAcceptedIsReachable(sha: Digest, d: InfoData)
    ensures Reachable(sha, Published(sha, d).(socks := map[0 := Opened()]))
  {
    PublishedIsReachable(sha, d);
    var p := Published(sha, d);
    StepTo(sha, p, Accepts(0), p.(socks := map[0 := Opened()]));
  }

  lemma OneJoinedIsReachable(sha: Digest, d: InfoData)
    ensures Reachable(sha, OneLoaded(sha, d).(socks := map[0 := JoinedSock()]))
  {
    OneAcceptedIsReachable(sha, d);
    var p, q := Published(sha, d), OneLoaded(sha, d);
    var s1 := p.(socks := map[0 := Opened()]);
    var s2 := p.(hub := Hub.Enqueue(p.hub, Hub.Add(0)), socks := map[0 := JoinedSock()]);
    assert s1.socks[0 := JoinedSock()] == s2.socks;
    StepTo(sha, s1, Advances(0, 0, []), s2);
    assert s2.hub.queue == [Hub.Add(0)] && s2.hub.queue[1..] == [] && {} + {0} == q.hub.conns;
    StepTo(sha, s2, HubTakes, q.(socks := map[0 := JoinedSock()]));
  }

  lemma OneLoadedIsReachable(sha: Digest, d: InfoData)
    ensures Reachable(sha, OneLoaded(sha, d))
  {
    OneJoinedIsReachable(sha, d);
    var q, k := OneLoaded(sha, d), JoinedSock();
    var s3 := q.(socks := map[0 := k]);
    var g := k.(phase := Greeted, wire := [Frame(false, Hello(0))]);
    var s4 := q.(socks := map[0 := g]);
    assert k.wire + [Frame(false, Hello(0))] == g.wire;
    assert s3.socks[0 := g] == s4.socks;
    StepTo(sha, s3, Advances(0, 0, []), s4);
    assert g.(phase := Loaded, seen := q.snap, marks := Marks(1, 1, 0, 0)) == q.socks[0];
    assert s4.socks[0 := q.socks[0]] == q.socks;
    StepTo(sha, s4, Advances(0, 0, []), q);
  }

  /** A second update is published and written to the connection by the hub. */
  function Overtaken(sha: Digest, d: InfoData, e: InfoData): State {
    var q, n := OneLoaded(sha, d), Message(sha, e);
    q.(snap := WithInfo(sha, q.snap, e, 0),
       hub := Hub.State([], {0}, Some(Hub.Delivery(n, {})), q.hub.log + [Hub.Broadcast(n)], 3, 2, 0),
       socks := map[0 := q.socks[0].(wire := q.socks[0].wire + [Frame(true, n)])],
       handled := q.handled + [InfoEvent(e)], stored := q.stored + [n], fates := [Queued(0), Queued(2)])
  }

  lemma SecondIsReachable(sha: Digest, d: InfoData, e: InfoData)
    requires d.song != e.song
    ensures var q, r := OneLoaded(sha, d), Overtaken(sha, d, e);
            Reachable(sha, r.(hub := Hub.Submit(q.hub, Message(sha, e)), socks := q.socks))
  {
    OneLoadedIsReachable(sha, d);
    Publishes(sha, OneLoaded(sha, d), e, 0);
    assert OneLoaded(sha, d).fates + [Queued(2)] == Overtaken(sha, d, e).fates;
  }

  lemma OvertakenIsReachable(sha: Digest, d: InfoData, e: InfoData)
    requires d.song != e.song
    ensures Reachable(sha, Overtaken(sha, d, e))
  {
    SecondIsReachable(sha, d, e);
    var q, r, n := OneLoaded(sha, d), Overtaken(sha, d, e), Message(sha, e);
    var s2 := r.(hub := Hub.Submit(q.hub, n), socks := q.socks);
    var s3 := r.(hub := r.hub.(busy := Some(Hub.Delivery(n, {0}))), socks := q.socks);
    assert s2.hub.queue == [Hub.Broadcast(n)] && s2.hub.queue[1..] == [];
    StepTo(sha, s2, HubTakes, s3);
    assert {0} - {0} == r.hub.busy.value.left;
    assert s3.socks[0 := r.socks[0]] == r.socks;
    StepTo(sha, s3, HubWrites(0), r);
  }

  /** Only now does OnOpen write what it had read. */
  function WroteLate(sha: Digest, d: InfoData, e: InfoData): Sock {
    var k := Overtaken(sha, d, e).socks[0];
    k.(phase := SentInfo, wire := k.wire + [Frame(false, Message(sha, d))], marks := Marks(1, 1, 3, 2))
  }

  lemma WroteLateIsReachable(sha: Digest, d: InfoData, e: InfoData)
    requires d.song != e.song
    ensures Reachable(sha, Overtaken(sha, d, e).(socks := map[0 := WroteLate(sha, d, e)]))
  {
    OvertakenIsReachable(sha, d, e);
    var r, k := Overtaken(sha, d, e), WroteLate(sha, d, e);
    var s1 := r.(socks := map[0 := k]);
    assert r.socks[0 := k] == s1.socks;
    StepTo(sha, r, Advances(0, 0, []), s1);
  }

  lemma LiveIsReachable(sha: Digest, r: State, k: Sock)
    requires k.phase.SentInfo? && k.seen.progressJSON.None? && Reachable(sha, r.(socks := map[0 := k]))
    ensures Reachable(sha, r.(socks := map[0 := k.(phase := Live)]))
  {
    OneAdvances(sha, r, k, k.(phase := SentProgress));
    OneAdvances(sha, r, k.(phase := SentProgress), k.(phase := Live));
  }

  /** The opening of the only connection takes its next action. */
  lemma OneAdvances(sha: Digest, r: State, k: Sock, next: Sock)
    requires !k.phase.Accepted? && Reachable(sha, r.(socks := map[0 := k]))
    requires next == Opening(k, r.snap, |r.stored|, Hub.Settled(r.hub, 0), 0, [])
    ensures Reachable(sha, r.(socks := map[0 := next]))
  {
    var s := r.(socks := map[0 := k]);
    assert s.socks[0 := next] == map[0 := next];
    StepTo(sha, s, Advances(0, 0, []), r.(socks := map[0 := next]));
  }

  /** The connection ends up, with nothing under way, on the first update although the second was
      stored and written to it. */
  lemma OutdatedSnapshotHappens(sha: Digest, d: InfoData, e: InfoData) returns (s: State)
    requires d.song != e.song
    ensures Reachable(sha, s) && Quiet(s) && Connected(s, 0) && s.socks[0].phase.Live?
    ensures Newest(s.stored) == Some(Message(sha, e)) && LastInfoMsg(Msgs(s.socks[0].wire)) == Some(Message(sha, d))
  {
    WroteLateIsReachable(sha, d, e);
    var r, k := Overtaken(sha, d, e), WroteLate(sha, d, e);
    LiveIsReachable(sha, r, k);
    s := r.(socks := map[0 := k.(phase := Live)]);
    assert Connected(s, 0);
    LateWire(sha, d, e);
  }

  lemma LateWire(sha: Digest, d: InfoData, e: InfoData)
    ensures LastInfoMsg(Msgs(WroteLate(sha, d, e).wire)) == Some(Message(sha, d))
  {
    WireAppend(Overtaken(sha, d, e).socks[0].wire, Frame(false, Message(sha, d)));
  }
}
