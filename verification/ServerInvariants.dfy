/** What every interleaving of the server's steps keeps. */
module ServerInvariants {
  import opened Domain
  import opened Wire
  import opened Server
  import Hub

  // Snapshots

  /** The published messages encode the published data, with the address of exactly its art. */
  ghost predicate Coherent(sha: Digest, s: Snapshot) {
    && s.artHash == HashOf(sha, s.artData)
    && s.info.Some? == s.infoJSON.Some?
    && (s.info.Some? ==> s.artData == s.info.value.thumb && s.infoJSON.value.Info?)
    && (s.info.Some? ==> s.infoJSON.value.payload == PayloadOf(sha, s.info.value))
    && (s.info.Some? ==> s.artType == if s.artData == [] then "" else s.info.value.thumbType)
    && (s.info.None? ==> s.artData == [])
    && s.progress.Some? == s.progressJSON.Some?
    && (s.progress.Some? ==> s.progressJSON.value.Progress? && s.progressJSON.value.progress == s.progress.value)
  }

  /** The snapshot is about the newest handled events. */
  ghost predicate Follows(sha: Digest, s: Snapshot, handled: seq<Event>) {
    && (LastInfo(handled).Some? <==> s.info.Some?)
    && (LastInfo(handled).Some? ==> PayloadOf(sha, s.info.value) == PayloadOf(sha, LastInfo(handled).value))
    && s.progress == LastProgress(handled)
  }

  // Stored updates and their fates

  function Newest(msgs: seq<Msg>): Option<Msg> {
    if msgs == [] then None else Some(msgs[|msgs| - 1])
  }

  ghost predicate FateHolds(s: State, i: nat)
    requires |s.fates| == |s.stored| && i < |s.fates|
  {
    && (s.fates[i].Pending? ==> i == |s.stored| - 1 && s.hand == Some(s.stored[i]))
    && (s.fates[i].Queued? ==> s.fates[i].at < |s.hub.log| && s.hub.log[s.fates[i].at] == Hub.Broadcast(s.stored[i]))
  }

  ghost predicate Stores(s: State) {
    && |s.fates| == |s.stored|
    && (forall i | 0 <= i < |s.stored| :: s.stored[i].Info?)
    && s.snap.infoJSON == Newest(s.stored)
    && (forall i | 0 <= i < |s.fates| :: FateHolds(s, i))
    && (s.hand.Some? && s.hand.value.Info? ==>
        s.stored != [] && s.fates[|s.fates| - 1].Pending? && s.hand == Newest(s.stored))
    && (s.stored != [] && s.fates[|s.fates| - 1].Queued? ==>
          forall j | s.fates[|s.fates| - 1].at < j < |s.hub.log| :: !Hub.IsInfo(s.hub.log[j]))
  }

  // Connections

  function HubPart(wire: seq<Frame>): seq<Msg> {
    if wire == [] then []
    else
      var f := wire[|wire| - 1];
      if f.byHub then HubPart(wire[..|wire| - 1]) + [f.msg] else HubPart(wire[..|wire| - 1])
  }

  ghost predicate Removed(log: seq<Hub.Cmd>, c: ConnId) {
    exists i | 0 <= i < |log| :: log[i] == Hub.Remove(c)
  }

  ghost predicate Unmentioned(log: seq<Hub.Cmd>, c: ConnId) {
    forall i | 0 <= i < |log| :: log[i] != Hub.Add(c) && log[i] != Hub.Remove(c)
  }

  function Max(a: nat, b: nat): nat {
    if a < b then b else a
  }

  /** The last info message a connection must have been written when the hub has come to
      `upTo` for it: a broadcast later than its snapshot, else the snapshot, else an earlier one. */
  function Expected(k: Sock, log: seq<Hub.Cmd>, upTo: nat): Option<Msg>
    requires upTo <= |log|
  {
    if Rank(k.phase) < 4 then Hub.NewestInfo(log, k.marks.addAt, upTo)
    else
      var live := Hub.NewestInfo(log, Max(k.marks.addAt, k.marks.wroteAt), upTo);
      if live.Some? then live
      else if k.seen.infoJSON.Some? then k.seen.infoJSON
      else Hub.NewestInfo(log, k.marks.addAt, upTo)
  }

  ghost predicate WireHolds(k: Sock, c: ConnId, log: seq<Hub.Cmd>, upTo: nat)
    requires upTo <= |log|
  {
    && HubPart(k.wire) <= Hub.Delivered(log[..upTo], c)
    && (k.open ==> HubPart(k.wire) == Hub.Delivered(log[..upTo], c))
    && (k.open && !Removed(log, c) ==> LastInfoMsg(Msgs(k.wire)) == Expected(k, log, upTo))
  }

  ghost predicate MarksHold(sha: Digest, k: Sock, upTo: nat, stored: seq<Msg>, fates: seq<Fate>) {
    && (Rank(k.phase) >= 3 ==>
          && k.marks.readAt <= |stored|
          && k.seen.infoJSON == Newest(stored[..k.marks.readAt])
          && Coherent(sha, k.seen)
          && forall i | k.marks.readAt <= i < |fates| && fates[i].Queued? :: fates[i].at > k.marks.addAt)
    && (Rank(k.phase) >= 4 ==>
          && k.marks.wroteAt <= upTo
          && k.marks.readAt <= k.marks.wroteSeen <= |stored|
          && forall i | k.marks.wroteSeen <= i < |fates| && fates[i].Queued? :: fates[i].at >= k.marks.wroteAt)
  }

  ghost predicate SockHolds(sha: Digest, k: Sock, c: ConnId, log: seq<Hub.Cmd>, upTo: nat, stored: seq<Msg>,
      fates: seq<Fate>) {
    && upTo <= |log|
    && (k.phase.Accepted? ==> Unmentioned(log, c) && k.wire == [])
    && (!k.phase.Accepted? ==> Hub.JoinsAt(log, c, k.marks.addAt) && WireHolds(k, c, log, upTo))
    && MarksHold(sha, k, upTo, stored, fates)
  }

  ghost predicate SocksHold(sha: Digest, s: State) {
    && (forall c | c in s.socks :: SockHolds(sha, s.socks[c], c, s.hub.log, Hub.Settled(s.hub, c), s.stored, s.fates))
    && (forall i | 0 <= i < |s.hub.log| && !s.hub.log[i].Broadcast? :: s.hub.log[i].c in s.socks)
  }

  ghost predicate Inv(sha: Digest, s: State) {
    && Hub.Inv(s.hub)
    && Coherent(sha, s.snap)
    && Follows(sha, s.snap, s.handled)
    && Stores(s)
    && SocksHold(sha, s)
  }

  lemma InitHolds(sha: Digest)
    ensures Inv(sha, Init())
  {
  }

  // How one connection's invariant survives

  lemma WireAppend(wire: seq<Frame>, f: Frame)
    ensures HubPart(wire + [f]) == if f.byHub then HubPart(wire) + [f.msg] else HubPart(wire)
    ensures Msgs(wire + [f]) == Msgs(wire) + [f.msg]
    ensures LastInfoMsg(Msgs(wire + [f])) == if f.msg.Info? then Some(f.msg) else LastInfoMsg(Msgs(wire))
  {
    assert (wire + [f])[..|wire|] == wire;
    assert Msgs(wire + [f]) == Msgs(wire) + [f.msg];
    LastInfoMsgAppend(Msgs(wire), f.msg);
  }

  /** A command of somebody else (or this connection's own removal) is queued. */
  lemma SockLogGrows(sha: Digest, k: Sock, c: ConnId, log: seq<Hub.Cmd>, cmd: Hub.Cmd, upTo: nat, stored: seq<Msg>,
      fates: seq<Fate>)
    requires SockHolds(sha, k, c, log, upTo, stored, fates)
    requires cmd != Hub.Add(c) && (k.phase.Accepted? ==> cmd != Hub.Remove(c))
    ensures SockHolds(sha, k, c, log + [cmd], upTo, stored, fates)
  {
    var longer := log + [cmd];
    assert longer[..upTo] == log[..upTo];
    if !k.phase.Accepted? {
      assert forall i | 0 <= i < |log| :: longer[i] == log[i];
      assert Hub.JoinsAt(longer, c, k.marks.addAt);
      assert Removed(log, c) ==> Removed(longer, c);
      Hub.NewestInfoGrows(log, cmd, k.marks.addAt, upTo);
      Hub.NewestInfoGrows(log, cmd, Max(k.marks.addAt, k.marks.wroteAt), upTo);
    }
  }

  /** The hub passes a command that it does not write to this connection. */
  lemma SockPassed(sha: Digest, k: Sock, c: ConnId, log: seq<Hub.Cmd>, upTo: nat, stored: seq<Msg>, fates: seq<Fate>)
    requires SockHolds(sha, k, c, log, upTo, stored, fates) && upTo < |log|
    requires log[upTo].Broadcast? ==> c !in Hub.Members(log[..upTo])
    ensures SockHolds(sha, k, c, log, upTo + 1, stored, fates)
  {
    if !k.phase.Accepted? {
      assert log[..upTo + 1] == log[..upTo] + [log[upTo]];
      Hub.LogAppend(log[..upTo], log[upTo], c);
      Hub.MemberIff(log, c, k.marks.addAt, upTo);
      if !Removed(log, c) && log[upTo].Broadcast? {
        assert upTo <= k.marks.addAt;
      }
    }
  }

  /** The hub writes a broadcast to this connection. */
  lemma SockWritten(sha: Digest, k: Sock, c: ConnId, log: seq<Hub.Cmd>, upTo: nat, stored: seq<Msg>, fates: seq<Fate>)
    requires SockHolds(sha, k, c, log, upTo, stored, fates) && upTo < |log| && !k.phase.Accepted?
    requires log[upTo].Broadcast? && c in Hub.Members(log[..upTo])
    ensures SockHolds(sha, Write(k, Frame(true, log[upTo].m)), c, log, upTo + 1, stored, fates)
  {
    WireWritten(k, c, log, upTo);
  }

  lemma WireWritten(k: Sock, c: ConnId, log: seq<Hub.Cmd>, upTo: nat)
    requires upTo < |log| && WireHolds(k, c, log, upTo) && Hub.JoinsAt(log, c, k.marks.addAt)
    requires Rank(k.phase) >= 4 ==> k.marks.wroteAt <= upTo
    requires log[upTo].Broadcast? && c in Hub.Members(log[..upTo])
    ensures WireHolds(Write(k, Frame(true, log[upTo].m)), c, log, upTo + 1)
  {
    DeliveredMore(log, c, upTo);
    Hub.MemberIff(log, c, k.marks.addAt, upTo);
    ExpectedNext(k, log, upTo);
    WireAppend(k.wire, Frame(true, log[upTo].m));
  }

  lemma DeliveredMore(log: seq<Hub.Cmd>, c: ConnId, upTo: nat)
    requires upTo < |log| && log[upTo].Broadcast? && c in Hub.Members(log[..upTo])
    ensures Hub.Delivered(log[..upTo + 1], c) == Hub.Delivered(log[..upTo], c) + [log[upTo].m]
  {
    assert log[..upTo + 1] == log[..upTo] + [log[upTo]];
    Hub.LogAppend(log[..upTo], log[upTo], c);
  }

  lemma ExpectedNext(k: Sock, log: seq<Hub.Cmd>, upTo: nat)
    requires upTo < |log| && log[upTo].Broadcast? && k.marks.addAt <= upTo
    requires Rank(k.phase) >= 4 ==> k.marks.wroteAt <= upTo
    ensures Expected(k, log, upTo + 1) == if log[upTo].m.Info? then Some(log[upTo].m) else Expected(k, log, upTo)
  {
  }

  /** A new update is stored, or the fate of the newest one is decided. */
  lemma SockStoreGrows(sha: Digest, k: Sock, c: ConnId, log: seq<Hub.Cmd>, upTo: nat, stored: seq<Msg>,
      fates: seq<Fate>, m: Msg)
    requires SockHolds(sha, k, c, log, upTo, stored, fates)
    ensures SockHolds(sha, k, c, log, upTo, stored + [m], fates + [Pending])
  {
    if Rank(k.phase) >= 3 {
      assert (stored + [m])[..k.marks.readAt] == stored[..k.marks.readAt];
    }
  }

  lemma SockFateDecided(sha: Digest, k: Sock, c: ConnId, log: seq<Hub.Cmd>, upTo: nat, stored: seq<Msg>,
      fates: seq<Fate>, fate: Fate)
    requires SockHolds(sha, k, c, log, upTo, stored, fates) && fates != []
    requires fate.Queued? ==> !k.phase.Accepted? ==> fate.at > k.marks.addAt && fate.at >= upTo
    ensures SockHolds(sha, k, c, log, upTo, stored, fates[..|fates| - 1] + [fate])
  {
  }

  /** A write by somebody other than the hub that is no info message. */
  lemma SockPlainWrite(sha: Digest, k: Sock, c: ConnId, log: seq<Hub.Cmd>, upTo: nat, stored: seq<Msg>,
      fates: seq<Fate>, m: Msg)
    requires SockHolds(sha, k, c, log, upTo, stored, fates) && !m.Info? && !k.phase.Accepted?
    ensures SockHolds(sha, Write(k, Frame(false, m)), c, log, upTo, stored, fates)
  {
    WireAppend(k.wire, Frame(false, m));
  }

  lemma SockJoins(sha: Digest, k: Sock, c: ConnId, log: seq<Hub.Cmd>, upTo: nat, stored: seq<Msg>, fates: seq<Fate>)
    requires SockHolds(sha, k, c, log, upTo, stored, fates) && k.phase.Accepted?
    ensures SockHolds(sha, k.(phase := Joined, marks := k.marks.(addAt := |log|)), c, log + [Hub.Add(c)], upTo, stored,
        fates)
  {
    var longer := log + [Hub.Add(c)];
    assert Hub.JoinsAt(longer, c, |log|);
    assert longer[..upTo] == log[..upTo];
    Hub.DeliveredIsSegment(longer, c, |log|, upTo);
  }

  lemma SockLoads(sha: Digest, k: Sock, c: ConnId, log: seq<Hub.Cmd>, upTo: nat, stored: seq<Msg>, fates: seq<Fate>,
      snap: Snapshot)
    requires SockHolds(sha, k, c, log, upTo, stored, fates) && k.phase.Greeted? && |fates| == |stored|
    requires Coherent(sha, snap) && snap.infoJSON == Newest(stored)
    ensures SockHolds(sha, k.(phase := Loaded, seen := snap, marks := k.marks.(readAt := |stored|)), c, log, upTo,
        stored, fates)
  {
    assert stored[..|stored|] == stored;
  }

  lemma SockSendsInfo(sha: Digest, k: Sock, c: ConnId, log: seq<Hub.Cmd>, upTo: nat, stored: seq<Msg>, fates: seq<Fate>)
    requires SockHolds(sha, k, c, log, upTo, stored, fates) && k.phase.Loaded? && |fates| == |stored|
    ensures SockHolds(sha, WriteOptional(k, k.seen.infoJSON).(phase := SentInfo,
              marks := k.marks.(wroteAt := upTo, wroteSeen := |stored|)), c, log, upTo, stored, fates)
  {
    if k.seen.infoJSON.Some? {
      WireAppend(k.wire, Frame(false, k.seen.infoJSON.value));
    }
  }

  lemma SockNextPhase(sha: Digest, k: Sock, c: ConnId, log: seq<Hub.Cmd>, upTo: nat, stored: seq<Msg>,
      fates: seq<Fate>, next: Phase)
    requires SockHolds(sha, k, c, log, upTo, stored, fates)
    requires (k.phase.Joined? && next.Greeted?) || (Rank(k.phase) >= 4 && Rank(next) >= 4)
    ensures SockHolds(sha, k.(phase := next), c, log, upTo, stored, fates)
  {
    assert Expected(k.(phase := next), log, upTo) == Expected(k, log, upTo);
  }

  lemma SockSends(sha: Digest, k: Sock, c: ConnId, log: seq<Hub.Cmd>, upTo: nat, stored: seq<Msg>, fates: seq<Fate>,
      m: Option<Msg>, next: Phase)
    requires SockHolds(sha, k, c, log, upTo, stored, fates) && Rank(k.phase) >= 4 && Rank(next) >= 4
    requires m.Some? ==> !m.value.Info?
    ensures SockHolds(sha, WriteOptional(k, m).(phase := next), c, log, upTo, stored, fates)
  {
    if m.Some? {
      SockPlainWrite(sha, k, c, log, upTo, stored, fates, m.value);
    }
    SockNextPhase(sha, WriteOptional(k, m), c, log, upTo, stored, fates, next);
  }

  /** The actions of OnOpen after joining. */
  lemma SockAdvances(sha: Digest, k: Sock, c: ConnId, log: seq<Hub.Cmd>, upTo: nat, stored: seq<Msg>, fates: seq<Fate>,
                     snap: Snapshot, ts: int, list: seq<SessionInfo>)
    requires SockHolds(sha, k, c, log, upTo, stored, fates) && !k.phase.Accepted? && |fates| == |stored|
    requires Coherent(sha, snap) && snap.infoJSON == Newest(stored)
    ensures SockHolds(sha, Opening(k, snap, |stored|, upTo, ts, list), c, log, upTo, stored, fates)
  {
    match k.phase
    case Joined =>
      SockPlainWrite(sha, k, c, log, upTo, stored, fates, Hello(ts));
      SockNextPhase(sha, Write(k, Frame(false, Hello(ts))), c, log, upTo, stored, fates, Greeted);
    case Greeted => SockLoads(sha, k, c, log, upTo, stored, fates, snap);
    case Loaded => SockSendsInfo(sha, k, c, log, upTo, stored, fates);
    case SentInfo => SockSends(sha, k, c, log, upTo, stored, fates, k.seen.progressJSON, SentProgress);
    case SentProgress =>
      SockSends(sha, k, c, log, upTo, stored, fates, if list == [] then None else Some(Sessions(ts, list)), Live);
    case Live =>
  }

  // One step at a time

  /** Steps that touch only connections. */
  lemma SocksOnly(sha: Digest, s: State, t: State, c: ConnId)
    requires Inv(sha, s) && t == s.(socks := t.socks) && t.socks.Keys == s.socks.Keys + {c}
    requires forall d | d in s.socks && d != c :: t.socks[d] == s.socks[d]
    requires SockHolds(sha, t.socks[c], c, s.hub.log, Hub.Settled(s.hub, c), s.stored, s.fates)
    ensures Inv(sha, t)
  {
    assert forall i | 0 <= i < |s.fates| :: FateHolds(s, i) ==> FateHolds(t, i);
  }

  lemma AcceptsKeeps(sha: Digest, s: State, c: ConnId)
    requires Inv(sha, s) && c !in s.socks
    ensures Inv(sha, Next(sha, s, Accepts(c)))
  {
    assert Unmentioned(s.hub.log, c);
    SocksOnly(sha, s, Next(sha, s, Accepts(c)), c);
  }

  lemma BreaksKeeps(sha: Digest, s: State, c: ConnId)
    requires Inv(sha, s) && c in s.socks
    ensures Inv(sha, Next(sha, s, Breaks(c)))
  {
    SocksOnly(sha, s, Next(sha, s, Breaks(c)), c);
  }

  lemma AnswersKeeps(sha: Digest, s: State, c: ConnId, ts: int)
    requires Inv(sha, s)
    ensures Inv(sha, Next(sha, s, Answers(c, ts)))
  {
    if c in s.socks && Rank(s.socks[c].phase) >= 1 {
      SockPlainWrite(sha, s.socks[c], c, s.hub.log, Hub.Settled(s.hub, c), s.stored, s.fates, Ping(ts));
      SocksOnly(sha, s, Next(sha, s, Answers(c, ts)), c);
    }
  }

  lemma StoresFrame(s: State, t: State, cmd: Hub.Cmd)
    requires Stores(s) && !Hub.IsInfo(cmd)
    requires t == s.(hub := t.hub, socks := t.socks) && t.hub.log == s.hub.log + [cmd]
    ensures Stores(t)
  {
    forall i | 0 <= i < |s.fates| ensures FateHolds(t, i) {
      assert FateHolds(s, i);
    }
  }

  /** Another command enters the hub's queue; no info update. */
  lemma QueueGrows(sha: Digest, s: State, cmd: Hub.Cmd, hub: Hub.State)
    requires Inv(sha, s) && Hub.Inv(hub) && !Hub.IsInfo(cmd)
    requires hub.log == s.hub.log + [cmd] && hub.done == s.hub.done && hub.busy == s.hub.busy
    requires cmd.Broadcast? || (cmd.Remove? && cmd.c in s.socks && !s.socks[cmd.c].phase.Accepted?)
    ensures Inv(sha, s.(hub := hub))
  {
    SocksAfterQueueing(sha, s, cmd, hub);
    StoresFrame(s, s.(hub := hub), cmd);
  }

  lemma SocksAfterQueueing(sha: Digest, s: State, cmd: Hub.Cmd, hub: Hub.State)
    requires SocksHold(sha, s)
    requires hub.log == s.hub.log + [cmd] && hub.done == s.hub.done && hub.busy == s.hub.busy
    requires cmd.Broadcast? || (cmd.Remove? && cmd.c in s.socks && !s.socks[cmd.c].phase.Accepted?)
    ensures SocksHold(sha, s.(hub := hub))
  {
    var t := s.(hub := hub);
    forall c | c in s.socks
      ensures SockHolds(sha, t.socks[c], c, t.hub.log, Hub.Settled(t.hub, c), t.stored, t.fates)
    {
      SockLogGrows(sha, s.socks[c], c, s.hub.log, cmd, Hub.Settled(s.hub, c), s.stored, s.fates);
    }
  }

  /** Steps of the hub goroutine: log, store and processor stay as they are. */
  lemma HubOnly(sha: Digest, s: State, t: State)
    requires Inv(sha, s) && t == s.(hub := t.hub, socks := t.socks)
    requires Hub.Inv(t.hub) && t.hub.log == s.hub.log && SocksHold(sha, t)
    ensures Inv(sha, t)
  {
    forall i | 0 <= i < |s.fates| ensures FateHolds(t, i) {
      assert FateHolds(s, i);
    }
  }

  /** Nothing that the invariant speaks about changed but the hub's counters. */
  lemma OnlyCounts(sha: Digest, s: State, hub: Hub.State)
    requires Inv(sha, s) && Hub.Inv(hub)
    requires hub.log == s.hub.log && hub.done == s.hub.done && hub.busy == s.hub.busy
    ensures Inv(sha, s.(hub := hub))
  {
    SocksIgnoreCounts(sha, s, hub);
    HubOnly(sha, s, s.(hub := hub));
  }

  lemma SocksIgnoreCounts(sha: Digest, s: State, hub: Hub.State)
    requires SocksHold(sha, s)
    requires hub.log == s.hub.log && hub.done == s.hub.done && hub.busy == s.hub.busy
    ensures SocksHold(sha, s.(hub := hub))
  {
    forall c | c in s.socks ensures Hub.Settled(hub, c) == Hub.Settled(s.hub, c) {
    }
  }

  /** A broadcast that is no info update. */
  lemma SubmitsKeeps(sha: Digest, s: State, m: Msg)
    requires Inv(sha, s) && !m.Info?
    ensures Inv(sha, s.(hub := Hub.Submit(s.hub, m)))
  {
    Hub.SubmitKeeps(s.hub, m);
    if Hub.HasRoom(s.hub) {
      QueueGrows(sha, s, Hub.Broadcast(m), Hub.Submit(s.hub, m));
    } else {
      OnlyCounts(sha, s, Hub.Submit(s.hub, m));
    }
  }

  lemma LeavesKeeps(sha: Digest, s: State, c: ConnId)
    requires Inv(sha, s) && c in s.socks && !s.socks[c].phase.Accepted?
    ensures Inv(sha, s.(hub := Hub.Leave(s.hub, c)))
  {
    if Hub.HasRoom(s.hub) {
      Hub.EnqueueKeeps(s.hub, Hub.Remove(c));
      QueueGrows(sha, s, Hub.Remove(c), Hub.Leave(s.hub, c));
    }
  }

  lemma ClosesIs(sha: Digest, s: State, c: ConnId)
    requires c in s.socks && !s.socks[c].phase.Accepted?
    ensures var t := Next(sha, s, Breaks(c));
            && Next(sha, s, Closes(c)) == t.(hub := Hub.Leave(t.hub, c))
            && c in t.socks && !t.socks[c].phase.Accepted?
  {
  }

  lemma ClosesKeeps(sha: Digest, s: State, c: ConnId)
    requires Inv(sha, s) && c in s.socks && !s.socks[c].phase.Accepted?
    ensures Inv(sha, Next(sha, s, Closes(c)))
  {
    ClosesIs(sha, s, c);
    BreaksKeeps(sha, s, c);
    LeavesKeeps(sha, Next(sha, s, Breaks(c)), c);
  }

  lemma SockAfterJoin(sha: Digest, s: State, c: ConnId, d: ConnId)
    requires Inv(sha, s) && c in s.socks && s.socks[c].phase.Accepted? && d in s.socks
    ensures var t := Join(s, c);
            SockHolds(sha, t.socks[d], d, t.hub.log, Hub.Settled(t.hub, d), t.stored, t.fates)
  {
    var u := Hub.Settled(s.hub, d);
    if d == c {
      SockJoins(sha, s.socks[c], c, s.hub.log, u, s.stored, s.fates);
    } else {
      SockLogGrows(sha, s.socks[d], d, s.hub.log, Hub.Add(c), u, s.stored, s.fates);
    }
  }

  lemma JoinsKeeps(sha: Digest, s: State, c: ConnId)
    requires Inv(sha, s) && c in s.socks && s.socks[c].phase.Accepted? && Hub.HasRoom(s.hub)
    ensures Inv(sha, Join(s, c))
  {
    var t := Join(s, c);
    Hub.EnqueueKeeps(s.hub, Hub.Add(c));
    forall d | d in s.socks
      ensures SockHolds(sha, t.socks[d], d, t.hub.log, Hub.Settled(t.hub, d), t.stored, t.fates)
    {
      SockAfterJoin(sha, s, c, d);
    }
    StoresFrame(s, t, Hub.Add(c));
  }

  lemma AdvancesKeeps(sha: Digest, s: State, c: ConnId, ts: int, list: seq<SessionInfo>)
    requires Inv(sha, s) && c in s.socks
    ensures Inv(sha, Advance(s, c, ts, list))
  {
    if !s.socks[c].phase.Accepted? {
      SockAdvances(sha, s.socks[c], c, s.hub.log, Hub.Settled(s.hub, c), s.stored, s.fates, s.snap, ts, list);
      SocksOnly(sha, s, Advance(s, c, ts, list), c);
    } else if Hub.HasRoom(s.hub) {
      JoinsKeeps(sha, s, c);
    }
  }

  lemma HubTakesKeeps(sha: Digest, s: State)
    requires Inv(sha, s)
    ensures Inv(sha, Next(sha, s, HubTakes))
  {
    if Hub.Idle(s.hub) && s.hub.queue != [] {
      Hub.TakeKeeps(s.hub);
      SocksAfterTake(sha, s);
      HubOnly(sha, s, s.(hub := Hub.Take(s.hub)));
    }
  }

  lemma SocksAfterTake(sha: Digest, s: State)
    requires Hub.Inv(s.hub) && Hub.Idle(s.hub) && s.hub.queue != [] && SocksHold(sha, s)
    ensures SocksHold(sha, s.(hub := Hub.Take(s.hub)))
  {
    var t := s.(hub := Hub.Take(s.hub));
    forall c | c in s.socks
      ensures SockHolds(sha, t.socks[c], c, t.hub.log, Hub.Settled(t.hub, c), t.stored, t.fates)
    {
      SockAfterTake(sha, s.hub, s.socks[c], c, s.stored, s.fates);
    }
  }

  lemma SockAfterTake(sha: Digest, h: Hub.State, k: Sock, c: ConnId, stored: seq<Msg>, fates: seq<Fate>)
    requires Hub.Inv(h) && Hub.Idle(h) && h.queue != []
    requires SockHolds(sha, k, c, h.log, Hub.Settled(h, c), stored, fates)
    ensures SockHolds(sha, k, c, h.log, Hub.Settled(Hub.Take(h), c), stored, fates)
  {
    assert h.log[h.done] == h.queue[0];
    assert Hub.Settled(h, c) == h.done;
    if !Hub.Owes(Hub.Take(h), c) {
      SockPassed(sha, k, c, h.log, h.done, stored, fates);
    }
  }

  lemma {:induction false} MembersJoined(log: seq<Hub.Cmd>, c: ConnId) returns (i: nat)
    requires c in Hub.Members(log)
    ensures i < |log| && log[i] == Hub.Add(c)
  {
    if log[|log| - 1] == Hub.Add(c) {
      i := |log| - 1;
    } else {
      i := MembersJoined(log[..|log| - 1], c);
    }
  }

  lemma SockAfterWrite(sha: Digest, s: State, c: ConnId)
    requires Inv(sha, s) && c in s.socks && Hub.Owes(s.hub, c)
    ensures SockHolds(sha, Write(s.socks[c], Frame(true, s.hub.busy.value.msg)), c, s.hub.log, s.hub.done, s.stored,
        s.fates)
  {
    var log, u := s.hub.log, s.hub.done - 1;
    assert log[..u + 1] == log[..u] + [log[u]];
    Hub.LogAppend(log[..u], log[u], c);
    var joined := MembersJoined(log[..u], c);
    assert log[joined] == Hub.Add(c);
    SockWritten(sha, s.socks[c], c, log, u, s.stored, s.fates);
  }

  lemma HubWritesKeeps(sha: Digest, s: State, c: ConnId)
    requires Inv(sha, s) && c in s.socks && Hub.Owes(s.hub, c)
    ensures Inv(sha, Next(sha, s, HubWrites(c)))
  {
    Hub.WriteKeeps(s.hub, c);
    SockAfterWrite(sha, s, c);
    SocksAfterWrite(sha, s, c, Write(s.socks[c], Frame(true, s.hub.busy.value.msg)));
    HubWritesIs(sha, s, c);
    HubOnly(sha, s, Next(sha, s, HubWrites(c)));
  }

  lemma HubWritesIs(sha: Digest, s: State, c: ConnId)
    requires c in s.socks && Hub.Owes(s.hub, c)
    ensures Next(sha, s, HubWrites(c)) ==
              s.(hub := Hub.WriteTo(s.hub, c),
                 socks := s.socks[c := Write(s.socks[c], Frame(true, s.hub.busy.value.msg))])
  {
  }

  lemma SocksAfterWrite(sha: Digest, s: State, c: ConnId, k: Sock)
    requires SocksHold(sha, s) && c in s.socks && Hub.Owes(s.hub, c)
    requires SockHolds(sha, k, c, s.hub.log, s.hub.done, s.stored, s.fates)
    ensures SocksHold(sha, s.(hub := Hub.WriteTo(s.hub, c), socks := s.socks[c := k]))
  {
    var hub := Hub.WriteTo(s.hub, c);
    assert Hub.Settled(hub, c) == s.hub.done;
    forall d | d in s.socks && d != c ensures Hub.Settled(hub, d) == Hub.Settled(s.hub, d) {
    }
  }

  // The processor

  lemma PublishCoherent(sha: Digest, prev: Snapshot, d: InfoData, p: ProgressData, ts: int)
    requires Coherent(sha, prev)
    ensures Coherent(sha, WithInfo(sha, prev, d, ts)) && Coherent(sha, WithProgress(prev, p, ts))
  {
  }

  /** Storing an info update. */
  lemma StoresInfo(sha: Digest, s: State, t: State, m: Msg)
    requires Inv(sha, s) && s.hand.None? && m.Info?
    requires t == s.(snap := t.snap, handled := t.handled, hand := Some(m), stored := s.stored + [m],
        fates := s.fates + [Pending])
    requires Coherent(sha, t.snap) && Follows(sha, t.snap, t.handled) && t.snap.infoJSON == Some(m)
    ensures Inv(sha, t)
  {
    forall c | c in s.socks
      ensures SockHolds(sha, t.socks[c], c, t.hub.log, Hub.Settled(t.hub, c), t.stored, t.fates)
    {
      SockStoreGrows(sha, s.socks[c], c, s.hub.log, Hub.Settled(s.hub, c), s.stored, s.fates, m);
    }
    forall i | 0 <= i < |t.fates| ensures FateHolds(t, i) {
      if i < |s.fates| {
        assert FateHolds(s, i);
      }
    }
  }

  /** Everything else the processor does before it hands a message over. */
  lemma StoresNothing(sha: Digest, s: State, t: State)
    requires Inv(sha, s) && s.hand.None?
    requires t == s.(snap := t.snap, handled := t.handled, hand := t.hand)
    requires Coherent(sha, t.snap) && Follows(sha, t.snap, t.handled) && t.snap.infoJSON == s.snap.infoJSON
    requires t.hand.Some? ==> !t.hand.value.Info?
    ensures Inv(sha, t)
  {
    forall i | 0 <= i < |t.fates| ensures FateHolds(t, i) {
      assert FateHolds(s, i);
    }
  }

  lemma HandlesInfo(sha: Digest, s: State, d: InfoData, ts: int)
    requires Inv(sha, s) && s.hand.None?
    ensures Inv(sha, Handle(sha, s, InfoEvent(d), ts))
  {
    var t, next := Handle(sha, s, InfoEvent(d), ts), WithInfo(sha, s.snap, d, ts);
    LastInfoAppend(s.handled, InfoEvent(d));
    LastProgressAppend(s.handled, InfoEvent(d));
    PublishCoherent(sha, s.snap, d, CLOSED_PROGRESS, ts);
    if s.snap.infoJSON == next.infoJSON {
      StoresNothing(sha, s, t);
    } else {
      StoresInfo(sha, s, t, next.infoJSON.value);
    }
  }

  lemma HandlesKeeps(sha: Digest, s: State, e: Event, ts: int)
    requires Inv(sha, s) && s.hand.None?
    ensures Inv(sha, Handle(sha, s, e, ts))
  {
    if e.InfoEvent? {
      HandlesInfo(sha, s, e.info, ts);
    } else {
      LastInfoAppend(s.handled, e);
      LastProgressAppend(s.handled, e);
      if e.ProgressEvent? {
        PublishCoherent(sha, s.snap, EMPTY_INFO, e.progress, ts);
      }
      StoresNothing(sha, s, Handle(sha, s, e, ts));
    }
  }

  lemma HandsNothing(sha: Digest, s: State)
    requires Inv(sha, s) && s.hand.Some? && !s.hand.value.Info?
    ensures Inv(sha, s.(hand := None))
  {
    var t := s.(hand := None);
    forall i | 0 <= i < |s.fates| ensures FateHolds(t, i) {
      assert FateHolds(s, i);
    }
  }

  lemma HandsOverKeeps(sha: Digest, s: State)
    requires Inv(sha, s) && s.hand.Some?
    ensures Inv(sha, HandOver(s))
  {
    if s.hand.value.Info? {
      HandsOverInfo(sha, s);
    } else {
      HandsNothing(sha, s);
      SubmitsKeeps(sha, s.(hand := None), s.hand.value);
    }
  }

  lemma SockHandsOver(sha: Digest, s: State, c: ConnId)
    requires Inv(sha, s) && s.hand.Some? && s.hand.value.Info? && c in s.socks
    ensures var t := HandOver(s);
            SockHolds(sha, s.socks[c], c, t.hub.log, Hub.Settled(s.hub, c), t.stored, t.fates)
  {
    var t, u := HandOver(s), Hub.Settled(s.hub, c);
    if Hub.HasRoom(s.hub) {
      SockLogGrows(sha, s.socks[c], c, s.hub.log, Hub.Broadcast(s.hand.value), u, s.stored, s.fates);
    }
    SockFateDecided(sha, s.socks[c], c, t.hub.log, u, s.stored, s.fates, t.fates[|t.fates| - 1]);
  }

  lemma SocksAfterHandOver(sha: Digest, s: State)
    requires Inv(sha, s) && s.hand.Some? && s.hand.value.Info?
    ensures SocksHold(sha, HandOver(s))
  {
    EachAfterHandOver(sha, s);
    MentionedAfterHandOver(sha, s);
  }

  lemma EachAfterHandOver(sha: Digest, s: State)
    requires Inv(sha, s) && s.hand.Some? && s.hand.value.Info?
    ensures var t := HandOver(s);
            forall c | c in t.socks :: SockHolds(sha, t.socks[c], c, t.hub.log, Hub.Settled(t.hub, c), t.stored,
                t.fates)
  {
    forall c | c in s.socks
      ensures var t := HandOver(s); SockHolds(sha, s.socks[c], c, t.hub.log, Hub.Settled(t.hub, c), t.stored, t.fates)
    {
      SockHandsOver(sha, s, c);
    }
  }

  lemma MentionedAfterHandOver(sha: Digest, s: State)
    requires SocksHold(sha, s) && s.hand.Some?
    ensures var t := HandOver(s); forall i | 0 <= i < |t.hub.log| && !t.hub.log[i].Broadcast? ::
        t.hub.log[i].c in t.socks
  {
    var t := HandOver(s);
    forall i | 0 <= i < |t.hub.log| && !t.hub.log[i].Broadcast? ensures t.hub.log[i].c in s.socks {
      assert t.hub.log[i] == s.hub.log[i];
    }
  }

  lemma HandsOverInfo(sha: Digest, s: State)
    requires Inv(sha, s) && s.hand.Some? && s.hand.value.Info?
    ensures Inv(sha, HandOver(s))
  {
    Hub.SubmitKeeps(s.hub, s.hand.value);
    SocksAfterHandOver(sha, s);
    StoreAfterHandOver(s);
  }

  lemma StoreAfterHandOver(s: State)
    requires Stores(s) && s.hand.Some? && s.hand.value.Info?
    ensures Stores(HandOver(s))
  {
    var t := HandOver(s);
    forall i | 0 <= i < |t.fates| ensures FateHolds(t, i) {
      assert FateHolds(s, i);
    }
  }

  lemma NextKeeps(sha: Digest, s: State, step: Step)
    requires Inv(sha, s)
    ensures Inv(sha, Next(sha, s, step))
  {
    match step
    case Handles(e, ts) => if s.hand.None? { HandlesKeeps(sha, s, e, ts); }
    case HandsOver => if s.hand.Some? { HandsOverKeeps(sha, s); }
    case HotReload(ts) => SubmitsKeeps(sha, s, Reload(ts));
    case Accepts(c) => if c !in s.socks { AcceptsKeeps(sha, s, c); }
    case Advances(c, ts, list) => if c in s.socks { AdvancesKeeps(sha, s, c, ts, list); }
    case Answers(c, ts) => AnswersKeeps(sha, s, c, ts);
    case Breaks(c) => if c in s.socks { BreaksKeeps(sha, s, c); }
    case Closes(c) => if c in s.socks && !s.socks[c].phase.Accepted? { ClosesKeeps(sha, s, c); }
    case HubTakes => HubTakesKeeps(sha, s);
    case HubWrites(c) => if c in s.socks && Hub.Owes(s.hub, c) { HubWritesKeeps(sha, s, c); }
  }

  lemma {:induction false} RunKeeps(sha: Digest, steps: seq<Step>)
    ensures Inv(sha, Run(sha, Init(), steps))
  {
    if steps == [] {
      InitHolds(sha);
    } else {
      RunKeeps(sha, steps[..|steps| - 1]);
      NextKeeps(sha, Run(sha, Init(), steps[..|steps| - 1]), steps[|steps| - 1]);
    }
  }
}
