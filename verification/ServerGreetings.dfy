/** What an opening writes to its connection, between whatever the hub writes meanwhile. */
module ServerGreetings {
  import opened Domain
  import opened Wire
  import opened Server
  import ServerInvariants
  import Hub

  /** The messages of a connection that were not written by the hub and are no pings. */
  function Own(wire: seq<Frame>): seq<Msg> {
    if wire == [] then []
    else
      var f := wire[|wire| - 1];
      Own(wire[..|wire| - 1]) + if f.byHub || f.msg.Ping? then [] else [f.msg]
  }

  function Listed(m: Option<Msg>): seq<Msg> {
    if m.Some? then [m.value] else []
  }

  /** How much of the greeting is written in a phase: nothing, the hello, and then the info and the progress
      message of the snapshot that was read. */
  function Said(k: Sock): seq<Msg> {
    match k.phase
    case Greeted => []
    case Loaded => []
    case SentInfo => Listed(k.seen.infoJSON)
    case _ => Listed(k.seen.infoJSON) + Listed(k.seen.progressJSON)
  }

  ghost predicate Greets(k: Sock) {
    k.open ==>
      if k.phase.Accepted? || k.phase.Joined? then Own(k.wire) == []
      else
        && Own(k.wire) != [] && Own(k.wire)[0].Hello?
        && if !k.phase.Live? then Own(k.wire)[1..] == Said(k)
           else Own(k.wire)[1..] == Said(k) || EndsWithSessions(Own(k.wire)[1..], Said(k))
  }

  ghost predicate EndsWithSessions(msgs: seq<Msg>, before: seq<Msg>) {
    exists ts, list :: list != [] && msgs == before + [Sessions(ts, list)]
  }

  lemma OwnAppend(wire: seq<Frame>, f: Frame)
    ensures Own(wire + [f]) == Own(wire) + if f.byHub || f.msg.Ping? then [] else [f.msg]
  {
    assert (wire + [f])[..|wire|] == wire;
  }

  /** Writes of the hub and pings do not matter. */
  lemma OtherWrites(k: Sock, f: Frame)
    requires Greets(k) && (f.byHub || f.msg.Ping?)
    ensures Greets(Write(k, f))
  {
    OwnAppend(k.wire, f);
    assert Own(k.wire) + [] == Own(k.wire);
  }

  predicate Sayable(snap: Snapshot) {
    (snap.infoJSON.Some? ==> snap.infoJSON.value.Info?)
        && (snap.progressJSON.Some? ==> snap.progressJSON.value.Progress?)
  }

  lemma OpeningGreets(k: Sock, snap: Snapshot, stored: nat, upTo: nat, ts: int, list: seq<SessionInfo>)
    requires Greets(k) && (Rank(k.phase) >= 3 ==> Sayable(k.seen))
    ensures Greets(Opening(k, snap, stored, upTo, ts, list))
  {
    match k.phase
    case Joined => OwnAppend(k.wire, Frame(false, Hello(ts)));
    case Loaded => SaysNext(k, k.seen.infoJSON);
    case SentInfo => SaysNext(k, k.seen.progressJSON);
    case SentProgress => SaysSessions(k, ts, list);
    case _ =>
  }

  lemma SaysSessions(k: Sock, ts: int, list: seq<SessionInfo>)
    requires Greets(k) && k.phase.SentProgress?
    ensures Greets(WriteOptional(k, if list == [] then None else Some(Sessions(ts, list))).(phase := Live))
  {
    if list != [] && k.open {
      OwnAppend(k.wire, Frame(false, Sessions(ts, list)));
      assert (Own(k.wire) + [Sessions(ts, list)])[1..] == Said(k) + [Sessions(ts, list)];
    }
  }

  lemma SaysNext(k: Sock, m: Option<Msg>)
    requires k.open ==> Own(k.wire) != [] && Own(k.wire)[0].Hello?
    requires m.Some? ==> !m.value.Ping?
    ensures k.open ==>
              var own := Own(WriteOptional(k, m).wire);
              own != [] && own[0].Hello? && own[1..] == Own(k.wire)[1..] + Listed(m)
  {
    if m.Some? {
      OwnAppend(k.wire, Frame(false, m.value));
    }
  }

  /** The steps that write to c or move its opening on. */
  predicate Touches(step: Step, c: ConnId) {
    || (step.Advances? && step.c == c)
    || (step.Answers? && step.c == c)
    || (step.HubWrites? && step.c == c)
  }

  lemma UntouchedSock(sha: Digest, s: State, step: Step, c: ConnId)
    requires !Touches(step, c) && c in Next(sha, s, step).socks
    ensures var k := Next(sha, s, step).socks[c];
            if c in s.socks then k == s.socks[c] || k == s.socks[c].(open := false) else k == Opened()
  {
  }

  lemma TouchedSock(sha: Digest, s: State, step: Step, c: ConnId)
    requires Touches(step, c) && c in s.socks
    ensures c in Next(sha, s, step).socks
    ensures var k, t := s.socks[c], Next(sha, s, step).socks[c];
            || t == k
            || (k.phase.Accepted? && t == k.(phase := Joined, marks := t.marks))
            || (step.Advances? && t == Opening(k, s.snap, |s.stored|, Hub.Settled(s.hub, c), step.ts, step.list))
            || (step.Answers? && t == Write(k, Frame(false, Ping(step.ts))))
            || (step.HubWrites? && Hub.Owes(s.hub, c) && t == Write(k, Frame(true, s.hub.busy.value.msg)))
  {
  }

  lemma StepGreets(sha: Digest, s: State, step: Step, c: ConnId)
    requires c in s.socks ==> Greets(s.socks[c]) && (Rank(s.socks[c].phase) >= 3 ==> Sayable(s.socks[c].seen))
    requires c in Next(sha, s, step).socks
    ensures Greets(Next(sha, s, step).socks[c])
  {
    if !Touches(step, c) {
      UntouchedSock(sha, s, step, c);
    } else if c in s.socks {
      TouchedSock(sha, s, step, c);
      var k := s.socks[c];
      match step
      case Advances(_, ts, list) => OpeningGreets(k, s.snap, |s.stored|, Hub.Settled(s.hub, c), ts, list);
      case Answers(_, ts) => OtherWrites(k, Frame(false, Ping(ts)));
      case HubWrites(_) => if Hub.Owes(s.hub, c) { OtherWrites(k, Frame(true, s.hub.busy.value.msg)); }
    }
  }

  lemma SeenIsSayable(sha: Digest, s: State, c: ConnId)
    requires ServerInvariants.Inv(sha, s) && c in s.socks
    ensures Rank(s.socks[c].phase) >= 3 ==> Sayable(s.socks[c].seen)
  {
    assert ServerInvariants.SockHolds(sha, s.socks[c], c, s.hub.log, Hub.Settled(s.hub, c), s.stored, s.fates);
    if Rank(s.socks[c].phase) >= 3 {
      CoherentIsSayable(sha, s.socks[c].seen);
    }
  }

  lemma CoherentIsSayable(sha: Digest, snap: Snapshot)
    requires ServerInvariants.Coherent(sha, snap)
    ensures Sayable(snap)
  {
  }

  /** On every run: whatever the hub writes meanwhile, an opening itself writes the hello, then the info and
      the progress message of the snapshot it read, as far as there are any, then perhaps one
      session list; and nothing else. */
  lemma {:induction false} OpeningsGreet(sha: Digest, steps: seq<Step>, c: ConnId)
    requires c in Run(sha, Init(), steps).socks
    ensures Greets(Run(sha, Init(), steps).socks[c])
  {
    var front, last := steps[..|steps| - 1], steps[|steps| - 1];
    var s := Run(sha, Init(), front);
    if c in s.socks {
      OpeningsGreet(sha, front, c);
    }
    ServerInvariants.RunKeeps(sha, front);
    if c in s.socks {
      SeenIsSayable(sha, s, c);
    }
    StepGreets(sha, s, last, c);
  }

  /** The snapshot an opening reads is the one published at that moment. */
  lemma OpeningReadsPublished(sha: Digest, s: State, c: ConnId, ts: int, list: seq<SessionInfo>)
    requires c in s.socks && s.socks[c].phase.Greeted?
    ensures var t := Next(sha, s, Advances(c, ts, list));
            t.socks[c].phase.Loaded? && t.socks[c].seen == s.snap && t.socks[c].wire == s.socks[c].wire
  {
  }
}
