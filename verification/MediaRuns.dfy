/** Runs of the media loop that show where simpler guarantees fail. */
module MediaRuns {
  import opened Domain
  import opened Escaping
  import opened MediaLoop
  import opened MediaInvariants
  import opened MediaTheorems
  import Names

  // Building blocks

  lemma StepTo(s: State, step: Step, t: State)
    requires Reachable(s) && Next(s, step) == t
    ensures Reachable(t)
  {
    ReachableStep(s, step);
  }

  /** An idle loop: started, with nothing queued. */
  predicate Waiting(s: State) {
    s.started && s.queue == []
  }

  function Answers(media: Option<Props>, art: ArtRead): World {
    World(media, art, None, [], id => id)
  }

  lemma Posted(s: State, c: Command)
    requires Reachable(s) && s.queue == [] && (c.MediaChanged? || c.Enumerate?)
    ensures Reachable(s.(queue := [c]))
  {
    ReachableStep(s, Notifies(c));
    assert s.queue + [c] == [c];
  }

  /** A notification arrives and is run. */
  lemma Notified(s: State, c: Command, w: World)
    requires Reachable(s) && Waiting(s) && (c.MediaChanged? || c.Enumerate?)
    ensures Reachable(Execute(s, c, w))
  {
    var s1 := s.(queue := [c]);
    Posted(s, c);
    assert s1.queue[1..] == [] && s1.(queue := []) == s;
    StepTo(s1, Runs(w), Execute(s, c, w));
  }

  /** A timer fires and its closure queues the retry. */
  lemma TimerSends(s: State, id: nat)
    requires Reachable(s) && id in s.timers && |s.queue| < COMMAND_CAPACITY
    ensures Reachable(s.(timers := s.timers - {id}, queue := s.queue + [Retry(s.timers[id].song, s.timers[id].props)]))
  {
    var t := s.timers[id];
    var s1 := s.(timers := s.timers[id := t.(fired := true)]);
    StepTo(s, Fires(id), s1);
    SendsFired(s1, id);
    assert s1.timers - {id} == s.timers - {id};
    ReachableStep(s1, Sends(id));
  }

  lemma SendsFired(s: State, id: nat)
    requires id in s.timers && s.timers[id].fired && |s.queue| < COMMAND_CAPACITY
    ensures Next(s, Sends(id)) ==
              s.(timers := s.timers - {id}, queue := s.queue + [Retry(s.timers[id].song, s.timers[id].props)])
  {
  }

  /** And the retry is run. */
  lemma TimerRuns(s: State, id: nat, w: World)
    requires Reachable(s) && Waiting(s) && id in s.timers
    ensures Reachable(RunRetry(s.(timers := s.timers - {id}), s.timers[id].song, s.timers[id].props, w))
  {
    TimerSends(s, id);
    var retry, s1 := Retry(s.timers[id].song, s.timers[id].props), s.(timers := s.timers - {id});
    var s2 := s1.(queue := [retry]);
    assert s.queue + [retry] == [retry] && s2.queue[1..] == s1.queue;
    StepTo(s2, Runs(w), RunRetry(s1, retry.song, retry.props, w));
  }

  /** What an enumeration of one session does before it reads the session's media. */
  lemma EnumerateOne(s: State, w: World, appID: string, handle: Handle)
    requires w.list == [Named(appID, handle)]
    ensures var list := [SessionInfo(appID, w.friendly(appID), appID)];
            EnumerateSessions(s, w) ==
              Emit(HandleMedia(s.(sessions := list, objects := [handle], session := Some(handle),
                                  emitted := s.emitted + [SessionsChangedEvent(list)]), w),
                   DeviceChangedEvent(appID))
  {
    UsableOne(w.list, appID, handle);
    EntriesOne(appID, w.friendly);
    ApplyOne(s, SessionInfo(appID, w.friendly(appID), appID), handle, w);
  }

  lemma UsableOne(list: seq<RawSession>, appID: string, handle: Handle)
    requires list == [Named(appID, handle)]
    ensures AppIDs(Usable(list)) == [appID] && Handles(Usable(list)) == [handle]
  {
    assert list[..0] == [] && Usable(list) == Usable([]) + [(appID, handle)];
  }

  lemma EntriesOne(appID: string, friendly: string -> string)
    ensures Names.Entries([appID], friendly) == [SessionInfo(appID, friendly(appID), appID)]
  {
    assert Names.Count([appID], appID) == 1 by { assert [appID][..0] == []; }
  }

  lemma ApplyOne(s: State, info: SessionInfo, handle: Handle, w: World)
    ensures ApplyList(s, [info], [handle], w) ==
              Emit(HandleMedia(s.(sessions := [info], objects := [handle], session := Some(handle),
                                  emitted := s.emitted + [SessionsChangedEvent([info])]), w),
                   DeviceChangedEvent(info.appID))
  {
    var s1 := Emit(s.(sessions := [info], objects := [handle]), SessionsChangedEvent([info]));
    assert Chosen([info], s.selected) == 0;
    SwitchToFirst(s1, w);
  }

  lemma SwitchToFirst(s: State, w: World)
    requires s.objects != [] && s.sessions != []
    ensures SwitchTo(s, 0, w) == Emit(HandleMedia(s.(session := Some(s.objects[0])), w),
        DeviceChangedEvent(s.sessions[0].appID))
  {
    assert HandleMedia(s.(session := Some(s.objects[0])), w).sessions == s.sessions;
  }

  /** The first enumeration has found one session and is about to read its media. */
  function Begun(): State {
    var list := [SessionInfo("player", "player", "player")];
    Init("").(started := true, sessions := list, objects := [1], session := Some(1),
        emitted := [SessionsChangedEvent(list)])
  }

  lemma Begins(w: World)
    requires w.list == [Named("player", 1)] && w.friendly("player") == "player"
    ensures Reachable(Emit(HandleMedia(Begun(), w), DeviceChangedEvent("player")))
  {
    assert Run(Init(""), []) == Init("");
    var s := Init("").(started := true);
    EnumerateOne(s, w, "player", 1);
    assert s.emitted + Begun().emitted == Begun().emitted;
    StepTo(Init(""), Start(w), Emit(HandleMedia(Begun(), w), DeviceChangedEvent("player")));
  }

  function FirstAnswers(media: Option<Props>, art: ArtRead): World {
    Answers(media, art).(list := [Named("player", 1)])
  }

  /** A new song whose art cannot be read is remembered, and a retry is armed for it. */
  function Awaiting(s: State, p: Props): State {
    Schedule(SetSong(ForgetArt(s.(props := Some(p))), EscapedSong(p)).(retryCount := 0, fails := 0), EscapedSong(p), p)
  }

  lemma ArtlessChange(s: State, p: Props, w: World)
    requires s.session.Some? && w.media == Some(p) && EscapedSong(p) != s.song && w.art.NoStream?
    ensures HandleMedia(s, w) == Awaiting(s, p)
  {
  }

  /** The first song has no art: its retry is the only timer. */
  function FirstArmed(p: Props): State {
    Emit(Awaiting(Begun(), p), DeviceChangedEvent("player"))
  }

  lemma FirstArmedIsReachable(p: Props)
    requires EscapedSong(p) != NO_SONG
    ensures Reachable(FirstArmed(p))
    ensures Waiting(FirstArmed(p)) && FirstArmed(p).timers == map[0 := Timer(EscapedSong(p), p, false)]
  {
    var w := FirstAnswers(Some(p), NoStream);
    ArtlessChange(Begun(), p, w);
    Begins(w);
  }

  // The retry counter outlives its song

  function Retried(s: State, p: Props, n: nat): State {
    s.(retryCount := n, fails := n, timers := map[n := Timer(s.song, p, false)], retryTimer := Some(n),
        nextTimer := n + 1)
  }

  lemma OneMoreRetry(s: State, p: Props, n: nat)
    requires Reachable(Retried(s, p, n)) && Waiting(s) && n < RETRY_MAX_ATTEMPTS - 1
    ensures Reachable(Retried(s, p, n + 1))
  {
    var s1 := Retried(s, p, n);
    TimerRuns(s1, n, Answers(None, NoStream));
    assert s1.timers - {n} == map[];
    assert RunRetry(s1.(timers := map[]), s.song, p, Answers(None, NoStream)) == Retried(s, p, n + 1);
  }

  lemma {:induction false} ManyRetries(p: Props, n: nat)
    requires EscapedSong(p) != NO_SONG && n <= RETRY_MAX_ATTEMPTS - 1
    ensures Reachable(Retried(FirstArmed(p), p, n))
  {
    if n == 0 {
      FirstArmedIsReachable(p);
      assert Retried(FirstArmed(p), p, 0) == FirstArmed(p);
    } else {
      ManyRetries(p, n - 1);
      OneMoreRetry(FirstArmed(p), p, n - 1);
    }
  }

  /** For any two songs: nine retries for the first fail, the second arrives with its art, and starts
      with the counter at nine. */
  lemma CounterOutlivesItsSong(p: Props, q: Props, size: nat, body: ArtBody) returns (s: State)
    requires EscapedSong(p) != NO_SONG && EscapedSong(q) != EscapedSong(p) && size > 0
    ensures Reachable(s) && s.song == EscapedSong(p) && s.retryCount == RETRY_MAX_ATTEMPTS - 1
    ensures var t := Execute(s, MediaChanged, Answers(Some(q), Stream(size, Some(body))));
            Reachable(t) && t.song == EscapedSong(q) && t.retryCount == RETRY_MAX_ATTEMPTS - 1
  {
    ManyRetries(p, RETRY_MAX_ATTEMPTS - 1);
    s := Retried(FirstArmed(p), p, RETRY_MAX_ATTEMPTS - 1);
    var w := Answers(Some(q), Stream(size, Some(body)));
    Notified(s, MediaChanged, w);
    MediaCounter(s, w);
  }

  /** For any song: nine retries run without telling it, and the tenth tells it without art. */
  lemma NineRetriesTellNothing(p: Props) returns (s: State)
    requires EscapedSong(p) != NO_SONG
    ensures Reachable(s) && s.song == EscapedSong(p) && s.retryCount == s.fails == RETRY_MAX_ATTEMPTS - 1
    ensures LastInfo(s.emitted) == None && s.timers == map[9 := Timer(s.song, p, false)]
    ensures var t := RunRetry(s.(timers := map[]), s.song, p, Answers(None, NoStream));
            Reachable(t) && SendsArtless(s, t)
  {
    ManyRetries(p, RETRY_MAX_ATTEMPTS - 1);
    s := Retried(FirstArmed(p), p, RETRY_MAX_ATTEMPTS - 1);
    LastInfoAppend(Begun().emitted, DeviceChangedEvent("player"));
    LastInfoAppend([], Begun().emitted[0]);
    assert [] + [Begun().emitted[0]] == Begun().emitted;
    TimerRuns(s, 9, Answers(None, NoStream));
    assert s.timers - {9} == map[];
    var t := RunRetry(s.(timers := map[]), s.song, p, Answers(None, NoStream));
    assert Artless(t.emitted[|s.emitted|]);
  }

  // One song, told twice

  /** The retry for the first song is queued behind a notification of the second. */
  function Overtaken(p: Props): State {
    FirstArmed(p).(timers := map[], queue := [MediaChanged, Retry(EscapedSong(p), p)])
  }

  lemma OvertakenIsReachable(p: Props)
    requires EscapedSong(p) != NO_SONG
    ensures Reachable(Overtaken(p))
  {
    FirstArmedIsReachable(p);
    Posted(FirstArmed(p), MediaChanged);
    QueuedBehind(FirstArmed(p), p);
  }

  lemma QueuedBehind(s: State, p: Props)
    requires Reachable(s.(queue := [MediaChanged])) && s.timers == map[0 := Timer(EscapedSong(p), p, false)]
    ensures Reachable(s.(timers := map[], queue := [MediaChanged, Retry(EscapedSong(p), p)]))
  {
    TimerSends(s.(queue := [MediaChanged]), 0);
    assert s.timers - {0} == map[];
    assert [MediaChanged] + [Retry(EscapedSong(p), p)] == [MediaChanged, Retry(EscapedSong(p), p)];
  }

  /** Now the second song is read, arms a timer, and the stale retry forgets that timer. */
  function Forgotten(p: Props, q: Props): State {
    Awaiting(Overtaken(p).(queue := []), q).(retryTimer := None)
  }

  lemma ForgottenIsReachable(p: Props, q: Props)
    requires EscapedSong(p) != NO_SONG && EscapedSong(q) != EscapedSong(p)
    ensures Reachable(Forgotten(p, q))
    ensures Waiting(Forgotten(p, q)) && Forgotten(p, q).timers == map[1 := Timer(EscapedSong(q), q, false)]
  {
    OvertakenIsReachable(p);
    var s, w := Overtaken(p), Answers(Some(q), NoStream);
    var retry := Retry(EscapedSong(p), p);
    assert s.queue[1..] == [retry];
    ArtlessChange(s.(queue := [retry]), q, w);
    var s1 := Awaiting(s.(queue := [retry]), q);
    StepTo(s, Runs(w), s1);
    assert s1.queue[1..] == [];
    StepTo(s1, Runs(w), Forgotten(p, q));
  }

  /** The first song comes back and the second after it: the second has two retries. */
  function TwoChains(p: Props, q: Props): State {
    Awaiting(Awaiting(Forgotten(p, q), p), q)
  }

  lemma TwoChainsAreReachable(p: Props, q: Props)
    requires EscapedSong(p) != NO_SONG && EscapedSong(q) != EscapedSong(p)
    ensures var s := TwoChains(p, q); var t := Timer(EscapedSong(q), q, false);
            && Reachable(s) && Waiting(s) && s.song == EscapedSong(q) && s.timers == map[1 := t, 3 := t]
            && s.props.Some? && s.thumbSize == 0
  {
    ForgottenIsReachable(p, q);
    var s := Forgotten(p, q);
    var s1 := Awaiting(s, p);
    ArtlessChange(s, p, Answers(Some(p), NoStream));
    Notified(s, MediaChanged, Answers(Some(p), NoStream));
    assert s1.timers == map[1 := Timer(EscapedSong(q), q, false), 2 := Timer(EscapedSong(p), p, false)];
    ArtlessChange(s1, q, Answers(Some(q), NoStream));
    Notified(s1, MediaChanged, Answers(Some(q), NoStream));
    assert s1.timers - {2} == map[1 := Timer(EscapedSong(q), q, false)];
  }

  /** A retry that reads art tells the song. */
  lemma RetryTells(s: State, id: nat, w: World) returns (t: State, d: InfoData)
    requires Reachable(s) && Waiting(s) && id in s.timers && s.timers[id].song == s.song && s.props.Some?
    requires Readable(w.art) && (s.thumbSize == w.art.size ==> s.thumb == Some(w.art.body.value.bytes))
    ensures Reachable(t) && Waiting(t) && t.timers == s.timers - {id} && t.props == s.props && t.song == s.song
    ensures t.thumbSize == w.art.size && t.thumb == Some(w.art.body.value.bytes)
    ensures t.emitted == s.emitted + [InfoEvent(d)] && d.song == s.song && d.thumb == w.art.body.value.bytes
  {
    TimerRuns(s, id, w);
    t := RunRetry(s.(timers := s.timers - {id}), s.song, s.timers[id].props, w);
    d := t.emitted[|s.emitted|].info;
  }

  /** For any two songs and any art: the second song is told twice in a row, with the same art. */
  lemma OneSongToldTwice(p: Props, q: Props, size: nat, body: ArtBody)
      returns (s: State, before: seq<Event>, d: InfoData, e: InfoData)
    requires EscapedSong(p) != NO_SONG && EscapedSong(q) != EscapedSong(p) && size > 0
    ensures Reachable(s) && s.emitted == before + [InfoEvent(d)] + [InfoEvent(e)]
    ensures d.song == e.song == EscapedSong(q) && d.thumb == e.thumb == body.bytes
  {
    TwoChainsAreReachable(p, q);
    var s0, w := TwoChains(p, q), Answers(Some(q), Stream(size, Some(body)));
    var s1;
    s1, d := RetryTells(s0, 1, w);
    s, e := RetryTells(s1, 3, w);
    before := s0.emitted;
  }

  // Art that is never announced

  /** For any song and any two pictures: while the first is shown the second arrives, in a stream of
      the same size or with as many bytes, and is not announced. */
  lemma OtherArtIsMissed(p: Props, body: ArtBody, size: nat, other: ArtBody, otherSize: nat) returns (s: State)
    requires EscapedSong(p) != NO_SONG && size > 0 && otherSize > 0
    requires size == otherSize || |body.bytes| == |other.bytes|
    ensures Reachable(s) && LastInfo(s.emitted).Some? && LastInfo(s.emitted).value.thumb == body.bytes
    ensures var t := Execute(s, MediaChanged, Answers(Some(p), Stream(otherSize, Some(other))));
            Reachable(t) && t.emitted == s.emitted
  {
    var w := FirstAnswers(Some(p), Stream(size, Some(body)));
    Begins(w);
    var r := HandleMedia(Begun(), w);
    s := Emit(r, DeviceChangedEvent("player"));
    LastInfoAppend(r.emitted, DeviceChangedEvent("player"));
    var w1 := Answers(Some(p), Stream(otherSize, Some(other)));
    Notified(s, MediaChanged, w1);
    MediaSends(s, w1);
  }

  // A progress report that is never sent

  /** The session is closed at five seconds of twenty and has no media properties. */
  function ClosedSession(): World {
    FirstAnswers(None, NoStream).(timeline := Some(Timeline(50_000_000, 200_000_000, 1, STATUS_CLOSED, None, None,
        None)))
  }

  /** It was read, and then no session was left. */
  function Emptied(): State {
    var s := Begun();
    ApplyEmptyList(s.(sessions := [], objects := [], position := 5, duration := 20,
      emitted := s.emitted + [DeviceChangedEvent("player"), ProgressEvent(ProgressOf(ClosedSession().timeline.value)),
          SessionsChangedEvent([])]))
  }

  lemma EmptiedIsReachable()
    ensures Reachable(Emptied())
  {
    var w := ClosedSession();
    Begins(w);
    var s := Emit(Begun(), DeviceChangedEvent("player"));
    assert HandleMedia(Begun(), w) == Begun();
    var p := ProgressOf(w.timeline.value);
    assert (p.position, p.duration, p.status) == (5, 20, STATUS_CLOSED);
    var s1 := Emit(s, ProgressEvent(p)).(position := 5, duration := 20);
    StepTo(s, Ticks(w), s1);
    var gone := w.(list := []);
    Notified(s1, Enumerate, gone);
    EmptyEnumeration(s1, gone);
    assert s1.emitted + [SessionsChangedEvent([])]
        == Begun().emitted + [DeviceChangedEvent("player"), ProgressEvent(p), SessionsChangedEvent([])];
  }

  /** The same session comes back and its timeline is read: the last report says zero, the session
      says five of twenty, and the read sends nothing. */
  lemma OutdatedProgressHappens() returns (s: State, t: Timeline)
    ensures var u := Next(s, Ticks(ClosedSession()));
            Reachable(s) && Reachable(u) && s.session.Some? && ClosedSession().timeline == Some(t)
            && u.emitted == s.emitted && Triple(LastTold(u.emitted)) == (0, 0, STATUS_CLOSED)
                && Triple(ProgressOf(t)) == (5, 20, STATUS_CLOSED)
  {
    EmptiedIsReachable();
    var e, w := Emptied(), ClosedSession();
    Notified(e, Enumerate, w);
    EnumerateOne(e, w, "player", 1);
    s, t := EnumerateSessions(e, w), w.timeline.value;
    ReachableHolds(s);
    StepTo(s, Ticks(w), s);
  }
}
