/** What every run of the media loop keeps. */
module MediaInvariants {
  import opened Domain
  import opened Escaping
  import opened MediaLoop
  import Names

  // The song is never silently lost

  function LastSong(events: seq<Event>): Song {
    var d := LastInfo(events);
    if d.Some? then d.value.song else NO_SONG
  }

  ghost predicate RetryArmed(s: State, song: Song) {
    exists id | id in s.timers :: s.timers[id].song == song
  }

  ghost predicate RetryQueued(s: State, song: Song) {
    exists i | 0 <= i < |s.queue| :: s.queue[i].Retry? && s.queue[i].song == song
  }

  /** The subscribers were told the current song, or a retry for exactly that song is on its
      way, or such a retry was counted as dropped since the song became current. */
  ghost predicate SongNotLost(s: State) {
    LastSong(s.emitted) == s.song || RetryArmed(s, s.song) || RetryQueued(s, s.song) || s.lost > 0
  }

  // Art cache, retry counter and queue

  ghost predicate Bounded(s: State) {
    && (s.thumbSize > 0 ==> s.thumb.Some?)
    && s.retryCount == (if s.fails < RETRY_MAX_ATTEMPTS then s.fails else RETRY_MAX_ATTEMPTS - 1)
    && |s.queue| <= COMMAND_CAPACITY
    && s.lost <= s.dropped
    && (forall id | id in s.timers :: id < s.nextTimer)
    && (s.retryTimer.Some? ==> s.retryTimer.value < s.nextTimer)
  }

  // Progress

  function LastTold(events: seq<Event>): ProgressData {
    var p := LastProgress(events);
    if p.Some? then p.value else CLOSED_PROGRESS
  }

  ghost predicate ProgressAgrees(s: State) {
    var told := LastTold(s.emitted);
    && told.status == s.status
    && (if s.cleared then told == CLOSED_PROGRESS else told.position == s.position && told.duration == s.duration)
  }

  // Session selection

  ghost predicate Follows(s: State, i: nat) {
    && i < |s.sessions|
    && i < |s.objects|
    && s.session == Some(s.objects[i])
    && LastDevice(s.emitted) == Some(s.sessions[i].appID)
    && (s.selected != "" && FirstIndex(s.sessions, s.selected).Some? ==> i == FirstIndex(s.sessions, s.selected).value)
  }

  ghost predicate SelectionHolds(s: State) {
    && |s.sessions| == |s.objects|
    && (s.session.None? <==> s.sessions == [])
    && (s.sessions != [] ==> exists i :: Follows(s, i))
  }

  ghost predicate Core(s: State) {
    SongNotLost(s) && Bounded(s) && ProgressAgrees(s)
  }

  ghost predicate Inv(s: State) {
    Core(s) && SelectionHolds(s)
  }

  lemma InitHolds(device: string)
    ensures Inv(Init(device))
  {
  }

  // One command at a time

  lemma EmitFacts(events: seq<Event>, e: Event)
    ensures LastInfo(events + [e]) == if e.InfoEvent? then Some(e.info) else LastInfo(events)
    ensures LastProgress(events + [e]) == if e.ProgressEvent? then Some(e.progress) else LastProgress(events)
    ensures LastDevice(events + [e]) == if e.DeviceChangedEvent? then Some(e.appID) else LastDevice(events)
  {
    LastInfoAppend(events, e);
    LastProgressAppend(events, e);
    LastDeviceAppend(events, e);
  }

  /** What a media command leaves alone, and the only event it may send. */
  ghost predicate MediaFrame(s: State, t: State) {
    && t.session == s.session && t.sessions == s.sessions && t.objects == s.objects && t.selected == s.selected
    && t.status == s.status && t.position == s.position && t.duration == s.duration && t.cleared == s.cleared
    && t.queue == s.queue && t.dropped == s.dropped
    && (t.emitted == s.emitted || exists d :: t.emitted == s.emitted + [InfoEvent(d)] && d.song == t.song)
  }

  /** Only the art cache (and the properties, the song and the retry bookkeeping) may differ. */
  ghost predicate SameButArt(s: State, t: State) {
    t == s.(props := t.props, thumbSize := t.thumbSize, thumbType := t.thumbType, thumb := t.thumb)
  }

  lemma ReadArtFacts(s: State, read: ArtRead)
    requires s.thumbSize > 0 ==> s.thumb.Some?
    ensures var (t, art) := ReadArt(s, read);
            SameButArt(s, t) && (t.thumbSize > 0 ==> t.thumb.Some?) && (art.bytes.Some? ==> art.bytes == t.thumb)
    ensures var (t, art) := ReadArt(s, read);
            art.bytes.None? ==> t == s
  {
  }

  lemma ScheduleArms(s: State, song: Song, props: Props)
    requires Bounded(s)
    ensures var t := Schedule(s, song, props);
            Bounded(t) && RetryArmed(t, song) && MediaFrame(s, t) && t.emitted == s.emitted && t.song == s.song
  {
    var t := Schedule(s, song, props);
    assert t.timers[s.nextTimer].song == song;
  }

  lemma MediaFrameKeeps(s: State, t: State)
    requires MediaFrame(s, t) && ProgressAgrees(s) && Bounded(t)
    requires t.emitted == s.emitted ==> SongNotLost(t)
    ensures Core(t)
    ensures LastDevice(t.emitted) == LastDevice(s.emitted)
  {
    if t.emitted != s.emitted {
      var d :| t.emitted == s.emitted + [InfoEvent(d)] && d.song == t.song;
      EmitFacts(s.emitted, InfoEvent(d));
    }
  }

  lemma EmitInfoFrame(s: State, t: State, d: InfoData)
    requires SameButArt(s, t.(song := s.song, lost := s.lost, fails := s.fails, retryTimer := s.retryTimer))
    ensures MediaFrame(s, Emit(t, InfoEvent(d.(song := t.song))))
  {
    assert d.(song := t.song).song == t.song;
  }

  lemma ClearMediaKeeps(s: State)
    requires Core(s)
    ensures Core(ClearMedia(s)) && MediaFrame(s, ClearMedia(s))
    ensures LastDevice(ClearMedia(s).emitted) == LastDevice(s.emitted)
  {
    var t := ClearMedia(s);
    assert EMPTY_INFO.song == NO_SONG;
    MediaFrameKeeps(s, t);
  }

  /** Up to the decision whether to tell or to retry. */
  lemma AdoptedFacts(s: State, p: Props, song: Song, read: ArtRead)
    requires Bounded(s)
    ensures var (t, art) := CurrentArt(AdoptProps(s, p), song != s.song, read); SameButArt(s, t) && Bounded(t)
  {
    ReadArtFacts(AdoptProps(s, p), read);
  }

  lemma AdoptMediaKeeps(s: State, p: Props, w: World)
    requires Core(s) && s.session.Some? && w.media == Some(p)
    ensures var t := HandleMedia(s, w); Bounded(t) && MediaFrame(s, t) && (t.emitted == s.emitted ==> SongNotLost(t))
  {
    var song := EscapedSong(p);
    AdoptedFacts(s, p, song, w.art);
    var (s2, art) := CurrentArt(AdoptProps(s, p), song != s.song, w.art);
    var s3 := SetSong(s2, song);
    if song != s.song && art.bytes.None? {
      ScheduleArms(s3.(retryCount := 0, fails := 0), song, p);
    } else {
      EmitInfoFrame(s, s3, InfoFor(song, art, p, s.selected));
    }
  }

  lemma HandleMediaKeeps(s: State, w: World)
    requires Core(s)
    ensures Core(HandleMedia(s, w)) && MediaFrame(s, HandleMedia(s, w))
    ensures LastDevice(HandleMedia(s, w).emitted) == LastDevice(s.emitted)
  {
    if s.session.Some? {
      match w.media
      case None => ClearMediaKeeps(s);
      case Some(p) =>
        AdoptMediaKeeps(s, p, w);
        MediaFrameKeeps(s, HandleMedia(s, w));
    }
  }

  lemma RetryArtFacts(s: State, read: ArtRead)
    requires s.thumbSize > 0 ==> s.thumb.Some?
    ensures var (t, art) := RetryArt(s, read);
            && SameButArt(s, t.(fails := s.fails)) && (t.thumbSize > 0 ==> t.thumb.Some?)
            && t.fails == s.fails + (if art.bytes.None? then 1 else 0)
  {
    ReadArtFacts(s, read);
  }

  lemma MatchingRetryKeeps(s: State, props: Props, w: World)
    requires Bounded(s)
    ensures var t := RunRetry(s, s.song, props, w);
            Bounded(t) && MediaFrame(s, t) && (t.emitted == s.emitted ==> RetryArmed(t, t.song))
  {
    var s1 := s.(retryTimer := None);
    var (s2, art) := RetryArt(s1, w.art);
    RetryArtFacts(s1, w.art);
    if art.bytes.None? && s2.retryCount < RETRY_MAX_ATTEMPTS - 1 {
      ScheduleArms(s2.(retryCount := s2.retryCount + 1), s.song, props);
    } else {
      EmitInfoFrame(s, s2, InfoFor(s.song, art, props, s.selected));
    }
  }

  /** `s` is the state after its command was taken from the queue. */
  lemma RunRetryKeeps(s: State, song: Song, props: Props, w: World)
    requires Bounded(s) && ProgressAgrees(s)
    requires s.song != song ==> SongNotLost(s)
    ensures var t := RunRetry(s, song, props, w);
            Core(t) && MediaFrame(s, t) && LastDevice(t.emitted) == LastDevice(s.emitted)
  {
    var t := RunRetry(s, song, props, w);
    if s.song == song {
      MatchingRetryKeeps(s, props, w);
    } else {
      assert RetryArmed(s, s.song) ==> RetryArmed(t, t.song);
      assert RetryQueued(s, s.song) ==> RetryQueued(t, t.song);
    }
    MediaFrameKeeps(s, t);
  }

  lemma ReadTimelineKeeps(s: State, w: World)
    requires Inv(s)
    ensures Inv(ReadTimeline(s, w))
  {
    var t := ReadTimeline(s, w);
    if t.emitted != s.emitted {
      EmitFacts(s.emitted, ProgressEvent(ProgressOf(w.timeline.value)));
      var i :| Follows(s, i);
      assert Follows(t, i);
    }
  }

  /** The session fields and events of other kinds do not matter to the core. */
  lemma CoreIgnoresSessions(s: State, t: State)
    requires Core(s)
    requires t == s.(started := t.started, session := t.session, sessions := t.sessions, objects := t.objects,
                     selected := t.selected, emitted := t.emitted)
    requires t.emitted == s.emitted || exists e: Event ::
        !e.InfoEvent? && !e.ProgressEvent? && t.emitted == s.emitted + [e]
    ensures Core(t)
  {
    if t.emitted != s.emitted {
      var e: Event :| !e.InfoEvent? && !e.ProgressEvent? && t.emitted == s.emitted + [e];
      EmitFacts(s.emitted, e);
    }
    assert RetryArmed(s, s.song) ==> RetryArmed(t, t.song);
    assert RetryQueued(s, s.song) ==> RetryQueued(t, t.song);
  }

  lemma SwitchToKeeps(s: State, index: nat, w: World)
    requires Core(s) && |s.sessions| == |s.objects| && index < |s.sessions|
    requires s.selected != "" && FirstIndex(s.sessions, s.selected).Some? ==>
        index == FirstIndex(s.sessions, s.selected).value
    ensures Inv(SwitchTo(s, index, w))
  {
    var s1 := s.(session := Some(s.objects[index]));
    CoreIgnoresSessions(s, s1);
    HandleMediaKeeps(s1, w);
    var s2 := HandleMedia(s1, w);
    var e := DeviceChangedEvent(s2.sessions[index].appID);
    EmitFacts(s2.emitted, e);
    CoreIgnoresSessions(s2, Emit(s2, e));
    assert Follows(SwitchTo(s, index, w), index);
  }

  lemma EmptyListKeeps(s: State)
    requires Core(s) && s.sessions == [] && s.objects == []
    ensures Inv(ApplyEmptyList(s))
  {
    EmitFacts(s.emitted, InfoEvent(EMPTY_INFO));
    EmitFacts(s.emitted + [InfoEvent(EMPTY_INFO)], ProgressEvent(CLOSED_PROGRESS));
  }

  lemma ApplyListKeeps(s: State, sessions: seq<SessionInfo>, objects: seq<Handle>, w: World)
    requires Inv(s) && |sessions| == |objects|
    ensures Inv(ApplyList(s, sessions, objects, w))
  {
    var s1 := Emit(s.(sessions := sessions, objects := objects), SessionsChangedEvent(sessions));
    CoreIgnoresSessions(s, s1);
    if sessions == [] {
      EmptyListKeeps(s1);
    } else {
      SwitchToKeeps(s1, Chosen(sessions, s.selected), w);
    }
  }

  lemma EnumerateKeeps(s: State, w: World)
    requires Inv(s)
    ensures Inv(EnumerateSessions(s, w))
  {
    var usable := Usable(w.list);
    ApplyListKeeps(s, Names.Entries(AppIDs(usable), w.friendly), Handles(usable), w);
  }

  lemma StartKeeps(s: State, w: World)
    requires Inv(s)
    ensures Inv(EnumerateSessions(s.(started := true), w))
  {
    var s1 := s.(started := true);
    CoreIgnoresSessions(s, s1);
    FollowsFrame(s, s1);
    EnumerateKeeps(s1, w);
  }

  lemma SelectKeeps(s: State, appID: string, w: World)
    requires Inv(s)
    ensures Inv(SelectDevice(s, appID, w))
  {
    var s1 := s.(selected := appID);
    CoreIgnoresSessions(s, s1);
    var first := FirstIndex(s1.sessions, appID);
    if first.Some? {
      SwitchToKeeps(s1, first.value, w);
    } else if s.sessions != [] {
      var i :| Follows(s, i);
      assert Follows(s1, i);
    }
  }

  /** Taking a command from the queue loses nothing but, perhaps, a retry for the current song. */
  lemma TakeCommand(s: State)
    requires Inv(s) && s.queue != []
    ensures var s1 := s.(queue := s.queue[1..]);
            Bounded(s1) && ProgressAgrees(s1) && SelectionHolds(s1) &&
            (SongNotLost(s1) || (s.queue[0].Retry? && s.queue[0].song == s.song))
  {
    var s1 := s.(queue := s.queue[1..]);
    FollowsFrame(s, s1);
    if RetryQueued(s, s.song) && !(s.queue[0].Retry? && s.queue[0].song == s.song) {
      var i :| 0 <= i < |s.queue| && s.queue[i].Retry? && s.queue[i].song == s.song;
      assert s1.queue[i - 1] == s.queue[i];
    }
    if RetryArmed(s, s.song) {
      assert RetryArmed(s1, s.song);
    }
  }

  lemma FollowsFrame(s: State, t: State)
    requires SelectionHolds(s)
    requires t.session == s.session && t.sessions == s.sessions && t.objects == s.objects && t.selected == s.selected
    requires LastDevice(t.emitted) == LastDevice(s.emitted)
    ensures SelectionHolds(t)
  {
    if s.sessions != [] {
      var i :| Follows(s, i);
      assert Follows(t, i);
    }
  }

  lemma ExecuteKeeps(s: State, w: World)
    requires Inv(s) && s.queue != []
    ensures Inv(Execute(s.(queue := s.queue[1..]), s.queue[0], w))
  {
    TakeCommand(s);
    var s1 := s.(queue := s.queue[1..]);
    match s.queue[0]
    case Retry(song, props) =>
      RunRetryKeeps(s1, song, props, w);
      FollowsFrame(s1, RunRetry(s1, song, props, w));
    case MediaChanged =>
      HandleMediaKeeps(s1, w);
      FollowsFrame(s1, HandleMedia(s1, w));
    case PlaybackChanged => ReadTimelineKeeps(s1, w);
    case Enumerate => EnumerateKeeps(s1, w);
    case Select(appID) => SelectKeeps(s1, appID, w);
    case Control =>
  }

  lemma PostNotLost(s: State, c: Command)
    requires SongNotLost(s)
    ensures SongNotLost(Post(s, c))
  {
    var t := Post(s, c);
    if RetryArmed(s, s.song) {
      assert RetryArmed(t, s.song);
    }
    if RetryQueued(s, s.song) {
      var i :| 0 <= i < |s.queue| && s.queue[i].Retry? && s.queue[i].song == s.song;
      assert t.queue[i] == s.queue[i];
    }
  }

  lemma PostBounded(s: State, c: Command)
    requires Bounded(s)
    ensures var t := Post(s, c); Bounded(t) && t == s.(queue := t.queue, dropped := t.dropped)
  {
  }

  lemma PostKeeps(s: State, c: Command)
    requires Inv(s)
    ensures Inv(Post(s, c))
  {
    PostBounded(s, c);
    assert ProgressAgrees(Post(s, c));
    FollowsFrame(s, Post(s, c));
    PostNotLost(s, c);
  }

  /** A retry that leaves its timer is queued or, if it was for the current song, counted. */
  lemma SentRetryNotLost(s: State, id: nat)
    requires SongNotLost(s) && id in s.timers
    ensures SongNotLost(SendRetry(s, id))
  {
    var t := SendRetry(s, id);
    if RetryArmed(s, s.song) {
      var k :| k in s.timers && s.timers[k].song == s.song;
      if k != id {
        assert t.timers[k].song == s.song;
      } else if t.dropped == s.dropped {
        assert t.queue[|s.queue|].song == s.song;
      }
    }
    if RetryQueued(s, s.song) {
      var i :| 0 <= i < |s.queue| && s.queue[i].Retry? && s.queue[i].song == s.song;
      assert t.queue[i] == s.queue[i];
    }
  }

  lemma SentRetryBounded(s: State, id: nat)
    requires Bounded(s) && id in s.timers
    ensures var t := SendRetry(s, id);
            Bounded(t) && t == s.(timers := t.timers, queue := t.queue, dropped := t.dropped, lost := t.lost)
  {
  }

  lemma SendRetryKeeps(s: State, id: nat)
    requires Inv(s) && id in s.timers
    ensures Inv(SendRetry(s, id))
  {
    var t := SendRetry(s, id);
    SentRetryBounded(s, id);
    assert ProgressAgrees(t);
    FollowsFrame(s, t);
    SentRetryNotLost(s, id);
  }

  lemma FiresKeeps(s: State, id: nat)
    requires Inv(s)
    ensures Inv(Next(s, Fires(id)))
  {
    var t := Next(s, Fires(id));
    FollowsFrame(s, t);
    if RetryArmed(s, s.song) {
      var k :| k in s.timers && s.timers[k].song == s.song;
      assert t.timers[k].song == s.song;
    }
    if RetryQueued(s, s.song) {
      assert RetryQueued(t, s.song);
    }
  }

  lemma NextKeeps(s: State, step: Step)
    requires Inv(s)
    ensures Inv(Next(s, step))
  {
    match step
    case Start(w) => if !s.started { StartKeeps(s, w); }
    case Runs(w) => if s.started && s.queue != [] { ExecuteKeeps(s, w); }
    case Ticks(w) => if s.started { ReadTimelineKeeps(s, w); }
    case Fires(id) => FiresKeeps(s, id);
    case Sends(id) => if id in s.timers && s.timers[id].fired { SendRetryKeeps(s, id); }
    case Notifies(c) => PostKeeps(s, c);
    case Selects(appID) => PostKeeps(s, Select(appID));
    case Controls => PostKeeps(s, Control);
  }

  lemma {:induction false} RunKeeps(device: string, steps: seq<Step>)
    ensures Inv(Run(Init(device), steps))
  {
    if steps == [] {
      InitHolds(device);
    } else {
      RunKeeps(device, steps[..|steps| - 1]);
      NextKeeps(Run(Init(device), steps[..|steps| - 1]), steps[|steps| - 1]);
    }
  }
}
