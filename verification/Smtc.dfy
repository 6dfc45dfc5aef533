/** The media loop as the object it is: fields updated in place by methods that run on one
    goroutine. Every method is proved to do what the machine of `MediaLoop` does. */
module SmtcObject {
  import opened Domain
  import opened Escaping
  import opened MediaLoop
  import Names

  class Smtc {
    var currentSession: Option<Handle>
    var sessions: seq<SessionInfo>
    var sessionObjects: seq<Handle>
    var selectedAppID: string
    var currentArtist: string
    var currentTitle: string
    var currentStatus: int
    var currentPosition: int
    var currentDuration: int
    var currentThumbnailSize: nat
    var currentThumbnailContentType: string
    var currentThumbnailData: Option<ArtBytes>
    var currentProperties: Option<Props>
    var thumbnailRetryCount: int
    var thumbnailRetryTimer: Option<nat>
    var cmdChan: seq<Command>
    var droppedEvents: nat
    // the runtime's timers, and the events handed to the fan-out so far
    var timers: map<nat, Timer>
    var nextTimer: nat
    var outbox: seq<Event>
    ghost var started: bool
    ghost var fails: nat
    ghost var lost: nat
    ghost var cleared: bool

    ghost function View(): State
      reads this
    {
      State(started, currentSession, sessions, sessionObjects, selectedAppID,
        Song(currentArtist, currentTitle), currentProperties,
        currentStatus, currentPosition, currentDuration,
        currentThumbnailSize, currentThumbnailContentType, currentThumbnailData,
        thumbnailRetryCount, thumbnailRetryTimer, timers, nextTimer, cmdChan, droppedEvents,
        outbox, fails, lost, cleared)
    }

    constructor (device: string)
      ensures View() == Init(device)
    {
      currentSession, sessions, sessionObjects, selectedAppID := None, [], [], device;
      currentArtist, currentTitle, currentProperties := "", "", None;
      currentStatus, currentPosition, currentDuration := 0, 0, 0;
      currentThumbnailSize, currentThumbnailContentType, currentThumbnailData := 0, "", None;
      thumbnailRetryCount, thumbnailRetryTimer := 0, None;
      cmdChan, droppedEvents, timers, nextTimer, outbox := [], 0, map[], 0, [];
      started, fails, lost, cleared := false, 0, 0, false;
    }

    method FanOut(e: Event)
      modifies this`outbox
      ensures View() == Emit(old(View()), e)
    {
      outbox := outbox + [e];
    }

    method StoreSong(artist: string, title: string)
      modifies this`currentArtist, this`currentTitle, this`lost
      ensures View() == SetSong(old(View()), Song(artist, title))
    {
      if artist != currentArtist || title != currentTitle {
        lost := 0;
      }
      currentArtist, currentTitle := artist, title;
    }

    method ReadThumbnail(read: ArtRead) returns (contentType: string, data: Option<ArtBytes>)
      modifies this`currentThumbnailSize, this`currentThumbnailContentType, this`currentThumbnailData
      ensures (View(), Art(contentType, data)) == ReadArt(old(View()), read)
    {
      if currentProperties.None? || read.NoStream? || read.size == 0 {
        return "", None;
      }
      if read.size == currentThumbnailSize && currentThumbnailSize > 0 {
        return currentThumbnailContentType, currentThumbnailData;
      }
      if read.body.None? {
        return "", None;
      }
      currentThumbnailSize := read.size;
      currentThumbnailContentType := read.body.value.kind;
      currentThumbnailData := Some(read.body.value.bytes);
      return currentThumbnailContentType, currentThumbnailData;
    }

    method ForgetThumbnail()
      modifies this`currentThumbnailSize, this`currentThumbnailContentType, this`currentThumbnailData
      ensures View() == ForgetArt(old(View()))
    {
      currentThumbnailSize := 0;
      currentThumbnailData := None;
      currentThumbnailContentType := "";
    }

    method ClearMediaInfo()
      modifies this
      ensures View() == ClearMedia(old(View()))
    {
      if currentArtist == "" && currentTitle == "" {
        return;
      }
      StoreSong("", "");
      currentProperties := None;
      ForgetThumbnail();
      FanOut(InfoEvent(EMPTY_INFO));
    }

    method ScheduleThumbnailRetry(artist: string, title: string, props: Props)
      modifies this`timers, this`thumbnailRetryTimer, this`nextTimer
      ensures View() == Schedule(old(View()), Song(artist, title), props)
    {
      if thumbnailRetryTimer.Some? {
        var id := thumbnailRetryTimer.value;
        if id in timers && !timers[id].fired {
          timers := timers - {id};
        }
      }
      timers := timers[nextTimer := Timer(Song(artist, title), props, false)];
      thumbnailRetryTimer := Some(nextTimer);
      nextTimer := nextTimer + 1;
    }

    method FireInfo(artist: string, title: string, contentType: string, data: Option<ArtBytes>, props: Props)
      modifies this`outbox
      ensures View() == Emit(old(View()), InfoEvent(InfoFor(Song(artist, title), Art(contentType, data), props,
          old(selectedAppID))))
    {
      var albumTitle := Escape(props.albumTitle);
      var albumArtist := Escape(props.albumArtist);
      FanOut(InfoEvent(InfoData(Song(artist, title), contentType, if data.Some? then data.value else [],
        albumTitle, albumArtist, props.playbackType, selectedAppID)));
    }

    method AdoptProperties(props: Props, artist: string, title: string) returns (artistChanged: bool)
      requires Song(artist, title) == EscapedSong(props)
      modifies this
      ensures View() == AdoptProps(old(View()), props)
      ensures artistChanged <==> EscapedSong(props) != old(View()).song
    {
      currentProperties := Some(props);
      artistChanged := artist != currentArtist || title != currentTitle;
      if artistChanged {
        ForgetThumbnail();
      }
    }

    method ReadCurrentThumbnail(artistChanged: bool, read: ArtRead) returns (contentType: string,
        data: Option<ArtBytes>)
      modifies this`currentThumbnailSize, this`currentThumbnailContentType, this`currentThumbnailData
      ensures (View(), Art(contentType, data)) == CurrentArt(old(View()), artistChanged, read)
    {
      contentType, data := ReadThumbnail(read);
      if !artistChanged && data.None? && currentThumbnailData.Some? {
        contentType, data := currentThumbnailContentType, currentThumbnailData;
      }
    }

    method StartRetries(artist: string, title: string, props: Props)
      modifies this
      ensures View() == Schedule(SetSong(old(View()), Song(artist, title)).(retryCount := 0, fails := 0),
          Song(artist, title), props)
    {
      StoreSong(artist, title);
      ghost var s1 := View();
      thumbnailRetryCount := 0;
      fails := 0;
      assert View() == s1.(retryCount := 0, fails := 0);
      ScheduleThumbnailRetry(artist, title, props);
    }

    method Report(artist: string, title: string, artistChanged: bool, oldThumbLen: nat,
                  contentType: string, data: Option<ArtBytes>, props: Props)
      modifies this
      ensures View() == ReportMedia(old(View()), Song(artist, title), artistChanged, oldThumbLen,
          Art(contentType, data), props)
    {
      if artistChanged && data.None? {
        StartRetries(artist, title, props);
        return;
      }
      var thumbChanged := (if data.Some? then |data.value| else 0) != oldThumbLen;
      if !artistChanged && !thumbChanged {
        return;
      }
      StoreSong(artist, title);
      FireInfo(artist, title, contentType, data, props);
    }

    method HandleMediaPropertiesChanged(w: World)
      modifies this
      ensures View() == HandleMedia(old(View()), w)
    {
      if currentSession.None? {
        return;
      }
      if w.media.None? {
        ClearMediaInfo();
        return;
      }
      var props := w.media.value;
      var artist := Escape(props.artist);
      var title := Escape(props.title);
      var artistChanged := AdoptProperties(props, artist, title);
      var oldThumbLen := if currentThumbnailData.Some? then |currentThumbnailData.value| else 0;
      var contentType, data := ReadCurrentThumbnail(artistChanged, w.art);
      Report(artist, title, artistChanged, oldThumbLen, contentType, data, props);
    }

    method ReadRetryThumbnail(read: ArtRead) returns (contentType: string, data: Option<ArtBytes>)
      modifies this`currentThumbnailSize, this`currentThumbnailContentType, this`currentThumbnailData, this`fails
      ensures (View(), Art(contentType, data)) == RetryArt(old(View()), read)
    {
      contentType, data := ReadThumbnail(read);
      if data.None? {
        fails := fails + 1;
      }
    }

    method RetryThumbnailAndFireInfo(artist: string, title: string, props: Props, w: World)
      modifies this
      ensures View() == RunRetry(old(View()), Song(artist, title), props, w)
    {
      thumbnailRetryTimer := None;
      assert View() == old(View()).(retryTimer := None);
      if currentArtist != artist || currentTitle != title {
        return;
      }
      var contentType, data := ReadRetryThumbnail(w.art);
      if data.None? && thumbnailRetryCount < RETRY_MAX_ATTEMPTS - 1 {
        RetryAgain(artist, title, props);
        return;
      }
      FireInfo(artist, title, contentType, data, props);
    }

    method RetryAgain(artist: string, title: string, props: Props)
      modifies this
      ensures View() == Schedule(old(View()).(retryCount := old(thumbnailRetryCount) + 1), Song(artist, title), props)
    {
      thumbnailRetryCount := thumbnailRetryCount + 1;
      assert View() == old(View()).(retryCount := old(thumbnailRetryCount) + 1);
      ScheduleThumbnailRetry(artist, title, props);
    }

    method SwitchToSession(index: int, w: World)
      modifies this
      ensures View() == SwitchTo(old(View()), index, w)
    {
      if index < 0 || index >= |sessionObjects| {
        return;
      }
      currentSession := Some(sessionObjects[index]);
      HandleMediaPropertiesChanged(w);
      if index < |sessions| {
        FanOut(DeviceChangedEvent(sessions[index].appID));
      }
    }

    method FindSession(list: seq<SessionInfo>, appID: string) returns (index: int)
      ensures index == if FirstIndex(list, appID).Some? then FirstIndex(list, appID).value else -1
    {
      for i := 0 to |list|
        invariant forall k | 0 <= k < i :: list[k].appID != appID
      {
        if list[i].appID == appID {
          return i;
        }
      }
      return -1;
    }

    method ForgetSession()
      modifies this
      ensures View() == SetSong(old(View()), NO_SONG).(session := None, status := STATUS_CLOSED, thumbSize := 0,
          cleared := true)
    {
      StoreSong("", "");
      currentSession := None;
      currentStatus := STATUS_CLOSED;
      currentThumbnailSize := 0;
      cleared := true;
    }

    /** The clearing that follows an empty session list. */
    method ClearForNoSession()
      modifies this
      ensures View() == ApplyEmptyList(old(View()))
    {
      ForgetSession();
      FanOut(InfoEvent(EMPTY_INFO));
      FanOut(ProgressEvent(CLOSED_PROGRESS));
    }

    method ApplySessionList(list: seq<SessionInfo>, objects: seq<Handle>, w: World)
      modifies this
      ensures View() == ApplyList(old(View()), list, objects, w)
    {
      var selectedIndex := -1;
      if selectedAppID != "" {
        selectedIndex := FindSession(list, selectedAppID);
      }
      if selectedIndex == -1 && |list| > 0 {
        selectedIndex := 0;
      }
      sessions := list;
      sessionObjects := objects;
      FanOut(SessionsChangedEvent(list));
      ghost var s1 := View();
      assert s1 == Emit(old(View()).(sessions := list, objects := objects), SessionsChangedEvent(list));
      if |list| == 0 {
        ClearForNoSession();
        return;
      }
      SwitchToSession(selectedIndex, w);
    }

    method EnumerateSessions(w: World)
      modifies this
      ensures View() == MediaLoop.EnumerateSessions(old(View()), w)
    {
      var appIDs: seq<string>, objects: seq<Handle> := [], [];
      for i := 0 to |w.list|
        invariant appIDs == AppIDs(Usable(w.list[..i])) && objects == Handles(Usable(w.list[..i]))
        invariant View() == old(View())
      {
        assert w.list[..i + 1][..i] == w.list[..i];
        match w.list[i]
        case Unreadable =>
        case Dead =>
        case Nameless(h) => appIDs, objects := appIDs + [""], objects + [h];
        case Named(id, h) => appIDs, objects := appIDs + [id], objects + [h];
      }
      assert w.list[..|w.list|] == w.list;
      var list := Names.Disambiguate(appIDs, w.friendly);
      ApplySessionList(list, objects, w);
    }

    /** The enumeration that precedes the loop. */
    method InitSessionManager(w: World)
      requires !started
      modifies this
      ensures View() == Next(old(View()), Start(w))
    {
      started := true;
      assert View() == old(View()).(started := true);
      EnumerateSessions(w);
    }

    method SelectDevice(appID: string, w: World)
      modifies this
      ensures View() == MediaLoop.SelectDevice(old(View()), appID, w)
    {
      selectedAppID := appID;
      var index := FindSession(sessions, appID);
      if index >= 0 {
        SwitchToSession(index, w);
      }
    }

    method StoreProgress(p: ProgressData)
      modifies this`currentPosition, this`currentDuration, this`currentStatus, this`cleared
      ensures View() == old(View()).(position := p.position, duration := p.duration, status := p.status,
          cleared := false)
    {
      currentPosition, currentDuration, currentStatus := p.position, p.duration, p.status;
      cleared := false;
    }

    method ReadTimelineAndProgress(w: World)
      modifies this
      ensures View() == ReadTimeline(old(View()), w)
    {
      if currentSession.None? || w.timeline.None? {
        return;
      }
      var t := w.timeline.value;
      var p := ConvertTimeline(t);
      if p.position == currentPosition && p.duration == currentDuration && p.status == currentStatus {
        return;
      }
      StoreProgress(p);
      FanOut(ProgressEvent(p));
    }

    /** Ticks to seconds and milliseconds; without a timestamp nothing is known. */
    static method ConvertTimeline(t: Timeline) returns (p: ProgressData)
      ensures p == ProgressOf(t)
    {
      var lastUpdatedMs, position, duration := 0, 0, 0;
      if t.updated != 0 {
        lastUpdatedMs := TruncDiv(WrapInt64(t.updated - WINDOWS_TO_UNIX_TICKS), TICKS_PER_MILLISECOND);
      }
      if t.updated != 0 {
        position := TruncDiv(t.position, TICKS_PER_SECOND);
        duration := TruncDiv(t.end, TICKS_PER_SECOND);
      }
      var rate := 1.0;
      if t.rate.Some? {
        rate := t.rate.value;
      }
      var repeat := 0;
      if t.repeat.Some? {
        repeat := t.repeat.value;
      }
      p := ProgressData(position, duration, t.status, rate, t.shuffle, repeat, lastUpdatedMs);
    }

    /** One iteration of the event loop that takes a command. */
    method RunCommand(w: World)
      requires started && cmdChan != []
      modifies this
      ensures View() == Next(old(View()), Runs(w))
    {
      var cmd := cmdChan[0];
      cmdChan := cmdChan[1..];
      match cmd
      case Retry(song, props) => RetryThumbnailAndFireInfo(song.artist, song.title, props, w);
      case MediaChanged => HandleMediaPropertiesChanged(w);
      case PlaybackChanged => ReadTimelineAndProgress(w);
      case Enumerate => EnumerateSessions(w);
      case Select(appID) => SelectDevice(appID, w);
      case Control =>
    }

    /** The closure of an expired retry timer. */
    method SendRetryCommand(id: nat)
      requires id in timers && timers[id].fired
      modifies this`timers, this`cmdChan, this`droppedEvents, this`lost
      ensures View() == Next(old(View()), Sends(id))
    {
      var t := timers[id];
      timers := timers - {id};
      assert View() == old(View()).(timers := old(timers) - {id});
      TrySend(t.song, t.props);
    }

    method TrySend(song: Song, props: Props)
      modifies this`cmdChan, this`droppedEvents, this`lost
      ensures View() == TryRetry(old(View()), song, props)
    {
      if |cmdChan| < COMMAND_CAPACITY {
        cmdChan := cmdChan + [Retry(song, props)];
      } else {
        droppedEvents := droppedEvents + 1;
        if song == Song(currentArtist, currentTitle) {
          lost := lost + 1;
        }
      }
    }
  }
}
