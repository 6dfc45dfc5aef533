/** The client as the closure it is: variables updated in place by event handlers.
    Every handler is proved to do what the machine of `Page` does. */
module PageObject {
  import opened Domain
  import opened Wire
  import opened Page

  class Client {
    const hideDelay: int
    var currentTitle: Option<string>
    var currentArtist: Option<string>
    var currentAlbumArt: string
    var transitionTimer: Option<nat>
    var pendingTrackInfo: Option<Track>
    var transitioning: bool
    var playbackState: Playback
    var rafId: Option<nat>
    var idleTimer: Option<nat>
    var statusClasses: set<StatusClass>
    var theme: Theme
    var browser: Browser
    ghost var log: History

    ghost function View(): State
      reads this
    {
      State(hideDelay, currentTitle, currentArtist, currentAlbumArt, transitionTimer, pendingTrackInfo, transitioning,
        playbackState, rafId, idleTimer, statusClasses, theme, browser, log)
    }

    constructor (hideDelay: int, now: int)
      ensures View() == Init(hideDelay, now)
    {
      this.hideDelay := hideDelay;
      currentTitle, currentArtist, currentAlbumArt := None, None, "";
      transitionTimer, pendingTrackInfo, transitioning := None, None, false;
      playbackState := Playback(0, 0, 0, 0.0, 0);
      rafId, idleTimer, statusClasses := None, None, {};
      theme := Theme(None, "", (0.0, 0));
      browser := Browser(now, map[], {}, 0);
      log := History(None, None, now, None);
    }

    method BeginTransition(track: Track)
      modifies this`transitioning, this`pendingTrackInfo, this`browser, this`transitionTimer
      ensures View() == StartTransition(old(View()), track)
    {
      transitioning := true;
      pendingTrackInfo := Some(track);
      if transitionTimer.Some? {
        browser := ClearTimeout(browser, transitionTimer);
      }
      transitionTimer := Some(browser.nextId);
      browser := SetTimeout(browser, EndTransition, TRANSITION);
    }

    method OnInfo(p: InfoPayload)
      modifies this
      ensures View() == HandleInfo(old(View()), p)
    {
      var title, artist, albumArt := p.song.title, p.song.artist, p.albumArt;
      var isFirstTrack := currentTitle.None? && currentArtist.None?;
      var isSameTrack := currentTitle == Some(title) && currentArtist == Some(artist);
      if isFirstTrack || isSameTrack {
        if transitionTimer.Some? {
          pendingTrackInfo := Some(Track(Song(artist, title), albumArt));
        } else {
          theme := theme.(shown := Some(Song(artist, title)));
          if albumArt != currentAlbumArt {
            currentAlbumArt := albumArt;
            theme := theme.(shownArt := albumArt);
          }
        }
      } else {
        BeginTransition(Track(Song(artist, title), albumArt));
      }
      currentTitle := Some(title);
      currentArtist := Some(artist);
      log := log.(last := Some(TrackOf(p)));
    }

    method OnTransitionEnd()
      modifies this
      ensures View() == RunEndTransition(old(View()))
    {
      transitionTimer := None;
      if pendingTrackInfo.Some? {
        theme := theme.(shown := Some(pendingTrackInfo.value.song));
        theme := theme.(shownArt := pendingTrackInfo.value.art);
        currentAlbumArt := pendingTrackInfo.value.art;
        pendingTrackInfo := None;
      }
      transitioning := false;
    }

    method CancelIdle()
      modifies this`browser, this`idleTimer
      ensures browser == ClearTimeout(old(browser), old(idleTimer)) && idleTimer == None
    {
      if idleTimer.Some? {
        browser := ClearTimeout(browser, idleTimer);
        idleTimer := None;
      }
    }

    method ApplyStatus(status: int)
      modifies this`playbackState, this`browser, this`idleTimer, this`statusClasses
      ensures View() == SetStatus(old(View()), status)
    {
      playbackState := playbackState.(status := status);
      CancelIdle();
      if status == STATUS_PLAYING {
        statusClasses := {Playing};
      } else if status == STATUS_PAUSED {
        statusClasses := {Paused};
      } else {
        statusClasses := {Stopped};
        idleTimer := Some(browser.nextId);
        browser := SetTimeout(browser, GoIdle, hideDelay);
      }
    }

    method StartAnimationLoop()
      modifies this`rafId, this`browser
      ensures View() == StartFrames(old(View()))
    {
      if rafId.Some? {
        browser := CancelFrame(browser, rafId);
      }
      rafId := Some(browser.nextId);
      browser := AddFrame(browser);
    }

    method StopAnimationLoop()
      modifies this`rafId, this`browser
      ensures View() == StopFrames(old(View()))
    {
      if rafId.Some? {
        browser := CancelFrame(browser, rafId);
        rafId := None;
      }
    }

    method OnProgress(p: ProgressData)
      modifies this
      ensures View() == HandleProgress(old(View()), p)
    {
      playbackState := Playback(p.position, p.duration, p.lastUpdated, p.rate, playbackState.status);
      log := log.(told := Some(p), toldAt := browser.now, drawn := None);
      ApplyStatus(p.status);
      if p.status == STATUS_PLAYING && p.lastUpdated > 0 {
        StartAnimationLoop();
      } else {
        StopAnimationLoop();
        theme := theme.(bar := (p.position as real, p.duration));
      }
    }

    method OnIdle()
      modifies this`statusClasses, this`idleTimer
      ensures View() == RunGoIdle(old(View()))
    {
      statusClasses := {Idle};
      idleTimer := None;
    }

    /** A due timeout runs its callback. */
    method OnTimeout(id: nat)
      requires id in browser.timeouts && browser.timeouts[id].due <= browser.now
      modifies this
      ensures View() == Next(old(View()), Expire(id))
    {
      var what := browser.timeouts[id].what;
      browser := browser.(timeouts := browser.timeouts - {id});
      match what
      case EndTransition => OnTransitionEnd();
      case GoIdle => OnIdle();
    }

    method OnAnimationFrame(id: nat)
      requires id in browser.frames
      modifies this
      ensures View() == Next(old(View()), Frame(id))
    {
      browser := browser.(frames := browser.frames - {id});
      if playbackState.rate > 0.0 && playbackState.status == STATUS_PLAYING {
        var current := Interpolate();
        theme := theme.(bar := (current, playbackState.duration));
        log := log.(drawn := Some(current));
      }
      rafId := Some(browser.nextId);
      browser := AddFrame(browser);
    }

    method Interpolate() returns (current: real)
      ensures current == Interpolated(playbackState, browser.now)
    {
      var elapsed := (browser.now - playbackState.lastUpdated) as real * playbackState.rate / 1000.0;
      current := playbackState.position as real + elapsed;
      if current > playbackState.duration as real {
        current := playbackState.duration as real;
      }
    }
  }
}
