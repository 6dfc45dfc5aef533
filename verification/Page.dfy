/** The browser client: one thread that runs message handlers, timeouts and animation frames. */
module Page {
  import opened Domain
  import opened Wire

  const TRANSITION := 300

  datatype Track = Track(song: Song, art: string)

  datatype StatusClass = Playing | Paused | Stopped | Idle

  datatype Callback = EndTransition | GoIdle

  datatype Timeout = Timeout(what: Callback, due: int)

  datatype Playback = Playback(position: int, duration: int, lastUpdated: int, rate: real, status: int)

  /** What the theme was last told to show. */
  datatype Theme = Theme(shown: Option<Song>, shownArt: string, bar: (real, int))

  /** The clock, the timeouts the browser will run and the animation frames it owes. */
  datatype Browser = Browser(now: int, timeouts: map<nat, Timeout>, frames: set<nat>, nextId: nat)

  /** History: the last info and progress messages, when the latter came, and the last
      interpolated position drawn since then. */
  datatype History = History(last: Option<Track>, told: Option<ProgressData>, toldAt: int, drawn: Option<real>)

  datatype State = State(
    hideDelay: int,
    currentTitle: Option<string>, currentArtist: Option<string>, currentAlbumArt: string,
    transitionTimer: Option<nat>, pending: Option<Track>, transitioning: bool,
    play: Playback, rafId: Option<nat>, idleTimer: Option<nat>, classes: set<StatusClass>,
    theme: Theme, browser: Browser, log: History)

  function Init(hideDelay: int, now: int): State {
    State(hideDelay, None, None, "", None, None, false, Playback(0, 0, 0, 0.0, 0), None, None, {},
      Theme(None, "", (0.0, 0)), Browser(now, map[], {}, 0), History(None, None, now, None))
  }

  // The browser

  /** setTimeout: a negative delay counts as zero. */
  function SetTimeout(b: Browser, what: Callback, delay: int): Browser {
    b.(timeouts := b.timeouts[b.nextId := Timeout(what, b.now + if delay < 0 then 0 else delay)],
        nextId := b.nextId + 1)
  }

  function ClearTimeout(b: Browser, id: Option<nat>): Browser {
    if id.Some? then b.(timeouts := b.timeouts - {id.value}) else b
  }

  /** requestAnimationFrame */
  function AddFrame(b: Browser): Browser {
    b.(frames := b.frames + {b.nextId}, nextId := b.nextId + 1)
  }

  function CancelFrame(b: Browser, id: Option<nat>): Browser {
    if id.Some? then b.(frames := b.frames - {id.value}) else b
  }

  // Track information

  function TrackOf(p: InfoPayload): Track {
    Track(p.song, p.albumArt)
  }

  /** The first track and follow-ups for the same track. */
  function UpdateTrack(s: State, t: Track): State {
    if s.transitionTimer.Some? then s.(pending := Some(t))
    else if t.art != s.currentAlbumArt then
      s.(currentAlbumArt := t.art, theme := s.theme.(shown := Some(t.song), shownArt := t.art))
    else s.(theme := s.theme.(shown := Some(t.song)))
  }

  /** A new song: fade out now, and show it when the fade has ended. */
  function StartTransition(s: State, t: Track): State {
    s.(transitioning := true, pending := Some(t),
       browser := SetTimeout(ClearTimeout(s.browser, s.transitionTimer), EndTransition, TRANSITION),
       transitionTimer := Some(s.browser.nextId))
  }

  function HandleInfo(s: State, p: InfoPayload): State {
    var t := TrackOf(p);
    var first := s.currentTitle.None? && s.currentArtist.None?;
    var same := s.currentTitle == Some(t.song.title) && s.currentArtist == Some(t.song.artist);
    var s1 := if first || same then UpdateTrack(s, t) else StartTransition(s, t);
    s1.(currentTitle := Some(t.song.title), currentArtist := Some(t.song.artist), log := s.log.(last := Some(t)))
  }

  function RunEndTransition(s: State): State {
    var s1 := s.(transitionTimer := None, transitioning := false);
    if s.pending.None? then s1
    else
      var t := s.pending.value;
      s1.(pending := None, currentAlbumArt := t.art, theme := s.theme.(shown := Some(t.song), shownArt := t.art))
  }

  // Playback progress

  /** Playing and paused cancel the idle timer, every other status restarts it. */
  function SetStatus(s: State, status: int): State {
    var b := ClearTimeout(s.browser, s.idleTimer);
    var s1 := s.(play := s.play.(status := status), idleTimer := None, browser := b);
    if status == STATUS_PLAYING then s1.(classes := {Playing})
    else if status == STATUS_PAUSED then s1.(classes := {Paused})
    else s1.(classes := {Stopped}, browser := SetTimeout(b, GoIdle, s.hideDelay), idleTimer := Some(b.nextId))
  }

  function StartFrames(s: State): State {
    s.(rafId := Some(s.browser.nextId), browser := AddFrame(CancelFrame(s.browser, s.rafId)))
  }

  function StopFrames(s: State): State {
    s.(rafId := None, browser := CancelFrame(s.browser, s.rafId))
  }

  /** The state right after the interpolation values of a progress message were stored. */
  function Record(s: State, p: ProgressData): State {
    s.(play := Playback(p.position, p.duration, p.lastUpdated, p.rate, s.play.status),
       log := s.log.(told := Some(p), toldAt := s.browser.now, drawn := None))
  }

  function HandleProgress(s: State, p: ProgressData): State {
    var s1 := SetStatus(Record(s, p), p.status);
    if p.status == STATUS_PLAYING && p.lastUpdated > 0 then StartFrames(s1)
    else StopFrames(s1).(theme := s1.theme.(bar := (p.position as real, p.duration)))
  }

  function RunGoIdle(s: State): State {
    s.(classes := {Idle}, idleTimer := None)
  }

  function Interpolated(p: Playback, now: int): real {
    var at := p.position as real + (now - p.lastUpdated) as real * p.rate / 1000.0;
    if at < p.duration as real then at else p.duration as real
  }

  /** The animation callback draws the interpolated position and asks for the next frame. */
  function RunFrame(s: State): State {
    var s1 := s.(rafId := Some(s.browser.nextId), browser := AddFrame(s.browser));
    if s.play.rate > 0.0 && s.play.status == STATUS_PLAYING then
      var at := Interpolated(s.play, s.browser.now);
      s1.(theme := s.theme.(bar := (at, s.play.duration)), log := s.log.(drawn := Some(at)))
    else s1
  }

  // Steps

  datatype Step = Receive(m: Msg) | Expire(id: nat) | Frame(id: nat) | Wait(ms: nat)

  function Next(s: State, step: Step): State {
    var b := s.browser;
    match step
    case Receive(m) =>
      if m.Info? then HandleInfo(s, m.payload) else if m.Progress? then HandleProgress(s, m.progress) else s
    case Expire(id) =>
      if id in b.timeouts && b.timeouts[id].due <= b.now then
        var s1 := s.(browser := b.(timeouts := b.timeouts - {id}));
        if b.timeouts[id].what == EndTransition then RunEndTransition(s1) else RunGoIdle(s1)
      else s
    case Frame(id) => if id in b.frames then RunFrame(s.(browser := b.(frames := b.frames - {id}))) else s
    case Wait(ms) => s.(browser := b.(now := b.now + ms))
  }

  function Run(s: State, steps: seq<Step>): State {
    if steps == [] then s else Next(Run(s, steps[..|steps| - 1]), steps[|steps| - 1])
  }
}
