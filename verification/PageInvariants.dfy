/** What the browser client keeps on every run. */
module PageInvariants {
  import opened Domain
  import opened Wire
  import opened Page

  /** Timer, pending record and fade-out class come and go together; what is pending or shown
      is the last info message. */
  ghost predicate TracksLast(s: State) {
    && (s.transitionTimer.Some? <==> s.pending.Some?)
    && (s.transitioning <==> s.pending.Some?)
    && s.theme.shownArt == s.currentAlbumArt
    && (s.pending.Some? ==> s.log.last == s.pending)
    && (s.pending.None? && s.log.last.Some? ==>
          s.theme.shown == Some(s.log.last.value.song) && s.theme.shownArt == s.log.last.value.art)
    && s.currentTitle == (if s.log.last.Some? then Some(s.log.last.value.song.title) else None)
    && s.currentArtist == (if s.log.last.Some? then Some(s.log.last.value.song.artist) else None)
  }

  /** The runtime's timeouts are exactly those the two fields know. */
  ghost predicate TimersKnown(s: State) {
    && (forall id | id in s.browser.timeouts ::
          && id < s.browser.nextId
          && (if s.browser.timeouts[id].what == EndTransition then s.transitionTimer else s.idleTimer) == Some(id))
    && (s.transitionTimer.Some? ==>
          s.transitionTimer.value in s.browser.timeouts
              && s.browser.timeouts[s.transitionTimer.value].what == EndTransition)
    && (s.idleTimer.Some? ==>
        s.idleTimer.value in s.browser.timeouts && s.browser.timeouts[s.idleTimer.value].what == GoIdle)
  }

  ghost predicate IdleDue(s: State)
    requires s.idleTimer.Some?
  {
    && s.idleTimer.value in s.browser.timeouts
    && s.browser.timeouts[s.idleTimer.value].due == s.log.toldAt + (if s.hideDelay < 0 then 0 else s.hideDelay)
  }

  ghost predicate InterpolatesFrom(s: State, p: ProgressData) {
    s.play.position == p.position && s.play.duration == p.duration && s.play.lastUpdated == p.lastUpdated
        && s.play.rate == p.rate
  }

  /** One status class; stopped until the grace period is over, idle after it. */
  ghost predicate StatusShown(s: State) {
    && (s.log.told.None? ==> s.classes == {} && s.idleTimer.None?)
    && (s.log.told.Some? ==>
          && s.play.status == s.log.told.value.status
          && s.classes == (if s.play.status == STATUS_PLAYING then {Playing}
                           else if s.play.status == STATUS_PAUSED then {Paused}
                           else if s.idleTimer.Some? then {Stopped} else {Idle})
          && (s.idleTimer.Some? ==> s.play.status != STATUS_PLAYING && s.play.status != STATUS_PAUSED && IdleDue(s)))
    && s.log.toldAt <= s.browser.now
    && (Idle in s.classes ==> s.browser.now - s.log.toldAt >= s.hideDelay)
  }

  ghost predicate FramesOwed(s: State) {
    && s.browser.frames == (if s.rafId.Some? then {s.rafId.value} else {})
    && (s.rafId.Some? ==> s.rafId.value < s.browser.nextId)
    && (s.rafId.Some? <==>
        s.log.told.Some? && s.log.told.value.status == STATUS_PLAYING && s.log.told.value.lastUpdated > 0)
    && (s.log.told.Some? ==> InterpolatesFrom(s, s.log.told.value))
    && (s.log.drawn.Some? ==>
          && s.play.rate > 0.0 && s.log.drawn.value <= Interpolated(s.play, s.browser.now)
          && s.theme.bar == (s.log.drawn.value, s.play.duration))
  }

  ghost predicate Inv(s: State) {
    TracksLast(s) && TimersKnown(s) && StatusShown(s) && FramesOwed(s)
  }

  /** The playback half of the state stays as it is; a pending idle timeout survives. */
  ghost predicate SamePlayback(s: State, t: State) {
    && t.play == s.play && t.rafId == s.rafId && t.idleTimer == s.idleTimer && t.classes == s.classes
    && t.hideDelay == s.hideDelay && t.theme.bar == s.theme.bar && t.log.(last := s.log.last) == s.log
    && t.browser.now == s.browser.now && t.browser.frames == s.browser.frames && s.browser.nextId <= t.browser.nextId
    && (s.idleTimer.Some? && s.idleTimer.value in s.browser.timeouts ==>
          s.idleTimer.value in t.browser.timeouts && t.browser.timeouts[s.idleTimer.value] ==
              s.browser.timeouts[s.idleTimer.value])
  }

  lemma SamePlaybackKeeps(s: State, t: State)
    requires SamePlayback(s, t) && StatusShown(s) && FramesOwed(s)
    ensures StatusShown(t) && FramesOwed(t)
  {
  }

  lemma TransitionTimers(s: State, t: Track)
    requires TimersKnown(s)
    ensures TimersKnown(StartTransition(s, t)) && SamePlayback(s, StartTransition(s, t))
  {
    if s.transitionTimer.Some? && s.idleTimer.Some? {
      assert s.transitionTimer.value != s.idleTimer.value;
    }
  }

  lemma InfoTimers(s: State, p: InfoPayload)
    requires TimersKnown(s)
    ensures TimersKnown(HandleInfo(s, p)) && SamePlayback(s, HandleInfo(s, p))
  {
    TransitionTimers(s, TrackOf(p));
  }

  lemma InfoKeeps(s: State, p: InfoPayload)
    requires Inv(s)
    ensures Inv(HandleInfo(s, p))
  {
    InfoTimers(s, p);
    SamePlaybackKeeps(s, HandleInfo(s, p));
  }

  lemma SetStatusKeeps(s: State, status: int)
    requires TimersKnown(s)
    ensures var t := SetStatus(s, status);
            && TimersKnown(t) && s.browser.nextId <= t.browser.nextId
            && t.browser.frames == s.browser.frames && t.browser.now == s.browser.now
            && (t.idleTimer.Some? <==> status != STATUS_PLAYING && status != STATUS_PAUSED)
            && (t.idleTimer.Some? ==>
                  t.browser.timeouts[t.idleTimer.value].due ==
                  s.browser.now + if s.hideDelay < 0 then 0 else s.hideDelay)
  {
    if s.transitionTimer.Some? && s.idleTimer.Some? {
      assert s.transitionTimer.value != s.idleTimer.value;
    }
  }

  /** After the status was set, before the animation is started or stopped. */
  ghost predicate Told(s: State, p: ProgressData) {
    && s.log.told == Some(p) && s.log.drawn.None? && s.play.status == p.status && InterpolatesFrom(s, p)
    && s.browser.frames == (if s.rafId.Some? then {s.rafId.value} else {})
  }

  lemma StatusTold(s: State, p: ProgressData)
    requires Inv(s)
    ensures var t := SetStatus(Record(s, p), p.status); TracksLast(t) && TimersKnown(t) && StatusShown(t) && Told(t, p)
  {
    assert TimersKnown(Record(s, p));
    SetStatusKeeps(Record(s, p), p.status);
  }

  lemma StartKeeps(s: State, p: ProgressData)
    requires TracksLast(s) && TimersKnown(s) && StatusShown(s) && Told(s, p)
    requires p.status == STATUS_PLAYING && p.lastUpdated > 0
    ensures Inv(StartFrames(s))
  {
    assert StartFrames(s).browser.frames == {s.browser.nextId};
  }

  lemma StopKeeps(s: State, p: ProgressData, bar: (real, int))
    requires TracksLast(s) && TimersKnown(s) && StatusShown(s) && Told(s, p)
    requires !(p.status == STATUS_PLAYING && p.lastUpdated > 0)
    ensures Inv(StopFrames(s).(theme := s.theme.(bar := bar)))
  {
    assert StopFrames(s).browser.frames == {};
  }

  lemma ProgressKeeps(s: State, p: ProgressData)
    requires Inv(s)
    ensures Inv(HandleProgress(s, p))
  {
    var s1 := SetStatus(Record(s, p), p.status);
    StatusTold(s, p);
    if p.status == STATUS_PLAYING && p.lastUpdated > 0 {
      StartKeeps(s1, p);
    } else {
      StopKeeps(s1, p, (p.position as real, p.duration));
    }
  }

  lemma ExpireKeeps(s: State, id: nat)
    requires Inv(s)
    ensures Inv(Next(s, Expire(id)))
  {
    var t := Next(s, Expire(id));
    if id in s.browser.timeouts && s.browser.timeouts[id].what == EndTransition {
      assert SamePlayback(s, t);
      SamePlaybackKeeps(s, t);
    }
    assert TimersKnown(t);
  }

  lemma FrameKeeps(s: State, id: nat)
    requires Inv(s)
    ensures Inv(Next(s, Frame(id)))
  {
  }

  lemma ScaleGrows(a: real, b: real, rate: real)
    requires a <= b && rate > 0.0
    ensures a * rate / 1000.0 <= b * rate / 1000.0
  {
    assert (b - a) * rate >= 0.0;
    assert (b - a) * rate == b * rate - a * rate;
  }

  lemma InterpolationGrows(p: Playback, now: int, ms: nat)
    requires p.rate > 0.0
    ensures Interpolated(p, now) <= Interpolated(p, now + ms) <= p.duration as real
  {
    var a, b := Reached(p, now), Reached(p, now + ms);
    ScaleGrows((now - p.lastUpdated) as real, (now + ms - p.lastUpdated) as real, p.rate);
    assert a <= b;
    InterpolatedIs(p, now, a);
    InterpolatedIs(p, now + ms, b);
  }

  /** Where playback is at a time, were the song endless. */
  function Reached(p: Playback, now: int): real {
    p.position as real + (now - p.lastUpdated) as real * p.rate / 1000.0
  }

  lemma InterpolatedIs(p: Playback, now: int, at: real)
    requires at == Reached(p, now)
    ensures Interpolated(p, now) == if at < p.duration as real then at else p.duration as real
  {
  }

  /** At the time of its stamp it is the reported position. */
  lemma InterpolationStart(p: Playback)
    ensures Interpolated(p, p.lastUpdated) == (if p.position < p.duration then p.position else p.duration) as real
  {
    InterpolatedIs(p, p.lastUpdated, p.position as real);
  }

  lemma WaitKeeps(s: State, ms: nat)
    requires Inv(s)
    ensures Inv(Next(s, Wait(ms)))
  {
    if s.play.rate > 0.0 {
      InterpolationGrows(s.play, s.browser.now, ms);
    }
  }

  lemma NextKeeps(s: State, step: Step)
    requires Inv(s)
    ensures Inv(Next(s, step))
  {
    match step
    case Receive(m) =>
      if m.Info? { InfoKeeps(s, m.payload); } else if m.Progress? { ProgressKeeps(s, m.progress); }
    case Expire(id) => ExpireKeeps(s, id);
    case Frame(id) => FrameKeeps(s, id);
    case Wait(ms) => WaitKeeps(s, ms);
  }

  lemma {:induction false} RunKeeps(hideDelay: int, now: int, steps: seq<Step>)
    ensures Inv(Run(Init(hideDelay, now), steps))
  {
    if steps != [] {
      RunKeeps(hideDelay, now, steps[..|steps| - 1]);
      NextKeeps(Run(Init(hideDelay, now), steps[..|steps| - 1]), steps[|steps| - 1]);
    }
  }
}

/** The guarantees of the browser client, for every run. */
module PageTheorems {
  import opened Domain
  import opened Wire
  import opened Page
  import opened PageInvariants

  function Received(steps: seq<Step>): seq<Msg> {
    if steps == [] then []
    else
      var front := Received(steps[..|steps| - 1]);
      match steps[|steps| - 1]
      case Receive(m) => front + [m]
      case _ => front
  }

  lemma {:induction false} LastIsLastReceived(hideDelay: int, now: int, steps: seq<Step>)
    ensures var s := Run(Init(hideDelay, now), steps); var m := LastInfoMsg(Received(steps));
            s.log.last == if m.Some? then Some(TrackOf(m.value.payload)) else None
  {
    if steps != [] {
      var front := steps[..|steps| - 1];
      LastIsLastReceived(hideDelay, now, front);
      LogStep(Run(Init(hideDelay, now), front), steps[|steps| - 1]);
      match steps[|steps| - 1] {
        case Receive(m) => LastInfoMsgAppend(Received(front), m);
        case _ =>
      }
    }
  }

  lemma LogStep(s: State, step: Step)
    ensures Next(s, step).log.last ==
              if step.Receive? && step.m.Info? then Some(TrackOf(step.m.payload)) else s.log.last
    ensures Next(s, step).hideDelay == s.hideDelay
  {
  }

  /** On every run: the fade timer, the pending record and the fade class exist together; while
      they do, the pending record is the last info message received, otherwise that
      message is what the theme shows, and its art is never stale. */
  lemma ClientFollowsLastInfo(hideDelay: int, now: int, steps: seq<Step>)
    ensures var s := Run(Init(hideDelay, now), steps); var m := LastInfoMsg(Received(steps));
            && s.transitionTimer.Some? == s.pending.Some? == s.transitioning
            && s.theme.shownArt == s.currentAlbumArt
            && (s.pending.Some? ==> m.Some? && s.pending.value == TrackOf(m.value.payload))
            && (s.pending.None? && m.Some? ==>
                s.theme.shown == Some(m.value.payload.song) && s.theme.shownArt == m.value.payload.albumArt)
  {
    RunKeeps(hideDelay, now, steps);
    LastIsLastReceived(hideDelay, now, steps);
  }

  /** On every run after a progress message: one status class, `stopped` exactly while the idle
      timeout is pending, `idle` only after the grace period. */
  lemma ClientStatusIsExact(hideDelay: int, now: int, steps: seq<Step>)
    ensures var s := Run(Init(hideDelay, now), steps);
            && (s.log.told.Some? ==> exists c :: s.classes == {c})
            && (Stopped in s.classes <==> s.idleTimer.Some?)
            && (Idle in s.classes ==> s.browser.now - s.log.toldAt >= hideDelay)
            && (s.log.told.Some? ==> (Playing in s.classes <==> s.log.told.value.status == STATUS_PLAYING))
            && (s.log.told.Some? ==> (Paused in s.classes <==> s.log.told.value.status == STATUS_PAUSED))
  {
    RunKeeps(hideDelay, now, steps);
    HideDelayKeeps(hideDelay, now, steps);
    var s := Run(Init(hideDelay, now), steps);
    if s.log.told.Some? {
      assert s.classes == {Playing} || s.classes == {Paused} || s.classes == {Stopped} || s.classes == {Idle};
    }
  }

  lemma {:induction false} HideDelayKeeps(hideDelay: int, now: int, steps: seq<Step>)
    ensures Run(Init(hideDelay, now), steps).hideDelay == hideDelay
  {
    if steps != [] {
      HideDelayKeeps(hideDelay, now, steps[..|steps| - 1]);
      LogStep(Run(Init(hideDelay, now), steps[..|steps| - 1]), steps[|steps| - 1]);
    }
  }

  /** On every run at most one animation callback is outstanding, and one is exactly when the
      last progress message was playing with a valid timestamp. */
  lemma ClientOwesOneFrame(hideDelay: int, now: int, steps: seq<Step>)
    ensures var s := Run(Init(hideDelay, now), steps);
            && |s.browser.frames| <= 1
            && (s.browser.frames != {} <==>
                s.log.told.Some? && s.log.told.value.status == STATUS_PLAYING && s.log.told.value.lastUpdated > 0)
  {
    RunKeeps(hideDelay, now, steps);
  }

  /** Between two progress messages the drawn position never moves back, and it never passes the
      duration. `drawn` is the last position drawn since the last progress message. */
  lemma ProgressBarNeverRewinds(hideDelay: int, now: int, steps: seq<Step>, id: nat)
    ensures var s := Run(Init(hideDelay, now), steps); var t := Next(s, Frame(id));
            && (s.log.drawn.Some? ==> t.log.drawn.Some? && s.log.drawn.value <= t.log.drawn.value)
            && (t.log.drawn.Some? ==>
                t.log.drawn.value <= t.play.duration as real && t.theme.bar == (t.log.drawn.value, t.play.duration))
  {
    RunKeeps(hideDelay, now, steps);
    FrameAdvances(Run(Init(hideDelay, now), steps), id);
  }

  lemma FrameAdvances(s: State, id: nat)
    requires Inv(s)
    ensures var t := Next(s, Frame(id));
            && (s.log.drawn.Some? ==> t.log.drawn.Some? && s.log.drawn.value <= t.log.drawn.value)
            && (t.log.drawn.Some? ==>
                t.log.drawn.value <= t.play.duration as real && t.theme.bar == (t.log.drawn.value, t.play.duration))
  {
  }

  /** The last progress message of a sequence. */
  function LastProgressOf(msgs: seq<Msg>): Option<ProgressData> {
    if msgs == [] then None
    else
      var m := msgs[|msgs| - 1];
      if m.Progress? then Some(m.progress) else LastProgressOf(msgs[..|msgs| - 1])
  }

  lemma ToldStep(s: State, step: Step)
    ensures Next(s, step).log.told == if step.Receive? && step.m.Progress? then Some(step.m.progress) else s.log.told
  {
  }

  lemma {:induction false} ToldIsLastReceived(hideDelay: int, now: int, steps: seq<Step>)
    ensures Run(Init(hideDelay, now), steps).log.told == LastProgressOf(Received(steps))
  {
    if steps != [] {
      var front, last := steps[..|steps| - 1], steps[|steps| - 1];
      ToldIsLastReceived(hideDelay, now, front);
      ToldStep(Run(Init(hideDelay, now), front), last);
      if last.Receive? {
        assert (Received(front) + [last.m])[..|Received(front)|] == Received(front);
      }
    }
  }

  /** Where playback is at a time: the reported position and what has been played since its stamp, in
      seconds, but not beyond the duration. */
  function PlayedTo(p: ProgressData, now: int): real {
    var at := p.position as real + (now - p.lastUpdated) as real * p.rate / 1000.0;
    if at > p.duration as real then p.duration as real else at
  }

  /** Every animation frame, on every run: it belongs to a playing progress message, the last one received;
      with a positive rate it shows exactly where that playback is now, else it changes nothing; and it
      asks for the next frame. */
  lemma FrameShowsPlayback(hideDelay: int, now: int, steps: seq<Step>, id: nat)
    requires id in Run(Init(hideDelay, now), steps).browser.frames
    ensures var s := Run(Init(hideDelay, now), steps); var t := Next(s, Frame(id));
            var told := LastProgressOf(Received(steps));
            && told.Some? && told.value.status == 4 && told.value.lastUpdated > 0
            && t.theme.bar == (if told.value.rate > 0.0
                then (PlayedTo(told.value, s.browser.now), told.value.duration) else s.theme.bar)
            && t.browser.frames == {s.browser.nextId}
  {
    RunKeeps(hideDelay, now, steps);
    ToldIsLastReceived(hideDelay, now, steps);
    FrameDraws(Run(Init(hideDelay, now), steps), id);
  }

  lemma InterpolatesPlayback(play: Playback, p: ProgressData, now: int)
    requires play.position == p.position && play.duration == p.duration && play.lastUpdated == p.lastUpdated
        && play.rate == p.rate
    ensures Interpolated(play, now) == PlayedTo(p, now)
  {
    var position, lastUpdated, rate := p.position, p.lastUpdated, p.rate;
    var at := position as real + (now - lastUpdated) as real * rate / 1000.0;
    assert Interpolated(play, now) == if at < p.duration as real then at else p.duration as real;
  }

  lemma FrameDraws(s: State, id: nat)
    requires Inv(s) && id in s.browser.frames
    ensures var t := Next(s, Frame(id));
            && s.log.told.Some? && s.log.told.value.status == 4 && s.log.told.value.lastUpdated > 0
            && t.theme.bar == (if s.log.told.value.rate > 0.0
                then (PlayedTo(s.log.told.value, s.browser.now), s.play.duration) else s.theme.bar)
            && s.play.duration == s.log.told.value.duration
            && t.browser.frames == {s.browser.nextId}
  {
    assert s.browser.frames - {id} == {};
    InterpolatesPlayback(s.play, s.log.told.value, s.browser.now);
  }

  /** What a progress message does at once: a playing one with a stamp leaves the bar to the animation, any
      other one shows its position; and `idle` is then due after the grace period, unless it is
      playing or paused. */
  lemma ProgressShows(hideDelay: int, now: int, steps: seq<Step>, ts: int, p: ProgressData)
    ensures var s := Run(Init(hideDelay, now), steps); var t := Next(s, Receive(Progress(ts, p)));
            && (if p.status == 4 && p.lastUpdated > 0 then t.theme == s.theme && t.browser.frames != {}
                else t.theme == s.theme.(bar := (p.position as real, p.duration)) && t.browser.frames == {})
            && (if p.status == 4 || p.status == 5 then t.idleTimer.None?
                else t.idleTimer.Some? && t.idleTimer.value in t.browser.timeouts &&
                     t.browser.timeouts[t.idleTimer.value].due == s.browser.now + if hideDelay > 0 then hideDelay
                         else 0)
  {
    var s := Run(Init(hideDelay, now), steps);
    RunKeeps(hideDelay, now, steps);
    HideDelayKeeps(hideDelay, now, steps);
    SetStatusKeeps(Record(s, p), p.status);
  }

  /** What an info message does at once: another song than the last received fades out, and is shown after 300
      milliseconds; the same song during a fade replaces what will be shown, without delaying it; the
      first song, and the same one later, are shown at once. */
  lemma SongChangeFades(hideDelay: int, now: int, steps: seq<Step>, ts: int, m: InfoPayload)
    ensures var s := Run(Init(hideDelay, now), steps); var t := Next(s, Receive(Info(ts, m)));
            if s.log.last.Some? && s.log.last.value.song != m.song then
              && t.theme == s.theme && t.transitioning && t.pending == Some(Track(m.song, m.albumArt))
              && t.transitionTimer.Some? && t.transitionTimer.value in t.browser.timeouts
              && t.browser.timeouts[t.transitionTimer.value].due == s.browser.now + 300
            else if s.transitionTimer.Some? then
              && t.theme == s.theme && t.pending == Some(Track(m.song, m.albumArt))
              && t.transitionTimer == s.transitionTimer && t.browser == s.browser
            else t.theme.shown == Some(m.song) && t.theme.shownArt == m.albumArt && t.browser == s.browser
  {
    RunKeeps(hideDelay, now, steps);
  }
}
