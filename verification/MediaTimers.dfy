/** The retry timers the runtime holds, and the one the loop knows. */
module MediaTimers {
  import opened Domain
  import opened MediaLoop
  import opened MediaInvariants
  import opened MediaTheorems

  /** No timer still runs but the one the loop knows, and would stop. */
  ghost predicate OnlyKnown(timers: map<nat, Timer>, known: Option<nat>) {
    forall id | id in timers && !timers[id].fired :: known == Some(id)
  }

  /** The step runs a retry while the timer that the loop knows still runs. */
  ghost predicate Forgets(s: State, step: Step) {
    && step.Runs? && s.started && s.queue != [] && s.queue[0].Retry?
    && s.retryTimer.Some? && s.retryTimer.value in s.timers && !s.timers[s.retryTimer.value].fired
  }

  lemma ScheduleKeepsOne(s: State, song: Song, props: Props)
    requires OnlyKnown(s.timers, s.retryTimer)
    ensures var t := Schedule(s, song, props); OnlyKnown(t.timers, t.retryTimer)
  {
  }

  lemma ReportKeepsOne(s: State, song: Song, changed: bool, length: nat, art: Art, p: Props)
    requires OnlyKnown(s.timers, s.retryTimer)
    ensures var t := ReportMedia(s, song, changed, length, art, p); OnlyKnown(t.timers, t.retryTimer)
  {
    ScheduleKeepsOne(SetSong(s, song).(retryCount := 0, fails := 0), song, p);
  }

  lemma MediaKeepsOne(m: State, w: World)
    requires OnlyKnown(m.timers, m.retryTimer)
    ensures var t := HandleMedia(m, w); OnlyKnown(t.timers, t.retryTimer)
  {
    if m.session.Some? && w.media.Some? {
      var p := w.media.value;
      var changed := EscapedSong(p) != m.song;
      AdoptedLeaves(m, p, changed, w.art);
      var s1 := AdoptProps(m, p);
      var (s2, art) := CurrentArt(s1, changed, w.art);
      ReportKeepsOne(s2, EscapedSong(p), changed, OptionalLength(s1.thumb), art, p);
    }
  }

  /** A retry forgets what the loop knew; when that was still running, it now runs unknown. */
  lemma RetryKeepsOne(s: State, song: Song, props: Props, w: World)
    requires OnlyKnown(s.timers, s.retryTimer) && forall id | id in s.timers :: id < s.nextTimer
    ensures var t := RunRetry(s, song, props, w);
            OnlyKnown(t.timers, t.retryTimer) <==>
              s.retryTimer.None? || s.retryTimer.value !in s.timers || s.timers[s.retryTimer.value].fired
  {
    var t := RunRetry(s, song, props, w);
    assert t.timers == s.timers || t.timers == s.timers[s.nextTimer := Timer(song, props, false)];
    if s.retryTimer.Some? && s.retryTimer.value in s.timers && !s.timers[s.retryTimer.value].fired {
      assert s.retryTimer.value in t.timers && !t.timers[s.retryTimer.value].fired;
    }
  }

  lemma OtherKeepsOne(s: State, step: Step)
    requires OnlyKnown(s.timers, s.retryTimer) && !ReadsMedia(s, step) && !EnumeratesNothing(s, step)
    requires step.Runs? && s.started && s.queue != [] ==> !s.queue[0].Retry?
    ensures OnlyKnown(Next(s, step).timers, Next(s, step).retryTimer)
  {
  }

  lemma OneTimerStep(s: State, step: Step)
    requires Inv(s) && OnlyKnown(s.timers, s.retryTimer)
    ensures OnlyKnown(Next(s, step).timers, Next(s, step).retryTimer) <==> !Forgets(s, step)
  {
    if ReadsMedia(s, step) {
      var m := StepReads(s, step);
      MediaKeepsOne(m, step.w);
    } else if EnumeratesNothing(s, step) {
      EmptyEnumeration(if step.Start? then s.(started := true) else s.(queue := s.queue[1..]), step.w);
    } else if step.Runs? && s.started && s.queue != [] && s.queue[0].Retry? {
      RetryKeepsOne(s.(queue := s.queue[1..]), s.queue[0].song, s.queue[0].props, step.w);
    } else {
      OtherKeepsOne(s, step);
    }
  }

  /** Whether some step of a run forgets a running timer. */
  ghost predicate EverForgets(device: string, steps: seq<Step>) {
    steps != [] &&
    var front := steps[..|steps| - 1];
    EverForgets(device, front) || Forgets(Run(Init(device), front), steps[|steps| - 1])
  }

  /** On every run in which no retry comes up while another timer still runs, there is one chain of retries:
      at most one timer runs, the one that the next song change stops. */
  lemma {:induction false} OneChain(device: string, steps: seq<Step>)
    requires !EverForgets(device, steps)
    ensures var s := Run(Init(device), steps);
            && OnlyKnown(s.timers, s.retryTimer)
            && forall a, b | a in s.timers && b in s.timers && !s.timers[a].fired && !s.timers[b].fired :: a == b
  {
    if steps != [] {
      var front := steps[..|steps| - 1];
      OneChain(device, front);
      RunKeeps(device, front);
      OneTimerStep(Run(Init(device), front), steps[|steps| - 1]);
    }
  }

  /** And such a step is the only way to two chains: right after the first one a timer runs that no song
      change will stop. */
  lemma ForgottenTimerRuns(device: string, steps: seq<Step>, step: Step)
    requires !EverForgets(device, steps) && Forgets(Run(Init(device), steps), step)
    ensures var s := Run(Init(device), steps); var id := s.retryTimer.value; var t := Next(s, step);
            id in t.timers && !t.timers[id].fired && t.retryTimer != Some(id)
  {
    var s := Run(Init(device), steps);
    OneChain(device, steps);
    RunKeeps(device, steps);
    ForgottenStays(s.(queue := s.queue[1..]), s.queue[0].song, s.queue[0].props, step.w);
  }

  lemma ForgottenStays(s: State, song: Song, props: Props, w: World)
    requires forall id | id in s.timers :: id < s.nextTimer
    ensures var t := RunRetry(s, song, props, w);
            forall id | id in s.timers :: id in t.timers && t.timers[id] == s.timers[id] && t.retryTimer != Some(id)
  {
  }
}
