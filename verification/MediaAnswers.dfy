/** What the loop holds and tells, in terms of what the media sessions answered. */
module MediaAnswers {
  import opened Domain
  import opened Escaping
  import opened MediaLoop
  import opened MediaInvariants
  import opened MediaTheorems
  import Names

  // The song

  /** The artist and title of an answer; of no answer, empty strings. */
  function RawArtist(a: Option<Props>): string {
    if a.Some? then a.value.artist else ""
  }

  function RawTitle(a: Option<Props>): string {
    if a.Some? then a.value.title else ""
  }

  /** The escaped artist and the escaped title of an answer. */
  function SongOf(a: Option<Props>): Song {
    Song(EscapeText(RawArtist(a)), EscapeText(RawTitle(a)))
  }

  /** A step that reads media properties stores their escaped artist and title. */
  lemma ReadStoresSong(s: State, step: Step)
    requires Inv(s) && ReadsMedia(s, step)
    ensures Next(s, step).song == SongOf(step.w.media)
    ensures Next(s, step).song.artist == EscapeText(RawArtist(step.w.media))
    ensures Next(s, step).song.title == EscapeText(RawTitle(step.w.media))
  {
    var m := StepReads(s, step);
    MediaCounter(m, step.w);
  }

  /** What is the newest answer after a step. */
  ghost function AnswerAfter(s: State, step: Step, before: Option<Props>): Option<Props> {
    if ReadsMedia(s, step) then step.w.media else if EnumeratesNothing(s, step) then None else before
  }

  /** The newest media properties a run has read: none at the start, when they could not be read, and
      after an empty session list. */
  ghost function LastAnswer(device: string, steps: seq<Step>): Option<Props> {
    if steps == [] then None
    else
      var front := steps[..|steps| - 1];
      AnswerAfter(Run(Init(device), front), steps[|steps| - 1], LastAnswer(device, front))
  }

  lemma AnswerStep(s: State, step: Step, before: Option<Props>)
    requires Inv(s) && s.song == SongOf(before)
    ensures Next(s, step).song == SongOf(AnswerAfter(s, step, before))
  {
    if ReadsMedia(s, step) {
      ReadStoresSong(s, step);
    } else if EnumeratesNothing(s, step) {
      StepEnumeratesNothing(s, step);
    } else if RunsMatchingRetry(s, step) {
      RetryTellsOrReschedules(s, step);
    } else {
      StepReadsNothing(s, step);
    }
  }

  /** On every run the current song is the one of the newest properties read. */
  lemma {:induction false} SongIsLastAnswer(device: string, steps: seq<Step>)
    ensures Run(Init(device), steps).song == SongOf(LastAnswer(device, steps))
  {
    if steps != [] {
      var front, last := steps[..|steps| - 1], steps[|steps| - 1];
      SongIsLastAnswer(device, front);
      RunKeeps(device, front);
      AnswerStep(Run(Init(device), front), last, LastAnswer(device, front));
    }
  }

  /** Change detection on escaped text is exact: a media read changes the song if and only if the raw
      artist or the raw title differ from those of the answer before. */
  lemma SongChangesIff(device: string, steps: seq<Step>, step: Step)
    requires ReadsMedia(Run(Init(device), steps), step)
    ensures var s, before := Run(Init(device), steps), LastAnswer(device, steps);
            Next(s, step).song != s.song <==>
              RawArtist(step.w.media) != RawArtist(before) || RawTitle(step.w.media) != RawTitle(before)
  {
    RunKeeps(device, steps);
    SongIsLastAnswer(device, steps);
    ReadStoresSong(Run(Init(device), steps), step);
    SongsDiffer(step.w.media, LastAnswer(device, steps));
  }

  lemma SongsDiffer(a: Option<Props>, b: Option<Props>)
    ensures SongOf(a) != SongOf(b) <==> RawArtist(a) != RawArtist(b) || RawTitle(a) != RawTitle(b)
  {
    EscapeIsInjective(RawArtist(a), RawArtist(b));
    EscapeIsInjective(RawTitle(a), RawTitle(b));
  }

  // Info events

  /** Everything an info event says about the properties, the selected application and the art. */
  predicate Tells(d: InfoData, p: Props, app: string, art: ArtBody) {
    && TellsProps(d, p, app)
    && d.thumbType == art.kind && d.thumb == art.bytes
  }

  predicate TellsProps(d: InfoData, p: Props, app: string) {
    && d.song == SongOf(Some(p))
    && d.albumTitle == EscapeText(p.albumTitle) && d.albumArtist == EscapeText(p.albumArtist)
    && d.playbackType == p.playbackType && d.sourceApp == app
  }

  lemma MediaTells(m: State, w: World)
    requires m.session.Some? && w.media.Some? && (m.thumbSize > 0 ==> m.thumb.Some?)
    requires |HandleMedia(m, w).emitted| > |m.emitted|
    ensures var t := HandleMedia(m, w);
            && Readable(w.art) && t.emitted[|m.emitted|].InfoEvent?
            && Tells(t.emitted[|m.emitted|].info, w.media.value, m.selected, w.art.body.value)
  {
    MediaSends(m, w);
    var p := w.media.value;
    var s1 := AdoptProps(m, p);
    FreshArt(m, p, w.art);
    var (s2, art) := CurrentArt(s1, EscapedSong(p) != m.song, w.art);
    Reported(s2, EscapedSong(p), EscapedSong(p) != m.song, OptionalLength(s1.thumb), art, p);
  }

  lemma FreshArt(m: State, p: Props, read: ArtRead)
    requires Readable(read) && (EscapedSong(p) != m.song || read.size != m.thumbSize)
    ensures var (t, art) := CurrentArt(AdoptProps(m, p), EscapedSong(p) != m.song, read);
            t.emitted == m.emitted && t.selected == m.selected
            && art == Art(read.body.value.kind, Some(read.body.value.bytes))
  {
  }

  lemma Reported(s: State, song: Song, changed: bool, length: nat, art: Art, p: Props)
    ensures var t := ReportMedia(s, song, changed, length, art, p);
            t.emitted == s.emitted || t.emitted == s.emitted + [InfoEvent(InfoFor(song, art, p, s.selected))]
  {
  }

  /** What a step that reads media properties tells: the properties and the art read by this very step,
      and the selected application; or, when there are none, an empty event. */
  lemma ReadTells(s: State, step: Step, k: nat)
    requires Reachable(s) && ReadsMedia(s, step)
    requires |s.emitted| <= k < |Next(s, step).emitted| && Next(s, step).emitted[k].InfoEvent?
    ensures var d := Next(s, step).emitted[k].info;
            if step.w.media.None? then d == InfoData(Song("", ""), "", [], "", "", 0, "")
            else Readable(step.w.art) && Tells(d, step.w.media.value, Next(s, step).selected, step.w.art.body.value)
  {
    ReachableHolds(s);
    var m := StepReads(s, step);
    MediaSends(m, step.w);
    assert k == |m.emitted| && HandleMedia(m, step.w).emitted[k] == Next(s, step).emitted[k];
    if step.w.media.Some? {
      MediaTells(m, step.w);
    }
  }

  /** The song a retry carries is the one of the properties it carries. */
  ghost predicate TimersAgree(timers: map<nat, Timer>) {
    forall id | id in timers :: timers[id].song == SongOf(Some(timers[id].props))
  }

  ghost predicate RetriesAgree(s: State) {
    && TimersAgree(s.timers)
    && (forall i | 0 <= i < |s.queue| && s.queue[i].Retry? :: s.queue[i].song == SongOf(Some(s.queue[i].props)))
  }

  /** What a media read does to the timers: nothing, or it arms one for the song it read. */
  lemma MediaTimers(m: State, w: World)
    ensures var t := HandleMedia(m, w);
            forall id | id in t.timers :: (id in m.timers && t.timers[id] == m.timers[id])
              || t.timers[id].song == SongOf(Some(t.timers[id].props))
  {
    if m.session.Some? && w.media.Some? {
      var p := w.media.value;
      var changed := EscapedSong(p) != m.song;
      AdoptedLeaves(m, p, changed, w.art);
      var s1 := AdoptProps(m, p);
      var (s2, art) := CurrentArt(s1, changed, w.art);
      ReportTimers(s2, changed, OptionalLength(s1.thumb), art, p);
    }
  }

  lemma ReportTimers(s: State, changed: bool, length: nat, art: Art, p: Props)
    ensures var t := ReportMedia(s, EscapedSong(p), changed, length, art, p);
            forall id | id in t.timers :: (id in s.timers && t.timers[id] == s.timers[id])
              || t.timers[id].song == SongOf(Some(t.timers[id].props))
  {
  }

  lemma StepTimers(s: State, step: Step)
    requires Inv(s) && RetriesAgree(s)
    ensures TimersAgree(Next(s, step).timers)
  {
    if ReadsMedia(s, step) {
      var m := StepReads(s, step);
      MediaTimers(m, step.w);
    } else if EnumeratesNothing(s, step) {
      EmptyEnumeration(if step.Start? then s.(started := true) else s.(queue := s.queue[1..]), step.w);
    } else if step.Runs? && s.started && s.queue != [] && s.queue[0].Retry? {
      RetryTimers(s.(queue := s.queue[1..]), s.queue[0].song, s.queue[0].props, step.w);
    } else {
      OtherTimers(s, step);
    }
  }

  lemma RetryTimers(s: State, song: Song, props: Props, w: World)
    requires TimersAgree(s.timers) && song == SongOf(Some(props))
    ensures TimersAgree(RunRetry(s, song, props, w).timers)
  {
  }

  lemma OtherTimers(s: State, step: Step)
    requires !ReadsMedia(s, step) && !Enumerates(s, step)
    requires step.Runs? && s.started && s.queue != [] ==> !s.queue[0].Retry?
    ensures forall id | id in Next(s, step).timers ::
              id in s.timers && Next(s, step).timers[id].(fired := s.timers[id].fired) == s.timers[id]
  {
  }

  /** The only ways the queue changes: its head is taken, or one command is added at its end. */
  lemma StepQueue(s: State, step: Step)
    requires Inv(s)
    ensures var t := Next(s, step);
            if step.Runs? && s.started && s.queue != [] then t.queue == s.queue[1..]
            else t.queue == s.queue || (exists c :: t.queue == s.queue + [c] && (c.Retry? ==>
              step.Sends? && step.id in s.timers && c == Retry(s.timers[step.id].song, s.timers[step.id].props)))
  {
    match step
    case Start(w) => if !s.started { EnumerateLeaves(s.(started := true), w); }
    case Runs(w) =>
      if s.started && s.queue != [] {
        CommandLeaves(s.(queue := s.queue[1..]), s.queue[0], w);
      }
    case Ticks(w) =>
    case Fires(id) =>
    case Sends(id) =>
      if id in s.timers && s.timers[id].fired {
        var c := Retry(s.timers[id].song, s.timers[id].props);
        assert Next(s, step).queue == s.queue || Next(s, step).queue == s.queue + [c];
      }
    case Notifies(c) => assert Next(s, step).queue == s.queue || Next(s, step).queue == s.queue + [c];
    case Selects(appID) => assert Next(s, step).queue == s.queue || Next(s, step).queue == s.queue + [Select(appID)];
    case Controls => assert Next(s, step).queue == s.queue || Next(s, step).queue == s.queue + [Control];
  }

  lemma CommandLeaves(s: State, c: Command, w: World)
    ensures var t := Execute(s, c, w);
            t.queue == s.queue && t.selected == if c.Select? then c.appID else s.selected
  {
    match c
    case Retry(song, props) => RetryLeaves(s, song, props, w);
    case MediaChanged => MediaLeaves(s, w);
    case PlaybackChanged =>
    case Enumerate => EnumerateLeaves(s, w);
    case Select(appID) =>
      var s1 := s.(selected := appID);
      if FirstIndex(s1.sessions, appID).Some? {
        SwitchLeaves(s1, FirstIndex(s1.sessions, appID).value, w);
      }
    case Control =>
  }

  lemma EnumerateLeaves(s: State, w: World)
    ensures var t := EnumerateSessions(s, w); t.queue == s.queue && t.selected == s.selected
  {
    var usable := Usable(w.list);
    ListLeaves(s, Names.Entries(AppIDs(usable), w.friendly), Handles(usable), w);
  }

  lemma {:induction false} RetriesCarryTheirSong(device: string, steps: seq<Step>)
    ensures RetriesAgree(Run(Init(device), steps))
  {
    if steps != [] {
      var front, last := steps[..|steps| - 1], steps[|steps| - 1];
      var s := Run(Init(device), front);
      RetriesCarryTheirSong(device, front);
      RunKeeps(device, front);
      StepTimers(s, last);
      StepQueue(s, last);
    }
  }

  /** What a retry tells: the properties it was armed with, whose song is the current one, the selected
      application, and the art it reads: from the cache when the stream has the cached size, from
      a readable stream of another size, or none. */
  lemma RetryTells(s: State, step: Step)
    requires Reachable(s) && RunsMatchingRetry(s, step) && !Reschedules(s, step)
    ensures var t := Next(s, step);
            && |t.emitted| == |s.emitted| + 1 && s.emitted <= t.emitted && t.emitted[|s.emitted|].InfoEvent?
            && TellsProps(t.emitted[|s.emitted|].info, s.queue[0].props, s.selected)
            && TellsArtRead(s, step.w.art, t.emitted[|s.emitted|].info)
  {
    ReachableHolds(s);
    var device, steps :| s == Run(Init(device), steps);
    RetriesCarryTheirSong(device, steps);
    RetryEvent(s, step);
    ArtReadIs(s, step.w.art);
  }

  predicate TellsArtRead(s: State, read: ArtRead, d: InfoData) {
    if s.props.None? || read.NoStream? || read.size == 0 then d.thumbType == "" && d.thumb == []
    else if read.size == s.thumbSize then s.thumb.Some? && d.thumbType == s.thumbType && d.thumb == s.thumb.value
    else if read.body.Some? then d.thumbType == read.body.value.kind && d.thumb == read.body.value.bytes
    else d.thumbType == "" && d.thumb == []
  }

  lemma ArtReadIs(s: State, read: ArtRead)
    requires s.thumbSize > 0 ==> s.thumb.Some?
    ensures forall song, p, app :: TellsArtRead(s, read, InfoFor(song, ReadArt(s, read).1, p, app))
  {
  }

  lemma RetryEvent(s: State, step: Step)
    requires RunsMatchingRetry(s, step) && !Reschedules(s, step)
    ensures Next(s, step).emitted ==
              s.emitted + [InfoEvent(InfoFor(s.song, ReadArt(s, step.w.art).1, s.queue[0].props, s.selected))]
  {
    var s1 := s.(queue := s.queue[1..]);
    MatchingRetryOutcome(s1, s.queue[0].props, step.w);
    ReadArtIgnores(s, step.w.art, None, s.queue[1..]);
  }

  // Progress events

  predicate InInt64(x: int) {
    -0x8000_0000_0000_0000 <= x < 0x8000_0000_0000_0000
  }

  /** Ticks since 1601 as ticks since 1970, in 64 bits. */
  function UnixTicks(ticks: int): int {
    var x := ticks - 116_444_736_000_000_000;
    if x < -0x8000_0000_0000_0000 then x + 0x1_0000_0000_0000_0000 else x
  }

  /** Everything a progress event says: the status as it is, the session's rate, shuffle and repeat modes or
      their defaults, and times in whole seconds and milliseconds, rounded toward zero. */
  predicate TellsTimeline(p: ProgressData, t: Timeline) {
    && p.status == t.status
    && p.rate == (if t.rate.Some? then t.rate.value else 1.0)
    && p.shuffle == t.shuffle
    && p.repeat == (if t.repeat.Some? then t.repeat.value else 0)
    && if t.updated == 0 then p.position == 0 && p.duration == 0 && p.lastUpdated == 0
       else
         && RoundedTowardZero(t.position, 10_000_000, p.position)
         && RoundedTowardZero(t.end, 10_000_000, p.duration)
         && (InInt64(t.updated) ==> RoundedTowardZero(UnixTicks(t.updated), 10_000, p.lastUpdated))
  }

  lemma ProgressTells(t: Timeline)
    ensures TellsTimeline(ProgressOf(t), t)
  {
    if InInt64(t.updated) && t.updated != 0 {
      assert WrapInt64(t.updated - WINDOWS_TO_UNIX_TICKS) == UnixTicks(t.updated);
    }
  }

  /** The event that a step reading the timeline adds says exactly what the session answered. */
  lemma TimelineTells(s: State, step: Step, t: Timeline)
    requires ReadsTimeline(s, step) && s.session.Some? && step.w.timeline == Some(t)
    requires |Next(s, step).emitted| > |s.emitted|
    ensures var e := Next(s, step).emitted[|s.emitted|]; e.ProgressEvent? && TellsTimeline(e.progress, t)
  {
    ProgressTells(t);
  }

  // The cached art

  /** The cache after a step is the one before, or forgotten, or exactly the art this step read; after an
      empty session list only the size is forgotten. */
  lemma CacheStep(s: State, step: Step)
    requires Inv(s)
    ensures var t := Next(s, step);
            || Cache(t) == Cache(s)
            || ((ReadsMedia(s, step) || RunsMatchingRetry(s, step)) && Readable(step.w.art)
                && Cache(t) == Fresh(step.w.art))
            || (ReadsMedia(s, step) && t.song != s.song && Cache(t) == (0, "", None))
            || (EnumeratesNothing(s, step) && Cache(t) == (0, s.thumbType, s.thumb))
    ensures ReadsMedia(s, step) && step.w.media.None? && s.song != NO_SONG ==> Next(s, step).thumb.None?
    ensures EnumeratesNothing(s, step) ==> Cache(Next(s, step)) == (0, s.thumbType, s.thumb)
  {
    if ReadsMedia(s, step) {
      var m := StepReads(s, step);
      MediaCache(m, step.w);
    } else if EnumeratesNothing(s, step) {
      EmptyEnumeration(if step.Start? then s.(started := true) else s.(queue := s.queue[1..]), step.w);
    } else if step.Runs? && s.started && s.queue != [] && s.queue[0].Retry? {
      RetryCache(s.(queue := s.queue[1..]), s.queue[0].song, s.queue[0].props, step.w);
    } else {
      OtherCache(s, step);
    }
  }

  function Cache(s: State): (nat, string, Option<ArtBytes>) {
    (s.thumbSize, s.thumbType, s.thumb)
  }

  function Fresh(read: ArtRead): (nat, string, Option<ArtBytes>)
    requires Readable(read)
  {
    (read.size, read.body.value.kind, Some(read.body.value.bytes))
  }

  lemma RetryCache(s: State, song: Song, props: Props, w: World)
    ensures var t := RunRetry(s, song, props, w);
            Cache(t) == Cache(s) || (song == s.song && Readable(w.art) && Cache(t) == Fresh(w.art))
  {
  }

  lemma OtherCache(s: State, step: Step)
    requires !ReadsMedia(s, step) && !Enumerates(s, step)
    requires step.Runs? && s.started && s.queue != [] ==> !s.queue[0].Retry?
    ensures Cache(Next(s, step)) == Cache(s)
  {
  }

  lemma MediaCache(m: State, w: World)
    requires m.session.Some?
    ensures var t := HandleMedia(m, w);
            || Cache(t) == Cache(m)
            || (Readable(w.art) && Cache(t) == Fresh(w.art))
            || (t.song != m.song && Cache(t) == (0, "", None))
    ensures w.media.None? && m.song != NO_SONG ==> HandleMedia(m, w).thumb.None?
  {
    if w.media.Some? {
      var p := w.media.value;
      var changed := EscapedSong(p) != m.song;
      AdoptedCache(m, p, w.art);
      var s1 := AdoptProps(m, p);
      var (s2, art) := CurrentArt(s1, changed, w.art);
      ReportLeaves(s2, EscapedSong(p), changed, OptionalLength(s1.thumb), art, p);
      MediaCounter(m, w);
    }
  }

  lemma AdoptedCache(m: State, p: Props, read: ArtRead)
    ensures var (t, _) := CurrentArt(AdoptProps(m, p), EscapedSong(p) != m.song, read);
            || (Readable(read) && Cache(t) == Fresh(read))
            || Cache(t) == if EscapedSong(p) != m.song then (0, "", None) else Cache(m)
  {
  }

  // Commands

  /** When a command is lost or waits: a notification or a retry is dropped, and counted, exactly when the
      queue holds 32; a selection or a control call then waits or is refused. */
  lemma CommandIsDroppedIff(s: State, step: Step, c: Command)
    requires Reachable(s)
    requires || (step.Notifies? && c == step.c && (c.MediaChanged? || c.PlaybackChanged? || c.Enumerate?))
             || (step.Sends? && step.id in s.timers && s.timers[step.id].fired
                 && c == Retry(s.timers[step.id].song, s.timers[step.id].props))
             || (step.Selects? && c == Select(step.appID))
             || (step.Controls? && c == Control)
    ensures var t := Next(s, step);
            if |s.queue| < 32 then t.queue == s.queue + [c] && t.dropped == s.dropped
            else t.queue == s.queue && t.dropped == s.dropped + if step.Notifies? || step.Sends? then 1 else 0
    ensures step.Sends? ==> Next(s, step).timers == s.timers - {step.id}
  {
    ReachableHolds(s);
  }

  // The selection

  /** The application requested last: by a selection that was run, or by the configuration. */
  ghost function LastRequest(device: string, steps: seq<Step>): string
    decreases |steps|
  {
    if steps == [] then device
    else
      var front, last := steps[..|steps| - 1], steps[|steps| - 1];
      var s := Run(Init(device), front);
      if last.Runs? && s.started && s.queue != [] && s.queue[0].Select? then s.queue[0].appID
      else LastRequest(device, front)
  }

  lemma {:induction false} SelectedIsLastRequest(device: string, steps: seq<Step>)
    ensures Run(Init(device), steps).selected == LastRequest(device, steps)
    decreases |steps|
  {
    if steps != [] {
      var front, last := steps[..|steps| - 1], steps[|steps| - 1];
      SelectedIsLastRequest(device, front);
      RunKeeps(device, front);
      SelectedStep(Run(Init(device), front), last);
    }
  }

  lemma SelectedStep(s: State, step: Step)
    requires Inv(s)
    ensures Next(s, step).selected ==
              if step.Runs? && s.started && s.queue != [] && s.queue[0].Select? then s.queue[0].appID else s.selected
  {
    if step.Start? && !s.started {
      EnumerateLeaves(s.(started := true), step.w);
    } else if step.Runs? && s.started && s.queue != [] {
      CommandLeaves(s.(queue := s.queue[1..]), s.queue[0], step.w);
    }
  }
}
