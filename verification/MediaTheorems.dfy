/** The guarantees of the media loop, for every run. */
module MediaTheorems {
  import opened Domain
  import opened Escaping
  import opened MediaLoop
  import opened MediaInvariants
  import Names

  /** Every state the loop can reach. */
  ghost predicate Reachable(s: State) {
    exists device, steps :: s == Run(Init(device), steps)
  }

  lemma ReachableHolds(s: State)
    requires Reachable(s)
    ensures Inv(s)
  {
    var device, steps :| s == Run(Init(device), steps);
    RunKeeps(device, steps);
  }

  /** A song is never silently lost; in particular, once nothing is pending and nothing was
      dropped, the last event names the current song. */
  lemma SongIsNeverSilentlyLost(s: State)
    requires Reachable(s)
    ensures LastSong(s.emitted) == s.song || RetryArmed(s, s.song) || RetryQueued(s, s.song) || 0 < s.lost <= s.dropped
    ensures s.timers == map[] && s.queue == [] && s.dropped == 0 ==> LastSong(s.emitted) == s.song
  {
    ReachableHolds(s);
  }

  // Media reads: which steps run one, and what surrounds it

  ghost predicate Enumerates(s: State, step: Step) {
    || (step.Start? && !s.started)
    || (step.Runs? && s.started && s.queue != [] && s.queue[0].Enumerate?)
  }

  ghost predicate EnumeratesNothing(s: State, step: Step) {
    Enumerates(s, step) && Usable(step.w.list) == []
  }

  /** The steps that read the media properties of the followed session: a media notification, a
      switch to a selected session that is listed, and an enumeration that finds a session. */
  ghost predicate ReadsMedia(s: State, step: Step) {
    || (Enumerates(s, step) && Usable(step.w.list) != [])
    || (step.Runs? && s.started && s.queue != [] && s.queue[0].MediaChanged? && s.session.Some?)
    || (step.Runs? && s.started && s.queue != [] && s.queue[0].Select?
        && FirstIndex(s.sessions, s.queue[0].appID).Some?)
  }

  /** Only events that are no info events were added. */
  ghost predicate OnlyOthers(before: seq<Event>, after: seq<Event>) {
    before <= after && forall k | |before| <= k < |after| :: !after[k].InfoEvent?
  }

  /** m is s as far as a media read can tell, and it follows a session. */
  ghost predicate ReadyToRead(s: State, m: State) {
    && m.session.Some? && m.song == s.song && m.retryCount == s.retryCount && m.fails == s.fails
    && m.thumbSize == s.thumbSize && m.thumbType == s.thumbType && m.thumb == s.thumb
    && m.timers == s.timers && m.nextTimer == s.nextTimer && m.retryTimer == s.retryTimer
    && OnlyOthers(s.emitted, m.emitted)
  }

  ghost predicate SameAfterRead(r: State, t: State) {
    t.song == r.song && t.retryCount == r.retryCount && OnlyOthers(r.emitted, t.emitted)
  }

  /** What follows the read changes neither the selection nor the timers nor the cached art. */
  ghost predicate KeepsRest(m: State, r: State, t: State) {
    && t.selected == r.selected == m.selected && t.timers == r.timers && t.nextTimer == r.nextTimer
    && t.retryTimer == r.retryTimer
    && t.thumbSize == r.thumbSize && t.thumbType == r.thumbType && t.thumb == r.thumb
  }

  lemma AdoptedLeaves(s: State, p: Props, changed: bool, read: ArtRead)
    ensures SameButArt(s, CurrentArt(AdoptProps(s, p), changed, read).0)
  {
  }

  /** What telling or waiting leaves alone. */
  ghost predicate OnlyTells(s: State, t: State) {
    && t.session == s.session && t.sessions == s.sessions && t.objects == s.objects && t.selected == s.selected
    && t.queue == s.queue && t.started == s.started && t.dropped == s.dropped
    && s.emitted <= t.emitted
  }

  lemma ReportLeaves(s: State, song: Song, changed: bool, length: nat, art: Art, p: Props)
    ensures var t := ReportMedia(s, song, changed, length, art, p);
            OnlyTells(s, t) && t.thumbSize == s.thumbSize && t.thumbType == s.thumbType && t.thumb == s.thumb
  {
  }

  lemma MediaLeaves(s: State, w: World)
    ensures OnlyTells(s, HandleMedia(s, w))
  {
    if s.session.Some? && w.media.Some? {
      var p := w.media.value;
      var changed := EscapedSong(p) != s.song;
      AdoptedLeaves(s, p, changed, w.art);
      var s1 := AdoptProps(s, p);
      var (s2, art) := CurrentArt(s1, changed, w.art);
      ReportLeaves(s2, EscapedSong(p), changed, OptionalLength(s1.thumb), art, p);
    }
  }

  lemma RetryLeaves(s: State, song: Song, props: Props, w: World)
    ensures OnlyTells(s, RunRetry(s, song, props, w))
  {
  }

  lemma SwitchLeaves(s: State, index: int, w: World)
    ensures OnlyTells(s, SwitchTo(s, index, w).(session := s.session))
  {
    if 0 <= index < |s.objects| {
      MediaLeaves(s.(session := Some(s.objects[index])), w);
    }
  }

  lemma ListLeaves(s: State, sessions: seq<SessionInfo>, objects: seq<Handle>, w: World)
    ensures var t := ApplyList(s, sessions, objects, w);
            && t.sessions == sessions && t.objects == objects && t.selected == s.selected && t.queue == s.queue
            && s.emitted + [SessionsChangedEvent(sessions)] <= t.emitted
  {
    var s1 := Emit(s.(sessions := sessions, objects := objects), SessionsChangedEvent(sessions));
    SwitchLeaves(s1, Chosen(sessions, s.selected), w);
  }

  lemma SwitchReads(s: State, index: nat, w: World) returns (m: State)
    requires index < |s.objects|
    ensures ReadyToRead(s, m) && SameAfterRead(HandleMedia(m, w), SwitchTo(s, index, w))
    ensures KeepsRest(m, HandleMedia(m, w), SwitchTo(s, index, w))
  {
    m := s.(session := Some(s.objects[index]));
    MediaLeaves(m, w);
  }

  lemma ApplyListReads(s: State, sessions: seq<SessionInfo>, objects: seq<Handle>, w: World) returns (m: State)
    requires sessions != [] && |sessions| == |objects|
    ensures ReadyToRead(s, m) && SameAfterRead(HandleMedia(m, w), ApplyList(s, sessions, objects, w))
    ensures KeepsRest(m, HandleMedia(m, w), ApplyList(s, sessions, objects, w))
  {
    var s1 := Emit(s.(sessions := sessions, objects := objects), SessionsChangedEvent(sessions));
    m := SwitchReads(s1, Chosen(sessions, s.selected), w);
  }

  lemma EnumerateReads(s: State, w: World) returns (m: State)
    requires Usable(w.list) != []
    ensures ReadyToRead(s, m) && SameAfterRead(HandleMedia(m, w), EnumerateSessions(s, w))
    ensures KeepsRest(m, HandleMedia(m, w), EnumerateSessions(s, w))
  {
    var usable := Usable(w.list);
    m := ApplyListReads(s, Names.Entries(AppIDs(usable), w.friendly), Handles(usable), w);
  }

  /** Such a step is its media read, between events that are no info events. */
  lemma StepReads(s: State, step: Step) returns (m: State)
    requires Inv(s) && ReadsMedia(s, step)
    ensures ReadyToRead(s, m) && SameAfterRead(HandleMedia(m, step.w), Next(s, step))
    ensures KeepsRest(m, HandleMedia(m, step.w), Next(s, step))
  {
    if step.Start? {
      m := EnumerateReads(s.(started := true), step.w);
    } else {
      m := CommandReads(s.(queue := s.queue[1..]), s.queue[0], step.w);
    }
  }

  lemma CommandReads(s: State, c: Command, w: World) returns (m: State)
    requires |s.sessions| == |s.objects|
    requires || (c.Enumerate? && Usable(w.list) != [])
             || (c.MediaChanged? && s.session.Some?)
             || (c.Select? && FirstIndex(s.sessions, c.appID).Some?)
    ensures ReadyToRead(s, m) && SameAfterRead(HandleMedia(m, w), Execute(s, c, w))
    ensures KeepsRest(m, HandleMedia(m, w), Execute(s, c, w))
  {
    match c
    case Enumerate => m := EnumerateReads(s, w);
    case MediaChanged =>
      m := s;
      MediaLeaves(m, w);
    case Select(appID) =>
      var s1 := s.(selected := appID);
      m := SwitchReads(s1, FirstIndex(s1.sessions, appID).value, w);
  }

  lemma StepEnumeratesNothing(s: State, step: Step)
    requires EnumeratesNothing(s, step)
    ensures var t := Next(s, step);
            && t.song == NO_SONG && t.retryCount == s.retryCount
            && t.emitted == s.emitted + [SessionsChangedEvent([]), InfoEvent(EMPTY_INFO),
                ProgressEvent(CLOSED_PROGRESS)]
  {
    EmptyEnumeration(if step.Start? then s.(started := true) else s.(queue := s.queue[1..]), step.w);
  }

  lemma EmptyEnumeration(s: State, w: World)
    requires Usable(w.list) == []
    ensures EnumerateSessions(s, w) == ApplyEmptyList(Emit(s.(sessions := [], objects := []), SessionsChangedEvent([])))
  {
    assert Names.Entries(AppIDs([]), w.friendly) == [] && Handles([]) == [];
  }

  /** Every other step, matching retries aside, leaves song and counter and sends no info event. */
  lemma StepReadsNothing(s: State, step: Step)
    requires !ReadsMedia(s, step) && !EnumeratesNothing(s, step) && !RunsMatchingRetry(s, step)
    ensures SameAfterRead(s, Next(s, step))
  {
  }

  // Retries

  ghost predicate RunsMatchingRetry(s: State, step: Step) {
    step.Runs? && s.started && s.queue != [] && s.queue[0].Retry? && s.queue[0].song == s.song
  }

  /** The read of the step that runs against the state after its command was taken. */
  ghost predicate ReadFails(s: State, w: World) {
    ReadArt(s, w.art).1.bytes.None?
  }

  ghost predicate Reschedules(s: State, step: Step) {
    RunsMatchingRetry(s, step) && ReadFails(s, step.w) && s.retryCount < RETRY_MAX_ATTEMPTS - 1
  }

  lemma ReadArtIgnores(s: State, read: ArtRead, timer: Option<nat>, queue: seq<Command>)
    ensures ReadArt(s.(queue := queue, retryTimer := timer), read).1 == ReadArt(s, read).1
  {
  }

  lemma MatchingRetryOutcome(s: State, props: Props, w: World)
    ensures var t := RunRetry(s, s.song, props, w); var (r, art) := RetryArt(s.(retryTimer := None), w.art);
            && t.song == s.song
            && (if art.bytes.None? && s.retryCount < RETRY_MAX_ATTEMPTS - 1
                then t.retryCount == s.retryCount + 1 && t.emitted == s.emitted
                else t.retryCount == s.retryCount && t.fails == r.fails
                     && t.emitted == s.emitted + [InfoEvent(InfoFor(s.song, art, props, s.selected))])
  {
  }

  /** A matching retry either schedules another one or tells the song; the tenth must tell it. */
  lemma RetryTellsOrReschedules(s: State, step: Step)
    requires Inv(s) && RunsMatchingRetry(s, step)
    ensures Next(s, step).song == s.song
    ensures Reschedules(s, step) ==>
              && Next(s, step).retryCount == s.retryCount + 1
              && Next(s, step).emitted == s.emitted
              && RetryArmed(Next(s, step), s.song)
    ensures !Reschedules(s, step) ==>
              && Next(s, step).retryCount == s.retryCount
              && exists d :: Next(s, step).emitted == s.emitted + [InfoEvent(d)] && d.song == s.song
    ensures s.retryCount == RETRY_MAX_ATTEMPTS - 1 ==> !Reschedules(s, step)
  {
    var s1 := s.(queue := s.queue[1..]);
    var props := s.queue[0].props;
    TakeCommand(s);
    MatchingRetryKeeps(s1, props, step.w);
    MatchingRetryOutcome(s1, props, step.w);
    ReadArtIgnores(s, step.w.art, None, s.queue[1..]);
    var art := RetryArt(s1.(retryTimer := None), step.w.art).1;
    assert InfoFor(s.song, art, props, s.selected).song == s.song;
  }

  /** Whether a stream is open, has a size and can be read. */
  predicate Readable(read: ArtRead) {
    read.Stream? && read.size > 0 && read.body.Some?
  }

  /** A media read that finds a new song without art. */
  ghost predicate FindsArtlessSong(s: State, step: Step) {
    ReadsMedia(s, step) && step.w.media.Some? && EscapedSong(step.w.media.value) != s.song && !Readable(step.w.art)
  }

  /** What a media read gets for art: of a new song only what is readable now, of the same song the
      cache when the size of the stream is the cached one. */
  lemma BytesRead(s: State, p: Props, read: ArtRead)
    ensures ReadArt(AdoptProps(s, p), read).1.bytes ==
              if EscapedSong(p) == s.song && read.Stream? && read.size == s.thumbSize && read.size > 0 then s.thumb
              else if Readable(read) then Some(read.body.value.bytes) else None
    ensures OptionalLength(AdoptProps(s, p).thumb) == if EscapedSong(p) == s.song then OptionalLength(s.thumb) else 0
  {
  }

  lemma CurrentArtIs(s: State, changed: bool, read: ArtRead)
    ensures var (t, art) := CurrentArt(s, changed, read); var got := ReadArt(s, read).1.bytes;
            && t.song == s.song && t.retryCount == s.retryCount && t.emitted == s.emitted
            && art.bytes == if !changed && got.None? then s.thumb else got
  {
  }

  lemma ReportDecides(s: State, song: Song, length: nat, art: Art, p: Props)
    ensures var t := ReportMedia(s, song, song != s.song, length, art, p);
            && t.song == song
            && t.retryCount == (if song != s.song && art.bytes.None? then 0 else s.retryCount)
            && if (if song != s.song then art.bytes.Some? else OptionalLength(art.bytes) != length)
               then SendsOne(s, t) else t.emitted == s.emitted
  {
  }

  /** Exactly one info event, for the new current song. */
  ghost predicate SendsOne(s: State, t: State) {
    && |t.emitted| == |s.emitted| + 1 && s.emitted <= t.emitted
    && t.emitted[|s.emitted|].InfoEvent? && t.emitted[|s.emitted|].info.song == t.song
  }

  /** The decision of a media read, by what it got. */
  lemma MediaDecides(s: State, p: Props, w: World)
    requires s.session.Some? && w.media == Some(p)
    ensures var read := ReadArt(AdoptProps(s, p), w.art).1.bytes; var t := HandleMedia(s, w);
            && t.song == EscapedSong(p)
            && t.retryCount == (if EscapedSong(p) != s.song && read.None? then 0 else s.retryCount)
            && if read.Some? && (EscapedSong(p) != s.song || |read.value| != OptionalLength(s.thumb))
               then SendsOne(s, t) else t.emitted == s.emitted
  {
    var s1 := AdoptProps(s, p);
    CurrentArtIs(s1, EscapedSong(p) != s.song, w.art);
    var (s2, art) := CurrentArt(s1, EscapedSong(p) != s.song, w.art);
    ReportDecides(s2, EscapedSong(p), OptionalLength(s1.thumb), art, p);
  }

  lemma MediaCounter(s: State, w: World)
    requires s.session.Some?
    ensures HandleMedia(s, w).retryCount ==
              if w.media.Some? && EscapedSong(w.media.value) != s.song && !Readable(w.art) then 0 else s.retryCount
    ensures HandleMedia(s, w).song == if w.media.Some? then EscapedSong(w.media.value) else NO_SONG
  {
    if w.media.Some? {
      MediaDecides(s, w.media.value, w);
      BytesRead(s, w.media.value, w.art);
    }
  }

  /** What moves the counter, over every step: a reschedule adds one, a media read that finds a new
      song without art resets it, and nothing else touches it. */
  lemma CounterStep(s: State, step: Step)
    requires Inv(s)
    ensures Next(s, step).retryCount ==
              if FindsArtlessSong(s, step) then 0 else s.retryCount + if Reschedules(s, step) then 1 else 0
  {
    if ReadsMedia(s, step) {
      var m := StepReads(s, step);
      MediaCounter(m, step.w);
    } else if EnumeratesNothing(s, step) {
      StepEnumeratesNothing(s, step);
    } else if RunsMatchingRetry(s, step) {
      RetryTellsOrReschedules(s, step);
    } else {
      StepReadsNothing(s, step);
    }
  }

  /** A change of song does not by itself reset the counter: it becomes zero if the step read media
      properties whose art could not be read, and stays what it was in every other case (new art, no
      properties, an empty session list). */
  lemma SongChangeResetsIff(s: State, step: Step)
    requires Reachable(s) && Next(s, step).song != s.song
    ensures Next(s, step).retryCount ==
              if ReadsMedia(s, step) && step.w.media.Some? && !Readable(step.w.art) then 0 else s.retryCount
  {
    ReachableHolds(s);
    CounterStep(s, step);
    if ReadsMedia(s, step) {
      var m := StepReads(s, step);
      MediaCounter(m, step.w);
    } else if RunsMatchingRetry(s, step) {
      RetryTellsOrReschedules(s, step);
    }
  }

  /** A stretch of steps in which the song never changes. */
  ghost predicate SameSong(s: State, steps: seq<Step>)
    decreases |steps|
  {
    steps == [] || (Next(s, steps[0]).song == s.song && SameSong(Next(s, steps[0]), steps[1..]))
  }

  function After(s: State, steps: seq<Step>): State
    decreases |steps|
  {
    if steps == [] then s else After(Next(s, steps[0]), steps[1..])
  }

  ghost function RescheduleCount(s: State, steps: seq<Step>): nat
    decreases |steps|
  {
    if steps == [] then 0
    else (if Reschedules(s, steps[0]) then 1 else 0) + RescheduleCount(Next(s, steps[0]), steps[1..])
  }

  lemma SameSongKeepsCounting(s: State, step: Step)
    requires Inv(s) && Next(s, step).song == s.song
    ensures !FindsArtlessSong(s, step)
  {
    if ReadsMedia(s, step) {
      var m := StepReads(s, step);
      MediaCounter(m, step.w);
    }
  }

  /** The counter pays for every reschedule, and it never exceeds nine. */
  lemma {:induction false} RetriesAreBounded(s: State, steps: seq<Step>)
    requires Inv(s) && SameSong(s, steps)
    ensures After(s, steps).retryCount == s.retryCount + RescheduleCount(s, steps)
    ensures 0 <= After(s, steps).retryCount <= RETRY_MAX_ATTEMPTS - 1
    ensures RescheduleCount(s, steps) <= RETRY_MAX_ATTEMPTS - 1
    decreases |steps|
  {
    if steps != [] {
      CounterStep(s, steps[0]);
      SameSongKeepsCounting(s, steps[0]);
      NextKeeps(s, steps[0]);
      RetriesAreBounded(Next(s, steps[0]), steps[1..]);
    }
  }

  // Art

  /** Whether the step sends an info event without art for a real song. */
  ghost predicate SendsArtless(s: State, t: State) {
    exists k :: |s.emitted| <= k < |t.emitted| && Artless(t.emitted[k])
  }

  predicate Artless(e: Event) {
    e.InfoEvent? && e.info.thumb == [] && e.info.song != NO_SONG
  }

  lemma MediaSendsArt(s: State, w: World)
    ensures !SendsArtless(s, HandleMedia(s, w)) && s.emitted <= HandleMedia(s, w).emitted
  {
    if s.session.Some? && w.media.Some? {
      var p := w.media.value;
      var s1 := AdoptProps(s, p);
      var changed := EscapedSong(p) != s.song;
      var (s2, art) := CurrentArt(s1, changed, w.art);
      assert s2.emitted == s.emitted;
      if !changed && art.bytes.None? {
        assert s2.thumb.None? && s1.thumb.None?;
      }
    }
  }

  lemma ArtlessRetry(s: State, step: Step)
    requires Inv(s) && RunsMatchingRetry(s, step) && SendsArtless(s, Next(s, step))
    ensures ReadFails(s, step.w) && s.retryCount == RETRY_MAX_ATTEMPTS - 1 && s.song != NO_SONG
    ensures Next(s, step).fails == s.fails + 1 >= RETRY_MAX_ATTEMPTS
  {
    RetryTellsOrReschedules(s, step);
    ReadArtIgnores(s, step.w.art, None, s.queue[1..]);
    RetryArtFacts(s.(queue := s.queue[1..], retryTimer := None), step.w.art);
  }

  /** Exactly when a step sends an info event without art for a real song: it runs a matching retry
      whose read fails with the counter at nine. By then at least ten retry reads have failed
      since the counter was last reset. */
  lemma ArtlessNeedsTenFailures(s: State, step: Step)
    requires Reachable(s)
    ensures SendsArtless(s, Next(s, step)) <==>
              && RunsMatchingRetry(s, step) && ReadFails(s, step.w)
              && s.retryCount == RETRY_MAX_ATTEMPTS - 1 && s.song != NO_SONG
    ensures SendsArtless(s, Next(s, step)) ==> Next(s, step).fails == s.fails + 1 >= RETRY_MAX_ATTEMPTS
  {
    ReachableHolds(s);
    if RunsMatchingRetry(s, step) {
      if SendsArtless(s, Next(s, step)) {
        ArtlessRetry(s, step);
      } else if ReadFails(s, step.w) && s.retryCount == RETRY_MAX_ATTEMPTS - 1 && s.song != NO_SONG {
        LastRetryIsArtless(s, step);
      }
    } else if ReadsMedia(s, step) {
      var m := StepReads(s, step);
      MediaSendsArt(m, step.w);
      ArtlessThroughRead(s, m, HandleMedia(m, step.w), Next(s, step));
    } else if EnumeratesNothing(s, step) {
      StepEnumeratesNothing(s, step);
    } else {
      StepReadsNothing(s, step);
    }
  }

  lemma LastRetryIsArtless(s: State, step: Step)
    requires RunsMatchingRetry(s, step) && ReadFails(s, step.w)
    requires s.retryCount == RETRY_MAX_ATTEMPTS - 1 && s.song != NO_SONG
    ensures SendsArtless(s, Next(s, step))
  {
    var s1 := s.(queue := s.queue[1..]);
    ReadArtIgnores(s, step.w.art, None, s.queue[1..]);
    MatchingRetryOutcome(s1, s.queue[0].props, step.w);
    assert Artless(Next(s, step).emitted[|s.emitted|]);
  }

  lemma ArtlessThroughRead(s: State, m: State, r: State, t: State)
    requires OnlyOthers(s.emitted, m.emitted) && m.emitted <= r.emitted && OnlyOthers(r.emitted, t.emitted)
    ensures SendsArtless(s, t) ==> SendsArtless(m, r)
  {
    if SendsArtless(s, t) {
      var k :| |s.emitted| <= k < |t.emitted| && Artless(t.emitted[k]);
      assert |m.emitted| <= k < |r.emitted| && r.emitted[k] == t.emitted[k];
    }
  }

  // What is told, and how often

  /** Art that a read of the same song would announce: it is in a stream of another size than the
      cached one (whose size is zero after an empty session list), and has another length. */
  predicate OtherArt(s: State, read: ArtRead) {
    Readable(read) && read.size != s.thumbSize && (s.thumb.None? || |read.body.value.bytes| != |s.thumb.value|)
  }

  /** A media notification sends an event exactly when the song changed and its stream can be read, or
      the song stayed and there is art of another length in a stream of another size. */
  lemma MediaNotificationSendsIff(s: State, p: Props, w: World)
    requires Reachable(s) && s.session.Some? && w.media == Some(p)
    ensures |HandleMedia(s, w).emitted| > |s.emitted| <==>
              if EscapedSong(p) != s.song then Readable(w.art) else OtherArt(s, w.art)
  {
    ReachableHolds(s);
    MediaSends(s, w);
  }

  /** What a media read adds to the events. */
  lemma MediaSends(s: State, w: World)
    requires s.session.Some? && (s.thumbSize > 0 ==> s.thumb.Some?)
    ensures var t := HandleMedia(s, w);
            if (if w.media.None? then s.song != NO_SONG
                else if EscapedSong(w.media.value) != s.song then Readable(w.art) else OtherArt(s, w.art))
            then SendsOne(s, t) else t.emitted == s.emitted
  {
    if w.media.Some? {
      MediaDecides(s, w.media.value, w);
      BytesRead(s, w.media.value, w.art);
    }
  }

  ghost predicate SendsInfoFor(song: Song, before: seq<Event>, after: seq<Event>) {
    exists k :: |before| <= k < |after| && after[k].InfoEvent? && after[k].info.song == song
  }

  /** How often one song is told: a step that keeps the song sends another info event for it exactly
      when it runs a retry for it that does not reschedule, reads other art for it, or (when there
      is no song) enumerates an empty list. */
  lemma ToldAgainIff(s: State, step: Step)
    requires Reachable(s) && Next(s, step).song == s.song
    ensures SendsInfoFor(s.song, s.emitted, Next(s, step).emitted) <==>
              || (RunsMatchingRetry(s, step) && !Reschedules(s, step))
              || (ReadsMedia(s, step) && step.w.media.Some? && OtherArt(s, step.w.art))
              || EnumeratesNothing(s, step)
  {
    ReachableHolds(s);
    var t := Next(s, step);
    if RunsMatchingRetry(s, step) {
      RetryTellsOrReschedules(s, step);
      if !Reschedules(s, step) {
        assert t.emitted[|s.emitted|].InfoEvent?;
      }
    } else if ReadsMedia(s, step) {
      var m := StepReads(s, step);
      MediaCounter(m, step.w);
      MediaSends(m, step.w);
      InfoThroughRead(s.song, s.emitted, m.emitted, HandleMedia(m, step.w).emitted, t.emitted);
      SentByRead(m, HandleMedia(m, step.w));
    } else if EnumeratesNothing(s, step) {
      StepEnumeratesNothing(s, step);
      assert t.emitted[|s.emitted| + 1] == InfoEvent(EMPTY_INFO);
    } else {
      StepReadsNothing(s, step);
    }
  }

  lemma SentByRead(m: State, r: State)
    requires m.emitted <= r.emitted && |r.emitted| <= |m.emitted| + 1
    requires |r.emitted| > |m.emitted| ==>
        r.emitted[|m.emitted|].InfoEvent? && r.emitted[|m.emitted|].info.song == r.song
    ensures SendsInfoFor(r.song, m.emitted, r.emitted) <==> |r.emitted| > |m.emitted|
  {
  }

  lemma InfoThroughRead(song: Song, s: seq<Event>, m: seq<Event>, r: seq<Event>, t: seq<Event>)
    requires OnlyOthers(s, m) && m <= r && OnlyOthers(r, t)
    ensures SendsInfoFor(song, s, t) <==> SendsInfoFor(song, m, r)
  {
    if SendsInfoFor(song, s, t) {
      var k :| |s| <= k < |t| && t[k].InfoEvent? && t[k].info.song == song;
      assert |m| <= k < |r| && r[k] == t[k];
    }
    if SendsInfoFor(song, m, r) {
      var k :| |m| <= k < |r| && r[k].InfoEvent? && r[k].info.song == song;
      assert t[k] == r[k];
    }
  }

  /** Events are only ever added. */
  lemma EmittedGrows(s: State, step: Step)
    requires Inv(s)
    ensures s.emitted <= Next(s, step).emitted
  {
    if RunsMatchingRetry(s, step) {
      RetryTellsOrReschedules(s, step);
    } else if ReadsMedia(s, step) {
      var m := StepReads(s, step);
      MediaSends(m, step.w);
    } else if EnumeratesNothing(s, step) {
      StepEnumeratesNothing(s, step);
    } else {
      StepReadsNothing(s, step);
    }
  }

  // Selection

  /** Sessions and their objects stay parallel, some session is followed whenever there is one,
      it is the selected application's first session when that application is listed, and the
      last device event names it. */
  lemma SelectionIsSticky(s: State)
    requires Reachable(s)
    ensures |s.sessions| == |s.objects| && (s.session.None? <==> s.sessions == [])
    ensures var first := FirstIndex(s.sessions, s.selected);
            s.selected != "" && first.Some? ==>
              s.session == Some(s.objects[first.value]) && LastDevice(s.emitted) == Some(s.selected)
    ensures s.sessions != [] ==> exists i: nat | i < |s.sessions| ::
              s.session == Some(s.objects[i]) && LastDevice(s.emitted) == Some(s.sessions[i].appID)
  {
    ReachableHolds(s);
    if s.sessions != [] {
      var i: nat :| Follows(s, i);
      assert s.session == Some(s.objects[i]);
    }
  }

  // Progress

  /** The steps that read the timeline: the ticker, and a playback notification. */
  ghost predicate ReadsTimeline(s: State, step: Step) {
    || (step.Ticks? && s.started)
    || (step.Runs? && s.started && s.queue != [] && s.queue[0].PlaybackChanged?)
  }

  /** What was read of a timeline that is to be told: whole seconds, and the status as it is. */
  function Read(t: Timeline): (int, int, int) {
    if t.updated == 0 then (0, 0, t.status)
    else (TruncDiv(t.position, 10_000_000), TruncDiv(t.end, 10_000_000), t.status)
  }

  /** A step that reads the timeline of the followed session reports it exactly when position, duration
      or status differ from what the subscribers were last told (after the report for an empty list,
      from what the loop still holds); either way the loop then holds what was read. */
  lemma TimelineReadSendsIff(s: State, step: Step, t: Timeline)
    requires Reachable(s) && ReadsTimeline(s, step) && s.session.Some? && step.w.timeline == Some(t)
    ensures var u, told := Next(s, step), LastTold(s.emitted);
            && (u.position, u.duration, u.status) == Read(t)
            && (if Read(t) != (s.position, s.duration, told.status)
                then |u.emitted| == |s.emitted| + 1 && s.emitted <= u.emitted && u.emitted[|s.emitted|].ProgressEvent?
                     && Triple(u.emitted[|s.emitted|].progress) == Read(t)
                else u.emitted == s.emitted)
            && (!s.cleared ==> (u.emitted != s.emitted <==> Read(t) != Triple(told)))
  {
    ReachableHolds(s);
  }

  function Triple(p: ProgressData): (int, int, int) {
    (p.position, p.duration, p.status)
  }

  /** q is t in whole units, rounded toward zero. */
  predicate RoundedTowardZero(t: int, unit: int, q: int) {
    (t >= 0 ==> unit * q <= t < unit * (q + 1)) && (t <= 0 ==> unit * (q - 1) < t <= unit * q)
  }

  /** Both fields are whole seconds, rounded toward zero for either sign, and zero without a stamp. */
  lemma SecondsAreTruncated(t: Timeline)
    ensures var p := ProgressOf(t);
            if t.updated == 0 then p.position == 0 && p.duration == 0 && p.lastUpdated == 0
            else
              RoundedTowardZero(t.position, TICKS_PER_SECOND, p.position) &&
              RoundedTowardZero(t.end, TICKS_PER_SECOND, p.duration)
  {
  }

  /** Subscribers may be left with an outdated progress report: exactly when the last report was
      the one for an empty session list and a closed session comes back at the position and
      duration the loop never reset. */
  lemma OutdatedProgressIff(s: State, t: Timeline, w: World)
    requires Reachable(s) && s.session.Some? && w.timeline == Some(t)
    ensures var p := ProgressOf(t); var told := LastTold(ReadTimeline(s, w).emitted);
            (told.position, told.duration, told.status) != (p.position, p.duration, p.status) <==>
              s.cleared && (p.position, p.duration, p.status) == (s.position, s.duration, s.status)
                  && (s.position, s.duration) != (0, 0)
  {
    ReachableHolds(s);
    EmitFacts(s.emitted, ProgressEvent(ProgressOf(t)));
  }

  lemma ReachableStep(s: State, step: Step)
    requires Reachable(s)
    ensures Reachable(Next(s, step))
  {
    var device, steps :| s == Run(Init(device), steps);
    assert (steps + [step])[..|steps|] == steps;
    assert Run(Init(device), steps + [step]) == Next(s, step);
  }
}
