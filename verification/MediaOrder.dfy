/** What each step of the loop may tell its subscribers, and in which order. */
module MediaOrder {
  import opened Domain
  import opened MediaLoop
  import opened MediaInvariants
  import opened MediaTheorems
  import Names

  predicate IsOneInfo(events: seq<Event>) {
    |events| <= 1 && forall e | e in events :: e.InfoEvent?
  }

  predicate IsOneProgress(events: seq<Event>) {
    |events| <= 1 && forall e | e in events :: e.ProgressEvent?
  }

  ghost predicate HasArt(s: State) {
    s.thumbSize > 0 ==> s.thumb.Some?
  }

  lemma MediaAdds(m: State, w: World) returns (info: seq<Event>)
    requires HasArt(m)
    ensures HandleMedia(m, w).emitted == m.emitted + info && IsOneInfo(info)
  {
    info := [];
    if m.session.Some? {
      MediaSends(m, w);
      var t := HandleMedia(m, w);
      info := t.emitted[|m.emitted|..];
      assert t.emitted == m.emitted + info;
    }
  }

  /** Following a session tells its song before it tells its name. */
  lemma SwitchAdds(s: State, index: nat, w: World) returns (info: seq<Event>)
    requires HasArt(s) && index < |s.objects| == |s.sessions|
    ensures SwitchTo(s, index, w).emitted == s.emitted + info + [DeviceChangedEvent(s.sessions[index].appID)]
    ensures IsOneInfo(info)
  {
    var m := s.(session := Some(s.objects[index]));
    info := MediaAdds(m, w);
    MediaLeaves(m, w);
  }

  /** The new session list first, then at most one song, then whom the loop follows. */
  ghost predicate InOrder(before: seq<Event>, t: State, listed: bool, info: seq<Event>, followed: bool) {
    && IsOneInfo(info)
    && exists k: nat :: k < |t.sessions| && IsTold(before, t, listed, info, followed, k)
  }

  ghost predicate IsTold(before: seq<Event>, t: State, listed: bool, info: seq<Event>, followed: bool, k: nat)
    requires k < |t.sessions|
  {
    t.emitted == before + (if listed then [SessionsChangedEvent(t.sessions)] else []) + info
                 + (if followed then [DeviceChangedEvent(t.sessions[k].appID)] else [])
  }

  lemma EnumerateAdds(s: State, w: World) returns (info: seq<Event>)
    requires HasArt(s) && Usable(w.list) != []
    ensures InOrder(s.emitted, EnumerateSessions(s, w), true, info, true)
  {
    var usable := Usable(w.list);
    var sessions, objects := Names.Entries(AppIDs(usable), w.friendly), Handles(usable);
    var s1 := Emit(s.(sessions := sessions, objects := objects), SessionsChangedEvent(sessions));
    var k := Chosen(sessions, s.selected);
    ListLeaves(s, sessions, objects, w);
    info := SwitchAdds(s1, k, w);
    assert IsTold(s.emitted, EnumerateSessions(s, w), true, info, true, k);
  }

  lemma SelectAdds(s: State, appID: string, w: World) returns (info: seq<Event>)
    requires HasArt(s) && |s.sessions| == |s.objects| && FirstIndex(s.sessions, appID).Some?
    ensures InOrder(s.emitted, SelectDevice(s, appID, w), false, info, true)
  {
    var s1, k := s.(selected := appID), FirstIndex(s.sessions, appID).value;
    info := SwitchAdds(s1, k, w);
    SwitchLeaves(s1, k, w);
    assert s.emitted + [] + info == s.emitted + info;
    assert IsTold(s.emitted, SelectDevice(s, appID, w), false, info, true, k);
  }

  lemma NotificationAdds(s: State, w: World) returns (info: seq<Event>)
    requires HasArt(s) && |s.sessions| > 0
    ensures InOrder(s.emitted, HandleMedia(s, w), false, info, false)
  {
    info := MediaAdds(s, w);
    MediaLeaves(s, w);
    assert s.emitted + [] + info + [] == s.emitted + info;
    assert IsTold(s.emitted, HandleMedia(s, w), false, info, false, 0);
  }

  /** The steps that switch to a session. */
  ghost predicate Switches(s: State, step: Step) {
    Enumerates(s, step) || (step.Runs? && s.started && s.queue != [] && s.queue[0].Select?)
  }

  lemma ReadingAdds(s: State, step: Step) returns (info: seq<Event>)
    requires Inv(s) && ReadsMedia(s, step)
    ensures InOrder(s.emitted, Next(s, step), Enumerates(s, step), info, Switches(s, step))
  {
    if step.Start? {
      info := EnumerateAdds(s.(started := true), step.w);
    } else {
      var s1 := s.(queue := s.queue[1..]);
      match s.queue[0]
      case Enumerate => info := EnumerateAdds(s1, step.w);
      case Select(appID) => info := SelectAdds(s1, appID, step.w);
      case MediaChanged =>
        SomeSession(s);
        info := NotificationAdds(s1, step.w);
    }
  }

  lemma SomeSession(s: State)
    requires Inv(s) && s.session.Some?
    ensures |s.sessions| > 0
  {
  }

  lemma RetryAdds(s: State, step: Step) returns (news: seq<Event>)
    requires Inv(s) && RunsMatchingRetry(s, step)
    ensures Next(s, step).emitted == s.emitted + news && IsOneInfo(news)
  {
    RetryTellsOrReschedules(s, step);
    news := if Reschedules(s, step) then [] else [Next(s, step).emitted[|s.emitted|]];
  }

  /** What every step tells, over every run: a media read as above, an enumeration without a session an
      empty list, an empty song and a closed player, a matching retry at most one song, a timeline
      read that got an answer at most one progress report, and any other step nothing. */
  lemma StepTells(s: State, step: Step) returns (news: seq<Event>)
    requires Reachable(s)
    ensures if ReadsMedia(s, step)
            then InOrder(s.emitted, Next(s, step), Enumerates(s, step), news, Switches(s, step))
            else Next(s, step).emitted == s.emitted + news && IsNews(s, step, news)
  {
    ReachableHolds(s);
    if ReadsMedia(s, step) {
      news := ReadingAdds(s, step);
    } else {
      news := OtherStepTells(s, step);
    }
  }

  ghost predicate IsNews(s: State, step: Step, news: seq<Event>) {
    if EnumeratesNothing(s, step) then
      |news| == 3 && news[0].SessionsChangedEvent? && news[1].InfoEvent? && news[2].ProgressEvent?
    else if RunsMatchingRetry(s, step) then IsOneInfo(news)
    else if ReadsTimeline(s, step) && s.session.Some? && step.w.timeline.Some? then IsOneProgress(news)
    else news == []
  }

  lemma OtherStepTells(s: State, step: Step) returns (news: seq<Event>)
    requires Inv(s) && !ReadsMedia(s, step)
    ensures Next(s, step).emitted == s.emitted + news && IsNews(s, step, news)
  {
    if EnumeratesNothing(s, step) {
      StepEnumeratesNothing(s, step);
      news := [SessionsChangedEvent([]), InfoEvent(EMPTY_INFO), ProgressEvent(CLOSED_PROGRESS)];
    } else if RunsMatchingRetry(s, step) {
      news := RetryAdds(s, step);
    } else if ReadsTimeline(s, step) {
      news := TimelineAdds(if step.Ticks? then s else s.(queue := s.queue[1..]), step.w);
    } else {
      OtherTellsNothing(s, step);
      news := [];
    }
  }

  lemma TimelineAdds(s: State, w: World) returns (news: seq<Event>)
    ensures ReadTimeline(s, w).emitted == s.emitted + news && IsOneProgress(news)
    ensures s.session.None? || w.timeline.None? ==> news == []
  {
    news := if ReadTimeline(s, w).emitted == s.emitted then [] else [ProgressEvent(ProgressOf(w.timeline.value))];
  }

  lemma OtherTellsNothing(s: State, step: Step)
    requires !ReadsMedia(s, step) && !EnumeratesNothing(s, step) && !RunsMatchingRetry(s, step)
        && !ReadsTimeline(s, step)
    ensures Next(s, step).emitted == s.emitted
  {
  }
}
