/** The session list and the followed session, in terms of what the system listed. */
module MediaLists {
  import opened Domain
  import opened MediaLoop
  import opened MediaInvariants
  import opened MediaTheorems
  import Names

  /** A session that can be used: it answered with an application, or failed for no known reason. */
  predicate Answering(r: RawSession) {
    r.Named? || r.Nameless?
  }

  function IdOf(r: RawSession): string
    requires Answering(r)
  {
    if r.Named? then r.appID else ""
  }

  /** Entry i of both lists comes from the session at at[i] of what the system listed: in the system's
      order, and with every session that answered. */
  ghost predicate Mirrors(list: seq<RawSession>, sessions: seq<SessionInfo>, objects: seq<Handle>, at: seq<nat>) {
    && |at| == |sessions| == |objects|
    && (forall i, j | 0 <= i < j < |at| :: at[i] < at[j])
    && (forall i | 0 <= i < |at| ::
          at[i] < |list| && Answering(list[at[i]]) && EntryOf(list[at[i]], sessions[i], objects[i]))
    && (forall k | 0 <= k < |list| && Answering(list[k]) :: k in at)
  }

  predicate EntryOf(r: RawSession, info: SessionInfo, handle: Handle)
    requires Answering(r)
  {
    info.appID == IdOf(r) && info.sourceAppID == IdOf(r) && handle == r.handle
  }

  /** The positions of the sessions that answered. */
  function Positions(list: seq<RawSession>): seq<nat> {
    if list == [] then []
    else Positions(list[..|list| - 1]) + if Answering(list[|list| - 1]) then [|list| - 1] else []
  }

  ghost predicate ArePositions(list: seq<RawSession>, at: seq<nat>) {
    && (forall i, j | 0 <= i < j < |at| :: at[i] < at[j])
    && (forall i | 0 <= i < |at| :: at[i] < |list| && Answering(list[at[i]]))
    && (forall k | 0 <= k < |list| && Answering(list[k]) :: k in at)
  }

  lemma OneMorePosition(front: seq<RawSession>, at: seq<nat>, last: RawSession)
    requires ArePositions(front, at)
    ensures ArePositions(front + [last], at + if Answering(last) then [|front|] else [])
  {
    var list, longer := front + [last], at + if Answering(last) then [|front|] else [];
    forall k | 0 <= k < |list| && Answering(list[k]) ensures k in longer {
      if k < |front| {
        assert k in at;
      } else {
        assert longer[|at|] == k;
      }
    }
  }

  lemma {:induction false} PositionsAre(list: seq<RawSession>)
    ensures ArePositions(list, Positions(list))
  {
    if list != [] {
      var front, last := list[..|list| - 1], list[|list| - 1];
      PositionsAre(front);
      OneMorePosition(front, Positions(front), last);
      assert front + [last] == list;
    }
  }

  /** The loop collects exactly those. */
  ghost predicate Collected(list: seq<RawSession>, at: seq<nat>, usable: seq<(string, Handle)>) {
    && |at| == |usable|
    && forall i | 0 <= i < |at| ::
         at[i] < |list| && Answering(list[at[i]]) && usable[i] == (IdOf(list[at[i]]), list[at[i]].handle)
  }

  lemma {:induction false} UsableIs(list: seq<RawSession>)
    ensures Collected(list, Positions(list), Usable(list))
  {
    if list != [] {
      UsableIs(list[..|list| - 1]);
    }
  }

  lemma EntriesMirror(list: seq<RawSession>, friendly: string -> string)
    ensures Mirrors(list, Names.Entries(AppIDs(Usable(list)), friendly), Handles(Usable(list)), Positions(list))
  {
    PositionsAre(list);
    UsableIs(list);
  }

  // Over runs

  /** What the system listed at the last enumeration of a run. */
  ghost function LastListing(device: string, steps: seq<Step>): seq<RawSession> {
    if steps == [] then []
    else
      var front := steps[..|steps| - 1];
      ListingAfter(Run(Init(device), front), steps[|steps| - 1], LastListing(device, front))
  }

  ghost function ListingAfter(s: State, step: Step, before: seq<RawSession>): seq<RawSession> {
    if Enumerates(s, step) then step.w.list else before
  }

  lemma EnumerationLists(s: State, w: World)
    ensures var t := EnumerateSessions(s, w);
            && t.sessions == Names.Entries(AppIDs(Usable(w.list)), w.friendly) && t.objects == Handles(Usable(w.list))
            && s.emitted + [SessionsChangedEvent(t.sessions)] <= t.emitted
  {
    var usable := Usable(w.list);
    ListLeaves(s, Names.Entries(AppIDs(usable), w.friendly), Handles(usable), w);
  }

  lemma EnumeratedIs(s: State, step: Step)
    requires Enumerates(s, step)
    ensures Next(s, step) == EnumerateSessions(Prepared(s, step), step.w) && Prepared(s, step).emitted == s.emitted
    ensures Prepared(s, step).selected == s.selected
  {
  }

  /** The state in which an enumeration begins. */
  ghost function Prepared(s: State, step: Step): State
    requires Enumerates(s, step)
  {
    if step.Start? then s.(started := true) else s.(queue := s.queue[1..])
  }

  lemma OtherStepKeepsLists(s: State, step: Step)
    requires !Enumerates(s, step)
    ensures Next(s, step).sessions == s.sessions && Next(s, step).objects == s.objects
  {
    if step.Runs? && s.started && s.queue != [] {
      var s1 := s.(queue := s.queue[1..]);
      match s.queue[0]
      case Retry(song, props) => RetryLeaves(s1, song, props, step.w);
      case MediaChanged => MediaLeaves(s1, step.w);
      case Select(appID) =>
        var s2 := s1.(selected := appID);
        if FirstIndex(s2.sessions, appID).Some? {
          SwitchLeaves(s2, FirstIndex(s2.sessions, appID).value, step.w);
        }
      case _ =>
    }
  }

  /** On every run the lists are those of the last enumeration, entry by entry. */
  lemma {:induction false} ListsMirrorSystem(device: string, steps: seq<Step>) returns (at: seq<nat>)
    ensures var s := Run(Init(device), steps); Mirrors(LastListing(device, steps), s.sessions, s.objects, at)
  {
    if steps == [] {
      at := [];
    } else {
      var front, last := steps[..|steps| - 1], steps[|steps| - 1];
      var s := Run(Init(device), front);
      at := ListsMirrorSystem(device, front);
      if Enumerates(s, last) {
        EnumeratedIs(s, last);
        EnumerationLists(Prepared(s, last), last.w);
        EntriesMirror(last.w.list, last.w.friendly);
        at := Positions(last.w.list);
      } else {
        OtherStepKeepsLists(s, last);
      }
    }
  }

  /** Session k is the first of the listing with this application. */
  ghost predicate IsFirstOf(list: seq<RawSession>, appID: string, k: nat) {
    && k < |list| && list[k].Named? && list[k].appID == appID
    && forall j | 0 <= j < k && list[j].Named? :: list[j].appID != appID
  }

  lemma FirstIsFirst(list: seq<RawSession>, sessions: seq<SessionInfo>, objects: seq<Handle>, at: seq<nat>,
      appID: string, k: nat)
    requires Mirrors(list, sessions, objects, at) && appID != "" && IsFirstOf(list, appID, k)
    ensures var first := FirstIndex(sessions, appID); first.Some? && objects[first.value] == list[k].handle
  {
    assert k in at;
    var i :| 0 <= i < |at| && at[i] == k;
    var first := FirstIndex(sessions, appID);
    assert sessions[i].appID == appID;
    assert EntryOf(list[at[first.value]], sessions[first.value], objects[first.value]);
    assert list[at[first.value]].Named?;
  }

  /** On every run: while the selected application is in the system's list, the session that is followed is
      its own first session there, and the last device event names it. */
  lemma SelectedIsFollowed(device: string, steps: seq<Step>, k: nat)
    requires var s := Run(Init(device), steps); s.selected != "" && IsFirstOf(LastListing(device, steps), s.selected, k)
    ensures var s := Run(Init(device), steps);
            s.session == Some(LastListing(device, steps)[k].handle) && LastDevice(s.emitted) == Some(s.selected)
  {
    var s := Run(Init(device), steps);
    var at := ListsMirrorSystem(device, steps);
    FirstIsFirst(LastListing(device, steps), s.sessions, s.objects, at, s.selected, k);
    SelectionIsSticky(s);
  }

  /** On every run the followed session is one that answered in the last listing, and the last device event
      names that session's application; no session is followed only when none answered. */
  lemma FollowedIsListed(device: string, steps: seq<Step>) returns (k: nat)
    ensures var s, list := Run(Init(device), steps), LastListing(device, steps);
            if exists r | r in list :: Answering(r)
            then k < |list| && Answering(list[k]) && s.session == Some(list[k].handle)
                && LastDevice(s.emitted) == Some(IdOf(list[k]))
            else s.session == None
  {
    var s, list := Run(Init(device), steps), LastListing(device, steps);
    var at := ListsMirrorSystem(device, steps);
    SelectionIsSticky(s);
    k := 0;
    if s.sessions != [] {
      var i: nat :| i < |s.sessions| && s.session == Some(s.objects[i])
          && LastDevice(s.emitted) == Some(s.sessions[i].appID);
      k := at[i];
      assert EntryOf(list[k], s.sessions[i], s.objects[i]);
      assert list[k] in list;
    } else {
      forall j | 0 <= j < |list| ensures !Answering(list[j]) {
        assert j !in at;
      }
    }
  }

  function IdsOf(sessions: seq<SessionInfo>): seq<string> {
    seq(|sessions|, i requires 0 <= i < |sessions| => sessions[i].appID)
  }

  lemma IdsOfEntries(ids: seq<string>, friendly: string -> string)
    ensures IdsOf(Names.Entries(ids, friendly)) == ids
  {
  }

  /** What an enumeration tells, and whom it follows by default: the list with its numbered names first;
      and the first session that answered, when the selected application is not listed. */
  lemma EnumerationTells(s: State, step: Step, k: nat)
    requires Enumerates(s, step)
    requires k < |step.w.list| && Answering(step.w.list[k]) && forall j | 0 <= j < k :: !Answering(step.w.list[j])
    ensures var t := Next(s, step);
            && |t.emitted| > |s.emitted| && t.emitted[|s.emitted|] == SessionsChangedEvent(t.sessions)
            && t.sessions == Names.Entries(IdsOf(t.sessions), step.w.friendly)
            && (s.selected == "" || (forall r | r in step.w.list && r.Named? :: r.appID != s.selected) ==>
                  t.session == Some(step.w.list[k].handle))
  {
    var s1, list := Prepared(s, step), step.w.list;
    var sessions, objects := Names.Entries(AppIDs(Usable(list)), step.w.friendly), Handles(Usable(list));
    EnumeratedIs(s, step);
    EnumerationLists(s1, step.w);
    EntriesMirror(list, step.w.friendly);
    var t := Next(s, step);
    assert t.emitted[|s.emitted|] == SessionsChangedEvent(t.sessions);
    IdsOfEntries(AppIDs(Usable(list)), step.w.friendly);
    FirstAnswers(list, sessions, objects, Positions(list), k);
    if s.selected == "" || (forall r | r in list && r.Named? :: r.appID != s.selected) {
      Unlisted(list, sessions, objects, Positions(list), s.selected);
      FollowsFirst(s1, sessions, objects, step.w);
    }
  }

  lemma NoneUsable(list: seq<RawSession>)
    requires forall r | r in list :: !Answering(r)
    ensures Usable(list) == []
  {
    PositionsAre(list);
    UsableIs(list);
    forall k | 0 <= k < |list| ensures !Answering(list[k]) {
      assert list[k] in list;
    }
  }

  /** An enumeration without an answering session lists and follows none, and tells an empty list, an empty
      song and a closed player; position, duration and the timers stay as they are. */
  lemma EmptyListTells(s: State, step: Step)
    requires Enumerates(s, step) && forall r | r in step.w.list :: !Answering(r)
    ensures var t := Next(s, step);
            && t.sessions == [] && t.objects == [] && t.session.None?
            && t.song == Song("", "") && t.status == 0 && t.thumbSize == 0
            && t.position == s.position && t.duration == s.duration && t.timers == s.timers
            && t.emitted == s.emitted + [SessionsChangedEvent([]),
                 InfoEvent(InfoData(Song("", ""), "", [], "", "", 0, "")),
                 ProgressEvent(ProgressData(0, 0, 0, 0.0, None, 0, 0))]
  {
    NoneUsable(step.w.list);
    EmptyEnumeration(Prepared(s, step), step.w);
    StepEnumeratesNothing(s, step);
  }

  lemma FirstAnswers(list: seq<RawSession>, sessions: seq<SessionInfo>, objects: seq<Handle>, at: seq<nat>, k: nat)
    requires Mirrors(list, sessions, objects, at)
    requires k < |list| && Answering(list[k]) && forall j | 0 <= j < k :: !Answering(list[j])
    ensures |objects| > 0 && objects[0] == list[k].handle
  {
    assert k in at;
    var i :| 0 <= i < |at| && at[i] == k;
    assert Answering(list[at[0]]);
    assert EntryOf(list[at[0]], sessions[0], objects[0]);
  }

  lemma Unlisted(list: seq<RawSession>, sessions: seq<SessionInfo>, objects: seq<Handle>, at: seq<nat>, appID: string)
    requires Mirrors(list, sessions, objects, at)
    requires appID == "" || (forall r | r in list && r.Named? :: r.appID != appID)
    ensures Chosen(sessions, appID) == 0
  {
    forall i | 0 <= i < |sessions| ensures appID == "" || sessions[i].appID != appID {
      assert EntryOf(list[at[i]], sessions[i], objects[i]);
      assert list[at[i]] in list;
    }
  }

  lemma FollowsFirst(s: State, sessions: seq<SessionInfo>, objects: seq<Handle>, w: World)
    requires sessions != [] && objects != [] && Chosen(sessions, s.selected) == 0
    ensures ApplyList(s, sessions, objects, w).session == Some(objects[0])
  {
    var s1 := Emit(s.(sessions := sessions, objects := objects), SessionsChangedEvent(sessions));
    MediaLeaves(s1.(session := Some(objects[0])), w);
  }
}
