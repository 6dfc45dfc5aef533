/** The heartbeat of one connection, on an ideal 30 second ticker. Times are nanoseconds since
    1970; the time of the last pong is kept in whole milliseconds. */
module Heartbeat {
  import opened Domain

  const NANOS_PER_MILLI := 1_000_000
  const SECOND := 1_000_000_000
  const INTERVAL := 30 * SECOND
  const TIMEOUT := 90 * SECOND

  /** `start` is when the ticker was made; `lastPong` is the exact time, which the code does not keep. */
  datatype State = State(start: int, ticks: nat, pongMilli: int, closedAt: Option<int>, lastPong: int)

  datatype Event = Pong(at: int) | Tick(at: int)

  function UnixMilli(t: int): int {
    t / NANOS_PER_MILLI
  }

  function Open(at: int, start: int): State {
    State(start, 0, UnixMilli(at), None, at)
  }

  function TickTime(s: State): int {
    s.start + INTERVAL * s.ticks
  }

  predicate Expired(pongMilli: int, now: int) {
    now - pongMilli * NANOS_PER_MILLI > TIMEOUT
  }

  /** A tick either closes the connection or pings it; after the close there are no more ticks. */
  function Next(s: State, e: Event): State {
    if s.closedAt.Some? then s
    else match e
      case Pong(at) => s.(pongMilli := UnixMilli(at), lastPong := at)
      case Tick(at) =>
        var s1 := s.(ticks := s.ticks + 1);
        if Expired(s.pongMilli, at) then s1.(closedAt := Some(at)) else s1
  }

  function Run(s: State, events: seq<Event>): State {
    if events == [] then s else Next(Run(s, events[..|events| - 1]), events[|events| - 1])
  }

  /** Clocks run forward, and ticks come exactly every interval. */
  ghost predicate Timely(s: State, events: seq<Event>) {
    events != [] ==>
      var front := events[..|events| - 1]; var e := events[|events| - 1]; var before := Run(s, front);
      && Timely(s, front)
      && before.lastPong <= e.at
      && (before.closedAt.None? ==>
            if e.Tick? then e.at == TickTime(before) + INTERVAL
                else TickTime(before) <= e.at <= TickTime(before) + INTERVAL)
  }

  predicate Started(open: int, start: int) {
    0 <= open <= start
  }

  lemma {:induction false} RunFacts(open: int, start: int, events: seq<Event>)
    requires Started(open, start) && Timely(Open(open, start), events)
    ensures var s := Run(Open(open, start), events);
            && s.start == start
            && s.pongMilli == UnixMilli(s.lastPong)
            && (s.closedAt.None? && s.ticks > 0 ==> !Expired(s.pongMilli, TickTime(s)))
            && (s.closedAt.Some? ==>
                s.ticks > 0 && s.closedAt.value == TickTime(s) && Expired(s.pongMilli, TickTime(s)))
            && (s.closedAt.Some? && s.ticks > 1 ==> !Expired(s.pongMilli, TickTime(s) - INTERVAL))
  {
    if events != [] {
      RunFacts(open, start, events[..|events| - 1]);
    }
  }

  /** When a connection is closed, it was silent for more than 90 seconds (up to the truncated
      millisecond) and for at most 120 seconds, or the very first tick found it that old. */
  lemma CloseTimeBounds(open: int, start: int, events: seq<Event>)
    requires Started(open, start) && Timely(Open(open, start), events)
    requires Run(Open(open, start), events).closedAt.Some?
    ensures var s := Run(Open(open, start), events); var at := s.closedAt.value;
            && s.lastPong + TIMEOUT - NANOS_PER_MILLI < at
            && (at <= s.lastPong + TIMEOUT + INTERVAL || (s.ticks == 1 && at == start + INTERVAL))
  {
    RunFacts(open, start, events);
  }

  /** Ticks without a pong, from a state on. */
  function Silence(s: State, n: nat): State {
    if n == 0 then s else var before := Silence(s, n - 1); Next(before, Tick(TickTime(before) + INTERVAL))
  }

  lemma {:induction false} SilenceFacts(s: State, n: nat)
    requires s.closedAt.None? && s.pongMilli == UnixMilli(s.lastPong)
    ensures var t := Silence(s, n);
            && t.start == s.start && t.lastPong == s.lastPong && t.pongMilli == s.pongMilli
            && (t.closedAt.None? ==> t.ticks == s.ticks + n && (n > 0 ==> !Expired(t.pongMilli, TickTime(t))))
            && (t.closedAt.Some? ==> s.ticks < t.ticks <= s.ticks + n && t.closedAt.value == TickTime(t))
            && (t.closedAt.Some? && t.ticks > s.ticks + 1 ==> !Expired(t.pongMilli, TickTime(t) - INTERVAL))
  {
    if n > 0 {
      SilenceFacts(s, n - 1);
    }
  }

  /** A connection silent since its last pong is closed by the tick that comes 120 seconds
      after it at the latest (or by its first tick, when opening took longer than that). */
  lemma SilentIsClosed(open: int, start: int, events: seq<Event>, n: nat)
    requires Started(open, start) && Timely(Open(open, start), events)
    requires Run(Open(open, start), events).closedAt.None?
    requires var s := Run(Open(open, start), events); n > 0 && TickTime(s) + INTERVAL * n > s.lastPong + TIMEOUT
    ensures var s := Run(Open(open, start), events); var t := Silence(s, n);
            && t.closedAt.Some?
            && s.lastPong + TIMEOUT - NANOS_PER_MILLI < t.closedAt.value
            && (t.closedAt.value <= s.lastPong + TIMEOUT + INTERVAL || t.closedAt.value == start + INTERVAL)
  {
    RunFacts(open, start, events);
    SilentStateCloses(Run(Open(open, start), events), n);
  }

  lemma SilentStateCloses(s: State, n: nat)
    requires s.closedAt.None? && s.pongMilli == UnixMilli(s.lastPong)
    requires s.ticks > 0 ==> !Expired(s.pongMilli, TickTime(s))
    requires n > 0 && TickTime(s) + INTERVAL * n > s.lastPong + TIMEOUT
    ensures var t := Silence(s, n);
            && t.closedAt.Some?
            && s.lastPong + TIMEOUT - NANOS_PER_MILLI < t.closedAt.value
            && (t.closedAt.value <= s.lastPong + TIMEOUT + INTERVAL || t.closedAt.value == s.start + INTERVAL)
  {
    SilenceFacts(s, n);
    SilenceCloses(s, n);
    var t := Silence(s, n);
    ExpiryTimes(s.lastPong, TickTime(t));
    if t.ticks == s.ticks + 1 {
      assert TickTime(t) == TickTime(s) + INTERVAL;
    }
  }

  /** The truncation to milliseconds moves an expiry by less than one of them. */
  lemma ExpiryTimes(pong: int, at: int)
    ensures Expired(UnixMilli(pong), at) ==> pong + TIMEOUT - NANOS_PER_MILLI < at
    ensures !Expired(UnixMilli(pong), at - INTERVAL) ==> at <= pong + TIMEOUT + INTERVAL
    ensures at <= pong + TIMEOUT - NANOS_PER_MILLI ==> !Expired(UnixMilli(pong), at)
  {
  }

  lemma {:induction false} SilenceCloses(s: State, n: nat)
    requires s.closedAt.None? && s.pongMilli == UnixMilli(s.lastPong)
    ensures var t := Silence(s, n);
            && (n > 0 && TickTime(s) + INTERVAL * n > s.lastPong + TIMEOUT ==> t.closedAt.Some?)
            && (t.closedAt.Some? ==> Expired(t.pongMilli, TickTime(t)))
  {
    if n > 0 {
      SilenceCloses(s, n - 1);
      SilenceFacts(s, n - 1);
      SilenceFacts(s, n);
    }
  }

  // Clients that answer

  /** Whenever a tick comes `limit` or more after a ping, that ping has been answered. */
  ghost predicate Answers(events: seq<Event>, limit: int) {
    forall i, j | 0 <= i < j < |events| && events[i].Tick? && events[j].Tick? && events[j].at >= events[i].at + limit ::
      AnsweredBetween(events, i, j)
  }

  ghost predicate AnsweredBetween(events: seq<Event>, i: nat, j: nat)
    requires i < j < |events|
  {
    exists k | i < k < j :: events[k].Pong? && events[k].at >= events[i].at
  }

  lemma {:induction false} PongsCount(s: State, events: seq<Event>, k: nat)
    requires Timely(s, events) && Run(s, events).closedAt.None?
    requires k < |events| && events[k].Pong?
    ensures Run(s, events).lastPong >= events[k].at
  {
    var front := events[..|events| - 1];
    if k < |front| {
      PongsCount(s, front, k);
    }
  }

  lemma {:induction false} TickIndex(s: State, events: seq<Event>, m: nat) returns (i: nat)
    requires Timely(s, events) && Run(s, events).closedAt.None? && s.ticks == 0
    requires 1 <= m <= Run(s, events).ticks
    ensures i < |events| && events[i] == Tick(s.start + INTERVAL * m)
  {
    var front := events[..|events| - 1];
    RunStart(s, front);
    if m <= Run(s, front).ticks {
      i := TickIndex(s, front, m);
    } else {
      i := |front|;
    }
  }

  lemma {:induction false} RunStart(s: State, events: seq<Event>)
    ensures Run(s, events).start == s.start
  {
    if events != [] {
      RunStart(s, events[..|events| - 1]);
    }
  }

  /** The first tick comes 30 seconds after the ticker was made; opening may take as long again,
      counted from the millisecond the code keeps. */
  predicate OpenedInTime(open: int, start: int) {
    start - UnixMilli(open) * NANOS_PER_MILLI <= INTERVAL
  }

  /** A client that answers every ping within 60 seconds is never closed, however long it stays. */
  lemma {:induction false} ResponsiveStaysOpen(open: int, start: int, events: seq<Event>)
    requires Started(open, start) && OpenedInTime(open, start)
    requires Timely(Open(open, start), events) && Answers(events, 60 * SECOND)
    ensures Run(Open(open, start), events).closedAt.None?
  {
    if events != [] {
      var s := Open(open, start);
      var front, e := events[..|events| - 1], events[|events| - 1];
      FrontAnswers(events);
      ResponsiveStaysOpen(open, start, front);
      var before := Run(s, front);
      RunFacts(open, start, front);
      assert events == front + [e];
      if e.Tick? {
        if before.ticks >= 2 {
          EarlierPingAnswered(s, front, e);
          ExpiryTimes(before.lastPong, e.at);
        } else {
          OpeningCounts(open, start, front);
          MillisGrow(open, before.lastPong);
        }
      }
    }
  }

  lemma MillisGrow(a: int, b: int)
    requires a <= b
    ensures UnixMilli(a) * NANOS_PER_MILLI <= UnixMilli(b) * NANOS_PER_MILLI
  {
  }

  /** The bound on opening is exact: beyond it, whatever the times, a client that owes no answer yet is
      closed by its second tick at the latest. */
  lemma SlowOpeningIsClosed(open: int, start: int) returns (events: seq<Event>)
    requires Started(open, start) && !OpenedInTime(open, start)
    ensures Timely(Open(open, start), events) && Answers(events, 60 * SECOND)
    ensures Run(Open(open, start), events).closedAt.Some?
  {
    var s := Open(open, start);
    events := [Tick(start + INTERVAL), Tick(start + 2 * INTERVAL)];
    assert Run(s, events[..0]) == s && Timely(s, events[..0]);
    OneMore(s, events, 0, s);
    OneMore(s, events, 1, Next(s, events[0]));
    assert events[..2] == events;
  }

  lemma FrontAnswers(events: seq<Event>)
    requires events != [] && Answers(events, 60 * SECOND)
    ensures Answers(events[..|events| - 1], 60 * SECOND)
  {
    var front := events[..|events| - 1];
    forall i, j | 0 <= i < j < |front| && front[i].Tick? && front[j].Tick? && front[j].at >= front[i].at + 60 * SECOND
      ensures AnsweredBetween(front, i, j)
    {
      assert AnsweredBetween(events, i, j);
      var k :| i < k < j && events[k].Pong? && events[k].at >= events[i].at;
      assert front[k] == events[k];
    }
  }

  lemma PongAfter(events: seq<Event>, i: nat, j: nat) returns (k: nat)
    requires Answers(events, 60 * SECOND) && i < j < |events| && events[i].Tick? && events[j].Tick?
    requires events[j].at >= events[i].at + 60 * SECOND
    ensures i < k < j && events[k].Pong? && events[k].at >= events[i].at
  {
    assert AnsweredBetween(events, i, j);
    k :| i < k < j && events[k].Pong? && events[k].at >= events[i].at;
  }

  /** At its third tick and later, an answering client has ponged within the last 60 seconds. */
  lemma EarlierPingAnswered(s: State, front: seq<Event>, e: Event)
    requires Timely(s, front + [e]) && Answers(front + [e], 60 * SECOND) && s.ticks == 0
    requires Run(s, front).closedAt.None? && Run(s, front).ticks >= 2 && e.Tick?
    ensures Run(s, front).lastPong >= e.at - 60 * SECOND
  {
    LastTick(s, front, e);
    var i := TickBefore(s, front);
    PongSince(s, front, e, i);
  }

  lemma LastTick(s: State, front: seq<Event>, e: Event)
    requires Timely(s, front + [e]) && Run(s, front).closedAt.None? && e.Tick?
    ensures Timely(s, front) && e.at == TickTime(Run(s, front)) + INTERVAL
  {
    assert (front + [e])[..|front|] == front;
    LastIsTimely(s, front + [e]);
  }

  lemma LastIsTimely(s: State, events: seq<Event>)
    requires events != [] && Timely(s, events)
    ensures var front := events[..|events| - 1]; var e := events[|events| - 1]; var before := Run(s, front);
            Timely(s, front) && (before.closedAt.None? && e.Tick? ==> e.at == TickTime(before) + INTERVAL)
  {
  }

  /** The last tick but one. */
  lemma TickBefore(s: State, events: seq<Event>) returns (i: nat)
    requires Timely(s, events) && Run(s, events).closedAt.None? && s.ticks == 0 && Run(s, events).ticks >= 2
    ensures i < |events| && events[i] == Tick(TickTime(Run(s, events)) - INTERVAL)
  {
    RunStart(s, events);
    i := TickIndex(s, events, Run(s, events).ticks - 1);
  }

  lemma PongSince(s: State, front: seq<Event>, e: Event, i: nat)
    requires Timely(s, front) && Answers(front + [e], 60 * SECOND) && Run(s, front).closedAt.None?
    requires i < |front| && front[i].Tick? && e.Tick? && e.at >= front[i].at + 60 * SECOND
    ensures Run(s, front).lastPong >= front[i].at
  {
    var events := front + [e];
    assert events[i] == front[i] && events[|front|] == e;
    var k := PongAfter(events, i, |front|);
    assert front[k] == events[k];
    PongsCount(s, front, k);
  }

  lemma {:induction false} OpeningCounts(open: int, start: int, events: seq<Event>)
    requires Started(open, start) && Timely(Open(open, start), events)
    ensures Run(Open(open, start), events).lastPong >= open
  {
    if events != [] {
      OpeningCounts(open, start, events[..|events| - 1]);
    }
  }

  lemma OneMore(s: State, events: seq<Event>, i: nat, before: State)
    requires i < |events| && Timely(s, events[..i]) && Run(s, events[..i]) == before
    requires before.lastPong <= events[i].at
    requires before.closedAt.None? ==>
               if events[i].Tick? then events[i].at == TickTime(before) + INTERVAL
               else TickTime(before) <= events[i].at <= TickTime(before) + INTERVAL
    ensures Timely(s, events[..i + 1]) && Run(s, events[..i + 1]) == Next(before, events[i])
  {
    assert events[..i + 1][..i] == events[..i];
  }

  /** Sixty seconds cannot be relaxed, not even by a nanosecond: this client answers its first ping at
      once and its second one just after the tick that closes it. */
  lemma SixtySecondsIsTight() returns (open: int, start: int, events: seq<Event>)
    ensures Started(open, start) && OpenedInTime(open, start)
    ensures Timely(Open(open, start), events) && Answers(events, 60 * SECOND + 1)
    ensures Run(Open(open, start), events).closedAt.Some?
  {
    open, start := 500_000, 500_000;
    var t := start + INTERVAL;
    events := [Tick(t), Pong(t), Tick(t + INTERVAL), Tick(t + 2 * INTERVAL), Tick(t + 3 * INTERVAL)];
    var s := Open(open, start);
    assert Run(s, events[..0]) == s && Timely(s, events[..0]);
    OneMore(s, events, 0, s);
    OneMore(s, events, 1, s.(ticks := 1));
    OneMore(s, events, 2, State(start, 1, UnixMilli(t), None, t));
    OneMore(s, events, 3, State(start, 2, UnixMilli(t), None, t));
    OneMore(s, events, 4, State(start, 3, UnixMilli(t), None, t));
    assert events[..5] == events;
    assert AnsweredBetween(events, 0, 3) && AnsweredBetween(events, 0, 4) by { assert events[1].Pong?; }
  }

  // The object

  class HeartbeatState {
    var lastPongUnixMilli: int

    constructor (now: int)
      ensures lastPongUnixMilli == UnixMilli(now)
    {
      lastPongUnixMilli := UnixMilli(now);
    }

    method Touch(now: int)
      modifies this
      ensures lastPongUnixMilli == UnixMilli(now)
    {
      lastPongUnixMilli := UnixMilli(now);
    }

    /** What the ticker loop decides: close the connection instead of pinging it. */
    method OnTick(now: int) returns (close: bool)
      ensures forall s: State | s.closedAt.None? && s.pongMilli == lastPongUnixMilli ::
                (close <==> Next(s, Tick(now)).closedAt == Some(now))
    {
      var lastPong := lastPongUnixMilli * NANOS_PER_MILLI;
      close := now - lastPong > TIMEOUT;
    }
  }
}
