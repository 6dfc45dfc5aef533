/** The broadcast hub: one goroutine owns the set of connections and takes commands from a
    bounded queue. A broadcast is written connection by connection. */
module Hub {
  import opened Domain
  import opened Wire

  const HUB_CAPACITY := 64

  type ConnId = nat

  datatype Cmd = Add(c: ConnId) | Remove(c: ConnId) | Broadcast(m: Msg)

  /** A broadcast being written: the connections that still wait for it. */
  datatype Delivery = Delivery(msg: Msg, left: set<ConnId>)

  /** `log` and `done` are history: every command accepted so far, and how many were taken;
      so are the counts of broadcasts submitted and dropped. */
  datatype State = State(
    queue: seq<Cmd>, conns: set<ConnId>, busy: Option<Delivery>,
    log: seq<Cmd>, done: nat, submitted: nat, dropped: nat)

  function Init(): State {
    State([], {}, None, [], 0, 0, 0)
  }

  predicate HasRoom(h: State) {
    |h.queue| < HUB_CAPACITY
  }

  function Enqueue(h: State, cmd: Cmd): State {
    h.(queue := h.queue + [cmd], log := h.log + [cmd])
  }

  /** hub.Broadcast: dropped when the queue is full. */
  function Submit(h: State, m: Msg): State {
    var h1 := h.(submitted := h.submitted + 1);
    if HasRoom(h) then Enqueue(h1, Broadcast(m)) else h1.(dropped := h.dropped + 1)
  }

  /** hub.Remove: silently dropped when the queue is full. */
  function Leave(h: State, c: ConnId): State {
    if HasRoom(h) then Enqueue(h, Remove(c)) else h
  }

  predicate Idle(h: State) {
    h.busy.None? || h.busy.value.left == {}
  }

  function Take(h: State): State {
    if !Idle(h) || h.queue == [] then h
    else
      var h1 := h.(queue := h.queue[1..], done := h.done + 1, busy := None);
      match h.queue[0]
      case Add(c) => h1.(conns := h.conns + {c})
      case Remove(c) => h1.(conns := h.conns - {c})
      case Broadcast(m) => h1.(busy := Some(Delivery(m, h.conns)))
  }

  /** The message the hub is about to write to c, if any. */
  predicate Owes(h: State, c: ConnId) {
    h.busy.Some? && c in h.busy.value.left
  }

  function WriteTo(h: State, c: ConnId): State
    requires Owes(h, c)
  {
    h.(busy := Some(h.busy.value.(left := h.busy.value.left - {c})))
  }

  /** How many commands have taken full effect for c. */
  function Settled(h: State, c: ConnId): nat {
    if Owes(h, c) && h.done > 0 then h.done - 1 else h.done
  }

  // What a log of commands means

  function Members(log: seq<Cmd>): set<ConnId> {
    if log == [] then {}
    else
      var front := Members(log[..|log| - 1]);
      match log[|log| - 1]
      case Add(c) => front + {c}
      case Remove(c) => front - {c}
      case Broadcast(_) => front
  }

  function Broadcasts(log: seq<Cmd>): seq<Msg> {
    if log == [] then []
    else
      var front := Broadcasts(log[..|log| - 1]);
      match log[|log| - 1]
      case Broadcast(m) => front + [m]
      case _ => front
  }

  /** The broadcasts that came while c was a member. */
  function Delivered(log: seq<Cmd>, c: ConnId): seq<Msg> {
    if log == [] then []
    else
      var front := log[..|log| - 1];
      match log[|log| - 1]
      case Broadcast(m) => if c in Members(front) then Delivered(front, c) + [m] else Delivered(front, c)
      case _ => Delivered(front, c)
  }

  /** The commands the hub has taken. */
  function Processed(h: State): seq<Cmd> {
    if h.done <= |h.log| then h.log[..h.done] else h.log
  }

  ghost predicate Inv(h: State) {
    && h.done <= |h.log|
    && h.queue == h.log[h.done..]
    && |h.queue| <= HUB_CAPACITY
    && h.conns == Members(h.log[..h.done])
    && (h.busy.Some? ==> h.done > 0 && h.log[h.done - 1] == Broadcast(h.busy.value.msg) && h.busy.value.left <= h.conns)
    && h.submitted == |Broadcasts(h.log)| + h.dropped
  }

  lemma LogAppend(log: seq<Cmd>, cmd: Cmd, c: ConnId)
    ensures (log + [cmd])[..|log|] == log
    ensures Members(log + [cmd]) ==
              match cmd
              case Add(d) => Members(log) + {d}
              case Remove(d) => Members(log) - {d}
              case Broadcast(_) => Members(log)
    ensures Broadcasts(log + [cmd]) == if cmd.Broadcast? then Broadcasts(log) + [cmd.m] else Broadcasts(log)
    ensures Delivered(log + [cmd], c) ==
              if cmd.Broadcast? && c in Members(log) then Delivered(log, c) + [cmd.m] else Delivered(log, c)
  {
    assert (log + [cmd])[..|log|] == log;
  }

  lemma EnqueueKeeps(h: State, cmd: Cmd)
    requires Inv(h) && HasRoom(h)
    ensures Inv(Enqueue(h, cmd).(submitted := h.submitted + if cmd.Broadcast? then 1 else 0))
  {
    LogAppend(h.log, cmd, 0);
    assert (h.log + [cmd])[..h.done] == h.log[..h.done];
    assert (h.log + [cmd])[h.done..] == h.log[h.done..] + [cmd];
  }

  lemma SubmitKeeps(h: State, m: Msg)
    requires Inv(h)
    ensures Inv(Submit(h, m))
  {
    if HasRoom(h) {
      EnqueueKeeps(h, Broadcast(m));
    }
  }

  /** A broadcast of any kind is dropped exactly when the queue holds 64 commands; so is a removal. */
  lemma DroppedIff(h: State, m: Msg, c: ConnId)
    requires Inv(h)
    ensures var t := Submit(h, m);
            if |h.queue| == 64 then t.queue == h.queue && t.dropped == h.dropped + 1
            else t.queue == h.queue + [Broadcast(m)] && t.dropped == h.dropped
    ensures Leave(h, c).queue == if |h.queue| == 64 then h.queue else h.queue + [Remove(c)]
  {
  }

  lemma TakeKeeps(h: State)
    requires Inv(h)
    ensures Inv(Take(h))
  {
    if Idle(h) && h.queue != [] {
      TakenMembers(h);
      assert h.log[h.done + 1..] == h.queue[1..];
    }
  }

  lemma TakenMembers(h: State)
    requires Inv(h) && h.queue != []
    ensures h.log[h.done] == h.queue[0]
    ensures Members(h.log[..h.done + 1]) ==
              match h.queue[0]
              case Add(c) => h.conns + {c}
              case Remove(c) => h.conns - {c}
              case Broadcast(_) => h.conns
  {
    var cmd := h.queue[0];
    assert h.log[h.done] == cmd;
    assert h.log[..h.done + 1] == h.log[..h.done] + [cmd];
    LogAppend(h.log[..h.done], cmd, 0);
  }

  lemma WriteKeeps(h: State, c: ConnId)
    requires Inv(h) && Owes(h, c)
    ensures Inv(WriteTo(h, c))
  {
  }

  /** Every broadcast offered is taken, waiting or dropped, and counted once. */
  lemma HubConserves(h: State)
    requires Inv(h)
    ensures h.submitted == |Broadcasts(Processed(h))| + |Broadcasts(h.queue)| + h.dropped
  {
    BroadcastsConcat(h.log[..h.done], h.queue);
    assert h.log == h.log[..h.done] + h.queue;
  }

  lemma {:induction false} BroadcastsConcat(xs: seq<Cmd>, ys: seq<Cmd>)
    ensures Broadcasts(xs + ys) == Broadcasts(xs) + Broadcasts(ys)
    decreases |ys|
  {
    if ys == [] {
      assert xs + ys == xs;
    } else {
      assert (xs + ys)[..|xs + ys| - 1] == xs + ys[..|ys| - 1];
      BroadcastsConcat(xs, ys[..|ys| - 1]);
    }
  }

  // Delivery order

  /** c joins the log once, and is not removed before. */
  ghost predicate JoinsAt(log: seq<Cmd>, c: ConnId, a: nat) {
    && a < |log| && log[a] == Add(c)
    && (forall i | 0 <= i < |log| && log[i] == Add(c) :: i == a)
    && (forall i | 0 <= i < a :: log[i] != Remove(c))
  }

  /** The end of c's membership within the first k commands. */
  function EndOf(log: seq<Cmd>, c: ConnId, k: nat): (r: nat)
    requires k <= |log|
    ensures r <= k
    ensures forall i | 0 <= i < r :: log[i] != Remove(c)
    ensures r < k ==> log[r] == Remove(c)
  {
    if k == 0 then 0
    else
      var before := EndOf(log, c, k - 1);
      if before < k - 1 then before else if log[k - 1] == Remove(c) then k - 1 else k
  }

  lemma {:induction false} MemberIff(log: seq<Cmd>, c: ConnId, a: nat, k: nat)
    requires JoinsAt(log, c, a) && k <= |log|
    ensures c in Members(log[..k]) <==> a < k && EndOf(log, c, k) == k
  {
    if k > 0 {
      MemberIff(log, c, a, k - 1);
      assert log[..k][..k - 1] == log[..k - 1];
    }
  }

  /** What c was given by the first k commands. */
  function DeliveredBy(log: seq<Cmd>, c: ConnId, k: nat): seq<Msg>
    requires k <= |log|
  {
    Delivered(log[..k], c)
  }

  /** The broadcasts of a stretch of the log. */
  function Between(log: seq<Cmd>, a: nat, b: nat): seq<Msg>
    requires a <= b <= |log|
  {
    Broadcasts(log[a..b])
  }

  /** Whether the command before k is a broadcast that came while c was a member. */
  predicate Reaches(log: seq<Cmd>, c: ConnId, a: nat, k: nat)
    requires 0 < k <= |log|
  {
    log[k - 1].Broadcast? && a < k - 1 && EndOf(log, c, k - 1) == k - 1
  }

  lemma DeliveredStep(log: seq<Cmd>, c: ConnId, a: nat, k: nat)
    requires JoinsAt(log, c, a) && 0 < k <= |log|
    ensures DeliveredBy(log, c, k) == DeliveredBy(log, c, k - 1) + if Reaches(log, c, a, k) then [log[k - 1].m] else []
  {
    MemberIff(log, c, a, k - 1);
    assert log[..k] == log[..k - 1] + [log[k - 1]];
    LogAppend(log[..k - 1], log[k - 1], c);
  }

  lemma BetweenStep(log: seq<Cmd>, a: nat, k: nat)
    requires a < k <= |log|
    ensures Between(log, a, k) == Between(log, a, k - 1) + if log[k - 1].Broadcast? then [log[k - 1].m] else []
  {
    assert log[a..k] == log[a..k - 1] + [log[k - 1]];
    LogAppend(log[a..k - 1], log[k - 1], 0);
  }

  lemma SegmentStep(log: seq<Cmd>, c: ConnId, a: nat, k: nat)
    requires a < k - 1 && k <= |log| && a <= EndOf(log, c, k - 1)
    ensures a <= EndOf(log, c, k)
    ensures Between(log, a, EndOf(log, c, k)) ==
              Between(log, a, EndOf(log, c, k - 1)) + if Reaches(log, c, a, k) then [log[k - 1].m] else []
  {
    var e := EndOf(log, c, k);
    if e == k {
      BetweenStep(log, a, k);
    } else {
      assert e == EndOf(log, c, k - 1);
    }
  }

  lemma {:induction false} SegmentIs(log: seq<Cmd>, c: ConnId, a: nat, k: nat)
    requires JoinsAt(log, c, a) && k <= |log|
    ensures a <= EndOf(log, c, k) || k <= a
    ensures DeliveredBy(log, c, k) == if k <= a then [] else Between(log, a, EndOf(log, c, k))
  {
    if k <= a {
      NothingBefore(log, c, a, k);
    } else if k == a + 1 {
      NothingAtJoining(log, c, a);
    } else {
      SegmentIs(log, c, a, k - 1);
      DeliveredStep(log, c, a, k);
      SegmentStep(log, c, a, k);
    }
  }

  lemma NothingAtJoining(log: seq<Cmd>, c: ConnId, a: nat)
    requires JoinsAt(log, c, a)
    ensures DeliveredBy(log, c, a + 1) == [] && EndOf(log, c, a + 1) == a + 1 && Between(log, a, a + 1) == []
  {
    NothingBefore(log, c, a, a);
    DeliveredStep(log, c, a, a + 1);
    BetweenStep(log, a, a + 1);
    assert log[a..a] == [];
  }

  lemma {:induction false} NothingBefore(log: seq<Cmd>, c: ConnId, a: nat, k: nat)
    requires JoinsAt(log, c, a) && k <= a
    ensures DeliveredBy(log, c, k) == [] && EndOf(log, c, k) == k
  {
    if k > 0 {
      NothingBefore(log, c, a, k - 1);
      DeliveredStep(log, c, a, k);
    }
  }

  lemma DeliveredIsSegment(log: seq<Cmd>, c: ConnId, a: nat, k: nat)
    requires JoinsAt(log, c, a) && k <= |log|
    ensures a <= EndOf(log, c, k) || k <= a
    ensures Delivered(log[..k], c) == if k <= a then [] else Broadcasts(log[a..EndOf(log, c, k)])
  {
    SegmentIs(log, c, a, k);
  }

  /** What the hub writes to a connection is a contiguous segment of the broadcasts it processed:
      from its joining to its removal. Any two connections therefore agree on the order. */
  lemma DeliveryIsContiguous(log: seq<Cmd>, c: ConnId, a: nat, k: nat) returns (from: nat, to: nat)
    requires JoinsAt(log, c, a) && a < k <= |log|
    ensures from <= to <= |Broadcasts(log[..k])|
    ensures from == |Broadcasts(log[..a])| && to == |Broadcasts(log[..EndOf(log, c, k)])|
    ensures Delivered(log[..k], c) == Broadcasts(log[..k])[from..to]
  {
    DeliveredIsSegment(log, c, a, k);
    var e := EndOf(log, c, k);
    assert log[..e] == log[..a] + log[a..e];
    BroadcastsConcat(log[..a], log[a..e]);
    assert log[..k] == log[..e] + log[e..k];
    BroadcastsConcat(log[..e], log[e..k]);
    from, to := |Broadcasts(log[..a])|, |Broadcasts(log[..e])|;
  }

  // The newest info broadcast of a stretch of the log

  predicate IsInfo(cmd: Cmd) {
    cmd.Broadcast? && cmd.m.Info?
  }

  function NewestInfo(log: seq<Cmd>, from: nat, to: nat): Option<Msg>
    requires to <= |log|
  {
    if to <= from then None
    else if IsInfo(log[to - 1]) then Some(log[to - 1].m)
    else NewestInfo(log, from, to - 1)
  }

  lemma {:induction false} NewestInfoIs(log: seq<Cmd>, from: nat, to: nat, at: nat)
    requires at < |log| && to <= |log| && IsInfo(log[at]) && forall j | at < j < to :: !IsInfo(log[j])
    ensures from <= at < to ==> NewestInfo(log, from, to) == Some(log[at].m)
    ensures at < from ==> NewestInfo(log, from, to) == None
  {
    if to > from && to > at + 1 {
      NewestInfoIs(log, from, to - 1, at);
    }
  }

  lemma {:induction false} NewestInfoGrows(log: seq<Cmd>, cmd: Cmd, from: nat, to: nat)
    requires to <= |log|
    ensures NewestInfo(log + [cmd], from, to) == NewestInfo(log, from, to)
  {
    if to > from {
      NewestInfoGrows(log, cmd, from, to - 1);
    }
  }
}
