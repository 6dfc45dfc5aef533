/** The lossy fan-out: every subscriber has a bounded buffer and a drop counter. */
module FanOut {
  import opened Domain

  /** One subscription. `waiting` is a receiver blocked on the empty channel;
      `taken` and `sent` are history. */
  datatype Sub = Sub(cap: nat, buf: seq<Event>, waiting: bool, dropped: nat, taken: seq<Event>, sent: seq<Event>)

  function NewSub(bufSize: int): Sub {
    Sub(if bufSize < 0 then 0 else bufSize, [], false, 0, [], [])
  }

  /** A non-blocking send: to the waiting receiver, into the buffer, or nowhere. */
  function Push(s: Sub, e: Event): Sub {
    var s1 := s.(sent := s.sent + [e]);
    if s.waiting then s1.(taken := s.taken + [e], waiting := false)
    else if |s.buf| < s.cap then s1.(buf := s.buf + [e])
    else s1.(dropped := s.dropped + 1)
  }

  /** A receive: the oldest event, or the receiver waits. */
  function Take(s: Sub): Sub {
    if s.buf == [] then s.(waiting := true) else s.(taken := s.taken + [s.buf[0]], buf := s.buf[1..])
  }

  /** xs is what remains of ys after leaving some entries out. */
  predicate Subsequence(xs: seq<Event>, ys: seq<Event>) {
    xs == [] ||
    (ys != [] &&
     var front := ys[..|ys| - 1];
     (Subsequence(xs, front) || (xs[|xs| - 1] == ys[|ys| - 1] && Subsequence(xs[..|xs| - 1], front))))
  }

  lemma SubsequenceAppend(xs: seq<Event>, ys: seq<Event>, e: Event)
    requires Subsequence(xs, ys)
    ensures Subsequence(xs, ys + [e]) && Subsequence(xs + [e], ys + [e])
  {
    assert (ys + [e])[..|ys|] == ys && (xs + [e])[..|xs|] == xs;
  }

  lemma {:induction false} SubsequenceShorter(xs: seq<Event>, ys: seq<Event>)
    requires Subsequence(xs, ys)
    ensures |xs| <= |ys|
    ensures |xs| == |ys| ==> xs == ys
    decreases |ys|
  {
    if xs != [] {
      var front := ys[..|ys| - 1];
      if Subsequence(xs, front) {
        SubsequenceShorter(xs, front);
      } else {
        SubsequenceShorter(xs[..|xs| - 1], front);
        assert xs == xs[..|xs| - 1] + [xs[|xs| - 1]] && ys == front + [ys[|ys| - 1]];
      }
    }
  }

  /** Nothing is reordered or invented, and every missing event was counted. */
  ghost predicate SubInv(s: Sub) {
    && Subsequence(s.taken + s.buf, s.sent)
    && s.dropped == |s.sent| - |s.taken| - |s.buf|
    && (s.waiting ==> s.buf == [])
    && |s.buf| <= s.cap
  }

  lemma PushKeeps(s: Sub, e: Event)
    requires SubInv(s)
    ensures SubInv(Push(s, e))
  {
    SubsequenceAppend(s.taken + s.buf, s.sent, e);
    if s.waiting {
      assert (s.taken + [e]) + s.buf == (s.taken + s.buf) + [e];
    } else if |s.buf| < s.cap {
      assert s.taken + (s.buf + [e]) == (s.taken + s.buf) + [e];
    }
  }

  lemma TakeKeeps(s: Sub)
    requires SubInv(s)
    ensures SubInv(Take(s))
  {
    if s.buf != [] {
      assert (s.taken + [s.buf[0]]) + s.buf[1..] == s.taken + s.buf;
    }
  }

  /** A run of one subscription: an event is sent, or the receiver asks for one. */
  datatype Action = Sends(e: Event) | Receives

  function RunSub(s: Sub, actions: seq<Action>): Sub {
    if actions == [] then s
    else
      var before := RunSub(s, actions[..|actions| - 1]);
      match actions[|actions| - 1]
      case Sends(e) => Push(before, e)
      case Receives => Take(before)
  }

  /** The events a run sends, in order. */
  function SentBy(actions: seq<Action>): seq<Event> {
    if actions == [] then []
    else
      var before := SentBy(actions[..|actions| - 1]);
      match actions[|actions| - 1]
      case Sends(e) => before + [e]
      case Receives => before
  }

  /** Conservation on every run: what was received and what waits in the buffer is, in order,
      what was sent except the counted drops; without drops it is all of it. */
  lemma {:induction false} FanOutConserves(bufSize: int, actions: seq<Action>)
    ensures var s := RunSub(NewSub(bufSize), actions);
            && SubInv(s) && s.sent == SentBy(actions)
            && Subsequence(s.taken + s.buf, SentBy(actions))
            && |s.taken| + |s.buf| + s.dropped == |SentBy(actions)|
            && (s.dropped == 0 ==> s.taken + s.buf == SentBy(actions))
  {
    if actions != [] {
      var front := actions[..|actions| - 1];
      FanOutConserves(bufSize, front);
      var before := RunSub(NewSub(bufSize), front);
      match actions[|actions| - 1] {
        case Sends(e) => PushKeeps(before, e);
        case Receives => TakeKeeps(before);
      }
    }
    var s := RunSub(NewSub(bufSize), actions);
    SubsequenceShorter(s.taken + s.buf, s.sent);
  }

  lemma {:induction false} CapacityIs(bufSize: int, actions: seq<Action>)
    ensures RunSub(NewSub(bufSize), actions).cap == if bufSize > 0 then bufSize else 0
  {
    if actions != [] {
      CapacityIs(bufSize, actions[..|actions| - 1]);
    }
  }

  /** When an event is lost: on every run, a send is dropped exactly when no receiver is waiting and the
      buffer holds its full size; otherwise the event is the newest of those received or buffered. */
  lemma SendIsDroppedIff(bufSize: int, actions: seq<Action>, e: Event)
    ensures var s, t := RunSub(NewSub(bufSize), actions), RunSub(NewSub(bufSize), actions + [Sends(e)]);
            if !s.waiting && |s.buf| == (if bufSize > 0 then bufSize else 0)
            then t.dropped == s.dropped + 1 && t.taken == s.taken && t.buf == s.buf
            else t.dropped == s.dropped && t.taken + t.buf == (s.taken + s.buf) + [e]
  {
    assert (actions + [Sends(e)])[..|actions|] == actions;
    CapacityIs(bufSize, actions);
    FanOutConserves(bufSize, actions);
    var s, t := RunSub(NewSub(bufSize), actions), RunSub(NewSub(bufSize), actions + [Sends(e)]);
    assert t == Push(s, e);
    if !s.waiting && |s.buf| < s.cap {
      assert s.taken + (s.buf + [e]) == (s.taken + s.buf) + [e];
    }
  }

  /** What a receiver gets: on every run the oldest buffered event at once; with an empty buffer it waits,
      and gets the very next event that is sent. */
  lemma ReceiveTakesOldest(bufSize: int, actions: seq<Action>, e: Event)
    ensures var s, t := RunSub(NewSub(bufSize), actions), RunSub(NewSub(bufSize), actions + [Receives]);
            if s.buf != [] then t.taken == s.taken + [s.buf[0]] && t.buf == s.buf[1..] && !t.waiting
            else t.taken == s.taken && t.buf == [] && t.waiting && RunSub(t, [Sends(e)]).taken == t.taken + [e]
  {
    assert (actions + [Receives])[..|actions|] == actions;
    FanOutConserves(bufSize, actions);
    var t := RunSub(NewSub(bufSize), actions + [Receives]);
    assert RunSub(t, [Sends(e)][..0]) == t;
  }

  // The objects

  class Subscriber {
    const cap: nat
    var buf: seq<Event>
    var waiting: bool
    var dropped: nat
    var taken: seq<Event>
    var closed: bool
    ghost var sent: seq<Event>

    ghost function View(): Sub
      reads this
    {
      Sub(cap, buf, waiting, dropped, taken, sent)
    }

    constructor (bufSize: int)
      ensures View() == NewSub(bufSize) && !closed
      ensures cap == if bufSize > 0 then bufSize else 0
    {
      cap := if bufSize < 0 then 0 else bufSize;
      buf, waiting, dropped, taken, closed, sent := [], false, 0, [], false, [];
    }

    /** Sending on a closed channel would panic. */
    method TrySend(e: Event)
      requires !closed
      modifies this
      ensures View() == Push(old(View()), e) && !closed
      ensures dropped == old(dropped) + if !old(waiting) && |old(buf)| >= cap then 1 else 0
    {
      sent := sent + [e];
      if waiting {
        taken, waiting := taken + [e], false;
      } else if |buf| < cap {
        buf := buf + [e];
      } else {
        dropped := dropped + 1;
      }
    }

    /** Closing twice would panic. */
    method Close()
      requires !closed
      modifies this`closed
      ensures closed
    {
      closed := true;
    }
  }

  class Registry {
    var backing: array<Subscriber?>
    var count: nat

    /** The listed subscribers are distinct and their channels are open. */
    ghost predicate Valid()
      reads this, backing, backing[..]
    {
      && count <= backing.Length
      && (forall i | 0 <= i < count :: backing[i] != null && !backing[i].closed)
      && (forall i, j | 0 <= i < j < count :: backing[i] != backing[j])
    }

    ghost function List(): seq<Subscriber?>
      reads this, backing
      requires count <= backing.Length
    {
      backing[..count]
    }

    constructor ()
      ensures Valid() && List() == [] && fresh(backing)
    {
      backing := new Subscriber?[0];
      count := 0;
    }

    method Subscribe(bufSize: int) returns (sub: Subscriber)
      requires Valid()
      modifies this, backing
      ensures Valid() && fresh(sub) && sub.View() == NewSub(bufSize)
      ensures List() == old(List()) + [sub]
      ensures backing == old(backing) || fresh(backing)
    {
      sub := new Subscriber(bufSize);
      if count == backing.Length {
        var bigger := new Subscriber?[2 * count + 1](_ => null);
        for i := 0 to count
          modifies bigger
          invariant forall k | 0 <= k < i :: bigger[k] == old(backing[k])
        {
          bigger[i] := backing[i];
        }
        backing := bigger;
      }
      backing[count] := sub;
      count := count + 1;
    }

    /** Removes the entry by shifting the later ones down, then closes its channel. */
    method Unsubscribe(ch: Subscriber)
      requires Valid()
      modifies this`count, backing, ch`closed
      ensures Valid() && backing == old(backing)
      ensures ch !in old(List()) ==> List() == old(List()) && ch.closed == old(ch.closed)
      ensures forall i: nat | i < old(count) && old(backing[i]) == ch ::
                ch.closed && List() == old(List())[..i] + old(List())[i + 1..]
    {
      for i := 0 to count
        invariant ch !in backing[..i]
      {
        if backing[i] == ch {
          for j := i to count - 1
            invariant forall k | 0 <= k < i || j < k < backing.Length :: backing[k] == old(backing[k])
            invariant forall k | i <= k < j :: backing[k] == old(backing[k + 1])
            invariant unchanged(this) && ch.closed == old(ch.closed)
          {
            backing[j] := backing[j + 1];
          }
          backing[count - 1] := null;
          count := count - 1;
          ch.Close();
          assert List() == old(List())[..i] + old(List())[i + 1..];
          return;
        }
      }
    }

    /** Offers the event to every subscriber, in order, without ever waiting. */
    method Broadcast(e: Event)
      requires Valid()
      modifies backing[..count]
      ensures Valid() && List() == old(List())
      ensures forall i | 0 <= i < count :: backing[i].View() == Push(old(backing[i].View()), e)
    {
      for i := 0 to count
        invariant Valid()
        invariant forall k | 0 <= k < i :: backing[k].View() == Push(old(backing[k].View()), e)
        invariant forall k | i <= k < count :: backing[k].View() == old(backing[k].View())
      {
        backing[i].TrySend(e);
      }
    }

    /** cleanupRun: close what is still listed, then list nothing. */
    method Cleanup()
      requires Valid()
      modifies this, backing[..count]
      ensures Valid() && List() == []
      ensures forall s | s in old(List()) && s != null :: s.closed
    {
      for i := 0 to count
        invariant unchanged(this) && unchanged(backing)
        invariant forall k | 0 <= k < i :: backing[k] != null && backing[k].closed
        invariant forall k | i <= k < count :: backing[k] != null && !backing[k].closed
      {
        backing[i].Close();
      }
      count := 0;
    }
  }
}
