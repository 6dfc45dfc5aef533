/** The whole pipeline: media loop, fan-out, server and browsers, all interleaved. */
module Pipeline {
  import opened Domain
  import opened Wire
  import MediaLoop
  import MediaInvariants
  import MediaTheorems
  import MediaAnswers
  import Escaping
  import FanOut
  import Hub
  import Server
  import ServerInvariants
  import ServerTheorems
  import Page
  import PageInvariants
  import PageTheorems

  type ConnId = Hub.ConnId

  /** A page, and how many of the messages written to its connection it has received. */
  datatype Browser = Browser(page: Page.State, got: nat)

  /** `fanned` events of the loop have been offered to the subscribers; the server's
      subscription began at `since`. */
  datatype State = State(
    loop: MediaLoop.State, fanned: nat, since: nat, sub: Option<FanOut.Sub>,
    srv: Server.State, browsers: map<ConnId, Browser>)

  function Init(device: string): State {
    State(MediaLoop.Init(device), 0, 0, None, Server.Init(), map[])
  }

  datatype Step =
    | Media(m: MediaLoop.Step)                 // the loop's goroutine, its timers and its callers
    | Offers                                   // fanOut of the next event of the running command
    | Subscribes(bufSize: int)                 // Server.Run subscribes, some time after the start
    | Receives                                 // the processor asks its channel for an event
    | Processes(ts: int)                       // the processor handles what it received
    | Serves(s: Server.Step)                   // every other step of the server
    | Opens(c: ConnId, page: Page.State)       // a browser connects; it may have lived before
    | Delivers(c: ConnId)                      // the next message of its connection arrives
    | Browses(c: ConnId, p: Page.Step)         // its timeouts, frames and clock

  /** The loop runs its next command only when the events of the last one were offered. */
  predicate NeedsLoop(m: MediaLoop.Step) {
    m.Start? || m.Runs? || m.Ticks?
  }

  function Delivered(b: Browser, wire: seq<Server.Frame>): Browser
    requires b.got < |wire|
  {
    Browser(Page.Next(b.page, Page.Receive(wire[b.got].msg)), b.got + 1)
  }

  /** A step that is not enabled changes nothing. */
  ghost function Next(sha: Server.Digest, s: State, step: Step): State {
    match step
    case Media(m) =>
      if NeedsLoop(m) && s.fanned < |s.loop.emitted| then s else s.(loop := MediaLoop.Next(s.loop, m))
    case Offers =>
      if s.fanned >= |s.loop.emitted| then s
      else s.(fanned := s.fanned + 1,
              sub := if s.sub.Some? then Some(FanOut.Push(s.sub.value, s.loop.emitted[s.fanned])) else None)
    case Subscribes(bufSize) =>
      if s.sub.Some? then s else s.(sub := Some(FanOut.NewSub(bufSize)), since := s.fanned)
    case Receives =>
      if s.sub.Some? && s.srv.hand.None? && |s.sub.value.taken| == |s.srv.handled|
      then s.(sub := Some(FanOut.Take(s.sub.value))) else s
    case Processes(ts) =>
      if s.sub.Some? && s.srv.hand.None? && |s.sub.value.taken| > |s.srv.handled|
      then s.(srv := Server.Next(sha, s.srv, Server.Handles(s.sub.value.taken[|s.srv.handled|], ts))) else s
    case Serves(t) => if t.Handles? || t.Accepts? then s else s.(srv := Server.Next(sha, s.srv, t))
    case Opens(c, page) =>
      if c in s.srv.socks || !PageInvariants.Inv(page) then s
      else s.(srv := Server.Next(sha, s.srv, Server.Accepts(c)), browsers := s.browsers[c := Browser(page, 0)])
    case Delivers(c) =>
      if c in s.browsers && c in s.srv.socks && s.browsers[c].got < |s.srv.socks[c].wire|
      then s.(browsers := s.browsers[c := Delivered(s.browsers[c], s.srv.socks[c].wire)]) else s
    case Browses(c, p) =>
      if c in s.browsers && !p.Receive?
      then s.(browsers := s.browsers[c := s.browsers[c].(page := Page.Next(s.browsers[c].page, p))]) else s
  }

  ghost function Run(sha: Server.Digest, s: State, steps: seq<Step>): State {
    if steps == [] then s else Next(sha, Run(sha, s, steps[..|steps| - 1]), steps[|steps| - 1])
  }

  // Invariants

  /** The subscription was sent exactly the events offered since it began, and the server has
      handled a prefix of what it received. */
  ghost predicate Subscribed(loop: MediaLoop.State, fanned: nat, since: nat, sub: Option<FanOut.Sub>,
      handled: seq<Event>) {
    && fanned <= |loop.emitted|
    && (sub.None? ==> handled == [])
    && (sub.Some? ==>
          && since <= fanned
          && FanOut.SubInv(sub.value)
          && sub.value.sent == loop.emitted[since..fanned]
          && handled <= sub.value.taken)
  }

  /** A browser is in step with the messages it has received over its connection. */
  ghost predicate InStep(b: Browser, k: Server.Sock) {
    && b.got <= |k.wire|
    && PageInvariants.Inv(b.page)
    && var m := LastInfoMsg(Server.Msgs(k.wire[..b.got]));
       m.Some? ==> b.page.log.last == Some(Page.TrackOf(m.value.payload))
  }

  ghost predicate Each<B(!new), K(!new)>(browsers: map<ConnId, B>, socks: map<ConnId, K>, holds: (B, K) -> bool) {
    && browsers.Keys == socks.Keys
    && forall c | c in socks :: holds(browsers[c], socks[c])
  }

  ghost predicate Inv(sha: Server.Digest, s: State) {
    && MediaInvariants.Inv(s.loop)
    && ServerInvariants.Inv(sha, s.srv)
    && Subscribed(s.loop, s.fanned, s.since, s.sub, s.srv.handled)
    && Each(s.browsers, s.srv.socks, InStep)
  }

  lemma InitHolds(sha: Server.Digest, device: string)
    ensures Inv(sha, Init(device))
  {
    MediaInvariants.InitHolds(device);
    ServerInvariants.InitHolds(sha);
  }

  lemma SubscribedGrows(loop: MediaLoop.State, m: MediaLoop.Step, fanned: nat, since: nat, sub: Option<FanOut.Sub>,
      handled: seq<Event>)
    requires MediaInvariants.Inv(loop) && Subscribed(loop, fanned, since, sub, handled)
    ensures Subscribed(MediaLoop.Next(loop, m), fanned, since, sub, handled)
  {
    MediaTheorems.EmittedGrows(loop, m);
    if sub.Some? {
      assert MediaLoop.Next(loop, m).emitted[since..fanned] == loop.emitted[since..fanned];
    }
  }

  lemma SubscribedOffers(loop: MediaLoop.State, fanned: nat, since: nat, sub: FanOut.Sub, handled: seq<Event>)
    requires Subscribed(loop, fanned, since, Some(sub), handled) && fanned < |loop.emitted|
    ensures Subscribed(loop, fanned + 1, since, Some(FanOut.Push(sub, loop.emitted[fanned])), handled)
  {
    var e := loop.emitted[fanned];
    FanOut.PushKeeps(sub, e);
    assert loop.emitted[since..fanned + 1] == loop.emitted[since..fanned] + [e];
  }

  lemma SubscribedReceives(loop: MediaLoop.State, fanned: nat, since: nat, sub: FanOut.Sub, handled: seq<Event>)
    requires Subscribed(loop, fanned, since, Some(sub), handled)
    ensures Subscribed(loop, fanned, since, Some(FanOut.Take(sub)), handled)
  {
    FanOut.TakeKeeps(sub);
  }

  lemma OpeningGrows(k: Server.Sock, snap: Server.Snapshot, stored: nat, upTo: nat, ts: int, list: seq<SessionInfo>)
    ensures k.wire <= Server.Opening(k, snap, stored, upTo, ts, list).wire
  {
  }

  lemma SubscribedProcesses(loop: MediaLoop.State, fanned: nat, since: nat, sub: FanOut.Sub, handled: seq<Event>)
    requires Subscribed(loop, fanned, since, Some(sub), handled) && |handled| < |sub.taken|
    ensures Subscribed(loop, fanned, since, Some(sub), handled + [sub.taken[|handled|]])
  {
  }

  /** The server never takes a written message back, and only the processor handles events. */
  lemma WireGrows(sha: Server.Digest, s: Server.State, step: Server.Step)
    requires !step.Accepts?
    ensures var t := Server.Next(sha, s, step);
            t.socks.Keys == s.socks.Keys && forall c | c in s.socks :: s.socks[c].wire <= t.socks[c].wire
    ensures !step.Handles? ==> Server.Next(sha, s, step).handled == s.handled
  {
    match step
    case Advances(c, ts, list) =>
      if c in s.socks {
        OpeningGrows(s.socks[c], s.snap, |s.stored|, Hub.Settled(s.hub, c), ts, list);
      }
    case _ =>
  }

  lemma EachOpens<B(!new), K(!new)>(browsers: map<ConnId, B>, socks: map<ConnId, K>, c: ConnId, b: B, k: K,
      holds: (B, K) -> bool)
    requires Each(browsers, socks, holds) && holds(b, k)
    ensures Each(browsers[c := b], socks[c := k], holds)
  {
  }

  lemma EachMoves<B(!new), K(!new)>(browsers: map<ConnId, B>, socks: map<ConnId, K>, c: ConnId, b: B,
      holds: (B, K) -> bool)
    requires Each(browsers, socks, holds) && c in socks && holds(b, socks[c])
    ensures Each(browsers[c := b], socks, holds)
  {
  }

  lemma InStepAfterMore(b: Browser, before: Server.Sock, after: Server.Sock)
    requires InStep(b, before) && before.wire <= after.wire
    ensures InStep(b, after)
  {
    assert after.wire[..b.got] == before.wire[..b.got];
  }

  lemma BrowsersKeep(browsers: map<ConnId, Browser>, before: map<ConnId, Server.Sock>, after: map<ConnId, Server.Sock>)
    requires Each(browsers, before, InStep) && after.Keys == before.Keys
    requires forall c | c in before :: before[c].wire <= after[c].wire
    ensures Each(browsers, after, InStep)
  {
    forall c | c in before ensures InStep(browsers[c], after[c]) {
      InStepAfterMore(browsers[c], before[c], after[c]);
    }
  }

  lemma ServerStepKeeps(sha: Server.Digest, s: State, step: Server.Step)
    requires Inv(sha, s) && !step.Accepts?
    requires Subscribed(s.loop, s.fanned, s.since, s.sub, Server.Next(sha, s.srv, step).handled)
    ensures Inv(sha, s.(srv := Server.Next(sha, s.srv, step)))
  {
    ServerInvariants.NextKeeps(sha, s.srv, step);
    WireGrows(sha, s.srv, step);
    BrowsersKeep(s.browsers, s.srv.socks, Server.Next(sha, s.srv, step).socks);
  }

  lemma ProcessesKeeps(sha: Server.Digest, s: State, ts: int)
    requires Inv(sha, s) && s.sub.Some? && s.srv.hand.None? && |s.sub.value.taken| > |s.srv.handled|
    ensures Inv(sha, Next(sha, s, Processes(ts)))
  {
    var e := s.sub.value.taken[|s.srv.handled|];
    HandledGrows(sha, s.srv, e, ts);
    SubscribedProcesses(s.loop, s.fanned, s.since, s.sub.value, s.srv.handled);
    ServerStepKeeps(sha, s, Server.Handles(e, ts));
  }

  lemma HandledGrows(sha: Server.Digest, s: Server.State, e: Event, ts: int)
    requires s.hand.None?
    ensures Server.Next(sha, s, Server.Handles(e, ts)).handled == s.handled + [e]
  {
  }

  lemma OpenedInStep(page: Page.State)
    requires PageInvariants.Inv(page)
    ensures InStep(Browser(page, 0), Server.Opened())
  {
  }

  lemma OpenedKeeps(browsers: map<ConnId, Browser>, socks: map<ConnId, Server.Sock>, c: ConnId, page: Page.State)
    requires Each(browsers, socks, InStep) && PageInvariants.Inv(page)
    ensures Each(browsers[c := Browser(page, 0)], socks[c := Server.Opened()], InStep)
  {
    OpenedInStep(page);
    EachOpens(browsers, socks, c, Browser(page, 0), Server.Opened(), InStep);
  }

  lemma OpensKeeps(sha: Server.Digest, s: State, c: ConnId, page: Page.State)
    requires Each(s.browsers, s.srv.socks, InStep) && c !in s.srv.socks && PageInvariants.Inv(page)
    ensures OnlyBrowsers(s, Next(sha, s, Opens(c, page)))
  {
    AcceptsOpens(sha, s.srv, c);
    OpenedKeeps(s.browsers, s.srv.socks, c, page);
  }

  /** The loop and its subscription are as before, and every browser is in step. */
  ghost predicate OnlyBrowsers(s: State, t: State) {
    && t == s.(srv := t.srv, browsers := t.browsers)
    && t.srv.handled == s.srv.handled
    && Each(t.browsers, t.srv.socks, InStep)
  }

  lemma AcceptsOpens(sha: Server.Digest, s: Server.State, c: ConnId)
    requires c !in s.socks
    ensures Server.Next(sha, s, Server.Accepts(c)) == s.(socks := s.socks[c := Server.Opened()])
  {
  }

  lemma InStepDelivers(b: Browser, k: Server.Sock)
    requires InStep(b, k) && b.got < |k.wire|
    ensures InStep(Delivered(b, k.wire), k)
  {
    var wire, n := k.wire, b.got;
    PageInvariants.NextKeeps(b.page, Page.Receive(wire[n].msg));
    PageTheorems.LogStep(b.page, Page.Receive(wire[n].msg));
    assert wire[..n + 1] == wire[..n] + [wire[n]];
    ServerInvariants.WireAppend(wire[..n], wire[n]);
  }

  lemma InStepBrowses(b: Browser, p: Page.Step, k: Server.Sock)
    requires InStep(b, k) && !p.Receive?
    ensures InStep(b.(page := Page.Next(b.page, p)), k)
  {
    PageInvariants.NextKeeps(b.page, p);
    PageTheorems.LogStep(b.page, p);
  }

  lemma MediaKeeps(sha: Server.Digest, s: State, m: MediaLoop.Step)
    requires Inv(sha, s)
    ensures Inv(sha, Next(sha, s, Media(m)))
  {
    MediaInvariants.NextKeeps(s.loop, m);
    SubscribedGrows(s.loop, m, s.fanned, s.since, s.sub, s.srv.handled);
  }

  lemma SubscriptionStep(sha: Server.Digest, s: State, step: Step)
    requires Subscribed(s.loop, s.fanned, s.since, s.sub, s.srv.handled)
        && (step.Offers? || step.Subscribes? || step.Receives?)
    ensures var t := Next(sha, s, step);
            t == s.(fanned := t.fanned, since := t.since, sub := t.sub)
                && Subscribed(t.loop, t.fanned, t.since, t.sub, t.srv.handled)
  {
    if s.sub.Some? {
      if step.Receives? {
        SubscribedReceives(s.loop, s.fanned, s.since, s.sub.value, s.srv.handled);
      } else if s.fanned < |s.loop.emitted| {
        SubscribedOffers(s.loop, s.fanned, s.since, s.sub.value, s.srv.handled);
      }
    }
  }

  lemma SubscriptionKeeps(sha: Server.Digest, s: State, step: Step)
    requires Inv(sha, s) && (step.Offers? || step.Subscribes? || step.Receives?)
    ensures Inv(sha, Next(sha, s, step))
  {
    SubscriptionStep(sha, s, step);
  }

  lemma ServesKeeps(sha: Server.Digest, s: State, t: Server.Step)
    requires Inv(sha, s)
    ensures Inv(sha, Next(sha, s, Serves(t)))
  {
    if !t.Handles? && !t.Accepts? {
      WireGrows(sha, s.srv, t);
      ServerStepKeeps(sha, s, t);
    }
  }

  lemma DeliveredKeeps(browsers: map<ConnId, Browser>, socks: map<ConnId, Server.Sock>, c: ConnId)
    requires Each(browsers, socks, InStep) && c in socks && browsers[c].got < |socks[c].wire|
    ensures Each(browsers[c := Delivered(browsers[c], socks[c].wire)], socks, InStep)
  {
    InStepDelivers(browsers[c], socks[c]);
    EachMoves(browsers, socks, c, Delivered(browsers[c], socks[c].wire), InStep);
  }

  lemma DeliversIs(sha: Server.Digest, s: State, c: ConnId)
    requires c in s.browsers && c in s.srv.socks && s.browsers[c].got < |s.srv.socks[c].wire|
    ensures Next(sha, s, Delivers(c)) == s.(browsers := s.browsers[c := Delivered(s.browsers[c], s.srv.socks[c].wire)])
  {
  }

  lemma DeliversKeeps(sha: Server.Digest, s: State, c: ConnId)
    requires Each(s.browsers, s.srv.socks, InStep) && c in s.srv.socks && s.browsers[c].got < |s.srv.socks[c].wire|
    ensures var t := Next(sha, s, Delivers(c)); OnlyBrowsers(s, t) && t.srv == s.srv
  {
    DeliversIs(sha, s, c);
    DeliveredKeeps(s.browsers, s.srv.socks, c);
  }

  lemma BrowsedKeeps(browsers: map<ConnId, Browser>, socks: map<ConnId, Server.Sock>, c: ConnId, p: Page.Step)
    requires Each(browsers, socks, InStep) && c in socks && !p.Receive?
    ensures Each(browsers[c := browsers[c].(page := Page.Next(browsers[c].page, p))], socks, InStep)
  {
    InStepBrowses(browsers[c], p, socks[c]);
    EachMoves(browsers, socks, c, browsers[c].(page := Page.Next(browsers[c].page, p)), InStep);
  }

  lemma BrowsesIs(sha: Server.Digest, s: State, c: ConnId, p: Page.Step)
    requires c in s.browsers && !p.Receive?
    ensures Next(sha, s, Browses(c, p)) ==
              s.(browsers := s.browsers[c := s.browsers[c].(page := Page.Next(s.browsers[c].page, p))])
  {
  }

  lemma BrowsesKeeps(sha: Server.Digest, s: State, c: ConnId, p: Page.Step)
    requires Each(s.browsers, s.srv.socks, InStep) && c in s.browsers && !p.Receive?
    ensures var t := Next(sha, s, Browses(c, p)); OnlyBrowsers(s, t) && t.srv == s.srv
  {
    BrowsesIs(sha, s, c, p);
    BrowsedKeeps(s.browsers, s.srv.socks, c, p);
  }

  lemma OpensServer(sha: Server.Digest, s: State, c: ConnId, page: Page.State)
    requires ServerInvariants.Inv(sha, s.srv)
    ensures ServerInvariants.Inv(sha, Next(sha, s, Opens(c, page)).srv)
  {
    ServerInvariants.NextKeeps(sha, s.srv, Server.Accepts(c));
  }

  lemma BrowserStepKeeps(sha: Server.Digest, s: State, t: State)
    requires Inv(sha, s) && OnlyBrowsers(s, t) && ServerInvariants.Inv(sha, t.srv)
    ensures Inv(sha, t)
  {
  }

  ghost predicate BrowserEnabled(s: State, step: Step) {
    match step
    case Opens(c, page) => c !in s.srv.socks && PageInvariants.Inv(page)
    case Delivers(c) => c in s.browsers && c in s.srv.socks && s.browsers[c].got < |s.srv.socks[c].wire|
    case Browses(c, p) => c in s.browsers && !p.Receive?
    case _ => true
  }

  lemma NotEnabled(sha: Server.Digest, s: State, step: Step)
    requires !BrowserEnabled(s, step)
    ensures Next(sha, s, step) == s
  {
  }

  lemma OpensStep(sha: Server.Digest, s: State, c: ConnId, page: Page.State)
    requires Inv(sha, s)
    ensures Inv(sha, Next(sha, s, Opens(c, page)))
  {
    if BrowserEnabled(s, Opens(c, page)) {
      OpensKeeps(sha, s, c, page);
      OpensServer(sha, s, c, page);
      BrowserStepKeeps(sha, s, Next(sha, s, Opens(c, page)));
    } else {
      NotEnabled(sha, s, Opens(c, page));
    }
  }

  lemma DeliversStep(sha: Server.Digest, s: State, c: ConnId)
    requires Inv(sha, s)
    ensures Inv(sha, Next(sha, s, Delivers(c)))
  {
    if BrowserEnabled(s, Delivers(c)) {
      DeliversKeeps(sha, s, c);
      BrowserStepKeeps(sha, s, Next(sha, s, Delivers(c)));
    } else {
      NotEnabled(sha, s, Delivers(c));
    }
  }

  lemma BrowsesStep(sha: Server.Digest, s: State, c: ConnId, p: Page.Step)
    requires Inv(sha, s)
    ensures Inv(sha, Next(sha, s, Browses(c, p)))
  {
    if BrowserEnabled(s, Browses(c, p)) {
      BrowsesKeeps(sha, s, c, p);
      BrowserStepKeeps(sha, s, Next(sha, s, Browses(c, p)));
    } else {
      NotEnabled(sha, s, Browses(c, p));
    }
  }

  lemma ProcessesStep(sha: Server.Digest, s: State, ts: int)
    requires Inv(sha, s)
    ensures Inv(sha, Next(sha, s, Processes(ts)))
  {
    if s.sub.Some? && s.srv.hand.None? && |s.sub.value.taken| > |s.srv.handled| {
      ProcessesKeeps(sha, s, ts);
    }
  }

  lemma NextKeeps(sha: Server.Digest, s: State, step: Step)
    requires Inv(sha, s)
    ensures Inv(sha, Next(sha, s, step))
  {
    match step
    case Media(m) => MediaKeeps(sha, s, m);
    case Processes(ts) => ProcessesStep(sha, s, ts);
    case Serves(t) => ServesKeeps(sha, s, t);
    case Opens(c, page) => OpensStep(sha, s, c, page);
    case Delivers(c) => DeliversStep(sha, s, c);
    case Browses(c, p) => BrowsesStep(sha, s, c, p);
    case _ => SubscriptionKeeps(sha, s, step);
  }

  lemma {:induction false} RunKeeps(sha: Server.Digest, device: string, steps: seq<Step>)
    ensures Inv(sha, Run(sha, Init(device), steps))
  {
    if steps == [] {
      InitHolds(sha, device);
    } else {
      RunKeeps(sha, device, steps[..|steps| - 1]);
      NextKeeps(sha, Run(sha, Init(device), steps[..|steps| - 1]), steps[|steps| - 1]);
    }
  }

  // Convergence

  /** The loop has nothing pending and dropped no command; every event was offered, and none that
      was offered to the server's subscription was dropped or is still waiting. */
  ghost predicate SourceQuiet(s: State) {
    && s.loop.timers == map[] && s.loop.queue == [] && s.loop.dropped == 0
    && s.fanned == |s.loop.emitted|
    && s.sub.Some? && s.sub.value.dropped == 0 && s.sub.value.buf == []
    && s.srv.handled == s.sub.value.taken
  }

  /** The server has nothing under way, and the broadcast of its newest update was not dropped. */
  ghost predicate ServerQuiet(s: State) {
    && ServerTheorems.Quiet(s.srv)
    && s.srv.fates != [] && !s.srv.fates[|s.srv.fates| - 1].Dropped?
  }

  /** The browser of c has received everything and is not fading. */
  ghost predicate BrowserQuiet(s: State, c: ConnId) {
    && c in s.browsers && c in s.srv.socks
    && s.browsers[c].got == |s.srv.socks[c].wire|
    && s.browsers[c].page.transitionTimer.None?
  }

  /** The newest info event the server was sent. */
  lemma SourceAgrees(sha: Server.Digest, s: State) returns (d: InfoData)
    requires Inv(sha, s) && SourceQuiet(s) && s.since <= |s.loop.emitted| && LastInfo(s.loop.emitted[s.since..]).Some?
    ensures LastInfo(s.loop.emitted) == Some(d) && d.song == s.loop.song
    ensures LastInfo(s.srv.handled) == Some(d)
  {
    var events := s.loop.emitted;
    assert events == events[..s.since] + events[s.since..];
    LastInfoConcat(events[..s.since], events[s.since..]);
    d := LastInfo(events).value;
    var sub := s.sub.value;
    FanOut.SubsequenceShorter(sub.taken + sub.buf, sub.sent);
    assert sub.taken + sub.buf == sub.taken;
    assert events[s.since..s.fanned] == events[s.since..];
  }

  /** What the server's newest update says about the newest event it handled. */
  lemma UpdateAgrees(sha: Server.Digest, s: Server.State, d: InfoData)
    requires ServerInvariants.Inv(sha, s) && LastInfo(s.handled) == Some(d)
    ensures s.stored != [] && |s.fates| == |s.stored|
    ensures s.stored[|s.stored| - 1].Info? && s.stored[|s.stored| - 1].payload == Server.PayloadOf(sha, d)
  {
  }

  lemma NewestIsQueued(sha: Server.Digest, s: Server.State)
    requires ServerInvariants.Inv(sha, s) && s.hand.None? && s.fates != [] && !s.fates[|s.fates| - 1].Dropped?
    ensures s.fates[|s.fates| - 1].Queued?
  {
    assert ServerInvariants.FateHolds(s, |s.fates| - 1);
  }

  predicate Shows(p: Page.State, t: Page.Track) {
    p.theme.shown == Some(t.song) && p.theme.shownArt == t.art
  }

  /** The last info message written to a connection. */
  function LastWritten(k: Server.Sock): Option<Msg> {
    LastInfoMsg(Server.Msgs(k.wire))
  }

  /** A browser that received everything and is not fading shows the last info message of its wire. */
  lemma BrowserShowsLast(b: Browser, k: Server.Sock)
    requires InStep(b, k) && b.got == |k.wire| && b.page.transitionTimer.None?
    ensures LastWritten(k).Some? ==>
        LastWritten(k).value.Info? && Shows(b.page, Page.TrackOf(LastWritten(k).value.payload))
  {
    assert k.wire[..|k.wire|] == k.wire;
  }

  /** The track of the last event: its song, and the address of its art. */
  function TrackFor(sha: Server.Digest, d: InfoData): Page.Track {
    Page.Track(d.song, Server.ArtURL(Server.HashOf(sha, d.thumb)))
  }

  /** OnOpen of this connection wrote its snapshot in time for the update at `at`, or the snapshot
      carried the same track. */
  predicate OpenedFor(k: Server.Sock, at: nat, stored: seq<Msg>, t: Page.Track) {
    || ServerTheorems.InTime(k, at, stored)
    || (0 < k.marks.readAt <= |stored| && stored[k.marks.readAt - 1].Info?
        && Page.TrackOf(stored[k.marks.readAt - 1].payload) == t)
  }

  /** The last info message written to a connection is the newest update, if OnOpen wrote its
      snapshot in time, and otherwise the update the snapshot carried. */
  ghost predicate EndsWith(k: Server.Sock, at: Server.Fate, stored: seq<Msg>, t: Page.Track) {
    && at.Queued?
    && stored != [] && stored[|stored| - 1].Info? && Page.TrackOf(stored[|stored| - 1].payload) == t
    && (ServerTheorems.InTime(k, at.at, stored) ==> LastWritten(k) == Some(stored[|stored| - 1]))
    && (!ServerTheorems.InTime(k, at.at, stored) ==>
          0 < k.marks.readAt <= |stored| && LastWritten(k) == Some(stored[k.marks.readAt - 1]))
    && (k.marks.wroteSeen < |stored| ==> ServerTheorems.InTime(k, at.at, stored))
  }

  lemma ServerEndsWith(sha: Server.Digest, s: Server.State, c: ConnId, d: InfoData)
    requires ServerInvariants.Inv(sha, s) && ServerTheorems.Quiet(s) && ServerTheorems.Connected(s, c)
    requires s.socks[c].phase.Live?
    requires s.fates != [] && !s.fates[|s.fates| - 1].Dropped? && LastInfo(s.handled) == Some(d)
    ensures EndsWith(s.socks[c], s.fates[|s.fates| - 1], s.stored, TrackFor(sha, d))
  {
    UpdateAgrees(sha, s, d);
    NewestIsQueued(sha, s);
    ServerTheorems.NewestArrives(sha, s, c);
  }

  lemma ShowsIff(page: Page.State, k: Server.Sock, at: Server.Fate, stored: seq<Msg>, t: Page.Track)
    requires EndsWith(k, at, stored, t)
    requires LastWritten(k).Some? ==>
        LastWritten(k).value.Info? && Shows(page, Page.TrackOf(LastWritten(k).value.payload))
    ensures Shows(page, t) <==> OpenedFor(k, at.at, stored, t)
    ensures k.marks.wroteSeen < |stored| ==> Shows(page, t)
  {
  }

  lemma EachHolds<B(!new), K(!new)>(browsers: map<ConnId, B>, socks: map<ConnId, K>, c: ConnId, holds: (B, K) -> bool)
    requires Each(browsers, socks, holds) && c in socks
    ensures c in browsers && holds(browsers[c], socks[c])
  {
  }

  predicate Converged(page: Page.State, k: Server.Sock, at: Server.Fate, stored: seq<Msg>, t: Page.Track) {
    && at.Queued?
    && (Shows(page, t) <==> OpenedFor(k, at.at, stored, t))
    && (k.marks.wroteSeen < |stored| ==> Shows(page, t))
  }

  lemma BrowserShows(b: Browser, k: Server.Sock, at: Server.Fate, stored: seq<Msg>, t: Page.Track)
    requires InStep(b, k) && b.got == |k.wire| && b.page.transitionTimer.None?
    requires EndsWith(k, at, stored, t)
    ensures Converged(b.page, k, at, stored, t)
  {
    BrowserShowsLast(b, k);
    ShowsIff(b.page, k, at, stored, t);
  }

  lemma Converges(s: State, c: ConnId, t: Page.Track)
    requires Each(s.browsers, s.srv.socks, InStep) && BrowserQuiet(s, c) && s.srv.fates != []
    requires EndsWith(s.srv.socks[c], s.srv.fates[|s.srv.fates| - 1], s.srv.stored, t)
    ensures Converged(s.browsers[c].page, s.srv.socks[c], s.srv.fates[|s.srv.fates| - 1], s.srv.stored, t)
  {
    EachHolds(s.browsers, s.srv.socks, c, InStep);
    BrowserShows(s.browsers[c], s.srv.socks[c], s.srv.fates[|s.srv.fates| - 1], s.srv.stored, t);
  }

  /** The steps of a run that were steps of the loop. */
  ghost function LoopSteps(sha: Server.Digest, device: string, steps: seq<Step>): seq<MediaLoop.Step> {
    if steps == [] then []
    else
      var front, last := steps[..|steps| - 1], steps[|steps| - 1];
      LoopSteps(sha, device, front) + LoopStep(Run(sha, Init(device), front), last)
  }

  ghost function LoopStep(s: State, step: Step): seq<MediaLoop.Step> {
    if step.Media? && !(NeedsLoop(step.m) && s.fanned < |s.loop.emitted|) then [step.m] else []
  }

  lemma {:induction false} LoopRuns(sha: Server.Digest, device: string, steps: seq<Step>)
    ensures Run(sha, Init(device), steps).loop == MediaLoop.Run(MediaLoop.Init(device), LoopSteps(sha, device, steps))
  {
    if steps != [] {
      var front, last := steps[..|steps| - 1], steps[|steps| - 1];
      LoopRuns(sha, device, front);
      var s, before := Run(sha, Init(device), front), LoopSteps(sha, device, front);
      OneLoopStep(sha, s, last);
      if LoopStep(s, last) != [] {
        assert (before + [last.m])[..|before|] == before;
      } else {
        assert before + [] == before;
      }
    }
  }

  lemma OneLoopStep(sha: Server.Digest, s: State, step: Step)
    ensures Next(sha, s, step).loop == if LoopStep(s, step) == [] then s.loop else MediaLoop.Next(s.loop, step.m)
  {
  }

  /** The artist and title of the newest properties a run has read from a media session, escaped. */
  ghost function NewestSong(sha: Server.Digest, device: string, steps: seq<Step>): Song {
    var answer := MediaAnswers.LastAnswer(device, LoopSteps(sha, device, steps));
    Song(artist := Escaping.EscapeText(MediaAnswers.RawArtist(answer)),
         title := Escaping.EscapeText(MediaAnswers.RawTitle(answer)))
  }

  lemma LoopHoldsNewest(sha: Server.Digest, device: string, steps: seq<Step>)
    ensures Run(sha, Init(device), steps).loop.song == NewestSong(sha, device, steps)
  {
    LoopRuns(sha, device, steps);
    MediaAnswers.SongIsLastAnswer(device, LoopSteps(sha, device, steps));
  }

  lemma RunServerHolds(sha: Server.Digest, device: string, steps: seq<Step>)
    ensures ServerInvariants.Inv(sha, Run(sha, Init(device), steps).srv)
  {
    RunKeeps(sha, device, steps);
  }

  lemma RunInStep(sha: Server.Digest, device: string, steps: seq<Step>)
    ensures var s := Run(sha, Init(device), steps); Each(s.browsers, s.srv.socks, InStep)
  {
    RunKeeps(sha, device, steps);
  }

  /** The newest info event of a run whose source is quiet. */
  lemma RunSource(sha: Server.Digest, device: string, steps: seq<Step>) returns (d: InfoData)
    requires var s := Run(sha, Init(device), steps);
             SourceQuiet(s) && s.since <= |s.loop.emitted| && LastInfo(s.loop.emitted[s.since..]).Some?
    ensures var s := Run(sha, Init(device), steps);
            LastInfo(s.loop.emitted) == Some(d) && d.song == s.loop.song && LastInfo(s.srv.handled) == Some(d)
  {
    RunKeeps(sha, device, steps);
    d := SourceAgrees(sha, Run(sha, Init(device), steps));
  }

  /** A run that has come to rest without losing anything that matters: the loop was subscribed to before
      its last info event, and the browser of c finished opening. */
  ghost predicate AtRest(s: State, c: ConnId) {
    && SourceQuiet(s) && s.since <= |s.loop.emitted| && LastInfo(s.loop.emitted[s.since..]).Some?
    && ServerQuiet(s) && BrowserQuiet(s, c)
    && ServerTheorems.Connected(s.srv, c) && s.srv.socks[c].phase.Live?
  }

  /** What such a run has sent: its newest song, and to its browsers the newest update or what they read. */
  lemma RestFacts(sha: Server.Digest, device: string, steps: seq<Step>, c: ConnId) returns (d: InfoData)
    requires AtRest(Run(sha, Init(device), steps), c)
    ensures var s := Run(sha, Init(device), steps);
            && LastInfo(s.loop.emitted) == Some(d) && d.song == s.loop.song == NewestSong(sha, device, steps)
            && EndsWith(s.srv.socks[c], s.srv.fates[|s.srv.fates| - 1], s.srv.stored, TrackFor(sha, d))
  {
    d := RunSource(sha, device, steps);
    LoopHoldsNewest(sha, device, steps);
    RunServerHolds(sha, device, steps);
    ServerEndsWith(sha, Run(sha, Init(device), steps).srv, c, d);
  }

  /** Convergence, for every run of everything: when nothing is under way and nothing was dropped, a connected
      browser that finished opening shows the artist and title that were read last from a media
      session, with the address of the art of the last info event, exactly when OnOpen wrote its
      snapshot in time (or an outdated snapshot happened to carry the same track). */
  lemma PipelineConvergesIff(sha: Server.Digest, device: string, steps: seq<Step>, c: ConnId) returns (d: InfoData)
    requires AtRest(Run(sha, Init(device), steps), c)
    ensures var s := Run(sha, Init(device), steps); var at := s.srv.fates[|s.srv.fates| - 1];
            var track := Page.Track(NewestSong(sha, device, steps), ServerTheorems.Address(sha, d.thumb));
            && LastInfo(s.loop.emitted) == Some(d) && d.song == s.loop.song == track.song && at.Queued?
            && (Shows(s.browsers[c].page, track) <==> OpenedFor(s.srv.socks[c], at.at, s.srv.stored, track))
  {
    d := RestFacts(sha, device, steps, c);
    RunInStep(sha, device, steps);
    Converges(Run(sha, Init(device), steps), c, TrackFor(sha, d));
  }

  /** In particular a browser whose OnOpen wrote its snapshot before the newest update was stored shows the
      artist and title that were read last, and the address of the digest of the last event's art. */
  lemma PipelineConverges(sha: Server.Digest, device: string, steps: seq<Step>, c: ConnId) returns (d: InfoData)
    requires AtRest(Run(sha, Init(device), steps), c)
    requires var s := Run(sha, Init(device), steps); s.srv.socks[c].marks.wroteSeen < |s.srv.stored|
    ensures var s := Run(sha, Init(device), steps); var theme := s.browsers[c].page.theme;
            var answer := MediaAnswers.LastAnswer(device, LoopSteps(sha, device, steps));
            && LastInfo(s.loop.emitted) == Some(d) && theme.shown.Some?
            && theme.shown.value.artist == Escaping.EscapeText(MediaAnswers.RawArtist(answer))
            && theme.shown.value.title == Escaping.EscapeText(MediaAnswers.RawTitle(answer))
            && theme.shownArt == if d.thumb == [] then "" else "/albumArt/" + sha(d.thumb)
  {
    d := RestFacts(sha, device, steps, c);
    RunInStep(sha, device, steps);
    Converges(Run(sha, Init(device), steps), c, TrackFor(sha, d));
  }
}
