/** Properties of the peer session state machine that relate several
    events, or several inputs, to each other. */
module SessionFacts {
  import opened Optional
  import opened PeerSession

  // ---------------------------------------------------------------------
  // The windowed loss rate

  /** The rate is 0 exactly when there is no baseline or no packet was lost
      in the window. */
  lemma LossRateZeroIff(prevLost: Option<int>, prevReceived: Option<int>, lost: int, received: int)
    ensures LossRate(prevLost, prevReceived, lost, received) == 0.0 <==>
      prevLost.None? || prevReceived.None? || lost <= prevLost.value
  {
    if prevLost.Some? && prevReceived.Some? && lost > prevLost.value {
      var dl := ClampDelta(lost - prevLost.value);
      var dr := ClampDelta(received - prevReceived.value);
      var r := LossRate(prevLost, prevReceived, lost, received);
      assert r * (dl + dr) as real == 100.0 * dl as real;
    }
  }

  /** The rate is 100 exactly when a baseline exists, packets were lost in
      the window and none were received. */
  lemma LossRateFullIff(prevLost: Option<int>, prevReceived: Option<int>, lost: int, received: int)
    ensures LossRate(prevLost, prevReceived, lost, received) == 100.0 <==>
      prevLost.Some? && prevReceived.Some? && lost > prevLost.value && received <= prevReceived.value
  {
    if prevLost.Some? && prevReceived.Some? {
      var dl := ClampDelta(lost - prevLost.value);
      var dr := ClampDelta(received - prevReceived.value);
      var r := LossRate(prevLost, prevReceived, lost, received);
      if dl + dr > 0 {
        assert r * (dl + dr) as real == 100.0 * dl as real;
        if r == 100.0 {
          assert 100.0 * (dl + dr) as real == 100.0 * dl as real;
        }
      }
    }
  }

  /** The rate depends on the counters' deltas only, never on their
      cumulative totals: shifting a baseline and its counter by the same
      amount leaves the rate unchanged. */
  lemma LossRateIsWindowed(pl: int, pr: int, lost: int, received: int, k: int, m: int)
    ensures LossRate(Some(pl + k), Some(pr + m), lost + k, received + m)
         == LossRate(Some(pl), Some(pr), lost, received)
  {
    assert (lost + k) - (pl + k) == lost - pl;
    assert (received + m) - (pr + m) == received - pr;
  }

  /** Lost 10 -> 14 and received 90 -> 186: 4 of 100 packets, 4%. */
  lemma LossRateWindowExample()
    ensures LossRate(Some(10), Some(90), 14, 186) == 4.0
  {
    var r := LossRate(Some(10), Some(90), 14, 186);
    assert ClampDelta(14 - 10) == 4 && ClampDelta(186 - 90) == 96;
    assert r * 100.0 == 400.0;
  }

  /** A counter reset (the cumulative counter going down) counts as an
      empty delta, never as a negative one. */
  lemma CounterResetCountsAsNoLoss(pl: int, pr: int, lost: int, received: int)
    requires lost < pl
    ensures LossRate(Some(pl), Some(pr), lost, received) == 0.0
  {
    LossRateZeroIff(Some(pl), Some(pr), lost, received);
  }

  // ---------------------------------------------------------------------
  // Baselines

  /** Events other than a resolved stats report never install a baseline. */
  lemma {:induction false} NoReportKeepsNoBaseline(cfg: Config, s: Session, events: seq<Event>)
    requires s.prevLost == None && s.prevReceived == None
    requires forall i | 0 <= i < |events| :: !events[i].StatsResolved?
    ensures Run(cfg, s, events).next.prevLost == None
    ensures Run(cfg, s, events).next.prevReceived == None
    decreases |events|
  {
    if events != [] {
      var first := Step(cfg, s, events[0]).next;
      assert first.prevLost == None && first.prevReceived == None;
      NoReportKeepsNoBaseline(cfg, first, events[1..]);
    }
  }

  /** The first stats report to resolve after `disconnect()` reports 0%
      loss, whatever happened in between (connecting, reopening, ICE
      changes, further requests), as long as no other report resolved first. */
  lemma FirstReportAfterDisconnectIsLossless(cfg: Config, s: Session, events: seq<Event>, m: Sample)
    requires forall i | 0 <= i < |events| :: !events[i].StatsResolved?
    ensures var u := Run(cfg, OnDisconnect(s), events).next;
      u.inFlight > 0 ==> OnStatsResolved(u, m).stats.value.packetLossRate == 0.0
  {
    NoReportKeepsNoBaseline(cfg, OnDisconnect(s), events);
  }

  /** Likewise for the first report after the hook starts. */
  lemma FirstReportAfterStartIsLossless(cfg: Config, events: seq<Event>, m: Sample)
    requires forall i | 0 <= i < |events| :: !events[i].StatsResolved?
    ensures var u := Run(cfg, Init, events).next;
      u.inFlight > 0 ==> OnStatsResolved(u, m).stats.value.packetLossRate == 0.0
  {
    NoReportKeepsNoBaseline(cfg, Init, events);
  }

  /** After `disconnect()` the ping reads 0 until a stats report with a
      positive RTT resolves. */
  lemma PingZeroUntilFirstReport(cfg: Config, s: Session, events: seq<Event>)
    requires forall i | 0 <= i < |events| :: !events[i].StatsResolved?
    ensures Run(cfg, OnDisconnect(s), events).next.ping == 0
  {
    PingStaysWithoutReport(cfg, OnDisconnect(s), events);
  }

  /** From a zero ping, events other than a resolved report keep it zero. */
  lemma {:induction false} PingStaysWithoutReport(cfg: Config, s: Session, events: seq<Event>)
    requires s.ping == 0
    requires forall i | 0 <= i < |events| :: !events[i].StatsResolved?
    ensures Run(cfg, s, events).next.ping == 0
    decreases |events|
  {
    if events != [] {
      var first := Step(cfg, s, events[0]).next;
      assert first.ping == 0;
      PingStaysWithoutReport(cfg, first, events[1..]);
    }
  }

  /** Two reports resolving in a row: the second one's window is exactly
      the difference between the two samples' counters. */
  lemma ConsecutiveReportsUseTheirDifference(s: Session, a: Sample, b: Sample)
    requires s.inFlight >= 2
    ensures OnStatsResolved(OnStatsResolved(s, a), b).stats.value.packetLossRate
         == LossRate(Some(a.packetsLost), Some(a.packetsReceived), b.packetsLost, b.packetsReceived)
  {
  }

  /** A report is only ever applied after the stats interval fired while a
      peer was held: with nothing outstanding, events without a stats tick
      never produce a stats record or a baseline. */
  lemma {:induction false} NoRequestNoReport(cfg: Config, s: Session, events: seq<Event>)
    requires s.inFlight == 0 && s.stats == None && s.prevLost == None
    requires forall i | 0 <= i < |events| :: !events[i].StatsRequested?
    ensures Run(cfg, s, events).next.inFlight == 0
    ensures Run(cfg, s, events).next.stats == None
    ensures Run(cfg, s, events).next.prevLost == None
    decreases |events|
  {
    if events != [] {
      var first := Step(cfg, s, events[0]).next;
      assert first.inFlight == 0 && first.stats == None && first.prevLost == None;
      NoRequestNoReport(cfg, first, events[1..]);
    }
  }

  /** The peer is checked when a report is requested, not when it resolves.
      A report requested while connected and resolved after `disconnect()`
      re-installs the old connection's counters as baselines, a stats record
      and a ping, although no peer and no socket are held any more; the
      next connection's first report is then measured against them. */
  lemma StaleReportAfterDisconnect(cfg: Config, s: Session, m: Sample, m2: Sample)
    requires s.peerHeld
    ensures var u := Run(cfg, s, [StatsRequested, Disconnect, StatsResolved(m)]).next;
      && !u.peerHeld && u.socket.None? && u.state == Disconnected
      && u.prevLost == Some(m.packetsLost) && u.prevReceived == Some(m.packetsReceived)
      && u.stats.Some?
      && (m.rtt > 0.0 ==> u.ping == Round(m.rtt))
      && (u.inFlight > 0 ==>
            OnStatsResolved(u, m2).stats.value.packetLossRate
              == LossRate(Some(m.packetsLost), Some(m.packetsReceived),
                          m2.packetsLost, m2.packetsReceived))
  {
    var s1 := OnStatsRequested(s);
    var s2 := OnDisconnect(s1);
    assert s2.inFlight > 0;
    var s3 := OnStatsResolved(s2, m);
    assert Run(cfg, s2, [StatsResolved(m)]).next == s3;
    assert Run(cfg, s1, [Disconnect, StatsResolved(m)]).next == s3;
  }

  // ---------------------------------------------------------------------
  // Timers

  /** The hook's initial session satisfies the invariant, so by `Run` every
      session reachable from it does. */
  lemma InitValid()
    ensures Valid(Init)
  {
  }

  /** Entering ICE `connected` while a stats interval is already stored
      leaves the old interval armed with no field referring to it. */
  lemma IceConnectedAgainLeaksStatsTimer(s: Session)
    requires Valid(s) && s.statsTimer.Some?
    ensures var r := OnIceChanged(s, IceConnected);
      s.statsTimer.value in Leaked(r) && s.statsTimer.value !in Leaked(s)
  {
    var h := s.statsTimer.value;
    assert h in s.armed && h < s.nextHandle;
  }

  /** No event ever clears a leaked interval. */
  lemma LeakedTimersStayLeaked(cfg: Config, s: Session, e: Event)
    requires Valid(s)
    ensures Leaked(s) <= Leaked(Step(cfg, s, e).next)
  {
    var r := Step(cfg, s, e).next;
    forall h | h in Leaked(s) ensures h in Leaked(r) {
      assert h in s.armed && h < s.nextHandle;
    }
  }

  /** The same over any number of events, `disconnect()` included. */
  lemma {:induction false} LeakedTimersStayLeakedForever(cfg: Config, s: Session, events: seq<Event>)
    requires Valid(s)
    ensures Leaked(s) <= Leaked(Run(cfg, s, events).next)
    decreases |events|
  {
    if events != [] {
      var first := Step(cfg, s, events[0]).next;
      LeakedTimersStayLeaked(cfg, s, events[0]);
      LeakedTimersStayLeakedForever(cfg, first, events[1..]);
    }
  }

  /** A concrete run: connect, open, ICE connected twice, disconnect. The
      first stats interval (handle 2) is still armed afterwards. */
  lemma LeakScenario(cfg: Config)
    requires cfg.enabled
    ensures Run(cfg, Init, [Connect(true), SocketOpened, IceChanged(IceConnected),
                            IceChanged(IceConnected), Disconnect]).next.armed == {2}
  {
    var s1 := OnConnect(cfg, Init, true);
    var s2 := OnSocketOpened(cfg, s1).next;
    assert s2.heartbeatTimer == Some(1) && s2.armed == {1};
    var s3 := OnIceChanged(s2, IceConnected);
    assert s3.armed == {1, 2};
    var s4 := OnIceChanged(s3, IceConnected);
    assert s4.armed == {1, 2, 3} && s4.statsTimer == Some(3);
    var s5 := OnDisconnect(s4);
    assert s5.armed == {2};
    assert Run(cfg, s5, []).next == s5;
  }

  /** `disconnect()` leaves no interval a field refers to: only leaked ones
      remain armed. */
  lemma DisconnectClearsAllReferencedTimers(s: Session)
    requires Valid(s)
    ensures OnDisconnect(s).armed == Leaked(s)
    ensures Valid(OnDisconnect(s))
  {
  }

  // ---------------------------------------------------------------------
  // Socket lifecycle

  /** Only `disconnect()` ever drops a held socket. */
  lemma {:induction false} SocketStaysHeldUntilDisconnect(cfg: Config, s: Session, events: seq<Event>)
    requires s.socket.Some?
    requires forall i | 0 <= i < |events| :: !events[i].Disconnect?
    ensures Run(cfg, s, events).next.socket.Some?
    decreases |events|
  {
    if events != [] {
      var first := Step(cfg, s, events[0]).next;
      assert first.socket.Some?;
      SocketStaysHeldUntilDisconnect(cfg, first, events[1..]);
    }
  }

  /** After the server closes the socket, the session stays disconnected
      from signaling: `connect()` changes nothing until `disconnect()` is
      called, whatever happens in between. No reconnection is scheduled. */
  lemma CloseBlocksReconnect(cfg: Config, s: Session, events: seq<Event>, created: bool)
    requires s.socket.Some?
    requires forall i | 0 <= i < |events| :: !events[i].Disconnect?
    ensures var u := Run(cfg, OnSocketClosed(s), events).next;
      OnConnect(cfg, u, created) == u
  {
    SocketStaysHeldUntilDisconnect(cfg, OnSocketClosed(s), events);
  }

  /** Without a held socket nothing is ever sent until `connect()` runs. */
  lemma {:induction false} SilentWithoutSocket(cfg: Config, s: Session, events: seq<Event>)
    requires s.socket.None?
    requires forall i | 0 <= i < |events| :: !events[i].Connect?
    ensures Run(cfg, s, events).sent == []
    ensures Run(cfg, s, events).next.socket.None?
    decreases |events|
  {
    if events != [] {
      var first := Step(cfg, s, events[0]);
      assert first.sent == [] && first.next.socket.None?;
      SilentWithoutSocket(cfg, first.next, events[1..]);
    }
  }

  /** After `disconnect()` nothing is sent until `connect()` runs again. */
  lemma SilentAfterDisconnect(cfg: Config, s: Session, events: seq<Event>)
    requires forall i | 0 <= i < |events| :: !events[i].Connect?
    ensures Run(cfg, OnDisconnect(s), events).sent == []
  {
    SilentWithoutSocket(cfg, OnDisconnect(s), events);
  }

  /** Once the held socket is closed nothing is sent again, and it stays
      closed, until `disconnect()` drops it: a late open event, the
      heartbeat, candidates and the offer all find it not open. */
  lemma {:induction false} SilentOnceClosed(cfg: Config, s: Session, events: seq<Event>)
    requires s.socket == Some(WsClosed)
    requires forall i | 0 <= i < |events| :: !events[i].Disconnect?
    ensures Run(cfg, s, events).sent == []
    ensures Run(cfg, s, events).next.socket == Some(WsClosed)
    decreases |events|
  {
    if events != [] {
      var first := Step(cfg, s, events[0]);
      assert first.sent == [] && first.next.socket == Some(WsClosed);
      SilentOnceClosed(cfg, first.next, events[1..]);
    }
  }

  /** A socket error leaves the held socket closed: nothing is sent over it
      afterwards, a later open event included, until `disconnect()`. */
  lemma SilentAfterSocketError(cfg: Config, s: Session, events: seq<Event>)
    requires s.socket.Some?
    requires forall i | 0 <= i < |events| :: !events[i].Disconnect?
    ensures Run(cfg, OnSocketError(s), events).sent == []
  {
    SilentOnceClosed(cfg, OnSocketError(s), events);
  }

  /** The happy path from the start: connect, open, ICE connected. The
      socket registers once, the state ends connected, and both intervals
      are armed. */
  lemma ConnectScenario(cfg: Config)
    requires cfg.enabled
    ensures var t := Run(cfg, Init, [Connect(true), SocketOpened, IceChanged(IceConnected)]);
      && t.sent == [Register(cfg.identity)]
      && t.next.state == Connected
      && t.next.heartbeatTimer == Some(1) && t.next.statsTimer == Some(2)
      && t.next.armed == {1, 2}
  {
    var s1 := OnConnect(cfg, Init, true);
    var t2 := OnSocketOpened(cfg, s1);
    var s3 := OnIceChanged(t2.next, IceConnected);
    assert Run(cfg, s3, []).sent == [];
    assert Run(cfg, t2.next, [IceChanged(IceConnected)]).sent == [];
    assert t2.sent + [] == t2.sent;
  }
}
