/** The peer session hook as a state machine. Every browser callback the hook
    installs (socket open/error/close, ICE state change, candidate produced,
    gathering complete, heartbeat tick, stats interval tick, stats report
    resolved) becomes an
    `Event`; `Step` is the one function that applies an event to the
    `Session` record and reports the signaling messages sent in response. */
module PeerSession {
  import opened Optional

  /** The hook's connection state; it starts in `Disconnected`. */
  datatype ConnectionState = Connected | Connecting | Disconnected

  /** `WebSocket.readyState`. */
  datatype ReadyState = WsConnecting | WsOpen | WsClosing | WsClosed

  /** `RTCPeerConnection.iceConnectionState`. */
  datatype IceState =
    | IceNew | IceChecking | IceConnected | IceCompleted
    | IceFailed | IceDisconnected | IceClosed

  /** The role this side registers as. */
  datatype Identity = Controller | Excavator

  /** The hook's options that affect the state machine. */
  datatype Config = Config(identity: Identity, targetPeer: string, enabled: bool)

  /** An opaque session description or candidate, already serialised. */
  type Payload = string

  /** An interval handle returned by `setInterval`. */
  type Handle = nat

  /** A message written to the signaling socket. */
  datatype Wire =
    | Register(identity: Identity)
    | Ping(from: Identity)
    | Signal(kind: string, from: Identity, to: string, payload: Payload)

  /** The counters extracted from one stats report (cumulative counts, RTT
      and jitter already in milliseconds). */
  datatype Sample = Sample(
    rtt: real,
    jitter: real,
    packetsLost: int,
    packetsReceived: int,
    bytesReceived: int,
    frameRate: real)

  /** The stats record the hook exposes. */
  datatype Stats = Stats(
    rtt: real,
    jitter: real,
    packetLossRate: real,
    packetsReceived: int,
    bytesReceived: int,
    frameRate: real)

  /** Everything the hook keeps between callbacks. `socket` is the held
      socket's ready state (None when no socket is held); `armed` is the set
      of intervals scheduled and not yet cleared, whether or not a field
      still refers to them; `nextHandle` is the next handle to hand out;
      `inFlight` counts the `getStats()` calls whose promise has not yet
      settled. */
  datatype Session = Session(
    state: ConnectionState,
    socket: Option<ReadyState>,
    peerHeld: bool,
    statsTimer: Option<Handle>,
    heartbeatTimer: Option<Handle>,
    armed: set<Handle>,
    nextHandle: Handle,
    prevLost: Option<int>,
    prevReceived: Option<int>,
    ping: int,
    stats: Option<Stats>,
    inFlight: nat)

  datatype Event =
    | Connect(socketCreated: bool)      // `connect()`; false when the socket constructor throws
    | SocketOpened
    | SocketError
    | SocketClosed
    | IceChanged(ice: IceState)
    | LocalCandidate(candidate: Option<Payload>)
    | GatheringComplete(offer: Payload)
    | HeartbeatTick
    | StatsRequested                    // the stats interval fires
    | StatsResolved(sample: Sample)     // an outstanding `getStats()` resolved
    | StatsFailed                       // an outstanding `getStats()` rejected
    | Disconnect

  /** The session after an event and the messages sent while handling it. */
  datatype Transition = Transition(next: Session, sent: seq<Wire>)

  const Init: Session :=
    Session(Disconnected, None, false, None, None, {}, 1, None, None, 0, None, 0)

  function HandleSet(t: Option<Handle>): set<Handle> {
    if t.Some? then {t.value} else {}
  }

  /** The handles some field of the session still refers to. */
  function Referenced(s: Session): set<Handle> {
    HandleSet(s.statsTimer) + HandleSet(s.heartbeatTimer)
  }

  /** Intervals still armed that no field refers to: nothing can clear them. */
  function Leaked(s: Session): set<Handle> {
    s.armed - Referenced(s)
  }

  /** Invariant of every reachable session. */
  ghost predicate Valid(s: Session) {
    && (forall h | h in s.armed :: h < s.nextHandle)
    && Referenced(s) <= s.armed
    && (s.statsTimer.Some? && s.heartbeatTimer.Some? ==> s.statsTimer != s.heartbeatTimer)
    && (s.prevLost.Some? <==> s.prevReceived.Some?)
    && s.ping >= 0
    && (s.stats.Some? ==> 0.0 <= s.stats.value.packetLossRate <= 100.0)
  }

  /** The fields the socket and ICE handlers never touch. */
  predicate SameMetrics(s: Session, r: Session) {
    && r.prevLost == s.prevLost
    && r.prevReceived == s.prevReceived
    && r.ping == s.ping
    && r.stats == s.stats
    && r.inFlight == s.inFlight
  }

  // ---------------------------------------------------------------------
  // Link-quality statistics

  /** `Math.max(0, d)` on a counter delta. */
  function ClampDelta(d: int): (r: nat)
    ensures r >= d
    ensures r == 0 || r == d
  {
    if d < 0 then 0 else d
  }

  /** The packet-loss percentage over the window since the previous sample.
      With no baseline the rate is 0; otherwise both deltas are clamped to
      be non-negative and the rate is lost / (lost + received) * 100, or 0
      for an empty window. */
  function LossRate(prevLost: Option<int>, prevReceived: Option<int>,
                    lost: int, received: int): (r: real)
    ensures 0.0 <= r <= 100.0
    ensures prevLost.None? || prevReceived.None? ==> r == 0.0
    ensures prevLost.Some? && prevReceived.Some? ==>
      var dl := ClampDelta(lost - prevLost.value);
      var dr := ClampDelta(received - prevReceived.value);
      && (dl + dr == 0 ==> r == 0.0)
      && (dl + dr > 0 ==> r * (dl + dr) as real == 100.0 * dl as real)
  {
    if prevLost.Some? && prevReceived.Some? then
      var dl := ClampDelta(lost - prevLost.value);
      var dr := ClampDelta(received - prevReceived.value);
      var total := dl + dr;
      if total > 0 then
        RatioBounds(dl, total);
        (dl as real / total as real) * 100.0
      else 0.0
    else 0.0
  }

  lemma RatioBounds(part: nat, total: nat)
    requires 0 < total && part <= total
    ensures 0.0 <= part as real / total as real <= 1.0
    ensures (part as real / total as real) * 100.0 * total as real == 100.0 * part as real
  {
  }

  /** `Math.round` on a non-negative or negative real: rounds half up. */
  function Round(x: real): (r: int)
    ensures x - 0.5 < r as real <= x + 0.5
  {
    (x + 0.5).Floor
  }

  /** The stats interval fires. The peer is checked here, before the
      report is requested: without a peer nothing happens; with one, a
      `getStats()` call is started and stays outstanding until it settles. */
  function OnStatsRequested(s: Session): (r: Session)
    ensures !s.peerHeld ==> r == s
    ensures s.peerHeld ==> r == s.(inFlight := s.inFlight + 1)
  {
    if s.peerHeld then s.(inFlight := s.inFlight + 1) else s
  }

  /** An outstanding report resolved. The peer is NOT checked again, so a
      report requested before `disconnect()` and resolved after it is
      applied all the same: the stats record is replaced, the baselines
      become the sample's cumulative counters, and `ping` follows the RTT
      when the RTT is positive. With no call outstanding there is nothing
      to resolve and the session is unchanged. */
  function OnStatsResolved(s: Session, m: Sample): (r: Session)
    ensures s.inFlight == 0 ==> r == s
    ensures s.inFlight > 0 ==>
      && r.inFlight == s.inFlight - 1
      && r.prevLost == Some(m.packetsLost)
      && r.prevReceived == Some(m.packetsReceived)
      && r.stats.Some?
      && r.stats.value.packetLossRate
           == LossRate(s.prevLost, s.prevReceived, m.packetsLost, m.packetsReceived)
      && r.stats.value.rtt == m.rtt
      && r.stats.value.jitter == m.jitter
      && r.stats.value.packetsReceived == m.packetsReceived
      && r.stats.value.bytesReceived == m.bytesReceived
      && r.stats.value.frameRate == m.frameRate
      && (m.rtt > 0.0 ==> r.ping == Round(m.rtt))
      && (m.rtt <= 0.0 ==> r.ping == s.ping)
      && r.(prevLost := s.prevLost, prevReceived := s.prevReceived,
            stats := s.stats, ping := s.ping, inFlight := s.inFlight) == s
  {
    if s.inFlight == 0 then s
    else
      var rate := LossRate(s.prevLost, s.prevReceived, m.packetsLost, m.packetsReceived);
      s.(prevLost := Some(m.packetsLost),
         prevReceived := Some(m.packetsReceived),
         stats := Some(Stats(m.rtt, m.jitter, rate, m.packetsReceived,
                             m.bytesReceived, m.frameRate)),
         ping := if m.rtt > 0.0 then Round(m.rtt) else s.ping,
         inFlight := s.inFlight - 1)
  }

  /** An outstanding report rejected: the error is only logged. */
  function OnStatsFailed(s: Session): (r: Session)
    ensures s.inFlight == 0 ==> r == s
    ensures s.inFlight > 0 ==> r == s.(inFlight := s.inFlight - 1)
  {
    if s.inFlight == 0 then s else s.(inFlight := s.inFlight - 1)
  }

  // ---------------------------------------------------------------------
  // Signaling

  /** `sendSignaling`: one message addressed to the target peer, written only
      while the held socket is open. */
  function SendSignaling(cfg: Config, s: Session, kind: string, payload: Payload): (out: seq<Wire>)
    ensures |out| <= 1
    ensures out != [] <==> s.socket == Some(WsOpen)
    ensures forall w | w in out ::
      w.Signal? && w.kind == kind && w.from == cfg.identity
      && w.to == cfg.targetPeer && w.payload == payload
  {
    if s.socket == Some(WsOpen) then [Signal(kind, cfg.identity, cfg.targetPeer, payload)] else []
  }

  /** The heartbeat interval's callback: a ping, only while the socket is open. */
  function Heartbeat(cfg: Config, s: Session): (out: seq<Wire>)
    ensures out != [] <==> s.socket == Some(WsOpen)
    ensures forall w | w in out :: w == Ping(cfg.identity)
  {
    if s.socket == Some(WsOpen) then [Ping(cfg.identity)] else []
  }

  // ---------------------------------------------------------------------
  // Lifecycle handlers

  /** `connect()`: a no-op unless enabled and no socket is held. Otherwise
      the state becomes connecting and a socket is held; when the socket
      constructor throws, the state ends disconnected and no socket is held. */
  function OnConnect(cfg: Config, s: Session, created: bool): (r: Session)
    ensures !cfg.enabled || s.socket.Some? ==> r == s
    ensures cfg.enabled && s.socket.None? ==>
      && r.state == (if created then Connecting else Disconnected)
      && r.socket == (if created then Some(WsConnecting) else None)
      && r.(state := s.state, socket := s.socket) == s
  {
    if !cfg.enabled || s.socket.Some? then s
    else if created then s.(state := Connecting, socket := Some(WsConnecting))
    else s.(state := Disconnected)
  }

  /** `ws.onopen`: register, arm the heartbeat and create the peer. */
  function OnSocketOpened(cfg: Config, s: Session): (t: Transition)
    ensures s.socket != Some(WsConnecting) ==> t == Transition(s, [])
    ensures s.socket == Some(WsConnecting) ==>
      && t.sent == [Register(cfg.identity)]
      && t.next.socket == Some(WsOpen)
      && t.next.peerHeld
      && t.next.heartbeatTimer == Some(s.nextHandle)
      && t.next.armed == s.armed + {s.nextHandle}
      && t.next.nextHandle == s.nextHandle + 1
      && t.next.state == s.state
      && t.next.statsTimer == s.statsTimer
      && SameMetrics(s, t.next)
  {
    if s.socket == Some(WsConnecting) then
      Transition(
        s.(socket := Some(WsOpen),
           peerHeld := true,
           heartbeatTimer := Some(s.nextHandle),
           armed := s.armed + {s.nextHandle},
           nextHandle := s.nextHandle + 1),
        [Register(cfg.identity)])
    else Transition(s, [])
  }

  /** `ws.onerror`: the state becomes disconnected. The browser has already
      moved the socket to CLOSED when the error is delivered, so the held
      socket reads as closed; nothing else changes (the heartbeat is
      cleared by the close event that follows). */
  function OnSocketError(s: Session): (r: Session)
    ensures r.state == Disconnected
    ensures r.socket == (if s.socket.Some? then Some(WsClosed) else None)
    ensures r.(state := s.state, socket := s.socket) == s
  {
    s.(state := Disconnected, socket := if s.socket.Some? then Some(WsClosed) else None)
  }

  /** `ws.onclose`: the state becomes disconnected and the heartbeat is
      cleared. The socket stays held (now closed), and no timer is armed. */
  function OnSocketClosed(s: Session): (r: Session)
    ensures r.state == Disconnected
    ensures r.heartbeatTimer == None
    ensures r.armed == s.armed - HandleSet(s.heartbeatTimer)
    ensures r.socket == (if s.socket.Some? then Some(WsClosed) else None)
    ensures r.peerHeld == s.peerHeld && r.statsTimer == s.statsTimer
    ensures r.nextHandle == s.nextHandle && SameMetrics(s, r)
  {
    s.(state := Disconnected,
       socket := if s.socket.Some? then Some(WsClosed) else None,
       heartbeatTimer := None,
       armed := s.armed - HandleSet(s.heartbeatTimer))
  }

  /** `pc.oniceconnectionstatechange`. `connected` arms a new stats interval
      and stores it over `statsTimer` without clearing the one already
      there; `failed` and `disconnected` clear the stats interval; every
      other ICE state changes nothing. */
  function OnIceChanged(s: Session, ice: IceState): (r: Session)
    ensures ice == IceConnected ==>
      && r.state == Connected
      && r.statsTimer == Some(s.nextHandle)
      && r.armed == s.armed + {s.nextHandle}
      && r.nextHandle == s.nextHandle + 1
    ensures ice == IceFailed || ice == IceDisconnected ==>
      && r.state == Disconnected
      && r.statsTimer == None
      && r.armed == s.armed - HandleSet(s.statsTimer)
      && r.nextHandle == s.nextHandle
    ensures ice != IceConnected && ice != IceFailed && ice != IceDisconnected ==> r == s
    ensures r.socket == s.socket && r.peerHeld == s.peerHeld
    ensures r.heartbeatTimer == s.heartbeatTimer && SameMetrics(s, r)
  {
    match ice
    case IceConnected =>
      s.(state := Connected,
         statsTimer := Some(s.nextHandle),
         armed := s.armed + {s.nextHandle},
         nextHandle := s.nextHandle + 1)
    case IceFailed | IceDisconnected =>
      s.(state := Disconnected,
         statsTimer := None,
         armed := s.armed - HandleSet(s.statsTimer))
    case _ => s
  }

  /** `disconnect()`: drop the peer and the socket, clear both referenced
      intervals, forget the baselines, and reset state, ping and stats.
      Reports already requested stay outstanding. */
  function OnDisconnect(s: Session): (r: Session)
    ensures r.socket == None && !r.peerHeld
    ensures r.statsTimer == None && r.heartbeatTimer == None
    ensures r.armed == s.armed - Referenced(s)
    ensures r.nextHandle == s.nextHandle
    ensures r.prevLost == None && r.prevReceived == None
    ensures r.state == Disconnected && r.ping == 0 && r.stats == None
    ensures r.inFlight == s.inFlight
  {
    Session(Disconnected, None, false, None, None, s.armed - Referenced(s),
            s.nextHandle, None, None, 0, None, s.inFlight)
  }

  // ---------------------------------------------------------------------
  // The state machine

  /** One event. Only the socket, ICE, connect and disconnect handlers move
      the connection state; only a stats report or `disconnect()` touches
      the baselines and the ping; nothing is sent unless the socket is then open. */
  function Step(cfg: Config, s: Session, e: Event): (t: Transition)
    ensures Valid(s) ==> Valid(t.next)
    ensures t.next.state != s.state ==>
      e.Connect? || e.SocketError? || e.SocketClosed? || e.IceChanged? || e.Disconnect?
    ensures !e.StatsResolved? && !e.Disconnect? ==>
      t.next.prevLost == s.prevLost && t.next.prevReceived == s.prevReceived
      && t.next.ping == s.ping
    ensures t.sent != [] ==> t.next.socket == Some(WsOpen)
  {
    match e
    case Connect(created) => Transition(OnConnect(cfg, s, created), [])
    case SocketOpened => OnSocketOpened(cfg, s)
    case SocketError => Transition(OnSocketError(s), [])
    case SocketClosed => Transition(OnSocketClosed(s), [])
    case IceChanged(ice) => Transition(OnIceChanged(s, ice), [])
    case LocalCandidate(c) =>
      Transition(s, if c.Some? then SendSignaling(cfg, s, "candidate", c.value) else [])
    case GatheringComplete(offer) => Transition(s, SendSignaling(cfg, s, "offer", offer))
    case HeartbeatTick => Transition(s, Heartbeat(cfg, s))
    case StatsRequested => Transition(OnStatsRequested(s), [])
    case StatsResolved(m) => Transition(OnStatsResolved(s, m), [])
    case StatsFailed => Transition(OnStatsFailed(s), [])
    case Disconnect => Transition(OnDisconnect(s), [])
  }

  /** A sequence of events, with every message sent along the way. */
  function Run(cfg: Config, s: Session, events: seq<Event>): (t: Transition)
    ensures Valid(s) ==> Valid(t.next)
    ensures (forall i | 0 <= i < |events| :: !events[i].StatsResolved? && !events[i].Disconnect?) ==>
      t.next.prevLost == s.prevLost && t.next.prevReceived == s.prevReceived
    decreases |events|
  {
    if events == [] then Transition(s, [])
    else
      var first := Step(cfg, s, events[0]);
      var rest := Run(cfg, first.next, events[1..]);
      Transition(rest.next, first.sent + rest.sent)
  }
}
