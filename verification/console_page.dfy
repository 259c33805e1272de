/** The console page: when the session is enabled, how the ping is graded
    and coloured, and how the sensor readings and warnings follow the
    connection state. */
module ConsolePage {
  import opened PeerSession
  import SessionFacts

  datatype Quality = Excellent | Good | Poor | Critical

  /** Display colours used by the page. */
  datatype Color = Green | Yellow | Red

  /** Ping bands: below 50, below 100, below 200, and the rest. */
  function QualityOf(ping: int): (q: Quality)
    ensures q == Excellent <==> ping < 50
    ensures q == Good <==> 50 <= ping < 100
    ensures q == Poor <==> 100 <= ping < 200
    ensures q == Critical <==> 200 <= ping
  {
    if ping < 50 then Excellent
    else if ping < 100 then Good
    else if ping < 200 then Poor
    else Critical
  }

  /** Badness of a band, for comparing bands. */
  function Rank(q: Quality): nat {
    match q
    case Excellent => 0
    case Good => 1
    case Poor => 2
    case Critical => 3
  }

  function QualityColor(q: Quality): (c: Color)
    ensures c == Green <==> q == Excellent || q == Good
    ensures c == Yellow <==> q == Poor
    ensures c == Red <==> q == Critical
  {
    match q
    case Excellent => Green
    case Good => Green
    case Poor => Yellow
    case Critical => Red
  }

  /** The page's own state. The four sensor readings are simulated while
      connected (not modelled) and reset otherwise. */
  datatype Page = Page(
    loggedIn: bool,
    username: string,
    excavatorName: string,
    hydraulicPressure: int,
    armAngle: int,
    bucketAngle: int,
    engineTemp: int)

  const Start: Page := Page(false, "", "", 0, 0, 0, 0)

  /** The `enabled` option handed to the session hook. */
  predicate Enabled(p: Page) {
    p.loggedIn && |p.excavatorName| > 0
  }

  function Login(p: Page, user: string): (r: Page)
    ensures r.loggedIn && r.username == user && r.excavatorName == p.excavatorName
  {
    p.(loggedIn := true, username := user)
  }

  function SetExcavatorName(p: Page, name: string): (r: Page)
    ensures r.excavatorName == name && r.loggedIn == p.loggedIn
  {
    p.(excavatorName := name)
  }

  /** Logging out clears the login, the names and all readings. */
  function Logout(p: Page): (r: Page)
    ensures !r.loggedIn && r.username == "" && r.excavatorName == ""
    ensures SensorsZero(r)
  {
    Page(false, "", "", 0, 0, 0, 0)
  }

  predicate SensorsZero(p: Page) {
    p.hydraulicPressure == 0 && p.armAngle == 0 && p.bucketAngle == 0 && p.engineTemp == 0
  }

  /** The effect run on every connection state change: anything but
      connected resets the readings. */
  function OnConnectionState(p: Page, st: ConnectionState): (r: Page)
    ensures st != Connected ==> SensorsZero(r)
    ensures st == Connected ==> r == p
    ensures r.loggedIn == p.loggedIn && r.username == p.username && r.excavatorName == p.excavatorName
  {
    if st == Connected then p
    else p.(hydraulicPressure := 0, armAngle := 0, bucketAngle := 0, engineTemp := 0)
  }

  /** Engine temperature colour: red above 95, yellow above 90. */
  function TempColor(temp: int): (c: Color)
    ensures c == Red <==> temp > 95
    ensures c == Yellow <==> 90 < temp <= 95
    ensures c == Green <==> temp <= 90
  {
    if temp > 95 then Red else if temp > 90 then Yellow else Green
  }

  /** The engine-overheat banner. */
  predicate OverheatBanner(st: ConnectionState, temp: int) {
    st == Connected && temp > 95
  }

  /** The full-screen "connection lost" overlay; a string is truthy when
      it is non-empty. */
  predicate ConnectionLostOverlay(p: Page, st: ConnectionState) {
    p.loggedIn && p.excavatorName != "" && st == Disconnected
  }

  /** A larger ping never gives a better band. */
  lemma QualityMonotone(p1: int, p2: int)
    requires p1 <= p2
    ensures Rank(QualityOf(p1)) <= Rank(QualityOf(p2))
  {
  }

  /** The band edges: 49 and 50, 99 and 100, 199 and 200. */
  lemma BandEdges()
    ensures QualityOf(49) == Excellent && QualityOf(50) == Good
    ensures QualityOf(99) == Good && QualityOf(100) == Poor
    ensures QualityOf(199) == Poor && QualityOf(200) == Critical
  {
  }

  /** After logout the session is disabled, whatever the state before. */
  lemma LogoutDisables(p: Page)
    ensures !Enabled(Logout(p))
  {
  }

  /** Logging in with an excavator name set enables the session; an empty
      name keeps it disabled. */
  lemma LoginEnables(p: Page, user: string)
    ensures Enabled(Login(p, user)) <==> |p.excavatorName| > 0
  {
  }

  /** Renaming the excavator decides whether the session is enabled:
      enabled exactly when logged in and the new name is non-empty. */
  lemma SetExcavatorNameEnables(p: Page, name: string)
    ensures Enabled(SetExcavatorName(p, name)) <==> p.loggedIn && name != ""
  {
  }

  /** The "connection lost" overlay shows exactly while the session is
      enabled and the hook reports disconnected, so it never shows before
      login, without an excavator name, or after logout. */
  lemma OverlayIff(p: Page, st: ConnectionState)
    ensures ConnectionLostOverlay(p, st) <==> Enabled(p) && st == Disconnected
    ensures !ConnectionLostOverlay(Logout(p), st)
  {
  }

  /** The overheat banner shows exactly when connected and the temperature
      is in the red band; it never shows while disconnected, since the
      readings are then 0. */
  lemma BannerMatchesRedBand(p: Page, st: ConnectionState)
    ensures var q := OnConnectionState(p, st);
      OverheatBanner(st, q.engineTemp) <==> st == Connected && TempColor(q.engineTemp) == Red
    ensures st != Connected ==> !OverheatBanner(st, OnConnectionState(p, st).engineTemp)
  {
  }

  /** After `disconnect()`, until a stats report arrives, the latency reads
      0 ms and the page grades it excellent, reconnecting included. */
  lemma ResetPingGradesExcellent(cfg: Config, s: Session, events: seq<Event>)
    requires forall i | 0 <= i < |events| :: !events[i].StatsResolved?
    ensures QualityOf(Run(cfg, OnDisconnect(s), events).next.ping) == Excellent
  {
    SessionFacts.PingZeroUntilFirstReport(cfg, s, events);
  }
}
