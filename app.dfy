/**
 * The application object: the bootstrap sequence that mounts the filesystem,
 * loads the settings, joins a WiFi network or opens an access point, announces
 * the device by mDNS and starts the web server, and the per-iteration poll.
 *
 * The radio, the mDNS responder, the web server, the clock and the chip reset
 * are outside the model. What they answer is passed in; what is asked of them
 * is recorded, in order, in `calls`, and the user callbacks fired are recorded
 * in `events`.
 */
module Onebiot {
  import opened Wrappers
  import opened Config
  import Numerals

  /** The station status that means "connected" on both supported chips. */
  const WlConnected: int := 3

  /** The clock counts as set once it reads at least this many seconds since the epoch. */
  const InitializeTimestamp: int := 1000000000

  const HttpPort: nat := 80
  const NotFoundBody: string := "The content you are looking for was not found."

  datatype WiFiMode = Sta | ApSta

  /** A request made of the platform. */
  datatype PlatformCall =
    | SpiffsBegin
    | SetWiFiMode(mode: WiFiMode)
    | WiFiDisconnect(wifiOff: bool)
    | WiFiBegin(ssid: string, password: Option<string>)
    | SoftAP(apSsid: string, apPassword: string)
    | MdnsBegin(host: string)
    | MdnsAddService(service: string, proto: string, port: nat)
    | MdnsUpdate
    | ServerOnNotFound(code: nat, contentType: string, body: string)
    | ServerBegin
    | ServerAddHandler(handler: nat)
    | ServerServeStatic(uri: string, path: string)
    | ServerHandleClient
    | ConfigTime(timezone: int, daylightOffset: int, server1: string, server2: string)
    | EspRestart

  /** A user callback fired. */
  datatype Event =
    | OnMountFS
    | OnLoadSettings(fileName: string)
    | OnLoadSettingsFailed(fileName: string)
    | OnWiFiBegin
    | OnWiFiFailed(message: string)
    | OnAPBegin
    | OnAPFailed(message: string)
    | OnDNSBegin
    | OnDNSFailed
    | OnInitializeTime(timestamp: int)
    | OnRestart

  /** What the platform answers during `start`. */
  datatype BootEnv = BootEnv(
    mountOk: bool,          // the filesystem mounts
    loadOpenOk: bool,       // the settings file opens for reading
    connectResult: int,     // the station's connect result
    connectStatus: nat,     // the station status read after a failed connect
    stationStatus: nat,     // the station status read before opening the access point
    softApOk: bool,         // the access point comes up
    mdnsOk: bool)           // the mDNS responder starts

  const ConnectErrorPrefix: string := "Connecting error: #"

  /** The message of a failed connect: the prefix and the status in decimal. */
  function ConnectErrorMessage(status: nat): string {
    ConnectErrorPrefix + Numerals.NumToString(status, 10)
  }

  /** The failure message carries the status code, which reads back from it. */
  lemma ConnectErrorCarriesCode(status: nat)
    ensures var m := ConnectErrorMessage(status);
      && |m| > |ConnectErrorPrefix|
      && m[..|ConnectErrorPrefix|] == ConnectErrorPrefix
      && Numerals.ParseNum(m[|ConnectErrorPrefix|..], 10) == status
  {
    var m := ConnectErrorMessage(status);
    assert m[|ConnectErrorPrefix|..] == Numerals.NumToString(status, 10);
    Numerals.ParseNumToString(status, 10);
  }

  /** The station joins: WiFi is enabled, an SSID is stored and the connect result is "connected". */
  predicate WiFiConnects(r: Record, connectResult: int) {
    r.wifiEstablish && r.wifiSsid != "" && connectResult == WlConnected
  }

  /** The station calls `startWiFi` makes once WiFi is enabled. */
  function StationCalls(r: Record): seq<PlatformCall> {
    [SetWiFiMode(Sta), WiFiDisconnect(true)]
    + (if r.wifiSsid == "" then []
       else [WiFiBegin(r.wifiSsid, if r.wifiPassword == "" then None else Some(r.wifiPassword))])
  }

  /** The callback `startWiFi` fires. */
  function WiFiOutcome(r: Record, connectResult: int, status: nat): Event {
    if !r.wifiEstablish then OnWiFiFailed("WiFi is off")
    else if r.wifiSsid == "" then OnWiFiFailed("No SSID is available")
    else if connectResult != WlConnected then OnWiFiFailed(ConnectErrorMessage(status))
    else OnWiFiBegin
  }

  /**
   * `startWiFi` reports success exactly when the station joins; each failure
   * has its own message, and the station is only begun with the stored
   * password when there is one.
   */
  lemma WiFiOutcomeCases(r: Record, connectResult: int, status: nat)
    ensures (WiFiOutcome(r, connectResult, status) == OnWiFiBegin) == WiFiConnects(r, connectResult)
    ensures !r.wifiEstablish ==> WiFiOutcome(r, connectResult, status) == OnWiFiFailed("WiFi is off")
    ensures r.wifiEstablish && r.wifiSsid == "" ==>
      WiFiOutcome(r, connectResult, status) == OnWiFiFailed("No SSID is available")
    ensures r.wifiEstablish && r.wifiSsid != "" && connectResult != WlConnected ==>
      WiFiOutcome(r, connectResult, status).OnWiFiFailed?
      && WiFiOutcome(r, connectResult, status).message[..|ConnectErrorPrefix|] == ConnectErrorPrefix
    ensures r.wifiSsid != "" ==>
      WiFiBegin(r.wifiSsid, if r.wifiPassword == "" then None else Some(r.wifiPassword)) in StationCalls(r)
  {
    if r.wifiEstablish && r.wifiSsid != "" && connectResult != WlConnected {
      ConnectErrorCarriesCode(status);
    }
  }

  /** The access point calls `startAP` makes once the access point is enabled. */
  function AccessPointCalls(r: Record, stationStatus: nat): seq<PlatformCall> {
    (if stationStatus == WlConnected then [WiFiDisconnect(false)] else [])
    + [SetWiFiMode(ApSta), SoftAP(r.ApSsid(), r.apPassword)]
  }

  /** The callback `startAP` fires. */
  function AccessPointOutcome(r: Record, softApOk: bool): Event {
    if !r.apEstablish then OnAPFailed("Creating AP is off")
    else if softApOk then OnAPBegin
    else OnAPFailed("Creating AP failed")
  }

  /** The access point is always opened under a non-empty name, the built-in one when none is stored. */
  lemma AccessPointName(r: Record, stationStatus: nat)
    ensures var calls := AccessPointCalls(r, stationStatus);
      && calls[|calls| - 1] == SoftAP(r.ApSsid(), r.apPassword)
      && r.ApSsid() != ""
      && (r.apSsid == "" ==> calls[|calls| - 1].apSsid == DefaultApSsid)
      && (WiFiDisconnect(false) in calls <==> stationStatus == WlConnected)
  {
  }

  /** Whether the WiFi stage of `start` asks for a restart. */
  predicate WiFiStageRestarts(r: Record, env: BootEnv, establishWiFiAp: bool, enforce: bool) {
    r.wifiEstablish && !WiFiConnects(r, env.connectResult) && !establishWiFiAp && !r.apEstablish && enforce
  }

  /** The station flag after the station stage: set from the connect when WiFi is enabled, else kept. */
  predicate WiFiUpAfterStation(r: Record, env: BootEnv, wasWiFiStarted: bool) {
    if r.wifiEstablish then WiFiConnects(r, env.connectResult) else wasWiFiStarted
  }

  /** Whether `start` tries the access point: the station is not up and the access point is enabled. */
  predicate AccessPointStageRuns(r: Record, env: BootEnv, wasWiFiStarted: bool) {
    !WiFiUpAfterStation(r, env, wasWiFiStarted) && r.apEstablish
  }

  /** Whether the filesystem stage of `start` asks for a restart: a needed mount failed under enforcement. */
  predicate MountRestarts(wasMounted: bool, env: BootEnv, enforce: bool) {
    !wasMounted && !env.mountOk && enforce
  }

  /** Whether the access point stage asks for a restart: it ran and the access point did not come up. */
  predicate AccessPointRestarts(r: Record, env: BootEnv, wifiUp: bool, enforce: bool) {
    !wifiUp && r.apEstablish && !env.softApOk && enforce
  }

  /** Whether the mDNS stage asks for a restart: the responder was enabled and did not start. */
  predicate MdnsRestarts(r: Record, env: BootEnv, enforce: bool) {
    r.dnsEstablish && !env.mdnsOk && enforce
  }

  /** Whether some stage of `start` asks for a restart. */
  predicate StartRestarts(r: Record, env: BootEnv, wasMounted: bool, wasWiFiStarted: bool,
                          establishWiFiAp: bool, enforce: bool) {
    MountRestarts(wasMounted, env, enforce)
    || WiFiStageRestarts(r, env, establishWiFiAp, enforce)
    || AccessPointRestarts(r, env, WiFiUpAfterStation(r, env, wasWiFiStarted), enforce)
    || MdnsRestarts(r, env, enforce)
  }

  /*
   * `ESP.restart()` does not return, so `start` reaches a stage only when no
   * earlier stage asked for a restart. The settings and station stages are
   * reached when the mount did not ask for one.
   */

  predicate ReachesLoad(env: BootEnv, wasMounted: bool, enforce: bool) {
    !MountRestarts(wasMounted, env, enforce)
  }

  predicate ReachesAccessPoint(r: Record, env: BootEnv, wasMounted: bool, establishWiFiAp: bool, enforce: bool) {
    ReachesLoad(env, wasMounted, enforce) && !WiFiStageRestarts(r, env, establishWiFiAp, enforce)
  }

  predicate ReachesMdns(r: Record, env: BootEnv, wasMounted: bool, wasWiFiStarted: bool,
                        establishWiFiAp: bool, enforce: bool) {
    ReachesAccessPoint(r, env, wasMounted, establishWiFiAp, enforce)
    && !AccessPointRestarts(r, env, WiFiUpAfterStation(r, env, wasWiFiStarted), enforce)
  }

  predicate ReachesWebServer(r: Record, env: BootEnv, wasMounted: bool, wasWiFiStarted: bool,
                             establishWiFiAp: bool, enforce: bool) {
    ReachesMdns(r, env, wasMounted, wasWiFiStarted, establishWiFiAp, enforce) && !MdnsRestarts(r, env, enforce)
  }

  /**
   * A failed station connect never forces a restart while an access point is
   * enabled; the access point is then tried instead. Without enforcement
   * nothing restarts.
   */
  lemma AccessPointIsFallback(r: Record, env: BootEnv, wasMounted: bool, wasWiFiStarted: bool,
                              establishWiFiAp: bool, enforce: bool)
    ensures r.apEstablish ==> !WiFiStageRestarts(r, env, establishWiFiAp, enforce)
    ensures r.wifiEstablish && !WiFiConnects(r, env.connectResult) && r.apEstablish ==>
      AccessPointStageRuns(r, env, wasWiFiStarted)
    ensures r.wifiEstablish && WiFiConnects(r, env.connectResult) ==> !AccessPointStageRuns(r, env, wasWiFiStarted)
    ensures !enforce ==> !StartRestarts(r, env, wasMounted, wasWiFiStarted, establishWiFiAp, enforce)
  {
  }

  /**
   * The state `start` changes: the started flags, whether the chip was asked
   * to reset, and the two traces. `View` reads it off the application object.
   */
  datatype AppState = AppState(
    spiffsStarted: bool,
    wifiStarted: bool,
    apStarted: bool,
    dnsStarted: bool,
    webServerStarted: bool,
    restarted: bool,
    events: seq<Event>,
    calls: seq<PlatformCall>)

  /** The calls of the mount stage: mount unless mounted, then a restart if it failed under enforcement. */
  function MountCalls(wasMounted: bool, env: BootEnv, enforce: bool): seq<PlatformCall> {
    (if wasMounted then [] else [SpiffsBegin])
    + (if MountRestarts(wasMounted, env, enforce) then [EspRestart] else [])
  }

  function MountEvents(wasMounted: bool, env: BootEnv, enforce: bool): seq<Event> {
    if MountRestarts(wasMounted, env, enforce) then [OnRestart]
    else if wasMounted || env.mountOk then [OnMountFS]
    else []
  }

  function MountStep(s: AppState, env: BootEnv, enforce: bool): AppState {
    s.(spiffsStarted := s.spiffsStarted || env.mountOk,
       restarted := s.restarted || MountRestarts(s.spiffsStarted, env, enforce),
       calls := s.calls + MountCalls(s.spiffsStarted, env, enforce),
       events := s.events + MountEvents(s.spiffsStarted, env, enforce))
  }

  /** The callback of the settings stage, fired only when the settings file is found. */
  function LoadEvents(found: bool, openOk: bool, fileName: string): seq<Event> {
    if !found then []
    else if openOk then [OnLoadSettings(fileName)]
    else [OnLoadSettingsFailed(fileName)]
  }

  function LoadStep(s: AppState, found: bool, openOk: bool, fileName: string): AppState {
    s.(events := s.events + LoadEvents(found, openOk, fileName))
  }

  function StationStageCalls(r: Record, env: BootEnv, establishWiFiAp: bool, enforce: bool): seq<PlatformCall> {
    if !r.wifiEstablish then []
    else (StationCalls(r) + (if WiFiStageRestarts(r, env, establishWiFiAp, enforce) then [EspRestart] else []))
  }

  function StationStageEvents(r: Record, env: BootEnv, establishWiFiAp: bool, enforce: bool): seq<Event> {
    if !r.wifiEstablish then []
    else ([WiFiOutcome(r, env.connectResult, env.connectStatus)]
      + (if WiFiStageRestarts(r, env, establishWiFiAp, enforce) then [OnRestart] else []))
  }

  function StationStep(s: AppState, r: Record, env: BootEnv, establishWiFiAp: bool, enforce: bool): AppState {
    s.(wifiStarted := WiFiUpAfterStation(r, env, s.wifiStarted),
       restarted := s.restarted || WiFiStageRestarts(r, env, establishWiFiAp, enforce),
       calls := s.calls + StationStageCalls(r, env, establishWiFiAp, enforce),
       events := s.events + StationStageEvents(r, env, establishWiFiAp, enforce))
  }

  function AccessPointStageCalls(r: Record, env: BootEnv, wifiUp: bool, enforce: bool): seq<PlatformCall> {
    if wifiUp || !r.apEstablish then []
    else (AccessPointCalls(r, env.stationStatus)
      + (if AccessPointRestarts(r, env, wifiUp, enforce) then [EspRestart] else []))
  }

  function AccessPointStageEvents(r: Record, env: BootEnv, wifiUp: bool, enforce: bool): seq<Event> {
    if wifiUp || !r.apEstablish then []
    else ([AccessPointOutcome(r, env.softApOk)]
      + (if AccessPointRestarts(r, env, wifiUp, enforce) then [OnRestart] else []))
  }

  function AccessPointStep(s: AppState, r: Record, env: BootEnv, enforce: bool): AppState {
    s.(apStarted := if !s.wifiStarted && r.apEstablish then env.softApOk else s.apStarted,
       restarted := s.restarted || AccessPointRestarts(r, env, s.wifiStarted, enforce),
       calls := s.calls + AccessPointStageCalls(r, env, s.wifiStarted, enforce),
       events := s.events + AccessPointStageEvents(r, env, s.wifiStarted, enforce))
  }

  /** The calls `startMDNS` makes: begin under the host name, and announce the web service if that worked. */
  function MdnsCalls(hostName: string, beginOk: bool): seq<PlatformCall> {
    [MdnsBegin(hostName)] + (if beginOk then [MdnsAddService("http", "tcp", HttpPort)] else [])
  }

  function MdnsStageCalls(r: Record, env: BootEnv, enforce: bool): seq<PlatformCall> {
    if !r.dnsEstablish then []
    else (MdnsCalls(r.DnsName(), env.mdnsOk) + (if MdnsRestarts(r, env, enforce) then [EspRestart] else []))
  }

  function MdnsStageEvents(r: Record, env: BootEnv, enforce: bool): seq<Event> {
    if !r.dnsEstablish then []
    else ([if env.mdnsOk then OnDNSBegin else OnDNSFailed] + (if MdnsRestarts(r, env, enforce) then [OnRestart] else []))
  }

  function MdnsStep(s: AppState, r: Record, env: BootEnv, enforce: bool): AppState {
    s.(dnsStarted := if r.dnsEstablish then env.mdnsOk else s.dnsStarted,
       restarted := s.restarted || MdnsRestarts(r, env, enforce),
       calls := s.calls + MdnsStageCalls(r, env, enforce),
       events := s.events + MdnsStageEvents(r, env, enforce))
  }

  function WebServerCalls(establishWebServer: bool): seq<PlatformCall> {
    if establishWebServer then [ServerOnNotFound(404, "text/plain", NotFoundBody), ServerBegin] else []
  }

  function WebServerStep(s: AppState, establishWebServer: bool): AppState {
    s.(webServerStarted := s.webServerStarted || establishWebServer,
       calls := s.calls + WebServerCalls(establishWebServer))
  }

  /**
   * The state after `start`, stage by stage, ending at the first stage that
   * asks for a restart; a chip already reset does nothing. `r` is the record once the settings are loaded, and
   * `fileThere` whether the settings file is in flash; it is found only on a
   * mounted filesystem.
   */
  function Boot(s: AppState, r: Record, env: BootEnv, establishWiFiAp: bool, establishWebServer: bool,
                enforce: bool, fileThere: bool, fileName: string): AppState {
    if s.restarted then s
    else
      var mounted := MountStep(s, env, enforce);
      if mounted.restarted then mounted
      else
        var loaded := LoadStep(mounted, mounted.spiffsStarted && fileThere, env.loadOpenOk, fileName);
        NetworkSteps(loaded, r, env, establishWiFiAp, establishWebServer, enforce)
  }

  /** The stages of `start` after the settings are loaded: station, access point, mDNS, web server. */
  function NetworkSteps(s: AppState, r: Record, env: BootEnv, establishWiFiAp: bool, establishWebServer: bool,
                        enforce: bool): AppState {
    var station := StationStep(s, r, env, establishWiFiAp, enforce);
    if station.restarted then station else AccessPointOnward(station, r, env, establishWebServer, enforce)
  }

  /** The stages of `start` from the access point on. */
  function AccessPointOnward(s: AppState, r: Record, env: BootEnv, establishWebServer: bool, enforce: bool): AppState {
    var accessPoint := AccessPointStep(s, r, env, enforce);
    if accessPoint.restarted then accessPoint else MdnsOnward(accessPoint, r, env, establishWebServer, enforce)
  }

  /** The stages of `start` from mDNS on. */
  function MdnsOnward(s: AppState, r: Record, env: BootEnv, establishWebServer: bool, enforce: bool): AppState {
    var mdns := MdnsStep(s, r, env, enforce);
    if mdns.restarted then mdns else WebServerStep(mdns, establishWebServer)
  }

  /** The calls of `start` from the mDNS stage on. */
  function MdnsOnwardCalls(r: Record, env: BootEnv, establishWebServer: bool, enforce: bool): seq<PlatformCall> {
    MdnsStageCalls(r, env, enforce)
    + (if MdnsRestarts(r, env, enforce) then [] else WebServerCalls(establishWebServer))
  }

  /** The calls of `start` from the access point stage on. */
  function AccessPointOnwardCalls(r: Record, env: BootEnv, wifiUp: bool, establishWebServer: bool,
                                  enforce: bool): seq<PlatformCall> {
    AccessPointStageCalls(r, env, wifiUp, enforce)
    + (if AccessPointRestarts(r, env, wifiUp, enforce) then [] else MdnsOnwardCalls(r, env, establishWebServer, enforce))
  }

  /** The calls of `start` from the station stage on. */
  function NetworkCalls(r: Record, env: BootEnv, wasWiFiStarted: bool, establishWiFiAp: bool,
                        establishWebServer: bool, enforce: bool): seq<PlatformCall> {
    var wifiUp := WiFiUpAfterStation(r, env, wasWiFiStarted);
    StationStageCalls(r, env, establishWiFiAp, enforce)
    + (if WiFiStageRestarts(r, env, establishWiFiAp, enforce) then []
       else AccessPointOnwardCalls(r, env, wifiUp, establishWebServer, enforce))
  }

  /** The calls `start` adds, stage by stage, up to the first restart. */
  function BootCalls(s: AppState, r: Record, env: BootEnv, establishWiFiAp: bool, establishWebServer: bool,
                     enforce: bool): seq<PlatformCall> {
    MountCalls(s.spiffsStarted, env, enforce)
    + (if MountRestarts(s.spiffsStarted, env, enforce) then []
       else NetworkCalls(r, env, s.wifiStarted, establishWiFiAp, establishWebServer, enforce))
  }

  /** The callbacks of `start` from the access point stage on. */
  function AccessPointOnwardEvents(r: Record, env: BootEnv, wifiUp: bool, enforce: bool): seq<Event> {
    AccessPointStageEvents(r, env, wifiUp, enforce)
    + (if AccessPointRestarts(r, env, wifiUp, enforce) then [] else MdnsStageEvents(r, env, enforce))
  }

  /** The callbacks of `start` from the station stage on. */
  function NetworkEvents(r: Record, env: BootEnv, wasWiFiStarted: bool, establishWiFiAp: bool,
                         enforce: bool): seq<Event> {
    var wifiUp := WiFiUpAfterStation(r, env, wasWiFiStarted);
    StationStageEvents(r, env, establishWiFiAp, enforce)
    + (if WiFiStageRestarts(r, env, establishWiFiAp, enforce) then []
       else AccessPointOnwardEvents(r, env, wifiUp, enforce))
  }

  /** The callbacks `start` fires, stage by stage, up to the first restart. */
  function BootEvents(s: AppState, r: Record, env: BootEnv, establishWiFiAp: bool,
                      enforce: bool, fileThere: bool, fileName: string): seq<Event> {
    var found := (s.spiffsStarted || env.mountOk) && fileThere;
    MountEvents(s.spiffsStarted, env, enforce)
    + (if MountRestarts(s.spiffsStarted, env, enforce) then []
       else LoadEvents(found, env.loadOpenOk, fileName) + NetworkEvents(r, env, s.wifiStarted, establishWiFiAp, enforce))
  }

  /** `x` occurs in `xs` at most once, and then as its last element. */
  predicate OnlyLast<T(==)>(xs: seq<T>, x: T) {
    x in xs ==> xs[|xs| - 1] == x && x !in xs[..|xs| - 1]
  }

  /**
   * A trace that stops after a part `a` that ends the run, and otherwise
   * goes on with `b`: what is in it, and a last element stays last.
   */
  lemma Chain<T>(a: seq<T>, stops: bool, b: seq<T>, x: T)
    ensures x in a + (if stops then [] else b) <==> x in a || (!stops && x in b)
    ensures OnlyLast(a, x) && OnlyLast(b, x) && (x in a <==> stops) ==> OnlyLast(a + (if stops then [] else b), x)
  {
    var t := a + (if stops then [] else b);
    if stops {
      assert t == a;
    } else if x in t && x !in a && OnlyLast(b, x) {
      assert x in b;
      assert t[..|t| - 1] == a + b[..|b| - 1];
    }
  }

  /** The mDNS and web server stages: their traces and flags, ending at a restart. */
  lemma MdnsOnwardState(s: AppState, r: Record, env: BootEnv, establishWebServer: bool, enforce: bool)
    requires !s.restarted
    ensures var stops := MdnsRestarts(r, env, enforce);
      MdnsOnward(s, r, env, establishWebServer, enforce) ==
        s.(dnsStarted := if r.dnsEstablish then env.mdnsOk else s.dnsStarted,
           webServerStarted := s.webServerStarted || (!stops && establishWebServer),
           restarted := stops,
           calls := s.calls + MdnsOnwardCalls(r, env, establishWebServer, enforce),
           events := s.events + MdnsStageEvents(r, env, enforce))
  {
    var c3 := MdnsStageCalls(r, env, enforce);
    if !MdnsRestarts(r, env, enforce) {
      Associative(s.calls, c3, WebServerCalls(establishWebServer));
    } else {
      AppendNil(c3);
    }
  }

  /** The stages from the access point on: their traces and flags, ending at a restart. */
  lemma AccessPointOnwardState(s: AppState, r: Record, env: BootEnv, establishWebServer: bool, enforce: bool)
    requires !s.restarted
    ensures var stops := AccessPointRestarts(r, env, s.wifiStarted, enforce);
      var mdnsStops := MdnsRestarts(r, env, enforce);
      AccessPointOnward(s, r, env, establishWebServer, enforce) ==
        s.(apStarted := if !s.wifiStarted && r.apEstablish then env.softApOk else s.apStarted,
           dnsStarted := if !stops && r.dnsEstablish then env.mdnsOk else s.dnsStarted,
           webServerStarted := s.webServerStarted || (!stops && !mdnsStops && establishWebServer),
           restarted := stops || mdnsStops,
           calls := s.calls + AccessPointOnwardCalls(r, env, s.wifiStarted, establishWebServer, enforce),
           events := s.events + AccessPointOnwardEvents(r, env, s.wifiStarted, enforce))
  {
    var a := AccessPointStep(s, r, env, enforce);
    var c2, e2 := AccessPointStageCalls(r, env, s.wifiStarted, enforce), AccessPointStageEvents(r, env, s.wifiStarted, enforce);
    if !a.restarted {
      MdnsOnwardState(a, r, env, establishWebServer, enforce);
      var c3, e3 := MdnsOnwardCalls(r, env, establishWebServer, enforce), MdnsStageEvents(r, env, enforce);
      Associative(s.calls, c2, c3);
      Associative(s.events, e2, e3);
    } else {
      AppendNil(c2);
      AppendNil(e2);
    }
  }

  /** The stages after the settings: their traces and flags, ending at a restart. */
  lemma NetworkStepsState(s: AppState, r: Record, env: BootEnv, establishWiFiAp: bool, establishWebServer: bool,
                          enforce: bool)
    requires !s.restarted
    ensures var wifiUp := WiFiUpAfterStation(r, env, s.wifiStarted);
      var stops := WiFiStageRestarts(r, env, establishWiFiAp, enforce);
      var apStops := AccessPointRestarts(r, env, wifiUp, enforce);
      var mdnsStops := MdnsRestarts(r, env, enforce);
      NetworkSteps(s, r, env, establishWiFiAp, establishWebServer, enforce) ==
        s.(wifiStarted := wifiUp,
           apStarted := if !stops && AccessPointStageRuns(r, env, s.wifiStarted) then env.softApOk else s.apStarted,
           dnsStarted := if !stops && !apStops && r.dnsEstablish then env.mdnsOk else s.dnsStarted,
           webServerStarted := s.webServerStarted || (!stops && !apStops && !mdnsStops && establishWebServer),
           restarted := stops || apStops || mdnsStops,
           calls := s.calls + NetworkCalls(r, env, s.wifiStarted, establishWiFiAp, establishWebServer, enforce),
           events := s.events + NetworkEvents(r, env, s.wifiStarted, establishWiFiAp, enforce))
  {
    var station := StationStep(s, r, env, establishWiFiAp, enforce);
    var c1, e1 := StationStageCalls(r, env, establishWiFiAp, enforce), StationStageEvents(r, env, establishWiFiAp, enforce);
    if !station.restarted {
      AccessPointOnwardState(station, r, env, establishWebServer, enforce);
      var wifiUp := WiFiUpAfterStation(r, env, s.wifiStarted);
      var c2 := AccessPointOnwardCalls(r, env, wifiUp, establishWebServer, enforce);
      var e2 := AccessPointOnwardEvents(r, env, wifiUp, enforce);
      Associative(s.calls, c1, c2);
      Associative(s.events, e1, e2);
    } else {
      AppendNil(c1);
      AppendNil(e1);
    }
  }

  /** `start` from a running chip: the traces are the stage traces up to the first restart. */
  lemma BootTraces(s: AppState, r: Record, env: BootEnv, establishWiFiAp: bool, establishWebServer: bool,
                   enforce: bool, fileThere: bool, fileName: string)
    requires !s.restarted
    ensures var t := Boot(s, r, env, establishWiFiAp, establishWebServer, enforce, fileThere, fileName);
      && t.calls == s.calls + BootCalls(s, r, env, establishWiFiAp, establishWebServer, enforce)
      && t.events == s.events + BootEvents(s, r, env, establishWiFiAp, enforce, fileThere, fileName)
      && t.restarted == StartRestarts(r, env, s.spiffsStarted, s.wifiStarted, establishWiFiAp, enforce)
  {
    var t := Boot(s, r, env, establishWiFiAp, establishWebServer, enforce, fileThere, fileName);
    var calls := BootCalls(s, r, env, establishWiFiAp, establishWebServer, enforce);
    var events := BootEvents(s, r, env, establishWiFiAp, enforce, fileThere, fileName);
    var mounted := MountStep(s, env, enforce);
    var c0, e0 := MountCalls(s.spiffsStarted, env, enforce), MountEvents(s.spiffsStarted, env, enforce);
    if mounted.restarted {
      assert t == mounted;
      assert calls == c0 + [] && events == e0 + [];
      AppendNil(c0);
      AppendNil(e0);
    } else {
      var found := mounted.spiffsStarted && fileThere;
      var loaded := LoadStep(mounted, found, env.loadOpenOk, fileName);
      assert t == NetworkSteps(loaded, r, env, establishWiFiAp, establishWebServer, enforce);
      NetworkStepsState(loaded, r, env, establishWiFiAp, establishWebServer, enforce);
      var c1 := NetworkCalls(r, env, s.wifiStarted, establishWiFiAp, establishWebServer, enforce);
      var e1, e2 := LoadEvents(found, env.loadOpenOk, fileName), NetworkEvents(r, env, s.wifiStarted, establishWiFiAp, enforce);
      assert calls == c0 + c1 && events == e0 + (e1 + e2);
      Associative(s.calls, c0, c1);
      Associative(s.events + e0, e1, e2);
      Associative(s.events, e0, e1 + e2);
    }
  }

  /**
   * `start` from a running chip sets the filesystem, station and access point
   * flags from their own stages, for the stages it reaches: the filesystem is
   * mounted if it was or the mount works, the station is up if it joins, and
   * the access point is tried only when the station is not up.
   */
  lemma BootFlags(s: AppState, r: Record, env: BootEnv, establishWiFiAp: bool, establishWebServer: bool,
                  enforce: bool, fileThere: bool, fileName: string)
    requires !s.restarted
    ensures var t := Boot(s, r, env, establishWiFiAp, establishWebServer, enforce, fileThere, fileName);
      var load := ReachesLoad(env, s.spiffsStarted, enforce);
      var ap := ReachesAccessPoint(r, env, s.spiffsStarted, establishWiFiAp, enforce);
      && t.spiffsStarted == (s.spiffsStarted || env.mountOk)
      && t.wifiStarted == (if load && r.wifiEstablish then WiFiConnects(r, env.connectResult) else s.wifiStarted)
      && t.apStarted == (if ap && AccessPointStageRuns(r, env, s.wifiStarted) then env.softApOk else s.apStarted)
  {
    var t := Boot(s, r, env, establishWiFiAp, establishWebServer, enforce, fileThere, fileName);
    var mounted := MountStep(s, env, enforce);
    if mounted.restarted {
      assert t == mounted;
    } else {
      var loaded := LoadStep(mounted, mounted.spiffsStarted && fileThere, env.loadOpenOk, fileName);
      assert t == NetworkSteps(loaded, r, env, establishWiFiAp, establishWebServer, enforce);
      NetworkStepsState(loaded, r, env, establishWiFiAp, establishWebServer, enforce);
    }
  }

  /**
   * `start` from a running chip starts mDNS as its stage says when it gets
   * that far, and the web server when a handler was registered and no stage
   * reset the chip.
   */
  lemma BootServiceFlags(s: AppState, r: Record, env: BootEnv, establishWiFiAp: bool, establishWebServer: bool,
                         enforce: bool, fileThere: bool, fileName: string)
    requires !s.restarted
    ensures var t := Boot(s, r, env, establishWiFiAp, establishWebServer, enforce, fileThere, fileName);
      var mdns := ReachesMdns(r, env, s.spiffsStarted, s.wifiStarted, establishWiFiAp, enforce);
      var web := ReachesWebServer(r, env, s.spiffsStarted, s.wifiStarted, establishWiFiAp, enforce);
      && t.dnsStarted == (if mdns && r.dnsEstablish then env.mdnsOk else s.dnsStarted)
      && t.webServerStarted == (s.webServerStarted || (web && establishWebServer))
  {
    var t := Boot(s, r, env, establishWiFiAp, establishWebServer, enforce, fileThere, fileName);
    var mounted := MountStep(s, env, enforce);
    if mounted.restarted {
      assert t == mounted;
    } else {
      var loaded := LoadStep(mounted, mounted.spiffsStarted && fileThere, env.loadOpenOk, fileName);
      assert t == NetworkSteps(loaded, r, env, establishWiFiAp, establishWebServer, enforce);
      NetworkStepsState(loaded, r, env, establishWiFiAp, establishWebServer, enforce);
    }
  }

  lemma MountStageFacts(wasMounted: bool, env: BootEnv, enforce: bool)
    ensures var calls, events := MountCalls(wasMounted, env, enforce), MountEvents(wasMounted, env, enforce);
      && (EspRestart in calls <==> MountRestarts(wasMounted, env, enforce))
      && (OnRestart in events <==> MountRestarts(wasMounted, env, enforce))
      && OnlyLast(calls, EspRestart) && OnlyLast(events, OnRestart)
      && (OnMountFS in events <==> wasMounted || env.mountOk)
      && (forall c :: c in calls ==> c == SpiffsBegin || c == EspRestart)
      && (forall e :: e in events ==> e == OnRestart || e == OnMountFS)
  {
  }

  lemma LoadStageFacts(found: bool, openOk: bool, fileName: string)
    ensures var events := LoadEvents(found, openOk, fileName);
      && (OnLoadSettings(fileName) in events <==> found && openOk)
      && (forall e :: e in events ==> e.OnLoadSettings? || e.OnLoadSettingsFailed?)
  {
  }

  lemma StationStageFacts(r: Record, env: BootEnv, establishWiFiAp: bool, enforce: bool)
    ensures var calls := StationStageCalls(r, env, establishWiFiAp, enforce);
      var events := StationStageEvents(r, env, establishWiFiAp, enforce);
      && (EspRestart in calls <==> WiFiStageRestarts(r, env, establishWiFiAp, enforce))
      && (OnRestart in events <==> WiFiStageRestarts(r, env, establishWiFiAp, enforce))
      && OnlyLast(calls, EspRestart) && OnlyLast(events, OnRestart)
      && (OnWiFiBegin in events <==> WiFiConnects(r, env.connectResult))
      && (forall c :: c in calls ==> c.SetWiFiMode? || c.WiFiDisconnect? || c.WiFiBegin? || c == EspRestart)
      && (forall e :: e in events ==> e.OnWiFiBegin? || e.OnWiFiFailed? || e == OnRestart)
  {
    WiFiOutcomeCases(r, env.connectResult, env.connectStatus);
  }

  lemma AccessPointStageFacts(r: Record, env: BootEnv, wifiUp: bool, enforce: bool)
    ensures var calls := AccessPointStageCalls(r, env, wifiUp, enforce);
      var events := AccessPointStageEvents(r, env, wifiUp, enforce);
      var runs := !wifiUp && r.apEstablish;
      && (EspRestart in calls <==> AccessPointRestarts(r, env, wifiUp, enforce))
      && (OnRestart in events <==> AccessPointRestarts(r, env, wifiUp, enforce))
      && OnlyLast(calls, EspRestart) && OnlyLast(events, OnRestart)
      && (OnAPBegin in events <==> runs && env.softApOk)
      && (forall c :: c in calls ==> c.WiFiDisconnect? || c.SetWiFiMode? || c.SoftAP? || c == EspRestart)
      && (forall e :: e in events ==> e.OnAPBegin? || e.OnAPFailed? || e == OnRestart)
  {
  }

  lemma MdnsStageFacts(r: Record, env: BootEnv, enforce: bool)
    ensures var calls, events := MdnsStageCalls(r, env, enforce), MdnsStageEvents(r, env, enforce);
      && (EspRestart in calls <==> MdnsRestarts(r, env, enforce))
      && (OnRestart in events <==> MdnsRestarts(r, env, enforce))
      && OnlyLast(calls, EspRestart) && OnlyLast(events, OnRestart)
      && (OnDNSBegin in events <==> r.dnsEstablish && env.mdnsOk)
      && (MdnsBegin(r.DnsName()) in calls <==> r.dnsEstablish)
      && (forall c :: c in calls ==> c.MdnsBegin? || c.MdnsAddService? || c == EspRestart)
      && (forall e :: e in events ==> e == OnDNSBegin || e == OnDNSFailed || e == OnRestart)
  {
  }

  lemma WebServerStageFacts(establishWebServer: bool)
    ensures (ServerBegin in WebServerCalls(establishWebServer)) == establishWebServer
    ensures forall c :: c in WebServerCalls(establishWebServer) ==> c.ServerOnNotFound? || c == ServerBegin
  {
  }

  /**
   * A restart is asked for, and its callback fired, exactly when some stage
   * of `start` fails under enforcement. The reset is then the last call and
   * its callback the last event, each occurring once: nothing runs after it.
   */
  lemma BootRestarts(s: AppState, r: Record, env: BootEnv, establishWiFiAp: bool, establishWebServer: bool,
                     enforce: bool, fileThere: bool, fileName: string)
    ensures var calls := BootCalls(s, r, env, establishWiFiAp, establishWebServer, enforce);
      && (EspRestart in calls <==> StartRestarts(r, env, s.spiffsStarted, s.wifiStarted, establishWiFiAp, enforce))
      && OnlyLast(calls, EspRestart)
    ensures var events := BootEvents(s, r, env, establishWiFiAp, enforce, fileThere, fileName);
      && (OnRestart in events <==> StartRestarts(r, env, s.spiffsStarted, s.wifiStarted, establishWiFiAp, enforce))
      && OnlyLast(events, OnRestart)
  {
    BootRestartCall(s, r, env, establishWiFiAp, establishWebServer, enforce);
    BootRestartEvent(s, r, env, establishWiFiAp, enforce, fileThere, fileName);
  }

  lemma MdnsOnwardRestartCall(r: Record, env: BootEnv, establishWebServer: bool, enforce: bool)
    ensures var calls := MdnsOnwardCalls(r, env, establishWebServer, enforce);
      (EspRestart in calls <==> MdnsRestarts(r, env, enforce)) && OnlyLast(calls, EspRestart)
  {
    MdnsStageFacts(r, env, enforce);
    WebServerStageFacts(establishWebServer);
    Chain(MdnsStageCalls(r, env, enforce), MdnsRestarts(r, env, enforce), WebServerCalls(establishWebServer), EspRestart);
  }

  lemma AccessPointOnwardRestartCall(r: Record, env: BootEnv, wifiUp: bool, establishWebServer: bool, enforce: bool)
    ensures var calls := AccessPointOnwardCalls(r, env, wifiUp, establishWebServer, enforce);
      && (EspRestart in calls <==> AccessPointRestarts(r, env, wifiUp, enforce) || MdnsRestarts(r, env, enforce))
      && OnlyLast(calls, EspRestart)
  {
    AccessPointStageFacts(r, env, wifiUp, enforce);
    MdnsOnwardRestartCall(r, env, establishWebServer, enforce);
    Chain(AccessPointStageCalls(r, env, wifiUp, enforce), AccessPointRestarts(r, env, wifiUp, enforce),
      MdnsOnwardCalls(r, env, establishWebServer, enforce), EspRestart);
  }

  lemma NetworkRestartCall(r: Record, env: BootEnv, wasWiFiStarted: bool, establishWiFiAp: bool,
                           establishWebServer: bool, enforce: bool)
    ensures var calls := NetworkCalls(r, env, wasWiFiStarted, establishWiFiAp, establishWebServer, enforce);
      var wifiUp := WiFiUpAfterStation(r, env, wasWiFiStarted);
      && (EspRestart in calls <==>
            WiFiStageRestarts(r, env, establishWiFiAp, enforce) || AccessPointRestarts(r, env, wifiUp, enforce)
            || MdnsRestarts(r, env, enforce))
      && OnlyLast(calls, EspRestart)
  {
    var wifiUp := WiFiUpAfterStation(r, env, wasWiFiStarted);
    StationStageFacts(r, env, establishWiFiAp, enforce);
    AccessPointOnwardRestartCall(r, env, wifiUp, establishWebServer, enforce);
    Chain(StationStageCalls(r, env, establishWiFiAp, enforce), WiFiStageRestarts(r, env, establishWiFiAp, enforce),
      AccessPointOnwardCalls(r, env, wifiUp, establishWebServer, enforce), EspRestart);
  }

  lemma BootRestartCall(s: AppState, r: Record, env: BootEnv, establishWiFiAp: bool, establishWebServer: bool,
                        enforce: bool)
    ensures var calls := BootCalls(s, r, env, establishWiFiAp, establishWebServer, enforce);
      && (EspRestart in calls <==> StartRestarts(r, env, s.spiffsStarted, s.wifiStarted, establishWiFiAp, enforce))
      && OnlyLast(calls, EspRestart)
  {
    MountStageFacts(s.spiffsStarted, env, enforce);
    NetworkRestartCall(r, env, s.wifiStarted, establishWiFiAp, establishWebServer, enforce);
    Chain(MountCalls(s.spiffsStarted, env, enforce), MountRestarts(s.spiffsStarted, env, enforce),
      NetworkCalls(r, env, s.wifiStarted, establishWiFiAp, establishWebServer, enforce), EspRestart);
  }

  lemma AccessPointOnwardRestartEvent(r: Record, env: BootEnv, wifiUp: bool, enforce: bool)
    ensures var events := AccessPointOnwardEvents(r, env, wifiUp, enforce);
      && (OnRestart in events <==> AccessPointRestarts(r, env, wifiUp, enforce) || MdnsRestarts(r, env, enforce))
      && OnlyLast(events, OnRestart)
  {
    AccessPointStageFacts(r, env, wifiUp, enforce);
    MdnsStageFacts(r, env, enforce);
    Chain(AccessPointStageEvents(r, env, wifiUp, enforce), AccessPointRestarts(r, env, wifiUp, enforce),
      MdnsStageEvents(r, env, enforce), OnRestart);
  }

  lemma NetworkRestartEvent(r: Record, env: BootEnv, wasWiFiStarted: bool, establishWiFiAp: bool, enforce: bool)
    ensures var events := NetworkEvents(r, env, wasWiFiStarted, establishWiFiAp, enforce);
      var wifiUp := WiFiUpAfterStation(r, env, wasWiFiStarted);
      && (OnRestart in events <==>
            WiFiStageRestarts(r, env, establishWiFiAp, enforce) || AccessPointRestarts(r, env, wifiUp, enforce)
            || MdnsRestarts(r, env, enforce))
      && OnlyLast(events, OnRestart)
  {
    var wifiUp := WiFiUpAfterStation(r, env, wasWiFiStarted);
    StationStageFacts(r, env, establishWiFiAp, enforce);
    AccessPointOnwardRestartEvent(r, env, wifiUp, enforce);
    Chain(StationStageEvents(r, env, establishWiFiAp, enforce), WiFiStageRestarts(r, env, establishWiFiAp, enforce),
      AccessPointOnwardEvents(r, env, wifiUp, enforce), OnRestart);
  }

  lemma BootRestartEvent(s: AppState, r: Record, env: BootEnv, establishWiFiAp: bool, enforce: bool,
                         fileThere: bool, fileName: string)
    ensures var events := BootEvents(s, r, env, establishWiFiAp, enforce, fileThere, fileName);
      && (OnRestart in events <==> StartRestarts(r, env, s.spiffsStarted, s.wifiStarted, establishWiFiAp, enforce))
      && OnlyLast(events, OnRestart)
  {
    var found := (s.spiffsStarted || env.mountOk) && fileThere;
    var load := LoadEvents(found, env.loadOpenOk, fileName);
    var network := NetworkEvents(r, env, s.wifiStarted, establishWiFiAp, enforce);
    MountStageFacts(s.spiffsStarted, env, enforce);
    LoadStageFacts(found, env.loadOpenOk, fileName);
    NetworkRestartEvent(r, env, s.wifiStarted, establishWiFiAp, enforce);
    Chain(load, false, network, OnRestart);
    assert load + (if false then [] else network) == load + network;
    Chain(MountEvents(s.spiffsStarted, env, enforce), MountRestarts(s.spiffsStarted, env, enforce), load + network,
      OnRestart);
  }

  /**
   * mDNS is begun under the effective name exactly when it is enabled and
   * `start` gets that far, and the web server begins exactly when a handler
   * was registered and no stage asked for a restart.
   */
  lemma BootServices(s: AppState, r: Record, env: BootEnv, establishWiFiAp: bool, establishWebServer: bool,
                     enforce: bool)
    ensures MdnsBegin(r.DnsName()) in BootCalls(s, r, env, establishWiFiAp, establishWebServer, enforce) <==>
      ReachesMdns(r, env, s.spiffsStarted, s.wifiStarted, establishWiFiAp, enforce) && r.dnsEstablish
    ensures ServerBegin in BootCalls(s, r, env, establishWiFiAp, establishWebServer, enforce) <==>
      ReachesWebServer(r, env, s.spiffsStarted, s.wifiStarted, establishWiFiAp, enforce) && establishWebServer
  {
    MdnsStageFacts(r, env, enforce);
    WebServerStageFacts(establishWebServer);
    BootCallPresence(MdnsBegin(r.DnsName()), s, r, env, establishWiFiAp, establishWebServer, enforce);
    BootCallPresence(ServerBegin, s, r, env, establishWiFiAp, establishWebServer, enforce);
  }

  /** A service call is in the trace of `start` exactly when the mDNS or web server stage, reached, makes it. */
  lemma BootCallPresence(c: PlatformCall, s: AppState, r: Record, env: BootEnv, establishWiFiAp: bool,
                         establishWebServer: bool, enforce: bool)
    requires c.MdnsBegin? || c == ServerBegin
    ensures c in BootCalls(s, r, env, establishWiFiAp, establishWebServer, enforce) <==>
      (ReachesMdns(r, env, s.spiffsStarted, s.wifiStarted, establishWiFiAp, enforce) && c in MdnsStageCalls(r, env, enforce))
      || (ReachesWebServer(r, env, s.spiffsStarted, s.wifiStarted, establishWiFiAp, enforce)
          && c in WebServerCalls(establishWebServer))
  {
    var wifiUp := WiFiUpAfterStation(r, env, s.wifiStarted);
    ServiceCallsNotInRadioStages(c, s.spiffsStarted, r, env, establishWiFiAp, wifiUp, enforce);
    NetworkCallsHave(c, r, env, s.wifiStarted, establishWiFiAp, establishWebServer, enforce);
    var network := NetworkCalls(r, env, s.wifiStarted, establishWiFiAp, establishWebServer, enforce);
    Chain(MountCalls(s.spiffsStarted, env, enforce), MountRestarts(s.spiffsStarted, env, enforce), network, c);
  }

  /** What the calls of `start` from the station stage on hold: each stage's calls, up to the first restart. */
  lemma NetworkCallsHave(c: PlatformCall, r: Record, env: BootEnv, wasWiFiStarted: bool, establishWiFiAp: bool,
                         establishWebServer: bool, enforce: bool)
    ensures var wifiUp := WiFiUpAfterStation(r, env, wasWiFiStarted);
      var stops := WiFiStageRestarts(r, env, establishWiFiAp, enforce);
      var apStops := AccessPointRestarts(r, env, wifiUp, enforce);
      c in NetworkCalls(r, env, wasWiFiStarted, establishWiFiAp, establishWebServer, enforce) <==>
        || c in StationStageCalls(r, env, establishWiFiAp, enforce)
        || (!stops && c in AccessPointStageCalls(r, env, wifiUp, enforce))
        || (!stops && !apStops && c in MdnsStageCalls(r, env, enforce))
        || (!stops && !apStops && !MdnsRestarts(r, env, enforce) && c in WebServerCalls(establishWebServer))
  {
    var wifiUp := WiFiUpAfterStation(r, env, wasWiFiStarted);
    Chain(MdnsStageCalls(r, env, enforce), MdnsRestarts(r, env, enforce), WebServerCalls(establishWebServer), c);
    var mdns := MdnsOnwardCalls(r, env, establishWebServer, enforce);
    Chain(AccessPointStageCalls(r, env, wifiUp, enforce), AccessPointRestarts(r, env, wifiUp, enforce), mdns, c);
    var ap := AccessPointOnwardCalls(r, env, wifiUp, establishWebServer, enforce);
    Chain(StationStageCalls(r, env, establishWiFiAp, enforce), WiFiStageRestarts(r, env, establishWiFiAp, enforce), ap, c);
  }

  /** The filesystem, station and access point stages make no service call. */
  lemma ServiceCallsNotInRadioStages(c: PlatformCall, wasMounted: bool, r: Record, env: BootEnv,
                                     establishWiFiAp: bool, wifiUp: bool, enforce: bool)
    requires c.MdnsBegin? || c == ServerBegin
    ensures c !in MountCalls(wasMounted, env, enforce)
    ensures c !in StationStageCalls(r, env, establishWiFiAp, enforce)
    ensures c !in AccessPointStageCalls(r, env, wifiUp, enforce)
  {
    var c2 := StationStageCalls(r, env, establishWiFiAp, enforce);
    assert c !in c2 by { assert c2 == [] || c2 == StationCalls(r) || c2 == StationCalls(r) + [EspRestart]; }
  }

  /**
   * The filesystem callback fires exactly when the filesystem is mounted, and
   * the settings are reported loaded exactly when the filesystem is mounted,
   * the file is there and it opens.
   */
  lemma BootStorageCallbacks(s: AppState, r: Record, env: BootEnv, establishWiFiAp: bool, enforce: bool,
                             fileThere: bool, fileName: string)
    ensures var events := BootEvents(s, r, env, establishWiFiAp, enforce, fileThere, fileName);
      && (OnMountFS in events <==> (s.spiffsStarted || env.mountOk))
      && (OnLoadSettings(fileName) in events <==> (s.spiffsStarted || env.mountOk) && fileThere && env.loadOpenOk)
  {
    var found := (s.spiffsStarted || env.mountOk) && fileThere;
    MountStageFacts(s.spiffsStarted, env, enforce);
    LoadStageFacts(found, env.loadOpenOk, fileName);
    BootEventsHave(OnMountFS, s, r, env, establishWiFiAp, enforce, fileThere, fileName);
    BootEventsHave(OnLoadSettings(fileName), s, r, env, establishWiFiAp, enforce, fileThere, fileName);
    StorageEventsNotInNetwork(OnMountFS, r, env, s.wifiStarted, establishWiFiAp, enforce);
    StorageEventsNotInNetwork(OnLoadSettings(fileName), r, env, s.wifiStarted, establishWiFiAp, enforce);
  }

  /** The stages after the settings fire no filesystem or settings callback. */
  lemma StorageEventsNotInNetwork(e: Event, r: Record, env: BootEnv, wasWiFiStarted: bool, establishWiFiAp: bool,
                                  enforce: bool)
    requires e == OnMountFS || e.OnLoadSettings?
    ensures e !in NetworkEvents(r, env, wasWiFiStarted, establishWiFiAp, enforce)
  {
    StationStageFacts(r, env, establishWiFiAp, enforce);
    AccessPointStageFacts(r, env, WiFiUpAfterStation(r, env, wasWiFiStarted), enforce);
    MdnsStageFacts(r, env, enforce);
    NetworkEventsHave(e, r, env, wasWiFiStarted, establishWiFiAp, enforce);
  }

  /** A filesystem that does not mount holds no settings file: nothing is loaded or reported. */
  lemma FailedMountLoadsNothing(s: AppState, r: Record, env: BootEnv, establishWiFiAp: bool, enforce: bool,
                                fileThere: bool, fileName: string)
    requires !s.spiffsStarted && !env.mountOk
    ensures forall e :: e in BootEvents(s, r, env, establishWiFiAp, enforce, fileThere, fileName) ==>
      !e.OnLoadSettings? && !e.OnLoadSettingsFailed?
  {
    var mount := MountEvents(s.spiffsStarted, env, enforce);
    var network := NetworkEvents(r, env, s.wifiStarted, establishWiFiAp, enforce);
    assert mount == [] || mount == [OnRestart];
    NetworkLoadsNothing(r, env, s.wifiStarted, establishWiFiAp, enforce);
    if MountRestarts(s.spiffsStarted, env, enforce) {
      assert BootEvents(s, r, env, establishWiFiAp, enforce, fileThere, fileName) == mount + [];
    } else {
      assert BootEvents(s, r, env, establishWiFiAp, enforce, fileThere, fileName) == mount + ([] + network);
    }
  }

  /** The stages after the settings fire no settings callback. */
  lemma NetworkLoadsNothing(r: Record, env: BootEnv, wasWiFiStarted: bool, establishWiFiAp: bool, enforce: bool)
    ensures forall e :: e in NetworkEvents(r, env, wasWiFiStarted, establishWiFiAp, enforce) ==>
      !e.OnLoadSettings? && !e.OnLoadSettingsFailed?
  {
    StationStageFacts(r, env, establishWiFiAp, enforce);
    AccessPointStageFacts(r, env, WiFiUpAfterStation(r, env, wasWiFiStarted), enforce);
    MdnsStageFacts(r, env, enforce);
    forall e | e in NetworkEvents(r, env, wasWiFiStarted, establishWiFiAp, enforce)
      ensures !e.OnLoadSettings? && !e.OnLoadSettingsFailed?
    {
      NetworkEventsHave(e, r, env, wasWiFiStarted, establishWiFiAp, enforce);
    }
  }

  /** The station, access point and mDNS callbacks of `start` fire exactly when their stages are reached and succeed. */
  lemma BootNetworkCallbacks(s: AppState, r: Record, env: BootEnv, establishWiFiAp: bool, enforce: bool,
                             fileThere: bool, fileName: string)
    ensures var events := BootEvents(s, r, env, establishWiFiAp, enforce, fileThere, fileName);
      && (OnWiFiBegin in events <==> ReachesLoad(env, s.spiffsStarted, enforce) && WiFiConnects(r, env.connectResult))
      && (OnAPBegin in events <==>
            ReachesAccessPoint(r, env, s.spiffsStarted, establishWiFiAp, enforce)
            && AccessPointStageRuns(r, env, s.wifiStarted) && env.softApOk)
      && (OnDNSBegin in events <==>
            ReachesMdns(r, env, s.spiffsStarted, s.wifiStarted, establishWiFiAp, enforce) && r.dnsEstablish && env.mdnsOk)
  {
    BootEventsHave(OnWiFiBegin, s, r, env, establishWiFiAp, enforce, fileThere, fileName);
    BootEventsHave(OnAPBegin, s, r, env, establishWiFiAp, enforce, fileThere, fileName);
    BootEventsHave(OnDNSBegin, s, r, env, establishWiFiAp, enforce, fileThere, fileName);
    NetworkCallbacks(r, env, s.wifiStarted, establishWiFiAp, enforce);
  }

  /** The station, access point and mDNS callbacks after the settings, each from its own stage, up to the first restart. */
  lemma NetworkCallbacks(r: Record, env: BootEnv, wasWiFiStarted: bool, establishWiFiAp: bool, enforce: bool)
    ensures var network := NetworkEvents(r, env, wasWiFiStarted, establishWiFiAp, enforce);
      var stops := WiFiStageRestarts(r, env, establishWiFiAp, enforce);
      && (OnWiFiBegin in network <==> WiFiConnects(r, env.connectResult))
      && (OnAPBegin in network <==> !stops && AccessPointStageRuns(r, env, wasWiFiStarted) && env.softApOk)
      && (OnDNSBegin in network <==>
            !stops && !AccessPointRestarts(r, env, WiFiUpAfterStation(r, env, wasWiFiStarted), enforce)
            && r.dnsEstablish && env.mdnsOk)
  {
    var wifiUp := WiFiUpAfterStation(r, env, wasWiFiStarted);
    var network := NetworkEvents(r, env, wasWiFiStarted, establishWiFiAp, enforce);
    assert OnWiFiBegin in network <==> WiFiConnects(r, env.connectResult) by {
      StationStageFacts(r, env, establishWiFiAp, enforce);
      NetworkEventsHave(OnWiFiBegin, r, env, wasWiFiStarted, establishWiFiAp, enforce);
    }
    assert OnAPBegin in network <==>
      !WiFiStageRestarts(r, env, establishWiFiAp, enforce) && AccessPointStageRuns(r, env, wasWiFiStarted) && env.softApOk
    by {
      StationStageFacts(r, env, establishWiFiAp, enforce);
      AccessPointStageFacts(r, env, wifiUp, enforce);
      NetworkEventsHave(OnAPBegin, r, env, wasWiFiStarted, establishWiFiAp, enforce);
    }
    assert OnDNSBegin in network <==>
      !WiFiStageRestarts(r, env, establishWiFiAp, enforce) && !AccessPointRestarts(r, env, wifiUp, enforce)
      && r.dnsEstablish && env.mdnsOk
    by {
      StationStageFacts(r, env, establishWiFiAp, enforce);
      AccessPointStageFacts(r, env, wifiUp, enforce);
      MdnsStageFacts(r, env, enforce);
      NetworkEventsHave(OnDNSBegin, r, env, wasWiFiStarted, establishWiFiAp, enforce);
    }
  }

  /** What the callbacks of `start` hold: the mount stage's, then, when the mount does not reset the chip, the rest. */
  lemma BootEventsHave(e: Event, s: AppState, r: Record, env: BootEnv, establishWiFiAp: bool, enforce: bool,
                       fileThere: bool, fileName: string)
    ensures var found := (s.spiffsStarted || env.mountOk) && fileThere;
      e in BootEvents(s, r, env, establishWiFiAp, enforce, fileThere, fileName) <==>
        || e in MountEvents(s.spiffsStarted, env, enforce)
        || (ReachesLoad(env, s.spiffsStarted, enforce)
            && (e in LoadEvents(found, env.loadOpenOk, fileName)
                || e in NetworkEvents(r, env, s.wifiStarted, establishWiFiAp, enforce)))
  {
    var found := (s.spiffsStarted || env.mountOk) && fileThere;
    var network := NetworkEvents(r, env, s.wifiStarted, establishWiFiAp, enforce);
    var load := LoadEvents(found, env.loadOpenOk, fileName);
    Chain(MountEvents(s.spiffsStarted, env, enforce), MountRestarts(s.spiffsStarted, env, enforce), load + network, e);
  }

  /** What the callbacks of `start` from the station stage on hold: each stage's callbacks, up to the first restart. */
  lemma NetworkEventsHave(e: Event, r: Record, env: BootEnv, wasWiFiStarted: bool, establishWiFiAp: bool,
                          enforce: bool)
    ensures var wifiUp := WiFiUpAfterStation(r, env, wasWiFiStarted);
      var stops := WiFiStageRestarts(r, env, establishWiFiAp, enforce);
      e in NetworkEvents(r, env, wasWiFiStarted, establishWiFiAp, enforce) <==>
        || e in StationStageEvents(r, env, establishWiFiAp, enforce)
        || (!stops && e in AccessPointStageEvents(r, env, wifiUp, enforce))
        || (!stops && !AccessPointRestarts(r, env, wifiUp, enforce) && e in MdnsStageEvents(r, env, enforce))
  {
    var wifiUp := WiFiUpAfterStation(r, env, wasWiFiStarted);
    Chain(AccessPointStageEvents(r, env, wifiUp, enforce), AccessPointRestarts(r, env, wifiUp, enforce),
      MdnsStageEvents(r, env, enforce), e);
    var ap := AccessPointOnwardEvents(r, env, wifiUp, enforce);
    Chain(StationStageEvents(r, env, establishWiFiAp, enforce), WiFiStageRestarts(r, env, establishWiFiAp, enforce), ap, e);
  }

  /** The first clock reading at or past the bound. */
  function FirstAtLeast(clock: seq<int>, bound: int): (k: nat)
    requires exists i :: 0 <= i < |clock| && clock[i] >= bound
    ensures k < |clock|
  {
    if clock[0] >= bound then 0
    else
      assert exists i :: 1 <= i < |clock| && clock[i] >= bound;
      assert exists i :: 0 <= i < |clock[1..]| && clock[1..][i] >= bound by {
        var i :| 1 <= i < |clock| && clock[i] >= bound;
        assert clock[1..][i - 1] == clock[i];
      }
      1 + FirstAtLeast(clock[1..], bound)
  }

  /** `FirstAtLeast` finds a reading at or past the bound, and every earlier one is below it. */
  lemma {:induction false} FirstAtLeastIsFirst(clock: seq<int>, bound: int)
    requires exists i :: 0 <= i < |clock| && clock[i] >= bound
    ensures var k := FirstAtLeast(clock, bound);
      clock[k] >= bound && forall j :: 0 <= j < k ==> clock[j] < bound
  {
    if clock[0] < bound {
      assert exists i :: 0 <= i < |clock[1..]| && clock[1..][i] >= bound by {
        var i :| 0 <= i < |clock| && clock[i] >= bound;
        assert i != 0;
        assert clock[1..][i - 1] == clock[i];
      }
      FirstAtLeastIsFirst(clock[1..], bound);
      var k := FirstAtLeast(clock, bound);
      forall j | 0 <= j < k ensures clock[j] < bound {
        if j > 0 {
          assert clock[j] == clock[1..][j - 1];
        }
      }
    }
  }

  /**
   * The application. It holds the configuration object by reference, the
   * started flags, the establish flags and the last clock reading.
   */
  class App {
    const store: ConfigStore
    var spiffsStarted: bool
    var wifiStarted: bool
    var apStarted: bool
    var dnsStarted: bool
    var webServerStarted: bool
    /** Set once the chip has been asked to reset; `ESP.restart()` does not return, so nothing runs after it. */
    var restarted: bool
    /** Never set: its setter is declared but has no definition. */
    var establishWiFiAp: bool
    var establishWebServer: bool
    var timestamp: int
    var events: seq<Event>
    var calls: seq<PlatformCall>

    /** The clock reading starts as whatever the object's storage held; it is passed in. */
    constructor (store: ConfigStore, timestamp: int)
      ensures this.store == store && this.timestamp == timestamp
      ensures !spiffsStarted && !wifiStarted && !apStarted && !dnsStarted && !webServerStarted && !restarted
      ensures !establishWiFiAp && !establishWebServer
      ensures events == [] && calls == []
    {
      this.store := store;
      this.timestamp := timestamp;
      spiffsStarted, wifiStarted, apStarted, dnsStarted, webServerStarted := false, false, false, false, false;
      restarted := false;
      establishWiFiAp, establishWebServer := false, false;
      events, calls := [], [];
    }

    /** A by-value copy of the configuration object, sharing its record. */
    method GetConfig() returns (c: ConfigStore)
      ensures fresh(c)
      ensures c.config == store.config && c.configFile == store.configFile
      ensures c.fs == store.fs && c.codec == store.codec
    {
      c := store.Copy();
    }

    /** Whether the station is enabled: the `wifi_establish` flag of the shared record. */
    function CouldEstablishWiFiConnection(): (enabled: bool)
      reads store.config
      ensures enabled <==> store.config.Value().wifiEstablish
    {
      store.GetConfig().wifiEstablish
    }

    /** Whether the access point is enabled: the `ap_establish` flag of the shared record. */
    function CouldEstablishWiFiAP(): (enabled: bool)
      reads store.config
      ensures enabled <==> store.config.Value().apEstablish
    {
      store.GetConfig().apEstablish
    }

    /** Whether the mDNS responder is enabled: the `dns_establish` flag of the shared record. */
    function CouldEstablishMDNS(): (enabled: bool)
      reads store.config
      ensures enabled <==> store.config.Value().dnsEstablish
    {
      store.GetConfig().dnsEstablish
    }

    /** The mounted flag, as the stage functions track it. */
    function IsSpiffsStarted(): (started: bool)
      reads this
      ensures started <==> View().spiffsStarted
    {
      spiffsStarted
    }

    /** The station flag, as the stage functions track it. */
    function IsWifiStarted(): (started: bool)
      reads this
      ensures started <==> View().wifiStarted
    {
      wifiStarted
    }

    /** The access point flag, as the stage functions track it. */
    function IsApStarted(): (started: bool)
      reads this
      ensures started <==> View().apStarted
    {
      apStarted
    }

    /** The mDNS flag, as the stage functions track it. */
    function IsDnsStarted(): (started: bool)
      reads this
      ensures started <==> View().dnsStarted
    {
      dnsStarted
    }

    /** The web server flag, as the stage functions track it. */
    function IsWebserverStarted(): (started: bool)
      reads this
      ensures started <==> View().webServerStarted
    {
      webServerStarted
    }

    /** Mounts the filesystem; the flag records whether it mounted. */
    method MountFS(ok: bool) returns (started: bool)
      modifies this`spiffsStarted, this`calls
      ensures started == ok && spiffsStarted == ok
      ensures calls == old(calls) + [SpiffsBegin]
    {
      calls := calls + [SpiffsBegin];
      spiffsStarted := ok;
      started := spiffsStarted;
    }

    /** Fires the restart callback and asks the chip to reset, which ends the run. */
    method Restart()
      modifies this`events, this`calls, this`restarted
      ensures restarted
      ensures events == old(events) + [OnRestart]
      ensures calls == old(calls) + [EspRestart]
    {
      events := events + [OnRestart];
      calls := calls + [EspRestart];
      restarted := true;
    }

    /**
     * Joins the stored network as a station. With WiFi disabled it only
     * reports that; otherwise it resets the station, and the started flag
     * becomes whether the station joined.
     */
    method StartWiFi(connectResult: int, status: nat) returns (ok: bool)
      modifies this`wifiStarted, this`events, this`calls
      ensures var r := store.GetConfig();
        && ok == WiFiConnects(r, connectResult)
        && wifiStarted == (if r.wifiEstablish then ok else old(wifiStarted))
        && calls == old(calls) + (if r.wifiEstablish then StationCalls(r) else [])
        && events == old(events) + [WiFiOutcome(r, connectResult, status)]
    {
      var r := store.GetConfig();
      if !CouldEstablishWiFiConnection() {
        events := events + [OnWiFiFailed("WiFi is off")];
        return false;
      }
      calls := calls + [SetWiFiMode(Sta), WiFiDisconnect(true)];
      if r.wifiSsid == "" {
        events := events + [OnWiFiFailed("No SSID is available")];
        wifiStarted := false;
        return wifiStarted;
      }
      if r.wifiPassword == "" {
        calls := calls + [WiFiBegin(r.wifiSsid, None)];
      } else {
        calls := calls + [WiFiBegin(r.wifiSsid, Some(r.wifiPassword))];
      }
      if connectResult != WlConnected {
        events := events + [OnWiFiFailed(ConnectErrorMessage(status))];
        wifiStarted := false;
        return wifiStarted;
      }
      events := events + [OnWiFiBegin];
      wifiStarted := true;
      ok := wifiStarted;
    }

    /** Rejoins only when the station was started and is no longer connected. */
    method ReconnectWiFi(status: int, connectResult: int, connectStatus: nat)
      modifies this`wifiStarted, this`events, this`calls
      ensures var r := store.GetConfig();
        var again := old(wifiStarted) && status != WlConnected;
        && wifiStarted == (if again && r.wifiEstablish then WiFiConnects(r, connectResult) else old(wifiStarted))
        && calls == old(calls) + (if again && r.wifiEstablish then StationCalls(r) else [])
        && events == old(events) + (if again then [WiFiOutcome(r, connectResult, connectStatus)] else [])
    {
      if IsWifiStarted() && status != WlConnected {
        var _ := StartWiFi(connectResult, connectStatus);
      }
    }

    /**
     * Opens the access point under the stored name (or the built-in one),
     * first dropping a connected station. The started flag becomes whether it opened.
     */
    method StartAP(stationStatus: nat, softApOk: bool) returns (ok: bool)
      modifies this`apStarted, this`events, this`calls
      ensures var r := store.GetConfig();
        && ok == (r.apEstablish && softApOk)
        && apStarted == ok
        && calls == old(calls) + (if r.apEstablish then AccessPointCalls(r, stationStatus) else [])
        && events == old(events) + [AccessPointOutcome(r, softApOk)]
    {
      var r := store.GetConfig();
      if !CouldEstablishWiFiAP() {
        events := events + [OnAPFailed("Creating AP is off")];
        apStarted := false;
        return apStarted;
      }
      if stationStatus == WlConnected {
        calls := calls + [WiFiDisconnect(false)];
      }
      calls := calls + [SetWiFiMode(ApSta), SoftAP(r.ApSsid(), r.apPassword)];
      var result := softApOk;
      if !result {
        events := events + [OnAPFailed("Creating AP failed")];
      } else {
        events := events + [OnAPBegin];
      }
      apStarted := result;
      ok := apStarted;
    }

    /** Starts the mDNS responder under a host name and announces the web service on port 80. */
    method StartMDNSNamed(hostName: string, beginOk: bool) returns (ok: bool)
      modifies this`dnsStarted, this`events, this`calls
      ensures ok == beginOk && dnsStarted == ok
      ensures calls == old(calls) + MdnsCalls(hostName, beginOk)
      ensures events == old(events) + [if beginOk then OnDNSBegin else OnDNSFailed]
    {
      calls := calls + [MdnsBegin(hostName)];
      if !beginOk {
        events := events + [OnDNSFailed];
        dnsStarted := false;
        return dnsStarted;
      }
      calls := calls + [MdnsAddService("http", "tcp", HttpPort)];
      events := events + [OnDNSBegin];
      dnsStarted := true;
      ok := dnsStarted;
    }

    /** Starts the mDNS responder under the stored name, or the built-in one. */
    method StartMDNS(beginOk: bool) returns (ok: bool)
      modifies this`dnsStarted, this`events, this`calls
      ensures ok == beginOk && dnsStarted == ok
      ensures calls == old(calls) + MdnsCalls(store.GetConfig().DnsName(), beginOk)
      ensures events == old(events) + [if beginOk then OnDNSBegin else OnDNSFailed]
    {
      ok := StartMDNSNamed(store.GetConfig().DnsName(), beginOk);
    }

    /** Registers a request handler, and so the web server, when some network interface is enabled. */
    method AddRequestHandler(handler: nat)
      modifies this`establishWebServer, this`calls
      ensures var enabled := CouldEstablishWiFiConnection() || CouldEstablishWiFiAP();
        && calls == old(calls) + (if enabled then [ServerAddHandler(handler)] else [])
        && establishWebServer == (old(establishWebServer) || enabled)
    {
      if CouldEstablishWiFiConnection() || CouldEstablishWiFiAP() {
        calls := calls + [ServerAddHandler(handler)];
        if !establishWebServer {
          establishWebServer := true;
        }
      }
    }

    /** Serves a path of the filesystem under the same URI, when some network interface is enabled. */
    method AddServeStatic(uri: string)
      modifies this`establishWebServer, this`calls
      ensures var enabled := CouldEstablishWiFiConnection() || CouldEstablishWiFiAP();
        && calls == old(calls) + (if enabled then [ServerServeStatic(uri, uri)] else [])
        && establishWebServer == (old(establishWebServer) || enabled)
    {
      if CouldEstablishWiFiConnection() || CouldEstablishWiFiAP() {
        calls := calls + [ServerServeStatic(uri, uri)];
        if !establishWebServer {
          establishWebServer := true;
        }
      }
    }

    /** The part of the application's state that `start` changes. */
    function View(): AppState
      reads this
    {
      AppState(spiffsStarted, wifiStarted, apStarted, dnsStarted, webServerStarted, restarted, events, calls)
    }

    /** The filesystem stage of `start`: mount unless mounted; a failed mount under enforcement asks for a restart. */
    method MountStage(enforce: bool, env: BootEnv)
      modifies this`spiffsStarted, this`restarted, this`events, this`calls
      ensures View() == MountStep(old(View()), env, enforce)
    {
      var mountFailed := false;
      if !spiffsStarted {
        var mounted := MountFS(env.mountOk);
        mountFailed := !mounted;
      }
      if mountFailed && enforce {
        Restart();
      } else if spiffsStarted {
        events := events + [OnMountFS];
      }
    }

    /**
     * The settings stage of `start`: loads the settings file when it is
     * present and reports the outcome. `SPIFFS.exists` finds nothing on a
     * filesystem that is not mounted, so the file is looked for only then.
     */
    method LoadStage(env: BootEnv)
      modifies this`events, store.config
      ensures store.GetConfig() ==
        if spiffsStarted && store.configFile in store.fs.files && env.loadOpenOk
        then Decode(store.codec.parse(store.fs.files[store.configFile]))
        else old(store.GetConfig())
      ensures View() ==
        LoadStep(old(View()), spiffsStarted && store.configFile in store.fs.files, env.loadOpenOk, store.configFile)
    {
      if spiffsStarted && store.ConfigExists() {
        var loaded := store.Load(env.loadOpenOk);
        if loaded {
          events := events + [OnLoadSettings(store.GetConfigFileName())];
        } else {
          events := events + [OnLoadSettingsFailed(store.GetConfigFileName())];
        }
      }
    }

    /** The station stage of `start`: a failure forces a restart only when no access point may follow. */
    method StationStage(enforce: bool, env: BootEnv)
      modifies this`wifiStarted, this`restarted, this`events, this`calls
      ensures View() == StationStep(old(View()), store.GetConfig(), env, establishWiFiAp, enforce)
    {
      ghost var r, v0 := store.GetConfig(), View();
      if CouldEstablishWiFiConnection() {
        var joined := StartWiFi(env.connectResult, env.connectStatus);
        ghost var event := WiFiOutcome(r, env.connectResult, env.connectStatus);
        if !joined && !establishWiFiAp && !CouldEstablishWiFiAP() && enforce {
          if enforce {
            Restart();
          }
          assert calls == v0.calls + (StationCalls(r) + [EspRestart]);
          assert events == v0.events + ([event] + [OnRestart]);
        }
      }
    }

    /** The access point stage of `start`: tried when the station is not up and the access point is enabled. */
    method AccessPointStage(enforce: bool, env: BootEnv)
      modifies this`apStarted, this`restarted, this`events, this`calls
      ensures View() == AccessPointStep(old(View()), store.GetConfig(), env, enforce)
    {
      if !wifiStarted && CouldEstablishWiFiAP() {
        var apUp := StartAP(env.stationStatus, env.softApOk);
        if !apUp && enforce {
          Restart();
        }
      }
    }

    /** The mDNS stage of `start`. */
    method MdnsStage(enforce: bool, env: BootEnv)
      modifies this`dnsStarted, this`restarted, this`events, this`calls
      ensures View() == MdnsStep(old(View()), store.GetConfig(), env, enforce)
    {
      if CouldEstablishMDNS() {
        var announced := StartMDNS(env.mdnsOk);
        if !announced && enforce {
          Restart();
        }
      }
    }

    /** The web server stage of `start`: begins with its not-found page once some handler was registered. */
    method WebServerStage()
      modifies this`webServerStarted, this`calls
      ensures View() == WebServerStep(old(View()), establishWebServer)
    {
      if establishWebServer {
        calls := calls + [ServerOnNotFound(404, "text/plain", NotFoundBody), ServerBegin];
        webServerStarted := true;
      }
    }

    /** The stages of `start` after the settings are loaded, up to the first that resets the chip. */
    method NetworkStages(enforce: bool, env: BootEnv)
      requires !restarted
      modifies this`wifiStarted, this`apStarted, this`dnsStarted, this`webServerStarted, this`restarted
      modifies this`events, this`calls
      ensures View() == NetworkSteps(old(View()), store.GetConfig(), env, establishWiFiAp, establishWebServer, enforce)
    {
      StationStage(enforce, env);
      if restarted {
        return;
      }
      AccessPointOnwardStages(enforce, env);
    }

    /** The stages of `start` from the access point on. */
    method AccessPointOnwardStages(enforce: bool, env: BootEnv)
      requires !restarted
      modifies this`apStarted, this`dnsStarted, this`webServerStarted, this`restarted, this`events, this`calls
      ensures View() == AccessPointOnward(old(View()), store.GetConfig(), env, establishWebServer, enforce)
    {
      AccessPointStage(enforce, env);
      if restarted {
        return;
      }
      MdnsOnwardStages(enforce, env);
    }

    /** The stages of `start` from mDNS on. */
    method MdnsOnwardStages(enforce: bool, env: BootEnv)
      requires !restarted
      modifies this`dnsStarted, this`webServerStarted, this`restarted, this`events, this`calls
      ensures View() == MdnsOnward(old(View()), store.GetConfig(), env, establishWebServer, enforce)
    {
      MdnsStage(enforce, env);
      if restarted {
        return;
      }
      WebServerStage();
    }

    /**
     * The bootstrap sequence. A stage that fails while `enforce` is set resets
     * the chip, and the stages after it never run; on a chip already reset
     * nothing happens.
     */
    method Start(enforce: bool, env: BootEnv)
      modifies this`spiffsStarted, this`wifiStarted, this`apStarted, this`dnsStarted, this`webServerStarted
      modifies this`restarted, this`events, this`calls, store.config
      ensures store.GetConfig() ==
        if !old(restarted) && (old(spiffsStarted) || env.mountOk) && store.configFile in store.fs.files
           && env.loadOpenOk
        then Decode(store.codec.parse(store.fs.files[store.configFile]))
        else old(store.GetConfig())
      ensures View() == Boot(old(View()), store.GetConfig(), env, establishWiFiAp, establishWebServer, enforce,
                             store.configFile in store.fs.files, store.configFile)
    {
      if restarted {
        return;
      }
      MountStage(enforce, env);
      if restarted {
        return;
      }
      LoadStage(env);
      NetworkStages(enforce, env);
    }

    /**
     * One poll: rejoin a dropped station when WiFi is enabled, serve pending
     * web requests once the server runs, refresh mDNS once the responder runs.
     */
    method Loop(status: int, connectResult: int, connectStatus: nat)
      modifies this`wifiStarted, this`events, this`calls
      ensures var r := store.GetConfig();
        var again := !restarted && r.wifiEstablish && old(wifiStarted) && status != WlConnected;
        && wifiStarted == (if again then WiFiConnects(r, connectResult) else old(wifiStarted))
        && events == old(events) + (if again then [WiFiOutcome(r, connectResult, connectStatus)] else [])
        && calls == old(calls)
             + (if again then StationCalls(r) else [])
             + (if !restarted && webServerStarted then [ServerHandleClient] else [])
             + (if !restarted && dnsStarted then [MdnsUpdate] else [])
    {
      if restarted {
        return;
      }
      if CouldEstablishWiFiConnection() {
        ReconnectWiFi(status, connectResult, connectStatus);
      }
      if webServerStarted {
        calls := calls + [ServerHandleClient];
      }
      if dnsStarted {
        calls := calls + [MdnsUpdate];
      }
    }

    /**
     * Configures network time and waits until the clock reads a plausible
     * date: each reading is taken from `clock` in turn. The wait only ends if
     * some reading reaches the threshold, which callers must supply.
     */
    method InitializeTime(timezone: int, daylightOffset: int, server1: string, server2: string, clock: seq<int>)
      returns (readings: nat)
      requires timestamp >= InitializeTimestamp
        || exists i :: 0 <= i < |clock| && clock[i] >= InitializeTimestamp
      modifies this`timestamp, this`events, this`calls
      ensures timestamp >= InitializeTimestamp
      ensures old(timestamp) >= InitializeTimestamp ==> readings == 0 && timestamp == old(timestamp)
      ensures old(timestamp) < InitializeTimestamp ==>
        readings == FirstAtLeast(clock, InitializeTimestamp) + 1 && timestamp == clock[readings - 1]
      ensures calls == old(calls) + [ConfigTime(timezone, daylightOffset, server1, server2)]
      ensures events == old(events) + [OnInitializeTime(timestamp)]
    {
      calls := calls + [ConfigTime(timezone, daylightOffset, server1, server2)];
      ghost var calls1 := calls;
      readings := 0;
      ghost var k := 0;
      if timestamp < InitializeTimestamp {
        k := FirstAtLeast(clock, InitializeTimestamp);
        FirstAtLeastIsFirst(clock, InitializeTimestamp);
      }
      while timestamp < InitializeTimestamp
        invariant readings <= |clock|
        invariant calls == calls1 && events == old(events)
        invariant old(timestamp) >= InitializeTimestamp ==> readings == 0 && timestamp == old(timestamp)
        invariant old(timestamp) < InitializeTimestamp ==> readings <= k + 1
        invariant old(timestamp) < InitializeTimestamp && readings > 0 ==> timestamp == clock[readings - 1]
        invariant old(timestamp) < InitializeTimestamp && timestamp < InitializeTimestamp ==> readings <= k
        invariant old(timestamp) < InitializeTimestamp && timestamp >= InitializeTimestamp ==> readings == k + 1
        decreases |clock| - readings
      {
        timestamp := clock[readings];
        readings := readings + 1;
      }
      events := events + [OnInitializeTime(timestamp)];
    }

    /** Takes a fresh clock reading. */
    method UpdateTime(now: int) returns (t: int)
      modifies this`timestamp
      ensures timestamp == now && t == now
    {
      timestamp := now;
      t := timestamp;
    }
  }
}
