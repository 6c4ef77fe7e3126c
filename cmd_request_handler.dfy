/**
 * The command handler: the fixed table of `/cmd/...` routes, the
 * authentication gate in front of every route, and the callbacks that read or
 * change the settings record and fill the `{success, message, data}` response
 * document, which is then sent as JSON.
 *
 * The radio (station status, mode, network scan), the chip and filesystem
 * counters, the clock and the MAC address are outside the model: what they
 * answer during one request is a `Device` value passed in.
 */
module Commands {
  import opened Wrappers
  import opened Json
  import opened Spiffs
  import opened Config
  import opened Requests

  const CmdCredentials: string := "/cmd/credentials"
  const CmdWiFi: string := "/cmd/wifi"
  const CmdWiFiList: string := "/cmd/wifi/list"
  const CmdAp: string := "/cmd/ap"
  const CmdDns: string := "/cmd/dns"
  const CmdStats: string := "/cmd/stats"
  const CmdStatsEsp: string := "/cmd/stats/esp"
  const CmdStatsSpiffs: string := "/cmd/stats/spiffs"
  const CmdOption: string := "/cmd/option/"
  const CmdReset: string := "/cmd/reset"

  /** What the option read-back answers for a secret, and for a name it does not know. */
  const SecureValue: string := "<secure_value>"
  const UnknownValue: string := "<unknown_value>"

  /** The results of a synchronous scan that are not a network count. */
  const WiFiScanRunning: int := -1
  const WiFiScanFailed: int := -2

  /** The listing loop always runs this many times. */
  const ListedNetworks: nat := 5

  /** The operations of the handler. */
  datatype Route =
    | WiFiListRoute | StatsRoute | StatsEspRoute | StatsSpiffsRoute | CredentialsRoute
    | ResetRoute | WiFiRoute | ApRoute | DnsRoute | OptionRoute

  /** The fixed part of the table, in the order the handler tests it. */
  function FixedRoute(m: HttpMethod, uri: string): Option<Route> {
    if uri == CmdWiFiList && m == HttpGet then Some(WiFiListRoute)
    else if uri == CmdStats && m == HttpGet then Some(StatsRoute)
    else if uri == CmdStatsEsp && m == HttpGet then Some(StatsEspRoute)
    else if uri == CmdStatsSpiffs && m == HttpGet then Some(StatsSpiffsRoute)
    else if uri == CmdCredentials && m == HttpPost then Some(CredentialsRoute)
    else if uri == CmdReset && m == HttpPost then Some(ResetRoute)
    else if uri == CmdWiFi && (m == HttpGet || m == HttpPost) then Some(WiFiRoute)
    else if uri == CmdAp && (m == HttpGet || m == HttpPost) then Some(ApRoute)
    else if uri == CmdDns && (m == HttpGet || m == HttpPost) then Some(DnsRoute)
    else None
  }

  /** `uri.indexOf("/cmd/option/") == 0`: the path starts with the option prefix. */
  predicate IsOptionUri(uri: string) {
    |CmdOption| <= |uri| && uri[..|CmdOption|] == CmdOption
  }

  /** `uri.substring(12)`: what follows the option prefix. */
  function OptionSuffix(uri: string): string
    requires IsOptionUri(uri)
  {
    uri[|CmdOption|..]
  }

  /** The answer of `canHandle`. */
  predicate Accepts(m: HttpMethod, uri: string) {
    FixedRoute(m, uri).Some? || (m == HttpGet && IsOptionUri(uri) && OptionSuffix(uri) != "")
  }

  /** The route `handle` dispatches to; the option route is chosen by the prefix alone. */
  function Dispatch(m: HttpMethod, uri: string): Option<Route> {
    if FixedRoute(m, uri).Some? then FixedRoute(m, uri)
    else if IsOptionUri(uri) && m == HttpGet then Some(OptionRoute)
    else None
  }

  /** The fixed routes as a plain table of (method, path) pairs. */
  const RouteTable: set<(HttpMethod, string)> := {
    (HttpGet, CmdWiFiList), (HttpGet, CmdStats), (HttpGet, CmdStatsEsp), (HttpGet, CmdStatsSpiffs),
    (HttpPost, CmdCredentials), (HttpPost, CmdReset),
    (HttpGet, CmdWiFi), (HttpPost, CmdWiFi), (HttpGet, CmdAp), (HttpPost, CmdAp),
    (HttpGet, CmdDns), (HttpPost, CmdDns)
  }

  /** No path of the fixed table starts with the option prefix. */
  lemma FixedPathsAreNotOptions(uri: string)
    requires uri in {CmdWiFiList, CmdStats, CmdStatsEsp, CmdStatsSpiffs, CmdCredentials, CmdReset, CmdWiFi, CmdAp, CmdDns}
    ensures !IsOptionUri(uri)
  {
    if |CmdOption| <= |uri| {
      assert uri[5] != CmdOption[5];
      assert uri[..|CmdOption|][5] == uri[5];
    }
  }

  /**
   * `canHandle` accepts exactly the pairs of the table, and GET on
   * `/cmd/option/<name>` with a non-empty name; everything else is refused.
   * The option prefix never collides with a fixed route.
   */
  lemma AcceptsExactly(m: HttpMethod, uri: string)
    ensures FixedRoute(m, uri).Some? <==> (m, uri) in RouteTable
    ensures Accepts(m, uri) <==>
      (m, uri) in RouteTable || (m == HttpGet && IsOptionUri(uri) && |uri| > |CmdOption|)
    ensures IsOptionUri(uri) ==> FixedRoute(m, uri).None?
  {
    if IsOptionUri(uri) && FixedRoute(m, uri).Some? {
      FixedPathsAreNotOptions(uri);
    }
  }

  /** Every request `canHandle` accepts is dispatched by `handle` to a route. */
  lemma AcceptedIsDispatched(m: HttpMethod, uri: string)
    requires Accepts(m, uri)
    ensures Dispatch(m, uri).Some?
    ensures IsOptionUri(uri) ==> Dispatch(m, uri) == Some(OptionRoute)
  {
    AcceptsExactly(m, uri);
  }

  /** One network of a scan, as the radio reports it by index. */
  datatype ScanEntry = ScanEntry(ssid: string, encryption: int, rssi: int, bssid: string, channel: int, hidden: bool)

  /** What the device answers while one request is handled. */
  datatype Device = Device(
    mac: string,                  // `WiFi.macAddress()`
    micros: nat,                  // `micros()`
    stationConnected: bool,       // `WiFi.status() == WL_CONNECTED`
    stationData: JsonObject,      // the station details of the WiFi read-back
    apStaMode: bool,              // `WiFi.getMode() == WIFI_AP_STA`
    apData: JsonObject,           // the access point details of the AP read-back
    scanCount: int,               // `WiFi.scanNetworks()`
    scanEntry: nat -> ScanEntry,  // the network the radio reports under an index
    scanCompleteAfterDelete: int, // `WiFi.scanComplete()` right after `scanDelete()`
    stats: JsonObject,            // the counters of the three statistics routes
    espStats: JsonObject,
    spiffsStats: JsonObject,
    writeOk: bool)                // the settings file opens for writing

  /** A response with a message. */
  function Envelope(success: bool, message: string): (response: JsonObject)
    ensures "success" in response && response["success"] == JBool(success)
  {
    map["success" := JBool(success), "message" := JStr(message)]
  }

  /** A response with a data member. */
  function DataEnvelope(success: bool, data: Json): (response: JsonObject)
    ensures "success" in response && response["success"] == JBool(success)
  {
    map["success" := JBool(success), "data" := data]
  }

  /** What a callback leaves: the response document, the record, and whether it saved. */
  datatype Outcome = Outcome(response: JsonObject, record: Record, save: bool)

  /** The route wrote nothing and changed nothing. */
  function Nothing(r: Record): Outcome {
    Outcome(map[], r, false)
  }

  function NetworkJson(e: ScanEntry): Json {
    JObj(map["ssid" := JStr(e.ssid), "encryption" := JNum(e.encryption), "rssi" := JNum(e.rssi),
             "bssid" := JStr(e.bssid), "channel" := JNum(e.channel), "isHidden" := JBool(e.hidden)])
  }

  /** The data array of a listing: the first `ListedNetworks` indices of the scan. */
  function Networks(scanEntry: nat -> ScanEntry): (data: seq<Json>)
    ensures |data| == ListedNetworks
  {
    seq(ListedNetworks, i requires 0 <= i => NetworkJson(scanEntry(i)))
  }

  /** Whether a scan result is a count of networks the handler lists. */
  predicate Listed(scanCount: int) {
    scanCount != WiFiScanRunning && scanCount != WiFiScanFailed && scanCount != 0
  }

  /** The response of the network listing. */
  function WiFiListResponse(m: HttpMethod, d: Device): JsonObject {
    if m != HttpGet then map[]
    else if d.scanCount == WiFiScanRunning then Envelope(false, "Scanning...")
    else if d.scanCount == WiFiScanFailed then Envelope(false, "Scanning failed.")
    else if d.scanCount != 0 then DataEnvelope(true, JArr(Networks(d.scanEntry)))
    else Envelope(false, "No WiFi networks founds.")
  }

  /** The radio calls of the network listing: the scan, then, after a listing, its disposal. */
  function WiFiListEffects(m: HttpMethod, d: Device): seq<Effect> {
    if m != HttpGet then []
    else
      var disposal := if d.scanCompleteAfterDelete == WiFiScanFailed then [ScanNetworks(true)] else [];
      [ScanNetworks(false)] + (if Listed(d.scanCount) then [ScanDelete, ScanComplete] + disposal else [])
  }

  /**
   * A listing reports exactly `ListedNetworks` entries, those of the first
   * indices, however many networks were found; a running or failed scan and
   * an empty one each have their message, and the scan is deleted only after a listing.
   */
  lemma WiFiListFacts(d: Device)
    ensures var response := WiFiListResponse(HttpGet, d);
      && response["success"] == JBool(Listed(d.scanCount))
      && (Listed(d.scanCount) ==>
            "data" in response && response["data"].JArr?
            && |response["data"].items| == ListedNetworks
            && forall i :: 0 <= i < ListedNetworks ==> response["data"].items[i] == NetworkJson(d.scanEntry(i)))
      && (d.scanCount == WiFiScanRunning ==> response == Envelope(false, "Scanning..."))
      && (d.scanCount == WiFiScanFailed ==> response == Envelope(false, "Scanning failed."))
      && (d.scanCount == 0 ==> response == Envelope(false, "No WiFi networks founds."))
    ensures ScanDelete in WiFiListEffects(HttpGet, d) <==> Listed(d.scanCount)
    ensures WiFiListEffects(HttpGet, d)[0] == ScanNetworks(false)
  {
  }

  /**
   * The listing loop: one entry per index below `ListedNetworks`, each made
   * of what the radio reports under that index.
   */
  method ListNetworks(scanEntry: nat -> ScanEntry) returns (data: seq<Json>)
    ensures |data| == ListedNetworks
    ensures forall i :: 0 <= i < ListedNetworks ==> data[i] == NetworkJson(scanEntry(i))
    ensures data == Networks(scanEntry)
  {
    data := [];
    var i := 0;
    while i < ListedNetworks
      invariant 0 <= i <= ListedNetworks && |data| == i
      invariant forall j :: 0 <= j < i ==> data[j] == NetworkJson(scanEntry(j))
    {
      var network := NetworkJson(scanEntry(i));
      data := data + [network];
      i := i + 1;
    }
  }

  /**
   * The credentials update as written: both form values go through the user
   * setter, so the stored user ends up as the submitted password and the
   * stored password is never touched. The record is saved when either call
   * reported a change.
   */
  function CredentialsOutcome(m: HttpMethod, request: Request, r: Record): Outcome {
    var user, password := Arg(request, "credentials_user"), Arg(request, "credentials_password");
    if m != HttpPost then Outcome(Envelope(false, "Invalid request."), r, false)
    else if user == "" || password == "" then
      Outcome(Envelope(false, "User and password are empty. Operation is not allowed."), r, false)
    else
      var changedUser := user != r.credentialsUser;
      var changedPassword := password != user;
      Outcome(Envelope(true, "Credentials has been changed."), r.(credentialsUser := password),
              changedUser || changedPassword)
  }

  /** An empty user or password is refused: nothing is changed and nothing is saved. */
  lemma CredentialsRejected(request: Request, r: Record)
    requires Arg(request, "credentials_user") == "" || Arg(request, "credentials_password") == ""
    ensures var o := CredentialsOutcome(HttpPost, request, r);
      o.record == r && !o.save
      && o.response == Envelope(false, "User and password are empty. Operation is not allowed.")
  {
  }

  /**
   * Otherwise the password field is left as it was, the user field holds the
   * submitted password, and a save happens unless both submitted values equal
   * the stored user.
   */
  lemma CredentialsAsWritten(request: Request, r: Record)
    requires Arg(request, "credentials_user") != "" && Arg(request, "credentials_password") != ""
    ensures var o := CredentialsOutcome(HttpPost, request, r);
      var user, password := Arg(request, "credentials_user"), Arg(request, "credentials_password");
      && o.response == Envelope(true, "Credentials has been changed.")
      && o.record == r.(credentialsUser := password)
      && o.record.credentialsPassword == r.credentialsPassword
      && (o.save <==> !(user == r.credentialsUser && password == r.credentialsUser))
  {
  }

  /** So no request to the credentials route ever changes the stored password. */
  lemma CredentialsPasswordNeverChanges(m: HttpMethod, request: Request, r: Record)
    ensures CredentialsOutcome(m, request, r).record.credentialsPassword == r.credentialsPassword
  {
  }

  /** `server.args() == 0`: the request carries no form argument. */
  predicate NoArgs(request: Request) {
    |request.args| == 0
  }

  /** The WiFi route: read back the station, or store the three station settings. */
  function WiFiSettingsOutcome(m: HttpMethod, request: Request, r: Record, d: Device, asBool: string -> bool): Outcome {
    if m == HttpGet then
      Outcome(if d.stationConnected then DataEnvelope(true, JObj(d.stationData))
              else Envelope(false, "ESP is disconnected from the WiFi"), r, false)
    else if m == HttpPost then
      if NoArgs(request) then Nothing(r)
      else Outcome(Envelope(true, "WiFi settings saved. Please restart the ESP."),
                   r.(wifiSsid := Arg(request, "wifi_ssid"), wifiPassword := Arg(request, "wifi_password"),
                      wifiEstablish := asBool(Arg(request, "wifi_establish"))),
                   true)
    else Nothing(r)
  }

  /** The AP route: read back the access point, or store the three access point settings. */
  function ApSettingsOutcome(m: HttpMethod, request: Request, r: Record, d: Device, asBool: string -> bool): Outcome {
    if m == HttpGet then
      Outcome(if d.apStaMode then DataEnvelope(true, JObj(d.apData))
              else Envelope(false, "ESP has disconected AP"), r, false)
    else if m == HttpPost then
      if NoArgs(request) then Nothing(r)
      else Outcome(Envelope(true, "AP settings saved. Please restart the ESP."),
                   r.(apSsid := Arg(request, "ap_ssid"), apPassword := Arg(request, "ap_password"),
                      apEstablish := asBool(Arg(request, "ap_establish"))),
                   true)
    else Nothing(r)
  }

  /** The name data of the DNS read-back. */
  function DnsData(r: Record): Json {
    JObj(map["name" := JStr(r.DnsName()), "local_name" := JStr(r.DnsName() + ".local")])
  }

  /**
   * The DNS route: read back the effective name, or store the name and, as
   * written, feed the `dns_establish` argument to the access point flag.
   */
  function DnsSettingsOutcome(m: HttpMethod, request: Request, r: Record, asBool: string -> bool): Outcome {
    if m == HttpGet then Outcome(DataEnvelope(true, DnsData(r)), r, false)
    else if m == HttpPost then
      if NoArgs(request) then Nothing(r)
      else Outcome(Envelope(true, "DNS settings saved. Please restart the ESP."),
                   r.(dnsName := Arg(request, "dns_name"), apEstablish := asBool(Arg(request, "dns_establish"))),
                   true)
    else Nothing(r)
  }

  /**
   * A WiFi update with form arguments stores exactly the three station
   * settings and saves, whether or not anything changed.
   */
  lemma WiFiPostFacts(request: Request, r: Record, d: Device, asBool: string -> bool)
    requires !NoArgs(request)
    ensures var o := WiFiSettingsOutcome(HttpPost, request, r, d, asBool);
      && o.save && o.response == Envelope(true, "WiFi settings saved. Please restart the ESP.")
      && o.record.wifiSsid == Arg(request, "wifi_ssid") && o.record.wifiPassword == Arg(request, "wifi_password")
      && o.record == r.(wifiSsid := o.record.wifiSsid, wifiPassword := o.record.wifiPassword,
                        wifiEstablish := o.record.wifiEstablish)
  {
  }

  /**
   * An AP update with form arguments stores exactly the three access point
   * settings and saves, whether or not anything changed.
   */
  lemma ApPostFacts(request: Request, r: Record, d: Device, asBool: string -> bool)
    requires !NoArgs(request)
    ensures var o := ApSettingsOutcome(HttpPost, request, r, d, asBool);
      && o.save && o.response == Envelope(true, "AP settings saved. Please restart the ESP.")
      && o.record.apSsid == Arg(request, "ap_ssid") && o.record.apPassword == Arg(request, "ap_password")
      && o.record == r.(apSsid := o.record.apSsid, apPassword := o.record.apPassword,
                        apEstablish := o.record.apEstablish)
  {
  }

  /**
   * The DNS update as written: it stores the name and sets the access point
   * flag from the `dns_establish` argument; the discovery flag never changes.
   */
  lemma DnsPostSetsApEstablish(request: Request, r: Record, asBool: string -> bool)
    requires !NoArgs(request)
    ensures var o := DnsSettingsOutcome(HttpPost, request, r, asBool);
      && o.save && o.response == Envelope(true, "DNS settings saved. Please restart the ESP.")
      && o.record.dnsName == Arg(request, "dns_name")
      && o.record.apEstablish == asBool(Arg(request, "dns_establish"))
      && o.record.dnsEstablish == r.dnsEstablish
      && o.record == r.(dnsName := Arg(request, "dns_name"), apEstablish := asBool(Arg(request, "dns_establish")))
  {
  }

  /** The DNS read-back answers the effective name: the stored one, or the built-in one. */
  lemma DnsReadBack(r: Record)
    ensures var o := DnsSettingsOutcome(HttpGet, Request(HttpGet, CmdDns, map[], None), r, _ => false);
      && o.record == r && !o.save
      && o.response["data"].members["name"] == JStr(if r.dnsName == "" then DefaultDnsName else r.dnsName)
  {
  }

  /** The read-back of one option: whether the name is known, and the value shown. */
  function OptionValue(name: string, r: Record, mac: string, micros: nat): (bool, string) {
    if name == "client_name" then (true, r.ClientName(mac, micros))
    else if name == "credentials_user" then (true, SecureValue)
    else if name == "credentials_password" then (true, SecureValue)
    else if name == "ap_ssid" then (true, r.apSsid)
    else if name == "ap_password" then (true, SecureValue)
    else if name == "wifi_ssid" then (true, r.wifiSsid)
    else if name == "wifi_password" then (true, SecureValue)
    else (false, UnknownValue)
  }

  function OptionResponse(name: string, r: Record, mac: string, micros: nat): JsonObject {
    var (known, value) := OptionValue(name, r, mac, micros);
    DataEnvelope(known, JObj(map["name" := JStr(name), "value" := JStr(value)]))
  }

  /** The option names whose values are never shown. */
  const SecretOptions: set<string> := {"credentials_user", "credentials_password", "ap_password", "wifi_password"}

  /** The option names whose values are shown. */
  const PlainOptions: set<string> := {"client_name", "ap_ssid", "wifi_ssid"}

  /**
   * The redaction boundary: a secret name answers the sentinel, the three
   * plain names their values (the device name through its default rule),
   * and every other name the unknown sentinel with `success` false.
   */
  lemma OptionRedaction(name: string, r: Record, mac: string, micros: nat)
    ensures var (known, value) := OptionValue(name, r, mac, micros);
      && (known <==> name in SecretOptions + PlainOptions)
      && (name in SecretOptions ==> value == SecureValue)
      && (name == "client_name" ==> value == r.ClientName(mac, micros))
      && (name == "ap_ssid" ==> value == r.apSsid)
      && (name == "wifi_ssid" ==> value == r.wifiSsid)
      && (!known ==> value == UnknownValue)
    ensures OptionResponse(name, r, mac, micros)["success"] == JBool(name in SecretOptions + PlainOptions)
  {
  }

  /**
   * A secret or unknown name answers the same whatever the record holds:
   * nothing stored leaks through the read-back.
   */
  lemma OptionSecretsDoNotLeak(name: string, r1: Record, r2: Record, mac: string, micros: nat)
    requires name !in PlainOptions
    ensures OptionResponse(name, r1, mac, micros) == OptionResponse(name, r2, mac, micros)
  {
  }

  /** What the callback of a dispatched route leaves. */
  function RouteOutcome(route: Option<Route>, request: Request, r: Record, optionParam: string,
                        d: Device, asBool: string -> bool): Outcome {
    var m := request.httpMethod;
    match route
    case None => Nothing(r)
    case Some(WiFiListRoute) => Outcome(WiFiListResponse(m, d), r, false)
    case Some(StatsRoute) => Outcome(DataEnvelope(true, JObj(d.stats)), r, false)
    case Some(StatsEspRoute) => Outcome(DataEnvelope(true, JObj(d.espStats)), r, false)
    case Some(StatsSpiffsRoute) => Outcome(DataEnvelope(true, JObj(d.spiffsStats)), r, false)
    case Some(CredentialsRoute) => CredentialsOutcome(m, request, r)
    case Some(ResetRoute) => Outcome(Envelope(true, "Device restarting"), r, false)
    case Some(WiFiRoute) => WiFiSettingsOutcome(m, request, r, d, asBool)
    case Some(ApRoute) => ApSettingsOutcome(m, request, r, d, asBool)
    case Some(DnsRoute) => DnsSettingsOutcome(m, request, r, asBool)
    case Some(OptionRoute) => Outcome(OptionResponse(optionParam, r, d.mac, d.micros), r, false)
  }

  /** The radio calls a dispatched route makes. */
  function RouteEffects(route: Option<Route>, m: HttpMethod, d: Device): seq<Effect> {
    if route == Some(WiFiListRoute) then WiFiListEffects(m, d) else []
  }

  const AllowOriginHeader: string := "Access-Control-Allow-Origin"
  const JsonContentType: string := "application/json"

  /**
   * The reply of `handle`: a non-empty response is sent as JSON with status
   * 200, and a requested restart is signalled after it.
   */
  function ReplyEffects(response: JsonObject, format: JsonObject -> string, needRestart: bool): seq<Effect> {
    if response == map[] then []
    else
      var signal := if needRestart then [NeedRestart] else [];
      [SendHeader(AllowOriginHeader, "*", false), Send(200, JsonContentType, format(response))] + signal
  }

  /** The settings file after a callback: rewritten by `save` for `record` when the callback saved, else untouched. */
  ghost predicate Persisted(store: ConfigStore, files0: map<string, string>, ops0: seq<FsOp>,
                            record: Record, save: bool, writeOk: bool)
    reads store.fs
  {
    if save then
      store.fs.files == FilesAfterSave(files0, store.configFile, store.codec.format(Encode(record)), writeOk)
      && store.fs.ops == ops0 + SaveOps(files0, store.configFile)
    else store.fs.files == files0 && store.fs.ops == ops0
  }

  /**
   * Every route the handler dispatches to answers a document carrying
   * `success`, except a settings update without arguments, which answers
   * nothing.
   */
  lemma RoutesAnswer(route: Route, request: Request, r: Record, optionParam: string, d: Device, asBool: string -> bool)
    requires route.WiFiListRoute? ==> request.httpMethod == HttpGet
    requires route.WiFiRoute? || route.ApRoute? || route.DnsRoute? ==>
      request.httpMethod == HttpGet || (request.httpMethod == HttpPost && !NoArgs(request))
    ensures "success" in RouteOutcome(Some(route), request, r, optionParam, d, asBool).response
  {
  }

  /**
   * A reply is the CORS header, then the JSON document with status 200, then
   * the restart signal when one was asked for and only then.
   */
  lemma RestartSignalledLast(response: JsonObject, format: JsonObject -> string, needRestart: bool)
    requires response != map[]
    ensures var out := ReplyEffects(response, format, needRestart);
      && out[0] == SendHeader(AllowOriginHeader, "*", false)
      && out[1] == Send(200, JsonContentType, format(response))
      && (NeedRestart in out <==> needRestart)
      && (needRestart ==> out[|out| - 1] == NeedRestart)
  {
  }

  /**
   * A settings update without form arguments gets no reply at all: `handle`
   * returns false and the record and the file stay as they were.
   */
  lemma EmptySettingsPostIsIgnored(route: Route, request: Request, r: Record, optionParam: string, d: Device,
                                   asBool: string -> bool, format: JsonObject -> string)
    requires route in {WiFiRoute, ApRoute, DnsRoute}
    requires request.httpMethod == HttpPost && NoArgs(request)
    ensures var o := RouteOutcome(Some(route), request, r, optionParam, d, asBool);
      o == Nothing(r) && ReplyEffects(o.response, format, false) == []
  {
  }

  /**
   * The command handler. It holds the base handler, whose configuration
   * object shares the settings record, the option name found by the last
   * `canHandle`, and the text of the last response.
   */
  class CmdRequestHandler {
    const base: RequestHandler
    /** The conversion the settings routes apply to a form value passed where a flag is expected. */
    const asBool: string -> bool
    var optionParam: string
    var payload: string

    constructor (config: ConfigStore, asBool: string -> bool)
      ensures base.config == config && this.asBool == asBool
      ensures optionParam == "" && payload == ""
    {
      base := new RequestHandler(config);
      this.asBool := asBool;
      optionParam, payload := "", "";
    }

    /**
     * Whether the handler takes the request. For GET on an option path that
     * no fixed route matches, the name after the prefix is kept for `handle`,
     * even when it is empty and the request is refused.
     */
    method CanHandle(m: HttpMethod, uri: string) returns (accepted: bool)
      modifies this`optionParam
      ensures accepted == Accepts(m, uri)
      ensures optionParam ==
        if FixedRoute(m, uri).None? && IsOptionUri(uri) && m == HttpGet then OptionSuffix(uri) else old(optionParam)
    {
      if uri == CmdWiFiList && m == HttpGet {
        return true;
      } else if uri == CmdStats && m == HttpGet {
        return true;
      } else if uri == CmdStatsEsp && m == HttpGet {
        return true;
      } else if uri == CmdStatsSpiffs && m == HttpGet {
        return true;
      } else if uri == CmdCredentials && m == HttpPost {
        return true;
      } else if uri == CmdReset && m == HttpPost {
        return true;
      } else if uri == CmdWiFi && (m == HttpGet || m == HttpPost) {
        return true;
      } else if uri == CmdAp && (m == HttpGet || m == HttpPost) {
        return true;
      } else if uri == CmdDns && (m == HttpGet || m == HttpPost) {
        return true;
      }
      if IsOptionUri(uri) && m == HttpGet {
        optionParam := uri[|CmdOption|..];
        if optionParam == "" {
          return false;
        }
        return true;
      }
      return false;
    }

    /** The network listing: scan, list five entries, then drop the scan and restart it if it is gone. */
    method WiFiListCallback(m: HttpMethod, server: Server, d: Device) returns (response: JsonObject)
      modifies server
      ensures response == WiFiListResponse(m, d)
      ensures server.out == old(server.out) + WiFiListEffects(m, d)
    {
      response := map[];
      if m == HttpGet {
        server.Emit(ScanNetworks(false));
        var scanCount := d.scanCount;
        if scanCount == WiFiScanRunning {
          response := Envelope(false, "Scanning...");
        } else if scanCount == WiFiScanFailed {
          response := Envelope(false, "Scanning failed.");
        } else if scanCount != 0 {
          var data := ListNetworks(d.scanEntry);
          response := DataEnvelope(true, JArr(data));
          server.Emit(ScanDelete);
          server.Emit(ScanComplete);
          if d.scanCompleteAfterDelete == WiFiScanFailed {
            server.Emit(ScanNetworks(true));
          }
        } else {
          response := Envelope(false, "No WiFi networks founds.");
        }
      }
    }

    /** The credentials update proper: both values go through the user setter, then a save if either changed it. */
    method StoreCredentials(user: string, password: string, writeOk: bool)
      modifies base.config.config, base.config.fs
      ensures var r := old(base.config.GetConfig());
        && base.config.GetConfig() == r.(credentialsUser := password)
        && Persisted(base.config, old(base.config.fs.files), old(base.config.fs.ops), r.(credentialsUser := password),
                     user != r.credentialsUser || password != user, writeOk)
    {
      var store := base.config;
      var changedUser := store.SetCredentialsUser(user);
      var changedPassword := store.SetCredentialsUser(password);
      if changedUser || changedPassword {
        store.Save(writeOk);
      }
    }

    /** The station settings stored through their setters, then saved. */
    method StoreWiFi(ssid: string, password: string, establish: bool, writeOk: bool)
      modifies base.config.config, base.config.fs
      ensures var record := old(base.config.GetConfig()).(wifiSsid := ssid, wifiPassword := password, wifiEstablish := establish);
        && base.config.GetConfig() == record
        && Persisted(base.config, old(base.config.fs.files), old(base.config.fs.ops), record, true, writeOk)
    {
      var store := base.config;
      var _ := store.SetWiFiSsid(ssid);
      var _ := store.SetWiFiPassword(password);
      var _ := store.SetWiFiEstablish(establish);
      store.Save(writeOk);
    }

    /** The access point settings stored through their setters, then saved. */
    method StoreAp(ssid: string, password: string, establish: bool, writeOk: bool)
      modifies base.config.config, base.config.fs
      ensures var record := old(base.config.GetConfig()).(apSsid := ssid, apPassword := password, apEstablish := establish);
        && base.config.GetConfig() == record
        && Persisted(base.config, old(base.config.fs.files), old(base.config.fs.ops), record, true, writeOk)
    {
      var store := base.config;
      var _ := store.SetApSsid(ssid);
      var _ := store.SetApPassword(password);
      var _ := store.SetApEstablish(establish);
      store.Save(writeOk);
    }

    /** The mDNS name and, as written, the access point flag stored through their setters, then saved. */
    method StoreDns(name: string, apEstablish: bool, writeOk: bool)
      modifies base.config.config, base.config.fs
      ensures var record := old(base.config.GetConfig()).(dnsName := name, apEstablish := apEstablish);
        && base.config.GetConfig() == record
        && Persisted(base.config, old(base.config.fs.files), old(base.config.fs.ops), record, true, writeOk)
    {
      var store := base.config;
      var _ := store.SetDnsName(name);
      var _ := store.SetApEstablish(apEstablish);
      store.Save(writeOk);
    }

    /** The credentials update: both form values are given to the user setter, and a change is saved. */
    method CredentialsCallback(m: HttpMethod, request: Request, writeOk: bool) returns (response: JsonObject)
      modifies base.config.config, base.config.fs
      ensures var o := CredentialsOutcome(m, request, old(base.config.GetConfig()));
        && response == o.response && base.config.GetConfig() == o.record
        && Persisted(base.config, old(base.config.fs.files), old(base.config.fs.ops), o.record, o.save, writeOk)
    {
      var store := base.config;
      if m != HttpPost {
        response := Envelope(false, "Invalid request.");
      } else if Arg(request, "credentials_user") == "" || Arg(request, "credentials_password") == "" {
        response := Envelope(false, "User and password are empty. Operation is not allowed.");
      } else {
        StoreCredentials(Arg(request, "credentials_user"), Arg(request, "credentials_password"), writeOk);
        response := Envelope(true, "Credentials has been changed.");
      }
    }

    /** The WiFi route: station read-back, or the three station settings stored and saved. */
    method WiFiCallback(m: HttpMethod, request: Request, d: Device) returns (response: JsonObject)
      modifies base.config.config, base.config.fs
      ensures var o := WiFiSettingsOutcome(m, request, old(base.config.GetConfig()), d, asBool);
        && response == o.response && base.config.GetConfig() == o.record
        && Persisted(base.config, old(base.config.fs.files), old(base.config.fs.ops), o.record, o.save, d.writeOk)
    {
      var store := base.config;
      response := map[];
      if m == HttpGet {
        if d.stationConnected {
          response := DataEnvelope(true, JObj(d.stationData));
        } else {
          response := Envelope(false, "ESP is disconnected from the WiFi");
        }
      } else if m == HttpPost {
        if NoArgs(request) {
          return;
        }
        StoreWiFi(Arg(request, "wifi_ssid"), Arg(request, "wifi_password"), asBool(Arg(request, "wifi_establish")), d.writeOk);
        response := Envelope(true, "WiFi settings saved. Please restart the ESP.");
      }
    }

    /** The AP route: access point read-back, or the three access point settings stored and saved. */
    method ApCallback(m: HttpMethod, request: Request, d: Device) returns (response: JsonObject)
      modifies base.config.config, base.config.fs
      ensures var o := ApSettingsOutcome(m, request, old(base.config.GetConfig()), d, asBool);
        && response == o.response && base.config.GetConfig() == o.record
        && Persisted(base.config, old(base.config.fs.files), old(base.config.fs.ops), o.record, o.save, d.writeOk)
    {
      var store := base.config;
      response := map[];
      if m == HttpGet {
        if d.apStaMode {
          response := DataEnvelope(true, JObj(d.apData));
        } else {
          response := Envelope(false, "ESP has disconected AP");
        }
      } else if m == HttpPost {
        if NoArgs(request) {
          return;
        }
        StoreAp(Arg(request, "ap_ssid"), Arg(request, "ap_password"), asBool(Arg(request, "ap_establish")), d.writeOk);
        response := Envelope(true, "AP settings saved. Please restart the ESP.");
      }
    }

    /** The DNS route: name read-back, or the name and (as written) the access point flag stored and saved. */
    method DnsCallback(m: HttpMethod, request: Request, writeOk: bool) returns (response: JsonObject)
      modifies base.config.config, base.config.fs
      ensures var o := DnsSettingsOutcome(m, request, old(base.config.GetConfig()), asBool);
        && response == o.response && base.config.GetConfig() == o.record
        && Persisted(base.config, old(base.config.fs.files), old(base.config.fs.ops), o.record, o.save, writeOk)
    {
      var store := base.config;
      response := map[];
      if m == HttpGet {
        var name := store.GetConfig().DnsName();
        response := DataEnvelope(true, JObj(map["name" := JStr(name), "local_name" := JStr(name + ".local")]));
      } else if m == HttpPost {
        if NoArgs(request) {
          return;
        }
        StoreDns(Arg(request, "dns_name"), asBool(Arg(request, "dns_establish")), writeOk);
        response := Envelope(true, "DNS settings saved. Please restart the ESP.");
      }
    }

    /** The option read-back for the name kept by `canHandle`. */
    method OptionCallback(d: Device) returns (response: JsonObject)
      ensures response == OptionResponse(optionParam, base.config.GetConfig(), d.mac, d.micros)
    {
      var r := base.config.GetConfig();
      var known, value;
      if optionParam == "client_name" {
        known, value := true, r.ClientName(d.mac, d.micros);
      } else if optionParam == "credentials_user" {
        known, value := true, SecureValue;
      } else if optionParam == "credentials_password" {
        known, value := true, SecureValue;
      } else if optionParam == "ap_ssid" {
        known, value := true, r.apSsid;
      } else if optionParam == "ap_password" {
        known, value := true, SecureValue;
      } else if optionParam == "wifi_ssid" {
        known, value := true, r.wifiSsid;
      } else if optionParam == "wifi_password" {
        known, value := true, SecureValue;
      } else {
        known, value := false, UnknownValue;
      }
      response := DataEnvelope(known, JObj(map["name" := JStr(optionParam), "value" := JStr(value)]));
    }

    /** Runs the callback of a dispatched route, in the order `handle` tests the routes. */
    method RunRoute(route: Option<Route>, server: Server, d: Device) returns (response: JsonObject)
      modifies base.config.config, base.config.fs, server
      ensures var o := RouteOutcome(route, server.request, old(base.config.GetConfig()), optionParam, d, asBool);
        && response == o.response && base.config.GetConfig() == o.record
        && Persisted(base.config, old(base.config.fs.files), old(base.config.fs.ops), o.record, o.save, d.writeOk)
        && server.out == old(server.out) + RouteEffects(route, server.request.httpMethod, d)
    {
      var request := server.request;
      var m := request.httpMethod;
      match route
      case None =>
        response := map[];
      case Some(WiFiListRoute) =>
        response := WiFiListCallback(m, server, d);
      case Some(StatsRoute) =>
        response := DataEnvelope(true, JObj(d.stats));
      case Some(StatsEspRoute) =>
        response := DataEnvelope(true, JObj(d.espStats));
      case Some(StatsSpiffsRoute) =>
        response := DataEnvelope(true, JObj(d.spiffsStats));
      case Some(ResetRoute) =>
        response := Envelope(true, "Device restarting");
      case Some(OptionRoute) =>
        response := OptionCallback(d);
      case Some(settings) =>
        response := RunSettingsRoute(settings, request, d);
    }

    /** The four routes that may change the stored settings. */
    method RunSettingsRoute(route: Route, request: Request, d: Device) returns (response: JsonObject)
      requires route in {CredentialsRoute, WiFiRoute, ApRoute, DnsRoute}
      modifies base.config.config, base.config.fs
      ensures var o := RouteOutcome(Some(route), request, old(base.config.GetConfig()), optionParam, d, asBool);
        && response == o.response && base.config.GetConfig() == o.record
        && Persisted(base.config, old(base.config.fs.files), old(base.config.fs.ops), o.record, o.save, d.writeOk)
    {
      var m := request.httpMethod;
      match route
      case CredentialsRoute =>
        response := CredentialsCallback(m, request, d.writeOk);
      case WiFiRoute =>
        response := WiFiCallback(m, request, d);
      case ApRoute =>
        response := ApCallback(m, request, d);
      case DnsRoute =>
        response := DnsCallback(m, request, d.writeOk);
    }

    /**
     * Handles one request. A request without the stored credentials gets the
     * authentication challenge and nothing else happens. Otherwise the route's
     * callback runs; a non-empty response is sent as JSON, followed by the
     * restart signal for the restart route, and the result says whether a
     * response was sent.
     */
    method Handle(server: Server, d: Device) returns (handled: bool)
      modifies this`payload, base.config.config, base.config.fs, server
      ensures var request, r := server.request, old(base.config.GetConfig());
        !Authorized(request, r.credentialsUser, r.credentialsPassword) ==>
          && handled
          && server.out == old(server.out) + [RequestAuthentication]
          && base.config.GetConfig() == r
          && base.config.fs.files == old(base.config.fs.files) && base.config.fs.ops == old(base.config.fs.ops)
      ensures var request, r := server.request, old(base.config.GetConfig());
        var route := Dispatch(request.httpMethod, request.uri);
        var o := RouteOutcome(route, request, r, optionParam, d, asBool);
        Authorized(request, r.credentialsUser, r.credentialsPassword) ==>
          && handled == (o.response != map[])
          && base.config.GetConfig() == o.record
          && Persisted(base.config, old(base.config.fs.files), old(base.config.fs.ops), o.record, o.save, d.writeOk)
          && server.out == old(server.out) + RouteEffects(route, request.httpMethod, d)
               + ReplyEffects(o.response, base.config.codec.format, route == Some(ResetRoute))
    {
      var request := server.request;
      if !base.Authenticate(request) {
        base.SendUnauthorizeResponse(server);
        return true;
      }
      payload := "";
      var route := Dispatch(request.httpMethod, request.uri);
      var response := RunRoute(route, server, d);
      var needRestart := route == Some(ResetRoute);
      handled := Reply(server, response, needRestart);
    }

    /** Sends a non-empty response as JSON, then the restart signal when asked; says whether it sent anything. */
    method Reply(server: Server, response: JsonObject, needRestart: bool) returns (sent: bool)
      modifies this`payload, server
      ensures sent == (response != map[])
      ensures server.out == old(server.out) + ReplyEffects(response, base.config.codec.format, needRestart)
    {
      if response != map[] {
        server.Emit(SendHeader(AllowOriginHeader, "*", false));
        payload := base.config.codec.format(response);
        server.Emit(Send(200, JsonContentType, payload));
        if needRestart {
          server.Emit(NeedRestart);
        }
        return true;
      }
      return false;
    }
  }

  /**
   * After `canHandle` accepts a GET on an option path, `handle` reads back
   * exactly the name that follows the prefix.
   */
  method OptionNameReachesHandle(handler: CmdRequestHandler, uri: string) returns (accepted: bool)
    requires IsOptionUri(uri)
    modifies handler
    ensures accepted <==> |uri| > |CmdOption|
    ensures accepted ==> handler.optionParam == uri[|CmdOption|..] && Dispatch(HttpGet, uri) == Some(OptionRoute)
  {
    AcceptsExactly(HttpGet, uri);
    accepted := handler.CanHandle(HttpGet, uri);
  }
}
