/**
 * The configuration store: the 11-field settings record, the object that holds
 * it by reference together with the settings file name, its compare-and-set
 * setters, default-substituting getters, the field-by-field JSON mapping and
 * the load / save sequences over the filesystem.
 */
module Config {
  import opened Json
  import opened Spiffs
  import Numerals

  const DefaultApSsid: string := "ONEBIOT.local"
  const DefaultDnsName: string := "onebiot"
  const ClientNamePrefix: string := "1biot-"
  const BackupSuffix: string := ".bak"

  // Member names of the settings file.
  const KeyCredentialsUser: string := "credentials_user"
  const KeyCredentialsPassword: string := "credentials_password"
  const KeyClientName: string := "client_name"
  const KeyWiFiSsid: string := "wifi_ssid"
  const KeyWiFiPassword: string := "wifi_password"
  const KeyWiFiEstablish: string := "wifi_establish"
  const KeyApSsid: string := "ap_ssid"
  const KeyApPassword: string := "ap_password"
  const KeyApEstablish: string := "ap_establish"
  const KeyDnsName: string := "dns_name"
  const KeyDnsEstablish: string := "dns_establish"

  /** The members the encoder writes whatever the record holds. */
  const AlwaysWrittenKeys: set<string> := {
    KeyClientName, KeyWiFiSsid, KeyWiFiPassword, KeyWiFiEstablish,
    KeyApSsid, KeyApPassword, KeyApEstablish, KeyDnsName, KeyDnsEstablish
  }

  /**
   * A copy of the settings record, as `getConfig()` returns it: eight strings
   * and three flags.
   */
  datatype Record = Record(
    credentialsUser: string,
    credentialsPassword: string,
    clientName: string,
    wifiSsid: string,
    wifiPassword: string,
    wifiEstablish: bool,
    apSsid: string,
    apPassword: string,
    apEstablish: bool,
    dnsName: string,
    dnsEstablish: bool)
  {
    /**
     * The device name; when none is stored, one made up from the MAC address
     * and the low byte of the microsecond clock (both passed in), not stored.
     */
    function ClientName(mac: string, micros: nat): (name: string)
      ensures name != ""
      ensures clientName != "" ==> name == clientName
    {
      if clientName == "" then ClientNamePrefix + mac + "-" + Numerals.NumToString(micros % 256, 16)
      else clientName
    }

    /** The access point name, falling back to the built-in one. */
    function ApSsid(): (ssid: string)
      ensures ssid != ""
      ensures apSsid != "" ==> ssid == apSsid
      ensures apSsid == "" ==> ssid == DefaultApSsid
    {
      if apSsid == "" then DefaultApSsid else apSsid
    }

    /** The name advertised on the local network, falling back to the built-in one. */
    function DnsName(): (name: string)
      ensures name != ""
      ensures dnsName != "" ==> name == dnsName
      ensures dnsName == "" ==> name == DefaultDnsName
    {
      if dnsName == "" then DefaultDnsName else dnsName
    }
  }

  /** The record's member initialisers: all strings empty, all flags off. */
  const DefaultRecord: Record := Record("", "", "", "", "", false, "", "", false, "", false)

  /** A fresh record answers the built-in access point and network names and enables nothing. */
  lemma FreshRecordDefaults()
    ensures DefaultRecord.ApSsid() == DefaultApSsid
    ensures DefaultRecord.DnsName() == DefaultDnsName
    ensures !DefaultRecord.wifiEstablish && !DefaultRecord.apEstablish && !DefaultRecord.dnsEstablish
  {
  }

  /**
   * The generated device name is the prefix, the MAC address, a dash and one or
   * two lower-case hex digits that read back as the clock's low byte.
   */
  lemma {:induction false} GeneratedClientName(r: Record, mac: string, micros: nat)
    requires r.clientName == ""
    ensures var name := r.ClientName(mac, micros);
      var head := ClientNamePrefix + mac + "-";
      && |head| < |name| <= |head| + 2
      && name[..|head|] == head
      && Numerals.ParseNum(name[|head|..], 16) == micros % 256
      && forall i :: |head| <= i < |name| ==> 0 <= Numerals.DigitValue(name[i]) < 16
  {
    var head := ClientNamePrefix + mac + "-";
    var hex := Numerals.NumToString(micros % 256, 16);
    var name := r.ClientName(mac, micros);
    assert name == head + hex;
    assert name[..|head|] == head && name[|head|..] == hex;
    Numerals.NumToStringTwoDigits(micros % 256, 16);
    Numerals.ParseNumToString(micros % 256, 16);
    Numerals.NumToStringDigits(micros % 256, 16);
    forall i | |head| <= i < |name| ensures 0 <= Numerals.DigitValue(name[i]) < 16 {
      assert name[i] == hex[i - |head|];
    }
  }

  function Flag(b: bool): int {
    if b then 1 else 0
  }

  /** The members `configToJson` writes: both credentials only when non-empty, the rest always. */
  function EncodedKeys(r: Record): set<string> {
    AlwaysWrittenKeys
    + (if r.credentialsUser != "" then {KeyCredentialsUser} else {})
    + (if r.credentialsPassword != "" then {KeyCredentialsPassword} else {})
  }

  /** The value `configToJson` writes under a member name: strings as strings, flags as 1 or 0. */
  function EncodedMember(r: Record, key: string): Json {
    if key == KeyCredentialsUser then JStr(r.credentialsUser)
    else if key == KeyCredentialsPassword then JStr(r.credentialsPassword)
    else if key == KeyClientName then JStr(r.clientName)
    else if key == KeyWiFiSsid then JStr(r.wifiSsid)
    else if key == KeyWiFiPassword then JStr(r.wifiPassword)
    else if key == KeyWiFiEstablish then JNum(Flag(r.wifiEstablish))
    else if key == KeyApSsid then JStr(r.apSsid)
    else if key == KeyApPassword then JStr(r.apPassword)
    else if key == KeyApEstablish then JNum(Flag(r.apEstablish))
    else if key == KeyDnsName then JStr(r.dnsName)
    else JNum(Flag(r.dnsEstablish))
  }

  /** The settings document `configToJson` fills from a record. */
  function Encode(r: Record): JsonObject {
    map key | key in EncodedKeys(r) :: EncodedMember(r, key)
  }

  /** `root[key] | ""`: the member's text when it is a string, otherwise empty. */
  function StringOr(root: JsonObject, key: string): string {
    if key in root && root[key].JStr? then root[key].s else ""
  }

  /** `root[key] == "1"`: only the string "1" compares equal. */
  predicate IsOne(root: JsonObject, key: string) {
    key in root && root[key] == JStr("1")
  }

  /** The record `jsonToConfig` makes of a settings document. */
  function Decode(root: JsonObject): (r: Record) {
    Record(
      StringOr(root, KeyCredentialsUser),
      StringOr(root, KeyCredentialsPassword),
      StringOr(root, KeyClientName),
      StringOr(root, KeyWiFiSsid),
      StringOr(root, KeyWiFiPassword),
      IsOne(root, KeyWiFiEstablish),
      StringOr(root, KeyApSsid),
      StringOr(root, KeyApPassword),
      IsOne(root, KeyApEstablish),
      StringOr(root, KeyDnsName),
      IsOne(root, KeyDnsEstablish))
  }

  /**
   * The encoder leaves out empty credentials, always writes the other nine
   * members, strings as strings and flags as the numbers 1 and 0.
   */
  lemma EncodeShape(r: Record)
    ensures var root := Encode(r);
      && (KeyCredentialsUser in root <==> r.credentialsUser != "")
      && (KeyCredentialsPassword in root <==> r.credentialsPassword != "")
      && AlwaysWrittenKeys <= root.Keys
      && root.Keys <= AlwaysWrittenKeys + {KeyCredentialsUser, KeyCredentialsPassword}
      && root[KeyClientName] == JStr(r.clientName)
      && root[KeyWiFiEstablish] == JNum(if r.wifiEstablish then 1 else 0)
      && root[KeyApEstablish] == JNum(if r.apEstablish then 1 else 0)
      && root[KeyDnsEstablish] == JNum(if r.dnsEstablish then 1 else 0)
  {
  }

  /** A document without members decodes to the record's defaults. */
  lemma DecodeEmpty()
    ensures Decode(map[]) == DefaultRecord
  {
  }

  /** Every absent string member decodes to the empty string; a flag is set only by the string "1". */
  lemma DecodeDefaults(root: JsonObject)
    ensures KeyCredentialsUser !in root ==> Decode(root).credentialsUser == ""
    ensures KeyCredentialsPassword !in root ==> Decode(root).credentialsPassword == ""
    ensures KeyClientName !in root ==> Decode(root).clientName == ""
    ensures KeyWiFiSsid !in root ==> Decode(root).wifiSsid == ""
    ensures KeyWiFiPassword !in root ==> Decode(root).wifiPassword == ""
    ensures KeyApSsid !in root ==> Decode(root).apSsid == ""
    ensures KeyApPassword !in root ==> Decode(root).apPassword == ""
    ensures KeyDnsName !in root ==> Decode(root).dnsName == ""
    ensures Decode(root).wifiEstablish <==> (KeyWiFiEstablish in root && root[KeyWiFiEstablish] == JStr("1"))
    ensures Decode(root).apEstablish <==> (KeyApEstablish in root && root[KeyApEstablish] == JStr("1"))
    ensures Decode(root).dnsEstablish <==> (KeyDnsEstablish in root && root[KeyDnsEstablish] == JStr("1"))
  {
  }

  /**
   * Decoding what the encoder wrote gives back every string field; every flag
   * comes back off, because the numbers 1 and 0 never equal the string "1".
   */
  lemma RoundTrip(r: Record)
    ensures Decode(Encode(r)) == r.(wifiEstablish := false, apEstablish := false, dnsEstablish := false)
  {
  }

  /** So encoding then decoding a record with any flag on does not give it back. */
  lemma FlagsDoNotRoundTrip(r: Record)
    requires r.wifiEstablish || r.apEstablish || r.dnsEstablish
    ensures Decode(Encode(r)) != r
  {
    RoundTrip(r);
  }

  /** The backup name of a settings file. */
  function BackupName(name: string): string {
    name + BackupSuffix
  }

  /**
   * The files after `save`: rename the old file to the backup, write the new
   * text, remove the backup. The rename fails when a stale backup is present;
   * a failed open for writing creates nothing, and the backup is removed all the same.
   */
  function FilesAfterSave(files: map<string, string>, name: string, text: string, writeOk: bool): map<string, string> {
    var bak := BackupName(name);
    var renamed := FilesAfterBackup(files, name);
    var written := if writeOk then renamed[name := text] else renamed;
    written - {bak}
  }

  /** The files after the first step of `save`: the old file moved to the backup name, if it can be. */
  function FilesAfterBackup(files: map<string, string>, name: string): map<string, string> {
    var bak := BackupName(name);
    if name in files && bak !in files then (files - {name})[bak := files[name]] else files
  }

  /** The filesystem calls `save` issues, in order. */
  function SaveOps(files: map<string, string>, name: string): seq<FsOp> {
    var bak := BackupName(name);
    (if name in files then [RenameOp(name, bak)] else [])
    + [OpenWriteOp(name)]
    + (if name in files || bak in files then [RemoveOp(bak)] else [])
  }

  /**
   * A save whose write succeeds leaves exactly the new text under the name and
   * no backup; everything else is untouched.
   */
  lemma SaveSucceeds(files: map<string, string>, name: string, text: string)
    ensures FilesAfterSave(files, name, text, true) == (files - {BackupName(name)})[name := text]
  {
    var bak := BackupName(name);
    assert name != bak by { assert |bak| == |name| + 4; }
  }

  /**
   * A save whose write fails after the old file was moved to the backup
   * removes that backup too: the previous settings are gone.
   */
  lemma FailedWriteLosesSettings(files: map<string, string>, name: string, text: string)
    requires name in files && BackupName(name) !in files
    ensures var after := FilesAfterSave(files, name, text, false);
      name !in after && BackupName(name) !in after
      && forall p :: p in files && p != name ==> p in after && after[p] == files[p]
  {
  }

  /** A save always ends by issuing a write of the settings file, after the rename and before the removal. */
  lemma SaveOpsOrder(files: map<string, string>, name: string)
    ensures var ops := SaveOps(files, name);
      && OpenWriteOp(name) in ops
      && (name in files ==> ops == [RenameOp(name, BackupName(name)), OpenWriteOp(name), RemoveOp(BackupName(name))])
      && (name !in files ==> ops[0] == OpenWriteOp(name))
  {
  }

  /**
   * The settings record itself, a mutable object. Every configuration object
   * that refers to the same record sees the changes made through any of them.
   */
  class AppConfig {
    var credentialsUser: string
    var credentialsPassword: string
    var clientName: string
    var wifiSsid: string
    var wifiPassword: string
    var wifiEstablish: bool
    var apSsid: string
    var apPassword: string
    var apEstablish: bool
    var dnsName: string
    var dnsEstablish: bool

    constructor ()
      ensures Value() == DefaultRecord
    {
      credentialsUser, credentialsPassword, clientName := "", "", "";
      wifiSsid, wifiPassword, wifiEstablish := "", "", false;
      apSsid, apPassword, apEstablish := "", "", false;
      dnsName, dnsEstablish := "", false;
    }

    /** A copy of the current contents. */
    function Value(): Record
      reads this
    {
      Record(credentialsUser, credentialsPassword, clientName, wifiSsid, wifiPassword, wifiEstablish,
             apSsid, apPassword, apEstablish, dnsName, dnsEstablish)
    }
  }

  /**
   * The configuration object: a reference to the settings record, the settings
   * file name, the filesystem it lives on and the JSON text codec. Copies of it
   * share the record.
   */
  class ConfigStore {
    const config: AppConfig
    const configFile: string
    const fs: FileSystem
    const codec: JsonCodec

    constructor (config: AppConfig, configFile: string, fs: FileSystem, codec: JsonCodec)
      ensures this.config == config && this.configFile == configFile
      ensures this.fs == fs && this.codec == codec
    {
      this.config := config;
      this.configFile := configFile;
      this.fs := fs;
      this.codec := codec;
    }

    /** The constructor without a file name binds the empty name. */
    constructor WithoutFile(config: AppConfig, fs: FileSystem, codec: JsonCodec)
      ensures this.config == config && configFile == ""
      ensures this.fs == fs && this.codec == codec
    {
      this.config := config;
      this.configFile := "";
      this.fs := fs;
      this.codec := codec;
    }

    /** A by-value copy: a new object that refers to the same record. */
    method Copy() returns (c: ConfigStore)
      ensures fresh(c)
      ensures c.config == config && c.configFile == configFile && c.fs == fs && c.codec == codec
    {
      c := new ConfigStore(config, configFile, fs, codec);
    }

    function GetConfig(): Record
      reads config
    {
      config.Value()
    }

    function GetWiFiSsid(): string
      reads config
    {
      config.wifiSsid
    }

    function GetConfigFileName(): string {
      configFile
    }

    predicate ConfigExists()
      reads fs
    {
      fs.Exists(configFile)
    }

    method SetCredentialsUser(v: string) returns (changed: bool)
      modifies config
      ensures changed == (v != old(config.credentialsUser))
      ensures GetConfig() == old(GetConfig()).(credentialsUser := v)
    {
      changed := v != config.credentialsUser;
      if changed {
        config.credentialsUser := v;
      }
    }

    method SetCredentialsPassword(v: string) returns (changed: bool)
      modifies config
      ensures changed == (v != old(config.credentialsPassword))
      ensures GetConfig() == old(GetConfig()).(credentialsPassword := v)
    {
      changed := v != config.credentialsPassword;
      if changed {
        config.credentialsPassword := v;
      }
    }

    method SetClientName(v: string) returns (changed: bool)
      modifies config
      ensures changed == (v != old(config.clientName))
      ensures GetConfig() == old(GetConfig()).(clientName := v)
    {
      changed := v != config.clientName;
      if changed {
        config.clientName := v;
      }
    }

    method SetApSsid(v: string) returns (changed: bool)
      modifies config
      ensures changed == (v != old(config.apSsid))
      ensures GetConfig() == old(GetConfig()).(apSsid := v)
    {
      changed := v != config.apSsid;
      if changed {
        config.apSsid := v;
      }
    }

    method SetApPassword(v: string) returns (changed: bool)
      modifies config
      ensures changed == (v != old(config.apPassword))
      ensures GetConfig() == old(GetConfig()).(apPassword := v)
    {
      changed := v != config.apPassword;
      if changed {
        config.apPassword := v;
      }
    }

    method SetApEstablish(v: bool) returns (changed: bool)
      modifies config
      ensures changed == (v != old(config.apEstablish))
      ensures GetConfig() == old(GetConfig()).(apEstablish := v)
    {
      changed := v != config.apEstablish;
      if changed {
        config.apEstablish := v;
      }
    }

    method SetWiFiSsid(v: string) returns (changed: bool)
      modifies config
      ensures changed == (v != old(config.wifiSsid))
      ensures GetConfig() == old(GetConfig()).(wifiSsid := v)
    {
      changed := v != config.wifiSsid;
      if changed {
        config.wifiSsid := v;
      }
    }

    method SetWiFiPassword(v: string) returns (changed: bool)
      modifies config
      ensures changed == (v != old(config.wifiPassword))
      ensures GetConfig() == old(GetConfig()).(wifiPassword := v)
    {
      changed := v != config.wifiPassword;
      if changed {
        config.wifiPassword := v;
      }
    }

    method SetWiFiEstablish(v: bool) returns (changed: bool)
      modifies config
      ensures changed == (v != old(config.wifiEstablish))
      ensures GetConfig() == old(GetConfig()).(wifiEstablish := v)
    {
      changed := v != config.wifiEstablish;
      if changed {
        config.wifiEstablish := v;
      }
    }

    method SetDnsName(v: string) returns (changed: bool)
      modifies config
      ensures changed == (v != old(config.dnsName))
      ensures GetConfig() == old(GetConfig()).(dnsName := v)
    {
      changed := v != config.dnsName;
      if changed {
        config.dnsName := v;
      }
    }

    method SetDnsEstablish(v: bool) returns (changed: bool)
      modifies config
      ensures changed == (v != old(config.dnsEstablish))
      ensures GetConfig() == old(GetConfig()).(dnsEstablish := v)
    {
      changed := v != config.dnsEstablish;
      if changed {
        config.dnsEstablish := v;
      }
    }

    /** Overwrites every field of the record from a settings document. */
    method JsonToConfig(root: JsonObject)
      modifies config
      ensures GetConfig() == Decode(root)
    {
      config.credentialsUser := StringOr(root, KeyCredentialsUser);
      config.credentialsPassword := StringOr(root, KeyCredentialsPassword);
      config.clientName := StringOr(root, KeyClientName);
      config.wifiSsid := StringOr(root, KeyWiFiSsid);
      config.wifiPassword := StringOr(root, KeyWiFiPassword);
      var wifiEstablish := IsOne(root, KeyWiFiEstablish);
      config.wifiEstablish := wifiEstablish;
      config.apSsid := StringOr(root, KeyApSsid);
      config.apPassword := StringOr(root, KeyApPassword);
      var apEstablish := IsOne(root, KeyApEstablish);
      config.apEstablish := apEstablish;
      config.dnsName := StringOr(root, KeyDnsName);
      var dnsEstablish := IsOne(root, KeyDnsEstablish);
      config.dnsEstablish := dnsEstablish;
    }

    /**
     * Reads the settings file into the record. Fails, leaving the record alone,
     * when the file is absent or cannot be opened (`openOk`); the parse result
     * is not checked.
     */
    method Load(openOk: bool) returns (ok: bool)
      modifies config
      ensures ok == (configFile in fs.files && openOk)
      ensures ok ==> GetConfig() == Decode(codec.parse(fs.files[configFile]))
      ensures !ok ==> GetConfig() == old(GetConfig())
    {
      if !fs.Exists(configFile) {
        return false;
      }
      if !openOk {
        return false;
      }
      var doc := codec.parse(fs.files[configFile]);
      JsonToConfig(doc);
      ok := true;
    }

    /**
     * Writes the whole record: an existing file is renamed to the backup name,
     * the new file is written (the open may fail: `writeOk`), and a backup that
     * is then present is removed.
     */
    method Save(writeOk: bool)
      modifies fs
      ensures fs.files == FilesAfterSave(old(fs.files), configFile, codec.format(Encode(GetConfig())), writeOk)
      ensures fs.ops == old(fs.ops) + SaveOps(old(fs.files), configFile)
    {
      var text := codec.format(Encode(GetConfig()));
      ReplaceWithBackup(fs, configFile, text, writeOk);
    }
  }

  /**
   * The file steps of `save`: move the old file to the backup name, write the
   * new text under the name, and remove the backup if it is present.
   */
  method ReplaceWithBackup(fs: FileSystem, name: string, text: string, writeOk: bool)
    modifies fs
    ensures fs.files == FilesAfterSave(old(fs.files), name, text, writeOk)
    ensures fs.ops == old(fs.ops) + SaveOps(old(fs.files), name)
  {
    var bak := name + BackupSuffix;
    ghost var files0 := fs.files;
    if fs.Exists(name) {
      var _ := fs.Rename(name, bak);
    }
    assert fs.files == FilesAfterBackup(files0, name);
    fs.Write(name, text, writeOk);
    assert bak in fs.files <==> name in files0 || bak in files0 by {
      assert name != bak by { assert |bak| == |name| + 4; }
    }
    if fs.Exists(bak) {
      var _ := fs.Remove(bak);
    }
  }

  /** Writing through one configuration object is seen through every copy of it. */
  method SharedRecordAcrossCopies(store: ConfigStore, ssid: string)
    modifies store.config
    ensures store.GetWiFiSsid() == ssid
  {
    var copy := store.Copy();
    var _ := copy.SetWiFiSsid(ssid);
    assert copy.config == store.config;
  }

  /**
   * Saving with a faithful codec and loading with a fresh configuration object
   * bound to the same file gives back every string field; the flags come back off.
   */
  method SaveThenLoad(store: ConfigStore) returns (loaded: Record)
    requires Faithful(store.codec)
    modifies store.fs
    ensures loaded == old(store.GetConfig()).(wifiEstablish := false, apEstablish := false, dnsEstablish := false)
  {
    store.Save(true);
    SaveSucceeds(old(store.fs.files), store.configFile, store.codec.format(Encode(store.GetConfig())));
    var record := new AppConfig();
    var reader := new ConfigStore(record, store.configFile, store.fs, store.codec);
    var ok := reader.Load(true);
    assert ok;
    RoundTrip(store.GetConfig());
    loaded := reader.GetConfig();
  }
}
