/** The configuration forms served by wifi_manager.cpp: what each save handler
    accepts, what it clamps, what it persists, and what it leaves alone when it
    rejects. A request is its form fields; a reply is the `ok` flag and the message
    of the JSON answer; a restart of the board is reported as a flag. */
module WebForms {
  import opened Platform
  import opened Text
  import opened Config
  import opened TankData
  import LoRaProtocol
  import LoRaComm
  import WiFiSupervisor

  /** `server.arg(name)`: the field's text, empty when the request lacks it. */
  function Arg(form: map<string, string>, name: string): string
  {
    if name in form then form[name] else ""
  }

  /** The answer `{"ok":…,"m":"…"}`. */
  datatype Reply = Reply(ok: bool, message: string)

  /** What a validating handler makes of a form: the values to keep, or the message
      it rejects them with. */
  datatype Checked<T> = Accepted(value: T) | Rejected(message: string)

  // ---------------------------------------------------------------------------
  // Tank calibration (`handleSaveSettings`)
  // ---------------------------------------------------------------------------

  /** `handleSaveSettings`: an unordered pair is refused before `saveTankSettings`
      is reached, so the form never triggers that function's reset to the defaults;
      the capacity still goes through its fallback. */
  function CalibrationForm(form: map<string, string>): (r: Checked<Calibration>)
    ensures r.Accepted? <==> Atoi(Arg(form, "min")) < Atoi(Arg(form, "max"))
    ensures r.Accepted? ==>
      && r.value.minDistance == Atoi(Arg(form, "min"))
      && r.value.maxDistance == Atoi(Arg(form, "max"))
      && r.value.capacity >= 1.0
      && (Atof(Arg(form, "cap")) >= 1.0 ==> r.value.capacity == Atof(Arg(form, "cap")))
      && (Atof(Arg(form, "cap")) < 1.0 ==> r.value.capacity == DEFAULT_TANK_CAPACITY)
    ensures r.Rejected? ==> r.message == "Error: Min must be less than Max!"
  {
    var minDist := Atoi(Arg(form, "min"));
    var maxDist := Atoi(Arg(form, "max"));
    if minDist >= maxDist then Rejected("Error: Min must be less than Max!")
    else Accepted(SavedCalibration(minDist, maxDist, Atof(Arg(form, "cap"))))
  }

  method HandleSaveSettings(form: map<string, string>, tank: Tank, prefs: Preferences) returns (reply: Reply)
    modifies tank, prefs
    ensures reply.ok == CalibrationForm(form).Accepted?
    ensures !reply.ok ==>
      && reply.message == CalibrationForm(form).message
      && tank.Cal() == old(tank.Cal()) && tank.tank == old(tank.tank)
      && prefs.store == old(prefs.store)
    ensures reply.ok ==>
      && reply.message == "Calibration saved!"
      && tank.Cal() == CalibrationForm(form).value
      && prefs.store == StoredCalibration(old(prefs.store), tank.Cal())
      && tank.tank == old(tank.tank).(tankCapacity := tank.capacity)
  {
    var minDist := Atoi(Arg(form, "min"));
    var maxDist := Atoi(Arg(form, "max"));
    var capacity := Atof(Arg(form, "cap"));
    if minDist >= maxDist {
      return Reply(false, "Error: Min must be less than Max!");
    }
    tank.SaveTankSettings(minDist, maxDist, capacity, prefs);
    reply := Reply(true, "Calibration saved!");
  }

  // ---------------------------------------------------------------------------
  // Radio settings (`handleLoraSave`)
  // ---------------------------------------------------------------------------

  const MIN_LORA_FREQUENCY: int := 100000000

  /** `handleLoraSave`'s checks, in their order: frequency, network id, address. */
  function LoraForm(form: map<string, string>): (r: Checked<LoRaProtocol.LinkSettings>)
    ensures r.Accepted? <==>
      && Arg(form, "freq") != [] && Atoi(Arg(form, "freq")) >= MIN_LORA_FREQUENCY
      && 0 <= Atoi(Arg(form, "netid")) <= 255
      && 0 <= Atoi(Arg(form, "addr")) <= 255
    ensures r.Accepted? ==>
      r.value == LoRaProtocol.LinkSettings(Arg(form, "freq"), Atoi(Arg(form, "netid")), Atoi(Arg(form, "addr")))
  {
    var freq := Arg(form, "freq");
    var netid := Atoi(Arg(form, "netid"));
    var addr := Atoi(Arg(form, "addr"));
    if |freq| == 0 || Atoi(freq) < MIN_LORA_FREQUENCY then Rejected("Invalid frequency!")
    else if netid < 0 || netid > 255 then Rejected("Network ID must be 0-255!")
    else if addr < 0 || addr > 255 then Rejected("Address must be 0-255!")
    else Accepted(LoRaProtocol.LinkSettings(freq, netid, addr))
  }

  /** The first failing check names the error, whatever the later fields hold. */
  lemma LoraFormRejectsInOrder(form: map<string, string>)
    ensures (Arg(form, "freq") == [] || Atoi(Arg(form, "freq")) < MIN_LORA_FREQUENCY) ==>
      LoraForm(form) == Rejected("Invalid frequency!")
    ensures (Arg(form, "freq") != [] && Atoi(Arg(form, "freq")) >= MIN_LORA_FREQUENCY
             && !(0 <= Atoi(Arg(form, "netid")) <= 255)) ==>
      LoraForm(form) == Rejected("Network ID must be 0-255!")
    ensures (Arg(form, "freq") != [] && Atoi(Arg(form, "freq")) >= MIN_LORA_FREQUENCY
             && 0 <= Atoi(Arg(form, "netid")) <= 255 && !(0 <= Atoi(Arg(form, "addr")) <= 255)) ==>
      LoraForm(form) == Rejected("Address must be 0-255!")
  {
  }

  /** Appending a digit shifts the value one decimal place. */
  lemma DigitsAppend(d: seq<char>, c: char)
    requires AllDigits(d) && IsDigit(c)
    ensures AllDigits(d + [c]) && DigitsValue(d + [c]) == DigitsValue(d) * 10 + (c as int - '0' as int)
  {
    assert (d + [c])[..|d|] == d;
  }

  /** The shipped frequency reads back as 865 MHz, which clears the lower bound. */
  lemma DefaultFrequencyValue()
    ensures Atoi(DEFAULT_LORA_FREQUENCY) == 865000000
  {
    var d := ['8'];
    assert DigitsValue(d) == 8 by { assert d[..0] == []; }
    DigitsAppend(d, '6'); d := d + ['6'];
    DigitsAppend(d, '5'); d := d + ['5'];
    DigitsAppend(d, '0'); d := d + ['0'];
    DigitsAppend(d, '0'); d := d + ['0'];
    DigitsAppend(d, '0'); d := d + ['0'];
    DigitsAppend(d, '0'); d := d + ['0'];
    DigitsAppend(d, '0'); d := d + ['0'];
    DigitsAppend(d, '0'); d := d + ['0'];
    assert d == DEFAULT_LORA_FREQUENCY;
    AtoiOfDigits(d);
  }

  /** The shipped radio settings, typed into the form, pass every check. */
  lemma DefaultLinkPassesForm()
    ensures var form := map["freq" := DEFAULT_LORA_FREQUENCY,
                            "netid" := IntToDecimal(DEFAULT_LORA_NETWORK_ID),
                            "addr" := IntToDecimal(DEFAULT_MY_ADDRESS)];
      LoraForm(form) == Accepted(LoRaProtocol.DefaultLinkSettings)
  {
    DefaultFrequencyValue();
    AtoiOfDecimal(DEFAULT_LORA_NETWORK_ID);
    AtoiOfDecimal(DEFAULT_MY_ADDRESS);
  }

  /** `handleLoraSave`: on success the settings are persisted and the board restarts,
      so the next start loads exactly what the form held. */
  method HandleLoraSave(form: map<string, string>, lora: LoRaComm.LoRa, prefs: Preferences)
    returns (reply: Reply, restart: bool)
    modifies lora`frequency, lora`networkId, lora`myAddress, prefs
    ensures reply.ok == LoraForm(form).Accepted? && restart == reply.ok
    ensures !reply.ok ==>
      && reply.message == LoraForm(form).message
      && lora.Settings() == old(lora.Settings()) && prefs.store == old(prefs.store)
    ensures reply.ok ==>
      && reply.message == "LoRa settings saved! Restarting..."
      && lora.Settings() == LoraForm(form).value
      && prefs.store == LoRaProtocol.StoredLink(old(prefs.store), lora.Settings())
      && LoRaProtocol.LoadedLink(prefs.store) == LoraForm(form).value
  {
    var freq := Arg(form, "freq");
    var netid := Atoi(Arg(form, "netid"));
    var addr := Atoi(Arg(form, "addr"));
    if |freq| == 0 || Atoi(freq) < MIN_LORA_FREQUENCY {
      return Reply(false, "Invalid frequency!"), false;
    }
    if netid < 0 || netid > 255 {
      return Reply(false, "Network ID must be 0-255!"), false;
    }
    if addr < 0 || addr > 255 {
      return Reply(false, "Address must be 0-255!"), false;
    }
    lora.SaveSettings(freq, netid, addr, prefs);
    LoRaProtocol.LoadLinkAfterSave(old(prefs.store), lora.Settings());
    reply, restart := Reply(true, "LoRa settings saved! Restarting..."), true;
  }

  // ---------------------------------------------------------------------------
  // Broker settings (`handleMqttSave`)
  // ---------------------------------------------------------------------------

  /** The broker settings held by mqtt_handler.cpp's globals. */
  datatype MqttConfig = MqttConfig(enabled: bool, server: string, port: int, user: string, password: string)

  const DefaultMqtt := MqttConfig(DEFAULT_MQTT_ENABLED, DEFAULT_MQTT_SERVER, DEFAULT_MQTT_PORT,
                                  DEFAULT_MQTT_USER, DEFAULT_MQTT_PASSWORD)

  /** The form's fields as `handleMqttSave` copies them into the globals. */
  function MqttFields(form: map<string, string>): MqttConfig
  {
    MqttConfig(Arg(form, "enabled") == "1", Arg(form, "server"), Atoi(Arg(form, "port")),
               Arg(form, "user"), Arg(form, "pass"))
  }

  /** `handleMqttSave`'s decision: an enabled broker needs a server; a port outside
      1..65535 falls back to 1885; everything else is kept as typed. */
  function MqttForm(form: map<string, string>): (r: Checked<MqttConfig>)
    ensures r.Rejected? <==> MqttFields(form).enabled && MqttFields(form).server == []
    ensures r.Rejected? ==> r.message == "Server address required!"
    ensures r.Accepted? ==>
      && 1 <= r.value.port <= 65535
      && r.value.(port := 0) == MqttFields(form).(port := 0)
      && (1 <= MqttFields(form).port <= 65535 ==> r.value.port == MqttFields(form).port)
      && (!(1 <= MqttFields(form).port <= 65535) ==> r.value.port == DEFAULT_MQTT_PORT)
  {
    var fields := MqttFields(form);
    if fields.enabled && |fields.server| == 0 then Rejected("Server address required!")
    else if fields.port < 1 || fields.port > 65535 then Accepted(fields.(port := DEFAULT_MQTT_PORT))
    else Accepted(fields)
  }

  /** `loadMqttSettings`: stored values, defaults where absent. */
  function LoadedMqtt(store: map<string, Pref>): MqttConfig
  {
    MqttConfig(GetBool(store, "mqtt_enabled", DEFAULT_MQTT_ENABLED),
               GetString(store, "mqtt_server", DEFAULT_MQTT_SERVER),
               GetInt(store, "mqtt_port", DEFAULT_MQTT_PORT),
               GetString(store, "mqtt_user", DEFAULT_MQTT_USER),
               GetString(store, "mqtt_pass", DEFAULT_MQTT_PASSWORD))
  }

  /** The store after `saveMqttSettings`. */
  function StoredMqtt(store: map<string, Pref>, c: MqttConfig): map<string, Pref>
  {
    store["mqtt_server" := StrPref(c.server)]["mqtt_port" := IntPref(c.port)]
         ["mqtt_user" := StrPref(c.user)]["mqtt_pass" := StrPref(c.password)]
         ["mqtt_enabled" := BoolPref(c.enabled)]
  }

  /** Saved broker settings are read back unchanged; nothing stored means the defaults. */
  lemma LoadMqttAfterSave(store: map<string, Pref>, c: MqttConfig)
    ensures LoadedMqtt(StoredMqtt(store, c)) == c
    ensures LoadedMqtt(map[]) == DefaultMqtt
  {
  }

  /** The MQTT globals of mqtt_handler.cpp. */
  class MqttSettings {
    var enabled: bool
    var server: string
    var port: int
    var user: string
    var password: string

    constructor ()
      ensures Config() == DefaultMqtt
    {
      enabled, server, port := DEFAULT_MQTT_ENABLED, DEFAULT_MQTT_SERVER, DEFAULT_MQTT_PORT;
      user, password := DEFAULT_MQTT_USER, DEFAULT_MQTT_PASSWORD;
    }

    function Config(): MqttConfig
      reads this
    {
      MqttConfig(enabled, server, port, user, password)
    }

    /** `loadMqttSettings`. */
    method Load(prefs: Preferences)
      modifies this
      ensures Config() == LoadedMqtt(prefs.store)
    {
      server := GetString(prefs.store, "mqtt_server", DEFAULT_MQTT_SERVER);
      port := GetInt(prefs.store, "mqtt_port", DEFAULT_MQTT_PORT);
      user := GetString(prefs.store, "mqtt_user", DEFAULT_MQTT_USER);
      password := GetString(prefs.store, "mqtt_pass", DEFAULT_MQTT_PASSWORD);
      enabled := GetBool(prefs.store, "mqtt_enabled", DEFAULT_MQTT_ENABLED);
    }

    /** `saveMqttSettings`. */
    method Save(prefs: Preferences)
      modifies prefs
      ensures prefs.store == StoredMqtt(old(prefs.store), Config())
    {
      prefs.Put("mqtt_server", StrPref(server));
      prefs.Put("mqtt_port", IntPref(port));
      prefs.Put("mqtt_user", StrPref(user));
      prefs.Put("mqtt_pass", StrPref(password));
      prefs.Put("mqtt_enabled", BoolPref(enabled));
    }
  }

  /** `handleMqttSave`: the globals take the form's values before the check, so a
      rejected form still changes the running settings, though nothing is persisted. */
  method HandleMqttSave(form: map<string, string>, mqtt: MqttSettings, prefs: Preferences) returns (reply: Reply)
    modifies mqtt, prefs
    ensures reply.ok == MqttForm(form).Accepted?
    ensures !reply.ok ==>
      && reply.message == MqttForm(form).message
      && mqtt.Config() == MqttFields(form)
      && prefs.store == old(prefs.store)
    ensures reply.ok ==>
      && reply.message == "MQTT settings saved!"
      && mqtt.Config() == MqttForm(form).value
      && prefs.store == StoredMqtt(old(prefs.store), mqtt.Config())
  {
    var fields := MqttFields(form);
    mqtt.enabled, mqtt.server, mqtt.port := fields.enabled, fields.server, fields.port;
    mqtt.user, mqtt.password := fields.user, fields.password;
    assert mqtt.Config() == fields;
    if mqtt.enabled && |mqtt.server| == 0 {
      return Reply(false, "Server address required!");
    }
    if mqtt.port < 1 || mqtt.port > 65535 {
      mqtt.port := DEFAULT_MQTT_PORT;
    }
    assert mqtt.port == if 1 <= fields.port <= 65535 then fields.port else DEFAULT_MQTT_PORT;
    assert mqtt.Config() == MqttForm(form).value;
    mqtt.Save(prefs);
    reply := Reply(true, "MQTT settings saved!");
  }

  // ---------------------------------------------------------------------------
  // Alert settings (`handleAlertsSave`)
  // ---------------------------------------------------------------------------

  datatype AlertConfig = AlertConfig(enabled: bool, lowWater: int, lowBattery: int, email: string)

  const DefaultAlerts := AlertConfig(DEFAULT_ALERTS_ENABLED, DEFAULT_ALERT_LOW_WATER,
                                     DEFAULT_ALERT_LOW_BATTERY, DEFAULT_ALERT_EMAIL)

  /** A threshold outside 0..100 falls back to the default. */
  function Percent(x: int, default: int): int
  {
    if x < 0 || x > 100 then default else x
  }

  /** `handleAlertsSave` never refuses: both thresholds end up within 0..100, as typed
      when they already were, the default 20 otherwise. */
  function AlertsForm(form: map<string, string>): (c: AlertConfig)
    ensures 0 <= c.lowWater <= 100 && 0 <= c.lowBattery <= 100
    ensures 0 <= Atoi(Arg(form, "water")) <= 100 <==> c.lowWater == Atoi(Arg(form, "water"))
    ensures 0 <= Atoi(Arg(form, "battery")) <= 100 <==> c.lowBattery == Atoi(Arg(form, "battery"))
    ensures !(0 <= Atoi(Arg(form, "water")) <= 100) ==> c.lowWater == DEFAULT_ALERT_LOW_WATER
    ensures !(0 <= Atoi(Arg(form, "battery")) <= 100) ==> c.lowBattery == DEFAULT_ALERT_LOW_BATTERY
    ensures c.enabled == (Arg(form, "enabled") == "1") && c.email == Arg(form, "email")
  {
    AlertConfig(Arg(form, "enabled") == "1",
                Percent(Atoi(Arg(form, "water")), DEFAULT_ALERT_LOW_WATER),
                Percent(Atoi(Arg(form, "battery")), DEFAULT_ALERT_LOW_BATTERY),
                Arg(form, "email"))
  }

  /** `loadAlertSettings`. */
  function LoadedAlerts(store: map<string, Pref>): AlertConfig
  {
    AlertConfig(GetBool(store, "alert_enabled", DEFAULT_ALERTS_ENABLED),
                GetInt(store, "alert_water", DEFAULT_ALERT_LOW_WATER),
                GetInt(store, "alert_battery", DEFAULT_ALERT_LOW_BATTERY),
                GetString(store, "alert_email", DEFAULT_ALERT_EMAIL))
  }

  /** The store after `saveAlertSettings`. */
  function StoredAlerts(store: map<string, Pref>, c: AlertConfig): map<string, Pref>
  {
    store["alert_enabled" := BoolPref(c.enabled)]["alert_water" := IntPref(c.lowWater)]
         ["alert_battery" := IntPref(c.lowBattery)]["alert_email" := StrPref(c.email)]
  }

  /** Saved alert settings are read back unchanged; nothing stored means the defaults. */
  lemma LoadAlertsAfterSave(store: map<string, Pref>, c: AlertConfig)
    ensures LoadedAlerts(StoredAlerts(store, c)) == c
    ensures LoadedAlerts(map[]) == DefaultAlerts
  {
  }

  /** The alert globals of wifi_manager.cpp. */
  class AlertSettings {
    var enabled: bool
    var lowWater: int
    var lowBattery: int
    var email: string

    constructor ()
      ensures Config() == DefaultAlerts
    {
      enabled, lowWater, lowBattery, email :=
        DEFAULT_ALERTS_ENABLED, DEFAULT_ALERT_LOW_WATER, DEFAULT_ALERT_LOW_BATTERY, DEFAULT_ALERT_EMAIL;
    }

    function Config(): AlertConfig
      reads this
    {
      AlertConfig(enabled, lowWater, lowBattery, email)
    }

    /** `loadAlertSettings`. */
    method Load(prefs: Preferences)
      modifies this
      ensures Config() == LoadedAlerts(prefs.store)
    {
      enabled := GetBool(prefs.store, "alert_enabled", DEFAULT_ALERTS_ENABLED);
      lowWater := GetInt(prefs.store, "alert_water", DEFAULT_ALERT_LOW_WATER);
      lowBattery := GetInt(prefs.store, "alert_battery", DEFAULT_ALERT_LOW_BATTERY);
      email := GetString(prefs.store, "alert_email", DEFAULT_ALERT_EMAIL);
    }

    /** `saveAlertSettings`. */
    method Save(prefs: Preferences)
      modifies prefs
      ensures prefs.store == StoredAlerts(old(prefs.store), Config())
    {
      prefs.Put("alert_enabled", BoolPref(enabled));
      prefs.Put("alert_water", IntPref(lowWater));
      prefs.Put("alert_battery", IntPref(lowBattery));
      prefs.Put("alert_email", StrPref(email));
    }
  }

  /** `handleAlertsSave`. */
  method HandleAlertsSave(form: map<string, string>, alerts: AlertSettings, prefs: Preferences) returns (reply: Reply)
    modifies alerts, prefs
    ensures reply == Reply(true, "Alert settings saved!")
    ensures alerts.Config() == AlertsForm(form)
    ensures prefs.store == StoredAlerts(old(prefs.store), AlertsForm(form))
  {
    var typed := AlertConfig(Arg(form, "enabled") == "1", Atoi(Arg(form, "water")),
                             Atoi(Arg(form, "battery")), Arg(form, "email"));
    alerts.enabled, alerts.lowWater, alerts.lowBattery, alerts.email :=
      typed.enabled, typed.lowWater, typed.lowBattery, typed.email;
    if alerts.lowWater < 0 || alerts.lowWater > 100 {
      alerts.lowWater := DEFAULT_ALERT_LOW_WATER;
    }
    assert alerts.lowWater == Percent(typed.lowWater, DEFAULT_ALERT_LOW_WATER);
    if alerts.lowBattery < 0 || alerts.lowBattery > 100 {
      alerts.lowBattery := DEFAULT_ALERT_LOW_BATTERY;
    }
    assert alerts.lowBattery == Percent(typed.lowBattery, DEFAULT_ALERT_LOW_BATTERY);
    assert alerts.Config() == AlertsForm(form);
    alerts.Save(prefs);
    reply := Reply(true, "Alert settings saved!");
  }

  // ---------------------------------------------------------------------------
  // Network credentials (`handleConnect`)
  // ---------------------------------------------------------------------------

  /** `handleConnect`: an empty network name is refused and nothing changes;
      otherwise the credentials are saved and the board restarts to use them. */
  method HandleConnect(form: map<string, string>, station: WiFiSupervisor.WiFiStation, prefs: Preferences)
    returns (reply: Reply, restart: bool)
    modifies station`savedSsid, station`savedPassword, prefs
    ensures reply.ok == (Arg(form, "s") != []) && restart == reply.ok
    ensures !reply.ok ==>
      && reply.message == "SSID required"
      && station.savedSsid == old(station.savedSsid) && station.savedPassword == old(station.savedPassword)
      && prefs.store == old(prefs.store)
    ensures reply.ok ==>
      && reply.message == "Saved! Restarting..."
      && station.savedSsid == Arg(form, "s") && station.savedPassword == Arg(form, "p")
      && prefs.store == WiFiSupervisor.StoredCredentials(old(prefs.store), Arg(form, "s"), Arg(form, "p"))
      && WiFiSupervisor.LoadedCredentials(prefs.store) == (Arg(form, "s"), Arg(form, "p"))
  {
    var ssid := Arg(form, "s");
    var pass := Arg(form, "p");
    if |ssid| == 0 {
      return Reply(false, "SSID required"), false;
    }
    station.savedSsid := ssid;
    station.savedPassword := pass;
    station.SaveCredentials(prefs);
    WiFiSupervisor.LoadCredentialsAfterSave(old(prefs.store), ssid, pass);
    reply, restart := Reply(true, "Saved! Restarting..."), true;
  }

  /** `handleReset`: the stored credentials are forgotten and the board restarts,
      so the next start finds no network and opens the setup access point. */
  method HandleReset(station: WiFiSupervisor.WiFiStation, prefs: Preferences) returns (reply: string, restart: bool)
    modifies station`savedSsid, station`savedPassword, prefs
    ensures reply == "OK" && restart
    ensures station.savedSsid == "" && station.savedPassword == ""
    ensures prefs.store == old(prefs.store) - {"wifi_ssid", "wifi_pass"}
    ensures WiFiSupervisor.LoadedCredentials(prefs.store) == ("", "")
  {
    station.ClearCredentials(prefs);
    reply, restart := "OK", true;
  }
}
