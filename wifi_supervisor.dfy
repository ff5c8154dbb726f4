/** The Wi-Fi supervisor of wifi_manager.cpp: a station connection started without
    blocking, a fallback access point, and the periodic retry from that access
    point. The radio's answers (`WiFi.status()`, whether `WiFi.softAP` succeeds),
    the LoRa busy flag and the serial line are inputs; only the waits move the clock. */
module WiFiSupervisor {
  import opened Platform
  import opened Config

  /** `WiFiState`. */
  datatype WiFiState = Disconnected | Connecting | Connected | ApMode

  /** How long a busy radio postpones the access-point retry. */
  const RETRY_DEFER_MS: nat := 30000

  /** A deferred retry is due again sooner than a fresh retry interval would be. */
  lemma DeferralShorterThanInterval()
    ensures 0 < RETRY_DEFER_MS < WIFI_RETRY_INTERVAL
  {
  }

  /** The waits inside `startWiFiConnectionNonBlocking` and `startAPMode`, and the
      pause before a retry from the access point. */
  const CONNECT_WAIT_MS: nat := 500
  const AP_WAIT_MS: nat := 300
  const RETRY_PAUSE_MS: nat := 200

  /** The supervisor's globals together with the board's time. */
  datatype Link = Link(state: WiFiState, lastRetry: U32, retryCount: int, connectStart: U32, ticks: nat)

  /** `millis()` at this point. */
  function Now(l: Link): U32
  {
    ToU32(l.ticks)
  }

  /** `startWiFiConnectionNonBlocking`: the attempt is counted and timed from before
      its waits. */
  function BeginConnect(l: Link): Link
  {
    l.(state := Connecting, retryCount := l.retryCount + 1, connectStart := Now(l),
       ticks := l.ticks + CONNECT_WAIT_MS)
  }

  /** `startAPMode`: the access point, or nothing when it fails to start; the retry
      interval runs from the end of the waits. */
  function OpenAp(l: Link, apStarts: bool): Link
  {
    var t := l.ticks + AP_WAIT_MS;
    l.(state := if apStarts then ApMode else Disconnected, lastRetry := ToU32(t), ticks := t)
  }

  /** `updateWiFiConnection`. */
  function Update(l: Link, linkUp: bool, apStarts: bool): Link
  {
    if l.state != Connecting then l
    else if linkUp then l.(state := Connected, retryCount := 0)
    else if Sub32(Now(l), l.connectStart) > WIFI_CONNECT_TIMEOUT then OpenAp(l, apStarts)
    else l
  }

  /** Whether the retry from the access point is due. */
  predicate RetryDue(l: Link)
  {
    Sub32(Now(l), l.lastRetry) > WIFI_RETRY_INTERVAL
  }

  /** The time stamp that makes a deferred retry fall due again 30 s later. */
  function Deferred(l: Link): U32
  {
    ToU32(Now(l) - WIFI_RETRY_INTERVAL + RETRY_DEFER_MS)
  }

  /** `checkWiFiStatus`: a lost link is reconnected (or replaced by the access point
      when no network is saved); then a due retry from the access point is made, or
      postponed while the radio is busy. */
  function Check(l: Link, hasSsid: bool, linkUp: bool, apStarts: bool, busy: bool): Link
  {
    var m :=
      if l.state == Connected && !linkUp then
        if hasSsid then BeginConnect(l) else OpenAp(l, apStarts)
      else l;
    if m.state == ApMode && hasSsid && RetryDue(m) then
      if busy then m.(lastRetry := Deferred(m))
      else BeginConnect(m.(ticks := m.ticks + RETRY_PAUSE_MS))
    else m
  }

  /** Progress of a connection is checked only while connecting. */
  lemma UpdateIdleUnlessConnecting(l: Link, linkUp: bool, apStarts: bool)
    requires l.state != Connecting
    ensures Update(l, linkUp, apStarts) == l
  {
  }

  /** The link coming up is looked at first: it wins over the timeout and resets the
      attempt count. */
  lemma UpdateLinkUp(l: Link, apStarts: bool)
    requires l.state == Connecting
    ensures Update(l, true, apStarts) == l.(state := Connected, retryCount := 0)
  {
  }

  /** Without the link, the attempt keeps going up to and including the timeout and
      gives way to the access point only strictly after it. */
  lemma UpdateTimeout(l: Link, apStarts: bool)
    requires l.state == Connecting
    ensures Sub32(Now(l), l.connectStart) <= WIFI_CONNECT_TIMEOUT ==> Update(l, false, apStarts) == l
    ensures Sub32(Now(l), l.connectStart) > WIFI_CONNECT_TIMEOUT ==>
      && Update(l, false, apStarts) == OpenAp(l, apStarts)
      && Update(l, false, apStarts).state != Connecting
  {
  }

  /** Measured from the start of an attempt: `d` milliseconds later (the attempt's own
      waits included) it is still connecting exactly when `d` is at most 20 s,
      whatever the value of the 32-bit counter. */
  lemma AttemptTimesOutAfter(l: Link, d: nat, apStarts: bool)
    requires CONNECT_WAIT_MS <= d < WRAP
    ensures var c := BeginConnect(l).(ticks := l.ticks + d);
      Update(c, false, apStarts).state == Connecting <==> d <= WIFI_CONNECT_TIMEOUT
  {
    var c := BeginConnect(l).(ticks := l.ticks + d);
    ElapsedSince(l.ticks, d);
    assert Sub32(Now(c), c.connectStart) == d;
  }

  /** The access point is entered exactly when it starts, and the retry interval is
      timed from the moment `startAPMode` returns. */
  lemma OpenApStamps(l: Link, apStarts: bool)
    ensures var a := OpenAp(l, apStarts);
      && (a.state == ApMode <==> apStarts)
      && (a.state == Disconnected <==> !apStarts)
      && a.lastRetry == Now(a)
      && a.retryCount == l.retryCount && a.connectStart == l.connectStart
  {
  }

  /** A lost link with a saved network is reconnected at once: the busy radio does not
      hold this path back. Without a saved network the access point takes over. */
  lemma CheckLinkLost(l: Link, linkUp: bool, apStarts: bool, busy: bool)
    requires l.state == Connected && !linkUp
    ensures Check(l, true, linkUp, apStarts, busy) == BeginConnect(l)
    ensures Check(l, false, linkUp, apStarts, busy) == OpenAp(l, apStarts)
  {
  }

  /** A disconnected supervisor, an attempt in progress, and a healthy link are left alone. */
  lemma CheckLeavesAlone(l: Link, hasSsid: bool, linkUp: bool, apStarts: bool, busy: bool)
    requires l.state == Disconnected || l.state == Connecting || (l.state == Connected && linkUp)
    ensures Check(l, hasSsid, linkUp, apStarts, busy) == l
  {
  }

  /** From the access point, a retry happens only with a saved network and once the
      interval has passed strictly. */
  lemma ApRetryNeedsSsidAndInterval(l: Link, hasSsid: bool, linkUp: bool, apStarts: bool, busy: bool)
    requires l.state == ApMode
    requires !hasSsid || !RetryDue(l)
    ensures Check(l, hasSsid, linkUp, apStarts, busy) == l
  {
  }

  /** A due retry on a quiet radio pauses 200 ms and starts a new attempt. */
  lemma ApRetryStarts(l: Link, linkUp: bool, apStarts: bool)
    requires l.state == ApMode && RetryDue(l)
    ensures var r := Check(l, true, linkUp, apStarts, false);
      && r.state == Connecting
      && r.retryCount == l.retryCount + 1
      && r.connectStart == ToU32(l.ticks + RETRY_PAUSE_MS)
      && r.ticks == l.ticks + RETRY_PAUSE_MS + CONNECT_WAIT_MS
      && r.lastRetry == l.lastRetry
  {
  }

  /** A due retry on a busy radio changes only the time stamp, and no time passes. */
  lemma ApRetryDeferred(l: Link, linkUp: bool, apStarts: bool)
    requires l.state == ApMode && RetryDue(l)
    ensures Check(l, true, linkUp, apStarts, true) == l.(lastRetry := Deferred(l))
  {
  }

  /** After a deferral the retry falls due again exactly once more than 30 s have
      passed, across a wrap of the counter too. */
  lemma DeferralFallsDueAfter(l: Link, d: nat)
    requires d + WIFI_RETRY_INTERVAL < WRAP
    ensures var m := l.(lastRetry := Deferred(l), ticks := l.ticks + d);
      RetryDue(m) <==> d > RETRY_DEFER_MS
  {
    var base := l.ticks - WIFI_RETRY_INTERVAL + RETRY_DEFER_MS;
    ToU32Shift(l.ticks, RETRY_DEFER_MS - WIFI_RETRY_INTERVAL);
    assert Deferred(l) == ToU32(base);
    var span := d + WIFI_RETRY_INTERVAL - RETRY_DEFER_MS;
    ElapsedSince(base, span);
    assert base + span == l.ticks + d;
  }

  /** Once the access point is up, the next retry waits the full interval: a check
      within 5 minutes of `startAPMode` changes nothing. */
  lemma ApRetryWaitsInterval(l: Link, d: nat, linkUp: bool, apStarts: bool, busy: bool)
    requires d <= WIFI_RETRY_INTERVAL
    ensures var a := OpenAp(l, true);
      Check(a.(ticks := a.ticks + d), true, linkUp, apStarts, busy) == a.(ticks := a.ticks + d)
  {
    var a := OpenAp(l, true);
    ElapsedSince(a.ticks, d);
  }

  /** The globals of the supervisor in wifi_manager.cpp, with the board's clock and
      the radio's serial line (`Serial1`), whose pending bytes postpone a retry. */
  class WiFiStation {
    var state: WiFiState
    var savedSsid: string
    var savedPassword: string
    var lastWiFiRetry: U32
    var wifiRetryCount: int
    var wifiConnectStartTime: U32
    const clock: Clock
    const serial: SerialPort

    /** The initial values of the globals. */
    constructor (clock: Clock, serial: SerialPort)
      ensures state == Disconnected && savedSsid == "" && savedPassword == ""
      ensures lastWiFiRetry == 0 && wifiRetryCount == 0 && wifiConnectStartTime == 0
      ensures this.clock == clock && this.serial == serial
    {
      state := Disconnected;
      savedSsid, savedPassword := "", "";
      lastWiFiRetry, wifiRetryCount, wifiConnectStartTime := 0, 0, 0;
      this.clock := clock;
      this.serial := serial;
    }

    function Snapshot(): Link
      reads this, clock
    {
      Link(state, lastWiFiRetry, wifiRetryCount, wifiConnectStartTime, clock.ticks)
    }

    /** `startWiFiConnectionNonBlocking`. */
    method StartConnection()
      modifies this`state, this`wifiRetryCount, this`wifiConnectStartTime, clock
      ensures Snapshot() == BeginConnect(old(Snapshot()))
    {
      state := Connecting;
      wifiRetryCount := wifiRetryCount + 1;
      wifiConnectStartTime := clock.Millis();
      clock.Delay(100);
      clock.Delay(100);
      clock.Delay(100);
      clock.Delay(100);
      clock.Delay(50);
      clock.Delay(50);
    }

    /** `startAPMode`, with `apStarts` the outcome of `WiFi.softAP`. */
    method StartApMode(apStarts: bool)
      modifies this`state, this`lastWiFiRetry, clock
      ensures Snapshot() == OpenAp(old(Snapshot()), apStarts)
    {
      clock.Delay(100);
      clock.Delay(100);
      clock.Delay(100);
      if apStarts {
        state := ApMode;
      } else {
        state := Disconnected;
      }
      lastWiFiRetry := clock.Millis();
    }

    /** `updateWiFiConnection`, with `linkUp` standing for `WiFi.status() == WL_CONNECTED`. */
    method UpdateConnection(linkUp: bool, apStarts: bool)
      modifies this`state, this`lastWiFiRetry, this`wifiRetryCount, clock
      ensures Snapshot() == Update(old(Snapshot()), linkUp, apStarts)
    {
      if state != Connecting {
        return;
      }
      var elapsed := Sub32(clock.Millis(), wifiConnectStartTime);
      if linkUp {
        state := Connected;
        wifiRetryCount := 0;
      } else if elapsed > WIFI_CONNECT_TIMEOUT {
        StartApMode(apStarts);
      }
    }

    /** `checkWiFiStatus`, with `loraProcessing` the radio's busy flag. */
    method CheckStatus(linkUp: bool, apStarts: bool, loraProcessing: bool)
      modifies this`state, this`lastWiFiRetry, this`wifiRetryCount, this`wifiConnectStartTime, clock
      ensures Snapshot() == Check(old(Snapshot()), |savedSsid| > 0, linkUp, apStarts, loraProcessing || serial.rx != [])
    {
      ghost var l := Snapshot();
      if state == Connected && !linkUp {
        if |savedSsid| > 0 {
          StartConnection();
        } else {
          StartApMode(apStarts);
        }
      }
      ghost var m := Snapshot();
      assert m == if l.state == Connected && !linkUp then
        if |savedSsid| > 0 then BeginConnect(l) else OpenAp(l, apStarts) else l;
      if state == ApMode && |savedSsid| > 0 {
        var elapsed := Sub32(clock.Millis(), lastWiFiRetry);
        if elapsed > WIFI_RETRY_INTERVAL {
          if loraProcessing || serial.rx != [] {
            lastWiFiRetry := ToU32(clock.Millis() - WIFI_RETRY_INTERVAL + RETRY_DEFER_MS);
            return;
          }
          clock.Delay(100);
          clock.Delay(100);
          StartConnection();
        }
      }
    }

    /** `getWiFiState`. */
    function GetWiFiState(): WiFiState
      reads this
    {
      state
    }

    /** `loadWiFiCredentials`. */
    method LoadCredentials(prefs: Preferences)
      modifies this`savedSsid, this`savedPassword
      ensures (savedSsid, savedPassword) == LoadedCredentials(prefs.store)
    {
      savedSsid := GetString(prefs.store, "wifi_ssid", "");
      savedPassword := GetString(prefs.store, "wifi_pass", "");
    }

    /** `saveWiFiCredentials`. */
    method SaveCredentials(prefs: Preferences)
      modifies prefs
      ensures prefs.store == StoredCredentials(old(prefs.store), savedSsid, savedPassword)
    {
      prefs.Put("wifi_ssid", StrPref(savedSsid));
      prefs.Put("wifi_pass", StrPref(savedPassword));
    }

    /** `clearWiFiCredentials`: both keys leave the store and the globals are emptied. */
    method ClearCredentials(prefs: Preferences)
      modifies prefs, this`savedSsid, this`savedPassword
      ensures prefs.store == old(prefs.store) - {"wifi_ssid", "wifi_pass"}
      ensures savedSsid == "" && savedPassword == ""
    {
      prefs.Remove("wifi_ssid");
      prefs.Remove("wifi_pass");
      savedSsid := "";
      savedPassword := "";
    }
  }

  /** The network name and password `loadWiFiCredentials` reads, empty when absent. */
  function LoadedCredentials(store: map<string, Pref>): (string, string)
  {
    (GetString(store, "wifi_ssid", ""), GetString(store, "wifi_pass", ""))
  }

  /** The store after `saveWiFiCredentials`. */
  function StoredCredentials(store: map<string, Pref>, ssid: string, password: string): map<string, Pref>
  {
    store["wifi_ssid" := StrPref(ssid)]["wifi_pass" := StrPref(password)]
  }

  /** Saved credentials are read back unchanged, and no other setting is touched. */
  lemma LoadCredentialsAfterSave(store: map<string, Pref>, ssid: string, password: string)
    ensures LoadedCredentials(StoredCredentials(store, ssid, password)) == (ssid, password)
    ensures forall k :: k in store && k != "wifi_ssid" && k != "wifi_pass" ==>
      k in StoredCredentials(store, ssid, password) && StoredCredentials(store, ssid, password)[k] == store[k]
  {
  }

  /** After clearing, the next start sees no saved network, so the access point never
      retries the station; every other setting survives. */
  lemma LoadCredentialsAfterClear(store: map<string, Pref>, l: Link, linkUp: bool, apStarts: bool, busy: bool)
    requires l.state == ApMode
    ensures LoadedCredentials(store - {"wifi_ssid", "wifi_pass"}) == ("", "")
    ensures forall k :: k in store && k != "wifi_ssid" && k != "wifi_pass" ==>
      k in store - {"wifi_ssid", "wifi_pass"} && (store - {"wifi_ssid", "wifi_pass"})[k] == store[k]
    ensures var ssid := LoadedCredentials(store - {"wifi_ssid", "wifi_pass"}).0;
      Check(l, |ssid| > 0, linkUp, apStarts, busy) == l
  {
  }
}
