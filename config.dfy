/** The receiver's compile-time configuration: timeouts, sensor limits and the
    defaults of every setting the web forms can change. */
module Config {

  // Wi-Fi access point and station timing
  const AP_SSID: string := "TankSync"
  const AP_PASSWORD: string := ""
  const WIFI_CONNECT_TIMEOUT: nat := 20000
  const WIFI_RETRY_INTERVAL: nat := 300000

  // MQTT defaults
  const DEFAULT_MQTT_SERVER: string := "192.168.0.163"
  const DEFAULT_MQTT_PORT: int := 1885
  const DEFAULT_MQTT_USER: string := "mqtt-user"
  const DEFAULT_MQTT_PASSWORD: string := "techposts"
  const DEFAULT_MQTT_ENABLED: bool := true

  // Tank calibration defaults: the sensor reading when full, when empty, and the volume
  const DEFAULT_MIN_DISTANCE: int := 30
  const DEFAULT_MAX_DISTANCE: int := 120
  const DEFAULT_TANK_CAPACITY: real := 942.5

  // Radio defaults
  const DEFAULT_LORA_FREQUENCY: string := "865000000"
  const DEFAULT_LORA_NETWORK_ID: int := 6
  const DEFAULT_MY_ADDRESS: int := 2

  // Alert defaults
  const DEFAULT_ALERTS_ENABLED: bool := false
  const DEFAULT_ALERT_LOW_WATER: int := 20
  const DEFAULT_ALERT_LOW_BATTERY: int := 20
  const DEFAULT_ALERT_EMAIL: string := ""

  // Data age thresholds for the radio link
  const DATA_STALE_MS: nat := 600000
  const DATA_LOST_MS: nat := 900000

  // Plausible ultrasonic readings, in cm
  const SENSOR_MIN_READING: int := 10
  const SENSOR_MAX_READING: int := 400

  /** The relations between the constants that the logic built on them relies on. */
  lemma ConstantsConsistent()
    ensures DATA_STALE_MS < DATA_LOST_MS
    ensures SENSOR_MIN_READING < SENSOR_MAX_READING
    ensures DEFAULT_MIN_DISTANCE < DEFAULT_MAX_DISTANCE
    ensures SENSOR_MIN_READING <= DEFAULT_MIN_DISTANCE && DEFAULT_MAX_DISTANCE <= SENSOR_MAX_READING
    ensures DEFAULT_TANK_CAPACITY >= 1.0
    ensures WIFI_CONNECT_TIMEOUT < WIFI_RETRY_INTERVAL
    ensures 1 <= DEFAULT_MQTT_PORT <= 65535
    ensures 0 <= DEFAULT_ALERT_LOW_WATER <= 100 && 0 <= DEFAULT_ALERT_LOW_BATTERY <= 100
    ensures 0 <= DEFAULT_LORA_NETWORK_ID <= 255 && 0 <= DEFAULT_MY_ADDRESS <= 255
  {
  }
}
