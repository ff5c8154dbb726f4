/** The telemetry record, the calibration that turns a raw ultrasonic distance into
    a water level, and the store that persists that calibration. */
module TankData {
  import opened Platform
  import opened Config

  /** `TankData`: the latest reading and the quantities derived from it. The float
      fields are reals here; `lastUpdate` and `messageId` are `unsigned long`. */
  datatype TankRecord = TankRecord(
    rawDistance: int,
    waterLevel: int,
    waterPercent: int,
    waterLiters: real,
    tankCapacity: real,
    batteryPercent: int,
    batteryVoltage: real,
    rssi: int,
    snr: int,
    lastUpdate: U32,
    messageId: U32,
    dataValid: bool,
    packetsReceived: int)

  /** A record as declared: no valid data, nothing counted, every number zero. */
  function NewRecord(): (r: TankRecord)
    ensures !r.dataValid && r.packetsReceived == 0
    ensures r.lastUpdate == 0 && r.messageId == 0
    ensures r.rawDistance == r.waterLevel == r.waterPercent == r.batteryPercent == r.rssi == r.snr == 0
    ensures r.waterLiters == r.tankCapacity == r.batteryVoltage == 0.0
  {
    TankRecord(0, 0, 0, 0.0, 0.0, 0, 0.0, 0, 0, 0, 0, false, 0)
  }

  /** The calibration globals: the reading when the tank is full (`MIN_DISTANCE_CM`),
      when it is empty (`MAX_DISTANCE_CM`), and its volume in litres. */
  datatype Calibration = Calibration(minDistance: int, maxDistance: int, capacity: real)
  {
    /** The usable span of readings, `totalRange` in the source. */
    function Range(): int
    {
      maxDistance - minDistance
    }
  }

  const DefaultCalibration := Calibration(DEFAULT_MIN_DISTANCE, DEFAULT_MAX_DISTANCE, DEFAULT_TANK_CAPACITY)

  /** Arduino's `constrain` macro: `low` below `low`, else `high` above `high`. When
      `low > high` it is not a clamp: any value at or above `low` yields `high`. */
  function Constrain(x: int, low: int, high: int): int
  {
    if x < low then low else if x > high then high else x
  }

  /** C integer division, which truncates toward zero. */
  function Quot(a: int, b: int): (q: int)
    requires b > 0
    ensures a >= 0 ==> q == a / b
  {
    if a >= 0 then a / b else -((-a) / b)
  }

  /** `tank.waterLevel`: how far the surface is above the empty mark, in cm. */
  function WaterLevel(raw: int, cal: Calibration): (level: int)
    ensures cal.Range() >= 0 ==> 0 <= level <= cal.Range()
    ensures cal.Range() >= 0 && cal.minDistance <= raw <= cal.maxDistance ==> level == cal.maxDistance - raw
    ensures cal.Range() >= 0 && raw <= cal.minDistance ==> level == cal.Range()
    ensures raw >= cal.maxDistance ==> level == 0 || cal.Range() < 0
    ensures cal.Range() < 0 ==> level == 0 || level == cal.Range()
  {
    Constrain(cal.maxDistance - raw, 0, cal.Range())
  }

  /** `tank.waterPercent`: the level as a truncated percentage of the range, or 0
      when the calibration leaves no range. */
  function WaterPercent(level: int, cal: Calibration): (p: int)
    ensures 0 <= p <= 100
    ensures cal.Range() <= 0 ==> p == 0
    ensures cal.Range() > 0 && 0 <= level <= cal.Range() ==>
      p * cal.Range() <= level * 100 < (p + 1) * cal.Range()
  {
    if cal.Range() > 0 then Constrain(Quot(level * 100, cal.Range()), 0, 100) else 0
  }

  /** `calculateWaterVolume`: litres in proportion to the level, 0 without a range. */
  function WaterVolume(level: int, cal: Calibration): (liters: real)
    ensures cal.Range() <= 0 ==> liters == 0.0
    ensures cal.Range() > 0 && cal.capacity >= 0.0 && 0 <= level <= cal.Range() ==>
      0.0 <= liters <= cal.capacity
    ensures cal.Range() > 0 && level == cal.Range() ==> liters == cal.capacity
    ensures level == 0 ==> liters == 0.0
    ensures cal.Range() > 0 ==> liters * (cal.Range() as real) == (level as real) * cal.capacity
  {
    if cal.Range() <= 0 then 0.0 else (level as real * cal.capacity) / (cal.Range() as real)
  }

  /** The record after `calculateWaterLevel`: the level from the raw distance, and
      the percentage and litres from that level. */
  function Recalculated(rec: TankRecord, cal: Calibration): (r: TankRecord)
    ensures r.(waterLevel := rec.waterLevel, waterPercent := rec.waterPercent, waterLiters := rec.waterLiters) == rec
    ensures r.waterLevel == WaterLevel(rec.rawDistance, cal)
    ensures r.waterPercent == WaterPercent(r.waterLevel, cal)
    ensures r.waterLiters == WaterVolume(r.waterLevel, cal)
  {
    var level := WaterLevel(rec.rawDistance, cal);
    rec.(waterLevel := level, waterPercent := WaterPercent(level, cal), waterLiters := WaterVolume(level, cal))
  }

  /** The derived fields depend on the raw distance and the calibration alone. */
  lemma RecalculatedReadsOnlyRaw(a: TankRecord, b: TankRecord, cal: Calibration)
    requires a.rawDistance == b.rawDistance
    ensures Recalculated(a, cal).waterLevel == Recalculated(b, cal).waterLevel
    ensures Recalculated(a, cal).waterPercent == Recalculated(b, cal).waterPercent
    ensures Recalculated(a, cal).waterLiters == Recalculated(b, cal).waterLiters
  {
  }

  lemma MulMonotone(d: nat, x: int, y: int)
    requires x <= y
    ensures d * x <= d * y
  {
    if d > 0 {
      MulMonotone(d - 1, x, y);
      assert d * x == (d - 1) * x + x && d * y == (d - 1) * y + y;
    }
  }

  lemma DivMonotone(a: int, b: int, d: int)
    requires 0 <= b <= a && d > 0
    ensures b / d <= a / d
  {
    var qa, qb := a / d, b / d;
    assert a == d * qa + a % d && b == d * qb + b % d;
    if qb > qa {
      assert d * (qa + 1) == d * qa + d;
      MulMonotone(d, qa + 1, qb);
    }
  }

  /** A larger reading (the surface further from the sensor) never shows a fuller tank. */
  lemma PercentNonIncreasing(raw1: int, raw2: int, cal: Calibration)
    requires raw1 <= raw2
    ensures WaterLevel(raw1, cal) >= WaterLevel(raw2, cal) || cal.Range() < 0
    ensures WaterPercent(WaterLevel(raw1, cal), cal) >= WaterPercent(WaterLevel(raw2, cal), cal)
  {
    if cal.Range() > 0 {
      var l1, l2 := WaterLevel(raw1, cal), WaterLevel(raw2, cal);
      DivMonotone(l1 * 100, l2 * 100, cal.Range());
    }
  }

  /** The ends of the calibrated span: full at (or closer than) the full mark, empty
      at (or beyond) the empty mark. */
  lemma PercentAtEnds(raw: int, cal: Calibration)
    requires cal.minDistance < cal.maxDistance
    ensures raw <= cal.minDistance ==> WaterPercent(WaterLevel(raw, cal), cal) == 100
    ensures raw >= cal.maxDistance ==> WaterPercent(WaterLevel(raw, cal), cal) == 0
  {
    if raw <= cal.minDistance {
      assert WaterLevel(raw, cal) * 100 == cal.Range() * 100;
    }
  }

  /** The worked example: 45 cm with the default calibration is 75 cm of water, 83%. */
  lemma DefaultCalibrationExample()
    ensures WaterLevel(45, DefaultCalibration) == 75
    ensures WaterPercent(75, DefaultCalibration) == 83
  {
  }

  /** `saveTankSettings`: an ordered pair is kept, any other is replaced by the
      defaults 30/120; a capacity below one litre is replaced by 942.5. */
  function SavedCalibration(minDistance: int, maxDistance: int, capacity: real): (c: Calibration)
    ensures c.minDistance < c.maxDistance && c.capacity >= 1.0
    ensures minDistance < maxDistance <==> c.minDistance == minDistance && c.maxDistance == maxDistance
    ensures minDistance >= maxDistance ==> c.minDistance == DEFAULT_MIN_DISTANCE && c.maxDistance == DEFAULT_MAX_DISTANCE
    ensures capacity >= 1.0 <==> c.capacity == capacity
    ensures capacity < 1.0 ==> c.capacity == DEFAULT_TANK_CAPACITY
  {
    Calibration(
      if minDistance >= maxDistance then DEFAULT_MIN_DISTANCE else minDistance,
      if minDistance >= maxDistance then DEFAULT_MAX_DISTANCE else maxDistance,
      if capacity < 1.0 then DEFAULT_TANK_CAPACITY else capacity)
  }

  /** The calibration `loadTankSettings` reads: stored values, defaults where absent.
      Nothing is validated on the way in. */
  function LoadedCalibration(store: map<string, Pref>): Calibration
  {
    Calibration(
      GetInt(store, "min_distance", DEFAULT_MIN_DISTANCE),
      GetInt(store, "max_distance", DEFAULT_MAX_DISTANCE),
      GetReal(store, "tank_capacity", DEFAULT_TANK_CAPACITY))
  }

  /** The store after the three `put` calls of `saveTankSettings`. */
  function StoredCalibration(store: map<string, Pref>, c: Calibration): map<string, Pref>
  {
    store["min_distance" := IntPref(c.minDistance)]
         ["max_distance" := IntPref(c.maxDistance)]
         ["tank_capacity" := RealPref(c.capacity)]
  }

  /** What is saved is what is loaded at the next start. */
  lemma LoadAfterSave(store: map<string, Pref>, c: Calibration)
    ensures LoadedCalibration(StoredCalibration(store, c)) == c
  {
  }

  /** An empty store yields the defaults, which satisfy the rule `saveTankSettings` enforces. */
  lemma DefaultsWhenNothingStored()
    ensures LoadedCalibration(map[]) == DefaultCalibration
    ensures SavedCalibration(DEFAULT_MIN_DISTANCE, DEFAULT_MAX_DISTANCE, DEFAULT_TANK_CAPACITY) == DefaultCalibration
  {
  }

  /** The globals of tank_data.cpp: the shared record and the calibration. */
  class Tank {
    var tank: TankRecord
    var minDistance: int
    var maxDistance: int
    var capacity: real

    constructor ()
      ensures tank == NewRecord() && Cal() == DefaultCalibration
    {
      tank := NewRecord();
      minDistance, maxDistance, capacity := DEFAULT_MIN_DISTANCE, DEFAULT_MAX_DISTANCE, DEFAULT_TANK_CAPACITY;
    }

    function Cal(): Calibration
      reads this`minDistance, this`maxDistance, this`capacity
    {
      Calibration(minDistance, maxDistance, capacity)
    }

    /** `calculateWaterLevel`: reads the raw distance and the calibration and writes
        only the level, the percentage and the litres. */
    method CalculateWaterLevel()
      modifies this`tank
      ensures tank == Recalculated(old(tank), Cal())
    {
      var totalRange := maxDistance - minDistance;
      tank := tank.(waterLevel := Constrain(maxDistance - tank.rawDistance, 0, totalRange));
      if totalRange > 0 {
        tank := tank.(waterPercent := Constrain(Quot(tank.waterLevel * 100, totalRange), 0, 100));
      } else {
        tank := tank.(waterPercent := 0);
      }
      tank := tank.(waterLiters := WaterVolume(tank.waterLevel, Cal()));
    }

    /** `loadTankSettings`. */
    method LoadTankSettings(prefs: Preferences)
      modifies this`minDistance, this`maxDistance, this`capacity
      ensures Cal() == LoadedCalibration(prefs.store)
    {
      minDistance := GetInt(prefs.store, "min_distance", DEFAULT_MIN_DISTANCE);
      maxDistance := GetInt(prefs.store, "max_distance", DEFAULT_MAX_DISTANCE);
      capacity := GetReal(prefs.store, "tank_capacity", DEFAULT_TANK_CAPACITY);
    }

    /** `initializeTankSettings`: load, then copy the capacity into the record. */
    method InitializeTankSettings(prefs: Preferences)
      modifies this
      ensures Cal() == LoadedCalibration(prefs.store)
      ensures tank == old(tank).(tankCapacity := capacity)
    {
      LoadTankSettings(prefs);
      tank := tank.(tankCapacity := capacity);
    }

    /** `saveTankSettings`: validate, persist exactly the resulting globals, and copy
        the capacity into the record. */
    method SaveTankSettings(minDist: int, maxDist: int, cap: real, prefs: Preferences)
      modifies this, prefs
      ensures Cal() == SavedCalibration(minDist, maxDist, cap)
      ensures prefs.store == StoredCalibration(old(prefs.store), Cal())
      ensures tank == old(tank).(tankCapacity := capacity)
    {
      if minDist >= maxDist {
        minDistance := DEFAULT_MIN_DISTANCE;
        maxDistance := DEFAULT_MAX_DISTANCE;
      } else {
        minDistance := minDist;
        maxDistance := maxDist;
      }
      capacity := if cap < 1.0 then DEFAULT_TANK_CAPACITY else cap;
      prefs.Put("min_distance", IntPref(minDistance));
      prefs.Put("max_distance", IntPref(maxDistance));
      prefs.Put("tank_capacity", RealPref(capacity));
      tank := tank.(tankCapacity := capacity);
    }
  }
}
