/** The radio link's protocol as functions of values: how a command's reply is
    scanned, how a received frame is decoded and applied to the telemetry record,
    what the acknowledgment looks like, and how the link state is derived. The
    methods of LoRaComm are proved to do exactly this. */
module LoRaProtocol {
  import opened Platform
  import opened Text
  import opened Config
  import opened TankData

  // ---------------------------------------------------------------------------
  // Command/response exchange
  // ---------------------------------------------------------------------------

  /** The reply to a command is polled every 10 ms until 1000 ms have passed, one
      byte per poll, so at most 100 bytes of it are ever looked at. */
  const POLL_MS: nat := 10
  const COMMAND_TIMEOUT_MS: nat := 1000
  const POLLS: nat := 100

  datatype Outcome = Ok | Err | Timeout

  /** What the reply read so far says: `+OK` is looked for before `+ERR`, each with
      the C search that stops at the first NUL byte. */
  function Verdict(response: seq<char>): (v: Option<Outcome>)
    ensures v != Some(Timeout)
  {
    if CContains(response, "+OK") then Some(Ok)
    else if CContains(response, "+ERR") then Some(Err)
    else None
  }

  /** How an exchange ended, how many reply bytes it read, and how long it waited. */
  datatype Exchange = Exchange(outcome: Outcome, consumed: nat, elapsed: nat)

  function Min(a: nat, b: nat): nat
  {
    if a <= b then a else b
  }

  /** The first verdict among the prefixes of `reply` of length `from` or more that
      are read before the deadline. The byte read at poll `from` follows `from - 1`
      waits of 10 ms; without a verdict the loop runs until the deadline. */
  function Scan(reply: seq<char>, from: nat): (r: Exchange)
    requires from >= 1
    ensures r.consumed <= Min(|reply|, POLLS)
    decreases POLLS + 1 - from
  {
    if from > |reply| || from > POLLS then Exchange(Timeout, Min(|reply|, POLLS), COMMAND_TIMEOUT_MS)
    else
      match Verdict(reply[..from])
      case Some(v) => Exchange(v, from, POLL_MS * (from - 1))
      case None => Scan(reply, from + 1)
  }

  /** `sendLoRaCommand` after the command is written, for the bytes the module answers with. */
  function CommandExchange(reply: seq<char>): (r: Exchange)
    ensures r.consumed <= |reply| && r.consumed <= POLLS
  {
    Scan(reply, 1)
  }

  /** One poll that reads byte `n + 1` of the reply: a verdict on what was read
      ends the exchange, otherwise the next poll decides. */
  lemma PollRead(reply: seq<char>, n: nat)
    requires n < |reply| && n < POLLS
    ensures Verdict(reply[..n + 1]).Some? ==>
      Scan(reply, n + 1) == Exchange(Verdict(reply[..n + 1]).value, n + 1, POLL_MS * n)
    ensures Verdict(reply[..n + 1]) == None ==> Scan(reply, n + 1) == Scan(reply, n + 2)
  {
  }

  /** Past the last byte or the hundredth poll, only the deadline is left. */
  lemma PollsDone(reply: seq<char>, n: nat)
    requires n == |reply| || n == POLLS
    requires n <= |reply| && n <= POLLS
    ensures Scan(reply, n + 1) == Exchange(Timeout, n, COMMAND_TIMEOUT_MS)
  {
  }

  /** The exchange stops at the first byte after which the reply holds a marker and
      reports that marker. */
  lemma {:induction false} ScanFirstVerdict(reply: seq<char>, from: nat)
    requires 1 <= from
    requires from <= Min(|reply|, POLLS) + 1
    ensures var r := Scan(reply, from);
      r.outcome != Timeout ==>
        && from <= r.consumed
        && Verdict(reply[..r.consumed]) == Some(r.outcome)
        && forall j :: from <= j < r.consumed ==> Verdict(reply[..j]) == None
    decreases POLLS + 1 - from
  {
    if from <= |reply| && from <= POLLS {
      PollRead(reply, from - 1);
      var r := Scan(reply, from + 1);
      if Verdict(reply[..from]).None? && r.outcome != Timeout {
        ScanFirstVerdict(reply, from + 1);
        forall j | from <= j < r.consumed
          ensures Verdict(reply[..j]) == None
        {
          if j > from {
            assert from + 1 <= j;
          }
        }
      }
    }
  }

  /** It times out only when no marker shows within the bytes read before the deadline. */
  lemma {:induction false} ScanTimeoutMeansSilence(reply: seq<char>, from: nat)
    requires 1 <= from
    requires from <= Min(|reply|, POLLS) + 1
    ensures Scan(reply, from).outcome == Timeout ==>
      forall j :: from <= j <= Min(|reply|, POLLS) ==> Verdict(reply[..j]) == None
    decreases POLLS + 1 - from
  {
    if from <= |reply| && from <= POLLS {
      PollRead(reply, from - 1);
      if Verdict(reply[..from]).None? && Scan(reply, from + 1).outcome == Timeout {
        ScanTimeoutMeansSilence(reply, from + 1);
        forall j | from <= j <= Min(|reply|, POLLS)
          ensures Verdict(reply[..j]) == None
        {
          if j > from {
            assert from + 1 <= j;
          }
        }
      }
    }
  }

  lemma CommandExchangeSpec(reply: seq<char>)
    ensures var r := CommandExchange(reply);
      && r.consumed <= Min(|reply|, POLLS)
      && (r.outcome != Timeout ==>
            && 1 <= r.consumed
            && Verdict(reply[..r.consumed]) == Some(r.outcome)
            && forall j :: 1 <= j < r.consumed ==> Verdict(reply[..j]) == None)
      && (r.outcome == Timeout <==> forall j :: 1 <= j <= Min(|reply|, POLLS) ==> Verdict(reply[..j]) == None)
  {
    ScanFirstVerdict(reply, 1);
    ScanTimeoutMeansSilence(reply, 1);
    if forall j :: 1 <= j <= Min(|reply|, POLLS) ==> Verdict(reply[..j]) == None {
      ScanTimesOut(reply, 1);
    }
  }

  /** Conversely, a first marker after byte `j` read in time ends the exchange there. */
  lemma {:induction false} ScanStops(reply: seq<char>, from: nat, j: nat)
    requires 1 <= from <= j <= Min(|reply|, POLLS)
    requires Verdict(reply[..j]).Some?
    requires forall i :: from <= i < j ==> Verdict(reply[..i]) == None
    ensures Scan(reply, from) == Exchange(Verdict(reply[..j]).value, j, POLL_MS * (j - 1))
    decreases j - from
  {
    if from < j {
      assert Verdict(reply[..from]) == None;
      ScanStops(reply, from + 1, j);
    }
  }

  /** And no marker within the bytes read in time is a timeout after the full second. */
  lemma {:induction false} ScanTimesOut(reply: seq<char>, from: nat)
    requires 1 <= from <= Min(|reply|, POLLS) + 1
    requires forall i :: from <= i <= Min(|reply|, POLLS) ==> Verdict(reply[..i]) == None
    ensures Scan(reply, from) == Exchange(Timeout, Min(|reply|, POLLS), COMMAND_TIMEOUT_MS)
    decreases POLLS + 1 - from
  {
    if from <= |reply| && from <= POLLS {
      assert Verdict(reply[..from]) == None;
      ScanTimesOut(reply, from + 1);
    }
  }

  /** A reply that starts with a NUL byte hides everything after it from the search,
      so even an `+OK` behind it runs into the full second's timeout. */
  lemma NulHidesReply(reply: seq<char>)
    requires reply != [] && reply[0] == '\0'
    ensures CommandExchange(reply) == Exchange(Timeout, Min(|reply|, POLLS), COMMAND_TIMEOUT_MS)
  {
    forall i | 1 <= i <= Min(|reply|, POLLS)
      ensures Verdict(reply[..i]) == None
    {
      assert reply[..i][0] == '\0';
    }
    ScanTimesOut(reply, 1);
  }

  /** A reply is judged on its first 100 bytes only. */
  lemma {:induction false} ScanIgnoresLateBytes(reply: seq<char>, late: seq<char>, from: nat)
    requires 1 <= from && |reply| >= POLLS
    ensures Scan(reply + late, from) == Scan(reply, from)
    decreases POLLS + 1 - from
  {
    if from <= POLLS {
      assert (reply + late)[..from] == reply[..from];
      ScanIgnoresLateBytes(reply, late, from + 1);
    }
  }

  /** The module's usual answers. */
  lemma CommandExchangeExamples()
    ensures CommandExchange("+OK\r\n") == Exchange(Ok, 3, 20)
    ensures CommandExchange("+ERR=4\r\n") == Exchange(Err, 4, 30)
    ensures CommandExchange("") == Exchange(Timeout, 0, 1000)
    ensures CommandExchange("\0+OK\r\n") == Exchange(Timeout, 6, 1000)
  {
    var nul := "\0+OK\r\n";
    forall n | 1 <= n <= 6
      ensures Verdict(nul[..n]) == None
    {
      assert nul[..n][0] == '\0';
    }
    assert "+OK\r\n"[..3] == "+OK";
    assert StartsWith("+OK", "+OK");
    assert "+OK\r\n"[..1] == "+";
    assert "+OK\r\n"[..2] == "+O";
    assert !CContains("+", "+OK") && !CContains("+", "+ERR");
    assert !CContains("+O", "+OK") && !CContains("+O", "+ERR");
    assert "+ERR=4\r\n"[..4] == "+ERR";
    assert "+ERR=4\r\n"[..1] == "+";
    assert "+ERR=4\r\n"[..2] == "+E";
    assert "+ERR=4\r\n"[..3] == "+ER";
    assert !CContains("+E", "+OK") && !CContains("+E", "+ERR");
    assert "+ER"[1..] == "ER" && "+ER"[..3] == "+ER" && "+ER"[1] != "+OK"[1];
    assert !StartsWith("+ER", "+OK");
    CContainsNeedsRoom("ER", "+OK");
    CContainsNeedsRoom("+ER", "+ERR");
    assert !CContains("+ER", "+OK") && !CContains("+ER", "+ERR");
    assert !CContains("+ERR", "+OK") && StartsWith("+ERR", "+ERR");
  }

  // ---------------------------------------------------------------------------
  // Received frames: +RCV=<sender>,<length>,<data>,<rssi>,<snr>
  // ---------------------------------------------------------------------------

  /** `parseReceivedMessage` copies the line into a 128-byte buffer. */
  const RX_BUFFER: nat := 128
  const RCV_PREFIX: seq<char> := "+RCV="
  const TANK_PREFIX: seq<char> := "TANK:"

  /** The fields of a `TANK:<dist>:<bat>:<volt>:<id>` payload. */
  datatype Reading = Reading(distance: int, battery: int, voltage: real, id: U32)

  /** What a received line amounts to. */
  datatype Frame =
      /** sender, data, rssi or snr is missing: nothing changes */
    | Malformed
      /** the payload is not a complete TANK reading: only rssi and snr change */
    | SignalOnly(rssi: int, snr: int)
      /** a complete reading whose distance is implausible */
    | OutOfRange(rssi: int, snr: int, reading: Reading)
      /** a complete, plausible reading from `sender` */
    | Accepted(sender: int, rssi: int, snr: int, reading: Reading)

  /** The outer fields of a frame as `strtok` finds them; None for a NULL token. */
  datatype Outer = Outer(sender: Option<seq<char>>, length: Option<seq<char>>, data: Option<seq<char>>,
                         rssi: Option<seq<char>>, snr: Option<seq<char>>)

  /** The fields of a TANK payload as `strtok` finds them. */
  datatype Inner = Inner(distance: Option<seq<char>>, battery: Option<seq<char>>, voltage: Option<seq<char>>,
                         id: Option<seq<char>>)

  /** `strtok` over the outer fields: sender, length, data, rssi, snr. */
  function OuterFields(p: seq<char>): Outer
  {
    var sender := Strtok(p, {','});
    var length := Strtok(sender.1, {','});
    var data := Strtok(length.1, {','});
    var rssi := Strtok(data.1, {','});
    var snr := Strtok(rssi.1, {',', '\r', '\n'});
    Outer(sender.0, length.0, data.0, rssi.0, snr.0)
  }

  /** `strtok` over the payload after `TANK:`: distance, battery, voltage, id. */
  function InnerFields(d: seq<char>): Inner
  {
    var dist := Strtok(d, {':'});
    var bat := Strtok(dist.1, {':'});
    var volt := Strtok(bat.1, {':'});
    var id := Strtok(volt.1, {':', '\r', '\n'});
    Inner(dist.0, bat.0, volt.0, id.0)
  }

  /** A plausible reading is accepted, any other is reported out of range. */
  function Classify(sender: int, rssi: int, snr: int, reading: Reading): (f: Frame)
    ensures f.Accepted? || f.OutOfRange?
    ensures f.Accepted? <==> SENSOR_MIN_READING <= reading.distance <= SENSOR_MAX_READING
  {
    if reading.distance < SENSOR_MIN_READING || reading.distance > SENSOR_MAX_READING then
      OutOfRange(rssi, snr, reading)
    else
      Accepted(sender, rssi, snr, reading)
  }

  /** The data field: a reading when it is `TANK:` and four fields, otherwise only
      the signal figures count. */
  function DecodeData(sender: int, data: seq<char>, rssi: int, snr: int): Frame
  {
    if !StartsWith(data, TANK_PREFIX) then SignalOnly(rssi, snr)
    else DecodeReading(sender, rssi, snr, InnerFields(data[5..]))
  }

  /** All four reading fields must be present; the id is read as a C `long` and
      stored as an `unsigned long`. */
  function DecodeReading(sender: int, rssi: int, snr: int, inner: Inner): Frame
  {
    if inner.distance.None? || inner.battery.None? || inner.voltage.None? || inner.id.None? then SignalOnly(rssi, snr)
    else
      Classify(sender, rssi, snr, Reading(Atoi(inner.distance.value), Atoi(inner.battery.value),
                                          Atof(inner.voltage.value), ToU32(Atoi(inner.id.value))))
  }

  /** The text after `+RCV=`. */
  function Decode(p: seq<char>): Frame
  {
    DecodeFields(OuterFields(p))
  }

  /** Sender, data, rssi and snr must be present; the length field is not looked at. */
  function DecodeFields(outer: Outer): Frame
  {
    if outer.sender.None? || outer.data.None? || outer.rssi.None? || outer.snr.None? then Malformed
    else DecodeData(Atoi(outer.sender.value), outer.data.value, Atoi(outer.rssi.value), Atoi(outer.snr.value))
  }

  /** The decoding `parseReceivedMessage` performs on a line that starts with
      `+RCV=`: the line as the 128-byte buffer holds it, past the prefix. */
  function Parse(message: seq<char>): Frame
    requires StartsWith(message, RCV_PREFIX)
  {
    assert message[..5] == RCV_PREFIX;
    Decode(CBuffer(message, RX_BUFFER)[5..])
  }

  /** A reading is accepted exactly when its distance is plausible. */
  predicate Classified(f: Frame)
  {
    (f.Accepted? ==> SENSOR_MIN_READING <= f.reading.distance <= SENSOR_MAX_READING)
    && (f.OutOfRange? ==> !(SENSOR_MIN_READING <= f.reading.distance <= SENSOR_MAX_READING))
  }

  lemma ParseClassifies(message: seq<char>)
    requires StartsWith(message, RCV_PREFIX)
    ensures Classified(Parse(message))
  {
    assert message[..5] == RCV_PREFIX;
    var outer := OuterFields(CBuffer(message, RX_BUFFER)[5..]);
    if outer.sender.Some? && outer.data.Some? && outer.rssi.Some? && outer.snr.Some? {
      var data := outer.data.value;
      if StartsWith(data, TANK_PREFIX) {
        ReadingClassified(Atoi(outer.sender.value), Atoi(outer.rssi.value), Atoi(outer.snr.value), InnerFields(data[5..]));
      }
    }
  }

  lemma ReadingClassified(sender: int, rssi: int, snr: int, inner: Inner)
    ensures Classified(DecodeReading(sender, rssi, snr, inner))
  {
  }

  lemma DecodeFieldsPresent(s: seq<char>, l: seq<char>, d: seq<char>, r: seq<char>, n: seq<char>)
    ensures DecodeFields(Outer(Some(s), Some(l), Some(d), Some(r), Some(n))) == DecodeData(Atoi(s), d, Atoi(r), Atoi(n))
  {
  }

  lemma DecodeReadingPresent(sender: int, rssi: int, snr: int, d: seq<char>, b: seq<char>, v: seq<char>, i: seq<char>)
    ensures DecodeReading(sender, rssi, snr, Inner(Some(d), Some(b), Some(v), Some(i)))
         == Classify(sender, rssi, snr, Reading(Atoi(d), Atoi(b), Atof(v), ToU32(Atoi(i))))
  {
  }

  /** The line the radio module delivers for `data` from `sender`. */
  function RcvLine(sender: int, data: seq<char>, rssi: int, snr: int): seq<char>
  {
    RCV_PREFIX + Join(IntToDecimal(sender), ',', Join(IntToDecimal(|data|), ',', Join(data, ',',
      Join(IntToDecimal(rssi), ',', IntToDecimal(snr)))))
  }

  /** The payload the sensor node sends; `voltage` is its battery voltage as text. */
  function TankPayload(distance: int, battery: int, voltage: seq<char>, id: U32): seq<char>
  {
    TANK_PREFIX + Join(IntToDecimal(distance), ':', Join(IntToDecimal(battery), ':', Join(voltage, ':', NatToDecimal(id))))
  }

  /** Two fields and the separator between them. */
  function Join(a: seq<char>, sep: char, b: seq<char>): seq<char>
  {
    a + [sep] + b
  }

  /** No character of `s` is one of `cs`. */
  predicate Free(s: seq<char>, cs: set<char>)
  {
    forall k :: 0 <= k < |s| ==> s[k] !in cs
  }

  /** The characters that end a field somewhere in a frame. */
  const SEPARATORS: set<char> := {',', ':', '\r', '\n', '\0'}

  lemma DecimalIsPlain(i: int)
    ensures Free(IntToDecimal(i), SEPARATORS)
    ensures i >= 0 ==> IntToDecimal(i) == NatToDecimal(i)
  {
    var n: nat := if i < 0 then -i else i;
    assert AllDigits(NatToDecimal(n));
  }

  lemma FreeJoin(a: seq<char>, sep: char, b: seq<char>, cs: set<char>)
    requires Free(a, cs) && sep !in cs && Free(b, cs)
    ensures Free(Join(a, sep, b), cs)
  {
    var j := Join(a, sep, b);
    forall k | 0 <= k < |j| ensures j[k] !in cs {
      if k < |a| {
        assert j[k] == a[k];
      } else if k > |a| {
        assert j[k] == b[k - |a| - 1];
      }
    }
  }

  /** Five comma-separated fields, none empty, come out of `strtok` as they went in. */
  lemma OuterOfFields(s: seq<char>, l: seq<char>, d: seq<char>, r: seq<char>, n: seq<char>)
    requires s != [] && l != [] && d != [] && r != [] && n != []
    requires Free(s, {','}) && Free(l, {','}) && Free(d, {','}) && Free(r, {','})
    requires Free(n, {',', '\r', '\n'})
    ensures OuterFields(Join(s, ',', Join(l, ',', Join(d, ',', Join(r, ',', n)))))
         == Outer(Some(s), Some(l), Some(d), Some(r), Some(n))
  {
    StrtokToken(s, ',', Join(l, ',', Join(d, ',', Join(r, ',', n))), {','});
    StrtokToken(l, ',', Join(d, ',', Join(r, ',', n)), {','});
    StrtokToken(d, ',', Join(r, ',', n), {','});
    StrtokToken(r, ',', n, {','});
    StrtokLast(n, {',', '\r', '\n'});
  }

  /** Four colon-separated fields, none empty, likewise. */
  lemma InnerOfFields(d: seq<char>, b: seq<char>, v: seq<char>, i: seq<char>)
    requires d != [] && b != [] && v != [] && i != []
    requires Free(d, {':'}) && Free(b, {':'}) && Free(v, {':'}) && Free(i, {':', '\r', '\n'})
    ensures InnerFields(Join(d, ':', Join(b, ':', Join(v, ':', i)))) == Inner(Some(d), Some(b), Some(v), Some(i))
  {
    StrtokToken(d, ':', Join(b, ':', Join(v, ':', i)), {':'});
    StrtokToken(b, ':', Join(v, ':', i), {':'});
    StrtokToken(v, ':', i, {':'});
    StrtokLast(i, {':', '\r', '\n'});
  }

  /** Any data field without a comma (or NUL) comes out of the outer decoding as
      it went in, with the sender, rssi and snr read back from their decimals. */
  lemma ParseRcvLine(sender: int, data: seq<char>, rssi: int, snr: int)
    requires data != [] && Free(data, {',', '\0'})
    requires |RcvLine(sender, data, rssi, snr)| < RX_BUFFER
    ensures StartsWith(RcvLine(sender, data, rssi, snr), RCV_PREFIX)
    ensures Parse(RcvLine(sender, data, rssi, snr)) == DecodeData(sender, data, rssi, snr)
  {
    var s, l, r, n := IntToDecimal(sender), IntToDecimal(|data|), IntToDecimal(rssi), IntToDecimal(snr);
    DecimalIsPlain(sender);
    DecimalIsPlain(|data|);
    DecimalIsPlain(rssi);
    DecimalIsPlain(snr);
    var p := Join(s, ',', Join(l, ',', Join(data, ',', Join(r, ',', n))));
    FreeJoin(r, ',', n, {'\0'});
    FreeJoin(data, ',', Join(r, ',', n), {'\0'});
    FreeJoin(l, ',', Join(data, ',', Join(r, ',', n)), {'\0'});
    FreeJoin(s, ',', Join(l, ',', Join(data, ',', Join(r, ',', n))), {'\0'});
    var line := RcvLine(sender, data, rssi, snr);
    assert line[..5] == RCV_PREFIX;
    assert line[5..] == p;
    assert '\0' !in line;
    assert CBuffer(line, RX_BUFFER) == line;
    OuterOfFields(s, l, data, r, n);
    assert Parse(line) == Decode(p);
    assert Decode(p) == DecodeFields(Outer(Some(s), Some(l), Some(data), Some(r), Some(n)));
    DecodeFieldsPresent(s, l, data, r, n);
    AtoiOfDecimal(sender);
    AtoiOfDecimal(rssi);
    AtoiOfDecimal(snr);
  }

  /** A complete TANK payload reads back as the reading it carries. */
  lemma DecodeTankPayload(sender: int, distance: int, battery: int, voltage: seq<char>, id: U32, rssi: int, snr: int)
    requires voltage != [] && Free(voltage, SEPARATORS)
    ensures DecodeData(sender, TankPayload(distance, battery, voltage, id), rssi, snr)
         == Classify(sender, rssi, snr, Reading(distance, battery, Atof(voltage), id))
  {
    var d, b, i := IntToDecimal(distance), IntToDecimal(battery), NatToDecimal(id);
    DecimalIsPlain(distance);
    DecimalIsPlain(battery);
    DecimalIsPlain(id);
    var q := Join(d, ':', Join(b, ':', Join(voltage, ':', i)));
    var payload := TankPayload(distance, battery, voltage, id);
    assert payload[..5] == TANK_PREFIX;
    assert payload[5..] == q;
    InnerOfFields(d, b, voltage, i);
    assert DecodeData(sender, payload, rssi, snr) == DecodeReading(sender, rssi, snr, Inner(Some(d), Some(b), Some(voltage), Some(i)));
    DecodeReadingPresent(sender, rssi, snr, d, b, voltage, i);
    AtoiOfDecimal(distance);
    AtoiOfDecimal(battery);
    ReadBackId(id);
    assert Reading(Atoi(d), Atoi(b), Atof(voltage), ToU32(Atoi(i))) == Reading(distance, battery, Atof(voltage), id);
  }

  /** A message id printed with `"%lu"` and read back with `atol` is the same id. */
  lemma ReadBackId(id: U32)
    ensures ToU32(Atoi(NatToDecimal(id))) == id
  {
    AtoiOfNatDecimal(id);
  }

  lemma TankPayloadIsPlain(distance: int, battery: int, voltage: seq<char>, id: U32)
    requires Free(voltage, SEPARATORS)
    ensures TankPayload(distance, battery, voltage, id) != []
    ensures Free(TankPayload(distance, battery, voltage, id), {',', '\0'})
  {
    DecimalIsPlain(distance);
    DecimalIsPlain(battery);
    DecimalIsPlain(id);
    var d, b, i := IntToDecimal(distance), IntToDecimal(battery), NatToDecimal(id);
    var cs := {',', '\0'};
    FreeJoin(voltage, ':', i, cs);
    FreeJoin(b, ':', Join(voltage, ':', i), cs);
    FreeJoin(d, ':', Join(b, ':', Join(voltage, ':', i)), cs);
    var q := Join(d, ':', Join(b, ':', Join(voltage, ':', i)));
    var payload := TankPayload(distance, battery, voltage, id);
    forall k | 0 <= k < |payload| ensures payload[k] !in cs {
      if k >= 5 {
        assert payload[k] == q[k - 5];
      }
    }
  }

  /** The sensor node's frame, delivered whole, decodes to the reading it carries:
      accepted when its distance is plausible, reported out of range otherwise. */
  lemma ParseSensorFrame(sender: int, distance: int, battery: int, voltage: seq<char>, id: U32, rssi: int, snr: int)
    requires voltage != [] && Free(voltage, SEPARATORS)
    requires |RcvLine(sender, TankPayload(distance, battery, voltage, id), rssi, snr)| < RX_BUFFER
    ensures var line := RcvLine(sender, TankPayload(distance, battery, voltage, id), rssi, snr);
      var reading := Reading(distance, battery, Atof(voltage), id);
      && StartsWith(line, RCV_PREFIX)
      && Parse(line) == (if SENSOR_MIN_READING <= distance <= SENSOR_MAX_READING
                         then Accepted(sender, rssi, snr, reading) else OutOfRange(rssi, snr, reading))
  {
    TankPayloadIsPlain(distance, battery, voltage, id);
    ParseRcvLine(sender, TankPayload(distance, battery, voltage, id), rssi, snr);
    DecodeTankPayload(sender, distance, battery, voltage, id, rssi, snr);
  }

  /** A payload that is not a TANK reading only updates the signal figures. */
  lemma ParseForeignFrame(sender: int, data: seq<char>, rssi: int, snr: int)
    requires data != [] && Free(data, {',', '\0'}) && !StartsWith(data, TANK_PREFIX)
    requires |RcvLine(sender, data, rssi, snr)| < RX_BUFFER
    ensures StartsWith(RcvLine(sender, data, rssi, snr), RCV_PREFIX)
    ensures Parse(RcvLine(sender, data, rssi, snr)) == SignalOnly(rssi, snr)
  {
    ParseRcvLine(sender, data, rssi, snr);
  }

  /** The sensor node's usual frame, as text. */
  lemma ExamplePayload()
    ensures TankPayload(45, 80, "3.70", 1001) == "TANK:45:80:3.70:1001"
  {
    ExampleFields();
    ExampleIds();
  }

  /** The decimal texts of the example frames' small fields. */
  lemma ExampleFields()
    ensures IntToDecimal(5) == "5" && IntToDecimal(45) == "45" && IntToDecimal(80) == "80"
  {
  }

  /** The decimal texts of the example frames' message ids. */
  lemma ExampleIds()
    ensures NatToDecimal(1001) == "1001" && NatToDecimal(1002) == "1002"
  {
  }

  /** The sensor node's usual frame decodes to its reading. */
  lemma ParseExample()
    ensures StartsWith(RcvLine(1, "TANK:45:80:3.70:1001", -60, 7), RCV_PREFIX)
    ensures Parse(RcvLine(1, "TANK:45:80:3.70:1001", -60, 7)) == Accepted(1, -60, 7, Reading(45, 80, Atof("3.70"), 1001))
  {
    ExamplePayload();
    assert |IntToDecimal(1)| == 1 && |IntToDecimal(20)| == 2 && |IntToDecimal(-60)| == 3 && |IntToDecimal(7)| == 1;
    assert |RcvLine(1, "TANK:45:80:3.70:1001", -60, 7)| == 36;
    ParseSensorFrame(1, 45, 80, "3.70", 1001, -60, 7);
  }

  /** `sendAck`'s payload: `ACK:` and the message id in decimal. */
  function AckPayload(id: U32): seq<char>
  {
    "ACK:" + NatToDecimal(id)
  }

  /** `sendAck`'s command: `AT+SEND=<addr>,<payload length>,<payload>`. */
  function AckCommand(addr: int, id: U32): seq<char>
  {
    SEND_PREFIX + Join(IntToDecimal(addr), ',', Join(IntToDecimal(|AckPayload(id)|), ',', AckPayload(id)))
  }

  const SEND_PREFIX: seq<char> := "AT+SEND="

  /** How the radio module reads an `AT+SEND` command: address, declared length and data. */
  function SendFields(cmd: seq<char>): Option<(int, int, seq<char>)>
  {
    if !StartsWith(cmd, SEND_PREFIX) then None
    else
      var addr := Strtok(cmd[8..], {','});
      var len := Strtok(addr.1, {','});
      if addr.0.None? || len.0.None? || len.1 == [] then None
      else Some((Atoi(addr.0.value), Atoi(len.0.value), len.1))
  }

  /** An `AT+SEND` command built from an address, a length and data reads back
      as those three. */
  lemma SendFieldsOf(a: seq<char>, n: seq<char>, p: seq<char>)
    requires a != [] && n != [] && p != [] && Free(a, {','}) && Free(n, {','})
    ensures SendFields(SEND_PREFIX + Join(a, ',', Join(n, ',', p))) == Some((Atoi(a), Atoi(n), p))
  {
    var cmd := SEND_PREFIX + Join(a, ',', Join(n, ',', p));
    assert cmd[..8] == SEND_PREFIX;
    assert cmd[8..] == Join(a, ',', Join(n, ',', p));
    StrtokToken(a, ',', Join(n, ',', p), {','});
    StrtokToken(n, ',', p, {','});
  }

  /** The acknowledgment reaches the sender's address, its length field is the
      length of its payload, and the payload carries the id back. */
  lemma AckRoundTrip(addr: int, id: U32)
    ensures SendFields(AckCommand(addr, id)) == Some((addr, |AckPayload(id)|, AckPayload(id)))
    ensures Atoi(AckPayload(id)[4..]) == id
  {
    DecimalIsPlain(addr);
    DecimalIsPlain(|AckPayload(id)|);
    SendFieldsOf(IntToDecimal(addr), IntToDecimal(|AckPayload(id)|), AckPayload(id));
    AtoiOfDecimal(addr);
    AtoiOfDecimal(|AckPayload(id)|);
    assert AckPayload(id)[4..] == NatToDecimal(id);
    AtoiOfNatDecimal(id);
  }

  lemma AckExample()
    ensures AckCommand(1, 1001) == "AT+SEND=1,8,ACK:1001"
  {
    assert NatToDecimal(1001) == "1001";
    assert |AckPayload(1001)| == 8;
  }

  // ---------------------------------------------------------------------------
  // What a frame does to the receiver
  // ---------------------------------------------------------------------------

  /** The part of the receiver the radio path reads and writes: the telemetry
      record, the serial line, the clock and the publish flag. */
  datatype Radio = Radio(rec: TankRecord, rx: seq<char>, tx: seq<seq<char>>, ticks: nat, newData: bool)

  /** `sendAck`: 103 ms of waiting around the write, then every pending byte read
      and dropped, one millisecond each. */
  function AckStep(w: Radio, addr: int, id: U32): Radio
  {
    w.(tx := w.tx + [AckCommand(addr, id)], rx := [], ticks := w.ticks + 103 + |w.rx|)
  }

  function WithReading(rec: TankRecord, reading: Reading): TankRecord
  {
    rec.(rawDistance := reading.distance, batteryPercent := reading.battery,
         batteryVoltage := reading.voltage, messageId := reading.id)
  }

  /** What `parseReceivedMessage` does with a decoded frame: rssi and snr are
      written before the payload is looked at, the reading before its distance is
      checked; an accepted reading is acknowledged first, then the level is
      computed and the record stamped with the time after the acknowledgment. */
  function Apply(w: Radio, f: Frame, cal: Calibration): (r: Radio)
    ensures r.rx == w.rx || r.rx == []
  {
    match f
    case Malformed => w
    case SignalOnly(rssi, snr) => w.(rec := w.rec.(rssi := rssi, snr := snr))
    case OutOfRange(rssi, snr, reading) => w.(rec := WithReading(w.rec.(rssi := rssi, snr := snr), reading))
    case Accepted(sender, rssi, snr, reading) =>
      var acked := AckStep(w, sender, reading.id);
      var rec := Recalculated(WithReading(w.rec.(rssi := rssi, snr := snr), reading), cal);
      acked.(rec := rec.(lastUpdate := ToU32(acked.ticks), dataValid := true, packetsReceived := rec.packetsReceived + 1),
             newData := true)
  }

  /** A frame that is not accepted leaves the link, the clock, the level and the
      record's validity alone: a malformed frame changes nothing, a frame without a
      complete reading changes only rssi and snr, and an implausible reading still
      overwrites the four reading fields. An accepted frame is acknowledged to its
      sender, counted, and its level computed and stamped with the time after the
      acknowledgment. */
  lemma ApplyEffects(w: Radio, f: Frame, cal: Calibration)
    ensures var r := Apply(w, f, cal);
      && (r.rx == w.rx || r.rx == [])
      && (f.Malformed? ==> r == w)
      && (f.SignalOnly? ==> r == w.(rec := w.rec.(rssi := f.rssi, snr := f.snr)))
      && (f.OutOfRange? ==>
            r == w.(rec := w.rec.(rssi := f.rssi, snr := f.snr,
                                  rawDistance := f.reading.distance, batteryPercent := f.reading.battery,
                                  batteryVoltage := f.reading.voltage, messageId := f.reading.id)))
      && (!f.Accepted? ==>
            && r.tx == w.tx && r.rx == w.rx && r.ticks == w.ticks && r.newData == w.newData
            && r.rec.dataValid == w.rec.dataValid && r.rec.lastUpdate == w.rec.lastUpdate
            && r.rec.packetsReceived == w.rec.packetsReceived && r.rec.waterLevel == w.rec.waterLevel)
      && (f.Accepted? ==>
            && r.tx == w.tx + [AckCommand(f.sender, f.reading.id)]
            && r.rx == [] && r.newData
            && r.ticks == w.ticks + 103 + |w.rx|
            && r.rec.dataValid && r.rec.lastUpdate == ToU32(r.ticks)
            && r.rec.packetsReceived == w.rec.packetsReceived + 1
            && r.rec.rawDistance == f.reading.distance && r.rec.messageId == f.reading.id
            && r.rec.batteryPercent == f.reading.battery && r.rec.batteryVoltage == f.reading.voltage
            && r.rec.rssi == f.rssi && r.rec.snr == f.snr
            && r.rec.tankCapacity == w.rec.tankCapacity
            && r.rec.waterLevel == WaterLevel(f.reading.distance, cal)
            && r.rec.waterPercent == WaterPercent(r.rec.waterLevel, cal)
            && r.rec.waterLiters == WaterVolume(r.rec.waterLevel, cal))
  {
  }

  /** One pending line: read up to its newline, trimmed, and parsed when it starts
      with `+RCV=`. */
  function Step(w: Radio, cal: Calibration): (r: Radio)
    requires w.rx != []
    ensures |r.rx| < |w.rx|
  {
    var line := SplitLine(w.rx);
    var msg := Trim(line.0);
    var next := w.(rx := line.1);
    if StartsWith(msg, RCV_PREFIX) then Apply(next, Parse(msg), cal) else next
  }

  /** `processLoRaData`: pending lines are handled in arrival order until none is
      left. An acknowledgment discards whatever is still pending, so lines queued
      behind an accepted frame are never parsed. */
  function ProcessSpec(w: Radio, cal: Calibration): (r: Radio)
    ensures r.rx == []
    decreases |w.rx|
  {
    if w.rx == [] then w else ProcessSpec(Step(w, cal), cal)
  }

  /** One call of `processLoRaData` accepts at most one frame: it sends at most one
      acknowledgment and counts at most one packet, and whatever it does not
      accept leaves the record's validity and time stamp alone. */
  lemma {:induction false} AtMostOneAcceptedPerCall(w: Radio, cal: Calibration)
    ensures ProcessSpec(w, cal).rec.packetsReceived <= w.rec.packetsReceived + 1
    ensures |ProcessSpec(w, cal).tx| <= |w.tx| + 1
    ensures |ProcessSpec(w, cal).tx| == |w.tx| ==>
      && ProcessSpec(w, cal).rec.packetsReceived == w.rec.packetsReceived
      && ProcessSpec(w, cal).rec.dataValid == w.rec.dataValid
      && ProcessSpec(w, cal).rec.lastUpdate == w.rec.lastUpdate
      && ProcessSpec(w, cal).ticks == w.ticks
    decreases |w.rx|
  {
    if w.rx != [] {
      var line := SplitLine(w.rx);
      var msg := Trim(line.0);
      var next := w.(rx := line.1);
      if StartsWith(msg, RCV_PREFIX) {
        var s := Apply(next, Parse(msg), cal);
        assert Step(w, cal) == s;
        ApplyEffects(next, Parse(msg), cal);
        if Parse(msg).Accepted? {
          assert ProcessSpec(w, cal) == s;
        } else {
          AtMostOneAcceptedPerCall(s, cal);
        }
      } else {
        assert Step(w, cal) == next;
        AtMostOneAcceptedPerCall(next, cal);
      }
    }
  }

  /** Lines that are not frames change nothing but the input they came from. */
  lemma {:induction false} OnlyFramesMatter(w: Radio, cal: Calibration)
    requires '+' !in w.rx
    ensures ProcessSpec(w, cal) == w.(rx := [])
    decreases |w.rx|
  {
    if w.rx != [] {
      QuietLine(w, cal);
      OnlyFramesMatter(w.(rx := SplitLine(w.rx).1), cal);
    }
  }

  /** A line without `+` is consumed and changes nothing else. */
  lemma QuietLine(w: Radio, cal: Calibration)
    requires w.rx != [] && '+' !in w.rx
    ensures Step(w, cal) == w.(rx := SplitLine(w.rx).1)
    ensures '+' !in SplitLine(w.rx).1
  {
    var line := SplitLine(w.rx);
    LineKeepsOut(w.rx, '+');
    TrimKeepsOut(line.0, '+');
    var msg := Trim(line.0);
    assert |msg| < 5 || msg[..5][0] != RCV_PREFIX[0];
    assert !StartsWith(msg, RCV_PREFIX);
  }

  lemma OutOfRangePayload()
    ensures TankPayload(5, 80, "3.70", 1002) == "TANK:5:80:3.70:1002"
  {
    ExampleFields();
    ExampleIds();
  }

  /** A frame from the sensor node whose distance is below the sensor's range. */
  lemma ParseOutOfRangeExample()
    ensures StartsWith(RcvLine(1, "TANK:5:80:3.70:1002", -60, 7), RCV_PREFIX)
    ensures Parse(RcvLine(1, "TANK:5:80:3.70:1002", -60, 7)) == OutOfRange(-60, 7, Reading(5, 80, Atof("3.70"), 1002))
  {
    OutOfRangePayload();
    assert |IntToDecimal(1)| == 1 && |IntToDecimal(19)| == 2 && |IntToDecimal(-60)| == 3 && |IntToDecimal(7)| == 1;
    assert |RcvLine(1, "TANK:5:80:3.70:1002", -60, 7)| == 35;
    ParseSensorFrame(1, 5, 80, "3.70", 1002, -60, 7);
  }

  /** The disagreement with the record's documented invariant: after a good frame,
      a frame whose distance is out of range leaves `dataValid` set while the raw
      distance no longer lies in the sensor range, and the level is not recomputed. */
  lemma OutOfRangeKeepsDataValid(w: Radio, cal: Calibration)
    requires w.rec.dataValid
    ensures var msg := RcvLine(1, "TANK:5:80:3.70:1002", -60, 7);
      && StartsWith(msg, RCV_PREFIX)
      && Parse(msg).OutOfRange?
      && Apply(w, Parse(msg), cal).rec.dataValid
      && Apply(w, Parse(msg), cal).rec.rawDistance == 5 < SENSOR_MIN_READING
      && Apply(w, Parse(msg), cal).rec.waterLevel == w.rec.waterLevel
      && Apply(w, Parse(msg), cal).tx == w.tx
  {
    ParseOutOfRangeExample();
    ApplyEffects(w, Parse(RcvLine(1, "TANK:5:80:3.70:1002", -60, 7)), cal);
  }

  // ---------------------------------------------------------------------------
  // Link state
  // ---------------------------------------------------------------------------

  datatype ConnectionState = Starting | Waiting | Connected | Stale | Lost

  /** `updateLoRaState`: no hardware is Lost; no data yet is Waiting; otherwise the
      age of the last accepted frame decides between Connected, Stale and Lost. */
  function DeriveState(hardware: bool, dataValid: bool, age: U32): (s: ConnectionState)
    ensures s != Starting
    ensures s == Lost <==> !hardware || (dataValid && age > DATA_LOST_MS)
    ensures s == Waiting <==> hardware && !dataValid
    ensures s == Stale <==> hardware && dataValid && DATA_STALE_MS < age <= DATA_LOST_MS
    ensures s == Connected <==> hardware && dataValid && age <= DATA_STALE_MS
  {
    if !hardware then Lost
    else if !dataValid then Waiting
    else if age > DATA_LOST_MS then Lost
    else if age > DATA_STALE_MS then Stale
    else Connected
  }

  /** The thresholds are inclusive on the fresher side, and the age is measured
      across a wrap of the millisecond counter. */
  lemma DeriveStateExamples()
    ensures DeriveState(true, true, 600000) == Connected
    ensures DeriveState(true, true, 900000) == Stale
    ensures DeriveState(true, true, 11 * 60000) == Stale
    ensures DeriveState(true, true, 16 * 60000) == Lost
    ensures Sub32(1000, 0xFFFF_FED8) == 1296
    ensures DeriveState(true, true, Sub32(1000, 0xFFFF_FED8)) == Connected
  {
  }

  /** `getLoRaStateString`. */
  function StateLabel(s: ConnectionState): (name: string)
    ensures name == "OK" <==> s == Connected
    ensures name == "Stale" <==> s == Stale
    ensures name == "Lost" <==> s == Lost
    ensures name == "Wait" <==> s == Starting || s == Waiting
  {
    match s
    case Connected => "OK"
    case Stale => "Stale"
    case Lost => "Lost"
    case _ => "Wait"
  }

  // ---------------------------------------------------------------------------
  // Module configuration
  // ---------------------------------------------------------------------------

  /** The commands `initializeLoRa` sends after a successful `AT` probe. */
  function AddressCommand(address: int): seq<char>
  {
    "AT+ADDRESS=" + IntToDecimal(address)
  }

  function NetworkCommand(networkId: int): seq<char>
  {
    "AT+NETWORKID=" + IntToDecimal(networkId)
  }

  function BandCommand(frequency: string): seq<char>
  {
    "AT+BAND=" + frequency
  }

  /** How `initializeLoRa` ends, given the module's reply to each command: the
      commands sent, whether the hardware counts as connected, the time taken, and
      the reply bytes left unread after the last command. */
  datatype Setup = Setup(sent: seq<seq<char>>, connected: bool, elapsed: nat, rest: seq<char>)

  /** The outcome of one command, how long it took, and the reply bytes it leaves unread. */
  function Answered(answer: seq<char> -> seq<char>, cmd: seq<char>): Outcome
  {
    CommandExchange(answer(cmd)).outcome
  }

  function Took(answer: seq<char> -> seq<char>, cmd: seq<char>): nat
  {
    CommandExchange(answer(cmd)).elapsed
  }

  function Leftover(answer: seq<char> -> seq<char>, cmd: seq<char>): seq<char>
  {
    answer(cmd)[CommandExchange(answer(cmd)).consumed..]
  }

  /** After 500 ms of settling, a failed probe ends the set-up; otherwise all three
      configuration commands are sent, each whatever became of the one before, and
      the hardware counts as connected only when every command was answered `+OK`. */
  function InitSetup(answer: seq<char> -> seq<char>, address: int, networkId: int, frequency: string): Setup
  {
    var a, n, b := AddressCommand(address), NetworkCommand(networkId), BandCommand(frequency);
    if Answered(answer, "AT") != Ok then Setup(["AT"], false, 500 + Took(answer, "AT"), Leftover(answer, "AT"))
    else
      Setup(["AT", a, n, b], Answered(answer, a) == Ok && Answered(answer, n) == Ok && Answered(answer, b) == Ok,
            500 + Took(answer, "AT") + Took(answer, a) + Took(answer, n) + Took(answer, b), Leftover(answer, b))
  }

  /** The probe comes first and a failed probe is the only command sent; after a good
      probe all three configuration commands go out, whatever their answers; the
      hardware counts as connected exactly when every command sent was answered
      `+OK`; and what is left on the line is the rest of the last reply. */
  lemma InitSetupSends(answer: seq<char> -> seq<char>, address: int, networkId: int, frequency: string)
    ensures var r := InitSetup(answer, address, networkId, frequency);
      && r.sent[0] == "AT"
      && (Answered(answer, "AT") != Ok ==> r.sent == ["AT"])
      && (Answered(answer, "AT") == Ok ==>
            r.sent == ["AT", AddressCommand(address), NetworkCommand(networkId), BandCommand(frequency)])
      && (r.connected <==> forall c :: c in r.sent ==> Answered(answer, c) == Ok)
      && r.rest == Leftover(answer, r.sent[|r.sent| - 1])
      && r.elapsed >= 500
  {
  }

  /** The radio settings kept in the settings store. */
  datatype LinkSettings = LinkSettings(frequency: string, networkId: int, address: int)

  const DefaultLinkSettings := LinkSettings(DEFAULT_LORA_FREQUENCY, DEFAULT_LORA_NETWORK_ID, DEFAULT_MY_ADDRESS)

  /** `loadLoRaSettings`: stored values, defaults where absent. */
  function LoadedLink(store: map<string, Pref>): LinkSettings
  {
    LinkSettings(GetString(store, "lora_freq", DEFAULT_LORA_FREQUENCY),
                 GetInt(store, "lora_netid", DEFAULT_LORA_NETWORK_ID),
                 GetInt(store, "lora_addr", DEFAULT_MY_ADDRESS))
  }

  /** The store after the three `put` calls of `saveLoRaSettings`. */
  function StoredLink(store: map<string, Pref>, s: LinkSettings): map<string, Pref>
  {
    store["lora_freq" := StrPref(s.frequency)]["lora_netid" := IntPref(s.networkId)]["lora_addr" := IntPref(s.address)]
  }

  /** What is saved is what is loaded at the next start, and no other key is touched. */
  lemma LoadLinkAfterSave(store: map<string, Pref>, s: LinkSettings)
    ensures LoadedLink(StoredLink(store, s)) == s
    ensures forall k :: k in store && k !in {"lora_freq", "lora_netid", "lora_addr"} ==>
      k in StoredLink(store, s) && StoredLink(store, s)[k] == store[k]
  {
  }

  lemma LinkDefaultsWhenNothingStored()
    ensures LoadedLink(map[]) == DefaultLinkSettings
  {
  }
}
