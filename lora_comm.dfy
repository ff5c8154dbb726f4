/** lora_comm.cpp: the receiver's side of the radio link, as a class over the
    board's serial line and clock and the shared tank record. Every method is
    proved to do what the matching function of LoRaProtocol describes. */
module LoRaComm {
  import opened Platform
  import opened Text
  import opened Config
  import opened TankData
  import opened LoRaProtocol

  /** The probe followed by the three configuration lines is the four lines written at once. */
  lemma ProbeThenThree(written: seq<seq<char>>, a: seq<char>, n: seq<char>, b: seq<char>)
    ensures written + ["AT"] + [a, n, b] == written + ["AT", a, n, b]
  {
  }

  /** Three lines written one after the other are the three lines written at once. */
  lemma ThreeLines(written: seq<seq<char>>, a: seq<char>, n: seq<char>, b: seq<char>)
    ensures written + [a] + [n] + [b] == written + [a, n, b]
  {
  }

  /** The globals of lora_comm.cpp, with the objects they work on. */
  class LoRa {
    var state: ConnectionState
    var hardwareConnected: bool
    var newDataReceived: bool
    var frequency: string
    var networkId: int
    var myAddress: int
    const tank: Tank
    const serial: SerialPort
    const clock: Clock

    constructor (tank: Tank, serial: SerialPort, clock: Clock)
      ensures this.tank == tank && this.serial == serial && this.clock == clock
      ensures state == Starting && !hardwareConnected && !newDataReceived
      ensures Settings() == DefaultLinkSettings
    {
      this.tank, this.serial, this.clock := tank, serial, clock;
      state, hardwareConnected, newDataReceived := Starting, false, false;
      frequency, networkId, myAddress := DEFAULT_LORA_FREQUENCY, DEFAULT_LORA_NETWORK_ID, DEFAULT_MY_ADDRESS;
    }

    function Settings(): LinkSettings
      reads this
    {
      LinkSettings(frequency, networkId, myAddress)
    }

    /** The state the radio path reads and writes. */
    function World(): Radio
      reads this, tank, serial, clock
    {
      Radio(tank.tank, serial.rx, serial.tx, clock.ticks, newDataReceived)
    }

    /** `loadLoRaSettings`. */
    method LoadSettings(prefs: Preferences)
      modifies this`frequency, this`networkId, this`myAddress
      ensures Settings() == LoadedLink(prefs.store)
    {
      frequency := GetString(prefs.store, "lora_freq", DEFAULT_LORA_FREQUENCY);
      networkId := GetInt(prefs.store, "lora_netid", DEFAULT_LORA_NETWORK_ID);
      myAddress := GetInt(prefs.store, "lora_addr", DEFAULT_MY_ADDRESS);
    }

    /** `saveLoRaSettings`: the values are taken as given and persisted. */
    method SaveSettings(freq: string, netid: int, addr: int, prefs: Preferences)
      modifies this`frequency, this`networkId, this`myAddress, prefs
      ensures Settings() == LinkSettings(freq, netid, addr)
      ensures prefs.store == StoredLink(old(prefs.store), Settings())
    {
      frequency, networkId, myAddress := freq, netid, addr;
      prefs.Put("lora_freq", StrPref(frequency));
      prefs.Put("lora_netid", IntPref(networkId));
      prefs.Put("lora_addr", IntPref(myAddress));
    }

    /** `while (Serial1.available()) Serial1.read();` */
    method Drain()
      modifies serial
      ensures serial.rx == [] && serial.tx == old(serial.tx)
    {
      while serial.rx != []
        invariant serial.tx == old(serial.tx)
        decreases |serial.rx|
      {
        var _ := serial.Read();
      }
    }

    /** `sendLoRaCommand`: pending input is dropped, the command written, and the
        module's reply (`reply`, all of it buffered once the command is out) read
        one byte per 10 ms poll until it holds `+OK` or `+ERR` or a second passes. */
    method SendCommand(cmd: seq<char>, reply: seq<char>) returns (ok: bool)
      modifies serial, clock
      ensures var e := CommandExchange(reply);
        && ok == (e.outcome == Ok)
        && serial.tx == old(serial.tx) + [cmd]
        && serial.rx == reply[e.consumed..]
        && clock.ticks == old(clock.ticks) + e.elapsed
    {
      Drain();
      serial.PrintLine(cmd);
      serial.Arrive(reply);
      ok := AwaitReply(reply);
    }

    /** The polling loop of `sendLoRaCommand`, over the reply pending on the line. */
    method AwaitReply(ghost reply: seq<char>) returns (ok: bool)
      requires serial.rx == reply
      modifies serial, clock
      ensures var e := CommandExchange(reply);
        && ok == (e.outcome == Ok)
        && serial.tx == old(serial.tx)
        && serial.rx == reply[e.consumed..]
        && clock.ticks == old(clock.ticks) + e.elapsed
    {
      ghost var t0 := clock.ticks;
      ghost var e := CommandExchange(reply);
      var start := clock.Millis();
      var elapsed := Sub32(clock.Millis(), start);
      var response: seq<char> := [];
      ghost var k: nat := 0;
      ghost var n: nat := 0;
      while elapsed < COMMAND_TIMEOUT_MS
        invariant n <= k <= POLLS && n <= |reply| && (n < k ==> n == |reply|)
        invariant clock.ticks == t0 + POLL_MS * k && elapsed == POLL_MS * k && start == ToU32(t0)
        invariant response == reply[..n] && serial.rx == reply[n..]
        invariant serial.tx == old(serial.tx)
        invariant e == Scan(reply, n + 1)
        decreases POLLS - k
      {
        if serial.rx != [] {
          PollRead(reply, n);
          response := ReadReplyByte(reply, n, response);
          n := n + 1;
          var heard := Verdict(response);
          if heard.Some? {
            return heard.value == Ok;
          }
        }
        elapsed := PollDelay(t0, k, start);
        k := k + 1;
      }
      PollsDone(reply, n);
      return false;
    }

    /** The 10 ms pause between polls, then `millis() - start` for the deadline test:
        the 32-bit difference is the true time waited, across a counter wrap too. */
    method PollDelay(ghost t0: nat, ghost k: nat, start: U32) returns (elapsed: U32)
      requires k < POLLS && start == ToU32(t0) && clock.ticks == t0 + POLL_MS * k
      modifies clock
      ensures clock.ticks == t0 + POLL_MS * (k + 1)
      ensures elapsed == Sub32(clock.Millis(), start) == POLL_MS * (k + 1)
    {
      clock.Delay(POLL_MS);
      elapsed := Sub32(clock.Millis(), start);
      ElapsedSince(t0, POLL_MS * (k + 1));
    }

    /** One byte of the reply moves from the line to the response buffer. */
    method ReadReplyByte(ghost reply: seq<char>, ghost n: nat, response: seq<char>) returns (grown: seq<char>)
      requires n < |reply| && response == reply[..n] && serial.rx == reply[n..]
      modifies serial
      ensures grown == reply[..n + 1] && serial.rx == reply[n + 1..] && serial.tx == old(serial.tx)
    {
      var c := serial.Read();
      assert reply[..n + 1] == response + [c];
      grown := response + [c];
    }

    /** `initializeLoRa`, with `answer` giving the module's reply to each command. */
    method Initialize(answer: seq<char> -> seq<char>)
      modifies this`state, this`hardwareConnected, serial, clock
      ensures var r := InitSetup(answer, myAddress, networkId, frequency);
        && serial.tx == old(serial.tx) + r.sent
        && hardwareConnected == r.connected
        && state == (if r.connected then Waiting else Lost)
        && serial.rx == r.rest
        && clock.ticks == old(clock.ticks) + r.elapsed
    {
      clock.Delay(500);
      Drain();
      var atOk := Configure("AT", answer);
      if !atOk {
        hardwareConnected, state := false, Lost;
        return;
      }
      var configured := ConfigureAll(answer);
      ProbeThenThree(old(serial.tx), AddressCommand(myAddress), NetworkCommand(networkId), BandCommand(frequency));
      if configured {
        hardwareConnected, state := true, Waiting;
      } else {
        hardwareConnected, state := false, Lost;
      }
    }

    /** The three configuration commands, each sent whatever became of the one before. */
    method ConfigureAll(answer: seq<char> -> seq<char>) returns (ok: bool)
      modifies serial, clock
      ensures var a, n, b := AddressCommand(myAddress), NetworkCommand(networkId), BandCommand(frequency);
        && ok == (Answered(answer, a) == Ok && Answered(answer, n) == Ok && Answered(answer, b) == Ok)
        && serial.tx == old(serial.tx) + [a, n, b]
        && serial.rx == Leftover(answer, b)
        && clock.ticks == old(clock.ticks) + Took(answer, a) + Took(answer, n) + Took(answer, b)
    {
      var a, n, b := AddressCommand(myAddress), NetworkCommand(networkId), BandCommand(frequency);
      var addrOk := Configure(a, answer);
      var netOk := Configure(n, answer);
      var bandOk := Configure(b, answer);
      ok := addrOk && netOk && bandOk;
      ThreeLines(old(serial.tx), a, n, b);
    }

    /** One command of `initializeLoRa`. */
    method Configure(cmd: seq<char>, answer: seq<char> -> seq<char>) returns (ok: bool)
      modifies serial, clock
      ensures ok == (Answered(answer, cmd) == Ok)
      ensures serial.tx == old(serial.tx) + [cmd]
      ensures serial.rx == Leftover(answer, cmd)
      ensures clock.ticks == old(clock.ticks) + Took(answer, cmd)
    {
      ok := SendCommand(cmd, answer(cmd));
    }

    /** `processLoRaData`: every pending line is read, trimmed, and parsed when it
        starts with `+RCV=`. */
    method ProcessData()
      modifies this`newDataReceived, tank`tank, serial, clock
      ensures World() == ProcessSpec(old(World()), tank.Cal())
    {
      ghost var cal := tank.Cal();
      ghost var target := ProcessSpec(World(), cal);
      while serial.rx != []
        invariant tank.Cal() == cal
        invariant ProcessSpec(World(), cal) == target
        decreases |serial.rx|
      {
        ghost var w := World();
        ProcessLine();
        assert ProcessSpec(w, cal) == ProcessSpec(World(), cal);
      }
    }

    /** The body of the loop in `processLoRaData`. */
    method ProcessLine()
      requires serial.rx != []
      modifies this`newDataReceived, tank`tank, serial, clock
      ensures World() == Step(old(World()), tank.Cal())
    {
      ghost var w := World();
      var msg := serial.ReadStringUntilNewline();
      assert World() == Radio(w.rec, SplitLine(w.rx).1, w.tx, w.ticks, w.newData);
      msg := Trim(msg);
      if StartsWith(msg, RCV_PREFIX) {
        ParseReceivedMessage(msg);
      }
    }

    /** `parseReceivedMessage`, for a line that starts with `+RCV=` (the only lines
        `processLoRaData` passes on): the line is cut into its fields in a 128-byte
        buffer and the resulting frame acted on. */
    method ParseReceivedMessage(message: seq<char>)
      requires StartsWith(message, RCV_PREFIX)
      modifies this`newDataReceived, tank`tank, serial, clock
      ensures World() == Apply(old(World()), Parse(message), tank.Cal())
    {
      var frame := Parse(message);
      ParseClassifies(message);
      ApplyFrame(frame);
    }

    /** The effects of `parseReceivedMessage`, in the order it performs them: rssi
        and snr as soon as the outer fields are there, the reading's fields before
        its distance is checked, then the acknowledgment, the level, the time stamp,
        the packet count and the publish flag. */
    method ApplyFrame(frame: Frame)
      requires Classified(frame)
      modifies this`newDataReceived, tank`tank, serial, clock
      ensures World() == Apply(old(World()), frame, tank.Cal())
    {
      if frame.Malformed? {
        return;
      }
      tank.tank := tank.tank.(rssi := frame.rssi, snr := frame.snr);
      if frame.SignalOnly? {
        return;
      }
      var reading := frame.reading;
      tank.tank := tank.tank.(rawDistance := reading.distance, batteryPercent := reading.battery,
                              batteryVoltage := reading.voltage, messageId := reading.id);
      if tank.tank.rawDistance < SENSOR_MIN_READING || tank.tank.rawDistance > SENSOR_MAX_READING {
        return;
      }
      SendAck(frame.sender, tank.tank.messageId);
      tank.CalculateWaterLevel();
      tank.tank := tank.tank.(lastUpdate := clock.Millis(), dataValid := true,
                              packetsReceived := tank.tank.packetsReceived + 1);
      newDataReceived := true;
    }

    /** `updateLoRaState`. */
    method UpdateState()
      modifies this`state
      ensures state == DeriveState(hardwareConnected, tank.tank.dataValid, Sub32(clock.Millis(), tank.tank.lastUpdate))
    {
      if !hardwareConnected {
        state := Lost;
        return;
      }
      if !tank.tank.dataValid {
        state := Waiting;
        return;
      }
      var age := Sub32(clock.Millis(), tank.tank.lastUpdate);
      if age > DATA_LOST_MS {
        state := Lost;
      } else if age > DATA_STALE_MS {
        state := Stale;
      } else {
        state := Connected;
      }
    }

    /** `sendAck`: 103 ms of delays around writing `AT+SEND=<addr>,<len>,ACK:<id>`,
        then whatever is pending is read and dropped, a millisecond per byte. */
    method SendAck(addr: int, id: U32)
      modifies serial, clock
      ensures serial.tx == old(serial.tx) + [AckCommand(addr, id)]
      ensures serial.rx == []
      ensures clock.ticks == old(clock.ticks) + 103 + |old(serial.rx)|
    {
      clock.Delay(1);
      var ackData := "ACK:" + NatToDecimal(id);
      var ackLen := |ackData|;
      var cmd := SEND_PREFIX + IntToDecimal(addr) + "," + IntToDecimal(ackLen) + "," + ackData;
      assert cmd == AckCommand(addr, id);
      clock.Delay(1);
      serial.PrintLine(cmd);
      clock.Delay(100);
      clock.Delay(1);
      while serial.rx != []
        invariant |serial.rx| <= |old(serial.rx)|
        invariant serial.tx == old(serial.tx) + [AckCommand(addr, id)]
        invariant clock.ticks == old(clock.ticks) + 103 + |old(serial.rx)| - |serial.rx|
        decreases |serial.rx|
      {
        var _ := serial.Read();
        clock.Delay(1);
      }
    }
  }
}
