/** The signal state of the E46 cluster emulator (src/main.cpp): the module-level globals as the
    fields of one object, the five periodic steps as its methods, and one pass of `loop()`.
    Transmission is modelled by returning the message that would be handed to the CAN bus. */
module ClusterControl {
  import opened Payload
  import opened RpmSweep
  import opened Calibration

  /** The coolant temperature canReadTemp reports in place of a sensor reading. */
  const SIMULATED_TEMP_CELSIUS := 95
  /** Fuel consumption added on each misc frame. */
  const CONSUMPTION_INCREASE := 40

  /** CAN identifiers of the three frames sent to the cluster. */
  const RPM_FRAME_ID := 0x316
  const TEMP_FRAME_ID := 0x329
  const MISC_FRAME_ID := 0x545

  /** One message handed to the CAN transport. */
  datatype CanMessage = CanMessage(id: int, data: seq<byte>)

  /** The scalar globals at one moment. */
  datatype Signals = Signals(
    currentRpm: int,
    step: int,
    multipliedRpm: int,
    multiplier: real,
    currentTempCelsius: int,
    consumptionCounter: int,
    consumptionValue: int)

  /** The scalar globals at program start (C zero-initialises the ones without an initialiser). */
  const INITIAL_SIGNALS := Signals(SWEEP_START_RPM, 0, 0, DEFAULT_MULTIPLIER, 0, 0, 0)

  /** Which of the five timed actions report themselves due in one pass of `loop()`. */
  datatype Due = Due(readRpm: bool, writeRpm: bool, readTemp: bool, writeTemp: bool, writeMisc: bool)

  class Cluster {
    var step: int
    var multipliedRpm: int
    var currentRpm: int
    var currentTempCelsius: int
    var rpmHexConversionMultiplier: real
    var consumptionCounter: int
    var consumptionValue: int

    const canPayloadRpm: array<byte>
    const canPayloadTemp: array<byte>
    const canPayloadMisc: array<byte>

    /** Number of canReadRpm calls so far. */
    ghost var rpmReads: nat

    function State(): Signals
      reads this
    {
      Signals(currentRpm, step, multipliedRpm, rpmHexConversionMultiplier,
              currentTempCelsius, consumptionCounter, consumptionValue)
    }

    /** What holds between any two steps of the program. */
    ghost predicate Valid()
      reads this, canPayloadRpm, canPayloadTemp, canPayloadMisc
    {
      && canPayloadRpm.Length == FRAME_LENGTH
      && canPayloadTemp.Length == FRAME_LENGTH
      && canPayloadMisc.Length == FRAME_LENGTH
      && canPayloadRpm != canPayloadTemp && canPayloadRpm != canPayloadMisc
      && canPayloadTemp != canPayloadMisc
      // the sweep is where rpmReads calls of canReadRpm put it
      && Sweep(currentRpm, step) == At(rpmReads)
      && MIN_MULTIPLIER <= rpmHexConversionMultiplier <= MAX_MULTIPLIER
      && 0 <= multipliedRpm <= MAX_SCALED_RPM
      && (currentTempCelsius == 0 || currentTempCelsius == SIMULATED_TEMP_CELSIUS)
      && 0 <= consumptionCounter
      && consumptionValue == CONSUMPTION_INCREASE * consumptionCounter
      // bytes no step writes stay zero
      && IsRpmFrame(canPayloadRpm[..])
      && canPayloadTemp[..] == TempFrame(canPayloadTemp[1])
      && canPayloadMisc[..] == [NO_LAMPS, canPayloadMisc[1], canPayloadMisc[2], canPayloadMisc[3], 0, 0, 0, 0]
    }

    constructor ()
      ensures Valid() && rpmReads == 0
      ensures fresh(canPayloadRpm) && fresh(canPayloadTemp) && fresh(canPayloadMisc)
      ensures State() == INITIAL_SIGNALS
      ensures canPayloadRpm[..] == canPayloadTemp[..] == canPayloadMisc[..] == [0, 0, 0, 0, 0, 0, 0, 0]
    {
      step := 0;
      multipliedRpm := 0;
      currentRpm := SWEEP_START_RPM;
      currentTempCelsius := 0;
      rpmHexConversionMultiplier := DEFAULT_MULTIPLIER;
      consumptionCounter := 0;
      consumptionValue := 0;
      canPayloadRpm := new byte[] [0, 0, 0, 0, 0, 0, 0, 0];
      canPayloadTemp := new byte[] [0, 0, 0, 0, 0, 0, 0, 0];
      canPayloadMisc := new byte[] [0, 0, 0, 0, 0, 0, 0, 0];
      rpmReads := 0;
      new;
      assert canPayloadRpm[..] == [0, 0, 0, 0, 0, 0, 0, 0];
      assert canPayloadTemp[..] == [0, 0, 0, 0, 0, 0, 0, 0];
      assert canPayloadMisc[..] == [0, 0, 0, 0, 0, 0, 0, 0];
    }

    /** canReadRpm: one sweep step, then the speed scaled by the current multiplier. */
    method ReadRpm()
      requires Valid()
      modifies this
      ensures Valid() && rpmReads == old(rpmReads) + 1
      ensures Sweep(currentRpm, step) == Next(Sweep(old(currentRpm), old(step)))
      ensures State() == old(State()).(currentRpm := currentRpm, step := step,
                                       multipliedRpm := ScaledRpm(currentRpm, old(rpmHexConversionMultiplier)))
    {
      if currentRpm >= SWEEP_STOP_RPM {
        step := -SWEEP_INCREMENT_RPM;
      } else if currentRpm <= SWEEP_START_RPM {
        step := SWEEP_INCREMENT_RPM;
      }
      currentRpm := currentRpm + step;
      multipliedRpm := ScaledRpm(currentRpm, rpmHexConversionMultiplier);
      NextAt(rpmReads);
      rpmReads := rpmReads + 1;
      AtInRange(rpmReads);
      ScaledRpmInRange(currentRpm, rpmHexConversionMultiplier);
    }

    /** canWriteRpm: refit the multiplier to the current speed (for the next canReadRpm), and
        send the speed scaled by the previous canReadRpm. */
    method WriteRpm() returns (msg: CanMessage)
      requires Valid()
      modifies this, canPayloadRpm
      ensures Valid() && rpmReads == old(rpmReads)
      ensures canPayloadRpm[..] == RpmFrame(multipliedRpm)
      ensures RpmOf(canPayloadRpm[..]) == multipliedRpm
      ensures msg == CanMessage(RPM_FRAME_ID, canPayloadRpm[..])
      ensures State() == old(State()).(multiplier := Multiplier(currentRpm))
    {
      AtInRange(rpmReads);
      MultiplierOverSweep(currentRpm);
      rpmHexConversionMultiplier := Multiplier(currentRpm);
      canPayloadRpm[2] := LowByte(multipliedRpm);
      canPayloadRpm[3] := HighByte(multipliedRpm);
      RpmFrameRoundTrip(multipliedRpm);
      msg := CanMessage(RPM_FRAME_ID, canPayloadRpm[..]);
    }

    /** canReadTemp: the simulated coolant temperature. */
    method ReadTemp()
      requires Valid()
      modifies this
      ensures Valid() && rpmReads == old(rpmReads)
      ensures State() == old(State()).(currentTempCelsius := SIMULATED_TEMP_CELSIUS)
    {
      currentTempCelsius := SIMULATED_TEMP_CELSIUS;
    }

    /** canWriteTemp: send the encoded coolant temperature. */
    method WriteTemp() returns (msg: CanMessage)
      requires Valid()
      modifies canPayloadTemp
      ensures Valid()
      ensures canPayloadTemp[..] == TempFrame(TempByte(currentTempCelsius))
      ensures msg == CanMessage(TEMP_FRAME_ID, canPayloadTemp[..])
    {
      canPayloadTemp[1] := TempByte(currentTempCelsius);
      msg := CanMessage(TEMP_FRAME_ID, canPayloadTemp[..]);
    }

    /** canWriteMisc: send lamps, the fuel consumption so far and the temperature alarm, then
        add one increment of consumption. */
    method WriteMisc() returns (msg: CanMessage)
      requires Valid()
      modifies this, canPayloadMisc
      ensures Valid() && rpmReads == old(rpmReads)
      ensures canPayloadMisc[..] == MiscFrame(old(consumptionValue), currentTempCelsius)
      ensures FuelOf(canPayloadMisc[..]) == old(consumptionValue) % 65536
      ensures canPayloadMisc[3] == 0
      ensures msg == CanMessage(MISC_FRAME_ID, canPayloadMisc[..])
      ensures State() == old(State()).(consumptionCounter := old(consumptionCounter) + 1,
                                       consumptionValue := old(consumptionValue) + CONSUMPTION_INCREASE)
    {
      canPayloadMisc[0] := NO_LAMPS;
      canPayloadMisc[1] := LowByte(consumptionValue);
      canPayloadMisc[2] := HighByte(consumptionValue);
      canPayloadMisc[3] := AlarmByte(currentTempCelsius);
      MiscFrameRoundTrip(consumptionValue, currentTempCelsius);
      // the source guards the increase with `consumptionCounter % 1 == 0`, which always holds
      if consumptionCounter % 1 == 0 {
        consumptionValue := consumptionValue + CONSUMPTION_INCREASE;
      }
      consumptionCounter := consumptionCounter + 1;
      msg := CanMessage(MISC_FRAME_ID, canPayloadMisc[..]);
    }

    /** One pass of `loop()`: each due action runs, in the fixed order readRpm, writeRpm,
        readTemp, writeTemp, writeMisc; the messages come out in that order. */
    method Pass(due: Due) returns (sent: seq<CanMessage>)
      requires Valid()
      modifies this, canPayloadRpm, canPayloadTemp, canPayloadMisc
      ensures Valid()
      ensures rpmReads == old(rpmReads) + (if due.readRpm then 1 else 0)
      ensures Sweep(currentRpm, step)
           == if due.readRpm then Next(Sweep(old(currentRpm), old(step))) else Sweep(old(currentRpm), old(step))
      // the speed is scaled with the multiplier fitted before this pass ...
      ensures multipliedRpm
           == if due.readRpm then ScaledRpm(currentRpm, old(rpmHexConversionMultiplier)) else old(multipliedRpm)
      // ... and the refit, from the new speed, only serves the next pass
      ensures rpmHexConversionMultiplier
           == if due.writeRpm then Multiplier(currentRpm) else old(rpmHexConversionMultiplier)
      ensures currentTempCelsius == if due.readTemp then SIMULATED_TEMP_CELSIUS else old(currentTempCelsius)
      ensures consumptionCounter == old(consumptionCounter) + (if due.writeMisc then 1 else 0)
      ensures consumptionValue == old(consumptionValue) + (if due.writeMisc then CONSUMPTION_INCREASE else 0)
      // the frames carry this pass's speed and, for the alarm, this pass's temperature
      ensures canPayloadRpm[..] == if due.writeRpm then RpmFrame(multipliedRpm) else old(canPayloadRpm[..])
      ensures canPayloadTemp[..]
           == if due.writeTemp then TempFrame(TempByte(currentTempCelsius)) else old(canPayloadTemp[..])
      ensures canPayloadMisc[..]
           == if due.writeMisc then MiscFrame(old(consumptionValue), currentTempCelsius) else old(canPayloadMisc[..])
      ensures sent
           == (if due.writeRpm then [CanMessage(RPM_FRAME_ID, RpmFrame(multipliedRpm))] else [])
            + (if due.writeTemp then [CanMessage(TEMP_FRAME_ID, TempFrame(TempByte(currentTempCelsius)))] else [])
            + (if due.writeMisc then [CanMessage(MISC_FRAME_ID, MiscFrame(old(consumptionValue), currentTempCelsius))] else [])
    {
      sent := RpmActions(due.readRpm, due.writeRpm);
      var more := TempAndMiscActions(due.readTemp, due.writeTemp, due.writeMisc);
      sent := sent + more;
    }

    /** The first half of a pass: readRpm, then writeRpm, when due. */
    method RpmActions(read: bool, write: bool) returns (sent: seq<CanMessage>)
      requires Valid()
      modifies this, canPayloadRpm
      ensures Valid()
      ensures rpmReads == old(rpmReads) + (if read then 1 else 0)
      ensures Sweep(currentRpm, step)
           == if read then Next(Sweep(old(currentRpm), old(step))) else Sweep(old(currentRpm), old(step))
      ensures multipliedRpm
           == if read then ScaledRpm(currentRpm, old(rpmHexConversionMultiplier)) else old(multipliedRpm)
      ensures rpmHexConversionMultiplier
           == if write then Multiplier(currentRpm) else old(rpmHexConversionMultiplier)
      ensures currentTempCelsius == old(currentTempCelsius)
      ensures consumptionCounter == old(consumptionCounter) && consumptionValue == old(consumptionValue)
      ensures canPayloadRpm[..] == if write then RpmFrame(multipliedRpm) else old(canPayloadRpm[..])
      ensures sent == if write then [CanMessage(RPM_FRAME_ID, RpmFrame(multipliedRpm))] else []
    {
      if read {
        ReadRpm();
      }
      sent := [];
      if write {
        var msg := WriteRpm();
        sent := [msg];
      }
    }

    /** The second half of a pass: readTemp, writeTemp and writeMisc, when due. */
    method TempAndMiscActions(read: bool, writeTemp: bool, writeMisc: bool) returns (sent: seq<CanMessage>)
      requires Valid()
      modifies this, canPayloadTemp, canPayloadMisc
      ensures Valid() && rpmReads == old(rpmReads)
      ensures currentRpm == old(currentRpm) && step == old(step)
      ensures multipliedRpm == old(multipliedRpm)
      ensures rpmHexConversionMultiplier == old(rpmHexConversionMultiplier)
      ensures currentTempCelsius == if read then SIMULATED_TEMP_CELSIUS else old(currentTempCelsius)
      ensures consumptionCounter == old(consumptionCounter) + (if writeMisc then 1 else 0)
      ensures consumptionValue == old(consumptionValue) + (if writeMisc then CONSUMPTION_INCREASE else 0)
      ensures canPayloadTemp[..]
           == if writeTemp then TempFrame(TempByte(currentTempCelsius)) else old(canPayloadTemp[..])
      ensures canPayloadMisc[..]
           == if writeMisc then MiscFrame(old(consumptionValue), currentTempCelsius) else old(canPayloadMisc[..])
      ensures sent
           == (if writeTemp then [CanMessage(TEMP_FRAME_ID, TempFrame(TempByte(currentTempCelsius)))] else [])
            + (if writeMisc then [CanMessage(MISC_FRAME_ID, MiscFrame(old(consumptionValue), currentTempCelsius))] else [])
    {
      if read {
        ReadTemp();
      }
      var first: seq<CanMessage> := [];
      if writeTemp {
        var msg := WriteTemp();
        first := [msg];
      }
      var second: seq<CanMessage> := [];
      if writeMisc {
        var msg := WriteMisc();
        second := [msg];
      }
      sent := first + second;
    }
  }

  /** The numbers of the first two passes when every action is due from the start: 1025 RPM at
      the default 6.55 and 1050 RPM at the multiplier fitted to 1025 RPM, and their RPM frames. */
  lemma FirstSpeeds()
    ensures ScaledRpm(1025, DEFAULT_MULTIPLIER) == 6713
    ensures RpmFrame(6713) == [0, 0, 0x39, 0x1A, 0, 0, 0, 0]
    ensures ScaledRpm(1050, Multiplier(1025)) == 6976
    ensures RpmFrame(6976) == [0, 0, 0x40, 0x1B, 0, 0, 0, 0]
  {
  }

  /** The first two passes with every action due: the first RPM frame is 1025 RPM scaled by the
      default 6.55, the second 1050 RPM scaled by the multiplier fitted to 1025 RPM; the misc
      frames carry the consumption before each increase, with the alarm off at 95 degrees. */
  method FirstTwoPasses()
  {
    FirstSpeeds();
    TempByteExamples();
    var cluster := new Cluster();
    var all := Due(true, true, true, true, true);
    var sent := cluster.Pass(all);
    assert Sweep(cluster.currentRpm, cluster.step) == Sweep(1025, 25);
    assert |sent| == 3;
    assert sent[0] == CanMessage(RPM_FRAME_ID, [0, 0, 0x39, 0x1A, 0, 0, 0, 0]);
    assert sent[1] == CanMessage(TEMP_FRAME_ID, [0, 191, 0, 0, 0, 0, 0, 0]);
    assert sent[2] == CanMessage(MISC_FRAME_ID, [0, 0, 0, 0, 0, 0, 0, 0]);
    assert cluster.State() == Signals(1025, 25, 6713, Multiplier(1025), SIMULATED_TEMP_CELSIUS, 1, 40);
    sent := cluster.Pass(all);
    assert Sweep(cluster.currentRpm, cluster.step) == Sweep(1050, 25);
    assert |sent| == 3;
    assert sent[0] == CanMessage(RPM_FRAME_ID, [0, 0, 0x40, 0x1B, 0, 0, 0, 0]);
    assert sent[1] == CanMessage(TEMP_FRAME_ID, [0, 191, 0, 0, 0, 0, 0, 0]);
    assert sent[2] == CanMessage(MISC_FRAME_ID, [0, 40, 0, 0, 0, 0, 0, 0]);
  }
}
