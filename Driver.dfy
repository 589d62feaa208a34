/**
 * The ADS1015 driver object: it holds the configuration record, and its
 * methods `init`, `_startStreaming`, `readStreaming` and `_readSingle` update
 * that record in place as `Record.Step` describes.
 *
 * The I2C bus is not modelled: each bus transfer's outcome is a parameter
 * (a write either passes or fails with a bus error; a read yields a two-byte
 * buffer or fails), and each operation returns the transfers it issued, in
 * order, so that the bytes written and the reads attempted are observable.
 */
module Driver {
  import opened Wrappers
  import opened Registers
  import opened Settings
  import opened ConfigWord
  import opened Sample
  import opened Record

  /** One bus step as the driver issues it. */
  datatype BusOp =
    | WriteBlock(register: bv8, data: seq<bv8>)
    | Delay(ms: nat)
    | ReadBlock(register: bv8, length: nat)

  class Ads1015 {
    /** Bus number and I2C address, with the constructor's defaults applied. */
    const busId: int
    const address: int
    var config: Config

    predicate Valid()
      reads this
    {
      Consistent(config)
    }

    /**
     * `new ads1015(busId, address)`: a missing or falsy bus number means bus 1,
     * a missing or falsy address means 0x48; the record starts at its defaults.
     */
    constructor (busId: Option<int>, address: Option<int>)
      ensures this.busId == if busId.Some? && busId.value != 0 then busId.value else 1
      ensures this.address == if address.Some? && address.value != 0 then address.value else 0x48
      ensures Valid()
      ensures config.gainVal == 6.144 && config.gain == CR1_PGA_6144 as int
      ensures config.waitTime == 1 && config.sps == CR0_DR_1600 as int
      ensures config.streaming == None
    {
      this.busId := if busId.Some? && busId.value != 0 then busId.value else 1;
      this.address := if address.Some? && address.value != 0 then address.value else 0x48;
      config := DefaultConfig;
    }

    /** `getConfig`: a snapshot of the record, which is always consistent. */
    function GetConfig(): (c: Config)
      requires Valid()
      reads this
      ensures Consistent(c) && c.streaming == config.streaming
    {
      config
    }

    /**
     * `init(gain, sps)`. A given gain must be one of the six PGA codes and
     * sets the range from the gain table; a given data rate must be one of the
     * seven DR codes and sets the wait from the data-rate table. The gain is
     * checked and applied first, so an invalid gain changes nothing, while an
     * invalid data rate leaves a valid gain of the same call applied. An
     * omitted argument leaves its fields alone; `streaming` is never touched.
     */
    method Init(gain: Option<int>, sps: Option<int>) returns (r: Outcome<Error>)
      requires Valid()
      modifies this
      ensures Valid()
      ensures (config, r) == InitConfig(old(config), gain, sps)
    {
      if gain.Some? {
        var volts := GainVolts(gain.value);
        if volts.None? {
          return Fail(InvalidGain(gain.value));
        }
        config := config.(gainVal := volts.value);
        config := config.(gain := gain.value);
      }
      if sps.Some? {
        var wait := WaitTime(sps.value);
        if wait.None? {
          return Fail(InvalidSampleRate(sps.value));
        }
        config := config.(waitTime := wait.value);
        config := config.(sps := sps.value);
      }
      return Pass;
    }

    /**
     * `_startStreaming(channel)`: writes the continuous-mode config word for
     * the channel at the current gain and data rate, and only once that write
     * has succeeded records the channel as streaming.
     */
    method StartStreaming(channel: Channel, write: Outcome<BusError>) returns (r: Outcome<Error>, ops: seq<BusOp>)
      requires Valid()
      modifies this
      ensures Valid()
      ensures ops == [WriteBlock(AP_CONFIG, ConfigWordFor(channel, old(config).gain, Continuous, old(config).sps))]
      ensures config == Step(old(config), StartStreamingCall(channel, write))
      ensures write.Pass? ==> r == Pass && config == old(config).(streaming := Some(channel))
      ensures write.Fail? ==> r == Fail(BusFailure(write.error)) && config == old(config)
    {
      var snapshot := GetConfig();
      var buffer := ConfigWordFor(channel, snapshot.gain, Continuous, snapshot.sps);
      ops := [WriteBlock(AP_CONFIG, buffer)];
      if write.Fail? {
        return Fail(BusFailure(write.error)), ops;
      }
      config := config.(streaming := Some(channel));
      r := Pass;
    }

    /**
     * `readStreaming()`: refuses to run when no stream is running, without
     * touching the bus; otherwise reads the two conversion bytes and decodes
     * them at the range configured now. Nothing in the record changes.
     */
    method ReadStreaming(read: Result<seq<bv8>, BusError>) returns (r: Result<real, Error>, ops: seq<BusOp>)
      requires Valid()
      requires read.Success? ==> |read.value| == 2
      ensures config.streaming.None? ==> r == Failure(NotStreaming) && ops == []
      ensures config.streaming.Some? ==> ops == [ReadBlock(AP_CONVERSION, 2)]
      ensures config.streaming.Some? && read.Failure? ==> r == Failure(BusFailure(read.error))
      ensures config.streaming.Some? && read.Success? ==>
                r.Success? && -config.gainVal <= r.value <= config.gainVal
                && r.value == Scale(SampleOf(read.value[0], read.value[1]), config.gainVal)
    {
      var snapshot := GetConfig();
      if snapshot.streaming.None? {
        return Failure(NotStreaming), [];
      }
      ops := [ReadBlock(AP_CONVERSION, 2)];
      if read.Failure? {
        return Failure(BusFailure(read.error)), ops;
      }
      r := Success(DecodeValue(read.value, snapshot.gainVal));
    }

    /**
     * `_readSingle(channel)`: writes the single-shot config word for the
     * channel; once the write succeeds, ends any stream, waits the configured
     * time, reads the two conversion bytes and decodes them at the range in
     * force when the call began. Gain, data rate and wait are left as they are.
     */
    method ReadSingle(channel: Channel, write: Outcome<BusError>, read: Result<seq<bv8>, BusError>)
      returns (r: Result<real, Error>, ops: seq<BusOp>)
      requires Valid()
      requires read.Success? ==> |read.value| == 2
      modifies this
      ensures Valid()
      ensures |ops| >= 1 && ops[0] == WriteBlock(AP_CONFIG, ConfigWordFor(channel, old(config).gain, SingleShot, old(config).sps))
      ensures config == Step(old(config), ReadSingleCall(channel, write))
      ensures write.Fail? ==> r == Failure(BusFailure(write.error)) && |ops| == 1 && config == old(config)
      ensures write.Pass? ==>
                config == old(config).(streaming := None)
                && ops[1..] == [Delay(old(config).waitTime), ReadBlock(AP_CONVERSION, 2)]
      ensures write.Pass? && read.Failure? ==> r == Failure(BusFailure(read.error))
      ensures write.Pass? && read.Success? ==>
                r.Success? && -old(config).gainVal <= r.value <= old(config).gainVal
                && r.value == Scale(SampleOf(read.value[0], read.value[1]), old(config).gainVal)
    {
      var snapshot := GetConfig();
      var buffer := ConfigWordFor(channel, snapshot.gain, SingleShot, snapshot.sps);
      ops := [WriteBlock(AP_CONFIG, buffer)];
      if write.Fail? {
        return Failure(BusFailure(write.error)), ops;
      }
      config := config.(streaming := None);
      ops := ops + [Delay(snapshot.waitTime), ReadBlock(AP_CONVERSION, 2)];
      if read.Failure? {
        return Failure(BusFailure(read.error)), ops;
      }
      r := Success(DecodeValue(read.value, snapshot.gainVal));
    }
  }

  /** A freshly constructed device is not streaming: `readStreaming` throws and touches no bus. */
  method ReadStreamingBeforeStart(read: Result<seq<bv8>, BusError>) returns (r: Result<real, Error>, ops: seq<BusOp>)
    requires read.Success? ==> |read.value| == 2
    ensures r == Failure(NotStreaming) && ops == []
  {
    var device := new Ads1015(None, None);
    r, ops := device.ReadStreaming(read);
  }

  /**
   * Starting a stream and reading from it decodes at the device's range; a
   * single-shot read on any channel then ends the stream, so the next
   * `readStreaming` throws, whatever the bus returns.
   */
  method SingleShotEndsStream(device: Ads1015, stream: Channel, single: Channel,
                              sample: Result<seq<bv8>, BusError>, singleSample: Result<seq<bv8>, BusError>,
                              later: Result<seq<bv8>, BusError>)
    returns (first: Result<real, Error>, last: Result<real, Error>)
    requires device.Valid()
    requires sample.Success? ==> |sample.value| == 2
    requires singleSample.Success? ==> |singleSample.value| == 2
    requires later.Success? ==> |later.value| == 2
    modifies device
    ensures sample.Success? ==> first.Success? && -device.config.gainVal <= first.value <= device.config.gainVal
    ensures last == Failure(NotStreaming)
  {
    var started, ops := device.StartStreaming(stream, Pass);
    first, ops := device.ReadStreaming(sample);
    var singleResult, singleOps := device.ReadSingle(single, Pass, singleSample);
    last, ops := device.ReadStreaming(later);
  }

  /**
   * `init` does not end a stream: after the gain is changed mid-stream,
   * `readStreaming` scales by the new range although the last config word
   * written to the chip still carries the gain the stream was started with.
   */
  method InitDuringStream(stream: Channel, newGain: int, sample: Result<seq<bv8>, BusError>)
    returns (started: seq<BusOp>, r: Result<real, Error>)
    requires IsGainCode(newGain)
    requires sample.Success? ==> |sample.value| == 2
    ensures started == [WriteBlock(AP_CONFIG, ConfigWordFor(stream, CR1_PGA_6144 as int, Continuous, CR0_DR_1600 as int))]
    ensures sample.Success? ==>
              r == Success(Scale(SampleOf(sample.value[0], sample.value[1]), GainVolts(newGain).value))
  {
    var device := new Ads1015(None, None);
    var outcome, ops := device.StartStreaming(stream, Pass);
    started := ops;
    outcome := device.Init(Some(newGain), None);
    r, ops := device.ReadStreaming(sample);
  }
}
