/**
 * The driver's configuration record, its invariant, its errors, and the
 * effect each driver call has on the record as a pure step function. The
 * methods of `Driver.Ads1015` are proved to update the record exactly as
 * `Step` says.
 */
module Record {
  import opened Wrappers
  import opened Registers
  import opened Settings

  /** The driver's `_config` record. `streaming` is the channel of the running stream, if any. */
  datatype Config = Config(gainVal: real, gain: int, waitTime: nat, sps: int, streaming: Option<Channel>)

  /** The configuration the constructor installs: +-6.144 V, 1600 SPS, 1 ms wait, not streaming. */
  const DefaultConfig := Config(6.144, CR1_PGA_6144 as int, 1, CR0_DR_1600 as int, None)

  /** The record's invariant: the derived fields agree with the codes through the two tables. */
  predicate Consistent(c: Config) {
    GainVolts(c.gain) == Some(c.gainVal) && WaitTime(c.sps) == Some(c.waitTime)
  }

  /** An opaque failure reported by the I2C bus. */
  datatype BusError = BusError(message: string)

  /** What the driver throws. */
  datatype Error =
    | InvalidGain(gain: int)            // a gain outside the six PGA codes
    | InvalidSampleRate(sps: int)       // a data rate outside the seven DR codes
    | NotStreaming                      // a streaming read with no stream running
    | BusFailure(cause: BusError)       // a rejected bus transfer, passed on unchanged

  /** The default configuration satisfies the record's invariant. */
  lemma DefaultConsistent()
    ensures Consistent(DefaultConfig) && DefaultConfig.streaming.None?
  {
  }

  /**
   * `init(gain, sps)` on a record: the new record and what the call returns.
   * The gain is checked and applied before the data rate is looked at.
   */
  function InitConfig(c: Config, gain: Option<int>, sps: Option<int>): (r: (Config, Outcome<Error>))
    ensures r.0.streaming == c.streaming
    ensures Consistent(c) ==> Consistent(r.0)
    // An invalid gain throws and changes nothing.
    ensures gain.Some? && !IsGainCode(gain.value) ==> r == (c, Fail(InvalidGain(gain.value)))
    // Otherwise a given gain is applied with its range, whether or not the data rate is valid.
    ensures gain.None? || IsGainCode(gain.value) ==>
              && r.0.gain == (if gain.Some? then gain.value else c.gain)
              && r.0.gainVal == (if gain.Some? then GainVolts(gain.value).value else c.gainVal)
    // An invalid data rate then throws, leaving the data rate and wait as they were.
    ensures (gain.None? || IsGainCode(gain.value)) && sps.Some? && !IsDataRateCode(sps.value) ==>
              && r.1 == Fail(InvalidSampleRate(sps.value))
              && r.0.sps == c.sps && r.0.waitTime == c.waitTime
    // Otherwise the call succeeds and a given data rate is applied with its wait.
    ensures (gain.None? || IsGainCode(gain.value)) && (sps.None? || IsDataRateCode(sps.value)) ==>
              && r.1 == Pass
              && r.0.sps == (if sps.Some? then sps.value else c.sps)
              && r.0.waitTime == (if sps.Some? then WaitTime(sps.value).value else c.waitTime)
  {
    if gain.Some? && GainVolts(gain.value).None? then
      (c, Fail(InvalidGain(gain.value)))
    else
      var afterGain := if gain.Some? then c.(gainVal := GainVolts(gain.value).value, gain := gain.value) else c;
      if sps.Some? && WaitTime(sps.value).None? then
        (afterGain, Fail(InvalidSampleRate(sps.value)))
      else
        (if sps.Some? then afterGain.(waitTime := WaitTime(sps.value).value, sps := sps.value) else afterGain, Pass)
  }

  /**
   * A call on the driver, with the outcome of the config write where the call
   * makes one. Bus reads do not affect the record, so they are not recorded.
   */
  datatype Call =
    | InitCall(gain: Option<int>, sps: Option<int>)
    | StartStreamingCall(channel: Channel, write: Outcome<BusError>)
    | ReadStreamingCall
    | ReadSingleCall(channel: Channel, write: Outcome<BusError>)

  /**
   * The record after one call. A stream starts, and a single-shot read ends
   * one, only once the config write has succeeded; streaming reads change
   * nothing.
   */
  function Step(c: Config, call: Call): (c': Config)
    ensures Consistent(c) ==> Consistent(c')
    ensures !call.InitCall? ==> c'.gain == c.gain && c'.gainVal == c.gainVal && c'.sps == c.sps && c'.waitTime == c.waitTime
    ensures call.InitCall? ==> c'.streaming == c.streaming
  {
    match call
    case InitCall(gain, sps) => InitConfig(c, gain, sps).0
    case StartStreamingCall(ch, write) => if write.Pass? then c.(streaming := Some(ch)) else c
    case ReadStreamingCall => c
    case ReadSingleCall(_, write) => if write.Pass? then c.(streaming := None) else c
  }
}
