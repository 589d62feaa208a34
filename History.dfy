/**
 * The record after any sequence of driver calls. Each derived quantity is
 * characterised by the last call that changed it: the stream by the last
 * successful config write, the gain by the last `init` with a valid gain, the
 * data rate by the last `init` whose gain and data rate were both valid. The
 * record's invariant holds after every history that starts from a consistent
 * record, in particular from the constructor's defaults.
 */
module History {
  import opened Wrappers
  import opened Registers
  import opened Settings
  import opened Record

  /** The record after applying `calls` in order to `c`. */
  function Run(c: Config, calls: seq<Call>): Config
    decreases |calls|
  {
    if calls == [] then c else Step(Run(c, calls[..|calls| - 1]), calls[|calls| - 1])
  }

  /**
   * How the last successful config write left the stream: Some(Some(ch)) if
   * it started a stream on ch, Some(None) if it was a single-shot read, and
   * None if no config write succeeded.
   */
  function LastStreamChange(calls: seq<Call>): Option<Option<Channel>>
    decreases |calls|
  {
    if calls == [] then None
    else
      match calls[|calls| - 1]
      case StartStreamingCall(ch, Pass) => Some(Some(ch))
      case ReadSingleCall(_, Pass) => Some(None)
      case _ => LastStreamChange(calls[..|calls| - 1])
  }

  /** The gain argument of the last `init` whose gain was given and accepted, if any. */
  function LastGain(calls: seq<Call>): (g: Option<int>)
    ensures g.Some? ==> IsGainCode(g.value)
    decreases |calls|
  {
    if calls == [] then None
    else
      var call := calls[|calls| - 1];
      if call.InitCall? && call.gain.Some? && IsGainCode(call.gain.value) then Some(call.gain.value)
      else LastGain(calls[..|calls| - 1])
  }

  /**
   * The data-rate argument of the last `init` that got as far as applying a
   * given, accepted data rate: its gain was omitted or accepted.
   */
  function LastDataRate(calls: seq<Call>): (d: Option<int>)
    ensures d.Some? ==> IsDataRateCode(d.value)
    decreases |calls|
  {
    if calls == [] then None
    else
      var call := calls[|calls| - 1];
      if call.InitCall? && (call.gain.None? || IsGainCode(call.gain.value))
         && call.sps.Some? && IsDataRateCode(call.sps.value)
      then Some(call.sps.value)
      else LastDataRate(calls[..|calls| - 1])
  }

  /** No call history breaks the agreement of range with gain and of wait with data rate. */
  lemma {:induction false} RunKeepsConsistent(c: Config, calls: seq<Call>)
    requires Consistent(c)
    ensures Consistent(Run(c, calls))
    decreases |calls|
  {
    if calls != [] {
      RunKeepsConsistent(c, calls[..|calls| - 1]);
    }
  }

  /**
   * The stream is whatever the last successful config write made it: running
   * on the channel of a successful start, ended by a successful single-shot
   * read, or as it was if no config write succeeded.
   */
  lemma {:induction false} RunStreaming(c: Config, calls: seq<Call>)
    ensures Run(c, calls).streaming == LastStreamChange(calls).GetOr(c.streaming)
    decreases |calls|
  {
    if calls != [] {
      RunStreaming(c, calls[..|calls| - 1]);
    }
  }

  /** The gain and its range are those of the last accepted gain, or unchanged if there is none. */
  lemma {:induction false} RunGain(c: Config, calls: seq<Call>)
    ensures var last := LastGain(calls);
            && Run(c, calls).gain == last.GetOr(c.gain)
            && Run(c, calls).gainVal == if last.Some? then GainVolts(last.value).value else c.gainVal
    decreases |calls|
  {
    if calls != [] {
      RunGain(c, calls[..|calls| - 1]);
    }
  }

  /** The data rate and its wait are those of the last applied data rate, or unchanged if there is none. */
  lemma {:induction false} RunDataRate(c: Config, calls: seq<Call>)
    ensures var last := LastDataRate(calls);
            && Run(c, calls).sps == last.GetOr(c.sps)
            && Run(c, calls).waitTime == if last.Some? then WaitTime(last.value).value else c.waitTime
    decreases |calls|
  {
    if calls != [] {
      RunDataRate(c, calls[..|calls| - 1]);
    }
  }

  /**
   * From the constructor's defaults, `readStreaming` can run (the record is
   * streaming) exactly when some config write has succeeded and the last one
   * started a stream.
   */
  lemma StreamingFromDefaults(calls: seq<Call>)
    ensures Run(DefaultConfig, calls).streaming.Some? <==>
            LastStreamChange(calls).Some? && LastStreamChange(calls).value.Some?
  {
    RunStreaming(DefaultConfig, calls);
  }
}
