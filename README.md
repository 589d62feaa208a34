# ADS1015 driver: configuration, streaming state and sample decoding

A Dafny model of the core of `ads1015.js`, a driver for the Texas Instruments
ADS1015 12-bit analog-to-digital converter on an I2C bus. The model covers:

- **Settings** (`Settings.dfy`): the gain table (six PGA codes, each a full-scale
  range of 6.144, 4.096, 2.048, 1.024, 0.512 or 0.256 V, as exact reals) and the
  data-rate table (seven DR codes, each a single-shot wait of 8, 5, 2, 2, 1, 1 or
  1 ms), with the gain table's inverse, the orderings of both tables and
  their field positions.
- **Registers** (`Registers.dfy`): register addresses, field codes as `bv8`, and
  the eight multiplexer inputs as a `Channel` enumeration in one-to-one
  correspondence with the mux codes.
- **Config word** (`ConfigWord.dfy`): the two bytes written to the config
  register (byte 0 = mux | gain | mode | start, byte 1 = data rate | queue 0b11),
  a parser that splits a word by the register's field masks, and round trips in
  both directions.
- **Sample decoding** (`Sample.dfy`): `_decodeValue` as the bit-vector
  shift-and-or, the 12-bit sign correction and the asymmetric scaling (divide by
  2047 above zero, by 2048 at or below zero), proved equal to an arithmetic
  shift of the 16-bit two's-complement reading and bounded by the range.
- **Record** (`Record.dfy`): the `_config` record, its invariant (range and wait
  agree with the gain and data-rate codes), the errors, and each call's effect
  on the record as a pure step function.
- **Driver** (`Driver.dfy`): the record held by the class `Ads1015`, whose
  methods `Init`, `StartStreaming`, `ReadStreaming` and `ReadSingle` update it
  in place as the source does and are proved to agree with the step function.
  Each bus transfer's result is a parameter, and each method returns the bus
  operations it issued, in order (config write, delay, conversion read).
- **History** (`History.dfy`): the record after any sequence of calls, with
  each field characterised by the last call that changed it, proved by
  induction over the history.

Behaviour worth knowing, stated by the client methods at the end of `Driver.dfy`:
a fresh device is not streaming; a single-shot read ends a stream; and `init`
does not end a stream, so after a mid-stream gain change `readStreaming` scales
by the new range although the chip was last configured with the old gain.
`Settings.WaitCoversConversionPeriod` shows that the single-shot wait covers one
nominal conversion period at every data rate except 490 SPS, where 2 ms is
shorter than 1000/490 ms (about 2.04 ms).

## Model

| member | source | states |
|---|---|---|
| Registers.MuxCode | ads1015.js:44-51 | each channel's mux code lies in bits 6:4 |
| Registers.ChannelOfMux | ads1015.js:44-51 | a byte names a channel exactly when it lies within the mux field |
| Registers.MuxCodeRoundTrip | ads1015.js:44-51 | channel and mux code determine each other |
| Settings.GainVolts | ads1015.js:79-103 | a range exists exactly for the six PGA codes, and lies in [0.256, 6.144] V |
| Settings.WaitTime | ads1015.js:106-128 | a wait exists exactly for the seven DR codes, and lies in [1, 8] ms |
| Settings.SamplesPerSecond | ads1015.js:20-26 | each DR code's nominal rate lies in [128, 3300] |
| Settings.GainCodeOf | ads1015.js:81-98 | an inverse of the gain table returns only accepted codes |
| Settings.GainTableInvertible | ads1015.js:81-98 | code maps to range if and only if range maps back to code |
| Settings.GainVoltsDecreasing | ads1015.js:37-42 | a larger PGA code gives a strictly smaller range |
| Settings.GainVoltsHalving | ads1015.js:84-98 | from 4.096 V on, each PGA step halves the range |
| Settings.PgaBits | ads1015.js:37-42 | an accepted gain code is a byte inside the PGA field (bits 3:1) |
| Settings.DataRateBits | ads1015.js:20-26 | an accepted data-rate code is a byte inside the DR field (bits 7:5) |
| Settings.WaitTimeNonIncreasing | ads1015.js:108-122 | a faster data rate never waits longer |
| Settings.WaitCoversConversionPeriod | ads1015.js:108-122 | the wait covers 1000/SPS ms at every rate except 490 SPS |
| ConfigWord.ModeBit | ads1015.js:31-32 | the mode code lies in bit 0 |
| ConfigWord.ConfigBytes | ads1015.js:143-146 | the word is two bytes with the start bit set |
| ConfigWord.ParseConfig | ads1015.js:9-51 | each of the six parsed fields (start, mux, gain, mode, data rate, comparator) lies within its own bits |
| ConfigWord.ParseConfigBytes | ads1015.js:143-146 | parsing a built word recovers start bit, mux, gain, mode, data rate and queue 0b11 |
| ConfigWord.ConfigBytesOfParse | ads1015.js:176-179 | any word with the driver's start and comparator bits is rebuilt from its parsed fields |
| ConfigWord.ConfigWordFor | ads1015.js:143-146 | the word written for channel, gain, data rate and mode decodes back to exactly those |
| Sample.Raw12 | ads1015.js:190 | the combined value lies in [0, 4095] |
| Sample.Raw12Value | ads1015.js:190 | the shift-and-or equals 16 times byte 0 plus the top nibble of byte 1 |
| Sample.Signed12 | ads1015.js:191-192 | the corrected value lies in [-2048, 2047] and differs from the raw one by 0 or 4096 |
| Sample.Signed16 | ads1015.js:188-190 | the 16-bit reading as two's complement lies in [-32768, 32767] |
| Sample.SampleOf | ads1015.js:190-192 | the signed sample lies in [-2048, 2047] |
| Sample.SampleIsArithmeticShift | ads1015.js:188-192 | the sample is the 16-bit two's-complement reading shifted right by 4 (floor) |
| Sample.LowNibbleIgnored | ads1015.js:190 | the low nibble of byte 1 never affects the sample |
| Sample.SampleSign | ads1015.js:190-192 | the sample is negative exactly when bit 7 of byte 0 is set |
| Sample.DecodeValue | ads1015.js:188-197 | the decoded voltage lies in [-gainVal, gainVal] |
| Sample.Fraction | ads1015.js:195 | the fraction of full scale has the sample's sign, is zero only for sample 0, and lies in [-1, 1] for a 12-bit sample |
| Sample.Scale | ads1015.js:195-196 | for a positive range the voltage is positive exactly for positive samples and zero exactly for sample 0; a 12-bit sample stays within plus or minus the range |
| Sample.ScaleMonotonic | ads1015.js:195-196 | scaling is strictly increasing in the sample, hence one-to-one |
| Sample.DecodeExtremes | ads1015.js:188-197 | [0x7F,0xF0] gives +range, [0x80,0x00] gives -range, [0x00,0x00] gives 0 |
| Sample.DecodeReachesRangeOnlyAtExtremes | ads1015.js:195-196 | only samples 2047 and -2048 reach the ends of the range |
| Record.DefaultConsistent | ads1015.js:59-65 | the constructor defaults satisfy the record invariant and are not streaming |
| Record.InitConfig | ads1015.js:78-129 | bad gain: throws, nothing changes; else a given gain is applied with its range; then a bad rate throws leaving rate and wait; else a given rate is applied with its wait; streaming untouched; invariant kept |
| Record.Step | ads1015.js:78-186 | only init changes gain, range, rate and wait; init never changes streaming; invariant kept |
| History.LastGain | ads1015.js:79-104 | the last accepted gain of a history is a PGA code |
| History.LastDataRate | ads1015.js:106-128 | the last applied data rate of a history is a DR code |
| History.RunKeepsConsistent | ads1015.js:59-129 | every call history keeps range matched to gain and wait matched to rate |
| History.RunStreaming | ads1015.js:141-186 | streaming is set by the last successful config write: its channel for a start, none for a single-shot read |
| History.RunGain | ads1015.js:79-104 | gain and range are those of the last init with an accepted gain, even if its data rate was rejected |
| History.RunDataRate | ads1015.js:106-128 | data rate and wait are those of the last init whose gain and rate were both accepted |
| History.StreamingFromDefaults | ads1015.js:151-154 | from a new device, readStreaming can run exactly when the last successful config write started a stream |
| Driver.Ads1015.constructor | ads1015.js:54-65 | bus 1 and address 0x48 by default; record 6.144 V, PGA 0x00, 1 ms, DR 0x80, not streaming |
| Driver.Ads1015.GetConfig | ads1015.js:67-75 | the snapshot is consistent and carries the streaming state |
| Driver.Ads1015.Init | ads1015.js:78-129 | updates the record and returns exactly as InitConfig says; invariant kept |
| Driver.Ads1015.StartStreaming | ads1015.js:141-149 | writes the continuous-mode word for channel, gain, rate; streaming becomes the channel only if the write succeeds (as Step says) |
| Driver.Ads1015.ReadStreaming | ads1015.js:151-158 | not streaming: throws with no bus access; else reads 2 conversion bytes and decodes at the current range; state unchanged |
| Driver.Ads1015.ReadSingle | ads1015.js:172-186 | writes the single-shot word; after a successful write clears streaming (as Step says), waits waitTime, reads and decodes at the entry range |
| Driver.ReadStreamingBeforeStart | ads1015.js:151-154 | readStreaming on a new device throws "not streaming" with no bus access |
| Driver.SingleShotEndsStream | ads1015.js:160-186 | after a stream and a single-shot read, readStreaming throws "not streaming" |
| Driver.InitDuringStream | ads1015.js:78-157 | a gain change during a stream makes readStreaming scale by the new range, while the written word holds the old gain |

## Left out

- The I2C bus itself (`require('i2c-bus')`, `openSync`, `readBytes`, `writeBytes`): each transfer is a parameter that succeeds or fails, and each operation reports the transfers it issued; the bus is assumed to return a two-byte buffer for a two-byte read.
- The delay `wait` (`setTimeout`): modelled only as a `Delay(waitTime)` step between the config write and the conversion read.
- The process-wide lock (`acquireLock` / `releaseLock`) and all interleaving of asynchronous calls: the model is sequential, so the snapshot `_readSingle` takes before the lock equals the record when it writes. That the lock is never released when a transfer throws is not modelled.
- IEEE-754 doubles: ranges and decoded voltages are exact reals.
- The threshold register addresses and the comparator polarity, latch and mode options, which no operation uses; only queue setting `CR0_COMP_QUE_0` appears.
- The exact text of thrown strings: errors are a datatype carrying the rejected value.
- Non-integer or non-numeric arguments to `init`: arguments are integers or absent; anything outside the tables is rejected, as in the source.
- The sixteen channel entry points (`read0` … `startStreamingDifferential23`, one of them spelt `startStreaminDifferentialg01`): each is `ReadSingle` or `StartStreaming` with a fixed `Channel`.
- JavaScript's `|` on numbers is modelled as `bv8` OR, which agrees because every operand is below 256.
