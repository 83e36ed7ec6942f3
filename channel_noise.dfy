/** The APU noise channel: registers $400C (volume/envelope), $400E (period
    and mode) and $400F (length counter load), an envelope that decays once
    per envelope clock, and a length counter that silences the channel. Each
    method's frame lists exactly the fields the source assigns, so every other
    field is unchanged. */
module Noise {
  import opened BitOps

  class ChannelNoise {
    /** The audio context's `getLengthMax`: the length-counter load value for a
        register value. Its table is not part of this model. */
    const lengthMax: int -> nat

    var isEnabled: bool
    var envDecayDisable: bool
    var envDecayLoopEnable: bool
    var lengthCounterEnable: bool
    var envReset: bool
    var shiftNow: bool
    var lengthCounter: int
    var progTimerCount: int
    var progTimerMax: int
    var envDecayRate: int
    var envDecayCounter: int
    var envVolume: int
    var masterVolume: int
    var shiftReg: int
    var randomBit: int
    var randomMode: int
    var sampleValue: int
    var accValue: int
    var accCount: int
    var tmp: int

    /** The ranges every method keeps: 4-bit volumes and rate, an envelope
        counter of at most rate + 1, a length counter that never goes below
        zero and a timer period of at most 4 * 15. */
    ghost predicate Valid()
      reads this
    {
      && 0 <= envVolume <= 15
      && 0 <= envDecayRate <= 15
      && 0 <= masterVolume <= 15
      && 0 <= envDecayCounter <= 16
      && lengthCounter >= 0
      && 0 <= progTimerMax <= 60
    }

    /** A fresh channel: everything zero or false, except `accCount` 1 and the
        shift register 1 shl 14. */
    constructor (lengthMax: int -> nat)
      ensures Valid()
      ensures this.lengthMax == lengthMax
      ensures !isEnabled && !envDecayDisable && !envDecayLoopEnable && !lengthCounterEnable
      ensures !envReset && !shiftNow
      ensures lengthCounter == 0 && progTimerCount == 0 && progTimerMax == 0
      ensures envDecayRate == 0 && envDecayCounter == 0 && envVolume == 0 && masterVolume == 0
      ensures shiftReg == 0x4000 && randomBit == 0 && randomMode == 0 && sampleValue == 0
      ensures accValue == 0 && accCount == 1 && tmp == 0
    {
      this.lengthMax := lengthMax;
      isEnabled, envDecayDisable, envDecayLoopEnable, lengthCounterEnable := false, false, false, false;
      envReset, shiftNow := false, false;
      lengthCounter, progTimerCount, progTimerMax := 0, 0, 0;
      envDecayRate, envDecayCounter, envVolume, masterVolume := 0, 0, 0, 0;
      shiftReg, randomBit, randomMode, sampleValue := Pow2(14), 0, 0, 0;
      accValue, accCount, tmp := 0, 1, 0;
    }

    /** `writeReg(address: Int, value: Int)`: decodes the register value into
        the fields of the addressed register; any other address changes nothing. */
    method WriteReg(address: int32, value: int32)
      requires Valid()
      modifies this`envDecayDisable, this`envDecayRate, this`envDecayLoopEnable,
               this`lengthCounterEnable, this`masterVolume, this`progTimerMax,
               this`randomMode, this`lengthCounter, this`envReset
      ensures Valid()
      ensures address == 0x400C ==>
        && envDecayDisable == TestBit(value, 4)
        && envDecayRate == value % 16
        && envDecayLoopEnable == TestBit(value, 5)
        && lengthCounterEnable == !envDecayLoopEnable
        && masterVolume == (if envDecayDisable then envDecayRate else envVolume)
        && progTimerMax == old(progTimerMax) && randomMode == old(randomMode)
        && lengthCounter == old(lengthCounter) && envReset == old(envReset)
      ensures address == 0x400E ==>
        && progTimerMax == 4 * (value % 16)
        && randomMode == Shr(value, 7)
        && envDecayDisable == old(envDecayDisable) && envDecayRate == old(envDecayRate)
        && envDecayLoopEnable == old(envDecayLoopEnable)
        && lengthCounterEnable == old(lengthCounterEnable) && masterVolume == old(masterVolume)
        && lengthCounter == old(lengthCounter) && envReset == old(envReset)
      ensures address == 0x400F ==>
        && lengthCounter == lengthMax(value % 256 - value % 8)
        && 0 <= value % 256 - value % 8 <= 248 && (value % 256 - value % 8) % 8 == 0
        && envReset
        && envDecayDisable == old(envDecayDisable) && envDecayRate == old(envDecayRate)
        && envDecayLoopEnable == old(envDecayLoopEnable)
        && lengthCounterEnable == old(lengthCounterEnable) && masterVolume == old(masterVolume)
        && progTimerMax == old(progTimerMax) && randomMode == old(randomMode)
      ensures address != 0x400C && address != 0x400E && address != 0x400F ==>
        && envDecayDisable == old(envDecayDisable) && envDecayRate == old(envDecayRate)
        && envDecayLoopEnable == old(envDecayLoopEnable)
        && lengthCounterEnable == old(lengthCounterEnable) && masterVolume == old(masterVolume)
        && progTimerMax == old(progTimerMax) && randomMode == old(randomMode)
        && lengthCounter == old(lengthCounter) && envReset == old(envReset)
    {
      if address == 0x400C {
        envDecayDisable := TestBit(value, 4);
        envDecayRate := value % 16;
        envDecayLoopEnable := TestBit(value, 5);
        lengthCounterEnable := !TestBit(value, 5);
        masterVolume := if envDecayDisable then envDecayRate else envVolume;
      } else if address == 0x400E {
        progTimerMax := 4 * (value % 16);
        randomMode := Shr(value, 7);
      } else if address == 0x400F {
        lengthCounter := lengthMax(value % 256 - value % 8);
        envReset := true;
      }
    }

    /** `writeReg(address: Int, value: Short)`: the value is masked to its low
        byte first, so the noise mode is a single bit and the length index is a
        multiple of 8 no greater than 248. */
    method WriteRegShort(address: int32, value: short)
      requires Valid()
      modifies this`envDecayDisable, this`envDecayRate, this`envDecayLoopEnable,
               this`lengthCounterEnable, this`masterVolume, this`progTimerMax,
               this`randomMode, this`lengthCounter, this`envReset
      ensures Valid()
      ensures address == 0x400C ==>
        && envDecayDisable == TestBit(value % 256, 4)
        && envDecayRate == value % 16
        && envDecayLoopEnable == TestBit(value % 256, 5)
        && lengthCounterEnable == !envDecayLoopEnable
        && masterVolume == (if envDecayDisable then envDecayRate else envVolume)
        && progTimerMax == old(progTimerMax) && randomMode == old(randomMode)
        && lengthCounter == old(lengthCounter) && envReset == old(envReset)
      ensures address == 0x400E ==>
        && progTimerMax == 4 * (value % 16)
        && randomMode == Shr(value % 256, 7)
        && (randomMode == 0 || randomMode == 1)
        && envDecayDisable == old(envDecayDisable) && envDecayRate == old(envDecayRate)
        && envDecayLoopEnable == old(envDecayLoopEnable)
        && lengthCounterEnable == old(lengthCounterEnable) && masterVolume == old(masterVolume)
        && lengthCounter == old(lengthCounter) && envReset == old(envReset)
      ensures address == 0x400F ==>
        && lengthCounter == lengthMax(value % 256 - value % 8)
        && 0 <= value % 256 - value % 8 <= 248 && (value % 256 - value % 8) % 8 == 0
        && envReset
        && envDecayDisable == old(envDecayDisable) && envDecayRate == old(envDecayRate)
        && envDecayLoopEnable == old(envDecayLoopEnable)
        && lengthCounterEnable == old(lengthCounterEnable) && masterVolume == old(masterVolume)
        && progTimerMax == old(progTimerMax) && randomMode == old(randomMode)
      ensures address != 0x400C && address != 0x400E && address != 0x400F ==>
        && envDecayDisable == old(envDecayDisable) && envDecayRate == old(envDecayRate)
        && envDecayLoopEnable == old(envDecayLoopEnable)
        && lengthCounterEnable == old(lengthCounterEnable) && masterVolume == old(masterVolume)
        && progTimerMax == old(progTimerMax) && randomMode == old(randomMode)
        && lengthCounter == old(lengthCounter) && envReset == old(envReset)
    {
      var b := value % 256;
      LowByte(value);
      ModeIsOneBit(b);
      LengthIndex(b);
      WriteReg(address, b);
    }

    /** `updateSampleValue`: the output becomes `randomBit * masterVolume`
        while the channel is enabled and its length counter is running, and is
        held otherwise. */
    method UpdateSampleValue()
      modifies this`sampleValue
      ensures sampleValue == if isEnabled && lengthCounter > 0 then randomBit * masterVolume
                             else old(sampleValue)
    {
      if isEnabled && lengthCounter > 0 {
        sampleValue := randomBit * masterVolume;
      }
    }

    /** `clockLengthCounter`: counts down by one while counting is enabled and
        the counter is positive. The sample update it makes when the counter
        reaches zero finds the counter at zero, so the sample never changes. */
    method ClockLengthCounter()
      requires Valid()
      modifies this`lengthCounter, this`sampleValue
      ensures Valid()
      ensures lengthCounter == if lengthCounterEnable && old(lengthCounter) > 0
                               then old(lengthCounter) - 1 else old(lengthCounter)
      ensures sampleValue == old(sampleValue)
    {
      if lengthCounterEnable && lengthCounter > 0 {
        lengthCounter := lengthCounter - 1;
        if lengthCounter == 0 {
          UpdateSampleValue();
        }
      }
    }

    /** `clockEnvDecay`: a pending envelope reset restarts the envelope at full
        volume; otherwise the divider counts down and, when it expires, reloads
        and lowers the volume by one, wrapping to 15 only in loop mode. The
        master volume then follows the envelope, or the fixed rate when decay is
        disabled, and the sample is updated. */
    method ClockEnvDecay()
      requires Valid()
      modifies this`envReset, this`envDecayCounter, this`envVolume, this`masterVolume,
               this`sampleValue
      ensures Valid()
      ensures old(envReset) ==>
        !envReset && envDecayCounter == envDecayRate + 1 && envVolume == 15
      ensures !old(envReset) && old(envDecayCounter) <= 1 ==>
        && !envReset && envDecayCounter == envDecayRate + 1
        && envVolume == (if old(envVolume) > 0 then old(envVolume) - 1
                         else if envDecayLoopEnable then 15 else 0)
      ensures !old(envReset) && old(envDecayCounter) > 1 ==>
        !envReset && envDecayCounter == old(envDecayCounter) - 1 && envVolume == old(envVolume)
      ensures masterVolume == if envDecayDisable then envDecayRate else envVolume
      ensures sampleValue == if isEnabled && lengthCounter > 0 then randomBit * masterVolume
                             else old(sampleValue)
    {
      if envReset {
        envReset := false;
        envDecayCounter := envDecayRate + 1;
        envVolume := 0xF;
      } else {
        envDecayCounter := envDecayCounter - 1;
        if envDecayCounter <= 0 {
          envDecayCounter := envDecayRate + 1;
          if envVolume > 0 {
            envVolume := envVolume - 1;
          } else {
            envVolume := if envDecayLoopEnable then 0xF else 0;
          }
        }
      }
      masterVolume := if envDecayDisable then envDecayRate else envVolume;
      UpdateSampleValue();
    }

    /** `setEnabled`: disabling also clears the length counter, which silences
        the length status. */
    method SetEnabled(value: bool)
      requires Valid()
      modifies this`isEnabled, this`lengthCounter, this`sampleValue
      ensures Valid()
      ensures isEnabled == value
      ensures lengthCounter == if value then old(lengthCounter) else 0
      ensures !value ==> LengthStatus() == 0
      ensures sampleValue == if value && lengthCounter > 0 then randomBit * masterVolume
                             else old(sampleValue)
    {
      isEnabled := value;
      if !value {
        lengthCounter := 0;
      }
      UpdateSampleValue();
    }

    /** `channelEnabled`. */
    function ChannelEnabled(): bool
      reads this
    {
      isEnabled
    }

    /** `lengthStatus`: 1 exactly when the channel is enabled and its length
        counter has not run out, 0 otherwise. */
    function LengthStatus(): (r: int)
      reads this
      ensures r == 0 || r == 1
      ensures r == 1 <==> isEnabled && lengthCounter != 0
    {
      if lengthCounter == 0 || !isEnabled then 0 else 1
    }

    /** The timer, length-counter and noise-generator half of the state `reset`
        leaves behind: zero, false, and the shift register at 1. */
    predicate TimerIsReset()
      reads this
    {
      && progTimerCount == 0 && progTimerMax == 0
      && !isEnabled && lengthCounter == 0 && !lengthCounterEnable
      && !shiftNow && shiftReg == 1 && randomBit == 0 && randomMode == 0
    }

    /** The envelope and output half of the state `reset` leaves behind. */
    predicate EnvelopeIsReset()
      reads this
    {
      && !envDecayDisable && !envDecayLoopEnable
      && envDecayRate == 0 && envDecayCounter == 0 && envVolume == 0 && masterVolume == 0
      && sampleValue == 0 && tmp == 0
    }

    /** `reset`: counters, flags and volumes back to zero and the shift register
        to 1 (not to the 1 shl 14 of construction). The pending envelope reset
        and the two accumulators are left alone. */
    method Reset()
      modifies this
      ensures TimerIsReset() && EnvelopeIsReset()
      ensures envReset == old(envReset) && accValue == old(accValue) && accCount == old(accCount)
    {
      ResetTimer();
      ResetEnvelope();
    }

    method ResetTimer()
      modifies this`progTimerCount, this`progTimerMax, this`isEnabled, this`lengthCounter,
               this`lengthCounterEnable, this`shiftNow, this`shiftReg, this`randomBit,
               this`randomMode
      ensures TimerIsReset()
    {
      progTimerCount, progTimerMax, isEnabled, lengthCounter := 0, 0, false, 0;
      lengthCounterEnable, shiftNow := false, false;
      shiftReg, randomBit, randomMode := 1, 0, 0;
    }

    method ResetEnvelope()
      modifies this`envDecayDisable, this`envDecayLoopEnable, this`envDecayRate,
               this`envDecayCounter, this`envVolume, this`masterVolume, this`sampleValue,
               this`tmp
      ensures EnvelopeIsReset()
    {
      envDecayDisable, envDecayLoopEnable := false, false;
      envDecayRate, envDecayCounter, envVolume, masterVolume := 0, 0, 0, 0;
      sampleValue, tmp := 0, 0;
    }
  }

  /** A reset channel is within range and reports a length status of 0. */
  lemma ResetIsSilent(c: ChannelNoise)
    requires c.TimerIsReset() && c.EnvelopeIsReset()
    ensures c.Valid() && c.LengthStatus() == 0 && !c.ChannelEnabled()
  {
  }

  /** Bit 7 of a byte, `value shr 7`, is 0 or 1. */
  lemma ModeIsOneBit(value: int)
    requires 0 <= value < 256
    ensures Shr(value, 7) == 0 || Shr(value, 7) == 1
  {
    ShrBelow(value, 7, 1);
  }

  /** Masking to the low byte keeps the low nibble and the low three bits. */
  lemma LowByte(value: int)
    ensures var b := value % 256;
      b % 16 == value % 16 && b % 8 == value % 8 && b % 256 == b
      && b % 256 - b % 8 == value % 256 - value % 8
  {
    var b := value % 256;
    assert value == 256 * (value / 256) + b;
    assert 256 * (value / 256) == 16 * (16 * (value / 256)) == 8 * (32 * (value / 256));
    DivModUnique(value, 16, 16 * (value / 256) + b / 16, b % 16);
    DivModUnique(value, 8, 32 * (value / 256) + b / 8, b % 8);
  }

  /** `value and 248` of a byte keeps bits 3..7: a multiple of 8 in 0..248. */
  lemma LengthIndex(value: int)
    requires 0 <= value < 256
    ensures var k := (value % 256 - value % 8) / 8;
      0 <= k < 32 && value % 256 - value % 8 == 8 * k
  {
  }
}
