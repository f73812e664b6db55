/** The PWM actuator layer: one compare register per light channel. */
module ValPwm {
  import opened ValStatus

  const PWM_CHANNEL_COUNT := 3
  const PWM_MAX_INTENSITY := 100

  predicate ValidChannel(channel: u8) {
    1 <= channel <= PWM_CHANNEL_COUNT
  }

  /** The duty value written for a requested intensity: the request, cut down to 100. */
  function Clamp(intensity: u8): (duty: int)
    ensures 0 <= duty <= PWM_MAX_INTENSITY
    ensures duty == intensity || (intensity > PWM_MAX_INTENSITY && duty == PWM_MAX_INTENSITY)
  {
    if intensity > PWM_MAX_INTENSITY then PWM_MAX_INTENSITY else intensity
  }

  class Pwm {
    /** The compare registers of timer channels 1, 2 and 3 (index channel - 1). */
    const compare: array<int>

    /** Every path that writes a register clamps first, so no register exceeds 100. */
    ghost predicate Valid()
      reads compare
    {
      && compare.Length == PWM_CHANNEL_COUNT
      && forall i :: 0 <= i < compare.Length ==> 0 <= compare[i] <= PWM_MAX_INTENSITY
    }

    /** The registers after reset. */
    constructor ()
      ensures Valid() && fresh(compare)
      ensures compare[..] == [0, 0, 0]
    {
      compare := new int[PWM_CHANNEL_COUNT](_ => 0);
    }

    /** The zeroing loop of VAL_PWM_Init (timer start-up is hardware set-up and not modelled). */
    method Init()
      requires Valid()
      modifies compare
      ensures Valid()
      ensures compare[..] == [0, 0, 0]
    {
      for i := 0 to PWM_CHANNEL_COUNT
        invariant Valid()
        invariant forall k :: 0 <= k < i ==> compare[k] == 0
      {
        var _ := SetIntensity(i + 1, 0);
      }
    }

    /** VAL_PWM_SetIntensity: write the clamped duty of one valid channel. */
    method SetIntensity(channel: u8, intensity: u8) returns (status: Status)
      requires Valid()
      modifies compare
      ensures Valid()
      ensures status == (if ValidChannel(channel) then Ok else Param)
      ensures compare[..] == if ValidChannel(channel)
                             then old(compare[..])[channel - 1 := Clamp(intensity)]
                             else old(compare[..])
    {
      if channel < 1 || channel > PWM_CHANNEL_COUNT {
        return Param;
      }
      var duty := intensity;
      if duty > PWM_MAX_INTENSITY {
        duty := PWM_MAX_INTENSITY;
      }
      compare[channel - 1] := duty;
      status := Ok;
    }

    /** VAL_PWM_GetIntensity: the last duty written to a valid channel; the output is left alone otherwise. */
    method GetIntensity(channel: u8, prior: u8) returns (status: Status, intensity: u8)
      requires Valid()
      ensures !ValidChannel(channel) ==> status == Param && intensity == prior
      ensures ValidChannel(channel) ==> status == Ok && intensity == compare[channel - 1]
    {
      if channel < 1 || channel > PWM_CHANNEL_COUNT {
        return Param, prior;
      }
      // the register is 32 bits wide; the C narrows it to uint8_t
      intensity := ToU8(compare[channel - 1]);
      status := Ok;
    }

    /** VAL_PWM_SetAllIntensities: the last failing channel status, which never occurs. */
    method SetAllIntensities(intensities: seq<u8>) returns (status: Status)
      requires Valid() && |intensities| == PWM_CHANNEL_COUNT
      modifies compare
      ensures Valid()
      ensures status == Ok
      ensures forall i :: 0 <= i < PWM_CHANNEL_COUNT ==> compare[i] == Clamp(intensities[i])
    {
      status := Ok;
      for i := 0 to PWM_CHANNEL_COUNT
        invariant Valid()
        invariant status == Ok
        invariant forall k :: 0 <= k < i ==> compare[k] == Clamp(intensities[k])
      {
        var channelStatus := SetIntensity(i + 1, intensities[i]);
        if channelStatus != Ok {
          status := channelStatus;
        }
      }
    }

    /** VAL_PWM_StopChannel: zero one valid channel. */
    method StopChannel(channel: u8) returns (status: Status)
      requires Valid()
      modifies compare
      ensures Valid()
      ensures status == (if ValidChannel(channel) then Ok else Param)
      ensures compare[..] == if ValidChannel(channel)
                             then old(compare[..])[channel - 1 := 0]
                             else old(compare[..])
    {
      if channel < 1 || channel > PWM_CHANNEL_COUNT {
        return Param;
      }
      compare[channel - 1] := 0;
      status := Ok;
    }
  }
}
