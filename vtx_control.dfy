/** Video-transmitter control: stepping band and channel from the sticks,
    switching channel from an RC range, and cycling band, channel and
    power. The `vtxCommon...` driver calls are foreign: a getter becomes an
    optional input and a setter the command the operation returns. */
module VtxControl {
  import opened Common

  /** What the driver is asked to do. */
  datatype VtxCommand =
    | SetBandAndChannel(band: byte, channel: byte)
    | SetPowerByIndex(index: byte)

  /** What `vtxCommonGetBandAndChannel` reports when it succeeds. */
  datatype BandAndChannel = BandAndChannel(band: byte, channel: byte)

  /** `vtxDeviceCapability_t`: how many bands, channels and power levels
      the device has. */
  datatype Capability = Capability(bandCount: byte, channelCount: byte, powerCount: byte)

  /** One of the `vtxChannelActivationConditions`: the band and channel to
      select, and whether `isRangeActive` reports its RC range as active
      at the time of the call. */
  datatype ChannelActivation = ChannelActivation(rangeActive: bool, band: byte, channel: byte)

  /** `value + step` passed on as a `uint8_t`: a byte step of 0xFF, the
      `-1` of the decrement wrappers, steps down by one modulo 256. */
  function Stepped(value: byte, step: byte): (r: byte)
    ensures step == 0 ==> r == value
    ensures step == 1 ==> r == if value == 0xFF then 0 else value + 1
    ensures step == 0xFF ==> r == if value == 0 then 0xFF else value - 1
  {
    ToByte(value + step)
  }

  /** Stepping up by one and then down by one (and the other way round)
      gives back the value: the increment and decrement wrappers undo one
      another. */
  lemma SteppedUndone(value: byte)
    ensures Stepped(Stepped(value, 1), 0xFF) == value
    ensures Stepped(Stepped(value, 0xFF), 1) == value
  {
    if value == 0xFF {
      assert Stepped(value, 1) == 0;
    } else {
      assert Stepped(value, 1) == value + 1;
    }
    if value == 0 {
      assert Stepped(value, 0xFF) == 0xFF;
    } else {
      assert Stepped(value, 0xFF) == value - 1;
    }
  }

  /** The band `vtxUpdateBandAndChannel` holds after asking the driver:
      the reported one, or the 0 it starts with when the getter fails. */
  function HeldBand(current: Option<BandAndChannel>): byte
  {
    if current.Some? then current.value.band else 0
  }

  /** The channel held after asking the driver, likewise. */
  function HeldChannel(current: Option<BandAndChannel>): byte
  {
    if current.Some? then current.value.channel else 0
  }

  /** The first index at or after `from` whose range is active and which
      differs from `lastIndex`. */
  function FirstActivated(conditions: seq<ChannelActivation>, lastIndex: byte, from: nat): (r: Option<nat>)
    requires |conditions| < 0x100
    ensures r.Some? ==>
      from <= r.value < |conditions| && conditions[r.value].rangeActive && r.value != lastIndex as nat
    ensures r.Some? ==> forall j :: from <= j < r.value ==>
      !conditions[j].rangeActive || j == lastIndex as nat
    ensures r.None? ==> forall j :: from <= j < |conditions| ==>
      !conditions[j].rangeActive || j == lastIndex as nat
    decreases |conditions| - from
  {
    if from >= |conditions| then None
    else if conditions[from].rangeActive && from != lastIndex as nat then Some(from)
    else FirstActivated(conditions, lastIndex, from + 1)
  }

  /** When exactly one condition is active, the first call after another
      index was recorded selects it and the next call selects nothing,
      so holding a switch does not resend the same channel. */
  lemma SoleActivationAppliedOnce(conditions: seq<ChannelActivation>, k: nat, lastIndex: byte)
    requires |conditions| < 0x100 && k < |conditions|
    requires forall j :: 0 <= j < |conditions| ==> (conditions[j].rangeActive <==> j == k)
    requires lastIndex as nat != k
    ensures FirstActivated(conditions, lastIndex, 0) == Some(k)
    ensures FirstActivated(conditions, k as byte, 0) == None
  {
    assert conditions[k].rangeActive;
  }

  /** The wrap rule `vtxCycleBandOrChannel` applies to the stepped band
      and to the stepped channel, both numbered from 1: past the last
      comes 1, before 1 comes the last. */
  function WrapFromOne(next: int, count: byte): (r: int)
    ensures count >= 1 ==> 1 <= r <= count
    ensures 1 <= next <= count ==> r == next
    ensures next > count ==> r == 1
    ensures next < 1 && count >= 1 ==> r == count
  {
    if next > count as int then 1
    else if next < 1 then count as int
    else next
  }

  /** `vtxCycleBandOrChannel`: when both getters succeed, the command
      that moves band and channel by the steps, wrapping each within its
      count; no command when either getter fails. */
  function CycleBandOrChannel(current: Option<BandAndChannel>, capability: Option<Capability>,
                              bandStep: byte, channelStep: byte): (r: Option<VtxCommand>)
    ensures r.None? <==> current.None? || capability.None?
    ensures r.Some? ==> r.value.SetBandAndChannel?
    ensures r.Some? && capability.value.bandCount >= 1 ==>
      1 <= r.value.band <= capability.value.bandCount
    ensures r.Some? && capability.value.channelCount >= 1 ==>
      1 <= r.value.channel <= capability.value.channelCount
  {
    if current.None? || capability.None? then None
    else
      var newChannel := WrapFromOne(current.value.channel + channelStep, capability.value.channelCount);
      var newBand := WrapFromOne(current.value.band + bandStep, capability.value.bandCount);
      Some(SetBandAndChannel(ToByte(newBand), ToByte(newChannel)))
  }

  /** The wrap rule `vtxCyclePower` applies to the stepped power index,
      numbered from 0: at or past the count comes 0. The `< 0` branch of
      the source is kept, though a sum of two unsigned bytes never takes
      it. */
  function WrapFromZero(next: int, count: byte): (r: int)
    ensures next >= 0 ==> 0 <= r
    ensures next >= 0 && count >= 1 ==> r < count
    ensures 0 <= next < count ==> r == next
    ensures next >= count ==> r == 0
  {
    if next >= count as int then 0
    else if next < 0 then count as int
    else next
  }

  /** `vtxCyclePower`: when both getters succeed, the command that moves
      the power index by the step, wrapping to 0 past the last level; no
      command when either getter fails. */
  function CyclePower(power: Option<byte>, capability: Option<Capability>, powerStep: byte): (r: Option<VtxCommand>)
    ensures r.None? <==> power.None? || capability.None?
    ensures r.Some? ==> r.value.SetPowerByIndex?
    ensures r.Some? && capability.value.powerCount >= 1 ==> r.value.index < capability.value.powerCount
  {
    if power.None? || capability.None? then None
    else
      var newPower := WrapFromZero(power.value + powerStep, capability.value.powerCount);
      Some(SetPowerByIndex(ToByte(newPower)))
  }

  /** `n` single steps up from `value` under the 1-based wrap rule. */
  function CycleUp(value: int, count: byte, n: nat): int
  {
    if n == 0 then value else WrapFromOne(CycleUp(value, count, n - 1) + 1, count)
  }

  /** Below the count, each step up adds one. */
  lemma {:induction false} CycleUpClimbs(value: int, count: byte, n: nat)
    requires 1 <= value && value + n <= count as int
    ensures CycleUp(value, count, n) == value + n
  {
    if n > 0 {
      CycleUpClimbs(value, count, n - 1);
    }
  }

  /** `a + b` steps are `a` steps followed by `b` steps. */
  lemma {:induction false} CycleUpSplits(value: int, count: byte, a: nat, b: nat)
    ensures CycleUp(value, count, a + b) == CycleUp(CycleUp(value, count, a), count, b)
  {
    if b > 0 {
      CycleUpSplits(value, count, a, b - 1);
      assert a + b - 1 == a + (b - 1);
    }
  }

  /** Stepping a band or channel up by one `count` times comes back to
      where it started: from `value` up to the last, round to 1, and up
      to `value` again, so the cycle visits every value once. */
  lemma CycleUpReturns(value: int, count: byte)
    requires count >= 1 && 1 <= value <= count as int
    ensures CycleUp(value, count, count as nat) == value
  {
    var up: nat := count as int - value;
    CycleUpClimbs(value, count, up);
    CycleUpSplits(value, count, up, 1);
    assert CycleUp(value, count, up + 1) == 1;
    CycleUpClimbs(1, count, value - 1);
    CycleUpSplits(value, count, up + 1, value - 1);
    assert up + 1 + (value - 1) == count as nat;
  }

  /** A power step up is a 1-based step up shifted down by one, so
      `CycleUpReturns` covers the power levels as well. */
  lemma PowerStepIsShiftedCycle(power: int, count: byte)
    requires 0 <= power < count as int
    ensures WrapFromZero(power + 1, count) == WrapFromOne(power + 2, count) - 1
  {
  }

  /** The statics of `vtx_control.c`: the `locked` latch and the
      `lastIndex` of `vtxUpdateActivatedChannel`. */
  class VtxController {
    /** `locked`: set once an update sees the craft armed, never cleared. */
    var locked: bool
    /** `lastIndex`: the condition index last applied; starts at
        `(uint8_t)-1`. */
    var lastIndex: byte

    constructor ()
      ensures !locked && lastIndex == 0xFF
    {
      locked := false;
      lastIndex := 0xFF;
    }

    /** `vtxUpdateBandAndChannel`: latches `locked` when armed; while
        unlocked, moves band and channel by the byte steps. A failed getter
        leaves the zeroes the locals start with. */
    method UpdateBandAndChannel(armed: bool, current: Option<BandAndChannel>, bandStep: byte, channelStep: byte)
      returns (command: Option<VtxCommand>)
      modifies this
      ensures locked == (old(locked) || armed)
      ensures lastIndex == old(lastIndex)
      ensures locked ==> command.None?
      ensures !locked ==> command == Some(SetBandAndChannel(
        Stepped(HeldBand(current), bandStep), Stepped(HeldChannel(current), channelStep)))
    {
      if armed {
        locked := true;
      }
      command := None;
      if !locked {
        var band: byte, channel: byte := 0, 0;
        if current.Some? {
          band, channel := current.value.band, current.value.channel;
        }
        command := Some(SetBandAndChannel(Stepped(band, bandStep), Stepped(channel, channelStep)));
      }
    }

    /** `vtxIncrementBand`. */
    method IncrementBand(armed: bool, current: Option<BandAndChannel>) returns (command: Option<VtxCommand>)
      modifies this
      ensures locked == (old(locked) || armed) && lastIndex == old(lastIndex)
      ensures locked ==> command.None?
      ensures !locked ==>
        command == Some(SetBandAndChannel(Stepped(HeldBand(current), 1), HeldChannel(current)))
    {
      command := UpdateBandAndChannel(armed, current, 1, 0);
    }

    /** `vtxDecrementBand`: the `-1` step arrives as the byte 0xFF. */
    method DecrementBand(armed: bool, current: Option<BandAndChannel>) returns (command: Option<VtxCommand>)
      modifies this
      ensures locked == (old(locked) || armed) && lastIndex == old(lastIndex)
      ensures locked ==> command.None?
      ensures !locked ==>
        command == Some(SetBandAndChannel(Stepped(HeldBand(current), 0xFF), HeldChannel(current)))
    {
      command := UpdateBandAndChannel(armed, current, 0xFF, 0);
    }

    /** `vtxIncrementChannel`. */
    method IncrementChannel(armed: bool, current: Option<BandAndChannel>) returns (command: Option<VtxCommand>)
      modifies this
      ensures locked == (old(locked) || armed) && lastIndex == old(lastIndex)
      ensures locked ==> command.None?
      ensures !locked ==>
        command == Some(SetBandAndChannel(HeldBand(current), Stepped(HeldChannel(current), 1)))
    {
      command := UpdateBandAndChannel(armed, current, 0, 1);
    }

    /** `vtxDecrementChannel`. */
    method DecrementChannel(armed: bool, current: Option<BandAndChannel>) returns (command: Option<VtxCommand>)
      modifies this
      ensures locked == (old(locked) || armed) && lastIndex == old(lastIndex)
      ensures locked ==> command.None?
      ensures !locked ==>
        command == Some(SetBandAndChannel(HeldBand(current), Stepped(HeldChannel(current), 0xFF)))
    {
      command := UpdateBandAndChannel(armed, current, 0, 0xFF);
    }

    /** `vtxUpdateActivatedChannel`: latches `locked` when armed; while
        unlocked, applies the first condition whose range is active and
        which was not applied last, and records its index. */
    method UpdateActivatedChannel(armed: bool, conditions: seq<ChannelActivation>)
      returns (command: Option<VtxCommand>)
      requires |conditions| < 0x100
      modifies this
      ensures locked == (old(locked) || armed)
      ensures locked ==> command.None? && lastIndex == old(lastIndex)
      ensures !locked ==> match FirstActivated(conditions, old(lastIndex), 0)
        case None => command.None? && lastIndex == old(lastIndex)
        case Some(k) =>
          lastIndex as nat == k
          && command == Some(SetBandAndChannel(conditions[k].band, conditions[k].channel))
    {
      if armed {
        locked := true;
      }
      command := None;
      if !locked {
        var index := 0;
        while index < |conditions|
          invariant index <= |conditions|
          invariant lastIndex == old(lastIndex) && command.None?
          invariant FirstActivated(conditions, lastIndex, 0) == FirstActivated(conditions, lastIndex, index)
        {
          var condition := conditions[index];
          if condition.rangeActive && index != lastIndex as nat {
            lastIndex := index as byte;
            command := Some(SetBandAndChannel(condition.band, condition.channel));
            break;
          }
          index := index + 1;
        }
      }
    }
  }
}
