/**
  The fallback decoder for models without a decoder of their own: it reads
  only the two earbud levels (the battery byte at offset 6, its nibbles in
  the order the reversed flag at offset 5 chooses), never reports a status
  change, and writes the main low-battery threshold once, when absent.
 */
module GenericModel {
  import opened Bytes
  import opened Metadata
  import opened Battery

  const FLAG_REVERSED := 0x80  // 1 << 7

  /** What one decode of a payload produces. */
  datatype Levels = Levels(rightLeft: bool, batteryLeft: nat, batteryRight: nat, batteryUnified: nat)

  /** `setModelData`, as a function of the flags and battery bytes. */
  function DecodeLevels(flags: Byte, battery: Byte): (s: Levels)
    ensures s.batteryLeft < 16 && s.batteryRight < 16
    // the two levels are the two nibbles of the battery byte, in an order
    // the reversed flag chooses; the unified level is the lower one
    ensures multiset{s.batteryLeft, s.batteryRight} == multiset{HighNibble(battery), LowNibble(battery)}
    ensures s.rightLeft == HasBit(flags, FLAG_REVERSED)
    ensures s.batteryLeft == if s.rightLeft then LowNibble(battery) else HighNibble(battery)
    ensures s.batteryUnified == Min(s.batteryLeft, s.batteryRight)
  {
    var rightLeft := HasBit(flags, FLAG_REVERSED);
    var batteryLeft := if !rightLeft then HighNibble(battery) else LowNibble(battery);
    var batteryRight := if !rightLeft then LowNibble(battery) else HighNibble(battery);
    Levels(rightLeft, batteryLeft, batteryRight, if batteryLeft <= batteryRight then batteryLeft else batteryRight)
  }

  /** Two flags bytes that differ in the reversed flag give the same levels
      with left and right exchanged, and the same unified level. */
  lemma ReversedFlagSwapsLevels(flags1: Byte, flags2: Byte, battery: Byte)
    requires HasBit(flags1, FLAG_REVERSED) != HasBit(flags2, FLAG_REVERSED)
    ensures DecodeLevels(flags2, battery).batteryLeft == DecodeLevels(flags1, battery).batteryRight
    ensures DecodeLevels(flags2, battery).batteryRight == DecodeLevels(flags1, battery).batteryLeft
    ensures DecodeLevels(flags2, battery).batteryUnified == DecodeLevels(flags1, battery).batteryUnified
  {
  }

  /** The `setMetadata` calls of one `setModelMetaData` against store m:
      the main threshold, while the flag is clear and the key absent. */
  function ThresholdAttempts(done: bool, m: Store): (log: seq<Write>)
    ensures log == [] || log == [(MainLowBatteryThreshold, LOW_BATTERY_THRESHOLD)]
    ensures log != [] <==> !done && MainLowBatteryThreshold !in m
  {
    if done || MainLowBatteryThreshold in m then [] else [(MainLowBatteryThreshold, LOW_BATTERY_THRESHOLD)]
  }

  /** The decoder: the static fields of Generic as one object. */
  class Generic {
    var levels: Levels
    var isModelLowBatteryThresholdSet: bool

    /** Java's static initial values: false and 0. */
    constructor ()
      ensures levels == Levels(false, 0, 0, 0) && !isModelLowBatteryThresholdSet
    {
      levels := Levels(false, 0, 0, 0);
      isModelLowBatteryThresholdSet := false;
    }

    /** `setModelData(data)`: bytes 5 and 6 only. */
    method SetModelData(data: seq<Byte>)
      requires |data| >= 7
      modifies this`levels
      ensures levels == DecodeLevels(data[5], data[6])
    {
      var flags, battery := data[5], data[6];
      var rightLeft := HasBit(flags, FLAG_REVERSED);
      var batteryLeft, batteryRight;
      if !rightLeft {
        batteryLeft := HighNibble(battery);
        batteryRight := LowNibble(battery);
      } else {
        batteryLeft := LowNibble(battery);
        batteryRight := HighNibble(battery);
      }
      levels := Levels(rightLeft, batteryLeft, batteryRight, Min(batteryLeft, batteryRight) as nat);
    }

    /** `isModelStateChanged()`: this decoder never reports a status change. */
    function IsModelStateChanged(): (changed: bool)
      ensures !changed
    {
      false
    }

    /** `getModelArguments()` */
    function GetModelArguments(): (args: seq<int>)
      reads this
      ensures args == BatteryArguments(levels.batteryUnified)
    {
      BatteryArguments(levels.batteryUnified)
    }

    /** `setModelMetaData(context, device)`: until it has succeeded once, write
        the main low-battery threshold if the store lacks it; the flag is set
        once the key is present. No other key is touched. */
    method SetModelMetaData(device: Device)
      modifies this`isModelLowBatteryThresholdSet, device
      ensures old(isModelLowBatteryThresholdSet) ==> device.metadata == old(device.metadata)
      ensures MainLowBatteryThreshold in old(device.metadata) ==> device.metadata == old(device.metadata)
      ensures device.metadata == old(device.metadata)
           || device.metadata == old(device.metadata)[MainLowBatteryThreshold := LOW_BATTERY_THRESHOLD]
      ensures isModelLowBatteryThresholdSet
          == (old(isModelLowBatteryThresholdSet) || MainLowBatteryThreshold in device.metadata)
      ensures device.attempts == old(device.attempts) + ThresholdAttempts(old(isModelLowBatteryThresholdSet), old(device.metadata))
    {
      if !isModelLowBatteryThresholdSet {
        var mainSet := SetIfAbsent(device, MainLowBatteryThreshold, LOW_BATTERY_THRESHOLD);
        isModelLowBatteryThresholdSet := mainSet;
      }
    }
  }
}
