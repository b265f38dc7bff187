/**
  Battery-level normalisation (AirPodsUtils.setBatteryLevel) and the two
  outward forms a level takes: the headset indicator argument list and the
  metadata battery text.
 */
module Battery {
  import opened Bytes

  /** BluetoothDevice.BATTERY_LEVEL_UNKNOWN */
  const BATTERY_LEVEL_UNKNOWN: int := -1

  /** BluetoothHeadset.VENDOR_SPECIFIC_HEADSET_EVENT_IPHONEACCEV_BATTERY_LEVEL */
  const IPHONEACCEV_BATTERY_LEVEL: int := 1

  /** A raw nibble of 15 means the bud or case is disconnected. */
  const NIBBLE_DISCONNECTED: int := 15

  /** `(""+20).getBytes()`, the low-battery threshold both decoders write:
      the ASCII bytes of "20". */
  const LOW_BATTERY_THRESHOLD: seq<Byte> := [50, 48]

  lemma LowBatteryThresholdReadsTwenty()
    ensures IntValue(Text(LOW_BATTERY_THRESHOLD)) == 20
    ensures LOW_BATTERY_THRESHOLD == IntBytes(20)
  {
    assert LOW_BATTERY_THRESHOLD == IntBytes(20);
    IntBytesRoundTrip(20);
  }

  function Min(a: int, b: int): int
  {
    if a <= b then a else b
  }

  /** `setBatteryLevel(battery, isArgument)`: 15 is unknown, values above 10
      are clamped to 10, the argument path lowers positive values by one,
      and anything negative is unknown. */
  function SetBatteryLevel(battery: int, isArgument: bool): (r: int)
    ensures r == BATTERY_LEVEL_UNKNOWN || 0 <= r <= 10
    ensures isArgument ==> r <= 9
    ensures battery == NIBBLE_DISCONNECTED || battery < 0 ==> r == BATTERY_LEVEL_UNKNOWN
  {
    if battery == NIBBLE_DISCONNECTED then BATTERY_LEVEL_UNKNOWN
    else
      var clamped := if battery > 10 then 10 else battery;
      var lowered := if isArgument && clamped > 0 then clamped - 1 else clamped;
      if lowered < 0 then BATTERY_LEVEL_UNKNOWN else lowered
  }

  /** On the metadata path a connected nibble reads as itself, capped at 10. */
  lemma MetadataPathLevel(b: int)
    requires 0 <= b < 15
    ensures SetBatteryLevel(b, false) == Min(b, 10)
  {
  }

  /** On the argument path a connected nibble reads one lower than on the
      metadata path, except that 0 stays 0. */
  lemma ArgumentPathLevel(b: int)
    requires 0 <= b < 15
    ensures SetBatteryLevel(b, true) == if b == 0 then 0 else SetBatteryLevel(b, false) - 1
  {
  }

  /** `[1, BATTERY_LEVEL, setBatteryLevel(unified, true)]`: one indicator,
      the battery level, on the 0..9 scale or unknown. */
  function BatteryArguments(unified: int): (args: seq<int>)
    ensures |args| == 3 && args[0] == 1 && args[1] == IPHONEACCEV_BATTERY_LEVEL
    ensures -1 <= args[2] <= 9
    ensures unified == NIBBLE_DISCONNECTED ==> args[2] == BATTERY_LEVEL_UNKNOWN
    ensures 0 <= unified < 15 ==> args[2] == if unified == 0 then 0 else Min(unified, 10) - 1
  {
    [1, IPHONEACCEV_BATTERY_LEVEL, SetBatteryLevel(unified, true)]
  }

  /** The metadata battery text: `("" + (t == -1 ? -1 : t * 10)).getBytes()`
      with t = setBatteryLevel(level, false). */
  function BatteryMetadata(level: int): (text: seq<Byte>)
    // the text reads back as -1 for an unknown level, else as ten times the level
    ensures var t := SetBatteryLevel(level, false);
      IntValue(Text(text)) == if t == BATTERY_LEVEL_UNKNOWN then BATTERY_LEVEL_UNKNOWN else 10 * t
  {
    var t := SetBatteryLevel(level, false);
    IntBytesRoundTrip(if t == BATTERY_LEVEL_UNKNOWN then BATTERY_LEVEL_UNKNOWN else t * 10);
    IntBytes(if t == BATTERY_LEVEL_UNKNOWN then BATTERY_LEVEL_UNKNOWN else t * 10)
  }

  /** The text reads back as a percentage in steps of ten, ten times the
      normalised level, or as -1 when that level is unknown (a disconnected
      bud or case among them). */
  lemma BatteryMetadataReads(level: int)
    ensures var v := IntValue(Text(BatteryMetadata(level)));
      && (v == BATTERY_LEVEL_UNKNOWN <==> SetBatteryLevel(level, false) == BATTERY_LEVEL_UNKNOWN)
      && (v != BATTERY_LEVEL_UNKNOWN ==> 0 <= v <= 100 && v % 10 == 0 && v == 10 * SetBatteryLevel(level, false))
    ensures level == NIBBLE_DISCONNECTED ==> IntValue(Text(BatteryMetadata(level))) == BATTERY_LEVEL_UNKNOWN
  {
    var t := SetBatteryLevel(level, false);
    IntBytesRoundTrip(if t == BATTERY_LEVEL_UNKNOWN then BATTERY_LEVEL_UNKNOWN else t * 10);
  }

  /** Comparing the cached text, as the decoder does, is comparing normalised levels. */
  lemma BatteryMetadataInjective(a: int, b: int)
    ensures BatteryMetadata(a) == BatteryMetadata(b) <==> SetBatteryLevel(a, false) == SetBatteryLevel(b, false)
  {
    var ta, tb := SetBatteryLevel(a, false), SetBatteryLevel(b, false);
    IntBytesInjective(if ta == -1 then -1 else ta * 10, if tb == -1 then -1 else tb * 10);
  }
}
