/**
  The per-device metadata store the decoders write to (Android's
  BluetoothDevice getMetadata/setMetadata), reduced to a map from key to bytes:
  a missing key is Java's `null`, and a write may fail and report false.
 */
module Metadata {
  import opened Wrappers
  import opened Bytes

  /** The metadata keys the modelled decoders touch. */
  datatype Key =
    | ManufacturerName | ModelName | DeviceType
    | MainIcon | UntetheredLeftIcon | UntetheredRightIcon | UntetheredCaseIcon
    | MainLowBatteryThreshold | UntetheredLeftLowBatteryThreshold
    | UntetheredRightLowBatteryThreshold | UntetheredCaseLowBatteryThreshold
    | UntetheredLeftCharging | UntetheredRightCharging | UntetheredCaseCharging | MainCharging
    | UntetheredLeftBattery | UntetheredRightBattery | UntetheredCaseBattery

  type Store = map<Key, seq<Byte>>

  /** One `setMetadata` call: the key and the bytes it was asked to store. */
  type Write = (Key, seq<Byte>)

  /** `BluetoothDevice.DEVICE_TYPE_UNTETHERED_HEADSET.getBytes()` */
  const DEVICE_TYPE_UNTETHERED_HEADSET: seq<Byte> :=
    [85, 110, 116, 101, 116, 104, 101, 114, 101, 100, 32, 72, 101, 97, 100, 115, 101, 116]

  lemma DeviceTypeSpellsUntetheredHeadset()
    ensures DEVICE_TYPE_UNTETHERED_HEADSET == Ascii("Untethered Headset")
  {
    assert Spells(DEVICE_TYPE_UNTETHERED_HEADSET, "Untethered Headset");
    SpellsAscii(DEVICE_TYPE_UNTETHERED_HEADSET, "Untethered Headset");
  }

  /** `getMetadata(k)`: the stored bytes, or None for Java's null. */
  function Get(m: Store, k: Key): Option<seq<Byte>>
  {
    if k in m then Some(m[k]) else None
  }

  class Device {
    var metadata: Store
    /** Every `setMetadata` call made on this device, in order, whether the
        store accepted it or not. */
    ghost var attempts: seq<Write>

    constructor (initial: Store)
      ensures metadata == initial && attempts == []
    {
      metadata := initial;
      attempts := [];
    }

    /** `setMetadata(key, value)`: the call is logged; the store may refuse
        the write and report false, and a refused write leaves it as it was. */
    method SetMetadata(key: Key, value: seq<Byte>) returns (ok: bool)
      modifies this
      ensures attempts == old(attempts) + [(key, value)]
      ensures ok ==> metadata == old(metadata)[key := value]
      ensures !ok ==> metadata == old(metadata)
    {
      attempts := attempts + [(key, value)];
      ok :| true;
      if ok {
        metadata := metadata[key := value];
      }
    }
  }

  /** The decoders' write-once step: `getMetadata(key) == null ? setMetadata(key, value) : true`.
      The result says whether the key now holds a value. */
  method SetIfAbsent(device: Device, key: Key, value: seq<Byte>) returns (present: bool)
    modifies device
    ensures key in old(device.metadata) ==> device.metadata == old(device.metadata)
    ensures key !in old(device.metadata) ==>
      device.metadata == old(device.metadata) || device.metadata == old(device.metadata)[key := value]
    ensures present <==> key in device.metadata
    // the write is attempted exactly when the key is absent
    ensures device.attempts == old(device.attempts) + if key in old(device.metadata) then [] else [(key, value)]
  {
    if key !in device.metadata {
      present := device.SetMetadata(key, value);
    } else {
      present := true;
    }
  }

  /** The store after a series of `setMetadata` calls, where `oks[i]` says
      whether the i-th call was accepted. */
  function Applied(m: Store, writes: seq<Write>, oks: seq<bool>): (r: Store)
    requires |oks| == |writes|
    // no key is removed, and every changed or new key holds a value one of
    // the calls asked for
    ensures m.Keys <= r.Keys
    ensures forall k :: k in r ==> (k in m && r[k] == m[k]) || (k, r[k]) in writes
    // the last call, when accepted, is what its key holds
    ensures |writes| > 0 && oks[|oks| - 1] ==>
      writes[|writes| - 1].0 in r && r[writes[|writes| - 1].0] == writes[|writes| - 1].1
    // calls that were all refused leave the store as it was
    ensures (forall i :: 0 <= i < |oks| ==> !oks[i]) ==> r == m
    decreases |writes|
  {
    if writes == [] then m
    else
      var before := Applied(m, writes[..|writes| - 1], oks[..|oks| - 1]);
      var (key, value) := writes[|writes| - 1];
      if oks[|oks| - 1] then before[key := value] else before
  }

  /** A series of `setMetadata` calls on one device, in order; `oks` holds
      what each call returned. */
  method SetAllMetadata(device: Device, writes: seq<Write>) returns (oks: seq<bool>)
    modifies device
    ensures |oks| == |writes|
    ensures device.attempts == old(device.attempts) + writes
    ensures device.metadata == Applied(old(device.metadata), writes, oks)
  {
    oks := [];
    for i := 0 to |writes|
      invariant |oks| == i
      invariant device.attempts == old(device.attempts) + writes[..i]
      invariant device.metadata == Applied(old(device.metadata), writes[..i], oks)
    {
      var ok := device.SetMetadata(writes[i].0, writes[i].1);
      assert writes[..i + 1][..i] == writes[..i];
      assert (oks + [ok])[..i] == oks;
      oks := oks + [ok];
    }
    assert writes[..|writes|] == writes;
  }
}
