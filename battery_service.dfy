/**
  AirPodsBatteryService: the scan-result handler. It drops frames whose
  manufacturer data is not 27 bytes long, follows one advertising address
  at a time (the first seen, then any address at least as loud, or any
  address once the followed one has been silent for more than five
  seconds), and for each accepted frame has the model registry decode it,
  broadcasts the battery vendor event, syncs the device metadata and, when
  the decoder reported a status change, broadcasts the status update.
  Broadcasts are recorded in an event log; the clock is a parameter.
 */
module BatteryService {
  import opened Wrappers
  import opened Bytes
  import opened Metadata
  import opened Battery
  import opened AirPodsUtils
  import ProGen2
  import GenericModel

  /** DATA_LENGTH_BATTERY, and the frame length the handler accepts: two
      header bytes and the payload. */
  const DATA_LENGTH_BATTERY := 25
  const FRAME_LENGTH := 2 + DATA_LENGTH_BATTERY

  /** The RSSI a stopped scan leaves, and the initial one. */
  const RSSI_NONE := -128

  /** Silence, in milliseconds, after which a weaker address may take over. */
  const TAKEOVER_SILENCE_MS := 5000

  /** One scan result. `data` is the manufacturer-specific data, None when the
      result, its scan record or that data is null. */
  datatype ScanObservation = ScanObservation(data: Option<seq<Byte>>, address: string, rssi: int)

  /** The followed address (None is Java's null), its RSSI and when it last reported. */
  datatype Tracking = Tracking(address: Option<string>, rssi: int, lastReported: int)

  /** What the handler does with one result. */
  datatype Verdict = Dropped | Rejected | Accepted(next: Tracking)

  predicate ValidFrame(obs: ScanObservation)
  {
    obs.data.Some? && |obs.data.value| == FRAME_LENGTH
  }

  /** The address arbitration of `handleScanResult` for a valid frame. */
  function Arbitrate(t: Tracking, address: string, rssi: int, now: int): (v: Verdict)
    ensures v != Dropped
    ensures v.Accepted? ==> v.next.address == Some(address)
  {
    if t.address.None? then Accepted(Tracking(Some(address), rssi, now))
    else if t.address.value == address then Accepted(t.(lastReported := now))
    else if rssi >= t.rssi then Accepted(Tracking(Some(address), rssi, now))
    else if now - t.lastReported > TAKEOVER_SILENCE_MS then Accepted(Tracking(Some(address), rssi, now))
    else Rejected
  }

  /** `handleScanResult` up to the decode: drop, reject or accept. */
  function Consider(t: Tracking, obs: ScanObservation, now: int): (v: Verdict)
    ensures v == Dropped <==> !ValidFrame(obs)
  {
    if !ValidFrame(obs) then Dropped else Arbitrate(t, obs.address, obs.rssi, now)
  }

  /** With no address followed, the first valid frame is adopted with its RSSI and time. */
  lemma FirstFrameAdopted(t: Tracking, obs: ScanObservation, now: int)
    requires t.address.None? && ValidFrame(obs)
    ensures Consider(t, obs, now) == Accepted(Tracking(Some(obs.address), obs.rssi, now))
  {
  }

  /** A frame from the followed address is always accepted and only refreshes
      the time of its last report; its RSSI is not updated. */
  lemma SameAddressRefreshes(t: Tracking, obs: ScanObservation, now: int)
    requires ValidFrame(obs) && t.address == Some(obs.address)
    ensures Consider(t, obs, now) == Accepted(t.(lastReported := now))
  {
  }

  /** Another address takes over exactly when it is at least as loud or the
      followed one has been silent for more than five seconds; otherwise its
      frame is rejected. */
  lemma TakeoverRule(t: Tracking, obs: ScanObservation, now: int)
    requires ValidFrame(obs) && t.address.Some? && t.address.value != obs.address
    ensures Consider(t, obs, now).Accepted?
        <==> obs.rssi >= t.rssi || now - t.lastReported > TAKEOVER_SILENCE_MS
    ensures Consider(t, obs, now).Accepted? ==> Consider(t, obs, now).next == Tracking(Some(obs.address), obs.rssi, now)
  {
  }

  // ----- a sequence of results -----

  /** One timed result. */
  datatype Timed = Timed(obs: ScanObservation, now: int)

  /** The tracking after a verdict: kept unless accepted. */
  function Follow(t: Tracking, v: Verdict): Tracking
  {
    if v.Accepted? then v.next else t
  }

  /** The tracking after handling the results in order. */
  function Run(t: Tracking, results: seq<Timed>): (r: Tracking)
    // once an address is followed, or a valid frame has been seen, an address is followed
    ensures t.address.Some? ==> r.address.Some?
    ensures (exists i :: 0 <= i < |results| && ValidFrame(results[i].obs)) ==> r.address.Some?
  {
    if results == [] then t
    else var last := results[|results| - 1];
      Follow(Run(t, results[..|results| - 1]), Consider(Run(t, results[..|results| - 1]), last.obs, last.now))
  }

  function ValidOnly(results: seq<Timed>): (valid: seq<Timed>)
    ensures forall i :: 0 <= i < |valid| ==> ValidFrame(valid[i].obs)
  {
    if results == [] then []
    else var last := results[|results| - 1];
      ValidOnly(results[..|results| - 1]) + (if ValidFrame(last.obs) then [last] else [])
  }

  /** Dropped frames have no effect on the arbitration. */
  lemma {:induction false} DroppedFramesIgnored(t: Tracking, results: seq<Timed>)
    ensures Run(t, results) == Run(t, ValidOnly(results))
  {
    if results != [] {
      var init, last := results[..|results| - 1], results[|results| - 1];
      DroppedFramesIgnored(t, init);
      if ValidFrame(last.obs) {
        var v := ValidOnly(results);
        assert v == ValidOnly(init) + [last];
        assert v[..|v| - 1] == ValidOnly(init) && v[|v| - 1] == last;
      } else {
        assert ValidOnly(results) == ValidOnly(init);
      }
    }
  }

  /** The followed address is always the initial one or the sender of one of the results. */
  lemma {:induction false} FollowsASender(t: Tracking, results: seq<Timed>)
    ensures Run(t, results).address == t.address
         || exists i :: 0 <= i < |results| && Run(t, results).address == Some(results[i].obs.address)
  {
    if results != [] {
      var init := results[..|results| - 1];
      FollowsASender(t, init);
      var r := Run(t, init);
      if Run(t, results) != r {
        assert Run(t, results).address == Some(results[|results| - 1].obs.address);
      } else if r.address != t.address {
        var i :| 0 <= i < |init| && r.address == Some(init[i].obs.address);
        assert results[i] == init[i];
      }
    }
  }

  // ----- what an accepted frame reports -----

  /** The broadcasts the service sends. */
  datatype Broadcast =
    | VendorEvent(arguments: seq<int>)   // ACTION_VENDOR_SPECIFIC_HEADSET_EVENT, +IPHONEACCEV, Apple, SET
    | StatusChange(arguments: seq<int>)  // the battery-widget update wrapping that event

  /** The argument list the selected decoder reports after decoding the frame. */
  function ArgumentsFor(d: Decoder, data: seq<Byte>, other: OtherReply): (args: seq<int>)
    requires |data| >= 8
    ensures d.AirPodsProGen2? || d.Generic? ==> |args| == 3 && args[0] == 1 && -1 <= args[2] <= 9
  {
    match d
    case AirPodsProGen2 => BatteryArguments(ProGen2.Decode(data).batteryUnified)
    case Generic => BatteryArguments(GenericModel.DecodeLevels(data[5], data[6]).batteryUnified)
    case _ => other.arguments
  }

  /** Whether the selected decoder reports a status change after decoding the
      frame, from the AirPods Pro (2nd generation) decoder's state st. */
  function ChangeFor(d: Decoder, st: ProGen2.SyncState, data: seq<Byte>, other: OtherReply): (changed: bool)
    requires |data| >= 8
    ensures d.Generic? ==> !changed
  {
    match d
    case AirPodsProGen2 => ProGen2.Changed(st.(current := ProGen2.Decode(data)))
    case Generic => false
    case _ => other.changed
  }

  /** The AirPods Pro (2nd generation) decoder's state st after decoder d
      decoded the frame: only that decoder's own decode changes it. */
  function DecodedBy(d: Decoder, st: ProGen2.SyncState, data: seq<Byte>): (next: ProGen2.SyncState)
    requires |data| >= 8
    ensures d == AirPodsProGen2 ==> next.current == ProGen2.Decode(data)
    ensures next.(current := st.current) == st
  {
    if d == AirPodsProGen2 then st.(current := ProGen2.Decode(data)) else st
  }

  /** The broadcasts for one accepted frame: the vendor event, then the status
      update when a change was reported. */
  function BroadcastsFor(args: seq<int>, changed: bool): (b: seq<Broadcast>)
    ensures 1 <= |b| <= 2 && b[0] == VendorEvent(args)
    ensures StatusChange(args) in b <==> changed
  {
    [VendorEvent(args)] + (if changed then [StatusChange(args)] else [])
  }

  /** Once the AirPods Pro (2nd generation) decoder has synced a frame, the
      same frame again brings no status update, whatever the store held. */
  lemma RepeatedFrameNoStatusUpdate(st: ProGen2.SyncState, m: Store, data: seq<Byte>, other: OtherReply)
    requires |data| >= 8 && st.current == ProGen2.Decode(data)
    ensures !ChangeFor(AirPodsProGen2, ProGen2.AfterSync(st, m), data, other)
    ensures BroadcastsFor(ArgumentsFor(AirPodsProGen2, data, other), ChangeFor(AirPodsProGen2, ProGen2.AfterSync(st, m), data, other))
         == [VendorEvent(ArgumentsFor(AirPodsProGen2, data, other))]
  {
    ProGen2.SyncClearsChange(st, m, data, UntetheredLeftCharging);
  }

  /** The service: the scanner handle, the arbitration fields, the pending
      change flag, the current device and the registry it drives. */
  class AirPodsBatteryService {
    var scanning: bool
    var tracking: Tracking
    var isChanged: bool
    var currentDevice: Option<Device>
    var broadcasts: seq<Broadcast>
    const registry: ModelRegistry

    constructor (registry: ModelRegistry)
      ensures this.registry == registry
      ensures !scanning && tracking == Tracking(None, RSSI_NONE, 0) && !isChanged
      ensures currentDevice == None && broadcasts == []
    {
      this.registry := registry;
      scanning, isChanged := false, false;
      tracking := Tracking(None, RSSI_NONE, 0);
      currentDevice, broadcasts := None, [];
    }

    /** `startScan()`: without an adapter nothing changes; otherwise the scan
        runs exactly when the adapter has an LE scanner. */
    method StartScan(adapterPresent: bool, scannerPresent: bool)
      modifies this`scanning
      ensures scanning == if adapterPresent then scannerPresent else old(scanning)
    {
      if !adapterPresent {
        return;
      }
      scanning := scannerPresent;
    }

    /** `onStartCommand(intent)`: a device in the intent becomes the current
        device and the scan starts. */
    method OnStartCommand(device: Option<Device>, adapterPresent: bool, scannerPresent: bool)
      modifies this`currentDevice, this`scanning
      ensures device.None? ==> currentDevice == old(currentDevice) && scanning == old(scanning)
      ensures device.Some? ==>
        currentDevice == device && scanning == if adapterPresent then scannerPresent else old(scanning)
    {
      if device.Some? {
        currentDevice := device;
        StartScan(adapterPresent, scannerPresent);
      }
    }

    /** `stopScan()`: without a scanner nothing changes; otherwise the followed
        address and its RSSI are cleared and the time of its last report kept. */
    method StopScan()
      modifies this`scanning, this`tracking
      ensures !old(scanning) ==> scanning == old(scanning) && tracking == old(tracking)
      ensures old(scanning) ==> !scanning && tracking == old(tracking).(address := None, rssi := RSSI_NONE)
    {
      if !scanning {
        return;
      }
      scanning := false;
      tracking := tracking.(address := None, rssi := RSSI_NONE);
    }

    /** `handleScanResult(result)` at time `now`; `other` is what a decoder
        outside this model would report. */
    method HandleScanResult(obs: ScanObservation, now: int, other: OtherReply)
      requires currentDevice.Some?
      modifies this`tracking, this`isChanged, this`broadcasts
      modifies registry, registry.proGen2, registry.generic, currentDevice.value
      ensures tracking == Follow(old(tracking), Consider(old(tracking), obs, now))
      ensures Consider(old(tracking), obs, now).Accepted? ==> Reported(obs.data.value, other)
      // a dropped or rejected frame changes nothing but the arbitration
      ensures !Consider(old(tracking), obs, now).Accepted? ==>
        && unchanged(registry, registry.proGen2, registry.generic, currentDevice.value)
        && broadcasts == old(broadcasts) && isChanged == old(isChanged)
    {
      if obs.data.None? || |obs.data.value| != FRAME_LENGTH {
        return;
      }
      var data := obs.data.value;
      var accepted := FollowAddress(obs.address, obs.rssi, now);
      if !accepted {
        return;
      }
      Report(data, other);
    }

    /** The address arbitration of `handleScanResult`: adopt, refresh or take
        over the followed address, or reject the frame. */
    method FollowAddress(address: string, rssi: int, now: int) returns (accepted: bool)
      modifies this`tracking
      ensures accepted == Arbitrate(old(tracking), address, rssi, now).Accepted?
      ensures tracking == Follow(old(tracking), Arbitrate(old(tracking), address, rssi, now))
    {
      accepted := true;
      if tracking.address.None? {
        tracking := Tracking(Some(address), rssi, now);
      } else if tracking.address.value == address {
        tracking := tracking.(lastReported := now);
      } else {
        if rssi >= tracking.rssi {
          tracking := Tracking(Some(address), rssi, now);
        } else if now - tracking.lastReported > TAKEOVER_SILENCE_MS {
          tracking := Tracking(Some(address), rssi, now);
        } else {
          accepted := false;
        }
      }
    }

    /** What an accepted frame does: the registry holds its model code, the
        selected decoder has decoded it and synced the device's metadata, and
        the vendor event and any status update are broadcast. */
    twostate predicate Reported(data: seq<Byte>, other: OtherReply)
      requires |data| == FRAME_LENGTH && currentDevice.Some? && old(currentDevice) == currentDevice
      reads this, registry, registry.proGen2, registry.generic, currentDevice.value
    {
      var d := DecoderFor(ModelCode(data[3], data[4]));
      var device := currentDevice.value;
      && registry.model == Some(ModelCode(data[3], data[4]))
      && registry.modelPartial == Some(ModelPartial(data[3]))
      && registry.generic.levels
         == (if d == Generic then GenericModel.DecodeLevels(data[5], data[6]) else old(registry.generic.levels))
      && Synced(d, registry.proGen2.icons, other.writes,
                DecodedBy(d, old(registry.proGen2.State()), data), old(registry.generic.isModelLowBatteryThresholdSet),
                old(currentDevice.value.metadata), old(currentDevice.value.attempts),
                registry.proGen2.State(), registry.generic.isModelLowBatteryThresholdSet, device.metadata, device.attempts)
      && broadcasts == old(broadcasts)
         + BroadcastsFor(ArgumentsFor(d, data, other), ChangeFor(d, old(registry.proGen2.State()), data, other))
      && !isChanged
    }

    /** The part of `handleScanResult` after acceptance: set the model, decode,
        read the change flag and the arguments, then broadcast. */
    method Report(data: seq<Byte>, other: OtherReply)
      requires |data| == FRAME_LENGTH && currentDevice.Some?
      modifies this`isChanged, this`broadcasts
      modifies registry, registry.proGen2, registry.generic, currentDevice.value
      ensures Reported(data, other)
    {
      ghost var st := registry.proGen2.State();
      registry.SetModel(data);
      registry.SetModelData(data);
      assert registry.proGen2.State() == DecodedBy(registry.Selected(), st, data);
      isChanged := registry.IsModelStateChanged(other);
      var arguments := registry.GetModelArguments(other);
      assert arguments == ArgumentsFor(registry.Selected(), data, other);
      assert isChanged == ChangeFor(registry.Selected(), st, data, other);
      BroadcastVendorSpecificEvent(arguments, other);
    }

    /** `broadcastVendorSpecificEventIntent(...)`: the vendor event, the
        metadata sync, then the status update if a change is pending, which
        clears it. `other` carries the calls of a decoder outside this model. */
    method BroadcastVendorSpecificEvent(arguments: seq<int>, other: OtherReply)
      requires registry.model.Some? && currentDevice.Some?
      modifies this`isChanged, this`broadcasts
      modifies registry.proGen2, registry.generic`isModelLowBatteryThresholdSet, currentDevice.value
      ensures broadcasts == old(broadcasts) + BroadcastsFor(arguments, old(isChanged))
      ensures !isChanged
      ensures Synced(registry.Selected(), registry.proGen2.icons, other.writes,
                     old(registry.proGen2.State()), old(registry.generic.isModelLowBatteryThresholdSet),
                     old(currentDevice.value.metadata), old(currentDevice.value.attempts),
                     registry.proGen2.State(), registry.generic.isModelLowBatteryThresholdSet,
                     currentDevice.value.metadata, currentDevice.value.attempts)
    {
      broadcasts := broadcasts + [VendorEvent(arguments)];
      registry.SetModelMetaData(currentDevice.value, other);
      if isChanged {
        broadcasts := broadcasts + [StatusChange(arguments)];
        isChanged := false;
      }
    }

    /** `onBatchScanResults(results)`: each result in order, with its own time
        and the reply of a decoder outside this model. */
    method HandleBatchScanResults(results: seq<Timed>, others: seq<OtherReply>)
      requires currentDevice.Some? && |others| == |results|
      modifies this`tracking, this`isChanged, this`broadcasts
      modifies registry, registry.proGen2, registry.generic, currentDevice.value
      ensures tracking == Run(old(tracking), results)
      ensures |broadcasts| >= |old(broadcasts)| && broadcasts[..|old(broadcasts)|] == old(broadcasts)
    {
      for i := 0 to |results|
        invariant currentDevice == old(currentDevice)
        invariant tracking == Run(old(tracking), results[..i])
        invariant |broadcasts| >= |old(broadcasts)| && broadcasts[..|old(broadcasts)|] == old(broadcasts)
      {
        assert results[..i + 1][..i] == results[..i];
        HandleScanResult(results[i].obs, results[i].now, others[i]);
      }
      assert results[..|results|] == results;
    }
  }
}
