# AirPods battery helper, modelled in Dafny

This project models the decoding core of the Android "bthelper" service. The
service listens for Apple proximity-pairing advertisements. From each 27-byte
manufacturer-data frame it learns which AirPods model is sending and the
battery, charging and in-ear state of both earbuds and the case. It reports
the battery level as a vendor-specific headset event and keeps the
Bluetooth device's metadata up to date.

Modules (one file each):

- `Bytes` (`bytes.dfy`): the payload byte and its nibble and bit reads. It
  proves that Java's reads of a sign-extended byte agree with these reads. It
  also holds Java's `"" + n` and `String.getBytes()` on ASCII text, with their
  round trips.
- `Metadata` (`metadata.dfy`): the device metadata store as a map from key to
  bytes. A missing key is Java's `null`. `setMetadata` may refuse a write and
  return false. Each device keeps a ghost log of every `setMetadata` call
  made on it, in order. The module also has the decoders' write-once step,
  `getMetadata(k) == null ? setMetadata(k, v) : true`, and the replay of a
  series of calls (`SetAllMetadata`, specified by `Applied`).
- `Battery` (`battery.dfy`): `AirPodsUtils.setBatteryLevel`, the headset
  argument list, and the metadata battery text.
- `ProGen2` (`pro_gen2.dfy`): the AirPods Pro (2nd generation) decoder, as a
  class over the decoder's static fields.
  - The decode is specified by `Decode`.
  - Change detection works against the shadows of six status flags.
  - The metadata sync is specified by the write plan `Planned`, the relation
    `SyncApplied` (every key either keeps its value or receives its planned
    write, since any write may fail) and the next state `AfterSync`.
  - The calls one sync makes, in `setModelMetaData`'s order, are `SyncAttempts`.
- `GenericModel` (`generic.dfy`): the fallback decoder.
- `AirPodsUtils` (`airpods_utils.dfy`): the model code built from bytes 3 and
  4, the dispatch table, and the class `ModelRegistry` holding the
  dispatcher's static state.
- `BatteryService` (`battery_service.dfy`): the scan-result handler.
  - Frame gate and address arbitration (`Consider`, and `Run` over a batch).
  - Decode, vendor event, metadata sync and status broadcast, recorded as a
    log of `Broadcast`s.
  - The class `AirPodsBatteryService` holding the service's fields.

Source paths in the table are relative to the repository root.

## Model

| member | source | states |
|---|---|---|
| Bytes.JavaHighNibbleAgrees | android/bthelper/src/com/android/bluetooth/bthelper/models/AirPodsProGen2.java:82 | `(battery >> 4) & 0xf` on the sign-extended Java byte equals the unsigned high nibble |
| Bytes.JavaLowNibbleAgrees | android/bthelper/src/com/android/bluetooth/bthelper/models/AirPodsProGen2.java:83 | `battery & 0xf` on the sign-extended Java byte equals the unsigned low nibble |
| Bytes.JavaMasksAgree | android/bthelper/src/com/android/bluetooth/bthelper/models/AirPodsProGen2.java:79-97 | every single-bit mask test the decoders apply to a widened byte (bits 1, 3, 4, 5, 6, 7) agrees with the bit of the unsigned byte |
| Bytes.IntBytesRoundTrip | android/bthelper/src/com/android/bluetooth/bthelper/models/AirPodsProGen2.java:264 | `("" + i).getBytes()` reads back as i |
| Bytes.IntBytesInjective | android/bthelper/src/com/android/bluetooth/bthelper/models/AirPodsProGen2.java:264-265 | two ints give equal `("" + i).getBytes()` exactly when they are equal |
| Bytes.SpellsAscii | android/bthelper/src/com/android/bluetooth/bthelper/models/AirPodsProGen2.java:36-37 | a byte string whose every byte is the code of the matching character of an ASCII text is that text's `getBytes()` |
| Metadata.SetIfAbsent | android/bthelper/src/com/android/bluetooth/bthelper/models/AirPodsProGen2.java:143-148 | a present key is left alone and no write is attempted; for an absent key exactly one write is attempted, and it succeeds or leaves the key absent; the result says whether the key is now present |
| Metadata.Applied | android/bthelper/src/com/android/bluetooth/bthelper/AirPodsUtils.java:111-114 | the store after a series of calls that are each accepted or refused: no key is removed, every changed key holds a value one of the calls asked for, an accepted last call is what its key holds, and all-refused calls change nothing |
| Metadata.SetAllMetadata | android/bthelper/src/com/android/bluetooth/bthelper/AirPodsUtils.java:111-114 | a decoder outside the model's sync: the device receives exactly the given calls in order, and the store is Applied of the calls and what each returned |
| Metadata.Device.SetMetadata | android/bthelper/src/com/android/bluetooth/bthelper/models/AirPodsProGen2.java:144-145 | every call is logged in order; an accepted write stores the value under the key, a refused one leaves the store as it was |
| Metadata.DeviceTypeSpellsUntetheredHeadset | android/bthelper/src/com/android/bluetooth/bthelper/models/AirPodsProGen2.java:157 | the device-type value is `"Untethered Headset".getBytes()` |
| Battery.LowBatteryThresholdReadsTwenty | android/bthelper/src/com/android/bluetooth/bthelper/models/AirPodsProGen2.java:34 | the threshold constant is `(""+20).getBytes()` and reads back as 20 |
| Battery.SetBatteryLevel | android/bthelper/src/com/android/bluetooth/bthelper/AirPodsUtils.java:146-161 | the result is -1 or in 0..10, at most 9 on the argument path, and -1 for 15 or any negative input |
| Battery.MetadataPathLevel | android/bthelper/src/com/android/bluetooth/bthelper/AirPodsUtils.java:146-151 | without the argument flag, a connected nibble b reads as min(b, 10) |
| Battery.ArgumentPathLevel | android/bthelper/src/com/android/bluetooth/bthelper/AirPodsUtils.java:152-156 | on the argument path a connected nibble reads one lower than on the metadata path, except that 0 stays 0 |
| Battery.BatteryArguments | android/bthelper/src/com/android/bluetooth/bthelper/models/AirPodsProGen2.java:128-136 | the list is [1, battery-level indicator, level]; the level is in -1..9, -1 for a disconnected nibble, and min(n, 10) - 1 (0 for 0) for a connected one |
| Battery.BatteryMetadata | android/bthelper/src/com/android/bluetooth/bthelper/models/AirPodsProGen2.java:263-264 | the battery text reads back as -1 for an unknown level and otherwise as ten times the normalised level |
| Battery.BatteryMetadataReads | android/bthelper/src/com/android/bluetooth/bthelper/models/AirPodsProGen2.java:263-264 | the battery text reads as -1 exactly when the level is unknown (a disconnected part among those cases); otherwise it reads as a multiple of ten in 0..100, ten times the level |
| Battery.BatteryMetadataInjective | android/bthelper/src/com/android/bluetooth/bthelper/models/AirPodsProGen2.java:263-265 | `Arrays.equals` on two battery texts is equality of the normalised levels |
| ProGen2.ManufacturerNameText | android/bthelper/src/com/android/bluetooth/bthelper/models/AirPodsProGen2.java:36 | the manufacturer value is `"Apple Inc.".getBytes()` |
| ProGen2.ModelNameText | android/bthelper/src/com/android/bluetooth/bthelper/models/AirPodsProGen2.java:37 | the model-name value is `"AirPods Pro".getBytes()` |
| ProGen2.BooleanTexts | android/bthelper/src/com/android/bluetooth/bthelper/models/AirPodsProGen2.java:66-67 | the charging values are `"true".getBytes()` and `"false".getBytes()` |
| ProGen2.Decode | android/bthelper/src/com/android/bluetooth/bthelper/models/AirPodsProGen2.java:74-113 | bit 7 of byte 5 is the reversed flag; the case level is the low nibble of byte 7 and case charging its bit 6; the unified level is the lower earbud level; main charging iff both earbuds charge |
| ProGen2.DecodeLayout | android/bthelper/src/com/android/bluetooth/bthelper/models/AirPodsProGen2.java:74-113 | the whole decode in closed form: unreversed, left is the high nibble of byte 6, charging bit 0x20 of byte 7 and in-ear bit 0x02 of byte 5, right the low nibble, 0x10 and 0x08; reversed, each left/right pair is exchanged |
| ProGen2.DecodeStatus | android/bthelper/src/com/android/bluetooth/bthelper/models/AirPodsProGen2.java:74-113 | the earbud levels are the two nibbles of byte 6, in the order bit 7 of byte 5 chooses; the unified level is their minimum; main charging holds iff both earbuds charge; the two earbud charging flags are the left and right charging bits of byte 7 |
| ProGen2.ReversalSwapsChannels | android/bthelper/src/com/android/bluetooth/bthelper/models/AirPodsProGen2.java:79-97 | toggling the reversed flag swaps every left/right output and leaves case, main-charging and unified values unchanged |
| ProGen2.MirroredDecodesAlike | android/bthelper/src/com/android/bluetooth/bthelper/models/AirPodsProGen2.java:79-112 | a frame sent with its channels reversed (flag toggled, nibbles, charging bits and in-ear bits exchanged) decodes to the same levels, charging and in-ear state; only the reversed flag differs |
| ProGen2.DecodeReadsFlagsBatteryCharging | android/bthelper/src/com/android/bluetooth/bthelper/models/AirPodsProGen2.java:75-77 | the decode depends on bytes 5, 6 and 7 only |
| ProGen2.NothingPlannedIffSettled | android/bthelper/src/com/android/bluetooth/bthelper/models/AirPodsProGen2.java:255-304 | the status half writes nothing exactly when no charging flag moved and each battery text equals the one last written |
| ProGen2.Planned | android/bthelper/src/com/android/bluetooth/bthelper/models/AirPodsProGen2.java:139-253 | a write-once key is attempted exactly while its group is not done and the key is absent, and then with its fixed value |
| ProGen2.AfterSync | android/bthelper/src/com/android/bluetooth/bthelper/models/AirPodsProGen2.java:138-306 | after a sync the decode is kept and no change is pending; a group is done iff it was done or all its keys are present |
| ProGen2.SyncAttemptsArePlanned | android/bthelper/src/com/android/bluetooth/bthelper/models/AirPodsProGen2.java:138-306 | the `setMetadata` calls of one sync are exactly its planned writes: (k, v) is attempted iff v is the write planned on k |
| ProGen2.InFillAttempts | android/bthelper/src/com/android/bluetooth/bthelper/models/AirPodsProGen2.java:139-253 | a write-once group attempts (k, v) iff k is one of its keys and v is its value, while the group is not done and k is absent |
| ProGen2.InStatusAttempts | android/bthelper/src/com/android/bluetooth/bthelper/models/AirPodsProGen2.java:255-304 | the status half attempts (k, v) iff v is the write its plan holds for k |
| ProGen2.FirstDecodeChange | android/bthelper/src/com/android/bluetooth/bthelper/models/AirPodsProGen2.java:115-126 | from the initial state (all flags and shadows false, as declared at lines 48-66), the first decode reports a change exactly when a charging bit of byte 7 or an in-ear bit of byte 5 is set |
| ProGen2.SyncClearsChange | android/bthelper/src/com/android/bluetooth/bthelper/models/AirPodsProGen2.java:255-304 | after a sync, decoding the same frame again reports no change and plans no status write |
| ProGen2.NeverOverwritesWriteOnceKeys | android/bthelper/src/com/android/bluetooth/bthelper/models/AirPodsProGen2.java:139-253 | an identity, icon or threshold key already present is never written |
| ProGen2.WritesAbsentWriteOnceKeys | android/bthelper/src/com/android/bluetooth/bthelper/models/AirPodsProGen2.java:139-253 | while its group is not done, a write-once key is written with its fixed value exactly when it is absent |
| ProGen2.BatteryWrittenIffLevelChanged | android/bthelper/src/com/android/bluetooth/bthelper/models/AirPodsProGen2.java:263-298 | each of the left, right and case battery keys receives the text of its own level; it is written on the first sync and afterwards exactly when the normalised level differs from the one last written |
| ProGen2.ChargingWrittenOnTransition | android/bthelper/src/com/android/bluetooth/bthelper/models/AirPodsProGen2.java:258-304 | each of the four charging keys (left, right, case, main) is written exactly on a transition of its own flag, with "true" or "false" as the new flag says |
| ProGen2.ResyncWritesNothing | android/bthelper/src/com/android/bluetooth/bthelper/models/AirPodsProGen2.java:138-306 | once all write-once keys are present, a second sync of the same decoded state plans no write, whatever the store holds |
| ProGen2.FillStep | android/bthelper/src/com/android/bluetooth/bthelper/models/AirPodsProGen2.java:143-148 | one write-once step keeps "only absent keys of this group were filled, with their values" |
| ProGen2.StatusStep | android/bthelper/src/com/android/bluetooth/bthelper/models/AirPodsProGen2.java:258-262 | one attempted planned write keeps "only planned status writes were applied" |
| ProGen2.AgreeOnGroup | android/bthelper/src/com/android/bluetooth/bthelper/models/AirPodsProGen2.java:139-253 | whether a group is complete, and which of its keys a sync attempts, depend only on that group's own keys |
| ProGen2.FillKeepsGroup | android/bthelper/src/com/android/bluetooth/bthelper/models/AirPodsProGen2.java:139-253 | filling one write-once group leaves the keys of every other group as they were |
| ProGen2.StatusKeepsGroup | android/bthelper/src/com/android/bluetooth/bthelper/models/AirPodsProGen2.java:255-304 | the status writes leave every write-once key as it was |
| ProGen2.OnceSteps | android/bthelper/src/com/android/bluetooth/bthelper/models/AirPodsProGen2.java:139-253 | the identity, icon and threshold steps together fill only absent keys of groups not yet done |
| ProGen2.SyncSteps | android/bthelper/src/com/android/bluetooth/bthelper/models/AirPodsProGen2.java:138-306 | the write-once steps followed by the status steps change the store only by planned writes |
| ProGen2.StepsReachAfterSync | android/bthelper/src/com/android/bluetooth/bthelper/models/AirPodsProGen2.java:138-306 | the flags and caches the steps leave are the next state AfterSync: shadows and caches follow the decode, and a group is done once all its keys are present |
| ProGen2.AirPodsProGen2.constructor | android/bthelper/src/com/android/bluetooth/bthelper/models/AirPodsProGen2.java:48-66 | Java's static defaults: flags false, levels 0, caches null |
| ProGen2.AirPodsProGen2.SetModelData | android/bthelper/src/com/android/bluetooth/bthelper/models/AirPodsProGen2.java:74-113 | the decoded fields become Decode(data); nothing else changes |
| ProGen2.AirPodsProGen2.IsModelStateChanged | android/bthelper/src/com/android/bluetooth/bthelper/models/AirPodsProGen2.java:115-126 | true iff one of the six status flags differs from its shadow |
| ProGen2.AirPodsProGen2.GetModelArguments | android/bthelper/src/com/android/bluetooth/bthelper/models/AirPodsProGen2.java:128-136 | the argument list of the unified level |
| ProGen2.AirPodsProGen2.SetModelMetaData | android/bthelper/src/com/android/bluetooth/bthelper/models/AirPodsProGen2.java:138-306 | the device receives exactly the `setMetadata` calls SyncAttempts lists, in Java's order; the store changes only by those writes, each of which may fail; shadows, caches and done flags move to AfterSync |
| ProGen2.SyncDevice | android/bthelper/src/com/android/bluetooth/bthelper/models/AirPodsProGen2.java:138-306 | the same three facts on the decoder's state as a value: the calls in order, the store change, and the next state |
| ProGen2.AirPodsProGen2.Commit | android/bthelper/src/com/android/bluetooth/bthelper/models/AirPodsProGen2.java:256-303 | the decoder's fields become the given next state |
| ProGen2.SyncIdentity | android/bthelper/src/com/android/bluetooth/bthelper/models/AirPodsProGen2.java:139-164 | with the flag clear, the absent manufacturer, model-name and device-type keys are written in that order, each present key skipped; the flag becomes "all three present"; with the flag set nothing is attempted |
| ProGen2.SyncIcons | android/bthelper/src/com/android/bluetooth/bthelper/models/AirPodsProGen2.java:166-214 | the same for the four icon keys, in the order main, left, right, case |
| ProGen2.SyncThresholds | android/bthelper/src/com/android/bluetooth/bthelper/models/AirPodsProGen2.java:216-253 | the same for the four low-battery threshold keys, all "20" |
| ProGen2.FillKey | android/bthelper/src/com/android/bluetooth/bthelper/models/AirPodsProGen2.java:143-148 | one write-once key: a write is attempted iff the key is absent, at most that key changes, with its group value, and the result says whether it is present |
| ProGen2.SyncStatus | android/bthelper/src/com/android/bluetooth/bthelper/models/AirPodsProGen2.java:255-304 | the status half makes exactly the planned status calls, in the order left charging, left battery, right charging, right battery, case charging, case battery, main charging; only those values are stored; the new caches are the texts of the current levels |
| ProGen2.SyncEarbuds | android/bthelper/src/com/android/bluetooth/bthelper/models/AirPodsProGen2.java:255-285 | the left and then the right earbud's planned calls, in order; both caches take the current texts |
| ProGen2.SyncCaseAndMain | android/bthelper/src/com/android/bluetooth/bthelper/models/AirPodsProGen2.java:287-304 | the case's planned calls, then main charging on a transition |
| ProGen2.SyncPart | android/bthelper/src/com/android/bluetooth/bthelper/models/AirPodsProGen2.java:258-269 | one part makes its charging call on a transition and then its battery call on a changed text, and no other; the cache takes the new text |
| ProGen2.WriteOnChange | android/bthelper/src/com/android/bluetooth/bthelper/models/AirPodsProGen2.java:258-262 | one call exactly when there is a change; without one the store is untouched, with one the key is written or the write fails |
| GenericModel.DecodeLevels | android/bthelper/src/com/android/bluetooth/bthelper/models/Generic.java:43-64 | the earbud levels are the two nibbles of byte 6, in the order bit 7 of byte 5 chooses; the unified level is their minimum |
| GenericModel.ReversedFlagSwapsLevels | android/bthelper/src/com/android/bluetooth/bthelper/models/Generic.java:47-55 | flipping the reversed flag exchanges left and right and keeps the unified level |
| GenericModel.ThresholdAttempts | android/bthelper/src/com/android/bluetooth/bthelper/models/Generic.java:80-92 | the sync attempts one write, of "20" to the main threshold, exactly when its flag is clear and the key absent |
| GenericModel.Generic.constructor | android/bthelper/src/com/android/bluetooth/bthelper/models/Generic.java:38-41 | Java's static defaults |
| GenericModel.Generic.SetModelData | android/bthelper/src/com/android/bluetooth/bthelper/models/Generic.java:43-64 | the levels become DecodeLevels of bytes 5 and 6 |
| GenericModel.Generic.IsModelStateChanged | android/bthelper/src/com/android/bluetooth/bthelper/models/Generic.java:66-68 | never reports a change |
| GenericModel.Generic.GetModelArguments | android/bthelper/src/com/android/bluetooth/bthelper/models/Generic.java:70-78 | the argument list of the unified level |
| GenericModel.Generic.SetModelMetaData | android/bthelper/src/com/android/bluetooth/bthelper/models/Generic.java:80-92 | the device receives the calls ThresholdAttempts lists; once done, or with the key present, the store is untouched; otherwise only the main threshold is written, with "20"; the flag becomes "key present" |
| AirPodsUtils.NibbleText | android/bthelper/src/com/android/bluetooth/bthelper/AirPodsUtils.java:61 | `"" + n` of a nibble is one digit below 10, otherwise '1' followed by a digit |
| AirPodsUtils.ModelCode | android/bthelper/src/com/android/bluetooth/bthelper/AirPodsUtils.java:61 | the model code is four nibble texts, 4 to 8 characters long |
| AirPodsUtils.ModelPartial | android/bthelper/src/com/android/bluetooth/bthelper/AirPodsUtils.java:62 | the partial code reads back as the low nibble of byte 3 |
| AirPodsUtils.KnownCodesFromBytes | android/bthelper/src/com/android/bluetooth/bthelper/AirPodsUtils.java:70-82 | each of the five known codes comes from exactly one byte pair: 0x02 0x20, 0x0F 0x20, 0x13 0x20, 0x0E 0x20, 0x14 0x20 |
| AirPodsUtils.DispatchByBytes | android/bthelper/src/com/android/bluetooth/bthelper/AirPodsUtils.java:70-82 | each known decoder is chosen for exactly its byte pair, and the generic decoder for every other pair |
| AirPodsUtils.CodeIsAmbiguous | android/bthelper/src/com/android/bluetooth/bthelper/AirPodsUtils.java:61 | the code does not determine the bytes in general: 0xB1 0x11 and 0x1B 0x11 both give "11111" |
| AirPodsUtils.DecoderFor | android/bthelper/src/com/android/bluetooth/bthelper/AirPodsUtils.java:70-82 | a known decoder is chosen only by its own code, and the generic one exactly for codes outside the five known |
| AirPodsUtils.DispatchRoundTrip | android/bthelper/src/com/android/bluetooth/bthelper/AirPodsUtils.java:70-82 | each known decoder's code selects that decoder |
| AirPodsUtils.ModelRegistry.constructor | android/bthelper/src/com/android/bluetooth/bthelper/AirPodsUtils.java:35-36 | model and partial code start as null |
| AirPodsUtils.ModelRegistry.SetModel | android/bthelper/src/com/android/bluetooth/bthelper/AirPodsUtils.java:60-64 | model and partial code are those of bytes 3 and 4 |
| AirPodsUtils.ModelRegistry.SetModelData | android/bthelper/src/com/android/bluetooth/bthelper/AirPodsUtils.java:66-84 | only the selected decoder decodes the frame; the other modelled decoder is untouched |
| AirPodsUtils.ModelRegistry.IsModelStateChanged | android/bthelper/src/com/android/bluetooth/bthelper/AirPodsUtils.java:126-144 | the selected decoder's answer; false in the default branch |
| AirPodsUtils.ModelRegistry.GetModelArguments | android/bthelper/src/com/android/bluetooth/bthelper/AirPodsUtils.java:86-104 | the selected decoder's argument list |
| AirPodsUtils.ModelRegistry.SetModelMetaData | android/bthelper/src/com/android/bluetooth/bthelper/AirPodsUtils.java:106-124 | Synced: with the AirPods Pro (2nd generation) decoder selected, the device receives its SyncAttempts, the store changes by SyncApplied and the state moves to AfterSync; with the generic one, its threshold calls and flag rule; with one of the other four decoders, the device receives exactly the calls the caller lists for it, in order, the store is what those calls leave when each is accepted or refused, and both modelled decoders are unchanged |
| BatteryService.Arbitrate | android/bthelper/src/com/android/bluetooth/bthelper/AirPodsBatteryService.java:177-198 | arbitration never drops a frame, and an accepted frame's address becomes the followed one |
| BatteryService.Consider | android/bthelper/src/com/android/bluetooth/bthelper/AirPodsBatteryService.java:158-171 | a result is dropped exactly when its manufacturer data is missing or not 27 bytes long |
| BatteryService.FirstFrameAdopted | android/bthelper/src/com/android/bluetooth/bthelper/AirPodsBatteryService.java:177-181 | with no followed address, the frame's address, RSSI and time are adopted |
| BatteryService.SameAddressRefreshes | android/bthelper/src/com/android/bluetooth/bthelper/AirPodsBatteryService.java:182-183 | a frame from the followed address is accepted and only refreshes the last-report time |
| BatteryService.TakeoverRule | android/bthelper/src/com/android/bluetooth/bthelper/AirPodsBatteryService.java:184-197 | another address takes over iff its RSSI is at least the followed one's or more than 5000 ms passed since the last report; otherwise its frame is rejected |
| BatteryService.DroppedFramesIgnored | android/bthelper/src/com/android/bluetooth/bthelper/AirPodsBatteryService.java:67-71 | over a batch, frames of the wrong length have no effect on the arbitration |
| BatteryService.FollowsASender | android/bthelper/src/com/android/bluetooth/bthelper/AirPodsBatteryService.java:67-71 | after a batch, the followed address is the initial one or a sender in the batch |
| BatteryService.Run | android/bthelper/src/com/android/bluetooth/bthelper/AirPodsBatteryService.java:67-71 | once an address is followed, or once a valid frame has been seen, an address is followed after the batch |
| BatteryService.ArgumentsFor | android/bthelper/src/com/android/bluetooth/bthelper/AirPodsBatteryService.java:206 | for the modelled decoders, the arguments are a three-element battery list with a level in -1..9 |
| BatteryService.ChangeFor | android/bthelper/src/com/android/bluetooth/bthelper/AirPodsBatteryService.java:204 | the generic decoder never reports a change |
| BatteryService.DecodedBy | android/bthelper/src/com/android/bluetooth/bthelper/AirPodsBatteryService.java:202 | only the AirPods Pro (2nd generation) decoder's own decode changes its state, and only its decoded fields |
| BatteryService.BroadcastsFor | android/bthelper/src/com/android/bluetooth/bthelper/AirPodsBatteryService.java:200-239 | the vendor event comes first, and the status update follows exactly when a change was reported |
| BatteryService.RepeatedFrameNoStatusUpdate | android/bthelper/src/com/android/bluetooth/bthelper/AirPodsBatteryService.java:200-239 | once the AirPods Pro (2nd generation) decoder has synced a frame, the same frame again sends only the vendor event |
| BatteryService.AirPodsBatteryService.constructor | android/bthelper/src/com/android/bluetooth/bthelper/AirPodsBatteryService.java:57-63 | no followed address, RSSI -128, time 0, no pending change |
| BatteryService.AirPodsBatteryService.StartScan | android/bthelper/src/com/android/bluetooth/bthelper/AirPodsBatteryService.java:111-145 | without an adapter nothing changes; otherwise scanning iff there is an LE scanner |
| BatteryService.AirPodsBatteryService.OnStartCommand | android/bthelper/src/com/android/bluetooth/bthelper/AirPodsBatteryService.java:98-109 | a device in the intent becomes current and scanning starts; without one nothing changes |
| BatteryService.AirPodsBatteryService.StopScan | android/bthelper/src/com/android/bluetooth/bthelper/AirPodsBatteryService.java:147-156 | without a scanner nothing changes; otherwise address null and RSSI -128, the last-report time kept |
| BatteryService.AirPodsBatteryService.HandleScanResult | android/bthelper/src/com/android/bluetooth/bthelper/AirPodsBatteryService.java:158-214 | the tracking follows Consider; a dropped or rejected frame changes nothing else (registry, decoders, device, broadcasts, pending flag); an accepted one has the effect Reported states |
| BatteryService.AirPodsBatteryService.FollowAddress | android/bthelper/src/com/android/bluetooth/bthelper/AirPodsBatteryService.java:177-198 | the followed address, RSSI and time follow Arbitrate, and the frame is accepted exactly when Arbitrate accepts it |
| BatteryService.AirPodsBatteryService.Report | android/bthelper/src/com/android/bluetooth/bthelper/AirPodsBatteryService.java:200-213 | Reported: the registry holds the frame's model code and partial; the selected decoder has decoded the frame and then synced the device as Synced states; the vendor event and, iff the decoder reported a change, the status update are appended; no change is pending |
| BatteryService.AirPodsBatteryService.BroadcastVendorSpecificEvent | android/bthelper/src/com/android/bluetooth/bthelper/AirPodsBatteryService.java:216-240 | the vendor event, the metadata sync as Synced states for the selected decoder (for a decoder outside the model, the calls the caller lists for it), then the status update iff a change was pending, which is cleared |
| BatteryService.AirPodsBatteryService.HandleBatchScanResults | android/bthelper/src/com/android/bluetooth/bthelper/AirPodsBatteryService.java:66-71 | after a batch the tracking is Run over the batch in order; earlier broadcasts are kept |

## Left out

- The four other decoders (AirPods, AirPods 2nd and 3rd generation, AirPods Pro) are not part of this model. The caller supplies their change flag and argument list as an `OtherReply`. The caller also supplies the `setMetadata` calls their sync makes, which the dispatcher replays on the device in order; which calls those decoders make, and their decode, are not modelled.
- The service lifecycle (`onCreate`, `onBind`, `onDestroy`) and the construction of the scan filter and scan settings are left out. `startScan` keeps only the adapter-present and scanner-present branches.
- Intents are reduced to a log of `Broadcast` values holding the argument list. The fixed command, company id, command type, extras, category, permissions and the status intent's action and package are left out.
- `SystemClock.elapsedRealtime()` is the parameter `now`. Java's 64-bit `now - lastReported` is exact integer arithmetic here, because it cannot overflow for real clock values.
- Logging is left out.
- The `contains(null)` check on the manufacturer data is left out, since a Java `byte[]` never contains null.
- `resToUri` is left out. The four icon URIs are an opaque constant `Icons` given to the decoder's constructor, so recomputing them on every unfinished sync is not modelled.
- The commented-out `modelPartial` switch and the commented-out Beats and Powerbeats codes are left out. `modelPartial` is still computed.
- Concurrency is left out. Scan callbacks are taken to run one at a time.
- `getModelArguments` returns `Object[]`, modelled as `seq<int>`.
- BatteryService.AirPodsBatteryService.HandleScanResult: requires a current device. In Java a broadcast with a null device throws in `device.getName()`, and that path is not modelled.
- AirPodsUtils.ModelRegistry.SetModelData: requires a model code to be set. A Java `switch` on a null string throws, and the handler always calls `setModel` first.
- ProGen2.AirPodsProGen2.SetModelMetaData: the metadata store is a map over the 18 keys these decoders touch. Every other key of the real store is outside the model.
- Metadata.Device.SetMetadata: whether a write succeeds is nondeterministic, and the model does not say why Android refuses one. Every call is recorded in the ghost log `attempts`, so the calls a sync makes, and their order, are stated exactly even where the store's response is not.

## Behaviours of the code that are easy to misread

- `stopScan` keeps the last-report time.
- The handler checks only the frame length; the header bytes are matched by the scan filter alone.
- The unified level is the minimum of the raw nibbles, so a disconnected bud (15) never lowers it.
- The first decode of a frame with every charging and in-ear bit clear reports no change, because the flags and their shadows all start false (`ProGen2.FirstDecodeChange`). No status update is broadcast for it, although the sync in the same handler call still writes its battery texts, since none is cached yet.
