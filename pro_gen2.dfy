/**
  The AirPods Pro (2nd generation) decoder: a bit-exact read of the flags,
  battery and charging bytes (offsets 5, 6, 7), change detection against the
  previous values of six status flags, and the metadata sync that writes
  charging and battery values on change and identity, icon and threshold
  values once, when absent.
 */
module ProGen2 {
  import opened Wrappers
  import opened Bytes
  import opened Metadata
  import opened Battery

  const FLAG_REVERSED := 0x80        // 1 << 7
  const MASK_CHARGING_LEFT := 0x20   // 1 << 5
  const MASK_CHARGING_RIGHT := 0x10  // 1 << 4
  const MASK_CHARGING_CASE := 0x40   // 1 << 6
  const MASK_USING_LEFT := 0x08      // 1 << 3
  const MASK_USING_RIGHT := 0x02     // 1 << 1

  // The fixed texts the sync writes, as `getBytes()` gives them.
  const MANUFACTURER_NAME: seq<Byte> := [65, 112, 112, 108, 101, 32, 73, 110, 99, 46]
  const MODEL_NAME: seq<Byte> := [65, 105, 114, 80, 111, 100, 115, 32, 80, 114, 111]
  const TRUE: seq<Byte> := [116, 114, 117, 101]
  const FALSE: seq<Byte> := [102, 97, 108, 115, 101]

  lemma ManufacturerNameText()
    ensures MANUFACTURER_NAME == Ascii("Apple Inc.")
  {
    assert Spells(MANUFACTURER_NAME, "Apple Inc.");
    SpellsAscii(MANUFACTURER_NAME, "Apple Inc.");
  }

  lemma ModelNameText()
    ensures MODEL_NAME == Ascii("AirPods Pro")
  {
    assert Spells(MODEL_NAME, "AirPods Pro");
    SpellsAscii(MODEL_NAME, "AirPods Pro");
  }

  /** The texts of `String.valueOf(boolean)`. */
  lemma BooleanTexts()
    ensures TRUE == Ascii("true") && FALSE == Ascii("false")
  {
    assert Spells(TRUE, "true");
    SpellsAscii(TRUE, "true");
    assert Spells(FALSE, "false");
    SpellsAscii(FALSE, "false");
  }

  /** The six booleans whose transitions are reported as a status change. */
  datatype StatusFlags = StatusFlags(
    chargingLeft: bool, chargingRight: bool, chargingCase: bool, chargingMain: bool,
    usingLeft: bool, usingRight: bool)

  /** Everything one decode of a payload produces. */
  datatype Snapshot = Snapshot(
    rightLeft: bool,
    batteryLeft: nat, batteryRight: nat, batteryCase: nat, batteryUnified: nat,
    chargingLeft: bool, chargingRight: bool, chargingCase: bool, chargingMain: bool,
    usingLeft: bool, usingRight: bool)
  {
    function Flags(): StatusFlags
    {
      StatusFlags(chargingLeft, chargingRight, chargingCase, chargingMain, usingLeft, usingRight)
    }
  }

  /** The icon URIs, opaque byte strings resolved from the app's resources. */
  datatype Icons = Icons(main: seq<Byte>, left: seq<Byte>, right: seq<Byte>, case_: seq<Byte>)

  /** `setModelData`, as a function of the payload: the flags are byte 5,
      the earbud levels byte 6 and the case level and charging bits byte 7. */
  function Decode(data: seq<Byte>): (s: Snapshot)
    requires |data| >= 8
    ensures s.rightLeft == HasBit(data[5], FLAG_REVERSED)
    ensures s.batteryCase == LowNibble(data[7]) && s.chargingCase == HasBit(data[7], MASK_CHARGING_CASE)
    ensures s.batteryUnified == Min(s.batteryLeft, s.batteryRight)
    ensures s.chargingMain <==> s.chargingLeft && s.chargingRight
  {
    DecodeStatus(data[5], data[6], data[7])
  }

  /** The bit layout of a payload in closed form. Without the reversed flag
      the high nibble of byte 6 is the left earbud, bit 5 of byte 7 its
      charging bit and bit 1 of byte 5 its in-ear bit; bits 4 and 3 are the
      right earbud's. With the flag, every left/right pair is exchanged. */
  lemma DecodeLayout(data: seq<Byte>)
    requires |data| >= 8
    ensures var flags, battery, charging := data[5], data[6], data[7];
      !HasBit(flags, 0x80) ==> Decode(data) == Snapshot(
        false,
        HighNibble(battery), LowNibble(battery), LowNibble(charging),
        Min(HighNibble(battery), LowNibble(battery)),
        HasBit(charging, 0x20), HasBit(charging, 0x10), HasBit(charging, 0x40),
        HasBit(charging, 0x20) && HasBit(charging, 0x10),
        HasBit(flags, 0x02), HasBit(flags, 0x08))
    ensures var flags, battery, charging := data[5], data[6], data[7];
      HasBit(flags, 0x80) ==> Decode(data) == Snapshot(
        true,
        LowNibble(battery), HighNibble(battery), LowNibble(charging),
        Min(HighNibble(battery), LowNibble(battery)),
        HasBit(charging, 0x10), HasBit(charging, 0x20), HasBit(charging, 0x40),
        HasBit(charging, 0x20) && HasBit(charging, 0x10),
        HasBit(flags, 0x08), HasBit(flags, 0x02))
  {
  }

  /** The decode of the flags, battery and charging bytes. */
  function DecodeStatus(flags: Byte, battery: Byte, charging: Byte): (s: Snapshot)
    ensures s.batteryLeft < 16 && s.batteryRight < 16 && s.batteryCase < 16
    // the two earbud levels are the two nibbles of the battery byte, in an
    // order the reversed flag chooses; the unified level is the lower one
    ensures multiset{s.batteryLeft, s.batteryRight} == multiset{HighNibble(battery), LowNibble(battery)}
    ensures s.rightLeft == HasBit(flags, FLAG_REVERSED)
    ensures s.batteryLeft == if s.rightLeft then LowNibble(battery) else HighNibble(battery)
    ensures s.batteryUnified == Min(s.batteryLeft, s.batteryRight)
    // main charging means both earbuds charging
    ensures s.chargingMain <==> s.chargingLeft && s.chargingRight
    ensures multiset{s.chargingLeft, s.chargingRight}
         == multiset{HasBit(charging, MASK_CHARGING_LEFT), HasBit(charging, MASK_CHARGING_RIGHT)}
  {
    var rightLeft := HasBit(flags, FLAG_REVERSED);
    var batteryLeft := if !rightLeft then HighNibble(battery) else LowNibble(battery);
    var batteryRight := if !rightLeft then LowNibble(battery) else HighNibble(battery);
    var chargingLeft := if !rightLeft then HasBit(charging, MASK_CHARGING_LEFT) else HasBit(charging, MASK_CHARGING_RIGHT);
    var chargingRight := if !rightLeft then HasBit(charging, MASK_CHARGING_RIGHT) else HasBit(charging, MASK_CHARGING_LEFT);
    var usingLeft := if rightLeft then HasBit(flags, MASK_USING_LEFT) else HasBit(flags, MASK_USING_RIGHT);
    var usingRight := if rightLeft then HasBit(flags, MASK_USING_RIGHT) else HasBit(flags, MASK_USING_LEFT);
    var batteryUnified: nat := if batteryLeft <= batteryRight then batteryLeft else batteryRight;  // Math.min
    Snapshot(rightLeft, batteryLeft, batteryRight, LowNibble(charging), batteryUnified,
             chargingLeft, chargingRight, HasBit(charging, MASK_CHARGING_CASE),
             chargingLeft && chargingRight, usingLeft, usingRight)
  }

  /** Left and right exchanged everywhere; what a reversed-channel flag does. */
  function Swapped(s: Snapshot): Snapshot
  {
    s.(rightLeft := !s.rightLeft,
       batteryLeft := s.batteryRight, batteryRight := s.batteryLeft,
       chargingLeft := s.chargingRight, chargingRight := s.chargingLeft,
       usingLeft := s.usingRight, usingRight := s.usingLeft)
  }

  /** Toggling the reversed flag swaps every left/right output and leaves the
      case, main-charging and unified values alone. */
  lemma ReversalSwapsChannels(data: seq<Byte>)
    requires |data| >= 8
    ensures Decode(data[5 := ToggleReversed(data[5])]) == Swapped(Decode(data))
  {
    var d := data[5 := ToggleReversed(data[5])];
    assert d[5] == ToggleReversed(data[5]) && d[6] == data[6] && d[7] == data[7];
    ToggleReversedBits(data[5]);
  }

  /** `flags ^ FLAG_REVERSED` */
  function ToggleReversed(flags: Byte): Byte
  {
    if flags >= 128 then flags - 128 else flags + 128
  }

  /** The in-ear bits (masks 0x02 and 0x08) of the flags byte exchanged. */
  function SwapUsingBits(flags: Byte): Byte
  {
    var lo, hi := HasBit(flags, MASK_USING_RIGHT), HasBit(flags, MASK_USING_LEFT);
    if lo == hi then flags else if lo then flags + 6 else flags - 6
  }

  /** The earbud charging bits (masks 0x10 and 0x20) of the charging byte exchanged. */
  function SwapChargingBits(charging: Byte): Byte
  {
    var lo, hi := HasBit(charging, MASK_CHARGING_RIGHT), HasBit(charging, MASK_CHARGING_LEFT);
    if lo == hi then charging else if lo then charging + 16 else charging - 16
  }

  /** The battery byte with its two nibbles exchanged. */
  function SwapNibbles(battery: Byte): Byte
  {
    (LowNibble(battery) * 16 + HighNibble(battery)) as Byte
  }

  /** The same physical state sent by an accessory with its channels reversed:
      reversed flag toggled, battery nibbles exchanged, charging bits 4/5 and
      in-ear bits 1/3 exchanged. */
  function Mirrored(data: seq<Byte>): (d: seq<Byte>)
    requires |data| >= 8
    ensures |d| == |data|
  {
    data[5 := SwapUsingBits(ToggleReversed(data[5]))]
        [6 := SwapNibbles(data[6])]
        [7 := SwapChargingBits(data[7])]
  }

  lemma ToggleReversedBits(flags: Byte)
    ensures HasBit(ToggleReversed(flags), FLAG_REVERSED) == !HasBit(flags, FLAG_REVERSED)
    ensures HasBit(ToggleReversed(flags), MASK_USING_LEFT) == HasBit(flags, MASK_USING_LEFT)
    ensures HasBit(ToggleReversed(flags), MASK_USING_RIGHT) == HasBit(flags, MASK_USING_RIGHT)
  {
    var f, t := flags as int, ToggleReversed(flags) as int;
    if f >= 128 {
      assert t == f - 128 && f / 128 == 1 && t / 128 == 0;
      assert t / 8 == f / 8 - 16 && t / 2 == f / 2 - 64;
    } else {
      assert t == f + 128 && f / 128 == 0 && t / 128 == 1;
      assert t / 8 == f / 8 + 16 && t / 2 == f / 2 + 64;
    }
  }

  lemma SwapUsingBitsBits(flags: Byte)
    ensures HasBit(SwapUsingBits(flags), FLAG_REVERSED) == HasBit(flags, FLAG_REVERSED)
    ensures HasBit(SwapUsingBits(flags), MASK_USING_LEFT) == HasBit(flags, MASK_USING_RIGHT)
    ensures HasBit(SwapUsingBits(flags), MASK_USING_RIGHT) == HasBit(flags, MASK_USING_LEFT)
  {
  }

  lemma SwapChargingBitsBits(charging: Byte)
    ensures HasBit(SwapChargingBits(charging), MASK_CHARGING_LEFT) == HasBit(charging, MASK_CHARGING_RIGHT)
    ensures HasBit(SwapChargingBits(charging), MASK_CHARGING_RIGHT) == HasBit(charging, MASK_CHARGING_LEFT)
    ensures HasBit(SwapChargingBits(charging), MASK_CHARGING_CASE) == HasBit(charging, MASK_CHARGING_CASE)
    ensures LowNibble(SwapChargingBits(charging)) == LowNibble(charging)
  {
  }

  lemma SwapNibblesNibbles(battery: Byte)
    ensures HighNibble(SwapNibbles(battery)) == LowNibble(battery)
    ensures LowNibble(SwapNibbles(battery)) == HighNibble(battery)
  {
  }

  /** A payload and its mirror decode to the same battery, charging and in-ear state. */
  lemma MirroredDecodesAlike(data: seq<Byte>)
    requires |data| >= 8
    ensures Decode(Mirrored(data)) == Decode(data).(rightLeft := !Decode(data).rightLeft)
  {
    var d := Mirrored(data);
    assert d[5] == SwapUsingBits(ToggleReversed(data[5])) && d[6] == SwapNibbles(data[6])
      && d[7] == SwapChargingBits(data[7]);
    ToggleReversedBits(data[5]);
    SwapUsingBitsBits(ToggleReversed(data[5]));
    SwapNibblesNibbles(data[6]);
    SwapChargingBitsBits(data[7]);
  }

  /** Only bytes 5, 6 and 7 matter. */
  lemma DecodeReadsFlagsBatteryCharging(d1: seq<Byte>, d2: seq<Byte>)
    requires |d1| >= 8 && |d2| >= 8
    requires d1[5..8] == d2[5..8]
    ensures Decode(d1) == Decode(d2)
  {
    assert d1[5] == d1[5..8][0] && d1[6] == d1[5..8][1] && d1[7] == d1[5..8][2];
    assert d2[5] == d2[5..8][0] && d2[6] == d2[5..8][1] && d2[7] == d2[5..8][2];
  }

  // ----- metadata sync -----

  /** The three groups of keys written once, while absent: manufacturer,
      model name and device type; the four icon URIs; the four low-battery
      thresholds. Each group has its own done flag. */
  datatype Group = Identity | Icon | Threshold

  function GroupOf(k: Key): (g: Option<Group>)
  {
    match k
    case ManufacturerName => Some(Identity)
    case ModelName => Some(Identity)
    case DeviceType => Some(Identity)
    case MainIcon => Some(Icon)
    case UntetheredLeftIcon => Some(Icon)
    case UntetheredRightIcon => Some(Icon)
    case UntetheredCaseIcon => Some(Icon)
    case MainLowBatteryThreshold => Some(Threshold)
    case UntetheredLeftLowBatteryThreshold => Some(Threshold)
    case UntetheredRightLowBatteryThreshold => Some(Threshold)
    case UntetheredCaseLowBatteryThreshold => Some(Threshold)
    case _ => None
  }

  predicate IsWriteOnceKey(k: Key)
  {
    GroupOf(k).Some?
  }

  /** Every key of group g is in m. */
  predicate GroupPresent(g: Group, m: Store)
  {
    match g
    case Identity => ManufacturerName in m && ModelName in m && DeviceType in m
    case Icon => MainIcon in m && UntetheredLeftIcon in m && UntetheredRightIcon in m && UntetheredCaseIcon in m
    case Threshold =>
      MainLowBatteryThreshold in m && UntetheredLeftLowBatteryThreshold in m
      && UntetheredRightLowBatteryThreshold in m && UntetheredCaseLowBatteryThreshold in m
  }

  /** The value a write-once key receives. */
  function OnceValue(icons: Icons, k: Key): seq<Byte>
  {
    match k
    case ManufacturerName => MANUFACTURER_NAME
    case ModelName => MODEL_NAME
    case DeviceType => DEVICE_TYPE_UNTETHERED_HEADSET
    case MainIcon => icons.main
    case UntetheredLeftIcon => icons.left
    case UntetheredRightIcon => icons.right
    case UntetheredCaseIcon => icons.case_
    case _ => LOW_BATTERY_THRESHOLD
  }

  function ChargingText(b: bool): seq<Byte>
  {
    if b then TRUE else FALSE
  }

  /** The decoder's state that the metadata sync reads and updates. */
  datatype SyncState = SyncState(
    current: Snapshot, shadows: StatusFlags,
    leftBatteryOld: Option<seq<Byte>>, rightBatteryOld: Option<seq<Byte>>, caseBatteryOld: Option<seq<Byte>>,
    isModelSet: bool, isModelIconSet: bool, isModelLowBatteryThresholdSet: bool)
  {
    /** The done flag of group g. */
    function Done(g: Group): bool
    {
      match g
      case Identity => isModelSet
      case Icon => isModelIconSet
      case Threshold => isModelLowBatteryThresholdSet
    }
  }

  /** A write-once key is attempted only while its group is not done and the
      key is absent from the store. */
  function IfAbsent(groupDone: bool, m: Store, k: Key, value: seq<Byte>): (w: Option<seq<Byte>>)
  {
    if groupDone || k in m then None else Some(value)
  }

  function OnChange(changed: bool, value: seq<Byte>): (w: Option<seq<Byte>>)
  {
    if changed then Some(value) else None
  }

  /** The writes of the status half of the sync, one per status key: a
      charging key on a transition of its flag, a battery key when its text
      differs from the one last written. */
  datatype StatusPlan = StatusPlan(leftCharging: Option<seq<Byte>>, rightCharging: Option<seq<Byte>>,
                                   caseCharging: Option<seq<Byte>>, mainCharging: Option<seq<Byte>>,
                                   leftBattery: Option<seq<Byte>>, rightBattery: Option<seq<Byte>>,
                                   caseBattery: Option<seq<Byte>>)

  /** The battery texts a sync compares and writes. */
  datatype BatteryTexts = BatteryTexts(left: seq<Byte>, right: seq<Byte>, case_: seq<Byte>)

  function TextsOf(c: Snapshot): BatteryTexts
  {
    BatteryTexts(BatteryMetadata(c.batteryLeft), BatteryMetadata(c.batteryRight), BatteryMetadata(c.batteryCase))
  }

  /** The status writes for snapshot c against shadows sh and the cached
      texts, given the texts t of c's levels. */
  function PlanFor(c: Snapshot, sh: StatusFlags, t: BatteryTexts,
                   leftOld: Option<seq<Byte>>, rightOld: Option<seq<Byte>>, caseOld: Option<seq<Byte>>): (p: StatusPlan)
  {
    StatusPlan(OnChange(c.chargingLeft != sh.chargingLeft, ChargingText(c.chargingLeft)),
               OnChange(c.chargingRight != sh.chargingRight, ChargingText(c.chargingRight)),
               OnChange(c.chargingCase != sh.chargingCase, ChargingText(c.chargingCase)),
               OnChange(c.chargingMain != sh.chargingMain, ChargingText(c.chargingMain)),
               OnChange(leftOld != Some(t.left), t.left),
               OnChange(rightOld != Some(t.right), t.right),
               OnChange(caseOld != Some(t.case_), t.case_))
  }

  /** Nothing is written exactly when no charging flag moved and every
      battery text is the one last written. */
  lemma NothingPlannedIffSettled(c: Snapshot, sh: StatusFlags, t: BatteryTexts,
                                 leftOld: Option<seq<Byte>>, rightOld: Option<seq<Byte>>, caseOld: Option<seq<Byte>>)
    ensures PlanFor(c, sh, t, leftOld, rightOld, caseOld) == StatusPlan(None, None, None, None, None, None, None)
        <==> && c.chargingLeft == sh.chargingLeft && c.chargingRight == sh.chargingRight
             && c.chargingCase == sh.chargingCase && c.chargingMain == sh.chargingMain
             && leftOld == Some(t.left) && rightOld == Some(t.right) && caseOld == Some(t.case_)
  {
  }

  function PlanOf(st: SyncState): StatusPlan
  {
    PlanFor(st.current, st.shadows, TextsOf(st.current), st.leftBatteryOld, st.rightBatteryOld, st.caseBatteryOld)
  }

  /** The planned write of p on key k, if any. */
  function PlanWrite(p: StatusPlan, k: Key): Option<seq<Byte>>
  {
    match k
    case UntetheredLeftCharging => p.leftCharging
    case UntetheredRightCharging => p.rightCharging
    case UntetheredCaseCharging => p.caseCharging
    case MainCharging => p.mainCharging
    case UntetheredLeftBattery => p.leftBattery
    case UntetheredRightBattery => p.rightBattery
    case UntetheredCaseBattery => p.caseBattery
    case _ => None
  }

  /** The status write of a sync from st on key k, if any. */
  function StatusWrite(st: SyncState, k: Key): Option<seq<Byte>>
  {
    PlanWrite(PlanOf(st), k)
  }

  /** The write `setModelMetaData` attempts on key k against store m, if any. */
  function Planned(st: SyncState, icons: Icons, m: Store, k: Key): (w: Option<seq<Byte>>)
    // a write-once key: its fixed value, while its group is not done and the key is absent
    ensures IsWriteOnceKey(k) ==> (w.Some? <==> !st.Done(GroupOf(k).value) && k !in m)
    ensures IsWriteOnceKey(k) && w.Some? ==> w.value == OnceValue(icons, k)
  {
    match GroupOf(k)
    case Some(g) => IfAbsent(st.Done(g), m, k, OnceValue(icons, k))
    case None => StatusWrite(st, k)
  }

  // ----- the order of the writes -----

  /** The log entry of the planned write w on key k: one `setMetadata` call, or none. */
  function AttemptOf(k: Key, w: Option<seq<Byte>>): (log: seq<Write>)
  {
    if w.Some? then [(k, w.value)] else []
  }

  /** The write-once step on key k of a group whose done flag is `done`. */
  function OnceAttempt(done: bool, icons: Icons, m: Store, k: Key): seq<Write>
  {
    AttemptOf(k, IfAbsent(done, m, k, OnceValue(icons, k)))
  }

  /** The `setMetadata` calls of write-once group g, in `setModelMetaData`'s order,
      against store m. */
  function FillAttempts(g: Group, done: bool, icons: Icons, m: Store): seq<Write>
  {
    match g
    case Identity =>
      OnceAttempt(done, icons, m, ManufacturerName) + OnceAttempt(done, icons, m, ModelName)
      + OnceAttempt(done, icons, m, DeviceType)
    case Icon =>
      OnceAttempt(done, icons, m, MainIcon) + OnceAttempt(done, icons, m, UntetheredLeftIcon)
      + OnceAttempt(done, icons, m, UntetheredRightIcon) + OnceAttempt(done, icons, m, UntetheredCaseIcon)
    case Threshold =>
      OnceAttempt(done, icons, m, MainLowBatteryThreshold) + OnceAttempt(done, icons, m, UntetheredLeftLowBatteryThreshold)
      + OnceAttempt(done, icons, m, UntetheredRightLowBatteryThreshold)
      + OnceAttempt(done, icons, m, UntetheredCaseLowBatteryThreshold)
  }

  /** The charging write and then the battery write of one earbud, or of the case. */
  function PartAttempts(chargingKey: Key, charging: Option<seq<Byte>>, batteryKey: Key, battery: Option<seq<Byte>>): seq<Write>
  {
    AttemptOf(chargingKey, charging) + AttemptOf(batteryKey, battery)
  }

  /** The left earbud's writes of plan p, then the right's. */
  function EarbudAttempts(p: StatusPlan): seq<Write>
  {
    PartAttempts(UntetheredLeftCharging, p.leftCharging, UntetheredLeftBattery, p.leftBattery)
    + PartAttempts(UntetheredRightCharging, p.rightCharging, UntetheredRightBattery, p.rightBattery)
  }

  /** The status writes of plan p, in `setModelMetaData`'s order: the left earbud's
      charging and battery, the right's, the case's, then main charging. */
  function StatusAttempts(p: StatusPlan): seq<Write>
  {
    EarbudAttempts(p) + CaseAndMainAttempts(p)
  }

  /** The case's writes of plan p, then main charging. */
  function CaseAndMainAttempts(p: StatusPlan): seq<Write>
  {
    PartAttempts(UntetheredCaseCharging, p.caseCharging, UntetheredCaseBattery, p.caseBattery)
    + AttemptOf(MainCharging, p.mainCharging)
  }

  /** Every `setMetadata` call of one `setModelMetaData` from st against
      store m, in order: identity, icons, thresholds, then the status keys. */
  function SyncAttempts(st: SyncState, icons: Icons, m: Store): seq<Write>
  {
    FillAttempts(Identity, st.isModelSet, icons, m) + FillAttempts(Icon, st.isModelIconSet, icons, m)
    + FillAttempts(Threshold, st.isModelLowBatteryThresholdSet, icons, m) + StatusAttempts(PlanOf(st))
  }

  lemma InAttemptOf(k: Key, w: Option<seq<Byte>>, x: Write)
    ensures x in AttemptOf(k, w) <==> x.0 == k && w == Some(x.1)
  {
  }

  /** Group g attempts (k, v) iff k is one of its keys and v the write IfAbsent plans on it. */
  lemma InFillAttempts(g: Group, done: bool, icons: Icons, m: Store, k: Key, v: seq<Byte>)
    ensures (k, v) in FillAttempts(g, done, icons, m)
        <==> GroupOf(k) == Some(g) && IfAbsent(done, m, k, OnceValue(icons, k)) == Some(v)
  {
    var x := (k, v);
    match g
    case Identity =>
      InAttemptOf(ManufacturerName, IfAbsent(done, m, ManufacturerName, OnceValue(icons, ManufacturerName)), x);
      InAttemptOf(ModelName, IfAbsent(done, m, ModelName, OnceValue(icons, ModelName)), x);
      InAttemptOf(DeviceType, IfAbsent(done, m, DeviceType, OnceValue(icons, DeviceType)), x);
    case Icon =>
      InAttemptOf(MainIcon, IfAbsent(done, m, MainIcon, OnceValue(icons, MainIcon)), x);
      InAttemptOf(UntetheredLeftIcon, IfAbsent(done, m, UntetheredLeftIcon, OnceValue(icons, UntetheredLeftIcon)), x);
      InAttemptOf(UntetheredRightIcon, IfAbsent(done, m, UntetheredRightIcon, OnceValue(icons, UntetheredRightIcon)), x);
      InAttemptOf(UntetheredCaseIcon, IfAbsent(done, m, UntetheredCaseIcon, OnceValue(icons, UntetheredCaseIcon)), x);
    case Threshold =>
      InAttemptOf(MainLowBatteryThreshold, IfAbsent(done, m, MainLowBatteryThreshold, LOW_BATTERY_THRESHOLD), x);
      InAttemptOf(UntetheredLeftLowBatteryThreshold, IfAbsent(done, m, UntetheredLeftLowBatteryThreshold, LOW_BATTERY_THRESHOLD), x);
      InAttemptOf(UntetheredRightLowBatteryThreshold, IfAbsent(done, m, UntetheredRightLowBatteryThreshold, LOW_BATTERY_THRESHOLD), x);
      InAttemptOf(UntetheredCaseLowBatteryThreshold, IfAbsent(done, m, UntetheredCaseLowBatteryThreshold, LOW_BATTERY_THRESHOLD), x);
  }

  /** The status writes attempt (k, v) iff v is the write p plans on k. */
  lemma InStatusAttempts(p: StatusPlan, k: Key, v: seq<Byte>)
    ensures (k, v) in StatusAttempts(p) <==> PlanWrite(p, k) == Some(v)
  {
    var x := (k, v);
    InAttemptOf(UntetheredLeftCharging, p.leftCharging, x);
    InAttemptOf(UntetheredLeftBattery, p.leftBattery, x);
    InAttemptOf(UntetheredRightCharging, p.rightCharging, x);
    InAttemptOf(UntetheredRightBattery, p.rightBattery, x);
    InAttemptOf(UntetheredCaseCharging, p.caseCharging, x);
    InAttemptOf(UntetheredCaseBattery, p.caseBattery, x);
    InAttemptOf(MainCharging, p.mainCharging, x);
  }

  /** The calls a sync makes are exactly its planned writes: (k, v) is
      attempted iff v is the write planned on k. */
  lemma SyncAttemptsArePlanned(st: SyncState, icons: Icons, m: Store, k: Key, v: seq<Byte>)
    ensures (k, v) in SyncAttempts(st, icons, m) <==> Planned(st, icons, m, k) == Some(v)
  {
    InFillAttempts(Identity, st.isModelSet, icons, m, k, v);
    InFillAttempts(Icon, st.isModelIconSet, icons, m, k, v);
    InFillAttempts(Threshold, st.isModelLowBatteryThresholdSet, icons, m, k, v);
    InStatusAttempts(PlanOf(st), k, v);
    if GroupOf(k).Some? {
      assert PlanWrite(PlanOf(st), k) == None;
    }
  }

  lemma AppendAssoc(a: seq<Write>, b: seq<Write>, c: seq<Write>)
    ensures (a + b) + c == a + (b + c)
  {
  }

  /** m1 is m0 after the planned writes, each of which may have failed. */
  ghost predicate SyncApplied(st: SyncState, icons: Icons, m0: Store, m1: Store)
  {
    forall k :: Get(m1, k) == Get(m0, k) || (Planned(st, icons, m0, k).Some? && Get(m1, k) == Planned(st, icons, m0, k))
  }

  /** The decoder's state after a sync that left the store as m: shadows and
      caches follow the current values; a write-once group is done when all of
      its keys are present. */
  function AfterSync(st: SyncState, m: Store): (next: SyncState)
    ensures next.current == st.current && !Changed(next)
    ensures forall g :: next.Done(g) <==> st.Done(g) || GroupPresent(g, m)
  {
    var c := st.current;
    st.(shadows := c.Flags(),
        leftBatteryOld := Some(BatteryMetadata(c.batteryLeft)),
        rightBatteryOld := Some(BatteryMetadata(c.batteryRight)),
        caseBatteryOld := Some(BatteryMetadata(c.batteryCase)),
        isModelSet := st.isModelSet || GroupPresent(Identity, m),
        isModelIconSet := st.isModelIconSet || GroupPresent(Icon, m),
        isModelLowBatteryThresholdSet := st.isModelLowBatteryThresholdSet || GroupPresent(Threshold, m))
  }

  /** `isModelStateChanged` on a state: some status flag differs from its shadow. */
  predicate Changed(st: SyncState)
  {
    st.current.Flags() != st.shadows
  }

  /** Java's static initial values: false, 0 and null. */
  function InitialState(): SyncState
  {
    SyncState(Snapshot(false, 0, 0, 0, 0, false, false, false, false, false, false),
              StatusFlags(false, false, false, false, false, false),
              None, None, None, false, false, false)
  }

  /** Flags and shadows all start false, so the first decode reports a change
      exactly when some charging bit of byte 7 or in-ear bit of byte 5 is set:
      a first frame with all of them clear reports none. */
  lemma FirstDecodeChange(data: seq<Byte>)
    requires |data| >= 8
    ensures Changed(InitialState().(current := Decode(data)))
        <==> HasBit(data[7], 0x20) || HasBit(data[7], 0x10) || HasBit(data[7], 0x40)
             || HasBit(data[5], 0x02) || HasBit(data[5], 0x08)
  {
    DecodeLayout(data);
  }

  /** After a sync no change is pending, so decoding the same payload again
      reports no change and plans no status write. */
  lemma SyncClearsChange(st: SyncState, m: Store, data: seq<Byte>, k: Key)
    requires |data| >= 8 && st.current == Decode(data)
    ensures !Changed(AfterSync(st, m).(current := Decode(data)))
    ensures StatusWrite(AfterSync(st, m).(current := Decode(data)), k) == None
  {
  }

  /** A write-once key the store already holds is never written. */
  lemma NeverOverwritesWriteOnceKeys(st: SyncState, icons: Icons, m: Store, k: Key)
    requires IsWriteOnceKey(k) && k in m
    ensures Planned(st, icons, m, k) == None
  {
  }

  /** A write-once key of an unfinished group is written, with its fixed value,
      exactly when absent. */
  lemma WritesAbsentWriteOnceKeys(st: SyncState, icons: Icons, m: Store, k: Key)
    requires GroupOf(k).Some? && !st.Done(GroupOf(k).value)
    ensures Planned(st, icons, m, k) == (if k in m then None else Some(OnceValue(icons, k)))
  {
  }

  /** The level a battery key reports, and the text last written to it. */
  function LevelFor(c: Snapshot, k: Key): nat
  {
    match k
    case UntetheredLeftBattery => c.batteryLeft
    case UntetheredRightBattery => c.batteryRight
    case _ => c.batteryCase
  }

  function CachedText(st: SyncState, k: Key): Option<seq<Byte>>
  {
    match k
    case UntetheredLeftBattery => st.leftBatteryOld
    case UntetheredRightBattery => st.rightBatteryOld
    case _ => st.caseBatteryOld
  }

  /** Each battery key (left, right, case) receives the text of its level.
      It is written on the first sync, and afterwards exactly when its
      normalised level differs from the level last written, whatever the
      store holds. */
  lemma BatteryWrittenIffLevelChanged(st: SyncState, icons: Icons, m: Store, k: Key)
    requires k == UntetheredLeftBattery || k == UntetheredRightBattery || k == UntetheredCaseBattery
    ensures Planned(st, icons, m, k).Some? ==> Planned(st, icons, m, k) == Some(BatteryMetadata(LevelFor(st.current, k)))
    ensures CachedText(st, k) == None ==> Planned(st, icons, m, k).Some?
    ensures forall previous :: CachedText(st, k) == Some(BatteryMetadata(previous)) ==>
      (Planned(st, icons, m, k).Some? <==> SetBatteryLevel(previous, false) != SetBatteryLevel(LevelFor(st.current, k), false))
  {
    var text := BatteryMetadata(LevelFor(st.current, k));
    assert Planned(st, icons, m, k) == OnChange(CachedText(st, k) != Some(text), text) by {
      var c := st.current;
      var p := PlanFor(c, st.shadows, TextsOf(c), st.leftBatteryOld, st.rightBatteryOld, st.caseBatteryOld);
      assert GroupOf(k) == None && Planned(st, icons, m, k) == PlanWrite(p, k);
    }
    forall previous | CachedText(st, k) == Some(BatteryMetadata(previous))
      ensures Planned(st, icons, m, k).Some? <==> SetBatteryLevel(previous, false) != SetBatteryLevel(LevelFor(st.current, k), false)
    {
      BatteryMetadataInjective(previous, LevelFor(st.current, k));
    }
  }

  /** The status flag a charging key reports. */
  function ChargingOf(f: StatusFlags, k: Key): bool
  {
    match k
    case UntetheredLeftCharging => f.chargingLeft
    case UntetheredRightCharging => f.chargingRight
    case UntetheredCaseCharging => f.chargingCase
    case _ => f.chargingMain
  }

  /** Each charging key (left, right, case, main) is written exactly on a
      transition of its own flag, with the new flag as text. */
  lemma ChargingWrittenOnTransition(st: SyncState, icons: Icons, m: Store, k: Key)
    requires k == UntetheredLeftCharging || k == UntetheredRightCharging || k == UntetheredCaseCharging || k == MainCharging
    ensures var now, was := ChargingOf(st.current.Flags(), k), ChargingOf(st.shadows, k);
      Planned(st, icons, m, k) == if now != was then Some(ChargingText(now)) else None
  {
    var c, sh := st.current, st.shadows;
    var p := PlanFor(c, sh, TextsOf(c), st.leftBatteryOld, st.rightBatteryOld, st.caseBatteryOld);
    match k
    case UntetheredLeftCharging =>
      assert p.leftCharging == OnChange(c.chargingLeft != sh.chargingLeft, ChargingText(c.chargingLeft));
    case UntetheredRightCharging =>
      assert p.rightCharging == OnChange(c.chargingRight != sh.chargingRight, ChargingText(c.chargingRight));
    case UntetheredCaseCharging =>
      assert p.caseCharging == OnChange(c.chargingCase != sh.chargingCase, ChargingText(c.chargingCase));
    case MainCharging =>
      assert p.mainCharging == OnChange(c.chargingMain != sh.chargingMain, ChargingText(c.chargingMain));
  }

  /** Once every write-once key is present, a second sync of the same decoded
      state plans no write at all, whatever the store then holds. */
  lemma ResyncWritesNothing(st: SyncState, icons: Icons, m1: Store, m2: Store, k: Key)
    requires GroupPresent(Identity, m1) && GroupPresent(Icon, m1) && GroupPresent(Threshold, m1)
    ensures Planned(AfterSync(st, m1), icons, m2, k) == None
  {
  }

  // ----- the steps of a sync, each write of which may fail -----

  /** m1 is m0 with some absent keys of group g filled with their values. */
  ghost predicate FilledFrom(g: Group, icons: Icons, m0: Store, m1: Store)
  {
    forall k :: Get(m1, k) == Get(m0, k)
      || (GroupOf(k) == Some(g) && k !in m0 && Get(m1, k) == Some(OnceValue(icons, k)))
  }

  /** One `getMetadata(key) == null ? setMetadata(key, value) : true` step keeps FilledFrom. */
  lemma FillStep(g: Group, icons: Icons, m0: Store, mi: Store, mj: Store, key: Key)
    requires FilledFrom(g, icons, m0, mi)
    requires GroupOf(key) == Some(g)
    requires key in mi ==> mj == mi
    requires key !in mi ==> mj == mi || mj == mi[key := OnceValue(icons, key)]
    ensures FilledFrom(g, icons, m0, mj)
  {
    if mj != mi {
      forall k ensures Get(mj, k) == Get(m0, k)
        || (GroupOf(k) == Some(g) && k !in m0 && Get(mj, k) == Some(OnceValue(icons, k)))
      {
        if k == key {
          assert Get(mi, k) == None;
        }
      }
    }
  }

  /** m1 is m0 with some of the status writes planned from st applied. */
  ghost predicate StatusFrom(p: StatusPlan, m0: Store, m1: Store)
  {
    forall k :: Get(m1, k) == Get(m0, k) || (PlanWrite(p, k).Some? && Get(m1, k) == PlanWrite(p, k))
  }

  /** One status write, attempted when StatusWrite plans it, keeps StatusFrom. */
  lemma StatusStep(p: StatusPlan, m0: Store, mi: Store, mj: Store, key: Key, value: seq<Byte>)
    requires StatusFrom(p, m0, mi)
    requires mj == mi || (PlanWrite(p, key) == Some(value) && mj == mi[key := value])
    ensures StatusFrom(p, m0, mj)
  {
  }

  lemma StatusTrans(p: StatusPlan, m0: Store, m1: Store, m2: Store)
    requires StatusFrom(p, m0, m1) && StatusFrom(p, m1, m2)
    ensures StatusFrom(p, m0, m2)
  {
  }

  /** m0 and m1 agree on every key of group h. */
  ghost predicate AgreeOn(h: Group, m0: Store, m1: Store)
  {
    forall k :: GroupOf(k) == Some(h) ==> Get(m1, k) == Get(m0, k)
  }

  /** Whether group h is complete, and which of its keys a sync attempts,
      depend only on h's own keys. */
  lemma AgreeOnGroup(h: Group, done: bool, icons: Icons, m0: Store, m1: Store)
    requires AgreeOn(h, m0, m1)
    ensures GroupPresent(h, m1) == GroupPresent(h, m0)
    ensures FillAttempts(h, done, icons, m1) == FillAttempts(h, done, icons, m0)
  {
    match h
    case Identity =>
      assert Get(m1, ManufacturerName) == Get(m0, ManufacturerName);
      assert Get(m1, ModelName) == Get(m0, ModelName);
      assert Get(m1, DeviceType) == Get(m0, DeviceType);
    case Icon =>
      assert Get(m1, MainIcon) == Get(m0, MainIcon);
      assert Get(m1, UntetheredLeftIcon) == Get(m0, UntetheredLeftIcon);
      assert Get(m1, UntetheredRightIcon) == Get(m0, UntetheredRightIcon);
      assert Get(m1, UntetheredCaseIcon) == Get(m0, UntetheredCaseIcon);
    case Threshold =>
      assert Get(m1, MainLowBatteryThreshold) == Get(m0, MainLowBatteryThreshold);
      assert Get(m1, UntetheredLeftLowBatteryThreshold) == Get(m0, UntetheredLeftLowBatteryThreshold);
      assert Get(m1, UntetheredRightLowBatteryThreshold) == Get(m0, UntetheredRightLowBatteryThreshold);
      assert Get(m1, UntetheredCaseLowBatteryThreshold) == Get(m0, UntetheredCaseLowBatteryThreshold);
  }

  /** Status writes leave every write-once key as it was. */
  lemma StatusKeepsGroup(p: StatusPlan, m3: Store, m4: Store, h: Group)
    requires StatusFrom(p, m3, m4)
    ensures AgreeOn(h, m3, m4)
  {
    forall k | GroupOf(k) == Some(h) ensures Get(m4, k) == Get(m3, k) {
      assert PlanWrite(p, k) == None;
    }
  }

  /** Filling group g leaves every key of another group as it was. */
  lemma FillKeepsGroup(g: Group, icons: Icons, m0: Store, m1: Store, h: Group)
    requires FilledFrom(g, icons, m0, m1) && g != h
    ensures AgreeOn(h, m0, m1)
  {
  }

  /** m1 is m0 with some absent keys of unfinished groups filled with their values. */
  ghost predicate OnceFrom(st: SyncState, icons: Icons, m0: Store, m1: Store)
  {
    forall k :: Get(m1, k) == Get(m0, k)
      || (GroupOf(k).Some? && !st.Done(GroupOf(k).value) && k !in m0 && Get(m1, k) == Some(OnceValue(icons, k)))
  }

  /** The three write-once steps compose to OnceFrom. */
  lemma {:induction false} OnceSteps(st: SyncState, icons: Icons, m0: Store, m1: Store, m2: Store, m3: Store)
    requires st.isModelSet ==> m1 == m0
    requires FilledFrom(Identity, icons, m0, m1)
    requires st.isModelIconSet ==> m2 == m1
    requires FilledFrom(Icon, icons, m1, m2)
    requires st.isModelLowBatteryThresholdSet ==> m3 == m2
    requires FilledFrom(Threshold, icons, m2, m3)
    ensures OnceFrom(st, icons, m0, m3)
  {
    forall k ensures Get(m3, k) == Get(m0, k)
      || (GroupOf(k).Some? && !st.Done(GroupOf(k).value) && k !in m0 && Get(m3, k) == Some(OnceValue(icons, k)))
    {
      assert Get(m1, k) == Get(m0, k) || GroupOf(k) == Some(Identity);
      assert Get(m2, k) == Get(m1, k) || GroupOf(k) == Some(Icon);
      assert Get(m3, k) == Get(m2, k) || GroupOf(k) == Some(Threshold);
    }
  }

  /** The write-once steps and the status steps compose to SyncApplied. */
  lemma {:induction false} SyncSteps(st: SyncState, icons: Icons, p: StatusPlan, m0: Store, m3: Store, m4: Store)
    requires OnceFrom(st, icons, m0, m3)
    requires p == PlanOf(st) && StatusFrom(p, m3, m4)
    ensures SyncApplied(st, icons, m0, m4)
  {
    forall k ensures Get(m4, k) == Get(m0, k) || (Planned(st, icons, m0, k).Some? && Get(m4, k) == Planned(st, icons, m0, k))
    {
      match GroupOf(k)
      case Some(g) =>
        assert StatusWrite(st, k) == None;
        assert Get(m4, k) == Get(m3, k);
      case None =>
        assert Get(m3, k) == Get(m0, k);
    }
  }

  /** The flags and caches the steps leave are those of AfterSync. */
  lemma StepsReachAfterSync(st: SyncState, icons: Icons, p: StatusPlan,
                            m1: Store, m2: Store, m3: Store, m4: Store, after: SyncState)
    requires FilledFrom(Icon, icons, m1, m2)
    requires FilledFrom(Threshold, icons, m2, m3)
    requires StatusFrom(p, m3, m4)
    requires after.current == st.current && after.shadows == st.current.Flags()
    requires after.leftBatteryOld == Some(TextsOf(st.current).left)
    requires after.rightBatteryOld == Some(TextsOf(st.current).right)
    requires after.caseBatteryOld == Some(TextsOf(st.current).case_)
    requires after.isModelSet == (st.isModelSet || GroupPresent(Identity, m1))
    requires after.isModelIconSet == (st.isModelIconSet || GroupPresent(Icon, m2))
    requires after.isModelLowBatteryThresholdSet == (st.isModelLowBatteryThresholdSet || GroupPresent(Threshold, m3))
    ensures after == AfterSync(st, m4)
  {
    GroupsAfterSteps(icons, p, m1, m2, m3, m4);
  }

  /** A group's presence after the sync is decided by its own step. */
  lemma GroupsAfterSteps(icons: Icons, p: StatusPlan, m1: Store, m2: Store, m3: Store, m4: Store)
    requires FilledFrom(Icon, icons, m1, m2)
    requires FilledFrom(Threshold, icons, m2, m3)
    requires StatusFrom(p, m3, m4)
    ensures GroupPresent(Identity, m4) == GroupPresent(Identity, m1)
    ensures GroupPresent(Icon, m4) == GroupPresent(Icon, m2)
    ensures GroupPresent(Threshold, m4) == GroupPresent(Threshold, m3)
  {
    FillKeepsGroup(Icon, icons, m1, m2, Identity);
    FillKeepsGroup(Threshold, icons, m2, m3, Identity);
    FillKeepsGroup(Threshold, icons, m2, m3, Icon);
    StatusKeepsGroup(p, m3, m4, Identity);
    StatusKeepsGroup(p, m3, m4, Icon);
    StatusKeepsGroup(p, m3, m4, Threshold);
    AgreeOnGroup(Identity, false, icons, m1, m2);
    AgreeOnGroup(Identity, false, icons, m2, m3);
    AgreeOnGroup(Identity, false, icons, m3, m4);
    AgreeOnGroup(Icon, false, icons, m2, m3);
    AgreeOnGroup(Icon, false, icons, m3, m4);
    AgreeOnGroup(Threshold, false, icons, m3, m4);
  }

  /** The decoder: the static fields of AirPodsProGen2 as one object. The
      decoded fields are grouped as one Snapshot and the six `...Old` shadows
      as one StatusFlags. */
  class AirPodsProGen2 {
    var current: Snapshot
    var shadows: StatusFlags
    var leftBatteryOld: Option<seq<Byte>>
    var rightBatteryOld: Option<seq<Byte>>
    var caseBatteryOld: Option<seq<Byte>>
    var isModelSet: bool
    var isModelIconSet: bool
    var isModelLowBatteryThresholdSet: bool

    /** The icon URIs `resToUri` resolves. */
    const icons: Icons

    constructor (icons: Icons)
      ensures this.icons == icons
      ensures State() == InitialState()
    {
      this.icons := icons;
      current := Snapshot(false, 0, 0, 0, 0, false, false, false, false, false, false);
      shadows := StatusFlags(false, false, false, false, false, false);
      leftBatteryOld, rightBatteryOld, caseBatteryOld := None, None, None;
      isModelSet, isModelIconSet, isModelLowBatteryThresholdSet := false, false, false;
    }

    function State(): SyncState
      reads this
    {
      SyncState(current, shadows, leftBatteryOld, rightBatteryOld, caseBatteryOld,
                isModelSet, isModelIconSet, isModelLowBatteryThresholdSet)
    }

    /** `setModelData(data)`: the decoded fields become Decode(data); shadows,
        caches and write-once flags are untouched. */
    method SetModelData(data: seq<Byte>)
      requires |data| >= 8
      modifies this`current
      ensures current == Decode(data)
    {
      var flags, battery, charging := data[5], data[6], data[7];
      var rightLeft := HasBit(flags, FLAG_REVERSED);
      var batteryLeft, batteryRight, chargingLeft, chargingRight;
      if !rightLeft {
        batteryLeft := HighNibble(battery);
        batteryRight := LowNibble(battery);
        chargingLeft := HasBit(charging, MASK_CHARGING_LEFT);
        chargingRight := HasBit(charging, MASK_CHARGING_RIGHT);
      } else {
        batteryLeft := LowNibble(battery);
        batteryRight := HighNibble(battery);
        chargingLeft := HasBit(charging, MASK_CHARGING_RIGHT);
        chargingRight := HasBit(charging, MASK_CHARGING_LEFT);
      }
      var batteryCase := LowNibble(charging);
      var chargingCase := HasBit(charging, MASK_CHARGING_CASE);
      var usingLeft := if rightLeft then HasBit(flags, MASK_USING_LEFT) else HasBit(flags, MASK_USING_RIGHT);
      var usingRight := if rightLeft then HasBit(flags, MASK_USING_RIGHT) else HasBit(flags, MASK_USING_LEFT);
      var chargingMain;
      if chargingLeft && chargingRight {
        chargingMain := true;
      } else {
        chargingMain := false;
      }
      var batteryUnified := Min(batteryLeft, batteryRight) as nat;
      current := Snapshot(rightLeft, batteryLeft, batteryRight, batteryCase, batteryUnified,
                          chargingLeft, chargingRight, chargingCase, chargingMain, usingLeft, usingRight);
    }

    /** `isModelStateChanged()`: true iff one of the six status flags differs
        from its value at the last sync. */
    function IsModelStateChanged(): (changed: bool)
      reads this
      ensures changed <==> Changed(State())
    {
      current.chargingLeft != shadows.chargingLeft || current.chargingRight != shadows.chargingRight
      || current.chargingCase != shadows.chargingCase || current.chargingMain != shadows.chargingMain
      || current.usingLeft != shadows.usingLeft || current.usingRight != shadows.usingRight
    }

    /** `getModelArguments()` */
    function GetModelArguments(): (args: seq<int>)
      reads this
      ensures args == BatteryArguments(current.batteryUnified)
    {
      BatteryArguments(current.batteryUnified)
    }

    /** `setModelMetaData(context, device)`: the store changes only by the
        planned writes (each may fail), and shadows, caches and group flags
        move to AfterSync. */
    method SetModelMetaData(device: Device)
      modifies this, device
      ensures device.attempts == old(device.attempts) + SyncAttempts(old(State()), icons, old(device.metadata))
      ensures SyncApplied(old(State()), icons, old(device.metadata), device.metadata)
      ensures State() == AfterSync(old(State()), device.metadata)
    {
      var next := SyncDevice(device, icons, State());
      Commit(next);
    }

    /** The stores that end `setModelMetaData`: shadows, caches and group flags. */
    method Commit(next: SyncState)
      modifies this
      ensures State() == next
    {
      current, shadows := next.current, next.shadows;
      leftBatteryOld, rightBatteryOld, caseBatteryOld := next.leftBatteryOld, next.rightBatteryOld, next.caseBatteryOld;
      isModelSet, isModelIconSet, isModelLowBatteryThresholdSet := next.isModelSet, next.isModelIconSet, next.isModelLowBatteryThresholdSet;
    }
  }

  /** The body of `setModelMetaData` on the decoder's state st: every field
      the sync reads is read up front and every field it updates is
      returned, so no step reads what another updates. */
  method SyncDevice(device: Device, icons: Icons, st: SyncState) returns (next: SyncState)
    modifies device
    ensures device.attempts == old(device.attempts) + SyncAttempts(st, icons, old(device.metadata))
    ensures SyncApplied(st, icons, old(device.metadata), device.metadata)
    ensures next == AfterSync(st, device.metadata)
  {
    var c, sh := st.current, st.shadows;
    var leftOld, rightOld, caseOld := st.leftBatteryOld, st.rightBatteryOld, st.caseBatteryOld;
    var texts := TextsOf(c);
    ghost var p := PlanFor(c, sh, texts, leftOld, rightOld, caseOld);
    assert p == PlanOf(st);
    ghost var m0, a0 := device.metadata, device.attempts;
    var identitySet := SyncIdentity(device, icons, st.isModelSet);
    ghost var m1 := device.metadata;
    var iconSet := SyncIcons(device, icons, st.isModelIconSet);
    ghost var m2 := device.metadata;
    var thresholdSet := SyncThresholds(device, icons, st.isModelLowBatteryThresholdSet);
    ghost var m3 := device.metadata;
    var left, right, case_ := SyncStatus(device, c, sh, texts, leftOld, rightOld, caseOld);
    assert device.attempts == a0 + SyncAttempts(st, icons, m0) by {
      FillKeepsGroup(Identity, icons, m0, m1, Icon);
      FillKeepsGroup(Identity, icons, m0, m1, Threshold);
      FillKeepsGroup(Icon, icons, m1, m2, Threshold);
      AgreeOnGroup(Icon, st.isModelIconSet, icons, m0, m1);
      AgreeOnGroup(Threshold, st.isModelLowBatteryThresholdSet, icons, m0, m1);
      AgreeOnGroup(Threshold, st.isModelLowBatteryThresholdSet, icons, m1, m2);
      ghost var identity, icon, threshold := FillAttempts(Identity, st.isModelSet, icons, m0),
        FillAttempts(Icon, st.isModelIconSet, icons, m0), FillAttempts(Threshold, st.isModelLowBatteryThresholdSet, icons, m0);
      AppendAssoc(a0, identity, icon);
      AppendAssoc(a0, identity + icon, threshold);
      AppendAssoc(a0, identity + icon + threshold, StatusAttempts(p));
    }
    OnceSteps(st, icons, m0, m1, m2, m3);
    SyncSteps(st, icons, p, m0, m3, device.metadata);
    // Each `if (x != xOld) xOld = x;` in `setModelMetaData` leaves xOld == x.
    next := SyncState(c, c.Flags(), left, right, case_, identitySet, iconSet, thresholdSet);
    StepsReachAfterSync(st, icons, p, m1, m2, m3, device.metadata, next);
  }

  /** The identity group of the sync: with its done flag clear, fill the
      absent keys; returns the new flag. */
  method SyncIdentity(device: Device, icons: Icons, done: bool) returns (nowDone: bool)
    modifies device
    ensures done ==> device.metadata == old(device.metadata)
    ensures FilledFrom(Identity, icons, old(device.metadata), device.metadata)
    ensures device.attempts == old(device.attempts) + FillAttempts(Identity, done, icons, old(device.metadata))
    ensures nowDone == (done || GroupPresent(Identity, device.metadata))
  {
    nowDone := done;
    if !done {
      ghost var m0, a0 := device.metadata, device.attempts;
      var manufacturerSet := FillKey(device, Identity, icons, m0, ManufacturerName);
      var nameSet := FillKey(device, Identity, icons, m0, ModelName);
      var typeSet := FillKey(device, Identity, icons, m0, DeviceType);
      ghost var w1, w2, w3 := OnceAttempt(false, icons, m0, ManufacturerName),
        OnceAttempt(false, icons, m0, ModelName),
        OnceAttempt(false, icons, m0, DeviceType);
      AppendAssoc(a0, w1, w2);
      AppendAssoc(a0, w1 + w2, w3);
      nowDone := manufacturerSet && nameSet && typeSet;
    }
  }

  /** The icon group of the sync. */
  method SyncIcons(device: Device, icons: Icons, done: bool) returns (nowDone: bool)
    modifies device
    ensures done ==> device.metadata == old(device.metadata)
    ensures FilledFrom(Icon, icons, old(device.metadata), device.metadata)
    ensures device.attempts == old(device.attempts) + FillAttempts(Icon, done, icons, old(device.metadata))
    ensures nowDone == (done || GroupPresent(Icon, device.metadata))
  {
    nowDone := done;
    if !done {
      ghost var m0, a0 := device.metadata, device.attempts;
      var mainSet := FillKey(device, Icon, icons, m0, MainIcon);
      var leftSet := FillKey(device, Icon, icons, m0, UntetheredLeftIcon);
      var rightSet := FillKey(device, Icon, icons, m0, UntetheredRightIcon);
      var caseSet := FillKey(device, Icon, icons, m0, UntetheredCaseIcon);
      ghost var w1, w2, w3, w4 := OnceAttempt(false, icons, m0, MainIcon),
        OnceAttempt(false, icons, m0, UntetheredLeftIcon),
        OnceAttempt(false, icons, m0, UntetheredRightIcon),
        OnceAttempt(false, icons, m0, UntetheredCaseIcon);
      AppendAssoc(a0, w1, w2);
      AppendAssoc(a0, w1 + w2, w3);
      AppendAssoc(a0, w1 + w2 + w3, w4);
      nowDone := mainSet && leftSet && rightSet && caseSet;
    }
  }

  /** The low-battery threshold group of the sync. */
  method SyncThresholds(device: Device, icons: Icons, done: bool) returns (nowDone: bool)
    modifies device
    ensures done ==> device.metadata == old(device.metadata)
    ensures FilledFrom(Threshold, icons, old(device.metadata), device.metadata)
    ensures device.attempts == old(device.attempts) + FillAttempts(Threshold, done, icons, old(device.metadata))
    ensures nowDone == (done || GroupPresent(Threshold, device.metadata))
  {
    nowDone := done;
    if !done {
      ghost var m0, a0 := device.metadata, device.attempts;
      var mainSet := FillKey(device, Threshold, icons, m0, MainLowBatteryThreshold);
      var leftSet := FillKey(device, Threshold, icons, m0, UntetheredLeftLowBatteryThreshold);
      var rightSet := FillKey(device, Threshold, icons, m0, UntetheredRightLowBatteryThreshold);
      var caseSet := FillKey(device, Threshold, icons, m0, UntetheredCaseLowBatteryThreshold);
      ghost var w1, w2, w3, w4 := OnceAttempt(false, icons, m0, MainLowBatteryThreshold),
        OnceAttempt(false, icons, m0, UntetheredLeftLowBatteryThreshold),
        OnceAttempt(false, icons, m0, UntetheredRightLowBatteryThreshold),
        OnceAttempt(false, icons, m0, UntetheredCaseLowBatteryThreshold);
      AppendAssoc(a0, w1, w2);
      AppendAssoc(a0, w1 + w2, w3);
      AppendAssoc(a0, w1 + w2 + w3, w4);
      nowDone := mainSet && leftSet && rightSet && caseSet;
    }
  }

  /** One write-once step of group g, continuing the fill since m0: the
      result says whether the key is now present. */
  method FillKey(device: Device, g: Group, icons: Icons, ghost m0: Store, key: Key) returns (present: bool)
    requires FilledFrom(g, icons, m0, device.metadata) && GroupOf(key) == Some(g)
    requires key in device.metadata <==> key in m0
    modifies device
    ensures FilledFrom(g, icons, m0, device.metadata)
    ensures forall k :: k != key ==> (k in device.metadata <==> k in old(device.metadata))
    ensures present <==> key in device.metadata
    ensures device.attempts == old(device.attempts) + OnceAttempt(false, icons, m0, key)
  {
    ghost var mi := device.metadata;
    present := SetIfAbsent(device, key, OnceValue(icons, key));
    FillStep(g, icons, m0, mi, device.metadata, key);
  }

  /** The write-on-change half of the sync, in `setModelMetaData`'s order: left
      in-ear, charging and battery; right likewise; case charging and
      battery; main charging. Returns the new cached texts. A failed write is
      not retried, since the shadows and caches move on whatever
      `setMetadata` returns. */
  method SyncStatus(device: Device, c: Snapshot, sh: StatusFlags, t: BatteryTexts,
                    leftOld: Option<seq<Byte>>, rightOld: Option<seq<Byte>>, caseOld: Option<seq<Byte>>)
    returns (left: Option<seq<Byte>>, right: Option<seq<Byte>>, case_: Option<seq<Byte>>)
    modifies device
    ensures StatusFrom(PlanFor(c, sh, t, leftOld, rightOld, caseOld), old(device.metadata), device.metadata)
    ensures device.attempts == old(device.attempts) + StatusAttempts(PlanFor(c, sh, t, leftOld, rightOld, caseOld))
    ensures left == Some(t.left) && right == Some(t.right) && case_ == Some(t.case_)
  {
    ghost var p := PlanFor(c, sh, t, leftOld, rightOld, caseOld);
    ghost var m0, a0 := device.metadata, device.attempts;
    left, right := SyncEarbuds(device, p, m0, c, sh, t, leftOld, rightOld);
    case_ := SyncCaseAndMain(device, p, m0, c, sh, t, caseOld);
    AppendAssoc(a0, EarbudAttempts(p), CaseAndMainAttempts(p));
  }

  /** The case's writes and then main charging. */
  method SyncCaseAndMain(device: Device, ghost p: StatusPlan, ghost m0: Store, c: Snapshot, sh: StatusFlags, t: BatteryTexts,
                         caseOld: Option<seq<Byte>>)
    returns (case_: Option<seq<Byte>>)
    requires StatusFrom(p, m0, device.metadata)
    requires p.caseCharging == OnChange(c.chargingCase != sh.chargingCase, ChargingText(c.chargingCase))
    requires p.caseBattery == OnChange(caseOld != Some(t.case_), t.case_)
    requires p.mainCharging == OnChange(c.chargingMain != sh.chargingMain, ChargingText(c.chargingMain))
    modifies device
    ensures StatusFrom(p, m0, device.metadata)
    ensures device.attempts == old(device.attempts) + CaseAndMainAttempts(p)
    ensures case_ == Some(t.case_)
  {
    ghost var a0 := device.attempts;
    case_ := SyncPart(device, p, m0, UntetheredCaseCharging, UntetheredCaseBattery,
                      c.chargingCase != sh.chargingCase, c.chargingCase, t.case_, caseOld);
    ghost var m3 := device.metadata;
    WriteOnChange(device, c.chargingMain != sh.chargingMain, MainCharging, ChargingText(c.chargingMain));
    StatusStep(p, m0, m3, device.metadata, MainCharging, ChargingText(c.chargingMain));
    AppendAssoc(a0, PartAttempts(UntetheredCaseCharging, p.caseCharging, UntetheredCaseBattery, p.caseBattery),
                AttemptOf(MainCharging, p.mainCharging));
  }

  /** The left and then the right earbud's writes. */
  method SyncEarbuds(device: Device, ghost p: StatusPlan, ghost m0: Store, c: Snapshot, sh: StatusFlags, t: BatteryTexts,
                     leftOld: Option<seq<Byte>>, rightOld: Option<seq<Byte>>)
    returns (left: Option<seq<Byte>>, right: Option<seq<Byte>>)
    requires StatusFrom(p, m0, device.metadata)
    requires p.leftCharging == OnChange(c.chargingLeft != sh.chargingLeft, ChargingText(c.chargingLeft))
    requires p.rightCharging == OnChange(c.chargingRight != sh.chargingRight, ChargingText(c.chargingRight))
    requires p.leftBattery == OnChange(leftOld != Some(t.left), t.left)
    requires p.rightBattery == OnChange(rightOld != Some(t.right), t.right)
    modifies device
    ensures StatusFrom(p, m0, device.metadata)
    ensures device.attempts == old(device.attempts) + EarbudAttempts(p)
    ensures left == Some(t.left) && right == Some(t.right)
  {
    ghost var a0 := device.attempts;
    left := SyncPart(device, p, m0, UntetheredLeftCharging, UntetheredLeftBattery,
                     c.chargingLeft != sh.chargingLeft, c.chargingLeft, t.left, leftOld);
    right := SyncPart(device, p, m0, UntetheredRightCharging, UntetheredRightBattery,
                      c.chargingRight != sh.chargingRight, c.chargingRight, t.right, rightOld);
    AppendAssoc(a0, PartAttempts(UntetheredLeftCharging, p.leftCharging, UntetheredLeftBattery, p.leftBattery),
                PartAttempts(UntetheredRightCharging, p.rightCharging, UntetheredRightBattery, p.rightBattery));
  }

  /** One earbud's (or the case's) charging write on a transition and
      battery write on a changed text, continuing the writes of p applied
      since m0; returns the new cached text. */
  method SyncPart(device: Device, ghost p: StatusPlan, ghost m0: Store, chargingKey: Key, batteryKey: Key,
                  transition: bool, charging: bool, text: seq<Byte>, cached: Option<seq<Byte>>)
    returns (cache: Option<seq<Byte>>)
    requires StatusFrom(p, m0, device.metadata)
    requires transition ==> PlanWrite(p, chargingKey) == Some(ChargingText(charging))
    requires Some(text) != cached ==> PlanWrite(p, batteryKey) == Some(text)
    modifies device
    ensures StatusFrom(p, m0, device.metadata)
    ensures device.attempts == old(device.attempts)
      + PartAttempts(chargingKey, OnChange(transition, ChargingText(charging)), batteryKey, OnChange(Some(text) != cached, text))
    ensures cache == Some(text)
  {
    ghost var mi, a0 := device.metadata, device.attempts;
    WriteOnChange(device, transition, chargingKey, ChargingText(charging));
    ghost var mj := device.metadata;
    StatusStep(p, m0, mi, mj, chargingKey, ChargingText(charging));
    WriteOnChange(device, Some(text) != cached, batteryKey, text);
    StatusStep(p, m0, mj, device.metadata, batteryKey, text);
    AppendAssoc(a0, AttemptOf(chargingKey, OnChange(transition, ChargingText(charging))),
                AttemptOf(batteryKey, OnChange(Some(text) != cached, text)));
    cache := Some(text);
  }

  /** `if (changed) device.setMetadata(key, value)`, the result of the write ignored. */
  method WriteOnChange(device: Device, changed: bool, key: Key, value: seq<Byte>)
    modifies device
    ensures !changed ==> device.metadata == old(device.metadata)
    ensures changed ==> device.metadata == old(device.metadata) || device.metadata == old(device.metadata)[key := value]
    ensures device.attempts == old(device.attempts) + AttemptOf(key, OnChange(changed, value))
  {
    if changed {
      var _ := device.SetMetadata(key, value);
    }
  }
}
