/**
  AirPodsUtils: the model code read from bytes 3 and 4 of a payload, and the
  dispatch of the four decoder operations to the decoder that code selects.
  Only the AirPods Pro (2nd generation) decoder and the generic fallback are
  part of this model; the four other decoders are represented by what they
  report, which the caller supplies.
 */
module AirPodsUtils {
  import opened Wrappers
  import opened Bytes
  import opened Metadata
  import opened Battery
  import ProGen2
  import GenericModel

  // ----- the model code -----

  /** `"" + n` for a nibble: one digit below 10, otherwise '1' and a digit. */
  lemma NibbleText(n: nat)
    requires n < 16
    ensures IntString(n) == if n < 10 then [Digit(n)] else ['1', Digit(n - 10)]
  {
    if n >= 10 {
      assert NatString(n) == NatString(n / 10) + [Digit(n % 10)];
    }
  }

  /** `model`: the decimal texts of the high and low nibbles of byte 3, then of byte 4. */
  function ModelCode(b3: Byte, b4: Byte): (code: string)
    ensures 4 <= |code| <= 8
  {
    NibbleText(HighNibble(b3));
    NibbleText(LowNibble(b3));
    NibbleText(HighNibble(b4));
    NibbleText(LowNibble(b4));
    IntString(HighNibble(b3)) + IntString(LowNibble(b3)) + IntString(HighNibble(b4)) + IntString(LowNibble(b4))
  }

  /** `modelPartial`: the decimal text of the low nibble of byte 3. */
  function ModelPartial(b3: Byte): (partial: string)
    ensures IntValue(partial) == LowNibble(b3)
  {
    IntStringRoundTrip(LowNibble(b3));
    IntString(LowNibble(b3))
  }

  /** A byte is its two nibbles. */
  lemma NibblesMakeByte(b: Byte)
    ensures HighNibble(b) * 16 + LowNibble(b) == b as int
  {
  }

  /** The codes of a nibble that prints as one digit and of one that prints
      as two can be told apart by their first character. */
  lemma NibbleTextShape(n: nat)
    requires n < 16
    ensures 1 <= |IntString(n)| <= 2
    ensures |IntString(n)| == 2 <==> IntString(n)[0] == '1' && n >= 10
    ensures IntValue(IntString(n)) == n
  {
    NibbleText(n);
    IntStringRoundTrip(n);
  }

  /** The four nibbles of a code, and the code cut back into their texts. */
  lemma CodeParts(b3: Byte, b4: Byte)
    ensures var a, b, c, d := IntString(HighNibble(b3)), IntString(LowNibble(b3)),
                              IntString(HighNibble(b4)), IntString(LowNibble(b4));
      var code := ModelCode(b3, b4);
      && a == code[..|a|] && b == code[|a|..|a| + |b|] && c == code[|a| + |b|..|a| + |b| + |c|]
      && d == code[|a| + |b| + |c|..]
  {
    var a, b, c, d := IntString(HighNibble(b3)), IntString(LowNibble(b3)),
                      IntString(HighNibble(b4)), IntString(LowNibble(b4));
    var code := ModelCode(b3, b4);
    assert code == a + b + c + d;
    assert code[..|a|] == a;
    assert code[|a|..|a| + |b|] == b;
    assert code[|a| + |b|..|a| + |b| + |c|] == c;
    assert code[|a| + |b| + |c|..] == d;
  }

  /** A four-character code has four one-digit nibbles. */
  lemma ShortCodeBytes(b3: Byte, b4: Byte)
    requires |ModelCode(b3, b4)| == 4
    ensures var code := ModelCode(b3, b4);
      && HighNibble(b3) == IntValue(code[0..1]) && LowNibble(b3) == IntValue(code[1..2])
      && HighNibble(b4) == IntValue(code[2..3]) && LowNibble(b4) == IntValue(code[3..4])
  {
    NibbleTextShape(HighNibble(b3));
    NibbleTextShape(LowNibble(b3));
    NibbleTextShape(HighNibble(b4));
    NibbleTextShape(LowNibble(b4));
    CodeParts(b3, b4);
  }

  // ----- the five codes the dispatcher knows -----

  const CODE_AIRPODS := "0220"
  const CODE_AIRPODS_GEN2 := "01520"
  const CODE_AIRPODS_GEN3 := "1320"
  const CODE_AIRPODS_PRO := "01420"
  const CODE_AIRPODS_PRO_GEN2 := "1420"

  /** The decoders the dispatcher chooses between. */
  datatype Decoder = AirPods | AirPodsGen2 | AirPodsGen3 | AirPodsPro | AirPodsProGen2 | Generic

  const KNOWN_CODES := {CODE_AIRPODS, CODE_AIRPODS_GEN2, CODE_AIRPODS_GEN3, CODE_AIRPODS_PRO, CODE_AIRPODS_PRO_GEN2}

  /** The code of the `case` label that selects decoder d. */
  function CodeOf(d: Decoder): string
    requires d != Generic
  {
    match d
    case AirPods => CODE_AIRPODS
    case AirPodsGen2 => CODE_AIRPODS_GEN2
    case AirPodsGen3 => CODE_AIRPODS_GEN3
    case AirPodsPro => CODE_AIRPODS_PRO
    case AirPodsProGen2 => CODE_AIRPODS_PRO_GEN2
  }

  /** The `switch (model)` of the four dispatchers: a known code selects the
      decoder of its `case` label, any other code the generic one. */
  function DecoderFor(code: string): (d: Decoder)
    ensures d != Generic ==> code == CodeOf(d)
    ensures d == Generic <==> code !in KNOWN_CODES
  {
    if code == CODE_AIRPODS then AirPods
    else if code == CODE_AIRPODS_GEN2 then AirPodsGen2
    else if code == CODE_AIRPODS_GEN3 then AirPodsGen3
    else if code == CODE_AIRPODS_PRO then AirPodsPro
    else if code == CODE_AIRPODS_PRO_GEN2 then AirPodsProGen2
    else Generic
  }

  /** Each known code comes from exactly one pair of model bytes. */
  lemma {:induction false} KnownCodesFromBytes(b3: Byte, b4: Byte)
    ensures ModelCode(b3, b4) == CODE_AIRPODS <==> b3 == 0x02 && b4 == 0x20
    ensures ModelCode(b3, b4) == CODE_AIRPODS_GEN3 <==> b3 == 0x13 && b4 == 0x20
    ensures ModelCode(b3, b4) == CODE_AIRPODS_PRO_GEN2 <==> b3 == 0x14 && b4 == 0x20
    ensures ModelCode(b3, b4) == CODE_AIRPODS_GEN2 <==> b3 == 0x0F && b4 == 0x20
    ensures ModelCode(b3, b4) == CODE_AIRPODS_PRO <==> b3 == 0x0E && b4 == 0x20
  {
    var code := ModelCode(b3, b4);
    NibblesMakeByte(b3);
    NibblesMakeByte(b4);
    if |code| == 4 {
      ShortCodeBytes(b3, b4);
    } else if |code| == 5 {
      LongCodeBytes(b3, b4);
    }
  }

  /** Which decoder a payload's model bytes select: each known decoder for
      exactly one pair of bytes, the generic one for every other pair. */
  lemma DispatchByBytes(b3: Byte, b4: Byte)
    ensures DecoderFor(ModelCode(b3, b4)) == AirPods <==> b3 == 0x02 && b4 == 0x20
    ensures DecoderFor(ModelCode(b3, b4)) == AirPodsGen2 <==> b3 == 0x0F && b4 == 0x20
    ensures DecoderFor(ModelCode(b3, b4)) == AirPodsGen3 <==> b3 == 0x13 && b4 == 0x20
    ensures DecoderFor(ModelCode(b3, b4)) == AirPodsPro <==> b3 == 0x0E && b4 == 0x20
    ensures DecoderFor(ModelCode(b3, b4)) == AirPodsProGen2 <==> b3 == 0x14 && b4 == 0x20
    ensures DecoderFor(ModelCode(b3, b4)) == Generic <==> b4 != 0x20 || b3 !in {0x02, 0x0F, 0x13, 0x0E, 0x14}
  {
    KnownCodesFromBytes(b3, b4);
  }

  /** A five-character code "01x20" with x other than 1: the 1 opens the
      two-digit low nibble of byte 3. */
  lemma LongCodeBytes(b3: Byte, b4: Byte)
    requires |ModelCode(b3, b4)| == 5
    ensures var code := ModelCode(b3, b4);
      code[0] == '0' && code[1] == '1' && code[2] != '1' && code[3] == '2' && code[4] == '0' ==>
        HighNibble(b3) == 0 && LowNibble(b3) == IntValue(code[1..3]) && HighNibble(b4) == 2 && LowNibble(b4) == 0
  {
    var code := ModelCode(b3, b4);
    var a, b, c, d := IntString(HighNibble(b3)), IntString(LowNibble(b3)),
                      IntString(HighNibble(b4)), IntString(LowNibble(b4));
    NibbleTextShape(HighNibble(b3));
    NibbleTextShape(LowNibble(b3));
    NibbleTextShape(HighNibble(b4));
    NibbleTextShape(LowNibble(b4));
    CodeParts(b3, b4);
    if code[0] == '0' && code[1] == '1' && code[2] != '1' && code[3] == '2' && code[4] == '0' {
      assert |a| == 1 && a == "0";
      assert |b| == 2 && b == code[1..3];
      assert c == "2" && d == "0";
    }
  }

  /** The code does not always determine the bytes: 0xB1 0x11 and 0x1B 0x11
      both print as "11111". None of the five known codes is affected. */
  lemma CodeIsAmbiguous()
    ensures ModelCode(0xB1, 0x11) == ModelCode(0x1B, 0x11) == "11111"
  {
    assert HighNibble(0xB1) == 11 && LowNibble(0xB1) == 1;
    assert HighNibble(0x1B) == 1 && LowNibble(0x1B) == 11;
    assert HighNibble(0x11) == 1 && LowNibble(0x11) == 1;
    NibbleText(11);
    NibbleText(1);
  }

  /** Every known decoder is selected by its own code. */
  lemma DispatchRoundTrip(d: Decoder)
    requires d != Generic
    ensures DecoderFor(CodeOf(d)) == d
  {
  }

  /** What `setModelMetaData` does with decoder d selected, between the values
      before (0) and after (1) of the AirPods Pro (2nd generation) decoder's
      state st, the generic decoder's threshold flag, the device's store and
      its log of `setMetadata` calls. A decoder outside this model makes the
      calls `writes` its caller supplies, each accepted or refused by the
      store. */
  ghost predicate Synced(d: Decoder, icons: ProGen2.Icons, writes: seq<Write>,
                         st0: ProGen2.SyncState, flag0: bool, m0: Store, log0: seq<Write>,
                         st1: ProGen2.SyncState, flag1: bool, m1: Store, log1: seq<Write>)
  {
    match d
    case AirPodsProGen2 =>
      && log1 == log0 + ProGen2.SyncAttempts(st0, icons, m0)
      && ProGen2.SyncApplied(st0, icons, m0, m1)
      && st1 == ProGen2.AfterSync(st0, m1)
      && flag1 == flag0
    case Generic =>
      && log1 == log0 + GenericModel.ThresholdAttempts(flag0, m0)
      && (m1 == m0 || (log1 != log0 && m1 == m0[MainLowBatteryThreshold := LOW_BATTERY_THRESHOLD]))
      && flag1 == (flag0 || MainLowBatteryThreshold in m1)
      && st1 == st0
    case _ =>
      && log1 == log0 + writes
      && (exists oks: seq<bool> :: |oks| == |writes| && m1 == Applied(m0, writes, oks))
      && st1 == st0
      && flag1 == flag0
  }

  /** What a decoder outside this model reports to the dispatcher: its change
      flag, its argument list and the `setMetadata` calls its sync makes. */
  datatype OtherReply = OtherReply(changed: bool, arguments: seq<int>, writes: seq<Write>)

  /** The static state of AirPodsUtils, with the two modelled decoders it
      dispatches to. `model` and `modelPartial` are None until the first
      setModel, as Java's null. */
  class ModelRegistry {
    var model: Option<string>
    var modelPartial: Option<string>
    const proGen2: ProGen2.AirPodsProGen2
    const generic: GenericModel.Generic

    constructor (proGen2: ProGen2.AirPodsProGen2, generic: GenericModel.Generic)
      ensures model == None && modelPartial == None
      ensures this.proGen2 == proGen2 && this.generic == generic
    {
      model, modelPartial := None, None;
      this.proGen2, this.generic := proGen2, generic;
    }

    /** The decoder the current model code selects. */
    function Selected(): (d: Decoder)
      requires model.Some?
      reads this
    {
      DecoderFor(model.value)
    }

    /** `setModel(data)`: the model code and its partial from bytes 3 and 4. */
    method SetModel(data: seq<Byte>)
      requires |data| >= 5
      modifies this`model, this`modelPartial
      ensures model == Some(ModelCode(data[3], data[4]))
      ensures modelPartial == Some(ModelPartial(data[3]))
    {
      model := Some(ModelCode(data[3], data[4]));
      modelPartial := Some(ModelPartial(data[3]));
    }

    /** `setModelData(data)`: the selected decoder decodes the payload. The
        state of the decoders outside this model is not modelled. A switch
        on a null model throws in Java; here the model must be set. */
    method SetModelData(data: seq<Byte>)
      requires model.Some? && |data| >= 8
      modifies proGen2`current, generic`levels
      ensures Selected() == AirPodsProGen2 ==> proGen2.current == ProGen2.Decode(data)
      ensures Selected() != AirPodsProGen2 ==> proGen2.current == old(proGen2.current)
      ensures Selected() == Generic ==> generic.levels == GenericModel.DecodeLevels(data[5], data[6])
      ensures Selected() != Generic ==> generic.levels == old(generic.levels)
    {
      match Selected()
      case AirPodsProGen2 => proGen2.SetModelData(data);
      case Generic => generic.SetModelData(data);
      case _ =>
    }

    /** `isModelStateChanged()`: the default branch answers false itself. */
    function IsModelStateChanged(other: OtherReply): (changed: bool)
      requires model.Some?
      reads this, proGen2
      ensures Selected() == AirPodsProGen2 ==> (changed <==> ProGen2.Changed(proGen2.State()))
      ensures Selected() == Generic ==> !changed
      ensures Selected() != AirPodsProGen2 && Selected() != Generic ==> changed == other.changed
    {
      match Selected()
      case AirPodsProGen2 => proGen2.IsModelStateChanged()
      case Generic => false
      case _ => other.changed
    }

    /** `getModelArguments()` */
    function GetModelArguments(other: OtherReply): (args: seq<int>)
      requires model.Some?
      reads this, proGen2, generic
      ensures Selected() == AirPodsProGen2 ==> args == BatteryArguments(proGen2.current.batteryUnified)
      ensures Selected() == Generic ==> args == BatteryArguments(generic.levels.batteryUnified)
      ensures Selected() != AirPodsProGen2 && Selected() != Generic ==> args == other.arguments
    {
      match Selected()
      case AirPodsProGen2 => proGen2.GetModelArguments()
      case Generic => generic.GetModelArguments()
      case _ => other.arguments
    }

    /** `setModelMetaData(context, device)`: the selected decoder syncs the
        device's metadata; a decoder outside this model makes the calls
        `other` lists. */
    method SetModelMetaData(device: Device, other: OtherReply)
      requires model.Some?
      modifies proGen2, generic`isModelLowBatteryThresholdSet, device
      ensures Synced(Selected(), proGen2.icons, other.writes,
                     old(proGen2.State()), old(generic.isModelLowBatteryThresholdSet), old(device.metadata), old(device.attempts),
                     proGen2.State(), generic.isModelLowBatteryThresholdSet, device.metadata, device.attempts)
    {
      match Selected()
      case AirPodsProGen2 => proGen2.SetModelMetaData(device);
      case Generic => generic.SetModelMetaData(device);
      case _ => var _ := SetAllMetadata(device, other.writes);
    }
  }
}
