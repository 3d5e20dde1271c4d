// Per-signal decoders of an OBD2 response payload and the process-wide
// "last value" slot each of them writes.

module Obd2Calculations {

  /** An unsigned 8-bit payload byte (`uint8_t`). */
  type Byte = x: int | 0 <= x < 0x100

  /** A signed 32-bit integer (`int32_t`): the type of every slot and result. */
  type Int32 = x: int | -0x8000_0000 <= x < 0x8000_0000

  /** The payload byte value that the transmission module reports for reverse. */
  const ReverseByte: Byte := 0x10

  /** The slot value that stands for reverse. */
  const ReverseGear: Int32 := -1

  // ---------------------------------------------------------------------
  // The decoding formulas. All operands are non-negative, so the C
  // integer division (truncating toward zero) agrees with Dafny's `/`.
  // ---------------------------------------------------------------------

  /** Engine RPM: the big-endian word of bytes A and B, in quarter revolutions. */
  function EngineRpmValue(a: Byte, b: Byte): (rpm: Int32)
    ensures 0 <= rpm <= 16383
    ensures 4 * rpm <= a * 256 + b < 4 * rpm + 4
  {
    (a * 256 + b) / 4
  }

  /** Currently engaged gear: byte A, except that the reverse byte becomes -1. */
  function GearValue(a: Byte): (gear: Int32)
    ensures gear == ReverseGear <==> a == ReverseByte
    ensures gear != ReverseGear ==> gear == a
    ensures gear == 0 <==> a == 0
    ensures gear != ReverseByte
    ensures -1 <= gear <= 255
  {
    if a == ReverseByte then ReverseGear else a
  }

  /** Atmospheric and boost pressure in mbar: the big-endian word of bytes A and B. */
  function PressureValue(a: Byte, b: Byte): (mbar: Int32)
    ensures 0 <= mbar <= 65535
    ensures mbar / 256 == a && mbar % 256 == b
  {
    a * 256 + b
  }

  /** External temperature in degrees Celsius: half of byte A, offset by -40. */
  function ExternalTempValue(a: Byte): (celsius: Int32)
    ensures -40 <= celsius <= 87
    ensures 2 * (celsius + 40) <= a <= 2 * (celsius + 40) + 1
  {
    a / 2 - 40
  }

  // ---------------------------------------------------------------------
  // The seven last-value slots, as a value.
  // ---------------------------------------------------------------------

  /** The signals that own a last-value slot. */
  datatype Signal =
    | EngineRpm
    | Gear
    | EngineOilTemp
    | BatteryIbs
    | AtmosphericPressure
    | BoostPressure
    | ExternalTemp

  /** The contents of all seven slots at one moment. */
  datatype Snapshot = Snapshot(
    engineRpm: Int32,
    gear: Int32,
    engineOilTemp: Int32,
    batteryIbs: Int32,
    atmosphericPressure: Int32,
    boostPressure: Int32,
    externalTemp: Int32)

  /** The slots before any decode: every one of them starts at 0. */
  const Initial := Snapshot(0, 0, 0, 0, 0, 0, 0)

  function Slot(s: Snapshot, sig: Signal): Int32
  {
    match sig
    case EngineRpm => s.engineRpm
    case Gear => s.gear
    case EngineOilTemp => s.engineOilTemp
    case BatteryIbs => s.batteryIbs
    case AtmosphericPressure => s.atmosphericPressure
    case BoostPressure => s.boostPressure
    case ExternalTemp => s.externalTemp
  }

  /** `s` with the slot of `sig` overwritten by `v` and every other slot kept. */
  function WithSlot(s: Snapshot, sig: Signal, v: Int32): (t: Snapshot)
    ensures Slot(t, sig) == v
    ensures forall other :: other != sig ==> Slot(t, other) == Slot(s, other)
  {
    match sig
    case EngineRpm => s.(engineRpm := v)
    case Gear => s.(gear := v)
    case EngineOilTemp => s.(engineOilTemp := v)
    case BatteryIbs => s.(batteryIbs := v)
    case AtmosphericPressure => s.(atmosphericPressure := v)
    case BoostPressure => s.(boostPressure := v)
    case ExternalTemp => s.(externalTemp := v)
  }

  /** The last payload index the decoder of `sig` reads, plus one. */
  function MinPayloadLength(sig: Signal): nat
  {
    match sig
    case Gear | BatteryIbs | ExternalTemp => 5
    case _ => 6
  }

  /** The value the decoder of `sig` computes from a payload. */
  function DecodedValue(sig: Signal, payload: seq<Byte>): Int32
    requires |payload| >= MinPayloadLength(sig)
  {
    match sig
    case EngineRpm => EngineRpmValue(payload[4], payload[5])
    case Gear => GearValue(payload[4])
    case EngineOilTemp => payload[5]
    case BatteryIbs => payload[4]
    case AtmosphericPressure => PressureValue(payload[4], payload[5])
    case BoostPressure => PressureValue(payload[4], payload[5])
    case ExternalTemp => ExternalTempValue(payload[4])
  }

  /** The slots after the decoder of `sig` has run on `payload`. */
  function Decoded(s: Snapshot, sig: Signal, payload: seq<Byte>): Snapshot
    requires |payload| >= MinPayloadLength(sig)
  {
    WithSlot(s, sig, DecodedValue(sig, payload))
  }

  // ---------------------------------------------------------------------
  // Properties of the decoders.
  // ---------------------------------------------------------------------

  /** The range of every decoded value, signal by signal. */
  lemma DecodedValueRange(sig: Signal, payload: seq<Byte>)
    requires |payload| >= MinPayloadLength(sig)
    ensures var v := DecodedValue(sig, payload);
      match sig
      case EngineRpm => 0 <= v <= 16383
      case Gear => v == -1 || 0 <= v <= 255
      case EngineOilTemp => 0 <= v <= 255
      case BatteryIbs => 0 <= v <= 255
      case AtmosphericPressure => 0 <= v <= 65535
      case BoostPressure => 0 <= v <= 65535
      case ExternalTemp => -40 <= v <= 87
  {
  }

  /** A decoder reads payload byte 4 (all but oil temperature) and byte 5
      (those with a minimum length of 6) and nothing else. */
  lemma DecodedValueReadsDataBytesOnly(sig: Signal, p: seq<Byte>, q: seq<Byte>)
    requires |p| >= MinPayloadLength(sig) && |q| >= MinPayloadLength(sig)
    requires sig != EngineOilTemp ==> p[4] == q[4]
    requires MinPayloadLength(sig) == 6 ==> p[5] == q[5]
    ensures DecodedValue(sig, p) == DecodedValue(sig, q)
  {
  }

  /** A decode overwrites its own slot and leaves every other slot alone. */
  lemma DecodedChangesOwnSlotOnly(s: Snapshot, sig: Signal, payload: seq<Byte>, other: Signal)
    requires |payload| >= MinPayloadLength(sig)
    ensures Slot(Decoded(s, sig, payload), other) ==
      if other == sig then DecodedValue(sig, payload) else Slot(s, other)
  {
  }

  /** Decoding the same payload twice leaves the same slots as decoding it once. */
  lemma DecodedIdempotent(s: Snapshot, sig: Signal, payload: seq<Byte>)
    requires |payload| >= MinPayloadLength(sig)
    ensures Decoded(Decoded(s, sig, payload), sig, payload) == Decoded(s, sig, payload)
  {
  }

  /** The pressure word splits back into the two bytes it was built from. */
  lemma PressureRoundTrip(a: Byte, b: Byte, c: Byte, d: Byte)
    ensures PressureValue(a, b) == PressureValue(c, d) <==> a == c && b == d
  {
  }

  /** Worked examples: bytes 0x1F 0x40 are 2000 rpm; byte 4 of 0x10, 0x00 and
      0x03 is reverse, neutral and third gear; byte 5 of 0x5A is 90 degrees. */
  lemma DecoderExamples()
    ensures EngineRpmValue(0x1F, 0x40) == 2000
    ensures GearValue(0x10) == -1 && GearValue(0x00) == 0 && GearValue(0x03) == 3
    ensures DecodedValue(EngineOilTemp, [0, 0, 0, 0, 0, 0x5A, 0, 0]) == 90
    ensures PressureValue(0x03, 0xF5) == 1013
    ensures ExternalTempValue(0) == -40 && ExternalTempValue(0xFF) == 87
  {
  }

  // ---------------------------------------------------------------------
  // The slots as process-wide mutable state.
  // ---------------------------------------------------------------------

  /** The `g_*` last-value slots; each `Calc*` method overwrites one of them. */
  class Obd2Signals {
    var engineRpm: Int32
    var gear: Int32
    var engineOilTemp: Int32
    var batteryIbs: Int32
    var atmosphericPressure: Int32
    var boostPressure: Int32
    var externalTemp: Int32

    /** Every slot starts at 0 (so the gear reads as neutral). */
    constructor ()
      ensures Slots() == Initial
    {
      engineRpm, gear, engineOilTemp, batteryIbs := 0, 0, 0, 0;
      atmosphericPressure, boostPressure, externalTemp := 0, 0, 0;
    }

    function Slots(): Snapshot
      reads this
    {
      Snapshot(engineRpm, gear, engineOilTemp, batteryIbs,
               atmosphericPressure, boostPressure, externalTemp)
    }

    method CalcEngineRpm(payload: seq<Byte>) returns (rpm: Int32)
      requires |payload| >= 6
      modifies this`engineRpm
      ensures rpm == EngineRpmValue(payload[4], payload[5])
      ensures Slots() == Decoded(old(Slots()), EngineRpm, payload)
      ensures rpm == engineRpm
    {
      var a: int := payload[4];
      var b: int := payload[5];
      engineRpm := (a * 256 + b) / 4;
      rpm := engineRpm;
    }

    method CalcGear(payload: seq<Byte>) returns (g: Int32)
      requires |payload| >= 5
      modifies this`gear
      ensures g == GearValue(payload[4])
      ensures Slots() == Decoded(old(Slots()), Gear, payload)
      ensures g == gear
    {
      var a: int := payload[4];
      gear := a;
      if gear == ReverseByte {
        gear := ReverseGear;
      }
      g := gear;
    }

    method CalcEngineOilTemp(payload: seq<Byte>) returns (celsius: Int32)
      requires |payload| >= 6
      modifies this`engineOilTemp
      ensures celsius == payload[5]
      ensures Slots() == Decoded(old(Slots()), EngineOilTemp, payload)
      ensures celsius == engineOilTemp
    {
      var b: int := payload[5];
      engineOilTemp := b;
      celsius := engineOilTemp;
    }

    method CalcBatteryIbs(payload: seq<Byte>) returns (percent: Int32)
      requires |payload| >= 5
      modifies this`batteryIbs
      ensures percent == payload[4]
      ensures Slots() == Decoded(old(Slots()), BatteryIbs, payload)
      ensures percent == batteryIbs
    {
      var a: int := payload[4];
      batteryIbs := a;
      percent := batteryIbs;
    }

    method CalcAtmosphericPressure(payload: seq<Byte>) returns (mbar: Int32)
      requires |payload| >= 6
      modifies this`atmosphericPressure
      ensures mbar == PressureValue(payload[4], payload[5])
      ensures Slots() == Decoded(old(Slots()), AtmosphericPressure, payload)
      ensures mbar == atmosphericPressure
    {
      var a: int := payload[4];
      var b: int := payload[5];
      atmosphericPressure := a * 256 + b;
      mbar := atmosphericPressure;
    }

    method CalcBoostPressure(payload: seq<Byte>) returns (mbar: Int32)
      requires |payload| >= 6
      modifies this`boostPressure
      ensures mbar == PressureValue(payload[4], payload[5])
      ensures Slots() == Decoded(old(Slots()), BoostPressure, payload)
      ensures mbar == boostPressure
    {
      var a: int := payload[4];
      var b: int := payload[5];
      boostPressure := a * 256 + b;
      mbar := boostPressure;
    }

    method CalcExternalTemp(payload: seq<Byte>) returns (celsius: Int32)
      requires |payload| >= 5
      modifies this`externalTemp
      ensures celsius == ExternalTempValue(payload[4])
      ensures Slots() == Decoded(old(Slots()), ExternalTemp, payload)
      ensures celsius == externalTemp
    {
      var a: int := payload[4];
      externalTemp := a / 2 - 40;
      celsius := externalTemp;
    }
  }
}
