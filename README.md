# OBD2 signal decoders

A Dafny model of the per-signal decoders of an OBD2-over-CAN poller. Each decoder reads one or two data bytes of an OBD2 response payload. Offset 0 is the length byte, and the signal data starts at offset 4. The decoder turns those bytes into an integer engineering value: engine RPM, currently engaged gear, engine oil temperature, battery state of charge (IBS), atmospheric pressure, boost pressure or external temperature. It stores the value in that signal's process-wide last-value slot (`g_EngineRPM`, `g_Gear`, …) and returns it. The model also covers the label the gear report chooses: "Reverse", the gear number, or "Neutral".

Files:

- `obd2_calculations.dfy` (module `Obd2Calculations`):
  - the decoding formulas as functions over bytes;
  - the seven slots as a `Snapshot` value, with `Decoded`, the state one decode leads to;
  - class `Obd2Signals`. It has one field per `g_*` slot and one method per `Calc*` decoder. Each method changes only its own field (`modifies this`field`) and states its result and the whole new state.
- `gear_display.dfy` (module `GearDisplay`): the three-way gear label, the text written into the report buffer, and the parse back.
- `decimal_text.dfy` (module `DecimalText`): the `%d` rendering of a positive gear number and its inverse.

The payload is a `seq<Byte>`. Each method requires only the indices the C code reads. Gear, IBS and external temperature read index 4, so they need length 5. The others read index 5, so they need length 6. The C integer division truncates toward zero and Dafny's is Euclidean. The two agree here because every dividend is non-negative. Slots and results are typed `Int32`, so every stored value and result is checked to fit `int32_t`; the intermediate sums stay below 65536.

Reverse gear is stored as -1 (OBD2Calculations.h:27, 40). The model follows this code, and `GearValue` proves that -1 is produced for byte 0x10 and for no other byte.

## Model

| member | source | states |
|---|---|---|
| Obd2Calculations.EngineRpmValue | OBD2Calculations.h:10-16 | the RPM is the big-endian word of bytes 4 and 5 divided by 4, rounded down (4·rpm ≤ word < 4·rpm + 4), and lies in [0, 16383] |
| Obd2Calculations.GearValue | OBD2Calculations.h:29-44 | the gear is -1 exactly when byte 4 is 0x10, and otherwise it is byte 4 itself; 0 exactly when byte 4 is 0; never 0x10; in {-1} ∪ [0, 255] |
| Obd2Calculations.PressureValue | OBD2Calculations.h:123-129 | the pressure in mbar is in [0, 65535] and splits back into its bytes: value / 256 is byte 4 and value % 256 is byte 5 |
| Obd2Calculations.ExternalTempValue | OBD2Calculations.h:161-166 | the temperature lies in [-40, 87] and is byte 4 halved (rounded down) minus 40: 2·(t+40) ≤ byte 4 ≤ 2·(t+40)+1 |
| Obd2Calculations.DecodedValueRange | OBD2Calculations.h:10-166 | the range of each decoder's result: RPM [0, 16383]; gear -1 or [0, 255]; oil temperature and IBS [0, 255]; both pressures [0, 65535]; external temperature [-40, 87] |
| Obd2Calculations.DecodedValueReadsDataBytesOnly | OBD2Calculations.h:10-166 | two payloads that agree on the bytes a decoder reads (4 where it reads 4, 5 where it reads 5) decode to the same value |
| Obd2Calculations.DecodedChangesOwnSlotOnly | OBD2Calculations.h:8-165 | after a decode the decoder's own slot holds its value and every other slot keeps its old value |
| Obd2Calculations.DecodedIdempotent | OBD2Calculations.h:8-165 | decoding the same payload twice leaves the same slots as decoding it once |
| Obd2Calculations.PressureRoundTrip | OBD2Calculations.h:142-148 | two byte pairs give the same pressure word if and only if they are the same pair |
| Obd2Calculations.DecoderExamples | OBD2Calculations.h:10-166 | bytes 0x1F 0x40 give 2000 rpm; gear bytes 0x10, 0x00 and 0x03 give -1, 0 and 3; oil byte 0x5A gives 90 °C; 0x03 0xF5 gives 1013 mbar; external temperature runs from -40 to 87 |
| Obd2Calculations.Obd2Signals.constructor | OBD2Calculations.h:8-159 | every slot starts at 0 |
| Obd2Calculations.Obd2Signals.CalcEngineRpm | OBD2Calculations.h:8-16 | returns `EngineRpmValue` of bytes 4 and 5, stores it in the RPM slot and leaves every other slot unchanged |
| Obd2Calculations.Obd2Signals.CalcGear | OBD2Calculations.h:27-44 | stores byte 4 and then rewrites the reverse byte to -1; returns `GearValue` of byte 4, which is also the new gear slot; no other slot changes |
| Obd2Calculations.Obd2Signals.CalcEngineOilTemp | OBD2Calculations.h:66-73 | returns byte 5 (°C), stores it in the oil temperature slot and leaves every other slot unchanged |
| Obd2Calculations.Obd2Signals.CalcBatteryIbs | OBD2Calculations.h:85-92 | returns byte 4 (%), stores it in the IBS slot and leaves every other slot unchanged |
| Obd2Calculations.Obd2Signals.CalcAtmosphericPressure | OBD2Calculations.h:121-129 | returns `PressureValue` of bytes 4 and 5, stores it in the atmospheric pressure slot and leaves every other slot unchanged |
| Obd2Calculations.Obd2Signals.CalcBoostPressure | OBD2Calculations.h:140-148 | returns `PressureValue` of bytes 4 and 5, stores it in the boost pressure slot and leaves every other slot unchanged |
| Obd2Calculations.Obd2Signals.CalcExternalTemp | OBD2Calculations.h:159-166 | returns `ExternalTempValue` of byte 4, stores it in the external temperature slot and leaves every other slot unchanged |
| GearDisplay.LabelOf | OBD2Calculations.h:46-57 | the label is Reverse exactly when the slot is -1, the gear number exactly when the slot is positive, and Neutral exactly when the slot is 0 or below -1 |
| GearDisplay.GearText | OBD2Calculations.h:48-56 | the label's text always fits the 32-character report buffer with its terminator |
| GearDisplay.ParseGearTextRoundTrip | OBD2Calculations.h:46-57 | every label's text reads back as that label, so different labels are reported differently |
| GearDisplay.LabelOfDecodedGear | OBD2Calculations.h:27-57 | after a gear decode the label is Reverse for byte 0x10, Neutral for byte 0 and the gear number for every other byte |
| DecimalText.DecimalString | OBD2Calculations.h:56 | the `%d` text of a number is a non-empty string of digits, with no leading zero when the number is positive |
| DecimalText.ParseDecimalString | OBD2Calculations.h:56 | reading back the digits written for n gives n |
| DecimalText.Int32DecimalLength | OBD2Calculations.h:48-56 | a non-negative `int32_t` takes at most ten digits |

## Left out

- `CalcBattery` and `g_Battery` (OBD2Calculations.h:103-115): they divide by the float `10.0f` and convert the float back to `int32_t`. Floating point is not modelled.
- The Fahrenheit conversions in `PrintEngineOilTemp` and `PrintExternalTemp` (OBD2Calculations.h:77, 170): float arithmetic that only feeds printing.
- All `Serial.printf` output of the `Print*` functions: console I/O. Of `PrintGear` only the label choice and the text put into its buffer are modelled.
- Raw-pointer access `pData[i]`: modelled as indexing a sequence whose length covers the indices read, not as C pointer semantics.
- The CAN transport, the request-frame encoder, response validation, the PID registry and the poll loop are not part of this model. Their source is not among the files modelled.
