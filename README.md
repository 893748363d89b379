# MCP3421 driver: configuration bit fields and sample decoding

This project models two parts of a MicroPython driver for the Microchip
MCP3421, an 18-bit delta-sigma ADC on I2C, and proves properties about them.

- **The bit-field codec** of `sensor_pack_2/bitfield.py`, in module
  `BitField`. A `BitFields` object holds a tuple of field descriptors
  (name, bit position range, optional range of valid values), an active
  field name, a stored source value and an iterator cursor. It looks up
  fields by index or name, writes a value into a field's bits, and reads a
  field's value back. A one-bit field reads as a `bool`.
- **The MCP3421 configuration and sample engine** of `mcp3421mod.py`, in
  module `Mcp3421Mod`. The device's configuration byte has five fields:
  RDY at bit 7, CH at bits 5-6, CCM at bit 4, SampleRate at bits 2-3 and
  PGA at bits 0-1. The driver decodes that byte into its state: data
  ready, single-shot mode, raw gain and raw data rate. It encodes the state
  back into the byte, decides whether data is ready, and turns the
  received bytes into a signed sample. Below rate 3 the sample is the
  16-bit two's-complement reading of two bytes. At rate 3 it is the 24-bit
  two's-complement reading of three bytes. That lies in the 18-bit range
  when the first byte sign-extends an 18-bit value (`EighteenBitRange`).

Python's integers and bit operators (`&`, `|`, `& ~`, `<<`, `>>`) are
modelled on `nat`, in module `Bits`. Each operator is defined by recursion
on binary digits and is characterised digit by digit. `Wrappers` holds
`Option`, `Result` and an `Error` type. `Error` names the exceptions the
Python code raises (`ValueError` from `check_value`, `IndexError`, the
`AttributeError` of a `None` field, and so on).

The classes follow the Python objects:

- `BitField.BitFields` has the fields `fieldsInfo`, `activeFieldName`,
  `sourceVal` and `idx`. The methods that read state are tied to pure
  specification functions (`Lookup`, `Resolve`, `SetOutcome`, `GetOutcome`,
  `IterStep`), and the lemmas are proved about those functions.
- `Mcp3421Mod.Mcp3421` holds a `BitFields` over the configuration layout,
  the 4-byte receive buffer `buf4` as an `array`, and the four state
  fields. Each operation's new state is stated against a pure function of
  the configuration byte: `DecodeConfig`, `ConfigByte`, `ReportedReady` or
  `DecodeSample`.

Bus reads are not modelled. The 4 bytes the device answers with are passed
in as a `response` parameter, and `GetRawConfig` copies them into `buf4`
as `read_to_buf` would.

`Mcp3421Mod.Answer9CScenario` is an example method with no contract of its
own. It takes a device that answers with the configuration byte `0x9C`.
That byte has bit 4 (CCM) set, so by the code's decoding it means
continuous conversion, 18-bit resolution, gain 1 and stale data. The
example then selects single-shot mode, rate 2 and gain 1, and its
assertions show that the driver encodes `0x89`.

## Model

| member | source | states |
|---|---|---|
| BitField.BitmaskIsDifference | sensor_pack_2/bitfield.py:15-19 | the sum of `2 ** x` over `range(start, stop)` is `2**stop - 2**start`, and 0 for an empty range |
| BitField.Bitmask | sensor_pack_2/bitfield.py:15-19 | `_bitmask`: the mask is 0 exactly when the range is empty, and it lies below `2**stop` |
| BitField.BitOfBitmask | sensor_pack_2/bitfield.py:15-19 | the mask has exactly the bits `start .. stop-1` set |
| BitField.InsertKeepsOtherBits | sensor_pack_2/bitfield.py:91-93 | after a write, every bit outside the field's mask equals the source's bit |
| BitField.InsertKeepsDisjointField | sensor_pack_2/bitfield.py:91-93 | writing one field leaves the bits of any field with a disjoint position unchanged |
| BitField.InsertStaysInWidth | sensor_pack_2/bitfield.py:91-93 | writing a field inside the low n bits of an n-bit source gives an n-bit result (a byte stays a byte) |
| BitField.InsertThenFieldBitsMasked | sensor_pack_2/bitfield.py:91-108 | reading a field back after a write gives `value & (mask >> start)`: only the value's low bits survive |
| BitField.InsertThenFieldBits | sensor_pack_2/bitfield.py:91-108 | reading a field back after a write gives `value mod 2**width` |
| BitField.InsertThenExtract | sensor_pack_2/bitfield.py:91-113 | a value that fits the field reads back unchanged: as `value != 0` for a one-bit field, as the number otherwise |
| BitField.FieldBitsIsDivMod | sensor_pack_2/bitfield.py:106-108 | `(source & mask) >> start` equals `(source // 2**start) % 2**width` |
| BitField.ExtractShape | sensor_pack_2/bitfield.py:108-113 | get_field_value gives a bool exactly when the field is one bit wide; otherwise a number below `2**width` |
| BitField.FirstNamed | sensor_pack_2/bitfield.py:62-67 | no result exactly when no descriptor has the name; otherwise a descriptor of the tuple with that name |
| BitField.BitFields.ByName | sensor_pack_2/bitfield.py:62-67 | the loop returns the first descriptor with the name, or None |
| BitField.BitFields.GetItem | sensor_pack_2/bitfield.py:72-78 | an integer key succeeds exactly for `-len .. len-1` (negative indices count from the end) and fails with IndexError otherwise; a name key never fails, and gives None exactly when no field has that name |
| BitField.BitFields.GetField | sensor_pack_2/bitfield.py:33-35 | the descriptor chosen by the key, falling back to the active field name when the key is missing or falsy |
| BitField.SourceOf | sensor_pack_2/bitfield.py:37-38 | `_get_source`: a truthy explicit source is used; a missing or zero source falls back to the stored value |
| BitField.FalsyArgumentsFallBack | sensor_pack_2/bitfield.py:33-38 | index 0 and the empty name fall back to the active field name, and an explicit source of 0 falls back to the stored value |
| BitField.UnknownName | sensor_pack_2/bitfield.py:62-105 | for a name no field has, lookup gives None, get_field_value raises the "field does not exist" ValueError, and set_field_value fails on the missing descriptor |
| BitField.ValidationRejects | sensor_pack_2/bitfield.py:87-89 | with validation on, a value outside a checked field's valid range is rejected with a ValueError naming "value", whatever the source |
| BitField.BitFields.SetFieldValue | sensor_pack_2/bitfield.py:80-98 | the result is the source with the field's bits replaced; the stored value changes only when no source was passed and the write succeeded |
| BitField.BitFields.GetFieldValue | sensor_pack_2/bitfield.py:100-113 | the active field's bits of the stored value, with the error cases: unknown name, and validation requested on a checked field |
| BitField.BitFields.SetSource | sensor_pack_2/bitfield.py:45-48 | the source setter replaces the stored value and nothing else |
| BitField.BitFields.SetFieldName | sensor_pack_2/bitfield.py:56-60 | the field_name setter replaces the active name and nothing else |
| BitField.BitFields.constructor | sensor_pack_2/bitfield.py:25-31 | the descriptors are kept, the cursor is 0, the active name is the first field's name and the stored value is 0 |
| BitField.BitFields.Next | sensor_pack_2/bitfield.py:119-126 | yields the descriptor at the cursor and advances it; past the end it yields nothing and resets the cursor to 0 |
| BitField.PullsFrom | sensor_pack_2/bitfield.py:119-126 | n pulls from a cursor that stays within the tuple yield the next n descriptors in order |
| BitField.PullsSplit | sensor_pack_2/bitfield.py:119-126 | the pull after the last descriptor yields nothing and rewinds the cursor to 0 |
| BitField.FullIteration | sensor_pack_2/bitfield.py:119-126 | a full pass yields every descriptor in order, then stops and leaves the cursor at 0 so iteration can restart |
| Mcp3421Mod.ConfigLayoutPartitionsByte | mcp3421mod.py:30-35 | the five fields of the configuration layout are pairwise disjoint and together cover exactly bits 0-7 |
| Mcp3421Mod.ConfigLayoutLookup | mcp3421mod.py:30-35 | looking up RDY, CCM, SampleRate and PGA by name finds their own descriptors |
| Mcp3421Mod.ComposeByte | mcp3421mod.py:30-35 | a byte assembled from in-range field values is below 256, and positional division gives back each field value |
| Mcp3421Mod.ByteFromFields | mcp3421mod.py:30-35 | every byte is the sum of its five fields placed at their positions |
| Mcp3421Mod.FieldsOfByte | mcp3421mod.py:30-35 | on a byte, each layout field's bits are the byte's positional digits |
| Mcp3421Mod.GetResolution | mcp3421mod.py:39-42 | the raw data rate is one of 0-3 exactly when the resolution is 12, 14, 16 or 18 bits |
| Mcp3421Mod.ResolutionTable | mcp3421mod.py:39-42 | raw data rates 0-3 give 12, 14, 16 and 18 bits |
| Mcp3421Mod.SampleRateQuarterHz | mcp3421mod.py:131-134 | indices -4 .. 3 succeed (Python tuple indexing) and others raise IndexError; a successful rate is 960 / 4**k quarter-hertz, i.e. 240, 60, 15 and 3.75 SPS |
| Mcp3421Mod.GainRawToReal | mcp3421mod.py:136-138 | the gain is at least 1, and it is even exactly when the raw gain is positive (a power of two) |
| Mcp3421Mod.GainTable | mcp3421mod.py:136-138 | raw gains 0-3 give gains 1, 2, 4 and 8 |
| Mcp3421Mod.ConversionTimeUs | mcp3421mod.py:140-144 | `1 + int(1e6 / sps)` is the least whole number of microseconds strictly longer than one sampling period |
| Mcp3421Mod.ConversionTimeTable | mcp3421mod.py:131-144 | the four raw rates give 4167, 16667, 66667 and 266667 microseconds |
| Mcp3421Mod.Mcp3421.GetConversionCycleTime | mcp3421mod.py:140-144 | the driver's conversion time for its current raw rate, from that table |
| Mcp3421Mod.CheckGainRaw | mcp3421mod.py:146-150 | accepts exactly 0-3 and returns the value; otherwise a ValueError naming "gain_raw" and the value |
| Mcp3421Mod.CheckDataRateRaw | mcp3421mod.py:152-156 | accepts exactly 0-3 and returns the value; otherwise a ValueError naming "data_rate_raw" and the value |
| Mcp3421Mod.DecodeFields | mcp3421mod.py:104-114 | reading RDY, CCM, PGA and SampleRate with the codec gives the byte's bit 7, bit 4, bits 0-1 and bits 2-3 |
| Mcp3421Mod.ConfigReadsExtract | mcp3421mod.py:104-114 | the four get_field_value calls of the decoder succeed and give the layout's extracted values |
| Mcp3421Mod.ConfigReads | mcp3421mod.py:100-114 | the four reads are two flags and two numbers below 4, and negating the flags gives the state `DecodeConfig` denotes |
| Mcp3421Mod.Mcp3421.RawConfigToAdcProperties | mcp3421mod.py:100-114 | the driver's state becomes the decoded byte; the codec is left holding the byte with SampleRate active |
| Mcp3421Mod.WriteByteField | sensor_pack_2/bitfield.py:91-93 | writing a fitting value into a field of a byte gives a byte, the field reads back the value, and every disjoint field is kept |
| Mcp3421Mod.ConfigSetOutcome | mcp3421mod.py:166-173 | each validated set_field_value of the encoder succeeds and writes the field |
| Mcp3421Mod.EncodeFieldBits | mcp3421mod.py:162-176 | after the four writes, CCM is `not single_shot`, RDY is `single_shot`, SampleRate and PGA are the current raw values, and CH keeps the bits read from the device |
| Mcp3421Mod.EncodeFields | mcp3421mod.py:162-176 | the four chained writes give exactly the byte `ConfigByte` describes |
| Mcp3421Mod.ConfigWrites | mcp3421mod.py:162-176 | the four set_field_value outcomes of the encoder all succeed, and the stored value ends as that byte |
| Mcp3421Mod.Mcp3421.AdcPropertiesToRawConfig | mcp3421mod.py:158-176 | returns and stores the byte that encodes the current state over the byte just read; the driver's state and the codec's iterator cursor are unchanged |
| Mcp3421Mod.RoundTrip | mcp3421mod.py:100-176 | decoding an encoded byte gives back single-shot mode, rate and gain, with data ready exactly in continuous mode |
| Mcp3421Mod.EncodeDecoded | mcp3421mod.py:100-176 | re-encoding the state decoded from a byte gives back the byte, except that RDY becomes the single-shot flag |
| Mcp3421Mod.ReportedReady | mcp3421mod.py:178-194 | the `data_ready` property: true whenever the decoded flag is, and otherwise exactly in continuous mode at a rate other than 3 |
| Mcp3421Mod.ReadyFromConfigByte | mcp3421mod.py:178-194 | data_ready holds exactly when RDY is clear, or when in continuous mode at a rate below 3, whatever RDY says |
| Mcp3421Mod.DecodeSample | mcp3421mod.py:123-128 | below rate 3, the 16-bit two's-complement reading of two big-endian bytes; at rate 3, a signed first byte and two unsigned ones, which is the 24-bit two's-complement reading |
| Mcp3421Mod.SampleExamples | mcp3421mod.py:123-128 | concrete decodes: 0x7FFF gives 32767, 0x8000 gives -32768, and 0xFFFFFF gives -1 at rate 3 |
| Mcp3421Mod.SampleRoundTrip | mcp3421mod.py:116-129 | every sample in the configured resolution's signed range is recovered from the bytes the device sends for it |
| Mcp3421Mod.TwoByteSample | mcp3421mod.py:124-126 | the `'h'` unpack of the two big-endian bytes of a 16-bit two's-complement value gives that value |
| Mcp3421Mod.ThreeByteSample | mcp3421mod.py:127-128 | `65536*b0 + 256*b1 + b2` with `b0` signed gives back the 24-bit two's-complement value the three bytes encode |
| Mcp3421Mod.EighteenBitRange | mcp3421mod.py:127-128 | when the first byte sign-extends an 18-bit value, the decoded sample lies in the 18-bit range |
| Mcp3421Mod.Mcp3421.GetRawConfig | mcp3421mod.py:88-94 | the 4 bytes received land in the buffer, and the last of them is returned |
| Mcp3421Mod.Mcp3421.constructor | mcp3421mod.py:44-79 | the codec is built over the configuration layout, the buffer holds the answer, and the state is the decoded configuration byte; the codec is left holding that byte with SampleRate active and its cursor at 0 |
| Mcp3421Mod.Mcp3421.SetSingleShotMode | mcp3421mod.py:167-169 | the single-shot flag the encoder reads is set, and the rest of the state is kept |
| Mcp3421Mod.Mcp3421.SetCurrentRawGain | mcp3421mod.py:146-150 | a gain passing check_gain_raw is stored; a rejected one leaves the state unchanged |
| Mcp3421Mod.Mcp3421.SetCurrentSampleRate | mcp3421mod.py:152-156 | a rate passing check_data_rate_raw is stored; a rejected one leaves the state unchanged |
| Mcp3421Mod.Mcp3421.GetRawValue | mcp3421mod.py:116-129 | the buffer holds the answer, the state is refreshed from its configuration byte, and the codec holds that byte with SampleRate active; the sample is returned when data_ready holds, and None otherwise |
| Mcp3421Mod.Mcp3421.Next | mcp3421mod.py:200-204 | single-shot mode yields nothing and leaves the state, the buffer and the codec unchanged; continuous mode yields the reading, with buffer, state and codec as after get_raw_value |

## Left out

- Bus I/O is not modelled: `read_to_buf`, and the write in `set_raw_config` (mcp3421mod.py:96-98). The device's 4-byte answer is a parameter of the methods that read; the byte to write is the result of `AdcPropertiesToRawConfig`.
- The I2C address check, the `DeviceEx` and `ADC` base-class constructors, and `get_init_props` (reference voltage, model name) are not modelled. The base classes are not part of this model.
- `_last_raw_value` and `_differential_mode` are not modelled. Only `__init__` assigns them (mcp3421mod.py:54-55), and no modelled operation reads them.
- The base-class properties `single_shot_mode`, `current_raw_gain` and `current_sample_rate` are modelled as plain fields. Their setters are assumed to validate through `check_gain_raw` and `check_data_rate_raw`. `sample_rate` is assumed to be `raw_sample_rate_to_real(current_sample_rate)`.
- Mcp3421Mod.Mcp3421.Next: yields the raw sample rather than the base class's `value`. Turning the raw sample into a voltage happens in the base class, which is not part of this model.
- Mcp3421Mod.SampleRateQuarterHz: gives rates in quarter-hertz instead of floats, so that 3.75 SPS is exact. `int(1_000_000 / sps)` is modelled by integer division, which gives the same result at these four rates.
- Mcp3421Mod.GainRawToReal: defined on non-negative raw gains only. A negative raw gain, which gives a float in Python, is not modelled.
- Python integers are modelled as `nat`. Negative values and negative explicit sources passed to `set_field_value` are not modelled.
- Field positions and valid-value ranges are modelled as step-1 ranges with non-negative bounds (`FieldInfo(start, stop)`, `Span(lo, hi)`). `_bitmask` sums over any `range` and the one-bit test uses `len(pos)`, so a range with another step or with negative bounds is not modelled.
- `__getitem__` keys are modelled as an index or a name. Keys of other types, for which Python returns None, are not modelled.
- BitField.BitFields.constructor: requires a non-empty descriptor tuple. On an empty one, Python raises IndexError at `fields_info[0]`.
- `__len__` and both `__iter__` methods are not modelled. They return the tuple's length and the object itself, and carry no further behaviour.
- Mcp3421Mod.Mcp3421.RawConfigToAdcProperties: stores the four decoded properties after all four codec reads rather than between them. The reads do not depend on those properties, so the final state is the same.
- CCM's valid range is `range(6)` although the field is one bit wide. The code's range is modelled as written, so a validated write of 2 to 5 passes the check and is then masked to bit 0 (`InsertThenFieldBitsMasked`). The driver itself only writes 0 or 1.
- The layout comment gives PGA gains as 1, 1/2, 1/4 and 1/8. The code's `2 ** raw_gain` is modelled.
- `main.py`, the demonstration program, is not modelled.
