# Kamstrup Multical 302 driver

This project models the wmbusmeters driver for the Kamstrup Multical 302
heat meter in Dafny. It also models the unit and quantity tables the
driver's getters consult.

- `units.dfy` (module `Units`) holds the quantity and unit enumerations and
  the unit table. `IsQuantity` answers "does this unit measure this
  quantity". It is defined by a lookup in the table, and lemmas show that it
  is exactly membership of the pair in the table.
- `telegram.dfy` (module `Telegrams`) holds the part of a telegram the
  driver touches:
  - a `Telegram` class with its payload, its encryption and simulation
    flags, its `content`, and its explanation trail;
  - `addExplanation`, taken to append `(cursor, length, note)` and advance
    the cursor;
  - `Spans`, the records that a chain of such calls appends, with lemmas
    saying the records are contiguous and partition the covered range.
- `multical302.dfy` (module `Multical302`) holds the driver:
  - the little-endian byte formulas and their inverses;
  - `DecodeFrame`, the pure decoding of a content, and `Step`/`Run`, the
    meter state after one content or a sequence of contents;
  - `Trail`, the records decoding appends;
  - the `Meter` class. Its `ProcessContent` and `HandleTelegram` methods
    change the three kept values and the telegram in place, and are proved
    against `Step` and `Trail`. Its getters carry the source's quantity
    preconditions.

A content starts with a two-byte payload CRC and a frame-type byte:

- A 0x79 frame carries the total energy (bytes 7-9) and the total volume
  (bytes 13-15), each as a three-byte little-endian integer.
- A 0x78 frame carries the current power as a two-byte little-endian integer
  in bytes 24-25, times 100.
- Any other frame type draws a warning and changes none of the kept values;
  only its CRC and frame-type byte are explained.

Each frame overwrites only the fields it carries. So after any sequence of
telegrams, each value is the one from the latest frame that carries it.

Where the driver's code is irregular, the model keeps it as written:

- For 0x79 frames the driver passes lengths 4, 4, 3, 3 to `addExplanation`
  after the header, while those records describe bytes 3-6, 10-12, 7-9 and
  13-15. The trail therefore covers offsets 0-16, one more than the 16
  bytes read, and its energy and volume records sit at offsets 11 and 14.
  `EnergyVolumeTrail` states the records as written, and
  `EnergyVolumeTrailMisaligned` shows that the second unknown record never
  matches its bytes.
- The code reads fixed offsets without bounds checks. The model makes the
  readable length a precondition (`Readable`): at least 3 bytes, at least 16
  for a 0x79 frame and at least 26 for a 0x78 frame. It does not invent a
  check the code lacks.
- The code labels the energy record "total power". The model's note for it
  is `TotalEnergy`, named after the value it carries.

## Model

| member | source | states |
|---|---|---|
| Units.LookupSound | src/units.h:30-43 | a unit has no quantity exactly when no row of the unit table lists it, and a quantity found comes from a row that lists the unit |
| Units.LookupFindsRow | src/units.h:30-35 | in a table without repeated units, a listed unit is found with its own row's quantity |
| Units.ListOfUnitsUnique | src/units.h:30-35 | no unit occurs in two rows of the unit table |
| Units.IsQuantityIffListed | src/units.h:30-35 | `isQuantity(u, q)` holds exactly when the pair (u, q) is a row of the unit table |
| Units.TableUnitHasOneQuantity | src/units.h:30-35 | every unit of the table measures its own row's quantity and no other, so a getter asked for a unit of another quantity is refused |
| Units.EnergyUnits | src/units.h:31-32 | the energy units are exactly kWh and GJ |
| Units.VolumeUnits | src/units.h:33-34 | the volume units are exactly m3 and l |
| Units.PowerUnits | src/units.h:35 | the power unit is exactly kW |
| Units.UnknownHasNoQuantity | src/units.h:37-51 | only `Unit::Unknown`, which is added after the table, has no quantity, and no unit measures `Quantity::Unknown` |
| Units.QuantitiesAreListed | src/units.h:24-51 | the quantity enumeration is the quantity table plus `Unknown`, and every listed quantity has a unit |
| Telegrams.Spans | src/meter_multical302.cc:120-126 | a chain of `addExplanation` calls appends one record per consumed field |
| Telegrams.SpansAt | src/meter_multical302.cc:120-126 | record i has field i's length and note, and the first record starts at the initial cursor |
| Telegrams.SpansContiguous | src/meter_multical302.cc:120-182 | each record starts where the previous one ends, because the cursor advances by each length |
| Telegrams.SpansEnd | src/meter_multical302.cc:120-182 | the last record ends at the initial cursor plus the sum of the lengths |
| Telegrams.SpansPartition | src/meter_multical302.cc:120-182 | the records cover each offset of the consumed range exactly once and nothing outside it |
| Telegrams.Telegram.AddExplanation | src/meter_multical302.cc:124 | the record (cursor, length, note) is appended to the trail and the cursor advances by the length |
| Multical302.Le3 | src/meter_multical302.cc:146 | a three-byte little-endian value is below 2^24 |
| Multical302.Le3OfBytes | src/meter_multical302.cc:140-146 | decoding the three bytes of a value below 2^24 gives the value back |
| Multical302.BytesOfLe3 | src/meter_multical302.cc:140-146 | encoding a decoded byte triple gives the triple back, so the formula is a bijection |
| Multical302.Le2 | src/meter_multical302.cc:178 | a two-byte little-endian value is below 2^16 |
| Multical302.Le2OfBytes | src/meter_multical302.cc:175-178 | decoding the two bytes of a value below 2^16 gives the value back |
| Multical302.BytesOfLe2 | src/meter_multical302.cc:175-178 | encoding a decoded byte pair gives the pair back |
| Multical302.DecodedRanges | src/meter_multical302.cc:140-182 | energy and volume lie in [0, 2^24), power is a multiple of 100 of at most 6553500, and an unrecognised frame type is neither 0x79 nor 0x78 |
| Multical302.EnergyVolumeContent | src/meter_multical302.cc:128-158 | a 0x79 content built from CRC, unknown bytes, energy and volume is 16 bytes long, readable and of type 0x79 |
| Multical302.DecodeEnergyVolumeContent | src/meter_multical302.cc:140-156 | decoding a built 0x79 content gives back its energy and volume |
| Multical302.EnergyVolumeContentComplete | src/meter_multical302.cc:138-156 | the first 16 bytes of every 0x79 content are the built content of its CRC, unknown bytes and decoded values |
| Multical302.PowerContent | src/meter_multical302.cc:160-181 | a 0x78 content built from CRC, 21 unknown bytes and a raw power is 26 bytes long, readable and of type 0x78 |
| Multical302.DecodePowerContent | src/meter_multical302.cc:175-179 | decoding a built 0x78 content gives the raw power times 100 |
| Multical302.PowerContentComplete | src/meter_multical302.cc:170-178 | the first 26 bytes of every 0x78 content are the built content of its CRC, unknown bytes and raw power |
| Multical302.StepEnergyVolume | src/meter_multical302.cc:140-158 | a 0x79 frame sets energy to b9*65536+b8*256+b7 and volume to b15*65536+b14*256+b13, and leaves power alone |
| Multical302.StepPower | src/meter_multical302.cc:175-181 | a 0x78 frame sets power to (b25*256+b24)*100 and leaves energy and volume alone |
| Multical302.StepUnrecognised | src/meter_multical302.cc:183-185 | any other frame type leaves the state unchanged |
| Multical302.StepIdempotent | src/meter_multical302.cc:147-179 | decoding overwrites rather than accumulates: the same content twice equals it once |
| Multical302.StepsCommute | src/meter_multical302.cc:128-182 | two frames of different types touch disjoint fields, so their order does not matter |
| Multical302.LatestEnergyVolumeFrameWins | src/meter_multical302.cc:147-156 | after any sequence of contents, energy and volume are those of the last 0x79 frame |
| Multical302.EnergyVolumePersists | src/meter_multical302.cc:160-185 | a sequence without 0x79 frames keeps energy and volume |
| Multical302.LatestPowerFrameWins | src/meter_multical302.cc:178-179 | after any sequence of contents, power is that of the last 0x78 frame |
| Multical302.PowerPersists | src/meter_multical302.cc:128-159 | a sequence without 0x78 frames keeps power |
| Multical302.EnergyVolumeExample | src/meter_multical302.cc:128-159 | a 0x79 content with bytes 7-9 = 10,0,0 and 13-15 = 20,0,0 gives energy 10 kWh and volume 20 m3 |
| Multical302.PowerExample | src/meter_multical302.cc:160-182 | a 26-byte 0x78 content ending in 5,0 gives power 500 |
| Multical302.TrailPartitionsFrame | src/meter_multical302.cc:122-182 | the trail covers each offset below 17 (0x79), 26 (0x78) or 3 (other) exactly once and nothing beyond it |
| Multical302.EnergyVolumeTrail | src/meter_multical302.cc:122-158 | a 0x79 trail is CRC at 0, type at 2, unknown at 3 and 7 (4 bytes each), energy at 11 and volume at 14, with the decoded values |
| Multical302.PowerTrail | src/meter_multical302.cc:122-181 | a 0x78 trail is CRC at 0, type at 2, 21 unknown bytes at 3 and power at 24 |
| Multical302.UnrecognisedTrail | src/meter_multical302.cc:122-126 | any other frame explains only its CRC and its frame-type byte |
| Multical302.TrailRecordsItsBytes | src/meter_multical302.cc:160-181 | for 0x78 and unknown frames every record covers exactly the bytes it describes |
| Multical302.EnergyVolumeTrailMisaligned | src/meter_multical302.cc:138-158 | for 0x79 frames the first three records cover their bytes, but the second unknown record never does |
| Multical302.FrameWarnings | src/meter_multical302.cc:183-185 | decoding warns exactly when the frame type is neither 0x79 nor 0x78 |
| Multical302.Meter.constructor | src/meter_multical302.cc:49-59 | a new meter keeps its key and starts with all three values at 0 |
| Multical302.Meter.TotalEnergyConsumption | src/meter_multical302.cc:61-65 | requires an energy unit and returns the kept energy |
| Multical302.Meter.CurrentPowerConsumption | src/meter_multical302.cc:67-71 | requires a power unit and returns the kept power |
| Multical302.Meter.TotalVolume | src/meter_multical302.cc:83-87 | requires a volume unit and returns the kept volume |
| Multical302.Meter.CurrentPeriodEnergyConsumption | src/meter_multical302.cc:73-76 | always 0, for every unit |
| Multical302.Meter.PreviousPeriodEnergyConsumption | src/meter_multical302.cc:78-81 | always 0, for every unit |
| Multical302.Meter.ProcessContent | src/meter_multical302.cc:119-186 | the new state is `Step` of the old one, the trail grows by exactly `Trail(content)`, and the warnings are the frame warnings |
| Multical302.Meter.ProcessEnergyVolumeFrame | src/meter_multical302.cc:128-159 | the 0x79 branch sets energy and volume as `Step` does, appends the four records after the header and leaves the cursor at 17 |
| Multical302.Meter.ProcessPowerFrame | src/meter_multical302.cc:160-182 | the 0x78 branch sets power as `Step` does, appends the two records after the header and leaves the cursor at 26 |
| Multical302.Meter.HandleTelegram | src/meter_multical302.cc:89-117 | a telegram for another meter changes nothing. Otherwise: content is the decrypted payload with a key and the payload itself without; the state steps; the trail grows by `Trail`; and an encrypted, non-simulated telegram without a key adds a warning before the frame warnings |
| Multical302.ReceiveEnergyVolumeTelegram | src/meter_multical302.cc:89-159 | a keyless meter handed a plain 0x79 telegram with energy 10 and volume 20 ends with those values and its power unchanged |
| Multical302.ReceivePowerTelegram | src/meter_multical302.cc:89-117 | a keyless meter handed a plain 0x78 telegram with raw power 5 ends with power 500 and its energy and volume unchanged |
| Multical302.TwoTelegrams | src/meter_multical302.cc:61-117 | a new keyless meter handed both plain telegrams reports energy 10 kWh, volume 20 m3 and power 500 kW through its three getters |

## Left out

- Multical302.Meter.TotalEnergyConsumption: returns the kept kWh value and does not apply `convert` to the requested unit. `convert` is only declared in src/units.h, and its body and its floating-point conversion factors are not part of this model.
- Multical302.Meter.CurrentPowerConsumption: returns the kept kW value without `convert`, for the reason above.
- Multical302.Meter.TotalVolume: returns the kept m3 value without `convert`, for the reason above.
- The kept values are `double` in the driver. They are modelled as unbounded integers. Every value the decoder stores is an integer below 2^24 (energy, volume) or at most 6553500 (power), so the C `int` arithmetic cannot overflow and the conversion to `double` is exact.
- `canConvert`, `toUnit`, `strWithUnitHR` and `strWithUnitLowerCase` are declared in src/units.h without bodies. They are not part of this model.
- `isQuantity` is only declared. The model defines it as a lookup in the unit table. `assertQuantity` (whose failure aborts) becomes the getters' precondition.
- `printMeter` formats the three values as text, separated fields, JSON and environment variables with floating-point `snprintf`. String formatting and timestamps are not modelled.
- Multical302.Meter.HandleTelegram: the address filter `isTelegramForMe` is a boolean parameter, and `decryptMode1_AES_CTR` is a function parameter applied to the payload and the key. The AES-CTR cipher is not modelled.
- `useAes()` belongs to the common meter implementation, which is not part of this model. It is modelled as "the key is non-empty".
- `addExplanation` belongs to the telegram class, which is not part of this model. It is modelled as appending `(cursor, length, note)` and advancing the cursor by the length.
- Records carry their bytes and decoded values instead of the formatted text. `bin2hex` and the frame-type name from `frameTypeKamstrupC1` are not modelled.
- `verbose`, `logTelegram`, `explainParse`, `isDebugEnabled`, `warning` output and `triggerUpdate` are logging or callback effects. Warnings are returned as a sequence instead of being printed, and update notification is not modelled.
- The constructor's registration with the bus (`onTelegram`), `addMedia(0x04)` and `createMultical302` are wiring and are not modelled.
- The padding of short frames to 17 or 26 bytes is commented out in the driver. It is not modelled; the expected lengths appear only as `EnergyVolumeFrameLength` and `PowerFrameLength`.
- src/config.h (command-line configuration) is not part of this model.
