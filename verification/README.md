# AOT FITS schema and ESO helpers in Dafny

This project models the declarative core of the AOT ("Adaptive Optics
Telemetry") FITS format, as defined in `aotpy/io/fits/_keywords.py`, and
two pure helpers of the ESO translator in `aotpy/translators/eso.py`.

- `FitsFormat` (`fits_format.dfy`): the four AOT value kinds (`str`, `int`,
  `flt`, `lst`) and `fits_type_to_aot`, which maps a FITS `TFORMn` column
  type code to one of them or raises. The two regular expressions of the
  mapper are character-level predicates. A one-pass scanner (a finite
  automaton) is proved to agree with the mapper on every input.
- `Fields` (`fields.dfy`): `AOTField` as the `Field` record and
  `AOTFieldDict` as an ordered dictionary. It has Python `dict` semantics:
  when a name repeats, the later field replaces the value but the key keeps
  its first position.
- `Keywords` (`keywords.dfy`): the format version, the primary-header
  keywords, the six AO modes, the reference keywords and the units.
- `Tables` (`tables.dfy`): the eighteen tables as an enumeration with their
  on-disk names. It holds the mandatory/secondary partition, `TABLE_SET`,
  the write order `TABLE_SEQUENCE`, and each secondary table's mandatory
  parent.
- `SchemaData` (`schema_data.dfy`): every `*_FIELDS` dictionary's columns
  in source order, with kind, unit and flags, plus the descriptive value
  constants.
- `Schema` (`schema.dfy`): `TABLE_FIELDS`, the registry from table to field
  dictionary, with its invariants: the unique `UID` column comes first,
  every `*_UID` column is a dimensionless string, and the parent references
  are mandatory.
- `EsoHelpers` (`eso.dfy`): `_azimuth_conversion` over the reals, and
  `_stack_slopes` over sequences, with its error cases. The azimuth change
  is modelled as written (a reflection). Beside it is the half-turn rotation
  that the function's documented frames describe; see Findings.
- `Wrappers` (`wrappers.dfy`): `Option` and `Result`.

Python exceptions are `Failure` results:

- `ValueError` from the mapper is `NotInAotFits`.
- A `KeyError` on a dictionary or the registry is `None`.
- `NotImplementedError` from `_stack_slopes` is `NotImplemented`.
- The `ValueError` that `np.stack` raises when tip and tilt differ in shape
  is `ShapeMismatch`.

`AOTField.format` is kept as the `Format` enumeration; `Token` gives the
string each kind is written as.

## Model

| member | source | states |
|---|---|---|
| FitsFormat.FitsTypeToAot | aotpy/io/fits/_keywords.py:27-36 | `flt` exactly for `E`/`D`, `int` exactly for `B`/`I`/`J`/`K`, `str` exactly for digits followed by `A`, `lst` exactly for `[QP][DE](digits)`, and an error exactly for every other code |
| FitsFormat.IsStringCode | aotpy/io/fits/_keywords.py:32 | the full-match test `\d*A`: any number of ASCII digits, then `A` |
| FitsFormat.IsListCode | aotpy/io/fits/_keywords.py:34 | the full-match test `[QP][DE]\(\d*\)`: an array marker, a float code, then a parenthesised run of ASCII digits |
| FitsFormat.TokensDistinct | aotpy/io/fits/_keywords.py:39-42 | the four format constants are pairwise different strings |
| FitsFormat.Token | aotpy/io/fits/_keywords.py:39-42 | each kind is written as its own three-letter token, `str`, `int`, `flt` or `lst`; TokensDistinct states that no two coincide |
| FitsFormat.CodeClassesDisjoint | aotpy/io/fits/_keywords.py:27-36 | no code matches two of the four accepted patterns, so the order of the mapper's tests does not matter |
| FitsFormat.RepeatedCharacterIsString | aotpy/io/fits/_keywords.py:32-33 | any run of digits followed by `A` is a string column, including the bare `A` |
| FitsFormat.ArrayDescriptorIsList | aotpy/io/fits/_keywords.py:34-35 | every `Q`/`P` descriptor over `D`/`E` with a digit-only bound in parentheses is a list column |
| FitsFormat.ListShape | aotpy/io/fits/_keywords.py:34-35 | conversely, every code mapped to `lst` has that descriptor shape |
| FitsFormat.Examples | aotpy/io/fits/_keywords.py:27-42 | `D`, `K`, `A`, `64A`, `QD(10)` and `PE()` are accepted as documented; `QJ(5)`, `QD`, the empty code, `ZZ` and `A64` raise |
| FitsFormat.AllDigitsSnoc | aotpy/io/fits/_keywords.py:32-35 | a code extended by one character is all digits exactly when the code is and the character is a digit |
| FitsFormat.StringCodeSnoc | aotpy/io/fits/_keywords.py:32-33 | a code extended by one character matches `\d*A` exactly when the code is all digits and the character is `A` |
| FitsFormat.OpenBoundSnoc | aotpy/io/fits/_keywords.py:34-35 | an unfinished array descriptor stays unfinished after one more character exactly when that character is a digit |
| FitsFormat.ListCodeSnoc | aotpy/io/fits/_keywords.py:34-35 | a code extended by one character is a complete array descriptor exactly when the code was an unfinished one and the character is `)` |
| FitsFormat.StepMatchesPrefix | aotpy/io/fits/_keywords.py:27-36 | the scanner's state after one more character is the state the longer prefix's shape calls for |
| FitsFormat.VerdictMatchesMapper | aotpy/io/fits/_keywords.py:27-36 | the verdict on a whole code's state is the mapper's answer |
| FitsFormat.ScanTypeCode | aotpy/io/fits/_keywords.py:27-36 | a single left-to-right pass classifies every code exactly as the mapper does |
| Fields.Insert | aotpy/io/fits/_keywords.py:22-24 | a dict assignment keeps the dictionary well formed: it overwrites in place or appends one new key at the end, and earlier keys do not move |
| Fields.FromFields | aotpy/io/fits/_keywords.py:22-24 | the dictionary built from fields is well formed (distinct keys, each filed under its own name) and its keys are exactly the listed names |
| Fields.FromFieldsLastWins | aotpy/io/fits/_keywords.py:22-24 | a name maps to the last field listed under it |
| Fields.FromFieldsKeepsOrder | aotpy/io/fits/_keywords.py:22-24 | with distinct names, the keys are the field names in insertion order |
| Fields.Values | aotpy/io/fits/_keywords.py:22-24 | reading the values in key order gives one field per key, each carrying its key as name |
| Fields.Get | aotpy/io/fits/_keywords.py:22-24 | a lookup finds a field exactly for a registered name, and the field carries that name |
| Fields.ValuesRoundTrip | aotpy/io/fits/_keywords.py:22-24 | with distinct names, the dictionary's values in order are exactly the fields it was built from |
| Fields.GetListed | aotpy/io/fits/_keywords.py:22-24 | with distinct names, looking up any listed field's name returns that field |
| Keywords.IsReferenceName | aotpy/io/fits/_keywords.py:111-119 | the naming convention of reference columns: the name ends in `_UID` (ReferenceNameIsSuffix shows the character test is that suffix test) |
| Keywords.ReferenceNameIsSuffix | aotpy/io/fits/_keywords.py:111-119 | the reference-name test holds exactly for names ending in `_UID` |
| Keywords.HeaderVocabulary | aotpy/io/fits/_keywords.py:97-109 | eight distinct header keywords, six distinct AO modes, and no header keyword is a reference name |
| Keywords.ReferenceVocabulary | aotpy/io/fits/_keywords.py:111-119 | every shared reference keyword ends in `_UID`, and the table identifier `UID` itself does not |
| Tables.Name | aotpy/io/fits/_keywords.py:63-80 | the extension name each table is written under; NamesDistinct and NameRoundTrip show it is one-to-one and inverted by TableNamed |
| Tables.TableNamed | aotpy/io/fits/_keywords.py:63-80 | a name that resolves to a table resolves to the table stored under that name |
| Tables.TableNamedIsTableSet | aotpy/io/fits/_keywords.py:63-89 | a name resolves to a table exactly when it is in `TABLE_SET` |
| Tables.NameRoundTrip | aotpy/io/fits/_keywords.py:63-80 | every table is found again under its own name |
| Tables.NamesDistinct | aotpy/io/fits/_keywords.py:63-80 | two tables share a name only if they are the same table |
| Tables.Taxonomy | aotpy/io/fits/_keywords.py:82-89 | mandatory (11) and secondary (7) tables are disjoint and together cover all 18 tables |
| Tables.NameSetSize | aotpy/io/fits/_keywords.py:82-89 | a set of tables has exactly as many names as tables |
| Tables.NameSetMembership | aotpy/io/fits/_keywords.py:82-89 | a table's name is in a name set exactly when the table is in the underlying set |
| Tables.NameTaxonomy | aotpy/io/fits/_keywords.py:82-89 | `MANDATORY_TABLE_SET` (11 names) and `SECONDARY_TABLE_SET` (7 names) are disjoint, their union `TABLE_SET` has 18 names, and every table's name is in it |
| Tables.SequenceIsPermutation | aotpy/io/fits/_keywords.py:90-94 | `TABLE_SEQUENCE` has 18 entries, lists no table twice and lists every table |
| Tables.Position | aotpy/io/fits/_keywords.py:90-94 | every table sits at an index of the write order |
| Tables.Parent | aotpy/io/fits/_keywords.py:63-94 | every secondary table extends a mandatory table whose name plus `_` begins its own name and which is written before it |
| Tables.ParentIsUnique | aotpy/io/fits/_keywords.py:63-89 | no other mandatory table's name begins a secondary table's name, so the parent is unique |
| SchemaData.TimeColumns | aotpy/io/fits/_keywords.py:124-128 | `TIME_FIELDS` has distinct names, only `UID` is unique, and every reference column is a dimensionless string |
| SchemaData.GeometryColumns | aotpy/io/fits/_keywords.py:137-145 | the same conventions for `GEOMETRY_FIELDS` |
| SchemaData.AtmosphericParametersColumns | aotpy/io/fits/_keywords.py:159-173 | the same conventions for `ATMOSPHERIC_PARAMETERS_FIELDS` |
| SchemaData.AberrationColumns | aotpy/io/fits/_keywords.py:181-187 | the same conventions for `ABERRATION_FIELDS` |
| SchemaData.TelescopeColumns | aotpy/io/fits/_keywords.py:206-225 | the same conventions for `TELESCOPE_FIELDS` |
| SchemaData.SourceColumns | aotpy/io/fits/_keywords.py:240-248 | the same conventions for `SOURCE_FIELDS` |
| SchemaData.SourceSodiumLgsColumns | aotpy/io/fits/_keywords.py:259-265 | the same conventions for `SOURCE_SODIUM_LGS_FIELDS` |
| SchemaData.SourceRayleighLgsColumns | aotpy/io/fits/_keywords.py:271-276 | the same conventions for `SOURCE_RAYLEIGH_LGS_FIELDS` |
| SchemaData.DetectorColumns | aotpy/io/fits/_keywords.py:304-332 | the same conventions for `DETECTOR_FIELDS` |
| SchemaData.ScoringCameraColumns | aotpy/io/fits/_keywords.py:338-345 | the same conventions for `SCORING_CAMERA_FIELDS` |
| SchemaData.WavefrontSensorColumns | aotpy/io/fits/_keywords.py:361-380 | the same conventions for `WAVEFRONT_SENSOR_FIELDS` |
| SchemaData.WavefrontSensorShackHartmannColumns | aotpy/io/fits/_keywords.py:389-395 | the same conventions for `WAVEFRONT_SENSOR_SHACK_HARTMANN_FIELDS` |
| SchemaData.WavefrontSensorPyramidColumns | aotpy/io/fits/_keywords.py:401-405 | the same conventions for `WAVEFRONT_SENSOR_PYRAMID_FIELDS` |
| SchemaData.WavefrontCorrectorColumns | aotpy/io/fits/_keywords.py:414-424 | the same conventions for `WAVEFRONT_CORRECTOR_FIELDS` |
| SchemaData.WavefrontCorrectorDmColumns | aotpy/io/fits/_keywords.py:435-441 | the same conventions for `WAVEFRONT_CORRECTOR_DM_FIELDS` |
| SchemaData.LoopsColumns | aotpy/io/fits/_keywords.py:454-466 | the same conventions for `LOOPS_FIELDS` |
| SchemaData.LoopsControlColumns | aotpy/io/fits/_keywords.py:482-492 | the same conventions for `LOOPS_CONTROL_FIELDS` |
| SchemaData.LoopsOffloadColumns | aotpy/io/fits/_keywords.py:498-502 | the same conventions for `LOOPS_OFFLOAD_FIELDS` |
| Schema.FieldList | aotpy/io/fits/_keywords.py:124-503 | every table's columns start with the mandatory, unique, dimensionless string `UID`, have distinct names and keep the conventions |
| Schema.TableFields | aotpy/io/fits/_keywords.py:95-503 | every table's dictionary is well formed, its keys are the column names in column order, and no column is lost |
| Schema.TableFieldsNamed | aotpy/io/fits/_keywords.py:95-503 | `TABLE_FIELDS` has an entry exactly for the names in `TABLE_SET`, and each entry starts with `UID` |
| Schema.RegistryFindsEveryTable | aotpy/io/fits/_keywords.py:95-503 | looking a table up under its own name gives that table's dictionary |
| Schema.SequenceIsRegistered | aotpy/io/fits/_keywords.py:90-95 | every entry of `TABLE_SEQUENCE` has a `TABLE_FIELDS` entry |
| Schema.EntryIsListed | aotpy/io/fits/_keywords.py:22-24 | every entry of a table's dictionary is one of that table's listed columns, under its own name |
| Schema.UidFirst | aotpy/io/fits/_keywords.py:124-503 | in every table the first key is `UID`, mapped to a mandatory, unique string with unit `1` |
| Schema.UidOnlyUnique | aotpy/io/fits/_keywords.py:124-503 | in every table a column is flagged unique exactly when it is `UID` |
| Schema.ReferencesAreStrings | aotpy/io/fits/_keywords.py:111-503 | in every table every `*_UID` column is a string with unit `1` |
| Schema.ListedReference | aotpy/io/fits/_keywords.py:22-24 | a listed mandatory string column is what a lookup of its name returns |
| Schema.SensorSourceMandatory | aotpy/io/fits/_keywords.py:364 | a wavefront sensor's `SOURCE_UID` is a mandatory dimensionless string |
| Schema.CorrectorTelescopeMandatory | aotpy/io/fits/_keywords.py:417 | a wavefront corrector's `TELESCOPE_UID` is a mandatory dimensionless string |
| Schema.LoopCommandedMandatory | aotpy/io/fits/_keywords.py:457 | a loop's `COMMANDED_UID` is a mandatory dimensionless string |
| Schema.ControlInputMandatory | aotpy/io/fits/_keywords.py:484 | a control loop's `INPUT_SENSOR_UID` is a mandatory dimensionless string |
| Schema.OffloadInputMandatory | aotpy/io/fits/_keywords.py:500 | an offload loop's `INPUT_CORRECTOR_UID` is a mandatory dimensionless string |
| EsoHelpers.Mod360 | aotpy/translators/eso.py:183 | Python's `%` by 360 always lands in [0, 360) |
| EsoHelpers.Mod360Unique | aotpy/translators/eso.py:183 | the remainder is the unique value in [0, 360) that differs from the input by whole turns |
| EsoHelpers.AzimuthConversion | aotpy/translators/eso.py:170-183 | the converted azimuth always lies in [0, 360) |
| EsoHelpers.NorthStaysNorth | aotpy/translators/eso.py:172-183 | north, at 180 in ESO's frame, comes out as AOT's north, 0 |
| EsoHelpers.SouthStaysSouth | aotpy/translators/eso.py:172-183 | south, at 0 in ESO's frame, comes out as AOT's south, 180 |
| EsoHelpers.WestBecomesEast | aotpy/translators/eso.py:172-183 | the conversion as written sends ESO's west to AOT's east and ESO's east to AOT's west (see Findings) |
| EsoHelpers.DocumentedAzimuthConversion | aotpy/translators/eso.py:172-175 | the frame change the documentation describes, a half turn, always lands in [0, 360) |
| EsoHelpers.DocumentedConversionKeepsBearings | aotpy/translators/eso.py:172-175 | under the documented frame change, north, east, south and west each keep their direction |
| EsoHelpers.DocumentedConversionRotates | aotpy/translators/eso.py:172-175 | the documented frame change is a rotation: turning the input by any angle turns the output by the same angle |
| EsoHelpers.ConversionOnCircle | aotpy/translators/eso.py:172-183 | on [0, 360) the conversion reflects through the north-south axis: `180 - az` up to 180, `540 - az` beyond |
| EsoHelpers.ConversionPeriodic | aotpy/translators/eso.py:183 | adding a full turn to the input does not change the result |
| EsoHelpers.ConversionInvolution | aotpy/translators/eso.py:183 | converting twice gives the input reduced modulo 360 |
| EsoHelpers.Stack | aotpy/translators/eso.py:216 | stacking succeeds exactly when tip and tilt have the same length, and the pairs' tips and tilts are those inputs |
| EsoHelpers.Evens | aotpy/translators/eso.py:209-213 | the slice `[::2]`: ceil(n/2) elements, the i-th being the input's element 2i |
| EsoHelpers.Odds | aotpy/translators/eso.py:209-213 | the slice `[1::2]`: floor(n/2) elements, the i-th being the input's element 2i+1 |
| EsoHelpers.InterleaveSplit | aotpy/translators/eso.py:205-210 | an even-length sequence is the interleaving of its even and odd positions |
| EsoHelpers.SplitInterleave | aotpy/translators/eso.py:205-210 | the even and odd positions of an interleaving are its two halves |
| EsoHelpers.FlattenInterleaves | aotpy/translators/eso.py:216 | writing pairs out in order interleaves their tips with their tilts |
| EsoHelpers.SplitPairs | aotpy/translators/eso.py:205-216 | along axis 0, stacking succeeds exactly for even length, gives length/2 pairs, and tips are the even-indexed and tilts the odd-indexed elements |
| EsoHelpers.SplitPairsRoundTrip | aotpy/translators/eso.py:205-216 | flattening the (tip, tilt) pairs in order reconstructs the input |
| EsoHelpers.FlattenRoundTrip | aotpy/translators/eso.py:205-216 | splitting a flattened sequence of pairs gives back those pairs |
| EsoHelpers.PairsFromParts | aotpy/translators/eso.py:216 | a sequence of pairs is determined by its tips and its tilts |
| EsoHelpers.StackSlopes | aotpy/translators/eso.py:205-216 | any axis other than 0 or 1 raises `NotImplementedError`; axis 0 succeeds exactly for an even row count, axis 1 exactly for an even column count and keeps one entry per row |
| EsoHelpers.RowsSplitIndependently | aotpy/translators/eso.py:211-216 | along axis 1 each row is split on its own into its even and odd columns, which interleave back to the row |
| EsoHelpers.RowsPairUp | aotpy/translators/eso.py:206-216 | along axis 0 the rows are paired, and the pairs flatten back to the matrix |
| EsoHelpers.SlopeExamples | aotpy/translators/eso.py:205-216 | `[1,2,3,4]` splits into `(1,2), (3,4)`; odd length and an unknown axis raise; a row `[1,2,3,4]` along axis 1 gives tips `[1,3]` and tilts `[2,4]` |

## Left out

- `AOTField.description` is carried as an `Option`, but no field in the
  registry sets it.
- The descriptive value constants (`'Main Telescope'`, `'Open'` and so on)
  are kept as plain strings. Nothing in the module constrains them.
- The module has no routine that checks rows against the `mandatory` and
  `unique` flags or resolves `*_UID` references. These flags are data
  only, so no row validator is modelled.
- FitsFormat.FitsTypeToAot: Python's `\d` also matches non-ASCII Unicode
  digits, but the model accepts only `'0'..'9'`.
- EsoHelpers.AzimuthConversion is over exact reals, not IEEE doubles.
  With doubles, a tiny negative remainder can round up to `360.0`, so the
  `[0, 360)` bound is not guaranteed for floats.
- EsoHelpers.StackSlopes takes a matrix with an explicit column count and
  requires rectangular rows, which a numpy array always has. Higher-rank
  arrays along axis 1, and axis 1 on a one-dimensional array (an
  `IndexError` in numpy), are not modelled.
- The rest of `aotpy/translators/eso.py` is not part of this model:
  - `to_archive_ready_file` and `get_atmospheric_parameters_from_archive`
    do network TAP queries, time conversion and FITS file writing.
  - `_get_pixel_data_from_table` is a numpy reshape plus a runtime warning.
- Module import side effects and reader/writer registration are not
  modelled.
- `TABLE_FIELDS` is modelled as a lookup function from table name to field
  dictionary. Its own insertion order is not modelled; in the source it is
  the order of `TABLE_SEQUENCE`.

## Findings

| source | as written | input that shows it | evidently intended | confidence | as-written member | corrected member |
|---|---|---|---|---|---|---|
| aotpy/translators/eso.py:183 | `-(az - 180) % 360`, a reflection through the north-south axis | ESO azimuth 90 (west, measured westwards from south) gives 90, which is east in AOT's frame (eastwards from north) | `(az + 180) % 360`: both documented frames turn the same way, so they differ by a half turn and west should come out as 270. The comment on line 182 asks for a symmetry, so the reflection is deliberate; either it or the documented frames are wrong | not executed; medium | EsoHelpers.WestBecomesEast | EsoHelpers.DocumentedConversionKeepsBearings |
