/**
  The table registry: for every AOT table, the field dictionary built from
  its columns, and the lookup of a dictionary by the table's on-disk name.

  Every table's dictionary has the same shape: the table's own `UID`
  identifier comes first and is the only unique column, every column is
  filed under its own name in column order, and every `*_UID` column that
  refers to another table is a dimensionless string.
 */
module Schema {
  import opened Wrappers
  import opened FitsFormat
  import opened Fields
  import opened Keywords
  import opened Tables
  import opened SchemaData

  /** The identifier column every table starts with. */
  const UidField := Field(ReferenceUid, Str, UnitDimensionless, mandatory := true, unique := true)

  /** The columns a table is registered with, in column order. */
  function FieldList(t: TableId): (fs: seq<Field>)
    ensures |fs| > 0 && fs[0] == UidField
    ensures WellFormedColumns(fs)
  {
    match t
    case Time => TimeColumns(); TimeFields
    case Geometry => GeometryColumns(); GeometryFields
    case AtmosphericParameters => AtmosphericParametersColumns(); AtmosphericParametersFields
    case Aberrations => AberrationColumns(); AberrationFields
    case Telescopes => TelescopeColumns(); TelescopeFields
    case Sources => SourceColumns(); SourceFields
    case SourcesSodiumLgs => SourceSodiumLgsColumns(); SourceSodiumLgsFields
    case SourcesRayleighLgs => SourceRayleighLgsColumns(); SourceRayleighLgsFields
    case Detectors => DetectorColumns(); DetectorFields
    case ScoringCameras => ScoringCameraColumns(); ScoringCameraFields
    case WavefrontSensors => WavefrontSensorColumns(); WavefrontSensorFields
    case WavefrontSensorsShackHartmann => WavefrontSensorShackHartmannColumns(); WavefrontSensorShackHartmannFields
    case WavefrontSensorsPyramid => WavefrontSensorPyramidColumns(); WavefrontSensorPyramidFields
    case WavefrontCorrectors => WavefrontCorrectorColumns(); WavefrontCorrectorFields
    case WavefrontCorrectorsDm => WavefrontCorrectorDmColumns(); WavefrontCorrectorDmFields
    case Loops => LoopsColumns(); LoopsFields
    case LoopsControl => LoopsControlColumns(); LoopsControlFields
    case LoopsOffload => LoopsOffloadColumns(); LoopsOffloadFields
  }

  /**
    The field dictionary of a table: keyed by column name, with the keys in
    column order and every column kept.
   */
  function TableFields(t: TableId): (d: FieldDict)
    ensures Valid(d)
    ensures d.keys == Names(FieldList(t))
    ensures Values(d) == FieldList(t)
  {
    var fs := FieldList(t);
    FromFieldsKeepsOrder(fs);
    ValuesRoundTrip(fs);
    FromFields(fs)
  }

  /** The registry lookup by extension name: a dictionary exactly for the eighteen table names. */
  function TableFieldsNamed(name: string): (r: Option<FieldDict>)
    ensures r.Some? <==> name in TableSet
    ensures r.Some? ==> Valid(r.value) && |r.value.keys| > 0 && r.value.keys[0] == ReferenceUid
  {
    TableNamedIsTableSet(name);
    match TableNamed(name)
    case Some(t) => Some(TableFields(t))
    case None => None
  }

  /** Looking a table up under its own name gives that table's dictionary. */
  lemma RegistryFindsEveryTable(t: TableId)
    ensures TableFieldsNamed(Name(t)) == Some(TableFields(t))
  {
    NameRoundTrip(t);
  }

  /** Every table the write order lists has a dictionary in the registry. */
  lemma SequenceIsRegistered()
    ensures forall i | 0 <= i < |TableSequence| :: TableFieldsNamed(Name(TableSequence[i])).Some?
  {
    forall i | 0 <= i < |TableSequence|
      ensures TableFieldsNamed(Name(TableSequence[i])).Some?
    {
      RegistryFindsEveryTable(TableSequence[i]);
    }
  }

  /** The column a registered name is filed under is one of the listed columns, at the key's own position. */
  lemma EntryIsListed(t: TableId, k: string) returns (i: nat)
    requires k in TableFields(t).entries
    ensures i < |FieldList(t)|
    ensures FieldList(t)[i].name == k
    ensures TableFields(t).entries[k] == FieldList(t)[i]
  {
    var d := TableFields(t);
    i :| i < |d.keys| && d.keys[i] == k;
    assert Values(d)[i] == d.entries[d.keys[i]];
  }

  /** `UID` is the first key, and it maps to the mandatory, unique, dimensionless string identifier. */
  lemma UidFirst(t: TableId)
    ensures TableFields(t).keys[0] == ReferenceUid
    ensures Get(TableFields(t), ReferenceUid) == Some(UidField)
  {
    GetListed(FieldList(t), 0);
  }

  /** The identifier is the only column flagged unique. */
  lemma UidOnlyUnique(t: TableId)
    ensures forall k | k in TableFields(t).entries :: TableFields(t).entries[k].unique <==> k == ReferenceUid
  {
    forall k | k in TableFields(t).entries
      ensures TableFields(t).entries[k].unique <==> k == ReferenceUid
    {
      var i := EntryIsListed(t, k);
      assert FollowsConventions(FieldList(t)[i]);
    }
  }

  /** Every column that refers to another table's identifier is a dimensionless string. */
  lemma ReferencesAreStrings(t: TableId)
    ensures forall k | k in TableFields(t).entries && IsReferenceName(k) ::
      TableFields(t).entries[k].format == Str && TableFields(t).entries[k].unit == UnitDimensionless
  {
    forall k | k in TableFields(t).entries && IsReferenceName(k)
      ensures TableFields(t).entries[k].format == Str && TableFields(t).entries[k].unit == UnitDimensionless
    {
      var i := EntryIsListed(t, k);
      assert FollowsConventions(FieldList(t)[i]);
    }
  }

  /** The mandatory dimensionless string reference a dictionary holds under `name`. */
  predicate MandatoryReference(d: FieldDict, name: string)
    requires Valid(d)
  {
    Get(d, name) == Some(Field(name, Str, UnitDimensionless, mandatory := true))
  }

  /** A listed column that is a mandatory dimensionless string is found as such under its name. */
  lemma ListedReference(t: TableId, i: nat)
    requires i < |FieldList(t)|
    requires FieldList(t)[i] == Field(FieldList(t)[i].name, Str, UnitDimensionless, mandatory := true)
    ensures MandatoryReference(TableFields(t), FieldList(t)[i].name)
  {
    GetListed(FieldList(t), i);
  }

  /** A wavefront sensor always names the source it observes. */
  lemma SensorSourceMandatory()
    ensures MandatoryReference(TableFields(WavefrontSensors), SourceReference)
  {
    ListedReference(WavefrontSensors, 2);
  }

  /** A wavefront corrector always names the telescope it belongs to. */
  lemma CorrectorTelescopeMandatory()
    ensures MandatoryReference(TableFields(WavefrontCorrectors), TelescopeReference)
  {
    ListedReference(WavefrontCorrectors, 2);
  }

  /** A loop always names the corrector it commands. */
  lemma LoopCommandedMandatory()
    ensures MandatoryReference(TableFields(Loops), "COMMANDED_UID")
  {
    ListedReference(Loops, 2);
  }

  /** A control loop always names its input sensor. */
  lemma ControlInputMandatory()
    ensures MandatoryReference(TableFields(LoopsControl), "INPUT_SENSOR_UID")
  {
    ListedReference(LoopsControl, 1);
  }

  /** An offload loop always names its input corrector. */
  lemma OffloadInputMandatory()
    ensures MandatoryReference(TableFields(LoopsOffload), "INPUT_CORRECTOR_UID")
  {
    ListedReference(LoopsOffload, 1);
  }
}
