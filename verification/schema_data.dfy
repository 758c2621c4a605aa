/**
  The columns of every AOT table, in the order they are written, with each
  column's kind, unit and flags, and the descriptive values some string
  columns take. Descriptions are never set, so every field has none.

  The lemmas at the end of this module spell out each table's column names;
  they are the facts the registry properties in module Schema are built on.
 */
module SchemaData {
  import opened FitsFormat
  import opened Fields
  import opened Keywords

  /** The columns of AOT_TIME. */
  const TimeFields: seq<Field> := [
    Field(ReferenceUid, Str, UnitDimensionless, mandatory := true, unique := true),
    Field("TIMESTAMPS", Lst, UnitSeconds),
    Field("FRAME_NUMBERS", Lst, UnitCount)
  ]

  /** The columns of AOT_GEOMETRY. */
  const GeometryFields: seq<Field> := [
    Field(ReferenceUid, Str, UnitDimensionless, mandatory := true, unique := true),
    Field(TimeReference, Str, UnitDimensionless),
    Field("ROTATION", Lst, UnitRadians),
    Field("TRANSLATION_X", Lst, UnitMeters),
    Field("TRANSLATION_Y", Lst, UnitMeters),
    Field("MAGNIFICATION_X", Lst, UnitDimensionless),
    Field("MAGNIFICATION_Y", Lst, UnitDimensionless)
  ]

  /** The columns of AOT_ATMOSPHERIC_PARAMETERS. */
  const AtmosphericParametersFields: seq<Field> := [
    Field(ReferenceUid, Str, UnitDimensionless, mandatory := true, unique := true),
    Field("WAVELENGTH", Flt, UnitMeters),
    Field(TimeReference, Str, UnitDimensionless),
    Field("R0", Lst, UnitMeters),
    Field("FWHM", Lst, UnitArcsec),
    Field("TAU0", Lst, UnitSeconds),
    Field("THETA0", Lst, UnitRadians),
    Field("LAYERS_WEIGHT", Str, UnitDimensionless),
    Field("LAYERS_HEIGHT", Str, UnitDimensionless),
    Field("LAYERS_LO", Str, UnitDimensionless),
    Field("LAYERS_WIND_SPEED", Str, UnitDimensionless),
    Field("LAYERS_WIND_DIRECTION", Str, UnitDimensionless),
    Field(GeometryReference, Str, UnitDimensionless)
  ]

  /** The columns of AOT_ABERRATIONS. */
  const AberrationFields: seq<Field> := [
    Field(ReferenceUid, Str, UnitDimensionless, mandatory := true, unique := true),
    Field("MODES", Str, UnitDimensionless, mandatory := true),
    Field("COEFFICIENTS", Str, UnitDimensionless, mandatory := true),
    Field("X_OFFSETS", Lst, UnitRadians),
    Field("Y_OFFSETS", Lst, UnitRadians)
  ]

  /** The columns of AOT_TELESCOPES. */
  const TelescopeFields: seq<Field> := [
    Field(ReferenceUid, Str, UnitDimensionless, mandatory := true, unique := true),
    Field("TYPE", Str, UnitDimensionless, mandatory := true),
    Field("LATITUDE", Flt, UnitDegrees),
    Field("LONGITUDE", Flt, UnitDegrees),
    Field("ELEVATION", Flt, UnitDegrees),
    Field("AZIMUTH", Flt, UnitDegrees),
    Field("PARALLACTIC", Flt, UnitDegrees),
    Field("PUPIL_MASK", Str, UnitDimensionless),
    Field("PUPIL_ANGLE", Flt, UnitRadians),
    Field("ENCLOSING_D", Flt, UnitMeters),
    Field("INSCRIBED_D", Flt, UnitMeters),
    Field("OBSTRUCTION_D", Flt, UnitMeters),
    Field("SEGMENT_TYPE", Str, UnitDimensionless, mandatory := true),
    Field("SEGMENT_SIZE", Flt, UnitMeters),
    Field("SEGMENTS_X", Lst, UnitMeters),
    Field("SEGMENTS_Y", Lst, UnitMeters),
    Field(GeometryReference, Str, UnitDimensionless),
    Field(AberrationReference, Str, UnitDimensionless)
  ]

  const TelescopeTypeMain := "Main Telescope"
  const TelescopeTypeLlt := "Laser Launch Telescope"
  const TelescopeSegmentTypeMonolithic := "Monolithic"
  const TelescopeSegmentTypeHexagon := "Hexagon"
  const TelescopeSegmentTypeCircle := "Circle"

  /** The columns of AOT_SOURCES. */
  const SourceFields: seq<Field> := [
    Field(ReferenceUid, Str, UnitDimensionless, mandatory := true, unique := true),
    Field("TYPE", Str, UnitDimensionless, mandatory := true),
    Field("RIGHT_ASCENSION", Flt, UnitDegrees),
    Field("DECLINATION", Flt, UnitDegrees),
    Field("ELEVATION_OFFSET", Flt, UnitDegrees),
    Field("AZIMUTH_OFFSET", Flt, UnitDegrees),
    Field("WIDTH", Flt, UnitRadians)
  ]

  const SourceTypeScienceStar := "Science Star"
  const SourceTypeNaturalGuideStar := "Natural Guide Star"
  const SourceTypeSodiumLaserGuideStar := "Sodium Laser Guide Star"
  const SourceTypeRayleighLaserGuideStar := "Rayleigh Laser Guide Star"

  /** The columns of AOT_SOURCES_SODIUM_LGS. */
  const SourceSodiumLgsFields: seq<Field> := [
    Field(ReferenceUid, Str, UnitDimensionless, mandatory := true, unique := true),
    Field("HEIGHT", Flt, UnitMeters),
    Field("PROFILE", Str, UnitDimensionless),
    Field("ALTITUDES", Lst, UnitMeters),
    Field(LaserLaunchTelescopeReference, Str, UnitDimensionless)
  ]

  /** The columns of AOT_SOURCES_RAYLEIGH_LGS. */
  const SourceRayleighLgsFields: seq<Field> := [
    Field(ReferenceUid, Str, UnitDimensionless, mandatory := true, unique := true),
    Field("DISTANCE", Flt, UnitMeters),
    Field("DEPTH", Flt, UnitMeters),
    Field(LaserLaunchTelescopeReference, Str, UnitDimensionless)
  ]

  /** The columns of AOT_DETECTORS. */
  const DetectorFields: seq<Field> := [
    Field(ReferenceUid, Str, UnitDimensionless, mandatory := true, unique := true),
    Field("TYPE", Str, UnitDimensionless),
    Field("SAMPLING_TECHNIQUE", Str, UnitDimensionless),
    Field("SHUTTER_TYPE", Str, UnitDimensionless),
    Field("FLAT_FIELD", Str, UnitDimensionless),
    Field("READOUT_NOISE", Flt, UnitElectrons + "*" + UnitSeconds + "^-1*" + UnitPixels + "^-1"),
    Field("PIXEL_INTENSITIES", Str, UnitDimensionless),
    Field("INTEGRATION_TIME", Flt, UnitSeconds),
    Field("COADDS", Int, UnitCount),
    Field("DARK", Str, UnitDimensionless),
    Field("WEIGHT_MAP", Str, UnitDimensionless),
    Field("QUANTUM_EFFICIENCY", Flt, UnitDimensionless),
    Field("PIXEL_SCALE", Flt, UnitRadians + "*" + UnitPixels + "^-1"),
    Field("BINNING", Int, UnitCount),
    Field("BANDWIDTH", Flt, UnitMeters),
    Field("TRANSMISSION_WAVELENGTH", Lst, UnitMeters),
    Field("TRANSMISSION", Lst, UnitDimensionless),
    Field("SKY_BACKGROUND", Str, UnitDimensionless),
    Field("GAIN", Flt, UnitElectrons),
    Field("EXCESS_NOISE", Flt, UnitElectrons),
    Field("FILTER", Str, UnitDimensionless),
    Field("BAD_PIXEL_MAP", Str, UnitDimensionless),
    Field("DYNAMIC_RANGE", Flt, UnitDecibels),
    Field("READOUT_RATE", Str, UnitPixels + "*" + UnitSeconds + "^-1"),
    Field("FRAME_RATE", Str, UnitFrame + "*" + UnitSeconds + "^-1"),
    Field(GeometryReference, Str, UnitDimensionless)
  ]

  /** The columns of AOT_SCORING_CAMERAS. */
  const ScoringCameraFields: seq<Field> := [
    Field(ReferenceUid, Str, UnitDimensionless, mandatory := true, unique := true),
    Field("PUPIL_MASK", Str, UnitDimensionless),
    Field("WAVELENGTH", Flt, UnitMeters),
    Field(GeometryReference, Str, UnitDimensionless),
    Field(DetectorReference, Str, UnitDimensionless),
    Field(AberrationReference, Str, UnitDimensionless)
  ]

  /** The columns of AOT_WAVEFRONT_SENSORS. */
  const WavefrontSensorFields: seq<Field> := [
    Field(ReferenceUid, Str, UnitDimensionless, mandatory := true, unique := true),
    Field("TYPE", Str, UnitDimensionless, mandatory := true),
    Field(SourceReference, Str, UnitDimensionless, mandatory := true),
    Field("DIMENSIONS", Int, UnitCount, mandatory := true),
    Field("N_VALID_SUBAPERTURES", Int, UnitCount, mandatory := true),
    Field("MEASUREMENTS", Str, UnitDimensionless),
    Field("REF_MEASUREMENTS", Str, UnitDimensionless),
    Field("SUBAPERTURE_MASK", Str, UnitDimensionless),
    Field("MASK_X_OFFSETS", Lst, UnitPixels),
    Field("MASK_Y_OFFSETS", Lst, UnitPixels),
    Field("SUBAPERTURE_SIZE", Str, UnitPixels),
    Field("SUBAPERTURE_INTENSITIES", Str, UnitDimensionless),
    Field("WAVELENGTH", Flt, UnitMeters),
    Field("OPTICAL_GAIN", Str, UnitDimensionless),
    Field(GeometryReference, Str, UnitDimensionless),
    Field(DetectorReference, Str, UnitDimensionless),
    Field(AberrationReference, Str, UnitDimensionless),
    Field(NcpaReference, Str, UnitDimensionless)
  ]

  const WavefrontSensorTypeShackHartmann := "Shack-Hartmann"
  const WavefrontSensorTypePyramid := "Pyramid"

  /** The columns of AOT_WAVEFRONT_SENSORS_SHACK_HARTMANN. */
  const WavefrontSensorShackHartmannFields: seq<Field> := [
    Field(ReferenceUid, Str, UnitDimensionless, mandatory := true, unique := true),
    Field("CENTROIDING_ALGORITHM", Str, UnitDimensionless),
    Field("CENTROID_GAINS", Str, UnitDimensionless),
    Field("SPOT_FWHM", Str, UnitDimensionless)
  ]

  /** The columns of AOT_WAVEFRONT_SENSORS_PYRAMID. */
  const WavefrontSensorPyramidFields: seq<Field> := [
    Field(ReferenceUid, Str, UnitDimensionless, mandatory := true, unique := true),
    Field("N_SIDES", Int, UnitCount, mandatory := true),
    Field("MODULATION", Flt, UnitMeters)
  ]

  /** The columns of AOT_WAVEFRONT_CORRECTORS. */
  const WavefrontCorrectorFields: seq<Field> := [
    Field(ReferenceUid, Str, UnitDimensionless, mandatory := true, unique := true),
    Field("TYPE", Str, UnitDimensionless, mandatory := true),
    Field(TelescopeReference, Str, UnitDimensionless, mandatory := true),
    Field("N_VALID_ACTUATORS", Int, UnitCount),
    Field("PUPIL_MASK", Str, UnitDimensionless),
    Field("TFZ_NUM", Lst, UnitDimensionless),
    Field("TFZ_DEN", Lst, UnitDimensionless),
    Field(GeometryReference, Str, UnitDimensionless),
    Field(AberrationReference, Str, UnitDimensionless)
  ]

  const WavefrontCorrectorTypeDm := "Deformable Mirror"
  const WavefrontCorrectorTypeTtm := "Tip-Tilt Mirror"
  const WavefrontCorrectorTypeLs := "Linear Stage"

  /** The columns of AOT_WAVEFRONT_CORRECTORS_DM. */
  const WavefrontCorrectorDmFields: seq<Field> := [
    Field(ReferenceUid, Str, UnitDimensionless, mandatory := true, unique := true),
    Field("ACTUATORS_X", Lst, UnitMeters),
    Field("ACTUATORS_Y", Lst, UnitMeters),
    Field("INFLUENCE_FUNCTION", Str, UnitDimensionless),
    Field("STROKE", Flt, UnitMeters)
  ]

  /** The columns of AOT_LOOPS. */
  const LoopsFields: seq<Field> := [
    Field(ReferenceUid, Str, UnitDimensionless, mandatory := true, unique := true),
    Field("TYPE", Str, UnitDimensionless, mandatory := true),
    Field("COMMANDED_UID", Str, UnitDimensionless, mandatory := true),
    Field(TimeReference, Str, UnitDimensionless),
    Field("STATUS", Str, UnitDimensionless),
    Field("COMMANDS", Str, UnitDimensionless),
    Field("REF_COMMANDS", Str, UnitDimensionless),
    Field("FRAMERATE", Flt, UnitHertz),
    Field("DELAY", Flt, UnitFrame),
    Field("TIME_FILTER_NUM", Str, UnitDimensionless),
    Field("TIME_FILTER_DEN", Str, UnitDimensionless)
  ]

  const LoopsTypeControl := "Control Loop"
  const LoopsTypeOffload := "Offload Loop"
  const LoopsStatusOpen := "Open"
  const LoopsStatusClosed := "Closed"

  /** The columns of AOT_LOOPS_CONTROL. */
  const LoopsControlFields: seq<Field> := [
    Field(ReferenceUid, Str, UnitDimensionless, mandatory := true, unique := true),
    Field("INPUT_SENSOR_UID", Str, UnitDimensionless, mandatory := true),
    Field("CONTROL_MATRIX", Str, UnitDimensionless),
    Field("MEASUREMENTS_TO_MODES", Str, UnitDimensionless),
    Field("MODES_TO_COMMANDS", Str, UnitDimensionless),
    Field("INTERACTION_MATRIX", Str, UnitDimensionless),
    Field("COMMANDS_TO_MODES", Str, UnitDimensionless),
    Field("MODES_TO_MEASUREMENTS", Str, UnitDimensionless),
    Field("RESIDUAL_COMMANDS", Str, UnitDimensionless)
  ]

  /** The columns of AOT_LOOPS_OFFLOAD. */
  const LoopsOffloadFields: seq<Field> := [
    Field(ReferenceUid, Str, UnitDimensionless, mandatory := true, unique := true),
    Field("INPUT_CORRECTOR_UID", Str, UnitDimensionless, mandatory := true),
    Field("OFFLOAD_MATRIX", Str, UnitDimensionless)
  ]

  /**
    The naming and flag conventions every column keeps: only the table's own
    identifier is unique, and a reference to another table's identifier is a
    dimensionless string.
   */
  predicate FollowsConventions(f: Field) {
    && (f.unique <==> f.name == ReferenceUid)
    && (IsReferenceName(f.name) ==> f.format == Str && f.unit == UnitDimensionless)
  }

  /** The columns a table is registered with: distinct names, each keeping the conventions. */
  predicate WellFormedColumns(fields: seq<Field>) {
    && Distinct(Names(fields))
    && forall i | 0 <= i < |fields| :: FollowsConventions(fields[i])
  }

  lemma TimeColumnNames()
    ensures Names(TimeFields) == [
      "UID", "TIMESTAMPS", "FRAME_NUMBERS"]
  {
  }

  lemma TimeColumnNamesDistinct()
    ensures Distinct([
      "UID", "TIMESTAMPS", "FRAME_NUMBERS"])
  {
  }

  lemma TimeColumnConventions()
    ensures forall i | 0 <= i < |TimeFields| :: FollowsConventions(TimeFields[i])
  {
  }

  lemma TimeColumns()
    ensures WellFormedColumns(TimeFields)
  {
    TimeColumnNames();
    TimeColumnNamesDistinct();
    TimeColumnConventions();
  }

  lemma GeometryColumnNames()
    ensures Names(GeometryFields) == [
      "UID", "TIME_UID", "ROTATION", "TRANSLATION_X", "TRANSLATION_Y", "MAGNIFICATION_X", "MAGNIFICATION_Y"]
  {
  }

  lemma GeometryColumnNamesDistinct()
    ensures Distinct([
      "UID", "TIME_UID", "ROTATION", "TRANSLATION_X", "TRANSLATION_Y", "MAGNIFICATION_X", "MAGNIFICATION_Y"])
  {
  }

  lemma GeometryColumnConventions()
    ensures forall i | 0 <= i < |GeometryFields| :: FollowsConventions(GeometryFields[i])
  {
  }

  lemma GeometryColumns()
    ensures WellFormedColumns(GeometryFields)
  {
    GeometryColumnNames();
    GeometryColumnNamesDistinct();
    GeometryColumnConventions();
  }

  lemma AtmosphericParametersColumnNames()
    ensures Names(AtmosphericParametersFields) == [
      "UID", "WAVELENGTH", "TIME_UID", "R0", "FWHM", "TAU0", "THETA0", "LAYERS_WEIGHT", "LAYERS_HEIGHT",
      "LAYERS_LO", "LAYERS_WIND_SPEED", "LAYERS_WIND_DIRECTION", "GEOMETRY_UID"]
  {
  }

  lemma AtmosphericParametersColumnNamesDistinct()
    ensures Distinct([
      "UID", "WAVELENGTH", "TIME_UID", "R0", "FWHM", "TAU0", "THETA0", "LAYERS_WEIGHT", "LAYERS_HEIGHT",
      "LAYERS_LO", "LAYERS_WIND_SPEED", "LAYERS_WIND_DIRECTION", "GEOMETRY_UID"])
  {
  }

  lemma AtmosphericParametersColumnConventions()
    ensures forall i | 0 <= i < |AtmosphericParametersFields| :: FollowsConventions(AtmosphericParametersFields[i])
  {
  }

  lemma AtmosphericParametersColumns()
    ensures WellFormedColumns(AtmosphericParametersFields)
  {
    AtmosphericParametersColumnNames();
    AtmosphericParametersColumnNamesDistinct();
    AtmosphericParametersColumnConventions();
  }

  lemma AberrationColumnNames()
    ensures Names(AberrationFields) == [
      "UID", "MODES", "COEFFICIENTS", "X_OFFSETS", "Y_OFFSETS"]
  {
  }

  lemma AberrationColumnNamesDistinct()
    ensures Distinct([
      "UID", "MODES", "COEFFICIENTS", "X_OFFSETS", "Y_OFFSETS"])
  {
  }

  lemma AberrationColumnConventions()
    ensures forall i | 0 <= i < |AberrationFields| :: FollowsConventions(AberrationFields[i])
  {
  }

  lemma AberrationColumns()
    ensures WellFormedColumns(AberrationFields)
  {
    AberrationColumnNames();
    AberrationColumnNamesDistinct();
    AberrationColumnConventions();
  }

  lemma TelescopeColumnNames()
    ensures Names(TelescopeFields) == [
      "UID", "TYPE", "LATITUDE", "LONGITUDE", "ELEVATION", "AZIMUTH", "PARALLACTIC", "PUPIL_MASK",
      "PUPIL_ANGLE", "ENCLOSING_D", "INSCRIBED_D", "OBSTRUCTION_D", "SEGMENT_TYPE", "SEGMENT_SIZE",
      "SEGMENTS_X", "SEGMENTS_Y", "GEOMETRY_UID", "ABERRATION_UID"]
  {
  }

  lemma TelescopeColumnNamesDistinct()
    ensures Distinct([
      "UID", "TYPE", "LATITUDE", "LONGITUDE", "ELEVATION", "AZIMUTH", "PARALLACTIC", "PUPIL_MASK",
      "PUPIL_ANGLE", "ENCLOSING_D", "INSCRIBED_D", "OBSTRUCTION_D", "SEGMENT_TYPE", "SEGMENT_SIZE",
      "SEGMENTS_X", "SEGMENTS_Y", "GEOMETRY_UID", "ABERRATION_UID"])
  {
  }

  lemma TelescopeColumnConventions()
    ensures forall i | 0 <= i < |TelescopeFields| :: FollowsConventions(TelescopeFields[i])
  {
  }

  lemma TelescopeColumns()
    ensures WellFormedColumns(TelescopeFields)
  {
    TelescopeColumnNames();
    TelescopeColumnNamesDistinct();
    TelescopeColumnConventions();
  }

  lemma SourceColumnNames()
    ensures Names(SourceFields) == [
      "UID", "TYPE", "RIGHT_ASCENSION", "DECLINATION", "ELEVATION_OFFSET", "AZIMUTH_OFFSET", "WIDTH"]
  {
  }

  lemma SourceColumnNamesDistinct()
    ensures Distinct([
      "UID", "TYPE", "RIGHT_ASCENSION", "DECLINATION", "ELEVATION_OFFSET", "AZIMUTH_OFFSET", "WIDTH"])
  {
  }

  lemma SourceColumnConventions()
    ensures forall i | 0 <= i < |SourceFields| :: FollowsConventions(SourceFields[i])
  {
  }

  lemma SourceColumns()
    ensures WellFormedColumns(SourceFields)
  {
    SourceColumnNames();
    SourceColumnNamesDistinct();
    SourceColumnConventions();
  }

  lemma SourceSodiumLgsColumnNames()
    ensures Names(SourceSodiumLgsFields) == [
      "UID", "HEIGHT", "PROFILE", "ALTITUDES", "LLT_UID"]
  {
  }

  lemma SourceSodiumLgsColumnNamesDistinct()
    ensures Distinct([
      "UID", "HEIGHT", "PROFILE", "ALTITUDES", "LLT_UID"])
  {
  }

  lemma SourceSodiumLgsColumnConventions()
    ensures forall i | 0 <= i < |SourceSodiumLgsFields| :: FollowsConventions(SourceSodiumLgsFields[i])
  {
  }

  lemma SourceSodiumLgsColumns()
    ensures WellFormedColumns(SourceSodiumLgsFields)
  {
    SourceSodiumLgsColumnNames();
    SourceSodiumLgsColumnNamesDistinct();
    SourceSodiumLgsColumnConventions();
  }

  lemma SourceRayleighLgsColumnNames()
    ensures Names(SourceRayleighLgsFields) == [
      "UID", "DISTANCE", "DEPTH", "LLT_UID"]
  {
  }

  lemma SourceRayleighLgsColumnNamesDistinct()
    ensures Distinct([
      "UID", "DISTANCE", "DEPTH", "LLT_UID"])
  {
  }

  lemma SourceRayleighLgsColumnConventions()
    ensures forall i | 0 <= i < |SourceRayleighLgsFields| :: FollowsConventions(SourceRayleighLgsFields[i])
  {
  }

  lemma SourceRayleighLgsColumns()
    ensures WellFormedColumns(SourceRayleighLgsFields)
  {
    SourceRayleighLgsColumnNames();
    SourceRayleighLgsColumnNamesDistinct();
    SourceRayleighLgsColumnConventions();
  }

  lemma DetectorColumnNames()
    ensures Names(DetectorFields) == [
      "UID", "TYPE", "SAMPLING_TECHNIQUE", "SHUTTER_TYPE", "FLAT_FIELD", "READOUT_NOISE",
      "PIXEL_INTENSITIES", "INTEGRATION_TIME", "COADDS", "DARK", "WEIGHT_MAP", "QUANTUM_EFFICIENCY",
      "PIXEL_SCALE", "BINNING", "BANDWIDTH", "TRANSMISSION_WAVELENGTH", "TRANSMISSION", "SKY_BACKGROUND",
      "GAIN", "EXCESS_NOISE", "FILTER", "BAD_PIXEL_MAP", "DYNAMIC_RANGE", "READOUT_RATE", "FRAME_RATE",
      "GEOMETRY_UID"]
  {
  }

  lemma DetectorColumnNamesDistinct()
    ensures Distinct([
      "UID", "TYPE", "SAMPLING_TECHNIQUE", "SHUTTER_TYPE", "FLAT_FIELD", "READOUT_NOISE",
      "PIXEL_INTENSITIES", "INTEGRATION_TIME", "COADDS", "DARK", "WEIGHT_MAP", "QUANTUM_EFFICIENCY",
      "PIXEL_SCALE", "BINNING", "BANDWIDTH", "TRANSMISSION_WAVELENGTH", "TRANSMISSION", "SKY_BACKGROUND",
      "GAIN", "EXCESS_NOISE", "FILTER", "BAD_PIXEL_MAP", "DYNAMIC_RANGE", "READOUT_RATE", "FRAME_RATE",
      "GEOMETRY_UID"])
  {
  }

  lemma DetectorColumnConventions()
    ensures forall i | 0 <= i < |DetectorFields| :: FollowsConventions(DetectorFields[i])
  {
  }

  lemma DetectorColumns()
    ensures WellFormedColumns(DetectorFields)
  {
    DetectorColumnNames();
    DetectorColumnNamesDistinct();
    DetectorColumnConventions();
  }

  lemma ScoringCameraColumnNames()
    ensures Names(ScoringCameraFields) == [
      "UID", "PUPIL_MASK", "WAVELENGTH", "GEOMETRY_UID", "DETECTOR_UID", "ABERRATION_UID"]
  {
  }

  lemma ScoringCameraColumnNamesDistinct()
    ensures Distinct([
      "UID", "PUPIL_MASK", "WAVELENGTH", "GEOMETRY_UID", "DETECTOR_UID", "ABERRATION_UID"])
  {
  }

  lemma ScoringCameraColumnConventions()
    ensures forall i | 0 <= i < |ScoringCameraFields| :: FollowsConventions(ScoringCameraFields[i])
  {
  }

  lemma ScoringCameraColumns()
    ensures WellFormedColumns(ScoringCameraFields)
  {
    ScoringCameraColumnNames();
    ScoringCameraColumnNamesDistinct();
    ScoringCameraColumnConventions();
  }

  lemma WavefrontSensorColumnNames()
    ensures Names(WavefrontSensorFields) == [
      "UID", "TYPE", "SOURCE_UID", "DIMENSIONS", "N_VALID_SUBAPERTURES", "MEASUREMENTS", "REF_MEASUREMENTS",
      "SUBAPERTURE_MASK", "MASK_X_OFFSETS", "MASK_Y_OFFSETS", "SUBAPERTURE_SIZE", "SUBAPERTURE_INTENSITIES",
      "WAVELENGTH", "OPTICAL_GAIN", "GEOMETRY_UID", "DETECTOR_UID", "ABERRATION_UID", "NCPA_UID"]
  {
  }

  lemma WavefrontSensorColumnNamesDistinct()
    ensures Distinct([
      "UID", "TYPE", "SOURCE_UID", "DIMENSIONS", "N_VALID_SUBAPERTURES", "MEASUREMENTS", "REF_MEASUREMENTS",
      "SUBAPERTURE_MASK", "MASK_X_OFFSETS", "MASK_Y_OFFSETS", "SUBAPERTURE_SIZE", "SUBAPERTURE_INTENSITIES",
      "WAVELENGTH", "OPTICAL_GAIN", "GEOMETRY_UID", "DETECTOR_UID", "ABERRATION_UID", "NCPA_UID"])
  {
  }

  lemma WavefrontSensorColumnConventions()
    ensures forall i | 0 <= i < |WavefrontSensorFields| :: FollowsConventions(WavefrontSensorFields[i])
  {
  }

  lemma WavefrontSensorColumns()
    ensures WellFormedColumns(WavefrontSensorFields)
  {
    WavefrontSensorColumnNames();
    WavefrontSensorColumnNamesDistinct();
    WavefrontSensorColumnConventions();
  }

  lemma WavefrontSensorShackHartmannColumnNames()
    ensures Names(WavefrontSensorShackHartmannFields) == [
      "UID", "CENTROIDING_ALGORITHM", "CENTROID_GAINS", "SPOT_FWHM"]
  {
  }

  lemma WavefrontSensorShackHartmannColumnNamesDistinct()
    ensures Distinct([
      "UID", "CENTROIDING_ALGORITHM", "CENTROID_GAINS", "SPOT_FWHM"])
  {
  }

  lemma WavefrontSensorShackHartmannColumnConventions()
    ensures forall i | 0 <= i < |WavefrontSensorShackHartmannFields| :: FollowsConventions(WavefrontSensorShackHartmannFields[i])
  {
  }

  lemma WavefrontSensorShackHartmannColumns()
    ensures WellFormedColumns(WavefrontSensorShackHartmannFields)
  {
    WavefrontSensorShackHartmannColumnNames();
    WavefrontSensorShackHartmannColumnNamesDistinct();
    WavefrontSensorShackHartmannColumnConventions();
  }

  lemma WavefrontSensorPyramidColumnNames()
    ensures Names(WavefrontSensorPyramidFields) == [
      "UID", "N_SIDES", "MODULATION"]
  {
  }

  lemma WavefrontSensorPyramidColumnNamesDistinct()
    ensures Distinct([
      "UID", "N_SIDES", "MODULATION"])
  {
  }

  lemma WavefrontSensorPyramidColumnConventions()
    ensures forall i | 0 <= i < |WavefrontSensorPyramidFields| :: FollowsConventions(WavefrontSensorPyramidFields[i])
  {
  }

  lemma WavefrontSensorPyramidColumns()
    ensures WellFormedColumns(WavefrontSensorPyramidFields)
  {
    WavefrontSensorPyramidColumnNames();
    WavefrontSensorPyramidColumnNamesDistinct();
    WavefrontSensorPyramidColumnConventions();
  }

  lemma WavefrontCorrectorColumnNames()
    ensures Names(WavefrontCorrectorFields) == [
      "UID", "TYPE", "TELESCOPE_UID", "N_VALID_ACTUATORS", "PUPIL_MASK", "TFZ_NUM", "TFZ_DEN",
      "GEOMETRY_UID", "ABERRATION_UID"]
  {
  }

  lemma WavefrontCorrectorColumnNamesDistinct()
    ensures Distinct([
      "UID", "TYPE", "TELESCOPE_UID", "N_VALID_ACTUATORS", "PUPIL_MASK", "TFZ_NUM", "TFZ_DEN",
      "GEOMETRY_UID", "ABERRATION_UID"])
  {
  }

  lemma WavefrontCorrectorColumnConventions()
    ensures forall i | 0 <= i < |WavefrontCorrectorFields| :: FollowsConventions(WavefrontCorrectorFields[i])
  {
  }

  lemma WavefrontCorrectorColumns()
    ensures WellFormedColumns(WavefrontCorrectorFields)
  {
    WavefrontCorrectorColumnNames();
    WavefrontCorrectorColumnNamesDistinct();
    WavefrontCorrectorColumnConventions();
  }

  lemma WavefrontCorrectorDmColumnNames()
    ensures Names(WavefrontCorrectorDmFields) == [
      "UID", "ACTUATORS_X", "ACTUATORS_Y", "INFLUENCE_FUNCTION", "STROKE"]
  {
  }

  lemma WavefrontCorrectorDmColumnNamesDistinct()
    ensures Distinct([
      "UID", "ACTUATORS_X", "ACTUATORS_Y", "INFLUENCE_FUNCTION", "STROKE"])
  {
  }

  lemma WavefrontCorrectorDmColumnConventions()
    ensures forall i | 0 <= i < |WavefrontCorrectorDmFields| :: FollowsConventions(WavefrontCorrectorDmFields[i])
  {
  }

  lemma WavefrontCorrectorDmColumns()
    ensures WellFormedColumns(WavefrontCorrectorDmFields)
  {
    WavefrontCorrectorDmColumnNames();
    WavefrontCorrectorDmColumnNamesDistinct();
    WavefrontCorrectorDmColumnConventions();
  }

  lemma LoopsColumnNames()
    ensures Names(LoopsFields) == [
      "UID", "TYPE", "COMMANDED_UID", "TIME_UID", "STATUS", "COMMANDS", "REF_COMMANDS", "FRAMERATE", "DELAY",
      "TIME_FILTER_NUM", "TIME_FILTER_DEN"]
  {
  }

  lemma LoopsColumnNamesDistinct()
    ensures Distinct([
      "UID", "TYPE", "COMMANDED_UID", "TIME_UID", "STATUS", "COMMANDS", "REF_COMMANDS", "FRAMERATE", "DELAY",
      "TIME_FILTER_NUM", "TIME_FILTER_DEN"])
  {
  }

  lemma LoopsColumnConventions()
    ensures forall i | 0 <= i < |LoopsFields| :: FollowsConventions(LoopsFields[i])
  {
  }

  lemma LoopsColumns()
    ensures WellFormedColumns(LoopsFields)
  {
    LoopsColumnNames();
    LoopsColumnNamesDistinct();
    LoopsColumnConventions();
  }

  lemma LoopsControlColumnNames()
    ensures Names(LoopsControlFields) == [
      "UID", "INPUT_SENSOR_UID", "CONTROL_MATRIX", "MEASUREMENTS_TO_MODES", "MODES_TO_COMMANDS",
      "INTERACTION_MATRIX", "COMMANDS_TO_MODES", "MODES_TO_MEASUREMENTS", "RESIDUAL_COMMANDS"]
  {
  }

  lemma LoopsControlColumnNamesDistinct()
    ensures Distinct([
      "UID", "INPUT_SENSOR_UID", "CONTROL_MATRIX", "MEASUREMENTS_TO_MODES", "MODES_TO_COMMANDS",
      "INTERACTION_MATRIX", "COMMANDS_TO_MODES", "MODES_TO_MEASUREMENTS", "RESIDUAL_COMMANDS"])
  {
  }

  lemma LoopsControlColumnConventions()
    ensures forall i | 0 <= i < |LoopsControlFields| :: FollowsConventions(LoopsControlFields[i])
  {
  }

  lemma LoopsControlColumns()
    ensures WellFormedColumns(LoopsControlFields)
  {
    LoopsControlColumnNames();
    LoopsControlColumnNamesDistinct();
    LoopsControlColumnConventions();
  }

  lemma LoopsOffloadColumnNames()
    ensures Names(LoopsOffloadFields) == [
      "UID", "INPUT_CORRECTOR_UID", "OFFLOAD_MATRIX"]
  {
  }

  lemma LoopsOffloadColumnNamesDistinct()
    ensures Distinct([
      "UID", "INPUT_CORRECTOR_UID", "OFFLOAD_MATRIX"])
  {
  }

  lemma LoopsOffloadColumnConventions()
    ensures forall i | 0 <= i < |LoopsOffloadFields| :: FollowsConventions(LoopsOffloadFields[i])
  {
  }

  lemma LoopsOffloadColumns()
    ensures WellFormedColumns(LoopsOffloadFields)
  {
    LoopsOffloadColumnNames();
    LoopsOffloadColumnNamesDistinct();
    LoopsOffloadColumnConventions();
  }

}
