/**
  The fixed vocabulary of the AOT FITS format that lives outside any table:
  the format version, the primary-header keywords and the closed set of
  adaptive-optics modes, the reference keywords used inside tables, and the
  unit strings fields are annotated with.
 */
module Keywords {

  const CurrentAotVersion := "0.5"

  // Reference kinds an image or a value can be given as.
  const RowReference := "ROWREF"
  const InternalReference := "INTREF"
  const FileReference := "FILEREF"
  const UrlReference := "URLREF"
  const ImageUnit := "BUNIT"

  // Units.
  const UnitDimensionless := "1"
  const UnitCount := "count"
  const UnitMeters := "m"
  const UnitSeconds := "s"
  const UnitRadians := "rad"
  const UnitDegrees := "deg"
  const UnitElectrons := "electron"
  const UnitPixels := "pix"
  const UnitDecibels := "dB"
  const UnitFrame := "frame"
  const UnitHertz := "Hz"
  const UnitArcsec := "arcsec"

  // Primary-header keywords of an AO system.
  const AotVersion := "AOT-VERS"
  const AotAoMode := "AO-MODE"
  const AotTimesys := "TIMESYS"
  const AotTimesysUtc := "UTC"
  const AotDateBeg := "DATE-BEG"
  const AotDateEnd := "DATE-END"
  const AotStrehlRatio := "STREHL-R"
  const AotTemporalError := "TEMP-ERR"
  const AotConfig := "CONFIG"

  const AotAoModeSet: set<string> := {"SCAO", "SLAO", "GLAO", "MOAO", "LTAO", "MCAO"}

  const AotHeaderSet: set<string> :=
    {AotVersion, AotAoMode, AotTimesys, AotDateBeg, AotDateEnd, AotStrehlRatio, AotTemporalError, AotConfig}

  // A table's own identifier, and the fields that refer to another table's.
  const ReferenceUid := "UID"
  const TimeReference := "TIME_UID"
  const GeometryReference := "GEOMETRY_UID"
  const AberrationReference := "ABERRATION_UID"
  const LaserLaunchTelescopeReference := "LLT_UID"
  const DetectorReference := "DETECTOR_UID"
  const SourceReference := "SOURCE_UID"
  const NcpaReference := "NCPA_UID"
  const TelescopeReference := "TELESCOPE_UID"

  /** The suffix every reference field name ends in. */
  const ReferenceSuffix := "_UID"

  /** Whether a field name ends in the reference suffix, checked character by character. */
  predicate IsReferenceName(name: string) {
    var n := |name|;
    n >= 4 && name[n - 4] == '_' && name[n - 3] == 'U' && name[n - 2] == 'I' && name[n - 1] == 'D'
  }

  /** The character test is exactly "the name ends with the suffix". */
  lemma ReferenceNameIsSuffix(name: string)
    ensures IsReferenceName(name) <==>
      |name| >= |ReferenceSuffix| && name[|name| - |ReferenceSuffix|..] == ReferenceSuffix
  {
    if |name| >= 4 {
      var tail := name[|name| - 4..];
      assert tail[0] == name[|name| - 4] && tail[1] == name[|name| - 3];
      assert tail[2] == name[|name| - 2] && tail[3] == name[|name| - 1];
    }
  }

  /** Eight distinct header keywords, six distinct AO modes, none of them a reference field. */
  lemma HeaderVocabulary()
    ensures |AotHeaderSet| == 8
    ensures |AotAoModeSet| == 6
    ensures forall k | k in AotHeaderSet :: !IsReferenceName(k)
  {
  }

  /** The shared reference keywords follow the suffix convention, and the table identifier does not. */
  lemma ReferenceVocabulary()
    ensures !IsReferenceName(ReferenceUid)
    ensures IsReferenceName(TimeReference) && IsReferenceName(GeometryReference)
    ensures IsReferenceName(AberrationReference) && IsReferenceName(LaserLaunchTelescopeReference)
    ensures IsReferenceName(DetectorReference) && IsReferenceName(SourceReference)
    ensures IsReferenceName(NcpaReference) && IsReferenceName(TelescopeReference)
  {
  }
}
