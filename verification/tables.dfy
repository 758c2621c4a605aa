/**
  The eighteen AOT tables: their on-disk names, the split into the eleven
  tables every file has and the seven secondary tables that extend one of
  them, and the fixed order in which a file lists them.
 */
module Tables {
  import opened Wrappers
  import opened Fields

  datatype TableId =
    | Time
    | Geometry
    | AtmosphericParameters
    | Aberrations
    | Telescopes
    | Sources
    | SourcesSodiumLgs
    | SourcesRayleighLgs
    | Detectors
    | ScoringCameras
    | WavefrontSensors
    | WavefrontSensorsShackHartmann
    | WavefrontSensorsPyramid
    | WavefrontCorrectors
    | WavefrontCorrectorsDm
    | Loops
    | LoopsControl
    | LoopsOffload

  /** The extension name a table is stored under. */
  function Name(t: TableId): string {
    match t
    case Time => "AOT_TIME"
    case Geometry => "AOT_GEOMETRY"
    case AtmosphericParameters => "AOT_ATMOSPHERIC_PARAMETERS"
    case Aberrations => "AOT_ABERRATIONS"
    case Telescopes => "AOT_TELESCOPES"
    case Sources => "AOT_SOURCES"
    case SourcesSodiumLgs => "AOT_SOURCES_SODIUM_LGS"
    case SourcesRayleighLgs => "AOT_SOURCES_RAYLEIGH_LGS"
    case Detectors => "AOT_DETECTORS"
    case ScoringCameras => "AOT_SCORING_CAMERAS"
    case WavefrontSensors => "AOT_WAVEFRONT_SENSORS"
    case WavefrontSensorsShackHartmann => "AOT_WAVEFRONT_SENSORS_SHACK_HARTMANN"
    case WavefrontSensorsPyramid => "AOT_WAVEFRONT_SENSORS_PYRAMID"
    case WavefrontCorrectors => "AOT_WAVEFRONT_CORRECTORS"
    case WavefrontCorrectorsDm => "AOT_WAVEFRONT_CORRECTORS_DM"
    case Loops => "AOT_LOOPS"
    case LoopsControl => "AOT_LOOPS_CONTROL"
    case LoopsOffload => "AOT_LOOPS_OFFLOAD"
  }

  const MandatoryTables: set<TableId> :=
    {Time, Geometry, AtmosphericParameters, Aberrations, Telescopes, Sources, Detectors, ScoringCameras,
     WavefrontSensors, WavefrontCorrectors, Loops}

  const SecondaryTables: set<TableId> :=
    {SourcesSodiumLgs, SourcesRayleighLgs, WavefrontSensorsShackHartmann, WavefrontSensorsPyramid,
     WavefrontCorrectorsDm, LoopsControl, LoopsOffload}

  const AllTables: set<TableId> := MandatoryTables + SecondaryTables

  /** The order in which tables are written to a file. */
  const TableSequence: seq<TableId> :=
    [Time, Geometry, AtmosphericParameters, Aberrations, Telescopes, Sources, SourcesSodiumLgs,
     SourcesRayleighLgs, Detectors, ScoringCameras, WavefrontSensors, WavefrontSensorsShackHartmann,
     WavefrontSensorsPyramid, WavefrontCorrectors, WavefrontCorrectorsDm, Loops, LoopsControl, LoopsOffload]

  /** The on-disk names of a set of tables. */
  function NameSet(ts: set<TableId>): set<string> {
    set t | t in ts :: Name(t)
  }

  const MandatoryTableSet: set<string> := NameSet(MandatoryTables)
  const SecondaryTableSet: set<string> := NameSet(SecondaryTables)
  const TableSet: set<string> := MandatoryTableSet + SecondaryTableSet

  /** The table stored under an extension name, if any. */
  function TableNamed(name: string): (r: Option<TableId>)
    ensures r.Some? ==> Name(r.value) == name
  {
    if name == "AOT_TIME" then Some(Time)
    else if name == "AOT_GEOMETRY" then Some(Geometry)
    else if name == "AOT_ATMOSPHERIC_PARAMETERS" then Some(AtmosphericParameters)
    else if name == "AOT_ABERRATIONS" then Some(Aberrations)
    else if name == "AOT_TELESCOPES" then Some(Telescopes)
    else if name == "AOT_SOURCES" then Some(Sources)
    else if name == "AOT_SOURCES_SODIUM_LGS" then Some(SourcesSodiumLgs)
    else if name == "AOT_SOURCES_RAYLEIGH_LGS" then Some(SourcesRayleighLgs)
    else if name == "AOT_DETECTORS" then Some(Detectors)
    else if name == "AOT_SCORING_CAMERAS" then Some(ScoringCameras)
    else if name == "AOT_WAVEFRONT_SENSORS" then Some(WavefrontSensors)
    else if name == "AOT_WAVEFRONT_SENSORS_SHACK_HARTMANN" then Some(WavefrontSensorsShackHartmann)
    else if name == "AOT_WAVEFRONT_SENSORS_PYRAMID" then Some(WavefrontSensorsPyramid)
    else if name == "AOT_WAVEFRONT_CORRECTORS" then Some(WavefrontCorrectors)
    else if name == "AOT_WAVEFRONT_CORRECTORS_DM" then Some(WavefrontCorrectorsDm)
    else if name == "AOT_LOOPS" then Some(Loops)
    else if name == "AOT_LOOPS_CONTROL" then Some(LoopsControl)
    else if name == "AOT_LOOPS_OFFLOAD" then Some(LoopsOffload)
    else None
  }

  /** Every table is found again under its own name, so no two tables share a name. */
  lemma NameRoundTrip(t: TableId)
    ensures TableNamed(Name(t)) == Some(t)
  {
    match t {
      case Time =>
      case Geometry =>
      case AtmosphericParameters =>
      case Aberrations =>
      case Telescopes =>
      case Sources =>
      case SourcesSodiumLgs =>
      case SourcesRayleighLgs =>
      case Detectors =>
      case ScoringCameras =>
      case WavefrontSensors =>
      case WavefrontSensorsShackHartmann =>
      case WavefrontSensorsPyramid =>
      case WavefrontCorrectors =>
      case WavefrontCorrectorsDm =>
      case Loops =>
      case LoopsControl =>
      case LoopsOffload =>
    }
  }

  lemma NamesDistinct(t: TableId, u: TableId)
    ensures Name(t) == Name(u) <==> t == u
  {
    NameRoundTrip(t);
    NameRoundTrip(u);
  }

  /** Mandatory and secondary tables are disjoint and together are all eighteen tables. */
  lemma Taxonomy()
    ensures MandatoryTables !! SecondaryTables
    ensures |MandatoryTables| == 11 && |SecondaryTables| == 7 && |AllTables| == 18
    ensures forall t: TableId :: t in AllTables
  {
    forall t: TableId ensures t in AllTables {
      assert TableSequence[Position(t)] == t;
    }
  }

  /** Names are distinct, so a set of tables has as many names as tables. */
  lemma {:induction false} NameSetSize(ts: set<TableId>)
    ensures |NameSet(ts)| == |ts|
    decreases |ts|
  {
    if ts != {} {
      var t :| t in ts;
      var rest := ts - {t};
      NameSetSize(rest);
      assert NameSet(ts) == NameSet(rest) + {Name(t)};
      forall u | u in rest ensures Name(u) != Name(t) {
        NamesDistinct(u, t);
      }
      assert Name(t) !in NameSet(rest);
    }
  }

  /** A table's name is in a name set exactly when the table is in the underlying set. */
  lemma NameSetMembership(t: TableId, ts: set<TableId>)
    ensures Name(t) in NameSet(ts) <==> t in ts
  {
    if Name(t) in NameSet(ts) {
      var u :| u in ts && Name(u) == Name(t);
      NamesDistinct(t, u);
    }
  }

  /** The same partition, stated over the on-disk names. */
  lemma NameTaxonomy()
    ensures MandatoryTableSet !! SecondaryTableSet
    ensures |MandatoryTableSet| == 11 && |SecondaryTableSet| == 7 && |TableSet| == 18
    ensures forall t: TableId :: Name(t) in TableSet
  {
    Taxonomy();
    NameSetSize(MandatoryTables);
    NameSetSize(SecondaryTables);
    forall n | n in MandatoryTableSet ensures n !in SecondaryTableSet {
      var t :| t in MandatoryTables && Name(t) == n;
      NameSetMembership(t, SecondaryTables);
    }
    forall t: TableId ensures Name(t) in TableSet {
      NameSetMembership(t, MandatoryTables);
      NameSetMembership(t, SecondaryTables);
    }
  }

  /** A name resolves to a table exactly when it is one of the eighteen table names. */
  lemma TableNamedIsTableSet(name: string)
    ensures TableNamed(name).Some? <==> name in TableSet
  {
    NameTaxonomy();
    if name in TableSet {
      var t :| t in MandatoryTables + SecondaryTables && Name(t) == name;
      NameRoundTrip(t);
    }
  }

  /** The write order lists every table exactly once. */
  lemma SequenceIsPermutation()
    ensures |TableSequence| == |AllTables| == 18
    ensures Distinct(TableSequence)
    ensures forall t: TableId :: t in TableSequence
  {
    Taxonomy();
    forall t: TableId ensures t in TableSequence {
      assert TableSequence[Position(t)] == t;
    }
  }

  /** The index of a table in the write order. */
  function Position(t: TableId): (i: nat)
    ensures i < |TableSequence| && TableSequence[i] == t
  {
    match t
    case Time => 0
    case Geometry => 1
    case AtmosphericParameters => 2
    case Aberrations => 3
    case Telescopes => 4
    case Sources => 5
    case SourcesSodiumLgs => 6
    case SourcesRayleighLgs => 7
    case Detectors => 8
    case ScoringCameras => 9
    case WavefrontSensors => 10
    case WavefrontSensorsShackHartmann => 11
    case WavefrontSensorsPyramid => 12
    case WavefrontCorrectors => 13
    case WavefrontCorrectorsDm => 14
    case Loops => 15
    case LoopsControl => 16
    case LoopsOffload => 17
  }

  predicate IsPrefix(p: string, s: string) {
    |p| <= |s| && s[..|p|] == p
  }

  lemma PrefixAt(p: string, s: string, i: nat)
    requires IsPrefix(p, s) && i < |p|
    ensures s[i] == p[i]
  {
    assert s[..|p|][i] == s[i];
  }

  /**
    The mandatory table a secondary table extends: the one whose name,
    followed by an underscore, begins the secondary table's name.
   */
  function Parent(t: TableId): (p: TableId)
    requires t in SecondaryTables
    ensures p in MandatoryTables
    ensures IsPrefix(Name(p) + "_", Name(t))
    ensures Position(p) < Position(t)
  {
    match t
    case SourcesSodiumLgs => Sources
    case SourcesRayleighLgs => Sources
    case WavefrontSensorsShackHartmann => WavefrontSensors
    case WavefrontSensorsPyramid => WavefrontSensors
    case WavefrontCorrectorsDm => WavefrontCorrectors
    case LoopsControl => Loops
    case LoopsOffload => Loops
  }

  /** The characters a mandatory name shares with a name it begins. */
  lemma SharedCharacters(m: TableId, s: string)
    requires IsPrefix(Name(m) + "_", s)
    ensures s[4] == Name(m)[4] && s[5] == Name(m)[5]
    ensures |Name(m)| > 14 ==> s[14] == Name(m)[14]
  {
    var n := Name(m) + "_";
    PrefixAt(n, s, 4);
    PrefixAt(n, s, 5);
    if |n| > 14 {
      PrefixAt(n, s, 14);
    }
  }

  /** The fifth, sixth and fifteenth characters tell the mandatory names apart. */
  lemma MandatoryByCharacters(m: TableId)
    requires m in MandatoryTables
    ensures Name(m)[4] == 'S' && Name(m)[5] == 'O' ==> m == Sources
    ensures Name(m)[4] == 'L' && Name(m)[5] == 'O' ==> m == Loops
    ensures Name(m)[4] == 'W' ==> |Name(m)| > 14
    ensures Name(m)[4] == 'W' && Name(m)[14] == 'S' ==> m == WavefrontSensors
    ensures Name(m)[4] == 'W' && Name(m)[14] == 'C' ==> m == WavefrontCorrectors
  {
    match m {
      case Time =>
      case Geometry =>
      case AtmosphericParameters =>
      case Aberrations =>
      case Telescopes =>
      case Sources =>
      case Detectors =>
      case ScoringCameras =>
      case WavefrontSensors =>
      case WavefrontCorrectors =>
      case Loops =>
    }
  }

  /** The same characters of a secondary table's name identify its parent. */
  lemma SecondaryByCharacters(t: TableId)
    requires t in SecondaryTables
    ensures |Name(t)| > 14
    ensures Parent(t) == Sources ==> Name(t)[4] == 'S' && Name(t)[5] == 'O'
    ensures Parent(t) == Loops ==> Name(t)[4] == 'L' && Name(t)[5] == 'O'
    ensures Parent(t) == WavefrontSensors ==> Name(t)[4] == 'W' && Name(t)[14] == 'S'
    ensures Parent(t) == WavefrontCorrectors ==> Name(t)[4] == 'W' && Name(t)[14] == 'C'
    ensures Parent(t) in {Sources, Loops, WavefrontSensors, WavefrontCorrectors}
  {
    match t {
      case SourcesSodiumLgs =>
      case SourcesRayleighLgs =>
      case WavefrontSensorsShackHartmann =>
      case WavefrontSensorsPyramid =>
      case WavefrontCorrectorsDm =>
      case LoopsControl =>
      case LoopsOffload =>
    }
  }

  /** No other mandatory table's name begins a secondary table's name, so each secondary table has one parent. */
  lemma ParentIsUnique(t: TableId, m: TableId)
    requires t in SecondaryTables && m in MandatoryTables
    requires IsPrefix(Name(m) + "_", Name(t))
    ensures m == Parent(t)
  {
    SecondaryByCharacters(t);
    SharedCharacters(m, Name(t));
    MandatoryByCharacters(m);
  }
}
