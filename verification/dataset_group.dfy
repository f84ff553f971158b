/**
 A dataset group: a named collection of datasets with one data location and
 shape, its metadata list, aggregate statistics, reference time and the
 edit-mode flag that brackets bulk changes.
 */
module MdalDatasetGroup {
  import opened MdalValues
  import MdalReplay
  import MdalDataset

  datatype DatasetGroup = DatasetGroup(
    driverName: string,
    uri: string,
    metadata: Metadata,
    datasets: seq<MdalDataset.Dataset>,
    isScalar: bool,
    dataLocation: DataLocation,
    statistics: Statistics,
    referenceTime: DateTime,
    inEditMode: bool)

  /** Behaviour whose definition is in code this model does not contain:
      the metadata a new group starts with, the default `DateTime`, the
      metadata update and lookup rules, how the name is read from and written
      into the metadata (the group has no other member that could hold it),
      the statistics `stopEditing` recomputes, and the group's derived
      maximum vertical level count. */
  datatype GroupRules = GroupRules(
    initialMetadata: (string, Option<string>) -> Metadata,
    defaultReferenceTime: DateTime,
    setMetadata: (Metadata, string, string) -> Metadata,
    getMetadata: (Metadata, string) -> string,
    nameOf: Metadata -> string,
    withName: (Metadata, string) -> Metadata,
    recomputedStatistics: DatasetGroup -> Statistics,
    maximumVerticalLevelsCount: DatasetGroup -> nat)

  /** The observable parts of a group, one per attribute. */
  datatype GroupAttribute =
    | DriverNameAttr | UriAttr | MetadataAttr | DatasetsAttr
    | IsScalarAttr | DataLocationAttr | StatisticsAttr | ReferenceTimeAttr | EditModeAttr

  datatype GroupValue =
    | Text(text: string)
    | Flag(flag: bool)
    | Pairs(pairs: Metadata)
    | Members(members: seq<MdalDataset.Dataset>)
    | Location(location: DataLocation)
    | Stats(stats: Statistics)
    | Instant(instant: DateTime)

  /** What a caller reads from attribute `a` of `g`. */
  function Observe(g: DatasetGroup, a: GroupAttribute): GroupValue {
    match a
    case DriverNameAttr => Text(g.driverName)
    case UriAttr => Text(g.uri)
    case MetadataAttr => Pairs(g.metadata)
    case DatasetsAttr => Members(g.datasets)
    case IsScalarAttr => Flag(g.isScalar)
    case DataLocationAttr => Location(g.dataLocation)
    case StatisticsAttr => Stats(g.statistics)
    case ReferenceTimeAttr => Instant(g.referenceTime)
    case EditModeAttr => Flag(g.inEditMode)
  }

  /** `g` and `h` read the same on every attribute outside `touched`. */
  predicate AgreeOutside(g: DatasetGroup, h: DatasetGroup, touched: set<GroupAttribute>) {
    forall a :: a !in touched ==> Observe(g, a) == Observe(h, a)
  }

  /** The attributes are a complete view: two groups that read the same on
      every one of them are the same group. */
  lemma ObservationsDetermineGroup(g: DatasetGroup, h: DatasetGroup)
    requires AgreeOutside(g, h, {})
    ensures g == h
  {
    assert Observe(g, DriverNameAttr) == Observe(h, DriverNameAttr);
    assert Observe(g, UriAttr) == Observe(h, UriAttr);
    assert Observe(g, MetadataAttr) == Observe(h, MetadataAttr);
    assert Observe(g, DatasetsAttr) == Observe(h, DatasetsAttr);
    assert Observe(g, IsScalarAttr) == Observe(h, IsScalarAttr);
    assert Observe(g, DataLocationAttr) == Observe(h, DataLocationAttr);
    assert Observe(g, StatisticsAttr) == Observe(h, StatisticsAttr);
    assert Observe(g, ReferenceTimeAttr) == Observe(h, ReferenceTimeAttr);
    assert Observe(g, EditModeAttr) == Observe(h, EditModeAttr);
  }

  /** Both constructors: `name` is `None` for the one without a name. */
  function NewDatasetGroup(rules: GroupRules, driverName: string, uri: string, name: Option<string>)
    : (g: DatasetGroup)
    ensures g.driverName == driverName && g.uri == uri
    ensures !g.inEditMode
    ensures g.isScalar
    ensures g.dataLocation == DataOnVertices2D
    ensures IsUnset(g.statistics)
    ensures g.datasets == []
    ensures g.referenceTime == rules.defaultReferenceTime
  {
    DatasetGroup(driverName, uri, rules.initialMetadata(uri, name), [],
                 true, DataOnVertices2D, UnsetStatistics, rules.defaultReferenceTime, false)
  }

  /** `name()`: read from the metadata by a rule defined outside the header. */
  function Name(rules: GroupRules, g: DatasetGroup): (r: string)
    ensures r == rules.nameOf(g.metadata)
  {
    rules.nameOf(g.metadata)
  }

  /** `setName`: writes the name into the metadata by a rule defined outside
      the header; nothing but the metadata changes. */
  function SetName(rules: GroupRules, g: DatasetGroup, name: string): (r: DatasetGroup)
    ensures r.metadata == rules.withName(g.metadata, name)
    ensures AgreeOutside(g, r, {MetadataAttr})
  {
    g.(metadata := rules.withName(g.metadata, name))
  }

  function SetIsScalar(g: DatasetGroup, isScalar: bool): (r: DatasetGroup)
    ensures r.isScalar == isScalar
    ensures AgreeOutside(g, r, {IsScalarAttr})
  {
    g.(isScalar := isScalar)
  }

  function SetDataLocation(g: DatasetGroup, dataLocation: DataLocation): (r: DatasetGroup)
    ensures r.dataLocation == dataLocation
    ensures AgreeOutside(g, r, {DataLocationAttr})
  {
    g.(dataLocation := dataLocation)
  }

  function SetStatistics(g: DatasetGroup, statistics: Statistics): (r: DatasetGroup)
    ensures r.statistics == statistics
    ensures AgreeOutside(g, r, {StatisticsAttr})
  {
    g.(statistics := statistics)
  }

  function SetReferenceTime(g: DatasetGroup, referenceTime: DateTime): (r: DatasetGroup)
    ensures r.referenceTime == referenceTime
    ensures AgreeOutside(g, r, {ReferenceTimeAttr})
  {
    g.(referenceTime := referenceTime)
  }

  /** The metadata list changes by an update rule defined outside the header; nothing else does. */
  function SetMetadata(rules: GroupRules, g: DatasetGroup, key: string, value: string): (r: DatasetGroup)
    ensures r.metadata == rules.setMetadata(g.metadata, key, value)
    ensures AgreeOutside(g, r, {MetadataAttr})
  {
    g.(metadata := rules.setMetadata(g.metadata, key, value))
  }

  /** Value stored under `key`, by a lookup rule defined outside the header. */
  function GetMetadata(rules: GroupRules, g: DatasetGroup, key: string): (r: string)
    ensures r == rules.getMetadata(g.metadata, key)
  {
    rules.getMetadata(g.metadata, key)
  }

  /** Derived tallest-column count, by a rule defined outside the header. */
  function MaximumVerticalLevelsCount(rules: GroupRules, g: DatasetGroup): (n: nat)
    ensures n == rules.maximumVerticalLevelsCount(g)
  {
    rules.maximumVerticalLevelsCount(g)
  }

  /** Enters edit mode; entering again while editing changes nothing. */
  function StartEditing(g: DatasetGroup): (r: DatasetGroup)
    ensures r.inEditMode
    ensures AgreeOutside(g, r, {EditModeAttr})
  {
    g.(inEditMode := true)
  }

  /** Leaves edit mode and replaces the statistics by their recomputation. */
  function StopEditing(rules: GroupRules, g: DatasetGroup): (r: DatasetGroup)
    ensures !r.inEditMode
    ensures r.statistics == rules.recomputedStatistics(g)
    ensures AgreeOutside(g, r, {EditModeAttr, StatisticsAttr})
  {
    g.(inEditMode := false, statistics := rules.recomputedStatistics(g))
  }

  /** Every mutation the public interface offers on a group, including
      assignment to its public `metadata` and `datasets` members; the
      non-const `name()` and `getMetadata` are taken to be pure reads. */
  datatype GroupUpdate =
    | UpdateName(name: string)
    | UpdateIsScalar(isScalar: bool)
    | UpdateDataLocation(dataLocation: DataLocation)
    | UpdateStatistics(statistics: Statistics)
    | UpdateReferenceTime(referenceTime: DateTime)
    | UpdateMetadataEntry(key: string, value: string)
    | AssignMetadata(metadata: Metadata)
    | AssignDatasets(datasets: seq<MdalDataset.Dataset>)
    | BeginEditing
    | EndEditing

  function Apply(rules: GroupRules, g: DatasetGroup, u: GroupUpdate): DatasetGroup {
    match u
    case UpdateName(n) => SetName(rules, g, n)
    case UpdateIsScalar(b) => SetIsScalar(g, b)
    case UpdateDataLocation(l) => SetDataLocation(g, l)
    case UpdateStatistics(s) => SetStatistics(g, s)
    case UpdateReferenceTime(t) => SetReferenceTime(g, t)
    case UpdateMetadataEntry(k, v) => SetMetadata(rules, g, k, v)
    case AssignMetadata(md) => g.(metadata := md)
    case AssignDatasets(ds) => g.(datasets := ds)
    case BeginEditing => StartEditing(g)
    case EndEditing => StopEditing(rules, g)
  }

  /** The group after the updates `us`, in order. */
  function ApplyAll(rules: GroupRules, g: DatasetGroup, us: seq<GroupUpdate>): DatasetGroup
  {
    MdalReplay.Replay((x: DatasetGroup, u) => Apply(rules, x, u), g, us)
  }

  /** No public mutation changes the driver name or the uri. */
  lemma {:induction false} UpdatesKeepIdentity(rules: GroupRules, g: DatasetGroup, us: seq<GroupUpdate>)
    ensures ApplyAll(rules, g, us).driverName == g.driverName
    ensures ApplyAll(rules, g, us).uri == g.uri
    decreases |us|
  {
    if |us| > 0 {
      UpdatesKeepIdentity(rules, Apply(rules, g, us[0]), us[1..]);
    }
  }

  /** Only the updates that write the metadata list can change the name. */
  lemma {:induction false} NameChangesOnlyThroughMetadata(rules: GroupRules, g: DatasetGroup,
                                                          us: seq<GroupUpdate>)
    requires forall i :: 0 <= i < |us| ==>
      !us[i].UpdateName? && !us[i].UpdateMetadataEntry? && !us[i].AssignMetadata?
    ensures ApplyAll(rules, g, us).metadata == g.metadata
    ensures Name(rules, ApplyAll(rules, g, us)) == Name(rules, g)
    decreases |us|
  {
    if |us| > 0 {
      NameChangesOnlyThroughMetadata(rules, Apply(rules, g, us[0]), us[1..]);
    }
  }

  /** Updates that never write the metadata list leave every metadata lookup as it was. */
  lemma {:induction false} MetadataLookupUnchanged(rules: GroupRules, g: DatasetGroup,
                                                   us: seq<GroupUpdate>, key: string)
    requires forall i :: 0 <= i < |us| ==>
      !us[i].UpdateName? && !us[i].UpdateMetadataEntry? && !us[i].AssignMetadata?
    ensures GetMetadata(rules, ApplyAll(rules, g, us), key) == GetMetadata(rules, g, key)
  {
    NameChangesOnlyThroughMetadata(rules, g, us);
  }

  /** A group keeps the driver name and uri it was built with for its whole life. */
  lemma GroupIdentityForLifetime(rules: GroupRules, driverName: string, uri: string,
                                 name: Option<string>, us: seq<GroupUpdate>)
    ensures ApplyAll(rules, NewDatasetGroup(rules, driverName, uri, name), us).driverName == driverName
    ensures ApplyAll(rules, NewDatasetGroup(rules, driverName, uri, name), us).uri == uri
  {
    UpdatesKeepIdentity(rules, NewDatasetGroup(rules, driverName, uri, name), us);
  }

  /** Reference definition of the edit-mode flag: the last bracket call in
      `us` decides it, and with none the flag is `initial`. */
  function EditModeAfter(us: seq<GroupUpdate>, initial: bool): bool
    decreases |us|
  {
    if |us| == 0 then initial
    else match us[|us| - 1]
      case BeginEditing => true
      case EndEditing => false
      case _ => EditModeAfter(us[..|us| - 1], initial)
  }

  /** The group is in edit mode exactly when the last bracket call was `startEditing`. */
  lemma {:induction false} EditModeFollowsLastBracket(rules: GroupRules, g: DatasetGroup, us: seq<GroupUpdate>)
    ensures ApplyAll(rules, g, us).inEditMode == EditModeAfter(us, g.inEditMode)
    decreases |us|
  {
    if |us| > 0 {
      var n := |us| - 1;
      assert us == us[..n] + [us[n]];
      MdalReplay.ReplaySnoc((x: DatasetGroup, u) => Apply(rules, x, u), g, us[..n], us[n]);
      EditModeFollowsLastBracket(rules, g, us[..n]);
    }
  }

  /** A group that is not editing stays out of edit mode until it calls
      `startEditing`; a new group is such a group. */
  lemma NeverEditedIsNotEditing(rules: GroupRules, g: DatasetGroup, us: seq<GroupUpdate>)
    requires !g.inEditMode
    requires forall i :: 0 <= i < |us| ==> !us[i].BeginEditing?
    ensures !ApplyAll(rules, g, us).inEditMode
  {
    EditModeFollowsLastBracket(rules, g, us);
    NoBeginKeepsEditModeOff(us);
  }

  lemma {:induction false} NoBeginKeepsEditModeOff(us: seq<GroupUpdate>)
    requires forall i :: 0 <= i < |us| ==> !us[i].BeginEditing?
    ensures !EditModeAfter(us, false)
    decreases |us|
  {
    if |us| > 0 {
      NoBeginKeepsEditModeOff(us[..|us| - 1]);
    }
  }
}
