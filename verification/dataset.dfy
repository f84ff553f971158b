/**
 One time step of values: the shared state of `Dataset` and its two shapes,
 a flat 2D dataset and a layered 3D dataset with fixed volume counts.
 */
module MdalDataset {
  import opened MdalValues
  import MdalReplay

  /** A dataset is either flat or layered. Both carry the state the base
      class keeps; the layered one also keeps its construction-time counts. */
  datatype Dataset =
    | Dataset2D(time: RelativeTimestamp, isValid: bool, supportsActiveFlag: bool,
                statistics: Statistics)
    | Dataset3D(time: RelativeTimestamp, isValid: bool, supportsActiveFlag: bool,
                statistics: Statistics, volumes: nat, maxVerticalLevelCount: nat)

  /** Behaviour whose definition is in code this model does not contain:
      the default relative timestamp, the conversions between a timestamp and
      a number in a given unit, and what the flat shape reports for its
      volume counts. */
  datatype DatasetRules = DatasetRules(
    defaultTime: RelativeTimestamp,
    timestamp: (real, TimeUnit) -> RelativeTimestamp,
    timeIn: (RelativeTimestamp, TimeUnit) -> real,
    flatVolumesCount: Dataset -> nat,
    flatMaximumVerticalLevelsCount: Dataset -> nat)

  /** Same shape: same variant and, when layered, the same counts. */
  predicate SameShape(d: Dataset, e: Dataset) {
    && d.Dataset3D? == e.Dataset3D?
    && (d.Dataset3D? ==> d.volumes == e.volumes && d.maxVerticalLevelCount == e.maxVerticalLevelCount)
  }

  /** A freshly constructed flat dataset. */
  function NewDataset2D(rules: DatasetRules): (d: Dataset)
    ensures d.Dataset2D?
    ensures d.isValid && !d.supportsActiveFlag
    ensures IsUnset(d.statistics)
    ensures d.time == rules.defaultTime
  {
    Dataset2D(rules.defaultTime, true, false, UnsetStatistics)
  }

  /** A freshly constructed layered dataset with `volumes` volume cells and
      at most `maxVerticalLevelCount` layers per column. */
  function NewDataset3D(rules: DatasetRules, volumes: nat, maxVerticalLevelCount: nat): (d: Dataset)
    ensures d.Dataset3D?
    ensures VolumesCount(rules, d) == volumes
    ensures MaximumVerticalLevelsCount(rules, d) == maxVerticalLevelCount
    ensures d.isValid && !d.supportsActiveFlag
    ensures IsUnset(d.statistics)
    ensures d.time == rules.defaultTime
  {
    Dataset3D(rules.defaultTime, true, false, UnsetStatistics, volumes, maxVerticalLevelCount)
  }

  /** Number of volume cells; the flat shape defers to its override, whose body the header does not give. */
  function VolumesCount(rules: DatasetRules, d: Dataset): (n: nat)
    ensures d.Dataset3D? ==> n == d.volumes
    ensures d.Dataset2D? ==> n == rules.flatVolumesCount(d)
  {
    match d
    case Dataset2D(_, _, _, _) => rules.flatVolumesCount(d)
    case Dataset3D(_, _, _, _, volumes, _) => volumes
  }

  /** Height of the tallest column; the flat shape defers to its override, whose body the header does not give. */
  function MaximumVerticalLevelsCount(rules: DatasetRules, d: Dataset): (n: nat)
    ensures d.Dataset3D? ==> n == d.maxVerticalLevelCount
    ensures d.Dataset2D? ==> n == rules.flatMaximumVerticalLevelsCount(d)
  {
    match d
    case Dataset2D(_, _, _, _) => rules.flatMaximumVerticalLevelsCount(d)
    case Dataset3D(_, _, _, _, _, levels) => levels
  }

  /** The dataset's time read in `unit`. */
  function Time(rules: DatasetRules, d: Dataset, unit: TimeUnit): (r: real)
    ensures r == rules.timeIn(d.time, unit)
  {
    rules.timeIn(d.time, unit)
  }

  function SetStatistics(d: Dataset, statistics: Statistics): (r: Dataset)
    ensures r.statistics == statistics
    ensures r.time == d.time && r.isValid == d.isValid
    ensures r.supportsActiveFlag == d.supportsActiveFlag && SameShape(d, r)
  {
    d.(statistics := statistics)
  }

  /** `setTime( const RelativeTimestamp & )`. */
  function SetTime(d: Dataset, time: RelativeTimestamp): (r: Dataset)
    ensures r.time == time
    ensures r.statistics == d.statistics && r.isValid == d.isValid
    ensures r.supportsActiveFlag == d.supportsActiveFlag && SameShape(d, r)
  {
    d.(time := time)
  }

  /** `setTime( double, Unit )`: the number is turned into a timestamp by a
      conversion defined outside the header. */
  function SetTimeIn(rules: DatasetRules, d: Dataset, value: real, unit: TimeUnit): (r: Dataset)
    ensures r.time == rules.timestamp(value, unit)
    ensures r.statistics == d.statistics && r.isValid == d.isValid
    ensures r.supportsActiveFlag == d.supportsActiveFlag && SameShape(d, r)
  {
    SetTime(d, rules.timestamp(value, unit))
  }

  function SetSupportsActiveFlag(d: Dataset, value: bool): (r: Dataset)
    ensures r.supportsActiveFlag == value
    ensures r.time == d.time && r.statistics == d.statistics
    ensures r.isValid == d.isValid && SameShape(d, r)
  {
    d.(supportsActiveFlag := value)
  }

  /** Every mutation the public interface offers on a dataset; the non-const
      `activeData` is taken to be a pure read. */
  datatype DatasetUpdate =
    | UpdateStatistics(statistics: Statistics)
    | UpdateTime(time: RelativeTimestamp)
    | UpdateTimeIn(value: real, unit: TimeUnit)
    | UpdateActiveFlagSupport(supported: bool)

  function Apply(rules: DatasetRules, d: Dataset, u: DatasetUpdate): Dataset {
    match u
    case UpdateStatistics(s) => SetStatistics(d, s)
    case UpdateTime(t) => SetTime(d, t)
    case UpdateTimeIn(v, unit) => SetTimeIn(rules, d, v, unit)
    case UpdateActiveFlagSupport(b) => SetSupportsActiveFlag(d, b)
  }

  /** The dataset after the updates `us`, in order. */
  function ApplyAll(rules: DatasetRules, d: Dataset, us: seq<DatasetUpdate>): Dataset
  {
    MdalReplay.Replay((x: Dataset, u) => Apply(rules, x, u), d, us)
  }

  /** No public mutation touches validity or the shape. */
  lemma {:induction false} UpdatesKeepValidityAndShape(rules: DatasetRules, d: Dataset, us: seq<DatasetUpdate>)
    ensures ApplyAll(rules, d, us).isValid == d.isValid
    ensures SameShape(d, ApplyAll(rules, d, us))
    decreases |us|
  {
    if |us| > 0 {
      UpdatesKeepValidityAndShape(rules, Apply(rules, d, us[0]), us[1..]);
    }
  }

  /** Every dataset reachable through the public interface is valid. */
  lemma ConstructedDatasetsStayValid(rules: DatasetRules, volumes: nat, maxVerticalLevelCount: nat,
                                     us: seq<DatasetUpdate>)
    ensures ApplyAll(rules, NewDataset2D(rules), us).isValid
    ensures ApplyAll(rules, NewDataset3D(rules, volumes, maxVerticalLevelCount), us).isValid
  {
    UpdatesKeepValidityAndShape(rules, NewDataset2D(rules), us);
    UpdatesKeepValidityAndShape(rules, NewDataset3D(rules, volumes, maxVerticalLevelCount), us);
  }

  /** A layered dataset reports its construction counts for its whole life. */
  lemma Dataset3DCountsFixed(rules: DatasetRules, volumes: nat, maxVerticalLevelCount: nat,
                             us: seq<DatasetUpdate>)
    ensures var d := ApplyAll(rules, NewDataset3D(rules, volumes, maxVerticalLevelCount), us);
      && d.Dataset3D?
      && VolumesCount(rules, d) == volumes
      && MaximumVerticalLevelsCount(rules, d) == maxVerticalLevelCount
  {
    UpdatesKeepValidityAndShape(rules, NewDataset3D(rules, volumes, maxVerticalLevelCount), us);
  }

  /** Reference definition of the stored time: the last time setter in `us`
      decides it, and with none it is `initial`. */
  function TimeAfter(rules: DatasetRules, us: seq<DatasetUpdate>, initial: RelativeTimestamp): RelativeTimestamp
    decreases |us|
  {
    if |us| == 0 then initial
    else match us[|us| - 1]
      case UpdateTime(t) => t
      case UpdateTimeIn(v, unit) => rules.timestamp(v, unit)
      case _ => TimeAfter(rules, us[..|us| - 1], initial)
  }

  /** `time( unit )` after any updates reads the timestamp the last time
      setter stored, or the earlier one when no time setter was called. */
  lemma {:induction false} TimeFollowsLastSetter(rules: DatasetRules, d: Dataset, us: seq<DatasetUpdate>,
                                                 unit: TimeUnit)
    ensures ApplyAll(rules, d, us).time == TimeAfter(rules, us, d.time)
    ensures Time(rules, ApplyAll(rules, d, us), unit) == rules.timeIn(TimeAfter(rules, us, d.time), unit)
    decreases |us|
  {
    if |us| > 0 {
      var n := |us| - 1;
      assert us == us[..n] + [us[n]];
      MdalReplay.ReplaySnoc((x: Dataset, u) => Apply(rules, x, u), d, us[..n], us[n]);
      TimeFollowsLastSetter(rules, d, us[..n], unit);
    }
  }
}
