/**
 The value types of the MDAL mesh data model: the extent box, the min/max
 statistics pair, the metadata list and the data location, together with the
 time types the model treats as opaque.
 */
module MdalValues {

  /** A value that may be absent; `None` plays the part of a null pointer or
      of the NaN sentinel. */
  datatype Option<+T> = None | Some(value: T)

  /** Axis-aligned extent of a mesh. Doubles are modelled as reals; nothing
      relates the minimum to the maximum. */
  datatype BBox = BBox(minX: real, maxX: real, minY: real, maxY: real)

  /** Aggregate minimum and maximum; `None` stands for the quiet NaN the
      source uses to mean "not computed". */
  datatype Statistics = Statistics(minimum: Option<real>, maximum: Option<real>)

  /** A default-initialised `Statistics`: both bounds are NaN. */
  const UnsetStatistics: Statistics := Statistics(None, None)

  predicate IsUnset(s: Statistics) {
    s.minimum.None? && s.maximum.None?
  }

  /** Ordered key/value pairs; keys need not be unique. */
  type Metadata = seq<(string, string)>

  /** Where the values of a dataset group live. */
  datatype DataLocation = DataOnVertices2D | DataOnFaces2D | DataOnVolumes3D

  /** Absolute time origin of a group; its representation is not part of this model. */
  type DateTime(==)

  /** Time of one dataset, relative to its group's reference time. */
  type RelativeTimestamp(==)

  /** Unit in which a relative timestamp is read or written. */
  type TimeUnit(==)
}
