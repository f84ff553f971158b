/**
 The mesh: geometry counts, extent and provenance fixed when it is built,
 the one settable coordinate reference string, and the ordered dataset
 groups with lookup by name.
 */
module MdalMesh {
  import opened MdalValues
  import MdalReplay
  import MdalDatasetGroup

  datatype Mesh = Mesh(
    driverName: string,
    verticesCount: nat,
    facesCount: nat,
    faceVerticesMaximumCount: nat,
    extent: BBox,
    uri: string,
    crs: string,
    datasetGroups: seq<MdalDatasetGroup.DatasetGroup>)

  /** Behaviour whose definition is in code this model does not contain:
      the crs a new mesh reports, and the string each crs setter stores for
      its argument. */
  datatype MeshRules = MeshRules(
    initialCrs: string,
    crsFromText: string -> string,
    crsFromWkt: string -> string)

  /** The construction-time part of `m` is the same in `n`. */
  predicate SameGeometry(m: Mesh, n: Mesh) {
    && m.driverName == n.driverName
    && m.verticesCount == n.verticesCount
    && m.facesCount == n.facesCount
    && m.faceVerticesMaximumCount == n.faceVerticesMaximumCount
    && m.extent == n.extent
    && m.uri == n.uri
  }

  /** The mesh built by the constructor, before any group is attached. */
  function NewMesh(rules: MeshRules, driverName: string, verticesCount: nat, facesCount: nat,
                   faceVerticesMaximumCount: nat, extent: BBox, uri: string): (m: Mesh)
    ensures m.driverName == driverName
    ensures m.verticesCount == verticesCount && m.facesCount == facesCount
    ensures m.faceVerticesMaximumCount == faceVerticesMaximumCount
    ensures m.extent == extent && m.uri == uri
    ensures m.datasetGroups == []
  {
    Mesh(driverName, verticesCount, facesCount, faceVerticesMaximumCount, extent, uri,
         rules.initialCrs, [])
  }

  /** Stores the crs derived from `text`; geometry and groups are untouched. */
  function SetSourceCrs(rules: MeshRules, m: Mesh, text: string): (r: Mesh)
    ensures r.crs == rules.crsFromText(text)
    ensures SameGeometry(m, r) && r.datasetGroups == m.datasetGroups
  {
    m.(crs := rules.crsFromText(text))
  }

  /** Stores the crs derived from `wkt`; geometry and groups are untouched. */
  function SetSourceCrsFromWkt(rules: MeshRules, m: Mesh, wkt: string): (r: Mesh)
    ensures r.crs == rules.crsFromWkt(wkt)
    ensures SameGeometry(m, r) && r.datasetGroups == m.datasetGroups
  {
    m.(crs := rules.crsFromWkt(wkt))
  }

  /** Some group in `groups` is called `name`, each name read by `groupRules`. */
  predicate HasGroupNamed(groupRules: MdalDatasetGroup.GroupRules,
                          groups: seq<MdalDatasetGroup.DatasetGroup>, name: string) {
    exists i :: 0 <= i < |groups| && MdalDatasetGroup.Name(groupRules, groups[i]) == name
  }

  /** `group( name )`: the position in `datasetGroups` of a group called
      `name`, or `None` (the empty pointer) when there is none. Which of
      several equally named groups is found is not promised. */
  method Group(groupRules: MdalDatasetGroup.GroupRules, m: Mesh, name: string) returns (r: Option<nat>)
    ensures r.Some? ==>
      r.value < |m.datasetGroups| && MdalDatasetGroup.Name(groupRules, m.datasetGroups[r.value]) == name
    ensures r.None? <==> !HasGroupNamed(groupRules, m.datasetGroups, name)
  {
    var i := 0;
    while i < |m.datasetGroups|
      invariant 0 <= i <= |m.datasetGroups|
      invariant forall j :: 0 <= j < i ==> MdalDatasetGroup.Name(groupRules, m.datasetGroups[j]) != name
    {
      if MdalDatasetGroup.Name(groupRules, m.datasetGroups[i]) == name {
        return Some(i);
      }
      i := i + 1;
    }
    return None;
  }

  /** Every modelled mutation of a mesh: the text and WKT crs setters and
      assignment to the public `datasetGroups` member. The EPSG and
      projection-file crs setters are not part of this model. */
  datatype MeshUpdate =
    | UpdateCrs(text: string)
    | UpdateCrsFromWkt(wkt: string)
    | AssignGroups(groups: seq<MdalDatasetGroup.DatasetGroup>)

  function Apply(rules: MeshRules, m: Mesh, u: MeshUpdate): Mesh {
    match u
    case UpdateCrs(s) => SetSourceCrs(rules, m, s)
    case UpdateCrsFromWkt(s) => SetSourceCrsFromWkt(rules, m, s)
    case AssignGroups(gs) => m.(datasetGroups := gs)
  }

  /** The mesh after the updates `us`, in order. */
  function ApplyAll(rules: MeshRules, m: Mesh, us: seq<MeshUpdate>): Mesh
  {
    MdalReplay.Replay((x: Mesh, u) => Apply(rules, x, u), m, us)
  }

  /** No modelled mutation changes the geometry. */
  lemma {:induction false} UpdatesKeepGeometry(rules: MeshRules, m: Mesh, us: seq<MeshUpdate>)
    ensures SameGeometry(m, ApplyAll(rules, m, us))
    decreases |us|
  {
    if |us| > 0 {
      UpdatesKeepGeometry(rules, Apply(rules, m, us[0]), us[1..]);
    }
  }

  /** A mesh reports its constructor arguments for its whole life. */
  lemma MeshFixedForLifetime(rules: MeshRules, driverName: string, verticesCount: nat, facesCount: nat,
                             faceVerticesMaximumCount: nat, extent: BBox, uri: string,
                             us: seq<MeshUpdate>)
    ensures var m := ApplyAll(rules, NewMesh(rules, driverName, verticesCount, facesCount,
                                             faceVerticesMaximumCount, extent, uri), us);
      && m.driverName == driverName
      && m.verticesCount == verticesCount && m.facesCount == facesCount
      && m.faceVerticesMaximumCount == faceVerticesMaximumCount
      && m.extent == extent && m.uri == uri
  {
    UpdatesKeepGeometry(rules, NewMesh(rules, driverName, verticesCount, facesCount,
                                       faceVerticesMaximumCount, extent, uri), us);
  }

  /** Crs updates alone leave the group collection as it was. */
  lemma {:induction false} CrsUpdatesKeepGroups(rules: MeshRules, m: Mesh, us: seq<MeshUpdate>)
    requires forall i :: 0 <= i < |us| ==> !us[i].AssignGroups?
    ensures ApplyAll(rules, m, us).datasetGroups == m.datasetGroups
    decreases |us|
  {
    if |us| > 0 {
      CrsUpdatesKeepGroups(rules, Apply(rules, m, us[0]), us[1..]);
    }
  }
}
