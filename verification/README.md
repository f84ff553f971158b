# MDAL mesh data model in Dafny

This project models the object model of MDAL, the Mesh Data Abstraction Library, as declared in
`external/mdal/mdal_data_model.hpp`. MDAL describes a mesh that loaded simulation results are
attached to. The mesh has vertex and face counts, an extent, a driver name, a uri and a
coordinate reference string (crs). It owns an ordered list of dataset groups. Each group has a
driver name, a uri, a scalar/vector flag, a data location, metadata, statistics, a reference time and an
edit-mode flag, and it owns an ordered list of datasets. The header declares no member
that holds a group's name, so the name is read from and written into the metadata list. A dataset is flat (`Dataset2D`) or
layered (`Dataset3D`). A layered dataset also carries its volume count and its maximum number
of vertical levels.

Every class is an immutable record. Every setter is a pure function that returns the updated
record. Each module also defines a datatype listing every modelled public mutation (`DatasetUpdate`,
`GroupUpdate`, `MeshUpdate`; the mesh's EPSG and projection-file crs setters are left out) and an `ApplyAll` that replays a sequence of them. Lifetime
properties such as "never changes after construction" are stated over all such sequences.

The header holds declarations only, so some behaviour lives in code this model does not
contain. Examples are the metadata update rule, what `stopEditing` recomputes, and what the flat
shape reports for its volume counts. Each such rule is a field of a per-module rules record
(`DatasetRules`, `GroupRules`, `MeshRules`). Members that depend on a rule take the record as a
parameter, so no proved property rests on a guessed rule. The model does take each constructor
to store its arguments, each getter to return its member, each setter to write only its member,
and startEditing/stopEditing to behave as stated under "## Left out". `DateTime`, `RelativeTimestamp` and
the time unit are opaque types. `MDAL_DataLocation` is declared in `mdal.h`, which is not part
of this model. The model takes it to have three values, data on vertices, on faces and on
volumes. Only data on vertices is named in the header, as the group's default.

Modules: `MdalValues` (values.dfy), `MdalReplay` (replay.dfy, which replays update sequences),
`MdalDataset` (dataset.dfy), `MdalDatasetGroup` (dataset_group.dfy) and `MdalMesh` (mesh.dfy).

## Model

| member | source | states |
|---|---|---|
| MdalDataset.NewDataset2D | external/mdal/mdal_data_model.hpp:86-91 | a new flat dataset is valid, does not support the active flag and has both statistics bounds unset |
| MdalDataset.NewDataset3D | external/mdal/mdal_data_model.hpp:113-128 | a new layered dataset reports the `volumes` and `maxVerticalLevelCount` constructor arguments as its counts; it is valid, without active-flag support, with unset statistics |
| MdalDataset.TimeFollowsLastSetter | external/mdal/mdal_data_model.hpp:79-81 | after any sequence of mutations, time(unit) reads the timestamp given by a separate definition: the last setTime call decides, and with none the earlier timestamp stays |
| MdalDataset.SetStatistics | external/mdal/mdal_data_model.hpp:71-72 | the statistics getter returns what was set; time, validity, active-flag support and shape are unchanged |
| MdalDataset.SetTime | external/mdal/mdal_data_model.hpp:81 | the stored timestamp is the one given; statistics, validity, active-flag support and shape are unchanged |
| MdalDataset.SetTimeIn | external/mdal/mdal_data_model.hpp:80 | the stored timestamp is the conversion of (value, unit); nothing else changes |
| MdalDataset.SetSupportsActiveFlag | external/mdal/mdal_data_model.hpp:83-84 | the active-flag getter returns what was set; nothing else changes |
| MdalDataset.UpdatesKeepValidityAndShape | external/mdal/mdal_data_model.hpp:74-91 | no sequence of public mutations changes validity (there is no setter for it), the variant, or a layered dataset's counts |
| MdalDataset.ConstructedDatasetsStayValid | external/mdal/mdal_data_model.hpp:86-89 | every dataset built by either constructor is still valid after any sequence of public mutations |
| MdalDataset.Dataset3DCountsFixed | external/mdal/mdal_data_model.hpp:113-128 | after any sequence of mutations a layered dataset is still layered, and its counts equal the constructor arguments |
| MdalDatasetGroup.ObservationsDetermineGroup | external/mdal/mdal_data_model.hpp:154-191 | two groups that agree on every attribute are equal, so the per-attribute frames of the setters say that nothing else changes |
| MdalDatasetGroup.NewDatasetGroup | external/mdal/mdal_data_model.hpp:137-190 | a new group keeps its driver name and uri, is not in edit mode, is scalar, has data on vertices, has unset statistics and has no datasets |
| MdalDatasetGroup.SetName | external/mdal/mdal_data_model.hpp:155 | setName writes into the metadata list through the rule `withName`, which is defined outside the header; no attribute other than the metadata changes |
| MdalDatasetGroup.NameChangesOnlyThroughMetadata | external/mdal/mdal_data_model.hpp:151-172 | a sequence of updates that never calls setName or setMetadata and never assigns `metadata` leaves both the metadata and name() unchanged |
| MdalDatasetGroup.SetIsScalar | external/mdal/mdal_data_model.hpp:160-161 | isScalar() returns the value that was set; every other attribute is unchanged |
| MdalDatasetGroup.SetDataLocation | external/mdal/mdal_data_model.hpp:163-164 | dataLocation() returns the value that was set; every other attribute is unchanged |
| MdalDatasetGroup.SetStatistics | external/mdal/mdal_data_model.hpp:168-169 | statistics() returns the value that was set; every other attribute is unchanged |
| MdalDatasetGroup.SetReferenceTime | external/mdal/mdal_data_model.hpp:171-172 | referenceTime() returns the value that was set; every other attribute is unchanged |
| MdalDatasetGroup.SetMetadata | external/mdal/mdal_data_model.hpp:152 | only the metadata list changes, and it changes by an update rule defined outside the header, so name() may change with it |
| MdalDatasetGroup.MetadataLookupUnchanged | external/mdal/mdal_data_model.hpp:151-172 | a sequence of updates that never calls setName or setMetadata and never assigns `metadata` leaves getMetadata(key) unchanged for the key |
| MdalDatasetGroup.StartEditing | external/mdal/mdal_data_model.hpp:178-179 | the group is in edit mode afterwards; every other attribute is unchanged |
| MdalDatasetGroup.StopEditing | external/mdal/mdal_data_model.hpp:178-180 | the group is out of edit mode and its statistics are the recomputed ones; every other attribute is unchanged |
| MdalDatasetGroup.UpdatesKeepIdentity | external/mdal/mdal_data_model.hpp:149-189 | no sequence of public mutations changes the const driver name or the uri, which has no setter |
| MdalDatasetGroup.GroupIdentityForLifetime | external/mdal/mdal_data_model.hpp:137-145 | a group reports the driver name and uri it was constructed with after any sequence of mutations |
| MdalDatasetGroup.EditModeFollowsLastBracket | external/mdal/mdal_data_model.hpp:178-183 | after any sequence of mutations, isInEditMode() agrees with a separate definition: the last startEditing/stopEditing call decides, and with neither call the flag keeps its earlier value |
| MdalDatasetGroup.NeverEditedIsNotEditing | external/mdal/mdal_data_model.hpp:178-183 | a group out of edit mode stays out until startEditing is called, whatever else happens; a new group starts out of edit mode (line 183) |
| MdalMesh.NewMesh | external/mdal/mdal_data_model.hpp:219-224 | a new mesh reports its driver name, counts, extent and uri exactly as passed to the constructor; its group list starts empty |
| MdalMesh.SetSourceCrs | external/mdal/mdal_data_model.hpp:230 | only the stored crs string changes; counts, extent, uri, driver name and groups are untouched |
| MdalMesh.SetSourceCrsFromWkt | external/mdal/mdal_data_model.hpp:231 | only the stored crs string changes; counts, extent, uri, driver name and groups are untouched |
| MdalMesh.Group | external/mdal/mdal_data_model.hpp:238-241 | the result is the position of a group whose name() is `name`, or absent exactly when no group has that name; the group list is not modified |
| MdalMesh.UpdatesKeepGeometry | external/mdal/mdal_data_model.hpp:243-257 | no sequence of modelled mutations changes driver name, counts, extent or uri; the modelled mutations are the text and WKT crs setters and assignment to `datasetGroups`, and the EPSG and projection-file setters are left out |
| MdalMesh.MeshFixedForLifetime | external/mdal/mdal_data_model.hpp:219-257 | after any sequence of modelled mutations, the mesh still reports its constructor arguments |
| MdalMesh.CrsUpdatesKeepGroups | external/mdal/mdal_data_model.hpp:230-238 | any sequence of crs setters leaves `datasetGroups` as it was |

## Left out

- The buffer-fill accessors `scalarData`, `vectorData`, `activeData`, `verticalLevelCountData`, `verticalLevelData`, `faceToVolumeData`, `scalarVolumesData` and `vectorVolumesData` are left out. They are driver plugins that write through raw pointers, and the header gives them no bodies and no contracts.
- `MeshVertexIterator::next`, `MeshFaceIterator::next`, `readVertices` and `readFaces` are left out for the same reason.
- `setSourceCrsFromEPSG` and `setSourceCrsFromPrjFile` are left out. Turning an EPSG code or a projection file into crs text is external work, and it involves file I/O.
- `valuesCount`, `Dataset::group`, `Dataset::mesh` and `DatasetGroup::mesh` are left out. The parent back-pointers are lifetime concerns, and the header does not give the body on which the value count depends. Children are sequences, and the model keeps no parent links.
- shared_ptr aliasing is not modelled. A group or dataset changed through a shared pointer becomes a new value assigned back through `AssignGroups` or `AssignDatasets`.
- Doubles are reals, and NaN statistics bounds are `None`. No double arithmetic is modelled.
- `size_t` counts are `nat`. They are only stored, never computed, so wrap-around cannot arise.
- The default `hours` unit of `setTime( double, Unit )` is not modelled, because the time unit is opaque. Reading a time in a unit is `MdalDataset.Time`, through the conversion rule.
- MdalDataset.VolumesCount: for a flat dataset, it returns the override's value (`DatasetRules.flatVolumesCount`). It does not promise 0 for that case, because the header does not give the override's body.
- MdalDataset.MaximumVerticalLevelsCount: for a flat dataset, it returns the override's value (`DatasetRules.flatMaximumVerticalLevelsCount`). It does not promise 0 for that case, because the header does not give the override's body.
- MdalDatasetGroup.MaximumVerticalLevelsCount: the derivation is the rule `GroupRules.maximumVerticalLevelsCount`. The model does not say it is the maximum over the group's 3D datasets.
- MdalDatasetGroup.GetMetadata: it reads through a lookup rule defined outside the header. No set/get round trip and no "first key wins" is promised.
- MdalDatasetGroup.SetMetadata: the list changes by an update rule defined outside the header. It is not promised to update the first matching pair or to append.
- MdalDatasetGroup.StopEditing: the recomputed statistics are a parameter. The header shows no body. The model assumes, as its own choice, that stopEditing clears the flag and that replacing the statistics (hpp:168-169, 178-180) is its only other effect.
- MdalDatasetGroup.StartEditing: the header does not give its body. The model takes it to set the flag, so calling it again while editing changes nothing.
- MdalDatasetGroup.NewDatasetGroup: the initial metadata is the parameter `initialMetadata(uri, name)`, and so is the name read from it. This holds for both constructors. A group built with a name (hpp:142-145) is not promised to report that name, and the header shows no default for a group built without one.
- MdalDatasetGroup.SetName: the round trip "name() returns what setName stored" is a property of the rules `nameOf` and `withName`, which are defined outside the header. The model does not promise it. It does not promise either which metadata keys `withName` writes, or which keys setMetadata can use to change the name.
- MdalMesh.SetSourceCrs: the stored string is `crsFromText(text)`, not necessarily `text` itself, because the header does not give the setter's body.
- MdalMesh.SetSourceCrsFromWkt: the stored string is `crsFromWkt(wkt)`, for the same reason.
- MdalMesh.NewMesh: the initial crs is the parameter `MeshRules.initialCrs`.
- MdalMesh.Group: it does not promise the first match when several groups share a name, because the header does not give the lookup's body.
- No ordering between minimum and maximum is stated, for statistics or for the extent box. The header enforces none. `Statistics` defaults both bounds to NaN (hpp:36-37) and has no constructor that checks them. The default `BBox()` leaves its fields uninitialised (hpp:25).
- `MDAL_DataLocation` is closed at three values here. `mdal.h`, which declares it, is not part of this model. No proof depends on the enumeration being closed.
- MdalDataset.Time: it reads the stored timestamp through the conversion `DatasetRules.timeIn`, which is defined outside the header. No unit conversion is promised.
- MdalDatasetGroup.Name: it reads the name from the metadata list through `GroupRules.nameOf`, which is defined outside the header. Which metadata entry holds the name is not promised.
- `getMetadata`, `name()`, `Mesh::group` and `Dataset::activeData` are declared non-const (hpp:151, 154, 241, 55). The model treats all four as pure reads. The claims that the update datatypes list every mutation rest on this assumption.
- Constructors: the header gives no constructor bodies. The model takes each constructor to store its arguments in the matching members Every other member starts at its in-class default or, where the model has a rule for it (the crs, the time, the reference time, the initial metadata), at that rule's value. So the `Dataset3D` constructor (hpp:113-117) replaces the `= 0` defaults (hpp:127-128) with `volumes` and `maxVerticalLevelCount`. The `Mesh` constructor (hpp:219-224) stores the driver name, counts, extent and uri. The `DatasetGroup` constructors (hpp:137-145) store the driver name and uri. NewDataset3D, Dataset3DCountsFixed, NewMesh, MeshFixedForLifetime, NewDatasetGroup and GroupIdentityForLifetime rest on this.
