# sfsimodels core in Dafny

This project models the core of sfsimodels, a Python library of soil and
structure models for soil–foundation–structure interaction work:

- **`Soil`.** Independent strength parameters, plus the volume-and-weight
  cluster. Each property setter in that cluster does one of three things
  with a peer value: derives it when missing, raises `ModelError` when it
  disagrees, or stores the new value raw when a peer it would need is unset.
- **`SoilProfile`.** Soils stacked by the depth of each layer's top, kept in
  ascending depth order. It gives the total and effective vertical stress at
  any depth.
- **The generic model object.** `PhysicalObject` and `CustomObject`: bulk
  assignment through `set` and `add_from_same`, and serialisation through
  `to_dict`.
- **Files.** `add_to_obj`, the soil and profile part of `ecp_dict_to_objects`,
  and the `Output` collection (`add_to_dict`, `add_to_output`, `parameters`,
  `to_dict`).
- **Time series.** `time_indices`, and `TimeSeries.cut`, `time` and `npts`.

Entities whose fields the source updates in place are Dafny classes:
`Soil`, `SoilProfile`, `PhysicalObject`, `Output` and `TimeSeries`.

Every such method is proved against a function on values. For example,
`Soil.SetUnitDryWeight` reaches exactly the state and outcome that
`AssignUnitDryWeight` gives. The source's promises are then proved as lemmas
about those functions.

Other modelling choices:

- Python exceptions are an `Error` datatype, returned in `Result` or
  `Outcome`.
- `None` is `Option.None`.
- An `OrderedDict` is a sequence of key/value pairs, in insertion order.
- Quantities are mathematical reals, so the source's exact float
  comparisons become exact equalities.

Files:

- `base.dfy`: options, errors, and the Python built-ins relied on: `int()`
  on a float, list indexing, slicing.
- `ordered_dicts.dfy`: the ordered dictionary.
- `soils.dfy` and `soil_laws.dfy`: the soil and what its setters guarantee.
- `soil_profiles.dfy`: the profile, its ordering and the stress integration.
- `abstract_models.dfy`: the generic model object.
- `files.dfy`: loading and export.
- `time.dfy`: time series.

## Model

| member | source | states |
|---|---|---|
| Builtins.Trunc | sfsimodels/models/time.py:88-91 | `int()` of a float truncates toward zero: the result lies within one of the argument, on the side of zero |
| Builtins.ListIndex | sfsimodels/models/soils.py:260-264 | a list of length n accepts index i exactly when -n <= i < n, and a negative index counts from the end |
| Builtins.SliceBound | sfsimodels/models/time.py:56 | a slice bound is clamped into 0..n, and a negative bound within range counts from the end |
| Builtins.SliceElements | sfsimodels/models/time.py:56 | a slice holds exactly the elements between its clamped bounds, in order, and is empty when they cross |
| Soils.UnitWeight | sfsimodels/models/soils.py:48-53 | the unit weight is the saturated unit weight once a non-zero saturation is set, and the dry unit weight otherwise |
| Soils.Porosity | sfsimodels/models/soils.py:126-128 | porosity exists exactly when e_curr is set and 1 + e_curr is not 0, otherwise TypeError or ZeroDivisionError; n(1 + e) = e, and 0 <= n < 1 for a non-negative void ratio |
| Soils.MoistureContent | sfsimodels/models/soils.py:140-147 | the moisture content exists exactly when saturation, e_curr (with 1 + e_curr not 0) and a non-zero dry weight are set; then it times the dry unit weight is the weight of the water in a unit volume |
| Soils.N160 | sfsimodels/models/soils.py:219-221 | n1_60 exists exactly when the relative density is set; it is non-negative and 9 n = 400 Dr^2 |
| Soils.Soil.constructor | sfsimodels/models/soils.py:11-31 | a new soil has every strength and volume-and-weight attribute unset, the critical-state parameters at 0 and no other attribute |
| Soils.Soil.SetECurr | sfsimodels/models/soils.py:92-100 | assigning e_curr on the object reaches the state and outcome of the void-ratio setter on its old state |
| Soils.Soil.SetUnitDryWeight | sfsimodels/models/soils.py:75-86 | assigning unit_dry_weight on the object reaches the state and outcome of the dry-weight setter |
| Soils.Soil.SetSpecificGravity | sfsimodels/models/soils.py:106-115 | assigning specific_gravity reaches the state and outcome of the gravity setter, including its call into the dry-weight setter |
| Soils.Soil.SetRelativeDensity | sfsimodels/models/soils.py:195-203 | assigning relative_density reaches the state and outcome of the relative-density setter |
| Soils.Soil.SetSaturation | sfsimodels/models/soils.py:121-124 | assigning saturation stores it and changes nothing else |
| Soils.Soil.SetUnitSatWeight | sfsimodels/models/soils.py:153-173 | assigning unit_sat_weight reaches the state and outcome of the saturated-weight setter with its whole cascade |
| Soils.Soil.SetAttribute | sfsimodels/models/soils.py:55-203 | `setattr(soil, name, v)` reaches the state and outcome of the property setter of that name; a getter-only property (`unit_weight`, `porosity`, `moisture_content`, `phi_r`, `k_0`, `n1_60`, `_unit_void_volume`, `_unit_solid_volume`, `_unit_moisture_weight`, and the inherited `attributes` and `ancestor_types`) raises AttributeError and changes nothing; any other name stores a plain attribute |
| SoilLaws.GravityFromVoidRatio | sfsimodels/models/soils.py:79-86 | the void ratio the dry-weight setter derives from a specific gravity gives back that gravity |
| SoilLaws.GravityFromDryWeight | sfsimodels/models/soils.py:75-115 | the dry weight the gravity setter derives gives back that gravity |
| SoilLaws.DryWeightAgreesWithGravity | sfsimodels/models/soils.py:75-115 | the dry-weight setter's check and the gravity setter's check accept the same triples, in both directions |
| SoilLaws.DensityVoidRatioInverse | sfsimodels/models/soils.py:92-203 | between distinct bounds, the relative density and the void ratio determine each other: each setter's check accepts exactly the pairs the other does |
| SoilLaws.PorosityGivesVoidRatio | sfsimodels/models/soils.py:126-128 | the void ratio is recovered from the porosity as n/(1 - n) |
| SoilLaws.MoistureContentFromWeights | sfsimodels/models/soils.py:145-158 | where the saturated weight is consistent, the moisture content is (usw - udw)/udw |
| SoilLaws.N160Monotone | sfsimodels/models/soils.py:219-221 | n1_60 grows with a non-negative relative density |
| SoilLaws.VoidRatioSetter | sfsimodels/models/soils.py:92-100 | e_curr raises exactly when e_max, e_min and the relative density are set and give another void ratio, and then stores nothing; otherwise it stores v; the relative-density relation is preserved |
| SoilLaws.DensitySetter | sfsimodels/models/soils.py:195-203 | with both bounds and e_curr set: equal bounds raise ZeroDivisionError, a disagreeing value raises ModelError and stores nothing, an agreeing one is stored; with any of them unset the value is stored |
| SoilLaws.DensitySetterAgrees | sfsimodels/models/soils.py:195-203 | an accepted relative density leaves the void-ratio relation holding |
| SoilLaws.DryWeightSetter | sfsimodels/models/soils.py:75-86 | the dry weight is always kept, even when the setter raises; with e_curr it derives or checks the gravity, without e_curr it derives e_curr from a known gravity (ZeroDivisionError for a dry weight of 0) and, when e_max, e_min and the relative density are set, passes exactly when that e_curr equals the one the bounds give, else raises ModelError, leaving e_curr unset either way; with neither it only stores |
| SoilLaws.DryWeightSetterAgrees | sfsimodels/models/soils.py:75-86 | an accepted dry weight leaves gravity, dry weight and void ratio agreeing, and keeps the relative-density relation |
| SoilLaws.GravitySetter | sfsimodels/models/soils.py:106-115 | the gravity is always kept; without e_curr it only stores; with e_curr it checks the dry weight (ModelError on disagreement) or derives it, and the derivation never raises |
| SoilLaws.GravitySetterAgrees | sfsimodels/models/soils.py:106-115 | an accepted gravity leaves gravity, dry weight and void ratio agreeing |
| SoilLaws.SatWeightSetter | sfsimodels/models/soils.py:153-173 | with saturation, e_curr and the dry weight all set, the saturated weight is only checked and nothing is stored; otherwise it is stored; with no dry weight nothing else changes |
| SoilLaws.MoistureOfDerivedSaturation | sfsimodels/models/soils.py:140-168 | the saturation the cascade derives carries exactly the moisture weight it came from, and gives back the void volume |
| SoilLaws.DryWeightOfVoids | sfsimodels/models/soils.py:131-171 | the cascade's dry weight from the void volume equals the dry weight the gravity gives at that void ratio |
| SoilLaws.SatWeightDerivesSaturation | sfsimodels/models/soils.py:153-173 | with the dry weight and a non-zero e_curr known and the saturation unset, a saturated weight derives the saturation; when gravity agreed, the dry weight keeps its value and every relation holds afterwards |
| SoilLaws.SatWeightCascade | sfsimodels/models/soils.py:153-173 | with the dry weight and a non-zero e_curr known and the saturation unset, a saturated weight is stored and derives the saturation; equal to the dry weight it raises ZeroDivisionError, otherwise it passes and derives the gravity from e_curr when gravity is unset, or re-derives the dry weight from gravity and e_curr when gravity is set |
| SoilLaws.SatWeightOfVoidlessSoilRaises | sfsimodels/models/soils.py:153-166 | with the dry weight set, a void ratio of 0 and no saturation, a saturated weight is stored and then raises ZeroDivisionError at the zero void volume |
| SoilLaws.SatWeightOfDrySoilRaises | sfsimodels/models/soils.py:163-168 | a saturated weight equal to the dry weight derives a zero saturation and then raises ZeroDivisionError dividing by it |
| SoilLaws.VoidRatioSkipsGravityCheck | sfsimodels/models/soils.py:92-100 | e_curr is never checked against gravity and dry weight: a consistent soil accepts another void ratio and no longer agrees |
| SoilLaws.SatWeightCascadeDisagrees | sfsimodels/models/soils.py:160-173 | without e_curr, the cascade can accept a saturated weight that leaves the soil inconsistent, so assigning the same value again raises |
| SoilProfiles.InsertEntries | sfsimodels/models/soils.py:246-251 | inserting an entry adds exactly that entry to the layer table's multiset |
| SoilProfiles.InsertAscending | sfsimodels/models/soils.py:246-251 | inserting a new depth into an ascending table keeps it strictly ascending |
| SoilProfiles.SortEntries | sfsimodels/models/soils.py:246-251 | sorting the layers by depth is a permutation of them |
| SoilProfiles.SortAscending | sfsimodels/models/soils.py:246-251 | sorting layers with distinct depths leaves the depths strictly ascending |
| SoilProfiles.GetEntry | sfsimodels/models/soils.py:253-255 | in an ascending table a depth reads the soil of the one entry at that depth |
| SoilProfiles.AscendingDetermined | sfsimodels/models/soils.py:246-251 | two ascending tables that read alike at every depth are the same table |
| SoilProfiles.RemoveAscending | sfsimodels/models/soils.py:257-258 | removing a layer keeps the table ascending |
| SoilProfiles.PorePressure | sfsimodels/models/soils.py:334-340 | no pore pressure above the water table; (z - gwl) times the water unit weight below it |
| SoilProfiles.CrustEffectiveUnitWeight | sfsimodels/models/soils.py:294-302 | no value with one layer; TypeError without a top unit weight or water table, ZeroDivisionError for a zero crust height; else the value times h is the crust's load minus the pore pressure at its base |
| SoilProfiles.StressFails | sfsimodels/models/soils.py:304-332 | the stress fails exactly when a layer whose top lies above z has no unit weight, and only as TypeError |
| SoilProfiles.StressBelow | sfsimodels/models/soils.py:317-332 | layers whose tops lie at or below z add nothing to the stress at z |
| SoilProfiles.StressOfFullLayers | sfsimodels/models/soils.py:317-332 | the layers above layer i weigh the same on every depth at or below its top |
| SoilProfiles.ZeroAboveFirstLayer | sfsimodels/models/soils.py:317-332 | the stress at or above the top of the first layer is 0 |
| SoilProfiles.PiecewiseLinear | sfsimodels/models/soils.py:317-332 | within a layer the stress is its value at the layer's top plus the depth into the layer times the layer's unit weight |
| SoilProfiles.StressMonotone | sfsimodels/models/soils.py:317-332 | with non-negative unit weights the stress never falls with depth |
| SoilProfiles.ThicknessGrows | sfsimodels/models/soils.py:322-330 | the part of a layer above a depth grows with the depth and is nothing above the layer's top |
| SoilProfiles.StressStep | sfsimodels/models/soils.py:322-330 | each weighted layer adds its unit weight times the part of it above z |
| SoilProfiles.EffectiveIsTotalAboveWater | sfsimodels/models/soils.py:334-340 | above the water table the effective stress is the total stress |
| SoilProfiles.CrustWeighsEffectiveStress | sfsimodels/models/soils.py:294-340 | when the top layer starts at the surface and the water table is not below the crust, the crust unit weight times the crust height is the effective stress at the crust's base |
| SoilProfiles.TwoLayerStresses | sfsimodels/models/soils.py:317-332 | two soils, 18000 N/m3 down to 5 m and 19000 below, give 54000 at 3 m and 5(18000) + 2(19000) at 7 m |
| SoilProfiles.ColumnOf | sfsimodels/models/soils.py:317-332 | the column pairs each layer's top depth with the unit weight of its soil, in layer order |
| SoilProfiles.AssignProfileAttribute | sfsimodels/models/soils.py:224-302 | assigning a profile attribute raises AttributeError exactly for the read-only properties; gwl and unit_weight_water are set, and any other name becomes a plain attribute |
| SoilProfiles.SoilProfile.constructor | sfsimodels/models/soils.py:224-240 | a new profile has one fresh soil at depth 0, no water table and water at 9800 N/m3 |
| SoilProfiles.SoilProfile.Depths | sfsimodels/models/soils.py:273-279 | the depths are one per layer and strictly ascending |
| SoilProfiles.SoilProfile.NLayers | sfsimodels/models/soils.py:266-271 | the number of layers is the number of depths |
| SoilProfiles.SoilProfile.Layer | sfsimodels/models/soils.py:260-261 | `layer(i)` succeeds exactly for -n <= i < n, and otherwise raises IndexError |
| SoilProfiles.SoilProfile.LayerDepth | sfsimodels/models/soils.py:263-264 | `layer_depth(i)` succeeds exactly for -n <= i < n, and otherwise raises IndexError |
| SoilProfiles.SoilProfile.AddLayer | sfsimodels/models/soils.py:242-251 | after `add_layer`, the layers are the sorted table with the soil put at its depth; that depth reads the new soil, every other depth reads as before, the order stays ascending, and the other attributes are unchanged |
| SoilProfiles.SoilProfile.RemoveLayer | sfsimodels/models/soils.py:257-258 | `remove_layer` succeeds exactly when a layer starts at that depth, and then only that depth stops reading; otherwise KeyError and nothing changes |
| SoilProfiles.SoilProfile.OneVerticalTotalStress | sfsimodels/models/soils.py:317-332 | the loop's early exit and its height arithmetic give the total stress of the profile's column at z |
| SoilProfiles.SoilProfile.VerticalTotalStress | sfsimodels/models/soils.py:304-315 | one depth gives its stress; a list gives one stress per depth in order, or TypeError when any depth fails |
| SoilProfiles.SoilProfile.VerticalEffectiveStress | sfsimodels/models/soils.py:334-340 | the effective stress is the total stress less the pore pressure, and TypeError without a water table |
| SoilProfiles.SoilProfile.SetAttribute | sfsimodels/models/soils.py:224-236 | `setattr` on a profile reaches the settings the profile assignment gives, or fails leaving them unchanged; the layers are never touched |
| SoilProfiles.SoilProfile.SetId | sfsimodels/files.py:75 | assigning id changes only that entry |
| SoilProfiles.AscendingGets | sfsimodels/models/soils.py:246-251 | a table with distinct depths and its sorted permutation read alike at every depth |
| AbstractModels.Record | sfsimodels/models/abstract_models.py:75-88 | an exported dictionary as a value keeps every entry, in order |
| AbstractModels.SerialiseFails | sfsimodels/models/abstract_models.py:75-88 | `to_dict` fails exactly when a listed, unskipped name is not an attribute, and then with AttributeError at the first such name |
| AbstractModels.SerialiseOk | sfsimodels/models/abstract_models.py:75-88 | `to_dict` succeeds exactly when every listed, unskipped name is an attribute |
| AbstractModels.SerialiseFirstError | sfsimodels/models/abstract_models.py:75-88 | a failing `to_dict` names the first listed, unskipped name that is missing |
| AbstractModels.SerialiseEntries | sfsimodels/models/abstract_models.py:75-88 | a name is a key exactly when it is listed, not skipped, and not a None left out; its value is the serialised attribute, and the keys are distinct |
| AbstractModels.SerialiseKeys | sfsimodels/models/abstract_models.py:75-88 | without repeated names, the keys are the exported names in the order listed |
| AbstractModels.ExportedAll | sfsimodels/models/abstract_models.py:75-88 | when None is exported, only the skipped names are dropped |
| AbstractModels.AssignFromEffect | sfsimodels/models/abstract_models.py:42-49 | `set(values)` keeps the attribute names; it succeeds exactly when values holds every listed name the object has, and otherwise raises KeyError; on success those names read their new values and nothing else changes |
| AbstractModels.CopyFromEffect | sfsimodels/models/abstract_models.py:59-73 | `add_from_same` copies every listed name the source has, and every other attribute keeps its value |
| AbstractModels.AppendNewEffect | sfsimodels/models/abstract_models.py:59-73 | the new inputs keep the old list as a prefix and add each copied name they lacked, without introducing a repeat |
| AbstractModels.AssignFromStops | sfsimodels/models/abstract_models.py:42-49 | once `set` stops at a missing key, the later names change nothing |
| AbstractModels.SerialiseStops | sfsimodels/models/abstract_models.py:75-88 | once `to_dict` fails on a prefix of the names, it fails the same way on the whole list |
| AbstractModels.PhysicalObject.constructor | sfsimodels/models/abstract_models.py:9-13 | a new object has only the `type` attribute `"physical_object"`, its `inputs` is the empty class tuple and its skip list is empty |
| AbstractModels.PhysicalObject.Custom | sfsimodels/models/abstract_models.py:91-107 | a new custom object has id and name unset, base type and type "custom_object", and those four as inputs |
| AbstractModels.PhysicalObject.Id | sfsimodels/models/abstract_models.py:108-114 | `id` reads the object's id attribute exactly when it has one (a custom object starts with None), and raises AttributeError otherwise |
| AbstractModels.PhysicalObject.SetId | sfsimodels/models/abstract_models.py:116-119 | assigning id changes only that attribute, which then reads the new value |
| AbstractModels.PhysicalObject.ToDict | sfsimodels/models/abstract_models.py:75-88 | the loop over inputs plus extra computes the specified export, including the error at the first missing attribute |
| AbstractModels.PhysicalObject.Set | sfsimodels/models/abstract_models.py:42-49 | an object without inputs is unchanged; otherwise the loop reaches the specified assignment and outcome |
| AbstractModels.FirstNew | sfsimodels/models/abstract_models.py:69-73 | the position of the first listed name the source has and the inputs lack: every earlier name is absent from the source or already in the inputs, and there is none exactly when no name is both |
| AbstractModels.FirstNewStops | sfsimodels/models/abstract_models.py:69-73 | once a prefix of the names holds a first new name, the whole list has the same first new name |
| AbstractModels.CopyInputs | sfsimodels/models/abstract_models.py:69-73 | the copied attributes and new inputs are those of copying each listed name the source has and appending the new ones; appending to the class tuple stops with AttributeError at the first new name, after copying it |
| AbstractModels.PhysicalObject.AddFromSame | sfsimodels/models/abstract_models.py:59-73 | a missing inputs attribute on self, or on obj when reading obj's, raises ModelError and changes nothing; otherwise the listed attributes obj has are copied, and inputs grows by the new names when update_inputs is set; when inputs is still the class tuple, the first new name to append is copied and then raises AttributeError, leaving inputs as it was |
| Files.AddEntriesEffect | sfsimodels/files.py:8-24 | after `add_to_obj`, an attribute holds the dictionary's value when that value was assigned (not an exception, not None), and what it held before otherwise |
| Files.AddToObj | sfsimodels/files.py:8-24 | the loop on a generic object reaches that assignment; every record key is stored as an attribute, so `inputs` and the skip list keep their values (record keys named `inputs` or `skip_list` are listed under Left out) |
| Files.AddToSoilObject | sfsimodels/files.py:8-24 | the loop on a soil assigns through its setters and reaches the specified state, stopping at the first raise |
| Files.AddToProfileObject | sfsimodels/files.py:8-24 | the loop on a profile reaches the specified settings and outcome, and never touches the layers |
| Files.PlainAssign | sfsimodels/models/soils.py:33-46 | assigning an input of a soil with no void ratio, gravity or saturation never raises, stores exactly that value, and changes no other attribute |
| Files.PlainAssignCluster | sfsimodels/models/soils.py:75-203 | the same for the cluster inputs: relative density, dry weight, saturated weight |
| Files.LoadPlain | sfsimodels/files.py:8-24 | loading a record of distinct input names into such a soil never raises, and each attribute reads the record's number for it, or what it held before |
| Files.InputReadings | sfsimodels/models/soils.py:33-46 | the numbers a soil holds under its input names, keyed exactly by the input names |
| Files.ReloadInputs | sfsimodels/files.py:66-70 | the round trip: a soil whose inputs are all readable, loaded back into a new `Soil()` from those numbers, reads the same under every input name |
| Files.InputsDistinct | sfsimodels/models/soils.py:33-46 | no input name is repeated |
| Files.UnsetInput | sfsimodels/models/soils.py:11-46 | an input a soil holds no number for is unset on a new soil too, so skipping the None in the record loses nothing |
| Files.Digits | sfsimodels/files.py:79 | `str` of a natural gives a non-empty string of decimal digits |
| Files.ParseDigitsOfDigits | sfsimodels/files.py:79 | reading back the digits of a natural gives that natural |
| Files.ParseDecimal | sfsimodels/files.py:79 | `int(str(n))` is n for every integer n |
| Files.IntOf | sfsimodels/files.py:69-80 | `int` keeps an integer, truncates a float, parses a string (ValueError when it is not a number) and raises TypeError on anything else |
| Files.RecordKey | sfsimodels/files.py:69-80 | reading a record's id succeeds exactly when the key is present and not None: a missing key raises KeyError, None raises TypeError; the key is the truncated id |
| Files.LoadSoil | sfsimodels/files.py:67-69 | one pass of the soils loop fails exactly with the record's load error; otherwise it returns a new soil, loaded from the record, under the record's id |
| Files.ResolveLayers | sfsimodels/files.py:75-78 | every layer entry resolves, or the result is the error of the first that does not |
| Files.LoadProfile | sfsimodels/files.py:73-81 | one pass of the profiles loop fails exactly with the record's load error; otherwise a fresh, ordered profile has each listed depth reading its last listed soil, no other depth except its own fresh depth-0 soil, and the record's other entries assigned |
| Files.LastListedAppend | sfsimodels/files.py:75-78 | a later layer entry at a depth overrides every earlier one |
| Files.LoadSoils | sfsimodels/files.py:66-70 | the loaded soils are keyed exactly by the record ids; each holds what the last record with its id loads to; a failure is the load error of the first record that fails |
| Files.LastLoadedIsLast | sfsimodels/files.py:66-70 | a key is loaded exactly when some record carries it, and then it holds the state of the last such record |
| Files.LoadProfiles | sfsimodels/files.py:72-81 | the loaded profiles are keyed exactly by the record ids and are each ordered; a failure is the load error, against the loaded soils, of the first profile record that fails |
| Files.LoadModels | sfsimodels/files.py:51-81 | soils first, then profiles against them: on success both loops' guarantees hold and every profile record loads against the soils; a failing soil record makes the load fail with the first soil record's error; otherwise a failure is the first failing profile record's error against soils keyed by the soil record ids |
| Files.SoilAttrsRead | sfsimodels/models/abstract_models.py:75-88 | the serialiser reads exactly the attributes `getattr` reads on a soil, with the same values |
| Files.SoilDictEntries | sfsimodels/files.py:148-149 | a soil's export holds every input name, None included, and nothing else, each with its serialised attribute |
| Files.ExportedSoilHasNoKey | sfsimodels/files.py:148-149 | a soil record written by `add_to_dict` has no id entry, so loading it back raises KeyError |
| Files.Store | sfsimodels/files.py:149-159 | storing into a category succeeds exactly when the category exists, and otherwise raises KeyError |
| Files.LayerEntries | sfsimodels/files.py:154-157 | the stored `layers` list has one {soil_id, depth} entry per layer, in the profile's order |
| Files.AddToDictSpec | sfsimodels/files.py:138-160 | `add_to_dict` raises before storing anything when the id is unset (ModelError) or unreadable; a failing soil changes nothing; a stored soil goes under its id in soils |
| Files.ProfileBranch | sfsimodels/files.py:150-159 | a profile with an id set stores its layers' soils, and then itself with its layers list, unless a soil's export or store fails first |
| Files.RegisterStep | sfsimodels/files.py:152-157 | one pass of the layers loop stores the soil's export under its id and lists its layer entry |
| Files.RegisterKeepsCategories | sfsimodels/files.py:152-157 | the layers loop keeps the set of categories and every category but soils |
| Files.RegisterSoils | sfsimodels/files.py:152-157 | after the layers loop, each soil key holds the last soil registered under it, or what it held before |
| Files.RegisterEntries | sfsimodels/files.py:152-157 | the layers loop lists one entry per layer, in order |
| Files.EveryLayerRegistered | sfsimodels/files.py:152-157 | once the loop completes, every layer's soil is registered |
| Files.ProfileExport | sfsimodels/files.py:150-159 | a stored profile is under its id with its layers listed in order; each soil key holds the last soil registered under it; the other categories and the set of categories are unchanged |
| Files.WithEntryEffect | sfsimodels/files.py:181-192 | `add_to_output` appends a missing category, sets that one entry, and every other entry reads as before, with keys compared as model values (Python's merging of equal numeric keys is listed under Left out) |
| Files.LayerStates | sfsimodels/files.py:152 | one (depth, state) pair per layer, in the profile's order |
| Files.Output.constructor | sfsimodels/files.py:123-136 | a new output has empty metadata and the five empty categories, in order |
| Files.Output.ToDict | sfsimodels/files.py:195-203 | the export has the six parameters, in order, each with its field |
| Files.Output.AddToOutput | sfsimodels/files.py:181-192 | this sets `models[mtype][m_id]` as specified and leaves the metadata unchanged |
| Files.Output.AddToDict | sfsimodels/files.py:138-160 | `add_to_dict` on a soil or a profile object reaches the specified models and outcome, and leaves the metadata unchanged |
| Files.Output.AddSoil | sfsimodels/files.py:146-149 | the soil branch reaches the specified models and outcome |
| Files.Output.AddProfile | sfsimodels/files.py:146-159 | the profile branch reaches the specified models and outcome for the profile as it was at the call |
| Files.StoreLayers | sfsimodels/files.py:152-157 | the loop over the layers reaches the models, entries and outcome the layer-registration specification gives |
| Time.TimeIndices | sfsimodels/models/time.py:75-97 | with index, the cut points pass through, and the only error is ModelError, exactly when end exceeds npts; otherwise a zero step raises ZeroDivisionError, start becomes int(start/dt), end becomes int(end/dt) + 1 unless it is -1, and the same length check applies, so the result is Ok exactly when the converted end is at most npts (or end is -1 and npts at least -1) |
| Time.WholeStepsAreIndices | sfsimodels/models/time.py:86-91 | times k dt and m dt become indices k and m + 1 |
| Time.StartIndexBrackets | sfsimodels/models/time.py:91 | a non-negative start time becomes the index s of the last sample at or before it: s dt <= t < (s + 1) dt |
| Time.StepsBefore | sfsimodels/models/time.py:91 | the whole number of steps in a non-negative time brackets that time |
| Time.TimeSeries.constructor | sfsimodels/models/time.py:11-22 | a new series keeps its values, step and name, with npts the number of values |
| Time.TimeSeries.Times | sfsimodels/models/time.py:43-46 | `time` has npts entries, the i-th equal to i dt |
| Time.TimeSeries.Cut | sfsimodels/models/time.py:48-56 | `cut` fails with the index error and keeps the values, or TypeError when a cut point stays a float; otherwise the values become the slice between the converted points, and npts and dt are not updated |
| Time.TimesStep | sfsimodels/models/time.py:43-46 | successive sample times are one step apart |
| Time.DefaultCutDropsLast | sfsimodels/models/time.py:48-56 | cutting with the defaults keeps every value but the last |

## Left out

- Transcendental properties are not modelled: `phi_r`, `k_0`, `e_critical` and `equivalent_crust_cohesion`. They need `math.radians`, `sin`, `log` and `tan`, which are not available on reals.
- Floating point is not modelled. Quantities are exact reals, so IEEE-754 rounding is absent, and so is every equality check it would make fail.
- `_unit_solid_volume` is not modelled: it calls itself without end.
- JSON and file I/O are not modelled (`load_json`, `loads_json`, and the deprecated `dicts_to_objects` wrapper).
- Foundations, buildings, systems and custom objects are not modelled. This covers their branches in `add_to_dict` and `ecp_dict_to_objects`: those classes lie outside the modelled core.
- Python reflection is not modelled: `attributes`, `__iter__`, `__next__`, `deepcopy` and `ancestor_types`. Assigning `attributes` or `ancestor_types` raises AttributeError on a soil or a profile, but on a generic object through `add_to_obj` it is stored as a plain attribute, where the source raises AttributeError.
- `collect_serial_value` and `str()` of an id are not modelled. They enter as opaque `serial` and `show` functions.
- A stored profile's `layers` entry is a stand-in `None`: `to_dict` reads a layer table that is replaced before the dictionary is stored.
- Files.Output.AddProfile: appending to the layers list after it is put into the profile dictionary is modelled as storing the finished list last. Nothing reads the dictionary in between, so the stored result is the same.
- numpy is not modelled: `get_section_average`, the `values` setter's `np.array`, and the array branch of `vertical_effective_stress`. Only the scalar depth of `vertical_effective_stress` is modelled; `vertical_total_stress` takes a list of depths.
- Class-level `inputs` lists shared between instances are not modelled: every object holds its own.
- Assigning `None` to a soil or profile property is not modelled, and neither are non-numeric soil and profile attribute values. Records are numbers or `None`; generic objects take any value.
- Files.IntOf: `int()` of a string accepts an optional sign and decimal digits only. It does not model surrounding whitespace or underscores.
- The `override` argument of the setters is not modelled: assignment never passes it, so it is always `False`.
- AbstractModels.PhysicalObject.AddFromSame: reads `obj`'s attributes as they were at the call. They differ only when `obj` is the object itself, and then each copy writes an attribute's own value.
- A missing `"models"` key in the loaded dictionary is not modelled. A missing soils or soil-profiles category is taken as empty.
- Files.LoadProfiles: the contract does not state the loaded profiles' settings and layers by key, only per record in Files.LoadProfile.
- Soils.AssignAttribute: the backing fields of the properties (`_phi`, `_e_curr`, `_pw` and the rest) are treated as plain attributes. Assigning one does not change the property it backs, and `_pw` stays constant. Aliasing them would break the per-name account of each setter. The same holds for CustomObject's `_id`, the backing field of `id`, and for `inputs` and `skip_list` assigned by name to a soil or a profile: they are stored as plain attributes, where the source replaces the list `to_dict` reads.
- The inherited `type` attribute (`"physical_object"`) of soils and profiles is not modelled. Soil and profile attributes are numbers only; generic objects carry it.
- Files.AddToObj: a record key `inputs` or `skip_list` is stored as a plain attribute, so the object's `inputs` and skip list keep their values. The source's `setattr` replaces the list that `to_dict`, `set` and `add_from_same` then read. The value would have to be a list of names for those to work, and that case is not modelled.
- Files.WithEntryEffect: keys of `models` categories compare as model values, so `1`, `1.0` and `True` are three keys, where a Python dict holds one entry for them and keeps the first key. The same applies to Files.RegisterSoils, Files.ProfileExport and Files.Output.AddToOutput: their "or what it held before" and "every other entry" clauses hold for keys that Python also tells apart.
- `Soil.saturation` is supplied to `Soils.Soil.SetSaturation` directly. It is not an input, and the records never carry it.
