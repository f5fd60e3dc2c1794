# Facial profile mapper

A Dafny model of the facial-profile mapping engine of the Reallusion
character importer (`Editor/FacialProfileMapper.cs`). The engine renames
blend shapes (morph targets) from one facial naming profile to another.

A profile pairs two dialects with a flag:
- an expression dialect: `None`, `Std`, `ExPlus` or `Ext`;
- a viseme dialect: `None`, `PairsCC3`, `PairsCC4` or `Direct`;
- a `corrections` flag for CC4 exports whose brow shapes carry malformed names.

The model covers:
- the row types and the three compiled-in tables: expression correspondences, viseme correspondences, and correct/incorrect brow-name pairs;
- the two profile detectors, one over an animation clip's animated properties and one over the meshes of a prefab;
- the cached lookup `GetFacialProfileMapping`, with its six per-dialect caches held as the state of a class;
- the correction wrapper `FacialProfile.GetMappingFrom`;
- the expansion of combined names (`_L/R`, `_Up/Down`) through the two static buffers;
- setting and reading a shape's weight on the direct children of a character.

Modules:
- `Strings`: ordinal `StartsWith`, `Contains` and `Replace`, and facts about the two combined-name markers.
- `FacialProfiles`: enums, `FacialProfile`, the row types, the tables, and the first-match correction scans.
- `ProfileDetection`: the two detectors, written as loops. Each is proved to return the highest signature tier on each axis, whatever the order of the names.
- `ShapeExpansion`: the specification of the combined-name expansion.
- `FacialMapping`:
  - `ProfileMapping` and `MappingFrom`, pure specifications of a lookup and a translation over explicit caches;
  - the lemmas about caching;
  - the class `FacialProfileMapper`, holding the static caches and buffers, whose methods are proved equal to those specifications.
- `MapperColumns`: each column of the two compiled-in tables names each shape at most once, and the letters each column's names start with.
- `MapperTableFacts`: what the rows of the compiled-in tables promise, drawn from the general lemmas: each row's name translates to the row's name in the target dialect, expression rows round-trip between CC4 profiles, and which malformed brow names survive a round trip through the correction layer.
- `BlendShapeWeights`: child renderers as a shape-name sequence plus a weight array, and the set and read loops.

Behaviour kept as the source has it:
- A `None` dialect reads the `Std` and `PairsCC3` caches.
- The lookup tries, in order: the expression cache, the viseme cache, the expression table, the viseme table.
- Because of that order, "Tongue_Out" and "Tongue_Narrow" can be answered differently depending on what was looked up earlier. Each is claimed both by an `Ext` expression row and by a `PairsCC3` viseme row.
- The detectors rank ExPlus > Ext > Std and PairsCC4 > PairsCC3 > Direct.
- The expansion order is Up_L, Down_L, Up_R, Down_R.
- The weight read ignores shape index 0 and keeps only the last weight it reads.
- Of the eight malformed brow names, only the four whose corrected names are rows of the expression table (Brow_Raise_Outer and Brow_Drop, left and right) come back from a clean profile as the malformed name, and only when the profile with corrections reads expressions as Std or Ext (`BrowCorrectionsRoundTrip`). When it reads them as ExPlus, as a CC3+ExPlus export does, the corrected name is no ExPlus name: it goes over unchanged and comes back from a Std or Ext profile as the brow row's ExPlus name, so "Brow_Drop_Left" becomes "Brow_Drop_L" and then "A02_Brow_Down_Left" (`ExPlusCorrectionsStayCorrected`). The corrected names "Brow_Raise_Inner_L/R" and "Brow_Raise_L/R" are in no column of either table, so a translation to a clean profile and back leaves them corrected (`UnlistedCorrectionsStayCorrected`).

## Model

| member | source | states |
|---|---|---|
| FacialProfiles.FacialProfile.IsSameProfile | Editor/FacialProfileMapper.cs:29-32 | two profiles are the same exactly when they differ at most in the corrections flag |
| FacialProfiles.FacialProfile.HasFacialShapes | Editor/FacialProfileMapper.cs:34-37 | false exactly when both dialects are None, i.e. the profile is the default one up to corrections |
| FacialProfiles.ExpressionProfileMapping.GetMapping | Editor/FacialProfileMapper.cs:104-110 | null (None) exactly for the None dialect, otherwise one of the row's three columns |
| FacialProfiles.ExpressionProfileMapping.HasMapping | Editor/FacialProfileMapper.cs:92-102 | true exactly when the name is non-empty and equals the row's column for the dialect |
| FacialProfiles.ExpressionProfileMapping.HasAnyMapping | Editor/FacialProfileMapper.cs:81-90 | true exactly when the row has the name in some dialect |
| FacialProfiles.VisemeProfileMapping.GetMapping | Editor/FacialProfileMapper.cs:138-144 | null (None) exactly for the None dialect, otherwise one of the row's three columns |
| FacialProfiles.VisemeProfileMapping.HasMapping | Editor/FacialProfileMapper.cs:126-136 | true exactly when the name is non-empty and equals the row's column for the dialect |
| FacialProfiles.CorrectionIn | Editor/FacialProfileMapper.cs:629-642 | found exactly when some pair's incorrect name is the input; then the correct name of the first such pair; otherwise the input unchanged |
| FacialProfiles.IncorrectionIn | Editor/FacialProfileMapper.cs:644-657 | found exactly when some pair's correct name is the input; then the incorrect name of the first such pair; otherwise the input unchanged |
| FacialProfiles.CorrectionsUnique | Editor/FacialProfileMapper.cs:248-258 | no two pairs share a correct name or an incorrect name |
| FacialProfiles.CorrectionRoundTrip | Editor/FacialProfileMapper.cs:248-258 | for every pair, correcting its incorrect name gives its correct name and back, and incorrection undoes correction in both directions |
| ProfileDetection.ClipShapeNamesContents | Editor/FacialProfileMapper.cs:304-308 | a clip's shape names are exactly the "blendShape." properties with the prefix removed |
| ProfileDetection.MeshShapeNames | Editor/FacialProfileMapper.cs:385-392 | the names of all meshes present, and only those |
| ProfileDetection.GetAnimationClipFacialProfile | Editor/FacialProfileMapper.cs:293-376 | a missing clip gives the default profile; otherwise each axis is the highest tier among the animated shape names, and corrections is set exactly when a malformed brow name is animated |
| ProfileDetection.ClipNameStep | Editor/FacialProfileMapper.cs:310-368 | the switch moves each axis as independent priority tests would, because no name is a signature of two dialects |
| ProfileDetection.DetectsAppendName | Editor/FacialProfileMapper.cs:310-368 | one more name moves the running guess to the highest tier of the longer sequence |
| ProfileDetection.GetMeshFacialProfile | Editor/FacialProfileMapper.cs:378-455 | a missing prefab gives the default profile; otherwise each axis is the highest tier among all mesh shape names, and corrections is set exactly when a malformed brow name is present |
| ProfileDetection.MeshExpressionStep | Editor/FacialProfileMapper.cs:394-418 | the three expression tests of one mesh, in order |
| ProfileDetection.MeshVisemeStep | Editor/FacialProfileMapper.cs:421-440 | the three viseme tests of one mesh, in order |
| ProfileDetection.ExpressionAppendMesh | Editor/FacialProfileMapper.cs:394-418 | after one more mesh the expression guess is the highest expression tier seen |
| ProfileDetection.VisemeAppendMesh | Editor/FacialProfileMapper.cs:421-440 | after one more mesh the viseme guess is the highest viseme tier seen |
| ProfileDetection.CorrectionsAppendMesh | Editor/FacialProfileMapper.cs:442-446 | after one more mesh the corrections flag says whether any malformed brow name was seen |
| ProfileDetection.MeshHasFacialBlendShapes | Editor/FacialProfileMapper.cs:457-461 | true exactly when some mesh shape name is an expression or viseme signature |
| ProfileDetection.DisjointFromExt | Editor/FacialProfileMapper.cs:312-324 | no ExPlus signature is an Ext signature |
| ProfileDetection.DisjointFromStd | Editor/FacialProfileMapper.cs:312-336 | no ExPlus or Ext signature is a Std signature |
| ProfileDetection.DisjointFromPairsCC4 | Editor/FacialProfileMapper.cs:312-344 | no expression signature is a PairsCC4 signature |
| ProfileDetection.DisjointFromPairsCC3 | Editor/FacialProfileMapper.cs:312-352 | no expression or PairsCC4 signature is a PairsCC3 signature |
| ProfileDetection.DisjointFromDirect | Editor/FacialProfileMapper.cs:312-358 | no expression, PairsCC4 or PairsCC3 signature is a Direct signature |
| ProfileDetection.DisjointFromCorrection | Editor/FacialProfileMapper.cs:312-364 | no dialect signature is a malformed brow name |
| ProfileDetection.DetectsUnique | Editor/FacialProfileMapper.cs:293-455 | the detected profile depends only on the set of names, not on their order or repetition |
| ProfileDetection.ClipAndMeshAgree | Editor/FacialProfileMapper.cs:293-455 | a clip and a prefab with the same shape names get the same profile |
| FacialMapping.ExpressionCacheDialect | Editor/FacialProfileMapper.cs:264-272 | the expression cache read for a dialect is its own, except None which reads Std's; it is never the None dialect |
| FacialMapping.VisemeCacheDialect | Editor/FacialProfileMapper.cs:278-286 | the viseme cache read for a dialect is its own, except None which reads PairsCC3's; it is never the None dialect |
| FacialMapping.SetExpressionCache | Editor/FacialProfileMapper.cs:486 | writing one expression cache changes only that cache |
| FacialMapping.SetVisemeCache | Editor/FacialProfileMapper.cs:497 | writing one viseme cache changes only that cache |
| FacialMapping.FirstExpressionRow | Editor/FacialProfileMapper.cs:482-491 | none exactly when no row has the name in the dialect; otherwise the first row that has it |
| FacialMapping.FirstVisemeRow | Editor/FacialProfileMapper.cs:493-502 | none exactly when no row has the name in the dialect; otherwise the first row that has it |
| FacialMapping.OrName | Editor/FacialProfileMapper.cs:470-471 | a null or empty column falls back to the input name |
| FacialMapping.FoundOnlyForClaimedNames | Editor/FacialProfileMapper.cs:463-506 | under valid caches: a name claimed in a source dialect is found; anything found is claimed in the dialects whose caches were read; a miss returns the name with the caches unchanged; the empty name is never found |
| FacialMapping.ExpressionCacheHolds | Editor/FacialProfileMapper.cs:468 | an expression-cache hit under valid caches is the first table row that claims the name |
| FacialMapping.VisemeCacheHolds | Editor/FacialProfileMapper.cs:475 | a viseme-cache hit under valid caches is the first table row that claims the name |
| FacialMapping.MappingEmptyOnlyForEmptyName | Editor/FacialProfileMapper.cs:470-471 | the mapping is empty exactly when the input is; a target with no dialects maps every name to itself |
| FacialMapping.ProfileMappingKeepsCachesValid | Editor/FacialProfileMapper.cs:484-497 | a lookup keeps every cache entry a first matching row, never removes or changes an entry, and adds at most one |
| FacialMapping.AddExpressionEntry | Editor/FacialProfileMapper.cs:484-486 | caching a scanned expression row, under a key the cache lacked, keeps the caches valid and grows them by one |
| FacialMapping.AddVisemeEntry | Editor/FacialProfileMapper.cs:495-497 | caching a scanned viseme row, under a key the cache lacked, keeps the caches valid and grows them by one |
| FacialMapping.RepeatedLookupHitsCache | Editor/FacialProfileMapper.cs:468-480 | a found name asked again gets the same mapping from the cache, with the caches unchanged |
| FacialMapping.CachesTransparent | Editor/FacialProfileMapper.cs:463-506 | for a name not affected by the shared None caches or a double claim, any valid caches give the answer that empty caches give |
| FacialMapping.DoubleClaimDependsOnHistory | Editor/FacialProfileMapper.cs:468-502 | a name claimed by both tables resolves as an expression on fresh caches, but as a viseme after a lookup from a source with no expression dialect |
| FacialMapping.NoneSourceSharesStdCache | Editor/FacialProfileMapper.cs:264-272 | a None source misses a Std-only name on fresh caches but finds it once a Std source has looked it up |
| FacialMapping.NoneSourceSharesCC3Cache | Editor/FacialProfileMapper.cs:278-286 | a source with no viseme dialect misses a PairsCC3-only name on fresh caches but finds it once a PairsCC3 source has looked it up |
| FacialMapping.ExpressionColumnClaimsOnce | Editor/FacialProfileMapper.cs:482-491 | in a column that names each shape once, no name is claimed by two rows |
| FacialMapping.VisemeColumnClaimsOnce | Editor/FacialProfileMapper.cs:493-502 | in a column that names each shape once, no name is claimed by two rows |
| FacialMapping.ExpressionRowIsFirst | Editor/FacialProfileMapper.cs:482-491 | in such a column, the expression scan for a row's name returns that row |
| FacialMapping.VisemeRowIsFirst | Editor/FacialProfileMapper.cs:493-502 | in such a column, the viseme scan for a row's name returns that row |
| FacialMapping.ExpressionRowTranslates | Editor/FacialProfileMapper.cs:463-506 | a name an expression row claims in the source dialect, unambiguous for the source, is found under any valid caches and maps to the row's name in the target dialect, or to itself where that is null or empty |
| FacialMapping.VisemeRowTranslates | Editor/FacialProfileMapper.cs:463-506 | the same for a name a viseme row claims |
| FacialMapping.ExpressionRowRoundTrip | Editor/FacialProfileMapper.cs:463-506 | an expression row's names in two profiles, each unambiguous for its profile, translate into each other, the second lookup running on the caches the first left |
| FacialMapping.VisemeRowRoundTrip | Editor/FacialProfileMapper.cs:463-506 | the same round trip through a viseme row |
| FacialMapping.MappingFromUncorrectedName | Editor/FacialProfileMapper.cs:43-64 | a name the source does not correct (no source corrections, or not a malformed brow name) translates to the lookup's mapping, passed through incorrection when the target has corrections and found; an unfound name comes back as it is |
| FacialMapping.MappingFromCorrectedName | Editor/FacialProfileMapper.cs:45-52 | a source with corrections looks up the corrected name; a found mapping is returned without incorrection, otherwise the corrected name is returned |
| FacialMapping.MappingFromFallback | Editor/FacialProfileMapper.cs:45-64 | a name claimed in none of the dialects the source reads comes back unchanged, corrected first when the source has corrections, with the caches untouched |
| FacialMapping.CorrectionLayerRoundTrip | Editor/FacialProfileMapper.cs:45-61 | if the corrected brow name is found from the defective profile to the clean one, and that mapping is found back as the corrected name, then the malformed name goes to that mapping and comes back as the malformed name; on the compiled-in tables the hypothesis holds for corrections 2-5 when the defective profile reads expressions as Std or Ext (`BrowCorrectionsRoundTrip`), and fails for corrections 0, 1, 6 and 7 (`UnlistedCorrectionsStayCorrected`) and for an ExPlus defective profile (`ExPlusCorrectionsStayCorrected`) |
| FacialMapping.DirectCacheStaysEmpty | Editor/FacialProfileMapper.cs:229-246 | the Direct viseme cache is always empty, because no viseme row has a Direct name |
| FacialMapping.DirectTargetKeepsName | Editor/FacialProfileMapper.cs:138-144 | a target whose only dialect is Direct gets every name back unchanged |
| FacialMapping.NoDirectClaims | Editor/FacialProfileMapper.cs:229-246 | no viseme row claims any name in the Direct dialect |
| FacialMapping.DirectColumnEmpty | Editor/FacialProfileMapper.cs:231-245 | every viseme row has an empty Direct name |
| FacialMapping.ScanExpressionRows | Editor/FacialProfileMapper.cs:482-491 | the expression-table loop returns the first row with the name in the dialect, or none |
| FacialMapping.ScanVisemeRows | Editor/FacialProfileMapper.cs:493-502 | the viseme-table loop returns the first row with the name in the dialect, or none |
| FacialMapping.FacialProfileMapper.GetFacialProfileMapping | Editor/FacialProfileMapper.cs:463-506 | the result and the new caches are those of the lookup specification, and valid caches stay valid |
| FacialMapping.FacialProfileMapper.GetMappingFrom | Editor/FacialProfileMapper.cs:39-65 | the result and the new caches are those of the translation specification, and valid caches stay valid |
| FacialMapping.FacialProfileMapper.GetMultiShapeNames | Editor/FacialProfileMapper.cs:511-549 | whatever the buffers held before, the result is the expansion of the name and the temporary buffer ends empty |
| ShapeExpansion.DirectionVariants | Editor/FacialProfileMapper.cs:522-529 | at most two names per input name, and none at all exactly when no input name carries "_Up/Down" |
| ShapeExpansion.MultiShapeNamesShape | Editor/FacialProfileMapper.cs:511-549 | one, two or four names; a name without "/" stands for itself; one name exactly when neither marker occurs; four exactly when both do |
| ShapeExpansion.SideDirectionVariants | Editor/FacialProfileMapper.cs:517-529 | the up/down variants of the two side names are the four-name expansion when "_Up/Down" occurs, and none otherwise |
| ShapeExpansion.SideVariantsKeepDirection | Editor/FacialProfileMapper.cs:519-524 | replacing "_L/R" neither creates nor destroys an "_Up/Down" |
| MapperTableFacts.TongueOutClaimedTwice | Editor/FacialProfileMapper.cs:161-246 | "Tongue_Out" is an Ext expression name and the CC3 name of the viseme row whose CC4 name is "V_Tongue_Out" |
| MapperTableFacts.TongueNarrowClaimedTwice | Editor/FacialProfileMapper.cs:161-246 | "Tongue_Narrow" is an Ext expression name and the CC3 name of the viseme row whose CC4 name is "V_Tongue_Narrow" |
| MapperTableFacts.BrowDropClaimedInStd | Editor/FacialProfileMapper.cs:164-246 | "Brow_Drop_L" is a Std expression name and no viseme dialect claims it, so a source with no expression dialect reaches it only through the shared Std cache |
| MapperTableFacts.OpenClaimedInCC3 | Editor/FacialProfileMapper.cs:163-231 | "Open" is a PairsCC3 name and no expression dialect claims it, so a source with no viseme dialect reaches it only through the shared PairsCC3 cache |
| MapperTableFacts.NoExpressionClaims | Editor/FacialProfileMapper.cs:163-226 | a name starting with a letter no expression name starts with is claimed in no expression dialect |
| MapperTableFacts.NoVisemeClaims | Editor/FacialProfileMapper.cs:231-245 | a name starting with a letter no viseme name starts with is claimed in no viseme dialect |
| MapperTableFacts.MapperExpressionColumnUnique | Editor/FacialProfileMapper.cs:163-226 | every expression column of the table names each shape at most once |
| MapperTableFacts.MapperVisemeColumnUnique | Editor/FacialProfileMapper.cs:231-245 | every viseme column of the table names each viseme at most once |
| MapperTableFacts.MapperExpressionRowIsFirst | Editor/FacialProfileMapper.cs:482-491 | the expression scan for any row's non-empty name in a dialect returns that row |
| MapperTableFacts.MapperVisemeRowIsFirst | Editor/FacialProfileMapper.cs:493-502 | the viseme scan for any row's non-empty name in a dialect returns that row |
| MapperTableFacts.UnambiguousBesideCC4 | Editor/FacialProfileMapper.cs:163-245 | a source with an expression dialect and a PairsCC4 or Direct viseme dialect reads every name unambiguously |
| MapperTableFacts.CC4NamesNotExpressions | Editor/FacialProfileMapper.cs:163-245 | no name is both a PairsCC4 name and an expression name |
| MapperTableFacts.OnlyVNamesAreCC4 | Editor/FacialProfileMapper.cs:231-245 | a name not starting with V is no PairsCC4 name |
| MapperTableFacts.MapperExpressionRowTranslates | Editor/FacialProfileMapper.cs:463-506 | any expression row's non-empty name in the source dialect, when unambiguous, is found under any valid caches and maps to the row's name in the target dialect, or to itself where that is null or empty |
| MapperTableFacts.MapperVisemeRowTranslates | Editor/FacialProfileMapper.cs:463-506 | the same for any viseme row |
| MapperTableFacts.MapperExpressionRowRoundTrip | Editor/FacialProfileMapper.cs:463-506 | between two profiles with expression dialects and PairsCC4 or Direct viseme dialects, every expression row named in both goes there and comes back under any valid caches |
| MapperTableFacts.MapperVisemeRowRoundTrip | Editor/FacialProfileMapper.cs:463-506 | a viseme row's names in two profiles, when unambiguous, go there and come back under any valid caches |
| MapperTableFacts.VisemeNamesShort | Editor/FacialProfileMapper.cs:231-245 | no viseme name is longer than 15 characters |
| MapperTableFacts.LongNamesNotVisemes | Editor/FacialProfileMapper.cs:231-245 | a name longer than 15 characters is claimed in no viseme dialect |
| MapperTableFacts.BrowCorrectionNames | Editor/FacialProfileMapper.cs:163-167 | the corrected names of corrections 2-5 are the Std and Ext names of brow rows 3, 4, 1 and 2, which name their shape in every expression dialect, and both ends of the trip are unambiguous |
| MapperTableFacts.BrowCorrectionsRoundTrip | Editor/FacialProfileMapper.cs:39-65 | for corrections 2-5, from a Std or Ext profile with corrections to a clean profile with an expression dialect, the malformed name goes to the brow row's name in the clean dialect and comes back as the malformed name |
| MapperTableFacts.UnlistedBrowNamesNoExpression | Editor/FacialProfileMapper.cs:163-226 | the corrected names of corrections 0, 1, 6 and 7 are claimed in no expression dialect |
| MapperTableFacts.UnlistedBrowNamesNoViseme | Editor/FacialProfileMapper.cs:231-245 | nor in any viseme dialect |
| MapperTableFacts.UnlistedCorrectionsStayCorrected | Editor/FacialProfileMapper.cs:39-65 | for corrections 0, 1, 6 and 7 the malformed name goes to its corrected name and that comes back unchanged, not as the malformed name, with the caches untouched |
| MapperTableFacts.BrowNamesNotExPlus | Editor/FacialProfileMapper.cs:163-226 | no name starting with B is claimed in the ExPlus dialect |
| MapperTableFacts.ExPlusCorrectionGoesOver | Editor/FacialProfileMapper.cs:39-65 | from an ExPlus profile with corrections, malformed names 2-5 go over as their corrected names, with the caches untouched |
| MapperTableFacts.ExPlusCorrectionComesBack | Editor/FacialProfileMapper.cs:39-65 | from a clean Std or Ext profile to an ExPlus one, corrected names 2-5 come back as the brow row's ExPlus name |
| MapperTableFacts.BrowExPlusNamesNotCorrections | Editor/FacialProfileMapper.cs:248-258 | the ExPlus names of brow rows 1-4 are no pair's correct or incorrect name |
| MapperTableFacts.ExPlusCorrectionsStayCorrected | Editor/FacialProfileMapper.cs:39-65 | from an ExPlus profile with corrections to a clean Std or Ext profile and back, malformed names 2-5 come back as the brow row's ExPlus name, which differs from the malformed name |
| MapperColumns.StdColumnUnique | Editor/FacialProfileMapper.cs:163-226 | no two expression rows share a non-empty Std name |
| MapperColumns.ExtColumnUnique | Editor/FacialProfileMapper.cs:163-226 | no two expression rows share a non-empty Ext name |
| MapperColumns.ExPlusColumnUnique | Editor/FacialProfileMapper.cs:163-226 | no two expression rows share a non-empty ExPlus name |
| MapperColumns.CC3ColumnUnique | Editor/FacialProfileMapper.cs:231-245 | no two viseme rows share a non-empty PairsCC3 name |
| MapperColumns.CC4ColumnUnique | Editor/FacialProfileMapper.cs:231-245 | no two viseme rows share a non-empty PairsCC4 name |
| MapperColumns.ExpressionTableInitials | Editor/FacialProfileMapper.cs:163-226 | every non-empty expression name starts with one of A, B, C, E, J, M, N, T |
| MapperColumns.VisemeTableInitials | Editor/FacialProfileMapper.cs:231-245 | every non-empty viseme name starts with one of A, D, E, L, O, T, V, W |
| BlendShapeWeights.GetBlendShapeIndex | Editor/FacialProfileMapper.cs:575 | the index of the first shape with the name, or -1 exactly when the mesh lacks it |
| BlendShapeWeights.SetCharacterBlendShape | Editor/FacialProfileMapper.cs:551-589 | with no root nothing changes; otherwise the caches move as the translation says, the result is true exactly when some child mesh holds an expanded name, and each child gets the weight exactly at those names' indices with every other weight unchanged |
| BlendShapeWeights.SetExpandedWeights | Editor/FacialProfileMapper.cs:562-584 | expanding and writing leaves the caches unchanged and writes exactly at the expanded names' indices |
| BlendShapeWeights.SetChildrenWeights | Editor/FacialProfileMapper.cs:564-584 | true exactly when some child with a non-empty mesh holds one of the names; writes only at their indices |
| BlendShapeWeights.SetMeshWeights | Editor/FacialProfileMapper.cs:571-582 | true exactly when the mesh holds one of the names; writes only at their indices |
| BlendShapeWeights.ReadCountAll | Editor/FacialProfileMapper.cs:602-620 | the read count is never more than the number of children, and equals it exactly when every child is readable |
| BlendShapeWeights.ReadCountZero | Editor/FacialProfileMapper.cs:611-617 | nothing is counted exactly when no child has the name at an index above 0 |
| BlendShapeWeights.GetCharacterBlendShapeWeight | Editor/FacialProfileMapper.cs:591-627 | with no root or an empty translation nothing is counted; otherwise the count is the number of children with the name at an index above 0 and the weight is the last one read; found exactly when the count is positive, and the weight is zero when nothing was counted |
| BlendShapeWeights.ReadChildrenWeights | Editor/FacialProfileMapper.cs:602-620 | the read loop counts the readable children and leaves the last readable child's weight, or zero |
| BlendShapeWeights.ReadChildrenLoop | Editor/FacialProfileMapper.cs:602-620 | the loop counts the readable children and ends holding the weight of the last readable child, with no readable child after it, or zero when there is none |
| BlendShapeWeights.ReadChild | Editor/FacialProfileMapper.cs:605-617 | a child is read exactly when its non-empty mesh has the name at an index above 0, and the weight read is the one at that index |
| BlendShapeWeights.FirstShapeNeverRead | Editor/FacialProfileMapper.cs:613 | a name that is the first shape of every mesh is never read |

## Left out

- `FacialProfile.ToString`: cosmetic formatting.
- Unity objects are replaced by plain values:
  - an animation clip is its property names;
  - a prefab is its renderers' shape-name lists;
  - a character root is its direct children, each with an optional renderer: a shape-name list plus a weight array.
- `Mesh.GetBlendShapeIndex`, `HasShape` and `SetBlendShapeWeight` are modelled as a first-index search and an array write. Unity itself is not part of this model.
- GetCharacterBlendShapeWeight: the final division by the count is not modelled, because weights are an uninterpreted type here. The method returns the last weight read and the count, and callers divide.
- Renderers without a shared mesh in `SetCharacterBlendShape`/`GetCharacterBlendShapeWeight`: the source would throw there; every renderer in the model has a mesh.
- A null shape name is not modelled: the source's dictionary lookup would throw on it. Null table columns become `None` only where `GetMapping` returns null.
- SetCharacterBlendShape: the weight arrays of different children are required to be distinct objects. Shared meshes with shared weights are not modelled.
- The dictionaries the source returns by reference are modelled as values written back to the mapper's fields. Outside aliasing of those dictionaries is not modelled.
- MapperVisemeRowRoundTrip: keeps the unambiguity hypothesis, because for a PairsCC3 source the names "Tongue_Out" and "Tongue_Narrow" are also Ext expression names and their answer depends on earlier lookups.
- Concrete lookups on literal names (for example, "Tongue_Out" from (Ext, PairsCC3) to (Ext, PairsCC4)) are not stated as single lemmas. The general lemmas state them, and `MapperTableFacts` shows which rows make the general lemmas apply.
- String operations are ordinal character comparisons, with no culture-sensitive comparison.
- `Editor/LodSelectionWindow.cs` and `Editor/ColliderManagerEditor.cs` are editor user-interface code and are not part of this model.
- The static state is used from one thread only, so there is no concurrency to model.
