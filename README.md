# MPFB core logic, modelled in Dafny

This project models four sequential parts of MPFB, the MakeHuman add-on for Blender:

- **The default leg IK strategy** (`LegIk`). It covers side-qualified bone names (`.R` / `.L`), the bone count of each leg segment, and the ordered bone chain with its include flags. It also covers the rotation limits and locks that the strategy applies through the rig service. The host calls (`bpy.ops.object.mode_set` and the two `RigService` calls) are recorded by `PoseHost`, which keeps the active object's mode and a log of the calls made. Every property of the constraint helpers is a statement about that log.
- **The `MpfbColorRouter5` shader group** (`ColorRouter5`). The molecule builder is a class whose socket, node and link lists grow as `create_group` calls `add_input_socket`, `add_output_socket`, the atom constructors and `add_link`. The lemmas state the finished group's sockets, its nodes, and the shape of its link graph: endpoints exist, no socket is fed twice, every input is used, the mix chain, and acyclicity.
- **Two atom constructors** (`Atoms`): `createShaderNodeLightPath` and `createShaderNodeBsdfGlossy`. Each builds a node definition and hands it once to `_create_node`. The catalog entry that heads each source file is kept as a constant, and the constructed key sets are proved equal to the catalog's names.
- **The object service's logic** (`ObjectService`). It covers `ensure_unique_name`, `has_vertex_group`, `get_vertex_indexes_for_vertex_group`, `get_object_type` / `object_is`, the range expansion and cache of `get_base_mesh_vertex_group_definition`, `get_list_of_children`, and the nearest-relatives search. Blender's scene is a value `World`: the objects in `bpy.data.objects` order, each with its parent, whether it is an armature, its MakeHuman type property and its vertex data. A ghost depth map witnesses that the parent relation is acyclic. `AllListed` states that every object of the scene is in `bpy.data.objects`; the completeness lemmas assume it.

Behaviour of the code that the model keeps:

- Atom constructors store `None` for an omitted parameter.
- `get_reverse_list_of_bones_in_leg` builds its list hip first (proximal to distal).
- `MpfbColorRouter5` has eight internal nodes: four comparisons and four mixes.
- The leg IK code issues every call its helpers make, with no precedence between locks and limits. No bone in its tables declares both a lock and a limit on the same axis (`LegIk.TableLocksAndLimitsDisjoint`), the `Y` limits listed for `lowerleg02` and `upperleg02` are never issued, and neither is the `Z` lock listed for `lowerleg01` (`LegIk.UnusedTableEntriesNeverIssued`).
- `which_leg` is compared with `"right"`. Every other value gives the `.L` suffix.

## Model

| member | source | states |
|---|---|---|
| LegIk.Sided | src/mpfb/entities/legik/defaultlegik.py:55-58 | a sided name is the name, a dot, then `R` exactly when the leg is `"right"` and `L` for every other value |
| LegIk.SidesDifferOnlyInSuffix | src/mpfb/entities/legik/defaultlegik.py:55-58 | the right and left names of a bone have the same length, differ, and agree on everything but the last character |
| LegIk.GettersMatchChain | src/mpfb/entities/legik/defaultlegik.py:60-79 | the counts are lower 2, upper 2, hip 1, equal to the segment sizes of the bone chain; each name getter gives the sided last bone of its segment (`lowerleg02`, `upperleg02`, `pelvis`, `foot`) |
| LegIk.DefaultLegIk.constructor | src/mpfb/entities/legik/defaultlegik.py:51-53 | the strategy keeps the side it was built for |
| LegIk.DefaultLegIk.GetReverseListOfBonesInLeg | src/mpfb/entities/legik/defaultlegik.py:113-125 | the appended list equals the sided names of the chain entries whose segment flag is set, in chain order |
| LegIk.LegChainSelection | src/mpfb/entities/legik/defaultlegik.py:114-124 | the selection is hip, then both upper-leg bones, then both lower-leg bones, then the foot, each part present exactly when its flag is set |
| LegIk.FullLegChain | src/mpfb/entities/legik/defaultlegik.py:113-125 | with every flag set the list is sided `pelvis, upperleg01, upperleg02, lowerleg01, lowerleg02, foot` |
| LegIk.BoneListContents | src/mpfb/entities/legik/defaultlegik.py:114-124 | the list has hip·1 + upper·2 + lower·2 + foot·1 names, and holds a name exactly when it is the sided name of a bone of an included segment |
| LegIk.SelectBonesMembership | src/mpfb/entities/legik/defaultlegik.py:114-124 | a name is selected from any chain exactly when some entry of an included segment has that sided name |
| LegIk.SelectBonesLength | src/mpfb/entities/legik/defaultlegik.py:114-124 | each included segment contributes exactly its number of chain entries |
| LegIk.LegChainSegmentSizes | src/mpfb/entities/legik/defaultlegik.py:72-79 | the leg chain has one hip bone, two upper-leg bones, two lower-leg bones and one foot bone |
| LegIk.LimitCallsForAt | src/mpfb/entities/legik/defaultlegik.py:84-87 | one limit call per axis entry, in table order, carrying that entry's axis and min/max pair |
| LegIk.LimitCallsMatchTable | src/mpfb/entities/legik/defaultlegik.py:81-87 | `_sided_rotation_limit` logs one limit call per axis key of the bone's table entry with the table's min/max, and none for a bone absent from the table |
| LegIk.LockCallsMatchTable | src/mpfb/entities/legik/defaultlegik.py:89-97 | `_sided_rotation_lock` logs exactly one lock call for a bone in the lock table and none otherwise; each lock flag is true iff that axis is present and true |
| LegIk.TableLimitsOrdered | src/mpfb/entities/legik/defaultlegik.py:12-33 | every limit in the table has min ≤ max |
| LegIk.TableLocksAndLimitsDisjoint | src/mpfb/entities/legik/defaultlegik.py:12-47 | no bone has a lock and a limit on the same axis |
| LegIk.LowerLegLog | src/mpfb/entities/legik/defaultlegik.py:99-101 | the lower-leg log is: pose mode, lock `lowerleg02` on X and Z, pose mode, the X and Y limits of `lowerleg01` |
| LegIk.UpperLegLog | src/mpfb/entities/legik/defaultlegik.py:103-105 | the upper-leg log is: pose mode, lock `upperleg02` on X and Z, pose mode, the X, Y and Z limits of `upperleg01` |
| LegIk.HipLog | src/mpfb/entities/legik/defaultlegik.py:107-111 | the hip log is: pose mode twice, the three `pelvis` limits, then only a mode switch for `clavicle`, which has no table entry |
| LegIk.ConstraintLogsStayInPoseMode | src/mpfb/entities/legik/defaultlegik.py:81-111 | every constraint helper's log starts by entering pose mode and never switches to another mode |
| LegIk.LowerLegBones | src/mpfb/entities/legik/defaultlegik.py:99-101 | the lower-leg helper's lock calls name only the sided `lowerleg02` and its limit calls only the sided `lowerleg01` |
| LegIk.UpperLegBones | src/mpfb/entities/legik/defaultlegik.py:103-105 | the upper-leg helper's lock calls name only the sided `upperleg02` and its limit calls only the sided `upperleg01` |
| LegIk.HipLocksNothing | src/mpfb/entities/legik/defaultlegik.py:107-111 | the hip helper makes no lock call |
| LegIk.UnusedTableEntriesNeverIssued | src/mpfb/entities/legik/defaultlegik.py:99-111 | no limit call of the lower- or upper-leg helper names `lowerleg02` or `upperleg02`, so their table Y limits are never issued; no helper's lock call names `lowerleg01`, so its table Z lock is never issued |
| LegIk.PoseHost.ModeSet | src/mpfb/entities/legik/defaultlegik.py:82 | the mode becomes the requested one and the switch is appended to the log |
| LegIk.PoseHost.SetIkRotationLimits | src/mpfb/entities/legik/defaultlegik.py:87 | one limit call is appended; the mode is unchanged |
| LegIk.PoseHost.AddIkRotationLockToPoseBone | src/mpfb/entities/legik/defaultlegik.py:97 | one lock call is appended; the mode is unchanged |
| LegIk.DefaultLegIk.SidedRotationLimit | src/mpfb/entities/legik/defaultlegik.py:81-87 | the host ends in pose mode and the log grows by a mode switch then the bone's limit calls |
| LegIk.DefaultLegIk.SidedRotationLock | src/mpfb/entities/legik/defaultlegik.py:89-97 | the host ends in pose mode and the log grows by a mode switch then the bone's lock call, if any |
| LegIk.DefaultLegIk.AddLowerLegRotationConstraints | src/mpfb/entities/legik/defaultlegik.py:99-101 | the log grows by the lower-leg calls and the host is left in pose mode |
| LegIk.DefaultLegIk.AddUpperLegRotationConstraints | src/mpfb/entities/legik/defaultlegik.py:103-105 | the log grows by the upper-leg calls and the host is left in pose mode |
| LegIk.DefaultLegIk.AddHipRotationConstraints | src/mpfb/entities/legik/defaultlegik.py:107-111 | the log grows by the hip calls and the host is left in pose mode |
| ColorRouter5.MpfbColorRouter5.constructor | src/mpfb/entities/nodemodel/molecules/colorrouter5.py:10-12 | a builder for group `MpfbColorRouter5` with no sockets, nodes or links |
| ColorRouter5.MpfbColorRouter5.CreateInputAndOutput | src/mpfb/entities/nodemodel/molecules/colorrouter5.py:19 | the Group Input and Group Output nodes are appended and their handles returned |
| ColorRouter5.MpfbColorRouter5.AddInputSocket | src/mpfb/entities/nodemodel/molecules/colorrouter5.py:23 | one input socket is appended; nothing else changes |
| ColorRouter5.MpfbColorRouter5.AddOutputSocket | src/mpfb/entities/nodemodel/molecules/colorrouter5.py:34 | one output socket is appended; nothing else changes |
| ColorRouter5.MpfbColorRouter5.CreateAtom | src/mpfb/entities/nodemodel/molecules/colorrouter5.py:36 | one node is appended and its handle is its position |
| ColorRouter5.MpfbColorRouter5.AddLink | src/mpfb/entities/nodemodel/molecules/colorrouter5.py:45 | one link is appended; nothing else changes |
| ColorRouter5.MpfbColorRouter5.CreateGroup | src/mpfb/entities/nodemodel/molecules/colorrouter5.py:14-65 | on a fresh builder it ends with exactly the group's 10 inputs, 1 output, 10 nodes and 21 links; every link joins declared sockets of existing nodes, and no input socket is fed twice |
| ColorRouter5.MpfbColorRouter5.DeclareSockets | src/mpfb/entities/nodemodel/molecules/colorrouter5.py:23-34 | the ten inputs and the one output are appended in declaration order |
| ColorRouter5.MpfbColorRouter5.CreateAtoms | src/mpfb/entities/nodemodel/molecules/colorrouter5.py:36-43 | the eight internal nodes are appended in creation order, with consecutive handles |
| ColorRouter5.MpfbColorRouter5.LinkFirstSection | src/mpfb/entities/nodemodel/molecules/colorrouter5.py:45-49 | the first five links are appended in source order |
| ColorRouter5.MpfbColorRouter5.LinkSecondSection | src/mpfb/entities/nodemodel/molecules/colorrouter5.py:50-54 | the next five links are appended in source order |
| ColorRouter5.MpfbColorRouter5.LinkThirdSection | src/mpfb/entities/nodemodel/molecules/colorrouter5.py:55-59 | the next five links are appended in source order |
| ColorRouter5.MpfbColorRouter5.LinkFourthSection | src/mpfb/entities/nodemodel/molecules/colorrouter5.py:60-65 | the last six links are appended in source order, ending with Mix.003 into Group Output |
| ColorRouter5.GroupSockets | src/mpfb/entities/nodemodel/molecules/colorrouter5.py:23-34 | ten inputs `Value`, `Threshold1`..`4`, `Section1Color`..`5`; defaults 0.5 for `Value` and `Threshold1`..`3`, 0.8 for `Threshold4`; one output `Color` |
| ColorRouter5.SocketNames | src/mpfb/entities/nodemodel/molecules/colorrouter5.py:23-34 | the names of a socket list, position by position |
| ColorRouter5.GroupNodeKinds | src/mpfb/entities/nodemodel/molecules/colorrouter5.py:19-43 | ten nodes: Group Input, Group Output, four `GREATER_THAN` math nodes and four `MIX` mix nodes at the handles the links use |
| ColorRouter5.InternalNodesDistinct | src/mpfb/entities/nodemodel/molecules/colorrouter5.py:36-43 | eight internal nodes, and all node names are distinct |
| ColorRouter5.BoundarySocketsDeclared | src/mpfb/entities/nodemodel/molecules/colorrouter5.py:23-34 | every socket name the links use on the group boundary is declared |
| ColorRouter5.WiredGraphConcat | src/mpfb/entities/nodemodel/molecules/colorrouter5.py:45-65 | a link list is well-formed exactly when both of its parts are |
| ColorRouter5.RunWired | src/mpfb/entities/nodemodel/molecules/colorrouter5.py:45-65 | each of the four runs of links has existing endpoints |
| ColorRouter5.GroupLinksWired | src/mpfb/entities/nodemodel/molecules/colorrouter5.py:36-65 | every link's source and destination are created nodes, and boundary sockets are declared ones |
| ColorRouter5.GroupDestinationsDistinct | src/mpfb/entities/nodemodel/molecules/colorrouter5.py:45-65 | 21 links, and no (destination node, destination socket) pair receives two of them |
| ColorRouter5.DistinctDestinationsConcat | src/mpfb/entities/nodemodel/molecules/colorrouter5.py:45-65 | two link lists without repeated destinations and with disjoint destination nodes join into one without repeats |
| ColorRouter5.DisjointDestinationNodesConcat | src/mpfb/entities/nodemodel/molecules/colorrouter5.py:45-65 | destination-node disjointness from a run carries over to the concatenation of two lists |
| ColorRouter5.RunsDistinctDestinations | src/mpfb/entities/nodemodel/molecules/colorrouter5.py:45-65 | no socket is fed twice within a run |
| ColorRouter5.RunsDisjointDestinations | src/mpfb/entities/nodemodel/molecules/colorrouter5.py:45-65 | different runs end at different nodes |
| ColorRouter5.ComparisonLinks | src/mpfb/entities/nodemodel/molecules/colorrouter5.py:45-63 | `Value` feeds the `Value` socket of all four math nodes; Threshold K feeds `Value_001` of the K-th math node, whose output drives `Fac` of the K-th mix node |
| ColorRouter5.SectionComparison | src/mpfb/entities/nodemodel/molecules/colorrouter5.py:45-63 | the three comparison links of one section are present |
| ColorRouter5.MixChainLinks | src/mpfb/entities/nodemodel/molecules/colorrouter5.py:48-65 | the mix nodes chain Mix → Mix.001 → Mix.002 → Mix.003 through `Color`→`Color1`; the section colours feed `Color1` of the first mix and `Color2` of each; Mix.003 feeds Group Output |
| ColorRouter5.SectionMix | src/mpfb/entities/nodemodel/molecules/colorrouter5.py:48-65 | the colour and chain links of one section are present |
| ColorRouter5.GroupOutputFedByLastMix | src/mpfb/entities/nodemodel/molecules/colorrouter5.py:65 | the only link into Group Output is Mix.003 `Color` → `Color` |
| ColorRouter5.EveryInputUsed | src/mpfb/entities/nodemodel/molecules/colorrouter5.py:23-65 | every declared input is read by at least one link |
| ColorRouter5.InputUsedAt | src/mpfb/entities/nodemodel/molecules/colorrouter5.py:23-65 | the input at each declared position is read by some link |
| ColorRouter5.GroupLinksClimb | src/mpfb/entities/nodemodel/molecules/colorrouter5.py:45-65 | every link goes from a lower data-flow rank to a higher one |
| ColorRouter5.PathClimbs | src/mpfb/entities/nodemodel/molecules/colorrouter5.py:45-65 | along a path of rank-increasing links the rank grows by at least the path length |
| ColorRouter5.GroupAcyclic | src/mpfb/entities/nodemodel/molecules/colorrouter5.py:45-65 | no path of links returns to the node it started from |
| Atoms.GlossyCatalogNames | src/mpfb/entities/nodemodel/atoms/shadernodebsdfglossy.py:3-37 | the glossy catalog declares attribute `distribution` and inputs `Color`, `Roughness`, `Normal`, `Weight` |
| Atoms.LightPathDef | src/mpfb/entities/nodemodel/atoms/shadernodelightpath.py:88-97 | class `ShaderNodeLightPath`, attribute and input key sets equal to the catalog's (both empty), presentation fields copied verbatim (`None` when omitted) |
| Atoms.BsdfGlossyDef | src/mpfb/entities/nodemodel/atoms/shadernodebsdfglossy.py:48-62 | class `ShaderNodeBsdfGlossy`, key sets equal to the catalog's names, each key holding its argument (`None` when omitted), presentation fields copied verbatim |
| Atoms.NodeManager.constructor | src/mpfb/entities/nodemodel/atoms/shadernodelightpath.py:99 | a node manager that has created no node |
| Atoms.NodeManager.CreateNode | src/mpfb/entities/nodemodel/atoms/shadernodelightpath.py:99 | appends one node definition and returns its handle |
| Atoms.NodeManager.CreateShaderNodeLightPath | src/mpfb/entities/nodemodel/atoms/shadernodelightpath.py:88-99 | exactly one node is created, with the light-path definition, and its handle is returned |
| Atoms.NodeManager.CreateShaderNodeBsdfGlossy | src/mpfb/entities/nodemodel/atoms/shadernodebsdfglossy.py:48-64 | exactly one node is created, with the glossy definition, and its handle is returned |
| ObjectService.Lower | src/mpfb/services/objectservice.py:144 | lowercasing keeps the length and maps each character to its lower case |
| ObjectService.LeadingSpaces | src/mpfb/services/objectservice.py:124 | the count of leading whitespace, stopping at the first non-space |
| ObjectService.TrailingStart | src/mpfb/services/objectservice.py:124 | the cut point before trailing whitespace, just after the last non-space |
| ObjectService.Strip | src/mpfb/services/objectservice.py:124 | the stripped string is a slice with only whitespace cut on either side, and no whitespace at its ends |
| ObjectService.ObjectType | src/mpfb/services/objectservice.py:118-124 | `""` for no object or no type property, otherwise the stripped property |
| ObjectService.AnyItemMatchesSpec | src/mpfb/services/objectservice.py:149-152 | the item loop accepts exactly when some item matches |
| ObjectService.ObjectIsSpec | src/mpfb/services/objectservice.py:136-158 | false for a blank query or an untyped object; otherwise true iff some non-blank lowercased, stripped item is a substring of the lowercased type |
| ObjectService.ObjectIs | src/mpfb/services/objectservice.py:127-158 | a match needs a non-blank query and a MakeHuman object |
| ObjectService.MakeHumanObjectHasTypeText | src/mpfb/services/objectservice.py:194-195 | `IsAnyMakeHumanObject` holds iff there is an object whose type property has a character other than whitespace |
| ObjectService.ObjectIsSingleAsList | src/mpfb/services/objectservice.py:146-147 | a lone name and the one-element list holding it give the same answer |
| ObjectService.ObjectIsSingle | src/mpfb/services/objectservice.py:136-152 | for a lone name, the answer is that name's match against the lowercased type |
| ObjectService.ObjectIsIgnoresQueryCase | src/mpfb/services/objectservice.py:144-150 | the query's case does not matter |
| ObjectService.Zfill3 | src/mpfb/services/objectservice.py:36 | `zfill(3)` of a number below 1000 has three characters |
| ObjectService.Zfill3RoundTrip | src/mpfb/services/objectservice.py:36 | reading the three digits back gives the number |
| ObjectService.Zfill3Injective | src/mpfb/services/objectservice.py:36 | different numbers give different suffixes |
| ObjectService.EnsureUniqueName | src/mpfb/services/objectservice.py:32-39 | the counting loop with early return picks `UniqueName` |
| ObjectService.UniqueNameKeepsFreeName | src/mpfb/services/objectservice.py:33-34 | a name not taken is returned unchanged |
| ObjectService.UniqueNameSmallestFree | src/mpfb/services/objectservice.py:35-38 | for a taken name, the smallest free suffix in 1..99 is used, and the result is not taken |
| ObjectService.UniqueName | src/mpfb/services/objectservice.py:32-39 | a free name is kept; otherwise the result is free unless it is the `.999` fallback |
| ObjectService.FirstFreeFrom | src/mpfb/services/objectservice.py:35-39 | the search from suffix i gives a free `desired.NNN` with NNN from i to 99, or the `.999` fallback |
| ObjectService.FirstFreeFromSmallest | src/mpfb/services/objectservice.py:35-38 | the search from suffix i stops at the first free suffix |
| ObjectService.FirstFreeFromFallback | src/mpfb/services/objectservice.py:35-39 | when every suffix from i on is taken, the search gives `.999` |
| ObjectService.UniqueNameFallback | src/mpfb/services/objectservice.py:39 | with all 99 suffixes taken, `.999` is returned |
| ObjectService.UniqueNameMayCollide | src/mpfb/services/objectservice.py:39 | the `.999` fallback is not checked and can be a taken name |
| ObjectService.AnyGroupNamed | src/mpfb/services/objectservice.py:59-62 | the group loop returns true iff some group has the name |
| ObjectService.HasVertexGroup | src/mpfb/services/objectservice.py:56-62 | false for no object or an empty name; otherwise true iff some vertex group has exactly that name |
| ObjectService.LastGroupIndexIsLast | src/mpfb/services/objectservice.py:68-71 | a group index is found iff some group has the name, and it is that of the last such group |
| ObjectService.FindLastGroupIndex | src/mpfb/services/objectservice.py:68-71 | the overwriting loop leaves the last matching group's index |
| ObjectService.Dedup | src/mpfb/services/objectservice.py:76-79 | de-duplication keeps exactly the values of its input |
| ObjectService.FirstIndex | src/mpfb/services/objectservice.py:76-79 | the first position of a value |
| ObjectService.DedupNoDuplicates | src/mpfb/services/objectservice.py:76-79 | each value is kept once |
| ObjectService.DedupFirstSeenOrder | src/mpfb/services/objectservice.py:76-79 | values are kept in the order they are first seen |
| ObjectService.AddIfMember | src/mpfb/services/objectservice.py:76-79 | the inner loop appends the vertex index once if the vertex is in the group and not yet listed |
| ObjectService.CollectMembers | src/mpfb/services/objectservice.py:74-80 | the vertex loop yields the de-duplicated member indexes |
| ObjectService.VertexStep | src/mpfb/services/objectservice.py:75-79 | one more vertex extends the de-duplicated list by its index exactly when it is a new member |
| ObjectService.GetVertexIndexesForVertexGroup | src/mpfb/services/objectservice.py:65-80 | the method returns `VertexIndexesFor` |
| ObjectService.VertexIndexesSpec | src/mpfb/services/objectservice.py:65-80 | `[]` for no object, an empty name or an unknown group; otherwise each member vertex of the last group with the name exactly once, in first-seen order |
| ObjectService.MemberIndexesSpec | src/mpfb/services/objectservice.py:75-77 | a value is a member index iff some vertex with that index is in the group |
| ObjectService.RangeInclusive | src/mpfb/services/objectservice.py:345 | `range(start, stop + 1)`: stop − start + 1 values from start, empty when stop < start |
| ObjectService.ExpandRangesMembers | src/mpfb/services/objectservice.py:344-345 | a vertex is in an expanded group iff some `[start, stop]` pair covers it |
| ObjectService.ExpandRangesLength | src/mpfb/services/objectservice.py:344-345 | the expanded length is the sum of the inclusive range sizes |
| ObjectService.ExpandedDefinition | src/mpfb/services/objectservice.py:340-346 | keys are the file's groups plus the extra groups; extra groups replace same-named ones; other groups are their expanded ranges |
| ObjectService.ExpandVertexGroups | src/mpfb/services/objectservice.py:340-346 | the nested fill-and-extend loops produce `ExpandedDefinition` |
| ObjectService.VertexGroupCache.constructor | src/mpfb/services/objectservice.py:10-11 | both caches start empty |
| ObjectService.VertexGroupCache.GetBaseMeshVertexGroupDefinition | src/mpfb/services/objectservice.py:332-348 | an empty cache is filled with the file's contents and their `ExpandedDefinition`; a filled cache is left unchanged by the call; the definition returned is the cached one |
| ObjectService.GetListOfChildren | src/mpfb/services/objectservice.py:110-115 | the loop returns the objects with that parent, in `bpy.data.objects` order |
| ObjectService.ChildrenAmongMembers | src/mpfb/services/objectservice.py:110-115 | a child is listed iff it is among the objects and has that parent |
| ObjectService.ChildrenOfMembers | src/mpfb/services/objectservice.py:110-115 | the children of an object are exactly the scene's objects with that parent |
| ObjectService.AncestorIsShallower | src/mpfb/services/objectservice.py:256-267 | an ancestor is a known object of smaller depth |
| ObjectService.AncestorTransitive | src/mpfb/services/objectservice.py:256-267 | the ancestor relation is transitive |
| ObjectService.AncestorsFormChain | src/mpfb/services/objectservice.py:256-267 | two ancestors of one object are equal or one is above the other |
| ObjectService.SiblingsUnrelated | src/mpfb/services/objectservice.py:236-238 | of two children of one parent, neither is an ancestor of the other |
| ObjectService.FindOne | src/mpfb/services/objectservice.py:198-210 | `None` iff the search yields nothing, otherwise its first object |
| ObjectService.ClimbParents | src/mpfb/services/objectservice.py:253-268 | the `while` loop over parents yields `Climb` |
| ObjectService.FindAllObjectsOfTypeAmongstNearestRelatives | src/mpfb/services/objectservice.py:213-268 | the generator yields `FindAll`: the object, its child scan, then the climb |
| ObjectService.ReachedIsDescendant | src/mpfb/services/objectservice.py:236-243 | an object reached through armatures is a descendant |
| ObjectService.ArmatureChainExtends | src/mpfb/services/objectservice.py:242-243 | a chain of non-matching armatures below a child is one below the parent |
| ObjectService.RecChildren | src/mpfb/services/objectservice.py:232-243 | with `only_parents` a child scan yields nothing; whatever it yields is a known object that matches the query |
| ObjectService.ScanChildren | src/mpfb/services/objectservice.py:236-243 | the loop over children yields only known objects that match the query |
| ObjectService.RecChildrenSound | src/mpfb/services/objectservice.py:232-243 | each object a child scan yields is reached from the parent through non-matching armatures |
| ObjectService.ScanChildrenSound | src/mpfb/services/objectservice.py:236-243 | each object the loop over children yields is reached from the parent through non-matching armatures |
| ObjectService.ScanChildrenSkipsExcluded | src/mpfb/services/objectservice.py:236-238 | the excluded child and everything below it are left out of a scan |
| ObjectService.HereSkipsExcluded | src/mpfb/services/objectservice.py:236-243 | what a sibling contributes avoids the excluded child and its subtree |
| ObjectService.DescendantOfSiblingAvoids | src/mpfb/services/objectservice.py:236-243 | a descendant of one sibling is not another sibling nor below it |
| ObjectService.RecChildrenSkipsExcluded | src/mpfb/services/objectservice.py:236-238 | a scan at the parent skips the child the walk came from and its subtree |
| ObjectService.ScanChildrenYieldsMatchingChild | src/mpfb/services/objectservice.py:236-241 | a matching child other than the excluded one is yielded by the loop |
| ObjectService.RecChildrenYieldsMatchingChild | src/mpfb/services/objectservice.py:236-241 | a matching listed child other than the excluded one is yielded |
| ObjectService.ArmatureScanIncluded | src/mpfb/services/objectservice.py:236-243 | whatever the scan below a non-matching armature child yields, the loop over its parent's children yields too |
| ObjectService.ReachedArmatureLifts | src/mpfb/services/objectservice.py:242-243 | whatever the scan below a non-matching armature reached from `p` yields, the scan at `p` yields too |
| ObjectService.RecChildrenComplete | src/mpfb/services/objectservice.py:232-243 | with every object listed in `bpy.data.objects`, the child scan yields an object iff it matches and is reached through non-matching armatures |
| ObjectService.ClimbStep | src/mpfb/services/objectservice.py:256-268 | one climb step: the parent if it matches, the scan of its other children, then a strict climb from the parent |
| ObjectService.ClimbMatches | src/mpfb/services/objectservice.py:253-268 | every object `Climb` (the climb over parents) yields is a known object that matches the query |
| ObjectService.ClimbAvoidsStart | src/mpfb/services/objectservice.py:253-268 | the climb never yields its start object or anything below it |
| ObjectService.ClimbAboveAvoidsStart | src/mpfb/services/objectservice.py:253-268 | the climb from the parent avoids the child it came from and its subtree |
| ObjectService.ClimbOnlyAncestors | src/mpfb/services/objectservice.py:233-234 | with `only_parents` the climb yields only ancestors |
| ObjectService.ClimbStopsAtBlocker | src/mpfb/services/objectservice.py:256-268 | a non-armature, non-MakeHuman ancestor met with the strict test on ends the climb: everything yielded lies below it |
| ObjectService.FindAll | src/mpfb/services/objectservice.py:229-268 | no object or a blank query yields nothing; every object yielded matches the query |
| ObjectService.FindAllParts | src/mpfb/services/objectservice.py:245-268 | the search is the object if it matches, its child scan, then the climb unless `only_children` |
| ObjectService.FindAllSelfFirst | src/mpfb/services/objectservice.py:245-246 | everything yielded matches; the object is yielded iff it matches, and then first |
| ObjectService.FindAllOnlyChildren | src/mpfb/services/objectservice.py:250-251 | with `only_children` nothing but the object and its descendants is yielded, never an ancestor |
| ObjectService.FindAllOnlyParents | src/mpfb/services/objectservice.py:233-234 | with `only_parents` no child scan runs: only the object and its ancestors are yielded |
| ObjectService.FindAllStopsAtBlocker | src/mpfb/services/objectservice.py:256-268 | a blocking ancestor (with `strict_parent`, or above the immediate parent since the climb turns strict) ends the search |
| ObjectService.FindAllYieldsMatchingChild | src/mpfb/services/objectservice.py:236-248 | a matching child is found unless only parents are searched |
| ObjectService.FindAllYieldsMatchingParent | src/mpfb/services/objectservice.py:256-262 | a matching parent is always found unless only children are searched (a matching parent is a MakeHuman object, so the strict test never stops at it) |
| ObjectService.FindAllYieldsMatchingSibling | src/mpfb/services/objectservice.py:236-241 | a matching sibling (another child of the parent) is found unless only parents or only children are searched, or `strict_parent` meets a blocking parent |
| ObjectService.FindAllYieldsReachedDescendant | src/mpfb/services/objectservice.py:236-248 | a matching object below the object, reached through non-matching armatures, is found unless only parents are searched |

## Left out

- Blender itself: the scene, armatures and node trees are values or recorder classes. `bpy.ops.object.mode_set` and the two `RigService` calls are appended to a log, and `_create_node`, `add_link` and the socket declarations are appended to sequences. Nothing checks that a bone or socket exists in Blender. `LegIk.PoseHost.constructor` starts the host in a given mode with an empty log; it stands for the state before the strategy runs and has no counterpart in the code.
- `LegIk.get_instance`, `apply_ik`, the `LegIk` base class and the `settings` argument are not part of this model. `DefaultLegIk` does not read `settings`.
- The `Molecule` base class, `create_instance`, the molecule singleton cache and socket-type negotiation are not part of this model. Neither are link failures: the shown code has none.
- Node locations, the atoms' literal input values in `create_group`, and colour defaults are floating point and cosmetic. Colours are kept as literal components; locations are omitted.
- Lower: models Python's `str.lower` on ASCII letters only. Unicode case mapping is not modelled.
- IsSpace: covers the ASCII characters for which `str.isspace` holds. Unicode whitespace is not modelled.
- The rest of `objectservice.py` is Blender-operator plumbing and is not part of this model: `load_wavefront_file`, `load_base_mesh`, `assign_vertex_groups`, `extract_vertex_group_to_new_object`, `deselect_and_deactivate_all`, `create_*`, `link_blender_object`, `activate_blender_object`. `get_lowest_point` is float comparisons with shape-key side effects. The face/vertex tables are gzip and JSON file I/O.
- The JSON file of `get_base_mesh_vertex_group_definition` becomes a parameter. So does `BASEMESH_EXTRA_GROUPS`. `str(group)` on the file's keys is the identity, because JSON keys are already strings.
- VertexGroupCache.GetBaseMeshVertexGroupDefinition: the definition is a `map` value. The source's `dict(...)` is a shallow copy whose lists are shared with the cache, and through `.update` with `BASEMESH_EXTRA_GROUPS`, so a caller mutating a list changes the cache; that aliasing is not modelled. Python's dictionary key order is not kept either.
- Default arguments are explicit parameters: the flags of `get_reverse_list_of_bones_in_leg` default to `True` (`src/mpfb/entities/legik/defaultlegik.py:113`), and `find_all_objects_of_type_amongst_nearest_relatives` defaults to `mpfb_type_name="Basemesh"` and `False` for its three keyword flags (`src/mpfb/services/objectservice.py:215-216`). Every caller of the model passes all of them.
- The module-level `_LOG` logging, including the "Unexpected object type" debug message in `object_is`, is left out.
- The add-on registration, the MakeHuman socket probe and the UI operators and panels are not part of this model.
