# VRM add-on for Blender: spring-bone scheduling and VRoid bone renaming

This project models two parts of the VRM add-on for Blender in Dafny and proves properties of them.

**The per-frame spring-bone update** (`SpringBoneHandler`, over the bone hierarchy in `PoseModel`) follows the "Update procedure" of VRMC_springBone-1.0.
- **What it visits.** Every object is visited in order. Each object that is a VRM 1.0 armature has every spring visited, and each spring has every consecutive (head, tail) pair of joints.
- **The guards.** A pair passes a fixed sequence of guards:
  - both bones exist;
  - neither is `use_connect`;
  - both are `use_local_location`;
  - the tail lies below the head, found by a `while` walk up the tail's parents.
- **What a passing pair writes.** On frame 1 the joint's state is reset to the tail position just read. The numerics then run. The head bone is switched to quaternion mode and given the computed rotation. Last, the joint's `prev_tail` is set to the tail position read at the start of the call.
- **The numerics are a parameter.** `step: StepInput -> StepOutput` stands for the verlet step, the length constraint and the rotation derivation, so every fact is proved for every integrator.
- **A head bone without a parent.** Such a head passes every guard but then dereferences `head_pose_bone.parent`. The resulting AttributeError is the outcome `Raised`. It ends the object's pass and the whole `update_objects` loop.
- **What the update operations promise.** Each loop is a method proved against a fold that threads the pose and the joint states through the same visits:
  - `PairsFrom` over one spring's pairs, `SpringsFrom` over the springs, `ObjectPass` for one object and `ObjectsFrom` over the object list;
  - each method leaves exactly the fold's poses and joint states, and returns its trace of pair outcomes;
  - lemmas about the folds state what a pass writes and what it leaves alone;
  - the trace is also related to a pose-only reference: `ExpectedTrace` for one pose, `RunUntilAborted` for the object list.

**The `Rename VRoid_bones` operator and the "add human-bone property" operators** (`VrmHelper`):
- `Reprstr` models `reprstr`. It runs `re.match("(.*)_L_(.*)")` and `re.match("(.*)_R_(.*)")`:
  - the greedy first group splits at the last marker of the first line;
  - the groups are joined with `_`;
  - the result ends in `R` when `_R_` matched, else in `L`.
- `BonesRename` applies `Reprstr` to three things:
  - every bone name;
  - each element of the `bones` and `colliderGroups` lists of the spring-bone JSON text, with the Python exceptions each malformed shape raises;
  - the human-bone custom properties.
- The add operators insert `""` only for absent keys.

Three behaviours of the code shape the model:
- **Joint state is shared.** The state is a property of the joint in the armature's data block (`obj.data.vrm_addon_extension`), not of the object, so objects sharing armature data share it. `VrmExtension.states` models this, and `UpdateObjects` lets extensions be shared.
- **Matrices are not recomputed.** Pose matrices are not recomputed after a rotation write: `matrix` stays as read. So a later pair of the same spring reads the tail position of the earlier pose, which is exactly what the code does.
- **Initialisation policy.** The code uses the frame-index policy (`frame_current == 1`). It does not use the stored `initialized` flag.

## Model

| member | source | states |
|---|---|---|
| PoseModel.AncestorsAreIteratedParents | io_scene_vrm/editor/spring_bone1/handler.py:77-83 | a name is on the ancestor walk exactly when it is reached from the bone by one or more parent steps (both directions) |
| PoseModel.NotOwnAncestor | io_scene_vrm/editor/spring_bone1/handler.py:78-83 | the walk starts at the parent, so on an acyclic hierarchy a bone is never among its own ancestors |
| PoseModel.AncestorsAgree | io_scene_vrm/editor/spring_bone1/handler.py:77-83 | two poses with the same bones and parent links walk the same ancestors from every bone |
| PoseModel.StructurePreservesAncestors | io_scene_vrm/editor/spring_bone1/handler.py:178-180 | writing rotations and matrices keeps the hierarchy acyclic and keeps every bone's ancestors |
| PoseModel.BoneRewriteKeepsWellFormed | io_scene_vrm/editor/spring_bone1/handler.py:178-180 | replacing one bone by one with the same parent and flags keeps the pose well formed and its structure unchanged |
| SpringBoneHandler.ZipShape | io_scene_vrm/editor/spring_bone1/handler.py:33-35 | `zip` has the length of the shorter sequence and pairs equal indices |
| SpringBoneHandler.PairsShape | io_scene_vrm/editor/spring_bone1/handler.py:33-38 | a spring of n >= 1 joints yields n - 1 pairs (joints[i], joints[i+1]) in index order; 0 or 1 joints yield none |
| SpringBoneHandler.SkippedObjectsHaveNoPairs | io_scene_vrm/editor/spring_bone1/handler.py:26-30 | an object that is not an armature, or not VRM 1.0, has no pair scheduled |
| SpringBoneHandler.PairAdmitted | io_scene_vrm/editor/spring_bone1/handler.py:47-95 | the guards let a pair through exactly when both bones exist, are not connected, use local location, the head is a strict ancestor of the tail and the head has a parent |
| SpringBoneHandler.SelfPairRejected | io_scene_vrm/editor/spring_bone1/handler.py:77-86 | a joint paired with itself never updates; a free local-location bone paired with itself stops at the parenting check |
| SpringBoneHandler.GuardsRespectStructure | io_scene_vrm/editor/spring_bone1/handler.py:47-86 | the guards (`PairGuards`) give the same outcome on any pose with the same bones, parent links and flags |
| SpringBoneHandler.PairUpdateSpec | io_scene_vrm/editor/spring_bone1/handler.py:41-181 | `PairUpdate`'s outcome is `PairGuards`; a failing guard or a missing head parent writes nothing; an update sets quaternion mode and the integrator's rotation on the head only, fed with `CurrentTail` and `PrevTailUsed`, stores the tail position read (`CurrentTail`) as `prev_tail`, marks the state initialised on frame 1, and keeps the hierarchy |
| SpringBoneHandler.PairUpdateKeepsMatrices | io_scene_vrm/editor/spring_bone1/handler.py:178-181 | one pair's update writes no bone's matrix, so later pairs read the positions read before it |
| SpringBoneHandler.FrameOneResetsHistory | io_scene_vrm/editor/spring_bone1/handler.py:127-132 | on frame 1 the result does not depend on the stored state, and the state becomes initialised |
| SpringBoneHandler.StoredStateIgnoresIntegrator | io_scene_vrm/editor/spring_bone1/handler.py:107-181 | the stored `prev_tail` is the tail position read at the start of the call, whatever the integrator computes |
| SpringBoneHandler.HeadTailParented | io_scene_vrm/editor/spring_bone1/handler.py:77-83 | the parent walk finds the head exactly when it is among the tail's strict ancestors |
| SpringBoneHandler.CheckPairGuards | io_scene_vrm/editor/spring_bone1/handler.py:47-95 | the sequential early returns and the unchecked parent dereference give the guard outcome `PairGuards` |
| SpringBoneHandler.UpdateSpringJointPair | io_scene_vrm/editor/spring_bone1/handler.py:41-181 | the new pose and joint states are those of `PairUpdate` from the old ones; only the head joint's state changes, and only on an update; the pose stays well formed |
| SpringBoneHandler.ExpectedTraceShape | io_scene_vrm/editor/spring_bone1/handler.py:32-38 | pairs are visited in order with their guard outcomes; all are visited unless one raised, and only the last can have raised |
| SpringBoneHandler.ExpectedTraceRespectsStructure | io_scene_vrm/editor/spring_bone1/handler.py:178-180 | on any pose with the same bones, parent links and flags the expected trace is the same, so rotation writes of earlier pairs do not change the outcomes of later pairs |
| SpringBoneHandler.ExpectedTraceAppendComplete | io_scene_vrm/editor/spring_bone1/handler.py:32-38 | when no pair of the first springs raised, the trace of all springs is theirs followed by the next springs' |
| SpringBoneHandler.ExpectedTraceAppendAborted | io_scene_vrm/editor/spring_bone1/handler.py:32-38 | once a pair raised, later pairs are not visited |
| SpringBoneHandler.PairsFromTrace | io_scene_vrm/editor/spring_bone1/handler.py:33-38 | the fold over a spring's pairs yields the expected trace: each pair's guard outcome on the starting pose, up to the first that raised |
| SpringBoneHandler.PairsFromStructure | io_scene_vrm/editor/spring_bone1/handler.py:178-180 | a spring's pass keeps the bones, parent links and flags |
| SpringBoneHandler.PairsFromKeeps | io_scene_vrm/editor/spring_bone1/handler.py:178-180 | a spring's pass changes no bone's matrix and never takes a bone out of quaternion mode |
| SpringBoneHandler.PairsFromUntouched | io_scene_vrm/editor/spring_bone1/handler.py:178-180 | a bone that heads no updated pair of the spring is left exactly as it was |
| SpringBoneHandler.PairsFromStates | io_scene_vrm/editor/spring_bone1/handler.py:127-181 | every joint state other than those of the spring's updated head joints is left as it was, present or absent |
| SpringBoneHandler.PairsFromHeadMode | io_scene_vrm/editor/spring_bone1/handler.py:178-179 | the head bone of every updated pair ends in quaternion mode |
| SpringBoneHandler.PairsFromJointStates | io_scene_vrm/editor/spring_bone1/handler.py:107-181 | the head joint of every updated pair ends with `prev_tail` the tail position read from the pose before the pass, initialised on frame 1 and otherwise as before |
| SpringBoneHandler.UpdateSpring | io_scene_vrm/editor/spring_bone1/handler.py:33-38 | the inner loop leaves the pose and joint states of `PairsFrom` over the spring's pairs from the old ones, returns its trace, which is the expected trace, and keeps the hierarchy well formed |
| SpringBoneHandler.SpringsFromTrace | io_scene_vrm/editor/spring_bone1/handler.py:32-38 | the fold over the springs yields the expected trace of all their pairs in order, up to the first that raised |
| SpringBoneHandler.SpringsFromStructure | io_scene_vrm/editor/spring_bone1/handler.py:32-38 | the passes over the springs keep the bones, parent links and flags |
| SpringBoneHandler.SpringsFromFrame | io_scene_vrm/editor/spring_bone1/handler.py:32-38 | the springs' passes change no matrix, keep quaternion mode, leave every bone that heads no pair of those springs as it was, and leave the joint states of earlier springs alone |
| SpringBoneHandler.UpdateSprings | io_scene_vrm/editor/spring_bone1/handler.py:32-38 | the loop over springs leaves the pose and joint states of `SpringsFrom` from the old ones, and yields the expected trace of all pairs of all springs |
| SpringBoneHandler.ObjectPassTrace | io_scene_vrm/editor/spring_bone1/handler.py:25-38 | one object's pass yields the expected trace of its scheduled pairs: none for an object that is not a VRM 1.0 armature |
| SpringBoneHandler.ObjectPassStructure | io_scene_vrm/editor/spring_bone1/handler.py:25-38 | one object's pass keeps the bones, parent links and flags |
| SpringBoneHandler.UpdateObject | io_scene_vrm/editor/spring_bone1/handler.py:25-38 | `update_object` leaves the pose and joint states of `ObjectPass` from the old ones, with the trace of the scheduled pairs; a skipped object keeps its pose and joint states |
| SpringBoneHandler.RunUntilAbortedShape | io_scene_vrm/editor/spring_bone1/handler.py:20-22 | objects are visited in order with their own traces, each unless an earlier one raised, and only the last visited can have raised |
| SpringBoneHandler.ObjectsFromTraces | io_scene_vrm/editor/spring_bone1/handler.py:20-22 | the fold over the objects yields every object's trace in order, up to the first object whose pass raised |
| SpringBoneHandler.ObjectsFromStructure | io_scene_vrm/editor/spring_bone1/handler.py:20-22 | the fold over the objects keeps every pose's bones, parent links and flags |
| SpringBoneHandler.ObjectsFromUntouched | io_scene_vrm/editor/spring_bone1/handler.py:20-22 | the objects before the current one and those after the one that raised keep their poses |
| SpringBoneHandler.VisitObject | io_scene_vrm/editor/spring_bone1/handler.py:21-22 | one object's update writes `ObjectPass`'s pose to that object and its joint states to its extension, which other objects may share; every other pose and extension is unchanged |
| SpringBoneHandler.RunObjects | io_scene_vrm/editor/spring_bone1/handler.py:20-22 | the loop over the objects leaves the poses, the shared joint states and the traces of `ObjectsFrom` |
| SpringBoneHandler.UpdateObjects | io_scene_vrm/editor/spring_bone1/handler.py:20-22 | `update_objects` leaves the poses and joint states of `ObjectsFrom` from the old ones; the traces are every object's trace in order until one raised; hierarchies are kept and the objects after the one that raised keep their poses |
| VrmHelper.FirstLine | io_scene_vrm/editor/vrm_helper.py:27-28 | the text a `.*` match can span is the newline-free prefix of the name up to its first newline or its end |
| VrmHelper.LastMarkerBelowSpec | io_scene_vrm/editor/vrm_helper.py:27-28 | the search finds the last `_X_` below a bound, and nothing when there is none |
| VrmHelper.MatchAtLastMarker | io_scene_vrm/editor/vrm_helper.py:27-28 | on a one-line name a side matches exactly when it has a marker, and the groups are the text before and after its last marker |
| VrmHelper.Reprstr | io_scene_vrm/editor/vrm_helper.py:26-38 | the accumulating loop over the groups returns the side-swapped name `SwapSideSuffix` |
| VrmHelper.NoMarkerUnchanged | io_scene_vrm/editor/vrm_helper.py:26-38 | `SwapSideSuffix` returns a name containing neither `_L_` nor `_R_` unchanged |
| VrmHelper.OneSideSplit | io_scene_vrm/editor/vrm_helper.py:27-37 | with markers of one side X only (`_L_` or `_R_`), the result is the text before the last `_X_`, `_`, the text after it, `_X` |
| VrmHelper.RightSideWins | io_scene_vrm/editor/vrm_helper.py:31-36 | with both markers the split stays at the last `_L_` but the side letter is `R` |
| VrmHelper.SwapShape | io_scene_vrm/editor/vrm_helper.py:34-37 | on a one-line name `SwapSideSuffix` keeps the length, and a rewritten name ends in `_R` exactly when `_R_` occurs, otherwise in `_L` |
| VrmHelper.RewriteNameListInPlace | io_scene_vrm/editor/vrm_helper.py:46-49 | the in-place loop over one list member gives `RewriteNameList`: each string replaced by its image, a non-string a type error |
| VrmHelper.RewriteGroupInPlace | io_scene_vrm/editor/vrm_helper.py:45-49 | the in-place rewrite of one element gives `RewriteGroup`: `bones` then `colliderGroups` rewritten, a missing key a key error, a non-dict a type error |
| VrmHelper.RewriteSpringBonesInPlace | io_scene_vrm/editor/vrm_helper.py:45-49 | the loop over the parsed text gives `RewriteSpringBones`, whose meaning `RewriteSpringBonesSpec` states |
| VrmHelper.RewriteGroups | io_scene_vrm/editor/vrm_helper.py:45-49 | a completed loop over the elements keeps the list length |
| VrmHelper.RewriteGroupSpec | io_scene_vrm/editor/vrm_helper.py:45-49 | an element is rewritten exactly when it is a dict whose two members are lists of strings or empty; then its keys and other members are kept and each name is replaced by its image |
| VrmHelper.RewriteGroupsSpec | io_scene_vrm/editor/vrm_helper.py:45-49 | the loop over the elements completes exactly when every element is accepted, each rewritten on its own |
| VrmHelper.RewriteGroupsFirstError | io_scene_vrm/editor/vrm_helper.py:45-49 | the first failing element decides the exception |
| VrmHelper.RewriteSpringBonesSpec | io_scene_vrm/editor/vrm_helper.py:45-49 | the rewrite succeeds exactly on accepted texts; list length, order, keys and other members are kept, each name in `bones` and `colliderGroups` replaced by its image |
| VrmHelper.RewriteProps | io_scene_vrm/editor/vrm_helper.py:51-55 | the property loop neither adds nor removes keys |
| VrmHelper.RewritePropsFrame | io_scene_vrm/editor/vrm_helper.py:51-55 | properties not named in the human-bone lists keep their values |
| VrmHelper.RewritePropsComplete | io_scene_vrm/editor/vrm_helper.py:51-55 | with distinct names and string values the loop completes, and each named property present holds the image of its value |
| VrmHelper.RewritePropsStops | io_scene_vrm/editor/vrm_helper.py:52-55 | a non-string value raises a type error at once, with nothing changed |
| VrmHelper.RenameBones | io_scene_vrm/editor/vrm_helper.py:40-41 | every bone name is replaced by its image, in place, and nothing else changes |
| VrmHelper.RewriteHumanBoneProps | io_scene_vrm/editor/vrm_helper.py:51-55 | the in-place loop leaves the properties and exception of `RewriteProps` |
| VrmHelper.BonesRename | io_scene_vrm/editor/vrm_helper.py:25-56 | bones are always renamed; a missing text block or invalid JSON or a rejected shape ends the operator before the text and properties are written; otherwise the text holds the rewritten JSON and the properties are rewritten; no other text block changes |
| VrmHelper.AddMissingSpec | io_scene_vrm/editor/vrm_helper.py:94-96 | under `AddMissing` the keys become the old keys plus the names; existing values are never overwritten; added keys hold `""` |
| VrmHelper.AddMissingIdempotent | io_scene_vrm/editor/vrm_helper.py:109-111 | `AddMissing` with the same names twice is the same as once |
| VrmHelper.AddHumanBoneProperty | io_scene_vrm/editor/vrm_helper.py:78-82 | the properties become `AddMissing` of the old ones and the name: added with `""` only when absent |
| VrmHelper.AddHumanBoneProperties | io_scene_vrm/editor/vrm_helper.py:92-97 | the loop over the required names leaves `AddMissing` of the old properties and the names (the same loop serves the defined names, lines 107-112) |

## Left out

- The numerics of a pair are the parameter `step`, not a definition, because they are floating-point `mathutils` vector algebra (handler.py:88-176). Their inputs are modelled: rest and pose matrices, the head's parent, the tail positions and the joint parameters. The unreachable `else Matrix()` at handler.py:142 has no counterpart: the head's parent was already dereferenced at line 93.
- `frame_change_pre` and the `fps_base / fps` delta time (handler.py:184-189) are left out. `deltaTime` and `frameCurrent` are parameters.
- The `persistent` shim and the logger warnings are left out: they do not change state.
- Blender's matrix recomputation after a rotation write is not modelled. The code reads `matrix` without forcing one, so the model keeps the matrices as read.
- The `rotation_mode` and `rotation_quaternion` assignments are one map update in the model. The intermediate state is not observable.
- SpringBoneHandler.UpdateObjects: requires that the object list holds distinct objects, as `bpy.data.objects` does.
- SpringBoneHandler.UpdateSpring, UpdateSprings, VisitObject and RunObjects: the loops of `update_object` and `update_objects` are split into one method per loop and per loop body. The order of visits and writes is the code's.
- SpringBoneHandler.UpdateSpringJointPair and the methods that call it: require `WellFormed`, a pose whose parent links name bones of the same pose and form no cycle, as Blender's armatures always do. The folds need only the first half, `ParentsInPose`.
- Positions and matrices are reals, so `WorldTranslation` and `CurrentTail` (handler.py:107-109) compute exactly. Floating-point rounding in `mathutils` is not modelled.
- Reading the text block's lines and `json.dumps` are left out. A text block is modelled by its parsed content: `None` when `json.loads` would raise. The indentation of the written text is not modelled.
- The JSON value model has no duplicate object keys, because `json.loads` keeps the last one.
- The `spring_bone` custom property is assumed to hold a string. Other values are left out.
- Blender's renaming of duplicate bone names (`.001` suffixes) is not modelled: the new name is stored as computed.
- `vrm_types.HumanBones` is not part of this model. The required and defined names are parameters, and `BonesRename` takes their concatenation.
- Armature custom property values are strings, integers or reals. Property groups and arrays are left out, and all of them raise the same type error in `reprstr`.
- `Add_VRM_extensions_to_armature` (vrm_helper.py:59-67) is left out. It only calls into `make_armature`, which is not part of this model.
- `Vroid2VRC_lipsync_from_json_recipe` (vrm_helper.py:115-149) is left out. It does file I/O and changes shape-key floats.
- The `bpy.data.armatures[...]` lookup by the data's own name is modelled as the object's own armature data.
- VrmHelper.BonesRename: takes the active object's armature data as given. With no active object, or an active object that is not an armature, `bpy.context.active_object.data.bones` raises AttributeError at vrm_helper.py:40 before anything is written. That error path is not modelled.
- The operator's `{"FINISHED"}` return is `Finished`. An exception is `Failed` with the Python exception kind. What was written before the exception stays written.
