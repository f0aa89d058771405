# HumanoidRobot — a Dafny model of the robot scene, part picking and model loading

HumanoidRobot is an iOS app that shows humanoid robots as SceneKit scenes
built out of primitive shapes. The user taps a body region to open a sheet of
facts about it. The app also has a knowledge browser and a loader for external
3D model files. This project models the behaviour that can be stated about the
app:

- **`RobotCatalog`** (`robot_catalog.dfy`): the `RobotType` and `RobotPart`
  enumerations, their raw values and per-case properties, and the
  `RobotPart.allCases.first(where:)` lookup that turns a node name back into a
  part.
- **`SceneGraph`** (`scene_graph.dfy`): a `Node` class standing for `SCNNode`.
  It has a name, a payload (camera, light or drawn geometry), animations
  and a child list. `AddChild` stands for `addChildNode`. Each node keeps a
  ghost `Model: Tree`, the value of the subtree it roots, and a `Repr` set
  under the usual dynamic-frames validity predicate. This module also holds
  the tree functions `Size` and `Names` with their lemmas.
- **`RobotScene`** (`robot_scene.dfy`): the `Robot3DView` builders
  (`createDetailedRobotScene`, `createDetailedRobot`,
  `createDetailed{Head,Torso,Arm,Leg}`). They are imperative methods over
  `Node`. Each is proved to build one specification tree, and lemmas about
  those trees give the node counts. They also show that exactly one node per
  region carries the part's name.
- **`Selection`** (`selection.dfy`): the `selectedPart`/`showingDetail`
  state of `RobotDetailView`, `Coordinator.handleTap`, and the
  `onChange(of: showingDetail)` reset. It has two classes whose methods are
  proved against step functions, plus lemmas about sequences of taps and
  dismissals.
- **`PartDetails`** (`part_details.dfy`): the three content tables of
  `RobotPartDetailView` (text kept verbatim), the three sections that show
  them, and the `KnowledgeDetailView` category switch with its eight cards.
- **`ExternalModel`** (`external_model.dfy`): the following parts of
  `External3DModelView` and `Advanced3DModelLoader`:
  - `getFileExtension`, `getModelURL`, the `loadModelFromFile` dispatch and
    `loadExternalModel` with its placeholder;
  - the two recursive in-place passes, `applyMaterialOptimizations` and
    `setupAnimations`, and `loadModelWithAnimation`.

  The bundle, the documents directory and SceneKit's file reader are inputs.
- **`Wrappers`** (`wrappers.dfy`): `Option`.

Geometry is reduced to its shape kind plus its materials. A material keeps
its diffuse colour, its lighting model, and its metalness and roughness as
optional reals. A colour is named: either one of the robot's SwiftUI palette
colours, or one of the UIKit constants `UIColor.cyan`, `.blue` and `.red`,
which are kept apart from the SwiftUI colours of the same name. Positions,
sizes, angles and the remaining material settings are not modelled.

Two facts about the code shape the model:

- `handleTap` looks only at the front-most hit node's own `name`
  (HumanoidRobot/ContentView.swift:1603-1606). It does not walk up to
  ancestors, so tapping an eye, antenna, finger or other unnamed node does
  nothing.
- The scene root holds the camera and the two lights as child nodes
  (HumanoidRobot/ContentView.swift:1250-1283).

## Model

| member | source | states |
|---|---|---|
| `RobotCatalog.FirstNamed` | HumanoidRobot/ContentView.swift:1606 | `first(where:)` over a list of parts: a result is in the list, carries the name, and no earlier part does; no result exactly when no part in the list carries the name |
| `RobotCatalog.PartNamed` | HumanoidRobot/ContentView.swift:1606 | the lookup `handleTap` performs: a found part's raw value is the name; nothing is found exactly when no part has that raw value |
| `RobotCatalog.AllPartsComplete` | HumanoidRobot/ContentView.swift:1197-1203 | `RobotPart.allCases` lists six pairwise distinct parts and contains every part |
| `RobotCatalog.AllRobotTypesComplete` | HumanoidRobot/ContentView.swift:937-941 | `RobotType.allCases` lists four pairwise distinct robots and contains every robot |
| `RobotCatalog.PartRawValueInjective` | HumanoidRobot/ContentView.swift:1197-1203 | two parts have the same raw value only if they are the same part |
| `RobotCatalog.RobotRawValueInjective` | HumanoidRobot/ContentView.swift:937-941 | two robots have the same raw value only if they are the same robot |
| `RobotCatalog.RobotPropertiesDistinct` | HumanoidRobot/ContentView.swift:943-979 | different robots have different descriptions, icons and colour schemes |
| `RobotCatalog.PartDescriptionSides` | HumanoidRobot/ContentView.swift:1205-1216 | two parts share a description exactly when they are equal or are the left and right arm or the left and right leg |
| `RobotCatalog.PartNameRoundTrip` | HumanoidRobot/ContentView.swift:1197-1203 | part → raw value → lookup gives back the same part |
| `RobotCatalog.NamePartRoundTrip` | HumanoidRobot/ContentView.swift:1606 | a name resolves exactly when some part has it as raw value, and then to a part with that raw value |
| `SceneGraph.Copies` | HumanoidRobot/ContentView.swift:1425-1436 | the three identical primitives of a `for i in 0..<3` loop: `n` elements, each equal to the template |
| `SceneGraph.Node.constructor` | HumanoidRobot/ContentView.swift:1337 | a fresh node with the given name and payload, no children, a valid one-node tree |
| `SceneGraph.Node.AddChild` | HumanoidRobot/ContentView.swift:1339 | `addChildNode`: the child is appended last, the footprint grows by the child's subtree, the tree value gains that child, and validity is kept |
| `SceneGraph.Node.SetPayload` | HumanoidRobot/External3DModelView.swift:176-190 | replacing a node's geometry and materials changes only its payload and keeps the tree valid |
| `SceneGraph.Node.AddAnimation` | HumanoidRobot/External3DModelView.swift:208 | `addAnimation(_:forKey:)` stores the animation under the key, replacing any there, and changes nothing else |
| `SceneGraph.AttachLeaf` | HumanoidRobot/ContentView.swift:1337-1339 | creating a node, optionally naming it and adding it to a parent appends exactly that leaf to the parent's tree and keeps everything else |
| `RobotScene.Look` | HumanoidRobot/ContentView.swift:1322-1589 | the shape and the single material (colour, lighting model, metalness, roughness) each primitive is drawn with for a palette; its contract is stated by `RobotScene.LookInUnitRange` |
| `RobotScene.LookInUnitRange` | HumanoidRobot/ContentView.swift:1322-1589 | each primitive is drawn with one material whose metalness and roughness, where set, lie in [0, 1] |
| `RobotScene.CreateDetailedHead` | HumanoidRobot/ContentView.swift:1322-1391 | builds a fresh valid tree equal to `HeadTree`: the named head capsule, two eyes, two antennae, two antenna tips |
| `RobotScene.CreateDetailedTorso` | HumanoidRobot/ContentView.swift:1393-1456 | builds `TorsoTree`: the named torso box, chest panel, three circuit lines (loop), two shoulders |
| `RobotScene.CreateDetailedArm` | HumanoidRobot/ContentView.swift:1458-1525 | builds `ArmTree(c, isLeft)`: the upper arm named left or right arm by `isLeft`, elbow, forearm, hand, three fingers (loop) |
| `RobotScene.CreateDetailedLeg` | HumanoidRobot/ContentView.swift:1527-1589 | builds `LegTree(c, isLeft)`: the thigh named left or right leg by `isLeft`, knee, calf, foot, three treads (loop) |
| `RobotScene.AttachRegion` | HumanoidRobot/ContentView.swift:1290-1317 | building one region and adding it to the robot node appends exactly that region's tree |
| `RobotScene.AttachLimbs` | HumanoidRobot/ContentView.swift:1299-1317 | the four limb regions are appended in the order left arm, right arm, left leg, right leg |
| `RobotScene.CreateDetailedRobot` | HumanoidRobot/ContentView.swift:1285-1320 | builds `RobotTree(robot)`: six regions in the order head, torso, left arm, right arm, left leg, right leg, coloured with the robot's scheme |
| `RobotScene.CreateDetailedRobotScene` | HumanoidRobot/ContentView.swift:1250-1283 | builds `SceneTree(robot)`: camera, ambient light, omni light, robot, as the root's four children |
| `RobotScene.RegionTreeIsRegion` | HumanoidRobot/ContentView.swift:1322-1589 | each region is unnamed with seven primitives, the first named with its part's raw value and the other six unnamed leaves |
| `RobotScene.RegionCounts` | HumanoidRobot/ContentView.swift:1322-1589 | a region has 8 nodes (itself plus 7 primitives) and exactly one name, its part's |
| `RobotScene.RobotTreeIsRobot` | HumanoidRobot/ContentView.swift:1285-1320 | the robot node has exactly six regional children, one per part in `allCases` order |
| `RobotScene.RobotCounts` | HumanoidRobot/ContentView.swift:1285-1320 | a robot node has 49 nodes and its names are exactly the six part names in order |
| `RobotScene.SceneTreeIsScene` | HumanoidRobot/ContentView.swift:1250-1283 | the scene root has exactly four children: camera, ambient light, omni light, robot |
| `RobotScene.SceneCounts` | HumanoidRobot/ContentView.swift:1250-1283 | a scene has 53 nodes and its names are exactly the six part names |
| `RobotScene.PartNamesDistinct` | HumanoidRobot/ContentView.swift:1197-1203 | the six part names are pairwise distinct and the i-th resolves to the i-th part |
| `RobotScene.PartNamesCover` | HumanoidRobot/ContentView.swift:1300-1316 | every part's raw value is among the scene's names (arms and legs are built once with `isLeft` true and once with false) |
| `RobotScene.PartNamesResolve` | HumanoidRobot/ContentView.swift:1606 | every name in the scene resolves to a part |
| `RobotScene.OneNamedNodePerPart` | HumanoidRobot/ContentView.swift:1338 | in an assembled scene exactly six nodes are named, the names are pairwise distinct, cover every part and each resolves to a part |
| `Selection.TappedPart` | HumanoidRobot/ContentView.swift:1601-1606 | a tap resolves exactly when there is a hit, the front-most hit has a name, and that name is some part's raw value; the part found carries that name |
| `Selection.SetShowingDetail` | HumanoidRobot/ContentView.swift:1183-1189 | writing `showingDetail`: the new value is stored; when it turns from true to false the selection is cleared, otherwise the selection is kept |
| `Selection.AfterTap` | HumanoidRobot/ContentView.swift:1603-1609 | a resolving tap gives (that part, true); any other tap leaves both variables unchanged |
| `Selection.SheetPart` | HumanoidRobot/ContentView.swift:1178-1182 | the sheet shows a part only while `showingDetail` is true, and then the selected one; in a consistent state it shows a part exactly while it is up |
| `Selection.AfterDismiss` | HumanoidRobot/ContentView.swift:1657-1659 | after dismissal the sheet is down, and from any consistent state the state is (nil, false) |
| `Selection.RobotDetailView.constructor` | HumanoidRobot/ContentView.swift:1087-1090 | a new detail screen starts in (nil, false) |
| `Selection.RobotDetailView.WriteShowingDetail` | HumanoidRobot/ContentView.swift:1183-1189 | the binding write with its `onChange` handler gives `SetShowingDetail` of the old state |
| `Selection.RobotDetailView.DismissDetail` | HumanoidRobot/ContentView.swift:1657-1659 | the close button gives `AfterDismiss` of the old state |
| `Selection.Coordinator.constructor` | HumanoidRobot/ContentView.swift:1594-1596 | the coordinator writes into the given view's state |
| `Selection.Coordinator.HandleTap` | HumanoidRobot/ContentView.swift:1598-1619 | the handler's writes give `AfterTap` of the old state |
| `Selection.UnnamedFrontHitIgnored` | HumanoidRobot/ContentView.swift:1603-1606 | an unnamed front-most node leaves the state unchanged, whatever named nodes lie behind it |
| `Selection.UnknownNameIgnored` | HumanoidRobot/ContentView.swift:1606 | a front-most name that is no part's raw value leaves the state unchanged |
| `Selection.TapSelectsPart` | HumanoidRobot/ContentView.swift:1606-1609 | a front-most node named after part `p` gives (`p`, true) and the sheet shows `p` |
| `Selection.TapOnScene` | HumanoidRobot/ContentView.swift:1598-1609 | tapping any named node of an assembled scene selects the part of that name and raises the sheet |
| `Selection.StepConsistent` | HumanoidRobot/ContentView.swift:1178-1189 | taps and dismissals keep "sheet up exactly when a part is selected" |
| `Selection.RunConsistent` | HumanoidRobot/ContentView.swift:1178-1189 | from a consistent state every sequence of taps and dismissals stays consistent, so the sheet is never shown without a part |
| `Selection.DismissResets` | HumanoidRobot/ContentView.swift:1183-1189 | from the start, any sequence of events ending in a dismissal leaves (nil, false) |
| `PartDetails.HardwareSpecs` | HumanoidRobot/ContentView.swift:1734-1772 | `getHardwareSpecs` is total over the 4×6 pairs and always gives five items |
| `PartDetails.SoftwareFeatures` | HumanoidRobot/ContentView.swift:1774-1812 | `getSoftwareFeatures` is total and always gives five items |
| `PartDetails.TechnicalParams` | HumanoidRobot/ContentView.swift:1814-1825 | `getTechnicalParams` is total and always gives five items |
| `PartDetails.Sections` | HumanoidRobot/ContentView.swift:1705-1727 | the sheet shows three sections of five items each, titled 硬件规格, 软件功能 and 技术参数 and coloured primary, secondary and accent from the robot's scheme |
| `PartDetails.LimbSymmetry` | HumanoidRobot/ContentView.swift:1734-1812 | left and right arm get equal lists and equal sections, and so do left and right leg |
| `PartDetails.TechnicalParamsIgnorePart` | HumanoidRobot/ContentView.swift:1814-1825 | the technical parameters depend only on the robot |
| `PartDetails.TechnicalParamsDistinguishRobots` | HumanoidRobot/ContentView.swift:1814-1825 | two robots get the same technical parameters only if they are the same robot |
| `PartDetails.SoftwareFeaturesIgnoreRobot` | HumanoidRobot/ContentView.swift:1774-1812 | the software features depend only on the part: all four robots list the same |
| `PartDetails.ArmsDifferOnlyInFreedom` | HumanoidRobot/ContentView.swift:1734-1772 | all four robots' arm specs agree except in the first item, the degrees of freedom |
| `PartDetails.CardsReachTheirContent` | HumanoidRobot/ContentView.swift:452-472 | each of the eight card titles reaches its own non-default case, and no two cards reach the same one |
| `PartDetails.ContentFor` | HumanoidRobot/ContentView.swift:452-472 | a category falls to "Content coming soon..." exactly when it is none of the eight card titles |
| `ExternalModel.ModelFileType.Extension` | HumanoidRobot/External3DModelView.swift:113-120 | `getFileExtension` gives one of "dae", "scn", "obj" and "usdz" |
| `ExternalModel.ExtensionInjective` | HumanoidRobot/External3DModelView.swift:113-120 | the file-type to extension mapping is injective |
| `ExternalModel.ExtensionsAre` | HumanoidRobot/External3DModelView.swift:113-120 | the extensions are exactly "dae", "scn", "obj" and "usdz" |
| `ExternalModel.ModelUrl` | HumanoidRobot/External3DModelView.swift:102-111 | a bundle resource wins; otherwise the URL is the documents directory joined with `name.ext`; there is no URL exactly when the bundle lacks the file and there is no documents directory |
| `ExternalModel.LoadModelFromFile` | HumanoidRobot/External3DModelView.swift:72-100 | `.usdz` gives nil whatever the file; no URL gives nil; otherwise the result is what reading the URL gives, with `checkConsistency` set exactly for `.obj`; a failed read gives nil |
| `ExternalModel.ExternalScene` | HumanoidRobot/External3DModelView.swift:31-70 | the root gets four children: camera, ambient light, omni light, then the loaded model if any and otherwise the red placeholder box |
| `ExternalModel.Instantiate` | HumanoidRobot/External3DModelView.swift:81-82 | the nodes of a scene read from a file form a fresh valid tree equal to what was read |
| `ExternalModel.LoadExternalModel` | HumanoidRobot/External3DModelView.swift:31-70 | builds a fresh valid tree equal to `ExternalScene` of what `loadModelFromFile` returns |
| `ExternalModel.OptimizeMaterial` | HumanoidRobot/External3DModelView.swift:177-190 | a material comes out physically based, with metalness and roughness set; an unset metalness becomes 0.0 and an unset roughness 0.5; colour and values already set are kept |
| `ExternalModel.OptimizeMaterials` | HumanoidRobot/External3DModelView.swift:177-190 | every material of a geometry is optimized, in place and in order |
| `ExternalModel.OptimizedChildren` | HumanoidRobot/External3DModelView.swift:175-195 | the pass over a child list optimizes each child's subtree in place |
| `ExternalModel.OptimizedChildIsOptimal` | HumanoidRobot/External3DModelView.swift:175-195 | an optimized child and every node below it draw with optimized materials only |
| `ExternalModel.OptimizedIsOptimal` | HumanoidRobot/External3DModelView.swift:173-196 | after the pass every strict descendant draws with optimized materials only |
| `ExternalModel.OptimizedChildKeeps` | HumanoidRobot/External3DModelView.swift:175-195 | in an optimized subtree only materials change: same shape, names, animations, shapes and colours, and values already set are kept |
| `ExternalModel.OptimizedKeeps` | HumanoidRobot/External3DModelView.swift:173-196 | the starting node keeps its own geometry (only `childNodes` are visited), and below it only materials change |
| `ExternalModel.OptimizeMaterialIdempotent` | HumanoidRobot/External3DModelView.swift:179-189 | optimizing a material twice is optimizing it once |
| `ExternalModel.OptimizedChildIdempotent` | HumanoidRobot/External3DModelView.swift:175-195 | optimizing a child subtree twice is optimizing it once |
| `ExternalModel.OptimizedIdempotent` | HumanoidRobot/External3DModelView.swift:173-196 | running `applyMaterialOptimizations` twice gives the same tree as running it once |
| `ExternalModel.OptimizeEachMaterial` | HumanoidRobot/External3DModelView.swift:177-190 | the loop over `geometry.materials` produces `OptimizeMaterials` of them |
| `ExternalModel.ApplyMaterialOptimizations` | HumanoidRobot/External3DModelView.swift:173-196 | the in-place recursive pass leaves a valid tree with the same footprint whose value is `Optimized` of the old one |
| `ExternalModel.OptimizeChildNode` | HumanoidRobot/External3DModelView.swift:175-195 | one turn of the loop over `childNodes` replaces just that child's subtree value with its optimized value |
| `ExternalModel.OptimizeSubtree` | HumanoidRobot/External3DModelView.swift:176-194 | a child's own materials and then its descendants: its value becomes `OptimizedChild` of the old one |
| `ExternalModel.LoopForever` | HumanoidRobot/External3DModelView.swift:200-210 | a node keeps its animation keys and clips, and every animation repeats forever |
| `ExternalModel.AnimatedChildren` | HumanoidRobot/External3DModelView.swift:212-215 | the recursion over a child list animates each child's subtree |
| `ExternalModel.AnimatedLoopsForever` | HumanoidRobot/External3DModelView.swift:198-215 | after `setupAnimations` every animation on the starting node and all its descendants repeats forever |
| `ExternalModel.AnimatedKeeps` | HumanoidRobot/External3DModelView.swift:198-215 | `setupAnimations` keeps the shape, names and payloads, each node's set of animation keys and each key's clip |
| `ExternalModel.AnimatedIdempotent` | HumanoidRobot/External3DModelView.swift:198-215 | running `setupAnimations` twice gives the same tree as running it once |
| `ExternalModel.AnimatedKeepsOptimal` | HumanoidRobot/External3DModelView.swift:160-164 | the animation pass leaves alone the materials the optimization pass produced |
| `ExternalModel.LoopAnimationsForever` | HumanoidRobot/External3DModelView.swift:200-210 | the loop over `animationKeys` re-adds every animation under its own key with an infinite repeat count and changes nothing else |
| `ExternalModel.SetupAnimations` | HumanoidRobot/External3DModelView.swift:198-215 | the in-place recursive pass leaves a valid tree with the same footprint whose value is `Animated` of the old one |
| `ExternalModel.SetupChildNode` | HumanoidRobot/External3DModelView.swift:212-215 | one turn of the loop over `childNodes` replaces just that child's subtree value with its animated value |
| `ExternalModel.LoadedWithAnimation` | HumanoidRobot/External3DModelView.swift:147-171 | a model loads exactly when the bundle has the `.dae` file and it reads with both options set; a loaded model has optimized materials below its root and only endlessly repeating animations |
| `ExternalModel.LoadModelWithAnimation` | HumanoidRobot/External3DModelView.swift:147-171 | returns a node exactly when the file loads, and then a fresh valid tree equal to the read scene after both passes |

## Left out

- SwiftUI view bodies are not modelled: layout, fonts, gradients, `StatCard`, `SpecCard`, `CapabilityRow` and the rendering inside `DetailSection`. They are pure presentation. Only the data the views pass on is modelled (sections, cards, sheet content).
- `CyberpunkBackground` is not modelled: it is random particle offsets and floating-point drawing.
- `SCNView.hitTest` ray casting is not modelled. It is floating-point geometry inside SceneKit, so its result is an input: the names of the hit nodes, front-most first.
- The `SCNAction` scale pulse after a successful tap is not modelled. It is animation only.
- Positions, sizes, Euler angles, chamfer radii, transparency, emission, reflectivity, alpha and light intensity and colour are not modelled. These are floating-point presentation values. Geometry is its shape kind plus its materials.
- Camera and light parameters are not modelled beyond each light's presence and type.
- `Bundle.main`, `FileManager` and `SCNScene(url:options:)` are not modelled. They are file-system access, so they are inputs: a map of bundle resources, an optional documents directory, and a map from read requests to the scene read, where a missing entry means the call throws. `print` logging is dropped.
- The commented-out RealityKit block at the end of `External3DModelView.swift` is not code and is not modelled.
- Views built with `.constant(...)` bindings in `HomeView` and `UniversalRobotDetailView` are not modelled: their state cannot change.
- `SceneGraph.Node.AddChild` requires the child to root a tree disjoint from the parent's. Re-parenting an attached node, which `addChildNode` allows, is not modelled because no builder does it.
- Materials are values inside a node's payload, so `SCNMaterial` and `SCNGeometry` objects shared between nodes (both eyes use one geometry) are not modelled as shared. When the sharing is only among the strict descendants of the starting node, optimizing a shared material twice gives the same result as optimizing it once (`ExternalModel.OptimizeMaterialIdempotent`), so the outcome there does not depend on it.
- `ExternalModel.OptimizedKeeps`: the starting node's own materials are stated to stay as they were, and nodes outside the subtree are untouched. In SceneKit the pass changes `SCNMaterial` objects in place, so a material or geometry that the starting node, or a node outside the subtree, shares with a descendant is optimized as well. The model cannot express that sharing.
- `SceneGraph.AttachLeaf` and `RobotScene.AttachRegion` bundle "create, configure, `addChildNode`", which the source writes out inline each time. `RobotScene.AttachLimbs` groups the four limb steps of `createDetailedRobot`, which the source also writes inline.
- `ExternalModel.Instantiate` stands for SceneKit's construction of node objects when reading a file. It is not source code of the app.
- `Selection.RobotDetailView.DismissDetail`: SwiftUI's swipe-to-dismiss also writes false to `showingDetail`. It is the same transition, so it is not modelled separately.
- `ExternalModel.LoopAnimationsForever`: `animation(forKey:)` returning nil for a listed key is not modelled. The model's key list and animation map always agree.
- The `onChange(of: selectedPart)` handler only logs, so it is not modelled.
- A node's payload is one of nothing, a camera, a light or a drawn geometry. A scene read from a file is therefore limited to nodes that carry at most one of these. SceneKit allows a node with a geometry and a camera or light together, and `applyMaterialOptimizations` would optimize that node's geometry. The model cannot represent such a node.
- `RobotCatalog.RobotType` and `RobotCatalog.RobotPart` property functions (`RawValue`, `Description`, `ColorScheme`, `Icon`) carry no contract of their own. Their tables are stated by `RobotCatalog.RobotRawValueInjective`, `RobotCatalog.PartRawValueInjective`, `RobotCatalog.RobotPropertiesDistinct` and `RobotCatalog.PartDescriptionSides`.
