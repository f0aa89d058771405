/**
 * Loading a 3D model from a file (`External3DModelView`) and the two
 * recursive clean-up passes of `Advanced3DModelLoader`. The bundle, the
 * documents directory and SceneKit's file reader are inputs: what they
 * would return is given as maps and options.
 */
module ExternalModel {
  import opened Wrappers
  import opened RobotCatalog
  import opened SceneGraph

  // ---------------------------------------------------------------------------
  // Locating and reading the file
  // ---------------------------------------------------------------------------

  datatype ModelFileType = Dae | Scn | Obj | Usdz {
    /** `getFileExtension()`. */
    function Extension(): (r: string)
      ensures r in {"dae", "scn", "obj", "usdz"}
    {
      match this
      case Dae => "dae"
      case Scn => "scn"
      case Obj => "obj"
      case Usdz => "usdz"
    }
  }

  /** Each file type has its own extension. */
  lemma ExtensionInjective(a: ModelFileType, b: ModelFileType)
    ensures a.Extension() == b.Extension() <==> a == b
  {
  }

  /** The extensions are exactly the four names SceneKit and RealityKit files use. */
  lemma ExtensionsAre(ext: string)
    ensures (exists t: ModelFileType :: t.Extension() == ext) <==> ext in {"dae", "scn", "obj", "usdz"}
  {
    if ext == "dae" { assert Dae.Extension() == ext; }
    else if ext == "scn" { assert Scn.Extension() == ext; }
    else if ext == "obj" { assert Obj.Extension() == ext; }
    else if ext == "usdz" { assert Usdz.Extension() == ext; }
  }

  /** What `Bundle.main.url(forResource:withExtension:)` finds, by (name, extension). */
  type Bundle = map<(string, string), string>

  /** `appendingPathComponent`: one more path component under a directory URL. */
  function AppendPath(dir: string, component: string): string {
    dir + "/" + component
  }

  /**
   * `getModelURL()`: the bundle's copy if there is one, otherwise the file
   * name under the first documents directory. The latter is returned
   * whether or not such a file exists.
   */
  function ModelUrl(name: string, fileType: ModelFileType, bundle: Bundle, documents: Option<string>): (r: Option<string>)
    ensures (name, fileType.Extension()) in bundle ==> r == Some(bundle[(name, fileType.Extension())])
    ensures r.None? <==> (name, fileType.Extension()) !in bundle && documents.None?
    ensures (name, fileType.Extension()) !in bundle && documents.Some? ==>
              r == Some(AppendPath(documents.value, name + "." + fileType.Extension()))
  {
    var ext := fileType.Extension();
    if (name, ext) in bundle then Some(bundle[(name, ext)])
    else match documents
      case None => None
      case Some(dir) => Some(AppendPath(dir, name + "." + ext))
  }

  /** One call of `SCNScene(url:options:)`: the URL and the two loading options the code sets. */
  datatype LoadRequest = LoadRequest(url: string, checkConsistency: bool, createNormalsIfAbsent: bool)

  /**
   * SceneKit's file reader: the root of the scene each request reads, or no
   * entry where the call throws.
   */
  type Loader = map<LoadRequest, Tree>

  function Read(loader: Loader, request: LoadRequest): Option<Tree> {
    if request in loader then Some(loader[request]) else None
  }

  /**
   * `loadModelFromFile()`: no URL gives nil; `.dae` and `.scn` are read
   * without options, `.obj` with `checkConsistency`; `.usdz` gives nil
   * whatever the file; a throwing read gives nil.
   */
  function LoadModelFromFile(name: string, fileType: ModelFileType, bundle: Bundle,
                             documents: Option<string>, loader: Loader): (r: Option<Tree>)
    ensures fileType == Usdz ==> r.None?
    ensures ModelUrl(name, fileType, bundle, documents).None? ==> r.None?
    ensures r.Some? <==>
              && fileType != Usdz
              && ModelUrl(name, fileType, bundle, documents).Some?
              && LoadRequest(ModelUrl(name, fileType, bundle, documents).value, fileType == Obj, false) in loader
    ensures r.Some? ==>
              r.value == loader[LoadRequest(ModelUrl(name, fileType, bundle, documents).value, fileType == Obj, false)]
  {
    match ModelUrl(name, fileType, bundle, documents)
    case None => None
    case Some(url) =>
      match fileType
      case Dae | Scn => Read(loader, LoadRequest(url, false, false))
      case Obj => Read(loader, LoadRequest(url, true, false))
      case Usdz => None
  }

  /** The placeholder shown when nothing could be loaded: a box with a red diffuse material. */
  function Placeholder(): Tree {
    Leaf(Drawn(Geometry(Box, [Material(Some(UIKitRed), Blinn, None, None)])))
  }

  /** The scene `loadExternalModel()` returns, given what `loadModelFromFile()` produced. */
  function ExternalScene(model: Option<Tree>): (r: Tree)
    ensures |r.children| == 4
    ensures r.children[..3] == [Leaf(Camera), Leaf(Light(Ambient)), Leaf(Light(Omni))]
    ensures model.Some? ==> r.children[3] == model.value
    ensures model.None? ==> r.children[3] == Placeholder()
  {
    Tree(None, Empty, map[],
      [Leaf(Camera), Leaf(Light(Ambient)), Leaf(Light(Omni)), model.GetOr(Placeholder())])
  }

  /** The nodes SceneKit builds for a scene it has read: a fresh copy of `t`. */
  method Instantiate(t: Tree) returns (n: Node)
    ensures Built(n, t) && fresh(n.Repr)
    decreases t
  {
    n := new Node(t.name, t.payload);
    n.animations := t.animations;
    n.Model := n.Model.(animations := t.animations);
    for i := 0 to |t.children|
      invariant Built(n, t.(children := t.children[..i])) && fresh(n.Repr)
    {
      var child := Instantiate(t.children[i]);
      n.AddChild(child);
      assert t.children[..i + 1] == t.children[..i] + [t.children[i]];
    }
    assert t.children[..|t.children|] == t.children;
  }

  /**
   * `loadExternalModel()`: a camera, an ambient and an omni light, then the
   * loaded model or, when there is none, the placeholder box.
   */
  method LoadExternalModel(name: string, fileType: ModelFileType, bundle: Bundle,
                           documents: Option<string>, loader: Loader) returns (root: Node)
    ensures Built(root, ExternalScene(LoadModelFromFile(name, fileType, bundle, documents, loader)))
    ensures fresh(root.Repr)
  {
    root := new Node(None, Empty);
    AttachLeaf(root, None, Camera);
    AttachLeaf(root, None, Light(Ambient));
    AttachLeaf(root, None, Light(Omni));
    assert root.Model.children == [Leaf(Camera), Leaf(Light(Ambient)), Leaf(Light(Omni))];
    var model := LoadModelFromFile(name, fileType, bundle, documents, loader);
    if model.Some? {
      var modelNode := Instantiate(model.value);
      root.AddChild(modelNode);
    } else {
      AttachLeaf(root, None, Placeholder().payload);
    }
  }

  // ---------------------------------------------------------------------------
  // applyMaterialOptimizations
  // ---------------------------------------------------------------------------

  /** One material after the pass. */
  function OptimizeMaterial(m: Material): (r: Material)
    ensures r.lighting == PhysicallyBased
    ensures r.metalness.Some? && r.roughness.Some?
    ensures m.metalness.None? ==> r.metalness == Some(0.0)
    ensures m.roughness.None? ==> r.roughness == Some(0.5)
    ensures MaterialKept(m, r)
  {
    m.(lighting := PhysicallyBased,
       metalness := Some(m.metalness.GetOr(0.0)),
       roughness := Some(m.roughness.GetOr(0.5)))
  }

  /** `r` keeps everything `m` had: its colour and any metalness or roughness already set. */
  predicate MaterialKept(m: Material, r: Material) {
    && r.diffuse == m.diffuse
    && (m.metalness.Some? ==> r.metalness == m.metalness)
    && (m.roughness.Some? ==> r.roughness == m.roughness)
  }

  /** A material the pass has been over. */
  predicate OptimalMaterial(m: Material) {
    m.lighting == PhysicallyBased && m.metalness.Some? && m.roughness.Some?
  }

  function OptimizeMaterials(ms: seq<Material>): (r: seq<Material>)
    ensures |r| == |ms|
    ensures forall i :: 0 <= i < |ms| ==> r[i] == OptimizeMaterial(ms[i])
  {
    seq(|ms|, i requires 0 <= i < |ms| => OptimizeMaterial(ms[i]))
  }

  /** The pass touches only drawn nodes' materials. */
  function OptimizePayload(p: Payload): Payload {
    match p
    case Drawn(g) => Drawn(g.(materials := OptimizeMaterials(g.materials)))
    case _ => p
  }

  /**
   * The tree after `applyMaterialOptimizations(to:)` on its root: the root
   * itself is left alone, every strict descendant is optimized.
   */
  function Optimized(t: Tree): Tree {
    t.(children := OptimizedChildren(t.children))
  }

  function OptimizedChild(c: Tree): Tree
    decreases c
  {
    c.(payload := OptimizePayload(c.payload), children := OptimizedChildren(c.children))
  }

  function OptimizedChildren(ts: seq<Tree>): (r: seq<Tree>)
    ensures |r| == |ts|
    ensures forall i :: 0 <= i < |ts| ==> r[i] == OptimizedChild(ts[i])
    decreases ts
  {
    if ts == [] then [] else [OptimizedChild(ts[0])] + OptimizedChildren(ts[1..])
  }

  /** Every material `p` draws with has been through the pass. */
  predicate OptimalPayload(p: Payload) {
    p.Drawn? ==> forall m :: m in p.geometry.materials ==> OptimalMaterial(m)
  }

  /** Every strict descendant of `t` draws with optimized materials only. */
  predicate OptimalBelow(t: Tree)
    decreases t
  {
    forall i :: 0 <= i < |t.children| ==>
      OptimalPayload(t.children[i].payload) && OptimalBelow(t.children[i])
  }

  /** Same shape, names, animations and payload kinds; materials kept in the sense of MaterialKept. */
  predicate SameButMaterials(a: Tree, b: Tree)
    decreases a
  {
    && a.name == b.name
    && a.animations == b.animations
    && PayloadKept(a.payload, b.payload)
    && |a.children| == |b.children|
    && forall i :: 0 <= i < |a.children| ==> SameButMaterials(a.children[i], b.children[i])
  }

  predicate PayloadKept(p: Payload, q: Payload) {
    match p
    case Drawn(g) =>
      && q.Drawn?
      && q.geometry.shape == g.shape
      && |q.geometry.materials| == |g.materials|
      && forall i :: 0 <= i < |g.materials| ==> MaterialKept(g.materials[i], q.geometry.materials[i])
    case _ => q == p
  }

  /** The pass optimizes every material below the root. */
  lemma {:induction false} OptimizedChildIsOptimal(c: Tree)
    ensures OptimalPayload(OptimizedChild(c).payload)
    ensures OptimalBelow(OptimizedChild(c))
    decreases c
  {
    forall i | 0 <= i < |c.children|
      ensures OptimalPayload(OptimizedChild(c).children[i].payload)
      ensures OptimalBelow(OptimizedChild(c).children[i])
    {
      OptimizedChildIsOptimal(c.children[i]);
    }
  }

  lemma OptimizedIsOptimal(t: Tree)
    ensures OptimalBelow(Optimized(t))
  {
    forall i | 0 <= i < |t.children|
      ensures OptimalPayload(Optimized(t).children[i].payload)
      ensures OptimalBelow(Optimized(t).children[i])
    {
      OptimizedChildIsOptimal(t.children[i]);
    }
  }

  /** The pass changes nothing but materials, and never overwrites a value already set. */
  lemma {:induction false} OptimizedChildKeeps(c: Tree)
    ensures SameButMaterials(c, OptimizedChild(c))
    decreases c
  {
    forall i | 0 <= i < |c.children|
      ensures SameButMaterials(c.children[i], OptimizedChild(c).children[i])
    {
      OptimizedChildKeeps(c.children[i]);
    }
  }

  /** The starting node keeps its own geometry; below it only materials change. */
  lemma OptimizedKeeps(t: Tree)
    ensures Optimized(t).payload == t.payload
    ensures SameButMaterials(t, Optimized(t))
  {
    forall i | 0 <= i < |t.children|
      ensures SameButMaterials(t.children[i], Optimized(t).children[i])
    {
      OptimizedChildKeeps(t.children[i]);
    }
  }

  lemma OptimizeMaterialIdempotent(m: Material)
    ensures OptimizeMaterial(OptimizeMaterial(m)) == OptimizeMaterial(m)
  {
  }

  lemma {:induction false} OptimizedChildIdempotent(c: Tree)
    ensures OptimizedChild(OptimizedChild(c)) == OptimizedChild(c)
    decreases c
  {
    var once := OptimizedChild(c);
    forall i | 0 <= i < |c.children|
      ensures OptimizedChild(once.children[i]) == once.children[i]
    {
      OptimizedChildIdempotent(c.children[i]);
    }
    assert OptimizedChildren(once.children) == once.children;
    if c.payload.Drawn? {
      var ms := c.payload.geometry.materials;
      forall i | 0 <= i < |ms|
        ensures OptimizeMaterial(OptimizeMaterials(ms)[i]) == OptimizeMaterials(ms)[i]
      {
        OptimizeMaterialIdempotent(ms[i]);
      }
      assert OptimizeMaterials(OptimizeMaterials(ms)) == OptimizeMaterials(ms);
    }
  }

  /** Running the pass twice gives what running it once gives. */
  lemma OptimizedIdempotent(t: Tree)
    ensures Optimized(Optimized(t)) == Optimized(t)
  {
    var once := Optimized(t);
    forall i | 0 <= i < |t.children|
      ensures OptimizedChild(once.children[i]) == once.children[i]
    {
      OptimizedChildIdempotent(t.children[i]);
    }
    assert OptimizedChildren(once.children) == once.children;
  }

  /** The inner `for material in geometry.materials` loop. */
  method OptimizeEachMaterial(materials: seq<Material>) returns (r: seq<Material>)
    ensures r == OptimizeMaterials(materials)
  {
    r := [];
    for i := 0 to |materials|
      invariant |r| == i
      invariant forall j :: 0 <= j < i ==> r[j] == OptimizeMaterial(materials[j])
    {
      r := r + [OptimizeMaterial(materials[i])];
    }
  }

  /** `applyMaterialOptimizations(to:)`: recurses over the child nodes, optimizing each child's materials. */
  method ApplyMaterialOptimizations(node: Node)
    requires node.Valid()
    modifies node.Repr
    ensures node.Valid() && node.Repr == old(node.Repr)
    ensures node.Model == Optimized(old(node.Model))
    decreases node.Repr, 1
  {
    ghost var t := node.Model;
    for i := 0 to |node.children|
      invariant node.Valid() && node.Repr == old(node.Repr) && node.children == old(node.children)
      invariant node.Model.name == t.name && node.Model.payload == t.payload
      invariant node.Model.animations == t.animations
      invariant |node.Model.children| == |t.children|
      invariant forall j :: 0 <= j < i ==> node.Model.children[j] == OptimizedChild(t.children[j])
      invariant forall j :: i <= j < |t.children| ==> node.Model.children[j] == t.children[j]
    {
      OptimizeChildNode(node, i);
    }
    assert node.Model.children == OptimizedChildren(t.children);
  }

  /** One turn of the loop over `node.childNodes`: the `i`-th child and its subtree. */
  method OptimizeChildNode(node: Node, i: nat)
    requires node.Valid() && i < |node.children|
    modifies node.Repr
    ensures node.Valid() && node.Repr == old(node.Repr) && node.children == old(node.children)
    ensures node.Model == old(node.Model).(children := old(node.Model.children)[i := OptimizedChild(old(node.Model.children[i]))])
    decreases node.Repr, 0
  {
    var child := node.children[i];
    assert forall j :: 0 <= j < |node.children| && j != i ==> node.children[j].Repr !! child.Repr;
    OptimizeSubtree(child);
    node.Model := node.Model.(children := node.Model.children[i := child.Model]);
  }

  /** A child node's own materials, then (by the recursive call) everything below it. */
  method OptimizeSubtree(child: Node)
    requires child.Valid()
    modifies child.Repr
    ensures child.Valid() && child.Repr == old(child.Repr)
    ensures child.Model == OptimizedChild(old(child.Model))
    decreases child.Repr, 2
  {
    if child.payload.Drawn? {
      var materials := OptimizeEachMaterial(child.payload.geometry.materials);
      child.SetPayload(Drawn(child.payload.geometry.(materials := materials)));
    }
    ApplyMaterialOptimizations(child);
  }

  // ---------------------------------------------------------------------------
  // setupAnimations
  // ---------------------------------------------------------------------------

  /** A node's animations after the pass: the same keys, every one repeating forever. */
  function LoopForever(animations: map<string, Animation>): (r: map<string, Animation>)
    ensures r.Keys == animations.Keys
    ensures forall k :: k in r ==> r[k].repeat == Forever && r[k].clip == animations[k].clip
  {
    map k | k in animations :: animations[k].(repeat := Forever)
  }

  /** The tree after `setupAnimations(for:)` on its root: the root and every descendant. */
  function Animated(t: Tree): Tree
    decreases t
  {
    t.(animations := LoopForever(t.animations), children := AnimatedChildren(t.children))
  }

  function AnimatedChildren(ts: seq<Tree>): (r: seq<Tree>)
    ensures |r| == |ts|
    ensures forall i :: 0 <= i < |ts| ==> r[i] == Animated(ts[i])
    decreases ts
  {
    if ts == [] then [] else [Animated(ts[0])] + AnimatedChildren(ts[1..])
  }

  /** Every animation anywhere in `t` repeats forever. */
  predicate LoopsForever(t: Tree)
    decreases t
  {
    && (forall k :: k in t.animations ==> t.animations[k].repeat == Forever)
    && forall i :: 0 <= i < |t.children| ==> LoopsForever(t.children[i])
  }

  /** Same shape, names and payloads; each node has the same animation keys, each key the same clip. */
  predicate SameButRepeats(a: Tree, b: Tree)
    decreases a
  {
    && a.name == b.name
    && a.payload == b.payload
    && a.animations.Keys == b.animations.Keys
    && (forall k :: k in a.animations ==> b.animations[k].clip == a.animations[k].clip)
    && |a.children| == |b.children|
    && forall i :: 0 <= i < |a.children| ==> SameButRepeats(a.children[i], b.children[i])
  }

  lemma {:induction false} AnimatedLoopsForever(t: Tree)
    ensures LoopsForever(Animated(t))
    decreases t
  {
    forall i | 0 <= i < |t.children| ensures LoopsForever(Animated(t).children[i]) {
      AnimatedLoopsForever(t.children[i]);
    }
  }

  /** The pass re-adds every animation under its own key and changes nothing but repeat counts. */
  lemma {:induction false} AnimatedKeeps(t: Tree)
    ensures SameButRepeats(t, Animated(t))
    decreases t
  {
    forall i | 0 <= i < |t.children| ensures SameButRepeats(t.children[i], Animated(t).children[i]) {
      AnimatedKeeps(t.children[i]);
    }
  }

  /** Running the pass twice gives what running it once gives. */
  lemma {:induction false} AnimatedIdempotent(t: Tree)
    ensures Animated(Animated(t)) == Animated(t)
    decreases t
  {
    var once := Animated(t);
    forall i | 0 <= i < |t.children| ensures Animated(once.children[i]) == once.children[i] {
      AnimatedIdempotent(t.children[i]);
    }
    assert AnimatedChildren(once.children) == once.children;
    assert LoopForever(once.animations) == once.animations;
  }

  /** The animation pass leaves the materials the optimization pass produced alone. */
  lemma {:induction false} AnimatedKeepsOptimal(t: Tree)
    requires OptimalBelow(t)
    ensures OptimalBelow(Animated(t))
    decreases t
  {
    forall i | 0 <= i < |t.children|
      ensures OptimalPayload(Animated(t).children[i].payload) && OptimalBelow(Animated(t).children[i])
    {
      AnimatedKeepsOptimal(t.children[i]);
    }
  }

  /** The `for animationKey in node.animationKeys` loop on one node. */
  method LoopAnimationsForever(node: Node)
    requires node.Valid()
    modifies node
    ensures node.Valid() && node.Repr == old(node.Repr) && node.children == old(node.children)
    ensures node.Model == old(node.Model).(animations := LoopForever(old(node.Model.animations)))
  {
    ghost var before := node.animations;
    var keys := node.animations.Keys;
    while keys != {}
      invariant node.Valid() && node.Repr == old(node.Repr) && node.children == old(node.children)
      invariant node.Model == old(node.Model).(animations := node.animations)
      invariant keys <= before.Keys && node.animations.Keys == before.Keys
      invariant forall k :: k in before ==>
        node.animations[k] == if k in keys then before[k] else before[k].(repeat := Forever)
      decreases keys
    {
      var key :| key in keys;
      var animation := node.animations[key];
      animation := animation.(repeat := Forever);
      node.AddAnimation(key, animation);
      keys := keys - {key};
    }
    assert node.animations == LoopForever(before);
  }

  /** `setupAnimations(for:)`: the node's own animations, then each child's subtree. */
  method SetupAnimations(node: Node)
    requires node.Valid()
    modifies node.Repr
    ensures node.Valid() && node.Repr == old(node.Repr)
    ensures node.Model == Animated(old(node.Model))
    decreases node.Repr, 1
  {
    ghost var t := node.Model;
    LoopAnimationsForever(node);
    for i := 0 to |node.children|
      invariant node.Valid() && node.Repr == old(node.Repr) && node.children == old(node.children)
      invariant node.Model.name == t.name && node.Model.payload == t.payload
      invariant node.Model.animations == LoopForever(t.animations)
      invariant |node.Model.children| == |t.children|
      invariant forall j :: 0 <= j < i ==> node.Model.children[j] == Animated(t.children[j])
      invariant forall j :: i <= j < |t.children| ==> node.Model.children[j] == t.children[j]
    {
      SetupChildNode(node, i);
    }
    assert node.Model.children == AnimatedChildren(t.children);
  }

  /** One turn of the loop over `node.childNodes`. */
  method SetupChildNode(node: Node, i: nat)
    requires node.Valid() && i < |node.children|
    modifies node.Repr
    ensures node.Valid() && node.Repr == old(node.Repr) && node.children == old(node.children)
    ensures node.Model == old(node.Model).(children := old(node.Model.children)[i := Animated(old(node.Model.children[i]))])
    decreases node.Repr, 0
  {
    var child := node.children[i];
    assert forall j :: 0 <= j < |node.children| && j != i ==> node.children[j].Repr !! child.Repr;
    SetupAnimations(child);
    node.Model := node.Model.(children := node.Model.children[i := child.Model]);
  }

  // ---------------------------------------------------------------------------
  // loadModelWithAnimation
  // ---------------------------------------------------------------------------

  /**
   * `loadModelWithAnimation(modelName:)`: the bundle's `.dae` file, read with
   * `checkConsistency` and `createNormalsIfAbsent`, then both passes. A
   * model loaded this way has optimized materials below its root and loops
   * all its animations.
   */
  function LoadedWithAnimation(modelName: string, bundle: Bundle, loader: Loader): (r: Option<Tree>)
    ensures r.Some? <==> (modelName, "dae") in bundle && LoadRequest(bundle[(modelName, "dae")], true, true) in loader
    ensures r.Some? ==> OptimalBelow(r.value) && LoopsForever(r.value)
  {
    if (modelName, "dae") !in bundle then None
    else match Read(loader, LoadRequest(bundle[(modelName, "dae")], true, true))
      case None => None
      case Some(t) =>
        OptimizedIsOptimal(t);
        AnimatedKeepsOptimal(Optimized(t));
        AnimatedLoopsForever(Optimized(t));
        Some(Animated(Optimized(t)))
  }

  method LoadModelWithAnimation(modelName: string, bundle: Bundle, loader: Loader) returns (r: Option<Node>)
    ensures r.Some? <==> LoadedWithAnimation(modelName, bundle, loader).Some?
    ensures r.Some? ==> Built(r.value, LoadedWithAnimation(modelName, bundle, loader).value) && fresh(r.value.Repr)
  {
    if (modelName, "dae") !in bundle {
      return None;
    }
    var url := bundle[(modelName, "dae")];
    var scene := Read(loader, LoadRequest(url, true, true));
    if scene.None? {
      return None;
    }
    var rootNode := Instantiate(scene.value);
    ApplyMaterialOptimizations(rootNode);
    SetupAnimations(rootNode);
    return Some(rootNode);
  }
}
