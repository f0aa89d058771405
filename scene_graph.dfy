/**
 * A SceneKit-style scene graph. `Tree` is the value of a node hierarchy;
 * `Node` is the mutable node object (`SCNNode`) whose ghost `Model` is kept
 * equal to the tree it roots, so that builder methods can be proved against
 * tree-valued specifications.
 */
module SceneGraph {
  import opened Wrappers
  import opened RobotCatalog

  /** The primitive kind of a geometry; sizes are not modelled. `Mesh` is geometry read from a file. */
  datatype Shape = Capsule | Box | Cylinder | Sphere | Mesh

  /** `SCNMaterial.LightingModel`; a fresh material uses Blinn. */
  datatype LightingModel = Blinn | PhysicallyBased

  /**
   * A material: its diffuse colour (if a named colour was set), its lighting
   * model, and the contents of its metalness and roughness properties
   * (`None` for nil contents).
   */
  datatype Material = Material(
    diffuse: Option<Color>,
    lighting: LightingModel,
    metalness: Option<real>,
    roughness: Option<real>)

  datatype Geometry = Geometry(shape: Shape, materials: seq<Material>)

  datatype LightType = Ambient | Omni

  /** What a node carries: nothing, a camera, a light, or drawable geometry. */
  datatype Payload = Empty | Camera | Light(kind: LightType) | Drawn(geometry: Geometry)

  /** `CAAnimation.repeatCount`: a finite count, or `.infinity`. */
  datatype Repeat = Times(count: real) | Forever

  /** An attached animation: what it plays (opaque) and how often it repeats. */
  datatype Animation = Animation(clip: string, repeat: Repeat)

  /** The value of a node and, recursively, of its ordered children. */
  datatype Tree = Tree(
    name: Option<string>,
    payload: Payload,
    animations: map<string, Animation>,
    children: seq<Tree>)

  /** A node with no name, no animations and no children. */
  function Leaf(payload: Payload): Tree {
    Tree(None, payload, map[], [])
  }

  /** `n` copies of the same node value, as a `for _ in 0..<n` loop attaches them. */
  function Copies(t: Tree, n: nat): (r: seq<Tree>)
    ensures |r| == n && forall i :: 0 <= i < n ==> r[i] == t
  {
    seq(n, _ => t)
  }

  /** An unnamed leaf: a purely decorative node. */
  predicate Decoration(t: Tree) {
    t.name == None && t.children == []
  }

  /** Number of nodes in a tree, the root included. */
  function Size(t: Tree): (n: nat)
    ensures n >= 1
    decreases t
  {
    1 + SizeAll(t.children)
  }

  function SizeAll(ts: seq<Tree>): (n: nat)
    ensures n >= |ts|
    decreases ts
  {
    if ts == [] then 0 else Size(ts[0]) + SizeAll(ts[1..])
  }

  /** The names carried by a tree's nodes, in pre-order. */
  function Names(t: Tree): seq<string>
    decreases t
  {
    (if t.name.Some? then [t.name.value] else []) + NamesAll(t.children)
  }

  function NamesAll(ts: seq<Tree>): seq<string>
    decreases ts
  {
    if ts == [] then [] else Names(ts[0]) + NamesAll(ts[1..])
  }

  lemma {:induction false} SizeAllAppend(a: seq<Tree>, b: seq<Tree>)
    ensures SizeAll(a + b) == SizeAll(a) + SizeAll(b)
    decreases a
  {
    if a == [] {
      assert a + b == b;
    } else {
      assert (a + b)[0] == a[0];
      assert (a + b)[1..] == a[1..] + b;
      SizeAllAppend(a[1..], b);
    }
  }

  lemma {:induction false} NamesAllAppend(a: seq<Tree>, b: seq<Tree>)
    ensures NamesAll(a + b) == NamesAll(a) + NamesAll(b)
    decreases a
  {
    if a == [] {
      assert a + b == b;
    } else {
      assert (a + b)[0] == a[0];
      assert (a + b)[1..] == a[1..] + b;
      NamesAllAppend(a[1..], b);
    }
  }

  /** Decorations add one node each and no names. */
  lemma {:induction false} DecorationsCount(ts: seq<Tree>)
    requires forall i :: 0 <= i < |ts| ==> Decoration(ts[i])
    ensures SizeAll(ts) == |ts|
    ensures NamesAll(ts) == []
    decreases ts
  {
    if ts != [] {
      DecorationsCount(ts[1..]);
    }
  }

  /** Siblings of equal size `k`: the forest has `k` nodes per tree. */
  lemma {:induction false} SizeAllUniform(ts: seq<Tree>, k: nat)
    requires forall i :: 0 <= i < |ts| ==> Size(ts[i]) == k
    ensures SizeAll(ts) == k * |ts|
    decreases ts
  {
    if ts != [] {
      SizeAllUniform(ts[1..], k);
    }
  }

  /** Siblings carrying one name each: the forest's names are those names, in order. */
  lemma {:induction false} NamesAllSingles(ts: seq<Tree>, ns: seq<string>)
    requires |ts| == |ns|
    requires forall i :: 0 <= i < |ts| ==> Names(ts[i]) == [ns[i]]
    ensures NamesAll(ts) == ns
    decreases ts
  {
    if ts != [] {
      NamesAllSingles(ts[1..], ns[1..]);
    }
  }

  /** A scene-graph node. `Repr` is every node of the subtree it roots. */
  class Node {
    var name: Option<string>
    var payload: Payload
    var animations: map<string, Animation>
    var children: seq<Node>
    ghost var Repr: set<object>
    ghost var Model: Tree

    /** The subtree is a proper tree (children own disjoint subtrees) and `Model` is its value. */
    ghost predicate Valid()
      reads this, Repr
      decreases Repr
    {
      && this in Repr
      && Model.name == name
      && Model.payload == payload
      && Model.animations == animations
      && |Model.children| == |children|
      && (forall i :: 0 <= i < |children| ==>
            && children[i] in Repr
            && children[i].Repr <= Repr
            && this !in children[i].Repr
            && children[i].Valid()
            && children[i].Model == Model.children[i])
      && (forall i, j :: 0 <= i < j < |children| ==> children[i].Repr !! children[j].Repr)
    }

    /** `SCNNode()` or `SCNNode(geometry:)`, with its `name` assigned before the node is attached anywhere. */
    constructor (name: Option<string>, payload: Payload)
      ensures Valid() && fresh(Repr) && Repr == {this}
      ensures Model == Tree(name, payload, map[], [])
      ensures children == []
    {
      this.name := name;
      this.payload := payload;
      this.animations := map[];
      this.children := [];
      Repr := {this};
      Model := Tree(name, payload, map[], []);
    }

    /**
     * `addChildNode`: appends `child` as the last child. The child must root a
     * tree of its own, disjoint from this one.
     */
    method AddChild(child: Node)
      requires Valid() && child.Valid()
      requires Repr !! child.Repr
      modifies this
      ensures Valid()
      ensures children == old(children) + [child]
      ensures Repr == old(Repr) + child.Repr
      ensures Model == old(Model).(children := old(Model.children) + [child.Model])
    {
      children := children + [child];
      Repr := Repr + child.Repr;
      Model := Model.(children := Model.children + [child.Model]);
    }

    /** Replaces what the node draws (its geometry and materials), and nothing else. */
    method SetPayload(payload: Payload)
      requires Valid()
      modifies this
      ensures Valid() && Repr == old(Repr) && children == old(children)
      ensures this.payload == payload
      ensures Model == old(Model).(payload := payload)
    {
      this.payload := payload;
      Model := Model.(payload := payload);
    }

    /** `addAnimation(_:forKey:)`: stores `animation` under `key`, replacing any animation there. */
    method AddAnimation(key: string, animation: Animation)
      requires Valid()
      modifies this
      ensures Valid() && Repr == old(Repr) && children == old(children)
      ensures animations == old(animations)[key := animation]
      ensures Model == old(Model).(animations := animations)
    {
      animations := animations[key := animation];
      Model := Model.(animations := animations);
    }
  }

  /** A fresh, well-formed tree with the given value. */
  ghost predicate Built(n: Node, t: Tree)
    reads n, n.Repr
  {
    n.Valid() && n.Model == t
  }

  /**
   * `let n = SCNNode(geometry:)`, an optional `n.name = ...`, then
   * `parent.addChildNode(n)`: attaches one new leaf as the last child.
   */
  method AttachLeaf(parent: Node, name: Option<string>, payload: Payload)
    requires parent.Valid()
    modifies parent
    ensures parent.Valid() && fresh(parent.Repr - old(parent.Repr))
    ensures parent.Model.name == old(parent.Model.name) && parent.Model.payload == old(parent.Model.payload)
    ensures parent.Model.animations == old(parent.Model.animations)
    ensures parent.Model.children == old(parent.Model.children) + [Tree(name, payload, map[], [])]
  {
    var n := new Node(name, payload);
    parent.AddChild(n);
  }
}
