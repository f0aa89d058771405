/**
 * The procedural robot of `Robot3DView`: a scene root holding a camera, two
 * lights and a robot node; the robot node holds six region nodes (head, torso,
 * left/right arm, left/right leg), each built from seven primitives. In every
 * region exactly the structural primitive is named with its `RobotPart` raw
 * value; the rest is unnamed decoration. Positions, sizes and angles are not
 * modelled; a primitive is its shape kind and its material.
 */
module RobotScene {
  import opened Wrappers
  import opened RobotCatalog
  import opened SceneGraph

  /** The primitives the builders draw with, one per kind of node. */
  datatype Piece =
    | HeadShell | Eye | Antenna | AntennaTip
    | TorsoShell | ChestPanel | Circuit | Shoulder
    | UpperArm | Elbow | Forearm | Hand | Finger
    | Thigh | Knee | Calf | Foot | Tread

  function Painted(shape: Shape, color: Color, lighting: LightingModel, metalness: Option<real>, roughness: Option<real>): Payload {
    Drawn(Geometry(shape, [Material(Some(color), lighting, metalness, roughness)]))
  }

  /** An unset value, or a set one in [0, 1]. */
  predicate InUnitRange(v: Option<real>) {
    v.Some? ==> 0.0 <= v.value <= 1.0
  }

  /**
   * The geometry catalog: the shape and the single material each piece is
   * drawn with for palette `c` (unset metalness or roughness stays nil).
   */
  function Look(piece: Piece, c: Palette): Payload {
    match piece
    case HeadShell => Painted(Capsule, c.primary, PhysicallyBased, Some(0.9), Some(0.1))
    case Eye => Painted(Sphere, UIKitCyan, Blinn, None, None)
    case Antenna => Painted(Cylinder, c.accent, Blinn, Some(0.8), None)
    case AntennaTip => Painted(Sphere, UIKitBlue, Blinn, None, None)
    case TorsoShell => Painted(Box, c.secondary, PhysicallyBased, Some(0.8), Some(0.15))
    case ChestPanel => Painted(Box, c.accent, Blinn, Some(0.9), Some(0.1))
    case Circuit => Painted(Box, UIKitCyan, Blinn, None, None)
    case Shoulder => Painted(Cylinder, c.primary, Blinn, Some(0.7), None)
    case UpperArm => Painted(Capsule, c.accent, PhysicallyBased, Some(0.7), Some(0.2))
    case Elbow => Painted(Cylinder, c.primary, Blinn, Some(0.8), None)
    case Forearm => Painted(Capsule, c.secondary, Blinn, Some(0.6), None)
    case Hand => Painted(Box, c.primary, Blinn, Some(0.7), None)
    case Finger => Painted(Capsule, c.accent, Blinn, None, None)
    case Thigh => Painted(Capsule, c.primary, Blinn, Some(0.7), None)
    case Knee => Painted(Cylinder, c.accent, Blinn, Some(0.8), None)
    case Calf => Painted(Capsule, c.secondary, Blinn, Some(0.6), None)
    case Foot => Painted(Box, c.primary, Blinn, Some(0.7), None)
    case Tread => Painted(Box, c.accent, Blinn, None, None)
  }

  /** Every primitive is drawn with one material whose metalness and roughness, where set, lie in [0, 1]. */
  lemma LookInUnitRange(piece: Piece, c: Palette)
    ensures Look(piece, c).Drawn? && |Look(piece, c).geometry.materials| == 1
    ensures InUnitRange(Look(piece, c).geometry.materials[0].metalness)
    ensures InUnitRange(Look(piece, c).geometry.materials[0].roughness)
  {
  }

  /** An unnamed primitive. */
  function Trim(piece: Piece, c: Palette): Tree {
    Leaf(Look(piece, c))
  }

  /** The structural primitive of a region, named with the part's raw value. */
  function Main(piece: Piece, c: Palette, part: RobotPart): Tree {
    Tree(Some(part.RawValue()), Look(piece, c), map[], [])
  }

  // ---------------------------------------------------------------------------
  // The trees the builders produce
  // ---------------------------------------------------------------------------

  /** Head: the named capsule, two eyes, two antennae and two antenna tips. */
  function HeadTree(c: Palette): Tree {
    Tree(None, Empty, map[],
      [Main(HeadShell, c, Head), Trim(Eye, c), Trim(Eye, c), Trim(Antenna, c), Trim(Antenna, c),
       Trim(AntennaTip, c), Trim(AntennaTip, c)])
  }

  /** Torso: the named box, a chest panel, three circuit lines and two shoulder joints. */
  function TorsoTree(c: Palette): Tree {
    Tree(None, Empty, map[],
      [Main(TorsoShell, c, Torso), Trim(ChestPanel, c)] + Copies(Trim(Circuit, c), 3)
      + [Trim(Shoulder, c), Trim(Shoulder, c)])
  }

  /** The part an arm or leg builder names its structural node after. */
  function Side(isLeft: bool, left: RobotPart, right: RobotPart): RobotPart {
    if isLeft then left else right
  }

  /** Arm: the named upper arm, elbow, forearm, hand and three fingers. */
  function ArmTree(c: Palette, isLeft: bool): Tree {
    Tree(None, Empty, map[],
      [Main(UpperArm, c, Side(isLeft, LeftArm, RightArm)), Trim(Elbow, c), Trim(Forearm, c), Trim(Hand, c)]
      + Copies(Trim(Finger, c), 3))
  }

  /** Leg: the named thigh, knee, calf, foot and three tread strips. */
  function LegTree(c: Palette, isLeft: bool): Tree {
    Tree(None, Empty, map[],
      [Main(Thigh, c, Side(isLeft, LeftLeg, RightLeg)), Trim(Knee, c), Trim(Calf, c), Trim(Foot, c)]
      + Copies(Trim(Tread, c), 3))
  }

  /** The region tree built for `part` from palette `c`. */
  function RegionTree(c: Palette, part: RobotPart): Tree {
    match part
    case Head => HeadTree(c)
    case Torso => TorsoTree(c)
    case LeftArm => ArmTree(c, true)
    case RightArm => ArmTree(c, false)
    case LeftLeg => LegTree(c, true)
    case RightLeg => LegTree(c, false)
  }

  /** The robot node: its six regions in the order they are attached. */
  function RobotTree(robot: RobotType): Tree {
    var c := robot.ColorScheme();
    Tree(None, Empty, map[],
      [RegionTree(c, Head), RegionTree(c, Torso), RegionTree(c, LeftArm),
       RegionTree(c, RightArm), RegionTree(c, LeftLeg), RegionTree(c, RightLeg)])
  }

  /** The scene's root node: camera, ambient light, omni light, robot. */
  function SceneTree(robot: RobotType): Tree {
    Tree(None, Empty, map[],
      [Leaf(Camera), Leaf(Light(Ambient)), Leaf(Light(Omni)), RobotTree(robot)])
  }

  // ---------------------------------------------------------------------------
  // The builders
  // ---------------------------------------------------------------------------

  method CreateDetailedHead(c: Palette) returns (head: Node)
    ensures Built(head, HeadTree(c)) && fresh(head.Repr)
  {
    var t := HeadTree(c);
    head := new Node(None, Empty);
    AttachLeaf(head, Some(Head.RawValue()), Look(HeadShell, c));
    AttachLeaf(head, None, Look(Eye, c));
    AttachLeaf(head, None, Look(Eye, c));
    assert head.Model.children == t.children[..3];
    AttachLeaf(head, None, Look(Antenna, c));
    AttachLeaf(head, None, Look(Antenna, c));
    assert head.Model.children == t.children[..5];
    AttachLeaf(head, None, Look(AntennaTip, c));
    AttachLeaf(head, None, Look(AntennaTip, c));
    assert head.Model.children == t.children;
  }

  method CreateDetailedTorso(c: Palette) returns (torso: Node)
    ensures Built(torso, TorsoTree(c)) && fresh(torso.Repr)
  {
    var t := TorsoTree(c);
    torso := new Node(None, Empty);
    AttachLeaf(torso, Some(Torso.RawValue()), Look(TorsoShell, c));
    AttachLeaf(torso, None, Look(ChestPanel, c));
    assert torso.Model.children == t.children[..2];
    // circuit lines
    for i := 0 to 3
      invariant torso.Valid() && fresh(torso.Repr)
      invariant torso.Model.name == None && torso.Model.payload == Empty && torso.Model.animations == map[]
      invariant torso.Model.children == t.children[..2 + i]
    {
      AttachLeaf(torso, None, Look(Circuit, c));
    }
    AttachLeaf(torso, None, Look(Shoulder, c));
    AttachLeaf(torso, None, Look(Shoulder, c));
    assert torso.Model.children == t.children;
  }

  method CreateDetailedArm(c: Palette, isLeft: bool) returns (arm: Node)
    ensures Built(arm, ArmTree(c, isLeft)) && fresh(arm.Repr)
  {
    var t := ArmTree(c, isLeft);
    arm := new Node(None, Empty);
    var name := if isLeft then LeftArm.RawValue() else RightArm.RawValue();
    AttachLeaf(arm, Some(name), Look(UpperArm, c));
    AttachLeaf(arm, None, Look(Elbow, c));
    AttachLeaf(arm, None, Look(Forearm, c));
    AttachLeaf(arm, None, Look(Hand, c));
    assert arm.Model.children == t.children[..4];
    // fingers
    for i := 0 to 3
      invariant arm.Valid() && fresh(arm.Repr)
      invariant arm.Model.name == None && arm.Model.payload == Empty && arm.Model.animations == map[]
      invariant arm.Model.children == t.children[..4 + i]
    {
      AttachLeaf(arm, None, Look(Finger, c));
    }
    assert arm.Model.children == t.children;
  }

  method CreateDetailedLeg(c: Palette, isLeft: bool) returns (leg: Node)
    ensures Built(leg, LegTree(c, isLeft)) && fresh(leg.Repr)
  {
    var t := LegTree(c, isLeft);
    leg := new Node(None, Empty);
    var name := if isLeft then LeftLeg.RawValue() else RightLeg.RawValue();
    AttachLeaf(leg, Some(name), Look(Thigh, c));
    AttachLeaf(leg, None, Look(Knee, c));
    AttachLeaf(leg, None, Look(Calf, c));
    AttachLeaf(leg, None, Look(Foot, c));
    assert leg.Model.children == t.children[..4];
    // tread strips
    for i := 0 to 3
      invariant leg.Valid() && fresh(leg.Repr)
      invariant leg.Model.name == None && leg.Model.payload == Empty && leg.Model.animations == map[]
      invariant leg.Model.children == t.children[..4 + i]
    {
      AttachLeaf(leg, None, Look(Tread, c));
    }
    assert leg.Model.children == t.children;
  }

  /**
   * One step of `createDetailedRobot`: build the region for `part` with the
   * matching `createDetailed...` builder and attach it to `robotNode`.
   */
  method AttachRegion(robotNode: Node, c: Palette, part: RobotPart)
    requires robotNode.Valid()
    modifies robotNode
    ensures robotNode.Valid() && fresh(robotNode.Repr - old(robotNode.Repr))
    ensures robotNode.Model.name == old(robotNode.Model.name) && robotNode.Model.payload == old(robotNode.Model.payload)
    ensures robotNode.Model.animations == old(robotNode.Model.animations)
    ensures robotNode.Model.children == old(robotNode.Model.children) + [RegionTree(c, part)]
  {
    var region: Node;
    match part {
      case Head => region := CreateDetailedHead(c);
      case Torso => region := CreateDetailedTorso(c);
      case LeftArm => region := CreateDetailedArm(c, true);
      case RightArm => region := CreateDetailedArm(c, false);
      case LeftLeg => region := CreateDetailedLeg(c, true);
      case RightLeg => region := CreateDetailedLeg(c, false);
    }
    robotNode.AddChild(region);
  }

  /** The four limbs of `createDetailedRobot`: left arm, right arm, left leg, right leg, in that order. */
  method AttachLimbs(robotNode: Node, c: Palette)
    requires robotNode.Valid()
    modifies robotNode
    ensures robotNode.Valid() && fresh(robotNode.Repr - old(robotNode.Repr))
    ensures robotNode.Model.name == old(robotNode.Model.name) && robotNode.Model.payload == old(robotNode.Model.payload)
    ensures robotNode.Model.animations == old(robotNode.Model.animations)
    ensures robotNode.Model.children == old(robotNode.Model.children) +
      [RegionTree(c, LeftArm), RegionTree(c, RightArm), RegionTree(c, LeftLeg), RegionTree(c, RightLeg)]
  {
    AttachRegion(robotNode, c, LeftArm);
    AttachRegion(robotNode, c, RightArm);
    AttachRegion(robotNode, c, LeftLeg);
    AttachRegion(robotNode, c, RightLeg);
  }

  method CreateDetailedRobot(robot: RobotType) returns (robotNode: Node)
    ensures Built(robotNode, RobotTree(robot)) && fresh(robotNode.Repr)
  {
    robotNode := new Node(None, Empty);
    var colors := robot.ColorScheme();
    AttachRegion(robotNode, colors, Head);
    AttachRegion(robotNode, colors, Torso);
    assert robotNode.Model.children == [RegionTree(colors, Head), RegionTree(colors, Torso)];
    AttachLimbs(robotNode, colors);
  }

  /** The scene's root node with camera, ambient light, omni light and the robot. */
  method CreateDetailedRobotScene(robot: RobotType) returns (root: Node)
    ensures Built(root, SceneTree(robot)) && fresh(root.Repr)
  {
    root := new Node(None, Empty);
    AttachLeaf(root, None, Camera);
    AttachLeaf(root, None, Light(Ambient));
    AttachLeaf(root, None, Light(Omni));
    assert root.Model.children == [Leaf(Camera), Leaf(Light(Ambient)), Leaf(Light(Omni))];
    ghost var lights := root.Repr;
    assert fresh(lights);
    var robotNode := CreateDetailedRobot(robot);
    assert lights !! robotNode.Repr;
    root.AddChild(robotNode);
    assert root.Model.children == [Leaf(Camera), Leaf(Light(Ambient)), Leaf(Light(Omni)), RobotTree(robot)];
  }

  // ---------------------------------------------------------------------------
  // What the assembled robot looks like
  // ---------------------------------------------------------------------------

  /** The six part names, in the order the regions are attached (that of `AllParts()`). */
  function PartNames(): seq<string> {
    seq(|AllParts()|, i requires 0 <= i < |AllParts()| => AllParts()[i].RawValue())
  }

  /**
   * A region node for `part`: unnamed and empty itself, with seven leaf
   * children of which only the first, named after `part`, carries a name.
   */
  predicate RegionOf(t: Tree, part: RobotPart) {
    && t.name == None
    && t.payload == Empty
    && |t.children| == 7
    && t.children[0].name == Some(part.RawValue())
    && t.children[0].children == []
    && forall i :: 1 <= i < 7 ==> Decoration(t.children[i])
  }

  lemma RegionTreeIsRegion(c: Palette, part: RobotPart)
    ensures RegionOf(RegionTree(c, part), part)
  {
  }

  /** A region has eight nodes (itself and seven primitives) and exactly one name, its part's. */
  lemma {:induction false} RegionCounts(t: Tree, part: RobotPart)
    requires RegionOf(t, part)
    ensures Size(t) == 8
    ensures Names(t) == [part.RawValue()]
  {
    var rest := t.children[1..];
    assert t.children == [t.children[0]] + rest;
    SizeAllAppend([t.children[0]], rest);
    NamesAllAppend([t.children[0]], rest);
    DecorationsCount(rest);
    assert SizeAll([t.children[0]]) == Size(t.children[0]) + SizeAll([]);
    assert NamesAll([t.children[0]]) == Names(t.children[0]) + NamesAll([]);
  }

  /** A robot node: unnamed and empty, with the six regions of `AllParts()` as children, in order. */
  predicate RobotOf(t: Tree) {
    && t.name == None
    && t.payload == Empty
    && |t.children| == 6
    && forall i :: 0 <= i < 6 ==> RegionOf(t.children[i], AllParts()[i])
  }

  /**
   * The robot node has six region children, head, torso, left arm, right arm,
   * left leg, right leg in that order, each a region of seven primitives.
   */
  lemma RobotTreeIsRobot(robot: RobotType)
    ensures RobotOf(RobotTree(robot))
  {
    var c := robot.ColorScheme();
    forall i | 0 <= i < 6 ensures RegionOf(RobotTree(robot).children[i], AllParts()[i]) {
      RegionTreeIsRegion(c, AllParts()[i]);
    }
  }

  /** A robot node has 49 nodes and its named nodes are exactly the six part names, in order. */
  lemma {:induction false} RobotCounts(t: Tree)
    requires RobotOf(t)
    ensures Size(t) == 49
    ensures Names(t) == PartNames()
  {
    forall i | 0 <= i < 6
      ensures Size(t.children[i]) == 8
      ensures Names(t.children[i]) == [PartNames()[i]]
    {
      RegionCounts(t.children[i], AllParts()[i]);
    }
    SizeAllUniform(t.children, 8);
    NamesAllSingles(t.children, PartNames());
  }

  /**
   * A scene root: unnamed and empty, with exactly four children, camera,
   * ambient light, omni light and robot, in that order.
   */
  predicate SceneOf(t: Tree) {
    && t.name == None
    && t.payload == Empty
    && |t.children| == 4
    && t.children[0] == Leaf(Camera)
    && t.children[1] == Leaf(Light(Ambient))
    && t.children[2] == Leaf(Light(Omni))
    && RobotOf(t.children[3])
  }

  lemma SceneTreeIsScene(robot: RobotType)
    ensures SceneOf(SceneTree(robot))
  {
    RobotTreeIsRobot(robot);
  }

  /** A scene has 53 nodes, and its named nodes are exactly the six part names. */
  lemma {:induction false} SceneCounts(t: Tree)
    requires SceneOf(t)
    ensures Size(t) == 53
    ensures Names(t) == PartNames()
  {
    RobotCounts(t.children[3]);
    var lights := t.children[..3];
    assert t.children == lights + [t.children[3]];
    DecorationsCount(lights);
    SizeAllAppend(lights, [t.children[3]]);
    NamesAllAppend(lights, [t.children[3]]);
    assert SizeAll([t.children[3]]) == Size(t.children[3]) + SizeAll([]);
    assert NamesAll([t.children[3]]) == Names(t.children[3]) + NamesAll([]);
  }

  /** The six part names are pairwise distinct and each resolves back to its part. */
  lemma PartNamesDistinct()
    ensures forall i, j :: 0 <= i < j < |PartNames()| ==> PartNames()[i] != PartNames()[j]
    ensures forall i :: 0 <= i < |PartNames()| ==> PartNamed(PartNames()[i]) == Some(AllParts()[i])
  {
    AllPartsComplete();
    forall i, j | 0 <= i < j < 6 ensures PartNames()[i] != PartNames()[j] {
      assert PartNames()[i] == AllParts()[i].RawValue() && PartNames()[j] == AllParts()[j].RawValue();
      PartRawValueInjective(AllParts()[i], AllParts()[j]);
    }
    forall i | 0 <= i < 6 ensures PartNamed(PartNames()[i]) == Some(AllParts()[i]) {
      assert PartNames()[i] == AllParts()[i].RawValue();
      PartNameRoundTrip(AllParts()[i]);
    }
  }

  /** Every part's name is among the six part names. */
  lemma PartNamesCover()
    ensures forall p: RobotPart :: p.RawValue() in PartNames()
  {
    forall p: RobotPart ensures p.RawValue() in PartNames() {
      match p
      case Head => assert PartNames()[0] == p.RawValue();
      case Torso => assert PartNames()[1] == p.RawValue();
      case LeftArm => assert PartNames()[2] == p.RawValue();
      case RightArm => assert PartNames()[3] == p.RawValue();
      case LeftLeg => assert PartNames()[4] == p.RawValue();
      case RightLeg => assert PartNames()[5] == p.RawValue();
    }
  }

  /** Every one of the six names resolves to a part. */
  lemma PartNamesResolve()
    ensures forall n :: n in PartNames() ==> PartNamed(n).Some?
  {
    PartNamesDistinct();
    forall n | n in PartNames() ensures PartNamed(n).Some? {
      var i :| 0 <= i < 6 && PartNames()[i] == n;
    }
  }

  /**
   * In an assembled scene exactly one node carries each part's name and no
   * node carries any other name: six names, pairwise distinct, every part's
   * among them, every one resolving to a part.
   */
  lemma {:induction false} OneNamedNodePerPart(t: Tree)
    requires SceneOf(t)
    ensures |Names(t)| == 6
    ensures forall i, j :: 0 <= i < j < |Names(t)| ==> Names(t)[i] != Names(t)[j]
    ensures forall p: RobotPart :: p.RawValue() in Names(t)
    ensures forall n :: n in Names(t) ==> PartNamed(n).Some?
  {
    SceneCounts(t);
    PartNamesDistinct();
    PartNamesCover();
    PartNamesResolve();
  }
}
