/**
 * The two closed enumerations behind the robot screens: the four robot models
 * (`RobotType`) and the six selectable body regions (`RobotPart`), with their
 * string raw values and the per-case properties the views read.
 */
module RobotCatalog {
  import opened Wrappers

  /**
   * The named colours the views use; colour values themselves are not
   * modelled. The first twelve are SwiftUI `Color`s; the `UIKit` ones are the
   * `UIColor` constants SceneKit materials are painted with, which are
   * different colours from the SwiftUI ones of the same name.
   */
  datatype Color =
    | Mint | Cyan | Blue | Pink | Purple | Indigo
    | Orange | Yellow | Red | Green | Teal | White
    | UIKitCyan | UIKitBlue | UIKitRed

  /** A robot's three-colour palette (`colorScheme`). */
  datatype Palette = Palette(primary: Color, secondary: Color, accent: Color)

  datatype RobotType = TeslaOptimus | FigureAI | YushuG1 | ZhiyuanLingxi {

    /** The enum's `String` raw value, shown as the robot's title. */
    function RawValue(): string {
      match this
      case TeslaOptimus => "Tesla Optimus"
      case FigureAI => "Figure AI"
      case YushuG1 => "宇树 G1"
      case ZhiyuanLingxi => "智元灵犀"
    }

    function Description(): string {
      match this
      case TeslaOptimus => "特斯拉人形机器人"
      case FigureAI => "Figure AI 智能机器人"
      case YushuG1 => "宇树科技 G1 机器人"
      case ZhiyuanLingxi => "智元机器人 灵犀"
    }

    function ColorScheme(): Palette {
      match this
      case TeslaOptimus => Palette(Mint, Cyan, Blue)
      case FigureAI => Palette(Pink, Purple, Indigo)
      case YushuG1 => Palette(Orange, Yellow, Red)
      case ZhiyuanLingxi => Palette(Green, Teal, Mint)
    }

    function Icon(): string {
      match this
      case TeslaOptimus => "bolt.fill"
      case FigureAI => "brain.head.profile"
      case YushuG1 => "leaf.fill"
      case ZhiyuanLingxi => "sparkles"
    }
  }

  datatype RobotPart = Head | Torso | LeftArm | RightArm | LeftLeg | RightLeg {

    /** The enum's `String` raw value; it is also the name given to the part's scene node. */
    function RawValue(): string {
      match this
      case Head => "头部"
      case Torso => "躯干"
      case LeftArm => "左臂"
      case RightArm => "右臂"
      case LeftLeg => "左腿"
      case RightLeg => "右腿"
    }

    function Description(): string {
      match this
      case Head => "智能感知系统"
      case Torso => "核心处理单元"
      case LeftArm | RightArm => "精密机械臂"
      case LeftLeg | RightLeg => "动力驱动系统"
    }
  }

  /** `RobotType.allCases`, in declaration order. */
  function AllRobotTypes(): seq<RobotType> {
    [TeslaOptimus, FigureAI, YushuG1, ZhiyuanLingxi]
  }

  /** `RobotPart.allCases`, in declaration order. */
  function AllParts(): seq<RobotPart> {
    [Head, Torso, LeftArm, RightArm, LeftLeg, RightLeg]
  }

  /**
   * `parts.first(where: { $0.rawValue == name })`: the first part of `parts`
   * whose raw value equals `name`, or `None` when no part matches.
   */
  function FirstNamed(parts: seq<RobotPart>, name: string): (r: Option<RobotPart>)
    ensures r.Some? ==> r.value in parts && r.value.RawValue() == name
    ensures r.Some? ==> exists i :: 0 <= i < |parts| && parts[i] == r.value
                                   && forall j :: 0 <= j < i ==> parts[j].RawValue() != name
    ensures r.None? <==> forall p :: p in parts ==> p.RawValue() != name
  {
    if parts == [] then None
    else if parts[0].RawValue() == name then Some(parts[0])
    else
      var rest := FirstNamed(parts[1..], name);
      assert forall p :: p in parts ==> p == parts[0] || p in parts[1..];
      if rest.Some? then
        ghost var i :| 0 <= i < |parts[1..]| && parts[1..][i] == rest.value
                       && forall j :: 0 <= j < i ==> parts[1..][j].RawValue() != name;
        assert parts[i + 1] == rest.value;
        rest
      else rest
  }

  /** The lookup `handleTap` performs on a node name: `RobotPart.allCases.first(where:)`. */
  function PartNamed(name: string): (r: Option<RobotPart>)
    ensures r.Some? ==> r.value.RawValue() == name
    ensures r.None? <==> forall p: RobotPart :: p.RawValue() != name
  {
    AllPartsComplete();
    FirstNamed(AllParts(), name)
  }

  /** Every part occurs in `allCases` exactly once. */
  lemma AllPartsComplete()
    ensures |AllParts()| == 6
    ensures forall p: RobotPart :: p in AllParts()
    ensures forall i, j :: 0 <= i < j < |AllParts()| ==> AllParts()[i] != AllParts()[j]
  {
    forall p: RobotPart ensures p in AllParts() {
      match p
      case Head => assert AllParts()[0] == p;
      case Torso => assert AllParts()[1] == p;
      case LeftArm => assert AllParts()[2] == p;
      case RightArm => assert AllParts()[3] == p;
      case LeftLeg => assert AllParts()[4] == p;
      case RightLeg => assert AllParts()[5] == p;
    }
  }

  /** Every robot type occurs in `allCases` exactly once. */
  lemma AllRobotTypesComplete()
    ensures |AllRobotTypes()| == 4
    ensures forall r: RobotType :: r in AllRobotTypes()
    ensures forall i, j :: 0 <= i < j < |AllRobotTypes()| ==> AllRobotTypes()[i] != AllRobotTypes()[j]
  {
    forall r: RobotType ensures r in AllRobotTypes() {
      match r
      case TeslaOptimus => assert AllRobotTypes()[0] == r;
      case FigureAI => assert AllRobotTypes()[1] == r;
      case YushuG1 => assert AllRobotTypes()[2] == r;
      case ZhiyuanLingxi => assert AllRobotTypes()[3] == r;
    }
  }

  /** The six part raw values are pairwise distinct. */
  lemma PartRawValueInjective(p: RobotPart, q: RobotPart)
    ensures p.RawValue() == q.RawValue() <==> p == q
  {
  }

  /** The four robot raw values are pairwise distinct. */
  lemma RobotRawValueInjective(r: RobotType, s: RobotType)
    ensures r.RawValue() == s.RawValue() <==> r == s
  {
  }

  /** No two robots share a description, an icon or a palette. */
  lemma RobotPropertiesDistinct(r: RobotType, s: RobotType)
    requires r != s
    ensures r.Description() != s.Description()
    ensures r.Icon() != s.Icon()
    ensures r.ColorScheme() != s.ColorScheme()
  {
  }

  /** Left and right limbs share a description; otherwise parts are described differently. */
  lemma PartDescriptionSides(p: RobotPart, q: RobotPart)
    ensures p.Description() == q.Description() <==>
      p == q || {p, q} == {LeftArm, RightArm} || {p, q} == {LeftLeg, RightLeg}
  {
  }

  /** Part to name to part: looking a part's raw value up finds that very part. */
  lemma PartNameRoundTrip(p: RobotPart)
    ensures PartNamed(p.RawValue()) == Some(p)
  {
    var r := PartNamed(p.RawValue());
    PartRawValueInjective(r.value, p);
  }

  /** Name to part to name: a name that resolves at all is the raw value of what it resolves to. */
  lemma NamePartRoundTrip(name: string)
    ensures PartNamed(name).Some? <==> exists p: RobotPart :: p.RawValue() == name
    ensures PartNamed(name).Some? ==> PartNamed(name).value.RawValue() == name
  {
  }
}
