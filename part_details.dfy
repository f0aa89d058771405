/**
 * The content tables of the part detail sheet (`RobotPartDetailView`) and
 * the category switch of the knowledge screens (`KnowledgeDetailView`):
 * total functions over closed enumerations and strings.
 */
module PartDetails {
  import opened RobotCatalog

  /** `getHardwareSpecs()`: five hardware bullet points per (robot, part). */
  function HardwareSpecs(robot: RobotType, part: RobotPart): (r: seq<string>)
    ensures |r| == 5
  {
    match (robot, part)
    case (TeslaOptimus, Head) =>
      ["• 8K 立体视觉传感器", "• 激光雷达阵列", "• 深度感知摄像头", "• 语音识别模块", "• 面部表情识别"]
    case (TeslaOptimus, Torso) =>
      ["• Tesla FSD 芯片", "• 神经网络处理器", "• 高容量电池组", "• 冷却系统", "• 无线通信模块"]
    case (TeslaOptimus, LeftArm) | (TeslaOptimus, RightArm) =>
      ["• 7自由度机械臂", "• 精密力传感器", "• 触觉反馈系统", "• 高速伺服电机", "• 防碰撞传感器"]
    case (TeslaOptimus, LeftLeg) | (TeslaOptimus, RightLeg) =>
      ["• 液压驱动系统", "• 平衡控制算法", "• 压力传感器", "• 关节限位器", "• 减震装置"]

    case (FigureAI, Head) =>
      ["• 4K 高清摄像头", "• 红外传感器", "• 麦克风阵列", "• 扬声器系统", "• 表情显示屏"]
    case (FigureAI, Torso) =>
      ["• Figure AI 大脑", "• 深度学习引擎", "• 行为规划算法", "• 学习适应系统", "• 人机交互AI"]
    case (FigureAI, LeftArm) | (FigureAI, RightArm) =>
      ["• 6自由度机械臂", "• 精密力传感器", "• 触觉反馈系统", "• 高速伺服电机", "• 防碰撞传感器"]
    case (FigureAI, LeftLeg) | (FigureAI, RightLeg) =>
      ["• 电动驱动系统", "• 平衡控制算法", "• 压力传感器", "• 关节限位器", "• 减震装置"]

    case (YushuG1, Head) =>
      ["• 双目视觉系统", "• 超声波传感器", "• 语音交互模块", "• LED状态指示", "• 触摸传感器"]
    case (YushuG1, Torso) =>
      ["• 宇树智能核心", "• 环境感知算法", "• 运动控制系统", "• 语音处理引擎", "• 情感计算模块"]
    case (YushuG1, LeftArm) | (YushuG1, RightArm) =>
      ["• 5自由度机械臂", "• 精密力传感器", "• 触觉反馈系统", "• 高速伺服电机", "• 防碰撞传感器"]
    case (YushuG1, LeftLeg) | (YushuG1, RightLeg) =>
      ["• 电动驱动系统", "• 平衡控制算法", "• 压力传感器", "• 关节限位器", "• 减震装置"]

    case (ZhiyuanLingxi, Head) =>
      ["• 全景摄像头", "• 激光测距仪", "• 语音合成器", "• 情感识别模块", "• 环境感知器"]
    case (ZhiyuanLingxi, Torso) =>
      ["• 灵犀AI处理器", "• 多模态融合", "• 智能决策系统", "• 知识图谱引擎", "• 自主学习算法"]
    case (ZhiyuanLingxi, LeftArm) | (ZhiyuanLingxi, RightArm) =>
      ["• 6自由度机械臂", "• 精密力传感器", "• 触觉反馈系统", "• 高速伺服电机", "• 防碰撞传感器"]
    case (ZhiyuanLingxi, LeftLeg) | (ZhiyuanLingxi, RightLeg) =>
      ["• 电动驱动系统", "• 平衡控制算法", "• 压力传感器", "• 关节限位器", "• 减震装置"]
  }

  /** `getSoftwareFeatures()`: five software bullet points per (robot, part). */
  function SoftwareFeatures(robot: RobotType, part: RobotPart): (r: seq<string>)
    ensures |r| == 5
  {
    match (robot, part)
    case (TeslaOptimus, Head) =>
      ["• 计算机视觉算法", "• 自然语言处理", "• 情感识别AI", "• 环境感知系统", "• 实时图像处理"]
    case (TeslaOptimus, Torso) =>
      ["• 中央控制系统", "• 任务调度算法", "• 能源管理系统", "• 安全监控系统", "• 学习算法框架"]
    case (TeslaOptimus, LeftArm) | (TeslaOptimus, RightArm) =>
      ["• 运动规划算法", "• 力控制算法", "• 抓取策略优化", "• 碰撞检测系统", "• 精确轨迹控制"]
    case (TeslaOptimus, LeftLeg) | (TeslaOptimus, RightLeg) =>
      ["• 步态规划算法", "• 平衡控制算法", "• 地形适应系统", "• 运动稳定性控制", "• 能耗优化算法"]

    case (FigureAI, Head) =>
      ["• 计算机视觉算法", "• 自然语言处理", "• 情感识别AI", "• 环境感知系统", "• 实时图像处理"]
    case (FigureAI, Torso) =>
      ["• 中央控制系统", "• 任务调度算法", "• 能源管理系统", "• 安全监控系统", "• 学习算法框架"]
    case (FigureAI, LeftArm) | (FigureAI, RightArm) =>
      ["• 运动规划算法", "• 力控制算法", "• 抓取策略优化", "• 碰撞检测系统", "• 精确轨迹控制"]
    case (FigureAI, LeftLeg) | (FigureAI, RightLeg) =>
      ["• 步态规划算法", "• 平衡控制算法", "• 地形适应系统", "• 运动稳定性控制", "• 能耗优化算法"]

    case (YushuG1, Head) =>
      ["• 计算机视觉算法", "• 自然语言处理", "• 情感识别AI", "• 环境感知系统", "• 实时图像处理"]
    case (YushuG1, Torso) =>
      ["• 中央控制系统", "• 任务调度算法", "• 能源管理系统", "• 安全监控系统", "• 学习算法框架"]
    case (YushuG1, LeftArm) | (YushuG1, RightArm) =>
      ["• 运动规划算法", "• 力控制算法", "• 抓取策略优化", "• 碰撞检测系统", "• 精确轨迹控制"]
    case (YushuG1, LeftLeg) | (YushuG1, RightLeg) =>
      ["• 步态规划算法", "• 平衡控制算法", "• 地形适应系统", "• 运动稳定性控制", "• 能耗优化算法"]

    case (ZhiyuanLingxi, Head) =>
      ["• 计算机视觉算法", "• 自然语言处理", "• 情感识别AI", "• 环境感知系统", "• 实时图像处理"]
    case (ZhiyuanLingxi, Torso) =>
      ["• 中央控制系统", "• 任务调度算法", "• 能源管理系统", "• 安全监控系统", "• 学习算法框架"]
    case (ZhiyuanLingxi, LeftArm) | (ZhiyuanLingxi, RightArm) =>
      ["• 运动规划算法", "• 力控制算法", "• 抓取策略优化", "• 碰撞检测系统", "• 精确轨迹控制"]
    case (ZhiyuanLingxi, LeftLeg) | (ZhiyuanLingxi, RightLeg) =>
      ["• 步态规划算法", "• 平衡控制算法", "• 地形适应系统", "• 运动稳定性控制", "• 能耗优化算法"]
  }

  /** `getTechnicalParams()`: five parameter lines; the switch ignores the part. */
  function TechnicalParams(robot: RobotType, part: RobotPart): (r: seq<string>)
    ensures |r| == 5
  {
    match (robot, part)
    case (TeslaOptimus, _) =>
      ["• 响应时间: < 5ms", "• 精度: ±0.05mm", "• 工作温度: -40°C ~ 80°C", "• 防护等级: IP68", "• 使用寿命: > 100,000小时"]
    case (FigureAI, _) =>
      ["• 响应时间: < 8ms", "• 精度: ±0.1mm", "• 工作温度: -20°C ~ 60°C", "• 防护等级: IP67", "• 使用寿命: > 80,000小时"]
    case (YushuG1, _) =>
      ["• 响应时间: < 10ms", "• 精度: ±0.15mm", "• 工作温度: -10°C ~ 50°C", "• 防护等级: IP66", "• 使用寿命: > 60,000小时"]
    case (ZhiyuanLingxi, _) =>
      ["• 响应时间: < 12ms", "• 精度: ±0.2mm", "• 工作温度: -15°C ~ 55°C", "• 防护等级: IP65", "• 使用寿命: > 70,000小时"]
  }

  /** One `DetailSection` of the sheet: title, accent colour and items. */
  datatype Section = Section(title: string, color: Color, items: seq<string>)

  /** The three sections the sheet lists, in order, coloured from the robot's palette. */
  function Sections(robot: RobotType, part: RobotPart): (r: seq<Section>)
    ensures |r| == 3
    ensures forall s :: s in r ==> |s.items| == 5
    ensures r[0].title == "硬件规格" && r[0].color == robot.ColorScheme().primary
    ensures r[1].title == "软件功能" && r[1].color == robot.ColorScheme().secondary
    ensures r[2].title == "技术参数" && r[2].color == robot.ColorScheme().accent
  {
    var c := robot.ColorScheme();
    [ Section("硬件规格", c.primary, HardwareSpecs(robot, part)),
      Section("软件功能", c.secondary, SoftwareFeatures(robot, part)),
      Section("技术参数", c.accent, TechnicalParams(robot, part)) ]
  }

  /** Left and right limbs share their tables. */
  lemma LimbSymmetry(robot: RobotType)
    ensures HardwareSpecs(robot, LeftArm) == HardwareSpecs(robot, RightArm)
    ensures HardwareSpecs(robot, LeftLeg) == HardwareSpecs(robot, RightLeg)
    ensures SoftwareFeatures(robot, LeftArm) == SoftwareFeatures(robot, RightArm)
    ensures SoftwareFeatures(robot, LeftLeg) == SoftwareFeatures(robot, RightLeg)
    ensures Sections(robot, LeftArm) == Sections(robot, RightArm)
    ensures Sections(robot, LeftLeg) == Sections(robot, RightLeg)
  {
  }

  /** The technical parameters depend on the robot alone. */
  lemma TechnicalParamsIgnorePart(robot: RobotType, p: RobotPart, q: RobotPart)
    ensures TechnicalParams(robot, p) == TechnicalParams(robot, q)
  {
  }

  /** The four robots' technical parameters are pairwise different. */
  lemma TechnicalParamsDistinguishRobots(r: RobotType, s: RobotType, part: RobotPart)
    ensures TechnicalParams(r, part) == TechnicalParams(s, part) <==> r == s
  {
    if r != s {
      assert TechnicalParams(r, part)[0] != TechnicalParams(s, part)[0];
    }
  }

  /** Conversely the software features depend on the part alone: all four robots list the same. */
  lemma SoftwareFeaturesIgnoreRobot(r: RobotType, s: RobotType, part: RobotPart)
    ensures SoftwareFeatures(r, part) == SoftwareFeatures(s, part)
  {
  }

  /**
   * The robots' arms differ only in their first item, the degrees of
   * freedom: every other hardware line of an arm is common to all four.
   */
  lemma ArmsDifferOnlyInFreedom(r: RobotType, s: RobotType)
    ensures HardwareSpecs(r, LeftArm)[1..] == HardwareSpecs(s, LeftArm)[1..]
  {
  }

  /** The screens behind the knowledge categories, plus the fallback. */
  datatype KnowledgeContent =
    | HardwareSystems | SoftwareAI | ControlPlanning | PerceptionSensing
    | LearningAdaptation | DatasetsBenchmarks | ResearchPapers | DevelopmentTools
    | ComingSoon

  /**
   * `KnowledgeDetailView`'s `switch category`: exact string match, default
   * last. A category falls to "coming soon" exactly when it is no card's title.
   */
  function ContentFor(category: string): (r: KnowledgeContent)
    ensures r == ComingSoon <==> forall i :: 0 <= i < |KnowledgeCards()| ==> KnowledgeCards()[i].title != category
  {
    var titles := seq(8, i requires 0 <= i < 8 => KnowledgeCards()[i].title);
    assert titles == ["Hardware Systems", "Software & AI", "Control & Planning", "Perception & Sensing",
                      "Learning & Adaptation", "Datasets & Benchmarks", "Research Papers", "Development Tools"];
    var r := match category
      case "Hardware Systems" => HardwareSystems
      case "Software & AI" => SoftwareAI
      case "Control & Planning" => ControlPlanning
      case "Perception & Sensing" => PerceptionSensing
      case "Learning & Adaptation" => LearningAdaptation
      case "Datasets & Benchmarks" => DatasetsBenchmarks
      case "Research Papers" => ResearchPapers
      case "Development Tools" => DevelopmentTools
      case _ => ComingSoon;
    assert r == ComingSoon <==> category !in titles;
    r
  }

  /** A `KnowledgeCategoryCard`; its link opens `KnowledgeDetailView(category: title)`. */
  datatype Card = Card(title: string, subtitle: string, icon: string, color: Color)

  /** The eight cards of the knowledge screen, top to bottom. */
  function KnowledgeCards(): seq<Card> {
    [ Card("Hardware Systems", "机械结构、传感器、执行器", "gearshape.2.fill", Blue),
      Card("Software & AI", "算法、机器学习、控制系统", "brain.head.profile", Purple),
      Card("Control & Planning", "运动控制、路径规划、任务执行", "target", Green),
      Card("Perception & Sensing", "视觉、触觉、多模态感知", "eye.fill", Orange),
      Card("Learning & Adaptation", "强化学习、模仿学习、迁移学习", "graduationcap.fill", Pink),
      Card("Datasets & Benchmarks", "训练数据、评估标准、基准测试", "database.fill", Cyan),
      Card("Research Papers", "最新论文、技术趋势、前沿研究", "doc.text.fill", Red),
      Card("Development Tools", "仿真环境、开发框架、调试工具", "hammer.fill", Yellow) ]
  }

  /** The content each card leads to, in card order. */
  function CardContents(): seq<KnowledgeContent> {
    [ HardwareSystems, SoftwareAI, ControlPlanning, PerceptionSensing,
      LearningAdaptation, DatasetsBenchmarks, ResearchPapers, DevelopmentTools ]
  }

  /** Every card reaches its own non-default screen, and no two cards share one. */
  lemma CardsReachTheirContent()
    ensures |KnowledgeCards()| == |CardContents()| == 8
    ensures forall i :: 0 <= i < 8 ==> ContentFor(KnowledgeCards()[i].title) == CardContents()[i]
    ensures forall i :: 0 <= i < 8 ==> CardContents()[i] != ComingSoon
    ensures forall i, j :: 0 <= i < j < 8 ==> CardContents()[i] != CardContents()[j]
  {
  }

}
