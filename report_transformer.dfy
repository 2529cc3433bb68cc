/**
 * `utils/reportTransformer.ts`: turns the blocks of a server test report into
 * the view models the report screen renders, and maps test-type ids to keys.
 * Everything here is a pure function of its input.
 */
module ReportTransformer {
  import opened Wrappers
  import opened Common

  // ---------------------------------------------------------------------------
  // Server blocks
  // ---------------------------------------------------------------------------

  /** The source calls `caption` fields `label`, a reserved word in Dafny. */
  datatype Badge = Badge(caption: string, desc: string)

  /** The `data` payload of one server block; `OtherData` stands for any payload of an unknown block. */
  datatype BlockData =
    | MatchingResultData(resultKey: string, score: Option<real>, desc: string)
    | KeywordTagData(tags: seq<string>)
    | QuoteImageData(quote: string, author: string, image: string)
    | RecommendationData(suggestions: seq<string>)
    | MultiDimensionalData(dimensions: seq<string>, scores: seq<real>)
    | RadarChartData(dimensions: seq<string>, scores: seq<real>)
    | BadgeData(badges: seq<Badge>)
    | GrowthPathData(steps: seq<string>)
    | VisualMeterData(caption: string, value: real, maxValue: real, unit: string)
    | TextProgressData(paragraphs: seq<string>)
    | OtherData

  /** One entry of the report's `components` list: a block type name and its payload. */
  datatype ServerComponent = ServerComponent(typeName: string, data: BlockData)

  datatype ServerReport = ServerReport(
    components: seq<ServerComponent>,
    testId: int,
    testName: string,
    hasAccess: bool)

  /** The ten block type names the dispatcher recognises, with the view type each becomes. */
  const BlockViewTypes: map<string, string> := map[
    "MatchingResultBlock" := "matchingResult",
    "KeywordTagBlock" := "keywordTag",
    "QuoteImageBlock" := "quoteImage",
    "RecommendationBox" := "recommendation",
    "MultiDimensionalBlock" := "multiDimensional",
    "RadarChartBlock" := "radar",
    "BadgeBlock" := "badge",
    "GrowthPathBlock" := "growthPath",
    "VisualMeterBlock" := "visualDashboard",
    "TextProgressBlock" := "textProgress"
  ]

  predicate IsKnownBlock(typeName: string) {
    typeName in BlockViewTypes
  }

  /**
   * The server sends, for each known block type, the payload of that type;
   * the dispatcher relies on it and does not check it.
   */
  predicate ShapeMatches(c: ServerComponent) {
    match c.typeName
    case "MatchingResultBlock" => c.data.MatchingResultData?
    case "KeywordTagBlock" => c.data.KeywordTagData?
    case "QuoteImageBlock" => c.data.QuoteImageData?
    case "RecommendationBox" => c.data.RecommendationData?
    case "MultiDimensionalBlock" => c.data.MultiDimensionalData?
    case "RadarChartBlock" => c.data.RadarChartData?
    case "BadgeBlock" => c.data.BadgeData?
    case "GrowthPathBlock" => c.data.GrowthPathData?
    case "VisualMeterBlock" => c.data.VisualMeterData?
    case "TextProgressBlock" => c.data.TextProgressData?
    case _ => true
  }

  // ---------------------------------------------------------------------------
  // View models
  // ---------------------------------------------------------------------------

  datatype Tag = Tag(caption: string, color: string)
  datatype Suggestion = Suggestion(id: int, content: string)
  datatype DimensionEntry = DimensionEntry(key: string, value: Option<real>, color: string, caption: string)
  datatype Trend = Up | Down
  datatype RadarEntry = RadarEntry(caption: string, value: Option<real>, color: string, trend: Trend)
  datatype BadgeView = BadgeView(title: string, description: string)
  datatype Stage = Stage(title: string, description: string, isCompleted: bool, isCurrentStage: bool)
  datatype Level = S | A | B | C | D
  datatype Section = Section(id: int, content: string, isCompleted: bool)

  datatype ViewData =
    | MatchingResultView(key: string, score: Option<real>, description: string, icon: Option<string>)
    | KeywordTagView(tags: seq<Tag>)
    | QuoteImageView(quote: string, author: string, imageUrl: string)
    | RecommendationView(suggestions: seq<Suggestion>)
    | MultiDimensionalView(dimensions: seq<DimensionEntry>)
    | RadarView(entries: seq<RadarEntry>)
    | BadgeListView(badges: seq<BadgeView>)
    | GrowthPathView(stages: seq<Stage>)
    | VisualDashboardView(currentValue: real, maxValue: real, level: Level, caption: string)
    | TextProgressView(sections: seq<Section>)

  datatype ViewComponent = ViewComponent(viewType: string, data: ViewData)

  datatype Report = Report(testId: int, testName: string, hasAccess: bool, components: seq<ViewComponent>)

  // ---------------------------------------------------------------------------
  // Lookup helpers
  // ---------------------------------------------------------------------------

  /** The five-colour palette indexed blocks cycle through. */
  const Palette: seq<string> := ["#FF6B6B", "#4ECDC4", "#45B7D1", "#96CEB4", "#FFEEAD"]

  /** `getColorByIndex(index)`: the palette entry at `index` modulo 5. */
  function ColorByIndex(index: nat): (r: string)
    ensures r in Palette
    ensures index < |Palette| ==> r == Palette[index]
  {
    Palette[index % |Palette|]
  }

  /** The palette repeats every five entries. */
  lemma ColorByIndexPeriodic(index: nat)
    ensures ColorByIndex(index + 5) == ColorByIndex(index)
  {
  }

  const TagColors: map<string, string> := map[
    "Creative" := "#FF6B6B",
    "Curious" := "#4ECDC4",
    "Adaptable" := "#45B7D1"
  ]

  const DefaultTagColor: string := "#96CEB4"

  /** `getTagColor(tag)`: the colour configured for the tag, "#96CEB4" for any other tag. */
  function TagColor(tag: string): (r: string)
    ensures tag !in TagColors ==> r == DefaultTagColor
    ensures tag in TagColors ==> r == TagColors[tag]
  {
    if tag in TagColors && TagColors[tag] != "" then TagColors[tag] else DefaultTagColor
  }

  const DimensionLabels: map<string, string> := map[
    "D" := "支配性",
    "I" := "影响力",
    "S" := "稳定性",
    "C" := "服从性"
  ]

  /** `getDimensionLabel(dimension)`: the configured label, or the key itself when there is none. */
  function DimensionLabel(dimension: string): (r: string)
    ensures dimension !in DimensionLabels ==> r == dimension
    ensures dimension in DimensionLabels ==> r == DimensionLabels[dimension]
  {
    if dimension in DimensionLabels && DimensionLabels[dimension] != "" then DimensionLabels[dimension]
    else dimension
  }

  const StageDescriptions: map<string, string> := map[
    "Explore interests" := "探索兴趣爱好，发现潜在发展方向",
    "Develop skills" := "培养核心技能，提升专业能力",
    "Build confidence" := "建立自信心，培养积极心态"
  ]

  /** `getStageDescription(stage)`: the configured description, or "" for an unknown stage. */
  function StageDescription(stage: string): (r: string)
    ensures stage !in StageDescriptions ==> r == ""
    ensures stage in StageDescriptions ==> r == StageDescriptions[stage]
  {
    if stage in StageDescriptions then StageDescriptions[stage] else ""
  }

  /** `getResultIcon(key)`: null for an empty key, otherwise the proxied image URL. */
  function ResultIcon(host: Option<string>, key: string): (r: Option<string>)
    ensures r.None? <==> key == ""
    ensures r.Some? ==> r.value == ImgProxy(host, Some(key))
  {
    if key == "" then None else Some(ImgProxy(host, Some(key)))
  }

  /** `calculateLevel(value)`: S from 90, A from 80, B from 70, C from 60, D below. */
  function CalculateLevel(value: real): (r: Level)
    ensures r == S <==> value >= 90.0
    ensures r == A <==> 80.0 <= value < 90.0
    ensures r == B <==> 70.0 <= value < 80.0
    ensures r == C <==> 60.0 <= value < 70.0
    ensures r == D <==> value < 60.0
  {
    if value >= 90.0 then S
    else if value >= 80.0 then A
    else if value >= 70.0 then B
    else if value >= 60.0 then C
    else D
  }

  /** The order of levels, D lowest. */
  function LevelRank(l: Level): nat {
    match l
    case D => 0
    case C => 1
    case B => 2
    case A => 3
    case S => 4
  }

  /** A higher value never earns a lower level. */
  lemma CalculateLevelMonotone(x: real, y: real)
    requires x <= y
    ensures LevelRank(CalculateLevel(x)) <= LevelRank(CalculateLevel(y))
  {
  }

  /** `scores[index]`, undefined when the score list is shorter than the dimension list. */
  function ScoreAt(scores: seq<real>, index: nat): Option<real> {
    if index < |scores| then Some(scores[index]) else None
  }

  // ---------------------------------------------------------------------------
  // The ten transformers
  // ---------------------------------------------------------------------------

  function TransformMatchingResult(host: Option<string>, resultKey: string, score: Option<real>, desc: string): (r: ViewData)
    ensures r.MatchingResultView? && r.key == resultKey && r.score == score && r.description == desc
    ensures r.icon == ResultIcon(host, resultKey)
  {
    MatchingResultView(resultKey, score, desc, ResultIcon(host, resultKey))
  }

  function TransformKeywordTags(tags: seq<string>): (r: seq<Tag>)
    ensures |r| == |tags|
    ensures forall i :: 0 <= i < |tags| ==> r[i].caption == tags[i] && r[i].color == TagColor(tags[i])
  {
    seq(|tags|, i requires 0 <= i < |tags| => Tag(tags[i], TagColor(tags[i])))
  }

  /** Suggestions are numbered 1..n in input order. */
  function TransformRecommendations(suggestions: seq<string>): (r: seq<Suggestion>)
    ensures |r| == |suggestions|
    ensures forall i :: 0 <= i < |r| ==> r[i].id == i + 1 && r[i].content == suggestions[i]
  {
    seq(|suggestions|, i requires 0 <= i < |suggestions| => Suggestion(i + 1, suggestions[i]))
  }

  function TransformMultiDimensional(dimensions: seq<string>, scores: seq<real>): (r: seq<DimensionEntry>)
    ensures |r| == |dimensions|
    ensures forall i :: 0 <= i < |r| ==>
      r[i] == DimensionEntry(dimensions[i], ScoreAt(scores, i), ColorByIndex(i), DimensionLabel(dimensions[i]))
  {
    seq(|dimensions|, i requires 0 <= i < |dimensions| =>
      DimensionEntry(dimensions[i], ScoreAt(scores, i), ColorByIndex(i), DimensionLabel(dimensions[i])))
  }

  function RadarTrend(score: Option<real>): Trend {
    if score.Some? && score.value > 15.0 then Up else Down
  }

  function TransformRadar(dimensions: seq<string>, scores: seq<real>): (r: seq<RadarEntry>)
    ensures |r| == |dimensions|
    ensures forall i :: 0 <= i < |r| ==>
      r[i].caption == dimensions[i] && r[i].value == ScoreAt(scores, i) && r[i].color == ColorByIndex(i)
    ensures forall i :: 0 <= i < |r| ==> (r[i].trend == Up <==> i < |scores| && scores[i] > 15.0)
  {
    seq(|dimensions|, i requires 0 <= i < |dimensions| =>
      RadarEntry(dimensions[i], ScoreAt(scores, i), ColorByIndex(i), RadarTrend(ScoreAt(scores, i))))
  }

  function TransformBadges(badges: seq<Badge>): (r: seq<BadgeView>)
    ensures |r| == |badges|
    ensures forall i :: 0 <= i < |r| ==> r[i].title == badges[i].caption && r[i].description == badges[i].desc
  {
    seq(|badges|, i requires 0 <= i < |badges| => BadgeView(badges[i].caption, badges[i].desc))
  }

  /** The first ⌊n/2⌋ steps are completed and step ⌊n/2⌋ is the current one. */
  function TransformGrowthPath(steps: seq<string>): (r: seq<Stage>)
    ensures |r| == |steps|
    ensures forall i :: 0 <= i < |r| ==>
      r[i].title == steps[i] && r[i].description == StageDescription(steps[i])
      && (r[i].isCompleted <==> i < |steps| / 2)
      && (r[i].isCurrentStage <==> i == |steps| / 2)
  {
    seq(|steps|, i requires 0 <= i < |steps| =>
      Stage(steps[i], StageDescription(steps[i]), i < |steps| / 2, i == |steps| / 2))
  }

  /** Every paragraph becomes a completed section, numbered 1..n in input order. */
  function TransformTextProgress(paragraphs: seq<string>): (r: seq<Section>)
    ensures |r| == |paragraphs|
    ensures forall i :: 0 <= i < |r| ==> r[i].id == i + 1 && r[i].content == paragraphs[i] && r[i].isCompleted
  {
    seq(|paragraphs|, i requires 0 <= i < |paragraphs| => Section(i + 1, paragraphs[i], true))
  }

  // ---------------------------------------------------------------------------
  // Growth-path counts
  // ---------------------------------------------------------------------------

  function CompletedCount(stages: seq<Stage>): nat {
    if stages == [] then 0
    else CompletedCount(stages[..|stages| - 1]) + (if stages[|stages| - 1].isCompleted then 1 else 0)
  }

  function CurrentCount(stages: seq<Stage>): nat {
    if stages == [] then 0
    else CurrentCount(stages[..|stages| - 1]) + (if stages[|stages| - 1].isCurrentStage then 1 else 0)
  }

  lemma {:induction false} CompletedPrefixCount(stages: seq<Stage>, k: nat)
    requires forall i :: 0 <= i < |stages| ==> (stages[i].isCompleted <==> i < k)
    ensures CompletedCount(stages) == if k < |stages| then k else |stages|
  {
    if stages != [] {
      CompletedPrefixCount(stages[..|stages| - 1], k);
    }
  }

  lemma {:induction false} CurrentSingleCount(stages: seq<Stage>, k: nat)
    requires forall i :: 0 <= i < |stages| ==> (stages[i].isCurrentStage <==> i == k)
    ensures CurrentCount(stages) == if k < |stages| then 1 else 0
  {
    if stages != [] {
      CurrentSingleCount(stages[..|stages| - 1], k);
    }
  }

  /**
   * A growth path of n steps has exactly ⌊n/2⌋ completed stages, exactly one
   * current stage when n > 0 and none when n = 0, and no stage is both.
   */
  lemma GrowthPathCounts(steps: seq<string>)
    ensures CompletedCount(TransformGrowthPath(steps)) == |steps| / 2
    ensures CurrentCount(TransformGrowthPath(steps)) == if |steps| > 0 then 1 else 0
    ensures forall i :: 0 <= i < |steps| ==>
      !(TransformGrowthPath(steps)[i].isCompleted && TransformGrowthPath(steps)[i].isCurrentStage)
  {
    CompletedPrefixCount(TransformGrowthPath(steps), |steps| / 2);
    CurrentSingleCount(TransformGrowthPath(steps), |steps| / 2);
  }

  // ---------------------------------------------------------------------------
  // Dispatch
  // ---------------------------------------------------------------------------

  /** The `switch` on `component.type`: a view component for a known block, null otherwise. */
  function TransformComponent(host: Option<string>, c: ServerComponent): (r: Option<ViewComponent>)
    requires ShapeMatches(c)
    ensures r.Some? <==> IsKnownBlock(c.typeName)
    ensures r.Some? ==> r.value.viewType == BlockViewTypes[c.typeName]
  {
    match c.typeName
    case "MatchingResultBlock" =>
      Some(ViewComponent("matchingResult",
        TransformMatchingResult(host, c.data.resultKey, c.data.score, c.data.desc)))
    case "KeywordTagBlock" =>
      Some(ViewComponent("keywordTag", KeywordTagView(TransformKeywordTags(c.data.tags))))
    case "QuoteImageBlock" =>
      Some(ViewComponent("quoteImage", QuoteImageView(c.data.quote, c.data.author, c.data.image)))
    case "RecommendationBox" =>
      Some(ViewComponent("recommendation", RecommendationView(TransformRecommendations(c.data.suggestions))))
    case "MultiDimensionalBlock" =>
      Some(ViewComponent("multiDimensional",
        MultiDimensionalView(TransformMultiDimensional(c.data.dimensions, c.data.scores))))
    case "RadarChartBlock" =>
      Some(ViewComponent("radar", RadarView(TransformRadar(c.data.dimensions, c.data.scores))))
    case "BadgeBlock" =>
      Some(ViewComponent("badge", BadgeListView(TransformBadges(c.data.badges))))
    case "GrowthPathBlock" =>
      Some(ViewComponent("growthPath", GrowthPathView(TransformGrowthPath(c.data.steps))))
    case "VisualMeterBlock" =>
      Some(ViewComponent("visualDashboard",
        VisualDashboardView(c.data.value, c.data.maxValue, CalculateLevel(c.data.value), c.data.caption)))
    case "TextProgressBlock" =>
      Some(ViewComponent("textProgress", TextProgressView(TransformTextProgress(c.data.paragraphs))))
    case _ => None
  }

  predicate AllShapesMatch(cs: seq<ServerComponent>) {
    forall i :: 0 <= i < |cs| ==> ShapeMatches(cs[i])
  }

  /** `components.map(...)`: one optional view per server component. */
  function MapComponents(host: Option<string>, cs: seq<ServerComponent>): (r: seq<Option<ViewComponent>>)
    requires AllShapesMatch(cs)
    ensures |r| == |cs|
    ensures forall i :: 0 <= i < |cs| ==> r[i] == TransformComponent(host, cs[i])
  {
    if cs == [] then [] else [TransformComponent(host, cs[0])] + MapComponents(host, cs[1..])
  }

  /** `.filter(Boolean)`: keeps the present views, in order. */
  function FilterPresent<T>(vs: seq<Option<T>>): (r: seq<T>)
    ensures |r| <= |vs|
  {
    if vs == [] then []
    else (if vs[0].Some? then [vs[0].value] else []) + FilterPresent(vs[1..])
  }

  /** `.filter(Boolean)` keeps exactly the present views: nothing is lost and nothing is added. */
  lemma {:induction false} FilterPresentMembers<T>(vs: seq<Option<T>>)
    ensures forall v :: v in FilterPresent(vs) <==> Some(v) in vs
  {
    if vs != [] {
      FilterPresentMembers(vs[1..]);
      assert vs == [vs[0]] + vs[1..];
    }
  }

  /** `transformTestReport(reportData)`. */
  function TransformTestReport(host: Option<string>, report: ServerReport): (r: Report)
    requires AllShapesMatch(report.components)
    ensures r.testId == report.testId && r.testName == report.testName && r.hasAccess == report.hasAccess
  {
    Report(report.testId, report.testName, report.hasAccess,
      FilterPresent(MapComponents(host, report.components)))
  }

  /** The server components of a known block type, in their original order. */
  function KnownComponents(cs: seq<ServerComponent>): seq<ServerComponent> {
    if cs == [] then []
    else (if IsKnownBlock(cs[0].typeName) then [cs[0]] else []) + KnownComponents(cs[1..])
  }

  lemma {:induction false} KnownComponentsMembers(cs: seq<ServerComponent>)
    ensures forall c :: c in KnownComponents(cs) <==> c in cs && IsKnownBlock(c.typeName)
  {
    if cs != [] {
      KnownComponentsMembers(cs[1..]);
      assert cs == [cs[0]] + cs[1..];
    }
  }

  lemma {:induction false} KnownComponentsShapes(cs: seq<ServerComponent>)
    requires AllShapesMatch(cs)
    ensures AllShapesMatch(KnownComponents(cs))
  {
    KnownComponentsMembers(cs);
  }

  /** `cs` with the components of an unknown block type blanked out. */
  function KnownTagged(cs: seq<ServerComponent>): (r: seq<Option<ServerComponent>>)
    ensures |r| == |cs|
  {
    seq(|cs|, j requires 0 <= j < |cs| => if IsKnownBlock(cs[j].typeName) then Some(cs[j]) else None)
  }

  /** Keeping the known components is filtering the tagged sequence. */
  lemma {:induction false} KnownAsFilter(cs: seq<ServerComponent>, off: nat)
    requires off <= |cs|
    ensures KnownComponents(cs[off..]) == FilterPresent(KnownTagged(cs)[off..])
    decreases |cs| - off
  {
    if off < |cs| {
      KnownAsFilter(cs, off + 1);
      var tagged := KnownTagged(cs);
      assert cs[off..][1..] == cs[off + 1..];
      assert tagged[off..][1..] == tagged[off + 1..];
      assert tagged[off..][0] == tagged[off];
    }
  }

  /** The positions `off`, `off + 1`, ... of the present entries of `vs`, in increasing order. */
  function PresentIndicesFrom<T>(vs: seq<Option<T>>, off: nat): (r: seq<nat>)
    ensures |r| <= |vs|
    ensures forall i :: 0 <= i < |r| ==> off <= r[i] < off + |vs|
  {
    if vs == [] then []
    else (if vs[0].Some? then [off] else []) + PresentIndicesFrom(vs[1..], off + 1)
  }

  /** `.filter(Boolean)` keeps, at position i, the entry at the i-th present position. */
  lemma {:induction false} FilterPresentAt<T>(vs: seq<Option<T>>, off: nat)
    requires off <= |vs|
    ensures |FilterPresent(vs[off..])| == |PresentIndicesFrom(vs[off..], off)|
    ensures forall i :: 0 <= i < |PresentIndicesFrom(vs[off..], off)| ==>
      Some(FilterPresent(vs[off..])[i]) == vs[PresentIndicesFrom(vs[off..], off)[i]]
    decreases |vs| - off
  {
    if off < |vs| {
      FilterPresentAt(vs, off + 1);
      var here := vs[off..];
      assert here[1..] == vs[off + 1..];
      var rest := PresentIndicesFrom(vs[off + 1..], off + 1);
      var tail := FilterPresent(vs[off + 1..]);
      var head := vs[off].Some?;
      assert PresentIndicesFrom(here, off) == (if head then [off] else []) + rest;
      assert FilterPresent(here) == (if head then [vs[off].value] else []) + tail;
      forall i | 0 <= i < |PresentIndicesFrom(here, off)|
        ensures Some(FilterPresent(here)[i]) == vs[PresentIndicesFrom(here, off)[i]]
      {
        var k := if head then i - 1 else i;
        if k >= 0 {
          assert FilterPresent(here)[i] == tail[k];
          assert PresentIndicesFrom(here, off)[i] == rest[k];
        }
      }
    }
  }

  /** Two sequences present at the same positions have the same present positions. */
  lemma {:induction false} SamePresence<A, B>(a: seq<Option<A>>, b: seq<Option<B>>, off: nat)
    requires |a| == |b| && off <= |a|
    requires forall j :: 0 <= j < |a| ==> (a[j].Some? <==> b[j].Some?)
    ensures PresentIndicesFrom(a[off..], off) == PresentIndicesFrom(b[off..], off)
    decreases |a| - off
  {
    if off < |a| {
      SamePresence(a, b, off + 1);
      assert a[off..][1..] == a[off + 1..];
      assert b[off..][1..] == b[off + 1..];
    }
  }

  lemma FilterMapIsKnown(host: Option<string>, cs: seq<ServerComponent>)
    requires AllShapesMatch(cs)
    ensures AllShapesMatch(KnownComponents(cs))
    ensures |FilterPresent(MapComponents(host, cs))| == |KnownComponents(cs)|
    ensures forall i :: 0 <= i < |KnownComponents(cs)| ==>
      Some(FilterPresent(MapComponents(host, cs))[i]) == TransformComponent(host, KnownComponents(cs)[i])
  {
    KnownComponentsShapes(cs);
    var mapped := MapComponents(host, cs);
    var tagged := KnownTagged(cs);
    assert cs[0..] == cs && mapped[0..] == mapped && tagged[0..] == tagged;
    KnownAsFilter(cs, 0);
    FilterPresentAt(mapped, 0);
    FilterPresentAt(tagged, 0);
    assert forall j :: 0 <= j < |cs| ==> (mapped[j].Some? <==> tagged[j].Some?);
    SamePresence(mapped, tagged, 0);
    var at := PresentIndicesFrom(mapped, 0);
    forall i | 0 <= i < |KnownComponents(cs)|
      ensures Some(FilterPresent(mapped)[i]) == TransformComponent(host, KnownComponents(cs)[i])
    {
      assert Some(KnownComponents(cs)[i]) == tagged[at[i]] == Some(cs[at[i]]);
    }
  }

  /**
   * The report keeps exactly the components of the ten known block types, in
   * their original order, each transformed by its block's transformer; every
   * other component is dropped.
   */
  lemma TransformTestReportKeepsKnown(host: Option<string>, report: ServerReport)
    requires AllShapesMatch(report.components)
    ensures AllShapesMatch(KnownComponents(report.components))
    ensures |TransformTestReport(host, report).components| == |KnownComponents(report.components)|
    ensures forall i :: 0 <= i < |KnownComponents(report.components)| ==>
      Some(TransformTestReport(host, report).components[i])
        == TransformComponent(host, KnownComponents(report.components)[i])
    ensures forall c :: c in KnownComponents(report.components) <==>
      c in report.components && IsKnownBlock(c.typeName)
  {
    FilterMapIsKnown(host, report.components);
    KnownComponentsMembers(report.components);
  }

  // ---------------------------------------------------------------------------
  // Test types
  // ---------------------------------------------------------------------------

  datatype TestTypeEntry = TestTypeEntry(id: int, key: string)

  const TypeList: seq<TestTypeEntry> := [
    TestTypeEntry(1, "personality"),
    TestTypeEntry(2, "emotion"),
    TestTypeEntry(3, "relationship"),
    TestTypeEntry(4, "career"),
    TestTypeEntry(5, "youth"),
    TestTypeEntry(6, "fun")
  ]

  /** `typeList.find((item) => item.id === id)?.key`. */
  function FindKeyById(list: seq<TestTypeEntry>, id: int): (r: Option<string>)
    ensures r.Some? ==> exists j :: 0 <= j < |list| && list[j] == TestTypeEntry(id, r.value)
  {
    if list == [] then None
    else if list[0].id == id then Some(list[0].key)
    else FindKeyById(list[1..], id)
  }

  /** `typeList.find((item) => item.key === key)?.id`. */
  function FindIdByKey(list: seq<TestTypeEntry>, key: string): (r: Option<int>)
    ensures r.Some? ==> exists j :: 0 <= j < |list| && list[j] == TestTypeEntry(r.value, key)
  {
    if list == [] then None
    else if list[0].key == key then Some(list[0].id)
    else FindIdByKey(list[1..], key)
  }

  function TestTypeKey(typeId: int): Option<string> {
    FindKeyById(TypeList, typeId)
  }

  function TestTypeId(typeKey: string): Option<int> {
    FindIdByKey(TypeList, typeKey)
  }

  lemma {:induction false} FindKeyByIdAt(list: seq<TestTypeEntry>, j: nat)
    requires j < |list|
    requires forall a, b :: 0 <= a < b < |list| ==> list[a].id != list[b].id
    ensures FindKeyById(list, list[j].id) == Some(list[j].key)
  {
    if j > 0 {
      FindKeyByIdAt(list[1..], j - 1);
    }
  }

  lemma {:induction false} FindIdByKeyAt(list: seq<TestTypeEntry>, j: nat)
    requires j < |list|
    requires forall a, b :: 0 <= a < b < |list| ==> list[a].key != list[b].key
    ensures FindIdByKey(list, list[j].key) == Some(list[j].id)
  {
    if j > 0 {
      FindIdByKeyAt(list[1..], j - 1);
    }
  }

  lemma TypeListShape()
    ensures |TypeList| == 6
    ensures forall j :: 0 <= j < 6 ==> TypeList[j].id == j + 1
    ensures forall a, b :: 0 <= a < b < 6 ==> TypeList[a].key != TypeList[b].key
  {
  }

  /**
   * Ids 1..6 have a key and map back to themselves; every other id has no key.
   */
  lemma TestTypeRoundTrip(typeId: int)
    ensures TestTypeKey(typeId).Some? <==> 1 <= typeId <= 6
    ensures 1 <= typeId <= 6 ==> TestTypeId(TestTypeKey(typeId).value) == Some(typeId)
  {
    TypeListShape();
    if 1 <= typeId <= 6 {
      FindKeyByIdAt(TypeList, typeId - 1);
      FindIdByKeyAt(TypeList, typeId - 1);
    }
  }

  /** Each of the six keys maps to an id that maps back to the same key. */
  lemma TestTypeKeyRoundTrip(j: nat)
    requires j < 6
    ensures TestTypeId(TypeList[j].key) == Some(j + 1)
    ensures TestTypeKey(j + 1) == Some(TypeList[j].key)
  {
    TypeListShape();
    FindIdByKeyAt(TypeList, j);
    FindKeyByIdAt(TypeList, j);
  }
}
