/**
 * The offline mock-data service (src/services/mockData.ts): it scores the user's input against
 * the keyword list of each of nine response templates, applies a special rule for combined
 * analysis-and-chart requests, and answers with the best template's response.
 *
 * The literal datasets are represented by the name of the dataset each response carries; the
 * simulated network delay is left out.
 */
module MockData {
  import opened Text

  /** The nine templates, in the order `Object.entries` visits them (their declaration order). */
  datatype Template =
    | DataDisplay | StatisticalAnalysis | Visualization | MultiStep | TrendAnalysis
    | CategoryAnalysis | ComplexAnalysis | WorkPlanBarChart | PowerOutagePieChart

  /** The payload a response carries, named after the mock dataset it holds. */
  datatype Dataset =
    | DataDisplayData | StatisticalAnalysisData | VisualizationData | MultiStepData | TrendAnalysisData
    | CategoryAnalysisData | ComplexAnalysisData | WorkPlanBarChartData | PowerOutagePieChartData
    | EmptyResult  // `{ operation_type: null, title: '', result: [] }`

  /** `CompleteBackendResponse` as the mock service builds it. */
  datatype MockResponse = MockResponse(code: int, message: string, data: Dataset)

  const Templates: seq<Template> := [
    DataDisplay, StatisticalAnalysis, Visualization, MultiStep, TrendAnalysis,
    CategoryAnalysis, ComplexAnalysis, WorkPlanBarChart, PowerOutagePieChart
  ]

  function Keywords(t: Template): seq<string> {
    match t
    case DataDisplay => ["数据展示", "显示数据", "查看数据", "展示", "显示", "查看", "数据", "表格", "列表", "原始数据"]
    case StatisticalAnalysis => ["统计分析", "分析", "统计", "计算", "汇总", "求和", "平均", "最大", "最小", "合并"]
    case Visualization => ["可视化", "图表", "柱状图", "折线图", "饼图", "散点图", "图", "绘制", "画图", "生成图表"]
    case MultiStep => ["多步", "综合", "多个步骤", "分步", "逐步", "先...再", "然后"]
    case TrendAnalysis => ["趋势", "月度", "时间", "变化", "增长", "下降", "波动", "时序"]
    case CategoryAnalysis => ["分类", "原因", "占比", "比例", "分布", "构成", "组成"]
    case ComplexAnalysis => ["复杂", "完整", "季度", "年度", "全面", "详细", "深入"]
    case WorkPlanBarChart => ["作业计划数", "作业计划", "柱状图", "排序", "地市作业", "作业数量"]
    case PowerOutagePieChart => ["停电计划数", "停电占比", "饼状图", "饼图", "占比", "停电计划"]
  }

  function ResponseOf(t: Template): (r: MockResponse)
    ensures r.code == 200
  {
    match t
    case DataDisplay => MockResponse(200, "数据获取成功", DataDisplayData)
    case StatisticalAnalysis => MockResponse(200, "统计分析已完成", StatisticalAnalysisData)
    case Visualization => MockResponse(200, "可视化数据已准备好", VisualizationData)
    case MultiStep => MockResponse(200, "多步任务执行全部成功", MultiStepData)
    case TrendAnalysis => MockResponse(200, "趋势分析任务执行成功", TrendAnalysisData)
    case CategoryAnalysis => MockResponse(200, "分类分析任务执行成功", CategoryAnalysisData)
    case ComplexAnalysis => MockResponse(200, "复杂分析任务执行成功", ComplexAnalysisData)
    case WorkPlanBarChart => MockResponse(200, "多步任务执行全部成功", WorkPlanBarChartData)
    case PowerOutagePieChart => MockResponse(200, "多步任务执行全部成功", PowerOutagePieChartData)
  }

  /** The answer when no keyword matched. */
  const DefaultResponse := MockResponse(200, "数据获取成功", DataDisplayData)

  /** `inputLower.includes(keyword.toLowerCase())`. */
  predicate Hit(inputLower: string, keyword: string) {
    Contains(inputLower, Lower(keyword))
  }

  /** The number of entries among the first `|keywords|` that hit, counted left to right. */
  function Score(inputLower: string, keywords: seq<string>): nat
  {
    if keywords == [] then 0
    else Score(inputLower, keywords[..|keywords| - 1]) + (if Hit(inputLower, keywords[|keywords| - 1]) then 1 else 0)
  }

  /**
   * `calculateMatchScore(input, keywords)`, the score of the lowercased input: the number of
   * list positions whose keyword it contains, at most the length of the list.
   */
  function MatchScore(input: string, keywords: seq<string>): (n: nat)
    ensures n == |HitPositions(Lower(input), keywords)|
    ensures n <= |keywords|
  {
    ScoreCountsHits(Lower(input), keywords);
    Score(Lower(input), keywords)
  }

  /** `calculateMatchScore`: the `for` loop that adds one per keyword the lowercased input contains. */
  method CalculateMatchScore(input: string, keywords: seq<string>) returns (score: nat)
    ensures score == MatchScore(input, keywords)
    ensures score <= |keywords|
  {
    score := 0;
    var inputLower := Lower(input);
    for i := 0 to |keywords|
      invariant score == Score(inputLower, keywords[..i])
      invariant score <= i
    {
      assert keywords[..i + 1][..i] == keywords[..i];
      if Contains(inputLower, Lower(keywords[i])) {
        score := score + 1;
      }
    }
    assert keywords[..|keywords|] == keywords;
  }

  /** The positions of `keywords` whose entry hits. */
  function HitPositions(inputLower: string, keywords: seq<string>): set<nat> {
    set i: nat | i < |keywords| && Hit(inputLower, keywords[i])
  }

  /** The score counts hitting list entries, repeats included, so it lies between 0 and the list's length. */
  lemma {:induction false} ScoreCountsHits(inputLower: string, keywords: seq<string>)
    ensures Score(inputLower, keywords) == |HitPositions(inputLower, keywords)|
    ensures Score(inputLower, keywords) <= |keywords|
  {
    if keywords != [] {
      var n := |keywords| - 1;
      ScoreCountsHits(inputLower, keywords[..n]);
      HitPositionsSnoc(inputLower, keywords);
    }
  }

  /** Extending the list by one entry adds its position exactly when that entry hits. */
  lemma HitPositionsSnoc(inputLower: string, keywords: seq<string>)
    requires keywords != []
    ensures var n := |keywords| - 1;
      n !in HitPositions(inputLower, keywords[..n]) &&
      HitPositions(inputLower, keywords) ==
        HitPositions(inputLower, keywords[..n]) + (if Hit(inputLower, keywords[n]) then {n} else {})
  {
    var n := |keywords| - 1;
    assert forall i :: 0 <= i < n ==> keywords[..n][i] == keywords[i];
  }

  /** `keywords.some(…)`: the keywords are tried from the first, and the first hit decides. */
  function SomeHit(inputLower: string, keywords: seq<string>): (b: bool)
    ensures b <==> exists i :: 0 <= i < |keywords| && Hit(inputLower, keywords[i])
  {
    if keywords == [] then false
    else if Hit(inputLower, keywords[0]) then true
    else
      assert forall i :: 0 < i < |keywords| ==> keywords[1..][i - 1] == keywords[i];
      SomeHit(inputLower, keywords[1..])
  }

  /** `matchesAnyKeyword(input, keywords)`: some entry occurs in the lowercased input. */
  function MatchesAnyKeyword(input: string, keywords: seq<string>): (b: bool)
    ensures b <==> exists i :: 0 <= i < |keywords| && Hit(Lower(input), keywords[i])
  {
    SomeHit(Lower(input), keywords)
  }

  /** `matchesAnyKeyword` holds exactly when `calculateMatchScore` is positive. */
  lemma {:induction false} MatchesAnyIffPositiveScore(input: string, keywords: seq<string>)
    ensures MatchesAnyKeyword(input, keywords) <==> MatchScore(input, keywords) > 0
  {
    if keywords != [] {
      var n := |keywords| - 1;
      MatchesAnyIffPositiveScore(input, keywords[..n]);
      if MatchesAnyKeyword(input, keywords[..n]) {
        var i :| 0 <= i < n && Hit(Lower(input), keywords[..n][i]);
        assert Hit(Lower(input), keywords[i]);
      }
      if MatchesAnyKeyword(input, keywords) && !Hit(Lower(input), keywords[n]) {
        var i :| 0 <= i < |keywords| && Hit(Lower(input), keywords[i]);
        assert keywords[..n][i] == keywords[i];
      }
    }
  }

  /**
   * `scores.reduce((best, current) => current.score > best.score ? current : best)`: the index
   * of the earliest maximal score, because a tie keeps the earlier entry.
   */
  function BestIndex(scores: seq<nat>): (b: nat)
    requires |scores| > 0
    ensures b < |scores|
    ensures forall j :: 0 <= j < |scores| ==> scores[j] <= scores[b]
    ensures forall j :: 0 <= j < b ==> scores[j] < scores[b]
  {
    if |scores| == 1 then 0
    else
      var b := BestIndex(scores[..|scores| - 1]);
      if scores[|scores| - 1] > scores[b] then |scores| - 1 else b
  }

  /** The scores of the templates for an already-lowercased input, in template order. */
  function TemplateScores(input: string): (s: seq<nat>)
    ensures |s| == |Templates|
    ensures forall i :: 0 <= i < |Templates| ==> s[i] == MatchScore(input, Keywords(Templates[i]))
  {
    seq(|Templates|, i requires 0 <= i < |Templates| => MatchScore(input, Keywords(Templates[i])))
  }

  /** The special rule: the input mentions analysis and also a chart. */
  function AsksForAnalysisChart(input: string): (b: bool)
    ensures b <==> Contains(Lower(input), "分析") && (Contains(Lower(input), "图") || Contains(Lower(input), "可视化"))
  {
    ChartRuleHits(Lower(input));
    ContainsPrefix(Lower(input), "图表", "图");
    MatchesAnyKeyword(input, ["分析"]) && MatchesAnyKeyword(input, ["图表", "可视化", "图"])
  }

  /** Each list of the special rule is hit exactly when the input contains one of its words. */
  lemma ChartRuleHits(inputLower: string)
    ensures (exists i :: 0 <= i < 1 && Hit(inputLower, ["分析"][i])) <==> Contains(inputLower, "分析")
    ensures (exists i :: 0 <= i < 3 && Hit(inputLower, ["图表", "可视化", "图"][i])) <==>
      Contains(inputLower, "图表") || Contains(inputLower, "可视化") || Contains(inputLower, "图")
  {
    ChartWordsAreThemselves();
    var chart := ["图表", "可视化", "图"];
    assert Hit(inputLower, ["分析"][0]) <==> Contains(inputLower, "分析");
    assert Hit(inputLower, chart[0]) <==> Contains(inputLower, "图表");
    assert Hit(inputLower, chart[1]) <==> Contains(inputLower, "可视化");
    assert Hit(inputLower, chart[2]) <==> Contains(inputLower, "图");
  }

  /** The words of the special rule have no capitals, so lowercasing leaves them alone. */
  lemma ChartWordsAreThemselves()
    ensures Lower("分析") == "分析" && Lower("图表") == "图表" && Lower("可视化") == "可视化" && Lower("图") == "图"
  {
    LowerKeepsUncased("分析");
    LowerKeepsUncased("图表");
    LowerKeepsUncased("可视化");
    LowerKeepsUncased("图");
  }

  /** `fetchData(userInput)` without its simulated delay. */
  function FetchData(userInput: string): (r: MockResponse)
    ensures r.code == 200
  {
    var input := Lower(userInput);
    var scores := TemplateScores(input);
    var best := BestIndex(scores);
    if AsksForAnalysisChart(input) then ResponseOf(MultiStep)
    else if scores[best] > 0 then ResponseOf(Templates[best])
    else DefaultResponse
  }

  /** The analysis-and-chart rule overrides whatever template scores best. */
  lemma AnalysisChartOverridesBestMatch(userInput: string)
    requires AsksForAnalysisChart(Lower(userInput))
    ensures FetchData(userInput) == ResponseOf(MultiStep)
    ensures FetchData(userInput).message == "多步任务执行全部成功"
  {
  }

  /**
   * Without the special rule, a positive best score answers with the earliest template among
   * those of maximal score.
   */
  lemma BestTemplateAnswers(userInput: string, k: nat)
    requires k < |Templates|
    requires !AsksForAnalysisChart(Lower(userInput))
    requires MatchScore(Lower(userInput), Keywords(Templates[k])) > 0
    requires forall j :: 0 <= j < |Templates| ==>
      MatchScore(Lower(userInput), Keywords(Templates[j])) <= MatchScore(Lower(userInput), Keywords(Templates[k]))
    requires forall j :: 0 <= j < k ==>
      MatchScore(Lower(userInput), Keywords(Templates[j])) < MatchScore(Lower(userInput), Keywords(Templates[k]))
    ensures FetchData(userInput) == ResponseOf(Templates[k])
  {
    EarliestMaximumIsBest(TemplateScores(Lower(userInput)), k);
  }

  /** The earliest maximal score is the one the reduce picks: no other index is both maximal and strictly above all before it. */
  lemma EarliestMaximumIsBest(scores: seq<nat>, k: nat)
    requires k < |scores|
    requires forall j :: 0 <= j < |scores| ==> scores[j] <= scores[k]
    requires forall j :: 0 <= j < k ==> scores[j] < scores[k]
    ensures BestIndex(scores) == k
  {
    var best := BestIndex(scores);
    // neither can precede the other: each is strictly above everything before it
    assert scores[best] == scores[k];
  }

  /** When no keyword of any template occurs and the special rule does not fire, the data-display answer is given. */
  lemma NoKeywordGivesDataDisplay(userInput: string)
    requires !AsksForAnalysisChart(Lower(userInput))
    requires forall j :: 0 <= j < |Templates| ==> !MatchesAnyKeyword(Lower(userInput), Keywords(Templates[j]))
    ensures FetchData(userInput) == DefaultResponse
    ensures FetchData(userInput) == ResponseOf(DataDisplay)
  {
    var scores := TemplateScores(Lower(userInput));
    var best := BestIndex(scores);
    MatchesAnyIffPositiveScore(Lower(userInput), Keywords(Templates[best]));
  }

  /** The kinds `fetchErrorData` accepts; `Param` is its default. */
  datatype ErrorKind = Param | Server

  /** `fetchErrorData(errorType = 'param')`: code 400 for `param`, 500 otherwise, with the empty payload. */
  function FetchErrorData(kind: ErrorKind := Param): (r: MockResponse)
    ensures r.code == (if kind == Param then 400 else 500)
    ensures r.data == EmptyResult
  {
    if kind == Param then MockResponse(400, "请求参数错误：缺少必要的数据文件路径", EmptyResult)
    else MockResponse(500, "服务器内部错误：数据处理失败", EmptyResult)
  }
}
