/**
 * The preview panel (src/components/CodePreview/CodePreviewPanel.tsx): the status its header
 * shows, chosen by one priority order for both the subtitle and the colour, and the height
 * style of its container.
 */
module PreviewPanel {
  import opened Wrappers
  import opened Text

  /** The four outcomes the panel distinguishes, in priority order. */
  datatype Status = Compiling | Failed | Running | Waiting

  /** The priority order shared by `getSubtitle` and `getStatusVariant`. */
  function StatusOf(compiledCode: string, error: Option<string>, isCompiling: bool): (st: Status)
    ensures st == Compiling <==> isCompiling
    ensures st == Failed <==> !isCompiling && Truthy(error)
    ensures st == Running <==> !isCompiling && !Truthy(error) && compiledCode != ""
    ensures st == Waiting <==> !isCompiling && !Truthy(error) && compiledCode == ""
  {
    if isCompiling then Compiling
    else if Truthy(error) then Failed
    else if compiledCode != "" then Running
    else Waiting
  }

  const CompilingText := "编译中..."
  const FailedText := "编译失败"
  const RunningText := "运行中"
  const WaitingText := "等待编译"

  /** `getSubtitle`. */
  function GetSubtitle(compiledCode: string, error: Option<string>, isCompiling: bool): (r: string)
    ensures r == CompilingText <==> isCompiling
    ensures r == FailedText <==> !isCompiling && Truthy(error)
    ensures r == RunningText <==> !isCompiling && !Truthy(error) && compiledCode != ""
    ensures r == WaitingText <==> !isCompiling && !Truthy(error) && compiledCode == ""
  {
    if isCompiling then CompilingText
    else if Truthy(error) then FailedText
    else if compiledCode != "" then RunningText
    else WaitingText
  }

  /** `getStatusVariant`. */
  function GetStatusVariant(compiledCode: string, error: Option<string>, isCompiling: bool): (r: string)
    ensures r == "warning" <==> isCompiling
    ensures r == "error" <==> !isCompiling && Truthy(error)
    ensures r == "success" <==> !isCompiling && !Truthy(error) && compiledCode != ""
    ensures r == "default" <==> !isCompiling && !Truthy(error) && compiledCode == ""
  {
    if isCompiling then "warning"
    else if Truthy(error) then "error"
    else if compiledCode != "" then "success"
    else "default"
  }

  /** The subtitle and the colour of each status: each of the four has its own of both. */
  function StatusText(st: Status): (r: (string, string))
    ensures r.0 == CompilingText <==> st == Compiling
    ensures r.0 == FailedText <==> st == Failed
    ensures r.0 == RunningText <==> st == Running
    ensures r.0 == WaitingText <==> st == Waiting
    ensures r.1 == "warning" <==> st == Compiling
    ensures r.1 == "error" <==> st == Failed
    ensures r.1 == "success" <==> st == Running
    ensures r.1 == "default" <==> st == Waiting
  {
    match st
    case Compiling => (CompilingText, "warning")
    case Failed => (FailedText, "error")
    case Running => (RunningText, "success")
    case Waiting => (WaitingText, "default")
  }

  /** Subtitle and colour always come from the same branch: `运行中` exactly with `success`, and so on. */
  lemma SubtitleMatchesVariant(compiledCode: string, error: Option<string>, isCompiling: bool)
    ensures (GetSubtitle(compiledCode, error, isCompiling), GetStatusVariant(compiledCode, error, isCompiling))
         == StatusText(StatusOf(compiledCode, error, isCompiling))
    ensures GetSubtitle(compiledCode, error, isCompiling) == RunningText <==> GetStatusVariant(compiledCode, error, isCompiling) == "success"
    ensures GetSubtitle(compiledCode, error, isCompiling) == FailedText <==> GetStatusVariant(compiledCode, error, isCompiling) == "error"
  {
  }

  /** While compiling, the subtitle says so whatever the error and the code are. */
  lemma CompilingOutranksError(compiledCode: string, error: Option<string>)
    ensures GetSubtitle(compiledCode, error, true) == CompilingText
    ensures GetStatusVariant(compiledCode, error, true) == "warning"
  {
  }

  /** The panel's optional props; `None` is an omitted prop, which takes its default. */
  datatype PanelProps = PanelProps(title: Option<string>, showStatus: Option<bool>, height: Option<Height>)

  /** A `height` prop: a number of pixels, or any CSS length as a string. */
  datatype Height = Px(pixels: int) | Css(length: string)

  const DefaultTitle := "实时预览"
  const DefaultHeight := Css("500px")

  /** The title the header shows. */
  function HeaderTitle(props: PanelProps): (r: string)
    ensures props.title.None? ==> r == DefaultTitle
    ensures props.title.Some? ==> r == props.title.value
  {
    props.title.GetOr(DefaultTitle)
  }

  /** The header's subtitle: empty unless `showStatus` is set, which it is not by default. */
  function HeaderSubtitle(props: PanelProps, compiledCode: string, error: Option<string>, isCompiling: bool): (r: string)
    ensures props.showStatus != Some(true) ==> r == ""
    ensures props.showStatus == Some(true) ==> r == GetSubtitle(compiledCode, error, isCompiling) && r != ""
  {
    if props.showStatus.GetOr(false) then GetSubtitle(compiledCode, error, isCompiling) else ""
  }

  /** A height value is falsy when it is 0 or the empty string. */
  predicate FalsyHeight(h: Height) {
    match h
    case Px(n) => n == 0
    case Css(t) => t == ""
  }

  /** `containerStyle`: the CSS height to apply, or `None` for an empty style object. */
  function ContainerStyle(height: Option<Height>): (r: Option<string>)
    ensures height.None? ==> r == Some("500px")
    ensures height.Some? ==> (r.None? <==> FalsyHeight(height.value))
    ensures height.Some? && height.value.Css? && r.Some? ==> r.value == height.value.length
    ensures height.Some? && height.value.Px? && r.Some? ==> r.value == IntToString(height.value.pixels) + "px"
  {
    var h := height.GetOr(DefaultHeight);
    if FalsyHeight(h) then None
    else match h
      case Px(n) => Some(IntToString(n) + "px")
      case Css(t) => Some(t)
  }

  /**
   * A positive pixel height becomes its decimal digits followed by `px`, which read back as the
   * same number.
   */
  lemma PixelHeightReadsBack(n: nat)
    requires n > 0
    ensures var style := ContainerStyle(Some(Px(n))).value;
      |style| > 2 && style[|style| - 2..] == "px" &&
      (forall i :: 0 <= i < |style| - 2 ==> '0' <= style[i] <= '9') &&
      ParseDigits(style[..|style| - 2]) == n
  {
    NatToStringRoundTrip(n);
    var style := ContainerStyle(Some(Px(n))).value;
    assert style == NatToString(n) + "px";
    assert style[..|style| - 2] == NatToString(n);
  }
}
