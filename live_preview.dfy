/**
 * The live-preview component of src/components/CodePreview/CodePreview.tsx around the source
 * normaliser: the bindings it hands to the renderer, the effect that reprocesses the compiled
 * code 500 ms after its last change, and the choice between the live view and a placeholder.
 *
 * The effect runs when `compiledCode` changes (and once on mount); a pending timer is the code it
 * will process. Time is represented by an explicit `Fire` event.
 */
module LivePreview {
  import opened Wrappers
  import opened Text
  import SourceNormalizer

  /** The delay of the processing timer, in milliseconds. */
  const ProcessDelayMs := 500

  /** What a name of the renderer's scope is bound to. */
  datatype Binding = ReactWithHooks | Hook(hook: string) | ECharts | ReactECharts

  /** The five hooks bound both at top level and inside `React`. */
  const Hooks: seq<string> := ["useState", "useEffect", "useCallback", "useRef", "useMemo"]

  /** The `scope` map: `React` (the module with its hooks), the five hooks themselves, `echarts` and `ReactECharts`. */
  const Scope: map<string, Binding> := map[
    "React" := ReactWithHooks,
    "useState" := Hook("useState"), "useEffect" := Hook("useEffect"), "useCallback" := Hook("useCallback"),
    "useRef" := Hook("useRef"), "useMemo" := Hook("useMemo"),
    "echarts" := ECharts, "ReactECharts" := ReactECharts
  ]

  /** The scope binds exactly eight names, and each hook name to React's hook of that name. */
  lemma ScopeBindings()
    ensures Scope.Keys == {"React", "echarts", "ReactECharts"} + (set h | h in Hooks)
    ensures forall h :: h in Hooks ==> h in Scope && Scope[h] == Hook(h)
  {
    assert (set h | h in Hooks) == {"useState", "useEffect", "useCallback", "useRef", "useMemo"};
  }

  /** The component's state: its `compiledCode` prop, its two state variables and the pending timer's code. */
  datatype PreviewState = PreviewState(
    compiledCode: string,
    processedCode: string,
    renderError: Option<string>,
    pending: Option<string>)

  /**
   * The effect body: the previous timer is cleared; empty code clears both state variables at
   * once; other code is scheduled for processing.
   */
  function Effect(s: PreviewState): (r: PreviewState)
    ensures r.compiledCode == s.compiledCode
    ensures s.compiledCode == "" ==> r.processedCode == "" && r.renderError.None? && r.pending.None?
    ensures s.compiledCode != "" ==>
      r.pending == Some(s.compiledCode) && r.processedCode == s.processedCode && r.renderError == s.renderError
  {
    if s.compiledCode == "" then s.(processedCode := "", renderError := None, pending := None)
    else s.(pending := Some(s.compiledCode))
  }

  /** The state after mounting with `compiledCode`. */
  function Initial(compiledCode: string): PreviewState {
    Effect(PreviewState(compiledCode, "", None, None))
  }

  /** A new `compiledCode` prop; the effect runs only when the value differs. */
  function PropStep(s: PreviewState, code: string): (r: PreviewState)
    ensures r.compiledCode == code
    ensures code == s.compiledCode ==> r == s
    ensures code != s.compiledCode && code == "" ==> r.processedCode == "" && r.renderError.None? && r.pending.None?
    ensures code != s.compiledCode && code != "" ==>
      r.pending == Some(code) && r.processedCode == s.processedCode && r.renderError == s.renderError
  {
    if code == s.compiledCode then s else Effect(s.(compiledCode := code))
  }

  /**
   * The timer fires: the code it holds is processed and the error cleared. `processCode` only
   * rethrows, and nothing it calls throws, so the `catch` arm that would set `renderError` is
   * never taken.
   */
  function FireStep(s: PreviewState): (r: PreviewState)
    ensures r.pending.None? && r.compiledCode == s.compiledCode
    ensures s.pending.None? ==> r == s
    ensures s.pending.Some? ==> r.processedCode == SourceNormalizer.Normalized(s.pending.value) && r.renderError.None?
  {
    match s.pending
    case None => s
    case Some(code) => s.(processedCode := SourceNormalizer.Normalized(code), renderError := None, pending := None)
  }

  datatype Event = Prop(code: string) | Fire

  function Step(s: PreviewState, e: Event): PreviewState {
    match e
    case Prop(code) => PropStep(s, code)
    case Fire => FireStep(s)
  }

  function Run(s: PreviewState, events: seq<Event>): PreviewState
    decreases |events|
  {
    if events == [] then s else Run(Step(s, events[0]), events[1..])
  }

  /**
   * The invariant of the component: a pending timer holds the current, non-empty code; with no
   * timer pending the processed code is that of the current code; no render error is ever set.
   */
  predicate Settled(s: PreviewState) {
    && (s.pending.Some? ==> s.pending.value == s.compiledCode && s.compiledCode != "")
    && (s.pending.None? ==> s.processedCode == SourceNormalizer.Normalized(s.compiledCode))
    && s.renderError.None?
  }

  lemma InitialSettled(compiledCode: string)
    ensures Settled(Initial(compiledCode))
  {
  }

  lemma StepKeepsSettled(s: PreviewState, e: Event)
    requires Settled(s)
    ensures Settled(Step(s, e))
  {
  }

  lemma {:induction false} RunKeepsSettled(s: PreviewState, events: seq<Event>)
    requires Settled(s)
    ensures Settled(Run(s, events))
    decreases |events|
  {
    if events != [] {
      StepKeepsSettled(s, events[0]);
      RunKeepsSettled(Step(s, events[0]), events[1..]);
    }
  }

  /**
   * Empty code clears the preview and its error at once, cancelling any timer. The effect does not
   * run again for a value equal to the current one, but then the state is clear already.
   */
  lemma EmptyCodeClearsAtOnce(s: PreviewState)
    requires Settled(s)
    ensures var r := PropStep(s, "");
      r.processedCode == "" && r.renderError.None? && r.pending.None?
  {
  }

  /** A new non-empty code leaves the preview as it was until the timer fires, then shows the new code processed. */
  lemma NewCodeProcessedWhenTimerFires(s: PreviewState, code: string)
    requires Settled(s)
    requires code != "" && code != s.compiledCode
    ensures PropStep(s, code).processedCode == s.processedCode
    ensures PropStep(s, code).pending == Some(code)
    ensures FireStep(PropStep(s, code)).processedCode == SourceNormalizer.Normalized(code)
  {
  }

  /** A burst of prop changes leaves the last value as the current code. */
  lemma {:induction false} PropsSetLastCode(s: PreviewState, codes: seq<string>)
    requires |codes| > 0
    ensures Run(s, Props(codes)).compiledCode == codes[|codes| - 1]
    decreases |codes|
  {
    PropsUnfold(codes);
    if |codes| > 1 {
      PropsSetLastCode(PropStep(s, codes[0]), codes[1..]);
    }
  }

  function Props(codes: seq<string>): (events: seq<Event>)
    ensures |events| == |codes|
    ensures forall i :: 0 <= i < |codes| ==> events[i] == Prop(codes[i])
  {
    seq(|codes|, i requires 0 <= i < |codes| => Prop(codes[i]))
  }

  lemma PropsUnfold(codes: seq<string>)
    requires |codes| > 0
    ensures Props(codes)[0] == Prop(codes[0]) && Props(codes)[1..] == Props(codes[1..])
  {
  }

  /**
   * Only the latest code is processed: however many values arrive before the timer fires, the
   * preview then shows the last one processed.
   */
  lemma BurstProcessesLastCode(s: PreviewState, codes: seq<string>)
    requires Settled(s) && |codes| > 0
    ensures Run(s, Props(codes) + [Fire]).processedCode == SourceNormalizer.Normalized(codes[|codes| - 1])
  {
    RunConcat(s, Props(codes), [Fire]);
    RunKeepsSettled(s, Props(codes));
    PropsSetLastCode(s, codes);
  }

  lemma {:induction false} RunConcat(s: PreviewState, a: seq<Event>, b: seq<Event>)
    ensures Run(s, a + b) == Run(Run(s, a), b)
    decreases |a|
  {
    if a != [] {
      assert (a + b)[0] == a[0] && (a + b)[1..] == a[1..] + b;
      RunConcat(Step(s, a[0]), a[1..], b);
    } else {
      assert a + b == b;
    }
  }

  /** What the component renders. */
  datatype View = Placeholder(heading: string, hint: string) | Live(code: string, scope: map<string, Binding>)

  const Waiting := "等待代码编译..."
  const CheckTheCode := "请检查代码是否正确"
  const PreviewAfterCompile := "编译完成后将显示预览"

  /** The placeholder condition and the two branches it chooses between. */
  function Render(error: Option<string>, s: PreviewState): (v: View)
    ensures v.Live? <==> !Truthy(error) && !Truthy(s.renderError) && s.compiledCode != "" && s.processedCode != ""
    ensures v.Live? ==> v.code == s.processedCode && v.scope == Scope
    ensures v.Placeholder? ==> v.heading == (if Truthy(error) then error.value else if Truthy(s.renderError) then s.renderError.value else Waiting)
    ensures v.Placeholder? ==> v.hint == (if Truthy(error) || Truthy(s.renderError) then CheckTheCode else PreviewAfterCompile)
  {
    if Truthy(error) || Truthy(s.renderError) || s.compiledCode == "" || s.processedCode == "" then
      Placeholder(OrElse(error, OrElse(s.renderError, Waiting)),
                  if Truthy(error) || Truthy(s.renderError) then CheckTheCode else PreviewAfterCompile)
    else Live(s.processedCode, Scope)
  }

  /**
   * Once settled with no timer pending and no compile error, the live view shows exactly the
   * normalised current code, whenever that is non-empty.
   */
  lemma SettledViewShowsNormalizedCode(error: Option<string>, s: PreviewState)
    requires Settled(s) && s.pending.None? && !Truthy(error)
    ensures Render(error, s).Live? <==> s.compiledCode != "" && SourceNormalizer.Normalized(s.compiledCode) != ""
    ensures Render(error, s).Live? ==> Render(error, s).code == SourceNormalizer.Normalized(s.compiledCode)
    ensures Render(error, s).Placeholder? ==> Render(error, s).heading == Waiting && Render(error, s).hint == PreviewAfterCompile
  {
  }

  /** The component, with its prop, state variables and timer as fields. */
  class Preview {
    var compiledCode: string
    var processedCode: string
    var renderError: Option<string>
    var debounceTimer: Option<string>

    function State(): PreviewState
      reads this
    {
      PreviewState(compiledCode, processedCode, renderError, debounceTimer)
    }

    ghost predicate Valid()
      reads this
    {
      Settled(State())
    }

    /** Mounting: the state starts empty and the effect runs once. */
    constructor (compiledCode: string)
      ensures State() == Initial(compiledCode)
      ensures Valid()
    {
      this.compiledCode := compiledCode;
      processedCode := "";
      renderError := None;
      if compiledCode == "" {
        debounceTimer := None;
      } else {
        debounceTimer := Some(compiledCode);
      }
    }

    /** A new `compiledCode` prop and the effect that follows a change. */
    method SetCompiledCode(code: string)
      requires Valid()
      modifies this
      ensures State() == PropStep(old(State()), code)
      ensures Valid()
    {
      if code == compiledCode {
        return;
      }
      compiledCode := code;
      debounceTimer := None;
      if code == "" {
        processedCode := "";
        renderError := None;
        return;
      }
      debounceTimer := Some(code);
    }

    /** The processing timer fires. */
    method TimerFires()
      requires Valid()
      modifies this
      ensures State() == FireStep(old(State()))
      ensures Valid()
    {
      if debounceTimer.None? {
        return;
      }
      var processed := SourceNormalizer.ProcessCode(debounceTimer.value);
      processedCode := processed;
      renderError := None;
      debounceTimer := None;
    }

    function View(error: Option<string>): View
      reads this
    {
      Render(error, State())
    }
  }
}
