# Compile-and-preview pipeline of the TSX chat front end, in Dafny

This project models the part of the front end that compiles and previews generated TSX, together
with the small decision functions that decide what the user sees:

- **CodeCompiler** (`code_compiler.dfy`). The recompile scheduler of `useCodeCompiler`:
  - a debounce timer in front of an asynchronous compile;
  - a request id that only grows, so a compile publishes its outcome only while it is still the
    latest one started.

  The transitions are pure functions over a `CompilerState`; lemmas about them cover arbitrary
  event sequences. The class `Compiler` holds the hook's fields, and each of its methods is proved
  to follow its transition. Babel is an uninterpreted outcome (`BabelMissing`, `Transformed(code)`,
  `Threw(message)`) handed to `Resolve`.
- **SourceNormalizer** (`normalizer.dfy`). `processCode`: it deletes import statements, turns the
  first `export default <word>` into a `render(<word />)` trailer, and otherwise names the first
  declaration matched by four fallback patterns. Each regular expression is a hand-written matcher
  with JavaScript's semantics for `\s`, `\w`, `.`, greedy runs and lazy `.*?`. `ProcessCode` is the
  imperative version (reassignments, and a loop over the patterns with `break`), proved equal to
  `Normalized`.
- **LivePreview** (`live_preview.dfy`). The live-preview component around `processCode`:
  - the renderer's scope map;
  - the effect that reprocesses the latest code 500 ms after it changes;
  - the placeholder-or-live choice.
- **FramePreview** (`frame_preview.dfy`). The iframe variant:
  - the exact HTML page the code is spliced into, split into three fixed pieces around the `try`
    block and the `MyComponent` mounting line;
  - reading the code back out of a document;
  - the placeholder-or-frame choice.

  The lemmas hold for any page with that structure, and `DocumentRoundTrip` for the component's own.
- **PreviewPanel** (`preview_panel.dfy`). The status priority shared by the subtitle and the colour,
  and the container height style.
- **EditorPanel** (`editor_panel.dfy`). The dismiss flag of the error box and the edits forwarded to
  `onChange`.
- **Http** (`http.dfy`), **Api** (`api.dfy`) and **MockData** (`mock_data.dfy`).
  The response classifiers:
  - `handleError` and the uniform response wrapping of the HTTP client;
  - the envelope checks of the API service;
  - the keyword scoring and template selection of the offline mock service.

  The network is replaced by the transport's outcome, passed in as a value.
- **Text** (`text.dfy`) and **Wrappers** (`wrappers.dfy`). Shared definitions:
  - JavaScript's `trim`, `includes` and `||` on optional strings;
  - ASCII lowercasing;
  - decimal rendering of integers;
  - `Option`.

Behaviour of the code worth knowing:

- `export default function Foo()` mounts `function`, not `Foo`: the `(\w+)` group captures the
  keyword (`ExportDefaultFunctionNamesKeyword`).
- Without an `export default`, the entry name comes from the first fallback pattern, in listed
  order, that matches anywhere in the text, not from the component defined last
  (`FirstNameIsFirstMatchingPattern`, `FunctionPatternBeatsConstForms`).
- A blank submission resets the published fields without allocating an id, so a run started
  before it still publishes afterwards (`BlankDoesNotSupersedeRun`).

## Model

| member | source | states |
|---|---|---|
| CodeCompiler.FailureMessage | src/utils/useCodeCompiler.ts:78-94 | A failed transform's message is the thrown message, or `编译失败` when that is empty; a missing Babel gives its own message; the result is never empty |
| CodeCompiler.InternalStep | src/utils/useCodeCompiler.ts:57-67 | Blank or whitespace-only source clears `compiledCode`, `error` and `isCompiling` and takes no id; other source is started as run `latestId + 1` (so ids start at 1) on that very source, sets `isCompiling` and clears `error`; the invariant holds afterwards |
| CodeCompiler.ResolveStep | src/utils/useCodeCompiler.ts:69-104 | A run whose id is no longer the latest answers `编译请求已取消` and changes nothing; the latest run publishes its code with no error, or its error with empty code; both end `isCompiling`; the invariant is preserved |
| CodeCompiler.DebounceStep | src/utils/useCodeCompiler.ts:113-126 | Any pending timer is replaced by one for the new code with the configured delay; non-blank code sets `isCompiling` at once; nothing else changes |
| CodeCompiler.TimerStep | src/utils/useCodeCompiler.ts:123-125 | A firing timer is used up and runs the pre-wait part of `compileInternal` on its code; without a timer nothing happens |
| CodeCompiler.ClearErrorStep | src/utils/useCodeCompiler.ts:129-131 | Only `error` changes, to null |
| CodeCompiler.UnmountStep | src/utils/useCodeCompiler.ts:134-140 | The unmount cleanup cancels the pending timer and changes nothing else |
| CodeCompiler.CompileStep | src/utils/useCodeCompiler.ts:107-148 | The returned `compile` is `debouncedCompile` when `autoCompile` is set; otherwise it calls `compileInternal` at once and leaves the timer alone |
| CodeCompiler.RunKeepsConsistent | src/utils/useCodeCompiler.ts:30-31 | Over any sequence of events, a non-null `error` always comes with empty `compiledCode` |
| CodeCompiler.RunNeverLowersId | src/utils/useCodeCompiler.ts:65 | The request id never decreases over any sequence of events |
| CodeCompiler.BurstLeavesOneTimer | src/utils/useCodeCompiler.ts:113-126 | A burst of auto-mode `compile` calls starts nothing and publishes nothing: it leaves exactly one timer, for the last code, and `isCompiling` set if any code was non-blank |
| CodeCompiler.BurstCompilesLastSource | src/utils/useCodeCompiler.ts:113-126 | After a burst, the timer firing starts run `latestId + 1` on exactly the last code of the burst; a blank last code instead finishes at once with empty code and takes no id |
| CodeCompiler.EarlierRunIsDiscarded | src/utils/useCodeCompiler.ts:65-76 | Once a later non-blank compile has started, an earlier run resolves as cancelled and changes nothing, whatever events came between and after |
| CodeCompiler.BlankDoesNotSupersedeRun | src/utils/useCodeCompiler.ts:58-63 | A blank submission clears the fields but takes no id, so a run started before it still publishes its output |
| CodeCompiler.Compiler.constructor | src/utils/useCodeCompiler.ts:26-35 | Options default to 500 ms and auto mode; the state starts empty, with id 0 and no timer |
| CodeCompiler.Compiler.CompileInternal | src/utils/useCodeCompiler.ts:57-67 | Updates the fields and the id counter as `InternalStep` says and returns the launch |
| CodeCompiler.Compiler.Resolve | src/utils/useCodeCompiler.ts:69-104 | Updates the fields as `ResolveStep` says and returns the `CompilerResult` |
| CodeCompiler.Compiler.DebouncedCompile | src/utils/useCodeCompiler.ts:113-126 | Replaces the timer and sets `isCompiling` as `DebounceStep` says |
| CodeCompiler.Compiler.TimerFires | src/utils/useCodeCompiler.ts:123-125 | Clears the timer and runs `CompileInternal` on its code, as `TimerStep` says |
| CodeCompiler.Compiler.Compile | src/utils/useCodeCompiler.ts:142-148 | Dispatches on `autoCompile` as `CompileStep` says |
| CodeCompiler.Compiler.ClearError | src/utils/useCodeCompiler.ts:129-131 | Sets only `error` to null |
| CodeCompiler.Compiler.Unmount | src/utils/useCodeCompiler.ts:134-140 | Cancels the pending timer |
| CodeCompiler.TwoQuickSubmissions | src/utils/useCodeCompiler.ts:57-126 | A usage scenario on a freshly mounted hook in auto mode: the first `compile` starts nothing, the timer starts run 1 on the second source only, and that run publishes its output |
| SourceNormalizer.MatchAt | src/components/CodePreview/CodePreview.tsx:37-53 | A token pattern matches within the text; the captured group of a pattern with `(\w+)` is a non-empty word |
| SourceNormalizer.Find | src/components/CodePreview/CodePreview.tsx:37 | The leftmost match: it matches at its start, and no earlier position matches; no result means no position matches |
| SourceNormalizer.ImportAt | src/components/CodePreview/CodePreview.tsx:34 | The import pattern at one position: `import`, a white-space run, the first `from` clause on the same line, the quoted module, an optional `;` and trailing white space; every match is at least 14 characters long |
| SourceNormalizer.FindImport | src/components/CodePreview/CodePreview.tsx:34 | The leftmost import statement at or after a position, and no match before it |
| SourceNormalizer.StripFrom | src/components/CodePreview/CodePreview.tsx:34 | The global replace from a position on is never longer than the rest of the text, and strictly shorter once an import statement matches there |
| SourceNormalizer.StripImports | src/components/CodePreview/CodePreview.tsx:34 | The import pass never lengthens the text, and leaves it unchanged exactly when no import statement matches |
| SourceNormalizer.StripImportsUnchangedIff | src/components/CodePreview/CodePreview.tsx:34 | The global replace leaves the text unchanged exactly when no import statement matches anywhere |
| SourceNormalizer.NoImportKeywordUnchanged | src/components/CodePreview/CodePreview.tsx:34 | Text in which `import` never occurs passes the import pass untouched |
| SourceNormalizer.StripImportsKeepsOrder | src/components/CodePreview/CodePreview.tsx:34 | The import pass only deletes: the result is a subsequence of its input, the kept text in its order |
| SourceNormalizer.FirstNameIsFirstMatchingPattern | src/components/CodePreview/CodePreview.tsx:44-58 | The fallback name comes from the first pattern in listed order that matches anywhere, every earlier pattern matching nowhere; there is no name exactly when no pattern matches |
| SourceNormalizer.FirstName | src/components/CodePreview/CodePreview.tsx:44-58 | The fallback search finds no name exactly when none of the patterns matches anywhere |
| SourceNormalizer.MountEntry | src/components/CodePreview/CodePreview.tsx:36-62 | With no pattern matching, the text is unchanged; once `export default` or a fallback matches, the text ends with a `render(<Name />)` trailer naming a `\w+` word |
| SourceNormalizer.Normalized | src/components/CodePreview/CodePreview.tsx:27-65 | `processCode` gives "" for empty code, and code in which `import` never occurs goes straight to the mounting step |
| SourceNormalizer.MountEntryShape | src/components/CodePreview/CodePreview.tsx:37-62 | The mounted text is either the text untouched, when no pattern matches, or the text with one span cut out followed by exactly one `render(<N />)` trailer naming a word |
| SourceNormalizer.NormalizedShape | src/components/CodePreview/CodePreview.tsx:27-65 | Empty code gives ""; other code gives its import-free text (a subsequence of it), mounted with at most one trailer |
| SourceNormalizer.ExportDefaultWins | src/components/CodePreview/CodePreview.tsx:37-41 | With an `export default`, the leftmost one is cut out and the trailer names its captured word; later text is kept |
| SourceNormalizer.FunctionPatternBeatsConstForms | src/components/CodePreview/CodePreview.tsx:44-61 | Without an `export default`, a `function X(` anywhere names the entry, whatever `const` forms appear earlier |
| SourceNormalizer.NoEntryPointLeavesTextAlone | src/components/CodePreview/CodePreview.tsx:60-65 | With neither an `export default` nor a fallback match, the output is the import-free text with no trailer |
| SourceNormalizer.ExportDefaultFunctionNamesKeyword | src/components/CodePreview/CodePreview.tsx:37-41 | `export default function …` mounts `<function />`: the group captures the keyword, and everything after it is kept |
| SourceNormalizer.ProcessCode | src/components/CodePreview/CodePreview.tsx:27-70 | The imperative `processCode`, with its reassignments and its loop with `break`, returns exactly `Normalized(code)` |
| LivePreview.ScopeBindings | src/components/CodePreview/CodePreview.tsx:73-89 | The scope binds exactly `React`, the five hooks, `echarts` and `ReactECharts`, each hook to React's hook of that name |
| LivePreview.Effect | src/components/CodePreview/CodePreview.tsx:92-116 | Empty code clears `processedCode` and `renderError` and cancels the timer; other code schedules itself for processing and leaves the state as it was |
| LivePreview.PropStep | src/components/CodePreview/CodePreview.tsx:92-123 | The prop becomes the current code; an unchanged value changes nothing, since the effect does not run; a changed empty value clears the preview, its error and the timer; a changed non-empty value schedules it and leaves the preview as it was |
| LivePreview.FireStep | src/components/CodePreview/CodePreview.tsx:104-115 | The timer is used up; with one pending, the preview becomes `processCode` of its code and the error is cleared; with none, nothing changes |
| LivePreview.StepKeepsSettled | src/components/CodePreview/CodePreview.tsx:92-123 | Every prop change and timer firing keeps the invariant: a pending timer holds the current non-empty code, a settled state shows the current code processed, and no render error is set |
| LivePreview.RunKeepsSettled | src/components/CodePreview/CodePreview.tsx:92-123 | The invariant holds over any sequence of events |
| LivePreview.EmptyCodeClearsAtOnce | src/components/CodePreview/CodePreview.tsx:98-102 | Empty code leaves no processed code, no render error and no timer, at once |
| LivePreview.NewCodeProcessedWhenTimerFires | src/components/CodePreview/CodePreview.tsx:104-115 | New non-empty code leaves the preview unchanged until the timer fires, then shows it processed |
| LivePreview.BurstProcessesLastCode | src/components/CodePreview/CodePreview.tsx:92-123 | However many values arrive before the timer fires, only the last one is processed |
| LivePreview.Render | src/components/CodePreview/CodePreview.tsx:126-160 | The live view appears exactly when there is no error, no render error and both code strings are non-empty; otherwise the placeholder shows `error`, else `renderError`, else `等待代码编译...`, with the matching hint |
| LivePreview.SettledViewShowsNormalizedCode | src/components/CodePreview/CodePreview.tsx:104-160 | Once settled with no compile error, the live view shows the normalised current code exactly when that is non-empty |
| LivePreview.Preview.constructor | src/components/CodePreview/CodePreview.tsx:22-24 | Mounting starts the state empty and runs the effect once |
| LivePreview.Preview.SetCompiledCode | src/components/CodePreview/CodePreview.tsx:92-123 | A changed prop runs the effect as `PropStep` says; an unchanged one does nothing |
| LivePreview.Preview.TimerFires | src/components/CodePreview/CodePreview.tsx:104-108 | Runs `ProcessCode` on the timer's code and stores it, as `FireStep` says |
| FramePreview.Fill | src/components/CodePreview.tsx:22-161 | For any page template, the document is empty exactly when the code is; a non-empty one is the code with the fixed prefix and suffix around it, by length |
| FramePreview.Document | src/components/CodePreview.tsx:22-161 | `generateIframeContent` is "" exactly when `compiledCode` is empty |
| FramePreview.FillRoundTrip | src/components/CodePreview.tsx:22-161 | For any page template, reading back the code between the fixed prefix and suffix gives it verbatim; only empty code gives the empty document, which reads back as "" |
| FramePreview.DocumentRoundTrip | src/components/CodePreview.tsx:22-161 | The component's own document, built from the exact page text, gives its code back |
| FramePreview.FillInjective | src/components/CodePreview.tsx:22-161 | Different code gives different documents |
| FramePreview.FillLayout | src/components/CodePreview.tsx:25-160 | A non-empty document is the fixed prefix, then the code, then the fixed suffix |
| FramePreview.CodeInsideTry | src/components/CodePreview.tsx:133-135 | The code comes right after the opening of the `try` block, which closes the page head |
| FramePreview.AlwaysMountsMyComponent | src/components/CodePreview.tsx:137-138 | Every non-empty document contains the line mounting `MyComponent`, whatever the code defines |
| FramePreview.Render | src/components/CodePreview.tsx:170-198 | A placeholder exactly when there is an error or no code, headed `编译失败` or `开始编码` with the matching hint; otherwise a frame with `sandbox="allow-scripts"` and title `TSX Preview` whose document is the page filled with the code |
| FramePreview.FrameCarriesTheCode | src/components/CodePreview.tsx:191-198 | A shown frame carries non-empty code, and its document reads back as that code |
| PreviewPanel.StatusOf | src/components/CodePreview/CodePreviewPanel.tsx:31-44 | The status priority: compiling, then a non-empty error, then non-empty code, then waiting; each status holds exactly under its condition |
| PreviewPanel.GetSubtitle | src/components/CodePreview/CodePreviewPanel.tsx:31-36 | `编译中...`, `编译失败`, `运行中`, `等待编译`, each exactly under its condition |
| PreviewPanel.GetStatusVariant | src/components/CodePreview/CodePreviewPanel.tsx:39-44 | `warning`, `error`, `success`, `default`, each exactly under its condition |
| PreviewPanel.SubtitleMatchesVariant | src/components/CodePreview/CodePreviewPanel.tsx:31-44 | Subtitle and colour always come from the same status: `运行中` exactly with `success`, `编译失败` exactly with `error` |
| PreviewPanel.StatusText | src/components/CodePreview/CodePreviewPanel.tsx:31-44 | Each of the four statuses has a subtitle and a colour of its own |
| PreviewPanel.CompilingOutranksError | src/components/CodePreview/CodePreviewPanel.tsx:32 | While compiling, the status says so, whatever the error and the code |
| PreviewPanel.HeaderTitle | src/components/CodePreview/CodePreviewPanel.tsx:26 | The title defaults to `实时预览` |
| PreviewPanel.HeaderSubtitle | src/components/CodePreview/CodePreviewPanel.tsx:27 | The header subtitle is "" unless `showStatus` is set (default false); then it is the status subtitle |
| PreviewPanel.ContainerStyle | src/components/CodePreview/CodePreviewPanel.tsx:28 | The default height is `500px`; a falsy height (0 or '') gives no style; a string is used as is; a number becomes its decimal text followed by `px` |
| PreviewPanel.PixelHeightReadsBack | src/components/CodePreview/CodePreviewPanel.tsx:48 | A positive pixel height becomes decimal digits then `px`, and the digits read back as the same number |
| EditorPanel.ShouldShowError | src/components/CodeEditorPanel.tsx:45 | The error box shows exactly when the error is non-empty and not dismissed |
| EditorPanel.Apply | src/components/CodeEditorPanel.tsx:31-42 | An edit forwards its code and clears the flag; a dismissal sets the flag and forwards nothing |
| EditorPanel.Replay | src/components/CodeEditorPanel.tsx:28-42 | After any actions, the flag is set exactly when the last one was a dismissal, and no more codes were forwarded than there were actions |
| EditorPanel.ReplayDismissedIff | src/components/CodeEditorPanel.tsx:28-42 | After any actions, the flag is set exactly when some dismissal has not been followed by an edit |
| EditorPanel.ReplayForwardsEveryEdit | src/components/CodeEditorPanel.tsx:31-32 | `onChange` receives exactly the edited codes, in order |
| EditorPanel.InitiallyShownIffError | src/components/CodeEditorPanel.tsx:28 | Before any dismissal, the box shows exactly when the error is non-empty |
| EditorPanel.DismissHidesUntilEdit | src/components/CodeEditorPanel.tsx:31-45 | After a dismissal no error shows, whatever `error` holds, until the next edit, which shows a non-empty error again |
| EditorPanel.Editor.constructor | src/components/CodeEditorPanel.tsx:28 | The flag starts cleared and nothing has been forwarded |
| EditorPanel.Editor.HandleCodeChange | src/components/CodeEditorPanel.tsx:31-37 | Forwards exactly the new code and clears the flag |
| EditorPanel.Editor.HandleErrorDismiss | src/components/CodeEditorPanel.tsx:40-42 | Sets the flag and forwards nothing |
| Http.StatusMessage | src/utils/http.ts:99-113 | A fixed, non-empty message exactly for statuses 400, 401, 403, 404, 500, 502 and 503 |
| Http.HandleError | src/utils/http.ts:94-123 | A response takes precedence: its fixed message, else its body's `message`, else `请求失败 (<status>)`; then a request-only failure gives `网络连接失败，请检查网络`; else `error.message` or `请求失败`; never empty |
| Http.FormatResponse | src/utils/http.ts:177-191 | A body already in the uniform shape is returned unchanged; any other body is wrapped as a success with message `success` |
| Http.FormatErrorResponse | src/utils/http.ts:196-201 | Always a failure; its error is the exception's message, or `请求失败，请检查网络连接` for a non-Error |
| Http.Send | src/utils/http.ts:129-172 | Each of `get`, `post`, `put` and `delete` resolves for every transport outcome: the formatted body, or the formatted error carrying `handleError`'s message |
| Http.FailureCarriesHandledMessage | src/utils/http.ts:80-87 | A transport failure reaches the caller as a failure with a non-empty `handleError` text |
| Http.FailureHasACause | src/utils/http.ts:129-201 | A call reports failure exactly when the transport failed or the server's uniform body said so |
| Api.ClassifyGeneration | src/services/api.ts:27-70 | Transport failure, a code other than 200, then a missing `data` or `tsx_code`, checked in that order, each with its message; `data` absent or `null` is caught as the `TypeError` for `undefined` or `null`; success exactly when all pass, carrying the backend code and its message or `TSX代码生成成功` |
| Api.CaughtGeneration | src/services/api.ts:64-70 | The `catch` arm: failure with `网络请求失败`, and the exception's message or `未知错误` |
| Api.GenerateTsxCode | src/services/api.ts:20-72 | Posts the trimmed message with no prompt to `/generate_tsx` and classifies the answer |
| Api.GenerateTsxWithData | src/services/api.ts:100-150 | Posts the data unchanged with the custom prompt to `/generate_tsx` and classifies the answer |
| Api.GenerationMethodsAgree | src/services/api.ts:20-150 | Both generation methods classify any answer identically; only the request body differs |
| Api.TransportFailureShowsHandledError | src/services/api.ts:27-34 | On transport failure the message and error are the interceptor's non-empty text |
| Api.PlainAnswerWithCodeSucceeds | src/services/api.ts:58-63 | A code-200 answer with a non-empty `tsx_code` succeeds, carrying that code |
| Api.MissingPayloadIsCaught | src/services/api.ts:36-70 | A JSON `null` body, wrapped as data `null`, and a uniform success without `data` both land in `catch` as `网络请求失败`, with the `null` and the `undefined` error text respectively |
| Api.CheckHealth | src/services/api.ts:78-92 | True exactly when the transport succeeds, the code is 200 and `data.status` is `healthy` |
| Api.FetchData | src/services/api.ts:157-190 | The backend envelope unchanged exactly when transport, code 200 and a present `operation_type` all check out, otherwise null |
| MockData.ResponseOf | src/services/mockData.ts:366-437 | Every template's response has code 200 |
| MockData.CalculateMatchScore | src/services/mockData.ts:335-346 | The loop's score is the number of keywords contained in the lowercased input, and at most the list's length |
| MockData.MatchScore | src/services/mockData.ts:335-346 | The score is the number of list positions whose keyword the lowercased input contains, at most the length of the list |
| MockData.ScoreCountsHits | src/services/mockData.ts:335-346 | The score counts the hitting list entries, repeats included: 0 ≤ score ≤ `keywords.length` |
| MockData.SomeHit | src/services/mockData.ts:356 | `some` over the keywords holds exactly when one of them hits |
| MockData.MatchesAnyKeyword | src/services/mockData.ts:354-357 | Holds exactly when the lowercased input contains some keyword of the list |
| MockData.MatchesAnyIffPositiveScore | src/services/mockData.ts:354-357 | `matchesAnyKeyword` holds exactly when the score is positive |
| MockData.BestIndex | src/services/mockData.ts:449-451 | The reduce picks the earliest maximal score: maximal, and strictly above every earlier score |
| MockData.EarliestMaximumIsBest | src/services/mockData.ts:449-451 | An index whose score is maximal and strictly above every earlier score is the one the reduce picks |
| MockData.TemplateScores | src/services/mockData.ts:442-446 | One score per template, in declaration order |
| MockData.AsksForAnalysisChart | src/services/mockData.ts:454 | The special rule holds exactly when the lowercased input contains `分析` and either `图` or `可视化`; `图表` adds nothing, since it contains `图` |
| MockData.FetchData | src/services/mockData.ts:359-469 | Every answer has code 200 |
| MockData.AnalysisChartOverridesBestMatch | src/services/mockData.ts:453-456 | Input with `分析` and one of `图表`, `可视化` or `图` gets the multi-step response, whatever scores best |
| MockData.BestTemplateAnswers | src/services/mockData.ts:458-461 | Otherwise a positive best score answers with the earliest template of maximal score |
| MockData.NoKeywordGivesDataDisplay | src/services/mockData.ts:463-468 | With no keyword hit and no special rule, the data-display response `数据获取成功` is returned |
| MockData.FetchErrorData | src/services/mockData.ts:476-499 | Code 400 for `param` (the default) and 500 otherwise, with the empty result |
| Text.TrimIsInnerSlice | src/utils/useCodeCompiler.ts:58 | `trim()` gives a contiguous slice with no white space at either end, empty exactly for blank text |
| Text.TrimIdempotent | src/services/api.ts:23 | Trimming twice is trimming once |
| Text.Lower | src/services/mockData.ts:337 | Lowercasing keeps the length and maps each character |
| Text.NatToStringRoundTrip | src/components/CodePreview/CodePreviewPanel.tsx:48 | `${n}` writes non-empty decimal digits that read back as `n` |

## Left out

- Babel's transform (with its configuration) is a foreign library. It is the `Transform` value handed to `Resolve`.
- TsxCompiler.tsx is not part of this model. Its error mapping repeats that of `compileInternal`.
- Executing the generated code (react-live, the iframe's scripts, the CDN libraries, `ReactDOM.createRoot`) is browser evaluation. Only the strings handed to them are modelled.
- The `srcdoc` assignment in the iframe variant is DOM access and is not modelled.
- Real time and React's scheduling are not modelled (`setTimeout`, `useEffect`, `useMemo`, batched `setState`, `setState` after unmount). The timers are explicit `TimerFires`/`Fire` events, and the 100 ms wait is the gap between `CompileInternal` and `Resolve`. Delay values are recorded, never measured.
- LivePreview: the read-only unmount cleanup (`clearTimeout` on unmount) is not modelled as an event. After unmount the state is not observable.
- LivePreview.FireStep: the `catch` arm that sets `renderError` to the error or `代码处理失败` is not modelled. `processCode` only rethrows, and none of its string operations throws, so `renderError` stays null; `Settled` states this.
- The HTTP transport is not modelled: the axios instance, interceptor registration, base URL, time-out, request logging and console output. Its outcome is the `Transport` value.
- The mock service's random network delay is not modelled, and its large literal datasets are represented by the `Dataset` name each response carries.
- DataAnalysisPage.tsx and StatisticalAnalysisComponent.tsx are not part of this model. The first uses service methods absent from the API service; the second is floating-point arithmetic.
- The presentational and routing components are not modelled: the glass containers, headers, chat widgets, error display, Monaco editor, the code highlighter, `App.tsx`, pages, router and the application-state hooks.
- Text.Lower: maps only ASCII `A`-`Z`. Full Unicode case mapping is left out; the mock keywords are Chinese and case-free.
- PreviewPanel.ContainerStyle: takes integer pixel heights only. Fractional numbers, `NaN` and a `null` height are left out. Integer heights of 10^21 and more, which JavaScript writes in exponent form (`1e+21px`), are written out in full digits instead.
- PreviewPanel.PixelHeightReadsBack: holds of the model's decimal text; for heights of 10^21 and more the source's `${height}px` is in exponent form and does not read back this way.
- Text.NatToStringRoundTrip: states the decimal writing of every natural number; JavaScript's number-to-string agrees only below 10^21, and the model has no exponent form.
- CodeCompiler.InternalStep: the request id is an unbounded natural. The source's JavaScript number stops increasing at 2^53, where `++` no longer changes it; that many compiles are not modelled.
- CodeCompiler.Compiler: the options are fixed when the hook is created. The source re-reads `autoCompile` and `debounceMs` on every render, so a host that changes them between calls is not modelled.
- Api.ClassifyGeneration: the `TypeError` texts are V8's wording. ECMAScript fixes no message text, and other engines word them differently.
- Api's request and response records carry only the fields the classifiers read.
- Api.FetchData: the request body `{ user_input }` is represented by the input string alone.

