/**
 * The recompile scheduler (src/utils/useCodeCompiler.ts): a debounce timer in front of an
 * asynchronous compile, and a request id that only grows, so that a compile publishes its
 * outcome only while it is still the latest one started ("last submission wins").
 *
 * Time and React's scheduling are replaced by explicit events. `compileInternal` is split at its
 * only `await`: `CompileInternal` is the synchronous part up to the 100 ms wait (it allocates the
 * id), `Resolve` is the rest (the staleness check and the Babel transform). The transform is an
 * uninterpreted outcome handed to `Resolve`. The two staleness checks after the wait (one before
 * and one after the synchronous transform) always agree, since nothing else can run between
 * them, so the model checks once.
 *
 * The transitions are pure functions over `CompilerState`, with their properties and lemmas about
 * arbitrary sequences of events; the class `Compiler` holds the hook's state in fields and its
 * methods are proved to follow those functions.
 */
module CodeCompiler {
  import opened Wrappers
  import opened Text

  /** What Babel did with the source: it was not loaded, it produced code, or it threw an error with a message. */
  datatype Transform = BabelMissing | Transformed(code: string) | Threw(message: string)

  /** The `CompilerResult` a `compileInternal` promise resolves to. */
  datatype CompilerResult = Compiled(code: string) | Failed(error: string)

  /**
   * What the synchronous part of `compileInternal` did: finished at once (blank source), or
   * started run `id` on the source `code`.
   */
  datatype Launch = Finished(result: CompilerResult) | Started(id: nat, code: string)

  /** A pending debounce timer: the source it will compile and its delay. */
  datatype Timer = Timer(code: string, delayMs: nat)

  /** The hook's options. */
  datatype Options = Options(debounceMs: nat, autoCompile: bool)

  /**
   * The hook's state: the three published fields, `compileRequestIdRef.current` and the
   * pending timer of `debounceTimerRef`.
   */
  datatype CompilerState = CompilerState(
    compiledCode: string,
    error: Option<string>,
    isCompiling: bool,
    latestId: nat,
    pending: Option<Timer>)

  const DefaultOptions := Options(500, true)
  /** The simulated compile latency awaited before the transform. */
  const TransformDelayMs := 100
  const Cancelled := "编译请求已取消"
  const CompileFailed := "编译失败"
  const BabelNotLoaded := "Babel未加载，无法编译TSX代码"

  /** The state on mount: nothing compiled, no error, no run started, no timer. */
  const Initial := CompilerState("", None, false, 0, None)

  /** The invariant the hook keeps: a published error always comes with empty compiled code. */
  predicate Consistent(s: CompilerState) {
    s.error.Some? ==> s.compiledCode == ""
  }

  /** `err.message || '编译失败'`, where a missing Babel throws its own error. */
  function FailureMessage(t: Transform): (m: string)
    requires !t.Transformed?
    ensures m != ""
    ensures t.BabelMissing? ==> m == BabelNotLoaded
    ensures t.Threw? && t.message != "" ==> m == t.message
    ensures t.Threw? && t.message == "" ==> m == CompileFailed
  {
    match t
    case BabelMissing => BabelNotLoaded
    case Threw(message) => if message == "" then CompileFailed else message
  }

  /** A transition's new state together with what it answered. */
  datatype Stepped<R> = Stepped(state: CompilerState, reply: R)

  /**
   * The part of `compileInternal(code)` before the wait: blank source resets the published fields
   * without allocating an id; other source takes the next id and marks a compile in progress.
   */
  function InternalStep(s: CompilerState, code: string): (r: Stepped<Launch>)
    ensures Blank(code) ==>
      r.reply == Finished(Compiled("")) &&
      r.state.compiledCode == "" && r.state.error.None? && !r.state.isCompiling &&
      r.state.latestId == s.latestId
    ensures !Blank(code) ==>
      r.reply == Started(s.latestId + 1, code) && r.state.latestId == s.latestId + 1 && r.reply.id >= 1 &&
      r.state.isCompiling && r.state.error.None? && r.state.compiledCode == s.compiledCode
    ensures r.state.pending == s.pending
    ensures Consistent(r.state)
  {
    if Blank(code) then
      Stepped(s.(compiledCode := "", error := None, isCompiling := false), Finished(Compiled("")))
    else
      Stepped(s.(latestId := s.latestId + 1, isCompiling := true, error := None), Started(s.latestId + 1, code))
  }

  /**
   * The part of `compileInternal` after the wait, for run `id` whose transform came out as `t`.
   * A run that is no longer the latest answers "cancelled" and changes nothing; the latest run
   * publishes its code, or its error with empty code.
   */
  function ResolveStep(s: CompilerState, id: nat, t: Transform): (r: Stepped<CompilerResult>)
    ensures id != s.latestId ==> r.state == s && r.reply == Failed(Cancelled)
    ensures id == s.latestId && t.Transformed? ==>
      r.reply == Compiled(t.code) &&
      r.state == s.(compiledCode := t.code, error := None, isCompiling := false)
    ensures id == s.latestId && !t.Transformed? ==>
      r.reply == Failed(FailureMessage(t)) &&
      r.state == s.(compiledCode := "", error := Some(FailureMessage(t)), isCompiling := false)
    ensures Consistent(s) ==> Consistent(r.state)
  {
    if id != s.latestId then Stepped(s, Failed(Cancelled))
    else match t
      case Transformed(code) => Stepped(s.(compiledCode := code, error := None, isCompiling := false), Compiled(code))
      case _ =>
        var message := FailureMessage(t);
        Stepped(s.(compiledCode := "", error := Some(message), isCompiling := false), Failed(message))
  }

  /**
   * `debouncedCompile(code)`: replaces any pending timer by one for `code`, and for non-blank
   * code reports a compile in progress at once. Nothing else changes.
   */
  function DebounceStep(s: CompilerState, code: string, delayMs: nat): (r: CompilerState)
    ensures r.pending == Some(Timer(code, delayMs))
    ensures r.isCompiling == (s.isCompiling || !Blank(code))
    ensures r.compiledCode == s.compiledCode && r.error == s.error && r.latestId == s.latestId
  {
    s.(pending := Some(Timer(code, delayMs)), isCompiling := if !Blank(code) then true else s.isCompiling)
  }

  /** The pending timer fires: it is used up and runs `compileInternal` on its source; without a timer nothing happens. */
  function TimerStep(s: CompilerState): (r: Stepped<Option<Launch>>)
    ensures s.pending.None? ==> r == Stepped(s, None)
    ensures s.pending.Some? ==>
      var launched := InternalStep(s.(pending := None), s.pending.value.code);
      r == Stepped(launched.state, Some(launched.reply))
    ensures r.state.pending.None?
  {
    match s.pending
    case None => Stepped(s, None)
    case Some(timer) =>
      var launched := InternalStep(s.(pending := None), timer.code);
      Stepped(launched.state, Some(launched.reply))
  }

  /** `clearError()`: the error is dropped and nothing else changes. */
  function ClearErrorStep(s: CompilerState): (r: CompilerState)
    ensures r.error.None?
    ensures r.compiledCode == s.compiledCode && r.isCompiling == s.isCompiling
    ensures r.latestId == s.latestId && r.pending == s.pending
  {
    s.(error := None)
  }

  /** The cleanup effect on unmount: a pending timer is cancelled. */
  function UnmountStep(s: CompilerState): (r: CompilerState)
    ensures r.pending.None?
    ensures r.compiledCode == s.compiledCode && r.error == s.error
    ensures r.isCompiling == s.isCompiling && r.latestId == s.latestId
  {
    s.(pending := None)
  }

  /**
   * The `compile` the hook returns: `debouncedCompile` when `autoCompile` is set, otherwise the
   * plain `compile`, which calls `compileInternal` at once with no timer.
   */
  function CompileStep(s: CompilerState, code: string, options: Options): (r: Stepped<Option<Launch>>)
    ensures options.autoCompile ==> r == Stepped(DebounceStep(s, code, options.debounceMs), None)
    ensures !options.autoCompile ==>
      r.state == InternalStep(s, code).state && r.reply == Some(InternalStep(s, code).reply) &&
      r.state.pending == s.pending
  {
    if options.autoCompile then Stepped(DebounceStep(s, code, options.debounceMs), None)
    else
      var launched := InternalStep(s, code);
      Stepped(launched.state, Some(launched.reply))
  }

  /** The events the hook reacts to. */
  datatype Event =
    | Submit(code: string)                 // the host calls the returned `compile`
    | TimerFires                           // the debounce delay has elapsed
    | Resolves(id: nat, outcome: Transform) // run `id` is past its wait and its transform
    | ClearsError
    | Unmounts

  function Step(s: CompilerState, e: Event, options: Options): CompilerState {
    match e
    case Submit(code) => CompileStep(s, code, options).state
    case TimerFires => TimerStep(s).state
    case Resolves(id, outcome) => ResolveStep(s, id, outcome).state
    case ClearsError => ClearErrorStep(s)
    case Unmounts => UnmountStep(s)
  }

  /** The state after a sequence of events, first to last. */
  function Run(s: CompilerState, events: seq<Event>, options: Options): CompilerState
    decreases |events|
  {
    if events == [] then s else Run(Step(s, events[0], options), events[1..], options)
  }

  /** Whatever happens, a published error comes with empty compiled code. */
  lemma {:induction false} RunKeepsConsistent(s: CompilerState, events: seq<Event>, options: Options)
    requires Consistent(s)
    ensures Consistent(Run(s, events, options))
    decreases |events|
  {
    if events != [] {
      var next := Step(s, events[0], options);
      assert Consistent(next) by {
        match events[0]
        case Submit(code) =>
        case TimerFires =>
        case Resolves(id, outcome) =>
        case ClearsError =>
        case Unmounts =>
      }
      RunKeepsConsistent(next, events[1..], options);
    }
  }

  /** Request ids never go down, so a run that has been superseded stays superseded. */
  lemma {:induction false} RunNeverLowersId(s: CompilerState, events: seq<Event>, options: Options)
    ensures Run(s, events, options).latestId >= s.latestId
    decreases |events|
  {
    if events != [] {
      var next := Step(s, events[0], options);
      assert next.latestId >= s.latestId;
      RunNeverLowersId(next, events[1..], options);
    }
  }

  /** The events of the host calling `compile` once per source in `codes`. */
  function Submissions(codes: seq<string>): (events: seq<Event>)
    ensures |events| == |codes|
    ensures forall i :: 0 <= i < |codes| ==> events[i] == Submit(codes[i])
  {
    seq(|codes|, i requires 0 <= i < |codes| => Submit(codes[i]))
  }

  /** Some source of the burst is not blank. */
  predicate AnyNonBlank(codes: seq<string>) {
    exists i :: 0 <= i < |codes| && !Blank(codes[i])
  }

  /**
   * A burst of `compile` calls in auto mode starts no compile and publishes nothing: it only
   * leaves one timer, for the last source, and reports a compile in progress if any source was
   * not blank.
   */
  lemma {:induction false} BurstLeavesOneTimer(s: CompilerState, codes: seq<string>, options: Options)
    requires options.autoCompile && codes != []
    ensures Run(s, Submissions(codes), options) ==
      s.(pending := Some(Timer(codes[|codes| - 1], options.debounceMs)),
         isCompiling := s.isCompiling || AnyNonBlank(codes))
    decreases |codes|
  {
    var next := Step(s, Submit(codes[0]), options);
    assert Submissions(codes)[1..] == Submissions(codes[1..]);
    if |codes| > 1 {
      BurstLeavesOneTimer(next, codes[1..], options);
      if AnyNonBlank(codes[1..]) {
        var i :| 0 <= i < |codes| - 1 && !Blank(codes[1..][i]);
        assert !Blank(codes[i + 1]);
      }
      if AnyNonBlank(codes) && Blank(codes[0]) {
        var i :| 0 <= i < |codes| && !Blank(codes[i]);
        assert codes[i] == codes[1..][i - 1];
      }
    } else {
      assert Submissions(codes) == [Submit(codes[0])];
      assert AnyNonBlank(codes) <==> !Blank(codes[0]);
    }
  }

  /**
   * After a burst, the timer firing compiles exactly the last source of the burst, as run
   * `latestId + 1`; a blank last source finishes at once with empty code and takes no id.
   */
  lemma BurstCompilesLastSource(s: CompilerState, codes: seq<string>, options: Options)
    requires options.autoCompile && codes != []
    ensures var fired := TimerStep(Run(s, Submissions(codes), options));
      var last := codes[|codes| - 1];
      fired.reply.Some? &&
      (!Blank(last) ==> fired.reply.value == Started(s.latestId + 1, last) && fired.state.latestId == s.latestId + 1) &&
      (Blank(last) ==> fired.reply.value == Finished(Compiled("")) && fired.state.latestId == s.latestId)
  {
    BurstLeavesOneTimer(s, codes, options);
  }

  /**
   * Last submission wins: once a later non-blank compile has started, the earlier run's outcome
   * is discarded whatever happened before, between and after.
   */
  lemma EarlierRunIsDiscarded(
    s: CompilerState, first: string, between: seq<Event>, second: string, after: seq<Event>,
    outcome: Transform, options: Options)
    requires !Blank(first) && !Blank(second)
    ensures
      var a := InternalStep(s, first);
      var b := InternalStep(Run(a.state, between, options), second);
      var final := Run(b.state, after, options);
      ResolveStep(final, a.reply.id, outcome) == Stepped(final, Failed(Cancelled))
  {
    var a := InternalStep(s, first);
    var mid := Run(a.state, between, options);
    RunNeverLowersId(a.state, between, options);
    var b := InternalStep(mid, second);
    RunNeverLowersId(b.state, after, options);
  }

  /**
   * A blank submission resets the published fields but takes no id, so a run started before it
   * is still the latest and publishes its code afterwards.
   */
  lemma BlankDoesNotSupersedeRun(s: CompilerState, source: string, blank: string, output: string)
    requires !Blank(source) && Blank(blank)
    ensures
      var a := InternalStep(s, source);
      var cleared := InternalStep(a.state, blank);
      cleared.state.compiledCode == "" && !cleared.state.isCompiling &&
      ResolveStep(cleared.state, a.reply.id, Transformed(output)).state.compiledCode == output
  {
  }

  /**
   * The hook as a class: the published fields, the request-id counter and the debounce timer.
   * Each method changes the fields as the corresponding transition says.
   */
  class Compiler {
    var compiledCode: string
    var error: Option<string>
    var isCompiling: bool
    /** `compileRequestIdRef.current`: the id of the latest run started. */
    var compileRequestId: nat
    /** `debounceTimerRef`: the timer not yet fired or cleared, if any. */
    var debounceTimer: Option<Timer>
    const options: Options

    function State(): CompilerState
      reads this
    {
      CompilerState(compiledCode, error, isCompiling, compileRequestId, debounceTimer)
    }

    ghost predicate Valid()
      reads this
    {
      Consistent(State())
    }

    constructor (debounceMs: nat := 500, autoCompile: bool := true)
      ensures Valid() && State() == Initial
      ensures options == Options(debounceMs, autoCompile)
    {
      compiledCode, error, isCompiling := "", None, false;
      compileRequestId := 0;
      debounceTimer := None;
      options := Options(debounceMs, autoCompile);
    }

    /** `compileInternal(code)` up to its wait. */
    method CompileInternal(code: string) returns (launch: Launch)
      requires Valid()
      modifies this
      ensures Valid()
      ensures var r := InternalStep(old(State()), code); State() == r.state && launch == r.reply
    {
      if Blank(code) {
        compiledCode := "";
        error := None;
        isCompiling := false;
        return Finished(Compiled(""));
      }
      compileRequestId := compileRequestId + 1;
      var requestId := compileRequestId;
      isCompiling := true;
      error := None;
      launch := Started(requestId, code);
    }

    /** The rest of `compileInternal` for run `requestId`, once its wait is over and the transform gave `outcome`. */
    method Resolve(requestId: nat, outcome: Transform) returns (result: CompilerResult)
      requires Valid()
      modifies this
      ensures Valid()
      ensures var r := ResolveStep(old(State()), requestId, outcome); State() == r.state && result == r.reply
    {
      if requestId != compileRequestId {
        return Failed(Cancelled);
      }
      match outcome {
        case Transformed(compiled) =>
          compiledCode := compiled;
          error := None;
          isCompiling := false;
          result := Compiled(compiled);
        case _ =>
          var errorMessage := FailureMessage(outcome);
          error := Some(errorMessage);
          compiledCode := "";
          isCompiling := false;
          result := Failed(errorMessage);
      }
    }

    /** `debouncedCompile(code)`. */
    method DebouncedCompile(code: string)
      requires Valid()
      modifies this
      ensures Valid()
      ensures State() == DebounceStep(old(State()), code, options.debounceMs)
    {
      if !Blank(code) {
        isCompiling := true;
      }
      debounceTimer := Some(Timer(code, options.debounceMs));
    }

    /** The debounce timer's callback. */
    method TimerFires() returns (launch: Option<Launch>)
      requires Valid()
      modifies this
      ensures Valid()
      ensures var r := TimerStep(old(State())); State() == r.state && launch == r.reply
    {
      match debounceTimer {
        case None =>
          launch := None;
        case Some(timer) =>
          debounceTimer := None;
          var started := CompileInternal(timer.code);
          launch := Some(started);
      }
    }

    /** The `compile` the hook returns. */
    method Compile(code: string) returns (launch: Option<Launch>)
      requires Valid()
      modifies this
      ensures Valid()
      ensures var r := CompileStep(old(State()), code, options); State() == r.state && launch == r.reply
    {
      if options.autoCompile {
        DebouncedCompile(code);
        launch := None;
      } else {
        var started := CompileInternal(code);
        launch := Some(started);
      }
    }

    /** `clearError()`. */
    method ClearError()
      requires Valid()
      modifies this
      ensures Valid()
      ensures State() == ClearErrorStep(old(State()))
    {
      error := None;
    }

    /** The unmount cleanup. */
    method Unmount()
      requires Valid()
      modifies this
      ensures Valid()
      ensures State() == UnmountStep(old(State()))
    {
      debounceTimer := None;
    }
  }

  /**
   * Two quick submissions in auto mode on a freshly mounted hook: the first is started as
   * nothing, the timer compiles only the second source, as run 1, and that run publishes.
   */
  method TwoQuickSubmissions(first: string, second: string, output: string)
    returns (afterFirst: Option<Launch>, fired: Option<Launch>, result: CompilerResult, published: string)
    requires !Blank(second)
    ensures afterFirst.None?
    ensures fired == Some(Started(1, second))
    ensures result == Compiled(output) && published == output
  {
    var c := new Compiler();
    afterFirst := c.Compile(first);
    var none := c.Compile(second);
    fired := c.TimerFires();
    result := c.Resolve(1, Transformed(output));
    published := c.compiledCode;
  }
}
