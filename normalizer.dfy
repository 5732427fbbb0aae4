/**
 * The source normaliser `processCode` of src/components/CodePreview/CodePreview.tsx: it deletes
 * import statements, turns the first `export default <word>` into a `render(<word />)` trailer
 * and, when there is none, names the first declaration matched by four patterns tried in a fixed
 * order.
 *
 * Each regular expression is a hand-written matcher over the string. Apart from the import
 * pattern, every expression is a chain of literals, `\s+`/`\s*` and one `(\w+)` in which each
 * greedy class is disjoint from the first character of what follows it, so backtracking can never
 * shorten a run: the matcher takes every run at its longest. JavaScript's `match` and a
 * non-global `replace` both use the leftmost match; a global `replace` removes the leftmost match,
 * resumes after it, and so on.
 */
module SourceNormalizer {
  import opened Wrappers
  import opened Text

  /** The length of the run of `\s` characters starting at `i`. */
  function SpaceRun(s: string, i: nat): (n: nat)
    requires i <= |s|
    ensures i + n <= |s|
    ensures forall k :: i <= k < i + n ==> IsSpace(s[k])
    ensures i + n < |s| ==> !IsSpace(s[i + n])
    decreases |s| - i
  {
    if i < |s| && IsSpace(s[i]) then 1 + SpaceRun(s, i + 1) else 0
  }

  /** The length of the run of `\w` characters starting at `i`. */
  function WordRun(s: string, i: nat): (n: nat)
    requires i <= |s|
    ensures i + n <= |s|
    ensures forall k :: i <= k < i + n ==> IsWordChar(s[k])
    ensures i + n < |s| ==> !IsWordChar(s[i + n])
    decreases |s| - i
  {
    if i < |s| && IsWordChar(s[i]) then 1 + WordRun(s, i + 1) else 0
  }

  /** A non-empty string of `\w` characters: what a `(\w+)` group captures. */
  predicate IsWord(name: string) {
    name != [] && forall k :: 0 <= k < |name| ==> IsWordChar(name[k])
  }

  /** A piece of a pattern: a literal, `\s+` or `\s*`, the `(\w+)` group, or an optional character. */
  datatype Token = Lit(text: string) | Spaces(atLeastOne: bool) | Name | Optional(c: char)

  /** A match: where it ends and what the group captured. */
  datatype Match = Match(end: nat, name: string)

  /** Matches `pattern` at `pos`, taking every run at its longest; `name` is the capture so far. */
  function MatchAt(s: string, pos: nat, pattern: seq<Token>, name: string): (r: Option<Match>)
    requires pos <= |s|
    ensures r.Some? ==> pos <= r.value.end <= |s|
    ensures r.Some? && Name in pattern ==> IsWord(r.value.name)
    ensures r.Some? && Name !in pattern ==> r.value.name == name
    decreases |pattern|
  {
    if pattern == [] then Some(Match(pos, name))
    else
      var rest := pattern[1..];
      assert forall t :: t in pattern ==> t == pattern[0] || t in rest;
      match pattern[0]
      case Lit(text) =>
        if text <= s[pos..] then MatchAt(s, pos + |text|, rest, name) else None
      case Spaces(atLeastOne) =>
        var n := SpaceRun(s, pos);
        if atLeastOne && n == 0 then None else MatchAt(s, pos + n, rest, name)
      case Name =>
        var n := WordRun(s, pos);
        if n == 0 then None
        else
          var r := MatchAt(s, pos + n, rest, s[pos..pos + n]);
          assert r.Some? && Name !in rest ==> IsWord(r.value.name);
          r
      case Optional(c) =>
        if pos < |s| && s[pos] == c then MatchAt(s, pos + 1, rest, name) else MatchAt(s, pos, rest, name)
  }

  /** A match located in the string. */
  datatype Found = Found(start: nat, end: nat, name: string)

  /** The leftmost match of `pattern` at or after `from`. */
  function Find(s: string, pattern: seq<Token>, from: nat): (r: Option<Found>)
    requires from <= |s|
    ensures r.Some? ==>
      from <= r.value.start <= r.value.end <= |s| &&
      MatchAt(s, r.value.start, pattern, "") == Some(Match(r.value.end, r.value.name))
    ensures r.Some? ==> forall q :: from <= q < r.value.start ==> MatchAt(s, q, pattern, "").None?
    ensures r.None? ==> forall q :: from <= q <= |s| ==> MatchAt(s, q, pattern, "").None?
    decreases |s| - from
  {
    match MatchAt(s, from, pattern, "")
    case Some(m) => Some(Found(from, m.end, m.name))
    case None => if from == |s| then None else Find(s, pattern, from + 1)
  }

  /** `/export\s+default\s+(\w+);?/`, and without its group the pattern of the `replace` that removes it. */
  const ExportDefault: seq<Token> := [Lit("export"), Spaces(true), Lit("default"), Spaces(true), Name, Optional(';')]
  /** `/function\s+(\w+)\s*\(/` */
  const FunctionDeclaration: seq<Token> := [Lit("function"), Spaces(true), Name, Spaces(false), Lit("(")]
  /** `/const\s+(\w+)\s*=\s*\(/` */
  const ConstArrow: seq<Token> := [Lit("const"), Spaces(true), Name, Spaces(false), Lit("="), Spaces(false), Lit("(")]
  /** `/const\s+(\w+)\s*:\s*React\.FC/` */
  const ConstTyped: seq<Token> := [Lit("const"), Spaces(true), Name, Spaces(false), Lit(":"), Spaces(false), Lit("React.FC")]
  /** `/const\s+(\w+)\s*=\s*React\.memo/` */
  const ConstMemo: seq<Token> := [Lit("const"), Spaces(true), Name, Spaces(false), Lit("="), Spaces(false), Lit("React.memo")]

  /** The fallback patterns, in the order they are tried. */
  const Fallbacks: seq<seq<Token>> := [FunctionDeclaration, ConstArrow, ConstTyped, ConstMemo]

  lemma FallbacksCapture()
    ensures forall i :: 0 <= i < |Fallbacks| ==> Name in Fallbacks[i]
  {
    assert FunctionDeclaration[2] == Name;
    assert ConstArrow[2] == Name && ConstTyped[2] == Name && ConstMemo[2] == Name;
  }

  predicate IsQuote(c: char) {
    c == '\'' || c == '"'
  }

  /** The number of characters from `i` on that are neither a quote nor a line terminator. */
  function PlainRun(s: string, i: nat): (n: nat)
    requires i <= |s|
    ensures i + n <= |s|
    ensures forall k :: i <= k < i + n ==> !IsQuote(s[k]) && !IsLineTerminator(s[k])
    ensures i + n < |s| ==> IsQuote(s[i + n]) || IsLineTerminator(s[i + n])
    decreases |s| - i
  {
    if i < |s| && !IsQuote(s[i]) && !IsLineTerminator(s[i]) then 1 + PlainRun(s, i + 1) else 0
  }

  /**
   * `from\s+['"].*?['"];?\s*` at `q`: `from`, the whole white-space run (a quote must follow it),
   * a quote, the lazy `.*?` up to the first quote on the same line, then `;?` and all white space.
   */
  function FromClause(s: string, q: nat): (r: Option<nat>)
    requires q <= |s|
    ensures r.Some? ==> q + 7 <= r.value <= |s|
  {
    if !("from" <= s[q..]) then None
    else
      var open := q + 4 + SpaceRun(s, q + 4);
      if open == q + 4 || open == |s| || !IsQuote(s[open]) then None
      else
        var close := open + 1 + PlainRun(s, open + 1);
        if close == |s| || !IsQuote(s[close]) then None
        else
          var afterQuote := close + 1;
          var afterSemicolon := if afterQuote < |s| && s[afterQuote] == ';' then afterQuote + 1 else afterQuote;
          Some(afterSemicolon + SpaceRun(s, afterSemicolon))
  }

  /**
   * The lazy `.*?` before `from`: the first position at or after `q`, reached without crossing a
   * line terminator, where the `from` clause matches.
   */
  function LazyFrom(s: string, q: nat): (r: Option<nat>)
    requires q <= |s|
    ensures r.Some? ==> q + 7 <= r.value <= |s|
    decreases |s| - q
  {
    match FromClause(s, q)
    case Some(e) => Some(e)
    case None => if q < |s| && !IsLineTerminator(s[q]) then LazyFrom(s, q + 1) else None
  }

  /**
   * `/import\s+.*?from\s+['"].*?['"];?\s*` at `p`, giving the end of the match. Backtracking
   * into the `\s+` after `import` cannot help: the position of `from` lies past the whole run,
   * and `.` covers the rest of the run whenever a shorter run would have succeeded.
   */
  function ImportAt(s: string, p: nat): (r: Option<nat>)
    requires p <= |s|
    ensures r.Some? ==> p + 14 <= r.value <= |s|
  {
    if !("import" <= s[p..]) then None
    else
      var n := SpaceRun(s, p + 6);
      if n == 0 then None else LazyFrom(s, p + 6 + n)
  }

  /** The leftmost import statement at or after `from`, as start and end. */
  function FindImport(s: string, from: nat): (r: Option<(nat, nat)>)
    requires from <= |s|
    ensures r.Some? ==> from <= r.value.0 && r.value.0 + 14 <= r.value.1 <= |s| && ImportAt(s, r.value.0) == Some(r.value.1)
    ensures r.Some? ==> forall q :: from <= q < r.value.0 ==> ImportAt(s, q).None?
    ensures r.None? ==> forall q :: from <= q <= |s| ==> ImportAt(s, q).None?
    decreases |s| - from
  {
    match ImportAt(s, from)
    case Some(e) => Some((from, e))
    case None =>
      if from == |s| then None
      else
        var r := FindImport(s, from + 1);
        NoImportBefore(s, from, if r.Some? then r.value.0 else |s| + 1);
        r
  }

  /** No import statement at `from` and none in the next positions up to `to` means none from `from` on. */
  lemma NoImportBefore(s: string, from: nat, to: nat)
    requires from <= |s|
    requires ImportAt(s, from).None?
    requires forall q :: from + 1 <= q < to && q <= |s| ==> ImportAt(s, q).None?
    ensures forall q :: from <= q < to && q <= |s| ==> ImportAt(s, q).None?
  {
  }

  /** The global `replace` of the import pattern by "", resuming at `from`. */
  function StripFrom(s: string, from: nat): (r: string)
    requires from <= |s|
    ensures |r| <= |s| - from
    ensures FindImport(s, from).Some? ==> |r| < |s| - from
    decreases |s| - from
  {
    match FindImport(s, from)
    case None => s[from..]
    case Some((start, end)) => s[from..start] + StripFrom(s, end)
  }

  /** `code.replace(/import\s+.*?from\s+['"].*?['"];?\s*\/g, '')`. */
  function StripImports(s: string): (r: string)
    ensures |r| <= |s|
    ensures r == s <==> FindImport(s, 0).None?
  {
    StripFrom(s, 0)
  }

  /** No match at or after `from` leaves the text as it is; a match makes it strictly shorter. */
  lemma StripFromUnchangedIff(s: string, from: nat)
    requires from <= |s|
    ensures StripFrom(s, from) == s[from..] <==> forall q :: from <= q <= |s| ==> ImportAt(s, q).None?
  {
  }

  /** The import pass changes the text exactly when it holds an import statement. */
  lemma StripImportsUnchangedIff(s: string)
    ensures StripImports(s) == s <==> forall q :: 0 <= q <= |s| ==> ImportAt(s, q).None?
  {
    StripFromUnchangedIff(s, 0);
  }

  /** Text in which `import` never occurs passes the import pass untouched. */
  lemma NoImportKeywordUnchanged(s: string)
    ensures !Contains(s, "import") ==> StripImports(s) == s
  {
    StripImportsUnchangedIff(s);
  }

  /** `a` is obtained from `b` by deleting characters. */
  predicate IsSubsequence(a: string, b: string)
    decreases |b|
  {
    if b == [] then a == []
    else (a != [] && a[0] == b[0] && IsSubsequence(a[1..], b[1..])) || IsSubsequence(a, b[1..])
  }

  lemma {:induction false} SubsequenceReflexive(a: string)
    ensures IsSubsequence(a, a)
    decreases |a|
  {
    if a != [] { SubsequenceReflexive(a[1..]); }
  }

  lemma {:induction false} SubsequenceAppendLeft(a: string, prefix: string, b: string)
    requires IsSubsequence(a, b)
    ensures IsSubsequence(a, prefix + b)
    decreases |prefix|
  {
    if prefix != [] {
      SubsequenceAppendLeft(a, prefix[1..], b);
      assert (prefix + b)[1..] == prefix[1..] + b;
    } else {
      assert prefix + b == b;
    }
  }

  lemma {:induction false} SubsequenceConcat(a1: string, b1: string, a2: string, b2: string)
    requires IsSubsequence(a1, b1) && IsSubsequence(a2, b2)
    ensures IsSubsequence(a1 + a2, b1 + b2)
    decreases |b1|
  {
    if b1 == [] {
      assert a1 + a2 == a2 && b1 + b2 == b2;
    } else {
      assert (b1 + b2)[1..] == b1[1..] + b2;
      if a1 != [] && a1[0] == b1[0] && IsSubsequence(a1[1..], b1[1..]) {
        SubsequenceConcat(a1[1..], b1[1..], a2, b2);
        assert (a1 + a2)[1..] == a1[1..] + a2;
      } else {
        SubsequenceConcat(a1, b1[1..], a2, b2);
      }
    }
  }

  /** The import pass only deletes: every character it keeps is kept, in order. */
  lemma {:induction false} StripFromKeepsOrder(s: string, from: nat)
    requires from <= |s|
    ensures IsSubsequence(StripFrom(s, from), s[from..])
    decreases |s| - from
  {
    match FindImport(s, from)
    case None =>
      SubsequenceReflexive(s[from..]);
    case Some((start, end)) =>
      StripFromKeepsOrder(s, end);
      SpliceKeepsOrder(s, from, start, end, StripFrom(s, end));
  }

  /** Keeping `s[from..start]`, deleting `s[start..end]` and keeping a subsequence of the rest keeps a subsequence. */
  lemma SpliceKeepsOrder(s: string, from: nat, start: nat, end: nat, kept: string)
    requires from <= start <= end <= |s|
    requires IsSubsequence(kept, s[end..])
    ensures IsSubsequence(s[from..start] + kept, s[from..])
  {
    SubsequenceAppendLeft(kept, s[start..end], s[end..]);
    SubsequenceReflexive(s[from..start]);
    SubsequenceConcat(s[from..start], s[from..start], kept, s[start..end] + s[end..]);
    assert s[from..start] + (s[start..end] + s[end..]) == s[from..];
  }

  /** `StripImports(s)` is `s` with characters deleted. */
  lemma StripImportsKeepsOrder(s: string)
    ensures IsSubsequence(StripImports(s), s)
  {
    StripFromKeepsOrder(s, 0);
    assert s[0..] == s;
  }

  /** The line appended to mount the entry component. */
  function Trailer(name: string): string {
    "\nrender(<" + name + " />);"
  }

  /** The name of the first fallback pattern, in listed order, that matches anywhere. */
  function FirstName(t: string, patterns: seq<seq<Token>>): (r: Option<string>)
    ensures r.None? <==> forall i :: 0 <= i < |patterns| ==> Find(t, patterns[i], 0).None?
    decreases |patterns|
  {
    if patterns == [] then None
    else match Find(t, patterns[0], 0)
      case Some(f) => Some(f.name)
      case None =>
        assert forall i :: 0 < i < |patterns| ==> patterns[1..][i - 1] == patterns[i];
        FirstName(t, patterns[1..])
  }

  /**
   * The patterns are tried in listed order, not by position in the text: the name comes from the
   * first pattern that matches anywhere, every earlier pattern matching nowhere.
   */
  lemma {:induction false} FirstNameIsFirstMatchingPattern(t: string, patterns: seq<seq<Token>>)
    ensures var r := FirstName(t, patterns);
      r.Some? ==>
        exists i :: 0 <= i < |patterns| &&
          Find(t, patterns[i], 0).Some? && Find(t, patterns[i], 0).value.name == r.value &&
          forall j :: 0 <= j < i ==> Find(t, patterns[j], 0).None?
    decreases |patterns|
  {
    if patterns != [] && Find(t, patterns[0], 0).None? {
      var rest := patterns[1..];
      FirstNameIsFirstMatchingPattern(t, rest);
      var r := FirstName(t, rest);
      if r.Some? {
        var i :| 0 <= i < |rest| &&
          Find(t, rest[i], 0).Some? && Find(t, rest[i], 0).value.name == r.value &&
          forall j :: 0 <= j < i ==> Find(t, rest[j], 0).None?;
        forall j | 0 <= j < i + 1 ensures Find(t, patterns[j], 0).None? {
          if j > 0 { assert patterns[j] == rest[j - 1]; }
        }
        assert patterns[i + 1] == rest[i];
      }
    }
  }

  /**
   * The second half of `processCode`, on import-free text: the first `export default` statement
   * is cut out and names the entry; failing that, the first fallback pattern that matches does;
   * failing that, the text stays as it is.
   */
  function MountEntry(t: string): (r: string)
    ensures (Find(t, ExportDefault, 0).None? && forall i :: 0 <= i < |Fallbacks| ==> Find(t, Fallbacks[i], 0).None?) ==> r == t
    ensures (Find(t, ExportDefault, 0).Some? || exists i :: 0 <= i < |Fallbacks| && Find(t, Fallbacks[i], 0).Some?) ==>
      exists name :: IsWord(name) && EndsWith(r, Trailer(name))
  {
    match Find(t, ExportDefault, 0)
    case Some(f) =>
      ExportDefaultCaptures();
      FoundNameIsWord(t, ExportDefault, f);
      var r := t[..f.start] + t[f.end..] + Trailer(f.name);
      assert EndsWith(r, Trailer(f.name));
      r
    case None =>
      match FirstName(t, Fallbacks)
      case Some(name) =>
        FallbacksCapture();
        FirstNameIsWord(t, Fallbacks);
        assert EndsWith(t + Trailer(name), Trailer(name));
        t + Trailer(name)
      case None => t
  }

  /** `suffix` is the tail of `s`. */
  predicate EndsWith(s: string, suffix: string) {
    |suffix| <= |s| && s[|s| - |suffix|..] == suffix
  }

  /**
   * What `processCode(code)` returns: "" for empty code; code in which `import` never occurs is
   * only mounted.
   */
  function Normalized(code: string): (r: string)
    ensures code == "" ==> r == ""
    ensures code != "" && !Contains(code, "import") ==> r == MountEntry(code)
  {
    NoImportKeywordUnchanged(code);
    if code == "" then "" else MountEntry(StripImports(code))
  }

  /**
   * The shape of every mounted text: either the text untouched, because no pattern matches, or
   * the text with one span cut out (empty for a fallback) followed by exactly one trailer that
   * names a `\w+` word.
   */
  lemma MountEntryShape(t: string)
    ensures || (MountEntry(t) == t &&
                Find(t, ExportDefault, 0).None? && forall i :: 0 <= i < |Fallbacks| ==> Find(t, Fallbacks[i], 0).None?)
            || (exists name, start, end :: IsWord(name) && 0 <= start <= end <= |t| &&
                  MountEntry(t) == t[..start] + t[end..] + Trailer(name))
  {
    match Find(t, ExportDefault, 0)
    case Some(f) =>
      ExportDefaultShape(t, f);
    case None =>
      FirstNameIsFirstMatchingPattern(t, Fallbacks);
      match FirstName(t, Fallbacks)
      case Some(name) =>
        FallbackShape(t, name);
        CutNothing(t);
        assert IsWord(name) && 0 <= |t| <= |t| <= |t| && MountEntry(t) == t[..|t|] + t[|t|..] + Trailer(name);
      case None =>
  }

  lemma ExportDefaultShape(t: string, f: Found)
    requires Find(t, ExportDefault, 0) == Some(f)
    ensures IsWord(f.name) && 0 <= f.start <= f.end <= |t|
    ensures MountEntry(t) == t[..f.start] + t[f.end..] + Trailer(f.name)
  {
    ExportDefaultCaptures();
    FoundNameIsWord(t, ExportDefault, f);
  }

  lemma ExportDefaultCaptures()
    ensures Name in ExportDefault
  {
    assert ExportDefault[4] == Name;
  }

  /** A leftmost match of a pattern with the `(\w+)` group captures a word. */
  lemma FoundNameIsWord(t: string, pattern: seq<Token>, f: Found)
    requires Name in pattern
    requires Find(t, pattern, 0) == Some(f)
    ensures IsWord(f.name) && 0 <= f.start <= f.end <= |t|
  {
  }

  lemma FallbackShape(t: string, name: string)
    requires Find(t, ExportDefault, 0).None?
    requires FirstName(t, Fallbacks) == Some(name)
    ensures IsWord(name)
    ensures MountEntry(t) == t + Trailer(name)
  {
    FallbacksCapture();
    FirstNameIsWord(t, Fallbacks);
  }

  lemma CutNothing(t: string)
    ensures t[..|t|] + t[|t|..] == t
  {
  }

  /** When every pattern has the `(\w+)` group, a name found by the fallback search is a word. */
  lemma {:induction false} FirstNameIsWord(t: string, patterns: seq<seq<Token>>)
    requires forall i :: 0 <= i < |patterns| ==> Name in patterns[i]
    ensures FirstName(t, patterns).Some? ==> IsWord(FirstName(t, patterns).value)
    decreases |patterns|
  {
    if patterns != [] && Find(t, patterns[0], 0).None? {
      assert forall i :: 0 <= i < |patterns| - 1 ==> patterns[1..][i] == patterns[i + 1];
      FirstNameIsWord(t, patterns[1..]);
    }
  }

  /** Empty code gives empty output; any other code is its import-free text, mounted. */
  lemma NormalizedShape(code: string)
    ensures code == "" ==> Normalized(code) == ""
    ensures code != "" ==>
      var t := StripImports(code);
      IsSubsequence(t, code) &&
      (|| (Normalized(code) == t &&
           Find(t, ExportDefault, 0).None? && forall i :: 0 <= i < |Fallbacks| ==> Find(t, Fallbacks[i], 0).None?)
       || (exists name, start, end :: IsWord(name) && 0 <= start <= end <= |t| &&
             Normalized(code) == t[..start] + t[end..] + Trailer(name)))
  {
    if code != "" {
      StripImportsKeepsOrder(code);
      MountEntryShape(StripImports(code));
    }
  }

  /**
   * With an `export default` present, the leftmost one names the entry: its statement is cut
   * out, everything after it (a later `export default` included) stays, and the trailer follows.
   */
  lemma ExportDefaultWins(t: string)
    requires Find(t, ExportDefault, 0).Some?
    ensures var f := Find(t, ExportDefault, 0).value;
      (forall q :: 0 <= q < f.start ==> MatchAt(t, q, ExportDefault, "").None?) &&
      MatchAt(t, f.start, ExportDefault, "") == Some(Match(f.end, f.name)) &&
      MountEntry(t) == t[..f.start] + t[f.end..] + Trailer(f.name)
  {
  }

  /**
   * Without an `export default`, a `function X(` anywhere names the entry, even when a `const`
   * form appears earlier in the text, since the patterns are tried in order, not by position.
   */
  lemma FunctionPatternBeatsConstForms(t: string)
    requires Find(t, ExportDefault, 0).None?
    requires Find(t, FunctionDeclaration, 0).Some?
    ensures MountEntry(t) == t + Trailer(Find(t, FunctionDeclaration, 0).value.name)
  {
  }

  /** Text that no pattern matches is returned as it is, with no trailer. */
  lemma NoEntryPointLeavesTextAlone(t: string)
    requires Find(t, ExportDefault, 0).None?
    requires forall i :: 0 <= i < |Fallbacks| ==> Find(t, Fallbacks[i], 0).None?
    ensures MountEntry(t) == t
  {
    FirstNameIsFirstMatchingPattern(t, Fallbacks);
  }

  /**
   * `(\w+)` stops at the first non-word character, so for `export default function Foo…` the
   * captured name is the keyword `function`, not `Foo`.
   */
  lemma ExportDefaultFunctionNamesKeyword(rest: string)
    requires !Contains("export default function " + rest, "import")
    ensures Normalized("export default function " + rest) == " " + rest + Trailer("function")
  {
    var code := "export default function " + rest;
    NoImportKeywordUnchanged(code);
    ExportDefaultFunctionMounts(code, rest);
  }

  lemma ExportDefaultFunctionMounts(code: string, rest: string)
    requires code == "export default function " + rest
    ensures MountEntry(code) == " " + rest + Trailer("function")
  {
    ExportDefaultFunctionMatch(code, rest);
    CutExportDefault(code, rest);
    assert MountEntry(code) == code[..0] + code[23..] + Trailer("function");
  }

  lemma CutExportDefault(code: string, rest: string)
    requires code == "export default function " + rest
    ensures code[..0] + code[23..] == " " + rest
  {
  }

  lemma ExportDefaultFunctionMatch(code: string, rest: string)
    requires code == "export default function " + rest
    ensures Find(code, ExportDefault, 0) == Some(Found(0, 23, "function"))
  {
    ExportDefaultFunctionRuns(code, rest);
    ExportDefaultChain(code);
  }

  /** The runs the pattern meets in `export default function …`. */
  lemma ExportDefaultFunctionRuns(code: string, rest: string)
    requires code == "export default function " + rest
    ensures |code| > 23 && code[23] == ' '
    ensures "export" <= code && "default" <= code[7..] && code[15..23] == "function"
    ensures SpaceRun(code, 6) == 1 && SpaceRun(code, 14) == 1 && WordRun(code, 15) == 8
  {
    ExportDefaultFunctionText(code, rest);
    SingleSpace(code, 6);
    SingleSpace(code, 14);
    KeywordRun(code, 15);
  }

  /** Where the words and the spaces of `export default function ` lie. */
  lemma ExportDefaultFunctionText(code: string, rest: string)
    requires code == "export default function " + rest
    ensures |code| > 23 && code[23] == ' '
    ensures "export" <= code && "default" <= code[7..] && code[15..23] == "function"
    ensures code[6] == ' ' && code[7] == 'd' && code[14] == ' ' && code[15] == 'f'
  {
    assert code[..24] == "export default function ";
  }

  /** One white-space character followed by a letter is a run of length one. */
  lemma SingleSpace(s: string, i: nat)
    requires i + 1 < |s| && s[i] == ' ' && 'a' <= s[i + 1] <= 'z'
    ensures SpaceRun(s, i) == 1
  {
    assert SpaceRun(s, i + 1) == 0;
  }

  /** `function` followed by a space is a word run of length eight. */
  lemma KeywordRun(s: string, i: nat)
    requires i + 8 < |s| && s[i..i + 8] == "function" && s[i + 8] == ' '
    ensures WordRun(s, i) == 8
  {
    forall k | i <= k < i + 8 ensures IsWordChar(s[k]) {
      assert s[k] == "function"[k - i];
    }
    WordRunCovers(s, i, i + 8);
  }

  /** With those runs, the pattern matches at the start, ending after `function`, which it captures. */
  lemma ExportDefaultChain(code: string)
    requires |code| > 23 && code[23] == ' '
    requires "export" <= code && "default" <= code[7..] && code[15..23] == "function"
    requires SpaceRun(code, 6) == 1 && SpaceRun(code, 14) == 1 && WordRun(code, 15) == 8
    ensures Find(code, ExportDefault, 0) == Some(Found(0, 23, "function"))
  {
    var p := ExportDefault;
    assert MatchAt(code, 23, p[5..], "function") == Some(Match(23, "function"));
    assert MatchAt(code, 15, p[4..], "") == Some(Match(23, "function"));
    assert MatchAt(code, 14, p[3..], "") == Some(Match(23, "function"));
    assert MatchAt(code, 7, p[2..], "") == Some(Match(23, "function"));
    assert MatchAt(code, 6, p[1..], "") == Some(Match(23, "function"));
    assert MatchAt(code, 0, p, "") == Some(Match(23, "function"));
  }

  /** A run of word characters from `i` to `j` followed by a non-word character has length `j - i`. */
  lemma {:induction false} WordRunCovers(s: string, i: nat, j: nat)
    requires i <= j <= |s|
    requires forall k :: i <= k < j ==> IsWordChar(s[k])
    requires j < |s| && !IsWordChar(s[j])
    ensures WordRun(s, i) == j - i
    decreases j - i
  {
    if i < j { WordRunCovers(s, i + 1, j); }
  }

  /**
   * `processCode(code)`: reassigns its working string step by step and tries the fallback patterns
   * in a loop that stops at the first match.
   */
  method ProcessCode(code: string) returns (processedCode: string)
    ensures processedCode == Normalized(code)
  {
    if code == "" {
      return "";
    }
    processedCode := code;
    processedCode := StripImports(processedCode);
    var exportDefaultMatch := Find(processedCode, ExportDefault, 0);
    if exportDefaultMatch.Some? {
      var found := exportDefaultMatch.value;
      var componentName := found.name;
      processedCode := processedCode[..found.start] + processedCode[found.end..];
      processedCode := processedCode + Trailer(componentName);
    } else {
      var componentName: Option<string> := None;
      for k := 0 to |Fallbacks|
        invariant componentName.None? ==> FirstName(processedCode, Fallbacks) == FirstName(processedCode, Fallbacks[k..])
        invariant componentName.Some? ==> componentName == FirstName(processedCode, Fallbacks)
      {
        var found := Find(processedCode, Fallbacks[k], 0);
        if found.Some? {
          assert FirstName(processedCode, Fallbacks[k..]) == Some(found.value.name);
          componentName := Some(found.value.name);
          break;
        }
        assert Fallbacks[k..][1..] == Fallbacks[k + 1..];
      }
      if componentName.Some? {
        processedCode := processedCode + Trailer(componentName.value);
      } else {
        assert FirstName(processedCode, Fallbacks[|Fallbacks|..]) == None;
      }
    }
  }
}
