/**
 * The iframe variant of the preview (src/components/CodePreview.tsx): the compiled code is
 * spliced verbatim into a fixed HTML document, inside a `try` block that is followed by a
 * mounting line for `MyComponent`; the page shows either that document in a sandboxed frame or a
 * placeholder.
 *
 * The document is a string; loading it (the CDN scripts, `ReactDOM.createRoot`) is not modelled.
 */
module FramePreview {
  import opened Wrappers
  import opened Text

  /** The document up to the `try` that wraps the code: the page head, styles, CDN scripts and global bindings. */
  const PrefixHead: string :=
    "\n"
    + "      <!DOCTYPE html>\n"
    + "      <html>\n"
    + "      <head>\n"
    + "        <meta charset=\"UTF-8\">\n"
    + "        <title>TSX + Tailwind Preview</title>\n"
    + "        <meta name=\"viewport\" content=\"width=device-width, initial-scale=1.0\">\n"
    + "        \n"
    + "        <!-- React -->\n"
    + "        <script crossorigin src=\"https://unpkg.com/react@18/umd/react.development.js\"></script>\n"
    + "        <script crossorigin src=\"https://unpkg.com/react-dom@18/umd/react-dom.development.js\"></script>\n"
    + "        \n"
    + "        <!-- ECharts 和相关库 -->\n"
    + "        <script src=\"https://unpkg.com/echarts@5.4.3/dist/echarts.min.js\"></script>\n"
    + "        <script src=\"https://unpkg.com/echarts-for-react@3.0.2/lib/index.js\"></script>\n"
    + "        \n"
    + "        <!-- Tailwind CSS -->\n"
    + "        <script src=\"https://cdn.tailwindcss.com\"></script>\n"
    + "        <script>\n"
    + "          tailwind.config = {\n"
    + "            darkMode: 'class',\n"
    + "            theme: {\n"
    + "              extend: {\n"
    + "                animation: {\n"
    + "                  'bounce-slow': 'bounce 2s infinite',\n"
    + "                  'pulse-slow': 'pulse 3s infinite'\n"
    + "                }\n"
    + "              }\n"
    + "            }\n"
    + "          }\n"
    + "        </script>\n"
    + "        \n"
    + "        <style>\n"
    + "          body {\n"
    + "            margin: 0;\n"
    + "            padding: 0;\n"
    + "            font-family: -apple-system, BlinkMacSystemFont, 'Segoe UI', 'Roboto', sans-serif;\n"
    + "          }\n"
    + "          #root {\n"
    + "            min-height: 100vh;\n"
    + "            width: 100%;\n"
    + "          }\n"
    + "          .error-container {\n"
    + "            min-height: 100vh;\n"
    + "            display: flex;\n"
    + "            align-items: center;\n"
    + "            justify-content: center;\n"
    + "            background: linear-gradient(135deg, #fef2f2 0%, #fee2e2 100%);\n"
    + "            padding: 2rem;\n"
    + "          }\n"
    + "          .error-card {\n"
    + "            max-width: 32rem;\n"
    + "            background: white;\n"
    + "            border-radius: 0.75rem;\n"
    + "            box-shadow: 0 20px 25px -5px rgba(0, 0, 0, 0.1), 0 10px 10px -5px rgba(0, 0, 0, 0.04);\n"
    + "            border: 1px solid #fecaca;\n"
    + "            padding: 1.5rem;\n"
    + "          }\n"
    + "          .error-header {\n"
    + "            display: flex;\n"
    + "            align-items: center;\n"
    + "            margin-bottom: 1rem;\n"
    + "          }\n"
    + "          .error-icon {\n"
    + "            width: 2rem;\n"
    + "            height: 2rem;\n"
    + "            background: #ef4444;\n"
    + "            border-radius: 50%;\n"
    + "            display: flex;\n"
    + "            align-items: center;\n"
    + "            justify-content: center;\n"
    + "            margin-right: 0.75rem;\n"
    + "            box-shadow: 0 4px 6px -1px rgba(0, 0, 0, 0.1);\n"
    + "          }\n"
    + "          .error-title {\n"
    + "            font-size: 1.125rem;\n"
    + "            font-weight: 600;\n"
    + "            color: #991b1b;\n"
    + "            margin: 0;\n"
    + "          }\n"
    + "          .error-message {\n"
    + "            font-size: 0.875rem;\n"
    + "            color: #dc2626;\n"
    + "            background: #fef2f2;\n"
    + "            padding: 0.75rem;\n"
    + "            border-radius: 0.375rem;\n"
    + "            border: 1px solid #fecaca;\n"
    + "            overflow: auto;\n"
    + "            white-space: pre-wrap;\n"
    + "            font-family: 'Monaco', 'Menlo', 'Consolas', monospace;\n"
    + "            line-height: 1.5;\n"
    + "            margin: 0;\n"
    + "          }\n"
    + "          .error-footer {\n"
    + "            margin-top: 1rem;\n"
    + "            font-size: 0.75rem;\n"
    + "            color: #6b7280;\n"
    + "            text-align: center;\n"
    + "          }\n"
    + "        </style>\n"
    + "      </head>\n"
    + "      <body>\n"
    + "        <div id=\"root\"></div>\n"
    + "        <script>\n"
    + "          // 将 echarts-for-react 暴露为全局变量\n"
    + "          if (typeof window.EchartsForReact !== 'undefined') {\n"
    + "            window.ReactECharts = window.EchartsForReact.default || window.EchartsForReact;\n"
    + "          }\n"
    + "          \n"
    + "          "

  /** From the end of the code to the mounting line. */
  const SuffixHead: string :=
    "\n"
    + "            \n"
    + "            const root = ReactDOM.createRoot(document.getElementById('root'));\n"
    + "            "

  /** From the mounting line to the end of the document: the `catch` that renders the error card. */
  const SuffixTail: string :=
    "\n"
    + "          } catch (error) {\n"
    + "            console.error('渲染错误:', error);\n"
    + "            document.getElementById('root').innerHTML = \n"
    + "              '<div class=\"error-container\">' +\n"
    + "              '<div class=\"error-card\">' +\n"
    + "              '<div class=\"error-header\">' +\n"
    + "              '<div class=\"error-icon\">' +\n"
    + "              '<span style=\"color: white; font-weight: bold; font-size: 0.875rem;\">!</span>' +\n"
    + "              '</div>' +\n"
    + "              '<h3 class=\"error-title\">渲染错误</h3>' +\n"
    + "              '</div>' +\n"
    + "              '<pre class=\"error-message\">' + error.message + '</pre>' +\n"
    + "              '<div class=\"error-footer\">' +\n"
    + "              '请检查TSX语法和TypeScript类型定义' +\n"
    + "              '</div>' +\n"
    + "              '</div>' +\n"
    + "              '</div>';\n"
    + "          }\n"
    + "        </script>\n"
    + "      </body>\n"
    + "      </html>\n"
    + "    "

  /** The `try {` that wraps the code, and the indentation before it. */
  const TryOpen := "try {\n            "

  /** The line that mounts the component: always `MyComponent`, whatever the code defines. */
  const MountLine := "root.render(React.createElement(MyComponent));"

  /**
   * The fixed text of a page around the code, in the three pieces the `try` block and the
   * mounting line separate: the page up to the `try`, the text between the code and the mounting
   * line, and the rest of the page.
   */
  datatype Template = Template(pageHead: string, beforeMount: string, pageTail: string)

  /** The page of `generateIframeContent`. */
  const IframeTemplate := Template(PrefixHead, SuffixHead, SuffixTail)

  /** Everything before the code. */
  function Prefix(t: Template): string {
    t.pageHead + TryOpen
  }

  /** Everything after the code. */
  function Suffix(t: Template): string {
    t.beforeMount + MountLine + t.pageTail
  }

  /** The template filled with the code: empty for empty code, otherwise the code between prefix and suffix. */
  function Fill(t: Template, compiledCode: string): (doc: string)
    ensures doc == "" <==> compiledCode == ""
    ensures compiledCode != "" ==> |doc| == |Prefix(t)| + |compiledCode| + |Suffix(t)|
  {
    if compiledCode == "" then "" else Prefix(t) + compiledCode + Suffix(t)
  }

  /** `generateIframeContent`. */
  function Document(compiledCode: string): (doc: string)
    ensures doc == "" <==> compiledCode == ""
  {
    Fill(IframeTemplate, compiledCode)
  }

  /** Reads back the code a document was built around: what lies between the prefix and the suffix. */
  function EmbeddedCode(t: Template, doc: string): string {
    Inner(doc, |Prefix(t)|, |Suffix(t)|)
  }

  /** `doc` without its first `before` and its last `after` characters; "" when it is shorter than both. */
  function Inner(doc: string, before: nat, after: nat): (r: string)
    ensures |doc| < before + after ==> r == ""
    ensures before + after <= |doc| ==> r == doc[before..|doc| - after]
  {
    if |doc| < before + after then "" else doc[before..|doc| - after]
  }

  /** The code is kept verbatim: reading it back from its document gives it unchanged, empty code included. */
  lemma FillRoundTrip(t: Template, compiledCode: string)
    ensures Fill(t, compiledCode) == "" <==> compiledCode == ""
    ensures EmbeddedCode(t, Fill(t, compiledCode)) == compiledCode
  {
    if compiledCode != "" {
      SpliceParts(Prefix(t), compiledCode, Suffix(t));
    }
  }

  /** The component's own document gives its code back. */
  lemma DocumentRoundTrip(compiledCode: string)
    ensures EmbeddedCode(IframeTemplate, Document(compiledCode)) == compiledCode
  {
    FillRoundTrip(IframeTemplate, compiledCode);
  }

  /** Different code gives different documents. */
  lemma FillInjective(t: Template, a: string, b: string)
    requires Fill(t, a) == Fill(t, b)
    ensures a == b
  {
    FillRoundTrip(t, a);
    FillRoundTrip(t, b);
  }

  /** Every non-empty document is the prefix, then the code, then the suffix. */
  lemma FillLayout(t: Template, compiledCode: string)
    requires compiledCode != ""
    ensures |Fill(t, compiledCode)| == |Prefix(t)| + |compiledCode| + |Suffix(t)|
    ensures Fill(t, compiledCode)[..|Prefix(t)|] == Prefix(t)
    ensures Fill(t, compiledCode)[|Prefix(t)|..|Prefix(t)| + |compiledCode|] == compiledCode
    ensures Fill(t, compiledCode)[|Prefix(t)| + |compiledCode|..] == Suffix(t)
  {
    SpliceParts(Prefix(t), compiledCode, Suffix(t));
  }

  /** The code sits inside the `try` block, which opens right before it. */
  lemma CodeInsideTry(t: Template, compiledCode: string)
    requires compiledCode != ""
    ensures Fill(t, compiledCode)[..|t.pageHead| + |TryOpen|] == t.pageHead + TryOpen
    ensures Fill(t, compiledCode)[|t.pageHead|..|t.pageHead| + |TryOpen|] == TryOpen
    ensures Fill(t, compiledCode)[|t.pageHead| + |TryOpen|..|t.pageHead| + |TryOpen| + |compiledCode|] == compiledCode
  {
    FillLayout(t, compiledCode);
    var d := Fill(t, compiledCode);
    assert d[|t.pageHead|..|t.pageHead| + |TryOpen|] == d[..|Prefix(t)|][|t.pageHead|..];
  }

  /** The code is mounted as `MyComponent` whatever it defines: the mounting line follows every code. */
  lemma AlwaysMountsMyComponent(t: Template, compiledCode: string)
    requires compiledCode != ""
    ensures Contains(Fill(t, compiledCode), MountLine)
  {
    var a := Prefix(t) + compiledCode + t.beforeMount;
    assert Fill(t, compiledCode) == a + MountLine + t.pageTail;
    ContainsMiddle(a, MountLine, t.pageTail);
  }

  /** Where the three parts of a concatenation lie, and that the middle one reads back. */
  lemma SpliceParts(a: string, b: string, c: string)
    ensures var d := a + b + c;
      |d| == |a| + |b| + |c| && d[..|a|] == a && d[|a|..|a| + |b|] == b && d[|a| + |b|..] == c &&
      Inner(d, |a|, |c|) == b
  {
    var d := a + b + c;
    assert d[|a|..|d| - |c|] == b;
  }

  /** A concatenation contains its middle part. */
  lemma ContainsMiddle(a: string, b: string, c: string)
    ensures Contains(a + b + c, b)
  {
    var d := a + b + c;
    assert d[|a|..][..|b|] == b;
  }

  /** What the component renders: a placeholder, or the sandboxed frame carrying the document. */
  datatype FrameView = Placeholder(heading: string, hint: string) | Frame(srcDoc: string, sandbox: string, title: string)

  const CompileFailed := "编译失败"
  const StartCoding := "开始编码"
  const FixTheCode := "请修复代码中的错误"
  const TypeInEditor := "在左侧编辑器中输入 TSX 代码，实时预览将在此处显示"

  /** The component's output for a page template: a placeholder, or the sandboxed frame carrying the filled page. */
  function Render(t: Template, compiledCode: string, error: Option<string>): (v: FrameView)
    ensures v.Placeholder? <==> Truthy(error) || compiledCode == ""
    ensures v.Placeholder? ==>
      v.heading == (if Truthy(error) then CompileFailed else StartCoding) &&
      v.hint == (if Truthy(error) then FixTheCode else TypeInEditor)
    ensures v.Frame? ==> v.srcDoc == Fill(t, compiledCode) && v.sandbox == "allow-scripts" && v.title == "TSX Preview"
  {
    if Truthy(error) || compiledCode == "" then
      Placeholder(if Truthy(error) then CompileFailed else StartCoding,
                  if Truthy(error) then FixTheCode else TypeInEditor)
    else Frame(Fill(t, compiledCode), "allow-scripts", "TSX Preview")
  }

  /** A frame is shown only for non-empty code, and its page gives that code back. */
  lemma FrameCarriesTheCode(t: Template, compiledCode: string, error: Option<string>)
    requires Render(t, compiledCode, error).Frame?
    ensures compiledCode != "" && EmbeddedCode(t, Render(t, compiledCode, error).srcDoc) == compiledCode
  {
    FillRoundTrip(t, compiledCode);
  }

  /** What the component shows. */
  function View(compiledCode: string, error: Option<string>): FrameView {
    Render(IframeTemplate, compiledCode, error)
  }
}
