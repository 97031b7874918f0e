/** The message-content pipeline of `ContentRenderer.tsx`: the top-level
    classifier `detectContentType`, the `switch` that picks a renderer, and
    the `code` hook that the markdown renderer calls for every code element
    embedded in a markdown document. The renderers themselves (diagram
    compilation, syntax highlighting, markdown) are outside the model; a
    view records which renderer is chosen and what it is given. */
module ContentRenderer {
  import opened Wrappers
  import opened Text
  import opened Types

  const Fence := "```"
  const MermaidOpener := "```mermaid"

  /** The longest prefix of `s` made of `\w` characters. */
  function WordRun(s: string): (r: string)
    ensures AllWordChars(r) && StartsWith(s, r)
    ensures |r| < |s| ==> !IsWordChar(s[|r|])
  {
    if s != [] && IsWordChar(s[0]) then [s[0]] + WordRun(s[1..]) else ""
  }

  lemma {:induction false} WordRunOf(w: string, tail: string)
    requires AllWordChars(w)
    requires tail == [] || !IsWordChar(tail[0])
    ensures WordRun(w + tail) == w
  {
    if w != [] {
      assert (w + tail)[1..] == w[1..] + tail;
      WordRunOf(w[1..], tail);
    }
  }

  /** The regular expression `^```(\w+)?\n([\s\S]*?)\n```$` applied to a
      whole string: the optional tag and the body when it matches. The tag
      group is greedy and must be followed by a line feed, so it is the whole
      run of word characters after the opening fence. */
  function MatchCodeBlock(t: string): Option<(string, string)>
  {
    if !StartsWith(t, Fence) then None
    else
      var rest := t[3..];
      var tag := WordRun(rest);
      var after := rest[|tag|..];
      if |after| >= 5 && after[0] == '\n' && EndsWith(after, "\n```")
      then Some((tag, after[1..|after| - 4]))
      else None
  }

  /** A string matches the code-block expression exactly when it is an
      opening fence, a (possibly empty) run of word characters, a line feed,
      the body, a line feed and a closing fence. */
  lemma CodeBlockIntro(tag: string, body: string)
    requires AllWordChars(tag)
    ensures MatchCodeBlock(Fence + tag + "\n" + body + "\n```") == Some((tag, body))
  {
    var t := Fence + tag + "\n" + body + "\n```";
    var rest := t[3..];
    assert rest == tag + ("\n" + body + "\n```");
    WordRunOf(tag, "\n" + body + "\n```");
    var after := rest[|tag|..];
    assert after == "\n" + body + "\n```";
    assert after[1..|after| - 4] == body;
  }

  lemma CodeBlockElim(t: string)
    requires MatchCodeBlock(t).Some?
    ensures var (tag, body) := MatchCodeBlock(t).value;
            AllWordChars(tag) && t == Fence + tag + "\n" + body + "\n```"
  {
    var rest := t[3..];
    var tag := WordRun(rest);
    var after := rest[|tag|..];
    var body := after[1..|after| - 4];
    assert MatchCodeBlock(t) == Some((tag, body));
    assert after == "\n" + body + "\n```" by {
      SplitThree(after, 1, |after| - 4);
    }
    assert rest == tag + after by {
      assert rest[..|tag|] == tag;
    }
    assert t == Fence + rest by {
      assert t[..3] == Fence;
    }
    Regroup5(Fence, tag, "\n", body, "\n```");
  }

  lemma Regroup5(a: string, b: string, c: string, d: string, e: string)
    ensures a + (b + (c + d + e)) == a + b + c + d + e
  {
  }

  /** The closing tag `</name>` ends `t`, where `name` is the `k` characters
      after the opening `<`. */
  predicate ClosesWith(t: string, k: nat)
    requires 1 + k <= |t|
  {
    2 * k + 4 <= |t| && t[|t| - k - 3..] == "</" + t[1..1 + k] + ">"
  }

  /** Tries every length of the leading tag name from `k` upwards, as long
      as the name stays made of word characters, as the backtracking
      regular-expression engine does. */
  predicate HtmlSearch(t: string, k: nat)
    requires 1 <= k && 1 + k <= |t|
    decreases |t| - k
  {
    ClosesWith(t, k) || (1 + k < |t| && IsWordChar(t[1 + k]) && HtmlSearch(t, k + 1))
  }

  /** The regular expression `^<(\w+)[\s\S]*<\/\1>$`: a `<`, a tag name, any
      text, and the closing tag of that name at the very end. The name is
      any non-empty prefix of the word characters after `<`. */
  predicate HtmlMatch(t: string)
  {
    |t| >= 2 && t[0] == '<' && IsWordChar(t[1]) && HtmlSearch(t, 1)
  }

  lemma {:induction false} HtmlSearchIntro(t: string, k: nat, n: nat)
    requires 1 <= k <= n && 1 + n <= |t| && AllWordChars(t[1..1 + n])
    requires ClosesWith(t, n)
    ensures HtmlSearch(t, k)
    decreases n - k
  {
    if k < n {
      assert t[1 + k] == t[1..1 + n][k];
      HtmlSearchIntro(t, k + 1, n);
    }
  }

  /** Every string of the form `<name ... </name>` matches. */
  lemma HtmlMatchIntro(name: string, middle: string)
    requires name != [] && AllWordChars(name)
    ensures HtmlMatch("<" + name + middle + "</" + name + ">")
  {
    var t := "<" + name + middle + "</" + name + ">";
    var n := |name|;
    assert t[1..1 + n] == name;
    assert t[|t| - n - 3..] == "</" + name + ">";
    assert t[1] == name[0];
    HtmlSearchIntro(t, 1, n);
  }

  lemma {:induction false} HtmlSearchElim(t: string, k: nat) returns (n: nat)
    requires 1 <= k && 1 + k <= |t| && AllWordChars(t[1..1 + k])
    requires HtmlSearch(t, k)
    ensures k <= n && 1 + n <= |t| && AllWordChars(t[1..1 + n]) && ClosesWith(t, n)
    decreases |t| - k
  {
    if ClosesWith(t, k) {
      n := k;
    } else {
      assert t[1..2 + k] == t[1..1 + k] + [t[1 + k]];
      n := HtmlSearchElim(t, k + 1);
    }
  }

  /** Every match has the form `<name ... </name>`. */
  lemma HtmlMatchElim(t: string) returns (name: string, middle: string)
    requires HtmlMatch(t)
    ensures name != [] && AllWordChars(name)
    ensures t == "<" + name + middle + "</" + name + ">"
  {
    assert t[1..2] == [t[1]];
    var n := HtmlSearchElim(t, 1);
    name := t[1..1 + n];
    middle := t[1 + n..|t| - n - 3];
    assert t[..1] == "<";
    SplitFour(t, 1, 1 + n, |t| - n - 3);
    Regroup6("<", name, middle, "</", name, ">");
  }

  lemma SplitFour(t: string, a: nat, b: nat, c: nat)
    requires a <= b <= c <= |t|
    ensures t == t[..a] + t[a..b] + t[b..c] + t[c..]
  {
  }

  lemma Regroup6(a: string, b: string, c: string, d: string, e: string, f: string)
    ensures a + b + c + (d + e + f) == a + b + c + d + e + f
  {
  }

  /** `detectContentType`: the classified form of a message's text, decided
      on the trimmed text. */
  function DetectContentType(content: string): (r: RenderableContent)
    ensures r.kind != ContentKind.Text
    ensures r.language.Some? <==> r.kind == Code
  {
    Classify(Trim(content))
  }

  /** The tests of `detectContentType` in order, first match wins. */
  function Classify(t: string): (r: RenderableContent)
    ensures r.kind != ContentKind.Text
    ensures r.language.Some? <==> r.kind == Code
  {
    if StartsWith(t, MermaidOpener) && EndsWith(t, Fence) then
      RenderableContent(Mermaid, Trim(Slice(t, 10, |t| - 3)), None)
    else if MatchCodeBlock(t).Some? then
      var (tag, body) := MatchCodeBlock(t).value;
      RenderableContent(Code, body, Some(if tag == "" then "text" else tag))
    else if StartsWith(t, "<") && EndsWith(t, ">") && HtmlMatch(t) then
      RenderableContent(Html, t, None)
    else
      RenderableContent(Markdown, t, None)
  }

  /** The mermaid test: the trimmed text opens with "```mermaid" and closes
      with "```" — which needs at least 13 characters — and the diagram is
      what lies between, trimmed again. */
  lemma DetectMermaid(content: string)
    requires StartsWith(Trim(content), MermaidOpener) && EndsWith(Trim(content), Fence)
    ensures var t := Trim(content);
            |t| >= 13 && DetectContentType(content) == RenderableContent(Mermaid, Trim(t[10..|t| - 3]), None)
  {
    ClassifyMermaid(Trim(content));
  }

  /** The opening "```mermaid" and the closing fence cannot overlap. */
  lemma MermaidLength(t: string)
    requires StartsWith(t, MermaidOpener) && EndsWith(t, Fence)
    ensures |t| >= 13
  {
    assert t[|t| - 3..][0] == t[|t| - 3] == '`';
    forall k | 3 <= k < 10
      ensures t[k] != '`'
    {
      assert t[..10][k] == t[k] == MermaidOpener[k];
    }
  }

  lemma ClassifyMermaid(t: string)
    requires StartsWith(t, MermaidOpener) && EndsWith(t, Fence)
    ensures |t| >= 13 && Classify(t) == RenderableContent(Mermaid, Trim(t[10..|t| - 3]), None)
  {
    MermaidLength(t);
    assert Slice(t, 10, |t| - 3) == t[10..|t| - 3];
  }

  /** An opening fence whose tag does not begin with "mermaid" does not
      pass the mermaid test. */
  lemma NotMermaidOpener(tag: string, tail: string)
    requires AllWordChars(tag) && !StartsWith(tag, "mermaid")
    requires tail != [] && tail[0] == '\n'
    ensures !StartsWith(Fence + tag + tail, MermaidOpener)
  {
    var t := Fence + tag + tail;
    if |t| >= 10 {
      if |tag| >= 7 {
        assert t[3..10] == tag[..7];
      } else {
        assert t[3 + |tag|] == '\n';
        assert t[..10][3 + |tag|] == '\n';
      }
    }
  }

  /** On text that is already trimmed, detection is classification. */
  lemma DetectTrimmed(t: string)
    requires IsTrimmed(t)
    ensures DetectContentType(t) == Classify(t)
  {
    TrimTrimmed(t);
  }

  /** A fenced block whose tag does not begin with "mermaid" is classified
      as code; the language is the tag, or "text" when there is none. */
  lemma ClassifyCodeBlock(tag: string, body: string) returns (t: string)
    requires AllWordChars(tag) && !StartsWith(tag, "mermaid")
    ensures t == Fence + tag + "\n" + body + "\n```"
    ensures IsTrimmed(t)
    ensures Classify(t) == RenderableContent(Code, body, Some(if tag == "" then "text" else tag))
  {
    var tail := "\n" + body + "\n```";
    t := Fence + tag + "\n" + body + "\n```";
    assert t == Fence + tag + tail;
    assert t[0] == '`' && t[|t| - 1] == '`';
    CodeBlockIntro(tag, body);
    NotMermaidOpener(tag, tail);
  }

  /** A whole-input fenced block whose tag does not begin with "mermaid" is
      code, whatever the body. */
  lemma DetectCode(tag: string, body: string)
    requires AllWordChars(tag) && !StartsWith(tag, "mermaid")
    ensures DetectContentType(Fence + tag + "\n" + body + "\n```")
         == RenderableContent(Code, body, Some(if tag == "" then "text" else tag))
  {
    var t := ClassifyCodeBlock(tag, body);
    DetectTrimmed(t);
  }

  /** The example of a fenced JavaScript block. */
  lemma DetectCodeExample()
    ensures DetectContentType("```js\nconsole.log(1)\n```")
         == RenderableContent(Code, "console.log(1)", Some("js"))
  {
    assert Fence + "js" + "\n" + "console.log(1)" + "\n```" == "```js\nconsole.log(1)\n```";
    assert !StartsWith("js", "mermaid");
    DetectCode("js", "console.log(1)");
  }

  /** A mermaid fence also matches the code-block expression, but the mermaid
      test runs first, so the text is never classified as code. */
  lemma MermaidBeatsCode(body: string)
    ensures var t := Fence + "mermaid" + "\n" + body + "\n```";
            MatchCodeBlock(t) == Some(("mermaid", body))
            && DetectContentType(t).kind == Mermaid
  {
    CodeBlockIntro("mermaid", body);
    var opener := Fence + "mermaid";
    assert opener == MermaidOpener;
    StartsWithConcat(opener, "\n");
    StartsWithAppend(opener + "\n", opener, body);
    StartsWithAppend(opener + "\n" + body, opener, "\n```");
    var t := opener + "\n" + body + "\n```";
    EndsWithConcat(opener + "\n" + body, "\n```");
    FencedTrimmed(t);
    ClassifyMermaid(t);
  }

  /** Text that opens and closes with a fence character is trimmed. */
  lemma FencedTrimmed(t: string)
    requires StartsWith(t, MermaidOpener) && EndsWith(t, "\n```")
    ensures StartsWith(t, MermaidOpener) && EndsWith(t, Fence)
    ensures DetectContentType(t) == Classify(t)
  {
    assert t[..10][0] == t[0];
    assert t[|t| - 4..][3] == t[|t| - 1];
    assert t[|t| - 3..] == t[|t| - 4..][1..];
    DetectTrimmed(t);
  }

  /** A `<name ... </name>` fragment is html, whatever lies between. */
  lemma DetectHtml(name: string, middle: string)
    requires name != [] && AllWordChars(name)
    ensures var t := "<" + name + middle + "</" + name + ">";
            DetectContentType(t) == RenderableContent(Html, t, None)
  {
    var t := "<" + name + middle + "</" + name + ">";
    HtmlMatchIntro(name, middle);
    StartsWithConcat("<", name);
    StartsWithAppend("<" + name, "<", middle);
    StartsWithAppend("<" + name + middle, "<", "</");
    StartsWithAppend("<" + name + middle + "</", "<", name);
    StartsWithAppend("<" + name + middle + "</" + name, "<", ">");
    EndsWithConcat("<" + name + middle + "</" + name, ">");
    ClassifyHtml(t);
  }

  /** Text that starts with "<", ends with ">" and matches the html
      expression is html. */
  lemma ClassifyHtml(t: string)
    requires StartsWith(t, "<") && EndsWith(t, ">") && HtmlMatch(t)
    ensures DetectContentType(t) == RenderableContent(Html, t, None)
  {
    assert t[..1][0] == t[0] && t[|t| - 1..][0] == t[|t| - 1];
    DetectTrimmed(t);
    FirstCharDiffers(t, Fence);
    FirstCharDiffers(t, MermaidOpener);
  }

  /** A text whose first character differs from the first of `p` does not
      start with `p`. */
  lemma FirstCharDiffers(t: string, p: string)
    requires t != [] && p != [] && t[0] != p[0]
    ensures !StartsWith(t, p)
  {
    if |p| <= |t| {
      assert t[..|p|][0] == t[0];
    }
  }

  /** Only the final closing tag is compared with a prefix of the opening
      tag's name, so mismatched tags can still be html. */
  lemma HtmlPrefixExample()
    ensures DetectContentType("<ab></a>") == RenderableContent(Html, "<ab></a>", None)
  {
    assert "<" + "a" + "b>" + "</" + "a" + ">" == "<ab></a>";
    DetectHtml("a", "b>");
  }

  /** Everything that fails the three tests is markdown, carrying the
      trimmed text. */
  lemma DetectMarkdown(content: string)
    requires var t := Trim(content);
             !(StartsWith(t, MermaidOpener) && EndsWith(t, Fence))
             && MatchCodeBlock(t).None? && !HtmlMatch(t)
    ensures DetectContentType(content) == RenderableContent(Markdown, Trim(content), None)
  {
  }

  /** Classification looks only at the trimmed text. */
  lemma DetectIgnoresPadding(a: string, content: string, b: string)
    requires AllWhitespace(a) && AllWhitespace(b)
    ensures DetectContentType(a + content + b) == DetectContentType(content)
  {
    TrimPadded(a, content, b);
  }

  /** The top-level mermaid test only asks for the prefix "```mermaid", so a
      fence tagged "mermaidx" is a diagram there — with the rest of the tag
      left in the diagram text — while the embedded hook reads its language
      as "mermaidx" and highlights it as code. */
  lemma MermaidTagDivergence()
    ensures DetectContentType(MermaidOpener + ("x\nA" + "\n") + Fence) == RenderableContent(Mermaid, "x\nA", None)
    ensures CodeHook(false, Some("language-mermaidx"), "A\n") == HighlightedBlock("A", "mermaidx", false)
  {
    MermaidxTopLevel();
    MermaidxHook();
  }

  lemma MermaidxTopLevel()
    ensures DetectContentType(MermaidOpener + ("x\nA" + "\n") + Fence) == RenderableContent(Mermaid, "x\nA", None)
  {
    assert IsTrimmed("x\nA");
    MermaidOfTrimmed("x\nA");
  }

  /** A trimmed diagram text followed by a line feed and fenced as mermaid
      is detected as that diagram. */
  lemma MermaidOfTrimmed(m: string)
    requires IsTrimmed(m)
    ensures var t := MermaidOpener + (m + "\n") + Fence;
            Classify(t) == RenderableContent(Mermaid, m, None)
            && DetectContentType(t) == RenderableContent(Mermaid, m, None)
  {
    TrimLineFeed(m);
    var t := MermaidOpener + (m + "\n") + Fence;
    MermaidParts(m + "\n");
    DetectTrimmed(t);
    ClassifyMermaid(t);
  }

  /** The diagram text between the opening and the closing fence. */
  lemma MermaidParts(m: string)
    ensures var t := MermaidOpener + m + Fence;
            StartsWith(t, MermaidOpener) && EndsWith(t, Fence) && t[10..|t| - 3] == m
            && IsTrimmed(t)
  {
    var t := MermaidOpener + m + Fence;
    StartsWithConcat(MermaidOpener, m);
    StartsWithAppend(MermaidOpener + m, MermaidOpener, Fence);
    EndsWithConcat(MermaidOpener + m, Fence);
    assert t[10..|t| - 3] == m;
    assert t[0] == MermaidOpener[0] && t[|t| - 1] == Fence[2];
  }

  lemma TrimLineFeed(r: string)
    requires IsTrimmed(r)
    ensures Trim(r + "\n") == r
  {
    assert AllWhitespace("\n");
    TrimUnique([], r, "\n");
    assert [] + r + "\n" == r + "\n";
  }

  lemma MermaidxLanguage()
    ensures LanguageOf("language-mermaidx") == "mermaidx"
  {
    var cls := "language-mermaidx";
    assert LanguageAt(cls, 0);
    assert cls[9..] == "mermaidx" + "";
    WordRunOf("mermaidx", "");
  }

  lemma MermaidxHook()
    ensures CodeHook(false, Some("language-mermaidx"), "A\n") == HighlightedBlock("A", "mermaidx", false)
  {
    MermaidxLanguage();
    assert StripTrailingNewline("A\n") == "A";
    assert Count("A", '\n') == 0;
  }

  /** `/\n$/` removed: one final line feed, if there is one. */
  function StripTrailingNewline(s: string): (r: string)
    ensures s == r + "\n" || (r == s && (s == [] || s[|s| - 1] != '\n'))
  {
    if s != [] && s[|s| - 1] == '\n' then s[..|s| - 1] else s
  }

  /** At position `i` of `cls` stands "language-" and a word character. */
  predicate LanguageAt(cls: string, i: nat)
  {
    i + 10 <= |cls| && cls[i..i + 9] == "language-" && IsWordChar(cls[i + 9])
  }

  /** `/language-(\w+)/.exec(cls)`: the word run after the leftmost
      "language-" that is followed by a word character, or "" when there
      is none. */
  function LanguageOf(cls: string): (r: string)
    ensures r != [] ==> AllWordChars(r) && Contains(cls, "language-" + r)
  {
    if LanguageAt(cls, 0) then
      var w := WordRun(cls[9..]);
      assert StartsWith(cls, "language-" + w) by {
        assert cls[..9 + |w|] == cls[..9] + cls[9..][..|w|];
      }
      w
    else if cls == [] then ""
    else LanguageOf(cls[1..])
  }

  /** Dropping the first character shifts every position by one. */
  lemma LanguageAtShift(cls: string)
    requires cls != []
    ensures forall i :: 0 <= i < |cls| - 1 ==> (LanguageAt(cls[1..], i) <==> LanguageAt(cls, i + 1))
  {
    forall i | 0 <= i < |cls| - 1
      ensures LanguageAt(cls[1..], i) <==> LanguageAt(cls, i + 1)
    {
      if i + 11 <= |cls| {
        assert cls[1..][i..i + 9] == cls[i + 1..i + 10];
      }
    }
  }

  /** The language is found exactly when "language-" and a word character
      occur somewhere. */
  lemma {:induction false} LanguageOfFound(cls: string)
    ensures LanguageOf(cls) == "" <==> forall i :: 0 <= i < |cls| ==> !LanguageAt(cls, i)
  {
    if LanguageAt(cls, 0) {
      assert WordRun(cls[9..]) != "";
    } else if cls != [] {
      LanguageOfFound(cls[1..]);
      LanguageAtShift(cls);
      if LanguageOf(cls) == "" {
        forall i | 0 <= i < |cls| ensures !LanguageAt(cls, i) {
          if i > 0 { assert !LanguageAt(cls[1..], i - 1); }
        }
      } else {
        var i :| 0 <= i < |cls[1..]| && LanguageAt(cls[1..], i);
        assert LanguageAt(cls, i + 1);
      }
    }
  }

  /** When found, the language is the word run at the leftmost place where
      "language-" and a word character occur. */
  lemma {:induction false} LanguageOfLeftmost(cls: string) returns (i: nat)
    requires LanguageOf(cls) != ""
    ensures i < |cls| && LanguageAt(cls, i) && LanguageOf(cls) == WordRun(cls[i + 9..])
    ensures forall j :: 0 <= j < i ==> !LanguageAt(cls, j)
  {
    if LanguageAt(cls, 0) {
      i := 0;
    } else {
      assert LanguageOf(cls) == LanguageOf(cls[1..]);
      var k := LanguageOfLeftmost(cls[1..]);
      i := k + 1;
      assert cls[1..][k + 9..] == cls[i + 9..];
      LanguageAtShift(cls);
      NoEarlierLanguage(cls, k);
    }
  }

  lemma NoEarlierLanguage(cls: string, k: nat)
    requires k < |cls| - 1 && !LanguageAt(cls, 0)
    requires forall j :: 0 <= j < k ==> !LanguageAt(cls[1..], j)
    requires forall i :: 0 <= i < |cls| - 1 ==> (LanguageAt(cls[1..], i) <==> LanguageAt(cls, i + 1))
    ensures forall j :: 0 <= j < k + 1 ==> !LanguageAt(cls, j)
  {
    forall j | 0 <= j < k + 1 ensures !LanguageAt(cls, j) {
      if j > 0 { assert !LanguageAt(cls[1..], j - 1); }
    }
  }

  /** What the markdown renderer's `code` hook produces. */
  datatype HookOutput =
    | DiagramBlock(source: string)
    | HighlightedBlock(code: string, language: string, showLineNumbers: bool)
    | InlineCode(className: Option<string>, children: string)

  /** The `code` hook: a block element with a language class goes to the
      diagram renderer when the language is "mermaid" and otherwise to the
      code renderer, numbered when it has more than five lines; everything
      else stays a plain code element. */
  function CodeHook(inline: bool, className: Option<string>, children: string): (r: HookOutput)
    ensures r.InlineCode? <==> inline || LanguageOf(className.GetOr("")) == ""
    ensures r.InlineCode? ==> r.className == className && r.children == children
    ensures r.DiagramBlock? <==> !inline && LanguageOf(className.GetOr("")) == "mermaid"
    ensures r.DiagramBlock? ==> r.source == StripTrailingNewline(children)
    ensures r.HighlightedBlock? ==> (r.code == StripTrailingNewline(children)
                                     && r.language == LanguageOf(className.GetOr(""))
                                     && (r.showLineNumbers <==> Count(r.code, '\n') >= 5))
  {
    var language := LanguageOf(className.GetOr(""));
    if !inline && language != "" then
      var code := StripTrailingNewline(children);
      if language == "mermaid" then DiagramBlock(code)
      else HighlightedBlock(code, language, |Split(code, '\n')| > 5)
    else InlineCode(className, children)
  }

  /** The renderer `ContentRenderer` picks, with what it passes on. The code
      renderer's own defaults apply: no line numbers. */
  datatype View =
    | MermaidView(diagram: string)
    | CodeView(code: string, language: string, showLineNumbers: bool)
    | MarkdownView(source: string)

  /** The `switch` in `ContentRenderer`: diagrams and code blocks get the
      classified text; html and markdown both go to the markdown renderer,
      which is given the original, untrimmed text. */
  function Render(content: string): (v: View)
    ensures var rc := DetectContentType(content);
            && (v.MermaidView? <==> rc.kind == Mermaid)
            && (v.CodeView? <==> rc.kind == Code)
            && (v.MermaidView? ==> v.diagram == rc.content)
            && (v.CodeView? ==> v.code == rc.content && rc.language == Some(v.language) && !v.showLineNumbers)
            && (v.MarkdownView? ==> v.source == content)
  {
    var rc := DetectContentType(content);
    match rc.kind
    case Mermaid => MermaidView(rc.content)
    case Code => CodeView(rc.content, rc.language.GetOr("text"), false)
    case _ => MarkdownView(content)
  }
}
