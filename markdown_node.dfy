/**
 * The markdown note: the line-by-line renderer that turns the note's text into
 * heading, list, break and paragraph blocks, the inline substitutions for bold,
 * italic and code, the toolbar that appends fixed snippets, and the defaults.
 */
module MarkdownNode {
  import opened Wrappers
  import opened JsStrings

  const DefaultContent: string := "# New Note\n\nClick to edit..."
  const DefaultTitle: string := "Markdown Note"

  // Inline formatting

  /**
   * Where a delimited span that opens at the start of `rest` closes: the first later
   * occurrence of the delimiter, provided no line terminator comes before it.
   */
  function CloseAt(rest: string, d: string): (r: Option<nat>)
    ensures r.Some? ==> OccursAt(rest, d, r.value)
    ensures r.Some? ==> forall k :: 0 <= k < r.value ==> !OccursAt(rest, d, k)
    ensures r.Some? ==> forall k :: 0 <= k < r.value ==> !IsLineTerminator(rest[k])
  {
    match IndexOf(rest, d)
    case None => None
    case Some(j) =>
      if exists k :: 0 <= k < j && IsLineTerminator(rest[k]) then None else Some(j)
  }

  /**
   * `s.replace(/D(.*?)D/g, '<tag>$1</tag>')` for the delimiter `d`: scanning left to
   * right, each opening delimiter with a closing one later on the same line becomes
   * an element around the text between them.
   */
  function ReplaceDelimited(s: string, d: string, tag: string): (r: string)
    requires |d| > 0
    ensures s == [] ==> r == []
    ensures StartsWith(s, d) && CloseAt(s[|d|..], d).Some? ==>
      StartsWith(r, "<" + tag + ">" + s[|d|..][..CloseAt(s[|d|..], d).value] + "</" + tag + ">")
    ensures s != [] && !(StartsWith(s, d) && CloseAt(s[|d|..], d).Some?) ==> r != [] && r[0] == s[0]
    ensures (forall k :: 0 <= k < |s| ==> s[k] != d[0]) ==> r == s
    decreases |s|
  {
    if s == [] then []
    else if StartsWith(s, d) then
      assert s[0] == d[0] by { assert s[..|d|][0] == s[0]; }
      var rest := s[|d|..];
      match CloseAt(rest, d)
      case Some(j) =>
        "<" + tag + ">" + rest[..j] + "</" + tag + ">" + ReplaceDelimited(rest[j + |d|..], d, tag)
      case None => [s[0]] + ReplaceDelimited(s[1..], d, tag)
    else [s[0]] + ReplaceDelimited(s[1..], d, tag)
  }

  /**
   * Bold, then italic, then code, in that order. Text with no `*` and no backtick is
   * rendered inline exactly as written.
   */
  function Inline(s: string): (r: string)
    ensures (forall k :: 0 <= k < |s| ==> s[k] != '*' && s[k] != '`') ==> r == s
  {
    ReplaceDelimited(ReplaceDelimited(ReplaceDelimited(s, "**", "strong"), "*", "em"), "`", "code")
  }

  // Blocks

  datatype Block =
    | H1(text: string)
    | H2(text: string)
    | H3(text: string)
    | BulletList(items: seq<string>)
    | Break
    | Paragraph(html: string)

  /** How the renderer reads one line. */
  datatype LineKind = Heading(level: nat, text: string) | ListItem(html: string) | Blank | ParagraphLine(html: string)

  /**
   * The first matching rule: "# ", "## ", "### " headings keep their text as is, a
   * "- " line is a list item, a whitespace-only line is blank, and anything else is
   * a paragraph; list items and paragraphs get the inline substitutions.
   */
  function Classify(line: string): (k: LineKind)
    ensures k.Heading? ==> 1 <= k.level <= 3
    ensures StartsWith(line, "# ") ==> k == Heading(1, line[2..])
    ensures StartsWith(line, "## ") ==> k == Heading(2, line[3..])
    ensures StartsWith(line, "### ") ==> k == Heading(3, line[4..])
    ensures (!StartsWith(line, "# ") && !StartsWith(line, "## ") && !StartsWith(line, "### ")
             && StartsWith(line, "- ")) ==> k == ListItem(Inline(line[2..]))
    ensures (!StartsWith(line, "# ") && !StartsWith(line, "## ") && !StartsWith(line, "### ")
             && !StartsWith(line, "- ") && !AllWhitespace(line)) ==> k == ParagraphLine(Inline(line))
    ensures k.Blank? <==> !StartsWith(line, "# ") && !StartsWith(line, "## ") && !StartsWith(line, "### ")
                          && !StartsWith(line, "- ") && AllWhitespace(line)
  {
    HeadingPrefixesExclusive(line);
    if StartsWith(line, "# ") then
      assert Substring(line, 2, |line|) == line[2..];
      Heading(1, Substring(line, 2, |line|))
    else if StartsWith(line, "## ") then
      assert Substring(line, 3, |line|) == line[3..];
      Heading(2, Substring(line, 3, |line|))
    else if StartsWith(line, "### ") then
      assert Substring(line, 4, |line|) == line[4..];
      Heading(3, Substring(line, 4, |line|))
    else if StartsWith(line, "- ") then
      assert Substring(line, 2, |line|) == line[2..];
      ListItem(Inline(Substring(line, 2, |line|)))
    else if Trim(line) == "" then Blank
    else ParagraphLine(Inline(line))
  }

  function HeadingBlock(level: nat, text: string): Block {
    if level == 1 then H1(text) else if level == 2 then H2(text) else H3(text)
  }

  /** The renderer's state: the blocks emitted so far and the pending list items. */
  datatype RenderState = RenderState(elements: seq<Block>, pending: seq<string>)

  /** `flushList`: a non-empty pending list becomes one list block. */
  function Flush(st: RenderState): (r: RenderState)
    ensures r.pending == []
  {
    if |st.pending| > 0 then RenderState(st.elements + [BulletList(st.pending)], []) else st
  }

  /** The effect of one line. */
  function Step(st: RenderState, line: string): RenderState {
    Apply(st, Classify(line))
  }

  /** The effect of one line of the given kind. */
  function Apply(st: RenderState, k: LineKind): RenderState {
    match k
    case Heading(level, text) =>
      var f := Flush(st);
      f.(elements := f.elements + [HeadingBlock(level, text)])
    case ListItem(html) => st.(pending := st.pending + [html])
    case Blank =>
      var f := Flush(st);
      if |f.elements| > 0 then f.(elements := f.elements + [Break]) else f
    case ParagraphLine(html) =>
      var f := Flush(st);
      f.(elements := f.elements + [Paragraph(html)])
  }

  /** The state after the given lines. */
  function Run(lines: seq<string>): RenderState
    decreases |lines|
  {
    if lines == [] then RenderState([], [])
    else Step(Run(lines[..|lines| - 1]), lines[|lines| - 1])
  }

  /** The blocks `renderMarkdown` returns for a text. */
  function Rendered(md: string): seq<Block> {
    Flush(Run(Split(md, '\n'))).elements
  }

  /** `flushList` as a step on the renderer's two variables. */
  method FlushList(elements: seq<Block>, currentList: seq<string>)
    returns (elements': seq<Block>, currentList': seq<string>)
    ensures RenderState(elements', currentList') == Flush(RenderState(elements, currentList))
  {
    elements', currentList' := elements, currentList;
    if |currentList'| > 0 {
      elements' := elements' + [BulletList(currentList')];
      currentList' := [];
    }
  }

  /** `renderMarkdown`: one pass over the lines, then a final flush. */
  method RenderMarkdown(md: string) returns (elements: seq<Block>)
    ensures elements == Rendered(md)
  {
    var lines := Split(md, '\n');
    elements := [];
    var currentList: seq<string> := [];
    var idx := 0;
    while idx < |lines|
      invariant 0 <= idx <= |lines|
      invariant RenderState(elements, currentList) == Run(lines[..idx])
    {
      RunPrefixStep(lines, idx);
      elements, currentList := RenderLine(elements, currentList, lines[idx]);
      idx := idx + 1;
    }
    assert lines[..idx] == lines;
    elements, currentList := FlushList(elements, currentList);
  }

  lemma RunPrefixStep(lines: seq<string>, idx: nat)
    requires idx < |lines|
    ensures Run(lines[..idx + 1]) == Step(Run(lines[..idx]), lines[idx])
  {
    assert lines[..idx + 1][..idx] == lines[..idx];
  }

  /** The body of the loop of `renderMarkdown`: one line's effect on the two variables. */
  method RenderLine(elements: seq<Block>, currentList: seq<string>, line: string)
    returns (elements': seq<Block>, currentList': seq<string>)
    ensures RenderState(elements', currentList') == Step(RenderState(elements, currentList), line)
  {
    elements', currentList' := elements, currentList;
    if StartsWith(line, "# ") {
      elements', currentList' := FlushList(elements', currentList');
      elements' := elements' + [H1(Substring(line, 2, |line|))];
    } else if StartsWith(line, "## ") {
      elements', currentList' := FlushList(elements', currentList');
      elements' := elements' + [H2(Substring(line, 3, |line|))];
    } else if StartsWith(line, "### ") {
      elements', currentList' := FlushList(elements', currentList');
      elements' := elements' + [H3(Substring(line, 4, |line|))];
    } else if StartsWith(line, "- ") {
      var content := Inline(Substring(line, 2, |line|));
      currentList' := currentList' + [content];
    } else if Trim(line) == "" {
      elements', currentList' := FlushList(elements', currentList');
      if |elements'| > 0 {
        elements' := elements' + [Break];
      }
    } else {
      elements', currentList' := FlushList(elements', currentList');
      var content := Inline(line);
      elements' := elements' + [Paragraph(content)];
    }
  }

  // Order preservation: the blocks, flattened, are the lines' contributions in order.

  datatype Out = HeadingOut(level: nat, text: string) | ItemOut(html: string) | BreakOut | ParagraphOut(html: string)

  function BlockOut(b: Block): seq<Out> {
    match b
    case H1(t) => [HeadingOut(1, t)]
    case H2(t) => [HeadingOut(2, t)]
    case H3(t) => [HeadingOut(3, t)]
    case BulletList(items) => Items(items)
    case Break => [BreakOut]
    case Paragraph(h) => [ParagraphOut(h)]
  }

  function Items(items: seq<string>): (r: seq<Out>)
    ensures |r| == |items|
    decreases |items|
  {
    if items == [] then [] else Items(items[..|items| - 1]) + [ItemOut(items[|items| - 1])]
  }

  /** The blocks flattened: every list replaced by its items. */
  function Expand(blocks: seq<Block>): seq<Out>
    decreases |blocks|
  {
    if blocks == [] then [] else Expand(blocks[..|blocks| - 1]) + BlockOut(blocks[|blocks| - 1])
  }

  /** What one line contributes; a blank line gives a break only after some content. */
  function LineOut(line: string, seenContent: bool): seq<Out> {
    KindOut(Classify(line), seenContent)
  }

  function KindOut(k: LineKind, seenContent: bool): seq<Out> {
    match k
    case Heading(level, text) => [HeadingOut(level, text)]
    case ListItem(html) => [ItemOut(html)]
    case Blank => if seenContent then [BreakOut] else []
    case ParagraphLine(html) => [ParagraphOut(html)]
  }

  predicate SomeContent(lines: seq<string>) {
    exists i :: 0 <= i < |lines| && !Classify(lines[i]).Blank?
  }

  /** The contributions of the lines, in line order. */
  function ExpectedOut(lines: seq<string>): seq<Out>
    decreases |lines|
  {
    if lines == [] then []
    else
      var front := lines[..|lines| - 1];
      ExpectedOut(front) + LineOut(lines[|lines| - 1], SomeContent(front))
  }

  lemma ExpandAppendOne(blocks: seq<Block>, b: Block)
    ensures Expand(blocks + [b]) == Expand(blocks) + BlockOut(b)
  {
    assert (blocks + [b])[..|blocks|] == blocks;
  }

  lemma FlushKeepsOutput(st: RenderState)
    ensures Expand(Flush(st).elements) + Items(Flush(st).pending)
         == Expand(st.elements) + Items(st.pending)
    ensures (Flush(st).elements != []) <==> (st.elements != [] || st.pending != [])
  {
    if |st.pending| > 0 {
      ExpandAppendOne(st.elements, BulletList(st.pending));
    }
  }

  /** A non-list step: flush, then one more block. */
  lemma PushOutput(st: RenderState, b: Block)
    ensures Expand(Flush(st).elements + [b]) == Expand(st.elements) + Items(st.pending) + BlockOut(b)
  {
    var f := Flush(st);
    assert Expand(f.elements) == Expand(st.elements) + Items(st.pending) by {
      FlushKeepsOutput(st);
      assert f.pending == [] && Items([]) == [];
    }
    ExpandAppendOne(f.elements, b);
  }

  /** Whether anything has been emitted or collected yet. */
  predicate Started(st: RenderState) {
    st.elements != [] || st.pending != []
  }

  /** The output so far: the blocks flattened, then the pending items. */
  function Emitted(st: RenderState): seq<Out> {
    Expand(st.elements) + Items(st.pending)
  }

  /** A line that flushes and then pushes block `b` adds exactly `b`'s output. */
  lemma PushStep(st: RenderState, b: Block, r: RenderState)
    requires r == RenderState(Flush(st).elements + [b], [])
    ensures Emitted(r) == Emitted(st) + BlockOut(b)
    ensures Started(r)
  {
    PushOutput(st, b);
    assert Items([]) == [];
  }

  lemma ListStep(st: RenderState, html: string)
    ensures Emitted(Apply(st, ListItem(html))) == Emitted(st) + [ItemOut(html)]
    ensures Started(Apply(st, ListItem(html)))
  {
    var p := st.pending + [html];
    assert p[..|st.pending|] == st.pending;
    assert Items(p) == Items(st.pending) + [ItemOut(html)];
  }

  lemma BlankStep(st: RenderState)
    ensures Emitted(Apply(st, Blank)) == Emitted(st) + KindOut(Blank, Started(st))
    ensures Started(Apply(st, Blank)) <==> Started(st)
  {
    var f := Flush(st);
    FlushKeepsOutput(st);
    assert Items([]) == [];
    if |f.elements| > 0 {
      PushStep(st, Break, Apply(st, Blank));
    }
  }

  lemma ApplyOutput(st: RenderState, k: LineKind)
    requires k.Heading? ==> 1 <= k.level <= 3
    ensures Expand(Apply(st, k).elements) + Items(Apply(st, k).pending)
         == Expand(st.elements) + Items(st.pending) + KindOut(k, st.elements != [] || st.pending != [])
    ensures (Apply(st, k).elements != [] || Apply(st, k).pending != [])
        <==> (st.elements != [] || st.pending != [] || !k.Blank?)
  {
    match k
    case Heading(level, text) =>
      var b := HeadingBlock(level, text);
      PushStep(st, b, Apply(st, k));
      assert BlockOut(b) == [HeadingOut(level, text)];
    case ListItem(html) =>
      ListStep(st, html);
    case Blank =>
      BlankStep(st);
    case ParagraphLine(html) =>
      PushStep(st, Paragraph(html), Apply(st, k));
  }

  lemma SomeContentSnoc(lines: seq<string>)
    requires lines != []
    ensures SomeContent(lines)
        <==> SomeContent(lines[..|lines| - 1]) || !Classify(lines[|lines| - 1]).Blank?
  {
    var front := lines[..|lines| - 1];
    assert forall i :: 0 <= i < |front| ==> front[i] == lines[i];
  }

  lemma {:induction false} RunOutput(lines: seq<string>)
    ensures Expand(Run(lines).elements) + Items(Run(lines).pending) == ExpectedOut(lines)
    ensures (Run(lines).elements != [] || Run(lines).pending != []) <==> SomeContent(lines)
    decreases |lines|
  {
    if lines != [] {
      var front := lines[..|lines| - 1];
      var line := lines[|lines| - 1];
      var k := Classify(line);
      RunOutput(front);
      ApplyOutput(Run(front), k);
      SomeContentSnoc(lines);
      assert Run(lines) == Apply(Run(front), k);
      assert ExpectedOut(lines) == ExpectedOut(front) + KindOut(k, SomeContent(front));
    }
  }

  /**
   * The rendered blocks keep source-line order: flattened, they are exactly the
   * contributions of the lines one after another, with no pending item left out.
   */
  lemma RenderedInLineOrder(md: string)
    ensures Expand(Rendered(md)) == ExpectedOut(Split(md, '\n'))
  {
    var st := Run(Split(md, '\n'));
    RunOutput(Split(md, '\n'));
    FlushKeepsOutput(st);
  }

  // Shape of the output: lists are never empty and never adjacent.

  predicate ListsWellFormed(elements: seq<Block>) {
    && (forall i :: 0 <= i < |elements| && elements[i].BulletList? ==> elements[i].items != [])
    && (forall i :: 0 <= i < |elements| - 1 && elements[i].BulletList? ==> !elements[i + 1].BulletList?)
  }

  predicate LastIsNotList(elements: seq<Block>) {
    elements == [] || !elements[|elements| - 1].BulletList?
  }

  lemma ApplyShape(st: RenderState, k: LineKind)
    requires ListsWellFormed(st.elements) && LastIsNotList(st.elements)
    ensures ListsWellFormed(Apply(st, k).elements) && LastIsNotList(Apply(st, k).elements)
  {
  }

  lemma {:induction false} RunShape(lines: seq<string>)
    ensures ListsWellFormed(Run(lines).elements) && LastIsNotList(Run(lines).elements)
    decreases |lines|
  {
    if lines != [] {
      RunShape(lines[..|lines| - 1]);
      ApplyShape(Run(lines[..|lines| - 1]), Classify(lines[|lines| - 1]));
    }
  }

  /** Every list block holds at least one item and no two list blocks are adjacent. */
  lemma RenderedListsWellFormed(md: string)
    ensures ListsWellFormed(Rendered(md))
  {
    RunShape(Split(md, '\n'));
    FlushShape(Run(Split(md, '\n')));
  }

  /** Flushing a well-formed state whose last block is not a list gives well-formed blocks. */
  lemma FlushShape(st: RenderState)
    requires ListsWellFormed(st.elements) && LastIsNotList(st.elements)
    ensures ListsWellFormed(Flush(st).elements)
  {
    if |st.pending| > 0 {
      var e := st.elements + [BulletList(st.pending)];
      assert forall i :: 0 <= i < |st.elements| ==> e[i] == st.elements[i];
      assert e[|st.elements|] == BulletList(st.pending);
    }
  }

  // Counting list items.

  function ItemCount(blocks: seq<Block>): nat
    decreases |blocks|
  {
    if blocks == [] then 0
    else
      var b := blocks[|blocks| - 1];
      ItemCount(blocks[..|blocks| - 1]) + (if b.BulletList? then |b.items| else 0)
  }

  function ListLineCount(lines: seq<string>): nat
    decreases |lines|
  {
    if lines == [] then 0
    else ListLineCount(lines[..|lines| - 1]) + (if Classify(lines[|lines| - 1]).ListItem? then 1 else 0)
  }

  lemma ItemCountAppend(blocks: seq<Block>, b: Block)
    ensures ItemCount(blocks + [b]) == ItemCount(blocks) + (if b.BulletList? then |b.items| else 0)
  {
    assert (blocks + [b])[..|blocks|] == blocks;
  }

  lemma ApplyCount(st: RenderState, k: LineKind)
    ensures ItemCount(Apply(st, k).elements) + |Apply(st, k).pending|
         == ItemCount(st.elements) + |st.pending| + (if k.ListItem? then 1 else 0)
  {
    var f := Flush(st);
    if |st.pending| > 0 {
      ItemCountAppend(st.elements, BulletList(st.pending));
    }
    match k
    case Heading(level, text) => ItemCountAppend(f.elements, HeadingBlock(level, text));
    case ListItem(_) =>
    case Blank => ItemCountAppend(f.elements, Break);
    case ParagraphLine(html) => ItemCountAppend(f.elements, Paragraph(html));
  }

  lemma {:induction false} RunCount(lines: seq<string>)
    ensures ItemCount(Run(lines).elements) + |Run(lines).pending| == ListLineCount(lines)
    decreases |lines|
  {
    if lines != [] {
      var front := lines[..|lines| - 1];
      RunCount(front);
      ApplyCount(Run(front), Classify(lines[|lines| - 1]));
    }
  }

  /** The lists together hold one item per "- " line. */
  lemma RenderedItemCount(md: string)
    ensures ItemCount(Rendered(md)) == ListLineCount(Split(md, '\n'))
  {
    var st := Run(Split(md, '\n'));
    RunCount(Split(md, '\n'));
    if |st.pending| > 0 {
      ItemCountAppend(st.elements, BulletList(st.pending));
    }
  }

  // Toolbar and defaults

  datatype ToolbarButton = BoldButton | ItalicButton | HeadingButton | ListButton | CodeButton

  /** The line each toolbar button appends. */
  function Snippet(b: ToolbarButton): string {
    match b
    case BoldButton => "**Bold Text**"
    case ItalicButton => "*Italic Text*"
    case HeadingButton => "# Heading"
    case ListButton => "- List item"
    case CodeButton => "`code`"
  }

  lemma SnippetIsOneLine(b: ToolbarButton)
    ensures '\n' !in Snippet(b)
  {
  }

  /** A line appended after a line break becomes the last line of the text. */
  lemma AppendedLineIsLast(content: string, line: string)
    requires '\n' !in line
    ensures Split(content + "\n" + line, '\n') == Split(content, '\n') + [line]
  {
    assert content + "\n" + line == content + ['\n'] + line;
    SplitAppend(content, line, '\n');
    SplitNoSeparator(line, '\n');
  }

  /** Running one more line is one more step. */
  lemma RunSnoc(lines: seq<string>, line: string)
    ensures Run(lines + [line]) == Step(Run(lines), line)
  {
    assert (lines + [line])[..|lines|] == lines;
  }

  /** Rendering a text with a line added is rendering the text's lines, then the line. */
  lemma RenderedAppend(content: string, line: string)
    requires '\n' !in line
    ensures Rendered(content + "\n" + line) == Flush(Step(Run(Split(content, '\n')), line)).elements
  {
    AppendedLineIsLast(content, line);
    RunSnoc(Split(content, '\n'), line);
  }

  lemma ClassifyHeadingSnippet()
    ensures Classify("# Heading") == Heading(1, "Heading")
  {
    assert StartsWith("# Heading", "# ");
    assert Substring("# Heading", 2, 9) == "Heading";
  }

  /** At most one of the three heading prefixes starts a line. */
  lemma HeadingPrefixesExclusive(line: string)
    ensures StartsWith(line, "## ") ==> !StartsWith(line, "# ") && |line| >= 3
    ensures StartsWith(line, "### ") ==> !StartsWith(line, "# ") && !StartsWith(line, "## ") && |line| >= 4
  {
    if StartsWith(line, "## ") {
      assert line[1] == line[..3][1] == '#';
      assert line[..2] != "# " by { assert line[..2][1] == line[1]; }
    }
    if StartsWith(line, "### ") {
      assert line[1] == line[..4][1] == '#' && line[2] == line[..4][2] == '#';
      assert line[..2] != "# " by { assert line[..2][1] == line[1]; }
      assert line[..3] != "## " by { assert line[..3][2] == line[2]; }
    }
  }

  /** A line whose first character differs from the prefix's does not start with it. */
  lemma FirstCharRules(s: string, p: string)
    requires |p| > 0 && |s| > 0 && s[0] != p[0]
    ensures !StartsWith(s, p)
  {
    if |p| <= |s| {
      assert s[..|p|][0] == s[0];
    }
  }

  lemma ListSnippetIsPlain()
    ensures Inline("List item") == "List item"
  {
    var s := "List item";
    assert forall k :: 0 <= k < |s| ==> s[k] != '*' && s[k] != '`';
  }

  lemma ClassifyListSnippet()
    ensures Classify("- List item") == ListItem("List item")
  {
    var l := "- List item";
    FirstCharRules(l, "# ");
    FirstCharRules(l, "## ");
    FirstCharRules(l, "### ");
    assert StartsWith(l, "- ");
    assert Substring(l, 2, 11) == "List item";
    ListSnippetIsPlain();
  }

  /** The heading button adds one h1 "Heading" after the note's blocks. */
  lemma HeadingButtonAddsHeading(content: string)
    ensures Rendered(content + "\n" + Snippet(HeadingButton)) == Rendered(content) + [H1("Heading")]
  {
    var line := Snippet(HeadingButton);
    assert line == "# Heading";
    assert '\n' !in line by { SnippetIsOneLine(HeadingButton); }
    assert Classify(line) == Heading(1, "Heading") by { ClassifyHeadingSnippet(); }
    HeadingLineAppends(content, line, 1, "Heading");
  }

  /** A heading line appended to a note closes any pending list and adds the heading. */
  lemma HeadingLineAppends(content: string, line: string, level: nat, text: string)
    requires '\n' !in line && Classify(line) == Heading(level, text)
    ensures Rendered(content + "\n" + line) == Rendered(content) + [HeadingBlock(level, text)]
  {
    RenderedAppend(content, line);
  }

  /** A list line appended to a note joins the list pending at its end, if any. */
  lemma ListLineExtendsList(content: string, line: string, html: string)
    requires '\n' !in line && Classify(line) == ListItem(html)
    ensures var before := Run(Split(content, '\n'));
      Rendered(content + "\n" + line) == before.elements + [BulletList(before.pending + [html])]
  {
    RenderedAppend(content, line);
  }

  /** The list button's item joins the list already pending at the end of the note. */
  lemma ListButtonExtendsList(content: string)
    ensures var before := Run(Split(content, '\n'));
      Rendered(content + "\n" + Snippet(ListButton))
        == before.elements + [BulletList(before.pending + ["List item"])]
  {
    var line := Snippet(ListButton);
    assert line == "- List item";
    assert '\n' !in line by { SnippetIsOneLine(ListButton); }
    assert Classify(line) == ListItem("List item") by { ClassifyListSnippet(); }
    ListLineExtendsList(content, line, "List item");
  }

  /** Three lines joined by line breaks split back into the three. */
  lemma ThreeLines(a: string, b: string, c: string)
    requires '\n' !in a && '\n' !in b && '\n' !in c
    ensures Split(a + "\n" + b + "\n" + c, '\n') == [a, b, c]
  {
    AppendedLineIsLast(a + "\n" + b, c);
    AppendedLineIsLast(a, b);
    SplitNoSeparator(a, '\n');
  }

  lemma DefaultContentLines()
    ensures Split(DefaultContent, '\n') == ["# New Note", "", "Click to edit..."]
  {
    assert DefaultContent == "# New Note" + "\n" + "" + "\n" + "Click to edit...";
    ThreeLines("# New Note", "", "Click to edit...");
  }

  /** A line starting with "# " is a first-level heading of the rest of the line. */
  lemma FirstLevelHeading(line: string)
    requires StartsWith(line, "# ")
    ensures Classify(line) == Heading(1, line[2..])
  {
  }

  /**
   * A line that starts with neither `#`, `-` nor whitespace and has no inline markup
   * is a paragraph of itself.
   */
  lemma PlainParagraph(line: string)
    requires line != [] && line[0] != '#' && line[0] != '-' && !IsWhitespace(line[0])
    requires forall k :: 0 <= k < |line| ==> line[k] != '*' && line[k] != '`'
    ensures Classify(line) == ParagraphLine(line)
  {
    FirstCharRules(line, "# ");
    FirstCharRules(line, "## ");
    FirstCharRules(line, "### ");
    FirstCharRules(line, "- ");
    assert !AllWhitespace(line);
  }

  lemma ClassifyDefaultLines()
    ensures Classify("# New Note") == Heading(1, "New Note")
    ensures Classify("") == Blank
    ensures Classify("Click to edit...") == ParagraphLine("Click to edit...")
  {
    FirstLevelHeading("# New Note");
    PlainParagraph("Click to edit...");
  }

  /** A heading line, a blank line and a paragraph line render as three blocks. */
  lemma HeadingBlankParagraph(a: string, b: string, c: string, t: string, h: string)
    requires Classify(a) == Heading(1, t) && Classify(b) == Blank && Classify(c) == ParagraphLine(h)
    ensures Run([a, b, c]) == RenderState([H1(t), Break, Paragraph(h)], [])
  {
    assert Run([a]) == RenderState([H1(t)], []) by {
      RunSnoc([], a);
      assert [] + [a] == [a];
    }
    assert Run([a, b]) == RenderState([H1(t), Break], []) by {
      RunSnoc([a], b);
      assert [a] + [b] == [a, b];
    }
    RunSnoc([a, b], c);
    assert [a, b] + [c] == [a, b, c];
  }

  /** The default note renders as a heading, a break and a paragraph. */
  lemma DefaultContentRendering()
    ensures Rendered(DefaultContent) == [H1("New Note"), Break, Paragraph("Click to edit...")]
  {
    DefaultContentLines();
    ClassifyDefaultLines();
    HeadingBlankParagraph("# New Note", "", "Click to edit...", "New Note", "Click to edit...");
  }

  /** The note's editable state. */
  class MarkdownEditor {
    var content: string
    var title: string

    /** The state a note starts with: its data, or the defaults for what is missing or empty. */
    constructor (content: Option<string>, title: Option<string>)
      ensures this.content == OrElse(content, DefaultContent)
      ensures this.title == OrElse(title, DefaultTitle)
    {
      this.content := OrElse(content, DefaultContent);
      this.title := OrElse(title, DefaultTitle);
    }

    /** A toolbar click: the button's line is appended after a line break. */
    method Press(b: ToolbarButton)
      modifies this
      ensures content == old(content) + "\n" + Snippet(b)
      ensures title == old(title)
    {
      content := content + "\n" + Snippet(b);
    }
  }
}
