/**
 * The clipboard classifier: pasted text is sorted into video, image, url or text,
 * text is further recognised as markdown by seven line-local patterns, and a canvas
 * node is built for the paste with a derived title.
 */
module ClipboardService {
  import opened Wrappers
  import opened JsStrings
  import opened Values
  import opened CanvasModel
  import opened Urls

  datatype ContentType = Video | Image | Link | Text {
    /** The tag the source writes for this kind, and which starts the node id. */
    function Name(): string {
      match this
      case Video => "video"
      case Image => "image"
      case Link => "url"
      case Text => "text"
    }
  }

  /** A video platform host (lower-cased) or a video file path (lower-cased). */
  predicate IsVideoUrl(u: Url) {
    var host := ToLower(u.hostname);
    var path := ToLower(u.pathname);
    || Contains(host, "youtube.com") || Contains(host, "youtu.be")
    || Contains(host, "vimeo.com") || Contains(host, "twitch.tv")
    || EndsWith(path, ".mp4") || EndsWith(path, ".webm") || EndsWith(path, ".mov")
  }

  /** A lower-cased path with an image file extension. */
  predicate HasImageExtension(u: Url) {
    var path := ToLower(u.pathname);
    || EndsWith(path, ".jpg") || EndsWith(path, ".jpeg") || EndsWith(path, ".png")
    || EndsWith(path, ".gif") || EndsWith(path, ".webp") || EndsWith(path, ".svg")
  }

  /**
   * `detectContentType`: text unless the trimmed content parses as a URL; a URL is a
   * video first, an image only when it is no video, and a plain url otherwise.
   */
  function DetectContentType(content: string, parse: UrlParser): (t: ContentType)
    ensures t == Text <==> parse(Trim(content)).None?
    ensures t == Video <==> parse(Trim(content)).Some? && IsVideoUrl(parse(Trim(content)).value)
    ensures t == Image <==>
      && parse(Trim(content)).Some?
      && !IsVideoUrl(parse(Trim(content)).value)
      && HasImageExtension(parse(Trim(content)).value)
  {
    match parse(Trim(content))
    case None => Text
    case Some(u) =>
      if IsVideoUrl(u) then Video
      else if HasImageExtension(u) then Image
      else Link
  }

  /** Surrounding whitespace never changes the classification. */
  lemma DetectIgnoresSurroundingWhitespace(content: string, parse: UrlParser)
    ensures DetectContentType(Trim(content), parse) == DetectContentType(content, parse)
  {
    TrimIdempotent(content);
    SameTrimSameType(Trim(content), content, parse);
  }

  lemma SameTrimSameType(a: string, b: string, parse: UrlParser)
    requires Trim(a) == Trim(b)
    ensures DetectContentType(a, parse) == DetectContentType(b, parse)
  {
  }

  /** A video host wins over an image extension: a `.png` on youtube.com is a video. */
  lemma VideoBeforeImage(content: string, parse: UrlParser)
    requires parse(Trim(content)).Some?
    requires Contains(ToLower(parse(Trim(content)).value.hostname), "youtube.com")
    requires EndsWith(ToLower(parse(Trim(content)).value.pathname), ".png")
    ensures DetectContentType(content, parse) == Video
  {
  }

  /** `s.charAt(0).toUpperCase() + s.slice(1)`. */
  function Capitalize(s: string): (r: string)
    ensures |r| == |s|
    ensures s != [] ==> r[0] == UpperChar(s[0]) && r[1..] == s[1..]
  {
    if s == [] then "" else [UpperChar(s[0])] + s[1..]
  }

  /**
   * `extractTitle`: null when the (untrimmed) text does not parse; otherwise a
   * platform name for YouTube and Vimeo hosts, else the host without its first
   * "www." and with its first character upper-cased.
   */
  function ExtractTitle(raw: string, parse: UrlParser): (r: Option<string>)
    ensures r.None? <==> parse(raw).None?
    ensures parse(raw).Some? ==>
      var host := ReplaceFirst(parse(raw).value.hostname, "www.", "");
      && (Contains(host, "youtube.com") || Contains(host, "youtu.be") ==> r == Some("YouTube Video"))
      && (!Contains(host, "youtube.com") && !Contains(host, "youtu.be") && Contains(host, "vimeo.com")
          ==> r == Some("Vimeo Video"))
      && (!Contains(host, "youtube.com") && !Contains(host, "youtu.be") && !Contains(host, "vimeo.com")
          ==> r == Some(Capitalize(host)))
  {
    match parse(raw)
    case None => None
    case Some(u) =>
      var host := ReplaceFirst(u.hostname, "www.", "");
      if Contains(host, "youtube.com") || Contains(host, "youtu.be") then Some("YouTube Video")
      else if Contains(host, "vimeo.com") then Some("Vimeo Video")
      else Some(Capitalize(host))
  }

  /** The number of `#` characters `s` starts with. */
  function LeadingHashes(s: string): (n: nat)
    ensures n <= |s|
    ensures forall k :: 0 <= k < n ==> s[k] == '#'
    ensures n == |s| || s[n] != '#'
    decreases |s|
  {
    if s != [] && s[0] == '#' then 1 + LeadingHashes(s[1..]) else 0
  }

  /** What `^#+` removes: the leading run of `#` characters. */
  function DropHashes(s: string): (r: string)
    ensures |r| <= |s| && r == s[|s| - |r|..]
    ensures r == [] || r[0] != '#'
    ensures forall k :: 0 <= k < |s| - |r| ==> s[k] == '#'
  {
    s[LeadingHashes(s)..]
  }

  /** The trimmed first line of the content. */
  function FirstLine(content: string): string {
    Trim(Split(content, '\n')[0])
  }

  /**
   * The title of a heading line (a line starting with `#`): the leading `#`s go, then
   * the whitespace after them; what is left is a proper suffix of the line.
   */
  function HeadingText(line: string): (r: string)
    requires StartsWith(line, "#")
    ensures |r| < |line| && r == line[|line| - |r|..]
    ensures r == TrimStart(DropHashes(line))
  {
    HeadingIsShorter(line);
    HeadingIsSuffix(line);
    TrimStart(DropHashes(line))
  }

  lemma HeadingIsShorter(line: string)
    requires StartsWith(line, "#")
    ensures |TrimStart(DropHashes(line))| < |line|
  {
    assert line[0] == '#';
  }

  lemma HeadingIsSuffix(line: string)
    ensures var r := TrimStart(DropHashes(line)); r == line[|line| - |r|..]
  {
    var rest := DropHashes(line);
    var r := TrimStart(rest);
    SuffixOfSuffix(line, rest, r);
  }

  /**
   * `extractFirstLine`: from the trimmed first line, a heading loses its leading `#`s
   * and then the whitespace after them; any other line longer than 50 characters is
   * cut to 50 characters followed by "...".
   */
  function ExtractFirstLine(content: string): (r: string)
    ensures var line := FirstLine(content);
      && (StartsWith(line, "#") ==> r == HeadingText(line))
      && (!StartsWith(line, "#") && |line| > 50 ==> r == line[..50] + "...")
      && (!StartsWith(line, "#") && |line| <= 50 ==> r == line)
      && (!StartsWith(line, "#") ==> |r| <= 53)
  {
    var line := FirstLine(content);
    if StartsWith(line, "#") then HeadingText(line)
    else if |line| > 50 then Substring(line, 0, 50) + "..."
    else line
  }

  /** Only the first line matters to `extractFirstLine`. */
  lemma ExtractFirstLineIgnoresRest(first: string, rest: string)
    requires '\n' !in first
    ensures ExtractFirstLine(first + "\n" + rest) == ExtractFirstLine(first)
  {
    SplitAppend(first, rest, '\n');
    SplitNoSeparator(first, '\n');
    assert first + "\n" + rest == first + ['\n'] + rest;
  }

  // The seven markdown patterns, written as predicates over witnesses.

  /** Where `^` matches in multiline mode: the start or just after a line terminator. */
  predicate LineStart(s: string, k: int) {
    k == 0 || (0 < k <= |s| && IsLineTerminator(s[k - 1]))
  }

  /** What `.*` may span: no line terminator in `s[a..b]`. */
  predicate NoLineBreak(s: string, a: int, b: int)
    requires 0 <= a <= b <= |s|
  {
    forall t :: a <= t < b ==> !IsLineTerminator(s[t])
  }

  predicate AllHashes(s: string, a: int, b: int)
    requires 0 <= a <= b <= |s|
  {
    forall t :: a <= t < b ==> s[t] == '#'
  }

  predicate AllSpaces(s: string, a: int, b: int)
    requires 0 <= a <= b <= |s|
  {
    forall t :: a <= t < b ==> IsWhitespace(s[t])
  }

  /** `/^#+\s/m` matched with the `#`s at `k..j` and the whitespace at `j`. */
  predicate HeaderAt(s: string, k: int, j: int) {
    0 <= k < j < |s| && LineStart(s, k) && AllHashes(s, k, j) && IsWhitespace(s[j])
  }

  // The bold pattern (two `**` with no line break between), matched at `i` and `j`.
  predicate BoldAt(s: string, i: int, j: int) {
    && 0 <= i && i + 2 <= j && j + 2 <= |s|
    && s[i] == '*' && s[i + 1] == '*' && s[j] == '*' && s[j + 1] == '*'
    && NoLineBreak(s, i + 2, j)
  }

  // The italic pattern (two `*` with no line break between), matched at `i` and `j`.
  predicate ItalicAt(s: string, i: int, j: int) {
    0 <= i < j < |s| && s[i] == '*' && s[j] == '*' && NoLineBreak(s, i + 1, j)
  }

  /** `/^\s*-\s/m` (c = '-') or `/^\s*\*\s/m` (c = '*'), the indent at `k..j`, the bullet at `j`. */
  predicate BulletAt(s: string, k: int, j: int, c: char) {
    0 <= k <= j && j + 1 < |s| && LineStart(s, k) && AllSpaces(s, k, j)
    && s[j] == c && IsWhitespace(s[j + 1])
  }

  /** /`.*`/ matched with the two backticks at `i` and `j`. */
  predicate CodeAt(s: string, i: int, j: int) {
    0 <= i < j < |s| && s[i] == '`' && s[j] == '`' && NoLineBreak(s, i + 1, j)
  }

  /** `/\[.*\]\(.*\)/` matched with `[` at `i`, `](` at `j` and `)` at `l`. */
  predicate LinkAt(s: string, i: int, j: int, l: int) {
    && 0 <= i < j && j + 2 <= l < |s|
    && s[i] == '[' && s[j] == ']' && s[j + 1] == '(' && s[l] == ')'
    && NoLineBreak(s, i + 1, j) && NoLineBreak(s, j + 2, l)
  }

  /** `isMarkdownContent`: some one of the seven patterns matches somewhere. */
  predicate IsMarkdownContent(s: string) {
    || (exists k, j :: 0 <= k <= j <= |s| && HeaderAt(s, k, j))
    || (exists i, j :: 0 <= i <= j <= |s| && BoldAt(s, i, j))
    || (exists i, j :: 0 <= i <= j <= |s| && ItalicAt(s, i, j))
    || (exists k, j :: 0 <= k <= j <= |s| && BulletAt(s, k, j, '-'))
    || (exists k, j :: 0 <= k <= j <= |s| && BulletAt(s, k, j, '*'))
    || (exists i, j :: 0 <= i <= j <= |s| && CodeAt(s, i, j))
    || (exists i, j, l :: 0 <= i <= j <= l <= |s| && LinkAt(s, i, j, l))
  }

  /** Text after a match never hides it: markdown stays markdown when more is appended. */
  lemma MarkdownExtendsRight(s: string, t: string)
    requires IsMarkdownContent(s)
    ensures IsMarkdownContent(s + t)
  {
    if exists k, j :: 0 <= k <= j <= |s| && HeaderAt(s, k, j) {
      HeaderExtends(s, t);
    } else if exists i, j :: 0 <= i <= j <= |s| && BoldAt(s, i, j) {
      BoldExtends(s, t);
    } else if exists i, j :: 0 <= i <= j <= |s| && ItalicAt(s, i, j) {
      ItalicExtends(s, t);
    } else if exists k, j :: 0 <= k <= j <= |s| && BulletAt(s, k, j, '-') {
      BulletExtends(s, t, '-');
    } else if exists k, j :: 0 <= k <= j <= |s| && BulletAt(s, k, j, '*') {
      BulletExtends(s, t, '*');
    } else if exists i, j :: 0 <= i <= j <= |s| && CodeAt(s, i, j) {
      CodeExtends(s, t);
    } else {
      LinkExtends(s, t);
    }
  }

  lemma HeaderExtends(s: string, t: string)
    requires exists k, j :: 0 <= k <= j <= |s| && HeaderAt(s, k, j)
    ensures exists k, j :: 0 <= k <= j <= |s + t| && HeaderAt(s + t, k, j)
  {
    var k, j :| 0 <= k <= j <= |s| && HeaderAt(s, k, j);
    assert HeaderAt(s + t, k, j);
  }

  lemma BoldExtends(s: string, t: string)
    requires exists i, j :: 0 <= i <= j <= |s| && BoldAt(s, i, j)
    ensures exists i, j :: 0 <= i <= j <= |s + t| && BoldAt(s + t, i, j)
  {
    var i, j :| 0 <= i <= j <= |s| && BoldAt(s, i, j);
    assert BoldAt(s + t, i, j);
  }

  lemma ItalicExtends(s: string, t: string)
    requires exists i, j :: 0 <= i <= j <= |s| && ItalicAt(s, i, j)
    ensures exists i, j :: 0 <= i <= j <= |s + t| && ItalicAt(s + t, i, j)
  {
    var i, j :| 0 <= i <= j <= |s| && ItalicAt(s, i, j);
    assert ItalicAt(s + t, i, j);
  }

  lemma BulletExtends(s: string, t: string, c: char)
    requires exists k, j :: 0 <= k <= j <= |s| && BulletAt(s, k, j, c)
    ensures exists k, j :: 0 <= k <= j <= |s + t| && BulletAt(s + t, k, j, c)
  {
    var k, j :| 0 <= k <= j <= |s| && BulletAt(s, k, j, c);
    assert BulletAt(s + t, k, j, c);
  }

  lemma CodeExtends(s: string, t: string)
    requires exists i, j :: 0 <= i <= j <= |s| && CodeAt(s, i, j)
    ensures exists i, j :: 0 <= i <= j <= |s + t| && CodeAt(s + t, i, j)
  {
    var i, j :| 0 <= i <= j <= |s| && CodeAt(s, i, j);
    assert CodeAt(s + t, i, j);
  }

  lemma LinkExtends(s: string, t: string)
    requires exists i, j, l :: 0 <= i <= j <= l <= |s| && LinkAt(s, i, j, l)
    ensures exists i, j, l :: 0 <= i <= j <= l <= |s + t| && LinkAt(s + t, i, j, l)
  {
    var i, j, l :| 0 <= i <= j <= l <= |s| && LinkAt(s, i, j, l);
    assert LinkAt(s + t, i, j, l);
  }

  /** Indexing into `t + "\n" + s` past the line break reads `s`. */
  lemma AfterBreakIndex(t: string, s: string)
    ensures var u := t + "\n" + s;
      && |u| == |t| + 1 + |s|
      && u[|t|] == '\n'
      && forall x :: |t| + 1 <= x < |u| ==> u[x] == s[x - |t| - 1]
  {
  }

  lemma ShiftHeader(t: string, s: string, k: int, j: int)
    requires HeaderAt(s, k, j)
    ensures HeaderAt(t + "\n" + s, k + |t| + 1, j + |t| + 1)
  {
    AfterBreakIndex(t, s);
  }

  lemma ShiftBold(t: string, s: string, i: int, j: int)
    requires BoldAt(s, i, j)
    ensures BoldAt(t + "\n" + s, i + |t| + 1, j + |t| + 1)
  {
    AfterBreakIndex(t, s);
  }

  lemma ShiftItalic(t: string, s: string, i: int, j: int)
    requires ItalicAt(s, i, j)
    ensures ItalicAt(t + "\n" + s, i + |t| + 1, j + |t| + 1)
  {
    AfterBreakIndex(t, s);
  }

  lemma ShiftBullet(t: string, s: string, k: int, j: int, c: char)
    requires BulletAt(s, k, j, c)
    ensures BulletAt(t + "\n" + s, k + |t| + 1, j + |t| + 1, c)
  {
    AfterBreakIndex(t, s);
  }

  lemma ShiftCode(t: string, s: string, i: int, j: int)
    requires CodeAt(s, i, j)
    ensures CodeAt(t + "\n" + s, i + |t| + 1, j + |t| + 1)
  {
    AfterBreakIndex(t, s);
  }

  lemma ShiftLink(t: string, s: string, i: int, j: int, l: int)
    requires LinkAt(s, i, j, l)
    ensures LinkAt(t + "\n" + s, i + |t| + 1, j + |t| + 1, l + |t| + 1)
  {
    AfterBreakIndex(t, s);
  }

  /**
   * The patterns are line-local: markdown stays markdown when it is put on its own
   * line after any other text.
   */
  lemma MarkdownAfterNewLine(t: string, s: string)
    requires IsMarkdownContent(s)
    ensures IsMarkdownContent(t + "\n" + s)
  {
    var u := t + "\n" + s;
    var d := |t| + 1;
    if exists k, j :: 0 <= k <= j <= |s| && HeaderAt(s, k, j) {
      var k, j :| 0 <= k <= j <= |s| && HeaderAt(s, k, j);
      ShiftHeader(t, s, k, j);
      assert 0 <= k + d <= j + d <= |u|;
    } else if exists i, j :: 0 <= i <= j <= |s| && BoldAt(s, i, j) {
      var i, j :| 0 <= i <= j <= |s| && BoldAt(s, i, j);
      ShiftBold(t, s, i, j);
      assert 0 <= i + d <= j + d <= |u|;
    } else if exists i, j :: 0 <= i <= j <= |s| && ItalicAt(s, i, j) {
      var i, j :| 0 <= i <= j <= |s| && ItalicAt(s, i, j);
      ShiftItalic(t, s, i, j);
      assert 0 <= i + d <= j + d <= |u|;
    } else if exists k, j :: 0 <= k <= j <= |s| && BulletAt(s, k, j, '-') {
      var k, j :| 0 <= k <= j <= |s| && BulletAt(s, k, j, '-');
      ShiftBullet(t, s, k, j, '-');
      assert 0 <= k + d <= j + d <= |u|;
    } else if exists k, j :: 0 <= k <= j <= |s| && BulletAt(s, k, j, '*') {
      var k, j :| 0 <= k <= j <= |s| && BulletAt(s, k, j, '*');
      ShiftBullet(t, s, k, j, '*');
      assert 0 <= k + d <= j + d <= |u|;
    } else if exists i, j :: 0 <= i <= j <= |s| && CodeAt(s, i, j) {
      var i, j :| 0 <= i <= j <= |s| && CodeAt(s, i, j);
      ShiftCode(t, s, i, j);
      assert 0 <= i + d <= j + d <= |u|;
    } else {
      var i, j, l :| 0 <= i <= j <= l <= |s| && LinkAt(s, i, j, l);
      ShiftLink(t, s, i, j, l);
      assert 0 <= i + d <= j + d <= l + d <= |u|;
    }
  }

  /** Text with none of the characters `#`, `*`, `-`, backtick and `[` is never markdown. */
  lemma PlainTextIsNotMarkdown(s: string)
    requires forall k :: 0 <= k < |s| ==> s[k] !in "#*-`["
    ensures !IsMarkdownContent(s)
  {
    forall k, j | 0 <= k < j <= |s| ensures !AllHashes(s, k, j) {
      assert s[k] != '#';
    }
  }

  /** A heading line and an inline link are recognised. */
  lemma MarkdownExamples()
    ensures IsMarkdownContent("# Title")
    ensures IsMarkdownContent("see [docs](x)")
    ensures !IsMarkdownContent("plain text")
  {
    assert HeaderAt("# Title", 0, 1);
    assert LinkAt("see [docs](x)", 4, 9, 12);
    PlainTextIsNotMarkdown("plain text");
  }

  /**
   * `createNodeFromClipboard`: a node whose id starts with the content type and a
   * dash, placed at the given position, with type and fields chosen by the content
   * type; URL kinds store the trimmed text, text kinds the text as given.
   */
  function CreateNodeFromClipboard(content: string, position: Position, nonce: string,
                                   parse: UrlParser): (n: Node)
    ensures var t := DetectContentType(content, parse);
      && n.id == t.Name() + "-" + nonce
      && n.position == position
      && n.width.None? && n.height.None? && n.style.None? && n.selected.None? && n.dragging.None?
      && (t == Video ==>
            && n.nodeType == Some("videoNode")
            && n.data == map["url" := Str(Trim(content)),
                             "title" := Str(OrElse(ExtractTitle(content, parse), "Video"))])
      && (t == Image ==>
            && n.nodeType == Some("imageNode")
            && n.data == map["imageUrl" := Str(Trim(content)), "caption" := Str("Pasted image")])
      && (t == Link ==>
            && n.nodeType == Some("linkNode")
            && n.data == map["url" := Str(Trim(content)),
                             "title" := Str(OrElse(ExtractTitle(content, parse), "Link"))])
      && (t == Text && IsMarkdownContent(content) ==>
            && n.nodeType == Some("markdownNode")
            && n.data == map["content" := Str(content),
                             "title" := Str(OrElse(Some(ExtractFirstLine(content)), "Markdown Note"))])
      && (t == Text && !IsMarkdownContent(content) ==>
            && n.nodeType == Some("textNode")
            && n.data == map["text" := Str(content)])
  {
    var contentType := DetectContentType(content, parse);
    var nodeId := contentType.Name() + "-" + nonce;
    match contentType
    case Video =>
      PlainNode(nodeId, "videoNode", position,
        map["url" := Str(Trim(content)), "title" := Str(OrElse(ExtractTitle(content, parse), "Video"))])
    case Image =>
      PlainNode(nodeId, "imageNode", position,
        map["imageUrl" := Str(Trim(content)), "caption" := Str("Pasted image")])
    case Link =>
      PlainNode(nodeId, "linkNode", position,
        map["url" := Str(Trim(content)), "title" := Str(OrElse(ExtractTitle(content, parse), "Link"))])
    case Text =>
      if IsMarkdownContent(content) then
        PlainNode(nodeId, "markdownNode", position,
          map["content" := Str(content),
              "title" := Str(OrElse(Some(ExtractFirstLine(content)), "Markdown Note"))])
      else
        PlainNode(nodeId, "textNode", position, map["text" := Str(content)])
  }

  /** Every pasted node with a title field has a non-empty title. */
  lemma PastedTitlesAreNonEmpty(content: string, position: Position, nonce: string, parse: UrlParser)
    ensures var n := CreateNodeFromClipboard(content, position, nonce, parse);
      "title" in n.data ==> n.data["title"].Str? && n.data["title"].s != ""
  {
  }

  /** The node type is determined by the content type alone, one type per kind. */
  lemma NodeTypeMatchesContentType(content: string, position: Position, nonce: string,
                                   parse: UrlParser)
    ensures var n := CreateNodeFromClipboard(content, position, nonce, parse);
      var t := DetectContentType(content, parse);
      && (n.nodeType == Some("videoNode") <==> t == Video)
      && (n.nodeType == Some("imageNode") <==> t == Image)
      && (n.nodeType == Some("linkNode") <==> t == Link)
      && (n.nodeType == Some("markdownNode") || n.nodeType == Some("textNode") <==> t == Text)
      && StartsWith(n.id, t.Name() + "-")
  {
    var n := CreateNodeFromClipboard(content, position, nonce, parse);
    var t := DetectContentType(content, parse);
    assert n.id[..|t.Name() + "-"|] == t.Name() + "-";
  }
}
