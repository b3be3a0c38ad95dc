/**
 * The editing widgets: the text area's splice at the selection and its keyboard
 * shortcuts, the formatting toolbar with its link dialog, the character and word
 * statistics, and the drag flag of the file drop zone.
 */
module AdvancedUIComponents {
  import opened Wrappers
  import opened JsStrings

  // Splicing text in at the selection

  /**
   * `value.substring(0, start) + text + value.substring(end)`: the selected span of
   * the value is replaced by the text.
   */
  function Spliced(value: string, start: nat, end: nat, text: string): (r: string)
    ensures start <= end <= |value| ==> r == value[..start] + text + value[end..]
  {
    Substring(value, 0, start) + text + Substring(value, end, |value|)
  }

  /**
   * For a selection inside the value: the text sits at the selection start, the rest
   * of the value is the value with the selection cut out, and the length changes by
   * the text's length less the selection's.
   */
  lemma SplicedPlacesText(value: string, start: nat, end: nat, text: string)
    requires start <= end <= |value|
    ensures var r := Spliced(value, start, end, text);
      && |r| == |value| - (end - start) + |text|
      && r[start..start + |text|] == text
      && r[..start] + r[start + |text|..] == value[..start] + value[end..]
  {
    var r := Spliced(value, start, end, text);
    assert r == value[..start] + text + value[end..];
    assert r[..start] == value[..start];
    assert r[start + |text|..] == value[end..];
  }

  /** Inserting at a collapsed selection and cutting the text out again restores the value. */
  lemma InsertThenCut(value: string, at: nat, text: string)
    requires at <= |value|
    ensures Spliced(Spliced(value, at, at, text), at, at + |text|, "") == value
  {
    var r := Spliced(value, at, at, text);
    assert |r| == |value| + |text| && r[..at] + r[at + |text|..] == value[..at] + value[at..] by {
      SplicedPlacesText(value, at, at, text);
    }
    assert value[..at] + value[at..] == value;
    assert Spliced(r, at, at + |text|, "") == r[..at] + "" + r[at + |text|..];
  }

  // Keyboard shortcuts of the text area

  datatype TextKey = TextKey(key: string, ctrlKey: bool, metaKey: bool)

  datatype Command = InsertText(text: string) | Blur | NoCommand

  /**
   * `handleKeyDown`: with Control or Meta, b inserts bold markup, i italic markup
   * and Enter blurs; Tab inserts two spaces whatever the modifiers.
   */
  function KeyCommand(ev: TextKey): (c: Command)
    ensures c == InsertText("**bold**") <==> (ev.ctrlKey || ev.metaKey) && ev.key == "b"
    ensures c == InsertText("*italic*") <==> (ev.ctrlKey || ev.metaKey) && ev.key == "i"
    ensures c == Blur <==> (ev.ctrlKey || ev.metaKey) && ev.key == "Enter"
    ensures c == InsertText("  ") <==> ev.key == "Tab"
    ensures c == NoCommand <==> ev.key !in {"b", "i", "Enter", "Tab"} || (ev.key != "Tab" && !ev.ctrlKey && !ev.metaKey)
  {
    if (ev.ctrlKey || ev.metaKey) && ev.key == "b" then InsertText("**bold**")
    else if (ev.ctrlKey || ev.metaKey) && ev.key == "i" then InsertText("*italic*")
    else if (ev.ctrlKey || ev.metaKey) && ev.key == "Enter" then Blur
    else if ev.key == "Tab" then InsertText("  ")
    else NoCommand
  }

  // The toolbar

  datatype FormatButton =
    | BoldButton | ItalicButton | StrikethroughButton | Heading1Button | Heading2Button
    | ListButton | NumberedListButton | QuoteButton | CodeButton | CodeBlockButton

  /** The fixed text each format button inserts. */
  function ButtonText(b: FormatButton): (r: string)
    ensures r != [] && (r[|r| - 1] == ' ' <==>
      b in {Heading1Button, Heading2Button, ListButton, NumberedListButton, QuoteButton})
    ensures '\n' in r <==> b == CodeBlockButton
  {
    match b
    case BoldButton => "**bold**"
    case ItalicButton => "*italic*"
    case StrikethroughButton => "~~strikethrough~~"
    case Heading1Button => "# "
    case Heading2Button => "## "
    case ListButton => "- "
    case NumberedListButton => "1. "
    case QuoteButton => "> "
    case CodeButton => "`code`"
    case CodeBlockButton => "```\ncode block\n```"
  }

  /** The bold and italic shortcuts insert exactly what the bold and italic buttons insert. */
  lemma ShortcutsMatchButtons(ctrlKey: bool, metaKey: bool)
    requires ctrlKey || metaKey
    ensures KeyCommand(TextKey("b", ctrlKey, metaKey)) == InsertText(ButtonText(BoldButton))
    ensures KeyCommand(TextKey("i", ctrlKey, metaKey)) == InsertText(ButtonText(ItalicButton))
  {
  }

  /** Every button inserts something, and no two buttons insert the same text. */
  lemma ButtonTextsDistinct(b1: FormatButton, b2: FormatButton)
    ensures ButtonText(b1) != ""
    ensures b1 != b2 ==> ButtonText(b1) != ButtonText(b2)
  {
  }

  /** The markup the link dialog inserts for a URL. */
  function LinkMarkup(url: string): (r: string)
    ensures |r| == |url| + 13 && r[0] == '[' && r[|r| - 1] == ')'
  {
    "[Link text](" + url + ")"
  }

  /** The URL can be read back from the link markup. */
  lemma LinkMarkupHoldsUrl(url: string)
    ensures LinkMarkup(url)[12..|LinkMarkup(url)| - 1] == url
  {
  }

  class RichTextToolbar {
    var showLinkDialog: bool
    var linkUrl: string

    constructor ()
      ensures !showLinkDialog && linkUrl == ""
    {
      showLinkDialog := false;
      linkUrl := "";
    }

    /** The link button opens the dialog. */
    method OpenLinkDialog()
      modifies this
      ensures showLinkDialog && linkUrl == old(linkUrl)
    {
      showLinkDialog := true;
    }

    /** Typing in the dialog's field. */
    method SetLinkUrl(url: string)
      modifies this
      ensures linkUrl == url && showLinkDialog == old(showLinkDialog)
    {
      linkUrl := url;
    }

    /**
     * `handleLinkInsert`: only a non-empty URL is inserted, as link markup; the field
     * is then cleared and the dialog closed. An empty URL changes nothing.
     */
    method HandleLinkInsert() returns (inserted: Option<string>)
      modifies this
      ensures old(linkUrl) == "" ==> inserted.None? && linkUrl == "" && showLinkDialog == old(showLinkDialog)
      ensures old(linkUrl) != "" ==> inserted == Some(LinkMarkup(old(linkUrl))) && linkUrl == "" && !showLinkDialog
    {
      inserted := None;
      if linkUrl != "" {
        inserted := Some(LinkMarkup(linkUrl));
        linkUrl := "";
        showLinkDialog := false;
      }
    }

    /** A key in the dialog's field: Enter inserts the link, Escape closes the dialog. */
    method LinkKeyDown(key: string) returns (inserted: Option<string>)
      modifies this
      ensures key == "Enter" ==> inserted == (if old(linkUrl) == "" then None else Some(LinkMarkup(old(linkUrl))))
      ensures key == "Enter" && old(linkUrl) != "" ==> linkUrl == "" && !showLinkDialog
      ensures key == "Enter" && old(linkUrl) == "" ==> linkUrl == "" && showLinkDialog == old(showLinkDialog)
      ensures key == "Escape" ==> inserted.None? && !showLinkDialog && linkUrl == old(linkUrl)
      ensures key != "Enter" && key != "Escape" ==>
        inserted.None? && showLinkDialog == old(showLinkDialog) && linkUrl == old(linkUrl)
    {
      inserted := None;
      if key == "Enter" {
        inserted := HandleLinkInsert();
      }
      if key == "Escape" {
        showLinkDialog := false;
      }
    }

    /** The Cancel button closes the dialog and keeps what was typed. */
    method CancelLinkDialog()
      modifies this
      ensures !showLinkDialog && linkUrl == old(linkUrl)
    {
      showLinkDialog := false;
    }
  }

  // Statistics

  /** Length of the leading run of non-whitespace characters. */
  function RunLength(s: string): (n: nat)
    ensures n <= |s|
    ensures forall k :: 0 <= k < n ==> !IsWhitespace(s[k])
    ensures n < |s| ==> IsWhitespace(s[n])
    decreases |s|
  {
    if s == [] || IsWhitespace(s[0]) then 0 else 1 + RunLength(s[1..])
  }

  /** `value.split(/\s+/).filter(Boolean)`: the maximal runs of non-whitespace characters. */
  function Words(s: string): (ws: seq<string>)
    ensures |ws| <= |s|
    ensures forall i :: 0 <= i < |ws| ==> ws[i] != []
    ensures forall i, k :: 0 <= i < |ws| && 0 <= k < |ws[i]| ==> !IsWhitespace(ws[i][k])
    decreases |s|
  {
    if s == [] then []
    else if IsWhitespace(s[0]) then Words(s[1..])
    else
      var n := RunLength(s);
      [s[..n]] + Words(s[n..])
  }

  /** The word count shown under the text area. */
  function WordCount(value: string): (n: nat)
    ensures n <= |value|
    ensures n == 0 <==> AllWhitespace(value)
  {
    if AllWhitespace(value) then
      NoWordsInWhitespace(value);
      |Words(value)|
    else
      SomeWord(value);
      |Words(value)|
  }

  /** The character count shown under the text area: code points here, UTF-16 units in the source. */
  function CharCount(value: string): (n: nat)
    ensures n == |value| && WordCount(value) <= n
  {
    |value|
  }

  /** A value with a character that is not whitespace has a word. */
  lemma {:induction false} SomeWord(s: string)
    requires !AllWhitespace(s)
    ensures Words(s) != []
    decreases |s|
  {
    if IsWhitespace(s[0]) {
      var k :| 0 <= k < |s| && !IsWhitespace(s[k]);
      assert s[1..][k - 1] == s[k];
      SomeWord(s[1..]);
    }
  }

  /** Text made only of whitespace has no words. */
  lemma {:induction false} NoWordsInWhitespace(s: string)
    requires AllWhitespace(s)
    ensures Words(s) == []
    decreases |s|
  {
    if s != [] {
      NoWordsInWhitespace(s[1..]);
    }
  }

  /** A text with no whitespace in it is one word, the whole text. */
  lemma OneWord(w: string)
    requires w != [] && forall k :: 0 <= k < |w| ==> !IsWhitespace(w[k])
    ensures Words(w) == [w]
  {
    RunLengthOfWord(w);
    WordsUnfold(w);
    assert w[..|w|] == w;
  }

  lemma {:induction false} RunLengthOfWord(w: string)
    requires forall k :: 0 <= k < |w| ==> !IsWhitespace(w[k])
    ensures RunLength(w) == |w|
    decreases |w|
  {
    if w != [] {
      RunLengthOfWord(w[1..]);
    }
  }

  lemma {:induction false} RunLengthStopsAtSeparator(a: string, c: char, b: string)
    requires IsWhitespace(c)
    ensures RunLength(a + [c] + b) == RunLength(a)
    decreases |a|
  {
    if a != [] && !IsWhitespace(a[0]) {
      assert (a + [c] + b)[1..] == a[1..] + [c] + b;
      RunLengthStopsAtSeparator(a[1..], c, b);
    }
  }

  /** Words on either side of a whitespace character are counted separately and in order. */
  lemma {:induction false} WordsAroundSeparator(a: string, c: char, b: string)
    requires IsWhitespace(c)
    ensures Words(a + [c] + b) == Words(a) + Words(b)
    decreases |a|
  {
    var s := a + [c] + b;
    if a == [] {
      assert s[1..] == b;
    } else if IsWhitespace(a[0]) {
      assert s[1..] == a[1..] + [c] + b;
      WordsAroundSeparator(a[1..], c, b);
    } else {
      var n := RunLength(a);
      WordsAroundSeparator(a[n..], c, b);
      WordsAroundSeparatorStep(a, c, b);
    }
  }

  /** The step of the induction above for a text starting with a word. */
  lemma WordsAroundSeparatorStep(a: string, c: char, b: string)
    requires IsWhitespace(c) && a != [] && !IsWhitespace(a[0])
    requires Words(a[RunLength(a)..] + [c] + b) == Words(a[RunLength(a)..]) + Words(b)
    ensures Words(a + [c] + b) == Words(a) + Words(b)
  {
    var n := RunLength(a);
    assert Words(a + [c] + b) == [a[..n]] + Words(a[n..] + [c] + b) by {
      WordThenSeparator(a, c, b);
    }
    assert Words(a) == [a[..n]] + Words(a[n..]) by { WordsUnfold(a); }
    ConsAssociates(a[..n], Words(a[n..]), Words(b));
  }

  /** The first word of `a` stays the first word when a separator and more text follow. */
  lemma WordThenSeparator(a: string, c: char, b: string)
    requires IsWhitespace(c) && a != [] && !IsWhitespace(a[0])
    ensures Words(a + [c] + b) == [a[..RunLength(a)]] + Words(a[RunLength(a)..] + [c] + b)
  {
    var n := RunLength(a);
    SeparatorPieces(a, c, b);
    WordsUnfoldAt(a + [c] + b, n, a[..n], a[n..] + [c] + b);
  }

  lemma SeparatorPieces(a: string, c: char, b: string)
    requires IsWhitespace(c) && a != []
    ensures var s := a + [c] + b; var n := RunLength(a);
      s[0] == a[0] && RunLength(s) == n && s[..n] == a[..n] && s[n..] == a[n..] + [c] + b
  {
    var s := a + [c] + b;
    var n := RunLength(a);
    assert s[0] == a[0];
    RunLengthStopsAtSeparator(a, c, b);
    assert s == a + ([c] + b);
    SliceOfAppend(a, [c] + b, n);
  }

  lemma WordsUnfoldAt(s: string, n: nat, w: string, t: string)
    requires s != [] && !IsWhitespace(s[0]) && RunLength(s) == n
    requires s[..n] == w && s[n..] == t
    ensures Words(s) == [w] + Words(t)
  {
    WordsUnfold(s);
  }

  lemma SliceOfAppend(a: string, u: string, n: nat)
    requires n <= |a|
    ensures (a + u)[..n] == a[..n] && (a + u)[n..] == a[n..] + u
  {
  }

  /** A text starting with a word: that word, then the words of the rest. */
  lemma WordsUnfold(s: string)
    requires s != [] && !IsWhitespace(s[0])
    ensures Words(s) == [s[..RunLength(s)]] + Words(s[RunLength(s)..])
  {
  }

  /** Joining two texts with a space adds their word counts. */
  lemma WordCountAdds(a: string, b: string)
    ensures WordCount(a + " " + b) == WordCount(a) + WordCount(b)
  {
    WordsAroundSeparator(a, ' ', b);
    assert a + " " + b == a + [' '] + b;
  }

  // The text area

  /**
   * The text area as its handlers see it: the value the parent holds, whether the
   * element is mounted, and its selection.
   */
  class SmartTextArea {
    var value: string
    var mounted: bool
    var selectionStart: nat
    var selectionEnd: nat

    constructor (value: string)
      ensures this.value == value && !mounted && selectionStart == 0 && selectionEnd == 0
    {
      this.value := value;
      mounted := false;
      selectionStart := 0;
      selectionEnd := 0;
    }

    /**
     * `handleInsert`: with the element mounted, the selection is replaced by the text
     * and the cursor is placed just after it; unmounted, nothing happens.
     */
    method HandleInsert(text: string)
      modifies this
      ensures old(mounted) ==>
        && value == Spliced(old(value), old(selectionStart), old(selectionEnd), text)
        && selectionStart == selectionEnd == old(selectionStart) + |text|
      ensures !old(mounted) ==>
        value == old(value) && selectionStart == old(selectionStart) && selectionEnd == old(selectionEnd)
      ensures mounted == old(mounted)
    {
      if mounted {
        var start := selectionStart;
        var end := selectionEnd;
        value := Spliced(value, start, end, text);
        selectionStart := start + |text|;
        selectionEnd := start + |text|;
      }
    }

    /** `handleKeyDown`: runs the key's command; returns whether `onBlur` was called. */
    method HandleKeyDown(ev: TextKey) returns (blurred: bool)
      modifies this
      ensures blurred <==> KeyCommand(ev) == Blur
      ensures KeyCommand(ev).InsertText? && old(mounted) ==>
        && value == Spliced(old(value), old(selectionStart), old(selectionEnd), KeyCommand(ev).text)
        && selectionStart == selectionEnd == old(selectionStart) + |KeyCommand(ev).text|
      ensures !KeyCommand(ev).InsertText? || !old(mounted) ==>
        value == old(value) && selectionStart == old(selectionStart) && selectionEnd == old(selectionEnd)
      ensures mounted == old(mounted)
    {
      blurred := false;
      match KeyCommand(ev)
      case InsertText(t) => HandleInsert(t);
      case Blur => blurred := true;
      case NoCommand =>
    }
  }

  // The file drop zone

  class FileDropZone {
    var isDragging: bool

    constructor ()
      ensures !isDragging
    {
      isDragging := false;
    }

    method DragOver()
      modifies this
      ensures isDragging
    {
      isDragging := true;
    }

    method DragLeave()
      modifies this
      ensures !isDragging
    {
      isDragging := false;
    }

    /** `handleDrop`: the flag drops, and the files are passed on only when there are some. */
    method Drop(files: Option<seq<string>>) returns (delivered: Option<seq<string>>)
      modifies this
      ensures !isDragging
      ensures delivered.Some? <==> files.Some? && |files.value| > 0
      ensures delivered.Some? ==> delivered == files
    {
      isDragging := false;
      delivered := None;
      if files.Some? && |files.value| > 0 {
        delivered := files;
      }
    }
  }
}
