/**
 * The information widgets: the collapsible section and its element id, the text
 * truncation of the smart-truncate widget, and the data hierarchy's entry order,
 * expanded-key set and collapse rules.
 */
module InformationComponents {
  import opened Wrappers
  import opened JsStrings
  import opened Values

  // Section ids

  /** Length of the leading run of whitespace. */
  function WhitespaceRun(s: string): (n: nat)
    ensures n <= |s|
    ensures forall k :: 0 <= k < n ==> IsWhitespace(s[k])
    ensures n < |s| ==> !IsWhitespace(s[n])
    decreases |s|
  {
    if s == [] || !IsWhitespace(s[0]) then 0 else 1 + WhitespaceRun(s[1..])
  }

  /** `s.replace(/\s+/g, '-')`: every maximal run of whitespace becomes one dash. */
  function Dashed(s: string): (r: string)
    ensures |r| <= |s|
    ensures forall k :: 0 <= k < |r| ==> !IsWhitespace(r[k])
    decreases |s|
  {
    if s == [] then []
    else if IsWhitespace(s[0]) then "-" + Dashed(s[WhitespaceRun(s)..])
    else [s[0]] + Dashed(s[1..])
  }

  /** The id of a section's content, which the header's `aria-controls` names too. */
  function SectionId(title: string): (r: string)
    ensures StartsWith(r, "section-")
    ensures forall k :: 0 <= k < |r| ==> !IsWhitespace(r[k])
  {
    var r := "section-" + Dashed(ToLower(title));
    assert r[..8] == "section-";
    r
  }

  /** A title without whitespace keeps its characters. */
  lemma {:induction false} DashedWithoutWhitespace(s: string)
    requires forall k :: 0 <= k < |s| ==> !IsWhitespace(s[k])
    ensures Dashed(s) == s
    decreases |s|
  {
    if s != [] {
      DashedWithoutWhitespace(s[1..]);
    }
  }

  /** How many spaces separate the words does not matter: every run is one dash. */
  lemma {:induction false} DashedRunIsOneDash(a: string, w: string, b: string)
    requires w != [] && AllWhitespace(w)
    requires forall k :: 0 <= k < |a| ==> !IsWhitespace(a[k])
    requires b == [] || !IsWhitespace(b[0])
    ensures Dashed(a + w + b) == a + "-" + Dashed(b)
    decreases |a|
  {
    var s := a + w + b;
    if a == [] {
      WhitespaceRunOf(w, b);
      assert s == w + b;
      assert s[|w|..] == b;
    } else {
      assert s[0] == a[0];
      assert s[1..] == a[1..] + w + b;
      DashedRunIsOneDash(a[1..], w, b);
    }
  }

  lemma {:induction false} WhitespaceRunOf(w: string, b: string)
    requires AllWhitespace(w)
    requires b == [] || !IsWhitespace(b[0])
    ensures WhitespaceRun(w + b) == |w|
    decreases |w|
  {
    if w != [] {
      assert (w + b)[1..] == w[1..] + b;
      WhitespaceRunOf(w[1..], b);
    } else {
      assert w + b == b;
    }
  }

  /** The section header's expanded flag, toggled by a click, Enter or Space. */
  class CollapsibleSection {
    var title: string
    var isExpanded: bool

    constructor (title: string, defaultExpanded: Option<bool>)
      ensures this.title == title
      ensures isExpanded == defaultExpanded.GetOr(false)
    {
      this.title := title;
      isExpanded := defaultExpanded.GetOr(false);
    }

    method HandleToggle()
      modifies this
      ensures isExpanded == !old(isExpanded) && title == old(title)
    {
      isExpanded := !isExpanded;
    }

    /** Enter and Space toggle; any other key does nothing. */
    method HeaderKeyDown(key: string)
      modifies this
      ensures key == "Enter" || key == " " ==> isExpanded == !old(isExpanded)
      ensures key != "Enter" && key != " " ==> isExpanded == old(isExpanded)
      ensures title == old(title)
    {
      if key == "Enter" || key == " " {
        HandleToggle();
      }
    }

    /** The id of the content element and of the header's `aria-controls`. */
    function ContentId(): string
      reads this
    {
      SectionId(title)
    }
  }

  // Smart truncation

  const DefaultMaxLength := 100
  const DefaultPreviewLines := 2

  predicate IsPrefix(p: string, s: string) {
    |p| <= |s| && s[..|p|] == p
  }

  /** The first `k` pieces joined with the separator are a prefix of all of them joined. */
  lemma {:induction false} JoinPrefix(parts: seq<string>, k: nat, sep: string)
    requires k <= |parts|
    ensures IsPrefix(Join(parts[..k], sep), Join(parts, sep))
    decreases k
  {
    if k == 0 {
    } else if k == 1 {
      assert parts[..1] == [parts[0]];
      if |parts| >= 2 {
        assert Join(parts, sep) == parts[0] + (sep + Join(parts[1..], sep));
      }
    } else {
      assert parts[..k][0] == parts[0];
      assert parts[..k][1..] == parts[1..][..k - 1];
      JoinPrefix(parts[1..], k - 1, sep);
      var rest := Join(parts[1..][..k - 1], sep);
      var all := Join(parts[1..], sep);
      assert Join(parts[..k], sep) == parts[0] + sep + rest;
      assert Join(parts, sep) == parts[0] + sep + all;
      assert all[..|rest|] == rest;
      assert (parts[0] + sep + all)[..|parts[0] + sep + rest|] == parts[0] + sep + all[..|rest|];
    }
  }

  /** Whether the preview is cut at a line count rather than a length. */
  predicate TruncatesLines(text: string, previewLines: int) {
    |Split(text, '\n')| > previewLines
  }

  /**
   * The preview: the first lines joined back when there are too many, else the first
   * characters. `slice(0, previewLines)` keeps `previewLines` lines when that is not
   * negative, and drops that many lines from the end when it is.
   */
  function Preview(text: string, maxLength: int, previewLines: int): (p: string)
    ensures IsPrefix(p, text)
    ensures !TruncatesLines(text, previewLines) && 0 <= maxLength <= |text| ==> p == text[..maxLength]
    ensures TruncatesLines(text, previewLines) ==>
      var lines := Split(text, '\n');
      var j := SliceIndex(previewLines, |lines|);
      && j < |lines|
      && (previewLines >= 0 ==> j == previewLines)
      && (previewLines < 0 ==> j == if |lines| + previewLines > 0 then |lines| + previewLines else 0)
      && (j == 0 ==> p == "")
      && (j > 0 ==> Split(p, '\n') == lines[..j] && |p| < |text| && text[|p|] == '\n')
  {
    var lines := Split(text, '\n');
    if |lines| > previewLines then
      var j := SliceIndex(previewLines, |lines|);
      var kept := Slice(lines, 0, previewLines);
      assert kept == lines[..j];
      if j == 0 then "" else
        PreviewLines(text, j);
        Join(kept, "\n")
    else Substring(text, 0, maxLength)
  }

  /** The first `j` lines joined back are a prefix of the text that a line break follows. */
  lemma PreviewLines(text: string, j: nat)
    requires 1 <= j < |Split(text, '\n')|
    ensures var lines := Split(text, '\n'); var p := Join(lines[..j], "\n");
      IsPrefix(p, text) && Split(p, '\n') == lines[..j] && |p| < |text| && text[|p|] == '\n'
  {
    var lines := Split(text, '\n');
    var p := Join(lines[..j], "\n");
    var rest := Join(lines[j..], "\n");
    SplitJoin(text, '\n');
    JoinAt(lines, j, "\n");
    assert text == p + "\n" + rest;
    assert text[..|p|] == p;
    assert text[|p|] == '\n';
    SplitPiecesFree(text, '\n');
    assert forall i :: 0 <= i < j ==> lines[..j][i] == lines[i];
    JoinSplit(lines[..j], '\n');
  }

  /**
   * The collapsed text of `SmartTruncate`: empty or short text as it is; otherwise the
   * preview cut to `maxLength` characters and "...", or the preview with "\n..." after
   * cut lines, or with "..." after cut characters.
   */
  function Truncated(text: string, maxLength: int, previewLines: int): (r: string)
    ensures text == "" || |text| <= maxLength ==> r == text
    ensures text != "" && |text| > maxLength && maxLength >= 0 ==>
      var p := Preview(text, maxLength, previewLines);
      && (|p| > maxLength ==> r == text[..maxLength] + "...")
      && (|p| <= maxLength && TruncatesLines(text, previewLines) ==> r == p + "\n...")
      && (!TruncatesLines(text, previewLines) ==> r == text[..maxLength] + "...")
    ensures maxLength >= 0 ==> |r| <= maxLength + 4
  {
    if text == "" || |text| <= maxLength then text
    else
      var previewText := Preview(text, maxLength, previewLines);
      if |previewText| > maxLength then
        PrefixOfPrefix(previewText, text, maxLength);
        Substring(previewText, 0, maxLength) + "..."
      else previewText + (if TruncatesLines(text, previewLines) then "\n..." else "...")
  }

  lemma PrefixOfPrefix(p: string, s: string, n: int)
    requires IsPrefix(p, s)
    ensures 0 <= n <= |p| ==> p[..n] == s[..n]
  {
    if 0 <= n <= |p| {
      assert p[..n] == s[..|p|][..n];
    }
  }

  /**
   * A collapsed long text begins with the start of the text: its first `maxLength`
   * characters, followed by "...", when characters are cut; the whole preview, a
   * prefix of the text of at most `maxLength` characters, followed by a line break
   * and "...", when lines are cut.
   */
  lemma TruncatedStartsLikeText(text: string, maxLength: int, previewLines: int)
    requires |text| > maxLength >= 0
    ensures var r := Truncated(text, maxLength, previewLines);
      var p := Preview(text, maxLength, previewLines);
      && ((|p| > maxLength || !TruncatesLines(text, previewLines)) ==>
            |r| == maxLength + 3 && StartsWith(r, text[..maxLength]) && EndsWith(r, "..."))
      && ((|p| <= maxLength && TruncatesLines(text, previewLines)) ==>
            |r| == |p| + 4 && StartsWith(r, text[..|p|]) && EndsWith(r, "\n..."))
  {
    var r := Truncated(text, maxLength, previewLines);
    var p := Preview(text, maxLength, previewLines);
    if |p| > maxLength || !TruncatesLines(text, previewLines) {
      assert r == text[..maxLength] + "...";
      assert r[..maxLength] == text[..maxLength];
      assert r[|r| - 3..] == "...";
    } else {
      assert r == p + "\n...";
      assert text[..|p|] == p;
      assert r[..|p|] == text[..|p|];
      assert r[|r| - 4..] == "\n...";
    }
  }

  /** The widget: the text in full when expanded, collapsed otherwise. */
  class SmartTruncate {
    const text: string
    const maxLength: int
    const previewLines: int
    var isExpanded: bool

    /** Missing limits default to 100 characters and 2 lines. */
    constructor (text: string, maxLength: Option<int>, previewLines: Option<int>)
      ensures this.text == text && !isExpanded
      ensures this.maxLength == maxLength.GetOr(DefaultMaxLength)
      ensures this.previewLines == previewLines.GetOr(DefaultPreviewLines)
    {
      this.text := text;
      this.maxLength := maxLength.GetOr(DefaultMaxLength);
      this.previewLines := previewLines.GetOr(DefaultPreviewLines);
      isExpanded := false;
    }

    function Shown(): (r: string)
      reads this
      ensures isExpanded ==> r == text
      ensures !isExpanded ==> r == Truncated(text, maxLength, previewLines)
    {
      if isExpanded then text else Truncated(text, maxLength, previewLines)
    }

    /** "Show more" and "Show less". */
    method ToggleExpanded()
      modifies this
      ensures isExpanded == !old(isExpanded)
    {
      isExpanded := !isExpanded;
    }
  }

  // The expanded-key set

  /** `toggleKey` on the set: the key is added when absent and removed when present. */
  function Toggled(keys: set<string>, key: string): (r: set<string>)
    ensures key in r <==> key !in keys
    ensures forall k :: k != key ==> (k in r <==> k in keys)
  {
    if key in keys then keys - {key} else keys + {key}
  }

  /** Toggling the same key twice gives back the set. */
  lemma ToggledTwice(keys: set<string>, key: string)
    ensures Toggled(Toggled(keys, key), key) == keys
  {
  }

  /** Toggling two different keys commutes. */
  lemma ToggledCommutes(keys: set<string>, a: string, b: string)
    ensures Toggled(Toggled(keys, a), b) == Toggled(Toggled(keys, b), a)
  {
  }

  // Entry order

  datatype Entry = Entry(key: string, value: Value)

  /** The sort group of a value: strings, numbers, booleans, objects (with null), then the rest. */
  function TypeRank(v: Value): (r: nat)
    ensures 1 <= r <= 5
    ensures r == 1 <==> v.Str?
    ensures r == 4 <==> v.Obj? || v.Null?
    ensures r == 5 <==> v.Arr? || v.Undefined?
    ensures r == 2 <==> v.Num?
    ensures r == 3 <==> v.Bool?
  {
    match v
    case Str(_) => 1
    case Num(_) => 2
    case Bool(_) => 3
    case Obj(_) => 4
    case Null => 4
    case Arr(_) => 5
    case Undefined => 5
  }

  /** Code-point order on keys, standing for `localeCompare`. */
  predicate KeyLess(a: string, b: string)
    decreases |a|
  {
    if a == [] then b != []
    else if b == [] then false
    else a[0] < b[0] || (a[0] == b[0] && KeyLess(a[1..], b[1..]))
  }

  lemma {:induction false} KeyLessIrreflexive(a: string)
    ensures !KeyLess(a, a)
    decreases |a|
  {
    if a != [] {
      KeyLessIrreflexive(a[1..]);
    }
  }

  lemma {:induction false} KeyLessTransitive(a: string, b: string, c: string)
    requires KeyLess(a, b) && KeyLess(b, c)
    ensures KeyLess(a, c)
    decreases |a|
  {
    if a != [] && a[0] == b[0] && b[0] == c[0] {
      KeyLessTransitive(a[1..], b[1..], c[1..]);
    }
  }

  lemma {:induction false} KeyLessTotal(a: string, b: string)
    requires a != b
    ensures KeyLess(a, b) || KeyLess(b, a)
    decreases |a|
  {
    if a != [] && b != [] && a[0] == b[0] {
      assert a == [a[0]] + a[1..] && b == [b[0]] + b[1..];
      KeyLessTotal(a[1..], b[1..]);
    }
  }

  /** The comparator: by type rank, then by key. */
  predicate EntryLess(x: Entry, y: Entry) {
    TypeRank(x.value) < TypeRank(y.value)
    || (TypeRank(x.value) == TypeRank(y.value) && KeyLess(x.key, y.key))
  }

  lemma EntryLessIrreflexive(x: Entry)
    ensures !EntryLess(x, x)
  {
    KeyLessIrreflexive(x.key);
  }

  lemma EntryLessTransitive(x: Entry, y: Entry, z: Entry)
    requires EntryLess(x, y) && EntryLess(y, z)
    ensures EntryLess(x, z)
  {
    if TypeRank(x.value) == TypeRank(y.value) == TypeRank(z.value) {
      KeyLessTransitive(x.key, y.key, z.key);
    }
  }

  /** Entries with different keys are always ordered one way or the other. */
  lemma EntryLessTotal(x: Entry, y: Entry)
    requires x.key != y.key
    ensures EntryLess(x, y) || EntryLess(y, x)
  {
    KeyLessTotal(x.key, y.key);
  }

  /** Neither entry is ordered before the other only when they tie on rank and key. */
  lemma EntryNotLessTransitive(x: Entry, y: Entry, z: Entry)
    requires !EntryLess(y, x) && !EntryLess(z, y)
    ensures !EntryLess(z, x)
  {
    if EntryLess(z, x) && y.key != x.key {
      EntryLessTotal(x, y);
      EntryLessTransitive(z, x, y);
    }
  }

  /** No entry is followed by one that sorts before it. */
  predicate Sorted(s: seq<Entry>) {
    forall i, j :: 0 <= i < j < |s| ==> !EntryLess(s[j], s[i])
  }

  /** Every entry sorts strictly before every later one. */
  predicate StrictlySorted(s: seq<Entry>) {
    forall i, j :: 0 <= i < j < |s| ==> EntryLess(s[i], s[j])
  }

  predicate KeysDistinct(s: seq<Entry>) {
    forall i, j :: 0 <= i < j < |s| ==> s[i].key != s[j].key
  }

  /** Places an entry into a sorted list, after every entry that sorts before it. */
  function Insert(x: Entry, s: seq<Entry>): (r: seq<Entry>)
    requires Sorted(s)
    ensures Sorted(r)
    ensures multiset(r) == multiset(s) + multiset{x}
    ensures |r| == |s| + 1
    decreases |s|
  {
    if s == [] then [x]
    else if EntryLess(s[0], x) then
      var rest := Insert(x, s[1..]);
      assert s == [s[0]] + s[1..];
      InsertSortedHead(s[0], x, s[1..], rest);
      [s[0]] + rest
    else
      InsertSortedFront(x, s);
      [x] + s
  }

  lemma InsertSortedFront(x: Entry, s: seq<Entry>)
    requires Sorted(s) && s != [] && !EntryLess(s[0], x)
    ensures Sorted([x] + s)
  {
    var r := [x] + s;
    forall i, j | 0 <= i < j < |r| ensures !EntryLess(r[j], r[i]) {
      if i == 0 && j > 1 {
        EntryNotLessTransitive(x, s[0], s[j - 1]);
      }
    }
  }

  lemma InsertSortedHead(h: Entry, x: Entry, t: seq<Entry>, rest: seq<Entry>)
    requires Sorted([h] + t) && EntryLess(h, x)
    requires Sorted(rest) && multiset(rest) == multiset(t) + multiset{x}
    ensures Sorted([h] + rest)
  {
    var r := [h] + rest;
    forall j | 0 <= j < |rest| ensures !EntryLess(rest[j], h) {
      assert rest[j] in multiset(rest);
      if rest[j] == x {
        if EntryLess(x, h) {
          EntryLessTransitive(x, h, x);
          EntryLessIrreflexive(x);
        }
      } else {
        assert rest[j] in multiset(t);
        assert rest[j] in t;
        assert ([h] + t)[0] == h;
        var k :| 0 <= k < |t| && t[k] == rest[j];
        assert ([h] + t)[k + 1] == t[k];
      }
    }
    forall i, j | 0 <= i < j < |r| ensures !EntryLess(r[j], r[i]) {
      if i == 0 {
        assert r[j] == rest[j - 1];
      } else {
        assert r[i] == rest[i - 1] && r[j] == rest[j - 1];
      }
    }
  }

  /**
   * The order `DataHierarchy` shows entries in: a permutation of the entries, sorted
   * by the comparator.
   */
  function SortEntries(entries: seq<Entry>): (r: seq<Entry>)
    ensures Sorted(r)
    ensures multiset(r) == multiset(entries)
    decreases |entries|
  {
    if entries == [] then []
    else
      var front := entries[..|entries| - 1];
      assert entries == front + [entries[|entries| - 1]];
      Insert(entries[|entries| - 1], SortEntries(front))
  }

  /** A sorted list whose keys are distinct is strictly sorted. */
  lemma SortedDistinctIsStrict(s: seq<Entry>)
    requires Sorted(s) && KeysDistinct(s)
    ensures StrictlySorted(s)
  {
    forall i, j | 0 <= i < j < |s| ensures EntryLess(s[i], s[j]) {
      EntryLessTotal(s[i], s[j]);
    }
  }

  /** Permuting a list keeps its keys distinct. */
  lemma DistinctUnderPermutation(s: seq<Entry>, r: seq<Entry>)
    requires KeysDistinct(s) && multiset(r) == multiset(s)
    ensures KeysDistinct(r)
  {
    forall i, j | 0 <= i < j < |r| ensures r[i].key != r[j].key {
      if r[i].key == r[j].key {
        assert r[i] in multiset(s) && r[j] in multiset(s);
        var a :| 0 <= a < |s| && s[a] == r[i];
        var b :| 0 <= b < |s| && s[b] == r[j];
        if a == b {
          assert r[i] == r[j];
          assert multiset(r)[r[i]] >= 2 by {
            assert r == r[..i] + [r[i]] + r[i + 1..];
            assert r[j] in r[i + 1..] by {
              assert r[i + 1..][j - i - 1] == r[j];
            }
          }
          DistinctCountsOne(s, a);
        }
      }
    }
  }

  /** An entry of a list with distinct keys occurs in it once. */
  lemma DistinctCountsOne(s: seq<Entry>, a: nat)
    requires KeysDistinct(s) && a < |s|
    ensures multiset(s)[s[a]] == 1
  {
    assert s == s[..a] + [s[a]] + s[a + 1..];
    assert forall k :: 0 <= k < a ==> s[..a][k] != s[a];
    assert s[a] !in multiset(s[..a]);
    var tail := s[a + 1..];
    forall k | 0 <= k < |tail| ensures tail[k] != s[a] {
      assert tail[k] == s[a + 1 + k];
    }
    assert s[a] !in multiset(s[a + 1..]);
  }

  /**
   * Two strictly sorted lists of the same entries are the same list, so the order
   * shown does not depend on the sorting algorithm.
   */
  lemma {:induction false} StrictOrderIsUnique(r1: seq<Entry>, r2: seq<Entry>)
    requires StrictlySorted(r1) && StrictlySorted(r2)
    requires forall e :: e in r1 <==> e in r2
    ensures r1 == r2
    decreases |r1|
  {
    if r1 != [] {
      assert r1[0] in r1;
    }
    if r2 != [] {
      assert r2[0] in r2;
    }
    if r1 != [] {
      if r1[0] != r2[0] {
        var j :| 0 <= j < |r2| && r2[j] == r1[0];
        var i :| 0 <= i < |r1| && r1[i] == r2[0];
        assert EntryLess(r2[0], r1[0]);
        assert EntryLess(r1[0], r2[0]);
        EntryLessTransitive(r1[0], r2[0], r1[0]);
        EntryLessIrreflexive(r1[0]);
        assert false;
      }
      forall e ensures e in r1[1..] <==> e in r2[1..] {
        StrictTailExcludesHead(r1, e);
        StrictTailExcludesHead(r2, e);
      }
      StrictOrderIsUnique(r1[1..], r2[1..]);
      assert r1 == [r1[0]] + r1[1..] && r2 == [r2[0]] + r2[1..];
    }
  }

  lemma StrictTailExcludesHead(r: seq<Entry>, e: Entry)
    requires StrictlySorted(r) && r != []
    ensures e in r[1..] <==> e in r && e != r[0]
  {
    if e in r[1..] {
      var k :| 0 <= k < |r| - 1 && r[1..][k] == e;
      assert EntryLess(r[0], r[k + 1]);
      if e == r[0] {
        EntryLessIrreflexive(e);
      }
    }
    if e in r && e != r[0] {
      var k :| 0 <= k < |r| && r[k] == e;
      assert r[1..][k - 1] == e;
    }
  }

  /**
   * For the entries of an object (distinct keys) the sorted order is strict, hence
   * the only order consistent with the comparator.
   */
  lemma SortedEntriesAreCanonical(entries: seq<Entry>, other: seq<Entry>)
    requires KeysDistinct(entries)
    requires StrictlySorted(other) && multiset(other) == multiset(entries)
    ensures SortEntries(entries) == other
  {
    var r := SortEntries(entries);
    DistinctUnderPermutation(entries, r);
    SortedDistinctIsStrict(r);
    forall e ensures e in r <==> e in other {
      assert e in r <==> e in multiset(r);
      assert e in other <==> e in multiset(other);
    }
    StrictOrderIsUnique(r, other);
  }

  // Collapse rules

  const DefaultMaxDepth := 3
  const DefaultCollapseLongArrays := 5
  /** String values are shown through a smart truncation with this limit. */
  const StringValueMaxLength := 50

  /** How one value of the hierarchy is shown. */
  datatype View =
    | NullView
    | BoolView(b: bool)
    | NumberView(n: real)
    | StringView(collapsedText: string)
    | EmptyArrayView
    | CollapsedArrayView(length: nat)
    | ArrayItemsView(hideButton: bool)
    | EmptyObjectView
    | CollapsedObjectView(keyCount: nat)
    | NestedView(level: int)

  /** The decimal digits of a natural number, as a template literal prints it. */
  function NatToString(n: nat): (r: string)
    ensures r != []
    ensures forall k :: 0 <= k < |r| ==> '0' <= r[k] <= '9'
    decreases n
  {
    var d := [(('0' as int) + n % 10) as char];
    if n < 10 then d else NatToString(n / 10) + d
  }

  /** The key under which an array's expansion is remembered: the level, a dash and the key. */
  function KeyId(level: nat, key: string): string {
    NatToString(level) + "-" + key
  }

  /**
   * `renderValue` at the first decision: null and undefined, booleans, numbers and
   * strings are shown directly; an empty array or object as such; a longer array
   * than `collapseLongArrays` collapsed unless its key id is expanded; an object at
   * `level >= maxDepth` collapsed; any other object one level deeper.
   */
  function RenderValue(key: string, v: Value, level: nat, maxDepth: int, collapseLongArrays: int,
                       expandedKeys: set<string>): (view: View)
    ensures v.Arr? && |v.items| > 0 ==>
      (view.CollapsedArrayView? <==> |v.items| > collapseLongArrays && KeyId(level, key) !in expandedKeys)
    ensures v.Obj? && |v.fields| > 0 ==> (view.CollapsedObjectView? <==> level >= maxDepth)
    ensures v.Str? ==> view == StringView(Truncated(v.s, StringValueMaxLength, DefaultPreviewLines))
  {
    match v
    case Null => NullView
    case Undefined => NullView
    case Bool(b) => BoolView(b)
    case Num(n) => NumberView(n)
    case Str(s) => StringView(Truncated(s, StringValueMaxLength, DefaultPreviewLines))
    case Arr(items) =>
      if |items| == 0 then EmptyArrayView
      else
        var isExpanded := KeyId(level, key) in expandedKeys;
        var shouldCollapse := |items| > collapseLongArrays;
        if shouldCollapse && !isExpanded then CollapsedArrayView(|items|)
        else ArrayItemsView(shouldCollapse)
    case Obj(fields) =>
      if |fields| == 0 then EmptyObjectView
      else if level >= maxDepth then CollapsedObjectView(|fields|)
      else NestedView(level + 1)
  }

  /**
   * Toggling a long array's key id flips it between collapsed and shown; a short
   * array is shown either way, without a hide button.
   */
  lemma ToggleFlipsLongArray(key: string, v: Value, level: nat, maxDepth: int,
                             collapseLongArrays: int, expandedKeys: set<string>)
    requires v.Arr? && |v.items| > 0
    ensures var before := RenderValue(key, v, level, maxDepth, collapseLongArrays, expandedKeys);
      var after := RenderValue(key, v, level, maxDepth, collapseLongArrays,
                               Toggled(expandedKeys, KeyId(level, key)));
      && (|v.items| > collapseLongArrays ==> (after.CollapsedArrayView? <==> !before.CollapsedArrayView?))
      && (|v.items| <= collapseLongArrays ==> before == after == ArrayItemsView(false))
  {
  }

  /** With the defaults, six items are collapsed until expanded and objects nest three levels deep. */
  lemma DefaultCollapseExamples(key: string, v: Value, level: nat)
    ensures v.Arr? && |v.items| == 6 ==>
      RenderValue(key, v, level, DefaultMaxDepth, DefaultCollapseLongArrays, {}) == CollapsedArrayView(6)
    ensures v.Arr? && 0 < |v.items| <= 5 ==>
      RenderValue(key, v, level, DefaultMaxDepth, DefaultCollapseLongArrays, {}) == ArrayItemsView(false)
    ensures v.Obj? && |v.fields| > 0 && level < 3 ==>
      RenderValue(key, v, level, DefaultMaxDepth, DefaultCollapseLongArrays, {}) == NestedView(level + 1)
  {
  }

  /** The data hierarchy's expanded array keys, toggled by the show and hide buttons. */
  class DataHierarchy {
    var expandedKeys: set<string>

    constructor ()
      ensures expandedKeys == {}
    {
      expandedKeys := {};
    }

    method ToggleKey(key: string)
      modifies this
      ensures expandedKeys == Toggled(old(expandedKeys), key)
    {
      var newSet := expandedKeys;
      if key in newSet {
        newSet := newSet - {key};
      } else {
        newSet := newSet + {key};
      }
      expandedKeys := newSet;
    }
  }
}
