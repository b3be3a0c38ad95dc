/**
 * The fragment of ECMAScript string and array semantics that the components rely on:
 * the whitespace set of `trim` and `\s`, line terminators, `startsWith`/`endsWith`/
 * `includes`/`indexOf`, `replace` with a string pattern, `split` on one character,
 * `join`, `substring` and `slice` index clamping, and the `a || b` default for strings.
 * A string is a sequence of code points; case mapping covers ASCII letters only.
 */
module JsStrings {
  import opened Wrappers

  /** ECMAScript LineTerminator: LF, CR, LINE SEPARATOR, PARAGRAPH SEPARATOR. */
  predicate IsLineTerminator(c: char) {
    c == '\n' || c == '\r' || c == '\U{2028}' || c == '\U{2029}'
  }

  /** ECMAScript WhiteSpace or LineTerminator: what `\s` matches and `trim` removes. */
  predicate IsWhitespace(c: char) {
    || c == '\t' || c == '\U{000B}' || c == '\U{000C}' || c == ' ' || c == '\U{00A0}'
    || c == '\U{1680}' || ('\U{2000}' <= c <= '\U{200A}') || c == '\U{202F}'
    || c == '\U{205F}' || c == '\U{3000}' || c == '\U{FEFF}' || IsLineTerminator(c)
  }

  predicate AllWhitespace(s: string) {
    forall k :: 0 <= k < |s| ==> IsWhitespace(s[k])
  }

  /** The number of whitespace characters `s` starts with. */
  function LeadingWhitespace(s: string): (n: nat)
    ensures n <= |s|
    ensures forall k :: 0 <= k < n ==> IsWhitespace(s[k])
    ensures n == |s| || !IsWhitespace(s[n])
    decreases |s|
  {
    if s != [] && IsWhitespace(s[0]) then 1 + LeadingWhitespace(s[1..]) else 0
  }

  /** The number of whitespace characters `s` ends with. */
  function TrailingWhitespace(s: string): (n: nat)
    ensures n <= |s|
    ensures forall k :: |s| - n <= k < |s| ==> IsWhitespace(s[k])
    ensures n == |s| || !IsWhitespace(s[|s| - n - 1])
    decreases |s|
  {
    if s != [] && IsWhitespace(s[|s| - 1]) then 1 + TrailingWhitespace(s[..|s| - 1]) else 0
  }

  /** `s.trimStart()`: drops the leading whitespace and nothing else. */
  function TrimStart(s: string): (r: string)
    ensures |r| <= |s| && r == s[|s| - |r|..]
    ensures r == [] || !IsWhitespace(r[0])
  {
    s[LeadingWhitespace(s)..]
  }

  /** `s.trimEnd()`: drops the trailing whitespace and nothing else. */
  function TrimEnd(s: string): (r: string)
    ensures |r| <= |s| && r == s[..|r|]
    ensures r == [] || !IsWhitespace(r[|r| - 1])
  {
    s[..|s| - TrailingWhitespace(s)]
  }

  /** `s.trim()`: the infix of `s` left after removing whitespace at both ends. */
  function Trim(s: string): (r: string)
    ensures r == [] || (!IsWhitespace(r[0]) && !IsWhitespace(r[|r| - 1]))
    ensures r == [] <==> AllWhitespace(s)
    ensures var i := LeadingWhitespace(s); i + |r| <= |s| && r == s[i..i + |r|]
  {
    TrimEmpty(s);
    TrimInfix(s);
    TrimEnd(TrimStart(s))
  }

  lemma TrimInfix(s: string)
    ensures var i := LeadingWhitespace(s); var r := TrimEnd(TrimStart(s));
      i + |r| <= |s| && r == s[i..i + |r|]
  {
    var i := LeadingWhitespace(s);
    var t := TrimStart(s);
    assert t == s[i..];
    var m := |t| - TrailingWhitespace(t);
    assert TrimEnd(t) == t[..m];
    DropTake(s, i, m);
  }

  /** Taking `m` after dropping `i` is the slice from `i` of length `m`. */
  lemma DropTake<T>(s: seq<T>, i: nat, m: nat)
    requires i + m <= |s|
    ensures s[i..][..m] == s[i..i + m]
  {
  }

  lemma TrimEmpty(s: string)
    ensures TrimEnd(TrimStart(s)) == [] <==> AllWhitespace(s)
  {
    var i := LeadingWhitespace(s);
    var t := s[i..];
    assert t == [] || t[0] == s[i];
  }

  /** Trimming a trimmed string changes nothing. */
  lemma TrimIdempotent(s: string)
    ensures Trim(Trim(s)) == Trim(s)
  {
    var r := Trim(s);
    assert LeadingWhitespace(r) == 0;
    assert TrimStart(r) == r;
    assert TrailingWhitespace(r) == 0;
  }

  /** A suffix of a suffix is a suffix. */
  lemma SuffixOfSuffix<T>(s: seq<T>, mid: seq<T>, r: seq<T>)
    requires |mid| <= |s| && mid == s[|s| - |mid|..]
    requires |r| <= |mid| && r == mid[|mid| - |r|..]
    ensures r == s[|s| - |r|..]
  {
    assert forall k :: 0 <= k < |r| ==> r[k] == mid[|mid| - |r| + k] == s[|s| - |r| + k];
  }

  predicate StartsWith(s: string, p: string) {
    |p| <= |s| && s[..|p|] == p
  }

  predicate EndsWith(s: string, p: string) {
    |p| <= |s| && s[|s| - |p|..] == p
  }

  /** `p` occurs in `s` starting at index `k`. */
  predicate OccursAt(s: string, p: string, k: int) {
    0 <= k && k + |p| <= |s| && s[k..k + |p|] == p
  }

  function IndexOfFrom(s: string, p: string, i: nat): (r: Option<nat>)
    requires i <= |s|
    ensures r.Some? ==> i <= r.value && OccursAt(s, p, r.value)
    ensures r.Some? ==> forall k :: i <= k < r.value ==> !OccursAt(s, p, k)
    ensures r.None? ==> forall k :: i <= k ==> !OccursAt(s, p, k)
    decreases |s| - i
  {
    if OccursAt(s, p, i) then Some(i)
    else if i + |p| >= |s| then None
    else IndexOfFrom(s, p, i + 1)
  }

  /** `s.indexOf(p)`, with -1 written as None: the first occurrence of `p`. */
  function IndexOf(s: string, p: string): (r: Option<nat>)
    ensures r.Some? ==> OccursAt(s, p, r.value)
    ensures r.Some? ==> forall k :: 0 <= k < r.value ==> !OccursAt(s, p, k)
    ensures r.None? <==> forall k :: !OccursAt(s, p, k)
  {
    IndexOfFrom(s, p, 0)
  }

  /** `s.includes(p)`. */
  predicate Contains(s: string, p: string)
    ensures Contains(s, p) <==> exists k :: OccursAt(s, p, k)
  {
    IndexOf(s, p).Some?
  }

  /** `s.replace(p, q)` with a string pattern: only the first occurrence is replaced. */
  function ReplaceFirst(s: string, p: string, q: string): (r: string)
    ensures IndexOf(s, p).None? ==> r == s
    ensures IndexOf(s, p).Some? ==>
      var i := IndexOf(s, p).value; r == s[..i] + q + s[i + |p|..]
  {
    match IndexOf(s, p)
    case None => s
    case Some(i) => s[..i] + q + s[i + |p|..]
  }

  /** The first index of character `c` in `s`. */
  function IndexOfChar(s: string, c: char): (r: Option<nat>)
    ensures r.Some? ==> r.value < |s| && s[r.value] == c
    ensures r.Some? ==> forall k :: 0 <= k < r.value ==> s[k] != c
    ensures r.None? ==> forall k :: 0 <= k < |s| ==> s[k] != c
  {
    if s == [] then None
    else if s[0] == c then Some(0)
    else match IndexOfChar(s[1..], c)
      case None => None
      case Some(i) => Some(i + 1)
  }

  /** `parts.join(sep)`. */
  function Join(parts: seq<string>, sep: string): string
  {
    if |parts| == 0 then ""
    else if |parts| == 1 then parts[0]
    else parts[0] + sep + Join(parts[1..], sep)
  }

  /** `s.split(c)` for a one-character separator: the maximal pieces between separators. */
  function Split(s: string, c: char): (r: seq<string>)
    ensures |r| >= 1
    decreases |s|
  {
    match IndexOfChar(s, c)
    case None => [s]
    case Some(i) => [s[..i]] + Split(s[i + 1..], c)
  }

  /** Joining the pieces with the separator gives back the string. */
  lemma {:induction false} SplitJoin(s: string, c: char)
    ensures Join(Split(s, c), [c]) == s
    decreases |s|
  {
    match IndexOfChar(s, c)
    case None =>
    case Some(i) =>
      var head := s[..i];
      var tail := s[i + 1..];
      var parts := Split(tail, c);
      assert Split(s, c) == [head] + parts;
      SplitJoin(tail, c);
      JoinCons(head, parts, [c]);
      assert s == head + [c] + tail;
  }

  lemma JoinCons(p: string, ps: seq<string>, sep: string)
    requires |ps| >= 1
    ensures Join([p] + ps, sep) == p + sep + Join(ps, sep)
  {
    assert ([p] + ps)[1..] == ps;
  }

  /** A separator appended after `s` is found in `s` first, or else right after it. */
  lemma {:induction false} IndexOfCharAppend(s: string, t: string, c: char)
    ensures IndexOfChar(s + [c] + t, c) ==
      if IndexOfChar(s, c).Some? then IndexOfChar(s, c) else Some(|s|)
  {
    var u := s + [c] + t;
    if s != [] && s[0] != c {
      assert u[1..] == s[1..] + [c] + t;
      IndexOfCharAppend(s[1..], t, c);
    }
  }

  /** One step of `Split` at the first separator. */
  lemma SplitAt(s: string, c: char, i: nat)
    requires IndexOfChar(s, c) == Some(i)
    ensures Split(s, c) == [s[..i]] + Split(s[i + 1..], c)
  {
  }

  /** Splitting distributes over a separator: the pieces of `s` then those of `t`. */
  lemma {:induction false} SplitAppend(s: string, t: string, c: char)
    ensures Split(s + [c] + t, c) == Split(s, c) + Split(t, c)
    decreases |s|
  {
    match IndexOfChar(s, c)
    case None =>
      SplitAppendLast(s, t, c);
    case Some(i) =>
      SplitAppend(s[i + 1..], t, c);
      SplitAppendStep(s, t, c, i);
  }

  /** Without a separator in `s`, the appended one is the first. */
  lemma SplitAppendLast(s: string, t: string, c: char)
    requires IndexOfChar(s, c).None?
    ensures Split(s + [c] + t, c) == Split(s, c) + Split(t, c)
  {
    var u := s + [c] + t;
    IndexOfCharAppend(s, t, c);
    SplitAt(u, c, |s|);
    assert u[..|s|] == s;
    assert u[|s| + 1..] == t;
  }

  /** With a first separator at `i` in `s`, the first piece is the same and the rest recurses. */
  lemma SplitAppendStep(s: string, t: string, c: char, i: nat)
    requires IndexOfChar(s, c) == Some(i)
    requires Split(s[i + 1..] + [c] + t, c) == Split(s[i + 1..], c) + Split(t, c)
    ensures Split(s + [c] + t, c) == Split(s, c) + Split(t, c)
  {
    var rest := Split(s[i + 1..], c);
    assert Split(s + [c] + t, c) == [s[..i]] + Split(s[i + 1..] + [c] + t, c) by {
      SplitAppendHead(s, t, c, i);
    }
    assert Split(s, c) == [s[..i]] + rest by {
      SplitAt(s, c, i);
    }
    ConsAssociates(s[..i], rest, Split(t, c));
  }

  lemma ConsAssociates<T>(h: T, a: seq<T>, b: seq<T>)
    ensures [h] + (a + b) == ([h] + a) + b
  {
  }

  lemma SplitAppendHead(s: string, t: string, c: char, i: nat)
    requires IndexOfChar(s, c) == Some(i)
    ensures Split(s + [c] + t, c) == [s[..i]] + Split(s[i + 1..] + [c] + t, c)
  {
    var u := s + [c] + t;
    IndexOfCharAppend(s, t, c);
    SplitAt(u, c, i);
    assert u[..i] == s[..i];
    assert u[i + 1..] == s[i + 1..] + [c] + t;
  }

  lemma SplitNoSeparator(s: string, c: char)
    requires c !in s
    ensures Split(s, c) == [s]
  {
  }

  /** No piece of a split holds the separator. */
  lemma {:induction false} SplitPiecesFree(s: string, c: char)
    ensures forall i :: 0 <= i < |Split(s, c)| ==> c !in Split(s, c)[i]
    decreases |s|
  {
    match IndexOfChar(s, c)
    case None =>
    case Some(i) =>
      SplitPiecesFree(s[i + 1..], c);
      assert Split(s, c) == [s[..i]] + Split(s[i + 1..], c);
  }

  /** Splitting what was joined gives back the pieces, when no piece holds the separator. */
  lemma {:induction false} JoinSplit(parts: seq<string>, c: char)
    requires |parts| >= 1
    requires forall i :: 0 <= i < |parts| ==> c !in parts[i]
    ensures Split(Join(parts, [c]), c) == parts
    decreases |parts|
  {
    SplitNoSeparator(parts[0], c);
    if |parts| > 1 {
      var rest := parts[1..];
      assert forall i :: 0 <= i < |rest| ==> rest[i] == parts[i + 1];
      JoinSplit(rest, c);
      var tail := Join(rest, [c]);
      assert Join(parts, [c]) == parts[0] + [c] + tail;
      SplitAppend(parts[0], tail, c);
      assert Split(parts[0] + [c] + tail, c) == [parts[0]] + rest;
      assert [parts[0]] + rest == parts;
    }
  }

  /** A join cut after its `k`-th piece: the first `k` joined, a separator, the rest joined. */
  lemma {:induction false} JoinAt(parts: seq<string>, k: nat, sep: string)
    requires 1 <= k < |parts|
    ensures Join(parts, sep) == Join(parts[..k], sep) + sep + Join(parts[k..], sep)
    decreases k
  {
    if k == 1 {
      assert parts[..1] == [parts[0]];
    } else {
      JoinAt(parts[1..], k - 1, sep);
      assert parts[..k][0] == parts[0];
      assert parts[1..][..k - 1] == parts[..k][1..];
      assert parts[1..][k - 1..] == parts[k..];
    }
  }

  function LowerChar(c: char): char {
    if 'A' <= c <= 'Z' then (c as int + 32) as char else c
  }

  function UpperChar(c: char): char {
    if 'a' <= c <= 'z' then (c as int - 32) as char else c
  }

  /** `s.toLowerCase()` over ASCII letters. */
  function ToLower(s: string): (r: string)
    ensures |r| == |s|
  {
    seq(|s|, i requires 0 <= i < |s| => LowerChar(s[i]))
  }

  /** `s.toUpperCase()` over ASCII letters. */
  function ToUpper(s: string): (r: string)
    ensures |r| == |s|
  {
    seq(|s|, i requires 0 <= i < |s| => UpperChar(s[i]))
  }

  /** How `substring` clamps an index into `[0, len]`. */
  function Clamp(n: int, len: nat): (r: nat)
    ensures r <= len
  {
    if n < 0 then 0 else if n > len then len else n
  }

  /** `s.substring(a, b)`: both bounds clamped, swapped when reversed. */
  function Substring(s: string, a: int, b: int): (r: string)
    ensures 0 <= a <= b <= |s| ==> r == s[a..b]
    ensures |r| <= |s|
  {
    var i := Clamp(a, |s|);
    var j := Clamp(b, |s|);
    if i <= j then s[i..j] else s[j..i]
  }

  /** How `slice` reads an index: a negative one counts from the end. */
  function SliceIndex(n: int, len: nat): (r: nat)
    ensures r <= len
  {
    if n < 0 then (if len + n < 0 then 0 else len + n)
    else if n > len then len
    else n
  }

  /** `s.slice(a, b)` on arrays and strings. */
  function Slice<T>(s: seq<T>, a: int, b: int): (r: seq<T>)
    ensures 0 <= a <= b <= |s| ==> r == s[a..b]
    ensures |r| <= |s|
  {
    var i := SliceIndex(a, |s|);
    var j := SliceIndex(b, |s|);
    if i < j then s[i..j] else []
  }

  /** `o || d` for an optional string: the empty string is falsy too. */
  function OrElse(o: Option<string>, d: string): (r: string)
    ensures o.Some? && o.value != "" ==> r == o.value
    ensures o.None? || o.value == "" ==> r == d
  {
    if o.Some? && o.value != "" then o.value else d
  }
}
