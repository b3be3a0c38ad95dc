/**
 * The video node's URL handling: turning a YouTube or Vimeo page address into the
 * address of its embeddable player, and the loose "is this a video link" test.
 *
 * The two regular expressions of the component are modelled directly as leftmost-match
 * searches: `(?:youtube\.com\/watch\?v=|youtu\.be\/)([\w-]+)` and `vimeo\.com\/(\d+)`.
 */
module VideoNode {
  import opened Wrappers
  import opened JsStrings

  const WatchPrefix := "youtube.com/watch?v="
  const ShortPrefix := "youtu.be/"
  const VimeoPrefix := "vimeo.com/"
  const YouTubeEmbed := "https://www.youtube.com/embed/"
  const VimeoPlayer := "https://player.vimeo.com/video/"

  /** The two patterns of the embed-URL extraction. */
  datatype Pattern = YouTube | Vimeo

  /** `[\w-]`: ASCII letters, digits, underscore and hyphen. */
  predicate IdChar(c: char) {
    'A' <= c <= 'Z' || 'a' <= c <= 'z' || '0' <= c <= '9' || c == '_' || c == '-'
  }

  /** `\d`: the ASCII digits. */
  predicate Digit(c: char) {
    '0' <= c <= '9'
  }

  /** The characters a pattern captures after its literal prefix. */
  predicate Captures(pat: Pattern, c: char) {
    match pat
    case YouTube => IdChar(c)
    case Vimeo => Digit(c)
  }

  /** The literal `prefix` occurs at `p` and is followed by at least one captured character. */
  predicate PrefixedRunAt(s: string, prefix: string, pat: Pattern, p: nat) {
    OccursAt(s, prefix, p) && p + |prefix| < |s| && Captures(pat, s[p + |prefix|])
  }

  /** The pattern matches with its match starting at position `p`. */
  predicate MatchAt(pat: Pattern, s: string, p: nat) {
    match pat
    case YouTube => PrefixedRunAt(s, WatchPrefix, YouTube, p) || PrefixedRunAt(s, ShortPrefix, YouTube, p)
    case Vimeo => PrefixedRunAt(s, VimeoPrefix, Vimeo, p)
  }

  /** Where the captured group of a match at `p` begins (the alternatives are tried in order). */
  function CaptureStart(pat: Pattern, s: string, p: nat): (c: nat)
    requires MatchAt(pat, s, p)
    ensures c < |s| && Captures(pat, s[c])
  {
    if pat == YouTube && !PrefixedRunAt(s, WatchPrefix, YouTube, p) then p + |ShortPrefix|
    else if pat == YouTube then p + |WatchPrefix|
    else p + |VimeoPrefix|
  }

  /** The length of the longest run of captured characters starting at `i` (greedy `+`). */
  function RunLength(pat: Pattern, s: string, i: nat): (n: nat)
    requires i <= |s|
    ensures i + n <= |s|
    ensures forall k :: i <= k < i + n ==> Captures(pat, s[k])
    ensures i + n == |s| || !Captures(pat, s[i + n])
    decreases |s| - i
  {
    if i < |s| && Captures(pat, s[i]) then 1 + RunLength(pat, s, i + 1) else 0
  }

  /** The captured group of the match at `p`: non-empty, all captured characters, maximal. */
  function Capture(pat: Pattern, s: string, p: nat): (g: string)
    requires MatchAt(pat, s, p)
    ensures |g| >= 1
    ensures forall k :: 0 <= k < |g| ==> Captures(pat, g[k])
    ensures CaptureStart(pat, s, p) + |g| <= |s|
    ensures g == s[CaptureStart(pat, s, p)..CaptureStart(pat, s, p) + |g|]
    ensures CaptureStart(pat, s, p) + |g| == |s| || !Captures(pat, s[CaptureStart(pat, s, p) + |g|])
  {
    var c := CaptureStart(pat, s, p);
    s[c..c + RunLength(pat, s, c)]
  }

  /** The leftmost position at or after `from` where the pattern matches. */
  function FirstMatch(pat: Pattern, s: string, from: nat): (r: Option<nat>)
    requires from <= |s|
    ensures r.Some? ==> from <= r.value < |s| && MatchAt(pat, s, r.value)
    ensures r.Some? ==> forall q :: from <= q < r.value ==> !MatchAt(pat, s, q)
    ensures r.None? ==> forall q :: from <= q ==> !MatchAt(pat, s, q)
    decreases |s| - from
  {
    if from == |s| then None
    else if MatchAt(pat, s, from) then Some(from)
    else FirstMatch(pat, s, from + 1)
  }

  /** `getEmbedUrl`: the player address for the first pattern that matches, else the URL itself. */
  function GetEmbedUrl(url: string): (r: string)
    ensures StartsWith(r, YouTubeEmbed) || StartsWith(r, VimeoPlayer) || r == url
  {
    match FirstMatch(YouTube, url, 0)
    case Some(p) => YouTubeEmbed + Capture(YouTube, url, p)
    case None =>
      match FirstMatch(Vimeo, url, 0)
      case Some(p) => VimeoPlayer + Capture(Vimeo, url, p)
      case None => url
  }

  /** The substrings that mark a video address: the three hosts and the .mp4 extension. */
  const VideoMarkers: seq<string> := ["youtube.com", "youtu.be", "vimeo.com", ".mp4"]

  /** `isValidVideoUrl`: a case-sensitive substring test for the known hosts or an .mp4 file. */
  predicate IsValidVideoUrl(url: string)
    ensures IsValidVideoUrl(url) <==>
      exists i :: 0 <= i < |VideoMarkers| && Contains(url, VideoMarkers[i])
  {
    assert VideoMarkers[0] == "youtube.com" && VideoMarkers[1] == "youtu.be";
    assert VideoMarkers[2] == "vimeo.com" && VideoMarkers[3] == ".mp4";
    Contains(url, "youtube.com") || Contains(url, "youtu.be") || Contains(url, "vimeo.com")
      || Contains(url, ".mp4")
  }

  /**
   * Validity is a substring test, so text around a valid URL cannot make it invalid: a
   * query string or a fragment keeps a video link valid.
   */
  lemma {:induction false} ValidInContext(pre: string, url: string, post: string)
    requires IsValidVideoUrl(url)
    ensures IsValidVideoUrl(pre + url + post)
  {
    var i :| 0 <= i < |VideoMarkers| && Contains(url, VideoMarkers[i]);
    var m := VideoMarkers[i];
    var k :| OccursAt(url, m, k);
    assert 0 <= k && k + |m| <= |url| && url[k..k + |m|] == m;
    var whole := pre + url + post;
    assert whole[|pre| + k..|pre| + k + |m|] == url[k..k + |m|] by {
      forall j | k <= j < k + |m|
        ensures whole[|pre| + j] == url[j]
      {
      }
    }
    assert OccursAt(whole, m, |pre| + k);
    assert Contains(whole, VideoMarkers[i]);
  }

  /** The leftmost YouTube match decides the embed URL, whatever else the URL contains. */
  lemma YouTubeEmbedding(url: string, p: nat)
    requires MatchAt(YouTube, url, p)
    requires forall q :: 0 <= q < p ==> !MatchAt(YouTube, url, q)
    ensures GetEmbedUrl(url) == YouTubeEmbed + Capture(YouTube, url, p)
  {
    var f := FirstMatch(YouTube, url, 0);
    assert f.Some?;
    assert !(f.value < p) && !(p < f.value);
  }

  /** Without any YouTube match, the leftmost Vimeo match decides the embed URL. */
  lemma VimeoEmbedding(url: string, p: nat)
    requires forall q :: !MatchAt(YouTube, url, q)
    requires MatchAt(Vimeo, url, p)
    requires forall q :: 0 <= q < p ==> !MatchAt(Vimeo, url, q)
    ensures GetEmbedUrl(url) == VimeoPlayer + Capture(Vimeo, url, p)
  {
    assert FirstMatch(YouTube, url, 0).None?;
    var f := FirstMatch(Vimeo, url, 0);
    assert f.Some?;
    assert !(f.value < p) && !(p < f.value);
  }

  /** Without any match the URL is passed through unchanged. */
  lemma NoEmbedding(url: string)
    requires forall q :: !MatchAt(YouTube, url, q) && !MatchAt(Vimeo, url, q)
    ensures GetEmbedUrl(url) == url
  {
    assert FirstMatch(YouTube, url, 0).None?;
    assert FirstMatch(Vimeo, url, 0).None?;
  }

  lemma OccursAtHead(s: string, p: string, k: nat)
    requires OccursAt(s, p, k) && p != []
    ensures s[k] == p[0]
  {
    assert s[k..k + |p|][0] == s[k];
  }

  /** A prefix of an occurring pattern occurs at the same place. */
  lemma OccursAtPrefix(s: string, p: string, n: nat, k: nat)
    requires OccursAt(s, p, k) && n <= |p|
    ensures OccursAt(s, p[..n], k)
  {
    assert s[k..k + n] == s[k..k + |p|][..n];
  }

  /** Every URL that the embed extraction rewrites also passes the video-URL test. */
  lemma EmbeddableIsValid(url: string)
    ensures GetEmbedUrl(url) != url ==> IsValidVideoUrl(url)
  {
    match FirstMatch(YouTube, url, 0)
    case Some(p) =>
      if PrefixedRunAt(url, WatchPrefix, YouTube, p) {
        OccursAtPrefix(url, WatchPrefix, 11, p);
        assert WatchPrefix[..11] == "youtube.com";
      } else {
        OccursAtPrefix(url, ShortPrefix, 8, p);
        assert ShortPrefix[..8] == "youtu.be";
      }
    case None =>
      match FirstMatch(Vimeo, url, 0)
      case Some(p) =>
        OccursAtPrefix(url, VimeoPrefix, 9, p);
        assert VimeoPrefix[..9] == "vimeo.com";
      case None =>
  }

  /** No match of either pattern starts at a character other than `y`, resp. `v`. */
  lemma MatchStartsWith(pat: Pattern, s: string, q: nat)
    ensures q < |s| && s[q] != (if pat == YouTube then 'y' else 'v') ==> !MatchAt(pat, s, q)
    ensures q >= |s| ==> !MatchAt(pat, s, q)
  {
    if OccursAt(s, WatchPrefix, q) {
      OccursAtHead(s, WatchPrefix, q);
    }
    if OccursAt(s, ShortPrefix, q) {
      OccursAtHead(s, ShortPrefix, q);
    }
    if OccursAt(s, VimeoPrefix, q) {
      OccursAtHead(s, VimeoPrefix, q);
    }
  }

  /** A run that is all captured characters and not continued is the greedy run. */
  lemma {:induction false} RunLengthIs(pat: Pattern, s: string, i: nat, n: nat)
    requires i + n <= |s|
    requires forall k :: i <= k < i + n ==> Captures(pat, s[k])
    requires i + n == |s| || !Captures(pat, s[i + n])
    ensures RunLength(pat, s, i) == n
    decreases n
  {
    if n > 0 {
      RunLengthIs(pat, s, i + 1, n - 1);
    }
  }

  /**
   * A YouTube link in either form, `pre` + prefix + id + `rest`, embeds exactly its id when
   * nothing before it could start a match and the id is not continued by `rest`.
   */
  lemma YouTubeLinkEmbeds(pre: string, prefix: string, id: string, rest: string)
    requires prefix == WatchPrefix || prefix == ShortPrefix
    requires 'y' !in pre
    requires |id| >= 1 && forall k :: 0 <= k < |id| ==> IdChar(id[k])
    requires rest == [] || !IdChar(rest[0])
    ensures GetEmbedUrl(pre + prefix + id + rest) == YouTubeEmbed + id
  {
    var url := pre + prefix + id + rest;
    var p := |pre|;
    assert forall q :: 0 <= q < p ==> !MatchAt(YouTube, url, q) by {
      assert url == pre + (prefix + id + rest);
      NoMatchBefore(YouTube, pre, prefix + id + rest);
    }
    assert MatchAt(YouTube, url, p) && CaptureStart(YouTube, url, p) == p + |prefix| by {
      YouTubePrefixMatches(pre, prefix, id, rest);
    }
    assert Capture(YouTube, url, p) == id by {
      assert url == (pre + prefix) + id + rest;
      CaptureIs(YouTube, pre + prefix, id, rest, p);
    }
    YouTubeEmbedding(url, p);
  }

  /** Neither pattern can match inside text free of its first letter. */
  lemma NoMatchBefore(pat: Pattern, pre: string, u: string)
    requires (if pat == YouTube then 'y' else 'v') !in pre
    ensures forall q :: 0 <= q < |pre| ==> !MatchAt(pat, pre + u, q)
  {
    forall q | 0 <= q < |pre|
      ensures !MatchAt(pat, pre + u, q)
    {
      MatchStartsWith(pat, pre + u, q);
      assert (pre + u)[q] == pre[q] && pre[q] in pre;
    }
  }

  /** Either YouTube prefix followed by an id character matches, capturing after the prefix. */
  lemma YouTubePrefixMatches(pre: string, prefix: string, id: string, rest: string)
    requires prefix == WatchPrefix || prefix == ShortPrefix
    requires |id| >= 1 && IdChar(id[0])
    ensures MatchAt(YouTube, pre + prefix + id + rest, |pre|)
    ensures CaptureStart(YouTube, pre + prefix + id + rest, |pre|) == |pre| + |prefix|
  {
    var url := pre + prefix + id + rest;
    var p := |pre|;
    var c := p + |prefix|;
    assert url[p..c] == prefix;
    assert url[c] == id[0];
    assert MatchAt(YouTube, url, p);
    if prefix == ShortPrefix {
      assert url[p..c][5] == url[p + 5] == '.';
      assert !OccursAt(url, WatchPrefix, p) by {
        if p + |WatchPrefix| <= |url| {
          assert url[p..p + |WatchPrefix|][5] == url[p + 5];
        }
      }
    }
  }

  /** A maximal run of captured characters right after the prefix is the captured group. */
  lemma CaptureIs(pat: Pattern, front: string, run: string, rest: string, p: nat)
    requires MatchAt(pat, front + run + rest, p)
    requires CaptureStart(pat, front + run + rest, p) == |front|
    requires forall k :: 0 <= k < |run| ==> Captures(pat, run[k])
    requires rest == [] || !Captures(pat, rest[0])
    ensures Capture(pat, front + run + rest, p) == run
  {
    var url := front + run + rest;
    var c := |front|;
    assert forall k :: c <= k < c + |run| ==> url[k] == run[k - c];
    assert c + |run| == |url| || url[c + |run|] == rest[0];
    RunLengthIs(pat, url, c, |run|);
    assert url[c..c + |run|] == run;
  }

  /**
   * A Vimeo link `pre` + "vimeo.com/" + digits + `rest` embeds exactly its number when
   * nothing around it could start a YouTube match or an earlier Vimeo match.
   */
  lemma VimeoLinkEmbeds(pre: string, digits: string, rest: string)
    requires 'v' !in pre && 'y' !in pre && 'y' !in rest
    requires |digits| >= 1 && forall k :: 0 <= k < |digits| ==> Digit(digits[k])
    requires rest == [] || !Digit(rest[0])
    ensures GetEmbedUrl(pre + VimeoPrefix + digits + rest) == VimeoPlayer + digits
  {
    var url := pre + VimeoPrefix + digits + rest;
    var p := |pre|;
    var c := p + |VimeoPrefix|;
    assert forall q :: !MatchAt(YouTube, url, q) by {
      NoYouTubeInVimeoLink(pre, digits, rest);
    }
    assert forall q :: 0 <= q < p ==> !MatchAt(Vimeo, url, q) by {
      assert url == pre + (VimeoPrefix + digits + rest);
      NoMatchBefore(Vimeo, pre, VimeoPrefix + digits + rest);
    }
    assert MatchAt(Vimeo, url, p) by {
      assert url[p..c] == VimeoPrefix;
      assert url[c] == digits[0];
    }
    assert Capture(Vimeo, url, p) == digits by {
      assert url == (pre + VimeoPrefix) + digits + rest;
      CaptureIs(Vimeo, pre + VimeoPrefix, digits, rest, p);
    }
    VimeoEmbedding(url, p);
  }

  /** The Vimeo link above has no `y`, so no YouTube match anywhere. */
  lemma NoYouTubeInVimeoLink(pre: string, digits: string, rest: string)
    requires 'y' !in pre && 'y' !in rest
    requires forall k :: 0 <= k < |digits| ==> Digit(digits[k])
    ensures forall q :: !MatchAt(YouTube, pre + VimeoPrefix + digits + rest, q)
  {
    var url := pre + VimeoPrefix + digits + rest;
    assert 'y' !in VimeoPrefix;
    assert forall k :: 0 <= k < |digits| ==> digits[k] != 'y';
    assert url == pre + (VimeoPrefix + digits) + rest;
    assert 'y' !in url;
    forall q: nat
      ensures !MatchAt(YouTube, url, q)
    {
      MatchStartsWith(YouTube, url, q);
      if q < |url| {
        assert url[q] in url;
      }
    }
  }

  /**
   * The validity test is looser than the extraction: a direct `.mp4` address is a valid
   * video URL and is played as it is.
   */
  lemma Mp4FileIsValidAndKept(name: string)
    requires 'y' !in name && 'v' !in name
    ensures IsValidVideoUrl(name + ".mp4")
    ensures GetEmbedUrl(name + ".mp4") == name + ".mp4"
  {
    var url := name + ".mp4";
    assert OccursAt(url, ".mp4", |name|) by {
      assert url[|name|..|name| + 4] == ".mp4";
    }
    assert 'y' !in ".mp4" && 'v' !in ".mp4";
    forall q: nat
      ensures !MatchAt(YouTube, url, q) && !MatchAt(Vimeo, url, q)
    {
      MatchStartsWith(YouTube, url, q);
      MatchStartsWith(Vimeo, url, q);
      if q < |url| {
        assert url[q] in url;
      }
    }
    NoEmbedding(url);
  }
}
