/**
 * Link previews: the OpenGraph fields read from a page's meta tags, with the
 * `<title>` element and the description meta as fallbacks, and the process-wide
 * cache that remembers one record per URL, fallback records included.
 * The network fetch and the HTML parser are inputs: the outcome of the fetch, and a
 * function from HTML text to the tags the page holds.
 */
module MetadataService {
  import opened Wrappers
  import opened JsStrings
  import opened Urls

  /** The preview record; every field may be absent. */
  datatype OpenGraph = OpenGraph(
    title: Option<string>,
    description: Option<string>,
    image: Option<string>,
    siteName: Option<string>,
    ogType: Option<string>,
    url: Option<string>)

  const EmptyMetadata: OpenGraph := OpenGraph(None, None, None, None, None, None)

  /** A `meta` element: its `property` and `content` attributes, None when absent. */
  datatype MetaTag = MetaTag(property: Option<string>, content: Option<string>)

  /**
   * What the page yields: the `meta[property^="og:"]` elements in document order,
   * the text of the first `title` element and the content of the description meta.
   */
  datatype HtmlDocument = HtmlDocument(
    ogTags: seq<MetaTag>,
    titleText: Option<string>,
    descriptionContent: Option<string>)

  /** How the proxy request ended: it threw, or it answered with a `contents` field. */
  datatype FetchOutcome = FetchFailed | Fetched(contents: Option<string>)

  /** The six OpenGraph properties that set a field. */
  predicate IsOgProperty(p: string) {
    p == "og:title" || p == "og:description" || p == "og:image"
    || p == "og:site_name" || p == "og:type" || p == "og:url"
  }

  /** The field the property `p` sets. */
  function Field(m: OpenGraph, p: string): Option<string>
    requires IsOgProperty(p)
  {
    if p == "og:title" then m.title
    else if p == "og:description" then m.description
    else if p == "og:image" then m.image
    else if p == "og:site_name" then m.siteName
    else if p == "og:type" then m.ogType
    else m.url
  }

  /** A tag that sets the field of `p`: its property is `p` and its content is not empty. */
  predicate Sets(t: MetaTag, p: string) {
    t.property == Some(p) && t.content.Some? && t.content.value != ""
  }

  /** The effect of one tag: a truthy property and content, and a known property. */
  function ApplyTag(m: OpenGraph, t: MetaTag): OpenGraph {
    if t.property.None? || t.property.value == "" || t.content.None? || t.content.value == "" then m
    else
      var p := t.property.value;
      if p == "og:title" then m.(title := t.content)
      else if p == "og:description" then m.(description := t.content)
      else if p == "og:image" then m.(image := t.content)
      else if p == "og:site_name" then m.(siteName := t.content)
      else if p == "og:type" then m.(ogType := t.content)
      else if p == "og:url" then m.(url := t.content)
      else m
  }

  /** The tags applied in document order. */
  function ApplyTags(m: OpenGraph, tags: seq<MetaTag>): OpenGraph
    decreases |tags|
  {
    if tags == [] then m else ApplyTag(ApplyTags(m, tags[..|tags| - 1]), tags[|tags| - 1])
  }

  /** `x || undefined` for an optional string. */
  function NonEmpty(o: Option<string>): (r: Option<string>)
    ensures r.Some? <==> o.Some? && o.value != ""
    ensures r.Some? ==> r == o
  {
    if o.Some? && o.value != "" then o else None
  }

  /**
   * The fallbacks: the `title` element when no title was set, the description meta
   * when no description was set; the other fields as they are.
   */
  function WithFallbacks(m: OpenGraph, doc: HtmlDocument): (r: OpenGraph)
    ensures m.title.Some? && m.title.value != "" ==> r.title == m.title
    ensures m.title.None? || m.title.value == "" ==> r.title == NonEmpty(doc.titleText)
    ensures m.description.Some? && m.description.value != "" ==> r.description == m.description
    ensures m.description.None? || m.description.value == "" ==>
      r.description == NonEmpty(doc.descriptionContent)
    ensures r.image == m.image && r.siteName == m.siteName && r.ogType == m.ogType && r.url == m.url
  {
    var withTitle := if m.title.None? || m.title.value == "" then m.(title := NonEmpty(doc.titleText)) else m;
    if withTitle.description.None? || withTitle.description.value == "" then
      withTitle.(description := NonEmpty(doc.descriptionContent))
    else withTitle
  }

  /** The record `parseMetadata` builds from a page. */
  function ParsedMetadata(doc: HtmlDocument): OpenGraph {
    WithFallbacks(ApplyTags(EmptyMetadata, doc.ogTags), doc)
  }

  /**
   * `parseMetadata`: walk the og tags in order, skip those without a property or
   * content, let each known property overwrite its field, then apply the fallbacks.
   */
  method ParseMetadata(html: string, parseHtml: string -> HtmlDocument) returns (m: OpenGraph)
    ensures m == ParsedMetadata(parseHtml(html))
  {
    var doc := parseHtml(html);
    m := EmptyMetadata;
    var i := 0;
    while i < |doc.ogTags|
      invariant 0 <= i <= |doc.ogTags|
      invariant m == ApplyTags(EmptyMetadata, doc.ogTags[..i])
    {
      var tag := doc.ogTags[i];
      var property := tag.property;
      var content := tag.content;
      if property.Some? && property.value != "" && content.Some? && content.value != "" {
        if property.value == "og:title" {
          m := m.(title := content);
        } else if property.value == "og:description" {
          m := m.(description := content);
        } else if property.value == "og:image" {
          m := m.(image := content);
        } else if property.value == "og:site_name" {
          m := m.(siteName := content);
        } else if property.value == "og:type" {
          m := m.(ogType := content);
        } else if property.value == "og:url" {
          m := m.(url := content);
        }
      }
      assert doc.ogTags[..i + 1][..i] == doc.ogTags[..i];
      i := i + 1;
    }
    assert doc.ogTags[..i] == doc.ogTags;
    if m.title.None? || m.title.value == "" {
      m := m.(title := NonEmpty(doc.titleText));
    }
    if m.description.None? || m.description.value == "" {
      m := m.(description := NonEmpty(doc.descriptionContent));
    }
  }

  /** One tag changes the field of `p` exactly when it sets `p`, and then to its content. */
  lemma ApplyTagField(m: OpenGraph, t: MetaTag, p: string)
    requires IsOgProperty(p)
    ensures Field(ApplyTag(m, t), p) == if Sets(t, p) then t.content else Field(m, p)
  {
  }

  /**
   * For each of the six properties the field ends up holding the content of the last
   * tag that sets it, and is absent when no tag does.
   */
  lemma {:induction false} LastTagWins(tags: seq<MetaTag>, p: string)
    requires IsOgProperty(p)
    ensures Field(ApplyTags(EmptyMetadata, tags), p).None? <==>
      forall i :: 0 <= i < |tags| ==> !Sets(tags[i], p)
    ensures Field(ApplyTags(EmptyMetadata, tags), p).Some? ==>
      exists i :: 0 <= i < |tags| && Sets(tags[i], p)
        && Field(ApplyTags(EmptyMetadata, tags), p) == tags[i].content
        && forall j :: i < j < |tags| ==> !Sets(tags[j], p)
    decreases |tags|
  {
    if tags != [] {
      var front := tags[..|tags| - 1];
      var last := tags[|tags| - 1];
      LastTagWins(front, p);
      ApplyTagField(ApplyTags(EmptyMetadata, front), last, p);
      assert forall i :: 0 <= i < |front| ==> front[i] == tags[i];
      if Sets(last, p) {
        assert Field(ApplyTags(EmptyMetadata, tags), p) == tags[|tags| - 1].content;
      } else if Field(ApplyTags(EmptyMetadata, front), p).Some? {
        var i :| 0 <= i < |front| && Sets(front[i], p)
          && Field(ApplyTags(EmptyMetadata, front), p) == front[i].content
          && forall j :: i < j < |front| ==> !Sets(front[j], p);
        assert Sets(tags[i], p) && forall j :: i < j < |tags| ==> !Sets(tags[j], p);
      }
    }
  }

  /** An og title always beats the `title` element, which is consulted only without one. */
  lemma OgTitleTakesPrecedence(doc: HtmlDocument)
    ensures (exists i :: 0 <= i < |doc.ogTags| && Sets(doc.ogTags[i], "og:title")) ==>
      ParsedMetadata(doc).title == ApplyTags(EmptyMetadata, doc.ogTags).title
    ensures (forall i :: 0 <= i < |doc.ogTags| ==> !Sets(doc.ogTags[i], "og:title")) ==>
      ParsedMetadata(doc).title == NonEmpty(doc.titleText)
  {
    LastTagWins(doc.ogTags, "og:title");
  }

  /** `extractDomainName`: the host without its first "www.", or "Link" when unparseable. */
  function ExtractDomainName(url: string, parse: UrlParser): (r: string)
    ensures parse(url).None? ==> r == "Link"
    ensures parse(url).Some? ==> r == ReplaceFirst(parse(url).value.hostname, "www.", "")
  {
    match parse(url)
    case None => "Link"
    case Some(u) => ReplaceFirst(u.hostname, "www.", "")
  }

  /** A host starting with "www." loses exactly that prefix; a host without it is kept. */
  lemma DomainNameStripsWww(url: string, parse: UrlParser)
    requires parse(url).Some?
    ensures var h := parse(url).value.hostname;
      && (StartsWith(h, "www.") ==> ExtractDomainName(url, parse) == h[4..])
      && (!Contains(h, "www.") ==> ExtractDomainName(url, parse) == h)
  {
    var h := parse(url).value.hostname;
    if StartsWith(h, "www.") {
      assert OccursAt(h, "www.", 0);
    }
  }

  /** The record cached and returned when the fetch fails or brings no contents. */
  function FallbackMetadata(url: string, parse: UrlParser): (m: OpenGraph)
    ensures m.title == Some(ExtractDomainName(url, parse))
    ensures m.description == Some(url) && m.url == Some(url)
    ensures m.image.None? && m.siteName.None? && m.ogType.None?
  {
    OpenGraph(Some(ExtractDomainName(url, parse)), Some(url), None, None, None, Some(url))
  }

  /** The record for a URL not in the cache: parsed from non-empty contents, else the fallback. */
  function MissResult(url: string, outcome: FetchOutcome, parseHtml: string -> HtmlDocument,
                      parse: UrlParser): (r: OpenGraph)
    ensures outcome.Fetched? && outcome.contents.Some? && outcome.contents.value != "" ==>
      r == ParsedMetadata(parseHtml(outcome.contents.value))
    ensures outcome.FetchFailed? || outcome.contents.None? || outcome.contents.value == "" ==>
      r == FallbackMetadata(url, parse) && r.title == Some(ExtractDomainName(url, parse))
      && r.url == Some(url)
  {
    if outcome.Fetched? && outcome.contents.Some? && outcome.contents.value != "" then
      ParsedMetadata(parseHtml(outcome.contents.value))
    else FallbackMetadata(url, parse)
  }

  /**
   * One `fetchMetadata` call as a step of the cache: a hit returns the cached record
   * and changes nothing; a miss stores the parsed or fallback record under the URL and
   * returns it. Other entries are never touched and nothing is evicted.
   */
  function CacheStep(cache: map<string, OpenGraph>, url: string, outcome: FetchOutcome,
                     parseHtml: string -> HtmlDocument, parse: UrlParser)
    : (r: (map<string, OpenGraph>, OpenGraph))
    ensures url in r.0 && r.0[url] == r.1
    ensures r.0.Keys == cache.Keys + {url}
    ensures forall k :: k in cache && k != url ==> r.0[k] == cache[k]
    ensures url in cache ==> r.0 == cache && r.1 == cache[url]
    ensures url !in cache ==> r.1 == MissResult(url, outcome, parseHtml, parse)
    ensures |r.0| <= |cache| + 1
  {
    if url in cache then (cache, cache[url])
    else
      var m := MissResult(url, outcome, parseHtml, parse);
      (cache[url := m], m)
  }

  /** Asking twice for the same URL gives the same record, whatever the second fetch would do. */
  lemma SecondCallHitsCache(cache: map<string, OpenGraph>, url: string, o1: FetchOutcome,
                            o2: FetchOutcome, parseHtml: string -> HtmlDocument, parse: UrlParser)
    ensures var first := CacheStep(cache, url, o1, parseHtml, parse);
      var second := CacheStep(first.0, url, o2, parseHtml, parse);
      second == first
  {
  }

  /** A failed fetch is remembered: the fallback record stays cached for the URL. */
  lemma FailureIsCached(cache: map<string, OpenGraph>, url: string,
                        parseHtml: string -> HtmlDocument, parse: UrlParser)
    requires url !in cache
    ensures CacheStep(cache, url, FetchFailed, parseHtml, parse).0[url] == FallbackMetadata(url, parse)
    ensures CacheStep(cache, url, Fetched(Some("")), parseHtml, parse).0[url] == FallbackMetadata(url, parse)
  {
  }

  /** The process-wide cache of `MetadataService`. */
  class MetadataCache {
    var cache: map<string, OpenGraph>

    constructor ()
      ensures cache == map[]
    {
      cache := map[];
    }

    /**
     * `fetchMetadata(url)`; `fetched` tells whether the network was consulted.
     * The cache changes as `CacheStep` says.
     */
    method FetchMetadata(url: string, outcome: FetchOutcome, parseHtml: string -> HtmlDocument,
                         parse: UrlParser) returns (r: OpenGraph, fetched: bool)
      modifies this
      ensures fetched <==> url !in old(cache)
      ensures (cache, r) == CacheStep(old(cache), url, outcome, parseHtml, parse)
    {
      if url in cache {
        return cache[url], false;
      }
      fetched := true;
      if outcome.Fetched? && outcome.contents.Some? && outcome.contents.value != "" {
        var html := outcome.contents.value;
        var metadata := ParseMetadata(html, parseHtml);
        cache := cache[url := metadata];
        return metadata, fetched;
      }
      var basicMetadata := FallbackMetadata(url, parse);
      cache := cache[url := basicMetadata];
      r := basicMetadata;
    }

    /** `clearCache`. */
    method ClearCache()
      modifies this
      ensures cache == map[]
    {
      cache := map[];
    }

    /** `getCacheSize`: the number of URLs remembered. */
    function CacheSize(): (n: nat)
      reads this
      ensures n == |cache.Keys|
    {
      |cache|
    }
  }
}
