/**
 * The servlet variant of UrlUtil (apiexample/UrlUtil.java): joining path elements onto
 * a URL, the template and instance URLs built from it, and the in-memory registry of
 * rendered JSON documents the servlet answers from. URLs are their external-form
 * strings; whether java.net.URL accepts the servlet root is a parameter.
 */
module Urls {
  import opened Wrappers
  import opened Collections
  import opened Kinds
  import opened Errors

  /** The servlet root used when the `jsr.373.servlet.root` property is unset. */
  const DefaultRoot: string := "http://localhost:8080/jsr373example/contents"

  /**
   * SERVLET_ROOT_URL: the property, or the default, handed to `new URL`. The code's
   * trailing-slash strip computes a substring and discards it, so the string is used
   * unchanged. `isUrl` stands for the URL constructor accepting a string; the empty
   * string has no protocol and never parses. A string that does not parse makes the
   * static initialiser throw, which is BadServletRoot here.
   */
  function ServletRoot(property: Option<string>, isUrl: string -> bool): (root: Result<string, Error>)
    ensures root.Ok? <==> |property.GetOr(DefaultRoot)| > 0 && isUrl(property.GetOr(DefaultRoot))
    ensures root.Ok? ==> root.value == property.GetOr(DefaultRoot) && |root.value| > 0
    ensures root.Err? ==> root.error == BadServletRoot(property.GetOr(DefaultRoot))
  {
    var s := property.GetOr(DefaultRoot);
    if |s| > 0 && isUrl(s) then Ok(s) else Err(BadServletRoot(s))
  }

  /**
   * With the property unset the root is the default, which is non-empty, so the builders
   * and templates made under it get the non-empty root they need; a configured root
   * ending in '/' keeps its slash.
   */
  lemma ServletRootCases(isUrl: string -> bool, p: string)
    requires isUrl(DefaultRoot)
    ensures ServletRoot(None, isUrl) == Ok(DefaultRoot) && |DefaultRoot| > 0
    ensures ServletRoot(Some(""), isUrl) == Err(BadServletRoot(""))
    ensures isUrl(p) && EndsWithSlash(p) ==> ServletRoot(Some(p), isUrl) == Ok(p) && EndsWithSlash(ServletRoot(Some(p), isUrl).value)
  {
  }

  predicate EndsWithSlash(s: string) {
    |s| > 0 && s[|s| - 1] == '/'
  }

  /** Each element preceded by one '/', in order. */
  function SlashJoin(elements: seq<string>): string {
    if elements == [] then ""
    else SlashJoin(elements[..|elements| - 1]) + "/" + elements[|elements| - 1]
  }

  /**
   * appendURL's result: one '/' before every element, except that the first element
   * reuses a '/' the base already ends with.
   */
  function Joined(base: string, elements: seq<string>): string {
    if EndsWithSlash(base) && elements != [] then base + elements[0] + SlashJoin(elements[1..])
    else base + SlashJoin(elements)
  }

  /** SlashJoin distributes over the first element. */
  lemma {:induction false} SlashJoinCons(elements: seq<string>)
    requires elements != []
    ensures SlashJoin(elements) == "/" + elements[0] + SlashJoin(elements[1..])
    decreases |elements|
  {
    if |elements| > 1 {
      var init := elements[..|elements| - 1];
      SlashJoinCons(init);
      assert init[0] == elements[0];
      assert init[1..] == elements[1..][..|elements[1..]| - 1];
    } else {
      assert elements[1..] == [];
      assert elements[..0] == [];
    }
  }

  /** One more element adds a '/' and the element, except that the first reuses a trailing '/' of the base. */
  lemma JoinedSnoc(base: string, xs: seq<string>, e: string)
    ensures Joined(base, xs + [e]) ==
      Joined(base, xs) + (if xs == [] && EndsWithSlash(base) then "" else "/") + e
  {
    if xs == [] {
      JoinedFirst(base, e);
    } else if EndsWithSlash(base) {
      JoinedSnocAfterSlash(base, xs, e);
    } else {
      SlashJoinSnoc(xs, e);
      Assoc3(base, SlashJoin(xs) + "/", e);
      Assoc3(base, SlashJoin(xs), "/");
    }
  }

  lemma SlashJoinSnoc(xs: seq<string>, e: string)
    ensures SlashJoin(xs + [e]) == SlashJoin(xs) + "/" + e
  {
    assert (xs + [e])[..|xs|] == xs;
  }

  lemma Assoc3(a: string, b: string, c: string)
    ensures a + (b + c) == a + b + c
  {
  }

  lemma JoinedFirst(base: string, e: string)
    ensures Joined(base, [e]) == base + (if EndsWithSlash(base) then "" else "/") + e
  {
    assert [e][1..] == [] && [e][..0] == [];
    if !EndsWithSlash(base) {
      assert SlashJoin([e]) == "/" + e;
      Assoc3(base, "/", e);
    } else {
      assert base + "" == base;
    }
  }

  lemma JoinedSnocAfterSlash(base: string, xs: seq<string>, e: string)
    requires xs != [] && EndsWithSlash(base)
    ensures Joined(base, xs + [e]) == Joined(base, xs) + "/" + e
  {
    var ys := xs + [e];
    var rest := xs[1..];
    assert ys[0] == xs[0] && ys[1..] == rest + [e];
    SlashJoinSnoc(rest, e);
    var head := base + xs[0];
    Assoc3(head, SlashJoin(rest) + "/", e);
    Assoc3(head, SlashJoin(rest), "/");
  }

  /** appendURL: the StringBuilder loop with its `hasSlash` flag. The base is a URL's non-empty external form. */
  method AppendUrl(base: string, elements: seq<string>) returns (url: string)
    requires |base| > 0
    ensures url == Joined(base, elements)
  {
    url := base;
    var hasSlash := url[|url| - 1] == '/';
    var i := 0;
    while i < |elements|
      invariant 0 <= i <= |elements|
      invariant i == 0 ==> url == base && hasSlash == EndsWithSlash(base)
      invariant i > 0 ==> url == Joined(base, elements[..i]) && !hasSlash
    {
      assert elements[..i + 1] == elements[..i] + [elements[i]];
      JoinedSnoc(base, elements[..i], elements[i]);
      if !hasSlash {
        url := url + "/";
      }
      url := url + elements[i];
      hasSlash := false;
      i := i + 1;
    }
    assert elements[..i] == elements;
  }

  /** createTemplateUrl: root / "templates" / the kind name lower-cased. */
  function TemplateUrl(root: string, kind: ConcreteKind): string {
    Joined(root, ["templates", LowerAscii(Name(kind))])
  }

  /** createInstanceUrl: (parent URL, or the root) / the kind's path / the name, unescaped. */
  function InstanceUrl(root: string, parentUrl: Option<string>, kind: ConcreteKind, name: string): string {
    Joined(parentUrl.GetOr(root), [PathSegment(kind), name])
  }

  lemma SlashJoinTwo(x: string, y: string)
    ensures SlashJoin([y]) == "/" + y
    ensures SlashJoin([x, y]) == "/" + x + "/" + y
  {
    assert [y][..0] == [];
    assert [x, y][..1] == [x];
    assert [x][..0] == [];
  }

  /** Two path elements are joined with one '/' before each, sharing a trailing '/' of the base. */
  lemma JoinedTwo(base: string, x: string, y: string)
    ensures Joined(base, [x, y]) == (if EndsWithSlash(base) then base else base + "/") + x + "/" + y
  {
    assert [x, y][1..] == [y];
    SlashJoinTwo(x, y);
  }

  /** The template URL is root + "/templates/" + the lower-cased name, sharing a trailing '/' of the root. */
  lemma TemplateUrlShape(root: string, kind: ConcreteKind)
    ensures TemplateUrl(root, kind) ==
      (if EndsWithSlash(root) then root else root + "/") + "templates" + "/" + LowerAscii(Name(kind))
  {
    JoinedTwo(root, "templates", LowerAscii(Name(kind)));
  }

  /** The instance name is the last path element, appended as it is after a single '/'. */
  lemma InstanceUrlShape(root: string, parentUrl: Option<string>, kind: ConcreteKind, name: string)
    ensures var base := parentUrl.GetOr(root);
      InstanceUrl(root, parentUrl, kind, name) ==
        (if EndsWithSlash(base) then base else base + "/") + PathSegment(kind) + "/" + name
  {
    JoinedTwo(parentUrl.GetOr(root), PathSegment(kind), name);
  }

  /** String.lastIndexOf(c), with -1 as None. */
  function LastIndexOf(s: string, c: char): (r: Option<nat>)
    ensures r.None? <==> c !in s
    ensures r.Some? ==> r.value < |s| && s[r.value] == c && c !in s[r.value + 1..]
  {
    if s == [] then None
    else if s[|s| - 1] == c then Some(|s| - 1)
    else
      var r := LastIndexOf(s[..|s| - 1], c);
      assert s == s[..|s| - 1] + [s[|s| - 1]];
      r
  }

  /** A URL minus its last '/' segment; fails like substring(0, -1) when there is no '/'. */
  function ParentUrl(url: string): (r: Result<string, Error>)
    ensures r.Err? <==> '/' !in url
    ensures r.Err? ==> r.error == NoSlash(url)
    ensures r.Ok? ==> (&& |r.value| < |url| && url[|r.value|] == '/' && url[..|r.value|] == r.value
                       && '/' !in url[|r.value| + 1..])
  {
    match LastIndexOf(url, '/')
    case None => Err(NoSlash(url))
    case Some(j) => Ok(url[..j])
  }

  /** What getReader hands back: the stored document, or a list of child documents. */
  datatype Reply = Document(json: string) | Listing(children: seq<string>)

  /**
   * The children listing over the stored URLs `urls`, in order: the content of every URL
   * whose parent is `url`. The first stored URL without a '/' makes the walk fail.
   */
  function ChildListing(jsonByUrl: OrderedMap<string, string>, urls: seq<string>, url: string): (r: Result<seq<string>, Error>)
    requires forall u :: u in urls ==> u in jsonByUrl.values
  {
    if urls == [] then Ok([])
    else
      var prev := ChildListing(jsonByUrl, urls[..|urls| - 1], url);
      var last := urls[|urls| - 1];
      if prev.Err? then prev
      else
        match ParentUrl(last)
        case Err(e) => Err(e)
        case Ok(p) => Ok(prev.value + (if p == url then [jsonByUrl.values[last]] else []))
  }

  /** The stored URLs whose parent is `url`, in registration order. */
  function ChildUrls(urls: seq<string>, url: string): seq<string>
  {
    if urls == [] then []
    else
      var last := urls[|urls| - 1];
      ChildUrls(urls[..|urls| - 1], url) +
        (if ParentUrl(last) == Ok(url) then [last] else [])
  }

  /** The listing fails exactly when some stored URL has no '/'. */
  lemma {:induction false} ChildListingOkIff(jsonByUrl: OrderedMap<string, string>, urls: seq<string>, url: string)
    requires forall u :: u in urls ==> u in jsonByUrl.values
    ensures ChildListing(jsonByUrl, urls, url).Ok? <==> forall u :: u in urls ==> '/' in u
    decreases |urls|
  {
    if urls != [] {
      var init := urls[..|urls| - 1];
      assert forall u :: u in urls <==> u in init || u == urls[|urls| - 1];
      ChildListingOkIff(jsonByUrl, init, url);
    }
  }

  /** The child URLs are exactly the stored URLs whose parent is the request; none when no URL has it as parent. */
  lemma {:induction false} ChildUrlsMembers(urls: seq<string>, url: string)
    ensures forall u :: u in ChildUrls(urls, url) <==> u in urls && ParentUrl(u) == Ok(url)
    ensures (forall u :: u in urls ==> ParentUrl(u) != Ok(url)) ==> ChildUrls(urls, url) == []
    decreases |urls|
  {
    if urls != [] {
      var init := urls[..|urls| - 1];
      assert forall u :: u in urls <==> u in init || u == urls[|urls| - 1];
      ChildUrlsMembers(init, url);
    }
  }

  /** A successful listing holds the content of each child URL, in registration order. */
  lemma {:induction false} ChildListingValues(jsonByUrl: OrderedMap<string, string>, urls: seq<string>, url: string)
    requires forall u :: u in urls ==> u in jsonByUrl.values
    ensures forall u :: u in ChildUrls(urls, url) ==> u in jsonByUrl.values
    ensures ChildListing(jsonByUrl, urls, url).Ok? ==>
      |ChildListing(jsonByUrl, urls, url).value| == |ChildUrls(urls, url)| &&
      forall i :: 0 <= i < |ChildUrls(urls, url)| ==>
        ChildListing(jsonByUrl, urls, url).value[i] == jsonByUrl.values[ChildUrls(urls, url)[i]]
    decreases |urls|
  {
    ChildUrlsMembers(urls, url);
    if urls != [] {
      var init := urls[..|urls| - 1];
      assert forall u :: u in init ==> u in urls;
      ChildListingValues(jsonByUrl, init, url);
    }
  }

  /** getReader's answer over the whole registry. */
  function ReplyFor(jsonByUrl: OrderedMap<string, string>, url: string): Result<Reply, Error>
    requires jsonByUrl.Valid()
  {
    if url in jsonByUrl.values then Ok(Document(jsonByUrl.values[url]))
    else
      var listing := ChildListing(jsonByUrl, jsonByUrl.keys, url);
      if listing.Err? then Err(listing.error) else Ok(Listing(listing.value))
  }

  /** A document written under a URL is what a later read of that URL returns. */
  lemma WriteThenRead(jsonByUrl: OrderedMap<string, string>, url: string, content: string)
    requires jsonByUrl.Valid()
    ensures jsonByUrl.Put(url, content).Valid()
    ensures ReplyFor(jsonByUrl.Put(url, content), url) == Ok(Document(content))
  {
    PutProperties(jsonByUrl, url, content);
  }

  /** A miss under which nothing is stored yields the empty list, never null. */
  lemma EmptyListingOnMiss(jsonByUrl: OrderedMap<string, string>, url: string)
    requires jsonByUrl.Valid()
    requires url !in jsonByUrl.values
    requires forall u :: u in jsonByUrl.keys ==> '/' in u && ParentUrl(u) != Ok(url)
    ensures ReplyFor(jsonByUrl, url) == Ok(Listing([]))
  {
    ChildListingOkIff(jsonByUrl, jsonByUrl.keys, url);
    ChildUrlsMembers(jsonByUrl.keys, url);
    ChildListingValues(jsonByUrl, jsonByUrl.keys, url);
  }

  /** ServletUrlRegistry: the LinkedHashMap from URL to rendered JSON. */
  class ServletUrlRegistry {
    var jsonByUrl: OrderedMap<string, string>

    ghost predicate Valid()
      reads this
    {
      jsonByUrl.Valid()
    }

    constructor ()
      ensures Valid() && jsonByUrl == EmptyMap()
    {
      jsonByUrl := EmptyMap();
    }

    /** The close() of a writer obtained from getWriter(url): store the content, overwriting. */
    method Close(url: string, content: string)
      requires Valid()
      modifies this
      ensures Valid()
      ensures jsonByUrl == old(jsonByUrl).Put(url, content)
    {
      PutProperties(jsonByUrl, url, content);
      jsonByUrl := jsonByUrl.Put(url, content);
    }

    /** getReader: the stored document, or the listing of the URL's children. */
    method GetReader(url: string) returns (r: Result<Reply, Error>)
      requires Valid()
      ensures r == ReplyFor(jsonByUrl, url)
    {
      if url in jsonByUrl.values {
        return Ok(Document(jsonByUrl.values[url]));
      }
      var list: seq<string> := [];
      var i := 0;
      while i < |jsonByUrl.keys|
        invariant 0 <= i <= |jsonByUrl.keys|
        invariant ChildListing(jsonByUrl, jsonByUrl.keys[..i], url) == Ok(list)
      {
        var current := jsonByUrl.keys[i];
        ListingStep(jsonByUrl, jsonByUrl.keys, i, url);
        var parent := ParentUrl(current);
        if parent.Err? {
          ListingStaysFailed(jsonByUrl, jsonByUrl.keys, i + 1, url);
          assert jsonByUrl.keys[..|jsonByUrl.keys|] == jsonByUrl.keys;
          return Err(parent.error);
        }
        var next := list + (if parent.value == url then [jsonByUrl.values[current]] else []);
        assert ChildListing(jsonByUrl, jsonByUrl.keys[..i + 1], url) == Ok(next);
        list := next;
        i := i + 1;
      }
      assert jsonByUrl.keys[..i] == jsonByUrl.keys;
      r := Ok(Listing(list));
    }
  }

  /** One more stored URL extends a successful walk, or makes it fail. */
  lemma ListingStep(jsonByUrl: OrderedMap<string, string>, urls: seq<string>, i: nat, url: string)
    requires forall u :: u in urls ==> u in jsonByUrl.values
    requires i < |urls| && ChildListing(jsonByUrl, urls[..i], url).Ok?
    ensures var prev := ChildListing(jsonByUrl, urls[..i], url).value;
      ChildListing(jsonByUrl, urls[..i + 1], url) ==
        match ParentUrl(urls[i])
        case Err(e) => Err(e)
        case Ok(p) => Ok(prev + (if p == url then [jsonByUrl.values[urls[i]]] else []))
  {
    var prefix := urls[..i + 1];
    assert prefix[..|prefix| - 1] == urls[..i] && prefix[|prefix| - 1] == urls[i];
  }

  /** Once a prefix of the walk fails, the whole walk fails with the same error. */
  lemma {:induction false} ListingStaysFailed(jsonByUrl: OrderedMap<string, string>, urls: seq<string>, n: nat, url: string)
    requires forall u :: u in urls ==> u in jsonByUrl.values
    requires n <= |urls|
    requires ChildListing(jsonByUrl, urls[..n], url).Err?
    ensures ChildListing(jsonByUrl, urls, url) == ChildListing(jsonByUrl, urls[..n], url)
    decreases |urls| - n
  {
    if n < |urls| {
      assert urls[..n + 1][..n] == urls[..n];
      ListingStaysFailed(jsonByUrl, urls, n + 1, url);
    } else {
      assert urls[..n] == urls;
    }
  }
}
