// The scanner that reads script urls off the web player's page. Texts are sequences of
// characters; the delimiters are all ASCII.
module Scanner {
  import opened Basics
  import Listing

  // ---- Finding ----------------------------------------------------------------------------

  predicate StartsAt(s: string, needle: string, i: nat) {
    i + |needle| <= |s| && s[i..i + |needle|] == needle
  }

  function FindFrom(s: string, needle: string, i: nat): (r: Option<nat>)
    requires i <= |s|
    ensures r.Some? ==> i <= r.value && StartsAt(s, needle, r.value)
    ensures r.Some? ==> forall j: nat :: i <= j < r.value ==> !StartsAt(s, needle, j)
    ensures r.None? ==> forall j: nat :: i <= j ==> !StartsAt(s, needle, j)
    decreases |s| - i
  {
    if StartsAt(s, needle, i) then Some(i) else if i == |s| then None else FindFrom(s, needle, i + 1)
  }

  // `str::find`: the first occurrence.
  function Find(s: string, needle: string): (r: Option<nat>)
    ensures r.Some? ==> StartsAt(s, needle, r.value)
    ensures r.Some? ==> forall j: nat :: j < r.value ==> !StartsAt(s, needle, j)
    ensures r.None? ==> forall j: nat :: !StartsAt(s, needle, j)
  {
    FindFrom(s, needle, 0)
  }

  predicate Contains(s: string, needle: string) {
    Find(s, needle).Some?
  }

  // Occurrences in a suffix are occurrences in the whole.
  lemma InSuffix(s: string, needle: string, from: nat, i: nat)
    requires from <= |s|
    ensures StartsAt(s[from..], needle, i) == StartsAt(s, needle, from + i)
  {
    if from + i + |needle| <= |s| {
      assert s[from..][i..i + |needle|] == s[from + i..from + i + |needle|];
    }
  }

  lemma InPrefix(s: string, needle: string, to: nat, i: nat)
    requires to <= |s|
    ensures StartsAt(s[..to], needle, i) <==> StartsAt(s, needle, i) && i + |needle| <= to
  {
    if i + |needle| <= to {
      assert s[..to][i..i + |needle|] == s[i..i + |needle|];
    }
  }

  // The first occurrence is the one found.
  lemma FindIs(s: string, needle: string, i: nat)
    requires StartsAt(s, needle, i) && forall j: nat :: j < i ==> !StartsAt(s, needle, j)
    ensures Find(s, needle) == Some(i)
  {
  }

  // ---- Tags -----------------------------------------------------------------------------------

  // The tags a page holds, told piece by piece: cut the page after every '>'; each piece
  // so closed that contains `open` holds one tag, from the first `open` to the '>'. What
  // follows the last '>' holds none.
  function ClosedTags(html: string, open: string): seq<string>
    decreases |html|
  {
    match Find(html, ">")
    case None => []
    case Some(e) =>
      (match Find(html[..e], open) case None => [] case Some(k) => [html[k..e]]) + ClosedTags(html[e + 1..], open)
  }

  // At `i` stands the key, a quote, the value without that quote in it, the quote again.
  predicate QuotedAt(tag: string, key: string, value: string, quote: char, i: nat) {
    (quote == '"' || quote == '\'') && quote !in value && StartsAt(tag, key + [quote] + value + [quote], i)
  }

  predicate FirstAt(s: string, needle: string, i: nat) {
    Find(s, needle) == Some(i)
  }

  // The value between quotes right after the first `key` of a tag.
  function QuotedAfter(tag: string, key: string): (r: Option<string>)
    ensures r.Some? ==> exists i: nat, quote :: FirstAt(tag, key, i) && QuotedAt(tag, key, r.value, quote, i)
  {
    match Find(tag, key)
    case None => None
    case Some(i) =>
      var start := i + |key|;
      if start >= |tag| || (tag[start] != '"' && tag[start] != '\'') then None
      else
        match Find(tag[start + 1..], [tag[start]])
        case None => None
        case Some(n) =>
          QuotedThere(tag, key, i, n);
          assert FirstAt(tag, key, i) && QuotedAt(tag, key, tag[start + 1..start + 1 + n], tag[start], i);
          Some(tag[start + 1..start + 1 + n])
  }

  lemma QuotedThere(tag: string, key: string, i: nat, n: nat)
    requires StartsAt(tag, key, i) && i + |key| < |tag|
    requires var q := [tag[i + |key|]]; Find(tag[i + |key| + 1..], q) == Some(n)
    ensures var start := i + |key|; var q := tag[start];
      && start + 1 + n < |tag|
      && q !in tag[start + 1..start + 1 + n]
      && StartsAt(tag, key + [q] + tag[start + 1..start + 1 + n] + [q], i)
  {
    var start := i + |key|;
    var q := tag[start];
    var rest := tag[start + 1..];
    forall j | 0 <= j < n ensures rest[j] != q {
      assert !StartsAt(rest, [q], j);
      assert rest[j..j + 1] == [rest[j]];
    }
    assert rest[n..n + 1] == [rest[n]];
    var v := tag[start + 1..start + 1 + n];
    assert tag[i..start + 2 + n] == tag[i..start] + [q] + v + [q];
  }

  // A value is found exactly when at the first `key` of the tag there stand the key, a
  // quote, that value, and the first equal quote after it.
  lemma QuotedExactly(tag: string, key: string, value: string)
    ensures QuotedAfter(tag, key) == Some(value) <==>
      exists i: nat, quote :: FirstAt(tag, key, i) && QuotedAt(tag, key, value, quote, i)
  {
    hide Find, StartsAt;
    if i: nat, quote :| FirstAt(tag, key, i) && QuotedAt(tag, key, value, quote, i) {
      QuoteEnds(tag, key, value, quote, i);
    }
  }

  lemma QuoteEnds(tag: string, key: string, value: string, quote: char, i: nat)
    requires FirstAt(tag, key, i) && QuotedAt(tag, key, value, quote, i)
    ensures QuotedAfter(tag, key) == Some(value)
  {
    hide Find;
    QuotePieces(tag, key, value, quote, i);
    var rest := tag[i + |key| + 1..];
    assert rest[..|value|] == value;
    CharAt(value, quote, rest[|value| + 1..]);
    assert rest == value + ([quote] + rest[|value| + 1..]);
  }

  lemma QuotePieces(tag: string, key: string, value: string, quote: char, i: nat)
    requires StartsAt(tag, key + [quote] + value + [quote], i)
    ensures var start := i + |key|;
      && start + 1 + |value| < |tag| && tag[start] == tag[start + 1 + |value|] == quote
      && tag[start + 1..start + 1 + |value|] == value
  {
    var there := tag[i..i + |key| + |value| + 2];
    assert tag[i + |key|] == there[|key|];
    assert tag[i + |key| + 1 + |value|] == there[|key| + 1 + |value|];
    assert tag[i + |key| + 1..i + |key| + 1 + |value|] == there[|key| + 1..|key| + 1 + |value|];
  }

  // A character is found after a text that does not have it.
  lemma CharAt(value: string, c: char, more: string)
    requires c !in value
    ensures Find(value + ([c] + more), [c]) == Some(|value|)
  {
    var s := value + ([c] + more);
    forall j: nat | j < |value| ensures !StartsAt(s, [c], j) {
      assert s[j..j + 1] == [value[j]];
    }
    assert s[|value|..|value| + 1] == [c];
    FindIs(s, [c], |value|);
  }

  function Absolutize(url: string): string {
    if StartsAt(url, "http://", 0) || StartsAt(url, "https://", 0) then url
    else if StartsAt(url, "/", 0) then "https://play.qobuz.com" + url
    else "https://play.qobuz.com/" + url
  }

  function LowerChar(c: char): char {
    if 'A' <= c <= 'Z' then c - 'A' + 'a' else c
  }

  function Lower(s: string): string {
    seq(|s|, i requires 0 <= i < |s| => LowerChar(s[i]))
  }

  function JsUrl(value: Option<string>): seq<string> {
    if value.Some? && Contains(value.value, ".js") then [Absolutize(value.value)] else []
  }

  function ScriptUrl(tag: string): seq<string> {
    JsUrl(QuotedAfter(tag, "src="))
  }

  function LinkUrl(tag: string): seq<string> {
    if Contains(Lower(tag), "rel=\"preload\"") && Contains(Lower(tag), "as=\"script\"")
    then JsUrl(QuotedAfter(tag, "href=")) else []
  }

  datatype Tag = Tag(text: string, rest: string)

  // One step of the scan: the first `open`, and the first '>' from there.
  function FirstTag(html: string, open: string): (r: Option<Tag>)
    requires open != []
    ensures r.Some? ==> |r.value.rest| < |html|
  {
    match Find(html, open)
    case None => None
    case Some(k) =>
      match Find(html[k..], ">")
      case None => None
      case Some(n) => Some(Tag(html[k..][..n], html[k..][n + 1..]))
  }

  // The scan's next step finds the next closed tag, and finds none when there is none.
  lemma {:induction false} NextTag(html: string, open: string)
    requires open != [] && '>' !in open
    ensures ClosedTags(html, open) ==
      match FirstTag(html, open) case None => [] case Some(t) => [t.text] + ClosedTags(t.rest, open)
    decreases |html|
  {
    hide ClosedTags, FirstTag, StartsAt, Find;
    ClosedTagsOnce(html, open);
    var g := Find(html, ">");
    if g.Some? {
      var k := Find(html, open);
      if k.Some? && k.value <= g.value {
        FirstWithin(html, open, k.value, g.value);
        TagWithin(html, open, k.value, g.value);
      } else {
        NextTag(html[g.value + 1..], open);
        FirstAfter(html, open, g.value);
        TagAfter(html, open, g.value);
      }
    } else {
      NoTag(html, open);
    }
  }

  lemma {:induction false} TagWithin(html: string, open: string, k: nat, e: nat)
    requires open != [] && Find(html, open) == Some(k) && k <= e < |html| && Find(html[k..], ">") == Some(e - k)
    ensures FirstTag(html, open) == Some(Tag(html[k..e], html[e + 1..]))
  {
    assert html[k..][..e - k] == html[k..e] && html[k..][e - k + 1..] == html[e + 1..];
  }

  lemma {:induction false} TagAfter(html: string, open: string, e: nat)
    requires open != [] && e < |html| && (Find(html, open).Some? ==> e < Find(html, open).value)
    requires Find(html[e + 1..], open) ==
      match Find(html, open) case None => None case Some(k) => Some(k - e - 1)
    ensures FirstTag(html, open) == FirstTag(html[e + 1..], open)
  {
    var k := Find(html, open);
    if k.Some? {
      assert html[e + 1..][k.value - e - 1..] == html[k.value..];
    }
  }

  lemma NoTag(html: string, open: string)
    requires open != [] && Find(html, ">").None?
    ensures FirstTag(html, open).None?
  {
    if Find(html, open).Some? {
      NoneAfter(html, Find(html, open).value);
    }
  }

  lemma ClosedTagsOnce(html: string, open: string)
    ensures match Find(html, ">")
      case None => ClosedTags(html, open) == []
      case Some(e) =>
        && e < |html| && html[e] == '>'
        && var first := Find(html[..e], open); var rest := ClosedTags(html[e + 1..], open);
          && (first.Some? ==> first.value <= e)
          && ClosedTags(html, open) == if first.Some? then [html[first.value..e]] + rest else rest
  {
    var g := Find(html, ">");
    if g.Some? {
      assert html[g.value..g.value + 1] == [html[g.value]];
      assert [] + ClosedTags(html[g.value + 1..], open) == ClosedTags(html[g.value + 1..], open);
    }
  }

  // `open` does not occur before the '>' at `e`: it is looked for after it.
  lemma {:induction false} FirstAfter(html: string, open: string, e: nat)
    requires open != [] && '>' !in open && e < |html| && html[e] == '>'
    requires Find(html, open).Some? ==> e < Find(html, open).value
    ensures Find(html[..e], open).None?
    ensures Find(html[e + 1..], open) ==
      match Find(html, open) case None => None case Some(k) => Some(k - e - 1)
  {
    if Find(html[..e], open).Some? {
      InPrefix(html, open, e, Find(html[..e], open).value);
    }
    var rest := html[e + 1..];
    var r := Find(rest, open);
    if r.Some? {
      InSuffix(html, open, e + 1, r.value);
    }
    if Find(html, open).Some? {
      var k := Find(html, open).value;
      InSuffix(html, open, e + 1, k - e - 1);
      if r.Some? && r.value < k - e - 1 {
        assert false;
      }
    }
  }

  // `open` occurs before the '>' at `e`: all of it does.
  lemma {:induction false} FirstWithin(html: string, open: string, k: nat, e: nat)
    requires open != [] && '>' !in open
    requires Find(html, open) == Some(k) && Find(html, ">") == Some(e) && k <= e
    ensures Find(html[..e], open) == Some(k) && Find(html[k..], ">") == Some(e - k)
  {
    BeforeGap(html, open, k, e);
    FindWithin(html, ">");
    InPrefix(html, open, e, k);
    var first := Find(html[..e], open);
    if first.Some? {
      InPrefix(html, open, e, first.value);
    }
    InSuffix(html, ">", k, e - k);
    var g := Find(html[k..], ">");
    if g.Some? {
      InSuffix(html, ">", k, g.value);
    }
    hide StartsAt;
  }

  // An occurrence of a text without '>' does not reach over one.
  lemma BeforeGap(html: string, open: string, k: nat, e: nat)
    requires '>' !in open && StartsAt(html, open, k) && StartsAt(html, ">", e) && k <= e
    ensures k + |open| <= e
  {
    assert html[e..e + 1] == [html[e]];
    forall j | 0 <= j < |open| ensures open[j] == html[k + j] && html[k + j] != '>' {
      assert html[k..k + |open|][j] == open[j];
    }
  }

  lemma NoneAfter(html: string, k: nat)
    requires Find(html, ">").None? && k <= |html|
    ensures Find(html[k..], ">").None?
  {
    var g := Find(html[k..], ">");
    if g.Some? {
      InSuffix(html, ">", k, g.value);
    }
  }

  // ---- Script urls ----------------------------------------------------------------------------

  // The scan at `pos`, in the page's own positions.
  lemma ScanStep(html: string, pos: nat, open: string)
    requires pos <= |html| && open != [] && '>' !in open
    ensures match Find(html[pos..], open)
      case None => ClosedTags(html[pos..], open) == []
      case Some(k) =>
        && pos + k <= |html|
        && match Find(html[pos + k..], ">")
           case None => ClosedTags(html[pos..], open) == []
           case Some(n) =>
             && pos + k + n < |html|
             && ClosedTags(html[pos..], open)
                == [html[pos + k..pos + k + n]] + ClosedTags(html[pos + k + n + 1..], open)
  {
    hide ClosedTags, Find, StartsAt;
    var rest := html[pos..];
    NextTag(rest, open);
    FindWithin(rest, open);
    var k := Find(rest, open);
    if k.Some? {
      var start := pos + k.value;
      assert rest[k.value..] == html[start..];
      FindWithin(html[start..], ">");
      var n := Find(html[start..], ">");
      if n.Some? {
        assert html[start..][..n.value] == html[start..start + n.value];
        assert html[start..][n.value + 1..] == html[start + n.value + 1..];
      }
    }
  }

  lemma FindWithin(s: string, needle: string)
    ensures Find(s, needle).Some? ==> Find(s, needle).value + |needle| <= |s|
  {
  }

  lemma CollectFirst(t: string, ts: seq<string>, f: string -> seq<string>)
    ensures Collect([t] + ts, f) == f(t) + Collect(ts, f)
  {
    CollectAppend([t], ts, f);
    CollectFew([t], f);
  }

  // The urls of a page: those of its script tags and of its preloaded-script links.
  function PageUrls(html: string): seq<string> {
    Collect(ClosedTags(html, "<script"), ScriptUrl) + Collect(ClosedTags(html, "<link"), LinkUrl)
  }

  // `u` is the value `v` made absolute: as it is with a scheme, on the player's host with a
  // leading slash, under its root otherwise.
  predicate IsAbsolute(v: string, u: string) {
    if "http://" <= v || "https://" <= v then u == v
    else if v != [] && v[0] == '/' then u == "https://play.qobuz.com" + v
    else u == "https://play.qobuz.com/" + v
  }

  // `u` comes of the first `key` of the tag, whose value has ".js" in it.
  ghost predicate IsUrlOf(tag: string, key: string, u: string) {
    exists v, i: nat, quote, j: nat ::
      FirstAt(tag, key, i) && QuotedAt(tag, key, v, quote, i) && StartsAt(v, ".js", j) && IsAbsolute(v, u)
  }

  // The letters of `needle` stand at `i`, in either case.
  predicate StandsAt(tag: string, needle: string, i: nat) {
    i + |needle| <= |tag| &&
    forall k :: 0 <= k < |needle| ==>
      || tag[i + k] == needle[k]
      || ('a' <= needle[k] <= 'z' && 'A' <= tag[i + k] <= 'Z' && tag[i + k] - 'A' == needle[k] - 'a')
  }

  ghost predicate Stands(tag: string, needle: string) {
    exists i: nat :: StandsAt(tag, needle, i)
  }

  // A url of the page: of a script tag's src, or of the href of a link tag that preloads a
  // script.
  ghost predicate IsPageUrl(html: string, u: string) {
    || (exists tag :: tag in ClosedTags(html, "<script") && IsUrlOf(tag, "src=", u))
    || (exists tag :: tag in ClosedTags(html, "<link") && Stands(tag, "rel=\"preload\"") && Stands(tag, "as=\"script\"")
          && IsUrlOf(tag, "href=", u))
  }

  lemma AbsoluteAlike(v: string, u: string)
    ensures u == Absolutize(v) <==> IsAbsolute(v, u)
  {
    assert StartsAt(v, "http://", 0) <==> "http://" <= v;
    assert StartsAt(v, "https://", 0) <==> "https://" <= v;
    assert StartsAt(v, "/", 0) <==> v != [] && v[0] == '/';
  }

  lemma UrlAlike(tag: string, key: string, u: string)
    ensures u in JsUrl(QuotedAfter(tag, key)) <==> IsUrlOf(tag, key, u)
  {
    hide Find, StartsAt, Absolutize, IsAbsolute, QuotedAfter;
    var value := QuotedAfter(tag, key);
    if value.Some? {
      QuotedExactly(tag, key, value.value);
      AbsoluteAlike(value.value, u);
    }
    if IsUrlOf(tag, key, u) {
      var v, i: nat, quote, j: nat :|
        FirstAt(tag, key, i) && QuotedAt(tag, key, v, quote, i) && StartsAt(v, ".js", j) && IsAbsolute(v, u);
      QuotedExactly(tag, key, v);
      AbsoluteAlike(v, u);
    }
  }

  lemma StandsAlike(tag: string, needle: string)
    requires forall k :: 0 <= k < |needle| ==> !('A' <= needle[k] <= 'Z')
    ensures Contains(Lower(tag), needle) <==> Stands(tag, needle)
  {
    forall i: nat ensures StartsAt(Lower(tag), needle, i) <==> StandsAt(tag, needle, i) {
      StandsAlikeAt(tag, needle, i);
    }
  }

  lemma StandsAlikeAt(tag: string, needle: string, i: nat)
    requires forall k :: 0 <= k < |needle| ==> !('A' <= needle[k] <= 'Z')
    ensures StartsAt(Lower(tag), needle, i) <==> StandsAt(tag, needle, i)
  {
    if i + |needle| <= |tag| {
      var there := Lower(tag)[i..i + |needle|];
      forall k | 0 <= k < |needle|
        ensures there[k] == needle[k] <==>
          (tag[i + k] == needle[k]
           || ('a' <= needle[k] <= 'z' && 'A' <= tag[i + k] <= 'Z' && tag[i + k] - 'A' == needle[k] - 'a'))
      {
        assert there[k] == LowerChar(tag[i + k]);
      }
      if StandsAt(tag, needle, i) {
        assert there == needle;
      }
    }
  }

  lemma {:induction false} Collected<X>(xs: seq<X>, f: X -> seq<string>, u: string)
    ensures u in Collect(xs, f) <==> exists x :: x in xs && u in f(x)
  {
    if xs != [] {
      var front, last := xs[..|xs| - 1], xs[|xs| - 1];
      Collected(front, f, u);
      assert xs == front + [last];
    }
  }

  lemma PageUrlsExactly(html: string)
    ensures forall u :: u in PageUrls(html) <==> IsPageUrl(html, u)
  {
    hide Collect, ClosedTags, QuotedAfter, JsUrl, Lower, Find, Stands, IsUrlOf;
    forall u ensures u in PageUrls(html) <==> IsPageUrl(html, u) {
      Collected(ClosedTags(html, "<script"), ScriptUrl, u);
      Collected(ClosedTags(html, "<link"), LinkUrl, u);
      forall tag ensures u in ScriptUrl(tag) <==> IsUrlOf(tag, "src=", u) {
        UrlAlike(tag, "src=", u);
      }
      forall tag
        ensures u in LinkUrl(tag) <==>
          Stands(tag, "rel=\"preload\"") && Stands(tag, "as=\"script\"") && IsUrlOf(tag, "href=", u)
      {
        UrlAlike(tag, "href=", u);
        StandsAlike(tag, "rel=\"preload\"");
        StandsAlike(tag, "as=\"script\"");
      }
    }
  }

  // One scanning loop over the page, for one kind of tag.
  method ScanTags(html: string, open: string, f: string -> seq<string>) returns (urls: seq<string>)
    requires open != [] && '>' !in open
    ensures urls == Collect(ClosedTags(html, open), f)
  {
    hide Collect, ClosedTags, Find, StartsAt;
    urls := [];
    var pos := 0;
    var found := Find(html[pos..], open);
    assert html[0..] == html;
    CollectFew([], f);
    while found.Some?
      invariant pos <= |html| && found == Find(html[pos..], open)
      invariant Collect(ClosedTags(html, open), f) == urls + Collect(ClosedTags(html[pos..], open), f)
      decreases |html| - pos
    {
      ScanStep(html, pos, open);
      var start := pos + found.value;
      var tagEnd := Find(html[start..], ">");
      if tagEnd.None? {
        break;
      }
      var tag := html[start..start + tagEnd.value];
      urls := urls + f(tag);
      pos := start + tagEnd.value + 1;
      CollectFirst(tag, ClosedTags(html[pos..], open), f);
      found := Find(html[pos..], open);
    }
    ScanStep(html, pos, open);
  }

  // The page's urls, each once, in order; by `OneListing` that says which list it is.
  method ExtractScriptUrls(html: string) returns (urls: seq<string>)
    ensures Listing.StrictlyIncreasing(urls)
    ensures forall u :: u in urls <==> IsPageUrl(html, u)
  {
    hide Collect, ClosedTags, IsPageUrl;
    PageUrlsExactly(html);
    var scripts := ScanTags(html, "<script", ScriptUrl);
    var links := ScanTags(html, "<link", LinkUrl);
    urls := Listing.Sort(scripts + links);
    Listing.SortSorts(scripts + links);
    SameMembers(urls, PageUrls(html));
    urls := Listing.Dedup(urls);
  }

  lemma SameMembers(a: seq<string>, b: seq<string>)
    requires multiset(a) == multiset(b)
    ensures forall x :: x in a <==> x in b
  {
    forall x ensures x in a <==> x in b {
      assert x in a <==> x in multiset(a);
      assert x in b <==> x in multiset(b);
    }
  }
}
