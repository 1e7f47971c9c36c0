/** The feed side of the handler: the channel metadata, the item built from one normalized
    entry, the five-entry truncation, the feed object that items are added to, and the
    choice of output format by request path. */
module FeedBuilder {
  import opened Patchnotes

  /** One feed item as handed to `feed.addItem`. The item's date is the entry's time string,
      unparsed. */
  datatype FeedItem = FeedItem(title: string, id: string, link: string, content: string, date: string)

  /** The fixed channel metadata the feed is created with. */
  datatype FeedOptions = FeedOptions(
    title: string,
    description: string,
    id: string,
    link: string,
    language: string,
    favicon: string,
    copyright: string)

  const ITEM_LINK_BASE: string := "https://quiltmc.org/en/mc-patchnotes/#"
  const COPYRIGHT_PREFIX: string := "All rights reserved 2009-"
  const COPYRIGHT_SUFFIX: string := ", Mojang"

  /** The most entries of the index that are turned into items. */
  const MAX_ITEMS: nat := 5

  // ---- Decimal rendering of the copyright year ----

  predicate IsDigits(s: string) {
    forall i :: 0 <= i < |s| ==> '0' <= s[i] <= '9'
  }

  function DigitChar(d: nat): (c: char)
    requires d < 10
    ensures '0' <= c <= '9' && c as int - '0' as int == d
  {
    (('0' as int) + d) as char
  }

  /** A year as a template literal renders it: decimal digits, no leading zero. */
  function Decimal(n: nat): (s: string)
    ensures |s| >= 1 && IsDigits(s)
    ensures s[0] == '0' ==> n == 0
    decreases n
  {
    if n < 10 then [DigitChar(n)] else Decimal(n / 10) + [DigitChar(n % 10)]
  }

  /** The number a string of decimal digits denotes. */
  function DecimalValue(s: string): nat
    requires IsDigits(s)
  {
    if s == [] then 0
    else DecimalValue(s[..|s| - 1]) * 10 + (s[|s| - 1] as int - '0' as int)
  }

  /** Reading back the rendered year gives the year. */
  lemma {:induction false} DecimalRoundTrip(n: nat)
    ensures DecimalValue(Decimal(n)) == n
    decreases n
  {
    if n >= 10 {
      DecimalRoundTrip(n / 10);
      var s := Decimal(n);
      assert s[..|s| - 1] == Decimal(n / 10);
    }
  }

  /** The channel metadata for a request to `host` in the year `year`. */
  function ChannelOptions(host: string, year: nat): (o: FeedOptions)
    ensures o.title == "Minecraft Patch Notes" && o.language == "en"
    ensures |o.id| == |host| + 9 && o.id[..8] == "https://" && o.id[8..|o.id| - 1] == host && o.id[|o.id| - 1] == '/'
    ensures |o.copyright| > |COPYRIGHT_PREFIX| + |COPYRIGHT_SUFFIX|
    ensures o.copyright[..|COPYRIGHT_PREFIX|] == COPYRIGHT_PREFIX
    ensures o.copyright[|o.copyright| - |COPYRIGHT_SUFFIX|..] == COPYRIGHT_SUFFIX
  {
    FeedOptions(
      title := "Minecraft Patch Notes",
      description := "Patch notes for Minecraft: Java Edition",
      id := "https://" + host + "/",
      link := "https://www.minecraft.net/en-us/articles",
      language := "en",
      favicon := "https://www.minecraft.net/etc.clientlibs/minecraft/clientlibs/main/resources/favicon.ico",
      copyright := COPYRIGHT_PREFIX + Decimal(year) + COPYRIGHT_SUFFIX)
  }

  /** The copyright line names the current year, and the channel id names the request's host. */
  lemma ChannelOptionsNameHostAndYear(host: string, year: nat)
    ensures var o := ChannelOptions(host, year);
      |o.copyright| > |COPYRIGHT_PREFIX| + |COPYRIGHT_SUFFIX| &&
      var y := o.copyright[|COPYRIGHT_PREFIX| .. |o.copyright| - |COPYRIGHT_SUFFIX|];
      IsDigits(y) && DecimalValue(y) == year &&
      o.id[8 .. |o.id| - 1] == host
  {
    var o := ChannelOptions(host, year);
    assert o.copyright[|COPYRIGHT_PREFIX| .. |o.copyright| - |COPYRIGHT_SUFFIX|] == Decimal(year);
    DecimalRoundTrip(year);
  }

  // ---- Items ----

  /** The item's link: the canonical patch-notes page, anchored at the entry's version. */
  function ItemLink(version: string): (link: string)
    ensures |link| == |ITEM_LINK_BASE| + |version|
    ensures link[..|ITEM_LINK_BASE|] == ITEM_LINK_BASE && link[|ITEM_LINK_BASE|..] == version
  {
    ITEM_LINK_BASE + version
  }

  /** The `<img>` tag put in front of an item's body. */
  function ImageTag(src: string, alt: string): (tag: string)
    ensures |tag| == |src| + |alt| + 19
  {
    "<img src=\"" + src + "\" alt=\"" + alt + "\">"
  }

  /** The tag is `<img src="`, the image URL, `" alt="`, the alternative text, then `">`. */
  lemma ImageTagLayout(src: string, alt: string)
    ensures var tag := ImageTag(src, alt);
      tag[..10] == "<img src=\"" && tag[10..10 + |src|] == src &&
      tag[10 + |src|..17 + |src|] == "\" alt=\"" && tag[17 + |src|..17 + |src| + |alt|] == alt &&
      tag[|tag| - 2..] == "\">"
  {
  }

  /** Entries of distinct versions get distinct links. */
  lemma ItemLinkInjective(v: string, w: string)
    requires ItemLink(v) == ItemLink(w)
    ensures v == w
  {
    assert v == ItemLink(v)[|ITEM_LINK_BASE|..];
  }

  /** The item added for one normalized entry. */
  function ItemFor(e: PatchnotesEntry): (item: FeedItem)
    ensures item.title == e.title && item.id == e.id && item.date == e.time
    ensures item.link == ItemLink(e.version)
    ensures item.content == ImageTag(e.image.url, e.title) + e.body
  {
    FeedItem(
      title := e.title,
      id := e.id,
      link := ItemLink(e.version),
      content := ImageTag(e.image.url, e.title) + e.body,
      date := e.time)
  }

  /** An item's content starts with the image tag, which carries the image URL and the
      title, and after the tag it is exactly the entry's body. */
  lemma ItemContentSplits(e: PatchnotesEntry)
    ensures var c := ItemFor(e).content; var t := ImageTag(e.image.url, e.title);
      |c| == |t| + |e.body| && c[..|t|] == t && c[|t|..] == e.body &&
      c[..10] == "<img src=\"" && c[10 .. 10 + |e.image.url|] == e.image.url
  {
  }

  // ---- Truncation ----

  /** `entries.slice(0, 5)`: the first five entries, or all of them when there are fewer. */
  function FirstFive<T>(s: seq<T>): (r: seq<T>)
    ensures |r| <= MAX_ITEMS
    ensures |r| == if |s| < MAX_ITEMS then |s| else MAX_ITEMS
    ensures r <= s
    ensures |s| <= MAX_ITEMS ==> r == s
  {
    if |s| <= MAX_ITEMS then s else s[..MAX_ITEMS]
  }

  // ---- The feed object ----

  /** The feed being built: its channel metadata and the items added so far, in order.
      Serialising it (`rss2()`, `json1()`) is the feed library's work. */
  class Feed {
    const options: FeedOptions
    var items: seq<FeedItem>

    constructor (options: FeedOptions)
      ensures this.options == options
      ensures items == []
    {
      this.options := options;
      items := [];
    }

    /** `feed.addItem`: the item goes after every item already added. */
    method AddItem(item: FeedItem)
      modifies this
      ensures items == old(items) + [item]
    {
      items := items + [item];
    }
  }

  // ---- Output format ----

  /** The two renderings of the feed. */
  datatype Format = Rss2 | Json1

  /** The rendering chosen for a request path: JSON Feed for exactly "/json", RSS 2.0 for
      every other path. */
  function FormatFor(pathname: string): (f: Format)
    ensures f == Json1 <==> pathname == "/json"
  {
    if pathname == "/json" then Json1 else Rss2
  }

  /** The content-type header sent with each rendering. */
  function ContentType(f: Format): (ct: string)
    ensures ct == "application/json" <==> f == Json1
    ensures ct == "application/rss+xml" <==> f == Rss2
  {
    match f
    case Json1 => "application/json"
    case Rss2 => "application/rss+xml"
  }

  /** The content type answered for a path: `application/json` exactly for "/json",
      `application/rss+xml` for every other path. */
  lemma ContentTypeForPath(pathname: string)
    ensures ContentType(FormatFor(pathname)) == "application/json" <==> pathname == "/json"
    ensures ContentType(FormatFor(pathname)) == "application/rss+xml" <==> pathname != "/json"
  {
  }
}
