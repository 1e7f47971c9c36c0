/** The request handler and the module-level manifest memo: `fetchPistonMeta`,
    `getPatchnotes` and the default export's `fetch`. Network responses are supplied as
    an `Upstream` value; a log of requested URLs records every outbound fetch. */
module Handler {
  import opened Wrappers
  import opened Patchnotes
  import opened FeedBuilder

  /** What the upstream services answer: the manifest, the patch-notes index, and the
      article served at each URL. */
  datatype Upstream = Upstream(
    manifest: PistonMeta,
    index: RawPatchnotes,
    article: string -> LauncherContentEntry)

  /** The parts of the incoming request URL the handler looks at. */
  datatype Request = Request(host: string, pathname: string)

  /** The response: its content type, and the rendering of the feed it carries. */
  datatype Response = Response(contentType: string, format: Format, options: FeedOptions, items: seq<FeedItem>)

  /** The item built for one raw entry: resolve it against the manifest and the article
      served at its content URL, then build the item. */
  function EntryItem(raw: RawPatchnotesEntry, meta: PistonMeta, article: string -> LauncherContentEntry): FeedItem
  {
    ItemFor(Resolve(raw, meta, article(ContentUrl(raw.contentPath))))
  }

  /** Where each field of an entry's item comes from: title from the article, id from the
      raw entry, link and date from the joined manifest record, and the content is the
      image tag for the article's image followed by the article's body. */
  lemma EntryItemFields(raw: RawPatchnotesEntry, meta: PistonMeta, article: string -> LauncherContentEntry)
    ensures var item := EntryItem(raw, meta, article);
      var content := article(ContentUrl(raw.contentPath)); var record := ManifestRecord(meta, raw.version);
      item.title == content.title && item.id == raw.id &&
      item.link == ItemLink(record.id) && item.date == record.time &&
      item.content == ImageTag(ImageUrl(content.image.url), content.title) + content.body
  {
  }

  /** The items the loop adds for `batch`, one per entry and in the same order. */
  function ItemsFor(batch: seq<RawPatchnotesEntry>, meta: PistonMeta, article: string -> LauncherContentEntry): (items: seq<FeedItem>)
    ensures |items| == |batch|
  {
    if batch == [] then []
    else ItemsFor(batch[..|batch| - 1], meta, article) + [EntryItem(batch[|batch| - 1], meta, article)]
  }

  /** Extending the batch by the next entry adds that entry's item at the end. */
  lemma ItemsForExtend(items0: seq<FeedItem>, batch: seq<RawPatchnotesEntry>, i: nat, meta: PistonMeta, article: string -> LauncherContentEntry)
    requires i < |batch|
    ensures items0 + ItemsFor(batch[..i + 1], meta, article) == (items0 + ItemsFor(batch[..i], meta, article)) + [EntryItem(batch[i], meta, article)]
  {
    assert batch[..i + 1][..i] == batch[..i];
    AppendAssoc(items0, ItemsFor(batch[..i], meta, article), [EntryItem(batch[i], meta, article)]);
  }

  /** The item at position k comes from the entry at position k. */
  lemma {:induction false} ItemsForAt(batch: seq<RawPatchnotesEntry>, meta: PistonMeta, article: string -> LauncherContentEntry, k: nat)
    requires k < |batch|
    ensures ItemsFor(batch, meta, article)[k] == EntryItem(batch[k], meta, article)
  {
    if k < |batch| - 1 {
      ItemsForAt(batch[..|batch| - 1], meta, article, k);
    }
  }

  /** The feed holds at most five items; when the index has no more than five entries it
      holds one item for each of them; and item k always comes from index entry k. */
  lemma FeedItemsFromIndex(entries: seq<RawPatchnotesEntry>, meta: PistonMeta, article: string -> LauncherContentEntry)
    ensures var items := ItemsFor(FirstFive(entries), meta, article);
      |items| <= MAX_ITEMS &&
      (|entries| <= MAX_ITEMS ==> |items| == |entries|) &&
      (|entries| > MAX_ITEMS ==> |items| == MAX_ITEMS) &&
      forall k :: 0 <= k < |items| ==> items[k] == EntryItem(entries[k], meta, article)
  {
    var batch := FirstFive(entries);
    forall k | 0 <= k < |batch|
      ensures ItemsFor(batch, meta, article)[k] == EntryItem(entries[k], meta, article)
    {
      ItemsForAt(batch, meta, article, k);
    }
  }

  /** The article URLs requested for `batch`, in order. */
  function ContentUrls(batch: seq<RawPatchnotesEntry>): (urls: seq<string>)
    ensures |urls| == |batch|
  {
    if batch == [] then []
    else ContentUrls(batch[..|batch| - 1]) + [ContentUrl(batch[|batch| - 1].contentPath)]
  }

  /** URL k is the article URL of entry k. */
  lemma {:induction false} ContentUrlsAt(batch: seq<RawPatchnotesEntry>, k: nat)
    requires k < |batch|
    ensures ContentUrls(batch)[k] == ContentUrl(batch[k].contentPath)
  {
    if k < |batch| - 1 {
      ContentUrlsAt(batch[..|batch| - 1], k);
    }
  }

  /** The URLs `getPatchnotes` fetches for one entry: the manifest first unless the memo is
      already set, then the entry's article. */
  function EntryFetches(memoSet: bool, raw: RawPatchnotesEntry): (urls: seq<string>)
    ensures |urls| == if memoSet then 1 else 2
    ensures urls[|urls| - 1] == ContentUrl(raw.contentPath)
    ensures !memoSet ==> urls[0] == ManifestUrl()
  {
    (if memoSet then [] else [ManifestUrl()]) + [ContentUrl(raw.contentPath)]
  }

  /** The URLs fetched while resolving `batch` in order; the memo is set from the second
      entry on. */
  function BatchFetches(memoSet: bool, batch: seq<RawPatchnotesEntry>): (urls: seq<string>)
    ensures |urls| == |batch| + (if !memoSet && batch != [] then 1 else 0)
  {
    if batch == [] then []
    else BatchFetches(memoSet, batch[..|batch| - 1]) + EntryFetches(memoSet || |batch| > 1, batch[|batch| - 1])
  }

  lemma BatchFetchesExtend(log0: seq<string>, memoSet: bool, batch: seq<RawPatchnotesEntry>, i: nat)
    requires i < |batch|
    ensures log0 + BatchFetches(memoSet, batch[..i + 1]) == (log0 + BatchFetches(memoSet, batch[..i])) + EntryFetches(memoSet || i > 0, batch[i])
  {
    assert batch[..i + 1][..i] == batch[..i];
    AppendAssoc(log0, BatchFetches(memoSet, batch[..i]), EntryFetches(memoSet || i > 0, batch[i]));
  }

  /** One turn of the handler's loop keeps both accumulators in step with the entries
      handled so far: the items, and the URLs fetched. */
  lemma LoopStep(items0: seq<FeedItem>, items: seq<FeedItem>, items': seq<FeedItem>,
                 log0: seq<string>, log: seq<string>, log': seq<string>,
                 memoSet: bool, batch: seq<RawPatchnotesEntry>, i: nat, meta: PistonMeta, article: string -> LauncherContentEntry)
    requires i < |batch|
    requires items == items0 + ItemsFor(batch[..i], meta, article)
    requires items' == items + [EntryItem(batch[i], meta, article)]
    requires log == log0 + BatchFetches(memoSet, batch[..i])
    requires log' == log + EntryFetches(memoSet || i > 0, batch[i])
    ensures items' == items0 + ItemsFor(batch[..i + 1], meta, article)
    ensures log' == log0 + BatchFetches(memoSet, batch[..i + 1])
  {
    ItemsForExtend(items0, batch, i, meta, article);
    BatchFetchesExtend(log0, memoSet, batch, i);
  }

  /** Resolving a batch fetches the manifest at most once, before the first article, and
      then one article per entry in order. */
  lemma {:induction false} BatchFetchesShape(memoSet: bool, batch: seq<RawPatchnotesEntry>)
    ensures BatchFetches(memoSet, batch) == (if !memoSet && batch != [] then [ManifestUrl()] else []) + ContentUrls(batch)
  {
    if batch != [] {
      var front := batch[..|batch| - 1];
      BatchFetchesShape(memoSet, front);
      if front == [] {
        assert ContentUrls(batch) == [ContentUrl(batch[0].contentPath)];
      }
    }
  }

  /** Every URL one request fetches, in order: the index, then what resolving the first five
      entries fetches. */
  function RequestLog(memoSet: bool, entries: seq<RawPatchnotesEntry>): (urls: seq<string>)
    ensures |urls| >= 1 && urls[0] == IndexUrl()
    ensures urls[1..] == BatchFetches(memoSet, FirstFive(entries))
  {
    [IndexUrl()] + BatchFetches(memoSet, FirstFive(entries))
  }

  lemma {:induction false} ManifestUrlNotInContentUrls(batch: seq<RawPatchnotesEntry>)
    ensures multiset(ContentUrls(batch))[ManifestUrl()] == 0
  {
    if batch != [] {
      ManifestUrlNotInContentUrls(batch[..|batch| - 1]);
      ManifestUrlIsNoContentUrl(batch[|batch| - 1].contentPath);
    }
  }

  /** One request fetches the manifest once if the memo was unset and there is an entry to
      resolve, and never otherwise, however many entries it resolves; in all it makes one
      fetch for the index, that manifest fetch, and one fetch per entry kept. */
  lemma ManifestFetchedAtMostOnce(memoSet: bool, entries: seq<RawPatchnotesEntry>)
    ensures var log := RequestLog(memoSet, entries);
      var manifestFetches := if !memoSet && entries != [] then 1 else 0;
      multiset(log)[ManifestUrl()] == manifestFetches &&
      |log| == 1 + manifestFetches + |FirstFive(entries)|
  {
    var batch := FirstFive(entries);
    BatchFetchesShape(memoSet, batch);
    ManifestUrlNotInContentUrls(batch);
    ManifestUrlIsNoIndexUrl();
    assert batch == [] <==> entries == [];
  }

  // AppendAssoc and EmptyAppend only hand the solver the sequence facts the loop and
  // the handler need, so it does not search for them.
  lemma AppendAssoc<T>(a: seq<T>, b: seq<T>, c: seq<T>)
    ensures (a + b) + c == a + (b + c)
  {
  }

  lemma EmptyAppend<T>(a: seq<T>)
    ensures [] + a == a
  {
  }

  /** The process that serves requests, holding the module-level manifest memo. */
  class Worker {
    /** `pistonMeta`: unset until the first manifest fetch, then kept for good. */
    var pistonMeta: Option<PistonMeta>
    /** Every URL fetched so far, in order. */
    ghost var requested: seq<string>

    constructor ()
      ensures pistonMeta == None && requested == []
    {
      pistonMeta := None;
      requested := [];
    }

    /** `fetchPistonMeta`: fetch the manifest only while the memo is unset; once set, the
        memo is left as it is and nothing is fetched. */
    method FetchPistonMeta(up: Upstream)
      modifies this
      ensures old(pistonMeta).None? ==> pistonMeta == Some(up.manifest) && requested == old(requested) + [ManifestUrl()]
      ensures old(pistonMeta).Some? ==> pistonMeta == old(pistonMeta) && requested == old(requested)
    {
      if pistonMeta.None? {
        requested := requested + [ManifestUrl()];
        pistonMeta := Some(up.manifest);
      }
    }

    /** `getPatchnotes`: make sure the manifest is loaded, fetch the article, and return the
        entry resolved against the memoized manifest. */
    method GetPatchnotes(raw: RawPatchnotesEntry, up: Upstream) returns (e: PatchnotesEntry)
      modifies this
      ensures pistonMeta == Some(old(pistonMeta).GetOr(up.manifest))
      ensures e == Resolve(raw, pistonMeta.value, up.article(ContentUrl(raw.contentPath)))
      ensures requested == old(requested) + EntryFetches(old(pistonMeta).Some?, raw)
    {
      FetchPistonMeta(up);
      var url := ContentUrl(raw.contentPath);
      requested := requested + [url];
      var content := up.article(url);
      e := Resolve(raw, pistonMeta.value, content);
    }

    /** One turn of the handler's loop: resolve `raw` and add its item to `feed`. */
    method AddEntry(feed: Feed, raw: RawPatchnotesEntry, up: Upstream)
      modifies this, feed
      ensures pistonMeta == Some(old(pistonMeta).GetOr(up.manifest))
      ensures feed.items == old(feed.items) + [EntryItem(raw, pistonMeta.value, up.article)]
      ensures requested == old(requested) + EntryFetches(old(pistonMeta).Some?, raw)
    {
      var patchnotes := GetPatchnotes(raw, up);
      var url := ItemLink(patchnotes.version);
      var image := ImageTag(patchnotes.image.url, patchnotes.title);
      feed.AddItem(FeedItem(
        title := patchnotes.title,
        id := patchnotes.id,
        link := url,
        content := image + patchnotes.body,
        date := patchnotes.time));
    }

    /** The handler's loop: resolve the entries of `batch` one after the other and add
        each one's item to `feed`. The manifest is fetched before the first entry if the
        memo is unset, and never again. */
    method AddPatchnotes(feed: Feed, batch: seq<RawPatchnotesEntry>, up: Upstream)
      modifies this, feed
      ensures var meta := old(pistonMeta).GetOr(up.manifest);
        pistonMeta == (if batch == [] then old(pistonMeta) else Some(meta)) &&
        feed.items == old(feed.items) + ItemsFor(batch, meta, up.article)
      ensures requested == old(requested) + BatchFetches(old(pistonMeta).Some?, batch)
    {
      ghost var meta := old(pistonMeta).GetOr(up.manifest);
      ghost var items0, requested0 := feed.items, requested;
      var i := 0;
      while i < |batch|
        invariant 0 <= i <= |batch|
        invariant pistonMeta == if i == 0 then old(pistonMeta) else Some(meta)
        invariant feed.items == items0 + ItemsFor(batch[..i], meta, up.article)
        invariant requested == requested0 + BatchFetches(old(pistonMeta).Some?, batch[..i])
      {
        ghost var items, log := feed.items, requested;
        AddEntry(feed, batch[i], up);
        LoopStep(items0, items, feed.items, requested0, log, requested, old(pistonMeta).Some?, batch, i, meta, up.article);
        i := i + 1;
      }
      assert batch[..i] == batch;
    }

    /** The handler: build the feed from the first five index entries and answer it in the
        format the request path selects. */
    method Fetch(request: Request, up: Upstream, year: nat) returns (resp: Response)
      modifies this
      ensures var batch := FirstFive(up.index.entries);
        var meta := old(pistonMeta).GetOr(up.manifest);
        pistonMeta == (if batch == [] then old(pistonMeta) else Some(meta)) &&
        resp.items == ItemsFor(batch, meta, up.article)
      ensures resp.options == ChannelOptions(request.host, year)
      ensures resp.format == FormatFor(request.pathname) && resp.contentType == ContentType(resp.format)
      ensures requested == old(requested) + RequestLog(old(pistonMeta).Some?, up.index.entries)
    {
      var feed := new Feed(ChannelOptions(request.host, year));
      requested := requested + [IndexUrl()];
      var rawPatchnotes := up.index;
      var batch := FirstFive(rawPatchnotes.entries);
      ghost var memoSet, meta := pistonMeta.Some?, pistonMeta.GetOr(up.manifest);
      AddPatchnotes(feed, batch, up);
      AppendAssoc(old(requested), [IndexUrl()], BatchFetches(memoSet, batch));
      EmptyAppend(ItemsFor(batch, meta, up.article));
      var format := FormatFor(request.pathname);
      resp := Response(ContentType(format), format, feed.options, feed.items);
    }
  }
}
