# Minecraft patch-notes feed: a Dafny model

This project models the request handler of `mc-patchnotes-feed`, a serverless worker
that republishes Minecraft: Java Edition patch notes as an RSS 2.0 or JSON Feed
document. For each request it fetches the launcher's patch-notes index, keeps the
first five entries, resolves each one against Mojang's version manifest and the
launcher's article for it, adds one feed item per entry, and answers RSS or JSON
depending on the request path. The version manifest sits in a module-level variable
that is fetched only while it is unset.

The model has five modules in five files: four follow the concerns of `src/index.ts`, and
the fifth is a worked example:

- `Wrappers`: an `Option` type (JavaScript's unset value and `x || default`).
- `Patchnotes`: the upstream records (`RawPatchnotesEntry`, `PistonMeta`,
  `PistonMetaVersion`, `LauncherContentEntry`), the normalized `PatchnotesEntry`,
  the fixed URLs, the manifest lookup `versions.find(...)` with its sentinel fallback,
  and `Resolve`, the object `getPatchnotes` returns.
- `FeedBuilder`: the channel metadata, the item built from one entry (link, `<img>`
  tag and content), the `slice(0, 5)` truncation, the `Feed` object as an item
  sequence that `AddItem` appends to, and the choice of format by path.
- `Handler`: the class `Worker`, whose field `pistonMeta` is the module-level memo and
  whose methods are `fetchPistonMeta`, `getPatchnotes` and the exported `fetch`
  handler. The upstream services are a value `Upstream`: the manifest, the index,
  and a function from URL to the article served there. A ghost field `requested`
  logs every URL fetched, in order, so the properties about fetches can be stated.
- `Scenario`: one worked entry, checked end to end.

The records' field named `type` is called `versionType` in the model, because `type`
is a Dafny keyword. The item's content puts the article title into the `alt`
attribute and the image URL into `src` with no HTML escaping, as the handler does.

The image URL is the launcher base followed directly by the article's image path
(`src/index.ts:100`), while articles are fetched from the launcher base followed by
`/v2/` and the content path (`src/index.ts:91`); `Patchnotes.ImageUrlHasNoV2Segment`
and `Scenario.ScenarioItem` state it.

## Model

| member | source | states |
|---|---|---|
| `Patchnotes.ManifestUrl` | src/index.ts:77 | the manifest is fetched from a URL that starts with the manifest host's base URL and goes on past it |
| `Patchnotes.IndexUrl` | src/index.ts:119 | the index is fetched from a URL that starts with the launcher base and goes on past it |
| `Patchnotes.ContentUrl` | src/index.ts:91 | an article URL is the launcher base, then "/v2/", then exactly the entry's content path |
| `Patchnotes.ImageUrl` | src/index.ts:100 | an image URL is the launcher base followed directly by exactly the article's image path |
| `Patchnotes.ContentUrlInjective` | src/index.ts:91 | distinct content paths are fetched from distinct article URLs |
| `Patchnotes.ManifestUrlIsNoContentUrl` | src/index.ts:77 | the manifest URL is never an article URL, whatever the content path |
| `Patchnotes.ManifestUrlIsNoIndexUrl` | src/index.ts:119 | the index URL differs from the manifest URL |
| `Patchnotes.ImageUrlHasNoV2Segment` | src/index.ts:91-100 | the image URL equals an article URL exactly when the image path itself starts with "/v2/": the image base adds no "/v2" segment |
| `Patchnotes.FindVersion` | src/index.ts:82 | the lookup finds nothing exactly when no manifest record has the id; what it finds is a record of the list with that id |
| `Patchnotes.FindVersionIsFirstMatch` | src/index.ts:82 | the record found is the first in list order whose id matches |
| `Patchnotes.ManifestRecord` | src/index.ts:82-90 | the joined record is a manifest record with the entry's version as id when one exists, and the sentinel otherwise |
| `Patchnotes.ManifestRecordMiss` | src/index.ts:82-90 | on a miss every string field of the record is empty and the compliance level is -1 |
| `Patchnotes.Resolve` | src/index.ts:93-104 | title, body and image title come from the article; time and version from the joined record; type and id from the raw entry; image URL is the launcher base plus the article's image path; the version is the raw entry's version or empty |
| `Patchnotes.ResolveHit` | src/index.ts:82-96 | when the manifest lists the version, the entry's version is the raw version and its time is the first matching record's time |
| `Patchnotes.ResolveMiss` | src/index.ts:82-96 | when the manifest does not list the version, the entry's version and time are both empty |
| `FeedBuilder.Decimal` | src/index.ts:116 | the year is rendered as decimal digits without a leading zero |
| `FeedBuilder.DecimalRoundTrip` | src/index.ts:116 | reading the rendered year back gives the year |
| `FeedBuilder.ChannelOptions` | src/index.ts:109-117 | the channel is titled "Minecraft Patch Notes" in language "en"; its id is "https://", the request host, then "/"; its copyright line opens with the fixed prefix and ends with the fixed suffix |
| `FeedBuilder.ChannelOptionsNameHostAndYear` | src/index.ts:109-117 | the copyright line carries the current year between its fixed prefix and suffix, and the channel id carries the request host |
| `FeedBuilder.ItemLink` | src/index.ts:122 | the item link is the patch-notes page base followed by exactly the entry's version, so the version can be read back from it |
| `FeedBuilder.ItemLinkInjective` | src/index.ts:122 | entries of different versions get different links |
| `FeedBuilder.ImageTag` | src/index.ts:123 | the tag is 19 characters longer than the image URL and the title together |
| `FeedBuilder.ImageTagLayout` | src/index.ts:123 | the tag is `<img src="`, the image URL, `" alt="`, the title, then `">`, each at its fixed position |
| `FeedBuilder.ItemFor` | src/index.ts:122-130 | an item's title and id are the entry's, its date the entry's time, its link anchored at the version, and its content the `<img>` tag for the image URL and title followed by the body |
| `FeedBuilder.ItemContentSplits` | src/index.ts:123-128 | the content starts with the tag, which opens with the image URL, and after the tag is exactly the body |
| `FeedBuilder.FirstFive` | src/index.ts:120 | at most five entries are kept; they are a prefix of the index; all of them are kept when there are five or fewer |
| `FeedBuilder.Feed.constructor` | src/index.ts:109-117 | a new feed has the given channel metadata and no items |
| `FeedBuilder.Feed.AddItem` | src/index.ts:124-130 | an added item goes after all items already in the feed |
| `FeedBuilder.FormatFor` | src/index.ts:132-146 | JSON Feed is chosen exactly for the path "/json", RSS 2.0 for every other path |
| `FeedBuilder.ContentType` | src/index.ts:132-146 | JSON Feed is sent as `application/json` and RSS 2.0 as `application/rss+xml`, and only those |
| `FeedBuilder.ContentTypeForPath` | src/index.ts:132-146 | the content type is `application/json` exactly for "/json" and `application/rss+xml` for every other path |
| `Handler.EntryItemFields` | src/index.ts:121-130 | the item for a raw entry takes its title from the article served at the entry's content URL, its id from the raw entry, its link and date from the joined manifest record, and its content is the image tag for the article's image and title followed by the article's body |
| `Handler.ItemsFor` | src/index.ts:120-131 | the loop adds exactly one item per entry it is given |
| `Handler.ItemsForAt` | src/index.ts:120-131 | item k is built from entry k, so the order of the index is kept |
| `Handler.FeedItemsFromIndex` | src/index.ts:120-131 | the feed never has more than five items, has one per entry when the index has five or fewer, and its item k comes from index entry k |
| `Handler.ContentUrls` | src/index.ts:91 | resolving a batch fetches one article URL per entry |
| `Handler.ContentUrlsAt` | src/index.ts:91 | article URL k is the content URL of entry k |
| `Handler.EntryFetches` | src/index.ts:76-91 | one `getPatchnotes` fetches the manifest first exactly when the memo is unset, and always ends with the entry's article URL |
| `Handler.BatchFetches` | src/index.ts:76-91 | resolving a batch makes one fetch per entry, plus one when the memo was unset and the batch is not empty |
| `Handler.LoopStep` | src/index.ts:120-131 | one turn of the loop keeps the items added and the URLs fetched equal to those of the entries handled so far |
| `Handler.RequestLog` | src/index.ts:119-121 | a request's first fetch is the index, and after it come exactly the fetches of resolving the first five entries |
| `Handler.ManifestUrlNotInContentUrls` | src/index.ts:91 | resolving entries never fetches the manifest URL as an article |
| `Handler.BatchFetchesShape` | src/index.ts:76-91 | resolving a batch fetches the manifest at most once, before the first article, and then one article per entry in order |
| `Handler.ManifestFetchedAtMostOnce` | src/index.ts:74-121 | one request fetches the manifest once when the memo was unset and the index has an entry, and never otherwise; in all it makes one index fetch, that manifest fetch and one fetch per kept entry |
| `Handler.Worker.constructor` | src/index.ts:74 | the memo starts unset and nothing has been fetched |
| `Handler.Worker.FetchPistonMeta` | src/index.ts:76-78 | the manifest is fetched and stored only while the memo is unset; once set the memo keeps its value and nothing is fetched |
| `Handler.Worker.GetPatchnotes` | src/index.ts:80-105 | afterwards the memo holds the old memo or, if unset, the fetched manifest; the entry is resolved against it and the article served at the entry's content URL; the fetches are the manifest (only if unset) then that article |
| `Handler.Worker.AddEntry` | src/index.ts:121-130 | one turn of the loop adds the resolved entry's item to the feed and makes the fetches of one `getPatchnotes` |
| `Handler.Worker.AddPatchnotes` | src/index.ts:120-131 | the loop adds the items of the whole batch, in order, all resolved against one manifest; the memo is set after a non-empty batch and untouched by an empty one |
| `Handler.Worker.Fetch` | src/index.ts:108-148 | the response carries the items of the first five index entries, the channel metadata for the host and year, and the format and content type chosen by the path; the fetches are those of `RequestLog` |
| `Scenario.ScenarioItem` | src/index.ts:93-130 | an entry for version "1.20" listed in the manifest yields the item titled from the article, dated by the manifest, linked at "#1.20", with the image URL `https://launchercontent.mojang.com/img/x.png` |

## Left out

- Network I/O, JSON decoding and `async`/`await`: the upstream answers are the parameter `Upstream`. A failed fetch or an undecodable body aborts the whole request in the handler; the model has no failing fetch.
- Validation of the decoded JSON: fields have the types the declared interfaces of `src/index.ts` give them; a `type` outside `release`/`snapshot` or a missing field is not modelled.
- The feed library (`@peertube/feed`): `Feed` is modelled as its channel metadata and item sequence; `rss2()` and `json1()` are its serialisers, so `Response` carries the format and the feed's contents instead of the rendered body.
- Date parsing: `new Date(patchnotes.time)` is modelled as the time string itself, so an item's date is the raw time string.
- The clock: the current year for the copyright line is the parameter `year` of `Handler.Worker.Fetch`.
- URL parsing: the request URL's host and pathname are given as strings in `Request`.
- Concurrent requests: two requests on one process may both see the memo unset and both fetch the manifest; the model serves one request at a time.
- The `image-size` import is never used in `src/index.ts`.
- `Handler.Worker.Fetch`: the loop body and the loop are split into the methods `AddEntry` and `AddPatchnotes`, which `src/index.ts` writes inline in `fetch`.
