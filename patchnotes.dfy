/** The records exchanged with the two upstream APIs and the resolver that joins a raw
    patch-note against the version manifest and the fetched article (`getPatchnotes`). */
module Patchnotes {
  import opened Wrappers

  /** `VersionType`: the release channel named by a raw patch-note. */
  datatype VersionType = Snapshot | Release

  /** The `image` object shared by index entries, articles and normalized entries. */
  datatype Image = Image(title: string, url: string)

  /** `RawPatchnotesEntry`: one entry of the patch-notes index. The field the handler calls
      `type` is `versionType` here (`type` is a Dafny keyword). */
  datatype RawPatchnotesEntry = RawPatchnotesEntry(
    title: string,
    version: string,
    versionType: VersionType,
    image: Image,
    contentPath: string,
    id: string)

  /** `RawPatchnotes`: the whole patch-notes index document. */
  datatype RawPatchnotes = RawPatchnotes(version: int, entries: seq<RawPatchnotesEntry>)

  /** `PatchnotesEntry`: the normalized entry built for one raw entry. */
  datatype PatchnotesEntry = PatchnotesEntry(
    title: string,
    time: string,
    version: string,
    versionType: VersionType,
    image: Image,
    body: string,
    id: string)

  datatype Latest = Latest(release: string, snapshot: string)

  /** `PistonMetaVersion`: one record of the version manifest. */
  datatype PistonMetaVersion = PistonMetaVersion(
    id: string,
    versionType: string,
    url: string,
    time: string,
    releaseTime: string,
    sha1: string,
    complianceLevel: int)

  /** `PistonMeta`: the version manifest, versions in upstream order. */
  datatype PistonMeta = PistonMeta(latest: Latest, versions: seq<PistonMetaVersion>)

  /** `LauncherContentEntry`: the full article fetched for one raw entry. */
  datatype LauncherContentEntry = LauncherContentEntry(
    title: string,
    version: string,
    versionType: string,
    image: Image,
    body: string,
    id: string)

  const META_BASE_URL: string := "https://piston-meta.mojang.com"
  const LAUNCHER_BASE_URL: string := "https://launchercontent.mojang.com"

  /** The URL the version manifest is fetched from. */
  function ManifestUrl(): (url: string)
    ensures |url| > |META_BASE_URL| && url[..|META_BASE_URL|] == META_BASE_URL
  {
    META_BASE_URL + "/mc/game/version_manifest_v2.json"
  }

  /** The URL the patch-notes index is fetched from. */
  function IndexUrl(): (url: string)
    ensures |url| > |LAUNCHER_BASE_URL| && url[..|LAUNCHER_BASE_URL|] == LAUNCHER_BASE_URL
  {
    LAUNCHER_BASE_URL + "/v2/javaPatchNotes.json"
  }

  /** The URL an article is fetched from: the launcher base, "/v2/", then the content path. */
  function ContentUrl(contentPath: string): (url: string)
    ensures |url| == |LAUNCHER_BASE_URL| + 4 + |contentPath|
    ensures url[..|LAUNCHER_BASE_URL| + 4] == LAUNCHER_BASE_URL + "/v2/"
    ensures url[|LAUNCHER_BASE_URL| + 4..] == contentPath
  {
    LAUNCHER_BASE_URL + "/v2/" + contentPath
  }

  /** The absolute URL of an article's image: the launcher base followed directly by the
      article's image path, with no "/v2" segment in between. */
  function ImageUrl(imagePath: string): (url: string)
    ensures |url| == |LAUNCHER_BASE_URL| + |imagePath|
    ensures url[..|LAUNCHER_BASE_URL|] == LAUNCHER_BASE_URL
    ensures url[|LAUNCHER_BASE_URL|..] == imagePath
  {
    LAUNCHER_BASE_URL + imagePath
  }

  /** Distinct content paths are fetched from distinct URLs. */
  lemma ContentUrlInjective(p: string, q: string)
    requires ContentUrl(p) == ContentUrl(q)
    ensures p == q
  {
    var n := |LAUNCHER_BASE_URL + "/v2/"|;
    assert p == ContentUrl(p)[n..];
    assert q == ContentUrl(q)[n..];
  }

  /** No article URL is the manifest URL, whatever the content path. */
  lemma ManifestUrlIsNoContentUrl(p: string)
    ensures ManifestUrl() != ContentUrl(p)
  {
    assert ManifestUrl()[8] == 'p';
    assert ContentUrl(p)[8] == 'l';
  }

  /** The index is not fetched from the manifest URL. */
  lemma ManifestUrlIsNoIndexUrl()
    ensures ManifestUrl() != IndexUrl()
  {
  }

  /** An image URL names the same resource as an article URL exactly when the image path
      itself starts with "/v2/": the image base carries no "/v2" segment of its own. */
  lemma ImageUrlHasNoV2Segment(imagePath: string, contentPath: string)
    ensures ImageUrl(imagePath) == ContentUrl(contentPath) <==> imagePath == "/v2/" + contentPath
  {
    var n := |LAUNCHER_BASE_URL|;
    if ImageUrl(imagePath) == ContentUrl(contentPath) {
      assert imagePath == ImageUrl(imagePath)[n..];
      assert ContentUrl(contentPath)[n..] == "/v2/" + contentPath;
    }
    if imagePath == "/v2/" + contentPath {
      assert LAUNCHER_BASE_URL + ("/v2/" + contentPath) == LAUNCHER_BASE_URL + "/v2/" + contentPath;
    }
  }

  /** `versions.find((x) => x.id == id)`: the first record, in list order, whose id is `id`. */
  function FindVersion(versions: seq<PistonMetaVersion>, id: string): (r: Option<PistonMetaVersion>)
    ensures r.None? <==> forall k :: 0 <= k < |versions| ==> versions[k].id != id
    ensures r.Some? ==> r.value in versions && r.value.id == id
  {
    if versions == [] then None
    else if versions[0].id == id then Some(versions[0])
    else FindVersion(versions[1..], id)
  }

  /** The record found is the FIRST match: every earlier record has another id. */
  lemma {:induction false} FindVersionIsFirstMatch(versions: seq<PistonMetaVersion>, id: string, k: nat)
    requires k < |versions| && versions[k].id == id
    requires forall j :: 0 <= j < k ==> versions[j].id != id
    ensures FindVersion(versions, id) == Some(versions[k])
  {
    if k > 0 {
      FindVersionIsFirstMatch(versions[1..], id, k - 1);
    }
  }

  /** The placeholder record used when the manifest has no record for a version. */
  const SENTINEL: PistonMetaVersion := PistonMetaVersion("", "", "", "", "", "", -1)

  /** The manifest record joined with a raw entry's version: the first record with that id,
      or the sentinel when there is none. */
  function ManifestRecord(meta: PistonMeta, version: string): (r: PistonMetaVersion)
    ensures if exists k :: 0 <= k < |meta.versions| && meta.versions[k].id == version
            then r in meta.versions && r.id == version
            else r == SENTINEL
  {
    FindVersion(meta.versions, version).GetOr(SENTINEL)
  }

  /** A version missing from the manifest joins with the sentinel: empty strings everywhere
      and compliance level -1. */
  lemma ManifestRecordMiss(meta: PistonMeta, version: string)
    requires forall k :: 0 <= k < |meta.versions| ==> meta.versions[k].id != version
    ensures var r := ManifestRecord(meta, version);
      r.id == "" && r.versionType == "" && r.url == "" && r.time == "" &&
      r.releaseTime == "" && r.sha1 == "" && r.complianceLevel == -1
  {
  }

  /** The normalized entry `getPatchnotes` returns, once the manifest and the article the
      handler fetches are known. Each field has a fixed origin: title, body and image title
      from the article, time and version from the joined manifest record, type and id from
      the raw entry, and the image URL from the article's image path. */
  function Resolve(raw: RawPatchnotesEntry, meta: PistonMeta, content: LauncherContentEntry): (e: PatchnotesEntry)
    ensures e.title == content.title && e.body == content.body
    ensures e.image.title == content.image.title && e.image.url == ImageUrl(content.image.url)
    ensures e.time == ManifestRecord(meta, raw.version).time
    ensures e.version == ManifestRecord(meta, raw.version).id
    ensures e.versionType == raw.versionType && e.id == raw.id
    ensures e.version == raw.version || e.version == ""
  {
    var record := ManifestRecord(meta, raw.version);
    PatchnotesEntry(
      title := content.title,
      time := record.time,
      version := record.id,
      versionType := raw.versionType,
      image := Image(content.image.title, ImageUrl(content.image.url)),
      body := content.body,
      id := raw.id)
  }

  /** When the manifest lists the raw entry's version, the entry carries exactly the first
      matching record's id and time. */
  lemma ResolveHit(raw: RawPatchnotesEntry, meta: PistonMeta, content: LauncherContentEntry, k: nat)
    requires k < |meta.versions| && meta.versions[k].id == raw.version
    requires forall j :: 0 <= j < k ==> meta.versions[j].id != raw.version
    ensures Resolve(raw, meta, content).version == raw.version
    ensures Resolve(raw, meta, content).time == meta.versions[k].time
  {
    FindVersionIsFirstMatch(meta.versions, raw.version, k);
  }

  /** When the manifest does not list the raw entry's version, the entry's version and time
      are both empty: the lookup miss degrades instead of failing. */
  lemma ResolveMiss(raw: RawPatchnotesEntry, meta: PistonMeta, content: LauncherContentEntry)
    requires forall k :: 0 <= k < |meta.versions| ==> meta.versions[k].id != raw.version
    ensures Resolve(raw, meta, content).version == ""
    ensures Resolve(raw, meta, content).time == ""
  {
  }
}
