/** A worked request: one index entry for version "1.20" whose version the manifest lists. */
module Scenario {
  import opened Patchnotes
  import opened FeedBuilder
  import opened Handler

  const RAW: RawPatchnotesEntry :=
    RawPatchnotesEntry("T", "1.20", Release, Image("I", "/img/x.png"), "x.json", "a1")
  const RECORD: PistonMetaVersion :=
    PistonMetaVersion("1.20", "release", "", "2023-06-07T00:00:00Z", "", "", 1)
  const ARTICLE: LauncherContentEntry :=
    LauncherContentEntry("Real Title", "1.20", "release", Image("I", "/img/x.png"), "<p>hi</p>", "a1")

  /** The item built for that entry takes its title from the article, its date from the
      manifest record, its link from the version, and its image URL from the launcher
      base followed directly by the article's image path. */
  lemma ScenarioItem(latest: Latest)
    ensures EntryItem(RAW, PistonMeta(latest, [RECORD]), url => ARTICLE) ==
      FeedItem(
        "Real Title",
        "a1",
        "https://quiltmc.org/en/mc-patchnotes/#1.20",
        "<img src=\"" + "https://launchercontent.mojang.com/img/x.png" + "\" alt=\"" + "Real Title" + "\">" + "<p>hi</p>",
        "2023-06-07T00:00:00Z")
  {
  }
}
