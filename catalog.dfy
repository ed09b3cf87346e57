/**
 * The catalog builder: the seven built-in shortcuts followed by the user's
 * shortcuts with their icons resolved, then narrowed by the search term.
 */
module Catalog {
  import opened Types
  import opened Strings

  /** What a tile draws: an icon of the named-icon map, a remote image, or the generic link glyph. */
  datatype IconRef = Named(key: string) | Remote(src: string) | LinkGlyph

  /** What activating a tile does: open a URL in a new tab, or open the settings panel. */
  datatype Action = OpenUrl(url: string) | OpenSettings

  /** One tile of the grid (an `AppItem`). */
  datatype CatalogEntry = CatalogEntry(
    id: string, name: string, icon: IconRef, color: string, action: Action, isCustom: bool)

  function BuiltIn(id: string, name: string, icon: string, color: string, url: string): CatalogEntry {
    CatalogEntry(id, name, Named(icon), color, OpenUrl(url), false)
  }

  /** The fixed shortcuts, in declaration order; the last opens the settings panel instead of a page. */
  function BuiltIns(): (r: seq<CatalogEntry>)
    ensures |r| == 7
    ensures forall i :: 0 <= i < |r| ==> !r[i].isCustom
    ensures forall i :: 0 <= i < |r| ==> (r[i].action.OpenSettings? <==> i == 6)
  {
    [ BuiltIn("chrome", "Chrome", "BrowserIcon", "#2563eb", "https://www.google.com"),
      BuiltIn("roblox", "Roblox", "GameIcon", "#ef4444", "https://www.roblox.com"),
      BuiltIn("minecraft", "Minecraft", "GameIcon", "#10b981", "https://www.minecraft.net"),
      BuiltIn("playstore", "Google Play", "PlayStoreIcon", "#0ea5e9", "https://play.google.com"),
      BuiltIn("colab", "Google Colab", "CodeIcon", "#f97316", "https://colab.research.google.com/"),
      BuiltIn("photos", "Photos", "PhotosIcon", "#ec4899", "https://photos.google.com"),
      CatalogEntry("launcher-settings", "Launcher Settings", Named("SettingsIcon"), "#475569", OpenSettings, false) ]
  }

  /**
   * Icon resolution for a user shortcut, in priority order: a key of the icon
   * map (whose key names are `iconKeys`), then anything starting with "http"
   * as a remote image, then the link glyph. An empty identifier is falsy and
   * gets the link glyph.
   */
  function ResolveIcon(iconKeys: seq<string>, ident: string): (r: IconRef)
    ensures r.Named? <==> ident != "" && ident in iconKeys
    ensures r.Remote? <==> ident !in iconKeys && StartsWith(ident, "http")
    ensures r.Named? ==> r.key == ident
    ensures r.Remote? ==> r.src == ident
  {
    if ident != "" && ident in iconKeys then Named(ident)
    else if ident != "" && StartsWith(ident, "http") then Remote(ident)
    else LinkGlyph
  }

  /** A user shortcut as a tile: it opens its own URL and is marked custom. */
  function CustomEntry(iconKeys: seq<string>, app: StoredApp): (e: CatalogEntry)
    ensures e.isCustom && e.action == OpenUrl(app.url)
    ensures e.id == app.id && e.name == app.name && e.color == app.color
  {
    CatalogEntry(app.id, app.name, ResolveIcon(iconKeys, app.iconIdentifier), app.color, OpenUrl(app.url), true)
  }

  /** One custom tile per shortcut, in list order; none of them opens the settings panel. */
  function MapCustom(iconKeys: seq<string>, apps: seq<StoredApp>): (r: seq<CatalogEntry>)
    ensures |r| == |apps|
    ensures forall i :: 0 <= i < |r| ==> r[i].id == apps[i].id && r[i].name == apps[i].name
    ensures forall e :: e in r ==> e.isCustom && !e.action.OpenSettings?
  {
    seq(|apps|, i requires 0 <= i < |apps| => CustomEntry(iconKeys, apps[i]))
  }

  /** The unfiltered catalog: built-ins first, then the user's shortcuts in list order. */
  function AllApps(iconKeys: seq<string>, apps: seq<StoredApp>): (r: seq<CatalogEntry>)
    ensures |r| == 7 + |apps|
    ensures r[..7] == BuiltIns()
    ensures forall i :: 0 <= i < |apps| ==>
      && r[7 + i].id == apps[i].id && r[7 + i].name == apps[i].name && r[7 + i].color == apps[i].color
      && r[7 + i].action == OpenUrl(apps[i].url) && r[7 + i].isCustom
      && r[7 + i].icon == ResolveIcon(iconKeys, apps[i].iconIdentifier)
  {
    BuiltIns() + MapCustom(iconKeys, apps)
  }

  /** Case-insensitive substring match of the search term against the tile's name. */
  predicate Matches(e: CatalogEntry, term: string) {
    Includes(Lower(e.name), Lower(term))
  }

  /** `filter`: keeps the matching entries, in their original order. */
  function Filter(entries: seq<CatalogEntry>, term: string): (r: seq<CatalogEntry>)
    ensures |r| <= |entries|
    ensures forall e :: e in r <==> e in entries && Matches(e, term)
  {
    if entries == [] then []
    else (if Matches(entries[0], term) then [entries[0]] else []) + Filter(entries[1..], term)
  }

  /** The grid the user sees: the catalog's tiles whose names match, and only those. */
  function FilteredApps(iconKeys: seq<string>, apps: seq<StoredApp>, term: string): (r: seq<CatalogEntry>)
    ensures |r| <= 7 + |apps|
    ensures forall e :: e in r <==> e in AllApps(iconKeys, apps) && Matches(e, term)
  {
    Filter(AllApps(iconKeys, apps), term)
  }

  /** Filtering a concatenation filters each part: relative order is kept. */
  lemma {:induction false} FilterConcat(a: seq<CatalogEntry>, b: seq<CatalogEntry>, term: string)
    ensures Filter(a + b, term) == Filter(a, term) + Filter(b, term)
  {
    if a != [] {
      assert (a + b)[1..] == a[1..] + b;
      FilterConcat(a[1..], b, term);
    } else {
      assert a + b == b;
    }
  }

  /** An entry on its own survives exactly when it matches. */
  lemma FilterSingleton(e: CatalogEntry, term: string)
    ensures Filter([e], term) == if Matches(e, term) then [e] else []
  {
    assert [e][1..] == [];
  }

  /** The empty term matches every name. */
  lemma {:induction false} FilterEmptyTerm(entries: seq<CatalogEntry>)
    ensures Filter(entries, "") == entries
  {
    if entries != [] {
      assert OccursAt(Lower(entries[0].name), Lower(""), 0);
      FilterEmptyTerm(entries[1..]);
    }
  }

  /** Filtering twice by the same term is filtering once. */
  lemma {:induction false} FilterIdempotent(entries: seq<CatalogEntry>, term: string)
    ensures Filter(Filter(entries, term), term) == Filter(entries, term)
  {
    if entries != [] {
      var head := if Matches(entries[0], term) then [entries[0]] else [];
      FilterConcat(head, Filter(entries[1..], term), term);
      FilterIdempotent(entries[1..], term);
      if Matches(entries[0], term) { FilterSingleton(entries[0], term); }
    }
  }

  /** With no search term the grid is the whole catalog: the built-ins, then the user's shortcuts. */
  lemma EmptySearchShowsAll(iconKeys: seq<string>, apps: seq<StoredApp>)
    ensures FilteredApps(iconKeys, apps, "") == AllApps(iconKeys, apps)
    ensures |FilteredApps(iconKeys, apps, "")| == 7 + |apps|
  {
    FilterEmptyTerm(AllApps(iconKeys, apps));
  }

  /** The grid is the matching built-ins followed by the matching user shortcuts. */
  lemma SearchSplits(iconKeys: seq<string>, apps: seq<StoredApp>, term: string)
    ensures FilteredApps(iconKeys, apps, term) == Filter(BuiltIns(), term) + Filter(MapCustom(iconKeys, apps), term)
  {
    FilterConcat(BuiltIns(), MapCustom(iconKeys, apps), term);
  }
}
