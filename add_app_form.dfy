/**
 * The add/edit shortcut form: its fields, the reset performed when it opens,
 * the favicon address derived from the typed URL, and the submission that
 * turns the fields into a `StoredApp`.
 */
module AddAppForm {
  import opened Types
  import opened Strings
  import Catalog

  /** The colour swatches, in display order. */
  const Colors: seq<string> := ["#3b82f6", "#ef4444", "#8b5cf6", "#ec4899", "#f97316", "#10b981",
                                "#22c55e", "#64748b", "#f59e0b", "#06b6d4", "#d946ef", "#14b8a6"]

  /** The icon-map keys offered in the picker: every key except the two editing glyphs. */
  function IconNames(iconKeys: seq<string>): (r: seq<string>)
    ensures forall k :: k in r <==> k in iconKeys && k != "PencilIcon" && k != "TrashIcon"
  {
    if iconKeys == [] then []
    else
      (if iconKeys[0] in ["PencilIcon", "TrashIcon"] then [] else [iconKeys[0]]) + IconNames(iconKeys[1..])
  }

  /** Index `i` holds the first key the picker offers: every earlier key is an editing glyph. */
  predicate FirstOffered(iconKeys: seq<string>, i: int) {
    && 0 <= i < |iconKeys|
    && iconKeys[i] != "PencilIcon" && iconKeys[i] != "TrashIcon"
    && forall j :: 0 <= j < i ==> iconKeys[j] == "PencilIcon" || iconKeys[j] == "TrashIcon"
  }

  /**
   * `iconNames[0]`: the first key in map order other than the editing glyphs.
   * When the picker is empty the source gets `undefined`, which every reader
   * treats like "".
   */
  function FirstIcon(iconKeys: seq<string>): (r: string)
    ensures IconNames(iconKeys) == [] ==> r == ""
    ensures IconNames(iconKeys) != [] ==> r in IconNames(iconKeys) && exists i :: FirstOffered(iconKeys, i) && r == iconKeys[i]
  {
    if iconKeys == [] then ""
    else if iconKeys[0] == "PencilIcon" || iconKeys[0] == "TrashIcon" then
      var r := FirstIcon(iconKeys[1..]);
      assert IconNames(iconKeys) != [] ==> exists i :: FirstOffered(iconKeys, i) && r == iconKeys[i] by {
        if IconNames(iconKeys) != [] {
          var k := IconNames(iconKeys)[0];
          assert k in iconKeys[1..];
          assert k in IconNames(iconKeys[1..]);
          var i :| FirstOffered(iconKeys[1..], i) && r == iconKeys[1..][i];
          assert FirstOffered(iconKeys, i + 1);
        }
      }
      r
    else
      assert FirstOffered(iconKeys, 0);
      iconKeys[0]
  }

  predicate HasScheme(url: string) {
    StartsWith(url, "http://") || StartsWith(url, "https://")
  }

  /** The URL stored on save: unchanged when it carries a scheme, otherwise "https://" in front. */
  function NormalizeUrl(url: string): (r: string)
    ensures HasScheme(r)
    ensures HasScheme(url) ==> r == url
    ensures !HasScheme(url) ==> r == "https://" + url
  {
    if HasScheme(url) then url
    else
      assert ("https://" + url)[..8] == "https://";
      "https://" + url
  }

  lemma NormalizeUrlIdempotent(url: string)
    ensures NormalizeUrl(NormalizeUrl(url)) == NormalizeUrl(url)
  {
  }

  /**
   * The address handed to the URL parser when deriving the favicon: anything
   * starting with "http" counts as schemed. It always starts with "http", and
   * for a URL with a scheme it is the URL the save step stores.
   */
  function FaviconTarget(url: string): (r: string)
    ensures StartsWith(r, "http")
    ensures StartsWith(url, "http") ==> r == url
    ensures !StartsWith(url, "http") ==> r == "https://" + url
    ensures HasScheme(url) ==> r == url && r == NormalizeUrl(url)
  {
    var p := "https://";
    assert p[0] == 'h' && p[1] == 't' && p[2] == 't' && p[3] == 'p';
    if StartsWith(url, "http") then url
    else
      assert (p + url)[..4] == p[..4];
      p + url
  }

  /**
   * The favicon step and the save step disagree on what is schemed: a URL
   * that starts with "http" but not with "http://" or "https://" goes
   * unprefixed to the URL parser, while the save step stores it with
   * "https://" in front.
   */
  lemma FaviconTargetMayLackScheme(url: string)
    requires StartsWith(url, "http") && !HasScheme(url)
    ensures FaviconTarget(url) == url && !HasScheme(FaviconTarget(url))
    ensures NormalizeUrl(url) == "https://" + url && NormalizeUrl(url) != FaviconTarget(url)
  {
    assert |NormalizeUrl(url)| == |url| + 8;
  }

  /** "httpbin.org" is such a URL. */
  lemma HttpbinLacksScheme()
    ensures StartsWith("httpbin.org", "http") && !HasScheme("httpbin.org")
  {
    var u := "httpbin.org";
    assert u[0] == 'h' && u[1] == 't' && u[2] == 't' && u[3] == 'p';
    assert u[..4] == "http";
    assert u[4] != "http://"[4] && u[4] != "https://"[4];
  }

  /** The favicon service address for a host name; it is always a web address. */
  function FaviconAddress(host: string): (f: string)
    ensures StartsWith(f, "http")
  {
    var prefix := "https://www.google.com/s2/favicons?domain=";
    var f := prefix + (host + "&sz=128");
    assert prefix[0] == 'h' && prefix[1] == 't' && prefix[2] == 't' && prefix[3] == 'p';
    assert prefix[..4] == "http";
    assert f[..4] == prefix[..4];
    f
  }

  /**
   * The favicon address once the typing pause has elapsed. `hostOf` stands for
   * `new URL(...).hostname`: None when the parser throws.
   */
  function FaviconUrl(useFavicon: bool, url: string, hostOf: string -> Option<string>): (r: Option<string>)
    ensures !useFavicon || Trim(url) == "" ==> r == None
    ensures r.Some? ==> var host := hostOf(FaviconTarget(url));
      host.Some? && host.value != "" && r.value == FaviconAddress(host.value)
    ensures useFavicon && Trim(url) != "" ==> var host := hostOf(FaviconTarget(url));
      host.Some? && host.value != "" ==> r == Some(FaviconAddress(host.value))
  {
    if !useFavicon || Trim(url) == "" then None
    else match hostOf(FaviconTarget(url))
      case None => None
      case Some(host) => if host == "" then None else Some(FaviconAddress(host))
  }

  /** The form's fields at the moment of submission. */
  datatype Fields = Fields(
    name: string, url: string, selectedIcon: string, selectedColor: string,
    useFavicon: bool, faviconUrl: Option<string>)

  /** The icon identifier saved: the favicon address when that mode is on and an address is known, else the picked icon. */
  function ChosenIcon(f: Fields): (ident: string)
    ensures f.useFavicon && f.faviconUrl.Some? && f.faviconUrl.value != "" ==> ident == f.faviconUrl.value
    ensures !(f.useFavicon && f.faviconUrl.Some? && f.faviconUrl.value != "") ==> ident == f.selectedIcon
  {
    if f.useFavicon && f.faviconUrl.Some? && f.faviconUrl.value != "" then f.faviconUrl.value else f.selectedIcon
  }

  /** The id saved: the edited shortcut's id when it has one, else the fresh timestamp id. */
  function ChosenId(appToEdit: Option<StoredApp>, freshId: string): (id: string)
    ensures appToEdit.Some? && appToEdit.value.id != "" ==> id == appToEdit.value.id
    ensures !(appToEdit.Some? && appToEdit.value.id != "") ==> id == freshId
  {
    if appToEdit.Some? && appToEdit.value.id != "" then appToEdit.value.id else freshId
  }

  /**
   * `handleSubmit`: no shortcut when the name or the URL is blank; otherwise
   * the name and colour as entered, the normalised URL, and the chosen icon
   * and id. `freshId` stands for `Date.now().toString()`.
   */
  function Submit(f: Fields, appToEdit: Option<StoredApp>, freshId: string): (r: Option<StoredApp>)
    ensures r.None? <==> IsBlank(f.name) || IsBlank(f.url)
    ensures r.Some? ==> r.value.name == f.name && r.value.color == f.selectedColor
    ensures r.Some? ==> HasScheme(r.value.url) && (HasScheme(f.url) ==> r.value.url == f.url)
    ensures r.Some? && !HasScheme(f.url) ==> r.value.url == "https://" + f.url
    ensures r.Some? ==> r.value.id == ChosenId(appToEdit, freshId) && r.value.iconIdentifier == ChosenIcon(f)
  {
    TrimEmptyIffBlank(f.name);
    TrimEmptyIffBlank(f.url);
    if Trim(f.name) == "" || Trim(f.url) == "" then None
    else Some(StoredApp(ChosenId(appToEdit, freshId), f.name, NormalizeUrl(f.url), ChosenIcon(f), f.selectedColor))
  }

  /** Editing keeps the shortcut's identity. */
  lemma EditKeepsId(f: Fields, app: StoredApp, freshId: string)
    requires !IsBlank(f.name) && !IsBlank(f.url) && app.id != ""
    ensures Submit(f, Some(app), freshId).Some? && Submit(f, Some(app), freshId).value.id == app.id
  {
  }

  /**
   * A shortcut saved with a derived favicon shows that image in the catalog,
   * unless its address happens to be an icon-map key.
   */
  lemma FaviconShowsAsRemote(iconKeys: seq<string>, f: Fields, hostOf: string -> Option<string>,
                             appToEdit: Option<StoredApp>, freshId: string)
    requires f.faviconUrl == FaviconUrl(f.useFavicon, f.url, hostOf) && f.faviconUrl.Some?
    requires !IsBlank(f.name) && f.faviconUrl.value !in iconKeys
    ensures Submit(f, appToEdit, freshId).Some?
    ensures Catalog.ResolveIcon(iconKeys, Submit(f, appToEdit, freshId).value.iconIdentifier)
            == Catalog.Remote(f.faviconUrl.value)
  {
    TrimEmptyIffBlank(f.url);
  }

  /** The form, whose fields the inputs, the pickers and the open/reset step overwrite. */
  class Form {
    /** The key names of the icon map. */
    const iconKeys: seq<string>
    var name: string
    var url: string
    var selectedIcon: string
    var selectedColor: string
    var useFavicon: bool
    var faviconUrl: Option<string>

    /** The initial field values; `iconKeys` are the key names of the icon map. */
    constructor (iconKeys: seq<string>)
      ensures this.iconKeys == iconKeys
      ensures name == "" && url == "" && selectedIcon == FirstIcon(iconKeys) && selectedColor == Colors[0]
      ensures useFavicon && faviconUrl == None
    {
      this.iconKeys := iconKeys;
      name, url := "", "";
      selectedIcon := FirstIcon(iconKeys);
      selectedColor := Colors[0];
      useFavicon, faviconUrl := true, None;
    }

    /**
     * Opening the form: for an edit, copy name, URL and colour, and use the
     * favicon exactly when the stored icon is a web address (then the picker
     * falls back to its first icon); for an add, reset everything.
     */
    method Open(appToEdit: Option<StoredApp>)
      modifies this`name, this`url, this`selectedIcon, this`selectedColor, this`useFavicon
      ensures appToEdit.Some? ==>
        && name == appToEdit.value.name && url == appToEdit.value.url
        && selectedColor == appToEdit.value.color
        && (useFavicon <==> StartsWith(appToEdit.value.iconIdentifier, "http"))
        && selectedIcon == if useFavicon then FirstIcon(iconKeys) else appToEdit.value.iconIdentifier
      ensures appToEdit.None? ==>
        name == "" && url == "" && selectedIcon == FirstIcon(iconKeys) && selectedColor == Colors[0] && useFavicon
    {
      match appToEdit
      case Some(app) =>
        name, url, selectedColor := app.name, app.url, app.color;
        var isUrlIcon := StartsWith(app.iconIdentifier, "http");
        useFavicon := isUrlIcon;
        selectedIcon := if isUrlIcon then FirstIcon(iconKeys) else app.iconIdentifier;
      case None =>
        name, url := "", "";
        selectedIcon := FirstIcon(iconKeys);
        selectedColor := Colors[0];
        useFavicon := true;
    }

    method SetName(s: string)
      modifies this`name
      ensures name == s
    {
      name := s;
    }

    method SetUrl(s: string)
      modifies this`url
      ensures url == s
    {
      url := s;
    }

    method ToggleFavicon()
      modifies this`useFavicon
      ensures useFavicon == !old(useFavicon)
    {
      useFavicon := !useFavicon;
    }

    /** The picker only offers the listed icons. */
    method SelectIcon(k: string)
      requires k in IconNames(iconKeys)
      modifies this`selectedIcon
      ensures selectedIcon == k && selectedIcon != "PencilIcon" && selectedIcon != "TrashIcon"
    {
      selectedIcon := k;
    }

    method SelectColor(c: string)
      requires c in Colors
      modifies this`selectedColor
      ensures selectedColor == c
    {
      selectedColor := c;
    }

    /** The favicon effect once it has run for the current URL and mode. */
    method SettleFavicon(hostOf: string -> Option<string>)
      modifies this`faviconUrl
      ensures faviconUrl == FaviconUrl(useFavicon, url, hostOf)
      ensures faviconUrl.Some? ==> useFavicon && StartsWith(faviconUrl.value, "http")
    {
      faviconUrl := FaviconUrl(useFavicon, url, hostOf);
    }

    function CurrentFields(): Fields
      reads this
    {
      Fields(name, url, selectedIcon, selectedColor, useFavicon, faviconUrl)
    }

    /** The submit button is disabled exactly when submitting would produce nothing. */
    predicate CanSubmit()
      reads this
      ensures CanSubmit() <==> !IsBlank(name) && !IsBlank(url)
    {
      TrimEmptyIffBlank(name);
      TrimEmptyIffBlank(url);
      !(Trim(name) == "" || Trim(url) == "")
    }

    method Submission(appToEdit: Option<StoredApp>, freshId: string) returns (r: Option<StoredApp>)
      ensures r == Submit(CurrentFields(), appToEdit, freshId)
      ensures r.Some? <==> CanSubmit()
    {
      TrimEmptyIffBlank(name);
      TrimEmptyIffBlank(url);
      r := Submit(CurrentFields(), appToEdit, freshId);
    }
  }
}
