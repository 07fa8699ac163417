/**
 * The links editor of src/app/account/links/page.tsx. The page keeps a dialog
 * with four pieces of state. Picking a platform tile fills the dialog. Saving
 * appends a link, and removing filters one out; both hand the new list to
 * `updateProfile`.
 */
module Links {
  import opened Wrappers
  import opened Types
  import opened Platforms

  /** The page's four pieces of state. */
  datatype Dialog = Dialog(isOpen: bool, selectedPlatform: string, customIcon: string, url: string)

  /** The state when the page mounts, and again after a save. */
  const INITIAL: Dialog := Dialog(false, "", "", "")

  /** A platform tile was clicked: select it, take its glyph, open the dialog; the URL typed so far stays. */
  function AddLink(d: Dialog, platform: string, icon: string): (r: Dialog)
    ensures r.isOpen && r.selectedPlatform == platform && r.customIcon == icon
    ensures r.url == d.url
  {
    d.(isOpen := true, selectedPlatform := platform, customIcon := icon)
  }

  /** The URL field changed. */
  function SetUrl(d: Dialog, url: string): Dialog {
    d.(url := url)
  }

  /** The icon field changed; it is rendered, and so can change, only for 'Custom URL'. */
  function SetIcon(d: Dialog, icon: string): Dialog {
    if d.selectedPlatform == CUSTOM_URL then d.(customIcon := icon) else d
  }

  /** The dialog reported an open/close change (closing it keeps what was typed). */
  function SetOpen(d: Dialog, open: bool): Dialog {
    d.(isOpen := open)
  }

  /**
   * The save button. With no URL nothing happens. Otherwise it builds a link
   * from the dialog and `id`, the random identifier passed in. The list it
   * hands to `updateProfile` is the old list with that link at the end, and
   * the dialog is reset.
   */
  function SaveLink(d: Dialog, links: seq<SocialLink>, id: string): (r: (Dialog, Option<seq<SocialLink>>))
    ensures r.1.None? <==> d.url == ""
    ensures r.1.None? ==> r.0 == d
    ensures r.1.Some? ==>
      && r.0 == INITIAL
      && |r.1.value| == |links| + 1
      && r.1.value[..|links|] == links
      && r.1.value[|links|] == SocialLink(id, d.selectedPlatform, d.url, d.customIcon)
  {
    if d.url == "" then (d, None)
    else (INITIAL, Some(links + [SocialLink(id, d.selectedPlatform, d.url, d.customIcon)]))
  }

  /** The ids of a link list. */
  function Ids(links: seq<SocialLink>): (ids: set<string>)
    ensures forall l :: l in links ==> l.id in ids
    ensures forall id :: id in ids ==> exists l :: l in links && l.id == id
  {
    set l | l in links :: l.id
  }

  /** `removeLink`: the links whose id differs, in their order. */
  function RemoveLink(links: seq<SocialLink>, id: string): (r: seq<SocialLink>)
    ensures forall l :: l in r <==> l in links && l.id != id
    ensures |r| <= |links|
    ensures |r| == |links| <==> id !in Ids(links)
  {
    if |links| == 0 then []
    else if links[0].id == id then RemoveLink(links[1..], id)
    else [links[0]] + RemoveLink(links[1..], id)
  }

  /** Removing distributes over concatenation, so it keeps the relative order of what stays. */
  lemma {:induction false} RemoveAppend(a: seq<SocialLink>, b: seq<SocialLink>, id: string)
    ensures RemoveLink(a + b, id) == RemoveLink(a, id) + RemoveLink(b, id)
    decreases |a|
  {
    if |a| > 0 {
      assert (a + b)[1..] == a[1..] + b;
      RemoveAppend(a[1..], b, id);
    } else {
      assert a + b == b;
    }
  }

  /** Removing an id that no link carries changes nothing. */
  lemma {:induction false} RemoveAbsent(links: seq<SocialLink>, id: string)
    requires id !in Ids(links)
    ensures RemoveLink(links, id) == links
    decreases |links|
  {
    if |links| > 0 {
      assert links[1..] + [] == links[1..];
      assert Ids(links[1..]) <= Ids(links);
      RemoveAbsent(links[1..], id);
      assert [links[0]] + links[1..] == links;
    }
  }

  /** Removing twice is removing once. */
  lemma RemoveIdempotent(links: seq<SocialLink>, id: string)
    ensures RemoveLink(RemoveLink(links, id), id) == RemoveLink(links, id)
  {
    RemoveAbsent(RemoveLink(links, id), id);
  }

  /** Saving a link under a fresh id and then removing that id gives back the list as it was. */
  lemma SaveThenRemove(d: Dialog, links: seq<SocialLink>, id: string)
    requires d.url != "" && id !in Ids(links)
    ensures RemoveLink(SaveLink(d, links, id).1.value, id) == links
  {
    var saved := SocialLink(id, d.selectedPlatform, d.url, d.customIcon);
    RemoveAppend(links, [saved], id);
    RemoveAbsent(links, id);
    assert RemoveLink([saved], id) == [];
  }

  /** No two links of a list share an id: the list's React keys are unique. */
  predicate DistinctIds(links: seq<SocialLink>) {
    forall i, j :: 0 <= i < j < |links| ==> links[i].id != links[j].id
  }

  /** Removing keeps ids distinct. */
  lemma {:induction false} RemoveKeepsDistinct(links: seq<SocialLink>, id: string)
    requires DistinctIds(links)
    ensures DistinctIds(RemoveLink(links, id))
    decreases |links|
  {
    if |links| > 0 {
      var rest := RemoveLink(links[1..], id);
      RemoveKeepsDistinct(links[1..], id);
      if links[0].id != id {
        forall l | l in rest ensures l.id != links[0].id {
          var k :| 1 <= k < |links| && links[k] == l;
        }
      }
    }
  }

  /** Saving under an id no link carries keeps ids distinct. */
  lemma SaveKeepsDistinct(d: Dialog, links: seq<SocialLink>, id: string)
    requires DistinctIds(links) && id !in Ids(links)
    ensures SaveLink(d, links, id).1.Some? ==> DistinctIds(SaveLink(d, links, id).1.value)
  {
    if d.url != "" {
      var r := SaveLink(d, links, id).1.value;
      forall i, j | 0 <= i < j < |r| ensures r[i].id != r[j].id {
        if j == |links| {
          assert r[i] == links[i];
        } else {
          assert r[i] == links[i] && r[j] == links[j];
        }
      }
    }
  }

  /** `icon` is the catalogue glyph of the platform named `name`, unless that platform is 'Custom URL' or there is none. */
  predicate CatalogueIcon(name: string, icon: string) {
    forall i :: 0 <= i < |SOCIAL_PLATFORMS| && SOCIAL_PLATFORMS[i].name == name && name != CUSTOM_URL ==>
      icon == SOCIAL_PLATFORMS[i].icon
  }

  /** Every link of a list carries the glyph of its platform, except custom links. */
  predicate LinkIconsFollowCatalogue(links: seq<SocialLink>) {
    forall k :: 0 <= k < |links| ==> CatalogueIcon(links[k].platform, links[k].icon)
  }

  /** What the user does on the page: click a tile (by its position), type, open or close the dialog, save, remove. */
  datatype Event =
    | Pick(index: int)
    | TypeUrl(url: string)
    | TypeIcon(icon: string)
    | OpenChange(open: bool)
    | Save(id: string)
    | Remove(id: string)

  /** The dialog and the list as the page shows it: the user's links after the optimistic merge. */
  datatype Page = Page(dialog: Dialog, links: seq<SocialLink>)

  predicate Tiles(es: seq<Event>) {
    forall k :: 0 <= k < |es| && es[k].Pick? ==> 0 <= es[k].index < |SOCIAL_PLATFORMS|
  }

  function Step(p: Page, e: Event): Page
    requires e.Pick? ==> 0 <= e.index < |SOCIAL_PLATFORMS|
  {
    match e
    case Pick(i) => p.(dialog := AddLink(p.dialog, SOCIAL_PLATFORMS[i].name, SOCIAL_PLATFORMS[i].icon))
    case TypeUrl(url) => p.(dialog := SetUrl(p.dialog, url))
    case TypeIcon(icon) => p.(dialog := SetIcon(p.dialog, icon))
    case OpenChange(open) => p.(dialog := SetOpen(p.dialog, open))
    case Save(id) =>
      var (d', links') := SaveLink(p.dialog, p.links, id);
      Page(d', if links'.Some? then links'.value else p.links)
    case Remove(id) => p.(links := RemoveLink(p.links, id))
  }

  function Run(p: Page, es: seq<Event>): Page
    requires Tiles(es)
    decreases |es|
  {
    if |es| == 0 then p else Run(Step(p, es[0]), es[1..])
  }

  /** The page's icon invariant: the dialog's glyph, and every listed link's, follows the catalogue. */
  predicate IconsFollowCatalogue(p: Page) {
    CatalogueIcon(p.dialog.selectedPlatform, p.dialog.customIcon) && LinkIconsFollowCatalogue(p.links)
  }

  /** The page starts in the invariant whenever the stored links satisfy it. */
  lemma InitialFollowsCatalogue(links: seq<SocialLink>)
    requires LinkIconsFollowCatalogue(links)
    ensures IconsFollowCatalogue(Page(INITIAL, links))
  {
    PlatformsNamed();
  }

  /** One event keeps the icon invariant: picking a tile selects exactly one platform, since names are distinct. */
  lemma StepFollowsCatalogue(p: Page, e: Event)
    requires e.Pick? ==> 0 <= e.index < |SOCIAL_PLATFORMS|
    requires IconsFollowCatalogue(p)
    ensures IconsFollowCatalogue(Step(p, e))
  {
    match e
    case Pick(i) =>
      PlatformNamesDistinct();
    case Save(id) =>
      PlatformsNamed();
      var links' := Step(p, e).links;
      if p.dialog.url != "" {
        forall k | 0 <= k < |links'| ensures CatalogueIcon(links'[k].platform, links'[k].icon) {
          if k < |p.links| {
            assert links'[k] == p.links[k];
          }
        }
      }
    case Remove(id) =>
      var links' := RemoveLink(p.links, id);
      forall k | 0 <= k < |links'| ensures CatalogueIcon(links'[k].platform, links'[k].icon) {
        assert links'[k] in p.links;
      }
    case _ =>
  }

  /** From links that follow the catalogue, whatever the user does, every link for a catalogue platform other than 'Custom URL' bears that platform's glyph. */
  lemma {:induction false} RunFollowsCatalogue(p: Page, es: seq<Event>)
    requires Tiles(es) && IconsFollowCatalogue(p)
    ensures IconsFollowCatalogue(Run(p, es))
    decreases |es|
  {
    if |es| > 0 {
      StepFollowsCatalogue(p, es[0]);
      assert Tiles(es[1..]) by {
        forall k | 0 <= k < |es| - 1 && es[1..][k].Pick? ensures 0 <= es[1..][k].index < |SOCIAL_PLATFORMS| {
          assert es[1..][k] == es[k + 1];
        }
      }
      RunFollowsCatalogue(Step(p, es[0]), es[1..]);
    }
  }

  /** The icon field is live for exactly one tile, the last one. */
  lemma IconEditableOnlyForCustom(i: int, icon: string)
    requires 0 <= i < |SOCIAL_PLATFORMS|
    ensures var d := AddLink(INITIAL, SOCIAL_PLATFORMS[i].name, SOCIAL_PLATFORMS[i].icon);
      SetIcon(d, icon) != d ==> i == |SOCIAL_PLATFORMS| - 1
  {
    CustomUrlIsUnique();
  }
}
