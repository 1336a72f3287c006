/** Section and theme detection of the home page (App.tsx:76-109, 160-183): the
    registry of tagged sections and what one IntersectionObserver callback does with
    the entries it is handed. */
module Sections {
  import opened Wrappers
  import opened Router

  datatype Theme = Light | Dark

  /** A home-page section as tagged in the markup: its `data-section-name` and
      `data-theme`. */
  datatype Section = Section(name: string, theme: Theme)

  /** The seven tagged home sections, top to bottom (App.tsx:162-180). */
  const HomeSections: seq<Section> := [
    Section("The Beginning", Dark),
    Section("Spring Collection", Light),
    Section("Our Philosophy", Light),
    Section("Voices", Light),
    Section("Archive", Light),
    Section("Join Us", Dark),
    Section("Connect", Dark)
  ]

  /** What the callback reads from one observer entry. `sectionName` is the
      `data-section-name` attribute, with "" standing for both a missing and an
      empty attribute (both are falsy); `sectionTheme` is `data-theme`, absent
      when the attribute is missing or empty. */
  datatype Entry = Entry(isIntersecting: bool, sectionName: string, sectionTheme: Option<Theme>)

  /** The views for which the effect forces the light theme and attaches no
      observer (App.tsx:79). */
  predicate ForcesLight(v: View)
  {
    v == Collection || v == About || v == Product
  }

  /** An entry that makes the callback set the active section (App.tsx:92, 96). */
  predicate SetsName(e: Entry)
  {
    e.isIntersecting && e.sectionName != ""
  }

  /** An entry that makes the callback set the theme (App.tsx:92, 97). */
  predicate SetsTheme(e: Entry)
  {
    e.isIntersecting && e.sectionTheme.Some?
  }

  /** The active section after the entries are handled in order, starting from
      `current`: either `current` or the name one of the entries carries. */
  function NameAfter(entries: seq<Entry>, current: string): (r: string)
    ensures r == current || exists k :: 0 <= k < |entries| && SetsName(entries[k]) && entries[k].sectionName == r
  {
    if entries == [] then current
    else
      var e := entries[|entries| - 1];
      if SetsName(e) then e.sectionName
      else
        var init := entries[..|entries| - 1];
        assert forall k :: 0 <= k < |init| ==> init[k] == entries[k];
        NameAfter(init, current)
  }

  /** The theme after the entries are handled in order, starting from `current`:
      either `current` or the theme one of the entries carries. */
  function ThemeAfter(entries: seq<Entry>, current: Theme): (r: Theme)
    ensures r == current || exists k :: 0 <= k < |entries| && SetsTheme(entries[k]) && entries[k].sectionTheme == Some(r)
  {
    if entries == [] then current
    else
      var e := entries[|entries| - 1];
      if SetsTheme(e) then e.sectionTheme.value
      else
        var init := entries[..|entries| - 1];
        assert forall k :: 0 <= k < |init| ==> init[k] == entries[k];
        ThemeAfter(init, current)
  }

  /** The active section is the name of the last entry that sets one. */
  lemma {:induction false} NameAfterIsLastNamed(entries: seq<Entry>, current: string, k: nat)
    requires k < |entries| && SetsName(entries[k])
    requires forall j :: k < j < |entries| ==> !SetsName(entries[j])
    ensures NameAfter(entries, current) == entries[k].sectionName
  {
    if k < |entries| - 1 {
      var init := entries[..|entries| - 1];
      assert init[k] == entries[k];
      assert forall j :: k < j < |init| ==> init[j] == entries[j];
      NameAfterIsLastNamed(init, current, k);
    }
  }

  /** With no entry that sets a name, the active section stays as it was. */
  lemma {:induction false} NameAfterNoneNamed(entries: seq<Entry>, current: string)
    requires forall j :: 0 <= j < |entries| ==> !SetsName(entries[j])
    ensures NameAfter(entries, current) == current
  {
    if entries != [] {
      var init := entries[..|entries| - 1];
      assert forall j :: 0 <= j < |init| ==> init[j] == entries[j];
      NameAfterNoneNamed(init, current);
    }
  }

  /** The theme is the theme of the last entry that sets one. */
  lemma {:induction false} ThemeAfterIsLastThemed(entries: seq<Entry>, current: Theme, k: nat)
    requires k < |entries| && SetsTheme(entries[k])
    requires forall j :: k < j < |entries| ==> !SetsTheme(entries[j])
    ensures ThemeAfter(entries, current) == entries[k].sectionTheme.value
  {
    if k < |entries| - 1 {
      var init := entries[..|entries| - 1];
      assert init[k] == entries[k];
      assert forall j :: k < j < |init| ==> init[j] == entries[j];
      ThemeAfterIsLastThemed(init, current, k);
    }
  }

  /** With no entry that sets a theme, the theme stays as it was. */
  lemma {:induction false} ThemeAfterNoneThemed(entries: seq<Entry>, current: Theme)
    requires forall j :: 0 <= j < |entries| ==> !SetsTheme(entries[j])
    ensures ThemeAfter(entries, current) == current
  {
    if entries != [] {
      var init := entries[..|entries| - 1];
      assert forall j :: 0 <= j < |init| ==> init[j] == entries[j];
      ThemeAfterNoneThemed(init, current);
    }
  }

  /** The intersecting entries, in order. */
  function Intersecting(entries: seq<Entry>): (r: seq<Entry>)
    ensures |r| <= |entries|
    ensures forall j :: 0 <= j < |r| ==> r[j].isIntersecting
  {
    if entries == [] then []
    else
      var init := Intersecting(entries[..|entries| - 1]);
      var e := entries[|entries| - 1];
      if e.isIntersecting then init + [e] else init
  }

  /** Non-intersecting entries change nothing: dropping them leaves both the
      active section and the theme as they would have been. */
  lemma {:induction false} NonIntersectingIgnored(entries: seq<Entry>, name: string, theme: Theme)
    ensures NameAfter(Intersecting(entries), name) == NameAfter(entries, name)
    ensures ThemeAfter(Intersecting(entries), theme) == ThemeAfter(entries, theme)
  {
    if entries != [] {
      var init := entries[..|entries| - 1];
      var e := entries[|entries| - 1];
      NonIntersectingIgnored(init, name, theme);
      if e.isIntersecting {
        assert (Intersecting(init) + [e])[..|Intersecting(init)|] == Intersecting(init);
      }
    }
  }

  /** Section names are unique within the home page. */
  lemma HomeSectionNamesUnique()
    ensures forall i, j :: 0 <= i < j < |HomeSections| ==> HomeSections[i].name != HomeSections[j].name
  {
  }

  /** The entry the observer reports for a tagged section: its tags, read back as
      the callback reads them. */
  function EntryOf(section: Section, isIntersecting: bool): (e: Entry)
    ensures e.sectionTheme == Some(section.theme)
    ensures SetsName(e) <==> isIntersecting && section.name != ""
  {
    Entry(isIntersecting, section.name, Some(section.theme))
  }

  /** When home section `k` crosses the middle of the viewport on its own, it
      becomes the active section and sets its theme; and since the names are
      unique, the active section then tells which section crossed. */
  lemma CrossingSectionActivates(k: nat, i: nat, name: string, theme: Theme)
    requires k < |HomeSections| && i < |HomeSections|
    ensures NameAfter([EntryOf(HomeSections[k], true)], name) == HomeSections[k].name
    ensures ThemeAfter([EntryOf(HomeSections[k], true)], theme) == HomeSections[k].theme
    ensures (NameAfter([EntryOf(HomeSections[k], true)], name) ==
      NameAfter([EntryOf(HomeSections[i], true)], name)) <==> k == i
  {
    assert HomeSections[k].name != "" && HomeSections[i].name != "";
    if k < i {
      HomeSectionNamesUnique();
    } else if i < k {
      HomeSectionNamesUnique();
    }
  }
}
