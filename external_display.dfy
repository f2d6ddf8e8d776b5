// connecteddevice/display/ExternalDisplayPreferenceFragment: the fixed preference descriptions
// (PrefBasics), the PrefRefresh pass that reuses or drops the children of a screen, and the
// clamp of a display's rotation.

module ExternalDisplay {
  import opened Wrappers
  import JavaInt

  /** A Preference object; only the properties the fragment sets are modelled. */
  class Preference {
    var key: Option<string>
    var order: int
    var title: Option<string>
    var persistent: bool

    /** hasKey: TextUtils.isEmpty is false for the key, so an empty key counts as no key. */
    predicate HasKey()
      reads this
    {
      key.Some? && key.value != ""
    }

    /** A new preference has no key, the default order and is persistent. */
    constructor ()
      ensures key == None && order == DefaultOrder && title == None && persistent
    {
      key := None;
      order := DefaultOrder;
      title := None;
      persistent := true;
    }
  }

  /** Preference.DEFAULT_ORDER (Integer.MAX_VALUE). */
  const DefaultOrder: int := JavaInt.IntMax

  /** A PreferenceGroup: its direct children, in insertion order. */
  class PreferenceGroup {
    var children: seq<Preference>

    constructor (children: seq<Preference>)
      ensures this.children == children
    {
      this.children := children;
    }

    /** addPreference: a child that is already present is kept once; a new one is appended. */
    method AddPreference(pref: Preference) returns (added: bool)
      modifies this
      ensures added
      ensures children == if pref in old(children) then old(children) else old(children) + [pref]
    {
      if pref !in children {
        children := children + [pref];
      }
      added := true;
    }

    /** removePreference: the child leaves the group; the call reports whether it was there. */
    method RemovePreference(pref: Preference) returns (removed: bool)
      modifies this
      ensures removed == (pref in old(children))
      ensures children == Keep(old(children), {pref})
    {
      removed := pref in children;
      children := Keep(children, {pref});
    }
  }

  /** The preferences of `s` that are not in `removed`, in their order. */
  function Keep(s: seq<Preference>, removed: set<Preference>): (r: seq<Preference>)
    ensures forall i :: 0 <= i < |r| ==> r[i] in s && r[i] !in removed
    ensures forall i :: 0 <= i < |s| && s[i] !in removed ==> s[i] in r
    ensures |r| <= |s|
  {
    if s == [] then []
    else (if s[0] in removed then [] else [s[0]]) + Keep(s[1..], removed)
  }

  lemma {:induction false} KeepNothing(s: seq<Preference>)
    ensures Keep(s, {}) == s
  {
    if s != [] {
      KeepNothing(s[1..]);
    }
  }

  lemma {:induction false} KeepTwice(s: seq<Preference>, a: set<Preference>, b: set<Preference>)
    ensures Keep(Keep(s, a), b) == Keep(s, a + b)
  {
    if s != [] {
      KeepTwice(s[1..], a, b);
      if s[0] in a {
        assert Keep(s, a) == Keep(s[1..], a);
      } else {
        assert Keep(s, a) == [s[0]] + Keep(s[1..], a);
        assert Keep(s, a)[1..] == Keep(s[1..], a);
      }
    }
  }

  /** The fixed descriptions of the screen's preferences: order, key and title resource. */
  datatype PrefBasics =
    | DisplayTopology | Mirror | ExternalDisplayUse | Illustration | ExternalDisplaySize
    | ExternalDisplayRotation | ExternalDisplayResolution | BuiltinDisplayList
    | ExternalDisplayList | Footer
  {
    function Order(): int
    {
      match this
      case DisplayTopology => 10
      case Mirror => 20
      case ExternalDisplayUse => 30
      case Illustration => 35
      case ExternalDisplaySize => 40
      case ExternalDisplayRotation => 50
      case ExternalDisplayResolution => 60
      case BuiltinDisplayList => 70
      case ExternalDisplayList => -1
      case Footer => 90
    }

    function Key(): string
    {
      match this
      case DisplayTopology => "display_topology_preference"
      case Mirror => "mirror_preference"
      case ExternalDisplayUse => "external_display_use_preference"
      case Illustration => "external_display_illustration"
      case ExternalDisplaySize => "external_display_size"
      case ExternalDisplayRotation => "external_display_rotation"
      case ExternalDisplayResolution => "external_display_resolution"
      case BuiltinDisplayList => "builtin_display_list_preference"
      case ExternalDisplayList => "external_display_list"
      case Footer => "footer_preference"
    }

    /** The title string resource, by name; None where the source passes null. */
    function TitleResource(): Option<string>
    {
      match this
      case Mirror => Some("external_display_mirroring_title")
      case ExternalDisplayUse => Some("external_display_use_title")
      case ExternalDisplaySize => Some("screen_zoom_title")
      case ExternalDisplayRotation => Some("external_display_rotation")
      case ExternalDisplayResolution => Some("external_display_resolution_settings_title")
      case BuiltinDisplayList => Some("builtin_display_settings_category")
      case _ => None
    }

    /**
     * keyForNth: the key, an underscore and the decimal position, so that the position can be
     * read back from the key.
     */
    function KeyForNth(nth: int): (r: string)
      requires JavaInt.IsInt32(nth)
      ensures |r| > |Key()| + 1 && r[..|Key()|] == Key() && r[|Key()|] == '_'
      ensures JavaInt.ParseInt(r[|Key()| + 1..]) == Some(nth)
    {
      var r := Key() + "_" + JavaInt.IntToString(nth);
      JavaInt.ParseIntOfIntToString(nth);
      assert r[|Key()| + 1..] == JavaInt.IntToString(nth);
      r
    }

    /**
     * apply: sets the order unless the description has none (-1), the title when there is one,
     * the key (suffixed by `nth` when given) and turns persistence off.
     */
    method Apply(preference: Preference, nth: Option<int>)
      requires nth.Some? ==> JavaInt.IsInt32(nth.value)
      modifies preference
      ensures preference.order == if Order() != -1 then Order() else old(preference.order)
      ensures preference.title == if TitleResource().Some? then TitleResource() else old(preference.title)
      ensures preference.key == Some(if nth.None? then Key() else KeyForNth(nth.value))
      ensures !preference.persistent
    {
      if Order() != -1 {
        preference.order := Order();
      }
      if TitleResource().Some? {
        preference.title := TitleResource();
      }
      preference.key := Some(if nth.None? then Key() else KeyForNth(nth.value));
      preference.persistent := false;
    }
  }

  /** Per-display keys never collide: different positions give different keys. */
  lemma KeyForNthInjective(b: PrefBasics, m: int, n: int)
    requires JavaInt.IsInt32(m) && JavaInt.IsInt32(n) && m != n
    ensures b.KeyForNth(m) != b.KeyForNth(n)
  {
  }

  /** Every description with an order lists before the footer, and the orders are distinct. */
  lemma FooterIsLast(b: PrefBasics)
    requires b != Footer && b.Order() != -1
    ensures b.Order() < Footer.Order()
    ensures forall c: PrefBasics :: c != b && c.Order() != -1 ==> c.Order() != b.Order()
  {
  }

  /** The order a new per-display category gets: after the built-in display link, by position. */
  function NewCategoryOrder(position: nat): (r: int)
    ensures r > BuiltinDisplayList.Order()
    ensures position < 19 ==> r < Footer.Order()
  {
    BuiltinDisplayList.Order() + 1 + position
  }

  /** V1 helper preferences are shown only without the topology pane and for at most one display. */
  function IncludeV1Helpers(topologyPaneEnabled: bool, displayCount: nat): (r: bool)
    ensures r ==> !topologyPaneEnabled
    ensures r <==> !topologyPaneEnabled && displayCount < 2
  {
    !topologyPaneEnabled && displayCount <= 1
  }

  /**
   * getDisplayRotation: the user rotation reported through the injector, clamped to the four
   * rotations 0..3; 0 when there is no injector.
   */
  function GetDisplayRotation(injectorRotation: Option<int>): (r: int)
    ensures 0 <= r <= 3
    ensures injectorRotation.None? ==> r == 0
    ensures injectorRotation.Some? && 0 <= injectorRotation.value <= 3 ==> r == injectorRotation.value
    ensures injectorRotation.Some? && injectorRotation.value < 0 ==> r == 0
    ensures injectorRotation.Some? && injectorRotation.value > 3 ==> r == 3
  {
    if injectorRotation.None? then 0
    else
      var atLeastZero := if injectorRotation.value > 0 then injectorRotation.value else 0;
      if atLeastZero < 3 then atLeastZero else 3
  }

  /**
   * PrefRefresh: one pass of rebuilding the screen. Children with a key start out "unused";
   * each preference the pass adds back is either an unused one (kept where it is) or a new one
   * (added to the screen); closing the pass removes whatever is still unused.
   */
  class PrefRefresh {
    const screen: PreferenceGroup
    var unusedPreferences: map<string, Preference>

    /** Each unused preference is recorded under its own key. */
    ghost predicate Valid()
      reads this, unusedPreferences.Values
    {
      forall k :: k in unusedPreferences ==> k != "" && unusedPreferences[k].key == Some(k)
    }

    /** Every keyed child is recorded under its key; a later child wins over an earlier one. */
    constructor (screen: PreferenceGroup)
      ensures this.screen == screen
      ensures Valid()
      ensures forall p :: p in screen.children && p.HasKey() ==> p.key.value in unusedPreferences
      ensures forall k :: k in unusedPreferences ==> k != ""
      ensures forall k :: k in unusedPreferences ==>
        exists i :: 0 <= i < |screen.children| && screen.children[i] == unusedPreferences[k] &&
          screen.children[i].key == Some(k) &&
          forall j :: i < j < |screen.children| ==> screen.children[j].key != Some(k)
    {
      this.screen := screen;
      var unused: map<string, Preference> := map[];
      var n := |screen.children|;
      var i := 0;
      while i < n
        invariant 0 <= i <= n
        invariant forall j :: 0 <= j < i && screen.children[j].HasKey() ==> screen.children[j].key.value in unused
        invariant forall k :: k in unused ==> k != ""
        invariant forall k :: k in unused ==>
          exists m :: 0 <= m < i && screen.children[m] == unused[k] && screen.children[m].key == Some(k) &&
            forall j :: m < j < i ==> screen.children[j].key != Some(k)
      {
        var pref := screen.children[i];
        if pref.HasKey() {
          unused := unused[pref.key.value := pref];
        }
        i := i + 1;
      }
      unusedPreferences := unused;
    }

    function FindUnusedPreference(key: string): (r: Option<Preference>)
      reads this
      ensures r.Some? <==> key in unusedPreferences
      ensures r.Some? ==> r.value == unusedPreferences[key]
    {
      if key in unusedPreferences then Some(unusedPreferences[key]) else None
    }

    /**
     * addPreference: re-adding the very object recorded as unused under its key marks it used and
     * leaves the screen alone; anything else is added to the screen.
     */
    method AddPreference(pref: Preference) returns (added: bool)
      requires Valid()
      modifies this`unusedPreferences, screen
      ensures Valid()
      ensures added
      ensures old(pref.HasKey() && pref.key.value in unusedPreferences && unusedPreferences[pref.key.value] == pref) ==>
        unusedPreferences == old(unusedPreferences) - {pref.key.value} && screen.children == old(screen.children)
      ensures !old(pref.HasKey() && pref.key.value in unusedPreferences && unusedPreferences[pref.key.value] == pref) ==>
        unusedPreferences == old(unusedPreferences) &&
        screen.children == if pref in old(screen.children) then old(screen.children) else old(screen.children) + [pref]
    {
      if pref.HasKey() {
        var previousPref := FindUnusedPreference(pref.key.value);
        if previousPref == Some(pref) {
          unusedPreferences := unusedPreferences - {pref.key.value};
          return true;
        }
      }
      added := screen.AddPreference(pref);
    }

    /** close: every preference still unused is removed from the screen, and nothing else. */
    method Close()
      modifies screen
      ensures screen.children == Keep(old(screen.children), unusedPreferences.Values)
    {
      var rest := unusedPreferences.Values;
      var done: set<Preference> := {};
      KeepNothing(screen.children);
      while rest != {}
        invariant rest + done == unusedPreferences.Values && rest !! done
        invariant screen.children == Keep(old(screen.children), done)
        decreases |rest|
      {
        var v :| v in rest;
        var _ := screen.RemovePreference(v);
        KeepTwice(old(screen.children), done, {v});
        rest := rest - {v};
        done := done + {v};
      }
    }
  }

  /**
   * reuseDisplayCategory: the category of the display at `position` is the unused one with its
   * per-position key if the screen had it (marked used), or a new category added to the screen
   * with that key and an order after the built-in display link.
   */
  method ReuseDisplayCategory(refresh: PrefRefresh, position: nat) returns (category: Preference)
    requires JavaInt.IsInt32(position)
    requires refresh.Valid()
    modifies refresh`unusedPreferences, refresh.screen
    ensures refresh.Valid()
    ensures var categoryKey := ExternalDisplayList.KeyForNth(position);
      if categoryKey in old(refresh.unusedPreferences) then
        category == old(refresh.unusedPreferences[categoryKey]) &&
        refresh.unusedPreferences == old(refresh.unusedPreferences) - {categoryKey} &&
        refresh.screen.children == old(refresh.screen.children)
      else
        fresh(category) && category.key == Some(categoryKey) &&
        category.order == NewCategoryOrder(position) && !category.persistent &&
        refresh.unusedPreferences == old(refresh.unusedPreferences) &&
        refresh.screen.children == old(refresh.screen.children) + [category]
  {
    var categoryKey := ExternalDisplayList.KeyForNth(position);
    var found := refresh.FindUnusedPreference(categoryKey);
    if found.Some? {
      category := found.value;
      var _ := refresh.AddPreference(category);
    } else {
      category := new Preference();
      var _ := refresh.AddPreference(category);
      ExternalDisplayList.Apply(category, Some(position));
      category.order := NewCategoryOrder(position);
    }
  }
}
