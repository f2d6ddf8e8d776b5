// notification/BundleCombinedPreferenceController: the global "bundle notifications" switch and
// the four per-type check boxes, kept in step with the notification backend.

module BundleCombined {
  import opened Wrappers
  import opened Availability

  /** Adjustment.TYPE_* values of the bundle classifications. */
  datatype BundleType = TypeOther | Promotion | News | SocialMedia | ContentRecommendation

  const GlobalKey: string := "global_pref"
  const PromoKey: string := "promotions"
  const NewsKey: string := "news"
  const SocialKey: string := "social"
  const RecsKey: string := "recs"
  const AllPrefTypes: seq<string> := [PromoKey, NewsKey, SocialKey, RecsKey]

  /** getBundleTypeForKey: each of the four keys names its type; any other key is TYPE_OTHER. */
  function GetBundleTypeForKey(preferenceKey: string): (t: BundleType)
    ensures t != TypeOther <==> preferenceKey in AllPrefTypes
    ensures preferenceKey == PromoKey ==> t == Promotion
    ensures preferenceKey == NewsKey ==> t == News
    ensures preferenceKey == SocialKey ==> t == SocialMedia
    ensures preferenceKey == RecsKey ==> t == ContentRecommendation
  {
    if preferenceKey == PromoKey then Promotion
    else if preferenceKey == NewsKey then News
    else if preferenceKey == SocialKey then SocialMedia
    else if preferenceKey == RecsKey then ContentRecommendation
    else TypeOther
  }

  /** Distinct type keys control distinct types, so a check box never changes another's type. */
  lemma TypeKeysDistinct(a: string, b: string)
    requires a in AllPrefTypes && b in AllPrefTypes && a != b
    ensures GetBundleTypeForKey(a) != GetBundleTypeForKey(b)
  {
  }

  /** getAvailabilityStatus: needs the classification UI flag and backend support. */
  function GetAvailabilityStatus(notificationClassificationUi: bool, bundlingSupported: bool): (s: Status)
    ensures s == Available <==> notificationClassificationUi && bundlingSupported
    ensures s != Available ==> s == ConditionallyUnavailable
  {
    if notificationClassificationUi && bundlingSupported then Available else ConditionallyUnavailable
  }

  /** Bundling counts as on only while it is enabled and at least one type is allowed. */
  function EffectiveEnabled(bundlingEnabled: bool, allowedTypes: set<BundleType>): (on: bool)
    ensures on ==> bundlingEnabled
    ensures on <==> bundlingEnabled && |allowedTypes| > 0
  {
    bundlingEnabled && allowedTypes != {}
  }

  /** The state of one TwoStatePreference check box. */
  datatype TypePref = TypePref(checked: bool, visible: bool)

  /** What updatePrefValues leaves in one type check box. */
  function RefreshedTypePref(key: string, old_: TypePref, on: bool, allowedTypes: set<BundleType>): (p: TypePref)
    ensures p.visible == on
    ensures on ==> (p.checked <==> GetBundleTypeForKey(key) in allowedTypes)
    ensures !on ==> p.checked == old_.checked
  {
    TypePref(if on then GetBundleTypeForKey(key) in allowedTypes else old_.checked, on)
  }

  /** The loop of updatePrefValues over the cached type boxes, each refreshed on its own. */
  method RefreshTypePrefs(typePrefs: map<string, TypePref>, isBundlingEnabled: bool, allowedTypes: set<BundleType>)
    returns (prefs: map<string, TypePref>)
    ensures prefs.Keys == typePrefs.Keys
    ensures forall k :: k in prefs ==>
      prefs[k] == RefreshedTypePref(k, typePrefs[k], isBundlingEnabled, allowedTypes)
  {
    prefs := typePrefs;
    var keys := prefs.Keys;
    var done: set<string> := {};
    while keys != {}
      invariant keys + done == typePrefs.Keys && keys !! done
      invariant prefs.Keys == typePrefs.Keys
      invariant forall k :: k in keys ==> prefs[k] == typePrefs[k]
      invariant forall k :: k in done ==>
        prefs[k] == RefreshedTypePref(k, typePrefs[k], isBundlingEnabled, allowedTypes)
      decreases |keys|
    {
      var key :| key in keys;
      var typePref := prefs[key];
      typePref := typePref.(visible := isBundlingEnabled);
      if isBundlingEnabled {
        typePref := typePref.(checked := GetBundleTypeForKey(key) in allowedTypes);
      }
      prefs := prefs[key := typePref];
      keys := keys - {key};
      done := done + {key};
    }
  }

  /** The part of NotificationBackend the controller reads and writes. */
  class NotificationBackend {
    var bundlingEnabled: bool
    var allowedTypes: set<BundleType>

    constructor (bundlingEnabled: bool, allowedTypes: set<BundleType>)
      ensures this.bundlingEnabled == bundlingEnabled && this.allowedTypes == allowedTypes
    {
      this.bundlingEnabled := bundlingEnabled;
      this.allowedTypes := allowedTypes;
    }

    method SetNotificationBundlingEnabled(enabled: bool)
      modifies this`bundlingEnabled
      ensures bundlingEnabled == enabled
    {
      bundlingEnabled := enabled;
    }

    /** setBundleTypeState: the type joins or leaves the allowed set. */
    method SetBundleTypeState(t: BundleType, enabled: bool)
      modifies this`allowedTypes
      ensures allowedTypes == if enabled then old(allowedTypes) + {t} else old(allowedTypes) - {t}
    {
      allowedTypes := if enabled then allowedTypes + {t} else allowedTypes - {t};
    }
  }

  class BundleCombinedController {
    const backend: NotificationBackend
    /** The checked state of the global switch; None when the category has no such preference. */
    var globalPref: Option<bool>
    /** The type check boxes found in the category, by key. */
    var typePrefs: map<string, TypePref>

    constructor (backend: NotificationBackend)
      ensures this.backend == backend && globalPref == None && typePrefs == map[]
    {
      this.backend := backend;
      globalPref := None;
      typePrefs := map[];
    }

    /**
     * updatePrefValues: enabled bundling with no allowed type is switched off in the backend; the
     * global switch shows the effective state; each type box is visible iff bundling is on and,
     * when on, checked iff its type is allowed.
     */
    method UpdatePrefValues()
      modifies backend`bundlingEnabled, this`globalPref, this`typePrefs
      ensures backend.bundlingEnabled == EffectiveEnabled(old(backend.bundlingEnabled), backend.allowedTypes)
      ensures globalPref == if old(globalPref).None? then None else Some(backend.bundlingEnabled)
      ensures typePrefs.Keys == old(typePrefs).Keys
      ensures forall k :: k in typePrefs ==>
        typePrefs[k] == RefreshedTypePref(k, old(typePrefs)[k], backend.bundlingEnabled, backend.allowedTypes)
    {
      var isBundlingEnabled := backend.bundlingEnabled;
      var allowedTypes := backend.allowedTypes;
      if isBundlingEnabled && |allowedTypes| == 0 {
        backend.SetNotificationBundlingEnabled(false);
        isBundlingEnabled := false;
      }
      if globalPref.Some? {
        globalPref := Some(isBundlingEnabled);
      }
      var prefs := RefreshTypePrefs(typePrefs, isBundlingEnabled, allowedTypes);
      typePrefs := prefs;
    }

    /**
     * updateState: caches the global switch and whichever type boxes the category holds, then
     * refreshes their values.
     */
    method UpdateState(categoryGlobal: Option<bool>, categoryTypes: map<string, TypePref>)
      modifies backend`bundlingEnabled, this`globalPref, this`typePrefs
      ensures globalPref == if categoryGlobal.None? then None else Some(backend.bundlingEnabled)
      ensures typePrefs.Keys == old(typePrefs).Keys + (set k | k in categoryTypes && k in AllPrefTypes)
      ensures backend.bundlingEnabled == EffectiveEnabled(old(backend.bundlingEnabled), backend.allowedTypes)
      ensures backend.allowedTypes == old(backend.allowedTypes)
      ensures forall k :: k in typePrefs ==>
        typePrefs[k] == RefreshedTypePref(k, if k in categoryTypes && k in AllPrefTypes then categoryTypes[k] else old(typePrefs)[k],
                                          backend.bundlingEnabled, backend.allowedTypes)
    {
      globalPref := categoryGlobal;
      var i := 0;
      while i < |AllPrefTypes|
        invariant 0 <= i <= |AllPrefTypes|
        invariant globalPref == categoryGlobal && backend.bundlingEnabled == old(backend.bundlingEnabled)
        invariant typePrefs.Keys == old(typePrefs).Keys + (set k | k in categoryTypes && k in AllPrefTypes[..i])
        invariant forall k :: k in typePrefs ==>
          typePrefs[k] == if k in categoryTypes && k in AllPrefTypes[..i] then categoryTypes[k] else old(typePrefs)[k]
      {
        var key := AllPrefTypes[i];
        assert AllPrefTypes[..i + 1] == AllPrefTypes[..i] + [key];
        if key in categoryTypes {
          typePrefs := typePrefs[key := categoryTypes[key]];
        }
        i := i + 1;
      }
      assert AllPrefTypes[..i] == AllPrefTypes;
      UpdatePrefValues();
    }

    /** The global switch's listener: writes the backend, then refreshes the boxes. */
    method OnGlobalPrefChange(checked: bool)
      modifies backend`bundlingEnabled, this`globalPref, this`typePrefs
      ensures backend.bundlingEnabled == EffectiveEnabled(checked, backend.allowedTypes)
      ensures globalPref == if old(globalPref).None? then None else Some(backend.bundlingEnabled)
      ensures typePrefs.Keys == old(typePrefs).Keys
      ensures forall k :: k in typePrefs ==> typePrefs[k].visible == backend.bundlingEnabled
      ensures forall k :: k in typePrefs ==>
        typePrefs[k] == RefreshedTypePref(k, old(typePrefs)[k], backend.bundlingEnabled, backend.allowedTypes)
    {
      backend.SetNotificationBundlingEnabled(checked);
      UpdatePrefValues();
    }

    /**
     * A type box's listener: writes the type's state; only an uncheck refreshes, which switches
     * bundling off when the last allowed type goes. Checking a box never touches the global state.
     */
    method OnTypePrefChange(prefKey: string, checked: bool)
      modifies backend`bundlingEnabled, backend`allowedTypes, this`globalPref, this`typePrefs
      ensures backend.allowedTypes == if checked then old(backend.allowedTypes) + {GetBundleTypeForKey(prefKey)}
                                      else old(backend.allowedTypes) - {GetBundleTypeForKey(prefKey)}
      ensures checked ==>
                backend.bundlingEnabled == old(backend.bundlingEnabled) &&
                globalPref == old(globalPref) && typePrefs == old(typePrefs)
      ensures !checked ==>
        backend.bundlingEnabled == EffectiveEnabled(old(backend.bundlingEnabled), backend.allowedTypes) &&
        globalPref == (if old(globalPref).None? then None else Some(backend.bundlingEnabled)) &&
        typePrefs.Keys == old(typePrefs).Keys &&
        forall k :: k in typePrefs ==>
          typePrefs[k] == RefreshedTypePref(k, old(typePrefs)[k], backend.bundlingEnabled, backend.allowedTypes)
      ensures !checked && old(backend.allowedTypes) <= {GetBundleTypeForKey(prefKey)} ==>
        !backend.bundlingEnabled && (globalPref == None || globalPref == Some(false))
    {
      backend.SetBundleTypeState(GetBundleTypeForKey(prefKey), checked);
      if !checked {
        UpdatePrefValues();
      }
    }
  }
}
