// notification/AdjustmentExcludedAppsPreferenceController: the category listing the apps a
// notification adjustment (summaries or bundles) is turned off for.

module AdjustmentExcludedApps {
  import opened Wrappers
  import opened Availability
  import JavaInt

  /** The adjustment the page is about (Adjustment.KEY_SUMMARIZATION, Adjustment.KEY_TYPE, other or none). */
  datatype AdjustmentKey = KeySummarization | KeyType | OtherKey

  /** An ApplicationsState.AppEntry: package name, uid and label. */
  datatype AppEntry = AppEntry(packageName: string, uid: int, title: string)

  /**
   * getAvailabilityStatus: with none of the three summarization/classification flags on the
   * page is unavailable; otherwise it is available for summaries when the backend supports them
   * and for types when it supports bundling.
   */
  function GetAvailabilityStatus(nmSummarization: bool, nmSummarizationUi: bool, classificationUi: bool,
                                 adjustmentKey: Option<AdjustmentKey>,
                                 summarizationSupported: bool, bundlingSupported: bool): (s: Status)
    ensures !(nmSummarization || nmSummarizationUi || classificationUi) ==> s == ConditionallyUnavailable
    ensures s == Available <==>
      (nmSummarization || nmSummarizationUi || classificationUi) &&
      ((adjustmentKey == Some(KeySummarization) && summarizationSupported) ||
       (adjustmentKey == Some(KeyType) && bundlingSupported))
    ensures s == Available || s == ConditionallyUnavailable
  {
    if !(nmSummarization || nmSummarizationUi || classificationUi) then ConditionallyUnavailable
    else if adjustmentKey == Some(KeySummarization) && summarizationSupported then Available
    else if adjustmentKey == Some(KeyType) && bundlingSupported then Available
    else ConditionallyUnavailable
  }

  /**
   * getKey: "all|" + package + "|" + uid. The uid's decimal text holds no '|', so the last '|' of
   * a key is the one after the package name.
   */
  function GetKey(pkg: string, uid: int): (key: string)
    requires JavaInt.IsInt32(uid)
    ensures |key| > 5 + |pkg|
    ensures key[..4] == "all|" && key[4..4 + |pkg|] == pkg && key[4 + |pkg|] == '|'
    ensures forall i :: 5 + |pkg| <= i < |key| ==> key[i] != '|'
  {
    var digits := JavaInt.IntToString(uid);
    forall i | 0 <= i < |digits| ensures digits[i] != '|' { DecimalHasNoBar(uid, i); }
    "all|" + pkg + "|" + digits
  }

  lemma {:induction false} DecimalHasNoBar(n: int, i: nat)
    requires i < |JavaInt.IntToString(n)|
    ensures JavaInt.IntToString(n)[i] != '|'
  {
    var m := if n < 0 then -n else n;
    var d := JavaInt.NatToDigits(m);
    assert JavaInt.AllDigits(d);
    if n < 0 && i > 0 {
      assert JavaInt.IntToString(n)[i] == d[i - 1];
    }
  }

  /**
   * A key names one app: the last '|' separates the uid, whose decimal text has no '|', so equal
   * keys have equal package names and uids (even for package names that contain '|').
   */
  lemma GetKeyInjective(p1: string, u1: int, p2: string, u2: int)
    requires JavaInt.IsInt32(u1) && JavaInt.IsInt32(u2)
    requires GetKey(p1, u1) == GetKey(p2, u2)
    ensures p1 == p2 && u1 == u2
  {
    var k := GetKey(p1, u1);
    var d1 := JavaInt.IntToString(u1);
    var d2 := JavaInt.IntToString(u2);
    forall i | 0 <= i < |d1| ensures d1[i] != '|' { DecimalHasNoBar(u1, i); }
    forall i | 0 <= i < |d2| ensures d2[i] != '|' { DecimalHasNoBar(u2, i); }
    assert k[4 + |p1|] == '|' && k[4 + |p2|] == '|';
    assert forall i :: 5 + |p1| <= i < |k| ==> k[i] == d1[i - 5 - |p1|];
    assert forall i :: 5 + |p2| <= i < |k| ==> k[i] == d2[i - 5 - |p2|];
    assert |p1| == |p2|;
    assert p1 == k[4..4 + |p1|] == p2;
    assert d1 == k[5 + |p1|..] == d2;
    JavaInt.ParseIntOfIntToString(u1);
    JavaInt.ParseIntOfIntToString(u2);
  }

  predicate ValidApp(app: AppEntry) { JavaInt.IsInt32(app.uid) }

  function KeyOf(app: AppEntry): string
    requires ValidApp(app)
  {
    GetKey(app.packageName, app.uid)
  }

  /** The category's keys without `key`. */
  function Without(keys: seq<string>, key: string): (r: seq<string>)
    ensures forall x :: x in r <==> x in keys && x != key
  {
    if keys == [] then []
    else (if keys[0] == key then [] else [keys[0]]) + Without(keys[1..], key)
  }

  /** One step of updateAppList: add the app if it is excluded and missing, remove it if it is listed but allowed. */
  function Step(keys: seq<string>, app: AppEntry, excludedApps: seq<string>): seq<string>
    requires ValidApp(app)
  {
    var key := KeyOf(app);
    var doesAppPassCriteria := app.packageName in excludedApps;
    if key !in keys then
      if doesAppPassCriteria then keys + [key] else keys
    else if !doesAppPassCriteria then Without(keys, key)
    else keys
  }

  /** The category's keys after `apps` have been processed in order. */
  function Reconciled(keys: seq<string>, apps: seq<AppEntry>, excludedApps: seq<string>): seq<string>
    requires forall i :: 0 <= i < |apps| ==> ValidApp(apps[i])
    decreases |apps|
  {
    if apps == [] then keys else Reconciled(Step(keys, apps[0], excludedApps), apps[1..], excludedApps)
  }

  lemma StepMembership(keys: seq<string>, app: AppEntry, excludedApps: seq<string>, key: string)
    requires ValidApp(app)
    ensures key != KeyOf(app) ==> (key in Step(keys, app, excludedApps) <==> key in keys)
    ensures key == KeyOf(app) ==> (key in Step(keys, app, excludedApps) <==> app.packageName in excludedApps)
  {
  }

  /** A key that belongs to none of the listed apps is left as it was. */
  lemma {:induction false} UnlistedKeyKept(keys: seq<string>, apps: seq<AppEntry>, excludedApps: seq<string>, key: string)
    requires forall i :: 0 <= i < |apps| ==> ValidApp(apps[i]) && KeyOf(apps[i]) != key
    decreases |apps|
    ensures key in Reconciled(keys, apps, excludedApps) <==> key in keys
  {
    if apps != [] {
      StepMembership(keys, apps[0], excludedApps, key);
      UnlistedKeyKept(Step(keys, apps[0], excludedApps), apps[1..], excludedApps, key);
    }
  }

  /**
   * After the pass the category lists a listed app iff its package is excluded; with
   * UnlistedKeyKept, the category holds exactly the excluded apps among those listed, plus
   * whatever it held for apps not in the list.
   */
  lemma {:induction false} ListedKeyReconciled(keys: seq<string>, apps: seq<AppEntry>, excludedApps: seq<string>, i: nat)
    requires forall j :: 0 <= j < |apps| ==> ValidApp(apps[j])
    requires i < |apps|
    decreases |apps|
    ensures KeyOf(apps[i]) in Reconciled(keys, apps, excludedApps) <==> apps[i].packageName in excludedApps
  {
    var key := KeyOf(apps[i]);
    var next := Step(keys, apps[0], excludedApps);
    if i > 0 {
      assert apps[1..][i - 1] == apps[i];
      ListedKeyReconciled(next, apps[1..], excludedApps, i - 1);
    } else if j :| 1 <= j < |apps| && KeyOf(apps[j]) == key {
      assert apps[1..][j - 1] == apps[j];
      GetKeyInjective(apps[j].packageName, apps[j].uid, apps[0].packageName, apps[0].uid);
      ListedKeyReconciled(next, apps[1..], excludedApps, j - 1);
    } else {
      StepMembership(keys, apps[0], excludedApps, key);
      UnlistedKeyKept(next, apps[1..], excludedApps, key);
    }
  }

  class ExcludedAppsController {
    /** The keys of the preferences in mPreferenceCategory; None while the category is null. */
    var category: Option<seq<string>>

    /**
     * updateAppList(apps): nothing happens without a category or an app list; otherwise each app
     * is checked against the backend's denied packages, adding or removing its preference.
     */
    method UpdateAppList(apps: Option<seq<AppEntry>>, excludedApps: seq<string>)
      requires apps.Some? ==> forall i :: 0 <= i < |apps.value| ==> ValidApp(apps.value[i])
      modifies this
      ensures old(category).None? || apps.None? ==> category == old(category)
      ensures old(category).Some? && apps.Some? ==>
        category == Some(Reconciled(old(category).value, apps.value, excludedApps))
    {
      if category.None? || apps.None? {
        return;
      }
      var keys := category.value;
      var list := apps.value;
      var i := 0;
      while i < |list|
        invariant 0 <= i <= |list|
        invariant Reconciled(keys, list[i..], excludedApps) == Reconciled(old(category).value, list, excludedApps)
      {
        var app := list[i];
        var key := GetKey(app.packageName, app.uid);
        var doesAppPassCriteria := false;
        if app.packageName in excludedApps {
          doesAppPassCriteria := true;
        }
        if key !in keys {
          if doesAppPassCriteria {
            keys := keys + [key];
          }
        } else if !doesAppPassCriteria {
          keys := Without(keys, key);
        }
        assert list[i..][1..] == list[i + 1..];
        i := i + 1;
      }
      category := Some(keys);
    }
  }
}
