// network/telephony/satellite/SatelliteAppListCategoryController: the category listing up to
// three data-optimized apps, its availability and the eligibility it is computed from.

module SatelliteAppList {
  import opened Wrappers
  import opened Availability
  import opened SatelliteCarrier

  /** MAXIMUM_OF_PREFERENCE_AMOUNT. */
  const MaximumOfPreferenceAmount: nat := 3

  /** getSatelliteDataOptimizedApps: no manager or an IllegalStateException gives no apps. */
  function SatelliteDataOptimizedApps(call: ManagerCall<seq<string>>): (apps: seq<string>)
    ensures call.Returned? ==> apps == call.value
    ensures !call.Returned? ==> apps == []
  {
    if call.Returned? then call.value else []
  }

  /**
   * The packages, in order, whose ApplicationInfo can be found (those in `installed`): exactly
   * the installed ones, none twice more often than in `names`.
   */
  function KeepInstalled(names: seq<string>, installed: set<string>): (r: seq<string>)
    ensures |r| <= |names|
    ensures forall k :: 0 <= k < |r| ==> r[k] in installed && r[k] in names
    ensures forall k :: 0 <= k < |names| && names[k] in installed ==> names[k] in r
  {
    if |names| == 0 then []
    else if names[0] in installed then [names[0]] + KeepInstalled(names[1..], installed)
    else KeepInstalled(names[1..], installed)
  }

  /** The number of package names displayPreference looks at. */
  function ShownCount(names: seq<string>): (n: nat)
    ensures n <= MaximumOfPreferenceAmount && n <= |names|
    ensures n == |names| || n == MaximumOfPreferenceAmount
  {
    if |names| < MaximumOfPreferenceAmount then |names| else MaximumOfPreferenceAmount
  }

  class SatelliteAppListController {
    var packageNameList: seq<string>
    var isSmsAvailable: bool
    var isDataAvailable: bool
    var isSatelliteEligible: bool
    var configBundle: CarrierConfig
    /** The package names of the app preferences added to the category, in order. */
    var categoryChildren: seq<string>

    constructor()
      ensures packageNameList == [] && categoryChildren == []
      ensures !isSmsAvailable && !isDataAvailable && !isSatelliteEligible
      ensures configBundle == CarrierConfig(None, map[], None)
    {
      packageNameList := [];
      isSmsAvailable := false;
      isDataAvailable := false;
      isSatelliteEligible := false;
      configBundle := CarrierConfig(None, map[], None);
      categoryChildren := [];
    }

    /** init: store the inputs, then query the apps and the eligibility. */
    method Init(config: CarrierConfig, smsAvailable: bool, dataAvailable: bool,
                apps: ManagerCall<seq<string>>, reasons: ManagerCall<set<int>>)
      modifies this`configBundle, this`isSmsAvailable, this`isDataAvailable
      modifies this`packageNameList, this`isSatelliteEligible
      ensures configBundle == config && isSmsAvailable == smsAvailable && isDataAvailable == dataAvailable
      ensures packageNameList == SatelliteDataOptimizedApps(apps)
      ensures isSatelliteEligible == IsSatelliteEligible(config, smsAvailable, reasons)
    {
      configBundle := config;
      isSmsAvailable := smsAvailable;
      isDataAvailable := dataAvailable;
      packageNameList := SatelliteDataOptimizedApps(apps);
      isSatelliteEligible := IsSatelliteEligible(configBundle, isSmsAvailable, reasons);
    }

    /**
     * displayPreference: walk the first MAXIMUM_OF_PREFERENCE_AMOUNT package names and add a
     * preference for each one whose application info is found.
     */
    method DisplayPreference(installed: set<string>)
      modifies this`categoryChildren
      ensures categoryChildren == old(categoryChildren)
        + KeepInstalled(packageNameList[..ShownCount(packageNameList)], installed)
    {
      var i := 0;
      while i < |packageNameList| && i < MaximumOfPreferenceAmount
        invariant 0 <= i <= ShownCount(packageNameList)
        invariant categoryChildren == old(categoryChildren) + KeepInstalled(packageNameList[..i], installed)
      {
        var packageName := packageNameList[i];
        KeepInstalledAppend(packageNameList[..i], packageName, installed);
        assert packageNameList[..i + 1] == packageNameList[..i] + [packageName];
        if packageName in installed {
          categoryChildren := categoryChildren + [packageName];
        }
        i := i + 1;
      }
    }

    /** getAvailabilityStatus. */
    function GetAvailabilityStatus(): (s: Status)
      reads this
      ensures configBundle.GetBoolean(SatelliteEntitlementSupported) && !isSatelliteEligible ==>
        s == ConditionallyUnavailable
      ensures s == AvailableUnsearchable <==>
        (!configBundle.GetBoolean(SatelliteEntitlementSupported) || isSatelliteEligible)
        && isDataAvailable && |packageNameList| > 0
      ensures s in {AvailableUnsearchable, ConditionallyUnavailable}
    {
      if configBundle.GetBoolean(SatelliteEntitlementSupported) && !isSatelliteEligible then
        ConditionallyUnavailable
      else if isDataAvailable && |packageNameList| != 0 then AvailableUnsearchable
      else ConditionallyUnavailable
    }
  }

  /** Filtering a longer prefix extends the filtered prefix by the new name when it is installed. */
  lemma {:induction false} KeepInstalledAppend(names: seq<string>, name: string, installed: set<string>)
    ensures KeepInstalled(names + [name], installed)
      == KeepInstalled(names, installed) + (if name in installed then [name] else [])
    decreases |names|
  {
    if |names| == 0 {
      assert names + [name] == [name];
      assert [name][1..] == [];
    } else {
      assert (names + [name])[0] == names[0];
      assert (names + [name])[1..] == names[1..] + [name];
      KeepInstalledAppend(names[1..], name, installed);
    }
  }

  /**
   * One display adds at most three apps: exactly the installed ones among the first three
   * package names.
   */
  lemma ShownAppsAreInstalledAmongFirstThree(names: seq<string>, installed: set<string>)
    ensures |KeepInstalled(names[..ShownCount(names)], installed)| <= MaximumOfPreferenceAmount
    ensures forall x :: x in KeepInstalled(names[..ShownCount(names)], installed) <==>
      x in installed && exists k :: 0 <= k < MaximumOfPreferenceAmount && k < |names| && names[k] == x
  {
    var shown := names[..ShownCount(names)];
    var r := KeepInstalled(shown, installed);
    forall x
      ensures x in r <==>
        x in installed && exists k :: 0 <= k < MaximumOfPreferenceAmount && k < |names| && names[k] == x
    {
      if x in r {
        var j :| 0 <= j < |r| && r[j] == x;
        var k :| 0 <= k < |shown| && shown[k] == x;
        assert names[k] == x;
      }
      if x in installed && exists k :: 0 <= k < MaximumOfPreferenceAmount && k < |names| && names[k] == x {
        var k :| 0 <= k < MaximumOfPreferenceAmount && k < |names| && names[k] == x;
        assert shown[k] == x;
      }
    }
  }
}
