// network/telephony/satellite/SatelliteSettingPreferenceController: the "Satellite messaging"
// row, its availability, its summary (with the cached account eligibility) and the
// carrier-roaming NTN services callback that refreshes it.

module SatelliteSetting {
  import opened Wrappers
  import opened Availability
  import opened SatelliteCarrier
  import opened SatelliteCategory

  datatype Summary = EnabledSummary | DisabledSummary | WithoutEntitlementSummary

  /** The summary for a known eligibility (or SMS availability). */
  function SummaryFor(enabled: bool): (s: Summary)
    ensures s == EnabledSummary <==> enabled
    ensures s != WithoutEntitlementSummary
  {
    if enabled then EnabledSummary else DisabledSummary
  }

  class SatelliteSettingController {
    const hasSatelliteManager: bool
    const carrierConfigs: CarrierConfig
    var isSatelliteServiceDataType: bool
    var isSatelliteSmsAvailable: bool
    /** mIsSatelliteEligible: the last eligibility shown, null before the first. */
    var isSatelliteEligible: Option<bool>
    /** The summary of the preference, None until one is set. */
    var summary: Option<Summary>
    var preferenceScreen: Option<Screen>
    var displayed: seq<Screen>

    /**
     * The cached eligibility is only ever set on the automatic, entitlement-supported branch, and
     * then matches the summary on screen.
     */
    predicate Valid()
      reads this
    {
      isSatelliteEligible.Some? ==>
        !IsConnectedTypeManual() && carrierConfigs.GetBoolean(SatelliteEntitlementSupported)
        && summary == Some(SummaryFor(isSatelliteEligible.value))
    }

    /** initialize(subId): the manager and carrier config of the subscription. */
    constructor(hasSatelliteManager: bool, carrierConfigs: CarrierConfig)
      ensures this.hasSatelliteManager == hasSatelliteManager && this.carrierConfigs == carrierConfigs
      ensures !isSatelliteServiceDataType && !isSatelliteSmsAvailable
      ensures isSatelliteEligible == None && summary == None
      ensures preferenceScreen == None && displayed == []
      ensures Valid()
    {
      this.hasSatelliteManager := hasSatelliteManager;
      this.carrierConfigs := carrierConfigs;
      isSatelliteServiceDataType := false;
      isSatelliteSmsAvailable := false;
      isSatelliteEligible := None;
      summary := None;
      preferenceScreen := None;
      displayed := [];
    }

    /** isCarrierRoamingNtnConnectedTypeManual: the type read with AUTOMATIC as default. */
    predicate IsConnectedTypeManual(): (r: bool)
      ensures carrierConfigs.connectType.None? ==> !r
      ensures r ==> carrierConfigs.ConnectType() != CarrierRoamingNtnConnectAutomatic
    {
      carrierConfigs.IsConnectTypeManual()
    }

    /** getAvailabilityStatus. */
    function GetAvailabilityStatus(): (s: Status)
      reads this
      ensures !hasSatelliteManager ==> s == UnsupportedOnDevice
      ensures hasSatelliteManager && !carrierConfigs.GetBoolean(SatelliteAttachSupported) ==> s == ConditionallyUnavailable
      ensures hasSatelliteManager && carrierConfigs.GetBoolean(SatelliteAttachSupported) ==>
        (s == Available <==> !IsConnectedTypeManual() || isSatelliteSmsAvailable)
      ensures s in {Available, ConditionallyUnavailable, UnsupportedOnDevice}
    {
      if !hasSatelliteManager then UnsupportedOnDevice
      else if !carrierConfigs.GetBoolean(SatelliteAttachSupported) then ConditionallyUnavailable
      else if IsConnectedTypeManual() then
        (if isSatelliteSmsAvailable then Available else ConditionallyUnavailable)
      else Available
    }

    /**
     * updateSummary. `preferencePresent` says whether the screen holds the row; `reasons` is the
     * outcome of the attach-restriction query behind isSatelliteAccountEligible. The summary
     * shown always reflects the current eligibility, even when the cache skips the update.
     */
    method UpdateSummary(preferencePresent: bool, reasons: ManagerCall<set<int>>)
      requires Valid()
      modifies this`summary, this`isSatelliteEligible
      ensures Valid()
      ensures !preferencePresent || !hasSatelliteManager ==>
        summary == old(summary) && isSatelliteEligible == old(isSatelliteEligible)
      ensures preferencePresent && hasSatelliteManager && IsConnectedTypeManual() ==>
        summary == Some(SummaryFor(isSatelliteSmsAvailable)) && isSatelliteEligible == old(isSatelliteEligible)
      ensures (preferencePresent && hasSatelliteManager && !IsConnectedTypeManual()
               && !carrierConfigs.GetBoolean(SatelliteEntitlementSupported)) ==>
        summary == Some(WithoutEntitlementSummary) && isSatelliteEligible == old(isSatelliteEligible)
      ensures (preferencePresent && hasSatelliteManager && !IsConnectedTypeManual()
               && carrierConfigs.GetBoolean(SatelliteEntitlementSupported)) ==>
        summary == Some(SummaryFor(IsSatelliteAccountEligible(reasons)))
        && isSatelliteEligible == Some(IsSatelliteAccountEligible(reasons))
    {
      if !preferencePresent || !hasSatelliteManager {
        return;
      }
      if IsConnectedTypeManual() {
        summary := Some(SummaryFor(isSatelliteSmsAvailable));
      } else if !carrierConfigs.GetBoolean(SatelliteEntitlementSupported) {
        summary := Some(WithoutEntitlementSummary);
      } else {
        var eligible := IsSatelliteAccountEligible(reasons);
        if isSatelliteEligible.None? || isSatelliteEligible.value != eligible {
          isSatelliteEligible := Some(eligible);
          summary := Some(SummaryFor(eligible));
        }
      }
    }

    /** displayPreference(screen): the base display, remember the first screen, refresh the summary. */
    method DisplayPreference(screen: Screen, preferencePresent: bool, reasons: ManagerCall<set<int>>)
      requires Valid()
      modifies this`preferenceScreen, this`displayed, this`summary, this`isSatelliteEligible
      ensures Valid()
      ensures displayed == old(displayed) + [screen]
      ensures preferenceScreen == StoredScreen(old(preferenceScreen), screen)
      ensures (preferencePresent && hasSatelliteManager && !IsConnectedTypeManual()
               && carrierConfigs.GetBoolean(SatelliteEntitlementSupported)) ==>
        summary == Some(SummaryFor(IsSatelliteAccountEligible(reasons)))
      ensures preferencePresent && hasSatelliteManager && IsConnectedTypeManual() ==>
        summary == Some(SummaryFor(isSatelliteSmsAvailable))
      ensures (preferencePresent && hasSatelliteManager && !IsConnectedTypeManual()
               && !carrierConfigs.GetBoolean(SatelliteEntitlementSupported)) ==>
        summary == Some(WithoutEntitlementSummary)
      ensures !preferencePresent || !hasSatelliteManager ==>
        summary == old(summary) && isSatelliteEligible == old(isSatelliteEligible)
    {
      displayed := displayed + [screen];
      if preferenceScreen.None? {
        preferenceScreen := Some(screen);
      }
      UpdateSummary(preferencePresent, reasons);
    }

    /**
     * onCarrierRoamingNtnAvailableServicesChanged: the data and SMS flags are membership of the
     * service types, then the remembered screen (if any) is displayed again.
     */
    method OnAvailableServicesChanged(availableServices: seq<int>, preferencePresent: bool, reasons: ManagerCall<set<int>>)
      requires Valid()
      modifies this`isSatelliteServiceDataType, this`isSatelliteSmsAvailable
      modifies this`preferenceScreen, this`displayed, this`summary, this`isSatelliteEligible
      ensures Valid()
      ensures isSatelliteServiceDataType <==> ServiceTypeData in availableServices
      ensures isSatelliteSmsAvailable <==> ServiceTypeSms in availableServices
      ensures preferenceScreen == old(preferenceScreen)
      ensures old(preferenceScreen).None? ==> displayed == old(displayed) && summary == old(summary)
      ensures old(preferenceScreen).Some? ==> displayed == old(displayed) + [old(preferenceScreen).value]
      ensures (old(preferenceScreen).Some? && preferencePresent && hasSatelliteManager
               && IsConnectedTypeManual()) ==>
        summary == Some(SummaryFor(ServiceTypeSms in availableServices))
      ensures (old(preferenceScreen).Some? && preferencePresent && hasSatelliteManager
               && !IsConnectedTypeManual() && !carrierConfigs.GetBoolean(SatelliteEntitlementSupported)) ==>
        summary == Some(WithoutEntitlementSummary)
      ensures (old(preferenceScreen).Some? && preferencePresent && hasSatelliteManager
               && !IsConnectedTypeManual() && carrierConfigs.GetBoolean(SatelliteEntitlementSupported)) ==>
        summary == Some(SummaryFor(IsSatelliteAccountEligible(reasons)))
      ensures (!preferencePresent || !hasSatelliteManager) ==> summary == old(summary)
    {
      isSatelliteServiceDataType := ServiceTypeData in availableServices;
      isSatelliteSmsAvailable := ServiceTypeSms in availableServices;
      if preferenceScreen.Some? {
        DisplayPreference(preferenceScreen.value, preferencePresent, reasons);
      }
    }
  }
}
