// network/telephony/satellite/SatelliteSettingAccountInfoController: the "Your mobile plan"
// rows, which say whether satellite messaging (and data) is part of the plan.

module SatelliteAccountInfo {
  import opened Wrappers
  import opened Availability
  import opened SatelliteCarrier

  datatype Title = HaveSatellitePlan | NoSatellitePlan | HaveSatelliteDataPlan
  datatype Icon = CheckCircle | Blocked

  /** The parts of a Preference row this controller sets. */
  datatype Row = Row(
    title: Option<Title>,
    icon: Option<Icon>,
    /** The underlined "add satellite" guidance summary is shown. */
    addSatelliteSummary: bool,
    /** The web page a click opens, when a click listener is set. */
    clickUrl: Option<string>,
    visible: bool)

  class SatelliteAccountInfoController {
    var configBundle: CarrierConfig
    var simOperatorName: string
    var isSmsAvailable: bool
    var isDataAvailable: bool
    var isSatelliteEligible: bool
    /** The operator name formatted into the category title, once displayed. */
    var categoryTitleOperator: Option<string>
    /** key_your_satellite_plan. */
    var messagingRow: Row
    /** key_your_satellite_data_plan. */
    var dataPlanRow: Row

    constructor(messagingRow: Row, dataPlanRow: Row)
      ensures this.messagingRow == messagingRow && this.dataPlanRow == dataPlanRow
      ensures configBundle == CarrierConfig(None, map[], None) && categoryTitleOperator == None
    {
      configBundle := CarrierConfig(None, map[], None);
      simOperatorName := "";
      isSmsAvailable := false;
      isDataAvailable := false;
      isSatelliteEligible := false;
      categoryTitleOperator := None;
      this.messagingRow := messagingRow;
      this.dataPlanRow := dataPlanRow;
    }

    /** init: store the inputs and compute the eligibility once. */
    method Init(config: CarrierConfig, operatorName: string, smsAvailable: bool, dataAvailable: bool,
                reasons: ManagerCall<set<int>>)
      modifies this`configBundle, this`simOperatorName, this`isSmsAvailable
      modifies this`isDataAvailable, this`isSatelliteEligible
      ensures configBundle == config && simOperatorName == operatorName
      ensures isSmsAvailable == smsAvailable && isDataAvailable == dataAvailable
      ensures isSatelliteEligible == IsSatelliteEligible(config, smsAvailable, reasons)
    {
      configBundle := config;
      simOperatorName := operatorName;
      isSmsAvailable := smsAvailable;
      isDataAvailable := dataAvailable;
      isSatelliteEligible := IsSatelliteEligible(configBundle, isSmsAvailable, reasons);
    }

    /** getAvailabilityStatus: always shown for the manual type, else only with entitlement. */
    function GetAvailabilityStatus(): (s: Status)
      reads this
      ensures configBundle.ConnectType() == CarrierRoamingNtnConnectManual ==> s == Available
      ensures s == Available <==>
        configBundle.ConnectType() == CarrierRoamingNtnConnectManual
        || configBundle.GetBoolean(SatelliteEntitlementSupported)
      ensures s in {Available, ConditionallyUnavailable}
    {
      if configBundle.ConnectType() == CarrierRoamingNtnConnectManual then Available
      else if configBundle.GetBoolean(SatelliteEntitlementSupported) then Available
      else ConditionallyUnavailable
    }

    /** The redirect URL, read with "" as default. */
    function RedirectUrl(): (url: string)
      reads this
      ensures configBundle.informationRedirectUrl.Some? ==> url == configBundle.informationRedirectUrl.value
      ensures configBundle.informationRedirectUrl.None? ==> url == ""
    {
      configBundle.informationRedirectUrl.GetOr("")
    }

    /**
     * displayPreference with handleEligibleUI / handleIneligibleUI: eligible shows "have plan"
     * with a check icon (and, under the OEM-settings migration with satellite data, the data-plan
     * row); ineligible shows "no plan" with a blocked icon, and a guide link when the carrier
     * gives a redirect URL.
     */
    method DisplayPreference(oemSettingsUxMigrationFlag: bool)
      modifies this`categoryTitleOperator, this`messagingRow, this`dataPlanRow
      ensures categoryTitleOperator == Some(simOperatorName)
      ensures isSatelliteEligible ==>
        messagingRow == old(messagingRow).(title := Some(HaveSatellitePlan), icon := Some(CheckCircle))
      ensures isSatelliteEligible && oemSettingsUxMigrationFlag && isDataAvailable ==>
        dataPlanRow == old(dataPlanRow).(title := Some(HaveSatelliteDataPlan), icon := Some(CheckCircle), visible := true)
      ensures !(isSatelliteEligible && oemSettingsUxMigrationFlag && isDataAvailable) ==>
        dataPlanRow == old(dataPlanRow)
      ensures !isSatelliteEligible && RedirectUrl() == "" ==>
        messagingRow == old(messagingRow).(title := Some(NoSatellitePlan), icon := Some(Blocked))
      ensures !isSatelliteEligible && RedirectUrl() != "" ==>
        messagingRow == old(messagingRow).(title := Some(NoSatellitePlan), icon := Some(Blocked),
                                           addSatelliteSummary := true, clickUrl := Some(RedirectUrl()))
    {
      categoryTitleOperator := Some(simOperatorName);
      if isSatelliteEligible {
        messagingRow := messagingRow.(title := Some(HaveSatellitePlan));
        if oemSettingsUxMigrationFlag && isDataAvailable {
          dataPlanRow := dataPlanRow.(title := Some(HaveSatelliteDataPlan), icon := Some(CheckCircle), visible := true);
        }
        messagingRow := messagingRow.(icon := Some(CheckCircle));
        return;
      }
      messagingRow := messagingRow.(title := Some(NoSatellitePlan));
      var url := RedirectUrl();
      if url != "" {
        messagingRow := messagingRow.(addSatelliteSummary := true, clickUrl := Some(url));
      }
      messagingRow := messagingRow.(icon := Some(Blocked));
    }
  }
}
