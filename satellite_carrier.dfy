// network/telephony/satellite/SatelliteCarrierSettingUtils and the carrier configuration the
// satellite controllers read: account eligibility and the data-restriction check, with the
// fallbacks used when SatelliteManager is missing or throws.

module SatelliteCarrier {
  import opened Wrappers

  /** CarrierConfigManager.CARRIER_ROAMING_NTN_CONNECT_{AUTOMATIC,MANUAL}. */
  const CarrierRoamingNtnConnectAutomatic: int := 0
  const CarrierRoamingNtnConnectManual: int := 1
  /** SatelliteManager.SATELLITE_DATA_SUPPORT_ONLY_RESTRICTED. */
  const SatelliteDataSupportOnlyRestricted: int := 0
  /** SatelliteManager.SATELLITE_COMMUNICATION_RESTRICTION_REASON_ENTITLEMENT. */
  const RestrictionReasonEntitlement: int := 2
  /** NetworkRegistrationInfo.SERVICE_TYPE_{DATA,SMS}. */
  const ServiceTypeData: int := 2
  const ServiceTypeSms: int := 3

  /** The boolean carrier-config keys the satellite controllers read. */
  datatype BoolKey =
    | SatelliteAttachSupported
    | SatelliteEsosSupported
    | SatelliteEntitlementSupported
    | EmergencyMessagingSupported

  /** A carrier-config PersistableBundle, reduced to the keys the satellite controllers read. */
  datatype CarrierConfig = CarrierConfig(
    connectType: Option<int>,
    bools: map<BoolKey, bool>,
    informationRedirectUrl: Option<string>)
  {
    /** PersistableBundle.getBoolean: false for an absent key. */
    function GetBoolean(key: BoolKey): (b: bool)
      ensures b <==> key in bools && bools[key]
    {
      key in bools && bools[key]
    }

    /** getInt(KEY_CARRIER_ROAMING_NTN_CONNECT_TYPE_INT), whose default is AUTOMATIC (0). */
    function ConnectType(): (t: int)
      ensures connectType.None? ==> t == CarrierRoamingNtnConnectAutomatic
      ensures connectType.Some? ==> t == connectType.value
    {
      connectType.GetOr(CarrierRoamingNtnConnectAutomatic)
    }

    /** The connection type is manual exactly when it is not automatic. */
    predicate IsConnectTypeManual(): (r: bool)
      ensures connectType.None? ==> !r
      ensures r <==> connectType.Some? && connectType.value != CarrierRoamingNtnConnectAutomatic
    {
      ConnectType() != CarrierRoamingNtnConnectAutomatic
    }
  }

  /**
   * The outcome of a SatelliteManager call made through SatelliteManagerWrapper. `Threw` stands for
   * an exception the caller catches: SecurityException, IllegalStateException or
   * IllegalArgumentException for the attach restriction reasons, only IllegalStateException for
   * the data support mode. Any other exception propagates and has no outcome here.
   */
  datatype ManagerCall<T> = NoManager | Threw | Returned(value: T)

  /** getAttachRestrictionReasonsForCarrier: no manager or an exception reads as no reasons. */
  function AttachRestrictionReasons(call: ManagerCall<set<int>>): (reasons: set<int>)
    ensures call.Returned? ==> reasons == call.value
    ensures !call.Returned? ==> reasons == {}
  {
    if call.Returned? then call.value else {}
  }

  /** getSatelliteDataSupportMode: no manager or an exception reads as ONLY_RESTRICTED. */
  function SatelliteDataSupportMode(call: ManagerCall<int>): (mode: int)
    ensures call.Returned? ==> mode == call.value
    ensures !call.Returned? ==> mode == SatelliteDataSupportOnlyRestricted
  {
    if call.Returned? then call.value else SatelliteDataSupportOnlyRestricted
  }

  /** isSatelliteAccountEligible: eligible unless the entitlement is a restriction reason. */
  function IsSatelliteAccountEligible(call: ManagerCall<set<int>>): (eligible: bool)
    ensures eligible <==> !(call.Returned? && RestrictionReasonEntitlement in call.value)
  {
    RestrictionReasonEntitlement !in AttachRestrictionReasons(call)
  }

  /** isSatelliteDataRestricted: restricted when the mode is at most ONLY_RESTRICTED. */
  function IsSatelliteDataRestricted(call: ManagerCall<int>): (restricted: bool)
    ensures restricted <==> !call.Returned? || call.value <= SatelliteDataSupportOnlyRestricted
  {
    SatelliteDataSupportMode(call) <= SatelliteDataSupportOnlyRestricted
  }

  /** Without a usable manager the account counts as eligible and the data as restricted. */
  lemma MissingManagerFallbacks(reasons: ManagerCall<set<int>>, mode: ManagerCall<int>)
    requires !reasons.Returned? && !mode.Returned?
    ensures IsSatelliteAccountEligible(reasons)
    ensures IsSatelliteDataRestricted(mode)
  {
  }

  /**
   * isSatelliteEligible of the app-list and account-info controllers: SMS availability for a
   * manual connection type, account eligibility otherwise.
   */
  function IsSatelliteEligible(config: CarrierConfig, isSmsAvailable: bool, reasons: ManagerCall<set<int>>): (eligible: bool)
    ensures config.ConnectType() == CarrierRoamingNtnConnectManual ==> eligible == isSmsAvailable
    ensures config.ConnectType() != CarrierRoamingNtnConnectManual ==> eligible == IsSatelliteAccountEligible(reasons)
  {
    if config.ConnectType() == CarrierRoamingNtnConnectManual then isSmsAvailable
    else IsSatelliteAccountEligible(reasons)
  }
}
