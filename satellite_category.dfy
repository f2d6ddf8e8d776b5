// network/telephony/satellite/SatelliteSettingsPreferenceCategoryController: the category that
// holds the satellite rows, its availability, and the refreshes triggered by the
// requestIsSupported answer and by the carrier-roaming NTN services callback.

module SatelliteCategory {
  import opened Wrappers
  import opened Availability
  import opened SatelliteCarrier

  /** A PreferenceScreen, identified by an opaque id. */
  datatype Screen = Screen(id: nat)

  /** displayPreference(screen) as written: the screen is stored only when one is already stored. */
  function StoredScreenAsWritten(stored: Option<Screen>, screen: Screen): Option<Screen>
  {
    if stored.Some? then Some(screen) else stored
  }

  /** The screen stored after a series of displayPreference(screen) calls, as written. */
  function StoredAfterAsWritten(stored: Option<Screen>, screens: seq<Screen>): Option<Screen>
    decreases |screens|
  {
    if |screens| == 0 then stored
    else StoredAfterAsWritten(StoredScreenAsWritten(stored, screens[0]), screens[1..])
  }

  /** As written, a controller that starts without a screen never stores one, whatever is displayed. */
  lemma {:induction false} AsWrittenNeverStoresScreen(screens: seq<Screen>)
    ensures StoredAfterAsWritten(None, screens) == None
    decreases |screens|
  {
    if |screens| > 0 {
      AsWrittenNeverStoresScreen(screens[1..]);
    }
  }

  /**
   * displayPreference(screen) as the sibling SatelliteSettingPreferenceController writes it:
   * the first screen displayed is kept.
   */
  function StoredScreen(stored: Option<Screen>, screen: Screen): (r: Option<Screen>)
    ensures r.Some?
    ensures stored.None? ==> r == Some(screen)
    ensures stored.Some? ==> r == stored
  {
    if stored.None? then Some(screen) else stored
  }

  /** The screen stored after a series of displayPreference(screen) calls, corrected. */
  function StoredAfter(stored: Option<Screen>, screens: seq<Screen>): Option<Screen>
    decreases |screens|
  {
    if |screens| == 0 then stored
    else StoredAfter(StoredScreen(stored, screens[0]), screens[1..])
  }

  /** Once a screen is stored, later displays keep it. */
  lemma {:induction false} StoredScreenIsKept(screen: Screen, screens: seq<Screen>)
    ensures StoredAfter(Some(screen), screens) == Some(screen)
    decreases |screens|
  {
    if |screens| > 0 {
      StoredScreenIsKept(screen, screens[1..]);
    }
  }

  /** Corrected, the first screen displayed is the one the later refreshes redisplay. */
  lemma FirstDisplayedScreenIsStored(screens: seq<Screen>)
    requires |screens| > 0
    ensures StoredAfter(None, screens) == Some(screens[0])
  {
    StoredScreenIsKept(screens[0], screens[1..]);
  }

  class SatelliteCategoryController {
    var preferenceScreen: Option<Screen>
    var isSatelliteSupported: bool
    /** CarrierRoamingNtnModeCallback.mIsSatelliteSmsAvailable. */
    var isSatelliteSmsAvailable: bool
    /** The screens BasePreferenceController.displayPreference was run on, in order. */
    var displayed: seq<Screen>

    constructor()
      ensures preferenceScreen == None && !isSatelliteSupported && !isSatelliteSmsAvailable
      ensures displayed == []
    {
      preferenceScreen := None;
      isSatelliteSupported := false;
      isSatelliteSmsAvailable := false;
      displayed := [];
    }

    /** displayPreference(screen): the base display, then the screen is remembered. */
    method DisplayPreference(screen: Screen)
      modifies this`preferenceScreen, this`displayed
      ensures displayed == old(displayed) + [screen]
      ensures preferenceScreen == StoredScreen(old(preferenceScreen), screen)
    {
      displayed := displayed + [screen];
      if preferenceScreen.None? {
        preferenceScreen := Some(screen);
      }
    }

    /** displayPreference(): redisplay the remembered screen, if there is one. */
    method Redisplay()
      modifies this`preferenceScreen, this`displayed
      ensures preferenceScreen == old(preferenceScreen)
      ensures old(preferenceScreen).Some? ==> displayed == old(displayed) + [old(preferenceScreen).value]
      ensures old(preferenceScreen).None? ==> displayed == old(displayed)
    {
      if preferenceScreen.Some? {
        DisplayPreference(preferenceScreen.value);
      }
    }

    /** The requestIsSupported OutcomeReceiver: record the answer and refresh. */
    method OnIsSupportedResult(result: bool)
      modifies this`isSatelliteSupported, this`preferenceScreen, this`displayed
      ensures isSatelliteSupported == result
      ensures preferenceScreen == old(preferenceScreen)
      ensures old(preferenceScreen).Some? ==> displayed == old(displayed) + [old(preferenceScreen).value]
      ensures old(preferenceScreen).None? ==> displayed == old(displayed)
    {
      isSatelliteSupported := result;
      Redisplay();
    }

    /** onCarrierRoamingNtnAvailableServicesChanged: SMS availability is membership of SMS. */
    method OnAvailableServicesChanged(availableServices: seq<int>)
      modifies this`isSatelliteSmsAvailable, this`preferenceScreen, this`displayed
      ensures isSatelliteSmsAvailable <==> ServiceTypeSms in availableServices
      ensures preferenceScreen == old(preferenceScreen)
      ensures old(preferenceScreen).Some? ==> displayed == old(displayed) + [old(preferenceScreen).value]
      ensures old(preferenceScreen).None? ==> displayed == old(displayed)
    {
      isSatelliteSmsAvailable := ServiceTypeSms in availableServices;
      Redisplay();
    }

    /**
     * getAvailabilityStatus. A manual connection type needs requestIsSupported to have said yes,
     * and every type needs attach support; then the category shows (unsearchable) for eSOS under
     * the OEM-settings migration, for the automatic type, or when satellite SMS is available.
     */
    function GetAvailabilityStatus(carrierEnabledSatelliteFlag: bool, oemSettingsUxMigrationFlag: bool, config: CarrierConfig): (s: Status)
      reads this
      ensures !carrierEnabledSatelliteFlag ==> s == UnsupportedOnDevice
      ensures carrierEnabledSatelliteFlag && config.IsConnectTypeManual() && !isSatelliteSupported ==> s == UnsupportedOnDevice
      ensures !config.GetBoolean(SatelliteAttachSupported) ==> s == UnsupportedOnDevice
      ensures s == AvailableUnsearchable <==>
        carrierEnabledSatelliteFlag
        && (!config.IsConnectTypeManual() || isSatelliteSupported)
        && config.GetBoolean(SatelliteAttachSupported)
        && ((oemSettingsUxMigrationFlag && config.GetBoolean(SatelliteEsosSupported))
            || !config.IsConnectTypeManual() || isSatelliteSmsAvailable)
      ensures s in {AvailableUnsearchable, ConditionallyUnavailable, UnsupportedOnDevice}
    {
      if !carrierEnabledSatelliteFlag then UnsupportedOnDevice
      else
        var isAuto := config.ConnectType() == CarrierRoamingNtnConnectAutomatic;
        if !isAuto && !isSatelliteSupported then UnsupportedOnDevice
        else
          var sosSupported := oemSettingsUxMigrationFlag && config.GetBoolean(SatelliteEsosSupported);
          if !config.GetBoolean(SatelliteAttachSupported) then UnsupportedOnDevice
          else if sosSupported then AvailableUnsearchable
          else if isAuto then AvailableUnsearchable
          else if isSatelliteSmsAvailable then AvailableUnsearchable
          else ConditionallyUnavailable
    }
  }
}
