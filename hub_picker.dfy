// communal/WhenToStartHubPicker: the radio keys for when the glanceable hub starts, their
// Settings.Secure values, and the candidate list built from the resource arrays.

module WhenToStartHub {
  import opened Wrappers

  const ShowWhileCharging: string := "while_charging"
  const ShowWhileDocked: string := "while_docked"
  const ShowWhileChargingAndUpright: string := "while_charging_and_upright"
  const ShowNever: string := "never"
  const AllKeys: seq<string> := [ShowWhileCharging, ShowWhileDocked, ShowWhileChargingAndUpright, ShowNever]

  /** Settings.Secure.GLANCEABLE_HUB_START_* values. */
  const GlanceableHubStartNever: int := 0
  const GlanceableHubStartCharging: int := 1
  const GlanceableHubStartDocked: int := 2
  const GlanceableHubStartChargingUpright: int := 3

  /** getSettingFromPrefKey: the three named keys map to their modes, anything else to NEVER. */
  function GetSettingFromPrefKey(key: string): (setting: int)
    ensures GlanceableHubStartNever <= setting <= GlanceableHubStartChargingUpright
    ensures key == ShowWhileCharging ==> setting == GlanceableHubStartCharging
    ensures key == ShowWhileDocked ==> setting == GlanceableHubStartDocked
    ensures key == ShowWhileChargingAndUpright ==> setting == GlanceableHubStartChargingUpright
    ensures key !in [ShowWhileCharging, ShowWhileDocked, ShowWhileChargingAndUpright] ==>
      setting == GlanceableHubStartNever
  {
    if key == ShowWhileCharging then GlanceableHubStartCharging
    else if key == ShowWhileDocked then GlanceableHubStartDocked
    else if key == ShowWhileChargingAndUpright then GlanceableHubStartChargingUpright
    else GlanceableHubStartNever
  }

  /** getKeyFromSetting: the three modes map to their keys, anything else to "never". */
  function GetKeyFromSetting(setting: int): (key: string)
    ensures key in AllKeys
    ensures setting == GlanceableHubStartCharging ==> key == ShowWhileCharging
    ensures setting == GlanceableHubStartDocked ==> key == ShowWhileDocked
    ensures setting == GlanceableHubStartChargingUpright ==> key == ShowWhileChargingAndUpright
    ensures setting !in {GlanceableHubStartCharging, GlanceableHubStartDocked, GlanceableHubStartChargingUpright} ==>
      key == ShowNever
  {
    if setting == GlanceableHubStartCharging then ShowWhileCharging
    else if setting == GlanceableHubStartDocked then ShowWhileDocked
    else if setting == GlanceableHubStartChargingUpright then ShowWhileChargingAndUpright
    else ShowNever
  }

  /** Choosing a radio key and reading it back gives the same key, for each of the four keys. */
  lemma KeyRoundTrip(key: string)
    requires key in AllKeys
    ensures GetKeyFromSetting(GetSettingFromPrefKey(key)) == key
  {
  }

  /** Every stored value reads back as a key that stores a value with the same key again. */
  lemma SettingRoundTrip(setting: int)
    ensures GetKeyFromSetting(GetSettingFromPrefKey(GetKeyFromSetting(setting))) == GetKeyFromSetting(setting)
    ensures GlanceableHubStartNever <= setting <= GlanceableHubStartChargingUpright ==>
      GetSettingFromPrefKey(GetKeyFromSetting(setting)) == setting
  {
  }

  /** One radio button: its label and its key. */
  datatype Candidate = Candidate(title: string, key: string)

  /**
   * getCandidates: no or empty entries give no candidates; values missing or of another length
   * throw IllegalArgumentException; otherwise candidate i pairs entry i with value i.
   */
  method GetCandidates(entries: Option<seq<string>>, values: Option<seq<string>>)
    returns (r: Result<seq<Candidate>>)
    ensures entries.None? || |entries.value| == 0 ==> r == Success([])
    ensures entries.Some? && |entries.value| > 0 && (values.None? || |values.value| != |entries.value|) ==>
      r == Failure("IllegalArgumentException")
    ensures entries.Some? && |entries.value| > 0 && values.Some? && |values.value| == |entries.value| ==>
      r.Success? && |r.value| == |entries.value| &&
      forall i :: 0 <= i < |r.value| ==> r.value[i] == Candidate(entries.value[i], values.value[i])
  {
    var candidates: seq<Candidate> := [];
    if entries.None? || |entries.value| <= 0 {
      return Success(candidates);
    }
    if values.None? || |values.value| != |entries.value| {
      return Failure("IllegalArgumentException");
    }
    var es := entries.value;
    var vs := values.value;
    var i := 0;
    while i < |es|
      invariant 0 <= i <= |es|
      invariant |candidates| == i
      invariant forall j :: 0 <= j < i ==> candidates[j] == Candidate(es[j], vs[j])
    {
      candidates := candidates + [Candidate(es[i], vs[i])];
      i := i + 1;
    }
    return Success(candidates);
  }
}
