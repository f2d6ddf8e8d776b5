// security/ActionDisabledByAdvancedProtectionDialog: which message the dialog shows for the
// feature id and dialog type carried by its intent.

module AdvancedProtectionDialog {
  import opened Wrappers

  /** AdvancedProtectionManager feature ids. */
  const FeatureIdDisallowCellular2g: int := 0
  const FeatureIdDisallowInstallUnknownSources: int := 1
  const FeatureIdDisallowUsb: int := 2
  const FeatureIdDisallowWep: int := 3
  const FeatureIdEnableMte: int := 4

  /** AdvancedProtectionManager support dialog types. */
  const SupportDialogTypeUnknown: int := 0
  const SupportDialogTypeBlockedInteraction: int := 1
  const SupportDialogTypeDisabledSetting: int := 2

  const FeatureIdsWithSettingOn: set<int> := {FeatureIdDisallowCellular2g, FeatureIdEnableMte}
  const FeatureIdsWithSettingOff: set<int> := {FeatureIdDisallowWep, FeatureIdDisallowInstallUnknownSources}

  /** The string resources the dialog can show. */
  datatype Message = SettingIsOnMessage | SettingIsOffMessage | WepActionMessage | ActionMessage

  const DefaultMessage: Message := ActionMessage

  lemma OnAndOffSetsDisjoint()
    ensures FeatureIdsWithSettingOn !! FeatureIdsWithSettingOff
  {
  }

  /** getIntentFeatureId / getIntentDialogueType: the extras, or -1 and UNKNOWN when absent. */
  function IntentFeatureId(extra: Option<int>): (featureId: int)
    ensures extra.Some? ==> featureId == extra.value
    ensures extra.None? ==> featureId == -1
  {
    extra.GetOr(-1)
  }

  function IntentDialogType(extra: Option<int>): (dialogType: int)
    ensures extra.Some? ==> dialogType == extra.value
    ensures extra.None? ==> dialogType == SupportDialogTypeUnknown
  {
    extra.GetOr(SupportDialogTypeUnknown)
  }

  /** getDialogMessage: the decision over dialog type and feature id. */
  function GetDialogMessage(featureId: int, dialogType: int): (m: Message)
    ensures m == SettingIsOnMessage <==>
      dialogType == SupportDialogTypeDisabledSetting && featureId in FeatureIdsWithSettingOn
    ensures m == SettingIsOffMessage <==>
      dialogType == SupportDialogTypeDisabledSetting && featureId in FeatureIdsWithSettingOff
    ensures m == WepActionMessage <==>
      dialogType == SupportDialogTypeBlockedInteraction && featureId == FeatureIdDisallowWep
    ensures dialogType !in {SupportDialogTypeDisabledSetting, SupportDialogTypeBlockedInteraction} ==>
      m == DefaultMessage
  {
    if dialogType == SupportDialogTypeDisabledSetting then
      if featureId in FeatureIdsWithSettingOn then SettingIsOnMessage
      else if featureId in FeatureIdsWithSettingOff then SettingIsOffMessage
      else DefaultMessage
    else if dialogType == SupportDialogTypeBlockedInteraction then
      if featureId == FeatureIdDisallowWep then WepActionMessage else ActionMessage
    else DefaultMessage
  }

  /** An intent without either extra shows the default message. */
  lemma MissingExtrasShowDefault()
    ensures GetDialogMessage(IntentFeatureId(None), IntentDialogType(None)) == DefaultMessage
  {
  }

  /** WEP is the one feature whose message depends on the dialog type in all three ways. */
  lemma WepMessages()
    ensures GetDialogMessage(FeatureIdDisallowWep, SupportDialogTypeDisabledSetting) == SettingIsOffMessage
    ensures GetDialogMessage(FeatureIdDisallowWep, SupportDialogTypeBlockedInteraction) == WepActionMessage
    ensures GetDialogMessage(FeatureIdDisallowWep, SupportDialogTypeUnknown) == DefaultMessage
  {
  }
}
