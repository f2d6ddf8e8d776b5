// localepicker/LocalePickerWithRegionActivity: which region dialog, if any, follows the choice of
// a locale in the picker.

module LocalePicker {
  import opened RegionDialog

  /** The three outcomes of getDialogEvent (DISPOSE = -1, system = 0, preferred = 1). */
  datatype DialogEvent = Dispose | ShowDialogForSystemLanguage | ShowDialogForPreferredLanguage

  /** What onLocaleSelected does with the chosen locale. */
  datatype Selection =
    | Disposed
    | SystemLanguageDialog
    | PreferredLanguageDialog(replaced: Locale)

  /** -1 disposes, the first position asks about the system language, any later one about a preferred one. */
  function GetDialogEvent(index: int): (e: DialogEvent)
    ensures e == Dispose <==> index == -1
    ensures e == ShowDialogForSystemLanguage <==> index == 0
    ensures e == ShowDialogForPreferredLanguage <==> index != -1 && index != 0
  {
    if index == -1 then Dispose
    else if index == 0 then ShowDialogForSystemLanguage
    else ShowDialogForPreferredLanguage
  }

  /** indexOfSameLanguageAndScript: the LAST position of the list that matches, or -1. */
  method IndexOfSameLanguageAndScript(source: Locale, localeList: seq<Locale>) returns (index: int)
    ensures -1 <= index < |localeList|
    ensures index == -1 <==> forall j :: 0 <= j < |localeList| ==> !SameLanguageAndScript(source, localeList[j])
    ensures index >= 0 ==> SameLanguageAndScript(source, localeList[index])
    ensures index >= 0 ==> forall j :: index < j < |localeList| ==> !SameLanguageAndScript(source, localeList[j])
  {
    index := -1;
    var i := 0;
    while i < |localeList|
      invariant 0 <= i <= |localeList|
      invariant -1 <= index < i
      invariant index >= 0 ==> SameLanguageAndScript(source, localeList[index])
      invariant forall j :: index < j < i ==> !SameLanguageAndScript(source, localeList[j])
    {
      if SameLanguageAndScript(source, localeList[i]) {
        index := i;
      }
      i := i + 1;
    }
  }

  /**
   * onLocaleSelected: with the regional-preferences flag off the locale is always disposed;
   * with it on, the last matching position of the device list chooses the dialog, and the
   * preferred-language dialog is told which locale it replaces.
   */
  method OnLocaleSelected(regionalPreferencesApiEnabled: bool, locale: Locale, localeList: seq<Locale>)
    returns (selection: Selection)
    ensures !regionalPreferencesApiEnabled ==> selection == Disposed
    ensures regionalPreferencesApiEnabled ==>
      (selection == Disposed <==> forall j :: 0 <= j < |localeList| ==> !SameLanguageAndScript(locale, localeList[j]))
    ensures selection.PreferredLanguageDialog? ==>
      selection.replaced in localeList && SameLanguageAndScript(locale, selection.replaced)
    ensures selection == SystemLanguageDialog ==>
      |localeList| > 0 && SameLanguageAndScript(locale, localeList[0]) &&
      forall j :: 0 < j < |localeList| ==> !SameLanguageAndScript(locale, localeList[j])
    ensures regionalPreferencesApiEnabled ==>
      forall i :: 0 <= i < |localeList| && SameLanguageAndScript(locale, localeList[i]) &&
                  (forall j :: i < j < |localeList| ==> !SameLanguageAndScript(locale, localeList[j])) ==>
        selection == if i == 0 then SystemLanguageDialog else PreferredLanguageDialog(localeList[i])
  {
    if regionalPreferencesApiEnabled {
      var index := IndexOfSameLanguageAndScript(locale, localeList);
      forall i | 0 <= i < |localeList| && SameLanguageAndScript(locale, localeList[i]) &&
                 (forall j :: i < j < |localeList| ==> !SameLanguageAndScript(locale, localeList[j]))
        ensures i == index
      {
        if i < index {
          assert false;
        } else if index < i {
          assert false;
        }
      }
      match GetDialogEvent(index) {
        case ShowDialogForSystemLanguage =>
          selection := SystemLanguageDialog;
        case ShowDialogForPreferredLanguage =>
          selection := PreferredLanguageDialog(localeList[index]);
        case Dispose =>
          selection := Disposed;
      }
    } else {
      selection := Disposed;
    }
  }
}
