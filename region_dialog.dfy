// regionalpreferences/RegionDialogFragment: language/script matching and the rewrite of the
// device locale list when the user confirms a new region.

module RegionDialog {
  /** The parts of java.util.Locale the dialog reads: subtags and the extension map. */
  datatype Locale = Locale(language: string, script: string, region: string, extensions: map<char, string>)

  const DialogChangeSystemLocaleRegion: int := 1
  const DialogChangePreferredLocaleRegion: int := 2
  /** DialogInterface.BUTTON_POSITIVE. */
  const ButtonPositive: int := -1

  /**
   * Two locales match when their languages are equal and their scripts do not contradict:
   * an empty script on either side matches any script.
   */
  predicate SameLanguageAndScript(source: Locale, target: Locale): (r: bool)
    ensures r ==> source.language == target.language
    ensures source.language == target.language && (source.script == "" || target.script == "") ==> r
    ensures source.language == target.language && source.script == target.script ==> r
    ensures source.script != "" && target.script != "" && source.script != target.script ==> !r
  {
    if source.language == target.language then
      if source.script != "" && target.script != "" then source.script == target.script else true
    else false
  }

  lemma SameLanguageAndScriptSymmetric(a: Locale, b: Locale)
    ensures SameLanguageAndScript(a, b) == SameLanguageAndScript(b, a)
  {
  }

  /** The relation is not transitive: a script-less locale bridges two different scripts. */
  lemma SameLanguageAndScriptNotTransitive()
    ensures exists a: Locale, b: Locale, c: Locale ::
      SameLanguageAndScript(a, b) && SameLanguageAndScript(b, c) && !SameLanguageAndScript(a, c)
  {
    var a := Locale("sr", "Latn", "", map[]);
    var b := Locale("sr", "", "", map[]);
    var c := Locale("sr", "Cyrl", "", map[]);
    assert SameLanguageAndScript(a, b) && SameLanguageAndScript(b, c);
    assert a.script != c.script;
  }

  /**
   * appendLocaleExtension: the selected locale, with every extension of the system locale copied
   * onto it (a system extension replaces the selected one under the same key).
   */
  function AppendLocaleExtension(selected: Locale, system: Locale): (r: Locale)
    ensures r.language == selected.language && r.script == selected.script && r.region == selected.region
    ensures r.extensions.Keys == selected.extensions.Keys + system.extensions.Keys
    ensures forall k :: k in system.extensions ==> r.extensions[k] == system.extensions[k]
    ensures forall k :: k in selected.extensions && k !in system.extensions ==>
      r.extensions[k] == selected.extensions[k]
  {
    selected.(extensions := selected.extensions + system.extensions)
  }

  /**
   * getUpdatedLocales: a new array as long as the default locale list, in which every entry that
   * matches the selected locale is replaced by the selected locale with the system extensions.
   */
  method GetUpdatedLocales(defaults: seq<Locale>, selected: Locale, system: Locale)
    returns (newLocales: array<Locale>)
    ensures fresh(newLocales) && newLocales.Length == |defaults|
    ensures forall i :: 0 <= i < |defaults| && SameLanguageAndScript(selected, defaults[i]) ==>
      newLocales[i] == AppendLocaleExtension(selected, system)
    ensures forall i :: 0 <= i < |defaults| && !SameLanguageAndScript(selected, defaults[i]) ==>
      newLocales[i] == defaults[i]
  {
    newLocales := new Locale[|defaults|](i requires 0 <= i < |defaults| => defaults[i]);
    var i := 0;
    while i < |defaults|
      invariant 0 <= i <= |defaults|
      invariant forall j :: 0 <= j < i && SameLanguageAndScript(selected, defaults[j]) ==>
        newLocales[j] == AppendLocaleExtension(selected, system)
      invariant forall j :: 0 <= j < i && !SameLanguageAndScript(selected, defaults[j]) ==>
        newLocales[j] == defaults[j]
    {
      if SameLanguageAndScript(selected, defaults[i]) {
        newLocales[i] := AppendLocaleExtension(selected, system);
      } else {
        newLocales[i] := defaults[i];
      }
      i := i + 1;
    }
  }

  /** What a button press on the region dialog does, in order. */
  datatype ClickEffect = UpdateRegion | LogPositive(systemDialog: bool) | LogNegative(systemDialog: bool)
    | Dismiss | FinishActivity

  /**
   * onClick: only the two region dialog types react; the positive button updates the region,
   * logs, dismisses and finishes the activity (when there is one); any other button logs and
   * dismisses.
   */
  function OnClick(dialogType: int, which: int, hasActivity: bool): (effects: seq<ClickEffect>)
    ensures dialogType != DialogChangeSystemLocaleRegion && dialogType != DialogChangePreferredLocaleRegion
      <==> effects == []
    ensures UpdateRegion in effects <==>
      (dialogType == DialogChangeSystemLocaleRegion || dialogType == DialogChangePreferredLocaleRegion) &&
      which == ButtonPositive
    ensures effects != [] ==> Dismiss in effects
    ensures FinishActivity in effects <==> hasActivity && UpdateRegion in effects
    ensures UpdateRegion in effects ==>
      effects == [UpdateRegion, LogPositive(dialogType == DialogChangeSystemLocaleRegion), Dismiss]
                 + (if hasActivity then [FinishActivity] else [])
    ensures effects != [] && UpdateRegion !in effects ==>
      effects == [LogNegative(dialogType == DialogChangeSystemLocaleRegion), Dismiss]
  {
    var system := dialogType == DialogChangeSystemLocaleRegion;
    if dialogType == DialogChangeSystemLocaleRegion || dialogType == DialogChangePreferredLocaleRegion then
      if which == ButtonPositive then
        [UpdateRegion, LogPositive(system), Dismiss] + (if hasActivity then [FinishActivity] else [])
      else
        [LogNegative(system), Dismiss]
    else []
  }
}
