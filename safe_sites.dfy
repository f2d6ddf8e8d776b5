// supervision/SupervisionSafeSitesDataStore: the two safe-sites radio preferences ("allow all
// sites" and "block explicit sites") read and write one secure setting,
// BROWSER_CONTENT_FILTERS_ENABLED.

module SafeSites {
  import opened Wrappers

  /** The preference keys the store is asked about. */
  datatype Key = BlockExplicitSites | AllowAllSites | OtherKey(name: string)

  /** A value handed to setValue: a Boolean, or any other object. */
  datatype Value = BoolValue(b: bool) | OtherValue

  /** contains: only the two safe-sites keys. */
  predicate Contains(key: Key): (r: bool)
    ensures !r <==> key.OtherKey?
  {
    key == BlockExplicitSites || key == AllowAllSites
  }

  /** The secure settings store, reduced to the one setting; None while it is unset. */
  class SafeSitesDataStore {
    var contentFiltersEnabled: Option<bool>

    constructor (contentFiltersEnabled: Option<bool>)
      ensures this.contentFiltersEnabled == contentFiltersEnabled
    {
      this.contentFiltersEnabled := contentFiltersEnabled;
    }

    /** getValue: "allow all" is the negation of the setting, "block explicit" the setting itself; an unset setting reads false. */
    function GetValue(key: Key): (v: Option<bool>)
      reads this
      ensures v.Some? <==> Contains(key)
      ensures key == BlockExplicitSites ==> v == Some(contentFiltersEnabled == Some(true))
      ensures key == AllowAllSites ==> v == Some(contentFiltersEnabled != Some(true))
    {
      var settingValue := contentFiltersEnabled == Some(true);
      match key
      case AllowAllSites => Some(!settingValue)
      case BlockExplicitSites => Some(settingValue)
      case OtherKey(_) => None
    }

    /** setValue: a Boolean for "allow all" stores its negation, for "block explicit" itself; anything else is ignored. */
    method SetValue(key: Key, value: Option<Value>)
      modifies this
      ensures value.Some? && value.value.BoolValue? && key == AllowAllSites ==> contentFiltersEnabled == Some(!value.value.b)
      ensures value.Some? && value.value.BoolValue? && key == BlockExplicitSites ==> contentFiltersEnabled == Some(value.value.b)
      ensures value.None? || value.value.OtherValue? || !Contains(key) ==> contentFiltersEnabled == old(contentFiltersEnabled)
      ensures value.Some? && value.value.BoolValue? && Contains(key) ==> GetValue(key) == Some(value.value.b)
    {
      if value.None? || !value.value.BoolValue? {
        return;
      }
      match key {
        case AllowAllSites => contentFiltersEnabled := Some(!value.value.b);
        case BlockExplicitSites => contentFiltersEnabled := Some(value.value.b);
        case OtherKey(_) =>
      }
    }
  }

  /** The two radio buttons always read as opposites, whatever the setting holds. */
  lemma AllowAndBlockAreOpposite(store: SafeSitesDataStore)
    ensures store.GetValue(AllowAllSites).Some? && store.GetValue(BlockExplicitSites).Some?
    ensures store.GetValue(AllowAllSites).value != store.GetValue(BlockExplicitSites).value
  {
  }
}
