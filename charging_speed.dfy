// fuelgauge/ChargingSpeedPreferenceController: the charging-speed list keeps only the modes the
// health HAL supports, selects the current mode, and writes a chosen mode through the HAL.

module ChargingSpeed {
  import opened Wrappers
  import opened Availability
  import opened JavaInt

  /** Every entry value parses with Integer.parseInt. */
  predicate AllParse(values: seq<string>)
  {
    forall i :: 0 <= i < |values| ==> ParseInt(values[i]).Some?
  }

  /** The value at index i is a mode the HAL supports. */
  predicate IsSupportedAt(values: seq<string>, supported: seq<int>, i: int)
    requires 0 <= i < |values|
  {
    ParseInt(values[i]).Some? && ParseInt(values[i]).value in supported
  }

  /** The positions from `from` on whose value is supported, in increasing order. */
  function SupportedIndicesFrom(values: seq<string>, supported: seq<int>, from: nat): (idx: seq<int>)
    requires from <= |values|
    decreases |values| - from
    ensures forall j :: 0 <= j < |idx| ==> from <= idx[j] < |values|
  {
    if from == |values| then []
    else
      var rest := SupportedIndicesFrom(values, supported, from + 1);
      if IsSupportedAt(values, supported, from) then [from] + rest else rest
  }

  /** Every listed position holds a supported value. */
  lemma {:induction false} SupportedIndicesSupported(values: seq<string>, supported: seq<int>, from: nat)
    requires from <= |values|
    decreases |values| - from
    ensures forall j :: 0 <= j < |SupportedIndicesFrom(values, supported, from)| ==>
      IsSupportedAt(values, supported, SupportedIndicesFrom(values, supported, from)[j])
  {
    if from < |values| {
      SupportedIndicesSupported(values, supported, from + 1);
      var rest := SupportedIndicesFrom(values, supported, from + 1);
      if IsSupportedAt(values, supported, from) {
        var idx := [from] + rest;
        assert idx == SupportedIndicesFrom(values, supported, from);
        forall j | 0 <= j < |idx|
          ensures IsSupportedAt(values, supported, idx[j])
        {
          if j > 0 {
            assert idx[j] == rest[j - 1];
          }
        }
      }
    }
  }

  /** The positions are listed in increasing order, so the filter keeps the original order. */
  lemma {:induction false} SupportedIndicesIncreasing(values: seq<string>, supported: seq<int>, from: nat)
    requires from <= |values|
    decreases |values| - from
    ensures forall j, l :: 0 <= j < l < |SupportedIndicesFrom(values, supported, from)| ==>
      SupportedIndicesFrom(values, supported, from)[j] < SupportedIndicesFrom(values, supported, from)[l]
  {
    if from < |values| {
      SupportedIndicesIncreasing(values, supported, from + 1);
      var rest := SupportedIndicesFrom(values, supported, from + 1);
      if IsSupportedAt(values, supported, from) {
        var idx := [from] + rest;
        assert idx == SupportedIndicesFrom(values, supported, from);
        forall j, l | 0 <= j < l < |idx|
          ensures idx[j] < idx[l]
        {
          assert idx[l] == rest[l - 1];
          if j > 0 {
            assert idx[j] == rest[j - 1];
          }
        }
      }
    }
  }

  /** Every supported position is listed. */
  lemma {:induction false} SupportedIndicesComplete(values: seq<string>, supported: seq<int>, from: nat)
    requires from <= |values|
    decreases |values| - from
    ensures forall i :: from <= i < |values| && IsSupportedAt(values, supported, i) ==>
      i in SupportedIndicesFrom(values, supported, from)
  {
    if from < |values| {
      SupportedIndicesComplete(values, supported, from + 1);
    }
  }

  /** The entries and values from `from` on, with the unsupported pairs dropped. */
  function KeepSupportedFrom(entries: seq<string>, values: seq<string>, supported: seq<int>, from: nat)
    : (seq<string>, seq<string>)
    requires |entries| == |values| && from <= |values|
    decreases |values| - from
  {
    if from == |values| then ([], [])
    else
      var rest := KeepSupportedFrom(entries, values, supported, from + 1);
      if IsSupportedAt(values, supported, from) then ([entries[from]] + rest.0, [values[from]] + rest.1)
      else rest
  }

  /** The filtered lists: pair j of the result is pair idx[j] of the input. */
  function KeepSupported(entries: seq<string>, values: seq<string>, supported: seq<int>): (seq<string>, seq<string>)
    requires |entries| == |values|
  {
    KeepSupportedFrom(entries, values, supported, 0)
  }

  /**
   * The filter keeps entries and values in lockstep: pair j of the result is the pair at the
   * j-th supported position, so the lists stay of equal length and in their original order.
   */
  lemma {:induction false} KeepSupportedMatchesIndices(entries: seq<string>, values: seq<string>, supported: seq<int>, from: nat)
    requires |entries| == |values| && from <= |values|
    decreases |values| - from
    ensures var r := KeepSupportedFrom(entries, values, supported, from);
      var idx := SupportedIndicesFrom(values, supported, from);
      |r.0| == |idx| && |r.1| == |idx| &&
      forall j :: 0 <= j < |idx| ==> r.0[j] == entries[idx[j]] && r.1[j] == values[idx[j]]
  {
    if from < |values| {
      KeepSupportedMatchesIndices(entries, values, supported, from + 1);
      var rest := KeepSupportedFrom(entries, values, supported, from + 1);
      var restIdx := SupportedIndicesFrom(values, supported, from + 1);
      if IsSupportedAt(values, supported, from) {
        var r := ([entries[from]] + rest.0, [values[from]] + rest.1);
        var idx := [from] + restIdx;
        assert r == KeepSupportedFrom(entries, values, supported, from);
        assert idx == SupportedIndicesFrom(values, supported, from);
        forall j | 0 <= j < |idx|
          ensures r.0[j] == entries[idx[j]] && r.1[j] == values[idx[j]]
        {
          if j > 0 {
            assert r.0[j] == rest.0[j - 1] && r.1[j] == rest.1[j - 1] && idx[j] == restIdx[j - 1];
          }
        }
      }
    }
  }

  /** One index of ListPreference's entry list: the last position holding `value`, or -1. */
  function FindIndexOfValue(values: seq<string>, value: string): (i: int)
    ensures -1 <= i < |values|
    ensures i >= 0 ==> values[i] == value && forall l :: i < l < |values| ==> values[l] != value
    ensures i == -1 ==> value !in values
  {
    if |values| == 0 then -1
    else if values[|values| - 1] == value then |values| - 1
    else FindIndexOfValue(values[..|values| - 1], value)
  }

  /**
   * The loop of displayPreference: walking from the last pair to the first, every pair whose
   * value is not a supported mode is removed from both lists; an unparseable value throws
   * NumberFormatException.
   */
  method FilterSupportedModes(entries: seq<string>, entryValues: seq<string>, supported: seq<int>)
    returns (r: Result<(seq<string>, seq<string>)>)
    requires |entries| == |entryValues|
    ensures !AllParse(entryValues) <==> r == Failure("NumberFormatException")
    ensures AllParse(entryValues) ==> r == Success(KeepSupported(entries, entryValues, supported))
    ensures r.Success? ==> |r.value.0| == |r.value.1|
  {
    var es, vs := entries, entryValues;
    var i := |vs|;
    while i > 0
      invariant 0 <= i <= |entryValues|
      invariant forall k :: i <= k < |entryValues| ==> ParseInt(entryValues[k]).Some?
      invariant var kept := KeepSupportedFrom(entries, entryValues, supported, i);
        es == entries[..i] + kept.0 && vs == entryValues[..i] + kept.1
    {
      i := i - 1;
      var fastChargeMode := ParseInt(vs[i]);
      assert vs[i] == entryValues[i];
      if fastChargeMode.None? {
        return Failure("NumberFormatException");
      }
      var rest := KeepSupportedFrom(entries, entryValues, supported, i + 1);
      assert es == entries[..i] + ([entries[i]] + rest.0) by {
        assert entries[..i + 1] == entries[..i] + [entries[i]];
      }
      assert vs == entryValues[..i] + ([entryValues[i]] + rest.1) by {
        assert entryValues[..i + 1] == entryValues[..i] + [entryValues[i]];
      }
      if fastChargeMode.value !in supported {
        assert es[..i] == entries[..i] && es[i + 1..] == rest.0;
        assert vs[..i] == entryValues[..i] && vs[i + 1..] == rest.1;
        es := es[..i] + es[i + 1..];
        vs := vs[..i] + vs[i + 1..];
      }
    }
    var kept := KeepSupportedFrom(entries, entryValues, supported, 0);
    assert es == [] + kept.0 && vs == [] + kept.1;
    assert es == kept.0 && vs == kept.1;
    assert kept == (kept.0, kept.1);
    KeepSupportedMatchesIndices(entries, entryValues, supported, 0);
    return Success((es, vs));
  }

  /** The index updateState selects for a mode: its entry, or the first entry when it has none. */
  function SelectedIndex(values: seq<string>, mode: int): (i: int)
    ensures 0 <= i && (|values| > 0 ==> i < |values|)
    ensures IntToString(mode) in values ==> values[i] == IntToString(mode)
    ensures IntToString(mode) !in values ==> i == 0
  {
    var found := FindIndexOfValue(values, IntToString(mode));
    if found < 0 then 0 else found
  }

  /** The health HAL, reduced to the state this controller reads and writes. */
  class HealthInterface {
    const fastChargeSupported: bool
    const supportedFastChargeModes: seq<int>
    var fastChargeMode: int

    constructor (fastChargeSupported: bool, supportedFastChargeModes: seq<int>, fastChargeMode: int)
      ensures this.fastChargeSupported == fastChargeSupported
      ensures this.supportedFastChargeModes == supportedFastChargeModes
      ensures this.fastChargeMode == fastChargeMode
    {
      this.fastChargeSupported := fastChargeSupported;
      this.supportedFastChargeModes := supportedFastChargeModes;
      this.fastChargeMode := fastChargeMode;
    }

    /** setFastChargeMode: the HAL's answer is a parameter; an accepted mode becomes current. */
    method SetFastChargeMode(mode: int, halAccepts: bool) returns (ok: bool)
      modifies this
      ensures ok == halAccepts
      ensures fastChargeMode == if ok then mode else old(fastChargeMode)
    {
      if halAccepts {
        fastChargeMode := mode;
      }
      return halAccepts;
    }
  }

  class ChargingSpeedController {
    /** None when HealthInterface.getInstance threw. */
    const health: Option<HealthInterface>
    /** The list preference's entries, entry values and selected index. */
    var entries: seq<string>
    var entryValues: seq<string>
    var valueIndex: int

    constructor (health: Option<HealthInterface>, entries: seq<string>, entryValues: seq<string>)
      ensures this.health == health && this.entries == entries && this.entryValues == entryValues
      ensures valueIndex == 0
    {
      this.health := health;
      this.entries := entries;
      this.entryValues := entryValues;
      valueIndex := 0;
    }

    /** getAvailabilityStatus: a HAL that supports fast charging. */
    function GetAvailabilityStatus(): (s: Status)
      reads this, if health.Some? then {health.value} else {}
      ensures s == Available <==> health.Some? && health.value.fastChargeSupported
      ensures s != Available ==> s == UnsupportedOnDevice
    {
      if health.Some? && health.value.fastChargeSupported then Available else UnsupportedOnDevice
    }

    /**
     * displayPreference: on an unsupported device the lists stay as they are; otherwise they are
     * replaced by the filtered lists, unless a value does not parse.
     */
    method DisplayPreference() returns (r: Result<()>)
      requires |entries| == |entryValues|
      modifies this`entries, this`entryValues
      ensures GetAvailabilityStatus() == UnsupportedOnDevice ==> r.Success? && unchanged(this)
      ensures GetAvailabilityStatus() == Available && !AllParse(old(entryValues)) ==>
        r == Failure("NumberFormatException") && unchanged(this)
      ensures GetAvailabilityStatus() == Available && AllParse(old(entryValues)) ==>
        r.Success? &&
        (entries, entryValues) == KeepSupported(old(entries), old(entryValues), health.value.supportedFastChargeModes)
      ensures |entries| == |entryValues|
    {
      if GetAvailabilityStatus() == UnsupportedOnDevice {
        return Success(());
      }
      var filtered := FilterSupportedModes(entries, entryValues, health.value.supportedFastChargeModes);
      if filtered.Failure? {
        return Failure(filtered.exception);
      }
      entries, entryValues := filtered.value.0, filtered.value.1;
      return Success(());
    }

    /** updateState: selects the current HAL mode's entry, or the first entry when it has none. */
    method UpdateState()
      requires health.Some?
      modifies this`valueIndex
      ensures valueIndex == SelectedIndex(entryValues, health.value.fastChargeMode)
    {
      var index := FindIndexOfValue(entryValues, IntToString(health.value.fastChargeMode));
      if index < 0 {
        index := 0;
      }
      valueIndex := index;
    }

    /**
     * onPreferenceChange: the new value is parsed and handed to the HAL; true, with the list
     * re-selected, exactly when the HAL accepts it.
     */
    method OnPreferenceChange(newValue: string, halAccepts: bool) returns (r: Result<bool>)
      requires health.Some?
      modifies health.value, this`valueIndex
      ensures ParseInt(newValue).None? ==> r == Failure("NumberFormatException")
      ensures ParseInt(newValue).Some? ==> r == Success(halAccepts)
      ensures r == Success(true) ==>
        health.value.fastChargeMode == ParseInt(newValue).value &&
        valueIndex == SelectedIndex(entryValues, ParseInt(newValue).value)
      ensures r != Success(true) ==> health.value.fastChargeMode == old(health.value.fastChargeMode)
    {
      var mode := ParseInt(newValue);
      if mode.None? {
        return Failure("NumberFormatException");
      }
      var ok := health.value.SetFastChargeMode(mode.value, halAccepts);
      if ok {
        UpdateState();
        return Success(true);
      }
      return Success(false);
    }
  }
}
