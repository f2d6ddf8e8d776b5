// display/ColorModeUtils: the map from color mode to its display name, built from two
// resource arrays, and the name of the active color mode.

module ColorMode {
  import opened Wrappers

  /** ColorDisplayManager color modes. */
  const ColorModeNatural: int := 0
  const ColorModeBoosted: int := 1
  const ColorModeSaturated: int := 2
  const ColorModeAutomatic: int := 3
  const VendorColorModeRangeMin: int := 256
  const VendorColorModeRangeMax: int := 511

  /** The filterKeys predicate: the four standard modes and the vendor range. */
  predicate IsKnownColorMode(colorMode: int)
  {
    colorMode == ColorModeNatural || colorMode == ColorModeBoosted ||
    colorMode == ColorModeSaturated || colorMode == ColorModeAutomatic ||
    (VendorColorModeRangeMin <= colorMode && colorMode <= VendorColorModeRangeMax)
  }

  /** No later position of `values` holds values[j]: position j is the one toMap keeps. */
  predicate LastOccurrence(values: seq<int>, j: int)
    requires 0 <= j < |values|
  {
    forall l :: j < l < |values| ==> values[l] != values[j]
  }

  /** values.zip(strings).toMap(), pairing from the front, so a later pair overwrites an earlier one. */
  function ZipToMap(values: seq<int>, strings: seq<string>): map<int, string>
    requires |values| == |strings|
  {
    if |values| == 0 then map[]
    else
      var n := |values| - 1;
      ZipToMap(values[..n], strings[..n])[values[n] := strings[n]]
  }

  /** The keys of the zipped map are exactly the values. */
  lemma {:induction false} ZipToMapKeys(values: seq<int>, strings: seq<string>)
    requires |values| == |strings|
    ensures forall k :: k in ZipToMap(values, strings) <==> k in values
  {
    if |values| > 0 {
      var n := |values| - 1;
      ZipToMapKeys(values[..n], strings[..n]);
      assert values == values[..n] + [values[n]];
    }
  }

  /** A value's last occurrence decides its string. */
  lemma {:induction false} ZipToMapLast(values: seq<int>, strings: seq<string>, j: nat)
    requires |values| == |strings| && j < |values| && LastOccurrence(values, j)
    ensures values[j] in ZipToMap(values, strings) && ZipToMap(values, strings)[values[j]] == strings[j]
  {
    var n := |values| - 1;
    if j < n {
      assert values[n] != values[j];
      var front := values[..n];
      assert LastOccurrence(front, j) by {
        forall l | j < l < |front|
          ensures front[l] != front[j]
        {
          assert front[l] == values[l];
        }
      }
      ZipToMapLast(front, strings[..n], j);
    }
  }

  /** Every last occurrence decides its string. */
  lemma ZipToMapAllLast(values: seq<int>, strings: seq<string>)
    requires |values| == |strings|
    ensures forall j :: 0 <= j < |values| && LastOccurrence(values, j) ==>
      values[j] in ZipToMap(values, strings) && ZipToMap(values, strings)[values[j]] == strings[j]
  {
    forall j | 0 <= j < |values| && LastOccurrence(values, j)
      ensures values[j] in ZipToMap(values, strings) && ZipToMap(values, strings)[values[j]] == strings[j]
    {
      ZipToMapLast(values, strings, j);
    }
  }

  /**
   * getColorModeMapping: unequal arrays throw; otherwise the zipped map restricted to the known
   * color modes.
   */
  function GetColorModeMapping(strings: seq<string>, values: seq<int>): (r: Result<map<int, string>>)
    ensures r.Failure? <==> |strings| != |values|
    ensures r.Failure? ==> r.exception == "RuntimeException"
    ensures r.Success? ==> forall k :: k in r.value <==> k in values && IsKnownColorMode(k)
    ensures r.Success? ==> forall j :: 0 <= j < |values| && LastOccurrence(values, j) && IsKnownColorMode(values[j]) ==>
      r.value[values[j]] == strings[j]
  {
    if |strings| != |values| then Failure("RuntimeException")
    else
      var zipped := ZipToMap(values, strings);
      ZipToMapKeys(values, strings);
      ZipToMapAllLast(values, strings);
      Success(map k | k in zipped && IsKnownColorMode(k) :: zipped[k])
  }

  /** getActiveColorModeName: the mode's name, or "" when the mode has no entry. */
  function GetActiveColorModeName(strings: seq<string>, values: seq<int>, colorMode: int): (r: Result<string>)
    ensures r.Failure? <==> |strings| != |values|
    ensures r.Success? && (colorMode !in values || !IsKnownColorMode(colorMode)) ==> r.value == ""
    ensures r.Success? ==> forall j ::
      (0 <= j < |values| && values[j] == colorMode && LastOccurrence(values, j) && IsKnownColorMode(colorMode)) ==>
        r.value == strings[j]
  {
    var mapping := GetColorModeMapping(strings, values);
    if mapping.Failure? then Failure(mapping.exception)
    else if colorMode in mapping.value then Success(mapping.value[colorMode])
    else Success("")
  }

  /** A mode outside the standard four and the vendor range never gets a name, whatever the arrays say. */
  lemma UnknownModeHasNoName(strings: seq<string>, values: seq<int>, colorMode: int)
    requires |strings| == |values|
    requires !IsKnownColorMode(colorMode)
    ensures GetActiveColorModeName(strings, values, colorMode) == Success("")
  {
  }
}
