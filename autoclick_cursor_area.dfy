// accessibility/ToggleAutoclickCursorAreaSizeController: the five canned cursor-area sizes, the
// clamp applied to every stored size, and the summary shown for the stored size.

module AutoclickCursorArea {
  import opened Wrappers
  import opened Availability

  /** AccessibilityManager.AUTOCLICK_CURSOR_AREA_SIZE_{MIN,MAX,DEFAULT}. */
  const SizeMin: int := 20
  const SizeMax: int := 100
  const SizeDefault: int := 60

  /** The radio buttons of the size dialog; the summary uses the same five labels. */
  datatype SizeOption = ExtraLarge | Large | DefaultSize | Small | ExtraSmall

  /** RADIO_BUTTON_ID_TO_CURSOR_SIZE, forward direction. */
  function CursorSize(b: SizeOption): (size: int)
    ensures SizeMin <= size <= SizeMax && (size - SizeMin) % 20 == 0
    ensures size == SizeDefault <==> b == DefaultSize
  {
    match b
    case ExtraLarge => 100
    case Large => 80
    case DefaultSize => 60
    case Small => 40
    case ExtraSmall => 20
  }

  /** The inverse direction of the bimap: the button for a size, or null for any other size. */
  function RadioButtonForSize(size: int): (b: Option<SizeOption>)
    ensures b.Some? ==> CursorSize(b.value) == size
    ensures b.None? ==> forall o: SizeOption :: CursorSize(o) != size
  {
    if size == 100 then Some(ExtraLarge)
    else if size == 80 then Some(Large)
    else if size == 60 then Some(DefaultSize)
    else if size == 40 then Some(Small)
    else if size == 20 then Some(ExtraSmall)
    else None
  }

  /** The bimap is a bijection between the five buttons and {100, 80, 60, 40, 20}. */
  lemma RadioMapIsBijection(b: SizeOption, c: SizeOption)
    ensures RadioButtonForSize(CursorSize(b)) == Some(b)
    ensures CursorSize(b) == CursorSize(c) ==> b == c
    ensures SizeMin <= CursorSize(b) <= SizeMax
  {
  }

  /** validateSize: clamps to [MIN, MAX]. */
  function ValidateSize(size: int): (r: int)
    ensures SizeMin <= r <= SizeMax
    ensures SizeMin <= size <= SizeMax ==> r == size
    ensures size < SizeMin ==> r == SizeMin
    ensures size > SizeMax ==> r == SizeMax
  {
    var atMostMax := if size < SizeMax then size else SizeMax;
    if atMostMax > SizeMin then atMostMax else SizeMin
  }

  lemma ValidateSizeIdempotent(size: int)
    ensures ValidateSize(ValidateSize(size)) == ValidateSize(size)
  {
  }

  /** The summary label for a stored size: the four named sizes, and "default" for all others. */
  function SummaryFor(stored: int): (option: SizeOption)
    ensures var size := ValidateSize(stored);
      option == (if RadioButtonForSize(size).Some? then RadioButtonForSize(size).value else DefaultSize)
  {
    match ValidateSize(stored)
    case 100 => ExtraLarge
    case 80 => Large
    case 40 => Small
    case 20 => ExtraSmall
    case _ => DefaultSize
  }

  /** Choosing a button and reading the summary back names the same button. */
  lemma SummaryOfChosenButton(b: SizeOption)
    ensures SummaryFor(CursorSize(b)) == b
  {
  }

  /** getAvailabilityStatus: the autoclick indicator flag decides. */
  function GetAvailabilityStatus(enableAutoclickIndicator: bool): (s: Status)
    ensures s == Available <==> enableAutoclickIndicator
    ensures !enableAutoclickIndicator ==> s == ConditionallyUnavailable
  {
    if enableAutoclickIndicator then Available else ConditionallyUnavailable
  }

  /**
   * initStateBasedOnSize as written: the inverse bimap lookup returns null for a stored size that
   * is not one of the five canned sizes, and unboxing it throws; None stands for the exception.
   */
  function InitialRadioButtonAsWritten(stored: int): (b: Option<SizeOption>)
    ensures b.Some? <==> ValidateSize(stored) in {100, 80, 60, 40, 20}
  {
    RadioButtonForSize(ValidateSize(stored))
  }

  /** A stored size of 50 is within the clamp but has no radio button: opening the dialog throws. */
  lemma InitialRadioButtonThrowsFor50()
    ensures InitialRadioButtonAsWritten(50) == None
    ensures SummaryFor(50) == DefaultSize
  {
  }

  /** The dialog's initial button with the summary's fallback: every stored size selects a button. */
  function InitialRadioButton(stored: int): (b: SizeOption)
    ensures b == SummaryFor(stored)
    ensures RadioButtonForSize(ValidateSize(stored)).Some? ==> CursorSize(b) == ValidateSize(stored)
  {
    var found := RadioButtonForSize(ValidateSize(stored));
    if found.Some? then found.value else DefaultSize
  }

  /** The controller's view of Settings.Secure.ACCESSIBILITY_AUTOCLICK_CURSOR_AREA_SIZE. */
  class CursorAreaSizeSetting {
    /** The stored value; None while the setting has never been written. */
    var stored: Option<int>

    constructor (stored: Option<int>)
      ensures this.stored == stored
    {
      this.stored := stored;
    }

    /** Settings.Secure.getInt with the DEFAULT size as fallback. */
    function CurrentSize(): (size: int)
      reads this
      ensures stored.Some? ==> size == stored.value
      ensures stored.None? ==> size == SizeDefault
    {
      stored.GetOr(SizeDefault)
    }

    /**
     * getSummary: the label of the button for the clamped stored size, "default" for a clamped
     * size that is not canned, and "default" while nothing is stored.
     */
    function GetSummary(): (option: SizeOption)
      reads this
      ensures stored.None? ==> option == DefaultSize
      ensures stored.Some? ==>
        option == (if RadioButtonForSize(ValidateSize(stored.value)).Some?
                   then RadioButtonForSize(ValidateSize(stored.value)).value else DefaultSize)
    {
      SummaryFor(CurrentSize())
    }

    /** updateAutoclickCursorAreaSize: stores the clamped size. */
    method UpdateAutoclickCursorAreaSize(size: int)
      modifies this
      ensures stored == Some(ValidateSize(size))
      ensures SizeMin <= CurrentSize() <= SizeMax
    {
      stored := Some(ValidateSize(size));
    }

    /** The dialog's OK button: stores the size of the checked button. */
    method OnPositiveButton(checked: SizeOption)
      modifies this
      ensures stored == Some(CursorSize(checked))
      ensures GetSummary() == checked
    {
      UpdateAutoclickCursorAreaSize(CursorSize(checked));
      SummaryOfChosenButton(checked);
    }
  }
}
