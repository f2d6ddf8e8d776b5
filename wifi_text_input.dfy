// wifi/utils: the password rules of WifiPasswordInput, the TextInputGroup widget state it
// extends, and the TextInputValidator that validates a list of such inputs together.

module WifiPassword {
  /** The Wi-Fi security types the password rule distinguishes; every other type is `OtherSecurity`. */
  datatype Security = Wep | Psk | Sae | OtherSecurity

  predicate IsHexDigit(c: char)
  {
    '0' <= c <= '9' || 'a' <= c <= 'f' || 'A' <= c <= 'F'
  }

  /** Scans the text one character at a time, as the regular expression matcher does. */
  function AllHex(s: string): (r: bool)
    ensures r <==> forall i :: 0 <= i < |s| ==> IsHexDigit(s[i])
  {
    if |s| == 0 then true else IsHexDigit(s[0]) && AllHex(s[1..])
  }

  /**
   * String.length: the number of UTF-16 code units, in which a character beyond the Basic
   * Multilingual Plane takes a surrogate pair.
   */
  function Utf16Length(s: string): (n: nat)
    ensures |s| <= n <= 2 * |s|
    ensures n == 0 <==> s == []
  {
    if |s| == 0 then 0 else (if s[0] as int > 0xFFFF then 2 else 1) + Utf16Length(s[1..])
  }

  /** Text within the Basic Multilingual Plane has one code unit per character. */
  lemma {:induction false} BmpUtf16Length(s: string)
    requires forall i :: 0 <= i < |s| ==> s[i] as int <= 0xFFFF
    ensures Utf16Length(s) == |s|
  {
    if |s| > 0 {
      assert forall i :: 0 <= i < |s| - 1 ==> s[1..][i] == s[i + 1];
      BmpUtf16Length(s[1..]);
    }
  }

  /** Hexadecimal digits are ASCII, so a hex string has one code unit per character. */
  lemma HexIsBmp(s: string)
    ensures AllHex(s) ==> Utf16Length(s) == |s|
  {
    if AllHex(s) {
      BmpUtf16Length(s);
    }
  }

  /**
   * isValidPsk: a WPA pre-shared key is either a passphrase of 8 to 63 UTF-16 units or a raw key
   * of exactly 64 hexadecimal digits (Annex J.4 of IEEE 802.11-2016).
   */
  function IsValidPsk(password: string): (r: bool)
    ensures r <==> (8 <= Utf16Length(password) <= 63 ||
                    (|password| == 64 && forall i :: 0 <= i < 64 ==> IsHexDigit(password[i])))
  {
    HexIsBmp(password);
    (Utf16Length(password) == 64 && AllHex(password)) || (8 <= Utf16Length(password) <= 63)
  }

  /** isValidSae: an SAE password has 1 to 63 UTF-16 units. */
  function IsValidSae(password: string): (r: bool)
    ensures r ==> 1 <= |password| <= 63
    ensures |password| > 63 ==> !r
  {
    1 <= Utf16Length(password) <= 63
  }

  /** A 64-character key with a single non-hex character is rejected. */
  lemma NonHexRawKeyRejected(password: string, k: nat)
    requires |password| == 64 && k < 64 && !IsHexDigit(password[k])
    ensures !IsValidPsk(password)
  {
  }

  /** Every valid PSK is also a valid SAE password, except a 64-digit raw key. */
  lemma PskWithinSae(password: string)
    requires IsValidPsk(password) && Utf16Length(password) != 64
    ensures IsValidSae(password)
  {
  }

  /** For text within the Basic Multilingual Plane the two rules count characters. */
  lemma BmpPasswordRules(password: string)
    requires forall i :: 0 <= i < |password| ==> password[i] as int <= 0xFFFF
    ensures IsValidSae(password) <==> 1 <= |password| <= 63
    ensures IsValidPsk(password) <==> (8 <= |password| <= 63 || (|password| == 64 && AllHex(password)))
  {
    BmpUtf16Length(password);
  }

  /**
   * Lengths are counted in UTF-16 units: 32 emoji make 64 units, too long for a passphrase and
   * not hexadecimal, and 40 emoji make 80 units, too long for SAE.
   */
  lemma {:induction false} AstralCharactersCountTwice(n: nat)
    ensures Utf16Length(seq(n, _ => '\U{1F600}')) == 2 * n
    ensures n == 32 ==> !IsValidPsk(seq(n, _ => '\U{1F600}'))
    ensures n == 40 ==> !IsValidSae(seq(n, _ => '\U{1F600}'))
  {
    var s := seq(n, _ => '\U{1F600}');
    if n > 0 {
      AstralCharactersCountTwice(n - 1);
      assert s[1..] == seq(n - 1, _ => '\U{1F600}');
    }
    if n == 32 {
      assert !IsHexDigit(s[0]);
    }
  }

  /**
   * The validity WifiPasswordInput.validate reports: a hidden field and an empty optional field
   * pass; WEP needs some text; PSK and SAE need text that meets their rule; other types pass.
   */
  function PasswordAccepts(shown: bool, text: string, security: Security, canBeEmpty: bool): (r: bool)
    ensures !shown ==> r
    ensures canBeEmpty && text == "" ==> r
    ensures shown && security == Wep ==> (r <==> text != "" || canBeEmpty)
    ensures shown && security == Psk && text != "" ==> (r <==> IsValidPsk(text))
    ensures shown && security == Sae ==> (r <==> IsValidSae(text) || (canBeEmpty && text == ""))
    ensures security == OtherSecurity ==> r
    ensures shown && !canBeEmpty && text == "" ==> (r <==> security == OtherSecurity)
  {
    if !shown then true
    else if canBeEmpty && text == "" then true
    else match security
      case Wep => text != ""
      case Psk => text != "" && IsValidPsk(text)
      case Sae => text != "" && IsValidSae(text)
      case OtherSecurity => true
  }
}

module TextInputs {
  import opened WifiPassword

  /** A plain TextInputGroup, or its WifiPasswordInput subclass with its two settable fields. */
  datatype InputKind = Plain | Password(security: Security, canBeEmpty: bool)

  /** TextInputGroup.validate: a hidden field passes; a shown one needs non-empty text. */
  function PlainAccepts(shown: bool, text: string): (r: bool)
    ensures r <==> !shown || |text| > 0
  {
    !shown || text != ""
  }

  /**
   * The state a TextInputGroup keeps in its TextInputLayout and EditText: whether the field is
   * shown, its text, the helper text and error text with their enabled flags.
   */
  class TextInputGroup {
    var shown: bool
    var text: string
    var helperText: string
    var helperTextEnabled: bool
    var error: string
    var errorEnabled: bool
    var kind: InputKind
    /** The string resource behind errorMessage. */
    const errorMessage: string
    /** The password subclass's "invalid password" string. */
    const invalidPasswordMessage: string

    constructor (shown: bool, kind: InputKind, errorMessage: string, invalidPasswordMessage: string)
      ensures this.shown == shown && this.kind == kind && text == ""
      ensures this.errorMessage == errorMessage && this.invalidPasswordMessage == invalidPasswordMessage
      ensures error == "" && !errorEnabled && helperText == "" && !helperTextEnabled
    {
      this.shown := shown;
      this.kind := kind;
      this.errorMessage := errorMessage;
      this.invalidPasswordMessage := invalidPasswordMessage;
      text := "";
      error := "";
      errorEnabled := false;
      helperText := "";
      helperTextEnabled := false;
    }

    /** The verdict `validate` returns for the current field, by the field's kind. */
    function Accepts(): bool
      reads this`shown, this`text, this`kind
    {
      match kind
      case Plain => PlainAccepts(shown, text)
      case Password(security, canBeEmpty) => PasswordAccepts(shown, text, security, canBeEmpty)
    }

    /** The error text a failing `validate` leaves: "required" for empty text, "invalid" otherwise. */
    function FailureMessage(): string
      reads this`text, this`kind
    {
      if kind.Password? && text != "" then invalidPasswordMessage else errorMessage
    }

    /** The helperText setter; the layout turns the helper on for non-empty text, off for empty. */
    method SetHelperText(value: string)
      modifies this`helperText, this`helperTextEnabled
      ensures helperText == value && helperTextEnabled == (value != "")
    {
      helperText := value;
      helperTextEnabled := value != "";
    }

    /** The error setter; the layout turns the error on for non-empty text, off for empty. */
    method SetError(value: string)
      modifies this`error, this`errorEnabled
      ensures error == value && errorEnabled == (value != "")
    {
      error := value;
      errorEnabled := value != "";
    }

    /** Any edit of the text runs the watcher installed at construction, which hides the error. */
    method OnTextChanged(value: string)
      modifies this`text, this`errorEnabled
      ensures text == value && !errorEnabled
    {
      text := value;
      errorEnabled := false;
    }

    /** TextInputGroup.validate: on failure the error shows the "required" message. */
    method BaseValidate() returns (isValid: bool)
      modifies this`error, this`errorEnabled
      ensures isValid == PlainAccepts(shown, text)
      ensures isValid ==> error == old(error) && errorEnabled == old(errorEnabled)
      ensures !isValid ==> error == errorMessage && errorEnabled == (errorMessage != "")
    {
      if !shown {
        return true;
      }
      isValid := text != "";
      if !isValid {
        SetError(errorMessage);
      }
    }

    /**
     * validate, dispatched on the kind: the password subclass checks visibility and the optional
     * empty case first, then runs the base check and, for PSK and SAE, the length/format rule,
     * which sets the "invalid" message when it fails.
     */
    method Validate() returns (isValid: bool)
      modifies this`error, this`errorEnabled
      ensures isValid == Accepts()
      ensures isValid ==> error == old(error) && errorEnabled == old(errorEnabled)
      ensures !isValid ==> error == FailureMessage() && errorEnabled == (FailureMessage() != "")
    {
      match kind {
        case Plain =>
          isValid := BaseValidate();
        case Password(security, canBeEmpty) =>
          if !shown {
            return true;
          }
          if canBeEmpty && text == "" {
            return true;
          }
          match security {
            case Wep =>
              isValid := BaseValidate();
            case Psk =>
              isValid := BaseValidate();
              if isValid {
                isValid := IsValidPsk(text);
                if !isValid {
                  SetError(invalidPasswordMessage);
                }
              }
            case Sae =>
              isValid := BaseValidate();
              if isValid {
                isValid := IsValidSae(text);
                if !isValid {
                  SetError(invalidPasswordMessage);
                }
              }
            case OtherSecurity =>
              isValid := true;
          }
      }
    }
  }
}

module TextValidation {
  import opened TextInputs

  /** TextInputValidator: the inputs of one dialog, validated together. */
  class TextInputValidator {
    var textInputList: seq<TextInputGroup>

    constructor ()
      ensures textInputList == []
    {
      textInputList := [];
    }

    method AddTextInput(textInputGroup: TextInputGroup)
      modifies this
      ensures textInputList == old(textInputList) + [textInputGroup]
    {
      textInputList := textInputList + [textInputGroup];
    }

    /**
     * validate: runs every input's own validate, without stopping at the first failure, so every
     * failing input shows its error; the result is true iff all inputs pass.
     */
    method Validate() returns (isValidate: bool)
      modifies textInputList
      ensures isValidate <==> forall i :: 0 <= i < |textInputList| ==> textInputList[i].Accepts()
      ensures forall i :: 0 <= i < |textInputList| && !textInputList[i].Accepts() ==>
        textInputList[i].error == textInputList[i].FailureMessage() &&
        textInputList[i].errorEnabled == (textInputList[i].FailureMessage() != "")
      ensures forall g :: g in textInputList ==>
        g.shown == old(g.shown) && g.text == old(g.text) && g.kind == old(g.kind)
    {
      isValidate := true;
      var i := 0;
      while i < |textInputList|
        invariant 0 <= i <= |textInputList|
        invariant isValidate <==> forall j :: 0 <= j < i ==> textInputList[j].Accepts()
        invariant forall j :: 0 <= j < i && !textInputList[j].Accepts() ==>
          textInputList[j].error == textInputList[j].FailureMessage() &&
          textInputList[j].errorEnabled == (textInputList[j].FailureMessage() != "")
        invariant forall g :: g in textInputList ==>
          g.shown == old(g.shown) && g.text == old(g.text) && g.kind == old(g.kind)
      {
        var ok := textInputList[i].Validate();
        if !ok {
          isValidate := false;
        }
        i := i + 1;
      }
    }
  }
}
