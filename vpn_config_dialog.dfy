// vpn2/ConfigDialog: the VPN profile editor. The IKEv2 type list and its spinner index, which
// types need a username and password, the certificate choices, the profile built from the
// form, and the two validations.

module VpnConfigDialog {
  import opened Wrappers
  import opened JavaInt
  import opened TextInputs

  /** VpnProfile.TYPE_IKEV2_IPSEC_{USER_PASS,PSK,RSA}. */
  const TypeIkev2IpsecUserPass: int := 6
  const TypeIkev2IpsecPsk: int := 7
  const TypeIkev2IpsecRsa: int := 8
  /** VpnProfile.PROXY_MANUAL. */
  const ProxyManual: int := 1

  /** VPN_TYPES, in the order of the type spinner's entries. */
  const VpnTypes: seq<int> := [TypeIkev2IpsecUserPass, TypeIkev2IpsecPsk, TypeIkev2IpsecRsa]

  /** getVpnType: the profile type at a spinner position. */
  function GetVpnType(position: nat): (t: int)
    requires position < |VpnTypes|
    ensures t in VpnTypes
  {
    VpnTypes[position]
  }

  /** convertVpnProfileConstantToTypeIndex: the spinner position of a type; legacy types give 0. */
  function ConvertVpnProfileConstantToTypeIndex(vpnType: int): (index: nat)
    ensures index < |VpnTypes|
    ensures vpnType in VpnTypes ==> VpnTypes[index] == vpnType
    ensures vpnType !in VpnTypes ==> index == 0
  {
    if vpnType == TypeIkev2IpsecUserPass then 0
    else if vpnType == TypeIkev2IpsecPsk then 1
    else if vpnType == TypeIkev2IpsecRsa then 2
    else 0
  }

  /** The position and the type are inverse for every position of the spinner. */
  lemma TypeIndexRoundTrip(position: nat)
    requires position < |VpnTypes|
    ensures ConvertVpnProfileConstantToTypeIndex(GetVpnType(position)) == position
  {
  }

  /** requiresUsernamePassword: every type but PSK and RSA needs a login. */
  function RequiresUsernamePassword(vpnType: int): (r: bool)
    ensures r <==> vpnType != TypeIkev2IpsecRsa && vpnType != TypeIkev2IpsecPsk
    ensures vpnType == TypeIkev2IpsecUserPass ==> r
  {
    !(vpnType == TypeIkev2IpsecRsa || vpnType == TypeIkev2IpsecPsk)
  }

  /** The characters String.trim removes: every code point up to the space. */
  predicate IsTrimmed(c: char) { c <= ' ' }

  /** The text without its leading trimmable characters. */
  function TrimStart(s: string): (r: string)
    ensures |r| <= |s| && r == s[|s| - |r|..]
    ensures forall k :: 0 <= k < |s| - |r| ==> IsTrimmed(s[k])
    ensures |r| > 0 ==> !IsTrimmed(r[0])
  {
    if |s| > 0 && IsTrimmed(s[0]) then TrimStart(s[1..]) else s
  }

  /** The text without its trailing trimmable characters. */
  function TrimEnd(s: string): (r: string)
    ensures |r| <= |s| && r == s[..|r|]
    ensures forall k :: |r| <= k < |s| ==> IsTrimmed(s[k])
    ensures |r| > 0 ==> !IsTrimmed(r[|r| - 1])
  {
    if |s| > 0 && IsTrimmed(s[|s| - 1]) then TrimEnd(s[..|s| - 1]) else s
  }

  /** String.trim. */
  function Trim(s: string): (r: string)
    ensures |r| <= |s|
    ensures |r| > 0 ==> !IsTrimmed(r[0]) && !IsTrimmed(r[|r| - 1])
    ensures (forall k :: 0 <= k < |s| ==> IsTrimmed(s[k])) ==> r == ""
    ensures |s| > 0 && !IsTrimmed(s[0]) && !IsTrimmed(s[|s| - 1]) ==> r == s
  {
    TrimEnd(TrimStart(s))
  }

  /** Trimming leaves a slice of the text that neither starts nor ends with a trimmable character. */
  lemma TrimIsInnerSlice(s: string)
    ensures exists i, j :: 0 <= i <= j <= |s| && Trim(s) == s[i..j]
    ensures |Trim(s)| > 0 ==> !IsTrimmed(Trim(s)[0]) && !IsTrimmed(Trim(s)[|Trim(s)| - 1])
  {
    var t := TrimStart(s);
    var r := TrimEnd(t);
    var i := |s| - |t|;
    assert r == s[i..i + |r|];
    if |r| > 0 {
      assert r[0] == t[0];
    }
  }

  /** Trimming a trimmed text changes nothing. */
  lemma TrimIdempotent(s: string)
    ensures Trim(Trim(s)) == Trim(s)
  {
    var r := Trim(s);
    TrimIsInnerSlice(s);
    assert TrimStart(r) == r;
    assert TrimEnd(r) == r;
  }

  /**
   * loadCertificates: the spinner entries are `first` followed by the given choices (just
   * `first` when there are none), and the selection moves to the first entry after `first` that
   * equals `selected`; None means the selection is left alone.
   */
  method LoadCertificates(choices: Option<seq<string>>, first: string, selected: string)
    returns (myChoices: seq<string>, selection: Option<nat>)
    ensures choices.None? || |choices.value| == 0 ==> myChoices == [first]
    ensures choices.Some? && |choices.value| > 0 ==> myChoices == [first] + choices.value
    ensures selection.Some? ==>
      1 <= selection.value < |myChoices| && myChoices[selection.value] == selected
      && forall k :: 1 <= k < selection.value ==> myChoices[k] != selected
    ensures selection.None? <==> forall k :: 1 <= k < |myChoices| ==> myChoices[k] != selected
  {
    var entries: array<string>;
    if choices.None? || |choices.value| == 0 {
      entries := new string[1];
      entries[0] := first;
    } else {
      var given := choices.value;
      entries := new string[|given| + 1];
      entries[0] := first;
      var i := 1;
      while i <= |given|
        invariant 1 <= i <= |given| + 1
        invariant entries[0] == first
        invariant forall k :: 1 <= k < i ==> entries[k] == given[k - 1]
      {
        entries[i] := given[i - 1];
        i := i + 1;
      }
      assert entries[..] == [first] + given;
    }
    myChoices := entries[..];
    selection := None;
    var i := 1;
    while i < entries.Length
      invariant 1 <= i <= entries.Length
      invariant forall k :: 1 <= k < i ==> entries[k] != selected
    {
      if entries[i] == selected {
        selection := Some(i);
        return;
      }
      i := i + 1;
    }
  }

  /** ProxyInfo.buildDirectProxy(host, port). */
  datatype ProxyInfo = DirectProxy(host: string, port: int)

  /** The VpnProfile fields the dialog writes; a new profile has empty texts and no proxy. */
  datatype VpnProfile = VpnProfile(
    key: string, name: string, vpnType: int, server: string, username: string, password: string,
    ipsecIdentifier: string, proxy: Option<ProxyInfo>, ipsecSecret: string, ipsecUserCert: string,
    ipsecCaCert: string, ipsecServerCert: string, saveLogin: bool)

  /** new VpnProfile(key). */
  function NewProfile(key: string): (p: VpnProfile)
    ensures p.key == key && p.proxy.None? && !p.saveLogin
    ensures p.name == p.server == p.username == p.password == p.ipsecIdentifier == ""
    ensures p.ipsecSecret == p.ipsecUserCert == p.ipsecCaCert == p.ipsecServerCert == ""
  {
    VpnProfile(key, "", 0, "", "", "", "", None, "", "", "", "", false)
  }

  /** The port typed in the proxy form: 0 when empty or not an int. */
  function ProxyPort(portText: string): (port: int)
    ensures portText == "" ==> port == 0
    ensures ParseInt(portText).Some? ==> port == ParseInt(portText).value
    ensures ParseInt(portText).None? ==> port == 0
  {
    if portText == "" then 0
    else match ParseInt(portText)
      case Some(v) => v
      case None => 0
  }

  /** A spinner of text entries and its selected position. */
  datatype Spinner = Spinner(items: seq<string>, position: nat)
  {
    predicate Valid() { position < |items| }
  }

  class ConfigDialog {
    const nameInput: TextInputGroup
    const serverInput: TextInputGroup
    const usernameInput: TextInputGroup
    const passwordInput: TextInputGroup
    const ipsecIdentifierInput: TextInputGroup
    const ipsecSecretInput: TextInputGroup
    var typePosition: nat
    var proxySettingsPosition: nat
    var proxyHost: string
    var proxyPortText: string
    var ipsecUserCert: Spinner
    var ipsecCaCert: Spinner
    var ipsecServerCert: Spinner
    var saveLoginChecked: bool
    var alwaysOnChecked: bool
    const editing: bool
    const profileExists: bool
    /** mProfile: the profile the dialog was opened on. */
    var profile: VpnProfile

    predicate Valid()
      reads this
    {
      typePosition < |VpnTypes|
      && ipsecUserCert.Valid() && ipsecCaCert.Valid() && ipsecServerCert.Valid()
    }

    /** The six text fields, which are distinct widgets. */
    function Inputs(): seq<TextInputGroup>
    {
      [nameInput, serverInput, usernameInput, passwordInput, ipsecIdentifierInput, ipsecSecretInput]
    }

    predicate DistinctInputs()
    {
      forall j, k :: 0 <= j < k < |Inputs()| ==> Inputs()[j] != Inputs()[k]
    }

    constructor(nameInput: TextInputGroup, serverInput: TextInputGroup, usernameInput: TextInputGroup,
                passwordInput: TextInputGroup, ipsecIdentifierInput: TextInputGroup,
                ipsecSecretInput: TextInputGroup, profile: VpnProfile, editing: bool, profileExists: bool)
      ensures this.nameInput == nameInput && this.serverInput == serverInput
      ensures this.usernameInput == usernameInput && this.passwordInput == passwordInput
      ensures this.ipsecIdentifierInput == ipsecIdentifierInput && this.ipsecSecretInput == ipsecSecretInput
      ensures this.profile == profile && this.editing == editing && this.profileExists == profileExists
      ensures typePosition == ConvertVpnProfileConstantToTypeIndex(profile.vpnType)
      ensures Valid()
    {
      this.nameInput := nameInput;
      this.serverInput := serverInput;
      this.usernameInput := usernameInput;
      this.passwordInput := passwordInput;
      this.ipsecIdentifierInput := ipsecIdentifierInput;
      this.ipsecSecretInput := ipsecSecretInput;
      this.profile := profile;
      this.editing := editing;
      this.profileExists := profileExists;
      typePosition := ConvertVpnProfileConstantToTypeIndex(profile.vpnType);
      proxySettingsPosition := 0;
      proxyHost := "";
      proxyPortText := "";
      ipsecUserCert := Spinner([""], 0);
      ipsecCaCert := Spinner([""], 0);
      ipsecServerCert := Spinner([""], 0);
      saveLoginChecked := false;
      alwaysOnChecked := false;
    }

    /** hasProxy: the proxy spinner is on "manual". */
    predicate HasProxy(): (r: bool)
      reads this
      ensures r ==> proxySettingsPosition == 1
      ensures proxySettingsPosition == 0 ==> !r
    {
      proxySettingsPosition == ProxyManual
    }

    /**
     * setTypesByFeature, then the type spinner's selection: a profile that does not exist yet
     * becomes IKEv2 username/password, and the spinner shows the position of the profile's type.
     */
    method SetTypesByFeature()
      requires Valid()
      modifies this`profile, this`typePosition
      ensures Valid()
      ensures !profileExists ==> profile == old(profile).(vpnType := TypeIkev2IpsecUserPass)
      ensures profileExists ==> profile == old(profile)
      ensures typePosition == ConvertVpnProfileConstantToTypeIndex(profile.vpnType)
      ensures !profileExists ==> typePosition == 0
    {
      if !profileExists {
        profile := profile.(vpnType := TypeIkev2IpsecUserPass);
      }
      typePosition := ConvertVpnProfileConstantToTypeIndex(profile.vpnType);
    }

    /**
     * The profile the form describes: a new profile under the same key with the texts of the
     * form, the server and proxy trimmed, and the secret and certificates the type uses.
     */
    function FormProfile(): (p: VpnProfile)
      reads this, nameInput, serverInput, usernameInput, passwordInput, ipsecIdentifierInput, ipsecSecretInput
      requires Valid()
      ensures p.key == profile.key && p.name == nameInput.text
      ensures p.vpnType == GetVpnType(typePosition) && p.server == Trim(serverInput.text)
      ensures p.username == usernameInput.text && p.password == passwordInput.text
      ensures p.ipsecIdentifier == ipsecIdentifierInput.text
      ensures !HasProxy() ==> p.proxy == None
      ensures HasProxy() ==> p.proxy == Some(DirectProxy(Trim(proxyHost), ProxyPort(Trim(proxyPortText))))
      ensures p.vpnType == TypeIkev2IpsecPsk ==> p.ipsecSecret == ipsecSecretInput.text
      ensures p.vpnType == TypeIkev2IpsecRsa && ipsecUserCert.position != 0 ==>
        p.ipsecUserCert == p.ipsecSecret == ipsecUserCert.items[ipsecUserCert.position]
      ensures !(p.vpnType == TypeIkev2IpsecRsa && ipsecUserCert.position != 0) ==> p.ipsecUserCert == ""
      ensures p.vpnType != TypeIkev2IpsecPsk && !(p.vpnType == TypeIkev2IpsecRsa && ipsecUserCert.position != 0) ==>
        p.ipsecSecret == ""
      ensures p.vpnType != TypeIkev2IpsecPsk && ipsecCaCert.position != 0 ==>
        p.ipsecCaCert == ipsecCaCert.items[ipsecCaCert.position]
      ensures p.vpnType == TypeIkev2IpsecPsk || ipsecCaCert.position == 0 ==> p.ipsecCaCert == ""
      ensures p.vpnType != TypeIkev2IpsecPsk && ipsecServerCert.position != 0 ==>
        p.ipsecServerCert == ipsecServerCert.items[ipsecServerCert.position]
      ensures p.vpnType == TypeIkev2IpsecPsk || ipsecServerCert.position == 0 ==> p.ipsecServerCert == ""
      ensures p.saveLogin <==> saveLoginChecked || (editing && (p.username != "" || p.password != ""))
    {
      var vpnType := GetVpnType(typePosition);
      var rsaCert := vpnType == TypeIkev2IpsecRsa && ipsecUserCert.position != 0;
      var userCert := if rsaCert then ipsecUserCert.items[ipsecUserCert.position] else "";
      VpnProfile(
        profile.key, nameInput.text, vpnType, Trim(serverInput.text), usernameInput.text, passwordInput.text,
        ipsecIdentifierInput.text,
        if HasProxy() then Some(DirectProxy(Trim(proxyHost), ProxyPort(Trim(proxyPortText)))) else None,
        if vpnType == TypeIkev2IpsecPsk then ipsecSecretInput.text else userCert,
        userCert,
        if vpnType != TypeIkev2IpsecPsk && ipsecCaCert.position != 0 then ipsecCaCert.items[ipsecCaCert.position] else "",
        if vpnType != TypeIkev2IpsecPsk && ipsecServerCert.position != 0 then ipsecServerCert.items[ipsecServerCert.position] else "",
        saveLoginChecked || (editing && (usernameInput.text != "" || passwordInput.text != "")))
    }

    /** getProfile: a new profile under the same key, filled from the form step by step. */
    method GetProfile() returns (p: VpnProfile)
      requires Valid()
      ensures p == FormProfile()
    {
      ghost var form := FormProfile();
      p := NewProfile(profile.key);
      p := p.(name := nameInput.text);
      p := p.(vpnType := GetVpnType(typePosition));
      p := p.(server := Trim(serverInput.text));
      p := p.(username := usernameInput.text);
      p := p.(password := passwordInput.text);
      p := p.(ipsecIdentifier := ipsecIdentifierInput.text);
      if HasProxy() {
        var host := Trim(proxyHost);
        var portText := Trim(proxyPortText);
        var port := 0;
        if portText != "" {
          match ParseInt(portText) {
            case Some(v) => port := v;
            case None =>
          }
        }
        p := p.(proxy := Some(DirectProxy(host, port)));
        assert p.proxy == form.proxy;
      } else {
        p := p.(proxy := None);
      }
      if p.vpnType == TypeIkev2IpsecPsk {
        p := p.(ipsecSecret := ipsecSecretInput.text);
      } else {
        if p.vpnType == TypeIkev2IpsecRsa && ipsecUserCert.position != 0 {
          p := p.(ipsecUserCert := ipsecUserCert.items[ipsecUserCert.position]);
          p := p.(ipsecSecret := p.ipsecUserCert);
        }
        if ipsecCaCert.position != 0 {
          p := p.(ipsecCaCert := ipsecCaCert.items[ipsecCaCert.position]);
        }
        if ipsecServerCert.position != 0 {
          p := p.(ipsecServerCert := ipsecServerCert.items[ipsecServerCert.position]);
        }
      }
      var hasLogin := p.username != "" || p.password != "";
      p := p.(saveLogin := saveLoginChecked || (editing && hasLogin));
    }

    /** validateProxy: without a manual proxy there is nothing to check. */
    function ValidateProxy(proxyUtilsValid: bool): (ok: bool)
      reads this
      ensures ok <==> !HasProxy() || proxyUtilsValid
    {
      if !HasProxy() then true else proxyUtilsValid
    }

    /**
     * validate(editing): an always-on VPN needs a profile valid for lockdown, a manual proxy must
     * pass ProxyUtils (`proxyUtilsValid`), and RSA needs a user certificate.
     */
    method ValidateEditing(isValidLockdownProfile: VpnProfile -> bool, proxyUtilsValid: bool)
      returns (ok: bool)
      requires Valid()
      ensures ok <==>
        (alwaysOnChecked ==> isValidLockdownProfile(FormProfile()))
        && ValidateProxy(proxyUtilsValid)
        && (GetVpnType(typePosition) == TypeIkev2IpsecRsa ==> ipsecUserCert.position != 0)
    {
      if alwaysOnChecked {
        var p := GetProfile();
        if !isValidLockdownProfile(p) {
          return false;
        }
      }
      if !ValidateProxy(proxyUtilsValid) {
        return false;
      }
      var vpnType := GetVpnType(typePosition);
      if vpnType == TypeIkev2IpsecUserPass {
        return true;
      } else if vpnType == TypeIkev2IpsecPsk {
        return true;
      } else {
        return ipsecUserCert.position != 0;
      }
    }

    /** validate() checks only the login of a new profile whose type needs one. */
    predicate ValidatesLoginOnly()
      reads this
      requires Valid()
    {
      !editing && RequiresUsernamePassword(GetVpnType(typePosition))
    }

    /**
     * validate(): every field relevant to the type is validated, without stopping at the first
     * failure, so each failing field shows its error; the result is whether all passed.
     */
    method Validate() returns (isValidate: bool)
      requires Valid() && DistinctInputs()
      modifies nameInput`error, nameInput`errorEnabled, serverInput`error, serverInput`errorEnabled
      modifies usernameInput`error, usernameInput`errorEnabled, passwordInput`error, passwordInput`errorEnabled
      modifies ipsecIdentifierInput`error, ipsecIdentifierInput`errorEnabled
      modifies ipsecSecretInput`error, ipsecSecretInput`errorEnabled
      ensures ValidatesLoginOnly() ==> (isValidate <==> usernameInput.Accepts() && passwordInput.Accepts())
      ensures ValidatesLoginOnly() ==> ShowsFailureIfRejected(usernameInput) && ShowsFailureIfRejected(passwordInput)
      ensures !ValidatesLoginOnly() ==>
        (isValidate <==>
          nameInput.Accepts() && serverInput.Accepts() && ipsecIdentifierInput.Accepts()
          && (GetVpnType(typePosition) == TypeIkev2IpsecPsk ==> ipsecSecretInput.Accepts()))
      ensures !ValidatesLoginOnly() ==>
        ShowsFailureIfRejected(nameInput) && ShowsFailureIfRejected(serverInput)
        && ShowsFailureIfRejected(ipsecIdentifierInput)
      ensures !ValidatesLoginOnly() && GetVpnType(typePosition) == TypeIkev2IpsecPsk ==>
        ShowsFailureIfRejected(ipsecSecretInput)
      ensures ValidatesLoginOnly() ==>
        ErrorKept(nameInput) && ErrorKept(serverInput) && ErrorKept(ipsecIdentifierInput) && ErrorKept(ipsecSecretInput)
      ensures !ValidatesLoginOnly() ==> ErrorKept(usernameInput) && ErrorKept(passwordInput)
      ensures !ValidatesLoginOnly() && GetVpnType(typePosition) != TypeIkev2IpsecPsk ==> ErrorKept(ipsecSecretInput)
      ensures forall g :: g in Inputs() && g.Accepts() ==> ErrorKept(g)
    {
      assert nameInput != serverInput && nameInput != usernameInput && nameInput != passwordInput
        && nameInput != ipsecIdentifierInput && nameInput != ipsecSecretInput by {
        assert Inputs()[0] != Inputs()[1] && Inputs()[0] != Inputs()[2] && Inputs()[0] != Inputs()[3]
          && Inputs()[0] != Inputs()[4] && Inputs()[0] != Inputs()[5];
      }
      assert serverInput != usernameInput && serverInput != passwordInput
        && serverInput != ipsecIdentifierInput && serverInput != ipsecSecretInput by {
        assert Inputs()[1] != Inputs()[2] && Inputs()[1] != Inputs()[3] && Inputs()[1] != Inputs()[4] && Inputs()[1] != Inputs()[5];
      }
      assert usernameInput != passwordInput && usernameInput != ipsecIdentifierInput && usernameInput != ipsecSecretInput
        && passwordInput != ipsecIdentifierInput && passwordInput != ipsecSecretInput
        && ipsecIdentifierInput != ipsecSecretInput by {
        assert Inputs()[2] != Inputs()[3] && Inputs()[2] != Inputs()[4] && Inputs()[2] != Inputs()[5]
          && Inputs()[3] != Inputs()[4] && Inputs()[3] != Inputs()[5] && Inputs()[4] != Inputs()[5];
      }
      isValidate := true;
      var vpnType := GetVpnType(typePosition);
      if !editing && RequiresUsernamePassword(vpnType) {
        isValidate := ValidateField(usernameInput, isValidate);
        isValidate := ValidateField(passwordInput, isValidate);
        return;
      }
      isValidate := ValidateField(nameInput, isValidate);
      isValidate := ValidateField(serverInput, isValidate);
      isValidate := ValidateField(ipsecIdentifierInput, isValidate);
      if vpnType == TypeIkev2IpsecPsk {
        isValidate := ValidateField(ipsecSecretInput, isValidate);
      }
    }
  }

  /** A field that fails validation shows its failure message as its error. */
  predicate ShowsFailureIfRejected(g: TextInputGroup)
    reads g
  {
    !g.Accepts() ==> g.error == g.FailureMessage() && g.errorEnabled == (g.FailureMessage() != "")
  }

  /** The field's error is as it was before the call. */
  twostate predicate ErrorKept(g: TextInputGroup)
    reads g
  {
    g.error == old(g.error) && g.errorEnabled == old(g.errorEnabled)
  }

  /** One `if (!input.validate()) isValidate = false;` step. */
  method ValidateField(g: TextInputGroup, isValidate: bool) returns (r: bool)
    modifies g`error, g`errorEnabled
    ensures r <==> isValidate && g.Accepts()
    ensures ShowsFailureIfRejected(g)
    ensures g.Accepts() ==> ErrorKept(g)
  {
    var ok := g.Validate();
    r := isValidate;
    if !ok {
      r := false;
    }
  }
}
