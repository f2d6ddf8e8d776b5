# Android Settings core logic in Dafny

This project models the decision logic of a set of screens and controllers of the Android
Settings app, and proves properties of that model. It covers:

- Wi-Fi password and text-field validation;
- the external-display preference fragment's preference bookkeeping;
- the configurable order of the Bluetooth device-details screen;
- the notification bundling controllers;
- Ethernet interface tracking;
- the "when to start hub" picker;
- the autoclick cursor-area size dialog;
- the audio-sharing broadcast receiver and the audio-stream media service;
- the Bluetooth utility rules: connection summary, device groups, pairing block and LE Audio
  profile switching;
- the region dialog and the locale picker;
- the safe-sites supervision data store;
- the satellite-messaging settings page: carrier-config helpers, category, entry, app list,
  account info and footer;
- the VPN configuration dialog;
- color-mode names;
- the charging-speed preference;
- the Advanced Protection "action disabled" dialog;
- the accessibility feedback manager.

Each Java or Kotlin source file is one Dafny module. A few modules are shared:

- `Wrappers`: `Option` and `Result`;
- `Availability`: the preference controllers' availability codes;
- `JavaInt`: 32-bit `Integer.toString` / `Integer.parseInt`, with a round-trip proof.

The locale picker has its own copy of the region dialog's `sameLanguageAndScript`. The two copies
are identical, so the model defines it once, in `RegionDialog`.

Controllers whose fields change become classes with `modifies` frames. Computations become
functions with named results. Platform services that the code only calls become parameters of the
model: the telephony and satellite managers, the Bluetooth stack, the package manager and the
notification backend. The property an operation keeps is stated as its `ensures` or as a lemma.

## Model

| member | source | states |
|---|---|---|
| WifiPassword.AllHex | src/com/android/settings/wifi/utils/WifiPasswordInput.kt:65 | true iff every character is a hex digit, as the `[0-9A-Fa-f]{64}` pattern demands of each position |
| WifiPassword.Utf16Length | src/com/android/settings/wifi/utils/WifiPasswordInput.kt:64-70 | Kotlin's `length`: one unit per character up to U+FFFF and two above, so between the character count and twice it, and zero only for empty text |
| WifiPassword.BmpUtf16Length | src/com/android/settings/wifi/utils/WifiPasswordInput.kt:64-70 | text without characters above U+FFFF has as many UTF-16 units as characters |
| WifiPassword.HexIsBmp | src/com/android/settings/wifi/utils/WifiPasswordInput.kt:65 | hex text has as many UTF-16 units as characters |
| WifiPassword.IsValidPsk | src/com/android/settings/wifi/utils/WifiPasswordInput.kt:64-67 | a PSK is valid iff its length in UTF-16 units (Kotlin's `length`) is 8..63, or it is 64 hex digits |
| WifiPassword.NonHexRawKeyRejected | src/com/android/settings/wifi/utils/WifiPasswordInput.kt:65-66 | a 64-character PSK with a non-hex character is invalid |
| WifiPassword.IsValidSae | src/com/android/settings/wifi/utils/WifiPasswordInput.kt:69-71 | an SAE password is valid only if it has 1..63 characters, and one of more than 63 characters is never valid; the rule itself counts UTF-16 units |
| WifiPassword.PskWithinSae | src/com/android/settings/wifi/utils/WifiPasswordInput.kt:64-71 | every valid PSK passphrase (not a 64-unit raw key) is also a valid SAE password |
| WifiPassword.BmpPasswordRules | src/com/android/settings/wifi/utils/WifiPasswordInput.kt:64-71 | for text without characters above U+FFFF the two rules are the familiar character counts: PSK 8..63 or 64 hex digits, SAE 1..63 |
| WifiPassword.AstralCharactersCountTwice | src/com/android/settings/wifi/utils/WifiPasswordInput.kt:64-71 | each emoji counts two units, so 32 emoji are not a valid PSK (64 units, not hex) and 40 emoji are not a valid SAE password (80 units) |
| WifiPassword.PasswordAccepts | src/com/android/settings/wifi/utils/WifiPasswordInput.kt:37-59 | a hidden field and an empty field that may be empty always pass; WEP needs non-empty text; PSK and SAE need non-empty text valid for their rule, lengths counted in UTF-16 units; unknown security types always pass |
| TextInputs.PlainAccepts | src/com/android/settings/wifi/utils/TextInputGroup.kt:88-97 | a plain field passes iff it is hidden or its text is non-empty |
| TextInputs.TextInputGroup.constructor | src/com/android/settings/wifi/utils/TextInputGroup.kt:27-56 | a new field has empty text and no error or helper shown |
| TextInputs.TextInputGroup.SetHelperText | src/com/android/settings/wifi/utils/TextInputGroup.kt:74-79 | the helper text is stored; it is shown iff it is non-empty |
| TextInputs.TextInputGroup.SetError | src/com/android/settings/wifi/utils/TextInputGroup.kt:81-86 | the error is stored; it is shown iff it is non-empty |
| TextInputs.TextInputGroup.OnTextChanged | src/com/android/settings/wifi/utils/TextInputGroup.kt:43-52 | any text change hides the error |
| TextInputs.TextInputGroup.BaseValidate | src/com/android/settings/wifi/utils/TextInputGroup.kt:88-97 | returns PlainAccepts; a failure sets the field's error message and a pass leaves the error alone |
| TextInputs.TextInputGroup.Validate | src/com/android/settings/wifi/utils/WifiPasswordInput.kt:37-59 | the overriding validate: returns the field's accept rule; a failure shows "field required" or "invalid password", whichever check failed |
| TextValidation.TextInputValidator.constructor | src/com/android/settings/wifi/utils/TextInputValidator.kt:24 | a new validator holds no field |
| TextValidation.TextInputValidator.AddTextInput | src/com/android/settings/wifi/utils/TextInputValidator.kt:26-28 | the field is appended to the list |
| TextValidation.TextInputValidator.Validate | src/com/android/settings/wifi/utils/TextInputValidator.kt:30-34 | true iff every field accepts (so true for no fields); every failing field shows its error, which is only possible with no short-circuit |
| JavaInt.NatToDigits | src/com/android/settings/fuelgauge/ChargingSpeedPreferenceController.java:91 | the decimal digits of a natural number: non-empty, digits only, no leading zero |
| JavaInt.IntToString | src/com/android/settings/fuelgauge/ChargingSpeedPreferenceController.java:91 | String.valueOf of an int: non-empty, starting with '-' iff it is negative |
| JavaInt.ParseInt | src/com/android/settings/fuelgauge/ChargingSpeedPreferenceController.java:72 | Integer.parseInt: only 32-bit values are returned, and empty text fails |
| JavaInt.ParseIntOfIntToString | src/com/android/settings/vpn2/ConfigDialog.java:146 | parsing the text of any 32-bit int gives the int back, as the proxy port shown here is read back at line 532 |
| JavaInt.IntToStringInjective | src/com/android/settings/notification/AdjustmentExcludedAppsPreferenceController.java:172-174 | distinct ints have distinct texts, so the uid part of a key names one uid |
| ExternalDisplay.PreferenceGroup.AddPreference | src/com/android/settings/connecteddevice/display/ExternalDisplayPreferenceFragment.java:638-650 | adding a child that is already present changes nothing; otherwise it is appended |
| ExternalDisplay.PreferenceGroup.RemovePreference | src/com/android/settings/connecteddevice/display/ExternalDisplayPreferenceFragment.java:652-657 | removal reports whether the child was present and drops exactly that child |
| ExternalDisplay.PrefBasics.KeyForNth | src/com/android/settings/connecteddevice/display/ExternalDisplayPreferenceFragment.java:117-119 | the key is the base key, "_", then text that parses back to n |
| ExternalDisplay.KeyForNthInjective | src/com/android/settings/connecteddevice/display/ExternalDisplayPreferenceFragment.java:117-119 | distinct positions give distinct keys |
| ExternalDisplay.PrefBasics.Apply | src/com/android/settings/connecteddevice/display/ExternalDisplayPreferenceFragment.java:106-115 | the order is set only when it is not -1; the title only when there is one; the key is the base key or the n-th key; persistence is always off |
| ExternalDisplay.FooterIsLast | src/com/android/settings/connecteddevice/display/ExternalDisplayPreferenceFragment.java:61-97 | the footer orders after every other ordered preference, and no two ordered preferences share an order |
| ExternalDisplay.NewCategoryOrder | src/com/android/settings/connecteddevice/display/ExternalDisplayPreferenceFragment.java:411 | a display category orders after the built-in display list, and before the footer for the first 19 displays |
| ExternalDisplay.IncludeV1Helpers | src/com/android/settings/connecteddevice/display/ExternalDisplayPreferenceFragment.java:467 | the V1 helpers are shown iff the topology pane is off and there is at most one display |
| ExternalDisplay.GetDisplayRotation | src/com/android/settings/connecteddevice/display/ExternalDisplayPreferenceFragment.java:578-583 | the rotation is clamped to 0..3, and it is 0 without an injector |
| ExternalDisplay.PrefRefresh.constructor | src/com/android/settings/connecteddevice/display/ExternalDisplayPreferenceFragment.java:622-631 | every child with a non-empty key (hasKey) is recorded as unused under its key; each entry is the last child with that key, and no entry has the empty key |
| ExternalDisplay.PrefRefresh.FindUnusedPreference | src/com/android/settings/connecteddevice/display/ExternalDisplayPreferenceFragment.java:633-636 | a preference is found iff its key is still unused, and it is that key's preference |
| ExternalDisplay.PrefRefresh.AddPreference | src/com/android/settings/connecteddevice/display/ExternalDisplayPreferenceFragment.java:638-650 | re-adding the very object recorded as unused under its non-empty key only marks it used; any other object is appended to the screen unless already there; every unused entry stays filed under its own key |
| ExternalDisplay.PrefRefresh.Close | src/com/android/settings/connecteddevice/display/ExternalDisplayPreferenceFragment.java:652-657 | the screen loses exactly the still-unused preferences |
| ExternalDisplay.ReuseDisplayCategory | src/com/android/settings/connecteddevice/display/ExternalDisplayPreferenceFragment.java:399-415 | the unused category keyed for position n is reused: its key leaves the unused map and the screen's children are unchanged; otherwise a new category with that key, the position's order and persistence off is appended to the screen and the unused map is unchanged |
| BluetoothDetailsOrder.IndexOf | src/com/android/settings/bluetooth/BluetoothDetailsConfigurableFragment.kt:70 | List.indexOf: -1 iff the key is absent; otherwise its first position |
| BluetoothDetailsOrder.SortedFrom | src/com/android/settings/bluetooth/BluetoothDetailsConfigurableFragment.kt:69-70 | the sorted visible preferences are in order and each has an index in the order |
| BluetoothDetailsOrder.InvisiblePrefs | src/com/android/settings/bluetooth/BluetoothDetailsConfigurableFragment.kt:71-74 | the hidden preferences are exactly those whose key is not in the order |
| BluetoothDetailsOrder.SortedFromIsPermutation | src/com/android/settings/bluetooth/BluetoothDetailsConfigurableFragment.kt:69-70 | sorting by index only reorders the preferences whose key is in the order |
| BluetoothDetailsOrder.VisibleAndInvisibleAreAll | src/com/android/settings/bluetooth/BluetoothDetailsConfigurableFragment.kt:64-74 | together, the visible and the hidden preferences are a permutation of all of them |
| BluetoothDetailsOrder.VisibleIffInOrder | src/com/android/settings/bluetooth/BluetoothDetailsConfigurableFragment.kt:69-74 | a preference is visible iff its key is in the order, and hidden iff it is not |
| BluetoothDetailsOrder.ConfigurableFragment.UpdatePreferenceOrder | src/com/android/settings/bluetooth/BluetoothDetailsConfigurableFragment.kt:58-75 | with no order or no screen nothing changes; otherwise the screen shows the ordered preferences and then the invisible category, which holds the rest |
| BluetoothDetailsOrder.ConfigurableFragment.SetPreferenceDisplayOrder | src/com/android/settings/bluetooth/BluetoothDetailsConfigurableFragment.kt:32-38 | setting an order equal to the current one changes nothing; a new order is stored and applied; without an order or a screen the screen and the hidden set stay as they were |
| BluetoothDetailsOrder.UpdateKeepsAllPrefs | src/com/android/settings/bluetooth/BluetoothDetailsConfigurableFragment.kt:61-74 | after an update the fragment manages the same preferences as before |
| BluetoothDetailsOrder.HideThenShowRestores | tests/robotests/src/com/android/settings/bluetooth/BluetoothDetailsFragmentTest.kt:67-76 | a key hidden by one order is visible again after an order that names it |
| BundleCombined.GetBundleTypeForKey | src/com/android/settings/notification/BundleCombinedPreferenceController.java:138-149 | the four type keys map to their types; any other key maps to TYPE_OTHER |
| BundleCombined.TypeKeysDistinct | src/com/android/settings/notification/BundleCombinedPreferenceController.java:138-149 | distinct type keys control distinct types |
| BundleCombined.GetAvailabilityStatus | src/com/android/settings/notification/BundleCombinedPreferenceController.java:60-67 | available iff the classification UI flag is on and the backend supports bundling; otherwise conditionally unavailable |
| BundleCombined.EffectiveEnabled | src/com/android/settings/notification/BundleCombinedPreferenceController.java:90-98 | bundling counts as on iff it is enabled and at least one type is allowed |
| BundleCombined.RefreshedTypePref | src/com/android/settings/notification/BundleCombinedPreferenceController.java:105-110 | a type box is visible iff bundling is on; when on, checked iff its type is allowed; when off, its checked state is kept |
| BundleCombined.RefreshTypePrefs | src/com/android/settings/notification/BundleCombinedPreferenceController.java:104-111 | the loop refreshes every cached box and keeps the same keys |
| BundleCombined.NotificationBackend.SetBundleTypeState | src/com/android/settings/notification/BundleCombinedPreferenceController.java:128 | the type joins the allowed set when enabled and leaves it otherwise |
| BundleCombined.NotificationBackend.SetNotificationBundlingEnabled | src/com/android/settings/notification/BundleCombinedPreferenceController.java:116 | the backend's global bundling flag takes the new value |
| BundleCombined.BundleCombinedController.UpdatePrefValues | src/com/android/settings/notification/BundleCombinedPreferenceController.java:89-112 | enabled bundling with no allowed type is switched off in the backend; the global switch, when present, shows the effective state; every box is refreshed |
| BundleCombined.BundleCombinedController.UpdateState | src/com/android/settings/notification/BundleCombinedPreferenceController.java:69-87 | the global switch and the type boxes the category holds are cached; every cached box then has the checked and visible values RefreshedTypePref gives for the backend's state; the allowed types are unchanged |
| BundleCombined.BundleCombinedController.OnGlobalPrefChange | src/com/android/settings/notification/BundleCombinedPreferenceController.java:114-120 | the backend takes the new value; the boxes keep their keys, are visible iff bundling is now on, and each takes the checked and visible values RefreshedTypePref gives |
| BundleCombined.BundleCombinedController.OnTypePrefChange | src/com/android/settings/notification/BundleCombinedPreferenceController.java:125-136 | the type's state is written; checking never touches the global state; an uncheck then refreshes as updatePrefValues does: bundling stays on only while a type is allowed, the global switch shows it and every box takes RefreshedTypePref; unchecking the last allowed type turns bundling off |
| AdjustmentExcludedApps.GetAvailabilityStatus | src/com/android/settings/notification/AdjustmentExcludedAppsPreferenceController.java:87-101 | with all three flags off the list is unavailable; otherwise it is available iff the key is summarization and summaries are supported, or the key is type and bundling is supported |
| AdjustmentExcludedApps.GetKey | src/com/android/settings/notification/AdjustmentExcludedAppsPreferenceController.java:172-174 | the key starts with "all|", then the package name and a '|', and after that holds no '|', so its last '|' ends the package name |
| AdjustmentExcludedApps.DecimalHasNoBar | src/com/android/settings/notification/AdjustmentExcludedAppsPreferenceController.java:172-174 | the decimal text of a uid contains no bar |
| AdjustmentExcludedApps.GetKeyInjective | src/com/android/settings/notification/AdjustmentExcludedAppsPreferenceController.java:172-174 | "all\|" + package + "\|" + uid identifies the package and uid: equal keys mean equal apps |
| AdjustmentExcludedApps.Without | src/com/android/settings/notification/AdjustmentExcludedAppsPreferenceController.java:164 | removing a preference drops exactly that key |
| AdjustmentExcludedApps.StepMembership | src/com/android/settings/notification/AdjustmentExcludedAppsPreferenceController.java:145-165 | one app's step only touches its own key, which is present afterwards iff the package is excluded |
| AdjustmentExcludedApps.UnlistedKeyKept | src/com/android/settings/notification/AdjustmentExcludedAppsPreferenceController.java:144-166 | a key of no listed app is kept or absent as before |
| AdjustmentExcludedApps.ListedKeyReconciled | src/com/android/settings/notification/AdjustmentExcludedAppsPreferenceController.java:144-166 | afterwards a listed app has a preference iff its package is excluded |
| AdjustmentExcludedApps.ExcludedAppsController.UpdateAppList | src/com/android/settings/notification/AdjustmentExcludedAppsPreferenceController.java:136-167 | a null category or app list changes nothing; otherwise the category becomes the reconciled key list |
| EthernetInterfaces.RemoveFirst | src/com/android/settings/network/ethernet/EthernetInterface.kt:78 | List.remove drops one occurrence of a present listener and leaves the list alone otherwise |
| EthernetInterfaces.EthernetInterface.constructor | src/com/android/settings/network/ethernet/EthernetInterface.kt:36-59 | a new interface is absent, with the default configuration, empty link properties and no listener |
| EthernetInterfaces.EthernetInterface.RegisterListener | src/com/android/settings/network/ethernet/EthernetInterface.kt:69-75 | the listener is appended; the first one registers this object with the managers that exist; state is unchanged |
| EthernetInterfaces.EthernetInterface.UnregisterListener | src/com/android/settings/network/ethernet/EthernetInterface.kt:77-83 | the listener is removed; once none is left both registrations are dropped |
| EthernetInterfaces.EthernetInterface.NotifyListeners | src/com/android/settings/network/ethernet/EthernetInterface.kt:104-108 | every listener receives one update, in order |
| EthernetInterfaces.EthernetInterface.OnInterfaceStateChanged | src/com/android/settings/network/ethernet/EthernetInterface.kt:110-116 | a report for another id changes nothing; for this id the state and the configuration (the default one when null) are taken and all listeners are notified |
| EthernetInterfaces.EthernetInterface.OnLinkPropertiesChanged | src/com/android/settings/network/ethernet/EthernetInterface.kt:119-127 | link properties are taken and listeners notified only when the interface name equals the id |
| EthernetTracking.DeliverToAll | src/com/android/settings/network/ethernet/EthernetTrackerImpl.kt:74-76 | every listener, in order, receives the same interface list |
| EthernetTracking.Erase | src/com/android/settings/network/ethernet/EthernetTrackerImpl.kt:70 | removing an id from the insertion order drops exactly that id |
| EthernetTracking.EraseKeepsDistinct | src/com/android/settings/network/ethernet/EthernetTrackerImpl.kt:70 | the insertion order stays free of duplicates after a removal |
| EthernetTracking.EthernetTracker.constructor | src/com/android/settings/network/ethernet/EthernetTrackerImpl.kt:24-36 | the tracker starts with no interface and no listener |
| EthernetTracking.EthernetTracker.GetInterface | src/com/android/settings/network/ethernet/EthernetTrackerImpl.kt:38-40 | the mapped interface, or null iff the id is not tracked |
| EthernetTracking.EthernetTracker.RegisterInterfaceListener | src/com/android/settings/network/ethernet/EthernetTrackerImpl.kt:45-53 | the first listener attaches the tracker to the EthernetManager; the new listener receives the current list |
| EthernetTracking.EthernetTracker.UnregisterInterfaceListener | src/com/android/settings/network/ethernet/EthernetTrackerImpl.kt:55-62 | the listener is removed; removing the last one detaches the tracker |
| EthernetTracking.EthernetTracker.OnInterfaceStateChanged | src/com/android/settings/network/ethernet/EthernetTrackerImpl.kt:64-78 | an unknown id in a present state is added as a new absent interface and every other id keeps its object; a known id reported absent is removed; only then do all listeners receive the new list |
| EthernetTracking.EthernetTracker.NotifyInterfaceListChanged | src/com/android/settings/network/ethernet/EthernetTrackerImpl.kt:74-76 | each listener, in order, receives the current list of interface ids |
| WhenToStartHub.GetSettingFromPrefKey | src/com/android/settings/communal/WhenToStartHubPicker.java:123-136 | the three named keys store their start modes; "never" and any unknown key store NEVER |
| WhenToStartHub.GetKeyFromSetting | src/com/android/settings/communal/WhenToStartHubPicker.java:138-150 | the three start modes read back as their keys; NEVER and any unknown value read back as "never" |
| WhenToStartHub.KeyRoundTrip | src/com/android/settings/communal/WhenToStartHubPicker.java:123-150 | storing any of the four keys and reading it back gives the same key |
| WhenToStartHub.SettingRoundTrip | src/com/android/settings/communal/WhenToStartHubPicker.java:96-113 | every stored value shows a key that stores the same key again; each of the four modes survives the round trip |
| WhenToStartHub.GetCandidates | src/com/android/settings/communal/WhenToStartHubPicker.java:69-86 | null or empty entries give no candidates; missing or unequal values throw IllegalArgumentException; otherwise candidate i pairs entry i with value i |
| AutoclickCursorArea.RadioButtonForSize | src/com/android/settings/accessibility/ToggleAutoclickCursorAreaSizeController.java:52-59 | the inverse of the radio-button bimap: a button iff the size is one of the five canned sizes, and that button's size |
| AutoclickCursorArea.CursorSize | src/com/android/settings/accessibility/ToggleAutoclickCursorAreaSizeController.java:52-59 | each button's size is within 20..100 and on a step of 20, and only the default button has the default size 60 |
| AutoclickCursorArea.RadioMapIsBijection | src/com/android/settings/accessibility/ToggleAutoclickCursorAreaSizeController.java:52-59 | the button-to-size map is injective, its inverse undoes it, and every canned size lies within 20..100 |
| AutoclickCursorArea.ValidateSize | src/com/android/settings/accessibility/ToggleAutoclickCursorAreaSizeController.java:179-183 | the size is clamped to 20..100 |
| AutoclickCursorArea.ValidateSizeIdempotent | src/com/android/settings/accessibility/ToggleAutoclickCursorAreaSizeController.java:179-183 | clamping twice is clamping once |
| AutoclickCursorArea.SummaryFor | src/com/android/settings/accessibility/ToggleAutoclickCursorAreaSizeController.java:151-168 | the summary names the clamped size's button, and "default" for every other size |
| AutoclickCursorArea.SummaryOfChosenButton | src/com/android/settings/accessibility/ToggleAutoclickCursorAreaSizeController.java:98-106 | after a button is chosen and stored, the summary names that button |
| AutoclickCursorArea.GetAvailabilityStatus | src/com/android/settings/accessibility/ToggleAutoclickCursorAreaSizeController.java:140-143 | available iff the autoclick indicator flag is on |
| AutoclickCursorArea.InitialRadioButtonAsWritten | src/com/android/settings/accessibility/ToggleAutoclickCursorAreaSizeController.java:114-125 | the dialog finds a button iff the clamped stored size is canned; otherwise unboxing the null lookup throws |
| AutoclickCursorArea.InitialRadioButtonThrowsFor50 | src/com/android/settings/accessibility/ToggleAutoclickCursorAreaSizeController.java:114-125 | a stored size of 50 passes the clamp but has no button, so opening the dialog throws, while the summary shows "default" |
| AutoclickCursorArea.InitialRadioButton | src/com/android/settings/accessibility/ToggleAutoclickCursorAreaSizeController.java:114-125 | the corrected initial button: the one the summary names, which is the stored size's button whenever there is one |
| AutoclickCursorArea.CursorAreaSizeSetting.GetSummary | src/com/android/settings/accessibility/ToggleAutoclickCursorAreaSizeController.java:151-168 | the button of the clamped stored size when that size is canned, otherwise "default"; "default" while nothing is stored |
| AutoclickCursorArea.CursorAreaSizeSetting.UpdateAutoclickCursorAreaSize | src/com/android/settings/accessibility/ToggleAutoclickCursorAreaSizeController.java:170-177 | the clamped size is stored, so the setting always holds a size in 20..100 |
| AutoclickCursorArea.CursorAreaSizeSetting.OnPositiveButton | src/com/android/settings/accessibility/ToggleAutoclickCursorAreaSizeController.java:98-106 | the checked button's size is stored and the summary then names that button |
| AudioSharingReceiver.FirstGroupWith | src/com/android/settings/connecteddevice/audiosharing/AudioSharingReceiver.java:200-202 | the first group, in map order, that lists the sink; -1 iff no group lists it |
| AudioSharingReceiver.MembersOf | src/com/android/settings/connecteddevice/audiosharing/AudioSharingReceiver.java:207-208 | getOrDefault: the members under that group id, or none when the id is absent |
| AudioSharingReceiver.WithoutSource | src/com/android/settings/connecteddevice/audiosharing/AudioSharingReceiver.java:207-210 | the members without a connected broadcast source, and exactly those; one member is kept iff it has no source |
| AudioSharingReceiver.OtherGroupsWithSource | src/com/android/settings/connecteddevice/audiosharing/AudioSharingReceiver.java:214-217 | the count of other groups in which some member already has a source |
| AudioSharingReceiver.ValidToAddSource | src/com/android/settings/connecteddevice/audiosharing/AudioSharingReceiver.java:187-222 | nothing without a sink, a broadcast or a valid group; when broadcasting, with the sink in a valid group and fewer than two other groups receiving, exactly WithoutSource of that group's members |
| AudioSharingReceiver.WithoutSourceAppend | src/com/android/settings/connecteddevice/audiosharing/AudioSharingReceiver.java:207-210 | the filter distributes over concatenation, so the members kept stay in their original order |
| AudioSharingReceiver.AllSourcedLeavesNone | src/com/android/settings/connecteddevice/audiosharing/AudioSharingReceiver.java:211-213 | when every member already has a source, nobody is left to add |
| AudioSharingReceiver.GroupAlreadySharingAddsNothing | src/com/android/settings/connecteddevice/audiosharing/AudioSharingReceiver.java:211-213 | a sink whose whole group already receives the broadcast gets no source added |
| AudioSharingReceiver.OnReceive | src/com/android/settings/connecteddevice/audiosharing/AudioSharingReceiver.java:76-185 | the exact effect list of every path: state on shows the sharing notification iff the UI is available, state off cancels both notifications, any other state does nothing; stop stops the broadcast or cancels both notifications; a connected device gives the join dialog in the foreground, the add-source notification in the background when there are sinks, or nothing; add-source adds the source to exactly ValidToAddSource's sinks (when the flags allow) and then cancels its notification |
| AudioSharingReceiver.AddSourceTargetsOnlyTheSinkGroup | src/com/android/settings/connecteddevice/audiosharing/AudioSharingReceiver.java:166-222 | a source is added only while broadcasting, for a connected sink, and only to members of the sink's group that have no source, with fewer than two other groups receiving |
| AudioStreamMedia.DevicesInValidState | src/com/android/settings/connecteddevice/audiosharing/audiostreams/AudioStreamMediaService.java:446-456 | no device for a null or empty map; with the receive-state flag the sinks not in DECRYPTION_FAILED, without it every sink |
| AudioStreamMedia.PlaybackStateFor | src/com/android/settings/connecteddevice/audiosharing/audiostreams/AudioStreamMediaService.java:372-382 | hysteresis iff the fix is on and every sink is PAUSED; otherwise pausing iff muted and playing iff not |
| AudioStreamMedia.HysteresisOverridesMute | src/com/android/settings/connecteddevice/audiosharing/audiostreams/AudioStreamMediaService.java:372-382 | with every sink paused and the fix on, the state is hysteresis whether muted or not |
| AudioStreamMedia.MediaButtonVolumes | src/com/android/settings/connecteddevice/audiosharing/audiostreams/AudioStreamMediaService.java:622-635 | play asks every valid sink for the latest positive volume; pause asks every valid sink for 0; no other device is asked |
| AudioStreamMedia.IntentPathFor | src/com/android/settings/connecteddevice/audiosharing/audiostreams/AudioStreamMediaService.java:283-313 | initial setup iff no broadcast yet; new broadcast iff the id differs; new device or state iff the same id and the sink is new or its state changed; otherwise nothing |
| AudioStreamMedia.AudioStreamMediaService.constructor | src/com/android/settings/connecteddevice/audiosharing/audiostreams/AudioStreamMediaService.java:123-147 | a new service has no broadcast, no map, no session, is unmuted and remembers volume 25 |
| AudioStreamMedia.AudioStreamMediaService.UpdateMediaSessionAndNotify | src/com/android/settings/connecteddevice/audiosharing/audiostreams/AudioStreamMediaService.java:417-430 | with a notification manager and a session, the session takes the current playback state; otherwise nothing changes |
| AudioStreamMedia.AudioStreamMediaService.HandleIntentData | src/com/android/settings/connecteddevice/audiosharing/audiostreams/AudioStreamMediaService.java:283-353 | initial setup with DECRYPTION_FAILED stops the service, otherwise starts it on that sink alone; a new id with DECRYPTION_FAILED is ignored, otherwise restarts the map with that sink; a new sink or state is recorded and stops the service when no valid sink is left; on every path the session's playback state is given: kept, or a fresh one where the service publishes it |
| AudioStreamMedia.AudioStreamMediaService.OnReceiveStateChanged | src/com/android/settings/connecteddevice/audiosharing/audiostreams/AudioStreamMediaService.java:477-509 | only without the receive-state flag, with the fix, for a known sink that moves to STREAMING or PAUSED is the state recorded and the session refreshed |
| AudioStreamMedia.AudioStreamMediaService.OnDeviceVolumeChanged | src/com/android/settings/connecteddevice/audiosharing/audiostreams/AudioStreamMediaService.java:520-541 | a volume of an invalid device is ignored; 0 mutes; any other volume unmutes and is remembered; the session then shows the new playback state |
| AudioStreamMedia.AudioStreamMediaService.OnProfileConnectionStateChanged | src/com/android/settings/connecteddevice/audiosharing/audiostreams/AudioStreamMediaService.java:554-570 | a broadcast-assistant disconnect drops the sink from the map; the service stops when no valid sink is left |
| AudioStreamMedia.DisconnectedSinkNotValid | src/com/android/settings/connecteddevice/audiosharing/audiostreams/AudioStreamMediaService.java:560-565 | a sink dropped on disconnect is no longer a valid device |
| BluetoothUtils.GetConnectionStateSummary | src/com/android/settings/bluetooth/Utils.java:87-100 | each of the four connection states has its own summary, and only they do; any other value gives 0 |
| BluetoothUtils.FirstInGroup | src/com/android/settings/bluetooth/Utils.java:276-279 | the first cached device with the group id; -1 iff none has it |
| BluetoothUtils.FindAllByGroupId | src/com/android/settings/bluetooth/Utils.java:258-292 | nothing for a null device; the device alone when its group is invalid; otherwise the group's first cached device and its members, or nothing without a manager or a main device |
| BluetoothUtils.TwoGroupsIffTwoDevices | src/com/android/settings/bluetooth/Utils.java:335-339 | the receiving devices span at least two groups iff two of them differ in group |
| BluetoothUtils.ShouldBlockPairingInAudioSharing | src/com/android/settings/bluetooth/Utils.java:318-340 | blocked iff broadcasting with an assistant and a device manager, and either a temporary-bond device is bonded or two receiving devices belong to different groups |
| BluetoothUtils.OneGroupDoesNotBlock | src/com/android/settings/bluetooth/Utils.java:328-339 | receiving devices all of one group, with no temporary bond, never block pairing |
| BluetoothUtils.DevicesWithProfile | src/com/android/settings/bluetooth/Utils.java:438-449 | exactly the devices that have the profile |
| BluetoothUtils.MultisetCount | src/com/android/settings/bluetooth/Utils.java:441-446 | a device is listed once per matching profile entry, so at least once iff it has the profile |
| BluetoothUtils.ProfileManager.constructor | src/com/android/settings/bluetooth/Utils.java:386-387 | the manager starts with the given profiles and states and no setEnabled call |
| BluetoothUtils.ProfileManager.SetProfileEnabledWhenChangingLeAudio | src/com/android/settings/bluetooth/Utils.java:451-484 | a missing profile changes nothing; otherwise every device with the profile ends with it set as asked, setEnabled is called only where the state differed and only for those devices, and no other state changes |
| BluetoothUtils.SetOnDevices | src/com/android/settings/bluetooth/Utils.java:461-483 | after the loop every listed device has the profile set as asked, nothing else differs, and the calls made are for listed devices whose state differed |
| BluetoothUtils.ProfileManager.SetLeAudioProfiles | src/com/android/settings/bluetooth/Utils.java:407-427 | the state is LeAudioState of the devices: on every LE audio device LE audio follows the request, hearing aid the opposite and the broadcast assistant follows it, each when present; those profiles on other addresses and every other profile are unchanged; the calls logged are LeAudioCalls of the devices |
| BluetoothUtils.LeAudioStep | src/com/android/settings/bluetooth/Utils.java:412-425 | one device of the loop: LE audio follows the request, hearing aid the opposite and the assistant follows it, each when present, and no other entry changes |
| BluetoothUtils.LeAudioStateDone | src/com/android/settings/bluetooth/Utils.java:405-426 | after the loop every device's LE profiles are set and those profiles on other addresses are unchanged |
| BluetoothUtils.LeAudioCallsProfiles | src/com/android/settings/bluetooth/Utils.java:405-426 | the loop calls setEnabled only on LE audio, hearing aid and the broadcast assistant |
| BluetoothUtils.LeAudioCallsAddresses | src/com/android/settings/bluetooth/Utils.java:405-426 | every call names one of the devices, and every device gets its LE audio call |
| BluetoothUtils.SetLeAudioOnEach | src/com/android/settings/bluetooth/Utils.java:405-426 | the loop on values ends in LeAudioState and LeAudioCalls of the devices |
| BluetoothUtils.ProfileManager.SetLeAudioEnabled | src/com/android/settings/bluetooth/Utils.java:382-436 | on every LE audio device LE audio and the broadcast assistant follow the request and hearing aid the opposite; without dual mode A2DP and HFP end opposite to it on the devices that have them; with dual mode they are left alone; nothing changes outside these profiles and the group's addresses, and every call names a group device |
| BluetoothUtils.ProfileManager.SetClassicProfiles | src/com/android/settings/bluetooth/Utils.java:394-400 | the paired A2DP and HFP calls (also used at lines 428-434): each profile, when present, ends as asked on every group device that has it; nothing else changes, and every call names a group device |
| RegionDialog.SameLanguageAndScriptSymmetric | src/com/android/settings/regionalpreferences/RegionDialogFragment.java:237-249 | the language-and-script match is symmetric |
| RegionDialog.SameLanguageAndScript | src/com/android/settings/regionalpreferences/RegionDialogFragment.java:237-249 | a match needs equal languages; with equal languages an empty script on either side, or equal scripts, match; two different non-empty scripts never match |
| RegionDialog.SameLanguageAndScriptNotTransitive | src/com/android/settings/regionalpreferences/RegionDialogFragment.java:237-249 | the match is not transitive: a script-less locale matches two locales whose scripts differ |
| RegionDialog.AppendLocaleExtension | src/com/android/settings/regionalpreferences/RegionDialogFragment.java:224-235 | the selected locale keeps its language, script and region, and takes every extension of the system locale, a system extension replacing the selected one under the same key |
| RegionDialog.GetUpdatedLocales | src/com/android/settings/regionalpreferences/RegionDialogFragment.java:210-222 | a new array as long as the default list: every entry matching the selected locale becomes the selected locale with the system extensions, and every other entry is kept |
| RegionDialog.OnClick | src/com/android/settings/regionalpreferences/RegionDialogFragment.java:144-170 | only the two region dialogs react; the positive button gives exactly: update the region, log, dismiss, and finish the activity iff there is one; any other button gives exactly: log and dismiss |
| LocalePicker.GetDialogEvent | src/com/android/settings/localepicker/LocalePickerWithRegionActivity.java:164-172 | -1 disposes, 0 asks about the system language, any other index about a preferred language |
| LocalePicker.IndexOfSameLanguageAndScript | src/com/android/settings/localepicker/LocalePickerWithRegionActivity.java:174-184 | the last matching position of the device list, or -1 iff none matches |
| LocalePicker.OnLocaleSelected | src/com/android/settings/localepicker/LocalePickerWithRegionActivity.java:120-139 | with the regional-preferences flag off the locale is disposed; with it on it is disposed iff nothing matches; otherwise the last matching position decides: position 0 gives the system dialog, any other the preferred dialog replacing the locale at that position |
| SafeSites.SafeSitesDataStore.constructor | src/com/android/settings/supervision/SupervisionSafeSitesDataStore.kt:29-32 | the store starts over the given state of the content-filters setting |
| SafeSites.Contains | src/com/android/settings/supervision/SupervisionSafeSitesDataStore.kt:34-36 | the store answers for the two safe-sites keys and for no other key |
| SafeSites.SafeSitesDataStore.GetValue | src/com/android/settings/supervision/SupervisionSafeSitesDataStore.kt:34-48 | a value exactly for the two safe-sites keys; "block explicit sites" reads true iff the setting is true, "allow all sites" reads its negation, and an unset setting reads as false |
| SafeSites.SafeSitesDataStore.SetValue | src/com/android/settings/supervision/SupervisionSafeSitesDataStore.kt:50-59 | only a Boolean for one of the two keys writes the setting, "allow all" its negation; anything else leaves the setting alone; a written value reads back unchanged through getValue |
| SafeSites.AllowAndBlockAreOpposite | src/com/android/settings/supervision/SupervisionSafeSitesDataStore.kt:38-48 | the two radio preferences always read as opposite values |
| ColorMode.ZipToMapKeys | src/com/android/settings/display/ColorModeUtils.kt:42-44 | the zipped map has exactly the color mode values as keys |
| ColorMode.ZipToMapLast | src/com/android/settings/display/ColorModeUtils.kt:42-44 | a value's last occurrence decides its name, as a later pair overwrites an earlier one |
| ColorMode.ZipToMapAllLast | src/com/android/settings/display/ColorModeUtils.kt:42-44 | every last occurrence decides its value's name |
| ColorMode.GetColorModeMapping | src/com/android/settings/display/ColorModeUtils.kt:31-52 | fails iff the two arrays differ in length; otherwise its keys are exactly the listed modes that are standard (0-3) or in the vendor range 256-511, each named by its last occurrence |
| ColorMode.GetActiveColorModeName | src/com/android/settings/display/ColorModeUtils.kt:59-60 | the active mode's name from the mapping, "" for a mode without an entry, and a failure for unequal arrays |
| ColorMode.UnknownModeHasNoName | src/com/android/settings/display/ColorModeUtils.kt:42-60 | a mode outside the known modes never has a name, whatever the arrays hold |
| ChargingSpeed.SupportedIndicesFrom | src/com/android/settings/fuelgauge/ChargingSpeedPreferenceController.java:71-77 | the positions kept by the filter lie within the list |
| ChargingSpeed.SupportedIndicesSupported | src/com/android/settings/fuelgauge/ChargingSpeedPreferenceController.java:71-77 | every kept position holds a value that parses to a supported mode |
| ChargingSpeed.SupportedIndicesIncreasing | src/com/android/settings/fuelgauge/ChargingSpeedPreferenceController.java:71-77 | the kept positions are strictly increasing, so the filter keeps the original order |
| ChargingSpeed.SupportedIndicesComplete | src/com/android/settings/fuelgauge/ChargingSpeedPreferenceController.java:71-77 | every position holding a supported mode is kept |
| ChargingSpeed.KeepSupportedMatchesIndices | src/com/android/settings/fuelgauge/ChargingSpeedPreferenceController.java:71-80 | the filtered entries and values stay in lockstep: pair j of the result is the pair at the j-th kept position |
| ChargingSpeed.FindIndexOfValue | src/com/android/settings/fuelgauge/ChargingSpeedPreferenceController.java:92 | the last position holding the value, or -1 iff the value is absent |
| ChargingSpeed.FilterSupportedModes | src/com/android/settings/fuelgauge/ChargingSpeedPreferenceController.java:63-77 | a NumberFormatException iff some value does not parse; otherwise the lists with exactly the unsupported pairs removed |
| ChargingSpeed.SelectedIndex | src/com/android/settings/fuelgauge/ChargingSpeedPreferenceController.java:91-93 | the position of the mode's decimal string when the list has it, else 0 |
| ChargingSpeed.HealthInterface.constructor | src/com/android/settings/fuelgauge/ChargingSpeedPreferenceController.java:43-51 | the HAL state the controller reads: fast-charge support, supported modes and current mode |
| ChargingSpeed.HealthInterface.SetFastChargeMode | src/com/android/settings/fuelgauge/ChargingSpeedPreferenceController.java:99 | returns the HAL's answer, and an accepted mode becomes the current one |
| ChargingSpeed.ChargingSpeedController.constructor | src/com/android/settings/fuelgauge/ChargingSpeedPreferenceController.java:43-51 | the HAL is absent when getInstance threw; the list starts as given |
| ChargingSpeed.ChargingSpeedController.GetAvailabilityStatus | src/com/android/settings/fuelgauge/ChargingSpeedPreferenceController.java:83-87 | available iff there is a HAL and it supports fast charging, else unsupported on device |
| ChargingSpeed.ChargingSpeedController.DisplayPreference | src/com/android/settings/fuelgauge/ChargingSpeedPreferenceController.java:53-81 | an unsupported device leaves the lists alone; an unparseable value throws and leaves them alone; otherwise they become the filtered lists |
| ChargingSpeed.ChargingSpeedController.UpdateState | src/com/android/settings/fuelgauge/ChargingSpeedPreferenceController.java:89-95 | the selected index is the current HAL mode's entry, or the first entry |
| ChargingSpeed.ChargingSpeedController.OnPreferenceChange | src/com/android/settings/fuelgauge/ChargingSpeedPreferenceController.java:97-105 | an unparseable value throws; otherwise returns whether the HAL accepted the mode, and only an accepted mode changes the HAL mode and reselects the list |
| AdvancedProtectionDialog.OnAndOffSetsDisjoint | src/com/android/settings/security/ActionDisabledByAdvancedProtectionDialog.kt:140-142 | no feature is both a setting-on and a setting-off feature |
| AdvancedProtectionDialog.IntentFeatureId | src/com/android/settings/security/ActionDisabledByAdvancedProtectionDialog.kt:129-131 | the intent's feature extra, or -1 without it |
| AdvancedProtectionDialog.IntentDialogType | src/com/android/settings/security/ActionDisabledByAdvancedProtectionDialog.kt:133-135 | the intent's dialog-type extra, or UNKNOWN without it |
| AdvancedProtectionDialog.GetDialogMessage | src/com/android/settings/security/ActionDisabledByAdvancedProtectionDialog.kt:64-87 | the setting-on message iff a disabled-setting dialog for 2G or MTE, the setting-off message iff a disabled-setting dialog for WEP or unknown sources, the WEP message iff a blocked-interaction dialog for WEP, and the default message for any other dialog type |
| AdvancedProtectionDialog.MissingExtrasShowDefault | src/com/android/settings/security/ActionDisabledByAdvancedProtectionDialog.kt:64-87 | an intent without either extra shows the default message |
| AdvancedProtectionDialog.WepMessages | src/com/android/settings/security/ActionDisabledByAdvancedProtectionDialog.kt:64-87 | WEP gets the setting-off message, the WEP action message or the default, by dialog type |
| Feedback.Activity.constructor | src/com/android/settings/accessibility/FeedbackManager.java:105 | a fresh activity has started nothing |
| Feedback.FeedbackManager.constructor | src/com/android/settings/accessibility/FeedbackManager.java:66-71 | keeps the activity reference, the reporter package and the category |
| Feedback.FeedbackManager.IsAvailable | src/com/android/settings/accessibility/FeedbackManager.java:78-86 | feedback is available only with the flag on, a live activity, and a non-empty reporter package and category |
| Feedback.FeedbackManager.FeedbackIntent | src/com/android/settings/accessibility/FeedbackManager.java:102-104 | a bug-report intent addressed to the reporter package and carrying the category under "category_tag" |
| Feedback.FeedbackManager.SendFeedback | src/com/android/settings/accessibility/FeedbackManager.java:78-107 | returns true iff feedback is available, and exactly then the activity starts the bug-report intent with result code 0; otherwise nothing is started |
| Feedback.FlagOffMeansUnavailable | src/com/android/settings/accessibility/FeedbackManager.java:78-81 | with the low-vision feedback flag off no page offers feedback |
| SatelliteCarrier.CarrierConfig.GetBoolean | src/com/android/settings/network/telephony/satellite/SatelliteSettingPreferenceController.java:96 | a boolean carrier-config key reads true iff the bundle holds it as true; an absent key reads false |
| SatelliteCarrier.CarrierConfig.ConnectType | src/com/android/settings/network/telephony/satellite/SatelliteSettingPreferenceController.java:210-214 | the NTN connect type from the bundle, AUTOMATIC (0) when it is absent |
| SatelliteCarrier.CarrierConfig.IsConnectTypeManual | src/com/android/settings/network/telephony/satellite/SatelliteSettingsPreferenceCategoryController.java:105-107 | manual exactly when a connection type is set and it is not AUTOMATIC; an unset type reads as automatic |
| SatelliteCarrier.AttachRestrictionReasons | src/com/android/settings/network/telephony/satellite/SatelliteCarrierSettingUtils.java:73-87 | the manager's restriction reasons, or the empty set when there is no manager or the call throws |
| SatelliteCarrier.SatelliteDataSupportMode | src/com/android/settings/network/telephony/satellite/SatelliteCarrierSettingUtils.java:89-103 | the manager's data mode, or ONLY_RESTRICTED when there is no manager or the call throws |
| SatelliteCarrier.IsSatelliteAccountEligible | src/com/android/settings/network/telephony/satellite/SatelliteCarrierSettingUtils.java:42-50 | eligible iff the manager did not report the entitlement restriction |
| SatelliteCarrier.IsSatelliteDataRestricted | src/com/android/settings/network/telephony/satellite/SatelliteCarrierSettingUtils.java:57-62 | restricted iff the manager is unusable or reports a mode at most ONLY_RESTRICTED |
| SatelliteCarrier.MissingManagerFallbacks | src/com/android/settings/network/telephony/satellite/SatelliteCarrierSettingUtils.java:73-103 | without a usable manager the account counts as eligible and data as restricted |
| SatelliteCarrier.IsSatelliteEligible | src/com/android/settings/network/telephony/satellite/SatelliteAppListCategoryController.java:117-124 | SMS availability for the manual connection type, account eligibility for any other type (the account-info controller repeats this at SatelliteSettingAccountInfoController.java:157-164) |
| SatelliteCategory.AsWrittenNeverStoresScreen | src/com/android/settings/network/telephony/satellite/SatelliteSettingsPreferenceCategoryController.java:84-89 | as written, a controller that starts without a screen never stores one, whatever screens are displayed |
| SatelliteCategory.StoredScreen | src/com/android/settings/network/telephony/satellite/SatelliteSettingsPreferenceCategoryController.java:84-89 | corrected: the first screen displayed is kept and later ones do not replace it |
| SatelliteCategory.StoredScreenIsKept | src/com/android/settings/network/telephony/satellite/SatelliteSettingsPreferenceCategoryController.java:84-95 | once a screen is stored, any later series of displays keeps it |
| SatelliteCategory.FirstDisplayedScreenIsStored | src/com/android/settings/network/telephony/satellite/SatelliteSettingsPreferenceCategoryController.java:84-95 | corrected, the first screen displayed is the one every later refresh redisplays |
| SatelliteCategory.SatelliteCategoryController.constructor | src/com/android/settings/network/telephony/satellite/SatelliteSettingsPreferenceCategoryController.java:54-68 | no screen, satellite not supported, SMS not available |
| SatelliteCategory.SatelliteCategoryController.DisplayPreference | src/com/android/settings/network/telephony/satellite/SatelliteSettingsPreferenceCategoryController.java:84-89 | the base display runs on the screen, and the stored screen follows the corrected rule |
| SatelliteCategory.SatelliteCategoryController.Redisplay | src/com/android/settings/network/telephony/satellite/SatelliteSettingsPreferenceCategoryController.java:91-95 | the stored screen, if any, is displayed again; nothing happens without one |
| SatelliteCategory.SatelliteCategoryController.OnIsSupportedResult | src/com/android/settings/network/telephony/satellite/SatelliteSettingsPreferenceCategoryController.java:161-168 | records the requestIsSupported answer and redisplays the stored screen |
| SatelliteCategory.SatelliteCategoryController.OnAvailableServicesChanged | src/com/android/settings/network/telephony/satellite/SatelliteSettingsPreferenceCategoryController.java:186-194 | SMS is available iff the services include SERVICE_TYPE_SMS; the stored screen is redisplayed |
| SatelliteCategory.SatelliteCategoryController.GetAvailabilityStatus | src/com/android/settings/network/telephony/satellite/SatelliteSettingsPreferenceCategoryController.java:97-135 | unsupported with the flag off, for a manual type without requestIsSupported's yes, or without attach support; otherwise shown (unsearchable) iff eSOS under the migration flag, the automatic type, or satellite SMS, else conditionally unavailable |
| SatelliteSetting.SummaryFor | src/com/android/settings/network/telephony/satellite/SatelliteSettingPreferenceController.java:182-185 | the enabled summary iff enabled, else the disabled one |
| SatelliteSetting.SatelliteSettingController.constructor | src/com/android/settings/network/telephony/satellite/SatelliteSettingPreferenceController.java:79-88 | the subscription's manager and carrier config, no cached eligibility, no summary, no screen |
| SatelliteSetting.SatelliteSettingController.IsConnectedTypeManual | src/com/android/settings/network/telephony/satellite/SatelliteSettingPreferenceController.java:210-214 | an unset connection type is not manual, and a manual type is one other than AUTOMATIC |
| SatelliteSetting.SatelliteSettingController.GetAvailabilityStatus | src/com/android/settings/network/telephony/satellite/SatelliteSettingPreferenceController.java:90-107 | unsupported without a manager; conditionally unavailable without attach support; otherwise available iff the type is automatic or satellite SMS is available |
| SatelliteSetting.SatelliteSettingController.UpdateSummary | src/com/android/settings/network/telephony/satellite/SatelliteSettingPreferenceController.java:171-208 | nothing without the row or the manager; the SMS summary for the manual type; the no-entitlement summary without entitlement support; otherwise the summary of the current account eligibility, cached; the cache always matches the summary shown |
| SatelliteSetting.SatelliteSettingController.DisplayPreference | src/com/android/settings/network/telephony/satellite/SatelliteSettingPreferenceController.java:128-149 | the base display runs and the first screen is remembered; the summary is the SMS summary for a manual connection, the without-entitlement text when entitlement is unsupported, the eligibility summary otherwise, and unchanged without a preference or a manager |
| SatelliteSetting.SatelliteSettingController.OnAvailableServicesChanged | src/com/android/settings/network/telephony/satellite/SatelliteSettingPreferenceController.java:244-256 | the data and SMS flags become membership of SERVICE_TYPE_DATA and SERVICE_TYPE_SMS; a remembered screen is redisplayed, and the summary is then given for the manual, the without-entitlement and the eligibility branches, unchanged without a screen, a preference or a manager |
| SatelliteAppList.SatelliteDataOptimizedApps | src/com/android/settings/network/telephony/satellite/SatelliteAppListCategoryController.java:103-115 | the manager's app list, or no apps without a manager or when the call throws |
| SatelliteAppList.KeepInstalled | src/com/android/settings/network/telephony/satellite/SatelliteAppListCategoryController.java:75-86 | exactly the package names whose application info is found, drawn from the given names |
| SatelliteAppList.ShownCount | src/com/android/settings/network/telephony/satellite/SatelliteAppListCategoryController.java:75 | at most MAXIMUM_OF_PREFERENCE_AMOUNT (3) and at most the list length, equal to one of them |
| SatelliteAppList.SatelliteAppListController.constructor | src/com/android/settings/network/telephony/satellite/SatelliteAppListCategoryController.java:48-58 | no apps, no preferences, an empty carrier config |
| SatelliteAppList.SatelliteAppListController.Init | src/com/android/settings/network/telephony/satellite/SatelliteAppListCategoryController.java:60-69 | stores the inputs, the data-optimized apps and the eligibility computed from them |
| SatelliteAppList.SatelliteAppListController.DisplayPreference | src/com/android/settings/network/telephony/satellite/SatelliteAppListCategoryController.java:71-87 | adds, in order, a preference for each installed app among the first three package names |
| SatelliteAppList.SatelliteAppListController.GetAvailabilityStatus | src/com/android/settings/network/telephony/satellite/SatelliteAppListCategoryController.java:89-101 | conditionally unavailable when entitlement is supported and the account is not eligible; otherwise shown (unsearchable) iff data is available and there are apps |
| SatelliteAppList.KeepInstalledAppend | src/com/android/settings/network/telephony/satellite/SatelliteAppListCategoryController.java:75-86 | one more step of the loop extends the added preferences by the new name exactly when it is installed |
| SatelliteAppList.ShownAppsAreInstalledAmongFirstThree | src/com/android/settings/network/telephony/satellite/SatelliteAppListCategoryController.java:75-86 | one display adds at most three preferences: exactly the installed apps among the first three names |
| SatelliteAccountInfo.SatelliteAccountInfoController.constructor | src/com/android/settings/network/telephony/satellite/SatelliteSettingAccountInfoController.java:57-67 | the two plan rows as found, an empty carrier config and no category title yet |
| SatelliteAccountInfo.SatelliteAccountInfoController.Init | src/com/android/settings/network/telephony/satellite/SatelliteSettingAccountInfoController.java:69-79 | stores the inputs and computes the eligibility once |
| SatelliteAccountInfo.SatelliteAccountInfoController.GetAvailabilityStatus | src/com/android/settings/network/telephony/satellite/SatelliteSettingAccountInfoController.java:98-107 | available iff the type is manual or the carrier supports entitlement |
| SatelliteAccountInfo.SatelliteAccountInfoController.RedirectUrl | src/com/android/settings/network/telephony/satellite/SatelliteSettingAccountInfoController.java:133 | the carrier's redirect URL, or "" when it has none |
| SatelliteAccountInfo.SatelliteAccountInfoController.DisplayPreference | src/com/android/settings/network/telephony/satellite/SatelliteSettingAccountInfoController.java:81-155 | the title names the operator; eligible: "have plan" with a check icon, and the data-plan row shown under the migration flag with data; ineligible: "no plan" with a blocked icon, plus the guidance summary and a link when there is a redirect URL; the data-plan row changes only in the first case |
| SatelliteFooter.WrapEnclosesText | src/com/android/settings/network/telephony/satellite/SatelliteSettingFooterController.java:109-119 | a list item is the prefix, the text and the suffix, so the text can be read back |
| SatelliteFooter.Wrap | src/com/android/settings/network/telephony/satellite/SatelliteSettingFooterController.java:109-119 | a list item is exactly as long as the prefix, the text and the suffix together |
| SatelliteFooter.FooterSections | src/com/android/settings/network/telephony/satellite/SatelliteSettingFooterController.java:93-105 | sections 1-5 always, 6 iff the carrier lacks emergency messaging, 7 iff it supports entitlement, strictly increasing |
| SatelliteFooter.ListItems | src/com/android/settings/network/telephony/satellite/SatelliteSettingFooterController.java:94-104 | no sections give empty text, and each listed section adds at least the prefix and suffix of its item |
| SatelliteFooter.FooterContent | src/com/android/settings/network/telephony/satellite/SatelliteSettingFooterController.java:91-107 | section 0, then a blank line, then the list items of the chosen sections; so at least the five fixed items follow |
| SatelliteFooter.SatelliteFooterController.constructor | src/com/android/settings/network/telephony/satellite/SatelliteSettingFooterController.java:43-48 | an empty carrier config and no operator name |
| SatelliteFooter.SatelliteFooterController.Init | src/com/android/settings/network/telephony/satellite/SatelliteSettingFooterController.java:50-55 | stores the carrier config and the operator name |
| SatelliteFooter.SatelliteFooterController.GetAvailabilityStatus | src/com/android/settings/network/telephony/satellite/SatelliteSettingFooterController.java:63-66 | always available, unsearchable |
| SatelliteFooter.SatelliteFooterController.GetFooterContent | src/com/android/settings/network/telephony/satellite/SatelliteSettingFooterController.java:91-107 | section 0, a blank line, then the list items of the chosen sections in order |
| SatelliteFooter.SatelliteFooterController.UpdateFooterContent | src/com/android/settings/network/telephony/satellite/SatelliteSettingFooterController.java:68-123 | nothing without the footer; the summary is the footer content; a missing redirect URL throws NullPointerException; an empty one adds no link; otherwise the learn-more link and text are set |
| SatelliteFooter.AddListItem | src/com/android/settings/network/telephony/satellite/SatelliteSettingFooterController.java:94-104 | appending one section's list item to the text built so far lists one more section |
| SatelliteFooter.ListItemsAppend | src/com/android/settings/network/telephony/satellite/SatelliteSettingFooterController.java:94-104 | listing one more section appends exactly its list item |
| VpnConfigDialog.GetVpnType | src/com/android/settings/vpn2/ConfigDialog.java:430-432 | the profile type at a spinner position is one of the three IKEv2 types |
| VpnConfigDialog.ConvertVpnProfileConstantToTypeIndex | src/com/android/settings/vpn2/ConfigDialog.java:578-586 | a valid spinner position: the position of an IKEv2 type, and 0 for a legacy type |
| VpnConfigDialog.TypeIndexRoundTrip | src/com/android/settings/vpn2/ConfigDialog.java:430-432 | converting the type at a position back gives that position |
| VpnConfigDialog.RequiresUsernamePassword | src/com/android/settings/vpn2/ConfigDialog.java:494-502 | a login is needed iff the type is neither PSK nor RSA |
| VpnConfigDialog.TrimStart | src/com/android/settings/vpn2/ConfigDialog.java:517 | a suffix of the text that drops only characters up to the space and starts with none |
| VpnConfigDialog.Trim | src/com/android/settings/vpn2/ConfigDialog.java:517 | String.trim: never longer, neither starts nor ends with a trimmable character, empty for all-blank text, and unchanged for text already without blanks at its ends |
| VpnConfigDialog.TrimEnd | src/com/android/settings/vpn2/ConfigDialog.java:517 | a prefix of the text that drops only characters up to the space and ends with none |
| VpnConfigDialog.TrimIsInnerSlice | src/com/android/settings/vpn2/ConfigDialog.java:517 | String.trim gives a slice of the text that neither starts nor ends with a trimmable character |
| VpnConfigDialog.TrimIdempotent | src/com/android/settings/vpn2/ConfigDialog.java:517 | trimming twice is trimming once |
| VpnConfigDialog.LoadCertificates | src/com/android/settings/vpn2/ConfigDialog.java:459-487 | the entries are the first item followed by the choices (just the first item when there are none), and the selection is the first later entry equal to the selected one, or unchanged iff none is |
| VpnConfigDialog.NewProfile | src/com/android/settings/vpn2/ConfigDialog.java:514 | a new profile keeps only the key: empty texts, no proxy, no saved login |
| VpnConfigDialog.ProxyPort | src/com/android/settings/vpn2/ConfigDialog.java:526-536 | the parsed port, and 0 when the text is empty or not an int |
| VpnConfigDialog.ConfigDialog.constructor | src/com/android/settings/vpn2/ConfigDialog.java:92-100 | keeps the profile, the editing and exists flags and the fields, with the type spinner on the profile's type |
| VpnConfigDialog.ConfigDialog.SetTypesByFeature | src/com/android/settings/vpn2/ConfigDialog.java:134-137 | a profile that does not exist yet becomes IKEv2 username/password, and the type spinner shows the profile type's position |
| VpnConfigDialog.ConfigDialog.HasProxy | src/com/android/settings/vpn2/ConfigDialog.java:508-510 | a proxy is configured only at the manual position (1) of the proxy spinner, never at position 0 (none) |
| VpnConfigDialog.ConfigDialog.FormProfile | src/com/android/settings/vpn2/ConfigDialog.java:512-566 | the profile under the same key with the form's texts, the server and proxy trimmed, a proxy iff "manual" is chosen, the secret only for PSK (or the user certificate for RSA), the certificates only when chosen and never for PSK, and the login saved when the box is checked or an edit has a username or password |
| VpnConfigDialog.ConfigDialog.GetProfile | src/com/android/settings/vpn2/ConfigDialog.java:512-566 | the method builds exactly the profile the form describes |
| VpnConfigDialog.ConfigDialog.ValidateProxy | src/com/android/settings/vpn2/ConfigDialog.java:568-576 | valid iff there is no manual proxy or ProxyUtils accepts it |
| VpnConfigDialog.ConfigDialog.ValidateEditing | src/com/android/settings/vpn2/ConfigDialog.java:389-409 | valid iff an always-on profile is valid for lockdown, the proxy is valid, and RSA has a user certificate |
| VpnConfigDialog.ConfigDialog.Validate | src/com/android/settings/vpn2/ConfigDialog.java:411-428 | a new profile that needs a login validates the username and password only; otherwise name, server, identifier and, for PSK, the secret; valid iff all those pass, each failing one shows its error, and the error of every field not checked, or checked and passing, stays as it was |
| VpnConfigDialog.ValidateField | src/com/android/settings/vpn2/ConfigDialog.java:415-425 | one step keeps the running result only if the field passes; a failing field shows its error and a passing one keeps its error as it was |

## Left out

- Logging, metrics and `Log.wtf` calls: they do not change what the code decides.
- Icons, tints, spans, string formatting and `Html.fromHtml`. Where a resource string matters, the model keeps which resource is chosen, or takes the formatted text as a parameter.
- Threads, executors and handler posts. Each callback is modelled as running to completion when it is delivered.
- Lifecycle registration in `onResume`/`onPause` of the satellite controllers. It only attaches and detaches the callbacks the model calls directly.
- Platform results are parameters of the operations that read them:
  - the SatelliteManager answers, the carrier config, the SIM operator name and the installed packages;
  - the health HAL's acceptance of a mode, `ProxyUtils.validate` and `VpnProfile.isValidLockdownProfile`;
  - the feature flags and the Bluetooth stack's device and profile state.
- Intents started from click listeners:
  - `handlePreferenceTreeClick` of the satellite entry;
  - the learn-more action of the footer and the redirect link of the account-info row.

  The model records only that a link is set.
- `getSupportButtonIfExists`, `logDialogShown` and `getDialogWindowType` of the Advanced Protection dialog: intent parsing and package-manager lookups.
- `FeedbackManager(Activity, int)`: the reporter package and category come from the device and a feature provider, so the model starts from the three-argument constructor. The weak reference is an `Option` that is `None` once the activity is gone.
- `getAvailableColorModes` of ColorModeUtils: a query of ColorDisplayManager with no logic of its own.
- AudioStreamMediaService:
  - notification building, media-session metadata and the broadcast name;
  - the Bluetooth callbacks other than receive state, volume and profile connection.
- AudioSharingReceiver: notification contents and dialogs. Only the order of the effects and their kinds are kept.
- bluetooth/Utils: `preloadAndRun`, `showBlockPairingDialog`, the dialog helpers and the other UI utilities of the file.
- ExternalDisplayPreferenceFragment: everything outside `PrefBasics`, `PrefRefresh`, the display-category reuse and the rotation clamp. That covers screen construction, resolution, topology and mirroring. `PreferenceGroup` is modelled only as far as `addPreference` and `removePreference`.
- ExternalDisplay.PreferenceGroup.AddPreference: the child is appended to the list. AndroidX `PreferenceGroup.addPreference` places children by their order value when the screen is drawn; the model keeps insertion order and records each child's order separately.
- EthernetInterface: `setConfiguration` calls EthernetManager directly and keeps no state of its own.
- WhenToStartHubPicker: `getDefaultKey`/`setDefaultKey` are Settings.Secure I/O. The key/setting mapping they go through is modelled.
- HashMap iteration order:
  - the bundle type-preference map is modelled as a map, whose updates do not depend on order;
  - the excluded-apps preferences are a list, the category's children in the order the packages arrive; no map is involved;
  - the audio-sharing group map is a sequence in the map's iteration order.
- The exception catch in `SatelliteSettingPreferenceController.updateSummary` is unreachable: `isSatelliteAccountEligible` already absorbs those exceptions in its manager wrapper. The model has no path for it.
- `onSharedPreferenceChanged` of the cursor-area size controller: its body is empty.
- ChargingSpeed.ChargingSpeedController.UpdateState: when no entry survives the filter it stores index 0, where AndroidX `setValueIndex(0)` on an empty entry list would throw. The model has no exception path there.
- JavaInt.ParseInt: only the ASCII digits 0-9 are accepted, while `Integer.parseInt` also accepts other Unicode decimal digits. Text typed by the user or read from resources can hold such digits. VpnConfigDialog.ProxyPort and VpnConfigDialog.ConfigDialog.GetProfile therefore store port 0 for a port typed as "٨٠٨٠", where the source stores 8080. VpnConfigDialog.ConfigDialog.ValidateProxy takes the verdict of `ProxyUtils.validate` as a parameter, so it is not affected. ChargingSpeed.ChargingSpeedController.OnPreferenceChange and the entry values filtered by ChargingSpeed.ChargingSpeedController.DisplayPreference likewise fail to parse such digits.
- Intent extras and fragment arguments are either present with a value or absent. A null Intent, a null Bundle and a null extra key are not modelled.
- AutoclickCursorArea.CursorAreaSizeSetting.OnPositiveButton: the checked button is one of the five buttons. When no button is checked, `getCheckedRadioButtonId()` returns -1 and unboxing the missing size throws. The dialog always checks a button when it is shown, so the model has no path for this.

## Findings

| source | as written | input that shows it | evidently intended | confidence | as-written member | corrected member |
|---|---|---|---|---|---|---|
| src/com/android/settings/network/telephony/satellite/SatelliteSettingsPreferenceCategoryController.java:84-89 | `displayPreference(screen)` stores the screen only when a screen is already stored (`!= null`) | any call on a fresh controller: the stored screen stays null, so the refreshes at lines 91-95 and 167, 193 never redisplay the category | store the first screen, as `SatelliteSettingPreferenceController` does at lines 131-133 (`== null`) | high; not executed | SatelliteCategory.AsWrittenNeverStoresScreen | SatelliteCategory.FirstDisplayedScreenIsStored |
| src/com/android/settings/accessibility/ToggleAutoclickCursorAreaSizeController.java:114-125 | the dialog's initial button is looked up in the size-to-button map and unboxed without a null check | a stored size of 50: within the clamp of 20..100, but not one of the five canned sizes, so the unboxing throws a NullPointerException | fall back to the button the summary shows for that size (the default button) | medium; not executed | AutoclickCursorArea.InitialRadioButtonThrowsFor50 | AutoclickCursorArea.InitialRadioButton |
