// bluetooth/Utils: the connection-state summary, the devices of a CSIP group, the rule that
// blocks pairing during audio sharing, and switching the LE audio profile of a group on or off.

module BluetoothUtils {
  import opened Wrappers

  /** BluetoothProfile connection states. */
  const StateDisconnected: int := 0
  const StateConnecting: int := 1
  const StateConnected: int := 2
  const StateDisconnecting: int := 3
  /** BluetoothCsipSetCoordinator.GROUP_ID_INVALID and BluetoothDevice.BOND_BONDED. */
  const GroupIdInvalid: int := -1
  const BondBonded: int := 12

  /** The summary string resources; NoSummary is the resource id 0. */
  datatype Summary = BluetoothConnected | BluetoothConnecting | BluetoothDisconnected | BluetoothDisconnecting | NoSummary

  /** getConnectionStateSummary: one string per connection state, 0 for any other value. */
  function GetConnectionStateSummary(connectionState: int): (s: Summary)
    ensures s == NoSummary <==> connectionState !in {StateDisconnected, StateConnecting, StateConnected, StateDisconnecting}
    ensures s == BluetoothConnected <==> connectionState == StateConnected
    ensures s == BluetoothConnecting <==> connectionState == StateConnecting
    ensures s == BluetoothDisconnected <==> connectionState == StateDisconnected
    ensures s == BluetoothDisconnecting <==> connectionState == StateDisconnecting
  {
    if connectionState == StateConnected then BluetoothConnected
    else if connectionState == StateConnecting then BluetoothConnecting
    else if connectionState == StateDisconnected then BluetoothDisconnected
    else if connectionState == StateDisconnecting then BluetoothDisconnecting
    else NoSummary
  }

  /** The profiles this file switches, matched by name as getDevicesWithProfile does. */
  datatype Profile = LeAudio | A2dp | Headset | HearingAid | LeBroadcastAssistant

  /** A CachedBluetoothDevice: its address, CSIP group, member devices and profiles. */
  datatype CachedDevice = CachedDevice(address: string, groupId: int, memberDevices: set<string>, profiles: seq<Profile>)

  /** The position of the first cached device in the group, or -1. */
  function FirstInGroup(cached: seq<CachedDevice>, groupId: int): (i: int)
    ensures -1 <= i < |cached|
    ensures i >= 0 ==> cached[i].groupId == groupId && forall k :: 0 <= k < i ==> cached[k].groupId != groupId
    ensures i == -1 <==> forall k :: 0 <= k < |cached| ==> cached[k].groupId != groupId
  {
    if |cached| == 0 then -1
    else if cached[0].groupId == groupId then 0
    else
      var rest := FirstInGroup(cached[1..], groupId);
      assert forall k :: 1 <= k < |cached| ==> cached[1..][k - 1] == cached[k];
      if rest < 0 then -1 else rest + 1
  }

  /**
   * findAllCachedBluetoothDevicesByGroupId, by address: nothing for no device; the device alone
   * when it has no group; nothing without a manager or when no cached device is in the group;
   * otherwise the group's main device (the first cached one) and its member devices.
   */
  function FindAllByGroupId(manager: Option<seq<CachedDevice>>, device: Option<CachedDevice>): (r: set<string>)
    ensures device.None? ==> r == {}
    ensures device.Some? && device.value.groupId == GroupIdInvalid ==> r == {device.value.address}
    ensures device.Some? && device.value.groupId != GroupIdInvalid ==>
      (manager.None? ==> r == {}) &&
      (manager.Some? ==>
        var i := FirstInGroup(manager.value, device.value.groupId);
        (i == -1 ==> r == {}) &&
        (i >= 0 ==> r == {manager.value[i].address} + manager.value[i].memberDevices))
  {
    if device.None? then {}
    else if device.value.groupId == GroupIdInvalid then {device.value.address}
    else if manager.None? then {}
    else
      var i := FirstInGroup(manager.value, device.value.groupId);
      if i < 0 then {}
      else {manager.value[i].address} + manager.value[i].memberDevices
  }

  /** A cached device as shouldBlockPairingInAudioSharing sees it. */
  datatype BondedDevice = BondedDevice(address: string, isTemporaryBond: bool, bondState: int)

  /** The connected assistant devices that have an active local broadcast source. */
  function ReceivingDevices(connected: seq<string>, hasActiveSource: set<string>): set<string>
  {
    set d | d in connected && d in hasActiveSource
  }

  /** BluetoothUtils.getGroupId(deviceManager.findDevice(d)); an unknown device has no group. */
  function GroupOf(groupIds: map<string, int>, d: string): int
  {
    if d in groupIds then groupIds[d] else GroupIdInvalid
  }

  /** The groups of the devices that receive the broadcast. */
  function ReceivingGroups(connected: seq<string>, hasActiveSource: set<string>, groupIds: map<string, int>): set<int>
  {
    set d | d in ReceivingDevices(connected, hasActiveSource) :: GroupOf(groupIds, d)
  }

  /** The receiving devices span at least two groups exactly when two of them differ in group. */
  lemma TwoGroupsIffTwoDevices(receiving: set<string>, groupIds: map<string, int>)
    ensures var groups := set d | d in receiving :: GroupOf(groupIds, d);
      |groups| >= 2 <==> exists d1, d2 :: d1 in receiving && d2 in receiving && GroupOf(groupIds, d1) != GroupOf(groupIds, d2)
  {
    var groups := set d | d in receiving :: GroupOf(groupIds, d);
    if exists d1, d2 :: d1 in receiving && d2 in receiving && GroupOf(groupIds, d1) != GroupOf(groupIds, d2) {
      var d1, d2 :| d1 in receiving && d2 in receiving && GroupOf(groupIds, d1) != GroupOf(groupIds, d2);
      var two := {GroupOf(groupIds, d1), GroupOf(groupIds, d2)};
      assert |two| == 2;
      SubsetSize(two, groups);
    } else if receiving != {} {
      var d0 :| d0 in receiving;
      assert groups <= {GroupOf(groupIds, d0)};
      SubsetSize(groups, {GroupOf(groupIds, d0)});
    } else {
      assert groups == {};
    }
  }

  lemma SubsetSize(a: set<int>, b: set<int>)
    requires a <= b
    ensures |a| <= |b|
  {
    assert b == a + (b - a);
  }

  /**
   * shouldBlockPairingInAudioSharing: while broadcasting, with both the assistant and the device
   * manager present, pairing is blocked when a temporary-bond device is bonded, or when the
   * devices receiving the broadcast belong to at least two groups.
   */
  function ShouldBlockPairingInAudioSharing(isBroadcasting: bool, assistantConnected: Option<seq<string>>,
                                            bonded: Option<seq<BondedDevice>>, hasActiveSource: set<string>,
                                            groupIds: map<string, int>): (block: bool)
    ensures block <==>
      isBroadcasting && assistantConnected.Some? && bonded.Some? &&
      ((exists i :: 0 <= i < |bonded.value| && bonded.value[i].isTemporaryBond && bonded.value[i].bondState == BondBonded) ||
       (exists d1, d2 :: d1 in assistantConnected.value && d2 in assistantConnected.value &&
          d1 in hasActiveSource && d2 in hasActiveSource && GroupOf(groupIds, d1) != GroupOf(groupIds, d2)))
  {
    if !isBroadcasting then false
    else
      var connected := if assistantConnected.None? then [] else assistantConnected.value;
      var devices := if bonded.None? then [] else bonded.value;
      var groups := ReceivingGroups(connected, hasActiveSource, groupIds);
      TwoGroupsIffTwoDevices(ReceivingDevices(connected, hasActiveSource), groupIds);
      assistantConnected.Some? && bonded.Some? &&
      ((exists i :: 0 <= i < |devices| && devices[i].isTemporaryBond && devices[i].bondState == BondBonded) ||
       |groups| >= 2)
  }

  /** Two receiving devices of one group never block pairing on their own. */
  lemma OneGroupDoesNotBlock(connected: seq<string>, hasActiveSource: set<string>, groupIds: map<string, int>, groupId: int)
    requires forall d :: d in connected ==> GroupOf(groupIds, d) == groupId
    ensures !ShouldBlockPairingInAudioSharing(true, Some(connected), Some([]), hasActiveSource, groupIds)
  {
  }

  /** One entry per (device, matching profile) pair, as getDevicesWithProfile builds its list. */
  function DevicesWithProfile(devices: seq<CachedDevice>, profile: Profile): (r: seq<CachedDevice>)
    ensures forall d :: d in r <==> d in devices && profile in d.profiles
  {
    if |devices| == 0 then []
    else
      assert devices == [devices[0]] + devices[1..];
      var d := devices[0];
      var copies := seq(MultisetCount(d.profiles, profile), _ => d);
      assert d in copies <==> profile in d.profiles by {
        if profile in d.profiles {
          assert copies[0] == d;
        }
      }
      copies + DevicesWithProfile(devices[1..], profile)
  }

  /** How often a profile appears in a device's profile list. */
  function MultisetCount(profiles: seq<Profile>, profile: Profile): (n: nat)
    ensures n > 0 <==> profile in profiles
  {
    multiset(profiles)[profile]
  }

  /** LocalBluetoothProfile.isEnabled over a profile-state map; a device never set reads as disabled. */
  function EnabledIn(state: map<(Profile, string), bool>, profile: Profile, address: string): bool
  {
    if (profile, address) in state then state[(profile, address)] else false
  }

  /** The calls from position `n` on name addresses in `addresses`, and no A2DP or HFP when `noClassic`. */
  ghost predicate CallsFrom(calls: seq<(Profile, string, bool)>, n: nat, addresses: set<string>, noClassic: bool)
  {
    forall k :: n <= k < |calls| ==> calls[k].1 in addresses && (noClassic ==> calls[k].0 != A2dp && calls[k].0 != Headset)
  }

  /** Calls appended after calls that satisfy CallsFrom, and that satisfy it themselves, keep it. */
  lemma CallsFromExtend(a: seq<(Profile, string, bool)>, b: seq<(Profile, string, bool)>, n: nat,
                        addresses: set<string>, noClassic: bool)
    requires a <= b && n <= |a|
    requires CallsFrom(a, n, addresses, noClassic) && CallsFrom(b, |a|, addresses, noClassic)
    ensures CallsFrom(b, n, addresses, noClassic)
  {
    forall k | n <= k < |b|
      ensures b[k].1 in addresses && (noClassic ==> b[k].0 != A2dp && b[k].0 != Headset)
    {
      if k < |a| {
        assert b[k] == a[k];
      }
    }
  }

  /** The addresses of a list of devices. */
  function Addresses(devices: seq<CachedDevice>): set<string>
  {
    set d | d in devices :: d.address
  }

  /** The setEnabled calls the setLeAudioEnabled loop makes for one LE audio device, in order. */
  function LeAudioCallsFor(address: string, enable: bool, present: set<Profile>): (calls: seq<(Profile, string, bool)>)
  {
    [(LeAudio, address, enable)]
    + (if HearingAid in present then [(HearingAid, address, !enable)] else [])
    + (if LeBroadcastAssistant in present then [(LeBroadcastAssistant, address, enable)] else [])
  }

  /**
   * The profile state after the loop body for one LE audio device: LE audio follows `enable`,
   * hearing aid the opposite and the broadcast assistant `enable`, each when present.
   */
  function LeAudioStep(state: map<(Profile, string), bool>, address: string, enable: bool, present: set<Profile>)
    : (r: map<(Profile, string), bool>)
    ensures LeAudioSet(r, {address}, enable, present)
    ensures Unchanged(r, state, LeProfiles(present), {address})
  {
    var s1 := state[(LeAudio, address) := enable];
    var s2 := if HearingAid in present then s1[(HearingAid, address) := !enable] else s1;
    if LeBroadcastAssistant in present then s2[(LeBroadcastAssistant, address) := enable] else s2
  }

  /** Every profile state outside `profiles` x `addresses` is as in `original`. */
  ghost predicate Unchanged(state: map<(Profile, string), bool>, original: map<(Profile, string), bool>,
                            profiles: set<Profile>, addresses: set<string>)
  {
    forall p, a :: (p !in profiles || a !in addresses) ==> EnabledIn(state, p, a) == EnabledIn(original, p, a)
  }

  /** Widening the changed area, or chaining two changes, keeps Unchanged. */
  lemma UnchangedChain(s1: map<(Profile, string), bool>, s2: map<(Profile, string), bool>, s3: map<(Profile, string), bool>,
                       p1: set<Profile>, a1: set<string>, p2: set<Profile>, a2: set<string>,
                       profiles: set<Profile>, addresses: set<string>)
    requires Unchanged(s2, s1, p1, a1) && Unchanged(s3, s2, p2, a2)
    requires p1 <= profiles && p2 <= profiles && a1 <= addresses && a2 <= addresses
    ensures Unchanged(s3, s1, profiles, addresses)
  {
  }

  /** The profiles the setLeAudioEnabled loop touches: LE audio, and hearing aid and assistant when present. */
  function LeProfiles(present: set<Profile>): set<Profile>
  {
    {LeAudio} + (present * {HearingAid, LeBroadcastAssistant})
  }

  /** On every address of `addresses`, LE audio and the assistant follow `enable` and hearing aid the opposite. */
  ghost predicate LeAudioSet(state: map<(Profile, string), bool>, addresses: set<string>, enable: bool, present: set<Profile>)
  {
    forall a :: a in addresses ==>
      EnabledIn(state, LeAudio, a) == enable &&
      (HearingAid in present ==> EnabledIn(state, HearingAid, a) == !enable) &&
      (LeBroadcastAssistant in present ==> EnabledIn(state, LeBroadcastAssistant, a) == enable)
  }

  /** Every device of `devices` that has `profile` has it set to `value`. */
  ghost predicate ClassicSet(state: map<(Profile, string), bool>, profile: Profile, devices: seq<CachedDevice>, value: bool)
  {
    forall d :: d in devices && profile in d.profiles ==> EnabledIn(state, profile, d.address) == value
  }

  /** The frame of setProfileEnabledWhenChangingLeAudio, as an Unchanged over all the devices. */
  lemma FrameIsUnchanged(s1: map<(Profile, string), bool>, s2: map<(Profile, string), bool>, profile: Profile,
                         devices: seq<CachedDevice>)
    requires forall p, a :: (p != profile || forall d :: d in devices && profile in d.profiles ==> d.address != a) ==>
      EnabledIn(s2, p, a) == EnabledIn(s1, p, a)
    ensures Unchanged(s2, s1, {profile}, Addresses(devices))
  {
  }

  /** A change confined to other profiles keeps ClassicSet. */
  lemma ClassicSetKept(s1: map<(Profile, string), bool>, s2: map<(Profile, string), bool>, profile: Profile,
                       devices: seq<CachedDevice>, value: bool, profiles: set<Profile>, addresses: set<string>)
    requires ClassicSet(s1, profile, devices, value) && Unchanged(s2, s1, profiles, addresses) && profile !in profiles
    ensures ClassicSet(s2, profile, devices, value)
  {
  }

  /** A change confined to other profiles keeps LeAudioSet. */
  lemma LeAudioSetKept(s1: map<(Profile, string), bool>, s2: map<(Profile, string), bool>, done: set<string>,
                       enable: bool, present: set<Profile>, profiles: set<Profile>, addresses: set<string>)
    requires LeAudioSet(s1, done, enable, present) && Unchanged(s2, s1, profiles, addresses)
    requires LeAudio !in profiles && HearingAid !in profiles && LeBroadcastAssistant !in profiles
    ensures LeAudioSet(s2, done, enable, present)
  {
  }

  /**
   * What the setLeAudioEnabled loop has achieved once the devices at `done` are handled: their
   * LE audio, hearing aid and assistant states are set, and every other state is as it was.
   */
  ghost predicate LeAudioDone(state: map<(Profile, string), bool>, original: map<(Profile, string), bool>,
                              done: set<string>, enable: bool, present: set<Profile>)
  {
    Unchanged(state, original, LeProfiles(present), done) && LeAudioSet(state, done, enable, present)
  }

  /** One more device handled keeps LeAudioDone, with its address added. */
  lemma LeAudioStepKeepsDone(state: map<(Profile, string), bool>, original: map<(Profile, string), bool>,
                             done: set<string>, address: string, enable: bool, present: set<Profile>)
    requires LeAudioDone(state, original, done, enable, present)
    ensures LeAudioDone(LeAudioStep(state, address, enable, present), original, done + {address}, enable, present)
  {
  }

  /** The profile state after the setLeAudioEnabled loop has handled `devices`, one after the other. */
  function LeAudioState(state: map<(Profile, string), bool>, devices: seq<CachedDevice>, enable: bool, present: set<Profile>)
    : map<(Profile, string), bool>
  {
    if |devices| == 0 then state
    else LeAudioStep(LeAudioState(state, devices[..|devices| - 1], enable, present), devices[|devices| - 1].address, enable, present)
  }

  /** After the loop every LE audio device is set and nothing else has changed. */
  lemma {:induction false} LeAudioStateDone(state: map<(Profile, string), bool>, devices: seq<CachedDevice>,
                                           enable: bool, present: set<Profile>)
    ensures LeAudioDone(LeAudioState(state, devices, enable, present), state, Addresses(devices), enable, present)
  {
    if |devices| > 0 {
      var front := devices[..|devices| - 1];
      var last := devices[|devices| - 1];
      LeAudioStateDone(state, front, enable, present);
      LeAudioStepKeepsDone(LeAudioState(state, front, enable, present), state, Addresses(front), last.address, enable, present);
      assert devices == front + [last];
      assert Addresses(devices) == Addresses(front) + {last.address};
    }
  }

  /** The setEnabled calls of the whole loop: one device after the other. */
  function LeAudioCalls(devices: seq<CachedDevice>, enable: bool, present: set<Profile>): seq<(Profile, string, bool)>
  {
    if |devices| == 0 then []
    else LeAudioCalls(devices[..|devices| - 1], enable, present) + LeAudioCallsFor(devices[|devices| - 1].address, enable, present)
  }

  /** The loop calls setEnabled on the LE audio, hearing aid and assistant profiles only. */
  lemma {:induction false} LeAudioCallsProfiles(devices: seq<CachedDevice>, enable: bool, present: set<Profile>)
    ensures forall c :: c in LeAudioCalls(devices, enable, present) ==> c.0 in {LeAudio, HearingAid, LeBroadcastAssistant}
  {
    if |devices| > 0 {
      LeAudioCallsProfiles(devices[..|devices| - 1], enable, present);
    }
  }

  /** The loop's calls, appended to a log, name only the given addresses and no classic profile. */
  lemma LeAudioCallsFrom(before: seq<(Profile, string, bool)>, devices: seq<CachedDevice>, addresses: set<string>,
                         enable: bool, present: set<Profile>, noClassic: bool)
    requires Addresses(devices) <= addresses
    ensures CallsFrom(before + LeAudioCalls(devices, enable, present), |before|, addresses, noClassic)
  {
    var calls := LeAudioCalls(devices, enable, present);
    LeAudioCallsAddresses(devices, enable, present);
    LeAudioCallsProfiles(devices, enable, present);
    forall k | |before| <= k < |before + calls|
      ensures (before + calls)[k] in calls
    {
      assert (before + calls)[k] == calls[k - |before|];
    }
  }

  /** The devices with a profile are among the devices, and so are their addresses. */
  lemma AddressesWithProfile(devices: seq<CachedDevice>, profile: Profile)
    ensures Addresses(DevicesWithProfile(devices, profile)) <= Addresses(devices)
  {
  }

  /** Each device gets one LE audio call first, and every call names one of the devices. */
  lemma {:induction false} LeAudioCallsAddresses(devices: seq<CachedDevice>, enable: bool, present: set<Profile>)
    ensures forall c :: c in LeAudioCalls(devices, enable, present) ==> c.1 in Addresses(devices)
    ensures forall d :: d in devices ==> (LeAudio, d.address, enable) in LeAudioCalls(devices, enable, present)
  {
    if |devices| > 0 {
      var front := devices[..|devices| - 1];
      var last := devices[|devices| - 1];
      LeAudioCallsAddresses(front, enable, present);
      assert devices == front + [last];
      assert Addresses(devices) == Addresses(front) + {last.address};
      var step := LeAudioCallsFor(last.address, enable, present);
      assert step[0] == (LeAudio, last.address, enable);
      assert forall c :: c in step ==> c.1 == last.address;
    }
  }

  /**
   * The loop over the devices having the profile: each one not yet at `enable` is set to it and
   * the setEnabled call is logged; the new state and the calls made are returned.
   */
  method SetOnDevices(state0: map<(Profile, string), bool>, withProfile: seq<CachedDevice>, profile: Profile, enable: bool)
    returns (state: map<(Profile, string), bool>, calls: seq<(Profile, string, bool)>)
    ensures forall d :: d in withProfile ==> EnabledIn(state, profile, d.address) == enable
    ensures forall p, a :: (p != profile || a !in Addresses(withProfile)) ==>
      EnabledIn(state, p, a) == EnabledIn(state0, p, a)
    ensures forall k :: 0 <= k < |calls| ==>
      calls[k].0 == profile && calls[k].2 == enable && EnabledIn(state0, profile, calls[k].1) != enable
    ensures forall k :: 0 <= k < |calls| ==> calls[k].1 in Addresses(withProfile)
  {
    state := state0;
    calls := [];
    var i := 0;
    while i < |withProfile|
      invariant 0 <= i <= |withProfile|
      invariant forall d :: d in withProfile[..i] ==> EnabledIn(state, profile, d.address) == enable
      invariant forall p, a :: (p != profile || a !in Addresses(withProfile[..i])) ==>
        EnabledIn(state, p, a) == EnabledIn(state0, p, a)
      invariant forall k :: 0 <= k < |calls| ==>
        calls[k].0 == profile && calls[k].2 == enable && EnabledIn(state0, profile, calls[k].1) != enable
      invariant forall k :: 0 <= k < |calls| ==> calls[k].1 in Addresses(withProfile[..i])
    {
      var address := withProfile[i].address;
      assert withProfile[..i + 1] == withProfile[..i] + [withProfile[i]];
      assert Addresses(withProfile[..i + 1]) == Addresses(withProfile[..i]) + {address};
      if EnabledIn(state, profile, address) != enable {
        state := state[(profile, address) := enable];
        calls := calls + [(profile, address, enable)];
      }
      i := i + 1;
    }
    assert withProfile[..i] == withProfile;
  }

  /** The setLeAudioEnabled loop on values: each device in turn takes one LeAudioStep and its calls. */
  method SetLeAudioOnEach(state0: map<(Profile, string), bool>, leAudioDevices: seq<CachedDevice>, enable: bool,
                          present: set<Profile>)
    returns (state: map<(Profile, string), bool>, calls: seq<(Profile, string, bool)>)
    ensures state == LeAudioState(state0, leAudioDevices, enable, present)
    ensures calls == LeAudioCalls(leAudioDevices, enable, present)
  {
    state := state0;
    calls := [];
    var i := 0;
    while i < |leAudioDevices|
      invariant 0 <= i <= |leAudioDevices|
      invariant state == LeAudioState(state0, leAudioDevices[..i], enable, present)
      invariant calls == LeAudioCalls(leAudioDevices[..i], enable, present)
    {
      assert leAudioDevices[..i + 1][..i] == leAudioDevices[..i];
      var address := leAudioDevices[i].address;
      state := LeAudioStep(state, address, enable, present);
      var step := LeAudioCallsFor(address, enable, present);
      assert LeAudioCalls(leAudioDevices[..i + 1], enable, present) == LeAudioCalls(leAudioDevices[..i], enable, present) + step;
      calls := calls + step;
      i := i + 1;
    }
    assert leAudioDevices[..i] == leAudioDevices;
  }

  /**
   * The profile state the local profile manager keeps: which profile is enabled for which device,
   * and the order of the setEnabled calls made on it.
   */
  class ProfileManager {
    /** The profiles getProfileManager() returns non-null; LE audio is always present. */
    const present: set<Profile>
    var enabled: map<(Profile, string), bool>
    var setEnabledCalls: seq<(Profile, string, bool)>

    constructor (present: set<Profile>, enabled: map<(Profile, string), bool>)
      ensures this.present == present && this.enabled == enabled && setEnabledCalls == []
    {
      this.present := present;
      this.enabled := enabled;
      setEnabledCalls := [];
    }

    function IsEnabled(profile: Profile, address: string): bool
      reads this
    {
      EnabledIn(enabled, profile, address)
    }

    /**
     * setProfileEnabledWhenChangingLeAudio: every device with the profile ends with it set to
     * `enable`; setEnabled is called only for the devices where it differed; nothing else changes.
     */
    method SetProfileEnabledWhenChangingLeAudio(devices: seq<CachedDevice>, profile: Profile, enable: bool)
      modifies this`enabled, this`setEnabledCalls
      ensures profile !in present ==> enabled == old(enabled) && setEnabledCalls == old(setEnabledCalls)
      ensures profile in present ==>
        forall d :: d in devices && profile in d.profiles ==> IsEnabled(profile, d.address) == enable
      ensures forall p, a ::
        (p != profile || forall d :: d in devices && profile in d.profiles ==> d.address != a) ==>
          EnabledIn(enabled, p, a) == EnabledIn(old(enabled), p, a)
      ensures |setEnabledCalls| >= |old(setEnabledCalls)|
      ensures setEnabledCalls[..|old(setEnabledCalls)|] == old(setEnabledCalls)
      ensures forall k :: |old(setEnabledCalls)| <= k < |setEnabledCalls| ==>
        setEnabledCalls[k].0 == profile && setEnabledCalls[k].2 == enable &&
        EnabledIn(old(enabled), profile, setEnabledCalls[k].1) != enable
      ensures forall k :: |old(setEnabledCalls)| <= k < |setEnabledCalls| ==>
        setEnabledCalls[k].1 in Addresses(DevicesWithProfile(devices, profile))
      ensures old(setEnabledCalls) <= setEnabledCalls
      ensures CallsFrom(setEnabledCalls, |old(setEnabledCalls)|, Addresses(devices), false)
    {
      if profile !in present {
        return;
      }
      var withProfile := DevicesWithProfile(devices, profile);
      var state, newCalls := SetOnDevices(enabled, withProfile, profile, enable);
      var before := setEnabledCalls;
      enabled := state;
      setEnabledCalls := setEnabledCalls + newCalls;
      assert forall k :: |before| <= k < |setEnabledCalls| ==> setEnabledCalls[k] == newCalls[k - |before|];
      AddressesWithProfile(devices, profile);
    }

    /**
     * The loop of setLeAudioEnabled: on every LE audio device, LE audio follows `enable`, hearing
     * aid (ASHA) the opposite, and the broadcast assistant follows `enable`, each when present.
     */
    method SetLeAudioProfiles(leAudioDevices: seq<CachedDevice>, enable: bool)
      modifies this`enabled, this`setEnabledCalls
      ensures enabled == LeAudioState(old(enabled), leAudioDevices, enable, present)
      ensures LeAudioDone(enabled, old(enabled), Addresses(leAudioDevices), enable, present)
      ensures setEnabledCalls == old(setEnabledCalls) + LeAudioCalls(leAudioDevices, enable, present)
    {
      var state, calls := SetLeAudioOnEach(enabled, leAudioDevices, enable, present);
      LeAudioStateDone(enabled, leAudioDevices, enable, present);
      enabled := state;
      setEnabledCalls := setEnabledCalls + calls;
    }

    /**
     * setLeAudioEnabled for the devices of one group: LE audio, hearing aid and the assistant are
     * set on the devices with LE audio; without dual mode, A2DP and HFP end opposite to `enable`
     * on the devices that have them, and with it they are left alone. Nothing outside these
     * profiles and devices changes, and every setEnabled call names one of the devices.
     */
    method SetLeAudioEnabled(devices: seq<CachedDevice>, enable: bool, dualModeEnabled: bool)
      modifies this`enabled, this`setEnabledCalls
      ensures LeAudioSet(enabled, Addresses(DevicesWithProfile(devices, LeAudio)), enable, present)
      ensures !dualModeEnabled && A2dp in present ==> ClassicSet(enabled, A2dp, devices, !enable)
      ensures !dualModeEnabled && Headset in present ==> ClassicSet(enabled, Headset, devices, !enable)
      ensures dualModeEnabled ==> Unchanged(enabled, old(enabled), LeProfiles(present), Addresses(devices))
      ensures Unchanged(enabled, old(enabled), LeProfiles(present) + {A2dp, Headset}, Addresses(devices))
      ensures old(setEnabledCalls) <= setEnabledCalls
      ensures CallsFrom(setEnabledCalls, |old(setEnabledCalls)|, Addresses(devices), dualModeEnabled)
    {
      var leAudioDevices := DevicesWithProfile(devices, LeAudio);
      AddressesWithProfile(devices, LeAudio);
      ghost var start := setEnabledCalls;
      ghost var e0 := enabled;
      if enable && !dualModeEnabled {
        SetClassicProfiles(devices, false);
      }
      ghost var e1 := enabled;
      ghost var before := setEnabledCalls;
      SetLeAudioProfiles(leAudioDevices, enable);
      ghost var e2 := enabled;
      LeAudioCallsFrom(before, leAudioDevices, Addresses(devices), enable, present, dualModeEnabled);
      CallsFromExtend(before, setEnabledCalls, |start|, Addresses(devices), dualModeEnabled);
      if enable && !dualModeEnabled {
        if A2dp in present {
          ClassicSetKept(e1, e2, A2dp, devices, false, LeProfiles(present), Addresses(leAudioDevices));
        }
        if Headset in present {
          ClassicSetKept(e1, e2, Headset, devices, false, LeProfiles(present), Addresses(leAudioDevices));
        }
        UnchangedChain(e0, e1, e2, {A2dp, Headset}, Addresses(devices), LeProfiles(present), Addresses(leAudioDevices),
                       LeProfiles(present) + {A2dp, Headset}, Addresses(devices));
      } else {
        UnchangedChain(e0, e1, e2, {}, {}, LeProfiles(present), Addresses(leAudioDevices),
                       LeProfiles(present), Addresses(devices));
      }
      if !enable && !dualModeEnabled {
        ghost var after := setEnabledCalls;
        SetClassicProfiles(devices, true);
        CallsFromExtend(after, setEnabledCalls, |start|, Addresses(devices), false);
        LeAudioSetKept(e2, enabled, Addresses(leAudioDevices), enable, present, {A2dp, Headset}, Addresses(devices));
        UnchangedChain(e0, e2, enabled, LeProfiles(present), Addresses(devices), {A2dp, Headset}, Addresses(devices),
                       LeProfiles(present) + {A2dp, Headset}, Addresses(devices));
      }
    }

    /** The A2DP and HFP half of setLeAudioEnabled: both follow `enable` on the devices that have them. */
    method SetClassicProfiles(devices: seq<CachedDevice>, enable: bool)
      modifies this`enabled, this`setEnabledCalls
      ensures A2dp in present ==> ClassicSet(enabled, A2dp, devices, enable)
      ensures Headset in present ==> ClassicSet(enabled, Headset, devices, enable)
      ensures Unchanged(enabled, old(enabled), {A2dp, Headset}, Addresses(devices))
      ensures old(setEnabledCalls) <= setEnabledCalls
      ensures CallsFrom(setEnabledCalls, |old(setEnabledCalls)|, Addresses(devices), false)
    {
      ghost var e0 := enabled;
      SetProfileEnabledWhenChangingLeAudio(devices, A2dp, enable);
      FrameIsUnchanged(e0, enabled, A2dp, devices);
      ghost var mid := setEnabledCalls;
      ghost var e1 := enabled;
      SetProfileEnabledWhenChangingLeAudio(devices, Headset, enable);
      FrameIsUnchanged(e1, enabled, Headset, devices);
      CallsFromExtend(mid, setEnabledCalls, |old(setEnabledCalls)|, Addresses(devices), false);
      if A2dp in present {
        ClassicSetKept(e1, enabled, A2dp, devices, enable, {Headset}, Addresses(devices));
      }
      UnchangedChain(e0, e1, enabled, {A2dp}, Addresses(devices), {Headset}, Addresses(devices),
                     {A2dp, Headset}, Addresses(devices));
    }
  }
}
