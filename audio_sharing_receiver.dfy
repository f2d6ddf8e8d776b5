// connecteddevice/audiosharing/AudioSharingReceiver: which sinks a broadcast source is added to
// when a second LE audio device connects, and what each broadcast action the receiver handles
// does.

module AudioSharingReceiver {
  import opened Wrappers

  /** BluetoothCsipSetCoordinator.GROUP_ID_INVALID. */
  const GroupIdInvalid: int := -1
  /** LocalBluetoothLeBroadcast.BROADCAST_STATE_ON / _OFF. */
  const BroadcastStateOn: int := 1
  const BroadcastStateOff: int := 2

  /** A Bluetooth device, by address. */
  type Device = string

  /** One entry of fetchConnectedDevicesByGroupId's map, in the map's iteration order. */
  datatype Group = Group(groupId: int, members: seq<Device>)

  /** A Map has distinct keys. */
  predicate DistinctGroupIds(groups: seq<Group>)
  {
    forall i, j :: 0 <= i < j < |groups| ==> groups[i].groupId != groups[j].groupId
  }

  /** The position of the first group listing `sink`, or -1. */
  function FirstGroupWith(groups: seq<Group>, sink: Device): (i: int)
    ensures -1 <= i < |groups|
    ensures i >= 0 ==> sink in groups[i].members && forall k :: 0 <= k < i ==> sink !in groups[k].members
    ensures i == -1 <==> forall k :: 0 <= k < |groups| ==> sink !in groups[k].members
  {
    if |groups| == 0 then -1
    else if sink in groups[0].members then 0
    else
      var rest := FirstGroupWith(groups[1..], sink);
      assert forall k :: 1 <= k < |groups| ==> groups[1..][k - 1] == groups[k];
      if rest < 0 then -1 else rest + 1
  }

  /** Map.getOrDefault(groupId, []): the members of the entry with that key. */
  function MembersOf(groups: seq<Group>, groupId: int): (members: seq<Device>)
    ensures DistinctGroupIds(groups) ==>
      forall i :: 0 <= i < |groups| && groups[i].groupId == groupId ==> members == groups[i].members
    ensures (forall i :: 0 <= i < |groups| ==> groups[i].groupId != groupId) ==> members == []
  {
    if |groups| == 0 then []
    else if groups[0].groupId == groupId then groups[0].members
    else
      assert forall i :: 1 <= i < |groups| ==> groups[1..][i - 1] == groups[i];
      MembersOf(groups[1..], groupId)
  }

  /** The devices of `s` without a connected broadcast source, in order. */
  function WithoutSource(s: seq<Device>, hasSource: set<Device>): (r: seq<Device>)
    ensures forall d :: d in r <==> d in s && d !in hasSource
    ensures |r| <= |s|
    ensures |s| == 1 ==> r == if s[0] in hasSource then [] else s
  {
    if |s| == 0 then []
    else
      assert s == [s[0]] + s[1..];
      var rest := WithoutSource(s[1..], hasSource);
      if s[0] in hasSource then rest else [s[0]] + rest
  }

  /** The filter works element by element, so the kept devices stay in their original order. */
  lemma {:induction false} WithoutSourceAppend(a: seq<Device>, b: seq<Device>, hasSource: set<Device>)
    ensures WithoutSource(a + b, hasSource) == WithoutSource(a, hasSource) + WithoutSource(b, hasSource)
  {
    if |a| > 0 {
      assert (a + b)[1..] == a[1..] + b;
      WithoutSourceAppend(a[1..], b, hasSource);
    } else {
      assert a + b == b;
    }
  }

  /** Some member of the group has a connected broadcast source. */
  predicate GroupHasSource(g: Group, hasSource: set<Device>)
  {
    exists d :: d in g.members && d in hasSource
  }

  /** The number of groups other than `groupId` in which some member already has a source. */
  function OtherGroupsWithSource(groups: seq<Group>, groupId: int, hasSource: set<Device>): (n: nat)
    ensures n <= |groups|
  {
    if |groups| == 0 then 0
    else
      var rest := OtherGroupsWithSource(groups[1..], groupId, hasSource);
      if groups[0].groupId != groupId && GroupHasSource(groups[0], hasSource) then rest + 1 else rest
  }

  /**
   * validToAddSource: the members of the sink's group that have no connected source yet; empty
   * when there is no sink, no broadcast, no valid group for the sink, nobody left to add, or
   * when two other groups already receive the broadcast.
   */
  function ValidToAddSource(sink: Option<Device>, isBroadcasting: bool, groups: seq<Group>, hasSource: set<Device>)
    : (sinks: seq<Device>)
    requires DistinctGroupIds(groups)
    ensures sink.None? || !isBroadcasting ==> sinks == []
    ensures sink.Some? && FirstGroupWith(groups, sink.value) == -1 ==> sinks == []
    ensures sinks != [] ==>
      sink.Some? && isBroadcasting &&
      var i := FirstGroupWith(groups, sink.value);
      0 <= i && groups[i].groupId != GroupIdInvalid &&
      OtherGroupsWithSource(groups, groups[i].groupId, hasSource) < 2 &&
      forall d :: d in sinks <==> d in groups[i].members && d !in hasSource
    ensures sink.Some? && isBroadcasting && FirstGroupWith(groups, sink.value) >= 0 ==>
      var g := groups[FirstGroupWith(groups, sink.value)];
      OtherGroupsWithSource(groups, g.groupId, hasSource) >= 2 ==> sinks == []
    ensures sink.Some? && isBroadcasting && FirstGroupWith(groups, sink.value) >= 0 &&
            groups[FirstGroupWith(groups, sink.value)].groupId != GroupIdInvalid &&
            OtherGroupsWithSource(groups, groups[FirstGroupWith(groups, sink.value)].groupId, hasSource) < 2 ==>
      sinks == WithoutSource(groups[FirstGroupWith(groups, sink.value)].members, hasSource)
    ensures (sink.Some? && FirstGroupWith(groups, sink.value) >= 0 &&
             groups[FirstGroupWith(groups, sink.value)].groupId == GroupIdInvalid) ==> sinks == []
  {
    if sink.None? || !isBroadcasting then []
    else
      var i := FirstGroupWith(groups, sink.value);
      var groupId := if i < 0 then GroupIdInvalid else groups[i].groupId;
      if groupId == GroupIdInvalid then []
      else
        var sinksToAdd := WithoutSource(MembersOf(groups, groupId), hasSource);
        if sinksToAdd == [] then []
        else if OtherGroupsWithSource(groups, groupId, hasSource) >= 2 then []
        else sinksToAdd
  }

  /** When every device already has a source, nobody is left to add. */
  lemma {:induction false} AllSourcedLeavesNone(s: seq<Device>, hasSource: set<Device>)
    requires forall d :: d in s ==> d in hasSource
    ensures WithoutSource(s, hasSource) == []
  {
    if |s| > 0 {
      assert s[0] in s;
      assert forall d :: d in s[1..] ==> d in s;
      AllSourcedLeavesNone(s[1..], hasSource);
    }
  }

  /** A sink whose whole group already receives the broadcast gets nothing added. */
  lemma GroupAlreadySharingAddsNothing(sink: Device, isBroadcasting: bool, groups: seq<Group>, hasSource: set<Device>)
    requires DistinctGroupIds(groups)
    requires FirstGroupWith(groups, sink) >= 0
    requires forall d :: d in groups[FirstGroupWith(groups, sink)].members ==> d in hasSource
    ensures ValidToAddSource(Some(sink), isBroadcasting, groups, hasSource) == []
  {
    var g := groups[FirstGroupWith(groups, sink)];
    AllSourcedLeavesNone(MembersOf(groups, g.groupId), hasSource);
  }

  /** The broadcast actions the receiver is registered for, and any other action string. */
  datatype Action = StateChange | Stop | DeviceConnected | AddSource | CancelNotif | OtherAction(name: string)

  /** The two notifications the receiver posts, and a notification named by an intent extra. */
  datatype Notification = SharingNotification | AddSourceNotification | NotificationById(id: int)

  /** The side effects of one onReceive call, in order; logging and metrics are not recorded. */
  datatype Effect =
    | ShowSharingNotification
    | Cancel(notification: Notification)
    | StopBroadcasting
    | StartJoinDialog(device: Device)
    | ShowAddSourceNotification(device: Device)
    | AddSourceToSinks(sinks: seq<Device>)

  /** What the receiver reads from the intent and the device. */
  datatype Environment = Environment(
    audioSharingUiAvailable: bool,
    promoteSecondDeviceFlag: bool,
    isBroadcasting: bool,
    appInForeground: bool,
    groups: seq<Group>,
    hasSource: set<Device>)

  /** onReceive, as the list of its effects. */
  function OnReceive(action: Option<Action>, stateExtra: Option<int>, device: Option<Device>,
                     notifIdExtra: Option<int>, env: Environment): (effects: seq<Effect>)
    requires DistinctGroupIds(env.groups)
    ensures action.None? ==> effects == []
    ensures action == Some(Stop) ==>
      (StopBroadcasting in effects <==> env.audioSharingUiAvailable && env.isBroadcasting) &&
      (StopBroadcasting in effects <==> Cancel(SharingNotification) !in effects) &&
      (StopBroadcasting in effects <==> Cancel(AddSourceNotification) !in effects)
    ensures action == Some(CancelNotif) ==>
      effects == if notifIdExtra.GetOr(-1) != -1 then [Cancel(NotificationById(notifIdExtra.value))] else []
    ensures ShowSharingNotification in effects <==>
      action == Some(StateChange) && stateExtra.GetOr(-1) == BroadcastStateOn && env.audioSharingUiAvailable
    ensures action == Some(StateChange) && stateExtra.GetOr(-1) == BroadcastStateOff ==>
      effects == [Cancel(SharingNotification), Cancel(AddSourceNotification)]
    ensures action == Some(StateChange) && stateExtra.GetOr(-1) == BroadcastStateOn ==>
      effects == if env.audioSharingUiAvailable then [ShowSharingNotification] else []
    ensures (action == Some(StateChange) && stateExtra.GetOr(-1) != BroadcastStateOn &&
             stateExtra.GetOr(-1) != BroadcastStateOff) ==> effects == []
    ensures action == Some(Stop) ==>
      effects == if env.audioSharingUiAvailable && env.isBroadcasting then [StopBroadcasting]
                 else [Cancel(SharingNotification), Cancel(AddSourceNotification)]
    ensures action == Some(DeviceConnected) && (!env.promoteSecondDeviceFlag || !env.audioSharingUiAvailable || device.None?) ==>
      effects == []
    ensures action == Some(DeviceConnected) && env.promoteSecondDeviceFlag && env.audioSharingUiAvailable &&
            device.Some? && env.appInForeground ==>
      effects == [StartJoinDialog(device.value)]
    ensures action == Some(DeviceConnected) && env.promoteSecondDeviceFlag && env.audioSharingUiAvailable &&
            device.Some? && !env.appInForeground ==>
      effects == if ValidToAddSource(device, env.isBroadcasting, env.groups, env.hasSource) != []
                 then [ShowAddSourceNotification(device.value)] else []
    ensures action == Some(AddSource) && (!env.promoteSecondDeviceFlag || !env.audioSharingUiAvailable) ==>
      effects == [Cancel(AddSourceNotification)]
    ensures action == Some(AddSource) && env.promoteSecondDeviceFlag && env.audioSharingUiAvailable ==>
      effects == [AddSourceToSinks(ValidToAddSource(device, env.isBroadcasting, env.groups, env.hasSource)),
                  Cancel(AddSourceNotification)]
    ensures action == Some(AddSource) ==> |effects| > 0 && effects[|effects| - 1] == Cancel(AddSourceNotification)
    ensures forall sinks :: AddSourceToSinks(sinks) in effects ==>
      action == Some(AddSource) && env.promoteSecondDeviceFlag && env.audioSharingUiAvailable &&
      sinks == ValidToAddSource(device, env.isBroadcasting, env.groups, env.hasSource)
    ensures forall d :: StartJoinDialog(d) in effects ==>
      action == Some(DeviceConnected) && device == Some(d) && env.appInForeground
    ensures forall d :: ShowAddSourceNotification(d) in effects ==>
      action == Some(DeviceConnected) && device == Some(d) && !env.appInForeground &&
      ValidToAddSource(device, env.isBroadcasting, env.groups, env.hasSource) != []
    ensures action.Some? && action.value.OtherAction? ==> effects == []
  {
    if action.None? then []
    else match action.value
      case StateChange =>
        var state := stateExtra.GetOr(-1);
        if state == BroadcastStateOn then
          if !env.audioSharingUiAvailable then [] else [ShowSharingNotification]
        else if state == BroadcastStateOff then
          [Cancel(SharingNotification), Cancel(AddSourceNotification)]
        else []
      case Stop =>
        if env.audioSharingUiAvailable && env.isBroadcasting then [StopBroadcasting]
        else [Cancel(SharingNotification), Cancel(AddSourceNotification)]
      case DeviceConnected =>
        if !env.promoteSecondDeviceFlag || !env.audioSharingUiAvailable then []
        else if device.None? then []
        else if env.appInForeground then [StartJoinDialog(device.value)]
        else if ValidToAddSource(device, env.isBroadcasting, env.groups, env.hasSource) != [] then
          [ShowAddSourceNotification(device.value)]
        else []
      case AddSource =>
        if !env.promoteSecondDeviceFlag || !env.audioSharingUiAvailable then [Cancel(AddSourceNotification)]
        else
          [AddSourceToSinks(ValidToAddSource(device, env.isBroadcasting, env.groups, env.hasSource)),
           Cancel(AddSourceNotification)]
      case CancelNotif =>
        var notifId := notifIdExtra.GetOr(-1);
        if notifId != -1 then [Cancel(NotificationById(notifId))] else []
      case OtherAction(_) => []
  }

  /**
   * Tapping "share" on the add-source notification adds the broadcast only to devices of the
   * connected sink's own group that do not yet receive it, and never to a third group.
   */
  lemma AddSourceTargetsOnlyTheSinkGroup(device: Option<Device>, stateExtra: Option<int>, notifIdExtra: Option<int>,
                                        env: Environment, sinks: seq<Device>)
    requires DistinctGroupIds(env.groups)
    requires AddSourceToSinks(sinks) in OnReceive(Some(AddSource), stateExtra, device, notifIdExtra, env)
    requires sinks != []
    ensures device.Some? && env.isBroadcasting
    ensures var i := FirstGroupWith(env.groups, device.value);
      0 <= i && OtherGroupsWithSource(env.groups, env.groups[i].groupId, env.hasSource) < 2 &&
      forall d :: d in sinks ==> d in env.groups[i].members && d !in env.hasSource
  {
  }
}
