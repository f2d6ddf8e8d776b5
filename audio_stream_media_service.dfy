// connecteddevice/audiosharing/audiostreams/AudioStreamMediaService: the foreground service that
// follows one received audio stream, the per-sink state of that stream, and the mute state shown
// by its media session.

module AudioStreamMedia {
  import opened Wrappers

  /** A Bluetooth sink, by address. */
  type Device = string

  /** LocalBluetoothLeBroadcastSourceState, with the states this service does not single out merged. */
  datatype SourceState = Streaming | Paused | DecryptionFailed | OtherSourceState

  /** The three playback states the service builds: playing, pausing (muted), and paused by hysteresis. */
  datatype PlaybackKind = Playing | Pausing | Hysteresis

  /** BluetoothAdapter.STATE_DISCONNECTED and BluetoothProfile.LE_AUDIO_BROADCAST_ASSISTANT. */
  const StateDisconnected: int := 0
  const LeAudioBroadcastAssistant: int := 29

  const InitialLatestPositiveVolume: int := 25

  /**
   * getDeviceInValidState, as a set: nothing for a null or empty map; with the receive-state flag
   * every sink not in DECRYPTION_FAILED, without it every sink.
   */
  function DevicesInValidState(stateByDevice: Option<map<Device, SourceState>>, byReceiveState: bool): (valid: set<Device>)
    ensures forall d :: d in valid <==>
      stateByDevice.Some? && d in stateByDevice.value && (byReceiveState ==> stateByDevice.value[d] != DecryptionFailed)
  {
    if stateByDevice.None? || |stateByDevice.value| == 0 then {}
    else if byReceiveState then set d | d in stateByDevice.value && stateByDevice.value[d] != DecryptionFailed
    else stateByDevice.value.Keys
  }

  /** isAllDeviceHysteresis: the fix flag, a map, and every sink PAUSED (vacuously so for none). */
  predicate AllDevicesHysteresis(hysteresisFix: bool, stateByDevice: Option<map<Device, SourceState>>)
  {
    hysteresisFix && stateByDevice.Some? && forall d :: d in stateByDevice.value ==> stateByDevice.value[d] == Paused
  }

  /** getPlaybackState: hysteresis wins over mute; otherwise muted shows pausing and unmuted playing. */
  function PlaybackStateFor(hysteresisFix: bool, stateByDevice: Option<map<Device, SourceState>>, isMuted: bool)
    : (kind: PlaybackKind)
    ensures kind == Hysteresis <==> AllDevicesHysteresis(hysteresisFix, stateByDevice)
    ensures kind == Pausing <==> !AllDevicesHysteresis(hysteresisFix, stateByDevice) && isMuted
    ensures kind == Playing <==> !AllDevicesHysteresis(hysteresisFix, stateByDevice) && !isMuted
  {
    if AllDevicesHysteresis(hysteresisFix, stateByDevice) then Hysteresis
    else if isMuted then Pausing
    else Playing
  }

  /** The volume handleOnPlay / handleOnPause asks of every valid sink. */
  function MediaButtonVolumes(valid: set<Device>, play: bool, latestPositiveVolume: int): (requests: map<Device, int>)
    ensures requests.Keys == valid
    ensures forall d :: d in requests ==> requests[d] == if play then latestPositiveVolume else 0
  {
    map d | d in valid :: if play then latestPositiveVolume else 0
  }

  /** Which of the four paths handleIntentData takes. */
  datatype IntentPath = InitialSetup | NewBroadcastId | NewDeviceOrState | NothingToUpdate

  function IntentPathFor(currentBroadcastId: int, stateByDevice: Option<map<Device, SourceState>>,
                         broadcastId: int, device: Device, state: SourceState): (path: IntentPath)
    ensures path == InitialSetup <==> currentBroadcastId == 0
    ensures path == NewBroadcastId <==> currentBroadcastId != 0 && currentBroadcastId != broadcastId
    ensures path == NewDeviceOrState <==>
      currentBroadcastId != 0 && currentBroadcastId == broadcastId && stateByDevice.Some? &&
      (device !in stateByDevice.value || stateByDevice.value[device] != state)
  {
    if currentBroadcastId == 0 then InitialSetup
    else if currentBroadcastId != broadcastId then NewBroadcastId
    else if stateByDevice.Some? && (device !in stateByDevice.value || stateByDevice.value[device] != state) then
      NewDeviceOrState
    else NothingToUpdate
  }

  class AudioStreamMediaService {
    /** Whether the hysteresis-mode fix and the receive-state flag are on. */
    const hysteresisModeFixAvailable: bool
    const byReceiveStateFlag: bool
    const hasNotificationManager: bool
    var broadcastId: int
    var stateByDevice: Option<map<Device, SourceState>>
    var isMuted: bool
    var latestPositiveVolume: int
    /** The playback state of the local media session; None while there is no session. */
    var sessionPlaybackState: Option<PlaybackKind>
    /** Whether stopSelf() has been called. */
    var stopRequested: bool

    constructor (hysteresisModeFixAvailable: bool, byReceiveStateFlag: bool, hasNotificationManager: bool)
      ensures this.hysteresisModeFixAvailable == hysteresisModeFixAvailable
      ensures this.byReceiveStateFlag == byReceiveStateFlag
      ensures this.hasNotificationManager == hasNotificationManager
      ensures broadcastId == 0 && stateByDevice.None? && !isMuted
      ensures latestPositiveVolume == InitialLatestPositiveVolume
      ensures sessionPlaybackState.None? && !stopRequested
    {
      this.hysteresisModeFixAvailable := hysteresisModeFixAvailable;
      this.byReceiveStateFlag := byReceiveStateFlag;
      this.hasNotificationManager := hasNotificationManager;
      broadcastId := 0;
      stateByDevice := None;
      isMuted := false;
      latestPositiveVolume := InitialLatestPositiveVolume;
      sessionPlaybackState := None;
      stopRequested := false;
    }

    function ValidDevices(): set<Device>
      reads this
    {
      DevicesInValidState(stateByDevice, byReceiveStateFlag)
    }

    function PlaybackState(): PlaybackKind
      reads this
    {
      PlaybackStateFor(hysteresisModeFixAvailable, stateByDevice, isMuted)
    }

    /** updateMediaSessionAndNotify, reduced to the playback state it sets. */
    method UpdateMediaSessionAndNotify()
      modifies this`sessionPlaybackState
      ensures sessionPlaybackState ==
        if hasNotificationManager && old(sessionPlaybackState).Some? then Some(PlaybackState()) else old(sessionPlaybackState)
    {
      if hasNotificationManager && sessionPlaybackState.Some? {
        sessionPlaybackState := Some(PlaybackState());
      }
    }

    /**
     * handleIntentData with its three handlers. Initial setup: DECRYPTION_FAILED stops the
     * service, any other state starts it on the broadcast with that sink alone. A new broadcast
     * id: DECRYPTION_FAILED is ignored, any other state restarts the map with that sink alone.
     * The same id with a new sink or a changed state records it, and stops the service when no
     * sink is left in a valid state.
     */
    method HandleIntentData(newBroadcastId: int, device: Device, state: SourceState)
      modifies this`broadcastId, this`stateByDevice, this`sessionPlaybackState, this`stopRequested
      ensures var path := IntentPathFor(old(broadcastId), old(stateByDevice), newBroadcastId, device, state);
        (path == InitialSetup && state == DecryptionFailed ==>
          stopRequested && broadcastId == old(broadcastId) && stateByDevice == old(stateByDevice) &&
          sessionPlaybackState == old(sessionPlaybackState)) &&
        (path == InitialSetup && state != DecryptionFailed ==>
          broadcastId == newBroadcastId && stateByDevice == Some(map[device := state]) &&
          sessionPlaybackState == (if old(sessionPlaybackState).Some? then old(sessionPlaybackState)
                                   else Some(PlaybackState())) &&
          stopRequested == old(stopRequested)) &&
        (path == NewBroadcastId && state == DecryptionFailed ==> unchanged(this)) &&
        (path == NewBroadcastId && state != DecryptionFailed ==>
          broadcastId == newBroadcastId && stateByDevice == Some(map[device := state]) &&
          sessionPlaybackState == (if hasNotificationManager && old(sessionPlaybackState).Some?
                                   then Some(PlaybackState()) else old(sessionPlaybackState)) &&
          stopRequested == old(stopRequested)) &&
        (path == NewDeviceOrState ==>
          broadcastId == old(broadcastId) && stateByDevice == Some(old(stateByDevice).value[device := state]) &&
          stopRequested == (old(stopRequested) || ValidDevices() == {}) &&
          sessionPlaybackState == (if ValidDevices() != {} && hasNotificationManager && old(sessionPlaybackState).Some?
                                   then Some(PlaybackState()) else old(sessionPlaybackState))) &&
        (path == NothingToUpdate ==> unchanged(this))
    {
      var path := IntentPathFor(broadcastId, stateByDevice, newBroadcastId, device, state);
      match path {
        case InitialSetup =>
          if state == DecryptionFailed {
            stopRequested := true;
            return;
          }
          broadcastId := newBroadcastId;
          stateByDevice := Some(map[device := state]);
          if sessionPlaybackState.None? {
            sessionPlaybackState := Some(PlaybackState());
          }
        case NewBroadcastId =>
          if state == DecryptionFailed {
            return;
          }
          broadcastId := newBroadcastId;
          stateByDevice := Some(map[device := state]);
          UpdateMediaSessionAndNotify();
        case NewDeviceOrState =>
          stateByDevice := Some(stateByDevice.value[device := state]);
          if ValidDevices() == {} {
            stopRequested := true;
            return;
          }
          UpdateMediaSessionAndNotify();
        case NothingToUpdate =>
      }
    }

    /**
     * onReceiveStateChanged (without the receive-state flag): with the hysteresis fix, a known
     * sink that moves to STREAMING or PAUSED is recorded and the session's playback state is
     * refreshed; nothing else changes the map.
     */
    method OnReceiveStateChanged(sink: Device, sourceState: SourceState)
      modifies this`stateByDevice, this`sessionPlaybackState
      ensures var applies := !byReceiveStateFlag && hysteresisModeFixAvailable && old(stateByDevice).Some? &&
          sink in old(stateByDevice).value && sourceState in {Streaming, Paused} &&
          old(stateByDevice).value[sink] != sourceState;
        (applies ==>
          stateByDevice == Some(old(stateByDevice).value[sink := sourceState]) &&
          sessionPlaybackState == if old(sessionPlaybackState).Some? then Some(PlaybackState()) else None) &&
        (!applies ==> stateByDevice == old(stateByDevice) && sessionPlaybackState == old(sessionPlaybackState))
    {
      if byReceiveStateFlag {
        return;
      }
      if !hysteresisModeFixAvailable || stateByDevice.None? || sink !in stateByDevice.value {
        return;
      }
      if sourceState != Streaming && sourceState != Paused {
        return;
      }
      if stateByDevice.value[sink] != sourceState {
        stateByDevice := Some(stateByDevice.value[sink := sourceState]);
        if sessionPlaybackState.Some? {
          sessionPlaybackState := Some(PlaybackState());
        }
      }
    }

    /**
     * onDeviceVolumeChanged: only a sink in a valid state counts; volume 0 mutes, any other volume
     * unmutes and becomes the volume restored on play.
     */
    method OnDeviceVolumeChanged(device: Device, volume: int)
      modifies this`isMuted, this`latestPositiveVolume, this`sessionPlaybackState
      ensures device !in ValidDevices() ==>
        isMuted == old(isMuted) && latestPositiveVolume == old(latestPositiveVolume) &&
        sessionPlaybackState == old(sessionPlaybackState)
      ensures device in ValidDevices() && volume == 0 ==> isMuted && latestPositiveVolume == old(latestPositiveVolume)
      ensures device in ValidDevices() && volume != 0 ==> !isMuted && latestPositiveVolume == volume
      ensures device in ValidDevices() ==>
        sessionPlaybackState == if old(sessionPlaybackState).Some? then Some(PlaybackState()) else None
    {
      if device !in ValidDevices() {
        return;
      }
      if volume == 0 {
        isMuted := true;
      } else {
        isMuted := false;
        latestPositiveVolume := volume;
      }
      if sessionPlaybackState.Some? {
        sessionPlaybackState := Some(PlaybackState());
      }
    }

    /**
     * onProfileConnectionStateChanged: a broadcast-assistant disconnect forgets the sink; the
     * service stops when no sink is left in a valid state.
     */
    method OnProfileConnectionStateChanged(device: Device, state: int, profile: int)
      modifies this`stateByDevice, this`stopRequested
      ensures stateByDevice ==
        if state == StateDisconnected && profile == LeAudioBroadcastAssistant && old(stateByDevice).Some? then
          Some(old(stateByDevice).value - {device})
        else old(stateByDevice)
      ensures stopRequested == (old(stopRequested) || ValidDevices() == {})
    {
      if state == StateDisconnected && profile == LeAudioBroadcastAssistant && stateByDevice.Some? {
        stateByDevice := Some(stateByDevice.value - {device});
      }
      if ValidDevices() == {} {
        stopRequested := true;
      }
    }
  }

  /** A disconnected sink is never again among the valid sinks. */
  lemma DisconnectedSinkNotValid(stateByDevice: map<Device, SourceState>, device: Device, byReceiveState: bool)
    ensures device !in DevicesInValidState(Some(stateByDevice - {device}), byReceiveState)
  {
  }

  /** Hysteresis overrides the mute state: with every sink paused and the fix on, mute does not show. */
  lemma HysteresisOverridesMute(stateByDevice: map<Device, SourceState>)
    requires forall d :: d in stateByDevice ==> stateByDevice[d] == Paused
    ensures PlaybackStateFor(true, Some(stateByDevice), true) == Hysteresis
    ensures PlaybackStateFor(true, Some(stateByDevice), false) == Hysteresis
  {
  }
}
