/**
 * The mock-interview lobby: the equipment check that probes camera and
 * microphone, the start button it gates, and the setup-progress figure.
 */
module Lobby {
  import opened Common
  import opened Media

  /** The `equipmentStatus` record. */
  datatype EquipmentStatus = EquipmentStatus(camera: bool, microphone: bool, internet: bool)

  /** The state the page starts in: nothing probed, the connection assumed good. */
  const InitialStatus: EquipmentStatus := EquipmentStatus(false, false, true)

  /** The "Start Interview" button is enabled exactly when both camera and microphone are ready. */
  function StartEnabled(s: EquipmentStatus): (enabled: bool)
    ensures enabled <==> s.camera && s.microphone
  {
    !(!s.camera || !s.microphone)
  }

  /** The "Please test your camera and microphone first" hint. */
  function WarningShown(s: EquipmentStatus): bool
  {
    !s.camera || !s.microphone
  }

  /** The hint is on screen exactly when the start button is disabled. */
  lemma WarningIffDisabled(s: EquipmentStatus)
    ensures WarningShown(s) <==> !StartEnabled(s)
  {
  }

  /** The setup-progress percentage: 33 for the camera, 33 for the microphone, 34 for the connection. */
  function SetupProgress(s: EquipmentStatus): (p: int)
    ensures 0 <= p <= 100
    ensures p == 100 <==> s.camera && s.microphone && s.internet
    ensures p == 0 <==> !s.camera && !s.microphone && !s.internet
    ensures s.internet ==> p >= 34
  {
    (if s.camera then 33 else 0) + (if s.microphone then 33 else 0) + (if s.internet then 34 else 0)
  }

  /** Readying a device never lowers the progress figure. */
  lemma SetupProgressMonotone(s: EquipmentStatus, t: EquipmentStatus)
    requires s.camera ==> t.camera
    requires s.microphone ==> t.microphone
    requires s.internet ==> t.internet
    ensures SetupProgress(s) <= SetupProgress(t)
  {
  }

  class LobbyPage {
    var status: EquipmentStatus
    /** The stream attached to the preview's `srcObject`, if any. */
    var preview: Option<Stream>
    /** The tracks the platform still holds open. */
    var liveTracks: set<TrackId>
    /** Probe streams whose five-second release timeout has not fired yet, oldest first. */
    var pendingReleases: seq<Stream>
    var navigatedToRoom: bool
    /**
     * The page is on screen. Navigating to the room unmounts it: `videoRef.current`
     * becomes null and React drops its state updates, while pending timeouts still fire.
     */
    var mounted: bool
    /** Every track the platform has handed out so far: a new stream's tracks are never among them. */
    ghost var issued: set<TrackId>

    /**
     * No handler ever changes `internet`. Every probe stream awaiting its
     * release is still live, and no two of them share a track.
     */
    ghost predicate Valid()
      reads this
    {
      status.internet && liveTracks <= issued &&
      (forall i :: 0 <= i < |pendingReleases| ==> TracksOf(pendingReleases[i]) <= liveTracks) &&
      (forall i, j :: 0 <= i < j < |pendingReleases| ==> TracksOf(pendingReleases[i]) !! TracksOf(pendingReleases[j]))
    }

    constructor (live: set<TrackId>)
      ensures Valid()
      ensures status == InitialStatus && preview == None && liveTracks == live
      ensures pendingReleases == [] && !navigatedToRoom && mounted && issued == live
    {
      status := InitialStatus;
      preview := None;
      liveTracks := live;
      pendingReleases := [];
      navigatedToRoom := false;
      mounted := true;
      issued := live;
    }

    /**
     * `checkEquipment` once its media request resolves. On success the fresh
     * stream's tracks are live and their release is scheduled; a mounted page
     * also marks both devices ready and shows the stream. On failure a mounted
     * page marks both not ready and nothing is thrown. `internet` is kept.
     */
    method CheckEquipment(outcome: Option<Stream>)
      requires Valid()
      requires outcome.Some? ==> TracksOf(outcome.value) !! issued
      modifies this
      ensures Valid()
      ensures outcome.Some? ==>
        && liveTracks == old(liveTracks) + TracksOf(outcome.value)
        && pendingReleases == old(pendingReleases) + [outcome.value]
        && issued == old(issued) + TracksOf(outcome.value)
      ensures outcome.Some? && old(mounted) ==>
        status == old(status).(camera := true, microphone := true) && preview == outcome
      ensures outcome.None? ==>
        liveTracks == old(liveTracks) && pendingReleases == old(pendingReleases) && issued == old(issued)
      ensures outcome.None? && old(mounted) ==>
        status == old(status).(camera := false, microphone := false) && preview == old(preview)
      ensures !old(mounted) ==> status == old(status) && preview == old(preview)
      ensures navigatedToRoom == old(navigatedToRoom) && mounted == old(mounted)
    {
      match outcome {
        case Some(stream) =>
          if mounted {
            status := status.(camera := true, microphone := true);
            preview := Some(stream);
          }
          liveTracks := liveTracks + TracksOf(stream);
          issued := issued + TracksOf(stream);
          pendingReleases := pendingReleases + [stream];
        case None =>
          if mounted {
            status := status.(camera := false, microphone := false);
          }
      }
    }

    /**
     * The oldest pending five-second timeout fires, mounted or not: every track
     * of that probe stream is stopped, and every other pending probe stream stays
     * live. The readiness flags stay as they are.
     */
    method ReleaseTimeoutFires()
      requires Valid() && pendingReleases != []
      modifies this`liveTracks, this`pendingReleases
      ensures Valid()
      ensures liveTracks == old(liveTracks) - TracksOf(old(pendingReleases)[0])
      ensures pendingReleases == old(pendingReleases)[1..]
      ensures forall j :: 0 <= j < |pendingReleases| ==> TracksOf(pendingReleases[j]) <= liveTracks
    {
      ghost var released := pendingReleases[0];
      liveTracks := StopTracks(liveTracks, pendingReleases[0]);
      pendingReleases := pendingReleases[1..];
      forall j | 0 <= j < |pendingReleases|
        ensures TracksOf(pendingReleases[j]) <= liveTracks
      {
        assert pendingReleases[j] == old(pendingReleases)[j + 1];
        assert TracksOf(released) !! TracksOf(old(pendingReleases)[j + 1]);
      }
    }

    /**
     * "Start Interview", disabled unless both devices are ready: only navigates,
     * handing nothing over, and the lobby leaves the screen.
     */
    method ClickStartInterview()
      requires Valid()
      modifies this`navigatedToRoom, this`mounted
      ensures Valid()
      ensures old(mounted) && StartEnabled(status) ==> navigatedToRoom && !mounted
      ensures !(old(mounted) && StartEnabled(status)) ==>
        navigatedToRoom == old(navigatedToRoom) && mounted == old(mounted)
    {
      if mounted && StartEnabled(status) {
        navigatedToRoom := true;
        mounted := false;
      }
    }
  }

  /** Probe, then let the release fire: the tracks are stopped and the page still reads ready at 100%. */
  method ProbeThenReleaseScenario(stream: Stream) returns (progress: int, enabled: bool, tracks: set<TrackId>)
    ensures progress == 100 && enabled && tracks == {}
  {
    var lobby := new LobbyPage({});
    lobby.CheckEquipment(Some(stream));
    lobby.ReleaseTimeoutFires();
    progress, enabled, tracks := SetupProgress(lobby.status), StartEnabled(lobby.status), lobby.liveTracks;
  }

  /** Two probes in a row: the first probe's release stops its own tracks and leaves the second's live. */
  method TwoProbesScenario(first: Stream, second: Stream) returns (tracks: set<TrackId>)
    requires TracksOf(first) !! TracksOf(second)
    ensures tracks == TracksOf(second)
  {
    var lobby := new LobbyPage({});
    lobby.CheckEquipment(Some(first));
    lobby.CheckEquipment(Some(second));
    lobby.ReleaseTimeoutFires();
    tracks := lobby.liveTracks;
  }

  /**
   * A probe that resolves after "Start Interview" has left the lobby: nothing on
   * screen changes, yet its tracks stay live until its own release fires.
   */
  method LateProbeScenario(first: Stream, late: Stream) returns (shown: Option<Stream>, tracks: set<TrackId>)
    requires TracksOf(first) !! TracksOf(late)
    ensures shown == Some(first)
    ensures tracks == TracksOf(first) + TracksOf(late)
  {
    var lobby := new LobbyPage({});
    lobby.CheckEquipment(Some(first));
    lobby.ClickStartInterview();
    lobby.CheckEquipment(Some(late));
    shown, tracks := lobby.preview, lobby.liveTracks;
  }

  /** A failed probe leaves the start button disabled and the progress at the connection's 34%. */
  method ProbeFailsScenario() returns (progress: int, enabled: bool)
    ensures progress == 34 && !enabled
  {
    var lobby := new LobbyPage({});
    lobby.CheckEquipment(None);
    progress, enabled := SetupProgress(lobby.status), StartEnabled(lobby.status);
  }
}
