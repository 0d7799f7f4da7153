/**
 * The call controller as the page runs it: the call globals are fields that
 * the handlers update in place, and every `forEach` over tracks or over the
 * connection registry is a loop. Each handler is proved to leave the fields
 * exactly as the corresponding transition of `Session` says.
 */
module Controller {
  import opened Wrappers
  import opened Media
  import JsText
  import opened Session

  class CallController {
    var inCall: bool
    var isVideoEnabled: bool
    var isAudioEnabled: bool
    var isMuted: bool
    var isDeafened: bool
    var remoteVolume: int
    var localStream: Option<seq<TrackRef>>
    var screenStream: Option<seq<TrackRef>>
    var tracks: Tracks
    var nextTrack: nat
    var peers: map<PeerId, Peer>
    var order: seq<PeerId>
    var outbox: seq<Signal>
    var callDetails: bool

    /** The globals as one value. */
    function Snapshot(): State
      reads this
    {
      State(inCall, isVideoEnabled, isAudioEnabled, isMuted, isDeafened, remoteVolume,
            localStream, screenStream, tracks, nextTrack, peers, order, outbox, callDetails)
    }

    ghost predicate Valid()
      reads this
    {
      Session.Valid(Snapshot())
    }

    constructor ()
      ensures Snapshot() == Initial && Valid()
    {
      inCall, isVideoEnabled, isAudioEnabled, isMuted, isDeafened := false, true, true, false, false;
      remoteVolume := 1;
      localStream, screenStream := None, None;
      tracks, nextTrack := map[], 0;
      peers, order, outbox := map[], [], [];
      callDetails := false;
      new;
      InitialValid();
    }

    /** A fresh live track of kind `k` from the capture device. */
    method Capture(k: Kind) returns (t: TrackRef)
      requires Valid()
      modifies this
      ensures Valid()
      ensures (Snapshot(), t) == Session.Capture(old(Snapshot()), k)
    {
      t := TrackRef(nextTrack, k);
      tracks := tracks[t := FreshTrack];
      nextTrack := nextTrack + 1;
    }

    // -------------------------------------------------------------------
    // Loops over the registry
    // -------------------------------------------------------------------

    /** `replaceTrack(t)` on the video sender of every connection, in registry order. */
    method ReplaceVideoOnAll(t: Sender)
      requires Listed(peers, order)
      modifies this
      ensures Snapshot() == old(Snapshot()).(peers := ReplaceVideoEverywhere(old(peers), t))
    {
      peers := ReplaceVideoEach(peers, order, t);
    }

    /**
     * Sending `t` to every connection, in registry order: `replaceTrack` into
     * its video sender, else `addTrack`. Reports whether some connection
     * needed `addTrack`.
     */
    method AttachVideoOnAll(t: TrackRef) returns (added: bool)
      requires Listed(peers, order) && t.kind == Video
      modifies this
      ensures Snapshot() == old(Snapshot()).(peers := AttachVideoEverywhere(old(peers), t))
      ensures added == SomePeerLacksVideo(old(peers))
    {
      added := AnyLacksVideo(peers, order);
      peers := AttachVideoEach(peers, order, t);
    }

    /** `renegotiateAllPeers`: an offer from every stable connection, in registry order. */
    method RenegotiateAllPeers(connected: bool)
      requires Listed(peers, order)
      modifies this
      ensures Snapshot() == if connected then old(Snapshot()).(peers := RenegotiateEverywhere(old(peers)),
                                                               outbox := old(outbox) + Offers(old(order), old(peers)))
                            else old(Snapshot())
    {
      if connected {
        var sent;
        peers, sent := RenegotiateEach(peers, order);
        outbox := outbox + sent;
      }
    }

    /**
     * `createPeerConnection`: an existing connection is kept; otherwise a
     * new one is registered carrying the local tracks, and an initiator
     * sends an offer.
     */
    method CreatePeerConnection(id: PeerId, initiator: bool)
      requires Valid()
      modifies this
      ensures Snapshot() == CreatePeer(old(Snapshot()), id, initiator)
    {
      if id in peers {
        return;
      }
      var senders: seq<Sender> := [];
      if localStream.Some? {
        senders := SendersFor(localStream.value);
      }
      peers := peers[id := Peer(if initiator then HaveLocalOffer else Stable, senders, [], 0)];
      order := order + [id];
      if initiator {
        outbox := outbox + [Offer(id)];
      }
    }

    /** `pc.close(); delete peerConnections[id]` when registered. */
    method RemovePeer(id: PeerId)
      requires Valid()
      modifies this
      ensures Snapshot() == Session.RemovePeer(old(Snapshot()), id)
    {
      peers := peers - {id};
      order := Without(order, id);
    }

    method OnUserJoinedVoice(id: PeerId)
      requires Valid()
      modifies this
      ensures Snapshot() == Session.OnUserJoinedVoice(old(Snapshot()), id)
    {
      CreatePeerConnection(id, true);
    }

    /** `existing-voice-users`: a responder connection to each listed user, in list order. */
    method OnExistingVoiceUsers(ids: seq<PeerId>)
      requires Valid()
      modifies this
      ensures Snapshot() == Session.OnExistingVoiceUsers(old(Snapshot()), ids)
    {
      var i := 0;
      while i < |ids|
        invariant 0 <= i <= |ids|
        invariant Valid()
        invariant Session.OnExistingVoiceUsers(Snapshot(), ids[i..]) == Session.OnExistingVoiceUsers(old(Snapshot()), ids)
      {
        assert ids[i..][1..] == ids[i + 1..];
        CreatePeerConnection(ids[i], false);
        i := i + 1;
      }
    }

    method OnUserLeftVoice(id: PeerId)
      requires Valid()
      modifies this
      ensures Snapshot() == Session.OnUserLeftVoice(old(Snapshot()), id)
    {
      RemovePeer(id);
    }

    // -------------------------------------------------------------------
    // Signalling
    // -------------------------------------------------------------------

    method OnOffer(from: PeerId)
      requires Valid()
      modifies this
      ensures Snapshot() == Session.OnOffer(old(Snapshot()), from)
    {
      if from !in peers {
        CreatePeerConnection(from, false);
      }
      peers := peers[from := peers[from].(signaling := Stable)];
      outbox := outbox + [Answer(from)];
    }

    method OnAnswer(from: PeerId)
      requires Valid()
      modifies this
      ensures Snapshot() == Session.OnAnswer(old(Snapshot()), from)
    {
      if from in peers && peers[from].signaling == HaveLocalOffer {
        peers := peers[from := peers[from].(signaling := Stable)];
      }
    }

    method OnIceCandidate(from: PeerId, c: Option<Candidate>)
      requires Valid()
      modifies this
      ensures Snapshot() == Session.OnIceCandidate(old(Snapshot()), from, c)
    {
      if from in peers && c.Some? {
        var p := peers[from];
        peers := peers[from := p.(candidates := p.candidates + [c.value])];
      }
    }

    method OnLocalIceCandidate(id: PeerId, c: Option<Candidate>)
      requires Valid()
      modifies this
      ensures Snapshot() == Session.OnLocalIceCandidate(old(Snapshot()), id, c)
    {
      if id in peers && c.Some? {
        outbox := outbox + [IceCandidate(id)];
      }
    }

    method OnIceFailed(id: PeerId)
      requires Valid()
      modifies this
      ensures Snapshot() == Session.OnIceFailed(old(Snapshot()), id)
    {
      if id in peers {
        peers := peers[id := peers[id].(iceRestarts := peers[id].iceRestarts + 1)];
      }
    }

    // -------------------------------------------------------------------
    // Calls
    // -------------------------------------------------------------------

    method OnCallAccepted(from: PeerId)
      requires Valid()
      modifies this
      ensures Snapshot() == Session.OnCallAccepted(old(Snapshot()), from)
    {
      if from !in peers {
        CreatePeerConnection(from, true);
      }
    }

    method OnCallRejected()
      requires Valid()
      modifies this
      ensures Snapshot() == Session.OnCallRejected(old(Snapshot()))
    {
      if localStream.Some? {
        tracks := StopEach(tracks, localStream.value);
        localStream := None;
      }
      inCall := false;
    }

    /** Stopping every local and screen track, then dropping both streams. */
    method DropStreams()
      requires StreamOk(tracks, localStream) && StreamOk(tracks, screenStream)
      modifies this
      ensures Snapshot() == old(Snapshot()).(tracks := StopAll(StopAll(old(tracks), old(localStream).GetOr([])), old(screenStream).GetOr([])),
                                             localStream := None, screenStream := None)
    {
      tracks := StopEach(tracks, localStream.GetOr([]));
      localStream := None;
      tracks := StopEach(tracks, screenStream.GetOr([]));
      screenStream := None;
    }

    /**
     * After the streams are dropped: the leave is emitted when connected,
     * every connection is closed and forgotten, and the flags are reset.
     */
    method Hangup(connected: bool, mobile: bool, channel: string)
      modifies this
      ensures Snapshot() == old(Snapshot()).(outbox := old(outbox) + (if connected then [LeaveVoice(channel)] else []),
                                             peers := map[], order := [],
                                             isVideoEnabled := mobile, isAudioEnabled := true)
    {
      if connected {
        outbox := outbox + [LeaveVoice(channel)];
      }
      peers, order := map[], [];
      isVideoEnabled := mobile;
      isAudioEnabled := true;
    }

    /** The forced branch of `leaveVoiceChannel`, in the order the page runs it. */
    method ForcedLeave(connected: bool, mobile: bool, channel: string)
      requires Valid()
      modifies this
      ensures Snapshot() == Session.ForcedLeave(old(Snapshot()), connected, mobile, channel)
    {
      inCall := false;
      DropStreams();
      Hangup(connected, mobile, channel);
    }

    /** `leaveVoiceChannel(force)`. */
    method LeaveVoiceChannel(force: bool, connected: bool, mobile: bool, channel: string)
      requires Valid()
      modifies this
      ensures Snapshot() == Session.LeaveVoiceChannel(old(Snapshot()), force, connected, mobile, channel)
    {
      if inCall && force {
        ForcedLeave(connected, mobile, channel);
      }
    }

    method OnCallEnded(from: PeerId, connected: bool, mobile: bool, channel: string)
      requires Valid()
      modifies this
      ensures Snapshot() == Session.OnCallEnded(old(Snapshot()), from, connected, mobile, channel)
    {
      RemovePeer(from);
      RegistryEmptiness(Snapshot());
      if order == [] {
        LeaveVoiceChannel(true, connected, mobile, channel);
      }
    }

    /**
     * `initializeMedia`: an audio-only stream is captured and becomes the
     * local stream; its track starts disabled when muted or deafened.
     */
    method InitializeMedia()
      requires Valid()
      modifies this
      ensures var a := TrackRef(old(nextTrack), Audio);
        Snapshot() == old(Snapshot()).(tracks := old(tracks)[a := TrackState(!(isMuted || isDeafened), false)],
                                       nextTrack := old(nextTrack) + 1, localStream := Some([a]))
    {
      var a := TrackRef(nextTrack, Audio);
      var captured := tracks[a := FreshTrack];
      if isMuted || isDeafened {
        SetEnabledOne(captured, a, false);
        captured := EnableEach(captured, [a], Audio, false);
        assert captured == tracks[a := TrackState(false, false)];
      }
      tracks, nextTrack, localStream := captured, nextTrack + 1, Some([a]);
    }

    /** `joinVoiceChannel`. */
    method JoinVoiceChannel(voice: string, mediaOk: bool, connected: bool, mobile: bool, channel: string)
      requires Valid()
      modifies this
      ensures Snapshot() == Session.JoinVoiceChannel(old(Snapshot()), voice, mediaOk, connected, mobile, channel)
    {
      if inCall {
        return;
      }
      inCall := true;
      if !mediaOk {
        ForcedLeave(connected, mobile, channel);
        return;
      }
      InitializeMedia();
      if connected {
        outbox := outbox + [JoinVoice(voice)];
      }
    }

    /** The capture of a direct call: audio, and the camera on a phone layout. */
    method CaptureCallStream(mobile: bool) returns (ts: seq<TrackRef>)
      requires Valid()
      modifies this
      ensures Valid()
      ensures (Snapshot(), ts) == Session.CaptureCallStream(old(Snapshot()), mobile)
    {
      var a := Capture(Audio);
      if mobile {
        var v := Capture(Video);
        ts := [a, v];
      } else {
        ts := [a];
      }
    }

    /** What `initiateCall` and `acceptCall` do once the capture succeeded. */
    method StartCall(ts: seq<TrackRef>, m: Signal, connected: bool, mobile: bool)
      requires Valid() && forall t :: t in ts ==> t in tracks
      modifies this
      ensures Snapshot() == old(Snapshot()).(localStream := Some(ts),
                                             outbox := old(outbox) + (if connected then [m] else []),
                                             callDetails := true, inCall := true,
                                             isVideoEnabled := mobile, isAudioEnabled := true)
    {
      localStream := Some(ts);
      if connected {
        outbox := outbox + [m];
      }
      callDetails := true;
      inCall := true;
      isVideoEnabled := mobile;
      isAudioEnabled := true;
    }

    method InitiateCall(friend: JsText.JsId, callType: string, mediaOk: bool, connected: bool, mobile: bool)
      requires Valid()
      modifies this
      ensures Snapshot() == Session.InitiateCall(old(Snapshot()), friend, callType, mediaOk, connected, mobile)
    {
      if mediaOk {
        var ts := CaptureCallStream(mobile);
        StartCall(ts, CallRequest(friend, callType), connected, mobile);
      }
    }

    method AcceptCall(caller: PeerId, mediaOk: bool, connected: bool, mobile: bool)
      requires Valid()
      modifies this
      ensures Snapshot() == Session.AcceptCall(old(Snapshot()), caller, mediaOk, connected, mobile)
    {
      if mediaOk {
        var ts := CaptureCallStream(mobile);
        StartCall(ts, CallAccept(caller), connected, mobile);
        if caller !in peers {
          CreatePeerConnection(caller, false);
        }
      }
    }

    method RejectCall(caller: PeerId, connected: bool)
      requires Valid()
      modifies this
      ensures Snapshot() == Session.RejectCall(old(Snapshot()), caller, connected)
    {
      if connected {
        outbox := outbox + [CallReject(caller)];
      }
    }

    /** The close-call button. */
    method CloseCall(connected: bool, mobile: bool, channel: string)
      requires Valid()
      modifies this
      ensures Snapshot() == Session.CloseCall(old(Snapshot()), connected, mobile, channel)
    {
      if callDetails {
        var sent := EndCallsEach(order, connected);
        outbox := outbox + sent;
      }
      LeaveVoiceChannel(true, connected, mobile, channel);
    }

    // -------------------------------------------------------------------
    // Microphone and speakers
    // -------------------------------------------------------------------

    method MuteClick()
      requires Valid()
      modifies this
      ensures Snapshot() == Session.MuteClick(old(Snapshot()))
    {
      isMuted := !isMuted;
      if localStream.Some? {
        tracks := EnableEach(tracks, localStream.value, Audio, !isMuted);
      }
    }

    method DeafenClick()
      requires Valid()
      modifies this
      ensures Snapshot() == Session.DeafenClick(old(Snapshot()))
    {
      isDeafened := !isDeafened;
      if isDeafened {
        if !isMuted {
          isMuted := true;
        }
        remoteVolume := 0;
      } else {
        remoteVolume := 1;
      }
      if localStream.Some? {
        tracks := EnableEach(tracks, localStream.value, Audio, !isMuted);
      }
    }

    method ToggleAudio()
      requires Valid()
      modifies this
      ensures Snapshot() == Session.ToggleAudio(old(Snapshot()))
    {
      if localStream.None? {
        return;
      }
      isAudioEnabled := !isAudioEnabled;
      tracks := EnableEach(tracks, localStream.value, Audio, isAudioEnabled);
      isMuted := !isAudioEnabled;
    }

    // -------------------------------------------------------------------
    // Camera and screen
    // -------------------------------------------------------------------

    method DisableVideo()
      requires Valid() && localStream.Some?
      modifies this
      ensures Snapshot() == Session.DisableVideo(old(Snapshot()))
      ensures order == old(order) && outbox == old(outbox)
    {
      var ls := localStream.value;
      tracks := StopEach(tracks, OfKind(ls, Video));
      localStream := Some(OfKind(ls, Audio));
      ReplaceVideoOnAll(None);
    }

    method EnableVideo(cameraOk: bool)
      requires Valid() && localStream.Some?
      modifies this
      ensures Snapshot() == Session.EnableVideo(old(Snapshot()), cameraOk)
      ensures order == old(order) && outbox == old(outbox)
    {
      var ls := localStream.value;
      if OfKind(ls, Video) == [] {
        if cameraOk {
          var v := Capture(Video);
          localStream := Some(ls + [v]);
          var _ := AttachVideoOnAll(v);
          FreshCameraIsEnabled(tracks, ls, v);
        } else {
          isVideoEnabled := false;
        }
      }
      tracks := EnableEach(tracks, localStream.value, Video, true);
    }

    /** `toggleVideo`. */
    method ToggleVideo(cameraOk: bool, connected: bool)
      requires Valid()
      modifies this
      ensures Snapshot() == Session.ToggleVideo(old(Snapshot()), cameraOk, connected)
    {
      if localStream.None? {
        return;
      }
      isVideoEnabled := !isVideoEnabled;
      var enabled := isVideoEnabled;
      var ids := order;
      if enabled {
        EnableVideo(cameraOk);
      } else {
        DisableVideo();
      }
      var sent := VideoTogglesEach(ids, enabled, connected);
      outbox := outbox + sent;
    }

    method StopScreenShare()
      requires Valid() && screenStream.Some?
      modifies this
      ensures Snapshot() == Session.StopScreenShare(old(Snapshot()))
    {
      tracks := StopEach(tracks, screenStream.value);
      if isVideoEnabled && localStream.None? {
        return;  // `localStream.getVideoTracks()` throws
      }
      var cam := if isVideoEnabled then First(OfKind(localStream.value, Video)) else None;
      ReplaceVideoOnAll(cam);
      screenStream := None;
    }

    /** The display capture of a screen share. */
    method CaptureDisplay(withAudio: bool) returns (ts: seq<TrackRef>)
      requires Valid()
      modifies this
      ensures Valid()
      ensures (Snapshot(), ts) == Session.CaptureDisplay(old(Snapshot()), withAudio)
    {
      var v := Capture(Video);
      if withAudio {
        var a := Capture(Audio);
        ts := [v, a];
      } else {
        ts := [v];
      }
    }

    /**
     * The display capture of a screen share, sent to every connection;
     * reports whether some connection needed a new sender.
     */
    method ShareDisplay(withAudio: bool) returns (needed: bool)
      requires Valid()
      modifies this
      ensures Listed(peers, order)
      ensures needed == SomePeerLacksVideo(old(peers))
      ensures var (s1, ts) := Session.CaptureDisplay(old(Snapshot()), withAudio);
        Snapshot() == s1.(screenStream := Some(ts), peers := AttachVideoEverywhere(old(peers), ts[0]))
    {
      var ts := CaptureDisplay(withAudio);
      screenStream := Some(ts);
      needed := AttachVideoOnAll(ts[0]);
    }

    method StartScreenShare(withAudio: bool, connected: bool)
      requires Valid()
      modifies this
      ensures Snapshot() == Session.StartScreenShare(old(Snapshot()), withAudio, connected)
    {
      var needed := ShareDisplay(withAudio);
      if needed {
        RenegotiateAllPeers(connected);
      }
    }

    /** `toggleScreenShare`. */
    method ToggleScreenShare(supported: bool, displayOk: bool, withAudio: bool, connected: bool)
      requires Valid()
      modifies this
      ensures Snapshot() == Session.ToggleScreenShare(old(Snapshot()), supported, displayOk, withAudio, connected)
    {
      if !supported {
        return;
      }
      if screenStream.Some? {
        StopScreenShare();
      } else if displayOk {
        StartScreenShare(withAudio, connected);
      }
    }

    /** `screenTrack.onended`. */
    method OnScreenTrackEnded(supported: bool, connected: bool)
      requires Valid()
      modifies this
      ensures Snapshot() == Session.OnScreenTrackEnded(old(Snapshot()), supported, connected)
    {
      if screenStream.Some? {
        ToggleScreenShare(supported, false, false, connected);
      }
    }
  }

  // ---------------------------------------------------------------------
  // The `forEach` loops over tracks
  // ---------------------------------------------------------------------

  /** `ts.forEach(track => track.stop())`. */
  method StopEach(tracks: Tracks, ts: seq<TrackRef>) returns (m: Tracks)
    requires forall t :: t in ts ==> t in tracks
    ensures m == StopAll(tracks, ts)
  {
    m := tracks;
    assert ts[..0] == [];
    assert m == StopAll(tracks, []);
    var i := 0;
    while i < |ts|
      invariant 0 <= i <= |ts|
      invariant m == StopAll(tracks, ts[..i])
    {
      var t := ts[i];
      StopAllStep(tracks, ts[..i], t);
      assert ts[..i + 1] == ts[..i] + [t];
      m := m[t := m[t].(stopped := true)];
      i := i + 1;
    }
    assert ts[..i] == ts;
  }

  /** `track.enabled = b` for every track of kind `k` in `ts`, in order. */
  method EnableEach(tracks: Tracks, ts: seq<TrackRef>, k: Kind, b: bool) returns (m: Tracks)
    requires forall t :: t in ts ==> t in tracks
    ensures m == SetEnabled(tracks, ts, k, b)
  {
    m := tracks;
    assert ts[..0] == [];
    assert m == SetEnabled(tracks, [], k, b);
    var i := 0;
    while i < |ts|
      invariant 0 <= i <= |ts|
      invariant m == SetEnabled(tracks, ts[..i], k, b)
    {
      var t := ts[i];
      SetEnabledStep(tracks, ts[..i], t, k, b);
      assert ts[..i + 1] == ts[..i] + [t];
      if t.kind == k {
        m := m[t := m[t].(enabled := b)];
      }
      i := i + 1;
    }
    assert ts[..i] == ts;
  }

  /**
   * The senders `createPeerConnection` adds for a local stream: its audio
   * tracks, then its video tracks.
   */
  method SendersFor(ls: seq<TrackRef>) returns (senders: seq<Sender>)
    ensures senders == InitialSenders(Some(ls))
  {
    var audio := OfKind(ls, Audio);
    var video := OfKind(ls, Video);
    senders := [];
    var i := 0;
    while i < |audio|
      invariant 0 <= i <= |audio|
      invariant senders == AsSenders(audio[..i])
    {
      senders := senders + [Some(audio[i])];
      i := i + 1;
    }
    assert audio[..i] == audio;
    i := 0;
    while i < |video|
      invariant 0 <= i <= |video|
      invariant senders == AsSenders(audio) + AsSenders(video[..i])
    {
      senders := senders + [Some(video[i])];
      i := i + 1;
    }
    assert video[..i] == video;
  }

  // ---------------------------------------------------------------------
  // The `forEach` loops over `Object.keys(peerConnections)`
  // ---------------------------------------------------------------------

  /** One `video-toggle` per connection in key order, each sent only while connected. */
  method VideoTogglesEach(order: seq<PeerId>, enabled: bool, connected: bool) returns (sent: seq<Signal>)
    ensures sent == if connected then VideoToggles(order, enabled) else []
  {
    sent := [];
    var i := 0;
    while i < |order|
      invariant 0 <= i <= |order|
      invariant sent == if connected then VideoToggles(order[..i], enabled) else []
    {
      if connected {
        assert VideoToggles(order[..i + 1], enabled) == VideoToggles(order[..i], enabled) + [VideoToggle(order[i], enabled)];
        sent := sent + [VideoToggle(order[i], enabled)];
      }
      i := i + 1;
    }
    assert order[..i] == order;
  }

  /** One `end-call` per connection in key order, each sent only while connected. */
  method EndCallsEach(order: seq<PeerId>, connected: bool) returns (sent: seq<Signal>)
    ensures sent == if connected then EndCalls(order) else []
  {
    sent := [];
    var i := 0;
    while i < |order|
      invariant 0 <= i <= |order|
      invariant sent == if connected then EndCalls(order[..i]) else []
    {
      if connected {
        assert EndCalls(order[..i + 1]) == EndCalls(order[..i]) + [CallEnd(order[i])];
        sent := sent + [CallEnd(order[i])];
      }
      i := i + 1;
    }
    assert order[..i] == order;
  }

  // ---------------------------------------------------------------------
  // The `forEach` loops over `Object.entries(peerConnections)`
  // ---------------------------------------------------------------------

  /** Every registered connection is listed in the key list, and every listed id is registered. */
  ghost predicate Listed(peers: map<PeerId, Peer>, order: seq<PeerId>) {
    forall id :: id in peers <==> id in order
  }

  /** The registry after applying `f` to the connections visited so far (`done`). */
  ghost function Visited(peers: map<PeerId, Peer>, done: seq<PeerId>, f: Peer -> Peer): (r: map<PeerId, Peer>)
    ensures r.Keys == peers.Keys
  {
    map id | id in peers :: if id in done then f(peers[id]) else peers[id]
  }

  /**
   * Visiting one more registered connection replaces its entry by `f` of the
   * original; when `f` leaves it alone, the registry is unchanged.
   */
  lemma VisitStep(peers: map<PeerId, Peer>, done: seq<PeerId>, x: PeerId, f: Peer -> Peer)
    requires x in peers
    ensures Visited(peers, done + [x], f) == Visited(peers, done, f)[x := f(peers[x])]
    ensures f(peers[x]) == peers[x] ==> Visited(peers, done + [x], f) == Visited(peers, done, f)
  {
    var lhs := Visited(peers, done + [x], f);
    var rhs := Visited(peers, done, f)[x := f(peers[x])];
    forall id | id in lhs ensures lhs[id] == rhs[id] {
      assert (id in done + [x]) == (id in done || id == x);
    }
    assert lhs == rhs;
  }

  /** Once every registered id is visited, `f` has been applied to every connection. */
  lemma VisitAll(peers: map<PeerId, Peer>, order: seq<PeerId>, f: Peer -> Peer)
    requires forall id :: id in peers ==> id in order
    ensures Visited(peers, order, f) == map id | id in peers :: f(peers[id])
  {
  }

  /** `replaceTrack(t)` on every connection's video sender, visiting the connections in key order. */
  method ReplaceVideoEach(peers: map<PeerId, Peer>, order: seq<PeerId>, t: Sender) returns (m: map<PeerId, Peer>)
    requires Listed(peers, order)
    ensures m == ReplaceVideoEverywhere(peers, t)
  {
    ghost var f := p => ReplaceVideoTrack(p, t);
    m := peers;
    var i := 0;
    while i < |order|
      invariant 0 <= i <= |order|
      invariant m == Visited(peers, order[..i], f)
    {
      var id := order[i];
      assert order[..i + 1] == order[..i] + [id];
      VisitStep(peers, order[..i], id, f);
      m := m[id := ReplaceVideoTrack(peers[id], t)];
      i := i + 1;
    }
    assert order[..i] == order;
    VisitAll(peers, order, f);
  }

  /** Attaching `t` to every connection, visiting the connections in key order. */
  method AttachVideoEach(peers: map<PeerId, Peer>, order: seq<PeerId>, t: TrackRef) returns (m: map<PeerId, Peer>)
    requires Listed(peers, order) && t.kind == Video
    ensures m == AttachVideoEverywhere(peers, t)
  {
    ghost var f := p => AttachVideo(p, t);
    m := peers;
    var i := 0;
    while i < |order|
      invariant 0 <= i <= |order|
      invariant m == Visited(peers, order[..i], f)
    {
      var id := order[i];
      assert order[..i + 1] == order[..i] + [id];
      VisitStep(peers, order[..i], id, f);
      m := m[id := AttachVideo(peers[id], t)];
      i := i + 1;
    }
    assert order[..i] == order;
    VisitAll(peers, order, f);
  }

  /** `renegotiateNeeded`: set when some connection visited has no video sender. */
  method AnyLacksVideo(peers: map<PeerId, Peer>, order: seq<PeerId>) returns (needed: bool)
    requires Listed(peers, order)
    ensures needed == SomePeerLacksVideo(peers)
  {
    needed := false;
    var i := 0;
    while i < |order|
      invariant 0 <= i <= |order|
      invariant needed <==> exists id :: id in order[..i] && FindVideoSender(peers[id].senders).None?
    {
      assert order[..i + 1] == order[..i] + [order[i]];
      if FindVideoSender(peers[order[i]].senders).None? {
        needed := true;
      }
      i := i + 1;
    }
    assert order[..i] == order;
  }

  /**
   * The loop of `renegotiateAllPeers`: each stable connection, in key order,
   * makes an offer, which is sent; the others are skipped.
   */
  method RenegotiateEach(peers: map<PeerId, Peer>, order: seq<PeerId>) returns (m: map<PeerId, Peer>, sent: seq<Signal>)
    requires Listed(peers, order)
    ensures m == RenegotiateEverywhere(peers)
    ensures sent == Offers(order, peers)
  {
    m, sent := peers, [];
    var i := 0;
    while i < |order|
      invariant 0 <= i <= |order|
      invariant m == Visited(peers, order[..i], Renegotiated)
      invariant sent == Offers(order[..i], peers)
    {
      var id := order[i];
      assert order[..i + 1] == order[..i] + [id];
      VisitStep(peers, order[..i], id, Renegotiated);
      OffersSnoc(order[..i], id, peers);
      var pc := peers[id];
      if pc.signaling == Stable {
        m := m[id := pc.(signaling := HaveLocalOffer)];
        sent := sent + [Offer(id)];
      }
      i := i + 1;
    }
    assert order[..i] == order;
    VisitAll(peers, order, Renegotiated);
  }

  /**
   * The final enable pass after a camera capture changes nothing: the
   * captured track is the only video track of the stream and is enabled.
   */
  lemma FreshCameraIsEnabled(tracks: Tracks, ls: seq<TrackRef>, v: TrackRef)
    requires OfKind(ls, Video) == [] && v in tracks && tracks[v] == FreshTrack
    ensures SetEnabled(tracks, ls + [v], Video, true) == tracks
  {
    var r := SetEnabled(tracks, ls + [v], Video, true);
    forall t | t in r ensures r[t] == tracks[t] {
      if t in ls + [v] && t.kind == Video {
        assert t !in ls;
      }
    }
  }
}
