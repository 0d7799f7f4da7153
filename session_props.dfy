/** Properties of the call controller's transitions that relate several values or calls. */
module SessionProps {
  import opened Wrappers
  import opened Media
  import opened Session
  import JsText

  // ---------------------------------------------------------------------
  // Senders
  // ---------------------------------------------------------------------

  /**
   * After a video track is attached to a connection, the first video sender
   * carries exactly that track: the next `replaceTrack` on the video sender
   * (stopping a share, turning the camera off) reaches it.
   */
  lemma AttachedTrackIsFound(p: Peer, t: TrackRef)
    requires t.kind == Video
    ensures var r := AttachVideo(p, t);
      FindVideoSender(r.senders).Some? && r.senders[FindVideoSender(r.senders).value] == Some(t)
  {
    var r := AttachVideo(p, t);
    match FindVideoSender(p.senders)
    case Some(k) =>
      FirstVideoSenderAt(r.senders, k);
    case None =>
      FirstVideoSenderAt(r.senders, |p.senders|);
  }

  /** A video sender with no video sender before it is the one `find` returns. */
  lemma {:induction false} FirstVideoSenderAt(ss: seq<Sender>, k: nat)
    requires k < |ss| && IsVideoSender(ss[k])
    requires forall j :: 0 <= j < k ==> !IsVideoSender(ss[j])
    ensures FindVideoSender(ss) == Some(k)
    decreases k
  {
    if k > 0 {
      FirstVideoSenderAt(ss[1..], k - 1);
    }
  }

  /**
   * Sharing the screen and then switching the senders back to a camera
   * track `cam`: the video sender that existed is back on `cam`, or, where
   * the share had to add a sender, that added sender now carries `cam`.
   * In particular a connection whose video sender carried `cam` before the
   * share has exactly its old senders again.
   */
  lemma ShareThenRestore(p: Peer, v: TrackRef, cam: TrackRef)
    requires v.kind == Video && cam.kind == Video
    ensures var r := ReplaceVideoTrack(AttachVideo(p, v), Some(cam));
      match FindVideoSender(p.senders)
      case Some(k) => r.senders == p.senders[k := Some(cam)]
      case None => r.senders == p.senders + [Some(cam)]
    ensures FindVideoSender(p.senders).Some? && p.senders[FindVideoSender(p.senders).value] == Some(cam) ==>
      ReplaceVideoTrack(AttachVideo(p, v), Some(cam)) == p
  {
    var a := AttachVideo(p, v);
    AttachedTrackIsFound(p, v);
    match FindVideoSender(p.senders)
    case Some(k) =>
      FirstVideoSenderAt(a.senders, k);
      assert a.senders[k := Some(cam)] == p.senders[k := Some(cam)];
    case None =>
      FirstVideoSenderAt(a.senders, |p.senders|);
      assert a.senders[|p.senders| := Some(cam)] == p.senders + [Some(cam)];
  }

  /**
   * Nulling the video sender (camera off) exposes the next sender that
   * still carries video, if any: the nulled sender is never found again.
   */
  lemma NulledSenderIsSkipped(p: Peer)
    requires FindVideoSender(p.senders).Some?
    ensures var k := FindVideoSender(p.senders).value;
      var j := FindVideoSender(ReplaceVideoTrack(p, None).senders);
      j.None? || j.value > k
  {
    var k := FindVideoSender(p.senders).value;
    var r := ReplaceVideoTrack(p, None);
    assert forall j :: 0 <= j <= k ==> !IsVideoSender(r.senders[j]);
  }

  // ---------------------------------------------------------------------
  // Renegotiation
  // ---------------------------------------------------------------------

  /** A renegotiation offers to exactly the listed ids whose connection is stable. */
  lemma {:induction false} OffersExactlyStable(ids: seq<PeerId>, peers: map<PeerId, Peer>)
    ensures forall id :: Offer(id) in Offers(ids, peers) <==>
      id in ids && id in peers && peers[id].signaling == Stable
    decreases |ids|
  {
    if ids != [] {
      OffersExactlyStable(ids[1..], peers);
      assert forall id :: id in ids <==> id == ids[0] || id in ids[1..];
    }
  }

  /** Offers go only to listed ids. */
  lemma {:induction false} OffersToListed(ids: seq<PeerId>, peers: map<PeerId, Peer>)
    ensures forall i :: 0 <= i < |Offers(ids, peers)| ==> Offers(ids, peers)[i].to in ids
    decreases |ids|
  {
    if ids != [] {
      OffersToListed(ids[1..], peers);
    }
  }

  /**
   * After a renegotiation while connected no connection is left stable, and
   * the offers sent go to exactly the connections that were stable.
   */
  lemma RenegotiationOffersStablePeers(s: State)
    requires Valid(s)
    ensures var r := RenegotiateAllPeers(s, true);
      && r.peers.Keys == s.peers.Keys
      && (forall id :: id in r.peers ==> r.peers[id].signaling == HaveLocalOffer)
      && (forall id :: Offer(id) in r.outbox[|s.outbox|..] <==> id in s.peers && s.peers[id].signaling == Stable)
  {
    var r := RenegotiateAllPeers(s, true);
    OffersExactlyStable(s.order, s.peers);
    assert r.outbox[|s.outbox|..] == Offers(s.order, s.peers);
  }

  /** Renegotiation while disconnected changes nothing. */
  lemma RenegotiationNeedsConnection(s: State)
    requires Valid(s)
    ensures RenegotiateAllPeers(s, false) == s
  {
  }

  /**
   * Starting a screen share renegotiates exactly when some connection had no
   * video sender; afterwards every connection sends the display track from
   * its first video sender.
   */
  lemma ScreenShareReachesEveryPeer(s: State, withAudio: bool, connected: bool)
    requires Valid(s)
    ensures var r := StartScreenShare(s, withAudio, connected);
      && r.screenStream.Some? && r.peers.Keys == s.peers.Keys
      && (forall id :: id in r.peers ==>
            FindVideoSender(r.peers[id].senders).Some?
            && r.peers[id].senders[FindVideoSender(r.peers[id].senders).value] == Some(r.screenStream.value[0]))
      && (!SomePeerLacksVideo(s.peers) || !connected ==> r.outbox == s.outbox)
  {
    var r := StartScreenShare(s, withAudio, connected);
    var v := TrackRef(s.nextTrack, Video);
    assert r.screenStream.value[0] == v;
    forall id | id in r.peers
      ensures FindVideoSender(r.peers[id].senders).Some?
      ensures r.peers[id].senders[FindVideoSender(r.peers[id].senders).value] == Some(v)
    {
      AttachedTrackIsFound(s.peers[id], v);
    }
  }

  // ---------------------------------------------------------------------
  // Camera
  // ---------------------------------------------------------------------

  /**
   * `toggleVideo` with a local stream: the camera ends up on exactly when it
   * was off and either a camera track exists or a new one could be captured;
   * turning it off leaves the local stream without video, turning it on
   * leaves a camera track in it.
   */
  lemma ToggleVideoCamera(s: State, cameraOk: bool, connected: bool)
    requires Valid(s) && s.localStream.Some?
    ensures var r := ToggleVideo(s, cameraOk, connected);
      && r.isVideoEnabled == (!s.isVideoEnabled && (HasCamera(s) || cameraOk))
      && (s.isVideoEnabled ==> !HasCamera(r))
      && (!s.isVideoEnabled && (HasCamera(s) || cameraOk) ==> HasCamera(r))
  {
    var r := ToggleVideo(s, cameraOk, connected);
    var s1 := s.(isVideoEnabled := !s.isVideoEnabled);
    var ls := s.localStream.value;
    if s.isVideoEnabled {
      assert r == DisableVideo(s1).(outbox := r.outbox);
      AudioHasNoVideo(ls);
    } else if !HasCamera(s) && cameraOk {
      var v := TrackRef(s.nextTrack, Video);
      assert r == AddCamera(s1).(outbox := r.outbox);
      assert v in OfKind(ls + [v], Video);
    }
  }

  // ---------------------------------------------------------------------
  // Mute and deafen
  // ---------------------------------------------------------------------

  /** Remote playback is silent exactly while deafened. */
  ghost predicate VolumeFollowsDeafen(s: State) {
    s.remoteVolume == if s.isDeafened then 0 else 1
  }

  /**
   * Deafening and then undeafening leaves the microphone muted: deafening
   * forces mute, and undeafening does not restore the mute state from before.
   */
  lemma UndeafenKeepsMute(s: State)
    requires Valid(s) && !s.isDeafened && !s.isMuted
    ensures var r := DeafenClick(DeafenClick(s));
      !r.isDeafened && r.isMuted && r.remoteVolume == 1 && LocalAudioFollowsMute(r)
  {
  }

  /** Deafening does not pin the mute: the mute button alone unmutes while still deafened. */
  lemma MuteWhileDeafened(s: State)
    requires Valid(s) && !s.isDeafened
    ensures var r := MuteClick(DeafenClick(s));
      r.isDeafened && !r.isMuted && r.remoteVolume == 0
  {
  }

  /**
   * `toggleAudio` sets `isMuted` from `isAudioEnabled` alone: two toggles
   * starting from an enabled microphone unmute it, deafened or not.
   */
  lemma ToggleAudioIgnoresDeafen(s: State)
    requires Valid(s) && s.localStream.Some? && s.isAudioEnabled && s.isDeafened
    ensures var r := ToggleAudio(ToggleAudio(s));
      r.isDeafened && !r.isMuted && r.isAudioEnabled && LocalAudioFollowsMute(r)
  {
  }

  /**
   * A direct call captures a live, enabled microphone even while muted: the
   * capture ignores `isMuted`, which stays set.
   */
  lemma CallCaptureIgnoresMute(s: State, friend: JsText.JsId, callType: string, connected: bool, mobile: bool)
    requires Valid(s) && s.isMuted
    ensures var r := InitiateCall(s, friend, callType, true, connected, mobile);
      && r.isMuted
      && r.localStream.Some?
      && (forall t :: t in r.localStream.value ==> r.tracks[t].enabled)
      && !LocalAudioFollowsMute(r)
  {
    var r := InitiateCall(s, friend, callType, true, connected, mobile);
    var a := r.localStream.value[0];
    assert a.kind == Audio && a in LocalTracks(r) && a in r.tracks;
  }

  // ---------------------------------------------------------------------
  // Joining and leaving
  // ---------------------------------------------------------------------

  /**
   * A successful join and a second join: the second changes nothing. The
   * first leaves exactly one local track, an audio track, and it is muted
   * when muted or deafened.
   */
  lemma JoinTwiceIsJoinOnce(s: State, ch: string, ok2: bool, connected: bool, mobile: bool, cur: string)
    requires Valid(s) && !s.inCall
    ensures var r := JoinVoiceChannel(s, ch, true, connected, mobile, cur);
      && JoinVoiceChannel(r, ch, ok2, connected, mobile, cur) == r
      && r.localStream.Some? && |r.localStream.value| == 1
      && OfKind(r.localStream.value, Video) == []
      && r.tracks[r.localStream.value[0]].enabled == !(s.isMuted || s.isDeafened)
  {
    var r := JoinVoiceChannel(s, ch, true, connected, mobile, cur);
    var a := TrackRef(s.nextTrack, Audio);
    assert r.localStream.value == [a];
    assert OfKind([a], Video) == OfKind([], Video);
  }

  /** A forced leave leaves nothing to leave: repeating it changes nothing. */
  lemma LeaveTwiceIsLeaveOnce(s: State, connected: bool, mobile: bool, ch: string)
    requires Valid(s)
    ensures var r := LeaveVoiceChannel(s, true, connected, mobile, ch);
      LeaveVoiceChannel(r, true, connected, mobile, ch) == r && !r.inCall
  {
  }

  /**
   * A failed join ends where a forced leave of the call would: out of the
   * call, with no connection and no stream, and with the leave emitted.
   */
  lemma FailedJoinLeaves(s: State, ch: string, connected: bool, mobile: bool, cur: string)
    requires Valid(s) && !s.inCall
    ensures var r := JoinVoiceChannel(s, ch, false, connected, mobile, cur);
      && !r.inCall && r.peers == map[] && r.localStream.None? && r.screenStream.None?
      && r.outbox == s.outbox + (if connected then [LeaveVoice(cur)] else [])
  {
  }

  /**
   * When the last connection ends its call, the call is over: no connection,
   * no local or screen stream, and every track those streams carried is
   * stopped.
   */
  lemma LastCallEndedLeaves(s: State, from: PeerId, connected: bool, mobile: bool, ch: string)
    requires Valid(s) && s.inCall && s.peers.Keys <= {from}
    ensures var r := OnCallEnded(s, from, connected, mobile, ch);
      && !r.inCall && r.peers == map[] && r.order == []
      && r.localStream.None? && r.screenStream.None?
      && (forall t :: t in r.tracks && (t in LocalTracks(s) || t in ScreenTracks(s)) ==> r.tracks[t].stopped)
  {
    assert s.peers.Keys - {from} == {};
  }

  /**
   * Closing a direct call sends `end-call` to every connection, in registry
   * order, before the leave, and ends with no connection.
   */
  lemma CloseCallEndsEveryPeer(s: State, mobile: bool, ch: string)
    requires Valid(s) && s.inCall && s.callDetails
    ensures var r := CloseCall(s, true, mobile, ch);
      && r.outbox == s.outbox + EndCalls(s.order) + [LeaveVoice(ch)]
      && (forall id :: id in s.peers ==> CallEnd(id) in r.outbox[|s.outbox|..])
      && r.peers == map[] && !r.inCall
  {
    var r := CloseCall(s, true, mobile, ch);
    assert r.outbox[|s.outbox|..] == EndCalls(s.order) + [LeaveVoice(ch)];
    forall id | id in s.peers ensures CallEnd(id) in r.outbox[|s.outbox|..] {
      var i :| 0 <= i < |s.order| && s.order[i] == id;
      assert r.outbox[|s.outbox|..][i] == CallEnd(id);
    }
  }

  // ---------------------------------------------------------------------
  // Signalling
  // ---------------------------------------------------------------------

  /**
   * `existing-voice-users` keeps every connection already registered and
   * opens a responder connection, carrying the local tracks, to each listed
   * user that had none.
   */
  lemma {:induction false} ExistingUsersGetResponders(s: State, ids: seq<PeerId>)
    requires Valid(s)
    ensures var r := OnExistingVoiceUsers(s, ids);
      && (forall o :: o in s.peers ==> r.peers[o] == s.peers[o])
      && (forall o :: o in r.peers && o !in s.peers ==>
            r.peers[o].signaling == Stable && r.peers[o].senders == InitialSenders(s.localStream))
    decreases |ids|
  {
    if ids != [] {
      var s1 := CreatePeer(s, ids[0], false);
      ExistingUsersGetResponders(s1, ids[1..]);
      var r := OnExistingVoiceUsers(s1, ids[1..]);
      assert r == OnExistingVoiceUsers(s, ids);
      assert s1.localStream == s.localStream;
      forall o | o in r.peers && o !in s.peers
        ensures r.peers[o].signaling == Stable && r.peers[o].senders == InitialSenders(s.localStream)
      {
        if o in s1.peers {
          assert r.peers[o] == s1.peers[o];
        }
      }
    }
  }

  /**
   * Every offer is answered: the sender is registered afterwards, its
   * connection is stable, an answer goes back, and no other connection
   * changes. A connection of our own that was waiting on its offer (glare)
   * is overridden rather than ignored.
   */
  lemma OfferIsAlwaysAnswered(s: State, from: PeerId)
    requires Valid(s)
    ensures var r := OnOffer(s, from);
      && from in r.peers && r.peers[from].signaling == Stable
      && r.outbox == s.outbox + [Answer(from)]
      && r.peers.Keys == s.peers.Keys + {from}
      && (forall o :: o in s.peers && o != from ==> r.peers[o] == s.peers[o])
      && (from in s.peers ==> r.peers[from].senders == s.peers[from].senders)
  {
  }

  /** Candidates for an unknown connection are dropped, not buffered for later. */
  lemma EarlyCandidateIsDropped(s: State, from: PeerId, c: Candidate)
    requires Valid(s) && from !in s.peers
    ensures var r := OnOffer(OnIceCandidate(s, from, Some(c)), from);
      r.peers[from].candidates == []
  {
  }

  /** Handled candidates are kept in arrival order. */
  lemma CandidatesKeepOrder(s: State, from: PeerId, c1: Candidate, c2: Candidate)
    requires Valid(s) && from in s.peers
    ensures var r := OnIceCandidate(OnIceCandidate(s, from, Some(c1)), from, Some(c2));
      r.peers[from].candidates == s.peers[from].candidates + [c1, c2]
  {
  }

  /** A failed connection is restarted in place, never removed or replaced. */
  lemma IceFailureKeepsConnection(s: State, id: PeerId)
    requires Valid(s) && id in s.peers
    ensures var r := OnIceFailed(s, id);
      && r.peers.Keys == s.peers.Keys
      && r.peers[id].iceRestarts == s.peers[id].iceRestarts + 1
      && r.peers[id].senders == s.peers[id].senders
      && r.peers[id].signaling == s.peers[id].signaling
  {
  }
}
