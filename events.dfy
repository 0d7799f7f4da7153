/**
 * The controller as an event loop: every socket event and every call button
 * is an `Event`, handled by one `Step`; `Run` handles a sequence of them.
 */
module Events {
  import opened Wrappers
  import JsText
  import S = Session
  import P = SessionProps

  datatype Event =
    // socket events (script.js:332-375, 426-462)
    | UserJoinedVoice(id: S.PeerId)
    | ExistingVoiceUsers(ids: seq<S.PeerId>)
    | UserLeftVoice(id: S.PeerId)
    | OfferReceived(id: S.PeerId)
    | AnswerReceived(id: S.PeerId)
    | CandidateReceived(id: S.PeerId, c: Option<S.Candidate>)
    | CallAccepted(id: S.PeerId)
    | CallRejected
    | CallEnded(id: S.PeerId, connected: bool, mobile: bool, channel: string)
    // connection callbacks (script.js:2346-2383)
    | LocalCandidate(id: S.PeerId, c: Option<S.Candidate>)
    | IceFailed(id: S.PeerId)
    // buttons and calls (script.js:735-906, 1704-2084)
    | JoinClicked(voice: string, mediaOk: bool, connected: bool, mobile: bool, channel: string)
    | LeaveClicked(force: bool, connected: bool, mobile: bool, channel: string)
    | CallClicked(friend: JsText.JsId, callType: string, mediaOk: bool, connected: bool, mobile: bool)
    | AcceptClicked(caller: S.PeerId, mediaOk: bool, connected: bool, mobile: bool)
    | RejectClicked(caller: S.PeerId, connected: bool)
    | CloseClicked(connected: bool, mobile: bool, channel: string)
    | MuteClicked
    | DeafenClicked
    | AudioToggled
    | VideoToggled(cameraOk: bool, connected: bool)
    | ScreenToggled(supported: bool, displayOk: bool, withAudio: bool, connected: bool)
    | ScreenTrackEnded(supported: bool, connected: bool)

  function Step(s: S.State, e: Event): (r: S.State)
    requires S.Valid(s)
    ensures S.Valid(r)
  {
    match e
    case UserJoinedVoice(id) => S.OnUserJoinedVoice(s, id)
    case ExistingVoiceUsers(ids) => S.OnExistingVoiceUsers(s, ids)
    case UserLeftVoice(id) => S.OnUserLeftVoice(s, id)
    case OfferReceived(id) => S.OnOffer(s, id)
    case AnswerReceived(id) => S.OnAnswer(s, id)
    case CandidateReceived(id, c) => S.OnIceCandidate(s, id, c)
    case CallAccepted(id) => S.OnCallAccepted(s, id)
    case CallRejected => S.OnCallRejected(s)
    case CallEnded(id, connected, mobile, channel) => S.OnCallEnded(s, id, connected, mobile, channel)
    case LocalCandidate(id, c) => S.OnLocalIceCandidate(s, id, c)
    case IceFailed(id) => S.OnIceFailed(s, id)
    case JoinClicked(voice, ok, connected, mobile, channel) => S.JoinVoiceChannel(s, voice, ok, connected, mobile, channel)
    case LeaveClicked(force, connected, mobile, channel) => S.LeaveVoiceChannel(s, force, connected, mobile, channel)
    case CallClicked(friend, ty, ok, connected, mobile) => S.InitiateCall(s, friend, ty, ok, connected, mobile)
    case AcceptClicked(caller, ok, connected, mobile) => S.AcceptCall(s, caller, ok, connected, mobile)
    case RejectClicked(caller, connected) => S.RejectCall(s, caller, connected)
    case CloseClicked(connected, mobile, channel) => S.CloseCall(s, connected, mobile, channel)
    case MuteClicked => S.MuteClick(s)
    case DeafenClicked => S.DeafenClick(s)
    case AudioToggled => S.ToggleAudio(s)
    case VideoToggled(ok, connected) => S.ToggleVideo(s, ok, connected)
    case ScreenToggled(supported, ok, withAudio, connected) => S.ToggleScreenShare(s, supported, ok, withAudio, connected)
    case ScreenTrackEnded(supported, connected) => S.OnScreenTrackEnded(s, supported, connected)
  }

  /** The events handled one after another, from the first. */
  function Run(s: S.State, es: seq<Event>): (r: S.State)
    requires S.Valid(s)
    ensures S.Valid(r)
    decreases |es|
  {
    if es == [] then s else Run(Step(s, es[0]), es[1..])
  }

  /** Every state the page can reach keeps the registry and track invariant. */
  lemma {:induction false} ReachableValid(es: seq<Event>)
    ensures S.Valid(S.Initial) && S.Valid(Run(S.Initial, es))
  {
    S.InitialValid();
  }

  /** `r` extends the outbox of `s`: nothing emitted is withdrawn. */
  ghost predicate Appends(s: S.State, r: S.State) {
    |r.outbox| >= |s.outbox| && r.outbox[..|s.outbox|] == s.outbox
  }

  /** `r` is deafened and plays remote audio exactly as `s` does. */
  ghost predicate SameHearing(s: S.State, r: S.State) {
    r.isDeafened == s.isDeafened && r.remoteVolume == s.remoteVolume
  }

  /** `r` only appends to the outbox of `s` and hears as `s` does. */
  ghost predicate Quiet(s: S.State, r: S.State) {
    Appends(s, r) && SameHearing(s, r)
  }

  lemma ForcedLeaveQuiet(s: S.State, connected: bool, mobile: bool, ch: string)
    requires S.Valid(s)
    ensures Quiet(s, S.ForcedLeave(s, connected, mobile, ch))
  {
  }

  lemma CallEndedQuiet(s: S.State, id: S.PeerId, connected: bool, mobile: bool, ch: string)
    requires S.Valid(s)
    ensures Quiet(s, S.OnCallEnded(s, id, connected, mobile, ch))
  {
    var s1 := S.RemovePeer(s, id);
    ForcedLeaveQuiet(s1, connected, mobile, ch);
  }

  lemma JoinQuiet(s: S.State, voice: string, ok: bool, connected: bool, mobile: bool, ch: string)
    requires S.Valid(s)
    ensures Quiet(s, S.JoinVoiceChannel(s, voice, ok, connected, mobile, ch))
  {
    ForcedLeaveQuiet(s.(inCall := true), connected, mobile, ch);
  }

  lemma CloseQuiet(s: S.State, connected: bool, mobile: bool, ch: string)
    requires S.Valid(s)
    ensures Quiet(s, S.CloseCall(s, connected, mobile, ch))
  {
    var s1 := if s.callDetails && connected then s.(outbox := s.outbox + S.EndCalls(s.order)) else s;
    ForcedLeaveQuiet(s1, connected, mobile, ch);
    assert s1.outbox[..|s.outbox|] == s.outbox;
  }

  lemma InitiateQuiet(s: S.State, friend: JsText.JsId, ty: string, ok: bool, connected: bool, mobile: bool)
    requires S.Valid(s)
    ensures Quiet(s, S.InitiateCall(s, friend, ty, ok, connected, mobile))
  {
  }

  lemma AcceptQuiet(s: S.State, caller: S.PeerId, ok: bool, connected: bool, mobile: bool)
    requires S.Valid(s)
    ensures Quiet(s, S.AcceptCall(s, caller, ok, connected, mobile))
  {
  }

  lemma VideoQuiet(s: S.State, ok: bool, connected: bool)
    requires S.Valid(s)
    ensures Quiet(s, S.ToggleVideo(s, ok, connected))
  {
    if s.localStream.Some? {
      var s1 := s.(isVideoEnabled := !s.isVideoEnabled);
      if s1.isVideoEnabled {
        CameraOnQuiet(s1, ok);
      } else {
        assert SameHearing(s1, S.DisableVideo(s1));
      }
    }
  }

  lemma CameraOnQuiet(s: S.State, ok: bool)
    requires S.Valid(s) && s.localStream.Some?
    ensures SameHearing(s, S.EnableVideo(s, ok))
  {
    if !S.HasCamera(s) && ok {
      assert SameHearing(s, S.AddCamera(s));
    }
  }

  lemma StartScreenQuiet(s: S.State, withAudio: bool, connected: bool)
    requires S.Valid(s)
    ensures Quiet(s, S.StartScreenShare(s, withAudio, connected))
  {
    var (s1, ts) := S.CaptureDisplay(s, withAudio);
    var s2 := s1.(screenStream := Some(ts), peers := S.AttachVideoEverywhere(s.peers, ts[0]));
    assert s2.outbox == s.outbox && SameHearing(s, s2);
    assert S.StartScreenShare(s, withAudio, connected)
        == if S.SomePeerLacksVideo(s.peers) then S.RenegotiateAllPeers(s2, connected) else s2;
  }

  lemma ScreenQuiet(s: S.State, supported: bool, ok: bool, withAudio: bool, connected: bool)
    requires S.Valid(s)
    ensures Quiet(s, S.ToggleScreenShare(s, supported, ok, withAudio, connected))
  {
    if supported && s.screenStream.None? && ok {
      StartScreenQuiet(s, withAudio, connected);
    }
  }

  lemma RejectQuiet(s: S.State, caller: S.PeerId, connected: bool)
    requires S.Valid(s)
    ensures Quiet(s, S.RejectCall(s, caller, connected))
  {
  }

  predicate IsSignalling(e: Event) {
    e.UserJoinedVoice? || e.ExistingVoiceUsers? || e.UserLeftVoice? || e.OfferReceived? || e.AnswerReceived?
    || e.CandidateReceived? || e.CallAccepted? || e.LocalCandidate? || e.IceFailed? || e.CallRejected?
  }

  lemma SignallingQuiet(s: S.State, e: Event)
    requires S.Valid(s) && IsSignalling(e)
    ensures Quiet(s, Step(s, e))
  {
  }

  lemma JoinLeaveQuiet(s: S.State, e: Event)
    requires S.Valid(s) && (e.CallEnded? || e.JoinClicked? || e.LeaveClicked?)
    ensures Quiet(s, Step(s, e))
  {
    match e {
      case CallEnded(id, connected, mobile, channel) => CallEndedQuiet(s, id, connected, mobile, channel);
      case JoinClicked(voice, ok, connected, mobile, channel) => JoinQuiet(s, voice, ok, connected, mobile, channel);
      case LeaveClicked(force, connected, mobile, channel) =>
        if s.inCall && force {
          ForcedLeaveQuiet(s, connected, mobile, channel);
        }
    }
  }

  lemma CallButtonsQuiet(s: S.State, e: Event)
    requires S.Valid(s) && (e.CallClicked? || e.AcceptClicked?)
    ensures Quiet(s, Step(s, e))
  {
    match e {
      case CallClicked(friend, ty, ok, connected, mobile) => InitiateQuiet(s, friend, ty, ok, connected, mobile);
      case AcceptClicked(caller, ok, connected, mobile) => AcceptQuiet(s, caller, ok, connected, mobile);
    }
  }

  lemma HangUpButtonsQuiet(s: S.State, e: Event)
    requires S.Valid(s) && (e.RejectClicked? || e.CloseClicked?)
    ensures Quiet(s, Step(s, e))
  {
    match e {
      case RejectClicked(caller, connected) => RejectQuiet(s, caller, connected);
      case CloseClicked(connected, mobile, channel) => CloseQuiet(s, connected, mobile, channel);
    }
  }

  lemma MicQuiet(s: S.State, e: Event)
    requires S.Valid(s) && (e.MuteClicked? || e.AudioToggled?)
    ensures Quiet(s, Step(s, e))
  {
  }

  lemma VideoStepQuiet(s: S.State, e: Event)
    requires S.Valid(s) && (e.VideoToggled? || e.ScreenToggled? || e.ScreenTrackEnded?)
    ensures Quiet(s, Step(s, e))
  {
    match e {
      case VideoToggled(ok, connected) => VideoQuiet(s, ok, connected);
      case ScreenToggled(supported, ok, withAudio, connected) => ScreenQuiet(s, supported, ok, withAudio, connected);
      case ScreenTrackEnded(supported, connected) =>
        if s.screenStream.Some? {
          ScreenQuiet(s, supported, false, false, connected);
        }
    }
  }

  /** Every step only appends to the outbox, and keeps remote volume in step with deafen. */
  lemma StepInvariants(s: S.State, e: Event)
    requires S.Valid(s)
    ensures Appends(s, Step(s, e))
    ensures P.VolumeFollowsDeafen(s) ==> P.VolumeFollowsDeafen(Step(s, e))
  {
    if e.DeafenClicked? {
      assert Step(s, e) == S.DeafenClick(s);
    } else if IsSignalling(e) {
      SignallingQuiet(s, e);
    } else if e.MuteClicked? || e.AudioToggled? {
      MicQuiet(s, e);
    } else if e.VideoToggled? || e.ScreenToggled? || e.ScreenTrackEnded? {
      VideoStepQuiet(s, e);
    } else if e.CallEnded? || e.JoinClicked? || e.LeaveClicked? {
      JoinLeaveQuiet(s, e);
    } else if e.CallClicked? || e.AcceptClicked? {
      CallButtonsQuiet(s, e);
    } else {
      HangUpButtonsQuiet(s, e);
    }
  }

  /** Nothing emitted is ever withdrawn, however many events are handled. */
  lemma {:induction false} RunOnlyAppends(s: S.State, es: seq<Event>)
    requires S.Valid(s)
    ensures Appends(s, Run(s, es))
    decreases |es|
  {
    if es != [] {
      var s1 := Step(s, es[0]);
      StepInvariants(s, es[0]);
      RunOnlyAppends(s1, es[1..]);
      var r := Run(s, es);
      assert r.outbox[..|s1.outbox|][..|s.outbox|] == r.outbox[..|s.outbox|];
    }
  }

  lemma {:induction false} RunKeepsVolume(s: S.State, es: seq<Event>)
    requires S.Valid(s) && P.VolumeFollowsDeafen(s)
    ensures P.VolumeFollowsDeafen(Run(s, es))
    decreases |es|
  {
    if es != [] {
      StepInvariants(s, es[0]);
      RunKeepsVolume(Step(s, es[0]), es[1..]);
    }
  }

  /** In every reachable state remote playback is silent exactly while deafened. */
  lemma ReachableVolume(es: seq<Event>)
    ensures S.Valid(S.Initial) && P.VolumeFollowsDeafen(Run(S.Initial, es))
  {
    S.InitialValid();
    RunKeepsVolume(S.Initial, es);
  }

  /**
   * A reachable state that is deafened with a live microphone: join, deafen,
   * then toggle the microphone off and on again.
   */
  lemma DeafenedAndUnmutedIsReachable()
    ensures S.Valid(S.Initial)
    ensures var r := Run(S.Initial, [JoinClicked("voice", true, true, false, "general"), DeafenClicked, AudioToggled, AudioToggled]);
      r.isDeafened && !r.isMuted && r.inCall && S.LocalAudioFollowsMute(r)
  {
    S.InitialValid();
    var s1 := Step(S.Initial, JoinClicked("voice", true, true, false, "general"));
    assert s1.inCall && s1.localStream.Some? && s1.isAudioEnabled && !s1.isDeafened;
    var s2 := Step(s1, DeafenClicked);
    P.ToggleAudioIgnoresDeafen(s2);
    RunTwoToggles(s2);
  }

  lemma RunTwoToggles(s: S.State)
    requires S.Valid(s)
    ensures Run(s, [AudioToggled, AudioToggled]) == S.ToggleAudio(S.ToggleAudio(s))
  {
    var s1 := Step(s, AudioToggled);
    assert [AudioToggled, AudioToggled][1..] == [AudioToggled];
    assert Run(s, [AudioToggled, AudioToggled]) == Run(s1, [AudioToggled]);
    assert [AudioToggled][1..] == [];
    assert Run(s1, [AudioToggled]) == Run(Step(s1, AudioToggled), []);
  }
}
