/**
 * The call/session controller of the chat client, as values: the call
 * flags, the local and screen streams, the registry of peer connections
 * keyed by remote socket id, and the signals emitted to the relay. Every
 * socket event and every button of the call is one function from the state
 * before to the state after (each runs to completion as one step). Browser
 * capture, `socket.connected` and `isMobileLayout()` are parameters.
 */
module Session {
  import opened Wrappers
  import opened Media
  import JsText

  /** A remote participant's socket id. */
  type PeerId = string

  /** An ICE candidate, kept opaque. */
  type Candidate = string

  /**
   * The signalling states the handlers can leave a connection in: an offer
   * handler always answers (back to `Stable`), an initiator or a
   * renegotiation leaves its own offer outstanding.
   */
  datatype Signaling = Stable | HaveLocalOffer

  /** An `RTCRtpSender`: the track it sends, or null after `replaceTrack(null)`. */
  type Sender = Option<TrackRef>

  datatype Peer = Peer(
    signaling: Signaling,
    senders: seq<Sender>,
    candidates: seq<Candidate>,   // remote candidates handed to `addIceCandidate`
    iceRestarts: nat)             // `restartIce` calls after ICE failure

  /** What the client emits on the socket (descriptions and candidates are opaque). */
  datatype Signal =
    | Offer(to: PeerId)
    | Answer(to: PeerId)
    | IceCandidate(to: PeerId)
    | JoinVoice(channel: string)
    | LeaveVoice(channel: string)
    | VideoToggle(to: PeerId, enabled: bool)
    | CallRequest(friend: JsText.JsId, callType: string)
    | CallAccept(to: PeerId)
    | CallReject(to: PeerId)
    | CallEnd(to: PeerId)

  datatype State = State(
    inCall: bool,
    isVideoEnabled: bool,
    isAudioEnabled: bool,
    isMuted: bool,
    isDeafened: bool,
    remoteVolume: int,                  // volume of the remote media elements
    localStream: Option<seq<TrackRef>>,
    screenStream: Option<seq<TrackRef>>,
    tracks: Tracks,
    nextTrack: nat,                     // identity of the next captured track
    peers: map<PeerId, Peer>,
    order: seq<PeerId>,                 // the registry's keys in insertion order
    outbox: seq<Signal>,
    callDetails: bool)                  // `window.currentCallDetails` has been set

  /** The globals as the page loads them. */
  const Initial := State(false, true, true, false, false, 1, None, None, map[], 0, map[], [], [], false)

  ghost predicate Distinct(xs: seq<PeerId>) {
    forall i, j :: 0 <= i < j < |xs| ==> xs[i] != xs[j]
  }

  ghost predicate StreamOk(tracks: Tracks, st: Option<seq<TrackRef>>) {
    st.Some? ==> forall t :: t in st.value ==> t in tracks
  }

  /**
   * The registry holds one connection per id and remembers the key order;
   * every track on a stream is in the track table; captured tracks have
   * identities below `nextTrack`.
   */
  ghost predicate Valid(s: State) {
    && Distinct(s.order)
    && (forall id :: id in s.peers <==> id in s.order)
    && (forall t :: t in s.tracks ==> t.id < s.nextTrack)
    && StreamOk(s.tracks, s.localStream)
    && StreamOk(s.tracks, s.screenStream)
  }

  lemma InitialValid()
    ensures Valid(Initial)
  {
  }

  /** `socket.emit`: one more signal in the outbox; nothing else changes. */
  function Send(s: State, m: Signal): (r: State)
    requires Valid(s)
    ensures Valid(r)
    ensures r.outbox == s.outbox + [m]
    ensures r.(outbox := s.outbox) == s
  {
    s.(outbox := s.outbox + [m])
  }

  /** The connection registered under `id` replaced by `p`; the registry keeps its keys. */
  function UpdatePeer(s: State, id: PeerId, p: Peer): (r: State)
    requires Valid(s) && id in s.peers
    ensures Valid(r)
    ensures r.peers.Keys == s.peers.Keys && r.peers[id] == p
    ensures forall o :: o in s.peers && o != id ==> r.peers[o] == s.peers[o]
    ensures r.(peers := s.peers) == s
  {
    var r := s.(peers := s.peers[id := p]);
    assert forall o :: o in r.peers <==> o in s.peers;
    r
  }

  /** A new track table with the same tracks keeps the state valid. */
  lemma ValidWithTracks(s: State, tracks: Tracks)
    requires Valid(s) && tracks.Keys == s.tracks.Keys
    ensures Valid(s.(tracks := tracks))
  {
  }

  /** The registry has no connection exactly when its key list is empty. */
  lemma RegistryEmptiness(s: State)
    requires Valid(s)
    ensures s.order == [] <==> s.peers == map[]
  {
    assert s.order != [] ==> s.order[0] in s.peers;
    assert s.order == [] ==> s.peers.Keys == {};
  }

  function LocalTracks(s: State): seq<TrackRef> {
    s.localStream.GetOr([])
  }

  function ScreenTracks(s: State): seq<TrackRef> {
    s.screenStream.GetOr([])
  }

  // ---------------------------------------------------------------------
  // Senders
  // ---------------------------------------------------------------------

  predicate IsVideoSender(x: Sender) {
    x.Some? && x.value.kind == Video
  }

  /**
   * `pc.getSenders().find(s => s.track && s.track.kind === 'video')`: the
   * first sender currently carrying a video track.
   */
  function FindVideoSender(senders: seq<Sender>): (r: Option<nat>)
    ensures r.Some? ==> r.value < |senders| && IsVideoSender(senders[r.value])
    ensures r.Some? ==> forall j :: 0 <= j < r.value ==> !IsVideoSender(senders[j])
    ensures r.None? <==> forall j :: 0 <= j < |senders| ==> !IsVideoSender(senders[j])
  {
    if senders == [] then None
    else if IsVideoSender(senders[0]) then Some(0)
    else match FindVideoSender(senders[1..])
      case None => None
      case Some(k) => Some(k + 1)
  }

  /** `sender.replaceTrack(t)` on the video sender, when there is one. */
  function ReplaceVideoTrack(p: Peer, t: Sender): (r: Peer)
    ensures r.(senders := p.senders) == p
    ensures |r.senders| == |p.senders|
    ensures FindVideoSender(p.senders).None? ==> r == p
    ensures FindVideoSender(p.senders).Some? ==>
      var k := FindVideoSender(p.senders).value;
      r.senders[k] == t && forall j :: 0 <= j < |p.senders| && j != k ==> r.senders[j] == p.senders[j]
  {
    match FindVideoSender(p.senders)
    case None => p
    case Some(k) => p.(senders := p.senders[k := t])
  }

  /**
   * Sending a video track to a peer: `replaceTrack` into its video sender
   * when it has one, otherwise `addTrack`, which appends a sender.
   */
  function AttachVideo(p: Peer, t: TrackRef): (r: Peer)
    requires t.kind == Video
    ensures r.(senders := p.senders) == p
    ensures FindVideoSender(p.senders).Some? ==> r == ReplaceVideoTrack(p, Some(t))
    ensures FindVideoSender(p.senders).None? ==> r.senders == p.senders + [Some(t)]
    ensures FindVideoSender(r.senders).Some? && Some(t) in r.senders
  {
    match FindVideoSender(p.senders)
    case Some(k) => p.(senders := p.senders[k := Some(t)])
    case None =>
      var r := p.(senders := p.senders + [Some(t)]);
      assert IsVideoSender(r.senders[|p.senders|]);
      r
  }

  /** Every sender of every peer runs `ReplaceVideoTrack(_, t)`. */
  function ReplaceVideoEverywhere(peers: map<PeerId, Peer>, t: Sender): (r: map<PeerId, Peer>)
    ensures r.Keys == peers.Keys
    ensures forall id :: id in r ==> r[id] == ReplaceVideoTrack(peers[id], t)
  {
    map id | id in peers :: ReplaceVideoTrack(peers[id], t)
  }

  function AttachVideoEverywhere(peers: map<PeerId, Peer>, t: TrackRef): (r: map<PeerId, Peer>)
    requires t.kind == Video
    ensures r.Keys == peers.Keys
    ensures forall id :: id in r ==> r[id] == AttachVideo(peers[id], t)
  {
    map id | id in peers :: AttachVideo(peers[id], t)
  }

  /** Some peer has no sender carrying video, so attaching video adds a sender there. */
  predicate SomePeerLacksVideo(peers: map<PeerId, Peer>) {
    exists id :: id in peers && FindVideoSender(peers[id].senders).None?
  }

  function AsSenders(ts: seq<TrackRef>): (r: seq<Sender>)
    ensures |r| == |ts| && forall i :: 0 <= i < |ts| ==> r[i] == Some(ts[i])
  {
    seq(|ts|, i requires 0 <= i < |ts| => Some(ts[i]))
  }

  /** No sender carries audio after a sender that carries video. */
  predicate AudioBeforeVideo(ss: seq<Sender>) {
    forall i, j :: 0 <= i < j < |ss| && IsVideoSender(ss[i]) ==> IsVideoSender(ss[j])
  }

  /** The senders of a new connection: the local audio tracks, then the local video tracks. */
  function InitialSenders(local: Option<seq<TrackRef>>): (r: seq<Sender>)
    ensures forall i :: 0 <= i < |r| ==> r[i].Some?
    ensures forall t :: Some(t) in r <==> local.Some? && t in local.value
    ensures AudioBeforeVideo(r)
  {
    match local
    case None => []
    case Some(ls) =>
      var a, v := OfKind(ls, Audio), OfKind(ls, Video);
      var r := AsSenders(a) + AsSenders(v);
      assert forall i :: 0 <= i < |r| ==> (i < |a| ==> r[i] == Some(a[i])) && (i >= |a| ==> r[i] == Some(v[i - |a|]));
      assert forall t :: Some(t) in r ==> t in a || t in v;
      assert forall t :: t in a ==> Some(t) in AsSenders(a) by {
        forall t | t in a ensures Some(t) in AsSenders(a) {
          var i :| 0 <= i < |a| && a[i] == t;
          assert AsSenders(a)[i] == Some(t);
        }
      }
      assert forall t :: t in v ==> Some(t) in AsSenders(v) by {
        forall t | t in v ensures Some(t) in AsSenders(v) {
          var i :| 0 <= i < |v| && v[i] == t;
          assert AsSenders(v)[i] == Some(t);
        }
      }
      OfKindSplit(ls);
      r
  }

  // ---------------------------------------------------------------------
  // The registry: createPeerConnection and removal
  // ---------------------------------------------------------------------

  /** The connection `createPeerConnection` builds from the local stream. */
  function NewPeer(local: Option<seq<TrackRef>>, initiator: bool): Peer {
    Peer(if initiator then HaveLocalOffer else Stable, InitialSenders(local), [], 0)
  }

  /**
   * `createPeerConnection(id, initiator)`: an id already registered keeps its
   * connection and nothing changes; otherwise a connection is registered
   * whose senders are the local audio tracks followed by the local video
   * tracks, and an initiator sends an offer.
   */
  function CreatePeer(s: State, id: PeerId, initiator: bool): (r: State)
    requires Valid(s)
    ensures Valid(r)
    ensures id in s.peers ==> r == s
    ensures id in r.peers && r.peers.Keys == s.peers.Keys + {id}
    ensures forall o :: o in s.peers ==> r.peers[o] == s.peers[o]
    ensures id !in s.peers ==>
      && r.order == s.order + [id]
      && r.peers[id].senders == InitialSenders(s.localStream)
      && r.peers[id].signaling == (if initiator then HaveLocalOffer else Stable)
      && r.peers[id].candidates == [] && r.peers[id].iceRestarts == 0
      && r.outbox == s.outbox + (if initiator then [Offer(id)] else [])
    ensures r.(peers := s.peers, order := s.order, outbox := s.outbox) == s
  {
    if id in s.peers then s
    else
      var r := s.(peers := s.peers[id := NewPeer(s.localStream, initiator)],
                  order := s.order + [id],
                  outbox := if initiator then s.outbox + [Offer(id)] else s.outbox);
      assert forall x :: x in r.order <==> x in s.order || x == id;
      r
  }

  /** `xs` without `x`, order kept. */
  function Without(xs: seq<PeerId>, x: PeerId): (r: seq<PeerId>)
    ensures forall y :: y in r <==> y in xs && y != x
    ensures Distinct(xs) ==> Distinct(r)
    ensures |r| <= |xs|
  {
    if xs == [] then []
    else
      var rest := Without(xs[1..], x);
      assert xs == [xs[0]] + xs[1..];
      if xs[0] == x then rest
      else
        assert Distinct(xs) ==> xs[0] !in xs[1..] && Distinct(xs[1..]);
        [xs[0]] + rest
  }

  /** `pc.close(); delete peerConnections[id]` when present; every other entry is kept. */
  function RemovePeer(s: State, id: PeerId): (r: State)
    requires Valid(s)
    ensures Valid(r)
    ensures r.peers.Keys == s.peers.Keys - {id}
    ensures forall o :: o in r.peers ==> r.peers[o] == s.peers[o]
    ensures id !in s.peers ==> r.peers == s.peers
    ensures r.(peers := s.peers, order := s.order) == s
  {
    s.(peers := s.peers - {id}, order := Without(s.order, id))
  }

  // ---------------------------------------------------------------------
  // Signalling handlers (script.js:332-375, 426-462, 2346-2383, 2612-2627)
  // ---------------------------------------------------------------------

  /** `user-joined-voice`: the newcomer is connected to as initiator. */
  function OnUserJoinedVoice(s: State, id: PeerId): (r: State)
    requires Valid(s)
    ensures Valid(r)
    ensures id in s.peers ==> r == s
    ensures r.peers.Keys == s.peers.Keys + {id}
    ensures forall o :: o in s.peers ==> r.peers[o] == s.peers[o]
    ensures id !in s.peers ==>
      && r.order == s.order + [id]
      && r.peers[id].signaling == HaveLocalOffer
      && r.peers[id].senders == InitialSenders(s.localStream)
      && r.peers[id].candidates == [] && r.peers[id].iceRestarts == 0
      && r.outbox == s.outbox + [Offer(id)]
    ensures r.(peers := s.peers, order := s.order, outbox := s.outbox) == s
  {
    CreatePeer(s, id, true)
  }

  /** `existing-voice-users`: a responder connection to each user, in list order. */
  function OnExistingVoiceUsers(s: State, ids: seq<PeerId>): (r: State)
    requires Valid(s)
    ensures Valid(r)
    ensures forall o :: o in r.peers <==> o in s.peers || o in ids
    ensures r.(peers := s.peers, order := s.order) == s
    decreases |ids|
  {
    if ids == [] then s
    else
      var s1 := CreatePeer(s, ids[0], false);
      assert forall o :: o in ids <==> o == ids[0] || o in ids[1..];
      OnExistingVoiceUsers(s1, ids[1..])
  }

  /** `user-left-voice`: the named connection is closed and forgotten. */
  function OnUserLeftVoice(s: State, id: PeerId): (r: State)
    requires Valid(s)
    ensures Valid(r)
    ensures id !in r.peers && r.peers.Keys == s.peers.Keys - {id}
    ensures forall o :: o in r.peers ==> r.peers[o] == s.peers[o]
    ensures r.order == Without(s.order, id)
    ensures r.(peers := s.peers, order := s.order) == s
  {
    RemovePeer(s, id)
  }

  /**
   * `offer`: a responder connection is created when none exists, the offer
   * is applied whatever the connection's own state (no glare handling), and
   * an answer is sent.
   */
  function OnOffer(s: State, from: PeerId): (r: State)
    requires Valid(s)
    ensures Valid(r)
    ensures r.peers == s.peers[from := if from in s.peers then s.peers[from].(signaling := Stable) else NewPeer(s.localStream, false)]
    ensures r.outbox == s.outbox + [Answer(from)]
    ensures r.order == if from in s.peers then s.order else s.order + [from]
    ensures r.(peers := s.peers, order := s.order, outbox := s.outbox) == s
  {
    if from in s.peers then
      var r := s.(peers := s.peers[from := s.peers[from].(signaling := Stable)], outbox := s.outbox + [Answer(from)]);
      assert r.peers.Keys == s.peers.Keys;
      r
    else
      s.(peers := s.peers[from := NewPeer(s.localStream, false)], order := s.order + [from], outbox := s.outbox + [Answer(from)])
  }

  /** `answer`: a connection waiting on its own offer becomes stable; otherwise nothing changes. */
  function OnAnswer(s: State, from: PeerId): (r: State)
    requires Valid(s)
    ensures Valid(r)
    ensures r.peers.Keys == s.peers.Keys
    ensures forall o :: o in s.peers && o != from ==> r.peers[o] == s.peers[o]
    ensures from in s.peers && s.peers[from].signaling == HaveLocalOffer ==>
      r.peers[from] == s.peers[from].(signaling := Stable)
    ensures !(from in s.peers && s.peers[from].signaling == HaveLocalOffer) ==> r == s
    ensures r.(peers := s.peers) == s
  {
    if from in s.peers && s.peers[from].signaling == HaveLocalOffer then
      UpdatePeer(s, from, s.peers[from].(signaling := Stable))
    else s
  }

  /**
   * `ice-candidate`: handed to the sender's connection when it exists and the
   * candidate is not null; otherwise dropped (nothing is buffered).
   */
  function OnIceCandidate(s: State, from: PeerId, c: Option<Candidate>): (r: State)
    requires Valid(s)
    ensures Valid(r)
    ensures r.peers.Keys == s.peers.Keys
    ensures forall o :: o in s.peers && o != from ==> r.peers[o] == s.peers[o]
    ensures from in s.peers && c.Some? ==>
      r.peers[from] == s.peers[from].(candidates := s.peers[from].candidates + [c.value])
    ensures from !in s.peers || c.None? ==> r == s
    ensures r.(peers := s.peers) == s
  {
    if from in s.peers && c.Some? then
      var p := s.peers[from];
      UpdatePeer(s, from, p.(candidates := p.candidates + [c.value]))
    else s
  }

  /** `pc.onicecandidate`: a local candidate of a live connection is sent to its peer. */
  function OnLocalIceCandidate(s: State, id: PeerId, c: Option<Candidate>): (r: State)
    requires Valid(s)
    ensures Valid(r)
    ensures r.outbox == s.outbox + (if id in s.peers && c.Some? then [IceCandidate(id)] else [])
    ensures r.(outbox := s.outbox) == s
  {
    if id in s.peers && c.Some? then s.(outbox := s.outbox + [IceCandidate(id)]) else s
  }

  /** ICE state `failed`: `restartIce` on the same connection; the connection stays. */
  function OnIceFailed(s: State, id: PeerId): (r: State)
    requires Valid(s)
    ensures Valid(r)
    ensures r.peers.Keys == s.peers.Keys
    ensures id in s.peers ==> r.peers[id] == s.peers[id].(iceRestarts := s.peers[id].iceRestarts + 1)
    ensures forall o :: o in s.peers && o != id ==> r.peers[o] == s.peers[o]
    ensures r.(peers := s.peers) == s
  {
    if id in s.peers then
      UpdatePeer(s, id, s.peers[id].(iceRestarts := s.peers[id].iceRestarts + 1))
    else s
  }

  /** `call-accepted`: the caller connects as initiator when no connection exists yet. */
  function OnCallAccepted(s: State, from: PeerId): (r: State)
    requires Valid(s)
    ensures Valid(r)
    ensures from in s.peers ==> r == s
    ensures r.peers.Keys == s.peers.Keys + {from}
    ensures forall o :: o in s.peers ==> r.peers[o] == s.peers[o]
    ensures from !in s.peers ==>
      && r.order == s.order + [from]
      && r.peers[from].signaling == HaveLocalOffer
      && r.peers[from].senders == InitialSenders(s.localStream)
      && r.peers[from].candidates == [] && r.peers[from].iceRestarts == 0
      && r.outbox == s.outbox + [Offer(from)]
    ensures r.(peers := s.peers, order := s.order, outbox := s.outbox) == s
  {
    if from in s.peers then s else CreatePeer(s, from, true)
  }

  /**
   * `call-rejected`: the local tracks are stopped, the local stream dropped
   * and the call flag cleared; connections, screen stream and the other flags
   * are left as they are.
   */
  function OnCallRejected(s: State): (r: State)
    requires Valid(s)
    ensures Valid(r)
    ensures !r.inCall && r.localStream.None?
    ensures forall t :: t in r.tracks && t in LocalTracks(s) ==> r.tracks[t].stopped
    ensures r.tracks == StopAll(s.tracks, LocalTracks(s))
    ensures r.(inCall := s.inCall, localStream := s.localStream, tracks := s.tracks) == s
  {
    match s.localStream
    case None => s.(inCall := false)
    case Some(ls) => s.(tracks := StopAll(s.tracks, ls), localStream := None, inCall := false)
  }

  /**
   * `call-ended`: the sender's connection goes; if none is left, the call is
   * left by force.
   */
  function OnCallEnded(s: State, from: PeerId, connected: bool, mobile: bool, channel: string): (r: State)
    requires Valid(s)
    ensures Valid(r)
    ensures s.peers.Keys - {from} != {} ==> r == RemovePeer(s, from)
    ensures s.peers.Keys - {from} == {} ==> r.peers == map[] && r.order == []
    ensures s.peers.Keys - {from} == {} && s.inCall ==> r == ForcedLeave(RemovePeer(s, from), connected, mobile, channel)
    ensures s.peers.Keys - {from} == {} && !s.inCall ==> r == RemovePeer(s, from)
  {
    var s1 := RemovePeer(s, from);
    RegistryEmptiness(s1);
    if s1.order == [] then LeaveVoiceChannel(s1, true, connected, mobile, channel) else s1
  }

  // ---------------------------------------------------------------------
  // Joining and leaving (script.js:1760-1876, 735-899)
  // ---------------------------------------------------------------------

  /** A fresh live track of kind `k`. */
  function Capture(s: State, k: Kind): (r: (State, TrackRef))
    requires Valid(s)
    ensures Valid(r.0)
    ensures r.1 == TrackRef(s.nextTrack, k) && r.1 !in s.tracks
    ensures r.0 == s.(tracks := s.tracks[r.1 := FreshTrack], nextTrack := s.nextTrack + 1)
  {
    var t := TrackRef(s.nextTrack, k);
    (s.(tracks := s.tracks[t := FreshTrack], nextTrack := s.nextTrack + 1), t)
  }

  /**
   * The forced branch of `leaveVoiceChannel`: every local and screen track is
   * stopped, both streams are dropped, a leave is emitted when connected,
   * every connection is closed, and the flags are reset.
   */
  function ForcedLeave(s: State, connected: bool, mobile: bool, channel: string): (r: State)
    requires Valid(s)
    ensures Valid(r)
    ensures !r.inCall && r.localStream.None? && r.screenStream.None?
    ensures r.peers == map[] && r.order == []
    ensures r.isAudioEnabled && r.isVideoEnabled == mobile
    ensures r.tracks.Keys == s.tracks.Keys
    ensures forall t :: t in r.tracks && (t in LocalTracks(s) || t in ScreenTracks(s)) ==> r.tracks[t].stopped
    ensures forall t :: t in r.tracks && t !in LocalTracks(s) && t !in ScreenTracks(s) ==> r.tracks[t] == s.tracks[t]
    ensures r.outbox == s.outbox + (if connected then [LeaveVoice(channel)] else [])
    ensures r.isMuted == s.isMuted && r.isDeafened == s.isDeafened && r.remoteVolume == s.remoteVolume
    ensures r.nextTrack == s.nextTrack && r.callDetails == s.callDetails
  {
    s.(inCall := false,
       tracks := StopAll(StopAll(s.tracks, LocalTracks(s)), ScreenTracks(s)),
       localStream := None,
       screenStream := None,
       outbox := if connected then s.outbox + [LeaveVoice(channel)] else s.outbox,
       peers := map[],
       order := [],
       isVideoEnabled := mobile,
       isAudioEnabled := true)
  }

  /** `leaveVoiceChannel(force)`: nothing outside a call, only UI without `force`. */
  function LeaveVoiceChannel(s: State, force: bool, connected: bool, mobile: bool, channel: string): (r: State)
    requires Valid(s)
    ensures Valid(r)
    ensures !s.inCall || !force ==> r == s
    ensures s.inCall && force ==> r == ForcedLeave(s, connected, mobile, channel)
  {
    if !s.inCall || !force then s else ForcedLeave(s, connected, mobile, channel)
  }

  /**
   * `joinVoiceChannel` with `initializeMedia`: a no-op while in a call;
   * otherwise the call flag is set and either an audio-only stream is
   * captured (disabled when muted or deafened) and the join is emitted, or
   * capture fails and the call is left by force.
   */
  function JoinVoiceChannel(s: State, voiceChannel: string, mediaOk: bool, connected: bool,
                            mobile: bool, currentChannel: string): (r: State)
    requires Valid(s)
    ensures Valid(r)
    ensures s.inCall ==> r == s
    ensures !s.inCall && !mediaOk ==> r == ForcedLeave(s.(inCall := true), connected, mobile, currentChannel)
    ensures !s.inCall && mediaOk ==>
      var a := TrackRef(s.nextTrack, Audio);
      && r.inCall && a !in s.tracks
      && r.localStream == Some([a])
      && r.tracks == s.tracks[a := TrackState(!(s.isMuted || s.isDeafened), false)]
      && r.outbox == s.outbox + (if connected then [JoinVoice(voiceChannel)] else [])
      && r.peers == s.peers && r.order == s.order
  {
    if s.inCall then s
    else
      var s1 := s.(inCall := true);
      if !mediaOk then ForcedLeave(s1, connected, mobile, currentChannel)
      else
        var (s2, a) := Capture(s1, Audio);
        var s3 := s2.(localStream := Some([a]));
        var s4 := if s.isMuted || s.isDeafened then s3.(tracks := SetEnabled(s3.tracks, [a], Audio, false)) else s3;
        assert s4.tracks == s.tracks[a := TrackState(!(s.isMuted || s.isDeafened), false)];
        s4.(outbox := if connected then s4.outbox + [JoinVoice(voiceChannel)] else s4.outbox)
  }

  /** The stream a direct call captures: audio, plus camera on a phone layout. */
  function CaptureCallStream(s: State, mobile: bool): (r: (State, seq<TrackRef>))
    requires Valid(s)
    ensures Valid(r.0)
    ensures |r.1| == (if mobile then 2 else 1)
    ensures r.1[0] == TrackRef(s.nextTrack, Audio)
    ensures mobile ==> r.1[1] == TrackRef(s.nextTrack + 1, Video)
    ensures r.0.tracks.Keys == s.tracks.Keys + set t | t in r.1
    ensures forall t :: t in r.1 ==> t !in s.tracks && r.0.tracks[t] == FreshTrack
    ensures forall t :: t in s.tracks ==> r.0.tracks[t] == s.tracks[t]
    ensures r.0 == s.(tracks := r.0.tracks, nextTrack := r.0.nextTrack)
  {
    var (s1, a) := Capture(s, Audio);
    if mobile then
      var (s2, v) := Capture(s1, Video);
      (s2, [a, v])
    else (s1, [a])
  }

  /**
   * What `initiateCall` and `acceptCall` do once `getUserMedia` succeeded:
   * the captured stream replaces the local stream, the signal `m` is emitted
   * when connected, and the call flags are set; the registry, the screen
   * stream, mute, deafen and volume are left as they are.
   */
  function StartCall(s: State, m: Signal, connected: bool, mobile: bool): (r: State)
    requires Valid(s)
    ensures Valid(r)
    ensures r.inCall && r.callDetails && r.isAudioEnabled && r.isVideoEnabled == mobile
    ensures r.localStream.Some? && |r.localStream.value| == (if mobile then 2 else 1)
    ensures r.localStream.value[0] == TrackRef(s.nextTrack, Audio)
    ensures mobile ==> r.localStream.value[1] == TrackRef(s.nextTrack + 1, Video)
    ensures forall t :: t in r.localStream.value ==> t !in s.tracks && r.tracks[t] == FreshTrack
    ensures forall t :: t in s.tracks ==> t in r.tracks && r.tracks[t] == s.tracks[t]
    ensures r.outbox == s.outbox + (if connected then [m] else [])
    ensures r.(inCall := s.inCall, callDetails := s.callDetails, isAudioEnabled := s.isAudioEnabled,
               isVideoEnabled := s.isVideoEnabled, localStream := s.localStream, tracks := s.tracks,
               nextTrack := s.nextTrack, outbox := s.outbox) == s
  {
    var (s1, ts) := CaptureCallStream(s, mobile);
    s1.(localStream := Some(ts),
        outbox := if connected then s1.outbox + [m] else s1.outbox,
        callDetails := true,
        inCall := true,
        isVideoEnabled := mobile,
        isAudioEnabled := true)
  }

  /**
   * `initiateCall`: on capture failure nothing changes; otherwise the new
   * stream replaces the local stream (there is no guard against a call in
   * progress), the request is emitted when connected, and the call flags are
   * set.
   */
  function InitiateCall(s: State, friend: JsText.JsId, callType: string, mediaOk: bool,
                        connected: bool, mobile: bool): (r: State)
    requires Valid(s)
    ensures Valid(r)
    ensures !mediaOk ==> r == s
    ensures mediaOk ==>
      && r.inCall && r.callDetails && r.isAudioEnabled && r.isVideoEnabled == mobile
      && r.localStream.Some? && |r.localStream.value| == (if mobile then 2 else 1)
      && r.localStream.value[0] == TrackRef(s.nextTrack, Audio)
      && (mobile ==> r.localStream.value[1] == TrackRef(s.nextTrack + 1, Video))
      && (forall t :: t in r.localStream.value ==> t !in s.tracks && r.tracks[t] == FreshTrack)
      && (forall t :: t in s.tracks ==> t in r.tracks && r.tracks[t] == s.tracks[t])
      && r.outbox == s.outbox + (if connected then [CallRequest(friend, callType)] else [])
    ensures r.(inCall := s.inCall, callDetails := s.callDetails, isAudioEnabled := s.isAudioEnabled,
               isVideoEnabled := s.isVideoEnabled, localStream := s.localStream, tracks := s.tracks,
               nextTrack := s.nextTrack, outbox := s.outbox) == s
  {
    if !mediaOk then s else StartCall(s, CallRequest(friend, callType), connected, mobile)
  }

  /**
   * `acceptCall`: like `initiateCall` with an accept emitted instead, and a
   * responder connection to the caller when none exists yet.
   */
  function AcceptCall(s: State, caller: PeerId, mediaOk: bool, connected: bool, mobile: bool): (r: State)
    requires Valid(s)
    ensures Valid(r)
    ensures !mediaOk ==> r == s
    ensures mediaOk ==>
      && r.inCall && r.callDetails && r.isAudioEnabled && r.isVideoEnabled == mobile
      && r.localStream.Some? && |r.localStream.value| == (if mobile then 2 else 1)
      && r.localStream.value[0] == TrackRef(s.nextTrack, Audio)
      && (mobile ==> r.localStream.value[1] == TrackRef(s.nextTrack + 1, Video))
      && (forall t :: t in r.localStream.value ==> t !in s.tracks && r.tracks[t] == FreshTrack)
      && (forall t :: t in s.tracks ==> t in r.tracks && r.tracks[t] == s.tracks[t])
      && r.peers.Keys == s.peers.Keys + {caller}
      && (forall o :: o in s.peers ==> r.peers[o] == s.peers[o])
      && r.order == (if caller in s.peers then s.order else s.order + [caller])
      && (caller !in s.peers ==>
            && r.peers[caller].signaling == Stable
            && r.peers[caller].senders == InitialSenders(r.localStream)
            && r.peers[caller].candidates == [] && r.peers[caller].iceRestarts == 0)
      && r.outbox == s.outbox + (if connected then [CallAccept(caller)] else [])
    ensures r.(inCall := s.inCall, callDetails := s.callDetails, isAudioEnabled := s.isAudioEnabled,
               isVideoEnabled := s.isVideoEnabled, localStream := s.localStream, tracks := s.tracks,
               nextTrack := s.nextTrack, outbox := s.outbox, peers := s.peers, order := s.order) == s
  {
    if !mediaOk then s
    else
      var s2 := StartCall(s, CallAccept(caller), connected, mobile);
      CreatePeer(s2, caller, false)
  }

  /** `rejectCall`: the reject is emitted when connected; nothing else changes. */
  function RejectCall(s: State, caller: PeerId, connected: bool): (r: State)
    requires Valid(s)
    ensures Valid(r)
    ensures r.outbox == s.outbox + (if connected then [CallReject(caller)] else [])
    ensures r.(outbox := s.outbox) == s
  {
    if connected then s.(outbox := s.outbox + [CallReject(caller)]) else s
  }

  /** One `end-call` per registered connection, in registry order. */
  function EndCalls(ids: seq<PeerId>): (r: seq<Signal>)
    ensures |r| == |ids| && forall i :: 0 <= i < |ids| ==> r[i] == CallEnd(ids[i])
  {
    seq(|ids|, i requires 0 <= i < |ids| => CallEnd(ids[i]))
  }

  /**
   * The close-call button: after a direct call was set up, `end-call` goes to
   * every connection when connected; then the call is left by force.
   */
  function CloseCall(s: State, connected: bool, mobile: bool, channel: string): (r: State)
    requires Valid(s)
    ensures Valid(r)
    ensures var s1 := if s.callDetails && connected then s.(outbox := s.outbox + EndCalls(s.order)) else s;
      r == LeaveVoiceChannel(s1, true, connected, mobile, channel)
  {
    var s1 := if s.callDetails && connected then s.(outbox := s.outbox + EndCalls(s.order)) else s;
    LeaveVoiceChannel(s1, true, connected, mobile, channel)
  }

  // ---------------------------------------------------------------------
  // Mute, deafen, toggleAudio (script.js:1704-1745, 1983-1997)
  // ---------------------------------------------------------------------

  /** Every local audio track is enabled exactly when not muted. */
  ghost predicate LocalAudioFollowsMute(s: State) {
    forall t :: t in LocalTracks(s) && t.kind == Audio && t in s.tracks ==> s.tracks[t].enabled == !s.isMuted
  }

  /** The mute button: flips `isMuted` and applies it to the local audio tracks. */
  function MuteClick(s: State): (r: State)
    requires Valid(s)
    ensures Valid(r)
    ensures r.isMuted == !s.isMuted
    ensures LocalAudioFollowsMute(r)
    ensures r.tracks == SetEnabled(s.tracks, LocalTracks(s), Audio, r.isMuted == false)
    ensures r.(isMuted := s.isMuted, tracks := s.tracks) == s
  {
    var m := !s.isMuted;
    s.(isMuted := m, tracks := SetEnabled(s.tracks, LocalTracks(s), Audio, !m))
  }

  /**
   * The deafen button: flips `isDeafened`; deafening also mutes, undeafening
   * leaves `isMuted` alone; remote playback is silenced exactly while
   * deafened; the local audio tracks follow `isMuted`.
   */
  function DeafenClick(s: State): (r: State)
    requires Valid(s)
    ensures Valid(r)
    ensures r.isDeafened == !s.isDeafened
    ensures r.isDeafened ==> r.isMuted
    ensures !r.isDeafened ==> r.isMuted == s.isMuted
    ensures r.remoteVolume == (if r.isDeafened then 0 else 1)
    ensures LocalAudioFollowsMute(r)
    ensures r.(isMuted := s.isMuted, isDeafened := s.isDeafened, remoteVolume := s.remoteVolume, tracks := s.tracks) == s
  {
    var d := !s.isDeafened;
    var m := if d then true else s.isMuted;
    s.(isDeafened := d, isMuted := m, remoteVolume := if d then 0 else 1,
       tracks := SetEnabled(s.tracks, LocalTracks(s), Audio, !m))
  }

  /**
   * `toggleAudio`: without a local stream nothing changes; otherwise flips
   * `isAudioEnabled`, applies it to the local audio tracks and sets
   * `isMuted` to its negation.
   */
  function ToggleAudio(s: State): (r: State)
    requires Valid(s)
    ensures Valid(r)
    ensures s.localStream.None? ==> r == s
    ensures s.localStream.Some? ==>
      && r.isAudioEnabled == !s.isAudioEnabled
      && r.isMuted == !r.isAudioEnabled
      && LocalAudioFollowsMute(r)
      && r.(isAudioEnabled := s.isAudioEnabled, isMuted := s.isMuted, tracks := s.tracks) == s
  {
    match s.localStream
    case None => s
    case Some(ls) =>
      var a := !s.isAudioEnabled;
      s.(isAudioEnabled := a, tracks := SetEnabled(s.tracks, ls, Audio, a), isMuted := !a)
  }

  // ---------------------------------------------------------------------
  // Camera (script.js:1910-1980)
  // ---------------------------------------------------------------------

  /** One `video-toggle` per registered connection, in registry order. */
  function VideoToggles(ids: seq<PeerId>, enabled: bool): (r: seq<Signal>)
    ensures |r| == |ids| && forall i :: 0 <= i < |ids| ==> r[i] == VideoToggle(ids[i], enabled)
  {
    seq(|ids|, i requires 0 <= i < |ids| => VideoToggle(ids[i], enabled))
  }

  /**
   * `disableVideo`: every local video track is stopped and removed from the
   * local stream, and every connection's video sender is set to null.
   */
  function DisableVideo(s: State): (r: State)
    requires Valid(s) && s.localStream.Some?
    ensures Valid(r)
    ensures r.localStream == Some(OfKind(s.localStream.value, Audio))
    ensures forall t :: t in r.tracks && t in s.localStream.value && t.kind == Video ==> r.tracks[t].stopped
    ensures r.tracks == StopAll(s.tracks, OfKind(s.localStream.value, Video))
    ensures r.peers == ReplaceVideoEverywhere(s.peers, None)
    ensures r.(localStream := s.localStream, tracks := s.tracks, peers := s.peers) == s
    ensures r.order == s.order && r.outbox == s.outbox
  {
    var ls := s.localStream.value;
    s.(tracks := StopAll(s.tracks, OfKind(ls, Video)),
       localStream := Some(OfKind(ls, Audio)),
       peers := ReplaceVideoEverywhere(s.peers, None))
  }

  /** The local stream carries a camera track. */
  predicate HasCamera(s: State) {
    s.localStream.Some? && OfKind(s.localStream.value, Video) != []
  }

  /**
   * A camera track captured while the local stream has none: it joins the
   * local stream and is sent to every connection (into its video sender,
   * else as a new sender).
   */
  function AddCamera(s: State): (r: State)
    requires Valid(s) && s.localStream.Some?
    ensures Valid(r)
    ensures var v := TrackRef(s.nextTrack, Video);
      && v !in s.tracks && r.tracks == s.tracks[v := FreshTrack] && r.nextTrack == s.nextTrack + 1
      && r.localStream == Some(s.localStream.value + [v])
      && r.peers == AttachVideoEverywhere(s.peers, v)
      && r.(tracks := s.tracks, nextTrack := s.nextTrack, localStream := s.localStream, peers := s.peers) == s
  {
    var (s1, v) := Capture(s, Video);
    s1.(localStream := Some(s.localStream.value + [v]), peers := AttachVideoEverywhere(s.peers, v))
  }

  /**
   * `enableVideo`: without a camera track one is captured and added, or on
   * capture failure `isVideoEnabled` is cleared; then every local video track
   * is enabled (a track just captured is enabled already and is then the
   * only one).
   */
  function EnableVideo(s: State, cameraOk: bool): (r: State)
    requires Valid(s) && s.localStream.Some?
    ensures Valid(r)
    ensures HasCamera(s) ==> r == s.(tracks := SetEnabled(s.tracks, s.localStream.value, Video, true))
    ensures !HasCamera(s) && !cameraOk ==> r == s.(isVideoEnabled := false)
    ensures !HasCamera(s) && cameraOk ==> r == AddCamera(s)
  {
    if HasCamera(s) then
      var tracks := SetEnabled(s.tracks, s.localStream.value, Video, true);
      ValidWithTracks(s, tracks);
      s.(tracks := tracks)
    else if cameraOk then AddCamera(s)
    else s.(isVideoEnabled := false)
  }

  /**
   * `toggleVideo`: without a local stream nothing changes; otherwise flips
   * `isVideoEnabled`, enables or disables the camera, and tells every
   * connection the flipped value when connected (the toggles are emitted
   * before the camera capture completes, so they carry the flipped value
   * even when that capture fails).
   */
  function ToggleVideo(s: State, cameraOk: bool, connected: bool): (r: State)
    requires Valid(s)
    ensures Valid(r)
    ensures s.localStream.None? ==> r == s
    ensures s.localStream.Some? ==>
      r.outbox == s.outbox + (if connected then VideoToggles(s.order, !s.isVideoEnabled) else [])
  {
    match s.localStream
    case None => s
    case Some(_) =>
      var s1 := s.(isVideoEnabled := !s.isVideoEnabled);
      var s2 := if s1.isVideoEnabled then EnableVideo(s1, cameraOk) else DisableVideo(s1);
      s2.(outbox := s.outbox + if connected then VideoToggles(s.order, !s.isVideoEnabled) else [])
  }

  // ---------------------------------------------------------------------
  // Screen share and renegotiation (script.js:2000-2119)
  // ---------------------------------------------------------------------

  /**
   * The offers a renegotiation sends: one per stable connection, in registry
   * order (an id without a connection is skipped).
   */
  function Offers(ids: seq<PeerId>, peers: map<PeerId, Peer>): (r: seq<Signal>)
    ensures |r| <= |ids|
    ensures forall i :: 0 <= i < |r| ==> r[i].Offer?
    decreases |ids|
  {
    if ids == [] then []
    else
      var here := if ids[0] in peers && peers[ids[0]].signaling == Stable then [Offer(ids[0])] else [];
      here + Offers(ids[1..], peers)
  }

  /** Visiting one more id appends that id's offer, if any, to those already sent. */
  lemma {:induction false} OffersSnoc(ids: seq<PeerId>, x: PeerId, peers: map<PeerId, Peer>)
    ensures Offers(ids + [x], peers) ==
      Offers(ids, peers) + (if x in peers && peers[x].signaling == Stable then [Offer(x)] else [])
    decreases |ids|
  {
    if ids == [] {
      assert [] + [x] == [x];
    } else {
      assert (ids + [x])[1..] == ids[1..] + [x];
      OffersSnoc(ids[1..], x, peers);
    }
  }

  /**
   * What renegotiation does to one connection: a stable one makes an offer
   * and is left awaiting the answer; one already awaiting an answer is
   * skipped.
   */
  function Renegotiated(p: Peer): (r: Peer)
    ensures r.(signaling := p.signaling) == p
    ensures p.signaling == Stable ==> r.signaling == HaveLocalOffer
    ensures p.signaling != Stable ==> r == p
  {
    if p.signaling == Stable then p.(signaling := HaveLocalOffer) else p
  }

  function RenegotiateEverywhere(peers: map<PeerId, Peer>): (r: map<PeerId, Peer>)
    ensures r.Keys == peers.Keys
    ensures forall id :: id in r ==> r[id] == Renegotiated(peers[id])
  {
    map id | id in peers :: Renegotiated(peers[id])
  }

  /**
   * `renegotiateAllPeers`: nothing when disconnected; otherwise every stable
   * connection makes an offer, which is sent, and every other connection is
   * skipped.
   */
  function RenegotiateAllPeers(s: State, connected: bool): (r: State)
    requires Valid(s)
    ensures Valid(r)
    ensures !connected ==> r == s
    ensures connected ==> r == s.(peers := RenegotiateEverywhere(s.peers), outbox := s.outbox + Offers(s.order, s.peers))
  {
    if !connected then s
    else
      var r := s.(peers := RenegotiateEverywhere(s.peers), outbox := s.outbox + Offers(s.order, s.peers));
      assert forall id :: id in r.peers <==> id in s.peers;
      r
  }

  /**
   * Stopping a screen share: the screen tracks are stopped; then every video
   * sender gets the camera track when video is enabled (null otherwise) and
   * the screen stream is dropped. With video enabled but no local stream the
   * camera lookup throws, so only the stopping happens.
   */
  function StopScreenShare(s: State): (r: State)
    requires Valid(s) && s.screenStream.Some?
    ensures Valid(r)
    ensures r.tracks == StopAll(s.tracks, s.screenStream.value)
    ensures s.isVideoEnabled && s.localStream.None? ==> r == s.(tracks := r.tracks)
    ensures !(s.isVideoEnabled && s.localStream.None?) ==>
      var cam := if s.isVideoEnabled then First(OfKind(s.localStream.value, Video)) else None;
      r == s.(tracks := r.tracks, peers := ReplaceVideoEverywhere(s.peers, cam), screenStream := None)
  {
    var s1 := s.(tracks := StopAll(s.tracks, s.screenStream.value));
    if s.isVideoEnabled && s.localStream.None? then s1
    else
      var cam := if s.isVideoEnabled then First(OfKind(s.localStream.value, Video)) else None;
      var r := s1.(peers := ReplaceVideoEverywhere(s.peers, cam), screenStream := None);
      assert forall id :: id in r.peers <==> id in s.peers;
      r
  }

  /** The display stream: a video track, and an audio track when the display shares audio. */
  function CaptureDisplay(s: State, withAudio: bool): (r: (State, seq<TrackRef>))
    requires Valid(s)
    ensures Valid(r.0)
    ensures |r.1| == (if withAudio then 2 else 1)
    ensures r.1[0] == TrackRef(s.nextTrack, Video)
    ensures withAudio ==> r.1[1] == TrackRef(s.nextTrack + 1, Audio)
    ensures r.0.tracks.Keys == s.tracks.Keys + set t | t in r.1
    ensures forall t :: t in r.1 ==> t !in s.tracks && r.0.tracks[t] == FreshTrack
    ensures forall t :: t in s.tracks ==> r.0.tracks[t] == s.tracks[t]
    ensures r.0 == s.(tracks := r.0.tracks, nextTrack := r.0.nextTrack)
  {
    var (s1, v) := Capture(s, Video);
    if withAudio then
      var (s2, a) := Capture(s1, Audio);
      (s2, [v, a])
    else (s1, [v])
  }

  /**
   * Starting a screen share: the display track is sent to every connection
   * (into its video sender, else as a new sender), and if any connection
   * needed a new sender, every connection is renegotiated.
   */
  function StartScreenShare(s: State, withAudio: bool, connected: bool): (r: State)
    requires Valid(s)
    ensures Valid(r)
    ensures var (s1, ts) := CaptureDisplay(s, withAudio);
      var s2 := s1.(screenStream := Some(ts), peers := AttachVideoEverywhere(s.peers, ts[0]));
      r == if SomePeerLacksVideo(s.peers) then RenegotiateAllPeers(s2, connected) else s2
  {
    var (s1, ts) := CaptureDisplay(s, withAudio);
    var s2 := s1.(screenStream := Some(ts), peers := AttachVideoEverywhere(s.peers, ts[0]));
    assert forall id :: id in s2.peers <==> id in s.peers;
    if SomePeerLacksVideo(s.peers) then RenegotiateAllPeers(s2, connected) else s2
  }

  /**
   * `toggleScreenShare`: nothing where display capture is unavailable (a
   * phone layout, or no `getDisplayMedia`); otherwise stops the share when
   * one is on, else starts one unless display capture fails.
   */
  function ToggleScreenShare(s: State, supported: bool, displayOk: bool, withAudio: bool, connected: bool): (r: State)
    requires Valid(s)
    ensures Valid(r)
    ensures !supported ==> r == s
    ensures supported && s.screenStream.Some? ==> r == StopScreenShare(s)
    ensures supported && s.screenStream.None? && !displayOk ==> r == s
    ensures supported && s.screenStream.None? && displayOk ==> r == StartScreenShare(s, withAudio, connected)
  {
    if !supported then s
    else if s.screenStream.Some? then StopScreenShare(s)
    else if !displayOk then s
    else StartScreenShare(s, withAudio, connected)
  }

  /** `screenTrack.onended` (sharing stopped from the browser): stops the share if one is on. */
  function OnScreenTrackEnded(s: State, supported: bool, connected: bool): (r: State)
    requires Valid(s)
    ensures Valid(r)
    ensures s.screenStream.None? ==> r == s
    ensures s.screenStream.Some? ==> r == ToggleScreenShare(s, supported, false, false, connected)
  {
    if s.screenStream.Some? then ToggleScreenShare(s, supported, false, false, connected) else s
  }
}
