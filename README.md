# Call controller of the disc113 chat client, in Dafny

This project models the voice/video call controller of the browser client
`script.js`. The controller is made of:

- **The call globals**: `inCall`, the mute, deafen, audio and video flags, the
  local stream and the screen stream.
- **The registry of peer connections**: `peerConnections`, keyed by the remote
  socket id.
- **The handlers that change that state**:
  - the socket events of the signalling relay (user joined/left, offer, answer,
    ICE candidate, call accepted/rejected/ended);
  - the connection callbacks (local ICE candidate, ICE failure);
  - the call buttons (join, leave, close, mute, deafen, camera, microphone,
    screen share);
  - the direct-call flow (initiate, accept, reject).

Around the controller sit:

- the voice-activity hysteresis of `monitorSpeaking`;
- the small pure helpers: channel name/id mapping, the mute storage key,
  server ownership, server finder, user search, and the guards of
  `sendMessage`.

## Layout

- `wrappers.dfy` holds `Option`, standing in for JavaScript's null and undefined.
- `js_text.dfy` holds `trim`, `toLowerCase` (on the Latin, Latin-1, Greek and
  Cyrillic capitals), `includes`, and `String(x)` of a numeric or string id.
- `helpers.dfy` holds the pure helpers.
- `media.dfy` holds the tracks.
  - A track is a `TrackRef`: an identity plus a kind that never changes.
  - Its mutable part (`enabled`, stopped) lives in one table shared by every
    stream and sender. Muting a track is therefore seen wherever the track is
    attached.
- `session.dfy` holds the controller as values.
  - The state is a `Session.State`.
  - Each handler is one function from the state before to the state after.
  - `Valid` is the invariant every handler keeps:
    - one connection per id;
    - the registry's insertion order is remembered;
    - every streamed track is in the track table.
- `session_props.dfy` holds properties relating several handlers or values.
- `controller.dfy` holds `CallController`, the controller as the page runs it.
  - The globals are fields that the handlers update in place.
  - Every `forEach` over tracks or over the registry is a `while` loop with
    its invariants.
  - Each method is proved to leave the fields exactly as the corresponding
    `Session` function says.
- `events.dfy` holds every event as one `Step`, and runs of events. It proves
  two things about every reachable state:
  - nothing emitted is ever withdrawn;
  - remote playback is silent exactly while deafened.
- `voice_activity.dfy` holds the speaking detector: a value-level `Step` and a
  `SpeakingMonitor` class whose `Tick` updates its counters in place.

## Modelling choices

**Environment as parameters.** The environment is passed into each handler as
parameters:

- `socket.connected` becomes `connected`;
- `isMobileLayout()` becomes `mobile`;
- the outcome of `getUserMedia` becomes `mediaOk` or `cameraOk`;
- the outcome of `getDisplayMedia` becomes `displayOk`, and whether it
  carries audio becomes `withAudio`;
- whether screen capture exists becomes `supported`;
- the loudness test of a frame becomes `loud`.

**Signals.** What the client emits is appended to `outbox` as a `Signal`.
SDP bodies and candidates are opaque.

**Connections.** A connection is reduced to four parts:

- its signalling state;
- its senders, in order;
- the remote candidates handed to it;
- the number of ICE restarts.

**Registry order.** The registry's key order matters because `Object.keys`
and `Object.values` follow insertion order for keys that are not
integer-like, and socket ids are not integer-like. That order decides the order of
emitted offers, video toggles and `end-call`s.

**Handlers run atomically.** Each handler runs to completion as one step. The
promises a handler awaits are taken to resolve before the next event.

**Where the code and the design notes disagree, the model follows the code:**

- Remote ICE candidates that arrive before their connection exists, or that
  are null, are dropped rather than buffered (script.js:370-375).
- An inbound offer is always applied and answered, even while the local side
  has an offer of its own outstanding. There is no glare resolution
  (script.js:352-361).
- ICE failure only calls `restartIce` on the same connection. There is no
  escalation and no reconnect (script.js:2377-2383).
- `initiateCall` has no guard against a call already in progress. It replaces
  the local stream (script.js:735-798).

**Behaviours of the code that the model keeps and states as lemmas:**

- Deafening forces mute, but the mute button and `toggleAudio` can unmute
  while still deafened (`SessionProps.MuteWhileDeafened`,
  `SessionProps.ToggleAudioIgnoresDeafen`,
  `Events.DeafenedAndUnmutedIsReachable`).
- A direct call captures a live microphone even when muted
  (`SessionProps.CallCaptureIgnoresMute`).
- `video-toggle` carries the flipped flag even when the camera capture then
  fails. The toggles are emitted before the capture resolves
  (`Session.ToggleVideo`).
- Stopping a screen share with video enabled but no local stream throws after
  the screen tracks are stopped. The stream and the senders are left as they
  were (`Session.StopScreenShare`).
- Turning the camera on never renegotiates, even when a sender has to be
  added. Screen sharing does renegotiate (`Session.EnableVideo`,
  `SessionProps.ScreenShareReachesEveryPeer`).

## Model

| member | source | states |
|---|---|---|
| JsText.TrimStart | script.js:571 | the result is a suffix of the input; everything dropped is white space; the result does not start with white space |
| JsText.TrimEnd | script.js:571 | the result is a prefix of the input; everything dropped is white space; the result does not end with white space |
| JsText.Trim | script.js:571 | the result is a slice of the input with only white space on either side, and neither its first nor its last character is white space |
| JsText.TrimEmpty | script.js:571-573 | a string trims to empty exactly when it is all white space, so `if (!query) return` fires exactly on blank input |
| JsText.ToLower | script.js:582 | same length; every character replaced by its lower case, for the Latin, Latin-1, Greek and Cyrillic capitals, and kept otherwise |
| JsText.LowerChar | script.js:582 | a capital moves to its small letter (32 code points on, or 80 for `Ѐ`-`Џ`), every other character is kept, and the result is never a capital |
| JsText.ToLowerIdempotent | script.js:170 | lower-casing an already lower-cased string changes nothing |
| JsText.Includes | script.js:582 | true exactly when the needle occurs at some position of the string |
| JsText.IncludesEmpty | script.js:174 | the empty string occurs in every string |
| JsText.NatDigits | script.js:91 | at least one digit, all decimal digits, no leading zero, more than one digit exactly from 10 up |
| JsText.NatDigitsInjective | script.js:91 | two naturals with the same decimal text are equal |
| JsText.IntToString | script.js:91 | never empty; starts with '-' exactly for a negative number |
| JsText.IntToStringInjective | script.js:91 | `String(a) === String(b)` for integers only when `a == b` |
| JsText.IdToString | script.js:91 | `String(x)` of a string id is the string itself |
| Helpers.ChannelIdByName | script.js:2197-2201 | the mapped id when the name is mapped, otherwise 1 for "general" and 2 for every other name |
| Helpers.ChannelNameById | script.js:2203-2208 | the mapped name when it is non-empty, otherwise "general" for 1 and "random" for every other id; never empty |
| Helpers.NameIdRoundTrip | script.js:2197-2208 | with mutually inverse maps, name to id to name gives the name back, for mapped names and for "general" when id 1 is free |
| Helpers.InitialMapsInverse | script.js:5-6 | the two maps the page starts with are inverse to each other |
| Helpers.UnknownNamesShareId | script.js:2200 | every unmapped name falls back to id 2, so unmapped names are not told apart |
| Helpers.ChannelIdByNameAsWritten | script.js:2197-2201 | the lookup as the code performs it: an inherited member comes back exactly for an unmapped name that every object inherits, and otherwise the result is the own-key id |
| Helpers.InheritedNameHasNoChannelId | script.js:2198-2199 | for a channel named "toString" the lookup as written returns the inherited function, where the own-key lookup gives id 2 |
| Helpers.EveryNameHasChannelId | script.js:2197-2201 | with the own-key lookup, every name gets its mapped id, or 1 or 2 when unmapped |
| Helpers.MuteStorageKey | script.js:94-97 | the key is "tgMute:", then the server part, then ':', then the channel name, with the lengths adding up |
| Helpers.MuteKeyInjective | script.js:94-97 | when server ids print without ':', equal keys mean the same server and the same channel |
| Helpers.ServerOwnerId | script.js:83-86 | null for no server; otherwise the first present field among ownerId, owner, creatorId, userId, with all earlier fields absent; null only when all four are absent |
| Helpers.IsOwnedBy | script.js:88-92 | ownership needs a server, a user, and a truthy owner id |
| Helpers.OwnedNumeric | script.js:88-92 | with numeric ids, the user owns the server exactly when the ids are equal and not 0 |
| Helpers.OwnedAcrossTypes | script.js:91 | a numeric owner id matches the same id held by the user as a string |
| Helpers.FilterServers | script.js:171-175 | keeps exactly the servers whose lower-cased name contains the query (all of them for an empty query); with `FilterServersAppend` the kept servers stay in their order and multiplicity |
| Helpers.FilterServersAppend | script.js:171-175 | filtering a list made of two parts is filtering each part and joining the results, so the filter keeps the list order |
| Helpers.FindServers | script.js:170-176 | exactly the first min(12, number of matches) matching servers, in list order: a prefix of the filtered list of that length; below 12, every matching server is listed |
| Helpers.BlankQueryListsFirst | script.js:170-176 | a blank or missing query lists the first twelve servers unfiltered |
| Helpers.FilterUsers | script.js:581-584 | keeps exactly the users whose lower-cased name contains the lower-cased query and who are not the current user; with `FilterUsersAppend` they stay in their order |
| Helpers.FilterUsersAppend | script.js:581-584 | filtering a list made of two parts is filtering each part and joining the results, so the search keeps the list order |
| Helpers.SearchUsers | script.js:569-584 | no search exactly for a blank query; otherwise exactly the matching users other than the current user |
| Helpers.SendMessage | script.js:1383-1413 | ignored (input kept) exactly for blank text or a server view the user does not own. Otherwise at most one message is emitted, and only when connected. A DM goes only to the truthy DM partner. A channel message goes only from an owned server view, to the channel's mapped id. The text sent is the trimmed input |
| Media.OfKind | script.js:2345-2346 | exactly the tracks of the requested kind, each kind-correct, never more than the stream has |
| Media.OfKindAppend | script.js:1920 | the tracks of one kind of a grown stream are those of the old stream followed by those of the added part |
| Media.OfKindSplit | script.js:2345-2346 | every track of a stream is an audio track or a video track |
| Media.AudioHasNoVideo | script.js:1943-1947 | the audio tracks of a stream contain no video track |
| Media.SetEnabled | script.js:1709-1713 | every track of the kind in the list gets `enabled = b`; stopped flags and all other tracks are untouched |
| Media.SetEnabledStep | script.js:1710-1712 | enabling one more listed track updates exactly that track when it has the kind, and nothing otherwise |
| Media.SetEnabledOne | script.js:1827-1831 | setting `enabled` on one track of its own kind changes only that track |
| Media.StopAll | script.js:1844-1847 | every listed track is stopped with its enabled flag kept; every other track is untouched |
| Media.StopAllStep | script.js:1845 | stopping one more listed track marks exactly that track stopped |
| Media.First | script.js:2013 | `tracks[0]` or null: present exactly for a non-empty list, and then the first element |
| Session.InitialValid | script.js:8-15 | the globals as the page loads them satisfy the registry and track invariant |
| Session.Valid | script.js:8-22 | the invariant: the key list has no repeats and holds exactly the registry's ids, captured tracks have identities below the next one, and both streams hold only known tracks |
| Session.ValidWithTracks | script.js:1709-1713 | replacing the track table by one with the same tracks keeps the invariant |
| Session.LocalTracks | script.js:9 | the local stream's tracks, or none when it is null |
| Session.Send | script.js:1785-1787 | exactly one signal appended, nothing else changes |
| Session.UpdatePeer | script.js:356-360 | the named connection replaced, the key set kept, every other connection unchanged |
| Session.FindVideoSender | script.js:1924 | the index of the first sender carrying a video track, with none before it; null exactly when no sender carries video |
| Session.ReplaceVideoTrack | script.js:1950-1953 | only the found video sender changes, to the new track; a connection without one is unchanged |
| Session.AttachVideo | script.js:1924-1929 | replaces into the video sender when there is one, else appends a sender; afterwards a video sender exists and the track is sent |
| Session.ReplaceVideoEverywhere | script.js:1949-1954 | every connection gets the replacement, no connection is added or lost |
| Session.AttachVideoEverywhere | script.js:1923-1930 | every connection gets the track attached, no connection is added or lost |
| Session.SomePeerLacksVideo | script.js:2055-2068 | `renegotiateNeeded`: some connection has no sender carrying video |
| Session.AsSenders | script.js:2353 | one sender per track, in order |
| Session.InitialSenders | script.js:2344-2363 | the new connection sends exactly the local tracks, and no audio sender follows a video sender |
| Session.NewPeer | script.js:2322-2363 | the connection `createPeerConnection` builds: awaiting its offer exactly for an initiator, sending the local tracks, with no candidates and no restarts |
| Session.CreatePeer | script.js:2322-2626 | an existing id changes nothing. A new id is registered last in key order, with the local tracks as senders and no candidates. It is awaiting its own offer exactly when it is the initiator, and exactly then an offer is sent. All other connections are unchanged |
| Session.Without | script.js:346 | removes exactly the given id, keeping order and distinctness |
| Session.RemovePeer | script.js:343-347 | the key set loses exactly the id; every other connection is unchanged |
| Session.RegistryEmptiness | script.js:459 | `Object.keys(peerConnections).length === 0` exactly when the registry is empty |
| Session.OnUserJoinedVoice | script.js:332-335 | a known id changes nothing. An unknown newcomer is registered last in key order, awaiting our offer, sending the local tracks, with no candidates. The offer is sent, and all other connections and fields are kept |
| Session.OnExistingVoiceUsers | script.js:337-341 | the registry afterwards holds exactly the old ids and the listed ids; nothing but the registry changes |
| Session.OnUserLeftVoice | script.js:343-350 | the id is gone from the registry and its key list (the rest keeps its order), every other connection is unchanged, and every other field is kept |
| Session.OnOffer | script.js:352-361 | the sender's connection, created as responder and registered last in key order when missing, becomes stable; exactly one answer goes back; nothing else changes |
| Session.OnAnswer | script.js:363-368 | a connection awaiting its offer becomes stable; in any other case nothing changes |
| Session.OnIceCandidate | script.js:370-375 | a non-null candidate for a registered connection is appended to its candidates; otherwise nothing changes (nothing is buffered) |
| Session.OnLocalIceCandidate | script.js:2366-2374 | a non-null local candidate of a live connection is sent to that peer; nothing else changes |
| Session.OnIceFailed | script.js:2377-2383 | the failed connection is restarted in place: one more restart, every other connection unchanged |
| Session.OnCallAccepted | script.js:426-435 | a registered user changes nothing. Otherwise the accepting user is registered last in key order, awaiting our offer, sending the local tracks. The offer is sent, and all other connections and fields are kept |
| Session.OnCallRejected | script.js:437-447 | out of the call, with no local stream; every local track is stopped; the registry, screen stream and other flags are kept |
| Session.OnCallEnded | script.js:449-462 | the sender's connection is removed; when none is left, a call in progress is left by force |
| Session.Capture | script.js:1811 | a new, live, enabled track whose identity was never used |
| Session.ForcedLeave | script.js:1838-1876 | out of the call with both streams gone, every local and screen track stopped, other tracks untouched, and no connection. The leave is emitted when connected. Audio is re-enabled and video is reset to the layout default. Mute, deafen and volume are kept |
| Session.LeaveVoiceChannel | script.js:1838-1876 | outside a call, or without `force`, the state is unchanged; otherwise a forced leave |
| Session.JoinVoiceChannel | script.js:1760-1836 | a no-op in a call. Otherwise, on capture failure, a forced leave. On success, exactly one new audio track becomes the local stream, enabled exactly when neither muted nor deafened, and the join is emitted when connected. The registry is untouched |
| Session.CaptureCallStream | script.js:739-743 | audio first, plus a camera track on a phone; every captured track is new and live; nothing else changes |
| Session.StartCall | script.js:743-784 | what both call paths do once capture succeeds: the local stream becomes a fresh audio track (and camera on a phone), the call flags are set, the signal is emitted when connected, and everything else is kept |
| Session.InitiateCall | script.js:735-798 | failure changes nothing. Success gives a new local stream: a fresh audio track, then a fresh camera track on a phone. The call flags are set and the request is emitted when connected. Existing tracks, the registry, the screen stream, mute, deafen and volume are kept |
| Session.AcceptCall | script.js:835-899 | failure changes nothing. Success gives a new local stream as for `initiateCall`, sets the call flags and emits the accept when connected. A caller without a connection gets a stable responder, registered last, carrying the new stream. Other connections, existing tracks, the screen stream, mute, deafen and volume are kept |
| Session.RejectCall | script.js:902-906 | the reject is emitted when connected; nothing else changes |
| Session.EndCalls | script.js:1888-1892 | one `end-call` per id, in registry order |
| Session.CloseCall | script.js:1884-1895 | after a direct call, `end-call` to every connection when connected, then a forced leave (see `SessionProps.CloseCallEndsEveryPeer`) |
| Session.MuteClick | script.js:1704-1714 | mute flips, and afterwards every local audio track is enabled exactly when unmuted; nothing else changes |
| Session.LocalAudioFollowsMute | script.js:1709-1713 | every local audio track is enabled exactly when not muted |
| Session.DeafenClick | script.js:1716-1746 | deafen flips; deafening mutes; undeafening keeps the mute; remote volume is 0 exactly while deafened; local audio follows the mute |
| Session.ToggleAudio | script.js:1982-1999 | without a stream nothing changes; otherwise the audio flag flips, mute becomes its negation, and local audio follows the mute |
| Session.VideoToggles | script.js:1970-1977 | one `video-toggle` per id, in registry order, all with the same flag |
| Session.DisableVideo | script.js:1940-1962 | the local stream keeps only its audio tracks; the video tracks it had are stopped; every video sender is set to null; the order and outbox are unchanged |
| Session.AddCamera | script.js:1916-1930 | a new camera track is appended to the local stream and attached to every connection; nothing else changes |
| Session.EnableVideo | script.js:1915-1938 | with a camera track, the local video tracks are enabled. Without one, a capture adds a camera, or a failed capture clears the video flag. No renegotiation happens |
| Session.HasCamera | script.js:1915 | the local stream exists and holds a video track |
| Session.ToggleVideo | script.js:1910-1980 | without a stream nothing changes; otherwise the toggles sent carry the flipped flag, whatever the camera capture does |
| Session.Offers | script.js:2098-2114 | at most one offer per id, all of them offers |
| Session.OffersSnoc | script.js:2099-2114 | one more listed id adds its offer at the end exactly when it is registered and stable |
| Session.Renegotiated | script.js:2103-2109 | only the signalling state can change: a stable connection ends up awaiting its offer, any other is left as it is |
| Session.RenegotiateEverywhere | script.js:2098-2118 | every connection is renegotiated, no connection is added or lost |
| Session.RenegotiateAllPeers | script.js:2095-2119 | nothing while disconnected; otherwise every stable connection makes an offer, which is sent, in registry order |
| Session.StopScreenShare | script.js:2008-2028 | the screen tracks are stopped. Then every video sender gets the first camera track when video is enabled, or null otherwise, and the screen stream goes. With video enabled and no local stream, only the stopping happens |
| Session.CaptureDisplay | script.js:2032-2043 | a new display video track first, plus a new audio track when the display shares audio; nothing else changes |
| Session.StartScreenShare | script.js:2030-2072 | the display track is attached to every connection, and all connections are renegotiated exactly when some connection had no video sender |
| Session.ToggleScreenShare | script.js:2001-2093 | nothing where capture is unsupported; otherwise stops a running share, or starts one unless the display capture fails |
| Session.OnScreenTrackEnded | script.js:2047-2051 | an ended display track toggles the share off when one is running, else nothing |
| SessionProps.AttachedTrackIsFound | script.js:1924-1929 | after attaching, the first video sender carries exactly the attached track |
| SessionProps.FirstVideoSenderAt | script.js:1924 | when position k is the first video sender, the search finds exactly k |
| SessionProps.ShareThenRestore | script.js:2013-2068 | sharing and then restoring the camera leaves the old video sender, or the added one, on the camera; a connection already on that camera gets its senders back unchanged |
| SessionProps.NulledSenderIsSkipped | script.js:1950-1953 | a video sender set to null is never found again as the video sender |
| SessionProps.OffersExactlyStable | script.js:2099-2114 | an offer goes to an id exactly when it is listed, registered and stable |
| SessionProps.OffersToListed | script.js:2099-2114 | every offer goes to a listed id |
| SessionProps.RenegotiationOffersStablePeers | script.js:2095-2119 | while connected, no connection is left stable afterwards, and the offers sent go to exactly the connections that were stable |
| SessionProps.RenegotiationNeedsConnection | script.js:2096 | renegotiating while disconnected changes nothing |
| SessionProps.ScreenShareReachesEveryPeer | script.js:2053-2072 | after a share starts, every connection's first video sender carries the display track; without a missing sender, or while disconnected, nothing is emitted |
| SessionProps.ToggleVideoCamera | script.js:1910-1968 | the video flag ends on exactly when it was off and a camera exists or could be captured. Turning video off leaves no camera track; turning it on leaves one |
| SessionProps.VolumeFollowsDeafen | script.js:1729-1738 | remote volume is 0 while deafened and 1 otherwise |
| SessionProps.UndeafenKeepsMute | script.js:1716-1746 | deafen then undeafen from unmuted ends muted, with full volume and local audio disabled |
| SessionProps.MuteWhileDeafened | script.js:1704-1746 | deafen then mute-click leaves the user deafened but unmuted |
| SessionProps.ToggleAudioIgnoresDeafen | script.js:1982-1999 | two microphone toggles while deafened leave the microphone live |
| SessionProps.CallCaptureIgnoresMute | script.js:735-784 | a call started while muted sends a live microphone, so local audio no longer follows the mute flag |
| SessionProps.JoinTwiceIsJoinOnce | script.js:1760-1836 | a second join changes nothing; the first leaves one audio-only track, enabled exactly when neither muted nor deafened |
| SessionProps.LeaveTwiceIsLeaveOnce | script.js:1838-1876 | a second forced leave changes nothing |
| SessionProps.FailedJoinLeaves | script.js:1789-1793 | a failed capture ends out of the call with no stream and no connection, the leave emitted when connected |
| SessionProps.LastCallEndedLeaves | script.js:449-462 | when the last connection ends its call the call is over, and every local and screen track is stopped |
| SessionProps.CloseCallEndsEveryPeer | script.js:1884-1895 | closing a direct call while connected emits `end-call` to every connection, in registry order, then the leave; no connection is left |
| SessionProps.ExistingUsersGetResponders | script.js:337-341 | existing connections are kept; each newly listed user gets a stable responder connection carrying the local tracks |
| SessionProps.OfferIsAlwaysAnswered | script.js:352-361 | the sender is registered and stable afterwards and one answer goes back. An outstanding offer of our own is overridden (no glare handling), its senders are kept, and other connections are unchanged |
| SessionProps.EarlyCandidateIsDropped | script.js:370-375 | a candidate that arrives before the offer is lost: the connection the offer creates has none |
| SessionProps.CandidatesKeepOrder | script.js:370-375 | candidates are handed over in arrival order |
| SessionProps.IceFailureKeepsConnection | script.js:2377-2383 | a failed connection is restarted in place with its senders and signalling state |
| Controller.CallController.constructor | script.js:8-15 | the fields hold the initial globals and satisfy the invariant |
| Controller.CallController.Snapshot | script.js:2-22 | the fields read as one `Session.State` |
| Controller.CallController.Valid | script.js:2-22 | the fields satisfy `Session.Valid` |
| Controller.CallController.Capture | script.js:1811 | the fields change as `Session.Capture` says, and the invariant is kept |
| Controller.CallController.ReplaceVideoOnAll | script.js:1949-1954 | the loop over the registry leaves every connection as `ReplaceVideoTrack` makes it, and nothing else changes |
| Controller.CallController.AttachVideoOnAll | script.js:1923-1930 | every connection gets the track attached, and the result reports exactly whether some connection had no video sender |
| Controller.CallController.RenegotiateAllPeers | script.js:2095-2119 | when connected, every connection is renegotiated and exactly the offers of `Session.Offers` are appended; otherwise nothing changes |
| Controller.CallController.CreatePeerConnection | script.js:2322-2626 | the fields end exactly as `Session.CreatePeer` says |
| Controller.CallController.RemovePeer | script.js:343-347 | the fields end exactly as `Session.RemovePeer` says |
| Controller.CallController.OnUserJoinedVoice | script.js:332-335 | as `Session.OnUserJoinedVoice` |
| Controller.CallController.OnExistingVoiceUsers | script.js:337-341 | the loop over the listed users ends exactly as `Session.OnExistingVoiceUsers` |
| Controller.CallController.OnUserLeftVoice | script.js:343-350 | as `Session.OnUserLeftVoice` |
| Controller.CallController.OnOffer | script.js:352-361 | as `Session.OnOffer` |
| Controller.CallController.OnAnswer | script.js:363-368 | as `Session.OnAnswer` |
| Controller.CallController.OnIceCandidate | script.js:370-375 | as `Session.OnIceCandidate` |
| Controller.CallController.OnLocalIceCandidate | script.js:2366-2374 | as `Session.OnLocalIceCandidate` |
| Controller.CallController.OnIceFailed | script.js:2377-2383 | as `Session.OnIceFailed` |
| Controller.CallController.OnCallAccepted | script.js:426-435 | as `Session.OnCallAccepted` |
| Controller.CallController.OnCallRejected | script.js:437-447 | as `Session.OnCallRejected`, stopping the tracks one by one |
| Controller.CallController.DropStreams | script.js:1844-1852 | every local and then every screen track is stopped, both streams become null, and nothing else changes |
| Controller.CallController.Hangup | script.js:1854-1872 | the leave is emitted when connected, the registry is emptied, the audio and video flags are reset, and nothing else changes |
| Controller.CallController.ForcedLeave | script.js:1841-1876 | as `Session.ForcedLeave` |
| Controller.CallController.LeaveVoiceChannel | script.js:1838-1876 | as `Session.LeaveVoiceChannel` |
| Controller.CallController.OnCallEnded | script.js:449-462 | as `Session.OnCallEnded` |
| Controller.CallController.InitializeMedia | script.js:1796-1836 | one new audio track becomes the local stream, enabled exactly when neither muted nor deafened, and nothing else changes |
| Controller.CallController.JoinVoiceChannel | script.js:1760-1794 | as `Session.JoinVoiceChannel` |
| Controller.CallController.CaptureCallStream | script.js:739-743 | as `Session.CaptureCallStream`, with the invariant kept |
| Controller.CallController.StartCall | script.js:743-880 | the captured tracks become the local stream, the signal is emitted when connected, the call flags are set, and nothing else changes |
| Controller.CallController.InitiateCall | script.js:735-798 | as `Session.InitiateCall` |
| Controller.CallController.AcceptCall | script.js:835-899 | as `Session.AcceptCall` |
| Controller.CallController.RejectCall | script.js:902-906 | as `Session.RejectCall` |
| Controller.CallController.CloseCall | script.js:1884-1895 | as `Session.CloseCall`, with the `end-call`s emitted by a loop over the registry |
| Controller.CallController.MuteClick | script.js:1704-1714 | as `Session.MuteClick` |
| Controller.CallController.DeafenClick | script.js:1716-1746 | as `Session.DeafenClick` |
| Controller.CallController.ToggleAudio | script.js:1982-1999 | as `Session.ToggleAudio` |
| Controller.CallController.DisableVideo | script.js:1940-1962 | as `Session.DisableVideo`; the registry order and the outbox are untouched |
| Controller.CallController.EnableVideo | script.js:1915-1938 | as `Session.EnableVideo`; the registry order and the outbox are untouched |
| Controller.CallController.ToggleVideo | script.js:1910-1980 | as `Session.ToggleVideo`, with the toggles emitted by a loop over the registry |
| Controller.CallController.StopScreenShare | script.js:2008-2028 | as `Session.StopScreenShare` |
| Controller.CallController.CaptureDisplay | script.js:2032-2043 | as `Session.CaptureDisplay`, with the invariant kept |
| Controller.CallController.ShareDisplay | script.js:2030-2068 | the display stream is captured and attached to every connection. The result is exactly whether some connection lacked a video sender, and the registry stays consistent with its key order |
| Controller.CallController.StartScreenShare | script.js:2030-2072 | as `Session.StartScreenShare` |
| Controller.CallController.ToggleScreenShare | script.js:2001-2093 | as `Session.ToggleScreenShare` |
| Controller.CallController.OnScreenTrackEnded | script.js:2047-2051 | as `Session.OnScreenTrackEnded` |
| Controller.StopEach | script.js:1845 | the loop stops exactly the listed tracks (`Media.StopAll`) |
| Controller.EnableEach | script.js:1710-1712 | the loop sets `enabled` on exactly the listed tracks of the kind (`Media.SetEnabled`) |
| Controller.SendersFor | script.js:2344-2360 | the two loops add senders for the audio tracks and then the video tracks, giving exactly `Session.InitialSenders` |
| Controller.VideoTogglesEach | script.js:1970-1977 | one `video-toggle` per registered id, in key order, when connected; none otherwise |
| Controller.EndCallsEach | script.js:1888-1892 | one `end-call` per registered id, in key order, when connected; none otherwise |
| Controller.ReplaceVideoEach | script.js:1949-1954 | the loop over the key order leaves every connection as `ReplaceVideoTrack` makes it |
| Controller.AttachVideoEach | script.js:1923-1930 | the loop over the key order leaves every connection as `AttachVideo` makes it |
| Controller.AnyLacksVideo | script.js:2055-2068 | `renegotiateNeeded` ends true exactly when some connection has no video sender |
| Controller.RenegotiateEach | script.js:2098-2118 | the loop over the key order renegotiates every connection and sends exactly `Session.Offers` |
| Controller.FreshCameraIsEnabled | script.js:1936 | enabling the video tracks after a fresh camera was added changes no track |
| Controller.Listed | script.js:1949 | the key list holds exactly the registry's ids |
| Controller.Visited | script.js:1949-1954 | the registry after the loop has applied its update to the ids visited so far; the keys are kept |
| Controller.VisitStep | script.js:1949-1954 | visiting one more registered id updates exactly its entry, and changes nothing when the update leaves it as it was |
| Controller.VisitAll | script.js:1949-1954 | once every registered id is visited, every connection carries the update |
| Events.Step | script.js:332-2383 | every event keeps the registry and track invariant |
| Events.ReachableValid | script.js:8-15 | every state reachable from page load keeps the invariant |
| Events.StepInvariants | script.js:332-2383 | every event only appends to the outbox, and keeps remote volume at 0 exactly while deafened |
| Events.RunOnlyAppends | script.js:332-2093 | nothing emitted is ever withdrawn, however many events are handled |
| Events.RunKeepsVolume | script.js:1716-1746 | volume follows deafen through any run of events |
| Events.ReachableVolume | script.js:1716-1746 | in every reachable state remote playback is silent exactly while deafened |
| Events.DeafenedAndUnmutedIsReachable | script.js:1716-1999 | join, deafen and two microphone toggles reach a deafened, unmuted call with a live microphone |
| Events.CallButtonsQuiet | script.js:735-899 | the call and accept buttons only append to the outbox and do not change deafen or volume |
| Events.HangUpButtonsQuiet | script.js:902-906 | the reject and close-call buttons only append to the outbox and do not change deafen or volume |
| Events.VideoStepQuiet | script.js:1910-2093 | the camera and screen events only append to the outbox and do not change deafen or volume |
| Events.JoinLeaveQuiet | script.js:1760-1876 | joining, leaving and the end of a call only append to the outbox and do not change deafen or volume |
| Events.Appends | script.js:332-2383 | the later outbox starts with the earlier one |
| Events.SameHearing | script.js:1716-1746 | deafen and volume are the same in both states |
| Events.Quiet | script.js:332-2383 | only appends to the outbox and hears as before |
| Events.ForcedLeaveQuiet | script.js:1838-1876 | a forced leave only appends and keeps deafen and volume |
| Events.CallEndedQuiet | script.js:449-462 | `call-ended` only appends and keeps deafen and volume |
| Events.JoinQuiet | script.js:1760-1836 | a join only appends and keeps deafen and volume |
| Events.CloseQuiet | script.js:1884-1895 | the close-call button only appends and keeps deafen and volume |
| Events.InitiateQuiet | script.js:735-798 | `initiateCall` only appends and keeps deafen and volume |
| Events.AcceptQuiet | script.js:835-899 | `acceptCall` only appends and keeps deafen and volume |
| Events.RejectQuiet | script.js:902-906 | `rejectCall` only appends and keeps deafen and volume |
| Events.VideoQuiet | script.js:1910-1980 | the camera button only appends and keeps deafen and volume |
| Events.CameraOnQuiet | script.js:1915-1938 | turning the camera on keeps deafen and volume |
| Events.StartScreenQuiet | script.js:2030-2072 | starting a share only appends and keeps deafen and volume |
| Events.ScreenQuiet | script.js:2001-2093 | the screen-share button only appends and keeps deafen and volume |
| Events.IsSignalling | script.js:332-375 | the socket and connection events of the signalling relay |
| Events.SignallingQuiet | script.js:332-375 | every signalling event only appends and keeps deafen and volume |
| Events.MicQuiet | script.js:1704-1714 | the mute button and the microphone toggle only append and keep deafen and volume |
| Events.RunTwoToggles | script.js:1982-1999 | two microphone-toggle events run as two `toggleAudio` calls one after the other |
| VoiceActivity.FramesFor | script.js:2287-2288 | at least one frame; `Math.round(ms/16)` rounded half up, and 1 below 8 ms |
| VoiceActivity.DefaultFrames | script.js:2273 | the default 100 ms attack is 6 frames, the default 300 ms release 19 |
| VoiceActivity.FramesForMonotone | script.js:2287-2288 | a longer duration never gives fewer frames |
| VoiceActivity.ClickIsNotSpeech | script.js:2287-2305 | with an attack of 24 ms or more, including the default 100 ms, one loud frame from the start is not speech |
| VoiceActivity.Step | script.js:2299-2313 | a loud frame counts up the speak hold and clears the quiet hold, and a quiet frame the reverse. Speaking turns on only on a loud frame at or past the attack, and off only on a quiet frame at or past the release. Reaching those thresholds does switch it |
| VoiceActivity.TrailingRun | script.js:2299-2313 | the length of the final run of equal frames: those frames are all equal, and the one before differs |
| VoiceActivity.HoldsCountTrailingRuns | script.js:2299-2313 | the hold counters are exactly the lengths of the current loud and quiet runs, carrying on from the start counters when the run spans every frame |
| VoiceActivity.LoudRunSpeaks | script.js:2299-2305 | `attack` loud frames in a row always leave the detector speaking |
| VoiceActivity.QuietRunSilences | script.js:2306-2312 | `release` quiet frames in a row always leave it silent |
| VoiceActivity.SpeechNeedsLoudRun | script.js:2299-2305 | from the start, speaking is reported only after some run of `attack` consecutive loud frames |
| VoiceActivity.LoudFrom | script.js:2299-2305 | the frames from position j on, n of them, exist and are all loud |
| VoiceActivity.SpeakingMonitor.constructor | script.js:2284-2288 | the counters start at zero, not speaking, with both frame counts at least one |
| VoiceActivity.SpeakingMonitor.Tick | script.js:2290-2313 | the counters change exactly as `VoiceActivity.Step` says |

## Findings

| source | as written | input that shows it | evidently intended | confidence | as-written member | corrected member |
|---|---|---|---|---|---|---|
| script.js:2197-2201 | `channelNameToId[name]` is read from a plain object and kept whenever it is not `undefined` | a channel named "toString" (or "constructor", "valueOf", ...) gets the inherited function as its id | an own-key lookup, falling back to 1 for "general" and 2 otherwise | medium: channel names reach the lookup from the channel list and from storage (script.js:71, 1287); not executed | Helpers.ChannelIdByNameAsWritten, Helpers.InheritedNameHasNoChannelId | Helpers.ChannelIdByName, Helpers.EveryNameHasChannelId |

## Left out

- The DOM, CSS, alerts and layout are left out: the call window, placeholders,
  the resizable videos, remote `<video>` elements, and the `speaking` class,
  which is shown as the `speaking` flag only. The `video-toggle` and
  `incoming-call` socket events only touch the UI, and so do `pc.ontrack` and
  `updateCallButtons`.
- Media capture is left out. `getUserMedia` and `getDisplayMedia` succeed or
  fail through a boolean parameter, and their constraints are not modelled.
  The loudness test of `monitorSpeaking` is left out too: the analyser, the
  floating-point RMS and the threshold become the boolean `loud`.
- The browser's WebRTC engine is left out:
  - SDP contents, ICE gathering and the STUN configuration;
  - transceiver reuse by `addTrack`, which the model always treats as
    appending a sender;
  - rejection of an answer in a state other than awaiting one, which the model
    treats as changing nothing.
- Asynchrony is left out. Each handler runs to completion before the next
  event, so interleavings at `await` points are not modelled:
  - a camera capture that resolves after another event;
  - `renegotiateAllPeers` awaiting between peers;
  - an initiator's offer sent after `createOffer` resolves.
- The `catch` branches around `addTrack`, `createOffer` and `track.stop` are
  left out. They only log.
- The TypeError that the screen-share start path throws after the senders were
  updated, when there is no local stream, only affects the local preview.
- `monitorSpeaking`'s animation-frame scheduling is left out, and so is the
  fact that a monitor never stops. Each monitor is one `SpeakingMonitor`
  driven by its caller.
- The socket connection, login, messages, DMs, servers and channels are not
  part of this model, beyond the pure helpers listed above.
- JsText.ToLower: capitals outside ASCII, Latin-1, Greek and Cyrillic (Latin Extended, Armenian, Georgian and others) are kept, not lower-cased. Capital sigma is kept too, because `toLowerCase` gives it a context-dependent small form. So is `İ`, which lower-cases to two characters.
- Helpers.FilterServers, Helpers.FindServers, Helpers.FilterUsers, Helpers.SearchUsers: they inherit the case folding of `JsText.ToLower`, so a name that differs from the query only in a capital outside those scripts is not matched.
- JsText.IntToString: numbers of magnitude 10^21 or more, which JavaScript prints in exponent form, are written in plain digits.
- Session.ToggleVideo: its own contract states only the emitted toggles. What
  happens to the camera is stated by `SessionProps.ToggleVideoCamera`.
- Session.OnExistingVoiceUsers: its own contract states only the resulting key
  set. That each new connection is a stable responder carrying the local
  tracks is stated by `SessionProps.ExistingUsersGetResponders`.
