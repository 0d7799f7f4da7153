/**
 * Media tracks as the call controller sees them. A track is referred to by
 * a `TrackRef` (its identity and its kind, which never change); its mutable
 * part (`enabled`, stopped or live) lives in one table shared by the local
 * stream, the screen stream and every peer's senders, so that muting a
 * track is seen wherever that track is attached.
 */
module Media {
  import opened Wrappers

  datatype Kind = Audio | Video

  datatype TrackRef = TrackRef(id: nat, kind: Kind)

  datatype TrackState = TrackState(enabled: bool, stopped: bool)

  type Tracks = map<TrackRef, TrackState>

  /** A live, enabled track, as capture hands it out. */
  const FreshTrack := TrackState(true, false)

  /** `stream.getAudioTracks()` / `getVideoTracks()`: the tracks of one kind, in stream order. */
  function OfKind(ts: seq<TrackRef>, k: Kind): (r: seq<TrackRef>)
    ensures |r| <= |ts|
    ensures forall t :: t in r <==> t in ts && t.kind == k
    ensures forall i :: 0 <= i < |r| ==> r[i].kind == k
  {
    if ts == [] then []
    else
      var rest := OfKind(ts[1..], k);
      assert ts == [ts[0]] + ts[1..];
      if ts[0].kind == k then [ts[0]] + rest else rest
  }

  lemma {:induction false} OfKindAppend(a: seq<TrackRef>, b: seq<TrackRef>, k: Kind)
    ensures OfKind(a + b, k) == OfKind(a, k) + OfKind(b, k)
  {
    if a != [] {
      assert (a + b)[1..] == a[1..] + b;
      OfKindAppend(a[1..], b, k);
    } else {
      assert a + b == b;
    }
  }

  /** Removing every track of one kind keeps exactly the tracks of the other kinds. */
  lemma OfKindSplit(ts: seq<TrackRef>)
    ensures forall t :: t in ts <==> t in OfKind(ts, Audio) || t in OfKind(ts, Video)
  {
  }

  /** The audio tracks of a stream hold no video track. */
  lemma AudioHasNoVideo(ts: seq<TrackRef>)
    ensures OfKind(OfKind(ts, Audio), Video) == []
  {
  }

  /** `track.enabled = b` for every track of kind `k` in `ts`; nothing else changes. */
  function SetEnabled(tracks: Tracks, ts: seq<TrackRef>, k: Kind, b: bool): (r: Tracks)
    ensures r.Keys == tracks.Keys
    ensures forall t :: t in r ==> r[t].stopped == tracks[t].stopped
    ensures forall t :: t in r && t in ts && t.kind == k ==> r[t].enabled == b
    ensures forall t :: t in r && !(t in ts && t.kind == k) ==> r[t] == tracks[t]
  {
    map t | t in tracks :: if t in ts && t.kind == k then tracks[t].(enabled := b) else tracks[t]
  }

  /** `track.stop()` for every track in `ts`; nothing else changes. */
  function StopAll(tracks: Tracks, ts: seq<TrackRef>): (r: Tracks)
    ensures r.Keys == tracks.Keys
    ensures forall t :: t in r && t in ts ==> r[t].stopped && r[t].enabled == tracks[t].enabled
    ensures forall t :: t in r && t !in ts ==> r[t] == tracks[t]
  {
    map t | t in tracks :: if t in ts then tracks[t].(stopped := true) else tracks[t]
  }

  /** One more track handled by a `forEach` over `SetEnabled`. */
  lemma SetEnabledStep(tracks: Tracks, ts: seq<TrackRef>, t: TrackRef, k: Kind, b: bool)
    requires t in tracks
    ensures SetEnabled(tracks, ts + [t], k, b)
      == (var m := SetEnabled(tracks, ts, k, b);
          if t.kind == k then m[t := m[t].(enabled := b)] else m)
  {
    var m := SetEnabled(tracks, ts, k, b);
    var lhs := SetEnabled(tracks, ts + [t], k, b);
    var rhs := if t.kind == k then m[t := m[t].(enabled := b)] else m;
    assert lhs.Keys == rhs.Keys;
    forall u | u in lhs ensures lhs[u] == rhs[u] {
      if u != t {
        assert (u in ts + [t]) == (u in ts);
      }
    }
  }

  /** Setting `enabled` on a one-track list updates that track's entry alone. */
  lemma SetEnabledOne(tracks: Tracks, t: TrackRef, b: bool)
    requires t in tracks
    ensures SetEnabled(tracks, [t], t.kind, b) == tracks[t := tracks[t].(enabled := b)]
  {
    var lhs := SetEnabled(tracks, [t], t.kind, b);
    forall u | u in lhs ensures lhs[u] == tracks[t := tracks[t].(enabled := b)][u] {
      assert (u in [t]) == (u == t);
    }
  }

  /** One more track handled by a `forEach` over `StopAll`. */
  lemma StopAllStep(tracks: Tracks, ts: seq<TrackRef>, t: TrackRef)
    requires t in tracks
    ensures StopAll(tracks, ts + [t]) == (var m := StopAll(tracks, ts); m[t := m[t].(stopped := true)])
  {
    var m := StopAll(tracks, ts);
    var lhs := StopAll(tracks, ts + [t]);
    var rhs := m[t := m[t].(stopped := true)];
    assert lhs.Keys == rhs.Keys;
    forall u | u in lhs ensures lhs[u] == rhs[u] {
      if u != t {
        assert (u in ts + [t]) == (u in ts);
      }
    }
  }

  /** The first track of a list, or null (`tracks[0]` on a possibly empty list). */
  function First(ts: seq<TrackRef>): (r: Option<TrackRef>)
    ensures r.Some? <==> ts != []
    ensures r.Some? ==> r.value == ts[0]
  {
    if ts == [] then None else Some(ts[0])
  }
}
