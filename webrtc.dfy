/**
 * The media hook: the local stream's tracks and their enabled flags, the
 * media state shown to the user, the camera/screen substitution, the map from
 * peer id to peer connection, the map from peer id to remote stream, and
 * teardown.
 *
 * Browser objects are identified by handles allocated here: a track by a
 * TrackId, a peer connection by a Handle.  The local stream and every sender
 * refer to tracks by id, so a track shared by the stream and a sender is one
 * track, as in the browser.  Whether the browser grants a capture is an input.
 */
module WebRtc {
  import opened Wrappers
  import Listing

  type PeerId = string
  type StreamId = string
  type TrackId = nat
  type Handle = nat

  datatype Kind = Audio | Video

  /**
   * A MediaStreamTrack: its kind, its enabled flag, whether it is still
   * capturing (readyState 'live'), and whether the onended handler that
   * restarts the camera is attached to it.
   */
  datatype Track = Track(kind: Kind, enabled: bool, live: bool, restartsCameraOnEnd: bool)

  datatype ConnectionState = New | Connecting | Connected | Disconnected | Failed | Closed

  /** An RTCPeerConnection: the peer it was made for, the track of each sender, its state. */
  datatype Connection = Connection(peer: PeerId, senders: seq<TrackId>, state: ConnectionState)

  datatype MediaState = MediaState(video: bool, audio: bool, screen: bool)

  datatype MediaError = AccessDenied | NoTrackRequested

  const InitialMediaState := MediaState(true, true, false)

  // ------------------------------------------------------------ track lists

  predicate AllIn(ids: seq<TrackId>, tracks: map<TrackId, Track>) {
    forall i :: 0 <= i < |ids| ==> ids[i] in tracks
  }

  /**
   * The position of the first track of kind k: `getVideoTracks()[0]`,
   * `getAudioTracks()[0]`, and `senders.find(s => s.track?.kind === 'video')`.
   */
  function FirstOfKind(ids: seq<TrackId>, tracks: map<TrackId, Track>, k: Kind): (r: Option<nat>)
    requires AllIn(ids, tracks)
    ensures r.Some? ==> r.value < |ids| && tracks[ids[r.value]].kind == k
    ensures r.Some? ==> forall j :: 0 <= j < r.value ==> tracks[ids[j]].kind != k
    ensures r.None? <==> forall j :: 0 <= j < |ids| ==> tracks[ids[j]].kind != k
  {
    if ids == [] then None
    else if tracks[ids[0]].kind == k then Some(0)
    else
      match FirstOfKind(ids[1..], tracks, k)
      case None => None
      case Some(i) => Some(i + 1)
  }

  /** MediaStream.removeTrack: the stream without that track. */
  function Without(ids: seq<TrackId>, t: TrackId): (r: seq<TrackId>)
    ensures forall x :: x in r <==> x in ids && x != t
  {
    Listing.Filter(ids, (x: TrackId) => x != t)
  }

  /** MediaStream.addTrack: a track already in the stream is not added twice. */
  function WithTrack(ids: seq<TrackId>, t: TrackId): (r: seq<TrackId>)
    ensures forall x :: x in r <==> x in ids || x == t
    ensures t !in ids ==> r == ids + [t]
  {
    if t in ids then ids else ids + [t]
  }

  // ------------------------------------------------------------------ toggle

  function Flag(m: MediaState, k: Kind): bool {
    if k == Video then m.video else m.audio
  }

  function WithFlag(m: MediaState, k: Kind, b: bool): (r: MediaState)
    ensures Flag(r, k) == b && r.screen == m.screen
    ensures k == Video ==> r.audio == m.audio
    ensures k == Audio ==> r.video == m.video
  {
    if k == Video then m.(video := b) else m.(audio := b)
  }

  /**
   * toggleVideo / toggleAudio: the first track of the kind has its enabled
   * flag flipped and the media state takes the new flag; without a local
   * stream or such a track nothing changes.
   */
  function Toggled(stream: Option<seq<TrackId>>, tracks: map<TrackId, Track>, m: MediaState, k: Kind)
    : (r: (map<TrackId, Track>, MediaState))
    requires stream.Some? ==> AllIn(stream.value, tracks)
    ensures r.0.Keys == tracks.Keys
  {
    if stream.None? then (tracks, m)
    else
      match FirstOfKind(stream.value, tracks, k)
      case None => (tracks, m)
      case Some(i) =>
        var t := stream.value[i];
        var flipped := tracks[t].(enabled := !tracks[t].enabled);
        (tracks[t := flipped], WithFlag(m, k, flipped.enabled))
  }

  /** A toggle flips exactly the first track of its kind and reports the new flag. */
  lemma ToggleFlipsFirstTrack(stream: seq<TrackId>, tracks: map<TrackId, Track>, m: MediaState, k: Kind)
    requires AllIn(stream, tracks)
    ensures var r := Toggled(Some(stream), tracks, m, k);
      match FirstOfKind(stream, tracks, k)
      case None => r == (tracks, m)
      case Some(i) =>
        && r.0[stream[i]].enabled == !tracks[stream[i]].enabled
        && Flag(r.1, k) == r.0[stream[i]].enabled
        && (forall t :: t in tracks && t != stream[i] ==> r.0[t] == tracks[t])
  {
  }

  /**
   * Toggling twice restores every track; the media flag then agrees with
   * the track's original enabled flag, so it is restored whenever it agreed
   * with the track to begin with.
   */
  lemma ToggleTwiceRestores(stream: Option<seq<TrackId>>, tracks: map<TrackId, Track>, m: MediaState, k: Kind)
    requires stream.Some? ==> AllIn(stream.value, tracks)
    ensures var once := Toggled(stream, tracks, m, k);
      stream.Some? ==> AllIn(stream.value, once.0)
    ensures var once := Toggled(stream, tracks, m, k);
      var twice := Toggled(stream, once.0, once.1, k);
      && twice.0 == tracks
      && twice.1.screen == m.screen
      && (match (if stream.Some? then FirstOfKind(stream.value, tracks, k) else None)
          case None => twice.1 == m
          case Some(i) => Flag(twice.1, k) == tracks[stream.value[i]].enabled
                          && (Flag(m, k) == tracks[stream.value[i]].enabled ==> twice.1 == m))
  {
    var once := Toggled(stream, tracks, m, k);
    if stream.Some? {
      assert AllIn(stream.value, once.0);
      FirstOfKindIgnoresFlags(stream.value, tracks, once.0, k);
      match FirstOfKind(stream.value, tracks, k)
      case None =>
      case Some(i) =>
        var t := stream.value[i];
        assert once.0[t := tracks[t]] == tracks;
    }
  }

  /** A toggle of one kind never touches the media flag of the other kind. */
  lemma ToggleLeavesOtherKind(stream: Option<seq<TrackId>>, tracks: map<TrackId, Track>, m: MediaState, k: Kind)
    requires stream.Some? ==> AllIn(stream.value, tracks)
    ensures var r := Toggled(stream, tracks, m, k);
      && r.1.screen == m.screen
      && (k == Video ==> r.1.audio == m.audio)
      && (k == Audio ==> r.1.video == m.video)
      && (forall t :: t in tracks && tracks[t].kind != k ==> r.0[t] == tracks[t])
  {
  }

  /** Which track comes first of a kind depends on kinds only, and flipping flags keeps kinds. */
  lemma {:induction false} FirstOfKindIgnoresFlags(ids: seq<TrackId>, a: map<TrackId, Track>, b: map<TrackId, Track>, k: Kind)
    requires AllIn(ids, a) && AllIn(ids, b)
    requires forall i :: 0 <= i < |ids| ==> a[ids[i]].kind == b[ids[i]].kind
    ensures FirstOfKind(ids, a, k) == FirstOfKind(ids, b, k)
  {
    if ids != [] {
      FirstOfKindIgnoresFlags(ids[1..], a, b, k);
    }
  }

  /** FirstOfKind is determined by the first index that has the kind. */
  lemma {:induction false} FirstOfKindAt(ids: seq<TrackId>, tracks: map<TrackId, Track>, k: Kind, i: nat)
    requires AllIn(ids, tracks) && i < |ids| && tracks[ids[i]].kind == k
    requires forall j :: 0 <= j < i ==> tracks[ids[j]].kind != k
    ensures FirstOfKind(ids, tracks, k) == Some(i)
  {
    if i > 0 {
      FirstOfKindAt(ids[1..], tracks, k, i - 1);
    }
  }

  // ----------------------------------------------------------------- senders

  /** `videoSender.replaceTrack(t)` on the first sender whose track is a video track. */
  function ReplaceVideoSender(c: Connection, tracks: map<TrackId, Track>, t: TrackId): (r: Connection)
    requires AllIn(c.senders, tracks)
    ensures r.peer == c.peer && r.state == c.state && |r.senders| == |c.senders|
    ensures t in tracks ==> AllIn(r.senders, tracks)
  {
    match FirstOfKind(c.senders, tracks, Video)
    case None => c
    case Some(i) => c.(senders := c.senders[i := t])
  }

  /** Every connection in handles has its video sender pointed at t; the rest are untouched. */
  function Redirected(conns: map<Handle, Connection>, handles: set<Handle>, tracks: map<TrackId, Track>, t: TrackId)
    : (r: map<Handle, Connection>)
    requires forall h :: h in conns ==> AllIn(conns[h].senders, tracks)
    ensures r.Keys == conns.Keys
    ensures forall h :: h in conns ==> r[h].peer == conns[h].peer && r[h].state == conns[h].state
    ensures forall h :: h in conns && h !in handles ==> r[h] == conns[h]
    ensures t in tracks ==> forall h :: h in r ==> AllIn(r[h].senders, tracks)
  {
    map h | h in conns :: if h in handles then ReplaceVideoSender(conns[h], tracks, t) else conns[h]
  }

  lemma RedirectedStep(conns: map<Handle, Connection>, done: set<Handle>, tracks: map<TrackId, Track>, t: TrackId, h: Handle)
    requires forall g :: g in conns ==> AllIn(conns[g].senders, tracks)
    requires h in conns && h !in done
    ensures Redirected(conns, done + {h}, tracks, t)
         == Redirected(conns, done, tracks, t)[h := ReplaceVideoSender(conns[h], tracks, t)]
  {
  }

  /**
   * After redirection, a connection that had a video sender sends t from its
   * first video sender, and every other sender is as before.
   */
  lemma RedirectedSendsTrack(conns: map<Handle, Connection>, handles: set<Handle>, tracks: map<TrackId, Track>,
                             t: TrackId, h: Handle)
    requires forall g :: g in conns ==> AllIn(conns[g].senders, tracks)
    requires h in conns && h in handles
    ensures var c := conns[h];
      var r := Redirected(conns, handles, tracks, t)[h];
      match FirstOfKind(c.senders, tracks, Video)
      case None => r == c
      case Some(i) => r.senders[i] == t && forall j :: 0 <= j < |c.senders| && j != i ==> r.senders[j] == c.senders[j]
  {
  }

  /**
   * Redirecting to s and then to cam leaves each connection as one
   * redirection to cam would: stopScreenShare puts the new camera track in
   * the sender that startScreenShare gave the screen track, even though the
   * track table changed in between (new tracks, ended tracks), as long as it
   * kept every track and its kind.
   */
  lemma RedirectLastWins(c: Connection, a: map<TrackId, Track>, b: map<TrackId, Track>, s: TrackId, cam: TrackId)
    requires AllIn(c.senders, a) && s in a && a[s].kind == Video
    requires forall t :: t in a ==> t in b && b[t].kind == a[t].kind
    ensures AllIn(ReplaceVideoSender(c, a, s).senders, b)
    ensures ReplaceVideoSender(ReplaceVideoSender(c, a, s), b, cam) == ReplaceVideoSender(c, a, cam)
  {
    assert AllIn(c.senders, b);
    match FirstOfKind(c.senders, a, Video)
    case None =>
      FirstOfKindIgnoresFlags(c.senders, a, b, Video);
    case Some(i) =>
      FirstOfKindAt(c.senders[i := s], b, Video, i);
  }

  /** Redirecting twice to the same video track is redirecting once. */
  lemma RedirectIdempotent(c: Connection, tracks: map<TrackId, Track>, t: TrackId)
    requires AllIn(c.senders, tracks) && t in tracks && tracks[t].kind == Video
    ensures AllIn(ReplaceVideoSender(c, tracks, t).senders, tracks)
    ensures ReplaceVideoSender(ReplaceVideoSender(c, tracks, t), tracks, t) == ReplaceVideoSender(c, tracks, t)
  {
    RedirectLastWins(c, tracks, tracks, t, t);
  }

  // ------------------------------------------------------ camera substitution

  /**
   * `getVideoTracks()[0]` removed from the stream and stopped, when there is
   * one: the stream part and the track table part.
   */
  function DropFirstVideo(stream: seq<TrackId>, tracks: map<TrackId, Track>): (r: (seq<TrackId>, map<TrackId, Track>))
    requires AllIn(stream, tracks)
    ensures r.1.Keys == tracks.Keys && AllIn(r.0, tracks)
    ensures forall x :: x in r.0 ==> x in stream
    ensures forall t :: t in tracks ==> r.1[t].kind == tracks[t].kind && r.1[t].enabled == tracks[t].enabled
  {
    match FirstOfKind(stream, tracks, Video)
    case None => (stream, tracks)
    case Some(i) =>
      var v := stream[i];
      (Without(stream, v), tracks[v := tracks[v].(live := false)])
  }

  /**
   * With a video track in the stream, the first one leaves the stream and
   * stops; every other track stays in the stream and is untouched.  With
   * none, nothing changes.
   */
  lemma DropFirstVideoEffect(stream: seq<TrackId>, tracks: map<TrackId, Track>)
    requires AllIn(stream, tracks)
    ensures var r := DropFirstVideo(stream, tracks);
      match FirstOfKind(stream, tracks, Video)
      case None => r == (stream, tracks)
      case Some(i) =>
        && stream[i] !in r.0 && !r.1[stream[i]].live
        && (forall x :: x in stream && x != stream[i] ==> x in r.0)
        && (forall t :: t in tracks && t != stream[i] ==> r.1[t] == tracks[t])
  {
  }

  // ---------------------------------------------------------------- teardown

  /** `track.stop()` on every track in ids. */
  function Stopped(tracks: map<TrackId, Track>, ids: set<TrackId>): (r: map<TrackId, Track>)
    ensures r.Keys == tracks.Keys
    ensures forall t :: t in tracks && t in ids ==> !r[t].live && r[t].kind == tracks[t].kind
    ensures forall t :: t in tracks && t !in ids ==> r[t] == tracks[t]
  {
    map t | t in tracks :: if t in ids then tracks[t].(live := false) else tracks[t]
  }

  /** `pc.close()` on every connection in handles. */
  function ClosedAll(conns: map<Handle, Connection>, handles: set<Handle>): (r: map<Handle, Connection>)
    ensures r.Keys == conns.Keys
    ensures forall h :: h in conns && h in handles ==> r[h].state == Closed
    ensures forall h :: h in conns ==> r[h].senders == conns[h].senders && r[h].peer == conns[h].peer
    ensures forall h :: h in conns && h !in handles ==> r[h] == conns[h]
  {
    map h | h in conns :: if h in handles then conns[h].(state := Closed) else conns[h]
  }

  /** The ids of a stream's tracks; none without a stream. */
  function StreamTracks(stream: Option<seq<TrackId>>): set<TrackId> {
    if stream.Some? then set i | 0 <= i < |stream.value| :: stream.value[i] else {}
  }

  /** Stopping a and then b is stopping both at once. */
  lemma StoppedTwice(tracks: map<TrackId, Track>, a: set<TrackId>, b: set<TrackId>)
    ensures Stopped(Stopped(tracks, a), b) == Stopped(tracks, a + b)
  {
  }

  /** Closing no connection changes nothing. */
  lemma ClosedNone(conns: map<Handle, Connection>)
    ensures ClosedAll(conns, {}) == conns
  {
  }

  function RequestedKinds(video: bool, audio: bool): seq<Kind> {
    (if audio then [Audio] else []) + (if video then [Video] else [])
  }

  function FirstStream(streams: seq<StreamId>): Option<StreamId> {
    if |streams| > 0 then Some(streams[0]) else None
  }

  // -------------------------------------------------------------------- hook

  class WebRtcHook {
    var localStream: Option<seq<TrackId>>
    var remoteStreams: map<PeerId, Option<StreamId>>
    var mediaState: MediaState
    var isConnected: bool
    var peerConnections: map<PeerId, Handle>
    /** Every peer connection made so far, including those no longer in the map. */
    var connections: map<Handle, Connection>
    /** Every track acquired so far. */
    var tracks: map<TrackId, Track>
    var nextTrack: nat
    var nextHandle: nat

    ghost predicate Valid()
      reads this
    {
      && (forall t :: t in tracks ==> t < nextTrack)
      && (forall h :: h in connections ==> h < nextHandle)
      && (localStream.Some? ==> AllIn(localStream.value, tracks))
      && (forall h :: h in connections ==> AllIn(connections[h].senders, tracks))
      && (forall p :: p in peerConnections ==>
            peerConnections[p] in connections && connections[peerConnections[p]].peer == p)
    }

    constructor ()
      ensures Valid()
      ensures localStream == None && remoteStreams == map[] && mediaState == InitialMediaState
      ensures !isConnected && peerConnections == map[] && connections == map[] && tracks == map[]
    {
      localStream, remoteStreams, mediaState, isConnected := None, map[], InitialMediaState, false;
      peerConnections, connections, tracks := map[], map[], map[];
      nextTrack, nextHandle := 0, 0;
    }

    /** A new live, enabled track from a capture the browser granted. */
    method NewTrack(kind: Kind) returns (t: TrackId)
      requires Valid()
      modifies this`tracks, this`nextTrack
      ensures Valid()
      ensures t == old(nextTrack) && t !in old(tracks) && nextTrack == t + 1
      ensures tracks == old(tracks)[t := Track(kind, true, true, false)]
    {
      t := nextTrack;
      tracks := tracks[t := Track(kind, true, true, false)];
      nextTrack := nextTrack + 1;
    }

    /** getLocalStream: a new stream with one fresh track per requested kind becomes the local stream. */
    method GetLocalStream(video: bool, audio: bool, granted: bool) returns (r: Result<seq<TrackId>, MediaError>)
      requires Valid()
      modifies this`localStream, this`tracks, this`nextTrack
      ensures Valid()
      ensures r.Ok? <==> granted && (video || audio)
      ensures r.Err? ==> localStream == old(localStream) && tracks == old(tracks)
      ensures r.Ok? ==> && localStream == Some(r.value)
                        && |r.value| == |RequestedKinds(video, audio)|
                        && (forall i :: 0 <= i < |r.value| ==>
                              r.value[i] !in old(tracks)
                              && tracks[r.value[i]] == Track(RequestedKinds(video, audio)[i], true, true, false))
                        && (forall t :: t in old(tracks) ==> t in tracks && tracks[t] == old(tracks)[t])
    {
      if !(video || audio) {
        return Err(NoTrackRequested);
      }
      if !granted {
        return Err(AccessDenied);
      }
      var ids: seq<TrackId> := [];
      if audio {
        var a := NewTrack(Audio);
        ids := ids + [a];
      }
      if video {
        var v := NewTrack(Video);
        ids := ids + [v];
      }
      localStream := Some(ids);
      r := Ok(ids);
    }

    method ToggleVideo()
      requires Valid()
      modifies this`tracks, this`mediaState
      ensures Valid()
      ensures (tracks, mediaState) == Toggled(localStream, old(tracks), old(mediaState), Video)
    {
      ToggleKind(Video);
    }

    method ToggleAudio()
      requires Valid()
      modifies this`tracks, this`mediaState
      ensures Valid()
      ensures (tracks, mediaState) == Toggled(localStream, old(tracks), old(mediaState), Audio)
    {
      ToggleKind(Audio);
    }

    method ToggleKind(k: Kind)
      requires Valid()
      modifies this`tracks, this`mediaState
      ensures Valid()
      ensures (tracks, mediaState) == Toggled(localStream, old(tracks), old(mediaState), k)
    {
      if localStream.Some? {
        var i := FirstOfKind(localStream.value, tracks, k);
        if i.Some? {
          var t := localStream.value[i.value];
          tracks := tracks[t := tracks[t].(enabled := !tracks[t].enabled)];
          mediaState := WithFlag(mediaState, k, tracks[t].enabled);
        }
      }
    }

    /** The `forEach` over the peer connection map pointing each video sender at t. */
    method RedirectVideoSenders(t: TrackId)
      requires Valid() && t in tracks
      modifies this`connections
      ensures Valid()
      ensures connections == Redirected(old(connections), peerConnections.Values, tracks, t)
    {
      var start := connections;
      var todo := peerConnections.Values;
      while todo != {}
        invariant todo <= peerConnections.Values
        invariant connections == Redirected(start, peerConnections.Values - todo, tracks, t)
        decreases todo
      {
        var h :| h in todo;
        assert h in start;
        RedirectedStep(start, peerConnections.Values - todo, tracks, t, h);
        assert peerConnections.Values - (todo - {h}) == (peerConnections.Values - todo) + {h};
        connections := connections[h := ReplaceVideoSender(start[h], tracks, t)];
        todo := todo - {h};
      }
    }

    /** `getVideoTracks()[0]` removed from the local stream and stopped, when there is one. */
    method RemoveFirstVideo()
      requires Valid() && localStream.Some?
      modifies this`tracks, this`localStream
      ensures Valid()
      ensures var d := DropFirstVideo(old(localStream).value, old(tracks));
        tracks == d.1 && localStream == Some(d.0)
    {
      var d := DropFirstVideo(localStream.value, tracks);
      tracks := d.1;
      localStream := Some(d.0);
    }

    /**
     * startScreenShare: the display capture's video track s replaces the
     * camera track in every connection's video sender and in the local
     * stream; the old video track is stopped and screen becomes true.  A
     * refused capture changes nothing; without a local stream the capture
     * is made and left unused.  Nothing guards against a share in progress.
     */
    method StartScreenShare(granted: bool)
      requires Valid()
      modifies this`tracks, this`nextTrack, this`connections, this`localStream, this`mediaState
      ensures Valid()
      ensures !granted ==> && tracks == old(tracks) && connections == old(connections)
                           && localStream == old(localStream) && mediaState == old(mediaState)
      ensures granted ==> nextTrack == old(nextTrack) + 1
      ensures granted && old(localStream).None? ==>
                && tracks == old(tracks)[old(nextTrack) := Track(Video, true, true, false)]
                && connections == old(connections) && localStream == None && mediaState == old(mediaState)
      ensures granted && old(localStream).Some? ==>
                var s := old(nextTrack);
                var acquired := old(tracks)[s := Track(Video, true, true, false)];
                var d := DropFirstVideo(old(localStream).value, acquired);
                && connections == Redirected(old(connections), peerConnections.Values, acquired, s)
                && localStream == Some(d.0 + [s])
                && tracks == d.1[s := Track(Video, true, true, true)]
                && mediaState == old(mediaState).(screen := true)
    {
      if !granted {
        return;
      }
      var screenTrack := NewTrack(Video);
      if localStream.None? {
        return;
      }
      ShareTrack(screenTrack);
    }

    /** The part of startScreenShare run with a local stream, for the captured track s. */
    method ShareTrack(s: TrackId)
      requires Valid() && localStream.Some? && s in tracks && s !in localStream.value
      requires tracks[s] == Track(Video, true, true, false)
      modifies this`tracks, this`connections, this`localStream, this`mediaState
      ensures Valid()
      ensures var d := DropFirstVideo(old(localStream).value, old(tracks));
        && connections == Redirected(old(connections), peerConnections.Values, old(tracks), s)
        && localStream == Some(d.0 + [s])
        && tracks == d.1[s := Track(Video, true, true, true)]
        && mediaState == old(mediaState).(screen := true)
    {
      DropFirstVideoEffect(localStream.value, tracks);
      RedirectVideoSenders(s);
      RemoveFirstVideo();
      assert tracks[s] == Track(Video, true, true, false);
      assert s !in localStream.value;
      localStream := Some(localStream.value + [s]);
      mediaState := mediaState.(screen := true);
      tracks := tracks[s := Track(Video, true, true, true)];
    }

    /**
     * A track ends on its own (for the display capture: sharing stopped
     * from the browser).  A stopped or already ended track fires nothing.
     * The screen track's handler sets screen to false and re-acquires camera
     * and microphone as a new local stream; senders are not redirected.
     */
    method OnTrackEnded(t: TrackId, granted: bool)
      requires Valid()
      modifies this`tracks, this`nextTrack, this`localStream, this`mediaState
      ensures Valid()
      ensures t !in old(tracks) || !old(tracks)[t].live ==>
                tracks == old(tracks) && localStream == old(localStream) && mediaState == old(mediaState)
      ensures t in old(tracks) && old(tracks)[t].live && !old(tracks)[t].restartsCameraOnEnd ==>
                && tracks == old(tracks)[t := old(tracks)[t].(live := false)]
                && localStream == old(localStream) && mediaState == old(mediaState)
      ensures t in old(tracks) && old(tracks)[t].live && old(tracks)[t].restartsCameraOnEnd ==>
                && mediaState == old(mediaState).(screen := false)
                && t in tracks && tracks[t] == old(tracks)[t].(live := false)
                && (forall x :: x in old(tracks) && x != t ==> x in tracks && tracks[x] == old(tracks)[x])
                && (granted ==> && localStream.Some? && |localStream.value| == 2
                                && localStream.value[0] !in old(tracks) && localStream.value[1] !in old(tracks)
                                && tracks[localStream.value[0]] == Track(Audio, true, true, false)
                                && tracks[localStream.value[1]] == Track(Video, true, true, false))
                && (!granted ==> && localStream == old(localStream)
                                 && tracks == old(tracks)[t := old(tracks)[t].(live := false)])
    {
      if t !in tracks || !tracks[t].live {
        return;
      }
      tracks := tracks[t := tracks[t].(live := false)];
      if tracks[t].restartsCameraOnEnd {
        mediaState := mediaState.(screen := false);
        var restarted := GetLocalStream(true, true, granted);
      }
    }

    /**
     * stopScreenShare: nothing unless there is a local stream and screen is
     * true.  The current video track is stopped and removed; a fresh camera
     * track c is added, every video sender is pointed at it, and screen
     * becomes false.  If the camera is refused, screen stays true.
     */
    method StopScreenShare(granted: bool)
      requires Valid()
      modifies this`tracks, this`nextTrack, this`connections, this`localStream, this`mediaState
      ensures Valid()
      ensures old(localStream).None? || !old(mediaState).screen ==>
                && tracks == old(tracks) && connections == old(connections)
                && localStream == old(localStream) && mediaState == old(mediaState)
      ensures old(localStream).Some? && old(mediaState).screen ==>
                var d := DropFirstVideo(old(localStream).value, old(tracks));
                var c := old(nextTrack);
                && (!granted ==> && localStream == Some(d.0) && tracks == d.1
                                 && connections == old(connections) && mediaState == old(mediaState))
                && (granted ==> && localStream == Some(d.0 + [c])
                                && tracks == d.1[c := Track(Video, true, true, false)]
                                && connections == Redirected(old(connections), peerConnections.Values, tracks, c)
                                && mediaState == old(mediaState).(screen := false))
    {
      if localStream.None? || !mediaState.screen {
        return;
      }
      RemoveFirstVideo();
      if !granted {
        return;
      }
      var camera := NewTrack(Video);
      localStream := Some(WithTrack(localStream.value, camera));
      RedirectVideoSenders(camera);
      mediaState := mediaState.(screen := false);
    }

    /**
     * createPeerConnection(p): a new connection carrying every local track
     * is stored under p, replacing (without closing) any earlier one.
     */
    method CreatePeerConnection(p: PeerId) returns (h: Handle)
      requires Valid()
      modifies this`connections, this`peerConnections, this`nextHandle
      ensures Valid()
      ensures h == old(nextHandle) && h !in old(connections)
      ensures connections == old(connections)[h := Connection(p, localStream.GetOr([]), New)]
      ensures peerConnections == old(peerConnections)[p := h]
    {
      h := nextHandle;
      nextHandle := nextHandle + 1;
      connections := connections[h := Connection(p, localStream.GetOr([]), New)];
      peerConnections := peerConnections[p := h];
    }

    /** ontrack on connection h: the event's first stream becomes its peer's remote stream. */
    method OnRemoteTrack(h: Handle, streams: seq<StreamId>)
      requires Valid()
      modifies this`remoteStreams
      ensures Valid()
      ensures h in connections && connections[h].state != Closed ==>
                remoteStreams == old(remoteStreams)[connections[h].peer := FirstStream(streams)]
      ensures h !in connections || connections[h].state == Closed ==> remoteStreams == old(remoteStreams)
    {
      if h in connections && connections[h].state != Closed {
        remoteStreams := remoteStreams[connections[h].peer := FirstStream(streams)];
      }
    }

    /**
     * onconnectionstatechange on connection h: connected sets isConnected;
     * disconnected or failed clears it and removes the connection's peer id
     * from both maps, whichever connection the map now holds for that id.
     */
    method OnConnectionStateChange(h: Handle, state: ConnectionState)
      requires Valid()
      modifies this`connections, this`isConnected, this`peerConnections, this`remoteStreams
      ensures Valid()
      ensures h !in old(connections) || old(connections)[h].state == Closed ==>
                && connections == old(connections) && isConnected == old(isConnected)
                && peerConnections == old(peerConnections) && remoteStreams == old(remoteStreams)
      ensures h in old(connections) && old(connections)[h].state != Closed ==>
                var peer := old(connections)[h].peer;
                && connections == old(connections)[h := old(connections)[h].(state := state)]
                && (state == Connected ==> isConnected && peerConnections == old(peerConnections)
                                           && remoteStreams == old(remoteStreams))
                && (state == Disconnected || state == Failed ==>
                      && !isConnected
                      && peerConnections == old(peerConnections) - {peer}
                      && remoteStreams == old(remoteStreams) - {peer})
                && (state != Connected && state != Disconnected && state != Failed ==>
                      && isConnected == old(isConnected) && peerConnections == old(peerConnections)
                      && remoteStreams == old(remoteStreams))
    {
      if h !in connections || connections[h].state == Closed {
        return;
      }
      var peer := connections[h].peer;
      connections := connections[h := connections[h].(state := state)];
      if state == Connected {
        isConnected := true;
      } else if state == Disconnected || state == Failed {
        isConnected := false;
        peerConnections := peerConnections - {peer};
        remoteStreams := remoteStreams - {peer};
      }
    }

    /** The `forEach(track => track.stop())` over the local stream. */
    method StopAll(stream: seq<TrackId>)
      requires Valid() && AllIn(stream, tracks)
      modifies this`tracks
      ensures Valid()
      ensures tracks == Stopped(old(tracks), set i | 0 <= i < |stream| :: stream[i])
    {
      var i := 0;
      while i < |stream|
        invariant 0 <= i <= |stream|
        invariant tracks == Stopped(old(tracks), set k | 0 <= k < i :: stream[k])
      {
        assert (set k | 0 <= k < i + 1 :: stream[k]) == (set k | 0 <= k < i :: stream[k]) + {stream[i]};
        tracks := tracks[stream[i] := tracks[stream[i]].(live := false)];
        i := i + 1;
      }
    }

    /** The `forEach(pc => pc.close())` over the peer connection map. */
    method CloseAll()
      requires Valid()
      modifies this`connections
      ensures Valid()
      ensures connections == ClosedAll(old(connections), peerConnections.Values)
    {
      var start := connections;
      var todo := peerConnections.Values;
      while todo != {}
        invariant todo <= peerConnections.Values
        invariant connections == ClosedAll(start, peerConnections.Values - todo)
        decreases todo
      {
        var h :| h in todo;
        assert h in start;
        assert peerConnections.Values - (todo - {h}) == (peerConnections.Values - todo) + {h};
        connections := connections[h := start[h].(state := Closed)];
        todo := todo - {h};
      }
    }

    /** cleanup: stop every local track, close every mapped connection, empty both maps. */
    method Cleanup()
      requires Valid()
      modifies this`tracks, this`localStream, this`connections, this`peerConnections,
               this`remoteStreams, this`isConnected
      ensures Valid()
      ensures tracks == Stopped(old(tracks), StreamTracks(old(localStream)))
      ensures localStream == None
      ensures connections == ClosedAll(old(connections), old(peerConnections).Values)
      ensures peerConnections == map[] && remoteStreams == map[] && !isConnected
    {
      CleanupFor(localStream);
    }

    /**
     * The cleanup closure made while the local stream was `captured`: it
     * stops that stream's tracks and clears the local stream when it
     * captured one, then closes every mapped connection and empties both
     * maps.  The maps are read through the ref, so they are the current ones.
     */
    method CleanupFor(captured: Option<seq<TrackId>>)
      requires Valid() && (captured.Some? ==> AllIn(captured.value, tracks))
      modifies this`tracks, this`localStream, this`connections, this`peerConnections,
               this`remoteStreams, this`isConnected
      ensures Valid()
      ensures tracks == Stopped(old(tracks), StreamTracks(captured))
      ensures localStream == if captured.Some? then None else old(localStream)
      ensures connections == ClosedAll(old(connections), old(peerConnections).Values)
      ensures peerConnections == map[] && remoteStreams == map[] && !isConnected
    {
      if captured.Some? {
        StopAll(captured.value);
        localStream := None;
      } else {
        assert Stopped(tracks, {}) == tracks;
      }
      CloseAll();
      peerConnections := map[];
      remoteStreams := map[];
      isConnected := false;
    }

    /**
     * The effect whose teardown is `cleanup`, after the local stream object
     * changed from `previous` to the current one (`cleanup` depends on the
     * stream, so the effect re-runs).  React first runs the closure made for
     * `previous`.  If that closure clears a stream it captured while a new
     * stream is installed, the stream changes once more, to null, and the
     * closure made for the new stream runs too; the closure made for null
     * then stays.  So a stream replacing another one ends with no local
     * stream, both streams' tracks stopped.  An unchanged stream runs
     * nothing.
     */
    method StreamChangedEffect(previous: Option<seq<TrackId>>)
      requires Valid() && (previous.Some? ==> AllIn(previous.value, tracks))
      modifies this`tracks, this`localStream, this`connections, this`peerConnections,
               this`remoteStreams, this`isConnected
      ensures Valid()
      ensures previous == old(localStream) ==>
                && tracks == old(tracks) && localStream == old(localStream) && connections == old(connections)
                && peerConnections == old(peerConnections) && remoteStreams == old(remoteStreams)
                && isConnected == old(isConnected)
      ensures previous != old(localStream) ==>
                && tracks == Stopped(old(tracks), StreamTracks(previous)
                                                 + (if previous.Some? then StreamTracks(old(localStream)) else {}))
                && localStream == (if previous.Some? then None else old(localStream))
                && connections == ClosedAll(old(connections), old(peerConnections).Values)
                && peerConnections == map[] && remoteStreams == map[] && !isConnected
    {
      if previous == localStream {
        return;
      }
      var current := localStream;
      var before := tracks;
      CleanupFor(previous);
      if previous.Some? && current.Some? {
        var closed := connections;
        CleanupFor(current);
        StoppedTwice(before, StreamTracks(previous), StreamTracks(current));
        ClosedNone(closed);
      } else {
        assert StreamTracks(previous) + {} == StreamTracks(previous);
      }
    }
  }

  // --------------------------------------------------------------- scenarios

  /**
   * A connection replaced under the same peer id keeps its handlers: when
   * the earlier one fails, the later one is removed from the map, though it
   * is neither closed nor failed.
   */
  method StaleConnectionFailureScenario() returns (hook: WebRtcHook, first: Handle, second: Handle)
    ensures fresh(hook) && hook.Valid()
    ensures first != second && first in hook.connections && second in hook.connections
    ensures hook.connections[first].state == Failed && hook.connections[second].state == New
    ensures "bob" !in hook.peerConnections
  {
    hook := new WebRtcHook();
    first := hook.CreatePeerConnection("bob");
    second := hook.CreatePeerConnection("bob");
    hook.OnConnectionStateChange(first, Failed);
  }
}
