/** The client-side peer-connection manager of a voice room
    (frontend/src/hooks/useWebRTC.js). One object holds what the hook keeps in
    refs and state: the connection table keyed by peer id, the audio elements
    keyed by user id, the roster and the local capture stream. Every socket
    event handler and connection callback is a method that runs to completion.

    The browser's RTCPeerConnection objects, media tracks, audio elements and
    the socket are opaque: a connection is a handle `Conn(n)`, and every call
    the hook makes on any of them is appended, in order, to one ghost trace. */
module PeerManager {
  import opened Common
  import opened Roster

  type PeerId = string
  type RoomId = string

  datatype TrackKind = AudioTrack | VideoTrack
  datatype Track = Track(id: nat, kind: TrackKind)
  datatype Stream = Stream(id: nat, tracks: seq<Track>)

  /** An RTCPeerConnection, by identity. */
  datatype Conn = Conn(handle: nat)
  /** An <audio> element handed to `provideRef`. */
  datatype AudioSink = AudioSink(handle: nat)

  datatype SdpType = Offer | Answer | PrAnswer | Rollback
  datatype SessionDescription = SessionDescription(kind: SdpType, sdp: string)
  datatype Candidate = Candidate(line: string)

  /** Events the hook emits on the socket, with their payloads. */
  datatype Event =
    | Join(room: RoomId, user: Profile)
    | Leave(room: RoomId)
    | RelaySdp(peerId: PeerId, description: SessionDescription)
    | RelayIce(peerId: PeerId, candidate: Candidate)
    | Mute(room: RoomId, userId: UserId)
    | Unmute(room: RoomId, userId: UserId)

  /** One call on an external object. */
  datatype Action =
    | Emit(event: Event)
    | Open(conn: Conn)
    | AddTrack(conn: Conn, track: Track, stream: Stream)
    | CreateOffer(conn: Conn)
    | CreateAnswer(conn: Conn)
    | SetLocal(conn: Conn, description: SessionDescription)
    | SetRemote(conn: Conn, description: SessionDescription)
    | AddIce(conn: Conn, candidate: Candidate)
    | Close(conn: Conn)
    | StopTrack(track: Track)
    | SetEnabled(track: Track, enabled: bool)
    | SilenceSink(sink: AudioSink)
    | AttachSink(sink: AudioSink, source: Option<Stream>)

  /** What the closures `onicecandidate` and `ontrack` of one connection captured. */
  datatype Binding = Binding(peerId: PeerId, remoteUser: Profile)

  /** A callback handed to `addNewClient`, run once the roster update has
      been committed: it looks up the `<audio>` element of `userId` and, if
      one has been provided, silences it (for the local user) and plays
      `source` on it. */
  datatype SinkCallback = SinkCallback(userId: UserId, source: Option<Stream>, silence: bool)

  /** The REMOVE_PEER payload as the handler destructures it: it reads
      `peerID`; `peerId`, the key every other handler reads, is carried but unread. */
  datatype RemovePeerPayload = RemovePeerPayload(peerID: Option<PeerId>, peerId: Option<PeerId>, userId: UserId)

  // ---------------------------------------------------------------------------
  // The call sequences the handlers' forEach loops produce, and what they leave
  // observable.

  function AudioTracks(tracks: seq<Track>): (r: seq<Track>)
    ensures forall t :: t in r <==> t in tracks && t.kind == AudioTrack
  {
    if tracks == [] then []
    else if tracks[0].kind == AudioTrack then [tracks[0]] + AudioTracks(tracks[1..])
    else AudioTracks(tracks[1..])
  }

  /** `stream.getTracks().forEach((t) => t.stop())`. */
  function StopAll(tracks: seq<Track>): (r: seq<Action>)
    ensures |r| == |tracks|
  {
    seq(|tracks|, k requires 0 <= k < |tracks| => StopTrack(tracks[k]))
  }

  /** `getAudioTracks().forEach((t) => (t.enabled = enabled))`. */
  function EnableAll(tracks: seq<Track>, enabled: bool): (r: seq<Action>)
    ensures |r| == |tracks|
  {
    seq(|tracks|, k requires 0 <= k < |tracks| => SetEnabled(tracks[k], enabled))
  }

  /** `getTracks().forEach((track) => pc.addTrack(track, stream))`. */
  function AddTracks(conn: Conn, stream: Stream): (r: seq<Action>)
    ensures |r| == |stream.tracks|
  {
    seq(|stream.tracks|, k requires 0 <= k < |stream.tracks| => AddTrack(conn, stream.tracks[k], stream))
  }

  /** Helper: the three forEach loops make one call per track, the k-th
      call on the k-th track. */
  lemma ForEachCallsInOrder(tracks: seq<Track>, enabled: bool, conn: Conn, stream: Stream)
    ensures forall k :: 0 <= k < |tracks| ==> StopAll(tracks)[k] == StopTrack(tracks[k])
    ensures forall k :: 0 <= k < |tracks| ==> EnableAll(tracks, enabled)[k] == SetEnabled(tracks[k], enabled)
    ensures forall k :: 0 <= k < |stream.tracks| ==>
      AddTracks(conn, stream)[k] == AddTrack(conn, stream.tracks[k], stream)
  {
  }

  /** The events emitted, in order. */
  function Emitted(trace: seq<Action>): (r: seq<Event>)
    ensures |r| <= |trace|
  {
    if trace == [] then []
    else if trace[0].Emit? then [trace[0].event] + Emitted(trace[1..])
    else Emitted(trace[1..])
  }

  lemma {:induction false} EmittedAppend(a: seq<Action>, b: seq<Action>)
    ensures Emitted(a + b) == Emitted(a) + Emitted(b)
  {
    if a == [] {
      assert a + b == b;
    } else {
      assert (a + b)[0] == a[0];
      assert (a + b)[1..] == a[1..] + b;
      EmittedAppend(a[1..], b);
    }
  }

  /** Track calls emit nothing. */
  lemma {:induction false} TrackCallsEmitNothing(tracks: seq<Track>, enabled: bool)
    ensures Emitted(EnableAll(tracks, enabled)) == [] && Emitted(StopAll(tracks)) == []
  {
    if tracks != [] {
      TrackCallsEmitNothing(tracks[1..], enabled);
      assert EnableAll(tracks, enabled) == [SetEnabled(tracks[0], enabled)] + EnableAll(tracks[1..], enabled);
      assert StopAll(tracks) == [StopTrack(tracks[0])] + StopAll(tracks[1..]);
    }
  }

  /** The `enabled` flag a track shows after a trace: the last value set, if any. */
  function EnabledAfter(trace: seq<Action>, t: Track): Option<bool> {
    if trace == [] then None
    else if trace[|trace| - 1] == SetEnabled(t, true) then Some(true)
    else if trace[|trace| - 1] == SetEnabled(t, false) then Some(false)
    else EnabledAfter(trace[..|trace| - 1], t)
  }

  /** After `EnableAll`, every listed track shows the flag that was set and
      every other track shows what it showed before. */
  lemma {:induction false} EnableAllObserved(trace: seq<Action>, tracks: seq<Track>, enabled: bool, t: Track)
    ensures EnabledAfter(trace + EnableAll(tracks, enabled), t)
         == if t in tracks then Some(enabled) else EnabledAfter(trace, t)
  {
    if tracks != [] {
      var n := |tracks| - 1;
      var init := tracks[..n];
      assert EnableAll(tracks, enabled) == EnableAll(init, enabled) + [SetEnabled(tracks[n], enabled)];
      assert trace + EnableAll(tracks, enabled) == (trace + EnableAll(init, enabled)) + [SetEnabled(tracks[n], enabled)];
      EnableAllObserved(trace, init, enabled, t);
      assert tracks == init + [tracks[n]];
    } else {
      assert trace + EnableAll(tracks, enabled) == trace;
    }
  }

  /** The mute button's calls, the loop over the audio tracks and then one
      emit, add exactly that event and leave every audio track showing the
      flag that was set. */
  lemma MuteCallsObserved(before: seq<Action>, tracks: seq<Track>, enabled: bool, event: Event)
    ensures var after := before + EnableAll(AudioTracks(tracks), enabled) + [Emit(event)];
      && Emitted(after) == Emitted(before) + [event]
      && forall t :: t in tracks && t.kind == AudioTrack ==> EnabledAfter(after, t) == Some(enabled)
  {
    var audio := AudioTracks(tracks);
    var toggled := before + EnableAll(audio, enabled);
    TrackCallsEmitNothing(audio, enabled);
    EmittedAppend(before, EnableAll(audio, enabled));
    EmittedAppend(toggled, [Emit(event)]);
    assert Emitted([Emit(event)]) == [event];
    forall t | t in tracks && t.kind == AudioTrack
      ensures EnabledAfter(toggled + [Emit(event)], t) == Some(enabled)
    {
      EnableAllObserved(before, audio, enabled, t);
      assert (toggled + [Emit(event)])[..|toggled|] == toggled;
    }
  }

  /** A track is stopped once a stop call on it is in the trace. */
  predicate StoppedIn(trace: seq<Action>, t: Track) {
    StopTrack(t) in trace
  }

  lemma StopAllObserved(trace: seq<Action>, tracks: seq<Track>, t: Track)
    ensures StoppedIn(trace + StopAll(tracks), t) <==> StoppedIn(trace, t) || t in tracks
  {
    var all := trace + StopAll(tracks);
    if t in tracks {
      var k :| 0 <= k < |tracks| && tracks[k] == t;
      assert all[|trace| + k] == StopTrack(t);
    }
    if StoppedIn(all, t) && !StoppedIn(trace, t) {
      var m :| 0 <= m < |all| && all[m] == StopTrack(t);
      assert m >= |trace|;
      assert tracks[m - |trace|] == t;
    }
  }

  // ---------------------------------------------------------------------------

  class Manager {
    const roomId: RoomId
    const user: Profile

    /** `clients`. */
    var clients: seq<Client>
    /** `connections.current`. */
    var connections: map<PeerId, Conn>
    /** `audioElements.current`. */
    var audioElements: map<UserId, AudioSink>
    /** `localMediaStream.current`. */
    var localStream: Option<Stream>
    /** The capture effect's `mounted` flag. */
    var mounted: bool
    /** The closures registered on each connection ever created. */
    var bindings: map<Conn, Binding>
    var nextHandle: nat
    /** Callbacks passed to `setClients` that have not run yet, oldest first. */
    var pending: seq<SinkCallback>

    ghost var closed: set<Conn>
    ghost var trace: seq<Action>

    /** Ids in the roster are unique; each live connection is the one created
        for its peer id and has not been closed. */
    ghost predicate Valid()
      reads this
    {
      && UniqueIds(clients)
      && (forall p :: p in connections ==>
            connections[p] in bindings && bindings[connections[p]].peerId == p && connections[p] !in closed)
      && (forall c :: c in bindings ==> c.handle < nextHandle)
      && (forall c :: c in closed ==> c in bindings)
    }

    /** Mounting the hook: the socket is open and nothing else exists yet. */
    constructor (roomId: RoomId, user: Profile)
      ensures Valid()
      ensures this.roomId == roomId && this.user == user
      ensures clients == [] && connections == map[] && audioElements == map[]
      ensures localStream == None && mounted && trace == [] && pending == []
    {
      this.roomId := roomId;
      this.user := user;
      clients := [];
      connections := map[];
      audioElements := map[];
      localStream := None;
      mounted := true;
      bindings := map[];
      nextHandle := 0;
      pending := [];
      closed := {};
      trace := [];
    }

    /** Every live connection is a different object. */
    lemma ConnectionsDistinct(p: PeerId, q: PeerId)
      requires Valid() && p in connections && q in connections && p != q
      ensures connections[p] != connections[q]
    {
    }

    /** `startCapture` once `getUserMedia` has settled: `result` is the stream,
        or None when access failed (the error is only logged). The callback
        that silences the local user's element and plays the stream on it is
        queued behind the roster update, so it runs after JOIN (`RunCallback`). */
    method StartCapture(result: Option<Stream>)
      requires Valid()
      modifies this
      ensures Valid()
      ensures connections == old(connections) && audioElements == old(audioElements)
      ensures bindings == old(bindings) && closed == old(closed) && mounted == old(mounted)
      ensures result.None? ==>
        clients == old(clients) && localStream == old(localStream) && trace == old(trace) && pending == old(pending)
      ensures result.Some? && !old(mounted) ==>
        && clients == old(clients) && localStream == old(localStream) && pending == old(pending)
        && trace == old(trace) + StopAll(result.value.tracks)
      ensures result.Some? && old(mounted) ==>
        && localStream == result
        && clients == AddNewClient(old(clients), user)
        && pending == old(pending) + [SinkCallback(user.id, result, true)]
        && trace == old(trace) + [Emit(Join(roomId, user))]
      ensures Emitted(trace) == Emitted(old(trace)) + (if result.Some? && old(mounted) then [Join(roomId, user)] else [])
    {
      EmittedAppend(old(trace), []);
      if result.None? {
        return;
      }
      var stream := result.value;
      if !mounted {
        var i := 0;
        while i < |stream.tracks|
          invariant 0 <= i <= |stream.tracks|
          invariant trace == old(trace) + StopAll(stream.tracks[..i])
          modifies this`trace
        {
          assert StopAll(stream.tracks[..i + 1]) == StopAll(stream.tracks[..i]) + [StopTrack(stream.tracks[i])];
          trace := trace + [StopTrack(stream.tracks[i])];
          i := i + 1;
        }
        assert stream.tracks[..i] == stream.tracks;
        TrackCallsEmitNothing(stream.tracks, true);
        EmittedAppend(old(trace), StopAll(stream.tracks));
        return;
      }
      localStream := result;
      AddNewClientKeepsUnique(clients, user);
      clients := AddNewClient(clients, user);
      pending := pending + [SinkCallback(user.id, result, true)];
      trace := trace + [Emit(Join(roomId, user))];
      EmittedAppend(old(trace), [Emit(Join(roomId, user))]);
      assert Emitted([Emit(Join(roomId, user))]) == [Join(roomId, user)];
    }

    /** The capture effect's cleanup: stop every local track and forget the
        stream, then emit LEAVE. Later settling of `getUserMedia` is refused. */
    method Teardown()
      requires Valid()
      modifies this
      ensures Valid() && !mounted && localStream == None
      ensures clients == old(clients) && connections == old(connections)
      ensures audioElements == old(audioElements) && bindings == old(bindings) && closed == old(closed)
      ensures pending == old(pending)
      ensures trace == old(trace)
        + (if old(localStream).Some? then StopAll(old(localStream).value.tracks) else [])
        + [Emit(Leave(roomId))]
      ensures Emitted(trace) == Emitted(old(trace)) + [Leave(roomId)]
    {
      mounted := false;
      ghost var stops: seq<Action> := [];
      if localStream.Some? {
        var tracks := localStream.value.tracks;
        var i := 0;
        while i < |tracks|
          invariant 0 <= i <= |tracks|
          invariant trace == old(trace) + StopAll(tracks[..i])
          modifies this`trace
        {
          assert StopAll(tracks[..i + 1]) == StopAll(tracks[..i]) + [StopTrack(tracks[i])];
          trace := trace + [StopTrack(tracks[i])];
          i := i + 1;
        }
        assert tracks[..i] == tracks;
        stops := StopAll(tracks);
        TrackCallsEmitNothing(tracks, true);
        localStream := None;
      }
      trace := trace + [Emit(Leave(roomId))];
      EmittedAppend(old(trace), stops);
      EmittedAppend(old(trace) + stops, [Emit(Leave(roomId))]);
    }

    /** ADD_PEER `{ peerId, createOffer, user }`. `offerSdp` is what
        `pc.createOffer()` resolves to. */
    method HandleNewPeer(peerId: PeerId, createOffer: bool, remoteUser: Profile, offerSdp: string)
      requires Valid()
      modifies this
      ensures Valid()
      ensures clients == old(clients) && audioElements == old(audioElements)
      ensures localStream == old(localStream) && mounted == old(mounted) && closed == old(closed)
      ensures pending == old(pending)
      ensures peerId in old(connections) ==>
        connections == old(connections) && bindings == old(bindings) && trace == old(trace)
      ensures peerId !in old(connections) ==>
        var conn := Conn(old(nextHandle));
        var offer := SessionDescription(Offer, offerSdp);
        && conn !in old(bindings)
        && connections == old(connections)[peerId := conn]
        && bindings == old(bindings)[conn := Binding(peerId, remoteUser)]
        && trace == old(trace) + [Open(conn)]
             + (if localStream.Some? then AddTracks(conn, localStream.value) else [])
             + (if createOffer then [CreateOffer(conn), SetLocal(conn, offer), Emit(RelaySdp(peerId, offer))] else [])
      ensures Emitted(trace) == Emitted(old(trace))
        + (if peerId !in old(connections) && createOffer then [RelaySdp(peerId, SessionDescription(Offer, offerSdp))] else [])
    {
      if peerId in connections {
        return;
      }
      var conn := OpenConnection(peerId, remoteUser);
      ghost var added: seq<Action> := [];
      if localStream.Some? {
        added := AddTracks(conn, localStream.value);
        AddLocalTracks(conn, localStream.value);
      }
      ghost var offering: seq<Action> := [];
      if createOffer {
        var offer := SessionDescription(Offer, offerSdp);
        offering := [CreateOffer(conn), SetLocal(conn, offer), Emit(RelaySdp(peerId, offer))];
        EmittedNegotiation(CreateOffer(conn), conn, peerId, offer);
        trace := trace + offering;
      }
      EmittedAppend(old(trace), [Open(conn)]);
      EmittedAppend(old(trace) + [Open(conn)], added);
      EmittedAppend(old(trace) + [Open(conn)] + added, offering);
    }

    /** `new RTCPeerConnection(...)`, stored under `peerId`, with its two
        callbacks bound to `peerId` and `remoteUser`. */
    method OpenConnection(peerId: PeerId, remoteUser: Profile) returns (conn: Conn)
      requires Valid() && peerId !in connections
      modifies this`nextHandle, this`connections, this`bindings, this`trace
      ensures Valid()
      ensures conn == Conn(old(nextHandle)) && conn !in old(bindings)
      ensures connections == old(connections)[peerId := conn]
      ensures bindings == old(bindings)[conn := Binding(peerId, remoteUser)]
      ensures trace == old(trace) + [Open(conn)]
    {
      conn := Conn(nextHandle);
      assert forall p :: p in connections ==> connections[p] != conn;
      nextHandle := nextHandle + 1;
      trace := trace + [Open(conn)];
      connections := connections[peerId := conn];
      bindings := bindings[conn := Binding(peerId, remoteUser)];
    }

    /** The forEach over the local stream's tracks in `handleNewPeer`. */
    method AddLocalTracks(conn: Conn, stream: Stream)
      modifies this`trace
      ensures trace == old(trace) + AddTracks(conn, stream)
      ensures Emitted(trace) == Emitted(old(trace))
    {
      var i := 0;
      while i < |stream.tracks|
        invariant 0 <= i <= |stream.tracks|
        invariant trace == old(trace) + AddTracks(conn, stream)[..i]
      {
        assert AddTracks(conn, stream)[..i + 1] == AddTracks(conn, stream)[..i] + [AddTrack(conn, stream.tracks[i], stream)];
        trace := trace + [AddTrack(conn, stream.tracks[i], stream)];
        i := i + 1;
      }
      assert AddTracks(conn, stream)[..i] == AddTracks(conn, stream);
      AddTracksEmitNothing(conn, stream);
      EmittedAppend(old(trace), AddTracks(conn, stream));
    }

    /** A connection's `onicecandidate`: a discovered candidate is relayed to
        the peer the connection was created for; the end-of-candidates event
        (no candidate) is not. */
    method OnIceCandidate(conn: Conn, candidate: Option<Candidate>)
      requires Valid() && conn in bindings
      modifies this`trace
      ensures Valid()
      ensures trace == old(trace) + (if candidate.Some? then [Emit(RelayIce(bindings[conn].peerId, candidate.value))] else [])
      ensures |Emitted(trace)| == |Emitted(old(trace))| + (if candidate.Some? then 1 else 0)
    {
      EmittedAppend(trace, []);
      if candidate.Some? {
        EmittedAppend(trace, [Emit(RelayIce(bindings[conn].peerId, candidate.value))]);
        trace := trace + [Emit(RelayIce(bindings[conn].peerId, candidate.value))];
      }
    }

    /** A connection's `ontrack`: the remote user joins the roster, and a
        callback that plays the first received stream on that user's audio
        element is queued behind the roster update. */
    method OnTrack(conn: Conn, streams: seq<Stream>)
      requires Valid() && conn in bindings
      modifies this`clients, this`pending
      ensures Valid()
      ensures var remote := bindings[conn].remoteUser;
        && clients == AddNewClient(old(clients), remote)
        && pending == old(pending) + [SinkCallback(remote.id, if streams == [] then None else Some(streams[0]), false)]
    {
      var remote := bindings[conn].remoteUser;
      AddNewClientKeepsUnique(clients, remote);
      clients := AddNewClient(clients, remote);
      pending := pending + [SinkCallback(remote.id, if streams == [] then None else Some(streams[0]), false)];
    }

    /** The oldest pending `addNewClient` callback, run after React has
        committed the roster update, by which time the new entry's `<audio>`
        may have been handed to `provideRef`. */
    method RunCallback()
      requires Valid() && pending != []
      modifies this`trace, this`pending
      ensures Valid()
      ensures pending == old(pending)[1..]
      ensures var cb := old(pending)[0];
        trace == old(trace)
          + (if cb.userId in audioElements
             then (if cb.silence then [SilenceSink(audioElements[cb.userId])] else [])
                  + [AttachSink(audioElements[cb.userId], cb.source)]
             else [])
      ensures Emitted(trace) == Emitted(old(trace))
    {
      var cb := pending[0];
      pending := pending[1..];
      EmittedAppend(trace, []);
      if cb.userId in audioElements {
        var audio := audioElements[cb.userId];
        var calls := (if cb.silence then [SilenceSink(audio)] else []) + [AttachSink(audio, cb.source)];
        EmittedNone(calls);
        EmittedAppend(trace, calls);
        trace := trace + calls;
      }
    }

    /** ICE_CANDIDATE `{ peerId, icecandidate }`: applied at once to a known
        connection, dropped otherwise. */
    method HandleIce(peerId: PeerId, icecandidate: Option<Candidate>)
      requires Valid()
      modifies this`trace
      ensures Valid()
      ensures trace == old(trace)
        + (if icecandidate.Some? && peerId in connections then [AddIce(connections[peerId], icecandidate.value)] else [])
      ensures Emitted(trace) == Emitted(old(trace))
    {
      EmittedAppend(trace, []);
      if icecandidate.Some? && peerId in connections {
        EmittedAppend(trace, [AddIce(connections[peerId], icecandidate.value)]);
        trace := trace + [AddIce(connections[peerId], icecandidate.value)];
      }
    }

    /** SESSION_DESCRIPTION `{ peerId, sessionDescription }`. `answerSdp` is
        what `pc.createAnswer()` resolves to. */
    method HandleSessionDescription(peerId: PeerId, description: SessionDescription, answerSdp: string)
      requires Valid()
      modifies this`trace
      ensures Valid()
      ensures peerId !in connections ==> trace == old(trace)
      ensures peerId in connections ==>
        var conn := connections[peerId];
        var answer := SessionDescription(Answer, answerSdp);
        trace == old(trace) + [SetRemote(conn, description)]
          + (if description.kind == Offer then [CreateAnswer(conn), SetLocal(conn, answer), Emit(RelaySdp(peerId, answer))] else [])
      ensures Emitted(trace) == Emitted(old(trace))
        + (if peerId in connections && description.kind == Offer then [RelaySdp(peerId, SessionDescription(Answer, answerSdp))] else [])
    {
      EmittedAppend(trace, []);
      if peerId !in connections {
        return;
      }
      var conn := connections[peerId];
      EmittedAppend(trace, [SetRemote(conn, description)]);
      trace := trace + [SetRemote(conn, description)];
      if description.kind == Offer {
        var answer := SessionDescription(Answer, answerSdp);
        EmittedAppend(trace, [CreateAnswer(conn), SetLocal(conn, answer), Emit(RelaySdp(peerId, answer))]);
        EmittedNegotiation(CreateAnswer(conn), conn, peerId, answer);
        trace := trace + [CreateAnswer(conn), SetLocal(conn, answer), Emit(RelaySdp(peerId, answer))];
      }
    }

    /** REMOVE_PEER as the handler is written: the connection looked up is the
        one under `peerID`. */
    method HandleRemovePeer(payload: RemovePeerPayload)
      requires Valid()
      modifies this
      ensures Valid()
      ensures RemovedPeer(old(connections), old(audioElements), old(clients), old(trace), old(closed), payload.peerID, payload.userId)
      ensures localStream == old(localStream) && mounted == old(mounted) && bindings == old(bindings)
      ensures pending == old(pending)
      ensures payload.peerID.None? ==> connections == old(connections) && closed == old(closed)
    {
      RemovePeer(payload.peerID, payload.userId);
    }

    /** REMOVE_PEER reading `peerId`, the key the other handlers read. */
    method HandleRemovePeerByPeerId(payload: RemovePeerPayload)
      requires Valid()
      modifies this
      ensures Valid()
      ensures RemovedPeer(old(connections), old(audioElements), old(clients), old(trace), old(closed), payload.peerId, payload.userId)
      ensures localStream == old(localStream) && mounted == old(mounted) && bindings == old(bindings)
      ensures pending == old(pending)
      ensures payload.peerId.Some? ==> payload.peerId.value !in connections
    {
      RemovePeer(payload.peerId, payload.userId);
    }

    /** The state after REMOVE_PEER has looked up `key`: a connection found
        there is closed and forgotten, the audio element and roster entry of
        `userId` are gone, and nothing else changed. */
    ghost predicate RemovedPeer(
      connections0: map<PeerId, Conn>, audio0: map<UserId, AudioSink>, clients0: seq<Client>,
      trace0: seq<Action>, closed0: set<Conn>, key: Option<PeerId>, userId: UserId)
      reads this
    {
      && (if key.Some? && key.value in connections0 then
            && connections == connections0 - {key.value}
            && closed == closed0 + {connections0[key.value]}
            && trace == trace0 + [Close(connections0[key.value])]
          else
            connections == connections0 && closed == closed0 && trace == trace0)
      && audioElements == audio0 - {userId}
      && clients == RemoveClient(clients0, userId)
    }

    method RemovePeer(key: Option<PeerId>, userId: UserId)
      requires Valid()
      modifies this
      ensures Valid()
      ensures RemovedPeer(old(connections), old(audioElements), old(clients), old(trace), old(closed), key, userId)
      ensures localStream == old(localStream) && mounted == old(mounted) && bindings == old(bindings)
      ensures pending == old(pending)
    {
      if key.Some? && key.value in connections {
        var conn := connections[key.value];
        trace := trace + [Close(conn)];
        closed := closed + {conn};
        connections := connections - {key.value};
      }
      audioElements := audioElements - {userId};
      RemoveClientKeepsUnique(clients, userId);
      clients := RemoveClient(clients, userId);
    }

    /** `handleMute(mute, userId)`. */
    method HandleMute(mute: bool, userId: UserId)
      requires Valid()
      modifies this`trace, this`clients
      ensures Valid()
      ensures localStream.None? ==> trace == old(trace) && clients == old(clients)
      ensures localStream.Some? ==>
        && trace == old(trace) + EnableAll(AudioTracks(localStream.value.tracks), !mute)
             + [Emit(if mute then Mute(roomId, userId) else Unmute(roomId, userId))]
        && clients == SetMuted(old(clients), userId, mute)
      ensures localStream.Some? ==>
        && Emitted(trace) == Emitted(old(trace)) + [if mute then Mute(roomId, userId) else Unmute(roomId, userId)]
        && forall t :: t in localStream.value.tracks && t.kind == AudioTrack ==> EnabledAfter(trace, t) == Some(!mute)
    {
      if localStream.None? {
        return;
      }
      var audio := AudioTracks(localStream.value.tracks);
      var i := 0;
      while i < |audio|
        invariant 0 <= i <= |audio|
        invariant trace == old(trace) + EnableAll(audio[..i], !mute)
        modifies this`trace
      {
        assert EnableAll(audio[..i + 1], !mute) == EnableAll(audio[..i], !mute) + [SetEnabled(audio[i], !mute)];
        trace := trace + [SetEnabled(audio[i], !mute)];
        i := i + 1;
      }
      assert audio[..i] == audio;
      var event := if mute then Mute(roomId, userId) else Unmute(roomId, userId);
      trace := trace + [Emit(event)];
      SetMutedKeepsUnique(clients, userId, mute);
      clients := SetMuted(clients, userId, mute);
      MuteCallsObserved(old(trace), localStream.value.tracks, !mute, event);
    }

    /** The first join: capture settles, JOIN is emitted, the local user's
        roster entry is rendered and its `<audio>` provided, and only then does
        the callback silence that element and play the stream on it. */
    method FirstJoin(stream: Stream, sink: AudioSink)
      requires Valid() && mounted && pending == []
      modifies this
      ensures Valid() && pending == []
      ensures trace == old(trace) + [Emit(Join(roomId, user)), SilenceSink(sink), AttachSink(sink, Some(stream))]
    {
      StartCapture(Some(stream));
      ProvideRef(sink, user.id);
      RunCallback();
    }

    /** `provideRef(instance, userId)`. */
    method ProvideRef(instance: AudioSink, userId: UserId)
      requires Valid()
      modifies this`audioElements
      ensures Valid() && audioElements == old(audioElements)[userId := instance]
    {
      audioElements := audioElements[userId := instance];
    }
  }

  lemma AddTracksEmitNothing(conn: Conn, stream: Stream)
    ensures Emitted(AddTracks(conn, stream)) == []
  {
    var r := AddTracks(conn, stream);
    EmittedNone(r);
  }

  /** Creating a description, setting it locally and relaying it emits the relay only. */
  lemma EmittedNegotiation(create: Action, conn: Conn, peerId: PeerId, d: SessionDescription)
    requires !create.Emit?
    ensures Emitted([create, SetLocal(conn, d), Emit(RelaySdp(peerId, d))]) == [RelaySdp(peerId, d)]
  {
    var steps := [create, SetLocal(conn, d), Emit(RelaySdp(peerId, d))];
    assert steps[1..][1..][1..] == [];
    assert Emitted(steps[1..][1..]) == [RelaySdp(peerId, d)];
    assert steps[1..][1..] == [Emit(RelaySdp(peerId, d))];
    assert Emitted(steps[1..]) == [RelaySdp(peerId, d)];
  }

  lemma {:induction false} EmittedNone(trace: seq<Action>)
    requires forall k :: 0 <= k < |trace| ==> !trace[k].Emit?
    ensures Emitted(trace) == []
  {
    if trace != [] {
      EmittedNone(trace[1..]);
    }
  }
}
