/** Whole runs of the controller page: a session is mounted, a fixed
    sequence of browser and signaling events is delivered to it, and the
    resulting transcripts are stated exactly. */
module Scenarios {
  import opened Types
  import opened Candidates
  import opened Transcript
  import opened Game
  import LobbyCode

  /** The socket opens, an offer arrives, a local candidate is found: the
      server sees a registration, one answer and the candidate, each stamped
      with the lobby code taken from the path and this client's id. */
  method Handshake(code: string, id: string, offer: string, answer: string, local: IceCandidate)
    returns (sent: seq<SignalingMessage>)
    ensures sent == [SignalingMessage(RegisterClient, code, id),
                     SignalingMessage(Answer(answer), code, id),
                     SignalingMessage(IceCandidateClient(local), code, id)]
    ensures Answers(sent) == [answer]
  {
    LobbyCode.PathRoundTrip(code);
    var s := new Session("/" + code, id);
    s.OnSocketOpen();
    s.OnSignalingFrame(OfferFrame(offer), answer);
    s.OnLocalCandidate(Some(local));
    s.OnLocalCandidate(None);
    sent := s.outbox;
    AnswersSnoc([SignalingMessage(RegisterClient, code, id)], SignalingMessage(Answer(answer), code, id));
    AnswersSnoc([SignalingMessage(RegisterClient, code, id), SignalingMessage(Answer(answer), code, id)],
                SignalingMessage(IceCandidateClient(local), code, id));
  }

  /** Two remote candidates arrive before the offer: they wait in the queue,
      then reach the peer connection after the two descriptions, in arrival
      order and carrying the "candidate:" prefix, and the queue empties. */
  method EarlyCandidatesReplayed(a: IceCandidate, b: IceCandidate, offer: string, answer: string)
    returns (queuedBefore: seq<IceCandidate>, steps: seq<PeerStep>, queuedAfter: seq<IceCandidate>)
    ensures queuedBefore == [Normalize(a), Normalize(b)]
    ensures steps == [RemoteDescriptionSet(offer), LocalDescriptionSet(answer),
                      CandidateApplied(Normalize(a)), CandidateApplied(Normalize(b))]
    ensures AppliedCandidates(steps) == [Normalize(a), Normalize(b)]
    ensures AllPrefixed(AppliedCandidates(steps))
    ensures queuedAfter == []
  {
    var s := new Session("/ROOM", "me");
    s.OnIceCandidate(a);
    s.OnIceCandidate(b);
    queuedBefore := s.candidateQueue;
    assert queuedBefore == [Normalize(a), Normalize(b)] == s.received;
    s.OnOffer(offer, answer);
    assert Replayed(queuedBefore) == [CandidateApplied(Normalize(a)), CandidateApplied(Normalize(b))];
    assert AppliedCandidates(s.peerLog) + [] == s.received;
    steps := s.peerLog;
    queuedAfter := s.candidateQueue;
  }



  /** The data channel arrives, opens and closes: the session goes from
      connecting to connected to disconnected, FORWARD is sent once, and the
      close shows the channel error and asks the channel to close. */
  method OpenThenClose() returns (states: seq<ConnectionState>, accepting: bool, effects: seq<Effect>)
    ensures states == [Connecting, Connected, Disconnected]
    ensures !accepting
    ensures effects == [ChannelSent("FORWARD"), ErrorShown(ChannelError), ChannelCloseRequested]
  {
    var s := new Session("/ROOM", "me");
    states := [s.connectionState];
    s.OnDataChannel(Opening);
    s.OnChannelOpen();
    states := states + [s.connectionState];
    s.OnChannelClose();
    states := states + [s.connectionState];
    accepting := s.isAcceptingInput;
    effects := s.output;
  }

  /** "start" then "stop" before any channel exists: input is accepted and
      then refused, the connection state does not move, and the attempt to
      send FORWARD on the missing channel shows one error. */
  method StartStopWithoutChannel() returns (accepting: seq<bool>, state: ConnectionState, effects: seq<Effect>)
    ensures accepting == [false, true, false]
    ensures state == Connecting
    ensures effects == [ErrorShown(NotOpenError)]
  {
    var s := new Session("/ROOM", "me");
    accepting := [s.isAcceptingInput];
    s.OnSignalingFrame(MessageFrame("start"), "");
    accepting := accepting + [s.isAcceptingInput];
    s.OnSignalingFrame(MessageFrame("stop"), "");
    accepting := accepting + [s.isAcceptingInput];
    state := s.connectionState;
    effects := s.output;
  }

  /** A socket error disconnects the session, yet a data channel that opens
      afterwards connects it again: disconnected is not a final state. */
  method ReconnectAfterSocketError() returns (states: seq<ConnectionState>, effects: seq<Effect>)
    ensures states == [Disconnected, Connected]
    ensures effects == [ErrorShown(SocketError), ChannelSent("FORWARD")]
  {
    var s := new Session("/ROOM", "me");
    s.OnSocketError();
    states := [s.connectionState];
    s.OnDataChannel(Opening);
    s.OnChannelOpen();
    states := states + [s.connectionState];
    effects := s.output;
  }

  /** Steering on an open channel: each change of direction sends its name
      once; pressing both buttons counts as FORWARD. */
  method Steering() returns (effects: seq<Effect>, direction: DirectionState)
    ensures effects == [ChannelSent("FORWARD"), ChannelSent("LEFT"), ChannelSent("FORWARD"),
                        ChannelSent("RIGHT"), ChannelSent("FORWARD")]
    ensures direction == Forward
  {
    var s := new Session("/ROOM", "me");
    s.OnDataChannel(Opening);
    s.OnChannelOpen();
    s.SetLeftPressed(true);
    s.SetRightPressed(true);
    s.SetLeftPressed(false);
    s.SetRightPressed(false);
    effects := s.output;
    direction := s.directionState;
  }

  /** Buttons pressed while input is refused change nothing and send nothing. */
  method PressWhileRefused() returns (effects: seq<Effect>, left: bool, direction: DirectionState)
    ensures effects == [] && !left && direction == Forward
  {
    var s := new Session("/ROOM", "me");
    s.SetLeftPressed(true);
    s.SetRightPressed(true);
    effects := s.output;
    left := s.isLeftPressed;
    direction := s.directionState;
  }

  /** An error frame without a message shows the default reason; a frame of
      an unknown type shows the unsupported-type error and leaves the
      connection state alone. */
  method ErrorAndUnknownFrames() returns (states: seq<ConnectionState>, effects: seq<Effect>)
    ensures states == [Connecting, Disconnected]
    ensures effects == [ErrorShown(UnsupportedError), ErrorShown(DefaultDisconnect)]
  {
    var s := new Session("/ROOM", "me");
    s.OnSignalingFrame(Unsupported("ping"), "");
    states := [s.connectionState];
    s.OnSignalingFrame(ErrorFrame(None), "");
    states := states + [s.connectionState];
    effects := s.output;
  }

  /** After an offer, neither a "stop" message nor an error frame forgets the
      remote description: a candidate arriving later, through the frame
      dispatcher, is handed over at once and nothing is queued. */
  method LateCandidateAfterStopAndError(c: IceCandidate, offer: string, answer: string)
    returns (steps: seq<PeerStep>, queued: seq<IceCandidate>)
    ensures steps == [RemoteDescriptionSet(offer), LocalDescriptionSet(answer), CandidateApplied(Normalize(c))]
    ensures queued == []
  {
    var s := new Session("/ROOM", "me");
    s.OnSignalingFrame(OfferFrame(offer), answer);
    s.OnSignalingFrame(MessageFrame("stop"), answer);
    s.OnSignalingFrame(ErrorFrame(Some("game over")), answer);
    s.OnSignalingFrame(IceCandidateFrame(c), answer);
    steps := s.peerLog;
    queued := s.candidateQueue;
  }

  /** A failed peer connection while the channel is open shows the failure,
      asks the channel to close and leaves it closing. */
  method PeerFailureWhileOpen() returns (channel: Option<ReadyState>, effects: seq<Effect>, state: ConnectionState)
    ensures channel == Some(Closing)
    ensures effects == [ChannelSent("FORWARD"), ErrorShown(PeerFailure), ChannelCloseRequested]
    ensures state == Disconnected
  {
    var s := new Session("/ROOM", "me");
    s.OnDataChannel(Opening);
    s.OnChannelOpen();
    s.OnPeerConnectionStateChange("connected");
    s.OnPeerConnectionStateChange("failed");
    channel := s.dataChannel;
    effects := s.output;
    state := s.connectionState;
  }

  /** A "start" message on an open channel sends FORWARD, and the buttons
      are still released afterwards, so the next press turns LEFT. */
  method StartThenPress() returns (effects: seq<Effect>, left: bool, right: bool)
    ensures effects == [ChannelSent("FORWARD"), ChannelSent("LEFT")]
    ensures left && !right
  {
    var s := new Session("/ROOM", "me");
    s.OnDataChannel(Open);
    s.OnSignalingFrame(MessageFrame("start"), "");
    s.SetLeftPressed(true);
    effects := s.output;
    left := s.isLeftPressed;
    right := s.isRightPressed;
  }
}
