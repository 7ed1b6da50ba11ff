/** The controller page as one session object: the fields are the page's
    React state, its data-channel ref and the candidate queue kept by its
    signaling handler; the methods are the handlers wired to the WebSocket,
    the peer connection, the data channel and the two buttons. Each handler
    runs as one atomic step, followed by the re-runs of the page's two
    input effects that React performs for the state it changed. Each
    handler's `modifies` clause names the only fields it may change; the
    frame dispatcher `OnSignalingFrame` may change any field, and its
    postconditions give the new value of every one. */
module Game {
  import opened Types
  import opened Candidates
  import opened Direction
  import opened Transcript
  import LobbyCode

  const SocketError: string := "WebSocket error: Unable to connect to server"
  const PeerFailure: string := "Something went terribly wrong"
  const ChannelError: string := "WebRTC error: Connection closed"
  const DefaultDisconnect: string := "Connection closed"
  const UnsupportedError: string := "Message type not supported"
  const InitialColor: string := "#fff"

  /** `close()` on a data channel: one that is not yet closing starts closing. */
  function AfterClose(s: ReadyState): (t: ReadyState)
    ensures t == Closing || t == Closed
    ensures s == Closed ==> t == Closed
  {
    if s == Closing || s == Closed then s else Closing
  }

  class Session {
    const clientId: string
    const lobbyCode: string

    var candidateQueue: seq<IceCandidate>
    var hasRemoteDescription: bool
    var connectionState: ConnectionState
    var isAcceptingInput: bool
    var isLeftPressed: bool
    var isRightPressed: bool
    var directionState: DirectionState
    var playerColor: string
    var dataChannel: Option<ReadyState>
    /** Signaling messages written to the WebSocket, in order. */
    var outbox: seq<SignalingMessage>
    /** Steps taken on the peer connection, in order. */
    var peerLog: seq<PeerStep>
    /** Effects on the data channel and the user, in order. */
    var output: seq<Effect>

    /** Every inbound candidate, normalised, in arrival order. */
    ghost var received: seq<IceCandidate>
    /** The number of offers handled. */
    ghost var offersAnswered: nat

    /** The direction is what the reducer makes of the buttons, and while
        input is not accepted no button counts as pressed. */
    ghost predicate InputSettled()
      reads this`directionState, this`isLeftPressed, this`isRightPressed, this`isAcceptingInput
    {
      && directionState == Reduce(isLeftPressed, isRightPressed)
      && (!isAcceptingInput ==> !isLeftPressed && !isRightPressed)
    }

    /** No candidate is ever dropped or applied twice: the candidates handed
        to the peer connection followed by those still queued are exactly the
        ones received, in arrival order. None is handed over before a remote
        description exists, and none waits once it does. */
    ghost predicate QueueDiscipline()
      reads this`peerLog, this`candidateQueue, this`received, this`hasRemoteDescription
    {
      && AppliedCandidates(peerLog) + candidateQueue == received
      && (hasRemoteDescription ==> candidateQueue == [])
      && (!hasRemoteDescription ==> AppliedCandidates(peerLog) == [])
      && AllPrefixed(received)
    }

    ghost predicate Valid()
      reads this`directionState, this`isLeftPressed, this`isRightPressed, this`isAcceptingInput,
            this`peerLog, this`candidateQueue, this`received, this`hasRemoteDescription,
            this`outbox, this`offersAnswered
    {
      && InputSettled()
      && QueueDiscipline()
      && Stamped(outbox, lobbyCode, clientId)
      && |Answers(outbox)| == offersAnswered
    }

    // ---------------------------------------------------------------
    // The whole effect of each kind of event, as a relation between the
    // state before and after it. Each names every field it keeps.

    /** An inbound candidate was normalised and recorded; it was handed over
        at once if a remote description exists, and queued otherwise. */
    twostate predicate CandidateHandled(c: IceCandidate)
      reads this
    {
      && received == old(received) + [Normalize(c)]
      && (hasRemoteDescription ==>
            peerLog == old(peerLog) + [CandidateApplied(Normalize(c))] && candidateQueue == old(candidateQueue))
      && (!hasRemoteDescription ==>
            candidateQueue == old(candidateQueue) + [Normalize(c)] && peerLog == old(peerLog))
      && unchanged(this`hasRemoteDescription, this`outbox, this`offersAnswered, this`output,
                   this`connectionState, this`isAcceptingInput, this`isLeftPressed, this`isRightPressed,
                   this`directionState, this`playerColor, this`dataChannel)
    }

    /** An offer was set as the remote description and `answer` as the local
        one, one stamped answer was sent, and the queue was handed over in
        arrival order and emptied, so every candidate received is applied. */
    twostate predicate OfferHandled(sdp: string, answer: string)
      reads this
    {
      && hasRemoteDescription && candidateQueue == []
      && peerLog == old(peerLog) + [RemoteDescriptionSet(sdp), LocalDescriptionSet(answer)]
                                 + Replayed(old(candidateQueue))
      && AppliedCandidates(peerLog) == received
      && outbox == old(outbox) + [SignalingMessage(Answer(answer), lobbyCode, clientId)]
      && offersAnswered == old(offersAnswered) + 1
      && unchanged(this`received, this`output, this`connectionState, this`isAcceptingInput,
                   this`isLeftPressed, this`isRightPressed, this`directionState, this`playerColor,
                   this`dataChannel)
    }

    /** Input acceptance was set to `accepting` and the effects settled:
        turning it on offers FORWARD once and keeps the buttons, turning it
        off releases both buttons and sends nothing, and setting the current
        value changes nothing. */
    twostate predicate AcceptingSet(accepting: bool)
      reads this
    {
      && isAcceptingInput == accepting
      && (accepting == old(isAcceptingInput) ==>
            unchanged(this`output, this`directionState, this`isLeftPressed, this`isRightPressed))
      && (accepting && !old(isAcceptingInput) ==>
            && output == old(output) + [Gate(dataChannel, Name(Forward))]
            && unchanged(this`directionState, this`isLeftPressed, this`isRightPressed))
      && (!accepting ==> directionState == Forward && !isLeftPressed && !isRightPressed && output == old(output))
      && unchanged(this`peerLog, this`candidateQueue, this`hasRemoteDescription, this`received,
                   this`outbox, this`offersAnswered, this`connectionState, this`playerColor, this`dataChannel)
    }

    /** The player colour became `color`, and nothing else changed. */
    twostate predicate ColorChanged(color: string)
      reads this
    {
      && playerColor == color
      && unchanged(this`peerLog, this`candidateQueue, this`hasRemoteDescription, this`received,
                   this`outbox, this`offersAnswered, this`output, this`connectionState, this`isAcceptingInput,
                   this`isLeftPressed, this`isRightPressed, this`directionState, this`dataChannel)
    }

    /** Exactly one error, `message`, was shown, and nothing else changed. */
    twostate predicate OnlyErrorShown(message: string)
      reads this
    {
      && output == old(output) + [ErrorShown(message)]
      && unchanged(this`peerLog, this`candidateQueue, this`hasRemoteDescription, this`received,
                   this`outbox, this`offersAnswered, this`connectionState, this`isAcceptingInput,
                   this`isLeftPressed, this`isRightPressed, this`directionState, this`playerColor,
                   this`dataChannel)
    }

    /** The session disconnected for `reason`: the reason was shown, a close
        was requested if a channel exists, input is refused with both buttons
        released and FORWARD, and the signaling state is kept. */
    twostate predicate DisconnectedWith(reason: string)
      reads this
    {
      && connectionState == Disconnected && !isAcceptingInput
      && directionState == Forward && !isLeftPressed && !isRightPressed
      && output == old(output) + [ErrorShown(reason)]
                               + (if old(dataChannel).Some? then [ChannelCloseRequested] else [])
      && dataChannel == (if old(dataChannel).Some? then Some(AfterClose(old(dataChannel).value)) else None)
      && unchanged(this`peerLog, this`candidateQueue, this`hasRemoteDescription, this`received,
                   this`outbox, this`offersAnswered, this`playerColor)
    }

    /** Mounting the page: the session reads its lobby code from the path and
        takes `id` as its client id; the input effect's first run turns the
        initial NONE direction into FORWARD. */
    constructor (pathname: string, id: string)
      ensures Valid()
      ensures lobbyCode == LobbyCode.FromPath(pathname) && clientId == id
      ensures candidateQueue == [] && !hasRemoteDescription
      ensures connectionState == Connecting && !isAcceptingInput
      ensures !isLeftPressed && !isRightPressed && directionState == Forward
      ensures playerColor == InitialColor && dataChannel == None
      ensures outbox == [] && output == [] && peerLog == []
      ensures received == [] && offersAnswered == 0
    {
      clientId := id;
      lobbyCode := LobbyCode.FromPath(pathname);
      candidateQueue := [];
      hasRemoteDescription := false;
      connectionState := Connecting;
      isAcceptingInput := false;
      isLeftPressed := false;
      isRightPressed := false;
      directionState := NoDirection;
      playerColor := InitialColor;
      dataChannel := None;
      outbox := [];
      peerLog := [];
      output := [];
      received := [];
      offersAnswered := 0;
      new;
      InputEffect();
      DirectionEffect();
    }

    // ---------------------------------------------------------------
    // The two input effects, the send primitive and the error display

    /** The reducer effect: the direction follows the pressed buttons. */
    method DirectionEffect()
      modifies this`directionState
      ensures directionState == Reduce(isLeftPressed, isRightPressed)
    {
      if (isLeftPressed && isRightPressed) || (!isLeftPressed && !isRightPressed) {
        directionState := Forward;
      } else if isLeftPressed {
        directionState := Left;
      } else if isRightPressed {
        directionState := Right;
      }
    }

    /** `showError`: one error shown to the user. */
    method ShowError(message: string)
      modifies this`output
      ensures output == old(output) + [ErrorShown(message)]
    {
      output := output + [ErrorShown(message)];
    }

    /** `SendMessage`: the text goes out only on an open channel; otherwise
        exactly one error is shown and nothing is sent. */
    method SendMessage(message: string)
      modifies this`output
      ensures output == old(output) + [Gate(dataChannel, message)]
    {
      if dataChannel.Some? && dataChannel.value == Open {
        output := output + [ChannelSent(message)];
      } else {
        ShowError(NotOpenError);
      }
    }

    /** The input effect: while input is accepted the current direction is
        offered to the channel; otherwise the direction is reset to FORWARD
        and both buttons are released. */
    method InputEffect()
      modifies this`output, this`directionState, this`isLeftPressed, this`isRightPressed
      ensures isAcceptingInput ==>
        && output == old(output) + [Gate(dataChannel, Name(directionState))]
        && unchanged(this`directionState, this`isLeftPressed, this`isRightPressed)
      ensures !isAcceptingInput ==>
        && directionState == Forward && !isLeftPressed && !isRightPressed
        && output == old(output)
    {
      if isAcceptingInput {
        SendMessage(Name(directionState));
      } else {
        directionState := Forward;
        isLeftPressed := false;
        isRightPressed := false;
      }
    }

    /** `setIsAcceptingInput(accepting)` and the effect runs it causes. A
        change re-runs the input effect; the reset it may make re-runs both
        effects once more, which then change nothing. */
    method SetAcceptingInput(accepting: bool)
      requires InputSettled()
      modifies this`isAcceptingInput, this`output, this`directionState, this`isLeftPressed, this`isRightPressed
      ensures InputSettled() && AcceptingSet(accepting)
    {
      if accepting != isAcceptingInput {
        isAcceptingInput := accepting;
        InputEffect();
      }
    }

    // ---------------------------------------------------------------
    // Connection handlers

    /** `handleConnected`: connected, and input is accepted; if it was not
        accepted before, the input effect offers FORWARD to the channel. */
    method HandleConnected()
      requires Valid()
      modifies this`connectionState, this`isAcceptingInput, this`output,
               this`directionState, this`isLeftPressed, this`isRightPressed
      ensures Valid()
      ensures connectionState == Connected && isAcceptingInput
      ensures unchanged(this`directionState, this`isLeftPressed, this`isRightPressed)
      ensures old(isAcceptingInput) ==> output == old(output)
      ensures !old(isAcceptingInput) ==> output == old(output) + [Gate(dataChannel, Name(Forward))]
    {
      connectionState := Connected;
      SetAcceptingInput(true);
    }

    /** `handleDisconnected`: show the reason (or the default one), mark the
        session disconnected, stop accepting input and close the data
        channel if there is one. */
    method HandleDisconnected(error: Option<string>)
      requires Valid()
      modifies this`output, this`connectionState, this`isAcceptingInput, this`dataChannel,
               this`directionState, this`isLeftPressed, this`isRightPressed
      ensures Valid() && DisconnectedWith(error.GetOr(DefaultDisconnect))
    {
      ShowError(error.GetOr(DefaultDisconnect));
      connectionState := Disconnected;
      CloseChannel();
      SetAcceptingInput(false);
    }

    /** `dataChannel.current.close()`, when the session has a channel. */
    method CloseChannel()
      modifies this`output, this`dataChannel
      ensures dataChannel == (if old(dataChannel).Some? then Some(AfterClose(old(dataChannel).value)) else None)
      ensures output == old(output) + (if old(dataChannel).Some? then [ChannelCloseRequested] else [])
    {
      if dataChannel.Some? {
        output := output + [ChannelCloseRequested];
        dataChannel := Some(AfterClose(dataChannel.value));
      } else {
        assert output + [] == output;
      }
    }

    // ---------------------------------------------------------------
    // WebSocket, peer-connection and data-channel events

    /** `sendWebsocketMessage`: stamp the lobby code and client id and write
        the message to the socket. */
    method SendSignaling(payload: Payload)
      modifies this`outbox
      ensures outbox == old(outbox) + [SignalingMessage(payload, lobbyCode, clientId)]
      ensures Answers(outbox) == Answers(old(outbox)) + (if payload.Answer? then [payload.sdp] else [])
      ensures Stamped(old(outbox), lobbyCode, clientId) ==> Stamped(outbox, lobbyCode, clientId)
    {
      AnswersSnoc(outbox, SignalingMessage(payload, lobbyCode, clientId));
      outbox := outbox + [SignalingMessage(payload, lobbyCode, clientId)];
    }

    /** The socket opened: register this client with the signaling server. */
    method OnSocketOpen()
      requires Valid()
      modifies this`outbox
      ensures Valid()
      ensures outbox == old(outbox) + [SignalingMessage(RegisterClient, lobbyCode, clientId)]
    {
      SendSignaling(RegisterClient);
    }

    /** The socket failed. */
    method OnSocketError()
      requires Valid()
      modifies this`output, this`connectionState, this`isAcceptingInput, this`dataChannel,
               this`directionState, this`isLeftPressed, this`isRightPressed
      ensures Valid() && DisconnectedWith(SocketError)
    {
      HandleDisconnected(Some(SocketError));
    }

    /** The peer connection found a local candidate (`None` marks the end of
        gathering): forward it to the remote peer at once. */
    method OnLocalCandidate(candidate: Option<IceCandidate>)
      requires Valid()
      modifies this`outbox
      ensures Valid()
      ensures candidate.Some? ==>
        outbox == old(outbox) + [SignalingMessage(IceCandidateClient(candidate.value), lobbyCode, clientId)]
      ensures candidate.None? ==> outbox == old(outbox)
    {
      if candidate.Some? {
        SendSignaling(IceCandidateClient(candidate.value));
      }
    }

    /** The peer connection changed state; only "failed" disconnects. */
    method OnPeerConnectionStateChange(state: string)
      requires Valid()
      modifies this`output, this`connectionState, this`isAcceptingInput, this`dataChannel,
               this`directionState, this`isLeftPressed, this`isRightPressed
      ensures Valid()
      ensures state == "failed" ==> DisconnectedWith(PeerFailure)
      ensures state != "failed" ==> unchanged(this)
    {
      if state == "failed" {
        HandleDisconnected(Some(PeerFailure));
      }
    }

    /** The remote peer opened a data channel; it becomes the session's channel. */
    method OnDataChannel(state: ReadyState)
      requires Valid()
      modifies this`dataChannel
      ensures Valid()
      ensures dataChannel == Some(state)
    {
      dataChannel := Some(state);
    }

    /** The data channel opened: the session connects and, unless input was
        already accepted, FORWARD goes out on the channel. The three channel
        events only fire on a channel the session holds. */
    method OnChannelOpen()
      requires Valid() && dataChannel.Some?
      modifies this`dataChannel, this`connectionState, this`isAcceptingInput, this`output,
               this`directionState, this`isLeftPressed, this`isRightPressed
      ensures Valid()
      ensures connectionState == Connected && isAcceptingInput && dataChannel == Some(Open)
      ensures unchanged(this`directionState, this`isLeftPressed, this`isRightPressed)
      ensures output == old(output) + (if old(isAcceptingInput) then [] else [ChannelSent("FORWARD")])
    {
      dataChannel := Some(Open);
      HandleConnected();
    }

    /** The data channel closed. */
    method OnChannelClose()
      requires Valid() && dataChannel.Some?
      modifies this`output, this`connectionState, this`isAcceptingInput, this`dataChannel,
               this`directionState, this`isLeftPressed, this`isRightPressed
      ensures Valid()
      ensures connectionState == Disconnected && !isAcceptingInput
      ensures directionState == Forward && !isLeftPressed && !isRightPressed
      ensures dataChannel == Some(Closed)
      ensures output == old(output) + [ErrorShown(ChannelError), ChannelCloseRequested]
    {
      dataChannel := Some(Closed);
      HandleDisconnected(Some(ChannelError));
    }

    /** The data channel reported an error. */
    method OnChannelError()
      requires Valid() && dataChannel.Some?
      modifies this`output, this`connectionState, this`isAcceptingInput, this`dataChannel,
               this`directionState, this`isLeftPressed, this`isRightPressed
      ensures Valid()
      ensures connectionState == Disconnected && !isAcceptingInput
      ensures directionState == Forward && !isLeftPressed && !isRightPressed
      ensures dataChannel == Some(AfterClose(old(dataChannel).value))
      ensures output == old(output) + [ErrorShown(ChannelError), ChannelCloseRequested]
    {
      HandleDisconnected(Some(ChannelError));
    }

    // ---------------------------------------------------------------
    // Inbound signaling frames

    /** An `ice-candidate` frame: normalise the candidate, then hand it over
        at once if a remote description exists, or queue it. */
    method OnIceCandidate(candidate: IceCandidate)
      requires Valid()
      modifies this`received, this`candidateQueue, this`peerLog
      ensures Valid() && CandidateHandled(candidate)
    {
      var c := Normalize(candidate);
      AllPrefixedSnoc(received, candidate);
      if hasRemoteDescription {
        AppliedCandidatesSnoc(peerLog, CandidateApplied(c));
        received, peerLog := received + [c], peerLog + [CandidateApplied(c)];
      } else {
        received, candidateQueue := received + [c], candidateQueue + [c];
      }
    }

    /** An `offer` frame: set it as the remote description, answer it with
        `localAnswer` (the description the browser creates), then hand every
        queued candidate over in arrival order and empty the queue. */
    method OnOffer(sdp: string, localAnswer: string)
      requires Valid()
      modifies this`peerLog, this`hasRemoteDescription, this`outbox, this`candidateQueue, this`offersAnswered
      ensures Valid() && OfferHandled(sdp, localAnswer)
    {
      SetDescriptions(sdp, localAnswer);
      ReplayQueue();
    }

    /** Set the offer as the remote description and `answer` as the local
        one, and send the answer; no candidate is handed over. */
    method SetDescriptions(sdp: string, answer: string)
      requires Stamped(outbox, lobbyCode, clientId) && |Answers(outbox)| == offersAnswered
      modifies this`peerLog, this`hasRemoteDescription, this`outbox, this`offersAnswered
      ensures hasRemoteDescription
      ensures peerLog == old(peerLog) + [RemoteDescriptionSet(sdp), LocalDescriptionSet(answer)]
      ensures AppliedCandidates(peerLog) == AppliedCandidates(old(peerLog))
      ensures outbox == old(outbox) + [SignalingMessage(Answer(answer), lobbyCode, clientId)]
      ensures offersAnswered == old(offersAnswered) + 1
      ensures Stamped(outbox, lobbyCode, clientId) && |Answers(outbox)| == offersAnswered
    {
      AppliedAfterDescriptions(peerLog, sdp, answer);
      peerLog := peerLog + [RemoteDescriptionSet(sdp), LocalDescriptionSet(answer)];
      hasRemoteDescription := true;
      SendSignaling(Answer(answer));
      offersAnswered := offersAnswered + 1;
    }

    /** Hand every queued candidate to the peer connection in arrival order,
        then empty the queue. */
    method ReplayQueue()
      modifies this`peerLog, this`candidateQueue
      ensures peerLog == old(peerLog) + Replayed(old(candidateQueue))
      ensures AppliedCandidates(peerLog) == AppliedCandidates(old(peerLog)) + old(candidateQueue)
      ensures candidateQueue == []
    {
      var queue := candidateQueue;
      for i := 0 to |queue|
        modifies this`peerLog
        invariant peerLog == old(peerLog) + Replayed(queue[..i])
      {
        assert queue[..i + 1][..i] == queue[..i];
        peerLog := peerLog + [CandidateApplied(queue[i])];
      }
      assert queue[..|queue|] == queue;
      AppliedCandidatesAppend(old(peerLog), Replayed(queue));
      AppliedOfReplayed(queue);
      candidateQueue := [];
    }

    /** A `message` frame: input is accepted exactly when it says "start". */
    method OnControlMessage(message: string)
      requires Valid()
      modifies this`isAcceptingInput, this`output, this`directionState, this`isLeftPressed, this`isRightPressed
      ensures Valid() && AcceptingSet(message == "start")
    {
      SetAcceptingInput(message == "start");
    }

    /** A `color-change` frame changes the player colour and nothing else. */
    method OnColorChange(color: string)
      requires Valid()
      modifies this`playerColor
      ensures Valid() && ColorChanged(color)
    {
      playerColor := color;
    }

    /** A frame of any other type shows one error and changes no state. */
    method OnUnsupported(frameType: string)
      requires Valid() && frameType !in DispatchedTypes
      modifies this`output
      ensures Valid() && OnlyErrorShown(UnsupportedError)
    {
      ShowError(UnsupportedError);
    }

    /** The WebSocket's message handler: dispatch on the frame's type.
        `localAnswer` is used only for an offer. */
    method OnSignalingFrame(frame: Frame, localAnswer: string)
      requires Valid() && (frame.Unsupported? ==> frame.frameType !in DispatchedTypes)
      modifies this
      ensures Valid()
      ensures frame.IceCandidateFrame? ==> CandidateHandled(frame.candidate)
      ensures frame.OfferFrame? ==> OfferHandled(frame.sdp, localAnswer)
      ensures frame.MessageFrame? ==> AcceptingSet(frame.message == "start")
      ensures frame.ColorChangeFrame? ==> ColorChanged(frame.color)
      ensures frame.ErrorFrame? ==> DisconnectedWith(frame.reason.GetOr(DefaultDisconnect))
      ensures frame.Unsupported? ==> OnlyErrorShown(UnsupportedError)
    {
      match frame
      case IceCandidateFrame(c) => OnIceCandidate(c);
      case OfferFrame(sdp) => OnOffer(sdp, localAnswer);
      case MessageFrame(m) => OnControlMessage(m);
      case ColorChangeFrame(color) => OnColorChange(color);
      case ErrorFrame(reason) => HandleDisconnected(reason);
      case Unsupported(t) => OnUnsupported(t);
    }

    // ---------------------------------------------------------------
    // Buttons

    /** A press or release edge of the left button, and the effect runs it
        causes. While input is not accepted the input effect undoes it. */
    method SetLeftPressed(pressed: bool)
      requires Valid()
      modifies this`isLeftPressed, this`isRightPressed, this`directionState, this`output
      ensures Valid()
      ensures !isAcceptingInput ==> unchanged(this)
      ensures isAcceptingInput ==>
        && isLeftPressed == pressed && isRightPressed == old(isRightPressed)
        && directionState == Reduce(pressed, isRightPressed)
        && output == old(output) + (if directionState == old(directionState) then []
                                          else [Gate(dataChannel, Name(directionState))])
    {
      if pressed != isLeftPressed {
        isLeftPressed := pressed;
        FollowButtons();
      }
    }

    /** A press or release edge of the right button. */
    method SetRightPressed(pressed: bool)
      requires Valid()
      modifies this`isLeftPressed, this`isRightPressed, this`directionState, this`output
      ensures Valid()
      ensures !isAcceptingInput ==> unchanged(this)
      ensures isAcceptingInput ==>
        && isRightPressed == pressed && isLeftPressed == old(isLeftPressed)
        && directionState == Reduce(isLeftPressed, pressed)
        && output == old(output) + (if directionState == old(directionState) then []
                                          else [Gate(dataChannel, Name(directionState))])
    {
      if pressed != isRightPressed {
        isRightPressed := pressed;
        FollowButtons();
      }
    }

    /** The effect runs after one button changed: the reducer re-runs; if the
        direction changed the input effect re-runs; if that reset the buttons
        the reducer re-runs once more. */
    method FollowButtons()
      requires QueueDiscipline() && Stamped(outbox, lobbyCode, clientId) && |Answers(outbox)| == offersAnswered
      requires !isAcceptingInput ==> directionState == Forward && !(isLeftPressed && isRightPressed)
      modifies this`isLeftPressed, this`isRightPressed, this`directionState, this`output
      ensures Valid()
      ensures !isAcceptingInput ==> !isLeftPressed && !isRightPressed && directionState == Forward
      ensures !isAcceptingInput ==> output == old(output)
      ensures isAcceptingInput ==>
        && unchanged(this`isLeftPressed, this`isRightPressed)
        && directionState == Reduce(isLeftPressed, isRightPressed)
        && output == old(output) + (if directionState == old(directionState) then []
                                          else [Gate(dataChannel, Name(directionState))])
    {
      var before := directionState;
      DirectionEffect();
      if directionState != before {
        InputEffect();
        if !isAcceptingInput {
          DirectionEffect();
        }
      }
    }
  }
}
