/** Values exchanged by the controller page of the game: its enums, the
    signaling frames it receives and sends, and the effects it has on the
    browser's peer-connection and data-channel objects and on the user. */
module Types {

  datatype Option<+T> = None | Some(value: T) {
    /** The value, or `default` when absent (TypeScript's `??`). */
    function GetOr(default: T): T {
      match this
      case Some(v) => v
      case None => default
    }
  }

  /** The page's direction enum. `NoDirection` is the member named NONE. */
  datatype DirectionState = Left | Right | Forward | NoDirection

  /** The page's connection-state enum. */
  datatype ConnectionState = Connected | Disconnected | Connecting

  /** The `readyState` of a data channel; `Opening` is the state the browser
      calls "connecting". */
  datatype ReadyState = Opening | Open | Closing | Closed

  /** An ICE candidate as it travels through signaling: the candidate
      attribute text plus the media-stream identification fields. */
  datatype IceCandidate = IceCandidate(candidate: string, sdpMid: Option<string>, sdpMLineIndex: Option<nat>)

  /** The frame `type` names the page dispatches on. */
  const DispatchedTypes: set<string> := {"ice-candidate", "offer", "message", "color-change", "error"}

  /** An inbound signaling frame, one constructor per `type` the page
      dispatches on. `Unsupported` stands for a frame of any other type; its
      `frameType` is outside `DispatchedTypes`, which the handlers require. */
  datatype Frame =
    | IceCandidateFrame(candidate: IceCandidate)
    | OfferFrame(sdp: string)
    | MessageFrame(message: string)
    | ColorChangeFrame(color: string)
    | ErrorFrame(reason: Option<string>)
    | Unsupported(frameType: string)

  /** The body of an outbound signaling message, before stamping. */
  datatype Payload =
    | RegisterClient
    | IceCandidateClient(local: IceCandidate)
    | Answer(sdp: string)

  /** An outbound signaling message as written to the WebSocket. */
  datatype SignalingMessage = SignalingMessage(payload: Payload, lobbyCode: string, clientId: string)

  /** One step taken on the peer connection: a session description set,
      or a remote candidate handed over. */
  datatype PeerStep =
    | RemoteDescriptionSet(offer: string)
    | LocalDescriptionSet(answer: string)
    | CandidateApplied(applied: IceCandidate)

  /** One effect the page has on the data channel or the user: a text sent
      on the channel, a request to close it, or an error shown. */
  datatype Effect =
    | ChannelSent(text: string)
    | ChannelCloseRequested
    | ErrorShown(message: string)
}
