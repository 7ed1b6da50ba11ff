# weave-mobile game controller, modelled in Dafny

This project models the controller page of weave-mobile (`src/pages/game/Game.tsx`).
A phone opens the page at `/<lobby code>`. The page registers with a signaling server over a
WebSocket, answers the game host's WebRTC offer, and exchanges ICE candidates with it. Once the
host's data channel opens, the page sends LEFT / RIGHT / FORWARD as the player holds the two
on-screen buttons. The host turns input on and off with `message` frames ("start" / anything
else). It can change the player's colour or end the session with an `error` frame.

The model has these modules:

- `Types` holds the page's two enums and the data-channel ready states. It also holds the inbound
  signaling frames, the outbound signaling messages, and the steps and effects the page has on the
  peer connection, the data channel and the user.
- `Candidates` holds the "candidate:" normalisation of inbound ICE candidates.
- `Direction` holds the button reducer and the direction names sent on the channel.
- `LobbyCode` reads the lobby code from the path.
- `Transcript` reads the logs: which candidates were handed to the peer connection, which answers
  were sent, and the single effect of offering a text to the data channel.
- `Game` holds the class `Session`. Its fields are the page's React state, the data-channel ref,
  the candidate queue, and three logs: `outbox` (signaling messages written to the WebSocket),
  `peerLog` (steps taken on the peer connection) and `output` (texts sent on the data channel,
  close requests and error toasts). Each browser or signaling event is one method. A method runs
  the handler and then the re-runs of the page's two input effects that its state changes cause.
  The whole effect of each kind of event is one two-state predicate (`CandidateHandled`,
  `OfferHandled`, `AcceptingSet`, `ColorChanged`, `OnlyErrorShown`, `DisconnectedWith`) that
  gives every changed field and lists every kept one; the handler and the frame dispatcher both
  promise it. Every handler keeps the invariant `Valid()`, which has four parts:
  - the direction is the reducer's verdict on the buttons, and no button counts as pressed while
    input is refused;
  - the candidates handed to the peer connection, followed by the queued ones, are exactly the
    candidates received, in order, all normalised;
  - no candidate is handed over before the remote description is set, and none waits after it;
  - every outbound message carries the session's lobby code and client id, and one answer has been
    sent per offer handled.
- `Scenarios` mounts fresh sessions, delivers fixed event sequences and states the exact
  transcripts that result.

DISCONNECTED is not a final state: nothing in `handleDisconnected` stops a later `handleConnected`,
so after a WebSocket error a data channel that opens sets CONNECTED again and accepts input
(`Scenarios.ReconnectAfterSocketError`).

## Model

| member | source | states |
|---|---|---|
| Candidates.WithPrefix | src/pages/game/Game.tsx:82-84 | the result always starts with "candidate:"; it is the input exactly when the input already did, and otherwise it is the prefix followed by the input |
| Candidates.Normalize | src/pages/game/Game.tsx:79-84 | the candidate text gains the prefix; `sdpMid` and `sdpMLineIndex` are kept; the candidate is unchanged exactly when its text already had the prefix |
| Candidates.NormalizeIdempotent | src/pages/game/Game.tsx:82-84 | normalising an already normalised candidate changes nothing |
| Candidates.AllPrefixedSnoc | src/pages/game/Game.tsx:82-89 | recording one more normalised candidate keeps every recorded candidate prefixed |
| Candidates.WithPrefixKeepsBody | src/pages/game/Game.tsx:82-84 | the original text survives as a suffix, preceded by nothing or by exactly "candidate:" |
| Direction.Reduce | src/pages/game/Game.tsx:153-161 | the reducer never yields NONE; FORWARD exactly when both or neither button is pressed, LEFT exactly when only left is, RIGHT exactly when only right is |
| Direction.Name | src/pages/game/Game.tsx:6-11 | the text `DirectionState[d]` sent for a direction is its member name, one of LEFT, RIGHT, FORWARD, NONE, and NONE only for the NONE member |
| Direction.NameInjective | src/pages/game/Game.tsx:145 | different directions are sent as different texts, so the host can tell them apart |
| Direction.ReduceMirrors | src/pages/game/Game.tsx:153-161 | swapping the two buttons mirrors the direction (LEFT and RIGHT swap, FORWARD stays) |
| LobbyCode.FromPath | src/pages/game/Game.tsx:48 | the lobby code is the path without its first character, and empty for an empty path |
| LobbyCode.PathRoundTrip | src/pages/lobby/Lobby.tsx:10-13 | a code that becomes the path `/code` unchanged is read back unchanged by the game page |
| Transcript.AppliedCandidatesAppend | src/pages/game/Game.tsx:86-90 | the candidates handed over by two runs of steps are those of the first run followed by those of the second |
| Transcript.AppliedCandidatesSnoc | src/pages/game/Game.tsx:86-90 | one more step adds its candidate when it hands one over, and nothing otherwise |
| Transcript.AppliedOfReplayed | src/pages/game/Game.tsx:104-106 | replaying a queue hands over exactly that queue, in order |
| Transcript.AppliedAfterDescriptions | src/pages/game/Game.tsx:99-101 | setting the remote and local descriptions hands no candidate over |
| Transcript.AppliedAfterOffer | src/pages/game/Game.tsx:94-107 | handling an offer hands over exactly the queued candidates, after those handed over before |
| Transcript.AnswersSnoc | src/pages/game/Game.tsx:102 | sending one more message adds its description to the answers sent exactly when it is an answer |
| Transcript.Gate | src/pages/game/Game.tsx:136-142 | a text goes out exactly when a channel exists and is open, and then unchanged; otherwise the one effect is the "Data channel is not open" error |
| Game.AfterClose | src/pages/game/Game.tsx:42-44 | `close()` leaves a channel closing or closed, and a closed one stays closed |
| Game.Session.constructor | src/pages/game/Game.tsx:20-28 | the mounted page is connecting, refuses input, holds no channel, has the colour "#fff", has sent and applied nothing, and, after the first effect runs, faces FORWARD with no button pressed; the invariant holds |
| Game.Session.DirectionEffect | src/pages/game/Game.tsx:153-161 | the direction becomes the reducer's verdict on the buttons; nothing else changes |
| Game.Session.ShowError | src/pages/game/Game.tsx:163-165 | exactly one error is shown, and nothing else changes |
| Game.Session.SendMessage | src/pages/game/Game.tsx:136-142 | exactly one effect is appended: the text on an open channel, or the not-open error |
| Game.Session.InputEffect | src/pages/game/Game.tsx:144-150 | while input is accepted the current direction's name is offered to the channel and the buttons stay as they are; otherwise the direction resets to FORWARD, both buttons are released and nothing is sent |
| Game.Session.SetAcceptingInput | src/pages/game/Game.tsx:135-161 | after the setter and the effect re-runs, the settled-input invariant holds; turning input on sends FORWARD once, turning it off releases everything and sends nothing, setting it to its current value changes nothing |
| Game.Session.HandleConnected | src/pages/game/Game.tsx:31-35 | the session is connected and accepts input; FORWARD is offered once if input was refused before; the invariant is kept |
| Game.Session.HandleDisconnected | src/pages/game/Game.tsx:37-45 | the reason (or "Connection closed") is shown, then a close is requested if a channel exists; the session is disconnected, refuses input, faces FORWARD with no button pressed; the invariant is kept |
| Game.Session.CloseChannel | src/pages/game/Game.tsx:42-44 | a close is requested exactly when a channel exists, and the channel moves to closing unless already closing or closed |
| Game.Session.SendSignaling | src/pages/game/Game.tsx:128-132 | one message is written, stamped with the lobby code and client id; the answers sent grow by its description exactly when it is an answer |
| Game.Session.OnSocketOpen | src/pages/game/Game.tsx:58 | exactly one stamped `register-client` message is written |
| Game.Session.OnSocketError | src/pages/game/Game.tsx:60 | a disconnect with the WebSocket error text, with its exact effects |
| Game.Session.OnLocalCandidate | src/pages/game/Game.tsx:62 | a found local candidate is forwarded once, stamped; the end-of-candidates event sends nothing |
| Game.Session.OnPeerConnectionStateChange | src/pages/game/Game.tsx:64 | only the state "failed" disconnects: "Something went terribly wrong" is shown, a close is requested and the channel moves to closing if one exists, input is refused with the buttons released; any other state changes nothing at all |
| Game.Session.OnDataChannel | src/pages/game/Game.tsx:66-67 | the announced channel becomes the session's channel; nothing else changes |
| Game.Session.OnChannelOpen | src/pages/game/Game.tsx:68 | the channel is open, the session is connected and accepts input, and FORWARD is sent on the channel unless input was already accepted |
| Game.Session.OnChannelError | src/pages/game/Game.tsx:69 | the channel error is shown and a close requested; the session is disconnected and refuses input |
| Game.Session.OnChannelClose | src/pages/game/Game.tsx:70 | the channel is closed, the channel error is shown and a close requested; the session is disconnected and refuses input |
| Game.Session.OnIceCandidate | src/pages/game/Game.tsx:78-92 | the normalised candidate is recorded as received; it is handed over at once when a remote description exists, and queued otherwise; the queue invariant is kept |
| Game.Session.OnOffer | src/pages/game/Game.tsx:94-108 | the offer and the answer are set, one stamped answer is sent, the queued candidates are handed over in order and the queue is emptied; afterwards the candidates handed over are exactly those received |
| Game.Session.SetDescriptions | src/pages/game/Game.tsx:99-102 | the offer and then the answer are set, one stamped answer is sent and counted, and no candidate is handed over |
| Game.Session.ReplayQueue | src/pages/game/Game.tsx:104-107 | the peer log grows by the queue's candidates in arrival order, so the candidates handed over gain exactly the queue, and the queue is empty |
| Game.Session.OnControlMessage | src/pages/game/Game.tsx:111-113 | input is accepted exactly when the message is "start"; turning it on sends FORWARD once and keeps the buttons; anything else releases the buttons and sends nothing; the connection state, colour, channel and signaling state are kept |
| Game.Session.OnColorChange | src/pages/game/Game.tsx:115-117 | the player colour is the frame's colour; nothing else changes |
| Game.Session.OnUnsupported | src/pages/game/Game.tsx:123-124 | a frame whose type is none of the five dispatched ones shows exactly one "Message type not supported" error; nothing else changes |
| Game.Session.OnSignalingFrame | src/pages/game/Game.tsx:74-126 | per frame type, the handler's effect on every field it changes and the list of every field it leaves unchanged; an `error` frame without a message shows "Connection closed" and keeps the remote description |
| Game.Session.SetLeftPressed | src/pages/game/Game.tsx:202-208 | while input is accepted, a press or release sets the left button, the direction follows the reducer, and the new direction is sent exactly when it changed; while input is refused nothing changes |
| Game.Session.SetRightPressed | src/pages/game/Game.tsx:214-220 | the same for the right button |
| Game.Session.FollowButtons | src/pages/game/Game.tsx:135-161 | after a button changes, the effect re-runs settle the direction to the reducer's verdict and send it exactly when it changed; the invariant is restored |
| Scenarios.Handshake | src/pages/game/Game.tsx:58-132 | socket open, offer and one local candidate produce exactly a registration, one answer and that candidate, all stamped with the code from the path |
| Scenarios.EarlyCandidatesReplayed | src/pages/game/Game.tsx:78-108 | two candidates before the offer wait in the queue; after the offer both reach the peer connection after the two descriptions, in arrival order and prefixed, and the queue is empty |
| Scenarios.OpenThenClose | src/pages/game/Game.tsx:31-45 | the session goes connecting, connected, disconnected; FORWARD is sent once, then the channel error and a close request follow |
| Scenarios.StartStopWithoutChannel | src/pages/game/Game.tsx:111-113 | "start" then "stop" toggle input without moving the connection state; sending FORWARD without a channel shows one error |
| Scenarios.ReconnectAfterSocketError | src/pages/game/Game.tsx:31-45 | a socket error disconnects, and a channel that opens afterwards connects again |
| Scenarios.Steering | src/pages/game/Game.tsx:144-161 | left, both, right, none on an open channel send FORWARD, LEFT, FORWARD, RIGHT, FORWARD |
| Scenarios.PressWhileRefused | src/pages/game/Game.tsx:146-150 | presses while input is refused leave the buttons released, the direction FORWARD and send nothing |
| Scenarios.LateCandidateAfterStopAndError | src/pages/game/Game.tsx:86-87 | after an offer, a "stop" message and an `error` frame, a candidate arriving through the dispatcher is handed over at once and nothing is queued |
| Scenarios.PeerFailureWhileOpen | src/pages/game/Game.tsx:64 | a "failed" peer connection on an open channel shows the failure, requests a close and leaves the channel closing; any other state changes nothing |
| Scenarios.StartThenPress | src/pages/game/Game.tsx:111-113 | "start" on an open channel sends FORWARD and leaves the buttons released, so the next left press sends LEFT |
| Scenarios.ErrorAndUnknownFrames | src/pages/game/Game.tsx:119-124 | an unknown frame shows the unsupported error and leaves the state alone; an `error` frame without a message shows "Connection closed" and disconnects |

## Left out

- Browser objects are abstract. `RTCPeerConnection`, `RTCDataChannel` and the WebSocket are
  represented only by the logs of what the page asks of them (`peerLog`, `output`, `outbox`) and
  by the channel's ready state. Their internal behaviour is not modelled.
- Asynchrony is collapsed. Each handler runs atomically, with the React effect re-runs it causes
  run straight after it. In the source, the answer is sent from a promise chain that is not
  awaited (`Game.tsx:100-102`), so the real relative order of the answer and the replayed
  candidates, and of further frames arriving during the awaits, is not captured.
- Game.Session.OnOffer: the answer description is a parameter (`localAnswer`) standing for what
  `createAnswer` produces. SDP contents are opaque strings.
- Game.Session.OnOffer, Game.Session.ReplayQueue: `setRemoteDescription`, `createAnswer`,
  `setLocalDescription` and `addIceCandidate` are taken to succeed. In the source a rejected call
  ends the async handler early (`Game.tsx:99`, `Game.tsx:105`). If a queued candidate is rejected,
  `candidateQueue = []` (`Game.tsx:107`) never runs and the candidates after it are never applied.
  The next offer then replays the same queue and stops at the same candidate. If the answer chain
  fails (`Game.tsx:100-102`), no answer is sent. One input that can cause this is the
  end-of-candidates marker `{candidate: ""}`: the prefixing at `Game.tsx:82-84` turns it into
  `"candidate:"`, which `addIceCandidate` may reject. The model proves the behaviour on the path
  where every call succeeds.
- JSON parsing of frames is out of scope. Frames arrive already decoded as `Frame`; malformed JSON
  or a missing `candidate` field (which would throw in the source) is not represented.
- The random client id (`Math.random`, `Game.tsx:47`) and the WebSocket URL from the environment
  (`Game.tsx:28`) are parameters or left out; the STUN configuration is left out.
- The "Connected!" success toast (`Game.tsx:32`) is left out. Only error toasts appear in `output`.
- Failures of `ws.send` and `dataChannel.send` are left out, and so is the socket's own ready
  state. A message written to the outbox is taken as sent.
- Rendering (the status dot, the colour dot, the disabled attribute) is left out; only the state
  it reads is modelled.
- Game.Session.SetLeftPressed, Game.Session.SetRightPressed: the buttons are disabled while input
  is refused, so these events do not fire then. The model still admits them and proves that they
  change nothing.
- Game.Session.OnChannelOpen, Game.Session.OnChannelClose, Game.Session.OnChannelError require
  that the session holds a channel, and act on the channel it holds. In the source the handlers
  stay attached to an earlier channel after a second `ondatachannel` replaces the ref
  (`Game.tsx:66-70`); events from a replaced channel are not modelled.
- Game.Session.OnChannelError: what the browser does to the channel's ready state on an error
  event is not modelled; only the close requested by the handler is.
- A pathname change is not modelled. The page stays mounted under the `/*` route and its setup
  effect re-runs (`Game.tsx:133`) without cleanup: it keeps the React state and the channel ref,
  opens a second socket and peer connection, and leaves the old ones' handlers live, calling the
  same setters. The model has one socket and one peer connection per `Session`.
- LobbyCode.PathRoundTrip: `navigate(inputText)` resolves the text relative to the current path and
  the browser percent-encodes the path, so a code containing '/', '?', '#', '%' or a space is not
  read back unchanged; the lemma covers the code that reaches the path as typed.
- Frame types are strings in the model. A frame whose `type` is missing or not a string, which
  the source also sends to its default case, is represented as `Unsupported` with some name
  outside the five dispatched ones.
- `Transcript.AppliedCandidates` and `Transcript.Answers` are reading functions with only size
  bounds in their own contracts; their meaning is stated by the lemmas listed above.
  `Transcript.Replayed` states its own meaning: entry i of the log applies candidate i of the queue.
