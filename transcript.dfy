/** Readings of the page's transcripts: the steps it took on the peer
    connection, the signaling messages it sent, and the single effect of
    offering a text to the data channel. */
module Transcript {
  import opened Types

  /** The candidates handed to the peer connection, in the order they were
      handed over. */
  function AppliedCandidates(log: seq<PeerStep>): (cs: seq<IceCandidate>)
    ensures |cs| <= |log|
  {
    if log == [] then []
    else
      var last := log[|log| - 1];
      AppliedCandidates(log[..|log| - 1]) + (if last.CandidateApplied? then [last.applied] else [])
  }

  /** The steps of replaying a queue: each candidate handed over in turn. */
  function Replayed(queue: seq<IceCandidate>): (log: seq<PeerStep>)
    ensures |log| == |queue|
    ensures forall i {:trigger log[i]} :: 0 <= i < |queue| ==> log[i] == CandidateApplied(queue[i])
  {
    if queue == [] then []
    else Replayed(queue[..|queue| - 1]) + [CandidateApplied(queue[|queue| - 1])]
  }

  lemma {:induction false} AppliedCandidatesAppend(a: seq<PeerStep>, b: seq<PeerStep>)
    ensures AppliedCandidates(a + b) == AppliedCandidates(a) + AppliedCandidates(b)
    decreases |b|
  {
    if b == [] {
      assert a + b == a;
    } else {
      var b' := b[..|b| - 1];
      assert (a + b)[..|a + b| - 1] == a + b';
      AppliedCandidatesAppend(a, b');
    }
  }

  /** Steps other than handing over a candidate leave the applied
      candidates as they were. */
  lemma AppliedCandidatesSnoc(log: seq<PeerStep>, e: PeerStep)
    ensures AppliedCandidates(log + [e]) == AppliedCandidates(log) + (if e.CandidateApplied? then [e.applied] else [])
  {
    assert (log + [e])[..|log|] == log;
  }

  /** Replaying a queue hands over exactly that queue, in order. */
  lemma {:induction false} AppliedOfReplayed(queue: seq<IceCandidate>)
    ensures AppliedCandidates(Replayed(queue)) == queue
    decreases |queue|
  {
    if queue != [] {
      var q' := queue[..|queue| - 1];
      AppliedOfReplayed(q');
      AppliedCandidatesSnoc(Replayed(q'), CandidateApplied(queue[|queue| - 1]));
      assert q' + [queue[|queue| - 1]] == queue;
    }
  }

  /** Setting the two descriptions hands no candidate over. */
  lemma AppliedAfterDescriptions(log: seq<PeerStep>, sdp: string, answer: string)
    ensures AppliedCandidates(log + [RemoteDescriptionSet(sdp), LocalDescriptionSet(answer)]) == AppliedCandidates(log)
  {
    var d1 := log + [RemoteDescriptionSet(sdp)];
    AppliedCandidatesSnoc(log, RemoteDescriptionSet(sdp));
    AppliedCandidatesSnoc(d1, LocalDescriptionSet(answer));
    assert d1 + [LocalDescriptionSet(answer)] == log + [RemoteDescriptionSet(sdp), LocalDescriptionSet(answer)];
  }

  /** Handling an offer hands over exactly the queued candidates, after
      whatever had been handed over before. */
  lemma AppliedAfterOffer(log: seq<PeerStep>, sdp: string, answer: string, queue: seq<IceCandidate>)
    ensures AppliedCandidates(log + [RemoteDescriptionSet(sdp), LocalDescriptionSet(answer)] + Replayed(queue))
         == AppliedCandidates(log) + queue
  {
    var described := log + [RemoteDescriptionSet(sdp), LocalDescriptionSet(answer)];
    AppliedAfterDescriptions(log, sdp, answer);
    AppliedCandidatesAppend(described, Replayed(queue));
    AppliedOfReplayed(queue);
  }

  /** The answer descriptions sent, in order. */
  function Answers(outbox: seq<SignalingMessage>): (sdps: seq<string>)
    ensures |sdps| <= |outbox|
  {
    if outbox == [] then []
    else
      var last := outbox[|outbox| - 1];
      Answers(outbox[..|outbox| - 1]) + (if last.payload.Answer? then [last.payload.sdp] else [])
  }

  /** Sending one more message adds its description to the answers when it
      is an answer, and nothing otherwise. */
  lemma AnswersSnoc(outbox: seq<SignalingMessage>, m: SignalingMessage)
    ensures Answers(outbox + [m]) == Answers(outbox) + (if m.payload.Answer? then [m.payload.sdp] else [])
  {
    assert (outbox + [m])[..|outbox|] == outbox;
  }

  /** Every message carries this session's lobby code and client id. */
  ghost predicate Stamped(outbox: seq<SignalingMessage>, lobbyCode: string, clientId: string) {
    forall i :: 0 <= i < |outbox| ==> outbox[i].lobbyCode == lobbyCode && outbox[i].clientId == clientId
  }

  const NotOpenError: string := "Data channel is not open"

  /** The single effect of offering `text` to the data channel: it is sent
      exactly when a channel exists and is open, and otherwise one error is
      shown instead. */
  function Gate(channel: Option<ReadyState>, text: string): (e: Effect)
    ensures e.ChannelSent? <==> channel == Some(Open)
    ensures e.ChannelSent? ==> e.text == text
    ensures !e.ChannelSent? ==> e == ErrorShown(NotOpenError)
  {
    if channel.Some? && channel.value == Open then ChannelSent(text) else ErrorShown(NotOpenError)
  }
}
