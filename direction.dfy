/** The reducer from the two pressed buttons to a direction, and the tokens
    the direction is sent as over the data channel. */
module Direction {
  import opened Types

  /** Both or neither pressed steer straight ahead; one pressed steers that way. */
  function Reduce(leftPressed: bool, rightPressed: bool): (d: DirectionState)
    ensures d != NoDirection
    ensures d == Forward <==> leftPressed == rightPressed
    ensures d == Left <==> leftPressed && !rightPressed
    ensures d == Right <==> rightPressed && !leftPressed
  {
    if (leftPressed && rightPressed) || (!leftPressed && !rightPressed) then Forward
    else if leftPressed then Left
    else Right
  }

  /** The enum member's name, which is the text sent on the data channel;
      NONE is sent for no direction the reducer produces. */
  function Name(d: DirectionState): (token: string)
    ensures token in {"LEFT", "RIGHT", "FORWARD", "NONE"}
    ensures token == "NONE" <==> d == NoDirection
  {
    match d
    case Left => "LEFT"
    case Right => "RIGHT"
    case Forward => "FORWARD"
    case NoDirection => "NONE"
  }

  /** The receiving peer can tell every direction from its token. */
  lemma NameInjective(a: DirectionState, b: DirectionState)
    requires Name(a) == Name(b)
    ensures a == b
  {
  }

  /** Swapping the buttons mirrors the direction. */
  lemma ReduceMirrors(leftPressed: bool, rightPressed: bool)
    ensures Reduce(rightPressed, leftPressed) == Mirror(Reduce(leftPressed, rightPressed))
  {
  }

  function Mirror(d: DirectionState): DirectionState {
    match d
    case Left => Right
    case Right => Left
    case other => other
  }
}
