/** The lobby code is the location's path without its leading character. */
module LobbyCode {

  /** JavaScript's `pathname.substring(1)`, which yields "" for an empty path. */
  function FromPath(pathname: string): (code: string)
    ensures |pathname| == 0 ==> code == ""
    ensures |pathname| > 0 ==> pathname == pathname[..1] + code
  {
    if |pathname| == 0 then "" else pathname[1..]
  }

  /** Joining a lobby navigates to "/" followed by the code typed in; the
      page reads the same code back. */
  lemma PathRoundTrip(code: string)
    ensures FromPath("/" + code) == code
  {
    assert ("/" + code)[1..] == code;
  }
}
