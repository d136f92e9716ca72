/**
 * The two pieces of browser state the screens touch: whether local storage
 * holds the "user" key (the session marker), and the router's history of
 * pushed paths (`useNavigate` pushes one entry per call).
 */
module Browser {
  import opened Optional

  datatype Session = Session(hasUser: bool, history: seq<string>)

  /** `navigate(path)`: push one entry onto the history. */
  function Navigate(b: Session, path: string): (r: Session)
    ensures r.hasUser == b.hasUser
    ensures |r.history| == |b.history| + 1 && r.history[..|b.history|] == b.history
    ensures Location(r) == Some(path)
  {
    b.(history := b.history + [path])
  }

  /** `localStorage.removeItem("user")`: a no-op when the key is absent. */
  function RemoveUser(b: Session): (r: Session)
    ensures !r.hasUser
    ensures r.history == b.history && Location(r) == Location(b)
  {
    b.(hasUser := false)
  }

  /** The path currently shown: the last one pushed, if any. */
  function Location(b: Session): Option<string>
  {
    if |b.history| == 0 then None else Some(b.history[|b.history| - 1])
  }
}
