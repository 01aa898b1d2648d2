/** The entry guard of the checkpoint view and the browser history it may rewrite. */
module Guard {
  import opened Wrappers

  /** Where the guard sends a visitor who carries no pending-login token. */
  const LoginPath: string := "/auth/login"

  /** What the view does on activation. */
  datatype Decision = Redirect(target: string) | Render(token: string)

  /** The guard: a missing or empty token redirects to the login page, any other token renders the form. */
  function GuardDecision(token: Option<string>): (d: Decision)
    ensures d.Redirect? <==> (token.None? || token.value == [])
    ensures d.Redirect? ==> d.target == LoginPath
    ensures d.Render? ==> token == Some(d.token) && d.token != []
  {
    if token.Some? && token.value != [] then Render(token.value) else Redirect(LoginPath)
  }

  /**
   * The token the submission handler sends: the navigation-state token, or the
   * empty string when there is none.
   */
  function TokenOrEmpty(token: Option<string>): (t: string)
    ensures t == [] <==> GuardDecision(token).Redirect?
    ensures GuardDecision(token).Render? ==> t == GuardDecision(token).token
  {
    match token
    case Some(s) => s
    case None => ""
  }

  /** The browser history of one tab; the last entry is the current location. */
  class History {
    var entries: seq<string>

    ghost predicate Valid()
      reads this
    {
      |entries| > 0
    }

    constructor (current: string)
      ensures Valid() && entries == [current]
    {
      entries := [current];
    }

    /** Replaces the current entry, so the replaced location is not reachable by going back. */
    method Replace(path: string)
      requires Valid()
      modifies this
      ensures Valid()
      ensures entries == old(entries)[..|old(entries)| - 1] + [path]
    {
      entries := entries[..|entries| - 1] + [path];
    }
  }
}
