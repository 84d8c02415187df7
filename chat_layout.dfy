/** The route guard `ChatLayout`: spinner, redirect home, or the chat screens. */
module ChatLayout {
  import opened Options
  import opened AuthProvider

  /** What the layout renders. */
  datatype Screen = Spinner | Nothing | Children

  /** The rendered screen and the navigation its effect issues, if any. */
  datatype Decision = Decision(screen: Screen, redirect: Option<string>)

  /**
   * While loading: the spinner and no redirect.  Loaded without a user:
   * nothing rendered and a redirect to "/".  Loaded with a user: the children
   * and no redirect.
   */
  function Decide(isLoading: bool, user: Option<User>): (d: Decision)
    ensures d.redirect.Some? <==> !isLoading && user.None?
    ensures d.redirect.Some? ==> d.redirect.value == "/"
    ensures d.screen == Spinner <==> isLoading
    ensures d.screen == Nothing <==> !isLoading && user.None?
    ensures d.screen == Children <==> !isLoading && user.Some?
  {
    var redirect := if !isLoading && user.None? then Some("/") else None;
    if isLoading then Decision(Spinner, redirect)
    else if user.None? then Decision(Nothing, redirect)
    else Decision(Children, redirect)
  }

  /** Over a provider's life: loading shows the spinner, and after the load only a stored user gets in. */
  lemma GuardAfterLoad(stored: Option<User>)
    ensures Decide(InitialSession(stored).isLoading, InitialSession(stored).user) == Decision(Spinner, None)
    ensures var s := AfterLoad(InitialSession(stored));
      Decide(s.isLoading, s.user) == if stored.Some? then Decision(Children, None) else Decision(Nothing, Some("/"))
  {
  }
}
