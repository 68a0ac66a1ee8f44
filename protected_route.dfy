/**
 * The route guard (blockForge-ui/components/ProtectedRoute/ProtectedRoute.tsx):
 * a 401 page when the user is not connected, a 403 page when connected but
 * not authorized, and the protected children otherwise.
 */
module ProtectedRoute {
  import opened Wrappers
  import opened ErrorPage

  /** What the guard returns: an error page with its properties, or the children untouched. */
  datatype Outcome<C> = ShowError(props: ErrorPageProps) | ShowChildren(children: C)

  const NotConnectedTitle := "Non connecté"
  const NotConnectedMessage := "Vous devez être connecté pour accéder à cette page."
  const ForbiddenTitle := "Accès refusé"
  const ForbiddenMessage := "Vous n'avez pas les permissions nécessaires pour accéder à cette ressource."

  function Guard<C>(children: C, isConnected: bool, isAuthorized: bool): (o: Outcome<C>)
    ensures o.ShowChildren? <==> isConnected && isAuthorized
    ensures o.ShowChildren? ==> o.children == children
    ensures o.ShowError? ==> o.props.errorCode == Some(if isConnected then Num(403) else Num(401))
  {
    if !isConnected then
      ShowError(ErrorPageProps(Some(Num(401)), Some(NotConnectedTitle), Some(NotConnectedMessage), None, None, None))
    else if !isAuthorized then
      ShowError(ErrorPageProps(Some(Num(403)), Some(ForbiddenTitle), Some(ForbiddenMessage), None, None, None))
    else
      ShowChildren(children)
  }

  /** The page title an outcome puts on screen, if it shows an error page. */
  function ShownTitle<C>(o: Outcome<C>): Option<string> {
    match o
    case ShowError(props) => Some(Render(props).title)
    case ShowChildren(_) => None
  }

  /**
   * Not connected: the 401 page titled "Non connecté" whatever the
   * authorization is. The explicit title overrides the table's 401 title,
   * the message equals the table's 401 message, and the button leads home.
   */
  lemma NotConnectedShows401<C>(children: C, isAuthorized: bool)
    ensures var o := Guard(children, false, isAuthorized);
      && o.ShowError?
      && Render(o.props) == ErrorPageView(Num(401), NotConnectedTitle, NotConnectedMessage,
                                          Some(BackButton(DefaultBackButtonText, NavigateTo(HomePath))))
      && NotConnectedTitle != DefaultTitles["401"]
      && NotConnectedMessage == DefaultMessages["401"]
  {
  }

  /** The connection check comes first: not connected but authorized is still 401, never 403. */
  lemma ConnectionCheckFirst<C>(children: C)
    ensures var v := Render(Guard(children, false, true).props);
      v.code == Num(401) && v.code != Num(403) && v.title != ForbiddenTitle
  {
    NotConnectedShows401(children, true);
  }

  /** Connected but not authorized: the 403 page titled "Accès refusé", with the table's 403 texts. */
  lemma NotAuthorizedShows403<C>(children: C)
    ensures var o := Guard(children, true, false);
      && o.ShowError?
      && Render(o.props) == ErrorPageView(Num(403), ForbiddenTitle, ForbiddenMessage,
                                          Some(BackButton(DefaultBackButtonText, NavigateTo(HomePath))))
      && ForbiddenTitle == DefaultTitles["403"] && ForbiddenMessage == DefaultMessages["403"]
  {
  }

  /** Connected and authorized: the children themselves, and no error title on screen. */
  lemma AuthorizedShowsChildren<C>(children: C)
    ensures Guard(children, true, true) == ShowChildren(children)
    ensures ShownTitle(Guard(children, true, true)) == None
  {
  }

  /** Exactly one of three outcomes: children iff connected and authorized, otherwise one titled error page. */
  lemma ThreeWayDecision<C>(children: C, isConnected: bool, isAuthorized: bool)
    ensures var o := Guard(children, isConnected, isAuthorized);
      && (ShownTitle(o) == None <==> isConnected && isAuthorized)
      && (ShownTitle(o) == Some(NotConnectedTitle) <==> !isConnected)
      && (ShownTitle(o) == Some(ForbiddenTitle) <==> isConnected && !isAuthorized)
  {
    if !isConnected {
      NotConnectedShows401(children, isAuthorized);
    } else if !isAuthorized {
      NotAuthorizedShows403(children);
    }
  }
}
