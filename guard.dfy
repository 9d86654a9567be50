/** The route guard (auth.guard.ts): it reads the first value of the
    facade's `isAuthenticated$` (the current one, as the subject replays it)
    and either lets the navigation through or redirects to the login page,
    carrying the blocked URL as `returnUrl`. */
module Guard {
  import opened Common
  import opened Facade

  /** What the guard answers, and the redirect it asks for, if any. */
  datatype Decision = Decision(allow: bool, redirect: Option<Navigation>)

  /** The `map` step of the guard for the flag value `isAuthenticated` and the
      requested URL. */
  function Decide(isAuthenticated: bool, url: string): (d: Decision)
    ensures d.allow <==> isAuthenticated
    ensures d.allow <==> d.redirect.None?
    ensures !d.allow ==> d.redirect == Some(Navigation(["/login"], Some(url)))
  {
    if isAuthenticated then Decision(true, None)
    else Decision(false, Some(Navigation(["/login"], Some(url))))
  }

  /** `authGuard` on the running facade: at most one navigation, and the
      session is only read. */
  method CanActivate(facade: AuthFacade, router: Router, url: string) returns (allowed: bool)
    requires facade.Valid()
    modifies router
    ensures allowed == facade.IsAuthenticated()
    ensures allowed ==> router.navigations == old(router.navigations)
    ensures !allowed ==> router.navigations == old(router.navigations) + [Navigation(["/login"], Some(url))]
    ensures facade.state == old(facade.state) && facade.published == old(facade.published)
  {
    var d := Decide(facade.IsAuthenticated(), url);
    allowed := d.allow;
    if d.redirect.Some? {
      router.Navigate(d.redirect.value);
    }
  }
}
