/** The layout (`components/layout/`): the wrapper that decides whether the
    navigation bar is shown, the bar's active-item rule over its four links, and
    its logout handler. */
module Layout {
  import opened Base
  import Api

  // ---- NavigationWrapper.tsx ----------------------------------------------------

  class NavigationWrapper {
    /** `usePathname()`. */
    var pathname: string
    var isAuthenticated: bool
    var isChecking: bool
    /** Probes started and not yet settled; there is no deduplication. */
    var probes: nat

    /** The bar is rendered only when the check is over and it succeeded. */
    predicate ShowsNavigation()
      reads this
    {
      !isChecking && isAuthenticated
    }

    constructor(pathname: string)
      ensures this.pathname == pathname && !isAuthenticated && isChecking && probes == 0
      ensures !ShowsNavigation()
    {
      this.pathname := pathname;
      isAuthenticated := false;
      isChecking := true;
      probes := 0;
    }

    /** The router moves to another page; the effect runs afterwards, as its own event. */
    method Navigate(path: string)
      modifies this
      ensures pathname == path
      ensures isAuthenticated == old(isAuthenticated) && isChecking == old(isChecking) && probes == old(probes)
    {
      pathname := path;
    }

    /** The effect: on the login page the bar is hidden at once and nothing is probed;
        on any other page a probe starts, every time the effect runs. The check flag is
        never raised again. */
    method Effect()
      modifies this
      ensures pathname == old(pathname)
      ensures pathname == Api.LoginPath ==>
                !isAuthenticated && !isChecking && probes == old(probes) && !ShowsNavigation()
      ensures pathname != Api.LoginPath ==>
                isAuthenticated == old(isAuthenticated) && isChecking == old(isChecking)
                && probes == old(probes) + 1
      ensures !old(isChecking) ==> !isChecking
    {
      if pathname == Api.LoginPath {
        isAuthenticated := false;
        isChecking := false;
        return;
      }
      probes := probes + 1;
    }

    /** A probe settles, whichever pathname started it: the result decides whether the
        bar is shown, on whatever page is current, the login page included. */
    method ProbeSettles(ok: bool)
      modifies this
      requires probes > 0
      ensures pathname == old(pathname) && probes == old(probes) - 1
      ensures isAuthenticated == ok && !isChecking
      ensures ShowsNavigation() <==> ok
    {
      isAuthenticated := ok;
      isChecking := false;
      probes := probes - 1;
    }
  }

  // ---- Navigation.tsx -----------------------------------------------------------

  /** The `href`s of `navigationItems`, in order. */
  const NavigationItems := ["/dashboard", "/clients", "/policies", "/branches"]

  /** `pathname === item.href || (item.href !== '/' && pathname?.startsWith(item.href))`. */
  predicate IsActive(pathname: string, href: string) {
    pathname == href || (href != "/" && href <= pathname)
  }

  /** An item is active exactly when its `href` begins the pathname: a sub-page
      activates its section, and so does any longer text, with no separator checked. */
  lemma ActiveExamples()
    ensures IsActive("/clients/12", "/clients")
    ensures IsActive("/clientsX", "/clients")
    ensures !IsActive("/client", "/clients")
    ensures forall i :: 0 <= i < |NavigationItems| ==> !IsActive("/", NavigationItems[i])
  {
    assert "/clients" == "/clients/12"[..8];
    assert "/clients" == "/clientsX"[..8];
    forall i | 0 <= i < |NavigationItems| ensures !IsActive("/", NavigationItems[i]) {
      assert NavigationItems[i][1] != '/';
    }
  }

  /** No item's `href` begins another's. */
  lemma NoHrefPrefix(i: nat, j: nat)
    requires i < |NavigationItems| && j < |NavigationItems| && i != j
    ensures !(NavigationItems[i] <= NavigationItems[j])
  {
    var a, b := NavigationItems[i], NavigationItems[j];
    assert a[1] != b[1] || a[2] != b[2];
  }

  /** Two prefixes of one text are prefixes of each other. */
  lemma PrefixesNested(a: string, b: string, s: string)
    requires a <= s && b <= s && |a| <= |b|
    ensures a <= b
  {
    assert a == s[..|a|] && b == s[..|b|];
    assert b[..|a|] == s[..|a|];
  }

  /** However the pathname reads, at most one item of the bar is highlighted. */
  lemma {:induction false} AtMostOneActive(pathname: string, i: nat, j: nat)
    requires i < |NavigationItems| && j < |NavigationItems|
    requires IsActive(pathname, NavigationItems[i]) && IsActive(pathname, NavigationItems[j])
    ensures i == j
  {
    if i != j {
      var a, b := NavigationItems[i], NavigationItems[j];
      assert a <= pathname && b <= pathname;
      if |a| <= |b| {
        PrefixesNested(a, b, pathname);
        NoHrefPrefix(i, j);
      } else {
        PrefixesNested(b, a, pathname);
        NoHrefPrefix(j, i);
      }
    }
  }

  /** `handleLogout`: `callStatus` is the status the logout call received (None when
      it threw before any response; a 401 already sends `apiRequest` to the login
      page). Whatever it was, the stored user is removed and the browser goes to the
      login page. */
  method HandleLogout(w: Api.Window, callStatus: Option<nat>)
    modifies w
    ensures w.storage == old(w.storage) - {"user"}
    ensures w.location == Api.LoginPath
  {
    if callStatus == Some(401) {
      w.location := Api.LoginPath;
    }
    w.storage := w.storage - {"user"};
    w.location := Api.LoginPath;
  }
}
