/** The route guard (`components/auth/ProtectedRoute.tsx`). Its effect runs on the
    current pathname; outside `/login` it probes `GET /auth/me` once per new
    pathname and shows a spinner until a probe settles; a failed probe sends the
    browser to `/login`. Effect runs, navigations and probe results are events
    the environment delivers in any order. */
module AuthGuard {
  import opened Base
  import Api

  class ProtectedRoute {
    /** `usePathname()`. */
    var pathname: string
    /** The `isChecking` state. */
    var isChecking: bool
    /** The `lastPathname` ref. */
    var lastPathname: Option<string>
    /** Probes started and not yet settled. */
    var probes: nat
    /** The browser's `window`, whose `location` a failed probe sets. */
    const window: Api.Window

    /** The spinner is shown while checking, except on the login page (which
        renders its children at once). */
    predicate ShowsSpinner()
      reads this
    {
      isChecking && pathname != Api.LoginPath
    }

    /** `isChecking` is only true before the first effect run or while a probe is out. */
    predicate Valid()
      reads this
    {
      (isChecking ==> lastPathname.None? || probes > 0)
      && (lastPathname.None? ==> probes == 0 && isChecking)
    }

    /** The first render: checking, no pathname recorded, nothing probed. */
    constructor(pathname: string, window: Api.Window)
      ensures this.pathname == pathname && this.window == window
      ensures isChecking && lastPathname.None? && probes == 0
      ensures Valid() && (ShowsSpinner() <==> pathname != Api.LoginPath)
    {
      this.pathname := pathname;
      this.window := window;
      isChecking := true;
      lastPathname := None;
      probes := 0;
    }

    /** The router moves to another page; the effect runs afterwards, as its own event. */
    method Navigate(path: string)
      modifies this
      ensures pathname == path
      ensures isChecking == old(isChecking) && lastPathname == old(lastPathname) && probes == old(probes)
      ensures old(Valid()) ==> Valid()
    {
      pathname := path;
    }

    /** The effect: the login page is never probed and stops the checking; a pathname
        already recorded is left alone; a new one is recorded and probed, with the
        spinner on. */
    method Effect()
      modifies this
      requires Valid()
      ensures Valid() && pathname == old(pathname)
      ensures pathname == Api.LoginPath ==>
                !isChecking && lastPathname == Some(pathname) && probes == old(probes) && !ShowsSpinner()
      ensures pathname != Api.LoginPath && old(lastPathname) == Some(pathname) ==>
                isChecking == old(isChecking) && lastPathname == old(lastPathname) && probes == old(probes)
      ensures pathname != Api.LoginPath && old(lastPathname) != Some(pathname) ==>
                isChecking && lastPathname == Some(pathname) && probes == old(probes) + 1 && ShowsSpinner()
    {
      if pathname == Api.LoginPath {
        isChecking := false;
        lastPathname := Some(pathname);
        return;
      }
      if lastPathname == Some(pathname) {
        return;
      }
      lastPathname := Some(pathname);
      isChecking := true;
      probes := probes + 1;
    }

    /** A probe settles, whichever pathname started it: checking ends, and a failure
        sends the browser to the login page. */
    method ProbeSettles(ok: bool)
      modifies this, window`location
      requires Valid() && probes > 0
      ensures Valid() && !isChecking && !ShowsSpinner()
      ensures pathname == old(pathname) && lastPathname == old(lastPathname) && probes == old(probes) - 1
      ensures window.location == if ok then old(window.location) else Api.LoginPath
    {
      isChecking := false;
      probes := probes - 1;
      if !ok {
        window.location := Api.LoginPath;
      }
    }

    /** Once the effect has run on the current pathname, a spinner on screen means a
        probe is still out, so a settling result will take it away. */
    lemma SpinnerWaitsForProbe()
      requires Valid() && ShowsSpinner() && lastPathname == Some(pathname)
      ensures probes > 0
    {
    }
  }
}
