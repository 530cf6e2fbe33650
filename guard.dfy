/** The router's `beforeEach` permission guard: one decision per navigation,
    either `next()` or `next(destination)`. The app store's settings and the
    menu the server would return are parameters. */
module Guard {
  import opened Wrappers
  import opened Permission
  import opened Js

  /** The argument of the one `next` call: none, or a redirect target. */
  datatype NextCall = Proceed | Redirect(destination: Location)

  /** What the guard does, in order. */
  datatype GuardEvent =
    | CheckPermission(allowed: bool)   // `accessRouter(to)`, evaluated once
    | FetchMenu                        // `await appStore.fetchServerMenuConfig()`
    | Next(call: NextCall)             // `next()` or `next(destination)`
    | ProgressDone                     // `NProgress.done()`

  /** `WHITE_LIST.find(el => el.name === name)` finds an entry (top level only). */
  predicate NamedIn(routes: seq<Route>, name: string) {
    exists i :: 0 <= i < |routes| && routes[i].name == name
  }

  /** Some route of the forest, nested children included, has this name. */
  predicate NameInForest(routes: seq<Route>, name: string) {
    exists x :: x in NodesOf(routes) && x.name == name
  }

  /** The existence check over the server menu: the list is copied into a
      queue, each route taken off is compared by name and its children are
      appended, until a match sets `exist` or the queue runs out. */
  method MenuExists(menus: seq<Route>, name: string) returns (exist: bool)
    ensures exist <==> NameInForest(menus, name)
  {
    var queue := menus;
    exist := false;
    while queue != [] && !exist
      invariant forall x :: x in NodesOf(queue) ==> x in NodesOf(menus)
      invariant exist ==> NameInForest(menus, name)
      invariant !exist ==> (NameInForest(queue, name) <==> NameInForest(menus, name))
      decreases SizeOf(queue)
    {
      var element := queue[0];
      StepNodes(queue);
      if element.name == name {
        exist := true;
      }
      queue := Step(queue);
    }
  }

  /** The menu list the existence check runs over: the cached menus, or the
      freshly fetched ones when the cache was empty and the target is not
      whitelisted. */
  predicate NeedsFetch(appAsyncMenus: seq<Route>, whiteList: seq<Route>, to: Route) {
    |appAsyncMenus| == 0 && !NamedIn(whiteList, to.name)
  }

  /** `beforeEach(to, from, next)`. `role` is the user store's role;
      `menuFromServer` and `appAsyncMenus` are the app store's settings;
      `serverMenus` is what `fetchServerMenuConfig` loads; `whiteList`,
      `notFound` and `appRoutes` are `WHITE_LIST`, `NOT_FOUND` and the
      aggregated route modules. */
  method BeforeEach(to: Route, role: string, menuFromServer: bool, appAsyncMenus: seq<Route>,
                    serverMenus: seq<Route>, whiteList: seq<Route>, notFound: Location,
                    appRoutes: seq<Route>)
    returns (call: NextCall, trace: seq<GuardEvent>)
    // The permission is checked once, first; a fetch, if any, comes next;
    // then exactly one `next` call; the progress bar is completed last.
    ensures var fetched := menuFromServer && NeedsFetch(appAsyncMenus, whiteList, to);
            trace == [CheckPermission(AccessRouter(to, role))] + (if fetched then [FetchMenu] else [])
                     + [Next(call), ProgressDone]
    // Server-menu mode: proceed iff the target exists in menus ++ whitelist
    // and is permitted; every denial goes to NOT_FOUND, whatever the role.
    ensures menuFromServer ==>
              var menus := if NeedsFetch(appAsyncMenus, whiteList, to) then serverMenus else appAsyncMenus;
              && (call == Proceed <==> NameInForest(menus + whiteList, to.name) && AccessRouter(to, role))
              && (call != Proceed ==> call == Redirect(notFound))
    // Static mode: proceed iff permitted; a denial goes to the first route the
    // role may reach, or to NOT_FOUND when there is none.
    ensures !menuFromServer ==>
              && (call == Proceed <==> AccessRouter(to, role))
              && (call != Proceed ==>
                    var m := FirstMatch(appRoutes, role);
                    call == Redirect(if m.Some? then Location(m.value.name) else notFound))
  {
    var permissionsAllow := AccessRouter(to, role);
    trace := [CheckPermission(permissionsAllow)];
    if menuFromServer {
      var menus := appAsyncMenus;
      if |appAsyncMenus| == 0 && !NamedIn(whiteList, to.name) {
        trace := trace + [FetchMenu];
        menus := serverMenus;
      }
      var exist := MenuExists(menus + whiteList, to.name);
      if exist && permissionsAllow {
        call := Proceed;
      } else {
        call := Redirect(notFound);
      }
    } else {
      if permissionsAllow {
        call := Proceed;
      } else {
        var first := FindFirstPermissionRoute(appRoutes, Some(role));
        call := Redirect(if first.Some? then first.value else notFound);
      }
    }
    trace := trace + [Next(call), ProgressDone];
  }

  /** The login route of the router (`requiresAuth: false`). */
  const LOGIN_ROUTE: Route := Route("login", Some(RouteMeta(false, None)), [])

  /** The company module: a parent requiring authentication without a role
      list, and its `CompanyList` child for roles `admin` and `user`. */
  const COMPANY_LIST: Route := Route("CompanyList", Some(RouteMeta(true, Some(["admin", "user"]))), [])
  const COMPANY: Route := Route("company", Some(RouteMeta(true, None)), [COMPANY_LIST])

  /** Scenario: the unauthenticated role `''` reaches the login route directly. */
  lemma LoginOpenToInitialRole()
    ensures AccessRouter(LOGIN_ROUTE, "")
  {
  }

  /** Scenario: a `user` denied an admin-only route in static mode is sent to
      the first route of the company module it may reach, `CompanyList`; so
      is the initial role `''`, because `'admin'.includes('')` holds. */
  lemma DeniedUserRedirectedToCompanyList(target: Route)
    requires RequiresAuth(target) && Roles(target) == Some(["admin"])
    ensures !AccessRouter(target, "user") && !AccessRouter(target, "")
    ensures FirstMatch([COMPANY], "user") == Some(COMPANY_LIST)
    ensures FirstMatch([COMPANY], "") == Some(COMPANY_LIST)
  {
    assert !NodeMatches(COMPANY, "user") && !NodeMatches(COMPANY, "");
    assert Step([COMPANY]) == [COMPANY_LIST];
    assert Includes("user", "user") by {
      assert "user"[..4] == "user";
    }
    IncludesEmpty("admin");
    assert FindEntry(["admin", "user"], "") == Some("admin");
    assert NodeMatches(COMPANY_LIST, "");
    assert FindEntry(["admin", "user"], "user").Some?;
    assert NodeMatches(COMPANY_LIST, "user") by {
      var f := FindEntry(["admin", "user"], "user");
      assert f.value == "admin" || f.value == "user";
    }
  }
}
