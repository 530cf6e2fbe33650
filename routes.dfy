/** Aggregation of the route modules into `appRoutes` and
    `appExternalRoutes`. The glob-imported modules are given as a list in
    key order. */
module Routes {
  import opened Wrappers
  import opened Permission

  /** What a module's `default` export holds: one route or a list of routes. */
  datatype DefaultExport = Single(route: Route) | Many(routes: seq<Route>)

  /** A loaded module; `defaultExport` is `None` when there is no (truthy)
      `default` export. */
  datatype RouteModule = RouteModule(defaultExport: Option<DefaultExport>)

  /** The routes one module adds to the result. */
  function Contribution(m: RouteModule): seq<Route> {
    match m.defaultExport
    case None => []
    case Some(Many(routes)) => routes
    case Some(Single(route)) => [route]
  }

  /** The contributions of a list of modules, in key order. */
  function Contributions(modules: seq<RouteModule>): seq<Route> {
    if modules == [] then [] else Contribution(modules[0]) + Contributions(modules[1..])
  }

  lemma {:induction false} ContributionsSnoc(modules: seq<RouteModule>, i: nat)
    requires i < |modules|
    ensures Contributions(modules[..i + 1]) == Contributions(modules[..i]) + Contribution(modules[i])
    decreases i
  {
    if i == 0 {
      assert modules[..1] == [modules[0]];
      assert Contributions([modules[0]]) == Contribution(modules[0]) + Contributions([]);
    } else {
      var tail := modules[1..];
      assert modules[..i + 1][1..] == tail[..i];
      assert modules[..i][1..] == tail[..i - 1];
      ContributionsSnoc(tail, i - 1);
    }
  }

  /** `formatModules(modules, result)`: every module with a `default` export
      appends its routes, an array element by element and a single route as
      one element, to the accumulator. */
  method FormatModules(modules: seq<RouteModule>, result: seq<Route>) returns (formatted: seq<Route>)
    ensures formatted == result + Contributions(modules)
  {
    formatted := result;
    for i := 0 to |modules|
      invariant formatted == result + Contributions(modules[..i])
    {
      ContributionsSnoc(modules, i);
      var defaultModule := modules[i].defaultExport;
      if defaultModule.None? {
        continue;
      }
      var moduleList := match defaultModule.value
        case Many(routes) => routes
        case Single(route) => [route];
      formatted := formatted + moduleList;
    }
    assert modules[..|modules|] == modules;
  }

  /** `appRoutes` and `appExternalRoutes`: both start from an empty accumulator. */
  method AppRoutes(modules: seq<RouteModule>, externalModules: seq<RouteModule>)
    returns (appRoutes: seq<Route>, appExternalRoutes: seq<Route>)
    ensures appRoutes == Contributions(modules)
    ensures appExternalRoutes == Contributions(externalModules)
  {
    appRoutes := FormatModules(modules, []);
    appExternalRoutes := FormatModules(externalModules, []);
  }

  /** How many routes a module adds: none without `default`, one for a
      single route, the array's length for an array. */
  function ModuleSize(m: RouteModule): nat {
    match m.defaultExport
    case None => 0
    case Some(Single(_)) => 1
    case Some(Many(routes)) => |routes|
  }

  /** The sum of the modules' sizes. */
  function ContributedCount(modules: seq<RouteModule>): nat {
    if modules == [] then 0 else ModuleSize(modules[0]) + ContributedCount(modules[1..])
  }

  /** The aggregated length is the sum of the contributions' lengths: a module
      without `default` adds 0, a single route 1, an array its length. */
  lemma {:induction false} ContributionsLength(modules: seq<RouteModule>)
    ensures |Contributions(modules)| == ContributedCount(modules)
  {
    if modules != [] {
      ContributionsLength(modules[1..]);
    }
  }

  /** A route is aggregated exactly when one of the modules contributes it. */
  lemma {:induction false} ContributionsMembership(modules: seq<RouteModule>, r: Route)
    ensures r in Contributions(modules) <==> exists i :: 0 <= i < |modules| && r in Contribution(modules[i])
  {
    if modules != [] {
      ContributionsMembership(modules[1..], r);
      assert forall i :: 0 < i < |modules| ==> modules[i] == modules[1..][i - 1];
      if r in Contributions(modules[1..]) {
        var k :| 0 <= k < |modules[1..]| && r in Contribution(modules[1..][k]);
        assert r in Contribution(modules[k + 1]);
      }
    }
  }
}
