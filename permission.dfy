/** The permission evaluator of the frontend (`usePermission`): the access
    test for one route and the breadth-first search for the first route a
    role may reach. */
module Permission {
  import opened Wrappers
  import opened Js

  /** Route metadata. An absent `requiresAuth` reads as `false`; `roles` is
      `None` when the route declares no role list. */
  datatype RouteMeta = RouteMeta(requiresAuth: bool, roles: Option<seq<string>>)

  /** A route record: its name, optional metadata and nested children in
      declaration order (an absent `children` is the empty list). */
  datatype Route = Route(name: string, meta: Option<RouteMeta>, children: seq<Route>)

  /** The `{ name }` location object handed to the router. */
  datatype Location = Location(name: string)

  /** The role `findFirstPermissionRoute` uses when it is called without one. */
  const DEFAULT_ROLE: string := "admin"

  /** The wildcard role entry. */
  const WILDCARD: string := "*"

  /** `route.meta?.requiresAuth` is truthy. */
  predicate RequiresAuth(route: Route) {
    route.meta.Some? && route.meta.value.requiresAuth
  }

  /** `route.meta?.roles`. */
  function Roles(route: Route): Option<seq<string>> {
    if route.meta.Some? then route.meta.value.roles else None
  }

  /** `accessRouter(route)` for the store's current `role`: four independent
      ways to be let through, the last two by exact array membership. */
  function AccessRouter(route: Route, role: string): (allowed: bool)
    ensures !RequiresAuth(route) ==> allowed
    ensures Roles(route).None? ==> allowed
    ensures Roles(route).Some? && WILDCARD in Roles(route).value ==> allowed
    ensures RequiresAuth(route) && Roles(route).Some? && WILDCARD !in Roles(route).value ==>
              (allowed <==> role in Roles(route).value)
  {
    !RequiresAuth(route) || Roles(route).None? || WILDCARD in Roles(route).value || role in Roles(route).value
  }

  /** The test `findFirstPermissionRoute` applies to one role entry: the entry
      contains `'*'` or the role as a substring. */
  predicate EntryMatches(entry: string, role: string) {
    Includes(entry, WILDCARD) || Includes(entry, role)
  }

  /** `roles.find(el => el.includes('*') || el.includes(role))`: the first
      entry that passes the test, if any. */
  function FindEntry(roles: seq<string>, role: string): (r: Option<string>)
    ensures r.None? <==> forall j :: 0 <= j < |roles| ==> !EntryMatches(roles[j], role)
    ensures r.Some? ==> exists i :: 0 <= i < |roles| && roles[i] == r.value && EntryMatches(roles[i], role) &&
                                    forall j :: 0 <= j < i ==> !EntryMatches(roles[j], role)
  {
    if roles == [] then None
    else if EntryMatches(roles[0], role) then Some(roles[0])
    else
      var r := FindEntry(roles[1..], role);
      assert r.Some? ==> exists i :: 0 < i < |roles| && roles[i] == r.value && EntryMatches(roles[i], role) &&
                                      forall j :: 0 <= j < i ==> !EntryMatches(roles[j], role) by {
        if r.Some? {
          var k :| 0 <= k < |roles[1..]| && roles[1..][k] == r.value && EntryMatches(roles[1..][k], role) &&
                   forall j :: 0 <= j < k ==> !EntryMatches(roles[1..][j], role);
          assert forall j :: 0 < j <= k ==> roles[j] == roles[1..][j - 1];
        }
      }
      r
  }

  /** The node passes the search's test: `find` returned an entry and that
      entry is truthy, so a matching entry `''` does not count. */
  predicate NodeMatches(route: Route, role: string) {
    Roles(route).Some? &&
    var found := FindEntry(Roles(route).value, role);
    found.Some? && found.value != ""
  }

  /** The number of routes in a tree, and in a forest. */
  function Size(route: Route): nat
    decreases route
  {
    1 + SizeOf(route.children)
  }

  function SizeOf(routes: seq<Route>): nat
    decreases routes
  {
    if routes == [] then 0 else Size(routes[0]) + SizeOf(routes[1..])
  }

  lemma {:induction false} SizeOfAppend(a: seq<Route>, b: seq<Route>)
    ensures SizeOf(a + b) == SizeOf(a) + SizeOf(b)
    decreases |a|
  {
    if a != [] {
      assert (a + b)[1..] == a[1..] + b;
      SizeOfAppend(a[1..], b);
    } else {
      assert a + b == b;
    }
  }

  /** One step of the queue: the head is taken off and its children are
      appended behind the rest, so the queue shrinks by exactly one route. */
  function Step(queue: seq<Route>): (next: seq<Route>)
    requires queue != []
    ensures SizeOf(next) == SizeOf(queue) - 1
  {
    SizeOfAppend(queue[1..], queue[0].children);
    queue[1..] + queue[0].children
  }

  /** The route the queue-based search settles on: the head when it matches,
      otherwise the search over the next queue. */
  function FirstMatch(queue: seq<Route>, role: string): Option<Route>
    decreases SizeOf(queue)
  {
    if queue == [] then None
    else if NodeMatches(queue[0], role) then Some(queue[0])
    else FirstMatch(Step(queue), role)
  }

  /** Every route of a forest, each tree in pre-order. */
  function Nodes(route: Route): seq<Route>
    decreases route
  {
    [route] + NodesOf(route.children)
  }

  function NodesOf(routes: seq<Route>): seq<Route>
    decreases routes
  {
    if routes == [] then [] else Nodes(routes[0]) + NodesOf(routes[1..])
  }

  lemma {:induction false} NodesOfAppend(a: seq<Route>, b: seq<Route>)
    ensures NodesOf(a + b) == NodesOf(a) + NodesOf(b)
    decreases |a|
  {
    if a != [] {
      assert (a + b)[1..] == a[1..] + b;
      NodesOfAppend(a[1..], b);
    } else {
      assert a + b == b;
    }
  }

  /** A search step neither loses nor invents routes: the forest's routes are
      the head plus the routes of the next queue. */
  lemma StepNodes(queue: seq<Route>)
    requires queue != []
    ensures forall x :: x in NodesOf(queue) <==> x == queue[0] || x in NodesOf(Step(queue))
  {
    NodesOfAppend(queue[1..], queue[0].children);
  }

  /** The search finds nothing exactly when no route anywhere in the forest
      passes the test, and whatever it finds is a matching route of the forest. */
  lemma {:induction false} FirstMatchComplete(queue: seq<Route>, role: string)
    ensures FirstMatch(queue, role).None? <==> forall x :: x in NodesOf(queue) ==> !NodeMatches(x, role)
    ensures FirstMatch(queue, role).Some? ==>
              FirstMatch(queue, role).value in NodesOf(queue) && NodeMatches(FirstMatch(queue, role).value, role)
    decreases SizeOf(queue)
  {
    if queue != [] {
      StepNodes(queue);
      if !NodeMatches(queue[0], role) {
        FirstMatchComplete(Step(queue), role);
      }
    }
  }

  /** Siblings come first: when some top-level route matches, the search
      returns the earliest such route, whatever matches below it. */
  lemma {:induction false} FirstMatchPrefersSiblings(queue: seq<Route>, role: string, i: nat)
    requires i < |queue| && NodeMatches(queue[i], role)
    requires forall j :: 0 <= j < i ==> !NodeMatches(queue[j], role)
    ensures FirstMatch(queue, role) == Some(queue[i])
    decreases i
  {
    if i > 0 {
      var next := Step(queue);
      assert next[i - 1] == queue[i];
      assert forall j :: 0 <= j < i - 1 ==> next[j] == queue[j + 1];
      FirstMatchPrefersSiblings(next, role, i - 1);
    }
  }

  /** Children of a forest's top-level routes, concatenated in declaration order. */
  function ChildrenOf(routes: seq<Route>): seq<Route> {
    if routes == [] then [] else routes[0].children + ChildrenOf(routes[1..])
  }

  /** Level by level: when no route of the current level matches, the search
      goes on with the next level, i.e. with the routes queued behind it
      followed by all children of this level in order. */
  lemma {:induction false} FirstMatchSkipsLevel(level: seq<Route>, rest: seq<Route>, role: string)
    requires forall j :: 0 <= j < |level| ==> !NodeMatches(level[j], role)
    ensures FirstMatch(level + rest, role) == FirstMatch(rest + ChildrenOf(level), role)
    decreases |level|
  {
    if level == [] {
      assert level + rest == rest;
      assert rest + ChildrenOf(level) == rest;
    } else {
      var q := level + rest;
      var rest' := rest + level[0].children;
      assert q[0] == level[0] && !NodeMatches(q[0], role);
      assert q[1..] == level[1..] + rest;
      assert Step(q) == level[1..] + rest';
      assert FirstMatch(q, role) == FirstMatch(level[1..] + rest', role);
      FirstMatchSkipsLevel(level[1..], rest', role);
      assert ChildrenOf(level) == level[0].children + ChildrenOf(level[1..]);
      assert rest' + ChildrenOf(level[1..]) == rest + ChildrenOf(level);
    }
  }

  /** The breadth-first order at the top: with no match among the given
      routes, the result is the search over their children. */
  lemma NextLevel(routes: seq<Route>, role: string)
    requires forall j :: 0 <= j < |routes| ==> !NodeMatches(routes[j], role)
    ensures FirstMatch(routes, role) == FirstMatch(ChildrenOf(routes), role)
  {
    FirstMatchSkipsLevel(routes, [], role);
    assert routes + [] == routes;
    assert [] + ChildrenOf(routes) == ChildrenOf(routes);
  }

  /** `findFirstPermissionRoute(routers, role)`: a shallow copy of the list
      is used as a queue; the first route to pass the test gives `{ name }`,
      and an exhausted queue gives `null`. `role` is `None` when the caller
      leaves it out. */
  method FindFirstPermissionRoute(routers: seq<Route>, role: Option<string>) returns (found: Option<Location>)
    ensures var m := FirstMatch(routers, role.GetOr(DEFAULT_ROLE));
            found == if m.Some? then Some(Location(m.value.name)) else None
  {
    var wanted := role.GetOr(DEFAULT_ROLE);
    var queue := routers;
    while queue != []
      invariant FirstMatch(queue, wanted) == FirstMatch(routers, wanted)
      decreases SizeOf(queue)
    {
      var first := queue[0];
      if NodeMatches(first, wanted) {
        return Some(Location(first.name));
      }
      queue := Step(queue);
    }
    return None;
  }

  /** The initial role `''` never passes `accessRouter` on a route that
      requires authentication and lists roles without `'*'` or `''`, yet it
      passes the search's substring test on any list whose first entry is
      non-empty. */
  lemma InitialRoleContrast(route: Route)
    requires RequiresAuth(route) && Roles(route).Some?
    requires WILDCARD !in Roles(route).value && "" !in Roles(route).value
    requires |Roles(route).value| > 0
    ensures !AccessRouter(route, "")
    ensures NodeMatches(route, "")
  {
    IncludesEmpty(Roles(route).value[0]);
    assert Roles(route).value[0] != "";
  }
}
