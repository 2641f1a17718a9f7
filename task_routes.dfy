/** The task router, backend/routes/task.js, as the ordered list of layers
    Express walks for a request under /api/tasks. A `router.use(path, …)`
    layer runs for the path and for every path below it; a route runs only
    for a path of its own shape. The role check `requireRoles` is not part of
    this model: it is taken to let a request through exactly when the caller
    holds one of the listed roles. */
module TaskRoutes {
  import opened Accounts

  datatype Verb = GET | POST | PATCH | DELETE

  /** A path segment of a route: a literal or a `:id` parameter. */
  datatype Segment = Lit(text: string) | Param

  datatype Handler =
    | GetAll | Create | Inspect | AssignUser | GetNotAssignUser
    | GetAssignUser | DeleteAssign | GetById | Update | Delete

  datatype Layer =
    | Guard(prefix: seq<string>, allowed: set<string>)
    | Endpoint(verb: Verb, pattern: seq<Segment>, guard: set<string>, guarded: bool, handler: Handler)

  /** `[...Object.values(ROLES_LIST)]`. */
  const Everyone: set<string> := {ROOT, ADMIN, USER}
  const RootOrAdmin: set<string> := {ROOT, ADMIN}

  /** The router's layers in registration order. */
  const Layers: seq<Layer> := [
    Endpoint(GET, [], Everyone, true, GetAll),
    Endpoint(POST, [], Everyone, true, Create),
    Guard(["inspect"], RootOrAdmin),
    Endpoint(POST, [Lit("inspect")], {}, false, Inspect),
    Guard(["assign"], RootOrAdmin),
    Endpoint(POST, [Lit("assign")], {}, false, AssignUser),
    Endpoint(GET, [Lit("notassign"), Param], RootOrAdmin, true, GetNotAssignUser),
    Endpoint(GET, [Lit("assign"), Param], Everyone, true, GetAssignUser),
    Endpoint(DELETE, [Lit("assign"), Param], RootOrAdmin, true, DeleteAssign),
    Endpoint(GET, [Param], Everyone, true, GetById),
    Endpoint(PATCH, [Param], Everyone, true, Update),
    Endpoint(DELETE, [Param], RootOrAdmin, true, Delete)
  ]

  /** The assumed `requireRoles(allowed)`: some role of the caller is listed. */
  predicate Permits(allowed: set<string>, roles: seq<string>) {
    exists r :: r in roles && r in allowed
  }

  predicate SegmentMatches(p: Segment, s: string) {
    match p
    case Lit(t) => s == t
    case Param => s != ""
  }

  predicate PatternMatches(pattern: seq<Segment>, path: seq<string>) {
    |pattern| == |path| && forall i :: 0 <= i < |path| ==> SegmentMatches(pattern[i], path[i])
  }

  /** Where a request ends: in a handler, refused by a role check, or with no route. */
  datatype Dispatch = Handled(handler: Handler) | Refused | NoRoute

  /** Express's walk over the layers from position `i` on. */
  function Walk(i: nat, verb: Verb, path: seq<string>, roles: seq<string>): Dispatch
    requires i <= |Layers|
    decreases |Layers| - i
  {
    if i == |Layers| then NoRoute
    else match Layers[i]
      case Guard(prefix, allowed) =>
        if prefix <= path && !Permits(allowed, roles) then Refused
        else Walk(i + 1, verb, path, roles)
      case Endpoint(v, pattern, allowed, guarded, handler) =>
        if v == verb && PatternMatches(pattern, path) then
          if guarded && !Permits(allowed, roles) then Refused else Handled(handler)
        else Walk(i + 1, verb, path, roles)
  }

  function Route(verb: Verb, path: seq<string>, roles: seq<string>): Dispatch {
    Walk(0, verb, path, roles)
  }

  /** The roles each handler demands once the prefix guards are taken into
      account: every route under /assign is behind the Root/Admin guard,
      whatever its own list says. */
  function EffectiveRoles(h: Handler): set<string> {
    match h
    case GetAll => Everyone
    case Create => Everyone
    case GetById => Everyone
    case Update => Everyone
    case _ => RootOrAdmin
  }

  /** No request reaches a handler unless the caller holds one of the roles
      that handler effectively demands. */
  lemma {:induction false} RouteRespectsRoles(verb: Verb, path: seq<string>, roles: seq<string>)
    ensures Route(verb, path, roles).Handled? ==>
      Permits(EffectiveRoles(Route(verb, path, roles).handler), roles)
  {
    var d := Route(verb, path, roles);
    if d.Handled? {
      if |path| >= 1 && (path[0] == "assign" || path[0] == "inspect") {
        assert [path[0]] <= path;
      }
    }
  }

  /** GET / and POST / are open to every role. */
  lemma RootPathsOpen(roles: seq<string>)
    requires Permits(Everyone, roles)
    ensures Route(GET, [], roles) == Handled(GetAll)
    ensures Route(POST, [], roles) == Handled(Create)
  {
  }

  /** Every method on every path under /inspect and /assign is refused to a
      caller holding neither Root nor Admin. */
  lemma {:induction false} PrefixGuardsRefuse(verb: Verb, path: seq<string>, roles: seq<string>)
    requires |path| >= 1 && (path[0] == "inspect" || path[0] == "assign")
    requires !Permits(RootOrAdmin, roles)
    ensures Route(verb, path, roles) == Refused
  {
    assert [path[0]] <= path;
    if path[0] == "assign" {
      assert !(["inspect"] <= path);
      assert !PatternMatches([Lit("inspect")], path);
    }
  }

  /** POST /inspect and POST /assign carry no role list of their own; the
      prefix guard before each lets them through exactly for Root or Admin. */
  lemma {:induction false} InspectAndAssignNeedRootOrAdmin(roles: seq<string>)
    ensures Route(POST, ["inspect"], roles) == Handled(Inspect) <==> Permits(RootOrAdmin, roles)
    ensures Route(POST, ["assign"], roles) == Handled(AssignUser) <==> Permits(RootOrAdmin, roles)
  {
    var inspect, assign := ["inspect"], ["assign"];
    assert inspect[0] == "inspect" && assign[0] == "assign";
    assert ["inspect"] <= inspect && ["assign"] <= assign;
    assert assign[0][0] != "inspect"[0];
    assert !(["inspect"] <= assign);
  }

  /** GET /assign/:id is listed for every role but, behind the /assign
      guard, reaches its handler exactly when the caller is Root or Admin. */
  lemma {:induction false} GetAssignNeedsRootOrAdmin(id: string, roles: seq<string>)
    requires id != ""
    ensures Route(GET, ["assign", id], roles) == Handled(GetAssignUser) <==> Permits(RootOrAdmin, roles)
    ensures !Permits(RootOrAdmin, roles) ==> Route(GET, ["assign", id], roles) == Refused
  {
    var path := ["assign", id];
    assert ["assign"] <= path;
    assert path[0][0] != "inspect"[0];
    assert !(["inspect"] <= path);
    assert !PatternMatches([Lit("notassign"), Param], path);
    if Permits(RootOrAdmin, roles) {
      var r :| r in roles && r in RootOrAdmin;
      assert r in Everyone;
    }
  }

  /** GET and PATCH /:id are open to every role; DELETE /:id demands Root or Admin. */
  lemma {:induction false} ByIdRoutes(id: string, roles: seq<string>)
    requires id != "" && id != "inspect" && id != "assign"
    ensures Permits(Everyone, roles) ==> Route(GET, [id], roles) == Handled(GetById)
    ensures Permits(Everyone, roles) ==> Route(PATCH, [id], roles) == Handled(Update)
    ensures Route(DELETE, [id], roles) == Handled(Delete) <==> Permits(RootOrAdmin, roles)
  {
    var path := [id];
    assert path[0] == id;
    assert !(["inspect"] <= path);
    assert !(["assign"] <= path);
    if Permits(RootOrAdmin, roles) {
      var r :| r in roles && r in RootOrAdmin;
      assert r in Everyone;
    }
  }

  /** DELETE /assign/:id and GET /notassign/:id demand Root or Admin. */
  lemma {:induction false} AssignRoutes(id: string, roles: seq<string>)
    requires id != ""
    ensures Route(DELETE, ["assign", id], roles) == Handled(DeleteAssign) <==> Permits(RootOrAdmin, roles)
    ensures Route(GET, ["notassign", id], roles) == Handled(GetNotAssignUser) <==> Permits(RootOrAdmin, roles)
  {
    var path := ["assign", id];
    assert ["assign"] <= path;
    assert path[0][0] != "inspect"[0];
    assert !(["inspect"] <= path);
    var other := ["notassign", id];
    assert other[0][0] != "inspect"[0] && other[0][0] != "assign"[0];
    assert !(["inspect"] <= other);
    assert !(["assign"] <= other);
  }
}
