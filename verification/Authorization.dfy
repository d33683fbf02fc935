/** The guard service and the permissions service: both decide requests by the policies of a user's groups. */
module Authorization {
  import opened Text
  import opened CedarPolicy
  import opened PolicyGenerator
  import opened CedarEngine

  datatype Group = Group(id: string, connectionId: Option<string>, cedarPolicy: string)

  /** What the repositories answer: suspended users, the groups of a user in a connection, and the
      connection of a group. A group without a policy has the empty text. */
  datatype Directory = Directory(
    suspended: set<string>, memberships: map<(string, string), seq<Group>>, connectionOf: map<string, string>)
  {
    function GroupsOf(connectionId: string, userId: string): seq<Group> {
      if (connectionId, userId) in memberships then memberships[(connectionId, userId)] else []
    }
  }

  /** An absent dashboard id is the empty string. */
  datatype Request = Request(
    userId: string, action: Action, connectionId: string, groupId: string, tableName: string, dashboardId: string)

  datatype Verdict = Decided(allowed: bool) | AccountSuspended

  // ----- Decisions by several policies -----

  function Policies(groups: seq<Group>): seq<string> {
    if |groups| == 0 then []
    else Policies(groups[..|groups| - 1]) + if groups[|groups| - 1].cedarPolicy != "" then [groups[|groups| - 1].cedarPolicy] else []
  }

  predicate SomeAllows(policies: seq<string>, q: Query) {
    exists i :: 0 <= i < |policies| && Allows(policies[i], q)
  }

  method LoadPoliciesPerGroup(groups: seq<Group>) returns (policies: seq<string>)
    ensures policies == Policies(groups)
  {
    policies := [];
    for i := 0 to |groups|
      invariant policies == Policies(groups[..i])
    {
      assert groups[..i + 1][..i] == groups[..i];
      if groups[i].cedarPolicy != "" {
        policies := policies + [groups[i].cedarPolicy];
      }
    }
    assert groups[..|groups|] == groups;
  }

  /** The loop both services run over the policies: the first one that allows decides. */
  method EvaluatePolicies(policies: seq<string>, q: Query) returns (allowed: bool)
    ensures allowed == SomeAllows(policies, q)
  {
    hide Allows;
    for i := 0 to |policies|
      invariant forall j :: 0 <= j < i ==> !Allows(policies[j], q)
    {
      var decision := Allows(policies[i], q);
      if decision {
        return true;
      }
    }
    allowed := false;
  }

  // ----- The guard service -----

  function Evaluated(dir: Directory, userId: string, connectionId: string, q: Query): Verdict {
    if userId in dir.suspended then AccountSuspended
    else Decided(SomeAllows(Policies(dir.GroupsOf(connectionId, userId)), q))
  }

  method Evaluate(dir: Directory, userId: string, connectionId: string, q: Query) returns (v: Verdict)
    ensures v == Evaluated(dir, userId, connectionId, q)
  {
    if userId in dir.suspended {
      return AccountSuspended;
    }
    var userGroups := dir.GroupsOf(connectionId, userId);
    if |userGroups| == 0 {
      return Decided(false);
    }
    var groupPolicies := LoadPoliciesPerGroup(userGroups);
    if |groupPolicies| == 0 {
      return Decided(false);
    }
    var allowed := EvaluatePolicies(groupPolicies, q);
    v := Decided(allowed);
  }

  /** The connection and the query a request is about; none for a group without a connection. */
  function Target(dir: Directory, r: Request): Option<(string, Query)> {
    var kind := Subject(r.action);
    match kind
    case ConnectionType => Some((r.connectionId, Query(r.action, kind, r.connectionId)))
    case GroupType =>
      if r.groupId in dir.connectionOf && dir.connectionOf[r.groupId] != ""
      then Some((dir.connectionOf[r.groupId], Query(r.action, kind, r.groupId))) else None
    case TableType => Some((r.connectionId, Query(r.action, kind, r.connectionId + "/" + r.tableName)))
    case DashboardType =>
      var name := if r.action == DashboardCreate || r.dashboardId == "" then NEW_DASHBOARD else r.dashboardId;
      Some((r.connectionId, Query(r.action, kind, r.connectionId + "/" + name)))
  }

  function Validated(dir: Directory, r: Request): Verdict {
    match Target(dir, r)
    case None => Decided(false)
    case Some((connectionId, q)) => Evaluated(dir, r.userId, connectionId, q)
  }

  method Validate(dir: Directory, r: Request) returns (v: Verdict)
    ensures v == Validated(dir, r)
  {
    var connectionId, resourceId := r.connectionId, "";
    var kind := Subject(r.action);
    match kind {
      case ConnectionType =>
        resourceId := connectionId;
      case GroupType =>
        connectionId := if r.groupId in dir.connectionOf then dir.connectionOf[r.groupId] else "";
        if connectionId == "" {
          return Decided(false);
        }
        resourceId := r.groupId;
      case TableType =>
        resourceId := connectionId + "/" + r.tableName;
      case DashboardType =>
        var needsSentinel := r.action == DashboardCreate || r.dashboardId == "";
        var effectiveDashboardId := if needsSentinel then NEW_DASHBOARD else r.dashboardId;
        resourceId := connectionId + "/" + effectiveDashboardId;
    }
    v := Evaluate(dir, r.userId, connectionId, Query(r.action, kind, resourceId));
  }

  // ----- Printed policies mean the classical permissions -----

  lemma QueryIsGranted(connectionId: string, p: Permissions, q: Query)
    requires AllQuotable(Grants(connectionId, false, p)) && q.kind == Subject(q.action)
    ensures Allows(PolicyText(Grants(connectionId, false, p)), q) <==> Granted(connectionId, p, q.action, q.id)
  {
    hide PolicyText, Grants, Granted, Allows, Quotable;
    AllowsPrinted(Grants(connectionId, false, p), q);
    GrantsMeanPermissions(connectionId, p, Permit(q.action, q.kind, q.id));
    GrantsMeanPermissions(connectionId, p, PermitAll);
  }

  lemma EmptyTextAllowsNothing(q: Query)
    ensures !Allows("", q)
  {
    assert ReadPolicy("") == Some([]);
  }

  lemma OnePolicy(g: Group, q: Query)
    ensures SomeAllows(Policies([g]), q) <==> Allows(g.cedarPolicy, q)
  {
    EmptyTextAllowsNothing(q);
    hide Allows;
    var groups := [g];
    assert Policies([]) == [] && groups[..|groups| - 1] == [];
    var policies := Policies(groups);
    if g.cedarPolicy != "" {
      assert policies == [g.cedarPolicy] && policies[0] == g.cedarPolicy;
    } else {
      assert policies == [];
    }
  }

  /** A user in one group, whose policy was printed from `p`, may do exactly what `p` grants. */
  lemma ValidateMeansGranted(dir: Directory, r: Request, p: Permissions, g: Group)
    requires Target(dir, r).Some? && r.userId !in dir.suspended
    requires var connectionId := Target(dir, r).value.0;
             && dir.GroupsOf(connectionId, r.userId) == [g]
             && AllQuotable(Grants(connectionId, false, p))
             && g.cedarPolicy == PolicyText(Grants(connectionId, false, p))
    ensures var (connectionId, q) := Target(dir, r).value;
            Validated(dir, r) == Decided(Granted(connectionId, p, q.action, q.id))
  {
    var (connectionId, q) := Target(dir, r).value;
    OnePolicy(g, q);
    QueryIsGranted(connectionId, p, q);
    hide Policies, SomeAllows, Allows, Granted, Grants, PolicyText;
  }

  lemma SamePath(connectionId: string, x: string, y: string)
    ensures connectionId + "/" + x == connectionId + "/" + y <==> x == y
  {
    var prefix := connectionId + "/";
    assert (prefix + x)[|prefix|..] == x && (prefix + y)[|prefix|..] == y;
  }

  /** What the permission set says about a request, in the request's own terms. */
  predicate Entitled(p: Permissions, r: Request) {
    var a, ds := r.action, DashboardList(p);
    match Subject(a)
    case ConnectionType => LevelAllows(p.connectionLevel, a)
    case GroupType => r.groupId == p.groupId && LevelAllows(p.groupLevel, a)
    case TableType => exists i :: 0 <= i < |p.tables| && p.tables[i].tableName == r.tableName && TableAllows(p.tables[i].access, a)
    case DashboardType =>
      var id := if r.dashboardId == "" then NEW_DASHBOARD else r.dashboardId;
      if a == DashboardCreate then AnyCreate(ds)
      else if a == DashboardRead && id == NEW_DASHBOARD then AnyRead(ds)
      else exists i :: 0 <= i < |ds| && ds[i].dashboardId == id && DashboardAllows(ds[i].access, a)
  }

  lemma TablesEntitled(connectionId: string, ts: seq<TablePermission>, a: Action, name: string)
    ensures TablesAllow(connectionId, ts, a, connectionId + "/" + name) <==>
            exists i :: 0 <= i < |ts| && ts[i].tableName == name && TableAllows(ts[i].access, a)
  {
    hide TableAllows;
    forall i | 0 <= i < |ts|
      ensures connectionId + "/" + name == connectionId + "/" + ts[i].tableName <==> name == ts[i].tableName
    {
      SamePath(connectionId, name, ts[i].tableName);
    }
  }

  lemma DashboardsEntitled(connectionId: string, ds: seq<DashboardPermission>, a: Action, id: string)
    ensures DashboardsAllow(connectionId, ds, a, connectionId + "/" + id) <==>
            exists i :: 0 <= i < |ds| && ds[i].dashboardId == id && DashboardAllows(ds[i].access, a)
  {
    hide DashboardAllows;
    forall i | 0 <= i < |ds|
      ensures connectionId + "/" + id == connectionId + "/" + ds[i].dashboardId <==> id == ds[i].dashboardId
    {
      SamePath(connectionId, id, ds[i].dashboardId);
    }
  }

  lemma GrantedIsEntitled(dir: Directory, r: Request, p: Permissions)
    requires Target(dir, r).Some?
    ensures var (connectionId, q) := Target(dir, r).value;
            Granted(connectionId, p, q.action, q.id) <==> Entitled(p, r)
  {
    var (connectionId, q) := Target(dir, r).value;
    var ds := DashboardList(p);
    var id := if r.action == DashboardCreate || r.dashboardId == "" then NEW_DASHBOARD else r.dashboardId;
    hide TableAllows, DashboardAllows, TablesAllow, DashboardsAllow, AnyRead, AnyCreate, LevelAllows, NEW_DASHBOARD;
    match Subject(r.action)
    case TableType => TablesEntitled(connectionId, p.tables, r.action, r.tableName);
    case DashboardType =>
      SamePath(connectionId, id, NEW_DASHBOARD);
      DashboardsEntitled(connectionId, ds, r.action, id);
      NoReadNoSentinel(connectionId, ds, connectionId + "/" + id);
      assert DashboardsAllow(connectionId, ds, DashboardRead, connectionId + "/" + id) ==> AnyRead(ds);
    case _ =>
  }

  /** The user `userId` is in the one group `g` of a connection, and its policy was printed from `p`. */
  predicate InOnePrintedGroup(dir: Directory, userId: string, connectionId: string, p: Permissions, g: Group) {
    && userId !in dir.suspended && dir.GroupsOf(connectionId, userId) == [g]
    && AllQuotable(Grants(connectionId, false, p)) && g.cedarPolicy == PolicyText(Grants(connectionId, false, p))
  }

  /** Such a user may do on the connection, its tables and its dashboards exactly what `p` says. */
  lemma GuardMeansEntitled(dir: Directory, r: Request, p: Permissions, g: Group)
    requires Subject(r.action) != GroupType && InOnePrintedGroup(dir, r.userId, r.connectionId, p, g)
    ensures Validated(dir, r) == Decided(Entitled(p, r))
  {
    assert Target(dir, r).Some? && Target(dir, r).value.0 == r.connectionId;
    hide *;
    assert InOnePrintedGroup(dir, r.userId, r.connectionId, p, g);
    TargetDecides(dir, r, r.connectionId, p, g);
    GrantedIsEntitled(dir, r, p);
  }

  lemma TargetDecides(dir: Directory, r: Request, connectionId: string, p: Permissions, g: Group)
    requires Target(dir, r).Some? && Target(dir, r).value.0 == connectionId && InOnePrintedGroup(dir, r.userId, connectionId, p, g)
    ensures var q := Target(dir, r).value.1; Validated(dir, r) == Decided(Granted(connectionId, p, q.action, q.id))
  {
    hide Validated, Target, Granted, Grants, PolicyText, AllQuotable;
    ValidateMeansGranted(dir, r, p, g);
  }

  /** Requests on a group are decided in the group's own connection, whatever connection the request names:
      a user in one group of that connection may do exactly what its level says, on the group it is about. */
  lemma GroupRequests(dir: Directory, r: Request, p: Permissions, g: Group)
    requires Subject(r.action) == GroupType && r.groupId in dir.connectionOf && dir.connectionOf[r.groupId] != ""
    requires InOnePrintedGroup(dir, r.userId, dir.connectionOf[r.groupId], p, g)
    ensures Validated(dir, r) == Decided(r.groupId == p.groupId && LevelAllows(p.groupLevel, r.action))
    ensures forall c :: Validated(dir, r.(connectionId := c)) == Validated(dir, r)
  {
    var connectionId := dir.connectionOf[r.groupId];
    forall c
      ensures Target(dir, r.(connectionId := c)) == Some((connectionId, Query(r.action, GroupType, r.groupId)))
      ensures Validated(dir, r.(connectionId := c)) == Evaluated(dir, r.userId, connectionId, Query(r.action, GroupType, r.groupId))
    {}
    assert r.(connectionId := r.connectionId) == r;
    assert Granted(connectionId, p, r.action, r.groupId) <==> r.groupId == p.groupId && LevelAllows(p.groupLevel, r.action);
    hide Target, Validated, Evaluated, Granted, InOnePrintedGroup, LevelAllows;
    TargetDecides(dir, r, connectionId, p, g);
  }

  /** A group without a connection is refused, for every user. */
  lemma UnknownGroupIsRefused(dir: Directory, r: Request)
    requires Subject(r.action) == GroupType
    ensures r.groupId !in dir.connectionOf || dir.connectionOf[r.groupId] == "" ==> Validated(dir, r) == Decided(false)
  {}

  lemma SentinelTarget(dir: Directory, r: Request)
    requires r.action == DashboardCreate || (r.action == DashboardRead && r.dashboardId == "")
    ensures Target(dir, r) == Some((r.connectionId, Query(r.action, DashboardType, r.connectionId + "/" + NEW_DASHBOARD)))
  {}

  lemma SentinelGranted(connectionId: string, p: Permissions)
    ensures var id, ds := connectionId + "/" + NEW_DASHBOARD, DashboardList(p);
            && (Granted(connectionId, p, DashboardCreate, id) <==> AnyCreate(ds))
            && (Granted(connectionId, p, DashboardRead, id) <==> AnyRead(ds))
  {
    hide NEW_DASHBOARD;
    NoReadNoSentinel(connectionId, DashboardList(p), connectionId + "/" + NEW_DASHBOARD);
    hide DashboardsAllow, AnyRead, AnyCreate;
  }

  /** Creating a dashboard needs `create` on any entry; reading without naming one needs `read` on any. */
  lemma SentinelRequests(dir: Directory, r: Request, p: Permissions, g: Group)
    requires r.action == DashboardCreate || (r.action == DashboardRead && r.dashboardId == "")
    requires r.userId !in dir.suspended && dir.GroupsOf(r.connectionId, r.userId) == [g]
    requires AllQuotable(Grants(r.connectionId, false, p)) && g.cedarPolicy == PolicyText(Grants(r.connectionId, false, p))
    ensures Validated(dir, r) ==
            Decided(if r.action == DashboardCreate then AnyCreate(DashboardList(p)) else AnyRead(DashboardList(p)))
  {
    hide *;
    SentinelTarget(dir, r);
    SentinelGranted(r.connectionId, p);
    ValidateMeansGranted(dir, r, p, g);
  }

  lemma NoReadNoSentinel(connectionId: string, ds: seq<DashboardPermission>, id: string)
    ensures DashboardsAllow(connectionId, ds, DashboardRead, id) ==> AnyRead(ds)
    ensures !DashboardsAllow(connectionId, ds, DashboardCreate, id)
  {}

  // ----- Several groups -----

  function AllStatements(parts: seq<seq<Statement>>): seq<Statement> {
    if |parts| == 0 then [] else parts[0] + AllStatements(parts[1..])
  }

  lemma {:induction false} AllStatementsIn(parts: seq<seq<Statement>>, s: Statement)
    ensures s in AllStatements(parts) <==> exists i :: 0 <= i < |parts| && s in parts[i]
  {
    if |parts| > 0 {
      AllStatementsIn(parts[1..], s);
      assert forall i :: 0 <= i < |parts[1..]| ==> parts[1..][i] == parts[i + 1];
    }
  }

  /** Asking the groups' printed policies one by one decides as one policy holding all their statements,
      so neither the order of the groups nor how statements are spread over them matters. */
  lemma GroupsCombine(parts: seq<seq<Statement>>, texts: seq<string>, q: Query)
    requires |texts| == |parts|
    requires forall i :: 0 <= i < |parts| ==> AllQuotable(parts[i]) && texts[i] == PolicyText(parts[i])
    ensures SomeAllows(texts, q) <==> Allows(PolicyText(AllStatements(parts)), q)
  {
    var all, s := AllStatements(parts), Permit(q.action, q.kind, q.id);
    hide PolicyText, Allows, Quotable;
    AllStatementsIn(parts, s);
    AllStatementsIn(parts, PermitAll);
    forall i | 0 <= i < |parts|
      ensures Allows(texts[i], q) <==> PermitAll in parts[i] || s in parts[i]
    {
      AllowsPrinted(parts[i], q);
    }
    forall j | 0 <= j < |all|
      ensures all[j].Permit? ==> Quotable(all[j].id)
    {
      AllStatementsIn(parts, all[j]);
      var i :| 0 <= i < |parts| && all[j] in parts[i];
    }
    AllowsPrinted(all, q);
  }

  // ----- The permissions service -----

  function ConnectionLevel(policies: seq<string>, connectionId: string): AccessLevel {
    if SomeAllows(policies, Query(ConnectionEdit, ConnectionType, connectionId)) then Edit
    else if SomeAllows(policies, Query(ConnectionRead, ConnectionType, connectionId)) then Readonly
    else NoAccess
  }

  /** The body shared by the single and the batch query. */
  method ConnectionLevelOf(userGroups: seq<Group>, connectionId: string) returns (level: AccessLevel)
    ensures level == ConnectionLevel(Policies(userGroups), connectionId)
  {
    hide SomeAllows;
    var policies := LoadPoliciesPerGroup(userGroups);
    var canEdit := EvaluatePolicies(policies, Query(ConnectionEdit, ConnectionType, connectionId));
    if canEdit {
      return Edit;
    }
    var canRead := EvaluatePolicies(policies, Query(ConnectionRead, ConnectionType, connectionId));
    level := if canRead then Readonly else NoAccess;
  }

  method GetUserConnectionAccessLevel(dir: Directory, userId: string, connectionId: string) returns (level: AccessLevel)
    ensures level == ConnectionLevel(Policies(dir.GroupsOf(connectionId, userId)), connectionId)
  {
    level := ConnectionLevelOf(dir.GroupsOf(connectionId, userId), connectionId);
  }

  function TableFlags(policies: seq<string>, connectionId: string, tableName: string): TablePermission {
    var id := connectionId + "/" + tableName;
    var canRead, canAdd := SomeAllows(policies, Query(TableRead, TableType, id)), SomeAllows(policies, Query(TableAdd, TableType, id));
    var canEdit, canDelete := SomeAllows(policies, Query(TableEdit, TableType, id)), SomeAllows(policies, Query(TableDelete, TableType, id));
    TablePermission(tableName, TableAccess(canRead || canAdd || canEdit || canDelete,
                                           canRead && !canAdd && !canEdit && !canDelete, canAdd, canDelete, canEdit))
  }

  method EvaluateTablePermissions(policies: seq<string>, connectionId: string, tableName: string) returns (t: TablePermission)
    ensures t == TableFlags(policies, connectionId, tableName)
  {
    var resourceId := connectionId + "/" + tableName;
    var canRead := EvaluatePolicies(policies, Query(TableRead, TableType, resourceId));
    var canAdd := EvaluatePolicies(policies, Query(TableAdd, TableType, resourceId));
    var canEdit := EvaluatePolicies(policies, Query(TableEdit, TableType, resourceId));
    var canDelete := EvaluatePolicies(policies, Query(TableDelete, TableType, resourceId));
    t := TablePermission(tableName, TableAccess(canRead || canAdd || canEdit || canDelete,
                                                canRead && !canAdd && !canEdit && !canDelete, canAdd, canDelete, canEdit));
  }

  predicate Guarded(dir: Directory, r: Request, a: Action) {
    Validated(dir, r.(action := a)) == Decided(true)
  }

  /** What the permissions service shows for a table and its connection is what the guard allows there. */
  predicate Agree(dir: Directory, r: Request) {
    var policies := Policies(dir.GroupsOf(r.connectionId, r.userId));
    var flags, level := TableFlags(policies, r.connectionId, r.tableName).access, ConnectionLevel(policies, r.connectionId);
    && (flags.add <==> Guarded(dir, r, TableAdd)) && (flags.edit <==> Guarded(dir, r, TableEdit))
    && (flags.delete <==> Guarded(dir, r, TableDelete))
    && (flags.visibility <==> Guarded(dir, r, TableRead) || flags.add || flags.edit || flags.delete)
    && (flags.readonly <==> Guarded(dir, r, TableRead) && !flags.add && !flags.edit && !flags.delete)
    && (level == Edit <==> Guarded(dir, r, ConnectionEdit))
    && (level == Readonly <==> Guarded(dir, r, ConnectionRead) && !Guarded(dir, r, ConnectionEdit))
    && (level == NoAccess <==> !Guarded(dir, r, ConnectionRead) && !Guarded(dir, r, ConnectionEdit))
  }

  /** The two services agree exactly on users who are not suspended, and on those to whom the
      permissions service shows nothing anyway. */
  lemma ServicesAgree(dir: Directory, r: Request)
    ensures var policies := Policies(dir.GroupsOf(r.connectionId, r.userId));
            Agree(dir, r) <==>
            || r.userId !in dir.suspended
            || (!TableFlags(policies, r.connectionId, r.tableName).access.visibility && ConnectionLevel(policies, r.connectionId) == NoAccess)
  {
    hide Policies, SomeAllows;
    if r.userId in dir.suspended {
      forall a
        ensures !Guarded(dir, r, a)
      {
        SuspendedIsRefused(dir, r.(action := a));
      }
      hide Guarded;
    }
  }

  lemma SuspendedIsRefused(dir: Directory, r: Request)
    requires r.userId in dir.suspended
    ensures Validated(dir, r) ==
            if Subject(r.action) == GroupType && (r.groupId !in dir.connectionOf || dir.connectionOf[r.groupId] == "")
            then Decided(false) else AccountSuspended
  {}

  /** The permission set of the example below: editing the connection, and reading one table. */
  const EXAMPLE := Permissions("c", Edit, "g", NoAccess, [TablePermission("t", TableAccess(true, true, false, false, false))], None)

  const EXAMPLE_POLICY := PolicyText(Grants("c", false, EXAMPLE))

  const EXAMPLE_DIRECTORY := Directory({"u"}, map[("c", "u") := [Group("g", Some("c"), EXAMPLE_POLICY)]], map["g" := "c"])

  lemma ExampleGrants()
    ensures Granted("c", EXAMPLE, ConnectionEdit, "c") && Granted("c", EXAMPLE, TableRead, "c" + "/" + "t")
    ensures AllQuotable(Grants("c", false, EXAMPLE))
  {
    var ss := Grants("c", false, EXAMPLE);
    assert EXAMPLE.tables[0].tableName == "t";
    assert Quotable("c") && Quotable("c" + "/" + "t");
    hide Grants, Quotable;
    forall i | 0 <= i < |ss|
      ensures ss[i].Permit? && Quotable(ss[i].id)
    {
      GrantsMeanPermissions("c", EXAMPLE, ss[i]);
      assert Subject(ss[i].action) == DashboardType ==> DashboardList(EXAMPLE) == [];
    }
  }

  /** A suspended user is still shown the connection as editable and the table as visible, although the
      guard refuses every request. */
  lemma SuspendedUserStillShown()
    ensures var r, policies := Request("u", TableRead, "c", "g", "t", ""), Policies(EXAMPLE_DIRECTORY.GroupsOf("c", "u"));
            && TableFlags(policies, "c", "t").access.visibility
            && ConnectionLevel(policies, "c") == Edit
            && Validated(EXAMPLE_DIRECTORY, r) == AccountSuspended
            && Validated(EXAMPLE_DIRECTORY, r.(action := ConnectionEdit)) == AccountSuspended
            && !Agree(EXAMPLE_DIRECTORY, r)
  {
    var r, g := Request("u", TableRead, "c", "g", "t", ""), Group("g", Some("c"), EXAMPLE_POLICY);
    assert EXAMPLE_DIRECTORY.GroupsOf("c", "u") == [g];
    ExampleGrants();
    SuspendedIsRefused(EXAMPLE_DIRECTORY, r);
    SuspendedIsRefused(EXAMPLE_DIRECTORY, r.(action := ConnectionEdit));
    assert "u" in EXAMPLE_DIRECTORY.suspended;
    ServicesAgree(EXAMPLE_DIRECTORY, r);
    hide Granted, Grants, Allows, PolicyText, EXAMPLE, Policies, SomeAllows, Validated, Agree, AllQuotable;
    QueryIsGranted("c", EXAMPLE, Query(ConnectionEdit, ConnectionType, "c"));
    QueryIsGranted("c", EXAMPLE, Query(TableRead, TableType, "c" + "/" + "t"));
    OnePolicy(g, Query(ConnectionEdit, ConnectionType, "c"));
    OnePolicy(g, Query(TableRead, TableType, "c" + "/" + "t"));
  }

  method GetUserPermissionsForAvailableTables(policies: seq<string>, connectionId: string, tableNames: seq<string>)
    returns (result: seq<TablePermission>)
    ensures result == VisibleOf(policies, connectionId, tableNames)
  {
    result := [];
    for i := 0 to |tableNames|
      invariant result == VisibleOf(policies, connectionId, tableNames[..i])
    {
      assert tableNames[..i + 1][..i] == tableNames[..i];
      var perm := EvaluateTablePermissions(policies, connectionId, tableNames[i]);
      if perm.access.visibility {
        result := result + [perm];
      }
    }
    assert tableNames[..|tableNames|] == tableNames;
  }

  function VisibleOf(policies: seq<string>, connectionId: string, names: seq<string>): seq<TablePermission> {
    if |names| == 0 then []
    else
      var t := TableFlags(policies, connectionId, names[|names| - 1]);
      VisibleOf(policies, connectionId, names[..|names| - 1]) + if t.access.visibility then [t] else []
  }

  lemma VisibleStep(policies: seq<string>, connectionId: string, names: seq<string>, name: string)
    ensures VisibleOf(policies, connectionId, names + [name]) ==
            VisibleOf(policies, connectionId, names) +
            if TableFlags(policies, connectionId, name).access.visibility then [TableFlags(policies, connectionId, name)] else []
  {
    hide TableFlags;
    assert (names + [name])[..|names|] == names;
  }

  /** The available tables are those of the names, in their order. */
  lemma {:induction false} VisibleConcat(policies: seq<string>, connectionId: string, a: seq<string>, b: seq<string>)
    ensures VisibleOf(policies, connectionId, a + b) == VisibleOf(policies, connectionId, a) + VisibleOf(policies, connectionId, b)
  {
    if |b| == 0 {
      assert a + b == a && b == [];
    } else {
      var init, last := b[..|b| - 1], b[|b| - 1];
      VisibleConcat(policies, connectionId, a, init);
      VisibleStep(policies, connectionId, a + init, last);
      VisibleStep(policies, connectionId, init, last);
      hide VisibleOf, TableFlags;
      assert b == init + [last];
      Assoc(a, init, [last]);
    }
  }

  /** A table is available, with its flags, exactly when it is named and its policies make it visible. */
  lemma {:induction false} VisibleExact(policies: seq<string>, connectionId: string, names: seq<string>, t: TablePermission)
    ensures t in VisibleOf(policies, connectionId, names) <==>
            t.tableName in names && t == TableFlags(policies, connectionId, t.tableName) && t.access.visibility
  {
    if |names| > 0 {
      var init, last := names[..|names| - 1], names[|names| - 1];
      VisibleExact(policies, connectionId, init, t);
      assert names == init + [last];
      assert TableFlags(policies, connectionId, last).tableName == last;
      hide TableFlags;
    }
  }

  // ----- Many connections at once -----

  function InConnection(groups: seq<Group>, connectionId: string): seq<Group> {
    if |groups| == 0 then []
    else
      var g := groups[|groups| - 1];
      InConnection(groups[..|groups| - 1], connectionId) +
      if connectionId != "" && g.connectionId == Some(connectionId) then [g] else []
  }

  ghost predicate GroupedBy(groups: seq<Group>, m: map<string, seq<Group>>) {
    forall c :: InConnection(groups, c) == if c in m then m[c] else []
  }

  /** Adding a group to its connection's list, created when there is none yet. */
  lemma GroupedBySnoc(groups: seq<Group>, m: map<string, seq<Group>>, group: Group, connId: string)
    requires GroupedBy(groups, m) && connId != "" && group.connectionId == Some(connId)
    ensures GroupedBy(groups + [group], m[connId := (if connId in m then m[connId] else []) + [group]])
  {
    assert (groups + [group])[..|groups|] == groups;
    forall c
      ensures InConnection(groups + [group], c) == InConnection(groups, c) + if c == connId then [group] else []
    {}
  }

  lemma GroupedBySkip(groups: seq<Group>, m: map<string, seq<Group>>, group: Group)
    requires GroupedBy(groups, m) && (group.connectionId.None? || group.connectionId.value == "")
    ensures GroupedBy(groups + [group], m)
  {
    assert (groups + [group])[..|groups|] == groups;
    forall c
      ensures InConnection(groups + [group], c) == InConnection(groups, c)
    {}
  }

  method GroupByConnection(allGroups: seq<Group>) returns (groupsByConnection: map<string, seq<Group>>)
    ensures GroupedBy(allGroups, groupsByConnection)
  {
    groupsByConnection := map[];
    assert GroupedBy([], map[]);
    hide GroupedBy;
    assert allGroups[..0] == [];
    for i := 0 to |allGroups|
      invariant GroupedBy(allGroups[..i], groupsByConnection)
    {
      var group := allGroups[i];
      assert allGroups[..i + 1] == allGroups[..i] + [group];
      if group.connectionId.None? || group.connectionId.value == "" {
        GroupedBySkip(allGroups[..i], groupsByConnection, group);
        continue;
      }
      var connId := group.connectionId.value;
      GroupedBySnoc(allGroups[..i], groupsByConnection, group, connId);
      if connId !in groupsByConnection {
        groupsByConnection := groupsByConnection[connId := []];
      }
      groupsByConnection := groupsByConnection[connId := groupsByConnection[connId] + [group]];
    }
    assert allGroups[..|allGroups|] == allGroups;
  }

  method GetUserConnectionAccessLevelsForMultipleConnections(allGroups: seq<Group>, connectionIds: seq<string>)
    returns (result: map<string, AccessLevel>)
    ensures forall c :: c in result <==> c in connectionIds
    ensures forall c :: c in result ==> result[c] == ConnectionLevel(Policies(InConnection(allGroups, c)), c)
  {
    hide Allows, Policies, ConnectionLevel, InConnection;
    var groupsByConnection := GroupByConnection(allGroups);
    result := map[];
    for i := 0 to |connectionIds|
      invariant forall c :: c in result <==> c in connectionIds[..i]
      invariant forall c :: c in result ==> result[c] == ConnectionLevel(Policies(InConnection(allGroups, c)), c)
    {
      var connectionId := connectionIds[i];
      var userGroups := if connectionId in groupsByConnection then groupsByConnection[connectionId] else [];
      var level := ConnectionLevelOf(userGroups, connectionId);
      result := result[connectionId := level];
    }
  }

  lemma {:induction false} PoliciesIn(groups: seq<Group>, policy: string)
    ensures policy in Policies(groups) <==> policy != "" && exists g :: g in groups && g.cedarPolicy == policy
  {
    if |groups| > 0 {
      var init, last := groups[..|groups| - 1], groups[|groups| - 1];
      assert groups == init + [last];
      PoliciesIn(init, policy);
    }
  }

  /** What some of a user's groups allow, all of them allow: more groups never allow less, and the order
      in which groups are asked, or asking one twice, does not matter. */
  lemma MoreGroupsAllowMore(groups: seq<Group>, more: seq<Group>, q: Query)
    requires forall g :: g in groups ==> g in more
    ensures SomeAllows(Policies(groups), q) ==> SomeAllows(Policies(more), q)
  {
    hide Policies, Allows;
    var fewer, all := Policies(groups), Policies(more);
    if SomeAllows(fewer, q) {
      var i :| 0 <= i < |fewer| && Allows(fewer[i], q);
      PoliciesIn(groups, fewer[i]);
      PoliciesIn(more, fewer[i]);
      var j :| 0 <= j < |all| && all[j] == fewer[i];
    }
  }

  lemma {:induction false} InConnectionIn(groups: seq<Group>, connectionId: string, g: Group)
    ensures g in InConnection(groups, connectionId) <==> g in groups && connectionId != "" && g.connectionId == Some(connectionId)
  {
    if |groups| > 0 {
      var init, last := groups[..|groups| - 1], groups[|groups| - 1];
      assert groups == init + [last];
      InConnectionIn(init, connectionId, g);
    }
  }

  /** Whatever the order, grouping and repetitions in the batch query's answer, its level for a connection
      is the single query's, as long as it holds that connection's groups. */
  lemma BatchRefinesSingle(dir: Directory, userId: string, allGroups: seq<Group>, connectionId: string)
    requires forall g :: g in allGroups && g.connectionId == Some(connectionId) && connectionId != ""
                         <==> g in dir.GroupsOf(connectionId, userId)
    ensures ConnectionLevel(Policies(InConnection(allGroups, connectionId)), connectionId) ==
            ConnectionLevel(Policies(dir.GroupsOf(connectionId, userId)), connectionId)
  {
    var batch, single := Policies(InConnection(allGroups, connectionId)), Policies(dir.GroupsOf(connectionId, userId));
    hide Policies, InConnection, Allows;
    forall g
      ensures g in InConnection(allGroups, connectionId) <==> g in dir.GroupsOf(connectionId, userId)
    {
      InConnectionIn(allGroups, connectionId, g);
    }
    forall policy
      ensures policy in batch <==> policy in single
    {
      PoliciesIn(InConnection(allGroups, connectionId), policy);
      PoliciesIn(dir.GroupsOf(connectionId, userId), policy);
    }
    SameDecisions(batch, single, Query(ConnectionEdit, ConnectionType, connectionId));
    SameDecisions(batch, single, Query(ConnectionRead, ConnectionType, connectionId));
  }

  lemma SameDecisions(a: seq<string>, b: seq<string>, q: Query)
    requires forall policy :: policy in a <==> policy in b
    ensures SomeAllows(a, q) <==> SomeAllows(b, q)
  {
    hide Allows;
    if SomeAllows(a, q) {
      var i :| 0 <= i < |a| && Allows(a[i], q);
      assert a[i] in b;
    }
    if SomeAllows(b, q) {
      var i :| 0 <= i < |b| && Allows(b[i], q);
      assert b[i] in a;
    }
  }
}
