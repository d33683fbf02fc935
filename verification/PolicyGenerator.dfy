/** The printer: classical permissions to Cedar text. */
module PolicyGenerator {
  import opened Text
  import opened CedarPolicy

  // ----- Which statements are printed, in order -----

  function When(granted: bool, s: Statement): seq<Statement> {
    if granted then [s] else []
  }

  function LevelGrants(level: AccessLevel, read: Action, edit: Action, kind: ResourceType, id: string): seq<Statement> {
    match level
    case Edit => [Permit(read, kind, id), Permit(edit, kind, id)]
    case Readonly => [Permit(read, kind, id)]
    case _ => []
  }

  function DashboardGrants(connectionId: string, d: DashboardPermission): seq<Statement> {
    var id := connectionId + "/" + d.dashboardId;
    When(d.access.read, Permit(DashboardRead, DashboardType, id)) +
    When(d.access.edit, Permit(DashboardEdit, DashboardType, id)) +
    When(d.access.delete, Permit(DashboardDelete, DashboardType, id))
  }

  function DashboardsGrants(connectionId: string, ds: seq<DashboardPermission>): seq<Statement> {
    if |ds| == 0 then []
    else DashboardsGrants(connectionId, ds[..|ds| - 1]) + DashboardGrants(connectionId, ds[|ds| - 1])
  }

  predicate AnyRead(ds: seq<DashboardPermission>) {
    exists i :: 0 <= i < |ds| && ds[i].access.read
  }

  predicate AnyCreate(ds: seq<DashboardPermission>) {
    exists i :: 0 <= i < |ds| && ds[i].access.create
  }

  /** Creating a dashboard, and reading without naming one, are granted on a sentinel. */
  function SentinelGrants(connectionId: string, ds: seq<DashboardPermission>): seq<Statement> {
    var id := connectionId + "/" + NEW_DASHBOARD;
    When(AnyRead(ds), Permit(DashboardRead, DashboardType, id)) +
    When(AnyCreate(ds), Permit(DashboardCreate, DashboardType, id))
  }

  function AllDashboardGrants(connectionId: string, ds: seq<DashboardPermission>): seq<Statement> {
    DashboardsGrants(connectionId, ds) + SentinelGrants(connectionId, ds)
  }

  predicate HasAnyAccess(a: TableAccess) {
    a.visibility || a.add || a.delete || a.edit
  }

  function TableGrants(connectionId: string, t: TablePermission): seq<Statement> {
    var id := connectionId + "/" + t.tableName;
    When(HasAnyAccess(t.access), Permit(TableRead, TableType, id)) +
    When(t.access.add, Permit(TableAdd, TableType, id)) +
    When(t.access.edit, Permit(TableEdit, TableType, id)) +
    When(t.access.delete, Permit(TableDelete, TableType, id))
  }

  function TablesGrants(connectionId: string, ts: seq<TablePermission>): seq<Statement> {
    if |ts| == 0 then []
    else TablesGrants(connectionId, ts[..|ts| - 1]) + TableGrants(connectionId, ts[|ts| - 1])
  }

  function DashboardList(p: Permissions): seq<DashboardPermission> {
    match p.dashboards
    case None => []
    case Some(ds) => ds
  }

  function ConnectionGrants(connectionId: string, p: Permissions): seq<Statement> {
    LevelGrants(p.connectionLevel, ConnectionRead, ConnectionEdit, ConnectionType, connectionId)
  }

  function GroupGrants(p: Permissions): seq<Statement> {
    LevelGrants(p.groupLevel, GroupRead, GroupEdit, GroupType, p.groupId)
  }

  function Grants(connectionId: string, isMain: bool, p: Permissions): seq<Statement> {
    if isMain then [PermitAll]
    else
      ConnectionGrants(connectionId, p) + GroupGrants(p) +
      AllDashboardGrants(connectionId, DashboardList(p)) + TablesGrants(connectionId, p.tables)
  }

  // ----- The printer -----

  lemma TextsConcat(a: seq<Statement>, b: seq<Statement>)
    ensures Texts(a + b) == Texts(a) + Texts(b)
  {}

  lemma TextsOne(s: Statement)
    ensures Texts([s]) == [StatementText(s)]
  {}

  method PushLevel(level: AccessLevel, read: Action, edit: Action, kind: ResourceType, id: string)
    returns (policies: seq<string>)
    ensures policies == Texts(LevelGrants(level, read, edit, kind, id))
  {
    policies := [];
    if level == Edit {
      policies := policies + [StatementText(Permit(read, kind, id))];
      policies := policies + [StatementText(Permit(edit, kind, id))];
    } else if level == Readonly {
      policies := policies + [StatementText(Permit(read, kind, id))];
    }
  }

  method PushDashboard(connectionId: string, dashboard: DashboardPermission) returns (policies: seq<string>)
    ensures policies == Texts(DashboardGrants(connectionId, dashboard))
  {
    hide StatementText;
    var dashboardRef := connectionId + "/" + dashboard.dashboardId;
    var access := dashboard.access;
    policies := [];
    if access.read {
      policies := policies + [StatementText(Permit(DashboardRead, DashboardType, dashboardRef))];
    }
    if access.edit {
      policies := policies + [StatementText(Permit(DashboardEdit, DashboardType, dashboardRef))];
    }
    if access.delete {
      policies := policies + [StatementText(Permit(DashboardDelete, DashboardType, dashboardRef))];
    }
  }

  method PushDashboards(connectionId: string, dashboards: seq<DashboardPermission>) returns (policies: seq<string>)
    ensures policies == Texts(AllDashboardGrants(connectionId, dashboards))
  {
    hide StatementText, DashboardGrants, AnyRead, AnyCreate;
    AnyNone();
    policies := [];
    var hasCreatePermission, hasReadPermission := false, false;
    for i := 0 to |dashboards|
      invariant hasReadPermission == AnyRead(dashboards[..i])
      invariant hasCreatePermission == AnyCreate(dashboards[..i])
      invariant policies == Texts(DashboardsGrants(connectionId, dashboards[..i]))
    {
      var dashboard := dashboards[i];
      if dashboard.access.read {
        hasReadPermission := true;
      }
      if dashboard.access.create {
        hasCreatePermission := true;
      }
      var pushed := PushDashboard(connectionId, dashboard);
      policies := policies + pushed;
      assert dashboards[..i + 1][..i] == dashboards[..i];
      AnySnoc(dashboards[..i], dashboard, dashboards[..i + 1]);
      TextsConcat(DashboardsGrants(connectionId, dashboards[..i]), DashboardGrants(connectionId, dashboard));
    }
    assert dashboards[..|dashboards|] == dashboards;
    TextsConcat(DashboardsGrants(connectionId, dashboards), SentinelGrants(connectionId, dashboards));
    var pushed := PushSentinel(connectionId, hasReadPermission, hasCreatePermission);
    policies := policies + pushed;
  }

  method PushSentinel(connectionId: string, hasReadPermission: bool, hasCreatePermission: bool) returns (policies: seq<string>)
    ensures var id := connectionId + "/" + NEW_DASHBOARD;
            policies == Texts(When(hasReadPermission, Permit(DashboardRead, DashboardType, id)) +
                              When(hasCreatePermission, Permit(DashboardCreate, DashboardType, id)))
  {
    hide StatementText;
    var newDashboardRef := connectionId + "/" + NEW_DASHBOARD;
    policies := [];
    if hasReadPermission {
      policies := policies + [StatementText(Permit(DashboardRead, DashboardType, newDashboardRef))];
    }
    if hasCreatePermission {
      policies := policies + [StatementText(Permit(DashboardCreate, DashboardType, newDashboardRef))];
    }
  }

  method PushTable(connectionId: string, table: TablePermission) returns (policies: seq<string>)
    ensures policies == Texts(TableGrants(connectionId, table))
  {
    hide StatementText;
    var tableRef := connectionId + "/" + table.tableName;
    var access := table.access;
    policies := [];
    var hasAnyAccess := access.visibility || access.add || access.delete || access.edit;
    if hasAnyAccess {
      policies := policies + [StatementText(Permit(TableRead, TableType, tableRef))];
    }
    if access.add {
      policies := policies + [StatementText(Permit(TableAdd, TableType, tableRef))];
    }
    if access.edit {
      policies := policies + [StatementText(Permit(TableEdit, TableType, tableRef))];
    }
    if access.delete {
      policies := policies + [StatementText(Permit(TableDelete, TableType, tableRef))];
    }
  }

  method PushTables(connectionId: string, tables: seq<TablePermission>) returns (policies: seq<string>)
    ensures policies == Texts(TablesGrants(connectionId, tables))
  {
    policies := [];
    for i := 0 to |tables|
      invariant policies == Texts(TablesGrants(connectionId, tables[..i]))
    {
      var pushed := PushTable(connectionId, tables[i]);
      policies := policies + pushed;
      assert tables[..i + 1][..i] == tables[..i];
      TextsConcat(TablesGrants(connectionId, tables[..i]), TableGrants(connectionId, tables[i]));
    }
    assert tables[..|tables|] == tables;
  }

  method GenerateCedarPolicyForGroup(connectionId: string, isMain: bool, p: Permissions) returns (text: string)
    ensures text == PolicyText(Grants(connectionId, isMain, p))
  {
    if isMain {
      text := Join([StatementText(PermitAll)], SEPARATOR);
      TextsOne(PermitAll);
      return;
    }
    var policies := PushLevel(p.connectionLevel, ConnectionRead, ConnectionEdit, ConnectionType, connectionId);
    ghost var done := ConnectionGrants(connectionId, p);

    var pushed := PushLevel(p.groupLevel, GroupRead, GroupEdit, GroupType, p.groupId);
    TextsConcat(done, GroupGrants(p));
    policies, done := policies + pushed, done + GroupGrants(p);

    pushed := [];
    if p.dashboards.Some? {
      pushed := PushDashboards(connectionId, p.dashboards.value);
    }
    TextsConcat(done, AllDashboardGrants(connectionId, DashboardList(p)));
    policies, done := policies + pushed, done + AllDashboardGrants(connectionId, DashboardList(p));

    pushed := PushTables(connectionId, p.tables);
    TextsConcat(done, TablesGrants(connectionId, p.tables));
    text := Join(policies + pushed, SEPARATOR);
  }

  lemma AnyNone()
    ensures !AnyRead([]) && !AnyCreate([])
  {}

  lemma AnySnoc(ds: seq<DashboardPermission>, d: DashboardPermission, more: seq<DashboardPermission>)
    requires more == ds + [d]
    ensures AnyRead(more) <==> AnyRead(ds) || d.access.read
    ensures AnyCreate(more) <==> AnyCreate(ds) || d.access.create
  {
    assert more[|ds|] == d;
    forall i | 0 <= i < |ds|
      ensures more[i] == ds[i]
    {}
  }

  // ----- What the printed statements grant -----

  predicate TableAllows(a: TableAccess, action: Action) {
    match action
    case TableRead => HasAnyAccess(a)
    case TableAdd => a.add
    case TableEdit => a.edit
    case TableDelete => a.delete
    case _ => false
  }

  /** Reading and creating go through `AnyRead` and `AnyCreate`; see Granted. */
  predicate DashboardAllows(a: DashboardAccess, action: Action) {
    match action
    case DashboardRead => a.read
    case DashboardEdit => a.edit
    case DashboardDelete => a.delete
    case _ => false
  }

  predicate LevelAllows(level: AccessLevel, action: Action) {
    level == Edit || (level == Readonly && action in {ConnectionRead, GroupRead})
  }

  predicate TablesAllow(connectionId: string, ts: seq<TablePermission>, a: Action, id: string) {
    exists i :: 0 <= i < |ts| && id == connectionId + "/" + ts[i].tableName && TableAllows(ts[i].access, a)
  }

  predicate DashboardsAllow(connectionId: string, ds: seq<DashboardPermission>, a: Action, id: string) {
    exists i :: 0 <= i < |ds| && id == connectionId + "/" + ds[i].dashboardId && DashboardAllows(ds[i].access, a)
  }

  /** The permission set `p` grants action `a` on the resource `id` of `a`'s type, in `connectionId`. */
  predicate Granted(connectionId: string, p: Permissions, a: Action, id: string) {
    match Subject(a)
    case ConnectionType => id == connectionId && LevelAllows(p.connectionLevel, a)
    case GroupType => id == p.groupId && LevelAllows(p.groupLevel, a)
    case TableType => TablesAllow(connectionId, p.tables, a, id)
    case DashboardType =>
      || (id == connectionId + "/" + NEW_DASHBOARD && a == DashboardRead && AnyRead(DashboardList(p)))
      || (id == connectionId + "/" + NEW_DASHBOARD && a == DashboardCreate && AnyCreate(DashboardList(p)))
      || DashboardsAllow(connectionId, DashboardList(p), a, id)
  }

  lemma TableGrantsIn(connectionId: string, t: TablePermission, s: Statement)
    ensures s in TableGrants(connectionId, t) <==>
            s.Permit? && s.kind == TableType && s.id == connectionId + "/" + t.tableName && TableAllows(t.access, s.action)
  {}

  lemma {:induction false} TablesGrantsIn(connectionId: string, ts: seq<TablePermission>, s: Statement)
    ensures s in TablesGrants(connectionId, ts) <==>
            s.Permit? && s.kind == TableType && TablesAllow(connectionId, ts, s.action, s.id)
  {
    hide TableGrants, TableAllows;
    if |ts| > 0 {
      var init, last := ts[..|ts| - 1], ts[|ts| - 1];
      TablesGrantsIn(connectionId, init, s);
      TableGrantsIn(connectionId, last, s);
      assert forall i :: 0 <= i < |init| ==> init[i] == ts[i];
    }
  }

  lemma DashboardGrantsIn(connectionId: string, d: DashboardPermission, s: Statement)
    ensures s in DashboardGrants(connectionId, d) <==>
            s.Permit? && s.kind == DashboardType && s.id == connectionId + "/" + d.dashboardId && DashboardAllows(d.access, s.action)
  {}

  lemma {:induction false} DashboardsGrantsIn(connectionId: string, ds: seq<DashboardPermission>, s: Statement)
    ensures s in DashboardsGrants(connectionId, ds) <==>
            s.Permit? && s.kind == DashboardType && DashboardsAllow(connectionId, ds, s.action, s.id)
  {
    hide DashboardGrants, DashboardAllows;
    if |ds| > 0 {
      var init, last := ds[..|ds| - 1], ds[|ds| - 1];
      DashboardsGrantsIn(connectionId, init, s);
      DashboardGrantsIn(connectionId, last, s);
      assert forall i :: 0 <= i < |init| ==> init[i] == ds[i];
    }
  }

  lemma SentinelGrantsIn(connectionId: string, ds: seq<DashboardPermission>, s: Statement)
    ensures s in SentinelGrants(connectionId, ds) <==>
            && s.Permit? && s.kind == DashboardType && s.id == connectionId + "/" + NEW_DASHBOARD
            && ((s.action == DashboardRead && AnyRead(ds)) || (s.action == DashboardCreate && AnyCreate(ds)))
  {}

  /** A statement is printed exactly when the permission set grants what it permits. */
  lemma GrantsMeanPermissions(connectionId: string, p: Permissions, s: Statement)
    ensures s in Grants(connectionId, false, p) <==>
            s.Permit? && s.kind == Subject(s.action) && Granted(connectionId, p, s.action, s.id)
  {
    hide TablesGrants, DashboardsGrants, AnyRead, AnyCreate, SentinelGrants;
    TablesGrantsIn(connectionId, p.tables, s);
    DashboardsGrantsIn(connectionId, DashboardList(p), s);
    SentinelGrantsIn(connectionId, DashboardList(p), s);
  }
}
