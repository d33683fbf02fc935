/** Parsing a printed policy gives back the permissions, up to a normal form. */
module PolicyRoundTrip {
  import opened Text
  import opened CedarPolicy
  import opened PolicyGenerator
  import opened PolicyScanner
  import opened PolicyParser
  import opened PrintedPolicies

  // ----- The normal form, defined on the permissions alone -----

  predicate SomeTable(ts: seq<TablePermission>, name: string, a: Action) {
    exists i :: 0 <= i < |ts| && ts[i].tableName == name && TableAllows(ts[i].access, a)
  }

  predicate SomeDashboard(ds: seq<DashboardPermission>, id: string, a: Action) {
    exists i :: 0 <= i < |ds| && ds[i].dashboardId == id && DashboardAllows(ds[i].access, a)
  }

  /** All entries for `name` merged: each flag is granted by some entry, and any access makes it visible. */
  function MergedTable(ts: seq<TablePermission>, name: string): TablePermission {
    var visibility, add := SomeTable(ts, name, TableRead), SomeTable(ts, name, TableAdd);
    var edit, delete := SomeTable(ts, name, TableEdit), SomeTable(ts, name, TableDelete);
    TablePermission(name, TableAccess(visibility, visibility && !add && !edit && !delete, add, delete, edit))
  }

  /** Names of the entries that give some access; the parser drops an empty name. */
  function VisibleTables(ts: seq<TablePermission>): seq<string> {
    if |ts| == 0 then []
    else
      var t := ts[|ts| - 1];
      VisibleTables(ts[..|ts| - 1]) + if HasAnyAccess(t.access) && t.tableName != "" then [t.tableName] else []
  }

  function MergedTables(ts: seq<TablePermission>, names: seq<string>): (r: seq<TablePermission>)
    ensures |r| == |names| && forall i :: 0 <= i < |r| ==> r[i] == MergedTable(ts, names[i])
  {
    seq(|names|, i requires 0 <= i < |names| => MergedTable(ts, names[i]))
  }

  function NormalTables(ts: seq<TablePermission>): seq<TablePermission> {
    MergedTables(ts, Distinct(VisibleTables(ts)))
  }

  /** Creating moves to the sentinel, which is also readable as soon as any dashboard is. */
  function MergedDashboard(ds: seq<DashboardPermission>, id: string): DashboardPermission {
    DashboardPermission(id, DashboardAccess(
      SomeDashboard(ds, id, DashboardRead) || (id == NEW_DASHBOARD && AnyRead(ds)),
      id == NEW_DASHBOARD && AnyCreate(ds),
      SomeDashboard(ds, id, DashboardEdit),
      SomeDashboard(ds, id, DashboardDelete)))
  }

  function VisibleDashboards(ds: seq<DashboardPermission>): seq<string> {
    if |ds| == 0 then []
    else
      var d := ds[|ds| - 1];
      VisibleDashboards(ds[..|ds| - 1]) +
      if (d.access.read || d.access.edit || d.access.delete) && d.dashboardId != "" then [d.dashboardId] else []
  }

  function SentinelNames(ds: seq<DashboardPermission>): seq<string> {
    if AnyRead(ds) || AnyCreate(ds) then [NEW_DASHBOARD] else []
  }

  function MergedDashboards(ds: seq<DashboardPermission>, ids: seq<string>): (r: seq<DashboardPermission>)
    ensures |r| == |ids| && forall i :: 0 <= i < |r| ==> r[i] == MergedDashboard(ds, ids[i])
  {
    seq(|ids|, i requires 0 <= i < |ids| => MergedDashboard(ds, ids[i]))
  }

  function NormalDashboards(ds: seq<DashboardPermission>): seq<DashboardPermission> {
    MergedDashboards(ds, Distinct(VisibleDashboards(ds) + SentinelNames(ds)))
  }

  /** Levels other than `readonly` and `edit` mean nothing for a connection or a group. */
  function NormalLevel(level: AccessLevel): AccessLevel {
    if level in {Edit, Readonly} then level else NoAccess
  }

  function Normal(connectionId: string, groupId: string, p: Permissions): Permissions {
    Permissions(connectionId, NormalLevel(p.connectionLevel), groupId, NormalLevel(p.groupLevel),
                NormalTables(p.tables), Some(NormalDashboards(DashboardList(p))))
  }

  // ----- What the collected statements amount to -----

  /** The (name, action) pairs that statements of one kind record, in order. */
  function Touches(ss: seq<Statement>, kind: ResourceType, connectionId: string): seq<(string, Action)> {
    if |ss| == 0 then []
    else Touches(ss[..|ss| - 1], kind, connectionId) + TouchOf(ss[|ss| - 1], kind, connectionId)
  }

  function TouchOf(s: Statement, kind: ResourceType, connectionId: string): seq<(string, Action)> {
    if s.Permit? && s.kind == kind && LocalName(Some(s.id), connectionId) != ""
    then [(LocalName(Some(s.id), connectionId), s.action)] else []
  }

  function Names(touches: seq<(string, Action)>): (names: seq<string>)
    ensures |names| == |touches| && forall i :: 0 <= i < |names| ==> names[i] == touches[i].0
  {
    seq(|touches|, i requires 0 <= i < |touches| => touches[i].0)
  }

  function TableEntry(touches: seq<(string, Action)>, name: string): TablePermission {
    TablePermission(name, TableAccess((name, TableRead) in touches, false, (name, TableAdd) in touches,
                                      (name, TableDelete) in touches, (name, TableEdit) in touches))
  }

  function TableEntries(touches: seq<(string, Action)>): (r: seq<TablePermission>)
    ensures var names := Distinct(Names(touches));
            |r| == |names| && forall i :: 0 <= i < |r| ==> r[i] == TableEntry(touches, names[i]) && r[i].tableName == names[i]
  {
    var names := Distinct(Names(touches));
    seq(|names|, i requires 0 <= i < |names| => TableEntry(touches, names[i]))
  }

  function DashboardEntry(touches: seq<(string, Action)>, id: string): DashboardPermission {
    DashboardPermission(id, DashboardAccess((id, DashboardRead) in touches, (id, DashboardCreate) in touches,
                                            (id, DashboardEdit) in touches, (id, DashboardDelete) in touches))
  }

  function DashboardEntries(touches: seq<(string, Action)>): (r: seq<DashboardPermission>)
    ensures var ids := Distinct(Names(touches));
            |r| == |ids| && forall i :: 0 <= i < |r| ==> r[i] == DashboardEntry(touches, ids[i]) && r[i].dashboardId == ids[i]
  {
    var ids := Distinct(Names(touches));
    seq(|ids|, i requires 0 <= i < |ids| => DashboardEntry(touches, ids[i]))
  }

  lemma NamesSnoc(touches: seq<(string, Action)>, name: string, a: Action)
    ensures Names(touches + [(name, a)]) == Names(touches) + [name]
    ensures name !in Names(touches) ==> TableEntry(touches, name) == TablePermission(name, BLANK_TABLE)
    ensures name !in Names(touches) ==> DashboardEntry(touches, name) == DashboardPermission(name, BLANK_DASHBOARD)
    ensures name in Names(touches) <==> name in Distinct(Names(touches))
  {
    if name !in Names(touches) {
      forall i | 0 <= i < |touches|
        ensures touches[i].0 != name
      {
        assert Names(touches)[i] == touches[i].0;
      }
    }
  }

  lemma TableEntryStep(touches: seq<(string, Action)>, name: string, a: Action, n: string)
    requires Subject(a) == TableType
    ensures TableEntry(touches + [(name, a)], n) ==
            if n != name then TableEntry(touches, n)
            else TablePermission(n, WithTableAction(TableEntry(touches, n).access, a))
  {}

  /** Recording one more action keeps the entries equal to what was touched. */
  lemma RecordTableEntry(touches: seq<(string, Action)>, name: string, a: Action)
    requires Subject(a) == TableType
    ensures RecordTable(TableEntries(touches), name, a) == TableEntries(touches + [(name, a)])
  {
    hide RecordTable, TableEntry, WithTableAction, Distinct, Names;
    var ts, names := TableEntries(touches), Distinct(Names(touches));
    NamesSnoc(touches, name, a);
    DistinctSnoc(Names(touches), name);
    if name in names {
      var k :| 0 <= k < |names| && names[k] == name;
      RecordTableAt(ts, ts, k, name, a);
    } else {
      RecordTableAt(ts, ts + [TablePermission(name, BLANK_TABLE)], |ts|, name, a);
    }
    forall n
      ensures TableEntry(touches + [(name, a)], n) ==
              if n != name then TableEntry(touches, n)
              else TablePermission(n, WithTableAction(TableEntry(touches, n).access, a))
    {
      TableEntryStep(touches, name, a, n);
    }
  }

  lemma DashboardEntryStep(touches: seq<(string, Action)>, id: string, a: Action, n: string)
    requires Subject(a) == DashboardType
    ensures DashboardEntry(touches + [(id, a)], n) ==
            if n != id then DashboardEntry(touches, n)
            else DashboardPermission(n, WithDashboardAction(DashboardEntry(touches, n).access, a))
  {}

  lemma RecordDashboardEntry(touches: seq<(string, Action)>, id: string, a: Action)
    requires Subject(a) == DashboardType
    ensures RecordDashboard(DashboardEntries(touches), id, a) == DashboardEntries(touches + [(id, a)])
  {
    hide RecordDashboard, DashboardEntry, WithDashboardAction, Distinct, Names;
    var ds, ids := DashboardEntries(touches), Distinct(Names(touches));
    NamesSnoc(touches, id, a);
    DistinctSnoc(Names(touches), id);
    if id in ids {
      var k :| 0 <= k < |ids| && ids[k] == id;
      RecordDashboardAt(ds, ds, k, id, a);
    } else {
      RecordDashboardAt(ds, ds + [DashboardPermission(id, BLANK_DASHBOARD)], |ds|, id, a);
    }
    forall n
      ensures DashboardEntry(touches + [(id, a)], n) ==
              if n != id then DashboardEntry(touches, n)
              else DashboardPermission(n, WithDashboardAction(DashboardEntry(touches, n).access, a))
    {
      DashboardEntryStep(touches, id, a, n);
    }
  }

  predicate Uses(ss: seq<Statement>, a: Action) {
    exists i :: 0 <= i < |ss| && ss[i].Permit? && ss[i].action == a
  }

  lemma UsesSnoc(ss: seq<Statement>, s: Statement, a: Action)
    ensures Uses(ss + [s], a) <==> Uses(ss, a) || (s.Permit? && s.action == a)
  {
    var more := ss + [s];
    assert more[|ss|] == s && forall i :: 0 <= i < |ss| ==> more[i] == ss[i];
  }

  function LevelOf(ss: seq<Statement>, read: Action, edit: Action): AccessLevel {
    if Uses(ss, edit) then Edit else if Uses(ss, read) then Readonly else NoAccess
  }

  lemma LevelStep(ss: seq<Statement>, s: Statement, read: Action, edit: Action)
    requires s.Permit? && read != edit
    ensures LevelOf(ss + [s], read, edit) ==
            if s.action == edit || s.action == read then Raise(LevelOf(ss, read, edit), s.action == edit)
            else LevelOf(ss, read, edit)
  {
    UsesSnoc(ss, s, read);
    UsesSnoc(ss, s, edit);
    hide Uses;
  }

  lemma TouchesSnoc(ss: seq<Statement>, s: Statement, kind: ResourceType, connectionId: string)
    ensures Touches(ss + [s], kind, connectionId) == Touches(ss, kind, connectionId) + TouchOf(s, kind, connectionId)
  {
    assert (ss + [s])[..|ss|] == ss;
  }

  /** Levels by the actions used, entries by what was touched. */
  function CollectedForm(ss: seq<Statement>, connectionId: string): Collected {
    Collected(LevelOf(ss, ConnectionRead, ConnectionEdit), LevelOf(ss, GroupRead, GroupEdit),
              TableEntries(Touches(ss, TableType, connectionId)),
              DashboardEntries(Touches(ss, DashboardType, connectionId)))
  }

  lemma FormSnoc(ss: seq<Statement>, s: Statement, connectionId: string)
    requires s.Permit? && s.kind == Subject(s.action)
    ensures CollectedForm(ss + [s], connectionId) == CollectStatement(CollectedForm(ss, connectionId), s, connectionId)
  {
    var name := LocalName(Some(s.id), connectionId);
    var tables, dashboards := Touches(ss, TableType, connectionId), Touches(ss, DashboardType, connectionId);
    LevelStep(ss, s, ConnectionRead, ConnectionEdit);
    LevelStep(ss, s, GroupRead, GroupEdit);
    TouchesSnoc(ss, s, TableType, connectionId);
    TouchesSnoc(ss, s, DashboardType, connectionId);
    hide LevelOf, TableEntries, DashboardEntries, RecordTable, RecordDashboard, LocalName, Touches, Raise;
    assert tables + [] == tables && dashboards + [] == dashboards;
    if s.kind == TableType && name != "" {
      RecordTableEntry(tables, name, s.action);
    }
    if s.kind == DashboardType && name != "" {
      RecordDashboardEntry(dashboards, name, s.action);
    }
  }

  /** The parser's loop in closed form. */
  lemma {:induction false} CollectedIsForm(ss: seq<Statement>, connectionId: string)
    requires forall i :: 0 <= i < |ss| ==> ss[i].Permit? && ss[i].kind == Subject(ss[i].action)
    ensures CollectStatements(ss, connectionId) == CollectedForm(ss, connectionId)
  {
    hide CollectStatement;
    if |ss| > 0 {
      hide CollectedForm;
      var init, last := ss[..|ss| - 1], ss[|ss| - 1];
      CollectedIsForm(init, connectionId);
      assert ss == init + [last];
      FormSnoc(init, last, connectionId);
    }
  }

  // ----- What the printer's statements touch -----

  lemma {:induction false} TouchesConcat(a: seq<Statement>, b: seq<Statement>, kind: ResourceType, connectionId: string)
    ensures Touches(a + b, kind, connectionId) == Touches(a, kind, connectionId) + Touches(b, kind, connectionId)
  {
    hide TouchOf;
    if |b| == 0 {
      assert a + b == a;
    } else {
      TouchesConcat(a, b[..|b| - 1], kind, connectionId);
      assert (a + b)[..|a + b| - 1] == a + b[..|b| - 1];
    }
  }

  lemma {:induction false} TouchesOther(ss: seq<Statement>, kind: ResourceType, connectionId: string)
    requires forall i :: 0 <= i < |ss| ==> ss[i].Permit? && ss[i].kind != kind
    ensures Touches(ss, kind, connectionId) == []
  {
    if |ss| > 0 {
      TouchesOther(ss[..|ss| - 1], kind, connectionId);
    }
  }

  lemma LocalNameOfPath(connectionId: string, name: string)
    ensures LocalName(Some(connectionId + "/" + name), connectionId) == name
  {}

  lemma NamesConcat(a: seq<(string, Action)>, b: seq<(string, Action)>)
    ensures Names(a + b) == Names(a) + Names(b)
  {}

  function Touch(granted: bool, name: string, a: Action): seq<(string, Action)> {
    if granted && name != "" then [(name, a)] else []
  }

  lemma WhenTouches(granted: bool, a: Action, kind: ResourceType, connectionId: string, name: string)
    ensures Touches(When(granted, Permit(a, kind, connectionId + "/" + name)), kind, connectionId) == Touch(granted, name, a)
  {
    LocalNameOfPath(connectionId, name);
  }

  lemma TableTouches(connectionId: string, t: TablePermission)
    ensures Touches(TableGrants(connectionId, t), TableType, connectionId) ==
            Touch(HasAnyAccess(t.access), t.tableName, TableRead) + Touch(t.access.add, t.tableName, TableAdd) +
            Touch(t.access.edit, t.tableName, TableEdit) + Touch(t.access.delete, t.tableName, TableDelete)
  {
    var id := connectionId + "/" + t.tableName;
    WhenTouches(HasAnyAccess(t.access), TableRead, TableType, connectionId, t.tableName);
    WhenTouches(t.access.add, TableAdd, TableType, connectionId, t.tableName);
    WhenTouches(t.access.edit, TableEdit, TableType, connectionId, t.tableName);
    WhenTouches(t.access.delete, TableDelete, TableType, connectionId, t.tableName);
    var p1 := When(HasAnyAccess(t.access), Permit(TableRead, TableType, id));
    var p2 := When(t.access.add, Permit(TableAdd, TableType, id));
    var p3 := When(t.access.edit, Permit(TableEdit, TableType, id));
    var p4 := When(t.access.delete, Permit(TableDelete, TableType, id));
    assert TableGrants(connectionId, t) == p1 + p2 + p3 + p4;
    hide *;
    TouchesConcat(p1 + p2 + p3, p4, TableType, connectionId);
    TouchesConcat(p1 + p2, p3, TableType, connectionId);
    TouchesConcat(p1, p2, TableType, connectionId);
  }

  lemma DashboardTouches(connectionId: string, d: DashboardPermission)
    ensures Touches(DashboardGrants(connectionId, d), DashboardType, connectionId) ==
            Touch(d.access.read, d.dashboardId, DashboardRead) + Touch(d.access.edit, d.dashboardId, DashboardEdit) +
            Touch(d.access.delete, d.dashboardId, DashboardDelete)
  {
    var id := connectionId + "/" + d.dashboardId;
    WhenTouches(d.access.read, DashboardRead, DashboardType, connectionId, d.dashboardId);
    WhenTouches(d.access.edit, DashboardEdit, DashboardType, connectionId, d.dashboardId);
    WhenTouches(d.access.delete, DashboardDelete, DashboardType, connectionId, d.dashboardId);
    var p1 := When(d.access.read, Permit(DashboardRead, DashboardType, id));
    var p2 := When(d.access.edit, Permit(DashboardEdit, DashboardType, id));
    var p3 := When(d.access.delete, Permit(DashboardDelete, DashboardType, id));
    assert DashboardGrants(connectionId, d) == p1 + p2 + p3;
    hide *;
    TouchesConcat(p1 + p2, p3, DashboardType, connectionId);
    TouchesConcat(p1, p2, DashboardType, connectionId);
  }

  lemma SentinelTouches(connectionId: string, ds: seq<DashboardPermission>)
    ensures Touches(SentinelGrants(connectionId, ds), DashboardType, connectionId) ==
            Touch(AnyRead(ds), NEW_DASHBOARD, DashboardRead) + Touch(AnyCreate(ds), NEW_DASHBOARD, DashboardCreate)
  {
    var id := connectionId + "/" + NEW_DASHBOARD;
    WhenTouches(AnyRead(ds), DashboardRead, DashboardType, connectionId, NEW_DASHBOARD);
    WhenTouches(AnyCreate(ds), DashboardCreate, DashboardType, connectionId, NEW_DASHBOARD);
    var p1 := When(AnyRead(ds), Permit(DashboardRead, DashboardType, id));
    var p2 := When(AnyCreate(ds), Permit(DashboardCreate, DashboardType, id));
    assert SentinelGrants(connectionId, ds) == p1 + p2;
    hide *;
    TouchesConcat(p1, p2, DashboardType, connectionId);
  }

  lemma TableTouched(connectionId: string, t: TablePermission, n: string, a: Action)
    ensures (n, a) in Touches(TableGrants(connectionId, t), TableType, connectionId) <==>
            n != "" && t.tableName == n && TableAllows(t.access, a)
  {
    TableTouches(connectionId, t);
    hide Touches, TableGrants;
  }

  lemma TableTouchedNames(connectionId: string, t: TablePermission)
    ensures var names := Names(Touches(TableGrants(connectionId, t), TableType, connectionId));
            && (forall i :: 0 <= i < |names| ==> names[i] == t.tableName)
            && (names != [] <==> HasAnyAccess(t.access) && t.tableName != "")
  {
    TableTouches(connectionId, t);
    hide Touches, TableGrants;
  }

  lemma DashboardTouched(connectionId: string, d: DashboardPermission, n: string, a: Action)
    ensures (n, a) in Touches(DashboardGrants(connectionId, d), DashboardType, connectionId) <==>
            n != "" && d.dashboardId == n && DashboardAllows(d.access, a)
  {
    DashboardTouches(connectionId, d);
    hide Touches, DashboardGrants;
  }

  lemma DashboardTouchedNames(connectionId: string, d: DashboardPermission)
    ensures var names := Names(Touches(DashboardGrants(connectionId, d), DashboardType, connectionId));
            && (forall i :: 0 <= i < |names| ==> names[i] == d.dashboardId)
            && (names != [] <==> (d.access.read || d.access.edit || d.access.delete) && d.dashboardId != "")
  {
    DashboardTouches(connectionId, d);
    hide Touches, DashboardGrants;
  }

  lemma SomeTableSnoc(ts: seq<TablePermission>, t: TablePermission, n: string, a: Action)
    ensures SomeTable(ts + [t], n, a) <==> SomeTable(ts, n, a) || (t.tableName == n && TableAllows(t.access, a))
  {
    var more := ts + [t];
    assert more[|ts|] == t && forall i :: 0 <= i < |ts| ==> more[i] == ts[i];
  }

  lemma SomeDashboardSnoc(ds: seq<DashboardPermission>, d: DashboardPermission, n: string, a: Action)
    ensures SomeDashboard(ds + [d], n, a) <==> SomeDashboard(ds, n, a) || (d.dashboardId == n && DashboardAllows(d.access, a))
  {
    var more := ds + [d];
    assert more[|ds|] == d && forall i :: 0 <= i < |ds| ==> more[i] == ds[i];
  }

  lemma TablesTouchesUnfold(connectionId: string, ts: seq<TablePermission>)
    requires |ts| > 0
    ensures Touches(TablesGrants(connectionId, ts), TableType, connectionId) ==
            Touches(TablesGrants(connectionId, ts[..|ts| - 1]), TableType, connectionId) +
            Touches(TableGrants(connectionId, ts[|ts| - 1]), TableType, connectionId)
  {
    hide Touches, TableGrants;
    TouchesConcat(TablesGrants(connectionId, ts[..|ts| - 1]), TableGrants(connectionId, ts[|ts| - 1]), TableType, connectionId);
  }

  /** What is touched is what some entry grants. */
  lemma {:induction false} TablesTouched(connectionId: string, ts: seq<TablePermission>, n: string, a: Action)
    ensures (n, a) in Touches(TablesGrants(connectionId, ts), TableType, connectionId) <==> n != "" && SomeTable(ts, n, a)
  {
    if |ts| > 0 {
      var init, t := ts[..|ts| - 1], ts[|ts| - 1];
      assert ts == init + [t];
      hide Touches, TableGrants, TablesGrants, SomeTable, TableAllows;
      TablesTouchesUnfold(connectionId, ts);
      TablesTouched(connectionId, init, n, a);
      TableTouched(connectionId, t, n, a);
      SomeTableSnoc(init, t, n, a);
    }
  }

  /** Names are touched in the order in which visible entries first appear. */
  lemma {:induction false} TablesTouchedNames(connectionId: string, ts: seq<TablePermission>)
    ensures Distinct(Names(Touches(TablesGrants(connectionId, ts), TableType, connectionId))) == Distinct(VisibleTables(ts))
  {
    if |ts| > 0 {
      hide Touches, TableGrants, TablesGrants, Names, Distinct, TableAllows;
      var init, t := ts[..|ts| - 1], ts[|ts| - 1];
      var before := Names(Touches(TablesGrants(connectionId, init), TableType, connectionId));
      var touched := Touches(TableGrants(connectionId, t), TableType, connectionId);
      TablesTouchesUnfold(connectionId, ts);
      NamesConcat(Touches(TablesGrants(connectionId, init), TableType, connectionId), touched);
      TablesTouchedNames(connectionId, init);
      TableTouchedNames(connectionId, t);
      DistinctCongruent(before, VisibleTables(init), Names(touched));
      if Names(touched) != [] {
        DistinctRepeat(VisibleTables(init), Names(touched), t.tableName);
      } else {
        assert VisibleTables(init) + Names(touched) == VisibleTables(init) == VisibleTables(ts);
      }
    }
  }

  lemma DashboardsTouchesUnfold(connectionId: string, ds: seq<DashboardPermission>)
    requires |ds| > 0
    ensures Touches(DashboardsGrants(connectionId, ds), DashboardType, connectionId) ==
            Touches(DashboardsGrants(connectionId, ds[..|ds| - 1]), DashboardType, connectionId) +
            Touches(DashboardGrants(connectionId, ds[|ds| - 1]), DashboardType, connectionId)
  {
    hide Touches, DashboardGrants;
    TouchesConcat(DashboardsGrants(connectionId, ds[..|ds| - 1]), DashboardGrants(connectionId, ds[|ds| - 1]), DashboardType, connectionId);
  }

  /** What is touched is what some entry grants. */
  lemma {:induction false} DashboardsTouched(connectionId: string, ds: seq<DashboardPermission>, n: string, a: Action)
    ensures (n, a) in Touches(DashboardsGrants(connectionId, ds), DashboardType, connectionId) <==> n != "" && SomeDashboard(ds, n, a)
  {
    if |ds| > 0 {
      var init, d := ds[..|ds| - 1], ds[|ds| - 1];
      assert ds == init + [d];
      hide Touches, DashboardGrants, DashboardsGrants, SomeDashboard, DashboardAllows;
      DashboardsTouchesUnfold(connectionId, ds);
      DashboardsTouched(connectionId, init, n, a);
      DashboardTouched(connectionId, d, n, a);
      SomeDashboardSnoc(init, d, n, a);
    }
  }

  /** Names are touched in the order in which visible entries first appear. */
  lemma {:induction false} DashboardsTouchedNames(connectionId: string, ds: seq<DashboardPermission>)
    ensures Distinct(Names(Touches(DashboardsGrants(connectionId, ds), DashboardType, connectionId))) == Distinct(VisibleDashboards(ds))
  {
    if |ds| > 0 {
      hide Touches, DashboardGrants, DashboardsGrants, Names, Distinct, DashboardAllows;
      var init, d := ds[..|ds| - 1], ds[|ds| - 1];
      var before := Names(Touches(DashboardsGrants(connectionId, init), DashboardType, connectionId));
      var touched := Touches(DashboardGrants(connectionId, d), DashboardType, connectionId);
      DashboardsTouchesUnfold(connectionId, ds);
      NamesConcat(Touches(DashboardsGrants(connectionId, init), DashboardType, connectionId), touched);
      DashboardsTouchedNames(connectionId, init);
      DashboardTouchedNames(connectionId, d);
      DistinctCongruent(before, VisibleDashboards(init), Names(touched));
      if Names(touched) != [] {
        DistinctRepeat(VisibleDashboards(init), Names(touched), d.dashboardId);
      } else {
        assert VisibleDashboards(init) + Names(touched) == VisibleDashboards(init) == VisibleDashboards(ds);
      }
    }
  }

  // ----- The round trip -----

  lemma GrantsAreNamed(connectionId: string, p: Permissions)
    ensures var ss := Grants(connectionId, false, p);
            forall i :: 0 <= i < |ss| ==> ss[i].Permit? && ss[i].kind == Subject(ss[i].action)
  {
    var ss := Grants(connectionId, false, p);
    hide *;
    forall i | 0 <= i < |ss|
      ensures ss[i].Permit? && ss[i].kind == Subject(ss[i].action)
    {
      GrantsMeanPermissions(connectionId, p, ss[i]);
    }
  }

  lemma GrantsUse(connectionId: string, p: Permissions, a: Action)
    requires Subject(a) in {ConnectionType, GroupType}
    ensures Uses(Grants(connectionId, false, p), a) <==>
            LevelAllows(if Subject(a) == ConnectionType then p.connectionLevel else p.groupLevel, a)
  {
    var ss, id := Grants(connectionId, false, p), if Subject(a) == ConnectionType then connectionId else p.groupId;
    GrantsMeanPermissions(connectionId, p, Permit(a, Subject(a), id));
    assert Granted(connectionId, p, a, id) <==> LevelAllows(if Subject(a) == ConnectionType then p.connectionLevel else p.groupLevel, a);
    hide Grants;
    if Uses(ss, a) {
      var i :| 0 <= i < |ss| && ss[i].Permit? && ss[i].action == a;
      GrantsMeanPermissions(connectionId, p, ss[i]);
    }
  }

  lemma GrantsTouch(connectionId: string, p: Permissions)
    ensures Touches(Grants(connectionId, false, p), TableType, connectionId) ==
            Touches(TablesGrants(connectionId, p.tables), TableType, connectionId)
    ensures Touches(Grants(connectionId, false, p), DashboardType, connectionId) ==
            Touches(AllDashboardGrants(connectionId, DashboardList(p)), DashboardType, connectionId)
  {
    var levels := ConnectionGrants(connectionId, p) + GroupGrants(p);
    var dashboards := AllDashboardGrants(connectionId, DashboardList(p));
    var tables := TablesGrants(connectionId, p.tables);
    LevelsTouchNothing(connectionId, p);
    DashboardsTouchNoTable(connectionId, DashboardList(p));
    TablesTouchNoDashboard(connectionId, p.tables);
    hide AllDashboardGrants, TablesGrants, Touches, ConnectionGrants, GroupGrants;
    assert Grants(connectionId, false, p) == levels + dashboards + tables;
    hide *;
    TouchesConcat(levels + dashboards, tables, TableType, connectionId);
    TouchesConcat(levels, dashboards, TableType, connectionId);
    TouchesConcat(levels + dashboards, tables, DashboardType, connectionId);
    TouchesConcat(levels, dashboards, DashboardType, connectionId);
  }

  lemma LevelsTouchNothing(connectionId: string, p: Permissions)
    ensures Touches(ConnectionGrants(connectionId, p) + GroupGrants(p), TableType, connectionId) == []
    ensures Touches(ConnectionGrants(connectionId, p) + GroupGrants(p), DashboardType, connectionId) == []
  {
    LevelKinds(connectionId, p);
    hide *;
    TouchesOther(ConnectionGrants(connectionId, p) + GroupGrants(p), TableType, connectionId);
    TouchesOther(ConnectionGrants(connectionId, p) + GroupGrants(p), DashboardType, connectionId);
  }

  lemma DashboardsTouchNoTable(connectionId: string, ds: seq<DashboardPermission>)
    ensures Touches(AllDashboardGrants(connectionId, ds), TableType, connectionId) == []
  {
    hide *;
    DashboardKinds(connectionId, ds);
    TouchesOther(AllDashboardGrants(connectionId, ds), TableType, connectionId);
  }

  lemma TablesTouchNoDashboard(connectionId: string, ts: seq<TablePermission>)
    ensures Touches(TablesGrants(connectionId, ts), DashboardType, connectionId) == []
  {
    hide TableGrants, TouchOf;
    TableKinds(connectionId, ts);
    TouchesOther(TablesGrants(connectionId, ts), DashboardType, connectionId);
  }

  lemma LevelKinds(connectionId: string, p: Permissions)
    ensures var ss := ConnectionGrants(connectionId, p) + GroupGrants(p);
            forall i :: 0 <= i < |ss| ==> ss[i].Permit? && ss[i].kind != TableType && ss[i].kind != DashboardType
  {}

  lemma DashboardKinds(connectionId: string, ds: seq<DashboardPermission>)
    ensures var ss := AllDashboardGrants(connectionId, ds);
            forall i :: 0 <= i < |ss| ==> ss[i].Permit? && ss[i].kind == DashboardType
  {
    var ss := AllDashboardGrants(connectionId, ds);
    forall i | 0 <= i < |ss|
      ensures ss[i].Permit? && ss[i].kind == DashboardType
    {
      var s := ss[i];
      assert s in DashboardsGrants(connectionId, ds) || s in SentinelGrants(connectionId, ds);
      hide *;
      DashboardsGrantsIn(connectionId, ds, s);
      SentinelGrantsIn(connectionId, ds, s);
    }
  }

  lemma TableKinds(connectionId: string, ts: seq<TablePermission>)
    ensures var ss := TablesGrants(connectionId, ts);
            forall i :: 0 <= i < |ss| ==> ss[i].Permit? && ss[i].kind == TableType
  {
    var ss := TablesGrants(connectionId, ts);
    hide *;
    forall i | 0 <= i < |ss|
      ensures ss[i].Permit? && ss[i].kind == TableType
    {
      TablesGrantsIn(connectionId, ts, ss[i]);
    }
  }

  lemma TablesNormal(connectionId: string, ts: seq<TablePermission>)
    ensures AllWithReadonly(TableEntries(Touches(TablesGrants(connectionId, ts), TableType, connectionId))) == NormalTables(ts)
  {
    var touches := Touches(TablesGrants(connectionId, ts), TableType, connectionId);
    var names := Distinct(VisibleTables(ts));
    TablesTouchedNames(connectionId, ts);
    VisibleTablesNamed(ts);
    hide Touches, TablesGrants, SomeTable, Distinct, Names, VisibleTables;
    forall i | 0 <= i < |names|
      ensures WithReadonly(TableEntry(touches, names[i])) == MergedTable(ts, names[i])
    {
      assert names[i] in names;
      TablesTouched(connectionId, ts, names[i], TableRead);
      TablesTouched(connectionId, ts, names[i], TableAdd);
      TablesTouched(connectionId, ts, names[i], TableEdit);
      TablesTouched(connectionId, ts, names[i], TableDelete);
    }
    hide TableEntry, MergedTable, WithReadonly;
  }

  lemma {:induction false} VisibleTablesNamed(ts: seq<TablePermission>)
    ensures forall n :: n in VisibleTables(ts) <==> n != "" && SomeTable(ts, n, TableRead)
  {
    if |ts| > 0 {
      var init, t := ts[..|ts| - 1], ts[|ts| - 1];
      VisibleTablesNamed(init);
      assert ts == init + [t];
      hide SomeTable;
      forall n
        ensures SomeTable(ts, n, TableRead) <==> SomeTable(init, n, TableRead) || (t.tableName == n && HasAnyAccess(t.access))
      {
        SomeTableSnoc(init, t, n, TableRead);
      }
    }
  }

  lemma {:induction false} VisibleDashboardsNamed(ds: seq<DashboardPermission>)
    ensures forall n :: n in VisibleDashboards(ds) <==>
              n != "" && (SomeDashboard(ds, n, DashboardRead) || SomeDashboard(ds, n, DashboardEdit) || SomeDashboard(ds, n, DashboardDelete))
  {
    if |ds| > 0 {
      var init, d := ds[..|ds| - 1], ds[|ds| - 1];
      VisibleDashboardsNamed(init);
      assert ds == init + [d];
      hide SomeDashboard;
      forall n, a
        ensures SomeDashboard(ds, n, a) <==> SomeDashboard(init, n, a) || (d.dashboardId == n && DashboardAllows(d.access, a))
      {
        SomeDashboardSnoc(init, d, n, a);
      }
    }
  }

  lemma AllDashboardTouches(connectionId: string, ds: seq<DashboardPermission>)
    ensures Touches(AllDashboardGrants(connectionId, ds), DashboardType, connectionId) ==
            Touches(DashboardsGrants(connectionId, ds), DashboardType, connectionId) +
            (Touch(AnyRead(ds), NEW_DASHBOARD, DashboardRead) + Touch(AnyCreate(ds), NEW_DASHBOARD, DashboardCreate))
  {
    hide Touches, DashboardsGrants, SentinelGrants, Touch, AnyRead, AnyCreate;
    TouchesConcat(DashboardsGrants(connectionId, ds), SentinelGrants(connectionId, ds), DashboardType, connectionId);
    SentinelTouches(connectionId, ds);
  }

  lemma SentinelTouchedNames(ds: seq<DashboardPermission>)
    ensures var names := Names(Touch(AnyRead(ds), NEW_DASHBOARD, DashboardRead) + Touch(AnyCreate(ds), NEW_DASHBOARD, DashboardCreate));
            && (forall i :: 0 <= i < |names| ==> names[i] == NEW_DASHBOARD)
            && (names != [] <==> AnyRead(ds) || AnyCreate(ds))
  {
    assert NEW_DASHBOARD != "";
    hide AnyRead, AnyCreate, NEW_DASHBOARD;
  }

  lemma DashboardIds(connectionId: string, ds: seq<DashboardPermission>)
    ensures Distinct(Names(Touches(AllDashboardGrants(connectionId, ds), DashboardType, connectionId))) ==
            Distinct(VisibleDashboards(ds) + SentinelNames(ds))
  {
    hide Touches, DashboardsGrants, AllDashboardGrants, Distinct, AnyRead, AnyCreate, VisibleDashboards, NEW_DASHBOARD, Names, Touch;
    var named := Touches(DashboardsGrants(connectionId, ds), DashboardType, connectionId);
    var sentinel := Touch(AnyRead(ds), NEW_DASHBOARD, DashboardRead) + Touch(AnyCreate(ds), NEW_DASHBOARD, DashboardCreate);
    AllDashboardTouches(connectionId, ds);
    DashboardsTouchedNames(connectionId, ds);
    NamesConcat(named, sentinel);
    SentinelTouchedNames(ds);
    DistinctCongruent(Names(named), VisibleDashboards(ds), Names(sentinel));
    if Names(sentinel) != [] {
      DistinctRepeat(VisibleDashboards(ds), Names(sentinel), NEW_DASHBOARD);
    } else {
      assert Names(sentinel) == SentinelNames(ds);
    }
  }

  lemma DashboardsNormal(connectionId: string, ds: seq<DashboardPermission>)
    ensures DashboardEntries(Touches(AllDashboardGrants(connectionId, ds), DashboardType, connectionId)) == NormalDashboards(ds)
  {
    hide Touches, AllDashboardGrants, Distinct, Names, VisibleDashboards, SentinelNames, DashboardEntry, MergedDashboard;
    var touches := Touches(AllDashboardGrants(connectionId, ds), DashboardType, connectionId);
    var ids := Distinct(VisibleDashboards(ds) + SentinelNames(ds));
    DashboardIds(connectionId, ds);
    forall i | 0 <= i < |ids|
      ensures DashboardEntry(touches, ids[i]) == MergedDashboard(ds, ids[i])
    {
      assert ids[i] in ids;
      VisibleIdsNamed(ds, ids[i]);
      EntryIsMerged(connectionId, ds, ids[i]);
    }
  }

  lemma VisibleIdsNamed(ds: seq<DashboardPermission>, id: string)
    requires id in VisibleDashboards(ds) + SentinelNames(ds)
    ensures id != ""
  {
    hide SomeDashboard, VisibleDashboards;
    VisibleDashboardsNamed(ds);
  }

  lemma EntryIsMerged(connectionId: string, ds: seq<DashboardPermission>, id: string)
    requires id != ""
    ensures DashboardEntry(Touches(AllDashboardGrants(connectionId, ds), DashboardType, connectionId), id) == MergedDashboard(ds, id)
  {
    NoDashboardCreates(ds, id);
    hide Touches, AllDashboardGrants, DashboardsGrants, SomeDashboard, AnyRead, AnyCreate, NEW_DASHBOARD;
    AllDashboardTouches(connectionId, ds);
    DashboardsTouched(connectionId, ds, id, DashboardRead);
    DashboardsTouched(connectionId, ds, id, DashboardCreate);
    DashboardsTouched(connectionId, ds, id, DashboardEdit);
    DashboardsTouched(connectionId, ds, id, DashboardDelete);
  }

  lemma NoDashboardCreates(ds: seq<DashboardPermission>, id: string)
    ensures !SomeDashboard(ds, id, DashboardCreate)
  {}

  /** Parsing what the printer printed for a non-main group gives exactly the normal form. */
  lemma RoundTrip(connectionId: string, groupId: string, p: Permissions)
    requires AllReadable(Grants(connectionId, false, p))
    ensures ParsedPermissions(PolicyText(Grants(connectionId, false, p)), connectionId, groupId) == Normal(connectionId, groupId, p)
  {
    var ss := Grants(connectionId, false, p);
    GrantsAreNamed(connectionId, p);
    hide Grants, Uses, Touches, TableEntries, DashboardEntries, ParsedPermissions, PolicyText, CollectStatements;
    hide NormalTables, NormalDashboards, AllWithReadonly;
    ParsePrinted(ss, connectionId, groupId);
    CollectedIsForm(ss, connectionId);
    GrantsTouch(connectionId, p);
    TablesNormal(connectionId, p.tables);
    DashboardsNormal(connectionId, DashboardList(p));
    GrantsUse(connectionId, p, ConnectionRead);
    GrantsUse(connectionId, p, ConnectionEdit);
    GrantsUse(connectionId, p, GroupRead);
    GrantsUse(connectionId, p, GroupEdit);
  }

  /** The main group's policy is read as editing its connection and its group, and nothing else. */
  lemma MainRoundTrip(connectionId: string, groupId: string, p: Permissions)
    ensures ParsedPermissions(PolicyText(Grants(connectionId, true, p)), connectionId, groupId) ==
            Permissions(connectionId, Edit, groupId, Edit, [], Some([]))
  {
    ParsePrinted([PermitAll], connectionId, groupId);
    assert CollectStatements([PermitAll], connectionId) == Collected(Edit, Edit, [], []);
    hide ParsedPermissions, PolicyText;
  }
}
