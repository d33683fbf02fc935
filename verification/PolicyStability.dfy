/** Printing and parsing again changes nothing more, and which ids survive the round trip. */
module PolicyStability {
  import opened Text
  import opened CedarPolicy
  import opened PolicyGenerator
  import opened PolicyScanner
  import opened PolicyParser
  import opened PolicyReading
  import opened PrintedPolicies
  import opened PolicyRoundTrip

  // ----- Ids that can be read -----

  predicate WellFormedId(s: string) {
    NoQuote(s) && Balanced(s)
  }

  predicate WellFormedIds(connectionId: string, p: Permissions) {
    && WellFormedId(connectionId) && Balanced(p.groupId)
    && (forall i :: 0 <= i < |p.tables| ==> WellFormedId(p.tables[i].tableName))
    && var ds := DashboardList(p); forall i :: 0 <= i < |ds| ==> WellFormedId(ds[i].dashboardId)
  }

  lemma BalancedConcat(a: string, b: string)
    requires Balanced(a) && Balanced(b)
    ensures Balanced(a + b)
  {
    NetConcat(a, b);
    forall k | 0 <= k <= |a + b|
      ensures Net((a + b)[..k]) >= 0
    {
      if k <= |a| {
        assert (a + b)[..k] == a[..k];
      } else {
        assert (a + b)[..k] == a + b[..k - |a|];
        NetConcat(a, b[..k - |a|]);
      }
    }
  }

  lemma NoParensBalanced(s: string)
    requires NoParens(s)
    ensures Balanced(s)
  {
    NetNoParens(s);
    forall k | 0 <= k <= |s|
      ensures Net(s[..k]) == 0
    {
      NetNoParens(s[..k]);
    }
  }

  lemma WellFormedPath(connectionId: string, name: string)
    requires WellFormedId(connectionId) && WellFormedId(name)
    ensures WellFormedId(connectionId + "/" + name) && connectionId + "/" + name != ""
  {
    NoParensBalanced("/");
    BalancedConcat(connectionId, "/");
    BalancedConcat(connectionId + "/", name);
  }

  lemma NewDashboardPath(connectionId: string)
    requires WellFormedId(connectionId)
    ensures Readable(Permit(DashboardRead, DashboardType, connectionId + "/" + NEW_DASHBOARD))
  {
    assert NoQuote(NEW_DASHBOARD) && NoParens(NEW_DASHBOARD) && NEW_DASHBOARD != "";
    hide Balanced, NoQuote, NEW_DASHBOARD;
    NoParensBalanced(NEW_DASHBOARD);
    WellFormedPath(connectionId, NEW_DASHBOARD);
  }

  lemma GrantedReadable(connectionId: string, p: Permissions, s: Statement)
    requires WellFormedIds(connectionId, p) && s.Permit? && s.kind == Subject(s.action) && Granted(connectionId, p, s.action, s.id)
    ensures Readable(s)
  {
    NewDashboardPath(connectionId);
    hide Balanced, NoQuote, NEW_DASHBOARD, TableAllows, DashboardAllows, AnyRead, AnyCreate, LevelAllows;
    if s.kind == TableType {
      var j :| 0 <= j < |p.tables| && s.id == connectionId + "/" + p.tables[j].tableName && TableAllows(p.tables[j].access, s.action);
      WellFormedPath(connectionId, p.tables[j].tableName);
    } else if s.kind == DashboardType && s.id != connectionId + "/" + NEW_DASHBOARD {
      var ds := DashboardList(p);
      var j :| 0 <= j < |ds| && s.id == connectionId + "/" + ds[j].dashboardId && DashboardAllows(ds[j].access, s.action);
      WellFormedPath(connectionId, ds[j].dashboardId);
    }
  }

  /** With well-formed ids everywhere, every printed statement can be read. */
  lemma WellFormedIdsReadable(connectionId: string, p: Permissions)
    requires WellFormedIds(connectionId, p)
    ensures AllReadable(Grants(connectionId, false, p))
  {
    var ss := Grants(connectionId, false, p);
    hide Grants, Granted, WellFormedIds, Readable;
    forall i | 0 <= i < |ss|
      ensures Readable(ss[i])
    {
      GrantsMeanPermissions(connectionId, p, ss[i]);
      GrantedReadable(connectionId, p, ss[i]);
    }
  }

  // ----- The normal form grants the same -----

  lemma TablesAllowPath(connectionId: string, ts: seq<TablePermission>, a: Action, id: string)
    ensures TablesAllow(connectionId, ts, a, id) <==>
            connectionId + "/" <= id && SomeTable(ts, id[|connectionId| + 1..], a)
  {
    hide TableAllows;
    forall i | 0 <= i < |ts|
      ensures id == connectionId + "/" + ts[i].tableName <==>
              connectionId + "/" <= id && ts[i].tableName == id[|connectionId| + 1..]
    {}
  }

  lemma DashboardsAllowPath(connectionId: string, ds: seq<DashboardPermission>, a: Action, id: string)
    ensures DashboardsAllow(connectionId, ds, a, id) <==>
            connectionId + "/" <= id && SomeDashboard(ds, id[|connectionId| + 1..], a)
  {
    hide DashboardAllows;
    forall i | 0 <= i < |ds|
      ensures id == connectionId + "/" + ds[i].dashboardId <==>
              connectionId + "/" <= id && ds[i].dashboardId == id[|connectionId| + 1..]
    {}
  }

  lemma SomeTableImpliesRead(ts: seq<TablePermission>, name: string, a: Action)
    ensures SomeTable(ts, name, a) ==> Subject(a) == TableType && SomeTable(ts, name, TableRead)
  {}

  lemma NormalTableAllows(ts: seq<TablePermission>, name: string, a: Action)
    ensures SomeTable(NormalTables(ts), name, a) <==> name != "" && SomeTable(ts, name, a)
  {
    var names, ns := Distinct(VisibleTables(ts)), NormalTables(ts);
    VisibleTablesNamed(ts);
    SomeTableImpliesRead(ts, name, a);
    SomeTableImpliesRead(ts, name, TableAdd);
    SomeTableImpliesRead(ts, name, TableEdit);
    SomeTableImpliesRead(ts, name, TableDelete);
    MergedTableAllows(ts, name, a);
    hide VisibleTables, Distinct, MergedTable, TableAllows;
    assert forall i :: 0 <= i < |ns| ==> ns[i] == MergedTable(ts, names[i]) && ns[i].tableName == names[i] by {
      MergedNames(ts, names);
    }
    if name in names {
      var k :| 0 <= k < |names| && names[k] == name;
      assert ns[k] == MergedTable(ts, name);
    }
  }

  lemma MergedNames(ts: seq<TablePermission>, names: seq<string>)
    ensures forall i :: 0 <= i < |names| ==> MergedTable(ts, names[i]).tableName == names[i]
  {}

  lemma MergedTableAllows(ts: seq<TablePermission>, name: string, a: Action)
    ensures TableAllows(MergedTable(ts, name).access, a) <==> SomeTable(ts, name, a)
  {
    SomeTableImpliesRead(ts, name, a);
    SomeTableImpliesRead(ts, name, TableAdd);
    SomeTableImpliesRead(ts, name, TableEdit);
    SomeTableImpliesRead(ts, name, TableDelete);
    hide SomeTable;
  }

  predicate HoldsDashboard(ds: seq<DashboardPermission>, id: string, a: Action) {
    SomeDashboard(ds, id, a) || (a == DashboardRead && id == NEW_DASHBOARD && AnyRead(ds))
  }

  lemma MergedDashboardAllows(ds: seq<DashboardPermission>, id: string, a: Action)
    ensures DashboardAllows(MergedDashboard(ds, id).access, a) <==> HoldsDashboard(ds, id, a)
  {
    DashboardKindsOnly(ds, id, a);
    hide SomeDashboard, AnyRead, AnyCreate, NEW_DASHBOARD;
  }

  lemma DashboardKindsOnly(ds: seq<DashboardPermission>, id: string, a: Action)
    ensures SomeDashboard(ds, id, a) ==> a in {DashboardRead, DashboardEdit, DashboardDelete}
    ensures SomeDashboard(ds, id, DashboardRead) ==> AnyRead(ds)
  {}

  function NormalIds(ds: seq<DashboardPermission>): seq<string> {
    Distinct(VisibleDashboards(ds) + SentinelNames(ds))
  }

  lemma NormalIdsNamed(ds: seq<DashboardPermission>, id: string)
    ensures id in NormalIds(ds) <==>
            || (id != "" && exists a :: SomeDashboard(ds, id, a))
            || (id == NEW_DASHBOARD && (AnyRead(ds) || AnyCreate(ds)))
  {
    VisibleDashboardsNamed(ds);
    forall a
      ensures SomeDashboard(ds, id, a) ==> a in {DashboardRead, DashboardEdit, DashboardDelete}
    {
      DashboardKindsOnly(ds, id, a);
    }
    hide SomeDashboard, AnyRead, AnyCreate, NEW_DASHBOARD, VisibleDashboards;
  }

  lemma NormalDashboardAt(ds: seq<DashboardPermission>, i: nat)
    requires i < |NormalDashboards(ds)|
    ensures i < |NormalIds(ds)| && NormalDashboards(ds)[i] == MergedDashboard(ds, NormalIds(ds)[i])
    ensures NormalDashboards(ds)[i].dashboardId == NormalIds(ds)[i]
  {
    hide Distinct, VisibleDashboards, SentinelNames;
  }

  lemma NormalDashboardAllows(ds: seq<DashboardPermission>, id: string, a: Action)
    ensures SomeDashboard(NormalDashboards(ds), id, a) <==> id != "" && HoldsDashboard(ds, id, a)
  {
    var ids, ns := NormalIds(ds), NormalDashboards(ds);
    assert |ids| == |ns| && NEW_DASHBOARD != "";
    NormalIdsNamed(ds, id);
    MergedDashboardAllows(ds, id, a);
    hide NormalIds, NormalDashboards, MergedDashboard, DashboardAllows, AnyRead, AnyCreate, NEW_DASHBOARD;
    forall i | 0 <= i < |ns|
      ensures ns[i] == MergedDashboard(ds, ids[i]) && ns[i].dashboardId == ids[i]
    {
      NormalDashboardAt(ds, i);
    }
    if id in ids {
      var k :| 0 <= k < |ids| && ids[k] == id;
      assert ns[k] == MergedDashboard(ds, id);
    }
  }

  lemma NormalAny(ds: seq<DashboardPermission>)
    ensures AnyRead(NormalDashboards(ds)) <==> AnyRead(ds)
    ensures AnyCreate(NormalDashboards(ds)) <==> AnyCreate(ds)
  {
    var ids, ns := NormalIds(ds), NormalDashboards(ds);
    assert |ids| == |ns|;
    NormalIdsNamed(ds, NEW_DASHBOARD);
    hide NormalIds, NormalDashboards, NEW_DASHBOARD;
    forall i | 0 <= i < |ns|
      ensures ns[i] == MergedDashboard(ds, ids[i])
      ensures ns[i].access.read ==> AnyRead(ds)
      ensures ns[i].access.create ==> AnyCreate(ds)
    {
      NormalDashboardAt(ds, i);
      DashboardKindsOnly(ds, ids[i], DashboardRead);
    }
    if AnyRead(ds) || AnyCreate(ds) {
      var k :| 0 <= k < |ids| && ids[k] == NEW_DASHBOARD;
      assert ns[k] == MergedDashboard(ds, NEW_DASHBOARD);
    }
  }

  /** An entry without a name is printed, but parsing drops it. */
  predicate Unnamed(connectionId: string, s: Statement) {
    s.Permit? && s.kind in {TableType, DashboardType} && s.id == connectionId + "/"
  }

  /** The part of `id` after the connection, for ids that name something in it. */
  lemma PathName(connectionId: string, id: string, name: string)
    ensures id == connectionId + "/" + name <==> connectionId + "/" <= id && id[|connectionId| + 1..] == name
  {}

  lemma NormalTablesGranted(connectionId: string, ts: seq<TablePermission>, a: Action, id: string)
    ensures TablesAllow(connectionId, NormalTables(ts), a, id) <==> TablesAllow(connectionId, ts, a, id) && id != connectionId + "/"
  {
    TablesAllowPath(connectionId, ts, a, id);
    TablesAllowPath(connectionId, NormalTables(ts), a, id);
    PathName(connectionId, id, "");
    assert connectionId + "/" + "" == connectionId + "/";
    hide NormalTables, TablesAllow, SomeTable;
    if connectionId + "/" <= id {
      NormalTableAllows(ts, id[|connectionId| + 1..], a);
    }
  }

  lemma NormalDashboardsGranted(connectionId: string, ds: seq<DashboardPermission>, a: Action, id: string)
    ensures var sentinel := id == connectionId + "/" + NEW_DASHBOARD;
            DashboardsAllow(connectionId, NormalDashboards(ds), a, id) <==>
            id != connectionId + "/" && (DashboardsAllow(connectionId, ds, a, id) || (sentinel && a == DashboardRead && AnyRead(ds)))
  {
    DashboardsAllowPath(connectionId, ds, a, id);
    DashboardsAllowPath(connectionId, NormalDashboards(ds), a, id);
    PathName(connectionId, id, "");
    PathName(connectionId, id, NEW_DASHBOARD);
    assert connectionId + "/" + "" == connectionId + "/" && NEW_DASHBOARD != "";
    hide NormalDashboards, DashboardsAllow, SomeDashboard, AnyRead, NEW_DASHBOARD;
    if connectionId + "/" <= id {
      NormalDashboardAllows(ds, id[|connectionId| + 1..], a);
    }
  }

  lemma SentinelIsNamed(connectionId: string)
    ensures connectionId + "/" + NEW_DASHBOARD != connectionId + "/"
  {
    assert |NEW_DASHBOARD| > 0;
  }

  lemma NormalLevelAllows(level: AccessLevel, a: Action)
    ensures LevelAllows(NormalLevel(level), a) <==> LevelAllows(level, a)
  {}

  lemma NormalGranted(connectionId: string, p: Permissions, a: Action, id: string)
    ensures Granted(connectionId, Normal(connectionId, p.groupId, p), a, id) <==>
            Granted(connectionId, p, a, id) && !Unnamed(connectionId, Permit(a, Subject(a), id))
  {
    hide NormalTables, NormalDashboards, TablesAllow, DashboardsAllow, AnyRead, AnyCreate, NEW_DASHBOARD, LevelAllows, NormalLevel;
    match Subject(a)
    case ConnectionType =>
      NormalLevelAllows(p.connectionLevel, a);
    case GroupType =>
      NormalLevelAllows(p.groupLevel, a);
    case TableType =>
      NormalTablesGranted(connectionId, p.tables, a, id);
    case DashboardType =>
      SentinelIsNamed(connectionId);
      NormalAny(DashboardList(p));
      NormalDashboardsGranted(connectionId, DashboardList(p), a, id);
  }

  /** Re-printing the parsed permissions authorises the same requests, save those on an empty name. */
  lemma ReprintGrantsSame(connectionId: string, p: Permissions, s: Statement)
    requires AllReadable(Grants(connectionId, false, p))
    ensures var parsed := ParsedPermissions(PolicyText(Grants(connectionId, false, p)), connectionId, p.groupId);
            s in Grants(connectionId, false, parsed) <==> s in Grants(connectionId, false, p) && !Unnamed(connectionId, s)
  {
    hide ParsedPermissions, PolicyText, Grants, Granted, Normal;
    RoundTrip(connectionId, p.groupId, p);
    GrantsMeanPermissions(connectionId, p, s);
    GrantsMeanPermissions(connectionId, Normal(connectionId, p.groupId, p), s);
    if s.Permit? && s.kind == Subject(s.action) {
      NormalGranted(connectionId, p, s.action, s.id);
    }
  }

  // ----- Printing and parsing once more -----

  lemma {:induction false} AllVisibleTables(ts: seq<TablePermission>, names: seq<string>)
    requires |ts| == |names|
    requires forall i :: 0 <= i < |ts| ==> ts[i].tableName == names[i] != "" && HasAnyAccess(ts[i].access)
    ensures VisibleTables(ts) == names
  {
    if |ts| > 0 {
      AllVisibleTables(ts[..|ts| - 1], names[..|ts| - 1]);
      assert names == names[..|ts| - 1] + [names[|ts| - 1]];
    }
  }

  lemma NormalTablesTwice(ts: seq<TablePermission>)
    ensures NormalTables(NormalTables(ts)) == NormalTables(ts)
  {
    var names, ns := Distinct(VisibleTables(ts)), NormalTables(ts);
    VisibleTablesNamed(ts);
    hide VisibleTables, Distinct;
    forall i | 0 <= i < |ns|
      ensures ns[i] == MergedTable(ts, names[i]) && ns[i].tableName == names[i] != "" && HasAnyAccess(ns[i].access)
      ensures MergedTable(ns, names[i]) == MergedTable(ts, names[i])
    {
      assert names[i] in names;
      MergedTwice(ts, names[i]);
    }
    AllVisibleTables(ns, names);
    DistinctDistinct(names);
  }

  lemma MergedTwice(ts: seq<TablePermission>, name: string)
    requires name != ""
    ensures MergedTable(NormalTables(ts), name) == MergedTable(ts, name)
    ensures SomeTable(ts, name, TableRead) ==> HasAnyAccess(MergedTable(ts, name).access)
  {
    hide NormalTables, SomeTable;
    NormalTableAllows(ts, name, TableRead);
    NormalTableAllows(ts, name, TableAdd);
    NormalTableAllows(ts, name, TableEdit);
    NormalTableAllows(ts, name, TableDelete);
  }

  predicate DashboardVisible(d: DashboardPermission) {
    (d.access.read || d.access.edit || d.access.delete) && d.dashboardId != ""
  }

  lemma {:induction false} AllVisibleDashboards(ds: seq<DashboardPermission>, ids: seq<string>)
    requires |ds| == |ids|
    requires forall i :: 0 <= i < |ds| ==> ds[i].dashboardId == ids[i] && DashboardVisible(ds[i])
    ensures VisibleDashboards(ds) == ids
  {
    if |ds| > 0 {
      AllVisibleDashboards(ds[..|ds| - 1], ids[..|ds| - 1]);
      assert ids == ids[..|ds| - 1] + [ids[|ds| - 1]];
    }
  }

  /** Only the sentinel can be without anything visible, and then it comes last. */
  lemma VisibleOfNormal(ds: seq<DashboardPermission>)
    ensures var ids, again := NormalIds(ds), VisibleDashboards(NormalDashboards(ds));
            again == ids || ids == again + SentinelNames(ds)
  {
    if NEW_DASHBOARD !in VisibleDashboards(ds) && !AnyRead(ds) && AnyCreate(ds) {
      OnlyCreated(ds);
    } else {
      EveryIdShows(ds);
    }
    hide NormalIds, VisibleDashboards, NormalDashboards, AnyRead, AnyCreate, NEW_DASHBOARD;
  }

  lemma SentinelLast(ds: seq<DashboardPermission>)
    requires NEW_DASHBOARD !in VisibleDashboards(ds) && AnyCreate(ds)
    ensures NormalIds(ds) == Distinct(VisibleDashboards(ds)) + SentinelNames(ds) && SentinelNames(ds) == [NEW_DASHBOARD]
  {
    hide VisibleDashboards, AnyRead, AnyCreate, NEW_DASHBOARD;
    DistinctSnoc(VisibleDashboards(ds), NEW_DASHBOARD);
    hide Distinct;
  }

  lemma OnlyCreated(ds: seq<DashboardPermission>)
    requires NEW_DASHBOARD !in VisibleDashboards(ds) && !AnyRead(ds) && AnyCreate(ds)
    ensures NormalIds(ds) == VisibleDashboards(NormalDashboards(ds)) + SentinelNames(ds)
  {
    hide *;
    var ns, named := NormalDashboards(ds), Distinct(VisibleDashboards(ds));
    VisibleIdsShow(ds);
    SentinelLast(ds);
    assert NEW_DASHBOARD !in named;
    assert !DashboardVisible(ns[|named|]);
    AllVisibleDashboards(ns[..|named|], named);
    VisibleLast(ns);
  }

  lemma EveryIdShows(ds: seq<DashboardPermission>)
    requires NEW_DASHBOARD in VisibleDashboards(ds) || AnyRead(ds) || !AnyCreate(ds)
    ensures VisibleDashboards(NormalDashboards(ds)) == NormalIds(ds)
  {
    hide *;
    VisibleIdsShow(ds);
    NormalIdsNamed(ds, NEW_DASHBOARD);
    SentinelIsVisible(ds);
    AllVisibleDashboards(NormalDashboards(ds), NormalIds(ds));
  }

  lemma SentinelIsVisible(ds: seq<DashboardPermission>)
    requires NEW_DASHBOARD in VisibleDashboards(ds) || AnyRead(ds) || !AnyCreate(ds)
    ensures NEW_DASHBOARD in NormalIds(ds) ==> NEW_DASHBOARD in VisibleDashboards(ds) || AnyRead(ds)
  {
    hide VisibleDashboards, AnyRead, AnyCreate, NEW_DASHBOARD;
  }

  lemma SameIds(ids: seq<string>, sentinel: seq<string>, again: seq<string>)
    requires forall i, j :: 0 <= i < j < |ids| ==> ids[i] != ids[j]
    requires |sentinel| <= 1 && (|sentinel| == 1 ==> sentinel[0] in ids)
    requires again == ids || ids == again + sentinel
    ensures Distinct(again + sentinel) == ids
  {
    DistinctDistinct(ids);
    if sentinel == [] {
      assert ids + sentinel == ids;
    } else {
      DistinctSnoc(ids, sentinel[0]);
      assert ids + sentinel == ids + [sentinel[0]];
    }
  }

  lemma NormalIdsTwice(ds: seq<DashboardPermission>)
    ensures NormalIds(NormalDashboards(ds)) == NormalIds(ds)
  {
    hide VisibleDashboards, NormalDashboards, AnyRead, AnyCreate, NEW_DASHBOARD, Distinct;
    NormalAny(ds);
    VisibleOfNormal(ds);
    NormalIdsNamed(ds, NEW_DASHBOARD);
    SameIds(NormalIds(ds), SentinelNames(ds), VisibleDashboards(NormalDashboards(ds)));
  }

  lemma VisibleLast(ds: seq<DashboardPermission>)
    requires |ds| > 0 && !DashboardVisible(ds[|ds| - 1])
    ensures VisibleDashboards(ds) == VisibleDashboards(ds[..|ds| - 1])
  {}

  /** Every entry of the normal form but the sentinel shows something; so does the sentinel
      when it is readable or was visible itself. */
  lemma VisibleIdsShow(ds: seq<DashboardPermission>)
    ensures var ids, ns := NormalIds(ds), NormalDashboards(ds);
            |ids| == |ns| && forall i :: 0 <= i < |ns| ==>
              && ns[i].dashboardId == ids[i]
              && (DashboardVisible(ns[i]) <==> ids[i] != NEW_DASHBOARD || ids[i] in VisibleDashboards(ds) || AnyRead(ds))
  {
    var ids, ns := NormalIds(ds), NormalDashboards(ds);
    assert |ids| == |ns| && NEW_DASHBOARD != "";
    VisibleDashboardsNamed(ds);
    hide VisibleDashboards, NormalDashboards, NormalIds, AnyRead, AnyCreate, NEW_DASHBOARD, SomeDashboard;
    forall i | 0 <= i < |ns|
      ensures ns[i].dashboardId == ids[i]
      ensures DashboardVisible(ns[i]) <==> ids[i] != NEW_DASHBOARD || ids[i] in VisibleDashboards(ds) || AnyRead(ds)
    {
      NormalDashboardAt(ds, i);
      assert ids[i] in ids;
      NormalIdsNamed(ds, ids[i]);
      DashboardKindsOnly(ds, ids[i], DashboardRead);
      forall a
        ensures SomeDashboard(ds, ids[i], a) ==> a in {DashboardRead, DashboardEdit, DashboardDelete}
      {
        DashboardKindsOnly(ds, ids[i], a);
      }
    }
  }

  lemma NormalDashboardsTwice(ds: seq<DashboardPermission>)
    ensures NormalDashboards(NormalDashboards(ds)) == NormalDashboards(ds)
  {
    var ids, ns := NormalIds(ds), NormalDashboards(ds);
    assert |ids| == |ns| && NormalIds(ns) == ids by {
      NormalIdsTwice(ds);
    }
    assert |NormalDashboards(ns)| == |NormalIds(ns)|;
    hide NormalIds, NormalDashboards, MergedDashboard;
    forall i | 0 <= i < |ids|
      ensures NormalDashboards(ns)[i] == ns[i]
    {
      NormalDashboardAt(ds, i);
      NormalDashboardAt(ns, i);
      assert ids[i] in ids;
      NormalIdsNamed(ds, ids[i]);
      MergedDashboardTwice(ds, ids[i]);
    }
  }

  lemma MergedDashboardTwice(ds: seq<DashboardPermission>, id: string)
    requires id != ""
    ensures MergedDashboard(NormalDashboards(ds), id) == MergedDashboard(ds, id)
  {
    hide NormalDashboards, SomeDashboard, AnyRead, AnyCreate, NEW_DASHBOARD;
    NormalAny(ds);
    NormalDashboardAllows(ds, id, DashboardRead);
    NormalDashboardAllows(ds, id, DashboardEdit);
    NormalDashboardAllows(ds, id, DashboardDelete);
  }

  lemma NormalTwice(connectionId: string, groupId: string, p: Permissions)
    ensures Normal(connectionId, groupId, Normal(connectionId, groupId, p)) == Normal(connectionId, groupId, p)
  {
    NormalTablesTwice(p.tables);
    NormalDashboardsTwice(DashboardList(p));
    hide NormalTables, NormalDashboards;
  }

  /** What parsing printed text gives can be printed and parsed again without any change. */
  lemma PrintParseStable(connectionId: string, p: Permissions)
    requires AllReadable(Grants(connectionId, false, p))
    ensures var parsed := ParsedPermissions(PolicyText(Grants(connectionId, false, p)), connectionId, p.groupId);
            ParsedPermissions(PolicyText(Grants(connectionId, false, parsed)), connectionId, p.groupId) == parsed
  {
    hide ParsedPermissions, PolicyText, Grants, Normal, Readable;
    var parsed := ParsedPermissions(PolicyText(Grants(connectionId, false, p)), connectionId, p.groupId);
    RoundTrip(connectionId, p.groupId, p);
    var again := Grants(connectionId, false, parsed);
    forall i | 0 <= i < |again|
      ensures Readable(again[i])
    {
      ReprintGrantsSame(connectionId, p, again[i]);
    }
    RoundTrip(connectionId, p.groupId, parsed);
    NormalTwice(connectionId, p.groupId, p);
  }
}
