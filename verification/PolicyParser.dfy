/** Reading one permit body with the parser's regular expressions, and rebuilding classical permissions. */
module PolicyParser {
  import opened Text
  import opened CedarPolicy
  import opened PolicyScanner

  // ----- The regular expressions -----

  /** JavaScript's \s. */
  predicate IsSpace(c: char) {
    || c in {' ', '\t', '\n', '\r', '\U{000B}', '\U{000C}', '\U{00A0}', '\U{1680}'}
    || '\U{2000}' <= c <= '\U{200A}'
    || c in {'\U{2028}', '\U{2029}', '\U{202F}', '\U{205F}', '\U{3000}', '\U{FEFF}'}
  }

  predicate IsLineEnd(c: char) {
    c in {'\n', '\r', '\U{2028}', '\U{2029}'}
  }

  /** JavaScript's \w. */
  predicate IsWordChar(c: char) {
    'a' <= c <= 'z' || 'A' <= c <= 'Z' || '0' <= c <= '9' || c == '_'
  }

  function DropSpaces(s: string): (r: string)
    ensures |r| <= |s|
  {
    if |s| > 0 && IsSpace(s[0]) then DropSpaces(s[1..]) else s
  }

  function TakeWord(s: string): (w: string)
    ensures w <= s
    ensures forall i :: 0 <= i < |w| ==> IsWordChar(w[i])
    ensures |w| < |s| ==> !IsWordChar(s[|w|])
  {
    if |s| > 0 && IsWordChar(s[0]) then [s[0]] + TakeWord(s[1..]) else ""
  }

  function TakeUnquoted(s: string): (w: string)
    ensures w <= s && NoQuote(w)
    ensures |w| < |s| ==> s[|w|] == '\"'
  {
    if |s| > 0 && s[0] != '\"' then [s[0]] + TakeUnquoted(s[1..]) else ""
  }

  /** A match of `word == RocketAdmin::kind::"id"`, and the text after it. */
  datatype Uid = Uid(kind: string, id: string, rest: string)

  /** The match of  (\w+)::"([^"]+)"  at the start of `named`. */
  function MatchKindAndId(named: string): (m: Option<Uid>)
    ensures m.Some? ==> NoQuote(m.value.id) && m.value.id != "" && |m.value.rest| < |named|
  {
    var kind := TakeWord(named);
    var afterKind := named[|kind|..];
    if kind == "" || !("::\"" <= afterKind) then None
    else
      var quoted := afterKind[3..];
      var id := TakeUnquoted(quoted);
      if id == "" || |id| == |quoted| then None
      else Some(Uid(kind, id, quoted[|id| + 1..]))
  }

  /** The match of  word\s*==\s*RocketAdmin::(\w+)::"([^"]+)"  at the start of `s`. */
  function MatchUid(s: string, word: string): (m: Option<Uid>)
    ensures m.Some? ==> word <= s && NoQuote(m.value.id) && m.value.id != ""
    ensures m.Some? && word != "" ==> |m.value.rest| < |s|
  {
    if !(word <= s) then None
    else
      var afterWord := DropSpaces(s[|word|..]);
      if !("==" <= afterWord) then None
      else
        var afterEquals := DropSpaces(afterWord[2..]);
        if !("RocketAdmin::" <= afterEquals) then None
        else MatchKindAndId(afterEquals[|"RocketAdmin::"|..])
  }

  /** As `MatchUid`, restricted to one kind when `kind` is given. */
  function MatchKind(s: string, word: string, kind: Option<string>): Option<Uid> {
    var m := MatchUid(s, word);
    if m.Some? && kind.Some? && m.value.kind != kind.value then None else m
  }

  /** The leftmost match in `s`. */
  function FirstUid(s: string, word: string, kind: Option<string>): (m: Option<Uid>)
    ensures m.Some? ==> NoQuote(m.value.id) && m.value.id != ""
    ensures m.Some? && word != "" ==> |m.value.rest| < |s|
  {
    if MatchKind(s, word, kind).Some? then MatchKind(s, word, kind)
    else if |s| == 0 then None
    else FirstUid(s[1..], word, kind)
  }

  /** ,\s*(action)\s*,  matches somewhere in `s`. */
  predicate HasBareAction(s: string) {
    |s| > 0 && (BareActionHere(s) || HasBareAction(s[1..]))
  }

  predicate BareActionHere(s: string) {
    && "," <= s
    && var afterComma := DropSpaces(s[1..]);
       "action" <= afterComma && "," <= DropSpaces(afterComma[|"action"|..])
  }

  /** ,\s*(resource)\s*$  matches somewhere in `s`, where $ also matches before a line end. */
  predicate HasBareResource(s: string) {
    |s| > 0 && (BareResourceHere(s) || HasBareResource(s[1..]))
  }

  predicate BareResourceHere(s: string) {
    && "," <= s
    && var afterComma := DropSpaces(s[1..]);
       "resource" <= afterComma && SpacesToLineEnd(afterComma[|"resource"|..])
  }

  /** \s*$  matches at the start of `s`: some run of spaces, possibly empty, stops at a line end. */
  predicate SpacesToLineEnd(s: string) {
    |s| == 0 || IsLineEnd(s[0]) || (IsSpace(s[0]) && SpacesToLineEnd(s[1..]))
  }

  datatype ParsedPermit = ParsedPermit(
    action: Option<string>, resourceType: Option<string>, resourceId: Option<string>, isWildcard: bool)

  function ParsePermitBody(body: string): ParsedPermit {
    var action := FirstUid(body, "action", Some("Action"));
    var resource := FirstUid(body, "resource", None);
    ParsedPermit(
      if action.Some? then Some(action.value.id) else None,
      if resource.Some? then Some("RocketAdmin::" + resource.value.kind) else None,
      if resource.Some? then Some(resource.value.id) else None,
      action.None? && (HasBareAction(body) || (resource.None? && HasBareResource(body))))
  }

  // ----- Rebuilding the permissions -----

  /** The entries collected so far; both lists are in the insertion order of the program's Maps. */
  datatype Collected = Collected(
    connectionLevel: AccessLevel, groupLevel: AccessLevel,
    tables: seq<TablePermission>, dashboards: seq<DashboardPermission>)

  const NOTHING := Collected(NoAccess, NoAccess, [], [])

  function ActionNamed(name: string): Option<Action> {
    if name == "connection:read" then Some(ConnectionRead)
    else if name == "connection:edit" then Some(ConnectionEdit)
    else if name == "group:read" then Some(GroupRead)
    else if name == "group:edit" then Some(GroupEdit)
    else if name == "table:read" then Some(TableRead)
    else if name == "table:add" then Some(TableAdd)
    else if name == "table:edit" then Some(TableEdit)
    else if name == "table:delete" then Some(TableDelete)
    else if name == "dashboard:read" then Some(DashboardRead)
    else if name == "dashboard:create" then Some(DashboardCreate)
    else if name == "dashboard:edit" then Some(DashboardEdit)
    else if name == "dashboard:delete" then Some(DashboardDelete)
    else None
  }

  /** The part of a table's or dashboard's resource id that names it; "" when there is none. */
  function LocalName(resourceId: Option<string>, connectionId: string): string {
    match resourceId
    case None => ""
    case Some(id) =>
      var prefix := connectionId + "/";
      if prefix <= id then id[|prefix|..] else id
  }

  const BLANK_TABLE := TableAccess(false, false, false, false, false)
  const BLANK_DASHBOARD := DashboardAccess(false, false, false, false)

  function WithTableAction(a: TableAccess, action: Action): TableAccess {
    match action
    case TableRead => a.(visibility := true)
    case TableAdd => a.(add := true)
    case TableEdit => a.(edit := true)
    case TableDelete => a.(delete := true)
    case _ => a
  }

  function WithDashboardAction(a: DashboardAccess, action: Action): DashboardAccess {
    match action
    case DashboardRead => a.(read := true)
    case DashboardCreate => a.(create := true)
    case DashboardEdit => a.(edit := true)
    case DashboardDelete => a.(delete := true)
    case _ => a
  }

  /** getOrCreateTableEntry, then applyTableAction. */
  function RecordTable(ts: seq<TablePermission>, name: string, action: Action): seq<TablePermission> {
    if |ts| == 0 then [TablePermission(name, WithTableAction(BLANK_TABLE, action))]
    else if ts[0].tableName == name then [TablePermission(name, WithTableAction(ts[0].access, action))] + ts[1..]
    else [ts[0]] + RecordTable(ts[1..], name, action)
  }

  function RecordDashboard(ds: seq<DashboardPermission>, id: string, action: Action): seq<DashboardPermission> {
    if |ds| == 0 then [DashboardPermission(id, WithDashboardAction(BLANK_DASHBOARD, action))]
    else if ds[0].dashboardId == id then [DashboardPermission(id, WithDashboardAction(ds[0].access, action))] + ds[1..]
    else [ds[0]] + RecordDashboard(ds[1..], id, action)
  }

  function Raise(level: AccessLevel, edit: bool): AccessLevel {
    if edit then Edit else if level == NoAccess then Readonly else level
  }

  /** What one known action on one resource adds. */
  function CollectAction(c: Collected, action: Action, resourceId: Option<string>, connectionId: string): Collected {
    var name := LocalName(resourceId, connectionId);
    match Subject(action)
    case ConnectionType => c.(connectionLevel := Raise(c.connectionLevel, action == ConnectionEdit))
    case GroupType => c.(groupLevel := Raise(c.groupLevel, action == GroupEdit))
    case TableType => if name == "" then c else c.(tables := RecordTable(c.tables, name, action))
    case DashboardType => if name == "" then c else c.(dashboards := RecordDashboard(c.dashboards, name, action))
  }

  function Collect(c: Collected, permit: ParsedPermit, connectionId: string): Collected {
    if permit.isWildcard then c.(connectionLevel := Edit, groupLevel := Edit)
    else if permit.action.None? then c
    else
      match ActionNamed(permit.action.value)
      case None => c
      case Some(action) => CollectAction(c, action, permit.resourceId, connectionId)
  }

  function CollectAll(bodies: seq<string>, connectionId: string): Collected {
    if |bodies| == 0 then NOTHING
    else Collect(CollectAll(bodies[..|bodies| - 1], connectionId), ParsePermitBody(bodies[|bodies| - 1]), connectionId)
  }

  function WithReadonly(t: TablePermission): TablePermission {
    var a := t.access;
    t.(access := a.(readonly := a.visibility && !a.add && !a.edit && !a.delete))
  }

  function AllWithReadonly(ts: seq<TablePermission>): (r: seq<TablePermission>)
    ensures |r| == |ts| && forall i :: 0 <= i < |ts| ==> r[i] == WithReadonly(ts[i])
  {
    seq(|ts|, i requires 0 <= i < |ts| => WithReadonly(ts[i]))
  }

  function Finish(c: Collected, connectionId: string, groupId: string): Permissions {
    Permissions(connectionId, c.connectionLevel, groupId, c.groupLevel, AllWithReadonly(c.tables), Some(c.dashboards))
  }

  function ParsedPermissions(policyText: string, connectionId: string, groupId: string): Permissions {
    Finish(CollectAll(Bodies(policyText, Spans(policyText, 0)), connectionId), connectionId, groupId)
  }

  /** Finds the entry for `name`, or appends a blank one. */
  method GetOrCreateTableEntry(ts: seq<TablePermission>, name: string) returns (r: seq<TablePermission>, k: nat)
    ensures k < |r| && r[k].tableName == name
    ensures forall j :: 0 <= j < k ==> r[j].tableName != name
    ensures if k < |ts| then r == ts else k == |ts| && r == ts + [TablePermission(name, BLANK_TABLE)]
  {
    k := 0;
    while k < |ts|
      invariant k <= |ts|
      invariant forall j :: 0 <= j < k ==> ts[j].tableName != name
    {
      if ts[k].tableName == name {
        return ts, k;
      }
      k := k + 1;
    }
    r := ts + [TablePermission(name, BLANK_TABLE)];
  }

  method GetOrCreateDashboardEntry(ds: seq<DashboardPermission>, id: string) returns (r: seq<DashboardPermission>, k: nat)
    ensures k < |r| && r[k].dashboardId == id
    ensures forall j :: 0 <= j < k ==> r[j].dashboardId != id
    ensures if k < |ds| then r == ds else k == |ds| && r == ds + [DashboardPermission(id, BLANK_DASHBOARD)]
  {
    k := 0;
    while k < |ds|
      invariant k <= |ds|
      invariant forall j :: 0 <= j < k ==> ds[j].dashboardId != id
    {
      if ds[k].dashboardId == id {
        return ds, k;
      }
      k := k + 1;
    }
    r := ds + [DashboardPermission(id, BLANK_DASHBOARD)];
  }

  lemma UpdateTail<T>(r: seq<T>, k: nat, v: T)
    requires 0 < k < |r|
    ensures r[k := v] == [r[0]] + r[1..][k - 1 := v]
  {}

  lemma {:induction false} RecordTableAt(ts: seq<TablePermission>, r: seq<TablePermission>, k: nat, name: string, action: Action)
    requires k < |r| && r[k].tableName == name
    requires forall j :: 0 <= j < k ==> r[j].tableName != name
    requires if k < |ts| then r == ts else k == |ts| && r == ts + [TablePermission(name, BLANK_TABLE)]
    ensures RecordTable(ts, name, action) == r[k := TablePermission(name, WithTableAction(r[k].access, action))]
  {
    hide WithTableAction;
    if k > 0 {
      RecordTableAt(ts[1..], r[1..], k - 1, name, action);
      var updated := TablePermission(name, WithTableAction(r[k].access, action));
      UpdateTail(r, k, updated);
    } else if |ts| > 0 {
      assert r == [ts[0]] + ts[1..];
    }
  }

  lemma {:induction false} RecordDashboardAt(ds: seq<DashboardPermission>, r: seq<DashboardPermission>, k: nat, id: string, action: Action)
    requires k < |r| && r[k].dashboardId == id
    requires forall j :: 0 <= j < k ==> r[j].dashboardId != id
    requires if k < |ds| then r == ds else k == |ds| && r == ds + [DashboardPermission(id, BLANK_DASHBOARD)]
    ensures RecordDashboard(ds, id, action) == r[k := DashboardPermission(id, WithDashboardAction(r[k].access, action))]
  {
    hide WithDashboardAction;
    if k > 0 {
      RecordDashboardAt(ds[1..], r[1..], k - 1, id, action);
      var updated := DashboardPermission(id, WithDashboardAction(r[k].access, action));
      UpdateTail(r, k, updated);
    } else if |ds| > 0 {
      assert r == [ds[0]] + ds[1..];
    }
  }

  /** The body of the parser's loop, for a permit with a known action. */
  method ApplyAction(c: Collected, action: Action, resourceId: Option<string>, connectionId: string) returns (r: Collected)
    ensures r == CollectAction(c, action, resourceId, connectionId)
  {
    r := c;
    match Subject(action) {
      case ConnectionType =>
        if action == ConnectionEdit {
          r := r.(connectionLevel := Edit);
        } else if r.connectionLevel == NoAccess {
          r := r.(connectionLevel := Readonly);
        }
      case GroupType =>
        if action == GroupEdit {
          r := r.(groupLevel := Edit);
        } else if r.groupLevel == NoAccess {
          r := r.(groupLevel := Readonly);
        }
      case TableType =>
        var tableName := LocalName(resourceId, connectionId);
        if tableName != "" {
          var tables, k := GetOrCreateTableEntry(c.tables, tableName);
          RecordTableAt(c.tables, tables, k, tableName, action);
          r := r.(tables := tables[k := TablePermission(tableName, WithTableAction(tables[k].access, action))]);
        }
      case DashboardType =>
        var dashboardId := LocalName(resourceId, connectionId);
        if dashboardId != "" {
          var dashboards, k := GetOrCreateDashboardEntry(c.dashboards, dashboardId);
          RecordDashboardAt(c.dashboards, dashboards, k, dashboardId, action);
          r := r.(dashboards := dashboards[k := DashboardPermission(dashboardId, WithDashboardAction(dashboards[k].access, action))]);
        }
    }
  }

  method ParseCedarPolicyToClassicalPermissions(policyText: string, connectionId: string, groupId: string)
    returns (result: Permissions)
    ensures result == ParsedPermissions(policyText, connectionId, groupId)
  {
    hide ParsePermitBody, ActionNamed, CollectAction;
    var bodies := ExtractPermitStatements(policyText);
    var c := NOTHING;
    for i := 0 to |bodies|
      invariant c == CollectAll(bodies[..i], connectionId)
    {
      assert bodies[..i + 1][..i] == bodies[..i];
      var permit := ParsePermitBody(bodies[i]);
      if permit.isWildcard {
        c := c.(connectionLevel := Edit, groupLevel := Edit);
        continue;
      }
      if permit.action.None? {
        continue;
      }
      var action := ActionNamed(permit.action.value);
      if action.Some? {
        c := ApplyAction(c, action.value, permit.resourceId, connectionId);
      }
    }
    assert bodies[..|bodies|] == bodies;
    var tables := c.tables;
    for i := 0 to |tables|
      invariant |tables| == |c.tables|
      invariant forall j :: 0 <= j < |tables| ==> tables[j] == if j < i then WithReadonly(c.tables[j]) else c.tables[j]
    {
      var a := tables[i].access;
      tables := tables[i := tables[i].(access := a.(readonly := a.visibility && !a.add && !a.edit && !a.delete))];
    }
    assert tables == AllWithReadonly(c.tables);
    result := Permissions(connectionId, c.connectionLevel, groupId, c.groupLevel, tables, Some(c.dashboards));
  }
}
