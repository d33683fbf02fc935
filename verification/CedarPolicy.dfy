/** Classical permissions, the Cedar statements that express them, and their printed text. */
module CedarPolicy {
  import opened Text

  datatype AccessLevel = Readonly | Edit | Visibility | Add | Delete | NoAccess

  datatype TableAccess = TableAccess(visibility: bool, readonly: bool, add: bool, delete: bool, edit: bool)

  datatype TablePermission = TablePermission(tableName: string, access: TableAccess)

  datatype DashboardAccess = DashboardAccess(read: bool, create: bool, edit: bool, delete: bool)

  datatype DashboardPermission = DashboardPermission(dashboardId: string, access: DashboardAccess)

  /** A group's permissions in one connection; `dashboards` is optional in the program. */
  datatype Permissions = Permissions(
    connectionId: string, connectionLevel: AccessLevel,
    groupId: string, groupLevel: AccessLevel,
    tables: seq<TablePermission>,
    dashboards: Option<seq<DashboardPermission>>)

  datatype Action =
    | ConnectionRead | ConnectionEdit | GroupRead | GroupEdit
    | TableRead | TableAdd | TableEdit | TableDelete
    | DashboardRead | DashboardCreate | DashboardEdit | DashboardDelete

  datatype ResourceType = ConnectionType | GroupType | TableType | DashboardType

  const NEW_DASHBOARD := "__new__"

  function ActionName(a: Action): string {
    match a
    case ConnectionRead => "connection:read"
    case ConnectionEdit => "connection:edit"
    case GroupRead => "group:read"
    case GroupEdit => "group:edit"
    case TableRead => "table:read"
    case TableAdd => "table:add"
    case TableEdit => "table:edit"
    case TableDelete => "table:delete"
    case DashboardRead => "dashboard:read"
    case DashboardCreate => "dashboard:create"
    case DashboardEdit => "dashboard:edit"
    case DashboardDelete => "dashboard:delete"
  }

  function TypeName(t: ResourceType): string {
    match t
    case ConnectionType => "Connection"
    case GroupType => "Group"
    case TableType => "Table"
    case DashboardType => "Dashboard"
  }

  /** The type of resource that an action is about: the part of its name before ':'. */
  function Subject(a: Action): ResourceType {
    match a
    case ConnectionRead | ConnectionEdit => ConnectionType
    case GroupRead | GroupEdit => GroupType
    case TableRead | TableAdd | TableEdit | TableDelete => TableType
    case DashboardRead | DashboardCreate | DashboardEdit | DashboardDelete => DashboardType
  }

  /** A permit statement: for everything, or for one action on one resource. */
  datatype Statement = PermitAll | Permit(action: Action, kind: ResourceType, id: string)

  // ----- Printed text -----

  const OPEN := "permit("
  const CLOSE := ");"
  const PRINCIPAL := "\n  principal,\n  "
  const COMMA := ",\n  "

  /** `word == RocketAdmin::kind::"id"` */
  function UidClause(word: string, kind: string, id: string): string {
    word + " == " + "RocketAdmin::" + kind + "::\"" + id + "\""
  }

  /** What a printed statement has between its outer parentheses. */
  function Body(s: Statement): string {
    match s
    case PermitAll => PRINCIPAL + "action" + COMMA + "resource" + "\n"
    case Permit(a, t, id) =>
      PRINCIPAL + UidClause("action", "Action", ActionName(a)) + COMMA + UidClause("resource", TypeName(t), id) + "\n"
  }

  function StatementText(s: Statement): string {
    OPEN + Body(s) + CLOSE
  }

  function Texts(ss: seq<Statement>): (ts: seq<string>)
    ensures |ts| == |ss| && forall i :: 0 <= i < |ss| ==> ts[i] == StatementText(ss[i])
  {
    seq(|ss|, i requires 0 <= i < |ss| => StatementText(ss[i]))
  }

  const SEPARATOR := "\n\n"

  function PolicyText(ss: seq<Statement>): string {
    Join(Texts(ss), SEPARATOR)
  }

  lemma PolicyTextCons(s: Statement, rest: seq<Statement>)
    ensures PolicyText([s] + rest) ==
            if rest == [] then StatementText(s) else StatementText(s) + SEPARATOR + PolicyText(rest)
  {
    assert Texts([s] + rest)[1..] == Texts(rest);
  }
}
