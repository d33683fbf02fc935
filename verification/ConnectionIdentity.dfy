/** The identifier under which clients, tunnels and schema hashes of a connection are cached. */
module ConnectionIdentity {
  import opened Text
  import opened Json
  import opened MetadataKeys

  function Field(c: Connection, name: string): Option<Scalar> {
    if |c| == 0 then None else if c[0].0 == name then Some(c[0].1) else Field(c[1..], name)
  }

  /** JavaScript's truth of a field; an absent one is false. */
  predicate Truthy(v: Option<Scalar>) {
    v.Some? && match v.value
               case Null => false
               case Bool(b) => b
               case Number(lexeme) => lexeme != "0"
               case Str(t) => t != ""
  }

  /** What counts as no field at all. */
  lemma FalsyExactly(v: Option<Scalar>)
    ensures !Truthy(v) <==> v == None || v.value in [Null, Bool(false), Number("0"), Str("")]
  {
    if v.Some? && v.value.Str? {
      assert Str("") in [Null, Bool(false), Number("0"), Str("")];
    }
  }

  datatype Class = Agent | Test | Tunnelled | Plain

  function ClassOf(c: Connection): Class {
    if Truthy(Field(c, "token")) then Agent
    else if Truthy(Field(c, "isTestConnection")) then Test
    else if Truthy(Field(c, "ssh")) then Tunnelled
    else Plain
  }

  const AGENT_FIELDS := ["id", "token", "signing_key"]
  const TUNNEL_FIELDS := ["id", "signing_key", "type", "username", "database"]
  const PLAIN_FIELDS := ["host", "port", "username", "database", "type"]
  const OPTIONAL_FIELDS := ["schema", "authSource", "sid", "dataCenter"]

  /** The fields an identifier lists, and what it shows for each; an absent field is left out. */
  function FieldsOf(class_: Class): seq<string> {
    match class_
    case Agent => AGENT_FIELDS
    case Tunnelled => TUNNEL_FIELDS
    case _ => PLAIN_FIELDS + OPTIONAL_FIELDS
  }

  function Shown(c: Connection, name: string): Option<Scalar> {
    if ClassOf(c) == Plain && name in OPTIONAL_FIELDS && !Truthy(Field(c, name)) then Some(Null) else Field(c, name)
  }

  function ShownMembers(c: Connection, names: seq<string>): seq<Member> {
    if |names| == 0 then []
    else
      var v := Shown(c, names[0]);
      (if v.Some? then [(names[0], v.value)] else []) + ShownMembers(c, names[1..])
  }

  function HostOf(c: Connection): string {
    match Field(c, "host")
    case Some(Str(host)) => host
    case _ => ""
  }

  /** A test connection is identified by its host alone. */
  function Identifier(c: Connection): string {
    if ClassOf(c) == Test then HostOf(c)
    else ObjectText(ShownMembers(c, FieldsOf(ClassOf(c))))
  }

  lemma {:induction false} FieldWellFormed(c: Connection, name: string)
    requires AllWellFormed(c) && Field(c, name).Some?
    ensures WellFormed(Field(c, name).value)
  {
    if c[0].0 != name {
      FieldWellFormed(c[1..], name);
    }
  }

  lemma {:induction false} ShownWellFormed(c: Connection, names: seq<string>)
    requires AllWellFormed(c)
    ensures AllWellFormed(ShownMembers(c, names))
  {
    if |names| > 0 {
      ShownWellFormed(c, names[1..]);
      if Field(c, names[0]).Some? {
        FieldWellFormed(c, names[0]);
      }
    }
  }

  predicate DistinctNames(names: seq<string>) {
    forall i, j :: 0 <= i < j < |names| ==> names[i] != names[j]
  }

  /** The listed members say, for every name, what is shown for it. */
  lemma {:induction false} ShownField(c: Connection, names: seq<string>, name: string)
    requires DistinctNames(names)
    ensures Field(ShownMembers(c, names), name) == if name in names then Shown(c, name) else None
  {
    if |names| > 0 {
      ShownField(c, names[1..], name);
      var v, rest := Shown(c, names[0]), ShownMembers(c, names[1..]);
      assert v.Some? ==> ([(names[0], v.value)] + rest)[1..] == rest;
      assert v.None? ==> [] + rest == rest;
      assert names == [names[0]] + names[1..];
      if name == names[0] {
        assert name !in names[1..];
      }
    }
  }

  lemma {:induction false} SameShown(c: Connection, d: Connection, names: seq<string>)
    requires forall i :: 0 <= i < |names| ==> Shown(c, names[i]) == Shown(d, names[i])
    ensures ShownMembers(c, names) == ShownMembers(d, names)
  {
    if |names| > 0 {
      SameShown(c, d, names[1..]);
    }
  }

  lemma FieldNames()
    ensures DistinctNames(FieldsOf(Agent)) && DistinctNames(FieldsOf(Tunnelled)) && DistinctNames(FieldsOf(Plain))
    ensures "token" in FieldsOf(Agent) && "token" !in FieldsOf(Tunnelled) && "token" !in FieldsOf(Plain)
    ensures "schema" in FieldsOf(Plain) && "schema" !in FieldsOf(Tunnelled) && "schema" !in FieldsOf(Agent)
  {
    assert |"id"| == 2 && |"sid"| == 3 && |"host"| == 4 && |"port"| == 4 && |"type"| == 4 && |"token"| == 5 && |"schema"| == 6;
    assert |"username"| == 8 && |"database"| == 8 && |"authSource"| == 10 && |"dataCenter"| == 10 && |"signing_key"| == 11;
    assert "host"[0] == 'h' && "port"[0] == 'p' && "type"[0] == 't' && "username"[0] == 'u' && "database"[0] == 'd';
    assert "authSource"[0] == 'a' && "dataCenter"[0] == 'd';
  }

  /** What the identifiers of `c` and `d` must share to be equal: the class and what is shown for each of
      its fields; for two test connections the host; and a test connection is taken for one of another
      class when its host is the very text of that one's identifier. */
  predicate SameIdentity(c: Connection, d: Connection) {
    if ClassOf(c) == Test && ClassOf(d) == Test then HostOf(c) == HostOf(d)
    else if ClassOf(c) == Test then HostOf(c) == Identifier(d)
    else if ClassOf(d) == Test then HostOf(d) == Identifier(c)
    else ClassOf(c) == ClassOf(d) && forall name :: name in FieldsOf(ClassOf(c)) ==> Shown(c, name) == Shown(d, name)
  }

  /** Identifiers agree exactly when this is shared; so agent, tunnelled and plain connections never collide. */
  lemma IdentifierExact(c: Connection, d: Connection)
    requires AllWellFormed(c) && AllWellFormed(d)
    ensures Identifier(c) == Identifier(d) <==> SameIdentity(c, d)
  {
    if ClassOf(c) != Test && ClassOf(d) != Test {
      ListedExact(c, d);
    }
  }

  lemma ListedExact(c: Connection, d: Connection)
    requires AllWellFormed(c) && AllWellFormed(d) && ClassOf(c) != Test && ClassOf(d) != Test
    ensures Identifier(c) == Identifier(d) <==>
            ClassOf(c) == ClassOf(d) && forall name :: name in FieldsOf(ClassOf(c)) ==> Shown(c, name) == Shown(d, name)
  {
    var cs, ds := FieldsOf(ClassOf(c)), FieldsOf(ClassOf(d));
    FieldNames();
    ShownWellFormed(c, cs);
    ShownWellFormed(d, ds);
    ObjectInjective(ShownMembers(c, cs), ShownMembers(d, ds));
    TellsClass(c);
    TellsClass(d);
    hide FieldsOf, Shown, ObjectText, WellFormed, Field;
    if Identifier(c) == Identifier(d) {
      forall name
        ensures (if name in cs then Shown(c, name) else None) == (if name in ds then Shown(d, name) else None)
      {
        ShownField(c, cs, name);
        ShownField(d, ds, name);
      }
      assert (if "token" in cs then Shown(c, "token") else None) == (if "token" in ds then Shown(d, "token") else None);
      assert (if "schema" in cs then Shown(c, "schema") else None) == (if "schema" in ds then Shown(d, "schema") else None);
    } else if ClassOf(c) == ClassOf(d) && forall name :: name in cs ==> Shown(c, name) == Shown(d, name) {
      SameShown(c, d, cs);
    }
  }

  /** A test connection on a host that does not start with a brace is taken for no other class. */
  lemma TestHostIsApart(c: Connection, d: Connection)
    requires ClassOf(c) == Test && ClassOf(d) != Test && (HostOf(c) == "" || HostOf(c)[0] != '{')
    ensures Identifier(c) != Identifier(d)
  {
    assert Identifier(d)[0] == '{';
  }

  /** A token is shown for agents, a schema for plain connections. */
  lemma TellsClass(c: Connection)
    ensures ClassOf(c) == Agent ==> Shown(c, "token").Some?
    ensures ClassOf(c) == Plain ==> Shown(c, "schema").Some?
  {
    assert "schema" in OPTIONAL_FIELDS;
  }

  // ----- The fields, class by class -----

  /** A field that is shown as null when it is absent or falsy. */
  function OrNull(v: Option<Scalar>): Option<Scalar> {
    if Truthy(v) then v else Some(Null)
  }

  /** Agents: a truthy token. */
  predicate IsAgent(c: Connection) {
    Truthy(Field(c, "token"))
  }

  predicate IsTunnelled(c: Connection) {
    !IsAgent(c) && !Truthy(Field(c, "isTestConnection")) && Truthy(Field(c, "ssh"))
  }

  predicate IsPlain(c: Connection) {
    !IsAgent(c) && !Truthy(Field(c, "isTestConnection")) && !Truthy(Field(c, "ssh"))
  }

  predicate Same(c: Connection, d: Connection, name: string) {
    Field(c, name) == Field(d, name)
  }

  /** Outside plain connections, what is shown is the field itself. */
  lemma ShownIsField(c: Connection, name: string)
    ensures !IsPlain(c) && ClassOf(c) != Test ==> Shown(c, name) == Field(c, name)
    ensures IsAgent(c) ==> ClassOf(c) == Agent
    ensures IsTunnelled(c) ==> ClassOf(c) == Tunnelled
    ensures IsPlain(c) ==> ClassOf(c) == Plain
  {}

  predicate AllSame(c: Connection, d: Connection, names: seq<string>) {
    forall i :: 0 <= i < |names| ==> Same(c, d, names[i])
  }

  lemma ListedAreSame(c: Connection, d: Connection, class_: Class)
    requires AllWellFormed(c) && AllWellFormed(d)
    requires (class_ == Agent && IsAgent(c) && IsAgent(d)) || (class_ == Tunnelled && IsTunnelled(c) && IsTunnelled(d))
    ensures Identifier(c) == Identifier(d) <==> AllSame(c, d, FieldsOf(class_))
  {
    var names := FieldsOf(class_);
    ShownIsField(c, "");
    ShownIsField(d, "");
    ListedExact(c, d);
    hide Identifier, Field, FieldsOf, Shown, ClassOf;
    forall i | 0 <= i < |names|
      ensures Shown(c, names[i]) == Shown(d, names[i]) <==> Same(c, d, names[i])
    {
      SameShownField(c, d, names[i]);
    }
  }

  lemma SameShownField(c: Connection, d: Connection, name: string)
    requires !IsPlain(c) && ClassOf(c) != Test && !IsPlain(d) && ClassOf(d) != Test
    ensures Shown(c, name) == Shown(d, name) <==> Same(c, d, name)
  {
    ShownIsField(c, name);
    ShownIsField(d, name);
  }

  lemma AgentsByFields(c: Connection, d: Connection)
    requires AllWellFormed(c) && AllWellFormed(d) && IsAgent(c) && IsAgent(d)
    ensures Identifier(c) == Identifier(d) <==> Same(c, d, "id") && Same(c, d, "token") && Same(c, d, "signing_key")
  {
    ListedAreSame(c, d, Agent);
    var names := FieldsOf(Agent);
    assert names[0] == "id" && names[1] == "token" && names[2] == "signing_key" && |names| == 3;
    hide Identifier, Same, IsAgent, FieldsOf;
  }

  lemma TunnelsByFields(c: Connection, d: Connection)
    requires AllWellFormed(c) && AllWellFormed(d) && IsTunnelled(c) && IsTunnelled(d)
    ensures Identifier(c) == Identifier(d) <==>
            && Same(c, d, "id") && Same(c, d, "signing_key") && Same(c, d, "type")
            && Same(c, d, "username") && Same(c, d, "database")
  {
    ListedAreSame(c, d, Tunnelled);
    hide Identifier, Same, AllSame, IsTunnelled;
    FiveSame(c, d, "id", "signing_key", "type", "username", "database");
  }

  predicate SameOrNull(c: Connection, d: Connection, name: string) {
    OrNull(Field(c, name)) == OrNull(Field(d, name))
  }

  predicate AllSameOrNull(c: Connection, d: Connection, names: seq<string>) {
    forall i :: 0 <= i < |names| ==> SameOrNull(c, d, names[i])
  }

  lemma PlainShown(c: Connection, d: Connection, name: string)
    requires IsPlain(c) && IsPlain(d)
    ensures Shown(c, name) == Shown(d, name) <==> if name in OPTIONAL_FIELDS then SameOrNull(c, d, name) else Same(c, d, name)
  {
    hide OPTIONAL_FIELDS;
  }

  lemma PlainAreNotOptional(i: nat)
    requires i < |PLAIN_FIELDS|
    ensures PLAIN_FIELDS[i] !in OPTIONAL_FIELDS
  {
    FieldNames();
    var all := FieldsOf(Plain);
    assert all == PLAIN_FIELDS + OPTIONAL_FIELDS && all[i] == PLAIN_FIELDS[i];
    hide PLAIN_FIELDS, OPTIONAL_FIELDS, FieldsOf;
    forall j | 0 <= j < |OPTIONAL_FIELDS|
      ensures OPTIONAL_FIELDS[j] != PLAIN_FIELDS[i]
    {
      assert all[|PLAIN_FIELDS| + j] == OPTIONAL_FIELDS[j];
    }
  }

  predicate ShownAgree(c: Connection, d: Connection, names: seq<string>) {
    forall i :: 0 <= i < |names| ==> Shown(c, names[i]) == Shown(d, names[i])
  }

  lemma AgreeConcat(c: Connection, d: Connection, a: seq<string>, b: seq<string>)
    ensures ShownAgree(c, d, a + b) <==> ShownAgree(c, d, a) && ShownAgree(c, d, b)
  {
    hide Shown;
    assert forall i :: 0 <= i < |a| ==> (a + b)[i] == a[i];
    assert forall i :: 0 <= i < |b| ==> (a + b)[|a| + i] == b[i];
  }

  lemma PlainAgree(c: Connection, d: Connection)
    requires AllWellFormed(c) && AllWellFormed(d) && IsPlain(c) && IsPlain(d)
    ensures Identifier(c) == Identifier(d) <==> ShownAgree(c, d, PLAIN_FIELDS) && ShownAgree(c, d, OPTIONAL_FIELDS)
  {
    ShownIsField(c, "");
    ShownIsField(d, "");
    ListedExact(c, d);
    AgreeConcat(c, d, PLAIN_FIELDS, OPTIONAL_FIELDS);
    assert FieldsOf(Plain) == PLAIN_FIELDS + OPTIONAL_FIELDS;
    hide Identifier, Field, FieldsOf, Shown, ClassOf, PLAIN_FIELDS, OPTIONAL_FIELDS, IsPlain;
    assert ShownAgree(c, d, FieldsOf(Plain)) <==> forall name :: name in FieldsOf(Plain) ==> Shown(c, name) == Shown(d, name);
  }

  lemma PlainAreSame(c: Connection, d: Connection)
    requires AllWellFormed(c) && AllWellFormed(d) && IsPlain(c) && IsPlain(d)
    ensures Identifier(c) == Identifier(d) <==> AllSame(c, d, PLAIN_FIELDS) && AllSameOrNull(c, d, OPTIONAL_FIELDS)
  {
    PlainAgree(c, d);
    hide Identifier, Shown, PLAIN_FIELDS, OPTIONAL_FIELDS, Same, SameOrNull, IsPlain;
    forall i | 0 <= i < |PLAIN_FIELDS|
      ensures Shown(c, PLAIN_FIELDS[i]) == Shown(d, PLAIN_FIELDS[i]) <==> Same(c, d, PLAIN_FIELDS[i])
    {
      PlainAreNotOptional(i);
      PlainShown(c, d, PLAIN_FIELDS[i]);
    }
    forall i | 0 <= i < |OPTIONAL_FIELDS|
      ensures Shown(c, OPTIONAL_FIELDS[i]) == Shown(d, OPTIONAL_FIELDS[i]) <==> SameOrNull(c, d, OPTIONAL_FIELDS[i])
    {
      PlainShown(c, d, OPTIONAL_FIELDS[i]);
    }
  }

  lemma FiveSame(c: Connection, d: Connection, n0: string, n1: string, n2: string, n3: string, n4: string)
    ensures AllSame(c, d, [n0, n1, n2, n3, n4]) <==> Same(c, d, n0) && Same(c, d, n1) && Same(c, d, n2) && Same(c, d, n3) && Same(c, d, n4)
  {
    hide Same;
    var names := [n0, n1, n2, n3, n4];
    assert names[0] == n0 && names[1] == n1 && names[2] == n2 && names[3] == n3 && names[4] == n4;
  }

  lemma FourSameOrNull(c: Connection, d: Connection, n0: string, n1: string, n2: string, n3: string)
    ensures AllSameOrNull(c, d, [n0, n1, n2, n3]) <==>
            SameOrNull(c, d, n0) && SameOrNull(c, d, n1) && SameOrNull(c, d, n2) && SameOrNull(c, d, n3)
  {
    hide SameOrNull;
    var names := [n0, n1, n2, n3];
    assert names[0] == n0 && names[1] == n1 && names[2] == n2 && names[3] == n3;
  }

  lemma PlainByFields(c: Connection, d: Connection)
    requires AllWellFormed(c) && AllWellFormed(d) && IsPlain(c) && IsPlain(d)
    ensures Identifier(c) == Identifier(d) <==>
            && Same(c, d, "host") && Same(c, d, "port") && Same(c, d, "username") && Same(c, d, "database") && Same(c, d, "type")
            && SameOrNull(c, d, "schema") && SameOrNull(c, d, "authSource") && SameOrNull(c, d, "sid") && SameOrNull(c, d, "dataCenter")
  {
    PlainAreSame(c, d);
    hide Identifier, Same, SameOrNull, AllSame, AllSameOrNull, IsPlain;
    FiveSame(c, d, "host", "port", "username", "database", "type");
    FourSameOrNull(c, d, "schema", "authSource", "sid", "dataCenter");
  }

  predicate IsTest(c: Connection) {
    !IsAgent(c) && Truthy(Field(c, "isTestConnection")) && Field(c, "host").Some? && Field(c, "host").value.Str?
  }

  lemma TestsByHost(c: Connection, d: Connection)
    requires IsTest(c) && IsTest(d)
    ensures Identifier(c) == Identifier(d) <==> Same(c, d, "host")
  {
    hide Field, Truthy;
  }

  // ----- What identifiers do not see -----

  lemma {:induction false} OtherFieldsStay(c: Connection, k: nat, v: Scalar, name: string)
    requires k < |c| && c[k].0 != name
    ensures Field(c[k := (c[k].0, v)], name) == Field(c, name)
  {
    var d := c[k := (c[k].0, v)];
    if k > 0 {
      OtherFieldsStay(c[1..], k - 1, v, name);
      assert d[1..] == c[1..][k - 1 := (c[k].0, v)];
    } else {
      assert d[1..] == c[1..];
    }
  }

  /** The fields that identifiers are made of, or that decide a connection's class. */
  const IDENTIFYING := AGENT_FIELDS + TUNNEL_FIELDS + PLAIN_FIELDS + OPTIONAL_FIELDS + ["isTestConnection", "ssh"]

  /** Changing any other field, such as the password, changes a connection but not its identifier. */
  lemma UnlistedFieldIsUnseen(c: Connection, k: nat, v: Scalar)
    requires k < |c| && c[k].0 !in IDENTIFYING
    ensures Identifier(c[k := (c[k].0, v)]) == Identifier(c)
  {
    var d, field := c[k := (c[k].0, v)], c[k].0;
    IdentifyingNames();
    forall name | name in IDENTIFYING
      ensures Field(d, name) == Field(c, name)
    {
      OtherFieldsStay(c, k, v, name);
    }
    hide IDENTIFYING, Field;
    forall name | name in IDENTIFYING
      ensures Shown(d, name) == Shown(c, name)
    {}
    var names := FieldsOf(ClassOf(c));
    forall i | 0 <= i < |names|
      ensures Shown(d, names[i]) == Shown(c, names[i])
    {
      assert names[i] in FieldsOf(ClassOf(c));
    }
    hide Shown, FieldsOf;
    SameShown(d, c, names);
  }

  lemma IdentifyingNames()
    ensures "token" in IDENTIFYING && "isTestConnection" in IDENTIFYING && "ssh" in IDENTIFYING && "host" in IDENTIFYING
    ensures forall class_, name :: name in FieldsOf(class_) ==> name in IDENTIFYING
  {
    assert "token" in AGENT_FIELDS && "host" in PLAIN_FIELDS;
    assert "isTestConnection" in ["isTestConnection", "ssh"] && "ssh" in ["isTestConnection", "ssh"];
    hide AGENT_FIELDS, TUNNEL_FIELDS, PLAIN_FIELDS, OPTIONAL_FIELDS;
  }

  /** Two connections to one host that differ in their password only. */
  function WithPassword(password: string): Connection {
    [("host", Str("h")), ("password", Str(password))]
  }

  lemma PasswordIsUnseen(x: string, y: string)
    ensures Identifier(WithPassword(x)) == Identifier(WithPassword(y))
    ensures x != y ==> WithPassword(x) != WithPassword(y)
    ensures AllWellFormed(WithPassword(x))
  {
    var c := WithPassword(x);
    PasswordIsUnlisted();
    assert c[1] == ("password", Str(x));
    assert WithPassword(y) == c[1 := ("password", Str(y))];
    hide IDENTIFYING, Identifier;
    UnlistedFieldIsUnseen(c, 1, Str(y));
    assert WithPassword(x)[1] != WithPassword(y)[1] <== x != y;
  }

  lemma PasswordIsUnlisted()
    ensures "password" !in IDENTIFYING
  {
    assert |"password"| == 8 && |"username"| == |"database"| == 8 && "password"[0] == 'p' && "username"[0] == 'u' && "database"[0] == 'd';
    assert |"id"| == 2 && |"sid"| == |"ssh"| == 3 && |"host"| == |"port"| == |"type"| == 4 && |"token"| == 5 && |"schema"| == 6;
    assert |"authSource"| == |"dataCenter"| == 10 && |"signing_key"| == 11 && |"isTestConnection"| == 16;
  }
}
