/** Saving a policy text: the checks on what it refers to, and the three views of a printed policy. */
module PolicySaving {
  import opened Text
  import opened CedarPolicy
  import opened PolicyGenerator
  import opened PolicyScanner
  import opened PolicyParser
  import opened PolicyReading
  import opened PrintedPolicies
  import opened PolicyRoundTrip
  import opened PolicyStability
  import opened CedarEngine
  import opened Authorization

  // ----- The reference check -----

  /** All matches of  resource\s*==\s*RocketAdmin::kind::"([^"]+)"  in `s`, from left to right. */
  function References(s: string, kind: string): seq<string>
    decreases |s|
  {
    match FirstUid(s, RESOURCE, Some(kind))
    case None => []
    case Some(m) => [m.id] + References(m.rest, kind)
  }

  datatype SaveError = EmptyPolicy | InvalidPolicy | GroupNotFound | GroupNotFromThisConnection | CannotChangeAdminGroup
                     | ForeignConnection | ForeignGroup

  datatype Saved = Saved(cedarPolicy: string, classical: Permissions) | Refused(error: SaveError)

  predicate SomeOther(ids: seq<string>, connectionId: string) {
    exists i :: 0 <= i < |ids| && ids[i] != connectionId
  }

  predicate SomeUnknown(ids: seq<string>, groupIds: set<string>) {
    exists i :: 0 <= i < |ids| && ids[i] !in groupIds
  }

  predicate SomeOutside(ids: seq<string>, connectionId: string) {
    exists i :: 0 <= i < |ids| && !(connectionId + "/" <= ids[i])
  }

  /** The first problem with what a text refers to, if any. */
  function ReferenceError(text: string, connectionId: string, groupIds: set<string>): Option<SaveError> {
    if SomeOther(References(text, "Connection"), connectionId) then Some(ForeignConnection)
    else if SomeUnknown(References(text, "Group"), groupIds) then Some(ForeignGroup)
    else if SomeOutside(References(text, "Table"), connectionId) then Some(ForeignConnection)
    else if SomeOutside(References(text, "Dashboard"), connectionId) then Some(ForeignConnection)
    else None
  }

  method ValidatePolicyReferences(text: string, connectionId: string, groupIds: set<string>) returns (error: Option<SaveError>)
    ensures error == ReferenceError(text, connectionId, groupIds)
  {
    hide References;
    var connectionIds := References(text, "Connection");
    for i := 0 to |connectionIds|
      invariant forall j :: 0 <= j < i ==> connectionIds[j] == connectionId
    {
      if connectionIds[i] != connectionId {
        return Some(ForeignConnection);
      }
    }
    var groupResourceIds := References(text, "Group");
    if |groupResourceIds| > 0 {
      for i := 0 to |groupResourceIds|
        invariant forall j :: 0 <= j < i ==> groupResourceIds[j] in groupIds
      {
        if groupResourceIds[i] !in groupIds {
          return Some(ForeignGroup);
        }
      }
    }
    var tableIds := References(text, "Table");
    for i := 0 to |tableIds|
      invariant forall j :: 0 <= j < i ==> connectionId + "/" <= tableIds[j]
    {
      if !(connectionId + "/" <= tableIds[i]) {
        return Some(ForeignConnection);
      }
    }
    var dashboardIds := References(text, "Dashboard");
    for i := 0 to |dashboardIds|
      invariant forall j :: 0 <= j < i ==> connectionId + "/" <= dashboardIds[j]
    {
      if !(connectionId + "/" <= dashboardIds[i]) {
        return Some(ForeignConnection);
      }
    }
    error := None;
  }

  // ----- Saving -----

  class GroupEntity {
    const id: string
    const connectionId: Option<string>
    const isMain: bool
    var cedarPolicy: string

    constructor (id: string, connectionId: Option<string>, isMain: bool, cedarPolicy: string)
      ensures this.id == id && this.connectionId == connectionId && this.isMain == isMain && this.cedarPolicy == cedarPolicy
    {
      this.id, this.connectionId, this.isMain, this.cedarPolicy := id, connectionId, isMain, cedarPolicy;
    }
  }

  /** What saving `text` for a group answers; `throws` is whether trying the text in the Cedar engine throws. */
  function SaveOutcome(group: Option<(Option<string>, bool)>, groupIds: set<string>, connectionId: string, groupId: string,
                       text: string, throws: bool): Saved
  {
    if forall i :: 0 <= i < |text| ==> IsSpace(text[i]) then Refused(EmptyPolicy)
    else if throws then Refused(InvalidPolicy)
    else if group.None? then Refused(GroupNotFound)
    else if group.value.0 != Some(connectionId) then Refused(GroupNotFromThisConnection)
    else if group.value.1 then Refused(CannotChangeAdminGroup)
    else
      match ReferenceError(text, connectionId, groupIds)
      case Some(e) => Refused(e)
      case None => Saved(text, ParsedPermissions(text, connectionId, groupId))
  }

  method ValidateCedarPolicyText(text: string, throws: bool) returns (error: Option<SaveError>)
    ensures error == if forall i :: 0 <= i < |text| ==> IsSpace(text[i]) then Some(EmptyPolicy)
                     else if throws then Some(InvalidPolicy) else None
  {
    var blank := forall i :: 0 <= i < |text| ==> IsSpace(text[i]);
    if blank {
      return Some(EmptyPolicy);
    }
    error := if throws then Some(InvalidPolicy) else None;
  }

  /** The stored policy changes, and the connection's cached policies are invalidated, exactly when the
      text is accepted; the stored policy is then the text itself. */
  method SaveCedarPolicy(group: GroupEntity?, groupIds: set<string>, connectionId: string, groupId: string, text: string, throws: bool)
    returns (r: Saved, invalidated: seq<string>)
    modifies group
    ensures r == SaveOutcome(if group == null then None else Some((group.connectionId, group.isMain)), groupIds, connectionId, groupId, text, throws)
    ensures group != null ==> group.cedarPolicy == if r.Saved? then text else old(group.cedarPolicy)
    ensures invalidated == if r.Saved? then [connectionId] else []
  {
    hide ReferenceError, ParsedPermissions;
    invalidated := [];
    var problem := ValidateCedarPolicyText(text, throws);
    if problem.Some? {
      return Refused(problem.value), [];
    }
    if group == null {
      return Refused(GroupNotFound), [];
    }
    if group.connectionId != Some(connectionId) {
      return Refused(GroupNotFromThisConnection), [];
    }
    if group.isMain {
      return Refused(CannotChangeAdminGroup), [];
    }
    var error := ValidatePolicyReferences(text, connectionId, groupIds);
    if error.Some? {
      return Refused(error.value), [];
    }
    var classicalPermissions := ParseCedarPolicyToClassicalPermissions(text, connectionId, groupId);
    group.cedarPolicy := text;
    invalidated := [connectionId];
    r := Saved(text, classicalPermissions);
  }

  // ----- References of printed text -----

  /** No match can start in `u` and reach past its end, whatever follows the quote after `u`. */
  predicate Inert(u: string) {
    NoQuote(u) && (u != "" ==> u[|u| - 1] != ':')
  }

  /** `u` is what is left of `s` after reading a part without quotes. */
  predicate Reads(s: string, u: string) {
    |u| <= |s| && s[|s| - |u|..] == u && NoQuote(s[..|s| - |u|])
  }

  lemma ReadsTrans(s: string, u: string, v: string)
    requires Reads(s, u) && Reads(u, v)
    ensures Reads(s, v)
  {
    var a, b := |s| - |u|, |u| - |v|;
    assert s[..a + b] == s[..a] + u[..b];
    assert s[a + b..] == u[b..];
  }

  lemma ReadsTail(s: string, k: nat)
    requires k <= |s| && NoQuote(s[..k])
    ensures Reads(s, s[k..])
  {}

  lemma {:induction false} DropSpacesReads(s: string)
    ensures Reads(s, DropSpaces(s))
  {
    if |s| > 0 && IsSpace(s[0]) {
      DropSpacesReads(s[1..]);
      ReadsTail(s, 1);
      ReadsTrans(s, s[1..], DropSpaces(s));
    }
  }

  lemma WordNoQuote(w: string)
    requires forall i :: 0 <= i < |w| ==> IsWordChar(w[i])
    ensures NoQuote(w)
  {}

  lemma NamedReads(named: string) returns (afterKind: string)
    requires MatchKindAndId(named).Some?
    ensures Reads(named, afterKind) && "::\"" <= afterKind
  {
    var kind := TakeWord(named);
    afterKind := named[|kind|..];
    assert named[..|kind|] == kind;
    WordNoQuote(kind);
    ReadsTail(named, |kind|);
  }

  /** A match reads up to the first quote, which a ':' precedes. */
  lemma MatchReads(s: string, word: string) returns (afterKind: string)
    requires MatchUid(s, word).Some? && NoQuote(word)
    ensures Reads(s, afterKind) && "::\"" <= afterKind
  {
    hide MatchKindAndId, Reads;
    var afterWord := DropSpaces(s[|word|..]);
    var afterEquals := DropSpaces(afterWord[2..]);
    var n := |"RocketAdmin::"|;
    var named := afterEquals[n..];
    afterKind := NamedReads(named);
    assert s[..|word|] == word;
    assert afterWord[..2] == "==" && NoQuote("==");
    assert afterEquals[..n] == "RocketAdmin::" && NoQuote("RocketAdmin::");
    hide *;
    ReadsTail(s, |word|);
    DropSpacesReads(s[|word|..]);
    ReadsTrans(s, s[|word|..], afterWord);
    ReadsTail(afterWord, 2);
    ReadsTrans(s, afterWord, afterWord[2..]);
    DropSpacesReads(afterWord[2..]);
    ReadsTrans(s, afterWord[2..], afterEquals);
    ReadsTail(afterEquals, n);
    ReadsTrans(s, afterEquals, named);
    ReadsTrans(s, named, afterKind);
  }

  lemma FirstQuoteAfterColon(u: string, rest: string, k: nat)
    requires NoQuote(u) && k + 2 < |u + ("\"" + rest)|
    requires var s := u + ("\"" + rest); NoQuote(s[..k]) && s[k] != '\"' && s[k + 1] == ':' && s[k + 2] == '\"'
    ensures u != "" && u[|u| - 1] == ':'
  {
    var s := u + ("\"" + rest);
    assert s[|u|] == '\"';
    forall i | 0 <= i < k
      ensures s[i] != '\"'
    {
      assert s[..k][i] == s[i];
    }
    forall i | 0 <= i < |u|
      ensures s[i] == u[i] != '\"'
    {}
    assert |u| == k + 2;
  }

  lemma NoMatchBeforeQuote(u: string, rest: string, word: string)
    requires Inert(u) && word != "" && NoQuote(word)
    ensures MatchUid(u + ("\"" + rest), word).None?
  {
    var s := u + ("\"" + rest);
    hide MatchUid;
    if MatchUid(s, word).Some? {
      var afterKind := MatchReads(s, word);
      var k := |s| - |afterKind|;
      assert s[k..] == afterKind && afterKind[0] == "::\""[0] && afterKind[1] == "::\""[1] && afterKind[2] == "::\""[2];
      assert s[k] == ':' && s[k + 1] == ':' && s[k + 2] == '\"';
      FirstQuoteAfterColon(u, rest, k);
      assert false;
    }
  }

  lemma InertTail(u: string)
    requires Inert(u) && u != ""
    ensures Inert(u[1..])
  {}

  lemma FirstStep(c: string, rest: string, kind: Option<string>)
    requires |c| == 1 && MatchUid(c + rest, RESOURCE).None?
    ensures FirstUid(c + rest, RESOURCE, kind) == FirstUid(rest, RESOURCE, kind)
  {
    hide MatchUid, RESOURCE;
    PrefixDrop(c, rest);
  }

  lemma {:induction false} SkipInert(u: string, rest: string, kind: Option<string>)
    requires Inert(u)
    ensures FirstUid(u + ("\"" + rest), RESOURCE, kind) == FirstUid(rest, RESOURCE, kind)
  {
    var q := "\"" + rest;
    assert NoQuote(RESOURCE) && RESOURCE != "";
    hide MatchUid, RESOURCE, FirstUid;
    NoMatchBeforeQuote(u, rest, RESOURCE);
    if u == "" {
      assert u + q == q;
      FirstStep("\"", rest, kind);
    } else {
      InertTail(u);
      SkipInert(u[1..], rest, kind);
      assert u == u[..1] + u[1..];
      Assoc(u[..1], u[1..], q);
      FirstStep(u[..1], u[1..] + q, kind);
    }
  }

  // ----- Walking over one statement -----

  /** The ids that a statement's reference of kind `kind` contributes. */
  function ReferenceOf(s: Statement, kind: ResourceType): seq<string> {
    if s.Permit? && s.kind == kind then [s.id] else []
  }

  function ReferencesOf(ss: seq<Statement>, kind: ResourceType): seq<string> {
    if |ss| == 0 then [] else ReferenceOf(ss[0], kind) + ReferencesOf(ss[1..], kind)
  }

  predicate Referable(s: Statement) {
    s.Permit? && s.id != "" && Inert(s.id)
  }

  lemma OpenAvoids(a: Action)
    ensures Avoids(OPEN + (PRINCIPAL + UidClause(ACTION, "Action", ActionName(a)) + COMMA), RESOURCE)
  {
    assert Avoids(OPEN, RESOURCE);
    ActionClauseAvoids(a);
    AvoidsConcat(OPEN, PRINCIPAL + UidClause(ACTION, "Action", ActionName(a)) + COMMA, RESOURCE);
  }

  function ClauseTail(t: ResourceType): string {
    "esource" + " == " + "RocketAdmin::" + TypeName(t) + "::\""
  }

  lemma ClauseTailAvoids(t: ResourceType)
    ensures Avoids(ClauseTail(t), RESOURCE)
  {
    var name := TypeName(t);
    TypeNameAvoids(t);
    assert Avoids("esource", RESOURCE) && Avoids(" == ", RESOURCE) && Avoids("RocketAdmin::", RESOURCE) && |RESOURCE| >= 3;
    hide TypeName, RESOURCE, Avoids;
    AvoidsConcat("esource", " == ", RESOURCE);
    AvoidsConcat("esource" + " == ", "RocketAdmin::", RESOURCE);
    AvoidsConcat("esource" + " == " + "RocketAdmin::", name + "::\"", RESOURCE);
    assert "esource" + " == " + "RocketAdmin::" + (name + "::\"") == ClauseTail(t);
  }

  lemma ClauseDropFirst(name: string, id: string)
    ensures RESOURCE == "r" + "esource"
    ensures (RESOURCE + " == " + "RocketAdmin::" + name + "::\"" + id + "\"")[1..] ==
            ("esource" + " == " + "RocketAdmin::" + name + "::\"") + (id + "\"")
  {
    var w, r := "esource", "RocketAdmin::";
    assert RESOURCE == "r" + w;
    hide RESOURCE;
    assert ("r" + w) + " == " + r + name + "::\"" + id + "\"" == "r" + ((w + " == " + r + name + "::\"") + (id + "\""));
  }

  lemma TypeNameAvoids(t: ResourceType)
    ensures Avoids(TypeName(t) + "::\"", RESOURCE)
  {}

  lemma ClauseTailIs(t: ResourceType, id: string, tail: string)
    ensures UidClause(RESOURCE, TypeName(t), id) + tail != ""
    ensures (UidClause(RESOURCE, TypeName(t), id) + tail)[1..] == ClauseTail(t) + (id + ("\"" + tail))
  {
    ClauseDropFirst(TypeName(t), id);
    hide TypeName, RESOURCE;
    var clause := UidClause(RESOURCE, TypeName(t), id);
    assert clause[1..] == ClauseTail(t) + (id + "\"");
    hide ClauseTail, UidClause;
    assert (clause + tail)[1..] == clause[1..] + tail;
  }

  lemma KindDiffers(t: ResourceType, kind: ResourceType, id: string, tail: string)
    requires t != kind && id != "" && NoQuote(id)
    ensures MatchKind(UidClause(RESOURCE, TypeName(t), id) + tail, RESOURCE, Some(TypeName(kind))).None?
  {
    TypeNameFacts(t);
    TypeNamesDiffer(t, kind);
    assert RESOURCE != "";
    hide TypeName, RESOURCE, UidClause, MatchUid, IsWord, NoQuote;
    ReadClause(RESOURCE, TypeName(t), id, tail);
  }

  /** Past a clause of another kind, nothing of it matches. */
  lemma SkipClause(t: ResourceType, kind: ResourceType, id: string, tail: string)
    requires t != kind && id != "" && Inert(id)
    ensures FirstUid(UidClause(RESOURCE, TypeName(t), id) + tail, RESOURCE, Some(TypeName(kind))) ==
            FirstUid(tail, RESOURCE, Some(TypeName(kind)))
  {
    var s, k := UidClause(RESOURCE, TypeName(t), id) + tail, Some(TypeName(kind));
    assert |RESOURCE| >= 3;
    hide MatchUid, MatchKind, TypeName, RESOURCE, Avoids, ClauseTail, UidClause, NoQuote;
    KindDiffers(t, kind, id, tail);
    ClauseTailAvoids(t);
    ClauseTailIs(t, id, tail);
    SkipTo(ClauseTail(t), id + ("\"" + tail), RESOURCE, k);
    SkipInert(id, tail, k);
  }

  lemma SameFirst(s: string, t: string, kind: string)
    requires FirstUid(s, RESOURCE, Some(kind)) == FirstUid(t, RESOURCE, Some(kind))
    ensures References(s, kind) == References(t, kind)
  {}

  function Front(a: Action): string {
    OPEN + (PRINCIPAL + UidClause(ACTION, "Action", ActionName(a)) + COMMA)
  }

  lemma StatementFront(a: Action, t: ResourceType, id: string, rest: string)
    ensures StatementText(Permit(a, t, id)) + rest ==
            Front(a) + (UidClause(RESOURCE, TypeName(t), id) + ("\n" + CLOSE + rest))
  {
    var c1, c2 := UidClause(ACTION, "Action", ActionName(a)), UidClause(RESOURCE, TypeName(t), id);
    assert Body(Permit(a, t, id)) == PRINCIPAL + c1 + COMMA + c2 + "\n";
    hide Body, UidClause, OPEN, CLOSE, PRINCIPAL, COMMA, ActionName, TypeName;
    var u := PRINCIPAL + c1 + COMMA;
    Assoc(u, c2, "\n");
    Assoc(OPEN, u, c2 + "\n");
    Assoc(OPEN + u, c2 + "\n", CLOSE);
    Assoc(OPEN + u, (c2 + "\n") + CLOSE, rest);
    Assoc(c2, "\n", CLOSE);
    Assoc(c2, "\n" + CLOSE, rest);
  }

  lemma SkipFront(a: Action, rest: string, kind: ResourceType)
    ensures FirstUid(Front(a) + rest, RESOURCE, Some(TypeName(kind))) == FirstUid(rest, RESOURCE, Some(TypeName(kind)))
  {
    assert |RESOURCE| >= 3;
    OpenAvoids(a);
    hide RESOURCE, TypeName, MatchUid, MatchKind, Avoids;
    SkipTo(Front(a), rest, RESOURCE, Some(TypeName(kind)));
  }

  /** In text that is walked like a clause of kind `t` and a tail, the clause counts for its own kind only. */
  lemma ReferClause(s: string, t: ResourceType, kind: ResourceType, id: string, tail: string)
    requires id != "" && Inert(id)
    requires var k := Some(TypeName(kind)); FirstUid(s, RESOURCE, k) == FirstUid(UidClause(RESOURCE, TypeName(t), id) + tail, RESOURCE, k)
    ensures References(s, TypeName(kind)) == (if t == kind then [id] else []) + References(tail, TypeName(kind))
  {
    hide UidClause, RESOURCE, TypeName, FirstUid, References, Inert;
    if t == kind {
      ClauseIsFirst(t, id, tail);
      ReferencesFound(s, TypeName(kind), id, tail);
    } else {
      SkipClause(t, kind, id, tail);
      SameFirst(s, tail, TypeName(kind));
      assert [] + References(tail, TypeName(kind)) == References(tail, TypeName(kind));
    }
  }

  /** One printed statement refers to its own resource only, whatever text follows. */
  lemma ReferStatement(s: Statement, kind: ResourceType, rest: string)
    requires Referable(s)
    ensures References(StatementText(s) + rest, TypeName(kind)) == ReferenceOf(s, kind) + References(rest, TypeName(kind))
  {
    var a, t, id := s.action, s.kind, s.id;
    var clause, tail := UidClause(RESOURCE, TypeName(t), id), "\n" + CLOSE + rest;
    assert ReferenceOf(s, kind) == if t == kind then [id] else [];
    hide *;
    StatementFront(a, t, id, rest);
    SkipFront(a, clause + tail, kind);
    ReferTail(rest, TypeName(kind));
    ReferClause(StatementText(s) + rest, t, kind, id, tail);
  }

  lemma ReferTail(rest: string, kind: string)
    ensures References("\n" + CLOSE + rest, kind) == References(rest, kind)
  {
    assert Avoids("\n" + CLOSE, RESOURCE) && |RESOURCE| >= 3;
    hide RESOURCE, CLOSE, MatchUid, Avoids;
    SkipTo("\n" + CLOSE, rest, RESOURCE, Some(kind));
    SameFirst("\n" + CLOSE + rest, rest, kind);
  }

  lemma ClauseIsFirst(t: ResourceType, id: string, tail: string)
    requires id != "" && Inert(id)
    ensures FirstUid(UidClause(RESOURCE, TypeName(t), id) + tail, RESOURCE, Some(TypeName(t))) == Some(Uid(TypeName(t), id, tail))
  {
    TypeNameFacts(t);
    assert RESOURCE != "";
    hide TypeName, RESOURCE, UidClause, MatchUid, IsWord, NoQuote;
    ReadClause(RESOURCE, TypeName(t), id, tail);
    FirstIsHere(UidClause(RESOURCE, TypeName(t), id) + tail, RESOURCE, Some(TypeName(t)));
  }

  lemma ReferencesFound(s: string, kind: string, id: string, tail: string)
    requires FirstUid(s, RESOURCE, Some(kind)).Some? && FirstUid(s, RESOURCE, Some(kind)).value == Uid(kind, id, tail)
    ensures References(s, kind) == [id] + References(tail, kind)
  {}

  /** A printed text refers, kind by kind and in order, to the resources of its statements. */
  lemma {:induction false} ReferPrinted(ss: seq<Statement>, kind: ResourceType)
    requires forall i :: 0 <= i < |ss| ==> Referable(ss[i])
    ensures References(PolicyText(ss), TypeName(kind)) == ReferencesOf(ss, kind)
    decreases |ss|
  {
    var name := TypeName(kind);
    hide StatementText, Referable, ReferenceOf, TypeName, RESOURCE, MatchUid;
    if ss == [] {
      assert References("", name) == [] by {
        NoReferences(name);
      }
    } else {
      var s, more := ss[0], ss[1..];
      assert ss == [s] + more;
      PolicyTextCons(s, more);
      ReferPrinted(more, kind);
      assert more == [] ==> PolicyText(more) == "";
      hide *;
      var rest := if more == [] then "" else SEPARATOR + PolicyText(more);
      assert PolicyText(ss) == StatementText(s) + rest by {
        if more == [] {
          assert StatementText(s) + "" == StatementText(s);
        } else {
          assert StatementText(s) + SEPARATOR + PolicyText(more) == StatementText(s) + (SEPARATOR + PolicyText(more));
        }
      }
      ReferStatement(s, kind, rest);
      ReferSeparated(PolicyText(more), name);
      ReferencesOfCons(ss, kind);
    }
  }

  lemma NoReferences(kind: string)
    ensures References("", kind) == []
  {
    assert RESOURCE != "";
    hide RESOURCE;
    assert MatchUid("", RESOURCE).None?;
  }

  lemma ReferSeparated(s: string, kind: string)
    ensures References(SEPARATOR + s, kind) == References(s, kind)
  {
    assert Avoids(SEPARATOR, RESOURCE) && |RESOURCE| >= 3;
    hide RESOURCE, SEPARATOR, MatchUid, Avoids;
    SkipTo(SEPARATOR, s, RESOURCE, Some(kind));
    SameFirst(SEPARATOR + s, s, kind);
  }

  lemma ReferencesOfCons(ss: seq<Statement>, kind: ResourceType)
    requires ss != []
    ensures ReferencesOf(ss, kind) == ReferenceOf(ss[0], kind) + ReferencesOf(ss[1..], kind)
  {}

  // ----- Printed policies can be saved -----

  lemma {:induction false} ReferencesOfIn(ss: seq<Statement>, kind: ResourceType, id: string)
    ensures id in ReferencesOf(ss, kind) <==> exists s :: s in ss && s.Permit? && s.kind == kind && s.id == id
  {
    if ss != [] {
      ReferencesOfIn(ss[1..], kind, id);
      assert ss == [ss[0]] + ss[1..];
    }
  }

  lemma GrantedPlace(connectionId: string, p: Permissions, a: Action, id: string)
    requires Granted(connectionId, p, a, id)
    ensures match Subject(a)
            case ConnectionType => id == connectionId
            case GroupType => id == p.groupId && p.groupLevel in {Readonly, Edit}
            case _ => connectionId + "/" <= id
  {
    hide TableAllows, DashboardAllows, AnyRead, AnyCreate, NEW_DASHBOARD;
  }

  /** Where a printed policy's references point. */
  lemma ReferencePlace(connectionId: string, p: Permissions, kind: ResourceType, id: string)
    requires id in ReferencesOf(Grants(connectionId, false, p), kind)
    ensures match kind
            case ConnectionType => id == connectionId
            case GroupType => id == p.groupId && p.groupLevel in {Readonly, Edit}
            case _ => connectionId + "/" <= id
  {
    var ss := Grants(connectionId, false, p);
    ReferencesOfIn(ss, kind, id);
    hide Grants, ReferencesOf, Granted;
    var s :| s in ss && s.Permit? && s.kind == kind && s.id == id;
    GrantsMeanPermissions(connectionId, p, s);
    GrantedPlace(connectionId, p, s.action, id);
  }

  lemma GroupReferred(connectionId: string, p: Permissions)
    requires p.groupLevel in {Readonly, Edit}
    ensures p.groupId in ReferencesOf(Grants(connectionId, false, p), GroupType)
  {
    var s := Permit(GroupRead, GroupType, p.groupId);
    assert Granted(connectionId, p, GroupRead, p.groupId);
    hide Grants, ReferencesOf, Granted;
    GrantsMeanPermissions(connectionId, p, s);
    ReferencesOfIn(Grants(connectionId, false, p), GroupType, p.groupId);
  }

  /** A printed policy passes the reference check of its own connection exactly when its group belongs
      to the connection, if it refers to the group at all. */
  lemma PrintedReferences(connectionId: string, p: Permissions, groupIds: set<string>)
    requires var ss := Grants(connectionId, false, p); forall i :: 0 <= i < |ss| ==> Referable(ss[i])
    ensures ReferenceError(PolicyText(Grants(connectionId, false, p)), connectionId, groupIds) ==
            if p.groupLevel in {Readonly, Edit} && p.groupId !in groupIds then Some(ForeignGroup) else None
  {
    var ss := Grants(connectionId, false, p);
    var text := PolicyText(ss);
    TypeNames();
    if p.groupLevel in {Readonly, Edit} {
      GroupReferred(connectionId, p);
    }
    hide *;
    ReferPrinted(ss, ConnectionType);
    ReferPrinted(ss, GroupType);
    ReferPrinted(ss, TableType);
    ReferPrinted(ss, DashboardType);
    forall kind, id | id in ReferencesOf(ss, kind)
      ensures kind == ConnectionType ==> id == connectionId
      ensures kind == GroupType ==> id == p.groupId && p.groupLevel in {Readonly, Edit}
      ensures kind == TableType || kind == DashboardType ==> connectionId + "/" <= id
    {
      ReferencePlace(connectionId, p, kind, id);
    }
    ErrorByReferences(text, connectionId, groupIds, p.groupId);
  }

  lemma TypeNames()
    ensures TypeName(ConnectionType) == "Connection" && TypeName(GroupType) == "Group"
    ensures TypeName(TableType) == "Table" && TypeName(DashboardType) == "Dashboard"
  {}

  /** Only a foreign group can be wrong with a text whose other references are its connection's. */
  lemma ErrorByReferences(text: string, connectionId: string, groupIds: set<string>, groupId: string)
    requires forall id :: id in References(text, TypeName(ConnectionType)) ==> id == connectionId
    requires forall id :: id in References(text, TypeName(GroupType)) ==> id == groupId
    requires forall id :: id in References(text, TypeName(TableType)) ==> connectionId + "/" <= id
    requires forall id :: id in References(text, TypeName(DashboardType)) ==> connectionId + "/" <= id
    ensures ReferenceError(text, connectionId, groupIds) ==
            if groupId in References(text, TypeName(GroupType)) && groupId !in groupIds then Some(ForeignGroup) else None
  {
    TypeNames();
    hide FirstUid, TypeName;
    var groups := References(text, "Group");
    assert forall i :: 0 <= i < |groups| ==> groups[i] in groups;
    assert forall i :: 0 <= i < |References(text, "Connection")| ==> References(text, "Connection")[i] in References(text, "Connection");
    assert forall i :: 0 <= i < |References(text, "Table")| ==> References(text, "Table")[i] in References(text, "Table");
    assert forall i :: 0 <= i < |References(text, "Dashboard")| ==> References(text, "Dashboard")[i] in References(text, "Dashboard");
    if groupId in groups {
      var i :| 0 <= i < |groups| && groups[i] == groupId;
      assert References(text, "Group")[i] == groupId;
    }
  }

  /** What becomes of a printed policy: an empty one is refused, as is one that the engine throws on, or
      that names a group of another connection; every other one is saved unchanged, and read back as its normal form. */
  lemma PrintedIsSaved(connectionId: string, p: Permissions, groupIds: set<string>, throws: bool)
    requires var ss := Grants(connectionId, false, p); AllReadable(ss) && forall i :: 0 <= i < |ss| ==> Referable(ss[i])
    ensures var text := PolicyText(Grants(connectionId, false, p));
            SaveOutcome(Some((Some(connectionId), false)), groupIds, connectionId, p.groupId, text, throws) ==
            if Grants(connectionId, false, p) == [] then Refused(EmptyPolicy)
            else if throws then Refused(InvalidPolicy)
            else if p.groupLevel in {Readonly, Edit} && p.groupId !in groupIds then Refused(ForeignGroup)
            else Saved(text, Normal(connectionId, p.groupId, p))
  {
    PrintedReferences(connectionId, p, groupIds);
    RoundTrip(connectionId, p.groupId, p);
    NotBlank(Grants(connectionId, false, p));
    hide Grants, PolicyText, ReferenceError, ParsedPermissions, Normal, IsSpace, Readable, Referable;
  }

  lemma NotBlank(ss: seq<Statement>)
    ensures var text := PolicyText(ss); if ss == [] then text == "" else text != "" && !IsSpace(text[0])
  {
    if ss != [] {
      assert ss == [ss[0]] + ss[1..];
      PolicyTextCons(ss[0], ss[1..]);
      assert OPEN[0] == 'p';
      hide Body, PolicyText;
      assert StatementText(ss[0])[0] == 'p';
    }
  }

  // ----- What is refused -----

  /** `ss` refers to a connection other than `connectionId`. */
  predicate NamesForeignConnection(ss: seq<Statement>, connectionId: string) {
    exists s :: s in ss && s.Permit? && s.kind == ConnectionType && s.id != connectionId
  }

  /** `ss` refers to a group that is not one of `groupIds`. */
  predicate NamesForeignGroup(ss: seq<Statement>, groupIds: set<string>) {
    exists s :: s in ss && s.Permit? && s.kind == GroupType && s.id !in groupIds
  }

  /** `ss` refers to a table or a dashboard that is not one of `connectionId`. */
  predicate NamesForeignResource(ss: seq<Statement>, kind: ResourceType, connectionId: string) {
    exists s :: s in ss && s.Permit? && s.kind == kind && !(connectionId + "/" <= s.id)
  }

  predicate AllReferable(ss: seq<Statement>) {
    forall i :: 0 <= i < |ss| ==> Referable(ss[i])
  }

  /** Some reference of a kind is bad exactly when some printed statement of that kind has a bad id. */
  lemma SomeReference(ss: seq<Statement>, kind: ResourceType, bad: string -> bool)
    requires AllReferable(ss)
    ensures var ids := References(PolicyText(ss), TypeName(kind));
            (exists i :: 0 <= i < |ids| && bad(ids[i])) <==> exists s :: s in ss && s.Permit? && s.kind == kind && bad(s.id)
  {
    ReferPrinted(ss, kind);
    hide *;
    var ids := ReferencesOf(ss, kind);
    if i :| 0 <= i < |ids| && bad(ids[i]) {
      ReferencesOfIn(ss, kind, ids[i]);
    }
    if s :| s in ss && s.Permit? && s.kind == kind && bad(s.id) {
      ReferencesOfIn(ss, kind, s.id);
      var i :| 0 <= i < |ids| && ids[i] == s.id;
      assert bad(ids[i]);
    }
  }

  lemma ConnectionReferences(ss: seq<Statement>, connectionId: string)
    requires AllReferable(ss)
    ensures SomeOther(References(PolicyText(ss), TypeName(ConnectionType)), connectionId) <==> NamesForeignConnection(ss, connectionId)
  {
    hide PolicyText, TypeName, AllReferable, FirstUid;
    SomeReference(ss, ConnectionType, id => id != connectionId);
  }

  lemma GroupReferences(ss: seq<Statement>, groupIds: set<string>)
    requires AllReferable(ss)
    ensures SomeUnknown(References(PolicyText(ss), TypeName(GroupType)), groupIds) <==> NamesForeignGroup(ss, groupIds)
  {
    hide PolicyText, TypeName, AllReferable, FirstUid;
    SomeReference(ss, GroupType, id => id !in groupIds);
  }

  lemma ResourceReferences(ss: seq<Statement>, kind: ResourceType, connectionId: string)
    requires AllReferable(ss)
    ensures SomeOutside(References(PolicyText(ss), TypeName(kind)), connectionId) <==> NamesForeignResource(ss, kind, connectionId)
  {
    hide PolicyText, TypeName, AllReferable, FirstUid;
    SomeReference(ss, kind, id => !(connectionId + "/" <= id));
  }

  /** What the reference check says of any printed statements: the first kind of foreign reference they hold,
      connections before groups before tables and dashboards. */
  lemma StatementsReferenced(ss: seq<Statement>, connectionId: string, groupIds: set<string>)
    requires AllReferable(ss)
    ensures ReferenceError(PolicyText(ss), connectionId, groupIds) ==
            if NamesForeignConnection(ss, connectionId) then Some(ForeignConnection)
            else if NamesForeignGroup(ss, groupIds) then Some(ForeignGroup)
            else if NamesForeignResource(ss, TableType, connectionId) || NamesForeignResource(ss, DashboardType, connectionId)
            then Some(ForeignConnection)
            else None
  {
    ConnectionReferences(ss, connectionId);
    GroupReferences(ss, groupIds);
    ResourceReferences(ss, TableType, connectionId);
    ResourceReferences(ss, DashboardType, connectionId);
    TypeNames();
    hide PolicyText, TypeName, AllReferable, NamesForeignConnection, NamesForeignGroup, NamesForeignResource;
    hide SomeOther, SomeUnknown, SomeOutside, FirstUid;
  }

  /** Saving any printed statements for a group of the connection: accepted as they are exactly when every
      connection, group, table and dashboard they name is one of the connection's own. */
  lemma StatementsSaved(ss: seq<Statement>, connectionId: string, groupId: string, groupIds: set<string>)
    requires ss != [] && AllReferable(ss)
    ensures var text := PolicyText(ss);
            SaveOutcome(Some((Some(connectionId), false)), groupIds, connectionId, groupId, text, false) ==
            if NamesForeignConnection(ss, connectionId) then Refused(ForeignConnection)
            else if NamesForeignGroup(ss, groupIds) then Refused(ForeignGroup)
            else if NamesForeignResource(ss, TableType, connectionId) || NamesForeignResource(ss, DashboardType, connectionId)
            then Refused(ForeignConnection)
            else Saved(text, ParsedPermissions(text, connectionId, groupId))
  {
    StatementsReferenced(ss, connectionId, groupIds);
    NotBlank(ss);
    hide PolicyText, ReferenceError, ParsedPermissions, IsSpace, AllReferable, NamesForeignConnection, NamesForeignGroup, NamesForeignResource;
  }

  /** In particular, the policy of another connection is refused as soon as it refers to that connection. */
  lemma OtherConnectionIsRefused(connectionId: string, other: string, p: Permissions, groupId: string, groupIds: set<string>)
    requires other != connectionId && p.connectionLevel in {Readonly, Edit}
    requires AllReferable(Grants(other, false, p))
    ensures SaveOutcome(Some((Some(connectionId), false)), groupIds, connectionId, groupId, PolicyText(Grants(other, false, p)), false) ==
            Refused(ForeignConnection)
  {
    var ss, s := Grants(other, false, p), Permit(ConnectionRead, ConnectionType, other);
    GrantsMeanPermissions(other, p, s);
    assert Granted(other, p, ConnectionRead, other);
    hide Grants, Granted, AllReferable, PolicyText, SaveOutcome;
    assert NamesForeignConnection(ss, connectionId);
    StatementsSaved(ss, connectionId, groupId, groupIds);
  }

  /** What is saved, and which refusal comes first: a blank text, one that the engine throws on, a group that does
      not exist, belongs elsewhere or is the main one, and only then a foreign reference. */
  lemma SavedExactly(group: Option<(Option<string>, bool)>, groupIds: set<string>, connectionId: string, groupId: string,
                     text: string, throws: bool)
    ensures var r, blank := SaveOutcome(group, groupIds, connectionId, groupId, text, throws), !exists i :: 0 <= i < |text| && !IsSpace(text[i]);
            && (r.Saved? <==>
                  !blank && !throws && group == Some((Some(connectionId), false)) && ReferenceError(text, connectionId, groupIds).None?)
            && (r.Saved? ==> r == Saved(text, ParsedPermissions(text, connectionId, groupId)))
            && (r == Refused(EmptyPolicy) <==> blank)
            && (r == Refused(InvalidPolicy) <==> !blank && throws)
            && (r == Refused(GroupNotFound) <==> !blank && !throws && group == None)
            && (r == Refused(GroupNotFromThisConnection) <==> !blank && !throws && group.Some? && group.value.0 != Some(connectionId))
            && (r == Refused(CannotChangeAdminGroup) <==> !blank && !throws && group == Some((Some(connectionId), true)))
  {
    hide References, ParsedPermissions, IsSpace, SomeOther, SomeUnknown, SomeOutside;
  }

  // ----- Three views of one printed policy -----

  lemma FlagsAreMerged(connectionId: string, p: Permissions, name: string)
    requires AllQuotable(Grants(connectionId, false, p))
    ensures TableFlags([PolicyText(Grants(connectionId, false, p))], connectionId, name) == MergedTable(p.tables, name)
  {
    var text, id := PolicyText(Grants(connectionId, false, p)), connectionId + "/" + name;
    hide Grants, PolicyText, AllQuotable, Allows, SomeTable, TablesAllow;
    assert id[|connectionId| + 1..] == name;
    forall a | Subject(a) == TableType
      ensures SomeAllows([text], Query(a, TableType, id)) <==> SomeTable(p.tables, name, a)
    {
      var q := Query(a, TableType, id);
      QueryIsGranted(connectionId, p, q);
      TablesAllowPath(connectionId, p.tables, a, id);
      SomeTableImpliesRead(p.tables, name, a);
      assert SomeAllows([text], q) <==> Allows(text, q) by {
        assert [text][0] == text;
      }
    }
    SomeTableImpliesRead(p.tables, name, TableAdd);
    SomeTableImpliesRead(p.tables, name, TableEdit);
    SomeTableImpliesRead(p.tables, name, TableDelete);
    hide SomeAllows;
  }

  /** For every named table, evaluating the printed text gives the flags that parsing it recovers;
      a table is missing from the parsed list exactly when it is not visible. */
  lemma ThreeViews(connectionId: string, groupId: string, p: Permissions, name: string)
    requires AllReadable(Grants(connectionId, false, p)) && AllQuotable(Grants(connectionId, false, p)) && name != ""
    ensures var text := PolicyText(Grants(connectionId, false, p));
            var parsed, flags := ParsedPermissions(text, connectionId, groupId).tables, TableFlags([text], connectionId, name);
            && (forall t :: t in parsed && t.tableName == name ==> t == flags)
            && ((exists t :: t in parsed && t.tableName == name) <==> flags.access.visibility)
  {
    var names := Distinct(VisibleTables(p.tables));
    RoundTrip(connectionId, groupId, p);
    FlagsAreMerged(connectionId, p, name);
    VisibleTablesNamed(p.tables);
    MergedNames(p.tables, names);
    assert MergedTable(p.tables, name).access.visibility <==> SomeTable(p.tables, name, TableRead);
    hide Grants, PolicyText, ParsedPermissions, TableFlags, MergedTable, VisibleTables, Distinct, SomeTable;
    var normal := NormalTables(p.tables);
    if name in names {
      var k :| 0 <= k < |names| && names[k] == name;
      assert normal[k] in normal;
    }
  }

  /** A printed policy says nothing about tables and dashboards of another connection. */
  lemma NoForeignAccess(connectionId: string, other: string, p: Permissions, a: Action, name: string)
    requires AllQuotable(Grants(connectionId, false, p)) && Subject(a) in {TableType, DashboardType}
    requires '/' !in connectionId && '/' !in other && other != connectionId
    ensures !Allows(PolicyText(Grants(connectionId, false, p)), Query(a, Subject(a), other + "/" + name))
  {
    var q := Query(a, Subject(a), other + "/" + name);
    QueryIsGranted(connectionId, p, q);
    hide Grants, PolicyText, Allows, Granted;
    if Granted(connectionId, p, a, q.id) {
      GrantedPlace(connectionId, p, a, q.id);
      SlashPrefix(connectionId, other, name);
    }
  }

  lemma SlashPrefix(a: string, b: string, name: string)
    requires '/' !in a && '/' !in b && a + "/" <= b + "/" + name
    ensures a == b
  {
    var s := b + "/" + name;
    assert s[|a|] == (a + "/")[|a|] == '/';
    assert s[|b|] == '/';
    assert forall i :: 0 <= i < |a| ==> s[i] == a[i] && a[i] in a;
    assert |a| <= |b|;
    assert forall i :: 0 <= i < |b| ==> s[i] == b[i] && b[i] in b;
    assert a == s[..|a|] && b == s[..|b|];
  }
}
