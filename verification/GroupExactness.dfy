/** For which group ids a policy about the group alone survives printing and parsing. Its id is never
    read back, so balanced parentheses are not the only way. */
module GroupExactness {
  import opened Text
  import opened CedarPolicy
  import opened PolicyGenerator
  import opened PolicyScanner
  import opened PolicyParser
  import opened PolicyReading
  import opened PrintedPolicies
  import opened PolicyRoundTrip
  import opened PolicyStability

  /** Permissions that only let the group itself be read. */
  function OneGroup(connectionId: string, groupId: string): Permissions {
    Permissions(connectionId, NoAccess, groupId, Readonly, [], None)
  }

  /** The id itself ends the statement it is printed in: its first unmatched ')' is followed by ';'. */
  predicate EndsStatement(id: string) {
    var close := CloseFrom(id, 0, 1);
    close < |id| && var semicolon := SkipBlanks(id, close + 1); semicolon < |id| && id[semicolon] == ';'
  }

  predicate NoPermit(s: string) {
    forall i {:trigger StartsAt(s, i, PERMIT)} :: 0 <= i < |s| ==> !StartsAt(s, i, PERMIT)
  }

  // ----- Scanning inside a longer text -----

  lemma {:induction false} CloseShift(s: string, base: nat, u: string, j: nat, d: nat)
    requires base + |u| <= |s| && s[base..base + |u|] == u && j <= |u| && d > 0
    ensures CloseFrom(u, j, d) < |u| ==> CloseFrom(s, base + j, d) == base + CloseFrom(u, j, d)
    decreases |u| - j
  {
    if j < |u| {
      assert u[j] == s[base + j];
      if d + Nesting(u[j]) > 0 {
        CloseShift(s, base, u, j + 1, d + Nesting(u[j]));
      }
    }
  }

  lemma {:induction false} BlanksShift(s: string, base: nat, u: string, j: nat)
    requires base + |u| < |s| && s[base..base + |u|] == u && j <= |u| && !IsBlank(s[base + |u|])
    ensures SkipBlanks(s, base + j) == base + SkipBlanks(u, j)
    decreases |u| - j
  {
    if j < |u| {
      assert u[j] == s[base + j];
      if IsBlank(u[j]) {
        BlanksShift(s, base, u, j + 1);
      }
    }
  }

  lemma NothingFrom(s: string, from: nat)
    requires from <= |s| && forall i :: from <= i < |s| ==> !StartsAt(s, i, PERMIT)
    ensures Spans(s, from) == []
  {
    hide StartsAt;
    SpansUnfold(s, from);
  }

  // ----- The printed statement -----

  /** The statement's text, and where its id starts. */
  function GroupText(id: string): string {
    StatementText(Permit(GroupRead, GroupType, id))
  }

  const BEFORE := BeforeId(GroupRead, GroupType)

  function IdStart(): (at: nat)
    ensures at >= 7
  {
    7 + |BEFORE|
  }

  lemma GroupLayout(id: string)
    ensures var t, at := GroupText(id), IdStart();
            && |t| == at + |id| + 4 && StartsAt(t, 0, PERMIT) && t[6] == '('
            && t[7..at] == BEFORE && t[at..at + |id|] == id
            && t[at + |id|] == '\"' && t[at + |id| + 1] == '\n' && t[at + |id| + 2] == ')' && t[at + |id| + 3] == ';'
            && t[..7] == OPEN
  {
    BeforeIdFacts(GroupRead, GroupType, id);
    var body := BEFORE + id + "\"\n";
    assert GroupText(id) == OPEN + body + CLOSE;
    assert |OPEN| == 7 && |CLOSE| == 2 && OPEN[6] == '(' && OPEN[..6] == PERMIT && CLOSE[0] == ')' && CLOSE[1] == ';';
    hide GroupText, BEFORE, OPEN, CLOSE, PERMIT;
    LayoutOf(OPEN, BEFORE, id, CLOSE);
  }

  lemma LayoutOf(o: string, b: string, id: string, c: string)
    requires |o| == 7 && |c| == 2
    ensures var t, at := o + (b + id + "\"\n") + c, 7 + |b|;
            && |t| == at + |id| + 4 && t[..7] == o && t[..6] == o[..6] && t[6] == o[6] && t[7..at] == b && t[at..at + |id|] == id
            && t[at + |id|] == '\"' && t[at + |id| + 1] == '\n' && t[at + |id| + 2] == c[0] && t[at + |id| + 3] == c[1]
  {
    var t := o + (b + id + "\"\n") + c;
    assert t == o + (b + (id + ("\"\n" + c)));
  }

  lemma BeforeAvoids()
    ensures Avoids(BEFORE, PERMIT) && BEFORE != "" && BEFORE[|BEFORE| - 1] == '\"' && NoParens(BEFORE)
  {
    var action := ActionName(GroupRead);
    assert action == "group:read" && TypeName(GroupType) == "Group";
    BeforeIdFacts(GroupRead, GroupType, "");
    assert |PERMIT| == 6 && Avoids(PRINCIPAL, PERMIT) && Avoids(ACTION, PERMIT) && Avoids(" == ", PERMIT) && Avoids("RocketAdmin::", PERMIT);
    assert Avoids("Action", PERMIT) && Avoids("::\"", PERMIT) && Avoids("group:read", PERMIT) && Avoids("\"", PERMIT);
    assert Avoids(COMMA, PERMIT) && Avoids(RESOURCE, PERMIT) && Avoids("Group::\"", PERMIT);
    assert BEFORE == PRINCIPAL + UidClause(ACTION, "Action", "group:read") + COMMA + (RESOURCE + " == " + "RocketAdmin::" + "Group::\"");
    hide PRINCIPAL, COMMA, ACTION, RESOURCE, PERMIT, Avoids, ActionName, TypeName, BEFORE, NoParens;
    var name := "group:read";
    AvoidsConcat(ACTION, " == ", PERMIT);
    AvoidsConcat(ACTION + " == ", "RocketAdmin::", PERMIT);
    AvoidsConcat(ACTION + " == " + "RocketAdmin::", "Action", PERMIT);
    AvoidsConcat(ACTION + " == " + "RocketAdmin::" + "Action", "::\"", PERMIT);
    AvoidsConcat(ACTION + " == " + "RocketAdmin::" + "Action" + "::\"", name, PERMIT);
    AvoidsConcat(ACTION + " == " + "RocketAdmin::" + "Action" + "::\"" + name, "\"", PERMIT);
    AvoidsConcat(PRINCIPAL, UidClause(ACTION, "Action", name), PERMIT);
    AvoidsConcat(PRINCIPAL + UidClause(ACTION, "Action", name), COMMA, PERMIT);
    AvoidsConcat(RESOURCE, " == ", PERMIT);
    AvoidsConcat(RESOURCE + " == ", "RocketAdmin::", PERMIT);
    AvoidsConcat(RESOURCE + " == " + "RocketAdmin::", "Group::\"", PERMIT);
    AvoidsConcat(PRINCIPAL + UidClause(ACTION, "Action", name) + COMMA, RESOURCE + " == " + "RocketAdmin::" + "Group::\"", PERMIT);
  }

  lemma PermitAt(t: string, i: nat)
    requires StartsAt(t, i, PERMIT)
    ensures i + 6 <= |t| && t[i] == 'p' && t[i + 1] == 'e' && t[i + 2] == 'r'
    ensures forall j :: i <= j < i + 6 ==> t[j] != '\"'
  {
    var w := t[i..i + |PERMIT|];
    assert |PERMIT| == 6 && PERMIT[0] == 'p' && PERMIT[1] == 'e' && PERMIT[2] == 'r';
    assert forall j :: 0 <= j < 6 ==> PERMIT[j] != '\"';
    assert w == PERMIT;
    assert forall j :: 0 <= j < 6 ==> w[j] == t[i + j];
    assert forall j :: i <= j < i + 6 ==> t[j] == w[j - i];
  }

  lemma NotInBefore(t: string, at: nat, b: string, i: nat)
    requires at + |b| <= |t| && t[at..at + |b|] == b && Avoids(b, PERMIT) && at <= i < at + |b|
    ensures !StartsAt(t, i, PERMIT)
  {
    var k := i - at;
    assert b[k] == t[i];
    assert k + 2 < |b| ==> b[k + 1] == t[i + 1] && b[k + 2] == t[i + 2];
    assert |PERMIT| == 6 && PERMIT[0] == 'p' && PERMIT[1] == 'e' && PERMIT[2] == 'r';
    hide StartsAt, PERMIT;
    if StartsAt(t, i, PERMIT) {
      PermitAt(t, i);
    }
  }

  lemma FitsBefore(t: string, i: nat, e: nat)
    requires StartsAt(t, i, PERMIT) && i < e < |t| && t[e] == '\"'
    ensures i + 6 <= e
  {
    hide StartsAt, PERMIT;
    PermitAt(t, i);
  }

  lemma SliceOf(t: string, at: nat, n: nat, k: nat)
    requires at + n <= |t| && k + 6 <= n
    ensures t[at..at + n][k..k + 6] == t[at + k..at + k + 6]
  {
    var u, v := t[at..at + n][k..k + 6], t[at + k..at + k + 6];
    forall x | 0 <= x < 6
      ensures u[x] == v[x]
    {
      assert u[x] == t[at..at + n][k + x] == t[at + (k + x)];
    }
  }

  lemma InIdOnly(t: string, at: nat, id: string, i: nat)
    requires at + |id| < |t| && t[at..at + |id|] == id && t[at + |id|] == '\"' && at <= i < at + |id|
    ensures StartsAt(t, i, PERMIT) ==> StartsAt(id, i - at, PERMIT)
  {
    var k := i - at;
    assert |PERMIT| == 6;
    if StartsAt(t, i, PERMIT) {
      FitsBefore(t, i, at + |id|);
      SliceOf(t, at, |id|, k);
    }
  }

  lemma NotP(t: string, i: nat)
    requires i < |t| && t[i] != 'p'
    ensures !StartsAt(t, i, PERMIT)
  {
    hide StartsAt;
    if StartsAt(t, i, PERMIT) {
      PermitAt(t, i);
    }
  }

  lemma OpeningP(k: nat)
    requires 0 < k < 7
    ensures |OPEN| == 7 && OPEN[k] != 'p'
  {}

  /** Without the word in the id, the statement holds `permit` only at its start. */
  lemma OnlyPermit(id: string, i: nat)
    requires NoPermit(id) && 0 < i < |GroupText(id)|
    ensures !StartsAt(GroupText(id), i, PERMIT)
  {
    var t, at := GroupText(id), IdStart();
    GroupLayout(id);
    BeforeAvoids();
    hide GroupText, BEFORE, OPEN, PERMIT, NoParens, StartsAt, Avoids;
    if i < 7 {
      OpeningP(i);
      assert t[i] == t[..7][i];
      NotP(t, i);
    } else if i < at {
      NotInBefore(t, 7, BEFORE, i);
    } else if i < at + |id| {
      InIdOnly(t, at, id, i);
      assert !StartsAt(id, i - at, PERMIT);
    } else {
      NotP(t, i);
    }
  }

  // ----- Where the statement closes -----

  lemma CloseAtId(id: string)
    ensures CloseFrom(GroupText(id), 7, 1) == CloseFrom(GroupText(id), IdStart(), 1)
  {
    var t, at := GroupText(id), IdStart();
    GroupLayout(id);
    BeforeAvoids();
    hide GroupText, BEFORE, Avoids;
    forall k | 7 <= k <= at
      ensures DepthAt(t, 7, 1, k) == 1
    {
      assert t[7..k] == BEFORE[..k - 7];
      NetNoParens(t[7..k]);
    }
    CloseSkips(t, 7, 1, at);
  }

  /** An id with an unmatched ')' closes its statement there. */
  lemma ClosesInside(id: string)
    requires CloseFrom(id, 0, 1) < |id|
    ensures CloseFrom(GroupText(id), 7, 1) == IdStart() + CloseFrom(id, 0, 1)
  {
    CloseAtId(id);
    GroupLayout(id);
    hide GroupText, BEFORE;
    CloseShift(GroupText(id), IdStart(), id, 0, 1);
  }

  lemma OpenToTheEnd(t: string, e: nat, d: nat)
    requires e + 4 == |t| && t[e] == '\"' && t[e + 1] == '\n' && t[e + 2] == ')' && t[e + 3] == ';' && d >= 2
    ensures CloseFrom(t, e, d) == |t|
  {
    assert CloseFrom(t, e, d) == CloseFrom(t, e + 1, d) == CloseFrom(t, e + 2, d);
    assert CloseFrom(t, e + 2, d) == CloseFrom(t, e + 3, d - 1) == CloseFrom(t, e + 4, d - 1);
  }

  lemma DeepInId(t: string, at: nat, id: string)
    requires at + |id| <= |t| && t[at..at + |id|] == id && CloseFrom(id, 0, 1) == |id|
    ensures forall m :: at <= m <= at + |id| ==> DepthAt(t, at, 1, m) > 0
    ensures DepthAt(t, at, 1, at + |id|) == 1 + Net(id)
    ensures !Balanced(id) ==> Net(id) > 0
  {
    CloseMatches(id, 0, 1);
    hide CloseFrom, Net;
    forall k | 0 <= k <= |id|
      ensures t[at..at + k] == id[..k] == id[0..k] && Net(id[..k]) >= 0
    {
      assert DepthAt(id, 0, 1, k) > 0;
    }
    assert id[..|id|] == id;
    forall m | at <= m <= at + |id|
      ensures DepthAt(t, at, 1, m) > 0
    {
      assert t[at..m] == id[..m - at];
    }
  }

  /** An id with an unmatched '(' leaves its statement open. */
  lemma StaysOpen(id: string)
    requires CloseFrom(id, 0, 1) == |id| && !Balanced(id)
    ensures CloseFrom(GroupText(id), 7, 1) == |GroupText(id)|
  {
    var t, at := GroupText(id), IdStart();
    CloseAtId(id);
    GroupLayout(id);
    hide GroupText, BEFORE, IdStart, PERMIT, OPEN, CloseFrom, Balanced, Net, DepthAt, StartsAt;
    DeepInId(t, at, id);
    CloseSkips(t, at, 1, at + |id|);
    OpenToTheEnd(t, at + |id|, 1 + Net(id));
  }

  // ----- What the scan reports -----

  lemma NothingAfter(id: string, from: nat)
    requires NoPermit(id) && 0 < from <= |GroupText(id)|
    ensures Spans(GroupText(id), from) == []
  {
    var t := GroupText(id);
    forall i | from <= i < |t|
      ensures !StartsAt(t, i, PERMIT)
    {
      OnlyPermit(id, i);
    }
    hide GroupText, Spans, StartsAt;
    NothingFrom(t, from);
  }

  lemma FirstRound(id: string)
    ensures var t := GroupText(id);
            var close := CloseFrom(t, 7, 1);
            Round(t, 0) ==
            if close == |t| then Skip(7)
            else
              var semicolon := SkipBlanks(t, close + 1);
              if semicolon < |t| && t[semicolon] == ';' then Found(Span(0, 6, close, semicolon)) else Skip(close + 1)
  {
    GroupLayout(id);
    hide GroupText, BEFORE, CloseFrom;
    var t := GroupText(id);
    assert FindFrom(t, 0, PERMIT) == 0 && |PERMIT| == 6;
    assert SkipBlanks(t, 6) == 6;
  }

  lemma OpenIdSpans(id: string)
    requires NoPermit(id) && CloseFrom(id, 0, 1) == |id| && !Balanced(id)
    ensures Spans(GroupText(id), 0) == []
  {
    hide *;
    FirstRound(id);
    StaysOpen(id);
    GroupLayout(id);
    SpansUnfold(GroupText(id), 0);
    NothingAfter(id, 7);
  }

  lemma QuoteIsNoBlank()
    ensures !IsBlank('\"')
  {}

  lemma AfterClose(id: string)
    requires CloseFrom(id, 0, 1) < |id|
    ensures var t, at, k := GroupText(id), IdStart(), CloseFrom(id, 0, 1);
            var j := SkipBlanks(id, k + 1);
            && SkipBlanks(t, at + k + 1) == at + j < |t|
            && (t[at + j] == ';' <==> j < |id| && id[j] == ';')
  {
    hide *;
    QuoteIsNoBlank();
    var t, at, k := GroupText(id), IdStart(), CloseFrom(id, 0, 1);
    var j := SkipBlanks(id, k + 1);
    GroupLayout(id);
    BlanksShift(t, at, id, k + 1);
    assert j < |id| ==> t[at..at + |id|][j] == t[at + j];
  }

  lemma EndsClosed(id: string)
    ensures EndsStatement(id) ==> CloseFrom(id, 0, 1) < |id|
  {
    hide CloseFrom;
  }

  lemma EndsAt(id: string)
    requires CloseFrom(id, 0, 1) < |id|
    ensures var j := SkipBlanks(id, CloseFrom(id, 0, 1) + 1); EndsStatement(id) <==> j < |id| && id[j] == ';'
  {
    hide CloseFrom, SkipBlanks;
  }

  /** An id with an unmatched ')' is reported exactly when it ends its own statement. */
  lemma ClosedIdSpans(id: string)
    requires NoPermit(id) && CloseFrom(id, 0, 1) < |id|
    ensures var t, at, k := GroupText(id), IdStart(), CloseFrom(id, 0, 1);
            && at + k < |t|
            && Spans(t, 0) == if EndsStatement(id) then [Span(0, 6, at + k, at + SkipBlanks(id, k + 1))] else []
  {
    hide *;
    var t, at, k := GroupText(id), IdStart(), CloseFrom(id, 0, 1);
    var j := SkipBlanks(id, k + 1);
    FirstRound(id);
    ClosesInside(id);
    AfterClose(id);
    SpansUnfold(t, 0);
    EndsAt(id);
    if EndsStatement(id) {
      NothingAfter(id, at + j + 1);
    } else {
      NothingAfter(id, at + k + 1);
    }
  }

  // ----- The round trip -----

  lemma OneGroupText(connectionId: string, groupId: string)
    ensures var p := OneGroup(connectionId, groupId);
            && Grants(connectionId, false, p) == [Permit(GroupRead, GroupType, groupId)]
            && PolicyText(Grants(connectionId, false, p)) == GroupText(groupId)
  {
    var p, s := OneGroup(connectionId, groupId), Permit(GroupRead, GroupType, groupId);
    assert AllDashboardGrants(connectionId, []) == [] && TablesGrants(connectionId, []) == [];
    PolicyTextCons(s, []);
    assert [s] + [] == [s];
  }

  lemma OneGroupNormal(connectionId: string, groupId: string)
    ensures Normal(connectionId, groupId, OneGroup(connectionId, groupId)) ==
            Permissions(connectionId, NoAccess, groupId, Readonly, [], Some([]))
  {
    assert VisibleTables([]) == [] && VisibleDashboards([]) == [] && Distinct<string>([]) == [];
    assert !AnyRead([]) && !AnyCreate([]);
  }

  lemma BeforeParts()
    ensures var clause := UidClause(ACTION, "Action", ActionName(GroupRead));
            var more := COMMA + (RESOURCE + " == " + "RocketAdmin::" + TypeName(GroupType) + "::\"");
            BEFORE == PRINCIPAL + (clause + more)
  {
    var clause := UidClause(ACTION, "Action", ActionName(GroupRead));
    Assoc(PRINCIPAL, clause, COMMA);
    Assoc(PRINCIPAL + clause, COMMA, RESOURCE + " == " + "RocketAdmin::" + TypeName(GroupType) + "::\"");
    Assoc(PRINCIPAL, clause, COMMA + (RESOURCE + " == " + "RocketAdmin::" + TypeName(GroupType) + "::\""));
  }

  lemma CutBody(id: string, close: nat)
    requires IdStart() <= close <= IdStart() + |id|
    ensures close < |GroupText(id)| && GroupText(id)[7..close] == BEFORE + id[..close - IdStart()]
  {
    var t, at := GroupText(id), IdStart();
    GroupLayout(id);
    hide GroupText, BEFORE;
    assert t[7..close] == t[7..at] + t[at..close];
    assert t[at..close] == t[at..at + |id|][..close - at];
  }

  lemma CutBodyAction(id: string, close: nat)
    requires IdStart() <= close <= IdStart() + |id|
    ensures close < |GroupText(id)|
    ensures var r := ParsePermitBody(GroupText(id)[7..close]); r.action == Some("group:read") && !r.isWildcard
  {
    var clause := UidClause(ACTION, "Action", ActionName(GroupRead));
    var more := COMMA + (RESOURCE + " == " + "RocketAdmin::" + TypeName(GroupType) + "::\"");
    var tail := id[..close - IdStart()];
    assert ActionName(GroupRead) == "group:read";
    CutBody(id, close);
    BeforeParts();
    hide *;
    Assoc(PRINCIPAL, clause + more, tail);
    Assoc(clause, more, tail);
    ReadAction(GroupRead, more + tail);
  }

  lemma ParsedFinish(text: string, connectionId: string, groupId: string)
    ensures var c := CollectAll(Bodies(text, Spans(text, 0)), connectionId);
            ParsedPermissions(text, connectionId, groupId) ==
            Permissions(connectionId, c.connectionLevel, groupId, c.groupLevel, AllWithReadonly(c.tables), Some(c.dashboards))
  {
    hide Spans, Bodies, CollectAll, AllWithReadonly;
  }

  lemma NoEntries()
    ensures AllWithReadonly([]) == []
  {}

  lemma ParsedNothing(text: string, connectionId: string, groupId: string)
    requires Spans(text, 0) == []
    ensures ParsedPermissions(text, connectionId, groupId) == Permissions(connectionId, NoAccess, groupId, NoAccess, [], Some([]))
  {
    assert Bodies(text, []) == [] && CollectAll([], connectionId) == NOTHING;
    hide *;
    NoEntries();
    ParsedFinish(text, connectionId, groupId);
    assert NOTHING == Collected(NoAccess, NoAccess, [], []);
  }

  lemma OneBody(text: string, x: Span)
    requires x.open < x.close < |text|
    ensures Bodies(text, [x]) == [text[x.open + 1..x.close]]
  {}

  /** What parsing makes of one reported body that reads the group. */
  lemma ParsedGroup(text: string, x: Span, connectionId: string, groupId: string)
    requires x.open < x.close < |text| && Spans(text, 0) == [x]
    requires var r := ParsePermitBody(text[x.open + 1..x.close]); r.action == Some("group:read") && !r.isWildcard
    ensures ParsedPermissions(text, connectionId, groupId) == Permissions(connectionId, NoAccess, groupId, Readonly, [], Some([]))
  {
    hide *;
    OneBody(text, x);
    GroupCollected(text[x.open + 1..x.close], connectionId);
    NoEntries();
    ParsedFinish(text, connectionId, groupId);
  }

  lemma GroupCollected(body: string, connectionId: string)
    requires var r := ParsePermitBody(body); r.action == Some("group:read") && !r.isWildcard
    ensures CollectAll([body], connectionId) == Collected(NoAccess, Readonly, [], [])
  {
    ActionNameRead(GroupRead);
    assert ActionName(GroupRead) == "group:read";
    assert [body][..0] == [] && CollectAll([], connectionId) == NOTHING;
    hide ParsePermitBody, LocalName, ActionNamed, ActionName, RecordTable, RecordDashboard;
  }

  /** A policy that lets a group be read survives exactly when the group's id is balanced or ends its own
      statement, for every id without the word `permit`. */
  lemma OneGroupExact(connectionId: string, groupId: string)
    requires NoPermit(groupId)
    ensures var p := OneGroup(connectionId, groupId);
            ParsedPermissions(PolicyText(Grants(connectionId, false, p)), connectionId, groupId) == Normal(connectionId, groupId, p)
            <==> Balanced(groupId) || EndsStatement(groupId)
  {
    hide *;
    OneGroupText(connectionId, groupId);
    OneGroupNormal(connectionId, groupId);
    EndsClosed(groupId);
    var t, k := GroupText(groupId), CloseFrom(groupId, 0, 1);
    if Balanced(groupId) {
      BalancedGroup(connectionId, groupId);
    } else if k == |groupId| {
      OpenIdSpans(groupId);
      ParsedNothing(t, connectionId, groupId);
    } else {
      ClosedIdSpans(groupId);
      if EndsStatement(groupId) {
        CutBodyAction(groupId, IdStart() + k);
        ParsedGroup(t, Span(0, 6, IdStart() + k, IdStart() + SkipBlanks(groupId, k + 1)), connectionId, groupId);
      } else {
        ParsedNothing(t, connectionId, groupId);
      }
    }
  }

  lemma BalancedGroup(connectionId: string, groupId: string)
    requires Balanced(groupId)
    ensures var p := OneGroup(connectionId, groupId);
            ParsedPermissions(PolicyText(Grants(connectionId, false, p)), connectionId, groupId) == Normal(connectionId, groupId, p)
  {
    OneGroupText(connectionId, groupId);
    hide Grants, ParsedPermissions, PolicyText, Balanced, Normal;
    RoundTrip(connectionId, groupId, OneGroup(connectionId, groupId));
  }

  /** For example, the unbalanced id `a);` survives: the statements of a policy need not all be readable
      for the policy to be read back. */
  lemma UnbalancedGroupSurvives(connectionId: string)
    ensures var id, p := "a);", OneGroup(connectionId, "a);");
            && !AllReadable(Grants(connectionId, false, p))
            && ParsedPermissions(PolicyText(Grants(connectionId, false, p)), connectionId, id) == Normal(connectionId, id, p)
  {
    var id, p := "a);", OneGroup(connectionId, "a);");
    OneGroupText(connectionId, id);
    assert id[..2][1..] == ")" && ")"[1..] == "" && Net("") == 0 && Net(")") == -1 && Net(id[..2]) == -1;
    assert !Balanced(id);
    assert CloseFrom(id, 0, 1) == CloseFrom(id, 1, 1) == 1 && SkipBlanks(id, 2) == 2;
    assert EndsStatement(id);
    assert |PERMIT| == 6;
    hide ParsedPermissions, PolicyText, Grants, Normal, Balanced, EndsStatement;
    OneGroupExact(connectionId, id);
  }
}
