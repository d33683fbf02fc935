/** For which names a policy for one table, or one dashboard, survives printing and parsing: exactly the
    well-formed ones. */
module PolicyExactness {
  import opened Text
  import opened CedarPolicy
  import opened PolicyGenerator
  import opened PolicyScanner
  import opened PolicyParser
  import opened PolicyReading
  import opened PrintedPolicies
  import opened PolicyRoundTrip
  import opened PolicyStability
  import CedarEngine

  /** Permissions that only make the table `name` visible. */
  function OneTable(connectionId: string, groupId: string, name: string): Permissions {
    Permissions(connectionId, NoAccess, groupId, NoAccess,
                [TablePermission(name, TableAccess(true, true, false, false, false))], None)
  }

  /** Permissions that only let the dashboard `id` be edited. */
  function OneDashboard(connectionId: string, groupId: string, id: string): Permissions {
    Permissions(connectionId, NoAccess, groupId, NoAccess, [],
                Some([DashboardPermission(id, DashboardAccess(false, false, true, false))]))
  }

  // ----- Where a parsed name can come from -----

  lemma {:induction false} RecordedNames(ts: seq<TablePermission>, name: string, a: Action, n: string)
    ensures (exists t :: t in RecordTable(ts, name, a) && t.tableName == n) ==>
            n == name || exists t :: t in ts && t.tableName == n
  {
    if |ts| > 0 && ts[0].tableName != name {
      RecordedNames(ts[1..], name, a, n);
    }
  }

  /** A table that one permit adds is named by that permit. */
  lemma AddedName(c: Collected, permit: ParsedPermit, connectionId: string, n: string)
    requires exists t :: t in Collect(c, permit, connectionId).tables && t.tableName == n
    requires !exists t :: t in c.tables && t.tableName == n
    ensures permit.resourceId.Some? && LocalName(permit.resourceId, connectionId) == n
  {
    hide ActionNamed, Raise;
    var name := LocalName(permit.resourceId, connectionId);
    var action := ActionNamed(permit.action.value).value;
    RecordedNames(c.tables, name, action, n);
    assert permit.resourceId.None? ==> name == "";
    hide RecordTable, RecordDashboard, LocalName;
  }

  /** A table is only collected when some body names it. */
  lemma {:induction false} CollectedNames(bodies: seq<string>, connectionId: string, n: string) returns (i: nat)
    requires exists t :: t in CollectAll(bodies, connectionId).tables && t.tableName == n
    ensures i < |bodies|
    ensures var id := ParsePermitBody(bodies[i]).resourceId; id.Some? && LocalName(id, connectionId) == n
  {
    hide ParsePermitBody, Collect, LocalName;
    assert bodies != [];
    var init, last := bodies[..|bodies| - 1], bodies[|bodies| - 1];
    var before := CollectAll(init, connectionId);
    if exists t :: t in before.tables && t.tableName == n {
      i := CollectedNames(init, connectionId, n);
    } else {
      i := |bodies| - 1;
      AddedName(before, ParsePermitBody(last), connectionId, n);
    }
  }

  lemma {:induction false} RecordedIds(ds: seq<DashboardPermission>, id: string, a: Action, n: string)
    ensures (exists d :: d in RecordDashboard(ds, id, a) && d.dashboardId == n) ==>
            n == id || exists d :: d in ds && d.dashboardId == n
  {
    if |ds| > 0 && ds[0].dashboardId != id {
      RecordedIds(ds[1..], id, a, n);
    }
  }

  /** A dashboard that one permit adds is named by that permit. */
  lemma AddedId(c: Collected, permit: ParsedPermit, connectionId: string, n: string)
    requires exists d :: d in Collect(c, permit, connectionId).dashboards && d.dashboardId == n
    requires !exists d :: d in c.dashboards && d.dashboardId == n
    ensures permit.resourceId.Some? && LocalName(permit.resourceId, connectionId) == n
  {
    hide ActionNamed, Raise;
    var id := LocalName(permit.resourceId, connectionId);
    var action := ActionNamed(permit.action.value).value;
    RecordedIds(c.dashboards, id, action, n);
    assert permit.resourceId.None? ==> id == "";
    hide RecordTable, RecordDashboard, LocalName;
  }

  /** A dashboard is only collected when some body names it. */
  lemma {:induction false} CollectedIds(bodies: seq<string>, connectionId: string, n: string) returns (i: nat)
    requires exists d :: d in CollectAll(bodies, connectionId).dashboards && d.dashboardId == n
    ensures i < |bodies|
    ensures var id := ParsePermitBody(bodies[i]).resourceId; id.Some? && LocalName(id, connectionId) == n
  {
    hide ParsePermitBody, Collect, LocalName;
    assert bodies != [];
    var init, last := bodies[..|bodies| - 1], bodies[|bodies| - 1];
    var before := CollectAll(init, connectionId);
    if exists d :: d in before.dashboards && d.dashboardId == n {
      i := CollectedIds(init, connectionId, n);
    } else {
      i := |bodies| - 1;
      AddedId(before, ParsePermitBody(last), connectionId, n);
    }
  }

  predicate IsSuffix(u: string, s: string) {
    |u| <= |s| && s[|s| - |u|..] == u
  }

  lemma SuffixTail(s: string, k: nat)
    requires k <= |s|
    ensures IsSuffix(s[k..], s)
  {}

  lemma SuffixTrans(u: string, v: string, w: string)
    requires IsSuffix(u, v) && IsSuffix(v, w)
    ensures IsSuffix(u, w)
  {
    assert w[|w| - |u|..] == w[|w| - |v|..][|v| - |u|..];
  }

  lemma {:induction false} DropSpacesSuffix(s: string)
    ensures IsSuffix(DropSpaces(s), s)
  {
    if |s| > 0 && IsSpace(s[0]) {
      DropSpacesSuffix(s[1..]);
      SuffixTail(s, 1);
      SuffixTrans(DropSpaces(s[1..]), s[1..], s);
    }
  }

  /** `r` stands between two quotes at position `k` of `s`. */
  predicate QuotedAt(s: string, k: nat, r: string) {
    0 < k && k + |r| < |s| && s[k - 1] == '\"' && s[k..k + |r|] == r && s[k + |r|] == '\"'
  }

  /** The match, step by step: where the quoted id starts in `s`. */
  lemma MatchSteps(s: string, word: string) returns (afterKind: string)
    requires MatchUid(s, word).Some?
    ensures IsSuffix(afterKind, s) && "::\"" <= afterKind
    ensures var id := MatchUid(s, word).value.id;
            id <= afterKind[3..] && |id| < |afterKind[3..]| && afterKind[3..][|id|] == '\"'
  {
    var afterWord := DropSpaces(s[|word|..]);
    var afterEquals := DropSpaces(afterWord[2..]);
    var n := |"RocketAdmin::"|;
    var named := afterEquals[n..];
    var kind := TakeWord(named);
    afterKind := named[|kind|..];
    assert "::\"" <= afterKind;
    hide *;
    DropSpacesSuffix(s[|word|..]);
    DropSpacesSuffix(afterWord[2..]);
    SuffixTail(s, |word|);
    SuffixTail(afterWord, 2);
    SuffixTail(afterEquals, n);
    SuffixTail(named, |kind|);
    SuffixTrans(afterWord, s[|word|..], s);
    SuffixTrans(afterWord[2..], afterWord, s);
    SuffixTrans(afterEquals, afterWord[2..], s);
    SuffixTrans(named, afterEquals, s);
    SuffixTrans(afterKind, named, s);
  }

  lemma MatchIsQuoted(s: string, word: string) returns (k: nat)
    requires MatchUid(s, word).Some?
    ensures QuotedAt(s, k, MatchUid(s, word).value.id)
  {
    hide MatchUid;
    var afterKind := MatchSteps(s, word);
    k := |s| - |afterKind| + 3;
    SuffixQuoted(afterKind, s, MatchUid(s, word).value.id);
  }

  lemma SuffixQuoted(u: string, s: string, id: string)
    requires IsSuffix(u, s) && "::\"" <= u && id <= u[3..] && |id| < |u[3..]| && u[3..][|id|] == '\"'
    ensures QuotedAt(s, |s| - |u| + 3, id)
  {
    var j := |s| - |u|;
    assert s[j + 2] == u[2] == "::\""[2];
    assert s[j + 3..] == u[3..];
    assert s[j + 3..j + 3 + |id|] == u[3..][..|id|];
  }

  lemma {:induction false} FirstIsQuoted(s: string, word: string, kind: Option<string>) returns (k: nat)
    requires FirstUid(s, word, kind).Some?
    ensures QuotedAt(s, k, FirstUid(s, word, kind).value.id)
  {
    hide MatchUid;
    if MatchKind(s, word, kind).Some? {
      k := MatchIsQuoted(s, word);
    } else {
      k := FirstIsQuoted(s[1..], word, kind);
      var r := FirstUid(s, word, kind).value.id;
      assert s[1..][k..k + |r|] == s[k + 1..k + 1 + |r|];
      k := k + 1;
    }
  }

  // ----- The quotes of one printed statement -----

  /** A text with exactly four quotes, around `a1` and `a3`. */
  function FourQuotes(a0: string, a1: string, a2: string, a3: string, a4: string): string {
    a0 + "\"" + a1 + "\"" + a2 + "\"" + a3 + "\"" + a4
  }

  lemma FourQuotesAt(a0: string, a1: string, a2: string, a3: string, a4: string)
    ensures var t := FourQuotes(a0, a1, a2, a3, a4);
            var q1 := |a0|; var q2 := q1 + 1 + |a1|; var q3 := q2 + 1 + |a2|; var q4 := q3 + 1 + |a3|;
            && |t| == q4 + 1 + |a4| && t[q1] == t[q2] == t[q3] == t[q4] == '\"'
            && t[..q1] == a0 && t[q1 + 1..q2] == a1 && t[q2 + 1..q3] == a2 && t[q3 + 1..q4] == a3 && t[q4 + 1..] == a4
  {}

  /** What stands between two quotes, with no quote inside, is one of the three pieces between quotes. */
  lemma BetweenQuotes(a0: string, a1: string, a2: string, a3: string, a4: string, k: nat, r: string)
    requires NoQuote(a0) && NoQuote(a1) && NoQuote(a2) && NoQuote(a3) && NoQuote(a4) && NoQuote(r)
    requires QuotedAt(FourQuotes(a0, a1, a2, a3, a4), k, r)
    ensures r == a1 || r == a2 || (r == a3 && k == |a0| + |a1| + |a2| + 3)
  {
    var t := FourQuotes(a0, a1, a2, a3, a4);
    var q1 := |a0|; var q2 := q1 + 1 + |a1|; var q3 := q2 + 1 + |a2|; var q4 := q3 + 1 + |a3|;
    FourQuotesAt(a0, a1, a2, a3, a4);
    hide FourQuotes;
    forall j | 0 <= j < |t| && j != q1 && j != q2 && j != q3 && j != q4
      ensures t[j] != '\"'
    {
      if j < q1 { assert a0[j] == t[j]; }
      else if q1 < j < q2 { assert a1[j - q1 - 1] == t[j]; }
      else if q2 < j < q3 { assert a2[j - q2 - 1] == t[j]; }
      else if q3 < j < q4 { assert a3[j - q3 - 1] == t[j]; }
      else if q4 < j { assert a4[j - q4 - 1] == t[j]; }
    }
    forall j | k <= j < k + |r|
      ensures t[j] != '\"'
    {
      assert r[j - k] == t[j];
    }
    var e := k + |r|;
    assert k - 1 == q1 ==> e == q2;
    assert k - 1 == q2 ==> e == q3;
    assert k - 1 == q3 ==> e == q4;
  }

  const A0 := OPEN + PRINCIPAL + (ACTION + " == " + "RocketAdmin::" + "Action" + "::")
  const A4 := "\n" + CLOSE

  function A2(t: ResourceType): string {
    COMMA + (RESOURCE + " == " + "RocketAdmin::" + TypeName(t) + "::")
  }

  lemma StatementQuotes(s: Statement)
    requires s.Permit?
    ensures StatementText(s) == FourQuotes(A0, ActionName(s.action), A2(s.kind), s.id, A4)
  {
    var a1, kind := ActionName(s.action), TypeName(s.kind);
    hide ActionName, TypeName;
    var head := ACTION + " == " + "RocketAdmin::" + "Action" + "::";
    var mid := RESOURCE + " == " + "RocketAdmin::" + kind + "::";
    assert "::\"" == "::" + "\"";
    assert UidClause(ACTION, "Action", a1) == head + "\"" + a1 + "\"";
    assert UidClause(RESOURCE, kind, s.id) == mid + "\"" + s.id + "\"";
    hide UidClause;
    StatementParts(head, a1, mid, s.id);
  }

  lemma StatementParts(head: string, a1: string, mid: string, id: string)
    ensures OPEN + (PRINCIPAL + (head + "\"" + a1 + "\"") + COMMA + (mid + "\"" + id + "\"") + "\n") + CLOSE ==
            FourQuotes(OPEN + PRINCIPAL + head, a1, COMMA + mid, id, "\n" + CLOSE)
  {
    hide OPEN, PRINCIPAL, COMMA, CLOSE;
  }

  lemma NoQuoteConcat(p: string, q: string)
    requires NoQuote(p) && NoQuote(q)
    ensures NoQuote(p + q)
  {}

  lemma PieceQuotes(a: Action, t: ResourceType)
    ensures NoQuote(A0) && NoQuote(ActionName(a)) && NoQuote(A2(t)) && NoQuote(A4)
  {
    ActionNameQuotes(a);
    TypeNameFacts(t);
    assert NoQuote(OPEN) && NoQuote(PRINCIPAL) && NoQuote(COMMA) && NoQuote(CLOSE) && NoQuote(ACTION) && NoQuote(RESOURCE);
    hide OPEN, PRINCIPAL, COMMA, CLOSE, ACTION, RESOURCE, ActionName, TypeName, IsWord;
    NoQuoteConcat(ACTION, " == ");
    NoQuoteConcat(ACTION + " == ", "RocketAdmin::");
    NoQuoteConcat(ACTION + " == " + "RocketAdmin::", "Action");
    NoQuoteConcat(ACTION + " == " + "RocketAdmin::" + "Action", "::");
    NoQuoteConcat(RESOURCE, " == ");
    NoQuoteConcat(RESOURCE + " == ", "RocketAdmin::");
    NoQuoteConcat(RESOURCE + " == " + "RocketAdmin::", TypeName(t));
    NoQuoteConcat(RESOURCE + " == " + "RocketAdmin::" + TypeName(t), "::");
    NoQuoteConcat(OPEN, PRINCIPAL);
    NoQuoteConcat(OPEN + PRINCIPAL, ACTION + " == " + "RocketAdmin::" + "Action" + "::");
    NoQuoteConcat(COMMA, RESOURCE + " == " + "RocketAdmin::" + TypeName(t) + "::");
    NoQuoteConcat("\n", CLOSE);
  }

  lemma PieceParens(a: Action, t: ResourceType)
    ensures |A0| > 6 && (forall i :: 0 <= i < |A0| && A0[i] == '(' ==> i == 6)
    ensures NoParens(ActionName(a)) && NoParens(A2(t))
    ensures forall i :: 0 <= i < |A4| && A4[i] == ')' ==> i == 1
  {
    ActionNameParens(a);
    TypeNameFacts(t);
    assert NoParens(PRINCIPAL) && NoParens(COMMA) && NoParens(ACTION) && NoParens(RESOURCE);
    assert forall i :: 0 <= i < |OPEN| && OPEN[i] == '(' ==> i == 6;
    assert |OPEN| == 7;
    hide PRINCIPAL, COMMA, ACTION, RESOURCE, OPEN, ActionName, TypeName, IsWord;
    NoParensConcat(ACTION, " == ");
    NoParensConcat(ACTION + " == ", "RocketAdmin::");
    NoParensConcat(ACTION + " == " + "RocketAdmin::", "Action");
    NoParensConcat(ACTION + " == " + "RocketAdmin::" + "Action", "::");
    NoParensConcat(RESOURCE, " == ");
    NoParensConcat(RESOURCE + " == ", "RocketAdmin::");
    NoParensConcat(RESOURCE + " == " + "RocketAdmin::", TypeName(t));
    NoParensConcat(RESOURCE + " == " + "RocketAdmin::" + TypeName(t), "::");
    NoParensConcat(COMMA, RESOURCE + " == " + "RocketAdmin::" + TypeName(t) + "::");
    var tail := ACTION + " == " + "RocketAdmin::" + "Action" + "::";
    NoParensConcat(PRINCIPAL, tail);
    Assoc(OPEN, PRINCIPAL, tail);
    OneParen(OPEN, PRINCIPAL + tail);
  }

  lemma OneParen(o: string, tail: string)
    requires |o| == 7 && (forall i :: 0 <= i < |o| && o[i] == '(' ==> i == 6) && NoParens(tail)
    ensures forall i :: 0 <= i < |o + tail| && (o + tail)[i] == '(' ==> i == 6
  {}

  lemma BalancedRight(a: string, b: string)
    requires Balanced(a) && Balanced(a + b)
    ensures Balanced(b)
  {
    NetConcat(a, b);
    forall k | 0 <= k <= |b|
      ensures Net(b[..k]) >= 0
    {
      assert (a + b)[..|a| + k] == a + b[..k];
      NetConcat(a, b[..k]);
    }
  }

  lemma LocalNameInside(id: string, connectionId: string)
    ensures NoQuote(id) ==> NoQuote(LocalName(Some(id), connectionId))
    ensures NoParens(id) ==> NoParens(LocalName(Some(id), connectionId))
  {}

  /** Up to the third piece there is one opening parenthesis. */
  lemma OpenPlace(a0: string, a1: string, a2: string, a3: string, a4: string, o: nat)
    requires forall i :: 0 <= i < |a0| && a0[i] == '(' ==> i == 6
    requires NoParens(a1) && NoParens(a2)
    requires o <= |a0| + |a1| + |a2| + 2 && o != 6
    ensures FourQuotes(a0, a1, a2, a3, a4)[o] != '('
  {
    var t := FourQuotes(a0, a1, a2, a3, a4);
    var q1 := |a0|; var q2 := q1 + 1 + |a1|; var q3 := q2 + 1 + |a2|;
    FourQuotesAt(a0, a1, a2, a3, a4);
    hide FourQuotes;
    if o < q1 {
      assert t[..q1][o] == a0[o];
    } else if q1 < o < q2 {
      assert t[q1 + 1..q2][o - q1 - 1] == a1[o - q1 - 1];
    } else if q2 < o < q3 {
      assert t[q2 + 1..q3][o - q2 - 1] == a2[o - q2 - 1];
    }
  }

  /** After the last quote there is one closing parenthesis. */
  lemma ClosePlace(a0: string, a1: string, a2: string, a3: string, a4: string, e: nat)
    requires forall i :: 0 <= i < |a4| && a4[i] == ')' ==> i == 1
    requires var t := FourQuotes(a0, a1, a2, a3, a4); |a0| + |a1| + |a2| + |a3| + 3 < e < |t| && t[e] == ')'
    ensures e == |a0| + |a1| + |a2| + |a3| + 5
  {
    var t, q4 := FourQuotes(a0, a1, a2, a3, a4), |a0| + |a1| + |a2| + |a3| + 3;
    FourQuotesAt(a0, a1, a2, a3, a4);
    hide FourQuotes;
    assert t[q4 + 1..][e - q4 - 1] == a4[e - q4 - 1];
  }

  lemma BodyPlace(s: Statement)
    ensures var t := StatementText(s); |t| >= 9 && t[7..|t| - 2] == Body(s)
  {
    assert |OPEN| == 7 && |CLOSE| == 2;
    hide Body, OPEN, CLOSE;
  }

  /** The only reported span whose body holds the whole id is the statement itself. */
  lemma SpanAroundId(s: Statement, x: Span, k: nat)
    requires s.Permit? && NoQuote(s.id) && IsStatement(StatementText(s), x)
    requires x.open + 1 + k == |A0| + |ActionName(s.action)| + |A2(s.kind)| + 3
    requires x.open + 1 + k + |s.id| < x.close && StatementText(s)[x.open + 1 + k + |s.id|] == '\"'
    ensures StatementText(s)[x.open + 1..x.close] == Body(s)
  {
    var t, a1, a2 := StatementText(s), ActionName(s.action), A2(s.kind);
    BodyPlace(s);
    StatementQuotes(s);
    PieceParens(s.action, s.kind);
    assert |A4| == 3;
    hide StatementText, Body, A0, A2, A4, ActionName, Balanced, StartsAt, AllBlank, NoParens;
    FourQuotesAt(A0, a1, a2, s.id, A4);
    hide FourQuotes;
    if x.open != 6 {
      OpenPlace(A0, a1, a2, s.id, A4, x.open);
    }
    ClosePlace(A0, a1, a2, s.id, A4, x.close);
  }

  /** A parsed table is named by the resource of some reported statement. */
  lemma ParsedTableNamed(text: string, connectionId: string, groupId: string, name: string) returns (x: Span)
    requires exists t :: t in ParsedPermissions(text, connectionId, groupId).tables && t.tableName == name
    ensures IsStatement(text, x)
    ensures var id := ParsePermitBody(text[x.open + 1..x.close]).resourceId; id.Some? && LocalName(id, connectionId) == name
  {
    hide Spans, ParsedPermissions, IsStatement, CollectAll, ParsePermitBody;
    ParsedTableCollected(text, connectionId, groupId, name);
    var i := CollectedNames(Bodies(text, Spans(text, 0)), connectionId, name);
    ScanStructure(text, 0);
    x := Spans(text, 0)[i];
  }

  lemma ParsedDashboards(text: string, connectionId: string, groupId: string)
    ensures ParsedPermissions(text, connectionId, groupId).dashboards == Some(CollectAll(Bodies(text, Spans(text, 0)), connectionId).dashboards)
  {
    hide Spans, CollectAll;
  }

  /** So is a parsed dashboard. */
  lemma ParsedDashboardNamed(text: string, connectionId: string, groupId: string, name: string) returns (x: Span)
    requires exists d :: d in ParsedPermissions(text, connectionId, groupId).dashboards.value && d.dashboardId == name
    ensures IsStatement(text, x)
    ensures var id := ParsePermitBody(text[x.open + 1..x.close]).resourceId; id.Some? && LocalName(id, connectionId) == name
  {
    ParsedDashboards(text, connectionId, groupId);
    hide Spans, ParsedPermissions, IsStatement, CollectAll, ParsePermitBody;
    var i := CollectedIds(Bodies(text, Spans(text, 0)), connectionId, name);
    ScanStructure(text, 0);
    x := Spans(text, 0)[i];
  }

  /** If parsing the printed text finds a table with the printed name, the name is well-formed. */
  lemma FoundIsWellFormed(connectionId: string, groupId: string, name: string)
    requires WellFormedId(connectionId)
    requires var text := StatementText(Permit(TableRead, TableType, connectionId + "/" + name));
             exists t :: t in ParsedPermissions(text, connectionId, groupId).tables && t.tableName == name
    ensures WellFormedId(name)
  {
    hide *;
    var s := Permit(TableRead, TableType, connectionId + "/" + name);
    var x := ParsedTableNamed(StatementText(s), connectionId, groupId, name);
    BodyNameIsWellFormed(connectionId, name, s, x);
  }

  lemma FoundDashboardIsWellFormed(connectionId: string, groupId: string, name: string)
    requires WellFormedId(connectionId)
    requires var text := StatementText(Permit(DashboardEdit, DashboardType, connectionId + "/" + name));
             exists d :: d in ParsedPermissions(text, connectionId, groupId).dashboards.value && d.dashboardId == name
    ensures WellFormedId(name)
  {
    var s := Permit(DashboardEdit, DashboardType, connectionId + "/" + name);
    hide *;
    ParsedDashboards(StatementText(s), connectionId, groupId);
    var x := ParsedDashboardNamed(StatementText(s), connectionId, groupId, name);
    BodyNameIsWellFormed(connectionId, name, s, x);
  }

  lemma ParsedTableCollected(text: string, connectionId: string, groupId: string, name: string)
    requires exists t :: t in ParsedPermissions(text, connectionId, groupId).tables && t.tableName == name
    ensures exists t :: t in CollectAll(Bodies(text, Spans(text, 0)), connectionId).tables && t.tableName == name
  {
    var collected := CollectAll(Bodies(text, Spans(text, 0)), connectionId);
    hide CollectAll, Bodies, Spans;
    var t :| t in ParsedPermissions(text, connectionId, groupId).tables && t.tableName == name;
    var j :| 0 <= j < |collected.tables| && AllWithReadonly(collected.tables)[j] == t;
    assert collected.tables[j] in collected.tables;
  }

  lemma StatementResource(text: string, x: Span)
    requires IsStatement(text, x)
    ensures var body := text[x.open + 1..x.close]; var first := FirstUid(body, RESOURCE, None);
            && Balanced(body)
            && ParsePermitBody(body).resourceId == if first.Some? then Some(first.value.id) else None
  {
    hide FirstUid, Balanced;
  }

  lemma QuotedInBody(text: string, x: Span, k: nat, r: string)
    requires IsStatement(text, x) && QuotedAt(text[x.open + 1..x.close], k, r)
    ensures QuotedAt(text, x.open + 1 + k, r) && x.open + 1 + k + |r| < x.close
    ensures text[x.open + 1 + k + |r|] == '\"'
  {
    hide Balanced;
    assert text[x.open + 1..x.close][k..k + |r|] == text[x.open + 1 + k..x.open + 1 + k + |r|];
  }

  lemma QuotedPiece(s: Statement, k: nat, r: string)
    requires s.Permit? && NoQuote(s.id) && NoQuote(r) && QuotedAt(StatementText(s), k, r)
    ensures NoParens(r) || (r == s.id && k == |A0| + |ActionName(s.action)| + |A2(s.kind)| + 3)
  {
    hide StatementText, A0, A2, A4, ActionName, FourQuotes, QuotedAt;
    StatementQuotes(s);
    PieceQuotes(s.action, s.kind);
    PieceParens(s.action, s.kind);
    BetweenQuotes(A0, ActionName(s.action), A2(s.kind), s.id, A4, k, r);
  }

  /** What a reported body quotes: something without parentheses, or the whole id in the whole body. */
  lemma QuotedInStatement(s: Statement, x: Span, k: nat, r: string)
    requires s.Permit? && NoQuote(s.id) && NoQuote(r)
    requires IsStatement(StatementText(s), x) && QuotedAt(StatementText(s)[x.open + 1..x.close], k, r)
    ensures NoParens(r) || (r == s.id && Balanced(Body(s)))
  {
    var text := StatementText(s);
    hide StatementText, Body, Balanced, IsStatement, A0, A2, ActionName, FirstUid, ParsePermitBody, QuotedAt, NoParens, NoQuote;
    StatementResource(text, x);
    QuotedInBody(text, x, k, r);
    QuotedPiece(s, x.open + 1 + k, r);
    if !NoParens(r) {
      SpanAroundId(s, x, k);
    }
  }

  lemma NameBalanced(connectionId: string, name: string)
    requires Balanced(connectionId) && Balanced(connectionId + "/" + name)
    ensures Balanced(name)
  {
    NoParensBalanced("/");
    BalancedConcat(connectionId, "/");
    BalancedRight(connectionId + "/", name);
  }

  lemma PathNoQuote(connectionId: string, name: string)
    requires NoQuote(connectionId) && NoQuote(name)
    ensures NoQuote(connectionId + "/" + name)
  {
    NoQuoteConcat(connectionId, "/");
    NoQuoteConcat(connectionId + "/", name);
  }

  /** The id read from a reported body of the statement has no parentheses, or is the balanced id itself. */
  lemma ReadFromBody(s: Statement, x: Span, r: string)
    requires s.Permit? && NoQuote(s.id) && NoQuote(r) && IsStatement(StatementText(s), x)
    requires ParsePermitBody(StatementText(s)[x.open + 1..x.close]).resourceId == Some(r)
    ensures NoParens(r) || (r == s.id && Balanced(s.id))
  {
    var text := StatementText(s);
    var body := text[x.open + 1..x.close];
    hide StatementText, Body, ParsePermitBody, FirstUid, Balanced, IsStatement, NoParens, QuotedAt, NoQuote;
    StatementResource(text, x);
    var k := FirstIsQuoted(body, RESOURCE, None);
    QuotedInStatement(s, x, k, r);
    BodyBalanced(s);
  }

  lemma ResourceNoQuote(body: string)
    ensures var id := ParsePermitBody(body).resourceId; id.Some? ==> NoQuote(id.value)
  {
    hide FirstUid, NoQuote;
  }

  lemma BodyNameIsWellFormed(connectionId: string, name: string, s: Statement, x: Span)
    requires WellFormedId(connectionId) && s.Permit? && s.id == connectionId + "/" + name
    requires IsStatement(StatementText(s), x)
    requires var id := ParsePermitBody(StatementText(s)[x.open + 1..x.close]).resourceId;
             id.Some? && LocalName(id, connectionId) == name
    ensures WellFormedId(name)
  {
    var body := StatementText(s)[x.open + 1..x.close];
    var r := ParsePermitBody(body).resourceId.value;
    hide StatementText, Body, ParsePermitBody, Balanced, NoParens, NoQuote, LocalName, IsStatement;
    ResourceNoQuote(body);
    LocalNameInside(r, connectionId);
    PathNoQuote(connectionId, name);
    ReadFromBody(s, x, r);
    if NoParens(r) {
      NoParensBalanced(name);
    } else {
      NameBalanced(connectionId, name);
    }
  }

  lemma OneTableText(connectionId: string, groupId: string, name: string)
    ensures var p := OneTable(connectionId, groupId, name);
            && Grants(connectionId, false, p) == [Permit(TableRead, TableType, connectionId + "/" + name)]
            && PolicyText(Grants(connectionId, false, p)) == StatementText(Permit(TableRead, TableType, connectionId + "/" + name))
  {
    var p, s := OneTable(connectionId, groupId, name), Permit(TableRead, TableType, connectionId + "/" + name);
    assert p.tables[..0] == [];
    assert TablesGrants(connectionId, p.tables) == [s];
    PolicyTextCons(s, []);
    assert [s] + [] == [s];
  }

  /** A policy that makes one table visible survives printing and parsing exactly when the table's
      name is well-formed (or empty, and then dropped). */
  lemma OneTableExact(connectionId: string, groupId: string, name: string)
    requires WellFormedId(connectionId)
    ensures var p := OneTable(connectionId, groupId, name);
            ParsedPermissions(PolicyText(Grants(connectionId, false, p)), connectionId, groupId) == Normal(connectionId, groupId, p)
            <==> name == "" || WellFormedId(name)
  {
    var p := OneTable(connectionId, groupId, name);
    OneTableText(connectionId, groupId, name);
    assert SomeTable(p.tables, name, TableRead) by {
      assert p.tables[0].tableName == name && TableAllows(p.tables[0].access, TableRead);
    }
    hide StatementText, Grants, ParsedPermissions, PolicyText, Balanced;
    if name == "" || WellFormedId(name) {
      PathReadable(connectionId, name, TableRead);
      RoundTrip(connectionId, groupId, p);
    } else if ParsedPermissions(PolicyText(Grants(connectionId, false, p)), connectionId, groupId) == Normal(connectionId, groupId, p) {
      NormalTableAllows(p.tables, name, TableRead);
      FoundIsWellFormed(connectionId, groupId, name);
    }
  }

  /** For example, a table named `a)` does not survive, whatever its connection and group. */
  lemma UnbalancedNameIsLost(connectionId: string, groupId: string)
    requires WellFormedId(connectionId)
    ensures var p := OneTable(connectionId, groupId, "a)");
            ParsedPermissions(PolicyText(Grants(connectionId, false, p)), connectionId, groupId) != Normal(connectionId, groupId, p)
  {
    assert "a)"[1..] == ")" && ")"[1..] == "" && Net("") == 0;
    assert Net(")") == -1 && Net("a)") == -1;
    hide Net, ParsedPermissions, PolicyText, Grants, Normal;
    OneTableExact(connectionId, groupId, "a)");
  }

  /** A Cedar engine reads that policy all the same, and allows the table to be read. */
  lemma EngineReadsUnbalancedName(connectionId: string, groupId: string)
    requires CedarEngine.Quotable(connectionId)
    ensures var p := OneTable(connectionId, groupId, "a)");
            CedarEngine.Allows(PolicyText(Grants(connectionId, false, p)), CedarEngine.Query(TableRead, TableType, connectionId + "/" + "a)"))
  {
    var p, s := OneTable(connectionId, groupId, "a)"), Permit(TableRead, TableType, connectionId + "/" + "a)");
    OneTableText(connectionId, groupId, "a)");
    assert NoQuote("/") && NoQuote("a)") && '\\' !in "/" && '\\' !in "a)";
    PathNoQuote(connectionId, "a)");
    assert CedarEngine.Quotable(s.id);
    hide CedarEngine.Allows, PolicyText, Grants, CedarEngine.Quotable;
    CedarEngine.AllowsPrinted([s], CedarEngine.Query(TableRead, TableType, s.id));
  }

  lemma PathReadable(connectionId: string, name: string, a: Action)
    requires WellFormedId(connectionId) && (name == "" || WellFormedId(name)) && Subject(a) in {TableType, DashboardType}
    ensures Readable(Permit(a, Subject(a), connectionId + "/" + name))
  {
    NoParensBalanced("");
    assert NoQuote("");
    WellFormedPath(connectionId, name);
  }

  // ----- One dashboard -----

  lemma OneDashboardText(connectionId: string, groupId: string, id: string)
    ensures var p, s := OneDashboard(connectionId, groupId, id), Permit(DashboardEdit, DashboardType, connectionId + "/" + id);
            Grants(connectionId, false, p) == [s] && PolicyText(Grants(connectionId, false, p)) == StatementText(s)
  {
    var p, s := OneDashboard(connectionId, groupId, id), Permit(DashboardEdit, DashboardType, connectionId + "/" + id);
    var ds := p.dashboards.value;
    assert ds[..0] == [] && DashboardsGrants(connectionId, ds) == [s];
    assert !AnyRead(ds) && !AnyCreate(ds);
    PolicyTextCons(s, []);
    assert [s] + [] == [s];
  }

  lemma OneDashboardKept(connectionId: string, groupId: string, id: string)
    requires id != ""
    ensures var kept := Normal(connectionId, groupId, OneDashboard(connectionId, groupId, id)).dashboards;
            kept.Some? && exists d :: d in kept.value && d.dashboardId == id
  {
    var ds := OneDashboard(connectionId, groupId, id).dashboards.value;
    assert ds[0].dashboardId == id && DashboardAllows(ds[0].access, DashboardEdit);
    hide NormalDashboards, DashboardAllows;
    NormalDashboardAllows(ds, id, DashboardEdit);
    var kept := NormalDashboards(ds);
    var i :| 0 <= i < |kept| && kept[i].dashboardId == id && DashboardAllows(kept[i].access, DashboardEdit);
    assert kept[i] in kept;
  }

  /** A policy that lets one dashboard be edited survives exactly when the dashboard's id is well-formed
      (or empty, and then dropped). */
  lemma OneDashboardExact(connectionId: string, groupId: string, id: string)
    requires WellFormedId(connectionId)
    ensures var p := OneDashboard(connectionId, groupId, id);
            ParsedPermissions(PolicyText(Grants(connectionId, false, p)), connectionId, groupId) == Normal(connectionId, groupId, p)
            <==> id == "" || WellFormedId(id)
  {
    var p := OneDashboard(connectionId, groupId, id);
    OneDashboardText(connectionId, groupId, id);
    if id != "" {
      OneDashboardKept(connectionId, groupId, id);
    }
    hide StatementText, Grants, ParsedPermissions, PolicyText, Balanced, Normal, OneDashboard;
    if id == "" || WellFormedId(id) {
      PathReadable(connectionId, id, DashboardEdit);
      RoundTrip(connectionId, groupId, p);
    } else if ParsedPermissions(PolicyText(Grants(connectionId, false, p)), connectionId, groupId) == Normal(connectionId, groupId, p) {
      FoundDashboardIsWellFormed(connectionId, groupId, id);
    }
  }
}
