/** What scanning and parsing make of printed statements, whatever is printed after them. */
module PrintedPolicies {
  import opened Text
  import opened CedarPolicy
  import opened PolicyScanner
  import opened PolicyParser
  import opened PolicyReading

  // ----- Which printed statements the parser can read -----

  /** Parentheses matter in every id, because the scanner also counts those inside strings;
      quotes only matter where the parser uses the id. */
  predicate Readable(s: Statement) {
    s.Permit? ==>
      && s.kind == Subject(s.action)
      && Balanced(s.id)
      && (s.kind in {TableType, DashboardType} ==> NoQuote(s.id) && s.id != "")
  }

  predicate AllReadable(ss: seq<Statement>) {
    forall i :: 0 <= i < |ss| ==> Readable(ss[i])
  }

  lemma NoParensConcat(p: string, q: string)
    requires NoParens(p) && NoParens(q)
    ensures NoParens(p + q)
  {}

  function BeforeId(a: Action, t: ResourceType): string {
    PRINCIPAL + UidClause(ACTION, "Action", ActionName(a)) + COMMA +
    (RESOURCE + " == " + "RocketAdmin::" + TypeName(t) + "::\"")
  }

  lemma BeforeIdFacts(a: Action, t: ResourceType, id: string)
    ensures NoParens(BeforeId(a, t))
    ensures Body(Permit(a, t, id)) == BeforeId(a, t) + id + "\"\n"
  {
    var name, kind := ActionName(a), TypeName(t);
    ActionNameParens(a);
    TypeNameFacts(t);
    PrincipalFacts();
    hide ActionName, TypeName, IsWord;
    ActionClauseParens(name);
    NoParensConcat(RESOURCE + " == " + "RocketAdmin::", kind);
    NoParensConcat(RESOURCE + " == " + "RocketAdmin::" + kind, "::\"");
    var clause := RESOURCE + " == " + "RocketAdmin::" + kind + "::\"";
    NoParensConcat(PRINCIPAL, UidClause(ACTION, "Action", name));
    NoParensConcat(PRINCIPAL + UidClause(ACTION, "Action", name), COMMA);
    NoParensConcat(PRINCIPAL + UidClause(ACTION, "Action", name) + COMMA, clause);
    var head := PRINCIPAL + UidClause(ACTION, "Action", name) + COMMA;
    assert UidClause(RESOURCE, kind, id) == clause + id + "\"";
    assert (head + (clause + id + "\"")) + "\n" == (head + clause) + id + "\"\n";
  }

  lemma ActionClauseParens(name: string)
    requires NoParens(name)
    ensures NoParens(UidClause(ACTION, "Action", name))
  {
    NoParensConcat(ACTION + " == " + "RocketAdmin::" + "Action" + "::\"", name);
    NoParensConcat(ACTION + " == " + "RocketAdmin::" + "Action" + "::\"" + name, "\"");
  }

  /** A printed statement's body is balanced exactly when its id is. */
  lemma BodyBalanced(s: Statement)
    ensures s.Permit? ==> (Balanced(Body(s)) <==> Balanced(s.id))
    ensures s.PermitAll? ==> Balanced(Body(s))
  {
    match s
    case PermitAll =>
      BalancedInside(Body(s), "", "");
      assert Body(s) + "" + "" == Body(s);
      PermitAllParens();
      hide Body;
      assert Balanced("");
    case Permit(a, t, id) =>
      BeforeIdFacts(a, t, id);
      hide Body, BeforeId;
      BalancedInside(BeforeId(a, t), id, "\"\n");
  }

  lemma PermitAllParens()
    ensures NoParens(Body(PermitAll))
  {
    PrincipalFacts();
    NoParensConcat(PRINCIPAL, ACTION);
    NoParensConcat(PRINCIPAL + ACTION, COMMA);
    NoParensConcat(PRINCIPAL + ACTION + COMMA, RESOURCE);
    NoParensConcat(PRINCIPAL + ACTION + COMMA + RESOURCE, "\n");
  }

  // ----- Scanning distributes over printed statements -----

  function BodiesOf(ss: seq<Statement>): (bs: seq<string>)
    ensures |bs| == |ss| && forall i :: 0 <= i < |ss| ==> bs[i] == Body(ss[i])
  {
    seq(|ss|, i requires 0 <= i < |ss| => Body(ss[i]))
  }

  lemma BodiesOfConcat(a: seq<Statement>, b: seq<Statement>)
    ensures BodiesOf(a + b) == BodiesOf(a) + BodiesOf(b)
    ensures |a| == 1 ==> BodiesOf(a) == [Body(a[0])]
  {
    hide Body;
  }

  function ScanFrom(s: string, from: nat): seq<string>
    requires from <= |s|
  {
    Bodies(s, Spans(s, from))
  }

  lemma ScanOne(s: string, from: nat, x: Statement, rest: string)
    requires from <= |s| && s[from..] == StatementText(x) + rest && Readable(x)
    ensures var next := from + |StatementText(x)|;
            next <= |s| && s[next..] == rest && ScanFrom(s, from) == [Body(x)] + ScanFrom(s, next)
  {
    BodyBalanced(x);
    hide Body, Spans;
    ScanStatement(s, from, Body(x), rest);
  }

  lemma ScanSeparator(s: string, from: nat, tail: string)
    requires from <= |s| && s[from..] == SEPARATOR + tail
    ensures from + 2 <= |s| && s[from + 2..] == tail && ScanFrom(s, from) == ScanFrom(s, from + 2)
  {
    hide Spans, Bodies;
    assert s[from] == s[from..][0] == '\n' && s[from + 1] == s[from..][1] == '\n';
    ScanSkips(s, from, 2);
    assert s[from + 2..] == s[from..][2..];
  }

  /** Printed statements, whatever text follows them, are reported one by one;
      the scan then goes on as if it had started after them. */
  lemma {:induction false} ScanPolicy(s: string, from: nat, ss: seq<Statement>, rest: string)
    requires from <= |s| && s[from..] == PolicyText(ss) + rest && AllReadable(ss)
    ensures var next := from + |PolicyText(ss)|;
            next <= |s| && s[next..] == rest && ScanFrom(s, from) == BodiesOf(ss) + ScanFrom(s, next)
    decreases |ss|
  {
    hide StatementText, Body, ScanFrom, Readable;
    if ss == [] {
      assert PolicyText(ss) == "" && BodiesOf(ss) == [];
      hide *;
      assert "" + rest == rest;
      var found := ScanFrom(s, from);
      assert [] + found == found;
    } else {
      var x, more := ss[0], ss[1..];
      assert ss == [x] + more && Readable(x);
      PolicyTextCons(x, more);
      BodiesOfConcat([x], more);
      assert AllReadable(more) && |SEPARATOR| == 2;
      hide *;
      var text, mid := StatementText(x), from + |StatementText(x)|;
      if more == [] {
        ScanOne(s, from, x, rest);
      } else {
        var tail := PolicyText(more) + rest;
        AssocFour(text, SEPARATOR, PolicyText(more), rest);
        ScanOne(s, from, x, SEPARATOR + tail);
        ScanSeparator(s, mid, tail);
        ScanPolicy(s, mid + 2, more, rest);
        var next := mid + 2 + |PolicyText(more)|;
        Assoc([Body(x)], BodiesOf(more), ScanFrom(s, next));
        assert next == from + |PolicyText(ss)|;
      }
    }
  }

  // ----- What the collected statements amount to -----

  function CollectStatement(c: Collected, s: Statement, connectionId: string): Collected {
    match s
    case PermitAll => c.(connectionLevel := Edit, groupLevel := Edit)
    case Permit(a, _, id) => CollectAction(c, a, Some(id), connectionId)
  }

  function CollectStatements(ss: seq<Statement>, connectionId: string): Collected {
    if |ss| == 0 then NOTHING
    else CollectStatement(CollectStatements(ss[..|ss| - 1], connectionId), ss[|ss| - 1], connectionId)
  }

  lemma CollectReads(c: Collected, s: Statement, connectionId: string)
    requires Readable(s)
    ensures Collect(c, ParsePermitBody(Body(s)), connectionId) == CollectStatement(c, s, connectionId)
  {
    match s
    case PermitAll =>
      ReadPermitAll();
    case Permit(a, t, id) =>
      ReadBodyAction(a, t, id);
      ReadBody(a, t, id);
      ActionNameRead(a);
      hide ParsePermitBody, Body, ActionName, ActionNamed;
  }

  lemma {:induction false} CollectAllReads(ss: seq<Statement>, connectionId: string)
    requires AllReadable(ss)
    ensures CollectAll(BodiesOf(ss), connectionId) == CollectStatements(ss, connectionId)
  {
    if |ss| > 0 {
      var init, last := ss[..|ss| - 1], ss[|ss| - 1];
      BodiesOfConcat(init, [last]);
      assert ss == init + [last];
      CollectAllReads(init, connectionId);
      CollectReads(CollectStatements(init, connectionId), last, connectionId);
      hide Collect, CollectStatement, Readable, ParsePermitBody, Body;
      assert BodiesOf(ss)[..|ss| - 1] == BodiesOf(init);
    }
  }

  /** What printed statements do to the parser, whatever their ids contain quotes or not. */
  lemma ParsePrinted(ss: seq<Statement>, connectionId: string, groupId: string)
    requires AllReadable(ss)
    ensures ParsedPermissions(PolicyText(ss), connectionId, groupId) ==
            Finish(CollectStatements(ss, connectionId), connectionId, groupId)
  {
    var text := PolicyText(ss);
    hide *;
    assert text[0..] == text == text + "";
    ScanPolicy(text, 0, ss, "");
    ScanEnd(text);
    ScanIsBodies(text);
    assert BodiesOf(ss) + [] == BodiesOf(ss);
    CollectAllReads(ss, connectionId);
    ParsedUnfold(text, connectionId, groupId);
  }

  lemma ScanEnd(s: string)
    ensures ScanFrom(s, |s|) == []
  {}

  lemma ScanIsBodies(s: string)
    ensures ScanFrom(s, 0) == Bodies(s, Spans(s, 0))
  {}

  lemma ParsedUnfold(s: string, connectionId: string, groupId: string)
    ensures ParsedPermissions(s, connectionId, groupId) ==
            Finish(CollectAll(ScanFrom(s, 0), connectionId), connectionId, groupId)
  {}
}
