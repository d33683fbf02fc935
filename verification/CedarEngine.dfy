/** What the Cedar engine makes of a policy text, for the fragment the program prints: permit statements
    without conditions, for any principal. A request is denied unless some statement permits exactly its
    action and its resource, or everything. Text outside the fragment is an error, and an error allows nothing. */
module CedarEngine {
  import opened Text
  import opened CedarPolicy
  import opened PolicyScanner
  import opened PolicyParser
  import opened PolicyReading
  import opened PrintedPolicies

  /** The fragment's statements as the engine reads them; an absent clause places no constraint. */
  datatype Rule = Rule(action: Option<string>, resource: Option<Entity>)

  datatype Entity = Entity(kind: string, id: string)

  datatype Read<+T> = Fail | Got(value: T, rest: string) {
    predicate IsFailure() { Fail? }
    function PropagateFailure<U>(): Read<U> requires Fail? { Fail }
    function Extract(): (T, string) requires Got? { (value, rest) }
  }

  // ----- Reading -----

  function DropBlanks(s: string): (r: string)
    ensures |r| <= |s|
  {
    if |s| > 0 && IsBlank(s[0]) then DropBlanks(s[1..]) else s
  }

  /** The next token of `s`, after blanks, is `token`. */
  function Expect(token: string, s: string): (r: Read<()>)
    ensures r.Got? && token != "" ==> |r.rest| < |s|
  {
    var t := DropBlanks(s);
    if token <= t then Got((), t[|token|..]) else Fail
  }

  /** A string literal without escapes. */
  function ReadString(s: string): (r: Read<string>)
    ensures r.Got? ==> |r.rest| < |s|
  {
    var (_, t) :- Expect("\"", s);
    var id := TakeUnquoted(t);
    if |id| == |t| || '\\' in id then Fail else Got(id, t[|id| + 1..])
  }

  /** `RocketAdmin::kind::"id"` */
  function ReadEntity(s: string): (r: Read<Entity>)
    ensures r.Got? ==> |r.rest| < |s|
  {
    var (_, s1) :- Expect("RocketAdmin::", s);
    var kind := TakeWord(s1);
    var (_, s2) :- Expect("::", s1[|kind|..]);
    var (id, s3) :- ReadString(s2);
    if kind == "" then Fail else Got(Entity(kind, id), s3)
  }

  /** `== entity`, or nothing. */
  function ReadConstraint(s: string): (r: Read<Option<Entity>>)
    ensures r.Got? ==> |r.rest| <= |s|
  {
    match Expect("==", s)
    case Fail => Got(None, s)
    case Got(_, s1) =>
      var (entity, s2) :- ReadEntity(s1);
      Got(Some(entity), s2)
  }

  function ReadRule(s: string): (r: Read<Rule>)
    ensures r.Got? ==> |r.rest| < |s|
  {
    var (_, s1) :- Expect("permit", s);
    var (_, s2) :- Expect("(", s1);
    var (_, s3) :- Expect("principal", s2);
    var (_, s4) :- Expect(",", s3);
    var (_, s5) :- Expect("action", s4);
    var (action, s6) :- ReadConstraint(s5);
    var (_, s7) :- Expect(",", s6);
    var (_, s8) :- Expect("resource", s7);
    var (resource, s9) :- ReadConstraint(s8);
    var (_, s10) :- Expect(")", s9);
    var (_, s11) :- Expect(";", s10);
    if action.Some? && action.value.kind != "Action" then Fail
    else Got(Rule(if action.Some? then Some(action.value.id) else None, resource), s11)
  }

  function ReadPolicy(s: string): (r: Option<seq<Rule>>)
    decreases |s|
  {
    if DropBlanks(s) == "" then Some([])
    else
      match ReadRule(s)
      case Fail => None
      case Got(rule, rest) =>
        match ReadPolicy(rest)
        case None => None
        case Some(rules) => Some([rule] + rules)
  }

  // ----- Deciding -----

  datatype Query = Query(action: Action, kind: ResourceType, id: string)

  predicate Permits(r: Rule, q: Query) {
    && (r.action.Some? ==> r.action.value == ActionName(q.action))
    && (r.resource.Some? ==> r.resource.value == Entity(TypeName(q.kind), q.id))
  }

  /** The decision on `q` by the policies of `text`. */
  predicate Allows(text: string, q: Query) {
    var rules := ReadPolicy(text);
    rules.Some? && exists i :: 0 <= i < |rules.value| && Permits(rules.value[i], q)
  }

  // ----- Printed text is read as printed -----

  /** Ids that the printer may put between quotes: it escapes nothing. */
  predicate Quotable(id: string) {
    NoQuote(id) && '\\' !in id
  }

  predicate AllQuotable(ss: seq<Statement>) {
    forall i :: 0 <= i < |ss| ==> ss[i].Permit? ==> Quotable(ss[i].id)
  }

  function RuleOf(s: Statement): Rule {
    match s
    case PermitAll => Rule(None, None)
    case Permit(a, t, id) => Rule(Some(ActionName(a)), Some(Entity(TypeName(t), id)))
  }

  function RulesOf(ss: seq<Statement>): (rs: seq<Rule>)
    ensures |rs| == |ss| && forall i :: 0 <= i < |ss| ==> rs[i] == RuleOf(ss[i])
  {
    seq(|ss|, i requires 0 <= i < |ss| => RuleOf(ss[i]))
  }

  lemma {:induction false} DropBlanksAll(ws: string, t: string)
    requires AllBlank(ws) && t != "" && !IsBlank(t[0])
    ensures DropBlanks(ws + t) == t
  {
    if ws == "" {
      assert ws + t == t;
    } else {
      DropBlanksAll(ws[1..], t);
      assert (ws + t)[1..] == ws[1..] + t;
    }
  }

  lemma ExpectAt(ws: string, token: string, rest: string)
    requires AllBlank(ws) && token != "" && !IsBlank(token[0])
    ensures Expect(token, ws + (token + rest)) == Got((), rest)
  {
    DropBlanksAll(ws, token + rest);
    PrefixDrop(token, rest);
  }

  lemma ExpectNext(token: string, rest: string)
    requires token != "" && !IsBlank(token[0])
    ensures Expect(token, token + rest) == Got((), rest)
  {
    ExpectAt("", token, rest);
    assert "" + (token + rest) == token + rest;
  }

  lemma ReadStringAt(id: string, rest: string)
    requires Quotable(id)
    ensures ReadString("\"" + (id + ("\"" + rest))) == Got(id, rest)
  {
    ExpectNext("\"", id + ("\"" + rest));
    TakeUnquotedAll(id, "\"" + rest);
    var t := id + ("\"" + rest);
    assert t[|id| + 1..] == rest;
  }

  lemma ReadEntityAt(kind: string, id: string, rest: string)
    requires IsWord(kind) && Quotable(id)
    ensures ReadEntity(" " + ("RocketAdmin::" + (kind + ("::" + ("\"" + (id + ("\"" + rest))))))) == Got(Entity(kind, id), rest)
  {
    var literal := "\"" + (id + ("\"" + rest));
    ExpectAt(" ", "RocketAdmin::", kind + ("::" + literal));
    TakeWordAll(kind, "::" + literal);
    PrefixDrop(kind, "::" + literal);
    ExpectNext("::", literal);
    ReadStringAt(id, rest);
  }

  lemma ReadConstraintAt(kind: string, id: string, rest: string)
    requires IsWord(kind) && Quotable(id)
    ensures ReadConstraint(" == " + "RocketAdmin::" + kind + "::\"" + id + "\"" + rest) == Got(Some(Entity(kind, id)), rest)
  {
    var entity := "RocketAdmin::" + (kind + ("::" + ("\"" + (id + ("\"" + rest)))));
    assert " == " == " " + ("==" + " ") && "::\"" == "::" + "\"";
    ConstraintParts(kind, id, rest);
    ExpectAt(" ", "==", " " + entity);
    ReadEntityAt(kind, id, rest);
  }

  lemma ConstraintParts(kind: string, id: string, rest: string)
    ensures " == " + "RocketAdmin::" + kind + "::\"" + id + "\"" + rest ==
            " " + ("==" + (" " + ("RocketAdmin::" + (kind + ("::" + ("\"" + (id + ("\"" + rest))))))))
  {
    var r := "RocketAdmin::";
    assert " == " == " " + "==" + " " && "::\"" == "::" + "\"";
    assert " " + "==" + " " + r + kind + ("::" + "\"") + id + "\"" + rest ==
           " " + ("==" + (" " + (r + (kind + ("::" + ("\"" + (id + ("\"" + rest))))))));
  }

  /** No constraint stands before a ',' or a ')' . */
  lemma NoConstraint(s: string)
    requires var t := DropBlanks(s); t != "" && t[0] != '='
    ensures ReadConstraint(s) == Got(None, s)
  {
    var t := DropBlanks(s);
    assert "=="[0] == '=';
    assert !("==" <= t);
  }

  const INDENT := "\n  "

  /** A statement's text, token by token, with the two constraints left open. */
  function Ending(rest: string): string {
    "\n" + (")" + (";" + rest))
  }

  function Middle(resource: string, rest: string): string {
    "," + (INDENT + (RESOURCE + (resource + Ending(rest))))
  }

  function Tokens(action: string, resource: string, rest: string): string {
    "permit" + ("(" + (INDENT + ("principal" + ("," + (INDENT + (ACTION + (action + Middle(resource, rest))))))))
  }

  lemma ReadRuleTokens(action: string, a: Option<Entity>, resource: string, b: Option<Entity>, rest: string)
    requires ReadConstraint(action + Middle(resource, rest)) == Got(a, Middle(resource, rest))
    requires ReadConstraint(resource + Ending(rest)) == Got(b, Ending(rest))
    requires a.Some? ==> a.value.kind == "Action"
    ensures ReadRule(Tokens(action, resource, rest)) == Got(Rule(if a.Some? then Some(a.value.id) else None, b), rest)
  {
    assert AllBlank(INDENT) && AllBlank("\n") && RESOURCE != "" && !IsBlank(RESOURCE[0]) && ACTION != "" && !IsBlank(ACTION[0]);
    hide ReadConstraint, INDENT, ACTION, RESOURCE, Expect, AllBlank;
    var s5 := action + Middle(resource, rest);
    var s8 := resource + Ending(rest);
    ExpectNext("permit", "(" + (INDENT + ("principal" + ("," + (INDENT + (ACTION + s5))))));
    ExpectNext("(", INDENT + ("principal" + ("," + (INDENT + (ACTION + s5)))));
    ExpectAt(INDENT, "principal", "," + (INDENT + (ACTION + s5)));
    ExpectNext(",", INDENT + (ACTION + s5));
    ExpectAt(INDENT, ACTION, s5);
    ExpectNext(",", INDENT + (RESOURCE + s8));
    ExpectAt(INDENT, RESOURCE, s8);
    ExpectAt("\n", ")", ";" + rest);
    ExpectNext(";", rest);
  }

  function Constraint(kind: string, id: string): string {
    " == " + "RocketAdmin::" + kind + "::\"" + id + "\""
  }

  lemma PermitTokens(a: Action, t: ResourceType, id: string, rest: string)
    ensures StatementText(Permit(a, t, id)) + rest ==
            Tokens(Constraint("Action", ActionName(a)), Constraint(TypeName(t), id), rest)
  {
    var c1, c2 := Constraint("Action", ActionName(a)), Constraint(TypeName(t), id);
    assert UidClause(ACTION, "Action", ActionName(a)) == ACTION + c1;
    assert UidClause(RESOURCE, TypeName(t), id) == RESOURCE + c2;
    FixedParts();
    hide ActionName, TypeName, UidClause, Constraint, OPEN, CLOSE, PRINCIPAL, COMMA, INDENT;
    PartsTokens(c1, c2, rest);
  }

  lemma FixedParts()
    ensures OPEN == "permit" + "(" && CLOSE == ")" + ";"
    ensures PRINCIPAL == INDENT + "principal" + "," + INDENT && COMMA == "," + INDENT
  {}

  lemma PartsTokens(c1: string, c2: string, rest: string)
    ensures ("permit" + "(") + ((INDENT + "principal" + "," + INDENT) + (ACTION + c1) + ("," + INDENT) + (RESOURCE + c2) + "\n") + (")" + ";") + rest
            == Tokens(c1, c2, rest)
  {
    hide INDENT, ACTION, RESOURCE;
  }

  lemma PermitAllTokens(rest: string)
    ensures StatementText(PermitAll) + rest == Tokens("", "", rest)
  {
    FixedParts();
    assert Body(PermitAll) == PRINCIPAL + ACTION + COMMA + RESOURCE + "\n";
    hide Body, OPEN, CLOSE, PRINCIPAL, COMMA, INDENT, ACTION, RESOURCE;
    assert ACTION + "" == ACTION && RESOURCE + "" == RESOURCE;
    PartsTokens("", "", rest);
  }

  lemma EmptyConstraints(rest: string)
    ensures ReadConstraint("" + Middle("", rest)) == Got(None, Middle("", rest))
    ensures ReadConstraint("" + Ending(rest)) == Got(None, Ending(rest))
  {
    var m, e := Middle("", rest), Ending(rest);
    assert "" + m == m && "" + e == e;
    assert m[0] == ',' && DropBlanks(m) == m;
    DropBlanksAll("\n", ")" + (";" + rest));
    NoConstraint(m);
    NoConstraint(e);
  }

  /** The engine reads a printed statement as what it states, whatever text follows it. */
  lemma ReadRuleAt(s: Statement, rest: string)
    requires s.Permit? ==> Quotable(s.id)
    ensures ReadRule(StatementText(s) + rest) == Got(RuleOf(s), rest)
  {
    match s
    case PermitAll =>
      PermitAllTokens(rest);
      EmptyConstraints(rest);
      hide Tokens, Middle, Ending, ReadRule, ReadConstraint, StatementText;
      ReadRuleTokens("", None, "", None, rest);
    case Permit(a, t, id) =>
      PermitTokens(a, t, id, rest);
      TypeNameFacts(t);
      ActionNameQuotable(a);
      var name, kind := ActionName(a), TypeName(t);
      var c1, c2 := Constraint("Action", name), Constraint(kind, id);
      assert IsWord("Action");
      hide ActionName, TypeName, Tokens, Middle, Ending, ReadRule, ReadConstraint, StatementText, Quotable, IsWord;
      ReadConstraintAt("Action", name, Middle(c2, rest));
      ReadConstraintAt(kind, id, Ending(rest));
      ReadRuleTokens(c1, Some(Entity("Action", name)), c2, Some(Entity(kind, id)), rest);
  }

  lemma ActionNameQuotable(a: Action)
    ensures Quotable(ActionName(a))
  {
    ActionNameQuotes(a);
    hide NoQuote;
  }

  lemma ReadPolicyUnfold(s: string, r: Rule, rest: string)
    requires DropBlanks(s) != "" && ReadRule(s) == Got(r, rest)
    ensures ReadPolicy(s) == match ReadPolicy(rest) case None => None case Some(rs) => Some([r] + rs)
  {}

  lemma StatementStarts(s: Statement, rest: string)
    ensures DropBlanks(StatementText(s) + rest) != ""
  {
    assert OPEN[0] == 'p';
    hide Body;
    var t := StatementText(s) + rest;
    assert t[0] == 'p';
  }

  lemma ReadRuleIgnoresBlanks(s: string, t: string)
    requires DropBlanks(s) == DropBlanks(t)
    ensures ReadRule(s) == ReadRule(t)
  {
    assert Expect("permit", s) == Expect("permit", t);
    hide Expect, ReadConstraint;
  }

  lemma ReadPolicyIgnoresBlanks(s: string, t: string)
    requires DropBlanks(s) == DropBlanks(t)
    ensures ReadPolicy(s) == ReadPolicy(t)
  {
    ReadRuleIgnoresBlanks(s, t);
    hide DropBlanks, ReadRule;
  }

  lemma ReadPolicySeparated(s: string)
    ensures ReadPolicy(SEPARATOR + s) == ReadPolicy(s)
  {
    var t := SEPARATOR + s;
    assert t[1..] == "\n" + s && t[1..][1..] == s;
    ReadPolicyIgnoresBlanks(t, s);
  }

  /** Printed text is in the fragment, and the engine reads exactly the printed statements. */
  lemma {:induction false} ReadPrinted(ss: seq<Statement>)
    requires AllQuotable(ss)
    ensures ReadPolicy(PolicyText(ss)) == Some(RulesOf(ss))
    decreases |ss|
  {
    hide StatementText, Quotable, RuleOf, ReadRule;
    if ss == [] {
      assert PolicyText(ss) == "" && RulesOf(ss) == [];
    } else {
      var s, more := ss[0], ss[1..];
      assert ss == [s] + more && (s.Permit? ==> Quotable(s.id)) && AllQuotable(more);
      RulesOfCons(s, more);
      PolicyTextCons(s, more);
      ReadPrinted(more);
      assert ReadPolicy("") == Some([]) && (more == [] ==> PolicyText(more) == "");
      hide *;
      var rest := if more == [] then "" else SEPARATOR + PolicyText(more);
      assert PolicyText(ss) == StatementText(s) + rest by {
        if more == [] {
          assert StatementText(s) + "" == StatementText(s);
        } else {
          assert StatementText(s) + SEPARATOR + PolicyText(more) == StatementText(s) + (SEPARATOR + PolicyText(more));
        }
      }
      ReadRuleAt(s, rest);
      StatementStarts(s, rest);
      ReadPolicyUnfold(PolicyText(ss), RuleOf(s), rest);
      ReadPolicySeparated(PolicyText(more));
    }
  }

  lemma RulesOfCons(s: Statement, more: seq<Statement>)
    ensures RulesOf([s] + more) == [RuleOf(s)] + RulesOf(more)
  {
    hide RuleOf;
  }

  lemma TypeNamesDiffer(t: ResourceType, u: ResourceType)
    ensures TypeName(t) == TypeName(u) ==> t == u
  {
    assert |"Connection"| == 10 && |"Group"| == 5 && |"Table"| == 5 && |"Dashboard"| == 9 && "Group"[0] != "Table"[0];
  }

  lemma ActionNamesDiffer(a: Action, b: Action)
    ensures ActionName(a) == ActionName(b) ==> a == b
  {
    ActionNameRead(a);
    ActionNameRead(b);
    hide ActionName, ActionNamed;
  }

  /** The engine allows exactly the printed statements' requests. */
  lemma AllowsPrinted(ss: seq<Statement>, q: Query)
    requires AllQuotable(ss)
    ensures Allows(PolicyText(ss), q) <==> PermitAll in ss || Permit(q.action, q.kind, q.id) in ss
  {
    ReadPrinted(ss);
    hide PolicyText, ReadPolicy, ActionName, TypeName, Quotable;
    forall i | 0 <= i < |ss|
      ensures Permits(RulesOf(ss)[i], q) <==> ss[i] == PermitAll || ss[i] == Permit(q.action, q.kind, q.id)
    {
      if ss[i].Permit? {
        ActionNamesDiffer(ss[i].action, q.action);
        TypeNamesDiffer(ss[i].kind, q.kind);
      }
    }
  }
}
