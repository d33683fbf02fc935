/** What the scanner and the regular expressions see in printed text. */
module PolicyReading {
  import opened Text
  import opened CedarPolicy
  import opened PolicyScanner
  import opened PolicyParser

  // ----- One uid clause -----

  predicate IsWord(s: string) {
    s != "" && forall i :: 0 <= i < |s| ==> IsWordChar(s[i])
  }

  lemma {:induction false} TakeWordAll(w: string, rest: string)
    requires forall i :: 0 <= i < |w| ==> IsWordChar(w[i])
    requires rest != "" && !IsWordChar(rest[0])
    ensures TakeWord(w + rest) == w
  {
    if w == "" {
      assert w + rest == rest;
    } else {
      TakeWordAll(w[1..], rest);
      assert (w + rest)[1..] == w[1..] + rest;
    }
  }

  lemma {:induction false} TakeUnquotedAll(w: string, rest: string)
    requires NoQuote(w) && rest != "" && rest[0] == '\"'
    ensures TakeUnquoted(w + rest) == w
  {
    if w == "" {
      assert w + rest == rest;
    } else {
      TakeUnquotedAll(w[1..], rest);
      assert (w + rest)[1..] == w[1..] + rest;
    }
  }

  lemma PrefixDrop(p: string, q: string)
    ensures p <= p + q && (p + q)[|p|..] == q
  {}

  lemma {:induction false} DropLeadingSpaces(blanks: string, u: string)
    requires forall i :: 0 <= i < |blanks| ==> IsSpace(blanks[i])
    requires u != "" && !IsSpace(u[0])
    ensures DropSpaces(blanks + u) == u
  {
    if blanks == "" {
      assert blanks + u == u;
    } else {
      DropLeadingSpaces(blanks[1..], u);
      assert (blanks + u)[1..] == blanks[1..] + u;
    }
  }

  lemma EqualsClause(rest: string)
    requires rest != "" && !IsSpace(rest[0])
    ensures var t := DropSpaces(" == " + rest); "==" <= t && DropSpaces(t[2..]) == rest
  {
    Assoc(" ", "== ", rest);
    Assoc("==", " ", rest);
    DropLeadingSpaces(" ", "== " + rest);
    PrefixDrop("==", " " + rest);
    DropLeadingSpaces(" ", rest);
  }

  lemma Regroup(a: string, b: string, c: string, d: string, e: string, f: string)
    ensures a + b + c + d + e + f == a + (b + (c + (d + (e + f))))
  {
    Assoc(d, e, f);
    Assoc(c, d + e, f);
    Assoc(c, d, e);
    Assoc(b, c + d + e, f);
    Assoc(b, c, d);
    Assoc(b, c + d, e);
    Assoc(a, b + c + d + e, f);
    Assoc(a, b, c);
    Assoc(a, b + c, d);
    Assoc(a, b + c + d, e);
  }

  lemma MatchNamed(kind: string, quoted: string)
    requires IsWord(kind)
    ensures MatchKindAndId(kind + ("::\"" + quoted)) ==
            var id := TakeUnquoted(quoted);
            if id == "" || |id| == |quoted| then None else Some(Uid(kind, id, quoted[|id| + 1..]))
  {
    TakeWordAll(kind, "::\"" + quoted);
    PrefixDrop(kind, "::\"" + quoted);
    PrefixDrop("::\"", quoted);
  }

  /** How the match reads a clause up to the opening quote of its id. */
  lemma MatchClause(word: string, kind: string, quoted: string)
    requires word != "" && IsWord(kind)
    ensures MatchUid(word + " == " + "RocketAdmin::" + kind + "::\"" + quoted, word) ==
            var id := TakeUnquoted(quoted);
            if id == "" || |id| == |quoted| then None else Some(Uid(kind, id, quoted[|id| + 1..]))
  {
    MatchNamed(kind, quoted);
    hide MatchKindAndId, IsWord;
    var named := kind + ("::\"" + quoted);
    var prefixed := "RocketAdmin::" + named;
    Regroup(word, " == ", "RocketAdmin::", kind, "::\"", quoted);
    PrefixDrop(word, " == " + prefixed);
    EqualsClause(prefixed);
    PrefixDrop("RocketAdmin::", named);
  }

  /** A printed clause is read back exactly when its id is non-empty and has no quote. */
  lemma ReadClause(word: string, kind: string, id: string, rest: string)
    requires word != "" && IsWord(kind)
    ensures id != "" && NoQuote(id) ==> MatchUid(UidClause(word, kind, id) + rest, word) == Some(Uid(kind, id, rest))
  {
    hide MatchUid, IsWord;
    var quoted := id + ("\"" + rest);
    MatchClause(word, kind, quoted);
    ClauseSplit(word, kind, id, rest);
    if id != "" && NoQuote(id) {
      TakeUnquotedAll(id, "\"" + rest);
      assert quoted[|id| + 1..] == rest;
    }
  }

  lemma ClauseSplit(word: string, kind: string, id: string, rest: string)
    ensures UidClause(word, kind, id) + rest == word + " == " + "RocketAdmin::" + kind + "::\"" + (id + ("\"" + rest))
  {
    var front := word + " == " + "RocketAdmin::" + kind + "::\"";
    assert UidClause(word, kind, id) == (front + id) + "\"";
    assert ((front + id) + "\"") + rest == front + (id + ("\"" + rest));
  }

  // ----- Finding a clause inside a body -----

  /** `word` does not start inside `p`, whatever text follows `p`: three characters of `p` show it. */
  predicate Avoids(p: string, word: string)
    requires |word| >= 3
  {
    forall i {:trigger p[i]} :: 0 <= i < |p| && p[i] == word[0] ==> i + 2 < |p| && !(p[i + 1] == word[1] && p[i + 2] == word[2])
  }

  lemma AvoidsConcat(p: string, q: string, word: string)
    requires |word| >= 3 && Avoids(p, word) && Avoids(q, word)
    ensures Avoids(p + q, word)
  {
    var t := p + q;
    forall i | 0 <= i < |t| && t[i] == word[0]
      ensures i + 2 < |t| && !(t[i + 1] == word[1] && t[i + 2] == word[2])
    {
      if i < |p| {
        assert p[i] == word[0];
      } else {
        assert q[i - |p|] == word[0];
      }
    }
  }

  lemma AvoidsHere(p: string, q: string, word: string)
    requires |word| >= 3 && Avoids(p, word) && p != ""
    ensures !(word <= p + q)
  {
    var k := if p[0] != word[0] then 0 else if p[1] != word[1] then 1 else 2;
    assert (p + q)[k] == p[k] != word[k];
  }

  lemma {:induction false} SkipTo(p: string, q: string, word: string, kind: Option<string>)
    requires |word| >= 3 && Avoids(p, word)
    ensures FirstUid(p + q, word, kind) == FirstUid(q, word, kind)
  {
    if p == "" {
      assert p + q == q;
    } else {
      hide MatchUid;
      AvoidsHere(p, q, word);
      assert MatchUid(p + q, word).None?;
      assert Avoids(p[1..], word) by {
        forall i | 0 <= i < |p[1..]| && p[1..][i] == word[0]
          ensures i + 2 < |p[1..]| && !(p[1..][i + 1] == word[1] && p[1..][i + 2] == word[2])
        {
          assert p[i + 1] == word[0];
        }
      }
      SkipTo(p[1..], q, word, kind);
      assert (p + q)[1..] == p[1..] + q;
    }
  }

  lemma FirstIsHere(s: string, word: string, kind: Option<string>)
    requires MatchKind(s, word, kind).Some?
    ensures FirstUid(s, word, kind) == MatchKind(s, word, kind)
  {}

  // ----- Facts about the fixed words -----

  const ACTION := "action"
  const RESOURCE := "resource"

  lemma PrincipalFacts()
    ensures NoParens(PRINCIPAL) && Avoids(PRINCIPAL, ACTION) && Avoids(PRINCIPAL, RESOURCE)
  {}

  /** Neither quotes nor parentheses, and no start of a resource clause. */
  predicate Harmless(name: string) {
    name != "" && NoQuote(name) && NoParens(name) && Avoids(name, "resource")
  }

  lemma ConnectionNames()
    ensures Harmless("connection:read") && Harmless("connection:edit")
  {}

  lemma GroupNames()
    ensures Harmless("group:read") && Harmless("group:edit")
  {}

  lemma TableReadNames()
    ensures Harmless("table:read") && Harmless("table:add")
  {}

  lemma TableEditNames()
    ensures Harmless("table:edit") && Harmless("table:delete")
  {}

  lemma DashboardReadNames()
    ensures Harmless("dashboard:read") && Harmless("dashboard:create")
  {}

  lemma DashboardEditNames()
    ensures Harmless("dashboard:edit") && Harmless("dashboard:delete")
  {}

  lemma ActionNameHarmless(a: Action)
    ensures Harmless(ActionName(a))
  {
    hide Harmless;
    ConnectionNames();
    GroupNames();
    TableReadNames();
    TableEditNames();
    DashboardReadNames();
    DashboardEditNames();
  }

  lemma ActionNameAvoids(a: Action)
    ensures Avoids(ActionName(a), RESOURCE)
  {
    hide ActionName, Avoids;
    ActionNameHarmless(a);
  }

  lemma ActionNameParens(a: Action)
    ensures NoParens(ActionName(a))
  {
    hide ActionName, NoParens;
    ActionNameHarmless(a);
  }

  lemma ActionNameQuotes(a: Action)
    ensures NoQuote(ActionName(a)) && ActionName(a) != ""
  {
    hide ActionName, NoQuote;
    ActionNameHarmless(a);
  }

  lemma ActionNameRead(a: Action)
    ensures ActionNamed(ActionName(a)) == Some(a)
  {
    assert |"connection:read"| == |"connection:edit"| == 15 && |"group:read"| == |"group:edit"| == |"table:read"| == |"table:edit"| == 10;
    assert |"table:add"| == 9 && |"table:delete"| == 12 && |"dashboard:read"| == |"dashboard:edit"| == 14;
    assert |"dashboard:create"| == |"dashboard:delete"| == 16;
    assert "connection:read"[11] != "connection:edit"[11];
    assert "group:read"[6] != "group:edit"[6] && "group:read"[0] != "table:read"[0] && "group:edit"[0] != "table:edit"[0];
    assert "table:read"[6] != "table:edit"[6] && "group:read"[0] != "table:edit"[0] && "group:edit"[0] != "table:read"[0];
    assert "dashboard:read"[10] != "dashboard:edit"[10] && "dashboard:create"[10] != "dashboard:delete"[10];
  }

  /** A name is recognised as an action exactly when it is that action's name. */
  lemma ActionNamedExact(name: string, a: Action)
    ensures ActionNamed(name) == Some(a) <==> name == ActionName(a)
  {
    ActionNameRead(a);
    NamedAsPrinted(name);
    hide ActionNamed, ActionName;
  }

  lemma NamedAsPrinted(name: string)
    ensures ActionNamed(name).Some? ==> name == ActionName(ActionNamed(name).value)
  {}

  /** A resource id names what follows the connection, and, for another connection's, itself. */
  lemma LocalNameExact(id: string, connectionId: string, name: string)
    ensures LocalName(Some(id), connectionId) == name <==>
            id == connectionId + "/" + name || (!(connectionId + "/" <= id) && name == id)
  {
    var prefix := connectionId + "/";
    assert prefix <= id ==> id == prefix + id[|prefix|..];
    assert (prefix + name)[|prefix|..] == name;
  }

  lemma TypeNameFacts(t: ResourceType)
    ensures IsWord(TypeName(t)) && NoParens(TypeName(t)) && NoQuote(TypeName(t))
  {}

  // ----- A whole body -----

  lemma ActionClauseAvoids(a: Action)
    ensures Avoids(PRINCIPAL + UidClause(ACTION, "Action", ActionName(a)) + COMMA, RESOURCE)
  {
    var name := ActionName(a);
    ActionNameAvoids(a);
    hide ActionName;
    PrincipalFacts();
    AvoidsConcat(ACTION, " == ", RESOURCE);
    AvoidsConcat(ACTION + " == ", "RocketAdmin::", RESOURCE);
    AvoidsConcat(ACTION + " == " + "RocketAdmin::", "Action", RESOURCE);
    AvoidsConcat(ACTION + " == " + "RocketAdmin::" + "Action", "::\"", RESOURCE);
    AvoidsConcat(ACTION + " == " + "RocketAdmin::" + "Action" + "::\"", name, RESOURCE);
    AvoidsConcat(ACTION + " == " + "RocketAdmin::" + "Action" + "::\"" + name, "\"", RESOURCE);
    AvoidsConcat(PRINCIPAL, UidClause(ACTION, "Action", name), RESOURCE);
    AvoidsConcat(PRINCIPAL + UidClause(ACTION, "Action", name), COMMA, RESOURCE);
  }

  /** The action of a printed body is read back, whatever follows its clause. */
  lemma ReadAction(a: Action, rest: string)
    ensures var r := ParsePermitBody(PRINCIPAL + (UidClause(ACTION, "Action", ActionName(a)) + rest));
            r.action == Some(ActionName(a)) && !r.isWildcard
  {
    var clause := UidClause(ACTION, "Action", ActionName(a));
    ActionNameQuotes(a);
    PrincipalFacts();
    hide ActionName, UidClause, MatchUid, Avoids;
    SkipTo(PRINCIPAL, clause + rest, ACTION, Some("Action"));
    ReadClause(ACTION, "Action", ActionName(a), rest);
    FirstIsHere(clause + rest, ACTION, Some("Action"));
  }

  /** The action of a printed body is always read back, and the body is never taken for a wildcard. */
  lemma ReadBodyAction(a: Action, t: ResourceType, id: string)
    ensures var r := ParsePermitBody(Body(Permit(a, t, id))); r.action == Some(ActionName(a)) && !r.isWildcard
  {
    var clause := UidClause(ACTION, "Action", ActionName(a));
    var resource := UidClause(RESOURCE, TypeName(t), id);
    assert Body(Permit(a, t, id)) == PRINCIPAL + clause + COMMA + resource + "\n";
    hide *;
    Assoc(PRINCIPAL, clause, COMMA);
    Assoc(PRINCIPAL, clause + COMMA, resource);
    Assoc(PRINCIPAL, clause + COMMA + resource, "\n");
    Assoc(clause, COMMA, resource);
    Assoc(clause, COMMA + resource, "\n");
    ReadAction(a, COMMA + resource + "\n");
  }

  lemma ReadBodyResource(a: Action, t: ResourceType, id: string)
    requires id != "" && NoQuote(id)
    ensures var r := ParsePermitBody(Body(Permit(a, t, id)));
            r.resourceId == Some(id) && r.resourceType == Some("RocketAdmin::" + TypeName(t))
  {
    var body := Body(Permit(a, t, id));
    var before := PRINCIPAL + UidClause(ACTION, "Action", ActionName(a)) + COMMA;
    var clause := UidClause(RESOURCE, TypeName(t), id);
    ActionClauseAvoids(a);
    TypeNameFacts(t);
    hide ActionName, TypeName, UidClause, MatchUid, Avoids;
    assert body == before + (clause + "\n");
    SkipTo(before, clause + "\n", RESOURCE, None);
    ReadClause(RESOURCE, TypeName(t), id, "\n");
    FirstIsHere(clause + "\n", RESOURCE, None);
  }

  /** The resource id of a printed body is read back exactly when it is non-empty and has no quote. */
  lemma ReadBody(a: Action, t: ResourceType, id: string)
    ensures ParsePermitBody(Body(Permit(a, t, id))).resourceId == Some(id) <==> id != "" && NoQuote(id)
  {
    if id != "" && NoQuote(id) {
      ReadBodyResource(a, t, id);
    }
  }

  lemma {:induction false} BareActionLater(p: string, q: string)
    requires HasBareAction(q)
    ensures HasBareAction(p + q)
  {
    if p == "" {
      assert p + q == q;
    } else {
      BareActionLater(p[1..], q);
      assert (p + q)[1..] == p[1..] + q;
    }
  }

  /** The unconstrained statement is taken for a wildcard. */
  lemma ReadPermitAll()
    ensures ParsePermitBody(Body(PermitAll)).isWildcard
  {
    var tail, early := COMMA + RESOURCE + "\n", "\n  principal";
    var body := Body(PermitAll);
    PermitAllSplit();
    PrincipalFacts();
    hide MatchUid, Avoids, HasBareAction, HasBareResource, Body;
    SkipTo(PRINCIPAL, ACTION + tail, ACTION, Some("Action"));
    NoActionInTail();
    BareActionAtComma();
    BareActionLater(early, COMMA + ACTION + tail);
  }

  lemma PermitAllSplit()
    ensures var tail := COMMA + RESOURCE + "\n";
            && Body(PermitAll) == PRINCIPAL + (ACTION + tail)
            && Body(PermitAll) == "\n  principal" + (COMMA + ACTION + tail)
  {
    assert PRINCIPAL == "\n  principal" + COMMA;
  }

  lemma NoActionInTail()
    ensures FirstUid(ACTION + (COMMA + RESOURCE + "\n"), ACTION, Some("Action")).None?
  {
    var tail := COMMA + RESOURCE + "\n";
    var s := ACTION + tail;
    assert s[|ACTION|..] == tail && tail[0] == ',';
    assert DropSpaces(tail) == tail;
    assert MatchUid(s, ACTION).None?;
    assert s[1..] == "ction" + tail;
    AvoidsConcat(COMMA, RESOURCE, ACTION);
    AvoidsConcat(COMMA + RESOURCE, "\n", ACTION);
    AvoidsConcat("ction", tail, ACTION);
    SkipTo("ction" + tail, "", ACTION, Some("Action"));
    assert ("ction" + tail) + "" == "ction" + tail;
  }

  lemma BareActionAtComma()
    ensures HasBareAction(COMMA + ACTION + (COMMA + RESOURCE + "\n"))
  {
    var tail := COMMA + RESOURCE + "\n";
    var u := ACTION + tail;
    assert COMMA == "," + "\n  " && tail[0] == ',' && u[0] == 'a';
    hide COMMA, RESOURCE;
    DropLeadingSpaces("\n  ", u);
    DropLeadingSpaces("", tail);
    PrefixDrop(ACTION, tail);
    Assoc(",", "\n  ", ACTION);
    Assoc(",", "\n  " + ACTION, tail);
    Assoc("\n  ", ACTION, tail);
    PrefixDrop(",", "\n  " + u);
    assert "" + tail == tail;
  }
}
