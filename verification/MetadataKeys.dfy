/** The cache keys of table metadata, and the substring search that invalidates a connection's keys. */
module MetadataKeys {
  import opened Text
  import opened Json

  /** A connection's own enumerable fields, in order. */
  type Connection = seq<Member>

  const COPY := "connectionCopy"
  const TABLE := "tableName"

  function Opening(): string {
    "{" + (Quoted(COPY) + ":")
  }

  function TableTail(table: string): string {
    "," + (Quoted(TABLE) + (":" + (Quoted(table) + "}")))
  }

  /** JSON.stringify({ connectionCopy, tableName }) */
  function Key(c: Connection, table: string): string {
    Opening() + (ObjectText(c) + TableTail(table))
  }

  /** JSON.stringify({ connectionCopy }) without its last character. */
  function Probe(c: Connection): string {
    Opening() + ObjectText(c)
  }

  /** JavaScript's s.includes(p). */
  predicate Includes(s: string, p: string) {
    exists k :: 0 <= k <= |s| && p <= s[k..]
  }

  // ----- At the start -----

  lemma OpeningCancel(x: string, y: string)
    requires Opening() + x == Opening() + y
    ensures x == y
  {
    var o := Opening();
    hide Opening;
    assert (o + x)[|o|..] == x && (o + y)[|o|..] == y;
  }

  lemma PrefixSplit(p: string, s: string)
    requires p <= s
    ensures s == p + s[|p|..]
  {}

  /** A key starts with a connection's probe only if it is that connection's key. */
  lemma ProbeAtStart(c: Connection, table: string, d: Connection)
    requires AllWellFormed(c) && AllWellFormed(d) && Probe(d) <= Key(c, table)
    ensures c == d
  {
    var rest := Key(c, table)[|Probe(d)|..];
    PrefixSplit(Probe(d), Key(c, table));
    hide Opening, ObjectText, TableTail, WellFormed;
    Assoc(Opening(), ObjectText(d), rest);
    OpeningCancel(ObjectText(c) + TableTail(table), ObjectText(d) + rest);
    ObjectCancel(c, d, TableTail(table), rest);
  }

  lemma ProbeIsPrefix(c: Connection, table: string)
    ensures Probe(c) <= Key(c, table)
  {
    hide Opening, ObjectText, TableTail;
    Assoc(Opening(), ObjectText(c), TableTail(table));
  }

  // ----- Nowhere else -----

  /** The three characters that every probe starts with. */
  predicate OpensAt(s: string, k: nat) {
    k + 2 < |s| && s[k] == '{' && s[k + 1] == '\"' && s[k + 2] == 'c'
  }

  /** No probe starts inside `p` when `q` follows. */
  predicate Clean(p: string, q: string) {
    forall k {:trigger OpensAt(p + q, k)} :: 0 <= k < |p| ==> !OpensAt(p + q, k)
  }

  lemma CleanJoin(p: string, q: string, r: string)
    requires Clean(p, q + r) && Clean(q, r)
    ensures Clean(p + q, r)
  {
    Assoc(p, q, r);
    var s, t := (p + q) + r, q + r;
    assert s == p + t;
    forall k | 0 <= k < |p + q|
      ensures !OpensAt(s, k)
    {
      if k >= |p| {
        var j := k - |p|;
        assert !OpensAt(t, j);
        assert forall i :: 0 <= i < |t| ==> s[|p| + i] == t[i];
        assert s[k] == t[j];
        assert k + 2 < |s| ==> s[k + 1] == t[j + 1] && s[k + 2] == t[j + 2];
      }
    }
  }

  lemma CleanNoBrace(p: string, q: string)
    requires forall i :: 0 <= i < |p| ==> p[i] != '{'
    ensures Clean(p, q)
  {
    forall k | 0 <= k < |p|
      ensures !OpensAt(p + q, k)
    {
      assert (p + q)[k] == p[k];
    }
  }

  /** A backslash stands before every quote. */
  predicate QuotesEscaped(e: string) {
    forall i {:trigger e[i]} :: 0 <= i < |e| && e[i] == '\"' ==> i > 0 && e[i - 1] == '\\'
  }

  lemma QuotesEscapedConcat(h: string, t: string)
    requires QuotesEscaped(h) && QuotesEscaped(t)
    ensures QuotesEscaped(h + t)
  {
    var e := h + t;
    forall i | 0 <= i < |e| && e[i] == '\"'
      ensures i > 0 && e[i - 1] == '\\'
    {
      if i < |h| {
        assert h[i] == '\"' && e[i - 1] == h[i - 1];
      } else {
        var j := i - |h|;
        assert t[j] == '\"';
        assert e[i - 1] == t[j - 1];
      }
    }
  }

  lemma {:induction false} EscapeAllQuotes(a: string)
    ensures QuotesEscaped(EscapeAll(a))
  {
    if a != "" {
      EscapeAllQuotes(a[1..]);
      EscapeQuotes(a[0]);
      hide Escape;
      QuotesEscapedConcat(Escape(a[0]), EscapeAll(a[1..]));
    }
  }

  lemma EscapeQuotes(c: char)
    ensures QuotesEscaped(Escape(c))
  {
    var e := Escape(c);
    if c < ' ' && |e| == 6 {
      HexNotQuote(c as int / 16);
      HexNotQuote(c as int % 16);
    }
  }

  lemma HexNotQuote(n: nat)
    requires n < 16
    ensures HexDigit(n) != '\"'
  {}

  lemma CleanEscaped(a: string, rest: string)
    requires rest != "" && rest[0] != 'c'
    ensures Clean(EscapeAll(a), "\"" + rest)
  {
    var e, q := EscapeAll(a), "\"" + rest;
    EscapeAllQuotes(a);
    hide EscapeAll;
    var s := e + q;
    forall k | 0 <= k < |e|
      ensures !OpensAt(s, k)
    {
      assert s[k] == e[k];
      if k + 1 < |e| {
        assert s[k + 1] == e[k + 1];
      } else {
        assert s[k + 2] == q[1] == rest[0];
      }
    }
  }

  lemma CleanQuoted(a: string, rest: string)
    requires rest != "" && rest[0] != 'c'
    ensures Clean(Quoted(a), rest)
  {
    CleanEscaped(a, rest);
    hide EscapeAll, Clean;
    CleanNoBrace("\"", rest);
    CleanJoin(EscapeAll(a), "\"", rest);
    CleanNoBrace("\"", (EscapeAll(a) + "\"") + rest);
    CleanJoin("\"", EscapeAll(a) + "\"", rest);
  }

  lemma CleanScalar(v: Scalar, rest: string)
    requires WellFormed(v) && Delimited(rest)
    ensures Clean(ScalarText(v), rest)
  {
    match v
    case Str(t) => CleanQuoted(t, rest);
    case _ => CleanNoBrace(ScalarText(v), rest);
  }

  lemma CleanMember(m: Member, rest: string)
    requires WellFormed(m.1) && Delimited(rest)
    ensures Clean(MemberText(m), rest)
  {
    hide Quoted, ScalarText, Clean, WellFormed;
    CleanScalar(m.1, rest);
    CleanNoBrace(":", ScalarText(m.1) + rest);
    CleanJoin(":", ScalarText(m.1), rest);
    CleanQuoted(m.0, (":" + ScalarText(m.1)) + rest);
    CleanJoin(Quoted(m.0), ":" + ScalarText(m.1), rest);
  }

  lemma {:induction false} CleanMembers(ms: seq<Member>, x: string)
    requires AllWellFormed(ms)
    ensures Clean(MembersText(ms), "}" + x)
  {
    var rest := "}" + x;
    if |ms| == 0 {
      assert MembersText(ms) == "";
    } else {
      hide MemberText, WellFormed, Clean;
      if |ms| == 1 {
        CleanMember(ms[0], rest);
      } else {
        CleanMembers(ms[1..], x);
        CleanNoBrace(",", MembersText(ms[1..]) + rest);
        CleanJoin(",", MembersText(ms[1..]), rest);
        CleanMember(ms[0], ("," + MembersText(ms[1..])) + rest);
        CleanJoin(MemberText(ms[0]), "," + MembersText(ms[1..]), rest);
      }
    }
  }

  lemma CleanTail(table: string)
    ensures Clean(TableTail(table), "")
  {
    var q, t := Quoted(table), Quoted(TABLE);
    hide Quoted, Clean;
    CleanNoBrace("}", "");
    assert "}" + "" == "}";
    CleanQuoted(table, "}");
    CleanJoin(q, "}", "");
    CleanNoBrace(":", (q + "}") + "");
    CleanJoin(":", q + "}", "");
    CleanQuoted(TABLE, (":" + (q + "}")) + "");
    CleanJoin(t, ":" + (q + "}"), "");
    CleanNoBrace(",", (t + (":" + (q + "}"))) + "");
    CleanJoin(",", t + (":" + (q + "}")), "");
  }

  /** The text of a key after the brace that opens its connection. */
  function Inside(c: Connection, table: string): string {
    MembersText(c) + ("}" + TableTail(table))
  }

  lemma CleanInside(c: Connection, table: string)
    requires AllWellFormed(c)
    ensures Clean(Inside(c, table), "")
  {
    var tail := TableTail(table);
    CleanTail(table);
    hide TableTail, MembersText, Clean, WellFormed;
    CleanNoBrace("}", tail + "");
    CleanJoin("}", tail, "");
    CleanMembers(c, tail);
    assert ("}" + tail) + "" == "}" + tail;
    CleanJoin(MembersText(c), "}" + tail, "");
  }

  lemma CleanName(q: string)
    ensures Clean(Quoted(COPY) + ":", q)
  {
    hide Quoted, Clean;
    CleanNoBrace(":", q);
    CleanQuoted(COPY, ":" + q);
    CleanJoin(Quoted(COPY), ":", q);
  }

  lemma NameHead()
    ensures Quoted(COPY)[0] == '\"' && |Quoted(COPY)| > 1 && Quoted(COPY)[1] == 'c'
  {
    assert COPY[0] == 'c' && Escape('c') == "c";
    var rest := EscapeAll(COPY[1..]);
    assert EscapeAll(COPY) == "c" + rest;
    hide EscapeAll, COPY;
    assert Quoted(COPY) == "\"" + (("c" + rest) + "\"");
  }

  lemma ProbeHead(d: Connection)
    ensures var p := Probe(d); |p| > 2 && p[0] == '{' && p[1] == '\"' && p[2] == 'c'
  {
    NameHead();
    ProbeSplit(d, "");
    hide Quoted, ObjectText, COPY, Probe;
    assert Probe(d) + "" == Probe(d);
    var t := ":" + (ObjectText(d) + "");
    assert (Quoted(COPY) + t)[0] == '\"' && (Quoted(COPY) + t)[1] == 'c';
  }

  lemma ProbeOpens(d: Connection, s: string, k: nat)
    requires k <= |s| && Probe(d) <= s[k..]
    ensures OpensAt(s, k)
  {
    ProbeHead(d);
    hide Probe;
    var p, t := Probe(d), s[k..];
    assert t[0] == p[0] && t[1] == p[1] && t[2] == p[2];
  }

  lemma ProbeSplit(d: Connection, rest: string)
    ensures Probe(d) + rest == "{" + (Quoted(COPY) + (":" + (ObjectText(d) + rest)))
  {
    var q, o := Quoted(COPY), ObjectText(d);
    hide Quoted, ObjectText;
    Assoc("{", q + ":", o);
    Assoc("{", (q + ":") + o, rest);
    Assoc(q, ":", o);
    Assoc(q, ":" + o, rest);
    Assoc(":", o, rest);
  }

  lemma SameAfterBrace(x: string, y: string)
    requires "{" + x == "{" + y
    ensures x == y
  {
    assert ("{" + x)[1..] == x && ("{" + y)[1..] == y;
  }

  lemma SameAfterColon(x: string, y: string)
    requires ":" + x == ":" + y
    ensures x == y
  {
    assert (":" + x)[1..] == x && (":" + y)[1..] == y;
  }

  /** If a probe stood at the object, the object's first value would start with a brace. */
  lemma FirstIsNested(c: Connection, table: string, nested: string)
    requires c != [] && Inside(c, table) == Quoted(COPY) + (":" + nested)
    ensures ScalarText(c[0].1) + AfterFirst(c, TableTail(table)) == nested
  {
    var after := AfterFirst(c, TableTail(table));
    MembersSplit(c, TableTail(table));
    assert MemberText(c[0]) == Quoted(c[0].0) + (":" + ScalarText(c[0].1));
    hide Quoted, ScalarText, TableTail, AfterFirst, MemberText;
    Assoc(Quoted(c[0].0), ":" + ScalarText(c[0].1), after);
    Assoc(":", ScalarText(c[0].1), after);
    QuotedCancel(c[0].0, COPY, ":" + (ScalarText(c[0].1) + after), ":" + nested);
    SameAfterColon(ScalarText(c[0].1) + after, nested);
  }

  lemma ObjectHead(d: Connection, rest: string)
    ensures ObjectText(d) + rest != "" && (ObjectText(d) + rest)[0] == '{'
  {}

  lemma QuotedHead(a: string, rest: string)
    ensures Quoted(a) + rest != "" && (Quoted(a) + rest)[0] == '\"'
  {}

  lemma EmptyInside(table: string)
    ensures Inside([], table) != "" && Inside([], table)[0] == '}'
  {}

  /** No probe stands at the brace that opens a connection: the values of a connection are flat. */
  lemma NotAtObject(c: Connection, table: string, d: Connection)
    requires AllWellFormed(c)
    ensures !(Probe(d) <= "{" + Inside(c, table))
  {
    var s := "{" + Inside(c, table);
    hide Probe, Inside, ObjectText, Quoted, ScalarText, MembersText, TableTail, COPY;
    if Probe(d) <= s {
      var rest := s[|Probe(d)|..];
      var nested := ObjectText(d) + rest;
      PrefixSplit(Probe(d), s);
      ProbeSplit(d, rest);
      SameAfterBrace(Inside(c, table), Quoted(COPY) + (":" + nested));
      QuotedHead(COPY, ":" + nested);
      EmptyInside(table);
      ObjectHead(d, rest);
      FirstIsNested(c, table, nested);
      ScalarHead(c[0].1, AfterFirst(c, TableTail(table)));
      assert false;
    }
  }

  lemma KeySplit(c: Connection, table: string)
    ensures Key(c, table) == "{" + ((Quoted(COPY) + ":") + ("{" + Inside(c, table)))
  {
    var q, m, t := Quoted(COPY) + ":", MembersText(c), TableTail(table);
    hide Quoted, MembersText, TableTail, COPY;
    Assoc("{", m + "}", t);
    Assoc(m, "}", t);
    Assoc("{", q, ("{" + (m + "}")) + t);
  }

  /** A probe is found in a key exactly when it is the probe of the key's own connection. */
  lemma IncludesIsOwn(c: Connection, table: string, d: Connection)
    requires AllWellFormed(c) && AllWellFormed(d)
    ensures Includes(Key(c, table), Probe(d)) <==> c == d
  {
    hide Key, Probe, OpensAt, AllWellFormed;
    var s := Key(c, table);
    if c == d {
      ProbeIsPrefix(c, table);
      assert s[0..] == s;
    }
    if Includes(s, Probe(d)) {
      var k :| 0 <= k <= |s| && Probe(d) <= s[k..];
      ProbeOnlyAtStart(c, table, d, k);
      assert s[0..] == s;
      ProbeAtStart(c, table, d);
    }
  }

  lemma ProbeOnlyAtStart(c: Connection, table: string, d: Connection, k: nat)
    requires AllWellFormed(c) && k <= |Key(c, table)| && Probe(d) <= Key(c, table)[k..]
    ensures k == 0
  {
    hide Key, Probe, Inside, Quoted, OpensAt, AllWellFormed, COPY;
    ProbeOpens(d, Key(c, table), k);
    ProbePlace(c, table, k);
    KeySplit(c, table);
    KeyTail(Quoted(COPY) + ":", Inside(c, table), Key(c, table));
    NotAtObject(c, table, d);
  }

  lemma KeyTail(name: string, inside: string, s: string)
    requires s == "{" + (name + ("{" + inside))
    ensures |s| > |name| && s[|name| + 1..] == "{" + inside
  {}

  /** The characters that start every probe stand in a key only at its two opening braces. */
  lemma ProbePlace(c: Connection, table: string, k: nat)
    requires AllWellFormed(c) && OpensAt(Key(c, table), k)
    ensures k == 0 || k == |Quoted(COPY) + ":"| + 1
  {
    var name, inside := Quoted(COPY) + ":", Inside(c, table);
    KeySplit(c, table);
    CleanName("{" + inside);
    CleanInside(c, table);
    hide Key, Inside, Quoted, COPY, AllWellFormed, Clean, OpensAt;
    PlaceBetween(name, inside, k);
  }

  lemma PlaceBetween(name: string, inside: string, k: nat)
    requires Clean(name, "{" + inside) && Clean(inside, "")
    requires OpensAt("{" + (name + ("{" + inside)), k)
    ensures k == 0 || k == |name| + 1
  {
    var t := name + ("{" + inside);
    var s := "{" + t;
    assert inside + "" == inside;
    if 0 < k <= |name| {
      assert s[k] == t[k - 1] && s[k + 1] == t[k] && s[k + 2] == t[k + 1];
      assert OpensAt(t, k - 1);
    } else if k > |name| + 1 {
      var j := k - |name| - 2;
      assert s[k] == inside[j] && s[k + 1] == inside[j + 1] && s[k + 2] == inside[j + 2];
      assert OpensAt(inside + "", j);
    }
  }
}
