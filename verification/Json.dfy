/** The JSON text of flat objects (RFC 8259, sections 4 to 7, as JavaScript's JSON.stringify prints it),
    and why one such text can be found inside another only where it belongs. */
module Json {
  import opened Text

  datatype Scalar = Null | Bool(value: bool) | Number(lexeme: string) | Str(text: string)

  type Member = (string, Scalar)

  // ----- Printing -----

  function HexDigit(n: nat): char
    requires n < 16
  {
    "0123456789abcdef"[n]
  }

  /** A character inside a JSON string, escaped where section 7 of RFC 8259 requires it. */
  function Escape(c: char): string {
    if c == '\"' then "\\\""
    else if c == '\\' then "\\\\"
    else if c == '\U{0008}' then "\\b"
    else if c == '\U{000C}' then "\\f"
    else if c == '\n' then "\\n"
    else if c == '\r' then "\\r"
    else if c == '\t' then "\\t"
    else if c < ' ' then "\\u00" + [HexDigit(c as int / 16), HexDigit(c as int % 16)]
    else [c]
  }

  function EscapeAll(s: string): string {
    if |s| == 0 then "" else Escape(s[0]) + EscapeAll(s[1..])
  }

  function Quoted(s: string): string {
    "\"" + (EscapeAll(s) + "\"")
  }

  function ScalarText(v: Scalar): string {
    match v
    case Null => "null"
    case Bool(b) => if b then "true" else "false"
    case Number(lexeme) => lexeme
    case Str(t) => Quoted(t)
  }

  function MemberText(m: Member): string {
    Quoted(m.0) + (":" + ScalarText(m.1))
  }

  function MembersText(ms: seq<Member>): string {
    if |ms| == 0 then ""
    else if |ms| == 1 then MemberText(ms[0])
    else MemberText(ms[0]) + ("," + MembersText(ms[1..]))
  }

  function ObjectText(ms: seq<Member>): string {
    "{" + (MembersText(ms) + "}")
  }

  /** Numbers print as digits, sign, point and exponent; nothing else is assumed of them. */
  predicate IsNumberChar(c: char) {
    '0' <= c <= '9' || c == '-' || c == '+' || c == '.' || c == 'e'
  }

  predicate WellFormed(v: Scalar) {
    v.Number? ==> v.lexeme != "" && forall i :: 0 <= i < |v.lexeme| ==> IsNumberChar(v.lexeme[i])
  }

  predicate AllWellFormed(ms: seq<Member>) {
    forall i :: 0 <= i < |ms| ==> WellFormed(ms[i].1)
  }

  // ----- Text determines value -----

  lemma HexInjective(m: nat, n: nat)
    requires m < 16 && n < 16 && HexDigit(m) == HexDigit(n)
    ensures m == n
  {}

  lemma Enclosed(opening: string, m: string, closing: string, x: string)
    ensures (opening + (m + closing)) + x == opening + (m + (closing + x))
  {
    Assoc(opening, m + closing, x);
    Assoc(m, closing, x);
  }

  lemma SamePrefix(p: string, u: string, v: string)
    requires p + u == p + v
    ensures u == v
  {
    assert (p + u)[|p|..] == u && (p + v)[|p|..] == v;
  }

  lemma SameEscape(c: char, d: char, x: string, y: string)
    requires Escape(c) + x == Escape(d) + y
    ensures c == d
  {
    var s, t := Escape(c) + x, Escape(d) + y;
    assert s[0] == Escape(c)[0] && t[0] == Escape(d)[0];
    if Escape(c)[0] == '\\' {
      assert s[1] == Escape(c)[1] && t[1] == Escape(d)[1];
      if Escape(c)[1] == 'u' {
        assert s[4] == Escape(c)[4] && s[5] == Escape(c)[5] && t[4] == Escape(d)[4] && t[5] == Escape(d)[5];
        HexInjective(c as int / 16, d as int / 16);
        HexInjective(c as int % 16, d as int % 16);
        assert c as int == d as int;
      }
    }
  }

  /** Escapes form a prefix code, and none starts with a bare quote. */
  lemma EscapeCancel(c: char, d: char, x: string, y: string)
    requires Escape(c) + x == Escape(d) + y
    ensures c == d && x == y
  {
    SameEscape(c, d, x, y);
    hide Escape;
    SamePrefix(Escape(c), x, y);
  }

  lemma EscapeHead(c: char)
    ensures Escape(c) != "" && Escape(c)[0] != '\"'
  {}

  /** What is left of an escaped text, its closing quote and what follows, after the first character. */
  function AfterEscape(a: string, x: string): string
    requires a != ""
  {
    EscapeAll(a[1..]) + ("\"" + x)
  }

  lemma EscapeSplit(a: string, x: string)
    requires a != ""
    ensures EscapeAll(a) + ("\"" + x) == Escape(a[0]) + AfterEscape(a, x)
    ensures (Escape(a[0]) + AfterEscape(a, x))[0] != '\"'
  {
    EscapeHead(a[0]);
    hide Escape;
    Assoc(Escape(a[0]), EscapeAll(a[1..]), "\"" + x);
  }

  /** An escaped text is known as soon as the quote that ends it is. */
  lemma {:induction false} EscapeAllCancel(a: string, b: string, x: string, y: string)
    requires EscapeAll(a) + ("\"" + x) == EscapeAll(b) + ("\"" + y)
    ensures a == b && x == y
  {
    var s, t := EscapeAll(a) + ("\"" + x), EscapeAll(b) + ("\"" + y);
    if a != "" {
      EscapeSplit(a, x);
    } else {
      assert s == "\"" + x && s[1..] == x;
    }
    if b != "" {
      EscapeSplit(b, y);
    } else {
      assert t == "\"" + y && t[1..] == y;
    }
    hide Escape, EscapeAll;
    if a != "" && b != "" {
      EscapeCancel(a[0], b[0], AfterEscape(a, x), AfterEscape(b, y));
      EscapeAllCancel(a[1..], b[1..], x, y);
      assert a == [a[0]] + a[1..] && b == [b[0]] + b[1..];
    }
  }

  lemma QuotedCancel(a: string, b: string, x: string, y: string)
    requires Quoted(a) + x == Quoted(b) + y
    ensures a == b && x == y
  {
    Enclosed("\"", EscapeAll(a), "\"", x);
    Enclosed("\"", EscapeAll(b), "\"", y);
    SamePrefix("\"", EscapeAll(a) + ("\"" + x), EscapeAll(b) + ("\"" + y));
    EscapeAllCancel(a, b, x, y);
  }

  // ----- Reading strings back (section 7 of RFC 8259) -----

  function HexValue(c: char): (v: Option<nat>)
    ensures v.Some? ==> v.value < 16
  {
    if '0' <= c <= '9' then Some((c - '0') as nat)
    else if 'a' <= c <= 'f' then Some((c - 'a') as nat + 10)
    else if 'A' <= c <= 'F' then Some((c - 'A') as nat + 10)
    else None
  }

  /** The character that the four hexadecimal digits at the start of `s` stand for. */
  function ReadHex(s: string): Option<char> {
    if |s| < 4 then None
    else
      match (HexValue(s[0]), HexValue(s[1]), HexValue(s[2]), HexValue(s[3]))
      case (Some(a), Some(b), Some(c), Some(d)) =>
        var code := ((a * 16 + b) * 16 + c) * 16 + d;
        if code < 0xD800 || 0xDFFF < code < 0x1_0000 then Some(code as char) else None
      case _ => None
  }

  /** One character of a string, written as itself or escaped, and what follows it. */
  function ReadChar(s: string): (r: Option<(char, string)>)
    ensures r.Some? ==> |r.value.1| < |s|
  {
    if |s| == 0 || s[0] == '\"' || s[0] < ' ' then None
    else if s[0] != '\\' then Some((s[0], s[1..]))
    else if |s| < 2 then None
    else
      match s[1]
      case '\"' => Some(('\"', s[2..]))
      case '\\' => Some(('\\', s[2..]))
      case '/' => Some(('/', s[2..]))
      case 'b' => Some(('\U{0008}', s[2..]))
      case 'f' => Some(('\U{000C}', s[2..]))
      case 'n' => Some(('\n', s[2..]))
      case 'r' => Some(('\r', s[2..]))
      case 't' => Some(('\t', s[2..]))
      case 'u' =>
        var c := ReadHex(s[2..]);
        if c.Some? then Some((c.value, s[6..])) else None
      case _ => None
  }

  /** The characters up to the closing quote, and what follows it. */
  function ReadText(s: string): Option<(string, string)> {
    if |s| > 0 && s[0] == '\"' then Some(("", s[1..]))
    else
      match ReadChar(s)
      case None => None
      case Some((c, rest)) =>
        match ReadText(rest)
        case None => None
        case Some((text, after)) => Some(([c] + text, after))
  }

  lemma HexRead(n: nat)
    requires n < 16
    ensures HexValue(HexDigit(n)) == Some(n)
  {}

  lemma ControlRead(c: char, x: string)
    requires c < ' '
    ensures ReadHex("00" + [HexDigit(c as int / 16), HexDigit(c as int % 16)] + x) == Some(c)
  {
    var h, l := HexDigit(c as int / 16), HexDigit(c as int % 16);
    var s := "00" + [h, l] + x;
    assert s[0] == '0' && s[1] == '0' && s[2] == h && s[3] == l;
    HexRead(c as int / 16);
    HexRead(c as int % 16);
    assert HexValue('0') == Some(0);
    hide HexDigit, HexValue;
    assert (c as int / 16) * 16 + c as int % 16 == c as int;
  }

  /** Every character is read back from its escape. */
  lemma ReadEscape(c: char, x: string)
    ensures ReadChar(Escape(c) + x) == Some((c, x))
  {
    var e := Escape(c);
    var s := e + x;
    assert s[|e|..] == x && forall i :: 0 <= i < |e| ==> s[i] == e[i];
    if |e| == 6 {
      ControlRead(c, x);
      assert s[2..] == "00" + [HexDigit(c as int / 16), HexDigit(c as int % 16)] + x;
      hide ReadHex, HexDigit;
    }
  }

  /** Every string is read back from its text. */
  lemma {:induction false} ReadEscaped(a: string, x: string)
    ensures ReadText(EscapeAll(a) + ("\"" + x)) == Some((a, x))
  {
    if a == "" {
      var s := "\"" + x;
      assert EscapeAll(a) + s == s && s[1..] == x;
    } else {
      EscapeSplit(a, x);
      ReadEscape(a[0], AfterEscape(a, x));
      ReadEscaped(a[1..], x);
      hide Escape, ReadChar;
      assert a == [a[0]] + a[1..];
    }
  }

  predicate Delimited(x: string) {
    x != "" && (x[0] == ',' || x[0] == '}')
  }

  lemma {:induction false} NumberCancel(a: string, b: string, x: string, y: string)
    requires forall i :: 0 <= i < |a| ==> IsNumberChar(a[i])
    requires forall i :: 0 <= i < |b| ==> IsNumberChar(b[i])
    requires Delimited(x) && Delimited(y) && a + x == b + y
    ensures a == b && x == y
  {
    var s, t := a + x, b + y;
    assert s[|a|] == x[0] && t[|b|] == y[0];
    assert forall i :: 0 <= i < |b| ==> t[i] == b[i] && IsNumberChar(t[i]);
    assert |a| >= |b|;
    assert forall i :: 0 <= i < |a| ==> s[i] == a[i] && IsNumberChar(s[i]);
    assert a == s[..|a|] == b && x == s[|a|..] == y;
  }

  /** The first character tells the kinds of scalars apart. */
  lemma ScalarHead(v: Scalar, x: string)
    requires WellFormed(v)
    ensures ScalarText(v) != "" && (ScalarText(v) + x)[0] == ScalarText(v)[0]
    ensures match v
            case Null => ScalarText(v)[0] == 'n'
            case Bool(b) => ScalarText(v)[0] == if b then 't' else 'f'
            case Number(_) => IsNumberChar(ScalarText(v)[0])
            case Str(_) => ScalarText(v)[0] == '\"'
  {}

  lemma ScalarCancel(v: Scalar, w: Scalar, x: string, y: string)
    requires WellFormed(v) && WellFormed(w) && Delimited(x) && Delimited(y)
    requires ScalarText(v) + x == ScalarText(w) + y
    ensures v == w && x == y
  {
    ScalarHead(v, x);
    ScalarHead(w, y);
    match v
    case Str(a) =>
      QuotedCancel(a, w.text, x, y);
    case Number(a) =>
      NumberCancel(a, w.lexeme, x, y);
    case _ =>
      assert v == w;
      assert x == (ScalarText(v) + x)[|ScalarText(v)|..] == y;
  }

  lemma MemberCancel(m: Member, n: Member, x: string, y: string)
    requires WellFormed(m.1) && WellFormed(n.1) && Delimited(x) && Delimited(y)
    requires MemberText(m) + x == MemberText(n) + y
    ensures m == n && x == y
  {
    Enclosed(Quoted(m.0), ":", ScalarText(m.1), x);
    Enclosed(Quoted(n.0), ":", ScalarText(n.1), y);
    hide Quoted, ScalarText, WellFormed;
    QuotedCancel(m.0, n.0, ":" + (ScalarText(m.1) + x), ":" + (ScalarText(n.1) + y));
    SamePrefix(":", ScalarText(m.1) + x, ScalarText(n.1) + y);
    ScalarCancel(m.1, n.1, x, y);
  }

  /** What follows the first member of an object's text. */
  function AfterFirst(ms: seq<Member>, x: string): string
    requires |ms| > 0
  {
    if |ms| == 1 then "}" + x else "," + (MembersText(ms[1..]) + ("}" + x))
  }

  lemma MemberHead(m: Member, x: string)
    ensures MemberText(m) != "" && (MemberText(m) + x)[0] == '\"'
  {}

  lemma MembersSplit(ms: seq<Member>, x: string)
    requires |ms| > 0
    ensures MembersText(ms) + ("}" + x) == MemberText(ms[0]) + AfterFirst(ms, x)
  {
    hide MemberText;
    Assoc(MemberText(ms[0]), "," + MembersText(ms[1..]), "}" + x);
    Assoc(",", MembersText(ms[1..]), "}" + x);
  }

  lemma {:induction false} MembersCancel(ms: seq<Member>, ns: seq<Member>, x: string, y: string)
    requires AllWellFormed(ms) && AllWellFormed(ns)
    requires MembersText(ms) + ("}" + x) == MembersText(ns) + ("}" + y)
    ensures ms == ns && x == y
    decreases |ms|
  {
    hide MemberText, WellFormed;
    var s, t := MembersText(ms) + ("}" + x), MembersText(ns) + ("}" + y);
    if |ms| > 0 {
      MembersSplit(ms, x);
      MemberHead(ms[0], AfterFirst(ms, x));
    }
    if |ns| > 0 {
      MembersSplit(ns, y);
      MemberHead(ns[0], AfterFirst(ns, y));
    }
    if |ms| == 0 || |ns| == 0 {
      assert |ms| == 0 ==> s[0] == '}';
      assert |ns| == 0 ==> t[0] == '}';
      assert |ms| == 0 && |ns| == 0;
      assert s[1..] == x && t[1..] == y;
    } else {
      MemberCancel(ms[0], ns[0], AfterFirst(ms, x), AfterFirst(ns, y));
      var u, v := AfterFirst(ms, x), AfterFirst(ns, y);
      if |ms| == 1 {
        assert u[0] == '}' && |ns| == 1 && u[1..] == x && v[1..] == y;
      } else {
        assert u[0] == ',' && |ns| > 1;
        assert u[1..] == MembersText(ms[1..]) + ("}" + x) && v[1..] == MembersText(ns[1..]) + ("}" + y);
        MembersCancel(ms[1..], ns[1..], x, y);
      }
      assert ms == [ms[0]] + ms[1..] && ns == [ns[0]] + ns[1..];
    }
  }

  /** Object texts are self-delimiting and determine the object. */
  lemma ObjectCancel(ms: seq<Member>, ns: seq<Member>, x: string, y: string)
    requires AllWellFormed(ms) && AllWellFormed(ns)
    requires ObjectText(ms) + x == ObjectText(ns) + y
    ensures ms == ns && x == y
  {
    Enclosed("{", MembersText(ms), "}", x);
    Enclosed("{", MembersText(ns), "}", y);
    SamePrefix("{", MembersText(ms) + ("}" + x), MembersText(ns) + ("}" + y));
    MembersCancel(ms, ns, x, y);
  }

  lemma ObjectInjective(ms: seq<Member>, ns: seq<Member>)
    requires AllWellFormed(ms) && AllWellFormed(ns)
    ensures ObjectText(ms) == ObjectText(ns) <==> ms == ns
  {
    if ObjectText(ms) == ObjectText(ns) {
      assert ObjectText(ms) + "" == ObjectText(ns) + "";
      ObjectCancel(ms, ns, "", "");
    }
  }
}
