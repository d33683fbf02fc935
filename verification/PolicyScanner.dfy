/** The hand-written scanner that finds `permit( ... );` statements in arbitrary text. */
module PolicyScanner {
  import opened Text
  import opened CedarPolicy

  const PERMIT := "permit"

  predicate IsBlank(c: char) {
    c == ' ' || c == '\t' || c == '\n' || c == '\r'
  }

  /** JavaScript's `s.startsWith(word, i)`. */
  predicate StartsAt(s: string, i: nat, word: string) {
    i + |word| <= |s| && s[i..i + |word|] == word
  }

  /** The first place at or after `i` where `word` starts, or |s| when there is none. */
  function FindFrom(s: string, i: nat, word: string): (k: nat)
    requires i <= |s| && |word| > 0
    ensures i <= k <= |s|
    ensures k < |s| ==> StartsAt(s, k, word)
    ensures forall j :: i <= j < k ==> !StartsAt(s, j, word)
    decreases |s| - i
  {
    if i == |s| || StartsAt(s, i, word) then i else FindFrom(s, i + 1, word)
  }

  /** The first place at or after `i` that holds no blank. */
  function SkipBlanks(s: string, i: nat): (k: nat)
    requires i <= |s|
    ensures i <= k <= |s|
    ensures forall j :: i <= j < k ==> IsBlank(s[j])
    ensures k < |s| ==> !IsBlank(s[k])
    decreases |s| - i
  {
    if i < |s| && IsBlank(s[i]) then SkipBlanks(s, i + 1) else i
  }

  /** Where `depth` open parentheses are closed, counting from `i`; |s| when they are not. */
  function CloseFrom(s: string, i: nat, depth: nat): (k: nat)
    requires i <= |s| && depth > 0
    ensures i <= k <= |s|
    ensures k < |s| ==> s[k] == ')'
    decreases |s| - i
  {
    if i == |s| then i
    else if s[i] == '(' then CloseFrom(s, i + 1, depth + 1)
    else if s[i] == ')' then (if depth == 1 then i else CloseFrom(s, i + 1, depth - 1))
    else CloseFrom(s, i + 1, depth)
  }

  /** A reported statement: `s[start]` is the 'p' of permit, the body is s[open + 1..close],
      and `s[semicolon]` ends the statement. */
  datatype Span = Span(start: nat, open: nat, close: nat, semicolon: nat)

  datatype Outcome = NoMore | Skip(next: nat) | Found(span: Span)

  /** One round of the scan from `from`: nothing left, a place to resume from, or a statement. */
  function Round(s: string, from: nat): (r: Outcome)
    requires from <= |s|
    ensures r.Skip? ==> from < r.next <= |s|
    ensures r.Found? ==> from <= r.span.start < r.span.open < r.span.close < r.span.semicolon < |s|
  {
    var p := FindFrom(s, from, PERMIT);
    if p == |s| then NoMore
    else
      var open := SkipBlanks(s, p + |PERMIT|);
      if open == |s| || s[open] != '(' then Skip(open)
      else
        var close := CloseFrom(s, open + 1, 1);
        if close == |s| then Skip(open + 1)
        else
          var semicolon := SkipBlanks(s, close + 1);
          if semicolon < |s| && s[semicolon] == ';' then Found(Span(p, open, close, semicolon))
          else Skip(close + 1)
  }

  /** All the statements found from `from` on. */
  function Spans(s: string, from: nat): (spans: seq<Span>)
    requires from <= |s|
    ensures forall i :: 0 <= i < |spans| ==> from <= spans[i].start < spans[i].open < spans[i].close < spans[i].semicolon < |s|
    decreases |s| - from
  {
    match Round(s, from)
    case NoMore => []
    case Skip(next) => Spans(s, next)
    case Found(span) => [span] + Spans(s, span.semicolon + 1)
  }

  lemma NoneLeft(s: string, from: nat)
    requires from <= |s| && (from == |s| || Round(s, from) == NoMore)
    ensures Spans(s, from) == []
  {}

  lemma SpansUnfold(s: string, from: nat)
    requires from <= |s|
    ensures Spans(s, from) ==
            match Round(s, from)
            case NoMore => []
            case Skip(next) => Spans(s, next)
            case Found(span) => [span] + Spans(s, span.semicolon + 1)
  {}

  function Bodies(s: string, spans: seq<Span>): (bodies: seq<string>)
    requires forall i :: 0 <= i < |spans| ==> spans[i].open < spans[i].close < |s|
    ensures |bodies| == |spans|
    ensures forall i :: 0 <= i < |spans| ==> bodies[i] == s[spans[i].open + 1..spans[i].close]
  {
    seq(|spans|, i requires 0 <= i < |spans| => s[spans[i].open + 1..spans[i].close])
  }

  /** A reported statement joins those found before it. */
  lemma FoundJoins(s: string, from: nat, found: seq<Span>)
    requires from <= |s| && Round(s, from).Found? && Spans(s, 0) == found + Spans(s, from)
    requires forall i :: 0 <= i < |found| ==> found[i].open < found[i].close < |s|
    ensures var span := Round(s, from).span;
            && Spans(s, 0) == found + [span] + Spans(s, span.semicolon + 1)
            && Bodies(s, found + [span]) == Bodies(s, found) + [s[span.open + 1..span.close]]
  {
    hide Round, Spans;
    var span := Round(s, from).span;
    SpansUnfold(s, from);
    Assoc(found, [span], Spans(s, span.semicolon + 1));
    BodiesSnoc(s, found, span);
  }

  lemma BodiesNone(s: string)
    ensures Bodies(s, []) == []
  {}

  lemma BodiesSnoc(s: string, spans: seq<Span>, x: Span)
    requires forall i :: 0 <= i < |spans| ==> spans[i].open < spans[i].close < |s|
    requires x.open < x.close < |s|
    ensures Bodies(s, spans + [x]) == Bodies(s, spans) + [s[x.open + 1..x.close]]
  {}

  // ----- The scanner's loops -----

  method SkipBlankLoop(s: string, from: nat) returns (i: nat)
    requires from <= |s|
    ensures i == SkipBlanks(s, from)
  {
    i := from;
    while i < |s| && (s[i] == ' ' || s[i] == '\t' || s[i] == '\n' || s[i] == '\r')
      invariant from <= i <= |s|
      invariant SkipBlanks(s, from) == SkipBlanks(s, i)
    {
      i := i + 1;
    }
  }

  method MatchParenLoop(s: string, bodyStart: nat) returns (i: nat, depth: nat)
    requires bodyStart <= |s|
    ensures bodyStart <= i <= |s|
    ensures i == CloseFrom(s, bodyStart, 1)
    ensures depth == 0 <==> i < |s|
  {
    depth, i := 1, bodyStart;
    while i < |s| && depth > 0
      invariant bodyStart <= i <= |s|
      invariant depth > 0 ==> CloseFrom(s, bodyStart, 1) == CloseFrom(s, i, depth)
      invariant depth == 0 ==> i < |s| && CloseFrom(s, bodyStart, 1) == i
      decreases |s| - i, depth
    {
      if s[i] == '(' {
        depth := depth + 1;
      } else if s[i] == ')' {
        depth := depth - 1;
      }
      if depth > 0 {
        i := i + 1;
      }
    }
  }

  /** The body of the scanner's outer loop: what one search from `searchFrom` comes to. */
  method ScanOnce(policyText: string, searchFrom: nat) returns (r: Outcome)
    requires searchFrom <= |policyText|
    ensures r == Round(policyText, searchFrom)
  {
    hide FindFrom, SkipBlanks, CloseFrom;
    var permitIndex := FindFrom(policyText, searchFrom, PERMIT);
    if permitIndex == |policyText| {
      return NoMore;
    }
    var i := SkipBlankLoop(policyText, permitIndex + |PERMIT|);
    if i >= |policyText| || policyText[i] != '(' {
      return Skip(i);
    }
    var open, bodyStart := i, i + 1;
    var depth;
    i, depth := MatchParenLoop(policyText, bodyStart);
    if depth != 0 {
      return Skip(bodyStart);
    }
    var j := SkipBlankLoop(policyText, i + 1);
    if j < |policyText| && policyText[j] == ';' {
      return Found(Span(permitIndex, open, i, j));
    }
    r := Skip(i + 1);
  }

  method ExtractPermitStatements(policyText: string) returns (bodies: seq<string>)
    ensures bodies == Bodies(policyText, Spans(policyText, 0))
  {
    hide Round, Bodies, Spans;
    bodies := [];
    BodiesNone(policyText);
    ghost var found: seq<Span> := [];
    var searchFrom := 0;
    while searchFrom < |policyText|
      invariant searchFrom <= |policyText|
      invariant Spans(policyText, 0) == found + Spans(policyText, searchFrom)
      invariant forall i :: 0 <= i < |found| ==> found[i].open < found[i].close < |policyText|
      invariant bodies == Bodies(policyText, found)
    {
      var outcome := ScanOnce(policyText, searchFrom);
      if outcome.NoMore? {
        break;
      }
      if outcome.Skip? {
        SpansUnfold(policyText, searchFrom);
        searchFrom := outcome.next;
        continue;
      }
      var span := outcome.span;
      FoundJoins(policyText, searchFrom, found);
      bodies := bodies + [policyText[span.open + 1..span.close]];
      found := found + [span];
      searchFrom := span.semicolon + 1;
    }
    NoneLeft(policyText, searchFrom);
    assert found + [] == found;
  }

  // ----- What is reported, on arbitrary text -----

  /** The depth at `k` of text read from `i` at depth `d`. */
  function DepthAt(s: string, i: nat, d: int, k: nat): int
    requires i <= k <= |s|
  {
    d + Net(s[i..k])
  }

  lemma DepthStep(s: string, i: nat, d: int, k: nat)
    requires i < k <= |s|
    ensures DepthAt(s, i, d, k) == DepthAt(s, i + 1, d + Nesting(s[i]), k)
  {
    assert s[i..k][1..] == s[i + 1..k];
  }

  /** Counting from depth `d`, the closing parenthesis is the first place where the depth falls to 0. */
  lemma {:induction false} CloseMatches(s: string, i: nat, d: nat)
    requires i <= |s| && d > 0
    ensures var k := CloseFrom(s, i, d);
            && (forall m :: i <= m <= k ==> DepthAt(s, i, d, m) > 0)
            && (k < |s| ==> DepthAt(s, i, d, k) == 1)
    decreases |s| - i
  {
    var k := CloseFrom(s, i, d);
    if i < k {
      CloseMatches(s, i + 1, d + Nesting(s[i]));
      forall m | i < m <= k
        ensures DepthAt(s, i, d, m) == DepthAt(s, i + 1, d + Nesting(s[i]), m)
      {
        DepthStep(s, i, d, m);
      }
    }
  }

  predicate AllBlank(s: string) {
    forall i :: 0 <= i < |s| ==> IsBlank(s[i])
  }

  /** The span really is `permit`, blanks, '(', a balanced body, ')', blanks and ';'. */
  predicate IsStatement(s: string, x: Span) {
    && x.start + |PERMIT| <= x.open < x.close < x.semicolon < |s|
    && StartsAt(s, x.start, PERMIT)
    && AllBlank(s[x.start + |PERMIT|..x.open])
    && s[x.open] == '(' && s[x.close] == ')' && s[x.semicolon] == ';'
    && Balanced(s[x.open + 1..x.close])
    && AllBlank(s[x.close + 1..x.semicolon])
  }

  lemma FoundIsStatement(s: string, from: nat)
    requires from <= |s| && Round(s, from).Found?
    ensures IsStatement(s, Round(s, from).span)
  {
    var x := Round(s, from).span;
    CloseMatches(s, x.open + 1, 1);
    var body := s[x.open + 1..x.close];
    forall k | 0 <= k <= |body|
      ensures Net(body[..k]) >= 0
    {
      assert body[..k] == s[x.open + 1..x.open + 1 + k];
      assert DepthAt(s, x.open + 1, 1, x.open + 1 + k) > 0;
    }
  }

  /** Whatever the text, the scan reports real statements, disjoint and in order. */
  lemma {:induction false} ScanStructure(s: string, from: nat)
    requires from <= |s|
    ensures var spans := Spans(s, from);
            && (forall i :: 0 <= i < |spans| ==> from <= spans[i].start && IsStatement(s, spans[i]))
            && (forall i, j :: 0 <= i < j < |spans| ==> spans[i].semicolon < spans[j].start)
    decreases |s| - from
  {
    hide Round, IsStatement, Spans;
    SpansUnfold(s, from);
    match Round(s, from)
    case NoMore =>
    case Skip(next) =>
      ScanStructure(s, next);
    case Found(span) =>
      FoundIsStatement(s, from);
      ScanStructure(s, span.semicolon + 1);
  }

  // ----- Complete statements -----

  /** Text that keeps the depth positive is passed over. */
  lemma {:induction false} CloseSkips(s: string, i: nat, d: nat, end: nat)
    requires i <= end <= |s| && d > 0
    requires forall k :: i <= k <= end ==> DepthAt(s, i, d, k) > 0
    ensures CloseFrom(s, i, d) == CloseFrom(s, end, DepthAt(s, i, d, end))
    decreases end - i
  {
    if i < end {
      var next, d' := i + 1, d + Nesting(s[i]);
      forall k | next <= k <= end
        ensures DepthAt(s, next, d', k) > 0
      {
        DepthStep(s, i, d, k);
      }
      assert DepthAt(s, next, d', next) == d';
      CloseSkips(s, next, d', end);
    }
  }

  lemma StatementLayout(s: string, from: nat, body: string, rest: string)
    requires from <= |s| && s[from..] == OPEN + body + CLOSE + rest
    ensures var close := from + |OPEN| + |body|;
            && close + 2 <= |s| && StartsAt(s, from, PERMIT) && s[from + 6] == '('
            && s[from + 7..close] == body && s[close] == ')' && s[close + 1] == ';' && s[close + 2..] == rest
  {
    var t, close := s[from..], from + |OPEN| + |body|;
    assert t == OPEN + (body + (CLOSE + rest));
    assert s[from..from + 6] == t[..6] == OPEN[..6] == PERMIT;
    assert s[from + 6] == t[6] == OPEN[6];
    var u := body + (CLOSE + rest);
    assert t[|OPEN|..] == u == s[from + |OPEN|..];
    assert s[from + |OPEN|..close] == u[..|body|] == body;
    assert u[|body|..] == CLOSE + rest == s[close..];
    assert s[close] == CLOSE[0] && s[close + 1] == CLOSE[1];
  }

  /** The parenthesis that closes a balanced body is the one right after it. */
  lemma CloseAfterBody(s: string, start: nat, close: nat)
    requires start <= close < |s| && s[close] == ')'
    requires Balanced(s[start..close])
    ensures CloseFrom(s, start, 1) == close
  {
    var body := s[start..close];
    forall k | start <= k <= close
      ensures DepthAt(s, start, 1, k) > 0
    {
      assert s[start..k] == body[..k - start];
    }
    CloseSkips(s, start, 1, close);
    assert DepthAt(s, start, 1, close) == 1;
  }

  /** The scan reports the complete statement it stands at, and goes on after it. */
  lemma ScanStatement(s: string, from: nat, body: string, rest: string)
    requires from <= |s| && s[from..] == OPEN + body + CLOSE + rest
    requires Balanced(body)
    ensures var close := from + |OPEN| + |body|;
            && close + 2 <= |s| && s[close + 2..] == rest
            && s[from + 7..close] == body
            && Spans(s, from) == [Span(from, from + 6, close, close + 1)] + Spans(s, close + 2)
  {
    hide Round, Balanced, CloseFrom, StartsAt;
    StatementLayout(s, from, body, rest);
    assert |OPEN| == 7;
    hide OPEN, CLOSE, PERMIT, Spans;
    var open, close := from + 6, from + 7 + |body|;
    CloseAfterBody(s, open + 1, close);
    RoundFinds(s, from, open, close, close + 1);
    SpansFound(s, from);
  }

  lemma SpansFound(s: string, from: nat)
    requires from <= |s| && Round(s, from).Found?
    ensures Spans(s, from) == [Round(s, from).span] + Spans(s, Round(s, from).span.semicolon + 1)
  {}

  lemma RoundFinds(s: string, start: nat, open: nat, close: nat, semicolon: nat)
    requires open == start + 6 < close && semicolon == close + 1 < |s|
    requires StartsAt(s, start, PERMIT) && s[open] == '(' && s[semicolon] == ';'
    requires CloseFrom(s, open + 1, 1) == close
    ensures Round(s, start) == Found(Span(start, open, close, semicolon))
  {}

  lemma RoundSkips(s: string, from: nat)
    requires from < |s| && !StartsAt(s, from, PERMIT)
    ensures Round(s, from) == Round(s, from + 1)
  {
    hide SkipBlanks, CloseFrom, StartsAt;
  }

  lemma {:induction false} ScanSkips(s: string, from: nat, n: nat)
    requires from + n <= |s|
    requires forall i :: from <= i < from + n ==> s[i] != 'p'
    ensures Spans(s, from) == Spans(s, from + n)
    decreases n
  {
    hide Round;
    if n > 0 {
      assert from + |PERMIT| <= |s| ==> s[from..from + |PERMIT|][0] != PERMIT[0];
      RoundSkips(s, from);
      ScanSkips(s, from + 1, n - 1);
    }
  }
}
