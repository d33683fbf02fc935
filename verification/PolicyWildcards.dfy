/** Which bodies without any quoted id the parser takes for permitting everything. */
module PolicyWildcards {
  import opened Text
  import opened PolicyParser
  import opened PolicyReading

  predicate AllSpaces(s: string) {
    forall i :: 0 <= i < |s| ==> IsSpace(s[i])
  }

  /** An unconstrained action: a comma at `i`, the word at `j` and a comma at `k`, with spaces between. */
  predicate BareActionAt(s: string, i: nat, j: nat, k: nat) {
    && i < j && j + 6 <= k < |s| && s[i] == ',' && s[k] == ','
    && s[j..j + 6] == "action" && AllSpaces(s[i + 1..j]) && AllSpaces(s[j + 6..k])
  }

  /** An unconstrained resource: a comma at `i`, the word at `j`, and from it spaces up to a line end at `k`. */
  predicate BareResourceAt(s: string, i: nat, j: nat, k: nat) {
    && i < j && j + 8 <= k <= |s| && s[i] == ',' && (k < |s| ==> IsLineEnd(s[k]))
    && s[j..j + 8] == "resource" && AllSpaces(s[i + 1..j]) && AllSpaces(s[j + 8..k])
  }

  /** Where the spaces from `i` on end. */
  function SpacesEnd(s: string, i: nat): (j: nat)
    requires i <= |s|
    ensures i <= j <= |s| && AllSpaces(s[i..j]) && (j < |s| ==> !IsSpace(s[j]))
    ensures DropSpaces(s[i..]) == s[j..]
    decreases |s| - i
  {
    if i < |s| && IsSpace(s[i]) then
      var j := SpacesEnd(s, i + 1);
      assert s[i..][1..] == s[i + 1..];
      assert s[i..j] == [s[i]] + s[i + 1..j];
      j
    else
      assert i < |s| ==> s[i..][0] == s[i];
      i
  }

  lemma SpaceAt(s: string, i: nat, j: nat, x: nat)
    requires i <= x < j <= |s| && AllSpaces(s[i..j])
    ensures IsSpace(s[x])
  {
    assert s[i..j][x - i] == s[x];
  }

  /** Spaces that something else ends, end there. */
  lemma SpacesEndAt(s: string, i: nat, j: nat)
    requires i <= j < |s| && AllSpaces(s[i..j]) && !IsSpace(s[j])
    ensures SpacesEnd(s, i) == j
  {
    var e := SpacesEnd(s, i);
    forall x | i <= x < j
      ensures IsSpace(s[x])
    {
      SpaceAt(s, i, j, x);
    }
    forall x | i <= x < e
      ensures IsSpace(s[x])
    {
      SpaceAt(s, i, e, x);
    }
    hide SpacesEnd, AllSpaces, IsSpace, DropSpaces;
  }

  lemma WordHere(s: string, j: nat, word: string)
    requires j <= |s|
    ensures word <= s[j..] <==> j + |word| <= |s| && s[j..j + |word|] == word
    ensures word <= s[j..] ==> s[j..][|word|..] == s[j + |word|..]
  {
    if j + |word| <= |s| {
      assert s[j..][..|word|] == s[j..j + |word|];
    }
  }

  // ----- Actions -----

  lemma {:induction false} BareActionSomewhere(s: string, from: nat)
    requires from <= |s|
    ensures HasBareAction(s[from..]) <==> exists i :: from <= i < |s| && BareActionHere(s[i..])
    decreases |s| - from
  {
    hide BareActionHere;
    if from < |s| {
      BareActionSomewhere(s, from + 1);
      assert s[from..][1..] == s[from + 1..];
    } else {
      assert s[from..] == "";
    }
  }

  /** The expression's match at `i`, with its greedy runs of spaces. */
  predicate ActionMatch(s: string, i: nat)
    requires i < |s|
  {
    var j := SpacesEnd(s, i + 1);
    s[i] == ',' && j + 6 <= |s| && s[j..j + 6] == "action" && CommaAfter(s, j + 6)
  }

  predicate CommaAfter(s: string, m: nat)
    requires m <= |s|
  {
    var k := SpacesEnd(s, m);
    k < |s| && s[k] == ','
  }

  lemma CommaAfterIs(s: string, m: nat)
    requires m <= |s|
    ensures "," <= DropSpaces(s[m..]) <==> CommaAfter(s, m)
  {
    hide DropSpaces, AllSpaces, IsSpace;
    var k := SpacesEnd(s, m);
    assert k < |s| ==> s[k..][0] == s[k];
    hide SpacesEnd;
  }

  lemma CommaFirst(s: string, i: nat)
    requires i < |s|
    ensures "," <= s[i..] <==> s[i] == ','
    ensures s[i..][1..] == s[i + 1..]
  {
    assert s[i..][0] == s[i];
  }

  lemma ActionWord(s: string, j: nat)
    requires j <= |s|
    ensures "action" <= s[j..] <==> j + 6 <= |s| && s[j..j + 6] == "action"
    ensures "action" <= s[j..] ==> s[j..][|"action"|..] == s[j + 6..]
  {
    assert |"action"| == 6;
    WordHere(s, j, "action");
  }

  lemma BareActionAtComma(s: string, i: nat)
    requires i < |s|
    ensures BareActionHere(s[i..]) <==> ActionMatch(s, i)
  {
    hide SpacesEnd, DropSpaces, AllSpaces, IsSpace, CommaAfter;
    var j := SpacesEnd(s, i + 1);
    CommaFirst(s, i);
    ActionWord(s, j);
    if j + 6 <= |s| {
      CommaAfterIs(s, j + 6);
    }
  }

  lemma NoSpaces()
    ensures !IsSpace('a') && !IsSpace('r') && !IsSpace(',')
  {}

  lemma ActionPlaces(s: string, i: nat, j: nat, k: nat)
    requires BareActionAt(s, i, j, k)
    ensures SpacesEnd(s, i + 1) == j && SpacesEnd(s, j + 6) == k
  {
    hide SpacesEnd, AllSpaces, IsSpace, DropSpaces;
    NoSpaces();
    assert s[j] == s[j..j + 6][0] == 'a';
    SpacesEndAt(s, i + 1, j);
    SpacesEndAt(s, j + 6, k);
  }

  lemma MatchPlaces(s: string, i: nat)
    requires i < |s| && ActionMatch(s, i)
    ensures var j := SpacesEnd(s, i + 1); j + 6 <= |s| && BareActionAt(s, i, j, SpacesEnd(s, j + 6))
  {
    hide AllSpaces, SpacesEnd;
  }

  lemma PlacesMatch(s: string, i: nat, j: nat, k: nat)
    requires BareActionAt(s, i, j, k)
    ensures i < |s| && ActionMatch(s, i)
  {
    hide AllSpaces, SpacesEnd, IsSpace, DropSpaces;
    ActionPlaces(s, i, j, k);
  }

  lemma BareActionIs(s: string, i: nat)
    requires i < |s|
    ensures BareActionHere(s[i..]) <==> exists j: nat, k: nat :: BareActionAt(s, i, j, k)
  {
    hide *;
    BareActionAtComma(s, i);
    if ActionMatch(s, i) {
      MatchPlaces(s, i);
    }
    if j: nat, k: nat :| BareActionAt(s, i, j, k) {
      PlacesMatch(s, i, j, k);
    }
  }

  lemma ActionInside(s: string, i: nat, j: nat, k: nat)
    ensures BareActionAt(s, i, j, k) ==> i < |s|
  {}

  lemma BareActionExact(s: string)
    ensures HasBareAction(s) <==> exists i: nat, j: nat, k: nat :: BareActionAt(s, i, j, k)
  {
    hide *;
    assert s[0..] == s;
    BareActionSomewhere(s, 0);
    if i :| 0 <= i < |s| && BareActionHere(s[i..]) {
      BareActionIs(s, i);
    }
    if i: nat, j: nat, k: nat :| BareActionAt(s, i, j, k) {
      ActionInside(s, i, j, k);
      BareActionIs(s, i);
    }
  }

  // ----- Resources -----

  predicate LineEndAt(s: string, from: nat, k: nat) {
    from <= k <= |s| && AllSpaces(s[from..k]) && (k < |s| ==> IsLineEnd(s[k]))
  }

  lemma SpacesStep(s: string, from: nat, k: nat)
    requires from < k <= |s|
    ensures AllSpaces(s[from..k]) <==> IsSpace(s[from]) && AllSpaces(s[from + 1..k])
  {
    var u, v := s[from..k], s[from + 1..k];
    assert u == [s[from]] + v;
    hide IsSpace;
    if IsSpace(s[from]) && AllSpaces(v) {
      assert forall i :: 0 < i < |u| ==> u[i] == v[i - 1];
    }
    if AllSpaces(u) {
      assert u[0] == s[from];
      forall i | 0 <= i < |v|
        ensures IsSpace(v[i])
      {
        assert v[i] == u[i + 1];
      }
    }
  }

  lemma LineEndStep(s: string, from: nat, k: nat)
    requires from < |s|
    ensures LineEndAt(s, from, k) <==> (k == from && IsLineEnd(s[from])) || (IsSpace(s[from]) && LineEndAt(s, from + 1, k))
  {
    if from < k <= |s| {
      SpacesStep(s, from, k);
    }
    assert AllSpaces(s[from..from]);
    hide IsSpace, IsLineEnd, AllSpaces;
  }

  lemma LineEndHere(s: string)
    ensures LineEndAt(s, |s|, |s|)
  {}

  lemma {:induction false} ToLineEnd(s: string, from: nat)
    requires from <= |s|
    ensures SpacesToLineEnd(s[from..]) <==> exists k: nat :: LineEndAt(s, from, k)
    decreases |s| - from
  {
    hide IsSpace, LineEndAt, IsLineEnd;
    if from == |s| {
      assert s[from..] == "";
      LineEndHere(s);
    } else {
      ToLineEnd(s, from + 1);
      assert s[from..][1..] == s[from + 1..] && s[from..][0] == s[from];
      LineEndStep(s, from, from);
      var next := from + 1;
      if k: nat :| LineEndAt(s, next, k) {
        LineEndStep(s, from, k);
      }
      if k: nat :| LineEndAt(s, from, k) {
        LineEndStep(s, from, k);
      }
    }
  }

  lemma {:induction false} BareResourceSomewhere(s: string, from: nat)
    requires from <= |s|
    ensures HasBareResource(s[from..]) <==> exists i :: from <= i < |s| && BareResourceHere(s[i..])
    decreases |s| - from
  {
    hide BareResourceHere;
    if from < |s| {
      BareResourceSomewhere(s, from + 1);
      assert s[from..][1..] == s[from + 1..];
    } else {
      assert s[from..] == "";
    }
  }

  predicate ResourceMatch(s: string, i: nat)
    requires i < |s|
  {
    var j := SpacesEnd(s, i + 1);
    s[i] == ',' && j + 8 <= |s| && s[j..j + 8] == "resource" && SpacesToLineEnd(s[j + 8..])
  }

  lemma BareResourceAtComma(s: string, i: nat)
    requires i < |s|
    ensures BareResourceHere(s[i..]) <==> ResourceMatch(s, i)
  {
    assert |"resource"| == 8;
    hide SpacesEnd, DropSpaces, SpacesToLineEnd, AllSpaces, IsSpace;
    CommaFirst(s, i);
    WordHere(s, SpacesEnd(s, i + 1), "resource");
  }

  lemma ResourcePlace(s: string, i: nat, j: nat, k: nat)
    requires BareResourceAt(s, i, j, k)
    ensures SpacesEnd(s, i + 1) == j
  {
    hide SpacesEnd, AllSpaces, IsSpace, DropSpaces, IsLineEnd;
    NoSpaces();
    assert s[j] == s[j..j + 8][0] == 'r';
    SpacesEndAt(s, i + 1, j);
  }

  lemma MatchEnds(s: string, i: nat) returns (k: nat)
    requires i < |s| && ResourceMatch(s, i)
    ensures BareResourceAt(s, i, SpacesEnd(s, i + 1), k)
  {
    var j := SpacesEnd(s, i + 1);
    ToLineEnd(s, j + 8);
    hide SpacesEnd, SpacesToLineEnd, AllSpaces, IsLineEnd;
    k :| LineEndAt(s, j + 8, k);
  }

  lemma EndsMatch(s: string, i: nat, j: nat, k: nat)
    requires BareResourceAt(s, i, j, k)
    ensures i < |s| && ResourceMatch(s, i)
  {
    ResourcePlace(s, i, j, k);
    ToLineEnd(s, j + 8);
    hide SpacesEnd, SpacesToLineEnd, AllSpaces, IsLineEnd;
    assert LineEndAt(s, j + 8, k);
  }

  lemma BareResourceIs(s: string, i: nat)
    requires i < |s|
    ensures BareResourceHere(s[i..]) <==> exists j: nat, k: nat :: BareResourceAt(s, i, j, k)
  {
    hide *;
    BareResourceAtComma(s, i);
    if ResourceMatch(s, i) {
      var k := MatchEnds(s, i);
    }
    if j: nat, k: nat :| BareResourceAt(s, i, j, k) {
      EndsMatch(s, i, j, k);
    }
  }

  lemma ResourceInside(s: string, i: nat, j: nat, k: nat)
    ensures BareResourceAt(s, i, j, k) ==> i < |s|
  {}

  lemma BareResourceExact(s: string)
    ensures HasBareResource(s) <==> exists i: nat, j: nat, k: nat :: BareResourceAt(s, i, j, k)
  {
    hide *;
    assert s[0..] == s;
    BareResourceSomewhere(s, 0);
    if i :| 0 <= i < |s| && BareResourceHere(s[i..]) {
      BareResourceIs(s, i);
    }
    if i: nat, j: nat, k: nat :| BareResourceAt(s, i, j, k) {
      ResourceInside(s, i, j, k);
      BareResourceIs(s, i);
    }
  }

  // ----- Wildcards -----

  lemma {:induction false} NoIdWithoutQuote(s: string, word: string, kind: Option<string>)
    requires NoQuote(s)
    ensures FirstUid(s, word, kind).None?
  {
    UnquotedHasNoMatch(s, word);
    hide MatchUid, NoQuote;
    if |s| > 0 {
      UnquotedTail(s);
      NoIdWithoutQuote(s[1..], word, kind);
    }
  }

  lemma UnquotedTail(s: string)
    requires NoQuote(s) && |s| > 0
    ensures NoQuote(s[1..])
  {}

  lemma {:induction false} DropSpacesTail(s: string)
    ensures exists k :: 0 <= k <= |s| && DropSpaces(s) == s[k..]
  {
    assert s[0..] == s;
    if |s| > 0 && IsSpace(s[0]) {
      DropSpacesTail(s[1..]);
      var k :| 0 <= k <= |s[1..]| && DropSpaces(s[1..]) == s[1..][k..];
      assert s[1..][k..] == s[k + 1..];
    }
  }

  lemma DropSpacesUnquoted(s: string)
    requires NoQuote(s)
    ensures NoQuote(DropSpaces(s))
  {
    DropSpacesTail(s);
    hide DropSpaces;
  }

  lemma UnquotedSuffix(s: string, k: nat)
    requires NoQuote(s) && k <= |s|
    ensures NoQuote(s[k..])
  {}

  lemma UnquotedHasNoMatch(s: string, word: string)
    requires NoQuote(s)
    ensures MatchUid(s, word).None?
  {
    if MatchUid(s, word).Some? {
      var n := |"RocketAdmin::"|;
      var afterWord := DropSpaces(s[|word|..]);
      var afterEquals := DropSpaces(afterWord[2..]);
      var named := afterEquals[n..];
      assert MatchKindAndId(named).Some?;
      UnquotedSuffix(s, |word|);
      DropSpacesUnquoted(s[|word|..]);
      UnquotedSuffix(afterWord, 2);
      DropSpacesUnquoted(afterWord[2..]);
      UnquotedSuffix(afterEquals, n);
      hide *;
      UnquotedNamed(named);
    }
  }

  lemma UnquotedNamed(named: string)
    requires NoQuote(named)
    ensures MatchKindAndId(named).None?
  {
    var afterKind := named[|TakeWord(named)|..];
    UnquotedSuffix(named, |TakeWord(named)|);
    assert "::\""[2] == '\"';
    hide TakeWord;
    assert !("::\"" <= afterKind);
  }

  /** A body without quotes has no action and no resource, and is a wildcard exactly when it has an
      unconstrained action between commas, or an unconstrained resource at the end of a line. */
  lemma UnquotedIsWildcard(body: string)
    requires NoQuote(body)
    ensures var r := ParsePermitBody(body);
            && r.action.None? && r.resourceId.None?
            && (r.isWildcard <==>
                  (exists i: nat, j: nat, k: nat :: BareActionAt(body, i, j, k)) ||
                  (exists i: nat, j: nat, k: nat :: BareResourceAt(body, i, j, k)))
  {
    NoIdWithoutQuote(body, "action", Some("Action"));
    NoIdWithoutQuote(body, "resource", None);
    BareActionExact(body);
    BareResourceExact(body);
    hide FirstUid, HasBareAction, HasBareResource, BareActionAt, BareResourceAt, NoQuote;
  }
}
