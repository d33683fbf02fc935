/** Facts about strings that the policy printer, scanner and readers share. */
module Text {
  datatype Option<+T> = None | Some(value: T)

  lemma Assoc<T>(a: seq<T>, b: seq<T>, c: seq<T>)
    ensures (a + b) + c == a + (b + c)
  {}

  lemma AssocFour<T>(a: seq<T>, b: seq<T>, c: seq<T>, d: seq<T>)
    ensures (a + b + c) + d == a + (b + (c + d))
  {}

  predicate NoQuote(s: string) {
    forall i :: 0 <= i < |s| ==> s[i] != '\"'
  }

  predicate NoParens(s: string) {
    forall i :: 0 <= i < |s| ==> s[i] != '(' && s[i] != ')'
  }

  // ----- Parenthesis nesting -----

  function Nesting(c: char): int {
    if c == '(' then 1 else if c == ')' then -1 else 0
  }

  /** How much deeper the nesting is after `s` than before it. */
  function Net(s: string): int {
    if |s| == 0 then 0 else Nesting(s[0]) + Net(s[1..])
  }

  /** Every ')' of `s` closes a '(' of `s`, and every '(' is closed. */
  predicate Balanced(s: string) {
    Net(s) == 0 && forall k {:trigger s[..k]} :: 0 <= k <= |s| ==> Net(s[..k]) >= 0
  }

  lemma {:induction false} NetConcat(a: string, b: string)
    ensures Net(a + b) == Net(a) + Net(b)
  {
    if |a| == 0 {
      assert a + b == b;
    } else {
      NetConcat(a[1..], b);
      assert (a + b)[1..] == a[1..] + b;
    }
  }

  lemma {:induction false} NetNoParens(s: string)
    requires NoParens(s)
    ensures Net(s) == 0
  {
    if |s| > 0 {
      NetNoParens(s[1..]);
    }
  }

  /** Text without parentheses around `s` does not change whether it is balanced. */
  lemma BalancedInside(a: string, s: string, b: string)
    requires NoParens(a) && NoParens(b)
    ensures Balanced(a + s + b) <==> Balanced(s)
  {
    var t := a + s + b;
    NetConcat(a + s, b);
    NetConcat(a, s);
    NetNoParens(a);
    NetNoParens(b);
    forall k | 0 <= k <= |t|
      ensures Net(t[..k]) == if k <= |a| then 0 else if k <= |a| + |s| then Net(s[..k - |a|]) else Net(s)
    {
      if k <= |a| {
        assert t[..k] == a[..k];
        NetNoParens(a[..k]);
      } else if k <= |a| + |s| {
        assert t[..k] == a + s[..k - |a|];
        NetConcat(a, s[..k - |a|]);
      } else {
        assert t[..k] == a + s + b[..k - |a| - |s|];
        NetConcat(a + s, b[..k - |a| - |s|]);
        NetNoParens(b[..k - |a| - |s|]);
      }
    }
    forall k | 0 <= k <= |s|
      ensures Net(s[..k]) == Net(t[..|a| + k])
    {
      if k == 0 {
        assert s[..0] == "";
      }
    }
  }

  // ----- Joining -----

  /** JavaScript's `parts.join(separator)`. */
  function Join(parts: seq<string>, separator: string): string {
    if |parts| == 0 then ""
    else if |parts| == 1 then parts[0]
    else parts[0] + separator + Join(parts[1..], separator)
  }

  // ----- First-appearance order -----

  /** The distinct elements of `xs`, in the order in which each first appears:
      the key order of a JavaScript Map filled from `xs`. */
  function Distinct<T(==,!new)>(xs: seq<T>): (d: seq<T>)
    ensures forall x :: x in d <==> x in xs
    ensures forall i, j :: 0 <= i < j < |d| ==> d[i] != d[j]
  {
    if |xs| == 0 then []
    else
      var d := Distinct(xs[..|xs| - 1]);
      var last := xs[|xs| - 1];
      assert xs == xs[..|xs| - 1] + [last];
      if last in d then d else d + [last]
  }

  lemma DistinctSnoc<T(!new)>(xs: seq<T>, x: T)
    ensures Distinct(xs + [x]) == if x in xs then Distinct(xs) else Distinct(xs) + [x]
  {
    assert (xs + [x])[..|xs|] == xs;
  }

  /** Only the first appearances matter: what `ys` adds depends on its own distinct elements. */
  lemma {:induction false} DistinctConcat<T(!new)>(xs: seq<T>, ys: seq<T>)
    ensures Distinct(xs + ys) == Distinct(xs + Distinct(ys))
  {
    if |ys| == 0 {
      assert xs + ys == xs + Distinct(ys);
    } else {
      var init, last := ys[..|ys| - 1], ys[|ys| - 1];
      assert ys == init + [last];
      DistinctSnoc(init, last);
      hide Distinct;
      Assoc(xs, init, [last]);
      DistinctConcat(xs, init);
      DistinctSnoc(xs + init, last);
      if last !in init {
        Assoc(xs, Distinct(init), [last]);
        DistinctSnoc(xs + Distinct(init), last);
      }
    }
  }

  lemma {:induction false} DistinctCongruent<T(!new)>(xs: seq<T>, xs': seq<T>, ys: seq<T>)
    requires Distinct(xs) == Distinct(xs')
    ensures Distinct(xs + ys) == Distinct(xs' + ys)
  {
    if |ys| == 0 {
      assert xs + ys == xs && xs' + ys == xs';
    } else {
      var init, last := ys[..|ys| - 1], ys[|ys| - 1];
      DistinctCongruent(xs, xs', init);
      assert ys == init + [last];
      Assoc(xs, init, [last]);
      Assoc(xs', init, [last]);
      DistinctSnoc(xs + init, last);
      DistinctSnoc(xs' + init, last);
    }
  }

  /** Repeating one element adds it once. */
  lemma DistinctRepeat<T(!new)>(xs: seq<T>, ys: seq<T>, x: T)
    requires |ys| > 0 && forall i :: 0 <= i < |ys| ==> ys[i] == x
    ensures Distinct(xs + ys) == Distinct(xs + [x])
  {
    var d := Distinct(ys);
    assert ys[0] in d;
    forall i | 0 <= i < |d|
      ensures d[i] == x
    {
      assert d[i] in ys;
    }
    DistinctConcat(xs, ys);
    assert d == [x];
  }

  lemma {:induction false} DistinctDistinct<T(!new)>(xs: seq<T>)
    requires forall i, j :: 0 <= i < j < |xs| ==> xs[i] != xs[j]
    ensures Distinct(xs) == xs
  {
    if |xs| > 0 {
      var init, last := xs[..|xs| - 1], xs[|xs| - 1];
      DistinctDistinct(init);
      assert xs == init + [last];
      DistinctSnoc(init, last);
    }
  }
}
