/**
 * The CHECK expressions of constraint signatures: `hasWrappingParentheses` and the loop that strips them
 * (`normalizeStructuralSignature`, packages/catalog/src/postgresSchemaComparison.ts).
 */
module WrappingParentheses {
  import opened Options
  import opened SqlNormaliser

  /** The quote that is open before position `i`. A doubled quote closes and opens again. */
  function Inside(s: string, i: nat): Option<char>
    requires i <= |s|
  {
    if i == 0 then None
    else
      var c := s[i - 1];
      match Inside(s, i - 1)
      case None => if IsQuote(c) then Some(c) else None
      case Some(q) => if c == q then None else Some(q)
  }

  /** Parentheses opened and not closed before position `i`, outside quotes. */
  function Depth(s: string, i: nat): int
    requires i <= |s|
  {
    if i == 0 then 0
    else Depth(s, i - 1) + if Inside(s, i - 1).Some? then 0 else if s[i - 1] == '(' then 1 else if s[i - 1] == ')' then -1 else 0
  }

  /** The parenthesis opened by the first character is closed by the last one, and not before. */
  ghost predicate Wraps(s: string) {
    && |s| >= 2 && s[0] == '(' && s[|s| - 1] == ')'
    && Depth(s, |s|) == 0 && Inside(s, |s|).None?
    && forall i :: 0 < i < |s| ==> Depth(s, i) > 0
  }

  ghost predicate Balanced(s: string) {
    Depth(s, |s|) == 0 && Inside(s, |s|).None? && forall i :: 0 <= i <= |s| ==> Depth(s, i) >= 0
  }

  method HasWrappingParentheses(source: string) returns (result: bool)
    ensures result <==> Wraps(source)
  {
    if source == "" || source[0] != '(' || source[|source| - 1] != ')' {
      return false;
    }
    var depth := 0;
    var quote: Option<char> := None;
    var index := 0;
    while index < |source|
      invariant 0 <= index <= |source|
      invariant quote == Inside(source, index) && depth == Depth(source, index)
      invariant forall i :: 0 < i <= index && i < |source| ==> Depth(source, i) > 0
    {
      var character := source[index];
      if quote.Some? {
        if character != quote.value {
          index := index + 1;
          continue;
        }
        assert Depth(source, index + 1) == depth;
        if index + 1 < |source| && source[index + 1] == quote.value {
          assert Inside(source, index + 1).None?;
          assert IsQuote(quote.value) by { OpenIsQuote(source, index); }
          index := index + 2;
        } else {
          quote := None;
          index := index + 1;
        }
        continue;
      }
      if IsQuote(character) {
        quote := Some(character);
      } else if character == '(' {
        depth := depth + 1;
      } else if character == ')' {
        depth := depth - 1;
      }
      index := index + 1;
      if depth == 0 && index < |source| {
        assert Depth(source, index) == 0;
        return false;
      }
      DepthFallsByOne(source, index);
    }
    result := depth == 0 && quote.None?;
    if result {
      assert |source| >= 2;
    }
  }

  lemma {:induction false} OpenIsQuote(s: string, i: nat)
    requires i <= |s| && Inside(s, i).Some?
    ensures IsQuote(Inside(s, i).value)
  {
    if i > 0 && Inside(s, i - 1).Some? {
      OpenIsQuote(s, i - 1);
    }
  }

  lemma DepthFallsByOne(s: string, i: nat)
    requires 0 < i <= |s|
    ensures Depth(s, i) >= Depth(s, i - 1) - 1
  {}

  /** Within wrapping parentheses everything lies one level deeper. */
  lemma {:induction false} InnerDepth(s: string, i: nat)
    requires |s| >= 2 && s[0] == '(' && i <= |s| - 2
    ensures var inner := s[1..|s| - 1];
            Inside(inner, i) == Inside(s, i + 1) && Depth(inner, i) == Depth(s, i + 1) - 1
  {
    if i == 0 {
      assert Inside(s, 0).None? && Depth(s, 0) == 0;
      assert Inside(s, 1).None? && Depth(s, 1) == 1;
    } else {
      InnerDepth(s, i - 1);
      assert s[1..|s| - 1][i - 1] == s[i];
    }
  }

  /** What wrapping parentheses hold is balanced, and so are they with it. */
  lemma InnerIsBalanced(s: string)
    requires Wraps(s)
    ensures Balanced(s[1..|s| - 1]) && Balanced(s)
  {
    var inner := s[1..|s| - 1];
    forall i | 0 <= i <= |inner| ensures Depth(inner, i) >= 0 {
      InnerDepth(s, i);
    }
    InnerDepth(s, |inner|);
    DepthFallsByOne(s, |s|);
    assert Depth(s, |s| - 1) == 1;
    assert Inside(s, |s| - 1).None?;
  }

  function Repeated(c: char, n: nat): string {
    seq(n, _ => c)
  }

  /** The expression without its wrapping parentheses. */
  ghost function Stripped(s: string): string
    decreases |s|
  {
    if Wraps(s) then Stripped(s[1..|s| - 1]) else s
  }

  /** Exactly the pairs that wrap go, one after the other: what is left is balanced whenever one went, and none wraps it. */
  lemma {:induction false} StripsExactlyThePairs(s: string) returns (pairs: nat)
    ensures s == Repeated('(', pairs) + Stripped(s) + Repeated(')', pairs) && !Wraps(Stripped(s))
    ensures pairs > 0 || Balanced(s) ==> Balanced(Stripped(s))
    ensures pairs > 0 <==> Wraps(s)
    decreases |s|
  {
    if Wraps(s) {
      var fewer := StripsExactlyThePairs(s[1..|s| - 1]);
      InnerIsBalanced(s);
      pairs := fewer + 1;
      OuterPair(s, Stripped(s), fewer);
    } else {
      pairs := 0;
      assert s == Repeated('(', 0) + s + Repeated(')', 0);
    }
  }

  lemma OuterPair(s: string, inside: string, fewer: nat)
    requires |s| >= 2 && s[0] == '(' && s[|s| - 1] == ')'
    requires s[1..|s| - 1] == Repeated('(', fewer) + inside + Repeated(')', fewer)
    ensures s == Repeated('(', fewer + 1) + inside + Repeated(')', fewer + 1)
  {
    assert Repeated('(', fewer + 1) == ['('] + Repeated('(', fewer);
    assert Repeated(')', fewer + 1) == Repeated(')', fewer) + [')'];
    assert s == ['('] + s[1..|s| - 1] + [')'];
  }

  /** `while (hasWrappingParentheses(expression)) expression = expression.slice(1, -1)`. */
  method StripWrapping(expression: string) returns (stripped: string, ghost pairs: nat)
    ensures stripped == Stripped(expression)
    ensures expression == Repeated('(', pairs) + stripped + Repeated(')', pairs)
    ensures !Wraps(stripped)
    ensures pairs > 0 || Balanced(expression) ==> Balanced(stripped)
  {
    stripped := expression;
    var wrapped := HasWrappingParentheses(stripped);
    while wrapped
      invariant wrapped <==> Wraps(stripped)
      invariant Stripped(stripped) == Stripped(expression)
      decreases |stripped|
    {
      stripped := stripped[1..|stripped| - 1];
      wrapped := HasWrappingParentheses(stripped);
    }
    pairs := StripsExactlyThePairs(expression);
  }

  // ----- The key of a CHECK constraint -----------------------------------------------------------------

  const Check: string := "check("

  predicate IsCheck(normal: string) {
    Check <= normal && normal[|normal| - 1] == ')'
  }

  /** The key of a normal form. */
  ghost function KeyOf(normal: string): string {
    if IsCheck(normal) then Check + Stripped(normal[6..|normal| - 1]) + ")" else normal
  }

  /** The one key of a signature whose constraint name is already removed. */
  ghost function StructuralKey(cs: Characters, signature: string): string {
    KeyOf(Normal(cs, signature, None, None))
  }

  /**
   * `normalizeStructuralSignature` of a signature whose constraint name is already removed: the normal form,
   * in a CHECK without exactly the pairs of parentheses that wrap its expression.
   */
  method NormalizeStructuralSignature(cs: Characters, signature: string) returns (normalized: string)
    requires Lawful(cs)
    ensures normalized == StructuralKey(cs, signature)
    ensures var normal := Normal(cs, signature, None, None);
            if "check(" <= normal && normal[|normal| - 1] == ')' then
              var expression := normal[6..|normal| - 1];
              exists stripped: string, pairs: nat ::
                && normalized == "check(" + stripped + ")" && !Wraps(stripped)
                && expression == Repeated('(', pairs) + stripped + Repeated(')', pairs)
                && (pairs > 0 || Balanced(expression) ==> Balanced(stripped))
                && (pairs > 0 <==> Wraps(expression))
            else normalized == normal
    ensures StructuralKey(cs, normalized) == normalized
  {
    KeyIsItsOwnKey(cs, signature);
    var normal := NormalizeOutsideQuotedSql(cs, signature);
    if !(Check <= normal) || normal[|normal| - 1] != ')' {
      return normal;
    }
    var expression := normal[6..|normal| - 1];
    ghost var pairs := StripsExactlyThePairs(expression);
    var stripped, _ := StripWrapping(expression);
    hide Wraps, Balanced, Stripped, Normal;
    return Check + stripped + ")";
  }

  // ----- The key of a key is the key -------------------------------------------------------------------

  lemma {:induction false} VisibleAhead(cs: Characters, t: string)
    requires Lawful(cs)
    ensures NextVisible(cs, t + "))") == NextVisible(cs, t + ")")
    decreases |t|
  {
    if t == "" {
      assert "" + "))" == "))" && "" + ")" == ")" && IsPunctuation(')');
    } else {
      assert (t + "))")[1..] == t[1..] + "))" && (t + ")")[1..] == t[1..] + ")";
      VisibleAhead(cs, t[1..]);
    }
  }

  /** One closing parenthesis fewer at the end changes nothing before it. */
  lemma {:induction false} OneClosingLess(cs: Characters, t: string, quote: Option<char>, previous: Option<char>)
    requires Lawful(cs) && (quote.Some? ==> IsQuote(quote.value)) && Stable(cs, t + "))", quote, previous)
    ensures Stable(cs, t + ")", quote, previous)
    decreases |t|
  {
    var long, short := t + "))", t + ")";
    if t == "" {
      assert long == "))" && short == ")" && short[1..] == "" && IsPunctuation(')');
      assert Stable(cs, "", quote, Some(')'));
    } else {
      var c := t[0];
      assert long[0] == c && short[0] == c && long[1..] == t[1..] + "))" && short[1..] == t[1..] + ")";
      assert long[1] == short[1];
      VisibleAhead(cs, t);
      if quote.Some? && c == quote.value && short[1] == c {
        assert |t| >= 2;
        assert long[2..] == t[2..] + "))" && short[2..] == t[2..] + ")";
        OneClosingLess(cs, t[2..], quote, Some(c));
      } else {
        var next := if quote.Some? then (if c == quote.value then None else quote) else if IsQuote(c) then Some(c) else None;
        OneClosingLess(cs, t[1..], next, Some(c));
      }
    }
  }

  /** Visible text outside quotes is copied, whatever follows it. */
  lemma {:induction false} PlainPrefix(cs: Characters, a: string, rest: string, previous: Option<char>)
    requires a != "" && forall c | c in a :: !IsQuote(c) && !cs.isSpace(c)
    ensures Stable(cs, a + rest, None, previous) <==> (forall c | c in a :: cs.lower(c) == [c]) && Stable(cs, rest, None, Last(a))
    decreases |a|
  {
    var all := a + rest;
    assert all[0] == a[0] && all[1..] == a[1..] + rest && a == [a[0]] + a[1..];
    if |a| == 1 {
      assert all[1..] == rest;
    } else {
      assert forall c | c in a[1..] :: c in a;
      PlainPrefix(cs, a[1..], rest, Some(a[0]));
    }
  }

  /** A stable text starts with visible text that was copied, so `check(` holds no blank. */
  lemma OnePairLess(cs: Characters, inner: string)
    requires Lawful(cs) && (forall c | c in Check :: !cs.isSpace(c))
    requires Stable(cs, Check + ("(" + inner + ")") + ")", None, None)
    ensures Stable(cs, Check + inner + ")", None, None)
  {
    var long, short := Check + "(", Check;
    assert IsPunctuation('(');
    assert Check + ("(" + inner + ")") + ")" == long + (inner + "))");
    assert Check + inner + ")" == short + (inner + ")");
    assert Last(long) == Some('(') == Last(short);
    assert forall c | c in long :: c in short || c == '(';
    assert forall c | c in short :: c in long;
    PlainPrefix(cs, long, inner + "))", None);
    OneClosingLess(cs, inner, None, Some('('));
    PlainPrefix(cs, short, inner + ")", None);
  }

  lemma {:induction false} StrippedStaysStable(cs: Characters, inner: string)
    requires Lawful(cs) && (forall c | c in Check :: !cs.isSpace(c)) && Stable(cs, Check + inner + ")", None, None)
    ensures Stable(cs, Check + Stripped(inner) + ")", None, None)
    decreases |inner|
  {
    if Wraps(inner) {
      assert inner == "(" + inner[1..|inner| - 1] + ")";
      OnePairLess(cs, inner[1..|inner| - 1]);
      StrippedStaysStable(cs, inner[1..|inner| - 1]);
    }
  }

  /** What a normal form starts with outside quotes is visible, apart from single blanks. */
  lemma CheckIsVisible(cs: Characters, normal: string)
    requires Lawful(cs) && Check <= normal && Stable(cs, normal, None, None)
    ensures forall c | c in Check :: !cs.isSpace(c)
  {
    assert normal[..6] == Check;
    var n1, n2, n3, n4, n5 := normal[1..], normal[2..], normal[3..], normal[4..], normal[5..];
    assert n1[1..] == n2 && n2[1..] == n3 && n3[1..] == n4 && n4[1..] == n5;
    assert normal[0] == 'c' && n1[0] == 'h' && n2[0] == 'e' && n3[0] == 'c' && n4[0] == 'k' && n5[0] == '(';
    assert IsPunctuation('(');
    assert Stable(cs, n1, None, Some('c'));
    assert Stable(cs, n2, None, Some('h'));
    assert Stable(cs, n3, None, Some('e'));
    assert Stable(cs, n4, None, Some('c'));
  }

  /** Normalising a key again changes nothing. */
  lemma KeyIsItsOwnKey(cs: Characters, signature: string)
    requires Lawful(cs)
    ensures StructuralKey(cs, StructuralKey(cs, signature)) == StructuralKey(cs, signature)
  {
    var normal := Normal(cs, signature, None, None);
    NormalIsStable(cs, signature, None, None);
    var key := KeyOf(normal);
    if IsCheck(normal) {
      var inner := normal[6..|normal| - 1];
      assert normal == Check + inner + ")";
      CheckIsVisible(cs, normal);
      StrippedStaysStable(cs, inner);
      var _ := StripsExactlyThePairs(inner);
      assert key[6..|key| - 1] == Stripped(inner);
    }
    StableIsNormal(cs, key, None, None);
  }
}
