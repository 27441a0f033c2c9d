/**
 * Normal forms of constraint signatures (packages/catalog/src/postgresSchemaComparison.ts): lower case and
 * single blanks outside quoted text, and a CHECK expression without wrapping parentheses.
 */
module SqlNormaliser {
  import opened Options

  /** JavaScript's lower case and white space, of which only these laws are used. */
  datatype Characters = Characters(lower: char -> string, isSpace: char -> bool)

  predicate IsQuote(c: char) {
    c == '\'' || c == '"'
  }

  predicate IsPunctuation(c: char) {
    c == '(' || c == ')' || c == ','
  }

  ghost predicate Lawful(cs: Characters) {
    && cs.isSpace(' ')
    && (forall c :: cs.isSpace(c) ==> !IsQuote(c) && !IsPunctuation(c))
    && (forall c :: IsPunctuation(c) ==> cs.lower(c) == [c])
    && (forall c :: cs.lower(c) != "")
    && (forall c, x | !cs.isSpace(c) && !IsQuote(c) && x in cs.lower(c) ::
          !cs.isSpace(x) && !IsQuote(x) && cs.lower(x) == [x] && (IsPunctuation(x) ==> x == c))
  }

  function Last(text: string): Option<char> {
    if text == "" then None else Some(text[|text| - 1])
  }

  /** `source.slice(index).match(/\S/u)?.[0]`. */
  function NextVisible(cs: Characters, rest: string): Option<char> {
    if rest == "" then None else if cs.isSpace(rest[0]) then NextVisible(cs, rest[1..]) else Some(rest[0])
  }

  predicate KeepsBlank(previous: Option<char>, next: Option<char>) {
    previous.Some? && next.Some? && previous.value != ' ' && !IsPunctuation(previous.value) && !IsPunctuation(next.value)
  }

  /** The normal form of `rest`, read inside the quote if there is one, behind the character `previous`. */
  function Normal(cs: Characters, rest: string, quote: Option<char>, previous: Option<char>): string
    decreases |rest|
  {
    if rest == "" then ""
    else
      var c := rest[0];
      match quote
      case Some(q) =>
        if c != q then [c] + Normal(cs, rest[1..], quote, Some(c))
        else if |rest| > 1 && rest[1] == q then [q, q] + Normal(cs, rest[2..], quote, Some(q))
        else [q] + Normal(cs, rest[1..], None, Some(q))
      case None =>
        if IsQuote(c) then [c] + Normal(cs, rest[1..], Some(c), Some(c))
        else if cs.isSpace(c) then
          if KeepsBlank(previous, NextVisible(cs, rest)) then " " + Normal(cs, rest[1..], None, Some(' '))
          else Normal(cs, rest[1..], None, previous)
        else cs.lower(c) + Normal(cs, rest[1..], None, if cs.lower(c) == "" then previous else Last(cs.lower(c)))
  }

  method NormalizeOutsideQuotedSql(cs: Characters, source: string) returns (result: string)
    requires Lawful(cs)
    ensures result == Normal(cs, source, None, None)
  {
    result := "";
    var quote: Option<char> := None;
    var index := 0;
    assert source[0..] == source;
    while index < |source|
      invariant 0 <= index <= |source|
      invariant result + Normal(cs, source[index..], quote, Last(result)) == Normal(cs, source, None, None)
    {
      ghost var before := result;
      ghost var rest := source[index..];
      assert rest[1..] == source[index + 1..] && (|rest| > 1 ==> rest[1] == source[index + 1] && rest[2..] == source[index + 2..]);
      var c := source[index];
      if quote.Some? {
        if c == quote.value && index + 1 < |source| && source[index + 1] == quote.value {
          Appended(before, [c, c], Normal(cs, rest[2..], quote, Some(c)));
          result := result + [c] + [c];
          assert result == before + [c, c];
          index := index + 2;
        } else {
          ghost var next := if c == quote.value then None else quote;
          Appended(before, [c], Normal(cs, rest[1..], next, Some(c)));
          result := result + [c];
          quote := if c == quote.value then None else quote;
          index := index + 1;
        }
      } else if IsQuote(c) {
        Appended(before, [c], Normal(cs, rest[1..], Some(c), Some(c)));
        quote := Some(c);
        result := result + [c];
        index := index + 1;
      } else if cs.isSpace(c) {
        if KeepsBlank(Last(result), NextVisible(cs, source[index..])) {
          Appended(before, " ", Normal(cs, rest[1..], None, Some(' ')));
          result := result + " ";
        }
        index := index + 1;
      } else {
        Appended(before, cs.lower(c), Normal(cs, rest[1..], None, Last(cs.lower(c))));
        result := result + cs.lower(c);
        index := index + 1;
      }
    }
  }

  lemma Appended(a: string, b: string, c: string)
    ensures a + (b + c) == a + b + c
    ensures b != "" ==> Last(a + b) == Last(b)
  {}

  // ----- Idempotence ---------------------------------------------------------------------------------

  /** The normaliser copies `rest` character by character. */
  predicate Stable(cs: Characters, rest: string, quote: Option<char>, previous: Option<char>)
    decreases |rest|
  {
    rest == "" ||
    var c := rest[0];
    match quote
    case Some(q) =>
      if c != q then Stable(cs, rest[1..], quote, Some(c))
      else if |rest| > 1 && rest[1] == q then Stable(cs, rest[2..], quote, Some(q))
      else Stable(cs, rest[1..], None, Some(q))
    case None =>
      if IsQuote(c) then Stable(cs, rest[1..], Some(c), Some(c))
      else if cs.isSpace(c) then c == ' ' && KeepsBlank(previous, NextVisible(cs, rest)) && Stable(cs, rest[1..], None, Some(' '))
      else cs.lower(c) == [c] && Stable(cs, rest[1..], None, Some(c))
  }

  lemma {:induction false} StableIsNormal(cs: Characters, rest: string, quote: Option<char>, previous: Option<char>)
    requires Lawful(cs) && Stable(cs, rest, quote, previous)
    ensures Normal(cs, rest, quote, previous) == rest
    decreases |rest|
  {
    if rest != "" {
      var c := rest[0];
      assert rest == [c] + rest[1..];
      match quote
      case Some(q) =>
        if c != q {
          StableIsNormal(cs, rest[1..], quote, Some(c));
        } else if |rest| > 1 && rest[1] == q {
          StableIsNormal(cs, rest[2..], quote, Some(q));
          assert rest == [q, q] + rest[2..];
        } else {
          StableIsNormal(cs, rest[1..], None, Some(q));
        }
      case None =>
        StableIsNormal(cs, rest[1..], if IsQuote(c) then Some(c) else None, Some(c));
    }
  }

  /** Lower-cased text is read back as it is. */
  lemma {:induction false} LowerIsStable(cs: Characters, text: string, rest: string, previous: Option<char>)
    requires Lawful(cs) && text != "" && Stable(cs, rest, None, Last(text))
    requires forall x | x in text :: !cs.isSpace(x) && !IsQuote(x) && cs.lower(x) == [x]
    ensures Stable(cs, text + rest, None, previous)
    decreases |text|
  {
    var all := text + rest;
    assert all[0] == text[0] && text[0] in text;
    assert all[1..] == text[1..] + rest;
    if |text| == 1 {
      assert text[1..] + rest == rest;
    } else {
      assert forall x | x in text[1..] :: x in text;
      LowerIsStable(cs, text[1..], rest, Some(text[0]));
    }
  }

  /** The first character of a normal form, behind a blank, is that of the next visible character. */
  lemma {:induction false} StartsVisibly(cs: Characters, rest: string)
    requires Lawful(cs) && NextVisible(cs, rest).Some?
    ensures var n := NextVisible(cs, rest).value;
            var normal := Normal(cs, rest, None, Some(' '));
            && normal != "" && !cs.isSpace(normal[0])
            && (IsPunctuation(normal[0]) <==> IsPunctuation(n))
    decreases |rest|
  {
    if cs.isSpace(rest[0]) {
      StartsVisibly(cs, rest[1..]);
    } else if !IsQuote(rest[0]) {
      var low := cs.lower(rest[0]);
      assert low[0] in low;
    }
  }

  /** Behind a closing quote the normal form starts with that quote only where the source does. */
  lemma QuoteStaysApart(cs: Characters, rest: string, q: char)
    requires Lawful(cs) && IsQuote(q)
    ensures var normal := Normal(cs, rest, None, Some(q)); normal != "" && normal[0] == q ==> rest != "" && rest[0] == q
    decreases |rest|
  {
    if rest != "" && !IsQuote(rest[0]) {
      if cs.isSpace(rest[0]) {
        if NextVisible(cs, rest).None? {
          OnlyBlanks(cs, rest, Some(q));
        } else if IsPunctuation(NextVisible(cs, rest).value) {
          PunctuationFirst(cs, rest, Some(q));
        }
      } else {
        assert cs.lower(rest[0])[0] in cs.lower(rest[0]);
      }
    }
  }

  lemma {:induction false} OnlyBlanks(cs: Characters, rest: string, previous: Option<char>)
    requires Lawful(cs) && NextVisible(cs, rest).None?
    ensures Normal(cs, rest, None, previous) == ""
    decreases |rest|
  {
    if rest != "" {
      OnlyBlanks(cs, rest[1..], previous);
    }
  }

  lemma {:induction false} PunctuationFirst(cs: Characters, rest: string, previous: Option<char>)
    requires Lawful(cs) && NextVisible(cs, rest).Some? && IsPunctuation(NextVisible(cs, rest).value)
    ensures var normal := Normal(cs, rest, None, previous); normal != "" && IsPunctuation(normal[0])
    decreases |rest|
  {
    if cs.isSpace(rest[0]) {
      PunctuationFirst(cs, rest[1..], previous);
    }
  }

  /** A normal form is stable. */
  lemma {:induction false} NormalIsStable(cs: Characters, rest: string, quote: Option<char>, previous: Option<char>)
    requires Lawful(cs) && (quote.Some? ==> IsQuote(quote.value))
    ensures Stable(cs, Normal(cs, rest, quote, previous), quote, previous)
    decreases |rest|, 1
  {
    if rest != "" {
      var c := rest[0];
      match quote
      case Some(q) => QuotedIsStable(cs, rest, q, previous);
      case None =>
        if IsQuote(c) {
          NormalIsStable(cs, rest[1..], Some(c), Some(c));
          Behind([c], Normal(cs, rest[1..], Some(c), Some(c)));
        } else if cs.isSpace(c) {
          if KeepsBlank(previous, NextVisible(cs, rest)) {
            BlankIsStable(cs, rest, previous);
          } else {
            NormalIsStable(cs, rest[1..], None, previous);
          }
        } else {
          NormalIsStable(cs, rest[1..], None, Last(cs.lower(c)));
          LowerIsStable(cs, cs.lower(c), Normal(cs, rest[1..], None, Last(cs.lower(c))), previous);
        }
    }
  }

  lemma {:induction false} BlankIsStable(cs: Characters, rest: string, previous: Option<char>)
    requires Lawful(cs) && rest != "" && cs.isSpace(rest[0]) && KeepsBlank(previous, NextVisible(cs, rest))
    ensures Stable(cs, Normal(cs, rest, None, previous), None, previous)
    decreases |rest|, 0
  {
    var inner := Normal(cs, rest[1..], None, Some(' '));
    NormalIsStable(cs, rest[1..], None, Some(' '));
    assert NextVisible(cs, rest) == NextVisible(cs, rest[1..]);
    StartsVisibly(cs, rest[1..]);
    Behind(" ", inner);
    assert Normal(cs, rest, None, previous) == " " + inner;
    hide Normal;
    assert NextVisible(cs, " " + inner) == NextVisible(cs, inner) == Some(inner[0]);
  }

  lemma Behind(head: string, tail: string)
    requires |head| == 1
    ensures (head + tail)[0] == head[0] && (head + tail)[1..] == tail
  {}

  lemma {:induction false} QuotedIsStable(cs: Characters, rest: string, q: char, previous: Option<char>)
    requires Lawful(cs) && IsQuote(q) && rest != ""
    ensures Stable(cs, Normal(cs, rest, Some(q), previous), Some(q), previous)
    decreases |rest|, 0
  {
    var c := rest[0];
    if c != q {
      var inner := Normal(cs, rest[1..], Some(q), Some(c));
      NormalIsStable(cs, rest[1..], Some(q), Some(c));
      Behind([c], inner);
    } else if |rest| > 1 && rest[1] == q {
      var inner := Normal(cs, rest[2..], Some(q), Some(q));
      NormalIsStable(cs, rest[2..], Some(q), Some(q));
      assert ([q, q] + inner)[0] == q && ([q, q] + inner)[1] == q && ([q, q] + inner)[2..] == inner;
    } else {
      var inner := Normal(cs, rest[1..], None, Some(q));
      NormalIsStable(cs, rest[1..], None, Some(q));
      QuoteStaysApart(cs, rest[1..], q);
      Behind([q], inner);
      assert |rest| > 1 ==> rest[1..][0] == rest[1];
      assert inner != "" ==> ([q] + inner)[1] == inner[0];
    }
  }

  /** Normalising twice is normalising once. */
  lemma NormalizeIsIdempotent(cs: Characters, source: string)
    requires Lawful(cs)
    ensures Normal(cs, Normal(cs, source, None, None), None, None) == Normal(cs, source, None, None)
  {
    NormalIsStable(cs, source, None, None);
    StableIsNormal(cs, Normal(cs, source, None, None), None, None);
  }

  // ----- Quoted text ---------------------------------------------------------------------------------

  /** The quoted literals and identifiers of a text, quotes and doubled quotes included, one after the other. */
  function QuotedText(rest: string, quote: Option<char>): string
    decreases |rest|
  {
    if rest == "" then ""
    else
      var c := rest[0];
      match quote
      case Some(q) =>
        if c != q then [c] + QuotedText(rest[1..], quote)
        else if |rest| > 1 && rest[1] == q then [q, q] + QuotedText(rest[2..], quote)
        else [q] + QuotedText(rest[1..], None)
      case None => if IsQuote(c) then [c] + QuotedText(rest[1..], Some(c)) else QuotedText(rest[1..], None)
  }

  lemma {:induction false} PlainHasNoQuotes(text: string, rest: string)
    requires forall x | x in text :: !IsQuote(x)
    ensures QuotedText(text + rest, None) == QuotedText(rest, None)
    decreases |text|
  {
    if text == "" {
      assert text + rest == rest;
    } else {
      assert (text + rest)[0] == text[0] && text[0] in text && (text + rest)[1..] == text[1..] + rest;
      PlainHasNoQuotes(text[1..], rest);
    }
  }

  /** Quoted text is copied unchanged. */
  lemma {:induction false} QuotedTextIsCopied(cs: Characters, rest: string, quote: Option<char>, previous: Option<char>)
    requires Lawful(cs) && (quote.Some? ==> IsQuote(quote.value))
    ensures QuotedText(Normal(cs, rest, quote, previous), quote) == QuotedText(rest, quote)
    decreases |rest|
  {
    if rest != "" {
      var c := rest[0];
      match quote
      case Some(q) =>
        if c != q {
          QuotedTextIsCopied(cs, rest[1..], quote, Some(c));
          Behind([c], Normal(cs, rest[1..], quote, Some(c)));
        } else if |rest| > 1 && rest[1] == q {
          var inner := Normal(cs, rest[2..], quote, Some(q));
          QuotedTextIsCopied(cs, rest[2..], quote, Some(q));
          assert ([q, q] + inner)[0] == q && ([q, q] + inner)[1] == q && ([q, q] + inner)[2..] == inner;
        } else {
          var inner := Normal(cs, rest[1..], None, Some(q));
          QuotedTextIsCopied(cs, rest[1..], None, Some(q));
          QuoteStaysApart(cs, rest[1..], q);
          Behind([q], inner);
          assert |rest| > 1 ==> rest[1..][0] == rest[1];
          assert inner != "" ==> ([q] + inner)[1] == inner[0];
        }
      case None =>
        if IsQuote(c) {
          QuotedTextIsCopied(cs, rest[1..], Some(c), Some(c));
          Behind([c], Normal(cs, rest[1..], Some(c), Some(c)));
        } else if cs.isSpace(c) {
          if KeepsBlank(previous, NextVisible(cs, rest)) {
            QuotedTextIsCopied(cs, rest[1..], None, Some(' '));
            Behind(" ", Normal(cs, rest[1..], None, Some(' ')));
          } else {
            QuotedTextIsCopied(cs, rest[1..], None, previous);
          }
        } else {
          QuotedTextIsCopied(cs, rest[1..], None, Last(cs.lower(c)));
          PlainHasNoQuotes(cs.lower(c), Normal(cs, rest[1..], None, Last(cs.lower(c))));
        }
    }
  }
}
