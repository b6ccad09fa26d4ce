/**
 * Search tokens as ILIKE patterns. The token is escaped and wrapped in `%`; matching is that of
 * the LIKE predicate with an escape character (section 8.5 of ISO/IEC 9075:1992), on strings
 * that ILIKE has folded first.
 */
module LikePattern {
  const ESCAPE := '\\'

  predicate Special(c: char) { c == ESCAPE || c == '%' || c == '_' }

  /** str.replace of a single character. */
  function Replace(s: string, c: char, to: string): string {
    if s == [] then [] else (if s[0] == c then to else [s[0]]) + Replace(s[1..], c, to)
  }

  function EscapeToken(token: string): string {
    Replace(Replace(Replace(token, ESCAPE, [ESCAPE, ESCAPE]), '%', [ESCAPE, '%']), '_', [ESCAPE, '_'])
  }

  predicate Like(pattern: string, text: string)
    decreases |pattern|
  {
    if pattern == [] then text == []
    else if pattern[0] == '%' then exists i :: 0 <= i <= |text| && Like(pattern[1..], text[i..])
    else if text == [] then false
    else if pattern[0] == '_' then Like(pattern[1..], text[1..])
    else if pattern[0] == ESCAPE then |pattern| >= 2 && pattern[1] == text[0] && Like(pattern[2..], text[1..])
    else pattern[0] == text[0] && Like(pattern[1..], text[1..])
  }

  function Fold(s: string, fold: char -> char): string {
    if s == [] then [] else [fold(s[0])] + Fold(s[1..], fold)
  }

  /** Case folding leaves the special characters alone and makes no others. */
  ghost predicate Folding(fold: char -> char) {
    forall c :: (Special(c) ==> fold(c) == c) && (!Special(c) ==> !Special(fold(c)))
  }

  predicate ILike(pattern: string, text: string, fold: char -> char) { Like(Fold(pattern, fold), Fold(text, fold)) }

  function TokenPattern(token: string): string { "%" + EscapeToken(token) + "%" }

  predicate Occurs(part: string, text: string) { exists i :: 0 <= i <= |text| && part <= text[i..] }

  // ---- escaping ------------------------------------------------------------------------------------------

  function Escaped(s: string): string {
    if s == [] then [] else (if Special(s[0]) then [ESCAPE, s[0]] else [s[0]]) + Escaped(s[1..])
  }

  lemma {:induction false} ReplaceAppend(s: string, t: string, c: char, to: string)
    ensures Replace(s + t, c, to) == Replace(s, c, to) + Replace(t, c, to)
  {
    if s == [] {
      assert s + t == t;
    } else {
      ReplaceAppend(s[1..], t, c, to);
      assert (s + t)[1..] == s[1..] + t && (s + t)[0] == s[0];
      var head := if s[0] == c then to else [s[0]];
      assert head + (Replace(s[1..], c, to) + Replace(t, c, to)) == head + Replace(s[1..], c, to) + Replace(t, c, to);
    }
  }

  lemma ReplaceOne(a: char, c: char, to: string)
    ensures Replace([a], c, to) == if a == c then to else [a]
  {
    assert [a][1..] == [];
  }

  /** The three replacements treat one character without touching what the earlier ones put in. */
  lemma EscapeOne(c: char)
    ensures EscapeToken([c]) == Escaped([c])
  {
    ReplaceOne(c, ESCAPE, [ESCAPE, ESCAPE]);
    ReplaceAppend([ESCAPE], [ESCAPE], '%', [ESCAPE, '%']);
    ReplaceOne(ESCAPE, '%', [ESCAPE, '%']);
    ReplaceOne(c, '%', [ESCAPE, '%']);
    ReplaceAppend([ESCAPE], [ESCAPE], '_', [ESCAPE, '_']);
    ReplaceAppend([ESCAPE], ['%'], '_', [ESCAPE, '_']);
    ReplaceOne(ESCAPE, '_', [ESCAPE, '_']);
    ReplaceOne('%', '_', [ESCAPE, '_']);
    ReplaceOne(c, '_', [ESCAPE, '_']);
    assert [ESCAPE] + [ESCAPE] == [ESCAPE, ESCAPE] && [ESCAPE] + ['%'] == [ESCAPE, '%'];
    assert [c][1..] == [];
  }

  /** Three passes over the token escape each special character once. */
  lemma {:induction false} EscapesEachSpecialOnce(token: string)
    ensures EscapeToken(token) == Escaped(token)
  {
    if token != [] {
      var c, rest := [token[0]], token[1..];
      EscapesEachSpecialOnce(rest);
      EscapeOne(token[0]);
      assert token == c + rest && c[1..] == [];
      ReplaceAppend(c, rest, ESCAPE, [ESCAPE, ESCAPE]);
      var c1, r1 := Replace(c, ESCAPE, [ESCAPE, ESCAPE]), Replace(rest, ESCAPE, [ESCAPE, ESCAPE]);
      ReplaceAppend(c1, r1, '%', [ESCAPE, '%']);
      ReplaceAppend(Replace(c1, '%', [ESCAPE, '%']), Replace(r1, '%', [ESCAPE, '%']), '_', [ESCAPE, '_']);
    }
  }

  // ---- matching ------------------------------------------------------------------------------------------

  /** An escaped string matches itself and nothing else, whatever pattern follows. */
  lemma {:induction false} EscapedIsLiteral(s: string, pattern: string, text: string)
    ensures Like(Escaped(s) + pattern, text) <==> s <= text && Like(pattern, text[|s|..])
  {
    if s == [] {
      assert Escaped(s) + pattern == pattern && text[0..] == text;
    } else {
      var p := Escaped(s) + pattern;
      var head := if Special(s[0]) then 2 else 1;
      assert p[head..] == Escaped(s[1..]) + pattern;
      if text != [] {
        EscapedIsLiteral(s[1..], pattern, text[1..]);
        assert s <= text <==> s[0] == text[0] && s[1..] <= text[1..];
        if s <= text { assert text[1..][|s| - 1..] == text[|s|..]; }
      }
    }
  }

  lemma PercentMatchesAnything(text: string)
    ensures Like("%", text)
  {
    assert text[|text|..] == [] && "%"[1..] == [];
    assert Like("%"[1..], text[|text|..]);
  }

  lemma LiteralThenPercent(s: string, text: string)
    ensures Like(Escaped(s) + "%", text) <==> s <= text
  {
    EscapedIsLiteral(s, "%", text);
    if s <= text { PercentMatchesAnything(text[|s|..]); }
  }

  lemma LiteralBetweenPercents(s: string, text: string)
    ensures Like("%" + Escaped(s) + "%", text) <==> Occurs(s, text)
  {
    var p := "%" + Escaped(s) + "%";
    assert p[1..] == Escaped(s) + "%";
    assert Like(p, text) <==> exists i :: 0 <= i <= |text| && Like(p[1..], text[i..]);
    forall i | 0 <= i <= |text| ensures Like(p[1..], text[i..]) <==> s <= text[i..] {
      LiteralThenPercent(s, text[i..]);
    }
  }

  lemma {:induction false} FoldEscaped(s: string, fold: char -> char)
    requires Folding(fold)
    ensures Fold(Escaped(s), fold) == Escaped(Fold(s, fold))
  {
    if s != [] {
      FoldEscaped(s[1..], fold);
      var e := Escaped(s);
      if Special(s[0]) {
        assert e[1..][1..] == Escaped(s[1..]);
      } else {
        assert e[1..] == Escaped(s[1..]);
      }
    }
  }

  lemma {:induction false} FoldAppend(s: string, t: string, fold: char -> char)
    ensures Fold(s + t, fold) == Fold(s, fold) + Fold(t, fold)
  {
    if s == [] {
      assert s + t == t;
    } else {
      FoldAppend(s[1..], t, fold);
      assert (s + t)[1..] == s[1..] + t && (s + t)[0] == s[0];
      assert [fold(s[0])] + (Fold(s[1..], fold) + Fold(t, fold)) == [fold(s[0])] + Fold(s[1..], fold) + Fold(t, fold);
    }
  }

  /** Whatever characters it holds, a token matches exactly the texts it occurs in, up to case. */
  lemma TokenMatchesLiterally(token: string, text: string, fold: char -> char)
    requires Folding(fold)
    ensures ILike(TokenPattern(token), text, fold) <==> Occurs(Fold(token, fold), Fold(text, fold))
  {
    EscapesEachSpecialOnce(token);
    FoldEscaped(token, fold);
    FoldAppend("%" + Escaped(token), "%", fold);
    FoldAppend("%", Escaped(token), fold);
    assert Special('%') && "%"[1..] == [];
    assert Fold("%", fold) == "%";
    LiteralBetweenPercents(Fold(token, fold), Fold(text, fold));
  }
}
