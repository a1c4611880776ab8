/** Search text inside LIKE patterns: the three replacement passes, against a matcher for LIKE with the backslash
    as its escape character. */
module LikePattern {

  /** Every occurrence of one character replaced by a text. */
  function ReplaceAll(s: string, c: char, sub: string): string {
    if s == "" then "" else (if s[0] == c then sub else [s[0]]) + ReplaceAll(s[1..], c, sub)
  }

  /** The three passes, in the order of the code: the escape character first. */
  function Escape(s: string): string {
    ReplaceAll(ReplaceAll(ReplaceAll(s, '\\', "\\\\"), '%', "\\%"), '_', "\\_")
  }

  predicate IsMeta(c: char) {
    c == '\\' || c == '%' || c == '_'
  }

  /** One pass: a backslash before every metacharacter. */
  function EscapeChars(s: string): string {
    if s == "" then "" else (if IsMeta(s[0]) then ['\\', s[0]] else [s[0]]) + EscapeChars(s[1..])
  }

  /** A pattern the database accepts: it does not end in the middle of an escape. */
  predicate WellFormed(p: string) {
    if p == "" then true
    else if p[0] == '\\' then |p| > 1 && WellFormed(p[2..])
    else WellFormed(p[1..])
  }

  /** Whether a LIKE pattern matches a whole text. */
  predicate Matches(p: string, t: string)
    decreases |p| + |t|
  {
    if p == "" then t == ""
    else if p[0] == '%' then Matches(p[1..], t) || (t != "" && Matches(p, t[1..]))
    else if t == "" then false
    else if p[0] == '_' then Matches(p[1..], t[1..])
    else if p[0] == '\\' then |p| > 1 && p[1] == t[0] && Matches(p[2..], t[1..])
    else p[0] == t[0] && Matches(p[1..], t[1..])
  }

  // --- the passes ---

  lemma {:induction false} ReplaceAppend(a: string, b: string, c: char, sub: string)
    ensures ReplaceAll(a + b, c, sub) == ReplaceAll(a, c, sub) + ReplaceAll(b, c, sub)
  {
    if a == "" {
      assert a + b == b;
    } else {
      assert (a + b)[1..] == a[1..] + b;
      ReplaceAppend(a[1..], b, c, sub);
    }
  }

  lemma ReplaceOne(x: char, c: char, sub: string)
    ensures ReplaceAll([x], c, sub) == if x == c then sub else [x]
  {
    assert [x][1..] == "";
  }

  lemma ReplaceTwo(x: char, y: char, c: char, sub: string)
    ensures ReplaceAll([x, y], c, sub) == (if x == c then sub else [x]) + (if y == c then sub else [y])
  {
    assert [x, y] == [x] + [y];
    ReplaceAppend([x], [y], c, sub);
    ReplaceOne(x, c, sub);
    ReplaceOne(y, c, sub);
  }

  /** The three passes over one character escape it once: no later pass touches what an earlier one wrote. */
  lemma EscapeOne(x: char)
    ensures Escape([x]) == if IsMeta(x) then ['\\', x] else [x]
  {
    ReplaceOne(x, '\\', "\\\\");
    if x == '\\' {
      ReplaceTwo('\\', '\\', '%', "\\%");
      ReplaceTwo('\\', '\\', '_', "\\_");
    } else {
      ReplaceOne(x, '%', "\\%");
      if x == '%' { ReplaceTwo('\\', '%', '_', "\\_"); } else { ReplaceOne(x, '_', "\\_"); }
    }
  }

  lemma EscapeAppend(a: string, b: string)
    ensures Escape(a + b) == Escape(a) + Escape(b)
  {
    ReplaceAppend(a, b, '\\', "\\\\");
    var a1, b1 := ReplaceAll(a, '\\', "\\\\"), ReplaceAll(b, '\\', "\\\\");
    ReplaceAppend(a1, b1, '%', "\\%");
    ReplaceAppend(ReplaceAll(a1, '%', "\\%"), ReplaceAll(b1, '%', "\\%"), '_', "\\_");
  }

  /** The three ordered passes are one escape per character. */
  lemma {:induction false} EscapeIsPerChar(s: string)
    ensures Escape(s) == EscapeChars(s)
  {
    if s != "" {
      assert s == [s[0]] + s[1..];
      EscapeAppend([s[0]], s[1..]);
      EscapeOne(s[0]);
      EscapeIsPerChar(s[1..]);
    }
  }

  // --- matching ---

  /** An escaped text followed by any pattern matches the text followed by a match of the pattern. */
  lemma {:induction false} EscapedPrefix(s: string, rest: string, t: string)
    ensures Matches(EscapeChars(s) + rest, t) <==> s <= t && Matches(rest, t[|s|..])
  {
    if s == "" {
      assert EscapeChars(s) + rest == rest && t[0..] == t;
    } else {
      EscapedHead(s, rest, t);
      if t != "" {
        EscapedPrefix(s[1..], rest, t[1..]);
        PrefixByHead(s, t);
        if s <= t { assert t[1..][|s| - 1..] == t[|s|..]; }
      }
    }
  }

  /** The first character of an escaped text matches itself. */
  lemma EscapedHead(s: string, rest: string, t: string)
    requires s != ""
    ensures Matches(EscapeChars(s) + rest, t)
            <==> t != "" && t[0] == s[0] && Matches(EscapeChars(s[1..]) + rest, t[1..])
  {
    var tail := EscapeChars(s[1..]) + rest;
    if IsMeta(s[0]) {
      assert EscapeChars(s) + rest == ['\\', s[0]] + tail;
      MatchesEscaped(s[0], tail, t);
    } else {
      assert EscapeChars(s) + rest == [s[0]] + tail;
      MatchesPlain(s[0], tail, t);
    }
  }

  lemma MatchesEscaped(c: char, p: string, t: string)
    ensures Matches(['\\', c] + p, t) <==> t != "" && t[0] == c && Matches(p, t[1..])
  {
    assert (['\\', c] + p)[2..] == p;
  }

  lemma MatchesPlain(c: char, p: string, t: string)
    requires !IsMeta(c)
    ensures Matches([c] + p, t) <==> t != "" && t[0] == c && Matches(p, t[1..])
  {
    assert ([c] + p)[1..] == p;
  }

  lemma PrefixByHead(s: string, t: string)
    requires s != "" && t != ""
    ensures s <= t <==> s[0] == t[0] && s[1..] <= t[1..]
  {
    if s[0] == t[0] && s[1..] <= t[1..] {
      assert s == [s[0]] + s[1..];
      assert t == [t[0]] + t[1..];
    }
  }

  /** Exact escaping: as a pattern, an escaped text matches that text and nothing else. */
  lemma EscapedMatchesExactly(s: string, t: string)
    ensures Matches(Escape(s), t) <==> t == s
  {
    EscapeIsPerChar(s);
    EscapedPrefix(s, "", t);
    assert EscapeChars(s) + "" == EscapeChars(s);
    if s <= t && t[|s|..] == "" { assert t == s + t[|s|..]; }
  }

  predicate IsSubstring(s: string, t: string) {
    exists i :: 0 <= i <= |t| && s <= t[i..]
  }

  lemma {:induction false} PercentMatchesAll(t: string)
    ensures Matches("%", t)
  {
    assert "%"[1..] == "";
    if t != "" { PercentMatchesAll(t[1..]); }
  }

  lemma {:induction false} PercentThen(p: string, t: string)
    ensures Matches("%" + p, t) <==> exists i :: 0 <= i <= |t| && Matches(p, t[i..])
  {
    assert ("%" + p)[1..] == p && t[0..] == t;
    if t != "" {
      PercentThen(p, t[1..]);
      assert forall i :: 0 <= i < |t| ==> t[1..][i..] == t[i + 1..];
      if i :| 0 <= i <= |t| && Matches(p, t[i..]) {
        if i > 0 { assert t[1..][i - 1..] == t[i..]; }
      }
    }
  }

  /** Wrapped in percent signs, an escaped text matches exactly the texts that contain it. */
  lemma WrappedMatchesSubstrings(s: string, t: string)
    ensures Matches("%" + Escape(s) + "%", t) <==> IsSubstring(s, t)
  {
    EscapeIsPerChar(s);
    assert "%" + Escape(s) + "%" == "%" + (EscapeChars(s) + "%");
    PercentThen(EscapeChars(s) + "%", t);
    forall i | 0 <= i <= |t|
      ensures Matches(EscapeChars(s) + "%", t[i..]) <==> s <= t[i..]
    {
      EscapedPrefix(s, "%", t[i..]);
      if s <= t[i..] { PercentMatchesAll(t[i..][|s|..]); }
    }
  }

  // --- case folding ---

  function Fold(f: char -> char, s: string): string {
    if s == "" then "" else [f(s[0])] + Fold(f, s[1..])
  }

  /** ILIKE: pattern and text are folded, then matched. */
  predicate MatchesFolded(f: char -> char, p: string, t: string) {
    Matches(Fold(f, p), Fold(f, t))
  }

  /** A fold that leaves the metacharacters alone, and makes no other character one. */
  ghost predicate KeepsMeta(f: char -> char) {
    forall c :: if IsMeta(c) then f(c) == c else !IsMeta(f(c))
  }

  lemma {:induction false} FoldAppend(f: char -> char, a: string, b: string)
    ensures Fold(f, a + b) == Fold(f, a) + Fold(f, b)
  {
    if a == "" {
      assert a + b == b;
    } else {
      assert (a + b)[1..] == a[1..] + b;
      FoldAppend(f, a[1..], b);
    }
  }

  /** Folding an escaped text is escaping the folded text. */
  lemma {:induction false} FoldEscaped(f: char -> char, s: string)
    requires KeepsMeta(f)
    ensures Fold(f, EscapeChars(s)) == EscapeChars(Fold(f, s))
  {
    if s != "" {
      var head := if IsMeta(s[0]) then ['\\', s[0]] else [s[0]];
      FoldEscaped(f, s[1..]);
      FoldAppend(f, head, EscapeChars(s[1..]));
      FoldHead(f, s[0]);
    }
  }

  lemma FoldHead(f: char -> char, c: char)
    requires KeepsMeta(f)
    ensures Fold(f, if IsMeta(c) then ['\\', c] else [c]) == if IsMeta(f(c)) then ['\\', f(c)] else [f(c)]
  {
    var two := ['\\', c];
    assert IsMeta('\\') && f('\\') == '\\';
    assert [c][1..] == "" && two[1..] == [c];
    assert Fold(f, two) == ['\\'] + Fold(f, [c]);
  }

  /** The search as it runs: under ILIKE the wrapped escaped text matches exactly the texts that contain it up to
      case. */
  lemma FoldedMatchesSubstrings(f: char -> char, s: string, t: string)
    requires KeepsMeta(f)
    ensures MatchesFolded(f, "%" + Escape(s) + "%", t) <==> IsSubstring(Fold(f, s), Fold(f, t))
  {
    EscapeIsPerChar(s);
    EscapeIsPerChar(Fold(f, s));
    FoldEscaped(f, s);
    FoldAppend(f, "%" + Escape(s), "%");
    FoldAppend(f, "%", Escape(s));
    assert IsMeta('%') && "%"[1..] == "" && Fold(f, "%") == "%";
    WrappedMatchesSubstrings(Fold(f, s), Fold(f, t));
  }

  /** The database never rejects an escaped text. */
  lemma {:induction false} EscapedIsWellFormed(s: string)
    ensures WellFormed(Escape(s))
  {
    EscapeIsPerChar(s);
    if s != "" {
      EscapeIsPerChar(s[1..]);
      EscapedIsWellFormed(s[1..]);
      var p := EscapeChars(s);
      if IsMeta(s[0]) {
        assert p[2..] == EscapeChars(s[1..]);
      } else {
        assert p[1..] == EscapeChars(s[1..]);
      }
    }
  }

  /** The passes in another order, the backslash last. */
  function EscapeBackslashLast(s: string): string {
    ReplaceAll(ReplaceAll(ReplaceAll(s, '%', "\\%"), '_', "\\_"), '\\', "\\\\")
  }

  /** The order matters: escaping the backslash last escapes the escapes, and a lone percent sign then finds
      everything that starts with a backslash, and not itself. */
  lemma BackslashLastIsWrong(t: string)
    ensures Matches(EscapeBackslashLast("%"), t) <==> t != "" && t[0] == '\\'
  {
    ReplaceOne('%', '%', "\\%");
    ReplaceTwo('\\', '%', '_', "\\_");
    ReplaceTwo('\\', '%', '\\', "\\\\");
    var p := ['\\', '\\', '%'];
    assert EscapeBackslashLast("%") == p;
    assert p[2..] == "%";
    if t != "" { PercentMatchesAll(t[1..]); }
  }

  /** The helper as the code runs it: one variable, overwritten by each pass. */
  method EscapeLIKE(text: string) returns (s: string)
    ensures s == Escape(text) && WellFormed(s)
    ensures forall t :: Matches(s, t) <==> t == text
  {
    s := text;
    s := ReplaceAll(s, '\\', "\\\\");
    s := ReplaceAll(s, '%', "\\%");
    s := ReplaceAll(s, '_', "\\_");
    EscapedIsWellFormed(text);
    forall t
      ensures Matches(s, t) <==> t == text
    {
      EscapedMatchesExactly(text, t);
    }
  }
}
