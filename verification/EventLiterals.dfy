/** String literals on their way from the event compiler (`_asm_value`) into the VM (`_asm_resolve`). */
module EventLiterals {
  import opened Basics
  import opened Text

  const BACKSLASH: char := '\\'

  /** `s.replace(c, t)` for a single character c. */
  function ReplaceChar(s: string, c: char, t: string): string {
    if s == [] then [] else (if s[0] == c then t else [s[0]]) + ReplaceChar(s[1..], c, t)
  }

  /** `s.replace("\\" + x, y)`, left to right. */
  function ReplaceEscape(s: string, x: char, y: char): string {
    if s == [] then []
    else if |s| > 1 && s[0] == BACKSLASH && s[1] == x then [y] + ReplaceEscape(s[2..], x, y)
    else [s[0]] + ReplaceEscape(s[1..], x, y)
  }

  function Escape(s: string): string {
    ReplaceChar(ReplaceChar(ReplaceChar(s, BACKSLASH, "\\\\"), '"', "\\\""), '\n', "\\n")
  }

  function Unescape(s: string): string {
    ReplaceEscape(ReplaceEscape(ReplaceEscape(ReplaceEscape(s, 'n', '\n'), 't', '\t'), '"', '"'), '\'', '\'')
  }

  // ---- escaping goes character by character ----

  function EscapeChar(c: char): string {
    if c == BACKSLASH then "\\\\" else if c == '"' then "\\\"" else if c == '\n' then "\\n" else [c]
  }

  lemma {:induction false} ReplaceCharAppend(a: string, b: string, c: char, t: string)
    ensures ReplaceChar(a + b, c, t) == ReplaceChar(a, c, t) + ReplaceChar(b, c, t)
  {
    if a == [] {
      assert a + b == b;
    } else {
      assert (a + b)[1..] == a[1..] + b;
      ReplaceCharAppend(a[1..], b, c, t);
    }
  }

  lemma EscapeStep(s: string)
    requires s != []
    ensures Escape(s) == EscapeChar(s[0]) + Escape(s[1..])
  {
    var one := ReplaceChar(s[1..], BACKSLASH, "\\\\");
    var two := ReplaceChar(one, '"', "\\\"");
    var c := s[0];
    var first := if c == BACKSLASH then "\\\\" else [c];
    var second := if c == '"' then "\\\"" else first;
    ReplaceCharAppend(first, one, '"', "\\\"");
    assert ReplaceChar(first, '"', "\\\"") == second by { Two(first, '"', "\\\""); }
    ReplaceCharAppend(second, two, '\n', "\\n");
    assert ReplaceChar(second, '\n', "\\n") == EscapeChar(c) by { Two(second, '\n', "\\n"); }
  }

  lemma Two(s: string, c: char, t: string)
    requires 1 <= |s| <= 2
    ensures |s| == 1 ==> ReplaceChar(s, c, t) == if s[0] == c then t else s
    ensures |s| == 2 && c !in s ==> ReplaceChar(s, c, t) == s
  {
    assert s[1..] == if |s| == 1 then [] else [s[1]];
    assert ReplaceChar(s[1..], c, t) == if |s| == 1 then [] else if s[1] == c then t else [s[1]];
  }

  // ---- the four replacements in sequence are one pass ----

  const ESCAPES: map<char, char> := map['n' := '\n', 't' := '\t', '"' := '"', '\'' := '\'']

  function OnePass(s: string, table: map<char, char>): string {
    if s == [] then []
    else if |s| > 1 && s[0] == BACKSLASH && s[1] in table then [table[s[1]]] + OnePass(s[2..], table)
    else [s[0]] + OnePass(s[1..], table)
  }

  lemma {:induction false} OnePassNone(s: string)
    ensures OnePass(s, map[]) == s
  {
    if s != [] { OnePassNone(s[1..]); }
  }

  /** A further replacement joins the pass, as no earlier one yields its letter or a backslash. */
  lemma {:induction false} OnePassExtend(s: string, table: map<char, char>, x: char, y: char)
    requires x !in table && x != BACKSLASH && BACKSLASH !in table
    requires forall k :: k in table ==> table[k] != x && table[k] != BACKSLASH
    ensures ReplaceEscape(OnePass(s, table), x, y) == OnePass(s, table[x := y])
  {
    if s == [] {
    } else if |s| > 1 && s[0] == BACKSLASH && s[1] in table {
      OnePassExtend(s[2..], table, x, y);
      assert ([table[s[1]]] + OnePass(s[2..], table))[1..] == OnePass(s[2..], table);
    } else {
      OnePassExtend(s[1..], table, x, y);
      var out := OnePass(s, table);
      assert out[1..] == OnePass(s[1..], table);
      if |s| > 1 && s[0] == BACKSLASH && s[1] == x {
        OnePassExtend(s[2..], table, x, y);
        assert s[1..][0] == x && s[1..][1..] == s[2..];
        assert out[1] == x && out[2..] == OnePass(s[2..], table);
      } else if |s| > 1 && s[0] == BACKSLASH {
        assert OnePass(s[1..], table)[0] != x;
      }
    }
  }

  lemma {:induction false} UnescapeIsOnePass(s: string)
    ensures Unescape(s) == OnePass(s, ESCAPES)
  {
    OnePassNone(s);
    OnePassExtend(s, map[], 'n', '\n');
    OnePassExtend(s, map['n' := '\n'], 't', '\t');
    OnePassExtend(s, map['n' := '\n', 't' := '\t'], '"', '"');
    OnePassExtend(s, map['n' := '\n', 't' := '\t', '"' := '"'], '\'', '\'');
  }

  // ---- what comes back ----

  /** The letters that the second backslash of a doubled pair takes with it, and what they become. */
  predicate Taken(c: char) { c == 'n' || c == 't' || c == '\'' }

  function TakenTo(c: char): char { if c == 'n' then '\n' else if c == 't' then '\t' else c }

  /** A backslash comes back doubled, or changes the letter after it, unless a single quote follows it. */
  function ComesBack(s: string): string {
    if s == [] then []
    else if s[0] != BACKSLASH then [s[0]] + ComesBack(s[1..])
    else if |s| > 1 && Taken(s[1]) then [BACKSLASH, TakenTo(s[1])] + ComesBack(s[2..])
    else [BACKSLASH, BACKSLASH] + ComesBack(s[1..])
  }

  lemma {:induction false} EscapeThenUnescape(s: string)
    ensures Unescape(Escape(s)) == ComesBack(s)
  {
    UnescapeIsOnePass(Escape(s));
    OnePassOfEscape(s);
  }

  lemma {:induction false} OnePassOfEscape(s: string)
    ensures OnePass(Escape(s), ESCAPES) == ComesBack(s)
  {
    if s != [] {
      hide Escape, OnePass, Taken, TakenTo, ESCAPES;
      OnePassOfEscape(s[1..]);
      if s[0] != BACKSLASH {
        HeadComesBack(s);
      } else {
        DoubledBackslash(s);
        AfterBackslash(s[1..]);
        if |s| > 1 && Taken(s[1]) {
          OnePassOfEscape(s[2..]);
          assert s[1..][1..] == s[2..];
          assert [BACKSLASH] + ([TakenTo(s[1])] + ComesBack(s[2..])) == [BACKSLASH, TakenTo(s[1])] + ComesBack(s[2..]);
        } else {
          assert [BACKSLASH] + ([BACKSLASH] + ComesBack(s[1..])) == [BACKSLASH, BACKSLASH] + ComesBack(s[1..]);
        }
      }
    }
  }

  lemma HeadComesBack(s: string)
    requires s != [] && s[0] != BACKSLASH
    ensures OnePass(Escape(s), ESCAPES) == [s[0]] + OnePass(Escape(s[1..]), ESCAPES)
  {
    EscapeStep(s);
    hide Escape;
    var rest := Escape(s[1..]);
    if s[0] in {'"', '\n'} {
      assert Escape(s)[2..] == rest;
    } else {
      assert Escape(s)[1..] == rest;
    }
  }

  lemma DoubledBackslash(s: string)
    requires s != [] && s[0] == BACKSLASH
    ensures OnePass(Escape(s), ESCAPES) == [BACKSLASH] + OnePass([BACKSLASH] + Escape(s[1..]), ESCAPES)
  {
    EscapeStep(s);
    hide Escape;
    assert Escape(s)[1..] == [BACKSLASH] + Escape(s[1..]);
  }

  /** The second backslash of a doubled pair takes the next letter with it, or stays. */
  lemma AfterBackslash(rest: string)
    ensures OnePass([BACKSLASH] + Escape(rest), ESCAPES) ==
            if rest != [] && Taken(rest[0]) then [TakenTo(rest[0])] + OnePass(Escape(rest[1..]), ESCAPES)
            else [BACKSLASH] + OnePass(Escape(rest), ESCAPES)
  {
    var t := [BACKSLASH] + Escape(rest);
    assert t[1..] == Escape(rest);
    if rest != [] {
      EscapeStep(rest);
      hide Escape;
      if Taken(rest[0]) { assert t[2..] == Escape(rest[1..]); }
    }
  }

  /** Every backslash stands directly before a single quote. */
  predicate QuoteSafe(s: string) {
    forall i :: 0 <= i < |s| && s[i] == BACKSLASH ==> i + 1 < |s| && s[i + 1] == '\''
  }

  lemma {:induction false} ComesBackLength(s: string)
    ensures |ComesBack(s)| >= |s|
  {
    if s == [] {
    } else if s[0] == BACKSLASH && |s| > 1 && Taken(s[1]) {
      ComesBackLength(s[2..]);
    } else {
      ComesBackLength(s[1..]);
    }
  }

  lemma {:induction false} ComesBackUnchanged(s: string)
    ensures ComesBack(s) == s <==> QuoteSafe(s)
  {
    if s == [] {
    } else if s[0] != BACKSLASH {
      ComesBackUnchanged(s[1..]);
      QuoteSafeTail(s);
      assert s == [s[0]] + s[1..];
    } else if |s| > 1 && Taken(s[1]) {
      ComesBackUnchanged(s[2..]);
      QuoteSafeTail(s);
      QuoteSafeTail(s[1..]);
      assert s[1..][1..] == s[2..];
      assert s == [s[0], s[1]] + s[2..];
      assert ComesBack(s)[1] == TakenTo(s[1]) && ComesBack(s)[2..] == ComesBack(s[2..]);
    } else {
      ComesBackLength(s[1..]);
    }
  }

  lemma QuoteSafeTail(s: string)
    requires s != []
    ensures QuoteSafe(s) <==> QuoteSafe(s[1..]) && (s[0] == BACKSLASH ==> |s| > 1 && s[1] == '\'')
  {
    assert forall i :: 0 <= i < |s| - 1 ==> s[1..][i] == s[i + 1];
    if QuoteSafe(s[1..]) && (s[0] == BACKSLASH ==> |s| > 1 && s[1] == '\'') {
      forall i | 0 <= i < |s| && s[i] == BACKSLASH ensures i + 1 < |s| && s[i + 1] == '\'' {
        if i > 0 { assert s[1..][i - 1] == BACKSLASH; }
      }
    }
  }

  /** A literal is read back as it was exactly when each of its backslashes stands before a single quote. */
  lemma LiteralRoundTrip(s: string)
    ensures Unescape(Escape(s)) == s <==> QuoteSafe(s)
  {
    EscapeThenUnescape(s);
    ComesBackUnchanged(s);
  }

  /** A path loses its backslashes' meaning: the two letters come back as backslash and newline. */
  lemma BackslashIsLost()
    ensures Unescape(Escape("a\\n")) == "a\\\n"
    ensures Unescape(Escape("a\\b")) == "a\\\\b"
  {
    EscapeThenUnescape("a\\n");
    EscapeThenUnescape("a\\b");
    hide Escape, Unescape;
    assert ComesBack("a\\n"[1..]) == "\\\n" by { assert "a\\n"[1..] == "\\n" && "\\n"[2..] == ""; }
    assert ComesBack("a\\b"[1..]) == "\\\\b" by { assert "a\\b"[1..] == "\\b" && "\\b"[1..] == "b" && "b"[1..] == ""; }
  }
}
