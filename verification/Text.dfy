/** Strings as Python sees them, as far as the translators need them. */
module Text {
  import opened Basics

  predicate StartsWith(s: string, t: string) { t <= s }

  predicate EndsWith(s: string, t: string) { |t| <= |s| && s[|s| - |t|..] == t }

  function LowerChar(c: char): char { if 'A' <= c <= 'Z' then (c as int + 32) as char else c }

  /** `s.lower()`, of the letters A to Z. */
  function Lower(s: string): string { seq(|s|, i requires 0 <= i < |s| => LowerChar(s[i])) }

  predicate IsDigit(c: char) { '0' <= c <= '9' }

  function DigitChar(d: nat): char
    requires d < 10
    ensures IsDigit(DigitChar(d)) && DigitChar(d) as int == '0' as int + d
  {
    ('0' as int + d) as char
  }

  predicate AllDigits(s: string) { forall i :: 0 <= i < |s| ==> IsDigit(s[i]) }

  /** `str(n)` for n >= 0. */
  function PrintNat(n: nat): (s: string)
    ensures s != [] && AllDigits(s)
  {
    if n < 10 then [DigitChar(n)] else PrintNat(n / 10) + [DigitChar(n % 10)]
  }

  function DigitsValue(s: string): nat
    requires AllDigits(s)
  {
    if s == [] then 0 else 10 * DigitsValue(s[..|s| - 1]) + (s[|s| - 1] as int - '0' as int)
  }

  /** `str(n)`. */
  function PrintInt(n: int): string { if n < 0 then "-" + PrintNat(-n) else PrintNat(n) }

  /** `int(s)` of plain decimal text; None where Python raises ValueError. */
  function ParseInt(s: string): Option<int> {
    if s != [] && AllDigits(s) then Some(DigitsValue(s))
    else if |s| > 1 && s[0] == '-' && AllDigits(s[1..]) then (var n: int := DigitsValue(s[1..]); Some(-n))
    else if |s| > 1 && s[0] == '+' && AllDigits(s[1..]) then Some(DigitsValue(s[1..]))
    else None
  }

  function LStripPlus(s: string): string {
    if s != [] && s[0] == '+' then LStripPlus(s[1..]) else s
  }

  lemma {:induction false} DigitsOfNat(n: nat)
    ensures DigitsValue(PrintNat(n)) == n
  {
    if n < 10 {
      assert PrintNat(n)[..0] == [];
    } else {
      DigitsOfNat(n / 10);
      assert PrintNat(n)[..|PrintNat(n)| - 1] == PrintNat(n / 10);
    }
  }

  lemma ParsePrintInt(n: int)
    ensures ParseInt(PrintInt(n)) == Some(n)
  {
    if n < 0 {
      DigitsOfNat(-n);
      var s := PrintInt(n);
      assert s[0] == '-' && s[1..] == PrintNat(-n);
      assert !IsDigit(s[0]);
    } else {
      DigitsOfNat(n);
    }
  }

  // ---- white space and joining ----

  /** `c.isspace()`. */
  predicate IsSpace(c: char) {
    var n := c as int;
    || 0x9 <= n <= 0xD || 0x1C <= n <= 0x20 || n == 0x85 || n == 0xA0 || n == 0x1680 || 0x2000 <= n <= 0x200A
    || n == 0x2028 || n == 0x2029 || n == 0x202F || n == 0x205F || n == 0x3000
  }

  function LStrip(s: string): string
    ensures |LStrip(s)| <= |s|
  {
    if s != [] && IsSpace(s[0]) then LStrip(s[1..]) else s
  }

  function RStrip(s: string): string
    ensures |RStrip(s)| <= |s|
  {
    if s != [] && IsSpace(s[|s| - 1]) then RStrip(s[..|s| - 1]) else s
  }

  /** `s.strip()`. */
  function Strip(s: string): string { RStrip(LStrip(s)) }

  /** Not empty, and no white space at either end. */
  predicate Trimmed(s: string) { s != [] && !IsSpace(s[0]) && !IsSpace(s[|s| - 1]) }

  lemma StripTrimmed(s: string)
    requires Trimmed(s)
    ensures Strip(s) == s && Strip(" " + s) == s && LStrip(" " + s) == s && LStrip(s) == s
  {
    assert (" " + s)[1..] == s;
  }

  /** `sep.join(parts)`. */
  function Join(sep: string, parts: seq<string>): string {
    if parts == [] then "" else if |parts| == 1 then parts[0] else parts[0] + sep + Join(sep, parts[1..])
  }

  predicate OccursAt(s: string, t: string, i: nat) { i + |t| <= |s| && s[i..i + |t|] == t }

  /** `t in s`. */
  predicate Contains(s: string, t: string) { exists i :: 0 <= i <= |s| && OccursAt(s, t, i) }

  lemma ContainsIn(a: string, s: string, b: string, t: string)
    requires Contains(s, t)
    ensures Contains(a + s + b, t)
  {
    var i :| 0 <= i <= |s| && OccursAt(s, t, i);
    var whole := a + s + b;
    assert whole[|a| + i..|a| + i + |t|] == t;
    assert OccursAt(whole, t, |a| + i);
  }

  lemma ContainsSelf(t: string)
    ensures Contains(t, t)
  {
    assert OccursAt(t, t, 0);
  }

  // ---- dotted paths ----

  /** `path.split(".")`, with `current` the part so far. */
  function SplitDots(current: string, s: string): (parts: seq<string>)
    ensures parts != []
    decreases |s|
  {
    if s == [] then [current]
    else if s[0] == '.' then [current] + SplitDots("", s[1..])
    else SplitDots(current + [s[0]], s[1..])
  }

  predicate NoDot(s: string) { '.' !in s }

  lemma {:induction false} SplitDotsFeeds(current: string, part: string, rest: string)
    requires NoDot(part)
    ensures SplitDots(current, part + rest) == SplitDots(current + part, rest)
    decreases |part|
  {
    if part == [] {
      assert part + rest == rest && current + part == current;
    } else {
      assert (part + rest)[1..] == part[1..] + rest;
      SplitDotsFeeds(current + [part[0]], part[1..], rest);
      assert current + [part[0]] + part[1..] == current + part;
    }
  }

  /** Dot-free parts joined by dots are split back into those parts. */
  lemma {:induction false} SplitJoinedDots(parts: seq<string>)
    requires parts != [] && forall p :: p in parts ==> NoDot(p)
    ensures SplitDots("", Join(".", parts)) == parts
  {
    var first := parts[0];
    assert "" + first == first && NoDot(first);
    if |parts| == 1 {
      assert first + "" == first;
      SplitDotsFeeds("", first, "");
    } else {
      var rest := Join(".", parts[1..]);
      assert Join(".", parts) == first + ("." + rest);
      SplitDotsFeeds("", first, "." + rest);
      assert ("." + rest)[1..] == rest;
      SplitJoinedDots(parts[1..]);
    }
  }

  lemma {:induction false} SplitHasNoDots(current: string, s: string)
    requires NoDot(current)
    ensures forall p :: p in SplitDots(current, s) ==> NoDot(p)
    decreases |s|
  {
    if s != [] { SplitHasNoDots(if s[0] == '.' then "" else current + [s[0]], s[1..]); }
  }
}
