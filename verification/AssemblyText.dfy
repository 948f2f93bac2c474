/** From text to instructions: line splitting, the comment stripper, the argument splitter and the tokeniser. */
module AssemblyText {
  import opened Basics
  import opened Text
  import opened AssemblyVm
  import opened EventLiterals
  import AssemblyBlocks

  // ---- the argument splitter ----

  /** The loop variables of `_split_asm_args`. */
  datatype Scan = Scan(args: seq<string>, current: string, depth: nat, quote: Option<char>, escaped: bool)

  const START: Scan := Scan([], "", 0, None, false)

  predicate IsQuote(c: char) { c == '"' || c == '\'' }

  predicate Opens(c: char) { c == '(' || c == '[' || c == '{' }

  predicate Closes(c: char) { c == ')' || c == ']' || c == '}' }

  function Push(args: seq<string>, current: string): seq<string> {
    if Strip(current) == "" then args else args + [Strip(current)]
  }

  /** One character. */
  function Feed(s: Scan, ch: char): Scan {
    var on := s.(current := s.current + [ch]);
    if s.escaped then on.(escaped := false)
    else if ch == BACKSLASH && s.quote.Some? then on.(escaped := true)
    else if s.quote.Some? then (if ch == s.quote.value then on.(quote := None) else on)
    else if IsQuote(ch) then on.(quote := Some(ch))
    else if Opens(ch) then on.(depth := s.depth + 1)
    else if Closes(ch) then on.(depth := if s.depth == 0 then 0 else s.depth - 1)
    else if ch == ',' && s.depth == 0 then s.(args := Push(s.args, s.current), current := "")
    else on
  }

  function FeedAll(s: Scan, text: string): Scan
    decreases |text|
  {
    if text == [] then s else FeedAll(Feed(s, text[0]), text[1..])
  }

  function SplitArgs(text: string): seq<string> {
    var s := FeedAll(START, text);
    Push(s.args, s.current)
  }

  /** `_split_asm_args`. */
  method SplitAsmArgs(text: string) returns (args: seq<string>)
    ensures args == SplitArgs(text)
  {
    args := [];
    var current, depth: nat, quote: Option<char>, escaped := "", 0, None, false;
    for i := 0 to |text|
      invariant FeedAll(Scan(args, current, depth, quote, escaped), text[i..]) == FeedAll(START, text)
    {
      var ch := text[i];
      assert text[i..][1..] == text[i + 1..];
      ghost var before := Scan(args, current, depth, quote, escaped);
      if escaped {
        current, escaped := current + [ch], false;
      } else if ch == BACKSLASH && quote.Some? {
        current, escaped := current + [ch], true;
      } else if quote.Some? {
        current := current + [ch];
        if ch == quote.value { quote := None; }
      } else if IsQuote(ch) {
        quote, current := Some(ch), current + [ch];
      } else if Opens(ch) {
        depth, current := depth + 1, current + [ch];
      } else if Closes(ch) {
        depth, current := if depth == 0 then 0 else depth - 1, current + [ch];
      } else if ch == ',' && depth == 0 {
        if Strip(current) != "" { args := args + [Strip(current)]; }
        current := "";
      } else {
        current := current + [ch];
      }
      assert Scan(args, current, depth, quote, escaped) == Feed(before, ch);
    }
    if Strip(current) != "" { args := args + [Strip(current)]; }
  }

  lemma {:induction false} FeedAllAppend(s: Scan, a: string, b: string)
    ensures FeedAll(s, a + b) == FeedAll(FeedAll(s, a), b)
    decreases |a|
  {
    if a == [] {
      assert a + b == b;
    } else {
      assert (a + b)[1..] == a[1..] + b;
      FeedAllAppend(Feed(s, a[0]), a[1..], b);
    }
  }

  /** Outside quotes and brackets, with `current` collected so far. */
  function Clean(args: seq<string>, current: string): Scan { Scan(args, current, 0, None, false) }

  /** A token the splitter takes in whole. */
  ghost predicate Passes(tok: string) {
    forall args, current :: FeedAll(Clean(args, current), tok) == Clean(args, current + tok)
  }

  predicate PlainChar(c: char) {
    !IsQuote(c) && !Opens(c) && !Closes(c) && c != ',' && c != ';' && c != BACKSLASH && !IsSpace(c)
  }

  predicate AllPlain(s: string) { forall i :: 0 <= i < |s| ==> PlainChar(s[i]) }

  lemma {:induction false} PlainFeeds(args: seq<string>, current: string, tok: string)
    requires AllPlain(tok)
    ensures FeedAll(Clean(args, current), tok) == Clean(args, current + tok)
    decreases |tok|
  {
    if tok == [] {
      assert current + tok == current;
    } else {
      PlainFeeds(args, current + [tok[0]], tok[1..]);
      assert current + [tok[0]] + tok[1..] == current + tok;
    }
  }

  lemma PlainPasses(tok: string)
    requires AllPlain(tok)
    ensures Passes(tok)
  {
    forall args, current ensures FeedAll(Clean(args, current), tok) == Clean(args, current + tok) {
      PlainFeeds(args, current, tok);
    }
  }

  function Literal(s: string): string { "\"" + Escape(s) + "\"" }

  function Quoted(args: seq<string>, current: string): Scan { Scan(args, current, 0, Some('"'), false) }

  lemma FeedTwo(s: Scan, a: char, b: char)
    ensures FeedAll(s, [a]) == Feed(s, a) && FeedAll(s, [a, b]) == Feed(Feed(s, a), b)
  {
    assert [a][1..] == [] && [a, b][1..] == [b] && [b][1..] == [];
    assert FeedAll(Feed(s, a), [b]) == Feed(Feed(s, a), b);
  }

  lemma EscapeCharFeeds(args: seq<string>, current: string, c: char)
    ensures FeedAll(Quoted(args, current), EscapeChar(c)) == Quoted(args, current + EscapeChar(c))
  {
    var e := EscapeChar(c);
    FeedTwo(Quoted(args, current), e[0], if |e| == 2 then e[1] else c);
    if |e| == 2 {
      assert current + [e[0]] + [e[1]] == current + e;
    }
  }

  lemma {:induction false} EscapedFeeds(args: seq<string>, current: string, s: string)
    ensures FeedAll(Quoted(args, current), Escape(s)) == Quoted(args, current + Escape(s))
    decreases |s|
  {
    if s == [] {
      assert current + Escape(s) == current;
    } else {
      EscapeStep(s);
      hide Escape, EscapeChar, Feed;
      EscapeCharFeeds(args, current, s[0]);
      FeedAllAppend(Quoted(args, current), EscapeChar(s[0]), Escape(s[1..]));
      EscapedFeeds(args, current + EscapeChar(s[0]), s[1..]);
      assert current + EscapeChar(s[0]) + Escape(s[1..]) == current + Escape(s);
    }
  }

  lemma QuoteFeeds(args: seq<string>, current: string)
    ensures FeedAll(Clean(args, current), "\"") == Quoted(args, current + "\"")
    ensures FeedAll(Quoted(args, current), "\"") == Clean(args, current + "\"")
  {
    FeedTwo(Clean(args, current), '"', '"');
    FeedTwo(Quoted(args, current), '"', '"');
  }

  lemma LiteralFeeds(args: seq<string>, current: string, s: string)
    ensures FeedAll(Clean(args, current), Literal(s)) == Clean(args, current + Literal(s))
  {
    hide FeedAll, Escape;
    var open, e := Clean(args, current), Escape(s);
    QuoteFeeds(args, current);
    EscapedFeeds(args, current + "\"", s);
    QuoteFeeds(args, current + "\"" + e);
    FeedAllAppend(open, "\"", e);
    FeedAllAppend(open, "\"" + e, "\"");
    assert current + "\"" + e + "\"" == current + Literal(s);
  }

  /** Any string, rendered as a literal, is taken in whole. */
  lemma LiteralPasses(s: string)
    ensures Passes(Literal(s))
  {
    hide FeedAll, Literal;
    forall args, current ensures FeedAll(Clean(args, current), Literal(s)) == Clean(args, current + Literal(s)) {
      LiteralFeeds(args, current, s);
    }
  }

  lemma LiteralTrimmed(s: string)
    ensures Trimmed(Literal(s))
  {
  }

  lemma PassesAndTrims(args: seq<string>, current: string, t: string)
    requires (current == "" || current == " ") && Passes(t) && Trimmed(t)
    ensures FeedAll(Clean(args, current), t) == Clean(args, current + t) && Push(args, current + t) == args + [t]
  {
    StripTrimmed(t);
    assert "" + t == t;
  }

  lemma SplitStep(args: seq<string>, current: string, t: string, rest: string)
    requires (current == "" || current == " ") && Passes(t) && Trimmed(t)
    ensures FeedAll(Clean(args, current), t + ", " + rest) == FeedAll(Clean(args + [t], " "), rest)
  {
    PassesAndTrims(args, current, t);
    hide Passes, Trimmed, Push;
    FeedAllAppend(Clean(args, current), t + ", ", rest);
    FeedAllAppend(Clean(args, current), t, ", ");
    FeedTwo(Clean(args, current + t), ',', ' ');
    assert ", " == [',', ' '] && "" + [' '] == " ";
    assert Feed(Clean(args, current + t), ',') == Clean(args + [t], "");
    assert Feed(Clean(args + [t], ""), ' ') == Clean(args + [t], " ");
  }

  /** Tokens that pass whole, joined by a comma and a space, are split back into exactly those tokens. */
  lemma {:induction false} SplitJoined(args: seq<string>, current: string, toks: seq<string>)
    requires current == "" || current == " "
    requires toks != [] && forall t :: t in toks ==> Passes(t) && Trimmed(t)
    ensures var s := FeedAll(Clean(args, current), Join(", ", toks)); Push(s.args, s.current) == args + toks
    decreases |toks|
  {
    hide Passes, Trimmed, Push, FeedAll, Feed;
    assert toks[0] in toks;
    if |toks| == 1 {
      PassesAndTrims(args, current, toks[0]);
      assert toks == [toks[0]];
    } else {
      SplitStep(args, current, toks[0], Join(", ", toks[1..]));
      SplitJoined(args + [toks[0]], " ", toks[1..]);
      assert args + [toks[0]] + toks[1..] == args + toks;
    }
  }

  /** Any list of strings: rendered, joined and split again, the literals are the same. */
  lemma SplitLiterals(strings: seq<string>)
    ensures SplitArgs(Join(", ", Literals(strings))) == Literals(strings)
  {
    if strings != [] {
      forall t | t in Literals(strings) ensures Passes(t) && Trimmed(t) {
        var i :| 0 <= i < |strings| && t == Literal(strings[i]);
        LiteralPasses(strings[i]);
        LiteralTrimmed(strings[i]);
      }
      SplitJoined([], "", Literals(strings));
    }
  }

  function Literals(strings: seq<string>): seq<string> {
    seq(|strings|, i requires 0 <= i < |strings| => Literal(strings[i]))
  }

  // ---- the comment stripper ----

  /** The quote state after one character; escapes are not looked at. */
  function Toggle(ch: char, quote: Option<char>): Option<char> {
    if IsQuote(ch) && quote.None? then Some(ch) else if quote == Some(ch) then None else quote
  }

  function QuoteAfter(text: string, quote: Option<char>): Option<char>
    decreases |text|
  {
    if text == [] then quote else QuoteAfter(text[1..], Toggle(text[0], quote))
  }

  /** Where the first semicolon outside quotes stands, or the length of the text. */
  function CommentAt(text: string, quote: Option<char>): (k: nat)
    ensures k <= |text|
    decreases |text|
  {
    if text == [] then 0
    else if text[0] == ';' && quote.None? then 0
    else 1 + CommentAt(text[1..], Toggle(text[0], quote))
  }

  predicate Exposed(text: string, quote: Option<char>) { CommentAt(text, quote) < |text| }

  function StripComment(line: string): string {
    var k := CommentAt(line, None);
    if k < |line| then RStrip(line[..k]) else line
  }

  /** The comment loop of `_tokenise_line`. */
  method StripCommentLoop(line: string) returns (kept: string)
    ensures kept == StripComment(line)
  {
    if ';' !in line {
      NoSemicolon(line, None);
    } else {
      var quote: Option<char> := None;
      for i := 0 to |line|
        invariant CommentAt(line, None) == i + CommentAt(line[i..], quote)
      {
        var ch := line[i];
        assert line[i..][1..] == line[i + 1..];
        if IsQuote(ch) && quote.None? {
          quote := Some(ch);
        } else if quote == Some(ch) {
          quote := None;
        } else if ch == ';' && quote.None? {
          return RStrip(line[..i]);
        }
      }
    }
    return line;
  }

  lemma {:induction false} NoSemicolon(text: string, quote: Option<char>)
    requires ';' !in text
    ensures !Exposed(text, quote)
    decreases |text|
  {
    if text != [] { NoSemicolon(text[1..], Toggle(text[0], quote)); }
  }

  lemma {:induction false} ExposedAppend(a: string, b: string, quote: Option<char>)
    ensures Exposed(a + b, quote) <==> Exposed(a, quote) || Exposed(b, QuoteAfter(a, quote))
    ensures QuoteAfter(a + b, quote) == QuoteAfter(b, QuoteAfter(a, quote))
    decreases |a|
  {
    if a == [] {
      assert a + b == b;
    } else {
      assert (a + b)[1..] == a[1..] + b;
      ExposedAppend(a[1..], b, Toggle(a[0], quote));
    }
  }

  lemma {:induction false} PlainScan(text: string)
    requires forall i :: 0 <= i < |text| ==> !IsQuote(text[i]) && text[i] != ';'
    ensures !Exposed(text, None) && QuoteAfter(text, None) == None
    decreases |text|
  {
    if text != [] { PlainScan(text[1..]); }
  }

  lemma OneChar(c: char, quote: Option<char>)
    ensures Exposed([c], quote) <==> c == ';' && quote.None?
    ensures QuoteAfter([c], quote) == Toggle(c, quote)
  {
    assert [c][1..] == [];
  }

  lemma EscapeCharScan(c: char, quote: Option<char>)
    ensures Exposed(EscapeChar(c), quote) <==> c == ';' && quote.None?
    ensures QuoteAfter(EscapeChar(c), quote) == Toggle(c, quote)
    requires quote.Some? ==> IsQuote(quote.value)
  {
    var e := EscapeChar(c);
    if |e| == 2 {
      assert e == [e[0]] + [e[1]];
      OneChar(e[0], quote);
      OneChar(e[1], quote);
      ExposedAppend([e[0]], [e[1]], quote);
    } else {
      OneChar(c, quote);
    }
  }

  /** To the comment stripper an escaped string looks like the string itself. */
  lemma {:induction false} EscapeScan(s: string, quote: Option<char>)
    requires quote.Some? ==> IsQuote(quote.value)
    ensures Exposed(Escape(s), quote) <==> Exposed(s, quote)
    decreases |s|
  {
    if s != [] {
      EscapeStep(s);
      hide Escape, EscapeChar;
      EscapeCharScan(s[0], quote);
      ExposedAppend(EscapeChar(s[0]), Escape(s[1..]), quote);
      EscapeScan(s[1..], Toggle(s[0], quote));
      OneChar(s[0], quote);
      ExposedAppend([s[0]], s[1..], quote);
      assert [s[0]] + s[1..] == s;
    }
  }

  /** Reading s after an opening double quote, no semicolon stands outside the quotes as the stripper counts them. */
  predicate CommentSafe(s: string) { !Exposed(s, Some('"')) }

  /** A line that ends in a literal keeps it exactly when the string is comment-safe. */
  lemma CommentKept(prefix: string, s: string)
    requires forall i :: 0 <= i < |prefix| ==> !IsQuote(prefix[i]) && prefix[i] != ';'
    ensures StripComment(prefix + Literal(s)) == prefix + Literal(s) <==> CommentSafe(s)
  {
    PlainScan(prefix);
    var line := prefix + Literal(s);
    ExposedAppend(prefix, Literal(s), None);
    assert Literal(s) == "\"" + (Escape(s) + "\"");
    ExposedAppend("\"", Escape(s) + "\"", None);
    OneChar('"', None);
    EscapeScan(s, Some('"'));
    ExposedAppend(Escape(s), "\"", Some('"'));
    OneChar('"', QuoteAfter(Escape(s), Some('"')));
    assert Exposed(line, None) <==> Exposed(s, Some('"'));
  }

  /** Without a double quote, or without a semicolon, there is nothing to lose. */
  lemma CommentSafeSimply(s: string)
    requires '"' !in s || ';' !in s
    ensures CommentSafe(s)
  {
    if ';' !in s { NoSemicolon(s, Some('"')); } else { InsideQuote(s); }
  }

  lemma {:induction false} InsideQuote(s: string)
    requires '"' !in s
    ensures !Exposed(s, Some('"'))
  {
    if s != [] { InsideQuote(s[1..]); }
  }

  // ---- one line ----

  /** The text up to the first white space. */
  function Word(s: string): (w: string)
    ensures |w| <= |s|
  {
    if s == [] || IsSpace(s[0]) then [] else [s[0]] + Word(s[1..])
  }

  function UpperChar(c: char): char { if 'a' <= c <= 'z' then (c as int - 32) as char else c }

  function Upper(s: string): string { seq(|s|, i requires 0 <= i < |s| => UpperChar(s[i])) }

  predicate NameStart(c: char) { 'a' <= c <= 'z' || 'A' <= c <= 'Z' || c == '_' }

  predicate NameChar(c: char) { NameStart(c) || IsDigit(c) }

  function NamePart(s: string): (n: string)
    ensures |n| <= |s|
  {
    if s == [] || !NameChar(s[0]) then [] else [s[0]] + NamePart(s[1..])
  }

  /** The match of `^([A-Za-z_]\w*):(.+)$`. */
  function FlagOf(tok: string): Option<(string, string)> {
    var n := NamePart(tok);
    if n != [] && NameStart(n[0]) && |n| + 1 < |tok| && tok[|n|] == ':' && '\n' !in tok[|n| + 1..]
    then Some((n, tok[|n| + 1..])) else None
  }

  function ArgsOf(toks: seq<string>): seq<string> {
    if toks == [] then [] else (if FlagOf(toks[0]).Some? then [] else [toks[0]]) + ArgsOf(toks[1..])
  }

  /** A later flag of the same name replaces an earlier one. */
  function FlagsOf(toks: seq<string>, flags: map<string, string>): map<string, string>
    decreases |toks|
  {
    if toks == [] then flags
    else FlagsOf(toks[1..], if FlagOf(toks[0]).Some? then flags[FlagOf(toks[0]).value.0 := FlagOf(toks[0]).value.1]
      else flags)
  }

  /** None for a line that holds nothing but a comment. */
  function Tokenise(raw: string): Option<Instr> {
    var line := StripComment(Strip(raw));
    if line == "" then None
    else
      var toks := SplitArgs(LStrip(line[|Word(line)|..]));
      Some(Instr(Upper(Word(line)), ArgsOf(toks), FlagsOf(toks, map[])))
  }

  /** `_tokenise_line`. */
  method TokeniseLine(raw: string) returns (inst: Option<Instr>)
    ensures inst == Tokenise(raw)
  {
    hide SplitArgs, FlagOf, Word, LStrip, Strip, StripComment;
    var line := StripCommentLoop(Strip(raw));
    if line == "" {
      return None;
    }
    var opcode := Word(line);
    var tokens := SplitAsmArgs(LStrip(line[|opcode|..]));
    var args: seq<string>, flags: map<string, string> := [], map[];
    for i := 0 to |tokens|
      invariant args + ArgsOf(tokens[i..]) == ArgsOf(tokens)
      invariant FlagsOf(tokens[i..], flags) == FlagsOf(tokens, map[])
    {
      assert tokens[i..][1..] == tokens[i + 1..];
      var m := FlagOf(tokens[i]);
      if m.Some? {
        flags := flags[m.value.0 := m.value.1];
      } else {
        assert args + ([tokens[i]] + ArgsOf(tokens[i + 1..])) == (args + [tokens[i]]) + ArgsOf(tokens[i + 1..]);
        args := args + [tokens[i]];
      }
    }
    assert args + [] == args;
    return Some(Instr(Upper(opcode), args, flags));
  }

  // ---- the program ----

  predicate IsBreak(c: char) {
    var n := c as int;
    0xA <= n <= 0xD || 0x1C <= n <= 0x1E || n == 0x85 || n == 0x2028 || n == 0x2029
  }

  /** `text.splitlines()`, with `current` the line so far. */
  function SplitLines(current: string, text: string): seq<string>
    decreases |text|
  {
    if text == [] then (if current == "" then [] else [current])
    else if IsBreak(text[0]) then
      [current] + SplitLines("", if text[0] == '\r' && |text| > 1 && text[1] == '\n' then text[2..] else text[1..])
    else SplitLines(current + [text[0]], text[1..])
  }

  predicate IsComment(stripped: string) { StartsWith(stripped, ";") || StartsWith(stripped, "#") }

  predicate IsLabel(stripped: string) { StartsWith(stripped, ":") && !StartsWith(stripped, "::") }

  // ---- function blocks ----

  datatype Fn = Fn(params: seq<string>, outputs: seq<string>, body: seq<Instr>)

  datatype Program = Program(insts: seq<Instr>, fns: map<string, Fn>)

  /** How many characters stand before the first c. */
  function Until(s: string, c: char): (n: nat)
    ensures n <= |s| && c !in s[..n] && (n < |s| ==> s[n] == c)
  {
    if s == "" || s[0] == c then 0 else 1 + Until(s[1..], c)
  }

  function Words(s: string): (n: nat)
    ensures n <= |s|
  {
    if s != "" && IsWordChar(s[0]) then 1 + Words(s[1..]) else 0
  }

  predicate IsLetter(c: char) { 'a' <= c <= 'z' || 'A' <= c <= 'Z' }

  /** The pieces between commas, stripped, without the empty ones. */
  function Pieces(s: string): seq<string>
    decreases |s|
  {
    var n := Until(s, ',');
    var piece := Strip(s[..n]);
    (if piece == "" then [] else [piece]) + if n == |s| then [] else Pieces(s[n + 1..])
  }

  /** `fn name(params) -> outputs:`, the outputs and their arrow being optional; None where it is not matched. */
  function ParseHeader(header: string): Option<(string, seq<string>, seq<string>)>
    requires OpensFn(header)
  {
    var s := LStrip(header[3..]);
    var n := Words(s);
    if n == 0 || !StartsWith(s[n..], "(") then None
    else
      var rest := ParseParams(s[n + 1..]);
      if rest.None? then None else Some((s[..n], rest.value.0, rest.value.1))
  }

  /** Behind the opening bracket. */
  function ParseParams(s: string): Option<(seq<string>, seq<string>)> {
    var k := Until(s, ')');
    if k == |s| then None
    else
      var outputs := ParseOutputs(LStrip(s[k + 1..]));
      if outputs.None? then None else Some((Pieces(s[..k]), outputs.value))
  }

  function ParseOutputs(s: string): Option<seq<string>> {
    if StartsWith(s, ":") then Some([])
    else if !StartsWith(s, "->") then None
    else
      var e := Until(s[2..], ':');
      if e == 0 || e == |s[2..]| then None else Some(Pieces(s[2..][..e]))
  }

  /** The lines of a body: empty, or indented. */
  function BodyLines(lines: seq<string>): (n: nat)
    ensures n <= |lines|
  {
    if lines != [] && (lines[0] == "" || IsSpace(lines[0][0])) then 1 + BodyLines(lines[1..]) else 0
  }

  /** The instructions of a line that opens no function block. */
  function LineInstrs(stripped: string): seq<Instr> {
    if stripped == "" || IsComment(stripped) then []
    else if IsLabel(stripped) then [Instr("LABEL", [Strip(stripped[1..])], map[])]
    else (var inst := Tokenise(stripped); if inst.Some? then [inst.value] else [])
  }

  function BodyInstrs(lines: seq<string>): seq<Instr> {
    if lines == [] then [] else LineInstrs(Strip(lines[0])) + BodyInstrs(lines[1..])
  }

  predicate OpensFn(stripped: string) {
    stripped != "" && !IsComment(stripped) && !IsLabel(stripped) && StartsWith(stripped, "fn ")
  }

  /** `_parse_fn_block` behind the header; its labels are resolved there and once more by the caller. */
  function ParseFn(head: (string, seq<string>, seq<string>), lines: seq<string>): Fn {
    Fn(head.1, head.2, ResolveLabels(ResolveLabels(BodyInstrs(lines[..BodyLines(lines)]))))
  }

  /** The instructions and functions of the lines; None where a header is malformed. */
  function ParseLines(lines: seq<string>): Option<Program>
    decreases |lines|
  {
    if lines == [] then Some(Program([], map[]))
    else
      var stripped := Strip(lines[0]);
      if OpensFn(stripped) then
        var head := ParseHeader(stripped);
        if head.None? then None
        else Behind([], map[head.value.0 := ParseFn(head.value, lines[1..])],
          ParseLines(lines[1..][BodyLines(lines[1..])..]))
      else Behind(LineInstrs(stripped), map[], ParseLines(lines[1..]))
  }

  /** A later function of a name replaces an earlier one. */
  function Behind(insts: seq<Instr>, fns: map<string, Fn>, rest: Option<Program>): Option<Program> {
    if rest.None? then None else Some(Program(insts + rest.value.insts, fns + rest.value.fns))
  }

  function ParseText(text: string): Option<Program> {
    var p := ParseLines(SplitLines("", text));
    if p.None? then None else Some(p.value.(insts := ResolveLabels(p.value.insts)))
  }

  /** `parse_program`. */
  method ParseProgram(text: string) returns (program: Option<Program>)
    ensures program == ParseText(text)
  {
    hide ParseFn, ParseHeader, LineInstrs, BodyLines, Behind, ParseLines, OpensFn, Strip, SplitLines, ResolveLabels;
    var lines := SplitLines("", text);
    var insts: seq<Instr>, fns: map<string, Fn> := [], map[];
    var i := 0;
    BehindNothing(ParseLines(lines));
    assert lines[0..] == lines;
    while i < |lines|
      invariant i <= |lines| && Behind(insts, fns, ParseLines(lines[i..])) == ParseLines(lines)
    {
      var stripped := Strip(lines[i]);
      ParseStep(lines, i);
      if OpensFn(stripped) {
        var head := ParseHeader(stripped);
        if head.None? {
          NoneBehind(insts, fns);
          return None;
        }
        var fn, consumed := ParseFnBlock(head.value, lines[i + 1..]);
        BehindFn(insts, fns, head.value.0, fn, ParseLines(lines[i + 1 + consumed..]));
        fns := fns[head.value.0 := fn];
        i := i + 1 + consumed;
      } else {
        var more := ParseLine(stripped);
        BehindLine(insts, fns, more, ParseLines(lines[i + 1..]));
        insts := insts + more;
        i := i + 1;
      }
    }
    assert lines[i..] == [];
    NoLines(insts, fns);
    var resolved := ResolveLabelsLoop(insts);
    return Some(Program(resolved, fns));
  }

  /** The reading of the lines from line i on. */
  lemma ParseStep(lines: seq<string>, i: nat)
    requires i < |lines|
    ensures var (stripped, rest) := (Strip(lines[i]), lines[i + 1..]);
            if OpensFn(stripped) then
              var head := ParseHeader(stripped);
              ParseLines(lines[i..]) ==
              if head.None? then None
              else Behind([], map[head.value.0 := ParseFn(head.value, rest)],
                ParseLines(lines[i + 1 + BodyLines(rest)..]))
            else ParseLines(lines[i..]) == Behind(LineInstrs(stripped), map[], ParseLines(rest))
  {
    hide ParseLines, LineInstrs, Behind, ParseFn, ParseHeader, BodyLines, Strip, OpensFn;
    ParseUnfolded(lines[i..]);
    assert lines[i..][1..] == lines[i + 1..];
    var n := BodyLines(lines[i + 1..]);
    assert lines[i + 1..][n..] == lines[i + 1 + n..];
  }

  lemma ParseUnfolded(lines: seq<string>)
    requires lines != []
    ensures var (stripped, rest) := (Strip(lines[0]), lines[1..]);
            if OpensFn(stripped) then
              var head := ParseHeader(stripped);
              ParseLines(lines) ==
              if head.None? then None
              else Behind([], map[head.value.0 := ParseFn(head.value, rest)], ParseLines(rest[BodyLines(rest)..]))
            else ParseLines(lines) == Behind(LineInstrs(stripped), map[], ParseLines(rest))
  {
    hide LineInstrs, Behind, ParseFn, ParseHeader, BodyLines, Strip, OpensFn;
  }

  method ParseLine(stripped: string) returns (insts: seq<Instr>)
    ensures insts == LineInstrs(stripped)
  {
    hide Tokenise;
    if stripped == "" || IsComment(stripped) {
      return [];
    }
    if IsLabel(stripped) {
      return [Instr("LABEL", [Strip(stripped[1..])], map[])];
    }
    var inst := TokeniseLine(stripped);
    return if inst.Some? then [inst.value] else [];
  }

  /** The indented lines behind a header, and how many they are. */
  method ParseFnBlock(head: (string, seq<string>, seq<string>), lines: seq<string>) returns (fn: Fn, consumed: nat)
    ensures fn == ParseFn(head, lines) && consumed == BodyLines(lines)
  {
    hide LineInstrs;
    var insts: seq<Instr> := [];
    consumed := 0;
    assert lines[0..] == lines;
    while consumed < |lines| && (lines[consumed] == "" || IsSpace(lines[consumed][0]))
      invariant consumed <= |lines| && consumed + BodyLines(lines[consumed..]) == BodyLines(lines)
      invariant insts == BodyInstrs(lines[..consumed])
    {
      assert lines[consumed..][1..] == lines[consumed + 1..];
      var more := ParseLine(Strip(lines[consumed]));
      assert lines[..consumed + 1] == lines[..consumed] + [lines[consumed]];
      BodySnoc(lines[..consumed], lines[consumed]);
      insts := insts + more;
      consumed := consumed + 1;
    }
    var once := ResolveLabelsLoop(insts);
    var twice := ResolveLabelsLoop(once);
    fn := Fn(head.1, head.2, twice);
  }

  lemma {:induction false} BodySnoc(lines: seq<string>, line: string)
    ensures BodyInstrs(lines + [line]) == BodyInstrs(lines) + LineInstrs(Strip(line))
  {
    hide LineInstrs;
    if lines == [] {
      assert [] + [line] == [line] && [line][1..] == [];
      assert BodyInstrs([line]) == LineInstrs(Strip(line)) + [];
    } else {
      assert (lines + [line])[1..] == lines[1..] + [line];
      BodySnoc(lines[1..], line);
    }
  }

  lemma BehindFn(insts: seq<Instr>, fns: map<string, Fn>, name: string, fn: Fn, rest: Option<Program>)
    ensures Behind(insts, fns, Behind([], map[name := fn], rest)) == Behind(insts, fns[name := fn], rest)
  {
    if rest.Some? {
      assert insts + ([] + rest.value.insts) == insts + rest.value.insts;
      assert fns + (map[name := fn] + rest.value.fns) == fns[name := fn] + rest.value.fns;
    }
  }

  lemma BehindLine(insts: seq<Instr>, fns: map<string, Fn>, more: seq<Instr>, rest: Option<Program>)
    ensures Behind(insts, fns, Behind(more, map[], rest)) == Behind(insts + more, fns, rest)
  {
    if rest.Some? {
      assert insts + (more + rest.value.insts) == (insts + more) + rest.value.insts;
      assert map[] + rest.value.fns == rest.value.fns;
    }
  }

  lemma BehindNothing(rest: Option<Program>)
    ensures Behind([], map[], rest) == rest
  {
    if rest.Some? { assert [] + rest.value.insts == rest.value.insts && map[] + rest.value.fns == rest.value.fns; }
  }

  lemma NoLines(insts: seq<Instr>, fns: map<string, Fn>)
    ensures Behind(insts, fns, ParseLines([])) == Some(Program(insts, fns))
  {
    assert insts + [] == insts && fns + map[] == fns;
  }

  lemma NoneBehind(insts: seq<Instr>, fns: map<string, Fn>)
    ensures Behind(insts, fns, None) == None
  {
  }

  // ---- function headers are read back ----

  predicate IsWordChar(c: char) { IsLetter(c) || IsDigit(c) || c == '_' }

  predicate IsWord(s: string) { s != "" && forall i :: 0 <= i < |s| ==> IsWordChar(s[i]) }

  /** A parameter or output: stripped, without comma, colon or closing bracket. */
  predicate IsPiece(s: string) { Trimmed(s) && ',' !in s && ':' !in s && ')' !in s }

  predicate ArePieces(ps: seq<string>) { forall p :: p in ps ==> IsPiece(p) }

  lemma {:induction false} UntilIs(a: string, c: char, k: string)
    requires c !in a
    ensures Until(a + [c] + k, c) == |a| && (a + [c] + k)[..|a|] == a && (a + [c] + k)[|a| + 1..] == k
  {
    if a != "" {
      assert (a + [c] + k)[1..] == a[1..] + [c] + k;
      UntilIs(a[1..], c, k);
    }
  }

  lemma {:induction false} UntilNone(a: string, c: char)
    requires c !in a
    ensures Until(a, c) == |a|
  {
    if a != "" { UntilNone(a[1..], c); }
  }

  lemma {:induction false} WordsIs(a: string, k: string)
    requires (forall i :: 0 <= i < |a| ==> IsWordChar(a[i])) && (k == "" || !IsWordChar(k[0]))
    ensures Words(a + k) == |a| && (a + k)[..|a|] == a && (a + k)[|a|..] == k
  {
    if a != "" {
      assert (a + k)[1..] == a[1..] + k;
      WordsIs(a[1..], k);
    } else {
      assert a + k == k;
    }
  }

  lemma PiecesOne(s: string)
    requires ',' !in s
    ensures Pieces(s) == if Strip(s) == "" then [] else [Strip(s)]
  {
    UntilNone(s, ',');
    assert s[..|s|] == s;
  }

  lemma PiecesCons(s: string, rest: string)
    requires ',' !in s
    ensures Pieces(s + [','] + rest) == (if Strip(s) == "" then [] else [Strip(s)]) + Pieces(rest)
  {
    hide Strip;
    UntilIs(s, ',', rest);
  }

  lemma PieceStrips(space: string, p: string)
    requires (space == "" || space == " ") && IsPiece(p)
    ensures Strip(space + p) == p && p != "" && ',' !in space + p
  {
    StripTrimmed(p);
    assert "" + p == p;
  }

  lemma CommaSplits(space: string, p: string, rest: string)
    ensures space + (p + ", " + rest) == (space + p) + [','] + (" " + rest)
  {
    assert ", " == [','] + " ";
  }

  lemma JoinIs(ps: seq<string>)
    requires ps != []
    ensures Join(", ", ps) == if |ps| == 1 then ps[0] else ps[0] + ", " + Join(", ", ps[1..])
  {
  }

  /** Pieces joined by commas and spaces, after a space or not. */
  lemma {:induction false} PiecesJoined(space: string, ps: seq<string>)
    requires (space == "" || space == " ") && ArePieces(ps)
    ensures Pieces(space + Join(", ", ps)) == ps
    decreases |ps|
  {
    hide Strip, Pieces, IsPiece, Join;
    if ps == [] {
      NoPieces(space);
    } else {
      assert ps[0] in ps;
      PieceStrips(space, ps[0]);
      JoinIs(ps);
      if |ps| == 1 {
        PiecesOne(space + ps[0]);
      } else {
        var rest := Join(", ", ps[1..]);
        CommaSplits(space, ps[0], rest);
        PiecesCons(space + ps[0], " " + rest);
        PiecesJoined(" ", ps[1..]);
        assert [ps[0]] + ps[1..] == ps;
      }
    }
  }

  lemma NoPieces(space: string)
    requires space == "" || space == " "
    ensures Pieces(space + Join(", ", [])) == []
  {
    assert space + Join(", ", []) == space;
    PiecesOne(space);
    if space == " " { assert " "[1..] == ""; }
  }

  lemma {:induction false} JoinHas(c: char, ps: seq<string>)
    requires c != ',' && c != ' ' && forall p :: p in ps ==> c !in p
    ensures c !in Join(", ", ps)
  {
    if |ps| > 1 { JoinHas(c, ps[1..]); }
  }

  function Header(name: string, params: seq<string>, outputs: seq<string>): string {
    "fn " + (name + ("(" + (Join(", ", params) + (")" + (" -> " + (Join(", ", outputs) + ":"))))))
  }

  lemma OutputsAreRead(outputs: seq<string>)
    requires ArePieces(outputs) && outputs != []
    ensures ParseOutputs("-> " + (Join(", ", outputs) + ":")) == Some(outputs)
  {
    var outs := " " + Join(", ", outputs);
    var s := "-> " + (Join(", ", outputs) + ":");
    assert s[2..] == outs + [':'] + "" && s[0] == '-' && s[..2] == "->";
    JoinHas(':', outputs);
    UntilIs(outs, ':', "");
    PiecesJoined(" ", outputs);
    hide Pieces, Join;
  }

  lemma ParamsAreRead(params: seq<string>, after: string, outputs: seq<string>)
    requires ArePieces(params) && StartsWith(after, "->") && ParseOutputs(after) == Some(outputs)
    ensures ParseParams(Join(", ", params) + (")" + (" " + after))) == Some((params, outputs))
  {
    var ins := Join(", ", params);
    assert ins + (")" + (" " + after)) == ins + [')'] + (" " + after);
    JoinHas(')', params);
    UntilIs(ins, ')', " " + after);
    PiecesJoined("", params);
    assert "" + ins == ins;
    LStripSpace(after);
    hide Pieces, Join, ParseOutputs, LStrip;
  }

  lemma HeaderSplits(name: string, params: seq<string>, outputs: seq<string>)
    ensures var inner := Join(", ", params) + (")" + (" " + ("-> " + (Join(", ", outputs) + ":"))));
            var header := Header(name, params, outputs);
            StartsWith(header, "fn ") && header[3..] == name + ("(" + inner)
  {
    hide Join;
    assert " -> " == " " + "-> ";
    var inner := Join(", ", params) + (")" + (" " + ("-> " + (Join(", ", outputs) + ":"))));
    assert Header(name, params, outputs) == "fn " + (name + ("(" + inner));
  }

  lemma NameIsRead(header: string, name: string, inner: string)
    requires OpensFn(header) && IsWord(name) && header[3..] == name + ("(" + inner)
    ensures ParseHeader(header) ==
            var rest := ParseParams(inner); if rest.None? then None else Some((name, rest.value.0, rest.value.1))
  {
    LStripWord(name, "(" + inner);
    WordsIs(name, "(" + inner);
    assert ("(" + inner)[1..] == inner;
    assert (name + ("(" + inner))[|name| + 1..] == inner;
    hide ParseParams, LStrip, Words, OpensFn;
  }

  /** The header of a function is read as its name, parameters and outputs. */
  lemma HeaderIsRead(name: string, params: seq<string>, outputs: seq<string>)
    requires IsWord(name) && ArePieces(params) && ArePieces(outputs) && outputs != []
    ensures OpensFn(Header(name, params, outputs))
    ensures ParseHeader(Header(name, params, outputs)) == Some((name, params, outputs))
  {
    hide Header, ParseParams, ParseOutputs, ParseHeader, Join, IsWord, OpensFn, ArePieces;
    var after := "-> " + (Join(", ", outputs) + ":");
    OutputsAreRead(outputs);
    assert after[..2] == "->";
    ParamsAreRead(params, after, outputs);
    HeaderSplits(name, params, outputs);
    HeaderOpens(Header(name, params, outputs));
    NameIsRead(Header(name, params, outputs), name, Join(", ", params) + (")" + (" " + after)));
  }

  lemma HeaderOpens(header: string)
    requires StartsWith(header, "fn ")
    ensures OpensFn(header)
  {
    assert header[0] == 'f';
  }

  lemma LStripWord(name: string, k: string)
    requires IsWord(name)
    ensures LStrip(name + k) == name + k
  {
    assert IsWordChar(name[0]) && (name + k)[0] == name[0];
  }

  lemma LStripSpace(after: string)
    requires StartsWith(after, "->")
    ensures LStrip(" " + after) == after
  {
    assert after[0] == '-' && (" " + after)[1..] == after;
  }

  /** Resolving a body twice, as the code does, is resolving it once. */
  lemma FnBodyIsResolved(head: (string, seq<string>, seq<string>), lines: seq<string>)
    ensures ParseFn(head, lines).body == ResolveLabels(BodyInstrs(lines[..BodyLines(lines)]))
  {
    AssemblyBlocks.ResolveTwice(BodyInstrs(lines[..BodyLines(lines)]));
  }

  // ---- text made of lines ----

  predicate OneLine(s: string) { s != [] && forall i :: 0 <= i < |s| ==> !IsBreak(s[i]) }

  lemma {:induction false} SplitLinesFeeds(current: string, line: string, rest: string)
    requires forall i :: 0 <= i < |line| ==> !IsBreak(line[i])
    ensures SplitLines(current, line + rest) == SplitLines(current + line, rest)
    decreases |line|
  {
    if line == [] {
      assert line + rest == rest && current + line == current;
    } else {
      assert (line + rest)[1..] == line[1..] + rest;
      SplitLinesFeeds(current + [line[0]], line[1..], rest);
      assert current + [line[0]] + line[1..] == current + line;
    }
  }

  /** Lines without line breaks, joined by newlines, are read back as they were. */
  lemma {:induction false} SplitJoinedLines(lines: seq<string>)
    requires forall l :: l in lines ==> OneLine(l)
    ensures SplitLines("", Join("\n", lines)) == lines
  {
    if lines != [] {
      assert OneLine(lines[0]);
      assert "" + lines[0] == lines[0];
      if |lines| == 1 {
        assert lines[0] + "" == lines[0];
        SplitLinesFeeds("", lines[0], "");
      } else {
        var rest := Join("\n", lines[1..]);
        assert Join("\n", lines) == lines[0] + ("\n" + rest);
        SplitLinesFeeds("", lines[0], "\n" + rest);
        assert ("\n" + rest)[1..] == rest;
        SplitJoinedLines(lines[1..]);
      }
    }
  }
}
