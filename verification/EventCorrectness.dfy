/** Compiled event text, read back and run, does what the emits say. */
module EventCorrectness {
  import opened Basics
  import opened Text
  import opened EventLiterals
  import opened AssemblyText
  import opened WorkflowStore
  import opened EventDsl
  import opened AssemblyVm
  import opened AssemblyBlocks
  import AssemblyCorrectness

  // ---- MOV ----

  /** The decimal texts of floats; other float notations are not looked at. */
  predicate FloatText(s: string) {
    Decimal(s) || (StartsWith(s, "-") && Decimal(s[1..]))
  }

  predicate Decimal(t: string) {
    exists i :: 0 < i < |t| - 1 && t[i] == '.' && AllDigits(t[..i]) && AllDigits(t[i + 1..])
  }

  /** `_asm_resolve`. */
  function Resolve(env: Env, h: Heap, token: string): (v: Val)
    ensures Fits(v, |h|)
  {
    var t := Strip(token);
    if |t| >= 2 && t[0] == t[|t| - 1] && IsQuote(t[0]) then Leaf(Str(Unescape(t[1..|t| - 1])))
    else if t == "true" then Leaf(Bool(true))
    else if t == "false" then Leaf(Bool(false))
    else if IsRef(t) then Get(env, h, t[1..])
    else if ParseInt(t).Some? then Leaf(Int(ParseInt(t).value))
    else if FloatText(t) then Leaf(Float(t))
    else Leaf(Str(t))
  }

  /** The register name without its sigil. */
  function NameOf(ref: string): string {
    var r := Strip(ref);
    if IsRef(r) then r[1..] else r
  }

  function Mov(env: Env, inst: Instr, h: Heap): Option<Heap> {
    if inst.args == [] then None
    else Some(SetPath(h, 0, PathOf(NameOf(inst.args[0])),
      Resolve(env, h, if |inst.args| > 1 then inst.args[1] else "")))
  }

  /** `_exec_mov` on a context. */
  method ExecMov(env: Env, ctx: WorkflowContext, inst: Instr)
    requires inst.args != []
    modifies ctx
    ensures Mov(env, inst, old(ctx.heap)) == Some(ctx.heap)
  {
    var value := Resolve(env, ctx.heap, if |inst.args| > 1 then inst.args[1] else "");
    ctx.Set(NameOf(inst.args[0]), value);
  }

  /** The machine's MOV works on the store; its other lines may do anything. */
  ghost predicate Moves<V>(m: Machine<Heap, V>, env: Env) {
    forall inst: Instr, h: Heap :: inst.opcode == "MOV" ==> m.plain(inst, h) == Mov(env, inst, h)
  }

  // ---- the direct meaning ----

  function Denotes(env: Env, h: Heap, d: Data): (v: Val)
    ensures Fits(v, |h|)
  {
    match d
    case DNull => Leaf(Null)
    case DBool(b) => Leaf(Bool(b))
    case DInt(n) => Leaf(Int(n))
    case DFloat(text) => Leaf(Float(text))
    case DText(s) => if IsRef(s) then Get(env, h, NameOf(s)) else Leaf(Str(s))
  }

  function StoreFields(env: Env, name: string, fields: Fields, h: Heap): Heap
    decreases |fields|
  {
    if fields == [] then h
    else
      var h' := SetPath(h, 0, PathOf(name + "." + fields[0].0), Denotes(env, h, fields[0].1));
      StoreFields(env, name, fields[1..], h')
  }

  /** The emits in order, each storing its defaults and then its data. */
  function Meaning(env: Env, program: seq<Statement>, known: Defaults, h: Heap): Heap
    decreases |program|
  {
    if program == [] then h
    else
      var s := program[0];
      Meaning(env, program[1..], known,
              if s.Emit? && AllFields(s, known).Some? then StoreFields(env, s.name, AllFields(s, known).value, h)
                else h)
  }

  // ---- one value ----

  predicate WellTyped(d: Data) { d.DFloat? ==> FloatText(d.text) }

  lemma RefStrip(s: string)
    requires IsRef(s)
    ensures IsRef(Strip(s)) && Strip(s)[0] == s[0]
  {
    assert LStrip(s) == s;
    RStripKeepsHead(s);
  }

  lemma {:induction false} RStripKeepsHead(s: string)
    requires s != [] && !IsSpace(s[0])
    ensures RStrip(s) != [] && RStrip(s)[0] == s[0]
  {
    if IsSpace(s[|s| - 1]) { RStripKeepsHead(s[..|s| - 1]); }
  }

  predicate NumberChar(c: char) { IsDigit(c) || c == '-' || c == '.' }

  predicate NumberLike(s: string) {
    s != [] && s[0] != '.' && IsDigit(s[|s| - 1]) && forall i :: 0 <= i < |s| ==> NumberChar(s[i])
  }

  lemma DecimalShape(t: string)
    requires Decimal(t)
    ensures NumberLike(t) && '.' in t && IsDigit(t[0])
  {
    var i :| 0 < i < |t| - 1 && t[i] == '.' && AllDigits(t[..i]) && AllDigits(t[i + 1..]);
    assert t[..i][0] == t[0] && t[i + 1..][|t| - i - 2] == t[|t| - 1];
    forall k | 0 <= k < |t| ensures NumberChar(t[k]) {
      assert k < i ==> t[k] == t[..i][k];
      assert k > i ==> t[k] == t[i + 1..][k - i - 1];
    }
  }

  lemma FloatShape(s: string)
    requires FloatText(s)
    ensures NumberLike(s) && ParseInt(s).None?
  {
    if Decimal(s) {
      DecimalShape(s);
    } else {
      DecimalShape(s[1..]);
      assert forall i :: 0 < i < |s| ==> s[i] == s[1..][i - 1];
    }
  }

  lemma IntShape(n: int)
    ensures NumberLike(PrintInt(n))
  {
  }

  lemma NumberReads(env: Env, h: Heap, s: string)
    requires NumberLike(s)
    ensures Trimmed(s) && AllPlain(s) && FlagOf(s).None?
    ensures Resolve(env, h, s) ==
            if ParseInt(s).Some? then Leaf(Int(ParseInt(s).value)) else if FloatText(s) then Leaf(Float(s))
              else Leaf(Str(s))
  {
    assert NumberChar(s[0]);
    StripTrimmed(s);
    hide ParseInt, FloatText, Unescape, Get;
    assert forall i :: 0 <= i < |s| ==> PlainChar(s[i]) by {
      assert forall i :: 0 <= i < |s| ==> NumberChar(s[i]);
    }
  }

  /** A value is read back as itself unless it is null, or text with a backslash that no single quote follows. */
  lemma ReadsBack(env: Env, h: Heap, d: Data)
    requires WellTyped(d)
    ensures Resolve(env, h, AsmValue(d)) == Denotes(env, h, d)
            <==> d != DNull && (d.DText? && !IsRef(d.s) ==> QuoteSafe(d.s))
  {
    match d {
      case DText(s) => if IsRef(s) { RefReads(env, h, s); } else { LiteralReads(env, h, s); }
      case DInt(n) =>
        IntShape(n);
        ParsePrintInt(n);
        NumberReads(env, h, AsmValue(d));
      case DFloat(text) =>
        FloatShape(text);
        NumberReads(env, h, text);
      case _ => StripTrimmed(AsmValue(d));
    }
  }

  lemma RefReads(env: Env, h: Heap, s: string)
    requires IsRef(s)
    ensures Resolve(env, h, s) == Get(env, h, NameOf(s))
  {
    RefStrip(s);
    hide Get;
  }

  lemma LiteralReads(env: Env, h: Heap, s: string)
    ensures Resolve(env, h, Literal(s)) == Leaf(Str(Unescape(Escape(s))))
    ensures Unescape(Escape(s)) == s <==> QuoteSafe(s)
  {
    LiteralTrimmed(s);
    StripTrimmed(Literal(s));
    LiteralRoundTrip(s);
    assert Literal(s)[1..|Literal(s)| - 1] == Escape(s);
    hide Escape, Unescape, QuoteSafe, Get;
  }

  // ---- one line ----

  predicate NameOk(s: string) { s != [] && AllPlain(s) }

  /** Not null, and text that the text format can carry: see ReadsBack, CommentKept and SplitJoinedLines. */
  predicate Carried(d: Data) {
    && d != DNull && WellTyped(d)
    && (d.DText? ==>
          if IsRef(d.s) then AllPlain(d.s)
          else QuoteSafe(d.s) && CommentSafe(d.s) && forall i :: 0 <= i < |d.s| && IsBreak(d.s[i]) ==> d.s[i] == '\n')
  }

  predicate FieldsCarried(fields: Fields) {
    forall i :: 0 <= i < |fields| ==> NameOk(fields[i].0) && Carried(fields[i].1)
  }

  /** What the tokeniser needs of a value's text. */
  ghost predicate Token(tok: string) {
    Passes(tok) && Trimmed(tok) && FlagOf(tok).None? && forall i :: 0 <= i < |tok| ==> !IsBreak(tok[i])
  }

  lemma PlainToken(tok: string)
    requires NameOk(tok) && (!NameStart(tok[0]) || ':' !in tok)
    ensures Token(tok)
  {
    PlainPasses(tok);
    assert PlainChar(tok[0]) && PlainChar(tok[|tok| - 1]);
  }

  lemma {:induction false} EscapeBreaks(s: string)
    requires forall i :: 0 <= i < |s| && IsBreak(s[i]) ==> s[i] == '\n'
    ensures forall i :: 0 <= i < |Escape(s)| ==> !IsBreak(Escape(s)[i])
  {
    if s != [] {
      EscapeStep(s);
      EscapeBreaks(s[1..]);
      hide Escape;
    }
  }

  lemma LiteralToken(s: string)
    requires forall i :: 0 <= i < |s| && IsBreak(s[i]) ==> s[i] == '\n'
    ensures Token(Literal(s))
  {
    LiteralPasses(s);
    LiteralTrimmed(s);
    EscapeBreaks(s);
    assert forall i :: 0 < i < |Literal(s)| - 1 ==> Literal(s)[i] == Escape(s)[i - 1];
  }

  lemma NumberToken(d: Data)
    requires (d.DInt? || d.DFloat?) && WellTyped(d)
    ensures Token(AsmValue(d)) && AllPlain(AsmValue(d))
  {
    var s := AsmValue(d);
    if d.DInt? { IntShape(d.n); } else { FloatShape(s); }
    assert NumberChar(s[0]);
    assert forall i :: 0 <= i < |s| ==> NumberChar(s[i]) ==> PlainChar(s[i]);
    PlainToken(s);
  }

  lemma ValueToken(d: Data)
    requires Carried(d)
    ensures Token(AsmValue(d))
  {
    match d {
      case DText(s) => if IsRef(s) { PlainToken(s); } else { LiteralToken(s); }
      case DBool(_) => PlainToken(AsmValue(d));
      case _ => NumberToken(d);
    }
  }

  lemma KeepsLine(name: string, field: string, d: Data)
    requires NameOk(name) && NameOk(field) && Carried(d)
    ensures StripComment(FieldLine(name, field, d)) == FieldLine(name, field, d)
  {
    var prefix := "MOV  @" + name + "." + field + ", ";
    assert AllPlain(name) && AllPlain(field);
    if d.DText? && !IsRef(d.s) {
      CommentKept(prefix, d.s);
    } else {
      assert AllPlain(AsmValue(d)) by { if d.DInt? || d.DFloat? { NumberToken(d); } }
      PlainScan(prefix + AsmValue(d));
    }
  }

  function Register(name: string, field: string): string { "@" + name + "." + field }

  function MovOf(name: string, field: string, d: Data): Instr {
    Instr("MOV", [Register(name, field), AsmValue(d)], map[])
  }

  lemma LineShape(name: string, field: string, d: Data)
    requires Trimmed(AsmValue(d))
    ensures var line := FieldLine(name, field, d);
            Strip(line) == line && Word(line) == "MOV" && Upper("MOV") == "MOV"
            && LStrip(line[3..]) == Register(name, field) + ", " + AsmValue(d)
  {
    hide AsmValue, Strip, LStrip, Word, Trimmed, IsSpace;
    RestShape(name, field, AsmValue(d));
    assert !IsSpace('@') by { NotSpace(); }
    Indented(Register(name, field) + ", " + AsmValue(d), AsmValue(d));
    assert Upper("MOV") == "MOV";
  }

  lemma NotSpace()
    ensures !IsSpace('@')
  {
  }

  lemma RestShape(name: string, field: string, tok: string)
    ensures var rest := Register(name, field) + ", " + tok;
            && "MOV  @" + name + "." + field + ", " + tok == "MOV" + " " + (" " + rest)
            && |tok| < |rest| && rest[|rest| - |tok|..] == tok && rest[0] == '@'
  {
  }

  lemma Indented(rest: string, tok: string)
    requires Trimmed(tok) && |tok| < |rest| && rest[|rest| - |tok|..] == tok && !IsSpace(rest[0])
    ensures var line := "MOV" + " " + (" " + rest);
            Strip(line) == line && Word(line) == "MOV" && LStrip(line[3..]) == rest
  {
    var line := "MOV" + " " + (" " + rest);
    assert rest[|rest| - 1] == rest[|rest| - |tok|..][|tok| - 1];
    assert line[|line| - 1] == rest[|rest| - 1];
    StripTrimmed(line);
    StripTrimmed(rest);
    WordUntilSpace("MOV", " " + rest);
    assert line[3..] == " " + (" " + rest) && (" " + (" " + rest))[1..] == " " + rest;
  }

  lemma {:induction false} WordUntilSpace(w: string, rest: string)
    requires forall i :: 0 <= i < |w| ==> !IsSpace(w[i])
    ensures Word(w + " " + rest) == w
  {
    var s := w + " " + rest;
    if w != [] {
      assert s[1..] == w[1..] + " " + rest;
      WordUntilSpace(w[1..], rest);
    }
  }

  /** The line of a field is one MOV with the register and the value. */
  lemma LineIsMov(name: string, field: string, d: Data)
    requires NameOk(name) && NameOk(field) && Carried(d)
    ensures Tokenise(FieldLine(name, field, d)) == Some(MovOf(name, field, d))
  {
    ValueToken(d);
    KeepsLine(name, field, d);
    LineShape(name, field, d);
    var toks := [Register(name, field), AsmValue(d)];
    PlainToken(toks[0]);
    hide FieldLine, AsmValue, StripComment, Strip, LStrip, Word, Upper, Carried;
    assert Join(", ", toks) == toks[0] + ", " + toks[1] by { assert toks[1..] == [toks[1]]; }
    assert forall t :: t in toks ==> Passes(t) && Trimmed(t);
    SplitJoined([], "", toks);
    assert [] + toks == toks;
    NoFlags(toks[0], toks[1]);
  }

  lemma NoFlags(a: string, b: string)
    requires FlagOf(a).None? && FlagOf(b).None?
    ensures ArgsOf([a, b]) == [a, b] && FlagsOf([a, b], map[]) == map[]
  {
    hide FlagOf;
    assert [a, b][1..] == [b] && [b][1..] == [];
    assert ArgsOf([b]) == [b] && FlagsOf([b], map[]) == map[];
  }

  lemma LineIsOneLine(name: string, field: string, d: Data)
    requires NameOk(name) && NameOk(field) && Carried(d)
    ensures OneLine(FieldLine(name, field, d))
  {
    ValueToken(d);
    hide AsmValue;
    assert AllPlain(name) && AllPlain(field);
  }

  // ---- the whole text ----

  function Movs(name: string, fields: Fields): seq<Instr> {
    seq(|fields|, i requires 0 <= i < |fields| => MovOf(name, fields[i].0, fields[i].1))
  }

  function ProgramMovs(program: seq<Statement>, known: Defaults): seq<Instr> {
    if program == [] then []
    else
      var s := program[0];
      (if s.Emit? && AllFields(s, known).Some? then Movs(s.name, AllFields(s, known).value) else [])
        + ProgramMovs(program[1..], known)
  }

  /** Emits of data alone, with names and values the text can carry. Listeners have no effect then. */
  predicate PlainProgram(program: seq<Statement>, known: Defaults) {
    forall i :: 0 <= i < |program| && program[i].Emit? ==> PlainEmit(program[i], known)
  }

  predicate PlainEmit(e: Statement, known: Defaults)
    requires e.Emit?
  {
    && e.name != GENERATE && "complete" !in e.checks && NameOk(e.name)
    && AllFields(e, known).Some? && FieldsCarried(AllFields(e, known).value)
  }

  /** Each line is what ParseLines makes one MOV of. */
  ghost predicate LinesAre(lines: seq<string>, insts: seq<Instr>) {
    |lines| == |insts| &&
    forall i :: 0 <= i < |lines| ==>
      && OneLine(lines[i]) && StartsWith(lines[i], "MOV ") && Strip(lines[i]) == lines[i]
      && Tokenise(lines[i]) == Some(insts[i])
  }

  lemma FieldLinesAre(name: string, fields: Fields)
    requires NameOk(name) && FieldsCarried(fields)
    ensures LinesAre(FieldLines(name, fields), Movs(name, fields))
  {
    forall i | 0 <= i < |fields|
      ensures var l := FieldLines(name, fields)[i];
              OneLine(l) && StartsWith(l, "MOV ") && Strip(l) == l && Tokenise(l) == Some(Movs(name, fields)[i])
    {
      assert NameOk(fields[i].0) && Carried(fields[i].1);
      LineOk(name, fields[i].0, fields[i].1);
    }
  }

  lemma LineOk(name: string, field: string, d: Data)
    requires NameOk(name) && NameOk(field) && Carried(d)
    ensures var l := FieldLine(name, field, d);
            OneLine(l) && StartsWith(l, "MOV ") && Strip(l) == l && Tokenise(l) == Some(MovOf(name, field, d))
  {
    LineIsOneLine(name, field, d);
    LineIsMov(name, field, d);
    ValueToken(d);
    LineShape(name, field, d);
  }

  lemma LinesAreAppend(a: seq<string>, x: seq<Instr>, b: seq<string>, y: seq<Instr>)
    requires LinesAre(a, x) && LinesAre(b, y)
    ensures LinesAre(a + b, x + y)
  {
    hide OneLine, StartsWith, Strip, Tokenise;
  }

  lemma {:induction false} CompiledLinesAre(program: seq<Statement>, whole: seq<Statement>, known: Defaults)
    requires PlainProgram(program, known)
    ensures CompileLines(program, whole, known).Some?
    ensures LinesAre(CompileLines(program, whole, known).value, ProgramMovs(program, known))
    decreases |program|
  {
    hide FieldsCarried, GenerateLine, ListenerLines, FieldLine, NameOk;
    if program != [] {
      var s := program[0];
      assert forall i :: 0 <= i < |program| - 1 ==> program[1..][i] == program[i + 1];
      CompiledLinesAre(program[1..], whole, known);
      if s.Emit? {
        assert PlainEmit(s, known);
        FieldLinesAre(s.name, AllFields(s, known).value);
        hide LinesAre;
        var lines := FieldLines(s.name, AllFields(s, known).value);
        assert lines + [] == lines;
        LinesAreAppend(lines, Movs(s.name, AllFields(s, known).value),
                       CompileLines(program[1..], whole, known).value, ProgramMovs(program[1..], known));
      } else {
        hide LinesAre;
        assert [] + CompileLines(program[1..], whole, known).value == CompileLines(program[1..], whole, known).value;
        assert [] + ProgramMovs(program[1..], known) == ProgramMovs(program[1..], known);
      }
    }
  }

  lemma {:induction false} ParsedLines(lines: seq<string>, insts: seq<Instr>)
    requires LinesAre(lines, insts)
    ensures ParseLines(lines) == Some(Program(insts, map[])) && NotBlank(lines) == lines
  {
    if lines != [] {
      hide LinesAre, ParseHeader, ParseFn, BodyLines;
      LinesParts(lines, insts);
      ParsedLines(lines[1..], insts[1..]);
      assert [insts[0]] + insts[1..] == insts;
      assert [lines[0]] + lines[1..] == lines;
    }
  }

  lemma LinesParts(lines: seq<string>, insts: seq<Instr>)
    requires LinesAre(lines, insts) && lines != []
    ensures insts != [] && LinesAre(lines[1..], insts[1..])
    ensures Strip(lines[0]) == lines[0] && lines[0] != "" && !OpensFn(lines[0]) && LineInstrs(lines[0]) == [insts[0]]
  {
    hide Tokenise, Strip;
    MovLine(lines[0]);
  }

  lemma MovLine(line: string)
    requires StartsWith(line, "MOV ")
    ensures line != "" && !IsComment(line) && !IsLabel(line) && !StartsWith(line, "fn ")
  {
    assert line[0] == 'M';
  }

  // ---- running ----

  predicate AllMov(insts: seq<Instr>) { forall i :: 0 <= i < |insts| ==> insts[i].opcode == "MOV" }

  lemma {:induction false} ExecAppend<V>(m: Machine<Heap, V>, a: seq<Instr>, b: seq<Instr>, h: Heap)
    requires AllMov(a)
    ensures var r := Exec(m, map[], Block(a), h);
            Exec(m, map[], Block(a + b), h) == if r.Ok? then Exec(m, map[], Block(b), r.ctx) else r
    decreases |a|
  {
    if a == [] {
      assert a + b == b;
    } else {
      assert (a + b)[1..] == a[1..] + b;
      assert Block(a + b)[1..] == Block(a[1..] + b) && Block(a)[1..] == Block(a[1..]);
      var first := ExecStmt(m, map[], Stmt.Plain(a[0]), h);
      if first.Ok? { ExecAppend(m, a[1..], b, first.ctx); }
    }
  }

  lemma RegisterPath(name: string, field: string)
    requires NameOk(name) && NameOk(field)
    ensures NameOf(Register(name, field)) == name + "." + field
  {
    assert Trimmed(Register(name, field)) by { assert PlainChar(field[|field| - 1]); }
    StripTrimmed(Register(name, field));
    assert Register(name, field)[1..] == name + "." + field;
  }

  lemma MovStores<V>(m: Machine<Heap, V>, env: Env, name: string, field: string, d: Data, h: Heap)
    requires Moves(m, env) && NameOk(name) && NameOk(field) && Carried(d)
    ensures ExecStmt(m, map[], Stmt.Plain(MovOf(name, field, d)), h) ==
            Ok(SetPath(h, 0, PathOf(name + "." + field), Denotes(env, h, d)))
  {
    var inst := MovOf(name, field, d);
    RegisterPath(name, field);
    ReadsBack(env, h, d);
    assert m.plain(inst, h) == Mov(env, inst, h);
  }

  lemma {:induction false} MovsStore<V>(m: Machine<Heap, V>, env: Env, name: string, fields: Fields, h: Heap)
    requires Moves(m, env) && NameOk(name) && FieldsCarried(fields)
    ensures Exec(m, map[], Block(Movs(name, fields)), h) == Ok(StoreFields(env, name, fields, h))
    decreases |fields|
  {
    if fields != [] {
      assert NameOk(fields[0].0) && Carried(fields[0].1) && FieldsCarried(fields[1..]);
      hide MovOf, Denotes, SetPath, Carried, NameOk;
      MovStores(m, env, name, fields[0].0, fields[0].1, h);
      assert Movs(name, fields)[1..] == Movs(name, fields[1..]);
      assert Block(Movs(name, fields))[1..] == Block(Movs(name, fields[1..]));
      MovsStore(m, env, name, fields[1..],
        SetPath(h, 0, PathOf(name + "." + fields[0].0), Denotes(env, h, fields[0].1)));
    }
  }

  lemma {:induction false} ProgramMovsStore<V>(
      m: Machine<Heap, V>, env: Env, program: seq<Statement>, known: Defaults, h: Heap)
    requires Moves(m, env) && PlainProgram(program, known)
    ensures AllMov(ProgramMovs(program, known))
    ensures Exec(m, map[], Block(ProgramMovs(program, known)), h) == Ok(Meaning(env, program, known, h))
    decreases |program|
  {
    if program != [] {
      var s := program[0];
      assert forall i :: 0 <= i < |program| - 1 ==> program[1..][i] == program[i + 1];
      assert PlainProgram(program[1..], known);
      if s.Emit? {
        assert PlainEmit(s, known);
        var fields := AllFields(s, known).value;
        MovsStore(m, env, s.name, fields, h);
        ProgramMovsStore(m, env, program[1..], known, StoreFields(env, s.name, fields, h));
        hide PlainProgram, PlainEmit, AllFields, Moves, StoreFields;
        ExecAppend(m, Movs(s.name, fields), ProgramMovs(program[1..], known), h);
      } else {
        ProgramMovsStore(m, env, program[1..], known, h);
        assert [] + ProgramMovs(program[1..], known) == ProgramMovs(program[1..], known);
      }
    }
  }

  /** The compiled text of a plain program, read and run by the VM from any store, leaves exactly the store that the
   *  emits mean. */
  lemma CompiledProgramMeans<V>(m: Machine<Heap, V>, env: Env, program: seq<Statement>, known: Defaults, h: Heap)
    requires Moves(m, env) && PlainProgram(program, known)
    ensures Compile(program, known).Some?
    ensures var code := ParseText(Compile(program, known).value);
            && code.Some? && code.value.fns == map[]
            && Run(m, map[], code.value.insts, h).out == Ok(Meaning(env, program, known, h))
  {
    var insts := ProgramMovs(program, known);
    CompiledLinesAre(program, program, known);
    var lines := CompileLines(program, program, known).value;
    ParsedLines(lines, insts);
    assert forall l :: l in lines ==> OneLine(l);
    SplitJoinedLines(lines);
    assert ParseText(Compile(program, known).value) == Some(Program(ResolveLabels(insts), map[]));
    ProgramMovsStore(m, env, program, known, h);
    BlockShape(insts, map[], 0);
    AssemblyCorrectness.FlatProgramMeansBlock(m, map[], Block(insts), h);
  }

  /** The module's own defaults object holds nulls, and they come back as the text null. */
  lemma NativeDefaultsHoldNull(env: Env, h: Heap)
    ensures ("max_length", DNull) in NATIVE_DEFAULTS["native_generate_defaults"]
    ensures Resolve(env, h, AsmValue(DNull)) == Leaf(Str("null")) != Denotes(env, h, DNull)
  {
    assert NATIVE_DEFAULTS["native_generate_defaults"][2] == ("max_length", DNull);
    StripTrimmed("null");
  }
}
