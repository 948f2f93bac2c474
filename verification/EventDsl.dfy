/** The event compiler, and what its text does when the assembly VM runs it. */
module EventDsl {
  import opened Basics
  import opened Text
  import opened EventLiterals
  import opened AssemblyText
  import opened WorkflowStore

  // ---- the program ----

  /** A value of a data field. DFloat holds the text that `str` gives for the float. */
  datatype Data = DNull | DBool(b: bool) | DInt(n: int) | DFloat(text: string) | DText(s: string)

  type Fields = seq<(string, Data)>

  datatype Statement =
    | Emit(name: string, defaults: string, data: Fields, checks: seq<string>, schema: string, worker: string)
    | On(source: string, event: string, bind: string, listenChecks: seq<string>, listenSchema: string,
         emits: seq<string>, projects: seq<string>)

  /** The default objects by name. */
  type Defaults = map<string, Fields>

  const NATIVE_DEFAULTS: Defaults := map["native_generate_defaults" :=
    [("prompt", DText("")), ("temperature", DFloat("0.2")), ("max_length", DNull), ("model", DNull)]]

  // ---- printing ----

  predicate IsRef(s: string) { StartsWith(s, "@") || StartsWith(s, "$") }

  /** `_asm_value`. */
  function AsmValue(d: Data): string {
    match d
    case DText(s) => if IsRef(s) then s else Literal(s)
    case DNull => "null"
    case DBool(b) => if b then "true" else "false"
    case DInt(n) => PrintInt(n)
    case DFloat(text) => text
  }

  function FieldLine(name: string, field: string, d: Data): string {
    "MOV  @" + name + "." + field + ", " + AsmValue(d)
  }

  function FieldLines(name: string, fields: Fields): seq<string> {
    seq(|fields|, i requires 0 <= i < |fields| => FieldLine(name, fields[i].0, fields[i].1))
  }

  function CheckLine(name: string, schema: string): string {
    "CALL @" + name + ".check, check_complete, @" + name + if schema == "" then ""
      else ", schema:" + AsmValue(DText(schema))
  }

  /** All the fields an emit stores, defaults first; None for an unknown defaults object. */
  function AllFields(e: Statement, known: Defaults): Option<Fields>
    requires e.Emit?
  {
    if Strip(e.defaults) == "" then Some(e.data)
    else if Strip(e.defaults) in known then Some(known[Strip(e.defaults)] + e.data)
    else None
  }

  /** `_compile_emit`; None where it raises. */
  function EmitLines(e: Statement, known: Defaults): Option<seq<string>>
    requires e.Emit?
  {
    var fields := AllFields(e, known);
    if fields.None? then None
    else Some(FieldLines(e.name, fields.value) + if "complete" in e.checks then [CheckLine(e.name, Strip(e.schema))]
      else [])
  }

  function Lookup(fields: Fields, key: string, otherwise: Data): Data {
    if fields == [] then otherwise else if fields[0].0 == key then fields[0].1 else Lookup(fields[1..], key, otherwise)
  }

  function GenerateLine(e: Statement, known: Defaults): string
    requires e.Emit?
  {
    var defaults := if Strip(e.defaults) in known then known[Strip(e.defaults)] else [];
    var maxLength := Lookup(e.data, "max_length", Lookup(defaults, "max_length", DInt(2048)));
    "GEN  @generate.call.raw, " + AsmValue(Lookup(e.data, "prompt", DText("@generate.request.prompt")))
    + ", worker:" + (if e.worker == "" then "generator" else e.worker)
    + ", temp:" + AsmValue(Lookup(e.data, "temperature", Lookup(defaults, "temperature", DFloat("0.2"))))
    + if maxLength == DNull then "" else ", max:" + AsmValue(maxLength)
  }

  function Unquoted(s: string): string { ReplaceChar(s, '"', "") }

  function EmitCall(name: string): string {
    if name == "response.output_message" then "CALL @response.output_message, emit_output_message, @generate.response"
    else "CALL @" + Unquoted(name) + ", emit_object, @" + Unquoted(name)
  }

  function ProjectCall(name: string): string {
    if name == "response.table" then "CALL @response.table, build_table_from_text, @generate.response.raw_text"
    else "CALL @" + Unquoted(name) + ", build_projection, @" + Unquoted(name)
  }

  /** `_compile_on_response`. */
  function ResponseLines(on: Statement): seq<string>
    requires on.On?
  {
    var bind := Strip(on.bind);
    (if bind == "" then [] else ["CALL @" + bind + ", bind_native_generate_response, @generate.call.raw"])
    + (if bind != "" && "complete" in on.listenChecks then [CheckLine(bind, Strip(on.listenSchema))] else [])
    + seq(|on.emits|, i requires 0 <= i < |on.emits| => EmitCall(on.emits[i]))
    + seq(|on.projects|, i requires 0 <= i < |on.projects| => ProjectCall(on.projects[i]))
  }

  const GENERATE: string := "generate.request"

  /** The lines of the listeners to the generated response, in program order. */
  function ListenerLines(program: seq<Statement>): seq<string> {
    if program == [] then []
    else
      var s := program[0];
      (if s.On? && s.source == GENERATE && s.event == "response" then ResponseLines(s) else [])
        + ListenerLines(program[1..])
  }

  function StatementLines(s: Statement, whole: seq<Statement>, known: Defaults): Option<seq<string>> {
    if s.On? then Some([])
    else
      var lines := EmitLines(s, known);
      if lines.None? then None
      else if s.name == GENERATE then Some(lines.value + [GenerateLine(s, known)] + ListenerLines(whole))
      else lines
  }

  function CompileLines(program: seq<Statement>, whole: seq<Statement>, known: Defaults): Option<seq<string>>
    decreases |program|
  {
    if program == [] then Some([])
    else
      var first := StatementLines(program[0], whole, known);
      var rest := CompileLines(program[1..], whole, known);
      if first.None? || rest.None? then None else Some(first.value + rest.value)
  }

  function NotBlank(lines: seq<string>): seq<string> {
    if lines == [] then [] else (if Strip(lines[0]) == "" then [] else [lines[0]]) + NotBlank(lines[1..])
  }

  /** `compile_event_dsl` after parsing; None where it raises. */
  function Compile(program: seq<Statement>, known: Defaults): Option<string> {
    var lines := CompileLines(program, program, known);
    if lines.None? then None else Some(Join("\n", NotBlank(lines.value)))
  }

  // ---- compiling, step by step ----

  method CompileEmit(e: Statement, known: Defaults) returns (lines: Option<seq<string>>)
    requires e.Emit?
    ensures lines == EmitLines(e, known)
  {
    hide FieldLine, CheckLine, Strip;
    var out: seq<string> := [];
    if Strip(e.defaults) != "" {
      if Strip(e.defaults) !in known {
        return None;
      }
      var defaults := known[Strip(e.defaults)];
      for i := 0 to |defaults|
        invariant out == FieldLines(e.name, defaults[..i])
      {
        out := out + [FieldLine(e.name, defaults[i].0, defaults[i].1)];
      }
      assert defaults[..|defaults|] == defaults;
    }
    ghost var before := out;
    for i := 0 to |e.data|
      invariant out == before + FieldLines(e.name, e.data[..i])
    {
      out := out + [FieldLine(e.name, e.data[i].0, e.data[i].1)];
    }
    assert e.data[..|e.data|] == e.data;
    assert AllFields(e, known).Some? && out == FieldLines(e.name, AllFields(e, known).value);
    assert out + [] == out;
    if "complete" in e.checks {
      out := out + [CheckLine(e.name, Strip(e.schema))];
    }
    return Some(out);
  }

  method CompileEventDsl(program: seq<Statement>, known: Defaults) returns (text: Option<string>)
    ensures text == Compile(program, known)
  {
    hide EmitLines, GenerateLine, ListenerLines;
    var lines: seq<string> := [];
    assert program[0..] == program;
    FollowsNothing(CompileLines(program, program, known));
    for i := 0 to |program|
      invariant Follows(lines, CompileLines(program[i..], program, known)) == CompileLines(program, program, known)
    {
      assert program[i..][1..] == program[i + 1..];
      if program[i].Emit? {
        var compiled := CompileEmit(program[i], known);
        if compiled.None? {
          return None;
        }
        ghost var before := lines;
        lines := lines + compiled.value;
        if program[i].name == GENERATE {
          lines := lines + [GenerateLine(program[i], known)] + ListenerLines(program);
        }
        assert lines == before + StatementLines(program[i], program, known).value;
      } else {
        assert lines + [] == lines;
      }
      FollowsTwice(program[i..], program, known);
    }
    assert lines + [] == lines;
    return Some(Join("\n", NotBlank(lines)));
  }

  function Follows(lines: seq<string>, rest: Option<seq<string>>): Option<seq<string>> {
    if rest.None? then None else Some(lines + rest.value)
  }

  lemma FollowsNothing(rest: Option<seq<string>>)
    ensures Follows([], rest) == rest
  {
    if rest.Some? { assert [] + rest.value == rest.value; }
  }

  lemma FollowsTwice(program: seq<Statement>, whole: seq<Statement>, known: Defaults)
    requires program != []
    ensures forall lines :: StatementLines(program[0], whole, known).Some? ==>
              Follows(lines, CompileLines(program, whole, known)) ==
              Follows(lines + StatementLines(program[0], whole, known).value, CompileLines(program[1..], whole, known))
  {
    var first, rest := StatementLines(program[0], whole, known), CompileLines(program[1..], whole, known);
    if first.Some? && rest.Some? {
      forall lines: seq<string> ensures lines + (first.value + rest.value) == (lines + first.value) + rest.value {
      }
    }
  }
}
