/** From event text to the store: what the compiler takes from a parsed statement, and the whole way in one theorem. */
module EventTexts {
  import opened Basics
  import opened Text
  import opened EventParsers
  import opened EventCorrectness
  import opened WorkflowStore
  import opened AssemblyText
  import AssemblyVm
  import EventGrammar
  import D = EventDsl

  /** `str` of the values whose text this model does not know: floats, lists and objects. */
  type Show = Json -> string

  /** `str(v)`. */
  function Str(show: Show, v: Json): string {
    match v
    case JNull => "None"
    case JBool(b) => if b then "True" else "False"
    case JInt(n) => PrintInt(n)
    case JText(s) => s
    case _ => show(v)
  }

  predicate Truthy(show: Show, v: Json) {
    match v
    case JNull => false
    case JBool(b) => b
    case JInt(n) => n != 0
    case JFloat(_) => show(v) != "0.0" && show(v) != "-0.0"
    case JText(s) => s != ""
    case JArray(items) => items != []
    case JObject(fields) => fields != []
  }

  /** `spec.get(key)`. */
  function Get(spec: Fields, key: string): Json {
    if spec == [] then JNull else if spec[0].key == key then spec[0].value else Get(spec[1..], key)
  }

  /** `str(spec.get(key) or "")`. */
  function TextAt(show: Show, spec: Fields, key: string): string {
    if Truthy(show, Get(spec, key)) then Str(show, Get(spec, key)) else ""
  }

  /** `_as_str_list(spec.get(key))`. */
  function TextsAt(show: Show, spec: Fields, key: string): seq<string> {
    match Get(spec, key)
    case JArray(items) => seq(|items|, i requires 0 <= i < |items| => Str(show, items[i]))
    case JNull => []
    case v => [Str(show, v)]
  }

  function DataOf(show: Show, v: Json): D.Data {
    match v
    case JNull => D.DNull
    case JBool(b) => D.DBool(b)
    case JInt(n) => D.DInt(n)
    case JText(s) => D.DText(s)
    case _ => D.DFloat(show(v))
  }

  /** `spec.get("data") or {}`; None where it is no object, so that `_compile_emit` raises. */
  function DataAt(show: Show, spec: Fields): Option<D.Fields> {
    var data := Get(spec, "data");
    if !Truthy(show, data) then Some([])
    else if !data.JObject? then None
    else Some(seq(|data.fields|, i requires 0 <= i < |data.fields| =>
      (data.fields[i].key, DataOf(show, data.fields[i].value))))
  }

  function StatementFor(show: Show, p: Parsed): Option<D.Statement> {
    match p
    case EmitStatement(name, spec) =>
      var data := DataAt(show, spec);
      if data.None? then None
      else Some(D.Emit(name, TextAt(show, spec, "defaults"), data.value, TextsAt(show, spec, "checks"),
                       TextAt(show, spec, "schema"), TextAt(show, spec, "worker")))
    case OnStatement(source, event, spec) =>
      Some(D.On(source, event, TextAt(show, spec, "bind"), TextsAt(show, spec, "checks"), TextAt(show, spec, "schema"),
                TextsAt(show, spec, "emit"), TextsAt(show, spec, "project")))
  }

  function ProgramFor(show: Show, ps: seq<Parsed>): Option<seq<D.Statement>> {
    if ps == [] then Some([])
    else
      var first, rest := StatementFor(show, ps[0]), ProgramFor(show, ps[1..]);
      if first.None? || rest.None? then None else Some([first.value] + rest.value)
  }

  /** `compile_event_dsl`; None where it raises. */
  function CompileText(show: Show, text: string, known: D.Defaults): Option<string> {
    var parsed := Told([], text);
    if parsed.None? then None
    else
      var program := ProgramFor(show, parsed.value);
      if program.None? then None else D.Compile(program.value, known)
  }

  method CompileEventText(show: Show, text: string, known: D.Defaults) returns (r: Option<string>)
    ensures r == CompileText(show, text, known)
  {
    var parsed := ParseEventDsl(text);
    if parsed.None? {
      return None;
    }
    var program := ProgramFor(show, parsed.value);
    if program.None? {
      return None;
    }
    r := D.CompileEventDsl(program.value, known);
  }

  /** A text compiles exactly when the grammar has it, as a tree whose statements compile, and to their code. */
  lemma CompilesWhatIsWritten(show: Show, text: string, known: D.Defaults, code: string)
    ensures CompileText(show, text, known) == Some(code) <==>
            exists t :: EventGrammar.OkScript(t) && text == EventGrammar.ShowScript(t) &&
                        var program := ProgramFor(show, StatementsOf(t));
                        program.Some? && D.Compile(program.value, known) == Some(code)
  {
    hide ProgramFor, StatementsOf, EventGrammar.ReadScript, EventGrammar.ShowScript, EventGrammar.OkScript, D.Compile;
    var read := EventGrammar.ReadScript(text);
    if read.Some? {
      EventGrammar.ReadIsWritten(text, read.value);
      assert [] + StatementsOf(read.value) == StatementsOf(read.value);
    }
    forall t | EventGrammar.OkScript(t) && text == EventGrammar.ShowScript(t) ensures read == Some(t) {
      EventGrammar.ReadIsWritten(text, t);
    }
  }

  /** However it is laid out, a text of plain emits compiles to text that leaves the store which the emits mean. */
  lemma WrittenProgramMeans<V>(m: AssemblyVm.Machine<Heap, V>, env: Env, show: Show, t: EventGrammar.Script,
                               known: D.Defaults, h: Heap)
    requires Moves(m, env) && EventGrammar.OkScript(t)
    requires ProgramFor(show, StatementsOf(t)).Some? && PlainProgram(ProgramFor(show, StatementsOf(t)).value, known)
    ensures var text := CompileText(show, EventGrammar.ShowScript(t), known);
            && text.Some? && ParseText(text.value).Some? && ParseText(text.value).value.fns == map[]
            && AssemblyVm.Run(m, map[], ParseText(text.value).value.insts, h).out ==
               AssemblyVm.Ok(Meaning(env, ProgramFor(show, StatementsOf(t)).value, known, h))
  {
    hide ParseText, StatementsOf, ProgramFor, PlainProgram, Moves, Meaning;
    hide AssemblyVm.Run, EventGrammar.ReadScript, EventGrammar.ShowScript, EventGrammar.OkScript, D.Compile;
    EventGrammar.ReadIsWritten(EventGrammar.ShowScript(t), t);
    assert [] + StatementsOf(t) == StatementsOf(t);
    CompiledProgramMeans(m, env, ProgramFor(show, StatementsOf(t)).value, known, h);
  }
}
