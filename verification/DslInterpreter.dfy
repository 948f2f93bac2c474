/** The command interpreter of behavior elements. Lists are shared by reference, so a loop can grow the list it runs
 *  over. */
module DslInterpreter {
  import opened Basics
  import opened Text

  /** A list is known by its place in the heap. Opaque stands for any other value. */
  datatype Value = Null | Bool(b: bool) | Int(n: int) | Str(s: string) | ListAt(at: nat) | Opaque(id: nat)

  datatype Arg = Plain(v: Value) | Inc(of: Arg, step: int) | Coalesce(args: seq<Arg>)

  /** A test is named by its text, and the commands that only compute and store are named by theirs. */
  datatype Cmd =
    | Set(assigns: seq<(string, Arg)>)
    | Outcome(arg: Arg)
    | Return(arg: Arg)
    | If(test: string, thenDo: seq<Cmd>, elseDo: seq<Cmd>)
    | ForEach(items: Arg, name: string, max: int, body: seq<Cmd>)
    | Append(to: string, value: Arg)
    | Halt
    | Log(message: string)
    | Compute(what: string)

  datatype Status = Running | Done | Halted | Error

  /** Entries of commands, and of messages of `log`. */
  datatype Entry = Entry(name: string, status: Status) | Message(text: string)

  datatype Ctx = Ctx(
    globals: map<string, Value>, data: map<string, Value>, vars: map<string, Value>, updated: seq<string>,
    log: seq<Entry>, halted: bool, outcome: string, value: Value, heap: seq<seq<Value>>)

  /** Tests, templates, `str`, and the commands that only compute; None is an exception. */
  datatype Oracles = Oracles(
    test: (string, Ctx) -> Option<bool>,
    render: (string, Ctx) -> string,
    text: Value -> string,
    compute: (string, Ctx) -> Option<Ctx>)

  datatype Signal = Fine | HaltRaised | Failed

  // ---- references ----

  function Get(m: map<string, Value>, k: string): Value { if k in m then m[k] else Null }

  function Items(c: Ctx, at: nat): seq<Value> { if at < |c.heap| then c.heap[at] else [] }

  predicate Truthy(c: Ctx, v: Value) {
    match v
    case Null => false
    case Bool(b) => b
    case Int(n) => n != 0
    case Str(s) => s != ""
    case ListAt(at) => Items(c, at) != []
    case Opaque(_) => true
  }

  /** `_read_ref` of a string. */
  function ReadName(c: Ctx, s: string): Value {
    if StartsWith(s, "@@") then Get(c.globals, s[2..])
    else if StartsWith(s, "@") then Get(c.data, s[1..])
    else if StartsWith(s, "$") then Get(c.vars, s[1..])
    else Str(s)
  }

  /** `_read_ref`; None where it raises. */
  function ReadRef(c: Ctx, a: Arg): Option<Value>
    decreases a, 1
  {
    match a
    case Plain(v) => Some(if v.Str? then ReadName(c, v.s) else v)
    case Inc(of, step) =>
      var v := ReadRef(c, of);
      if v.None? then None
      else if !Truthy(c, v.value) then Some(Int(step))
      else if v.value.Int? then Some(Int(v.value.n + step))
      else if v.value.Bool? then Some(Int(1 + step))
      else None
    case Coalesce(args) => ReadFirst(c, args)
  }

  function ReadFirst(c: Ctx, args: seq<Arg>): Option<Value>
    decreases args, 0
  {
    if args == [] then Some(Str(""))
    else
      var v := ReadRef(c, args[0]);
      if v.None? || Truthy(c, v.value) then v else ReadFirst(c, args[1..])
  }

  /** `_resolve_arg`. */
  function ResolveArg(o: Oracles, c: Ctx, a: Arg): Option<Value> {
    if a.Plain? && a.v.Str? && !StartsWith(a.v.s, "$") && !StartsWith(a.v.s, "@") then
      Some(if Contains(a.v.s, "{$") then Str(o.render(a.v.s, c)) else a.v)
    else ReadRef(c, a)
  }

  /** `_write_ref`. */
  function WriteRef(c: Ctx, s: string, v: Value): Ctx {
    if StartsWith(s, "@@") then c.(globals := c.globals[s[2..] := v])
    else if StartsWith(s, "@") then c.(data := c.data[s[1..] := v], updated := c.updated + [s[1..]])
    else if StartsWith(s, "$") then c.(vars := c.vars[s[1..] := v])
    else c.(data := c.data[s := v], updated := c.updated + [s])
  }

  // ---- what is read after a write ----

  datatype Store = Globals | NodeData | Variables

  /** Where a write goes; a name without a sigil goes to the node's data. */
  function Cell(s: string): (Store, string) {
    if StartsWith(s, "@@") then (Globals, s[2..])
    else if StartsWith(s, "@") then (NodeData, s[1..])
    else if StartsWith(s, "$") then (Variables, s[1..])
    else (NodeData, s)
  }

  predicate HasSigil(s: string) { StartsWith(s, "@") || StartsWith(s, "$") }

  function Look(c: Ctx, cell: (Store, string)): Value {
    Get(if cell.0 == Globals then c.globals else if cell.0 == NodeData then c.data else c.vars, cell.1)
  }

  lemma SigilsNest(s: string)
    ensures StartsWith(s, "@@") ==> StartsWith(s, "@")
    ensures StartsWith(s, "@") ==> !StartsWith(s, "$")
  {
    assert StartsWith(s, "@@") ==> s[..2][..1] == s[..1] == "@";
    assert StartsWith(s, "@") ==> s[0] == '@';
    assert StartsWith(s, "$") ==> s[0] == '$';
  }

  lemma ReadsCell(c: Ctx, t: string)
    ensures ReadName(c, t) == if HasSigil(t) then Look(c, Cell(t)) else Str(t)
  {
    SigilsNest(t);
    hide StartsWith;
  }

  lemma WritesCell(c: Ctx, s: string, v: Value, cell: (Store, string))
    ensures Look(WriteRef(c, s, v), cell) == if cell == Cell(s) then v else Look(c, cell)
  {
    hide StartsWith;
  }

  /** A write is seen by every reference to its cell, and by no other; a name without a sigil is no reference. */
  lemma ReadAfterWrite(c: Ctx, s: string, v: Value, t: string)
    ensures ReadName(WriteRef(c, s, v), t) == if HasSigil(t) && Cell(t) == Cell(s) then v else ReadName(c, t)
    ensures ReadName(WriteRef(c, s, v), s) == v <==> HasSigil(s) || v == Str(s)
  {
    hide ReadName, WriteRef, Cell, HasSigil, Look;
    var c' := WriteRef(c, s, v);
    ReadsCell(c, t);
    ReadsCell(c', t);
    ReadsCell(c', s);
    WritesCell(c, s, v, Cell(t));
    WritesCell(c, s, v, Cell(s));
  }

  // ---- commands ----

  function CmdName(cmd: Cmd): string {
    match cmd
    case Set(_) => "set"
    case Outcome(_) => "outcome"
    case Return(_) => "return"
    case If(_, _, _) => "if"
    case ForEach(_, _, _, _) => "for_each"
    case Append(_, _) => "append"
    case Halt => "halt"
    case Log(_) => "log"
    case Compute(what) => what
  }

  function SetAll(o: Oracles, c: Ctx, assigns: seq<(string, Arg)>): (Ctx, Signal)
    decreases |assigns|
  {
    if assigns == [] then (c, Fine)
    else
      var v := ResolveArg(o, c, assigns[0].1);
      if v.None? then (c, Failed) else SetAll(o, WriteRef(c, assigns[0].0, v.value), assigns[1..])
  }

  /** The value is appended in place to the list that is there, or to a new one. */
  function AppendTo(o: Oracles, c: Ctx, to: string, value: Arg): (Ctx, Signal) {
    var v := ResolveArg(o, c, value);
    if v.None? then (c, Failed)
    else
      var current := ReadName(c, to);
      if current.ListAt? && current.at < |c.heap| then
        (WriteRef(c.(heap := c.heap[current.at := c.heap[current.at] + [v.value]]), to, current), Fine)
      else (WriteRef(c.(heap := c.heap + [[v.value]]), to, ListAt(|c.heap|)), Fine)
  }

  /** After an append the cell holds a list that ends with the value. It is the list that was there, which every
   *  other holder then sees grown; or a new list of one item, always so for a name without a sigil. No other list
   *  and no other cell changes. */
  lemma AppendGrows(o: Oracles, c: Ctx, to: string, value: Arg)
    requires AppendTo(o, c, to, value).1 == Fine
    ensures var (c', old0, v) := (AppendTo(o, c, to, value).0, ReadName(c, to), ResolveArg(o, c, value).value);
            var shared := old0.ListAt? && old0.at < |c.heap|;
            var at := if shared then old0.at else |c.heap|;
            && Items(c', at) == (if shared then Items(c, at) else []) + [v]
            && (HasSigil(to) ==> ReadName(c', to) == ListAt(at))
               && (!HasSigil(to) ==> !shared && Get(c'.data, to) == ListAt(at))
            && (forall k :: 0 <= k < |c.heap| && k != at ==> Items(c', k) == Items(c, k))
            && (forall t :: HasSigil(t) && Cell(t) != Cell(to) ==> ReadName(c', t) == ReadName(c, t))
  {
    var v := ResolveArg(o, c, value).value;
    var old0 := ReadName(c, to);
    var shared := old0.ListAt? && old0.at < |c.heap|;
    var at := if shared then old0.at else |c.heap|;
    var grown := if shared then c.(heap := c.heap[at := c.heap[at] + [v]]) else c.(heap := c.heap + [[v]]);
    assert AppendTo(o, c, to, value).0 == WriteRef(grown, to, ListAt(at));
    ReadAfterWrite(grown, to, ListAt(at), to);
    forall t | HasSigil(t) && Cell(t) != Cell(to)
      ensures ReadName(WriteRef(grown, to, ListAt(at)), t) == ReadName(c, t) {
      ReadAfterWrite(grown, to, ListAt(at), t);
    }
    assert WriteRef(grown, to, ListAt(at)).heap == grown.heap;
    assert !shared ==> Items(grown, at) == [v] && [] + [v] == [v];
    SigilsNest(to);
  }

  function VarName(name: string): string { if StartsWith(name, "$") then name[1..] else name }

  /** `_exec_cmd`. */
  function Exec(o: Oracles, cmd: Cmd, c: Ctx): (Ctx, Signal)
    decreases cmd, 2, 0
  {
    match cmd
    case Set(assigns) => SetAll(o, c, assigns)
    case Outcome(arg) =>
      var v := ResolveArg(o, c, arg);
      if v.None? then (c, Failed) else (c.(outcome := o.text(v.value)), Fine)
    case Return(arg) =>
      var v := ReadRef(c, arg);
      if v.None? then (c, Failed) else (c.(value := v.value), Fine)
    case If(test, thenDo, elseDo) =>
      (match o.test(test, c)
       case None => (c, Failed)
       case Some(true) => RunDo(o, thenDo, c)
       case Some(false) => RunDo(o, elseDo, c))
    case ForEach(items, name, max, body) =>
      var v := ResolveArg(o, c, items);
      if v.None? then (c, Failed)
      else if !v.value.ListAt? then (c, Fine)
      else Loop(o, body, VarName(name), v.value.at, 0, max, c)
    case Append(to, value) => AppendTo(o, c, to, value)
    case Halt => (c, HaltRaised)
    case Log(message) => (c.(log := c.log + [Message(o.render(message, c))]), Fine)
    case Compute(what) =>
      var r := o.compute(what, c);
      if r.None? then (c, Failed) else (r.value.(log := c.log, halted := c.halted), Fine)
  }

  /** The for_each loop from index i on: the length is looked up afresh each time. */
  function Loop(o: Oracles, body: seq<Cmd>, name: string, at: nat, i: nat, max: int, c: Ctx): (Ctx, Signal)
    decreases body, 1, if max < i then 0 else max - i
  {
    if i >= |Items(c, at)| || i >= max then (c, Fine)
    else
      var c1 := c.(vars := c.vars[name := Items(c, at)[i]]["_index" := Int(i)]);
      var (c2, s) := RunDo(o, body, c1);
      if s != Fine || c2.halted then (c2, s) else Loop(o, body, name, at, i + 1, max, c2)
  }

  function Marked(c: Ctx, k: nat, status: Status): Ctx {
    if k < |c.log| && c.log[k].Entry? then c.(log := c.log[k := c.log[k].(status := status)]) else c
  }

  /** `_run_do`: a halt is caught here and noted in the context; any other exception goes on. */
  function RunDo(o: Oracles, cmds: seq<Cmd>, c: Ctx): (Ctx, Signal)
    decreases cmds, 0, 0
  {
    if cmds == [] || c.halted then (c, Fine)
    else
      var (c', s) := RunOne(o, cmds[0], c);
      if s != Fine then (c', s) else RunDo(o, cmds[1..], c')
  }

  function RunOne(o: Oracles, cmd: Cmd, c: Ctx): (Ctx, Signal)
    decreases cmd, 3, 0
  {
    var k := |c.log|;
    var (c', s) := Exec(o, cmd, c.(log := c.log + [Entry(CmdName(cmd), Running)]));
    match s
    case Fine => (Marked(c', k, Done), Fine)
    case HaltRaised => (Marked(c', k, Halted).(halted := true), Fine)
    case Failed => (Marked(c', k, Error), Failed)
  }
}
