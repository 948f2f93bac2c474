/** Runs of the command interpreter: how long they are, what a halt does, and the context that they update. */
module DslRuns {
  import opened Basics
  import opened Text
  import opened DslInterpreter

  // ---- the number of commands ----

  function Times(max: int): nat { if max < 0 then 0 else max }

  /** The most log entries that a command list can make: loops count `max` times, whatever they run over. */
  function Weight(cmds: seq<Cmd>): nat
    decreases cmds, 0
  {
    if cmds == [] then 0 else WeightOf(cmds[0]) + Weight(cmds[1..])
  }

  function WeightOf(cmd: Cmd): nat
    decreases cmd, 1
  {
    match cmd
    case If(_, thenDo, elseDo) => 1 + if Weight(thenDo) > Weight(elseDo) then Weight(thenDo) else Weight(elseDo)
    case ForEach(_, _, max, body) => 1 + Times(max) * Weight(body)
    case Log(_) => 2
    case _ => 1
  }

  lemma SetAllLog(o: Oracles, c: Ctx, assigns: seq<(string, Arg)>)
    ensures var r := SetAll(o, c, assigns).0; r.log == c.log && r.halted == c.halted && r.heap == c.heap
    decreases |assigns|
  {
    if assigns != [] {
      var v := ResolveArg(o, c, assigns[0].1);
      if v.Some? { SetAllLog(o, WriteRef(c, assigns[0].0, v.value), assigns[1..]); }
    }
  }

  lemma SimpleLog(o: Oracles, cmd: Cmd, c: Ctx)
    requires !cmd.If? && !cmd.ForEach? && !cmd.Log?
    ensures var (r, s) := Exec(o, cmd, c); r.log == c.log && r.halted == c.halted && (s == HaltRaised ==> cmd.Halt?)
  {
    match cmd {
      case Set(assigns) =>
        SetAllLog(o, c, assigns);
        SetAllFine(o, c, assigns);
      case _ =>
    }
  }

  lemma {:induction false} SetAllFine(o: Oracles, c: Ctx, assigns: seq<(string, Arg)>)
    ensures SetAll(o, c, assigns).1 != HaltRaised
    decreases |assigns|
  {
    if assigns != [] {
      var v := ResolveArg(o, c, assigns[0].1);
      if v.Some? { SetAllFine(o, WriteRef(c, assigns[0].0, v.value), assigns[1..]); }
    }
  }

  /** What was logged before stays as it was. */
  predicate Extends(c: Ctx, c': Ctx) { c.log <= c'.log }

  /** The last thing logged is the halt. */
  predicate EndsInHalt(c: Ctx) { c.log != [] && c.log[|c.log| - 1] == Entry("halt", Halted) }

  /** What a run of at most n entries from c to c' keeps; once halted, the halt is the last thing logged. */
  predicate Ran(c: Ctx, c': Ctx, n: nat) {
    Extends(c, c') && |c'.log| <= |c.log| + n && (c.halted ==> c' == c)
      && (c'.halted && !c.halted ==> |c'.log| > |c.log| && EndsInHalt(c'))
  }

  lemma RanThen(a: Ctx, b: Ctx, c: Ctx, n: nat, m: nat)
    requires Ran(a, b, n) && Ran(b, c, m)
    ensures Ran(a, c, n + m)
  {
  }

  lemma RanAtMost(a: Ctx, b: Ctx, n: nat, m: nat)
    requires Ran(a, b, n) && n <= m
    ensures Ran(a, b, m)
  {
  }

  /** Every run, of whatever commands over whatever data, makes at most Weight log entries, and after a halt at any
   *  depth logs nothing more. */
  lemma {:induction false} RunIsBounded(o: Oracles, cmds: seq<Cmd>, c: Ctx)
    ensures Ran(c, RunDo(o, cmds, c).0, Weight(cmds)) && RunDo(o, cmds, c).1 != HaltRaised
    decreases cmds, 0, 0
  {
    if cmds != [] && !c.halted {
      hide RunOne, WeightOf, Ran;
      OneIsBounded(o, cmds[0], c);
      var (c', s) := RunOne(o, cmds[0], c);
      if s == Fine {
        RunIsBounded(o, cmds[1..], c');
        RanThen(c, c', RunDo(o, cmds[1..], c').0, WeightOf(cmds[0]), Weight(cmds[1..]));
      } else {
        RanAtMost(c, c', WeightOf(cmds[0]), Weight(cmds));
      }
    }
  }

  lemma {:induction false} OneIsBounded(o: Oracles, cmd: Cmd, c: Ctx)
    requires !c.halted
    ensures Ran(c, RunOne(o, cmd, c).0, WeightOf(cmd)) && RunOne(o, cmd, c).1 != HaltRaised
    decreases cmd, 3, 0
  {
    var start := c.(log := c.log + [Entry(CmdName(cmd), Running)]);
    var (c', s) := Exec(o, cmd, start);
    ExecIsBounded(o, cmd, start);
    hide Exec, WeightOf;
    assert Ran(start, c', WeightOf(cmd) - 1);
    assert c'.log[|c.log|] == start.log[|c.log|];
    MarkedLog(c, c', |c.log|, if s == Fine then Done else if s == HaltRaised then Halted else Error);
  }

  lemma MarkedLog(c: Ctx, c': Ctx, k: nat, status: Status)
    requires k == |c.log| < |c'.log| && c.log <= c'.log && c'.log[k].Entry?
    ensures var m := Marked(c', k, status);
            m == c'.(log := m.log) && c.log <= m.log && |m.log| == |c'.log| && m.log[k] == Entry(c'.log[k].name, status)
    ensures forall i :: k < i < |c'.log| ==> Marked(c', k, status).log[i] == c'.log[i]
  {
  }

  lemma {:induction false} ExecIsBounded(o: Oracles, cmd: Cmd, c: Ctx)
    requires !c.halted && c.log != []
    ensures WeightOf(cmd) > 0
    ensures var (c', s) := Exec(o, cmd, c);
            Ran(c, c', WeightOf(cmd) - 1) && (s == HaltRaised ==> cmd.Halt? && c' == c)
    decreases cmd, 2, 0
  {
    match cmd {
      case If(test, thenDo, elseDo) =>
        RunIsBounded(o, thenDo, c);
        RunIsBounded(o, elseDo, c);
        hide RunDo;
      case ForEach(items, name, max, body) =>
        var v := ResolveArg(o, c, items);
        if v.Some? && v.value.ListAt? { LoopIsBounded(o, body, VarName(name), v.value.at, 0, max, c); }
        hide Loop, ResolveArg;
      case Log(_) =>
      case _ => SimpleLog(o, cmd, c);
    }
  }

  lemma {:induction false} LoopIsBounded(o: Oracles, body: seq<Cmd>, name: string, at: nat, i: nat, max: int, c: Ctx)
    requires !c.halted
    ensures Ran(c, Loop(o, body, name, at, i, max, c).0, Times(max - i) * Weight(body))
    ensures Loop(o, body, name, at, i, max, c).1 != HaltRaised
    decreases body, 1, if max < i then 0 else max - i
  {
    if i < |Items(c, at)| && i < max {
      var c1 := c.(vars := c.vars[name := Items(c, at)[i]]["_index" := Int(i)]);
      RunIsBounded(o, body, c1);
      var (c2, s) := RunDo(o, body, c1);
      SameLog(c, c1, c2, Weight(body));
      FirstTurn(c, c2, max - i, Weight(body));
      if s == Fine && !c2.halted {
        LoopIsBounded(o, body, name, at, i + 1, max, c2);
        NextTurns(c, c2, Loop(o, body, name, at, i + 1, max, c2).0, max - i, Weight(body));
      }
      hide Ran, RunDo, Weight;
    }
  }

  lemma SameLog(c: Ctx, c1: Ctx, c2: Ctx, n: nat)
    requires c1.log == c.log && !c.halted && !c1.halted && Ran(c1, c2, n)
    ensures Ran(c, c2, n)
  {
  }

  lemma FirstTurn(c: Ctx, c2: Ctx, n: nat, w: nat)
    requires n > 0 && Ran(c, c2, w)
    ensures Ran(c, c2, n * w)
  {
    MulSucc(w, n);
    RanAtMost(c, c2, w, n * w);
  }

  lemma NextTurns(c: Ctx, c2: Ctx, c3: Ctx, n: nat, w: nat)
    requires n > 0 && Ran(c, c2, w) && Ran(c2, c3, (n - 1) * w)
    ensures Ran(c, c3, n * w)
  {
    MulSucc(w, n);
    RanThen(c, c2, c3, w, (n - 1) * w);
  }

  // ---- a loop over a list that it grows ----

  /** One append of the loop variable to the list in `list`. */
  function Grow(list: string): seq<Cmd> { [Append("@" + list, Plain(Str("$x")))] }

  lemma VariableName()
    ensures !StartsWith("$x", "@@") && !StartsWith("$x", "@") && StartsWith("$x", "$") && "$x"[1..] == "x"
  {
    assert "$x"[0] == '$' && "@"[0] == '@' && "@@"[0] == '@';
  }

  lemma GrowOnce(o: Oracles, list: string, at: nat, c: Ctx)
    requires !c.halted && Get(c.data, list) == ListAt(at) && at < |c.heap| && !StartsWith(list, "@")
    ensures var (c', s) := RunDo(o, Grow(list), c);
            && s == Fine && !c'.halted && Get(c'.data, list) == ListAt(at)
            && c'.heap == c.heap[at := c.heap[at] + [Get(c.vars, "x")]]
  {
    var cmd := Append("@" + list, Plain(Str("$x")));
    var start := c.(log := c.log + [Entry("append", Running)]);
    VariableName();
    assert ("@" + list)[1..] == list;
    assert list != [] ==> list[..1] == [list[0]] && ("@" + list)[1] == list[0];
    assert !StartsWith("@" + list, "@@") by { assert "@@"[1] == '@'; }
    assert ResolveArg(o, start, Plain(Str("$x"))) == Some(Get(c.vars, "x"));
    assert ReadName(start, "@" + list) == ListAt(at);
    assert Exec(o, cmd, start) == AppendTo(o, start, "@" + list, Plain(Str("$x")));
    assert Grow(list)[1..] == [];
    var c' := RunOne(o, cmd, c).0;
    assert RunDo(o, [], c') == (c', Fine);
  }

  /** Appending to the very list it runs over, a loop over a list that is not empty always runs `max` times. */
  lemma {:induction false} GrowingLoopStops(o: Oracles, list: string, at: nat, i: nat, max: int, c: Ctx)
    requires !c.halted && Get(c.data, list) == ListAt(at) && at < |c.heap| && !StartsWith(list, "@")
    requires i < |c.heap[at]| && i <= max
    ensures var (c', s) := Loop(o, Grow(list), "x", at, i, max, c);
            s == Fine && !c'.halted && at < |c'.heap| && |c'.heap[at]| == |c.heap[at]| + (max - i)
    decreases max - i
  {
    if i < max {
      var c1 := c.(vars := c.vars["x" := Items(c, at)[i]]["_index" := Int(i)]);
      GrowOnce(o, list, at, c1);
      var c2 := RunDo(o, Grow(list), c1).0;
      hide RunDo;
      GrowingLoopStops(o, list, at, i + 1, max, c2);
    }
  }

  // ---- how many times a loop runs ----

  /** Commands that change no list but by appending. */
  predicate Simple(cmds: seq<Cmd>)
    decreases cmds, 0
  {
    cmds == [] || (SimpleCmd(cmds[0]) && Simple(cmds[1..]))
  }

  predicate SimpleCmd(cmd: Cmd)
    decreases cmd, 1
  {
    match cmd
    case If(_, thenDo, elseDo) => Simple(thenDo) && Simple(elseDo)
    case ForEach(_, _, _, body) => Simple(body)
    case Compute(_) => false
    case _ => true
  }

  /** Every list is still there, with what it held at its front. */
  ghost predicate ListsGrow(c: Ctx, c': Ctx) {
    |c.heap| <= |c'.heap| && forall at :: 0 <= at < |c.heap| ==> c.heap[at] <= c'.heap[at]
  }

  lemma {:induction false} RunGrowsLists(o: Oracles, cmds: seq<Cmd>, c: Ctx)
    requires Simple(cmds)
    ensures ListsGrow(c, RunDo(o, cmds, c).0)
    decreases cmds, 0, 0
  {
    if cmds != [] && !c.halted {
      hide RunOne;
      OneGrowsLists(o, cmds[0], c);
      var (c', s) := RunOne(o, cmds[0], c);
      if s == Fine { RunGrowsLists(o, cmds[1..], c'); }
    }
  }

  lemma {:induction false} OneGrowsLists(o: Oracles, cmd: Cmd, c: Ctx)
    requires SimpleCmd(cmd)
    ensures ListsGrow(c, RunOne(o, cmd, c).0)
    decreases cmd, 3, 0
  {
    ExecGrowsLists(o, cmd, c.(log := c.log + [Entry(CmdName(cmd), Running)]));
    hide Exec;
  }

  lemma {:induction false} ExecGrowsLists(o: Oracles, cmd: Cmd, c: Ctx)
    requires SimpleCmd(cmd)
    ensures ListsGrow(c, Exec(o, cmd, c).0)
    decreases cmd, 2, 0
  {
    match cmd {
      case Set(assigns) => SetAllLog(o, c, assigns);
      case If(_, thenDo, elseDo) =>
        RunGrowsLists(o, thenDo, c);
        RunGrowsLists(o, elseDo, c);
      case ForEach(items, name, max, body) =>
        var v := ResolveArg(o, c, items);
        if v.Some? && v.value.ListAt? { LoopGrowsLists(o, body, VarName(name), v.value.at, 0, max, c); }
      case _ =>
    }
  }

  lemma {:induction false} LoopGrowsLists(o: Oracles, body: seq<Cmd>, name: string, at: nat, i: nat, max: int, c: Ctx)
    requires Simple(body)
    ensures ListsGrow(c, Loop(o, body, name, at, i, max, c).0)
    decreases body, 1, if max < i then 0 else max - i
  {
    if i < |Items(c, at)| && i < max {
      var c1 := c.(vars := c.vars[name := Items(c, at)[i]]["_index" := Int(i)]);
      RunGrowsLists(o, body, c1);
      var (c2, s) := RunDo(o, body, c1);
      hide RunDo;
      if s == Fine && !c2.halted { LoopGrowsLists(o, body, name, at, i + 1, max, c2); }
    }
  }

  /** The index at which the loop stops. */
  function StopsAt(o: Oracles, body: seq<Cmd>, name: string, at: nat, i: nat, max: int, c: Ctx): nat
    decreases if max < i then 0 else max - i
  {
    if i >= |Items(c, at)| || i >= max then i
    else
      var c1 := c.(vars := c.vars[name := Items(c, at)[i]]["_index" := Int(i)]);
      var (c2, s) := RunDo(o, body, c1);
      if s != Fine || c2.halted then i + 1 else StopsAt(o, body, name, at, i + 1, max, c2)
  }

  /** A loop that nothing cuts short runs once for each item that the list holds in the end, up to `max`. */
  lemma {:induction false} LoopRunsOverFinalList(
      o: Oracles, body: seq<Cmd>, name: string, at: nat, i: nat, max: int, c: Ctx)
    requires Simple(body) && i <= max && i <= |Items(c, at)| && at < |c.heap|
    requires var (c', s) := Loop(o, body, name, at, i, max, c); s == Fine && !c'.halted
    ensures var n := |Items(Loop(o, body, name, at, i, max, c).0, at)|;
            StopsAt(o, body, name, at, i, max, c) == if n < max then n else max
    decreases max - i
  {
    if i < |Items(c, at)| && i < max {
      var c1 := c.(vars := c.vars[name := Items(c, at)[i]]["_index" := Int(i)]);
      RunGrowsLists(o, body, c1);
      var (c2, s) := RunDo(o, body, c1);
      hide RunDo;
      LoopRunsOverFinalList(o, body, name, at, i + 1, max, c2);
    } else {
      assert Loop(o, body, name, at, i, max, c).0 == c;
    }
  }

  /** A list written out in a command is one list: what is appended to it is there when the command runs again. */
  lemma WrittenListIsShared(o: Oracles, c: Ctx, at: nat)
    requires at < |c.heap| && c.heap[at] == [] && !c.halted
    ensures var set1, add := Set([("$x", Plain(ListAt(at)))]), Append("$x", Plain(Int(1)));
            var c' := RunDo(o, [set1, add, set1], c).0;
            Get(c'.vars, "x") == ListAt(at) && Items(c', at) == [Int(1)]
  {
    var set1, add := Set([("$x", Plain(ListAt(at)))]), Append("$x", Plain(Int(1)));
    SetWritten(o, c, at);
    var a := RunOne(o, set1, c).0;
    AddWritten(o, a, at);
    var b := RunOne(o, add, a).0;
    SetWritten(o, b, at);
    hide RunOne;
    assert [set1, add, set1][1..] == [add, set1] && [add, set1][1..] == [set1] && [set1][1..] == [];
    var d := RunOne(o, set1, b).0;
    assert RunDo(o, [set1], b) == RunDo(o, [], d) == (d, Fine);
    assert RunDo(o, [add, set1], a) == (d, Fine);
  }

  lemma SetWritten(o: Oracles, c: Ctx, at: nat)
    requires !c.halted
    ensures var (c', s) := RunOne(o, Set([("$x", Plain(ListAt(at)))]), c);
            s == Fine && !c'.halted && c'.heap == c.heap && Get(c'.vars, "x") == ListAt(at)
  {
    var assigns := [("$x", Plain(ListAt(at)))];
    VariableName();
    assert assigns[1..] == [];
    var start := c.(log := c.log + [Entry("set", Running)]);
    assert SetAll(o, start, assigns) == (WriteRef(start, "$x", ListAt(at)), Fine);
  }

  lemma AddWritten(o: Oracles, c: Ctx, at: nat)
    requires !c.halted && at < |c.heap| && Get(c.vars, "x") == ListAt(at)
    ensures var (c', s) := RunOne(o, Append("$x", Plain(Int(1))), c);
            s == Fine && !c'.halted && c'.heap == c.heap[at := c.heap[at] + [Int(1)]]
  {
    VariableName();
  }

  // ---- the context as an object ----

  class DslContext {
    var globals: map<string, Value>
    var data: map<string, Value>
    var vars: map<string, Value>
    var updated: seq<string>
    var log: seq<Entry>
    var halted: bool
    var outcome: string
    var value: Value
    var heap: seq<seq<Value>>

    function State(): Ctx
      reads this
    {
      Ctx(globals, data, vars, updated, log, halted, outcome, value, heap)
    }

    constructor (globals: map<string, Value>, data: map<string, Value>, heap: seq<seq<Value>>)
      ensures State() == Ctx(globals, data, map[], [], [], false, "next", Null, heap)
    {
      this.globals, this.data, this.heap := globals, data, heap;
      vars, updated, log, halted, outcome, value := map[], [], [], false, "next", Null;
    }

    method Write(name: string, v: Value)
      modifies this
      ensures State() == WriteRef(old(State()), name, v)
    {
      if StartsWith(name, "@@") {
        globals := globals[name[2..] := v];
      } else if StartsWith(name, "@") {
        data := data[name[1..] := v];
        updated := updated + [name[1..]];
      } else if StartsWith(name, "$") {
        vars := vars[name[1..] := v];
      } else {
        data := data[name := v];
        updated := updated + [name];
      }
    }

    method WriteAll(o: Oracles, assigns: seq<(string, Arg)>) returns (s: Signal)
      modifies this
      ensures (State(), s) == SetAll(o, old(State()), assigns)
    {
      for i := 0 to |assigns|
        invariant SetAll(o, State(), assigns[i..]) == SetAll(o, old(State()), assigns)
      {
        assert assigns[i..][1..] == assigns[i + 1..];
        var v := ResolveArg(o, State(), assigns[i].1);
        if v.None? {
          return Failed;
        }
        Write(assigns[i].0, v.value);
      }
      return Fine;
    }

    method AppendValue(o: Oracles, to: string, arg: Arg) returns (s: Signal)
      modifies this
      ensures (State(), s) == AppendTo(o, old(State()), to, arg)
    {
      var v := ResolveArg(o, State(), arg);
      if v.None? {
        return Failed;
      }
      var current := ReadName(State(), to);
      if current.ListAt? && current.at < |heap| {
        heap := heap[current.at := heap[current.at] + [v.value]];
        Write(to, current);
      } else {
        heap := heap + [[v.value]];
        Write(to, ListAt(|heap| - 1));
      }
      return Fine;
    }

    method Load(c: Ctx)
      modifies this
      ensures State() == c
    {
      globals, data, vars, updated, log := c.globals, c.data, c.vars, c.updated, c.log;
      halted, outcome, value, heap := c.halted, c.outcome, c.value, c.heap;
    }

    /** `_exec_cmd`. */
    method ExecCmd(o: Oracles, cmd: Cmd) returns (s: Signal)
      modifies this
      ensures (State(), s) == Exec(o, cmd, old(State()))
      decreases cmd, 2, 0
    {
      match cmd {
        case Set(assigns) => s := WriteAll(o, assigns);
        case Outcome(arg) =>
          var v := ResolveArg(o, State(), arg);
          if v.None? { return Failed; }
          outcome := o.text(v.value);
          s := Fine;
        case Return(arg) =>
          var v := ReadRef(State(), arg);
          if v.None? { return Failed; }
          value := v.value;
          s := Fine;
        case If(test, thenDo, elseDo) =>
          var taken := o.test(test, State());
          if taken.None? { return Failed; }
          if taken.value { s := RunCommands(o, thenDo); } else { s := RunCommands(o, elseDo); }
        case ForEach(items, name, max, body) =>
          var v := ResolveArg(o, State(), items);
          if v.None? { return Failed; }
          s := Fine;
          if v.value.ListAt? { s := RunLoop(o, body, VarName(name), v.value.at, max); }
        case Append(to, arg) => s := AppendValue(o, to, arg);
        case Halt => s := HaltRaised;
        case Log(message) =>
          log := log + [Message(o.render(message, State()))];
          s := Fine;
        case Compute(what) =>
          var r := o.compute(what, State());
          if r.None? { return Failed; }
          Load(r.value.(log := log, halted := halted));
          s := Fine;
      }
    }

    /** The for_each loop; the list is read afresh at each turn. */
    method RunLoop(o: Oracles, body: seq<Cmd>, name: string, at: nat, max: int) returns (s: Signal)
      modifies this
      ensures (State(), s) == Loop(o, body, name, at, 0, max, old(State()))
      decreases body, 1, 0
    {
      var i := 0;
      while i < |Items(State(), at)| && i < max
        invariant Loop(o, body, name, at, i, max, State()) == Loop(o, body, name, at, 0, max, old(State()))
        decreases max - i
      {
        vars := vars[name := Items(State(), at)[i]];
        vars := vars["_index" := Int(i)];
        s := RunCommands(o, body);
        if s != Fine || halted {
          return;
        }
        i := i + 1;
      }
      s := Fine;
    }

    /** `_run_do`. */
    method RunCommands(o: Oracles, cmds: seq<Cmd>) returns (s: Signal)
      modifies this
      ensures (State(), s) == RunDo(o, cmds, old(State()))
      decreases cmds, 0, 0
    {
      for i := 0 to |cmds|
        invariant RunDo(o, cmds[i..], State()) == RunDo(o, cmds, old(State()))
      {
        assert cmds[i..][1..] == cmds[i + 1..];
        if halted {
          return Fine;
        }
        s := RunCommand(o, cmds[i]);
        if s != Fine {
          return;
        }
      }
      s := Fine;
    }

    method RunCommand(o: Oracles, cmd: Cmd) returns (s: Signal)
      modifies this
      ensures (State(), s) == RunOne(o, cmd, old(State()))
      decreases cmd, 3, 0
    {
      var k := |log|;
      log := log + [Entry(CmdName(cmd), Running)];
      s := ExecCmd(o, cmd);
      var status := match s case Fine => Done case HaltRaised => Halted case Failed => Error;
      if k < |log| && log[k].Entry? {
        log := log[k := log[k].(status := status)];
      }
      if s == HaltRaised {
        halted := true;
        s := Fine;
      }
    }
  }
}
