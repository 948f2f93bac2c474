/** The assembly interpreter: label resolution, the ip/step loop, and blocks run as slices.
 *
 *  What a plain instruction does to the context, which values are truthy and what a list holds are oracles (Machine),
 *  so the results hold for every choice of them. EACH runs over the list object itself, so its body may lengthen the
 *  list it runs over and need never end: a run follows at most `turns` turns of each EACH, and is Running if one of
 *  them would go on. A run that is not Running is the whole run.
 */
module AssemblyVm {
  import opened Basics
  import opened Text

  /** One line: opcode and raw argument tokens. Flags matter to the plain opcodes alone. */
  datatype Instr = Instr(opcode: string, args: seq<string>, flags: map<string, string>)

  /** NegativeIp: the program left 0 <= ip, where Python would index from the end. */
  datatype Outcome<+C> = Ok(ctx: C) | Raised | NegativeIp | Running

  /** The outcome of an activation and the number of its log entries. */
  datatype Result<+C> = Result(out: Outcome<C>, log: nat)

  /** Lists are known by references. `open` gives the list that EACH runs over, a new one for what is no list;
   *  `count` is its length in a context, `bind` makes its item of that index the current one. */
  datatype Machine<!C, !R> = Machine(
    plain: (Instr, C) -> Option<C>,
    cond: (string, C) -> Option<bool>,
    open: (string, C) -> Option<(R, C)>,
    count: (R, C) -> nat,
    bind: (string, R, nat, C) -> C,
    writeBack: (string, R, nat, C) -> Option<C>,
    enter: (string, Instr, C) -> Option<C>,
    leave: (string, Instr, C, C) -> Option<C>,
    turns: nat)

  /** User functions by name. A body runs with an empty table. */
  type Functions = map<string, seq<Instr>>

  const PLAIN: set<string> := {"MOV", "GEN", "PUT", "PUT+", "PARSE", "CALL", "CMP"}

  // ---- labels ----

  predicate Jumps(inst: Instr) { inst.opcode == "JIF" || inst.opcode == "LOOP" || inst.opcode == "EACH" }

  function LabelName(inst: Instr): string { if inst.args == [] then "" else inst.args[0] }

  /** First pass: positions of the labels among the real instructions; a later label replaces an earlier one. */
  function Collect(instrs: seq<Instr>, pos: nat, labels: map<string, nat>): map<string, nat>
    decreases |instrs|
  {
    if instrs == [] then labels
    else if instrs[0].opcode == "LABEL" then Collect(instrs[1..], pos, labels[LabelName(instrs[0]) := pos])
    else Collect(instrs[1..], pos + 1, labels)
  }

  function Real(instrs: seq<Instr>): seq<Instr> {
    if instrs == [] then []
    else if instrs[0].opcode == "LABEL" then Real(instrs[1..])
    else [instrs[0]] + Real(instrs[1..])
  }

  function PrintOffset(offset: int): string { if offset < 0 then PrintInt(offset) else "+" + PrintInt(offset) }

  function ResolveArg(labels: map<string, nat>, ip: nat, arg: string): string {
    if StartsWith(arg, ":") && arg[1..] in labels then PrintOffset(labels[arg[1..]] - ip - 1) else arg
  }

  function ResolveArgs(labels: map<string, nat>, ip: nat, args: seq<string>): seq<string> {
    seq(|args|, i requires 0 <= i < |args| => ResolveArg(labels, ip, args[i]))
  }

  function ResolveInstr(labels: map<string, nat>, ip: nat, inst: Instr): Instr {
    if Jumps(inst) then inst.(args := ResolveArgs(labels, ip, inst.args)) else inst
  }

  /** Second pass, from position ip on. */
  function ResolveFrom(labels: map<string, nat>, ip: nat, insts: seq<Instr>): seq<Instr>
    decreases |insts|
  {
    if insts == [] then [] else [ResolveInstr(labels, ip, insts[0])] + ResolveFrom(labels, ip + 1, insts[1..])
  }

  function ResolveLabels(instrs: seq<Instr>): seq<Instr> {
    ResolveFrom(Collect(instrs, 0, map[]), 0, Real(instrs))
  }

  /** `_resolve_labels`: two passes over the list. */
  method ResolveLabelsLoop(instrs: seq<Instr>) returns (out: seq<Instr>)
    ensures out == ResolveLabels(instrs)
  {
    hide ResolveInstr;
    var labels: map<string, nat> := map[];
    var insts: seq<Instr> := [];
    for n := 0 to |instrs|
      invariant Collect(instrs[n..], |insts|, labels) == Collect(instrs, 0, map[])
      invariant insts + Real(instrs[n..]) == Real(instrs)
    {
      assert instrs[n..][1..] == instrs[n + 1..];
      var inst := instrs[n];
      if inst.opcode == "LABEL" {
        labels := labels[LabelName(inst) := |insts|];
      } else {
        assert insts + ([inst] + Real(instrs[n + 1..])) == (insts + [inst]) + Real(instrs[n + 1..]);
        insts := insts + [inst];
      }
    }
    assert insts == Real(instrs) by { assert insts + [] == insts; }
    out := [];
    for ip := 0 to |insts|
      invariant out + ResolveFrom(labels, ip, insts[ip..]) == ResolveFrom(labels, 0, insts)
    {
      assert insts[ip..][1..] == insts[ip + 1..];
      var inst := ResolveInstrLoop(labels, ip, insts[ip]);
      assert out + ([inst] + ResolveFrom(labels, ip + 1, insts[ip + 1..]))
          == (out + [inst]) + ResolveFrom(labels, ip + 1, insts[ip + 1..]);
      out := out + [inst];
    }
    assert out + [] == out;
  }

  method ResolveInstrLoop(labels: map<string, nat>, ip: nat, inst: Instr) returns (out: Instr)
    ensures out == ResolveInstr(labels, ip, inst)
  {
    if !Jumps(inst) {
      return inst;
    }
    var newArgs: seq<string> := [];
    for k := 0 to |inst.args|
      invariant |newArgs| == k && forall i :: 0 <= i < k ==> newArgs[i] == ResolveArg(labels, ip, inst.args[i])
    {
      newArgs := newArgs + [ResolveArg(labels, ip, inst.args[k])];
    }
    assert newArgs == ResolveArgs(labels, ip, inst.args);
    return inst.(args := newArgs);
  }

  // ---- the interpreter ----

  function Offset(token: string): Option<int> { ParseInt(LStripPlus(token)) }

  function Arg(inst: Instr, i: nat, default: string): string { if i < |inst.args| then inst.args[i] else default }

  /** `instructions[a:b]` for a >= 0. */
  function Slice(prog: seq<Instr>, a: nat, b: int): seq<Instr>
    ensures |Slice(prog, a, b)| <= |prog| && (a > 0 && |prog| > 0 ==> |Slice(prog, a, b)| < |prog|)
  {
    var e := if b < 0 then b + |prog| else if b > |prog| then |prog| else b;
    if a >= e then [] else prog[a..e]
  }

  function AddLog<C>(n: nat, r: Result<C>): Result<C> { r.(log := r.log + n) }

  function Rank(fns: Functions): nat { if fns == map[] then 0 else 1 }

  function OrRaised<C>(c: Option<C>): Outcome<C> { if c.None? then Raised else Ok(c.value) }

  /** MOV, GEN, PUT, PARSE, CALL and CMP; a CALL of a user function runs its body in a child context. */
  function PlainStep<C, R>(m: Machine<C, R>, fns: Functions, inst: Instr, c: C): Outcome<C>
    decreases Rank(fns), 0, 0, 0
  {
    var fn := Arg(inst, 1, "");
    if inst.opcode == "CALL" && inst.args != [] && fn in fns then
      match m.enter(fn, inst, c) {
        case None => Raised
        case Some(child) =>
          match Run(m, map[], fns[fn], child).out
          case Ok(child') => (match m.leave(fn, inst, c, child') case None => Raised case Some(c') => Ok(c'))
          case Raised => Raised
          case NegativeIp => NegativeIp
          case Running => Running
      }
    else OrRaised(m.plain(inst, c))
  }

  function Run<C, R>(m: Machine<C, R>, fns: Functions, prog: seq<Instr>, c: C): Result<C>
    decreases Rank(fns), |prog|, 0, 100 * |prog| + 1
  {
    Steps(m, fns, prog, 0, 100 * |prog|, c)
  }

  /** One turn of the loop: where it goes on, with which context and how many new log entries; or how it ends. */
  datatype Turn<+C> = Next(ip: int, ctx: C, log: nat) | Stop(out: Outcome<C>)

  function Go<C>(ip: int, out: Outcome<C>, log: nat): Turn<C> {
    if out.Ok? then Next(ip, out.ctx, log) else Stop(out)
  }

  /** The instruction at ip. */
  function StepAt<C, R>(m: Machine<C, R>, fns: Functions, prog: seq<Instr>, ip: nat, c: C): Turn<C>
    requires ip < |prog|
    decreases Rank(fns), |prog|, 0, 0
  {
    var inst := prog[ip];
    if inst.opcode in PLAIN then Go(ip + 1, PlainStep(m, fns, inst, c), 1)
    else if inst.opcode == "NOP" then Next(ip + 1, c, 1)
    else if inst.opcode == "JIF" then JumpStep(m, inst, ip, c)
    else if inst.opcode == "LOOP" || inst.opcode == "EACH" then
      var bodyLen := Offset(Arg(inst, 2, "+1"));
      if bodyLen.None? then Stop(Raised)
      else
        var end := BodyEnd(prog, ip, bodyLen.value);
        var r := Nested(m, fns, Slice(prog, ip + 1, end), inst, c);
        Go(end, r.out, 1 + r.log)
    else Stop(Raised)
  }

  function BodyEnd(prog: seq<Instr>, ip: nat, bodyLen: int): int {
    if ip + 1 + bodyLen < |prog| then ip + 1 + bodyLen else |prog|
  }

  function JumpStep<C, R>(m: Machine<C, R>, inst: Instr, ip: nat, c: C): Turn<C> {
    var offset := Offset(Arg(inst, 1, "+0"));
    if offset.None? then Stop(Raised)
    else
      match m.cond(Arg(inst, 0, ""), c)
      case None => Stop(Raised)
      case Some(taken) => Next(if taken then ip + offset.value + 1 else ip + 1, c, 1)
  }

  /** A LOOP or EACH over its body. */
  function Nested<C, R>(m: Machine<C, R>, fns: Functions, body: seq<Instr>, inst: Instr, c: C): Result<C>
    decreases Rank(fns), |body|, 3, 0
  {
    if inst.opcode == "LOOP" then
      var iters := if |inst.args| > 1 then ParseInt(inst.args[1]) else Some(8);
      if iters.None? then Result(Raised, 0) else LoopRun(m, fns, body, Arg(inst, 0, ""), iters.value, c)
    else EachStart(m, fns, body, Arg(inst, 0, "@_item"), Arg(inst, 1, ""), c)
  }

  /** The loop of `_run_instructions` with `left` steps to go before the safety bound. */
  function Steps<C, R>(m: Machine<C, R>, fns: Functions, prog: seq<Instr>, ip: int, left: nat, c: C): Result<C>
    decreases Rank(fns), |prog|, 0, left
  {
    if ip >= |prog| || left == 0 then Result(Ok(c), 0)
    else if ip < 0 then Result(NegativeIp, 0)
    else
      match StepAt(m, fns, prog, ip, c)
      case Next(ip', c', log) => AddLog(log, Steps(m, fns, prog, ip', left - 1, c'))
      case Stop(out) => Result(out, 1)
  }

  function LoopRun<C, R>(m: Machine<C, R>, fns: Functions, body: seq<Instr>, ref: string, iters: int, c: C): Result<C>
    decreases Rank(fns), |body|, 1, if iters < 0 then 0 else iters
  {
    if iters <= 0 then Result(Ok(c), 0)
    else
      match m.cond(ref, c)
      case None => Result(Raised, 0)
      case Some(false) => Result(Ok(c), 0)
      case Some(true) =>
        var r := Run(m, fns, body, c);
        match r.out
        case Ok(c') => AddLog(r.log, LoopRun(m, fns, body, ref, iters - 1, c'))
        case _ => r
  }

  function EachStart<C, R>(
      m: Machine<C, R>, fns: Functions, body: seq<Instr>, item: string, coll: string, c: C): Result<C>
    decreases Rank(fns), |body|, 2, 0
  {
    match m.open(coll, c)
    case None => Result(Raised, 0)
    case Some((list, c')) => EachRun(m, fns, body, item, list, 0, c')
  }

  /** The turns from index idx on: the length is looked up afresh each time. */
  function EachRun<C, R>(
      m: Machine<C, R>, fns: Functions, body: seq<Instr>, item: string, list: R, idx: nat, c: C): Result<C>
    decreases Rank(fns), |body|, 1, if idx < m.turns then m.turns - idx else 0
  {
    if idx >= m.count(list, c) then Result(Ok(c), 0)
    else if idx >= m.turns then Result(Running, 0)
    else
      var r := Run(m, fns, body, m.bind(item, list, idx, c));
      match r.out
      case Ok(c') =>
        (match m.writeBack(item, list, idx, c')
         case None => Result(Raised, r.log)
         case Some(c'') => AddLog(r.log, EachRun(m, fns, body, item, list, idx + 1, c'')))
      case _ => r
  }

  // ---- the code ----

  /** `_run_instructions`. */
  method RunInstructions<C, R>(m: Machine<C, R>, fns: Functions, prog: seq<Instr>, start: C) returns (r: Result<C>)
    ensures r == Run(m, fns, prog, start)
    decreases Rank(fns), |prog|, 4, 0
  {
    hide StepAt;
    var ip: int, steps, maxTotal, log, c := 0, 0, |prog| * 100, 0, start;
    while ip < |prog| && steps < maxTotal
      invariant 0 <= steps <= maxTotal
      invariant AddLog(log, Steps(m, fns, prog, ip, maxTotal - steps, c)) == Run(m, fns, prog, start)
      decreases maxTotal - steps
    {
      if ip < 0 {
        return Result(NegativeIp, log);
      }
      var turn := RunOne(m, fns, prog, ip, c);
      steps := steps + 1;
      match turn {
        case Next(ip', c', entries) => ip, c, log := ip', c', log + entries;
        case Stop(out) => return Result(out, log + 1);
      }
    }
    return Result(Ok(c), log);
  }

  method RunOne<C, R>(m: Machine<C, R>, fns: Functions, prog: seq<Instr>, ip: nat, c: C) returns (turn: Turn<C>)
    requires ip < |prog|
    ensures turn == StepAt(m, fns, prog, ip, c)
    decreases Rank(fns), |prog|, 0, 1
  {
    var inst := prog[ip];
    if inst.opcode in PLAIN {
      var out := RunPlain(m, fns, inst, c);
      return Go(ip + 1, out, 1);
    } else if inst.opcode == "LOOP" || inst.opcode == "EACH" {
      var bodyLen := Offset(Arg(inst, 2, "+1"));
      if bodyLen.None? {
        return Stop(Raised);
      }
      var bodyEnd := BodyEnd(prog, ip, bodyLen.value);
      var body := Slice(prog, ip + 1, bodyEnd);
      var r: Result<C>;
      if inst.opcode == "EACH" {
        r := RunEachBody(m, fns, body, Arg(inst, 0, "@_item"), Arg(inst, 1, ""), c);
      } else {
        var iters := if |inst.args| > 1 then ParseInt(inst.args[1]) else Some(8);
        if iters.None? {
          return Stop(Raised);
        }
        r := RunLoopBody(m, fns, body, Arg(inst, 0, ""), iters.value, c);
      }
      return Go(bodyEnd, r.out, 1 + r.log);
    } else if inst.opcode == "JIF" {
      return JumpStep(m, inst, ip, c);
    } else if inst.opcode == "NOP" {
      return Next(ip + 1, c, 1);
    }
    return Stop(Raised);
  }

  /** `_exec_call` of a user function (`_exec_asm_function`: child context, empty function table), or any other plain
   *  line. */
  method RunPlain<C, R>(m: Machine<C, R>, fns: Functions, inst: Instr, c: C) returns (out: Outcome<C>)
    ensures out == PlainStep(m, fns, inst, c)
    decreases Rank(fns), 0, 0, 1
  {
    var fn := Arg(inst, 1, "");
    if inst.opcode != "CALL" || inst.args == [] || fn !in fns {
      return OrRaised(m.plain(inst, c));
    }
    var child := m.enter(fn, inst, c);
    if child.None? {
      return Raised;
    }
    var r := RunInstructions(m, map[], fns[fn], child.value);
    match r.out {
      case Ok(child') =>
        var back := m.leave(fn, inst, c, child');
        return if back.Some? then Ok(back.value) else Raised;
      case other => return other;
    }
  }

  method RunLoopBody<C, R>(m: Machine<C, R>, fns: Functions, body: seq<Instr>, ref: string, maxIters: int, start: C)
    returns (r: Result<C>)
    ensures r == LoopRun(m, fns, body, ref, maxIters, start)
    decreases Rank(fns), |body|, 5, 0
  {
    var iterations, log: nat, c := 0, 0, start;
    while iterations < maxIters
      invariant AddLog(log, LoopRun(m, fns, body, ref, maxIters - iterations, c)) ==
        LoopRun(m, fns, body, ref, maxIters, start)
    {
      var cond := m.cond(ref, c);
      if cond.None? {
        return Result(Raised, log);
      }
      if !cond.value {
        return Result(Ok(c), log);
      }
      var inner := RunInstructions(m, fns, body, c);
      log := log + inner.log;
      if !inner.out.Ok? {
        return Result(inner.out, log);
      }
      c := inner.out.ctx;
      iterations := iterations + 1;
    }
    return Result(Ok(c), log);
  }

  method RunEachBody<C, R>(m: Machine<C, R>, fns: Functions, body: seq<Instr>, item: string, coll: string, start: C)
    returns (r: Result<C>)
    ensures r == EachStart(m, fns, body, item, coll, start)
    decreases Rank(fns), |body|, 5, 0
  {
    var found := m.open(coll, start);
    if found.None? {
      return Result(Raised, 0);
    }
    var list, idx, log: nat, c := found.value.0, 0, 0, found.value.1;
    while idx < m.count(list, c)
      invariant idx <= m.turns
      invariant AddLog(log, EachRun(m, fns, body, item, list, idx, c)) == EachStart(m, fns, body, item, coll, start)
      decreases m.turns - idx
    {
      if idx == m.turns {
        return Result(Running, log);
      }
      var inner := RunInstructions(m, fns, body, m.bind(item, list, idx, c));
      log := log + inner.log;
      if !inner.out.Ok? {
        return Result(inner.out, log);
      }
      var back := m.writeBack(item, list, idx, inner.out.ctx);
      if back.None? {
        return Result(Raised, log);
      }
      c := back.value;
      idx := idx + 1;
    }
    return Result(Ok(c), log);
  }
}
