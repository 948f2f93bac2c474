/** When runs end, and how long their logs are. */
module AssemblyRuns {
  import opened Basics
  import opened Text
  import opened AssemblyVm
  import AssemblyCorrectness

  // ---- more turns do not change a run that has ended ----

  lemma {:induction false} RunMore<C, R>(m: Machine<C, R>, f: nat, fns: Functions, prog: seq<Instr>, c: C)
    requires m.turns <= f && Run(m, fns, prog, c).out != Running
    ensures Run(m.(turns := f), fns, prog, c) == Run(m, fns, prog, c)
    decreases Rank(fns), |prog|, 0, 100 * |prog| + 1
  {
    StepsMore(m, f, fns, prog, 0, 100 * |prog|, c);
  }

  lemma {:induction false} StepsMore<C, R>(
      m: Machine<C, R>, f: nat, fns: Functions, prog: seq<Instr>, ip: int, left: nat, c: C)
    requires m.turns <= f && Steps(m, fns, prog, ip, left, c).out != Running
    ensures Steps(m.(turns := f), fns, prog, ip, left, c) == Steps(m, fns, prog, ip, left, c)
    decreases Rank(fns), |prog|, 0, left
  {
    hide StepAt;
    if 0 <= ip < |prog| && left > 0 {
      StepMore(m, f, fns, prog, ip, c);
      var turn := StepAt(m, fns, prog, ip, c);
      if turn.Next? { StepsMore(m, f, fns, prog, turn.ip, left - 1, turn.ctx); }
    }
  }

  lemma {:induction false} StepMore<C, R>(m: Machine<C, R>, f: nat, fns: Functions, prog: seq<Instr>, ip: nat, c: C)
    requires m.turns <= f && ip < |prog| && StepAt(m, fns, prog, ip, c) != Stop(Running)
    ensures StepAt(m.(turns := f), fns, prog, ip, c) == StepAt(m, fns, prog, ip, c)
    decreases Rank(fns), |prog|, 0, 0
  {
    hide PlainStep, Nested, Slice, BodyEnd, Offset, Arg, JumpStep;
    var inst := prog[ip];
    var bodyLen := Offset(Arg(inst, 2, "+1"));
    if inst.opcode in PLAIN {
      PlainMore(m, f, fns, inst, c);
    } else if inst.opcode == "JIF" {
      JumpMore(m, f, inst, ip, c);
    } else if (inst.opcode == "LOOP" || inst.opcode == "EACH") && bodyLen.Some? {
      NestedMore(m, f, fns, Slice(prog, ip + 1, BodyEnd(prog, ip, bodyLen.value)), inst, c);
    }
  }

  lemma JumpMore<C, R>(m: Machine<C, R>, f: nat, inst: Instr, ip: nat, c: C)
    ensures JumpStep(m.(turns := f), inst, ip, c) == JumpStep(m, inst, ip, c)
  {
  }

  lemma {:induction false} PlainMore<C, R>(m: Machine<C, R>, f: nat, fns: Functions, inst: Instr, c: C)
    requires m.turns <= f && PlainStep(m, fns, inst, c) != Running
    ensures PlainStep(m.(turns := f), fns, inst, c) == PlainStep(m, fns, inst, c)
    decreases Rank(fns), 0, 0, 0
  {
    hide Run;
    var fn := Arg(inst, 1, "");
    if inst.opcode == "CALL" && inst.args != [] && fn in fns && m.enter(fn, inst, c).Some? {
      RunMore(m, f, map[], fns[fn], m.enter(fn, inst, c).value);
    }
  }

  lemma {:induction false} NestedMore<C, R>(
      m: Machine<C, R>, f: nat, fns: Functions, body: seq<Instr>, inst: Instr, c: C)
    requires m.turns <= f && Nested(m, fns, body, inst, c).out != Running
    ensures Nested(m.(turns := f), fns, body, inst, c) == Nested(m, fns, body, inst, c)
    decreases Rank(fns), |body|, 3, 0
  {
    if inst.opcode == "LOOP" {
      var iters := if |inst.args| > 1 then ParseInt(inst.args[1]) else Some(8);
      if iters.Some? { LoopMore(m, f, fns, body, Arg(inst, 0, ""), iters.value, c); }
    } else {
      var found := m.open(Arg(inst, 1, ""), c);
      if found.Some? { EachMore(m, f, fns, body, Arg(inst, 0, "@_item"), found.value.0, 0, found.value.1); }
    }
  }

  lemma {:induction false} LoopMore<C, R>(
      m: Machine<C, R>, f: nat, fns: Functions, body: seq<Instr>, cond: string, iters: int, c: C)
    requires m.turns <= f && LoopRun(m, fns, body, cond, iters, c).out != Running
    ensures LoopRun(m.(turns := f), fns, body, cond, iters, c) == LoopRun(m, fns, body, cond, iters, c)
    decreases Rank(fns), |body|, 1, if iters < 0 then 0 else iters
  {
    hide Run;
    if iters > 0 && m.cond(cond, c) == Some(true) {
      RunMore(m, f, fns, body, c);
      var r := Run(m, fns, body, c);
      if r.out.Ok? { LoopMore(m, f, fns, body, cond, iters - 1, r.out.ctx); }
    }
  }

  lemma {:induction false} EachMore<C, R>(
      m: Machine<C, R>, f: nat, fns: Functions, body: seq<Instr>, item: string, list: R, idx: nat, c: C)
    requires m.turns <= f && EachRun(m, fns, body, item, list, idx, c).out != Running
    ensures EachRun(m.(turns := f), fns, body, item, list, idx, c) == EachRun(m, fns, body, item, list, idx, c)
    decreases Rank(fns), |body|, 1, if idx < m.turns then m.turns - idx else 0
  {
    hide Run;
    if idx < m.count(list, c) {
      var c1 := m.bind(item, list, idx, c);
      RunMore(m, f, fns, body, c1);
      var r := Run(m, fns, body, c1);
      if r.out.Ok? {
        var back := m.writeBack(item, list, idx, r.out.ctx);
        if back.Some? { EachMore(m, f, fns, body, item, list, idx + 1, back.value); }
      }
    }
  }

  // ---- a closed bound on the log ----

  /** No LOOP of the program allows more than k iterations. */
  predicate LoopsAtMost(prog: seq<Instr>, k: nat) {
    forall inst :: inst in prog && inst.opcode == "LOOP" ==>
      if |inst.args| > 1 then ParseInt(inst.args[1]).Some? ==> ParseInt(inst.args[1]).value <= k else 8 <= k
  }

  predicate HasEach(prog: seq<Instr>) { exists inst :: inst in prog && inst.opcode == "EACH" }

  /** Nothing in the program is followed for more than k turns. */
  predicate TurnsAtMost<C, R>(m: Machine<C, R>, prog: seq<Instr>, k: nat) {
    LoopsAtMost(prog, k) && (HasEach(prog) ==> m.turns <= k)
  }

  /** Log entries of one activation of a program of n instructions. */
  function LogBound(n: nat, k: nat): nat {
    if n == 0 then 0 else 100 * n * (1 + k * LogBound(n - 1, k))
  }

  lemma {:induction false} LogBoundGrows(n: nat, n': nat, k: nat)
    requires n <= n'
    ensures LogBound(n, k) <= LogBound(n', k)
    decreases n'
  {
    if 0 < n {
      LogBoundGrows(n - 1, n' - 1, k);
      var a, b := 1 + k * LogBound(n - 1, k), 1 + k * LogBound(n' - 1, k);
      MulLe(k, LogBound(n - 1, k), LogBound(n' - 1, k));
      assert a <= b;
      MulLe(100 * n, a, b);
      MulLe(b, 100 * n, 100 * n');
    }
  }

  lemma {:induction false} RunLog<C, R>(m: Machine<C, R>, fns: Functions, prog: seq<Instr>, k: nat, c: C)
    requires TurnsAtMost(m, prog, k)
    ensures Run(m, fns, prog, c).log <= LogBound(|prog|, k)
    decreases |prog|, 1, 0
  {
    if prog != [] {
      StepsLog(m, fns, prog, 0, 100 * |prog|, k, c);
    }
  }

  lemma {:induction false} StepsLog<C, R>(
      m: Machine<C, R>, fns: Functions, prog: seq<Instr>, ip: int, left: nat, k: nat, c: C)
    requires TurnsAtMost(m, prog, k) && prog != []
    ensures Steps(m, fns, prog, ip, left, c).log <= left * (1 + k * LogBound(|prog| - 1, k))
    decreases |prog|, 0, left
  {
    hide LogBound, StepAt, TurnsAtMost;
    if 0 <= ip < |prog| && left > 0 {
      MulSucc(1 + k * LogBound(|prog| - 1, k), left);
      TurnLog(m, fns, prog, ip, k, c);
      var turn := StepAt(m, fns, prog, ip, c);
      if turn.Next? { StepsLog(m, fns, prog, turn.ip, left - 1, k, turn.ctx); }
    }
  }

  lemma {:induction false} TurnLog<C, R>(m: Machine<C, R>, fns: Functions, prog: seq<Instr>, ip: nat, k: nat, c: C)
    requires TurnsAtMost(m, prog, k) && ip < |prog|
    ensures var turn := StepAt(m, fns, prog, ip, c);
            turn.Next? ==> turn.log <= 1 + k * LogBound(|prog| - 1, k)
    decreases |prog|, 0, 0
  {
    hide LogBound, Nested, TurnsAtMost, StepAt, Slice, BodyEnd, Offset, Arg;
    var inst := prog[ip];
    var bodyLen := Offset(Arg(inst, 2, "+1"));
    if (inst.opcode == "LOOP" || inst.opcode == "EACH") && bodyLen.Some? {
      var end := BodyEnd(prog, ip, bodyLen.value);
      var body := Slice(prog, ip + 1, end);
      SliceIn(prog, ip + 1, end);
      FewerTurns(m, prog, body + [inst], k);
      LogBoundGrows(|body|, |prog| - 1, k);
      MulLe(k, LogBound(|body|, k), LogBound(|prog| - 1, k));
      NestedLog(m, fns, body, inst, k, c);
      LogOfNested(m, fns, prog, ip, bodyLen.value, c);
    } else {
      LogOfFlat(m, fns, prog, ip, c);
    }
  }

  lemma SliceIn(prog: seq<Instr>, a: nat, b: int)
    ensures forall i :: i in Slice(prog, a, b) ==> i in prog
  {
  }

  lemma FewerTurns<C, R>(m: Machine<C, R>, prog: seq<Instr>, some: seq<Instr>, k: nat)
    requires TurnsAtMost(m, prog, k) && forall i :: i in some ==> i in prog
    ensures TurnsAtMost(m, some, k)
  {
  }

  lemma LogOfNested<C, R>(m: Machine<C, R>, fns: Functions, prog: seq<Instr>, ip: nat, bodyLen: int, c: C)
    requires ip < |prog| && (prog[ip].opcode == "LOOP" || prog[ip].opcode == "EACH")
    requires Offset(Arg(prog[ip], 2, "+1")) == Some(bodyLen)
    ensures var turn, r := StepAt(m, fns, prog, ip, c),
            Nested(m, fns, Slice(prog, ip + 1, BodyEnd(prog, ip, bodyLen)), prog[ip], c);
            turn.Next? ==> turn.log == 1 + r.log
  {
    AssemblyCorrectness.NotPlain();
    hide Nested, Slice, BodyEnd, Offset, PlainStep, JumpStep;
  }

  lemma LogOfFlat<C, R>(m: Machine<C, R>, fns: Functions, prog: seq<Instr>, ip: nat, c: C)
    requires ip < |prog|
    requires !(prog[ip].opcode == "LOOP" || prog[ip].opcode == "EACH") || Offset(Arg(prog[ip], 2, "+1")).None?
    ensures var turn := StepAt(m, fns, prog, ip, c);
            turn.Next? ==> turn.log == 1
  {
    AssemblyCorrectness.NotPlain();
    hide Nested, Slice, BodyEnd, Offset, PlainStep;
  }

  lemma {:induction false} NestedLog<C, R>(
      m: Machine<C, R>, fns: Functions, body: seq<Instr>, inst: Instr, k: nat, c: C)
    requires TurnsAtMost(m, body + [inst], k) && (inst.opcode == "LOOP" || inst.opcode == "EACH")
    ensures Nested(m, fns, body, inst, c).log <= k * LogBound(|body|, k)
    decreases |body|, 3, 0
  {
    assert inst in body + [inst];
    FewerTurns(m, body + [inst], body, k);
    hide LogBound, LoopRun, EachRun;
    if inst.opcode == "LOOP" {
      var iters := if |inst.args| > 1 then ParseInt(inst.args[1]) else Some(8);
      if iters.Some? {
        LoopLog(m, fns, body, Arg(inst, 0, ""), iters.value, k, c);
        MulLe(LogBound(|body|, k), if iters.value < 0 then 0 else iters.value, k);
      }
    } else {
      assert HasEach(body + [inst]);
      var found := m.open(Arg(inst, 1, ""), c);
      if found.Some? {
        EachLog(m, fns, body, Arg(inst, 0, "@_item"), found.value.0, 0, k, found.value.1);
        MulLe(LogBound(|body|, k), m.turns, k);
      }
    }
  }

  lemma {:induction false} LoopLog<C, R>(
      m: Machine<C, R>, fns: Functions, body: seq<Instr>, cond: string, iters: int, k: nat, c: C)
    requires TurnsAtMost(m, body, k)
    ensures LoopRun(m, fns, body, cond, iters, c).log <= (if iters < 0 then 0 else iters) * LogBound(|body|, k)
    decreases |body|, 2, if iters < 0 then 0 else iters
  {
    hide LogBound, Run, TurnsAtMost;
    if iters > 0 {
      MulSucc(LogBound(|body|, k), iters);
      if m.cond(cond, c) == Some(true) {
        RunLog(m, fns, body, k, c);
        var r := Run(m, fns, body, c);
        if r.out.Ok? { LoopLog(m, fns, body, cond, iters - 1, k, r.out.ctx); }
      }
    }
  }

  lemma {:induction false} EachLog<C, R>(
      m: Machine<C, R>, fns: Functions, body: seq<Instr>, item: string, list: R, idx: nat, k: nat, c: C)
    requires TurnsAtMost(m, body, k) && idx <= m.turns
    ensures EachRun(m, fns, body, item, list, idx, c).log <= (m.turns - idx) * LogBound(|body|, k)
    decreases |body|, 2, m.turns - idx
  {
    hide LogBound, Run, TurnsAtMost;
    if idx < m.turns && idx < m.count(list, c) {
      MulSucc(LogBound(|body|, k), m.turns - idx);
      var c1 := m.bind(item, list, idx, c);
      RunLog(m, fns, body, k, c1);
      var r := Run(m, fns, body, c1);
      if r.out.Ok? {
        var back := m.writeBack(item, list, idx, r.out.ctx);
        if back.Some? { EachLog(m, fns, body, item, list, idx + 1, k, back.value); }
      }
    }
  }

  /** A run on which no EACH takes more than k turns, in a program whose LOOPs allow no more than k, has a log no longer
   *  than LogBound of its length, whatever its lists do; and it is the whole run, however many turns are allowed. */
  lemma LogIsBounded<C, R>(m: Machine<C, R>, fns: Functions, prog: seq<Instr>, k: nat, f: nat, c: C)
    requires LoopsAtMost(prog, k) && k <= f && Run(m.(turns := k), fns, prog, c).out != Running
    ensures Run(m.(turns := f), fns, prog, c) == Run(m.(turns := k), fns, prog, c)
    ensures Run(m.(turns := f), fns, prog, c).log <= LogBound(|prog|, k)
  {
    RunMore(m.(turns := k), f, fns, prog, c);
    assert m.(turns := k).(turns := f) == m.(turns := f);
    RunLog(m.(turns := k), fns, prog, k, c);
  }

  /** Without EACH the LOOP limits alone bound the log. */
  lemma LogIsBoundedByLoops<C, R>(m: Machine<C, R>, fns: Functions, prog: seq<Instr>, k: nat, c: C)
    requires LoopsAtMost(prog, k) && !HasEach(prog)
    ensures Run(m, fns, prog, c).log <= LogBound(|prog|, k)
  {
    RunLog(m, fns, prog, k, c);
  }

  // ---- runs in an invariant of contexts end ----

  /** Ended, and in a context of the invariant if all went well. */
  predicate Lands<C>(out: Outcome<C>, inv: C -> bool) { out != Running && (out.Ok? ==> inv(out.ctx)) }

  /** The program's own instructions keep the invariant, a call of a user function being one step that ends, and in the
   *  invariant no list that one of its EACHs runs over has more than k items. */
  ghost predicate Tame<C(!new), R(!new)>(m: Machine<C, R>, fns: Functions, prog: seq<Instr>, k: nat, inv: C -> bool) {
    && (forall inst, c :: inst in prog && inst.opcode in PLAIN && inv(c) ==> Lands(PlainStep(m, fns, inst, c), inv))
    && (forall inst, c :: inst in prog && inst.opcode == "EACH" && inv(c) ==> TameEach(m, inst, k, inv, c))
  }

  ghost predicate TameEach<C(!new), R(!new)>(m: Machine<C, R>, inst: Instr, k: nat, inv: C -> bool, c: C) {
    var found := m.open(Arg(inst, 1, ""), c);
    found.Some? ==> inv(found.value.1) && TameTurns(m, Arg(inst, 0, "@_item"), found.value.0, k, inv)
  }

  ghost predicate TameTurns<C(!new), R>(m: Machine<C, R>, item: string, list: R, k: nat, inv: C -> bool) {
    && (forall c :: inv(c) ==> m.count(list, c) <= k)
    && (forall c, idx: nat :: inv(c) && idx < m.count(list, c) ==> inv(m.bind(item, list, idx, c)))
    && (forall c, idx: nat :: inv(c) ==> var back := m.writeBack(item, list, idx, c); back.Some? ==> inv(back.value))
  }

  lemma FewerTame<C(!new), R(!new)>(
      m: Machine<C, R>, fns: Functions, prog: seq<Instr>, some: seq<Instr>, k: nat, inv: C -> bool)
    requires Tame(m, fns, prog, k, inv) && forall i :: i in some ==> i in prog
    ensures Tame(m, fns, some, k, inv)
  {
    hide PlainStep, TameEach, Lands;
  }

  /** Such a run ends, once k turns are allowed, and in the invariant. */
  lemma {:induction false} TameRunEnds<C(!new), R(!new)>(
      m: Machine<C, R>, fns: Functions, prog: seq<Instr>, k: nat, inv: C -> bool, c: C)
    requires Tame(m, fns, prog, k, inv) && k <= m.turns && inv(c)
    ensures Lands(Run(m, fns, prog, c).out, inv)
    decreases |prog|, 1, 0
  {
    if prog != [] { StepsLand(m, fns, prog, 0, 100 * |prog|, k, inv, c); }
  }

  lemma {:induction false} StepsLand<C(!new), R(!new)>(
      m: Machine<C, R>, fns: Functions, prog: seq<Instr>, ip: int, left: nat, k: nat, inv: C -> bool, c: C)
    requires Tame(m, fns, prog, k, inv) && k <= m.turns && inv(c) && prog != []
    ensures Lands(Steps(m, fns, prog, ip, left, c).out, inv)
    decreases |prog|, 0, left
  {
    hide StepAt, Tame;
    if 0 <= ip < |prog| && left > 0 {
      TurnLands(m, fns, prog, ip, k, inv, c);
      var turn := StepAt(m, fns, prog, ip, c);
      if turn.Next? { StepsLand(m, fns, prog, turn.ip, left - 1, k, inv, turn.ctx); }
    }
  }

  lemma {:induction false} TurnLands<C(!new), R(!new)>(
      m: Machine<C, R>, fns: Functions, prog: seq<Instr>, ip: nat, k: nat, inv: C -> bool, c: C)
    requires Tame(m, fns, prog, k, inv) && k <= m.turns && inv(c) && ip < |prog|
    ensures var turn := StepAt(m, fns, prog, ip, c);
            if turn.Next? then inv(turn.ctx) else !turn.out.Ok? && turn.out != Running
    decreases |prog|, 0, 0
  {
    var inst := prog[ip];
    AssemblyCorrectness.NotPlain();
    assert inst in prog;
    hide Nested, Slice, BodyEnd, Offset, Arg, PlainStep, TameEach;
    var bodyLen := Offset(Arg(inst, 2, "+1"));
    if (inst.opcode == "LOOP" || inst.opcode == "EACH") && bodyLen.Some? {
      var body := Slice(prog, ip + 1, BodyEnd(prog, ip, bodyLen.value));
      SliceIn(prog, ip + 1, BodyEnd(prog, ip, bodyLen.value));
      FewerTame(m, fns, prog, body + [inst], k, inv);
      NestedLands(m, fns, body, inst, k, inv, c);
    }
  }

  lemma {:induction false} NestedLands<C(!new), R(!new)>(
      m: Machine<C, R>, fns: Functions, body: seq<Instr>, inst: Instr, k: nat, inv: C -> bool, c: C)
    requires Tame(m, fns, body + [inst], k, inv) && k <= m.turns && inv(c)
             && (inst.opcode == "LOOP" || inst.opcode == "EACH")
    ensures Lands(Nested(m, fns, body, inst, c).out, inv)
    decreases |body|, 3, 0
  {
    FewerTame(m, fns, body + [inst], body, k, inv);
    assert inst in body + [inst];
    if inst.opcode == "LOOP" {
      var iters := if |inst.args| > 1 then ParseInt(inst.args[1]) else Some(8);
      if iters.Some? { LoopLands(m, fns, body, Arg(inst, 0, ""), iters.value, k, inv, c); }
    } else {
      assert TameEach(m, inst, k, inv, c);
      var found := m.open(Arg(inst, 1, ""), c);
      if found.Some? { EachLands(m, fns, body, Arg(inst, 0, "@_item"), found.value.0, 0, k, inv, found.value.1); }
    }
  }

  lemma {:induction false} LoopLands<C(!new), R(!new)>(
      m: Machine<C, R>, fns: Functions, body: seq<Instr>, cond: string, iters: int, k: nat, inv: C -> bool, c: C)
    requires Tame(m, fns, body, k, inv) && k <= m.turns && inv(c)
    ensures Lands(LoopRun(m, fns, body, cond, iters, c).out, inv)
    decreases |body|, 2, if iters < 0 then 0 else iters
  {
    hide Run, Tame;
    if iters > 0 {
      TameRunEnds(m, fns, body, k, inv, c);
      var r := Run(m, fns, body, c);
      if r.out.Ok? { LoopLands(m, fns, body, cond, iters - 1, k, inv, r.out.ctx); }
    }
  }

  lemma {:induction false} EachLands<C(!new), R(!new)>(
      m: Machine<C, R>, fns: Functions, body: seq<Instr>, item: string, list: R, idx: nat, k: nat, inv: C -> bool, c: C)
    requires Tame(m, fns, body, k, inv) && TameTurns(m, item, list, k, inv) && k <= m.turns && inv(c)
    ensures Lands(EachRun(m, fns, body, item, list, idx, c).out, inv)
    decreases |body|, 2, if idx < m.turns then m.turns - idx else 0
  {
    hide Run, Tame;
    if idx < m.count(list, c) {
      var c1 := m.bind(item, list, idx, c);
      TameRunEnds(m, fns, body, k, inv, c1);
      var r := Run(m, fns, body, c1);
      if r.out.Ok? {
        var back := m.writeBack(item, list, idx, r.out.ctx);
        if back.Some? { EachLands(m, fns, body, item, list, idx + 1, k, inv, back.value); }
      }
    }
  }

  /** In an invariant that bounds the lists the run ends, within the closed bound on its log. */
  lemma TameLogIsBounded<C(!new), R(!new)>(
      m: Machine<C, R>, fns: Functions, prog: seq<Instr>, k: nat, f: nat, inv: C -> bool, c: C)
    requires Tame(m.(turns := k), fns, prog, k, inv) && LoopsAtMost(prog, k) && k <= f && inv(c)
    ensures Lands(Run(m.(turns := f), fns, prog, c).out, inv)
            && Run(m.(turns := f), fns, prog, c).log <= LogBound(|prog|, k)
  {
    TameRunEnds(m.(turns := k), fns, prog, k, inv, c);
    LogIsBounded(m, fns, prog, k, f, c);
  }

  /** Every oracle of the machine keeps the invariant, that of a call on both contexts, and every list that is opened
   *  stays within k items. */
  ghost predicate Closed<C(!new), R(!new)>(m: Machine<C, R>, k: nat, inv: C -> bool) {
    && (forall inst, c :: inv(c) ==> (m.plain(inst, c).Some? ==> inv(m.plain(inst, c).value)))
    && (forall fn, inst, c :: inv(c) ==> (m.enter(fn, inst, c).Some? ==> inv(m.enter(fn, inst, c).value)))
    && (forall fn, inst, c, child :: inv(c) && inv(child) ==>
          (m.leave(fn, inst, c, child).Some? ==> inv(m.leave(fn, inst, c, child).value)))
    && (forall inst, c :: inv(c) ==> TameEach(m, inst, k, inv, c))
  }

  /** Such a machine keeps every program with any functions in the invariant. */
  lemma ClosedIsTame<C(!new), R(!new)>(m: Machine<C, R>, fns: Functions, prog: seq<Instr>, k: nat, inv: C -> bool)
    requires Closed(m, k, inv) && k <= m.turns
    ensures Tame(m, fns, prog, k, inv)
    decreases Rank(fns), 1
  {
    hide PlainStep, TameEach;
    forall inst, c | inst in prog && inst.opcode in PLAIN && inv(c) ensures Lands(PlainStep(m, fns, inst, c), inv) {
      CallLands(m, fns, inst, k, inv, c);
    }
  }

  lemma CallLands<C(!new), R(!new)>(m: Machine<C, R>, fns: Functions, inst: Instr, k: nat, inv: C -> bool, c: C)
    requires Closed(m, k, inv) && k <= m.turns && inv(c)
    ensures Lands(PlainStep(m, fns, inst, c), inv)
    decreases Rank(fns), 0
  {
    hide Run, Tame, TameEach;
    var fn := Arg(inst, 1, "");
    if inst.opcode == "CALL" && inst.args != [] && fn in fns && m.enter(fn, inst, c).Some? {
      ClosedIsTame(m, map[], fns[fn], k, inv);
      TameRunEnds(m, map[], fns[fn], k, inv, m.enter(fn, inst, c).value);
    }
  }

  predicate NoEach(fns: Functions, prog: seq<Instr>) { !HasEach(prog) && forall fn :: fn in fns ==> !HasEach(fns[fn]) }

  /** A program without EACH, in itself and in its functions, always ends. */
  lemma {:induction false} NoEachEnds<C(!new), R(!new)>(m: Machine<C, R>, fns: Functions, prog: seq<Instr>, c: C)
    requires NoEach(fns, prog)
    ensures Run(m, fns, prog, c).out != Running
    decreases Rank(fns)
  {
    forall inst, x | inst in prog && inst.opcode in PLAIN ensures Lands(PlainStep(m, fns, inst, x), c => true) {
      var fn := Arg(inst, 1, "");
      if inst.opcode == "CALL" && inst.args != [] && fn in fns && m.enter(fn, inst, x).Some? {
        NoEachEnds(m, map[], fns[fn], m.enter(fn, inst, x).value);
      }
    }
    TameRunEnds(m, fns, prog, 0, c => true, c);
  }
}
