/** Nested blocks with jumps: labelled text, resolved to relative offsets and run with ip and slices, means what the
 *  nesting and the labels say. */
module AssemblyBlocks {
  import opened Basics
  import opened Text
  import opened AssemblyVm

  /** A jump goes to a label further on, of the same block or of one around it. */
  datatype Stmt =
    | Plain(inst: Instr)
    | Jump(cond: string, tag: string)                               // JIF cond, :tag
    | Mark(tag: string)                                             // :tag
    | Loop(cond: string, max: string, tag: string, body: seq<Stmt>) // LOOP cond, max, :tag ... :tag
    | Each(item: string, coll: string, tag: string, body: seq<Stmt>)

  predicate Iterates(s: Stmt) { s.Loop? || s.Each? }

  /** The label stands at the end of the statement. */
  predicate EndsIn(s: Stmt, tag: string) { (s.Mark? || Iterates(s)) && s.tag == tag }

  /** How many statements it takes to get behind a label: all, if it is not a label of this block. */
  function Behind(ss: seq<Stmt>, tag: string): (n: nat)
    ensures n <= |ss|
  {
    if ss == [] then 0 else if EndsIn(ss[0], tag) then 1 else 1 + Behind(ss[1..], tag)
  }

  /** The big-step meaning: no ip, no offsets, no slices, no step bound. A jump to a label of this block skips what is
   *  before it; a jump to a label further out ends the block, which for a loop body means its turn. */
  function Exec<C, R>(m: Machine<C, R>, fns: Functions, ss: seq<Stmt>, c: C): Outcome<C>
    decreases ss, 0, 0
  {
    if ss == [] then Ok(c)
    else if ss[0].Jump? then
      match m.cond(ss[0].cond, c)
      case None => Raised
      case Some(true) => Exec(m, fns, ss[1 + Behind(ss[1..], ss[0].tag)..], c)
      case Some(false) => Exec(m, fns, ss[1..], c)
    else
      var first := ExecStmt(m, fns, ss[0], c);
      if first.Ok? then Exec(m, fns, ss[1..], first.ctx) else first
  }

  function ExecStmt<C, R>(m: Machine<C, R>, fns: Functions, s: Stmt, c: C): Outcome<C>
    requires !s.Jump?
    decreases s, 2, 0
  {
    match s
    case Plain(inst) => if inst.opcode == "NOP" then Ok(c) else PlainStep(m, fns, inst, c)
    case Mark(_) => Ok(c)
    case Loop(cond, max, _, body) =>
      (match ParseInt(max) case None => Raised case Some(n) => ExecLoop(m, fns, body, cond, n, c))
    case Each(item, coll, _, body) =>
      (match m.open(coll, c) case None => Raised case Some((list, c')) => ExecEach(m, fns, body, item, list, 0, c'))
  }

  function ExecLoop<C, R>(m: Machine<C, R>, fns: Functions, body: seq<Stmt>, cond: string, iters: int, c: C): Outcome<C>
    decreases body, 1, if iters < 0 then 0 else iters
  {
    if iters <= 0 then Ok(c)
    else
      match m.cond(cond, c)
      case None => Raised
      case Some(false) => Ok(c)
      case Some(true) =>
        var first := Exec(m, fns, body, c);
        match first
        case Ok(c') => ExecLoop(m, fns, body, cond, iters - 1, c')
        case _ => first
  }

  function ExecEach<C, R>(
      m: Machine<C, R>, fns: Functions, body: seq<Stmt>, item: string, list: R, idx: nat, c: C): Outcome<C>
    decreases body, 1, if idx < m.turns then m.turns - idx else 0
  {
    if idx >= m.count(list, c) then Ok(c)
    else if idx >= m.turns then Running
    else
      var first := Exec(m, fns, body, m.bind(item, list, idx, c));
      match first
      case Ok(c') =>
        (match m.writeBack(item, list, idx, c')
         case None => Raised
         case Some(c'') => ExecEach(m, fns, body, item, list, idx + 1, c''))
      case _ => first
  }

  // ---- the text of a block ----

  function LabelLine(tag: string): Instr { Instr("LABEL", [tag], map[]) }

  function Flatten(ss: seq<Stmt>): seq<Instr> {
    if ss == [] then [] else FlattenStmt(ss[0]) + Flatten(ss[1..])
  }

  function FlattenStmt(s: Stmt): seq<Instr> {
    match s
    case Plain(inst) => [inst]
    case Jump(cond, tag) => [Instr("JIF", [cond, ":" + tag], map[])]
    case Mark(tag) => [LabelLine(tag)]
    case Loop(cond, max, tag, body) =>
      [Instr("LOOP", [cond, max, ":" + tag], map[])] + Flatten(body) + [LabelLine(tag)]
    case Each(item, coll, tag, body) =>
      [Instr("EACH", [item, coll, ":" + tag], map[])] + Flatten(body) + [LabelLine(tag)]
  }

  /** The number of instructions, labels aside. */
  function Size(ss: seq<Stmt>): nat {
    if ss == [] then 0 else SizeStmt(ss[0]) + Size(ss[1..])
  }

  function SizeStmt(s: Stmt): nat {
    match s
    case Mark(_) => 0
    case Loop(_, _, _, body) => 1 + Size(body)
    case Each(_, _, _, body) => 1 + Size(body)
    case _ => 1
  }

  /** The same block from position pos on, with offsets in place of labels. */
  function Code(labels: map<string, nat>, pos: nat, ss: seq<Stmt>): (code: seq<Instr>)
    ensures |code| == Size(ss)
    decreases ss, 0
  {
    if ss == [] then [] else CodeStmt(labels, pos, ss[0]) + Code(labels, pos + SizeStmt(ss[0]), ss[1..])
  }

  function CodeStmt(labels: map<string, nat>, pos: nat, s: Stmt): (code: seq<Instr>)
    ensures |code| == SizeStmt(s)
    decreases s, 1
  {
    match s
    case Plain(inst) => [inst]
    case Jump(cond, tag) => [Instr("JIF", [cond, ResolveArg(labels, pos, ":" + tag)], map[])]
    case Mark(_) => []
    case Loop(cond, max, _, body) =>
      [Instr("LOOP", [cond, max, PrintOffset(Size(body))], map[])] + Code(labels, pos + 1, body)
    case Each(item, coll, _, body) =>
      [Instr("EACH", [item, coll, PrintOffset(Size(body))], map[])] + Code(labels, pos + 1, body)
  }

  /** Plain lines as a block. */
  function Block(insts: seq<Instr>): seq<Stmt> {
    if insts == [] then [] else [Stmt.Plain(insts[0])] + Block(insts[1..])
  }

  predicate PlainLines(insts: seq<Instr>) { forall i :: 0 <= i < |insts| ==> insts[i].opcode in PLAIN }

  lemma {:induction false} BlockShape(insts: seq<Instr>, labels: map<string, nat>, pos: nat)
    requires PlainLines(insts)
    ensures Flatten(Block(insts)) == insts == Code(labels, pos, Block(insts))
    ensures Structured(Block(insts)) && Labels(Block(insts)) == {}
    decreases |insts|
  {
    if insts != [] {
      BlockShape(insts[1..], labels, pos + 1);
      assert Block(insts)[1..] == Block(insts[1..]);
      assert [insts[0]] + insts[1..] == insts;
    }
  }

  predicate NotLabel(arg: string) { !StartsWith(arg, ":") }

  /** Plain lines hold plain opcodes, and no argument but the jump target is written as a label. */
  predicate WellFormed(ss: seq<Stmt>) {
    ss == [] || (WellFormedStmt(ss[0]) && WellFormed(ss[1..]))
  }

  predicate WellFormedStmt(s: Stmt) {
    match s
    case Plain(inst) => inst.opcode in PLAIN || inst.opcode == "NOP"
    case Jump(cond, _) => NotLabel(cond)
    case Mark(_) => true
    case Loop(cond, max, _, body) => NotLabel(cond) && NotLabel(max) && WellFormed(body)
    case Each(item, coll, _, body) => NotLabel(item) && NotLabel(coll) && WellFormed(body)
  }

  /** The labels that a block shows to jumps: those inside its loops are no targets from outside. */
  function Ends(ss: seq<Stmt>): set<string> {
    if ss == [] then {} else (if ss[0].Mark? || Iterates(ss[0]) then {ss[0].tag} else {}) + Ends(ss[1..])
  }

  /** Every jump goes to a label further on, in its block or behind it. */
  predicate Scoped(ss: seq<Stmt>, outer: set<string>) {
    ss == [] || (ScopedStmt(ss[0], Ends(ss[1..]) + outer) && Scoped(ss[1..], outer))
  }

  predicate ScopedStmt(s: Stmt, behind: set<string>) {
    match s
    case Jump(_, tag) => tag in behind
    case Loop(_, _, tag, body) => Scoped(body, {tag} + behind)
    case Each(_, _, tag, body) => Scoped(body, {tag} + behind)
    case _ => true
  }

  /** The position of each label when the block starts at position pos. */
  function Positions(ss: seq<Stmt>, pos: nat): map<string, nat> {
    if ss == [] then map[] else PositionsStmt(ss[0], pos) + Positions(ss[1..], pos + SizeStmt(ss[0]))
  }

  function PositionsStmt(s: Stmt, pos: nat): map<string, nat> {
    match s
    case Mark(tag) => map[tag := pos]
    case Loop(_, _, tag, body) => Positions(body, pos + 1)[tag := pos + 1 + Size(body)]
    case Each(_, _, tag, body) => Positions(body, pos + 1)[tag := pos + 1 + Size(body)]
    case _ => map[]
  }

  function Labels(ss: seq<Stmt>): set<string> {
    if ss == [] then {} else LabelsStmt(ss[0]) + Labels(ss[1..])
  }

  function LabelsStmt(s: Stmt): set<string> {
    match s
    case Mark(tag) => {tag}
    case Loop(_, _, tag, body) => Labels(body) + {tag}
    case Each(_, _, tag, body) => Labels(body) + {tag}
    case _ => {}
  }

  /** No label is defined twice. */
  predicate DistinctLabels(ss: seq<Stmt>) {
    ss == [] || (DistinctStmt(ss[0]) && DistinctLabels(ss[1..]) && LabelsStmt(ss[0]) !! Labels(ss[1..]))
  }

  predicate DistinctStmt(s: Stmt) {
    match s
    case Loop(_, _, tag, body) => DistinctLabels(body) && tag !in Labels(body)
    case Each(_, _, tag, body) => DistinctLabels(body) && tag !in Labels(body)
    case _ => true
  }

  predicate Structured(ss: seq<Stmt>) { WellFormed(ss) && DistinctLabels(ss) && Scoped(ss, {}) }

  // ---- labels resolve to the offsets of the nesting ----

  lemma {:induction false} CollectAppend(a: seq<Instr>, b: seq<Instr>, pos: nat, labels: map<string, nat>)
    ensures Collect(a + b, pos, labels) == Collect(b, pos + |Real(a)|, Collect(a, pos, labels))
    decreases |a|
  {
    if a == [] {
      assert a + b == b;
    } else {
      assert (a + b)[1..] == a[1..] + b;
      if a[0].opcode == "LABEL" {
        CollectAppend(a[1..], b, pos, labels[LabelName(a[0]) := pos]);
      } else {
        CollectAppend(a[1..], b, pos + 1, labels);
      }
    }
  }

  lemma {:induction false} RealAppend(a: seq<Instr>, b: seq<Instr>)
    ensures Real(a + b) == Real(a) + Real(b)
  {
    if a == [] {
      assert a + b == b;
    } else {
      assert (a + b)[1..] == a[1..] + b;
      RealAppend(a[1..], b);
    }
  }

  lemma {:induction false} ResolveAppend(labels: map<string, nat>, ip: nat, a: seq<Instr>, b: seq<Instr>)
    ensures ResolveFrom(labels, ip, a + b) == ResolveFrom(labels, ip, a) + ResolveFrom(labels, ip + |a|, b)
    decreases |a|
  {
    if a == [] {
      assert a + b == b;
    } else {
      assert (a + b)[1..] == a[1..] + b;
      ResolveAppend(labels, ip + 1, a[1..], b);
    }
  }

  function Head(s: Stmt): Instr
    requires s.Jump? || Iterates(s)
  {
    match s
    case Jump(cond, tag) => Instr("JIF", [cond, ":" + tag], map[])
    case Loop(cond, max, tag, _) => Instr("LOOP", [cond, max, ":" + tag], map[])
    case Each(item, coll, tag, _) => Instr("EACH", [item, coll, ":" + tag], map[])
  }

  lemma FlattenShape(s: Stmt, pos: nat)
    requires Iterates(s)
    ensures FlattenStmt(s) == [Head(s)] + (Flatten(s.body) + [LabelLine(s.tag)])
    ensures PositionsStmt(s, pos) == Positions(s.body, pos + 1)[s.tag := pos + 1 + Size(s.body)]
    ensures SizeStmt(s) == 1 + Size(s.body)
    ensures WellFormedStmt(s) ==> WellFormed(s.body)
    ensures LabelsStmt(s) == Labels(s.body) + {s.tag}
  {
  }

  lemma {:induction false} RealSize(ss: seq<Stmt>)
    requires WellFormed(ss)
    ensures |Real(Flatten(ss))| == Size(ss)
    decreases ss, 0
  {
    if ss != [] {
      RealAppend(FlattenStmt(ss[0]), Flatten(ss[1..]));
      RealSizeStmt(ss[0]);
      RealSize(ss[1..]);
    }
  }

  lemma {:induction false} RealSizeStmt(s: Stmt)
    requires WellFormedStmt(s)
    ensures |Real(FlattenStmt(s))| == SizeStmt(s)
    decreases s, 1
  {
    if Iterates(s) {
      FlattenShape(s, 0);
      RealSize(s.body);
      RealAppend(Flatten(s.body), [LabelLine(s.tag)]);
      RealAppend([Head(s)], Flatten(s.body) + [LabelLine(s.tag)]);
    }
  }

  lemma {:induction false} PositionsKeys(ss: seq<Stmt>, pos: nat)
    ensures Positions(ss, pos).Keys == Labels(ss)
    decreases ss, 0
  {
    if ss != [] {
      if Iterates(ss[0]) { PositionsKeys(ss[0].body, pos + 1); }
      PositionsKeys(ss[1..], pos + SizeStmt(ss[0]));
    }
  }

  /** The first pass finds every label of a block where the nesting puts it. */
  lemma {:induction false} CollectBlock(ss: seq<Stmt>, pos: nat, labels: map<string, nat>)
    requires WellFormed(ss)
    ensures Collect(Flatten(ss), pos, labels) == labels + Positions(ss, pos)
    decreases ss, 0
  {
    if ss != [] {
      var here := labels + PositionsStmt(ss[0], pos);
      hide SizeStmt, FlattenStmt, PositionsStmt, WellFormedStmt, Collect;
      CollectAppend(FlattenStmt(ss[0]), Flatten(ss[1..]), pos, labels);
      CollectStmt(ss[0], pos, labels);
      RealSizeStmt(ss[0]);
      CollectBlock(ss[1..], pos + SizeStmt(ss[0]), here);
      PlusAssociates(labels, PositionsStmt(ss[0], pos), Positions(ss[1..], pos + SizeStmt(ss[0])));
    }
  }

  lemma PlusAssociates(a: map<string, nat>, b: map<string, nat>, c: map<string, nat>)
    ensures (a + b) + c == a + (b + c)
  {
  }

  lemma {:induction false} CollectStmt(s: Stmt, pos: nat, labels: map<string, nat>)
    requires WellFormedStmt(s)
    ensures Collect(FlattenStmt(s), pos, labels) == labels + PositionsStmt(s, pos)
    decreases s, 1
  {
    if s.Plain? {
      assert [s.inst][1..] == [];
      assert labels + map[] == labels;
    } else if s.Jump? {
      assert [Head(s)][1..] == [] && Collect([Head(s)], pos, labels) == labels;
      assert labels + map[] == labels;
    } else if s.Mark? {
      CollectLabel(s.tag, pos, labels);
    } else {
      FlattenShape(s, pos);
      CollectBlock(s.body, pos + 1, labels);
      RealSize(s.body);
      CollectNested(s, pos, labels);
    }
  }

  lemma CollectNested(s: Stmt, pos: nat, labels: map<string, nat>)
    requires Iterates(s) && |Real(Flatten(s.body))| == Size(s.body)
    requires Collect(Flatten(s.body), pos + 1, labels) == labels + Positions(s.body, pos + 1)
    ensures Collect([Head(s)] + (Flatten(s.body) + [LabelLine(s.tag)]), pos, labels) ==
            labels + Positions(s.body, pos + 1)[s.tag := pos + 1 + Size(s.body)]
  {
    CollectHead(s, Flatten(s.body) + [LabelLine(s.tag)], pos, labels);
    CollectAppend(Flatten(s.body), [LabelLine(s.tag)], pos + 1, labels);
    CollectLabel(s.tag, pos + 1 + Size(s.body), labels + Positions(s.body, pos + 1));
  }

  lemma CollectHead(s: Stmt, rest: seq<Instr>, pos: nat, labels: map<string, nat>)
    requires Iterates(s)
    ensures Collect([Head(s)] + rest, pos, labels) == Collect(rest, pos + 1, labels)
  {
    assert ([Head(s)] + rest)[1..] == rest;
    assert Head(s).opcode != "LABEL";
  }

  lemma CollectLabel(tag: string, pos: nat, labels: map<string, nat>)
    ensures Collect([LabelLine(tag)], pos, labels) == labels[tag := pos]
  {
    assert [LabelLine(tag)][1..] == [];
  }

  ghost predicate Agrees(labels: map<string, nat>, positions: map<string, nat>) {
    forall l :: l in positions ==> l in labels && labels[l] == positions[l]
  }

  lemma AgreesParts(labels: map<string, nat>, a: map<string, nat>, b: map<string, nat>)
    requires Agrees(labels, a + b) && a.Keys !! b.Keys
    ensures Agrees(labels, a) && Agrees(labels, b)
  {
    forall l | l in a ensures l in labels && labels[l] == a[l] { assert l in a + b && l !in b; }
    forall l | l in b ensures l in labels && labels[l] == b[l] { assert l in a + b; }
  }

  lemma {:induction false} PositionsStmtKeys(s: Stmt, pos: nat)
    ensures PositionsStmt(s, pos).Keys == LabelsStmt(s)
  {
    if Iterates(s) { PositionsKeys(s.body, pos + 1); }
  }

  /** The second pass turns the labels of a block at position pos into the lengths of its bodies and jumps. */
  lemma {:induction false} ResolveBlock(ss: seq<Stmt>, pos: nat, labels: map<string, nat>)
    requires WellFormed(ss) && DistinctLabels(ss) && Agrees(labels, Positions(ss, pos))
    ensures ResolveFrom(labels, pos, Real(Flatten(ss))) == Code(labels, pos, ss)
    decreases ss, 0
  {
    if ss != [] {
      hide CodeStmt, FlattenStmt, WellFormedStmt, DistinctStmt, Agrees, PositionsStmt, LabelsStmt, Real, ResolveFrom;
      var rest := pos + SizeStmt(ss[0]);
      RealAppend(FlattenStmt(ss[0]), Flatten(ss[1..]));
      RealSizeStmt(ss[0]);
      ResolveAppend(labels, pos, Real(FlattenStmt(ss[0])), Real(Flatten(ss[1..])));
      PositionsKeys(ss[1..], rest);
      PositionsStmtKeys(ss[0], pos);
      AgreesParts(labels, PositionsStmt(ss[0], pos), Positions(ss[1..], rest));
      ResolveStmt(ss[0], pos, labels);
      ResolveBlock(ss[1..], rest, labels);
    } else {
      assert Real(Flatten(ss)) == [];
    }
  }

  lemma {:induction false} ResolveStmt(s: Stmt, pos: nat, labels: map<string, nat>)
    requires WellFormedStmt(s) && DistinctStmt(s) && Agrees(labels, PositionsStmt(s, pos))
    ensures ResolveFrom(labels, pos, Real(FlattenStmt(s))) == CodeStmt(labels, pos, s)
    decreases s, 1
  {
    if s.Plain? {
      assert Real([s.inst]) == [s.inst] + Real([]);
      assert [s.inst][1..] == [];
    } else if s.Jump? {
      ResolveJump(s, pos, labels);
    } else if Iterates(s) {
      AgreesBody(s, pos, labels);
      hide FlattenStmt, CodeStmt, PositionsStmt, Agrees;
      RealOfNested(s);
      ResolveAppend(labels, pos, [Head(s)], Real(Flatten(s.body)));
      ResolveBlock(s.body, pos + 1, labels);
      ResolveHead(s, pos, labels);
    }
  }

  lemma AgreesBody(s: Stmt, pos: nat, labels: map<string, nat>)
    requires Iterates(s) && DistinctStmt(s) && Agrees(labels, PositionsStmt(s, pos))
    ensures s.tag in labels && labels[s.tag] == pos + 1 + Size(s.body)
    ensures Agrees(labels, Positions(s.body, pos + 1)) && DistinctLabels(s.body)
  {
    FlattenShape(s, pos);
    PositionsKeys(s.body, pos + 1);
    assert s.tag !in Labels(s.body);
    assert s.tag in PositionsStmt(s, pos);
    forall l | l in Positions(s.body, pos + 1) ensures l in labels && labels[l] == Positions(s.body, pos + 1)[l] {
      assert l in PositionsStmt(s, pos);
    }
  }

  lemma ResolveJump(s: Stmt, pos: nat, labels: map<string, nat>)
    requires s.Jump? && NotLabel(s.cond)
    ensures ResolveFrom(labels, pos, Real(FlattenStmt(s))) == CodeStmt(labels, pos, s)
  {
    assert [Head(s)][1..] == [] && Real([Head(s)]) == [Head(s)];
    assert ResolveFrom(labels, pos, [Head(s)]) == [Head(s).(args := ResolveArgs(labels, pos, Head(s).args))];
    assert ResolveArgs(labels, pos, Head(s).args) == CodeStmt(labels, pos, s)[0].args;
  }

  lemma RealOfNested(s: Stmt)
    requires Iterates(s)
    ensures Real(FlattenStmt(s)) == [Head(s)] + Real(Flatten(s.body))
  {
    FlattenShape(s, 0);
    hide FlattenStmt;
    RealAppend([Head(s)], Flatten(s.body) + [LabelLine(s.tag)]);
    RealAppend(Flatten(s.body), [LabelLine(s.tag)]);
    assert [LabelLine(s.tag)][1..] == [] && [Head(s)][1..] == [];
    assert Real([LabelLine(s.tag)]) == [] && Real([Head(s)]) == [Head(s)];
  }

  lemma ResolveHead(s: Stmt, pos: nat, labels: map<string, nat>)
    requires WellFormedStmt(s) && Iterates(s) && s.tag in labels && labels[s.tag] == pos + 1 + Size(s.body)
    ensures ResolveFrom(labels, pos, [Head(s)]) + Code(labels, pos + 1, s.body) == CodeStmt(labels, pos, s)
  {
    assert ResolveArg(labels, pos, ":" + s.tag) == PrintOffset(Size(s.body)) by { assert (":" + s.tag)[1..] == s.tag; }
    assert [Head(s)][1..] == [];
    assert ResolveFrom(labels, pos, [Head(s)]) == [Head(s).(args := ResolveArgs(labels, pos, Head(s).args))];
    hide PrintOffset, WellFormed, Code, ResolveFrom;
    assert ResolveArgs(labels, pos, Head(s).args) == CodeStmt(labels, pos, s)[0].args;
  }

  /** Labels may be resolved once or twice: the second time changes nothing, whatever the program. */
  lemma ResolveTwice(instrs: seq<Instr>)
    ensures ResolveLabels(ResolveLabels(instrs)) == ResolveLabels(instrs)
  {
    var labels := Collect(instrs, 0, map[]);
    RealHasNoLabels(instrs);
    ResolvedHasNoLabels(labels, 0, Real(instrs));
    NoLabelsIsFixed(ResolveLabels(instrs), 0);
  }

  lemma {:induction false} RealHasNoLabels(instrs: seq<Instr>)
    ensures forall i :: 0 <= i < |Real(instrs)| ==> Real(instrs)[i].opcode != "LABEL"
  {
    if instrs != [] { RealHasNoLabels(instrs[1..]); }
  }

  lemma {:induction false} ResolvedHasNoLabels(labels: map<string, nat>, ip: nat, insts: seq<Instr>)
    requires forall i :: 0 <= i < |insts| ==> insts[i].opcode != "LABEL"
    ensures var out := ResolveFrom(labels, ip, insts);
            |out| == |insts| && forall i :: 0 <= i < |out| ==> out[i].opcode != "LABEL"
    decreases |insts|
  {
    if insts != [] { ResolvedHasNoLabels(labels, ip + 1, insts[1..]); }
  }

  lemma {:induction false} NoLabelsIsFixed(insts: seq<Instr>, ip: nat)
    requires forall i :: 0 <= i < |insts| ==> insts[i].opcode != "LABEL"
    ensures Collect(insts, ip, map[]) == map[] && Real(insts) == insts && ResolveFrom(map[], ip, insts) == insts
    decreases |insts|
  {
    if insts != [] {
      NoLabelsIsFixed(insts[1..], ip + 1);
      assert ResolveArgs(map[], ip, insts[0].args) == insts[0].args;
    }
  }
}
