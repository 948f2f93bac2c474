/** The flat program of a block runs like the block. */
module AssemblyCorrectness {
  import opened Basics
  import opened Text
  import opened AssemblyVm
  import opened AssemblyBlocks

  // ---- where labels are ----

  /** The block stands at position pos of the text, where its labels are known, and the labels `outer` behind its
   *  end. */
  ghost predicate Placed(labels: map<string, nat>, pos: nat, ss: seq<Stmt>, outer: set<string>) {
    && WellFormed(ss) && DistinctLabels(ss) && Scoped(ss, outer) && Agrees(labels, Positions(ss, pos))
    && forall l :: l in outer ==> l in labels && labels[l] >= pos + Size(ss)
  }

  lemma PlacedParts(labels: map<string, nat>, pos: nat, ss: seq<Stmt>, outer: set<string>)
    requires Placed(labels, pos, ss, outer) && ss != []
    ensures WellFormedStmt(ss[0]) && DistinctStmt(ss[0]) && ScopedStmt(ss[0], Ends(ss[1..]) + outer)
    ensures Agrees(labels, PositionsStmt(ss[0], pos))
    ensures Placed(labels, pos + SizeStmt(ss[0]), ss[1..], outer)
  {
    hide WellFormedStmt, DistinctStmt, ScopedStmt, PositionsStmt, SizeStmt, Agrees, LabelsStmt;
    PositionsStmtKeys(ss[0], pos);
    PositionsKeys(ss[1..], pos + SizeStmt(ss[0]));
    AgreesParts(labels, PositionsStmt(ss[0], pos), Positions(ss[1..], pos + SizeStmt(ss[0])));
  }

  /** The labels that a block shows stand no earlier than the block. */
  lemma {:induction false} EndsPlaced(labels: map<string, nat>, pos: nat, ss: seq<Stmt>, outer: set<string>)
    requires Placed(labels, pos, ss, outer)
    ensures forall l :: l in Ends(ss) ==> l in labels && labels[l] >= pos
    decreases |ss|
  {
    if ss != [] {
      PlacedParts(labels, pos, ss, outer);
      if ss[0].Mark? || Iterates(ss[0]) { EndOfStmt(labels, pos, ss[0]); }
      EndsPlaced(labels, pos + SizeStmt(ss[0]), ss[1..], outer);
    }
  }

  lemma EndOfStmt(labels: map<string, nat>, pos: nat, s: Stmt)
    requires (s.Mark? || Iterates(s)) && Agrees(labels, PositionsStmt(s, pos))
    ensures s.tag in labels && labels[s.tag] == pos + SizeStmt(s)
  {
    assert s.tag in PositionsStmt(s, pos);
  }

  lemma PlacedBody(labels: map<string, nat>, pos: nat, ss: seq<Stmt>, outer: set<string>)
    requires Placed(labels, pos, ss, outer) && ss != [] && Iterates(ss[0])
    ensures Placed(labels, pos + 1, ss[0].body, {ss[0].tag} + (Ends(ss[1..]) + outer))
  {
    var s := ss[0];
    PlacedParts(labels, pos, ss, outer);
    EndsPlaced(labels, pos + SizeStmt(s), ss[1..], outer);
    AgreesBody(s, pos, labels);
    FlattenShape(s, pos);
  }

  /** A jump of this block lands behind the statement that the label ends, where the code of the rest stands. */
  ghost predicate Lands(labels: map<string, nat>, pos: nat, ss: seq<Stmt>, outer: set<string>, tag: string) {
    && tag in labels && labels[tag] >= pos
    && var rest, at := ss[Behind(ss, tag)..], labels[tag] - pos;
       if at <= Size(ss) && rest != [] then Placed(labels, labels[tag], rest, outer)
                                            && Code(labels, pos, ss)[at..] == Code(labels, labels[tag], rest)
       else at >= Size(ss) && rest == []
  }

  lemma {:induction false} JumpLands(labels: map<string, nat>, pos: nat, ss: seq<Stmt>, outer: set<string>, tag: string)
    requires Placed(labels, pos, ss, outer) && tag in Ends(ss) + outer
    ensures Lands(labels, pos, ss, outer, tag)
    decreases |ss|
  {
    if ss != [] {
      hide Placed, Lands;
      if EndsIn(ss[0], tag) {
        LandsHere(labels, pos, ss, outer, tag);
      } else {
        PlacedParts(labels, pos, ss, outer);
        EndsOfRest(ss, tag);
        JumpLands(labels, pos + SizeStmt(ss[0]), ss[1..], outer, tag);
        LandsBehind(labels, pos, ss, outer, tag);
      }
    }
  }

  lemma LandsHere(labels: map<string, nat>, pos: nat, ss: seq<Stmt>, outer: set<string>, tag: string)
    requires Placed(labels, pos, ss, outer) && ss != [] && EndsIn(ss[0], tag)
    ensures Lands(labels, pos, ss, outer, tag)
  {
    hide CodeStmt, SizeStmt, Placed;
    PlacedParts(labels, pos, ss, outer);
    EndOfStmt(labels, pos, ss[0]);
  }

  lemma LandsBehind(labels: map<string, nat>, pos: nat, ss: seq<Stmt>, outer: set<string>, tag: string)
    requires ss != [] && !EndsIn(ss[0], tag) && Lands(labels, pos + SizeStmt(ss[0]), ss[1..], outer, tag)
    ensures Lands(labels, pos, ss, outer, tag)
  {
    hide CodeStmt, SizeStmt, Placed, Behind, Code;
    BehindRest(ss, tag);
    var at := labels[tag] - pos - SizeStmt(ss[0]);
    if at <= Size(ss[1..]) { CodeRest(labels, pos, ss, at); }
  }

  lemma EndsOfRest(ss: seq<Stmt>, tag: string)
    requires ss != [] && !EndsIn(ss[0], tag)
    ensures tag in Ends(ss) <==> tag in Ends(ss[1..])
  {
  }

  lemma BehindRest(ss: seq<Stmt>, tag: string)
    requires ss != [] && !EndsIn(ss[0], tag)
    ensures ss[Behind(ss, tag)..] == ss[1..][Behind(ss[1..], tag)..]
  {
  }

  lemma CodeRest(labels: map<string, nat>, pos: nat, ss: seq<Stmt>, at: nat)
    requires ss != [] && at <= Size(ss[1..])
    ensures Code(labels, pos, ss)[SizeStmt(ss[0]) + at..] == Code(labels, pos + SizeStmt(ss[0]), ss[1..])[at..]
  {
  }

  // ---- simulation of a nested block by its flat code ----

  lemma OffsetOfLength(n: nat)
    ensures Offset(PrintOffset(n)) == Some(n)
  {
    var digits := PrintInt(n);
    ParsePrintInt(n);
    assert LStripPlus(digits) == digits;
    assert ("+" + digits)[1..] == digits;
  }

  lemma NotPlain()
    ensures "JIF" !in PLAIN && "LOOP" !in PLAIN && "EACH" !in PLAIN && "NOP" !in PLAIN
  {
  }

  /** The code from ip on is that of the block. */
  predicate At(labels: map<string, nat>, pos: nat, ss: seq<Stmt>, code: seq<Instr>, ip: nat) {
    ip <= |code| && code[ip..] == Code(labels, pos, ss)
  }

  lemma AtParts(labels: map<string, nat>, pos: nat, ss: seq<Stmt>, code: seq<Instr>, ip: nat)
    requires At(labels, pos, ss, code, ip) && ss != []
    ensures |code| == ip + SizeStmt(ss[0]) + Size(ss[1..])
    ensures At(labels, pos + SizeStmt(ss[0]), ss[1..], code, ip + SizeStmt(ss[0]))
    ensures code[ip..ip + SizeStmt(ss[0])] == CodeStmt(labels, pos, ss[0])
  {
    hide SizeStmt, CodeStmt;
    var n := SizeStmt(ss[0]);
    assert code[ip..][n..] == code[ip + n..];
    assert code[ip..][..n] == code[ip..ip + n];
  }

  /** From ip, where the block's code begins, to the end of the list the machine does what the block means, with any
   *  bound of at least one step per instruction. */
  lemma {:induction false} SimulateBlock<C, R>(
      m: Machine<C, R>, fns: Functions, labels: map<string, nat>, pos: nat, ss: seq<Stmt>, outer: set<string>,
      code: seq<Instr>, ip: nat, left: nat, c: C)
    requires Placed(labels, pos, ss, outer) && At(labels, pos, ss, code, ip) && left >= Size(ss)
    ensures Steps(m, fns, code, ip, left, c).out == Exec(m, fns, ss, c)
    decreases ss, 1, 0
  {
    hide StepAt, Placed, At, SizeStmt, ExecStmt;
    if ss == [] {
      EmptyIsAtEnd(labels, pos, code, ip);
    } else {
      PlacedParts(labels, pos, ss, outer);
      AtParts(labels, pos, ss, code, ip);
      SizeOf(ss[0]);
      if ss[0].Jump? {
        SimulateJump(m, fns, labels, pos, ss, outer, code, ip, left, c);
      } else if ss[0].Mark? {
        ExecMark(m, fns, ss[0], c);
        SimulateBlock(m, fns, labels, pos, ss[1..], outer, code, ip, left, c);
      } else {
        var log := SimulateStmt(m, fns, labels, pos, ss, outer, code, ip, c);
        var first := ExecStmt(m, fns, ss[0], c);
        if first.Ok? {
          SimulateBlock(m, fns, labels, pos + SizeStmt(ss[0]), ss[1..], outer, code, ip + SizeStmt(ss[0]), left - 1,
            first.ctx);
        }
      }
    }
  }

  lemma SizeOf(s: Stmt)
    ensures s.Mark? ==> SizeStmt(s) == 0
    ensures !s.Mark? ==> SizeStmt(s) >= 1
    ensures s.Jump? ==> SizeStmt(s) == 1
    ensures s.Plain? ==> SizeStmt(s) == 1
    ensures Iterates(s) ==> SizeStmt(s) == 1 + Size(s.body)
  {
  }

  lemma EmptyIsAtEnd(labels: map<string, nat>, pos: nat, code: seq<Instr>, ip: nat)
    requires At(labels, pos, [], code, ip)
    ensures ip == |code|
  {
  }

  lemma ExecMark<C, R>(m: Machine<C, R>, fns: Functions, s: Stmt, c: C)
    requires s.Mark?
    ensures ExecStmt(m, fns, s, c) == Ok(c)
  {
  }

  /** A taken jump lands on the first instruction after its label, or ends the list that it stands in. */
  lemma {:induction false} SimulateJump<C, R>(
      m: Machine<C, R>, fns: Functions, labels: map<string, nat>, pos: nat, ss: seq<Stmt>, outer: set<string>,
      code: seq<Instr>, ip: nat, left: nat, c: C)
    requires Placed(labels, pos, ss, outer) && At(labels, pos, ss, code, ip) && left >= Size(ss)
    requires ss != [] && ss[0].Jump?
    ensures Steps(m, fns, code, ip, left, c).out == Exec(m, fns, ss, c)
    decreases ss, 0, 0
  {
    hide StepAt, Placed, At, Behind, Size, ExecStmt, Code;
    var s := ss[0];
    JumpPlace(labels, pos, ss, outer, code, ip);
    JumpIs(m, fns, labels, pos, s, code, ip, c);
    var taken := m.cond(s.cond, c);
    if taken == Some(false) {
      SimulateBlock(m, fns, labels, pos + 1, ss[1..], outer, code, ip + 1, left - 1, c);
    } else if taken == Some(true) && ss[1 + Behind(ss[1..], s.tag)..] != [] {
      var rest := ss[1 + Behind(ss[1..], s.tag)..];
      SimulateBlock(m, fns, labels, labels[s.tag], rest, outer, code, ip + (labels[s.tag] - pos), left - 1, c);
    }
  }

  /** What a jump needs: the rest behind it is in place, and so is the rest behind its label. */
  lemma JumpPlace(labels: map<string, nat>, pos: nat, ss: seq<Stmt>, outer: set<string>, code: seq<Instr>, ip: nat)
    requires Placed(labels, pos, ss, outer) && At(labels, pos, ss, code, ip) && ss != [] && ss[0].Jump?
    ensures ip < |code| && code[ip..ip + 1] == CodeStmt(labels, pos, ss[0]) && Size(ss) == 1 + Size(ss[1..])
    ensures Placed(labels, pos + 1, ss[1..], outer) && At(labels, pos + 1, ss[1..], code, ip + 1)
    ensures ss[0].tag in labels && labels[ss[0].tag] >= pos + 1
    ensures var to, rest := labels[ss[0].tag], ss[1 + Behind(ss[1..], ss[0].tag)..];
            if rest == [] then ip + (to - pos) >= |code|
            else Placed(labels, to, rest, outer) && At(labels, to, rest, code, ip + (to - pos)) && Size(rest) < Size(ss)
  {
    hide Placed, At, SizeStmt, CodeStmt, Code;
    var tag := ss[0].tag;
    PlacedParts(labels, pos, ss, outer);
    AtParts(labels, pos, ss, code, ip);
    SizeOf(ss[0]);
    JumpLands(labels, pos + 1, ss[1..], outer, tag);
    var k := Behind(ss[1..], tag);
    assert ss[1..][k..] == ss[1 + k..];
    if ss[1 + k..] != [] {
      AtLanding(labels, pos, ss[1..], code, ip, labels[tag] - pos - 1, labels[tag], ss[1 + k..]);
      SizeBehind(ss[1..], k);
    }
  }

  lemma AtLanding(
      labels: map<string, nat>, pos: nat, rest: seq<Stmt>, code: seq<Instr>, ip: nat, at: nat, pos': nat,
        rest': seq<Stmt>)
    requires At(labels, pos + 1, rest, code, ip + 1) && at <= Size(rest)
    requires Code(labels, pos + 1, rest)[at..] == Code(labels, pos', rest')
    ensures At(labels, pos', rest', code, ip + 1 + at)
  {
    assert code[ip + 1..][at..] == code[ip + 1 + at..];
  }

  lemma {:induction false} SizeBehind(ss: seq<Stmt>, k: nat)
    requires k <= |ss|
    ensures Size(ss[k..]) <= Size(ss)
  {
    if k == 0 {
      assert ss[0..] == ss;
    } else {
      SizeBehind(ss[1..], k - 1);
      assert ss[1..][k - 1..] == ss[k..];
    }
  }

  lemma JumpIs<C, R>(
      m: Machine<C, R>, fns: Functions, labels: map<string, nat>, pos: nat, s: Stmt, code: seq<Instr>, ip: nat, c: C)
    requires s.Jump? && ip < |code| && code[ip..ip + 1] == CodeStmt(labels, pos, s)
    requires s.tag in labels && labels[s.tag] >= pos + 1
    ensures var taken := m.cond(s.cond, c);
            StepAt(m, fns, code, ip, c) ==
            if taken.None? then Stop(Raised) else Next(if taken.value then ip + (labels[s.tag] - pos) else ip + 1, c, 1)
  {
    NotPlain();
    assert code[ip] == code[ip..ip + 1][0];
    assert (":" + s.tag)[1..] == s.tag;
    OffsetOfLength(labels[s.tag] - pos - 1);
  }

  /** A plain line, a LOOP or an EACH is one step, to the end of its code. */
  lemma {:induction false} SimulateStmt<C, R>(
      m: Machine<C, R>, fns: Functions, labels: map<string, nat>, pos: nat, ss: seq<Stmt>, outer: set<string>,
      code: seq<Instr>, ip: nat, c: C)
    returns (log: nat)
    requires Placed(labels, pos, ss, outer) && At(labels, pos, ss, code, ip)
    requires ss != [] && (ss[0].Plain? || Iterates(ss[0]))
    ensures ip < |code| && StepAt(m, fns, code, ip, c) == Go(ip + SizeStmt(ss[0]), ExecStmt(m, fns, ss[0], c), log)
    decreases ss, 0, 0
  {
    hide StepAt, Nested, Placed, At, ExecStmt, SizeStmt, CodeStmt, Code;
    var s := ss[0];
    PlacedParts(labels, pos, ss, outer);
    AtParts(labels, pos, ss, code, ip);
    SizeOf(s);
    if s.Plain? {
      log := 1;
      SimulatePlain(m, fns, labels, pos, s, code, ip, c);
    } else {
      PlacedBody(labels, pos, ss, outer);
      IterationIs(m, fns, labels, pos, s, code, ip, c);
      SimulateNested(m, fns, labels, pos, s, {s.tag} + (Ends(ss[1..]) + outer), c);
      log := 1 + Nested(m, fns, Code(labels, pos + 1, s.body), CodeStmt(labels, pos, s)[0], c).log;
    }
  }

  lemma SimulatePlain<C, R>(
      m: Machine<C, R>, fns: Functions, labels: map<string, nat>, pos: nat, s: Stmt, code: seq<Instr>, ip: nat, c: C)
    requires s.Plain? && WellFormedStmt(s) && ip < |code| && code[ip..ip + 1] == CodeStmt(labels, pos, s)
    ensures StepAt(m, fns, code, ip, c) == Go(ip + SizeStmt(s), ExecStmt(m, fns, s, c), 1)
  {
    assert code[ip] == code[ip..ip + 1][0] == s.inst;
    NotPlain();
  }

  lemma IterationIs<C, R>(
      m: Machine<C, R>, fns: Functions, labels: map<string, nat>, pos: nat, s: Stmt, code: seq<Instr>, ip: nat, c: C)
    requires Iterates(s) && ip + SizeStmt(s) <= |code| && code[ip..ip + SizeStmt(s)] == CodeStmt(labels, pos, s)
    ensures ip < |code|
    ensures var r := Nested(m, fns, Code(labels, pos + 1, s.body), CodeStmt(labels, pos, s)[0], c);
            StepAt(m, fns, code, ip, c) == Go(ip + SizeStmt(s), r.out, 1 + r.log)
  {
    hide CodeStmt, Code, Nested, StepAt, Offset, PrintOffset;
    var n := Size(s.body);
    HeadOfIteration(labels, pos, s);
    OffsetOfLength(n);
    assert code[ip] == code[ip..ip + SizeStmt(s)][0];
    NestedStep(m, fns, code, ip, n, c);
    assert code[ip + 1..ip + 1 + n] == code[ip..ip + SizeStmt(s)][1..];
  }

  lemma HeadOfIteration(labels: map<string, nat>, pos: nat, s: Stmt)
    requires Iterates(s)
    ensures CodeStmt(labels, pos, s) == [CodeStmt(labels, pos, s)[0]] + Code(labels, pos + 1, s.body)
    ensures CodeStmt(labels, pos, s)[0].opcode == "LOOP" || CodeStmt(labels, pos, s)[0].opcode == "EACH"
    ensures Arg(CodeStmt(labels, pos, s)[0], 2, "+1") == PrintOffset(Size(s.body))
  {
    hide PrintOffset, Code;
  }

  lemma NestedStep<C, R>(m: Machine<C, R>, fns: Functions, code: seq<Instr>, ip: nat, n: nat, c: C)
    requires ip < |code| && (code[ip].opcode == "LOOP" || code[ip].opcode == "EACH")
    requires Offset(Arg(code[ip], 2, "+1")) == Some(n) && ip + 1 + n <= |code|
    ensures var r := Nested(m, fns, code[ip + 1..ip + 1 + n], code[ip], c);
            StepAt(m, fns, code, ip, c) == Go(ip + 1 + n, r.out, 1 + r.log)
  {
    NotPlain();
    SliceIs(code, ip, n);
    hide Nested, PlainStep, JumpStep, Offset, Slice;
  }

  lemma SliceIs(code: seq<Instr>, ip: nat, n: nat)
    requires ip + 1 + n <= |code|
    ensures Slice(code, ip + 1, ip + 1 + n) == code[ip + 1..ip + 1 + n]
  {
  }

  lemma {:induction false} SimulateNested<C, R>(
      m: Machine<C, R>, fns: Functions, labels: map<string, nat>, pos: nat, s: Stmt, outer: set<string>, c: C)
    requires Iterates(s) && Placed(labels, pos + 1, s.body, outer)
    ensures Nested(m, fns, Code(labels, pos + 1, s.body), CodeStmt(labels, pos, s)[0], c).out == ExecStmt(m, fns, s, c)
    decreases s, 0, 0
  {
    hide Code, Placed;
    if s.Loop? {
      var iters := ParseInt(s.max);
      if iters.Some? { RunLoop(m, fns, labels, pos + 1, s.body, outer, s.cond, iters.value, c); }
    } else {
      var found := m.open(s.coll, c);
      if found.Some? { RunEach(m, fns, labels, pos + 1, s.body, outer, s.item, found.value.0, 0, found.value.1); }
    }
  }

  /** The body of a loop is a slice, run as a program of its own. */
  lemma {:induction false} RunLoop<C, R>(
      m: Machine<C, R>, fns: Functions, labels: map<string, nat>, pos: nat, body: seq<Stmt>, outer: set<string>,
      cond: string, iters: int, c: C)
    requires Placed(labels, pos, body, outer)
    ensures LoopRun(m, fns, Code(labels, pos, body), cond, iters, c).out == ExecLoop(m, fns, body, cond, iters, c)
    decreases body, 3, if iters < 0 then 0 else iters
  {
    hide Code, Placed, Run, Exec;
    if iters > 0 && m.cond(cond, c) == Some(true) {
      RunBlock(m, fns, labels, pos, body, outer, c);
      var first := Exec(m, fns, body, c);
      if first.Ok? { RunLoop(m, fns, labels, pos, body, outer, cond, iters - 1, first.ctx); }
    }
  }

  lemma {:induction false} RunEach<C, R>(
      m: Machine<C, R>, fns: Functions, labels: map<string, nat>, pos: nat, body: seq<Stmt>, outer: set<string>,
      item: string, list: R, idx: nat, c: C)
    requires Placed(labels, pos, body, outer)
    ensures EachRun(m, fns, Code(labels, pos, body), item, list, idx, c).out ==
            ExecEach(m, fns, body, item, list, idx, c)
    decreases body, 3, if idx < m.turns then m.turns - idx else 0
  {
    hide Code, Placed, Run, Exec;
    if idx < m.count(list, c) && idx < m.turns {
      var c1 := m.bind(item, list, idx, c);
      RunBlock(m, fns, labels, pos, body, outer, c1);
      var first := Exec(m, fns, body, c1);
      if first.Ok? {
        var back := m.writeBack(item, list, idx, first.ctx);
        if back.Some? { RunEach(m, fns, labels, pos, body, outer, item, list, idx + 1, back.value); }
      }
    }
  }

  /** A block's code, run as a program: 100 steps per instruction never stop it. */
  lemma {:induction false} RunBlock<C, R>(
      m: Machine<C, R>, fns: Functions, labels: map<string, nat>, pos: nat, ss: seq<Stmt>, outer: set<string>, c: C)
    requires Placed(labels, pos, ss, outer)
    ensures Run(m, fns, Code(labels, pos, ss), c).out == Exec(m, fns, ss, c)
    decreases ss, 2, 0
  {
    hide Placed;
    BoundNeverStops(m, fns, labels, pos, ss, outer, 100 * Size(ss), c);
  }

  /** With any bound of at least one step per instruction the result is that of the block. */
  lemma {:induction false} BoundNeverStops<C, R>(
      m: Machine<C, R>, fns: Functions, labels: map<string, nat>, pos: nat, ss: seq<Stmt>, outer: set<string>,
      bound: nat, c: C)
    requires Placed(labels, pos, ss, outer) && bound >= Size(ss)
    ensures Steps(m, fns, Code(labels, pos, ss), 0, bound, c).out == Exec(m, fns, ss, c)
    decreases ss, 1, 1
  {
    hide Placed, Steps, Exec;
    var code := Code(labels, pos, ss);
    assert code[0..] == code;
    SimulateBlock(m, fns, labels, pos, ss, outer, code, 0, bound, c);
  }

  lemma RunStructured<C, R>(m: Machine<C, R>, fns: Functions, ss: seq<Stmt>, c: C)
    requires Structured(ss)
    ensures Run(m, fns, Code(Positions(ss, 0), 0, ss), c).out == Exec(m, fns, ss, c)
  {
    RunBlock(m, fns, Positions(ss, 0), 0, ss, {}, c);
  }

  /** Dropping labels, resolving them to offsets and running the flat list gives the meaning of the nesting and
   *  jumps. */
  lemma FlatProgramMeansBlock<C, R>(m: Machine<C, R>, fns: Functions, ss: seq<Stmt>, c: C)
    requires Structured(ss)
    ensures Run(m, fns, ResolveLabels(Flatten(ss)), c).out == Exec(m, fns, ss, c)
  {
    CollectBlock(ss, 0, map[]);
    assert map[] + Positions(ss, 0) == Positions(ss, 0);
    ResolveBlock(ss, 0, Positions(ss, 0));
    RunStructured(m, fns, ss, c);
  }
}
