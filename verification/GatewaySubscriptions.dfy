/** `all_done` subscriptions of the gateway, with each completion and its event taken as one step.
 *
 *  A handler may enqueue further jobs while the subscriptions are being swept, a known id being skipped, and may
 *  raise: then the sweep ends there and takes nothing off the list, and a job whose "done" event it was is undone.
 *  So it is when a callback or a direct handler raises before the sweep.
 */
module GatewaySubscriptions {
  import opened Basics
  import GatewayProtocol
  import opened Text

  type Status = GatewayProtocol.Status

  datatype Sub = Sub(event: string, handler: string, waitFor: seq<string>)

  /** What a handler call does: the jobs it enqueues, and whether it returns. */
  datatype Reply = Reply(ids: seq<string>, fine: bool)

  /** `fires` lists every handler call so far, `undo` the DONE jobs whose event raised and which are still to be
   *  undone. */
  datatype Hub = Hub(statuses: map<string, Status>, subs: seq<Sub>, fires: seq<Sub>, undo: set<string>)

  predicate Matches(pattern: string, id: string) {
    if EndsWith(pattern, ".*") then pattern[..|pattern| - 2] + "." <= id else id == pattern
  }

  predicate IsExact(sub: Sub) { forall p :: p in sub.waitFor ==> !EndsWith(p, ".*") }

  /** All matches of every pattern are DONE, and there is at least one. */
  predicate AllDone(statuses: map<string, Status>, waitFor: seq<string>) {
    forall p :: p in waitFor ==>
      && (exists id :: id in statuses && Matches(p, id))
      && (forall id :: id in statuses && Matches(p, id) ==> statuses[id].Done?)
  }

  function Register(statuses: map<string, Status>, ids: seq<string>): map<string, Status>
    decreases |ids|
  {
    if ids == [] then statuses
    else Register(if ids[0] in statuses then statuses else statuses[ids[0] := GatewayProtocol.Pending], ids[1..])
  }

  /** The reply of the next call; calls beyond the given ones return. */
  function First(replies: seq<Reply>): Reply { if replies == [] then Reply([], true) else replies[0] }

  function Rest(replies: seq<Reply>): seq<Reply> { if replies == [] then [] else replies[1..] }

  datatype Swept = Swept(statuses: map<string, Status>, called: seq<Sub>, ok: bool)

  /** Run the handlers of the satisfied subscriptions from index i on, up to the first that raises. */
  function Sweep(replies: seq<Reply>, statuses: map<string, Status>, subs: seq<Sub>, i: nat): Swept
    requires i <= |subs|
    decreases |subs| - i
  {
    if i == |subs| then Swept(statuses, [], true)
    else if AllDone(statuses, subs[i].waitFor) then
      var st := Register(statuses, First(replies).ids);
      if !First(replies).fine then Swept(st, [subs[i]], false)
      else
        var s := Sweep(Rest(replies), st, subs, i + 1);
        s.(called := [subs[i]] + s.called)
    else Sweep(replies, statuses, subs, i + 1)
  }

  /** `list.remove`: drops the first element equal to x. */
  function Remove(xs: seq<Sub>, x: Sub): seq<Sub> {
    if xs == [] then [] else if xs[0] == x then xs[1..] else [xs[0]] + Remove(xs[1..], x)
  }

  function RemoveAll(xs: seq<Sub>, drop: seq<Sub>): seq<Sub>
    decreases |drop|
  {
    if drop == [] then xs else RemoveAll(Remove(xs, drop[0]), drop[1..])
  }

  /** The last part of `_fire_event`: what was called is taken off the list, if all calls returned. */
  function Fire(replies: seq<Reply>, h: Hub): Hub {
    var s := Sweep(replies, h.statuses, h.subs, 0);
    Hub(s.statuses, if s.ok then RemoveAll(h.subs, s.called) else h.subs, h.fires + s.called, h.undo)
  }

  predicate Returns(replies: seq<Reply>, h: Hub) { Sweep(replies, h.statuses, h.subs, 0).ok }

  /** Undo: the `except` block puts the job back or fails it, with its event. A step is cut when a callback or a direct
   *  handler of its event raises, so that there is no sweep. */
  datatype Step =
    | NewJob(id: string)
    | Subscribe(sub: Sub)
    | Finish(id: string, status: Status, cut: bool, replies: seq<Reply>)
    | Undo(id: string, again: bool, cut: bool, replies: seq<Reply>)

  predicate Allowed(h: Hub, step: Step) {
    match step
    case Finish(id, st, _, _) => id in h.statuses && !GatewayProtocol.Terminal(h.statuses[id])
        && GatewayProtocol.Terminal(st)
    case Undo(id, _, _, _) => id in h.undo
    case _ => true
  }

  /** The hub with the status that the step sets. */
  function Settled(h: Hub, step: Step): Hub {
    match step
    case NewJob(id) => h.(statuses := Register(h.statuses, [id]))
    case Subscribe(sub) => h.(subs := h.subs + [sub])
    case Finish(id, st, _, _) => h.(statuses := h.statuses[id := st])
    case Undo(id, again, _, _) =>
      h.(statuses := h.statuses[id := if again then GatewayProtocol.Pending else GatewayProtocol.Failed],
        undo := h.undo - {id})
  }

  /** The step comes to a sweep. */
  predicate Sweeps(step: Step) { (step.Finish? && !step.cut) || (step.Undo? && !step.again && !step.cut) }

  /** The event of the step raises. */
  predicate Raises(h: Hub, step: Step) {
    if Sweeps(step) then !Returns(step.replies, Settled(h, step)) else (step.Finish? || step.Undo?) && step.cut
  }

  function Do(h: Hub, step: Step): Hub
    requires Allowed(h, step)
  {
    var h1 := Settled(h, step);
    var h2 := if Sweeps(step) then Fire(step.replies, h1) else h1;
    if step.Finish? && step.status.Done? && Raises(h, step) then h2.(undo := h2.undo + {step.id}) else h2
  }

  predicate ValidSteps(h: Hub, steps: seq<Step>)
    decreases |steps|
  {
    steps == [] || (Allowed(h, steps[0]) && ValidSteps(Do(h, steps[0]), steps[1..]))
  }

  function AfterSteps(h: Hub, steps: seq<Step>): Hub
    requires ValidSteps(h, steps)
    decreases |steps|
  {
    if steps == [] then h else AfterSteps(Do(h, steps[0]), steps[1..])
  }

  function Times(xs: seq<Sub>, x: Sub): nat { multiset(xs)[x] }

  // ---- supporting facts ----

  /** st' knows what st knows, and new jobs are PENDING. */
  ghost predicate Extends(st: map<string, Status>, st': map<string, Status>) {
    && (forall id :: id in st ==> id in st' && st'[id] == st[id])
    && (forall id :: id in st' && id !in st ==> st'[id].Pending?)
  }

  lemma {:induction false} RegisterExtends(statuses: map<string, Status>, ids: seq<string>)
    ensures Extends(statuses, Register(statuses, ids))
    decreases |ids|
  {
    if ids != [] {
      RegisterExtends(if ids[0] in statuses then statuses else statuses[ids[0] := GatewayProtocol.Pending], ids[1..]);
    }
  }

  lemma ExactIsStable(st: map<string, Status>, st': map<string, Status>, sub: Sub)
    requires IsExact(sub) && Extends(st, st')
    ensures AllDone(st', sub.waitFor) == AllDone(st, sub.waitFor)
  {
    forall p | p in sub.waitFor
      ensures (exists id :: id in st' && Matches(p, id)) <== (exists id :: id in st && Matches(p, id))
    {
    }
    if AllDone(st', sub.waitFor) {
      forall p | p in sub.waitFor ensures exists id :: id in st && Matches(p, id) {
        var id :| id in st' && Matches(p, id);
        assert id in st;
      }
    }
  }

  lemma TimesSnoc(xs: seq<Sub>, ys: seq<Sub>, x: Sub)
    ensures Times(xs + ys, x) == Times(xs, x) + Times(ys, x)
  {
  }

  lemma TimesHead(xs: seq<Sub>, x: Sub)
    requires xs != []
    ensures Times(xs, x) == (if xs[0] == x then 1 else 0) + Times(xs[1..], x)
  {
    assert xs == [xs[0]] + xs[1..];
  }

  /** A sweep calls a subscription at most once for each time it is listed; if no call raises, an exact subscription
   *  just so often, or not at all. */
  lemma {:induction false} SweepCalls(replies: seq<Reply>, st: map<string, Status>, subs: seq<Sub>, i: nat, sub: Sub)
    requires i <= |subs|
    ensures var s := Sweep(replies, st, subs, i);
            && Extends(st, s.statuses)
            && Times(s.called, sub) <= Times(subs[i..], sub)
            && (IsExact(sub) && s.ok ==> Times(s.called, sub) == if AllDone(st, sub.waitFor) then Times(subs[i..], sub)
               else 0)
            && (IsExact(sub) && !AllDone(st, sub.waitFor) ==> Times(s.called, sub) == 0)
    decreases |subs| - i
  {
    if i < |subs| {
      TimesHead(subs[i..], sub);
      assert subs[i..][1..] == subs[i + 1..];
      if AllDone(st, subs[i].waitFor) {
        var st1 := Register(st, First(replies).ids);
        RegisterExtends(st, First(replies).ids);
        if IsExact(sub) { ExactIsStable(st, st1, sub); }
        if First(replies).fine {
          SweepCalls(Rest(replies), st1, subs, i + 1, sub);
          TimesSnoc([subs[i]], Sweep(Rest(replies), st1, subs, i + 1).called, sub);
        }
      } else {
        SweepCalls(replies, st, subs, i + 1, sub);
      }
    }
  }

  function ReplyAt(replies: seq<Reply>, k: nat): Reply { if k < |replies| then replies[k] else Reply([], true) }

  /** The calls of a sweep before its last one return; the last one returns exactly when the sweep is ok. */
  lemma {:induction false} SweepReplies(replies: seq<Reply>, st: map<string, Status>, subs: seq<Sub>, i: nat)
    requires i <= |subs|
    ensures var s := Sweep(replies, st, subs, i);
            && (s.ok <==> forall k :: 0 <= k < |s.called| ==> ReplyAt(replies, k).fine)
            && (forall k :: 0 <= k < |s.called| - 1 ==> ReplyAt(replies, k).fine)
    decreases |subs| - i
  {
    if i < |subs| {
      if AllDone(st, subs[i].waitFor) {
        assert ReplyAt(replies, 0) == First(replies);
        assert forall k: nat :: ReplyAt(replies, k + 1) == ReplyAt(Rest(replies), k);
        if First(replies).fine {
          var st1 := Register(st, First(replies).ids);
          SweepReplies(Rest(replies), st1, subs, i + 1);
          var (s, s1) := (Sweep(replies, st, subs, i), Sweep(Rest(replies), st1, subs, i + 1));
          forall k | 0 <= k < |s.called|
            ensures ReplyAt(replies, k).fine <==> k == 0 || ReplyAt(Rest(replies), k - 1).fine
          {
            if k > 0 { assert ReplyAt(replies, (k - 1) + 1) == ReplyAt(Rest(replies), k - 1); }
          }
          assert forall k: nat :: k < |s1.called| ==> ReplyAt(replies, k + 1) == ReplyAt(Rest(replies), k);
        }
      } else {
        SweepReplies(replies, st, subs, i + 1);
      }
    }
  }

  lemma {:induction false} RemoveOne(xs: seq<Sub>, x: Sub, y: Sub)
    ensures Times(Remove(xs, x), y) == (if y == x && Times(xs, x) > 0 then Times(xs, y) - 1 else Times(xs, y))
  {
    if xs != [] {
      TimesHead(xs, y);
      TimesHead(xs, x);
      if xs[0] != x {
        RemoveOne(xs[1..], x, y);
        TimesSnoc([xs[0]], Remove(xs[1..], x), y);
      }
    }
  }

  lemma {:induction false} RemoveMany(xs: seq<Sub>, drop: seq<Sub>, y: Sub)
    requires Times(drop, y) <= Times(xs, y)
    ensures Times(RemoveAll(xs, drop), y) == Times(xs, y) - Times(drop, y)
    decreases |drop|
  {
    if drop != [] {
      TimesHead(drop, y);
      RemoveOne(xs, drop[0], y);
      RemoveMany(Remove(xs, drop[0]), drop[1..], y);
    }
  }

  // ---- main results ----

  /** A sweep takes what it called off the list if all its calls returned, and nothing if one raised. */
  lemma FireMovesSubs(replies: seq<Reply>, h: Hub, sub: Sub)
    ensures var (h', called) := (Fire(replies, h), Sweep(replies, h.statuses, h.subs, 0).called);
            && Times(h'.fires, sub) == Times(h.fires, sub) + Times(called, sub)
            && Times(h'.subs, sub) == Times(h.subs, sub) - (if Returns(replies, h) then Times(called, sub) else 0)
            && Times(called, sub) <= Times(h.subs, sub)
            && (IsExact(sub) && Returns(replies, h) ==>
                  Times(called, sub) == if AllDone(h.statuses, sub.waitFor) then Times(h.subs, sub) else 0)
            && (IsExact(sub) && !AllDone(h.statuses, sub.waitFor) ==> Times(called, sub) == 0)
            && Extends(h.statuses, h'.statuses)
            && (Returns(replies, h) <==> forall k :: 0 <= k < |called| ==> ReplyAt(replies, k).fine)
  {
    var s := Sweep(replies, h.statuses, h.subs, 0);
    SweepCalls(replies, h.statuses, h.subs, 0, sub);
    SweepReplies(replies, h.statuses, h.subs, 0);
    assert h.subs[0..] == h.subs;
    RemoveMany(h.subs, s.called, sub);
    TimesSnoc(h.fires, s.called, sub);
  }

  /** A called subscription is taken off the list exactly when its own handler and every later handler of its sweep
   *  return. */
  lemma TakenOffExactly(replies: seq<Reply>, h: Hub, k: nat)
    requires k < |Sweep(replies, h.statuses, h.subs, 0).called|
    ensures var (h', called) := (Fire(replies, h), Sweep(replies, h.statuses, h.subs, 0).called);
            Times(h'.subs, called[k]) < Times(h.subs, called[k]) <==>
            forall j :: k <= j < |called| ==> ReplyAt(replies, j).fine
  {
    var called := Sweep(replies, h.statuses, h.subs, 0).called;
    FireMovesSubs(replies, h, called[k]);
    SweepReplies(replies, h.statuses, h.subs, 0);
    assert called[k] in multiset(called);
  }

  /** A sweep calls a subscription only if its patterns have matches and all of them are DONE. */
  lemma {:induction false} FiresOnlyWhenAllDone(
      replies: seq<Reply>, st: map<string, Status>, subs: seq<Sub>, i: nat, sub: Sub)
    requires i <= |subs| && sub in Sweep(replies, st, subs, i).called
    ensures AllDone(st, sub.waitFor)
    decreases |subs| - i
  {
    if AllDone(st, subs[i].waitFor) {
      if sub != subs[i] {
        var st1 := Register(st, First(replies).ids);
        RegisterExtends(st, First(replies).ids);
        FiresOnlyWhenAllDone(Rest(replies), st1, subs, i + 1, sub);
        DoneWasDone(st, st1, sub);
      }
    } else {
      FiresOnlyWhenAllDone(replies, st, subs, i + 1, sub);
    }
  }

  /** New jobs, being PENDING, satisfy nothing. */
  lemma DoneWasDone(st: map<string, Status>, st': map<string, Status>, sub: Sub)
    requires Extends(st, st') && AllDone(st', sub.waitFor)
    ensures AllDone(st, sub.waitFor)
  {
    forall p | p in sub.waitFor ensures exists id :: id in st && Matches(p, id) {
      var id :| id in st' && Matches(p, id);
      assert id in st;
    }
  }

  /** In every sweep of the steps that calls the subscription, its own and all later handlers return. */
  ghost predicate Untroubled(h: Hub, steps: seq<Step>, sub: Sub)
    requires ValidSteps(h, steps)
    decreases |steps|
  {
    steps == [] || (UntroubledStep(h, steps[0], sub) && Untroubled(Do(h, steps[0]), steps[1..], sub))
  }

  predicate UntroubledStep(h: Hub, step: Step, sub: Sub) {
    var h1 := Settled(h, step);
    Sweeps(step) && sub in Sweep(step.replies, h1.statuses, h1.subs, 0).called ==> Returns(step.replies, h1)
  }

  lemma StepMovesSubs(h: Hub, step: Step, sub: Sub)
    requires Allowed(h, step) && step != Subscribe(sub)
    ensures var h' := Do(h, step);
            && Times(h'.fires, sub) >= Times(h.fires, sub)
            && Times(h'.subs, sub) <= Times(h.subs, sub)
            && (UntroubledStep(h, step, sub) ==>
                  Times(h'.subs, sub) + Times(h'.fires, sub) == Times(h.subs, sub) + Times(h.fires, sub))
            && (Times(h.subs, sub) == 0 ==> Times(h'.fires, sub) == Times(h.fires, sub))
  {
    var h1 := Settled(h, step);
    if Sweeps(step) {
      FireMovesSubs(step.replies, h1, sub);
      var called := Sweep(step.replies, h1.statuses, h1.subs, 0).called;
      assert sub in called <==> Times(called, sub) > 0;
    } else if step.Subscribe? {
      TimesSnoc(h.subs, [step.sub], sub);
    }
  }

  /** Any subscription, with wildcards or not, fires at most as often as it was listed, if no handler from its own on
   *  raises in a sweep that calls it. */
  lemma {:induction false} FiresAtMostOnce(h: Hub, steps: seq<Step>, sub: Sub)
    requires ValidSteps(h, steps) && Subscribe(sub) !in steps && Untroubled(h, steps, sub)
    ensures var h' := AfterSteps(h, steps);
            Times(h'.subs, sub) + Times(h'.fires, sub) == Times(h.subs, sub) + Times(h.fires, sub)
    decreases |steps|
  {
    if steps != [] {
      StepMovesSubs(h, steps[0], sub);
      FiresAtMostOnce(Do(h, steps[0]), steps[1..], sub);
    }
  }

  /** What is off the list is not called. */
  lemma {:induction false} UnlistedIsSilent(h: Hub, steps: seq<Step>, sub: Sub)
    requires ValidSteps(h, steps) && Subscribe(sub) !in steps && Times(h.subs, sub) == 0
    ensures Times(AfterSteps(h, steps).fires, sub) == Times(h.fires, sub)
    decreases |steps|
  {
    if steps != [] {
      StepMovesSubs(h, steps[0], sub);
      UnlistedIsSilent(Do(h, steps[0]), steps[1..], sub);
    }
  }

  /** A listed exact subscription, called in the event of a job that is DONE now, is never called again, whatever
   *  comes, exactly when its own handler and every later handler of that sweep return: otherwise it stays listed,
   *  and the event of the next job that is finished calls it again. */
  lemma OnceExactly(h: Hub, id: string, replies: seq<Reply>, sub: Sub)
    requires IsExact(sub) && Times(h.subs, sub) == 1 && Allowed(h, Finish(id, GatewayProtocol.Done, false, replies))
    requires sub in Sweep(replies, h.statuses[id := GatewayProtocol.Done], h.subs, 0).called
    ensures var h' := Do(h, Finish(id, GatewayProtocol.Done, false, replies));
            (forall steps :: ValidSteps(h', steps) && Subscribe(sub) !in steps ==>
               Times(AfterSteps(h', steps).fires, sub) == Times(h'.fires, sub)) <==>
            Returns(replies, h.(statuses := h.statuses[id := GatewayProtocol.Done]))
  {
    var h1 := h.(statuses := h.statuses[id := GatewayProtocol.Done]);
    var h' := Do(h, Finish(id, GatewayProtocol.Done, false, replies));
    FireMovesSubs(replies, h1, sub);
    if Returns(replies, h1) {
      forall steps | ValidSteps(h', steps) && Subscribe(sub) !in steps
        ensures Times(AfterSteps(h', steps).fires, sub) == Times(h'.fires, sub)
      {
        UnlistedIsSilent(h', steps, sub);
      }
    } else {
      FiresOnlyWhenAllDone(replies, h1.statuses, h1.subs, 0, sub);
      ExactIsStable(h1.statuses, h'.statuses, sub);
      var other := FreshId(h'.statuses.Keys);
      CalledAgain(h', other, sub);
    }
  }

  /** An id that is not taken. */
  lemma FreshId(ids: set<string>) returns (id: string)
    ensures id !in ids
  {
    var n := LongerThan(ids);
    id := seq(n, i => 'x');
  }

  lemma {:induction false} LongerThan(ids: set<string>) returns (n: nat)
    ensures forall id :: id in ids ==> |id| < n
  {
    n := 0;
    if id :| id in ids {
      var n1 := LongerThan(ids - {id});
      n := if n1 <= |id| then |id| + 1 else n1;
    }
  }

  /** Another job is enqueued and finished. */
  lemma CalledAgain(h: Hub, id: string, sub: Sub)
    requires IsExact(sub) && Times(h.subs, sub) == 1 && AllDone(h.statuses, sub.waitFor) && id !in h.statuses
    ensures var steps := [NewJob(id), Finish(id, GatewayProtocol.Done, false, [])];
            ValidSteps(h, steps) && Times(AfterSteps(h, steps).fires, sub) > Times(h.fires, sub)
  {
    var (add, finish) := (NewJob(id), Finish(id, GatewayProtocol.Done, false, []));
    var h1 := Do(h, add);
    assert [add, finish][1..] == [finish] && [finish][1..] == [];
    assert h1.statuses == h.statuses[id := GatewayProtocol.Pending] by {
      assert [id][1..] == [];
      assert Register(h.statuses, [id]) == Register(h.statuses[id := GatewayProtocol.Pending], []);
    }
    var h2 := h1.(statuses := h1.statuses[id := GatewayProtocol.Done]);
    AnotherDone(h.statuses, h2.statuses, id, sub);
    NoRepliesReturn(h2.statuses, h2.subs, 0);
    FireMovesSubs([], h2, sub);
    assert ValidSteps(Do(h1, finish), []);
    assert ValidSteps(h1, [finish]);
    assert AfterSteps(h1, [finish]) == Do(h1, finish);
    assert AfterSteps(h, [add, finish]) == AfterSteps(h1, [finish]);
  }

  lemma AnotherDone(st: map<string, Status>, st': map<string, Status>, id: string, sub: Sub)
    requires IsExact(sub) && AllDone(st, sub.waitFor) && id !in st && st' == st[id := GatewayProtocol.Done]
    ensures AllDone(st', sub.waitFor)
  {
    forall p | p in sub.waitFor ensures exists k :: k in st' && Matches(p, k) {
      var k :| k in st && Matches(p, k);
      assert k in st';
    }
  }

  lemma {:induction false} NoRepliesReturn(st: map<string, Status>, subs: seq<Sub>, i: nat)
    requires i <= |subs|
    ensures Sweep([], st, subs, i).ok
    decreases |subs| - i
  {
    if i < |subs| { NoRepliesReturn(if AllDone(st, subs[i].waitFor) then Register(st, []) else st, subs, i + 1); }
  }

  /** Not yet satisfied, not fired and listed once, or fired and off the list. */
  ghost predicate Tracked(h: Hub, sub: Sub, before: nat) {
    || (Times(h.subs, sub) == 1 && Times(h.fires, sub) == before && !AllDone(h.statuses, sub.waitFor))
    || (Times(h.subs, sub) == 0 && Times(h.fires, sub) == before + 1)
  }

  /** No handler or callback raises. */
  predicate SmoothStep(h: Hub, step: Step) { !Raises(h, step) }

  ghost predicate Smooth(h: Hub, steps: seq<Step>)
    requires ValidSteps(h, steps)
    decreases |steps|
  {
    steps == [] || (SmoothStep(h, steps[0]) && Smooth(Do(h, steps[0]), steps[1..]))
  }

  lemma FireKeepsTracked(replies: seq<Reply>, h: Hub, sub: Sub, before: nat)
    requires IsExact(sub) && Returns(replies, h)
    requires (Times(h.subs, sub) == 1 && Times(h.fires, sub) == before)
             || (Times(h.subs, sub) == 0 && Times(h.fires, sub) == before + 1)
    ensures var h' := Fire(replies, h);
            && Tracked(h', sub, before) && Extends(h.statuses, h'.statuses) && h'.undo == h.undo
            && (Times(h.subs, sub) == 1 && Times(h'.subs, sub) == 0 ==> AllDone(h.statuses, sub.waitFor))
  {
    FireMovesSubs(replies, h, sub);
    hide AllDone, Sweep, Times;
    ExactIsStable(h.statuses, Fire(replies, h).statuses, sub);
  }

  lemma StepKeepsTracked(h: Hub, step: Step, sub: Sub, before: nat)
    requires IsExact(sub) && Tracked(h, sub, before) && Allowed(h, step) && step != Subscribe(sub)
             && SmoothStep(h, step)
    requires h.undo <= h.statuses.Keys
    ensures Tracked(Do(h, step), sub, before) && Do(h, step).undo <= Do(h, step).statuses.Keys
    ensures Times(h.subs, sub) == 1 && Times(Do(h, step).subs, sub) == 0 ==>
              step.Finish? && step.status.Done? && step.id in sub.waitFor
  {
    hide AllDone, Fire, Sweep, Times;
    match step
    case NewJob(id) =>
      RegisterExtends(h.statuses, [id]);
      ExactIsStable(h.statuses, Register(h.statuses, [id]), sub);
    case Subscribe(other) =>
      TimesSnoc(h.subs, [other], sub);
      TimesHead([other], sub);
      assert [other][1..] == [];
      NoTimes(sub);
    case Finish(id, st, _, replies) =>
      FireKeepsTracked(replies, h.(statuses := h.statuses[id := st]), sub, before);
      ChangeSettles(h.statuses, id, st, sub);
    case Undo(id, again, _, replies) =>
      ChangeSettles(h.statuses, id, if again then GatewayProtocol.Pending else GatewayProtocol.Failed, sub);
      if !again { FireKeepsTracked(replies, Settled(h, step), sub, before); }
  }

  lemma NoTimes(sub: Sub)
    ensures Times([], sub) == 0
  {
  }

  /** A change of one status can only satisfy a subscription that waits for that job, and only by DONE. */
  lemma ChangeSettles(st: map<string, Status>, id: string, s: Status, sub: Sub)
    requires IsExact(sub) && id in st
    ensures AllDone(st[id := s], sub.waitFor) ==> AllDone(st, sub.waitFor) || (s.Done? && id in sub.waitFor)
  {
    if AllDone(st[id := s], sub.waitFor) && !(s.Done? && id in sub.waitFor) {
      forall p | p in sub.waitFor
        ensures (exists k :: k in st && Matches(p, k)) && (forall k :: k in st && Matches(p, k) ==> st[k].Done?)
      {
        var k :| k in st[id := s] && Matches(p, k);
        assert k == p && k in st;
      }
    }
  }

  /** An exact subscription made before its last job finishes fires once, in the event in which that job is DONE, and
   *  never again, if no handler or callback raises. */
  lemma {:induction false} FiresExactlyOnce(h: Hub, steps: seq<Step>, sub: Sub, before: nat)
    requires IsExact(sub) && Tracked(h, sub, before) && ValidSteps(h, steps) && Subscribe(sub) !in steps
    requires Smooth(h, steps) && h.undo <= h.statuses.Keys
    ensures Tracked(AfterSteps(h, steps), sub, before)
    decreases |steps|
  {
    if steps != [] {
      StepKeepsTracked(h, steps[0], sub, before);
      FiresExactlyOnce(Do(h, steps[0]), steps[1..], sub, before);
    }
  }

  // ---- the code ----

  class EventHub {
    var statuses: map<string, Status>
    var allDoneSubs: seq<Sub>
    var fires: seq<Sub>

    constructor ()
      ensures statuses == map[] && allDoneSubs == [] && fires == []
    {
      statuses, allDoneSubs, fires := map[], [], [];
    }

    /** `_check_all_done`. */
    method CheckAllDone(sub: Sub) returns (ok: bool)
      ensures ok == AllDone(statuses, sub.waitFor)
    {
      for n := 0 to |sub.waitFor|
        invariant AllDone(statuses, sub.waitFor[..n])
      {
        var pattern := sub.waitFor[n];
        var matching := set id | id in statuses && Matches(pattern, id);
        if matching == {} || exists id :: id in matching && !statuses[id].Done? {
          assert pattern in sub.waitFor;
          if matching == {} {
            assert forall id :: id in statuses ==> !Matches(pattern, id) by {
              forall id | id in statuses ensures !Matches(pattern, id) {
                assert id in matching <==> Matches(pattern, id);
              }
            }
          }
          return false;
        }
        assert exists id :: id in statuses && Matches(pattern, id) by {
          var id :| id in matching;
        }
        assert sub.waitFor[..n + 1] == sub.waitFor[..n] + [pattern];
      }
      assert sub.waitFor[..|sub.waitFor|] == sub.waitFor;
      return true;
    }

    /** The handler of a subscription enqueues jobs, and returns or raises. */
    method RunHandler(sub: Sub, reply: Reply) returns (ok: bool)
      modifies this`statuses, this`fires
      ensures statuses == Register(old(statuses), reply.ids) && fires == old(fires) + [sub] && ok == reply.fine
    {
      fires := fires + [sub];
      var ids := reply.ids;
      for n := 0 to |ids|
        invariant Register(statuses, ids[n..]) == Register(old(statuses), ids) && fires == old(fires) + [sub]
      {
        assert ids[n..][1..] == ids[n + 1..];
        if ids[n] !in statuses {
          statuses := statuses[ids[n] := GatewayProtocol.Pending];
        }
      }
      return reply.fine;
    }

    /** The `all_done` part of `_fire_event`: run what is satisfied, then take it off the list; false when it raises. */
    method FireAllDone(replies: seq<Reply>) returns (ok: bool)
      modifies this
      ensures Hub(statuses, allDoneSubs, fires, {}) == Fire(replies, old(Hub(statuses, allDoneSubs, fires, {})))
      ensures ok == Returns(replies, old(Hub(statuses, allDoneSubs, fires, {})))
    {
      var fired: seq<Sub> := [];
      var subs, left := allDoneSubs, replies;
      ghost var all := Sweep(replies, statuses, subs, 0);
      for n := 0 to |subs|
        invariant allDoneSubs == subs && fires == old(fires) + fired
        invariant var s := Sweep(left, statuses, subs, n);
                  s.statuses == all.statuses && fired + s.called == all.called && s.ok == all.ok
      {
        var done := CheckAllDone(subs[n]);
        if done {
          var returned := RunHandler(subs[n], First(left));
          if !returned {
            assert fires == old(fires) + all.called;
            return false;
          }
          ghost var rest := Sweep(Rest(left), statuses, subs, n + 1).called;
          assert fired + ([subs[n]] + rest) == (fired + [subs[n]]) + rest;
          fired := fired + [subs[n]];
          left := Rest(left);
        }
      }
      assert fired + [] == fired;
      for n := 0 to |fired|
        invariant RemoveAll(allDoneSubs, fired[n..]) == RemoveAll(subs, fired)
        invariant statuses == all.statuses && fired == all.called && all.ok && fires == old(fires) + fired
      {
        assert fired[n..][1..] == fired[n + 1..];
        allDoneSubs := Remove(allDoneSubs, fired[n]);
      }
      return true;
    }
  }
}
