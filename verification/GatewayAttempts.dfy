/** How often the jobs of a worker are attempted and moved on, in any interleaving. */
module GatewayAttempts {
  import opened Basics
  import opened GatewayProtocol

  /** No queue holds the job and no thread works on it. */
  ghost predicate Gone(s: State, id: JobId) {
    && id in s.jobs
    && (forall w :: w in s.queues ==> id !in s.queues[w])
    && forall t :: t in s.pcs ==> Held(s.pcs[t]) != Some(id)
  }

  function Retries(j: Job): nat { if j.retriesLeft > 0 then j.retriesLeft else 0 }

  /** A bound for each job, summed up; none for jobs that are gone. */
  ghost function Budget(s: State, ids: set<JobId>, per: Job -> nat): nat
    requires ids <= s.jobs.Keys
  {
    if ids == {} then 0
    else var id :| id in ids; (if Gone(s, id) then 0 else per(s.jobs[id])) + Budget(s, ids - {id}, per)
  }

  /** The job that an action is counted for. */
  type Counting = (State, Action) -> Option<JobId>

  /** The attempts: the calls of `_execute_job`. */
  function AttemptOf(s: State, a: Action): Option<JobId> {
    if a.Work? && a.section.Acquire? && a.t in s.pcs && s.pcs[a.t].At? then Some(s.pcs[a.t].id) else None
  }

  function Tries(j: Job): nat { Retries(j) + 1 }

  /** How many actions of a run count for the jobs of `ids`. */
  ghost function Made(workers: map<Worker, Url>, s: State, run: seq<Action>, ids: set<JobId>, of: Counting): nat
    requires ValidRun(workers, s, run)
    decreases |run|
  {
    if run == [] then 0
    else (if of(s, run[0]).Some? && of(s, run[0]).value in ids then 1 else 0)
         + Made(workers, Apply(workers, s, run[0]), run[1..], ids, of)
  }

  /** Those of the dispatchers of one worker. */
  ghost function MadeBy(workers: map<Worker, Url>, s: State, run: seq<Action>, w: Worker): nat
    requires ValidRun(workers, s, run)
    decreases |run|
  {
    if run == [] then 0
    else (if AttemptOf(s, run[0]).Some? && s.pcs[run[0].t].worker == w then 1 else 0)
         + MadeBy(workers, Apply(workers, s, run[0]), run[1..], w)
  }

  // ---- one job ----

  lemma JobAfter(workers: map<Worker, Url>, s: State, a: Action, id: JobId)
    requires Enabled(workers, s, a) && id in s.jobs
    ensures var s' := Apply(workers, s, a);
            && id in s'.jobs
            && var (j, j') := (s.jobs[id], s'.jobs[id]);
               && j'.worker == j.worker && j'.retry == j.retry && Retries(j') <= Retries(j)
               && (j.retriesLeft >= 0 <==> j'.retriesLeft >= 0)
               && (j.retriesLeft < 0 ==> j'.retriesLeft == j.retriesLeft)
               && j'.attempts == j.attempts + if AttemptOf(s, a) == Some(id) then 1 else 0
  {
    hide PopPending, QueueOf, NextPc, NextLocks, NextEvents;
  }

  lemma GoneStays(workers: map<Worker, Url>, s: State, a: Action, id: JobId)
    requires TokenInv(s) && Enabled(workers, s, a) && Gone(s, id)
    ensures Gone(Apply(workers, s, a), id) && AttemptOf(s, a) != Some(id)
  {
    match a
    case Pop(t) => GonePastPop(s, t, id);
    case Work(t, sec) => GonePastWork(workers, s, t, sec, id);
    case _ => GonePastOthers(workers, s, a, id);
  }

  lemma GonePastPop(s: State, t: Tid, id: JobId)
    requires QueueInv(s) && t in s.pcs && s.pcs[t].Idle? && Gone(s, id)
    ensures Gone(DoPop(s, t), id)
  {
    if s.pcs[t].worker in s.queues { PopLeaves(s.jobs, s.pcs[t].worker, s.queues[s.pcs[t].worker]); }
    hide PopPending, QueueInv, QueueOk;
  }

  lemma GonePastWork(workers: map<Worker, Url>, s: State, t: Tid, sec: Section, id: JobId)
    requires Enabled(workers, s, Work(t, sec)) && Gone(s, id)
    ensures Gone(DoWork(workers, s, t, sec), id) && s.pcs[t].id != id
  {
    assert Held(s.pcs[t]) != Some(id);
    hide NextLocks, NextEvents, NextJob;
  }

  lemma GonePastOthers(workers: map<Worker, Url>, s: State, a: Action, id: JobId)
    requires Enabled(workers, s, a) && Gone(s, id) && !a.Pop? && !a.Work?
    ensures Gone(Apply(workers, s, a), id)
  {
    hide PopPending;
  }

  lemma {:induction false} MadeOfGone(workers: map<Worker, Url>, s: State, run: seq<Action>, id: JobId)
    requires TokenInv(s) && ValidRun(workers, s, run) && Gone(s, id)
    ensures Made(workers, s, run, {id}, AttemptOf) == 0
    decreases |run|
  {
    if run != [] {
      ApplyKeepsTokens(workers, s, run[0]);
      GoneStays(workers, s, run[0], id);
      hide TokenInv, Gone, Apply, Enabled;
      MadeOfGone(workers, Apply(workers, s, run[0]), run[1..], id);
    }
  }

  lemma {:induction false} MadeIsCounted(workers: map<Worker, Url>, s: State, run: seq<Action>, id: JobId)
    requires TokenInv(s) && ValidRun(workers, s, run) && id in s.jobs
    ensures var s' := After(workers, s, run);
            && TokenInv(s') && id in s'.jobs
            && var (j, j') := (s.jobs[id], s'.jobs[id]);
               && j'.retry == j.retry && Made(workers, s, run, {id}, AttemptOf) == j'.attempts - j.attempts
               && (j.retriesLeft >= 0 <==> j'.retriesLeft >= 0)
               && (j.retriesLeft < 0 ==> j'.retriesLeft == j.retriesLeft)
    decreases |run|
  {
    if run != [] {
      ApplyKeepsTokens(workers, s, run[0]);
      JobAfter(workers, s, run[0], id);
      hide TokenInv, Apply, Enabled;
      MadeIsCounted(workers, Apply(workers, s, run[0]), run[1..], id);
    }
  }

  /** From any reachable state on, a job is attempted at most once more than it has retries left, whatever else happens,
   *  and not at all when it is in no queue and no thread works on it. */
  lemma JobIsWithinBudget(workers: map<Worker, Url>, s: State, run: seq<Action>, id: JobId)
    requires TokenInv(s) && ValidRun(workers, s, run) && id in s.jobs
    ensures Made(workers, s, run, {id}, AttemptOf) <= if Gone(s, id) then 0 else Tries(s.jobs[id])
  {
    if Gone(s, id) {
      MadeOfGone(workers, s, run, id);
    } else {
      MadeIsCounted(workers, s, run, id);
      assert JobOk(s.jobs[id]) && JobOk(After(workers, s, run).jobs[id]);
    }
  }

  // ---- all jobs of a worker ----

  lemma {:induction false} MadeSplits(
      workers: map<Worker, Url>, s: State, run: seq<Action>, ids: set<JobId>, id: JobId, of: Counting)
    requires ValidRun(workers, s, run) && id in ids
    ensures Made(workers, s, run, ids, of) == Made(workers, s, run, {id}, of) + Made(workers, s, run, ids - {id}, of)
    decreases |run|
  {
    if run != [] {
      hide Apply, Enabled;
      MadeSplits(workers, Apply(workers, s, run[0]), run[1..], ids, id, of);
    }
  }

  lemma {:induction false} MadeOfNone(workers: map<Worker, Url>, s: State, run: seq<Action>, of: Counting)
    requires ValidRun(workers, s, run)
    ensures Made(workers, s, run, {}, of) == 0
    decreases |run|
  {
    if run != [] {
      hide Apply, Enabled;
      MadeOfNone(workers, Apply(workers, s, run[0]), run[1..], of);
    }
  }

  lemma {:induction false} JobsAreWithinBudget(
      workers: map<Worker, Url>, s: State, run: seq<Action>, ids: set<JobId>, of: Counting, per: Job -> nat)
    requires ValidRun(workers, s, run) && ids <= s.jobs.Keys
    requires forall id :: id in ids ==> Made(workers, s, run, {id}, of) <= if Gone(s, id) then 0 else per(s.jobs[id])
    ensures Made(workers, s, run, ids, of) <= Budget(s, ids, per)
    decreases |ids|
  {
    hide Made, ValidRun, Gone;
    if ids == {} {
      MadeOfNone(workers, s, run, of);
    } else {
      var id :| id in ids && Budget(s, ids, per) ==
        (if Gone(s, id) then 0 else per(s.jobs[id])) + Budget(s, ids - {id}, per);
      MadeSplits(workers, s, run, ids, id, of);
      JobsAreWithinBudget(workers, s, run, ids - {id}, of, per);
    }
  }

  function JobsOf(s: State, w: Worker): set<JobId> { set id | id in s.jobs && s.jobs[id].worker == w }

  lemma JobsOfStay(workers: map<Worker, Url>, s: State, a: Action, w: Worker)
    requires TokenInv(s) && Enabled(workers, s, a) && !a.Enqueue?
    ensures JobsOf(Apply(workers, s, a), w) == JobsOf(s, w)
    ensures AttemptOf(s, a).Some? ==> (s.pcs[a.t].worker == w <==> s.pcs[a.t].id in JobsOf(s, w))
  {
    var s' := Apply(workers, s, a);
    assert s'.jobs.Keys == s.jobs.Keys;
    forall id | id in s.jobs ensures s'.jobs[id].worker == s.jobs[id].worker { JobAfter(workers, s, a, id); }
    if AttemptOf(s, a).Some? { assert HolderInPlace(s, s.pcs[a.t]); }
  }

  lemma {:induction false} MadeByIsMade(workers: map<Worker, Url>, s: State, run: seq<Action>, w: Worker)
    requires TokenInv(s) && ValidRun(workers, s, run) && forall a :: a in run ==> !a.Enqueue?
    ensures MadeBy(workers, s, run, w) == Made(workers, s, run, JobsOf(s, w), AttemptOf)
    decreases |run|
  {
    if run != [] {
      ApplyKeepsTokens(workers, s, run[0]);
      JobsOfStay(workers, s, run[0], w);
      hide TokenInv, Apply, Enabled, JobsOf;
      MadeByIsMade(workers, Apply(workers, s, run[0]), run[1..], w);
    }
  }

  /** With no new jobs, in any interleaving of any number of threads, with cancels, crashes and raising callbacks, the
   *  dispatchers of a worker make at most as many attempts as the jobs that are still about have retries left, and one
   *  for each. */
  lemma WorkerIsWithinBudget(workers: map<Worker, Url>, before: seq<Action>, run: seq<Action>, w: Worker)
    requires ValidRun(workers, Init, before) && ValidRun(workers, After(workers, Init, before), run)
    requires forall a :: a in run ==> !a.Enqueue?
    ensures var s := After(workers, Init, before);
            MadeBy(workers, s, run, w) <= Budget(s, JobsOf(s, w), Tries)
  {
    var s := After(workers, Init, before);
    RunKeepsTokens(workers, Init, before);
    MadeByIsMade(workers, s, run, w);
    forall id | id in JobsOf(s, w)
      ensures Made(workers, s, run, {id}, AttemptOf) <= if Gone(s, id) then 0 else Tries(s.jobs[id])
    {
      JobIsWithinBudget(workers, s, run, id);
    }
    JobsAreWithinBudget(workers, s, run, JobsOf(s, w), AttemptOf, Tries);
  }

  // ---- every step of a job ----

  /** The job that an action moves on: any work on it, putting it into its queue, and taking it out. */
  function StepOf(s: State, a: Action): Option<JobId> {
    match a
    case Work(t, _) => if t in s.pcs && s.pcs[t].At? then Some(s.pcs[t].id) else None
    case Insert(t) => if t in s.pcs && s.pcs[t].Registered? then Some(s.pcs[t].id) else None
    case Requeue(t) => if t in s.pcs && Is(s.pcs[t], Requeueing) then Some(s.pcs[t].id) else None
    case Pop(t) => if t in s.pcs && s.pcs[t].Idle? then PopPending(s.jobs, QueueOf(s, s.pcs[t].worker)).1 else None
    case _ => None
  }

  /** The steps to come before the job is gone or back in its queue. */
  function Rank(pc: Pc): nat {
    if pc.Registered? then 13
    else if !pc.At? then 0
    else
      match pc.phase
      case Requeueing => 13
      case Popped => 11
      case Activated => 10
      case Executing => 9
      case Returned => 8
      case FiringDone => 7
      case Notifying => 6
      case Caught => 5
      case FiringFailed => 4
      case Crashed => 0
  }

  function Moves(j: Job): nat { 20 * Retries(j) + 13 }

  /** The job has at most n steps to come. */
  ghost predicate Left(s: State, id: JobId, n: nat) {
    && id in s.jobs
    && (forall t :: t in s.pcs && Held(s.pcs[t]) == Some(id) ==> 20 * Retries(s.jobs[id]) + Rank(s.pcs[t]) <= n)
    && (forall w :: w in s.queues && id in s.queues[w] ==> 20 * Retries(s.jobs[id]) + 12 <= n)
  }

  lemma SectionPays(sec: Section, pc: Pc, j: Job)
    requires StartsAt(sec, pc)
    ensures var pc' := NextPc(sec, pc.worker, pc.id, j);
            && Rank(pc) > 0
            && (pc'.Some? && Held(pc'.value).Some? ==>
                  pc'.value.id == pc.id && 20 * Retries(NextJob(sec, j)) + Rank(pc'.value) < 20 * Retries(j) + Rank(pc))
  {
  }

  /** A held job is in no queue. */
  lemma HeldIsNotQueued(s: State, t: Tid)
    requires TokenInv(s) && t in s.pcs && Held(s.pcs[t]).Some?
    ensures s.pcs[t].id in s.jobs && forall w :: w in s.queues ==> s.pcs[t].id !in s.queues[w]
  {
    assert HolderInPlace(s, s.pcs[t]);
    forall w | w in s.queues ensures s.pcs[t].id !in s.queues[w] {
      assert QueueOk(s.jobs, w, s.queues[w]);
      assert s.pcs[t].id in s.queues[w] ==> QueuedOk(w, s.jobs[s.pcs[t].id]);
    }
  }

  lemma WorkPays(workers: map<Worker, Url>, s: State, t: Tid, sec: Section, id: JobId, n: nat)
    requires TokenInv(s) && Enabled(workers, s, Work(t, sec)) && Left(s, id, n)
    ensures if s.pcs[t].id == id then n > 0 && Left(DoWork(workers, s, t, sec), id, n - 1)
            else Left(DoWork(workers, s, t, sec), id, n)
  {
    if s.pcs[t].id == id { OwnWorkPays(workers, s, t, sec, n); } else { OtherWorkPays(workers, s, t, sec, id, n); }
  }

  lemma OwnWorkPays(workers: map<Worker, Url>, s: State, t: Tid, sec: Section, n: nat)
    requires TokenInv(s) && Enabled(workers, s, Work(t, sec)) && Left(s, s.pcs[t].id, n)
    ensures n > 0 && Left(DoWork(workers, s, t, sec), s.pcs[t].id, n - 1)
  {
    HeldIsNotQueued(s, t);
    assert forall u :: u in s.pcs && u != t ==> Held(s.pcs[u]) != Some(s.pcs[t].id);
    SectionPays(sec, s.pcs[t], s.jobs[s.pcs[t].id]);
    hide TokenInv, QueueInv, ThreadInv, LiveInv, HolderInPlace, NextPc, NextJob, NextLocks, NextEvents, Rank, Retries;
    assert 20 * Retries(s.jobs[s.pcs[t].id]) + Rank(s.pcs[t]) <= n;
  }

  lemma OtherWorkPays(workers: map<Worker, Url>, s: State, t: Tid, sec: Section, id: JobId, n: nat)
    requires Enabled(workers, s, Work(t, sec)) && Left(s, id, n) && s.pcs[t].id != id
    ensures Left(DoWork(workers, s, t, sec), id, n)
  {
    SectionPays(sec, s.pcs[t], s.jobs[s.pcs[t].id]);
    hide NextPc, NextJob, NextLocks, NextEvents, Rank, Retries;
  }

  lemma InsertPays(workers: map<Worker, Url>, s: State, a: Action, id: JobId, n: nat)
    requires TokenInv(s) && Enabled(workers, s, a) && (a.Insert? || a.Requeue?) && Left(s, id, n)
    ensures var s' := Apply(workers, s, a);
            if s.pcs[a.t].id == id then n > 0 && Left(s', id, n - 1) else Left(s', id, n)
  {
    hide QueueInv, LiveInv, HolderInPlace, Retries;
  }

  lemma PopPays(s: State, t: Tid, id: JobId, n: nat)
    requires TokenInv(s) && t in s.pcs && s.pcs[t].Idle? && Left(s, id, n)
    ensures if StepOf(s, Pop(t)) == Some(id) then n > 0 && Left(DoPop(s, t), id, n - 1) else Left(DoPop(s, t), id, n)
  {
    var w := s.pcs[t].worker;
    if w in s.queues {
      PopLeaves(s.jobs, w, s.queues[w]);
      if StepOf(s, Pop(t)) == Some(id) { QueuedIsNowhereElse(s, w, id); }
    }
    hide QueueInv, ThreadInv, LiveInv, PopPending, Retries;
  }

  /** A queued job is in no other queue, and no thread holds it. */
  lemma QueuedIsNowhereElse(s: State, w: Worker, id: JobId)
    requires TokenInv(s) && w in s.queues && id in s.queues[w]
    ensures (forall v :: v in s.queues && v != w ==> id !in s.queues[v]) && forall t :: t in s.pcs ==>
            Held(s.pcs[t]) != Some(id)
  {
    assert QueueOk(s.jobs, w, s.queues[w]) && QueuedOk(w, s.jobs[id]);
    forall v | v in s.queues && id in s.queues[v] ensures v == w { assert QueueOk(s.jobs, v, s.queues[v]); }
    forall t | t in s.pcs && Held(s.pcs[t]) == Some(id) ensures false { HeldIsNotQueued(s, t); }
  }

  lemma OthersPay(workers: map<Worker, Url>, s: State, a: Action, id: JobId, n: nat)
    requires Enabled(workers, s, a) && Left(s, id, n) && !a.Work? && !a.Pop? && !a.Insert? && !a.Requeue?
    ensures Left(Apply(workers, s, a), id, n)
  {
    hide QueueOf, PopPending;
  }

  lemma StepPays(workers: map<Worker, Url>, s: State, a: Action, id: JobId, n: nat)
    requires TokenInv(s) && Enabled(workers, s, a) && Left(s, id, n)
    ensures if StepOf(s, a) == Some(id) then n > 0 && Left(Apply(workers, s, a), id, n - 1)
            else Left(Apply(workers, s, a), id, n)
  {
    match a
    case Work(t, sec) => WorkPays(workers, s, t, sec, id, n);
    case Insert(_) => InsertPays(workers, s, a, id, n);
    case Requeue(_) => InsertPays(workers, s, a, id, n);
    case Pop(t) => PopPays(s, t, id, n);
    case _ => OthersPay(workers, s, a, id, n);
  }

  lemma {:induction false} MovesAreBounded(workers: map<Worker, Url>, s: State, run: seq<Action>, id: JobId, n: nat)
    requires TokenInv(s) && ValidRun(workers, s, run) && Left(s, id, n)
    ensures Made(workers, s, run, {id}, StepOf) <= n
    decreases |run|
  {
    if run != [] {
      ApplyKeepsTokens(workers, s, run[0]);
      StepPays(workers, s, run[0], id, n);
      hide TokenInv, Apply, Enabled, Left, StepOf;
      MovesAreBounded(workers, Apply(workers, s, run[0]), run[1..], id, if StepOf(s, run[0]) == Some(id) then n - 1
        else n);
    }
  }

  /** From any reachable state on, every run makes a bounded number of steps with the jobs that are there; all else
   *  are idle pops and what clients, new jobs and new dispatchers do. */
  lemma StepsAreBounded(workers: map<Worker, Url>, before: seq<Action>, run: seq<Action>)
    requires ValidRun(workers, Init, before) && ValidRun(workers, After(workers, Init, before), run)
    ensures var s := After(workers, Init, before);
            Made(workers, s, run, s.jobs.Keys, StepOf) <= Budget(s, s.jobs.Keys, Moves)
  {
    var s := After(workers, Init, before);
    RunKeepsTokens(workers, Init, before);
    forall id | id in s.jobs.Keys
      ensures Made(workers, s, run, {id}, StepOf) <= if Gone(s, id) then 0 else Moves(s.jobs[id])
    {
      MovesAreBounded(workers, s, run, id, if Gone(s, id) then 0 else Moves(s.jobs[id]));
    }
    JobsAreWithinBudget(workers, s, run, s.jobs.Keys, StepOf, Moves);
  }

  // ---- where no job can be moved on ----

  /** A held lock is held by a thread that executes. */
  ghost predicate LocksInUse(s: State) {
    forall key :: key in s.locks ==> s.locks[key] in s.pcs && Is(s.pcs[s.locks[key]], Executing)
  }

  /** Under the lock of its own endpoint alone. */
  ghost predicate LocksOfOwn(workers: map<Worker, Url>, s: State) {
    forall key :: key in s.locks && s.locks[key] in s.pcs && s.pcs[s.locks[key]].At? ==>
      EndpointKey(workers, s.pcs[s.locks[key]].worker) == key
  }

  lemma ApplyKeepsLocksInUse(workers: map<Worker, Url>, s: State, a: Action)
    requires Enabled(workers, s, a) && LocksInUse(s) && LocksOfOwn(workers, s)
    ensures LocksInUse(Apply(workers, s, a)) && LocksOfOwn(workers, Apply(workers, s, a))
  {
    if a.Work? { WorkKeepsLocksInUse(workers, s, a.t, a.section); } else { OthersKeepLocksInUse(workers, s, a); }
  }

  lemma WorkKeepsLocksInUse(workers: map<Worker, Url>, s: State, t: Tid, sec: Section)
    requires Enabled(workers, s, Work(t, sec)) && LocksInUse(s) && LocksOfOwn(workers, s)
    ensures LocksInUse(DoWork(workers, s, t, sec)) && LocksOfOwn(workers, DoWork(workers, s, t, sec))
  {
    var s' := DoWork(workers, s, t, sec);
    forall key | key in s'.locks
      ensures s'.locks[key] in s'.pcs && Is(s'.pcs[s'.locks[key]], Executing)
      ensures EndpointKey(workers, s'.pcs[s'.locks[key]].worker) == key
    {
      WorkKeepsLockInUse(workers, s, t, sec, key);
    }
  }

  lemma WorkKeepsLockInUse(workers: map<Worker, Url>, s: State, t: Tid, sec: Section, key: Url)
    requires Enabled(workers, s, Work(t, sec)) && LocksInUse(s) && LocksOfOwn(workers, s)
             && key in DoWork(workers, s, t, sec).locks
    ensures var s' := DoWork(workers, s, t, sec);
            && s'.locks[key] in s'.pcs && Is(s'.pcs[s'.locks[key]], Executing)
            && EndpointKey(workers, s'.pcs[s'.locks[key]].worker) == key
  {
    SectionLocks(sec, s.pcs[t], s.jobs[s.pcs[t].id]);
    hide EndpointKey, NextJob, NextEvents, NextPc;
    var own := EndpointKey(workers, s.pcs[t].worker);
    if !(sec.Acquire? && key == own) {
      assert key in s.locks && Is(s.pcs[s.locks[key]], Executing)
        && EndpointKey(workers, s.pcs[s.locks[key]].worker) == key;
      assert s.locks[key] != t;
    }
  }

  /** A section starts executing, ends it, or has nothing to do with it. */
  lemma SectionLocks(sec: Section, pc: Pc, j: Job)
    requires StartsAt(sec, pc)
    ensures var pc' := NextPc(sec, pc.worker, pc.id, j);
            && (Is(pc, Executing) <==> sec.Release?)
            && (sec.Acquire? ==> pc' == Some(At(Executing, pc.worker, pc.id)))
            && (pc'.Some? && Is(pc'.value, Executing) ==> sec.Acquire?)
  {
  }

  lemma OthersKeepLocksInUse(workers: map<Worker, Url>, s: State, a: Action)
    requires Enabled(workers, s, a) && LocksInUse(s) && LocksOfOwn(workers, s) && !a.Work?
    ensures LocksInUse(Apply(workers, s, a)) && LocksOfOwn(workers, Apply(workers, s, a))
  {
    hide PopPending, QueueOf, EndpointKey;
  }

  lemma {:induction false} RunKeepsLocksInUse(workers: map<Worker, Url>, s: State, run: seq<Action>)
    requires ValidRun(workers, s, run) && LocksInUse(s) && LocksOfOwn(workers, s)
    ensures LocksInUse(After(workers, s, run))
    decreases |run|
  {
    if run != [] {
      ApplyKeepsLocksInUse(workers, s, run[0]);
      hide Apply, Enabled, LocksInUse, LocksOfOwn;
      RunKeepsLocksInUse(workers, Apply(workers, s, run[0]), run[1..]);
    }
  }

  /** In a reachable state in which no job can be moved on, every job of a worker with a waiting dispatcher is DONE,
   *  FAILED or CANCELLED, or with a dispatcher that died. */
  lemma AtRestAllIsFinished(workers: map<Worker, Url>, run: seq<Action>, w: Worker, d: Tid, id: JobId)
    requires ValidRun(workers, Init, run)
    requires var s := After(workers, Init, run);
             && (forall a :: Enabled(workers, s, a) ==> StepOf(s, a).None?)
             && d in s.pcs && s.pcs[d] == Idle(w) && id in s.jobs && s.jobs[id].worker == w
    ensures var s := After(workers, Init, run);
            || Terminal(s.jobs[id].status)
            || exists t :: t in s.pcs && Is(s.pcs[t], Crashed) && s.pcs[t].id == id
  {
    var s := After(workers, Init, run);
    RunKeepsTokens(workers, Init, run);
    RunKeepsLocksInUse(workers, Init, run);
    if !Terminal(s.jobs[id].status) {
      assert HasToken(s, id);
      if id in QueueOf(s, w) {
        assert Enabled(workers, s, Pop(d));
        PopFinds(s, w, id);
      } else {
        var t :| t in s.pcs && Held(s.pcs[t]) == Some(id);
        HolderIsCrashed(workers, s, t);
      }
    }
  }

  lemma PopFinds(s: State, w: Worker, id: JobId)
    requires TokenInv(s) && id in QueueOf(s, w) && id in s.jobs && !Terminal(s.jobs[id].status)
    ensures PopPending(s.jobs, QueueOf(s, w)).1.Some?
  {
    assert QueueOk(s.jobs, w, s.queues[w]) && QueuedOk(w, s.jobs[id]);
    PopLeaves(s.jobs, w, s.queues[w]);
    PopPendingIsSuffix(s.jobs, s.queues[w]);
  }

  /** No other holder is stuck. */
  lemma HolderIsCrashed(workers: map<Worker, Url>, s: State, t: Tid)
    requires TokenInv(s) && LocksInUse(s) && t in s.pcs && Held(s.pcs[t]).Some?
    requires forall a :: Enabled(workers, s, a) ==> StepOf(s, a).None?
    ensures Is(s.pcs[t], Crashed)
  {
    forall u | u in s.pcs && Held(s.pcs[u]).Some? ensures Is(s.pcs[u], Crashed) || Is(s.pcs[u], Activated) {
      assert HolderInPlace(s, s.pcs[u]);
      if !Is(s.pcs[u], Crashed) && !Is(s.pcs[u], Activated) { CanGoOn(workers, s, u); }
    }
    assert forall key :: key !in s.locks;
    assert HolderInPlace(s, s.pcs[t]);
    assert Is(s.pcs[t], Activated) ==> Enabled(workers, s, Work(t, Acquire));
  }

  lemma CanGoOn(workers: map<Worker, Url>, s: State, u: Tid)
    requires u in s.pcs && Held(s.pcs[u]).Some? && s.pcs[u].id in s.jobs
    requires !Is(s.pcs[u], Crashed) && !Is(s.pcs[u], Activated)
    ensures exists a :: Enabled(workers, s, a) && StepOf(s, a).Some?
  {
    var pc := s.pcs[u];
    var a :=
      if pc.Registered? then Insert(u)
      else match pc.phase
        case Requeueing => Requeue(u)
        case Popped => Work(u, Activate)
        case Executing => Work(u, Release(true))
        case Returned => Work(u, Complete)
        case FiringDone => Work(u, FireDone)
        case Notifying => Work(u, NotifyEnds(false))
        case Caught => Work(u, Handle)
        case _ => Work(u, FireFailed(false));
    assert Enabled(workers, s, a) && StepOf(s, a).Some?;
  }
}
