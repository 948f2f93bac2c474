/** Which jobs can call their servers at once. The lock of a job is that of its worker's base URL, and a comfyui job
 *  calls its own server under it. */
module GatewayTargets {
  import opened Basics
  import opened GatewayProtocol
  import opened GatewayEvents

  /** A job that a dispatcher may take. */
  predicate CanRun(workers: map<Worker, Url>, jobs: map<JobId, Job>, id: JobId) {
    id in jobs && HasDispatcher(workers, jobs[id].worker)
  }

  /** Equal targets are under equal keys, for jobs whose worker has a dispatcher. */
  ghost predicate TargetsHaveKeys(workers: map<Worker, Url>, jobs: map<JobId, Job>) {
    forall a, b :: CanRun(workers, jobs, a) && CanRun(workers, jobs, b) ==>
      Target(workers, jobs[a]) == Target(workers, jobs[b]) ==>
        EndpointKey(workers, jobs[a].worker) == EndpointKey(workers, jobs[b].worker)
  }

  /** Only workers with a URL, and comfyui, have dispatchers. */
  predicate DispatchersServe(workers: map<Worker, Url>, s: State) {
    forall t :: t in s.pcs && (s.pcs[t].Idle? || s.pcs[t].At?) ==> HasDispatcher(workers, s.pcs[t].worker)
  }

  lemma ApplyKeepsServing(workers: map<Worker, Url>, s: State, a: Action)
    requires Enabled(workers, s, a) && DispatchersServe(workers, s)
    ensures DispatchersServe(workers, Apply(workers, s, a))
  {
    hide BaseUrl, EndpointKey, NextJob, NextEvents, NextLocks, PopPending, QueueOf;
    if a.StartDispatcher? { assert HasDispatcher(workers, a.worker); }
    hide HasDispatcher;
  }

  lemma {:induction false} RunKeepsServing(workers: map<Worker, Url>, s: State, run: seq<Action>)
    requires ValidRun(workers, s, run) && DispatchersServe(workers, s)
    ensures DispatchersServe(workers, After(workers, s, run))
    decreases |run|
  {
    hide Enabled, Apply, DispatchersServe;
    if run != [] {
      ApplyKeepsServing(workers, s, run[0]);
      RunKeepsServing(workers, Apply(workers, s, run[0]), run[1..]);
    }
  }

  predicate Executes(s: State, t: Tid, id: JobId) { t in s.pcs && Is(s.pcs[t], Executing) && s.pcs[t].id == id }

  /** Threads that execute jobs of one target are one thread, in every run in which jobs of workers with a dispatcher
   *  have equal keys for equal targets. */
  lemma TargetExclusion(workers: map<Worker, Url>, run: seq<Action>, t: Tid, u: Tid, a: JobId, b: JobId)
    requires ValidRun(workers, Init, run) && TargetsHaveKeys(workers, After(workers, Init, run).jobs)
    requires Executes(After(workers, Init, run), t, a) && Executes(After(workers, Init, run), u, b)
    ensures var s := After(workers, Init, run);
            a in s.jobs && b in s.jobs && (Target(workers, s.jobs[a]) == Target(workers, s.jobs[b]) ==> t == u)
  {
    var s := After(workers, Init, run);
    RunKeepsTokens(workers, Init, run);
    RunKeepsServing(workers, Init, run);
    assert HolderInPlace(s, s.pcs[t]) && HolderInPlace(s, s.pcs[u]);
    hide Target, EndpointKey;
    EndpointExclusion(workers, run, t, u);
  }

  // ---- a job from its enqueueing to its execution, beside whatever else goes on ----

  /** A new job of a free worker. */
  datatype Spec = Spec(id: JobId, worker: Worker, high: bool, retry: int, server: Option<Url>)

  function JobOf(a: Spec): Job { NewJob(a.worker, a.high, a.retry, a.server) }

  predicate Free(workers: map<Worker, Url>, s: State, c: Tid, t: Tid, a: Spec) {
    && c != t && c !in s.pcs && t !in s.pcs && a.id !in s.jobs && s.jobsLock.None?
    && QueueOf(s, a.worker) == [] && EndpointKey(workers, a.worker) !in s.locks && HasDispatcher(workers, a.worker)
  }

  /** With the job held by thread t. */
  function HeldAt(s: State, t: Tid, a: Spec, j: Job, phase: Phase): State {
    s.(jobs := s.jobs[a.id := j], queues := s.queues[a.worker := []], pcs := s.pcs[t := At(phase, a.worker, a.id)])
  }

  function Running(workers: map<Worker, Url>, s: State, t: Tid, a: Spec): State {
    HeldAt(s, t, a, JobOf(a).(status := Active, attempts := 1), Executing).(
      locks := s.locks[EndpointKey(workers, a.worker) := t])
  }

  lemma Enqueues(workers: map<Worker, Url>, s: State, c: Tid, t: Tid, a: Spec)
    requires Free(workers, s, c, t, a)
    ensures var s1 := s.(jobs := s.jobs[a.id := JobOf(a)], pcs := s.pcs[c := Registered(a.id)]);
            var s2 := s.(jobs := s.jobs[a.id := JobOf(a)], queues := s.queues[a.worker := [a.id]]);
            && Enabled(workers, s, Enqueue(c, a.id, a.worker, a.high, a.retry, a.server))
            && Apply(workers, s, Enqueue(c, a.id, a.worker, a.high, a.retry, a.server)) == s1
            && Enabled(workers, s1, Insert(c)) && Apply(workers, s1, Insert(c)) == s2
  {
    hide EndpointKey;
    assert [] + [a.id] == [a.id] && [a.id] + [] == [a.id];
    assert s.pcs[c := Registered(a.id)] - {c} == s.pcs;
  }

  lemma Pops(workers: map<Worker, Url>, s: State, c: Tid, t: Tid, a: Spec)
    requires Free(workers, s, c, t, a)
    ensures var s2 := s.(jobs := s.jobs[a.id := JobOf(a)], queues := s.queues[a.worker := [a.id]]);
            var s3 := s2.(pcs := s.pcs[t := Idle(a.worker)]);
            && Enabled(workers, s2, StartDispatcher(t, a.worker))
               && Apply(workers, s2, StartDispatcher(t, a.worker)) == s3
            && Enabled(workers, s3, Pop(t)) && Apply(workers, s3, Pop(t)) == HeldAt(s, t, a, JobOf(a), Popped)
  {
    hide EndpointKey;
    assert [a.id][1..] == [];
    assert PopPending(s.jobs[a.id := JobOf(a)], [a.id]) == ([], Some(a.id));
    assert s.pcs[t := Idle(a.worker)][t := At(Popped, a.worker, a.id)] == s.pcs[t := At(Popped, a.worker, a.id)];
    assert s.queues[a.worker := [a.id]][a.worker := []] == s.queues[a.worker := []];
  }

  lemma Activates(workers: map<Worker, Url>, s: State, t: Tid, a: Spec)
    ensures var s4 := HeldAt(s, t, a, JobOf(a), Popped);
            && Enabled(workers, s4, Work(t, Activate))
            && Apply(workers, s4, Work(t, Activate)) == HeldAt(s, t, a, JobOf(a).(status := Active), Activated)
  {
    hide EndpointKey;
    var (j, j') := (JobOf(a), JobOf(a).(status := Active));
    assert s.events + [] == s.events;
    assert s.jobs[a.id := j][a.id := j'] == s.jobs[a.id := j'];
    assert s.pcs[t := At(Popped, a.worker, a.id)][t := At(Activated, a.worker, a.id)] ==
      s.pcs[t := At(Activated, a.worker, a.id)];
  }

  lemma AcquiresLock(workers: map<Worker, Url>, s: State, t: Tid, a: Spec)
    requires EndpointKey(workers, a.worker) !in s.locks
    ensures var s5 := HeldAt(s, t, a, JobOf(a).(status := Active), Activated);
            Enabled(workers, s5, Work(t, Acquire)) && Apply(workers, s5, Work(t, Acquire)) == Running(workers, s, t, a)
  {
    hide EndpointKey;
    var (j, j') := (JobOf(a).(status := Active), JobOf(a).(status := Active, attempts := 1));
    assert s.events + [] == s.events;
    assert s.jobs[a.id := j][a.id := j'] == s.jobs[a.id := j'];
    assert s.pcs[t := At(Activated, a.worker, a.id)][t := At(Executing, a.worker, a.id)] ==
      s.pcs[t := At(Executing, a.worker, a.id)];
  }

  lemma Starts(workers: map<Worker, Url>, s: State, c: Tid, t: Tid, a: Spec) returns (run: seq<Action>)
    requires Free(workers, s, c, t, a)
    ensures ValidRun(workers, s, run) && After(workers, s, run) == Running(workers, s, t, a)
  {
    Enqueues(workers, s, c, t, a);
    Pops(workers, s, c, t, a);
    Activates(workers, s, t, a);
    AcquiresLock(workers, s, t, a);
    hide Enabled, Apply, HeldAt, Running, Free;
    SnocRun(workers, s, [], Enqueue(c, a.id, a.worker, a.high, a.retry, a.server));
    run := [] + [Enqueue(c, a.id, a.worker, a.high, a.retry, a.server)];
    SnocRun(workers, s, run, Insert(c));
    run := run + [Insert(c)];
    SnocRun(workers, s, run, StartDispatcher(t, a.worker));
    run := run + [StartDispatcher(t, a.worker)];
    SnocRun(workers, s, run, Pop(t));
    run := run + [Pop(t)];
    SnocRun(workers, s, run, Work(t, Activate));
    run := run + [Work(t, Activate)];
    SnocRun(workers, s, run, Work(t, Acquire));
    run := run + [Work(t, Acquire)];
  }

  /** Two threads execute the two jobs. */
  ghost predicate AtOnce(s: State, a: Spec, b: Spec) {
    exists t, u :: t != u && t in s.pcs && u in s.pcs
      && s.pcs[t] == At(Executing, a.worker, a.id) && s.pcs[u] == At(Executing, b.worker, b.id)
      && a.id in s.jobs && s.jobs[a.id].server == a.server && b.id in s.jobs && s.jobs[b.id].server == b.server
  }

  /** Any two jobs can execute at once, in some run from the start, exactly when their workers have different lock keys.
   *  So two jobs of one target do, as soon as their keys differ. */
  lemma AtOnceExactly(workers: map<Worker, Url>, a: Spec, b: Spec)
    requires a.id != b.id && HasDispatcher(workers, a.worker) && HasDispatcher(workers, b.worker)
    ensures (exists run :: ValidRun(workers, Init, run) && AtOnce(After(workers, Init, run), a, b)) <==>
            EndpointKey(workers, a.worker) != EndpointKey(workers, b.worker)
  {
    if EndpointKey(workers, a.worker) != EndpointKey(workers, b.worker) {
      var run := BothStart(workers, a, b);
    } else {
      forall run | ValidRun(workers, Init, run) ensures !AtOnce(After(workers, Init, run), a, b) {
        NeverAtOnce(workers, run, a, b);
      }
    }
  }

  lemma NeverAtOnce(workers: map<Worker, Url>, run: seq<Action>, a: Spec, b: Spec)
    requires ValidRun(workers, Init, run) && EndpointKey(workers, a.worker) == EndpointKey(workers, b.worker)
    ensures !AtOnce(After(workers, Init, run), a, b)
  {
    hide EndpointKey;
    var s := After(workers, Init, run);
    forall t, u | t in s.pcs && u in s.pcs && s.pcs[t] == At(Executing, a.worker, a.id)
      && s.pcs[u] == At(Executing, b.worker, b.id)
      ensures t == u
    {
      EndpointExclusion(workers, run, t, u);
    }
  }

  lemma BothStart(workers: map<Worker, Url>, a: Spec, b: Spec) returns (run: seq<Action>)
    requires a.id != b.id && HasDispatcher(workers, a.worker) && HasDispatcher(workers, b.worker)
    requires EndpointKey(workers, a.worker) != EndpointKey(workers, b.worker)
    ensures ValidRun(workers, Init, run) && AtOnce(After(workers, Init, run), a, b)
  {
    hide EndpointKey, HasDispatcher;
    var first := Starts(workers, Init, 0, 1, a);
    var s := After(workers, Init, first);
    var second := Starts(workers, s, 0, 2, b);
    AppendRun(workers, Init, first, second);
    run := first + second;
    var s' := After(workers, Init, run);
    assert s'.pcs[1] == At(Executing, a.worker, a.id) && s'.pcs[2] == At(Executing, b.worker, b.id);
  }
}
