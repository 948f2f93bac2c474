/** The gateway job runtime as an interleaving of its atomic sections.
 *
 *  Every thread of the program is a program counter (Pc); an action is one section that the code runs
 *  under a lock, or one write that other threads can see. Dispatcher threads run `_dispatch_loop`,
 *  client threads run `enqueue` and `cancel` (a handler that enqueues is a client thread too).
 *  Callbacks and `_execute_job` are oracles: the action says whether they returned or raised.
 */
module GatewayProtocol {
  import opened Basics

  datatype JobId = JobId(name: string)
  datatype Worker = Worker(name: string)
  datatype Url = Url(text: string)
  type Tid = nat

  datatype Status = Pending | Active | Done | Failed | Cancelled

  /** `server` is the server of a comfyui job. `attempts` counts the calls of `_execute_job`; the code keeps no such
   *  counter. */
  datatype Job = Job(
    worker: Worker, high: bool, retry: int, retriesLeft: int, status: Status, attempts: nat, server: Option<Url>)

  function NewJob(w: Worker, high: bool, retry: int, server: Option<Url>): Job {
    Job(w, high, retry, retry, Pending, 0, server)
  }

  datatype EventKind = DoneEvent | FailedEvent | CancelledEvent
  datatype Event = Event(id: JobId, kind: EventKind)

  /** Where a dispatcher is with the job it has taken. */
  datatype Phase =
    | Popped       // popped, still to be marked ACTIVE
    | Activated    // ACTIVE, waiting for the endpoint lock
    | Executing    // inside `with lock`
    | Returned     // result in hand, lock released
    | FiringDone   // DONE, event still to be logged
    | Notifying    // event logged, callbacks running
    | Caught       // in the `except` block
    | Requeueing   // PENDING again, not yet back in the queue
    | FiringFailed // FAILED, event still to be logged
    | Crashed      // the thread died between activation and the `try`

  datatype Pc =
    | Idle(worker: Worker)                          // dispatcher at the top of its loop
    | At(phase: Phase, worker: Worker, id: JobId)   // dispatcher with a job
    | Registered(id: JobId)                         // enqueue: in the registry, not yet in a queue
    | CancelChecked(id: JobId)                      // cancel: saw PENDING, holds the registry lock
    | CancelFiring(id: JobId)                       // cancel: wrote CANCELLED, event still to be logged

  predicate Is(pc: Pc, phase: Phase) { pc.At? && pc.phase == phase }

  datatype State = State(
    jobs: map<JobId, Job>,
    queues: map<Worker, seq<JobId>>,
    pcs: map<Tid, Pc>,
    locks: map<Url, Tid>,
    jobsLock: Option<Tid>,
    events: seq<Event>)

  /** One section of the dispatch loop, run by the thread that holds the job. */
  datatype Section =
    | Activate                   // status = ACTIVE
    | AnnounceRaises             // the thread callback after activation raises: outside the `try`
    | Acquire                    // enter `with lock` and call _execute_job
    | Release(ok: bool)          // leave it with a result, or with an exception
    | Complete                   // status = DONE
    | FireDone                   // log the "done" event
    | NotifyEnds(raises: bool)   // its callbacks and handlers return, or raise into the same `try`
    | Handle                     // the `except` block: retry or FAILED
    | FireFailed(raises: bool)   // log the "failed" event; raising here ends the thread

  datatype Action =
    | Enqueue(t: Tid, id: JobId, worker: Worker, high: bool, retry: int, server: Option<Url>)
    | Insert(t: Tid)
    | Requeue(t: Tid)
    | StartDispatcher(t: Tid, worker: Worker)
    | StopDispatcher(t: Tid)
    | Pop(t: Tid)
    | Work(t: Tid, section: Section)
    | CancelCheck(t: Tid, id: JobId)
    | CancelWrite(t: Tid)
    | CancelFire(t: Tid)

  const Init := State(map[], map[], map[], map[], None, [])

  predicate Terminal(st: Status) { st.Done? || st.Failed? || st.Cancelled? }

  // ---- endpoint keys ----

  function RStripSlash(text: string): string {
    if text != [] && text[|text| - 1] == '/' then RStripSlash(text[..|text| - 1]) else text
  }

  function BaseUrl(workers: map<Worker, Url>, w: Worker): string {
    if w in workers then RStripSlash(workers[w].text) else ""
  }

  /** The URL that a job calls: a comfyui job has its own, whatever its worker. */
  function Target(workers: map<Worker, Url>, j: Job): Url {
    if j.server.Some? then j.server.value else Url(BaseUrl(workers, j.worker))
  }

  /** The key whose lock serialises the calls of worker `w`. */
  function EndpointKey(workers: map<Worker, Url>, w: Worker): Url {
    var base := BaseUrl(workers, w);
    Url(if base != "" then base else w.name)
  }

  // ---- the atomic sections ----

  function QueueOf(s: State, w: Worker): seq<JobId> {
    if w in s.queues then s.queues[w] else []
  }

  /** The inner loop of a pop: drop candidates until one is registered and PENDING. */
  function PopPending(jobs: map<JobId, Job>, q: seq<JobId>): (seq<JobId>, Option<JobId>) {
    if q == [] then ([], None)
    else if q[0] in jobs && jobs[q[0]].status.Pending? then (q[1..], Some(q[0]))
    else PopPending(jobs, q[1..])
  }

  function Goto(s: State, t: Tid, pc: Option<Pc>): State {
    s.(pcs := if pc.Some? then s.pcs[t := pc.value] else s.pcs - {t})
  }

  predicate StartsAt(sec: Section, pc: Pc) {
    match sec
    case Activate => Is(pc, Popped)
    case AnnounceRaises => Is(pc, Activated)
    case Acquire => Is(pc, Activated)
    case Release(_) => Is(pc, Executing)
    case Complete => Is(pc, Returned)
    case FireDone => Is(pc, FiringDone)
    case NotifyEnds(_) => Is(pc, Notifying)
    case Handle => Is(pc, Caught)
    case FireFailed(_) => Is(pc, FiringFailed)
  }

  function NextJob(sec: Section, j: Job): Job {
    match sec
    case Activate => j.(status := Active)
    case Acquire => j.(attempts := j.attempts + 1)
    case Complete => j.(status := Done)
    case Handle =>
      if j.retriesLeft > 0 then j.(retriesLeft := j.retriesLeft - 1, status := Pending) else j.(status := Failed)
    case _ => j
  }

  function NextPc(sec: Section, w: Worker, id: JobId, j: Job): Option<Pc> {
    match sec
    case Activate => Some(At(Activated, w, id))
    case AnnounceRaises => Some(At(Crashed, w, id))
    case Acquire => Some(At(Executing, w, id))
    case Release(ok) => Some(if ok then At(Returned, w, id) else At(Caught, w, id))
    case Complete => Some(At(FiringDone, w, id))
    case FireDone => Some(At(Notifying, w, id))
    case NotifyEnds(raises) => Some(if raises then At(Caught, w, id) else Idle(w))
    case Handle => Some(if j.retriesLeft > 0 then At(Requeueing, w, id) else At(FiringFailed, w, id))
    case FireFailed(raises) => if raises then None else Some(Idle(w))
  }

  function NextEvents(sec: Section, id: JobId): seq<Event> {
    if sec.FireDone? then [Event(id, DoneEvent)] else if sec.FireFailed? then [Event(id, FailedEvent)] else []
  }

  function NextLocks(workers: map<Worker, Url>, s: State, t: Tid, sec: Section): map<Url, Tid>
    requires t in s.pcs && StartsAt(sec, s.pcs[t])
  {
    var key := EndpointKey(workers, s.pcs[t].worker);
    if sec.Acquire? then s.locks[key := t] else if sec.Release? then s.locks - {key} else s.locks
  }

  function DoWork(workers: map<Worker, Url>, s: State, t: Tid, sec: Section): State
    requires t in s.pcs && StartsAt(sec, s.pcs[t]) && s.pcs[t].id in s.jobs
  {
    var id := s.pcs[t].id;
    Goto(s.(jobs := s.jobs[id := NextJob(sec, s.jobs[id])],
            locks := NextLocks(workers, s, t, sec),
            events := s.events + NextEvents(sec, id)),
         t, NextPc(sec, s.pcs[t].worker, id, s.jobs[id]))
  }

  function DoPop(s: State, t: Tid): State
    requires t in s.pcs && s.pcs[t].Idle?
  {
    var w := s.pcs[t].worker;
    if w !in s.queues then s
    else
      var (rest, found) := PopPending(s.jobs, s.queues[w]);
      Goto(s.(queues := s.queues[w := rest]), t, Some(if found.Some? then At(Popped, w, found.value) else Idle(w)))
  }

  function DoEnqueue(s: State, t: Tid, id: JobId, w: Worker, high: bool, retry: int, server: Option<Url>): State {
    if id in s.jobs then s
    else Goto(s.(jobs := s.jobs[id := NewJob(w, high, retry, server)]), t, Some(Registered(id)))
  }

  /** `enqueue` puts a high priority job in front, any other job at the back. */
  function DoInsert(s: State, t: Tid): State
    requires t in s.pcs && s.pcs[t].Registered? && s.pcs[t].id in s.jobs
  {
    var id := s.pcs[t].id;
    var w := s.jobs[id].worker;
    Goto(s.(queues := s.queues[w := if s.jobs[id].high then [id] + QueueOf(s, w) else QueueOf(s, w) + [id]]), t, None)
  }

  function DoRequeue(s: State, t: Tid): State
    requires t in s.pcs && Is(s.pcs[t], Requeueing)
  {
    var w := s.pcs[t].worker;
    Goto(s.(queues := s.queues[w := [s.pcs[t].id] + QueueOf(s, w)]), t, Some(Idle(w)))
  }

  function DoCancelWrite(s: State, t: Tid): State
    requires t in s.pcs && s.pcs[t].CancelChecked? && s.pcs[t].id in s.jobs
  {
    var id := s.pcs[t].id;
    Goto(s.(jobs := s.jobs[id := s.jobs[id].(status := Cancelled)], jobsLock := None), t, Some(CancelFiring(id)))
  }

  predicate Enabled(workers: map<Worker, Url>, s: State, a: Action) {
    match a
    case Enqueue(t, _, _, _, _, _) => t !in s.pcs && s.jobsLock.None?
    case Insert(t) => t in s.pcs && s.pcs[t].Registered? && s.pcs[t].id in s.jobs
    case Requeue(t) => t in s.pcs && Is(s.pcs[t], Requeueing)
    case StartDispatcher(t, w) => t !in s.pcs && (BaseUrl(workers, w) != "" || w == Worker("comfyui"))
    case StopDispatcher(t) => t in s.pcs && s.pcs[t].Idle?
    case Pop(t) => t in s.pcs && s.pcs[t].Idle?
    case Work(t, sec) => t in s.pcs && StartsAt(sec, s.pcs[t]) && s.pcs[t].id in s.jobs
                         && (sec.Acquire? ==> EndpointKey(workers, s.pcs[t].worker) !in s.locks)
    case CancelCheck(t, _) => t !in s.pcs && s.jobsLock.None?
    case CancelWrite(t) => t in s.pcs && s.pcs[t].CancelChecked? && s.pcs[t].id in s.jobs
    case CancelFire(t) => t in s.pcs && s.pcs[t].CancelFiring?
  }

  function Apply(workers: map<Worker, Url>, s: State, a: Action): State
    requires Enabled(workers, s, a)
  {
    match a
    case Enqueue(t, id, w, high, retry, server) => DoEnqueue(s, t, id, w, high, retry, server)
    case Insert(t) => DoInsert(s, t)
    case Requeue(t) => DoRequeue(s, t)
    case StartDispatcher(t, w) => Goto(s, t, Some(Idle(w)))
    case StopDispatcher(t) => Goto(s, t, None)
    case Pop(t) => DoPop(s, t)
    case Work(t, sec) => DoWork(workers, s, t, sec)
    case CancelCheck(t, id) =>
      if id in s.jobs && s.jobs[id].status.Pending?
      then Goto(s.(jobsLock := Some(t)), t, Some(CancelChecked(id)))
      else s
    case CancelWrite(t) => DoCancelWrite(s, t)
    case CancelFire(t) => Goto(s.(events := s.events + [Event(s.pcs[t].id, CancelledEvent)]), t, None)
  }

  // ---- runs ----

  predicate ValidRun(workers: map<Worker, Url>, s: State, run: seq<Action>)
    decreases |run|
  {
    run == [] || (Enabled(workers, s, run[0]) && ValidRun(workers, Apply(workers, s, run[0]), run[1..]))
  }

  function After(workers: map<Worker, Url>, s: State, run: seq<Action>): State
    requires ValidRun(workers, s, run)
    decreases |run|
  {
    if run == [] then s else After(workers, Apply(workers, s, run[0]), run[1..])
  }

  // ---- tokens ----

  function Held(pc: Pc): Option<JobId> {
    if pc.Idle? || pc.CancelChecked? || pc.CancelFiring? then None else Some(pc.id)
  }

  /** Where a token of a job can be: a queue slot, or a thread that works on the job. */
  datatype Place = Slot(w: Worker, i: nat) | InThread(t: Tid)

  ghost function Places(s: State, id: JobId): set<Place> {
    (set w, i | w in s.queues && 0 <= i < |s.queues[w]| && s.queues[w][i] == id :: Slot(w, i))
    + (set t | t in s.pcs && Held(s.pcs[t]) == Some(id) :: InThread(t))
  }

  ghost predicate HeldBySome(s: State, id: JobId) {
    exists t :: t in s.pcs && Held(s.pcs[t]) == Some(id)
  }

  predicate Waiting(st: Status) { st.Pending? || st.Cancelled? }

  predicate Attempted(pc: Pc) {
    pc.At? && pc.phase in {Executing, Returned, FiringDone, Notifying, Caught, FiringFailed}
  }

  /** Attempts are paid for by retries, up to the one attempt that may be under way or was the last. */
  predicate JobOk(j: Job) {
    && j.retry - j.retriesLeft <= j.attempts <= j.retry - j.retriesLeft + 1
    && (j.retriesLeft >= 0 || j.retriesLeft == j.retry)
  }

  predicate QueuedOk(w: Worker, j: Job) {
    j.worker == w && Waiting(j.status) && j.attempts == j.retry - j.retriesLeft
  }

  predicate HolderOk(pc: Pc, j: Job)
    requires Held(pc).Some?
  {
    && (pc.Registered? || j.worker == pc.worker)
    && (pc.Registered? || Is(pc, Requeueing) ==> Waiting(j.status))
    && (Is(pc, FiringDone) || Is(pc, Notifying) || Is(pc, FiringFailed) ==> Terminal(j.status))
    && j.attempts == j.retry - j.retriesLeft + (if Attempted(pc) then 1 else 0)
  }

  ghost predicate QueueOk(jobs: map<JobId, Job>, w: Worker, q: seq<JobId>) {
    && (forall id :: id in q ==> id in jobs && QueuedOk(w, jobs[id]))
    && (forall i, j :: 0 <= i < j < |q| ==> q[i] != q[j])
  }

  ghost predicate QueueInv(s: State) {
    forall w :: w in s.queues ==> QueueOk(s.jobs, w, s.queues[w])
  }

  ghost predicate HolderInPlace(s: State, pc: Pc)
    requires Held(pc).Some?
  {
    && pc.id in s.jobs
    && pc.id !in QueueOf(s, s.jobs[pc.id].worker)
    && HolderOk(pc, s.jobs[pc.id])
  }

  ghost predicate ThreadInv(s: State) {
    && (forall t :: t in s.pcs && Held(s.pcs[t]).Some? ==> HolderInPlace(s, s.pcs[t]))
    && (forall t, u :: t in s.pcs && u in s.pcs && t != u && Held(s.pcs[t]).Some? ==> Held(s.pcs[t]) != Held(s.pcs[u]))
  }

  ghost predicate HasToken(s: State, id: JobId)
    requires id in s.jobs
  {
    id in QueueOf(s, s.jobs[id].worker) || HeldBySome(s, id)
  }

  ghost predicate LiveInv(s: State) {
    forall id :: id in s.jobs ==> JobOk(s.jobs[id]) && (Terminal(s.jobs[id].status) || HasToken(s, id))
  }

  ghost predicate TokenInv(s: State) { QueueInv(s) && ThreadInv(s) && LiveInv(s) }

  /** Whoever executes holds the lock of its endpoint. */
  ghost predicate LockInv(workers: map<Worker, Url>, s: State) {
    forall t :: t in s.pcs && Is(s.pcs[t], Executing) ==>
      var key := EndpointKey(workers, s.pcs[t].worker); key in s.locks && s.locks[key] == t
  }

  lemma {:induction false} PopPendingIsSuffix(jobs: map<JobId, Job>, q: seq<JobId>)
    ensures var (rest, found) := PopPending(jobs, q);
            && |rest| <= |q| && rest == q[|q| - |rest|..]
            && (found.None? ==> rest == [] && forall i :: 0 <= i < |q| ==> q[i] !in jobs || !jobs[q[i]].status.Pending?)
            && (found.Some? ==>
                  && |rest| < |q| && found.value == q[|q| - |rest| - 1]
                  && found.value in jobs && jobs[found.value].status.Pending?
                  && forall i :: 0 <= i < |q| - |rest| - 1 ==> q[i] !in jobs || !jobs[q[i]].status.Pending?)
  {
    if q != [] && !(q[0] in jobs && jobs[q[0]].status.Pending?) {
      PopPendingIsSuffix(jobs, q[1..]);
      var (rest, found) := PopPending(jobs, q[1..]);
      assert PopPending(jobs, q) == (rest, found);
      hide PopPending;
      assert q[|q| - |rest|..] == q[1..][|q| - 1 - |rest|..];
      assert forall i :: 1 <= i < |q| ==> q[i] == q[1..][i - 1];
    }
  }

  // ---- each kind of change keeps TokenInv ----

  lemma HolderStaysAway(s: State, s': State, k: JobId)
    requires k in s.jobs && k in s'.jobs && s'.jobs[k].worker == s.jobs[k].worker
    requires HasToken(s, k)
    requires forall q :: q in QueueOf(s, s.jobs[k].worker) ==> q in QueueOf(s', s.jobs[k].worker)
    requires forall t :: t in s.pcs && Held(s.pcs[t]) == Some(k) ==> t in s'.pcs && Held(s'.pcs[t]) == Some(k)
    ensures HasToken(s', k)
  {
    if k !in QueueOf(s, s.jobs[k].worker) {
      var t :| t in s.pcs && Held(s.pcs[t]) == Some(k);
      assert t in s'.pcs && Held(s'.pcs[t]) == Some(k);
    }
  }

  lemma SectionKeepsFacts(sec: Section, pc: Pc, j: Job)
    requires StartsAt(sec, pc) && JobOk(j) && HolderOk(pc, j)
    ensures JobOk(NextJob(sec, j)) && NextJob(sec, j).worker == j.worker
    ensures var pc' := NextPc(sec, pc.worker, pc.id, j);
            if pc'.Some? && Held(pc'.value).Some?
            then pc'.value.id == pc.id && HolderOk(pc'.value, NextJob(sec, j))
            else Terminal(NextJob(sec, j).status)
  {
  }

  lemma WorkKeepsTokens(workers: map<Worker, Url>, s: State, t: Tid, sec: Section)
    requires TokenInv(s) && t in s.pcs && StartsAt(sec, s.pcs[t]) && s.pcs[t].id in s.jobs
    ensures TokenInv(DoWork(workers, s, t, sec))
  {
    hide NextJob, NextPc, NextLocks, NextEvents, HolderOk, JobOk, HasToken, QueueInv, ThreadInv;
    var id := s.pcs[t].id;
    var s' := DoWork(workers, s, t, sec);
    WorkFacts(workers, s, t, sec);
    WorkKeepsQueues(workers, s, t, sec);
    WorkKeepsThreads(workers, s, t, sec);
    forall k | k in s'.jobs ensures JobOk(s'.jobs[k]) && (Terminal(s'.jobs[k].status) || HasToken(s', k)) {
      if k != id {
        if !Terminal(s.jobs[k].status) { HolderStaysAway(s, s', k); }
      } else if !Terminal(s'.jobs[k].status) {
        HolderHasToken(s', t, k);
      }
    }
  }

  lemma WorkFacts(workers: map<Worker, Url>, s: State, t: Tid, sec: Section)
    requires TokenInv(s) && t in s.pcs && StartsAt(sec, s.pcs[t]) && s.pcs[t].id in s.jobs
    ensures var (id, s') := (s.pcs[t].id, DoWork(workers, s, t, sec));
            && JobOk(s'.jobs[id]) && s'.jobs[id].worker == s.jobs[id].worker
            && (t in s'.pcs && Held(s'.pcs[t]).Some? ==> s'.pcs[t].id == id)
            && (t !in s'.pcs || Held(s'.pcs[t]).None? ==> Terminal(s'.jobs[id].status))
  {
    assert HolderInPlace(s, s.pcs[t]);
    SectionKeepsFacts(sec, s.pcs[t], s.jobs[s.pcs[t].id]);
    hide NextJob, NextPc, NextLocks, NextEvents, HolderOk, QueueInv;
  }

  lemma HolderHasToken(s: State, t: Tid, id: JobId)
    requires t in s.pcs && Held(s.pcs[t]) == Some(id) && id in s.jobs
    ensures HasToken(s, id)
  {
  }

  lemma WorkKeepsQueues(workers: map<Worker, Url>, s: State, t: Tid, sec: Section)
    requires TokenInv(s) && t in s.pcs && StartsAt(sec, s.pcs[t]) && s.pcs[t].id in s.jobs
    ensures QueueInv(DoWork(workers, s, t, sec))
  {
    hide NextJob, NextPc, NextLocks, NextEvents, HolderOk, JobOk, LiveInv;
    var s' := DoWork(workers, s, t, sec);
    var id := s.pcs[t].id;
    assert HolderInPlace(s, s.pcs[t]);
    forall w | w in s'.queues ensures QueueOk(s'.jobs, w, s'.queues[w]) {
      assert QueueOk(s.jobs, w, s.queues[w]);
      assert id in s.queues[w] ==> QueuedOk(w, s.jobs[id]);
    }
  }

  lemma WorkKeepsThreads(workers: map<Worker, Url>, s: State, t: Tid, sec: Section)
    requires TokenInv(s) && t in s.pcs && StartsAt(sec, s.pcs[t]) && s.pcs[t].id in s.jobs
    ensures ThreadInv(DoWork(workers, s, t, sec))
  {
    hide NextJob, NextPc, NextLocks, NextEvents, HolderOk, JobOk, QueueInv;
    var s' := DoWork(workers, s, t, sec);
    var id := s.pcs[t].id;
    assert HolderInPlace(s, s.pcs[t]);
    SectionKeepsFacts(sec, s.pcs[t], s.jobs[id]);
    forall u | u in s'.pcs && Held(s'.pcs[u]).Some? ensures HolderInPlace(s', s'.pcs[u]) {
      if u != t { assert HolderInPlace(s, s.pcs[u]); }
    }
  }

  /** A thread that holds nothing moves, and may cancel a job on the way. */
  lemma ClientMoveKeepsTokens(s: State, s': State, t: Tid)
    requires TokenInv(s) && (t in s.pcs ==> Held(s.pcs[t]).None?) && (t in s'.pcs ==> Held(s'.pcs[t]).None?)
    requires s'.queues == s.queues && s'.pcs.Keys + {t} == s.pcs.Keys + {t}
    requires forall u :: u in s'.pcs && u != t ==> s'.pcs[u] == s.pcs[u]
    requires s'.jobs.Keys == s.jobs.Keys
    requires forall k :: k in s.jobs ==> s'.jobs[k] == s.jobs[k] || s'.jobs[k] == s.jobs[k].(status := Cancelled)
    ensures TokenInv(s')
  {
    ClientMoveKeepsPlaces(s, s', t);
    hide HasToken, QueueInv, ThreadInv;
    forall k | k in s'.jobs ensures JobOk(s'.jobs[k]) && (Terminal(s'.jobs[k].status) || HasToken(s', k)) {
      if !Terminal(s.jobs[k].status) { HolderStaysAway(s, s', k); }
    }
  }

  lemma ClientMoveKeepsPlaces(s: State, s': State, t: Tid)
    requires TokenInv(s) && (t in s.pcs ==> Held(s.pcs[t]).None?) && (t in s'.pcs ==> Held(s'.pcs[t]).None?)
    requires s'.queues == s.queues && s'.pcs.Keys + {t} == s.pcs.Keys + {t}
    requires forall u :: u in s'.pcs && u != t ==> s'.pcs[u] == s.pcs[u]
    requires s'.jobs.Keys == s.jobs.Keys
    requires forall k :: k in s.jobs ==> s'.jobs[k] == s.jobs[k] || s'.jobs[k] == s.jobs[k].(status := Cancelled)
    ensures QueueInv(s') && ThreadInv(s')
  {
    hide LiveInv, HasToken;
    forall w | w in s'.queues ensures QueueOk(s'.jobs, w, s'.queues[w]) {
      CancelKeepsQueue(s.jobs, s'.jobs, w, s.queues[w]);
    }
    hide QueueInv, QueueOk, HolderInPlace;
    forall u | u in s'.pcs && Held(s'.pcs[u]).Some? ensures HolderInPlace(s', s'.pcs[u]) {
      assert u in s.pcs.Keys + {t} && HolderInPlace(s, s.pcs[u]);
      CancelKeepsHolder(s, s', s.pcs[u]);
    }
  }

  lemma CancelKeepsHolder(s: State, s': State, pc: Pc)
    requires Held(pc).Some? && HolderInPlace(s, pc) && s'.queues == s.queues && s'.jobs.Keys == s.jobs.Keys
    requires s'.jobs[pc.id] == s.jobs[pc.id] || s'.jobs[pc.id] == s.jobs[pc.id].(status := Cancelled)
    ensures HolderInPlace(s', pc)
  {
  }

  lemma CancelKeepsQueue(jobs: map<JobId, Job>, jobs': map<JobId, Job>, w: Worker, q: seq<JobId>)
    requires QueueOk(jobs, w, q) && jobs'.Keys == jobs.Keys
    requires forall k :: k in jobs ==> jobs'[k] == jobs[k] || jobs'[k] == jobs[k].(status := Cancelled)
    ensures QueueOk(jobs', w, q)
  {
  }

  /** A holder puts its job into the queue, at either end. */
  predicate HandsOver(s: State, s': State, t: Tid) {
    && t in s.pcs && (s.pcs[t].Registered? || Is(s.pcs[t], Requeueing)) && s.pcs[t].id in s.jobs
    && s'.jobs == s.jobs && s'.pcs.Keys + {t} == s.pcs.Keys && (t in s'.pcs ==> Held(s'.pcs[t]).None?)
    && (forall u :: u in s'.pcs && u != t ==> s'.pcs[u] == s.pcs[u])
    && var (w, id) := (s.jobs[s.pcs[t].id].worker, s.pcs[t].id);
       s'.queues == s.queues[w := [id] + QueueOf(s, w)] || s'.queues == s.queues[w := QueueOf(s, w) + [id]]
  }

  lemma HandOverKeepsTokens(s: State, s': State, t: Tid)
    requires TokenInv(s) && HandsOver(s, s', t)
    ensures TokenInv(s')
  {
    HandOverKeepsQueues(s, s', t);
    HandOverKeepsThreads(s, s', t);
    hide QueueInv, ThreadInv, HasToken, JobOk;
    forall k | k in s'.jobs ensures JobOk(s'.jobs[k]) && (Terminal(s'.jobs[k].status) || HasToken(s', k)) {
      if !Terminal(s.jobs[k].status) { HandOverKeepsToken(s, s', t, k); }
    }
  }

  lemma RequeueKeepsTokens(s: State, t: Tid)
    requires TokenInv(s) && t in s.pcs && Is(s.pcs[t], Requeueing)
    ensures TokenInv(DoRequeue(s, t))
  {
    assert HolderInPlace(s, s.pcs[t]);
    hide QueueInv, LiveInv;
    HandOverKeepsTokens(s, DoRequeue(s, t), t);
  }

  lemma HandOverKeepsToken(s: State, s': State, t: Tid, k: JobId)
    requires HandsOver(s, s', t) && k in s.jobs && HasToken(s, k)
    ensures HasToken(s', k)
  {
    if k != s.pcs[t].id {
      HolderStaysAway(s, s', k);
    } else {
      assert k in s'.queues[s.jobs[k].worker];
    }
  }

  lemma HandOverKeepsThreads(s: State, s': State, t: Tid)
    requires TokenInv(s) && HandsOver(s, s', t)
    ensures ThreadInv(s')
  {
    hide LiveInv, QueueInv, HolderOk;
    forall u | u in s'.pcs && Held(s'.pcs[u]).Some? ensures HolderInPlace(s', s'.pcs[u]) {
      assert u in s.pcs.Keys && HolderInPlace(s, s.pcs[u]);
    }
  }

  lemma HandOverKeepsQueues(s: State, s': State, t: Tid)
    requires TokenInv(s) && HandsOver(s, s', t)
    ensures QueueInv(s')
  {
  }

  lemma EnqueueKeepsTokens(s: State, t: Tid, id: JobId, w: Worker, high: bool, retry: int, server: Option<Url>)
    requires TokenInv(s) && t !in s.pcs && id !in s.jobs
    ensures TokenInv(DoEnqueue(s, t, id, w, high, retry, server))
  {
    var s' := DoEnqueue(s, t, id, w, high, retry, server);
    assert forall v :: QueueOf(s', v) == QueueOf(s, v);
    forall k | k in s'.jobs ensures JobOk(s'.jobs[k]) && (Terminal(s'.jobs[k].status) || HasToken(s', k)) {
      if k == id {
        assert Held(s'.pcs[t]) == Some(k);
      } else if !Terminal(s.jobs[k].status) {
        HolderStaysAway(s, s', k);
      }
    }
  }

  lemma PopKeepsTokens(s: State, t: Tid)
    requires TokenInv(s) && t in s.pcs && s.pcs[t].Idle? && s.pcs[t].worker in s.queues
    ensures TokenInv(DoPop(s, t))
  {
    PopKeepsQueues(s, t);
    PopKeepsThreads(s, t);
    var s' := DoPop(s, t);
    forall k | k in s'.jobs ensures JobOk(s'.jobs[k]) && (Terminal(s'.jobs[k].status) || HasToken(s', k)) {
      if !Terminal(s.jobs[k].status) { PoppedKeepsToken(s, t, k); }
    }
  }

  lemma SuffixKeepsQueue(jobs: map<JobId, Job>, w: Worker, q: seq<JobId>, n: nat)
    requires QueueOk(jobs, w, q) && n <= |q|
    ensures QueueOk(jobs, w, q[n..])
    ensures forall i :: 0 <= i < n ==> q[i] !in q[n..]
  {
  }

  /** What a pop leaves of a sound queue, and what it takes. */
  lemma PopLeaves(jobs: map<JobId, Job>, w: Worker, q: seq<JobId>)
    requires QueueOk(jobs, w, q)
    ensures var (rest, found) := PopPending(jobs, q);
            && QueueOk(jobs, w, rest) && (forall k :: k in rest ==> k in q)
            && (found.Some? ==> found.value in q && found.value !in rest && jobs[found.value].status.Pending?)
            && (forall k :: k in q && jobs[k].status.Pending? ==> k in rest || found == Some(k))
  {
    PopPendingIsSuffix(jobs, q);
    hide PopPending, QueuedOk;
    var (rest, found) := PopPending(jobs, q);
    var n := |q| - |rest|;
    SuffixKeepsQueue(jobs, w, q, n);
    assert found.Some? ==> q[n - 1] !in q[n..];
    hide QueueOk;
    forall k | k in q && jobs[k].status.Pending? ensures k in rest || found == Some(k) {
      var i :| 0 <= i < |q| && q[i] == k;
      if i >= n { assert rest[i - n] == k; }
    }
  }

  lemma PopKeepsQueues(s: State, t: Tid)
    requires TokenInv(s) && t in s.pcs && s.pcs[t].Idle? && s.pcs[t].worker in s.queues
    ensures QueueInv(DoPop(s, t))
  {
    PopLeaves(s.jobs, s.pcs[t].worker, s.queues[s.pcs[t].worker]);
    hide PopPending;
  }

  lemma PopKeepsThreads(s: State, t: Tid)
    requires TokenInv(s) && t in s.pcs && s.pcs[t].Idle? && s.pcs[t].worker in s.queues
    ensures ThreadInv(DoPop(s, t))
  {
    var w := s.pcs[t].worker;
    var q := s.queues[w];
    PopLeaves(s.jobs, w, q);
    hide PopPending, LiveInv, JobOk, HolderOk;
    var found := PopPending(s.jobs, q).1;
    var s' := DoPop(s, t);
    forall u | u in s'.pcs && u != t && Held(s'.pcs[u]).Some?
      ensures HolderInPlace(s', s'.pcs[u]) && (found.Some? ==> s'.pcs[u].id != found.value)
    {
      assert HolderInPlace(s, s.pcs[u]);
      assert found.Some? ==> QueuedOk(w, s.jobs[found.value]);
    }
  }

  lemma PoppedKeepsToken(s: State, t: Tid, k: JobId)
    requires TokenInv(s) && t in s.pcs && s.pcs[t].Idle? && s.pcs[t].worker in s.queues
    requires k in s.jobs && !Terminal(s.jobs[k].status)
    ensures HasToken(DoPop(s, t), k)
  {
    var w := s.pcs[t].worker;
    var q := s.queues[w];
    PopLeaves(s.jobs, w, q);
    hide PopPending, ThreadInv, JobOk;
    var s' := DoPop(s, t);
    assert HasToken(s, k);
    if k in QueueOf(s, s.jobs[k].worker) {
      if s.jobs[k].worker == w && k !in s'.queues[w] {
        assert QueuedOk(w, s.jobs[k]);
        HolderHasToken(s', t, k);
      }
    } else {
      var u :| u in s.pcs && Held(s.pcs[u]) == Some(k);
      HolderHasToken(s', u, k);
    }
  }

  /** Every action of every thread keeps the tokens. */
  lemma ApplyKeepsTokens(workers: map<Worker, Url>, s: State, a: Action)
    requires TokenInv(s) && Enabled(workers, s, a)
    ensures TokenInv(Apply(workers, s, a))
  {
    hide TokenInv, PopPending, QueueOf, DoWork;
    match a
    case Enqueue(t, id, w, high, retry, server) =>
        if id !in s.jobs { EnqueueKeepsTokens(s, t, id, w, high, retry, server); }
    case Insert(t) => HandOverKeepsTokens(s, DoInsert(s, t), t);
    case Requeue(t) => RequeueKeepsTokens(s, t);
    case Pop(t) => if s.pcs[t].worker in s.queues { PopKeepsTokens(s, t); }
    case Work(t, sec) => WorkKeepsTokens(workers, s, t, sec);
    case _ => ClientKeepsTokens(workers, s, a);
  }

  lemma ClientKeepsTokens(workers: map<Worker, Url>, s: State, a: Action)
    requires TokenInv(s) && Enabled(workers, s, a)
    requires a.StartDispatcher? || a.StopDispatcher? || a.CancelCheck? || a.CancelWrite? || a.CancelFire?
    ensures TokenInv(Apply(workers, s, a))
  {
    hide TokenInv;
    if Apply(workers, s, a) != s {
      ClientMoveKeepsTokens(s, Apply(workers, s, a), a.t);
    }
  }

  // ---- main results, over every run of every number of threads ----

  lemma {:induction false} RunKeepsTokens(workers: map<Worker, Url>, s: State, run: seq<Action>)
    requires TokenInv(s) && LockInv(workers, s) && ValidRun(workers, s, run)
    ensures TokenInv(After(workers, s, run)) && LockInv(workers, After(workers, s, run))
    decreases |run|
  {
    if run != [] {
      ApplyKeepsTokens(workers, s, run[0]);
      ApplyKeepsLocks(workers, s, run[0]);
      RunKeepsTokens(workers, Apply(workers, s, run[0]), run[1..]);
    }
  }

  lemma ApplyKeepsLocks(workers: map<Worker, Url>, s: State, a: Action)
    requires LockInv(workers, s) && Enabled(workers, s, a)
    ensures LockInv(workers, Apply(workers, s, a))
  {
    var s' := Apply(workers, s, a);
    forall t | t in s'.pcs && Is(s'.pcs[t], Executing)
      ensures var key := EndpointKey(workers, s'.pcs[t].worker); key in s'.locks && s'.locks[key] == t
    {
      if a.Work? {
        WorkKeepsLock(workers, s, a.t, a.section, t);
      }
    }
  }

  lemma WorkKeepsLock(workers: map<Worker, Url>, s: State, t: Tid, sec: Section, u: Tid)
    requires LockInv(workers, s) && Enabled(workers, s, Work(t, sec))
    ensures var s' := DoWork(workers, s, t, sec);
            u in s'.pcs && Is(s'.pcs[u], Executing) ==>
              var key := EndpointKey(workers, s'.pcs[u].worker); key in s'.locks && s'.locks[key] == u
  {
  }

  /** No job is lost and none is duplicated: a job has at most one token, and a PENDING or ACTIVE job has one. */
  lemma Conservation(workers: map<Worker, Url>, run: seq<Action>, id: JobId)
    requires ValidRun(workers, Init, run)
    ensures var s := After(workers, Init, run);
            && |Places(s, id)| <= 1
            && (id in s.jobs && !Terminal(s.jobs[id].status) ==> |Places(s, id)| == 1)
            && (Places(s, id) != {} ==> id in s.jobs)
  {
    RunKeepsTokens(workers, Init, run);
    OnePlace(After(workers, Init, run), id);
  }

  lemma OnePlace(s: State, id: JobId)
    requires TokenInv(s)
    ensures |Places(s, id)| <= 1
    ensures Places(s, id) != {} ==> id in s.jobs
    ensures id in s.jobs && !Terminal(s.jobs[id].status) ==> |Places(s, id)| == 1
  {
    var places := Places(s, id);
    if id in s.jobs && !Terminal(s.jobs[id].status) { SomePlace(s, id); }
    hide Places, TokenInv, QueueOk;
    forall p, q | p in places && q in places ensures p == q && id in s.jobs { SamePlace(s, id, p, q); }
    if p :| p in places {
      assert places == {p};
    }
  }

  lemma SomePlace(s: State, id: JobId)
    requires id in s.jobs && HasToken(s, id)
    ensures exists p :: p in Places(s, id)
  {
    var w := s.jobs[id].worker;
    if id in QueueOf(s, w) {
      var i :| 0 <= i < |s.queues[w]| && s.queues[w][i] == id;
      assert Slot(w, i) in Places(s, id);
    } else {
      var t :| t in s.pcs && Held(s.pcs[t]) == Some(id);
      assert InThread(t) in Places(s, id);
    }
  }

  lemma SamePlace(s: State, id: JobId, p: Place, q: Place)
    requires TokenInv(s) && p in Places(s, id) && q in Places(s, id)
    ensures id in s.jobs && p == q
  {
    if p.Slot? { assert QueueOk(s.jobs, p.w, s.queues[p.w]); }
    if q.Slot? { assert QueueOk(s.jobs, q.w, s.queues[q.w]); }
    if p.InThread? { assert HolderInPlace(s, s.pcs[p.t]); }
    if q.InThread? { assert HolderInPlace(s, s.pcs[q.t]); }
  }

  /** No two jobs ever execute at once under one lock key. */
  lemma EndpointExclusion(workers: map<Worker, Url>, run: seq<Action>, t: Tid, u: Tid)
    requires ValidRun(workers, Init, run)
    ensures var s := After(workers, Init, run);
            t in s.pcs && u in s.pcs && Is(s.pcs[t], Executing) && Is(s.pcs[u], Executing)
            && EndpointKey(workers, s.pcs[t].worker) == EndpointKey(workers, s.pcs[u].worker)
            ==> t == u
  {
    RunKeepsTokens(workers, Init, run);
  }

  /** A job is attempted at most retry + 1 times (once if retry is negative). */
  lemma AttemptsAreBounded(workers: map<Worker, Url>, run: seq<Action>, id: JobId)
    requires ValidRun(workers, Init, run) && id in After(workers, Init, run).jobs
    ensures var j := After(workers, Init, run).jobs[id];
            j.attempts <= (if j.retry > 0 then j.retry else 0) + 1
  {
    RunKeepsTokens(workers, Init, run);
  }

  /** When no thread holds a job of `w` and its queue is empty, all its jobs are finished, in any reachable state. */
  lemma QuietWorkerIsFinished(workers: map<Worker, Url>, run: seq<Action>, w: Worker)
    requires ValidRun(workers, Init, run)
    ensures var s := After(workers, Init, run);
            (forall id :: id in s.jobs && s.jobs[id].worker == w ==> Terminal(s.jobs[id].status))
            <== QueueOf(s, w) == [] && forall t :: t in s.pcs && Held(s.pcs[t]).Some? && s.pcs[t].id in s.jobs ==>
                  s.jobs[s.pcs[t].id].worker != w
  {
    RunKeepsTokens(workers, Init, run);
    var s := After(workers, Init, run);
    if QueueOf(s, w) == [] && forall t :: t in s.pcs && Held(s.pcs[t]).Some? && s.pcs[t].id in s.jobs ==>
         s.jobs[s.pcs[t].id].worker != w
    {
      forall id | id in s.jobs && s.jobs[id].worker == w ensures Terminal(s.jobs[id].status) {
        assert Terminal(s.jobs[id].status) || HasToken(s, id);
      }
    }
  }

  /** A thread that dies right after activation keeps its job for ever: the job is never attempted, DONE or FAILED. */
  lemma {:induction false} CrashLosesTheJob(workers: map<Worker, Url>, s: State, run: seq<Action>, t: Tid)
    requires TokenInv(s) && LockInv(workers, s) && ValidRun(workers, s, run)
    requires t in s.pcs && Is(s.pcs[t], Crashed) && s.jobs[s.pcs[t].id].status in {Active, Cancelled}
    ensures var s', id := After(workers, s, run), s.pcs[t].id;
            && t in s'.pcs && s'.pcs[t] == s.pcs[t]
            && id in s'.jobs && s'.jobs[id].attempts == s.jobs[id].attempts
            && s'.jobs[id].status in {Active, Cancelled}
    decreases |run|
  {
    if run != [] {
      var a := run[0];
      ApplyKeepsTokens(workers, s, a);
      ApplyKeepsLocks(workers, s, a);
      CrashStays(workers, s, a, t);
      CrashLosesTheJob(workers, Apply(workers, s, a), run[1..], t);
    }
  }

  lemma CrashStays(workers: map<Worker, Url>, s: State, a: Action, t: Tid)
    requires TokenInv(s) && Enabled(workers, s, a)
    requires t in s.pcs && Is(s.pcs[t], Crashed) && s.jobs[s.pcs[t].id].status in {Active, Cancelled}
    ensures var s', id := Apply(workers, s, a), s.pcs[t].id;
            && t in s'.pcs && s'.pcs[t] == s.pcs[t]
            && id in s'.jobs && s'.jobs[id].attempts == s.jobs[id].attempts
            && s'.jobs[id].status in {Active, Cancelled}
  {
    hide QueueInv, LiveInv;
    assert HolderInPlace(s, s.pcs[t]);
    if a.Work? {
      assert Held(s.pcs[a.t]) != Held(s.pcs[t]);
      hide *;
      WorkLeavesAlone(workers, s, a.t, a.section, t);
    } else {
      hide *;
      OthersLeaveAlone(workers, s, a, t);
    }
  }

  lemma WorkLeavesAlone(workers: map<Worker, Url>, s: State, t: Tid, sec: Section, u: Tid)
    requires Enabled(workers, s, Work(t, sec)) && u in s.pcs && Is(s.pcs[u], Crashed) && s.pcs[u].id in s.jobs
    requires Held(s.pcs[t]) != Held(s.pcs[u])
    ensures var s' := Apply(workers, s, Work(t, sec));
            u in s'.pcs && s'.pcs[u] == s.pcs[u] && s.pcs[u].id in s'.jobs
              && s'.jobs[s.pcs[u].id] == s.jobs[s.pcs[u].id]
  {
    hide NextJob, NextPc, NextLocks, NextEvents;
  }

  lemma OthersLeaveAlone(workers: map<Worker, Url>, s: State, a: Action, u: Tid)
    requires Enabled(workers, s, a) && !a.Work? && u in s.pcs && Is(s.pcs[u], Crashed) && s.pcs[u].id in s.jobs
    ensures var s', id := Apply(workers, s, a), s.pcs[u].id;
            u in s'.pcs && s'.pcs[u] == s.pcs[u] && id in s'.jobs
            && (s'.jobs[id] == s.jobs[id] || s'.jobs[id] == s.jobs[id].(status := Cancelled))
  {
    hide PopPending, QueueOf;
  }
}
