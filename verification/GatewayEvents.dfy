/** One terminal event per job: what it takes, and runs in which it fails.
 *
 *  A run is calm for a job when no cancel of that job falls between its pop and the activation that follows, and no
 *  callback raises while its "done" event is being delivered. Nothing else is restricted: what happens to other jobs,
 *  the number of threads, the outcomes of attempts, retries, and threads that die are as in any run.
 */
module GatewayEvents {
  import opened Basics
  import opened GatewayProtocol

  function Count(events: seq<Event>, id: JobId): nat {
    if events == [] then 0
    else Count(events[..|events| - 1], id) + (if events[|events| - 1].id == id then 1 else 0)
  }

  lemma CountSnoc(events: seq<Event>, e: Event, id: JobId)
    ensures Count(events + [e], id) == Count(events, id) + (if e.id == id then 1 else 0)
  {
    assert (events + [e])[..|events|] == events;
  }

  ghost predicate BeingCancelled(s: State, id: JobId) {
    exists u :: u in s.pcs && s.pcs[u] == CancelChecked(id)
  }

  ghost predicate BeingStarted(s: State, id: JobId) {
    exists u :: u in s.pcs && Is(s.pcs[u], Popped) && s.pcs[u].id == id
  }

  ghost predicate Calm(s: State, a: Action, id: JobId) {
    match a
    case Pop(t) =>
      t in s.pcs && s.pcs[t].Idle? && PopPending(s.jobs, QueueOf(s, s.pcs[t].worker)).1 == Some(id) ==>
        !BeingCancelled(s, id)
    case CancelCheck(_, k) => k == id ==> !BeingStarted(s, id)
    case Work(t, sec) => sec == NotifyEnds(true) && t in s.pcs && s.pcs[t].At? ==> s.pcs[t].id != id
    case _ => true
  }

  ghost predicate CalmRun(workers: map<Worker, Url>, s: State, run: seq<Action>, id: JobId)
    requires ValidRun(workers, s, run)
    decreases |run|
  {
    run == [] || (Calm(s, run[0], id) && CalmRun(workers, Apply(workers, s, run[0]), run[1..], id))
  }

  /** The thread has written a terminal status and has yet to log the event. */
  predicate Owes(pc: Pc) { Is(pc, FiringDone) || Is(pc, FiringFailed) || pc.CancelFiring? }

  ghost predicate Owed(s: State, id: JobId) {
    exists t :: t in s.pcs && Owes(s.pcs[t]) && s.pcs[t].id == id
  }

  predicate CalmPc(pc: Pc, st: Status) {
    match pc
    case At(Popped, _, _) => st.Pending?
    case At(Activated, _, _) => st.Active?
    case At(Executing, _, _) => st.Active?
    case At(Returned, _, _) => st.Active?
    case At(Caught, _, _) => st.Active?
    case At(Crashed, _, _) => st.Active?
    case At(FiringDone, _, _) => st.Done?
    case At(Notifying, _, _) => st.Done?
    case At(FiringFailed, _, _) => st.Failed?
    case CancelChecked(_) => st.Pending?
    case CancelFiring(_) => st.Cancelled?
    case _ => true
  }

  predicate On(pc: Pc, id: JobId) { !pc.Idle? && pc.id == id }

  /** At most the thread t goes elsewhere, comes or ends. */
  predicate Moves(s: State, s': State, t: Tid) {
    s'.pcs.Keys + {t} == s.pcs.Keys + {t} && forall u :: u in s'.pcs && u != t ==> s'.pcs[u] == s.pcs[u]
  }

  /** The status of the job is what each thread on it takes it to be. */
  predicate Known(s: State, t: Tid, id: JobId)
    requires t in s.pcs
  {
    On(s.pcs[t], id) ==> id in s.jobs && CalmPc(s.pcs[t], s.jobs[id].status)
  }

  /** Whoever has checked holds the lock of the registry. */
  predicate CancelsLock(s: State) { forall t :: t in s.pcs && s.pcs[t].CancelChecked? ==> s.jobsLock == Some(t) }

  predicate OneFires(s: State, id: JobId) {
    forall t, u :: t in s.pcs && u in s.pcs && t != u ==> !(s.pcs[t] == s.pcs[u] == CancelFiring(id))
  }

  ghost predicate StatusInv(s: State, id: JobId) {
    && (forall t :: t in s.pcs ==> Known(s, t, id))
    && CancelsLock(s) && OneFires(s, id)
    && (BeingCancelled(s, id) ==> !BeingStarted(s, id))
  }

  /** A finished job has logged one terminal event, or is about to; any other job has logged none. */
  ghost predicate LedgerInv(s: State, id: JobId) {
    Count(s.events, id) == if id in s.jobs && Terminal(s.jobs[id].status) && !Owed(s, id) then 1 else 0
  }

  // ---- the status ----

  lemma CalmKeepsStatus(workers: map<Worker, Url>, s: State, a: Action, id: JobId)
    requires TokenInv(s) && StatusInv(s, id) && Enabled(workers, s, a) && Calm(s, a, id)
    ensures StatusInv(Apply(workers, s, a), id)
  {
    hide TokenInv, StatusInv, Calm, PopPending, QueueOf, DoWork;
    match a
    case Work(t, sec) => WorkKeepsStatus(workers, s, t, sec, id);
    case Pop(t) => if s.pcs[t].worker in s.queues { PopKeepsStatus(s, t, id); }
    case CancelWrite(t) => CancelWriteKeepsStatus(s, t, id);
    case CancelCheck(_, _) => ArriveKeepsStatus(workers, s, a, id);
    case Enqueue(_, _, _, _, _, _) => ArriveKeepsStatus(workers, s, a, id);
    case _ => LeaveKeepsStatus(workers, s, a, id);
  }

  lemma ArriveKeepsStatus(workers: map<Worker, Url>, s: State, a: Action, id: JobId)
    requires StatusInv(s, id) && Enabled(workers, s, a) && Calm(s, a, id) && (a.Enqueue? || a.CancelCheck?)
    ensures StatusInv(Apply(workers, s, a), id)
  {
    hide PopPending, QueueOf, StatusInv, BeingStarted;
    if Apply(workers, s, a) != s { MoveKeepsStatus(s, Apply(workers, s, a), a.t, id); }
  }

  lemma LeaveKeepsStatus(workers: map<Worker, Url>, s: State, a: Action, id: JobId)
    requires StatusInv(s, id) && Enabled(workers, s, a)
    requires a.Insert? || a.Requeue? || a.StartDispatcher? || a.StopDispatcher? || a.CancelFire?
    ensures StatusInv(Apply(workers, s, a), id)
  {
    hide PopPending, QueueOf, StatusInv;
    MoveKeepsStatus(s, Apply(workers, s, a), a.t, id);
  }

  lemma SectionKeepsJob(sec: Section, pc: Pc, j: Job)
    requires StartsAt(sec, pc)
    ensures var pc' := NextPc(sec, pc.worker, pc.id, j);
            pc'.Some? ==> (pc'.value.Idle? || (pc'.value.At? && pc'.value.id == pc.id)) && !Is(pc'.value, Popped)
  {
  }

  lemma SectionKeepsCalm(sec: Section, pc: Pc, j: Job)
    requires StartsAt(sec, pc) && CalmPc(pc, j.status) && sec != NotifyEnds(true)
    ensures var pc' := NextPc(sec, pc.worker, pc.id, j);
            pc'.Some? && !pc'.value.Idle? ==> CalmPc(pc'.value, NextJob(sec, j).status)
  {
  }

  lemma WorkMoves(workers: map<Worker, Url>, s: State, t: Tid, sec: Section)
    requires Enabled(workers, s, Work(t, sec))
    ensures var (s', j) := (DoWork(workers, s, t, sec), s.jobs[s.pcs[t].id]);
            var pc' := NextPc(sec, s.pcs[t].worker, s.pcs[t].id, j);
            && Moves(s, s', t) && s'.jobsLock == s.jobsLock && s'.jobs == s.jobs[s.pcs[t].id := NextJob(sec, j)]
            && (t in s'.pcs <==> pc'.Some?) && (pc'.Some? ==> s'.pcs[t] == pc'.value)
  {
    hide NextJob, NextPc, NextLocks, NextEvents;
  }

  lemma WorkKeepsStatus(workers: map<Worker, Url>, s: State, t: Tid, sec: Section, id: JobId)
    requires TokenInv(s) && StatusInv(s, id) && Enabled(workers, s, Work(t, sec)) && Calm(s, Work(t, sec), id)
    ensures StatusInv(DoWork(workers, s, t, sec), id)
  {
    var s' := DoWork(workers, s, t, sec);
    WorkMoves(workers, s, t, sec);
    SectionKeepsJob(sec, s.pcs[t], s.jobs[s.pcs[t].id]);
    WorkKnown(workers, s, t, sec, id);
    hide DoWork, NextJob, NextPc, CalmPc, Known;
    hide TokenInv, Calm, CancelsLock, OneFires, BeingCancelled, BeingStarted, Moves;
    OthersFire(s, s', t, id);
    OthersLock(s, s', t);
    NobodyComes(s, s', t, id);
  }

  lemma OthersLock(s: State, s': State, t: Tid)
    requires CancelsLock(s) && Moves(s, s', t) && s'.jobsLock == s.jobsLock
             && (t in s'.pcs ==> !s'.pcs[t].CancelChecked?)
    ensures CancelsLock(s')
  {
    forall u | u in s'.pcs && u != t ensures u in s.pcs { assert u in s.pcs.Keys + {t}; }
  }

  lemma WorkKnown(workers: map<Worker, Url>, s: State, t: Tid, sec: Section, id: JobId)
    requires TokenInv(s) && StatusInv(s, id) && Enabled(workers, s, Work(t, sec)) && Calm(s, Work(t, sec), id)
    ensures var s' := DoWork(workers, s, t, sec); forall u :: u in s'.pcs ==> Known(s', u, id)
  {
    var s' := DoWork(workers, s, t, sec);
    WorkMoves(workers, s, t, sec);
    WorkerKnows(workers, s, t, sec, id);
    hide DoWork, NextJob, NextPc, TokenInv, Calm, StatusInv, Known;
    forall u | u in s'.pcs ensures Known(s', u, id) {
      if u != t { BystanderKnows(workers, s, t, sec, u, id); }
    }
  }

  lemma WorkerKnows(workers: map<Worker, Url>, s: State, t: Tid, sec: Section, id: JobId)
    requires StatusInv(s, id) && Enabled(workers, s, Work(t, sec)) && Calm(s, Work(t, sec), id)
    ensures var s' := DoWork(workers, s, t, sec); t in s'.pcs ==> Known(s', t, id)
  {
    WorkMoves(workers, s, t, sec);
    SectionKeepsJob(sec, s.pcs[t], s.jobs[s.pcs[t].id]);
    assert Known(s, t, id);
    if s.pcs[t].id == id { SectionKeepsCalm(sec, s.pcs[t], s.jobs[id]); }
    hide DoWork, NextJob, NextPc, CalmPc, StatusInv, Moves;
  }

  lemma BystanderKnows(workers: map<Worker, Url>, s: State, t: Tid, sec: Section, u: Tid, id: JobId)
    requires TokenInv(s) && StatusInv(s, id) && Enabled(workers, s, Work(t, sec))
    requires u in DoWork(workers, s, t, sec).pcs && u != t
    ensures Known(DoWork(workers, s, t, sec), u, id)
  {
    WorkMoves(workers, s, t, sec);
    hide DoWork, NextJob, NextPc, CalmPc, QueueInv, LiveInv, ThreadInv, CancelsLock, OneFires, BeingCancelled,
      BeingStarted;
    assert u in s.pcs.Keys + {t} && Known(s, u, id);
    if s.pcs[t].id == id { WorksAlone(workers, s, t, sec, u); }
  }

  lemma OthersFire(s: State, s': State, t: Tid, id: JobId)
    requires OneFires(s, id) && Moves(s, s', t) && (t in s'.pcs ==> !s'.pcs[t].CancelFiring?)
    ensures OneFires(s', id)
  {
  }

  /** One thread moves, and takes no part in cancelling or starting the job. */
  lemma NobodyComes(s: State, s': State, t: Tid, id: JobId)
    requires Moves(s, s', t)
    requires t in s'.pcs ==> s'.pcs[t] != CancelChecked(id) && !(Is(s'.pcs[t], Popped) && s'.pcs[t].id == id)
    ensures BeingCancelled(s', id) ==> BeingCancelled(s, id)
    ensures BeingStarted(s', id) ==> BeingStarted(s, id)
  {
    forall u | u in s'.pcs && u != t ensures u in s.pcs { assert u in s.pcs.Keys + {t}; }
  }

  /** In a calm run nobody else is busy with the job that a dispatcher works on. */
  lemma WorksAlone(workers: map<Worker, Url>, s: State, t: Tid, sec: Section, u: Tid)
    requires ThreadInv(s) && Enabled(workers, s, Work(t, sec)) && StatusInv(s, s.pcs[t].id)
    requires u in s.pcs && u != t
    ensures !On(s.pcs[u], s.pcs[t].id)
  {
    hide HolderInPlace;
    var id := s.pcs[t].id;
    assert Known(s, t, id) && Known(s, u, id) && Held(s.pcs[t]) == Some(id);
    assert Held(s.pcs[u]) != Some(id);
  }

  lemma PopKeepsStatus(s: State, t: Tid, id: JobId)
    requires StatusInv(s, id) && t in s.pcs && s.pcs[t].Idle? && s.pcs[t].worker in s.queues && Calm(s, Pop(t), id)
    ensures StatusInv(DoPop(s, t), id)
  {
    PopPendingIsSuffix(s.jobs, s.queues[s.pcs[t].worker]);
    hide PopPending;
    var s' := DoPop(s, t);
    assert Moves(s, s', t);
    forall u | u in s'.pcs ensures Known(s', u, id) { assert u in s.pcs && Known(s, u, id); }
    OthersFire(s, s', t, id);
    PopComes(s, t, id);
    hide CalmPc, Known, DoPop, BeingCancelled, BeingStarted;
  }

  lemma PopComes(s: State, t: Tid, id: JobId)
    requires StatusInv(s, id) && t in s.pcs && s.pcs[t].Idle? && s.pcs[t].worker in s.queues && Calm(s, Pop(t), id)
    ensures BeingCancelled(DoPop(s, t), id) ==> !BeingStarted(DoPop(s, t), id)
  {
    hide PopPending, Known;
    var s' := DoPop(s, t);
    assert Moves(s, s', t);
    assert BeingCancelled(s', id) ==> BeingCancelled(s, id);
    if s'.pcs[t] != At(Popped, s.pcs[t].worker, id) { NobodyComes(s, s', t, id); }
  }

  lemma CancelWriteKeepsStatus(s: State, t: Tid, id: JobId)
    requires StatusInv(s, id) && t in s.pcs && s.pcs[t].CancelChecked? && s.pcs[t].id in s.jobs
    ensures StatusInv(DoCancelWrite(s, t), id)
  {
    var s' := DoCancelWrite(s, t);
    assert Known(s, t, id);
    forall u | u in s'.pcs ensures Known(s', u, id) {
      if u != t {
        assert Known(s, u, id);
        if s.pcs[t].id == id && On(s.pcs[u], id) { CheckedAlone(s, t, u, id); }
      }
    }
    assert forall u :: u in s'.pcs ==> !s'.pcs[u].CancelChecked?;
    forall u | u in s.pcs && u != t && s.pcs[t].id == id ensures s.pcs[u] != CancelFiring(id) {
      assert Known(s, u, id);
    }
    hide CalmPc, Known;
  }

  /** While a cancel has seen the job PENDING, other threads at it are such as look at no status. */
  lemma CheckedAlone(s: State, t: Tid, u: Tid, id: JobId)
    requires StatusInv(s, id) && t in s.pcs && s.pcs[t] == CancelChecked(id) && u in s.pcs && u != t && On(s.pcs[u], id)
    ensures CalmPc(s.pcs[u], Cancelled)
  {
    assert Known(s, t, id) && Known(s, u, id);
    assert BeingCancelled(s, id) && (Is(s.pcs[u], Popped) ==> BeingStarted(s, id));
  }

  /** One thread changes place without touching any job that others know of. */
  lemma MoveKeepsStatus(s: State, s': State, t: Tid, id: JobId)
    requires StatusInv(s, id) && Moves(s, s', t) && (id in s.jobs ==> id in s'.jobs && s'.jobs[id] == s.jobs[id])
    requires t in s'.pcs ==> !Is(s'.pcs[t], Popped) && !s'.pcs[t].CancelFiring?
    requires t in s'.pcs && On(s'.pcs[t], id) ==> id in s'.jobs && CalmPc(s'.pcs[t], s'.jobs[id].status)
    requires s'.jobsLock == s.jobsLock || (s.jobsLock.None? && s'.jobsLock == Some(t))
    requires t in s'.pcs && s'.pcs[t].CancelChecked? ==>
               s.jobsLock.None? && s'.jobsLock == Some(t) && (s'.pcs[t].id == id ==> !BeingStarted(s, id))
    ensures StatusInv(s', id)
  {
    forall u | u in s'.pcs ensures Known(s', u, id) {
      if u != t { assert u in s.pcs.Keys + {t} && Known(s, u, id); }
    }
    OthersFire(s, s', t, id);
    MoveComes(s, s', t, id);
    hide CalmPc, Known, BeingCancelled, BeingStarted, OneFires;
  }

  lemma MoveComes(s: State, s': State, t: Tid, id: JobId)
    requires Moves(s, s', t) && (BeingCancelled(s, id) ==> !BeingStarted(s, id))
    requires t in s'.pcs ==> !Is(s'.pcs[t], Popped) && (s'.pcs[t] == CancelChecked(id) ==> !BeingStarted(s, id))
    ensures BeingCancelled(s', id) ==> !BeingStarted(s', id)
  {
    assert BeingStarted(s', id) ==> BeingStarted(s, id) by {
      if BeingStarted(s', id) {
        var u :| u in s'.pcs && Is(s'.pcs[u], Popped) && s'.pcs[u].id == id;
        assert u in s.pcs.Keys + {t};
      }
    }
    if t !in s'.pcs || s'.pcs[t] != CancelChecked(id) { NobodyComes(s, s', t, id); }
  }

  // ---- the ledger ----

  lemma CalmKeepsLedger(workers: map<Worker, Url>, s: State, a: Action, id: JobId)
    requires TokenInv(s) && StatusInv(s, id) && LedgerInv(s, id) && Enabled(workers, s, a) && Calm(s, a, id)
    ensures LedgerInv(Apply(workers, s, a), id)
  {
    hide TokenInv, StatusInv, LedgerInv, Calm;
    match a
    case Work(t, sec) => WorkKeepsLedger(workers, s, t, sec, id);
    case CancelWrite(t) => CancelWriteKeepsLedger(s, t, id);
    case CancelFire(t) => CancelFireKeepsLedger(workers, s, t, id);
    case Pop(t) => PopKeepsLedger(s, t, id);
    case Enqueue(_, _, _, _, _, _) => ArriveKeepsLedger(workers, s, a, id);
    case CancelCheck(_, _) => ArriveKeepsLedger(workers, s, a, id);
    case _ => LeaveKeepsLedger(workers, s, a, id);
  }

  lemma PopKeepsLedger(s: State, t: Tid, id: JobId)
    requires LedgerInv(s, id) && t in s.pcs && s.pcs[t].Idle?
    ensures LedgerInv(DoPop(s, t), id)
  {
    hide PopPending, LedgerInv;
    MoveKeepsLedger(s, DoPop(s, t), t, id);
  }

  lemma ArriveKeepsLedger(workers: map<Worker, Url>, s: State, a: Action, id: JobId)
    requires LedgerInv(s, id) && Enabled(workers, s, a) && (a.Enqueue? || a.CancelCheck?)
    ensures LedgerInv(Apply(workers, s, a), id)
  {
    hide PopPending, LedgerInv;
    MoveKeepsLedger(s, Apply(workers, s, a), a.t, id);
  }

  lemma LeaveKeepsLedger(workers: map<Worker, Url>, s: State, a: Action, id: JobId)
    requires LedgerInv(s, id) && Enabled(workers, s, a)
    requires a.Insert? || a.Requeue? || a.StartDispatcher? || a.StopDispatcher?
    ensures LedgerInv(Apply(workers, s, a), id)
  {
    hide PopPending, QueueOf, LedgerInv;
    MoveKeepsLedger(s, Apply(workers, s, a), a.t, id);
  }

  lemma SameDebts(s: State, s': State, t: Tid, id: JobId)
    requires Moves(s, s', t)
    requires t in s.pcs && Owes(s.pcs[t]) && s.pcs[t].id == id <==> t in s'.pcs && Owes(s'.pcs[t]) && s'.pcs[t].id == id
    ensures Owed(s', id) == Owed(s, id)
  {
    if Owed(s, id) {
      var u :| u in s.pcs && Owes(s.pcs[u]) && s.pcs[u].id == id;
      assert u in s'.pcs && Owes(s'.pcs[u]) && s'.pcs[u].id == id;
    }
    if Owed(s', id) {
      var u :| u in s'.pcs && Owes(s'.pcs[u]) && s'.pcs[u].id == id;
      assert u in s.pcs && Owes(s.pcs[u]) && s.pcs[u].id == id;
    }
  }

  lemma MoveKeepsLedger(s: State, s': State, t: Tid, id: JobId)
    requires LedgerInv(s, id) && s'.events == s.events
    requires Moves(s, s', t)
    requires (t in s.pcs ==> !Owes(s.pcs[t])) && (t in s'.pcs ==> !Owes(s'.pcs[t]))
    requires id in s.jobs ==> id in s'.jobs && s'.jobs[id] == s.jobs[id]
    requires id in s'.jobs && id !in s.jobs ==> s'.jobs[id].status.Pending?
    ensures LedgerInv(s', id)
  {
    SameDebts(s, s', t, id);
  }

  lemma WorkKeepsLedger(workers: map<Worker, Url>, s: State, t: Tid, sec: Section, id: JobId)
    requires TokenInv(s) && StatusInv(s, id) && LedgerInv(s, id)
    requires Enabled(workers, s, Work(t, sec)) && Calm(s, Work(t, sec), id)
    ensures LedgerInv(DoWork(workers, s, t, sec), id)
  {
    hide TokenInv, StatusInv, Calm, NextJob, NextPc, NextLocks, NextEvents, Owed, DoWork, Moves, Count;
    WorkLogs(workers, s, t, sec, id);
    WorkMoves(workers, s, t, sec);
    if s.pcs[t].id == id {
      WorkPaysDebts(workers, s, t, sec);
    } else {
      OtherDebts(workers, s, t, sec, id);
    }
  }

  lemma OtherDebts(workers: map<Worker, Url>, s: State, t: Tid, sec: Section, k: JobId)
    requires Enabled(workers, s, Work(t, sec)) && k != s.pcs[t].id
    ensures Owed(DoWork(workers, s, t, sec), k) == Owed(s, k)
  {
    WorkMoves(workers, s, t, sec);
    SectionKeepsJob(sec, s.pcs[t], s.jobs[s.pcs[t].id]);
    hide Owed, NextJob, NextPc, DoWork, Moves;
    SameDebts(s, DoWork(workers, s, t, sec), t, k);
  }

  lemma WorkLogs(workers: map<Worker, Url>, s: State, t: Tid, sec: Section, k: JobId)
    requires Enabled(workers, s, Work(t, sec))
    ensures Count(DoWork(workers, s, t, sec).events, k) ==
            Count(s.events, k) + (if k == s.pcs[t].id && (sec.FireDone? || sec.FireFailed?) then 1 else 0)
  {
    CountSnoc(s.events, Event(s.pcs[t].id, if sec.FireDone? then DoneEvent else FailedEvent), k);
    assert s.events + [] == s.events;
  }

  lemma WorkPaysDebts(workers: map<Worker, Url>, s: State, t: Tid, sec: Section)
    requires TokenInv(s) && Enabled(workers, s, Work(t, sec))
    requires StatusInv(s, s.pcs[t].id) && Calm(s, Work(t, sec), s.pcs[t].id)
    ensures var s', id := DoWork(workers, s, t, sec), s.pcs[t].id;
            && Owed(s', id) == (sec.Complete? || (sec.Handle? && s.jobs[id].retriesLeft <= 0))
            && (Owed(s, id) <==> sec.FireDone? || sec.FireFailed?)
            && (Terminal(s.jobs[id].status) <==> sec.FireDone? || sec.FireFailed? || sec.NotifyEnds?)
            && (Terminal(s'.jobs[id].status) <==> Terminal(s.jobs[id].status) || Owed(s', id))
  {
    var s' := DoWork(workers, s, t, sec);
    var id := s.pcs[t].id;
    assert Known(s, t, id);
    SectionDebts(sec, s.pcs[t], s.jobs[id]);
    WorkMoves(workers, s, t, sec);
    forall u | u in s.pcs && u != t
      ensures !On(s.pcs[u], id) { WorksAlone(workers, s, t, sec, u) by { assert ThreadInv(s); } }
    hide TokenInv, StatusInv, NextJob, NextPc, DoWork, Owed;
    OnlyTheHolderOwes(s, t, id);
    OnlyTheHolderStillOwes(s, s', t, id);
  }

  lemma OnlyTheHolderOwes(s: State, t: Tid, id: JobId)
    requires t in s.pcs && forall u :: u in s.pcs && u != t ==> !On(s.pcs[u], id)
    ensures Owed(s, id) <==> Owes(s.pcs[t]) && s.pcs[t].id == id
  {
    assert forall u :: u in s.pcs && Owes(s.pcs[u]) && s.pcs[u].id == id ==> On(s.pcs[u], id);
  }

  lemma SectionDebts(sec: Section, pc: Pc, j: Job)
    requires StartsAt(sec, pc) && CalmPc(pc, j.status) && sec != NotifyEnds(true)
    ensures var pc' := NextPc(sec, pc.worker, pc.id, j);
            && (pc'.Some? && Owes(pc'.value) <==> sec.Complete? || (sec.Handle? && j.retriesLeft <= 0))
            && (pc'.Some? && Owes(pc'.value) ==> pc'.value.id == pc.id)
            && (Owes(pc) <==> sec.FireDone? || sec.FireFailed?)
            && (Terminal(j.status) <==> sec.FireDone? || sec.FireFailed? || sec.NotifyEnds?)
            && (Terminal(NextJob(sec, j).status) <==> Terminal(j.status) || (pc'.Some? && Owes(pc'.value)))
  {
  }

  lemma OnlyTheHolderStillOwes(s: State, s': State, t: Tid, id: JobId)
    requires Moves(s, s', t) && forall u :: u in s.pcs && u != t ==> !On(s.pcs[u], id)
    ensures Owed(s', id) <==> t in s'.pcs && Owes(s'.pcs[t]) && s'.pcs[t].id == id
  {
    forall u | u in s'.pcs && u != t ensures !On(s'.pcs[u], id) { assert u in s.pcs.Keys + {t}; }
    assert forall u :: u in s'.pcs && Owes(s'.pcs[u]) && s'.pcs[u].id == id ==> On(s'.pcs[u], id);
  }

  lemma CancelWriteKeepsLedger(s: State, t: Tid, id: JobId)
    requires StatusInv(s, id) && LedgerInv(s, id) && t in s.pcs && s.pcs[t].CancelChecked? && s.pcs[t].id in s.jobs
    ensures LedgerInv(DoCancelWrite(s, t), id)
  {
    var s' := DoCancelWrite(s, t);
    if s.pcs[t].id == id {
      assert Known(s, t, id);
      assert Owes(s'.pcs[t]) && s'.pcs[t].id == id;
    } else {
      SameDebts(s, s', t, id);
    }
  }

  lemma CancelFireKeepsLedger(workers: map<Worker, Url>, s: State, t: Tid, id: JobId)
    requires TokenInv(s) && StatusInv(s, id) && LedgerInv(s, id) && Enabled(workers, s, CancelFire(t))
    ensures LedgerInv(Apply(workers, s, CancelFire(t)), id)
  {
    var s' := Apply(workers, s, CancelFire(t));
    CountSnoc(s.events, Event(s.pcs[t].id, CancelledEvent), id);
    if s.pcs[t].id == id {
      assert Known(s, t, id);
      forall u | u in s.pcs && u != t ensures !(Owes(s.pcs[u]) && s.pcs[u].id == id) { assert Known(s, u, id); }
      assert Owed(s, id) && !Owed(s', id);
    } else {
      SameDebts(s, s', t, id);
    }
  }

  // ---- main results ----

  lemma {:induction false} CalmRunKeepsInvariants(workers: map<Worker, Url>, s: State, run: seq<Action>, id: JobId)
    requires TokenInv(s) && StatusInv(s, id) && LedgerInv(s, id) && ValidRun(workers, s, run)
             && CalmRun(workers, s, run, id)
    ensures var s' := After(workers, s, run); TokenInv(s') && StatusInv(s', id) && LedgerInv(s', id)
    decreases |run|
  {
    if run != [] {
      ApplyKeepsTokens(workers, s, run[0]);
      CalmKeepsStatus(workers, s, run[0], id);
      CalmKeepsLedger(workers, s, run[0], id);
      hide TokenInv, StatusInv, LedgerInv, Calm, Enabled, Apply;
      CalmRunKeepsInvariants(workers, Apply(workers, s, run[0]), run[1..], id);
    }
  }

  /** In a run that is calm for it, a job logs at most one terminal event, and exactly one once it is finished and
   *  delivered, whatever happens to other jobs. */
  lemma OneTerminalEvent(workers: map<Worker, Url>, run: seq<Action>, id: JobId)
    requires ValidRun(workers, Init, run) && CalmRun(workers, Init, run, id)
    ensures var s := After(workers, Init, run);
            Count(s.events, id) == (if id in s.jobs && Terminal(s.jobs[id].status) && !Owed(s, id) then 1 else 0)
  {
    CalmRunKeepsInvariants(workers, Init, run, id);
  }

  /** In a run that is calm for it, a job's terminal status is final. */
  lemma {:induction false} TerminalIsAbsorbing(workers: map<Worker, Url>, s: State, run: seq<Action>, id: JobId)
    requires TokenInv(s) && StatusInv(s, id) && ValidRun(workers, s, run) && CalmRun(workers, s, run, id)
    requires id in s.jobs && Terminal(s.jobs[id].status)
    ensures id in After(workers, s, run).jobs && After(workers, s, run).jobs[id].status == s.jobs[id].status
    decreases |run|
  {
    if run != [] {
      ApplyKeepsTokens(workers, s, run[0]);
      CalmKeepsStatus(workers, s, run[0], id);
      CalmStepKeepsTerminal(workers, s, run[0], id);
      hide TokenInv, StatusInv, Calm, Enabled, Apply;
      TerminalIsAbsorbing(workers, Apply(workers, s, run[0]), run[1..], id);
    }
  }

  lemma CalmStepKeepsTerminal(workers: map<Worker, Url>, s: State, a: Action, id: JobId)
    requires StatusInv(s, id) && Enabled(workers, s, a) && Calm(s, a, id) && id in s.jobs && Terminal(s.jobs[id].status)
    ensures id in Apply(workers, s, a).jobs && Apply(workers, s, a).jobs[id].status == s.jobs[id].status
  {
    hide PopPending, NextPc, NextLocks, NextEvents;
    if a.Work? || a.CancelWrite? {
      assert Known(s, a.t, id);
    }
  }

  // ---- outside calm runs ----

  /** Exactly these steps change the status of a finished job. */
  lemma OverwritesExactly(workers: map<Worker, Url>, s: State, a: Action, id: JobId)
    requires TokenInv(s) && Enabled(workers, s, a) && id in s.jobs && Terminal(s.jobs[id].status)
    ensures id in Apply(workers, s, a).jobs
    ensures var j := s.jobs[id];
            Apply(workers, s, a).jobs[id].status != j.status <==>
              || (a.CancelWrite? && s.pcs[a.t].id == id && !j.status.Cancelled?)
              || (a.Work? && s.pcs[a.t].id == id
                  && (a.section.Activate?
                      || (a.section.Complete? && !j.status.Done?)
                      || (a.section.Handle? && (j.retriesLeft > 0 || !j.status.Failed?))))
  {
  }

  lemma ConsRun(workers: map<Worker, Url>, s: State, a: Action, rest: seq<Action>)
    requires Enabled(workers, s, a) && ValidRun(workers, Apply(workers, s, a), rest)
    ensures ValidRun(workers, s, [a] + rest)
    ensures After(workers, s, [a] + rest) == After(workers, Apply(workers, s, a), rest)
  {
    assert ([a] + rest)[1..] == rest;
  }

  /** A cancel that lands after the pop reports success and logs its event, and the job runs all the same. */
  lemma CancelAfterPopIsLost(workers: map<Worker, Url>, s: State, t: Tid, c: Tid) returns (run: seq<Action>)
    requires ThreadInv(s) && t in s.pcs && Is(s.pcs[t], Popped) && s.jobs[s.pcs[t].id].status.Pending?
    requires c !in s.pcs && s.jobsLock.None?
    ensures ValidRun(workers, s, run)
    ensures var s', id := After(workers, s, run), s.pcs[t].id;
            && s'.events == s.events + [Event(id, CancelledEvent)]
            && id in s'.jobs && s'.jobs[id].status == Active
            && s'.pcs == s.pcs[t := At(Activated, s.pcs[t].worker, id)]
  {
    assert HolderInPlace(s, s.pcs[t]);
    var id := s.pcs[t].id;
    CancelInThreeSteps(workers, s, c, id);
    hide ThreadInv;
    var cancel := [CancelCheck(c, id)] + ([CancelWrite(c)] + [CancelFire(c)]);
    var s3 := After(workers, s, cancel);
    ConsRun(workers, s3, Work(t, Activate), []);
    AppendRun(workers, s, cancel, [Work(t, Activate)]);
    assert [Work(t, Activate)] + [] == [Work(t, Activate)];
    assert s3.events + [] == s3.events;
    run := cancel + [Work(t, Activate)];
  }

  lemma {:induction false} AppendRun(workers: map<Worker, Url>, s: State, a: seq<Action>, b: seq<Action>)
    requires ValidRun(workers, s, a) && ValidRun(workers, After(workers, s, a), b)
    ensures ValidRun(workers, s, a + b) && After(workers, s, a + b) == After(workers, After(workers, s, a), b)
    decreases |a|
  {
    if a == [] {
      assert a + b == b;
    } else {
      AppendRun(workers, Apply(workers, s, a[0]), a[1..], b);
      assert (a + b)[1..] == a[1..] + b;
    }
  }

  /** An undisturbed cancel of a PENDING job. */
  lemma CancelInThreeSteps(workers: map<Worker, Url>, s: State, c: Tid, id: JobId)
    requires c !in s.pcs && s.jobsLock.None? && id in s.jobs && s.jobs[id].status.Pending?
    ensures var run := [CancelCheck(c, id)] + ([CancelWrite(c)] + [CancelFire(c)]);
            && ValidRun(workers, s, run)
            && After(workers, s, run) == s.(jobs := s.jobs[id := s.jobs[id].(status := Cancelled)],
                                            events := s.events + [Event(id, CancelledEvent)])
  {
    var s1 := Apply(workers, s, CancelCheck(c, id));
    var s2 := Apply(workers, s1, CancelWrite(c));
    var s3 := Apply(workers, s2, CancelFire(c));
    ConsRun(workers, s2, CancelFire(c), []);
    assert [CancelFire(c)] + [] == [CancelFire(c)];
    ConsRun(workers, s1, CancelWrite(c), [CancelFire(c)]);
    ConsRun(workers, s, CancelCheck(c, id), [CancelWrite(c)] + [CancelFire(c)]);
    assert s3.pcs == s.pcs;
  }

  /** A callback that raises while a finished job is announced sends the job back to the queue, or fails it. */
  lemma RaisingCallbackUndoesDone(workers: map<Worker, Url>, s: State, t: Tid)
    requires TokenInv(s) && t in s.pcs && Is(s.pcs[t], Notifying) && s.jobs[s.pcs[t].id].status.Done?
    ensures var run := [Work(t, NotifyEnds(true))] + [Work(t, Handle)];
            && ValidRun(workers, s, run)
            && var s', j := After(workers, s, run), s.jobs[s.pcs[t].id];
               && s.pcs[t].id in s'.jobs
               && s'.jobs[s.pcs[t].id].status == (if j.retriesLeft > 0 then Pending else Failed)
               && s'.events == s.events
  {
    assert HolderInPlace(s, s.pcs[t]);
    var s1 := Apply(workers, s, Work(t, NotifyEnds(true)));
    ConsRun(workers, s1, Work(t, Handle), []);
    assert [Work(t, Handle)] + [] == [Work(t, Handle)];
    ConsRun(workers, s, Work(t, NotifyEnds(true)), [Work(t, Handle)]);
    assert s1.events == s.events + [] == s.events;
  }

  // ---- they happen ----

  predicate HasDispatcher(workers: map<Worker, Url>, w: Worker) { BaseUrl(workers, w) != "" || w == Worker("comfyui") }

  lemma SnocRun(workers: map<Worker, Url>, s: State, run: seq<Action>, a: Action)
    requires ValidRun(workers, s, run) && Enabled(workers, After(workers, s, run), a)
    ensures ValidRun(workers, s, run + [a]) && After(workers, s, run + [a]) == Apply(workers, After(workers, s, run), a)
  {
    hide Enabled, Apply;
    ConsRun(workers, After(workers, s, run), a, []);
    assert [a] + [] == [a];
    AppendRun(workers, s, run, [a]);
  }

  /** A job of worker w that dispatcher 1 holds, and nothing else. */
  function Alone(id: JobId, j: Job, phase: Phase, events: seq<Event>): State {
    State(map[id := j], map[j.worker := []], map[1 := At(phase, j.worker, id)], map[], None, events)
  }

  lemma FirstSteps(workers: map<Worker, Url>, id: JobId, w: Worker, retry: int)
    requires HasDispatcher(workers, w)
    ensures var j := NewJob(w, false, retry, None);
            var s1 := State(map[id := j], map[], map[0 := Registered(id)], map[], None, []);
            var s2 := State(map[id := j], map[w := [id]], map[], map[], None, []);
            var s3 := s2.(pcs := map[1 := Idle(w)]);
            && Enabled(workers, Init, Enqueue(0, id, w, false, retry, None))
               && Apply(workers, Init, Enqueue(0, id, w, false, retry, None)) == s1
            && Enabled(workers, s1, Insert(0)) && Apply(workers, s1, Insert(0)) == s2
            && Enabled(workers, s2, StartDispatcher(1, w)) && Apply(workers, s2, StartDispatcher(1, w)) == s3
            && Enabled(workers, s3, Pop(1)) && Apply(workers, s3, Pop(1)) == Alone(id, j, Popped, [])
  {
    assert [] + [id] == [id] && [id][1..] == [];
  }

  lemma ReachesPopped(workers: map<Worker, Url>, id: JobId, w: Worker, retry: int) returns (run: seq<Action>)
    requires HasDispatcher(workers, w)
    ensures ValidRun(workers, Init, run)
    ensures After(workers, Init, run) == Alone(id, NewJob(w, false, retry, None), Popped, [])
  {
    FirstSteps(workers, id, w, retry);
    hide Enabled, Apply, Alone, HasDispatcher;
    SnocRun(workers, Init, [], Enqueue(0, id, w, false, retry, None));
    run := [] + [Enqueue(0, id, w, false, retry, None)];
    SnocRun(workers, Init, run, Insert(0));
    run := run + [Insert(0)];
    SnocRun(workers, Init, run, StartDispatcher(1, w));
    run := run + [StartDispatcher(1, w)];
    SnocRun(workers, Init, run, Pop(1));
    run := run + [Pop(1)];
  }

  lemma WorksAt(workers: map<Worker, Url>, id: JobId, j: Job, phase: Phase, events: seq<Event>, sec: Section)
    requires StartsAt(sec, At(phase, j.worker, id)) && !sec.Acquire? && !sec.Release?
    requires NextPc(sec, j.worker, id, j).Some? && NextPc(sec, j.worker, id, j).value.At?
    ensures Enabled(workers, Alone(id, j, phase, events), Work(1, sec))
    ensures Apply(workers, Alone(id, j, phase, events), Work(1, sec)) ==
            Alone(id, NextJob(sec, j), NextPc(sec, j.worker, id, j).value.phase, events + NextEvents(sec, id))
  {
    SectionKeepsWorker(sec, id, j);
    hide NextJob, NextPc, NextEvents, EndpointKey;
  }

  lemma SectionKeepsWorker(sec: Section, id: JobId, j: Job)
    ensures NextJob(sec, j).worker == j.worker
    ensures var pc := NextPc(sec, j.worker, id, j);
            pc.Some? && pc.value.At? ==> pc.value.worker == j.worker && pc.value.id == id
  {
  }

  lemma Works(
      workers: map<Worker, Url>, run: seq<Action>, id: JobId, j: Job, phase: Phase, events: seq<Event>, sec: Section)
    requires ValidRun(workers, Init, run) && After(workers, Init, run) == Alone(id, j, phase, events)
    requires StartsAt(sec, At(phase, j.worker, id)) && !sec.Acquire? && !sec.Release?
    requires NextPc(sec, j.worker, id, j).Some? && NextPc(sec, j.worker, id, j).value.At?
    ensures ValidRun(workers, Init, run + [Work(1, sec)])
    ensures After(workers, Init, run + [Work(1, sec)]) ==
            Alone(id, NextJob(sec, j), NextPc(sec, j.worker, id, j).value.phase, events + NextEvents(sec, id))
  {
    WorksAt(workers, id, j, phase, events, sec);
    hide Enabled, Apply, Alone;
    SnocRun(workers, Init, run, Work(1, sec));
  }

  /** From the start there is a run in which a cancel reports success and logs its event, and its job is ACTIVE. */
  lemma CancelIsLostInARun(workers: map<Worker, Url>, id: JobId, w: Worker, retry: int) returns (run: seq<Action>)
    requires HasDispatcher(workers, w)
    ensures ValidRun(workers, Init, run)
    ensures var s := After(workers, Init, run);
            s.events == [Event(id, CancelledEvent)] && id in s.jobs && s.jobs[id].status == Active
  {
    var first := ReachesPopped(workers, id, w, retry);
    var s := After(workers, Init, first);
    RunKeepsTokens(workers, Init, first);
    var rest := CancelAfterPopIsLost(workers, s, 1, 2);
    AppendRun(workers, Init, first, rest);
    run := first + rest;
    assert [] + [Event(id, CancelledEvent)] == [Event(id, CancelledEvent)];
  }

  /** From the start there is a run in which a dispatcher dies with an ACTIVE job; what then becomes of the job is
   *  said by CrashLosesTheJob. */
  lemma CrashInARun(workers: map<Worker, Url>, id: JobId, w: Worker, retry: int) returns (run: seq<Action>)
    requires HasDispatcher(workers, w)
    ensures ValidRun(workers, Init, run)
    ensures var s := After(workers, Init, run);
            && TokenInv(s) && LockInv(workers, s) && 1 in s.pcs && Is(s.pcs[1], Crashed) && s.pcs[1].id == id
            && id in s.jobs && s.jobs[id].status == Active && s.jobs[id].attempts == 0
  {
    var j := NewJob(w, false, retry, None);
    run := ReachesPopped(workers, id, w, retry);
    Works(workers, run, id, j, Popped, [], Activate);
    run := run + [Work(1, Activate)];
    Works(workers, run, id, j.(status := Active), Activated, [] + [], AnnounceRaises);
    run := run + [Work(1, AnnounceRaises)];
    RunKeepsTokens(workers, Init, run);
  }

  /** From the start there is a run in which a job that was announced as done is PENDING again, or FAILED. */
  lemma DoneIsUndoneInARun(workers: map<Worker, Url>, id: JobId, w: Worker, retry: int) returns (run: seq<Action>)
    requires HasDispatcher(workers, w)
    ensures ValidRun(workers, Init, run)
    ensures var s := After(workers, Init, run);
            && s.events == [Event(id, DoneEvent)] && id in s.jobs
            && s.jobs[id].status == if retry > 0 then Pending else Failed
  {
    var j := NewJob(w, false, retry, None).(status := Active);
    run := ReachesPopped(workers, id, w, retry);
    Works(workers, run, id, j.(status := Pending), Popped, [], Activate);
    run := run + [Work(1, Activate)];
    Executes(workers, run, id, j);
    run := run + [Work(1, Acquire)] + [Work(1, Release(true))];
    var done := j.(attempts := 1);
    Works(workers, run, id, done, Returned, [], Complete);
    run := run + [Work(1, Complete)];
    Works(workers, run, id, done.(status := Done), FiringDone, [], FireDone);
    run := run + [Work(1, FireDone)];
    var s := After(workers, Init, run);
    RunKeepsTokens(workers, Init, run);
    RaisingCallbackUndoesDone(workers, s, 1);
    var rest := [Work(1, NotifyEnds(true))] + [Work(1, Handle)];
    AppendRun(workers, Init, run, rest);
    run := run + rest;
  }

  function Inside(workers: map<Worker, Url>, id: JobId, j: Job): State {
    Alone(id, j, Executing, []).(locks := map[EndpointKey(workers, j.worker) := 1])
  }

  lemma Acquires(workers: map<Worker, Url>, id: JobId, j: Job)
    ensures Enabled(workers, Alone(id, j, Activated, []), Work(1, Acquire))
    ensures Apply(workers, Alone(id, j, Activated, []), Work(1, Acquire)) ==
            Inside(workers, id, j.(attempts := j.attempts + 1))
  {
    hide EndpointKey;
    assert [] + NextEvents(Acquire, id) == [];
  }

  lemma Releases(workers: map<Worker, Url>, id: JobId, j: Job)
    ensures Enabled(workers, Inside(workers, id, j), Work(1, Release(true)))
    ensures Apply(workers, Inside(workers, id, j), Work(1, Release(true))) == Alone(id, j, Returned, [])
  {
    hide EndpointKey;
    var key := EndpointKey(workers, j.worker);
    assert map[key := 1] - {key} == map[];
    assert [] + NextEvents(Release(true), id) == [];
  }

  lemma Executes(workers: map<Worker, Url>, run: seq<Action>, id: JobId, j: Job)
    requires ValidRun(workers, Init, run) && After(workers, Init, run) == Alone(id, j, Activated, [])
    ensures ValidRun(workers, Init, run + [Work(1, Acquire)] + [Work(1, Release(true))])
    ensures After(workers, Init, run + [Work(1, Acquire)] + [Work(1, Release(true))]) ==
            Alone(id, j.(attempts := j.attempts + 1), Returned, [])
  {
    Acquires(workers, id, j);
    Releases(workers, id, j.(attempts := j.attempts + 1));
    hide Enabled, Apply, Alone, Inside;
    SnocRun(workers, Init, run, Work(1, Acquire));
    SnocRun(workers, Init, run + [Work(1, Acquire)], Work(1, Release(true)));
  }
}
