/** The gateway runtime object, driven by one thread: enqueue, cancel, the pop loop and the dispatch loop.
 *
 *  With one dispatcher and no callback that raises, `DrainWorker` is `_dispatch_loop` until its queue is empty.
 *  `execute(id, n)` is the oracle for attempt number n of a job: true when `_execute_job` returns.
 */
module GatewayRuntimes {
  import opened Basics
  import opened GatewayProtocol

  function Retries(j: Job): nat { if j.retriesLeft > 0 then j.retriesLeft else 0 }

  /** The attempts that the jobs waiting in `q` may still use. */
  function Budget(jobs: map<JobId, Job>, q: seq<JobId>): nat {
    if q == [] then 0
    else (if q[0] in jobs && jobs[q[0]].status.Pending? then Retries(jobs[q[0]]) + 1 else 0) + Budget(jobs, q[1..])
  }

  lemma BudgetFrame(jobs: map<JobId, Job>, jobs': map<JobId, Job>, q: seq<JobId>)
    requires forall id :: id in q ==> (id in jobs <==> id in jobs') && (id in jobs ==> jobs[id] == jobs'[id])
    ensures Budget(jobs, q) == Budget(jobs', q)
  {
  }

  lemma BudgetAfterPop(jobs: map<JobId, Job>, q: seq<JobId>)
    ensures var (rest, found) := PopPending(jobs, q);
            Budget(jobs, q) == Budget(jobs, rest) +
              (if found.Some? && found.value in jobs then Retries(jobs[found.value]) + 1 else 0)
  {
  }

  // ---- one turn of the dispatch loop, and the loop, on values ----

  datatype Books = Books(jobs: map<JobId, Job>, q: seq<JobId>, events: seq<Event>, attempts: nat)

  /** What one attempt makes of a job. */
  function Outcome(execute: (JobId, nat) -> bool, id: JobId, j: Job): Job {
    var job := NextJob(Acquire, NextJob(Activate, j));
    NextJob(if execute(id, job.attempts) then Complete else Handle, job)
  }

  /** Pop, activate, execute; then DONE, back to the front of the queue, or FAILED. */
  function Turn(execute: (JobId, nat) -> bool, b: Books): Books {
    var (rest, found) := PopPending(b.jobs, b.q);
    if found.None? || found.value !in b.jobs then b.(q := rest)
    else
      var id := found.value;
      var after := Outcome(execute, id, b.jobs[id]);
      Books(b.jobs[id := after],
            if after.status.Pending? then [id] + rest else rest,
            b.events + (if after.status.Done? then [Event(id, DoneEvent)]
                        else if after.status.Failed? then [Event(id, FailedEvent)] else []),
            b.attempts + 1)
  }

  ghost predicate WaitingIsQueued(w: Worker, b: Books) {
    forall id :: id in b.jobs && b.jobs[id].worker == w && !Terminal(b.jobs[id].status) ==> id in b.q
  }

  lemma OutcomePays(execute: (JobId, nat) -> bool, id: JobId, j: Job)
    ensures var j' := Outcome(execute, id, j);
            && j'.attempts == j.attempts + 1 && j'.worker == j.worker && j'.retry == j.retry
            && (j'.status.Pending? ==> Retries(j) == Retries(j') + 1 && j'.retriesLeft == j.retriesLeft - 1)
            && (!j'.status.Pending? ==> Terminal(j'.status) && j'.retriesLeft == j.retriesLeft)
            && (j'.status.Done? <==> execute(id, j'.attempts))
  {
  }

  /** What a pop leaves of a sound queue. */
  lemma PopFacts(w: Worker, b: Books)
    requires QueueOk(b.jobs, w, b.q)
    ensures var (rest, found) := PopPending(b.jobs, b.q);
            && QueueOk(b.jobs, w, rest) && |rest| <= |b.q| && (b.q != [] ==> |rest| < |b.q|)
            && (forall id :: id in rest ==> id in b.q)
            && (found.None? ==> rest == [])
            && (found.Some? ==> found.value in b.q && found.value !in rest && b.jobs[found.value].status.Pending?)
            && Budget(b.jobs, b.q) == Budget(b.jobs, rest)
               + (if found.Some? then Retries(b.jobs[found.value]) + 1 else 0)
  {
    hide PopPending, Budget, QueuedOk, QueueOk;
    var (rest, found) := PopPending(b.jobs, b.q);
    PopPendingIsSuffix(b.jobs, b.q);
    PopLeaves(b.jobs, w, b.q);
    BudgetAfterPop(b.jobs, b.q);
    assert |rest| <= |b.q| && (found.None? ==> |rest| == 0) && (found.Some? ==> |rest| < |b.q|);
  }

  /** A turn pays for its attempt out of the budget, or drops a queue of jobs that are not pending. */
  lemma TurnPays(w: Worker, execute: (JobId, nat) -> bool, b: Books)
    requires QueueOk(b.jobs, w, b.q) && b.q != []
    ensures var b' := Turn(execute, b);
            && b'.attempts + Budget(b'.jobs, b'.q) <= b.attempts + Budget(b.jobs, b.q)
            && (b'.attempts == b.attempts + 1 || (b'.attempts == b.attempts && b'.q == []))
            && (Budget(b'.jobs, b'.q) < Budget(b.jobs, b.q)
                || (Budget(b'.jobs, b'.q) == Budget(b.jobs, b.q) && |b'.q| < |b.q|))
  {
    var (rest, found) := PopPending(b.jobs, b.q);
    PopFacts(w, b);
    if found.Some? {
      var id := found.value;
      OutcomePays(execute, id, b.jobs[id]);
      var jobs' := b.jobs[id := Outcome(execute, id, b.jobs[id])];
      BudgetFrame(b.jobs, jobs', rest);
      BudgetCons(jobs', id, rest);
    }
  }

  lemma BudgetCons(jobs: map<JobId, Job>, id: JobId, q: seq<JobId>)
    ensures Budget(jobs, [id] + q) ==
            (if id in jobs && jobs[id].status.Pending? then Retries(jobs[id]) + 1 else 0) + Budget(jobs, q)
  {
    assert ([id] + q)[1..] == q;
  }

  lemma TurnKeepsQueue(w: Worker, execute: (JobId, nat) -> bool, b: Books)
    requires QueueOk(b.jobs, w, b.q)
    ensures QueueOk(Turn(execute, b).jobs, w, Turn(execute, b).q)
    ensures WaitingIsQueued(w, b) ==> WaitingIsQueued(w, Turn(execute, b))
  {
    var (rest, found) := PopPending(b.jobs, b.q);
    PopFacts(w, b);
    if found.Some? {
      var id := found.value;
      OutcomePays(execute, id, b.jobs[id]);
      ConsKeepsQueue(b.jobs, w, rest, id, Outcome(execute, id, b.jobs[id]));
    }
    if WaitingIsQueued(w, b) {
      PopLeaves(b.jobs, w, b.q);
      forall id | id in b.jobs && b.jobs[id].worker == w && !Terminal(b.jobs[id].status)
        ensures id in rest || found == Some(id) {
        assert QueuedOk(w, b.jobs[id]);
      }
    }
  }

  lemma ConsKeepsQueue(jobs: map<JobId, Job>, w: Worker, q: seq<JobId>, id: JobId, j: Job)
    requires QueueOk(jobs, w, q) && id !in q
    ensures QueueOk(jobs[id := j], w, q)
    ensures QueuedOk(w, j) ==> QueueOk(jobs[id := j], w, [id] + q)
  {
  }

  /** A turn touches the popped job alone: a waiting job of the worker. */
  lemma TurnIsLocal(w: Worker, execute: (JobId, nat) -> bool, b: Books, id: JobId)
    requires QueueOk(b.jobs, w, b.q) && id in b.jobs && JobOk(b.jobs[id])
    ensures var b' := Turn(execute, b);
            && b'.jobs.Keys == b.jobs.Keys && JobOk(b'.jobs[id])
            && (b'.jobs[id] == b.jobs[id]
                || (b.jobs[id].status.Pending? && b.jobs[id].worker == w && b'.jobs[id].worker == w
                    && b'.jobs[id].attempts == b.jobs[id].attempts + 1
                    && (b'.jobs[id].status.Done? <==> execute(id, b'.jobs[id].attempts))))
  {
    PopFacts(w, b);
    OutcomePays(execute, id, b.jobs[id]);
    if PopPending(b.jobs, b.q).1 == Some(id) { assert id in b.q && QueuedOk(w, b.jobs[id]); }
  }

  /** The dispatch loop until the queue is empty. */
  function Drain(w: Worker, execute: (JobId, nat) -> bool, b: Books): Books
    requires QueueOk(b.jobs, w, b.q)
    decreases Budget(b.jobs, b.q), |b.q|
  {
    if b.q == [] then b
    else
      TurnPays(w, execute, b);
      TurnKeepsQueue(w, execute, b);
      Drain(w, execute, Turn(execute, b))
  }

  /** One dispatcher drains its queue within the budget, and then every job of its worker is finished. */
  lemma {:induction false} DrainFinishes(w: Worker, execute: (JobId, nat) -> bool, b: Books)
    requires QueueOk(b.jobs, w, b.q)
    ensures var b' := Drain(w, execute, b);
            && b'.q == [] && b'.attempts <= b.attempts + Budget(b.jobs, b.q)
            && (WaitingIsQueued(w, b) ==> forall id :: id in b'.jobs && b'.jobs[id].worker == w ==>
               Terminal(b'.jobs[id].status))
    decreases Budget(b.jobs, b.q), |b.q|
  {
    if b.q != [] {
      TurnPays(w, execute, b);
      TurnKeepsQueue(w, execute, b);
      DrainFinishes(w, execute, Turn(execute, b));
    }
  }

  /** Draining leaves other workers and finished jobs alone, and a job becomes DONE only by an attempt that returned. */
  lemma {:induction false} DrainIsFair(w: Worker, execute: (JobId, nat) -> bool, b: Books, id: JobId)
    requires QueueOk(b.jobs, w, b.q) && id in b.jobs && JobOk(b.jobs[id])
    ensures var b' := Drain(w, execute, b);
            && b'.jobs.Keys == b.jobs.Keys && JobOk(b'.jobs[id]) && b'.jobs[id].worker == b.jobs[id].worker
            && (b.jobs[id].worker != w || Terminal(b.jobs[id].status) ==> b'.jobs[id] == b.jobs[id])
            && (b'.jobs[id] != b.jobs[id] && b'.jobs[id].status.Done? ==> execute(id, b'.jobs[id].attempts))
            && (b'.jobs[id] != b.jobs[id] && b'.jobs[id].status.Failed? ==> !execute(id, b'.jobs[id].attempts))
    decreases Budget(b.jobs, b.q), |b.q|
  {
    if b.q != [] {
      TurnPays(w, execute, b);
      TurnKeepsQueue(w, execute, b);
      TurnIsLocal(w, execute, b, id);
      DrainIsFair(w, execute, Turn(execute, b), id);
    }
  }

  /** Between two sections nobody holds a job: every waiting job of a worker is in its queue, once. */
  ghost predicate InOrder(jobs: map<JobId, Job>, queues: map<Worker, seq<JobId>>) {
    && (forall w :: w in queues ==> QueueOk(jobs, w, queues[w]))
    && (forall id :: id in jobs ==>
          JobOk(jobs[id]) && (Terminal(jobs[id].status)
            || (jobs[id].worker in queues && id in queues[jobs[id].worker])))
  }

  /** A new job, in front of its queue or behind it, leaves everything in order. */
  lemma AddedInOrder(jobs: map<JobId, Job>, queues: map<Worker, seq<JobId>>, id: JobId, w: Worker, high: bool, j: Job)
    requires InOrder(jobs, queues) && id !in jobs && JobOk(j) && QueuedOk(w, j)
    ensures var q := if w in queues then queues[w] else [];
            InOrder(jobs[id := j], queues[w := if high then [id] + q else q + [id]])
  {
    hide JobOk, Terminal;
    var q := if w in queues then queues[w] else [];
    var q' := if high then [id] + q else q + [id];
    forall v | v in queues && v != w ensures QueueOk(jobs[id := j], v, queues[v]) {
      assert QueueOk(jobs, v, queues[v]);
    }
    assert QueueOk(jobs[id := j], w, q') by {
      if w in queues { assert QueueOk(jobs, w, q); }
      assert id !in q;
    }
    assert id in q' && forall k :: k in q ==> k in q';
  }

  class GatewayRuntime {
    var jobs: map<JobId, Job>
    var queues: map<Worker, seq<JobId>>
    var events: seq<Event>
    var attempts: nat

    constructor ()
      ensures jobs == map[] && queues == map[] && events == [] && attempts == 0
    {
      jobs, queues, events, attempts := map[], map[], [], 0;
    }

    function Queue(w: Worker): seq<JobId>
      reads this
    {
      if w in queues then queues[w] else []
    }

    ghost predicate Valid()
      reads this
    {
      InOrder(jobs, queues)
    }

    /** Registers and inserts a job; a known id leaves everything as it is. */
    method Enqueue(id: JobId, w: Worker, high: bool, retry: int, server: Option<Url>)
      requires Valid()
      modifies this
      ensures Valid() && events == old(events) && attempts == old(attempts)
      ensures id in old(jobs) ==> jobs == old(jobs) && queues == old(queues)
      ensures id !in old(jobs) ==>
                && jobs == old(jobs)[id := NewJob(w, high, retry, server)]
                && queues == old(queues)[w := if high then [id] + old(Queue(w)) else old(Queue(w)) + [id]]
    {
      if id in jobs {
        return;
      }
      hide InOrder, QueueOk;
      AddedInOrder(jobs, queues, id, w, high, NewJob(w, high, retry, server));
      ghost var queues0 := queues;
      jobs := jobs[id := NewJob(w, high, retry, server)];
      if w !in queues {
        queues := queues[w := []];
      }
      var q := queues[w];
      queues := queues[w := if high then [id] + q else q + [id]];
      assert queues == queues0[w := queues[w]];
    }

    /** Cancels a waiting job and logs it; any other job is left alone. */
    method Cancel(id: JobId) returns (ok: bool)
      requires Valid()
      modifies this
      ensures Valid() && queues == old(queues) && attempts == old(attempts)
      ensures ok == (id in old(jobs) && old(jobs)[id].status.Pending?)
      ensures ok ==>
                && jobs == old(jobs)[id := old(jobs)[id].(status := Cancelled)]
                && events == old(events) + [Event(id, CancelledEvent)]
      ensures !ok ==> jobs == old(jobs) && events == old(events)
    {
      if id !in jobs || !jobs[id].status.Pending? {
        return false;
      }
      assert forall w :: w in queues ==> QueueOk(jobs, w, queues[w]);
      jobs := jobs[id := jobs[id].(status := Cancelled)];
      events := events + [Event(id, CancelledEvent)];
      return true;
    }

    /** The pop loop: drops what is no longer PENDING. */
    method PopJob(w: Worker) returns (found: Option<JobId>)
      modifies this`queues
      ensures (Queue(w), found) == PopPending(jobs, old(Queue(w)))
      ensures queues == if w in old(queues) then old(queues)[w := Queue(w)] else old(queues)
    {
      found := None;
      var q := if w in queues then queues[w] else [];
      ghost var q0 := q;
      while q != [] && found.None?
        invariant found.None? ==> PopPending(jobs, q0) == PopPending(jobs, q)
        invariant found.Some? ==> PopPending(jobs, q0) == (q, found)
        decreases |q|
      {
        var candidate := q[0];
        q := q[1..];
        if candidate in jobs && jobs[candidate].status.Pending? {
          found := Some(candidate);
        }
      }
      if w in queues {
        queues := queues[w := q];
      }
    }

    /** One turn of the dispatch loop: pop, activate, execute, then DONE, back to the front of the queue, or FAILED. */
    method Dispatch(w: Worker, execute: (JobId, nat) -> bool)
      requires QueueOk(jobs, w, Queue(w)) && w in queues
      modifies this
      ensures Books(jobs, Queue(w), events, attempts) == Turn(execute, old(Books(jobs, Queue(w), events, attempts)))
      ensures queues == old(queues)[w := Queue(w)]
    {
      PopFacts(w, Books(jobs, Queue(w), events, attempts));
      var found := PopJob(w);
      if found.None? {
        return;
      }
      var id := found.value;
      var job := NextJob(Acquire, NextJob(Activate, jobs[id]));
      attempts := attempts + 1;
      if execute(id, job.attempts) {
        jobs := jobs[id := NextJob(Complete, job)];
        events := events + [Event(id, DoneEvent)];
      } else {
        var after := NextJob(Handle, job);
        jobs := jobs[id := after];
        if after.status.Pending? {
          queues := queues[w := [id] + queues[w]];
        } else {
          events := events + [Event(id, FailedEvent)];
        }
      }
    }

    lemma StartIsSound(w: Worker)
      requires Valid()
      ensures QueueOk(jobs, w, Queue(w)) && WaitingIsQueued(w, Books(jobs, Queue(w), events, attempts))
    {
    }

    /** `_dispatch_loop` of a lone dispatcher, until its queue is empty. */
    method DrainWorker(w: Worker, execute: (JobId, nat) -> bool)
      requires Valid()
      modifies this
      ensures old(QueueOk(jobs, w, Queue(w)))
      ensures Books(jobs, Queue(w), events, attempts) == Drain(w, execute, old(Books(jobs, Queue(w), events, attempts)))
      ensures queues == if w in old(queues) then old(queues)[w := []] else old(queues)
      ensures forall id :: id in jobs && jobs[id].worker == w ==> Terminal(jobs[id].status)
    {
      hide Turn, Budget, QueueOk, Terminal, WaitingIsQueued;
      ghost var b0 := Books(jobs, Queue(w), events, attempts);
      StartIsSound(w);
      DrainFinishes(w, execute, b0);
      while w in queues && queues[w] != []
        invariant QueueOk(jobs, w, Queue(w))
        invariant Drain(w, execute, Books(jobs, Queue(w), events, attempts)) == Drain(w, execute, b0)
        invariant queues == if w in old(queues) then old(queues)[w := Queue(w)] else old(queues)
        decreases Budget(jobs, Queue(w)), |Queue(w)|
      {
        TurnPays(w, execute, Books(jobs, Queue(w), events, attempts));
        TurnKeepsQueue(w, execute, Books(jobs, Queue(w), events, attempts));
        Dispatch(w, execute);
      }
    }
  }
}
