/** The thread pool (Threadpool/include/ThreadPool.h) as a step system.  Each step is one critical
    section or one notification; condition variables may wake spuriously.  Tasks are numbered in
    the order they are accepted. */
module ThreadPool {

  const SIZE_MAX: nat := 0xFFFF_FFFF_FFFF_FFFF

  /** A worker thread. */
  datatype Worker =
    | Ready                          // will take the lock and look at the condition
    | Waiting                        // blocked on taskCondition_
    | Busy(task: nat)                // running a task
    | Exited

  /** A thread in `waitAll`. */
  datatype Waiter = Checking | Blocked | Returned

  /** The thread whose `shutdown` set `stopping_`. */
  datatype Shutdown = NotCalled | Flagged | Joining | Finished

  datatype Pool = Pool(
    accepting: bool,
    stopping: bool,
    tasks: seq<nat>,                 // tasks_
    active: nat,                     // activeTasks_
    workers: map<nat, Worker>,
    waiters: map<nat, Waiter>,
    notifies: nat,                   // submits whose notify_one is still to come
    shutdown: Shutdown,
    accepted: nat,                   // history: tasks 0 .. accepted - 1 were accepted
    finished: set<nat>)              // and these have run

  datatype Action =
    | Submit | NotifyOne(worker: nat) | NotifyNobody
    | Look(worker: nat)                                // take a task, wait, or leave
    | WakeSpuriously(worker: nat)
    | Finish(worker: nat)
    | CallWaitAll(waiter: nat) | Check(waiter: nat) | WakeWaiter(waiter: nat)
    | CallShutdown | NotifyAll | Join

  predicate IsWorker(s: Pool, w: nat, pc: Worker) { w in s.workers && s.workers[w] == pc }

  function ReadySet(workers: map<nat, Worker>): set<nat> { set w | w in workers && workers[w].Ready? }

  function BusySet(workers: map<nat, Worker>): set<nat> { set w | w in workers && workers[w].Busy? }

  function RunningTasks(workers: map<nat, Worker>): set<nat> {
    set w | w in workers && workers[w].Busy? :: workers[w].task
  }

  predicate AnyWaiting(workers: map<nat, Worker>) { exists w :: w in workers && workers[w].Waiting? }

  predicate Idle(s: Pool) { s.tasks == [] && s.active == 0 }

  predicate Enabled(s: Pool, a: Action) {
    match a
    case Submit => s.accepting                                           // otherwise submit throws
    case NotifyOne(w) => s.notifies > 0 && IsWorker(s, w, Waiting)
    case NotifyNobody => s.notifies > 0 && !AnyWaiting(s.workers)
    case Look(w) => IsWorker(s, w, Ready)
    case WakeSpuriously(w) => IsWorker(s, w, Waiting)
    case Finish(w) => w in s.workers && s.workers[w].Busy?
    case CallWaitAll(i) => i !in s.waiters
    case Check(i) => i in s.waiters && s.waiters[i] == Checking
    case WakeWaiter(i) => i in s.waiters && s.waiters[i] == Blocked
    case CallShutdown => !s.stopping                                     // a later call returns at once
    case NotifyAll => s.shutdown == Flagged
    case Join => s.shutdown == Joining && forall w :: w in s.workers ==> s.workers[w] == Exited
  }

  function Wake(workers: map<nat, Worker>): map<nat, Worker> {
    map w | w in workers :: if workers[w].Waiting? then Ready else workers[w]
  }

  function WakeWaiters(waiters: map<nat, Waiter>): map<nat, Waiter> {
    map i | i in waiters :: if waiters[i] == Blocked then Checking else waiters[i]
  }

  function Put(s: Pool, w: nat, pc: Worker): Pool { s.(workers := s.workers[w := pc]) }

  /** The first critical section of `workerLoop`. */
  function Looked(s: Pool, w: nat): Pool {
    if s.tasks != [] then Put(s, w, Busy(s.tasks[0])).(tasks := s.tasks[1..], active := s.active + 1)
    else if s.stopping then Put(s, w, Exited)
    else Put(s, w, Waiting)
  }

  /** The second critical section of `workerLoop`. */
  function Done(s: Pool, w: nat): Pool
    requires w in s.workers && s.workers[w].Busy?
  {
    var s' := Put(s, w, Ready).(active := if s.active == 0 then SIZE_MAX else s.active - 1,
                                finished := s.finished + {s.workers[w].task});
    if Idle(s') then s'.(waiters := WakeWaiters(s.waiters)) else s'
  }

  function Act(s: Pool, a: Action): Pool
    requires Enabled(s, a)
  {
    match a
    case Submit => s.(tasks := s.tasks + [s.accepted], accepted := s.accepted + 1, notifies := s.notifies + 1)
    case NotifyOne(w) => Put(s, w, Ready).(notifies := s.notifies - 1)
    case NotifyNobody => s.(notifies := s.notifies - 1)
    case Look(w) => Looked(s, w)
    case WakeSpuriously(w) => Put(s, w, Ready)
    case Finish(w) => Done(s, w)
    case CallWaitAll(i) => s.(waiters := s.waiters[i := Checking])
    case Check(i) => s.(waiters := s.waiters[i := if Idle(s) then Returned else Blocked])
    case WakeWaiter(i) => s.(waiters := s.waiters[i := Checking])
    case CallShutdown => s.(accepting := false, stopping := true, shutdown := Flagged)
    case NotifyAll => s.(workers := Wake(s.workers), shutdown := Joining)
    case Join => s.(shutdown := Finished)
  }

  function NewWorkers(n: nat): (workers: map<nat, Worker>)
    ensures forall w: nat :: w in workers <==> w < n
    ensures forall w :: w in workers ==> workers[w] == Ready
  {
    if n == 0 then map[] else NewWorkers(n - 1)[n - 1 := Ready]
  }

  /** The constructor makes at least one worker. */
  function Start(threadCount: nat): Pool {
    Pool(true, false, [], 0, NewWorkers(if threadCount == 0 then 1 else threadCount), map[], 0, NotCalled, 0, {})
  }

  // ---- the invariant ------------------------------------------------------------------------

  /** The number of tasks taken so far. */
  function Taken(s: Pool): int { s.accepted - |s.tasks| }

  /** Accepted tasks are queued, running or finished, each in exactly one way; the queue holds the
      latest ones in order. */
  ghost predicate Conserved(s: Pool) {
    && 0 <= Taken(s)
    && (forall i :: 0 <= i < |s.tasks| ==> s.tasks[i] == Taken(s) + i)
    && (forall t :: t in s.finished ==> t < Taken(s))
    && (forall w :: w in s.workers && s.workers[w].Busy? ==>
         s.workers[w].task < Taken(s) && s.workers[w].task !in s.finished)
    && (forall v, w :: v in s.workers && w in s.workers && v != w && s.workers[v].Busy? && s.workers[w].Busy? ==>
          s.workers[v].task != s.workers[w].task)
    && (forall t :: 0 <= t < Taken(s) ==> t in s.finished || t in RunningTasks(s.workers))
  }

  ghost predicate Counted(s: Pool) { s.active == |BusySet(s.workers)| }

  /** A blocked waiter has something to wait for. */
  ghost predicate WaitersOk(s: Pool) {
    forall i :: i in s.waiters && s.waiters[i] == Blocked ==> !Idle(s)
  }

  /** If a worker sleeps, enough wakeups for the queued tasks, and for the stop, are under way. */
  ghost predicate SleepersOk(s: Pool) {
    AnyWaiting(s.workers) ==>
      |s.tasks| <= s.notifies + |ReadySet(s.workers)| && (s.stopping ==> s.shutdown == Flagged)
  }

  ghost predicate StopsOk(s: Pool) {
    && (s.stopping ==> !s.accepting)
    && (s.stopping <==> s.shutdown != NotCalled)
    && (forall w :: w in s.workers && s.workers[w] == Exited ==> s.stopping && s.tasks == [])
    && (s.shutdown == Finished ==> forall w :: w in s.workers ==> s.workers[w] == Exited)
    && s.workers.Keys != {}
  }

  ghost predicate Inv(s: Pool) { Conserved(s) && Counted(s) && WaitersOk(s) && SleepersOk(s) && StopsOk(s) }

  // ---- every step keeps it ------------------------------------------------------------------

  lemma TakeConserved(s: Pool, w: nat)
    requires Conserved(s) && IsWorker(s, w, Ready) && s.tasks != []
    ensures Conserved(Looked(s, w))
  {
    var s' := Looked(s, w);
    TasksChange(s.workers, w, Busy(s.tasks[0]));
    assert s'.workers[w].task in RunningTasks(s'.workers);
    hide RunningTasks;
    assert Taken(s') == Taken(s) + 1;
  }

  lemma DoneConserved(s: Pool, w: nat)
    requires Conserved(s) && Enabled(s, Finish(w))
    ensures Conserved(Done(s, w))
  {
    TasksChange(s.workers, w, Ready);
    hide RunningTasks, WakeWaiters;
  }

  /** A worker that is not running a task may change without touching any task. */
  lemma OtherConserved(s: Pool, w: nat, pc: Worker)
    requires Conserved(s) && w in s.workers && !s.workers[w].Busy? && !pc.Busy?
    ensures Conserved(Put(s, w, pc))
  {
    TasksChange(s.workers, w, pc);
    hide RunningTasks;
  }

  lemma SameConserved(s: Pool, s': Pool)
    requires Conserved(s) && s'.tasks == s.tasks && s'.accepted == s.accepted && s'.finished == s.finished
    requires s'.workers == s.workers
    ensures Conserved(s')
  {
    hide RunningTasks;
  }

  lemma SubmitConserved(s: Pool)
    requires Conserved(s) && Enabled(s, Submit)
    ensures Conserved(Act(s, Submit))
  {
    hide RunningTasks;
    assert Taken(Act(s, Submit)) == Taken(s);
  }

  lemma WakeConserved(s: Pool)
    requires Conserved(s)
    ensures Conserved(s.(workers := Wake(s.workers)))
  {
    WakeKeeps(s.workers);
    hide RunningTasks;
  }

  lemma ConservedKept(s: Pool, a: Action)
    requires Conserved(s) && Enabled(s, a)
    ensures Conserved(Act(s, a))
  {
    hide Conserved, Done;
    var s' := Act(s, a);
    match a {
      case Submit => SubmitConserved(s);
      case Look(w) =>
        if s.tasks != [] {
          TakeConserved(s, w);
        } else {
          OtherConserved(s, w, s'.workers[w]);
        }
      case Finish(w) => DoneConserved(s, w);
      case NotifyOne(w) =>
        OtherConserved(s, w, Ready);
        SameConserved(Put(s, w, Ready), s');
      case WakeSpuriously(w) => OtherConserved(s, w, Ready);
      case NotifyAll =>
        WakeConserved(s);
        SameConserved(s.(workers := Wake(s.workers)), s');
      case _ => SameConserved(s, s');
    }
  }

  /** What a change of one worker does to the set of running tasks. */
  lemma TasksChange(workers: map<nat, Worker>, w: nat, pc: Worker)
    requires w in workers
    ensures forall t :: t in RunningTasks(workers) && workers[w] != Busy(t) ==> t in RunningTasks(workers[w := pc])
  {
    forall t | t in RunningTasks(workers) && workers[w] != Busy(t) ensures t in RunningTasks(workers[w := pc]) {
      var v :| v in workers && workers[v].Busy? && workers[v].task == t;
      assert v != w && workers[w := pc][v] == workers[v];
    }
  }

  lemma WakeKeeps(workers: map<nat, Worker>)
    ensures RunningTasks(Wake(workers)) == RunningTasks(workers) && BusySet(Wake(workers)) == BusySet(workers)
    ensures !AnyWaiting(Wake(workers))
  {
    forall t ensures t in RunningTasks(Wake(workers)) <==> t in RunningTasks(workers) {
      if t in RunningTasks(workers) {
        var v :| v in workers && workers[v].Busy? && workers[v].task == t;
        assert Wake(workers)[v] == workers[v];
      }
      if t in RunningTasks(Wake(workers)) {
        var v :| v in workers && Wake(workers)[v].Busy? && Wake(workers)[v].task == t;
        assert Wake(workers)[v] == workers[v];
      }
    }
  }

  lemma SetsChange(workers: map<nat, Worker>, w: nat, pc: Worker)
    requires w in workers
    ensures BusySet(workers[w := pc]) == if pc.Busy? then BusySet(workers) + {w} else BusySet(workers) - {w}
    ensures ReadySet(workers[w := pc]) == if pc.Ready? then ReadySet(workers) + {w} else ReadySet(workers) - {w}
    ensures w in BusySet(workers) <==> workers[w].Busy?
    ensures w in ReadySet(workers) <==> workers[w].Ready?
    ensures AnyWaiting(workers[w := pc]) && !pc.Waiting? ==> AnyWaiting(workers)
  {
    if AnyWaiting(workers[w := pc]) && !pc.Waiting? {
      var v :| v in workers[w := pc] && workers[w := pc][v].Waiting?;
      assert v in workers && workers[v].Waiting?;
    }
  }

  lemma CountedKept(s: Pool, a: Action)
    requires Counted(s) && Enabled(s, a)
    ensures Counted(Act(s, a))
  {
    match a {
      case Look(w) => SetsChange(s.workers, w, Looked(s, w).workers[w]);
      case Finish(w) => SetsChange(s.workers, w, Ready);
      case NotifyOne(w) => SetsChange(s.workers, w, Ready);
      case WakeSpuriously(w) => SetsChange(s.workers, w, Ready);
      case NotifyAll => WakeKeeps(s.workers);
      case _ =>
    }
  }

  lemma WaitersOkKept(s: Pool, a: Action)
    requires WaitersOk(s) && Enabled(s, a)
    ensures WaitersOk(Act(s, a))
  {
  }

  lemma SleepersOkKept(s: Pool, a: Action)
    requires SleepersOk(s) && StopsOk(s) && Enabled(s, a)
    ensures SleepersOk(Act(s, a))
  {
    hide WakeWaiters;
    match a {
      case Look(w) => SleepersLook(s, w);
      case Finish(w) => SetsChange(s.workers, w, Ready);
      case NotifyOne(w) =>
        SetsChange(s.workers, w, Ready);
        assert AnyWaiting(s.workers);
      case WakeSpuriously(w) => SetsChange(s.workers, w, Ready);
      case NotifyAll => WakeKeeps(s.workers);
      case _ =>
    }
    hide ReadySet, AnyWaiting, BusySet;
  }

  lemma SleepersLook(s: Pool, w: nat)
    requires SleepersOk(s) && StopsOk(s) && Enabled(s, Look(w))
    ensures SleepersOk(Act(s, Look(w)))
  {
    SetsChange(s.workers, w, Looked(s, w).workers[w]);
    hide ReadySet, AnyWaiting, BusySet;
  }

  lemma StopsOkKept(s: Pool, a: Action)
    requires StopsOk(s) && Enabled(s, a)
    ensures StopsOk(Act(s, a))
  {
    var s' := Act(s, a);
    if a.Look? || a.Finish? || a.NotifyOne? || a.WakeSpuriously? {
      assert a.worker in s'.workers;
    }
    if a.NotifyAll? {
      assert s'.workers.Keys == s.workers.Keys;
    }
  }

  lemma ActInv(s: Pool, a: Action)
    requires Inv(s) && Enabled(s, a)
    ensures Inv(Act(s, a))
  {
    hide Conserved, Counted, WaitersOk, SleepersOk, StopsOk, Act, Enabled;
    ConservedKept(s, a);
    CountedKept(s, a);
    WaitersOkKept(s, a);
    SleepersOkKept(s, a);
    StopsOkKept(s, a);
  }

  ghost predicate Run(s: Pool, actions: seq<Action>, s': Pool)
    decreases |actions|
  {
    if actions == [] then s' == s else Enabled(s, actions[0]) && Run(Act(s, actions[0]), actions[1..], s')
  }

  lemma {:induction false} RunInv(s: Pool, actions: seq<Action>, s': Pool)
    requires Inv(s) && Run(s, actions, s')
    ensures Inv(s')
    decreases |actions|
  {
    hide Inv, Act, Enabled;
    if actions == [] {
    } else {
      ActInv(s, actions[0]);
      RunInv(Act(s, actions[0]), actions[1..], s');
    }
  }

  lemma StartInv(threadCount: nat)
    ensures Inv(Start(threadCount)) && |Start(threadCount).workers| >= 1
  {
    var s := Start(threadCount);
    assert 0 in s.workers.Keys;
    assert BusySet(s.workers) == {};
  }

  // ---- what it means ------------------------------------------------------------------------

  lemma BusyWithin(workers: map<nat, Worker>)
    ensures |BusySet(workers)| <= |workers|
  {
    Subset(BusySet(workers), workers.Keys);
    assert |workers.Keys| == |workers|;
  }

  lemma {:induction false} Subset(a: set<nat>, b: set<nat>)
    requires a <= b
    ensures |a| <= |b|
    decreases |a|
  {
    if a != {} {
      var x :| x in a;
      Subset(a - {x}, b - {x});
    }
  }

  function Submits(actions: seq<Action>): nat {
    if actions == [] then 0 else (if actions[0].Submit? then 1 else 0) + Submits(actions[1..])
  }

  lemma {:induction false} AllAccepted(s: Pool, actions: seq<Action>, s': Pool)
    requires Run(s, actions, s')
    ensures s'.accepted == s.accepted + Submits(actions)
    decreases |actions|
  {
    if actions == [] {
    } else {
      AllAccepted(Act(s, actions[0]), actions[1..], s');
    }
  }

  /** In every reachable state each accepted task is queued, running or finished, in exactly one of
      these ways; the active count is the number of running tasks and at most the number of
      workers; a thread blocked in `waitAll` has something to wait for; and if a worker sleeps,
      enough wakeups are under way for the queued tasks, and for a stop its notification. */
  lemma PoolStates(threadCount: nat, actions: seq<Action>, s: Pool)
    requires Run(Start(threadCount), actions, s)
    ensures s.accepted == Submits(actions)
    ensures forall t :: 0 <= t < s.accepted <==> t in s.finished || t in RunningTasks(s.workers) || t in s.tasks
    ensures s.finished !! RunningTasks(s.workers)
    ensures forall t :: t in s.tasks ==> t !in s.finished && t !in RunningTasks(s.workers)
    ensures s.active == |BusySet(s.workers)| <= |s.workers|
    ensures forall i :: i in s.waiters && s.waiters[i] == Blocked ==> s.tasks != [] || s.active > 0
    ensures AnyWaiting(s.workers) ==> |s.tasks| <= s.notifies + |ReadySet(s.workers)|
    ensures AnyWaiting(s.workers) && s.stopping ==> Enabled(s, NotifyAll) && !AnyWaiting(Act(s, NotifyAll).workers)
  {
    StartInv(threadCount);
    RunInv(Start(threadCount), actions, s);
    AllAccepted(Start(threadCount), actions, s);
    BusyWithin(s.workers);
    Partition(s);
    WakeKeeps(s.workers);
    hide Conserved, Counted, Run, RunningTasks;
  }

  lemma Partition(s: Pool)
    requires Conserved(s)
    ensures forall t :: 0 <= t < s.accepted <==> t in s.finished || t in RunningTasks(s.workers) || t in s.tasks
    ensures s.finished !! RunningTasks(s.workers)
    ensures forall t :: t in s.tasks ==> t !in s.finished && t !in RunningTasks(s.workers)
  {
    forall t ensures 0 <= t < s.accepted <==> t in s.finished || t in RunningTasks(s.workers) || t in s.tasks {
      if Taken(s) <= t < s.accepted {
        assert s.tasks[t - Taken(s)] == t;
      }
    }
  }

  lemma NobodyBusy(s: Pool)
    requires Counted(s)
    ensures s.active == 0 <==> RunningTasks(s.workers) == {}
  {
    var busy := BusySet(s.workers);
    if busy == {} {
      assert forall w :: w in s.workers ==> w !in busy;
    } else {
      var w :| w in busy;
      assert s.workers[w].task in RunningTasks(s.workers);
    }
  }

  /** A thread in `waitAll` that looks returns exactly when every task accepted so far has run. */
  lemma WaitAllReturns(threadCount: nat, actions: seq<Action>, s: Pool, i: nat)
    requires Run(Start(threadCount), actions, s) && Enabled(s, Check(i))
    ensures Act(s, Check(i)).waiters[i] == Returned <==> forall t: nat :: t < s.accepted ==> t in s.finished
    ensures forall t: nat :: t in s.finished ==> t < s.accepted
  {
    StartInv(threadCount);
    RunInv(Start(threadCount), actions, s);
    hide Run;
    Partition(s);
    NobodyBusy(s);
    hide Conserved, BusySet, RunningTasks;
    if s.tasks != [] {
      assert s.tasks[0] in s.tasks;
    }
  }

  /** The `shutdown` that stopped the pool returns only after every accepted task has run, once. */
  lemma ShutdownRunsAll(threadCount: nat, actions: seq<Action>, s: Pool)
    requires Run(Start(threadCount), actions, s) && s.shutdown == Finished
    ensures forall t: nat :: t in s.finished <==> t < s.accepted
    ensures s.tasks == [] && s.active == 0
  {
    StartInv(threadCount);
    RunInv(Start(threadCount), actions, s);
    hide Run;
    var w :| w in s.workers.Keys;
    assert s.workers[w] == Exited;
    assert BusySet(s.workers) == {} && RunningTasks(s.workers) == {};
    Partition(s);
  }
}
