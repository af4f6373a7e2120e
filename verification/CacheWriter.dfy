/** The client's background cache writer (AsyncMessageCacheWriter in client_message_cache.cpp) with
    the client thread that feeds it (client_app.cpp).  Each step is one critical section, one
    notification or one database write; condition variables may wake spuriously. */
module CacheWriter {
  import opened Text

  type Name = Bytes

  /** A message to be stored for an account. */
  datatype Job = Job(account: Name, message: nat)

  datatype Worker =
    | Ready                            // will take the lock and look at the condition
    | Waiting                          // blocked on cv_
    | Writing(job: Job)                // active_, the row is not written yet
    | Written                          // active_, the row is written
    | Exited

  /** What the client thread is doing. */
  datatype Client =
    | Idle
    | Checking | Blocked | Flushed     // handling an account-deleted line: flush, then clear
    | Stopping                         // in stop()

  datatype Writer = Writer(
    jobs: seq<Job>,
    worker: Worker,
    client: Client,
    stopping: bool,
    notifies: nat,                     // notifications still to come
    account: Name,                     // "" when logged out
    rows: seq<Job>,                    // the SQLite tables
    enqueued: seq<Job>,                // history
    attempted: seq<Job>,
    gone: set<Name>)                   // accounts deleted and not logged in since

  datatype Action =
    | Enqueue(job: Job) | Notify | SpuriousWorker | SpuriousClient
    | Look | Write(ok: bool) | ClearActive
    | DeletedLine | CheckDrained | ClearAccount(ok: bool)
    | Login(name: Name) | Logout | Stop

  predicate Active(s: Writer) { s.worker.Writing? || s.worker.Written? }

  predicate Drained(s: Writer) { s.jobs == [] && !Active(s) }

  predicate Enabled(s: Writer, a: Action) {
    match a
    case Enqueue(job) => s.client.Idle? && !s.stopping && s.account != "" && job.account == s.account
    case Notify => s.notifies > 0
    case SpuriousWorker => s.worker.Waiting?
    case SpuriousClient => s.client.Blocked?
    case Look => s.worker.Ready?
    case Write(_) => s.worker.Writing?
    case ClearActive => s.worker.Written?
    case DeletedLine => s.client.Idle? && s.account != ""
    case CheckDrained => s.client.Checking?
    case ClearAccount(_) => s.client.Flushed?
    case Login(name) => s.client.Idle? && name != ""
    case Logout => s.client.Idle?
    case Stop => s.client.Idle? && !s.stopping
  }

  function WithoutAccount(rows: seq<Job>, account: Name): (r: seq<Job>)
    ensures forall j :: j in r <==> j in rows && j.account != account
  {
    if rows == [] then []
    else (if rows[0].account == account then [] else [rows[0]]) + WithoutAccount(rows[1..], account)
  }

  function Woken(c: Client): Client { if c.Blocked? then Checking else c }

  function Looked(s: Writer): Writer {
    if s.jobs != [] then s.(worker := Writing(s.jobs[0]), jobs := s.jobs[1..])
    else if s.stopping then s.(worker := Exited, client := Woken(s.client))
    else s.(worker := Waiting)
  }

  function Act(s: Writer, a: Action): Writer
    requires Enabled(s, a)
  {
    match a
    case Enqueue(job) => s.(jobs := s.jobs + [job], enqueued := s.enqueued + [job], notifies := s.notifies + 1)
    case Notify => s.(notifies := s.notifies - 1, worker := if s.worker.Waiting? then Ready else s.worker)
    case SpuriousWorker => s.(worker := Ready)
    case SpuriousClient => s.(client := Checking)
    case Look => Looked(s)
    case Write(ok) =>
      s.(worker := Written, attempted := s.attempted + [s.worker.job],
         rows := if ok then s.rows + [s.worker.job] else s.rows)
    case ClearActive => s.(worker := Ready, client := if s.jobs == [] then Woken(s.client) else s.client)
    case DeletedLine => s.(client := Checking)
    case CheckDrained => s.(client := if Drained(s) then Flushed else Blocked)
    case ClearAccount(ok) =>
      var s' := s.(client := Idle, account := "");
      if ok then s'.(rows := WithoutAccount(s.rows, s.account), gone := s.gone + {s.account}) else s'
    case Login(name) => s.(account := name, gone := s.gone - {name})
    case Logout => s.(account := "")
    case Stop => s.(client := Stopping, stopping := true, notifies := s.notifies + 1)
  }

  const START: Writer := Writer([], Ready, Idle, false, 0, "", [], [], [], {})

  function Current(s: Writer): seq<Job> { if s.worker.Writing? then [s.worker.job] else [] }

  /** Jobs are written in the order they were enqueued, none twice. */
  predicate InOrder(s: Writer) { s.attempted + Current(s) + s.jobs == s.enqueued }

  /** Nobody waits for a notification that has been sent. */
  predicate NobodyForgotten(s: Writer) {
    && (s.client.Blocked? ==> !Drained(s))
    && (s.worker.Waiting? && (s.jobs != [] || s.stopping) ==> s.notifies > 0)
  }

  /** A flushed writer stays drained until the client goes on; the worker leaves only when nothing
      is left to do. */
  predicate PhasesOk(s: Writer) {
    && (s.client.Flushed? ==> Drained(s))
    && (s.client.Checking? || s.client.Blocked? || s.client.Flushed? ==> s.account != "")
    && (s.worker.Exited? ==> s.stopping && s.jobs == [])
    && (s.stopping <==> s.client.Stopping?)
  }

  /** Nothing is left of a deleted account. */
  predicate NothingOf(s: Writer, a: Name) {
    && (forall j :: j in s.rows ==> j.account != a)
    && (forall j :: j in s.jobs ==> j.account != a)
    && (forall j :: j in Current(s) ==> j.account != a)
  }

  ghost predicate Gone(s: Writer) {
    s.account !in s.gone && "" !in s.gone && forall a :: a in s.gone ==> NothingOf(s, a)
  }

  ghost predicate Inv(s: Writer) { InOrder(s) && NobodyForgotten(s) && PhasesOk(s) && Gone(s) }

  lemma InOrderKept(s: Writer, a: Action)
    requires InOrder(s) && Enabled(s, a)
    ensures InOrder(Act(s, a))
  {
    match a {
      case Enqueue(job) =>
        assert s.attempted + Current(s) + (s.jobs + [job]) == s.attempted + Current(s) + s.jobs + [job];
      case Look =>
        if s.jobs != [] {
          assert s.jobs == [s.jobs[0]] + s.jobs[1..];
          assert s.attempted + [s.jobs[0]] + s.jobs[1..] == s.attempted + [] + s.jobs;
        }
      case Write(ok) =>
        assert s.attempted + [s.worker.job] + [] + s.jobs == s.attempted + [s.worker.job] + s.jobs;
      case _ =>
    }
  }

  lemma GoneKept(s: Writer, a: Action)
    requires Gone(s) && PhasesOk(s) && Enabled(s, a)
    ensures Gone(Act(s, a))
  {
    var s' := Act(s, a);
    forall x | x in s'.gone ensures NothingOf(s', x) {
      assert x in s.gone ==> NothingOf(s, x);
    }
  }

  lemma ActInv(s: Writer, a: Action)
    requires Inv(s) && Enabled(s, a)
    ensures Inv(Act(s, a))
  {
    InOrderKept(s, a);
    GoneKept(s, a);
    hide InOrder, Gone;
  }

  ghost predicate Run(s: Writer, actions: seq<Action>, s': Writer)
    decreases |actions|
  {
    if actions == [] then s' == s else Enabled(s, actions[0]) && Run(Act(s, actions[0]), actions[1..], s')
  }

  lemma {:induction false} RunInv(s: Writer, actions: seq<Action>, s': Writer)
    requires Inv(s) && Run(s, actions, s')
    ensures Inv(s')
    decreases |actions|
  {
    hide Inv, Act, Enabled;
    if actions == [] {
    } else {
      ActInv(s, actions[0]);
      RunInv(Act(s, actions[0]), actions[1..], s');
    }
  }

  /** In every reachable state: jobs were written in order; a flush that has returned has seen every
      earlier job written; a blocked flush has something to wait for and a sleeping worker with
      work to do has a notification coming; when the worker has left, everything is written. */
  lemma WriterStates(actions: seq<Action>, s: Writer)
    requires Run(START, actions, s)
    ensures s.attempted <= s.enqueued
    ensures s.client.Flushed? ==> s.attempted == s.enqueued
    ensures s.client.Blocked? ==> s.jobs != [] || Active(s)
    ensures s.worker.Waiting? && (s.jobs != [] || s.stopping) ==> s.notifies > 0
    ensures s.worker.Exited? ==> s.attempted == s.enqueued
  {
    RunInv(START, actions, s);
    hide Run;
    assert s.attempted + (Current(s) + s.jobs) == s.enqueued;
    assert Drained(s) ==> s.attempted + [] + [] == s.attempted;
  }

  /** After an account-deleted line was handled and its rows were cleared, no row of that account
      exists, and none appears, until somebody logs in to it again. */
  lemma {:induction false} DeletedStaysDeleted(s: Writer, actions: seq<Action>, s': Writer, account: Name)
    requires Inv(s) && Run(s, actions, s') && account in s.gone
    requires forall i :: 0 <= i < |actions| ==> actions[i] != Login(account)
    ensures account in s'.gone && forall j :: j in s'.rows ==> j.account != account
    decreases |actions|
  {
    hide InOrder, NobodyForgotten, PhasesOk;
    if actions == [] {
      assert NothingOf(s, account);
    } else {
      ActInv(s, actions[0]);
      assert account in Act(s, actions[0]).gone by {
        assert actions[0] != Login(account);
      }
      DeletedStaysDeleted(Act(s, actions[0]), actions[1..], s', account);
    }
  }

  /** Clearing makes an account one of those. */
  lemma ClearingDeletes(s: Writer)
    requires Inv(s) && Enabled(s, ClearAccount(true))
    ensures var s' := Act(s, ClearAccount(true));
            Inv(s') && s.account in s'.gone && s'.account == "" && forall j :: j in s'.rows ==> j.account != s.account
  {
    ActInv(s, ClearAccount(true));
  }

  // ---- what is in the tables ----------------------------------------------------------------

  /** The outcome of each write of a run, in order. */
  function Outcomes(actions: seq<Action>): seq<bool> {
    if actions == [] then []
    else (if actions[0].Write? then [actions[0].ok] else []) + Outcomes(actions[1..])
  }

  function RequestedBy(a: Action): seq<Job> { if a.Enqueue? then [a.job] else [] }

  /** The jobs the client hands over in a run, in order. */
  function Requested(actions: seq<Action>): seq<Job> {
    if actions == [] then [] else RequestedBy(actions[0]) + Requested(actions[1..])
  }

  lemma ActRequested(s: Writer, a: Action)
    requires Enabled(s, a)
    ensures Act(s, a).enqueued == s.enqueued + RequestedBy(a)
  {
  }

  lemma {:induction false} RunRequested(s: Writer, actions: seq<Action>, s': Writer)
    requires Run(s, actions, s')
    ensures s'.enqueued == s.enqueued + Requested(actions)
    decreases |actions|
  {
    hide Act, Enabled, RequestedBy;
    if actions == [] {
    } else {
      ActRequested(s, actions[0]);
      RunRequested(Act(s, actions[0]), actions[1..], s');
      JoinThree(s.enqueued, RequestedBy(actions[0]), Requested(actions[1..]));
    }
  }

  /** Who is logged in after a run that began with `account` logged in. */
  function LoggedIn(account: Name, actions: seq<Action>): Name {
    if actions == [] then account
    else match actions[|actions| - 1]
      case Login(name) => name
      case Logout => ""
      case ClearAccount(_) => ""
      case _ => LoggedIn(account, actions[..|actions| - 1])
  }

  /** The account is the one of the last login, until a logout or deletion; each job handed over belongs
      to it. */
  lemma {:induction false} AccountExactly(s: Writer, actions: seq<Action>, s': Writer)
    requires Run(s, actions, s')
    ensures s'.account == LoggedIn(s.account, actions)
    ensures forall job :: Enabled(s', Enqueue(job)) ==> job.account == LoggedIn(s.account, actions) != ""
    decreases |actions|
  {
    if actions == [] {
    } else {
      var last := |actions| - 1;
      var before := RunLast(s, actions, s');
      AccountExactly(s, actions[..last], before);
    }
  }

  lemma {:induction false} RunLast(s: Writer, actions: seq<Action>, s': Writer) returns (before: Writer)
    requires Run(s, actions, s') && actions != []
    ensures Run(s, actions[..|actions| - 1], before)
    ensures Enabled(before, actions[|actions| - 1]) && s' == Act(before, actions[|actions| - 1])
    decreases |actions|
  {
    hide Act, Enabled;
    if |actions| == 1 {
      before := s;
    } else {
      before := RunLast(Act(s, actions[0]), actions[1..], s');
      assert actions[..|actions| - 1][1..] == actions[1..][..|actions| - 2];
    }
  }

  /** An account whose rows were cleared after the first `written` writes. */
  datatype Clearing = Clearing(account: Name, written: nat)

  function Clearings(s: Writer, actions: seq<Action>): seq<Clearing>
    requires Legal(s, actions)
    decreases |actions|
  {
    if actions == [] then []
    else
      (if actions[0] == ClearAccount(true) then [Clearing(s.account, |s.attempted|)] else [])
      + Clearings(Act(s, actions[0]), actions[1..])
  }

  predicate Legal(s: Writer, actions: seq<Action>)
    decreases |actions|
  {
    actions == [] || (Enabled(s, actions[0]) && Legal(Act(s, actions[0]), actions[1..]))
  }

  /** Job number `k` was written, and its account was not cleared afterwards. */
  predicate Stored(attempted: seq<Job>, oks: seq<bool>, clearings: seq<Clearing>, k: nat)
    requires k < |attempted| == |oks|
  {
    oks[k] && forall c :: c in clearings ==> c.account == attempted[k].account ==> c.written <= k
  }

  /** The stored jobs, in the order they were attempted. */
  function Table(attempted: seq<Job>, oks: seq<bool>, clearings: seq<Clearing>, n: nat): seq<Job>
    requires n <= |attempted| == |oks|
  {
    if n == 0 then []
    else Table(attempted, oks, clearings, n - 1)
         + if Stored(attempted, oks, clearings, n - 1) then [attempted[n - 1]] else []
  }

  lemma {:induction false} LegalRun(s: Writer, actions: seq<Action>, s': Writer)
    requires Run(s, actions, s')
    ensures Legal(s, actions)
    decreases |actions|
  {
    hide Act, Enabled;
    if actions == [] {
    } else {
      LegalRun(Act(s, actions[0]), actions[1..], s');
    }
  }

  /** What later writes say does not matter for earlier rows. */
  lemma {:induction false} TablePrefix(attempted: seq<Job>, oks: seq<bool>, attempted': seq<Job>, oks': seq<bool>,
                                       clearings: seq<Clearing>, n: nat)
    requires n <= |attempted| == |oks| && n <= |attempted'| == |oks'|
    requires attempted[..n] == attempted'[..n] && oks[..n] == oks'[..n]
    ensures Table(attempted, oks, clearings, n) == Table(attempted', oks', clearings, n)
  {
    if n == 0 {
    } else {
      assert attempted[n - 1] == attempted[..n][n - 1] && attempted'[n - 1] == attempted'[..n][n - 1];
      assert oks[n - 1] == oks[..n][n - 1] && oks'[n - 1] == oks'[..n][n - 1];
      assert attempted[..n - 1] == attempted[..n][..n - 1] && attempted'[..n - 1] == attempted'[..n][..n - 1];
      assert oks[..n - 1] == oks[..n][..n - 1] && oks'[..n - 1] == oks'[..n][..n - 1];
      TablePrefix(attempted, oks, attempted', oks', clearings, n - 1);
    }
  }

  /** Clearing an account takes its rows out of the table. */
  lemma {:induction false} TableCleared(attempted: seq<Job>, oks: seq<bool>, clearings: seq<Clearing>, account: Name,
                                        n: nat)
    requires n <= |attempted| == |oks|
    ensures Table(attempted, oks, clearings + [Clearing(account, |attempted|)], n)
            == WithoutAccount(Table(attempted, oks, clearings, n), account)
  {
    if n == 0 {
    } else {
      TableCleared(attempted, oks, clearings, account, n - 1);
      var more := clearings + [Clearing(account, |attempted|)];
      var c := Clearing(account, |attempted|);
      assert c in more;
      assert Stored(attempted, oks, more, n - 1) <==>
             Stored(attempted, oks, clearings, n - 1) && attempted[n - 1].account != account;
      var last := if Stored(attempted, oks, clearings, n - 1) then [attempted[n - 1]] else [];
      WithoutJoin(Table(attempted, oks, clearings, n - 1), last, account);
    }
  }

  function HeadWithout(job: Job, account: Name): seq<Job> { if job.account == account then [] else [job] }

  lemma WithoutFirst(rows: seq<Job>, account: Name)
    ensures WithoutAccount([], account) == []
    ensures rows != [] ==>
              WithoutAccount(rows, account) == HeadWithout(rows[0], account) + WithoutAccount(rows[1..], account)
  {
  }

  lemma {:induction false} WithoutJoin(a: seq<Job>, b: seq<Job>, account: Name)
    ensures WithoutAccount(a + b, account) == WithoutAccount(a, account) + WithoutAccount(b, account)
    decreases |a|
  {
    hide WithoutAccount, HeadWithout;
    WithoutFirst(a, account);
    if a == [] {
      assert a + b == b;
    } else {
      WithoutFirst(a + b, account);
      WithoutJoin(a[1..], b, account);
      assert (a + b)[1..] == a[1..] + b && (a + b)[0] == a[0];
      JoinThree(HeadWithout(a[0], account), WithoutAccount(a[1..], account), WithoutAccount(b, account));
    }
  }

  lemma JoinThree(a: seq<Job>, b: seq<Job>, c: seq<Job>)
    ensures a + (b + c) == a + b + c
  {
  }

  /** The history of a run so far: the writes made and the accounts cleared. */
  ghost predicate Holds(s: Writer, oks: seq<bool>, clearings: seq<Clearing>) {
    && |oks| == |s.attempted| && s.rows == Table(s.attempted, oks, clearings, |s.attempted|)
    && forall c :: c in clearings ==> c.written <= |s.attempted|
  }

  lemma ActHolds(s: Writer, a: Action, oks: seq<bool>, clearings: seq<Clearing>)
    requires Enabled(s, a) && Holds(s, oks, clearings)
    ensures Holds(Act(s, a), oks + (if a.Write? then [a.ok] else []),
                  clearings + (if a == ClearAccount(true) then [Clearing(s.account, |s.attempted|)] else []))
  {
    hide Table;
    var s' := Act(s, a);
    assert oks + [] == oks && clearings + [] == clearings;
    if a.Write? {
      WriteHolds(s, a.ok, oks, clearings);
    } else if a == ClearAccount(true) {
      TableCleared(s.attempted, oks, clearings, s.account, |s.attempted|);
    }
  }

  lemma WriteHolds(s: Writer, ok: bool, oks: seq<bool>, clearings: seq<Clearing>)
    requires Enabled(s, Write(ok)) && Holds(s, oks, clearings)
    ensures Holds(Act(s, Write(ok)), oks + [ok], clearings)
  {
    var s', n := Act(s, Write(ok)), |s.attempted|;
    TablePrefix(s.attempted, oks, s'.attempted, oks + [ok], clearings, n);
    assert Stored(s'.attempted, oks + [ok], clearings, n) <==> ok;
  }

  lemma {:induction false} RunHolds(s: Writer, actions: seq<Action>, s': Writer, oks: seq<bool>,
                                    clearings: seq<Clearing>)
    requires Run(s, actions, s') && Legal(s, actions) && Holds(s, oks, clearings)
    ensures Holds(s', oks + Outcomes(actions), clearings + Clearings(s, actions))
    decreases |actions|
  {
    hide Act, Enabled, Holds;
    if actions == [] {
      assert oks + [] == oks && clearings + [] == clearings;
    } else {
      var a, rest, next := actions[0], actions[1..], Act(s, actions[0]);
      var written := if a.Write? then [a.ok] else [];
      var cleared := if a == ClearAccount(true) then [Clearing(s.account, |s.attempted|)] else [];
      ActHolds(s, a, oks, clearings);
      RunHolds(next, rest, s', oks + written, clearings + cleared);
      assert oks + written + Outcomes(rest) == oks + (written + Outcomes(rest));
      assert clearings + cleared + Clearings(next, rest) == clearings + (cleared + Clearings(next, rest));
    }
  }

  /** In every run the tables hold exactly the jobs whose write succeeded and whose account was not
      cleared afterwards, in the order they were enqueued.  So, when every write succeeds and nothing is
      cleared, a flush that has returned has seen every message stored. */
  lemma RowsExactly(actions: seq<Action>, s: Writer)
    requires Run(START, actions, s)
    ensures Legal(START, actions) && |Outcomes(actions)| == |s.attempted| && s.enqueued == Requested(actions)
    ensures s.rows == Table(s.attempted, Outcomes(actions), Clearings(START, actions), |s.attempted|)
    ensures (forall a :: a in actions ==> a != Write(false) && a != ClearAccount(true)) ==>
              s.rows == s.attempted && (s.client.Flushed? || s.worker.Exited? ==> s.rows == s.enqueued)
  {
    hide Run, Act, Enabled, Legal, Table, Outcomes, Clearings, Requested;
    LegalRun(START, actions, s);
    assert Holds(START, [], []) by { NothingHeld(); }
    RunHolds(START, actions, s, [], []);
    WriterStates(actions, s);
    RunRequested(START, actions, s);
    var oks, clearings := Outcomes(actions), Clearings(START, actions);
    assert [] + oks == oks && [] + clearings == clearings;
    if forall a :: a in actions ==> a != Write(false) && a != ClearAccount(true) {
      AllWritten(START, actions);
      WholeTable(s.attempted, oks, |s.attempted|);
      assert s.attempted[..|s.attempted|] == s.attempted;
    }
  }

  lemma NothingHeld()
    ensures Holds(START, [], [])
  {
  }

  lemma {:induction false} AllWritten(s: Writer, actions: seq<Action>)
    requires Legal(s, actions) && forall a :: a in actions ==> a != Write(false) && a != ClearAccount(true)
    ensures Clearings(s, actions) == [] && forall i :: 0 <= i < |Outcomes(actions)| ==> Outcomes(actions)[i]
    decreases |actions|
  {
    hide Act, Enabled;
    if actions == [] {
    } else {
      assert actions[0] in actions && forall a :: a in actions[1..] ==> a in actions;
      AllWritten(Act(s, actions[0]), actions[1..]);
      assert actions[0].Write? ==> actions[0].ok;
    }
  }

  lemma {:induction false} WholeTable(attempted: seq<Job>, oks: seq<bool>, n: nat)
    requires n <= |attempted| == |oks| && forall i :: 0 <= i < |oks| ==> oks[i]
    ensures Table(attempted, oks, [], n) == attempted[..n]
  {
    if n == 0 {
    } else {
      WholeTable(attempted, oks, n - 1);
      assert attempted[..n] == attempted[..n - 1] + [attempted[n - 1]];
    }
  }
}
