/** The event loop's wakeup protocol (EventLoop.cpp): functors are pushed under a lock, by the loop's
    own thread or by others, and the eventfd counter wakes the loop out of poll.  Between any two
    steps of one thread the other threads may act.

    The loop's thread writes the eventfd for its own functors only while it is running functors.
    What it queues outside `loop()` therefore does not wake the next poll. */
module EventLoop {

  type Functor = nat

  /** Where the loop's thread is. */
  datatype Pc =
    | Outside                            // not in loop()
    | Checking                           // quit_ is cleared, or a round is over: quit_ is to be looked at
    | Polling                            // in poll, blocked unless the eventfd is readable
    | Handling                           // running channel callbacks
    | Swapping                           // callingPendingFunctors_ is set, the swap is to come
    | Running                            // running the swapped functors

  datatype Loop = Loop(
    pc: Pc,
    pending: seq<Functor>,               // pendingFunctors_
    batch: seq<Functor>,                 // swapped functors not yet run
    counter: nat,                        // the eventfd
    owes: bool,                          // the loop's thread has pushed and will write
    writers: nat,                        // other threads that have pushed or quit and will write
    quit: bool,
    pushed: seq<Functor>,                // history: everything queued, everything run
    executed: seq<Functor>)

  const COUNTER_MAX: nat := 0xFFFF_FFFF_FFFF_FFFE

  datatype Action =
    | OtherPush(f: Functor)              // queueInLoop by another thread, up to the wakeup
    | OtherQuit                          // quit by another thread, up to the wakeup
    | OtherWrite                         // its wakeup
    | OwnPush(f: Functor)                // queueInLoop by the loop's thread, up to the wakeup
    | OwnQuit
    | OwnWrite
    | Start | CheckQuit | PollReturns | ReadCounter | BeginFunctors | Swap | RunFunctor | EndFunctors

  predicate Enabled(s: Loop, a: Action) {
    match a
    case OtherPush(_) => true
    case OtherQuit => true
    case OtherWrite => s.writers > 0
    case OwnPush(_) => (s.pc.Outside? || s.pc.Handling? || s.pc.Running?) && !s.owes
    case OwnQuit => (s.pc.Outside? || s.pc.Handling? || s.pc.Running?) && !s.owes
    case OwnWrite => s.owes
    case Start => s.pc.Outside?
    case CheckQuit => s.pc.Checking?
    case PollReturns => s.pc.Polling?                        // readable, another channel, or the timeout
    case ReadCounter => s.pc.Handling?
    case BeginFunctors => s.pc.Handling?
    case Swap => s.pc.Swapping?
    case RunFunctor => s.pc.Running? && !s.owes && s.batch != []
    case EndFunctors => s.pc.Running? && !s.owes && s.batch == []
  }

  /** A write to a full counter fails with EAGAIN and leaves it readable. */
  function Written(counter: nat): nat { if counter >= COUNTER_MAX then counter else counter + 1 }

  function Act(s: Loop, a: Action): Loop
    requires Enabled(s, a)
  {
    match a
    case OtherPush(f) => s.(pending := s.pending + [f], pushed := s.pushed + [f], writers := s.writers + 1)
    case OtherQuit => s.(quit := true, writers := s.writers + 1)
    case OtherWrite => s.(writers := s.writers - 1, counter := Written(s.counter))
    case OwnPush(f) => s.(pending := s.pending + [f], pushed := s.pushed + [f], owes := s.pc.Running?)
    case OwnQuit => s.(quit := true)
    case OwnWrite => s.(owes := false, counter := Written(s.counter))
    case Start => s.(pc := Checking, quit := false)
    case CheckQuit => s.(pc := if s.quit then Outside else Polling)
    case PollReturns => s.(pc := Handling)
    case ReadCounter => s.(counter := 0)
    case BeginFunctors => s.(pc := Swapping)
    case Swap => s.(pc := Running, batch := s.pending, pending := [])
    case RunFunctor => s.(executed := s.executed + [s.batch[0]], batch := s.batch[1..])
    case EndFunctors => s.(pc := Checking)
  }

  const IDLE: Loop := Loop(Outside, [], [], 0, false, 0, false, [], [])

  /** The loop sleeps in poll although functors wait, and nobody is about to wake it. */
  predicate Asleep(s: Loop) { s.pc.Polling? && s.pending != [] && s.counter == 0 && s.writers == 0 }

  /** Someone has written, or will write, for what waits. */
  predicate Woken(s: Loop) { s.pending == [] || s.counter > 0 || s.writers > 0 }

  /** Queued functors run once each, in order, and those queued meanwhile have their wakeup; so has
      what waits when `loop()` is about to return. */
  predicate Ordered(s: Loop) {
    && s.executed + s.batch + s.pending == s.pushed
    && (!s.pc.Running? ==> s.batch == [] && !s.owes)
    && (s.pc.Running? ==> Woken(s) || s.owes)
    && (s.pc.Checking? && s.quit ==> Woken(s))
  }

  lemma OrderedKept(s: Loop, a: Action)
    requires Ordered(s) && Enabled(s, a)
    ensures Ordered(Act(s, a))
  {
    match a {
      case OtherPush(f) => assert s.executed + s.batch + (s.pending + [f]) == s.executed + s.batch + s.pending + [f];
      case OwnPush(f) => assert s.executed + s.batch + (s.pending + [f]) == s.executed + s.batch + s.pending + [f];
      case Swap => assert s.executed + s.pending + [] == s.executed + [] + s.pending;
      case RunFunctor =>
        assert s.batch == [s.batch[0]] + s.batch[1..];
        assert s.executed + [s.batch[0]] + s.batch[1..] == s.executed + s.batch;
      case _ =>
    }
  }

  ghost predicate Run(s: Loop, actions: seq<Action>, s': Loop)
    decreases |actions|
  {
    if actions == [] then s' == s
    else Enabled(s, actions[0]) && Run(Act(s, actions[0]), actions[1..], s')
  }

  /** Somewhere in the run a wakeup is lost. */
  ghost predicate Sleeps(s: Loop, actions: seq<Action>)
    decreases |actions|
  {
    Asleep(s) || (actions != [] && Enabled(s, actions[0]) && Sleeps(Act(s, actions[0]), actions[1..]))
  }

  /** Before the loop looks at `quit_` again, another thread pushes or quits, or the run ends. */
  predicate WokenByCheck(actions: seq<Action>)
    decreases |actions|
  {
    actions == [] ||
      (&& !actions[0].CheckQuit?
       && (actions[0].OtherPush? || actions[0].OtherQuit? || WokenByCheck(actions[1..])))
  }

  /** Each call of `loop()` in the run finds its waiting functors woken, or they are woken before it
      polls. */
  ghost predicate StartsWoken(s: Loop, actions: seq<Action>)
    decreases |actions|
  {
    actions == [] ||
      (&& Enabled(s, actions[0]) && (actions[0].Start? ==> Woken(s) || WokenByCheck(actions[1..]))
       && StartsWoken(Act(s, actions[0]), actions[1..]))
  }

  lemma {:induction false} RunOrdered(s: Loop, actions: seq<Action>, s': Loop)
    requires Ordered(s) && Run(s, actions, s')
    ensures Ordered(s')
    decreases |actions|
  {
    hide Ordered, Act, Enabled;
    if actions == [] {
    } else {
      OrderedKept(s, actions[0]);
      RunOrdered(Act(s, actions[0]), actions[1..], s');
    }
  }

  lemma {:induction false} RunSleeps(s: Loop, actions: seq<Action>, s': Loop)
    requires Ordered(s) && (s.pc.Polling? ==> Woken(s)) && Run(s, actions, s')
    ensures Sleeps(s, actions) <==>
            !(StartsWoken(s, actions) && (s.pc.Checking? ==> Woken(s) || WokenByCheck(actions)))
    decreases |actions|
  {
    if actions == [] {
    } else {
      var next := Act(s, actions[0]);
      OrderedKept(s, actions[0]);
      if actions[0].CheckQuit? && !Woken(s) {
        assert Asleep(next) && Sleeps(next, actions[1..]);
      } else {
        RunSleeps(next, actions[1..], s');
      }
    }
  }

  /** What is queued in a run, in order. */
  function Pushes(actions: seq<Action>): seq<Functor> {
    if actions == [] then [] else PushedBy(actions[0]) + Pushes(actions[1..])
  }

  function PushedBy(a: Action): seq<Functor> {
    match a
    case OtherPush(f) => [f]
    case OwnPush(f) => [f]
    case _ => []
  }

  lemma ActPushes(s: Loop, a: Action)
    requires Enabled(s, a)
    ensures Act(s, a).pushed == s.pushed + PushedBy(a)
  {
  }

  lemma {:induction false} RunPushes(s: Loop, actions: seq<Action>, s': Loop)
    requires Run(s, actions, s')
    ensures s'.pushed == s.pushed + Pushes(actions)
    decreases |actions|
  {
    hide Act, Enabled, PushedBy;
    if actions == [] {
    } else {
      ActPushes(s, actions[0]);
      RunPushes(Act(s, actions[0]), actions[1..], s');
      assert s.pushed + PushedBy(actions[0]) + Pushes(actions[1..]) == s.pushed + Pushes(actions);
    }
  }

  /** In every run each queued functor runs at most once and in the order it was queued, those
      queued by running functors included; and a wakeup is lost in it exactly when `loop()` is
      called over functors for which nobody has written or will write, and no other thread pushes or
      quits before it polls. */
  lemma NoLostWakeup(actions: seq<Action>, s: Loop)
    requires Run(IDLE, actions, s)
    ensures s.executed <= s.pushed && s.executed + s.batch + s.pending == s.pushed == Pushes(actions)
    ensures Sleeps(IDLE, actions) <==> !StartsWoken(IDLE, actions)
  {
    RunOrdered(IDLE, actions, s);
    RunSleeps(IDLE, actions, s);
    RunPushes(IDLE, actions, s);
    assert s.executed + (s.batch + s.pending) == s.pushed;
  }

  /** The loop's own thread queues nothing while it is outside `loop()`. */
  ghost predicate Tidy(s: Loop, actions: seq<Action>)
    decreases |actions|
  {
    actions == [] ||
      (&& Enabled(s, actions[0]) && (actions[0].OwnPush? ==> !s.pc.Outside?)
       && Tidy(Act(s, actions[0]), actions[1..]))
  }

  /** An owner that queues nothing outside `loop()` never loses a wakeup. */
  lemma TidyNeverSleeps(actions: seq<Action>, s: Loop)
    requires Run(IDLE, actions, s) && Tidy(IDLE, actions)
    ensures !Sleeps(IDLE, actions)
  {
    TidyStartsWoken(IDLE, actions);
    NoLostWakeup(actions, s);
  }

  lemma {:induction false} TidyStartsWoken(s: Loop, actions: seq<Action>)
    requires Ordered(s) && (s.pc.Outside? || s.pc.Checking? || s.pc.Polling? ==> Woken(s)) && Tidy(s, actions)
    ensures StartsWoken(s, actions)
    decreases |actions|
  {
    if actions == [] {
    } else {
      var next := Act(s, actions[0]);
      OrderedKept(s, actions[0]);
      assert next.pc.Outside? || next.pc.Checking? || next.pc.Polling? ==> Woken(next);
      TidyStartsWoken(next, actions[1..]);
    }
  }

  predicate Quits(actions: seq<Action>) {
    exists i :: 0 <= i < |actions| && (actions[i].OwnQuit? || actions[i].OtherQuit?)
  }

  lemma {:induction false} QuitExactly(s: Loop, actions: seq<Action>, s': Loop)
    requires Run(s, actions, s') && NotStarted(actions)
    ensures s'.quit <==> s.quit || Quits(actions)
    decreases |actions|
  {
    if actions == [] {
    } else {
      assert forall i :: 0 < i < |actions| ==> actions[i] == actions[1..][i - 1];
      QuitExactly(Act(s, actions[0]), actions[1..], s');
      assert Quits(actions) <==> actions[0].OwnQuit? || actions[0].OtherQuit? || Quits(actions[1..]);
    }
  }

  /** `loop()` returns at its next look exactly when somebody has asked it to quit since it started. */
  lemma ReturnCondition(s: Loop, actions: seq<Action>, s': Loop)
    requires Enabled(s, Start) && Run(Act(s, Start), actions, s') && NotStarted(actions) && Enabled(s', CheckQuit)
    ensures Act(s', CheckQuit).pc.Outside? <==> Quits(actions)
  {
    QuitExactly(Act(s, Start), actions, s');
  }

  // ---- what the owner queues outside loop() -------------------------------------------------

  predicate OwnPushed(actions: seq<Action>) { exists i :: 0 <= i < |actions| && actions[i].OwnPush? }

  predicate OthersWoke(actions: seq<Action>) {
    exists i :: 0 <= i < |actions| && (actions[i].OtherPush? || actions[i].OtherQuit?)
  }

  predicate NotStarted(actions: seq<Action>) { forall i :: 0 <= i < |actions| ==> !actions[i].Start? }

  predicate NotChecked(actions: seq<Action>) { forall i :: 0 <= i < |actions| ==> !actions[i].CheckQuit? }

  lemma OwnPushedFirst(actions: seq<Action>)
    requires actions != []
    ensures OwnPushed(actions) <==> actions[0].OwnPush? || OwnPushed(actions[1..])
    ensures OthersWoke(actions) <==> actions[0].OtherPush? || actions[0].OtherQuit? || OthersWoke(actions[1..])
  {
    assert forall i :: 0 < i < |actions| ==> actions[i] == actions[1..][i - 1];
  }

  /** What happens outside `loop()`, up to the next call of it. */
  lemma {:induction false} OutsideRun(s: Loop, actions: seq<Action>, s': Loop)
    requires s.pc.Outside? && !s.owes && Run(s, actions, s') && NotStarted(actions)
    ensures s'.pc.Outside? && !s'.owes
    ensures s'.pending == [] <==>
            && s.pending == [] && !OwnPushed(actions)
            && forall i :: 0 <= i < |actions| ==> !actions[i].OtherPush?
    ensures s'.counter == 0 && s'.writers == 0 <==> s.counter == 0 && s.writers == 0 && !OthersWoke(actions)
    decreases |actions|
  {
    if actions == [] {
    } else {
      OutsideRun(Act(s, actions[0]), actions[1..], s');
      OwnPushedFirst(actions);
      assert forall i :: 0 < i < |actions| ==> actions[i] == actions[1..][i - 1];
    }
  }

  /** What happens between a step of `loop()` and its next look at `quit_`. */
  lemma {:induction false} CheckingRun(s: Loop, actions: seq<Action>, s': Loop)
    requires s.pc.Checking? && !s.owes && Run(s, actions, s') && NotChecked(actions)
    ensures s'.pc.Checking?
    ensures s'.counter == 0 && s'.writers == 0 <==> s.counter == 0 && s.writers == 0 && !OthersWoke(actions)
    ensures !OthersWoke(actions) ==> s'.pending == s.pending && s'.quit == s.quit
    decreases |actions|
  {
    if actions == [] {
    } else {
      CheckingRun(Act(s, actions[0]), actions[1..], s');
      OwnPushedFirst(actions);
    }
  }

  /** The way to the next poll: `actions` happen outside `loop()`, `others` between its start and its
      first look at `quit_`. */
  ghost predicate Restarts(left: Loop, actions: seq<Action>, s: Loop, others: seq<Action>, ready: Loop) {
    && Run(left, actions, s) && NotStarted(actions) && Enabled(s, Start)
    && Run(Act(s, Start), others, ready) && NotChecked(others)
  }

  lemma NextPoll(left: Loop, actions: seq<Action>, s: Loop, others: seq<Action>, ready: Loop)
    requires left.pc.Outside? && Ordered(left) && Woken(left) && Restarts(left, actions, s, others, ready)
    ensures Enabled(ready, CheckQuit)
    ensures Asleep(Act(ready, CheckQuit)) <==>
            && OwnPushed(actions) && !OthersWoke(actions) && !OthersWoke(others)
            && left.counter == 0 && left.writers == 0
  {
    OutsideRun(left, actions, s);
    CheckingRun(Act(s, Start), others, ready);
    hide Run;
    assert forall i :: 0 <= i < |actions| && actions[i].OtherPush? ==> OthersWoke(actions);
  }

  /** The first call of `loop()` sleeps over waiting functors exactly when its own thread has queued
      one and no other thread has queued anything or asked it to quit before it polls. */
  lemma StartCondition(actions: seq<Action>, s: Loop, others: seq<Action>, ready: Loop)
    requires Restarts(IDLE, actions, s, others, ready)
    ensures Enabled(ready, CheckQuit)
    ensures Asleep(Act(ready, CheckQuit)) <==> OwnPushed(actions) && !OthersWoke(actions) && !OthersWoke(others)
  {
    hide Restarts;
    NextPoll(IDLE, actions, s, others, ready);
  }

  /** The same for every later call, in every run: `left` is the state in which `loop()` returned,
      after a round or before its first poll. */
  lemma RestartCondition(earlier: seq<Action>, before: Loop, left: Loop, actions: seq<Action>, s: Loop,
                         others: seq<Action>, ready: Loop)
    requires Run(IDLE, earlier, before) && Enabled(before, CheckQuit) && before.quit && left == Act(before, CheckQuit)
    requires Restarts(left, actions, s, others, ready)
    ensures Enabled(ready, CheckQuit)
    ensures Asleep(Act(ready, CheckQuit)) <==>
            && OwnPushed(actions) && !OthersWoke(actions) && !OthersWoke(others)
            && left.counter == 0 && left.writers == 0
  {
    hide Run, Restarts;
    RunOrdered(IDLE, earlier, before);
    NextPoll(left, actions, s, others, ready);
  }

  /** An unsafe start is possible: a functor queued by the loop's own thread before `loop()`. */
  lemma UnsafeStart()
    ensures var s := Act(Act(Act(IDLE, OwnPush(7)), Start), CheckQuit);
            Run(IDLE, [OwnPush(7), Start, CheckQuit], s) && Asleep(s)
  {
    var actions := [OwnPush(7), Start, CheckQuit];
    assert actions[1..] == [Start, CheckQuit] && actions[1..][1..] == [CheckQuit];
  }

  function Repeat(n: nat): seq<Action> { seq(n, _ => RunFunctor) }

  lemma {:induction false} BatchRuns(s: Loop)
    requires s.pc.Running? && !s.owes
    ensures Run(s, Repeat(|s.batch|), s.(executed := s.executed + s.batch, batch := []))
    decreases |s.batch|
  {
    if s.batch == [] {
      assert s.executed + [] == s.executed;
    } else {
      var next := Act(s, RunFunctor);
      BatchRuns(next);
      assert Repeat(|s.batch|)[1..] == Repeat(|next.batch|);
      assert next.executed + next.batch == s.executed + s.batch;
    }
  }

  /** One undisturbed round of the loop runs everything that was queued before it. */
  lemma RoundRunsAll(s: Loop) returns (actions: seq<Action>, s': Loop)
    requires Ordered(s) && s.pc.Polling?
    ensures Run(s, actions, s') && s'.executed == s.pushed && s'.pending == []
  {
    var swapped := Act(Act(Act(s, PollReturns), BeginFunctors), Swap);
    BatchRuns(swapped);
    s' := swapped.(executed := swapped.executed + swapped.batch, batch := []);
    actions := [PollReturns, BeginFunctors, Swap] + Repeat(|swapped.batch|);
    assert actions[1..][1..][1..] == Repeat(|swapped.batch|);
    assert actions[1..][0] == BeginFunctors && actions[1..][1..][0] == Swap;
    assert Run(Act(Act(s, PollReturns), BeginFunctors), actions[1..][1..], s');
    assert Run(Act(s, PollReturns), actions[1..], s');
    assert s.executed + s.batch + s.pending == s.executed + s.pending;
  }
}
