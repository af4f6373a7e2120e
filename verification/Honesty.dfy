/** Delivery honesty: a message is recorded as delivered only after its whole line was written
    (TcpConnection's send completions, the persistence queue of chat_server.cpp and the UPDATE of
    mysql_database.cpp).  The number in `Notify` stands for a delivery row: message and recipient. */
module Honesty {
  import opened Text
  import opened Wire
  import opened Deliveries
  import opened Stream

  /** Where the `i`-th completion of a stream comes from. */
  lemma {:induction false} CompletionSource(log: seq<Item>, i: nat) returns (j: nat)
    requires i < |CompletionsOf(log)|
    ensures j < |log| && CompletionOf(log[j]) == [CompletionsOf(log)[i]]
    ensures |CompletionsOf(log[..j])| == i
    decreases |log|
  {
    var rest := log[..|log| - 1];
    if i < |CompletionsOf(rest)| {
      j := CompletionSource(rest, i);
      assert rest[..j] == log[..j];
    } else {
      j := |log| - 1;
    }
  }

  /** Item `j` carries the `i`-th completion, and every byte up to its end is written. */
  ghost predicate WrittenFor(c: Conn, i: nat, k: Completion, j: nat) {
    && j < |c.log| && CompletionOf(c.log[j]) == [k] && |CompletionsOf(c.log[..j])| == i
    && Flatten(c.log[..j + 1]) <= c.wire
  }

  /** A completion fires only after every byte of its message was written; the `i`-th to fire is
      that of the `i`-th message with a completion, so none fires twice or out of order. */
  lemma FiredMeansWritten(c: Conn, files: Files, i: nat)
    requires Inv(c, files) && i < |c.ran + c.functors|
    ensures exists j :: WrittenFor(c, i, (c.ran + c.functors)[i], j)
  {
    hide BoardOk, Framing, Ordered, Flatten;
    var done := c.log[..c.flushed];
    var j := CompletionSource(done, i);
    assert done[..j] == c.log[..j] && done[..j + 1] == c.log[..j + 1];
    FlattenMonotone(done, j + 1);
    assert WrittenFor(c, i, (c.ran + c.functors)[i], j);
  }

  /** Two firings never stand for the same message. */
  lemma FiredOnce(c: Conn, files: Files, i: nat, i': nat, j: nat, j': nat)
    requires Inv(c, files) && i < i' < |c.ran + c.functors|
    requires WrittenFor(c, i, (c.ran + c.functors)[i], j) && WrittenFor(c, i', (c.ran + c.functors)[i'], j')
    ensures j < j'
  {
    hide Inv, Flatten;
    assert j' <= j ==> c.log[..j][..j'] == c.log[..j'];
    if j' <= j {
      CompletionsMonotone(c.log[..j], j');
    }
  }

  lemma {:induction false} CompletionsMonotone(log: seq<Item>, n: nat)
    requires n <= |log|
    ensures |CompletionsOf(log[..n])| <= |CompletionsOf(log)|
    decreases |log|
  {
    if n == |log| {
      assert log[..n] == log;
    } else {
      CompletionsMonotone(log[..|log| - 1], n);
      assert log[..|log| - 1][..n] == log[..n];
    }
  }

  // ---- the delivery rows --------------------------------------------------------------------

  /** All connections, the persistence queue and the rows; `None` is NULL.  `lost` is history: rows
      whose update failed or found no row. */
  datatype World = World(conns: map<nat, Conn>, queue: seq<nat>, rows: map<nat, Option<int>>, lost: set<nat>)

  datatype Action =
    | Insert(row: nat)                       // a message is stored, not delivered yet
    | Evolve(conn: nat, next: Conn)          // a connection sends, writes, or runs a completion
    | Persist(now: int, ok: bool)            // the background thread takes the oldest task

  function Notified(ks: seq<Completion>): seq<nat> {
    if ks == [] then [] else (if ks[0].Notify? then [ks[0].message] else []) + Notified(ks[1..])
  }

  /** Connections keep their invariant and their history. */
  ghost predicate Enabled(w: World, files: Files, a: Action) {
    match a
    case Insert(row) => row !in w.rows
    case Evolve(i, next) =>
      && Inv(next, files)
      && (i in w.conns ==>
            w.conns[i].ran <= next.ran && w.conns[i].log <= next.log && w.conns[i].wire <= next.wire)
    case Persist(now, ok) => w.queue != []
  }

  function RanBefore(w: World, i: nat): seq<Completion> { if i in w.conns then w.conns[i].ran else [] }

  function Act(w: World, a: Action): World {
    match a
    case Insert(row) => w.(rows := w.rows[row := None])
    case Evolve(i, next) =>
      var before := RanBefore(w, i);
      var added := if |before| <= |next.ran| then next.ran[|before|..] else [];
      w.(conns := w.conns[i := next], queue := w.queue + Notified(added))
    case Persist(now, ok) =>
      if w.queue == [] then w
      else
        var row := w.queue[0];
        // UPDATE ... SET delivered_at = now WHERE row AND delivered_at IS NULL
        w.(queue := w.queue[1..], lost := if ok && row in w.rows then w.lost else w.lost + {row},
           rows := if ok && row in w.rows && w.rows[row] == None then w.rows[row := Some(now)] else w.rows)
  }

  const START: World := World(map[], [], map[], {})

  ghost predicate Notifies(w: World, row: nat) {
    exists i :: i in w.conns && Notify(row) in w.conns[i].ran
  }

  ghost predicate WorldOk(w: World, files: Files) {
    && (forall i :: i in w.conns ==> Inv(w.conns[i], files))
    && (forall row :: row in w.queue ==> Notifies(w, row))
    && (forall row :: row in w.rows && w.rows[row].Some? ==> Notifies(w, row))
  }

  /** What a fired completion reports is waiting, recorded or lost. */
  predicate Accounted(w: World, row: nat) {
    row in w.queue || row in w.lost || (row in w.rows && w.rows[row].Some?)
  }

  ghost predicate AllAccounted(w: World) {
    forall i, row :: i in w.conns && Notify(row) in w.conns[i].ran ==> Accounted(w, row)
  }

  lemma {:induction false} NotifiedAll(ks: seq<Completion>, row: nat)
    requires Notify(row) in ks
    ensures row in Notified(ks)
  {
    if ks[0] != Notify(row) {
      NotifiedAll(ks[1..], row);
    }
  }

  lemma AccountedKept(w: World, a: Action, files: Files, row: nat)
    requires Enabled(w, files, a) && Accounted(w, row)
    ensures Accounted(Act(w, a), row)
  {
    hide Inv;
    if a.Persist? {
      assert w.queue == [w.queue[0]] + w.queue[1..];
    }
  }

  lemma ActAccounted(w: World, files: Files, a: Action)
    requires Enabled(w, files, a) && AllAccounted(w)
    ensures AllAccounted(Act(w, a))
  {
    hide Inv, Accounted;
    var w' := Act(w, a);
    forall i, row | i in w'.conns && Notify(row) in w'.conns[i].ran ensures Accounted(w', row) {
      if i in w.conns && Notify(row) in w.conns[i].ran {
        AccountedKept(w, a, files, row);
      } else {
        var before, ran := RanBefore(w, i), w'.conns[i].ran;
        assert ran == before + ran[|before|..];
        NotifiedAll(ran[|before|..], row);
        Queued(w', row);
      }
    }
  }

  lemma Queued(w: World, row: nat)
    requires row in w.queue
    ensures Accounted(w, row)
  {
  }

  /** The oldest task is taken; its row, when it is there and was not delivered before, is delivered now,
      and no other row changes. */
  lemma PersistRecords(w: World, files: Files, now: int, ok: bool)
    requires Enabled(w, files, Persist(now, ok))
    ensures var w', row := Act(w, Persist(now, ok)), w.queue[0];
            && w.queue == [row] + w'.queue && w'.conns == w.conns && w'.rows.Keys == w.rows.Keys
            && (forall x :: x in w.rows && x != row ==> w'.rows[x] == w.rows[x])
            && (row in w.rows ==>
                  w'.rows[row] == if ok && w.rows[row].None? then Some(now) else w.rows[row])
            && (row in w'.lost <==> row in w.lost || !ok || row !in w.rows)
  {
  }

  lemma {:induction false} NotifiedMember(ks: seq<Completion>, row: nat)
    requires row in Notified(ks)
    ensures Notify(row) in ks
  {
    if !(ks[0].Notify? && ks[0].message == row) {
      NotifiedMember(ks[1..], row);
    }
  }

  lemma NotifiesKept(w: World, a: Action, files: Files, row: nat)
    requires Enabled(w, files, a) && Notifies(w, row)
    ensures Notifies(Act(w, a), row)
  {
    hide Inv;
    var i :| i in w.conns && Notify(row) in w.conns[i].ran;
    assert i in Act(w, a).conns;
  }

  lemma ActOk(w: World, files: Files, a: Action)
    requires WorldOk(w, files) && Enabled(w, files, a)
    ensures WorldOk(Act(w, a), files)
    ensures forall row :: row in w.rows && w.rows[row].Some? ==>
            row in Act(w, a).rows && Act(w, a).rows[row] == w.rows[row]
  {
    hide Inv, Notifies;
    var w' := Act(w, a);
    forall row | Notifies(w, row) ensures Notifies(w', row) {
      NotifiesKept(w, a, files, row);
    }
    if a.Evolve? {
      var before := RanBefore(w, a.conn);
      forall row | row in Notified(a.next.ran[|before|..]) ensures Notifies(w', row) {
        NotifiedMember(a.next.ran[|before|..], row);
        FreshNotifies(w', a.conn, row);
      }
    }
  }

  lemma FreshNotifies(w: World, i: nat, row: nat)
    requires i in w.conns && Notify(row) in w.conns[i].ran
    ensures Notifies(w, row)
  {
  }

  function ActAll(w: World, actions: seq<Action>): World
    decreases |actions|
  {
    if actions == [] then w else ActAll(Act(w, actions[0]), actions[1..])
  }

  ghost predicate EnabledAll(w: World, files: Files, actions: seq<Action>)
    decreases |actions|
  {
    actions == [] || (Enabled(w, files, actions[0]) && EnabledAll(Act(w, actions[0]), files, actions[1..]))
  }

  /** In every run a recorded delivery never changes again. */
  lemma {:induction false} ActAllOk(w: World, files: Files, actions: seq<Action>)
    requires WorldOk(w, files) && EnabledAll(w, files, actions)
    ensures WorldOk(ActAll(w, actions), files)
    ensures forall row :: row in w.rows && w.rows[row].Some? ==>
              row in ActAll(w, actions).rows && ActAll(w, actions).rows[row] == w.rows[row]
    decreases |actions|
  {
    hide WorldOk, Enabled, Act;
    if actions == [] {
    } else {
      ActOk(w, files, actions[0]);
      ActAllOk(Act(w, actions[0]), files, actions[1..]);
    }
  }

  lemma {:induction false} RunAccounted(w: World, files: Files, actions: seq<Action>)
    requires AllAccounted(w) && EnabledAll(w, files, actions)
    ensures AllAccounted(ActAll(w, actions))
    decreases |actions|
  {
    hide AllAccounted, Enabled, Act;
    if actions == [] {
    } else {
      ActAccounted(w, files, actions[0]);
      RunAccounted(Act(w, actions[0]), files, actions[1..]);
    }
  }

  /** In every run: a message whose completion has fired is recorded as delivered, unless its task is
      still waiting or its update failed. */
  lemma WrittenIsRecorded(files: Files, actions: seq<Action>, i: nat, row: nat)
    requires EnabledAll(START, files, actions)
    requires var w := ActAll(START, actions);
             i in w.conns && Notify(row) in w.conns[i].ran && row !in w.queue && row !in w.lost
    ensures var w := ActAll(START, actions); row in w.rows && w.rows[row].Some?
  {
    RunAccounted(START, files, actions);
    hide ActAll, EnabledAll;
    assert Accounted(ActAll(START, actions), row);
  }

  /** A row that is not NULL belongs to a message whose every byte some connection has written. */
  lemma DeliveredMeansWritten(files: Files, actions: seq<Action>, row: nat)
    requires EnabledAll(START, files, actions)
    requires var w := ActAll(START, actions); row in w.rows && w.rows[row].Some?
    ensures var w := ActAll(START, actions);
            exists i, k, j :: i in w.conns && WrittenFor(w.conns[i], k, Notify(row), j)
  {
    ActAllOk(START, files, actions);
    hide ActAll, EnabledAll;
    RowWritten(ActAll(START, actions), files, row);
  }

  lemma RowWritten(w: World, files: Files, row: nat)
    requires WorldOk(w, files) && row in w.rows && w.rows[row].Some?
    ensures exists i, k, j :: i in w.conns && WrittenFor(w.conns[i], k, Notify(row), j)
  {
    hide Inv, WrittenFor;
    assert Notifies(w, row);
    var i :| i in w.conns && Notify(row) in w.conns[i].ran;
    var c := w.conns[i];
    var k :| 0 <= k < |c.ran| && c.ran[k] == Notify(row);
    assert (c.ran + c.functors)[k] == Notify(row);
    FiredMeansWritten(c, files, k);
    var j :| WrittenFor(c, k, Notify(row), j);
    assert i in w.conns && WrittenFor(w.conns[i], k, Notify(row), j);
  }
}
