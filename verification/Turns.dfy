/** No delivery is forgotten: while a connection lives, every delivery that is not over has exactly
    the thing that will move it on, a completion waiting to run, a text waiting behind a frame, a
    queued frame or the frame on the wire, except the one whose turn it is right now. */
module Turns {
  import opened Text
  import opened Wire
  import opened Deliveries
  import opened Stream

  predicate HasText(deferred: seq<Outgoing>, k: Completion) {
    exists i :: 0 <= i < |deferred| && deferred[i].completion == Some(k)
  }

  predicate HasFrame(queued: seq<FileSend>, p: nat) { exists i :: 0 <= i < |queued| && queued[i].pump == p }

  predicate Awaits(b: Board, k: Completion) { k in b.sent || HasText(b.deferred, k) }

  predicate Moves(b: Board, p: nat)
    requires p in b.pumps
  {
    match b.pumps[p].phase
    case Starting => Awaits(b, PumpNext(p))
    case Sending => (b.flight.Some? && b.flight.value.pump == p) || HasFrame(b.queued, p)
    case Closing => Awaits(b, PumpDone(p))
    case Finished(_) => true
  }

  ghost predicate AllMove(b: Board, turn: Option<nat>) {
    forall p :: p in b.pumps && turn != Some(p) ==> Moves(b, p)
  }

  /** The connection's invariant, with nobody forgotten. */
  ghost predicate Ok(c: Conn, files: Files, turn: Option<nat>) {
    Inv(c, files) && (c.closed || AllMove(BoardOf(c), turn))
  }

  /** Where nothing waits, every delivery is over and has called back once. */
  lemma IdleMeansOver(c: Conn, files: Files)
    requires Ok(c, files, None) && !c.closed && c.active.None? && c.landed.None?
    requires c.functors == [] && c.pending == [] && c.deferred == [] && c.queued == []
    ensures forall p :: p in c.pumps ==> c.pumps[p].phase.Finished? && c.pumps[p].calls == 1
  {
    hide DataHeader, ResumeStartText, DoneText;
    var b := BoardOf(c);
    forall p | p in c.pumps ensures c.pumps[p].phase.Finished? && c.pumps[p].calls == 1 {
      assert Moves(b, p);
    }
  }

  // ---- changes of the board -----------------------------------------------------------------

  lemma SameBoard(c: Conn, c': Conn, files: Files, turn: Option<nat>)
    requires Ok(c, files, turn) && Inv(c', files) && BoardOf(c') == BoardOf(c) && (c.closed ==> c'.closed)
    ensures Ok(c', files, turn)
  {
    hide Inv, AllMove;
  }

  lemma WroteTurn(c: Conn, files: Files, turn: Option<nat>, count: nat)
    requires Ok(c, files, turn) && count <= |c.output|
    ensures Ok(Wrote(c, count), files, turn)
  {
    hide Inv, AllMove;
    WroteInv(c, files, count);
    SameBoard(c, Wrote(c, count), files, turn);
  }

  lemma FiredTurn(c: Conn, files: Files, turn: Option<nat>)
    requires Ok(c, files, turn) && c.output == []
    ensures Ok(Fired(c), files, turn)
  {
    hide Inv, AllMove;
    FiredInv(c, files);
    assert c.functors + c.pending + [] == c.functors + c.pending;
    SameBoard(c, Fired(c), files, turn);
  }

  lemma ClosedTurn(c: Conn, files: Files, turn: Option<nat>)
    requires Ok(c, files, turn)
    ensures forall t :: Ok(c.(closed := true), files, t)
  {
    hide Inv;
    ClosedInv(c, files);
  }

  lemma SubmittedTurn(c: Conn, files: Files, turn: Option<nat>, m: Outgoing)
    requires Ok(c, files, turn) && c.active.None? && c.deferred == [] && !c.closed && Ready(BoardOf(c), files, m)
    ensures var c' := Accepted(c, m).(submitted := c.submitted + [m]);
            Ok(c', files, turn) && (m.completion.Some? ==> Awaits(BoardOf(c'), m.completion.value))
  {
    hide Inv, Ready;
    SubmittedInv(c, files, m);
    AcceptedBoard(c, m);
    SentMoves(BoardOf(c), m, turn);
  }

  lemma SentMoves(b: Board, m: Outgoing, turn: Option<nat>)
    requires AllMove(b, turn)
    ensures AllMove(SendText(b, m), turn) && (m.completion.Some? ==> Awaits(SendText(b, m), m.completion.value))
  {
    hide AllMove;
    var b' := SendText(b, m);
    assert forall k :: k in b.sent ==> k in b'.sent;
    SameTurn(b, b', turn);
  }

  /** The same for a change that takes nothing from anybody. */
  lemma SameTurn(b: Board, b': Board, turn: Option<nat>)
    requires AllMove(b, turn)
    requires forall k :: Awaits(b, k) ==> Awaits(b', k)
    requires forall p :: HasFrame(b.queued, p) ==> HasFrame(b'.queued, p)
    requires b.flight.Some? ==> b'.flight.Some? && b'.flight.value.pump == b.flight.value.pump
    requires forall p :: p in b'.pumps && Some(p) != turn ==> p in b.pumps && b'.pumps[p].phase == b.pumps[p].phase
    ensures AllMove(b', turn)
  {
    forall p | p in b'.pumps && turn != Some(p) ensures Moves(b', p) {
      assert Moves(b, p);
    }
  }

  lemma DeferredTurn(c: Conn, files: Files, turn: Option<nat>, m: Outgoing)
    requires Ok(c, files, turn) && !c.closed && Ready(BoardOf(c), files, m)
    ensures var c' := c.(deferred := c.deferred + [m], submitted := c.submitted + [m]);
            Ok(c', files, turn) && (m.completion.Some? ==> Awaits(BoardOf(c'), m.completion.value))
  {
    hide Inv, Ready;
    DeferredInv(c, files, m);
    var b, b' := BoardOf(c), BoardOf(c.(deferred := c.deferred + [m], submitted := c.submitted + [m]));
    assert b'.deferred[|b.deferred|] == m;
    assert forall i :: 0 <= i < |b.deferred| ==> b'.deferred[i] == b.deferred[i];
    SameTurn(b, b', turn);
  }

  lemma DroppedTurn(c: Conn, files: Files, turn: Option<nat>)
    requires Ok(c, files, turn) && c.deferred != [] && c.closed
    ensures Ok(c.(deferred := c.deferred[1..]), files, turn)
  {
    hide Inv;
    DroppedInv(c, files);
  }

  /** Nothing moves on a closed connection. */
  lemma ClosedAnyTurn(c: Conn, files: Files, turn: Option<nat>, turn': Option<nat>)
    requires Ok(c, files, turn) && c.closed
    ensures Ok(c, files, turn')
  {
  }

  lemma UndeferredTurn(c: Conn, files: Files, turn: Option<nat>)
    requires Ok(c, files, turn) && c.active.None? && c.deferred != [] && !c.closed
    ensures Ok(Undeferred(c), files, turn)
  {
    hide Inv;
    UndeferredInv(c, files);
    var m, rest := c.deferred[0], c.(deferred := c.deferred[1..]);
    AcceptedBoard(rest, m);
    assert Undeferred(c) == Accepted(rest, m);
    UndeferredMoves(BoardOf(c), turn);
    assert BoardOf(Undeferred(c)) == SendText(BoardOf(c).(deferred := c.deferred[1..]), m);
  }

  lemma UndeferredMoves(b: Board, turn: Option<nat>)
    requires AllMove(b, turn) && b.deferred != []
    ensures AllMove(SendText(b.(deferred := b.deferred[1..]), b.deferred[0]), turn)
  {
    var b' := SendText(b.(deferred := b.deferred[1..]), b.deferred[0]);
    forall k | Awaits(b, k) ensures Awaits(b', k) {
      if k !in b'.sent {
        var i :| 0 <= i < |b.deferred| && b.deferred[i].completion == Some(k);
        assert b.deferred[1..][i - 1].completion == Some(k);
      }
    }
    SameTurn(b, b', turn);
  }

  /** The frame whose turn it is goes on the wire. */
  lemma StartedTurn(c: Conn, files: Files, f: FileSend)
    requires Ok(c, files, Some(f.pump)) && c.active.None? && c.landed.None?
    requires FreshFrame(BoardOf(c), files, f)
    requires forall q :: q in c.queued ==> q.pump != f.pump
    ensures SendOk(f, files) && Ok(Started(c, files, f), files, None)
  {
    hide Inv, FreshFrame, DataHeader;
    StartedInv(c, files, f);
    FreshFrameFirst(BoardOf(c), files, f);
    var b, b' := BoardOf(c), BoardOf(Started(c, files, f));
    if !c.closed {
      forall p | p in b'.pumps ensures Moves(b', p) {
        if p != f.pump {
          assert Moves(b, p);
        }
      }
    }
  }

  lemma FreshFrameFirst(b: Board, files: Files, f: FileSend)
    requires FreshFrame(b, files, f)
    ensures First(f) >= 0 && f.pump in b.pumps && b.pumps[f.pump].phase == Sending
  {
    hide DataHeader;
  }

  lemma StreamedTurn(c: Conn, files: Files, turn: Option<nat>, count: nat)
    requires Ok(c, files, turn) && c.active.Some? && c.output == [] && count <= c.active.value.remaining
    ensures SendOk(c.active.value, files) && Ok(Streamed(c, files, count), files, turn)
  {
    hide Inv, AllMove, DataHeader;
    ActiveSendOk(c, files);
    StreamedInv(c, files, count);
    SameBoard(c, Streamed(c, files, count), files, turn);
  }

  lemma LandedTurn(c: Conn, files: Files, turn: Option<nat>)
    requires Ok(c, files, turn) && c.active.Some? && c.active.value.remaining == 0
    ensures SendOk(c.active.value, files) && c.output == [] && Ok(Landed(c), files, turn)
  {
    hide Inv, AllMove, DataHeader;
    ActiveSendOk(c, files);
    LandedInv(c, files);
    SameBoard(c, Landed(c), files, turn);
  }

  /** The frame is out: it is its delivery's turn. */
  lemma AdvancedTurn(c: Conn, files: Files)
    requires Ok(c, files, None) && c.active.None? && c.landed.Some?
    ensures c.landed.value.pump in c.pumps && c.pumps[c.landed.value.pump].phase == Sending
    ensures Ok(Advanced(c), files, Some(c.landed.value.pump))
            && Holding(BoardOf(Advanced(c)), files, c.landed.value.pump)
  {
    hide Inv, Holding;
    LandedPump(c, files);
    AdvancedInv(c, files);
    var b, b' := BoardOf(c), BoardOf(Advanced(c));
    forall p | !c.closed && p in b'.pumps && p != c.landed.value.pump ensures Moves(b', p) {
      assert Moves(b, p);
    }
  }

  lemma AbandonedTurn(c: Conn, files: Files)
    requires Ok(c, files, None) && c.active.None? && c.landed.Some?
    ensures c.landed.value.pump in c.pumps && c.pumps[c.landed.value.pump].phase == Sending
    ensures Ok(Abandoned(c), files, None)
  {
    hide Inv;
    LandedPump(c, files);
    AbandonedInv(c, files);
    var b, b' := BoardOf(c), BoardOf(Abandoned(c));
    forall p | !c.closed && p in b'.pumps ensures Moves(b', p) {
      assert Moves(b, p);
    }
  }

  lemma RepumpedTurn(c: Conn, files: Files, p: nat, u': Pump)
    requires Ok(c, files, Some(p)) && Holding(BoardOf(c), files, p)
    requires u' == c.pumps[p].(phase := Finished(false), calls := c.pumps[p].calls + 1)
             || (u' == c.pumps[p].(phase := Closing) && u'.offset >= |files[u'.transfer]|)
    ensures var c' := c.(pumps := c.pumps[p := u']);
            && Ok(c', files, if u'.phase == Closing then Some(p) else None)
            && (u'.phase == Closing ==> Ready(BoardOf(c'), files, Outgoing(DoneText(u'.transfer), Some(PumpDone(p)))))
  {
    hide Inv, Ready;
    RepumpedInv(c, files, p, u');
    hide Holding;
    var b, b' := BoardOf(c), BoardOf(c.(pumps := c.pumps[p := u']));
    forall q | !c.closed && q in b'.pumps && (q != p || u'.phase != Closing) ensures Moves(b', q) {
      assert q != p ==> Moves(b, q);
    }
  }

  /** The oldest completion runs: it is its delivery's turn, or that delivery is over. */
  lemma RanFirstTurn(c: Conn, files: Files)
    requires Ok(c, files, None) && c.functors != []
    ensures Ok(RanFirst(c), files, if c.functors[0].PumpNext? then Some(c.functors[0].pump) else None)
    ensures c.functors[0].PumpNext? ==> Holding(BoardOf(RanFirst(c)), files, c.functors[0].pump)
    ensures c.functors[0].Notify? || c.functors[0].pump in c.pumps
    ensures c.functors[0].PumpDone? ==> c.pumps[c.functors[0].pump].phase == Closing
  {
    hide Inv, Holding;
    RanFirstInv(c, files);
    if c.functors[0].PumpNext? {
      HoldingKnown(BoardOf(RanFirst(c)), files, c.functors[0].pump);
    }
    var b, b' := BoardOf(c), BoardOf(RanFirst(c));
    assert b.sent == [c.functors[0]] + b'.sent;
    if !c.closed {
      TakenMoves(b, b', c.functors[0]);
    }
  }

  lemma TakenMoves(b: Board, b': Board, k: Completion)
    requires AllMove(b, None) && b.sent == [k] + b'.sent && b'.pumps == TakeCompletion(b).pumps
    requires b'.deferred == b.deferred && b'.queued == b.queued && b'.flight == b.flight
    requires k.PumpDone? ==> k.pump in b.pumps
    ensures AllMove(b', if k.PumpNext? then Some(k.pump) else None)
  {
    assert forall x :: x in b.sent && x != k ==> x in b'.sent;
    forall p | p in b'.pumps && !(k.PumpNext? && k.pump == p) ensures Moves(b', p) {
      assert Moves(b, p);
    }
  }

  lemma NewPumpTurn(c: Conn, files: Files, p: nat, u: Pump)
    requires Ok(c, files, None) && p !in c.pumps
    requires u.transfer in files && u.start == u.offset <= |files[u.transfer]|
    requires (u.phase == Starting && u.calls == 0) || (u.phase == Finished(false) && u.calls == 1)
    ensures var c' := c.(pumps := c.pumps[p := u]);
            && Ok(c', files, if u.phase == Starting then Some(p) else None)
            && (u.phase == Starting ==>
                  Ready(BoardOf(c'), files, Outgoing(ResumeStartText(u.transfer, u.start), Some(PumpNext(p)))))
  {
    hide Inv, Ready;
    NewPumpInv(c, files, p, u);
    var b, b' := BoardOf(c), BoardOf(c.(pumps := c.pumps[p := u]));
    forall q | !c.closed && q in b'.pumps && (q != p || u.phase != Starting) ensures Moves(b', q) {
      assert q != p ==> Moves(b, q);
    }
  }

  lemma EnqueuedTurn(c: Conn, files: Files, f: FileSend)
    requires Ok(c, files, Some(f.pump)) && FreshFrame(BoardOf(c), files, f) && Holding(BoardOf(c), files, f.pump)
    ensures Ok(c.(queued := c.queued + [f]), files, None)
  {
    hide Inv, FreshFrame, Holding;
    EnqueuedInv(c, files, f);
    FreshFrameFirst(BoardOf(c), files, f);
    var b, b' := BoardOf(c), BoardOf(c.(queued := c.queued + [f]));
    assert b'.queued[|b.queued|].pump == f.pump;
    assert forall i :: 0 <= i < |b.queued| ==> b'.queued[i] == b.queued[i];
    forall p | !c.closed && p in b'.pumps ensures Moves(b', p) {
      assert p != f.pump ==> Moves(b, p);
    }
  }

  lemma DequeuedTurn(c: Conn, files: Files)
    requires Ok(c, files, None) && c.queued != []
    ensures var c' := c.(queued := c.queued[1..]);
            && Ok(c', files, Some(c.queued[0].pump)) && FreshFrame(BoardOf(c'), files, c.queued[0])
    ensures forall q :: q in c.queued[1..] ==> q.pump != c.queued[0].pump
  {
    hide Inv, FreshFrame;
    DequeuedInv(c, files);
    var b, b' := BoardOf(c), BoardOf(c.(queued := c.queued[1..]));
    forall p | !c.closed && p in b'.pumps && p != c.queued[0].pump ensures Moves(b', p) {
      assert Moves(b, p);
      if HasFrame(b.queued, p) {
        var i :| 0 <= i < |b.queued| && b.queued[i].pump == p;
        assert b.queued[1..][i - 1].pump == p;
      }
    }
  }

  lemma CancelledTurn(c: Conn, files: Files, turn: Option<nat>, p: nat)
    requires Ok(c, files, turn) && p in c.pumps
    ensures Ok(c.(pumps := c.pumps[p := c.pumps[p].(cancelled := true)]), files, turn)
  {
    hide Inv;
    CancelledInv(c, files, p);
    if !c.closed {
      SameTurn(BoardOf(c), BoardOf(c.(pumps := c.pumps[p := c.pumps[p].(cancelled := true)])), turn);
    }
  }

  /** A delivery that has its token back has had its turn. */
  lemma EndTurnOk(c: Conn, files: Files, p: nat)
    requires Ok(c, files, Some(p)) && (c.closed || (p in c.pumps && Moves(BoardOf(c), p)))
    ensures Ok(c, files, None)
  {
    hide Inv, Moves;
  }
}
