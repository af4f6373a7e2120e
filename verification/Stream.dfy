/** What a connection has sent, is sending and still holds back: the state behind
    TcpConnection.cpp with its history, and the primitive changes the send path is made of. */
module Stream {
  import opened Text
  import opened Wire
  import opened Deliveries

  datatype Conn = Conn(
    closed: bool,                       // kDisconnected
    output: Bytes,                      // outputBuffer_
    pending: seq<Completion>,           // pendingSendCompletions_
    active: Option<FileSend>,           // activeFileSend_
    queued: seq<FileSend>,              // queuedFileFrames_
    deferred: seq<Outgoing>,            // deferredSends_
    functors: seq<Completion>,          // completions handed to the event loop, not yet run
    pumps: map<nat, Pump>,
    landed: Option<Flight>,             // a frame that is out while its completion has not run yet
    // history
    wire: Bytes,                        // every byte SSL_write accepted
    log: seq<Item>,                     // the items the stream is made of
    submitted: seq<Outgoing>,           // texts accepted by sendInLoop, in order
    flushed: nat,                       // how many items were out when completions last fired
    ran: seq<Completion>)               // completions the event loop has run

  function First(f: FileSend): int { f.offset + f.remaining - f.size }

  predicate SendOk(f: FileSend, files: Files) {
    && f.transfer in files && f.remaining <= f.size && 0 < f.size <= PUMP_FRAME_BYTES
    && 0 <= First(f) && f.offset + f.remaining <= |files[f.transfer]|
    && f.header == DataHeader(f.transfer, First(f), f.size)
  }

  function Payload(f: FileSend, files: Files): Bytes
    requires SendOk(f, files)
  {
    files[f.transfer][First(f)..First(f) + f.size]
  }

  function Unsent(f: FileSend, files: Files): Bytes
    requires SendOk(f, files)
  {
    files[f.transfer][f.offset..f.offset + f.remaining]
  }

  function FlightOf(c: Conn): Option<Flight> {
    if c.active.Some? && First(c.active.value) >= 0
    then Some(Flight(c.active.value.pump, First(c.active.value), c.active.value.size)) else c.landed
  }

  function BoardOf(c: Conn): Board {
    Board(c.pumps, c.log, FlightOf(c), c.functors + c.pending, c.deferred, c.queued)
  }

  /** Bytes written, bytes buffered and the unsent payload together are whole texts and whole
      frames; once a payload has started, nothing is buffered behind it. */
  predicate Framing(c: Conn, files: Files) {
    match c.active
    case None => c.wire + c.output == Flatten(c.log)
    case Some(f) =>
      && SendOk(f, files)
      && c.wire + c.output + Unsent(f, files) == Flatten(c.log)
      && c.log != [] && c.log[|c.log| - 1] == Frame(f.pump, f.header, Payload(f, files))
      && (f.remaining < f.size ==> c.output == [])
  }

  /** Completions fire in order and only for items that are entirely on the wire. */
  predicate Honest(c: Conn) {
    && c.flushed <= |c.log|
    && Flatten(c.log[..c.flushed]) <= c.wire
    && CompletionsOf(c.log[..c.flushed]) == c.ran + c.functors
    && CompletionsOf(c.log) == c.ran + c.functors + c.pending
  }

  /** Texts enter the stream in submission order; while the connection lives none is lost. */
  predicate Ordered(c: Conn) {
    && TextsOf(c.log) <= c.submitted
    && (!c.closed ==> TextsOf(c.log) + c.deferred == c.submitted)
  }

  ghost predicate Inv(c: Conn, files: Files) {
    && Framing(c, files) && Honest(c) && Ordered(c)
    && BoardOk(BoardOf(c), files)
    && (c.active.Some? ==> c.landed.None?)
  }

  // ---- primitive changes --------------------------------------------------------------------

  function Wrote(c: Conn, count: nat): Conn
    requires count <= |c.output|
  {
    c.(wire := c.wire + c.output[..count], output := c.output[count..])
  }

  lemma WroteInv(c: Conn, files: Files, count: nat)
    requires Inv(c, files) && count <= |c.output|
    ensures Inv(Wrote(c, count), files)
  {
    hide BoardOk, DataHeader, ResumeStartText, DoneText;
    var c' := Wrote(c, count);
    assert c.wire + c.output[..count] + c.output[count..] == c.wire + c.output by {
      assert c.output[..count] + c.output[count..] == c.output;
    }
    assert c'.wire + c'.output == c.wire + c.output;
    assert BoardOf(c') == BoardOf(c);
  }

  function Fired(c: Conn): Conn {
    c.(functors := c.functors + c.pending, pending := [],
       flushed := |c.log| - (if c.active.Some? && c.log != [] then 1 else 0))
  }

  /** With an active frame and nothing buffered, everything before that frame is out. */
  lemma OutBeforeFrame(c: Conn, files: Files)
    requires Framing(c, files) && c.output == [] && c.active.Some?
    ensures Flatten(c.log[..|c.log| - 1]) <= c.wire
  {
    hide DataHeader;
    var f, before := c.active.value, Flatten(c.log[..|c.log| - 1]);
    var sent := Payload(f, files)[..f.size - f.remaining];
    PayloadParts(f, files);
    assert Flatten(c.log) == before + (f.header + Payload(f, files));
    assert before + (f.header + (sent + Unsent(f, files))) == before + (f.header + sent) + Unsent(f, files);
    assert c.wire + [] == c.wire;
    SameSuffix(c.wire, before + (f.header + sent), Unsent(f, files));
  }

  lemma FrameCompletesNothing(log: seq<Item>)
    requires log != [] && log[|log| - 1].Frame?
    ensures CompletionsOf(log) == CompletionsOf(log[..|log| - 1])
  {
    assert CompletionsOf(log[..|log| - 1]) + [] == CompletionsOf(log[..|log| - 1]);
  }

  lemma FiredHonest(c: Conn, files: Files)
    requires Framing(c, files) && Honest(c) && c.output == []
    ensures Honest(Fired(c))
  {
    hide DataHeader, Flatten, CompletionsOf;
    var c' := Fired(c);
    Assoc(c.ran, c.functors, c.pending);
    assert c'.ran + c'.functors + [] == c'.ran + c'.functors;
    if c.active.Some? {
      OutBeforeFrame(c, files);
      FrameCompletesNothing(c.log);
    } else {
      assert c.log[..|c.log|] == c.log;
      assert c.wire + [] == c.wire;
    }
  }

  lemma FiredInv(c: Conn, files: Files)
    requires Inv(c, files) && c.output == []
    ensures Inv(Fired(c), files)
  {
    hide BoardOk, DataHeader, ResumeStartText, DoneText;
    FiredHonest(c, files);
    assert BoardOf(Fired(c)) == BoardOf(c) by {
      assert c.functors + c.pending + [] == c.functors + c.pending;
    }
  }

  lemma PayloadParts(f: FileSend, files: Files)
    requires SendOk(f, files)
    ensures Payload(f, files) == Payload(f, files)[..f.size - f.remaining] + Unsent(f, files)
  {
    hide DataHeader;
  }

  lemma SameSuffix(a: Bytes, b: Bytes, tail: Bytes)
    requires a + tail == b + tail
    ensures a == b
  {
    assert |a| == |b|;
    assert a == (a + tail)[..|a|] && b == (b + tail)[..|b|];
  }

  /** A text enters the stream (`sendInLoop` with no frame active). */
  function Accepted(c: Conn, m: Outgoing): Conn {
    c.(output := c.output + m.text,
       pending := c.pending + CompletionOf(Message(m)),
       log := c.log + [Message(m)])
  }

  lemma AcceptedFraming(c: Conn, files: Files, m: Outgoing)
    requires Framing(c, files) && Honest(c) && c.active.None?
    ensures Framing(Accepted(c, m), files) && Honest(Accepted(c, m))
  {
    hide DataHeader;
    var c' := Accepted(c, m);
    LogAppend(c.log, Message(m));
    Assoc(c.wire, c.output, m.text);
    assert c'.log[..c.flushed] == c.log[..c.flushed];
    Assoc(c.ran + c.functors, c.pending, CompletionOf(Message(m)));
  }

  lemma AcceptedBoard(c: Conn, m: Outgoing)
    ensures BoardOf(Accepted(c, m)) == SendText(BoardOf(c), m)
  {
    Assoc(c.functors, c.pending, CompletionOf(Message(m)));
  }

  lemma SubmittedInv(c: Conn, files: Files, m: Outgoing)
    requires Inv(c, files) && c.active.None? && c.deferred == [] && !c.closed
    requires Ready(BoardOf(c), files, m)
    ensures Inv(Accepted(c, m).(submitted := c.submitted + [m]), files)
  {
    hide BoardOk, DataHeader, ResumeStartText, DoneText;
    var c' := Accepted(c, m).(submitted := c.submitted + [m]);
    AcceptedFraming(c, files, m);
    AcceptedBoard(c, m);
    SendTextOk(BoardOf(c), files, m);
    assert BoardOf(c') == BoardOf(Accepted(c, m));
    LogAppend(c.log, Message(m));
  }

  lemma DeferredInv(c: Conn, files: Files, m: Outgoing)
    requires Inv(c, files) && !c.closed && Ready(BoardOf(c), files, m)
    ensures Inv(c.(deferred := c.deferred + [m], submitted := c.submitted + [m]), files)
  {
    hide BoardOk, DataHeader, ResumeStartText, DoneText;
    DeferOk(BoardOf(c), files, m);
    var c' := c.(deferred := c.deferred + [m], submitted := c.submitted + [m]);
    assert BoardOf(c') == BoardOf(c).(deferred := c.deferred + [m]);
    assert TextsOf(c.log) + (c.deferred + [m]) == TextsOf(c.log) + c.deferred + [m];
  }

  /** On a closed connection the first deferred text is dropped. */
  lemma DroppedInv(c: Conn, files: Files)
    requires Inv(c, files) && c.deferred != [] && c.closed
    ensures Inv(c.(deferred := c.deferred[1..]), files)
  {
    hide BoardOk;
    DropOk(BoardOf(c), files);
    assert BoardOf(c.(deferred := c.deferred[1..])) == BoardOf(c).(deferred := c.deferred[1..]);
  }

  function Undeferred(c: Conn): Conn
    requires c.deferred != []
  {
    Accepted(c, c.deferred[0]).(deferred := c.deferred[1..])
  }

  lemma UndeferredOrder(c: Conn)
    requires Ordered(c) && c.deferred != [] && !c.closed
    ensures Ordered(Undeferred(c))
  {
    var m := c.deferred[0];
    LogAppend(c.log, Message(m));
    Assoc(TextsOf(c.log), [m], c.deferred[1..]);
    assert c.deferred == [m] + c.deferred[1..];
  }

  lemma UndeferredBoard(c: Conn, files: Files)
    requires BoardOk(BoardOf(c), files) && c.deferred != []
    ensures BoardOk(BoardOf(Undeferred(c)), files)
  {
    hide BoardOk;
    var rest := c.(deferred := c.deferred[1..]);
    DropOk(BoardOf(c), files);
    assert BoardOf(rest) == BoardOf(c).(deferred := c.deferred[1..]);
    AcceptedBoard(rest, c.deferred[0]);
    SendTextOk(BoardOf(rest), files, c.deferred[0]);
    assert Undeferred(c) == Accepted(rest, c.deferred[0]);
  }

  /** The first deferred text enters the stream. */
  lemma UndeferredInv(c: Conn, files: Files)
    requires Inv(c, files) && c.active.None? && c.deferred != [] && !c.closed
    ensures Inv(Undeferred(c), files)
  {
    hide BoardOk;
    UndeferredOrder(c);
    UndeferredBoard(c, files);
    AcceptedFraming(c, files, c.deferred[0]);
  }

  /** A frame becomes the active one and its header is buffered. */
  function Started(c: Conn, files: Files, f: FileSend): Conn
    requires SendOk(f, files)
  {
    c.(output := c.output + f.header, active := Some(f),
       log := c.log + [Frame(f.pump, f.header, Payload(f, files))])
  }

  lemma FreshIsSendOk(b: Board, files: Files, f: FileSend)
    requires FreshFrame(b, files, f)
    ensures SendOk(f, files) && First(f) == f.offset
    ensures Payload(f, files) == Unsent(f, files) == files[f.transfer][f.offset..f.offset + f.size]
  {
    hide DataHeader;
  }

  lemma Assoc<T>(a: seq<T>, b: seq<T>, c: seq<T>)
    ensures a + (b + c) == a + b + c
  {
  }

  lemma Regroup(a: Bytes, b: Bytes, c: Bytes, d: Bytes)
    ensures a + (b + c) + d == a + b + (c + d)
  {
  }

  lemma StartedFraming(c: Conn, files: Files, f: FileSend)
    requires Framing(c, files) && Honest(c) && Ordered(c) && c.active.None?
    requires SendOk(f, files) && f.remaining == f.size
    ensures Framing(Started(c, files, f), files) && Honest(Started(c, files, f)) && Ordered(Started(c, files, f))
  {
    hide DataHeader;
    var c', item := Started(c, files, f), Frame(f.pump, f.header, Payload(f, files));
    LogAppend(c.log, item);
    assert Payload(f, files) == Unsent(f, files);
    Regroup(c.wire, c.output, f.header, Unsent(f, files));
    assert c'.log[..c.flushed] == c.log[..c.flushed];
    assert CompletionOf(item) == [];
    assert CompletionsOf(c'.log) == CompletionsOf(c.log) by {
      assert CompletionsOf(c.log) + [] == CompletionsOf(c.log);
    }
    assert TextsOf(c'.log) == TextsOf(c.log) by {
      assert TextsOf(c.log) + [] == TextsOf(c.log);
    }
  }

  lemma StartedInv(c: Conn, files: Files, f: FileSend)
    requires Inv(c, files) && c.active.None? && c.landed.None?
    requires FreshFrame(BoardOf(c), files, f)
    requires forall q :: q in c.queued ==> q.pump != f.pump
    ensures SendOk(f, files) && Inv(Started(c, files, f), files)
  {
    hide BoardOk, DataHeader, ResumeStartText, DoneText;
    FreshIsSendOk(BoardOf(c), files, f);
    StartedFraming(c, files, f);
    StartFrameOk(BoardOf(c), files, f);
    assert BoardOf(Started(c, files, f)) == StartFrame(BoardOf(c), files, f);
  }

  /** `count` payload bytes go out. */
  function Streamed(c: Conn, files: Files, count: nat): Conn
    requires c.active.Some? && SendOk(c.active.value, files) && count <= c.active.value.remaining
  {
    var f := c.active.value;
    c.(wire := c.wire + files[f.transfer][f.offset..f.offset + count],
       active := Some(f.(offset := f.offset + count, remaining := f.remaining - count)))
  }

  lemma StreamedFraming(c: Conn, files: Files, count: nat)
    requires Framing(c, files) && c.active.Some? && c.output == [] && count <= c.active.value.remaining
    ensures Framing(Streamed(c, files, count), files)
  {
    hide DataHeader, Flatten;
    var c', f := Streamed(c, files, count), c.active.value;
    var f' := c'.active.value;
    var now, later := files[f.transfer][f.offset..f.offset + count], Unsent(f', files);
    assert now + later == Unsent(f, files);
    assert First(f') == First(f);
    assert c.wire + [] == c.wire && c'.wire + [] == c'.wire;
    Assoc(c.wire, now, later);
  }

  lemma StreamedInv(c: Conn, files: Files, count: nat)
    requires Inv(c, files) && c.active.Some? && c.output == [] && count <= c.active.value.remaining
    ensures Inv(Streamed(c, files, count), files)
  {
    hide BoardOk, DataHeader, ResumeStartText, DoneText;
    StreamedFraming(c, files, count);
    assert BoardOf(Streamed(c, files, count)) == BoardOf(c);
  }

  /** The active frame is entirely out. */
  function Landed(c: Conn): Conn
    requires c.active.Some? && First(c.active.value) >= 0
  {
    c.(active := None, landed := FlightOf(c))
  }

  lemma LandedInv(c: Conn, files: Files)
    requires Inv(c, files) && c.active.Some? && c.active.value.remaining == 0
    ensures c.output == [] && Inv(Landed(c), files)
  {
    hide BoardOk, DataHeader, ResumeStartText, DoneText;
    var c' := Landed(c);
    assert Unsent(c.active.value, files) == [];
    assert c.wire + c.output + [] == c.wire + c.output;
    assert BoardOf(c') == BoardOf(c);
  }

  lemma ClosedInv(c: Conn, files: Files)
    requires Inv(c, files)
    ensures Inv(c.(closed := true), files)
  {
    hide BoardOk, DataHeader, ResumeStartText, DoneText;
    assert BoardOf(c.(closed := true)) == BoardOf(c);
  }

  /** The pump whose frame landed moves on to the next offset. */
  function Advanced(c: Conn): Conn
    requires c.landed.Some? && c.landed.value.pump in c.pumps
  {
    var u := c.pumps[c.landed.value.pump];
    c.(landed := None, pumps := c.pumps[c.landed.value.pump := u.(offset := u.offset + c.landed.value.size)])
  }

  /** The pump whose frame landed gives up. */
  function Abandoned(c: Conn): Conn
    requires c.landed.Some? && c.landed.value.pump in c.pumps
  {
    var u := c.pumps[c.landed.value.pump];
    c.(landed := None, pumps := c.pumps[c.landed.value.pump := u.(phase := Finished(false), calls := u.calls + 1)])
  }

  lemma ActiveSendOk(c: Conn, files: Files)
    requires Inv(c, files) && c.active.Some?
    ensures SendOk(c.active.value, files)
  {
  }

  lemma LandedPump(c: Conn, files: Files)
    requires Inv(c, files) && c.active.None? && c.landed.Some?
    ensures c.landed.value.pump in c.pumps && c.pumps[c.landed.value.pump].phase == Sending
    ensures forall q :: q in c.queued ==> q.pump != c.landed.value.pump
  {
    hide BoardOk;
    FlightNotQueued(BoardOf(c), files);
  }

  lemma AdvancedInv(c: Conn, files: Files)
    requires Inv(c, files) && c.active.None? && c.landed.Some?
    requires forall q :: q in c.queued ==> q.pump != c.landed.value.pump
    requires c.landed.value.pump in c.pumps
    ensures Inv(Advanced(c), files) && Holding(BoardOf(Advanced(c)), files, c.landed.value.pump)
  {
    hide BoardOk, DataHeader, ResumeStartText, DoneText;
    AdvanceOk(BoardOf(c), files);
    assert BoardOf(Advanced(c)) == Advance(BoardOf(c));
  }

  lemma AbandonedInv(c: Conn, files: Files)
    requires Inv(c, files) && c.active.None? && c.landed.Some?
    requires forall q :: q in c.queued ==> q.pump != c.landed.value.pump
    requires c.landed.value.pump in c.pumps
    ensures Inv(Abandoned(c), files)
  {
    hide BoardOk, DataHeader, ResumeStartText, DoneText;
    AbandonOk(BoardOf(c), files);
    assert BoardOf(Abandoned(c)) == Abandon(BoardOf(c));
  }

  /** A pump that holds its token stops, or turns to its last message. */
  lemma RepumpedInv(c: Conn, files: Files, p: nat, u': Pump)
    requires Inv(c, files) && Holding(BoardOf(c), files, p)
    requires u' == c.pumps[p].(phase := Finished(false), calls := c.pumps[p].calls + 1)
             || (u' == c.pumps[p].(phase := Closing) && u'.offset >= |files[u'.transfer]|)
    ensures Inv(c.(pumps := c.pumps[p := u']), files)
    ensures u'.phase == Closing ==>
              Ready(BoardOf(c.(pumps := c.pumps[p := u'])), files, Outgoing(DoneText(u'.transfer), Some(PumpDone(p))))
  {
    hide BoardOk, DataHeader, ResumeStartText, DoneText;
    RepumpOk(BoardOf(c), files, p, u');
    assert BoardOf(c.(pumps := c.pumps[p := u'])) == SetPump(BoardOf(c), p, u');
  }

  /** The event loop runs the first completion. */
  function RanFirst(c: Conn): Conn
    requires c.functors != []
  {
    c.(functors := c.functors[1..], ran := c.ran + [c.functors[0]],
       pumps := TakeCompletion(BoardOf(c)).pumps)
  }

  /** What the callback of a completion does to its delivery. */
  function PumpsAfter(pumps: map<nat, Pump>, k: Completion): map<nat, Pump>
    requires k.Notify? || k.pump in pumps
  {
    match k
    case Notify(_) => pumps
    case PumpNext(p) => pumps[p := pumps[p].(phase := Sending)]
    case PumpDone(p) => pumps[p := pumps[p].(phase := Finished(true), calls := pumps[p].calls + 1)]
  }

  lemma RanFirstPumps(c: Conn)
    requires c.functors != []
    requires c.functors[0].Notify? || c.functors[0].pump in c.pumps
    ensures RanFirst(c) == c.(functors := c.functors[1..], ran := c.ran + [c.functors[0]],
                              pumps := PumpsAfter(c.pumps, c.functors[0]))
  {
    assert BoardOf(c).sent[0] == c.functors[0];
  }

  lemma RanFirstInv(c: Conn, files: Files)
    requires Inv(c, files) && c.functors != []
    ensures Inv(RanFirst(c), files)
    ensures c.functors[0].PumpNext? ==> Holding(BoardOf(RanFirst(c)), files, c.functors[0].pump)
    ensures c.functors[0].PumpDone? ==> c.functors[0].pump in c.pumps && c.pumps[c.functors[0].pump].phase == Closing
  {
    hide BoardOk, DataHeader, ResumeStartText, DoneText;
    var b, c' := BoardOf(c), RanFirst(c);
    TakeCompletionOk(b, files);
    assert b.sent[0] == c.functors[0];
    assert b.sent[1..] == c.functors[1..] + c.pending;
    assert BoardOf(c') == TakeCompletion(b);
    assert c.functors == [c.functors[0]] + c.functors[1..];
    assert c'.ran + c'.functors == c.ran + c.functors;
  }

  lemma NewPumpInv(c: Conn, files: Files, p: nat, u: Pump)
    requires Inv(c, files) && p !in c.pumps
    requires u.transfer in files && u.start == u.offset <= |files[u.transfer]|
    requires (u.phase == Starting && u.calls == 0) || (u.phase == Finished(false) && u.calls == 1)
    ensures Inv(c.(pumps := c.pumps[p := u]), files)
    ensures u.phase == Starting ==>
              Ready(BoardOf(c.(pumps := c.pumps[p := u])), files,
                    Outgoing(ResumeStartText(u.transfer, u.start), Some(PumpNext(p))))
  {
    hide BoardOk, DataHeader, ResumeStartText, DoneText;
    var b := BoardOf(c);
    var c' := c.(pumps := c.pumps[p := u]);
    assert BoardOf(c') == SetPump(b, p, u);
    NewPumpOk(b, files, p, u);
  }

  lemma EnqueuedInv(c: Conn, files: Files, f: FileSend)
    requires Inv(c, files) && FreshFrame(BoardOf(c), files, f) && Holding(BoardOf(c), files, f.pump)
    ensures Inv(c.(queued := c.queued + [f]), files)
  {
    hide BoardOk, DataHeader;
    EnqueueOk(BoardOf(c), files, f);
    assert BoardOf(c.(queued := c.queued + [f])) == BoardOf(c).(queued := c.queued + [f]);
  }

  lemma DequeuedInv(c: Conn, files: Files)
    requires Inv(c, files) && c.queued != []
    ensures Inv(c.(queued := c.queued[1..]), files)
    ensures FreshFrame(BoardOf(c.(queued := c.queued[1..])), files, c.queued[0])
    ensures forall q :: q in c.queued[1..] ==> q.pump != c.queued[0].pump
  {
    hide BoardOk, DataHeader;
    DequeueOk(BoardOf(c), files);
    assert BoardOf(c.(queued := c.queued[1..])) == BoardOf(c).(queued := c.queued[1..]);
  }

  lemma CancelledInv(c: Conn, files: Files, p: nat)
    requires Inv(c, files) && p in c.pumps
    ensures Inv(c.(pumps := c.pumps[p := c.pumps[p].(cancelled := true)]), files)
  {
    hide BoardOk;
    CancelOk(BoardOf(c), files, p);
  }
}
