/** The file deliveries that share one connection (FileDeliveryPump in file_transfer_service.cpp).

    Each delivery holds exactly one token at a time: a completion waiting to run, a text waiting
    behind a frame, a queued frame, or the frame on the wire.  `Board` is the part of a
    connection that concerns this; every move of a token keeps `BoardOk`. */
module Deliveries {
  import opened Text
  import opened Wire

  datatype Phase = Starting          // FILE_RESUME_START submitted, nothing sent yet
                 | Sending           // a frame is queued or on the wire, or about to be
                 | Closing           // FILE_DONE submitted
                 | Finished(ok: bool)

  /** `calls` counts how often the completion callback was invoked. */
  datatype Pump = Pump(transfer: nat, start: nat, offset: nat, phase: Phase, cancelled: bool, calls: nat)

  /** `PendingFileSend`; `size` is its whole byte count, `remaining` what is still unsent. */
  datatype FileSend = FileSend(pump: nat, transfer: nat, header: Bytes, offset: nat, remaining: nat, size: nat)

  /** The stored files, by transfer.  They do not change while they are delivered. */
  type Files = map<nat, Bytes>

  datatype Flight = Flight(pump: nat, first: nat, size: nat)

  datatype Board = Board(
    pumps: map<nat, Pump>,
    log: seq<Item>,                   // items given to the stream so far
    flight: Option<Flight>,           // the frame on the wire, or just finished
    sent: seq<Completion>,            // completions of texts in `log` that have not run yet
    deferred: seq<Outgoing>,
    queued: seq<FileSend>)

  function DeliveryOf(u: Pump, files: Files): Delivery
    requires u.transfer in files
  {
    Delivery(u.transfer, u.start, files[u.transfer])
  }

  function PumpTrace(b: Board, files: Files, p: nat): Trace
    requires p in b.pumps && b.pumps[p].transfer in files
  {
    TraceOf(b.log, p, DeliveryOf(b.pumps[p], files))
  }

  function InFlight(b: Board, p: nat): nat {
    if b.flight.Some? && b.flight.value.pump == p then b.flight.value.size else 0
  }

  predicate KnownPump(b: Board, files: Files, p: nat) {
    p in b.pumps && b.pumps[p].transfer in files
  }

  predicate PumpOk(b: Board, files: Files, p: nat)
    requires p in b.pumps
  {
    var u := b.pumps[p];
    && u.transfer in files
    && u.start <= u.offset <= |files[u.transfer]|
    && u.calls == (if u.phase.Finished? then 1 else 0)
    && var t := PumpTrace(b, files, p);
       match u.phase
       case Starting => u.offset == u.start && (t == Unstarted || t == At(u.start)) && InFlight(b, p) == 0
       case Sending => t == At(u.offset + InFlight(b, p))
       case Closing => u.offset == |files[u.transfer]| && (t == At(u.offset) || t == Complete) && InFlight(b, p) == 0
       case Finished(ok) => t != Broken && (ok ==> t == Complete) && InFlight(b, p) == 0
  }

  /** A completion whose text is in the stream: its delivery waits for it. */
  predicate SentOk(b: Board, files: Files, k: Completion) {
    match k
    case Notify(_) => true
    case PumpNext(p) => KnownPump(b, files, p) && b.pumps[p].phase == Starting && PumpTrace(b, files, p).At?
    case PumpDone(p) => KnownPump(b, files, p) && b.pumps[p].phase == Closing && PumpTrace(b, files, p) == Complete
  }

  /** A text that is not in the stream yet. */
  predicate UnsentOk(b: Board, files: Files, m: Outgoing) {
    match m.completion
    case Some(PumpNext(p)) =>
      && KnownPump(b, files, p) && b.pumps[p].phase == Starting && PumpTrace(b, files, p) == Unstarted
      && m.text == ResumeStartText(b.pumps[p].transfer, b.pumps[p].start)
    case Some(PumpDone(p)) =>
      && KnownPump(b, files, p) && b.pumps[p].phase == Closing && PumpTrace(b, files, p).At?
      && m.text == DoneText(b.pumps[p].transfer)
    case _ => true
  }

  predicate FreshFrame(b: Board, files: Files, f: FileSend) {
    && KnownPump(b, files, f.pump)
    && var u := b.pumps[f.pump];
    && u.phase == Sending && InFlight(b, f.pump) == 0
    && f.transfer == u.transfer && f.offset == u.offset
    && f.remaining == f.size && 0 < f.size <= PUMP_FRAME_BYTES && f.offset + f.size <= |files[u.transfer]|
    && f.header == DataHeader(f.transfer, f.offset, f.size)
  }

  predicate IsToken(k: Completion) { !k.Notify? }

  predicate DistinctTokens(s: seq<Completion>) {
    forall i, j :: 0 <= i < j < |s| && IsToken(s[i]) ==> s[i] != s[j]
  }

  predicate DistinctTexts(s: seq<Outgoing>) {
    forall i, j :: 0 <= i < j < |s| && s[i].completion.Some? && IsToken(s[i].completion.value)
                   ==> s[i].completion != s[j].completion
  }

  predicate DistinctFrames(s: seq<FileSend>) {
    forall i, j :: 0 <= i < j < |s| ==> s[i].pump != s[j].pump
  }

  function TokenPump(k: Completion): Option<nat> {
    match k
    case Notify(_) => None
    case PumpNext(p) => Some(p)
    case PumpDone(p) => Some(p)
  }

  function OwnerOf(item: Item): Option<nat> {
    match item
    case Frame(p, _, _) => Some(p)
    case Message(m) => if m.completion.None? then None else TokenPump(m.completion.value)
  }

  /** Every item in the stream that belongs to a pump belongs to a known one. */
  predicate OwnersOk(b: Board) {
    forall i :: 0 <= i < |b.log| && OwnerOf(b.log[i]).Some? ==> OwnerOf(b.log[i]).value in b.pumps
  }

  predicate FlightOk(b: Board) {
    b.flight.Some? ==>
      var x := b.flight.value;
      x.size > 0 && x.pump in b.pumps && b.pumps[x.pump].phase == Sending && b.pumps[x.pump].offset == x.first
  }

  ghost predicate BoardOk(b: Board, files: Files) {
    && (forall p :: p in b.pumps ==> PumpOk(b, files, p))
    && (forall k :: k in b.sent ==> SentOk(b, files, k))
    && DistinctTokens(b.sent)
    && (forall m :: m in b.deferred ==> UnsentOk(b, files, m))
    && DistinctTexts(b.deferred)
    && (forall f :: f in b.queued ==> FreshFrame(b, files, f))
    && DistinctFrames(b.queued)
    && FlightOk(b) && OwnersOk(b)
  }

  /** Nobody waits for pump `p`: it may make its next move. */
  ghost predicate Holding(b: Board, files: Files, p: nat) {
    && KnownPump(b, files, p) && b.pumps[p].phase == Sending && InFlight(b, p) == 0
    && forall f :: f in b.queued ==> f.pump != p
  }

  // ---- moves --------------------------------------------------------------------------------

  function SendText(b: Board, m: Outgoing): Board {
    b.(log := b.log + [Message(m)],
       sent := b.sent + CompletionOf(Message(m)))
  }

  function StartFrame(b: Board, files: Files, f: FileSend): Board
    requires f.transfer in files && f.offset + f.size <= |files[f.transfer]|
  {
    b.(log := b.log + [Frame(f.pump, f.header, files[f.transfer][f.offset..f.offset + f.size])],
       flight := Some(Flight(f.pump, f.offset, f.size)))
  }

  function SetPump(b: Board, p: nat, u: Pump): Board { b.(pumps := b.pumps[p := u]) }

  /** A text may enter the stream when no other text of the same token waits. */
  ghost predicate Ready(b: Board, files: Files, m: Outgoing) {
    && UnsentOk(b, files, m)
    && (m.completion.Some? && IsToken(m.completion.value) ==>
          forall d :: d in b.deferred ==> d.completion != m.completion)
  }

  lemma TraceUnaffected(b: Board, item: Item, files: Files)
    ensures forall p :: KnownPump(b, files, p) ==>
              TraceOf(b.log + [item], p, DeliveryOf(b.pumps[p], files))
              == TraceStep(PumpTrace(b, files, p), item, p, DeliveryOf(b.pumps[p], files))
  {
    hide DataHeader, ResumeStartText, DoneText;
    forall p | KnownPump(b, files, p)
      ensures TraceOf(b.log + [item], p, DeliveryOf(b.pumps[p], files))
              == TraceStep(PumpTrace(b, files, p), item, p, DeliveryOf(b.pumps[p], files))
    {
      TraceAppend(b.log, item, p, DeliveryOf(b.pumps[p], files));
    }
  }

  lemma SendTextPumps(b: Board, files: Files, m: Outgoing)
    requires BoardOk(b, files) && UnsentOk(b, files, m)
    ensures forall p :: p in b.pumps ==> PumpOk(SendText(b, m), files, p)
  {
    hide DataHeader, ResumeStartText, DoneText;
    var b' := SendText(b, m);
    TraceUnaffected(b, Message(m), files);
    forall p | p in b'.pumps ensures PumpOk(b', files, p) {
      assert PumpOk(b, files, p);
    }
  }

  lemma SendTextSent(b: Board, files: Files, m: Outgoing)
    requires BoardOk(b, files) && UnsentOk(b, files, m)
    ensures forall k :: k in SendText(b, m).sent ==> SentOk(SendText(b, m), files, k)
    ensures DistinctTokens(SendText(b, m).sent)
  {
    hide DataHeader, ResumeStartText, DoneText;
    var b' := SendText(b, m);
    TraceUnaffected(b, Message(m), files);
    forall k | k in b'.sent ensures SentOk(b', files, k) {
      if k in b.sent {
        assert SentOk(b, files, k);
      } else {
        assert CompletionOf(Message(m)) == [k];
        assert IsToken(k) ==> PumpOk(b, files, TokenPump(k).value);
      }
    }
    forall i, j | 0 <= i < j < |b'.sent| && IsToken(b'.sent[i]) ensures b'.sent[i] != b'.sent[j] {
      assert b'.sent[i] in b.sent;
      assert SentOk(b, files, b'.sent[i]);
    }
  }

  lemma SendTextUnsent(b: Board, files: Files, m: Outgoing)
    requires BoardOk(b, files) && Ready(b, files, m)
    ensures forall d :: d in b.deferred ==> UnsentOk(SendText(b, m), files, d)
    ensures forall f :: f in b.queued ==> FreshFrame(SendText(b, m), files, f)
  {
    hide DataHeader, ResumeStartText, DoneText;
    var b' := SendText(b, m);
    TraceUnaffected(b, Message(m), files);
    forall d | d in b'.deferred ensures UnsentOk(b', files, d) {
      assert UnsentOk(b, files, d);
    }
    forall f | f in b'.queued ensures FreshFrame(b', files, f) {
      assert FreshFrame(b, files, f);
    }
  }

  lemma SendTextOk(b: Board, files: Files, m: Outgoing)
    requires BoardOk(b, files) && Ready(b, files, m)
    ensures BoardOk(SendText(b, m), files)
  {
    hide DataHeader, ResumeStartText, DoneText;
    SendTextPumps(b, files, m);
    SendTextSent(b, files, m);
    SendTextUnsent(b, files, m);
  }

  lemma DeferOk(b: Board, files: Files, m: Outgoing)
    requires BoardOk(b, files) && Ready(b, files, m)
    ensures BoardOk(b.(deferred := b.deferred + [m]), files)
  {
    hide DataHeader, ResumeStartText, DoneText, TraceOf;
    var b' := b.(deferred := b.deferred + [m]);
    SameStream(b, b', files);
    forall d | d in b'.deferred ensures UnsentOk(b', files, d) {
      assert UnsentOk(b, files, d);
    }
  }

  /** What a board says about its pumps, completions and frames depends on nothing else. */
  lemma SameStream(b: Board, b': Board, files: Files)
    requires b'.pumps == b.pumps && b'.log == b.log && b'.flight == b.flight
    requires BoardOk(b, files)
    ensures forall p :: p in b'.pumps ==> PumpOk(b', files, p)
    ensures forall k :: SentOk(b, files, k) ==> SentOk(b', files, k)
    ensures forall m :: UnsentOk(b, files, m) ==> UnsentOk(b', files, m)
    ensures forall f :: FreshFrame(b, files, f) ==> FreshFrame(b', files, f)
  {
    hide DataHeader, ResumeStartText, DoneText, TraceOf;
    forall p | p in b'.pumps ensures PumpOk(b', files, p) {
      assert PumpOk(b, files, p);
    }
  }

  lemma DropOk(b: Board, files: Files)
    requires BoardOk(b, files) && b.deferred != []
    ensures BoardOk(b.(deferred := b.deferred[1..]), files)
    ensures Ready(b.(deferred := b.deferred[1..]), files, b.deferred[0])
  {
    hide DataHeader, ResumeStartText, DoneText, TraceOf;
    var b' := b.(deferred := b.deferred[1..]);
    SameStream(b, b', files);
    assert b.deferred == [b.deferred[0]] + b.deferred[1..];
    forall d | d in b'.deferred && b.deferred[0].completion.Some? && IsToken(b.deferred[0].completion.value)
      ensures d.completion != b.deferred[0].completion
    {
      var i :| 0 <= i < |b'.deferred| && b'.deferred[i] == d;
      assert b.deferred[i + 1] == d;
    }
  }

  lemma StartFrameOk(b: Board, files: Files, f: FileSend)
    requires BoardOk(b, files) && FreshFrame(b, files, f) && b.flight.None?
    requires forall q :: q in b.queued ==> q.pump != f.pump
    ensures BoardOk(StartFrame(b, files, f), files)
  {
    hide DataHeader, ResumeStartText, DoneText;
    var b' := StartFrame(b, files, f);
    var item := b'.log[|b.log|];
    TraceUnaffected(b, item, files);
    forall p | p in b'.pumps ensures PumpOk(b', files, p) {
      assert PumpOk(b, files, p);
    }
    forall k | k in b'.sent ensures SentOk(b', files, k) {
      assert SentOk(b, files, k);
    }
    forall d | d in b'.deferred ensures UnsentOk(b', files, d) {
      assert UnsentOk(b, files, d);
    }
    forall g | g in b'.queued ensures FreshFrame(b', files, g) {
      assert FreshFrame(b, files, g);
    }
  }

  lemma EnqueueOk(b: Board, files: Files, f: FileSend)
    requires BoardOk(b, files) && FreshFrame(b, files, f) && Holding(b, files, f.pump)
    ensures BoardOk(b.(queued := b.queued + [f]), files)
  {
    hide DataHeader, ResumeStartText, DoneText, TraceOf;
    var b' := b.(queued := b.queued + [f]);
    SameStream(b, b', files);
    forall g | g in b'.queued ensures FreshFrame(b', files, g) {
      assert FreshFrame(b, files, g);
    }
  }

  lemma DequeueOk(b: Board, files: Files)
    requires BoardOk(b, files) && b.queued != []
    ensures BoardOk(b.(queued := b.queued[1..]), files)
    ensures FreshFrame(b.(queued := b.queued[1..]), files, b.queued[0])
    ensures forall q :: q in b.queued[1..] ==> q.pump != b.queued[0].pump
  {
    hide DataHeader, ResumeStartText, DoneText, TraceOf;
    var b' := b.(queued := b.queued[1..]);
    SameStream(b, b', files);
    assert FreshFrame(b, files, b.queued[0]);
    forall q | q in b.queued[1..] ensures q.pump != b.queued[0].pump && FreshFrame(b', files, q) {
      var i :| 0 <= i < |b'.queued| && b'.queued[i] == q;
      assert b.queued[i + 1] == q;
      assert FreshFrame(b, files, q);
    }
  }

  /** The boards differ at most in what concerns pump `p`. */
  ghost predicate Elsewhere(b: Board, b': Board, p: nat) {
    && b'.log == b.log
    && forall q {:trigger q in b.pumps} {:trigger q in b'.pumps} :: q != p ==>
         && (q in b'.pumps <==> q in b.pumps)
         && (q in b.pumps ==> b'.pumps[q] == b.pumps[q])
         && InFlight(b', q) == InFlight(b, q)
  }

  lemma SetPumpElsewhere(b: Board, p: nat, u: Pump, flight: Option<Flight>)
    requires flight == b.flight || (flight == None && b.flight.Some? && b.flight.value.pump == p)
    ensures Elsewhere(b, SetPump(b, p, u).(flight := flight), p)
  {
    var b' := SetPump(b, p, u).(flight := flight);
    forall q: nat | q != p
      ensures (q in b'.pumps <==> q in b.pumps) && (q in b.pumps ==> b'.pumps[q] == b.pumps[q])
      ensures InFlight(b', q) == InFlight(b, q)
    {
      assert b'.pumps == b.pumps[p := u];
    }
  }

  lemma TokensElsewhere(b: Board, b': Board, files: Files, p: nat)
    requires Elsewhere(b, b', p)
    ensures forall q :: q in b.pumps && q != p && PumpOk(b, files, q) ==> PumpOk(b', files, q)
    ensures forall k :: SentOk(b, files, k) && TokenPump(k) != Some(p) ==> SentOk(b', files, k)
    ensures forall m :: UnsentOk(b, files, m) && OwnerOf(Message(m)) != Some(p) ==> UnsentOk(b', files, m)
    ensures forall f :: FreshFrame(b, files, f) && f.pump != p ==> FreshFrame(b', files, f)
  {
    hide DataHeader, ResumeStartText, DoneText, TraceOf;
    forall k | SentOk(b, files, k) && TokenPump(k) != Some(p) ensures SentOk(b', files, k) {
      assert IsToken(k) ==> TokenPump(k).value in b.pumps;
    }
    forall m | UnsentOk(b, files, m) && OwnerOf(Message(m)) != Some(p) ensures UnsentOk(b', files, m) {
      assert OwnerOf(Message(m)).Some? ==> OwnerOf(Message(m)).value in b.pumps;
    }
    forall f | FreshFrame(b, files, f) && f.pump != p ensures FreshFrame(b', files, f) {
      assert f.pump in b.pumps;
    }
  }

  /** A pump that nobody waits for may change its record, as long as the record fits the stream. */
  lemma SetPumpOk(b: Board, files: Files, p: nat, u: Pump, b': Board)
    requires BoardOk(b, files) && p in b.pumps && b.pumps[p].phase == Sending
    requires forall f :: f in b.queued ==> f.pump != p
    requires u.transfer == b.pumps[p].transfer && u.start == b.pumps[p].start
    requires b' == SetPump(b, p, u).(flight := b'.flight)
    requires b'.flight == b.flight || (b'.flight == None && b.flight.Some? && b.flight.value.pump == p)
    requires b'.flight.Some? ==> b'.flight.value.pump != p
    requires PumpOk(b', files, p)
    ensures BoardOk(b', files)
  {
    NotWaiting(b, files, p);
    hide DataHeader, ResumeStartText, DoneText, TraceOf, PumpOk, SentOk, UnsentOk, FreshFrame;
    SetPumpElsewhere(b, p, u, b'.flight);
    TokensElsewhere(b, b', files, p);
  }

  /** No text speaks for a pump that is sending. */
  lemma NotWaiting(b: Board, files: Files, p: nat)
    requires BoardOk(b, files) && p in b.pumps && b.pumps[p].phase == Sending
    ensures forall k :: k in b.sent ==> TokenPump(k) != Some(p)
    ensures forall m :: m in b.deferred ==> OwnerOf(Message(m)) != Some(p)
  {
    hide DataHeader, ResumeStartText, DoneText, TraceOf;
    assert forall k :: k in b.sent ==> SentOk(b, files, k);
    assert forall m :: m in b.deferred ==> UnsentOk(b, files, m);
  }

  /** A delivery never runs past the end of its content. */
  lemma {:induction false} TraceBound(log: seq<Item>, p: nat, d: Delivery)
    requires d.start <= |d.content|
    ensures TraceOf(log, p, d).At? ==> d.start <= TraceOf(log, p, d).offset <= |d.content|
  {
    hide DataHeader, ResumeStartText, DoneText;
    if log == [] {
    } else {
      TraceBound(log[..|log| - 1], p, d);
    }
  }

  function Advance(b: Board): Board
    requires b.flight.Some? && b.flight.value.pump in b.pumps
  {
    var u := b.pumps[b.flight.value.pump];
    SetPump(b, b.flight.value.pump, u.(offset := u.offset + b.flight.value.size)).(flight := None)
  }

  function Abandon(b: Board): Board
    requires b.flight.Some? && b.flight.value.pump in b.pumps
  {
    var u := b.pumps[b.flight.value.pump];
    SetPump(b, b.flight.value.pump, u.(phase := Finished(false), calls := u.calls + 1)).(flight := None)
  }

  lemma AdvancePump(b: Board, files: Files)
    requires BoardOk(b, files) && b.flight.Some?
    ensures PumpOk(Advance(b), files, b.flight.value.pump)
  {
    hide DataHeader, ResumeStartText, DoneText;
    var p := b.flight.value.pump;
    assert PumpOk(b, files, p);
    TraceBound(b.log, p, DeliveryOf(b.pumps[p], files));
    assert PumpTrace(Advance(b), files, p) == PumpTrace(b, files, p);
  }

  /** The pump whose frame is out advances its offset and holds its token again. */
  lemma AdvanceOk(b: Board, files: Files)
    requires BoardOk(b, files) && b.flight.Some?
    requires forall q :: q in b.queued ==> q.pump != b.flight.value.pump
    ensures BoardOk(Advance(b), files) && Holding(Advance(b), files, b.flight.value.pump)
  {
    hide DataHeader, ResumeStartText, DoneText, TraceOf;
    var p := b.flight.value.pump;
    AdvancePump(b, files);
    SetPumpOk(b, files, p, Advance(b).pumps[p], Advance(b));
  }

  lemma AbandonOk(b: Board, files: Files)
    requires BoardOk(b, files) && b.flight.Some?
    requires forall q :: q in b.queued ==> q.pump != b.flight.value.pump
    ensures BoardOk(Abandon(b), files)
  {
    hide DataHeader, ResumeStartText, DoneText, TraceOf;
    var p := b.flight.value.pump;
    assert PumpOk(b, files, p);
    SetPumpOk(b, files, p, Abandon(b).pumps[p], Abandon(b));
  }

  lemma RepumpOk(b: Board, files: Files, p: nat, u': Pump)
    requires BoardOk(b, files) && Holding(b, files, p)
    requires u' == b.pumps[p].(phase := Finished(false), calls := b.pumps[p].calls + 1)
             || (u' == b.pumps[p].(phase := Closing) && u'.offset >= |files[u'.transfer]|)
    ensures BoardOk(SetPump(b, p, u'), files)
    ensures u'.phase == Closing ==>
              Ready(SetPump(b, p, u'), files, Outgoing(DoneText(u'.transfer), Some(PumpDone(p))))
  {
    hide DataHeader, ResumeStartText, DoneText, TraceOf;
    assert PumpOk(b, files, p);
    assert InFlight(b, p) == 0 ==> b.flight.None? || b.flight.value.pump != p;
    SetPumpOk(b, files, p, u', SetPump(b, p, u'));
    forall d | d in b.deferred ensures d.completion != Some(PumpDone(p)) {
      assert UnsentOk(b, files, d);
    }
  }

  /** The event loop takes the first completion: its delivery now makes its move. */
  function TakeCompletion(b: Board): Board
    requires b.sent != []
  {
    var rest := b.(sent := b.sent[1..]);
    match b.sent[0]
    case Notify(_) => rest
    case PumpNext(p) =>
      if p in b.pumps then SetPump(rest, p, b.pumps[p].(phase := Sending)) else rest
    case PumpDone(p) =>
      if p in b.pumps then SetPump(rest, p, b.pumps[p].(phase := Finished(true), calls := b.pumps[p].calls + 1))
      else rest
  }

  lemma TakeCompletionTokens(b: Board, files: Files)
    requires BoardOk(b, files) && b.sent != []
    ensures forall k :: k in b.sent[1..] ==> SentOk(TakeCompletion(b), files, k)
    ensures forall d :: d in b.deferred ==> UnsentOk(TakeCompletion(b), files, d)
  {
    hide DataHeader, ResumeStartText, DoneText, TraceOf;
    var b' := TakeCompletion(b);
    assert SentOk(b, files, b.sent[0]);
    forall k | k in b'.sent ensures SentOk(b', files, k) {
      var i :| 0 <= i < |b'.sent| && b'.sent[i] == k;
      assert b.sent[i + 1] == k && SentOk(b, files, k);
    }
    forall d | d in b'.deferred ensures UnsentOk(b', files, d) {
      assert UnsentOk(b, files, d);
    }
  }

  lemma TakeCompletionPumps(b: Board, files: Files)
    requires BoardOk(b, files) && b.sent != []
    ensures forall q :: q in TakeCompletion(b).pumps ==> PumpOk(TakeCompletion(b), files, q)
    ensures forall f :: f in b.queued ==> FreshFrame(TakeCompletion(b), files, f)
    ensures b.sent[0].PumpNext? ==> Holding(TakeCompletion(b), files, b.sent[0].pump)
    ensures b.sent[0].PumpDone? ==> b.sent[0].pump in b.pumps && b.pumps[b.sent[0].pump].phase == Closing
  {
    hide DataHeader, ResumeStartText, DoneText, TraceOf;
    var b' := TakeCompletion(b);
    var head := b.sent[0];
    assert SentOk(b, files, head);
    assert IsToken(head) ==> PumpOk(b, files, TokenPump(head).value);
    forall q | q in b'.pumps ensures PumpOk(b', files, q) {
      assert PumpOk(b, files, q);
    }
    forall f | f in b'.queued ensures FreshFrame(b', files, f) && (head.PumpNext? ==> f.pump != head.pump) {
      assert FreshFrame(b, files, f);
    }
  }

  lemma TakeCompletionOk(b: Board, files: Files)
    requires BoardOk(b, files) && b.sent != []
    ensures BoardOk(TakeCompletion(b), files)
    ensures b.sent[0].PumpNext? ==> Holding(TakeCompletion(b), files, b.sent[0].pump)
    ensures b.sent[0].PumpDone? ==> b.sent[0].pump in b.pumps && b.pumps[b.sent[0].pump].phase == Closing
  {
    hide DataHeader, ResumeStartText, DoneText;
    TakeCompletionTokens(b, files);
    TakeCompletionPumps(b, files);
    assert SentOk(b, files, b.sent[0]);
    assert b.sent == [b.sent[0]] + b.sent[1..];
  }

  /** The cancel flag plays no part in what the board says. */
  lemma CancelOk(b: Board, files: Files, p: nat)
    requires BoardOk(b, files) && p in b.pumps
    ensures BoardOk(SetPump(b, p, b.pumps[p].(cancelled := true)), files)
  {
    var b' := SetPump(b, p, b.pumps[p].(cancelled := true));
    CancelKeeps(b, files, p);
    hide DataHeader, ResumeStartText, DoneText, TraceOf, PumpOk, SentOk, UnsentOk, FreshFrame;
    SetPumpElsewhere(b, p, b'.pumps[p], b.flight);
    TokensElsewhere(b, b', files, p);
  }

  lemma CancelKeeps(b: Board, files: Files, p: nat)
    requires p in b.pumps && PumpOk(b, files, p)
    ensures var b' := SetPump(b, p, b.pumps[p].(cancelled := true));
            && PumpOk(b', files, p)
            && (forall k :: TokenPump(k) == Some(p) && SentOk(b, files, k) ==> SentOk(b', files, k))
            && (forall m :: OwnerOf(Message(m)) == Some(p) && UnsentOk(b, files, m) ==> UnsentOk(b', files, m))
            && (forall f: FileSend :: f.pump == p && FreshFrame(b, files, f) ==> FreshFrame(b', files, f))
  {
    hide DataHeader, ResumeStartText, DoneText, TraceOf;
  }

  /** The pump whose frame is in flight has no queued frame. */
  lemma FlightNotQueued(b: Board, files: Files)
    requires BoardOk(b, files) && b.flight.Some?
    ensures b.flight.value.pump in b.pumps && b.pumps[b.flight.value.pump].phase == Sending
    ensures forall q :: q in b.queued ==> q.pump != b.flight.value.pump
  {
    assert forall q :: q in b.queued ==> FreshFrame(b, files, q);
  }

  /** A text that belongs to no delivery may always enter the stream. */
  lemma PlainReady(b: Board, files: Files, m: Outgoing)
    requires m.completion.None? || m.completion.value.Notify?
    ensures Ready(b, files, m)
  {
  }

  lemma FreshHasBytes(b: Board, files: Files, f: FileSend)
    requires FreshFrame(b, files, f)
    ensures f.remaining > 0
  {
  }

  lemma HoldingKnown(b: Board, files: Files, p: nat)
    requires Holding(b, files, p)
    ensures p in b.pumps && b.pumps[p].transfer in files
  {
  }

  /** The next frame of a pump that holds its token. */
  function NextFrame(u: Pump, p: nat, total: nat): FileSend
    requires u.offset < total
  {
    var size := if total - u.offset < PUMP_FRAME_BYTES then total - u.offset else PUMP_FRAME_BYTES;
    FileSend(p, u.transfer, DataHeader(u.transfer, u.offset, size), u.offset, size, size)
  }

  lemma NextFrameFresh(b: Board, files: Files, p: nat)
    requires Holding(b, files, p) && b.pumps[p].offset < |files[b.pumps[p].transfer]|
    ensures FreshFrame(b, files, NextFrame(b.pumps[p], p, |files[b.pumps[p].transfer]|))
  {
  }

  /** A new delivery, before its FILE_RESUME_START is submitted. */
  lemma NewPumpOk(b: Board, files: Files, p: nat, u: Pump)
    requires BoardOk(b, files) && p !in b.pumps
    requires u.transfer in files && u.start == u.offset <= |files[u.transfer]|
    requires (u.phase == Starting && u.calls == 0) || (u.phase == Finished(false) && u.calls == 1)
    ensures BoardOk(SetPump(b, p, u), files)
    ensures u.phase == Starting ==>
              Ready(SetPump(b, p, u), files, Outgoing(ResumeStartText(u.transfer, u.start), Some(PumpNext(p))))
  {
    var b' := SetPump(b, p, u);
    NewPumpFits(b, files, p, u);
    UnknownPump(b, files, p);
    hide DataHeader, ResumeStartText, DoneText, TraceOf, PumpOk, SentOk, UnsentOk, FreshFrame;
    SetPumpElsewhere(b, p, u, b.flight);
    TokensElsewhere(b, b', files, p);
  }

  lemma NewPumpFits(b: Board, files: Files, p: nat, u: Pump)
    requires FlightOk(b) && OwnersOk(b) && p !in b.pumps
    requires u.transfer in files && u.start == u.offset <= |files[u.transfer]|
    requires (u.phase == Starting && u.calls == 0) || (u.phase == Finished(false) && u.calls == 1)
    ensures PumpOk(SetPump(b, p, u), files, p)
    ensures u.phase == Starting ==>
              UnsentOk(SetPump(b, p, u), files, Outgoing(ResumeStartText(u.transfer, u.start), Some(PumpNext(p))))
  {
    hide DataHeader, ResumeStartText, DoneText, TraceOf;
    ForeignLog(b.log, p, DeliveryOf(u, files));
  }

  lemma UnknownPump(b: Board, files: Files, p: nat)
    requires BoardOk(b, files) && p !in b.pumps
    ensures forall k :: k in b.sent ==> TokenPump(k) != Some(p)
    ensures forall m :: m in b.deferred ==> OwnerOf(Message(m)) != Some(p) && m.completion != Some(PumpNext(p))
    ensures forall f :: f in b.queued ==> f.pump != p
  {
    hide DataHeader, ResumeStartText, DoneText, TraceOf;
    assert forall k :: k in b.sent ==> SentOk(b, files, k);
    assert forall m :: m in b.deferred ==> UnsentOk(b, files, m);
    assert forall f :: f in b.queued ==> FreshFrame(b, files, f);
  }

  /** A stream without items of a pump leaves that pump unstarted. */
  lemma {:induction false} ForeignLog(log: seq<Item>, p: nat, d: Delivery)
    requires forall i :: 0 <= i < |log| ==> OwnerOf(log[i]) != Some(p)
    ensures TraceOf(log, p, d) == Unstarted
  {
    hide DataHeader, ResumeStartText, DoneText;
    if log == [] {
    } else {
      ForeignLog(log[..|log| - 1], p, d);
    }
  }
}
