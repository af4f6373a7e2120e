/** The send path of a TLS connection (TcpConnection.cpp) and the deliveries it serves
    (FileDeliveryPump in file_transfer_service.cpp).

    What `SSL_write` and `SSL_sendfile` will answer is the sequence `answers`; nothing is known
    about it, and once it is used up the socket stays full.  A frame's completion runs inside the
    send path and starts the next frame from there, so the methods call one another recursively,
    as in the source. */
module Connection {
  import opened Text
  import opened Wire
  import opened Deliveries
  import opened Stream
  import opened Turns

  /** One answer of the TLS layer to a write. */
  datatype Answer = Accept(count: nat)     // takes a non-empty prefix of what is offered
                  | WantRead | WantWrite | Interrupted | Fail

  datatype State = Connected | Disconnecting | Disconnected

  /** Why `sendInLoop` is called; only the history depends on it. */
  datatype Why = Submit | Resend | Header(f: FileSend)

  function Clamp(count: nat, limit: nat): (n: nat)
    requires limit > 0
    ensures 0 < n <= limit
  {
    if count == 0 then 1 else if count > limit then limit else count
  }

  /** How writing `count` buffered bytes ends. */
  datatype Outcome = Emptied | Full | NeedsRead | Failed

  function WriteOutcome(answers: seq<Answer>, count: nat): Outcome
    decreases |answers|
  {
    if count == 0 then Emptied
    else if answers == [] then Full
    else match answers[0]
      case Accept(n) => WriteOutcome(answers[1..], count - Clamp(n, count))
      case WantWrite => Full
      case WantRead => NeedsRead
      case Interrupted => WriteOutcome(answers[1..], count)
      case Fail => Failed
  }

  /** The same for `count` payload bytes, of which at most `piece` go out at a time; here an interrupted
      call ends the connection. */
  function PayloadOutcome(answers: seq<Answer>, count: nat, piece: nat): Outcome
    requires piece > 0
    decreases |answers|
  {
    if count == 0 then Emptied
    else if answers == [] then Full
    else match answers[0]
      case Accept(n) => PayloadOutcome(answers[1..], count - Clamp(n, if count < piece then count else piece), piece)
      case WantWrite => Full
      case WantRead => NeedsRead
      case Interrupted => Failed
      case Fail => Failed
  }

  lemma PayloadStep(answers: seq<Answer>, count: nat, piece: nat)
    requires piece > 0
    ensures count == 0 ==> PayloadOutcome(answers, count, piece) == Emptied
    ensures count > 0 && answers == [] ==> PayloadOutcome(answers, count, piece) == Full
    ensures count > 0 && answers != [] ==>
              PayloadOutcome(answers, count, piece) ==
              match answers[0]
              case Accept(n) =>
                PayloadOutcome(answers[1..], count - Clamp(n, if count < piece then count else piece), piece)
              case WantWrite => Full
              case WantRead => NeedsRead
              case Interrupted => Failed
              case Fail => Failed
  {
  }

  lemma OutcomeStep(answers: seq<Answer>, count: nat)
    ensures count == 0 ==> WriteOutcome(answers, count) == Emptied
    ensures count > 0 && answers == [] ==> WriteOutcome(answers, count) == Full
    ensures count > 0 && answers != [] ==>
              WriteOutcome(answers, count) ==
              match answers[0]
              case Accept(n) => WriteOutcome(answers[1..], count - Clamp(n, count))
              case WantWrite => Full
              case WantRead => NeedsRead
              case Interrupted => WriteOutcome(answers[1..], count)
              case Fail => Failed
  {
  }

  predicate Delivered(pumps: map<nat, Pump>, p: nat) { p in pumps && pumps[p].phase == Closing }

  /** The send path adds and removes no delivery, moves only those that are sending, and on a
      connected peer lets none fail that was not cancelled. */
  predicate Kept(before: map<nat, Pump>, after: map<nat, Pump>, connected: bool) {
    && before.Keys == after.Keys
    && forall q :: q in before ==>
         && after[q].cancelled == before[q].cancelled
         && (before[q].phase != Sending ==> after[q] == before[q])
         && (connected && before[q].phase == Sending && after[q].phase == Finished(false) ==> after[q].cancelled)
  }

  lemma KeptThrough(first: map<nat, Pump>, middle: map<nat, Pump>, last: map<nat, Pump>, p: nat, early: bool,
                    late: bool)
    requires Kept(first, middle, early) && Kept(middle, last, late) && (late ==> early)
    ensures Kept(first, last, late)
    ensures Delivered(middle, p) ==> Delivered(last, p)
  {
  }

  /** A TLS layer that keeps taking data. */
  predicate Accepting(answers: seq<Answer>) {
    forall i :: 0 <= i < |answers| ==> answers[i].Accept?
  }

  class TcpConnection {
    const files: Files
    const zeroCopy: bool                 // kTLS is in use: SSL_sendfile instead of 16 KiB pieces

    var state: State
    var handshakeComplete: bool
    var writing: bool                    // channel_->isWriting()
    var tlsWriteBlockedOnRead: bool
    var tlsReadBlockedOnWrite: bool
    var outputBuffer: Bytes
    var pendingSendCompletions: seq<Completion>
    var activeFileSend: Option<FileSend>
    var queuedFileFrames: seq<FileSend>
    var deferredSends: seq<Outgoing>
    var functors: seq<Completion>        // completions in the event loop's queue
    var pumps: map<nat, Pump>
    var answers: seq<Answer>

    ghost var staged: Option<FileSend>   // a frame whose header is buffered, not yet active
    ghost var popped: Option<Outgoing>   // a deferred text on its way into the stream
    ghost var landed: Option<Flight>
    ghost var turn: Option<nat>          // the delivery that is making its move
    ghost var wire: Bytes
    ghost var log: seq<Item>
    ghost var submitted: seq<Outgoing>
    ghost var flushed: nat
    ghost var ran: seq<Completion>

    ghost function Abs(): Conn
      reads this`state, this`outputBuffer, this`pendingSendCompletions, this`staged, this`activeFileSend,
            this`queuedFileFrames, this`popped, this`deferredSends, this`functors, this`pumps, this`landed,
            this`wire, this`log, this`submitted, this`flushed, this`ran
    {
      Conn(state == Disconnected, outputBuffer, pendingSendCompletions,
           if staged.Some? then staged else activeFileSend,
           queuedFileFrames,
           if popped.Some? then [popped.value] + deferredSends else deferredSends,
           functors, pumps, landed, wire, log, submitted, flushed, ran)
    }

    ghost predicate Good()
      reads this`state, this`outputBuffer, this`pendingSendCompletions, this`staged, this`activeFileSend,
            this`queuedFileFrames, this`popped, this`deferredSends, this`functors, this`pumps, this`landed,
            this`wire, this`log, this`submitted, this`flushed, this`ran, this`turn
    {
      Ok(Abs(), files, turn)
    }

    /** No ghost bookkeeping is half done. */
    ghost predicate Plain()
      reads this`staged, this`popped
    {
      staged.None? && popped.None?
    }

    /** Unsent data always has an event that will resume it. */
    ghost predicate Armed()
      reads this
    {
      state != Disconnected && handshakeComplete && (outputBuffer != [] || activeFileSend.Some?)
      ==> writing || tlsWriteBlockedOnRead
    }

    /** Completions of texts that are out have been handed over. */
    ghost predicate Prompt()
      reads this
    {
      state == Connected && handshakeComplete && outputBuffer == [] ==> pendingSendCompletions == []
    }

    /** The completion has yet to run, or its text has yet to enter the stream. */
    ghost predicate Queued(k: Completion)
      reads this`state, this`functors, this`pendingSendCompletions, this`deferredSends
    {
      state == Disconnected || k in functors + pendingSendCompletions || HasText(deferredSends, k)
    }

    /** Nothing is left waiting for a frame that is not there. */
    ghost predicate Drained()
      reads this
    {
      && (activeFileSend.Some? ==> activeFileSend.value.remaining > 0)
      && (activeFileSend.None? && state != Disconnected ==> deferredSends == [])
    }

    ghost predicate NothingStranded()
      reads this
    {
      activeFileSend.None? && state != Disconnected ==> queuedFileFrames == []
    }

    /** Between two moves of the frame path. */
    ghost predicate Settled()
      reads this
    {
      Good() && Plain() && landed.None? && turn.None? && Drained() && Armed() && Prompt() && handshakeComplete
    }

    /** What every call of the frame path does, however deep it recurses: it appends to the stream,
        uses up answers, keeps the deliveries and closes at most the connection, which a socket
        that keeps accepting never makes it do. */
    twostate predicate SentOn()
      reads this
    {
      && ran == old(ran) && old(log) <= log && old(wire) <= wire && |answers| <= old(|answers|)
      && (state == old(state) || state == Disconnected)
      && Kept(old(pumps), pumps, state == Connected)
      && (Accepting(old(answers)) ==> Accepting(answers) && state == old(state))
    }

    /** While the peer is connected, only cancelled deliveries have failed. */
    ghost predicate Earned()
      reads this`state, this`pumps
    {
      state == Connected ==> forall p :: p in pumps && pumps[p].phase == Finished(false) ==> pumps[p].cancelled
    }

    /** What holds between any two events. */
    ghost predicate Valid()
      reads this
    {
      && Good() && Plain() && landed.None? && turn.None? && Drained() && Armed() && Prompt()
      && NothingStranded() && Earned()
      && (!handshakeComplete ==> activeFileSend.None? && queuedFileFrames == [])
    }

    /** A delivery that is not over never waits for nothing: a completion is about to run, or the
        socket will wake the connection. */
    lemma NobodyForgotten(p: nat)
      requires Valid() && state == Connected && handshakeComplete && p in pumps
      ensures pumps[p].phase.Finished? || functors != [] || writing || tlsWriteBlockedOnRead
      ensures pumps[p].phase.Finished? || functors != [] || outputBuffer != [] || activeFileSend.Some?
    {
      hide Ok, BoardOf;
      if functors == [] && outputBuffer == [] && activeFileSend.None? {
        IdleMeansOver(Abs(), files);
      }
    }

    /** A connection after `connectEstablished`: the TLS handshake is still to come. */
    constructor (files: Files, zeroCopy: bool, answers: seq<Answer>)
      ensures Valid() && this.files == files && this.answers == answers
      ensures log == [] && submitted == [] && wire == [] && pumps == map[] && state == Connected
    {
      this.files, this.zeroCopy, this.answers := files, zeroCopy, answers;
      state, handshakeComplete, writing := Connected, false, false;
      tlsWriteBlockedOnRead, tlsReadBlockedOnWrite := false, false;
      outputBuffer, pendingSendCompletions, activeFileSend := [], [], None;
      queuedFileFrames, deferredSends, functors, pumps := [], [], [], map[];
      staged, popped, landed, turn := None, None, None, None;
      wire, log, submitted, flushed, ran := [], [], [], 0, [];
    }

    // ---- writing ----------------------------------------------------------------------------

    method NextAnswer() returns (answer: Answer)
      modifies this`answers
      ensures |answers| <= old(|answers|)
      ensures if old(answers) == [] then answers == [] && answer == WantWrite
              else answer == old(answers)[0] && answers == old(answers)[1..]
      ensures Accepting(old(answers)) ==>
              Accepting(answers) && (answer.Accept? || (answer == WantWrite && answers == []))
    {
      if answers == [] {
        return WantWrite;
      }
      answer, answers := answers[0], answers[1..];
    }

    method HandleClose()
      requires Good()
      modifies this`state
      ensures Good() && state == Disconnected
    {
      hide Ok;
      ClosedTurn(Abs(), files, turn);
      ghost var next := Abs().(closed := true);
      state := Disconnected;
      assert Abs() == next;
    }

    /** What a write that ended this way leaves behind. */
    predicate Left(outcome: Outcome, wasWriting: bool)
      reads this`state, this`outputBuffer, this`writing, this`tlsWriteBlockedOnRead, this`tlsReadBlockedOnWrite
    {
      && (outputBuffer == [] <==> outcome == Emptied) && (state == Disconnected <==> outcome == Failed)
      && match outcome
         case Emptied => !tlsWriteBlockedOnRead && (writing <==> wasWriting && tlsReadBlockedOnWrite)
         case Full => writing
         case NeedsRead => tlsWriteBlockedOnRead && !writing
         case Failed => writing == wasWriting
    }

    method FlushTlsOutput()
      requires Good()
      modifies this`state, this`writing, this`tlsWriteBlockedOnRead, this`outputBuffer,
               this`pendingSendCompletions, this`functors, this`answers, this`wire, this`flushed
      ensures Good() && Prompt()
      ensures functors + pendingSendCompletions == old(functors + pendingSendCompletions)
      ensures old(wire) <= wire
      ensures |answers| <= old(|answers|)
      ensures state == old(state) || state == Disconnected
      ensures old(outputBuffer) != [] && outputBuffer == [] ==> |answers| < old(|answers|)
      ensures state != Disconnected && handshakeComplete ==> outputBuffer == [] || writing || tlsWriteBlockedOnRead
      ensures !handshakeComplete ==> outputBuffer == old(outputBuffer)
      ensures Accepting(old(answers)) ==> Accepting(answers) && state == old(state)
      ensures Accepting(old(answers)) && handshakeComplete && state != Disconnected ==>
              answers == [] || outputBuffer == []
      ensures handshakeComplete && old(state) != Disconnected ==>
                Left(WriteOutcome(old(answers), |old(outputBuffer)|), old(writing))
    {
      hide Ok, BoardOf, Accepting, TcpConnection.Good, TcpConnection.Abs, WriteOutcome;
      if !handshakeComplete || state == Disconnected {
        return;
      }
      while outputBuffer != []
        invariant Good() && state == old(state) && old(wire) <= wire
        invariant functors == old(functors) && pendingSendCompletions == old(pendingSendCompletions)
        invariant writing == old(writing)
        invariant WriteOutcome(answers, |outputBuffer|) == WriteOutcome(old(answers), |old(outputBuffer)|)
        invariant |answers| <= old(|answers|)
        invariant outputBuffer != old(outputBuffer) ==> |answers| < old(|answers|)
        invariant Accepting(old(answers)) ==> Accepting(answers)
        decreases |answers|
      {
        OutcomeStep(answers, |outputBuffer|);
        var answer := NextAnswer();
        match answer {
          case Accept(count) =>
            OutputSent(Clamp(count, |outputBuffer|));
          case WantWrite =>
            writing := true;
            return;
          case WantRead =>
            tlsWriteBlockedOnRead := true;
            writing := false;
            return;
          case Interrupted =>
          case Fail =>
            HandleClose();
            return;
        }
      }
      OutcomeStep(answers, 0);
      tlsWriteBlockedOnRead := false;
      if writing && !tlsReadBlockedOnWrite {
        writing := false;
      }
      FinishOutputCompletions();
    }

    /** The TLS layer took `sent` buffered bytes. */
    method OutputSent(sent: nat)
      requires Good() && sent <= |outputBuffer|
      modifies this`outputBuffer, this`wire
      ensures Good() && outputBuffer == old(outputBuffer)[sent..] && old(wire) <= wire
    {
      hide Ok, BoardOf, Accepting;
      WroteTurn(Abs(), files, turn, sent);
      ghost var next := Wrote(Abs(), sent);
      wire := wire + outputBuffer[..sent];
      outputBuffer := outputBuffer[sent..];
      assert Abs() == next;
    }

    method FinishOutputCompletions()
      requires Good() && outputBuffer == []
      modifies this`pendingSendCompletions, this`functors, this`flushed
      ensures Good() && functors == old(functors + pendingSendCompletions) && pendingSendCompletions == []
    {
      hide Ok, BoardOf, Accepting;
      FiredTurn(Abs(), files, turn);
      ghost var next := Fired(Abs());
      functors := functors + pendingSendCompletions;
      pendingSendCompletions := [];
      flushed := next.flushed;
      assert Abs() == next;
    }

    // ---- sending text -----------------------------------------------------------------------

    method SendInLoop(m: Outgoing, why: Why)
      requires Good() && staged.None?
      requires why.Submit? ==> popped.None? && Ready(BoardOf(Abs()), files, m)
                               && (activeFileSend.None? && state != Disconnected ==> deferredSends == [])
      requires why.Resend? ==> popped == Some(m) && activeFileSend.None?
      requires why.Header? ==>
        && popped.None? && state != Disconnected && activeFileSend.None? && landed.None?
        && turn == Some(why.f.pump) && m == Outgoing(why.f.header, None)
        && FreshFrame(BoardOf(Abs()), files, why.f)
        && forall q :: q in queuedFileFrames ==> q.pump != why.f.pump
      modifies this`state, this`writing, this`tlsWriteBlockedOnRead, this`outputBuffer,
               this`pendingSendCompletions, this`functors, this`answers, this`wire, this`flushed,
               this`deferredSends, this`log, this`submitted, this`staged, this`popped, this`turn
      ensures Good() && popped.None? && turn == if why.Header? then None else old(turn)
      ensures old(Prompt()) || activeFileSend.None? ==> Prompt()
      ensures why.Submit? && m.completion.Some? ==> Queued(m.completion.value)
      ensures old(log) <= log && old(wire) <= wire
      ensures |answers| <= old(|answers|)
      ensures state == old(state) || state == Disconnected
      ensures staged == if why.Header? then Some(why.f) else None
      ensures submitted == if why.Submit? && old(state) != Disconnected then old(submitted) + [m] else old(submitted)
      ensures deferredSends == if why.Submit? && old(state) != Disconnected && activeFileSend.Some?
                               then old(deferredSends) + [m] else old(deferredSends)
      ensures why.Submit? && old(Armed()) ==> Armed()
      ensures activeFileSend.None? && state != Disconnected && handshakeComplete ==>
                outputBuffer == [] || writing || tlsWriteBlockedOnRead
      ensures Accepting(old(answers)) ==> Accepting(answers) && state == old(state)
      ensures Accepting(old(answers)) && handshakeComplete && state != Disconnected && activeFileSend.None?
              ==> answers == [] || outputBuffer == []
    {
      hide Ok, FreshFrame, Ready, BoardOf, Accepting, TcpConnection.Good, TcpConnection.Abs;
      if state == Disconnected {
        if why.Resend? {
          Drop();
        }
        return;
      }
      if activeFileSend.Some? {
        Defer(m);
        assert deferredSends[|deferredSends| - 1] == m;
        return;
      }
      AppendText(m, why);
      if handshakeComplete {
        FlushTlsOutput();
      }
    }

    /** A closed connection loses the text. */
    ghost method Drop()
      requires Good() && staged.None? && popped.Some? && state == Disconnected
      modifies this`popped
      ensures Good() && popped.None?
    {
      hide Ok;
      DroppedTurn(Abs(), files, turn);
      ghost var next := Abs().(deferred := Abs().deferred[1..]);
      popped := None;
      assert Abs() == next;
    }

    /** The text waits behind the active frame. */
    method Defer(m: Outgoing)
      requires Good() && Plain() && activeFileSend.Some? && state != Disconnected && Ready(BoardOf(Abs()), files, m)
      modifies this`deferredSends, this`submitted
      ensures Good() && deferredSends == old(deferredSends) + [m] && submitted == old(submitted) + [m]
    {
      hide Ok, Ready;
      DeferredTurn(Abs(), files, turn, m);
      ghost var next := Abs().(deferred := Abs().deferred + [m], submitted := submitted + [m]);
      deferredSends := deferredSends + [m];
      submitted := submitted + [m];
      assert Abs() == next;
    }

    /** The text, with what it stands for, joins the stream. */
    method AppendText(m: Outgoing, why: Why)
      requires Good() && staged.None? && state != Disconnected && activeFileSend.None?
      requires why.Submit? ==> popped.None? && Ready(BoardOf(Abs()), files, m) && deferredSends == []
      requires why.Resend? ==> popped == Some(m)
      requires why.Header? ==>
        && popped.None? && landed.None? && turn == Some(why.f.pump) && m == Outgoing(why.f.header, None)
        && FreshFrame(BoardOf(Abs()), files, why.f)
        && forall q :: q in queuedFileFrames ==> q.pump != why.f.pump
      modifies this`outputBuffer, this`pendingSendCompletions, this`log, this`submitted, this`staged, this`popped,
               this`turn
      ensures Good() && popped.None? && turn == if why.Header? then None else old(turn)
      ensures pendingSendCompletions == old(pendingSendCompletions) + CompletionOf(Message(m))
      ensures old(log) <= log
      ensures staged == if why.Header? then Some(why.f) else None
      ensures submitted == if why.Submit? then old(submitted) + [m] else old(submitted)
    {
      hide Ok, FreshFrame, Ready, BoardOf, TcpConnection.Good, TcpConnection.Abs;
      match why {
        case Submit => BufferText(m);
        case Resend => BufferDeferred(m);
        case Header(f) => BufferHeader(m, f);
      }
    }

    /** `outputBuffer_.append` and the completion that waits for it. */
    method Buffer(m: Outgoing)
      modifies this`outputBuffer, this`pendingSendCompletions
      ensures outputBuffer == old(outputBuffer) + m.text
      ensures pendingSendCompletions == old(pendingSendCompletions) + CompletionOf(Message(m))
    {
      outputBuffer := outputBuffer + m.text;
      if m.completion.Some? {
        pendingSendCompletions := pendingSendCompletions + [m.completion.value];
      }
    }

    method BufferText(m: Outgoing)
      requires Good() && Plain() && state != Disconnected && activeFileSend.None? && deferredSends == []
      requires Ready(BoardOf(Abs()), files, m)
      modifies this`outputBuffer, this`pendingSendCompletions, this`log, this`submitted
      ensures Good() && submitted == old(submitted) + [m] && old(log) <= log
      ensures pendingSendCompletions == old(pendingSendCompletions) + CompletionOf(Message(m))
    {
      hide Ok, Ready;
      SubmittedTurn(Abs(), files, turn, m);
      ghost var next := Accepted(Abs(), m).(submitted := submitted + [m]);
      submitted := submitted + [m];
      log := log + [Message(m)];
      Buffer(m);
      assert Abs() == next;
    }

    method BufferDeferred(m: Outgoing)
      requires Good() && staged.None? && popped == Some(m) && state != Disconnected && activeFileSend.None?
      modifies this`outputBuffer, this`pendingSendCompletions, this`log, this`popped
      ensures Good() && popped.None? && old(log) <= log
      ensures pendingSendCompletions == old(pendingSendCompletions) + CompletionOf(Message(m))
    {
      hide Ok;
      UndeferredTurn(Abs(), files, turn);
      ghost var next := Undeferred(Abs());
      popped := None;
      log := log + [Message(m)];
      Buffer(m);
      assert Abs() == next;
    }

    method BufferHeader(m: Outgoing, f: FileSend)
      requires Good() && Plain() && state != Disconnected && activeFileSend.None? && landed.None?
      requires turn == Some(f.pump) && m == Outgoing(f.header, None) && FreshFrame(BoardOf(Abs()), files, f)
      requires forall q :: q in queuedFileFrames ==> q.pump != f.pump
      modifies this`outputBuffer, this`pendingSendCompletions, this`log, this`staged, this`turn
      ensures Good() && staged == Some(f) && old(log) <= log && turn.None?
      ensures pendingSendCompletions == old(pendingSendCompletions) + CompletionOf(Message(m))
    {
      hide Ok, FreshFrame;
      StartedTurn(Abs(), files, f);
      ghost var next := Started(Abs(), files, f);
      staged := Some(f);
      turn := None;
      log := log + [Frame(f.pump, f.header, Payload(f, files))];
      Buffer(m);
      assert Abs() == next;
    }

    method DrainDeferredSends()
      requires Good() && Plain() && activeFileSend.None?
      modifies this`state, this`writing, this`tlsWriteBlockedOnRead, this`outputBuffer,
               this`pendingSendCompletions, this`functors, this`answers, this`wire, this`flushed,
               this`deferredSends, this`log, this`submitted, this`staged, this`popped, this`turn
      ensures Good() && Plain() && deferredSends == [] && turn == old(turn) && (old(Prompt()) ==> Prompt())
      ensures old(log) <= log && old(wire) <= wire
      ensures |answers| <= old(|answers|)
      ensures state == old(state) || state == Disconnected
      ensures old(Armed()) ==> Armed()
      ensures Accepting(old(answers)) ==> Accepting(answers) && state == old(state)
      ensures Accepting(old(answers)) && handshakeComplete && old(outputBuffer) == [] && state != Disconnected
              ==> answers == [] || outputBuffer == []
    {
      hide Ok, BoardOf, Accepting, TcpConnection.Good, TcpConnection.Abs;
      while deferredSends != []
        invariant Good() && Plain() && old(log) <= log && old(wire) <= wire
        invariant turn == old(turn) && (old(Prompt()) ==> Prompt())
        invariant |answers| <= old(|answers|)
        invariant state == old(state) || state == Disconnected
        invariant old(Armed()) ==> Armed()
        invariant Accepting(old(answers)) ==> Accepting(answers) && state == old(state)
        invariant Accepting(old(answers)) && handshakeComplete && old(outputBuffer) == [] && state != Disconnected
                  ==> answers == [] || outputBuffer == []
        decreases |deferredSends|
      {
        var item := PopDeferred();
        SendInLoop(item, Resend);
      }
    }

    method PopDeferred() returns (item: Outgoing)
      requires Good() && popped.None? && deferredSends != []
      modifies this`deferredSends, this`popped
      ensures Good() && item == old(deferredSends)[0] && popped == Some(item)
              && deferredSends == old(deferredSends)[1..]
    {
      hide Ok;
      item := deferredSends[0];
      ghost var before := Abs();
      popped := Some(item);
      deferredSends := deferredSends[1..];
      assert Abs() == before by {
        assert before.deferred == [item] + deferredSends;
      }
    }

    // ---- sending file frames ----------------------------------------------------------------

    method SendFileFrameInLoop(f: FileSend)
      requires Good() && Plain() && landed.None? && Drained() && Armed() && Prompt() && handshakeComplete
               && turn == Some(f.pump)
      requires FreshFrame(BoardOf(Abs()), files, f) && Holding(BoardOf(Abs()), files, f.pump)
      modifies this
      ensures Settled() && SentOn()
      ensures NothingStranded()
      ensures Accepting(old(answers)) && old(state) != Disconnected && old(activeFileSend).None? ==>
              answers == [] || (outputBuffer == [] && activeFileSend.None?)
      ensures Accepting(old(answers)) && old(state) == Connected && old(activeFileSend).None? && answers != []
              ==> f.pump in old(pumps) && (old(pumps)[f.pump].cancelled || Delivered(pumps, f.pump))
      decreases |answers|, 3
    {
      hide Ok, FreshFrame, Accepting;
      if state == Disconnected {
        ForgetTurn();
        return;
      }
      if activeFileSend.Some? {
        EnqueuedTurn(Abs(), files, f);
        ghost var next := Abs().(queued := Abs().queued + [f]);
        queuedFileFrames := queuedFileFrames + [f];
        turn := None;
        assert Abs() == next;
        return;
      }
      StartFileFrame(f);
    }

    /** On a closed connection nobody's turn comes. */
    ghost method ForgetTurn()
      requires Good() && state == Disconnected
      modifies this`turn
      ensures Good() && turn.None?
    {
      hide Ok;
      ClosedAnyTurn(Abs(), files, turn, None);
      turn := None;
    }

    /** A delivery whose text is in the stream, or waits to enter it, has had its turn. */
    ghost method EndTurn(p: nat, k: Completion)
      requires Good() && Plain() && turn == Some(p) && p in pumps
      requires (pumps[p].phase == Starting && k == PumpNext(p)) || (pumps[p].phase == Closing && k == PumpDone(p))
      requires Queued(k)
      modifies this`turn
      ensures Good() && turn.None?
    {
      hide Ok;
      EndTurnOk(Abs(), files, p);
      turn := None;
    }

    method StartFileFrame(f: FileSend)
      requires Good() && Plain() && landed.None? && Armed() && Prompt() && handshakeComplete && turn == Some(f.pump)
      requires activeFileSend.None? && (state != Disconnected ==> deferredSends == [])
      requires FreshFrame(BoardOf(Abs()), files, f)
      requires forall q :: q in queuedFileFrames ==> q.pump != f.pump
      modifies this
      ensures Settled() && SentOn()
      ensures NothingStranded()
      ensures Accepting(old(answers)) && old(state) != Disconnected ==>
              answers == [] || (outputBuffer == [] && activeFileSend.None?)
      ensures Accepting(old(answers)) && old(state) == Connected && answers != []
              ==> f.pump in old(pumps) && (old(pumps)[f.pump].cancelled || Delivered(pumps, f.pump))
      decreases |answers|, 2
    {
      hide Ok, BoardOf, Accepting, TcpConnection.Good, TcpConnection.Abs, FreshFrame;
      FreshHasBytes(BoardOf(Abs()), files, f);
      if state == Disconnected {
        ForgetTurn();
        return;
      }
      SendInLoop(Outgoing(f.header, None), Header(f));
      Activate(f);
      FlushFileSend();
    }

    /** The frame whose header is buffered becomes the active one. */
    method Activate(f: FileSend)
      requires Good() && staged == Some(f) && activeFileSend.None?
      modifies this`activeFileSend, this`staged
      ensures Good() && staged.None? && activeFileSend == Some(f)
    {
      hide Ok;
      ghost var before := Abs();
      activeFileSend := Some(f);
      staged := None;
      assert Abs() == before;
    }

    method FlushFileSend()
      requires Good() && Plain() && landed.None? && turn.None? && Prompt() && handshakeComplete
      requires activeFileSend.Some? && activeFileSend.value.remaining > 0
      modifies this
      ensures Settled() && SentOn()
      ensures NothingStranded()
      ensures Accepting(old(answers)) && old(state) != Disconnected ==>
              answers == [] || (outputBuffer == [] && activeFileSend.None?)
      ensures Accepting(old(answers)) && old(state) == Connected && answers != []
              ==> old(activeFileSend.value.pump) in old(pumps)
                  && (old(pumps)[old(activeFileSend.value.pump)].cancelled
                       || Delivered(pumps, old(activeFileSend.value.pump)))
      decreases |answers|, 1
    {
      hide Ok, BoardOf, Accepting, TcpConnection.Good, TcpConnection.Abs;
      if state == Disconnected {
        return;
      }
      if outputBuffer != [] {
        FlushTlsOutput();
        if state == Disconnected || outputBuffer != [] {
          return;
        }
      }
      var finished := StreamPayload();
      if finished {
        FinishActiveFileSend();
      }
    }

    /** The payload loop of `flushFileSend`; it reports whether the last byte is out. */
    method StreamPayload() returns (finished: bool)
      requires Good() && Plain() && handshakeComplete && state != Disconnected
      requires activeFileSend.Some? && activeFileSend.value.remaining > 0 && outputBuffer == []
      modifies this`state, this`writing, this`tlsWriteBlockedOnRead, this`activeFileSend, this`answers, this`wire
      ensures Good() && activeFileSend.Some?
      ensures old(wire) <= wire
      ensures |answers| <= old(|answers|)
      ensures state == old(state) || state == Disconnected
      ensures finished <==> state != Disconnected && activeFileSend.value.remaining == 0
      ensures finished ==> |answers| < old(|answers|)
      ensures !finished ==> activeFileSend.value.remaining > 0 && Armed()
      ensures activeFileSend.value.pump == old(activeFileSend.value.pump)
      ensures Accepting(old(answers)) ==> Accepting(answers) && state == old(state) && (finished || answers == [])
      ensures var outcome := PayloadOutcome(old(answers), old(activeFileSend.value.remaining), Piece());
              && (finished <==> outcome == Emptied) && (state == Disconnected <==> outcome == Failed)
              && (outcome == Full ==> writing) && (outcome == NeedsRead ==> tlsWriteBlockedOnRead)
    {
      hide Ok, BoardOf, Accepting, TcpConnection.Good, TcpConnection.Abs, PayloadOutcome;
      while activeFileSend.value.remaining > 0
        invariant Good() && activeFileSend.Some? && outputBuffer == [] && old(wire) <= wire
        invariant state == old(state) && activeFileSend.value.pump == old(activeFileSend.value.pump)
        invariant |answers| <= old(|answers|)
        invariant activeFileSend.value.remaining == 0 ==> |answers| < old(|answers|)
        invariant Accepting(old(answers)) ==> Accepting(answers)
        invariant PayloadOutcome(answers, activeFileSend.value.remaining, Piece())
                  == PayloadOutcome(old(answers), old(activeFileSend.value.remaining), Piece())
        decreases |answers|
      {
        var f := activeFileSend.value;
        PayloadStep(answers, f.remaining, Piece());
        var request := if f.remaining < Piece() then f.remaining else Piece();
        var answer := NextAnswer();
        match answer {
          case Accept(count) =>
            PayloadSent(Clamp(count, request));
          case WantWrite =>
            writing := true;
            return false;
          case WantRead =>
            tlsWriteBlockedOnRead := true;
            return false;
          case Interrupted =>
            HandleClose();
            return false;
          case Fail =>
            HandleClose();
            return false;
        }
      }
      PayloadStep(answers, 0, Piece());
      return true;
    }

    /** How many bytes of a file go out in one call. */
    function Piece(): (n: nat)
      ensures n > 0
    {
      if zeroCopy then 0x4000_0000 else 0x4000
    }

    /** The TLS layer took `sent` bytes of the file. */
    method PayloadSent(sent: nat)
      requires Good() && Plain() && outputBuffer == []
      requires activeFileSend.Some? && sent <= activeFileSend.value.remaining
      modifies this`activeFileSend, this`wire
      ensures Good()
      ensures old(wire) <= wire
      ensures activeFileSend == Some(old(activeFileSend.value).(offset := old(activeFileSend.value.offset) + sent,
                                                               remaining := old(activeFileSend.value.remaining) - sent))
    {
      hide Ok, BoardOf, Accepting;
      var f := activeFileSend.value;
      StreamedTurn(Abs(), files, turn, sent);
      ghost var next := Streamed(Abs(), files, sent);
      wire := wire + files[f.transfer][f.offset..f.offset + sent];
      activeFileSend := Some(f.(offset := f.offset + sent, remaining := f.remaining - sent));
      assert Abs() == next;
    }

    method FinishActiveFileSend()
      requires Good() && Plain() && landed.None? && turn.None? && Prompt() && handshakeComplete && state != Disconnected
      requires activeFileSend.Some? && activeFileSend.value.remaining == 0
      modifies this
      ensures Settled() && SentOn()
      ensures NothingStranded()
      ensures Accepting(old(answers)) && old(state) != Disconnected ==>
              answers == [] || (outputBuffer == [] && activeFileSend.None?)
      ensures Accepting(old(answers)) && old(state) == Connected && answers != []
              ==> old(activeFileSend.value.pump) in old(pumps)
                  && (old(pumps)[old(activeFileSend.value.pump)].cancelled
                       || Delivered(pumps, old(activeFileSend.value.pump)))
      decreases |answers|, 7
    {
      hide Ok, Kept, Delivered, BoardOf, Accepting, TcpConnection.Good, TcpConnection.Abs;
      var f := activeFileSend.value;
      ResetActiveFileSend();
      DrainDeferredSends();
      CompleteFrame(f.pump, f.size);
    }

    /** The rest of `finishActiveFileSend`: the completion, the next frame, the write interest. */
    method CompleteFrame(p: nat, size: nat)
      requires Good() && Plain() && Armed() && Prompt() && handshakeComplete && turn.None?
      requires activeFileSend.None? && deferredSends == []
      requires landed.Some? && landed.value.pump == p && landed.value.size == size
      modifies this
      ensures Settled() && SentOn()
      ensures NothingStranded()
      ensures Accepting(old(answers)) && old(state) != Disconnected && old(outputBuffer) == [] ==>
              answers == [] || (outputBuffer == [] && activeFileSend.None?)
      ensures Accepting(old(answers)) && old(state) == Connected && answers != []
              ==> p in old(pumps) && (old(pumps)[p].cancelled || Delivered(pumps, p))
      ensures state != Disconnected && activeFileSend.None? && outputBuffer == [] ==> !writing
      decreases |answers|, 6
    {
      hide Ok, Kept, Delivered, BoardOf, Accepting, TcpConnection.Good, TcpConnection.Abs;
      RunFrameCompletion(p, size);
      ghost var middle, still := pumps, state == Connected;
      if activeFileSend.None? {
        StartNextQueuedFileFrame();
        KeptThrough(old(pumps), middle, pumps, p, still, state == Connected);
      }
      if activeFileSend.None? && writing && outputBuffer == [] {
        writing := false;
      }
    }

    method ResetActiveFileSend()
      requires Good() && Plain() && landed.None?
      requires activeFileSend.Some? && activeFileSend.value.remaining == 0
      modifies this`activeFileSend, this`landed
      ensures Good() && activeFileSend.None? && outputBuffer == [] && landed.Some?
      ensures landed.value.pump == old(activeFileSend.value.pump) && landed.value.size == old(activeFileSend.value.size)
    {
      hide Ok, BoardOf, Accepting;
      var f := activeFileSend.value;
      LandedTurn(Abs(), files, turn);
      ghost var next := Landed(Abs());
      activeFileSend := None;
      landed := Some(Flight(f.pump, First(f), f.size));
      assert Abs() == next;
    }

    method StartNextQueuedFileFrame()
      requires Good() && Plain() && landed.None? && turn.None? && Drained() && Armed() && Prompt() && handshakeComplete
      requires activeFileSend.None?
      modifies this
      ensures Settled() && SentOn()
      ensures NothingStranded()
      ensures Accepting(old(answers)) && old(state) != Disconnected && old(outputBuffer) == [] ==>
              answers == [] || (outputBuffer == [] && activeFileSend.None?)
      decreases |answers|, 3
    {
      hide Ok, BoardOf, Accepting;
      if queuedFileFrames == [] || state == Disconnected {
        return;
      }
      var f := queuedFileFrames[0];
      DequeuedTurn(Abs(), files);
      ghost var next := Abs().(queued := Abs().queued[1..]);
      queuedFileFrames := queuedFileFrames[1..];
      turn := Some(f.pump);
      assert Abs() == next;
      StartFileFrame(f);
    }

    // ---- the pumps --------------------------------------------------------------------------

    /** The callback a pump hands over with its frame. */
    method RunFrameCompletion(p: nat, size: nat)
      requires Good() && Plain() && Armed() && Prompt() && handshakeComplete && turn.None?
      requires activeFileSend.None? && deferredSends == []
      requires landed.Some? && landed.value.pump == p && landed.value.size == size
      modifies this
      ensures Settled() && SentOn()
      ensures Accepting(old(answers)) && old(state) != Disconnected && old(outputBuffer) == [] ==>
              answers == [] || (outputBuffer == [] && activeFileSend.None?)
      ensures Accepting(old(answers)) && old(state) == Connected && answers != []
              ==> p in old(pumps) && (old(pumps)[p].cancelled || Delivered(pumps, p))
      decreases |answers|, 5
    {
      hide Ok, BoardOf, Accepting, Kept, Delivered, TcpConnection.Good, TcpConnection.Abs;
      if state != Connected {
        AbandonFrame(p);
        return;
      }
      AdvanceOffset(p, size);
      ghost var middle := pumps;
      PumpSendNext(p);
      KeptThrough(old(pumps), middle, pumps, p, true, state == Connected);
    }

    /** The connection is closing: the delivery gives up. */
    method AbandonFrame(p: nat)
      requires Good() && Plain() && turn.None? && landed.Some? && landed.value.pump == p
      requires activeFileSend.None? && state != Connected
      modifies this`pumps, this`landed
      ensures Good() && landed.None? && Kept(old(pumps), pumps, state == Connected)
    {
      hide Ok;
      AbandonedTurn(Abs(), files);
      ghost var next := Abandoned(Abs());
      PumpFinish(p, false);
      landed := None;
      assert Abs() == next;
    }

    /** The frame is out: the delivery goes on behind it. */
    method AdvanceOffset(p: nat, size: nat)
      requires Good() && Plain() && turn.None? && landed.Some? && landed.value.pump == p && landed.value.size == size
      requires activeFileSend.None?
      modifies this`pumps, this`landed, this`turn
      ensures Good() && landed.None? && turn == Some(p) && Kept(old(pumps), pumps, state == Connected)
      ensures p in pumps && p in old(pumps) && pumps[p].cancelled == old(pumps)[p].cancelled
      ensures Holding(BoardOf(Abs()), files, p)
    {
      hide Ok;
      AdvancedTurn(Abs(), files);
      ghost var next := Advanced(Abs());
      pumps := pumps[p := pumps[p].(offset := pumps[p].offset + size)];
      landed := None;
      turn := Some(p);
      assert Abs() == next;
    }

    /** `FileDeliveryPump::finish`: the callback is called once and then gone. */
    method PumpFinish(p: nat, ok: bool)
      requires p in pumps
      modifies this`pumps
      ensures if old(pumps)[p].phase.Finished? then pumps == old(pumps)
              else pumps == old(pumps)[p := old(pumps)[p].(phase := Finished(ok), calls := old(pumps)[p].calls + 1)]
    {
      if pumps[p].phase.Finished? {
        return;
      }
      pumps := pumps[p := pumps[p].(phase := Finished(ok), calls := pumps[p].calls + 1)];
    }

    lemma PumpsOnBoard()
      ensures BoardOf(Abs()).pumps == pumps
    {
    }

    /** `FileDeliveryPump::send_next` */
    method PumpSendNext(p: nat)
      requires Good() && Plain() && landed.None? && turn == Some(p) && Drained() && Armed() && Prompt()
               && handshakeComplete
      requires Holding(BoardOf(Abs()), files, p)
      modifies this
      ensures Settled() && SentOn()
      ensures old(NothingStranded()) ==> NothingStranded()
      ensures p in old(pumps) && (old(pumps)[p].cancelled || old(state) != Connected) ==>
              log == old(log) && wire == old(wire) && p in pumps && pumps[p].phase == Finished(false)
      ensures Accepting(old(answers)) && old(state) != Disconnected && old(outputBuffer) == []
              && old(activeFileSend).None? ==>
              answers == [] || (outputBuffer == [] && activeFileSend.None?)
      ensures Accepting(old(answers)) && old(state) == Connected && old(activeFileSend).None? && answers != []
              ==> p in old(pumps) && (old(pumps)[p].cancelled || Delivered(pumps, p))
      decreases |answers|, 4
    {
      hide Ok, FreshFrame, Ready, Accepting, TcpConnection.Good, Holding, BoardOf, TcpConnection.Abs, Kept, Delivered,
           DoneText, DataHeader;
      HoldingKnown(BoardOf(Abs()), files, p);
      PumpsOnBoard();
      var u := pumps[p];
      if u.cancelled || state != Connected {
        GiveUp(p);
        return;
      }
      if u.offset >= |files[u.transfer]| {
        SendDone(p);
        return;
      }
      NextFrameFresh(BoardOf(Abs()), files, p);
      SendFileFrameInLoop(NextFrame(u, p, |files[u.transfer]|));
    }

    method GiveUp(p: nat)
      requires Good() && Plain() && turn == Some(p) && Holding(BoardOf(Abs()), files, p)
      requires pumps[p].cancelled || state != Connected
      modifies this`pumps, this`turn
      ensures Good() && turn.None? && Kept(old(pumps), pumps, state == Connected)
      ensures p in pumps && pumps[p].phase == Finished(false)
    {
      hide Ok;
      var u := pumps[p];
      RepumpedTurn(Abs(), files, p, u.(phase := Finished(false), calls := u.calls + 1));
      ghost var next := Abs().(pumps := Abs().pumps[p := u.(phase := Finished(false), calls := u.calls + 1)]);
      PumpFinish(p, false);
      turn := None;
      assert Abs() == next;
    }

    /** Everything is sent: FILE_DONE comes next. */
    method SendDone(p: nat)
      requires Good() && Plain() && landed.None? && turn == Some(p) && Drained() && Armed() && Prompt()
               && handshakeComplete
      requires Holding(BoardOf(Abs()), files, p) && state == Connected && pumps[p].offset >= |files[pumps[p].transfer]|
      modifies this`state, this`writing, this`tlsWriteBlockedOnRead, this`outputBuffer,
               this`pendingSendCompletions, this`functors, this`answers, this`wire, this`flushed,
               this`deferredSends, this`log, this`submitted, this`staged, this`popped, this`turn, this`pumps
      ensures Good() && Plain() && turn.None? && Drained() && Armed() && Prompt() && |answers| <= old(|answers|)
      ensures Kept(old(pumps), pumps, state == Connected) && Delivered(pumps, p) && old(log) <= log && old(wire) <= wire
      ensures state == Connected || state == Disconnected
      ensures Accepting(old(answers)) ==> Accepting(answers) && state == old(state)
      ensures Accepting(old(answers)) && activeFileSend.None? ==> answers == [] || outputBuffer == []
    {
      hide Ok, Ready, Accepting, TcpConnection.Good, Holding, BoardOf, TcpConnection.Abs, TcpConnection.Queued,
           DoneText;
      HoldingKnown(BoardOf(Abs()), files, p);
      PumpsOnBoard();
      var done := Outgoing(DoneText(pumps[p].transfer), Some(PumpDone(p)));
      BeginClosing(p);
      SendInLoop(done, Submit);
      EndTurn(p, PumpDone(p));
    }

    method BeginClosing(p: nat)
      requires Good() && Plain() && turn == Some(p) && Holding(BoardOf(Abs()), files, p)
               && pumps[p].offset >= |files[pumps[p].transfer]|
      modifies this`pumps
      ensures Good() && Kept(old(pumps), pumps, state == Connected) && Delivered(pumps, p) && p in pumps
              && pumps[p].phase == Closing
      ensures Ready(BoardOf(Abs()), files, Outgoing(DoneText(old(pumps)[p].transfer), Some(PumpDone(p))))
    {
      hide Ok, Ready;
      var u := pumps[p];
      RepumpedTurn(Abs(), files, p, u.(phase := Closing));
      ghost var next := Abs().(pumps := Abs().pumps[p := u.(phase := Closing)]);
      pumps := pumps[p := u.(phase := Closing)];
      assert Abs() == next;
    }

    // ---- events -----------------------------------------------------------------------------

    /** `TcpConnection::send` for a chat or control text. */
    method Send(m: Outgoing)
      requires Valid() && (m.completion.None? || m.completion.value.Notify?)
      modifies this
      ensures Valid()
      ensures submitted == if old(state) == Connected then old(submitted) + [m] else old(submitted)
      ensures old(log) <= log && old(wire) <= wire && pumps == old(pumps)
      ensures state == old(state) || state == Disconnected
      ensures Accepting(old(answers)) ==> state == old(state)
      ensures Accepting(old(answers)) && state == Connected && handshakeComplete && activeFileSend.None? ==>
              answers == [] || outputBuffer == []
    {
      hide Ok, Ready, BoardOf, Accepting, TcpConnection.Good, TcpConnection.Abs;
      if state != Connected {
        return;
      }
      PlainReady(BoardOf(Abs()), files, m);
      SendInLoop(m, Submit);
    }

    /** The same for a text another thread handed to the loop while the connection was up; by the
        time it runs the connection may be closing. */
    method SendQueued(m: Outgoing)
      requires Valid() && (m.completion.None? || m.completion.value.Notify?)
      modifies this
      ensures Valid()
      ensures submitted == if old(state) != Disconnected then old(submitted) + [m] else old(submitted)
      ensures old(log) <= log && old(wire) <= wire
    {
      hide Ok, Ready, BoardOf, Accepting, TcpConnection.Good, TcpConnection.Abs;
      PlainReady(BoardOf(Abs()), files, m);
      SendInLoop(m, Submit);
    }

    /** `FileDeliveryPump::start` in the loop's thread: deliver file `transfer` from `offset` on. */
    method StartDelivery(p: nat, transfer: nat, offset: nat)
      requires Valid() && handshakeComplete && p !in pumps
      requires transfer in files && offset <= |files[transfer]|
      modifies this
      ensures Valid() && p in pumps && pumps[p].transfer == transfer && pumps[p].start == offset
      ensures old(state) != Connected ==> pumps[p].phase == Finished(false) && submitted == old(submitted)
      ensures old(state) == Connected ==>
                submitted == old(submitted) + [Outgoing(ResumeStartText(transfer, offset), Some(PumpNext(p)))]
      ensures old(log) <= log && old(wire) <= wire
    {
      hide Ok, BoardOf, TcpConnection.Good, TcpConnection.Abs, ResumeStartText;
      if state != Connected {
        AddPump(p, transfer, offset, false, false);
        return;
      }
      LaunchPump(p, transfer, offset, false);
    }

    /** The same for a delivery that a worker started while the connection was up: its
        FILE_RESUME_START reaches the loop later, when the connection may be closing and the
        delivery cancelled.  On a closed connection nothing is left of it. */
    method StartQueued(p: nat, transfer: nat, offset: nat, cancelled: bool)
      requires Valid() && handshakeComplete && p !in pumps
      requires transfer in files && offset <= |files[transfer]|
      modifies this
      ensures Valid() && old(log) <= log && old(wire) <= wire
      ensures old(state) == Disconnected ==> pumps == old(pumps) && submitted == old(submitted)
      ensures old(state) != Disconnected ==>
                && p in pumps && pumps[p] == Pump(transfer, offset, offset, Starting, cancelled, 0)
                && submitted == old(submitted) + [Outgoing(ResumeStartText(transfer, offset), Some(PumpNext(p)))]
    {
      hide Ok, BoardOf, TcpConnection.Good, TcpConnection.Abs, ResumeStartText;
      if state == Disconnected {
        return;
      }
      LaunchPump(p, transfer, offset, cancelled);
    }

    /** FILE_RESUME_START enters the stream, or waits behind a frame, for a new delivery. */
    method LaunchPump(p: nat, transfer: nat, offset: nat, cancelled: bool)
      requires Good() && Plain() && turn.None? && Drained() && Armed() && Prompt() && Earned() && state != Disconnected
      requires p !in pumps && transfer in files && offset <= |files[transfer]|
      modifies this`state, this`writing, this`tlsWriteBlockedOnRead, this`outputBuffer,
               this`pendingSendCompletions, this`functors, this`answers, this`wire, this`flushed,
               this`deferredSends, this`log, this`submitted, this`staged, this`popped, this`turn, this`pumps
      ensures Good() && Plain() && turn.None? && Drained() && Armed() && Prompt() && Earned()
      ensures pumps == old(pumps)[p := Pump(transfer, offset, offset, Starting, cancelled, 0)]
      ensures submitted == old(submitted) + [Outgoing(ResumeStartText(transfer, offset), Some(PumpNext(p)))]
      ensures old(log) <= log && old(wire) <= wire && (state == old(state) || state == Disconnected)
    {
      hide Ok, Ready, BoardOf, Accepting, TcpConnection.Good, TcpConnection.Abs, TcpConnection.Queued, ResumeStartText;
      AddPump(p, transfer, offset, true, cancelled);
      SendInLoop(Outgoing(ResumeStartText(transfer, offset), Some(PumpNext(p))), Submit);
      EndTurn(p, PumpNext(p));
    }

    method AddPump(p: nat, transfer: nat, offset: nat, started: bool, cancelled: bool)
      requires Good() && Plain() && turn.None? && p !in pumps && transfer in files && offset <= |files[transfer]|
      requires !started ==> state != Connected
      modifies this`pumps, this`turn
      ensures Good() && turn == if started then Some(p) else None
      ensures pumps == old(pumps)[p := if started then Pump(transfer, offset, offset, Starting, cancelled, 0)
                                       else Pump(transfer, offset, offset, Finished(false), cancelled, 1)]
      ensures old(Earned()) ==> Earned()
      ensures started ==>
                Ready(BoardOf(Abs()), files, Outgoing(ResumeStartText(transfer, offset), Some(PumpNext(p))))
    {
      hide Ok, Ready;
      var u := Pump(transfer, offset, offset, if started then Starting else Finished(false), cancelled,
                    if started then 0 else 1);
      NewPumpTurn(Abs(), files, p, u);
      ghost var next := Abs().(pumps := Abs().pumps[p := u]);
      pumps := pumps[p := u];
      turn := if started then Some(p) else None;
      assert Abs() == next;
    }

    /** The delivery's permission is revoked; the pump notices before its next frame. */
    method CancelDelivery(p: nat)
      requires Valid() && p in pumps
      modifies this`pumps
      ensures Valid() && pumps == old(pumps)[p := old(pumps)[p].(cancelled := true)]
    {
      hide Ok, BoardOf, Accepting;
      CancelledTurn(Abs(), files, turn, p);
      ghost var next := Abs().(pumps := Abs().pumps[p := Abs().pumps[p].(cancelled := true)]);
      pumps := pumps[p := pumps[p].(cancelled := true)];
      assert Abs() == next;
    }

    /** The event loop runs the oldest completion in its queue. */
    method RunFunctor()
      requires Valid() && handshakeComplete && functors != []
      modifies this
      ensures Valid() && ran == old(ran) + [old(functors)[0]]
      ensures old(log) <= log && old(wire) <= wire
      ensures var k := old(functors)[0];
              k.PumpNext? && k.pump in old(pumps) && old(pumps)[k.pump].cancelled ==>
                log == old(log) && k.pump in pumps && pumps[k.pump].phase == Finished(false)
      ensures old(functors[0].PumpNext? && Accepting(answers) && state == Connected && activeFileSend.None?)
              && answers != []
              ==> var p := old(functors)[0].pump; p in old(pumps) && (old(pumps)[p].cancelled || Delivered(pumps, p))
    {
      hide Ok, Holding, Accepting, BoardOf, TcpConnection.Good, TcpConnection.Abs;
      var k := TakeFunctor();
      if k.PumpNext? {
        PumpSendNext(k.pump);
      }
    }

    /** The completion leaves the queue and changes its delivery's phase. */
    method TakeFunctor() returns (k: Completion)
      requires Good() && Plain() && turn.None? && functors != []
      modifies this`functors, this`ran, this`pumps, this`turn
      ensures Good() && k == old(functors)[0] && ran == old(ran) + [k]
      ensures turn == if k.PumpNext? then Some(k.pump) else None
      ensures k.Notify? || k.pump in old(pumps)
      ensures pumps == PumpsAfter(old(pumps), k)
      ensures k.PumpNext? ==> Holding(BoardOf(Abs()), files, k.pump)
    {
      hide Ok, Holding, BoardOf, RanFirst, PumpsAfter;
      k := functors[0];
      RanFirstTurn(Abs(), files);
      RanFirstPumps(Abs());
      ghost var next := RanFirst(Abs());
      turn := if k.PumpNext? then Some(k.pump) else None;
      functors := functors[1..];
      ran := ran + [k];
      CallBack(k);
      assert Abs() == next;
    }

    method CallBack(k: Completion)
      requires k.Notify? || k.pump in pumps
      requires k.PumpDone? ==> pumps[k.pump].phase == Closing
      modifies this`pumps
      ensures pumps == PumpsAfter(old(pumps), k)
    {
      match k {
        case Notify(_) =>
        case PumpNext(p) =>
          pumps := pumps[p := pumps[p].(phase := Sending)];
        case PumpDone(p) =>
          PumpFinish(p, true);
      }
    }

    /** The TLS handshake is over; `welcome` is what the application sends when it is told. */
    method HandshakeDone(welcome: Outgoing)
      requires Valid() && !handshakeComplete && welcome.completion.None?
      modifies this
      ensures Valid() && handshakeComplete
      ensures submitted == if old(state) == Connected then old(submitted) + [welcome] else old(submitted)
      ensures old(log) <= log && old(wire) <= wire && pumps == old(pumps)
      ensures Accepting(old(answers)) ==> state == old(state)
    {
      hide Ok, Ready, BoardOf, Accepting, TcpConnection.Good, TcpConnection.Abs;
      FinishHandshake();
      if state == Connected {
        PlainReady(BoardOf(Abs()), files, welcome);
        SendInLoop(welcome, Submit);
      }
      if outputBuffer != [] {
        FlushTlsOutput();
      }
    }

    method FinishHandshake()
      requires Good() && Plain()
      modifies this`handshakeComplete, this`tlsWriteBlockedOnRead, this`tlsReadBlockedOnWrite, this`writing
      ensures Good() && Plain() && handshakeComplete
    {
      hide Ok, BoardOf, TcpConnection.Abs;
      handshakeComplete, tlsWriteBlockedOnRead, tlsReadBlockedOnWrite := true, false, false;
      if writing && outputBuffer == [] {
        writing := false;
      }
    }

    /** `handleWrite`: the socket can take more; `readBlocks` is whether a read wants to write. */
    method HandleWrite(readBlocks: bool)
      requires Valid() && handshakeComplete
      modifies this
      ensures Valid()
      ensures old(log) <= log && old(wire) <= wire
      ensures Accepting(old(answers)) && old(state) == Connected ==>
              answers == [] || (outputBuffer == [] && activeFileSend.None?)
    {
      hide Ok, BoardOf, Accepting, TcpConnection.Good, TcpConnection.Abs;
      if tlsReadBlockedOnWrite {
        tlsReadBlockedOnWrite := readBlocks;
        if readBlocks {
          writing := true;
        }
        if state != Connected {
          return;
        }
      }
      if activeFileSend.Some? {
        FlushFileSend();
      } else {
        FlushTlsOutput();
      }
    }

    /** `handleRead`, after the received data was handled. */
    method HandleRead(readBlocks: bool)
      requires Valid() && handshakeComplete
      modifies this
      ensures Valid()
      ensures old(log) <= log && old(wire) <= wire
      ensures Accepting(old(answers)) && old(state == Connected && tlsWriteBlockedOnRead) ==>
              answers == [] || (outputBuffer == [] && activeFileSend.None?)
      ensures readBlocks && !old(tlsWriteBlockedOnRead) ==> writing && tlsReadBlockedOnWrite
    {
      hide Ok, BoardOf, Accepting, TcpConnection.Good, TcpConnection.Abs;
      if readBlocks {
        tlsReadBlockedOnWrite := true;
        writing := true;
      }
      if tlsWriteBlockedOnRead && state == Connected {
        tlsWriteBlockedOnRead := false;
        if activeFileSend.Some? {
          FlushFileSend();
        } else {
          FlushTlsOutput();
        }
      }
    }

    /** `forceClose` and a failed or finished peer. */
    method Close()
      requires Valid()
      modifies this`state
      ensures Valid() && state == Disconnected
    {
      hide Ok, BoardOf, Accepting;
      HandleClose();
    }

    /** `shutdown` and the first half of `forceClose`. */
    method BeginShutdown()
      requires Valid()
      modifies this`state
      ensures Valid() && state == if old(state) == Connected then Disconnecting else old(state)
    {
      hide Ok, BoardOf, Accepting;
      if state == Connected {
        ghost var before := Abs();
        state := Disconnecting;
        assert Abs() == before;
      }
    }
  }
}
