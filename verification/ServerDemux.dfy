/** The server's side of an upload connection (`ChatServer::on_message`, `handle_file_chunk`): one
    byte stream is split into command lines and the raw payloads of FILE_CHUNK frames.

    What the other commands do to the session, and whether the storage takes a frame, is decided by
    the database and the disk; `Env` says so, command by command and frame by frame.  A refused
    FILE_CHUNK or a failed append leaves raw payload in the line stream: `ended` marks that point
    and the run stops there. */
module ServerDemux {
  import opened Text

  const MAX_FRAME_BYTES: nat := 0x100_0000        // kMaxFileFrameBytes, 16 MiB
  const MAX_INPUT_BUFFER: nat := 8192             // kMaxInputBuffer
  const COMMAND_BATCH: nat := 32                  // kRealtimeCommandBatch

  /** `session.upload` */
  datatype Upload = Upload(token: Bytes, name: Bytes, digest: Bytes, received: nat, expected: nat)

  /** `session.binary_upload`: a frame whose payload is being collected. */
  datatype PendingFrame = PendingFrame(token: Bytes, start: nat, bytes: Bytes, remaining: nat)

  /** A frame given to the storage. */
  datatype Append = Append(token: Bytes, start: nat, bytes: Bytes)

  /** What a command does to the session; nobody is logged in when `require_login` fails.  Of a
      FILE_CHUNK only that is asked. */
  datatype Effect = Keep | NotLoggedIn | Begin(upload: Upload) | Detach | Quit

  datatype Env = Env(effects: nat -> Effect, appends: nat -> bool)

  datatype Demux = Demux(
    buffer: Bytes,
    connected: bool,
    upload: Option<Upload>,
    frame: Option<PendingFrame>,
    lines: seq<Bytes>,                  // text lines taken from the buffer
    commands: seq<Command>,             // commands dispatched
    appended: seq<Append>,              // frames the storage took
    tooLong: bool,                      // closed because of an overlong line
    ended: bool)                        // a frame was refused
  {
    ghost predicate Valid() {
      && (upload.Some? ==> upload.value.received <= upload.value.expected <= MAX_FILE_SIZE)
      && (frame.Some? ==>
            && upload.Some? && upload.value.token == frame.value.token
            && frame.value.remaining > 0 && frame.value.start == upload.value.received
            && frame.value.start + |frame.value.bytes| + frame.value.remaining <= upload.value.expected)
    }
  }

  ghost predicate EnvOk(env: Env) {
    forall i :: env.effects(i).Begin? ==>
      env.effects(i).upload.received <= env.effects(i).upload.expected <= MAX_FILE_SIZE
  }

  // ---- commands -----------------------------------------------------------------------------

  /** The checks on a FILE_CHUNK whose numbers parsed. */
  predicate ChunkAccepted(d: Demux, token: Bytes, offset: nat, count: nat) {
    && d.upload.Some? && d.upload.value.token == token && d.frame.None?
    && 0 < count <= MAX_FRAME_BYTES && offset == d.upload.value.received
    && Sum64(d.upload.value.received, count) <= d.upload.value.expected
  }

  function Refuse(d: Demux): Demux { d.(upload := None, frame := None, ended := true) }

  function HandleChunk(d: Demux, words: seq<Bytes>): (r: Demux)
    ensures r == Refuse(d) || r == d.(frame := r.frame)
  {
    if |words| != 3 then Refuse(d)
    else
      var offset, count := ParseUint64(words[1]), ParseUint64(words[2]);
      if offset.None? || count.None? || !ChunkAccepted(d, words[0], offset.value, count.value) then Refuse(d)
      else d.(frame := Some(PendingFrame(words[0], offset.value, [], count.value)))
  }

  function HandleCommand(d: Demux, env: Env, command: Command): (r: Demux)
    ensures r.buffer == d.buffer && r.lines == d.lines && r.tooLong == d.tooLong && r.appended == d.appended
    ensures r.commands == d.commands + [command]
  {
    var d' := d.(commands := d.commands + [command]);
    var effect := env.effects(|d.commands|);
    if command.name == "FILE_CHUNK" && effect != NotLoggedIn then HandleChunk(d', SplitWords(command.arguments))
    else match effect
      case Keep => d'
      case NotLoggedIn => d'
      case Begin(upload) => if d.upload.Some? then d'.(upload := None) else d'.(upload := Some(upload))
      case Detach => d'.(upload := None)
      case Quit => d'.(connected := false)
  }

  function HandleLine(d: Demux, env: Env, line: Bytes): (r: Demux)
    ensures r.buffer == d.buffer && r.lines == d.lines + [line] && r.tooLong == d.tooLong && r.appended == d.appended
  {
    var d' := d.(lines := d.lines + [line]);
    var command := ParseCommand(StripReturn(line));
    if command.name == [] then d' else HandleCommand(d', env, command)
  }

  // ---- one round of the loop ----------------------------------------------------------------

  predicate InFrame(d: Demux) { d.frame.Some? && d.frame.value.remaining > 0 }

  /** The upload is gone or another one: the connection is closed. */
  predicate Mismatch(d: Demux) {
    InFrame(d) && (d.upload.None? || d.upload.value.token != d.frame.value.token)
  }

  predicate CanStep(d: Demux) {
    d.connected && !d.ended && (if InFrame(d) then Mismatch(d) || d.buffer != [] else '\n' in d.buffer)
  }

  function PayloadCount(d: Demux): nat
    requires d.frame.Some?
  {
    if d.frame.value.remaining <= |d.buffer| then d.frame.value.remaining else |d.buffer|
  }

  /** Payload bytes are collected; a complete frame goes to the storage. */
  function TakePayload(d: Demux, env: Env, bytes: Bytes): Demux
    requires d.frame.Some? && d.upload.Some? && |bytes| <= d.frame.value.remaining
  {
    var frame := d.frame.value;
    var collected, rest := frame.bytes + bytes, frame.remaining - |bytes|;
    if rest > 0 then d.(frame := Some(frame.(bytes := collected, remaining := rest)))
    else if !env.appends(|d.appended|) then Refuse(d)
    else d.(frame := None,
            upload := Some(d.upload.value.(received := frame.start + |collected|)),
            appended := d.appended + [Append(frame.token, frame.start, collected)])
  }

  function Size(d: Demux): nat { |d.buffer| + if d.connected then 1 else 0 }

  function Step(d: Demux, env: Env): (r: Demux)
    requires CanStep(d)
    ensures Size(r) < Size(d)
  {
    if Mismatch(d) then d.(frame := None, connected := false)
    else if InFrame(d) then
      var count := PayloadCount(d);
      TakePayload(d.(buffer := d.buffer[count..]), env, d.buffer[..count])
    else
      var newline := IndexOf(d.buffer, '\n');
      HandleLine(d.(buffer := d.buffer[newline + 1..]), env, d.buffer[..newline])
  }

  /** Rounds until nothing complete is left. */
  function Run(d: Demux, env: Env): Demux
    decreases Size(d)
  {
    if CanStep(d) then Run(Step(d, env), env) else d
  }

  /** The check at the end of `on_message`. */
  function Checked(d: Demux): Demux {
    if d.connected && !d.ended && d.frame.None? && |d.buffer| > MAX_INPUT_BUFFER
    then d.(connected := false, tooLong := true) else d
  }

  datatype Batched = Batched(d: Demux, yielded: bool)

  /** Where one call of `on_message` stops after `processed` commands: when nothing complete is
      left, or to let other connections run. */
  function Batch(d: Demux, env: Env, processed: nat): Batched
    decreases Size(d)
  {
    if !CanStep(d) then Batched(Checked(d), false)
    else
      var next := Step(d, env);
      if InFrame(d) then Batch(next, env, processed)
      else
        var count := processed + if |next.commands| > |d.commands| then 1 else 0;
        if !next.ended && count >= COMMAND_BATCH && next.frame.None? && '\n' in next.buffer then Batched(next, true)
        else Batch(next, env, count)
  }

  function Allowance(processed: nat): nat { if processed < COMMAND_BATCH then COMMAND_BATCH - processed else 1 }

  /** A connection that uploads nothing handles at most 32 commands before the others have their turn, and
      it waits for its next turn only when there is more to handle. */
  lemma {:induction false} BatchFair(d: Demux, env: Env, processed: nat)
    requires d.upload.None? && d.frame.None? && forall i :: !env.effects(i).Begin?
    ensures var b := Batch(d, env, processed);
            && |b.d.commands| <= |d.commands| + Allowance(processed)
            && (b.yielded ==> CanStep(b.d) || !b.d.connected)
    decreases Size(d)
  {
    hide Step, CanStep;
    if CanStep(d) {
      var next := Step(d, env);
      LineFair(d, env);
      var count := processed + if |next.commands| > |d.commands| then 1 else 0;
      if !next.ended && count >= COMMAND_BATCH && next.frame.None? && '\n' in next.buffer {
        MoreLines(next);
      } else if next.ended || !next.connected || '\n' !in next.buffer {
        NothingMore(next);
      } else {
        BatchFair(next, env, count);
      }
    }
  }

  lemma LineFair(d: Demux, env: Env)
    requires CanStep(d) && d.upload.None? && d.frame.None? && forall i :: !env.effects(i).Begin?
    ensures var d' := Step(d, env);
            d'.upload.None? && d'.frame.None? && |d.commands| <= |d'.commands| <= |d.commands| + 1
  {
    hide ParseCommand, SplitWords, ParseUint64, IndexOf;
  }

  lemma MoreLines(d: Demux)
    requires !d.ended && d.frame.None? && '\n' in d.buffer
    ensures CanStep(d) || !d.connected
  {
  }

  lemma NothingMore(d: Demux)
    requires d.ended || !d.connected || (d.frame.None? && '\n' !in d.buffer)
    ensures !CanStep(d) && Checked(d).commands == d.commands
  {
  }

  // ---- what every round keeps ---------------------------------------------------------------

  lemma StepValid(d: Demux, env: Env)
    requires EnvOk(env) && d.Valid() && CanStep(d)
    ensures Step(d, env).Valid() && !Mismatch(d)
  {
    hide SplitWords, ParseCommand, ParseUint64, IndexOf;
  }

  lemma {:induction false} RunValid(d: Demux, env: Env)
    requires EnvOk(env) && d.Valid()
    ensures Run(d, env).Valid() && !CanStep(Run(d, env))
    decreases Size(d)
  {
    hide Step;
    if CanStep(d) {
      StepValid(d, env);
      RunValid(Step(d, env), env);
    }
  }

  // ---- fragmentation ------------------------------------------------------------------------

  function More(d: Demux, more: Bytes): Demux { d.(buffer := d.buffer + more) }

  /** What a line does has nothing to do with the bytes behind it. */
  lemma LineAnyBuffer(d: Demux, env: Env, line: Bytes, a: Bytes, b: Bytes)
    ensures HandleLine(d.(buffer := b), env, line) == HandleLine(d.(buffer := a), env, line).(buffer := b)
  {
    hide ParseCommand, SplitWords, ParseUint64;
    var command := ParseCommand(StripReturn(line));
    var words := SplitWords(command.arguments);
    assert |words| == 3 && ParseUint64(words[1]).Some? && ParseUint64(words[2]).Some? ==>
      ChunkAccepted(d.(buffer := a), words[0], ParseUint64(words[1]).value, ParseUint64(words[2]).value)
      == ChunkAccepted(d.(buffer := b), words[0], ParseUint64(words[1]).value, ParseUint64(words[2]).value);
  }

  lemma LineStepMore(d: Demux, env: Env, more: Bytes)
    requires CanStep(d) && !InFrame(d)
    ensures CanStep(More(d, more)) && Step(More(d, more), env) == More(Step(d, env), more)
  {
    hide HandleLine, IndexOf;
    IndexOfAppend(d.buffer, more, '\n');
    var n := IndexOf(d.buffer, '\n');
    var longer := d.buffer + more;
    assert longer[..n] == d.buffer[..n] && longer[n + 1..] == d.buffer[n + 1..] + more;
    LineAnyBuffer(d, env, d.buffer[..n], d.buffer[n + 1..], d.buffer[n + 1..] + more);
  }

  lemma PayloadStepMore(d: Demux, env: Env, more: Bytes)
    requires CanStep(d) && d.Valid() && d.frame.Some? && d.frame.value.remaining <= |d.buffer|
    ensures CanStep(More(d, more)) && Step(More(d, more), env) == More(Step(d, env), more)
  {
    hide HandleLine;
    var n := d.frame.value.remaining;
    var longer := d.buffer + more;
    assert longer[..n] == d.buffer[..n] && longer[n..] == d.buffer[n..] + more;
  }

  /** A payload cut short by the end of the buffer continues with the bytes that come next. */
  lemma PayloadSplit(d: Demux, env: Env, more: Bytes)
    requires CanStep(d) && d.Valid() && d.frame.Some? && d.frame.value.remaining > |d.buffer| && more != []
    ensures var half := Step(d, env);
            && !CanStep(half) && CanStep(More(d, more)) && CanStep(More(half, more))
            && Step(More(half, more), env) == Step(More(d, more), env)
  {
    hide Step, TakePayload, PayloadCount;
    var a, k := d.buffer, PayloadLeft(d, more);
    var b, rest := more[..k], more[k..];
    var nothing: Bytes := [];
    PayloadTwice(d.(buffer := nothing), env, a, b, more, rest);
    var half := Step(d, env);
    FrameStep(d, env, a, nothing);
    FrameStep(More(d, more), env, a + b, rest);
    assert nothing + more == more;
    FrameStep(More(half, more), env, b, rest);
  }

  /** How much of `more` still belongs to the payload. */
  function PayloadLeft(d: Demux, more: Bytes): (k: nat)
    requires d.frame.Some? && d.frame.value.remaining > |d.buffer|
    ensures k <= |more| && |d.buffer| + k <= d.frame.value.remaining
    ensures |d.buffer| + k == d.frame.value.remaining || k == |more|
  {
    var missing := d.frame.value.remaining - |d.buffer|;
    if missing <= |more| then missing else |more|
  }

  lemma FrameStep(d: Demux, env: Env, now: Bytes, rest: Bytes)
    requires d.connected && !d.ended && InFrame(d) && !Mismatch(d) && now != [] && d.buffer == now + rest
    requires |now| == d.frame.value.remaining || (rest == [] && |now| < d.frame.value.remaining)
    ensures CanStep(d) && Step(d, env) == TakePayload(d.(buffer := rest), env, now)
  {
    hide TakePayload, HandleLine;
    assert d.buffer[..|now|] == now && d.buffer[|now|..] == rest;
  }

  lemma PayloadTwice(d: Demux, env: Env, a: Bytes, b: Bytes, more: Bytes, rest: Bytes)
    requires d.connected && !d.ended && d.Valid() && d.frame.Some? && a != [] && |a| + |b| <= d.frame.value.remaining
    requires d.buffer == [] && |a| < d.frame.value.remaining && more != []
    ensures var half := TakePayload(d, env, a);
            && InFrame(half) && !Mismatch(half) && half.connected && !half.ended && half.buffer == []
            && half.upload.Some?
            && half.frame.value.remaining == d.frame.value.remaining - |a|
            && TakePayload(half.(buffer := rest), env, b) == TakePayload(d.(buffer := rest), env, a + b)
  {
    assert d.frame.value.bytes + a + b == d.frame.value.bytes + (a + b);
  }

  /** Running first and receiving more afterwards is receiving everything and then running. */
  lemma {:induction false} RunMore(d: Demux, env: Env, more: Bytes)
    requires EnvOk(env) && d.Valid()
    ensures Run(More(Run(d, env), more), env) == Run(More(d, more), env)
    decreases Size(d)
  {
    hide Step, EnvOk, Demux.Valid;
    if CanStep(d) {
      StepValid(d, env);
      var next := Step(d, env);
      if !InFrame(d) {
        LineStepMore(d, env, more);
        RunMore(next, env, more);
      } else if d.frame.value.remaining <= |d.buffer| {
        PayloadStepMore(d, env, more);
        RunMore(next, env, more);
      } else if more == [] {
        RunValid(d, env);
        assert d.buffer + more == d.buffer && Run(d, env).buffer + more == Run(d, env).buffer;
      } else {
        PayloadSplit(d, env, more);
      }
    }
  }

  // ---- any schedule of arrivals and re-queued calls -----------------------------------------

  datatype Event = Data(chunk: Bytes)       // bytes arrive and `on_message` is called
                 | Requeued                 // a call that was put into the loop's queue runs

  /** `queued` counts the calls of `on_message` waiting in the event loop. */
  datatype Link = Link(d: Demux, queued: nat)

  function Handle(l: Link, env: Env, e: Event): Link {
    match e
    case Data(chunk) =>
      var b := Batch(More(l.d, chunk), env, 0);
      Link(b.d, l.queued + if b.yielded then 1 else 0)
    case Requeued =>
      if l.queued == 0 then l
      else
        var b := Batch(l.d, env, 0);
        Link(b.d, l.queued - 1 + if b.yielded then 1 else 0)
  }

  function HandleAll(l: Link, env: Env, events: seq<Event>): Link
    decreases |events|
  {
    if events == [] then l else HandleAll(Handle(l, env, events[0]), env, events[1..])
  }

  function DataOf(events: seq<Event>): Bytes {
    if events == [] then [] else (if events[0].Data? then events[0].chunk else []) + DataOf(events[1..])
  }

  /** Every line that is terminated within the input is at most 8192 bytes long. */
  predicate Short(d: Demux, env: Env)
    decreases Size(d)
  {
    CanStep(d) ==> (InFrame(d) || IndexOf(d.buffer, '\n') <= MAX_INPUT_BUFFER) && Short(Step(d, env), env)
  }

  /** Equal, but for bytes a closed connection will never look at. */
  predicate SameOutcome(a: Demux, b: Demux) {
    a.(buffer := b.buffer) == b && (a.connected && !a.ended ==> a.buffer == b.buffer)
  }

  predicate Settled(d: Demux) { !CanStep(d) && Checked(d) == d }

  /** Whatever comes next, the connection is on its way to `target`. */
  ghost predicate OnTrack(d: Demux, env: Env, rest: Bytes, target: Demux) {
    && d.Valid()
    && if d.tooLong then !d.connected && SameOutcome(d, target)
       else Short(More(d, rest), env) && SameOutcome(Checked(Run(More(d, rest), env)), target)
  }

  /** One round made early does not change what the whole input leads to. */
  lemma StepTrack(d: Demux, env: Env, rest: Bytes)
    requires EnvOk(env) && d.Valid() && CanStep(d) && Short(More(d, rest), env)
    ensures Short(More(Step(d, env), rest), env)
    ensures Run(More(Step(d, env), rest), env) == Run(More(d, rest), env)
  {
    hide Step, EnvOk, Demux.Valid, IndexOf;
    StepValid(d, env);
    if !InFrame(d) {
      LineStepMore(d, env, rest);
    } else if d.frame.value.remaining <= |d.buffer| {
      PayloadStepMore(d, env, rest);
    } else if rest == [] {
      assert d.buffer + rest == d.buffer && Step(d, env).buffer + rest == Step(d, env).buffer;
    } else {
      PayloadSplit(d, env, rest);
      HalfInFrame(d, env);
    }
  }

  lemma HalfInFrame(d: Demux, env: Env)
    requires CanStep(d) && d.Valid() && d.frame.Some? && d.frame.value.remaining > |d.buffer|
    ensures InFrame(Step(d, env))
  {
    hide HandleLine;
  }

  /** An overlong line that has not ended yet cannot end later in a short input. */
  lemma ClosedTrack(d: Demux, env: Env, rest: Bytes, target: Demux)
    requires d.Valid() && !d.tooLong && !CanStep(d) && Checked(d) != d && OnTrack(d, env, rest, target)
    ensures OnTrack(Checked(d), env, rest, target)
  {
    hide Step;
    var all := More(d, rest);
    IndexOfLater(d.buffer, rest, '\n');
  }

  lemma {:induction false} BatchTrack(d: Demux, env: Env, n: nat, rest: Bytes, target: Demux)
    requires EnvOk(env) && !d.tooLong && OnTrack(d, env, rest, target)
    ensures OnTrack(Batch(d, env, n).d, env, rest, target)
    ensures !Batch(d, env, n).yielded ==> Settled(Batch(d, env, n).d)
    decreases Size(d)
  {
    hide Step, EnvOk, Demux.Valid, SameOutcome, Short, Run;
    if !CanStep(d) {
      if Checked(d) != d {
        ClosedTrack(d, env, rest, target);
      }
    } else {
      var next := Step(d, env);
      StepTrack(d, env, rest);
      StepValid(d, env);
      StepNotLong(d, env);
      if InFrame(d) {
        BatchTrack(next, env, n, rest, target);
      } else {
        BatchTrack(next, env, n + if |next.commands| > |d.commands| then 1 else 0, rest, target);
      }
    }
  }

  lemma StepNotLong(d: Demux, env: Env)
    requires CanStep(d)
    ensures Step(d, env).tooLong == d.tooLong
    ensures !InFrame(d) ==> |Step(d, env).lines| == |d.lines| + 1
    ensures |d.lines| <= |Step(d, env).lines|
  {
    hide HandleLine;
  }

  /** A closed connection ignores what still arrives. */
  lemma ClosedBatch(d: Demux, env: Env)
    requires !d.connected
    ensures Batch(d, env, 0) == Batched(d, false)
  {
  }

  lemma HandleTrack(l: Link, env: Env, e: Event, rest: Bytes, target: Demux)
    requires EnvOk(env) && OnTrack(l.d, env, (if e.Data? then e.chunk else []) + rest, target)
    requires l.queued == 0 ==> Settled(l.d)
    ensures var l' := Handle(l, env, e); OnTrack(l'.d, env, rest, target) && (l'.queued == 0 ==> Settled(l'.d))
  {
    hide Step, EnvOk, Short, Run, Batch, CanStep;
    var chunk := if e.Data? then e.chunk else [];
    var d := More(l.d, chunk);
    assert e.Requeued? ==> d == l.d by { assert l.d.buffer + [] == l.d.buffer; }
    assert chunk == [] ==> chunk + rest == rest;
    if l.d.tooLong {
      ClosedBatch(d, env);
      ClosedSettled(d);
    } else if e.Data? || l.queued > 0 {
      assert More(d, rest) == More(l.d, chunk + rest) by {
        assert l.d.buffer + chunk + rest == l.d.buffer + (chunk + rest);
      }
      BatchTrack(d, env, 0, rest, target);
    }
  }

  lemma ClosedSettled(d: Demux)
    requires !d.connected
    ensures Settled(d)
  {
  }

  lemma {:induction false} ScheduleTrack(l: Link, env: Env, events: seq<Event>, target: Demux)
    requires EnvOk(env) && OnTrack(l.d, env, DataOf(events), target) && (l.queued == 0 ==> Settled(l.d))
    ensures var l' := HandleAll(l, env, events);
            OnTrack(l'.d, env, [], target) && (l'.queued == 0 ==> Settled(l'.d))
    decreases |events|
  {
    hide OnTrack, Settled, Handle;
    if events == [] {
    } else {
      HandleTrack(l, env, events[0], DataOf(events[1..]), target);
      ScheduleTrack(Handle(l, env, events[0]), env, events[1..], target);
    }
  }

  /** The server's demultiplexer depends only on the concatenated input: with no overlong line, any
      fragmentation and any timing of the re-queued calls ends where one call on the whole input,
      without yielding, would end. */
  lemma ScheduleIndependence(d: Demux, env: Env, events: seq<Event>)
    requires EnvOk(env) && d.Valid() && !d.tooLong && Settled(d) && Short(More(d, DataOf(events)), env)
    requires HandleAll(Link(d, 0), env, events).queued == 0
    ensures SameOutcome(HandleAll(Link(d, 0), env, events).d, Checked(Run(More(d, DataOf(events)), env)))
  {
    hide Step, EnvOk, Short, HandleAll, DataOf;
    var target := Checked(Run(More(d, DataOf(events)), env));
    ScheduleTrack(Link(d, 0), env, events, target);
    var last := HandleAll(Link(d, 0), env, events).d;
    assert last.buffer + [] == last.buffer;
  }

  // ---- overlong lines -----------------------------------------------------------------------

  lemma {:induction false} LinesGrow(d: Demux, env: Env)
    ensures |d.lines| <= |Run(d, env).lines|
    decreases Size(d)
  {
    hide Step;
    if CanStep(d) {
      StepNotLong(d, env);
      LinesGrow(Step(d, env), env);
    }
  }

  /** The bytes one round consumes. */
  function Consumed(d: Demux): nat
    requires CanStep(d)
  {
    if InFrame(d) then PayloadCount(d) else IndexOf(d.buffer, '\n') + 1
  }

  /** A round looks only at the bytes it consumes. */
  lemma StepPrefix(d: Demux, env: Env, k: nat)
    requires d.Valid() && CanStep(d) && (InFrame(d) ==> d.frame.value.remaining <= |d.buffer|)
    requires Consumed(d) + k <= |d.buffer|
    ensures Step(d, env).buffer == d.buffer[Consumed(d)..]
    ensures var cut := d.(buffer := d.buffer[..Consumed(d) + k]);
            CanStep(cut) && Step(cut, env) == Step(d, env).(buffer := Step(d, env).buffer[..k])
  {
    hide Step, IndexOf;
    var c := Consumed(d);
    var head := d.(buffer := d.buffer[..c]);
    HeadConsumed(d, env);
    assert InFrame(head) ==> head.frame.value.remaining == |head.buffer|;
    PrefixAt(d, env, head, d.buffer[c..], k);
    assert d.buffer[..c] + d.buffer[c..][..k] == d.buffer[..c + k];
  }

  lemma PrefixAt(d: Demux, env: Env, head: Demux, tail: Bytes, k: nat)
    requires head.Valid() && CanStep(head) && (InFrame(head) ==> head.frame.value.remaining == |head.buffer|)
    requires d == head.(buffer := d.buffer) && d.buffer == head.buffer + tail && k <= |tail|
    requires Step(head, env).buffer == []
    ensures CanStep(d) && Step(d, env).buffer == tail
    ensures var cut := d.(buffer := head.buffer + tail[..k]);
            CanStep(cut) && Step(cut, env) == Step(d, env).(buffer := tail[..k])
  {
    hide Step, CanStep, InFrame, Demux.Valid;
    HeadMore(d, env, head, tail);
    HeadMore(d.(buffer := head.buffer + tail[..k]), env, head, tail[..k]);
    assert [] + tail == tail && [] + tail[..k] == tail[..k];
  }

  lemma HeadMore(d: Demux, env: Env, head: Demux, tail: Bytes)
    requires head.Valid() && CanStep(head) && (InFrame(head) ==> head.frame.value.remaining == |head.buffer|)
    requires d == head.(buffer := d.buffer) && d.buffer == head.buffer + tail
    ensures CanStep(d) && Step(d, env) == More(Step(head, env), tail)
  {
    hide Step;
    assert More(head, tail) == d;
    if InFrame(head) {
      PayloadStepMore(head, env, tail);
    } else {
      LineStepMore(head, env, tail);
    }
  }

  lemma HeadLine(s: Bytes)
    requires '\n' in s
    ensures var n := IndexOf(s, '\n'); n < |s| && '\n' in s[..n + 1] && IndexOf(s[..n + 1], '\n') == n
  {
    var n := IndexOf(s, '\n');
    assert s[..n + 1][n] == '\n';
    IndexOfAppend(s[..n + 1], s[n + 1..], '\n');
    assert s[..n + 1] + s[n + 1..] == s;
  }

  lemma HeadConsumed(d: Demux, env: Env)
    requires d.Valid() && CanStep(d) && (InFrame(d) ==> d.frame.value.remaining <= |d.buffer|)
    requires Consumed(d) <= |d.buffer|
    ensures var head := d.(buffer := d.buffer[..Consumed(d)]); CanStep(head) && Step(head, env).buffer == []
  {
    hide HandleLine;
    if !InFrame(d) {
      HeadLine(d.buffer);
    }
  }

  /** An input with an overlong line can be cut so that the connection is closed, although the
      line goes through when it arrives in one piece. */
  lemma {:induction false} LongLineCut(d: Demux, env: Env) returns (k: nat)
    requires EnvOk(env) && d.Valid() && !Short(d, env)
    ensures k <= |d.buffer|
    ensures var closed := Checked(Run(d.(buffer := d.buffer[..k]), env));
            closed.tooLong && !closed.connected && |closed.lines| < |Run(d, env).lines|
    decreases Size(d)
  {
    hide Step, EnvOk;
    StepNotLong(d, env);
    if !InFrame(d) && IndexOf(d.buffer, '\n') > MAX_INPUT_BUFFER {
      k := MAX_INPUT_BUFFER + 1;
      assert '\n' !in d.buffer[..k];
      LinesGrow(Step(d, env), env);
    } else {
      StepValid(d, env);
      if InFrame(d) && d.frame.value.remaining > |d.buffer| {
        PartialShort(d, env);
      } else {
        StepPrefix(d, env, 0);
        var j := LongLineCut(Step(d, env), env);
        k := Consumed(d) + j;
        StepPrefix(d, env, j);
      }
    }
  }

  lemma PartialShort(d: Demux, env: Env)
    requires d.Valid() && CanStep(d) && InFrame(d) && d.frame.value.remaining > |d.buffer|
    ensures Short(d, env)
  {
    hide HandleLine;
    assert !CanStep(Step(d, env));
  }

  /** The exact condition: every cut of the input into two pieces has the outcome of the whole if
      and only if no terminated line is longer than the limit. */
  lemma IndependenceCondition(d: Demux, env: Env, data: Bytes)
    requires EnvOk(env) && d.Valid() && !d.tooLong && Settled(d) && d.buffer == []
    ensures Short(More(d, data), env) <==>
              forall k :: 0 <= k <= |data| ==>
                SameOutcome(Drained(More(Drained(More(d, data[..k]), env), data[k..]), env),
                  Drained(More(d, data), env))
  {
    hide Step, Run, Checked, EnvOk, Short, Demux.Valid, SameOutcome;
    if Short(More(d, data), env) {
      forall k | 0 <= k <= |data|
        ensures SameOutcome(Drained(More(Drained(More(d, data[..k]), env), data[k..]), env),
                Drained(More(d, data), env))
      {
        assert data[..k] + data[k..] == data;
        CutOutcome(d, env, data[..k], data[k..]);
      }
    } else {
      var k := LongLineDiffers(d, env, data);
    }
  }

  lemma LongLineDiffers(d: Demux, env: Env, data: Bytes) returns (k: nat)
    requires EnvOk(env) && d.Valid() && d.buffer == [] && !Short(More(d, data), env)
    ensures k <= |data|
    ensures !SameOutcome(Drained(More(Drained(More(d, data[..k]), env), data[k..]), env), Drained(More(d, data), env))
  {
    hide Step, EnvOk, Short;
    assert [] + data == data;
    k := LongLineCut(More(d, data), env);
    assert More(d, data).buffer[..k] == data[..k] && [] + data[..k] == data[..k];
    assert More(d, data).(buffer := data[..k]) == More(d, data[..k]);
    LongStays(More(d, data[..k]), env, data[k..]);
  }

  lemma LongStays(d: Demux, env: Env, rest: Bytes)
    ensures var first := Drained(d, env); first.tooLong && !first.connected ==>
            Drained(More(first, rest), env) == More(first, rest)
  {
    hide Step;
  }

  /** `on_message` together with the calls it re-queues. */
  function Drained(d: Demux, env: Env): Demux { Checked(Run(d, env)) }

  lemma CutOutcome(d: Demux, env: Env, a: Bytes, b: Bytes)
    requires EnvOk(env) && d.Valid() && !d.tooLong && Short(More(d, a + b), env)
    ensures SameOutcome(Drained(More(Drained(More(d, a), env), b), env), Drained(More(d, a + b), env))
  {
    hide Step, EnvOk, Short;
    assert d.buffer + a + b == d.buffer + (a + b);
    RunTrack(More(d, a), env, b, Drained(More(d, a + b), env));
    var first := Drained(More(d, a), env);
    if first.tooLong {
      assert Run(More(first, b), env) == More(first, b);
    }
  }

  lemma {:induction false} RunTrack(d: Demux, env: Env, rest: Bytes, target: Demux)
    requires EnvOk(env) && !d.tooLong && OnTrack(d, env, rest, target)
    ensures OnTrack(Drained(d, env), env, rest, target)
    decreases Size(d)
  {
    hide Step, EnvOk, Demux.Valid, SameOutcome, Short;
    if !CanStep(d) {
      if Checked(d) != d {
        ClosedTrack(d, env, rest, target);
      }
    } else {
      StepTrack(d, env, rest);
      StepValid(d, env);
      StepNotLong(d, env);
      RunTrack(Step(d, env), env, rest, target);
    }
  }

  /** One connection's receive path. */
  class ChatSession {
    var buffer: Bytes
    var connected: bool
    var upload: Option<Upload>
    var frame: Option<PendingFrame>
    var commands: nat                    // how many commands were dispatched
    var frames: nat                      // how many frames the storage took
    ghost var history: Demux             // the lines, commands and frames themselves

    function Now(): Demux
      reads this
    {
      Demux(buffer, connected, upload, frame, [], [], [], false, false)
    }

    ghost predicate Agrees()
      reads this
    {
      && buffer == history.buffer && connected == history.connected
      && upload == history.upload && frame == history.frame
      && commands == |history.commands| && frames == |history.appended|
    }

    constructor ()
      ensures Agrees() && history == Demux([], true, None, None, [], [], [], false, false)
    {
      buffer, connected, upload, frame, commands, frames := [], true, None, None, 0, 0;
      history := Demux([], true, None, None, [], [], [], false, false);
    }

    /** `on_message`: handles what is complete and tells whether it re-queued itself. */
    method OnMessage(env: Env) returns (yielded: bool)
      requires Agrees() && !history.ended
      modifies this
      ensures Agrees()
      ensures Batched(history, yielded) == Batch(old(history), env, 0)
    {
      hide HandleLine, TakePayload, IndexOf;
      var processed := 0;
      while connected
        invariant Agrees() && !history.ended
        invariant Batch(history, env, processed) == Batch(old(history), env, 0)
        decreases Size(history)
      {
        if frame.Some? && frame.value.remaining > 0 {
          if upload.None? || upload.value.token != frame.value.token {
            history := Step(history, env);
            frame, connected := None, false;
            return false;
          }
          if buffer == [] {
            return false;
          }
          var refused := TakeFrameBytes(env);
          if refused {
            return false;
          }
        } else {
          if '\n' !in buffer {
            break;
          }
          var before := commands;
          var refused := TakeLine(env);
          if refused {
            return false;
          }
          processed := processed + if commands > before then 1 else 0;
          if processed >= COMMAND_BATCH && frame.None? && '\n' in buffer {
            return true;
          }
        }
      }
      history := Checked(history);
      if connected && frame.None? && |buffer| > MAX_INPUT_BUFFER {
        connected := false;
      }
      return false;
    }

    /** The bytes of the current frame that have arrived; the storage may refuse the frame. */
    method TakeFrameBytes(env: Env) returns (refused: bool)
      requires Agrees() && CanStep(history) && InFrame(history) && !Mismatch(history)
      modifies this
      ensures Agrees() && history == Step(old(history), env) && refused == history.ended
    {
      var f := frame.value;
      var count := if f.remaining <= |buffer| then f.remaining else |buffer|;
      var collected := f.bytes + buffer[..count];
      history := Step(history, env);
      buffer := buffer[count..];
      if f.remaining > count {
        frame := Some(f.(bytes := collected, remaining := f.remaining - count));
        return false;
      }
      frame := None;
      if !env.appends(frames) {
        upload := None;
        return true;
      }
      upload := Some(upload.value.(received := f.start + |collected|));
      frames := frames + 1;
      return false;
    }

    /** One command line. */
    method TakeLine(env: Env) returns (refused: bool)
      requires Agrees() && CanStep(history) && !InFrame(history)
      modifies this
      ensures Agrees() && history == Step(old(history), env) && refused == history.ended
      ensures commands == if |history.commands| > |old(history).commands| then old(commands) + 1 else old(commands)
    {
      hide ParseCommand, SplitWords, ParseUint64;
      var newline := IndexOf(buffer, '\n');
      var command := ParseCommand(StripReturn(buffer[..newline]));
      history := Step(history, env);
      buffer := buffer[newline + 1..];
      if command.name == [] {
        return false;
      }
      var index := commands;
      commands := commands + 1;
      if command.name == "FILE_CHUNK" && env.effects(index) != NotLoggedIn {
        refused := TakeChunkHeader(SplitWords(command.arguments));
        return;
      }
      match env.effects(index) {
        case Keep =>
        case NotLoggedIn =>
        case Begin(u) => upload := if upload.Some? then None else Some(u);
        case Detach => upload := None;
        case Quit => connected := false;
      }
      return false;
    }

    /** `handle_file_chunk` */
    method TakeChunkHeader(words: seq<Bytes>) returns (refused: bool)
      modifies this`upload, this`frame
      ensures var d := HandleChunk(old(Now()), words); upload == d.upload && frame == d.frame && refused == d.ended
    {
      hide ParseUint64;
      if |words| == 3 {
        var offset, count := ParseUint64(words[1]), ParseUint64(words[2]);
        if upload.Some? && upload.value.token == words[0] && frame.None?
           && offset.Some? && count.Some? && 0 < count.value <= MAX_FRAME_BYTES
           && offset.value == upload.value.received
           && Sum64(upload.value.received, count.value) <= upload.value.expected
        {
          frame := Some(PendingFrame(words[0], offset.value, [], count.value));
          return false;
        }
      }
      upload, frame := None, None;
      return true;
    }
  }
}
