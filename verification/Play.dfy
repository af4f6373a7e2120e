/** A client that reads a stream byte by byte while its user acts: the user logs in, asks for a chat,
    leaves it, at any point between two bytes.  However the bytes arrive in pieces, this is what
    happens. */
module Play {
  import opened Text
  import opened ClientDemux
  import opened Sessions

  /** What the user does, one after the other. */
  function DoAll(st: ClientState, acts: seq<Act>): ClientState {
    if acts == [] then st else Do(DoAll(st, acts[..|acts| - 1]), acts[|acts| - 1])
  }

  /** What the user does not touch. */
  function Core(st: ClientState): ClientState {
    st.(pendingLogin := "", pendingEntry := NoChat, chat := NoChat, offers := map[])
  }

  lemma DoCore(st: ClientState, act: Act)
    ensures Core(Do(st, act)) == Core(st)
  {
  }

  lemma {:induction false} DoAllCore(st: ClientState, acts: seq<Act>)
    ensures Core(DoAll(st, acts)) == Core(st)
  {
    hide Core, Do;
    if acts == [] {
    } else {
      DoAllCore(st, acts[..|acts| - 1]);
      DoCore(DoAll(st, acts[..|acts| - 1]), acts[|acts| - 1]);
    }
  }

  lemma CoreValid(st: ClientState, st': ClientState)
    requires Core(st) == Core(st') && st.Valid()
    ensures st'.Valid()
  {
    CoreFields(st, st');
    SameDownloadsValid(st, st');
  }

  lemma CoreFields(st: ClientState, st': ClientState)
    requires Core(st) == Core(st')
    ensures st'.downloads == st.downloads && st'.parts == st.parts && st'.finals == st.finals && st'.binary == st.binary
    ensures st'.replies == st.replies && st'.refused == st.refused
  {
    assert Core(st).downloads == Core(st').downloads && Core(st).parts == Core(st').parts;
    assert Core(st).finals == Core(st').finals && Core(st).binary == Core(st').binary;
    assert Core(st).replies == Core(st').replies && Core(st).refused == Core(st').refused;
  }

  /** The client when `k` bytes have been read; the user does `acts[k]` right then. */
  function PlayTo(st: ClientState, sha: Digest, data: Bytes, acts: seq<seq<Act>>, k: nat): Receiver
    requires k <= |data| < |acts|
  {
    if k == 0 then Receiver([], DoAll(st, acts[0]))
    else
      var r := Feed(PlayTo(st, sha, data, acts, k - 1), sha, [data[k - 1]]);
      Receiver(r.buffer, DoAll(r.state, acts[k]))
  }

  lemma {:induction false} PlayValid(st: ClientState, sha: Digest, data: Bytes, acts: seq<seq<Act>>, k: nat)
    requires k <= |data| < |acts| && st.Valid()
    ensures var r := PlayTo(st, sha, data, acts, k); r.state.Valid() && !CanStep(r)
  {
    hide ClientState.Valid, Run;
    if k == 0 {
      DoAllCore(st, acts[0]);
      CoreValid(st, DoAll(st, acts[0]));
    } else {
      PlayValid(st, sha, data, acts, k - 1);
      var before := PlayTo(st, sha, data, acts, k - 1);
      var r := Feed(before, sha, [data[k - 1]]);
      RunValid(before.(buffer := before.buffer + [data[k - 1]]), sha);
      DoAllCore(r.state, acts[k]);
      CoreValid(r.state, DoAll(r.state, acts[k]));
      CoreFields(r.state, DoAll(r.state, acts[k]));
    }
  }

  // ---- reading a whole line or payload at once ----------------------------------------------

  /** Reading one line. */
  lemma FeedLine(st: ClientState, sha: Digest, line: Bytes)
    requires '\n' !in line && st.binary.remaining == 0
    ensures Feed(Receiver([], st), sha, line + "\n") == Receiver([], ProcessLine(st, sha, StripReturn(line)))
  {
    hide ProcessLine, StripReturn;
    var whole := line + "\n";
    IndexOfMiddle(line, '\n', []);
    assert line + ['\n'] + [] == whole && [] + whole == whole;
    assert whole[..|line|] == line && whole[|line| + 1..] == [];
    assert whole[|line|] == '\n';
    hide IndexOf;
    var next := Step(Receiver(whole, st), sha);
    assert next == Receiver([], ProcessLine(st, sha, StripReturn(line)));
    assert Run(next, sha) == next;
  }

  /** A carriage return before the newline makes no difference. */
  lemma ReturnIgnored(st: ClientState, sha: Digest, line: Bytes)
    requires '\n' !in line && StripReturn(line) == line && st.binary.remaining == 0
    ensures Feed(Receiver([], st), sha, line + "\r\n") == Feed(Receiver([], st), sha, line + "\n")
  {
    assert StripReturn(line + "\r") == line;
    assert line + "\r" + "\n" == line + "\r\n";
    hide ProcessLine, Feed;
    FeedLine(st, sha, line);
    FeedLine(st, sha, line + "\r");
  }

  /** Reading one payload. */
  lemma FeedPayload(st: ClientState, sha: Digest, payload: Bytes)
    requires st.binary.remaining == |payload| > 0 && !PayloadRejected(st, |payload|)
    ensures Feed(Receiver([], st), sha, payload) == Receiver([], TakePayload(st, payload))
  {
    hide ProcessLine, PayloadRejected, TakePayload;
    assert [] + payload == payload && payload[..|payload|] == payload && payload[|payload|..] == [];
    var next := Step(Receiver(payload, st), sha);
    assert next == Receiver([], TakePayload(st, payload));
    assert Run(next, sha) == next;
  }

  // ---- lines --------------------------------------------------------------------------------

  predicate Between(r: Receiver) { r.buffer == [] && r.state.binary.remaining == 0 }

  /** Part of a line waits in the buffer. */
  lemma {:induction false} PlayPartial(st: ClientState, sha: Digest, data: Bytes, acts: seq<seq<Act>>, a: nat, k: nat)
    requires a + k <= |data| < |acts| && '\n' !in data[a..a + k] && Between(PlayTo(st, sha, data, acts, a))
    ensures var r := PlayTo(st, sha, data, acts, a + k);
            r.buffer == data[a..a + k] && Core(r.state) == Core(PlayTo(st, sha, data, acts, a).state)
    decreases k
  {
    hide Core, PlayTo, Feed;
    if k == 0 {
    } else {
      var start, line, c := PlayTo(st, sha, data, acts, a), data[a..a + k], data[a + k - 1];
      assert line == data[a..a + k - 1] + [c];
      PlayPartial(st, sha, data, acts, a, k - 1);
      var before := PlayTo(st, sha, data, acts, a + k - 1);
      CoreFields(start.state, before.state);
      MoreOfLine(before, sha, c);
      PlayStep(st, sha, data, acts, a + k - 1);
      DoAllCore(before.state, acts[a + k]);
    }
  }

  lemma MoreOfLine(r: Receiver, sha: Digest, c: char)
    requires r.state.binary.remaining == 0 && '\n' !in r.buffer + [c]
    ensures Feed(r, sha, [c]) == r.(buffer := r.buffer + [c])
  {
  }

  /** A line is handled when its newline is read, in the state the client has then. */
  lemma PlayLine(st: ClientState, sha: Digest, data: Bytes, acts: seq<seq<Act>>, a: nat, line: Bytes)
    requires a + |line| < |data| < |acts| && data[a..a + |line|] == line && '\n' !in line && data[a + |line|] == '\n'
    requires Between(PlayTo(st, sha, data, acts, a))
    ensures var now := PlayTo(st, sha, data, acts, a + |line|).state;
            && Core(now) == Core(PlayTo(st, sha, data, acts, a).state)
            && PlayTo(st, sha, data, acts, a + |line| + 1)
               == Receiver([], DoAll(ProcessLine(now, sha, StripReturn(line)), acts[a + |line| + 1]))
  {
    PlayPartial(st, sha, data, acts, a, |line|);
    var before := PlayTo(st, sha, data, acts, a + |line|);
    CoreFields(PlayTo(st, sha, data, acts, a).state, before.state);
    hide Core, ProcessLine, StripReturn, PlayTo;
    assert before == Receiver(line, before.state);
    LastByte(before.state, sha, line);
    assert PlayTo(st, sha, data, acts, a + |line| + 1)
           == Receiver([], DoAll(ProcessLine(before.state, sha, StripReturn(line)), acts[a + |line| + 1])) by {
      PlayStep(st, sha, data, acts, a + |line|);
    }
  }

  lemma PlayStep(st: ClientState, sha: Digest, data: Bytes, acts: seq<seq<Act>>, k: nat)
    requires k < |data| < |acts|
    ensures var r := Feed(PlayTo(st, sha, data, acts, k), sha, [data[k]]);
            PlayTo(st, sha, data, acts, k + 1) == Receiver(r.buffer, DoAll(r.state, acts[k + 1]))
  {
    hide Feed;
  }

  lemma LastByte(st: ClientState, sha: Digest, line: Bytes)
    requires '\n' !in line && st.binary.remaining == 0
    ensures Feed(Receiver(line, st), sha, "\n") == Receiver([], ProcessLine(st, sha, StripReturn(line)))
  {
    hide ProcessLine, StripReturn;
    var whole := line + "\n";
    IndexOfMiddle(line, '\n', []);
    assert line + ['\n'] + [] == whole;
    assert whole[..|line|] == line && whole[|line| + 1..] == [];
    assert whole[|line|] == '\n';
    hide IndexOf;
    var next := Step(Receiver(whole, st), sha);
    assert next == Receiver([], ProcessLine(st, sha, StripReturn(line)));
    assert Run(next, sha) == next;
  }

  // ---- payload ------------------------------------------------------------------------------

  /** A payload is stored as it comes, whatever the user does meanwhile. */
  lemma {:induction false} PlayPayload(st: ClientState, sha: Digest, data: Bytes, acts: seq<seq<Act>>, a: nat, k: nat)
    requires 0 < k && a + k <= |data| < |acts|
    requires var r := PlayTo(st, sha, data, acts, a);
             r.buffer == [] && r.state.Valid() && k <= r.state.binary.remaining
    ensures var start, r := PlayTo(st, sha, data, acts, a).state, PlayTo(st, sha, data, acts, a + k);
            && !PayloadRejected(start, k) && r.buffer == []
            && Core(r.state) == Core(TakePayload(start, data[a..a + k]))
    decreases k
  {
    hide ClientState.Valid, TakePayload, PayloadRejected, Core, PlayTo, Feed;
    var start, bytes := PlayTo(st, sha, data, acts, a).state, data[a..a + k];
    PayloadFits(start, k);
    var c := data[a + k - 1];
    PlayStep(st, sha, data, acts, a + k - 1);
    if k == 1 {
      assert bytes == [c];
      OneByte(start, sha, c);
      DoAllCore(TakePayload(start, [c]), acts[a + k]);
    } else {
      PlayPayload(st, sha, data, acts, a, k - 1);
      var before, some := PlayTo(st, sha, data, acts, a + k - 1), data[a..a + k - 1];
      assert some + [c] == bytes;
      Halfway(start, some, [c]);
      var half := TakePayload(start, some);
      CoreValid(half, before.state);
      CoreFields(half, before.state);
      OneByte(before.state, sha, c);
      CorePayload(half, before.state, [c]);
      DoAllCore(TakePayload(before.state, [c]), acts[a + k]);
    }
  }

  lemma PayloadFits(st: ClientState, k: nat)
    requires st.Valid() && 0 < k <= st.binary.remaining
    ensures !PayloadRejected(st, k)
  {
    assert st.DownloadOk(st.binary.transfer, st.downloads[st.binary.transfer]);
  }

  lemma Halfway(st: ClientState, some: Bytes, more: Bytes)
    requires st.Valid() && some != [] && more != [] && |some| + |more| <= st.binary.remaining
    ensures !PayloadRejected(st, |some|) && !PayloadRejected(st, |some + more|)
    ensures var half := TakePayload(st, some);
            && half.Valid() && |more| <= half.binary.remaining && !PayloadRejected(half, |more|)
            && TakePayload(half, more) == TakePayload(st, some + more)
  {
    PayloadSplit(st, some, more);
  }

  lemma OneByte(st: ClientState, sha: Digest, c: char)
    requires st.Valid() && st.binary.remaining > 0
    ensures !PayloadRejected(st, 1) && Feed(Receiver([], st), sha, [c]) == Receiver([], TakePayload(st, [c]))
  {
    hide TakePayload;
    PayloadFits(st, 1);
    hide PayloadRejected, ClientState.Valid;
    assert [] + [c] == [c] && [c][..1] == [c] && [c][1..] == [];
    var next := Step(Receiver([c], st), sha);
    assert next == Receiver([], TakePayload(st, [c]));
    assert Run(next, sha) == next by { TakenNoLine(st, c); }
  }

  lemma TakenNoLine(st: ClientState, c: char)
    requires !PayloadRejected(st, 1) && 0 < st.binary.remaining
    ensures !CanStep(Receiver([], TakePayload(st, [c])))
  {
  }

  lemma CorePayload(st: ClientState, st': ClientState, bytes: Bytes)
    requires Core(st) == Core(st') && |bytes| <= st.binary.remaining && !PayloadRejected(st, |bytes|)
    ensures |bytes| <= st'.binary.remaining && !PayloadRejected(st', |bytes|)
    ensures Core(TakePayload(st, bytes)) == Core(TakePayload(st', bytes))
  {
    CoreFields(st, st');
  }

  // ---- bytes in pieces ----------------------------------------------------------------------

  datatype Input = Data(bytes: Bytes) | User(act: Act)

  function BytesOf(inputs: seq<Input>): Bytes {
    if inputs == [] then []
    else BytesOf(inputs[..|inputs| - 1]) + if inputs[|inputs| - 1].Data? then inputs[|inputs| - 1].bytes else []
  }

  /** The client application: pieces of the stream and the user's acts, in the order they come. */
  function Played(st: ClientState, sha: Digest, inputs: seq<Input>): Receiver {
    if inputs == [] then Receiver([], st)
    else
      var r := Played(st, sha, inputs[..|inputs| - 1]);
      match inputs[|inputs| - 1]
      case Data(bytes) => Feed(r, sha, bytes)
      case User(act) => r.(state := Do(r.state, act))
  }

  lemma PlayedData(st: ClientState, sha: Digest, inputs: seq<Input>, bytes: Bytes)
    ensures Played(st, sha, inputs + [Data(bytes)]) == Feed(Played(st, sha, inputs), sha, bytes)
  {
    assert (inputs + [Data(bytes)])[..|inputs|] == inputs;
  }

  lemma PlayedAct(st: ClientState, sha: Digest, inputs: seq<Input>, act: Act)
    ensures var r := Played(st, sha, inputs);
            Played(st, sha, inputs + [Input.User(act)]) == r.(state := Do(r.state, act))
  {
    assert (inputs + [Input.User(act)])[..|inputs|] == inputs;
  }

  function Empties(n: nat): (s: seq<seq<Act>>)
    ensures |s| == n && forall i :: 0 <= i < n ==> s[i] == []
  {
    seq(n, _ => [])
  }

  /** After which byte the user did what. */
  function Schedule(inputs: seq<Input>): (acts: seq<seq<Act>>)
    ensures |acts| == |BytesOf(inputs)| + 1
  {
    if inputs == [] then [[]]
    else
      var acts := Schedule(inputs[..|inputs| - 1]);
      match inputs[|inputs| - 1]
      case Data(bytes) => acts + Empties(|bytes|)
      case User(act) => acts[|acts| - 1 := acts[|acts| - 1] + [act]]
  }

  /** What comes later does not matter yet. */
  lemma {:induction false} PlayPrefix(st: ClientState, sha: Digest, data: Bytes, acts: seq<seq<Act>>, data': Bytes,
                                      acts': seq<seq<Act>>, k: nat)
    requires k <= |data| < |acts| && k <= |data'| < |acts'|
    requires data[..k] == data'[..k] && acts[..k + 1] == acts'[..k + 1]
    ensures PlayTo(st, sha, data, acts, k) == PlayTo(st, sha, data', acts', k)
  {
    assert acts[k] == acts[..k + 1][k] && acts'[k] == acts'[..k + 1][k];
    if k == 0 {
    } else {
      assert data[k - 1] == data[..k][k - 1] && data'[k - 1] == data'[..k][k - 1];
      assert data[..k - 1] == data[..k][..k - 1] && data'[..k - 1] == data'[..k][..k - 1];
      assert acts[..k] == acts[..k + 1][..k] && acts'[..k] == acts'[..k + 1][..k];
      PlayPrefix(st, sha, data, acts, data', acts', k - 1);
    }
  }

  /** A piece during which the user does nothing. */
  lemma {:induction false} PlayPiece(st: ClientState, sha: Digest, data: Bytes, acts: seq<seq<Act>>, a: nat, k: nat)
    requires a + k <= |data| < |acts| && st.Valid() && forall i :: a < i <= a + k ==> acts[i] == []
    ensures PlayTo(st, sha, data, acts, a + k) == Feed(PlayTo(st, sha, data, acts, a), sha, data[a..a + k])
    decreases k
  {
    hide PlayTo, ClientState.Valid, Feed;
    PlayValid(st, sha, data, acts, a);
    var start := PlayTo(st, sha, data, acts, a);
    if k == 0 {
      assert data[a..a + k] == [];
      NoBytes(start, sha);
    } else {
      var some, c := data[a..a + k - 1], data[a + k - 1];
      PlayPiece(st, sha, data, acts, a, k - 1);
      PlayStep(st, sha, data, acts, a + k - 1);
      FeedTwice(start, sha, some, [c]);
      assert some + [c] == data[a..a + k];
      assert DoAll(Feed(start, sha, data[a..a + k]).state, []) == Feed(start, sha, data[a..a + k]).state;
    }
  }

  lemma NoBytes(r: Receiver, sha: Digest)
    requires !CanStep(r)
    ensures Feed(r, sha, []) == r
  {
    assert r.buffer + [] == r.buffer;
  }

  /** Pieces of any size give the run byte by byte. */
  lemma {:induction false} PiecesPlay(st: ClientState, sha: Digest, inputs: seq<Input>)
    requires st.Valid()
    ensures Played(st, sha, inputs) == PlayTo(st, sha, BytesOf(inputs), Schedule(inputs), |BytesOf(inputs)|)
    decreases |inputs|
  {
    hide ClientState.Valid, Feed, PlayTo;
    if inputs == [] {
      PlayNothing(st, sha);
    } else {
      var before := inputs[..|inputs| - 1];
      var data, acts := BytesOf(before), Schedule(before);
      PiecesPlay(st, sha, before);
      match inputs[|inputs| - 1] {
        case Data(bytes) =>
          var data', acts' := data + bytes, acts + Empties(|bytes|);
          PlayPrefix(st, sha, data, acts, data', acts', |data|);
          PlayPiece(st, sha, data', acts', |data|, |bytes|);
          assert data'[|data|..|data| + |bytes|] == bytes && data'[..|data|] == data[..|data|];
        case User(act) => LastAct(st, sha, data, acts, act);
      }
    }
  }

  lemma PlayNothing(st: ClientState, sha: Digest)
    ensures PlayTo(st, sha, [], [[]], 0) == Receiver([], st)
  {
  }

  lemma LastAct(st: ClientState, sha: Digest, data: Bytes, acts: seq<seq<Act>>, act: Act)
    requires |acts| == |data| + 1
    ensures var acts' := acts[|data| := acts[|data|] + [act]];
            var r := PlayTo(st, sha, data, acts, |data|);
            PlayTo(st, sha, data + [], acts', |data|) == r.(state := Do(r.state, act))
  {
    hide Feed;
    var acts', k := acts[|data| := acts[|data|] + [act]], |data|;
    assert data + [] == data;
    assert (acts[k] + [act])[..|acts[k]|] == acts[k];
    if k > 0 {
      PlayPrefix(st, sha, data, acts, data, acts', k - 1);
    }
  }

  /** What comes after some inputs changes the schedule only from their last byte on. */
  lemma {:induction false} ScheduleOn(first: seq<Input>, more: seq<Input>)
    ensures var k, acts, all := |BytesOf(first)|, Schedule(first), Schedule(first + more);
            BytesOf(first) <= BytesOf(first + more) && all[..k] == acts[..k] && acts[k] <= all[k]
    decreases |more|
  {
    if more == [] {
      assert first + more == first;
    } else {
      var before, last := more[..|more| - 1], more[|more| - 1];
      ScheduleOn(first, before);
      var inputs := first + more;
      assert inputs[..|inputs| - 1] == first + before && inputs[|inputs| - 1] == last;
      var k, acts, all := |BytesOf(first)|, Schedule(first + before), Schedule(inputs);
      assert all[..k] == acts[..k] && acts[k] <= all[k];
    }
  }

  /** When the first inputs have come, the client is where they lead, but for what the user does
      right then. */
  lemma PlayedThen(st: ClientState, sha: Digest, first: seq<Input>, more: seq<Input>)
    requires st.Valid()
    ensures |BytesOf(first)| <= |BytesOf(first + more)|
    ensures var r, there := PlayTo(st, sha, BytesOf(first + more), Schedule(first + more), |BytesOf(first)|),
                            Played(st, sha, first);
            r.buffer == there.buffer && Core(r.state) == Core(there.state)
  {
    hide ClientState.Valid, Feed, Core, BytesOf, Schedule, DoAll;
    var data, acts, data', acts', k :=
      BytesOf(first), Schedule(first), BytesOf(first + more), Schedule(first + more), |BytesOf(first)|;
    PiecesPlay(st, sha, first);
    ScheduleOn(first, more);
    if k == 0 {
      DoAllCore(st, acts[0]);
      DoAllCore(st, acts'[0]);
    } else {
      assert data'[..k] == data;
      assert data'[..k - 1] == data[..k - 1] && data'[k - 1] == data[k - 1];
      PlayPrefix(st, sha, data, acts, data', acts', k - 1);
      var r := Feed(PlayTo(st, sha, data, acts, k - 1), sha, [data[k - 1]]);
      DoAllCore(r.state, acts[k]);
      DoAllCore(r.state, acts'[k]);
    }
  }
}
