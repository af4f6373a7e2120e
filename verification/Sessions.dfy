/** A client through all its connections: bytes arrive in any pieces, the user acts, connections
    break and are opened again.  The client reads exactly the lines that were sent, its disk only
    ever holds prefixes of the stored files, and its receipts are true.

    A connection is followed up to its first refused frame, whose payload the client would read as
    text; its disk, and every later connection, are followed all the same. */
module Sessions {
  import opened Text
  import opened Wire
  import opened Units
  import opened ClientDemux
  import opened ClientDisk
  import FileLines

  /** The lines the client handles, without the carriage return. */
  function Lines(units: seq<Unit>): seq<Bytes> {
    if units == [] then []
    else (if units[0].Line? then [StripReturn(units[0].text)] else []) + Lines(units[1..])
  }

  ghost predicate StoreOk(store: Store) {
    forall t :: t in store ==> t < UINT64_LIMIT && |store[t]| <= MAX_FILE_SIZE
  }

  /** A text line the server may send: no FILE_DATA header, and no false offer, not even when the
      connection breaks in the middle of it. */
  ghost predicate LineOk(store: Store, text: Bytes) {
    && '\n' !in text && LineKindOf(StripReturn(text)) != DataLine
    && forall i :: 0 <= i <= |text| ==> OfferTrue(store, text[..i])
  }

  predicate ChunkAt(store: Store, u: Unit, t: nat, offset: nat) {
    && u.Chunk? && t in store && 0 < |u.payload| <= PUMP_FRAME_BYTES
    && offset + |u.payload| <= |store[t]|
    && u.payload == store[t][offset..offset + |u.payload|]
    && u.header == DataHeader(t, offset, |u.payload|)
  }

  ghost predicate UnitOk(store: Store, u: Unit) {
    match u
    case Line(text) => LineOk(store, text)
    case Chunk(_, _) => exists t, offset :: ChunkAt(store, u, t, offset)
  }

  ghost predicate UnitsOk(store: Store, units: seq<Unit>) {
    forall i :: 0 <= i < |units| ==> UnitOk(store, units[i])
  }

  /** What the client has not handled yet is the rest of the current payload and whole units. */
  ghost predicate Tracks(store: Store, r: Receiver, future: Bytes, units: seq<Unit>) {
    var unread, n, t := r.buffer + future, r.state.binary.remaining, r.state.binary.transfer;
    && UnitsOk(store, units)
    && n <= |unread| && unread[n..] == UnitsBytes(units)
    && (n > 0 ==>
          && t in store && t in r.state.downloads
          && r.state.downloads[t].received + n <= |store[t]|
          && unread[..n] == store[t][r.state.downloads[t].received..r.state.downloads[t].received + n])
  }

  // ---- one round of the client's loop -------------------------------------------------------

  /** The units left after one round. */
  function UnitsLeft(r: Receiver, units: seq<Unit>): seq<Unit> {
    if r.state.binary.remaining > 0 || units == [] then units else units[1..]
  }

  lemma PayloadTracks(store: Store, r: Receiver, sha: Digest, future: Bytes, units: seq<Unit>)
    requires r.state.Valid() && DiskOk(store, r.state) && Tracks(store, r, future, units)
    requires CanStep(r) && r.state.binary.remaining > 0
    ensures !PayloadRejected(r.state, PayloadCount(r))
    ensures Tracks(store, Step(r, sha), future, units) && DiskOk(store, Step(r, sha).state)
    ensures Step(r, sha).state.lines == r.state.lines && Step(r, sha).state.replies == r.state.replies
    ensures PartsKnown(store, r.state.parts) ==> PartsKnown(store, Step(r, sha).state.parts)
  {
    hide ProcessLine, UnitsOk, DiskOk, UnitsBytes, IndexOf, PartsKnown;
    PayloadNeverRejected(r);
    var count, t := PayloadCount(r), r.state.binary.transfer;
    PayloadCut(r.buffer, future, count, r.state.binary.remaining, store[t], r.state.downloads[t].received);
    PayloadDisk(store, r.state, r.buffer[..count]);
    hide PayloadRejected, ClientState.Valid;
  }

  lemma LineTracks(store: Store, r: Receiver, sha: Digest, future: Bytes, units: seq<Unit>)
    requires r.state.Valid() && DiskOk(store, r.state) && Tracks(store, r, future, units)
    requires CanStep(r) && r.state.binary.remaining == 0 && units != [] && units[0].Line?
    ensures Tracks(store, Step(r, sha), future, units[1..])
    ensures TextStep(store, sha, Seen(r.state, StripReturn(units[0].text)), Step(r, sha).state)
  {
    hide ProcessLine, DiskOk, Seen, TextStep;
    var text := units[0].text;
    assert UnitOk(store, units[0]) && LineOk(store, text);
    var rest := UnitsBytes(units[1..]);
    NextLine(r.buffer, future, text, rest);
    StrippedTrue(store, text);
    TextLineDisk(store, r.state, sha, StripReturn(text));
    TextStepQuiet(store, sha, Seen(r.state, StripReturn(text)), Step(r, sha).state);
    assert Step(r, sha).buffer + future == rest;
  }

  lemma TextStepQuiet(store: Store, sha: Digest, st: ClientState, st': ClientState)
    requires TextStep(store, sha, st, st')
    ensures st'.Valid() && DiskOk(store, st') && st'.binary.remaining == 0
    ensures st'.lines == st.lines && st'.refused == st.refused
    ensures ReceiptsTrue(store, sha, st.replies) ==> ReceiptsTrue(store, sha, st'.replies)
    ensures PartsKnown(store, st.parts) ==> PartsKnown(store, st'.parts)
  {
  }

  lemma StrippedTrue(store: Store, text: Bytes)
    requires LineOk(store, text)
    ensures OfferTrue(store, StripReturn(text))
  {
    hide OfferTrue;
    assert text[..|text|] == text;
    if text != [] {
      assert OfferTrue(store, text[..|text| - 1]);
    }
  }

  lemma ChunkTracks(store: Store, r: Receiver, sha: Digest, future: Bytes, units: seq<Unit>, t: nat, offset: nat)
    requires StoreOk(store) && r.state.Valid() && DiskOk(store, r.state) && Tracks(store, r, future, units)
    requires CanStep(r) && r.state.binary.remaining == 0 && units != [] && ChunkAt(store, units[0], t, offset)
    ensures var r' := Step(r, sha);
            && r'.state == HandleFrame(r.state, t, offset, |units[0].payload|)
            && (r'.state.refused || Tracks(store, r', future, units[1..]))
  {
    hide ProcessLine, DiskOk, UnitsOk, DataHeader, ToDecimal, SplitWords, ParseCommand, FileLines.DataLine;
    var u := units[0];
    var n := |u.payload|;
    var line := FileLines.DataLine(t, offset, n);
    FileLines.Printed(t, offset, n);
    FileLines.DataLineParses(t, offset, n);
    var rest := u.payload + UnitsBytes(units[1..]);
    HeaderThenRest(line, u.payload, UnitsBytes(units[1..]));
    NextLine(r.buffer, future, line, rest);
    assert StripReturn(line) == line;
    HeaderHandled(r.state, sha, t, offset, n);
    var r' := Step(r, sha);
    assert r'.buffer + future == rest;
    TailOk(store, units);
    assert rest[n..] == UnitsBytes(units[1..]) && rest[..n] == u.payload;
    hide Step, UnitsBytes;
    FrameTracks(store, r.state, r', future, units[1..], u, t, offset);
  }

  /** A frame that was accepted is tracked through its payload. */
  lemma FrameTracks(store: Store, st: ClientState, r': Receiver, future: Bytes, units: seq<Unit>, u: Unit, t: nat,
                    offset: nat)
    requires st.Valid() && DiskOk(store, st) && st.binary.remaining == 0 && ChunkAt(store, u, t, offset)
             && UnitsOk(store, units)
    requires r'.state == HandleFrame(st, t, offset, |u.payload|)
    requires var rest, n := r'.buffer + future, |u.payload|;
             n <= |rest| && rest[n..] == UnitsBytes(units) && rest[..n] == u.payload
    ensures r'.state.refused || Tracks(store, r', future, units)
  {
    hide UnitsOk, UnitsBytes, DataHeader;
    if FrameAccepted(st, t, offset, |u.payload|) {
      AcceptedFrameFits(st, t, offset, |u.payload|);
    }
  }

  lemma HeaderHandled(st: ClientState, sha: Digest, t: nat, offset: nat, n: nat)
    requires t < UINT64_LIMIT && offset < UINT64_LIMIT && n < UINT64_LIMIT
    ensures ProcessLine(st, sha, FileLines.DataLine(t, offset, n)) == HandleFrame(st, t, offset, n)
  {
    hide HandleFrame, ToDecimal, SplitWords, ParseCommand, FileLines.DataLine;
    FileLines.DataLineParses(t, offset, n);
  }

  lemma TailOk(store: Store, units: seq<Unit>)
    requires UnitsOk(store, units) && units != []
    ensures UnitsOk(store, units[1..])
  {
  }

  /** The state of a session: what is on the disk and what was said is true, refused or not; up to
      a refusal the client and its stream are in step. */
  ghost predicate SessionOk(store: Store, sha: Digest, r: Receiver, future: Bytes, units: seq<Unit>,
                            expected: seq<Bytes>) {
    && r.state.Valid() && DiskOk(store, r.state) && ReceiptsTrue(store, sha, r.state.replies)
    && r.state.lines <= expected
    && (r.state.refused || (Tracks(store, r, future, units) && r.state.lines + Lines(units) == expected))
  }

  lemma StepSession(store: Store, r: Receiver, sha: Digest, future: Bytes, units: seq<Unit>, expected: seq<Bytes>)
    requires StoreOk(store) && SessionOk(store, sha, r, future, units, expected) && CanStep(r) && !r.state.refused
    ensures r.state.binary.remaining > 0 ==> !PayloadRejected(r.state, PayloadCount(r))
    ensures SessionOk(store, sha, Step(r, sha), future, UnitsLeft(r, units), expected)
    ensures PartsKnown(store, r.state.parts) ==> PartsKnown(store, Step(r, sha).state.parts)
  {
    hide DiskOk, Tracks, PartsKnown, ReceiptsTrue;
    StepValid(r, sha);
    if r.state.binary.remaining > 0 {
      PayloadTracks(store, r, sha, future, units);
    } else {
      SomeUnit(store, r, future, units);
      if units[0].Line? {
        LineSession(store, r, sha, future, units, expected);
      } else {
        var t, offset :| ChunkAt(store, units[0], t, offset);
        ChunkSession(store, r, sha, future, units, expected, t, offset);
      }
    }
  }

  lemma SomeUnit(store: Store, r: Receiver, future: Bytes, units: seq<Unit>)
    requires Tracks(store, r, future, units) && CanStep(r) && r.state.binary.remaining == 0
    ensures units != [] && UnitOk(store, units[0])
  {
  }

  lemma LineSession(store: Store, r: Receiver, sha: Digest, future: Bytes, units: seq<Unit>, expected: seq<Bytes>)
    requires SessionOk(store, sha, r, future, units, expected) && CanStep(r) && !r.state.refused
    requires r.state.binary.remaining == 0 && units != [] && units[0].Line?
    ensures SessionOk(store, sha, Step(r, sha), future, units[1..], expected)
    ensures PartsKnown(store, r.state.parts) ==> PartsKnown(store, Step(r, sha).state.parts)
  {
    hide DiskOk, Tracks, Step, ClientState.Valid, Lines, ReceiptsTrue, PartsKnown, TextStep;
    var seen := Seen(r.state, StripReturn(units[0].text));
    LineTracks(store, r, sha, future, units);
    TextStepQuiet(store, sha, seen, Step(r, sha).state);
    LineLines(r.state.lines, units);
  }

  lemma LineLines(lines: seq<Bytes>, units: seq<Unit>)
    requires units != [] && units[0].Line?
    ensures lines + [StripReturn(units[0].text)] + Lines(units[1..]) == lines + Lines(units)
  {
    hide StripReturn;
  }

  lemma ChunkSession(store: Store, r: Receiver, sha: Digest, future: Bytes, units: seq<Unit>, expected: seq<Bytes>,
                     t: nat, offset: nat)
    requires StoreOk(store) && SessionOk(store, sha, r, future, units, expected) && CanStep(r) && !r.state.refused
    requires r.state.binary.remaining == 0 && units != [] && ChunkAt(store, units[0], t, offset)
    requires Step(r, sha).state.Valid()
    ensures SessionOk(store, sha, Step(r, sha), future, units[1..], expected)
    ensures PartsKnown(store, r.state.parts) ==> PartsKnown(store, Step(r, sha).state.parts)
  {
    assert units[0].Chunk?;
    hide DiskOk, Tracks, Step, CanStep, HandleFrame, FrameAccepted, ReceiptsTrue, PartsKnown, ClientState.Valid,
         ChunkAt, StoreOk, Lines, PartsOk, FinalsOk;
    var n := |units[0].payload|;
    ChunkTracks(store, r, sha, future, units, t, offset);
    FrameDisk(store, r.state, sha, t, offset, n);
    ChunkLines(units);
  }

  lemma ChunkLines(units: seq<Unit>)
    requires units != [] && units[0].Chunk?
    ensures Lines(units) == Lines(units[1..])
  {
    assert [] + Lines(units[1..]) == Lines(units[1..]);
  }

  // ---- whole runs ---------------------------------------------------------------------------

  /** The client's loop goes on, as far as it is followed. */
  predicate Follows(r: Receiver) {
    CanStep(r) && !r.state.refused && !(r.state.binary.remaining > 0 && PayloadRejected(r.state, PayloadCount(r)))
  }

  /** `consume_complete_lines`, followed up to a refused frame. */
  function RunTo(r: Receiver, sha: Digest): Receiver
    decreases |r.buffer|
  {
    if Follows(r) then RunTo(Step(r, sha), sha) else r
  }

  /** The units left then. */
  function UnitsAfter(r: Receiver, sha: Digest, units: seq<Unit>): seq<Unit>
    decreases |r.buffer|
  {
    if Follows(r) then UnitsAfter(Step(r, sha), sha, UnitsLeft(r, units)) else units
  }

  /** It is the client's loop: what is followed is on its way, and without a refusal it is all of it. */
  lemma {:induction false} RunToRun(r: Receiver, sha: Digest)
    requires r.state.Valid()
    ensures Run(RunTo(r, sha), sha) == Run(r, sha)
    ensures !RunTo(r, sha).state.refused ==> RunTo(r, sha) == Run(r, sha)
    ensures RunTo(r, sha).state.refused || !CanStep(RunTo(r, sha))
    decreases |r.buffer|
  {
    hide Step, ClientState.Valid, PayloadRejected;
    if Follows(r) {
      StepValid(r, sha);
      RunToRun(Step(r, sha), sha);
    } else if CanStep(r) && !r.state.refused {
      PayloadNeverRejected(r);
      assert false;
    }
  }

  lemma {:induction false} RunSession(store: Store, r: Receiver, sha: Digest, future: Bytes, units: seq<Unit>,
                                      expected: seq<Bytes>)
    requires StoreOk(store) && SessionOk(store, sha, r, future, units, expected)
    ensures SessionOk(store, sha, RunTo(r, sha), future, UnitsAfter(r, sha, units), expected)
    ensures PartsKnown(store, r.state.parts) ==> PartsKnown(store, RunTo(r, sha).state.parts)
    decreases |r.buffer|
  {
    hide SessionOk, Step, UnitsLeft, StoreOk, PayloadRejected, PartsKnown;
    if Follows(r) {
      StepSession(store, r, sha, future, units, expected);
      RunSession(store, Step(r, sha), sha, future, UnitsLeft(r, units), expected);
    }
  }

  /** A client, the part of the server's stream it has not received, and what it should read.
      `earlier` is what it sent on earlier connections; `clean` says that each of those ended with
      everything handled and no frame refused. */
  datatype Client = Client(r: Receiver, future: Bytes, units: seq<Unit>, expected: seq<Bytes>, earlier: seq<Reply>,
                           clean: bool)

  /** What happens at the client besides the stream. */
  datatype Act =
    | AskLogin(name: Bytes)
    | AskEntry(chat: Chat)
    | LeaveChat
    | ForgetOffers(chat: Chat)          // the client was removed from a group

  function Do(st: ClientState, act: Act): ClientState {
    match act
    case AskLogin(name) => st.(pendingLogin := name)
    case AskEntry(chat) => st.(pendingEntry := chat)
    case LeaveChat => st.(chat := NoChat, pendingEntry := NoChat)
    case ForgetOffers(chat) => st.(offers := st.offers - {chat})
  }

  datatype Event =
    | Arrive(count: nat)                // the next bytes of the stream are received
    | User(act: Act)
    | Reconnect(undrained: nat, units: seq<Unit>)   // the connection is lost and a new one opened

  /** A client process that starts with the given disk. */
  function Restart(st: ClientState): ClientState {
    ClientState("", "", NoChat, NoChat, map[], map[], NO_FRAME, st.partials, st.parts, st.finals, [], [], false)
  }

  /** The end of `ClientApp::run`: what is left in the buffer is still handled as a line. */
  function LastLine(r: Receiver, sha: Digest): ClientState {
    if r.buffer == [] then r.state else ProcessLine(r.state, sha, r.buffer)
  }

  function Smaller(a: nat, b: nat): nat { if a <= b then a else b }

  /** When the last read fails, the bytes read before it are in the buffer, but not handled. */
  function Reconnected(c: Client, sha: Digest, undrained: nat, units: seq<Unit>): Client {
    var k := Smaller(undrained, |c.future|);
    var st := LastLine(c.r.(buffer := c.r.buffer + c.future[..k]), sha);
    Client(Receiver([], Restart(st)), UnitsBytes(units), units, Lines(units), c.earlier + st.replies,
           c.clean && k == 0 && !c.r.state.refused)
  }

  function Arrived(c: Client, sha: Digest, count: nat): Client {
    var k := Smaller(count, |c.future|);
    var r := c.r.(buffer := c.r.buffer + c.future[..k]);
    if c.r.state.refused then c
    else c.(r := RunTo(r, sha), future := c.future[k..], units := UnitsAfter(r, sha, c.units))
  }

  function Apply(c: Client, sha: Digest, e: Event): Client {
    match e
    case Arrive(count) => Arrived(c, sha, count)
    case User(act) => c.(r := c.r.(state := Do(c.r.state, act)))
    case Reconnect(undrained, units) => Reconnected(c, sha, undrained, units)
  }

  function ApplyAll(c: Client, sha: Digest, events: seq<Event>): Client
    decreases |events|
  {
    if events == [] then c else ApplyAll(Apply(c, sha, events[0]), sha, events[1..])
  }

  ghost predicate EventOk(store: Store, e: Event) { e.Reconnect? ==> UnitsOk(store, e.units) }

  /** Between events the client has handled everything it could. */
  ghost predicate ClientOk(store: Store, sha: Digest, c: Client) {
    && SessionOk(store, sha, c.r, c.future, c.units, c.expected)
    && ReceiptsTrue(store, sha, c.earlier)
    && (c.clean ==> PartsKnown(store, c.r.state.parts))
    && (c.r.state.refused || !CanStep(c.r))
  }

  lemma ArriveOk(store: Store, c: Client, sha: Digest, count: nat)
    requires StoreOk(store) && ClientOk(store, sha, c)
    ensures ClientOk(store, sha, Apply(c, sha, Arrive(count)))
  {
    hide StoreOk, DiskOk, CanStep, RunTo, PartsKnown, ReceiptsTrue, ClientState.Valid;
    if !c.r.state.refused {
      var k := Smaller(count, |c.future|);
      var r := c.r.(buffer := c.r.buffer + c.future[..k]);
      MoreTracks(store, c.r, c.future, c.units, k);
      hide Tracks;
      RunSession(store, r, sha, c.future[k..], c.units, c.expected);
      RunToRun(r, sha);
    }
  }

  lemma MoreTracks(store: Store, r: Receiver, future: Bytes, units: seq<Unit>, k: nat)
    requires k <= |future| && Tracks(store, r, future, units)
    ensures Tracks(store, r.(buffer := r.buffer + future[..k]), future[k..], units)
  {
    hide UnitsOk, UnitsBytes;
    assert future == future[..k] + future[k..];
    assert r.buffer + future[..k] + future[k..] == r.buffer + future;
  }

  /** What the user does touches neither the stream nor the disk. */
  lemma UserOk(store: Store, c: Client, sha: Digest, act: Act)
    requires ClientOk(store, sha, c)
    ensures ClientOk(store, sha, Apply(c, sha, User(act)))
  {
    hide SessionOk, ReceiptsTrue, PartsKnown;
    UserSession(store, sha, c.r, c.future, c.units, c.expected, Do(c.r.state, act));
  }

  lemma UserSession(store: Store, sha: Digest, r: Receiver, future: Bytes, units: seq<Unit>, expected: seq<Bytes>,
                    st': ClientState)
    requires SessionOk(store, sha, r, future, units, expected)
    requires var st := r.state;
             && st' == st.(pendingLogin := st'.pendingLogin, pendingEntry := st'.pendingEntry, chat := st'.chat,
                offers := st'.offers)
             && (forall chat :: chat in st'.offers ==> chat in st.offers && st'.offers[chat] == st.offers[chat])
    ensures SessionOk(store, sha, r.(state := st'), future, units, expected)
  {
    SameDownloadsValid(r.state, st');
    hide ReceiptsTrue, WordsTrue, UnitsOk, UnitsBytes, Lines, ClientState.Valid, PartsOk, FinalsOk, DownloadsOk;
  }

  // ---- the end of a connection --------------------------------------------------------------

  lemma {:induction false} TrimRightPrefix(s: Bytes)
    ensures TrimRight(s) <= s
  {
    if s != [] && IsSpace(s[|s| - 1]) {
      TrimRightPrefix(s[..|s| - 1]);
    }
  }

  /** A line that is cut off, or whole, but cannot be an offer because of its sixth character. */
  lemma NoOffer(line: Bytes)
    requires line != [] && !IsSpace(line[0]) && (|line| > 5 ==> ToUpper(line[5]) != 'O')
    ensures LineKindOf(line) != OfferLine
  {
    TrimRightPrefix(line);
    var cleaned := Trim(line);
    assert cleaned <= line;
    var name := ParseCommand(line).name;
    assert |name| > 5 ==> name[5] == ToUpper(line[5]);
    assert "FILE_OFFER"[5] == 'O';
  }

  lemma CutLine(store: Store, r: Receiver, future: Bytes, units: seq<Unit>)
    requires StoreOk(store) && Tracks(store, r, future, units) && !CanStep(r) && r.state.binary.remaining == 0
             && r.buffer != []
    ensures OfferTrue(store, r.buffer)
  {
    hide OfferTrue, LineKindOf, StripReturn, ToDecimal, UnitsBytes;
    FirstUnit(units);
    var whole := UnitBytes(units[0]);
    var rest := UnitsBytes(units[1..]);
    assert UnitOk(store, units[0]);
    match units[0] {
      case Line(text) =>
        CutBefore(r.buffer, future, text, rest);
      case Chunk(header, payload) =>
        var t, offset :| ChunkAt(store, units[0], t, offset);
        CutHeader(store, r.buffer, future, FileLines.DataLine(t, offset, |payload|), payload, rest, t, offset);
    }
  }

  /** What was received of a frame header is no offer. */
  lemma CutHeader(store: Store, buffer: Bytes, future: Bytes, line: Bytes, payload: Bytes, rest: Bytes, t: nat,
                  offset: nat)
    requires '\n' !in buffer && buffer != [] && line == FileLines.DataLine(t, offset, |payload|)
    requires buffer + future == DataHeader(t, offset, |payload|) + payload + rest
    ensures OfferTrue(store, buffer)
  {
    FileLines.Printed(t, offset, |payload|);
    FileLines.DataLineStart(t, offset, |payload|);
    hide DataHeader, FileLines.DataLine, OfferTrue;
    HeaderThenRest(line, payload, rest);
    CutBefore(buffer, future, line, payload + rest);
    NotOffered(store, buffer);
  }

  lemma HeaderThenRest(line: Bytes, payload: Bytes, rest: Bytes)
    ensures line + "\n" + payload + rest == line + "\n" + (payload + rest)
  {
  }

  lemma NotOffered(store: Store, line: Bytes)
    requires line != [] && !IsSpace(line[0]) && (|line| > 5 ==> ToUpper(line[5]) != 'O')
    ensures OfferTrue(store, line)
  {
    NoOffer(line);
  }

  /** However a connection ended, the next one starts in order. */
  lemma RestartOk(store: Store, c: Client, sha: Digest, undrained: nat, units: seq<Unit>)
    requires StoreOk(store) && ClientOk(store, sha, c) && UnitsOk(store, units)
    ensures ClientOk(store, sha, Reconnected(c, sha, undrained, units))
  {
    var k := Smaller(undrained, |c.future|);
    var r := c.r.(buffer := c.r.buffer + c.future[..k]);
    LastLineDisk(store, r, sha);
    if c.clean && k == 0 && !c.r.state.refused {
      assert r == c.r;
      LastLineKnown(store, c, sha);
    }
    hide LastLine, UnitsOk, Tracks, ClientState.Valid, PartsKnown, DiskOk;
    assert ReceiptsTrue(store, sha, c.earlier + LastLine(r, sha).replies);
    hide ReceiptsTrue;
    FreshSession(store, sha, LastLine(r, sha), units);
  }

  /** A new process on the same disk starts in order. */
  lemma FreshSession(store: Store, sha: Digest, st: ClientState, units: seq<Unit>)
    requires UnitsOk(store, units) && PartsOk(store, st.parts) && FinalsOk(store, st.finals)
    ensures SessionOk(store, sha, Receiver([], Restart(st)), UnitsBytes(units), units, Lines(units))
  {
    hide PartsOk, FinalsOk, UnitsOk, UnitsBytes, Lines;
    var bytes := UnitsBytes(units);
    assert [] + bytes == bytes && bytes[0..] == bytes && [] + Lines(units) == Lines(units);
  }

  lemma LastLineDisk(store: Store, r: Receiver, sha: Digest)
    requires r.state.Valid() && DiskOk(store, r.state) && ReceiptsTrue(store, sha, r.state.replies)
    ensures var st := LastLine(r, sha);
            PartsOk(store, st.parts) && FinalsOk(store, st.finals) && ReceiptsTrue(store, sha, st.replies)
  {
    hide ProcessLine, ReceiptsTrue, PartsOk, FinalsOk;
    AnyLine(store, r.state, sha, r.buffer);
  }

  /** With everything handled the last line is a cut line, which is no offer of an unknown transfer. */
  lemma LastLineKnown(store: Store, c: Client, sha: Digest)
    requires StoreOk(store) && ClientOk(store, sha, c) && !c.r.state.refused && PartsKnown(store, c.r.state.parts)
    ensures PartsKnown(store, LastLine(c.r, sha).parts)
  {
    hide DiskOk, Tracks, LineWords, OfferTrue, HandleFrame, PartsKnown, ReceiptsTrue;
    if c.r.buffer != [] && c.r.state.binary.remaining == 0 {
      CutLine(store, c.r, c.future, c.units);
      CutLineKnown(store, c.r.state, sha, c.r.buffer);
    }
  }

  lemma CutLineKnown(store: Store, st: ClientState, sha: Digest, line: Bytes)
    requires st.Valid() && DiskOk(store, st) && st.binary.remaining == 0 && OfferTrue(store, line)
             && PartsKnown(store, st.parts)
    ensures PartsKnown(store, ProcessLine(st, sha, line).parts)
  {
    hide LineWords, OfferTrue, HandleFrame, ParseCommand, DiskOk, PartsKnown;
    if LineKindOf(line) != DataLine {
      TextLineDisk(store, st, sha, line);
    }
  }

  lemma ApplyReconnect(c: Client, sha: Digest, undrained: nat, units: seq<Unit>)
    ensures Apply(c, sha, Reconnect(undrained, units)) == Reconnected(c, sha, undrained, units)
  {
  }

  /** Every run keeps the invariant: any fragmentation, any user, any number of connections. */
  lemma {:induction false} EveryRun(store: Store, c: Client, sha: Digest, events: seq<Event>)
    requires StoreOk(store) && ClientOk(store, sha, c)
    requires forall i :: 0 <= i < |events| ==> EventOk(store, events[i])
    ensures ClientOk(store, sha, ApplyAll(c, sha, events))
    decreases |events|
  {
    hide StoreOk, ClientOk, Apply, UnitsOk;
    if events == [] {
    } else {
      assert EventOk(store, events[0]);
      match events[0] {
        case Arrive(count) => ArriveOk(store, c, sha, count);
        case Reconnect(undrained, units) =>
          RestartOk(store, c, sha, undrained, units);
          ApplyReconnect(c, sha, undrained, units);
        case User(act) => UserOk(store, c, sha, act);
      }
      EveryRun(store, Apply(c, sha, events[0]), sha, events[1..]);
    }
  }
}
