/** Sender and receiver put together, safety: whatever a connection writes, in whatever pieces it
    arrives and wherever it breaks off, the client reads the submitted lines in order and stores
    prefixes of the stored files. */
module Download {
  import opened Text
  import opened Wire
  import opened Deliveries
  import Stream
  import opened ClientDemux
  import opened ClientDisk
  import opened Sessions
  import opened Units
  import FileLines

  // ---- the stream in lines ------------------------------------------------------------------

  predicate EndsLine(text: Bytes) { text == [] || text[|text| - 1] == '\n' }

  function TextUnits(text: Bytes): seq<Unit> {
    if text == [] then []
    else
      var n := IndexOf(text, '\n');
      if n == |text| then [Line(text)] else [Line(text[..n])] + TextUnits(text[n + 1..])
  }

  ghost predicate TextOk(store: Store, text: Bytes) { EndsLine(text) && UnitsOk(store, TextUnits(text)) }

  function ItemUnits(item: Item): seq<Unit> {
    match item
    case Message(m) => TextUnits(m.text)
    case Frame(_, header, payload) => [Chunk(header, payload)]
  }

  function UnitsOf(log: seq<Item>): seq<Unit> {
    if log == [] then [] else UnitsOf(log[..|log| - 1]) + ItemUnits(log[|log| - 1])
  }

  /** The lines of a sequence of texts, as the client reads them. */
  function TextLines(texts: seq<Outgoing>): seq<Bytes> {
    if texts == [] then [] else TextLines(texts[..|texts| - 1]) + Lines(TextUnits(texts[|texts| - 1].text))
  }

  lemma {:induction false} UnitsJoin(a: seq<Unit>, b: seq<Unit>)
    ensures UnitsBytes(a + b) == UnitsBytes(a) + UnitsBytes(b)
  {
    hide UnitBytes;
    if a == [] {
      assert a + b == b;
    } else {
      UnitsJoin(a[1..], b);
      assert (a + b)[1..] == a[1..] + b;
      Stream.Assoc(UnitBytes(a[0]), UnitsBytes(a[1..]), UnitsBytes(b));
    }
  }

  lemma {:induction false} LinesJoin(a: seq<Unit>, b: seq<Unit>)
    ensures Lines(a + b) == Lines(a) + Lines(b)
  {
    hide StripReturn;
    if a == [] {
      assert a + b == b;
    } else {
      LinesJoin(a[1..], b);
      assert (a + b)[1..] == a[1..] + b;
      Stream.Assoc(if a[0].Line? then [StripReturn(a[0].text)] else [], Lines(a[1..]), Lines(b));
    }
  }

  lemma LineSplit(text: Bytes)
    requires text != [] && EndsLine(text)
    ensures var n := IndexOf(text, '\n');
            && n < |text| && '\n' !in text[..n] && text == text[..n] + "\n" + text[n + 1..] && EndsLine(text[n + 1..])
  {
    var n := IndexOf(text, '\n');
    assert n < |text| && text[n] == '\n';
    SplitAt(text, n);
  }

  lemma SplitAt(text: Bytes, n: nat)
    requires n < |text| && text[n] == '\n' && EndsLine(text)
    ensures text == text[..n] + "\n" + text[n + 1..] && EndsLine(text[n + 1..])
  {
    assert text[..n] + [text[n]] + text[n + 1..] == text;
  }

  lemma TextHead(text: Bytes)
    requires text != [] && EndsLine(text)
    ensures var n := IndexOf(text, '\n');
            && n < |text| && '\n' !in text[..n] && text == text[..n] + "\n" + text[n + 1..] && EndsLine(text[n + 1..])
            && TextUnits(text) == [Line(text[..n])] + TextUnits(text[n + 1..])
  {
    LineSplit(text);
    hide IndexOf, EndsLine;
  }

  lemma {:induction false} TextUnitsBytes(text: Bytes)
    requires EndsLine(text)
    ensures UnitsBytes(TextUnits(text)) == text
  {
    if text == [] {
    } else {
      TextHead(text);
      var n := IndexOf(text, '\n');
      TextUnitsBytes(text[n + 1..]);
      var units := TextUnits(text);
      assert units[0] == Line(text[..n]) && units[1..] == TextUnits(text[n + 1..]);
      hide IndexOf, EndsLine, TextUnits;
    }
  }

  predicate WholeLines(log: seq<Item>) {
    forall i :: 0 <= i < |log| && log[i].Message? ==> EndsLine(log[i].m.text)
  }

  /** The stream of bytes is the stream of units. */
  lemma {:induction false} LogUnits(log: seq<Item>)
    requires WholeLines(log)
    ensures UnitsBytes(UnitsOf(log)) == Flatten(log)
    ensures Lines(UnitsOf(log)) == TextLines(TextsOf(log))
  {
    if log == [] {
    } else {
      var rest, item := log[..|log| - 1], log[|log| - 1];
      LogUnits(rest);
      UnitsJoin(UnitsOf(rest), ItemUnits(item));
      LinesJoin(UnitsOf(rest), ItemUnits(item));
      ItemInUnits(item);
      hide ItemUnits, UnitsBytes, Lines, ItemBytes;
      if item.Message? {
        assert (TextsOf(rest) + [item.m])[..|TextsOf(rest)|] == TextsOf(rest);
      } else {
        assert TextsOf(rest) + [] == TextsOf(rest) && TextLines(TextsOf(rest)) + [] == TextLines(TextsOf(rest));
      }
    }
  }

  lemma ItemInUnits(item: Item)
    requires item.Message? ==> EndsLine(item.m.text)
    ensures UnitsBytes(ItemUnits(item)) == ItemBytes(item)
    ensures Lines(ItemUnits(item)) == if item.Message? then Lines(TextUnits(item.m.text)) else []
  {
    if item.Message? {
      TextUnitsBytes(item.m.text);
    } else {
      var unit := Chunk(item.header, item.payload);
      ChunkLines([unit]);
      assert UnitBytes(unit) + UnitsBytes([]) == UnitBytes(unit);
    }
  }

  // ---- what a connection puts into the stream -----------------------------------------------

  lemma {:induction false} NotBrokenBefore(log: seq<Item>, p: nat, d: Delivery, n: nat)
    requires n <= |log| && TraceOf(log, p, d) != Broken
    ensures TraceOf(log[..n], p, d) != Broken
    decreases |log|
  {
    if n < |log| {
      NotBrokenBefore(log[..|log| - 1], p, d, n);
      assert log[..|log| - 1][..n] == log[..n];
    } else {
      assert log[..n] == log;
    }
  }

  /** An unbroken delivery's items are its control lines and frames of its content. */
  lemma DeliveryItem(log: seq<Item>, p: nat, d: Delivery, i: nat)
    requires i < |log| && TraceOf(log, p, d) != Broken && OwnerOf(log[i]) == Some(p)
    ensures match log[i]
            case Message(m) => m.text == ResumeStartText(d.transfer, d.start) || m.text == DoneText(d.transfer)
            case Frame(_, header, payload) => exists offset :: FrameFits(d, offset, header, payload)
  {
    hide DataHeader, ResumeStartText, DoneText;
    NotBrokenBefore(log, p, d, i + 1);
    assert log[..i + 1][..i] == log[..i];
    assert TraceOf(log[..i + 1], p, d) == TraceStep(TraceOf(log[..i], p, d), log[i], p, d);
    if log[i].Frame? {
      assert FrameFits(d, TraceOf(log[..i], p, d).offset, log[i].header, log[i].payload);
    }
  }

  /** A control line other than FILE_DATA is an admissible line. */
  lemma ControlLineOk(store: Store, line: Bytes)
    requires FileLines.Tight(line) && |line| > 5 && line[5] != 'O' && line[5] != 'o'
    requires LineKindOf(line) != DataLine
    ensures TextOk(store, FileLines.Ended(line))
  {
    hide LineKindOf;
    var text := FileLines.Ended(line);
    IndexOfMiddle(line, '\n', []);
    assert line + ['\n'] + [] == text;
    assert text[..|line|] == line && text[|line| + 1..] == [];
    assert TextUnits(text) == [Line(line)] + TextUnits([]);
    assert StripReturn(line) == line;
    assert LineOk(store, line) by {
      forall i | 0 <= i <= |line| ensures OfferTrue(store, line[..i]) {
        if i == 0 {
          EmptyTrue(store);
        } else {
          NotOffered(store, line[..i]);
        }
      }
    }
  }

  /** So is every chat, system and error line: it starts with a bracket. */
  lemma BracketLineOk(store: Store, text: Bytes)
    requires text != [] && text[0] == '[' && '\n' !in text
    ensures LineOk(store, text)
  {
    forall i | 0 <= i <= |text| ensures OfferTrue(store, text[..i]) {
      if i == 0 {
        EmptyTrue(store);
      } else {
        BracketLine(text[..i]);
      }
    }
    BracketLine(text);
    if StripReturn(text) != [] {
      BracketLine(StripReturn(text));
    } else {
      EmptyTrue(store);
    }
  }

  lemma BracketLine(line: Bytes)
    requires line != [] && line[0] == '['
    ensures LineKindOf(line) == OtherLine
  {
    TrimRightPrefix(line);
    assert Trim(line) <= line;
    var name := ParseCommand(line).name;
    assert name != [] ==> name[0] == ToUpper('[');
    assert "FILE_DATA"[0] == 'F';
  }

  lemma EmptyTrue(store: Store)
    ensures OfferTrue(store, [])
  {
    assert ParseCommand([]).name == [];
  }

  lemma ControlTextsOk(store: Store, transfer: nat, offset: nat)
    requires transfer < UINT64_LIMIT && offset < UINT64_LIMIT
    ensures TextOk(store, ResumeStartText(transfer, offset)) && TextOk(store, DoneText(transfer))
  {
    hide ToDecimal, LineKindOf, TextOk, LineWords, FileLines.Tight;
    FileLines.Printed(transfer, offset, 0);
    FileLines.ResumeStartLineParses(transfer, offset);
    FileLines.DoneLineParses(transfer);
    var start, done := FileLines.ResumeStartLine(transfer, offset), FileLines.DoneLine(transfer);
    assert start[0] == 'F' && start[5] == 'R' && done[0] == 'F' && done[5] == 'D';
    ControlLineOk(store, start);
    ControlLineOk(store, done);
  }

  /** The replies between frames: heartbeats and acknowledged receipts. */
  lemma ReplyTextsOk(store: Store, n: nat)
    ensures TextOk(store, FileLines.Ended(FileLines.PongLine(n)))
            && TextOk(store, FileLines.Ended(FileLines.AckLine(n)))
  {
    hide FileLines.PongLine, FileLines.AckLine, LineKindOf, TextOk, FileLines.Tight;
    FileLines.ReplyLines(n);
    FileLines.ReplyStarts(n);
    ControlLineOk(store, FileLines.PongLine(n));
    ControlLineOk(store, FileLines.AckLine(n));
  }

  predicate IsPlain(item: Item) { item.Message? && OwnerOf(item) == None }

  /** The texts the application sends are whole lines, none of them a FILE_DATA line or a false offer. */
  ghost predicate PlainTextsOk(store: Store, log: seq<Item>) {
    forall i :: 0 <= i < |log| && IsPlain(log[i]) ==> TextOk(store, log[i].m.text)
  }

  lemma OwnedItemOk(b: Board, store: Store, i: nat)
    requires BoardOk(b, store) && StoreOk(store) && i < |b.log| && OwnerOf(b.log[i]).Some?
    ensures UnitsOk(store, ItemUnits(b.log[i])) && (b.log[i].Message? ==> EndsLine(b.log[i].m.text))
  {
    hide DataHeader, ResumeStartText, DoneText, LineOk, TextUnits;
    var p := OwnerOf(b.log[i]).value;
    assert PumpOk(b, store, p);
    var u := b.pumps[p];
    var d := DeliveryOf(u, store);
    assert TraceOf(b.log, p, d) != Broken;
    DeliveryItem(b.log, p, d, i);
    ControlTextsOk(store, u.transfer, u.start);
    if b.log[i].Frame? {
      var header, payload := b.log[i].header, b.log[i].payload;
      var offset :| FrameFits(d, offset, header, payload);
      assert ChunkAt(store, Chunk(header, payload), u.transfer, offset);
    }
  }

  lemma {:induction false} UnitsOfOk(store: Store, log: seq<Item>)
    requires forall i :: 0 <= i < |log| ==> UnitsOk(store, ItemUnits(log[i]))
    ensures UnitsOk(store, UnitsOf(log))
  {
    hide UnitOk;
    if log == [] {
    } else {
      UnitsOfOk(store, log[..|log| - 1]);
    }
  }

  /** In every state of a connection, its stream is one the client can follow: the bytes written
      so far begin it, and its lines are those of the submitted texts, in order. */
  lemma ConnectionStream(c: Stream.Conn, store: Store)
    requires Stream.Inv(c, store) && StoreOk(store) && PlainTextsOk(store, c.log)
    ensures forall undrained :: EventOk(store, Reconnect(undrained, UnitsOf(c.log)))
    ensures c.wire <= UnitsBytes(UnitsOf(c.log))
    ensures Lines(UnitsOf(c.log)) == TextLines(TextsOf(c.log)) && TextsOf(c.log) <= c.submitted
  {
    hide BoardOk, UnitOk, DataHeader;
    forall i | 0 <= i < |c.log|
      ensures UnitsOk(store, ItemUnits(c.log[i])) && (c.log[i].Message? ==> EndsLine(c.log[i].m.text))
    {
      if !IsPlain(c.log[i]) {
        OwnedItemOk(Stream.BoardOf(c), store, i);
      }
    }
    UnitsOfOk(store, c.log);
    LogUnits(c.log);
  }

  // ---- the theorem --------------------------------------------------------------------------

  /** A client that has never run. */
  const BLANK: ClientState := ClientState("", "", NoChat, NoChat, map[], map[], NO_FRAME, map[], map[], map[], [], [],
                                           false)

  const OFFLINE: Client := Client(Receiver([], BLANK), [], [], [], [], true)

  /** The event opens a connection that is in some reachable state of the server's send path. */
  ghost predicate Served(store: Store, e: Event) {
    e.Reconnect? ==> exists c: Stream.Conn ::
      Stream.Inv(c, store) && PlainTextsOk(store, c.log) && e.units == UnitsOf(c.log)
  }

  /** The stream of the latest connection. */
  function Latest(units: seq<Unit>, events: seq<Event>): seq<Unit>
    decreases |events|
  {
    if events == [] then units else Latest(if events[0].Reconnect? then events[0].units else units, events[1..])
  }

  /** The lines of the stream are those of texts submitted to its connection, in that order. */
  ghost predicate SubmittedLines(store: Store, units: seq<Unit>, lines: seq<Bytes>) {
    exists c: Stream.Conn ::
      && Stream.Inv(c, store) && units == UnitsOf(c.log) && lines == TextLines(TextsOf(c.log))
      && TextsOf(c.log) <= c.submitted
  }

  lemma {:induction false} LatestExpected(store: Store, c: Client, sha: Digest, units: seq<Unit>, events: seq<Event>)
    requires StoreOk(store) && (forall i :: 0 <= i < |events| ==> Served(store, events[i]))
    requires units == [] || SubmittedLines(store, units, c.expected)
    ensures Latest(units, events) == []
            || SubmittedLines(store, Latest(units, events), ApplyAll(c, sha, events).expected)
    decreases |events|
  {
    hide StoreOk, SubmittedLines, Served, Apply, Lines;
    if events == [] {
    } else {
      var next := if events[0].Reconnect? then events[0].units else units;
      if events[0].Reconnect? {
        assert Served(store, events[0]);
        ServedLines(store, events[0]);
      }
      AppliedExpected(c, sha, events[0]);
      LatestExpected(store, Apply(c, sha, events[0]), sha, next, events[1..]);
    }
  }

  lemma AppliedExpected(c: Client, sha: Digest, e: Event)
    ensures Apply(c, sha, e).expected == if e.Reconnect? then Lines(e.units) else c.expected
  {
    hide RunTo, LastLine, UnitsAfter, Restart, UnitsBytes, Lines;
  }

  lemma ServedLines(store: Store, e: Event)
    requires StoreOk(store) && e.Reconnect? && Served(store, e)
    ensures EventOk(store, e) && SubmittedLines(store, e.units, Lines(e.units))
  {
    hide Stream.Inv, StoreOk, PlainTextsOk, UnitOk;
    var c: Stream.Conn :| Stream.Inv(c, store) && PlainTextsOk(store, c.log) && e.units == UnitsOf(c.log);
    ConnectionStream(c, store);
  }

  /** End to end, over all connections of a client's life, however each of them ends: every .part
      file is a prefix of the stored file and every finished file equals it; every FILE_RECEIVED
      ever sent carried the digest of the stored file and was sent with a local file equal to it;
      and the lines read on the current connection begin the lines submitted to it, in order. */
  lemma DownloadSafety(store: Store, sha: Digest, events: seq<Event>)
    requires StoreOk(store)
    requires forall i :: 0 <= i < |events| ==> Served(store, events[i])
    ensures var c := ApplyAll(OFFLINE, sha, events);
            && (forall key :: key in c.r.state.parts ==>
                  && c.r.state.parts[key] <= Content(store, key.transfer)
                  && (c.clean ==> key.transfer in store))
            && (forall key :: key in c.r.state.finals ==>
                  key.transfer in store && c.r.state.finals[key] == store[key.transfer])
            && (forall reply :: reply in c.earlier + c.r.state.replies && reply.Received? ==>
                  && reply.transfer in store && reply.digest == sha(store[reply.transfer])
                  && reply.copy == store[reply.transfer])
            && c.r.state.lines <= c.expected
            && (Latest([], events) == [] || SubmittedLines(store, Latest([], events), c.expected))
            && (!c.r.state.refused && c.r.buffer + c.future == [] && c.r.state.binary.remaining == 0 ==>
                  c.r.state.lines == c.expected)
  {
    hide StoreOk, UnitOk, Served, SubmittedLines, ApplyAll;
    forall i | 0 <= i < |events| ensures EventOk(store, events[i]) {
      assert Served(store, events[i]);
      if events[i].Reconnect? {
        ServedLines(store, events[i]);
      }
    }
    LatestExpected(store, OFFLINE, sha, [], events);
    BlankOk(store, sha);
    EveryRun(store, OFFLINE, sha, events);
    var c := ApplyAll(OFFLINE, sha, events);
    ReceiptsSent(store, sha, c);
    if !c.r.state.refused && c.r.buffer + c.future == [] && c.r.state.binary.remaining == 0 {
      NothingLeft(store, c);
    }
  }

  lemma ReceiptsSent(store: Store, sha: Digest, c: Client)
    requires ClientOk(store, sha, c)
    ensures forall reply :: reply in c.earlier + c.r.state.replies ==> ReceiptTrue(store, sha, reply)
  {
    hide SessionOk, ReceiptTrue;
    assert SessionOk(store, sha, c.r, c.future, c.units, c.expected);
    SessionReceipts(store, sha, c);
  }

  lemma SessionReceipts(store: Store, sha: Digest, c: Client)
    requires SessionOk(store, sha, c.r, c.future, c.units, c.expected)
    ensures ReceiptsTrue(store, sha, c.r.state.replies)
  {
  }

  lemma BlankOk(store: Store, sha: Digest)
    ensures ClientOk(store, sha, OFFLINE)
  {
  }

  lemma NothingLeft(store: Store, c: Client)
    requires Tracks(store, c.r, c.future, c.units) && c.r.buffer + c.future == [] && c.r.state.binary.remaining == 0
    ensures c.units == []
  {
    hide UnitOk;
    if c.units != [] {
      assert UnitOk(store, c.units[0]);
      UnitNotEmpty(store, c.units[0]);
    }
  }

  lemma UnitNotEmpty(store: Store, u: Unit)
    requires UnitOk(store, u)
    ensures UnitBytes(u) != []
  {
  }
}
