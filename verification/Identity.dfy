/** Sender and receiver put together, success: whatever the user of the client does, as long as the
    server's texts leave a transfer alone that is on its way, its frames are never refused and the
    client ends up with the stored file. */
module Identity {
  import opened Text
  import opened Wire
  import opened Deliveries
  import Stream
  import opened ClientDemux
  import opened Sessions
  import opened Units
  import opened Download
  import opened Play
  import FileLines

  /** The client waits for byte `offset` of the delivery's content. */
  predicate Holds(st: ClientState, sha: Digest, d: Delivery, offset: nat) {
    && d.transfer in st.downloads
    && var download := st.downloads[d.transfer];
    && download.key.transfer == d.transfer && download.key in st.parts
    && download.offer.size == |d.content| && download.offer.digest == sha(d.content)
    && download.received == offset <= |d.content| && st.parts[download.key] == d.content[..offset]
  }

  /** The client has the file and has said so. */
  ghost predicate Has(st: ClientState, sha: Digest, d: Delivery) {
    && Received(d.transfer, sha(d.content), d.content) in st.replies
    && exists key :: key in st.finals && key.transfer == d.transfer && st.finals[key] == d.content
  }

  ghost predicate InStep(st: ClientState, sha: Digest, d: Delivery, t: Trace) {
    match t
    case Unstarted => true
    case At(offset) => Holds(st, sha, d, offset)
    case Complete => Has(st, sha, d)
    case Broken => false
  }

  // ---- lines that do not interfere ----------------------------------------------------------

  predicate ParsesTo(word: Bytes, busy: set<nat>) { ParseUint64(word).Some? && ParseUint64(word).value in busy }

  predicate OfferElsewhere(words: seq<Bytes>, busy: set<nat>) {
    ParseOffer(words).Some? ==> ParseOffer(words).value.transfer !in busy
  }

  /** The busy transfers that are still on their way to the client. */
  function Live(st: ClientState, busy: set<nat>): set<nat> { set t | t in busy && t in st.downloads }

  /** A line that concerns none of the busy transfers the client is still receiving. */
  predicate Calm(st: ClientState, line: Bytes, busy: set<nat>) {
    var words, live := LineWords(line), Live(st, busy);
    match LineKindOf(line)
    case DataLine => false
    case OfferLine => OfferElsewhere(words, live)
    case ResumeStartLine => words == [] || !ParsesTo(words[0], live)
    case DoneLine => words == [] || !ParsesTo(words[0], live)
    case RevokedLine => words == [] || !ParsesTo(words[0], live)
    case OtherLine => (IsLogoutLine(line) ==> live == {}) && (IsEntryOk(line) ==> KeptElsewhere(st, live))
  }

  predicate KeptElsewhere(st: ClientState, busy: set<nat>) {
    forall chat, i :: chat in st.offers && 0 <= i < |st.offers[chat]| ==>
      OfferElsewhere(LineWords(st.offers[chat][i]), busy)
  }

  /** What the busy transfers have on the client stays as it is. */
  ghost predicate Untouched(st: ClientState, st': ClientState, busy: set<nat>) {
    && (forall t :: t in busy && t in st.downloads ==> t in st'.downloads && st'.downloads[t] == st.downloads[t])
    && (forall key: FileKey :: key.transfer in busy && key.transfer in st.downloads && key in st.parts ==>
         key in st'.parts && st'.parts[key] == st.parts[key])
    && (forall key: FileKey :: key.transfer in busy && key in st.finals ==>
         key in st'.finals && st'.finals[key] == st.finals[key])
    && st.replies <= st'.replies
  }

  lemma UntouchedInStep(st: ClientState, st': ClientState, sha: Digest, busy: set<nat>, d: Delivery, t: Trace)
    requires Untouched(st, st', busy) && d.transfer in busy && InStep(st, sha, d, t)
    ensures InStep(st', sha, d, t)
  {
    if t == Complete {
      var key :| key in st.finals && key.transfer == d.transfer && st.finals[key] == d.content;
      assert key in st'.finals;
    }
  }

  lemma UntouchedTwice(a: ClientState, b: ClientState, c: ClientState, busy: set<nat>)
    requires Untouched(a, b, busy) && Untouched(b, c, busy)
    ensures Untouched(a, c, busy)
  {
  }

  /** Files that stay, and transfers still on their way that are untouched, are all there is to touch. */
  lemma LiveUntouched(st: ClientState, st': ClientState, busy: set<nat>)
    requires Untouched(st, st', Live(st, busy)) && st'.finals == st.finals
    ensures Untouched(st, st', busy)
  {
  }

  lemma StartElsewhere(st: ClientState, sha: Digest, transfer: nat, offer: Offer, busy: set<nat>)
    requires transfer !in busy
    ensures Untouched(st, StartDownload(st, sha, transfer, offer), busy)
  {
    PreparedPart(st, transfer, offer);
    hide PreparePart;
  }

  lemma OfferCalm(st: ClientState, sha: Digest, line: Bytes, words: seq<Bytes>, busy: set<nat>)
    requires OfferElsewhere(words, busy)
    ensures Untouched(st, HandleOffer(st, sha, line, words), busy)
  {
    hide ParseOffer, OfferChat, StartDownload;
    if ParseOffer(words).Some? {
      StartElsewhere(st, sha, ParseOffer(words).value.transfer, ParseOffer(words).value.offer, busy);
    }
  }

  lemma {:induction false} OffersCalm(st: ClientState, sha: Digest, lines: seq<Bytes>, busy: set<nat>)
    requires forall i :: 0 <= i < |lines| ==> OfferElsewhere(LineWords(lines[i]), busy)
    ensures Untouched(st, HandleOffers(st, sha, lines), busy)
    decreases |lines|
  {
    hide LineWords, HandleOffer, OfferElsewhere;
    if lines == [] {
    } else {
      var next := HandleOffer(st, sha, lines[0], LineWords(lines[0]));
      OfferCalm(st, sha, lines[0], LineWords(lines[0]), busy);
      OffersCalm(next, sha, lines[1..], busy);
      UntouchedTwice(st, next, HandleOffers(next, sha, lines[1..]), busy);
    }
  }

  /** `a` and `b` have the same downloads and files and have said the same. */
  lemma UntouchedFrom(a: ClientState, b: ClientState, c: ClientState, busy: set<nat>)
    requires b.downloads == a.downloads && b.parts == a.parts && b.finals == a.finals && b.replies == a.replies
    ensures Untouched(a, b, busy) && (Untouched(b, c, busy) ==> Untouched(a, c, busy))
  {
  }

  lemma EntryCalm(st: ClientState, sha: Digest, line: Bytes, busy: set<nat>)
    requires IsEntryOk(line) ==> KeptElsewhere(st, busy)
    ensures Untouched(st, HandleEntryLine(st, sha, line), busy)
  {
    hide Untouched, EnterChat, SameScope, ScopeChat, IsEntryOk, IsEntryError, EntryWords, EntryErrorWords,
         LineWords, OfferElsewhere;
    var asked := st.(pendingEntry := NoChat);
    UntouchedFrom(st, asked, asked, busy);
    UntouchedFrom(st, st, st, busy);
    if IsEntryOk(line) && |EntryWords(line)| == 2 {
      var chat := ScopeChat(EntryWords(line)[0], EntryWords(line)[1]);
      EnterCalm(asked, sha, chat, busy);
      UntouchedFrom(st, asked, EnterChat(asked, sha, chat), busy);
    }
  }

  lemma EnterCalm(st: ClientState, sha: Digest, chat: Chat, busy: set<nat>)
    requires KeptElsewhere(st, busy)
    ensures Untouched(st, EnterChat(st, sha, chat), busy)
  {
    hide Untouched, HandleOffers, LineWords, OfferElsewhere;
    var shown := st.(chat := chat, offers := st.offers - {chat});
    var lines := if chat in st.offers then st.offers[chat] else [];
    OffersCalm(shown, sha, lines, busy);
    UntouchedFrom(st, shown, HandleOffers(shown, sha, lines), busy);
  }

  lemma SystemCalm(st: ClientState, line: Bytes, busy: set<nat>)
    requires IsLogoutLine(line) ==> Live(st, busy) == {}
    ensures Untouched(st, HandleSystemLine(st, line), busy)
  {
    hide HandleSystemLine, IsLogoutLine;
    assert forall t :: t in busy && t in st.downloads ==> t in Live(st, busy);
  }

  lemma RevokeCalm(st: ClientState, transfer: nat, busy: set<nat>)
    requires st.Valid() && transfer !in Live(st, busy)
    ensures Untouched(st, Revoke(st, transfer), busy)
  {
    hide DropOffers;
    assert transfer in st.downloads ==> st.DownloadOk(transfer, st.downloads[transfer]);
  }

  lemma FinishCalm(st: ClientState, sha: Digest, transfer: nat, busy: set<nat>)
    requires st.Valid() && transfer !in Live(st, busy)
    ensures Untouched(st, FinishDownload(st, sha, transfer), busy)
  {
    hide FinishDownload;
    assert transfer in st.downloads ==> st.DownloadOk(transfer, st.downloads[transfer]);
  }

  lemma ResumeStartCalm(st: ClientState, words: seq<Bytes>, busy: set<nat>)
    requires words == [] || !ParsesTo(words[0], Live(st, busy))
    ensures Untouched(st, HandleResumeStart(st, words), busy)
  {
    hide ParseUint64;
  }

  lemma CalmLine(st: ClientState, sha: Digest, line: Bytes, busy: set<nat>)
    requires st.Valid() && st.binary.remaining == 0 && Calm(st, line, busy)
    ensures Untouched(st, ProcessLine(st, sha, line), busy)
  {
    hide LineKindOf, LineWords, ParseUint64, HandleOffer, HandleResumeStart, FinishDownload, Revoke, HandleEntryLine,
         HandleSystemLine, IsLogoutLine, IsEntryOk, IsEntryError, ClientState.Valid, OfferElsewhere, Untouched;
    var seen, words := Seen(st, line), LineWords(line);
    SameDownloadsValid(st, seen);
    UntouchedFrom(st, seen, ProcessLine(st, sha, line), busy);
    UntouchedFrom(seen, seen, seen, busy);
    match LineKindOf(line) {
      case OfferLine =>
        OfferCalm(seen, sha, line, words, Live(st, busy));
        LiveUntouched(seen, HandleOffer(seen, sha, line, words), busy);
      case ResumeStartLine => ResumeStartCalm(seen, words, busy);
      case DoneLine =>
        if |words| == 1 && ParseUint64(words[0]).Some? {
          FinishCalm(seen, sha, ParseUint64(words[0]).value, busy);
        }
      case RevokedLine =>
        if words != [] && ParseUint64(words[0]).Some? {
          RevokeCalm(seen, ParseUint64(words[0]).value, busy);
        }
      case OtherLine =>
        EntryCalm(seen, sha, line, Live(st, busy));
        LiveUntouched(seen, HandleEntryLine(seen, sha, line), busy);
        SystemCalm(seen, line, busy);
    }
  }

  // ---- what the user does not disturb -------------------------------------------------------

  ghost predicate AtRest(r: Receiver) {
    r.buffer == [] && r.state.Valid() && r.state.binary.remaining == 0 && !r.state.refused
  }

  lemma CoreUntouched(st: ClientState, st': ClientState, busy: set<nat>)
    requires Core(st) == Core(st')
    ensures Untouched(st, st', busy)
  {
    CoreFields(st, st');
    UntouchedFrom(st, st', st', busy);
  }

  lemma CoreRests(st: ClientState, st': ClientState)
    requires Core(st) == Core(st') && AtRest(Receiver([], st))
    ensures AtRest(Receiver([], st'))
  {
    hide ClientState.Valid;
    CoreFields(st, st');
    CoreValid(st, st');
  }

  lemma CoreInStep(st: ClientState, st': ClientState, sha: Digest, d: Delivery, t: Trace)
    requires Core(st) == Core(st')
    ensures InStep(st, sha, d, t) ==> InStep(st', sha, d, t)
  {
    CoreFields(st, st');
  }

  lemma CoreHolds(st: ClientState, st': ClientState, sha: Digest, d: Delivery, offset: nat)
    requires Core(st) == Core(st') && Holds(st, sha, d, offset)
    ensures Holds(st', sha, d, offset)
  {
    CoreFields(st, st');
  }

  // ---- a client reading a stream ------------------------------------------------------------

  /** A client that starts as `st`, reads the stream `log`, and whose user does `acts[k]` when `k`
      bytes have been read. */
  datatype Reading = Reading(st: ClientState, log: seq<Item>, acts: seq<seq<Act>>)

  predicate Timed(x: Reading) { |x.acts| == |Flatten(x.log)| + 1 }

  function AtByte(x: Reading, sha: Digest, k: nat): Receiver
    requires Timed(x) && k <= |Flatten(x.log)|
  {
    PlayTo(x.st, sha, Flatten(x.log), x.acts, k)
  }

  /** Where item `i` begins. */
  function Pos(log: seq<Item>, i: nat): (k: nat)
    requires i <= |log|
    ensures k <= |Flatten(log)|
  {
    FlattenMonotone(log, i);
    |Flatten(log[..i])|
  }

  function AtItem(x: Reading, sha: Digest, i: nat): Receiver
    requires Timed(x) && i <= |x.log|
  {
    AtByte(x, sha, Pos(x.log, i))
  }

  /** `bytes` are what the client reads from byte `a` on. */
  predicate ReadsAt(x: Reading, a: nat, bytes: Bytes) {
    a + |bytes| <= |Flatten(x.log)| && Flatten(x.log)[a..a + |bytes|] == bytes
  }

  lemma ReadsWithin(x: Reading, a: nat, bytes: Bytes)
    requires ReadsAt(x, a, bytes)
    ensures a + |bytes| <= |Flatten(x.log)|
  {
  }

  lemma ItemReads(x: Reading, i: nat)
    requires i < |x.log|
    ensures Pos(x.log, i + 1) == Pos(x.log, i) + |ItemBytes(x.log[i])| && ReadsAt(x, Pos(x.log, i), ItemBytes(x.log[i]))
  {
    hide Flatten, ItemBytes;
    var log := x.log;
    assert log[..i] + [log[i]] == log[..i + 1];
    LogAppend(log[..i], log[i]);
    FlattenMonotone(log, i + 1);
    var upto, all := Flatten(log[..i + 1]), Flatten(log);
    assert all[..|upto|] == upto;
    assert all[Pos(log, i)..|upto|] == upto[Pos(log, i)..];
  }

  lemma ReadsSplit(x: Reading, a: nat, first: Bytes, rest: Bytes)
    requires ReadsAt(x, a, first + rest)
    ensures ReadsAt(x, a, first) && ReadsAt(x, a + |first|, rest)
  {
    hide Flatten;
    var data := Flatten(x.log);
    assert data[a..a + |first + rest|][..|first|] == first && data[a..a + |first + rest|][|first|..] == rest;
    assert data[a..a + |first|] == data[a..a + |first + rest|][..|first|];
    assert data[a + |first|..a + |first| + |rest|] == data[a..a + |first + rest|][|first|..];
  }

  /** A line that the client reads while it is at rest is handled in a state that differs only by
      what the user did. */
  lemma LineRead(x: Reading, sha: Digest, a: nat, line: Bytes)
    requires Timed(x) && '\n' !in line && ReadsAt(x, a, line + "\n") && AtRest(AtByte(x, sha, a))
    ensures var now, after := AtByte(x, sha, a + |line|).state, AtByte(x, sha, a + |line| + 1);
            && Core(now) == Core(AtByte(x, sha, a).state) && AtRest(Receiver([], now))
            && after.buffer == [] && Core(after.state) == Core(ProcessLine(now, sha, StripReturn(line)))
  {
    hide Flatten, ProcessLine, StripReturn, PlayTo, Core, ClientState.Valid;
    var data, n := Flatten(x.log), |line|;
    ReadsSplit(x, a, line, "\n");
    assert data[a + n] == data[a + n..a + n + 1][0];
    PlayLine(x.st, sha, data, x.acts, a, line);
    var now := AtByte(x, sha, a + n).state;
    CoreRests(AtByte(x, sha, a).state, now);
    DoAllCore(ProcessLine(now, sha, StripReturn(line)), x.acts[a + n + 1]);
  }

  // ---- what each item of the stream does ----------------------------------------------------

  function Deliver(st: ClientState, d: Delivery, payload: Bytes): ClientState
    requires d.transfer in st.downloads && st.downloads[d.transfer].key in st.parts
  {
    var download := st.downloads[d.transfer];
    st.(parts := st.parts[download.key := st.parts[download.key] + payload],
        downloads := st.downloads[d.transfer := download.(received := download.received + |payload|)],
        binary := NO_FRAME)
  }

  lemma FrameHandled(st: ClientState, sha: Digest, d: Delivery, offset: nat, header: Bytes, payload: Bytes)
    requires st.binary.remaining == 0 && Holds(st, sha, d, offset)
    requires |d.content| <= MAX_FILE_SIZE && FrameFits(d, offset, header, payload)
    ensures var waiting := st.(binary := BinaryFrame(d.transfer, |payload|));
            && HandleFrame(st, d.transfer, offset, |payload|) == waiting
            && !PayloadRejected(waiting, |payload|) && TakePayload(waiting, payload) == Deliver(st, d, payload)
  {
    hide DataHeader;
    assert FrameAccepted(st, d.transfer, offset, |payload|);
  }

  lemma DeliveredFrame(st: ClientState, sha: Digest, d: Delivery, offset: nat, header: Bytes, payload: Bytes,
                       busy: set<nat>)
    requires st.Valid() && st.binary.remaining == 0 && Holds(st, sha, d, offset)
             && FrameFits(d, offset, header, payload)
    ensures Holds(Deliver(st, d, payload), sha, d, offset + |payload|)
    ensures Untouched(st, Deliver(st, d, payload), busy - {d.transfer})
  {
    hide DataHeader;
    assert d.content[..offset] + payload == d.content[..offset + |payload|];
  }

  lemma FinishedHas(st: ClientState, sha: Digest, d: Delivery, busy: set<nat>)
    requires st.Valid() && Holds(st, sha, d, |d.content|)
    ensures var st' := FinishDownload(st, sha, d.transfer); Has(st', sha, d) && Untouched(st, st', busy - {d.transfer})
  {
    assert d.content[..|d.content|] == d.content;
    var st' := FinishDownload(st, sha, d.transfer);
    assert st'.replies[|st.replies|] == Received(d.transfer, sha(d.content), d.content);
    assert st.downloads[d.transfer].key in st'.finals;
  }

  lemma CalmLineRests(st: ClientState, sha: Digest, line: Bytes, busy: set<nat>)
    requires st.Valid() && st.binary.remaining == 0 && !st.refused && Calm(st, line, busy)
    ensures var st' := ProcessLine(st, sha, line);
            st'.Valid() && st'.binary.remaining == 0 && !st'.refused && Untouched(st, st', busy)
  {
    hide Untouched, ClientState.Valid, Calm, ProcessLine;
    CalmLine(st, sha, line, busy);
    ProcessLineValid(st, sha, line);
    CalmRemaining(st, sha, line, busy);
  }

  lemma CalmRemaining(st: ClientState, sha: Digest, line: Bytes, busy: set<nat>)
    requires st.binary.remaining == 0 && Calm(st, line, busy)
    ensures ProcessLine(st, sha, line).binary.remaining == 0 && ProcessLine(st, sha, line).refused == st.refused
  {
    hide LineKindOf, LineWords, HandleOffer, HandleResumeStart, HandleDone, HandleRevoked, HandleOther, OfferElsewhere,
         IsLogoutLine, KeptElsewhere, ParsesTo;
    if LineKindOf(line) == RevokedLine {
      RevokedRests(Seen(st, line), LineWords(line));
    } else if LineKindOf(line) == OtherLine {
      OtherRests(Seen(st, line), sha, line);
    }
  }

  lemma RevokedRests(st: ClientState, words: seq<Bytes>)
    requires st.binary.remaining == 0
    ensures HandleRevoked(st, words).binary.remaining == 0
  {
    hide ParseUint64, DropOffers;
  }

  lemma OtherRests(st: ClientState, sha: Digest, line: Bytes)
    requires st.binary.remaining == 0
    ensures HandleOther(st, sha, line).binary.remaining == 0
  {
    hide HandleEntryLine, HandleSystemLine, IsLogoutLine;
  }

  /** Lines of a text, each of which leaves the busy transfers alone in the state it is handled in. */
  predicate CalmText(x: Reading, sha: Digest, a: nat, text: Bytes, busy: set<nat>)
    requires Timed(x) && a + |text| <= |Flatten(x.log)|
    decreases |text|
  {
    text == [] ||
      var n := IndexOf(text, '\n');
      && n < |text| && Calm(AtByte(x, sha, a + n).state, StripReturn(text[..n]), busy)
      && CalmText(x, sha, a + n + 1, text[n + 1..], busy)
  }

  lemma {:induction false} TextArrives(x: Reading, sha: Digest, a: nat, text: Bytes, busy: set<nat>)
    requires Timed(x) && ReadsAt(x, a, text) && AtRest(AtByte(x, sha, a)) && CalmText(x, sha, a, text, busy)
    ensures AtRest(AtByte(x, sha, a + |text|))
    ensures Untouched(AtByte(x, sha, a).state, AtByte(x, sha, a + |text|).state, busy)
    decreases |text|
  {
    hide Flatten, AtByte, Calm, Untouched, AtRest, CalmText, IndexOf;
    var start := AtByte(x, sha, a).state;
    if text == [] {
      CoreUntouched(start, start, busy);
    } else {
      var n := FirstLine(x, sha, a, text, busy);
      TextArrives(x, sha, a + n, text[n..], busy);
      assert a + n + |text[n..]| == a + |text|;
      UntouchedTwice(start, AtByte(x, sha, a + n).state, AtByte(x, sha, a + |text|).state, busy);
    }
  }

  lemma FirstLine(x: Reading, sha: Digest, a: nat, text: Bytes, busy: set<nat>) returns (n: nat)
    requires Timed(x) && ReadsAt(x, a, text) && AtRest(AtByte(x, sha, a)) && CalmText(x, sha, a, text, busy)
    requires text != []
    ensures 0 < n <= |text| && ReadsAt(x, a + n, text[n..]) && CalmText(x, sha, a + n, text[n..], busy)
    ensures var after := AtByte(x, sha, a + n); AtRest(after) && Untouched(AtByte(x, sha, a).state, after.state, busy)
  {
    hide AtByte, Calm, ProcessLine, StripReturn, Untouched, AtRest, Core, IndexOf, CalmText;
    var line := CalmFirst(x, sha, a, text, busy);
    n := |line| + 1;
    ReadsSplit(x, a, line + "\n", text[n..]);
    hide ReadsAt;
    LineRead(x, sha, a, line);
    LineLeaves(AtByte(x, sha, a).state, AtByte(x, sha, a + |line|).state, AtByte(x, sha, a + n), sha, StripReturn(line),
      busy);
  }

  lemma CalmFirst(x: Reading, sha: Digest, a: nat, text: Bytes, busy: set<nat>) returns (line: Bytes)
    requires Timed(x) && a + |text| <= |Flatten(x.log)| && CalmText(x, sha, a, text, busy) && text != []
    ensures var n := |line| + 1;
            && n <= |text| && '\n' !in line && text == line + "\n" + text[n..]
            && Calm(AtByte(x, sha, a + |line|).state, StripReturn(line), busy)
            && CalmText(x, sha, a + n, text[n..], busy)
  {
    hide Flatten, AtByte, Calm, StripReturn, IndexOf;
    LineSplitOff(text);
    line := text[..IndexOf(text, '\n')];
  }

  lemma CutAround(text: Bytes, n: nat, end: Bytes)
    requires n < |text| && end == [text[n]]
    ensures text == text[..n] + end + text[n + 1..]
  {
  }

  lemma LineSplitOff(text: Bytes)
    requires IndexOf(text, '\n') < |text|
    ensures var n := IndexOf(text, '\n'); '\n' !in text[..n] && text == text[..n] + "\n" + text[n + 1..]
  {
    hide IndexOf;
    CutAround(text, IndexOf(text, '\n'), "\n");
  }

  lemma LineLeaves(start: ClientState, now: ClientState, after: Receiver, sha: Digest, line: Bytes, busy: set<nat>)
    requires Core(now) == Core(start) && AtRest(Receiver([], now)) && Calm(now, line, busy)
    requires after.buffer == [] && Core(after.state) == Core(ProcessLine(now, sha, line))
    ensures AtRest(after) && Untouched(start, after.state, busy)
  {
    hide Calm, ProcessLine, Untouched, Core, ClientState.Valid;
    var handled := ProcessLine(now, sha, line);
    CalmLineRests(now, sha, line, busy);
    CoreUntouched(start, now, busy);
    CoreUntouched(handled, after.state, busy);
    UntouchedTwice(start, now, handled, busy);
    UntouchedTwice(start, handled, after.state, busy);
    CoreRests(handled, after.state);
  }

  /** `text` is a single line. */
  predicate LineOf(text: Bytes, line: Bytes) { text == line + "\n" && '\n' !in line && StripReturn(line) == line }

  lemma SingleLine(x: Reading, sha: Digest, a: nat, text: Bytes, line: Bytes) returns (now: ClientState)
    requires Timed(x) && LineOf(text, line) && ReadsAt(x, a, text) && AtRest(AtByte(x, sha, a))
    ensures Core(now) == Core(AtByte(x, sha, a).state) && AtRest(Receiver([], now))
    ensures var after := AtByte(x, sha, a + |text|);
            after.buffer == [] && Core(after.state) == Core(ProcessLine(now, sha, line))
  {
    hide Flatten, AtByte, ProcessLine, StripReturn, AtRest, Core;
    LineRead(x, sha, a, line);
    now := AtByte(x, sha, a + |line|).state;
  }

  /** FILE_RESUME_START at the offset the client waits for changes nothing. */
  lemma ResumeStartArrives(x: Reading, sha: Digest, a: nat, d: Delivery, busy: set<nat>)
    requires Timed(x) && ReadsAt(x, a, ResumeStartText(d.transfer, d.start)) && AtRest(AtByte(x, sha, a))
    requires Holds(AtByte(x, sha, a).state, sha, d, d.start) && WithinLimits(d)
    ensures Advances(AtByte(x, sha, a).state, AtByte(x, sha, a + |ResumeStartText(d.transfer, d.start)|), sha, d,
                     At(d.start), busy)
  {
    hide ResumeStartText, Flatten, AtByte, AtRest, Core, Holds, ReadsAt, LineOf, LineKindOf, LineWords, ParseUint64,
         ProcessLine, WithinLimits, Advances, Seen;
    ReadsWithin(x, a, ResumeStartText(d.transfer, d.start));
    var start := AtByte(x, sha, a).state;
    HoldsKey(start, sha, d, d.start);
    var line := ResumeStartIs(d);
    var now := SingleLine(x, sha, a, ResumeStartText(d.transfer, d.start), line);
    CoreHolds(start, now, sha, d, d.start);
    ResumeStartSeen(now, sha, line, d);
    ResumeStartLeaves(start, now, AtByte(x, sha, a + |ResumeStartText(d.transfer, d.start)|), sha, line, d, busy);
  }

  lemma ResumeStartLeaves(start: ClientState, now: ClientState, after: Receiver, sha: Digest, line: Bytes, d: Delivery,
                          busy: set<nat>)
    requires Core(now) == Core(start) && AtRest(Receiver([], now)) && Holds(now, sha, d, d.start)
    requires after.buffer == [] && Core(after.state) == Core(Seen(now, line))
    ensures Advances(start, after, sha, d, At(d.start), busy)
  {
    hide AtRest, Core, Holds, Advances, Has, Untouched;
    SeenRests(now, sha, d, line, busy - {d.transfer});
    SameAfter(start, now, Seen(now, line), after, sha, d, At(d.start), busy);
  }

  lemma ResumeStartIs(d: Delivery) returns (line: Bytes)
    requires WithinLimits(d) && d.start <= |d.content|
    ensures LineOf(ResumeStartText(d.transfer, d.start), line) && LineKindOf(line) == ResumeStartLine
    ensures var words := LineWords(line);
            |words| == 2 && ParseUint64(words[0]) == Some(d.transfer) && ParseUint64(words[1]) == Some(d.start)
  {
    line := FileLines.ResumeStartLine(d.transfer, d.start);
    FileLines.Printed(d.transfer, d.start, 0);
    FileLines.ResumeStartLineParses(d.transfer, d.start);
    hide FileLines.ResumeStartLine, ResumeStartText, LineKindOf, LineWords, ParseUint64;
  }

  /** The client took what the server sent of the delivery, and left the other busy transfers alone. */
  ghost predicate Advances(start: ClientState, after: Receiver, sha: Digest, d: Delivery, t: Trace, busy: set<nat>) {
    AtRest(after) && InStep(after.state, sha, d, t) && Untouched(start, after.state, busy - {d.transfer})
  }

  lemma ResumeStartSeen(st: ClientState, sha: Digest, line: Bytes, d: Delivery)
    requires Holds(st, sha, d, d.start) && LineKindOf(line) == ResumeStartLine
    requires var words := LineWords(line);
             |words| == 2 && ParseUint64(words[0]) == Some(d.transfer) && ParseUint64(words[1]) == Some(d.start)
    ensures ProcessLine(st, sha, line) == Seen(st, line)
  {
    hide LineKindOf, LineWords, ParseUint64;
  }

  /** What the client did, with the user's acts before and after it. */
  lemma SameAfter(start: ClientState, now: ClientState, handled: ClientState, after: Receiver, sha: Digest, d: Delivery,
                  t: Trace, busy: set<nat>)
    requires Core(now) == Core(start) && after.buffer == [] && Core(after.state) == Core(handled)
    requires AtRest(Receiver([], handled)) && InStep(handled, sha, d, t) && Untouched(now, handled, busy - {d.transfer})
    ensures Advances(start, after, sha, d, t, busy)
  {
    hide Core, Untouched, AtRest, InStep, Has;
    var others := busy - {d.transfer};
    CoreRests(handled, after.state);
    assert after == Receiver([], after.state);
    CoreInStep(handled, after.state, sha, d, t);
    CoreUntouched(start, now, others);
    CoreUntouched(handled, after.state, others);
    UntouchedTwice(start, now, handled, others);
    UntouchedTwice(start, handled, after.state, others);
  }

  /** A frame that continues what the client holds is accepted and stored. */
  lemma FrameArrives(x: Reading, sha: Digest, a: nat, d: Delivery, offset: nat, header: Bytes, payload: Bytes,
                     busy: set<nat>)
    requires Timed(x) && x.st.Valid() && ReadsAt(x, a, header + payload) && AtRest(AtByte(x, sha, a))
    requires Holds(AtByte(x, sha, a).state, sha, d, offset) && FrameFits(d, offset, header, payload) && WithinLimits(d)
    ensures Advances(AtByte(x, sha, a).state, AtByte(x, sha, a + |header + payload|), sha, d, At(offset + |payload|),
                     busy)
  {
    hide FrameFits, Flatten, AtByte, AtRest, Core, Holds, LineOf, HandleFrame, ProcessLine, ReadsAt,
         PayloadRejected, TakePayload, ClientState.Valid, Advances, Deliver;
    ReadsWithin(x, a, header + payload);
    var start := AtByte(x, sha, a).state;
    FitsWithin(d, offset, header, payload);
    ReadsSplit(x, a, header, payload);
    var now := HeaderRead(x, sha, a, d, offset, header, payload);
    HoldsKey(now, sha, d, offset);
    FrameHandled(now, sha, d, offset, header, payload);
    PayloadRead(x, sha, a + |header|, now.(binary := BinaryFrame(d.transfer, |payload|)), payload);
    FrameLeaves(start, now, AtByte(x, sha, a + |header + payload|), sha, d, offset, header, payload, busy);
  }

  lemma FrameLeaves(start: ClientState, now: ClientState, after: Receiver, sha: Digest, d: Delivery, offset: nat,
                    header: Bytes, payload: Bytes, busy: set<nat>)
    requires Core(now) == Core(start) && AtRest(Receiver([], now)) && Holds(now, sha, d, offset) && WithinLimits(d)
    requires FrameFits(d, offset, header, payload) && now.Valid() && now.binary.remaining == 0
    requires d.transfer in now.downloads && now.downloads[d.transfer].key in now.parts
    requires after.buffer == [] && Core(after.state) == Core(Deliver(now, d, payload))
    ensures Advances(start, after, sha, d, At(offset + |payload|), busy)
  {
    hide AtRest, Core, Holds, Advances, Has, Untouched, FrameFits, ClientState.Valid;
    DeliveredFrame(now, sha, d, offset, header, payload, busy);
    FrameRests(now, sha, d, offset, header, payload);
    SameAfter(start, now, Deliver(now, d, payload), after, sha, d, At(offset + |payload|), busy);
  }

  lemma FitsWithin(d: Delivery, offset: nat, header: Bytes, payload: Bytes)
    requires FrameFits(d, offset, header, payload)
    ensures 0 < |payload| && offset + |payload| <= |d.content| && header == DataHeader(d.transfer, offset, |payload|)
  {
    hide DataHeader;
  }

  lemma HeaderRead(x: Reading, sha: Digest, a: nat, d: Delivery, offset: nat, header: Bytes, payload: Bytes)
    returns (now: ClientState)
    requires Timed(x) && ReadsAt(x, a, header) && AtRest(AtByte(x, sha, a)) && WithinLimits(d)
    requires Holds(AtByte(x, sha, a).state, sha, d, offset) && FrameFits(d, offset, header, payload)
    ensures Core(now) == Core(AtByte(x, sha, a).state) && AtRest(Receiver([], now)) && Holds(now, sha, d, offset)
    ensures now.Valid() && now.binary.remaining == 0
    ensures var r := AtByte(x, sha, a + |header|);
            r.buffer == [] && Core(r.state) == Core(HandleFrame(now, d.transfer, offset, |payload|))
  {
    FitsWithin(d, offset, header, payload);
    hide FrameFits, Flatten, AtByte, AtRest, Core, Holds, LineOf, HandleFrame, ProcessLine, WithinLimits, DataHeader,
         ReadsAt;
    var t, n := d.transfer, |payload|;
    var line := HeaderIs(d, offset, n);
    now := SingleLine(x, sha, a, header, line);
    CoreHolds(AtByte(x, sha, a).state, now, sha, d, offset);
    RestingFacts(now);
    HeaderHandled(now, sha, t, offset, n);
  }

  lemma HeaderIs(d: Delivery, offset: nat, n: nat) returns (line: Bytes)
    requires WithinLimits(d) && offset + n <= |d.content|
    ensures LineOf(DataHeader(d.transfer, offset, n), line) && line == FileLines.DataLine(d.transfer, offset, n)
  {
    line := FileLines.DataLine(d.transfer, offset, n);
    FileLines.Printed(d.transfer, offset, n);
    FileLines.DataLineParses(d.transfer, offset, n);
    hide FileLines.DataLine, DataHeader;
  }

  lemma RestingFacts(st: ClientState)
    requires AtRest(Receiver([], st))
    ensures st.Valid() && st.binary.remaining == 0
  {
  }

  lemma HoldsKey(st: ClientState, sha: Digest, d: Delivery, offset: nat)
    requires Holds(st, sha, d, offset)
    ensures d.transfer in st.downloads && st.downloads[d.transfer].key in st.parts && offset <= |d.content|
  {
  }

  /** The payload behind a header that was accepted. */
  lemma PayloadRead(x: Reading, sha: Digest, b: nat, waiting: ClientState, payload: Bytes)
    requires Timed(x) && ReadsAt(x, b, payload) && waiting.binary.remaining == |payload| > 0
    requires var r := AtByte(x, sha, b); r.buffer == [] && Core(r.state) == Core(waiting)
    requires !PayloadRejected(waiting, |payload|) && x.st.Valid()
    ensures var after := AtByte(x, sha, b + |payload|);
            after.buffer == [] && Core(after.state) == Core(TakePayload(waiting, payload))
  {
    hide Flatten, PlayTo, Core, ClientState.Valid, PayloadRejected, TakePayload;
    var data, r := Flatten(x.log), AtByte(x, sha, b);
    PlayValid(x.st, sha, data, x.acts, b);
    CoreFields(waiting, r.state);
    PlayPayload(x.st, sha, data, x.acts, b, |payload|);
    CorePayload(waiting, r.state, payload);
  }

  /** FILE_DONE after the last byte completes the file. */
  lemma DoneArrives(x: Reading, sha: Digest, a: nat, d: Delivery, busy: set<nat>)
    requires Timed(x) && ReadsAt(x, a, DoneText(d.transfer)) && AtRest(AtByte(x, sha, a))
    requires Holds(AtByte(x, sha, a).state, sha, d, |d.content|) && WithinLimits(d)
    ensures Advances(AtByte(x, sha, a).state, AtByte(x, sha, a + |DoneText(d.transfer)|), sha, d, Complete, busy)
  {
    hide DoneText, Flatten, AtByte, AtRest, Core, Holds, ReadsAt, LineOf, Has, Untouched, FinishDownload, ProcessLine,
         LineKindOf, LineWords, HandleDone, WithinLimits, ClientState.Valid, Advances, Seen;
    ReadsWithin(x, a, DoneText(d.transfer));
    var start := AtByte(x, sha, a).state;
    var line := DoneIs(d);
    var now := SingleLine(x, sha, a, DoneText(d.transfer), line);
    CoreHolds(start, now, sha, d, |d.content|);
    DoneFinishes(now, sha, line, d);
    DoneLeaves(start, now, AtByte(x, sha, a + |DoneText(d.transfer)|), sha, line, d, busy);
  }

  lemma DoneLeaves(start: ClientState, now: ClientState, after: Receiver, sha: Digest, line: Bytes, d: Delivery,
                   busy: set<nat>)
    requires Core(now) == Core(start) && AtRest(Receiver([], now)) && Holds(now, sha, d, |d.content|)
    requires after.buffer == [] && Core(after.state) == Core(FinishDownload(Seen(now, line), sha, d.transfer))
    ensures Advances(start, after, sha, d, Complete, busy)
  {
    hide AtRest, Core, Holds, Advances, Has, Untouched, FinishDownload, Seen, ClientState.Valid;
    var seen, others := Seen(now, line), busy - {d.transfer};
    SeenHolds(now, sha, d, line, |d.content|, others);
    RestingFacts(seen);
    FinishedHas(seen, sha, d, busy);
    FinishRests(seen, sha, d.transfer);
    UntouchedTwice(now, seen, FinishDownload(seen, sha, d.transfer), others);
    SameAfter(start, now, FinishDownload(seen, sha, d.transfer), after, sha, d, Complete, busy);
  }

  lemma DoneIs(d: Delivery) returns (line: Bytes)
    requires WithinLimits(d)
    ensures LineOf(DoneText(d.transfer), line) && LineKindOf(line) == DoneLine
    ensures forall st, sha :: HandleDone(st, sha, LineWords(line)) == FinishDownload(st, sha, d.transfer)
  {
    line := FileLines.DoneLine(d.transfer);
    FileLines.Printed(d.transfer, 0, 0);
    FileLines.DoneLineParses(d.transfer);
    hide FileLines.DoneLine, DoneText, LineKindOf, LineWords, FinishDownload, HandleDone;
  }

  lemma DoneFinishes(st: ClientState, sha: Digest, line: Bytes, d: Delivery)
    requires LineKindOf(line) == DoneLine
    requires forall st :: HandleDone(st, sha, LineWords(line)) == FinishDownload(st, sha, d.transfer)
    ensures ProcessLine(st, sha, line) == FinishDownload(Seen(st, line), sha, d.transfer)
  {
    hide LineKindOf, LineWords, HandleDone, FinishDownload;
  }

  lemma FinishRests(st: ClientState, sha: Digest, transfer: nat)
    requires AtRest(Receiver([], st))
    ensures AtRest(Receiver([], FinishDownload(st, sha, transfer)))
  {
    hide FinishDownload, ClientState.Valid;
    FinishDownloadValid(st, sha, transfer);
  }

  predicate WithinLimits(d: Delivery) { d.transfer < UINT64_LIMIT && |d.content| <= MAX_FILE_SIZE }

  /** What an item of a delivery does to the client. */
  lemma OwnItem(x: Reading, sha: Digest, a: nat, item: Item, p: nat, d: Delivery, t: Trace, busy: set<nat>)
    requires Timed(x) && x.st.Valid() && ReadsAt(x, a, ItemBytes(item)) && AtRest(AtByte(x, sha, a)) && WithinLimits(d)
    requires OwnerOf(item) == Some(p) && TraceStep(t, item, p, d) != Broken
    requires InStep(AtByte(x, sha, a).state, sha, d, t)
    requires t == Unstarted ==> Holds(AtByte(x, sha, a).state, sha, d, d.start)
    ensures Advances(AtByte(x, sha, a).state, AtByte(x, sha, a + |ItemBytes(item)|), sha, d, TraceStep(t, item, p, d),
                     busy)
  {
    hide DataHeader, ResumeStartText, DoneText, Flatten, AtByte, AtRest, Advances, Holds, Has, FrameFits, ReadsAt,
         ClientState.Valid, WithinLimits;
    match item {
      case Frame(_, header, payload) => FrameArrives(x, sha, a, d, t.offset, header, payload, busy);
      case Message(m) =>
        if m.completion == Some(PumpNext(p)) {
          ResumeStartArrives(x, sha, a, d, busy);
        } else {
          DoneArrives(x, sha, a, d, busy);
        }
    }
  }

  lemma FrameRests(st: ClientState, sha: Digest, d: Delivery, offset: nat, header: Bytes, payload: Bytes)
    requires AtRest(Receiver([], st)) && Holds(st, sha, d, offset) && FrameFits(d, offset, header, payload)
    requires |d.content| <= MAX_FILE_SIZE
    ensures AtRest(Receiver([], Deliver(st, d, payload)))
  {
    hide DataHeader;
    var st' := Deliver(st, d, payload);
    OthersOk(st, st', d.transfer);
    assert st.DownloadOk(d.transfer, st.downloads[d.transfer]);
  }

  lemma SeenHolds(st: ClientState, sha: Digest, d: Delivery, line: Bytes, offset: nat, busy: set<nat>)
    requires AtRest(Receiver([], st)) && Holds(st, sha, d, offset)
    ensures AtRest(Receiver([], Seen(st, line))) && Holds(Seen(st, line), sha, d, offset)
            && Untouched(st, Seen(st, line), busy)
  {
    SameDownloadsValid(st, Seen(st, line));
  }

  lemma SeenRests(st: ClientState, sha: Digest, d: Delivery, line: Bytes, busy: set<nat>)
    requires AtRest(Receiver([], st)) && Holds(st, sha, d, d.start)
    ensures AtRest(Receiver([], Seen(st, line))) && InStep(Seen(st, line), sha, d, At(d.start))
            && Untouched(st, Seen(st, line), busy)
  {
    SeenHolds(st, sha, d, line, d.start, busy);
  }

  // ---- the theorem --------------------------------------------------------------------------

  /** The deliveries followed through a stream: at item `asked[p]` the client waits for the first
      byte of delivery `p`, and from item `over[p]` on the stream holds nothing of it. */
  datatype Plan = Plan(ds: map<nat, Delivery>, asked: map<nat, nat>, over: map<nat, nat>)

  predicate SpanOk(log: seq<Item>, plan: Plan, from: nat, p: nat)
    requires p in plan.ds
  {
    && WithinLimits(plan.ds[p])
    && p in plan.asked && p in plan.over && from <= plan.asked[p] <= plan.over[p] <= |log|
    && TraceOf(log[..plan.asked[p]], p, plan.ds[p]) == Unstarted
    && forall i :: plan.over[p] <= i < |log| ==> OwnerOf(log[i]) != Some(p)
  }

  /** Deliveries of one transfer do not overlap, and from item `from` on every delivery is followed. */
  predicate PlanOk(log: seq<Item>, plan: Plan, from: nat) {
    && from <= |log|
    && (forall p :: p in plan.ds ==> SpanOk(log, plan, from, p))
    && (forall p, q :: p in plan.ds && q in plan.ds && p != q && plan.ds[p].transfer == plan.ds[q].transfer ==>
          plan.over[p] <= plan.asked[q] || plan.over[q] <= plan.asked[p])
    && (forall i :: from <= i < |log| && OwnerOf(log[i]).Some? ==> OwnerOf(log[i]).value in plan.ds)
  }

  /** The stream is, for each delivery, what the server is to send of it. */
  predicate Unbroken(log: seq<Item>, plan: Plan) {
    forall p :: p in plan.ds ==> TraceOf(log, p, plan.ds[p]) != Broken
  }

  predicate Active(plan: Plan, p: nat, i: nat) {
    p in plan.ds && p in plan.asked && p in plan.over && plan.asked[p] <= i < plan.over[p]
  }

  /** The transfers on their way when item `i` is read. */
  function Busy(plan: Plan, i: nat): set<nat> { set p | p in plan.ds && Active(plan, p, i) :: plan.ds[p].transfer }

  predicate AskedFor(x: Reading, sha: Digest, plan: Plan)
    requires Timed(x)
  {
    forall p :: p in plan.ds ==>
      && p in plan.asked && plan.asked[p] <= |x.log|
      && Holds(AtItem(x, sha, plan.asked[p]).state, sha, plan.ds[p], plan.ds[p].start)
  }

  /** Each text leaves alone what is on its way. */
  predicate CalmLog(x: Reading, sha: Digest, plan: Plan, from: nat)
    requires Timed(x)
  {
    forall i :: from <= i < |x.log| && OwnerOf(x.log[i]).None? ==> CalmItem(x, sha, plan, i)
  }

  predicate CalmItem(x: Reading, sha: Digest, plan: Plan, i: nat)
    requires Timed(x) && i < |x.log|
  {
    ItemReads(x, i);
    CalmText(x, sha, Pos(x.log, i), ItemBytes(x.log[i]), Busy(plan, i))
  }

  /** The client is as far with the delivery as the stream is. */
  ghost predicate Follows(st: ClientState, sha: Digest, d: Delivery, t: Trace) {
    InStep(st, sha, d, t) && (t == Unstarted ==> Holds(st, sha, d, d.start))
  }

  ghost predicate FollowsAll(x: Reading, sha: Digest, plan: Plan, n: nat)
    requires Timed(x) && n <= |x.log|
  {
    forall p :: p in plan.ds && p in plan.asked && p in plan.over && plan.asked[p] <= n <= plan.over[p] ==>
      Follows(AtItem(x, sha, n).state, sha, plan.ds[p], TraceOf(x.log[..n], p, plan.ds[p]))
  }

  lemma UntouchedFollows(st: ClientState, st': ClientState, sha: Digest, busy: set<nat>, d: Delivery, t: Trace)
    requires Untouched(st, st', busy) && d.transfer in busy && Follows(st, sha, d, t)
    ensures Follows(st', sha, d, t)
  {
    hide Untouched, Holds, Has;
    UntouchedInStep(st, st', sha, busy, d, t);
    if t == Unstarted {
      UntouchedInStep(st, st', sha, busy, d, At(d.start));
    }
  }

  lemma OthersTrace(log: seq<Item>, n: nat, p: nat, d: Delivery)
    requires n < |log|
    ensures TraceOf(log[..n + 1], p, d) == TraceStep(TraceOf(log[..n], p, d), log[n], p, d)
    ensures OwnerOf(log[n]) != Some(p) ==> TraceOf(log[..n + 1], p, d) == TraceOf(log[..n], p, d)
  {
    hide ResumeStartText, DoneText, FrameFits;
    assert log[..n] + [log[n]] == log[..n + 1];
    TraceAppend(log[..n], log[n], p, d);
  }

  /** A delivery that has not begun at `n` had not begun before, and no item before is its own. */
  lemma {:induction false} NotYetBegun(log: seq<Item>, p: nat, d: Delivery, m: nat, n: nat)
    requires m <= n <= |log| && TraceOf(log[..n], p, d) == Unstarted
    ensures TraceOf(log[..m], p, d) == Unstarted && (m < n ==> OwnerOf(log[m]) != Some(p))
    decreases n
  {
    if m < n {
      hide TraceOf, ResumeStartText, DoneText, FrameFits;
      OthersTrace(log, n - 1, p, d);
      NotYetBegun(log, p, d, m, n - 1);
    } else {
    }
  }

  /** Its own items find a delivery active. */
  lemma OwnerActive(log: seq<Item>, plan: Plan, from: nat, i: nat)
    requires PlanOk(log, plan, from) && from <= i < |log| && OwnerOf(log[i]).Some?
    ensures Active(plan, OwnerOf(log[i]).value, i)
  {
    hide TraceOf, WithinLimits;
    var p := OwnerOf(log[i]).value;
    assert SpanOk(log, plan, from, p);
    if i < plan.asked[p] {
      NotYetBegun(log, p, plan.ds[p], i, plan.asked[p]);
    }
  }

  /** One item: what it does to a delivery that is on its way before and after. */
  lemma ItemFollows(x: Reading, sha: Digest, plan: Plan, from: nat, n: nat, p: nat)
    requires Timed(x) && x.st.Valid() && PlanOk(x.log, plan, from) && CalmLog(x, sha, plan, from)
    requires from <= n < |x.log| && AtRest(AtItem(x, sha, n)) && FollowsAll(x, sha, plan, n)
    requires forall q :: q in plan.ds ==> TraceOf(x.log[..n + 1], q, plan.ds[q]) != Broken
    requires Active(plan, p, n)
    ensures Follows(AtItem(x, sha, n + 1).state, sha, plan.ds[p], TraceOf(x.log[..n + 1], p, plan.ds[p]))
  {
    hide AtItem, PlanOk, CalmItem, AtRest, Follows, TraceOf, ClientState.Valid, Untouched, Busy;
    var d, before, after := plan.ds[p], AtItem(x, sha, n).state, AtItem(x, sha, n + 1).state;
    OthersTrace(x.log, n, p, d);
    if OwnerOf(x.log[n]) == Some(p) {
      OwnStep(x, sha, plan, from, n);
      AdvancedFollows(after, sha, d, TraceOf(x.log[..n], p, d), x.log[n], p);
    } else {
      var busy := ItemLeaves(x, sha, plan, from, n, p);
      UntouchedFollows(before, after, sha, busy, d, TraceOf(x.log[..n], p, d));
    }
  }

  lemma AdvancedFollows(st: ClientState, sha: Digest, d: Delivery, t: Trace, item: Item, p: nat)
    requires OwnerOf(item) == Some(p) && InStep(st, sha, d, TraceStep(t, item, p, d))
    ensures Follows(st, sha, d, TraceStep(t, item, p, d))
  {
    hide InStep, ResumeStartText, DoneText, FrameFits;
  }

  /** An item of a delivery that is followed. */
  lemma OwnStep(x: Reading, sha: Digest, plan: Plan, from: nat, n: nat)
    requires Timed(x) && x.st.Valid() && PlanOk(x.log, plan, from)
    requires from <= n < |x.log| && AtRest(AtItem(x, sha, n)) && FollowsAll(x, sha, plan, n)
    requires forall q :: q in plan.ds ==> TraceOf(x.log[..n + 1], q, plan.ds[q]) != Broken
    requires OwnerOf(x.log[n]).Some?
    ensures var p := OwnerOf(x.log[n]).value;
            && Active(plan, p, n)
            && Advances(AtItem(x, sha, n).state, AtItem(x, sha, n + 1), sha, plan.ds[p],
                        TraceStep(TraceOf(x.log[..n], p, plan.ds[p]), x.log[n], p, plan.ds[p]), Busy(plan, n))
  {
    hide AtByte, AtRest, TraceOf, ClientState.Valid, Advances, Busy, InStep, Holds, WithinLimits, Flatten, ItemBytes;
    var p := OwnerOf(x.log[n]).value;
    OwnerActive(x.log, plan, from, n);
    assert SpanOk(x.log, plan, from, p);
    OthersTrace(x.log, n, p, plan.ds[p]);
    ItemReads(x, n);
    OwnItem(x, sha, Pos(x.log, n), x.log[n], p, plan.ds[p], TraceOf(x.log[..n], p, plan.ds[p]), Busy(plan, n));
  }

  /** An item that is not the delivery's own leaves its transfer alone. */
  lemma ItemLeaves(x: Reading, sha: Digest, plan: Plan, from: nat, n: nat, p: nat) returns (busy: set<nat>)
    requires Timed(x) && x.st.Valid() && PlanOk(x.log, plan, from) && CalmLog(x, sha, plan, from)
    requires from <= n < |x.log| && AtRest(AtItem(x, sha, n)) && FollowsAll(x, sha, plan, n)
    requires forall q :: q in plan.ds ==> TraceOf(x.log[..n + 1], q, plan.ds[q]) != Broken
    requires Active(plan, p, n) && OwnerOf(x.log[n]) != Some(p)
    ensures plan.ds[p].transfer in busy
    ensures Untouched(AtItem(x, sha, n).state, AtItem(x, sha, n + 1).state, busy)
  {
    hide AtItem, CalmItem, AtRest, FollowsAll, TraceOf, ClientState.Valid, Untouched, SpanOk;
    busy := Busy(plan, n);
    if OwnerOf(x.log[n]).None? {
      TextStep(x, sha, plan, n);
    } else {
      OwnStep(x, sha, plan, from, n);
      busy := busy - {plan.ds[OwnerOf(x.log[n]).value].transfer};
    }
  }

  lemma TextStep(x: Reading, sha: Digest, plan: Plan, n: nat)
    requires Timed(x) && n < |x.log| && AtRest(AtItem(x, sha, n)) && CalmItem(x, sha, plan, n)
    ensures AtRest(AtItem(x, sha, n + 1))
    ensures Untouched(AtItem(x, sha, n).state, AtItem(x, sha, n + 1).state, Busy(plan, n))
  {
    hide AtByte, AtRest, CalmText, Untouched, Busy, Flatten, ItemBytes;
    ItemReads(x, n);
    TextArrives(x, sha, Pos(x.log, n), ItemBytes(x.log[n]), Busy(plan, n));
  }

  lemma ItemRests(x: Reading, sha: Digest, plan: Plan, from: nat, n: nat)
    requires Timed(x) && x.st.Valid() && PlanOk(x.log, plan, from) && CalmLog(x, sha, plan, from)
    requires from <= n < |x.log| && AtRest(AtItem(x, sha, n)) && FollowsAll(x, sha, plan, n)
    requires forall q :: q in plan.ds ==> TraceOf(x.log[..n + 1], q, plan.ds[q]) != Broken
    ensures AtRest(AtItem(x, sha, n + 1)) && AtItem(x, sha, n).state.replies <= AtItem(x, sha, n + 1).state.replies
  {
    hide AtItem, PlanOk, CalmItem, AtRest, FollowsAll, TraceOf, ClientState.Valid, Untouched, Busy, InStep;
    var before, after, busy := AtItem(x, sha, n).state, AtItem(x, sha, n + 1).state, Busy(plan, n);
    if OwnerOf(x.log[n]).None? {
      TextStep(x, sha, plan, n);
    } else {
      OwnStep(x, sha, plan, from, n);
      busy := busy - {plan.ds[OwnerOf(x.log[n]).value].transfer};
    }
    UntouchedReplies(before, after, busy);
  }

  lemma UntouchedReplies(st: ClientState, st': ClientState, busy: set<nat>)
    requires Untouched(st, st', busy)
    ensures st.replies <= st'.replies
  {
  }

  /** The download as the identity: a client that reads a connection's stream, whatever its user does
      meanwhile, is with every delivery exactly as far as the stream has got, and refuses no frame.
      A delivery whose FILE_DONE was read has left the stored file and a receipt for it. */
  lemma {:induction false} StreamArrives(x: Reading, sha: Digest, plan: Plan, from: nat, n: nat)
    requires Timed(x) && x.st.Valid() && PlanOk(x.log, plan, from) && Unbroken(x.log, plan)
    requires AskedFor(x, sha, plan) && CalmLog(x, sha, plan, from)
    requires from <= n <= |x.log| && AtRest(AtItem(x, sha, from))
    ensures AtRest(AtItem(x, sha, n)) && FollowsAll(x, sha, plan, n)
    decreases n
  {
    hide AtItem, CalmLog, AtRest, Follows, TraceOf, ClientState.Valid, Holds, WithinLimits;
    if n > from {
      StreamArrives(x, sha, plan, from, n - 1);
      NoneBroken(x.log, plan, n);
      ItemRests(x, sha, plan, from, n - 1);
    } else {
    }
    forall p | p in plan.ds && plan.asked[p] <= n <= plan.over[p]
      ensures Follows(AtItem(x, sha, n).state, sha, plan.ds[p], TraceOf(x.log[..n], p, plan.ds[p]))
    {
      assert SpanOk(x.log, plan, from, p);
      if plan.asked[p] < n {
        ItemFollows(x, sha, plan, from, n - 1, p);
      } else {
        AskedFollows(AtItem(x, sha, n).state, sha, plan.ds[p]);
      }
    }
  }

  /** What the client has said stays said. */
  lemma {:induction false} RepliesGrow(x: Reading, sha: Digest, plan: Plan, from: nat, m: nat, n: nat)
    requires Timed(x) && x.st.Valid() && PlanOk(x.log, plan, from) && Unbroken(x.log, plan)
    requires AskedFor(x, sha, plan) && CalmLog(x, sha, plan, from) && AtRest(AtItem(x, sha, from))
    requires from <= m <= n <= |x.log|
    ensures AtItem(x, sha, m).state.replies <= AtItem(x, sha, n).state.replies
    decreases n
  {
    hide AtItem, PlanOk, CalmLog, AskedFor, AtRest, FollowsAll, TraceOf, ClientState.Valid;
    if m < n {
      RepliesGrow(x, sha, plan, from, m, n - 1);
      StreamArrives(x, sha, plan, from, n - 1);
      NoneBroken(x.log, plan, n);
      ItemRests(x, sha, plan, from, n - 1);
    } else {
    }
  }

  lemma AskedFollows(st: ClientState, sha: Digest, d: Delivery)
    requires Holds(st, sha, d, d.start)
    ensures Follows(st, sha, d, Unstarted)
  {
    hide Holds;
  }

  lemma NoneBroken(log: seq<Item>, plan: Plan, n: nat)
    requires n <= |log| && Unbroken(log, plan)
    ensures forall p :: p in plan.ds ==> TraceOf(log[..n], p, plan.ds[p]) != Broken
  {
    hide TraceOf;
    forall p | p in plan.ds ensures TraceOf(log[..n], p, plan.ds[p]) != Broken {
      NotBrokenBefore(log, p, plan.ds[p], n);
    }
  }

  /** Once a delivery is over, the stream says no more of it. */
  lemma {:induction false} OverTrace(log: seq<Item>, p: nat, d: Delivery, over: nat, n: nat)
    requires over <= n <= |log| && forall i :: over <= i < |log| ==> OwnerOf(log[i]) != Some(p)
    ensures TraceOf(log[..n], p, d) == TraceOf(log[..over], p, d)
    decreases n
  {
    if over < n {
      hide TraceOf;
      OverTrace(log, p, d, over, n - 1);
      OthersTrace(log, n - 1, p, d);
    } else {
    }
  }

  // ---- end to end ---------------------------------------------------------------------------

  function DeliveriesOf(pumps: map<nat, Pump>, files: Files): map<nat, Delivery> {
    map p | p in pumps && pumps[p].transfer in files :: DeliveryOf(pumps[p], files)
  }

  predicate Planned(c: Stream.Conn, files: Files, plan: Plan) {
    forall p :: p in plan.ds ==>
      p in c.pumps && c.pumps[p].transfer in files && plan.ds[p] == DeliveryOf(c.pumps[p], files)
  }

  /** What the phases of the deliveries say about the stream. */
  lemma Traces(c: Stream.Conn, files: Files, plan: Plan)
    requires Stream.Inv(c, files) && c.active.None? && c.landed.None? && Planned(c, files, plan)
    ensures forall p :: p in plan.ds ==>
              var t := TraceOf(c.log, p, plan.ds[p]);
              && t != Broken && (c.pumps[p].phase == Finished(true) ==> t == Complete)
              && (c.pumps[p].phase == Sending ==> t == At(c.pumps[p].offset))
  {
    hide TraceOf, Flatten, Stream.Framing, Stream.Honest, Stream.Ordered;
    var b := Stream.BoardOf(c);
    assert forall p :: p in c.pumps ==> PumpOk(b, files, p) && InFlight(b, p) == 0;
  }

  /** How far a delivery is when it is over. */
  lemma FollowedTo(x: Reading, sha: Digest, plan: Plan, from: nat, p: nat)
    requires Timed(x) && x.st.Valid() && PlanOk(x.log, plan, from) && Unbroken(x.log, plan)
    requires AskedFor(x, sha, plan) && CalmLog(x, sha, plan, from) && AtRest(AtItem(x, sha, from)) && p in plan.ds
    ensures p in plan.over && plan.over[p] <= |x.log|
    ensures InStep(AtItem(x, sha, plan.over[p]).state, sha, plan.ds[p], TraceOf(x.log, p, plan.ds[p]))
  {
    hide AtItem, CalmLog, AskedFor, AtRest, InStep, TraceOf, ClientState.Valid, WithinLimits;
    assert SpanOk(x.log, plan, from, p);
    StreamArrives(x, sha, plan, from, plan.over[p]);
    OverTrace(x.log, p, plan.ds[p], plan.over[p], |x.log|);
    assert x.log[..|x.log|] == x.log;
  }

  lemma AllWritten(c: Stream.Conn, files: Files)
    requires Stream.Inv(c, files) && c.active.None? && c.output == []
    ensures c.wire == Flatten(c.log)
  {
    hide Flatten, Stream.Honest, Stream.Ordered, BoardOk;
    assert c.wire + c.output == c.wire;
  }

  /** A client that gets all a connection has written, in any pieces, with any acts of the user in
      between. */
  ghost function ReadingOf(c: Stream.Conn, files: Files, st: ClientState, inputs: seq<Input>): (x: Reading)
    requires Stream.Inv(c, files) && c.active.None? && c.output == [] && BytesOf(inputs) == c.wire
    ensures Timed(x) && x.st == st && x.log == c.log
  {
    AllWritten(c, files);
    Reading(st, c.log, Schedule(inputs))
  }

  predicate ReceiptFor(x: Reading, sha: Digest, d: Delivery)
    requires Timed(x)
  {
    Received(d.transfer, sha(d.content), d.content) in AtItem(x, sha, |x.log|).state.replies
  }

  /** When the delivery is over, the client has got what was sent of it. */
  ghost predicate Delivered(x: Reading, sha: Digest, plan: Plan, p: nat, pump: Pump)
    requires Timed(x)
  {
    && p in plan.ds && p in plan.over && plan.over[p] <= |x.log|
    && var st := AtItem(x, sha, plan.over[p]).state;
    && (pump.phase == Finished(true) ==> Has(st, sha, plan.ds[p]) && ReceiptFor(x, sha, plan.ds[p]))
    && (pump.phase == Sending ==> Holds(st, sha, plan.ds[p], pump.offset))
  }

  lemma ReceiptStays(x: Reading, sha: Digest, plan: Plan, from: nat, p: nat)
    requires Timed(x) && x.st.Valid() && PlanOk(x.log, plan, from) && Unbroken(x.log, plan)
    requires AskedFor(x, sha, plan) && CalmLog(x, sha, plan, from) && AtRest(AtItem(x, sha, from))
    requires p in plan.ds && p in plan.over && plan.over[p] <= |x.log|
    requires Has(AtItem(x, sha, plan.over[p]).state, sha, plan.ds[p])
    ensures ReceiptFor(x, sha, plan.ds[p])
  {
    hide AtItem, CalmLog, AskedFor, AtRest, TraceOf, ClientState.Valid, WithinLimits;
    assert SpanOk(x.log, plan, from, p);
    RepliesGrow(x, sha, plan, from, plan.over[p], |x.log|);
  }

  /** End to end: when a connection has written everything it accepted and the client has received
      it, nothing was refused, and each delivery has reached the client up to its offset, or
      completely when it is finished. */
  lemma DownloadIdentity(c: Stream.Conn, files: Files, st: ClientState, sha: Digest, inputs: seq<Input>, plan: Plan,
                         from: nat)
    requires Stream.Inv(c, files) && c.active.None? && c.landed.None? && c.output == [] && BytesOf(inputs) == c.wire
    requires st.Valid() && Planned(c, files, plan) && PlanOk(c.log, plan, from)
    requires var x := ReadingOf(c, files, st, inputs);
             AskedFor(x, sha, plan) && CalmLog(x, sha, plan, from) && AtRest(AtItem(x, sha, from))
    ensures var x, r := ReadingOf(c, files, st, inputs), Played(st, sha, inputs);
            && AtRest(r) && r == AtItem(x, sha, |c.log|)
            && forall p :: p in plan.ds ==> Delivered(x, sha, plan, p, c.pumps[p])
  {
    hide Played, AtItem, Flatten, TraceOf, AskedFor, CalmLog, AtRest, Has, Holds, PlanOk, Stream.Inv, Schedule,
         ClientState.Valid, ReceiptFor;
    var x := ReadingOf(c, files, st, inputs);
    Traces(c, files, plan);
    AllRead(c, files, st, sha, inputs);
    PlanFrom(c.log, plan, from);
    StreamArrives(x, sha, plan, from, |c.log|);
    forall p | p in plan.ds ensures Delivered(x, sha, plan, p, c.pumps[p]) {
      FollowedTo(x, sha, plan, from, p);
      if c.pumps[p].phase == Finished(true) {
        ReceiptStays(x, sha, plan, from, p);
      }
    }
  }

  lemma AllRead(c: Stream.Conn, files: Files, st: ClientState, sha: Digest, inputs: seq<Input>)
    requires Stream.Inv(c, files) && c.active.None? && c.output == [] && BytesOf(inputs) == c.wire && st.Valid()
    ensures Played(st, sha, inputs) == AtItem(ReadingOf(c, files, st, inputs), sha, |c.log|)
  {
    hide Played, AtItem, Flatten, Stream.Inv, Schedule, ClientState.Valid, PlayTo;
    AllWritten(c, files);
    PiecesPlay(st, sha, inputs);
    AtEnd(ReadingOf(c, files, st, inputs), sha);
  }

  lemma PlanFrom(log: seq<Item>, plan: Plan, from: nat)
    requires PlanOk(log, plan, from)
    ensures from <= |log|
  {
  }

  lemma AtEnd(x: Reading, sha: Digest)
    requires Timed(x)
    ensures AtItem(x, sha, |x.log|) == PlayTo(x.st, sha, Flatten(x.log), x.acts, |Flatten(x.log)|)
  {
    assert x.log[..|x.log|] == x.log;
  }
}
