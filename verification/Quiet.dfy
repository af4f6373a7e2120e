/** The successful download without assumptions about the client's reactions: each file may be asked
    for at any point of the stream before its delivery begins, and if the server's texts leave the
    transfers alone that are on their way, the client gets the files, whatever its user does. */
module Quiet {
  import opened Text
  import opened Percent
  import opened Wire
  import opened Deliveries
  import Stream
  import opened ClientDemux
  import opened ClientDisk
  import opened Sessions
  import opened Units
  import opened Download
  import opened Play
  import opened Identity
  import FileLines
  import Offers
  import Turns
  import opened Connection

  /** A line that leaves the transfers in `all` alone, whatever the client's state: chat and notice
      lines, PONG, FILE_ACK_OK, offers and revocations of other transfers, but no logout and no
      answer to ENTER_PRIVATE or ENTER_GROUP. */
  predicate QuietLine(line: Bytes, all: set<nat>) {
    var words := LineWords(line);
    match LineKindOf(line)
    case DataLine => false
    case OfferLine => OfferElsewhere(words, all)
    case OtherLine => !IsLogoutLine(line) && !IsEntryOk(line)
    case _ => words == [] || !ParsesTo(words[0], all)
  }

  /** Heartbeats, acknowledged receipts and bracketed lines are quiet. */
  lemma RepliesQuiet(n: nat, all: set<nat>)
    ensures QuietLine(FileLines.PongLine(n), all) && QuietLine(FileLines.AckLine(n), all)
  {
    FileLines.ReplyLines(n);
    FileLines.ReplyStarts(n);
    hide FileLines.PongLine, FileLines.AckLine, LineKindOf, LineWords;
    assert LOGOUT_DONE[0] == '[' && DELETE_DONE[0] == '[' && ENTRY_OK[0] == '[';
  }

  /** A text of quiet lines. */
  predicate QuietText(text: Bytes, all: set<nat>)
    decreases |text|
  {
    text == [] ||
      var n := IndexOf(text, '\n');
      n < |text| && QuietLine(StripReturn(text[..n]), all) && QuietText(text[n + 1..], all)
  }

  lemma QuietCalm(st: ClientState, line: Bytes, all: set<nat>, busy: set<nat>)
    requires QuietLine(line, all) && busy <= all
    ensures Calm(st, line, busy)
  {
    hide LineKindOf, LineWords, ParseOffer, ParseUint64, KeptElsewhere, IsLogoutLine;
  }

  lemma {:induction false} QuietTextCalm(x: Reading, sha: Digest, a: nat, text: Bytes, all: set<nat>)
    requires Timed(x) && a + |text| <= |Flatten(x.log)| && QuietText(text, all)
    ensures CalmText(x, sha, a, text, all)
    decreases |text|
  {
    hide Flatten, AtByte, Calm, QuietLine, StripReturn, IndexOf;
    if text == [] {
    } else {
      var n := IndexOf(text, '\n');
      QuietCalm(AtByte(x, sha, a + n).state, StripReturn(text[..n]), all, all);
      QuietTextCalm(x, sha, a + n + 1, text[n + 1..], all);
    }
  }

  /** Quiet texts are calm, whatever the client's state and whatever its user does. */
  lemma QuietIsCalm(x: Reading, sha: Digest, plan: Plan, from: nat)
    requires Timed(x)
    requires forall i :: from <= i < |x.log| && OwnerOf(x.log[i]).None? ==>
               QuietText(ItemBytes(x.log[i]), Busy(plan, i))
    ensures CalmLog(x, sha, plan, from)
  {
    hide Flatten, CalmText, QuietText, Busy, ItemBytes;
    forall i | from <= i < |x.log| && OwnerOf(x.log[i]).None? ensures CalmItem(x, sha, plan, i) {
      ItemReads(x, i);
      QuietTextCalm(x, sha, Pos(x.log, i), ItemBytes(x.log[i]), Busy(plan, i));
    }
  }

  // ---- how a file is asked for --------------------------------------------------------------

  /** The client has a download of the transfer, under a true offer, and waits for byte `start`. */
  predicate Waits(st: ClientState, sha: Digest, store: Store, transfer: nat, start: nat)
    requires transfer in store
  {
    && transfer in st.downloads && st.downloads[transfer].received == start
    && st.downloads[transfer].offer.size == |store[transfer]|
    && st.downloads[transfer].offer.digest == sha(store[transfer])
  }

  lemma WaitsHolds(st: ClientState, sha: Digest, store: Store, transfer: nat, start: nat)
    requires st.Valid() && PartsOk(store, st.parts) && transfer in store && Waits(st, sha, store, transfer, start)
    ensures Holds(st, sha, Delivery(transfer, start, store[transfer]), start)
  {
    assert st.DownloadOk(transfer, st.downloads[transfer]);
  }

  /** A true offer that is taken up either finds the file already there and is answered with a
      receipt, or is answered with FILE_RESUME_REQUEST for exactly the byte the client waits for. */
  lemma OfferAsks(st: ClientState, sha: Digest, store: Store, transfer: nat, offer: Offer)
    requires PartsOk(store, st.parts) && FinalsOk(store, st.finals) && transfer in store
    requires offer.size == |store[transfer]| && offer.digest == sha(store[transfer])
    ensures var st', n := StartDownload(st, sha, transfer, offer), |st.replies|;
            && |st'.replies| == n + 1 && PartsOk(store, st'.parts)
            && if PartKey(st.account, transfer, offer) in st.finals
               then st'.replies[n] == Received(transfer, sha(store[transfer]), store[transfer])
               else && st'.replies[n] == ResumeRequest(transfer, |SavedBytes(st, st.account, transfer, offer)|)
                    && Waits(st', sha, store, transfer, st'.replies[n].offset)
  {
    PreparedParts(store, st, transfer, offer);
    DownloadResumes(st, sha, transfer, offer);
    hide PreparePart, PartsOk, SavedBytes;
  }

  /** Lines that take a fresh client to a file: an answer to LOGIN, a confirmed entry into `chat`, and
      an offer of that chat. */
  predicate Opens(login: Bytes, chat: Chat, entry: Bytes, offered: Bytes, transfer: nat, offer: Offer) {
    && '\n' !in login && '\n' !in entry && '\n' !in offered
    && IsLoginLine(StripReturn(login)) && chat != NoChat
    && IsEntryOk(StripReturn(entry))
    && (var words := EntryWords(StripReturn(entry)); |words| == 2 && ScopeChat(words[0], words[1]) == chat)
    && LineKindOf(StripReturn(offered)) == OfferLine
    && var words := LineWords(StripReturn(offered));
       OfferChat(words) == Some(chat) && ParseOffer(words) == Some(ParsedOffer(transfer, offer))
  }

  /** What happens at the start of a session: the user logs in and asks for a chat. */
  function Opening(name: Bytes, login: Bytes, chat: Chat, entry: Bytes, offered: Bytes): seq<Input> {
    [Input.User(AskLogin(name)), Data(login + "\n"), Input.User(AskEntry(chat)), Data(entry + "\n"),
     Data(offered + "\n")]
  }

  /** The answer to LOGIN is no other answer. */
  lemma LoginOnly(line: Bytes)
    requires IsLoginLine(line)
    ensures line != [] && line[0] == '[' && !IsLogoutLine(line) && !IsDeletedLine(line)
    ensures !IsEntryOk(line) && !IsEntryError(line)
  {
    assert "[system] login successful."[9] == 'l' && "[system] login successful."[12] == 'i';
    assert "[system] logout successful."[9] == 'l' && "[system] logout successful."[12] == 'o';
    assert "[system] account deleted successfully."[9] == 'a';
    assert LOGIN_DONE[9] == '\U{E7}' && LOGOUT_DONE[9] == '\U{E9}' && DELETE_DONE[9] == '\U{E8}';
    assert line[1] == 's' && ENTRY_OK[1] == 'c' && ENTRY_ERROR[1] == 'c';
  }

  lemma LoggedIn(st: ClientState, sha: Digest, line: Bytes)
    requires IsLoginLine(line) && st.pendingLogin != ""
    ensures ProcessLine(st, sha, line) == Seen(st, line).(account := st.pendingLogin, pendingLogin := "")
  {
    hide LineKindOf, IsLoginLine, IsLoginError, IsLogoutLine, IsDeletedLine, IsEntryOk, IsEntryError;
    LoginOnly(line);
    BracketLine(line);
  }

  lemma EnteredChat(st: ClientState, sha: Digest, line: Bytes, chat: Chat)
    requires chat != NoChat && IsEntryOk(line) && st.pendingEntry == chat && chat !in st.offers
    requires var words := EntryWords(line); |words| == 2 && ScopeChat(words[0], words[1]) == chat
    ensures ProcessLine(st, sha, line) == Seen(st, line).(chat := chat, pendingEntry := NoChat)
  {
    assert line[0] == ENTRY_OK[0];
    BracketLine(line);
    hide LineKindOf, IsEntryOk, EntryWords, ScopeChat;
    assert st.offers - {chat} == st.offers;
  }

  lemma OfferTaken(st: ClientState, sha: Digest, line: Bytes, transfer: nat, offer: Offer)
    requires LineKindOf(line) == OfferLine && OfferChat(LineWords(line)) == Some(st.chat) && st.account != ""
    requires ParseOffer(LineWords(line)) == Some(ParsedOffer(transfer, offer))
    ensures ProcessLine(st, sha, line) == StartDownload(Seen(st, line), sha, transfer, offer)
  {
    hide LineKindOf, LineWords, OfferChat, ParseOffer, StartDownload;
  }

  /** The client after the opening. */
  function Opened(disk: ClientState, sha: Digest, name: Bytes, login: Bytes, chat: Chat, entry: Bytes, offered: Bytes,
                  transfer: nat, offer: Offer): ClientState {
    var entered := Seen(Seen(Restart(disk), StripReturn(login)), StripReturn(entry)).(account := name, chat := chat);
    StartDownload(Seen(entered, StripReturn(offered)), sha, transfer, offer)
  }

  lemma OpeningPlayed(disk: ClientState, sha: Digest, name: Bytes, login: Bytes, chat: Chat, entry: Bytes,
                      offered: Bytes, transfer: nat, offer: Offer)
    requires name != "" && Opens(login, chat, entry, offered, transfer, offer)
    ensures Played(Restart(disk), sha, Opening(name, login, chat, entry, offered))
            == Receiver([], Opened(disk, sha, name, login, chat, entry, offered, transfer, offer))
  {
    hide StripReturn, Feed, IsLoginLine, IsEntryOk, EntryWords, LineKindOf, LineWords, OfferChat, ParseOffer,
         StartDownload, ProcessLine;
    assert Played(Restart(disk), sha, []) == Receiver([], Restart(disk));
    hide Played;
    var inputs := Opening(name, login, chat, entry, offered);
    var asking := Restart(disk).(pendingLogin := name);
    var logged := Seen(Restart(disk), StripReturn(login)).(account := name);
    var entered := Seen(logged, StripReturn(entry)).(chat := chat);
    assert inputs[..1] == [] + [inputs[0]] && inputs[..2] == inputs[..1] + [inputs[1]];
    assert inputs[..3] == inputs[..2] + [inputs[2]] && inputs[..4] == inputs[..3] + [inputs[3]];
    assert inputs == inputs[..4] + [inputs[4]];
    PlayedAct(Restart(disk), sha, [], AskLogin(name));
    assert Played(Restart(disk), sha, inputs[..1]) == Receiver([], asking);
    FeedLine(asking, sha, login);
    LoggedIn(asking, sha, StripReturn(login));
    PlayedData(Restart(disk), sha, inputs[..1], login + "\n");
    assert Played(Restart(disk), sha, inputs[..2]) == Receiver([], logged);
    PlayedAct(Restart(disk), sha, inputs[..2], AskEntry(chat));
    assert Played(Restart(disk), sha, inputs[..3]) == Receiver([], logged.(pendingEntry := chat));
    FeedLine(logged.(pendingEntry := chat), sha, entry);
    EnteredChat(logged.(pendingEntry := chat), sha, StripReturn(entry), chat);
    PlayedData(Restart(disk), sha, inputs[..3], entry + "\n");
    assert Played(Restart(disk), sha, inputs[..4]) == Receiver([], entered);
    FeedLine(entered, sha, offered);
    OfferTaken(entered, sha, StripReturn(offered), transfer, offer);
    PlayedData(Restart(disk), sha, inputs[..4], offered + "\n");
  }

  /** From a fresh client: whatever files its disk holds, once the user has logged in and entered the
      chat, a true offer there is answered with a receipt, or with FILE_RESUME_REQUEST for exactly
      the byte the client waits for: the first one that is not on its disk. */
  lemma FromRestart(x: Reading, sha: Digest, store: Store, disk: ClientState, name: Bytes, login: Bytes, chat: Chat,
                    entry: Bytes, offered: Bytes, transfer: nat, offer: Offer, more: seq<Input>, n: nat)
    requires var opening := Opening(name, login, chat, entry, offered);
             && x.st == Restart(disk) && Flatten(x.log) == BytesOf(opening + more) && x.acts == Schedule(opening + more)
             && n <= |x.log| && Flatten(x.log[..n]) == BytesOf(opening)
    requires name != "" && Opens(login, chat, entry, offered, transfer, offer)
    requires PartsOk(store, disk.parts) && FinalsOk(store, disk.finals) && transfer in store
    requires offer.size == |store[transfer]| && offer.digest == sha(store[transfer])
    ensures Timed(x) && AtRest(AtItem(x, sha, n))
    ensures var st := AtItem(x, sha, n).state;
            && PartsOk(store, st.parts) && |st.replies| == 1
            && if PartKey(name, transfer, offer) in disk.finals
               then st.replies[0] == Received(transfer, sha(store[transfer]), store[transfer])
               else && st.replies[0] == ResumeRequest(transfer, |SavedBytes(disk, name, transfer, offer)|)
                    && Waits(st, sha, store, transfer, st.replies[0].offset)
  {
    hide BytesOf, Schedule, Played, PlayTo, Flatten, Opens, PartsOk, FinalsOk, Opened, ClientState.Valid, Core, Restart;
    var opening := Opening(name, login, chat, entry, offered);
    hide Opening;
    FreshValid(disk);
    OpeningPlayed(disk, sha, name, login, chat, entry, offered, transfer, offer);
    PlayedThen(x.st, sha, opening, more);
    var st := AtItem(x, sha, n).state;
    OpenedWaits(disk, sha, store, name, login, chat, entry, offered, transfer, offer);
    var there := Opened(disk, sha, name, login, chat, entry, offered, transfer, offer);
    CoreFields(there, st);
    CoreRests(there, st);
    assert AtItem(x, sha, n) == Receiver([], st);
  }

  lemma FreshValid(disk: ClientState)
    ensures Restart(disk).Valid()
  {
  }

  lemma OpenedWaits(disk: ClientState, sha: Digest, store: Store, name: Bytes, login: Bytes, chat: Chat, entry: Bytes,
                    offered: Bytes, transfer: nat, offer: Offer)
    requires Opens(login, chat, entry, offered, transfer, offer)
    requires PartsOk(store, disk.parts) && FinalsOk(store, disk.finals) && transfer in store
    requires offer.size == |store[transfer]| && offer.digest == sha(store[transfer])
    ensures var st := Opened(disk, sha, name, login, chat, entry, offered, transfer, offer);
            && AtRest(Receiver([], st)) && PartsOk(store, st.parts) && |st.replies| == 1
            && if PartKey(name, transfer, offer) in disk.finals
               then st.replies[0] == Received(transfer, sha(store[transfer]), store[transfer])
               else && st.replies[0] == ResumeRequest(transfer, |SavedBytes(disk, name, transfer, offer)|)
                    && Waits(st, sha, store, transfer, st.replies[0].offset)
  {
    OpenedSize(login, chat, entry, offered, transfer, offer);
    hide StripReturn, StartDownload, Opens, PartsOk, FinalsOk, Waits;
    var entered := Seen(Seen(Restart(disk), StripReturn(login)), StripReturn(entry)).(account := name, chat := chat);
    var ready := Seen(entered, StripReturn(offered));
    StartDownloadValid(ready, sha, transfer, offer);
    assert SavedBytes(ready, name, transfer, offer) == SavedBytes(disk, name, transfer, offer);
    hide SavedBytes;
    OfferAsks(ready, sha, store, transfer, offer);
  }

  lemma OpenedSize(login: Bytes, chat: Chat, entry: Bytes, offered: Bytes, transfer: nat, offer: Offer)
    requires Opens(login, chat, entry, offered, transfer, offer)
    ensures offer.size <= MAX_FILE_SIZE
  {
    hide StripReturn, IsLoginLine, IsEntryOk, EntryWords, LineKindOf, LineWords, OfferChat;
  }

  /** The chat in which the server offers a file. */
  function ChatOf(offer: Offer): Chat {
    if offer.scope == "PRIVATE" then PrivateChat(offer.sender) else GroupChat(offer.group)
  }

  function EntryLine(offer: Offer): Bytes {
    ENTRY_OK + (offer.scope + " " + if offer.scope == "PRIVATE" then offer.sender else offer.group)
  }

  /** The lines the server prints are such an opening. */
  lemma ServerOpens(welcome: Bytes, transfer: nat, offer: Offer)
    requires Offers.Printable(transfer, offer) && '\n' !in welcome && '\r' !in welcome
    requires offer.scope == "GROUP" ==> IsWord(offer.group) && offer.group != "-"
    ensures var offered := Offers.OfferLine(transfer, offer);
            && ParseOffer(LineWords(offered)).Some?
            && Opens(LOGIN_DONE + welcome, ChatOf(offer), EntryLine(offer), offered, transfer,
                     ParseOffer(LineWords(offered)).value.offer)
  {
    var offered := Offers.OfferLine(transfer, offer);
    hide Offers.OfferLine, LineKindOf, LineWords, ParseOffer, OfferChat, EntryLine, EntryWords, IsEntryOk, StripReturn,
         IsLoginLine;
    OfferRead(transfer, offer);
    EntryRead(offer);
    LoginRead(welcome);
  }

  lemma LoginRead(welcome: Bytes)
    requires '\n' !in welcome && '\r' !in welcome
    ensures var line := LOGIN_DONE + welcome; '\n' !in line && StripReturn(line) == line && IsLoginLine(line)
  {
    assert '\n' !in LOGIN_DONE && '\r' !in LOGIN_DONE;
    EndsAsIs(LOGIN_DONE, welcome);
  }

  lemma EndsAsIs(a: Bytes, b: Bytes)
    requires '\n' !in a && '\r' !in a && '\n' !in b && '\r' !in b
    ensures '\n' !in a + b && StripReturn(a + b) == a + b
  {
  }

  lemma OfferRead(transfer: nat, offer: Offer)
    requires Offers.Printable(transfer, offer) && (offer.scope == "GROUP" ==> offer.group != "-")
    ensures var offered := Offers.OfferLine(transfer, offer);
            && '\n' !in offered && StripReturn(offered) == offered && LineKindOf(offered) == OfferLine
            && OfferChat(LineWords(offered)) == Some(ChatOf(offer))
            && ParseOffer(LineWords(offered)).Some? && ParseOffer(LineWords(offered)).value.transfer == transfer
  {
    hide LineKindOf, LineWords, ParseOffer, OfferChat, Offers.OfferWords, Offers.JoinWords, FileLines.Tight,
         StripReturn;
    Offers.OfferRoundTrip(transfer, offer);
    Offers.OfferLineWords(transfer, offer);
    Offers.OfferWordsAreWords(transfer, offer);
    OfferedIn(transfer, offer);
    assert IsUpperWord("FILE_OFFER");
    Offers.CommandLineWords("FILE_OFFER", Offers.OfferWords(transfer, offer));
    TightLine(Offers.OfferLine(transfer, offer));
  }

  lemma OfferedIn(transfer: nat, offer: Offer)
    requires Offers.Printable(transfer, offer) && (offer.scope == "GROUP" ==> offer.group != "-")
    ensures OfferChat(Offers.OfferWords(transfer, offer)) == Some(ChatOf(offer))
  {
    hide ToDecimal, Encode, DecodeToken, IsSha256Hex, IsBytes;
    Offers.TokenRead(offer.group);
  }

  lemma TightLine(line: Bytes)
    requires FileLines.Tight(line)
    ensures '\n' !in line && StripReturn(line) == line
  {
  }

  lemma EntryRead(offer: Offer)
    requires offer.scope == "PRIVATE" || offer.scope == "GROUP"
    requires IsWord(if offer.scope == "PRIVATE" then offer.sender else offer.group)
    ensures var line := EntryLine(offer);
            && '\n' !in line && StripReturn(line) == line && IsEntryOk(line)
            && EntryWords(line) == [offer.scope, if offer.scope == "PRIVATE" then offer.sender else offer.group]
  {
    hide StripReturn, SplitWords;
    assert '\n' !in ENTRY_OK;
    assert IsWord(offer.scope);
    PrefixedWords(ENTRY_OK, offer.scope, if offer.scope == "PRIVATE" then offer.sender else offer.group);
  }

  lemma PrefixedWords(prefix: Bytes, scope: Bytes, target: Bytes)
    requires '\n' !in prefix && IsWord(scope) && IsWord(target)
    ensures var line := prefix + (scope + " " + target);
            && '\n' !in line && StripReturn(line) == line && prefix <= line
            && SplitWords(line[|prefix|..]) == [scope, target]
  {
    SplitLastWord(target);
    SplitFirstWord(scope, target);
    hide SplitWords;
    var words := scope + " " + target;
    var line := prefix + words;
    assert line[|prefix|..] == words && line[|line| - 1] == target[|target| - 1];
    assert !IsSpace(target[|target| - 1]);
    assert forall i :: 0 <= i < |target| ==> !IsSpace(target[i]);
    assert forall i :: 0 <= i < |scope| ==> !IsSpace(scope[i]);
  }

  // ---- the theorem --------------------------------------------------------------------------

  /** Nothing waits any more, neither in the connection nor in the event loop. */
  ghost predicate Idle(t: TcpConnection)
    reads t
  {
    && t.Valid() && t.state == Connected && t.handshakeComplete
    && t.functors == [] && t.outputBuffer == [] && t.activeFileSend.None?
  }

  /** From item `from` on, each delivery that is followed begins only after the client has asked for it,
      with a true disk and under a true offer, and the texts leave alone what is on its way. */
  ghost predicate AskedInTime(t: TcpConnection, st: ClientState, sha: Digest, inputs: seq<Input>, plan: Plan, from: nat)
    requires Idle(t) && BytesOf(inputs) == t.wire
    reads t
  {
    var x := ReadingOf(t.Abs(), t.files, st, inputs);
    && Planned(t.Abs(), t.files, plan) && PlanOk(t.log, plan, from) && AtRest(AtItem(x, sha, from))
    && CalmLog(x, sha, plan, from)
    && forall p :: p in plan.ds ==>
         var st' := AtItem(x, sha, plan.asked[p]).state;
         PartsOk(t.files, st'.parts) && Waits(st', sha, t.files, plan.ds[p].transfer, plan.ds[p].start)
  }

  lemma AtItemValid(x: Reading, sha: Digest, i: nat)
    requires Timed(x) && x.st.Valid() && i <= |x.log|
    ensures AtItem(x, sha, i).state.Valid()
  {
    hide ClientState.Valid, PlayTo, Flatten;
    PlayValid(x.st, sha, Flatten(x.log), x.acts, Pos(x.log, i));
  }

  /** What was asked for in time is held in time. */
  lemma HeldInTime(t: TcpConnection, st: ClientState, sha: Digest, inputs: seq<Input>, plan: Plan, from: nat)
    requires Idle(t) && BytesOf(inputs) == t.wire && st.Valid() && AskedInTime(t, st, sha, inputs, plan, from)
    ensures AskedFor(ReadingOf(t.Abs(), t.files, st, inputs), sha, plan)
  {
    hide AtItem, Holds, PartsOk, Waits, ClientState.Valid, Stream.Inv, CalmLog, AtRest, TraceOf, WithinLimits, BytesOf,
         ReadingOf;
    var x := ReadingOf(t.Abs(), t.files, st, inputs);
    forall p | p in plan.ds ensures Holds(AtItem(x, sha, plan.asked[p]).state, sha, plan.ds[p], plan.ds[p].start) {
      assert SpanOk(t.log, plan, from, p);
      AtItemValid(x, sha, plan.asked[p]);
      WaitsHolds(AtItem(x, sha, plan.asked[p]).state, sha, t.files, plan.ds[p].transfer, plan.ds[p].start);
    }
  }

  lemma KnownTransfers(c: Stream.Conn, files: Files)
    requires Stream.Inv(c, files)
    ensures forall p :: p in c.pumps ==> c.pumps[p].transfer in files
  {
    hide TraceOf, Flatten, Stream.Framing, Stream.Honest, Stream.Ordered;
    assert forall p :: p in c.pumps ==> PumpOk(Stream.BoardOf(c), files, p);
  }

  /** A delivery that is not followed sends nothing from item `from` on. */
  lemma NotFollowed(log: seq<Item>, plan: Plan, from: nat, p: nat, d: Delivery)
    requires PlanOk(log, plan, from) && p !in plan.ds
    ensures from <= |log| && TraceOf(log[..from], p, d) == TraceOf(log, p, d)
  {
    hide TraceOf, SpanOk;
    OverTrace(log, p, d, from, |log|);
    assert log[..|log|] == log;
  }

  /** End to end, from the state of the connection and the texts it was given: once it has nothing
      left to do and what it wrote has arrived, in any pieces and with any acts of the user in between,
      each delivery that was not cancelled, and not complete before item `from`, is a file on the
      client, equal to the stored one, and the client has sent a receipt for it. */
  lemma EveryFileArrives(t: TcpConnection, st: ClientState, sha: Digest, inputs: seq<Input>, plan: Plan, from: nat)
    requires Idle(t) && st.Valid() && BytesOf(inputs) == t.wire && AskedInTime(t, st, sha, inputs, plan, from)
    ensures var x, r := ReadingOf(t.Abs(), t.files, st, inputs), Played(st, sha, inputs);
            && AtRest(r) && r == AtItem(x, sha, |t.log|)
            && forall p :: p in t.pumps && !t.pumps[p].cancelled ==>
                 && t.pumps[p].transfer in t.files && t.pumps[p].calls == 1
                 && var d := DeliveryOf(t.pumps[p], t.files);
                 && (p !in plan.ds ==> TraceOf(t.log[..from], p, d) == Complete)
                 && (p in plan.ds ==> Has(AtItem(x, sha, plan.over[p]).state, sha, d)
                                      && Received(d.transfer, sha(d.content), d.content) in r.state.replies)
  {
    hide Played, AtItem, AtRest, Has, Stream.Inv, Stream.BoardOf, Turns.AllMove, TraceOf, Flatten, PlanOk, AskedFor,
         CalmLog, Waits, PartsOk, ClientState.Valid, BytesOf, ReadingOf;
    var c := t.Abs();
    HeldInTime(t, st, sha, inputs, plan, from);
    KnownTransfers(c, t.files);
    DownloadIdentity(c, t.files, st, sha, inputs, plan, from);
    Turns.IdleMeansOver(c, t.files);
    PlanFrom(t.log, plan, from);
    Traces(c, t.files, Plan(DeliveriesOf(t.pumps, t.files), map[], map[]));
    forall p | p in t.pumps && !t.pumps[p].cancelled && p !in plan.ds
      ensures TraceOf(t.log[..from], p, DeliveryOf(t.pumps[p], t.files)) == Complete
    {
      NotFollowed(t.log, plan, from, p, DeliveryOf(t.pumps[p], t.files));
    }
  }
}
