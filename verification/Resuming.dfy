/** Interrupted downloads: the record of a download goes with its .part file in every reachable state,
    so whatever was received before a connection was lost is not asked for again. */
module Resuming {
  import opened Text
  import opened Percent
  import opened Wire
  import opened ClientDemux
  import opened ClientDisk
  import opened Sessions
  import Download
  import opened Play
  import opened Identity
  import opened Quiet

  /** The download's record says what was offered, under the account its .part file belongs to. */
  predicate RecordOk(st: ClientState, t: nat)
    requires t in st.downloads
  {
    var download := st.downloads[t];
    && download.key == PartKey(download.key.account, t, download.offer) && download.key.account != ""
    && (download.key.account, t) in st.partials && st.partials[(download.key.account, t)] == download.offer
  }

  ghost predicate Recorded(st: ClientState) { forall t :: t in st.downloads ==> RecordOk(st, t) }

  /** Downloads that stay keep their records. */
  ghost predicate RecordsKept(st: ClientState, st': ClientState) {
    forall t :: t in st'.downloads ==>
      && t in st.downloads
      && st'.downloads[t].key == st.downloads[t].key && st'.downloads[t].offer == st.downloads[t].offer
      && forall account :: (account, t) in st.partials ==>
           (account, t) in st'.partials && st'.partials[(account, t)] == st.partials[(account, t)]
  }

  lemma KeptRecorded(st: ClientState, st': ClientState)
    requires Recorded(st) && RecordsKept(st, st')
    ensures Recorded(st')
  {
    forall t | t in st'.downloads ensures RecordOk(st', t) {
      assert RecordOk(st, t);
    }
  }

  lemma StartRecorded(st: ClientState, sha: Digest, transfer: nat, offer: Offer)
    requires Recorded(st) && st.account != ""
    ensures Recorded(StartDownload(st, sha, transfer, offer))
  {
    DownloadResumes(st, sha, transfer, offer);
    var st' := StartDownload(st, sha, transfer, offer);
    hide StartDownload, SavedBytes, Finished;
    forall t | t in st'.downloads ensures RecordOk(st', t) {
      assert t in st.downloads ==> RecordOk(st, t);
    }
  }

  lemma OfferRecorded(st: ClientState, sha: Digest, line: Bytes, words: seq<Bytes>)
    requires Recorded(st)
    ensures Recorded(HandleOffer(st, sha, line, words))
  {
    hide ParseOffer, OfferChat, StartDownload;
    if ParseOffer(words).Some? && st.account != "" {
      StartRecorded(st, sha, ParseOffer(words).value.transfer, ParseOffer(words).value.offer);
    }
    forall st': ClientState | st'.downloads == st.downloads && st'.partials == st.partials ensures Recorded(st') {
      KeptRecorded(st, st');
    }
  }

  lemma {:induction false} OffersRecorded(st: ClientState, sha: Digest, lines: seq<Bytes>)
    requires Recorded(st)
    ensures Recorded(HandleOffers(st, sha, lines))
    decreases |lines|
  {
    hide HandleOffer, LineWords, Recorded;
    if lines == [] {
    } else {
      OfferRecorded(st, sha, lines[0], LineWords(lines[0]));
      OffersRecorded(HandleOffer(st, sha, lines[0], LineWords(lines[0])), sha, lines[1..]);
    }
  }

  lemma EntryRecorded(st: ClientState, sha: Digest, line: Bytes)
    requires Recorded(st)
    ensures Recorded(HandleEntryLine(st, sha, line))
  {
    hide HandleOffers, IsEntryOk, IsEntryError, EntryWords, EntryErrorWords, ScopeChat, SameScope, Recorded;
    forall st': ClientState | st'.downloads == st.downloads && st'.partials == st.partials ensures Recorded(st') {
      SameRecorded(st, st');
    }
    if IsEntryOk(line) && |EntryWords(line)| == 2 {
      var chat := ScopeChat(EntryWords(line)[0], EntryWords(line)[1]);
      OffersRecorded(st.(pendingEntry := NoChat, chat := chat, offers := st.offers - {chat}), sha,
        if chat in st.offers then st.offers[chat] else []);
    }
  }

  lemma SameRecorded(st: ClientState, st': ClientState)
    requires Recorded(st) && st'.downloads == st.downloads && st'.partials == st.partials
    ensures Recorded(st')
  {
    KeptRecorded(st, st');
  }

  lemma SystemRecorded(st: ClientState, line: Bytes)
    requires Recorded(st)
    ensures Recorded(HandleSystemLine(st, line))
  {
    DeletedIsLogout(line);
    hide IsLoginLine, IsLoginError, IsLogoutLine, IsDeletedLine, ForgetAccount;
    KeptRecorded(st, HandleSystemLine(st, line));
  }

  lemma DeletedIsLogout(line: Bytes)
    ensures IsDeletedLine(line) ==> IsLogoutLine(line)
  {
  }

  /** One download less, and perhaps its record. */
  lemma DroppedRecorded(st: ClientState, st': ClientState, transfer: nat)
    requires Recorded(st) && st'.downloads == st.downloads - {transfer}
    requires st'.partials == st.partials || st'.partials == st.partials - {(st.account, transfer)}
    ensures Recorded(st')
  {
    KeptRecorded(st, st');
  }

  lemma DoneRecorded(st: ClientState, sha: Digest, words: seq<Bytes>)
    requires Recorded(st)
    ensures Recorded(HandleDone(st, sha, words))
  {
    hide ParseUint64, Recorded;
    if |words| == 1 && ParseUint64(words[0]).Some? && ParseUint64(words[0]).value in st.downloads {
      DroppedRecorded(st, HandleDone(st, sha, words), ParseUint64(words[0]).value);
    }
  }

  lemma RevokedRecorded(st: ClientState, words: seq<Bytes>)
    requires Recorded(st)
    ensures Recorded(HandleRevoked(st, words))
  {
    hide ParseUint64, Recorded;
    if words != [] && ParseUint64(words[0]).Some? {
      RevokeRecorded(st, ParseUint64(words[0]).value);
    }
  }

  lemma RevokeRecorded(st: ClientState, transfer: nat)
    requires Recorded(st)
    ensures Recorded(Revoke(st, transfer))
  {
    hide DropOffers, Recorded;
    if transfer in st.downloads {
      DroppedRecorded(st, Revoke(st, transfer), transfer);
    } else {
      SameRecorded(st, Revoke(st, transfer));
    }
  }

  lemma ResumeStartRecorded(st: ClientState, words: seq<Bytes>)
    requires Recorded(st)
    ensures Recorded(HandleResumeStart(st, words))
  {
    hide ParseUint64, Recorded;
    if |words| == 2 && ParseUint64(words[0]).Some? {
      var t := ParseUint64(words[0]).value;
      DroppedRecorded(st, Erase(st, t).(replies := st.replies + [ReceiveFailed(t)]), t);
    }
  }

  lemma DataRecorded(st: ClientState, words: seq<Bytes>)
    requires Recorded(st)
    ensures Recorded(HandleData(st, words))
  {
    hide ParseUint64, HandleFrame, Recorded;
    SameRecorded(st, st.(refused := true));
    if |words| == 3 && ParseUint64(words[0]).Some? && ParseUint64(words[1]).Some? && ParseUint64(words[2]).Some? {
      FrameRecorded(st, ParseUint64(words[0]).value, ParseUint64(words[1]).value, ParseUint64(words[2]).value);
    }
  }

  lemma FrameRecorded(st: ClientState, transfer: nat, offset: nat, count: nat)
    requires Recorded(st)
    ensures Recorded(HandleFrame(st, transfer, offset, count))
  {
    hide FrameAccepted, Recorded;
    var st' := HandleFrame(st, transfer, offset, count);
    if st'.downloads == st.downloads {
      SameRecorded(st, st');
    } else {
      DroppedRecorded(st, st', transfer);
    }
  }

  lemma LineRecorded(st: ClientState, sha: Digest, line: Bytes)
    requires Recorded(st)
    ensures Recorded(ProcessLine(st, sha, line))
  {
    hide Recorded, LineKindOf, LineWords, HandleData, HandleOffer, HandleResumeStart, HandleDone, HandleRevoked,
         HandleEntryLine, HandleSystemLine, IsEntryOk, IsEntryError;
    SameRecorded(st, Seen(st, line));
    match LineKindOf(line) {
      case DataLine => DataRecorded(st, LineWords(line));
      case OfferLine => OfferRecorded(Seen(st, line), sha, line, LineWords(line));
      case ResumeStartLine => ResumeStartRecorded(Seen(st, line), LineWords(line));
      case DoneLine => DoneRecorded(Seen(st, line), sha, LineWords(line));
      case RevokedLine => RevokedRecorded(Seen(st, line), LineWords(line));
      case OtherLine =>
        EntryRecorded(Seen(st, line), sha, line);
        SystemRecorded(Seen(st, line), line);
    }
  }

  lemma StepRecorded(r: Receiver, sha: Digest)
    requires Recorded(r.state) && CanStep(r)
    requires r.state.binary.remaining > 0 ==> !PayloadRejected(r.state, PayloadCount(r))
    ensures Recorded(Step(r, sha).state)
  {
    hide ProcessLine, IndexOf, StripReturn;
    if r.state.binary.remaining > 0 {
      KeptRecorded(r.state, Step(r, sha).state);
    } else {
      LineRecorded(r.state, sha, StripReturn(r.buffer[..IndexOf(r.buffer, '\n')]));
    }
  }

  lemma {:induction false} RunToRecorded(r: Receiver, sha: Digest)
    requires Recorded(r.state)
    ensures Recorded(RunTo(r, sha).state)
    decreases |r.buffer|
  {
    hide Step, Recorded;
    if Sessions.Follows(r) {
      StepRecorded(r, sha);
      RunToRecorded(Step(r, sha), sha);
    } else {
    }
  }

  lemma LastLineRecorded(r: Receiver, sha: Digest)
    requires Recorded(r.state)
    ensures Recorded(LastLine(r, sha))
  {
    hide ProcessLine, Recorded;
    if r.buffer != [] {
      LineRecorded(r.state, sha, r.buffer);
    }
  }

  lemma RestartRecorded(st: ClientState)
    ensures Recorded(Restart(st))
  {
  }

  lemma ArriveRecorded(c: Client, sha: Digest, count: nat)
    requires Recorded(c.r.state)
    ensures Recorded(Arrived(c, sha, count).r.state)
  {
    hide RunTo, UnitsAfter, Recorded;
    RunToRecorded(c.r.(buffer := c.r.buffer + c.future[..Smaller(count, |c.future|)]), sha);
  }

  lemma ApplyRecorded(c: Client, sha: Digest, e: Event)
    requires Recorded(c.r.state)
    ensures Recorded(Apply(c, sha, e).r.state)
  {
    hide LastLine, Recorded, Restart, Lines, Arrived;
    match e {
      case Arrive(count) => ArriveRecorded(c, sha, count);
      case User(act) => SameRecorded(c.r.state, Do(c.r.state, act));
      case Reconnect(undrained, _) => RestartRecorded(Ended(c, sha, undrained));
    }
  }

  /** The client's state when the connection is lost with `undrained` bytes read but not handled. */
  function Ended(c: Client, sha: Digest, undrained: nat): ClientState {
    LastLine(c.r.(buffer := c.r.buffer + c.future[..Smaller(undrained, |c.future|)]), sha)
  }

  /** The records go with the downloads over every run of arrivals, acts of the user and reconnects. */
  lemma {:induction false} RecordedThroughout(c: Client, sha: Digest, events: seq<Event>)
    requires Recorded(c.r.state)
    ensures Recorded(ApplyAll(c, sha, events).r.state)
    decreases |events|
  {
    hide Apply, Recorded;
    if events == [] {
    } else {
      ApplyRecorded(c, sha, events[0]);
      RecordedThroughout(Apply(c, sha, events[0]), sha, events[1..]);
    }
  }

  // ---- the last line, even in the middle of a payload ---------------------------------------

  ghost predicate DownloadsOk(st: ClientState) { forall t :: t in st.downloads ==> st.DownloadOk(t, st.downloads[t]) }

  /** The frame being read does not matter for what a line does to downloads and .part files. */
  ghost predicate SameDownloads(st: ClientState, st': ClientState) {
    st'.downloads == st.downloads && st'.parts == st.parts
  }

  lemma StartAnyFrame(st: ClientState, sha: Digest, transfer: nat, offer: Offer, b: BinaryFrame)
    ensures StartDownload(st.(binary := b), sha, transfer, offer)
            == StartDownload(st, sha, transfer, offer).(binary := b)
  {
    PartAnyFrame(st, transfer, offer, b);
    hide PreparePart;
  }

  lemma PartAnyFrame(st: ClientState, transfer: nat, offer: Offer, b: BinaryFrame)
    ensures PreparePart(st.(binary := b), transfer, offer) == PreparePart(st, transfer, offer)
  {
  }

  lemma OfferAnyFrame(st: ClientState, sha: Digest, line: Bytes, words: seq<Bytes>, b: BinaryFrame)
    ensures HandleOffer(st.(binary := b), sha, line, words) == HandleOffer(st, sha, line, words).(binary := b)
  {
    hide ParseOffer, OfferChat, StartDownload;
    if ParseOffer(words).Some? {
      StartAnyFrame(st, sha, ParseOffer(words).value.transfer, ParseOffer(words).value.offer, b);
    }
  }

  lemma {:induction false} OffersAnyFrame(st: ClientState, sha: Digest, lines: seq<Bytes>, b: BinaryFrame)
    ensures HandleOffers(st.(binary := b), sha, lines) == HandleOffers(st, sha, lines).(binary := b)
    decreases |lines|
  {
    hide HandleOffer, LineWords;
    if lines == [] {
    } else {
      OfferAnyFrame(st, sha, lines[0], LineWords(lines[0]), b);
      OffersAnyFrame(HandleOffer(st, sha, lines[0], LineWords(lines[0])), sha, lines[1..], b);
    }
  }

  lemma EnterAnyFrame(st: ClientState, sha: Digest, chat: Chat, b: BinaryFrame)
    ensures EnterChat(st.(binary := b), sha, chat) == EnterChat(st, sha, chat).(binary := b)
  {
    hide HandleOffers;
    OffersAnyFrame(st.(chat := chat, offers := st.offers - {chat}), sha,
      if chat in st.offers then st.offers[chat] else [], b);
  }

  lemma EntryAnyFrame(st: ClientState, sha: Digest, line: Bytes, b: BinaryFrame)
    ensures HandleEntryLine(st.(binary := b), sha, line) == HandleEntryLine(st, sha, line).(binary := b)
  {
    hide EnterChat, IsEntryOk, IsEntryError, EntryWords, EntryErrorWords, ScopeChat, SameScope;
    if IsEntryOk(line) && |EntryWords(line)| == 2 {
      EnterAnyFrame(st.(pendingEntry := NoChat), sha, ScopeChat(EntryWords(line)[0], EntryWords(line)[1]), b);
    }
  }

  lemma OtherAnyFrame(st: ClientState, sha: Digest, line: Bytes, b: BinaryFrame)
    ensures SameDownloads(HandleOther(st, sha, line), HandleOther(st.(binary := b), sha, line))
  {
    hide HandleEntryLine, HandleSystemLine, IsEntryOk, IsEntryError, IsLogoutLine;
    EntryAnyFrame(st, sha, line, b);
  }

  lemma RevokedAnyFrame(st: ClientState, words: seq<Bytes>, b: BinaryFrame)
    ensures SameDownloads(HandleRevoked(st, words), HandleRevoked(st.(binary := b), words))
  {
    hide ParseUint64, Revoke;
    if words != [] && ParseUint64(words[0]).Some? {
      RevokeAnyFrame(st, ParseUint64(words[0]).value, b);
    }
  }

  lemma RevokeAnyFrame(st: ClientState, transfer: nat, b: BinaryFrame)
    ensures SameDownloads(Revoke(st, transfer), Revoke(st.(binary := b), transfer))
  {
    hide Revoke;
    RevokedDownloads(st, transfer);
    RevokedDownloads(st.(binary := b), transfer);
  }

  lemma RevokedDownloads(st: ClientState, transfer: nat)
    ensures var st' := Revoke(st, transfer);
            if transfer in st.downloads
            then st'.downloads == st.downloads - {transfer} && st'.parts == st.parts - {st.downloads[transfer].key}
            else st'.downloads == st.downloads && st'.parts == st.parts
  {
    hide DropOffers;
  }

  lemma DoneAnyFrame(st: ClientState, sha: Digest, words: seq<Bytes>, b: BinaryFrame)
    ensures SameDownloads(HandleDone(st, sha, words), HandleDone(st.(binary := b), sha, words))
  {
    hide ParseUint64;
  }

  lemma LineAnyFrame(st: ClientState, sha: Digest, line: Bytes, b: BinaryFrame)
    requires LineKindOf(line) != DataLine
    ensures SameDownloads(ProcessLine(st, sha, line), ProcessLine(st.(binary := b), sha, line))
  {
    hide LineKindOf, LineWords, HandleOffer, ParseUint64, HandleOther, HandleRevoked, HandleDone;
    var seen, words := Seen(st, line), LineWords(line);
    assert seen.(binary := b) == Seen(st.(binary := b), line);
    match LineKindOf(line) {
      case OfferLine => OfferAnyFrame(seen, sha, line, words, b);
      case ResumeStartLine =>
      case DoneLine => DoneAnyFrame(seen, sha, words, b);
      case RevokedLine => RevokedAnyFrame(seen, words, b);
      case OtherLine => OtherAnyFrame(seen, sha, line, b);
    }
  }

  lemma LineDownloads(st: ClientState, sha: Digest, line: Bytes)
    requires DownloadsOk(st)
    ensures DownloadsOk(ProcessLine(st, sha, line))
  {
    hide LineKindOf, LineWords;
    if LineKindOf(line) == DataLine {
      DataDownloads(st, LineWords(line));
    } else {
      hide ProcessLine;
      LineAnyFrame(st, sha, line, NO_FRAME);
      ProcessLineValid(st.(binary := NO_FRAME), sha, line);
    }
  }

  lemma DataDownloads(st: ClientState, words: seq<Bytes>)
    requires DownloadsOk(st)
    ensures DownloadsOk(HandleData(st, words))
  {
    hide ParseUint64, HandleFrame;
    if |words| == 3 && ParseUint64(words[0]).Some? && ParseUint64(words[1]).Some? && ParseUint64(words[2]).Some? {
      FrameDownloads(st, ParseUint64(words[0]).value, ParseUint64(words[1]).value, ParseUint64(words[2]).value);
    }
  }

  lemma FrameDownloads(st: ClientState, transfer: nat, offset: nat, count: nat)
    requires DownloadsOk(st)
    ensures DownloadsOk(HandleFrame(st, transfer, offset, count))
  {
    hide FrameAccepted;
  }

  /** What a download in progress has is what is saved of it. */
  lemma InProgressSaved(st: ClientState, t: nat)
    requires DownloadsOk(st) && Recorded(st) && t in st.downloads
    ensures var download := st.downloads[t];
            && Saved(st, download.key.account, t, download.offer)
            && |SavedBytes(st, download.key.account, t, download.offer)| == download.received
            && download.key.account != ""
  {
    assert RecordOk(st, t) && st.DownloadOk(t, st.downloads[t]);
  }

  /** After any run of connections: when the connection is lost and the user comes back to the chat, the
      same offer is answered with FILE_RESUME_REQUEST for exactly the byte at which the download was
      interrupted, whatever comes afterwards; no byte that was received is asked for again.  (If the
      whole file was there already, the answer is a receipt.) */
  lemma ReconnectResumes(store: Store, c: Client, sha: Digest, events: seq<Event>, undrained: nat, t: nat, x: Reading,
                         login: Bytes, chat: Chat, entry: Bytes, offered: Bytes, more: seq<Input>, n: nat)
    requires StoreOk(store) && ClientOk(store, sha, c) && Recorded(c.r.state) && t in store
    requires forall i :: 0 <= i < |events| ==> EventOk(store, events[i])
    requires var st := Ended(ApplyAll(c, sha, events), sha, undrained);
             && t in st.downloads
             && var download := st.downloads[t];
             && var opening := Opening(download.key.account, login, chat, entry, offered);
             && Opens(login, chat, entry, offered, t, download.offer)
             && download.offer.size == |store[t]| && download.offer.digest == sha(store[t])
             && x.st == Restart(st) && Flatten(x.log) == BytesOf(opening + more) && x.acts == Schedule(opening + more)
             && n <= |x.log| && Flatten(x.log[..n]) == BytesOf(opening)
    ensures var st := Ended(ApplyAll(c, sha, events), sha, undrained);
            var download := st.downloads[t];
            && Timed(x) && AtRest(AtItem(x, sha, n))
            && AtItem(x, sha, n).state.replies ==
               [if download.key in st.finals then Received(t, sha(store[t]), store[t])
                else ResumeRequest(t, download.received)]
            && (download.key !in st.finals ==> Waits(AtItem(x, sha, n).state, sha, store, t, download.received))
  {
    hide ApplyAll, ClientOk, StoreOk, Recorded, Opens, BytesOf, Schedule, Flatten, AtItem, AtRest, Waits, Opening,
         Restart, DownloadsOk, Saved, SavedBytes, PartsOk, FinalsOk, Ended, EventOk;
    var c' := ApplyAll(c, sha, events);
    var st := Ended(c', sha, undrained);
    EveryRun(store, c, sha, events);
    RecordedThroughout(c, sha, events);
    EndedOk(store, c', sha, undrained);
    InProgressSaved(st, t);
    KeyOf(st, t);
    var download := st.downloads[t];
    FromRestart(x, sha, store, st, download.key.account, login, chat, entry, offered, t, download.offer, more, n);
    var replies := AtItem(x, sha, n).state.replies;
    assert replies == [replies[0]];
  }

  lemma KeyOf(st: ClientState, t: nat)
    requires Recorded(st) && t in st.downloads
    ensures PartKey(st.downloads[t].key.account, t, st.downloads[t].offer) == st.downloads[t].key
  {
    assert RecordOk(st, t);
  }

  lemma EndedOk(store: Store, c: Client, sha: Digest, undrained: nat)
    requires StoreOk(store) && ClientOk(store, sha, c) && Recorded(c.r.state)
    ensures var st := Ended(c, sha, undrained);
            DownloadsOk(st) && Recorded(st) && PartsOk(store, st.parts) && FinalsOk(store, st.finals)
  {
    hide ProcessLine, Recorded, PartsOk, FinalsOk, ReceiptsTrue, Tracks, PartsKnown;
    var r := c.r.(buffer := c.r.buffer + c.future[..Smaller(undrained, |c.future|)]);
    LastLineRecorded(r, sha);
    LastLineDisk(store, r, sha);
    if r.buffer != [] {
      LineDownloads(r.state, sha, r.buffer);
    }
  }

  // ---- offers kept for later ----------------------------------------------------------------

  /** The client has asked for the file, or acknowledged it, since it had said `said`. */
  predicate TakenUp(said: seq<Reply>, now: seq<Reply>, transfer: nat) {
    && said <= now
    && exists k :: |said| <= k < |now| && now[k].transfer == transfer && !now[k].ReceiveFailed?
  }

  /** An offer for a chat that is not shown is kept, behind those kept before, and nothing else happens. */
  lemma OfferKept(st: ClientState, sha: Digest, line: Bytes, words: seq<Bytes>, chat: Chat)
    requires OfferChat(words) == Some(chat) && chat != NoChat && chat != st.chat
    ensures var st', before := HandleOffer(st, sha, line, words), if chat in st.offers then st.offers[chat] else [];
            && chat in st'.offers && st'.offers[chat] == before + [line]
            && st' == st.(offers := st'.offers) && st'.offers - {chat} == st.offers - {chat}
  {
    hide OfferChat;
  }

  lemma OfferTakenUp(st: ClientState, sha: Digest, line: Bytes, words: seq<Bytes>)
    ensures var st' := HandleOffer(st, sha, line, words);
            && st'.chat == st.chat && st'.account == st.account && st.replies <= st'.replies
            && (st.account != "" && OfferChat(words) == Some(st.chat) && ParseOffer(words).Some? ==>
                  TakenUp(st.replies, st'.replies, ParseOffer(words).value.transfer))
  {
    hide OfferChat, ParseOffer, StartDownload;
    if ParseOffer(words).Some? {
      var offer := ParseOffer(words).value;
      DownloadResumes(st, sha, offer.transfer, offer.offer);
      StartKeeps(st, sha, offer.transfer, offer.offer);
      hide Finished, SavedBytes;
      var now := StartDownload(st, sha, offer.transfer, offer.offer).replies;
      assert |now| == |st.replies| + 1 && now[|st.replies|].transfer == offer.transfer;
    }
  }

  lemma StartKeeps(st: ClientState, sha: Digest, transfer: nat, offer: Offer)
    ensures StartDownload(st, sha, transfer, offer).chat == st.chat
  {
    hide PreparePart;
  }

  lemma {:induction false} OffersTakenUp(st: ClientState, sha: Digest, lines: seq<Bytes>, i: nat)
    requires st.account != "" && (i < |lines| ==>
             OfferChat(LineWords(lines[i])) == Some(st.chat) && ParseOffer(LineWords(lines[i])).Some?)
    ensures st.replies <= HandleOffers(st, sha, lines).replies
    ensures i < |lines| ==>
              TakenUp(st.replies, HandleOffers(st, sha, lines).replies, ParseOffer(LineWords(lines[i])).value.transfer)
    decreases |lines|
  {
    hide HandleOffer, OfferChat, ParseOffer, LineWords;
    if lines == [] {
    } else {
      var next := HandleOffer(st, sha, lines[0], LineWords(lines[0]));
      OfferTakenUp(st, sha, lines[0], LineWords(lines[0]));
      OffersTakenUp(next, sha, lines[1..], if i == 0 then |lines| else i - 1);
      var now := HandleOffers(st, sha, lines).replies;
      if i == 0 {
        var t := ParseOffer(LineWords(lines[0])).value.transfer;
        var k :| |st.replies| <= k < |next.replies| && next.replies[k].transfer == t && !next.replies[k].ReceiveFailed?;
        assert now[k] == next.replies[k];
      } else if i < |lines| {
        var t := ParseOffer(LineWords(lines[i])).value.transfer;
        var k :| |next.replies| <= k < |now| && now[k].transfer == t && !now[k].ReceiveFailed?;
        assert |st.replies| <= k;
      }
    }
  }

  /** When a chat is entered, every offer kept for it is taken up. */
  lemma EntryTakesUp(st: ClientState, sha: Digest, line: Bytes, chat: Chat, i: nat)
    requires chat != NoChat && st.pendingEntry == chat && st.account != "" && IsEntryOk(line)
    requires var words := EntryWords(line); |words| == 2 && ScopeChat(words[0], words[1]) == chat
    requires chat in st.offers && i < |st.offers[chat]|
    requires var words := LineWords(st.offers[chat][i]); OfferChat(words) == Some(chat) && ParseOffer(words).Some?
    ensures var st' := ProcessLine(st, sha, line);
            TakenUp(st.replies, st'.replies, ParseOffer(LineWords(st.offers[chat][i])).value.transfer)
  {
    hide HandleOffers, IsEntryOk, IsEntryError, EntryWords, ScopeChat, OfferChat, ParseOffer, LineWords, LineKindOf,
         TakenUp;
    BracketFirst(line);
    Download.BracketLine(line);
    var shown := Seen(st, line).(pendingEntry := NoChat, chat := chat, offers := st.offers - {chat});
    OffersTakenUp(shown, sha, st.offers[chat], i);
  }

  lemma BracketFirst(line: Bytes)
    requires IsEntryOk(line)
    ensures line != [] && line[0] == '['
  {
    assert line[0] == ENTRY_OK[0];
  }
}
