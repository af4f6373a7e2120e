/** What the client's disk says about the server's stored files: every handler of the client keeps
    each .part file a prefix, and each finished file equal to, the stored file of its transfer. */
module ClientDisk {
  import opened Text
  import opened ClientDemux

  /** The stored content of every transfer.  Transfers are never reused and never change. */
  type Store = map<nat, Bytes>

  /** An offer line says the true size. */
  predicate OfferTrue(store: Store, line: Bytes) {
    LineKindOf(line) == OfferLine ==> WordsTrue(store, LineWords(line))
  }

  predicate WordsTrue(store: Store, words: seq<Bytes>) {
    var parsed := ParseOffer(words);
    parsed.Some? ==> parsed.value.transfer in store && parsed.value.offer.size == |store[parsed.value.transfer]|
  }

  /** A transfer the server does not know has no content. */
  function Content(store: Store, transfer: nat): Bytes { if transfer in store then store[transfer] else [] }

  ghost predicate PartsOk(store: Store, parts: map<FileKey, Bytes>) {
    forall key :: key in parts ==> parts[key] <= Content(store, key.transfer)
  }

  /** No .part file belongs to a transfer the server does not know. */
  ghost predicate PartsKnown(store: Store, parts: map<FileKey, Bytes>) {
    forall key :: key in parts ==> key.transfer in store
  }

  ghost predicate FinalsOk(store: Store, finals: map<FileKey, Bytes>) {
    forall key :: key in finals ==> key.transfer in store && finals[key] == store[key.transfer]
  }

  ghost predicate DownloadsOk(store: Store, downloads: map<nat, Download>) {
    forall t :: t in downloads ==> t in store && downloads[t].offer.size == |store[t]|
  }

  ghost predicate OffersOk(store: Store, offers: map<Chat, seq<Bytes>>) {
    forall chat, i :: chat in offers && 0 <= i < |offers[chat]| ==> WordsTrue(store, LineWords(offers[chat][i]))
  }

  ghost predicate DiskOk(store: Store, st: ClientState) {
    && PartsOk(store, st.parts) && FinalsOk(store, st.finals)
    && DownloadsOk(store, st.downloads) && OffersOk(store, st.offers)
  }

  /** A receipt carries the digest of the stored file, and the local file equals that file. */
  predicate ReceiptTrue(store: Store, sha: Digest, reply: Reply) {
    reply.Received? ==>
      reply.transfer in store && reply.digest == sha(reply.copy) && reply.copy == store[reply.transfer]
  }

  ghost predicate ReceiptsTrue(store: Store, sha: Digest, replies: seq<Reply>) {
    forall i :: 0 <= i < |replies| ==> ReceiptTrue(store, sha, replies[i])
  }

  /** What handling any line, even one that was never sent, does to the disk and says to the server. */
  ghost predicate DiskStep(store: Store, sha: Digest, st: ClientState, st': ClientState) {
    && PartsOk(store, st'.parts) && FinalsOk(store, st'.finals)
    && (ReceiptsTrue(store, sha, st.replies) ==> ReceiptsTrue(store, sha, st'.replies))
  }

  /** What handling a text line of the stream does to the client. */
  ghost predicate TextStep(store: Store, sha: Digest, st: ClientState, st': ClientState) {
    && st'.Valid() && DiskOk(store, st') && DiskStep(store, sha, st, st')
    && (PartsKnown(store, st.parts) ==> PartsKnown(store, st'.parts))
    && st'.binary.remaining == 0 && st'.lines == st.lines && st'.refused == st.refused
  }

  lemma StepTwice(store: Store, sha: Digest, a: ClientState, b: ClientState, c: ClientState)
    requires TextStep(store, sha, a, b) && TextStep(store, sha, b, c)
    ensures TextStep(store, sha, a, c)
  {
    hide DiskOk, PartsOk, FinalsOk, PartsKnown, ReceiptsTrue, ClientState.Valid;
  }

  // ---- offers -------------------------------------------------------------------------------

  /** Even a false offer leaves every .part file a prefix: it can only empty or remove one. */
  lemma StartAny(store: Store, st: ClientState, sha: Digest, transfer: nat, offer: Offer)
    requires PartsOk(store, st.parts) && FinalsOk(store, st.finals)
    ensures DiskStep(store, sha, st, StartDownload(st, sha, transfer, offer))
  {
    PreparedParts(store, st, transfer, offer);
    StartedReceipts(store, st, sha, transfer, offer);
    hide PartsOk, FinalsOk, PreparePart, ReceiptsTrue;
  }

  lemma StartedReceipts(store: Store, st: ClientState, sha: Digest, transfer: nat, offer: Offer)
    requires FinalsOk(store, st.finals)
    ensures ReceiptsTrue(store, sha, st.replies) ==>
            ReceiptsTrue(store, sha, StartDownload(st, sha, transfer, offer).replies)
  {
    hide PreparePart;
  }

  lemma PreparedParts(store: Store, st: ClientState, transfer: nat, offer: Offer)
    requires PartsOk(store, st.parts)
    ensures PartsOk(store, PreparePart(st, transfer, offer))
    ensures PartKey(st.account, transfer, offer) in PreparePart(st, transfer, offer)
    ensures transfer in store && PartsKnown(store, st.parts) ==> PartsKnown(store, PreparePart(st, transfer, offer))
  {
  }

  lemma StartDownloadDisk(store: Store, st: ClientState, sha: Digest, transfer: nat, offer: Offer)
    requires st.Valid() && DiskOk(store, st) && st.binary.remaining == 0
    requires transfer in store && offer.size == |store[transfer]| && offer.size <= MAX_FILE_SIZE
    ensures TextStep(store, sha, st, StartDownload(st, sha, transfer, offer))
    ensures StartDownload(st, sha, transfer, offer).offers == st.offers
  {
    StartDownloadValid(st, sha, transfer, offer);
    StartAny(store, st, sha, transfer, offer);
    StartedFiles(store, st, sha, transfer, offer);
    hide DiskOk, DiskStep, PartsKnown, StartDownload, ClientState.Valid;
  }

  lemma StartedFiles(store: Store, st: ClientState, sha: Digest, transfer: nat, offer: Offer)
    requires DiskOk(store, st) && transfer in store && offer.size == |store[transfer]|
    ensures DiskOk(store, StartDownload(st, sha, transfer, offer))
    ensures PartsKnown(store, st.parts) ==> PartsKnown(store, StartDownload(st, sha, transfer, offer).parts)
  {
    PreparedParts(store, st, transfer, offer);
    MoreDownloads(store, st.downloads, transfer, offer);
    hide PartsOk, PartsKnown, OffersOk, FinalsOk, DownloadsOk, PreparePart, PartKey;
  }

  lemma MoreDownloads(store: Store, downloads: map<nat, Download>, transfer: nat, offer: Offer)
    requires DownloadsOk(store, downloads) && transfer in store && offer.size == |store[transfer]|
    ensures forall key, n :: DownloadsOk(store, downloads[transfer := Download(offer, key, n)])
  {
  }

  lemma OfferAny(store: Store, st: ClientState, sha: Digest, line: Bytes, words: seq<Bytes>)
    requires PartsOk(store, st.parts) && FinalsOk(store, st.finals)
    ensures DiskStep(store, sha, st, HandleOffer(st, sha, line, words))
  {
    hide ParseOffer, OfferChat, StartDownload, PartsOk, FinalsOk, ReceiptsTrue;
    if ParseOffer(words).Some? {
      StartAny(store, st, sha, ParseOffer(words).value.transfer, ParseOffer(words).value.offer);
    }
  }

  lemma OfferDisk(store: Store, st: ClientState, sha: Digest, line: Bytes, words: seq<Bytes>)
    requires st.Valid() && DiskOk(store, st) && st.binary.remaining == 0
    requires WordsTrue(store, words) && words == LineWords(line)
    ensures TextStep(store, sha, st, HandleOffer(st, sha, line, words))
  {
    hide LineWords, StartDownload, ParseOffer, OfferChat, TextStep, DiskOk, ClientState.Valid;
    var parsed, chat := ParseOffer(words), OfferChat(words);
    SameStep(store, sha, st);
    if chat.Some? && chat.value != NoChat && chat.value != st.chat {
      KeptOffer(store, sha, st, chat.value, line);
    } else if parsed.Some? {
      StartDownloadDisk(store, st, sha, parsed.value.transfer, parsed.value.offer);
    }
  }

  lemma SameStep(store: Store, sha: Digest, st: ClientState)
    requires st.Valid() && DiskOk(store, st) && st.binary.remaining == 0
    ensures TextStep(store, sha, st, st)
  {
    hide PartsOk, FinalsOk, DownloadsOk, OffersOk, ClientState.Valid;
  }

  lemma KeptOffer(store: Store, sha: Digest, st: ClientState, chat: Chat, line: Bytes)
    requires st.Valid() && DiskOk(store, st) && st.binary.remaining == 0 && WordsTrue(store, LineWords(line))
    ensures var kept := if chat in st.offers then st.offers[chat] else [];
            TextStep(store, sha, st, st.(offers := st.offers[chat := kept + [line]]))
  {
    hide LineWords, WordsTrue, PartsOk, FinalsOk, DownloadsOk;
    var kept := if chat in st.offers then st.offers[chat] else [];
    SameDownloadsValid(st, st.(offers := st.offers[chat := kept + [line]]));
  }

  lemma {:induction false} HandleOffersDisk(store: Store, st: ClientState, sha: Digest, lines: seq<Bytes>)
    requires st.Valid() && DiskOk(store, st) && st.binary.remaining == 0
    requires forall i :: 0 <= i < |lines| ==> WordsTrue(store, LineWords(lines[i]))
    ensures TextStep(store, sha, st, HandleOffers(st, sha, lines))
    decreases |lines|
  {
    hide LineWords, HandleOffer, PartsOk, FinalsOk, PartsKnown, DownloadsOk, OffersOk, WordsTrue, ReceiptsTrue;
    if lines == [] {
    } else {
      var next := HandleOffer(st, sha, lines[0], LineWords(lines[0]));
      OfferDisk(store, st, sha, lines[0], LineWords(lines[0]));
      HandleOffersDisk(store, next, sha, lines[1..]);
      StepTwice(store, sha, st, next, HandleOffers(next, sha, lines[1..]));
    }
  }

  lemma {:induction false} OffersAny(store: Store, st: ClientState, sha: Digest, lines: seq<Bytes>)
    requires PartsOk(store, st.parts) && FinalsOk(store, st.finals)
    ensures DiskStep(store, sha, st, HandleOffers(st, sha, lines))
    decreases |lines|
  {
    hide LineWords, HandleOffer, PartsOk, FinalsOk, ReceiptsTrue;
    if lines == [] {
    } else {
      OfferAny(store, st, sha, lines[0], LineWords(lines[0]));
      OffersAny(store, HandleOffer(st, sha, lines[0], LineWords(lines[0])), sha, lines[1..]);
    }
  }

  lemma EnterChatDisk(store: Store, st: ClientState, sha: Digest, chat: Chat)
    requires st.Valid() && DiskOk(store, st) && st.binary.remaining == 0
    ensures TextStep(store, sha, st, EnterChat(st, sha, chat))
  {
    hide LineWords, WordsTrue, HandleOffers;
    var shown := st.(chat := chat, offers := st.offers - {chat});
    SameDownloadsValid(st, shown);
    HandleOffersDisk(store, shown, sha, if chat in st.offers then st.offers[chat] else []);
  }

  // ---- the other lines ----------------------------------------------------------------------

  /** A change that leaves the files alone and at most forgets downloads and offers. */
  lemma QuietStep(store: Store, sha: Digest, st: ClientState, st': ClientState)
    requires DiskOk(store, st) && st'.Valid() && st'.binary.remaining == 0
    requires st'.parts == st.parts && st'.finals == st.finals && st'.replies == st.replies
    requires st'.lines == st.lines && st'.refused == st.refused
    requires st'.downloads == st.downloads || st'.downloads == map[]
    requires st'.offers == st.offers || st'.offers == map[]
    ensures TextStep(store, sha, st, st')
  {
    hide WordsTrue;
  }

  lemma SystemLineDisk(store: Store, st: ClientState, sha: Digest, line: Bytes)
    requires st.Valid() && DiskOk(store, st) && st.binary.remaining == 0
    ensures TextStep(store, sha, st, HandleSystemLine(st, line))
  {
    SystemLineValid(st, line);
    hide DiskOk, TextStep, HandleSystemLine, IsLogoutLine, ClientState.Valid;
    QuietStep(store, sha, st, HandleSystemLine(st, line));
  }

  lemma EntryLineDisk(store: Store, st: ClientState, sha: Digest, line: Bytes)
    requires st.Valid() && DiskOk(store, st) && st.binary.remaining == 0
    ensures TextStep(store, sha, st, HandleEntryLine(st, sha, line))
  {
    hide PartsOk, FinalsOk, DownloadsOk, OffersOk, EnterChat, SameScope, ScopeChat,
         IsEntryOk, IsEntryError, EntryWords, EntryErrorWords;
    var asked := st.(pendingEntry := NoChat);
    SameDownloadsValid(st, asked);
    QuietStep(store, sha, st, asked);
    QuietStep(store, sha, st, st);
    if IsEntryOk(line) {
      var words := EntryWords(line);
      if |words| == 2 {
        EnterChatDisk(store, asked, sha, ScopeChat(words[0], words[1]));
      }
    }
  }

  lemma ResumeStartDisk(store: Store, st: ClientState, sha: Digest, words: seq<Bytes>)
    requires st.Valid() && DiskOk(store, st) && st.binary.remaining == 0
    ensures TextStep(store, sha, st, HandleResumeStart(st, words))
  {
    hide WordsTrue;
    ResumeStartValid(st, words);
    ResumeStartAny(store, st, sha, words);
  }

  lemma ResumeStartAny(store: Store, st: ClientState, sha: Digest, words: seq<Bytes>)
    requires PartsOk(store, st.parts) && FinalsOk(store, st.finals)
    ensures DiskStep(store, sha, st, HandleResumeStart(st, words))
  {
    hide ParseUint64;
  }

  /** The finish path acknowledges a file only when it equals the stored one: its length is the
      offered size and it is a prefix, so the digest is not needed for this. */
  lemma FinishDisk(store: Store, st: ClientState, sha: Digest, transfer: nat)
    requires st.Valid() && DiskOk(store, st) && st.binary.remaining == 0
    ensures TextStep(store, sha, st, FinishDownload(st, sha, transfer))
  {
    FinishDownloadValid(st, sha, transfer);
    FinishAny(store, st, sha, transfer);
    hide PartsOk, FinalsOk, DownloadsOk, OffersOk, ReceiptsTrue;
  }

  lemma FinishAny(store: Store, st: ClientState, sha: Digest, transfer: nat)
    requires st.Valid() && DiskOk(store, st)
    ensures DiskOk(store, FinishDownload(st, sha, transfer))
    ensures DiskStep(store, sha, st, FinishDownload(st, sha, transfer))
  {
    if transfer in st.downloads {
      var download := st.downloads[transfer];
      assert st.DownloadOk(transfer, download);
      assert download.received == download.offer.size ==> st.parts[download.key] == store[transfer];
      FinishFiles(store, st, sha, transfer);
    }
    hide PartsOk, FinalsOk, DownloadsOk, OffersOk;
  }

  lemma FinishFiles(store: Store, st: ClientState, sha: Digest, transfer: nat)
    requires DiskOk(store, st) && transfer in st.downloads
    requires var download := st.downloads[transfer];
      && download.key in st.parts && download.key.transfer == transfer
      && (download.received == download.offer.size ==> st.parts[download.key] == store[transfer])
    ensures DiskOk(store, FinishDownload(st, sha, transfer))
  {
    var key := st.downloads[transfer].key;
    assert PartsOk(store, st.parts - {key});
    assert DownloadsOk(store, st.downloads - {transfer});
    assert st.parts[key] == store[transfer] ==> FinalsOk(store, st.finals[key := st.parts[key]]);
    hide PartsOk, FinalsOk, DownloadsOk, OffersOk, FinishDownload;
  }

  lemma RevokedDisk(store: Store, st: ClientState, sha: Digest, transfer: nat)
    requires st.Valid() && DiskOk(store, st) && st.binary.remaining == 0
    ensures TextStep(store, sha, st, Revoke(st, transfer))
  {
    RevokedValid(st, transfer);
    RevokedFiles(store, st, transfer);
    hide DiskOk, DropOffers, ClientState.Valid, ReceiptsTrue;
  }

  lemma RevokedFiles(store: Store, st: ClientState, transfer: nat)
    requires DiskOk(store, st)
    ensures DiskOk(store, Revoke(st, transfer))
  {
    DropOffersTrue(store, st.offers, transfer);
    hide OffersOk, DropOffers;
  }

  lemma DropOffersTrue(store: Store, offers: map<Chat, seq<Bytes>>, transfer: nat)
    requires OffersOk(store, offers)
    ensures OffersOk(store, DropOffers(offers, transfer))
  {
    hide WordsTrue;
    var prefix := "FILE_OFFER " + ToDecimal(transfer) + " ";
    forall chat, i | chat in offers && 0 <= i < |WithoutOffer(offers[chat], prefix)|
      ensures WordsTrue(store, LineWords(WithoutOffer(offers[chat], prefix)[i]))
    {
      WithoutOfferSubset(offers[chat], prefix, i);
    }
  }

  lemma {:induction false} WithoutOfferSubset(lines: seq<Bytes>, prefix: Bytes, i: nat)
    requires i < |WithoutOffer(lines, prefix)|
    ensures WithoutOffer(lines, prefix)[i] in lines
  {
    var head := if prefix <= lines[0] then [] else [lines[0]];
    if i >= |head| {
      WithoutOfferSubset(lines[1..], prefix, i - |head|);
    }
  }

  /** Every text line but a FILE_DATA header keeps the disk in order and is recorded once. */
  lemma TextLineDisk(store: Store, st: ClientState, sha: Digest, line: Bytes)
    requires st.Valid() && DiskOk(store, st) && st.binary.remaining == 0
    requires LineKindOf(line) != DataLine && OfferTrue(store, line)
    ensures TextStep(store, sha, Seen(st, line), ProcessLine(st, sha, line))
  {
    hide DiskOk, DiskStep, PartsKnown, ParseCommand, SplitWords, KindOf;
    var seen, words := Seen(st, line), LineWords(line);
    SeenDisk(store, st, line);
    match LineKindOf(line) {
      case OfferLine => OfferDisk(store, seen, sha, line, words);
      case ResumeStartLine => ResumeStartDisk(store, seen, sha, words);
      case DoneLine =>
        if |words| == 1 && ParseUint64(words[0]).Some? {
          FinishDisk(store, seen, sha, ParseUint64(words[0]).value);
        } else {
          QuietStep(store, sha, seen, seen);
        }
      case RevokedLine =>
        if words != [] && ParseUint64(words[0]).Some? {
          RevokedDisk(store, seen, sha, ParseUint64(words[0]).value);
        } else {
          QuietStep(store, sha, seen, seen);
        }
      case OtherLine =>
        EntryLineDisk(store, seen, sha, line);
        SystemLineDisk(store, seen, sha, line);
    }
  }

  lemma EntryAny(store: Store, st: ClientState, sha: Digest, line: Bytes)
    requires PartsOk(store, st.parts) && FinalsOk(store, st.finals)
    ensures DiskStep(store, sha, st, HandleEntryLine(st, sha, line))
  {
    hide PartsOk, FinalsOk, DiskStep, EnterChat, SameScope, ScopeChat, IsEntryOk, IsEntryError, EntryWords,
         EntryErrorWords;
    var asked := st.(pendingEntry := NoChat);
    SameFiles(store, sha, st, asked);
    SameFiles(store, sha, st, st);
    if IsEntryOk(line) && |EntryWords(line)| == 2 {
      var chat := ScopeChat(EntryWords(line)[0], EntryWords(line)[1]);
      EnterAny(store, asked, sha, chat);
      SameReplies(store, sha, st, asked, EnterChat(asked, sha, chat));
    }
  }

  lemma SameFiles(store: Store, sha: Digest, st: ClientState, st': ClientState)
    requires PartsOk(store, st.parts) && FinalsOk(store, st.finals)
    requires st'.parts == st.parts && st'.finals == st.finals && st'.replies == st.replies
    ensures DiskStep(store, sha, st, st')
  {
  }

  lemma SameReplies(store: Store, sha: Digest, a: ClientState, b: ClientState, c: ClientState)
    requires a.replies == b.replies && DiskStep(store, sha, b, c)
    ensures DiskStep(store, sha, a, c)
  {
  }

  lemma EnterAny(store: Store, st: ClientState, sha: Digest, chat: Chat)
    requires PartsOk(store, st.parts) && FinalsOk(store, st.finals)
    ensures DiskStep(store, sha, st, EnterChat(st, sha, chat))
  {
    hide PartsOk, FinalsOk, ReceiptsTrue, HandleOffers;
    var lines := if chat in st.offers then st.offers[chat] else [];
    OffersAny(store, st.(chat := chat, offers := st.offers - {chat}), sha, lines);
  }

  lemma RevokeAny(store: Store, st: ClientState, sha: Digest, transfer: nat)
    requires PartsOk(store, st.parts) && FinalsOk(store, st.finals)
    ensures DiskStep(store, sha, st, Revoke(st, transfer))
  {
    hide DropOffers;
  }

  /** Any text at all, handled as a line in any state, keeps the disk in order: a line cut off by a
      lost connection, several lines at once, or raw payload. */
  lemma AnyLine(store: Store, st: ClientState, sha: Digest, line: Bytes)
    requires st.Valid() && DiskOk(store, st)
    ensures DiskStep(store, sha, st, ProcessLine(st, sha, line))
  {
    hide DiskOk, ReceiptsTrue, PartsOk, FinalsOk, LineKindOf, LineWords, ClientState.Valid, ParseUint64,
         HandleOffer, HandleResumeStart, FinishDownload, Revoke, HandleEntryLine, HandleSystemLine;
    var seen, words := Seen(st, line), LineWords(line);
    SeenDisk(store, st, line);
    DiskFiles(store, seen);
    DiskFiles(store, st);
    match LineKindOf(line) {
      case DataLine => DataAny(store, st, sha, words);
      case OfferLine => OfferAny(store, seen, sha, line, words);
      case ResumeStartLine => ResumeStartAny(store, seen, sha, words);
      case DoneLine =>
        if |words| == 1 && ParseUint64(words[0]).Some? {
          FinishAny(store, seen, sha, ParseUint64(words[0]).value);
        }
      case RevokedLine =>
        if words != [] && ParseUint64(words[0]).Some? {
          RevokeAny(store, seen, sha, ParseUint64(words[0]).value);
        }
      case OtherLine => EntryAny(store, seen, sha, line);
    }
  }

  lemma DiskFiles(store: Store, st: ClientState)
    requires DiskOk(store, st)
    ensures PartsOk(store, st.parts) && FinalsOk(store, st.finals)
  {
  }

  lemma DataAny(store: Store, st: ClientState, sha: Digest, words: seq<Bytes>)
    requires PartsOk(store, st.parts) && FinalsOk(store, st.finals)
    ensures DiskStep(store, sha, st, HandleData(st, words))
  {
    hide PartsOk, FinalsOk, ParseUint64, FrameAccepted;
  }

  lemma SeenDisk(store: Store, st: ClientState, line: Bytes)
    requires st.Valid() && DiskOk(store, st)
    ensures Seen(st, line).Valid() && DiskOk(store, Seen(st, line))
  {
    hide WordsTrue;
    SameDownloadsValid(st, Seen(st, line));
  }

  // ---- frames -------------------------------------------------------------------------------

  lemma FrameDisk(store: Store, st: ClientState, sha: Digest, transfer: nat, offset: nat, count: nat)
    requires st.Valid() && DiskOk(store, st) && st.binary.remaining == 0
    ensures DiskOk(store, HandleFrame(st, transfer, offset, count))
    ensures DiskStep(store, sha, st, HandleFrame(st, transfer, offset, count))
  {
    hide WordsTrue;
  }

  /** Payload bytes that continue the stored file keep its .part file a prefix. */
  lemma PayloadDisk(store: Store, st: ClientState, bytes: Bytes)
    requires st.Valid() && DiskOk(store, st) && |bytes| <= st.binary.remaining && bytes != []
    requires var t := st.binary.transfer;
             && st.downloads[t].received + |bytes| <= |store[t]|
             && bytes == store[t][st.downloads[t].received..st.downloads[t].received + |bytes|]
    ensures !PayloadRejected(st, |bytes|) && DiskOk(store, TakePayload(st, bytes))
    ensures PartsKnown(store, st.parts) ==> PartsKnown(store, TakePayload(st, bytes).parts)
  {
    hide WordsTrue;
    var t := st.binary.transfer;
    var key := st.downloads[t].key;
    assert st.DownloadOk(t, st.downloads[t]);
    assert st.parts[key] + bytes <= store[t];
  }
}
