/** The receiving client (client_app.cpp, client_file_transfer.cpp): it splits one byte stream into
    text lines and raw file payloads, and keeps the local side of every download.

    `ClientState` is the client's state record together with the disk and the SQLite table it works
    on.  The handlers that take that record by reference are functions from state to state.  Local
    file system and SQLite calls succeed; digests are the parameter `sha`. */
module ClientDemux {
  import opened Text
  import opened Percent

  /** What a FILE_OFFER line says about a transfer. */
  datatype Offer = Offer(scope: Bytes, sender: Bytes, group: Bytes, name: Bytes, size: nat, digest: Bytes)

  /** An entry of `state.downloads`; `key` stands for both its paths. */
  datatype Download = Download(offer: Offer, key: FileKey, received: nat)

  /** `PendingBinaryDownloadFrame`: `remaining == 0` means that text lines are expected. */
  datatype BinaryFrame = BinaryFrame(transfer: nat, remaining: nat)

  /** A file in the download directory: `<account>/<transfer>_<name>`, with or without `.part`. */
  datatype FileKey = FileKey(account: Bytes, transfer: nat, name: Bytes)

  datatype Chat = NoChat | PrivateChat(peer: Bytes) | GroupChat(group: Bytes)

  /** What the client sends; `copy` is history: the finished local file at that time. */
  datatype Reply = ResumeRequest(transfer: nat, offset: nat)
                 | Received(transfer: nat, digest: Bytes, copy: Bytes)
                 | ReceiveFailed(transfer: nat)

  datatype ClientState = ClientState(
    account: Bytes,                             // "" when logged out
    pendingLogin: Bytes,
    chat: Chat,                                 // the chat being shown
    pendingEntry: Chat,                         // the chat whose entry the server has not answered yet
    offers: map<Chat, seq<Bytes>>,              // offer lines kept for chats not being shown
    downloads: map<nat, Download>,
    binary: BinaryFrame,
    partials: map<(Bytes, nat), Offer>,         // SQLite partial_downloads
    parts: map<FileKey, Bytes>,                 // .part files
    finals: map<FileKey, Bytes>,                // finished files
    replies: seq<Reply>,                        // what the client has sent back
    lines: seq<Bytes>,                          // every line handled that was not a FILE_DATA header
    refused: bool)                              // a FILE_DATA header was refused
  {
    predicate DownloadOk(transfer: nat, download: Download) {
      && download.key.transfer == transfer
      && download.key in parts
      && download.received == |parts[download.key]| <= download.offer.size <= MAX_FILE_SIZE
    }

    /** What the client keeps in every reachable state: the length of a .part file is its
        download's offset, and the payload being read still fits the offered size. */
    ghost predicate Valid() {
      && (forall t :: t in downloads ==> DownloadOk(t, downloads[t]))
      && (binary.remaining > 0 ==>
            && binary.transfer in downloads
            && downloads[binary.transfer].received + binary.remaining <= downloads[binary.transfer].offer.size)
    }
  }

  function PartKey(account: Bytes, transfer: nat, offer: Offer): FileKey {
    FileKey(account, transfer, offer.name)
  }

  const NO_FRAME := BinaryFrame(0, 0)

  // ---- offers -------------------------------------------------------------------------------

  datatype ParsedOffer = ParsedOffer(transfer: nat, offer: Offer)

  /** The words of a FILE_OFFER line, or None when one of them is malformed. */
  function ParseOffer(words: seq<Bytes>): (r: Option<ParsedOffer>)
    ensures r.Some? ==> r.value.offer.size <= MAX_FILE_SIZE && r.value.transfer < UINT64_LIMIT
  {
    if |words| != 7 then None
    else
      var transfer, size := ParseUint64(words[0]), ParseUint64(words[5]);
      var group, name := DecodeToken(words[3]), DecodeToken(words[4]);
      if transfer.None? || size.None? || group.None? || name.None? then None
      else if words[1] != "PRIVATE" && words[1] != "GROUP" then None
      else if size.value > MAX_FILE_SIZE || !IsSha256Hex(words[6]) then None
      else Some(ParsedOffer(transfer.value,
                            Offer(words[1], words[2], group.value, SanitizeFilename(name.value), size.value, words[6])))
  }

  /** The .part file a download continues: the saved one when its record matches the offer and its
      length does not exceed the offered size, else an empty one. */
  function PreparePart(st: ClientState, transfer: nat, offer: Offer): map<FileKey, Bytes> {
    var key, saved := PartKey(st.account, transfer, offer), (st.account, transfer);
    if saved !in st.partials then st.parts[key := []]
    else if st.partials[saved] != offer then
      (st.parts - {PartKey(st.account, transfer, st.partials[saved])})[key := []]
    else if key !in st.parts || |st.parts[key]| > offer.size then st.parts[key := []]
    else st.parts
  }

  function StartDownload(st: ClientState, sha: Digest, transfer: nat, offer: Offer): (r: ClientState)
    ensures r.lines == st.lines && r.refused == st.refused && r.binary == st.binary
    ensures r.finals == st.finals && r.offers == st.offers && r.account == st.account
  {
    var key := PartKey(st.account, transfer, offer);
    if key in st.finals && |st.finals[key]| == offer.size && sha(st.finals[key]) == offer.digest then
      st.(replies := st.replies + [Received(transfer, offer.digest, st.finals[key])])
    else
      var parts := PreparePart(st, transfer, offer);
      st.(parts := parts,
          partials := st.partials[(st.account, transfer) := offer],
          downloads := st.downloads[transfer := Download(offer, key, |parts[key]|)],
          replies := st.replies + [ResumeRequest(transfer, |parts[key]|)])
  }

  /** `begin_incoming_download` */
  function BeginDownload(st: ClientState, sha: Digest, words: seq<Bytes>): ClientState {
    var parsed := ParseOffer(words);
    if st.account == "" || parsed.None? then st
    else StartDownload(st, sha, parsed.value.transfer, parsed.value.offer)
  }

  /** The chat an offer belongs to, or None when its group word is malformed. */
  function OfferChat(words: seq<Bytes>): Option<Chat> {
    if |words| == 7 && (words[1] == "PRIVATE" || words[1] == "GROUP") then
      var group := DecodeToken(words[3]);
      if group.None? then None
      else if words[1] == "PRIVATE" then Some(PrivateChat(words[2])) else Some(GroupChat(group.value))
    else Some(NoChat)
  }

  /** FILE_OFFER: start now when its chat is shown, else keep the line for later. */
  function HandleOffer(st: ClientState, sha: Digest, line: Bytes, words: seq<Bytes>): (r: ClientState)
    ensures r.lines == st.lines && r.refused == st.refused && r.binary == st.binary && r.finals == st.finals
  {
    var chat := OfferChat(words);
    if chat.None? then st
    else if chat.value != NoChat && chat.value != st.chat then
      var kept := if chat.value in st.offers then st.offers[chat.value] else [];
      st.(offers := st.offers[chat.value := kept + [line]])
    else BeginDownload(st, sha, words)
  }

  /** The tail of a chat entry: the offers kept for that chat are handled in order. */
  function HandleOffers(st: ClientState, sha: Digest, lines: seq<Bytes>): (r: ClientState)
    ensures r.lines == st.lines && r.refused == st.refused && r.binary == st.binary && r.finals == st.finals
    decreases |lines|
  {
    if lines == [] then st
    else
      var words := LineWords(lines[0]);
      HandleOffers(HandleOffer(st, sha, lines[0], words), sha, lines[1..])
  }

  function EnterChat(st: ClientState, sha: Digest, chat: Chat): ClientState {
    var kept := if chat in st.offers then st.offers[chat] else [];
    HandleOffers(st.(chat := chat, offers := st.offers - {chat}), sha, kept)
  }

  // ---- the file protocol lines --------------------------------------------------------------

  function Erase(st: ClientState, transfer: nat): ClientState {
    st.(downloads := st.downloads - {transfer})
  }

  /** FILE_RESUME_START */
  function HandleResumeStart(st: ClientState, words: seq<Bytes>): (r: ClientState)
    ensures r.lines == st.lines && r.refused == st.refused && r.binary == st.binary
  {
    if |words| != 2 then st
    else
      var transfer, offset := ParseUint64(words[0]), ParseUint64(words[1]);
      if transfer.None? || offset.None? || transfer.value !in st.downloads then st
      else if st.downloads[transfer.value].received == offset.value then st
      else Erase(st, transfer.value).(replies := st.replies + [ReceiveFailed(transfer.value)])
  }

  /** The checks on a FILE_DATA header whose three numbers parsed. */
  predicate FrameAccepted(st: ClientState, transfer: nat, offset: nat, count: nat) {
    && 0 < count <= FILE_FRAME_BYTES && st.binary.remaining == 0
    && transfer in st.downloads
    && st.downloads[transfer].received == offset
    && Sum64(offset, count) <= st.downloads[transfer].offer.size
  }

  function HandleFrame(st: ClientState, transfer: nat, offset: nat, count: nat): (r: ClientState)
    ensures r.lines == st.lines && r.finals == st.finals && r.parts == st.parts
    ensures r.replies == st.replies || r.replies == st.replies + [ReceiveFailed(transfer)]
    ensures r.refused == (st.refused || !FrameAccepted(st, transfer, offset, count))
  {
    if FrameAccepted(st, transfer, offset, count) then st.(binary := BinaryFrame(transfer, count))
    else if count == 0 || count > FILE_FRAME_BYTES || st.binary.remaining != 0 then st.(refused := true)
    else Erase(st, transfer).(replies := st.replies + [ReceiveFailed(transfer)], refused := true)
  }

  /** FILE_DATA: either the next bytes are this transfer's payload, or the frame is refused. */
  function HandleData(st: ClientState, words: seq<Bytes>): (r: ClientState)
    ensures r.lines == st.lines && r.finals == st.finals && r.parts == st.parts && (st.refused ==> r.refused)
  {
    if |words| != 3 then st.(refused := true)
    else
      var transfer, offset, count := ParseUint64(words[0]), ParseUint64(words[1]), ParseUint64(words[2]);
      if transfer.None? || offset.None? || count.None? then st.(refused := true)
      else HandleFrame(st, transfer.value, offset.value, count.value)
  }

  function FailDownload(st: ClientState, transfer: nat): ClientState {
    Erase(st, transfer).(replies := st.replies + [ReceiveFailed(transfer)])
  }

  /** The .part file of a finished download goes away, with its record. */
  function CloseDownload(st: ClientState, transfer: nat): ClientState
    requires transfer in st.downloads
  {
    Erase(st, transfer).(parts := st.parts - {st.downloads[transfer].key},
                         partials := st.partials - {(st.account, transfer)})
  }

  /** `finish_incoming_download` */
  function FinishDownload(st: ClientState, sha: Digest, transfer: nat): (r: ClientState)
    ensures transfer in st.downloads ==>
              var key := st.downloads[transfer].key;
              && r.downloads == st.downloads - {transfer}
              && (r.parts == st.parts || r.parts == st.parts - {key})
              && (r.finals == st.finals
                  || (&& key in st.parts && st.downloads[transfer].received == st.downloads[transfer].offer.size
                      && r.finals == st.finals[key := st.parts[key]]))
    ensures r.offers == st.offers && st.replies <= r.replies && (transfer !in st.downloads ==> r == st)
    ensures r.lines == st.lines && r.refused == st.refused && r.binary == st.binary
  {
    if transfer !in st.downloads then st
    else
      var download := st.downloads[transfer];
      var key := download.key;
      if download.received != download.offer.size || key !in st.parts then FailDownload(st, transfer)
      else if sha(st.parts[key]) != download.offer.digest then
        CloseDownload(st, transfer).(replies := st.replies + [ReceiveFailed(transfer)])
      else
        CloseDownload(st, transfer).(
          finals := st.finals[key := st.parts[key]],
          replies := st.replies + [Received(transfer, sha(st.parts[key]), st.parts[key])])
  }

  function HandleDone(st: ClientState, sha: Digest, words: seq<Bytes>): (r: ClientState)
    ensures r.lines == st.lines && r.refused == st.refused && r.binary == st.binary
  {
    if |words| != 1 || ParseUint64(words[0]).None? then st
    else FinishDownload(st, sha, ParseUint64(words[0]).value)
  }

  function WithoutOffer(lines: seq<Bytes>, prefix: Bytes): seq<Bytes> {
    if lines == [] then []
    else (if prefix <= lines[0] then [] else [lines[0]]) + WithoutOffer(lines[1..], prefix)
  }

  function DropOffers(offers: map<Chat, seq<Bytes>>, transfer: nat): map<Chat, seq<Bytes>> {
    var prefix := "FILE_OFFER " + ToDecimal(transfer) + " ";
    map chat | chat in offers :: WithoutOffer(offers[chat], prefix)
  }

  /** Drop the local copy of a transfer and the offers kept for it. */
  function Revoke(st: ClientState, transfer: nat): (r: ClientState)
    ensures r.lines == st.lines && r.refused == st.refused && r.replies == st.replies
  {
    var reset := st.(offers := DropOffers(st.offers, transfer),
                     binary := if st.binary.transfer == transfer then NO_FRAME else st.binary);
    if transfer !in st.downloads then reset
    else
      var key := st.downloads[transfer].key;
      Erase(reset, transfer).(parts := st.parts - {key}, finals := st.finals - {key},
                              partials := st.partials - {(st.account, transfer)})
  }

  /** FILE_ACCESS_REVOKED */
  function HandleRevoked(st: ClientState, words: seq<Bytes>): (r: ClientState)
    ensures r.lines == st.lines && r.refused == st.refused && r.replies == st.replies
  {
    if words == [] || ParseUint64(words[0]).None? then st else Revoke(st, ParseUint64(words[0]).value)
  }

  // UTF-8 bytes of the texts the server sends; the client also accepts the English forms.
  const LOGIN_DONE: Bytes := "[system] " + "\U{E7}\U{99}\U{BB}\U{E5}\U{BD}\U{95}"
    + "\U{E6}\U{88}\U{90}\U{E5}\U{8A}\U{9F}"
  const LOGOUT_DONE: Bytes := "[system] " + "\U{E9}\U{80}\U{80}\U{E5}\U{87}\U{BA}"
    + "\U{E7}\U{99}\U{BB}\U{E5}\U{BD}\U{95}" + "\U{E6}\U{88}\U{90}\U{E5}\U{8A}\U{9F}"
  const DELETE_DONE: Bytes := "[system] " + "\U{E8}\U{B4}\U{A6}\U{E6}\U{88}\U{B7}"
    + "\U{E6}\U{B3}\U{A8}\U{E9}\U{94}\U{80}" + "\U{E6}\U{88}\U{90}\U{E5}\U{8A}\U{9F}"
  const LOGIN_WRONG: Bytes := "[error] " + "\U{E7}\U{94}\U{A8}\U{E6}\U{88}\U{B7}\U{E5}\U{90}\U{8D}"
    + "\U{E6}\U{88}\U{96}" + "\U{E5}\U{AF}\U{86}\U{E7}\U{A0}\U{81}" + "\U{E9}\U{94}\U{99}\U{E8}\U{AF}\U{AF}"
  const LOGIN_TWICE: Bytes := "[error] " + "\U{E8}\U{AF}\U{A5}" + "\U{E8}\U{B4}\U{A6}\U{E5}\U{8F}\U{B7}"
    + "\U{E5}\U{B7}\U{B2}\U{E7}\U{BB}\U{8F}" + "\U{E7}\U{99}\U{BB}\U{E5}\U{BD}\U{95}"

  predicate IsLoginLine(line: Bytes) { "[system] login successful." <= line || LOGIN_DONE <= line }

  predicate IsLoginError(line: Bytes) {
    || "[error] invalid username or password." <= line || LOGIN_WRONG <= line
    || "[error] this account is already logged in." <= line || LOGIN_TWICE <= line
  }

  predicate IsLogoutLine(line: Bytes) {
    || "[system] logout successful." <= line || LOGOUT_DONE <= line
    || "[system] account deleted successfully." <= line || DELETE_DONE <= line
  }

  predicate IsDeletedLine(line: Bytes) {
    "[system] account deleted successfully." <= line || DELETE_DONE <= line
  }

  function ForgetAccount(partials: map<(Bytes, nat), Offer>, account: Bytes): map<(Bytes, nat), Offer> {
    map k | k in partials && k.0 != account :: partials[k]
  }

  /** LOGIN, LOGOUT and DELETE_ACCOUNT answers. */
  function HandleSystemLine(st: ClientState, line: Bytes): (r: ClientState)
    ensures r.parts == st.parts && r.finals == st.finals && r.replies == st.replies
    ensures r.lines == st.lines && r.refused == st.refused
    ensures IsLogoutLine(line) ==> r.downloads == map[] && r.offers == map[] && r.binary == NO_FRAME && r.account == ""
    ensures !IsLogoutLine(line) ==> r.downloads == st.downloads && r.offers == st.offers && r.binary == st.binary
  {
    var entered := if IsLoginLine(line) && st.pendingLogin != ""
                   then st.(account := st.pendingLogin, pendingLogin := "")
                   else if IsLoginError(line) then st.(pendingLogin := "") else st;
    var cleared := if IsDeletedLine(line) && entered.account != ""
                   then entered.(partials := ForgetAccount(entered.partials, entered.account))
                   else entered;
    if IsLogoutLine(line) then
      cleared.(account := "", pendingLogin := "", chat := NoChat, pendingEntry := NoChat, offers := map[],
               downloads := map[], binary := NO_FRAME)
    else cleared
  }

  const ENTRY_OK: Bytes := "[chat-enter-ok] "
  const ENTRY_ERROR: Bytes := "[chat-enter-error] "

  predicate IsEntryOk(line: Bytes) { ENTRY_OK <= line }

  function EntryWords(line: Bytes): seq<Bytes>
    requires IsEntryOk(line)
  {
    SplitWords(line[|ENTRY_OK|..])
  }

  predicate IsEntryError(line: Bytes) { ENTRY_ERROR <= line }

  function EntryErrorWords(line: Bytes): seq<Bytes>
    requires IsEntryError(line)
  {
    SplitWords(line[|ENTRY_ERROR|..])
  }

  function ScopeChat(scope: Bytes, target: Bytes): Chat {
    if scope == "PRIVATE" then PrivateChat(target) else if scope == "GROUP" then GroupChat(target) else NoChat
  }

  predicate SameScope(a: Chat, b: Chat) { a.PrivateChat? == b.PrivateChat? && a.GroupChat? == b.GroupChat? }

  /** `consume_chat_entry_response`; a confirmed entry takes up the offers kept for that chat. */
  function HandleEntryLine(st: ClientState, sha: Digest, line: Bytes): (r: ClientState)
    ensures r.lines == st.lines && r.refused == st.refused && r.binary == st.binary && r.finals == st.finals
  {
    if IsEntryOk(line) then
      var words := EntryWords(line);
      if |words| != 2 then st.(pendingEntry := NoChat)
      else
        var chat := ScopeChat(words[0], words[1]);
        if chat == NoChat || chat != st.pendingEntry then st
        else EnterChat(st.(pendingEntry := NoChat), sha, chat)
    else if IsEntryError(line) then
      var words := EntryErrorWords(line);
      if |words| >= 2 && st.pendingEntry != NoChat && ScopeChat(words[0], "") != NoChat
         && !SameScope(ScopeChat(words[0], ""), st.pendingEntry) then st
      else st.(pendingEntry := NoChat)
    else st
  }

  function HandleOther(st: ClientState, sha: Digest, line: Bytes): (r: ClientState)
    ensures r.lines == st.lines && r.refused == st.refused && r.finals == st.finals
  {
    if IsEntryOk(line) || IsEntryError(line) then HandleEntryLine(st, sha, line) else HandleSystemLine(st, line)
  }

  datatype LineKind = DataLine | OfferLine | ResumeStartLine | DoneLine | RevokedLine | OtherLine

  function KindOf(name: Bytes): LineKind {
    if name == "FILE_DATA" then DataLine
    else if name == "FILE_OFFER" then OfferLine
    else if name == "FILE_RESUME_START" then ResumeStartLine
    else if name == "FILE_DONE" then DoneLine
    else if name == "FILE_ACCESS_REVOKED" then RevokedLine
    else OtherLine
  }

  function LineKindOf(line: Bytes): LineKind { KindOf(ParseCommand(line).name) }

  function LineWords(line: Bytes): seq<Bytes> { SplitWords(ParseCommand(line).arguments) }

  function Seen(st: ClientState, line: Bytes): ClientState { st.(lines := st.lines + [line]) }

  /** `process_server_line`, as far as downloads go. */
  function ProcessLine(st: ClientState, sha: Digest, line: Bytes): ClientState {
    match LineKindOf(line)
    case DataLine => HandleData(st, LineWords(line))
    case OfferLine => HandleOffer(Seen(st, line), sha, line, LineWords(line))
    case ResumeStartLine => HandleResumeStart(Seen(st, line), LineWords(line))
    case DoneLine => HandleDone(Seen(st, line), sha, LineWords(line))
    case RevokedLine => HandleRevoked(Seen(st, line), LineWords(line))
    case OtherLine => HandleOther(Seen(st, line), sha, line)
  }

  /** Changing the .part files of one transfer leaves the other downloads in order. */
  lemma OthersOk(st: ClientState, st': ClientState, transfer: nat)
    requires st.Valid()
    requires forall t :: t in st'.downloads && t != transfer ==>
             t in st.downloads && st'.downloads[t] == st.downloads[t]
    requires forall key :: key in st.parts && key.transfer != transfer ==>
             key in st'.parts && st'.parts[key] == st.parts[key]
    ensures forall t :: t in st'.downloads && t != transfer ==> st'.DownloadOk(t, st'.downloads[t])
  {
    forall t | t in st'.downloads && t != transfer ensures st'.DownloadOk(t, st'.downloads[t]) {
      assert st.DownloadOk(t, st.downloads[t]);
    }
  }

  /** The .part file a download starts with is there, not longer than the offer says, and the only
      one that changed besides others of the same transfer. */
  lemma PreparedPart(st: ClientState, transfer: nat, offer: Offer)
    ensures var key, parts := PartKey(st.account, transfer, offer), PreparePart(st, transfer, offer);
            && key in parts && |parts[key]| <= offer.size
            && forall k :: k in st.parts && k.transfer != transfer ==> k in parts && parts[k] == st.parts[k]
  {
  }

  /** The record of a partial download says what is offered, and its .part file fits. */
  predicate Saved(st: ClientState, account: Bytes, transfer: nat, offer: Offer) {
    var key := PartKey(account, transfer, offer);
    && (account, transfer) in st.partials && st.partials[(account, transfer)] == offer
    && key in st.parts && |st.parts[key]| <= offer.size
  }

  /** What is already here of an offered file. */
  function SavedBytes(st: ClientState, account: Bytes, transfer: nat, offer: Offer): Bytes {
    if Saved(st, account, transfer, offer) then st.parts[PartKey(account, transfer, offer)] else []
  }

  predicate Finished(st: ClientState, sha: Digest, transfer: nat, offer: Offer) {
    var key := PartKey(st.account, transfer, offer);
    key in st.finals && |st.finals[key]| == offer.size && sha(st.finals[key]) == offer.digest
  }

  /** A download continues where it was interrupted: the request names the number of bytes that are
      here, none of them is lost, and the record goes with the .part file.  A file that is here
      completely is not asked for at all. */
  lemma DownloadResumes(st: ClientState, sha: Digest, transfer: nat, offer: Offer)
    ensures var r, here := StartDownload(st, sha, transfer, offer), SavedBytes(st, st.account, transfer, offer);
            var key := PartKey(st.account, transfer, offer);
            if Finished(st, sha, transfer, offer)
            then r == st.(replies := st.replies + [Received(transfer, offer.digest, st.finals[key])])
            else && r.replies == st.replies + [ResumeRequest(transfer, |here|)]
                 && key in r.parts && r.parts[key] == here
                 && (Saved(st, st.account, transfer, offer) ==> r.parts == st.parts)
                 && r.partials == st.partials[(st.account, transfer) := offer]
                 && r.downloads == st.downloads[transfer := Download(offer, key, |here|)]
  {
  }

  lemma StartDownloadValid(st: ClientState, sha: Digest, transfer: nat, offer: Offer)
    requires st.Valid() && st.binary.remaining == 0 && offer.size <= MAX_FILE_SIZE
    ensures StartDownload(st, sha, transfer, offer).Valid()
  {
    PreparedPart(st, transfer, offer);
    hide PreparePart;
    OthersOk(st, StartDownload(st, sha, transfer, offer), transfer);
  }

  lemma FinishDownloadValid(st: ClientState, sha: Digest, transfer: nat)
    requires st.Valid() && st.binary.remaining == 0
    ensures FinishDownload(st, sha, transfer).Valid()
  {
    if transfer in st.downloads {
      DroppedTransferValid(st, FailDownload(st, transfer), transfer);
      var closed := CloseDownload(st, transfer);
      DroppedTransferValid(st, closed, transfer);
      SameDownloadsValid(closed, closed.(replies := st.replies + [ReceiveFailed(transfer)]));
      var done := FinishDownload(st, sha, transfer);
      if done.downloads == closed.downloads && done.parts == closed.parts {
        SameDownloadsValid(closed, done);
      }
    }
  }

  /** A transfer may disappear together with its .part file. */
  lemma DroppedTransferValid(st: ClientState, st': ClientState, transfer: nat)
    requires st.Valid() && st.binary.remaining == 0 && transfer in st.downloads
    requires st'.downloads == st.downloads - {transfer} && st'.binary.remaining == 0
    requires st'.parts == st.parts || st'.parts == st.parts - {st.downloads[transfer].key}
    ensures st'.Valid()
  {
    assert st.DownloadOk(transfer, st.downloads[transfer]);
    OthersOk(st, st', transfer);
  }

  lemma RevokedValid(st: ClientState, transfer: nat)
    requires st.Valid() && st.binary.remaining == 0
    ensures Revoke(st, transfer).Valid()
  {
    hide DropOffers;
    var st' := Revoke(st, transfer);
    if transfer in st.downloads {
      DroppedTransferValid(st, st', transfer);
    } else {
      FewerDownloadsValid(st, st');
    }
  }

  /** An accepted frame fits the offered size: the 64-bit sum in its check cannot wrap. */
  lemma AcceptedFrameFits(st: ClientState, transfer: nat, offset: nat, count: nat)
    requires st.Valid() && FrameAccepted(st, transfer, offset, count)
    ensures st.downloads[transfer].received + count <= st.downloads[transfer].offer.size
  {
    assert st.DownloadOk(transfer, st.downloads[transfer]);
    assert offset + count < UINT64_LIMIT;
  }

  lemma AcceptedFrameValid(st: ClientState, transfer: nat, offset: nat, count: nat)
    requires st.Valid() && FrameAccepted(st, transfer, offset, count)
    ensures st.(binary := BinaryFrame(transfer, count)).Valid()
  {
    AcceptedFrameFits(st, transfer, offset, count);
    var st' := st.(binary := BinaryFrame(transfer, count));
    assert forall t :: t in st.downloads ==> st.DownloadOk(t, st.downloads[t]) && st'.DownloadOk(t, st.downloads[t]);
  }

  lemma FewerDownloadsValid(st: ClientState, st': ClientState)
    requires st.Valid() && st.binary.remaining == 0
    requires st'.parts == st.parts && st'.binary.remaining == 0
    requires forall t :: t in st'.downloads ==> t in st.downloads && st'.downloads[t] == st.downloads[t]
    ensures st'.Valid()
  {
    forall t | t in st'.downloads ensures st'.DownloadOk(t, st'.downloads[t]) {
      assert st.DownloadOk(t, st.downloads[t]);
    }
  }

  lemma FrameValid(st: ClientState, transfer: nat, offset: nat, count: nat)
    requires st.Valid() && st.binary.remaining == 0
    ensures HandleFrame(st, transfer, offset, count).Valid()
  {
    if FrameAccepted(st, transfer, offset, count) {
      AcceptedFrameValid(st, transfer, offset, count);
    } else {
      FewerDownloadsValid(st, HandleFrame(st, transfer, offset, count));
    }
  }

  lemma DataValid(st: ClientState, words: seq<Bytes>)
    requires st.Valid() && st.binary.remaining == 0
    ensures HandleData(st, words).Valid()
  {
    if |words| == 3 && ParseUint64(words[0]).Some? && ParseUint64(words[1]).Some? && ParseUint64(words[2]).Some? {
      FrameValid(st, ParseUint64(words[0]).value, ParseUint64(words[1]).value, ParseUint64(words[2]).value);
    } else {
      SameDownloadsValid(st, HandleData(st, words));
    }
  }

  lemma SameDownloadsValid(st: ClientState, st': ClientState)
    requires st.Valid() && st'.downloads == st.downloads && st'.parts == st.parts && st'.binary == st.binary
    ensures st'.Valid()
  {
    assert forall t :: t in st.downloads ==> st.DownloadOk(t, st.downloads[t]) && st'.DownloadOk(t, st.downloads[t]);
  }

  lemma OfferValid(st: ClientState, sha: Digest, line: Bytes, words: seq<Bytes>)
    requires st.Valid() && st.binary.remaining == 0
    ensures HandleOffer(st, sha, line, words).Valid() && HandleOffer(st, sha, line, words).binary == st.binary
  {
    var parsed := ParseOffer(words);
    if parsed.Some? {
      StartDownloadValid(st, sha, parsed.value.transfer, parsed.value.offer);
    }
    var st' := HandleOffer(st, sha, line, words);
    if st'.downloads == st.downloads && st'.parts == st.parts {
      SameDownloadsValid(st, st');
    }
  }

  lemma SystemLineValid(st: ClientState, line: Bytes)
    requires st.Valid() && st.binary.remaining == 0
    ensures HandleSystemLine(st, line).Valid()
  {
    var st' := HandleSystemLine(st, line);
    forall t | t in st'.downloads ensures st'.DownloadOk(t, st'.downloads[t]) {
      assert st.DownloadOk(t, st.downloads[t]);
    }
  }

  lemma ResumeStartValid(st: ClientState, words: seq<Bytes>)
    requires st.Valid() && st.binary.remaining == 0
    ensures HandleResumeStart(st, words).Valid()
  {
    FewerDownloadsValid(st, HandleResumeStart(st, words));
  }

  lemma DoneValid(st: ClientState, sha: Digest, words: seq<Bytes>)
    requires st.Valid() && st.binary.remaining == 0
    ensures HandleDone(st, sha, words).Valid()
  {
    if |words| == 1 && ParseUint64(words[0]).Some? {
      FinishDownloadValid(st, sha, ParseUint64(words[0]).value);
    }
  }

  /** Entering a chat handles the offers kept for it and keeps the state valid. */
  lemma {:induction false} HandleOffersValid(st: ClientState, sha: Digest, lines: seq<Bytes>)
    requires st.Valid() && st.binary.remaining == 0
    ensures HandleOffers(st, sha, lines).Valid()
    decreases |lines|
  {
    if lines == [] {
    } else {
      var words := LineWords(lines[0]);
      OfferValid(st, sha, lines[0], words);
      HandleOffersValid(HandleOffer(st, sha, lines[0], words), sha, lines[1..]);
    }
  }

  lemma OtherValid(st: ClientState, sha: Digest, line: Bytes)
    requires st.Valid() && st.binary.remaining == 0
    ensures HandleOther(st, sha, line).Valid()
  {
    hide HandleOffers;
    SystemLineValid(st, line);
    SameDownloadsValid(st, st.(pendingEntry := NoChat));
    if IsEntryOk(line) {
      var words := EntryWords(line);
      if |words| == 2 {
        EnterChatValid(st.(pendingEntry := NoChat), sha, ScopeChat(words[0], words[1]));
      }
    }
  }

  lemma EnterChatValid(st: ClientState, sha: Digest, chat: Chat)
    requires st.Valid() && st.binary.remaining == 0
    ensures EnterChat(st, sha, chat).Valid()
  {
    var shown := st.(chat := chat, offers := st.offers - {chat});
    SameDownloadsValid(st, shown);
    HandleOffersValid(shown, sha, if chat in st.offers then st.offers[chat] else []);
  }

  /** No line breaks what the client keeps. */
  lemma ProcessLineValid(st: ClientState, sha: Digest, line: Bytes)
    requires st.Valid() && st.binary.remaining == 0
    ensures ProcessLine(st, sha, line).Valid()
  {
    var seen, words := Seen(st, line), LineWords(line);
    SameDownloadsValid(st, seen);
    match LineKindOf(line) {
      case DataLine => DataValid(st, words);
      case OfferLine => OfferValid(seen, sha, line, words);
      case ResumeStartLine => ResumeStartValid(seen, words);
      case DoneLine => DoneValid(seen, sha, words);
      case RevokedLine =>
        if words != [] && ParseUint64(words[0]).Some? {
          RevokedValid(seen, ParseUint64(words[0]).value);
        }
      case OtherLine => OtherValid(seen, sha, line);
    }
  }

  // ---- the demultiplexer --------------------------------------------------------------------

  /** `server_buffer_` and `state_` of the client application. */
  datatype Receiver = Receiver(buffer: Bytes, state: ClientState)

  predicate CanStep(r: Receiver) {
    if r.state.binary.remaining > 0 then r.buffer != [] else '\n' in r.buffer
  }

  /** The checks of `consume_file_binary_payload` that give up on the frame. */
  predicate PayloadRejected(st: ClientState, count: nat) {
    || st.binary.transfer !in st.downloads
    || st.downloads[st.binary.transfer].key !in st.parts
    || Sum64(st.downloads[st.binary.transfer].received, count)
       > st.downloads[st.binary.transfer].offer.size
  }

  /** Append payload bytes to the .part file. */
  function TakePayload(st: ClientState, bytes: Bytes): ClientState
    requires !PayloadRejected(st, |bytes|) && |bytes| <= st.binary.remaining
  {
    var transfer := st.binary.transfer;
    var download := st.downloads[transfer];
    var rest := st.binary.remaining - |bytes|;
    st.(parts := st.parts[download.key := st.parts[download.key] + bytes],
        downloads := st.downloads[transfer := download.(received := download.received + |bytes|)],
        binary := if rest == 0 then NO_FRAME else BinaryFrame(transfer, rest))
  }

  function PayloadCount(r: Receiver): nat {
    if r.state.binary.remaining <= |r.buffer| then r.state.binary.remaining else |r.buffer|
  }

  /** One round of the loop in `consume_complete_lines`. */
  function Step(r: Receiver, sha: Digest): (r': Receiver)
    requires CanStep(r)
    requires r.state.binary.remaining > 0 ==> !PayloadRejected(r.state, PayloadCount(r))
    ensures |r'.buffer| < |r.buffer|
  {
    if r.state.binary.remaining > 0 then
      var count := PayloadCount(r);
      Receiver(r.buffer[count..], TakePayload(r.state, r.buffer[..count]))
    else
      var newline := IndexOf(r.buffer, '\n');
      Receiver(r.buffer[newline + 1..], ProcessLine(r.state, sha, StripReturn(r.buffer[..newline])))
  }

  /** `consume_complete_lines`: rounds until nothing complete is left, or a payload is rejected. */
  function Run(r: Receiver, sha: Digest): Receiver
    decreases |r.buffer|
  {
    if !CanStep(r) then r
    else if r.state.binary.remaining > 0 && PayloadRejected(r.state, PayloadCount(r)) then
      r.(state := r.state.(binary := NO_FRAME))
    else Run(Step(r, sha), sha)
  }

  function Feed(r: Receiver, sha: Digest, data: Bytes): Receiver {
    Run(r.(buffer := r.buffer + data), sha)
  }

  function FeedAll(r: Receiver, sha: Digest, chunks: seq<Bytes>): Receiver
    decreases |chunks|
  {
    if chunks == [] then r else FeedAll(Feed(r, sha, chunks[0]), sha, chunks[1..])
  }

  function Concat(chunks: seq<Bytes>): Bytes {
    if chunks == [] then [] else chunks[0] + Concat(chunks[1..])
  }

  /** In a valid state no payload is ever rejected: the over-run guard cannot fire, and the 64-bit
      sum it computes does not wrap. */
  lemma PayloadNeverRejected(r: Receiver)
    requires r.state.Valid() && r.state.binary.remaining > 0
    ensures !PayloadRejected(r.state, PayloadCount(r))
    ensures r.state.downloads[r.state.binary.transfer].received + PayloadCount(r) < UINT64_LIMIT
  {
  }

  lemma StepValid(r: Receiver, sha: Digest)
    requires r.state.Valid() && CanStep(r)
    ensures r.state.binary.remaining > 0 ==> !PayloadRejected(r.state, PayloadCount(r))
    ensures Step(r, sha).state.Valid()
  {
    if r.state.binary.remaining == 0 {
      ProcessLineValid(r.state, sha, StripReturn(r.buffer[..IndexOf(r.buffer, '\n')]));
    } else {
      PayloadNeverRejected(r);
    }
  }

  lemma {:induction false} RunValid(r: Receiver, sha: Digest)
    requires r.state.Valid()
    ensures Run(r, sha).state.Valid() && !CanStep(Run(r, sha))
    decreases |r.buffer|
  {
    if CanStep(r) {
      StepValid(r, sha);
      RunValid(Step(r, sha), sha);
    }
  }

  /** Reading a payload in two pieces has the effect of reading it in one. */
  lemma PayloadSplit(st: ClientState, a: Bytes, b: Bytes)
    requires st.Valid() && |a| + |b| <= st.binary.remaining && a != [] && b != []
    ensures !PayloadRejected(st, |a|) && !PayloadRejected(st, |a + b|)
    ensures var half := TakePayload(st, a);
            half.Valid() && !PayloadRejected(half, |b|) && TakePayload(half, b) == TakePayload(st, a + b)
  {
    var transfer := st.binary.transfer;
    var key := st.downloads[transfer].key;
    assert st.parts[key] + a + b == st.parts[key] + (a + b);
    var half := TakePayload(st, a);
    assert half.parts[key := half.parts[key] + b] == st.parts[key := st.parts[key] + (a + b)];
    assert TakePayload(half, b).downloads == TakePayload(st, a + b).downloads;
  }

  /** Steps that leave the unread bytes alone commute with more bytes arriving. */
  lemma StepMore(r: Receiver, sha: Digest, more: Bytes)
    requires r.state.Valid() && CanStep(r)
    requires r.state.binary.remaining <= |r.buffer|
    ensures var longer := r.(buffer := r.buffer + more);
            && CanStep(longer)
            && (longer.state.binary.remaining > 0 ==> !PayloadRejected(longer.state, PayloadCount(longer)))
            && Step(longer, sha) == Step(r, sha).(buffer := Step(r, sha).buffer + more)
  {
    var longer := r.(buffer := r.buffer + more);
    if r.state.binary.remaining > 0 {
      PayloadNeverRejected(r);
      var n := r.state.binary.remaining;
      assert longer.buffer[..n] == r.buffer[..n];
      assert longer.buffer[n..] == r.buffer[n..] + more;
    } else {
      IndexOfAppend(r.buffer, more, '\n');
      var n := IndexOf(r.buffer, '\n');
      assert longer.buffer[..n] == r.buffer[..n];
      assert longer.buffer[n + 1..] == r.buffer[n + 1..] + more;
    }
  }

  /** A payload cut short by the end of the buffer continues with the bytes that come next. */
  lemma PayloadStepMore(r: Receiver, sha: Digest, more: Bytes)
    requires r.state.Valid() && r.buffer != [] && more != []
    requires r.state.binary.remaining > |r.buffer|
    ensures !PayloadRejected(r.state, PayloadCount(r))
    ensures var longer, half := r.(buffer := r.buffer + more), Step(r, sha);
            && half.buffer == [] && half.state.Valid() && !CanStep(half)
            && CanStep(half.(buffer := more)) && CanStep(longer)
            && half.state.binary.remaining > 0
            && !PayloadRejected(half.state, PayloadCount(half.(buffer := more)))
            && !PayloadRejected(longer.state, PayloadCount(longer))
            && Step(half.(buffer := more), sha) == Step(longer, sha)
  {
    hide ProcessLine, IndexOf;
    var longer := r.(buffer := r.buffer + more);
    var n := PayloadCount(longer);
    var a, b := r.buffer, more[..n - |r.buffer|];
    PayloadSplit(r.state, a, b);
    assert r.buffer[..|r.buffer|] == a && longer.buffer[..n] == a + b;
    assert more[|b|..] == longer.buffer[n..];
  }

  /** Draining first and then receiving more equals receiving everything and then draining. */
  lemma {:induction false} RunMore(r: Receiver, sha: Digest, more: Bytes)
    requires r.state.Valid()
    ensures Feed(Run(r, sha), sha, more) == Feed(r, sha, more)
    decreases |r.buffer|
  {
    hide ProcessLine, IndexOf, PayloadRejected, TakePayload;
    if CanStep(r) {
      StepValid(r, sha);
      var longer := r.(buffer := r.buffer + more);
      if r.state.binary.remaining <= |r.buffer| {
        StepMore(r, sha, more);
        RunMore(Step(r, sha), sha, more);
      } else if more != [] {
        PayloadStepMore(r, sha, more);
        assert [] + more == more;
      } else {
        assert longer == r;
        RunValid(r, sha);
        assert Run(r, sha).(buffer := Run(r, sha).buffer + more) == Run(r, sha);
      }
    }
  }

  /** Fragmentation does not matter: feeding `a` and then `b` has the effect of feeding `a + b`. */
  lemma FeedTwice(r: Receiver, sha: Digest, a: Bytes, b: Bytes)
    requires r.state.Valid()
    ensures Feed(Feed(r, sha, a), sha, b) == Feed(r, sha, a + b)
  {
    RunMore(r.(buffer := r.buffer + a), sha, b);
    assert r.buffer + a + b == r.buffer + (a + b);
  }

  /** However the stream is cut, the client ends in the state the whole stream leads to. */
  lemma {:induction false} FragmentationIndependence(r: Receiver, sha: Digest, chunks: seq<Bytes>)
    requires r.state.Valid() && !CanStep(r)
    ensures FeedAll(r, sha, chunks) == Feed(r, sha, Concat(chunks))
    ensures FeedAll(r, sha, chunks).state.Valid()
    decreases |chunks|
  {
    if chunks == [] {
      assert r.buffer + [] == r.buffer;
    } else {
      RunValid(r.(buffer := r.buffer + chunks[0]), sha);
      FragmentationIndependence(Feed(r, sha, chunks[0]), sha, chunks[1..]);
      FeedTwice(r, sha, chunks[0], Concat(chunks[1..]));
    }
  }

  /** The client application's receive path. */
  class ClientApp {
    const sha: Digest
    var serverBuffer: Bytes
    var state: ClientState

    function Abs(): Receiver
      reads this
    {
      Receiver(serverBuffer, state)
    }

    constructor (sha: Digest, disk: ClientState)
      ensures this.sha == sha && Abs() == Receiver([], disk)
    {
      this.sha, serverBuffer, state := sha, [], disk;
    }

    /** `read_tls_available` for one piece of data. */
    method Receive(data: Bytes)
      modifies this
      ensures Abs() == Feed(old(Abs()), sha, data)
      ensures old(state.Valid()) ==> state.Valid() && !CanStep(Abs())
    {
      serverBuffer := serverBuffer + data;
      ConsumeCompleteLines();
    }

    method ConsumeCompleteLines()
      modifies this
      ensures Abs() == Run(old(Abs()), sha)
      ensures old(state.Valid()) ==> state.Valid() && !CanStep(Abs())
    {
      hide ProcessLine;
      if state.Valid() {
        RunValid(Abs(), sha);
      }
      while CanStep(Abs())
        invariant Run(Abs(), sha) == Run(old(Abs()), sha)
        decreases |serverBuffer|
      {
        if state.binary.remaining > 0 {
          var taken := ConsumePayload();
          if !taken {
            return;
          }
        } else {
          var newline := IndexOf(serverBuffer, '\n');
          var line := serverBuffer[..newline];
          serverBuffer := serverBuffer[newline + 1..];
          state := ProcessLine(state, sha, StripReturn(line));
        }
      }
    }

    /** `consume_file_binary_payload`: false when the frame had to be given up. */
    method ConsumePayload() returns (taken: bool)
      requires CanStep(Abs()) && state.binary.remaining > 0
      modifies this
      ensures taken == !PayloadRejected(old(state), PayloadCount(old(Abs())))
      ensures taken ==> Abs() == Step(old(Abs()), sha)
      ensures !taken ==> Abs() == old(Abs()).(state := old(state).(binary := NO_FRAME))
    {
      var count := if state.binary.remaining <= |serverBuffer| then state.binary.remaining else |serverBuffer|;
      if PayloadRejected(state, count) {
        state := state.(binary := NO_FRAME);
        return false;
      }
      state := TakePayload(state, serverBuffer[..count]);
      serverBuffer := serverBuffer[count..];
      return true;
    }
  }
}
