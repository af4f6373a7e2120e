/** What each line does to the client, beyond what every line keeps: which downloads, files, records,
    offers and answers are there afterwards, and that nothing else changes. */
module ClientEffects {
  import opened Text
  import opened Percent
  import opened ClientDemux
  import opened Sessions
  import Offers
  import FileLines

  // ---- offers -------------------------------------------------------------------------------

  /** An offer is read exactly when its words are in order, and what is read is fit for use: a size
      within the limit, a digest of the right form and a safe local name. */
  lemma OfferRead(words: seq<Bytes>)
    ensures ParseOffer(words).Some? <==>
            && |words| == 7 && ParseUint64(words[0]).Some? && (words[1] == "PRIVATE" || words[1] == "GROUP")
            && DecodeToken(words[3]).Some? && DecodeToken(words[4]).Some?
            && ParseUint64(words[5]).Some? && ParseUint64(words[5]).value <= MAX_FILE_SIZE && IsSha256Hex(words[6])
    ensures ParseOffer(words).Some? ==>
              var o := ParseOffer(words).value.offer;
              o.size <= MAX_FILE_SIZE && IsSha256Hex(o.digest) && SafeName(o.name) && o.digest == words[6]
  {
    hide ParseUint64, DecodeToken, IsSha256Hex, SanitizeFilename, SafeName;
    if |words| == 7 && DecodeToken(words[4]).Some? {
      SanitizedName(DecodeToken(words[4]).value);
    }
  }

  /** A new offer replaces what was saved under another one: the old .part file goes, the .part file of
      the new one is there, and no other file changes. */
  lemma PartsAfterOffer(st: ClientState, transfer: nat, offer: Offer)
    ensures var parts, key := PreparePart(st, transfer, offer), PartKey(st.account, transfer, offer);
            var replaced := (st.account, transfer) in st.partials && st.partials[(st.account, transfer)] != offer;
            && (forall k :: k in parts <==>
                  || k == key
                  || (k in st.parts
                      && !(replaced && k == PartKey(st.account, transfer, st.partials[(st.account, transfer)]))))
            && (forall k :: k in parts && k != key ==> parts[k] == st.parts[k])
            && parts[key] == SavedBytes(st, st.account, transfer, offer)
  {
  }

  // ---- the file protocol --------------------------------------------------------------------

  /** The download is given up and the server is told; its .part file and record stay, so that it can be
      resumed. */
  predicate GivenUp(st: ClientState, st': ClientState, transfer: nat) {
    st' == st.(downloads := st.downloads - {transfer}, replies := st.replies + [ReceiveFailed(transfer)])
  }

  /** FILE_RESUME_START at an offset other than the one asked for gives the download up; otherwise
      nothing happens. */
  lemma ResumeStartEffect(st: ClientState, words: seq<Bytes>, transfer: nat, offset: nat)
    requires |words| == 2 && ParseUint64(words[0]) == Some(transfer) && ParseUint64(words[1]) == Some(offset)
    ensures var st' := HandleResumeStart(st, words);
            if transfer in st.downloads && st.downloads[transfer].received != offset
            then GivenUp(st, st', transfer) else st' == st
  {
    hide ParseUint64;
  }

  /** A frame header is accepted, and its payload awaited, or refused: then the download is given up,
      unless the header makes no sense at all. */
  lemma FrameEffect(st: ClientState, transfer: nat, offset: nat, count: nat)
    ensures var st' := HandleFrame(st, transfer, offset, count);
            if FrameAccepted(st, transfer, offset, count)
            then st' == st.(binary := BinaryFrame(transfer, count))
            else if 0 < count <= FILE_FRAME_BYTES && st.binary.remaining == 0
            then GivenUp(st.(refused := true), st', transfer)
            else st' == st.(refused := true)
  {
    hide FrameAccepted;
  }

  /** A header whose three numbers cannot be read is refused, and nothing else happens. */
  lemma MalformedHeader(st: ClientState, words: seq<Bytes>)
    requires |words| != 3 || exists i :: 0 <= i < 3 && ParseUint64(words[i]).None?
    ensures HandleData(st, words) == st.(refused := true)
  {
    hide ParseUint64, HandleFrame;
    if |words| == 3 {
      assert ParseUint64(words[0]).None? || ParseUint64(words[1]).None? || ParseUint64(words[2]).None?;
    }
  }

  /** FILE_DONE for a download that is not complete gives it up; it can be resumed. */
  lemma FinishEarly(st: ClientState, sha: Digest, transfer: nat)
    requires transfer in st.downloads && st.downloads[transfer].received != st.downloads[transfer].offer.size
    ensures GivenUp(st, FinishDownload(st, sha, transfer), transfer)
  {
  }

  /** What FILE_DONE leaves of a complete download: no .part file, no record, and `answer`. */
  predicate Closed(st: ClientState, st': ClientState, transfer: nat, answer: Reply)
    requires transfer in st.downloads
  {
    st' == st.(downloads := st.downloads - {transfer}, parts := st.parts - {st.downloads[transfer].key},
               partials := st.partials - {(st.account, transfer)}, finals := st'.finals,
               replies := st.replies + [answer])
  }

  /** Bytes that are not the offered ones are dropped: the next download starts from the beginning. */
  lemma FinishWrong(st: ClientState, sha: Digest, transfer: nat)
    requires transfer in st.downloads && st.downloads[transfer].key in st.parts
    requires var d := st.downloads[transfer]; d.received == d.offer.size && sha(st.parts[d.key]) != d.offer.digest
    ensures var st' := FinishDownload(st, sha, transfer);
            && Closed(st, st', transfer, ReceiveFailed(transfer)) && st'.finals == st.finals
            && SavedBytes(st', st.account, transfer, st.downloads[transfer].offer) == []
  {
  }

  /** The right ones become the file, which is acknowledged; the same offer is answered with a receipt
      from then on. */
  lemma FinishRight(st: ClientState, sha: Digest, transfer: nat)
    requires transfer in st.downloads && st.downloads[transfer].key in st.parts
    requires var d := st.downloads[transfer];
             && d.received == d.offer.size == |st.parts[d.key]| && sha(st.parts[d.key]) == d.offer.digest
             && d.key == PartKey(st.account, transfer, d.offer)
    ensures var st', d := FinishDownload(st, sha, transfer), st.downloads[transfer];
            && Closed(st, st', transfer, Received(transfer, d.offer.digest, st.parts[d.key]))
            && st'.finals == st.finals[d.key := st.parts[d.key]] && Finished(st', sha, transfer, d.offer)
  {
  }

  // ---- revoking -----------------------------------------------------------------------------

  function OfferPrefix(transfer: nat): Bytes { "FILE_OFFER " + ToDecimal(transfer) + " " }

  /** The lines that stay are those without the prefix. */
  lemma {:induction false} WithoutOfferExact(lines: seq<Bytes>, prefix: Bytes)
    ensures forall line :: line in WithoutOffer(lines, prefix) <==> line in lines && !(prefix <= line)
  {
    if lines == [] {
    } else {
      WithoutOfferExact(lines[1..], prefix);
      assert forall line :: line in lines <==> line == lines[0] || line in lines[1..];
    }
  }

  /** They stay in their order. */
  lemma {:induction false} WithoutOfferJoin(a: seq<Bytes>, line: Bytes, prefix: Bytes)
    ensures WithoutOffer(a + [line], prefix) == WithoutOffer(a, prefix) + if prefix <= line then [] else [line]
    decreases |a|
  {
    if a == [] {
      assert a + [line] == [line];
      assert WithoutOffer([], prefix) == [];
    } else {
      WithoutOfferJoin(a[1..], line, prefix);
      assert (a + [line])[1..] == a[1..] + [line] && (a + [line])[0] == a[0];
      JoinLines(if prefix <= a[0] then [] else [a[0]], WithoutOffer(a[1..], prefix),
        if prefix <= line then [] else [line]);
    }
  }

  lemma JoinLines(a: seq<Bytes>, b: seq<Bytes>, c: seq<Bytes>)
    ensures a + (b + c) == a + b + c
  {
  }

  /** FILE_ACCESS_REVOKED: the download of the transfer, its files and its record go, with the offers kept
      for it in every chat; a frame of it that was being read is over; nothing else changes. */
  lemma RevokeEffect(st: ClientState, transfer: nat)
    ensures var st' := Revoke(st, transfer);
            && st'.downloads == st.downloads - {transfer} && st'.offers.Keys == st.offers.Keys
            && (forall chat, line :: chat in st.offers ==>
                  (line in st'.offers[chat] <==> line in st.offers[chat] && !(OfferPrefix(transfer) <= line)))
            && st'.binary == (if st.binary.transfer == transfer then NO_FRAME else st.binary)
            && (if transfer in st.downloads
                then var key := st.downloads[transfer].key;
                     && st'.parts == st.parts - {key} && st'.finals == st.finals - {key}
                     && st'.partials == st.partials - {(st.account, transfer)}
                else st'.parts == st.parts && st'.finals == st.finals && st'.partials == st.partials)
            && st' == st.(downloads := st'.downloads, offers := st'.offers, binary := st'.binary, parts := st'.parts,
                          finals := st'.finals, partials := st'.partials)
  {
    assert transfer !in st.downloads ==> st.downloads - {transfer} == st.downloads;
    forall chat, line | chat in st.offers
      ensures line in Revoke(st, transfer).offers[chat] <==> line in st.offers[chat] && !(OfferPrefix(transfer) <= line)
    {
      WithoutOfferExact(st.offers[chat], OfferPrefix(transfer));
    }
  }

  /** The offers dropped are those of this transfer, and no others. */
  lemma PrefixNames(transfer: nat, other: nat, offer: Offer)
    requires Offers.Printable(other, offer)
    ensures OfferPrefix(transfer) <= Offers.OfferLine(other, offer) <==> transfer == other
  {
    var a, b := ToDecimal(transfer), ToDecimal(other);
    var rest := Offers.JoinWords(Offers.OfferWords(other, offer)[1..]);
    assert Offers.OfferLine(other, offer) == "FILE_OFFER " + b + " " + rest;
    hide ToDecimal, Offers.OfferLine, Offers.JoinWords;
    NumbersApart("FILE_OFFER ", a, b, rest);
    DecimalRoundTrip(transfer);
    DecimalRoundTrip(other);
    assert a == b ==> transfer == DigitsValue(a) == DigitsValue(b) == other;
  }

  lemma NumbersApart(head: Bytes, a: Bytes, b: Bytes, rest: Bytes)
    requires ' ' !in a && ' ' !in b
    ensures head + a + " " <= head + b + " " + rest <==> a == b
  {
    var x, y := a + " ", b + " " + rest;
    assert head + a + " " == head + x && head + b + " " + rest == head + y;
    assert head + x <= head + y <==> x <= y by {
      assert (head + y)[|head|..] == y && (head + x)[|head|..] == x;
    }
    IndexOfMiddle(a, ' ', []);
    IndexOfMiddle(b, ' ', rest);
    assert a + [' '] + [] == x && b + [' '] + rest == y;
    if x <= y {
      assert x[|a|] == ' ';
      IndexOfAppend(x, y[|x|..], ' ');
      assert x + y[|x|..] == y;
      assert a == x[..|a|] && b == y[..|b|] && y[..|a|] == x[..|a|];
    } else {
      assert a == b ==> y == x + rest;
    }
  }

  // ---- accounts -----------------------------------------------------------------------------

  /** What is left after a logout: the disk and what has been said and read. */
  function LoggedOut(st: ClientState): ClientState {
    Restart(st).(replies := st.replies, lines := st.lines, refused := st.refused)
  }

  /** The answers to LOGIN, and lines that answer nothing. */
  lemma LoginEffect(st: ClientState, line: Bytes)
    requires !IsLogoutLine(line)
    ensures var st' := HandleSystemLine(st, line);
            if IsLoginLine(line) && st.pendingLogin != ""
            then st' == st.(account := st.pendingLogin, pendingLogin := "")
            else if IsLoginError(line) then st' == st.(pendingLogin := "")
            else st' == st
  {
    DeletedLogsOut(line);
    hide IsLoginLine, IsLoginError, IsLogoutLine, IsDeletedLine;
  }

  /** The answer to LOGOUT: only the disk is left, and what has been said and read. */
  lemma LogoutEffect(st: ClientState, line: Bytes)
    requires IsLogoutLine(line) && !IsDeletedLine(line)
    ensures HandleSystemLine(st, line) == LoggedOut(st)
  {
    hide IsLoginLine, IsLoginError, IsLogoutLine, IsDeletedLine;
  }

  /** The answer to DELETE_ACCOUNT: the account's records go, too, and nobody else's. */
  lemma DeleteEffect(st: ClientState, line: Bytes)
    requires IsDeletedLine(line) && !IsLoginLine(line) && st.account != ""
    ensures var st' := HandleSystemLine(st, line);
            && st' == LoggedOut(st).(partials := st'.partials)
            && (forall k :: k in st'.partials <==> k in st.partials && k.0 != st.account)
            && (forall k :: k in st'.partials ==> st'.partials[k] == st.partials[k])
  {
    hide HandleSystemLine, LoggedOut, IsDeletedLine, IsLoginLine, ForgetAccount;
    Deleted(st, line);
    OthersRemembered(st.partials, st.account);
  }

  lemma Deleted(st: ClientState, line: Bytes)
    requires IsDeletedLine(line) && !IsLoginLine(line) && st.account != ""
    ensures HandleSystemLine(st, line) == LoggedOut(st).(partials := ForgetAccount(st.partials, st.account))
  {
    hide IsLoginLine, IsLoginError, IsLogoutLine, IsDeletedLine, ForgetAccount;
    DeletedLogsOut(line);
  }

  lemma OthersRemembered(partials: map<(Bytes, nat), Offer>, account: Bytes)
    ensures var left := ForgetAccount(partials, account);
            && (forall k :: k in left <==> k in partials && k.0 != account)
            && (forall k :: k in left ==> left[k] == partials[k])
  {
  }

  lemma DeletedLogsOut(line: Bytes)
    ensures IsDeletedLine(line) ==> IsLogoutLine(line)
  {
  }

  /** After a failed login no later login answer logs anybody in, until the user asks again. */
  lemma FailedLoginForgotten(st: ClientState, error: Bytes, login: Bytes)
    requires IsLoginError(error) && !IsLoginLine(error) && !IsLogoutLine(error)
    requires IsLoginLine(login) && !IsLogoutLine(login) && !IsLoginError(login)
    ensures HandleSystemLine(HandleSystemLine(st, error), login).account == st.account
  {
    LoginEffect(st, error);
    LoginEffect(HandleSystemLine(st, error), login);
    hide IsLoginLine, IsLoginError, IsLogoutLine, IsDeletedLine;
  }

  // ---- chats --------------------------------------------------------------------------------

  /** Only the answer to the pending request opens a chat; a refusal, or a garbled answer, ends the
      request, so that a later confirmation opens nothing. */
  lemma EntryEffect(st: ClientState, sha: Digest, line: Bytes)
    ensures var st' := HandleEntryLine(st, sha, line);
            && (IsEntryOk(line) && |EntryWords(line)| == 2 ==>
                  var chat := ScopeChat(EntryWords(line)[0], EntryWords(line)[1]);
                  if chat == NoChat || chat != st.pendingEntry then st' == st
                  else st'.chat == chat && st'.pendingEntry == NoChat && chat !in st'.offers)
            && (IsEntryOk(line) && |EntryWords(line)| != 2 ==> st' == st.(pendingEntry := NoChat))
            && (IsEntryError(line) && !IsEntryOk(line) ==>
                  var words := EntryErrorWords(line);
                  var scope := if words == [] then NoChat else ScopeChat(words[0], "");
                  if |words| >= 2 && st.pendingEntry != NoChat && scope != NoChat && !SameScope(scope, st.pendingEntry)
                  then st' == st else st' == st.(pendingEntry := NoChat))
            && (!IsEntryOk(line) && !IsEntryError(line) ==> st' == st)
  {
    hide IsEntryOk, IsEntryError, EntryWords, EntryErrorWords, ScopeChat, SameScope, HandleOffers;
    if IsEntryOk(line) && |EntryWords(line)| == 2 {
      var chat := ScopeChat(EntryWords(line)[0], EntryWords(line)[1]);
      var shown := st.(pendingEntry := NoChat, chat := chat, offers := st.offers - {chat});
      OffersStayIn(shown, sha, if chat in st.offers then st.offers[chat] else []);
    }
  }

  /** Handling the kept offers of the chat being shown opens no other chat. */
  lemma {:induction false} OffersStayIn(st: ClientState, sha: Digest, lines: seq<Bytes>)
    ensures var st' := HandleOffers(st, sha, lines);
            st'.chat == st.chat && st'.pendingEntry == st.pendingEntry
            && (st.chat !in st.offers ==> st.chat !in st'.offers)
    decreases |lines|
  {
    hide HandleOffer, LineWords;
    if lines == [] {
    } else {
      OfferStaysIn(st, sha, lines[0], LineWords(lines[0]));
      OffersStayIn(HandleOffer(st, sha, lines[0], LineWords(lines[0])), sha, lines[1..]);
    }
  }

  lemma OfferStaysIn(st: ClientState, sha: Digest, line: Bytes, words: seq<Bytes>)
    ensures var st' := HandleOffer(st, sha, line, words);
            st'.chat == st.chat && st'.pendingEntry == st.pendingEntry
            && (st.chat !in st.offers ==> st.chat !in st'.offers)
  {
    hide ParseOffer, OfferChat, StartDownload;
    if ParseOffer(words).Some? {
      StartStaysIn(st, sha, ParseOffer(words).value.transfer, ParseOffer(words).value.offer);
    }
  }

  lemma StartStaysIn(st: ClientState, sha: Digest, transfer: nat, offer: Offer)
    ensures var st' := StartDownload(st, sha, transfer, offer);
            st'.chat == st.chat && st'.pendingEntry == st.pendingEntry
  {
    hide PreparePart;
  }

  /** The acts of the user. */
  lemma ActEffect(st: ClientState, name: Bytes, chat: Chat)
    ensures Do(st, AskLogin(name)).pendingLogin == name && Do(st, AskEntry(chat)).pendingEntry == chat
    ensures Do(st, LeaveChat).chat == NoChat && Do(st, LeaveChat).pendingEntry == NoChat
    ensures chat !in Do(st, ForgetOffers(chat)).offers
    ensures forall other :: other != chat && other in st.offers ==>
              other in Do(st, ForgetOffers(chat)).offers && Do(st, ForgetOffers(chat)).offers[other] == st.offers[other]
  {
  }

  // ---- the end of a connection --------------------------------------------------------------

  /** A last line whose newline never came is handled like one whose newline did. */
  lemma LastLineHandled(r: Receiver, sha: Digest)
    requires r.buffer != [] && '\n' !in r.buffer && StripReturn(r.buffer) == r.buffer && r.state.binary.remaining == 0
    ensures LastLine(r, sha) == Feed(r, sha, "\n").state
  {
    hide ProcessLine, StripReturn;
    var whole := r.buffer + "\n";
    IndexOfMiddle(r.buffer, '\n', []);
    assert r.buffer + ['\n'] + [] == whole;
    assert whole[..|r.buffer|] == r.buffer && whole[|r.buffer| + 1..] == [];
    assert whole[|r.buffer|] == '\n';
    hide IndexOf;
    var next := Step(Receiver(whole, r.state), sha);
    assert next == Receiver([], ProcessLine(r.state, sha, r.buffer));
    assert Run(next, sha) == next;
  }
}
