/** What follows a refused frame on the same connection.  The client goes on reading lines, so the
    raw payload of that frame is obeyed as if the server had said it.  The .part files stay prefixes
    exactly as long as every byte read as payload continues the stored file of its transfer; the
    rest of the disk stays in order as long as no false offer is read. */
module Refusals {
  import opened Text
  import opened Wire
  import opened ClientDemux
  import opened ClientDisk
  import opened Sessions
  import Identity
  import opened Play
  import FileLines

  /** The payload bytes of the next round continue the stored file of their transfer. */
  predicate TruePayload(store: Store, r: Receiver)
    requires CanStep(r) && r.state.binary.remaining > 0
  {
    var t, count := r.state.binary.transfer, PayloadCount(r);
    && t in store && t in r.state.downloads && r.state.downloads[t].received + count <= |store[t]|
    && r.buffer[..count] == store[t][r.state.downloads[t].received..r.state.downloads[t].received + count]
  }

  /** The next round reads no false offer, and payload only where it continues the stored file. */
  predicate TrueRound(store: Store, r: Receiver)
    requires CanStep(r)
  {
    if r.state.binary.remaining > 0 then TruePayload(store, r)
    else OfferTrue(store, StripReturn(r.buffer[..IndexOf(r.buffer, '\n')]))
  }

  /** The loop goes on. */
  predicate Goes(r: Receiver) {
    CanStep(r) && !(r.state.binary.remaining > 0 && PayloadRejected(r.state, PayloadCount(r)))
  }

  ghost predicate Truthful(store: Store, sha: Digest, r: Receiver)
    decreases |r.buffer|
  {
    Goes(r) ==> TrueRound(store, r) && Truthful(store, sha, Step(r, sha))
  }

  // ---- the .part files, exactly -------------------------------------------------------------

  /** A payload round leaves the .part files prefixes exactly when its bytes are the right ones. */
  lemma PayloadRound(store: Store, sha: Digest, r: Receiver)
    requires r.state.Valid() && PartsOk(store, r.state.parts) && CanStep(r) && r.state.binary.remaining > 0
    ensures Goes(r) && (PartsOk(store, Step(r, sha).state.parts) <==> TruePayload(store, r))
  {
    PayloadNeverRejected(r);
    var st, t, count := r.state, r.state.binary.transfer, PayloadCount(r);
    assert st.DownloadOk(t, st.downloads[t]);
    var key, bytes := st.downloads[t].key, r.buffer[..count];
    PrefixGrows(st.parts[key], bytes, Content(store, t));
    assert Step(r, sha).state.parts == st.parts[key := st.parts[key] + bytes];
    hide Step, PayloadRejected, ClientState.Valid;
    assert PartsOk(store, st.parts[key := st.parts[key] + bytes]) <==> st.parts[key] + bytes <= Content(store, t) by {
      OnePart(store, st.parts, key, st.parts[key] + bytes);
    }
  }

  lemma PrefixGrows(part: Bytes, bytes: Bytes, content: Bytes)
    requires part <= content
    ensures part + bytes <= content <==>
            |part| + |bytes| <= |content| && bytes == content[|part|..|part| + |bytes|]
  {
    if part + bytes <= content {
      assert bytes == (part + bytes)[|part|..] && (part + bytes)[|part|..] == content[|part|..|part| + |bytes|];
    }
  }

  lemma OnePart(store: Store, parts: map<FileKey, Bytes>, key: FileKey, part: Bytes)
    requires PartsOk(store, parts)
    ensures PartsOk(store, parts[key := part]) <==> part <= Content(store, key.transfer)
  {
    assert parts[key := part][key] == part;
  }

  lemma OfferParts(store: Store, st: ClientState, sha: Digest, line: Bytes, words: seq<Bytes>)
    requires PartsOk(store, st.parts)
    ensures PartsOk(store, HandleOffer(st, sha, line, words).parts)
  {
    hide ParseOffer, OfferChat, PartsOk, PreparePart;
    if ParseOffer(words).Some? {
      PreparedParts(store, st, ParseOffer(words).value.transfer, ParseOffer(words).value.offer);
    }
  }

  lemma {:induction false} OffersParts(store: Store, st: ClientState, sha: Digest, lines: seq<Bytes>)
    requires PartsOk(store, st.parts)
    ensures PartsOk(store, HandleOffers(st, sha, lines).parts)
    decreases |lines|
  {
    hide LineWords, HandleOffer, PartsOk;
    if lines == [] {
    } else {
      OfferParts(store, st, sha, lines[0], LineWords(lines[0]));
      OffersParts(store, HandleOffer(st, sha, lines[0], LineWords(lines[0])), sha, lines[1..]);
    }
  }

  lemma OtherParts(store: Store, st: ClientState, sha: Digest, line: Bytes)
    requires PartsOk(store, st.parts)
    ensures PartsOk(store, HandleOther(st, sha, line).parts)
  {
    hide PartsOk, HandleOffers, HandleSystemLine, SameScope, ScopeChat, IsEntryOk, IsEntryError, EntryWords,
         EntryErrorWords,
         IsLogoutLine;
    if IsEntryOk(line) && |EntryWords(line)| == 2 {
      var chat := ScopeChat(EntryWords(line)[0], EntryWords(line)[1]);
      OffersParts(store, st.(pendingEntry := NoChat, chat := chat, offers := st.offers - {chat}), sha,
                  if chat in st.offers then st.offers[chat] else []);
    }
  }

  /** No line, whatever it says, makes a .part file stop being a prefix. */
  lemma LineParts(store: Store, st: ClientState, sha: Digest, line: Bytes)
    requires PartsOk(store, st.parts)
    ensures PartsOk(store, ProcessLine(st, sha, line).parts)
  {
    hide LineKindOf, LineWords, HandleOffer, HandleOther, ParseUint64, DropOffers;
    var seen, words := Seen(st, line), LineWords(line);
    if LineKindOf(line) == OfferLine {
      OfferParts(store, seen, sha, line, words);
    } else if LineKindOf(line) == OtherLine {
      OtherParts(store, seen, sha, line);
    }
  }

  /** In every state of the run, every .part file is a prefix of its stored file. */
  ghost predicate PrefixesThroughout(store: Store, sha: Digest, r: Receiver)
    decreases |r.buffer|
  {
    PartsOk(store, r.state.parts) && (Goes(r) ==> PrefixesThroughout(store, sha, Step(r, sha)))
  }

  /** Every byte that the run reads as payload continues the stored file of its transfer. */
  ghost predicate PayloadsTrue(store: Store, sha: Digest, r: Receiver)
    decreases |r.buffer|
  {
    Goes(r) ==> (r.state.binary.remaining > 0 ==> TruePayload(store, r)) && PayloadsTrue(store, sha, Step(r, sha))
  }

  /** The exact condition, for every stream, every state and every number of refused frames. */
  lemma {:induction false} PrefixCondition(store: Store, sha: Digest, r: Receiver)
    requires r.state.Valid() && PartsOk(store, r.state.parts)
    ensures PrefixesThroughout(store, sha, r) <==> PayloadsTrue(store, sha, r)
    decreases |r.buffer|
  {
    hide PartsOk, Step, TruePayload, ClientState.Valid, PayloadRejected;
    if Goes(r) {
      var next := Step(r, sha);
      StepValid(r, sha);
      if r.state.binary.remaining > 0 {
        PayloadRound(store, sha, r);
      } else {
        LineRound(store, sha, r);
      }
      if PartsOk(store, next.state.parts) {
        PrefixCondition(store, sha, next);
      }
    }
  }

  lemma LineRound(store: Store, sha: Digest, r: Receiver)
    requires PartsOk(store, r.state.parts) && CanStep(r) && r.state.binary.remaining == 0
    ensures PartsOk(store, Step(r, sha).state.parts)
  {
    hide PartsOk, ProcessLine, IndexOf;
    LineParts(store, r.state, sha, StripReturn(r.buffer[..IndexOf(r.buffer, '\n')]));
  }

  // ---- the whole disk -----------------------------------------------------------------------

  lemma TruthfulStep(store: Store, sha: Digest, r: Receiver)
    requires r.state.Valid() && DiskOk(store, r.state) && ReceiptsTrue(store, sha, r.state.replies)
    requires CanStep(r) && TrueRound(store, r)
    ensures r.state.binary.remaining > 0 ==> !PayloadRejected(r.state, PayloadCount(r))
    ensures var st := Step(r, sha).state; st.Valid() && DiskOk(store, st) && ReceiptsTrue(store, sha, st.replies)
  {
    hide DiskOk, ReceiptsTrue, ProcessLine, IndexOf;
    StepValid(r, sha);
    if r.state.binary.remaining > 0 {
      PayloadDisk(store, r.state, r.buffer[..PayloadCount(r)]);
      hide PayloadRejected;
    } else {
      TrueLine(store, sha, r.state, StripReturn(r.buffer[..IndexOf(r.buffer, '\n')]));
    }
  }

  lemma TrueLine(store: Store, sha: Digest, st: ClientState, line: Bytes)
    requires st.Valid() && DiskOk(store, st) && ReceiptsTrue(store, sha, st.replies) && st.binary.remaining == 0
    requires OfferTrue(store, line)
    ensures DiskOk(store, ProcessLine(st, sha, line)) && ReceiptsTrue(store, sha, ProcessLine(st, sha, line).replies)
  {
    hide DiskOk, ReceiptsTrue, OfferTrue, LineKindOf, LineWords, HandleFrame, ParseUint64, ClientState.Valid;
    if LineKindOf(line) == DataLine {
      var words := LineWords(line);
      if |words| == 3 && ParseUint64(words[0]).Some? && ParseUint64(words[1]).Some? && ParseUint64(words[2]).Some? {
        FrameDisk(store, st, sha, ParseUint64(words[0]).value, ParseUint64(words[1]).value,
                  ParseUint64(words[2]).value);
      } else {
        RefusedDisk(store, st);
      }
    } else {
      TextLineDisk(store, st, sha, line);
    }
  }

  lemma RefusedDisk(store: Store, st: ClientState)
    requires DiskOk(store, st)
    ensures DiskOk(store, st.(refused := true))
  {
    hide WordsTrue;
  }

  /** A truthful stream keeps the disk in order and the receipts true, refused frames or not. */
  lemma {:induction false} TruthfulRun(store: Store, sha: Digest, r: Receiver)
    requires r.state.Valid() && DiskOk(store, r.state) && ReceiptsTrue(store, sha, r.state.replies)
    requires Truthful(store, sha, r)
    ensures var st := Run(r, sha).state; st.Valid() && DiskOk(store, st) && ReceiptsTrue(store, sha, st.replies)
    decreases |r.buffer|
  {
    hide DiskOk, ReceiptsTrue, Step, TrueRound, ClientState.Valid;
    if CanStep(r) {
      StepValid(r, sha);
      TruthfulStep(store, sha, r);
      TruthfulRun(store, sha, Step(r, sha));
    }
  }

  /** And no longer: if the payload of a refused frame spells the header the client waits for on
      another transfer, the bytes behind it are stored as that transfer's next bytes, whatever
      they are. */
  lemma RefusedPayloadObeyed(st: ClientState, sha: Digest, t: nat, offset: nat, u: nat, bytes: Bytes)
    requires Identity.AtRest(Receiver([], st)) && t !in st.downloads && u in st.downloads
    requires t < UINT64_LIMIT && offset < UINT64_LIMIT && u < UINT64_LIMIT
    requires 0 < |bytes| <= FILE_FRAME_BYTES && st.downloads[u].received + |bytes| <= st.downloads[u].offer.size
    requires |DataHeader(u, st.downloads[u].received, |bytes|) + bytes| < UINT64_LIMIT
    ensures var payload := DataHeader(u, st.downloads[u].received, |bytes|) + bytes;
            var r := Feed(Receiver([], st), sha, DataHeader(t, offset, |payload|) + payload);
            && r.buffer == [] && r.state.refused && st.downloads[u].key in st.parts
            && st.downloads[u].key in r.state.parts
            && r.state.parts[st.downloads[u].key] == st.parts[st.downloads[u].key] + bytes
  {
    var at, n := st.downloads[u].received, |bytes|;
    var inner := DataHeader(u, at, n);
    var payload := inner + bytes;
    var refused := HandleFrame(st, t, offset, |payload|);
    assert st.DownloadOk(u, st.downloads[u]);
    FeedHeader(st, sha, t, offset, |payload|);
    FeedTwice(Receiver([], st), sha, DataHeader(t, offset, |payload|), payload);
    RefusedKeeps(st, t, offset, |payload|, u);
    FeedHeader(refused, sha, u, at, n);
    FeedTwice(Receiver([], refused), sha, inner, bytes);
    WaitsFor(refused, u, n);
    hide Feed, DataHeader;
    FeedPayload(refused.(binary := BinaryFrame(u, n)), sha, bytes);
  }

  /** If they are not the right ones, the .part file is spoilt. */
  lemma RefusedPayloadSpoils(store: Store, st: ClientState, sha: Digest, t: nat, offset: nat, u: nat, bytes: Bytes)
    requires Identity.AtRest(Receiver([], st)) && t !in st.downloads && u in st.downloads
    requires t < UINT64_LIMIT && offset < UINT64_LIMIT && u < UINT64_LIMIT
    requires 0 < |bytes| <= FILE_FRAME_BYTES && st.downloads[u].received + |bytes| <= st.downloads[u].offer.size
    requires |DataHeader(u, st.downloads[u].received, |bytes|) + bytes| < UINT64_LIMIT
    requires PartsOk(store, st.parts)
    ensures var payload := DataHeader(u, st.downloads[u].received, |bytes|) + bytes;
            var r := Feed(Receiver([], st), sha, DataHeader(t, offset, |payload|) + payload);
            && st.downloads[u].key in st.parts
            && (!(st.parts[st.downloads[u].key] + bytes <= Content(store, u)) ==> !PartsOk(store, r.state.parts))
  {
    assert st.DownloadOk(u, st.downloads[u]);
    hide Feed, DataHeader, ClientState.Valid, Content;
    RefusedPayloadObeyed(st, sha, t, offset, u, bytes);
  }

  lemma FeedHeader(st: ClientState, sha: Digest, t: nat, offset: nat, n: nat)
    requires st.binary.remaining == 0 && t < UINT64_LIMIT && offset < UINT64_LIMIT && n < UINT64_LIMIT
    ensures Feed(Receiver([], st), sha, DataHeader(t, offset, n)) == Receiver([], HandleFrame(st, t, offset, n))
  {
    hide ProcessLine, ToDecimal, DataHeader, ParseCommand, Feed, HandleFrame;
    var line := FileLines.DataLine(t, offset, n);
    FileLines.Printed(t, offset, n);
    FileLines.DataLineParses(t, offset, n);
    HeaderHandled(st, sha, t, offset, n);
    FeedLine(st, sha, line);
    assert StripReturn(line) == line;
  }

  lemma RefusedKeeps(st: ClientState, t: nat, offset: nat, n: nat, u: nat)
    requires st.Valid() && st.binary.remaining == 0 && t !in st.downloads && u in st.downloads
    ensures var st' := HandleFrame(st, t, offset, n);
            && st'.Valid() && st'.refused && st'.binary.remaining == 0
            && u in st'.downloads && st'.downloads[u] == st.downloads[u] && st'.parts == st.parts
  {
    SameDownloadsValid(st, st.(refused := true));
    assert st.downloads - {t} == st.downloads;
    SameDownloadsValid(st, HandleFrame(st, t, offset, n));
  }

  lemma WaitsFor(st: ClientState, u: nat, n: nat)
    requires st.Valid() && st.binary.remaining == 0 && u in st.downloads && 0 < n <= FILE_FRAME_BYTES
    requires st.downloads[u].received + n <= st.downloads[u].offer.size
    ensures var waiting := st.(binary := BinaryFrame(u, n));
            HandleFrame(st, u, st.downloads[u].received, n) == waiting && !PayloadRejected(waiting, n)
  {
    assert st.DownloadOk(u, st.downloads[u]);
  }
}
