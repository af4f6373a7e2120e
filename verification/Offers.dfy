/** FILE_OFFER lines as `FileTransferService::make_offer_line` prints them.  Even when a connection
    breaks in the middle of one, the client never reads a false offer out of the rest. */
module Offers {
  import opened Text
  import opened Percent
  import opened ClientDemux
  import opened ClientDisk
  import opened Sessions
  import FileLines

  function JoinWords(words: seq<Bytes>): Bytes
    requires words != []
  {
    if |words| == 1 then words[0] else words[0] + " " + JoinWords(words[1..])
  }

  function OfferLine(transfer: nat, offer: Offer): Bytes
    requires IsBytes(offer.group) && IsBytes(offer.name)
  {
    "FILE_OFFER" + " " + JoinWords(OfferWords(transfer, offer))
  }

  function OfferWords(transfer: nat, offer: Offer): seq<Bytes>
    requires IsBytes(offer.group) && IsBytes(offer.name)
  {
    [ToDecimal(transfer), offer.scope, offer.sender, if offer.group == "" then "-" else Encode(offer.group),
     Encode(offer.name), ToDecimal(offer.size), offer.digest]
  }

  predicate AllWords(words: seq<Bytes>) { forall i :: 0 <= i < |words| ==> IsWord(words[i]) }

  /** `cut` is what remains of `words` when the text is cut off. */
  predicate WordsCut(cut: seq<Bytes>, words: seq<Bytes>) {
    && |cut| <= |words|
    && (forall k :: 0 <= k < |cut| - 1 ==> cut[k] == words[k])
    && (cut != [] ==> cut[|cut| - 1] <= words[|cut| - 1])
  }

  lemma {:induction false} SplitCut(words: seq<Bytes>, i: nat)
    requires words != [] && AllWords(words) && i <= |JoinWords(words)|
    ensures WordsCut(SplitWords(JoinWords(words)[..i]), words)
    ensures i == |JoinWords(words)| ==> SplitWords(JoinWords(words)[..i]) == words
  {
    hide SplitWords;
    var s, w := JoinWords(words), words[0];
    if i <= |w| {
      assert s[..i] == w[..i];
      if i > 0 {
        SplitLastWord(w[..i]);
        assert w[..|w|] == w;
      } else {
        NoWordsInNothing();
      }
    } else {
      var tail := JoinWords(words[1..]);
      var j := i - |w| - 1;
      assert s[..i] == w + " " + tail[..j];
      SplitFirstWord(w, tail[..j]);
      SplitCut(words[1..], j);
      CutCons(SplitWords(tail[..j]), words);
    }
  }

  lemma NoWordsInNothing()
    ensures SplitWords([]) == []
  {
  }

  lemma CutCons(rest: seq<Bytes>, words: seq<Bytes>)
    requires words != [] && WordsCut(rest, words[1..])
    ensures WordsCut([words[0]] + rest, words)
  {
    var cut := [words[0]] + rest;
    assert forall k :: 0 < k < |cut| ==> cut[k] == rest[k - 1] && words[k] == words[1..][k - 1];
  }

  /** A trailing space does not change how a line is read. */
  lemma TrailingSpace(line: Bytes)
    requires |line| > 1 && !IsSpace(line[0]) && IsSpace(line[|line| - 1])
    ensures ParseCommand(line) == ParseCommand(line[..|line| - 1])
  {
    assert TrimLeft(line) == line && TrimLeft(line[..|line| - 1]) == line[..|line| - 1];
  }

  /** However a command line is cut off, its words are a cut of the whole line's words. */
  lemma {:induction false} CutWords(name: Bytes, words: seq<Bytes>, i: nat)
    requires IsUpperWord(name) && words != [] && AllWords(words) && i <= |name + " " + JoinWords(words)|
    ensures WordsCut(LineWords((name + " " + JoinWords(words))[..i]), words)
  {
    hide JoinWords, ParseCommand;
    var line := name + " " + JoinWords(words);
    var cut := line[..i];
    if i <= |name| {
      assert cut == name[..i];
      NoWords(cut);
    } else if IsSpace(cut[i - 1]) {
      assert cut[0] == name[0] && cut[..i - 1] == line[..i - 1];
      TrailingSpace(cut);
      CutWords(name, words, i - 1);
    } else {
      var j := i - |name| - 1;
      assert line[|name|] == ' ';
      assert cut == name + " " + JoinWords(words)[..j];
      assert JoinWords(words)[j - 1] == cut[i - 1];
      CutArguments(name, words, j);
    }
  }

  lemma CutArguments(name: Bytes, words: seq<Bytes>, j: nat)
    requires IsUpperWord(name) && words != [] && AllWords(words)
    requires 0 < j <= |JoinWords(words)| && !IsSpace(JoinWords(words)[j - 1])
    ensures WordsCut(LineWords(name + " " + JoinWords(words)[..j]), words)
  {
    var arguments := JoinWords(words)[..j];
    assert arguments[0] == words[0][0];
    ParsePrintedCommand(name, arguments);
    SplitCut(words, j);
  }

  lemma NoWords(cut: Bytes)
    requires NoSpaces(cut)
    ensures LineWords(cut) == []
  {
    assert Trim(cut) == cut;
    assert BlankIndex(cut) == |cut|;
    assert SplitWords([]) == [];
  }

  predicate Printable(transfer: nat, offer: Offer) {
    && transfer < UINT64_LIMIT && offer.size <= MAX_FILE_SIZE && IsSha256Hex(offer.digest)
    && (offer.scope == "PRIVATE" || offer.scope == "GROUP") && IsWord(offer.sender)
    && IsBytes(offer.group) && IsBytes(offer.name) && offer.name != ""
  }

  lemma OfferWordsAreWords(transfer: nat, offer: Offer)
    requires Printable(transfer, offer)
    ensures |OfferWords(transfer, offer)| == 7 && AllWords(OfferWords(transfer, offer))
  {
    DecimalRoundTrip(transfer);
    DecimalRoundTrip(offer.size);
    hide ToDecimal;
    EncodedWord(offer.name);
    if offer.group != "" {
      EncodedWord(offer.group);
    }
    assert forall i :: 0 <= i < |offer.digest| ==> HexValue(offer.digest[i]).Some?;
  }

  lemma {:induction false} EncodedWord(text: Bytes)
    requires IsBytes(text) && text != ""
    ensures IsWord(Encode(text))
  {
    if |text| > 1 {
      EncodedWord(text[1..]);
    }
  }

  /** A command line whose every cut is true, or no offer, is an admissible line of the stream. */
  lemma CommandLineOk(store: Store, name: Bytes, words: seq<Bytes>)
    requires IsUpperWord(name) && KindOf(name) != DataLine && words != [] && AllWords(words)
    requires forall cut :: WordsCut(cut, words) ==> WordsTrue(store, cut)
    ensures LineOk(store, name + " " + JoinWords(words))
  {
    var line := name + " " + JoinWords(words);
    CommandLineWords(name, words);
    hide JoinWords, LineWords, LineKindOf, KindOf, WordsCut, WordsTrue;
    assert StripReturn(line) == line;
    forall i | 0 <= i <= |line| ensures OfferTrue(store, line[..i]) {
      CutWords(name, words, i);
    }
  }

  lemma CommandLineWords(name: Bytes, words: seq<Bytes>)
    requires IsUpperWord(name) && words != [] && AllWords(words)
    ensures var line := name + " " + JoinWords(words);
            LineKindOf(line) == KindOf(name) && LineWords(line) == words && FileLines.Tight(line)
  {
    JoinedTight(words);
    SplitCut(words, |JoinWords(words)|);
    assert JoinWords(words)[..|JoinWords(words)|] == JoinWords(words);
    hide JoinWords, SplitWords, KindOf, LineKindOf, LineWords;
    FileLines.CommandLine(name, JoinWords(words));
  }

  /** An offer that says the stored size is an admissible line of the stream. */
  lemma OfferLineOk(store: Store, transfer: nat, offer: Offer)
    requires Printable(transfer, offer) && transfer in store && offer.size == |store[transfer]|
    ensures LineOk(store, OfferLine(transfer, offer))
  {
    var words := OfferWords(transfer, offer);
    OfferWordsAreWords(transfer, offer);
    hide OfferWords, JoinWords, LineOk, WordsTrue, WordsCut;
    forall cut | WordsCut(cut, words) ensures WordsTrue(store, cut) {
      CutOfferTrue(store, transfer, offer, cut);
    }
    CommandLineOk(store, "FILE_OFFER", words);
  }

  lemma CutOfferTrue(store: Store, transfer: nat, offer: Offer, cut: seq<Bytes>)
    requires Printable(transfer, offer) && transfer in store && offer.size == |store[transfer]|
    requires IsBytes(offer.group) && IsBytes(offer.name) && WordsCut(cut, OfferWords(transfer, offer))
    ensures WordsTrue(store, cut)
  {
    DecimalRoundTrip(transfer);
    DecimalRoundTrip(offer.size);
    hide ToDecimal, Encode;
  }

  lemma {:induction false} JoinedTight(words: seq<Bytes>)
    requires words != [] && AllWords(words)
    ensures FileLines.Tight(JoinWords(words))
  {
    FileLines.WordTight(words[0]);
    if |words| > 1 {
      JoinedTight(words[1..]);
      FileLines.TightJoin(words[0], JoinWords(words[1..]));
    }
  }

  /** A printed offer is read back as itself, under a safe local file name.  The encodings of the
      group and the file name cannot be told from "nothing" only for the text "-". */
  lemma OfferRoundTrip(transfer: nat, offer: Offer)
    requires Printable(transfer, offer)
    ensures LineKindOf(OfferLine(transfer, offer)) == LineKind.OfferLine
    ensures ParseOffer(LineWords(OfferLine(transfer, offer)))
            == Some(ParsedOffer(transfer, offer.(
                   group := if offer.group == "-" then "" else offer.group,
                   name := SanitizeFilename(if offer.name == "-" then "" else offer.name))))
  {
    OfferLineWords(transfer, offer);
    DecimalRoundTrip(transfer);
    DecimalRoundTrip(offer.size);
    TokenRead(offer.group);
    TokenRead(offer.name);
    hide OfferLine, LineKindOf, LineWords, SanitizeFilename, ToDecimal, Encode, Decode, IsSha256Hex, ParseUint64;
    assert offer.name != "";
  }

  lemma OfferLineWords(transfer: nat, offer: Offer)
    requires Printable(transfer, offer)
    ensures LineKindOf(OfferLine(transfer, offer)) == LineKind.OfferLine
    ensures LineWords(OfferLine(transfer, offer)) == OfferWords(transfer, offer)
  {
    OfferWordsAreWords(transfer, offer);
    hide OfferWords, JoinWords, LineWords, StripReturn;
    CommandLineWords("FILE_OFFER", OfferWords(transfer, offer));
  }

  lemma TokenRead(text: Bytes)
    requires IsBytes(text)
    ensures DecodeToken(if text == "" then "-" else Encode(text)) == Some(if text == "-" then "" else text)
  {
    TokenRoundTrip(text);
    DecodeEncode(text);
    assert text == "-" ==> Encode(text) == "-" by {
      if text == "-" {
        assert text[1..] == [];
      }
    }
  }
}
