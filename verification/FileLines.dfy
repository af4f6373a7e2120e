/** The lines of a delivery, as the server prints them and the client reads them back. */
module FileLines {
  import opened Text
  import opened Wire
  import opened ClientDemux

  /** A line and the newline that ends it. */
  function Ended(line: Bytes): Bytes { line + "\n" }

  function ResumeStartLine(transfer: nat, offset: nat): Bytes {
    "FILE_RESUME_START" + " " + (ToDecimal(transfer) + " " + ToDecimal(offset))
  }

  function DataLine(transfer: nat, offset: nat, count: nat): Bytes {
    "FILE_DATA" + " " + (ToDecimal(transfer) + " " + (ToDecimal(offset) + " " + ToDecimal(count)))
  }

  function DoneLine(transfer: nat): Bytes { "FILE_DONE" + " " + ToDecimal(transfer) }

  lemma Printed(transfer: nat, offset: nat, count: nat)
    ensures ResumeStartText(transfer, offset) == Ended(ResumeStartLine(transfer, offset))
    ensures DataHeader(transfer, offset, count) == Ended(DataLine(transfer, offset, count))
    ensures DoneText(transfer) == Ended(DoneLine(transfer))
  {
    hide ToDecimal;
  }

  /** A printed number neither starts nor ends with white space, and holds no newline. */
  lemma DecimalWord(n: nat)
    ensures IsWord(ToDecimal(n)) && '\n' !in ToDecimal(n)
  {
    DecimalRoundTrip(n);
  }

  /** The numbers of a control line come back as its words. */
  lemma Numbers2(a: nat, b: nat)
    ensures SplitWords(ToDecimal(a) + " " + ToDecimal(b)) == [ToDecimal(a), ToDecimal(b)]
  {
    hide ToDecimal;
    DecimalWord(a);
    DecimalWord(b);
    SplitFirstWord(ToDecimal(a), ToDecimal(b));
    SplitLastWord(ToDecimal(b));
  }

  lemma Numbers3(a: nat, b: nat, c: nat)
    ensures SplitWords(ToDecimal(a) + " " + (ToDecimal(b) + " " + ToDecimal(c)))
            == [ToDecimal(a), ToDecimal(b), ToDecimal(c)]
  {
    hide ToDecimal;
    DecimalWord(a);
    SplitFirstWord(ToDecimal(a), ToDecimal(b) + " " + ToDecimal(c));
    Numbers2(b, c);
  }

  predicate Tight(s: Bytes) { s != [] && !IsSpace(s[0]) && !IsSpace(s[|s| - 1]) && '\n' !in s && '\r' !in s }

  lemma TightJoin(a: Bytes, b: Bytes)
    requires Tight(a) && Tight(b)
    ensures Tight(a + " " + b)
  {
    var s := a + " " + b;
    assert s[0] == a[0] && s[|s| - 1] == b[|b| - 1];
  }

  lemma WordTight(word: Bytes)
    requires IsWord(word)
    ensures Tight(word)
  {
    assert forall i :: 0 <= i < |word| ==> !IsSpace(word[i]);
  }

  lemma DecimalTight(n: nat)
    ensures Tight(ToDecimal(n))
  {
    DecimalWord(n);
    WordTight(ToDecimal(n));
  }

  lemma CommandLine(name: Bytes, arguments: Bytes)
    requires IsUpperWord(name) && Tight(arguments)
    ensures Tight(name + " " + arguments)
    ensures LineKindOf(name + " " + arguments) == KindOf(name)
    ensures LineWords(name + " " + arguments) == SplitWords(arguments)
  {
    assert Tight(name);
    TightJoin(name, arguments);
    ParsePrintedCommand(name, arguments);
  }

  lemma DataLineParses(transfer: nat, offset: nat, count: nat)
    requires transfer < UINT64_LIMIT && offset < UINT64_LIMIT && count < UINT64_LIMIT
    ensures Tight(DataLine(transfer, offset, count))
    ensures LineKindOf(DataLine(transfer, offset, count)) == LineKind.DataLine
    ensures forall st ::
              HandleData(st, LineWords(DataLine(transfer, offset, count))) == HandleFrame(st, transfer, offset, count)
  {
    hide ToDecimal, ParseCommand, SplitWords, HandleFrame;
    DecimalTight(transfer);
    DecimalTight(offset);
    DecimalTight(count);
    TightJoin(ToDecimal(offset), ToDecimal(count));
    TightJoin(ToDecimal(transfer), ToDecimal(offset) + " " + ToDecimal(count));
    CommandLine("FILE_DATA", ToDecimal(transfer) + " " + (ToDecimal(offset) + " " + ToDecimal(count)));
    Numbers3(transfer, offset, count);
    DecimalRoundTrip(transfer);
    DecimalRoundTrip(offset);
    DecimalRoundTrip(count);
  }

  function PongLine(nonce: nat): Bytes { "PONG" + " " + ToDecimal(nonce) }

  function AckLine(transfer: nat): Bytes { "FILE_ACK_OK" + " " + ToDecimal(transfer) }

  /** The replies the server sends between frames are none of the lines the file client acts on. */
  lemma ReplyLines(n: nat)
    ensures Tight(PongLine(n)) && LineKindOf(PongLine(n)) == OtherLine
    ensures Tight(AckLine(n)) && LineKindOf(AckLine(n)) == OtherLine
  {
    hide ToDecimal, LineKindOf, LineWords, Tight, KindOf;
    DecimalTight(n);
    CommandLine("PONG", ToDecimal(n));
    CommandLine("FILE_ACK_OK", ToDecimal(n));
    ReplyNames();
  }

  lemma ReplyNames()
    ensures KindOf("PONG") == OtherLine && KindOf("FILE_ACK_OK") == OtherLine
  {
    assert "PONG"[0] != 'F' && "FILE_ACK_OK"[5] == 'A' && "FILE_ACK_OK"[7] == 'K' && "FILE_ACCESS_REVOKED"[7] == 'C';
  }

  lemma ReplyStarts(n: nat)
    ensures |PongLine(n)| > 5 && PongLine(n)[0] == 'P' && '0' <= PongLine(n)[5] <= '9'
    ensures |AckLine(n)| > 5 && AckLine(n)[0] == 'F' && AckLine(n)[5] == 'A'
  {
    DecimalRoundTrip(n);
    hide ToDecimal;
    assert PongLine(n)[5] == ToDecimal(n)[0];
  }

  lemma DataLineStart(transfer: nat, offset: nat, count: nat)
    ensures var line := DataLine(transfer, offset, count); |line| > 5 && line[0] == 'F' && line[5] == 'D'
  {
    hide ToDecimal;
  }

  lemma ResumeStartLineParses(transfer: nat, offset: nat)
    requires transfer < UINT64_LIMIT && offset < UINT64_LIMIT
    ensures Tight(ResumeStartLine(transfer, offset))
    ensures LineKindOf(ResumeStartLine(transfer, offset)) == LineKind.ResumeStartLine
    ensures var words := LineWords(ResumeStartLine(transfer, offset));
            |words| == 2 && ParseUint64(words[0]) == Some(transfer) && ParseUint64(words[1]) == Some(offset)
  {
    hide ToDecimal, ParseCommand, SplitWords;
    DecimalTight(transfer);
    DecimalTight(offset);
    TightJoin(ToDecimal(transfer), ToDecimal(offset));
    CommandLine("FILE_RESUME_START", ToDecimal(transfer) + " " + ToDecimal(offset));
    Numbers2(transfer, offset);
    DecimalRoundTrip(transfer);
    DecimalRoundTrip(offset);
  }

  lemma DoneLineParses(transfer: nat)
    requires transfer < UINT64_LIMIT
    ensures Tight(DoneLine(transfer))
    ensures LineKindOf(DoneLine(transfer)) == LineKind.DoneLine
    ensures forall st, sha :: HandleDone(st, sha, LineWords(DoneLine(transfer))) == FinishDownload(st, sha, transfer)
  {
    hide ToDecimal, ParseCommand, SplitWords, FinishDownload;
    DecimalTight(transfer);
    CommandLine("FILE_DONE", ToDecimal(transfer));
    SplitLastWord(ToDecimal(transfer));
    DecimalRoundTrip(transfer);
  }
}
