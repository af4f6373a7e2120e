/** What each file command does to its session, the upload area and the table of transfers, on any
    connection of the server. */
module UploadEffects {
  import opened Text
  import opened Units
  import opened ServerDemux
  import opened UploadStore
  import opened Uploads
  import Resent
  import Offers
  import opened Percent

  /** `line` is the next thing connection `i` handles, and it is a command. */
  ghost predicate NextCommand(w: World, i: nat, line: Bytes) {
    && i in w.peers && CanStep(w.peers[i].d) && w.peers[i].d.frame.None?
    && var d := w.peers[i].d;
    && IndexOf(d.buffer, '\n') == |line| < |d.buffer| && d.buffer[..|line|] == line
    && ParseCommand(StripReturn(line)).name != []
  }

  /** What the session's upload is afterwards. */
  function UploadAfter(before: Option<Upload>, effect: Effect): Option<Upload> {
    match effect
    case Keep => before
    case NotLoggedIn => before
    case Begin(upload) => if before.Some? then None else Some(upload)
    case Detach => None
    case Quit => before
  }

  lemma SessionAfter(d: Demux, effect: Effect, line: Bytes)
    requires CanStep(d) && d.frame.None? && IndexOf(d.buffer, '\n') == |line| < |d.buffer| && d.buffer[..|line|] == line
    requires ParseCommand(StripReturn(line)).name != [] && ParseCommand(StripReturn(line)).name != "FILE_CHUNK"
    ensures var d' := Step(d, Env(_ => effect, _ => false));
            && d'.upload == UploadAfter(d.upload, effect) && d'.frame.None? && !d'.ended
            && d'.connected == (effect != Quit) && d'.appended == d.appended
  {
    hide ParseCommand, IndexOf, StripReturn;
  }

  lemma NoChunk(line: Bytes, sender: Bytes)
    requires RequestOf(line, sender) != ChunkRequest
    ensures ParseCommand(StripReturn(line)).name != "FILE_CHUNK"
  {
    hide ParseCommand, StripReturn, SplitWords;
  }

  /** The other connections are not concerned. */
  lemma OthersStay(w: World, sha: Digest, i: nat, choice: Choice, j: nat)
    requires j in w.peers && j != i
    ensures var w' := Act(w, sha, Work(i, choice)); j in w'.peers && w'.peers[j] == w.peers[j]
  {
    hide ParseCommand, IndexOf, Step, React;
  }

  lemma Reacted(w: World, sha: Digest, i: nat, choice: Choice, line: Bytes)
    requires NextCommand(w, i, line) && RequestOf(line, w.peers[i].sender) != ChunkRequest
    ensures var w', peer := Act(w, sha, Work(i, choice)), w.peers[i];
            var r := React(w.s, w.recorded, sha, peer.d, RequestOf(line, peer.sender), choice);
            && w'.s == r.s && w'.recorded == r.recorded && i in w'.peers
            && w'.peers[i].d.upload == UploadAfter(peer.d.upload, r.effect) && w'.peers[i].d.frame.None?
  {
    hide Act, React, Step, ParseCommand, IndexOf, StripReturn, RequestOf, UploadAfter;
    Resent.LineWorld(w, sha, i, choice, line);
    NoChunk(line, w.peers[i].sender);
    var d, request := w.peers[i].d, RequestOf(line, w.peers[i].sender);
    SessionAfter(d, React(w.s, w.recorded, sha, d, request, choice).effect, line);
  }

  /** Both FILE_BEGIN commands announce an upload in the same words, and FILE_ABORT names a token. */
  lemma RequestsRead(name: Bytes, token: Bytes, target: Bytes, word: Bytes, source: Bytes, digest: Bytes, sender: Bytes)
    requires name == "FILE_BEGIN_PRIVATE" || name == "FILE_BEGIN_GROUP"
    requires Resent.Sendable(token, target, word, source, digest)
    ensures var words := Resent.BeginWords(token, target, word, |source|, digest);
            RequestOf(name + " " + Offers.JoinWords(words), sender)
            == BeginRequest(token, Meta(name, sender, target, NameOf(word).value, |source|, digest, 0))
    ensures RequestOf("FILE_ABORT" + " " + token, sender) == AbortRequest(token)
  {
    hide Classify, RequestOf, SplitWords, IsToken, NameOf, IsSha256Hex, ParseUint64, Offers.JoinWords,
         Resent.BeginWords, IsUpperWord;
    var words := Resent.BeginWords(token, target, word, |source|, digest);
    NamesUpper();
    Resent.BeginWordsOk(token, target, word, source, digest);
    WordsSplit(words);
    BeginRead(name, words, Offers.JoinWords(words), |source|, sender);
    LineRead(name, words, sender);
    Resent.TokenWord(token);
    JoinOne(token);
    WordsSplit([token]);
    AbortRead(token, sender);
    LineRead("FILE_ABORT", [token], sender);
  }

  lemma WordsSplit(words: seq<Bytes>)
    requires words != [] && Offers.AllWords(words)
    ensures SplitWords(Offers.JoinWords(words)) == words
  {
    var all := Offers.JoinWords(words);
    Offers.SplitCut(words, |all|);
    assert all[..|all|] == all;
  }

  lemma LineRead(name: Bytes, words: seq<Bytes>, sender: Bytes)
    requires IsUpperWord(name) && words != [] && Offers.AllWords(words)
    ensures RequestOf(name + " " + Offers.JoinWords(words), sender)
            == Classify(Command(name, Offers.JoinWords(words)), sender)
  {
    hide Classify, ParseCommand, StripReturn, SplitWords, Offers.JoinWords;
    Resent.CommandParses(name, words);
  }

  lemma NamesUpper()
    ensures IsUpperWord("FILE_BEGIN_PRIVATE") && IsUpperWord("FILE_BEGIN_GROUP") && IsUpperWord("FILE_ABORT")
  {
  }

  lemma JoinOne(word: Bytes)
    ensures Offers.JoinWords([word]) == word
  {
  }

  lemma BeginRead(name: Bytes, words: seq<Bytes>, arguments: Bytes, size: nat, sender: Bytes)
    requires name == "FILE_BEGIN_PRIVATE" || name == "FILE_BEGIN_GROUP"
    requires SplitWords(arguments) == words && |words| == 5 && IsToken(words[0]) && IsSha256Hex(words[4])
    requires NameOf(words[2]).Some? && ParseUint64(words[3]) == Some(size) && size <= MAX_FILE_SIZE
    ensures Classify(Command(name, arguments), sender)
            == BeginRequest(words[0], Meta(name, sender, words[1], NameOf(words[2]).value, size, words[4], 0))
  {
    hide SplitWords, IsToken, NameOf, IsSha256Hex, ParseUint64;
    assert name[5] == 'B' && "FILE_CHUNK"[5] == 'C';
  }

  lemma AbortRead(token: Bytes, sender: Bytes)
    requires SplitWords(token) == [token]
    ensures Classify(Command("FILE_ABORT", token), sender) == AbortRequest(token)
  {
    hide SplitWords, ParseUint64;
    assert "FILE_ABORT"[5] == 'A' && "FILE_CHUNK"[5] == 'C' && "FILE_END"[5] == 'E';
    assert "FILE_BEGIN_PRIVATE"[5] == 'B' && "FILE_BEGIN_GROUP"[5] == 'B';
  }

  /** FILE_BEGIN is granted exactly when the session has no upload, the permission checks pass and what is
      here of the token's upload, if anything, is of this one; then the session continues where it was
      interrupted.  Otherwise the session is left without an upload and nothing else changes. */
  lemma BeginEffect(w: World, sha: Digest, i: nat, choice: Choice, line: Bytes, token: Bytes, meta: Meta)
    requires NextCommand(w, i, line) && RequestOf(line, w.peers[i].sender) == BeginRequest(token, meta)
    ensures var w' := Act(w, sha, Work(i, choice));
            var granted := && w.peers[i].d.upload.None? && choice.allowed
                           && (Interrupted(w.s, token) ==>
                                 SameFile(meta, w.s.metas[token]) && |w.s.parts[token]| <= meta.size);
            && i in w'.peers && w'.recorded == w.recorded && w'.s.stored == w.s.stored
            && (granted ==>
                  && w'.peers[i].d.upload
                     == Some(Upload(token, meta.name, meta.digest, BytesHere(w.s, token), meta.size))
                  && Interrupted(w'.s, token) && |w'.s.parts[token]| == BytesHere(w.s, token))
            && (!granted ==> w'.peers[i].d.upload.None? && w'.s == w.s)
  {
    hide Act, RequestOf, BeginUpload;
    Reacted(w, sha, i, choice, line);
    UploadResumes(w.s, token, meta);
  }

  /** FILE_END of the session's complete upload: with the permission still there and the right digest the
      file is stored and, under a fresh token, recorded; without them nothing is left of it.  FILE_END of
      anything else only ends the session's upload, which can be resumed. */
  lemma EndEffect(w: World, sha: Digest, i: nat, choice: Choice, line: Bytes, token: Bytes)
    requires NextCommand(w, i, line) && RequestOf(line, w.peers[i].sender) == EndRequest(token)
    ensures var w', upload := Act(w, sha, Work(i, choice)), w.peers[i].d.upload;
            && i in w'.peers && w'.peers[i].d.upload.None?
            && var complete := && upload.Some? && upload.value.token == token
                               && upload.value.received == upload.value.expected;
            && (!complete ==> w'.s == w.s && w'.recorded == w.recorded)
            && (complete ==>
                  && !Interrupted(w'.s, token) && token !in w'.s.parts && token !in w'.s.metas
                  && w'.s.parts == w.s.parts - {token} && w'.s.metas == w.s.metas - {token}
                  && var u := upload.value;
                  && var good := choice.allowed && FinalizeOk(w.s, sha, token, u.expected, u.digest);
                  && (!good ==> w'.s.stored == w.s.stored && w'.recorded == w.recorded)
                  && (good && choice.saved && token !in w.recorded ==>
                        && w'.s.stored == w.s.stored[(token, u.name) := w.s.parts[token]]
                        && w'.recorded == w.recorded + {token})
                  && (good && !(choice.saved && token !in w.recorded) ==>
                        w'.s.stored == w.s.stored - {(token, u.name)} && w'.recorded == w.recorded))
  {
    hide Act, RequestOf, FinalizeOk;
    Reacted(w, sha, i, choice, line);
    var upload := w.peers[i].d.upload;
    if upload.Some? && upload.value.token == token && upload.value.received == upload.value.expected {
      FinishEffect(w.s, w.recorded, sha, upload.value, choice);
    }
  }

  lemma FinishEffect(s: Storage, recorded: set<Bytes>, sha: Digest, u: Upload, choice: Choice)
    ensures var r, good := FinishUpload(s, recorded, sha, u, choice),
                           choice.allowed && FinalizeOk(s, sha, u.token, u.expected, u.digest);
            && r.effect == Detach && r.s.parts == s.parts - {u.token} && r.s.metas == s.metas - {u.token}
            && (!good ==> r.s.stored == s.stored && r.recorded == recorded)
            && (good && choice.saved && u.token !in recorded ==>
                  && r.s.stored == s.stored[(u.token, u.name) := s.parts[u.token]]
                  && r.recorded == recorded + {u.token})
            && (good && !(choice.saved && u.token !in recorded) ==>
                  r.s.stored == s.stored - {(u.token, u.name)} && r.recorded == recorded)
  {
    var key := (u.token, u.name);
    assert u.token in s.parts ==> s.stored[key := s.parts[u.token]] - {key} == s.stored - {key};
  }

  /** FILE_ABORT of the session's upload leaves nothing of it, stored files excepted; of anything else it
      does nothing. */
  lemma AbortEffect(w: World, sha: Digest, i: nat, choice: Choice, line: Bytes, token: Bytes)
    requires NextCommand(w, i, line) && RequestOf(line, w.peers[i].sender) == AbortRequest(token)
    ensures var w', upload := Act(w, sha, Work(i, choice)), w.peers[i].d.upload;
            && i in w'.peers && w'.recorded == w.recorded && w'.s.stored == w.s.stored
            && (if upload.Some? && upload.value.token == token
                then && w'.peers[i].d.upload.None?
                     && w'.s.parts == w.s.parts - {token} && w'.s.metas == w.s.metas - {token}
                else w'.peers[i].d.upload == upload && w'.s == w.s)
  {
    hide Act, RequestOf;
    Reacted(w, sha, i, choice, line);
  }

  /** A FILE_BEGIN that makes no sense only ends the session's upload. */
  lemma MalformedEffect(w: World, sha: Digest, i: nat, choice: Choice, line: Bytes)
    requires NextCommand(w, i, line) && RequestOf(line, w.peers[i].sender) == MalformedBegin
    ensures var w' := Act(w, sha, Work(i, choice));
            i in w'.peers && w'.peers[i].d.upload.None? && w'.s == w.s && w'.recorded == w.recorded
  {
    hide Act, RequestOf;
    Reacted(w, sha, i, choice, line);
  }
}
