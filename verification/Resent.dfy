/** An upload that is sent again under a token whose transfer is already recorded, because its
    FILE_UPLOAD_OK was lost: finishing it removes the stored file of the recorded transfer. */
module Resent {
  import opened Text
  import opened Percent
  import opened Units
  import opened ServerDemux
  import opened UploadStore
  import opened Uploads
  import Offers

  // ---- when a stored file is lost -----------------------------------------------------------

  /** The step handles FILE_END of a complete upload under this token and name. */
  predicate EndsUpload(w: World, sha: Digest, a: Action, key: (Bytes, Bytes)) {
    && a.Work? && a.peer in w.peers
    && var d := w.peers[a.peer].d;
    && CanStep(d) && !InFrame(d) && d.upload.Some? && (d.upload.value.token, d.upload.value.name) == key
    && d.upload.value.received == d.upload.value.expected
    && RequestOf(d.buffer[..IndexOf(d.buffer, '\n')], w.peers[a.peer].sender) == EndRequest(key.0)
    && a.choice.allowed && FinalizeOk(w.s, sha, key.0, d.upload.value.expected, d.upload.value.digest)
  }

  /** A stored file of a recorded transfer disappears in a step exactly when the step ends another
      upload under its token and name. */
  lemma RecordedLost(w: World, sha: Digest, a: Action, key: (Bytes, Bytes))
    requires key in w.s.stored && key.0 in w.recorded
    ensures key !in Act(w, sha, a).s.stored <==> EndsUpload(w, sha, a, key)
    ensures key.0 in Act(w, sha, a).recorded
  {
    hide ParseCommand, SplitWords, IndexOf, Step, FinalizeOk, BeginUpload;
    if a.Work? && a.peer in w.peers && CanStep(w.peers[a.peer].d) {
      var peer := w.peers[a.peer];
      if InFrame(peer.d) {
        FrameStores(w, a.peer);
      } else {
        var command := ParseCommand(StripReturn(peer.d.buffer[..IndexOf(peer.d.buffer, '\n')]));
        EmptyCommand(command, peer.sender);
        ReactionLost(w.s, w.recorded, sha, peer.d, Classify(command, peer.sender), a.choice, key);
      }
    }
  }

  lemma FrameStores(w: World, i: nat)
    requires i in w.peers && CanStep(w.peers[i].d) && InFrame(w.peers[i].d)
    ensures WorkFrame(w, i).s.stored == w.s.stored && WorkFrame(w, i).recorded == w.recorded
  {
    hide Step;
  }

  lemma EmptyCommand(command: Command, sender: Bytes)
    ensures command.name == [] ==> Classify(command, sender) == OtherRequest
  {
    hide SplitWords, ParseUint64;
  }

  lemma ReactionLost(s: Storage, recorded: set<Bytes>, sha: Digest, d: Demux, request: Request, choice: Choice,
                     key: (Bytes, Bytes))
    requires key in s.stored && key.0 in recorded
    ensures var r := React(s, recorded, sha, d, request, choice);
            && key.0 in r.recorded
            && (key !in r.s.stored <==>
                  && request == EndRequest(key.0) && d.upload.Some?
                  && (d.upload.value.token, d.upload.value.name) == key
                  && d.upload.value.received == d.upload.value.expected
                  && choice.allowed && FinalizeOk(s, sha, key.0, d.upload.value.expected, d.upload.value.digest))
  {
    match request {
      case BeginRequest(token, meta) => BeginStores(s, token, meta);
      case _ =>
    }
  }

  lemma BeginStores(s: Storage, token: Bytes, meta: Meta)
    ensures BeginUpload(s, token, meta).s.stored == s.stored
  {
  }

  // ---- a run that loses one -----------------------------------------------------------------

  function BeginWords(token: Bytes, target: Bytes, name: Bytes, size: nat, digest: Bytes): seq<Bytes> {
    [token, target, name, ToDecimal(size), digest]
  }

  function BeginLine(token: Bytes, target: Bytes, name: Bytes, size: nat, digest: Bytes): Bytes {
    "FILE_BEGIN_PRIVATE" + " " + Offers.JoinWords(BeginWords(token, target, name, size, digest))
  }

  /** The words of an upload request that the server accepts; `name` is the encoded file name. */
  predicate Sendable(token: Bytes, target: Bytes, name: Bytes, source: Bytes, digest: Bytes) {
    && IsToken(token) && IsWord(target) && IsWord(name) && NameOf(name).Some? && IsSha256Hex(digest)
    && |source| <= MAX_FILE_SIZE
  }

  /** Every file name of up to 255 bytes can be sent. */
  lemma NameSent(name: Bytes)
    requires IsBytes(name) && 0 < |name| <= MAX_NAME
    ensures IsWord(Encode(name)) && NameOf(Encode(name)) == Some(SanitizeFilename(name))
  {
    DecodeEncode(name);
    Offers.EncodedWord(name);
    hide Encode, Decode, SanitizeFilename;
  }

  lemma BeginLineParses(token: Bytes, target: Bytes, name: Bytes, source: Bytes, digest: Bytes, sender: Bytes)
    requires Sendable(token, target, name, source, digest)
    ensures var line := BeginLine(token, target, name, |source|, digest);
            && '\n' !in line
            && RequestOf(line, sender)
               == BeginRequest(token, Meta("FILE_BEGIN_PRIVATE", sender, target, NameOf(name).value, |source|, digest,
                                           0))
            && ParseCommand(StripReturn(line)).name == "FILE_BEGIN_PRIVATE"
  {
    var words := BeginWords(token, target, name, |source|, digest);
    BeginWordsOk(token, target, name, source, digest);
    hide BeginWords, Classify, ParseCommand, ParseUint64, SplitWords, IsToken, NameOf, IsSha256Hex;
    CommandParses("FILE_BEGIN_PRIVATE", words);
    BeginClassified(words, Offers.JoinWords(words), |source|, sender);
  }

  lemma BeginWordsOk(token: Bytes, target: Bytes, name: Bytes, source: Bytes, digest: Bytes)
    requires Sendable(token, target, name, source, digest)
    ensures var words := BeginWords(token, target, name, |source|, digest);
            && Offers.AllWords(words) && |words| == 5 && ParseUint64(words[3]) == Some(|source|)
            && words[0] == token && words[1] == target && words[2] == name && words[4] == digest
  {
    TokenWord(token);
    DigestWord(digest);
    DecimalRoundTrip(|source|);
    hide ToDecimal, ParseUint64, IsToken, NameOf, IsSha256Hex;
  }

  lemma CommandParses(name: Bytes, words: seq<Bytes>)
    requires IsUpperWord(name) && words != [] && Offers.AllWords(words)
    ensures var arguments := Offers.JoinWords(words);
            && '\n' !in name + " " + arguments && StripReturn(name + " " + arguments) == name + " " + arguments
            && ParseCommand(name + " " + arguments) == Command(name, arguments) && SplitWords(arguments) == words
  {
    var arguments := Offers.JoinWords(words);
    Offers.JoinedTight(words);
    Offers.SplitCut(words, |arguments|);
    assert arguments[..|arguments|] == arguments;
    hide Offers.JoinWords, SplitWords, ParseCommand;
    FileTight(name, arguments);
    ParsePrintedCommand(name, arguments);
  }

  lemma FileTight(name: Bytes, arguments: Bytes)
    requires IsUpperWord(name) && Offers.FileLines.Tight(arguments)
    ensures var line := name + " " + arguments; '\n' !in line && StripReturn(line) == line
    ensures arguments != [] && !IsSpace(arguments[0]) && !IsSpace(arguments[|arguments| - 1])
  {
    Offers.FileLines.WordTight(name);
    Offers.FileLines.TightJoin(name, arguments);
  }

  lemma TokenWord(token: Bytes)
    requires IsToken(token)
    ensures IsWord(token)
  {
    assert forall i :: 0 <= i < |token| ==> HexValue(token[i]).Some?;
  }

  lemma DigestWord(digest: Bytes)
    requires IsSha256Hex(digest)
    ensures IsWord(digest)
  {
    assert forall i :: 0 <= i < |digest| ==> HexValue(digest[i]).Some?;
  }

  lemma BeginClassified(words: seq<Bytes>, arguments: Bytes, size: nat, sender: Bytes)
    requires SplitWords(arguments) == words && |words| == 5 && IsToken(words[0]) && IsSha256Hex(words[4])
    requires NameOf(words[2]).Some?
    requires ParseUint64(words[3]) == Some(size) && size <= MAX_FILE_SIZE
    ensures Classify(Command("FILE_BEGIN_PRIVATE", arguments), sender)
            == BeginRequest(words[0], Meta("FILE_BEGIN_PRIVATE", sender, words[1], NameOf(words[2]).value, size,
                                           words[4], 0))
  {
    assert "FILE_BEGIN_PRIVATE"[5] != "FILE_CHUNK"[5];
  }

  /** What a client sends to upload what is missing from `offset` on. */
  function WholeUpload(token: Bytes, target: Bytes, name: Bytes, source: Bytes, digest: Bytes, offset: nat): seq<Unit> {
    [Line(BeginLine(token, target, name, |source|, digest))] + UploadUnits(token, source, offset)
  }

  /** The upload as the server records it. */
  function MetaOf(sender: Bytes, target: Bytes, name: Bytes, source: Bytes, digest: Bytes): Meta
    requires NameOf(name).Some?
  {
    Meta("FILE_BEGIN_PRIVATE", sender, target, NameOf(name).value, |source|, digest, 0)
  }

  /** What is here of the token's upload, if anything, is the beginning of this one. */
  predicate Continues(s: Storage, token: Bytes, meta: Meta, source: Bytes) {
    Interrupted(s, token) ==> SameIdentity(meta, s.metas[token]) && s.parts[token] <= source
  }

  lemma {:induction false} ActTwice(w: World, sha: Digest, first: seq<Action>, second: seq<Action>)
    ensures ActAll(w, sha, first + second) == ActAll(ActAll(w, sha, first), sha, second)
    decreases |first|
  {
    hide Act;
    if first == [] {
      assert first + second == second;
    } else {
      ActTwice(Act(w, sha, first[0]), sha, first[1..], second);
      assert (first + second)[1..] == first[1..] + second;
    }
  }

  lemma ActThree(w: World, sha: Digest, a: Action, b: Action, c: Action)
    ensures ActAll(w, sha, [a, b, c]) == Act(Act(Act(w, sha, a), sha, b), sha, c)
  {
    hide Act;
    assert [a, b, c][1..] == [b, c] && [b, c][1..] == [c] && [c][1..] == [];
    var first := Act(w, sha, a);
    assert ActAll(w, sha, [a, b, c]) == ActAll(first, sha, [b, c]);
    assert ActAll(first, sha, [b, c]) == ActAll(Act(first, sha, b), sha, [c]);
  }

  /** The request is granted: the upload starts with what is here of it. */
  lemma BeginRound(w: World, sha: Digest, i: nat, choice: Choice, token: Bytes, target: Bytes, name: Bytes,
                   source: Bytes, digest: Bytes)
    requires Sendable(token, target, name, source, digest) && choice.allowed
    requires i in w.peers && Continues(w.s, token, MetaOf(w.peers[i].sender, target, name, source, digest), source)
    requires var d := w.peers[i].d;
             && d.connected && !d.ended && d.frame.None? && d.upload.None?
             && d.buffer == BeginLine(token, target, name, |source|, digest) + "\n"
                            + UnitsBytes(UploadUnits(token, source, BytesHere(w.s, token)))
    ensures var w' := Act(w, sha, Work(i, choice));
            && Undisturbed(w', i, token, source) && w'.recorded == w.recorded && w'.s.stored == w.s.stored
            && BytesHere(w'.s, token) == BytesHere(w.s, token)
            && w'.peers[i].d.upload.value.name == NameOf(name).value && w'.peers[i].d.upload.value.digest == digest
  {
    var d, sender := w.peers[i].d, w.peers[i].sender;
    var line := BeginLine(token, target, name, |source|, digest);
    var rest := UnitsBytes(UploadUnits(token, source, BytesHere(w.s, token)));
    hide BeginLine, UploadUnits, UnitsBytes, ParseCommand, IndexOf, ParseUint64, SplitWords, Step, IsToken, NameOf,
         IsSha256Hex;
    BeginLineParses(token, target, name, source, digest, sender);
    TokenWord(token);
    assert d.buffer[|line|] == '\n';
    NextLine(d.buffer, [], line, rest);
    assert d.buffer[|line| + 1..] + [] == d.buffer[|line| + 1..];
    hide Classify;
    var meta := MetaOf(sender, target, name, source, digest);
    var upload := Upload(token, NameOf(name).value, digest, BytesHere(w.s, token), |source|);
    Granted(w.s, w.recorded, sha, d, token, meta, source, choice);
    BegunSession(d, upload, line, rest);
    LineWorld(w, sha, i, choice, line);
    hide Act, React, StripReturn;
  }

  /** A line that is a command: the world changes as the file service reacts. */
  lemma LineWorld(w: World, sha: Digest, i: nat, choice: Choice, line: Bytes)
    requires i in w.peers && CanStep(w.peers[i].d) && !InFrame(w.peers[i].d)
    requires var d := w.peers[i].d; IndexOf(d.buffer, '\n') == |line| < |d.buffer| && d.buffer[..|line|] == line
    requires ParseCommand(StripReturn(line)).name != []
    ensures var w', peer := Act(w, sha, Work(i, choice)), w.peers[i];
            var r := React(w.s, w.recorded, sha, peer.d, RequestOf(line, peer.sender), choice);
            && w'.s == r.s && w'.recorded == r.recorded && i in w'.peers
            && w'.peers[i].d == Step(peer.d, Env(_ => r.effect, _ => false))
  {
    hide ParseCommand, IndexOf, Step, React, Classify, StripReturn;
  }

  lemma Granted(s: Storage, recorded: set<Bytes>, sha: Digest, d: Demux, token: Bytes, meta: Meta, source: Bytes,
                choice: Choice)
    requires choice.allowed && d.upload.None? && Continues(s, token, meta, source) && meta.size == |source|
    ensures var s' := BeginUpload(s, token, meta).s;
            && React(s, recorded, sha, d, BeginRequest(token, meta), choice)
               == Reaction(s', recorded, Begin(Upload(token, meta.name, meta.digest, BytesHere(s, token), meta.size)))
            && Interrupted(s', token) && |s'.parts[token]| == BytesHere(s, token) && s'.parts[token] <= source
            && s'.stored == s.stored
  {
    UploadResumes(s, token, meta);
  }

  lemma BegunSession(d: Demux, upload: Upload, line: Bytes, rest: Bytes)
    requires CanStep(d) && d.frame.None? && d.upload.None?
    requires IndexOf(d.buffer, '\n') == |line| < |d.buffer| && d.buffer[..|line|] == line
             && d.buffer[|line| + 1..] == rest
    requires ParseCommand(StripReturn(line)).name == "FILE_BEGIN_PRIVATE"
    ensures var d' := Step(d, Env(_ => Begin(upload), _ => false));
            d' == d.(buffer := rest, upload := Some(upload), lines := d'.lines, commands := d'.commands)
  {
    hide ParseCommand, IndexOf;
    assert "FILE_BEGIN_PRIVATE"[5] != "FILE_CHUNK"[5];
  }

  /** Connect, let everything arrive, and work until the upload has ended. */
  lemma Uploaded(w: World, sha: Digest, i: nat, sender: Bytes, choice: Choice, token: Bytes, target: Bytes, name: Bytes,
                 source: Bytes, digest: Bytes) returns (actions: seq<Action>)
    requires Sendable(token, target, name, source, digest) && choice.allowed && choice.saved
    requires i !in w.peers && sha(source) == ToLowerAll(digest)
    requires Continues(w.s, token, MetaOf(sender, target, name, source, digest), source)
    ensures forall k :: 0 <= k < |actions| && actions[k].Connect? ==>
              actions[k] == Connect(i, sender, WholeUpload(token, target, name, source, digest, BytesHere(w.s, token)))
    ensures var w' := ActAll(w, sha, actions);
            && token !in w'.s.parts && token in w'.recorded
            && ((token, NameOf(name).value) in w'.s.stored <==> token !in w.recorded)
            && ((token, NameOf(name).value) in w'.s.stored ==> w'.s.stored[(token, NameOf(name).value)] == source)
  {
    var units := WholeUpload(token, target, name, source, digest, BytesHere(w.s, token));
    var all := UnitsBytes(units);
    var a, b, c := Connect(i, sender, units), Arrive(i, |all|), Work(i, choice);
    Opened(w, sha, i, sender, units);
    UploadBytes(token, target, name, source, digest, BytesHere(w.s, token));
    var open := Act(Act(w, sha, a), sha, b);
    hide Act, Undisturbed, BeginLine, UploadUnits, UnitsBytes, ToLowerAll, Sendable;
    BeginRound(open, sha, i, choice, token, target, name, source, digest);
    ActThree(w, sha, a, b, c);
    var begun := Act(open, sha, c);
    UndisturbedSession(begun, i, token, source);
    var n := UploadFinishes(begun, sha, i, choice, token, source);
    actions := [a, b, c] + Repeat(c, n);
    ActTwice(w, sha, [a, b, c], Repeat(c, n));
  }

  lemma UndisturbedSession(w: World, i: nat, token: Bytes, source: Bytes)
    requires Undisturbed(w, i, token, source)
    ensures i in w.peers && w.peers[i].d.upload.Some? && token in w.s.parts
  {
  }

  lemma UploadBytes(token: Bytes, target: Bytes, name: Bytes, source: Bytes, digest: Bytes, offset: nat)
    ensures UnitsBytes(WholeUpload(token, target, name, source, digest, offset))
            == BeginLine(token, target, name, |source|, digest) + "\n" + UnitsBytes(UploadUnits(token, source, offset))
  {
    hide BeginLine, UploadUnits;
    var units := WholeUpload(token, target, name, source, digest, offset);
    assert units[1..] == UploadUnits(token, source, offset);
  }

  lemma Opened(w: World, sha: Digest, i: nat, sender: Bytes, units: seq<Unit>)
    requires i !in w.peers
    ensures var open := Act(Act(w, sha, Connect(i, sender, units)), sha, Arrive(i, |UnitsBytes(units)|));
            && open.s == w.s && open.recorded == w.recorded && i in open.peers
            && open.peers[i].sender == sender
            && open.peers[i].d == Demux(UnitsBytes(units), true, None, None, [], [], [], false, false)
  {
    hide UnitsBytes;
    var all := UnitsBytes(units);
    assert [] + all[..|all|] == all;
  }

  /** For every token, file name and content there is a run, of clients that send nothing but their
      sources, after which the transfer is recorded and its stored file is gone: the upload ends,
      the connection breaks, and the upload is sent once more. */
  lemma ResentUploadLost(sha: Digest, sender: Bytes, token: Bytes, target: Bytes, name: Bytes, source: Bytes,
                         digest: Bytes)
    returns (first: seq<Action>, second: seq<Action>)
    requires Sendable(token, target, name, source, digest) && sha(source) == ToLowerAll(digest)
    ensures forall k :: 0 <= k < |first + second| ==> Enabled(map[token := source], (first + second)[k])
    ensures var w, key := ActAll(EMPTY, sha, first), (token, NameOf(name).value);
            token in w.recorded && key in w.s.stored && w.s.stored[key] == source
    ensures var w := ActAll(EMPTY, sha, first + second);
            token in w.recorded && (token, NameOf(name).value) !in w.s.stored
  {
    var choice := Choice(true, true, Keep);
    first := Uploaded(EMPTY, sha, 0, sender, choice, token, target, name, source, digest);
    var w := ActAll(EMPTY, sha, first);
    var off := Act(w, sha, Disconnect(0));
    var again := Uploaded(off, sha, 0, sender, choice, token, target, name, source, digest);
    second := [Disconnect(0)] + again;
    hide UploadUnits, UnitsBytes, ToLowerAll;
    assert second[1..] == again;
    assert ActAll(w, sha, second) == ActAll(off, sha, again);
    hide ActAll;
    ActTwice(EMPTY, sha, first, second);
    WholeUploadOk(map[token := source], token, target, name, digest, 0, sender);
  }

  lemma WholeUploadOk(sources: Sources, token: Bytes, target: Bytes, name: Bytes, digest: Bytes, offset: nat,
                      sender: Bytes)
    requires token in sources && Sendable(token, target, name, sources[token], digest)
    ensures UnitsOk(sources, WholeUpload(token, target, name, sources[token], digest, offset), sender)
  {
    var source := sources[token];
    var line := BeginLine(token, target, name, |source|, digest);
    BeginLineParses(token, target, name, source, digest, sender);
    hide UploadUnits, BeginLine, RequestOf, IsToken, UnitsOk;
    TokenWord(token);
    UploadUnitsOk(sources, token, offset, sender);
    BeginUnitOk(sources, line, sender);
    FirstOk(sources, Line(line), UploadUnits(token, source, offset), sender);
  }

  lemma BeginUnitOk(sources: Sources, line: Bytes, sender: Bytes)
    requires '\n' !in line && RequestOf(line, sender).BeginRequest?
    requires var r := RequestOf(line, sender); r.token in sources && r.meta.size == |sources[r.token]|
    ensures UnitOk(sources, Line(line), sender)
  {
    hide RequestOf;
  }

  // ---- an interrupted upload ----------------------------------------------------------------

  /** A checkpoint keeps its identity until the upload has ended. */
  lemma MetaStays(w: World, sha: Digest, a: Action, token: Bytes)
    requires Interrupted(w.s, token) && Interrupted(Act(w, sha, a).s, token)
    ensures Act(w, sha, a).s.metas[token] == w.s.metas[token]
  {
    hide ParseCommand, SplitWords, IndexOf, Step, FinalizeOk, Classify;
    if a.Work? && a.peer in w.peers && CanStep(w.peers[a.peer].d) && !InFrame(w.peers[a.peer].d) {
      var peer := w.peers[a.peer];
      var command := ParseCommand(StripReturn(peer.d.buffer[..IndexOf(peer.d.buffer, '\n')]));
      EmptyCommand(command, peer.sender);
      ReactionMeta(w.s, w.recorded, sha, peer.d, Classify(command, peer.sender), a.choice, token);
    }
  }

  lemma ReactionMeta(s: Storage, recorded: set<Bytes>, sha: Digest, d: Demux, request: Request, choice: Choice,
                     token: Bytes)
    requires Interrupted(s, token) && Interrupted(React(s, recorded, sha, d, request, choice).s, token)
    ensures React(s, recorded, sha, d, request, choice).s.metas[token] == s.metas[token]
  {
    hide FinalizeOk;
  }

  /** Throughout the run the upload has not ended. */
  predicate Unfinished(w: World, sha: Digest, actions: seq<Action>, token: Bytes)
    decreases |actions|
  {
    && Interrupted(w.s, token)
    && (actions == [] || Unfinished(Act(w, sha, actions[0]), sha, actions[1..], token))
  }

  lemma {:induction false} IdentityKept(w: World, sha: Digest, actions: seq<Action>, token: Bytes)
    requires Unfinished(w, sha, actions, token)
    ensures var w' := ActAll(w, sha, actions); Interrupted(w'.s, token) && w'.s.metas[token] == w.s.metas[token]
    decreases |actions|
  {
    hide Act, Interrupted;
    if actions == [] {
    } else {
      MetaStays(w, sha, actions[0], token);
      IdentityKept(Act(w, sha, actions[0]), sha, actions[1..], token);
    }
  }

  /** An upload that is under way may be interrupted at any point, by any number of disconnects: when
      its sender connects again, announces it again and sends what is missing from the offset the
      server names, it ends with the whole source stored (or, under a token that is recorded already,
      with `ResentUploadLost`). */
  lemma InterruptedUploadFinishes(sources: Sources, w: World, sha: Digest, actions: seq<Action>, i: nat, sender: Bytes,
                                  choice: Choice, token: Bytes, target: Bytes, name: Bytes, digest: Bytes)
    returns (more: seq<Action>)
    requires SourcesOk(sources) && WorldOk(sources, w)
    requires forall k :: 0 <= k < |actions| ==> Enabled(sources, actions[k])
    requires token in sources && Sendable(token, target, name, sources[token], digest)
    requires sha(sources[token]) == ToLowerAll(digest) && choice.allowed && choice.saved
    requires Unfinished(w, sha, actions, token)
    requires SameIdentity(MetaOf(sender, target, name, sources[token], digest), w.s.metas[token])
    requires i !in ActAll(w, sha, actions).peers
    ensures forall k :: 0 <= k < |more| ==> Enabled(sources, more[k])
    ensures var w1, w2 := ActAll(w, sha, actions), ActAll(w, sha, actions + more);
            var key := (token, NameOf(name).value);
            && (forall k :: 0 <= k < |more| && more[k].Connect? ==>
                  more[k] == Connect(i, sender, WholeUpload(token, target, name, sources[token], digest,
                                                            BytesHere(w1.s, token))))
            && token in w2.recorded && (key in w2.s.stored <==> token !in w1.recorded)
            && (key in w2.s.stored ==> w2.s.stored[key] == sources[token])
  {
    hide ActAll, SourcesOk, Enabled, Sendable, WholeUpload, ToLowerAll, NameOf;
    var w1 := ActAll(w, sha, actions);
    IdentityKept(w, sha, actions, token);
    ActAllOk(sources, w, sha, actions);
    PartBegins(sources, w1, token);
    SendableName(token, target, name, sources[token], digest);
    more := Uploaded(w1, sha, i, sender, choice, token, target, name, sources[token], digest);
    ActTwice(w, sha, actions, more);
    WholeUploadOk(sources, token, target, name, digest, BytesHere(w1.s, token), sender);
    forall k | 0 <= k < |more| ensures Enabled(sources, more[k]) {
      ConnectEnabled(sources, more[k]);
    }
  }

  lemma ConnectEnabled(sources: Sources, a: Action)
    requires a.Connect? ==> UnitsOk(sources, a.units, a.sender)
    ensures Enabled(sources, a)
  {
  }

  lemma SendableName(token: Bytes, target: Bytes, name: Bytes, source: Bytes, digest: Bytes)
    requires Sendable(token, target, name, source, digest)
    ensures NameOf(name).Some?
  {
  }

  lemma PartBegins(sources: Sources, w: World, token: Bytes)
    requires WorldOk(sources, w) && token in w.s.parts && token in sources
    ensures w.s.parts[token] <= sources[token]
  {
    hide PeerOk;
  }
}
