/** Resumable uploads end to end: clients send the frames of their source files over any number of
    connections, which break and come back at any point; the server's .part file of a token is
    always a prefix of the source, so what it stores in the end is exactly the source. */
module Uploads {
  import opened Text
  import opened Percent
  import opened Units
  import opened ServerDemux
  import opened UploadStore
  import FileLines
  import Stream

  /** The content each client means by a token. */
  type Sources = map<Bytes, Bytes>

  // ---- what a client sends ------------------------------------------------------------------

  function ChunkLine(token: Bytes, offset: nat, count: nat): Bytes {
    "FILE_CHUNK" + " " + (token + " " + (ToDecimal(offset) + " " + ToDecimal(count)))
  }

  function EndLine(token: Bytes): Bytes { "FILE_END" + " " + token }

  function FrameSize(source: Bytes, offset: nat): nat
    requires offset < |source|
  {
    if |source| - offset < FILE_FRAME_BYTES then |source| - offset else FILE_FRAME_BYTES
  }

  /** The frames of `source` from `offset` on, and FILE_END. */
  function UploadUnits(token: Bytes, source: Bytes, offset: nat): seq<Unit>
    decreases |source| - offset
  {
    if offset >= |source| then [Line(EndLine(token))]
    else
      var size := FrameSize(source, offset);
      [Chunk(ChunkLine(token, offset, size) + "\n", source[offset..offset + size])]
      + UploadUnits(token, source, offset + size)
  }

  lemma UploadFrame(token: Bytes, source: Bytes, offset: nat)
    requires offset < |source|
    ensures var size := FrameSize(source, offset);
            UnitsBytes(UploadUnits(token, source, offset))
            == ChunkLine(token, offset, size) + "\n" + source[offset..offset + size]
               + UnitsBytes(UploadUnits(token, source, offset + size))
  {
    hide ChunkLine;
    var size := FrameSize(source, offset);
    assert UploadUnits(token, source, offset)[1..] == UploadUnits(token, source, offset + size);
  }

  lemma UploadEnd(token: Bytes, source: Bytes, offset: nat)
    requires offset >= |source|
    ensures UnitsBytes(UploadUnits(token, source, offset)) == EndLine(token) + "\n"
  {
    hide EndLine;
    assert UnitsBytes([]) == [];
    assert EndLine(token) + "\n" + [] == EndLine(token) + "\n";
  }

  /** `send_upload_data`, with what it sends as its result. */
  method SendUploadData(token: Bytes, source: Bytes, startOffset: nat) returns (ok: bool, sent: Bytes)
    ensures ok <==> startOffset <= |source|
    ensures sent == if ok then UnitsBytes(UploadUnits(token, source, startOffset)) else []
  {
    hide ChunkLine, EndLine, UploadUnits, UnitsBytes;
    if startOffset > |source| {
      return false, [];
    }
    var offset := startOffset;
    sent := [];
    while offset < |source|
      invariant startOffset <= offset <= |source|
      invariant sent + UnitsBytes(UploadUnits(token, source, offset))
                == UnitsBytes(UploadUnits(token, source, startOffset))
    {
      var size := FrameSize(source, offset);
      var frame := ChunkLine(token, offset, size) + "\n" + source[offset..offset + size];
      UploadFrame(token, source, offset);
      Stream.Assoc(sent, frame, UnitsBytes(UploadUnits(token, source, offset + size)));
      sent := sent + frame;
      offset := offset + size;
    }
    UploadEnd(token, source, offset);
    sent := sent + (EndLine(token) + "\n");
    ok := true;
  }

  datatype Request = BeginRequest(token: Bytes, meta: Meta) | EndRequest(token: Bytes) | AbortRequest(token: Bytes)
                   | ChunkRequest | MalformedBegin | OtherRequest

  predicate IsToken(s: Bytes) { |s| == 32 && forall i :: 0 <= i < |s| ==> HexValue(s[i]).Some? }

  const MAX_NAME: nat := 255

  /** The file name a word stands for, if it is one the server takes. */
  function NameOf(word: Bytes): Option<Bytes> {
    var name := Decode(word);
    if name.None? || name.value == [] || |name.value| > MAX_NAME then None else Some(SanitizeFilename(name.value))
  }

  /** What a command asks of the file service.  Both FILE_BEGIN commands have the words token,
      target, file name, size and digest. */
  function Classify(command: Command, sender: Bytes): Request {
    var words := SplitWords(command.arguments);
    if command.name == "FILE_CHUNK" then ChunkRequest
    else if command.name == "FILE_BEGIN_PRIVATE" || command.name == "FILE_BEGIN_GROUP" then
      if |words| != 5 || ParseUint64(words[3]).None? || ParseUint64(words[3]).value > MAX_FILE_SIZE
         || !IsToken(words[0]) || !IsSha256Hex(words[4]) || NameOf(words[2]).None?
      then MalformedBegin
      else BeginRequest(words[0], Meta(command.name, sender, words[1], NameOf(words[2]).value,
                                       ParseUint64(words[3]).value, words[4], 0))
    else if command.name == "FILE_END" then
      if |words| == 1 then EndRequest(words[0]) else EndRequest([])
    else if command.name == "FILE_ABORT" && |words| == 1 then AbortRequest(words[0])
    else OtherRequest
  }

  function RequestOf(line: Bytes, sender: Bytes): Request { Classify(ParseCommand(StripReturn(line)), sender) }

  /** A line that announces no upload under a false size. */
  predicate LineOk(sources: Sources, text: Bytes, sender: Bytes) {
    && '\n' !in text
    && var r := RequestOf(text, sender);
    && r != ChunkRequest
    && (r.BeginRequest? ==> r.token in sources && r.meta.size == |sources[r.token]|)
  }

  predicate ChunkAt(sources: Sources, u: Unit, token: Bytes, offset: nat) {
    && u.Chunk? && token in sources && IsWord(token)
    && 0 < |u.payload| && offset + |u.payload| <= |sources[token]| <= MAX_FILE_SIZE
    && u.payload == sources[token][offset..offset + |u.payload|]
    && u.header == ChunkLine(token, offset, |u.payload|) + "\n"
  }

  ghost predicate UnitOk(sources: Sources, u: Unit, sender: Bytes) {
    match u
    case Line(text) => LineOk(sources, text, sender)
    case Chunk(_, _) => exists token, offset :: ChunkAt(sources, u, token, offset)
  }

  ghost predicate UnitsOk(sources: Sources, units: seq<Unit>, sender: Bytes) {
    forall i :: 0 <= i < |units| ==> UnitOk(sources, units[i], sender)
  }

  lemma ChunkLineParses(token: Bytes, offset: nat, count: nat)
    requires IsWord(token) && offset < UINT64_LIMIT && count < UINT64_LIMIT
    ensures var line, command := ChunkLine(token, offset, count), ParseCommand(ChunkLine(token, offset, count));
            && FileLines.Tight(line) && command.name == "FILE_CHUNK"
            && var words := SplitWords(command.arguments);
               |words| == 3 && words[0] == token && ParseUint64(words[1]) == Some(offset)
                 && ParseUint64(words[2]) == Some(count)
  {
    hide ToDecimal, SplitWords, ParseCommand, ParseUint64;
    var numbers := ToDecimal(offset) + " " + ToDecimal(count);
    var arguments := token + " " + numbers;
    FileLines.WordTight(token);
    FileLines.DecimalTight(offset);
    FileLines.DecimalTight(count);
    FileLines.TightJoin(ToDecimal(offset), ToDecimal(count));
    FileLines.TightJoin(token, numbers);
    FileLines.TightJoin("FILE_CHUNK", arguments);
    ParsePrintedCommand("FILE_CHUNK", arguments);
    SplitFirstWord(token, numbers);
    FileLines.Numbers2(offset, count);
    DecimalRoundTrip(offset);
    DecimalRoundTrip(count);
  }

  lemma NoneOk(sources: Sources, sender: Bytes)
    ensures UnitsOk(sources, [], sender)
  {
  }

  lemma FirstOk(sources: Sources, u: Unit, units: seq<Unit>, sender: Bytes)
    requires UnitOk(sources, u, sender) && UnitsOk(sources, units, sender)
    ensures UnitsOk(sources, [u] + units, sender)
  {
    hide UnitOk;
  }

  lemma EndUnitOk(sources: Sources, token: Bytes, sender: Bytes)
    requires IsWord(token)
    ensures UnitOk(sources, Line(EndLine(token)), sender)
  {
    hide LineOk, EndLine;
    EndLineOk(sources, token, sender);
  }

  lemma FrameUnitOk(sources: Sources, token: Bytes, offset: nat, size: nat, sender: Bytes)
    requires token in sources && IsWord(token) && 0 < size && offset + size <= |sources[token]| <= MAX_FILE_SIZE
    ensures UnitOk(sources, Chunk(ChunkLine(token, offset, size) + "\n", sources[token][offset..offset + size]), sender)
  {
    hide ChunkLine;
    var unit := Chunk(ChunkLine(token, offset, size) + "\n", sources[token][offset..offset + size]);
    assert ChunkAt(sources, unit, token, offset);
  }

  /** What the client's loop sends is a stream the server can follow. */
  lemma {:induction false} UploadUnitsOk(sources: Sources, token: Bytes, offset: nat, sender: Bytes)
    requires token in sources && IsWord(token) && |sources[token]| <= MAX_FILE_SIZE
    ensures UnitsOk(sources, UploadUnits(token, sources[token], offset), sender)
    decreases |sources[token]| - offset
  {
    var source := sources[token];
    hide UnitsOk, UnitOk, ChunkLine, EndLine;
    if offset >= |source| {
      EndUnitOk(sources, token, sender);
      NoneOk(sources, sender);
      FirstOk(sources, Line(EndLine(token)), [], sender);
    } else {
      var size := FrameSize(source, offset);
      var unit := Chunk(ChunkLine(token, offset, size) + "\n", source[offset..offset + size]);
      FrameUnitOk(sources, token, offset, size, sender);
      UploadUnitsOk(sources, token, offset + size, sender);
      FirstOk(sources, unit, UploadUnits(token, source, offset + size), sender);
    }
  }

  lemma EndLineParses(token: Bytes)
    requires IsWord(token)
    ensures '\n' !in EndLine(token)
    ensures forall sender :: RequestOf(EndLine(token), sender) == EndRequest(token)
    ensures ParseCommand(StripReturn(EndLine(token))).name == "FILE_END"
  {
    FileLines.WordTight(token);
    FileLines.TightJoin("FILE_END", token);
    ParsePrintedCommand("FILE_END", token);
    hide SplitWords, ParseCommand, Classify;
    assert StripReturn(EndLine(token)) == EndLine(token);
    forall sender ensures RequestOf(EndLine(token), sender) == EndRequest(token) {
      EndClassified(token, sender);
    }
  }

  lemma EndClassified(token: Bytes, sender: Bytes)
    requires IsWord(token)
    ensures Classify(Command("FILE_END", token), sender) == EndRequest(token)
  {
    SplitLastWord(token);
    hide SplitWords;
  }

  lemma EndLineOk(sources: Sources, token: Bytes, sender: Bytes)
    requires IsWord(token)
    ensures LineOk(sources, EndLine(token), sender)
  {
    EndLineParses(token);
    hide EndLine, Classify;
  }

  // ---- the server with all its connections --------------------------------------------------

  /** One connection: the server's side, what the client will still send, and who it is. */
  datatype Peer = Peer(d: Demux, future: Bytes, units: seq<Unit>, sender: Bytes)

  /** `recorded` holds the tokens with a row in file_transfers, where tokens are unique. */
  datatype World = World(s: Storage, recorded: set<Bytes>, peers: map<nat, Peer>)

  /** What the database decides: whether the permission checks pass, whether the row is saved, and
      what a command that is no file command does to the session. */
  datatype Choice = Choice(allowed: bool, saved: bool, effect: Effect)

  datatype Reaction = Reaction(s: Storage, recorded: set<Bytes>, effect: Effect)

  /** `handle_file_end` after its first checks. */
  function FinishUpload(s: Storage, recorded: set<Bytes>, sha: Digest, u: Upload, choice: Choice): Reaction {
    if !choice.allowed || !FinalizeOk(s, sha, u.token, u.expected, u.digest)
    then Reaction(Cancel(s, u.token), recorded, Detach)
    else
      var done := Finalize(s, u.token, u.name);
      if choice.saved && u.token !in recorded then Reaction(done, recorded + {u.token}, Detach)
      else Reaction(done.(stored := done.stored - {(u.token, u.name)}), recorded, Detach)
  }

  function React(s: Storage, recorded: set<Bytes>, sha: Digest, d: Demux, request: Request, choice: Choice): Reaction {
    match request
    case ChunkRequest => Reaction(s, recorded, Keep)
    case MalformedBegin => Reaction(s, recorded, Detach)
    case BeginRequest(token, meta) =>
      if d.upload.Some? || !choice.allowed then Reaction(s, recorded, Detach)
      else
        var begun := BeginUpload(s, token, meta);
        if begun.resumed.None? then Reaction(begun.s, recorded, Detach)
        else
          var m := begun.resumed.value.meta;
          Reaction(begun.s, recorded, Begin(Upload(token, m.name, m.digest, begun.resumed.value.offset, m.size)))
    case EndRequest(token) =>
      if d.upload.None? || d.upload.value.token != token || d.upload.value.received != d.upload.value.expected
      then Reaction(s, recorded, Detach)
      else FinishUpload(s, recorded, sha, d.upload.value, choice)
    case AbortRequest(token) =>
      if d.upload.None? || d.upload.value.token != token then Reaction(s, recorded, Keep)
      else Reaction(Cancel(s, token), recorded, Detach)
    case OtherRequest => Reaction(s, recorded, if choice.effect.Begin? then Keep else choice.effect)
  }

  datatype Action =
    | Connect(peer: nat, sender: Bytes, units: seq<Unit>)
    | Arrive(peer: nat, count: nat)           // the next bytes reach the server
    | Work(peer: nat, choice: Choice)         // one round of `on_message`
    | Disconnect(peer: nat)                   // the .part file stays

  /** A round of a connection that is collecting a frame. */
  function WorkFrame(w: World, i: nat): World
    requires i in w.peers && CanStep(w.peers[i].d) && InFrame(w.peers[i].d)
  {
    var peer := w.peers[i];
    var f := peer.d.frame.value;
    var ok := AppendOk(w.s, f.token, f.start);
    var d' := Step(peer.d, Env(_ => Keep, _ => ok));
    var complete := |d'.appended| > |peer.d.appended| && f.token in w.s.parts;
    World(if complete then AppendBytes(w.s, f.token, d'.appended[|d'.appended| - 1].bytes) else w.s,
          w.recorded, w.peers[i := peer.(d := d')])
  }

  /** A round that takes a line. */
  function WorkLine(w: World, sha: Digest, i: nat, choice: Choice): World
    requires i in w.peers && CanStep(w.peers[i].d) && !InFrame(w.peers[i].d)
  {
    var peer := w.peers[i];
    var line := peer.d.buffer[..IndexOf(peer.d.buffer, '\n')];
    var command := ParseCommand(StripReturn(line));
    var reaction := if command.name == [] then Reaction(w.s, w.recorded, Keep)
                    else React(w.s, w.recorded, sha, peer.d, Classify(command, peer.sender), choice);
    World(reaction.s, reaction.recorded,
          w.peers[i := peer.(d := Step(peer.d, Env(_ => reaction.effect, _ => false)),
                             units := if peer.units == [] then [] else peer.units[1..])])
  }

  function Act(w: World, sha: Digest, a: Action): World {
    match a
    case Connect(i, sender, units) =>
      if i in w.peers then w
      else w.(peers := w.peers[i := Peer(Demux([], true, None, None, [], [], [], false, false), UnitsBytes(units),
                                         units, sender)])
    case Arrive(i, count) =>
      if i !in w.peers then w
      else
        var peer := w.peers[i];
        var k := if count <= |peer.future| then count else |peer.future|;
        w.(peers := w.peers[i := peer.(d := More(peer.d, peer.future[..k]), future := peer.future[k..])])
    case Work(i, choice) =>
      if i !in w.peers || !CanStep(w.peers[i].d) then w
      else if InFrame(w.peers[i].d) then WorkFrame(w, i)
      else WorkLine(w, sha, i, choice)
    case Disconnect(i) => w.(peers := w.peers - {i})
  }

  // ---- the invariant ------------------------------------------------------------------------

  ghost predicate PartsOk(sources: Sources, parts: map<Bytes, Bytes>) {
    forall t :: t in parts ==> t in sources && parts[t] <= sources[t]
  }

  ghost predicate MetasOk(sources: Sources, metas: map<Bytes, Meta>) {
    forall t :: t in metas ==> t in sources && metas[t].size == |sources[t]|
  }

  ghost predicate StoredOk(sources: Sources, stored: map<(Bytes, Bytes), Bytes>) {
    forall k :: k in stored ==> k.0 in sources && stored[k] == sources[k.0]
  }

  ghost predicate StorageOk(sources: Sources, s: Storage) {
    PartsOk(sources, s.parts) && MetasOk(sources, s.metas) && StoredOk(sources, s.stored)
  }

  /** The session knows the true size, and the payload collected so far is the source's. */
  predicate SessionTrue(sources: Sources, d: Demux) {
    && (d.upload.Some? ==>
          d.upload.value.token in sources && d.upload.value.expected == |sources[d.upload.value.token]|)
    && (d.frame.Some? ==>
          var f := d.frame.value;
          && f.token in sources && f.start + |f.bytes| + f.remaining <= |sources[f.token]|
          && f.bytes == sources[f.token][f.start..f.start + |f.bytes|])
  }

  /** What is unread is the rest of the current payload and whole units. */
  ghost predicate PeerTracks(sources: Sources, peer: Peer) {
    var unread := peer.d.buffer + peer.future;
    && UnitsOk(sources, peer.units, peer.sender)
    && match peer.d.frame
       case None => unread == UnitsBytes(peer.units)
       case Some(f) =>
         && f.token in sources && f.remaining <= |unread| && unread[f.remaining..] == UnitsBytes(peer.units)
         && f.start + |f.bytes| + f.remaining <= |sources[f.token]|
         && unread[..f.remaining] == sources[f.token][f.start + |f.bytes|..f.start + |f.bytes| + f.remaining]
  }

  ghost predicate PeerOk(sources: Sources, peer: Peer) {
    peer.d.ended || (peer.d.Valid() && SessionTrue(sources, peer.d) && PeerTracks(sources, peer))
  }

  ghost predicate SourcesOk(sources: Sources) {
    forall t :: t in sources ==> |sources[t]| <= MAX_FILE_SIZE
  }

  ghost predicate WorldOk(sources: Sources, w: World) {
    StorageOk(sources, w.s) && forall i :: i in w.peers ==> PeerOk(sources, w.peers[i])
  }

  // ---- what each step keeps -----------------------------------------------------------------

  /** The file service keeps its files in order, whatever it is asked to do. */
  lemma ReactOk(sources: Sources, s: Storage, recorded: set<Bytes>, sha: Digest, d: Demux, request: Request,
                choice: Choice)
    requires SourcesOk(sources) && StorageOk(sources, s) && SessionTrue(sources, d)
    requires request.BeginRequest? ==> request.token in sources && request.meta.size == |sources[request.token]|
    ensures var r := React(s, recorded, sha, d, request, choice);
            && StorageOk(sources, r.s)
            && (r.effect.Begin? ==>
                  var u := r.effect.upload;
                  u.token in sources && u.received <= u.expected == |sources[u.token]| <= MAX_FILE_SIZE)
  {
    match request {
      case BeginRequest(token, meta) => BeginOk(sources, s, token, meta);
      case EndRequest(token) =>
        if d.upload.Some? {
          FinishOk(sources, s, recorded, sha, d.upload.value, choice);
        }
      case AbortRequest(token) => CancelOk(sources, s, token);
      case _ =>
    }
  }

  lemma BeginOk(sources: Sources, s: Storage, token: Bytes, meta: Meta)
    requires StorageOk(sources, s) && token in sources && meta.size == |sources[token]|
    ensures StorageOk(sources, BeginUpload(s, token, meta).s)
    ensures BeginUpload(s, token, meta).resumed.Some? ==>
              var r := BeginUpload(s, token, meta).resumed.value; r.offset <= r.meta.size == |sources[token]|
  {
  }

  lemma CancelOk(sources: Sources, s: Storage, token: Bytes)
    requires StorageOk(sources, s)
    ensures StorageOk(sources, Cancel(s, token))
  {
  }

  /** A finalized upload is the source: it has the source's size and is a prefix of it. */
  lemma FinishOk(sources: Sources, s: Storage, recorded: set<Bytes>, sha: Digest, u: Upload, choice: Choice)
    requires StorageOk(sources, s) && u.token in sources && u.expected == |sources[u.token]|
    ensures var r := FinishUpload(s, recorded, sha, u, choice);
            && StorageOk(sources, r.s)
            && (r.recorded != recorded ==>
                 (u.token, u.name) in r.s.stored && r.s.stored[(u.token, u.name)] == sources[u.token])
  {
    CancelOk(sources, s, u.token);
  }

  /** Payload bytes that continue the source. */
  lemma FrameOk(sources: Sources, w: World, i: nat)
    requires SourcesOk(sources) && WorldOk(sources, w) && i in w.peers && CanStep(w.peers[i].d) && InFrame(w.peers[i].d)
    ensures StorageOk(sources, WorkFrame(w, i).s) && PeerOk(sources, WorkFrame(w, i).peers[i])
  {
    hide Step, StorageOk, SourcesOk;
    var peer := w.peers[i];
    assert PeerOk(sources, peer);
    hide PeerOk, AppendOk;
    FrameKept(sources, w.s, peer);
  }

  lemma FrameKept(sources: Sources, s: Storage, peer: Peer)
    requires StorageOk(sources, s) && PeerOk(sources, peer) && CanStep(peer.d) && InFrame(peer.d)
    ensures var f := peer.d.frame.value;
            var d' := Step(peer.d, Env(_ => Keep, _ => AppendOk(s, f.token, f.start)));
            && PeerOk(sources, peer.(d := d'))
            && (|d'.appended| > |peer.d.appended| && f.token in s.parts ==>
                  StorageOk(sources, AppendBytes(s, f.token, d'.appended[|d'.appended| - 1].bytes)))
  {
    hide StorageOk, PeerOk, AppendOk;
    var f := peer.d.frame.value;
    var env := Env(_ => Keep, _ => AppendOk(s, f.token, f.start));
    FrameRead(sources, peer);
    FramePeer(sources, peer, env);
    FrameStored(sources, s, peer, env);
  }

  /** What has arrived of the payload is the source's. */
  lemma FrameRead(sources: Sources, peer: Peer)
    requires PeerOk(sources, peer) && CanStep(peer.d) && InFrame(peer.d)
    ensures var f, count := peer.d.frame.value, PayloadCount(peer.d);
            var end := f.start + |f.bytes| + count;
            && !Mismatch(peer.d) && f.token in sources && end <= |sources[f.token]|
            && f.bytes + peer.d.buffer[..count] == sources[f.token][f.start..end]
  {
    hide UnitsBytes, UnitsOk;
    var f, count := peer.d.frame.value, PayloadCount(peer.d);
    var source, at := sources[f.token], f.start + |f.bytes|;
    PayloadCut(peer.d.buffer, peer.future, count, f.remaining, source, at);
    assert source[f.start..at] + source[at..at + count] == source[f.start..at + count];
  }

  lemma FramePeer(sources: Sources, peer: Peer, env: Env)
    requires PeerOk(sources, peer) && CanStep(peer.d) && InFrame(peer.d) && EnvOk(env)
    ensures PeerOk(sources, peer.(d := Step(peer.d, env)))
  {
    hide HandleLine, UnitsBytes, UnitsOk;
    var f, count := peer.d.frame.value, PayloadCount(peer.d);
    FrameRead(sources, peer);
    PayloadCut(peer.d.buffer, peer.future, count, f.remaining, sources[f.token], f.start + |f.bytes|);
    ServerDemux.StepValid(peer.d, env);
  }

  lemma FrameStored(sources: Sources, s: Storage, peer: Peer, env: Env)
    requires StorageOk(sources, s) && CanStep(peer.d) && InFrame(peer.d) && !Mismatch(peer.d)
    requires env.appends(|peer.d.appended|) ==> AppendOk(s, peer.d.frame.value.token, peer.d.frame.value.start)
    requires var f, count := peer.d.frame.value, PayloadCount(peer.d);
             var end := f.start + |f.bytes| + count;
             && f.token in sources && end <= |sources[f.token]|
             && f.bytes + peer.d.buffer[..count] == sources[f.token][f.start..end]
    ensures var d', token := Step(peer.d, env), peer.d.frame.value.token;
            |d'.appended| > |peer.d.appended| && token in s.parts ==>
              StorageOk(sources, AppendBytes(s, token, d'.appended[|d'.appended| - 1].bytes))
  {
    hide HandleLine, MetasOk, StoredOk;
    var f, count := peer.d.frame.value, PayloadCount(peer.d);
    var source, end := sources[f.token], f.start + |f.bytes| + count;
    if f.remaining == count && AppendOk(s, f.token, f.start) {
      assert s.parts[f.token] + source[f.start..end] == source[..end];
    }
  }

  lemma LineOkStep(sources: Sources, w: World, sha: Digest, i: nat, choice: Choice)
    requires SourcesOk(sources) && WorldOk(sources, w) && i in w.peers
    requires var peer := w.peers[i]; CanStep(peer.d) && peer.d.frame.None? && peer.units != [] && peer.units[0].Line?
    ensures StorageOk(sources, WorkLine(w, sha, i, choice).s) && PeerOk(sources, WorkLine(w, sha, i, choice).peers[i])
  {
    hide ParseCommand, SplitWords, ParseUint64, IndexOf, StorageOk, SourcesOk, React;
    var peer := w.peers[i];
    assert PeerOk(sources, peer);
    var text := peer.units[0].text;
    assert UnitOk(sources, peer.units[0], peer.sender);
    NextLine(peer.d.buffer, peer.future, text, UnitsBytes(peer.units[1..]));
    var command := ParseCommand(StripReturn(text));
    var request := Classify(command, peer.sender);
    ReactOk(sources, w.s, w.recorded, sha, peer.d, request, choice);
    var effect := React(w.s, w.recorded, sha, peer.d, request, choice).effect;
    var env := Env(_ => if command.name == [] then Keep else effect, _ => false);
    ServerDemux.StepValid(peer.d, env);
    CommandTrue(sources, peer.d.(buffer := peer.d.buffer[|text| + 1..]), env, text, peer.sender);
  }

  /** What a line that is no FILE_CHUNK does to the session. */
  lemma CommandTrue(sources: Sources, d: Demux, env: Env, text: Bytes, sender: Bytes)
    requires !d.ended && SessionTrue(sources, d) && d.frame.None? && RequestOf(text, sender) != ChunkRequest
    requires forall k :: env.effects(k).Begin? ==>
               env.effects(k).upload.token in sources
                 && env.effects(k).upload.expected == |sources[env.effects(k).upload.token]|
    ensures var d' := HandleLine(d, env, text); SessionTrue(sources, d') && d'.frame.None?
  {
    hide ParseCommand, SplitWords, ParseUint64;
  }

  lemma ChunkOkStep(sources: Sources, w: World, sha: Digest, i: nat, choice: Choice, token: Bytes, offset: nat)
    requires SourcesOk(sources) && WorldOk(sources, w) && i in w.peers && !w.peers[i].d.ended
    requires var peer := w.peers[i];
             CanStep(peer.d) && peer.d.frame.None? && peer.units != [] && ChunkAt(sources, peer.units[0], token, offset)
    ensures WorkLine(w, sha, i, choice).s == w.s && PeerOk(sources, WorkLine(w, sha, i, choice).peers[i])
  {
    hide ParseCommand, IndexOf, StorageOk, ChunkLine, React, Classify, Step, UnitsBytes;
    var peer := w.peers[i];
    var d := peer.d;
    assert PeerOk(sources, peer);
    var u := peer.units[0];
    var n, tail := |u.payload|, UnitsBytes(peer.units[1..]);
    FirstUnit(peer.units);
    Stream.Assoc(u.header, u.payload, tail);
    var env := Env(_ => Keep, _ => false);
    HeaderStep(d, env, peer.future, token, offset, n, u.payload + tail);
    HeaderReaction(w, sha, d, ParseCommand(StripReturn(d.buffer[..IndexOf(d.buffer, '\n')])), peer.sender, choice);
    ServerDemux.StepValid(d, env);
    ChunkPeer(sources, peer, Step(d, env), u, token, offset);
  }

  /** The peer after a frame header. */
  lemma ChunkPeer(sources: Sources, peer: Peer, d': Demux, u: Unit, token: Bytes, offset: nat)
    requires PeerOk(sources, peer) && !peer.d.ended && peer.units != [] && peer.units[0] == u
    requires ChunkAt(sources, u, token, offset) && d'.Valid()
             && d'.buffer + peer.future == u.payload + UnitsBytes(peer.units[1..])
    requires d'.ended || (d'.upload == peer.d.upload && d'.frame == Some(PendingFrame(token, offset, [], |u.payload|)))
    ensures PeerOk(sources, peer.(d := d', units := peer.units[1..]))
  {
    hide ChunkLine, UnitsBytes, Demux.Valid;
    var n, rest := |u.payload|, u.payload + UnitsBytes(peer.units[1..]);
    assert rest[n..] == UnitsBytes(peer.units[1..]) && rest[..n] == u.payload;
    assert sources[token][offset..offset] == [];
  }

  /** Somebody is logged in when the next command comes. */
  predicate ChunkHeard(d: Demux, env: Env) { env.effects(|d.commands|) != NotLoggedIn }

  /** A frame header is taken off the buffer; it opens its frame or is refused, and when nobody is
      logged in it does nothing. */
  lemma HeaderStep(d: Demux, env: Env, future: Bytes, token: Bytes, offset: nat, n: nat, rest: Bytes)
    requires CanStep(d) && d.frame.None? && IsWord(token) && offset < UINT64_LIMIT && n < UINT64_LIMIT
    requires d.buffer + future == ChunkLine(token, offset, n) + "\n" + rest
    ensures IndexOf(d.buffer, '\n') < |d.buffer|
    ensures ParseCommand(StripReturn(d.buffer[..IndexOf(d.buffer, '\n')])).name == "FILE_CHUNK"
    ensures var d' := Step(d, env);
            && d'.buffer + future == rest
            && d'.ended == (ChunkHeard(d, env) && !ChunkAccepted(d, token, offset, n))
            && (!d'.ended ==> d' == d.(buffer := d'.buffer, lines := d'.lines, commands := d'.commands,
                                       frame := if ChunkHeard(d, env) then Some(PendingFrame(token, offset, [], n))
                                                else None))
  {
    hide ParseCommand, SplitWords, ParseUint64, IndexOf, ChunkLine;
    var line := ChunkLine(token, offset, n);
    ChunkLineParses(token, offset, n);
    NextLine(d.buffer, future, line, rest);
    assert StripReturn(line) == line;
  }

  ghost predicate Enabled(sources: Sources, a: Action) {
    a.Connect? ==> UnitsOk(sources, a.units, a.sender)
  }

  lemma ConnectOk(sources: Sources, sender: Bytes, units: seq<Unit>)
    requires UnitsOk(sources, units, sender)
    ensures PeerOk(sources, Peer(Demux([], true, None, None, [], [], [], false, false), UnitsBytes(units), units,
                                 sender))
  {
    assert [] + UnitsBytes(units) == UnitsBytes(units);
  }

  lemma ArriveOk(sources: Sources, peer: Peer, k: nat)
    requires PeerOk(sources, peer) && k <= |peer.future|
    ensures PeerOk(sources, peer.(d := More(peer.d, peer.future[..k]), future := peer.future[k..]))
  {
    hide UnitsOk, UnitsBytes;
    assert peer.future == peer.future[..k] + peer.future[k..];
    assert peer.d.buffer + peer.future[..k] + peer.future[k..] == peer.d.buffer + peer.future;
  }

  lemma WorkOk(sources: Sources, w: World, sha: Digest, i: nat, choice: Choice)
    requires SourcesOk(sources) && WorldOk(sources, w) && i in w.peers && CanStep(w.peers[i].d)
    ensures var w' := Act(w, sha, Work(i, choice)); StorageOk(sources, w'.s) && PeerOk(sources, w'.peers[i])
  {
    var peer := w.peers[i];
    assert PeerOk(sources, peer);
    if InFrame(peer.d) {
      FrameOk(sources, w, i);
    } else {
      assert peer.units != [] && UnitOk(sources, peer.units[0], peer.sender);
      hide WorkLine, WorkFrame, StorageOk, LineOk, ChunkAt;
      if peer.units[0].Line? {
        LineOkStep(sources, w, sha, i, choice);
      } else {
        var token, offset :| ChunkAt(sources, peer.units[0], token, offset);
        ChunkOkStep(sources, w, sha, i, choice, token, offset);
      }
    }
  }

  lemma ActOk(sources: Sources, w: World, sha: Digest, a: Action)
    requires SourcesOk(sources) && WorldOk(sources, w) && Enabled(sources, a)
    ensures WorldOk(sources, Act(w, sha, a))
  {
    hide StorageOk, PeerOk, SourcesOk, CanStep, UnitsOk;
    match a {
      case Connect(i, sender, units) => ConnectOk(sources, sender, units);
      case Arrive(i, count) =>
        if i in w.peers {
          ArriveOk(sources, w.peers[i], if count <= |w.peers[i].future| then count else |w.peers[i].future|);
        }
      case Work(i, choice) =>
        if i in w.peers && CanStep(w.peers[i].d) {
          WorkOk(sources, w, sha, i, choice);
        }
      case Disconnect(i) =>
    }
  }

  function ActAll(w: World, sha: Digest, actions: seq<Action>): World
    decreases |actions|
  {
    if actions == [] then w else ActAll(Act(w, sha, actions[0]), sha, actions[1..])
  }

  lemma {:induction false} ActAllOk(sources: Sources, w: World, sha: Digest, actions: seq<Action>)
    requires SourcesOk(sources) && WorldOk(sources, w)
    requires forall k :: 0 <= k < |actions| ==> Enabled(sources, actions[k])
    ensures WorldOk(sources, ActAll(w, sha, actions))
    decreases |actions|
  {
    hide SourcesOk, WorldOk, Enabled, Act;
    if actions == [] {
    } else {
      ActOk(sources, w, sha, actions[0]);
      ActAllOk(sources, Act(w, sha, actions[0]), sha, actions[1..]);
    }
  }

  const EMPTY: World := World(Storage(map[], map[], map[]), {}, map[])

  /** Over every run of connects, disconnects and interleaved uploads, several connections using one
      token included and each connection followed up to its first refused frame: a .part file is a
      prefix of its source, and a stored file is its source, byte for byte. */
  lemma UploadSafety(sources: Sources, sha: Digest, actions: seq<Action>)
    requires SourcesOk(sources)
    requires forall k :: 0 <= k < |actions| ==> Enabled(sources, actions[k])
    ensures var s := ActAll(EMPTY, sha, actions).s;
            && (forall t :: t in s.parts ==> t in sources && s.parts[t] <= sources[t])
            && (forall k :: k in s.stored ==> k.0 in sources && s.stored[k] == sources[k.0])
  {
    hide Act, Enabled, SourcesOk;
    ActAllOk(sources, EMPTY, sha, actions);
    hide ActAll, PeerOk;
  }

  // ---- an upload nobody disturbs ------------------------------------------------------------

  /** The session and the .part file agree; what the client has sent is the rest of the source. */
  ghost predicate Undisturbed(w: World, i: nat, token: Bytes, source: Bytes) {
    && i in w.peers && token in w.s.parts && w.s.parts[token] <= source && |source| <= MAX_FILE_SIZE && IsWord(token)
    && var peer := w.peers[i];
    && peer.d.connected && !peer.d.ended && peer.d.frame.None? && peer.d.upload.Some?
    && peer.d.upload.value.token == token && peer.d.upload.value.received == |w.s.parts[token]|
    && peer.d.upload.value.expected == |source|
    && peer.d.buffer == UnitsBytes(UploadUnits(token, source, |w.s.parts[token]|))
  }

  /** The header of the next frame is accepted. */
  lemma HeaderTaken(d: Demux, env: Env, token: Bytes, offset: nat, size: nat, rest: Bytes)
    requires d.connected && !d.ended && d.frame.None? && d.upload.Some? && IsWord(token) && ChunkHeard(d, env)
    requires d.upload.value.token == token && d.upload.value.received == offset
    requires 0 < size <= MAX_FRAME_BYTES && offset + size <= d.upload.value.expected <= MAX_FILE_SIZE
    requires d.buffer == ChunkLine(token, offset, size) + "\n" + rest
    ensures CanStep(d) && !InFrame(d) && IndexOf(d.buffer, '\n') < |d.buffer|
    ensures ParseCommand(StripReturn(d.buffer[..IndexOf(d.buffer, '\n')])).name == "FILE_CHUNK"
    ensures var d' := Step(d, env);
            && d' == d.(buffer := rest, frame := Some(PendingFrame(token, offset, [], size)), lines := d'.lines,
               commands := d'.commands)
  {
    hide ParseCommand, IndexOf, ChunkLine, Step;
    assert d.buffer[|ChunkLine(token, offset, size)|] == '\n';
    var nothing: Bytes := [];
    assert d.buffer + nothing == d.buffer && Step(d, env).buffer + nothing == Step(d, env).buffer;
    HeaderStep(d, env, nothing, token, offset, size, rest);
  }

  /** Its payload is appended. */
  lemma PayloadTaken(d: Demux, env: Env, f: PendingFrame, payload: Bytes, rest: Bytes)
    requires d.connected && !d.ended && d.frame == Some(f) && f.bytes == [] && f.remaining == |payload| > 0
    requires d.upload.Some? && d.upload.value.token == f.token && env.appends(|d.appended|)
    requires d.buffer == payload + rest
    ensures CanStep(d) && InFrame(d)
    ensures Step(d, env) == d.(buffer := rest, frame := None,
                               upload := Some(d.upload.value.(received := f.start + |payload|)),
                               appended := d.appended + [Append(f.token, f.start, payload)])
  {
    hide HandleLine;
    assert d.buffer[..|payload|] == payload && d.buffer[|payload|..] == rest && [] + payload == payload;
  }

  /** The state between a frame's header and its payload. */
  ghost predicate AwaitsPayload(w: World, i: nat, token: Bytes, source: Bytes) {
    && i in w.peers && token in w.s.parts && w.s.parts[token] <= source
    && |w.s.parts[token]| < |source| <= MAX_FILE_SIZE
    && IsWord(token)
    && var d, offset := w.peers[i].d, |w.s.parts[token]|;
       var size := FrameSize(source, offset);
    && d.connected && !d.ended && d.upload.Some? && d.upload.value.token == token
    && d.upload.value.received == offset && d.upload.value.expected == |source|
    && d.frame == Some(PendingFrame(token, offset, [], size))
    && d.buffer == source[offset..offset + size] + UnitsBytes(UploadUnits(token, source, offset + size))
  }

  predicate SameUpload(w: World, w': World, i: nat)
    requires i in w.peers && i in w'.peers
  {
    && w'.recorded == w.recorded && w'.s.stored == w.s.stored
    && w.peers[i].d.upload.Some? && w'.peers[i].d.upload.Some?
    && w'.peers[i].d.upload.value.name == w.peers[i].d.upload.value.name
    && w'.peers[i].d.upload.value.digest == w.peers[i].d.upload.value.digest
  }

  lemma HeaderRound(w: World, sha: Digest, i: nat, choice: Choice, token: Bytes, source: Bytes)
    requires Undisturbed(w, i, token, source) && |w.s.parts[token]| < |source|
    ensures var w' := Act(w, sha, Work(i, choice));
            AwaitsPayload(w', i, token, source) && SameUpload(w, w', i) && w'.s == w.s
  {
    hide ParseCommand, IndexOf, ChunkLine, UploadUnits, UnitsBytes, Step, React, Classify;
    var offset := |w.s.parts[token]|;
    var size := FrameSize(source, offset);
    var payload, rest := source[offset..offset + size], UnitsBytes(UploadUnits(token, source, offset + size));
    var d := w.peers[i].d;
    UploadFrame(token, source, offset);
    Stream.Assoc(ChunkLine(token, offset, size) + "\n", payload, rest);
    HeaderTaken(d, Env(_ => Keep, _ => false), token, offset, size, payload + rest);
    HeaderWorld(w, sha, i, choice);
    hide Act;
  }

  /** A FILE_CHUNK line changes nothing but its session. */
  lemma HeaderWorld(w: World, sha: Digest, i: nat, choice: Choice)
    requires i in w.peers && CanStep(w.peers[i].d) && !InFrame(w.peers[i].d)
    requires IndexOf(w.peers[i].d.buffer, '\n') < |w.peers[i].d.buffer|
    requires ParseCommand(StripReturn(w.peers[i].d.buffer[..IndexOf(w.peers[i].d.buffer, '\n')])).name == "FILE_CHUNK"
    ensures var w' := Act(w, sha, Work(i, choice));
            && w'.s == w.s && w'.recorded == w.recorded && i in w'.peers
            && w'.peers[i].d == Step(w.peers[i].d, Env(_ => Keep, _ => false))
  {
    hide ParseCommand, IndexOf, Step, React, Classify;
    var d := w.peers[i].d;
    var command := ParseCommand(StripReturn(d.buffer[..IndexOf(d.buffer, '\n')]));
    HeaderReaction(w, sha, d, command, w.peers[i].sender, choice);
  }

  lemma PayloadRound(w: World, sha: Digest, i: nat, choice: Choice, token: Bytes, source: Bytes)
    requires AwaitsPayload(w, i, token, source)
    ensures var w' := Act(w, sha, Work(i, choice));
            Undisturbed(w', i, token, source) && SameUpload(w, w', i) && |w'.s.parts[token]| > |w.s.parts[token]|
  {
    hide UploadUnits, UnitsBytes, Step;
    var offset := |w.s.parts[token]|;
    var size := FrameSize(source, offset);
    var payload, rest := source[offset..offset + size], UnitsBytes(UploadUnits(token, source, offset + size));
    var d := w.peers[i].d;
    PayloadTaken(d, Env(_ => Keep, _ => AppendOk(w.s, token, offset)), d.frame.value, payload, rest);
    assert w.s.parts[token] + payload == source[..offset + size];
  }

  lemma HeaderReaction(w: World, sha: Digest, d: Demux, command: Command, sender: Bytes, choice: Choice)
    requires command.name == "FILE_CHUNK"
    ensures React(w.s, w.recorded, sha, d, Classify(command, sender), choice) == Reaction(w.s, w.recorded, Keep)
  {
  }

  lemma EndRound(w: World, sha: Digest, i: nat, choice: Choice, token: Bytes, source: Bytes)
    requires Undisturbed(w, i, token, source) && w.s.parts[token] == source
    ensures var w', r := Act(w, sha, Work(i, choice)),
            FinishUpload(w.s, w.recorded, sha, w.peers[i].d.upload.value, choice);
            w'.s == r.s && w'.recorded == r.recorded
  {
    hide ParseCommand, SplitWords, IndexOf, UploadUnits, UnitsBytes, Step, FinishUpload, BeginUpload;
    var d := w.peers[i].d;
    var line := EndLine(token);
    UploadEnd(token, source, |source|);
    EndLineParses(token);
    hide EndLine;
    assert d.buffer[|line|] == '\n';
    assert d.buffer == line + "\n" + [] && d.buffer + [] == d.buffer;
    NextLine(d.buffer, [], line, []);
    var sender := w.peers[i].sender;
    assert RequestOf(line, sender) == EndRequest(token);
    hide Classify;
    assert CanStep(d) && !InFrame(d);
    assert React(w.s, w.recorded, sha, d, EndRequest(token), choice)
           == FinishUpload(w.s, w.recorded, sha, d.upload.value, choice);
  }

  function Repeat(a: Action, n: nat): seq<Action> { seq(n, _ => a) }

  /** An upload that nobody disturbs, whose sender may send it and whose digest is right, comes to
      its end after finitely many rounds; its .part file is gone then.  Its content is stored if
      and only if no transfer was recorded under its token before: finishing a second upload under
      a token removes the stored file of the first. */
  lemma {:induction false} UploadFinishes(w: World, sha: Digest, i: nat, choice: Choice, token: Bytes,
                                          source: Bytes) returns (n: nat)
    requires Undisturbed(w, i, token, source) && choice.allowed && choice.saved
    requires sha(source) == ToLowerAll(w.peers[i].d.upload.value.digest)
    ensures var w', name := ActAll(w, sha, Repeat(Work(i, choice), n)), w.peers[i].d.upload.value.name;
            && token !in w'.s.parts && token in w'.recorded
            && ((token, name) in w'.s.stored <==> token !in w.recorded)
            && ((token, name) in w'.s.stored ==> w'.s.stored[(token, name)] == source)
    decreases |source| - |w.s.parts[token]|
  {
    hide ToLowerAll, Step, WorkFrame, WorkLine, UnitsBytes, UploadUnits;
    var a := Work(i, choice);
    if w.s.parts[token] == source {
      EndRound(w, sha, i, choice, token, source);
      n := 1;
      assert Repeat(a, 1)[1..] == [];
    } else {
      HeaderRound(w, sha, i, choice, token, source);
      PayloadRound(Act(w, sha, a), sha, i, choice, token, source);
      var m := UploadFinishes(Act(Act(w, sha, a), sha, a), sha, i, choice, token, source);
      n := m + 2;
      assert Repeat(a, n)[1..] == Repeat(a, m + 1) && Repeat(a, m + 1)[1..] == Repeat(a, m);
      assert ActAll(w, sha, Repeat(a, n)) == ActAll(Act(w, sha, a), sha, Repeat(a, m + 1));
    }
  }
}
